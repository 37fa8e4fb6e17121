/**
 * The step interpreter of src/lib.ts: `handleAutoSteps` and its handlers. A batch of
 * steps from the backend runs in list order against the file system; file-changing
 * steps ask the user first and act only on a typed "yes"; `REQUEST_FILE` and
 * `QUERY_USER` each contribute one `user` message to the reply.
 *
 * The process around the interpreter is a `Machine`: the files, the stdin chunks not
 * yet read, the prompts written to stdout, and whether `process.exit` was called. The
 * functions below specify each handler and the whole batch; the class `Agent` runs
 * them imperatively, as the source does, and is proved to agree with them.
 */
module Steps {
  import opened Opt
  import opened Text
  import opened External
  import opened Conversation

  /** One member of the `AutoStep` union; `Unknown` is an object whose `type` is none of the six tags. */
  datatype AutoStep =
    | CreateFile(filePath: string, fileContents: string)
    | EditFile(filePath: string, fileContents: string)
    | DeleteFile(filePath: string)
    | RequestFile(filePath: string)
    | QueryUser(message: string)
    | Done
    | Unknown(tag: string)

  /** Why a batch ends without `handleAutoSteps` returning its messages. */
  datatype Halt =
    | Exited                    // `process.exit(0)` at a DONE step
    | InputClosed               // stdin delivers no further data, so an awaited answer never comes
    | ReadFailed(path: string)  // `readFileSync` threw: no such file; nothing catches it
    | UnlinkFailed(path: string) // `unlinkSync` threw: no such file; nothing catches it

  /** A normal result, or the abrupt end of the batch. */
  datatype Completion<T> = Normal(value: T) | Abrupt(why: Halt)

  datatype Machine = Machine(files: map<string, string>, stdin: seq<string>, shown: seq<string>, exited: bool)

  function CreatePrompt(path: string, contents: string): string {
    "Do you want to create the file at " + path + "?\n\n" + contents + "\n\n(yes/no)"
  }

  function EditPrompt(path: string, contents: string): string {
    "Do you want to edit the file at " + path + "?\n\n" + contents + "\n\n(yes/no)"
  }

  function DeletePrompt(path: string): string {
    "Do you want to delete the file at " + path + "? (yes/no)"
  }

  /** The answer `handleQueryUser` returns for a stdin chunk is its trimmed text; it confirms when that lower-cases to "yes". */
  predicate Confirms(chunk: string) {
    LowerAscii(Trim(chunk)) == "yes"
  }

  /** The object `{filePath, fileContent}` that REQUEST_FILE serialises. */
  function FileJson(path: string, content: string): Json {
    Obj([("filePath", Str(path)), ("fileContent", Str(content))])
  }

  /** `handleQueryUser`: write the message and a `> ` prompt, then take the next stdin chunk, trimmed. */
  function Query(m: Machine, message: string): (Machine, Completion<string>) {
    var m' := m.(shown := m.shown + [message + "\n> "]);
    if m.stdin == [] then (m', Abrupt(InputClosed))
    else (m'.(stdin := m.stdin[1..]), Normal(Trim(m.stdin[0])))
  }

  /** `handleCreateFile` and `handleEditFile`: ask with `prompt`, then write on a "yes". */
  function Write(m: Machine, prompt: string, path: string, contents: string): (Machine, Completion<()>) {
    var (m', answer) := Query(m, prompt);
    match answer
    case Abrupt(h) => (m', Abrupt(h))
    case Normal(a) =>
      if LowerAscii(a) == "yes" then (m'.(files := m'.files[path := contents]), Normal(()))
      else (m', Normal(()))
  }

  /** `handleDeleteFile`: ask, then unlink on a "yes"; unlinking a missing file throws. */
  function Delete(m: Machine, path: string): (Machine, Completion<()>) {
    var (m', answer) := Query(m, DeletePrompt(path));
    match answer
    case Abrupt(h) => (m', Abrupt(h))
    case Normal(a) =>
      if LowerAscii(a) != "yes" then (m', Normal(()))
      else if path in m'.files then (m'.(files := m'.files - {path}), Normal(()))
      else (m', Abrupt(UnlinkFailed(path)))
  }

  /** `handleRequestFile`: the JSON text of the path and the file's current contents; a missing file throws. */
  function Read(m: Machine, codecs: Codecs, path: string): Completion<string> {
    if path in m.files then Normal(codecs.stringify(FileJson(path, m.files[path]))) else Abrupt(ReadFailed(path))
  }

  function Unit(c: Completion<()>): Completion<seq<Message>> {
    match c
    case Normal(_) => Normal([])
    case Abrupt(h) => Abrupt(h)
  }

  function Reply(c: Completion<string>): Completion<seq<Message>> {
    match c
    case Normal(t) => Normal([Message(User, t)])
    case Abrupt(h) => Abrupt(h)
  }

  /** One iteration of the loop in `handleAutoSteps`: the new machine and the messages the step pushes. */
  function RunStep(m: Machine, codecs: Codecs, step: AutoStep): (Machine, Completion<seq<Message>>) {
    match step
    case CreateFile(p, c) => var (m', r) := Write(m, CreatePrompt(p, c), p, c); (m', Unit(r))
    case EditFile(p, c) => var (m', r) := Write(m, EditPrompt(p, c), p, c); (m', Unit(r))
    case DeleteFile(p) => var (m', r) := Delete(m, p); (m', Unit(r))
    case RequestFile(p) => (m, Reply(Read(m, codecs, p)))
    case QueryUser(message) => var (m', r) := Query(m, message); (m', Reply(r))
    case Done => (m.(exited := true), Abrupt(Exited))
    case Unknown(_) => (m, Normal([]))
  }

  /** The loop of `handleAutoSteps` from some point on, with `acc` the messages pushed so far. */
  function Run(m: Machine, codecs: Codecs, steps: seq<AutoStep>, acc: seq<Message>): (Machine, Completion<seq<Message>>)
    decreases |steps|
  {
    if steps == [] then (m, Normal(acc))
    else
      var (m', c) := RunStep(m, codecs, steps[0]);
      match c
      case Abrupt(h) => (m', Abrupt(h))
      case Normal(out) => Run(m', codecs, steps[1..], acc + out)
  }

  /** The loop at position `i`: run step `i`, then the rest unless it ended the batch. */
  lemma RunFrom(m: Machine, codecs: Codecs, steps: seq<AutoStep>, i: nat, acc: seq<Message>)
    requires i < |steps|
    ensures var next := RunStep(m, codecs, steps[i]);
      Run(m, codecs, steps[i..], acc) ==
        if next.1.Abrupt? then next else Run(next.0, codecs, steps[i + 1..], acc + next.1.value)
  {
    assert steps[i..][0] == steps[i] && steps[i..][1..] == steps[i + 1..];
  }

  /** The steps that change the file system after a confirmation. */
  predicate Mutates(step: AutoStep) {
    step.CreateFile? || step.EditFile? || step.DeleteFile?
  }

  /** The steps that read one stdin chunk. */
  predicate ReadsInput(step: AutoStep) {
    Mutates(step) || step.QueryUser?
  }

  /** The steps that push a message. */
  predicate Replies(step: AutoStep) {
    step.RequestFile? || step.QueryUser?
  }

  function CountInputs(steps: seq<AutoStep>): nat {
    if steps == [] then 0 else (if ReadsInput(steps[0]) then 1 else 0) + CountInputs(steps[1..])
  }

  function CountReplies(steps: seq<AutoStep>): nat {
    if steps == [] then 0 else (if Replies(steps[0]) then 1 else 0) + CountReplies(steps[1..])
  }

  /** What a confirmed mutating step does to the files. */
  function Apply(files: map<string, string>, step: AutoStep): map<string, string>
    requires Mutates(step)
  {
    match step
    case CreateFile(p, c) => files[p := c]
    case EditFile(p, c) => files[p := c]
    case DeleteFile(p) => files - {p}
  }

  // ---------------------------------------------------------------------------------
  // Properties of the interpreter

  /** A stdin chunk confirms exactly when, trimmed, it is "yes" in some mix of letter cases. */
  lemma ConfirmsSpelling(chunk: string)
    ensures Confirms(chunk) <==>
      var a := Trim(chunk); |a| == 3 && a[0] in "yY" && a[1] in "eE" && a[2] in "sS"
  {
    LowerIsYes(Trim(chunk));
  }

  /** `handleQueryUser` writes one prompt and consumes one chunk, or finds stdin closed. */
  lemma QueryFacts(m: Machine, message: string)
    ensures var (m', c) := Query(m, message);
      && m'.files == m.files && m'.exited == m.exited
      && m'.shown == m.shown + [message + "\n> "]
      && (c.Normal? <==> m.stdin != [])
      && (c.Normal? ==> c.value == Trim(m.stdin[0]) && m'.stdin == m.stdin[1..])
      && (c.Abrupt? ==> c.why == InputClosed)
  {
  }

  /**
   * One step of the batch: its effect on the files follows the confirmation policy (the
   * files change only for a create, edit or delete step whose stdin chunk confirms, and
   * then exactly as that step says; a delete of a missing file throws before any
   * effect); when it completes it reads one stdin chunk and writes one prompt exactly
   * when it is a create, edit, delete or QUERY_USER step, and pushes one `user` message
   * exactly when it is a REQUEST_FILE or QUERY_USER step; it ends the batch with an exit
   * exactly when it is DONE.
   */
  lemma StepFacts(m: Machine, codecs: Codecs, step: AutoStep)
    ensures var (m', c) := RunStep(m, codecs, step);
      && m'.files == (if Mutates(step) && m.stdin != [] && Confirms(m.stdin[0]) then Apply(m.files, step) else m.files)
      && m'.exited == (m.exited || step == Done)
      && (c == Abrupt(Exited) <==> step == Done)
      && (c.Normal? ==>
           && m'.stdin == (if ReadsInput(step) then m.stdin[1..] else m.stdin)
           && |m'.shown| == |m.shown| + (if ReadsInput(step) then 1 else 0)
           && |c.value| == (if Replies(step) then 1 else 0)
           && (forall k :: 0 <= k < |c.value| ==> c.value[k].role == User))
  {
    match step
    case CreateFile(p, contents) =>
      WriteFacts(m, CreatePrompt(p, contents), p, contents);
    case EditFile(p, contents) =>
      WriteFacts(m, EditPrompt(p, contents), p, contents);
    case DeleteFile(p) =>
      DeleteFacts(m, p);
    case RequestFile(p) =>
    case QueryUser(message) =>
      QueryFacts(m, message);
    case Done =>
    case Unknown(_) =>
  }

  lemma WriteFacts(m: Machine, prompt: string, path: string, contents: string)
    ensures var (m', c) := Write(m, prompt, path, contents);
      && m'.files == (if m.stdin != [] && Confirms(m.stdin[0]) then m.files[path := contents] else m.files)
      && m'.exited == m.exited
      && (c.Abrupt? ==> c.why == InputClosed)
      && (c.Normal? ==> m'.stdin == m.stdin[1..] && |m'.shown| == |m.shown| + 1)
  {
    QueryFacts(m, prompt);
  }

  lemma DeleteFacts(m: Machine, path: string)
    ensures var (m', c) := Delete(m, path);
      && m'.files == (if m.stdin != [] && Confirms(m.stdin[0]) then m.files - {path} else m.files)
      && m'.exited == m.exited
      && (c.Abrupt? ==> c.why == InputClosed || c.why == UnlinkFailed(path))
      && (c.Normal? ==> m'.stdin == m.stdin[1..] && |m'.shown| == |m.shown| + 1)
  {
    QueryFacts(m, DeletePrompt(path));
    if m.stdin != [] && path !in m.files {
      assert m.files - {path} == m.files;
    }
  }

  /** The confirmation policy of one step, on its own. */
  lemma StepFilesPolicy(m: Machine, codecs: Codecs, step: AutoStep)
    ensures RunStep(m, codecs, step).0.files ==
      if Mutates(step) && m.stdin != [] && Confirms(m.stdin[0]) then Apply(m.files, step) else m.files
  {
    StepFacts(m, codecs, step);
  }

  /**
   * A batch that runs to its end returns the messages already pushed followed by one
   * `user` message per REQUEST_FILE and QUERY_USER step, has read exactly one stdin
   * chunk (and written one prompt) per create, edit, delete and QUERY_USER step, and
   * has not exited.
   */
  lemma RunCompletes(m: Machine, codecs: Codecs, steps: seq<AutoStep>, acc: seq<Message>)
    ensures var (m', c) := Run(m, codecs, steps, acc);
      c.Normal? ==>
        && |c.value| == |acc| + CountReplies(steps)
        && c.value[..|acc|] == acc
        && (forall k :: |acc| <= k < |c.value| ==> c.value[k].role == User)
        && CountInputs(steps) <= |m.stdin|
        && m'.stdin == m.stdin[CountInputs(steps)..]
        && |m'.shown| == |m.shown| + CountInputs(steps)
        && m'.exited == m.exited
  {
    RunReplies(m, codecs, steps, acc);
    RunReadsInputs(m, codecs, steps, acc);
  }

  /** The messages of a completed batch: those already pushed, then one `user` message per replying step. */
  lemma {:induction false} RunReplies(m: Machine, codecs: Codecs, steps: seq<AutoStep>, acc: seq<Message>)
    ensures var c := Run(m, codecs, steps, acc).1;
      c.Normal? ==>
        && |c.value| == |acc| + CountReplies(steps)
        && c.value[..|acc|] == acc
        && (forall k :: |acc| <= k < |c.value| ==> c.value[k].role == User)
    decreases |steps|
  {
    if steps != [] {
      StepReplies(m, codecs, steps[0]);
      var (m1, c1) := RunStep(m, codecs, steps[0]);
      if c1.Normal? {
        var acc1 := acc + c1.value;
        RunReplies(m1, codecs, steps[1..], acc1);
        var c := Run(m, codecs, steps, acc).1;
        if c.Normal? {
          assert c.value[..|acc|] == c.value[..|acc1|][..|acc|];
          forall k | |acc| <= k < |acc1|
            ensures c.value[k].role == User
          {
            assert c.value[k] == acc1[k] == c1.value[k - |acc|];
          }
        }
      }
    }
  }

  /** The messages one completed step pushes: one `user` message exactly for REQUEST_FILE and QUERY_USER. */
  lemma StepReplies(m: Machine, codecs: Codecs, step: AutoStep)
    ensures var c := RunStep(m, codecs, step).1;
      c.Normal? ==> |c.value| == (if Replies(step) then 1 else 0) && forall k :: 0 <= k < |c.value| ==> c.value[k].role == User
  {
  }

  /** The machine after a completed batch: one stdin chunk read and one prompt shown per input-reading step, and no exit. */
  lemma {:induction false} RunReadsInputs(m: Machine, codecs: Codecs, steps: seq<AutoStep>, acc: seq<Message>)
    ensures var (m', c) := Run(m, codecs, steps, acc);
      c.Normal? ==>
        && CountInputs(steps) <= |m.stdin|
        && m'.stdin == m.stdin[CountInputs(steps)..]
        && |m'.shown| == |m.shown| + CountInputs(steps)
        && m'.exited == m.exited
    decreases |steps|
  {
    if steps != [] {
      StepFacts(m, codecs, steps[0]);
      var (m1, c1) := RunStep(m, codecs, steps[0]);
      if c1.Normal? {
        RunReadsInputs(m1, codecs, steps[1..], acc + c1.value);
        assert m1.stdin == m.stdin[if ReadsInput(steps[0]) then 1 else 0..];
      }
    }
  }

  /**
   * Steps run strictly in list order: running `s1 + s2` is running `s1` and then, if it
   * completed, running `s2` from the machine `s1` left, after the messages `s1` pushed.
   */
  lemma {:induction false} RunSequential(m: Machine, codecs: Codecs, s1: seq<AutoStep>, s2: seq<AutoStep>, acc: seq<Message>)
    ensures Run(m, codecs, s1 + s2, acc) ==
      var (m1, c1) := Run(m, codecs, s1, acc);
      match c1
      case Abrupt(_) => (m1, c1)
      case Normal(rs) => Run(m1, codecs, s2, rs)
    decreases |s1|
  {
    if s1 != [] {
      assert (s1 + s2)[0] == s1[0] && (s1 + s2)[1..] == s1[1..] + s2;
      var (m', c) := RunStep(m, codecs, s1[0]);
      if c.Normal? {
        RunSequential(m', codecs, s1[1..], s2, acc + c.value);
      }
    } else {
      assert s1 + s2 == s2;
    }
  }

  /**
   * DONE exits the process where it stands: whatever follows it in the batch never
   * runs, and if the steps before it completed, the outcome is the machine they left
   * with the exit flag set.
   */
  lemma DoneStopsBatch(m: Machine, codecs: Codecs, before: seq<AutoStep>, after: seq<AutoStep>, acc: seq<Message>)
    ensures var (m1, c1) := Run(m, codecs, before, acc);
      Run(m, codecs, before + [Done] + after, acc) ==
        if c1.Abrupt? then (m1, c1) else (m1.(exited := true), Abrupt(Exited))
  {
    assert before + [Done] + after == before + ([Done] + after);
    RunSequential(m, codecs, before, [Done] + after, acc);
  }

  /** A step with an unknown tag is only warned about: the batch runs as if it were absent. */
  lemma UnknownIsSkipped(m: Machine, codecs: Codecs, before: seq<AutoStep>, tag: string, after: seq<AutoStep>, acc: seq<Message>)
    ensures Run(m, codecs, before + [Unknown(tag)] + after, acc) == Run(m, codecs, before + after, acc)
  {
    var u := [Unknown(tag)] + after;
    assert before + [Unknown(tag)] + after == before + u;
    RunSequential(m, codecs, before, u, acc);
    RunSequential(m, codecs, before, after, acc);
    var (m1, c1) := Run(m, codecs, before, acc);
    if c1.Normal? {
      assert u[0] == Unknown(tag) && u[1..] == after;
      assert c1.value + [] == c1.value;
    }
  }

  /** When no stdin chunk confirms, no step of the batch changes any file. */
  lemma {:induction false} DeclinedBatchKeepsFiles(m: Machine, codecs: Codecs, steps: seq<AutoStep>, acc: seq<Message>)
    requires forall i :: 0 <= i < |m.stdin| ==> !Confirms(m.stdin[i])
    ensures Run(m, codecs, steps, acc).0.files == m.files
    decreases |steps|
  {
    if steps != [] {
      StepFacts(m, codecs, steps[0]);
      var (m1, c1) := RunStep(m, codecs, steps[0]);
      if c1.Normal? {
        assert m1.stdin == m.stdin || m1.stdin == m.stdin[1..];
        DeclinedBatchKeepsFiles(m1, codecs, steps[1..], acc + c1.value);
      }
    }
  }

  /** A path that no create, edit or delete step of the batch names keeps its contents (or its absence). */
  lemma {:induction false} UntargetedPathUnchanged(m: Machine, codecs: Codecs, steps: seq<AutoStep>, acc: seq<Message>, path: string)
    requires forall i :: 0 <= i < |steps| && Mutates(steps[i]) ==> steps[i].filePath != path
    ensures var files := Run(m, codecs, steps, acc).0.files;
      (path in files <==> path in m.files) && (path in files ==> files[path] == m.files[path])
    decreases |steps|
  {
    if steps != [] {
      StepFacts(m, codecs, steps[0]);
      var (m1, c1) := RunStep(m, codecs, steps[0]);
      if c1.Normal? {
        UntargetedPathUnchanged(m1, codecs, steps[1..], acc + c1.value, path);
      }
    }
  }

  /** Starting from a live process, the batch ends with the exit flag set exactly when it ended at a DONE step. */
  lemma {:induction false} ExitOnlyAtDone(m: Machine, codecs: Codecs, steps: seq<AutoStep>, acc: seq<Message>)
    requires !m.exited
    ensures var (m', c) := Run(m, codecs, steps, acc);
      m'.exited <==> c == Abrupt(Exited)
    ensures Run(m, codecs, steps, acc).1 == Abrupt(Exited) ==> exists i :: 0 <= i < |steps| && steps[i] == Done
    decreases |steps|
  {
    if steps != [] {
      StepFacts(m, codecs, steps[0]);
      var (m1, c1) := RunStep(m, codecs, steps[0]);
      if c1.Normal? {
        ExitOnlyAtDone(m1, codecs, steps[1..], acc + c1.value);
        if Run(m, codecs, steps, acc).1 == Abrupt(Exited) {
          var i :| 0 <= i < |steps[1..]| && steps[1..][i] == Done;
          assert steps[i + 1] == Done;
        }
      }
    }
  }

  // ---------------------------------------------------------------------------------
  // The interpreter as the source runs it

  class Agent {
    const codecs: Codecs
    var files: map<string, string>
    var stdin: seq<string>
    var shown: seq<string>
    var exited: bool

    function State(): Machine
      reads this
    {
      Machine(files, stdin, shown, exited)
    }

    constructor (codecs: Codecs, files: map<string, string>, stdin: seq<string>)
      ensures this.codecs == codecs
      ensures State() == Machine(files, stdin, [], false)
    {
      this.codecs := codecs;
      this.files := files;
      this.stdin := stdin;
      shown := [];
      exited := false;
    }

    /** `handleQueryUser`. */
    method HandleQueryUser(message: string) returns (answer: Completion<string>)
      modifies this
      ensures (State(), answer) == Query(old(State()), message)
      ensures files == old(files) && exited == old(exited)
      ensures answer.Normal? <==> old(stdin) != []
      ensures answer.Normal? ==> answer.value == Trim(old(stdin)[0]) && stdin == old(stdin)[1..]
    {
      shown := shown + [message + "\n> "];
      if stdin == [] {
        answer := Abrupt(InputClosed);
      } else {
        answer := Normal(Trim(stdin[0]));
        stdin := stdin[1..];
      }
    }

    /** `handleCreateFile`. */
    method HandleCreateFile(path: string, contents: string) returns (r: Completion<()>)
      modifies this
      ensures (State(), r) == Write(old(State()), CreatePrompt(path, contents), path, contents)
      ensures files == if old(stdin) != [] && Confirms(old(stdin)[0]) then old(files)[path := contents] else old(files)
    {
      var answer := HandleQueryUser(CreatePrompt(path, contents));
      if answer.Abrupt? {
        return Abrupt(answer.why);
      }
      if LowerAscii(answer.value) == "yes" {
        files := files[path := contents];
      }
      r := Normal(());
    }

    /** `handleEditFile`. */
    method HandleEditFile(path: string, contents: string) returns (r: Completion<()>)
      modifies this
      ensures (State(), r) == Write(old(State()), EditPrompt(path, contents), path, contents)
      ensures files == if old(stdin) != [] && Confirms(old(stdin)[0]) then old(files)[path := contents] else old(files)
    {
      var answer := HandleQueryUser(EditPrompt(path, contents));
      if answer.Abrupt? {
        return Abrupt(answer.why);
      }
      if LowerAscii(answer.value) == "yes" {
        files := files[path := contents];
      }
      r := Normal(());
    }

    /** `handleDeleteFile`. */
    method HandleDeleteFile(path: string) returns (r: Completion<()>)
      modifies this
      ensures (State(), r) == Delete(old(State()), path)
      ensures files == if old(stdin) != [] && Confirms(old(stdin)[0]) then old(files) - {path} else old(files)
      ensures r == Abrupt(UnlinkFailed(path)) <==> old(stdin) != [] && Confirms(old(stdin)[0]) && path !in old(files)
    {
      var answer := HandleQueryUser(DeletePrompt(path));
      if answer.Abrupt? {
        return Abrupt(answer.why);
      }
      if LowerAscii(answer.value) == "yes" {
        if path !in files {
          assert files - {path} == files;
          return Abrupt(UnlinkFailed(path));
        }
        files := files - {path};
      }
      r := Normal(());
    }

    /** `handleRequestFile`: reads the file and changes nothing. */
    method HandleRequestFile(path: string) returns (r: Completion<string>)
      ensures r.Normal? <==> path in files
      ensures r.Normal? ==> r.value == codecs.stringify(FileJson(path, files[path]))
      ensures r.Abrupt? ==> r.why == ReadFailed(path)
    {
      if path !in files {
        return Abrupt(ReadFailed(path));
      }
      var content := files[path];
      r := Normal(codecs.stringify(FileJson(path, content)));
    }

    /** The body of the loop in `handleAutoSteps`: dispatch on the step's tag; the messages it pushes, or why the batch ends. */
    method HandleStep(step: AutoStep) returns (out: Completion<seq<Message>>)
      modifies this
      ensures (State(), out) == RunStep(old(State()), codecs, step)
    {
      match step {
      case CreateFile(p, c) =>
        var done := HandleCreateFile(p, c);
        out := Unit(done);
      case EditFile(p, c) =>
        var done := HandleEditFile(p, c);
        out := Unit(done);
      case DeleteFile(p) =>
        var done := HandleDeleteFile(p);
        out := Unit(done);
      case RequestFile(p) =>
        var content := HandleRequestFile(p);
        out := Reply(content);
      case QueryUser(message) =>
        var answer := HandleQueryUser(message);
        out := Reply(answer);
      case Done =>
        exited := true;
        out := Abrupt(Exited);
      case Unknown(_) =>
        out := Normal([]);
      }
    }

    /** `handleAutoSteps`: the steps in order, collecting the messages they push. */
    method HandleAutoSteps(steps: seq<AutoStep>) returns (r: Completion<seq<Message>>)
      modifies this
      ensures (State(), r) == Run(old(State()), codecs, steps, [])
    {
      var responses: seq<Message> := [];
      var i := 0;
      while i < |steps|
        invariant 0 <= i <= |steps|
        invariant Run(State(), codecs, steps[i..], responses) == Run(old(State()), codecs, steps, [])
      {
        RunFrom(State(), codecs, steps, i, responses);
        var out := HandleStep(steps[i]);
        if out.Abrupt? {
          return out;
        }
        responses := responses + out.value;
        i := i + 1;
      }
      assert steps[i..] == [];
      r := Normal(responses);
    }
  }
}
