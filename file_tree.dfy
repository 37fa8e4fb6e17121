/**
 * File discovery: `getFilePaths` of src/lib.ts (keeps files whose `path.extname` is one
 * of a list) and of src/code_main.ts (keeps files whose full path ends with a suffix).
 * The disk is a tree of named entries; a directory lists its children in the order
 * `fs.readdirSync` returns them, and `path.resolve(dir, name)` is `dir + "/" + name`.
 */
module FileTree {
  import opened Opt
  import opened Text

  datatype Node = File(name: string) | Dir(name: string, children: seq<Node>)

  /** `path.resolve(dir, name)` for an absolute, normalised `dir`. */
  function Join(dir: string, name: string): string {
    dir + "/" + name
  }

  /** The index of the last `.` in `s`, if any. */
  function LastDot(s: string): (r: Option<nat>)
    ensures r.Some? ==> r.value < |s| && s[r.value] == '.' && '.' !in s[r.value + 1..]
    ensures r.None? ==> '.' !in s
  {
    if s == [] then None
    else if s[|s| - 1] == '.' then Some(|s| - 1)
    else
      var r := LastDot(s[..|s| - 1]);
      assert s == s[..|s| - 1] + [s[|s| - 1]];
      if r.Some? then
        assert s[r.value + 1..] == s[..|s| - 1][r.value + 1..] + [s[|s| - 1]];
        r
      else r
  }

  /**
   * `path.extname` of a path whose last segment is the entry name `name`: from the last
   * `.` to the end, or empty when there is no `.`, when the only `.` that counts opens
   * the name (`.bashrc`), or when the name is `..`.
   */
  function ExtName(name: string): (ext: string)
    ensures ext == [] || (ext[0] == '.' && EndsWith(name, ext) && '.' !in ext[1..] && |ext| < |name|)
    ensures '.' !in name ==> ext == []
  {
    match LastDot(name)
    case None => ""
    case Some(k) =>
      if k == 0 || name == ".." then ""
      else
        assert name[k..][1..] == name[k + 1..];
        name[k..]
  }

  /** Which files a walk keeps: lib.ts filters by extension list, code_main.ts by path suffix. */
  datatype Filter = Extensions(exts: seq<string>) | Suffix(suffix: string)

  predicate Keeps(f: Filter, dir: string, name: string) {
    match f
    case Extensions(exts) => ExtName(name) in exts
    case Suffix(suffix) => EndsWith(Join(dir, name), suffix)
  }

  /** The paths a walk of `entries` (the listing of `dir`) returns, in the order it finds them. */
  function Walk(dir: string, entries: seq<Node>, f: Filter): seq<string>
    decreases entries
  {
    if entries == [] then [] else Here(dir, entries[0], f) + Walk(dir, entries[1..], f)
  }

  /** What the walk of `dir` returns for its entry `node`. */
  function Here(dir: string, node: Node, f: Filter): seq<string>
    decreases node
  {
    match node
    case File(n) => if Keeps(f, dir, n) then [Join(dir, n)] else []
    case Dir(n, children) => Walk(Join(dir, n), children, f)
  }

  /** One step of the walk, at position `i` of the listing. */
  lemma WalkStep(dir: string, entries: seq<Node>, f: Filter, i: nat)
    requires i < |entries|
    ensures Walk(dir, entries[i..], f) == Here(dir, entries[i], f) + Walk(dir, entries[i + 1..], f)
  {
    assert entries[i..][0] == entries[i] && entries[i..][1..] == entries[i + 1..];
  }

  /** A non-directory entry `name` met while listing `dir`. */
  datatype Found = Found(dir: string, name: string)

  /** Every non-directory entry under `dir`, depth first, in listing order. */
  function Files(dir: string, entries: seq<Node>): seq<Found>
    decreases entries
  {
    if entries == [] then []
    else
      var here := match entries[0]
        case File(n) => [Found(dir, n)]
        case Dir(n, children) => Files(Join(dir, n), children);
      here + Files(dir, entries[1..])
  }

  /** The full path of `e` if `f` keeps it. */
  function Kept(e: Found, f: Filter): seq<string> {
    if Keeps(f, e.dir, e.name) then [Join(e.dir, e.name)] else []
  }

  /** The full paths of the entries `f` keeps, in order. */
  function Select(found: seq<Found>, f: Filter): seq<string> {
    if found == [] then [] else Kept(found[0], f) + Select(found[1..], f)
  }

  lemma {:induction false} SelectAppend(a: seq<Found>, b: seq<Found>, f: Filter)
    ensures Select(a + b, f) == Select(a, f) + Select(b, f)
  {
    if a == [] {
      assert a + b == b;
    } else {
      var ab := a + b;
      assert ab != [] && ab[0] == a[0] && ab[1..] == a[1..] + b;
      SelectAppend(a[1..], b, f);
      var head, left, right := Kept(a[0], f), Select(a[1..], f), Select(b, f);
      calc {
        Select(ab, f);
        head + Select(a[1..] + b, f);
        head + (left + right);
        { assert head + (left + right) == (head + left) + right; }
        Select(a, f) + right;
      }
    }
  }

  /** A path is selected exactly when some kept entry has it as its full path. */
  lemma {:induction false} SelectMembers(found: seq<Found>, f: Filter, p: string)
    ensures p in Select(found, f) <==> exists e :: e in found && Keeps(f, e.dir, e.name) && Join(e.dir, e.name) == p
  {
    if found != [] {
      SelectMembers(found[1..], f, p);
      assert forall e :: e in found <==> e == found[0] || e in found[1..];
    }
  }

  /**
   * The walk returns exactly the full paths of the non-directory entries the filter
   * keeps, in depth-first listing order: no directory is returned and nothing is
   * returned twice unless it was met twice.
   */
  lemma {:induction false} WalkSelectsFiles(dir: string, entries: seq<Node>, f: Filter)
    ensures Walk(dir, entries, f) == Select(Files(dir, entries), f)
    decreases entries
  {
    if entries != [] {
      WalkSelectsFiles(dir, entries[1..], f);
      assert Walk(dir, entries, f) == Here(dir, entries[0], f) + Walk(dir, entries[1..], f);
      match entries[0] {
        case File(n) =>
          assert Select([Found(dir, n)], f) == Kept(Found(dir, n), f) + Select([], f);
          SelectAppend([Found(dir, n)], Files(dir, entries[1..]), f);
        case Dir(n, children) =>
          WalkSelectsFiles(Join(dir, n), children, f);
          SelectAppend(Files(Join(dir, n), children), Files(dir, entries[1..]), f);
      }
    }
  }

  /** The walk over a listing made of two parts is the walk of the first part followed by that of the second. */
  lemma {:induction false} WalkAppend(dir: string, a: seq<Node>, b: seq<Node>, f: Filter)
    ensures Walk(dir, a + b, f) == Walk(dir, a, f) + Walk(dir, b, f)
    decreases a
  {
    if a == [] {
      assert a + b == b;
    } else {
      var ab := a + b;
      assert ab != [] && ab[0] == a[0] && ab[1..] == a[1..] + b;
      WalkAppend(dir, a[1..], b, f);
      var head, left, right := Here(dir, a[0], f), Walk(dir, a[1..], f), Walk(dir, b, f);
      calc {
        Walk(dir, ab, f);
        head + Walk(dir, a[1..] + b, f);
        head + (left + right);
        { assert head + (left + right) == (head + left) + right; }
        Walk(dir, a, f) + right;
      }
    }
  }

  /** A walk never returns anything but full paths of files below `dir`. */
  lemma PathsAreBelow(dir: string, entries: seq<Node>, f: Filter, p: string)
    requires p in Walk(dir, entries, f)
    ensures exists e :: e in Files(dir, entries) && Join(e.dir, e.name) == p && Keeps(f, e.dir, e.name)
  {
    WalkSelectsFiles(dir, entries, f);
    SelectMembers(Files(dir, entries), f, p);
  }

  /** The recursive walk shared by both `getFilePaths`, accumulating `results` as the source does. */
  method Collect(dir: string, entries: seq<Node>, f: Filter) returns (results: seq<string>)
    ensures results == Walk(dir, entries, f)
    decreases entries
  {
    results := [];
    for i := 0 to |entries|
      invariant results + Walk(dir, entries[i..], f) == Walk(dir, entries, f)
    {
      var before := results;
      match entries[i] {
        case Dir(n, children) =>
          var sub := Collect(Join(dir, n), children, f);
          results := results + sub;
        case File(n) =>
          if Keeps(f, dir, n) {
            results := results + [Join(dir, n)];
          }
      }
      CollectStep(dir, entries, f, i, before, results);
    }
    assert entries[|entries|..] == [];
  }

  /** The loop of `Collect` keeps its invariant once entry `i` has added its paths. */
  lemma CollectStep(dir: string, entries: seq<Node>, f: Filter, i: nat, before: seq<string>, after: seq<string>)
    requires i < |entries|
    requires after == before + Here(dir, entries[i], f)
    requires before + Walk(dir, entries[i..], f) == Walk(dir, entries, f)
    ensures after + Walk(dir, entries[i + 1..], f) == Walk(dir, entries, f)
  {
    var here, rest := Here(dir, entries[i], f), Walk(dir, entries[i + 1..], f);
    calc {
      after + rest;
      (before + here) + rest;
      { assert (before + here) + rest == before + (here + rest); }
      before + (here + rest);
      { WalkStep(dir, entries, f, i); }
      before + Walk(dir, entries[i..], f);
    }
  }

  /** `getFilePaths(dir, extensions)` of src/lib.ts. */
  method GetFilePathsByExtension(dir: string, entries: seq<Node>, extensions: seq<string>) returns (results: seq<string>)
    ensures results == Select(Files(dir, entries), Extensions(extensions))
    ensures forall p :: p in results <==>
      exists e :: e in Files(dir, entries) && Join(e.dir, e.name) == p && ExtName(e.name) in extensions
  {
    results := Collect(dir, entries, Extensions(extensions));
    WalkSelectsFiles(dir, entries, Extensions(extensions));
    forall p
      ensures p in results <==>
        exists e :: e in Files(dir, entries) && Join(e.dir, e.name) == p && ExtName(e.name) in extensions
    {
      SelectMembers(Files(dir, entries), Extensions(extensions), p);
    }
  }

  /** `getFilePaths(dir, extension)` of src/code_main.ts. */
  method GetFilePathsBySuffix(dir: string, entries: seq<Node>, extension: string) returns (results: seq<string>)
    ensures results == Select(Files(dir, entries), Suffix(extension))
    ensures forall p :: p in results <==>
      exists e :: e in Files(dir, entries) && Join(e.dir, e.name) == p && EndsWith(p, extension)
  {
    results := Collect(dir, entries, Suffix(extension));
    WalkSelectsFiles(dir, entries, Suffix(extension));
    forall p
      ensures p in results <==>
        exists e :: e in Files(dir, entries) && Join(e.dir, e.name) == p && EndsWith(p, extension)
    {
      SelectMembers(Files(dir, entries), Suffix(extension), p);
    }
  }

  /**
   * The two filters disagree: with `.ts` as the only extension, a file named `.ts` is
   * kept by the suffix test of src/code_main.ts but not by the `path.extname` test of
   * src/lib.ts, while both keep `index.d.ts`.
   */
  lemma FiltersDisagreeOnDotfile(dir: string)
    ensures Keeps(Suffix(".ts"), dir, ".ts") && !Keeps(Extensions([".ts"]), dir, ".ts")
    ensures Keeps(Suffix(".ts"), dir, "index.d.ts") && Keeps(Extensions([".ts"]), dir, "index.d.ts")
  {
    JoinKeepsSuffix(dir, ".ts", ".ts");
    JoinKeepsSuffix(dir, "index.d.ts", ".ts");
    assert LastDot(".ts") == Some(0);
    var lastDot := LastDot("index.d.ts");
    assert lastDot.Some? && lastDot.value == 7 by {
      assert "index.d.ts"[8..] == "ts";
    }
  }

  lemma JoinKeepsSuffix(dir: string, name: string, suffix: string)
    requires EndsWith(name, suffix)
    ensures EndsWith(Join(dir, name), suffix)
  {
    var p := Join(dir, name);
    assert p[|p| - |suffix|..] == name[|name| - |suffix|..];
  }
}
