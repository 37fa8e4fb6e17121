/**
 * The state the core touches outside itself: the cache directory (`dataDir`), seen
 * as a map from file name to file text, and the language-model backend, seen as an
 * oracle whose requests are logged in order.
 */
module Storage {
  import opened Opt
  import opened Text

  /** `fs.existsSync(dataDir/name) ? fs.readFileSync(dataDir/name) : null`. */
  function Lookup(files: map<string, string>, name: string): Option<string> {
    if name in files then Some(files[name]) else None
  }

  /** The file written beside a response file: `name.replace('.response', '.query')`. */
  function TwinName(name: string): string {
    ReplaceFirst(name, ".response", ".query")
  }

  /** The two writes of `cacheResponse` once its key is known: the response, then the rendered request. */
  function Store(files: map<string, string>, name: string, response: string, rendered: string): map<string, string> {
    files[name := response][TwinName(name) := rendered]
  }

  /** Both caches name a response file by a dot-free stem of digests followed by `.response`. */
  lemma TwinOfResponse(stem: string)
    requires '.' !in stem
    ensures TwinName(stem + ".response") == stem + ".query"
  {
    ReplaceSuffix(stem, ".response", ".query");
  }

  /**
   * Storing under a response name makes a lookup of that name return the response,
   * puts the rendered request in the `.query` twin, and leaves every other file alone;
   * in particular no other response file changes.
   */
  lemma {:induction false} StoreThenLookup(files: map<string, string>, stem: string, response: string, rendered: string)
    requires '.' !in stem
    ensures Lookup(Store(files, stem + ".response", response, rendered), stem + ".response") == Some(response)
    ensures Lookup(Store(files, stem + ".response", response, rendered), stem + ".query") == Some(rendered)
    ensures forall n :: n != stem + ".response" && n != stem + ".query" ==>
      Lookup(Store(files, stem + ".response", response, rendered), n) == Lookup(files, n)
    ensures forall n :: EndsWith(n, ".response") && n != stem + ".response" ==>
      Lookup(Store(files, stem + ".response", response, rendered), n) == Lookup(files, n)
  {
    TwinOfResponse(stem);
    var q := stem + ".query";
    assert q[|q| - 1] == 'y';
    forall n | EndsWith(n, ".response")
      ensures n != q
    {
      assert n[|n| - 1] == n[|n| - 9..][8] == 'e';
    }
  }

  /** The cache directory: file name to file text. */
  class CacheDir {
    var files: map<string, string>

    constructor (files: map<string, string>)
      ensures this.files == files
    {
      this.files := files;
    }

    /** `fs.writeFileSync(dataDir/name, text)`. */
    method Write(name: string, text: string)
      modifies this
      ensures files == old(files)[name := text]
    {
      files := files[name := text];
    }
  }

  datatype Request = Request(prompt: string, model: string)

  /** The functional view of both external resources at once. */
  datatype Io = Io(files: map<string, string>, log: seq<Request>)

  /**
   * One completion request: the backend answers with `oracle(prompt, model, n)` where
   * `n` counts the requests made before, so that asking twice may give two answers.
   */
  function Ask(io: Io, oracle: (string, string, nat) -> string, prompt: string, model: string): (Io, string) {
    (io.(log := io.log + [Request(prompt, model)]), oracle(prompt, model, |io.log|))
  }

  /** The language-model backend (`callOpenAiApi`). */
  class Backend {
    const oracle: (string, string, nat) -> string
    var log: seq<Request>

    constructor (oracle: (string, string, nat) -> string)
      ensures this.oracle == oracle && log == []
    {
      this.oracle := oracle;
      log := [];
    }

    /** `callOpenAiApi(prompt, model)`: one request, logged, answered by the oracle. */
    method Call(prompt: string, model: string) returns (reply: string)
      modifies this
      ensures log == old(log) + [Request(prompt, model)]
      ensures reply == oracle(prompt, model, |old(log)|)
    {
      reply := oracle(prompt, model, |log|);
      log := log + [Request(prompt, model)];
    }
  }
}
