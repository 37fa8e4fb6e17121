/**
 * The response cache of src/lib.ts: keys built from a hash of the request,
 * `getCachedResponse`, `cacheResponse` and the compute-on-miss `getResponse`.
 */
module LibCache {
  import opened Opt
  import opened Text
  import opened External
  import opened Conversation
  import opened Storage

  /** The object `getCachedResponseKey` serialises: `{args, model, templateContent, messages: messages ?? []}`. */
  function KeyObject(templateContent: string, args: Json, model: string, messages: Option<seq<Message>>): Json {
    var ms := match messages case Some(ms) => ms case None => [];
    Obj([("args", args), ("model", Str(model)), ("templateContent", Str(templateContent)), ("messages", MessagesJson(ms))])
  }

  lemma DigestHasNoDot(d: Digest)
    ensures '.' !in d
  {
    forall i | 0 <= i < |d|
      ensures d[i] != '.'
    {
      assert IsHexDigit(d[i]);
    }
  }

  /** `getCachedResponseKey`: a hex digest of the request followed by `.response`. */
  function GetCachedResponseKey(codecs: Codecs, templateContent: string, args: Json, model: string, messages: Option<seq<Message>>): (key: string)
    ensures EndsWith(key, ".response")
    ensures |key| == 73 && '.' !in key[..64]
  {
    var digest := codecs.hash(codecs.stringify(KeyObject(templateContent, args, model, messages)));
    DigestHasNoDot(digest);
    assert (digest + ".response")[..64] == digest;
    digest + ".response"
  }

  /** `getCachedResponse`: the text of the response file if it exists, else `null`. */
  function GetCachedResponse(files: map<string, string>, codecs: Codecs, templateContent: string, args: Json, model: string, messages: Option<seq<Message>>): Option<string> {
    Lookup(files, GetCachedResponseKey(codecs, templateContent, args, model, messages))
  }

  /** The files after `cacheResponse(template, args, response, model, messages)`. */
  function CacheResponseSpec(files: map<string, string>, codecs: Codecs, template: Template, args: Json, response: string, model: string, messages: Option<seq<Message>>): map<string, string> {
    Store(files, GetCachedResponseKey(codecs, template.source, args, model, messages), response, template.render(args))
  }

  /** `getResponse`: a non-empty cached response, or else one backend request whose reply is cached and returned. */
  function GetResponseSpec(io: Io, codecs: Codecs, oracle: (string, string, nat) -> string, template: Template, args: Json, model: string): (Io, string) {
    var cached := GetCachedResponse(io.files, codecs, template.source, args, model, None);
    if cached.Some? && cached.value != "" then (io, cached.value)
    else
      var (io', reply) := Ask(io, oracle, template.render(args), model);
      (io'.(files := CacheResponseSpec(io'.files, codecs, template, args, reply, model, None)), reply)
  }

  // ---------------------------------------------------------------------------------
  // Properties of the cache

  /** Leaving `messages` out gives the key of an empty conversation. */
  lemma OmittedMessagesKey(codecs: Codecs, templateContent: string, args: Json, model: string)
    ensures GetCachedResponseKey(codecs, templateContent, args, model, None) ==
            GetCachedResponseKey(codecs, templateContent, args, model, Some([]))
  {
  }

  /**
   * After `cacheResponse(t, a, r, m, msgs)`, `getCachedResponse(t.toString(), a, m, msgs)`
   * returns `r`, the `.query` twin holds `t(a)`, and no other response file changed.
   */
  lemma CacheThenGet(files: map<string, string>, codecs: Codecs, template: Template, args: Json, response: string, model: string, messages: Option<seq<Message>>)
    ensures var files' := CacheResponseSpec(files, codecs, template, args, response, model, messages);
      var key := GetCachedResponseKey(codecs, template.source, args, model, messages);
      && GetCachedResponse(files', codecs, template.source, args, model, messages) == Some(response)
      && Lookup(files', key[..64] + ".query") == Some(template.render(args))
      && (forall n :: EndsWith(n, ".response") && n != key ==> Lookup(files', n) == Lookup(files, n))
  {
    var key := GetCachedResponseKey(codecs, template.source, args, model, messages);
    assert key == key[..64] + ".response";
    StoreThenLookup(files, key[..64], response, template.render(args));
  }

  /** A non-empty cached response is returned as it is, with no backend request and no write. */
  lemma HitSkipsBackend(io: Io, codecs: Codecs, oracle: (string, string, nat) -> string, template: Template, args: Json, model: string)
    requires GetCachedResponse(io.files, codecs, template.source, args, model, None).Some?
    requires GetCachedResponse(io.files, codecs, template.source, args, model, None).value != ""
    ensures GetResponseSpec(io, codecs, oracle, template, args, model) ==
      (io, GetCachedResponse(io.files, codecs, template.source, args, model, None).value)
  {
  }

  /**
   * On a miss (no response file, or an empty one) the backend is asked exactly once,
   * with the rendered template, and its reply is both cached and returned.
   */
  lemma MissAsksOnce(io: Io, codecs: Codecs, oracle: (string, string, nat) -> string, template: Template, args: Json, model: string)
    requires var c := GetCachedResponse(io.files, codecs, template.source, args, model, None); c.None? || c.value == ""
    ensures var (io', r) := GetResponseSpec(io, codecs, oracle, template, args, model);
      && io'.log == io.log + [Request(template.render(args), model)]
      && r == oracle(template.render(args), model, |io.log|)
      && GetCachedResponse(io'.files, codecs, template.source, args, model, None) == Some(r)
  {
    CacheThenGet(io.files, codecs, template, args, oracle(template.render(args), model, |io.log|), model, None);
  }

  /**
   * At most once per key: once `getResponse` has returned a non-empty text, asking
   * again returns the same text without a backend request and without a write.
   */
  lemma SecondCallIsHit(io: Io, codecs: Codecs, oracle: (string, string, nat) -> string, template: Template, args: Json, model: string)
    requires GetResponseSpec(io, codecs, oracle, template, args, model).1 != ""
    ensures var (io1, r1) := GetResponseSpec(io, codecs, oracle, template, args, model);
      GetResponseSpec(io1, codecs, oracle, template, args, model) == (io1, r1)
  {
    var c := GetCachedResponse(io.files, codecs, template.source, args, model, None);
    if c.None? || c.value == "" {
      MissAsksOnce(io, codecs, oracle, template, args, model);
    }
  }

  /** A cached empty text counts as a miss: after an empty reply, the next call asks the backend again. */
  lemma EmptyReplyIsAskedAgain(io: Io, codecs: Codecs, oracle: (string, string, nat) -> string, template: Template, args: Json, model: string)
    requires GetResponseSpec(io, codecs, oracle, template, args, model).1 == ""
    ensures var (io1, _) := GetResponseSpec(io, codecs, oracle, template, args, model);
      GetResponseSpec(io1, codecs, oracle, template, args, model).0.log == io1.log + [Request(template.render(args), model)]
  {
    var c := GetCachedResponse(io.files, codecs, template.source, args, model, None);
    if c.None? || c.value == "" {
      MissAsksOnce(io, codecs, oracle, template, args, model);
    }
  }

  // ---------------------------------------------------------------------------------
  // The cache as the source runs it

  /** `cacheResponse`: write the response under its key, then the rendered request beside it. */
  method CacheResponse(dir: CacheDir, codecs: Codecs, template: Template, args: Json, response: string, model: string, messages: Option<seq<Message>>)
    modifies dir
    ensures dir.files == CacheResponseSpec(old(dir.files), codecs, template, args, response, model, messages)
  {
    var responseFileName := GetCachedResponseKey(codecs, template.source, args, model, messages);
    dir.Write(responseFileName, response);
    var queryFileName := ReplaceFirst(responseFileName, ".response", ".query");
    var renderedTemplate := template.render(args);
    dir.Write(queryFileName, renderedTemplate);
  }

  /** `getResponse`. */
  method GetResponse(dir: CacheDir, backend: Backend, codecs: Codecs, template: Template, args: Json, model: string) returns (r: string)
    modifies dir, backend
    ensures (Io(dir.files, backend.log), r) ==
      GetResponseSpec(Io(old(dir.files), old(backend.log)), codecs, backend.oracle, template, args, model)
  {
    var cachedResponse := GetCachedResponse(dir.files, codecs, template.source, args, model, None);
    if cachedResponse.Some? && cachedResponse.value != "" {
      return cachedResponse.value;
    }
    var prompt := template.render(args);
    r := backend.Call(prompt, model);
    CacheResponse(dir, codecs, template, args, r, model, None);
  }
}
