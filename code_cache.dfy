/**
 * The response cache of src/code_main.ts: a key made of three digests (template path,
 * template text, serialised arguments), `getCachedResponse` and `cacheResponse`.
 */
module CodeCache {
  import opened Opt
  import opened Text
  import opened External
  import opened Storage

  lemma DigestsHaveNoDot(a: Digest, b: Digest, c: Digest)
    ensures '.' !in a + "-" + b + "-" + c
  {
    forall i | 0 <= i < |a + "-" + b + "-" + c|
      ensures (a + "-" + b + "-" + c)[i] != '.'
    {
      if i < 64 {
        assert IsHexDigit(a[i]);
      } else if 65 <= i < 129 {
        assert IsHexDigit(b[i - 65]);
      } else if 130 <= i {
        assert IsHexDigit(c[i - 130]);
      }
    }
  }

  /** The part of the key before `.response`. */
  function KeyStem(codecs: Codecs, templatePath: string, templateContent: string, args: Json): string {
    codecs.hash(templatePath) + "-" + codecs.hash(templateContent) + "-" + codecs.hash(codecs.stringify(args))
  }

  /** `getCachedResponseKey(templatePath, templateContent, args)`. */
  function GetCachedResponseKey(codecs: Codecs, templatePath: string, templateContent: string, args: Json): (key: string)
    ensures EndsWith(key, ".response") && |key| == 203
    ensures key[..194] == KeyStem(codecs, templatePath, templateContent, args) && '.' !in key[..194]
    ensures key[64] == '-' && key[129] == '-'
  {
    var stem := KeyStem(codecs, templatePath, templateContent, args);
    DigestsHaveNoDot(codecs.hash(templatePath), codecs.hash(templateContent), codecs.hash(codecs.stringify(args)));
    assert (stem + ".response")[..194] == stem;
    stem + ".response"
  }

  /**
   * Two requests share a key exactly when their template paths, template texts and
   * serialised arguments have the same digests: the three digests are recovered from
   * the key at fixed positions.
   */
  lemma KeyInjective(codecs: Codecs, p1: string, c1: string, a1: Json, p2: string, c2: string, a2: Json)
    ensures GetCachedResponseKey(codecs, p1, c1, a1) == GetCachedResponseKey(codecs, p2, c2, a2) <==>
      && codecs.hash(p1) == codecs.hash(p2)
      && codecs.hash(c1) == codecs.hash(c2)
      && codecs.hash(codecs.stringify(a1)) == codecs.hash(codecs.stringify(a2))
  {
    var k1 := GetCachedResponseKey(codecs, p1, c1, a1);
    var k2 := GetCachedResponseKey(codecs, p2, c2, a2);
    if k1 == k2 {
      var s1 := KeyStem(codecs, p1, c1, a1);
      var s2 := KeyStem(codecs, p2, c2, a2);
      assert s1 == k1[..194] == s2;
      assert codecs.hash(p1) == s1[..64] == s2[..64] == codecs.hash(p2);
      assert codecs.hash(c1) == s1[65..129] == s2[65..129] == codecs.hash(c2);
      assert codecs.hash(codecs.stringify(a1)) == s1[130..] == s2[130..] == codecs.hash(codecs.stringify(a2));
    }
  }

  /** `getCachedResponse(templatePath, templateContent, args)`: the response file's text, or `null` when it does not exist. */
  function GetCachedResponse(files: map<string, string>, codecs: Codecs, templatePath: string, templateContent: string, args: Json): (r: Option<string>)
    ensures r.Some? <==> GetCachedResponseKey(codecs, templatePath, templateContent, args) in files
    ensures r.Some? ==> r.value == files[GetCachedResponseKey(codecs, templatePath, templateContent, args)]
  {
    Lookup(files, GetCachedResponseKey(codecs, templatePath, templateContent, args))
  }

  /** The files after `cacheResponse(templatePath, template, args, response)`. */
  function CacheResponseSpec(files: map<string, string>, codecs: Codecs, templatePath: string, template: Template, args: Json, response: string): map<string, string> {
    Store(files, GetCachedResponseKey(codecs, templatePath, template.source, args), response, template.render(args))
  }

  /**
   * After `cacheResponse(p, t, a, r)`, `getCachedResponse(p, t.toString(), a)` returns
   * `r`, the `.query` twin holds `t(a)`, and every other response file is unchanged.
   */
  lemma CacheThenGet(files: map<string, string>, codecs: Codecs, templatePath: string, template: Template, args: Json, response: string)
    ensures var files' := CacheResponseSpec(files, codecs, templatePath, template, args, response);
      var key := GetCachedResponseKey(codecs, templatePath, template.source, args);
      && GetCachedResponse(files', codecs, templatePath, template.source, args) == Some(response)
      && Lookup(files', key[..194] + ".query") == Some(template.render(args))
      && (forall n :: EndsWith(n, ".response") && n != key ==> Lookup(files', n) == Lookup(files, n))
  {
    var key := GetCachedResponseKey(codecs, templatePath, template.source, args);
    assert key == key[..194] + ".response";
    StoreThenLookup(files, key[..194], response, template.render(args));
  }

  /**
   * A lookup that passes `content` as the template text finds what `cacheResponse`
   * stored for `template` exactly when `content` and `template.toString()` hash alike;
   * otherwise the store is invisible to it.
   */
  lemma LookupMeetsStoreIff(files: map<string, string>, codecs: Codecs, templatePath: string, template: Template, args: Json, response: string, content: string)
    ensures var files' := CacheResponseSpec(files, codecs, templatePath, template, args, response);
      && (codecs.hash(content) == codecs.hash(template.source) ==>
            GetCachedResponse(files', codecs, templatePath, content, args) == Some(response))
      && (codecs.hash(content) != codecs.hash(template.source) ==>
            GetCachedResponse(files', codecs, templatePath, content, args) == GetCachedResponse(files, codecs, templatePath, content, args))
  {
    CacheThenGet(files, codecs, templatePath, template, args, response);
    KeyInjective(codecs, templatePath, content, args, templatePath, template.source, args);
  }

  /** `cacheResponse`: write the response under its key, then the rendered request beside it. */
  method CacheResponse(dir: CacheDir, codecs: Codecs, templatePath: string, template: Template, args: Json, response: string)
    modifies dir
    ensures dir.files == CacheResponseSpec(old(dir.files), codecs, templatePath, template, args, response)
  {
    var responseFileName := GetCachedResponseKey(codecs, templatePath, template.source, args);
    dir.Write(responseFileName, response);
    var queryFileName := ReplaceFirst(responseFileName, ".response", ".query");
    var renderedTemplate := template.render(args);
    dir.Write(queryFileName, renderedTemplate);
  }
}
