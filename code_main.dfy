/**
 * The cache and selection logic of `processFiles` in src/code_main.ts: a first pass
 * that makes sure every source file has a cached summary, a second pass that fills the
 * summaries and listings maps, the summary-list and listing-list requests, the
 * selection filters, and the final auto-code request.
 *
 * Modelled as written: the second-pass and later lookups pass the rendered prompt where
 * the key is built from the template text, and the listing-list lookup renders its template
 * over the summaries.
 */
module CodeMain {
  import opened Opt
  import opened Text
  import opened External
  import opened Storage
  import opened CodeCache
  import opened OrderedMap
  import opened FileTree

  const SummarisePath := "summarise-file.hbs"
  const SummaryListPath := "gen-summary-list.hbs"
  const ListingListPath := "gen-listing-list.hbs"
  const AutoCodePath := "auto-code.hbs"
  /** The model `callOpenAiApi` of src/code_main.ts always asks for. */
  const Model := "gpt-3.5-turbo"
  const SourceExtension := ".ts"

  /** The four templates `loadTemplate` compiles. */
  datatype Templates = Templates(summarise: Template, summaryList: Template, listingList: Template, autoCode: Template)

  type Oracle = (string, string, nat) -> string

  // ---------------------------------------------------------------------------------
  // Template arguments, as the objects JSON.stringify receives

  function FileArgs(filePath: string, fileContent: string): Json {
    Obj([("filePath", Str(filePath)), ("fileContent", Str(fileContent))])
  }

  function SummariesJson(summaries: Entries): Json {
    Arr(seq(|summaries|, i requires 0 <= i < |summaries| =>
      Obj([("filePath", Str(summaries[i].0)), ("summary", Str(summaries[i].1))])))
  }

  function ListingsJson(listings: Entries): Json {
    Arr(seq(|listings|, i requires 0 <= i < |listings| =>
      Obj([("filePath", Str(listings[i].0)), ("content", Str(listings[i].1))])))
  }

  /** `{summaries, instructions}` or `{listings, instructions}`. */
  function WithInstructions(name: string, list: Json, instructions: string): Json {
    Obj([(name, list), ("instructions", Str(instructions))])
  }

  /** What the auto-code template is rendered over: the selections. */
  function AutoCodeRenderArgs(selectedSummaries: Entries, selectedListings: Entries, instructions: string): Json {
    Obj([("summaries", SummariesJson(selectedSummaries)), ("listings", ListingsJson(selectedListings)), ("instructions", Str(instructions))])
  }

  /** What the auto-code response is cached under: all summaries and both replies. */
  function AutoCodeKeyArgs(summaries: Entries, summaryList: string, listingList: string, instructions: string): Json {
    Obj([("summaries", SummariesJson(summaries)), ("summaryList", Str(summaryList)), ("listingList", Str(listingList)), ("instructions", Str(instructions))])
  }

  // ---------------------------------------------------------------------------------
  // The two ways a cached value is used

  /** `!cached`: no response file, or an empty one. */
  predicate Falsy(cached: Option<string>) {
    cached.None? || cached.value == ""
  }

  /**
   * `if (!cached) { r = await callOpenAiApi(prompt); cacheResponse(path, template, args, r) } else r = cached`,
   * the pattern of both summary passes.
   */
  function Refresh(io: Io, codecs: Codecs, oracle: Oracle, cached: Option<string>, prompt: string,
                   path: string, template: Template, args: Json): (Io, string)
  {
    if Falsy(cached) then
      var (io1, r) := Ask(io, oracle, prompt, Model);
      (io1.(files := CacheResponseSpec(io1.files, codecs, path, template, args, r)), r)
    else (io, cached.value)
  }

  /**
   * `r = cached ?? await callOpenAiApi(prompt); if (!cached) cacheResponse(path, template, args, r)`,
   * the pattern of the last three requests.
   */
  function Resolve(io: Io, codecs: Codecs, oracle: Oracle, cached: Option<string>, prompt: string,
                   path: string, template: Template, args: Json): (Io, string)
  {
    var (io1, r) := if cached.Some? then (io, cached.value) else Ask(io, oracle, prompt, Model);
    if Falsy(cached) then (io1.(files := CacheResponseSpec(io1.files, codecs, path, template, args, r)), r)
    else (io1, r)
  }

  /**
   * The two patterns differ only on an empty response file: `??` keeps the empty text,
   * makes no request and writes it back, where `!cached` asks the backend again.
   */
  lemma ResolveVersusRefresh(io: Io, codecs: Codecs, oracle: Oracle, cached: Option<string>, prompt: string,
                             path: string, template: Template, args: Json)
    ensures cached != Some("") ==>
      Resolve(io, codecs, oracle, cached, prompt, path, template, args) == Refresh(io, codecs, oracle, cached, prompt, path, template, args)
    ensures cached == Some("") ==>
      && Resolve(io, codecs, oracle, cached, prompt, path, template, args).1 == ""
      && Resolve(io, codecs, oracle, cached, prompt, path, template, args).0.log == io.log
      && Resolve(io, codecs, oracle, cached, prompt, path, template, args).0.files == CacheResponseSpec(io.files, codecs, path, template, args, "")
      && Refresh(io, codecs, oracle, cached, prompt, path, template, args).0.log == io.log + [Request(prompt, Model)]
  {
  }

  /** A request is made exactly when the cached value is falsy; otherwise nothing changes and the cached text is used. */
  lemma RefreshFacts(io: Io, codecs: Codecs, oracle: Oracle, cached: Option<string>, prompt: string,
                     path: string, template: Template, args: Json)
    ensures var (io', r) := Refresh(io, codecs, oracle, cached, prompt, path, template, args);
      && (Falsy(cached) ==>
            && io'.log == io.log + [Request(prompt, Model)]
            && r == oracle(prompt, Model, |io.log|)
            && GetCachedResponse(io'.files, codecs, path, template.source, args) == Some(r))
      && (!Falsy(cached) ==> io' == io && r == cached.value && r != "")
  {
    if Falsy(cached) {
      CacheThenGet(io.files, codecs, path, template, args, oracle(prompt, Model, |io.log|));
    }
  }

  // ---------------------------------------------------------------------------------
  // The passes over the source files

  /** Every file the walk returned can be read. */
  predicate Readable(paths: seq<string>, disk: map<string, string>) {
    forall p :: p in paths ==> p in disk
  }

  /** One iteration of the first loop (lines 102-115): look up the summary by template text, fetch and cache it if falsy. */
  function FirstStep(io: Io, codecs: Codecs, oracle: Oracle, t: Templates, disk: map<string, string>, filePath: string): Io
    requires filePath in disk
  {
    var args := FileArgs(filePath, disk[filePath]);
    var cached := GetCachedResponse(io.files, codecs, SummarisePath, t.summarise.source, args);
    Refresh(io, codecs, oracle, cached, t.summarise.render(args), SummarisePath, t.summarise, args).0
  }

  function FirstPass(io: Io, codecs: Codecs, oracle: Oracle, t: Templates, disk: map<string, string>, paths: seq<string>): Io
    requires Readable(paths, disk)
    decreases |paths|
  {
    if paths == [] then io
    else FirstPass(FirstStep(io, codecs, oracle, t, disk, paths[0]), codecs, oracle, t, disk, paths[1..])
  }

  /**
   * One iteration of the second loop (lines 120-136): the summary is looked up with
   * `lookupText(args)` as the template text, then fetched and cached if falsy. As written,
   * `lookupText` is the template itself (the rendered prompt); `SummaryLookupIntended`
   * gives the template text the first loop uses.
   */
  function SecondStep(io: Io, codecs: Codecs, oracle: Oracle, t: Templates, lookupText: Json -> string,
                      disk: map<string, string>, filePath: string): (Io, string)
    requires filePath in disk
  {
    var args := FileArgs(filePath, disk[filePath]);
    var cached := GetCachedResponse(io.files, codecs, SummarisePath, lookupText(args), args);
    Refresh(io, codecs, oracle, cached, t.summarise.render(args), SummarisePath, t.summarise, args)
  }

  /** The second loop from maps `summaries` and `listings` on, returning the state and both maps. */
  function SecondPass(io: Io, codecs: Codecs, oracle: Oracle, t: Templates, lookupText: Json -> string,
                      disk: map<string, string>, paths: seq<string>,
                      summaries: Entries, listings: Entries): (Io, Entries, Entries)
    requires Readable(paths, disk)
    decreases |paths|
  {
    if paths == [] then (io, summaries, listings)
    else
      var (io1, summary) := SecondStep(io, codecs, oracle, t, lookupText, disk, paths[0]);
      SecondPass(io1, codecs, oracle, t, lookupText, disk, paths[1..],
        MapSet(summaries, paths[0], summary), MapSet(listings, paths[0], disk[paths[0]]))
  }

  /** The lookup text of line 122 as written: `summariseTemplate({filePath, fileContent})`. */
  function SummaryLookupAsWritten(t: Templates): Json -> string {
    t.summarise.render
  }

  /** The lookup text the first loop uses, and the store in both loops: `summariseTemplate.toString()`. */
  function SummaryLookupIntended(t: Templates): Json -> string {
    _ => t.summarise.source
  }

  /** What the requests after the two loops produce. */
  datatype Outcome = Outcome(io: Io, summaryList: string, listingList: string,
                             selectedSummaries: Entries, selectedListings: Entries, autoCode: string)

  /**
   * Which template text the last three lookups pass: as written (lines 142, 153, 167) a
   * rendered prompt, intended the template's own text, which every store uses.
   */
  datatype LookupKind = AsWritten | Intended

  function LookupText(lookup: LookupKind, template: Template, rendered: string): string {
    if lookup.Intended? then template.source else rendered
  }

  /** One of the last three requests: look up under `lookupText`, then `??` and the conditional store. */
  function CachedRequest(io: Io, codecs: Codecs, oracle: Oracle, lookupText: string, prompt: string,
                         path: string, template: Template, args: Json): (Io, string)
  {
    Resolve(io, codecs, oracle, GetCachedResponse(io.files, codecs, path, lookupText, args), prompt, path, template, args)
  }

  /** Lines 138-175: the summary list, the listing list, the two selections and the auto-code response. */
  function Finish(io: Io, codecs: Codecs, oracle: Oracle, t: Templates, lookup: LookupKind,
                  summaries: Entries, listings: Entries, instructions: string): Outcome
  {
    var summaryArgs := WithInstructions("summaries", SummariesJson(summaries), instructions);
    var summaryPrompt := t.summaryList.render(summaryArgs);
    var (io1, summaryList) := CachedRequest(io, codecs, oracle, LookupText(lookup, t.summaryList, summaryPrompt),
      summaryPrompt, SummaryListPath, t.summaryList, summaryArgs);
    var listingArgs := WithInstructions("listings", ListingsJson(listings), instructions);
    var (io2, listingList) := CachedRequest(io1, codecs, oracle, LookupText(lookup, t.listingList, t.listingList.render(summaryArgs)),
      t.listingList.render(listingArgs), ListingListPath, t.listingList, listingArgs);
    var selectedSummaries := Keep(summaries, summaryList);
    var selectedListings := Keep(listings, listingList);
    var autoPrompt := t.autoCode.render(AutoCodeRenderArgs(selectedSummaries, selectedListings, instructions));
    var autoArgs := AutoCodeKeyArgs(summaries, summaryList, listingList, instructions);
    var (io3, autoCode) := CachedRequest(io2, codecs, oracle, LookupText(lookup, t.autoCode, autoPrompt),
      autoPrompt, AutoCodePath, t.autoCode, autoArgs);
    Outcome(io3, summaryList, listingList, selectedSummaries, selectedListings, autoCode)
  }

  /** `processFiles` once the source files are known. */
  function ProcessFilesSpec(io: Io, codecs: Codecs, oracle: Oracle, t: Templates, disk: map<string, string>,
                            sourceFiles: seq<string>, instructions: string): Outcome
    requires Readable(sourceFiles, disk)
  {
    var io1 := FirstPass(io, codecs, oracle, t, disk, sourceFiles);
    var (io2, summaries, listings) := SecondPass(io1, codecs, oracle, t, SummaryLookupAsWritten(t), disk, sourceFiles, [], []);
    Finish(io2, codecs, oracle, t, AsWritten, summaries, listings, instructions)
  }

  // ---------------------------------------------------------------------------------
  // Properties

  /** The first pass asks about a file only when its cached summary is absent or empty. */
  lemma FirstStepAsksOnlyOnMiss(io: Io, codecs: Codecs, oracle: Oracle, t: Templates, disk: map<string, string>, filePath: string)
    requires filePath in disk
    ensures var args := FileArgs(filePath, disk[filePath]);
      var cached := GetCachedResponse(io.files, codecs, SummarisePath, t.summarise.source, args);
      var io' := FirstStep(io, codecs, oracle, t, disk, filePath);
      && (Falsy(cached) ==> io'.log == io.log + [Request(t.summarise.render(args), Model)])
      && (!Falsy(cached) ==> io' == io)
  {
    var args := FileArgs(filePath, disk[filePath]);
    RefreshFacts(io, codecs, oracle, GetCachedResponse(io.files, codecs, SummarisePath, t.summarise.source, args),
      t.summarise.render(args), SummarisePath, t.summarise, args);
  }

  /** Every file in `paths` has a cached summary, non-empty if `nonEmpty`. */
  ghost predicate Summarised(files: map<string, string>, codecs: Codecs, t: Templates, disk: map<string, string>, paths: seq<string>, nonEmpty: bool)
    requires Readable(paths, disk)
  {
    forall p :: p in paths ==>
      var c := GetCachedResponse(files, codecs, SummarisePath, t.summarise.source, FileArgs(p, disk[p]));
      c.Some? && (nonEmpty ==> c.value != "")
  }

  /** A warm cache, where every file already has a non-empty summary, makes the first pass a no-op. */
  lemma {:induction false} WarmFirstPass(io: Io, codecs: Codecs, oracle: Oracle, t: Templates, disk: map<string, string>, paths: seq<string>)
    requires Readable(paths, disk)
    requires Summarised(io.files, codecs, t, disk, paths, true)
    ensures FirstPass(io, codecs, oracle, t, disk, paths) == io
    decreases |paths|
  {
    if paths != [] {
      FirstStepAsksOnlyOnMiss(io, codecs, oracle, t, disk, paths[0]);
      assert paths[0] in paths;
      WarmFirstPass(io, codecs, oracle, t, disk, paths[1..]);
    }
  }

  /** Storing a response keeps every response file that existed, and keeps it non-empty if the stored text is. */
  lemma StoreKeepsResponses(files: map<string, string>, codecs: Codecs, path: string, template: Template, args: Json, r: string, name: string)
    requires EndsWith(name, ".response") && name in files
    ensures var files' := CacheResponseSpec(files, codecs, path, template, args, r);
      && name in files'
      && (files[name] != "" && r != "" ==> files'[name] != "")
  {
    CacheThenGet(files, codecs, path, template, args, r);
  }

  /**
   * After the first pass every file has a cached summary under the key the first pass
   * uses, and a non-empty one when the backend never answers with empty text.
   */
  lemma {:induction false} FirstPassSummarisesAll(io: Io, codecs: Codecs, oracle: Oracle, t: Templates, disk: map<string, string>,
                                                  done: seq<string>, paths: seq<string>, nonEmpty: bool)
    requires Readable(done, disk) && Readable(paths, disk)
    requires Summarised(io.files, codecs, t, disk, done, nonEmpty)
    requires nonEmpty ==> forall prompt, model, n :: oracle(prompt, model, n) != ""
    ensures Readable(done + paths, disk)
    ensures Summarised(FirstPass(io, codecs, oracle, t, disk, paths).files, codecs, t, disk, done + paths, nonEmpty)
    decreases |paths|
  {
    if paths == [] {
      assert done + paths == done;
    } else {
      var p := paths[0];
      FirstStepKeepsSummarised(io, codecs, oracle, t, disk, done, p, nonEmpty);
      assert done + paths == (done + [p]) + paths[1..];
      FirstPassSummarisesAll(FirstStep(io, codecs, oracle, t, disk, p), codecs, oracle, t, disk, done + [p], paths[1..], nonEmpty);
    }
  }

  /** One step of the first pass adds its file to the summarised ones and loses none. */
  lemma FirstStepKeepsSummarised(io: Io, codecs: Codecs, oracle: Oracle, t: Templates, disk: map<string, string>,
                                 done: seq<string>, p: string, nonEmpty: bool)
    requires Readable(done, disk) && p in disk
    requires Summarised(io.files, codecs, t, disk, done, nonEmpty)
    requires nonEmpty ==> forall prompt, model, n :: oracle(prompt, model, n) != ""
    ensures Readable(done + [p], disk)
    ensures Summarised(FirstStep(io, codecs, oracle, t, disk, p).files, codecs, t, disk, done + [p], nonEmpty)
  {
    var args := FileArgs(p, disk[p]);
    var cached := GetCachedResponse(io.files, codecs, SummarisePath, t.summarise.source, args);
    var io1 := FirstStep(io, codecs, oracle, t, disk, p);
    RefreshFacts(io, codecs, oracle, cached, t.summarise.render(args), SummarisePath, t.summarise, args);
    forall q | q in done + [p]
      ensures var c := GetCachedResponse(io1.files, codecs, SummarisePath, t.summarise.source, FileArgs(q, disk[q]));
        c.Some? && (nonEmpty ==> c.value != "")
    {
      if q != p && Falsy(cached) {
        var key := GetCachedResponseKey(codecs, SummarisePath, t.summarise.source, FileArgs(q, disk[q]));
        StoreKeepsResponses(io.files, codecs, SummarisePath, t.summarise, args, oracle(t.summarise.render(args), Model, |io.log|), key);
      }
    }
  }

  /**
   * The second loop gives each file exactly one entry in each map, in the order the
   * files first appear, and each listing holds the file's contents.
   */
  lemma {:induction false} SecondPassMaps(io: Io, codecs: Codecs, oracle: Oracle, t: Templates, lookupText: Json -> string, disk: map<string, string>,
                                          paths: seq<string>, summaries: Entries, listings: Entries)
    requires Readable(paths, disk)
    requires Distinct(Keys(summaries)) && Keys(listings) == Keys(summaries)
    requires forall e :: e in listings ==> e.0 in disk && e.1 == disk[e.0]
    ensures var (_, summaries', listings') := SecondPass(io, codecs, oracle, t, lookupText, disk, paths, summaries, listings);
      && Keys(summaries') == Keys(listings') == Dedupe(Keys(summaries), paths)
      && Distinct(Keys(summaries'))
      && (forall e :: e in listings' ==> e.0 in disk && e.1 == disk[e.0])
    decreases |paths|
  {
    if paths != [] {
      var p := paths[0];
      var (io1, summary) := SecondStep(io, codecs, oracle, t, lookupText, disk, p);
      MapSetKeys(summaries, p, summary);
      MapSetKeys(listings, p, disk[p]);
      MapSetEntries(summaries, p, summary);
      MapSetEntries(listings, p, disk[p]);
      SecondPassMaps(io1, codecs, oracle, t, lookupText, disk, paths[1..], MapSet(summaries, p, summary), MapSet(listings, p, disk[p]));
    }
  }

  /**
   * `summariesMap` and `listingsMap` have one entry per source file, in the order the
   * files were found, and every listing is the file's contents.
   */
  lemma MapsCoverSourceFiles(io: Io, codecs: Codecs, oracle: Oracle, t: Templates, disk: map<string, string>, sourceFiles: seq<string>)
    requires Readable(sourceFiles, disk)
    ensures var (_, summaries, listings) := SecondPass(io, codecs, oracle, t, SummaryLookupAsWritten(t), disk, sourceFiles, [], []);
      && Keys(summaries) == Keys(listings)
      && Distinct(Keys(summaries))
      && (forall p :: p in Keys(summaries) <==> p in sourceFiles)
      && (Distinct(sourceFiles) ==> Keys(summaries) == sourceFiles)
      && (forall e :: e in listings ==> e.1 == disk[e.0])
  {
    SecondPassMaps(io, codecs, oracle, t, SummaryLookupAsWritten(t), disk, sourceFiles, [], []);
    DedupeFacts([], sourceFiles);
    if Distinct(sourceFiles) {
      assert [] + sourceFiles == sourceFiles;
      DedupeOfDistinct([], sourceFiles);
    }
  }

  // ---------------------------------------------------------------------------------
  // The second loop's lookup key

  /**
   * As written, the second loop does not see the summary the first loop cached: unless
   * the rendered prompt and the template text hash alike, a file with no non-empty
   * summary under the second loop's key is sent to the backend again, although the
   * first loop has just cached a summary for it.
   */
  lemma SecondPassAsksAgain(io: Io, codecs: Codecs, oracle: Oracle, t: Templates, disk: map<string, string>, filePath: string)
    requires filePath in disk
    requires codecs.hash(t.summarise.render(FileArgs(filePath, disk[filePath]))) != codecs.hash(t.summarise.source)
    requires Falsy(GetCachedResponse(io.files, codecs, SummarisePath,
      t.summarise.render(FileArgs(filePath, disk[filePath])), FileArgs(filePath, disk[filePath])))
    ensures var io1 := FirstPass(io, codecs, oracle, t, disk, [filePath]);
      && Summarised(io1.files, codecs, t, disk, [filePath], false)
      && SecondPass(io1, codecs, oracle, t, SummaryLookupAsWritten(t), disk, [filePath], [], []).0.log ==
           io1.log + [Request(t.summarise.render(FileArgs(filePath, disk[filePath])), Model)]
  {
    var args := FileArgs(filePath, disk[filePath]);
    var prompt := t.summarise.render(args);
    var cached := GetCachedResponse(io.files, codecs, SummarisePath, t.summarise.source, args);
    var io1 := FirstStep(io, codecs, oracle, t, disk, filePath);
    assert FirstPass(io, codecs, oracle, t, disk, [filePath]) == io1;
    FirstPassSummarisesAll(io, codecs, oracle, t, disk, [], [filePath], false);
    assert [] + [filePath] == [filePath];
    RefreshFacts(io, codecs, oracle, cached, prompt, SummarisePath, t.summarise, args);
    if Falsy(cached) {
      LookupMeetsStoreIff(io.files, codecs, SummarisePath, t.summarise, args, oracle(prompt, Model, |io.log|), prompt);
    }
    var cached2 := GetCachedResponse(io1.files, codecs, SummarisePath, prompt, args);
    assert Falsy(cached2);
    RefreshFacts(io1, codecs, oracle, cached2, prompt, SummarisePath, t.summarise, args);
  }

  /** With every summary cached and non-empty, the second loop under the intended lookup changes nothing. */
  lemma {:induction false} IntendedSecondPassIsQuiet(io: Io, codecs: Codecs, oracle: Oracle, t: Templates, disk: map<string, string>,
                                                     paths: seq<string>, summaries: Entries, listings: Entries)
    requires Readable(paths, disk)
    requires Summarised(io.files, codecs, t, disk, paths, true)
    ensures SecondPass(io, codecs, oracle, t, SummaryLookupIntended(t), disk, paths, summaries, listings).0 == io
    decreases |paths|
  {
    if paths != [] {
      var p := paths[0];
      var args := FileArgs(p, disk[p]);
      assert p in paths;
      RefreshFacts(io, codecs, oracle, GetCachedResponse(io.files, codecs, SummarisePath, t.summarise.source, args),
        t.summarise.render(args), SummarisePath, t.summarise, args);
      var summary := SecondStep(io, codecs, oracle, t, SummaryLookupIntended(t), disk, p).1;
      IntendedSecondPassIsQuiet(io, codecs, oracle, t, disk, paths[1..], MapSet(summaries, p, summary), MapSet(listings, p, disk[p]));
    }
  }

  /**
   * Looked up under the template text, the second loop reuses every summary the first
   * loop made sure of: when the backend never answers with empty text, the second loop
   * makes no request and writes nothing.
   */
  lemma IntendedSecondPassReusesSummaries(io: Io, codecs: Codecs, oracle: Oracle, t: Templates, disk: map<string, string>, paths: seq<string>)
    requires Readable(paths, disk)
    requires forall prompt, model, n :: oracle(prompt, model, n) != ""
    ensures var io1 := FirstPass(io, codecs, oracle, t, disk, paths);
      SecondPass(io1, codecs, oracle, t, SummaryLookupIntended(t), disk, paths, [], []).0 == io1
  {
    FirstPassSummarisesAll(io, codecs, oracle, t, disk, [], paths, true);
    assert [] + paths == paths;
    IntendedSecondPassIsQuiet(FirstPass(io, codecs, oracle, t, disk, paths), codecs, oracle, t, disk, paths, [], []);
  }

  // ---------------------------------------------------------------------------------
  // The lookups of the last three requests

  /** The three template paths of the last requests have different digests. */
  predicate DistinctPathDigests(codecs: Codecs) {
    && codecs.hash(SummaryListPath) != codecs.hash(ListingListPath)
    && codecs.hash(SummaryListPath) != codecs.hash(AutoCodePath)
    && codecs.hash(ListingListPath) != codecs.hash(AutoCodePath)
  }

  /** Keys built from template paths with different digests never meet. */
  lemma PathsSeparateKeys(codecs: Codecs, p1: string, c1: string, a1: Json, p2: string, c2: string, a2: Json)
    requires codecs.hash(p1) != codecs.hash(p2)
    ensures GetCachedResponseKey(codecs, p1, c1, a1) != GetCachedResponseKey(codecs, p2, c2, a2)
  {
    KeyInjective(codecs, p1, c1, a1, p2, c2, a2);
  }

  /**
   * One of the last three requests asks the backend exactly when its lookup finds no
   * file, otherwise answers with the file's text; after a falsy lookup the reply sits
   * under the key the store uses; no other response file changes.
   */
  lemma CachedRequestFacts(io: Io, codecs: Codecs, oracle: Oracle, lookupText: string, prompt: string,
                           path: string, template: Template, args: Json)
    ensures var (io', r) := CachedRequest(io, codecs, oracle, lookupText, prompt, path, template, args);
      var cached := GetCachedResponse(io.files, codecs, path, lookupText, args);
      var key := GetCachedResponseKey(codecs, path, template.source, args);
      && (cached.None? ==> io'.log == io.log + [Request(prompt, Model)] && r == oracle(prompt, Model, |io.log|))
      && (cached.Some? ==> io'.log == io.log && r == cached.value)
      && (Falsy(cached) ==> Lookup(io'.files, key) == Some(r))
      && (!Falsy(cached) ==> io'.files == io.files)
      && (forall n :: EndsWith(n, ".response") && n != key ==> Lookup(io'.files, n) == Lookup(io.files, n))
  {
    var cached := GetCachedResponse(io.files, codecs, path, lookupText, args);
    if Falsy(cached) {
      var r := CachedRequest(io, codecs, oracle, lookupText, prompt, path, template, args).1;
      CacheThenGet(io.files, codecs, path, template, args, r);
    }
  }

  /** Under the intended lookup a request leaves its reply where the same lookup finds it next time. */
  lemma IntendedRequestStores(io: Io, codecs: Codecs, oracle: Oracle, prompt: string, path: string, template: Template, args: Json)
    ensures var (io', r) := CachedRequest(io, codecs, oracle, template.source, prompt, path, template, args);
      Lookup(io'.files, GetCachedResponseKey(codecs, path, template.source, args)) == Some(r)
  {
    CachedRequestFacts(io, codecs, oracle, template.source, prompt, path, template, args);
  }

  /** Under the intended lookup a request whose file exists asks nothing, answers with its text and keeps every response file. */
  lemma IntendedRequestHit(io: Io, codecs: Codecs, oracle: Oracle, prompt: string, path: string, template: Template, args: Json, text: string)
    requires Lookup(io.files, GetCachedResponseKey(codecs, path, template.source, args)) == Some(text)
    ensures var (io', r) := CachedRequest(io, codecs, oracle, template.source, prompt, path, template, args);
      && r == text && io'.log == io.log
      && (forall n :: EndsWith(n, ".response") ==> Lookup(io'.files, n) == Lookup(io.files, n))
  {
    CachedRequestFacts(io, codecs, oracle, template.source, prompt, path, template, args);
  }

  /**
   * As written, one run of lines 138-175 asks for the summary list when the file under
   * its lookup key is missing, and never creates that file: the store goes under the
   * template text's key, and the later stores under other template paths.
   */
  lemma FinishMissesSummaryList(io: Io, codecs: Codecs, oracle: Oracle, t: Templates, summaries: Entries, listings: Entries, instructions: string)
    requires DistinctPathDigests(codecs)
    requires var summaryArgs := WithInstructions("summaries", SummariesJson(summaries), instructions);
      && codecs.hash(t.summaryList.render(summaryArgs)) != codecs.hash(t.summaryList.source)
      && GetCachedResponseKey(codecs, SummaryListPath, t.summaryList.render(summaryArgs), summaryArgs) !in io.files
    ensures var summaryArgs := WithInstructions("summaries", SummariesJson(summaries), instructions);
      var out := Finish(io, codecs, oracle, t, AsWritten, summaries, listings, instructions);
      && |io.log| < |out.io.log| && out.io.log[|io.log|] == Request(t.summaryList.render(summaryArgs), Model)
      && GetCachedResponseKey(codecs, SummaryListPath, t.summaryList.render(summaryArgs), summaryArgs) !in out.io.files
  {
    var summaryArgs := WithInstructions("summaries", SummariesJson(summaries), instructions);
    var listingArgs := WithInstructions("listings", ListingsJson(listings), instructions);
    var sp := t.summaryList.render(summaryArgs);
    var asked := GetCachedResponseKey(codecs, SummaryListPath, sp, summaryArgs);
    var (io1, r1) := CachedRequest(io, codecs, oracle, sp, sp, SummaryListPath, t.summaryList, summaryArgs);
    CachedRequestFacts(io, codecs, oracle, sp, sp, SummaryListPath, t.summaryList, summaryArgs);
    KeyInjective(codecs, SummaryListPath, sp, summaryArgs, SummaryListPath, t.summaryList.source, summaryArgs);
    var (io2, l1) := CachedRequest(io1, codecs, oracle, t.listingList.render(summaryArgs), t.listingList.render(listingArgs), ListingListPath, t.listingList, listingArgs);
    PathsSeparateKeys(codecs, SummaryListPath, sp, summaryArgs, ListingListPath, t.listingList.source, listingArgs);
    StillMissing(io1, codecs, oracle, t.listingList.render(summaryArgs), t.listingList.render(listingArgs), ListingListPath, t.listingList, listingArgs, asked);
    var autoPrompt := t.autoCode.render(AutoCodeRenderArgs(Keep(summaries, r1), Keep(listings, l1), instructions));
    var autoArgs := AutoCodeKeyArgs(summaries, r1, l1, instructions);
    PathsSeparateKeys(codecs, SummaryListPath, sp, summaryArgs, AutoCodePath, t.autoCode.source, autoArgs);
    StillMissing(io2, codecs, oracle, autoPrompt, autoPrompt, AutoCodePath, t.autoCode, autoArgs, asked);
  }

  /** A request that stores under another key leaves a missing response file missing, and only adds to the log. */
  lemma StillMissing(io: Io, codecs: Codecs, oracle: Oracle, lookupText: string, prompt: string,
                     path: string, template: Template, args: Json, missing: string)
    requires EndsWith(missing, ".response") && missing !in io.files
    requires missing != GetCachedResponseKey(codecs, path, template.source, args)
    ensures var io' := CachedRequest(io, codecs, oracle, lookupText, prompt, path, template, args).0;
      missing !in io'.files && io.log <= io'.log
  {
    CachedRequestFacts(io, codecs, oracle, lookupText, prompt, path, template, args);
  }

  /**
   * As written, the lookups of lines 142, 153 and 167 never find what lines 146, 157 and
   * 171 store: a second run with the same summaries and listings asks for the summary
   * list again, although the first run has just cached it.
   */
  lemma FinishAsksAgain(io: Io, codecs: Codecs, oracle: Oracle, t: Templates, summaries: Entries, listings: Entries, instructions: string)
    requires DistinctPathDigests(codecs)
    requires var summaryArgs := WithInstructions("summaries", SummariesJson(summaries), instructions);
      && codecs.hash(t.summaryList.render(summaryArgs)) != codecs.hash(t.summaryList.source)
      && GetCachedResponseKey(codecs, SummaryListPath, t.summaryList.render(summaryArgs), summaryArgs) !in io.files
    ensures var prompt := t.summaryList.render(WithInstructions("summaries", SummariesJson(summaries), instructions));
      var first := Finish(io, codecs, oracle, t, AsWritten, summaries, listings, instructions);
      var second := Finish(first.io, codecs, oracle, t, AsWritten, summaries, listings, instructions);
      && |io.log| < |first.io.log| && first.io.log[|io.log|] == Request(prompt, Model)
      && |first.io.log| < |second.io.log| && second.io.log[|first.io.log|] == Request(prompt, Model)
  {
    FinishMissesSummaryList(io, codecs, oracle, t, summaries, listings, instructions);
    var first := Finish(io, codecs, oracle, t, AsWritten, summaries, listings, instructions);
    FinishMissesSummaryList(first.io, codecs, oracle, t, summaries, listings, instructions);
  }

  /**
   * Looked up under the template texts the stores use, the last three requests are
   * answered from the cache on a second run with the same summaries and listings: it
   * asks nothing and gives the same summary list, listing list and code.
   */
  lemma IntendedFinishIsQuiet(io: Io, codecs: Codecs, oracle: Oracle, t: Templates, summaries: Entries, listings: Entries, instructions: string)
    requires DistinctPathDigests(codecs)
    ensures var first := Finish(io, codecs, oracle, t, Intended, summaries, listings, instructions);
      var second := Finish(first.io, codecs, oracle, t, Intended, summaries, listings, instructions);
      && second.io.log == first.io.log
      && second.summaryList == first.summaryList && second.listingList == first.listingList
      && second.autoCode == first.autoCode
  {
    var summaryArgs := WithInstructions("summaries", SummariesJson(summaries), instructions);
    var listingArgs := WithInstructions("listings", ListingsJson(listings), instructions);
    var sp, lp := t.summaryList.render(summaryArgs), t.listingList.render(listingArgs);
    var k1 := GetCachedResponseKey(codecs, SummaryListPath, t.summaryList.source, summaryArgs);
    var k2 := GetCachedResponseKey(codecs, ListingListPath, t.listingList.source, listingArgs);
    // The first run leaves each reply under its key.
    var (io1, r1) := CachedRequest(io, codecs, oracle, t.summaryList.source, sp, SummaryListPath, t.summaryList, summaryArgs);
    IntendedRequestStores(io, codecs, oracle, sp, SummaryListPath, t.summaryList, summaryArgs);
    var (io2, l1) := CachedRequest(io1, codecs, oracle, t.listingList.source, lp, ListingListPath, t.listingList, listingArgs);
    IntendedRequestStores(io1, codecs, oracle, lp, ListingListPath, t.listingList, listingArgs);
    CachedRequestFacts(io1, codecs, oracle, t.listingList.source, lp, ListingListPath, t.listingList, listingArgs);
    PathsSeparateKeys(codecs, SummaryListPath, t.summaryList.source, summaryArgs, ListingListPath, t.listingList.source, listingArgs);
    var autoPrompt := t.autoCode.render(AutoCodeRenderArgs(Keep(summaries, r1), Keep(listings, l1), instructions));
    var autoArgs := AutoCodeKeyArgs(summaries, r1, l1, instructions);
    var k3 := GetCachedResponseKey(codecs, AutoCodePath, t.autoCode.source, autoArgs);
    var (io3, a1) := CachedRequest(io2, codecs, oracle, t.autoCode.source, autoPrompt, AutoCodePath, t.autoCode, autoArgs);
    IntendedRequestStores(io2, codecs, oracle, autoPrompt, AutoCodePath, t.autoCode, autoArgs);
    CachedRequestFacts(io2, codecs, oracle, t.autoCode.source, autoPrompt, AutoCodePath, t.autoCode, autoArgs);
    PathsSeparateKeys(codecs, SummaryListPath, t.summaryList.source, summaryArgs, AutoCodePath, t.autoCode.source, autoArgs);
    PathsSeparateKeys(codecs, ListingListPath, t.listingList.source, listingArgs, AutoCodePath, t.autoCode.source, autoArgs);
    assert Lookup(io3.files, k1) == Some(r1) && Lookup(io3.files, k2) == Some(l1) && Lookup(io3.files, k3) == Some(a1);
    // The second run finds all three.
    IntendedRequestHit(io3, codecs, oracle, sp, SummaryListPath, t.summaryList, summaryArgs, r1);
    var jo1 := CachedRequest(io3, codecs, oracle, t.summaryList.source, sp, SummaryListPath, t.summaryList, summaryArgs).0;
    IntendedRequestHit(jo1, codecs, oracle, lp, ListingListPath, t.listingList, listingArgs, l1);
    var jo2 := CachedRequest(jo1, codecs, oracle, t.listingList.source, lp, ListingListPath, t.listingList, listingArgs).0;
    IntendedRequestHit(jo2, codecs, oracle, autoPrompt, AutoCodePath, t.autoCode, autoArgs, a1);
  }

  // ---------------------------------------------------------------------------------
  // `processFiles` as the source runs it

  /** The `if (!cached)` pattern of both loops, against the cache directory and the backend. */
  method Summarise(dir: CacheDir, backend: Backend, codecs: Codecs, cached: Option<string>, prompt: string,
                   path: string, template: Template, args: Json) returns (summary: string)
    modifies dir, backend
    ensures (Io(dir.files, backend.log), summary) ==
      Refresh(Io(old(dir.files), old(backend.log)), codecs, backend.oracle, cached, prompt, path, template, args)
  {
    if Falsy(cached) {
      summary := backend.Call(prompt, Model);
      CacheResponse(dir, codecs, path, template, args, summary);
    } else {
      summary := cached.value;
    }
  }

  /** The `cached ?? await callOpenAiApi(prompt)` pattern of the last three requests. */
  method ResolveRequest(dir: CacheDir, backend: Backend, codecs: Codecs, cached: Option<string>, prompt: string,
                        path: string, template: Template, args: Json) returns (response: string)
    modifies dir, backend
    ensures (Io(dir.files, backend.log), response) ==
      Resolve(Io(old(dir.files), old(backend.log)), codecs, backend.oracle, cached, prompt, path, template, args)
  {
    if cached.Some? {
      response := cached.value;
    } else {
      response := backend.Call(prompt, Model);
    }
    if Falsy(cached) {
      CacheResponse(dir, codecs, path, template, args, response);
    }
  }

  /** The first loop (lines 102-115). */
  method SummariseAll(dir: CacheDir, backend: Backend, codecs: Codecs, t: Templates, disk: map<string, string>, sourceFiles: seq<string>)
    requires Readable(sourceFiles, disk)
    modifies dir, backend
    ensures Io(dir.files, backend.log) == FirstPass(Io(old(dir.files), old(backend.log)), codecs, backend.oracle, t, disk, sourceFiles)
  {
    for i := 0 to |sourceFiles|
      invariant Readable(sourceFiles[i..], disk)
      invariant FirstPass(Io(dir.files, backend.log), codecs, backend.oracle, t, disk, sourceFiles[i..]) ==
                FirstPass(Io(old(dir.files), old(backend.log)), codecs, backend.oracle, t, disk, sourceFiles)
    {
      var filePath := sourceFiles[i];
      assert sourceFiles[i..][0] == filePath && sourceFiles[i..][1..] == sourceFiles[i + 1..];
      var fileContent := disk[filePath];
      var args := FileArgs(filePath, fileContent);
      var summaryPrompt := t.summarise.render(args);
      var cachedSummary := GetCachedResponse(dir.files, codecs, SummarisePath, t.summarise.source, args);
      var _ := Summarise(dir, backend, codecs, cachedSummary, summaryPrompt, SummarisePath, t.summarise, args);
    }
    assert sourceFiles[|sourceFiles|..] == [];
  }

  /** The second loop (lines 117-136), returning the entries of `summariesMap` and `listingsMap`. */
  method FillMaps(dir: CacheDir, backend: Backend, codecs: Codecs, t: Templates, disk: map<string, string>, sourceFiles: seq<string>)
    returns (summaries: Entries, listings: Entries)
    requires Readable(sourceFiles, disk)
    modifies dir, backend
    ensures (Io(dir.files, backend.log), summaries, listings) ==
      SecondPass(Io(old(dir.files), old(backend.log)), codecs, backend.oracle, t, SummaryLookupAsWritten(t), disk, sourceFiles, [], [])
  {
    summaries := [];
    listings := [];
    for i := 0 to |sourceFiles|
      invariant Readable(sourceFiles[i..], disk)
      invariant SecondPass(Io(dir.files, backend.log), codecs, backend.oracle, t, SummaryLookupAsWritten(t), disk, sourceFiles[i..], summaries, listings) ==
                SecondPass(Io(old(dir.files), old(backend.log)), codecs, backend.oracle, t, SummaryLookupAsWritten(t), disk, sourceFiles, [], [])
    {
      var filePath := sourceFiles[i];
      assert sourceFiles[i..][0] == filePath && sourceFiles[i..][1..] == sourceFiles[i + 1..];
      var fileContent := disk[filePath];
      var args := FileArgs(filePath, fileContent);
      var cachedSummary := GetCachedResponse(dir.files, codecs, SummarisePath, t.summarise.render(args), args);
      var summary := Summarise(dir, backend, codecs, cachedSummary, t.summarise.render(args), SummarisePath, t.summarise, args);
      summaries := MapSet(summaries, filePath, summary);
      listings := MapSet(listings, filePath, fileContent);
    }
    assert sourceFiles[|sourceFiles|..] == [];
  }

  /** Lines 138-175. */
  method RequestAutoCode(dir: CacheDir, backend: Backend, codecs: Codecs, t: Templates, summaries: Entries, listings: Entries, instructions: string)
    returns (outcome: Outcome)
    modifies dir, backend
    ensures outcome == Finish(Io(old(dir.files), old(backend.log)), codecs, backend.oracle, t, AsWritten, summaries, listings, instructions)
    ensures outcome.io == Io(dir.files, backend.log)
  {
    var summaryArgs := WithInstructions("summaries", SummariesJson(summaries), instructions);
    var summaryListPrompt := t.summaryList.render(summaryArgs);
    var cachedSummaryList := GetCachedResponse(dir.files, codecs, SummaryListPath, t.summaryList.render(summaryArgs), summaryArgs);
    var summaryList := ResolveRequest(dir, backend, codecs, cachedSummaryList, summaryListPrompt, SummaryListPath, t.summaryList, summaryArgs);

    var listingArgs := WithInstructions("listings", ListingsJson(listings), instructions);
    var listingListPrompt := t.listingList.render(listingArgs);
    var cachedListingList := GetCachedResponse(dir.files, codecs, ListingListPath, t.listingList.render(summaryArgs), listingArgs);
    var listingList := ResolveRequest(dir, backend, codecs, cachedListingList, listingListPrompt, ListingListPath, t.listingList, listingArgs);

    var selectedSummaries := Keep(summaries, summaryList);
    var selectedListings := Keep(listings, listingList);

    var autoCodePrompt := t.autoCode.render(AutoCodeRenderArgs(selectedSummaries, selectedListings, instructions));
    var autoArgs := AutoCodeKeyArgs(summaries, summaryList, listingList, instructions);
    var cachedAutoCode := GetCachedResponse(dir.files, codecs, AutoCodePath, autoCodePrompt, autoArgs);
    var autoCode := ResolveRequest(dir, backend, codecs, cachedAutoCode, autoCodePrompt, AutoCodePath, t.autoCode, autoArgs);
    outcome := Outcome(Io(dir.files, backend.log), summaryList, listingList, selectedSummaries, selectedListings, autoCode);
  }

  /** `processFiles(workingDir, instructions)` over the tree listed at `workingDir`, with the cache directory already present. */
  method ProcessFiles(dir: CacheDir, backend: Backend, codecs: Codecs, t: Templates, disk: map<string, string>,
                      workingDir: string, entries: seq<Node>, instructions: string) returns (outcome: Outcome)
    requires Readable(Select(Files(workingDir, entries), Suffix(SourceExtension)), disk)
    modifies dir, backend
    ensures outcome == ProcessFilesSpec(Io(old(dir.files), old(backend.log)), codecs, backend.oracle, t, disk,
      Select(Files(workingDir, entries), Suffix(SourceExtension)), instructions)
    ensures outcome.io == Io(dir.files, backend.log)
  {
    var sourceFiles := GetFilePathsBySuffix(workingDir, entries, SourceExtension);
    SummariseAll(dir, backend, codecs, t, disk, sourceFiles);
    var summaries, listings := FillMaps(dir, backend, codecs, t, disk, sourceFiles);
    outcome := RequestAutoCode(dir, backend, codecs, t, summaries, listings, instructions);
  }
}
