# gpt-repo core, modelled in Dafny

gpt-repo is a command-line agent that sends repository files to a language model and acts on its replies. This project models the two source files that hold its logic, `src/lib.ts` and `src/code_main.ts`:

- **Step interpreter** (`Steps`). `handleAutoSteps` runs a batch of typed steps in order:
  - `CREATE_FILE`, `EDIT_FILE` and `DELETE_FILE` ask the user on stdin, and change the file system only when the trimmed answer lower-cases to `yes`.
  - `REQUEST_FILE` and `QUERY_USER` each push one `user` message.
  - `DONE` calls `process.exit(0)`.
  - An unknown tag is only warned about.

  The process is a `Machine`: the files, the stdin chunks not yet read, the prompts written, and an exit flag. The functions `RunStep` and `Run` specify one step and one batch. The class `Steps.Agent` runs the handlers imperatively and is proved to agree with those functions. A thrown `readFileSync`/`unlinkSync` error, a closed stdin and `process.exit` end the batch with an `Abrupt` completion.
- **Response caches** (`LibCache`, `CodeCache`, over `Storage`). The cache directory is a map from file name to text. `getCachedResponseKey` names a response file by a SHA-256 digest (lib.ts) or by three digests (code_main.ts), followed by `.response`. `cacheResponse` writes the response, then the rendered request into the `.query` twin. `getResponse` computes on a miss, and it treats a cached empty text as a miss.
- **Chunk packer** (`Chunking`). The loop of `summariseDeep` packs summaries greedily. Every chunk of two or more summaries renders within `MAX_PROMPT_LENGTH` (30000). A summary that does not fit opens a new chunk, which is not measured alone, so a single summary may exceed the limit.
- **File discovery** (`FileTree`). Both `getFilePaths` walk a directory tree depth first in listing order. lib.ts keeps files by `path.extname`; code_main.ts keeps files by a path suffix.
- **`processFiles`** (`CodeMain`, with `OrderedMap`). Its parts:
  - a first pass that makes sure every `.ts` file has a cached summary;
  - a second pass that fills the insertion-ordered `summariesMap` and `listingsMap`;
  - the summary-list and listing-list requests;
  - the two selection filters;
  - the auto-code request.

SHA-256, `JSON.stringify` and Handlebars are uninterpreted function values (`External.Codecs`, `External.Template`). The only fact assumed about a digest is that it is 64 lower-case hexadecimal characters. `Template.source` stands for `template.toString()`. For a compiled Handlebars template that is the text of the wrapper function, which may well be the same for every template, so no property depends on it differing between templates. The backend is an oracle `(prompt, model, n) -> reply`, where `n` counts the earlier requests. Every request is logged, so "asked once" and "not asked" are statements about the log.

`processFiles` is modelled as written:
- Every cache store uses `template.toString()` as the template text.
- The lookups at code_main.ts lines 122, 142, 153 and 167 pass a rendered prompt in that place.
- Line 153 renders the listing template over `{summaries, instructions}`.
- The `??` at lines 144, 155 and 169 takes a cached empty text as the answer, then writes it back.

`CodeCache.LookupMeetsStoreIff` states exactly when such a lookup meets such a store. `CodeMain.ResolveVersusRefresh` states how the `??` requests differ from the `!cached` loops.

Behaviours of the step interpreter a reader may not expect, all followed by the model:
- `DONE` exits at once, so later steps in the batch never run.
- An unknown tag is skipped with a warning. It is not fatal.
- A missing file in `REQUEST_FILE` makes the read throw uncaught. It does not become a message.
- Confirmation always reads stdin. lib.ts has no yes-to-all bypass.
- A declined or completed create, edit or delete pushes no message.

## Model

| member | source | states |
|---|---|---|
| Text.TrimIsInfix | src/lib.ts:190 | `trim()` yields an infix of the chunk that neither starts nor ends with whitespace, with only whitespace around it |
| Text.LowerIsYes | src/lib.ts:144 | an answer lower-cases to `yes` iff it is three letters y/Y, e/E, s/S |
| Text.ReplaceSuffix | src/lib.ts:227 | replacing the first `.response` in a dot-free stem followed by `.response` swaps just that suffix |
| Storage.TwinOfResponse | src/lib.ts:227 | the `.query` twin of `stem.response` is `stem.query` |
| Storage.StoreThenLookup | src/lib.ts:222-230 | after the two writes, the response file holds the response, the twin holds the rendered request, and every other file (in particular every other response file) is unchanged |
| Storage.CacheDir.Write | src/lib.ts:225 | `writeFileSync` replaces the named file's text and nothing else |
| Storage.Backend.Call | src/lib.ts:40-47 | a completion request appends exactly one logged request and answers with the oracle's reply for that request count |
| Steps.ConfirmsSpelling | src/lib.ts:144 | a stdin chunk confirms iff, trimmed, it is `yes` in some letter case |
| Steps.QueryFacts | src/lib.ts:185-193 | asking writes `message\n> `, consumes exactly one chunk and returns it trimmed, or ends the batch when stdin is closed; files are untouched |
| Steps.StepFacts | src/lib.ts:108-136 | per step: files change only for a confirmed create/edit/delete, and exactly as it says; one chunk is read and one prompt is written iff the step asks; one `user` message iff REQUEST_FILE or QUERY_USER; it exits iff DONE |
| Steps.StepFilesPolicy | src/lib.ts:142-173 | the confirmation policy of one step: the new files are `Apply(step)` on a confirming chunk and the old files otherwise |
| Steps.RunCompletes | src/lib.ts:104-140 | a completed batch returns the earlier messages followed by one `user` message per REQUEST_FILE/QUERY_USER step, has read exactly one chunk per asking step, and has not exited |
| Steps.RunReplies | src/lib.ts:104-140 | the messages of a completed batch: the earlier ones kept as a prefix, then exactly one `user` message per REQUEST_FILE/QUERY_USER step |
| Steps.RunReadsInputs | src/lib.ts:104-140 | after a completed batch, stdin has lost exactly one chunk and stdout gained one prompt per create/edit/delete/QUERY_USER step, and the process has not exited |
| Steps.RunSequential | src/lib.ts:107-137 | steps run strictly in list order: running `s1 + s2` is running `s1`, then `s2` from where it left off |
| Steps.DoneStopsBatch | src/lib.ts:130-133 | nothing after a DONE runs; the batch ends with the exit flag set and the state the earlier steps left |
| Steps.UnknownIsSkipped | src/lib.ts:134-135 | a step with an unknown tag leaves the batch's outcome exactly as if it were absent |
| Steps.DeclinedBatchKeepsFiles | src/lib.ts:142-173 | if no stdin chunk confirms, no step in the batch changes any file |
| Steps.UntargetedPathUnchanged | src/lib.ts:142-173 | a path that no create/edit/delete step names keeps its contents or its absence |
| Steps.ExitOnlyAtDone | src/lib.ts:130-133 | the exit flag ends up set iff the batch ended by exiting, and that happens only if the batch contains DONE |
| Steps.Agent.HandleQueryUser | src/lib.ts:185-193 | the handler agrees with `Query`; it returns the trimmed first chunk iff stdin is not empty, and never touches files |
| Steps.Agent.HandleCreateFile | src/lib.ts:142-151 | agrees with `Write` for the create prompt; the files become `files[path := contents]` iff the chunk confirms |
| Steps.Agent.HandleEditFile | src/lib.ts:153-162 | agrees with `Write` for the edit prompt; the files become `files[path := contents]` iff the chunk confirms |
| Steps.Agent.HandleDeleteFile | src/lib.ts:164-173 | agrees with `Delete`; the path is removed iff the chunk confirms; the unlink throws iff confirmed on a missing file |
| Steps.Agent.HandleRequestFile | src/lib.ts:175-183 | succeeds iff the file exists, returning the JSON of path and current contents; otherwise it is the read error; nothing changes |
| Steps.Agent.HandleStep | src/lib.ts:108-136 | the dispatch on the step's tag agrees with `RunStep`: the new state and the pushed messages (or why the batch ends) |
| Steps.Agent.HandleAutoSteps | src/lib.ts:104-140 | the loop's final state and result equal `Run` of the batch from the initial state |
| LibCache.DigestHasNoDot | src/lib.ts:17-19 | a hex digest contains no `.` |
| LibCache.GetCachedResponseKey | src/lib.ts:201-210 | the key is 73 characters ending in `.response`, with a dot-free digest before it |
| LibCache.OmittedMessagesKey | src/lib.ts:206 | omitting `messages` gives the same key as `[]` |
| LibCache.CacheThenGet | src/lib.ts:222-230 | after `cacheResponse(t, a, r, m, msgs)`, `getCachedResponse(t.toString(), a, m, msgs)` is `r`; the twin holds `t(a)`; no other response file changes |
| LibCache.HitSkipsBackend | src/lib.ts:233-237 | a non-empty cached response is returned with no request and no write |
| LibCache.MissAsksOnce | src/lib.ts:239-243 | on a missing or empty response file, exactly one request (the rendered template) is made; its reply is returned and becomes the cached response |
| LibCache.SecondCallIsHit | src/lib.ts:232-244 | once `getResponse` returned non-empty text, calling it again returns the same text and changes nothing |
| LibCache.EmptyReplyIsAskedAgain | src/lib.ts:235 | after an empty reply, the next `getResponse` asks the backend again |
| LibCache.CacheResponse | src/lib.ts:222-230 | the two writes leave the directory as `CacheResponseSpec` says |
| LibCache.GetResponse | src/lib.ts:232-244 | the method's directory, log and result equal `GetResponseSpec` |
| Chunking.PackShape | src/lib.ts:287-298 | from any loop state, the chunks flatten back to the open chunk followed by the remaining summaries; later chunks are non-empty; multi-summary chunks fit; each closed chunk was closed because the next summary did not fit |
| Chunking.ChunksProperties | src/lib.ts:284-298 | at least one chunk; flattening gives back the summaries in order; every chunk of two or more summaries renders within `MAX_PROMPT_LENGTH`; only the first chunk can be empty, and it is empty iff there are no summaries or the first alone does not fit; the packing is greedy |
| Chunking.ChunkSummaries | src/lib.ts:284-298 | the imperative loop produces `Chunks(summaries)` |
| FileTree.ExtName | src/lib.ts:29 | the extension is empty or a dot-led, dot-free proper suffix of the name; a dot-free name has none |
| FileTree.WalkSelectsFiles | src/lib.ts:21-34 | the walk returns exactly the full paths of the kept non-directory entries, depth first in listing order |
| FileTree.WalkAppend | src/lib.ts:24-33 | walking a listing split in two is walking each part in turn, as the `concat` accumulation does |
| FileTree.SelectMembers | src/code_main.ts:25-38 | a path is returned iff some kept file entry has it as full path |
| FileTree.PathsAreBelow | src/code_main.ts:25-38 | every returned path is the full path of a kept file below `dir`, never a directory |
| FileTree.Collect | src/lib.ts:21-34 | the recursive accumulating walk returns `Walk` |
| FileTree.GetFilePathsByExtension | src/lib.ts:21-34 | the result is the kept files in walk order, and it contains exactly the full paths of files whose `path.extname` is listed |
| FileTree.GetFilePathsBySuffix | src/code_main.ts:25-38 | the result is the kept files in walk order, and it contains exactly the full paths of files that end with `extension` |
| FileTree.FiltersDisagreeOnDotfile | src/code_main.ts:33 | for `.ts`, the suffix test keeps a file named `.ts` that the `path.extname` test of src/lib.ts:29 drops; both keep `index.d.ts` |
| CodeCache.DigestsHaveNoDot | src/code_main.ts:60-63 | the three digests joined by `-` contain no `.` |
| CodeCache.GetCachedResponseKey | src/code_main.ts:59-64 | the key is 203 characters ending in `.response`, with a dot-free stem of three digests separated by `-` at positions 64 and 129 |
| CodeCache.KeyInjective | src/code_main.ts:59-64 | two keys are equal iff their path, template-text and argument digests are pairwise equal |
| CodeCache.GetCachedResponse | src/code_main.ts:66-74 | returns the file's text iff the key's file exists, and null otherwise |
| CodeCache.CacheThenGet | src/code_main.ts:76-84 | after `cacheResponse(p, t, a, r)`, `getCachedResponse(p, t.toString(), a)` is `r`; the twin holds `t(a)`; no other response file changes |
| CodeCache.LookupMeetsStoreIff | src/code_main.ts:122 | a lookup passing `content` as template text finds the stored response iff `content` and `t.toString()` hash alike; otherwise the store is invisible to it |
| CodeCache.CacheResponse | src/code_main.ts:76-84 | the two writes leave the directory as `CacheResponseSpec` says |
| OrderedMap.MapSetKeys | src/code_main.ts:128-135 | `Map.set` keeps a present key in its place and appends a new one last |
| OrderedMap.MapSetEntries | src/code_main.ts:128-135 | with distinct keys, after `set(k, v)` the map holds `(k, v)` and otherwise exactly its other entries, with keys still distinct |
| OrderedMap.DedupeFacts | src/code_main.ts:120-136 | setting a sequence of keys leaves each key once, and only the keys set or already present |
| OrderedMap.DedupeOfDistinct | src/code_main.ts:120-136 | distinct keys are set in the given order |
| OrderedMap.Keep | src/code_main.ts:163-164 | the selection is no longer than its input, and an entry is selected iff it is an entry and its path occurs in the reply |
| OrderedMap.KeepAppend | src/code_main.ts:163-164 | the selection keeps relative order: it distributes over concatenation |
| OrderedMap.KeepAllOrNothing | src/code_main.ts:163-164 | a reply naming every path keeps every entry; one naming none keeps nothing |
| CodeMain.ResolveVersusRefresh | src/code_main.ts:144-150 | the `??` requests agree with the `!cached` loops except on a cached empty text; there `??` returns it with no request and writes it back, while `!cached` asks again |
| CodeMain.RefreshFacts | src/code_main.ts:107-115 | the backend is asked iff the cached value is absent or empty; then its reply is returned and cached under the store key; otherwise nothing changes |
| CodeMain.FirstStepAsksOnlyOnMiss | src/code_main.ts:102-115 | the first pass asks about a file iff its cached summary is absent or empty, and otherwise changes nothing |
| CodeMain.WarmFirstPass | src/code_main.ts:102-115 | when every file already has a non-empty cached summary, the first pass makes no request and writes nothing |
| CodeMain.StoreKeepsResponses | src/code_main.ts:76-84 | a store never removes a response file, nor empties one when the stored text is non-empty |
| CodeMain.FirstStepKeepsSummarised | src/code_main.ts:102-115 | one iteration of the first loop leaves its file with a cached summary (non-empty when the backend never replies with empty text) and keeps those of earlier files |
| CodeMain.FirstPassSummarisesAll | src/code_main.ts:102-115 | after the first pass every file has a cached summary, non-empty when the backend never replies with empty text |
| CodeMain.SecondPassMaps | src/code_main.ts:117-136 | the second loop keeps both maps' keys equal and distinct, in first-occurrence order, with every listing equal to the file's contents |
| CodeMain.MapsCoverSourceFiles | src/code_main.ts:117-139 | each source file has exactly one entry in `summariesMap` and one in `listingsMap`, in the order found; every listing is the file's contents |
| CodeMain.SecondPassAsksAgain | src/code_main.ts:122 | as written, a file summarised by the first pass is sent to the backend again by the second pass whenever prompt and template text hash differently |
| CodeMain.IntendedSecondPassIsQuiet | src/code_main.ts:124-133 | with every summary cached and non-empty, the second loop under the template-text lookup changes nothing |
| CodeMain.IntendedSecondPassReusesSummaries | src/code_main.ts:120-136 | with the template-text lookup, the second loop after the first makes no request and writes nothing when replies are non-empty |
| CodeMain.Summarise | src/code_main.ts:107-115 | the `if (!cached)` block leaves directory and log as `Refresh` says |
| CodeMain.ResolveRequest | src/code_main.ts:144-150 | the `??` request and conditional store leave directory and log as `Resolve` says |
| CodeMain.SummariseAll | src/code_main.ts:102-115 | the first loop's directory and log equal `FirstPass` |
| CodeMain.FillMaps | src/code_main.ts:117-136 | the second loop's directory, log and both maps equal `SecondPass` with the as-written lookup |
| CodeMain.CachedRequestFacts | src/code_main.ts:141-149 | one of the last requests asks exactly when its lookup finds no file and otherwise answers with the file's text; after a falsy lookup the reply sits under the store's key; no other response file changes |
| CodeMain.IntendedRequestStores | src/code_main.ts:141-149 | with the template text as lookup, a request leaves its reply where the same lookup finds it next time |
| CodeMain.IntendedRequestHit | src/code_main.ts:141-149 | with the template text as lookup, a request whose file exists asks nothing, answers with that text and keeps every response file |
| CodeMain.FinishMissesSummaryList | src/code_main.ts:142-171 | as written, a run whose summary-list lookup file is missing asks for the summary list and still leaves that file missing |
| CodeMain.FinishAsksAgain | src/code_main.ts:142-146 | as written, a second run with the same summaries and listings asks for the summary list again right after the first run cached it |
| CodeMain.IntendedFinishIsQuiet | src/code_main.ts:138-175 | with the template texts as lookups, a second run asks nothing and gives the same summary list, listing list and code |
| CodeMain.RequestAutoCode | src/code_main.ts:138-175 | the last three requests and the selections equal `Finish` with the lookups as written |
| CodeMain.ProcessFiles | src/code_main.ts:88-176 | the whole run over the `.ts` files found under `workingDir` equals `ProcessFilesSpec` |

## Findings

| source | as written | input that shows it | evidently intended | confidence | as-written member | corrected member |
|---|---|---|---|---|---|---|
| src/code_main.ts:122 | the second loop looks the summary up with `summariseTemplate({filePath, fileContent})` as template text. The first loop (line 105) and every store (lines 110, 127) use `summariseTemplate.toString()` | a fresh cache and any file whose rendered summary prompt hashes differently from the template's text, i.e. any prompt that is not literally that text: the file is summarised twice in one run | look the summary up with `summariseTemplate.toString()`, so the second loop reuses what the first loop cached | high; not executed | CodeMain.SecondPassAsksAgain | CodeMain.IntendedSecondPassReusesSummaries |
| src/code_main.ts:142 | the summary-list, listing-list and auto-code lookups (lines 142, 153, 167) pass a rendered prompt as template text, while their stores (lines 146, 157, 171) pass the template, keyed by `toString()` | a cache without the summary-list file under the rendered prompt's key, and a rendered summary-list prompt that hashes differently from the template's text: running lines 138-175 twice with the same summaries asks for the summary list both times | look each up with the template's `toString()`, so a later run reuses the cached replies | high; not executed | CodeMain.FinishAsksAgain | CodeMain.IntendedFinishIsQuiet |

The same mismatch sits in the lookups at lines 142, 153 and 167 (second row). `CodeMain.ProcessFiles` keeps all four lookups as written, because it models the source. The corrected lookups are `CodeMain.SummaryLookupIntended`, passed to the same `SecondPass`, and `CodeMain.LookupKind.Intended`, passed to the same `Finish`.

## Left out

- Logging through `signale`, and the console output of `processFiles`, have no effect on the modelled state.
- `callOpenAiApi` (the network) is the oracle. Its replies may differ from call to call. `callOpenAiApiStructured` and `getResponseStructured` are not part of this model.
- SHA-256, `JSON.stringify` and Handlebars compile/render are uninterpreted. No claim is made about key order, escaping or template syntax.
- Step paths are compared as strings: two spellings of one file (`./x` and `x`, a relative and an absolute path) or links to it are different files in the model, so the handlers' file facts hold per path string.
- `path.resolve(dir, name)` is `dir + "/" + name`. This assumes an absolute, normalised `dir` without a trailing slash. Resolving a relative `workingDir` against the process directory is not modelled.
- `path.join(dataDir, key)` is modelled as the name `key` inside the cache directory. The `.replace('.response', '.query')` is applied to that name only. With a `dataDir` whose own path contains `.response`, the source would rewrite the directory part instead.
- `fs.statSync` follows symbolic links. A link cycle makes `statSync` throw (ELOOP or ENAMETOOLONG) on an ever longer path, and the walk fails with that uncaught error. The tree datatype has no links. Errors from `readdirSync` and `statSync` are not modelled.
- `fs.mkdirSync` of the cache directory and the template reads of `loadTemplate` are not modelled. The directory is assumed to exist, and templates are given as values.
- `writeFileSync` failures (a missing parent directory, permissions) are not modelled, in the handlers or in the cache.
- `CodeMain.ProcessFiles` requires that every `.ts` file found can still be read. A file removed between the walk and the read would make `readFileSync` throw.
- `summariseDeep` is modelled only in its chunking loop. Its summary and meta-summary requests are instances of `getResponse` (`LibCache.GetResponse`), and writing `outPath` is file output.
- `LowerAscii` lower-cases ASCII letters only. It stands for `toLowerCase`, whose Unicode mappings of other letters are not modelled.
- Each stdin `data` event is one chunk, whatever its content. Splitting input into lines is not modelled, and neither does the source do it.
- `RUN_SHELL`, `GOOGLE_SEARCH`, `HTTP_REQUEST_GET` and `CODE_OPERATION` have no schema variant or handler in src/lib.ts, so they are not modelled.
- The wiring around the core is not part of this model: the entry points (`src/auto_main.ts`, `src/summarise_main.ts`, `src/index.ts`), the terminal UIs, and `main` in src/code_main.ts being invoked twice. src/auto_main.ts calls `handleAutoSteps` with three arguments, while src/lib.ts:104 takes one. The model follows src/lib.ts.
- The `async`/`await` interleaving is sequential in the model, because every call is awaited in turn.
