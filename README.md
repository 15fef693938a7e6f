# codebase-analysis: a Dafny model of its sequential core

`codebase-analysis` walks a source tree. For each file it works out what kind of
file it is, reads it, and runs a language-specific handler on it. The handler
builds an analysis record that is appended to a JSONL file for its module. Once
the walk is done, `main` reuses cached analyses, attaches documentation links,
builds an import dependency graph, tallies lint results, and computes
statistics. The thread pool, the parsers, the linters, spaCy and the filesystem
sit around a layer of plain sequential decisions. This project models that
layer in Dafny and proves what it promises.

The model is organised by the program's own files:

| Dafny module | file | models |
|---|---|---|
| `Wrappers`, `Strs`, `Paths`, `PyJson`, `Codebase` | `wrappers.dfy`, `strs.dfy`, `paths.dfy`, `pyjson.dfy`, `codebase.dfy` | Python semantics the core relies on: `str` methods, `pathlib` and `os.path.relpath`, dicts as insertion-ordered field lists whose `d[k]`, `d.get`, `in`, `len`, iteration and `+` may raise, and `codebase_data` as an ordered sequence of (module path, list of records or None) |
| `FileHandling` | `file_handling.dfy` | `guess_file_type`, `guess_language`, `is_text_file`, `is_binary_file`, `read_text_file`, `async_read` |
| `DataValidation` | `data_validation.dfy` | the schema, `validate_json` and the `validate_*` chain |
| `Utilities` | `utilities.dfy` | `is_binary`, `save_to_jsonl`, `cache_analysis_results`, `load_analysis_cache`, `calculate_function_count`, `calculate_comment_density` |
| `DiGraphs` | `digraph.dfy` | the part of a networkx `DiGraph` that is used (nodes with a `language` attribute, a set of edges) |
| `GraphManagement` | `graph_management.dfy` | `resolve_import`, `build_dependency_graph` |
| `Analysis` | `analysis.dfy` | comment extraction, `resolve_function_name`, `analyze_function_calls`, the record envelopes of all fifteen handlers, `analyze_lint_results`, `count_skipped_files` |
| `MainController` | `main_controller.dfy` | `FILE_TYPE_HANDLERS` dispatch, `process_file`, the task lists of `process_directory_concurrently` and `process_all_directories`, the cache and documentation loop of `main`, `calculate_codebase_stats` |

Code that updates state step by step stays imperative:
- the dependency graph and the call graph are built on a `DiGraphs.DiGraph` object through `AddNode` and `AddEdge`;
- the JSONL files and `analysis_cache.json` are the fields of a `Utilities.Disk` object that `SaveToJsonl`, `CacheAnalysisResults`, `RunHandler` and `ProcessFile` modify;
- the loops (`is_binary`'s chunked read, the cache loop, the lint, skipped-file and statistics loops, the comment loop, the warm-cache loop, the directory loop) are `while` loops.

Each such method is proved equal to a function of its inputs. The source's
promises are then lemmas about that function.

Every exception the core catches becomes `Raised` in an `Outcome`. A call that
raises stops the code exactly where the source stops it. Each foreign call is
an input, described by what it gave back:
- the mime detectors return a `Probe` and the lexers a `Lexer`;
- the file read is a `ReadResult`;
- the handlers' parsers and linters give an `Outcome<Fields>`;
- the `nlp` entity extractor is a function to `Option<Json>`;
- the MD5 digest is a function `string -> string`;
- file writes are a success flag.

Points where the code behaves differently from what its description suggests,
modelled as the code is written:
- `FILE_TYPE_HANDLERS` is keyed by extensions, but `process_file` looks it up
  with the mime string `guess_file_type` returns. So every file that gets that
  far is handled by `default_handler` (`MainController.ReachedFilesUseDefault`).
- `process_image_file` takes two arguments and is called with four. The call
  raises, is caught, and yields nothing.
- `guess_language` lowercases the lexer name. The saved record's `function_count`
  is therefore always 0, because `calculate_function_count` compares with
  `'Python'` and `'JavaScript'` (`MainController.EnrichedRecord`).
- `process_directory_concurrently` returns `{}`, so `codebase_data` in `main`
  is always empty (`MainController.ProcessAllDirectories`). The later stages
  are still modelled over arbitrary `codebase_data`.
- `os.walk` yields every directory and `rglob` is recursive, so a file is
  processed once per enclosing directory (`MainController.TaskPerEnclosingDirectory`),
  that is `d + 1` times when its directory lies `d` levels below the root
  (`MainController.ProcessedPerLevel`).
- The handler dict lists `.vue` twice. A dict keeps one binding.
- `validate_json` logs `data['file_path']` on failure, so a record without that
  key raises instead of returning False.

## Model

| member | source | states |
|---|---|---|
| FileHandling.GuessFileType | file_handling.py:17-32 | the filetype mime when present and non-empty; otherwise the magic mime; None when magic gives nothing or either detector has an I/O error; other exceptions propagate |
| FileHandling.MagicOnlyAsFallback | file_handling.py:19-28 | magic's answer does not matter once filetype gave a mime or raised |
| FileHandling.IsTextFile | file_handling.py:52-61 | true exactly when the guessed type is one of the six text mimes, so None or a raise is not text |
| FileHandling.IsBinaryFile | file_handling.py:64-69 | exactly the negation of `is_text_file`; an undetermined type counts as binary |
| FileHandling.ReadTextFile | file_handling.py:72-80 | the content when the read succeeds, None on any read or decode error |
| FileHandling.AsyncRead | file_handling.py:82-86 | None for a binary file, otherwise whatever `read_text_file` gives |
| FileHandling.AsyncReadSome | file_handling.py:82-86 | content is returned only for a text file that was read, and it is that file's text |
| FileHandling.GuessLanguage | file_handling.py:34-50 | the filename lexer first, the content lexer on ClassNotFound, the name lowercased; a language comes back exactly when the read succeeds and one of the two lookups names a lexer; None when the read fails, a lookup raises, or both find nothing |
| FileHandling.GuessedLanguageIsLower | file_handling.py:50 | a guessed language is never `Python` or `JavaScript` |
| DataValidation.ValidateJson | data_validation.py:44-54 | Ok(true) exactly when the schema holds; Ok(false) when it fails and `file_path` is present; raises exactly when `file_path` is missing |
| DataValidation.ValidateFilePath | data_validation.py:56-60 | false for a missing key, None and the empty string; true for any non-empty string |
| DataValidation.ValidateLanguage | data_validation.py:62-70 | true exactly when the value is one of the fifteen listed names |
| DataValidation.ValidateContent | data_validation.py:72-79 | accepts None, a missing key and non-empty strings; rejects the empty string |
| DataValidation.ValidateAnalysis | data_validation.py:81-85 | always true |
| DataValidation.ValidateMetadata | data_validation.py:87-97 | false for missing metadata or a missing `size`; `size >= 0` for an integer size; true only for a dict |
| DataValidation.ValidateData | data_validation.py:99-113 | Ok(true) exactly when all six checks pass, in order; false as soon as the path check fails; raises exactly when the first four checks pass and the metadata check raises, so the schema check is not reached then |
| DataValidation.ValidateDataJsonStepSafe | data_validation.py:100-111 | once the path check has passed, the final schema check cannot raise |
| DataValidation.ValidateDataOnSchemaValid | data_validation.py:28-42 | on a schema-valid record the chain does not raise, and the size check reduces to `size >= 0` |
| DataValidation.LintListFailsSchema | data_validation.py:16 | a record whose `lint_results` is null or a list never meets the schema, because the schema wants an object |
| DataValidation.IncompleteRecordFails | data_validation.py:41 | one concrete record, the example at lines 17-22 of `test_data_validation.py` rather than an all-inputs fact: the record without `analysis` and `metadata` fails both the schema and `validate_data` |
| Utilities.IsBinary | utilities.py:8-23 | true exactly when the file's bytes contain a zero byte (reading 1024-byte chunks to the first short one); false when opening fails |
| Utilities.FunctionCount | utilities.py:97-109 | non-zero only for language exactly `Python` or `JavaScript`, and then `len(analysis['functions'])`; 0 on every raise |
| Utilities.CommentCount | utilities.py:114 | a missing `comments` key counts as 0 comments |
| Utilities.CommentDensity | utilities.py:111-123 | the real count/loc exactly when loc is a positive number and the count can be taken; the int 0 otherwise, including every raise |
| Utilities.CacheEntry | utilities.py:40-49 | an entry is keyed by the record's own string path |
| Utilities.CacheEntryShape | utilities.py:40-49 | which records yield an entry, and that it holds the hash (None for None content), the analysis and the two metrics |
| Utilities.CacheKeys | utilities.py:37-49 | a path is a cache key exactly when some record with that path yields an entry |
| Utilities.CacheLaterWins | utilities.py:44 | the stored entry is the one built from the last record with that path |
| Utilities.CacheKeysUnique | utilities.py:36-49 | each path is a key once |
| Utilities.SetKeyKeepsUnique | utilities.py:44 | `cache[path] = entry` keeps the keys of a dict with distinct keys distinct |
| Utilities.LoadAnalysisCache | utilities.py:61-68 | the parsed content when the file exists, reads and parses; `{}` otherwise |
| Utilities.SavedLogs | utilities.py:25-33 | one more line in the target file and no other file changed; nothing when the path has no directory part or the write fails |
| Utilities.Disk.SaveToJsonl | utilities.py:25-33 | the logs become `SavedLogs` of the old logs; the cache file is unchanged |
| Utilities.Disk.CacheAnalysisResults | utilities.py:35-59 | on a successful write the cache file becomes exactly the cache built from every entry, with nothing of the old one kept; the logs are unchanged |
| Utilities.BuildCache | utilities.py:36-53 | the nested loop builds `CacheOf` of all entries in iteration order |
| DiGraphs.DiGraph.AddNode | graph_management.py:36 | `add_node` creates the node, or sets its attribute |
| DiGraphs.DiGraph.AddEdge | graph_management.py:41 | `add_edge` adds the pair once and creates missing endpoints without attributes |
| DiGraphs.DiGraph.constructor | graph_management.py:32 | `nx.DiGraph()` starts with no nodes and no edges |
| GraphManagement.Candidates | graph_management.py:10-14 | the import with each "." made "/", followed by the 17 fixed extensions in order and then the importer's suffix |
| GraphManagement.SearchFirst | graph_management.py:17-19 | the first record whose path ends with a candidate, all earlier records passed over; None exactly when every record is passed over; a raise only at a record without a string path |
| GraphManagement.SearchFirstFinds | graph_management.py:17-19 | the first matching record, after records that are all passed over, is the answer |
| GraphManagement.ResolveImport | graph_management.py:8-29 | a result is the path of some record of `codebase_data` and ends with a candidate; None exactly when no record anywhere matches; raises for a non-string import |
| GraphManagement.NothingMatchesGivesNone | graph_management.py:22-29 | when no record of any module ends with a candidate, the import resolves to None without raising |
| GraphManagement.SameDirectoryFirst | graph_management.py:17-19 | a match in the importer's own directory wins, whatever the other modules hold |
| GraphManagement.GlobalSearchSecond | graph_management.py:22-25 | when nothing in the directory matches, the first match over all modules in order is the answer |
| GraphManagement.Resolutions | graph_management.py:38-39 | one resolution per import, in order |
| GraphManagement.ImportEdgesGrows | graph_management.py:38-41 | the import loop only adds nodes and edges, keeps attributes, and adds edges leaving the importer only |
| GraphManagement.ImportEdgesSound | graph_management.py:38-41 | every edge the loop adds leaves the importer and goes to some import's resolution |
| GraphManagement.ImportEdgesComplete | graph_management.py:38-41 | every import before the first one that raises gets its edge |
| GraphManagement.ImportEdgesStop | graph_management.py:38-43 | the imports after one whose resolution raises add nothing |
| GraphManagement.RecordStepGrows | graph_management.py:35-45 | one record only adds, labels its own node with its language and adds edges from its own path only |
| GraphManagement.RecordStepSound | graph_management.py:36-41 | an edge one record adds is declared by that record |
| GraphManagement.RecordStepComplete | graph_management.py:36-41 | a record adds each declared edge that comes before any raising import |
| GraphManagement.DepGraphPrefix | graph_management.py:33-34 | the graph of a prefix of the records is part of the whole graph |
| GraphManagement.EveryRecordIsNode | graph_management.py:36 | every record with a string path and a language is a node, with or without imports |
| GraphManagement.RecordStepKeepsLabels | graph_management.py:36-41 | a record leaves every existing node and its `language` attribute alone, unless it is that node's own record with a readable language |
| GraphManagement.NodeLanguage | graph_management.py:33-36 | a node's `language` attribute is the language of the last record for its path that has one |
| GraphManagement.EdgesSound | graph_management.py:37-41 | every edge comes from a python, javascript or typescript record whose import resolves to its target |
| GraphManagement.EdgesComplete | graph_management.py:33-45 | a record's declared edge is in the graph whatever the other records hold: a failure in one record does not stop later ones |
| GraphManagement.DepGraphClosed | graph_management.py:31-46 | both ends of every edge are nodes |
| GraphManagement.ImportsLookupFails | graph_management.py:36-43 | a record whose `analysis['imports']` lookup fails keeps its node and adds no edge |
| GraphManagement.BuildDependencyGraph | graph_management.py:31-46 | the fresh graph the nested loops build is `DepGraph` of all entries in iteration order |
| GraphManagement.AddModule | graph_management.py:34-45 | the inner loop over one module's records extends the graph built so far by `RecordStep` for each record, in order |
| GraphManagement.AddRecord | graph_management.py:35-45 | one pass of the record loop on the graph object is `RecordStep` |
| Analysis.ExtractComments | analysis.py:29-32 | the comments are `CommentLines` of the content's `splitlines()` |
| Analysis.CommentsOf | analysis.py:29-32 | the loop keeps each stripped line that starts with "#", in order |
| Analysis.CommentLinesAppend | analysis.py:29-32 | the comments of two runs of lines are those of the first followed by those of the second |
| Analysis.CommentLinesExact | analysis.py:29-32 | at most one comment per line; each kept string is a stripped line starting with "#"; every such line is kept |
| Analysis.ResolveFunctionName | analysis.py:44-49 | Name gives its id, Attribute its attr, anything else `"unknown_function"` |
| Analysis.AnalyzeFunctionCalls | analysis.py:36-42 | the fresh graph gets one `add_edge(function, callee)` per call, in order |
| Analysis.CallGraphEdges | analysis.py:38-41 | the edges are exactly function → resolved callee, one per distinct callee |
| Analysis.Callees | analysis.py:40 | the resolved names are exactly those of the calls |
| Analysis.CallGraphNodes | analysis.py:41 | the nodes are the function (when it calls anything) and its callees |
| Analysis.CallGraphBareNodes | analysis.py:41 | no node of the call graph carries an attribute |
| Analysis.Loc | analysis.py:81 | `loc` is the number of "\n" characters plus one |
| Analysis.DefaultLoc | analysis.py:546 | `default_handler` gives 0 for None or empty content, the count of "\n" plus one otherwise |
| Analysis.RecordParts | analysis.py:66-85 | the record a handler builds answers for its content, analysis and metadata |
| Analysis.ImageRecord | analysis.py:352-368 | a record exactly when the size can be read, with language `image`, None content, empty analysis and only `size` in the metadata |
| Analysis.ValidatingHandlerEnvelope | analysis.py:87-94 | the python, html, css, javascript, typescript, jsx and vue handlers return their record exactly when it meets the schema, and then save it once to `module_path + ".jsonl"`; otherwise None and no save |
| Analysis.NonValidatingHandlersDoNotSave | analysis.py:228-251 | the json, markdown, text, yaml, xml, document and default handlers return their record without validating or saving |
| Analysis.LintListRejectsRecord | analysis.py:65-91 | a linter that printed a list (or failed) makes every validating handler return None and save nothing |
| Analysis.DefaultRecordShape | analysis.py:529-554 | `default_handler`'s record carries the content or None, and the loc rule |
| Analysis.RunHandler | analysis.py:87-91 | running a handler returns its record and appends its own line, if any |
| Analysis.Bump | analysis.py:566 | `lint_stats[k] = lint_stats.get(k, 0) + n` raises `k` by `n` and leaves every other key alone |
| Analysis.AnalyzeLintResults | analysis.py:556-589 | the nested loops compute `LintTally` of all entries in iteration order, the first raise ending the analysis |
| Analysis.TallyRecord | analysis.py:560-588 | one entry's tally: None and empty records skipped, other languages and falsy results add nothing |
| Analysis.TallyItems | analysis.py:564-588 | the item loop is `ItemsTally` |
| Analysis.ItemStepRaises | analysis.py:564-588 | one item raises exactly when it cannot be tallied |
| Analysis.ItemsTallyRaises | analysis.py:564-588 | a file's items raise exactly when one of them cannot be tallied |
| Analysis.RuleCounts | analysis.py:561-566 | python, css and typescript add one per item under `symbol`, `rule` and `ruleName` respectively |
| Analysis.EslintSums | analysis.py:567-576 | javascript adds the `errorCount`s to "error" and the `warningCount`s to "warning", and changes nothing else |
| Analysis.RecordTallyNoLint | analysis.py:560-563 | records of other languages, or with empty or missing lint results, contribute nothing |
| Analysis.LintTallyAppend | analysis.py:558-559 | the tally over two runs of entries is the second run started from the first's result |
| Analysis.CountSkippedFiles | analysis.py:591-597 | the count is the number of None entries over all modules |
| MainController.TableLookupSpec | main_controller.py:219 | a bound key gives its first binding's handler; an unbound key gives `default_handler` |
| MainController.NonExtensionUnbound | main_controller.py:47-109 | a key that does not start with "." is bound nowhere in a table of extensions |
| MainController.MimeTypesGetDefault | main_controller.py:214-219 | a type that is not an extension (such as every mime string) gets `default_handler` |
| MainController.TextTypesGetDefault | main_controller.py:219 | each of the six text mimes gets `default_handler` |
| MainController.LanguageOf | main_controller.py:215 | the language stored in a record is None or a lower-case name, never `Python` or `JavaScript` |
| MainController.SetAnalysis | main_controller.py:227-229 | `file_data['analysis'][k] = v` succeeds exactly when the analysis is a dict; it sets `k` there and leaves every other top-level key alone |
| MainController.ProcessFile | main_controller.py:202-253 | the writes are exactly those of `ProcessOutcome`, the early returns in source order; the cache file is unchanged |
| MainController.ReachedFilesUseDefault | main_controller.py:210-219 | a file that passes the binary check has a mime type, and the table gives it `default_handler` |
| MainController.EnrichEmptyRaises | main_controller.py:224-225 | enriching an empty record raises at the content lookup |
| MainController.TextFileOutcome | main_controller.py:210-242 | for an existing text file the handler saves nothing itself, and its record alone decides the final save |
| MainController.NothingSaved | main_controller.py:205-239 | nothing is written when the file is missing or binary, the handler's record is falsy, or the module path is empty |
| MainController.FinalSaveOfEnriched | main_controller.py:237-242 | an enriched record with a module path is saved to `output_dir/module_path.jsonl` |
| MainController.SavedOnce | main_controller.py:237-242 | for an existing text file with a module path whose record can be enriched, the enriched record is appended exactly once to `output_dir/module_path.jsonl` when writes succeed, and nothing else is written |
| MainController.WithEntitiesShape | main_controller.py:224-227 | the language is overwritten and the content's entities are set in the analysis |
| MainController.WithCountsShape | main_controller.py:228-229 | the counts keep the language and the entities, set `function_count` to 0 for a lower-case language, and set `comment_density` |
| MainController.FunctionCountOtherLanguage | utilities.py:99-109 | a record whose language is neither `Python` nor `JavaScript` has function count 0 |
| MainController.EnrichedRecord | main_controller.py:223-229 | the saved record carries the guessed language, the entities of its content, `function_count` 0 and a `comment_density` |
| MainController.DirectoryTasks | main_controller.py:265-269 | one task per file strictly below the directory, with module path `relpath(parent, root)` |
| MainController.TaskModule | main_controller.py:268 | the module path is the components between root and file, or "." for a file directly in the root |
| MainController.ProcessAllDirectories | main_controller.py:274-283 | one batch per walked directory, in walk order; the merged data stays empty because each directory step returns `{}` |
| MainController.TaskPerEnclosingDirectory | main_controller.py:277-280 | a file is handed to `process_file` once per walked directory that encloses it |
| MainController.ProcessedPerLevel | main_controller.py:277-280 | for any walk that yields each directory once, only directories under the root, and every directory on the way to the file (with any other directories besides), a file `d` levels below the root is enclosed by exactly `d + 1` walked directories, so with `TaskPerEnclosingDirectory` it is processed `d + 1` times |
| MainController.EnclosingCountIsSetSize | main_controller.py:277-280 | on a walk without repeats, the number of enclosing directories is the size of the set of them |
| MainController.LevelSetSize | main_controller.py:277-280 | the directories on the way to a file, one per level, are all different |
| MainController.WarmCache | main_controller.py:150-162 | every record of every module goes through `WarmRecord`; modules and list lengths are kept |
| MainController.WarmSkipsUnreadable | main_controller.py:153 | a None entry, or a record whose content is not a string, is left untouched, documentation link included |
| MainController.WarmReplacesOnHashMatch | main_controller.py:153-155 | for any cache holding an entry for the path and no documentation link, the analysis is replaced by the cached one exactly when the stored hash is the digest of the current content, and nothing else changes |
| MainController.WarmMissAttachesDocs | main_controller.py:154-158 | without a cache entry only the documentation link and the module path are set, and only when the path has a link |
| MainController.WarmIdempotent | main_controller.py:150-162 | running the pass twice gives what running it once gives |
| MainController.OwnEntryMatches | main_controller.py:153-155 | the entry `cache_analysis_results` builds for a record matches that record's own digest and hands back its analysis |
| MainController.HitWithOwnAnalysis | main_controller.py:153-155 | a hit whose analysis already is the record's own leaves the record unchanged when no documentation link applies |
| MainController.CachedRecordComesBack | main_controller.py:153-155 | against the cache `cache_analysis_results` built, a record whose entry is the one kept for its path comes back unchanged |
| MainController.CacheThenReload | utilities.py:35-68 | writing the cache and reading it back: the file holds the cache built from every record, the log is untouched, and after a successful read every record whose entry is the one kept for its path comes back from the warm-cache step unchanged |
| MainController.LanguageStep | main_controller.py:302-309 | the per-language step leaves `total_files` and `files_by_module` alone |
| MainController.Totals | main_controller.py:299-301 | `total_files` always grows by one and the per-language maps are untouched |
| MainController.CalculateCodebaseStats | main_controller.py:285-314 | the loops compute `CodebaseStats` |
| MainController.StatStepWithoutLoc | main_controller.py:299-300 | a record without a numeric `loc` still counts as a file, and nothing else of it is added |
| MainController.LanguageCountAppend | main_controller.py:303-308 | the per-language count, `loc` sum and `size` sum add up over runs of records |
| MainController.LocSumAppend | main_controller.py:300 | the `loc` sum adds up over runs of records |
| MainController.SizeSumAppend | main_controller.py:301 | the size sum adds up over runs of records |
| MainController.StepOnCount | main_controller.py:299-309 | a record keeps the three per-language dicts on the same keys; a language gains one file, the record's `loc` and its `size` exactly when `loc` and `size` are numbers and the language is hashable |
| MainController.LanguageStepCount | main_controller.py:303-308 | a first sighting starts the language at 0 in all three dicts, so they keep the same keys; only that language gains one file, its `loc` and its `size` |
| MainController.StepOnFrame | main_controller.py:299 | a record adds one file and leaves `files_by_module` alone |
| MainController.EntriesTotalFiles | main_controller.py:297-299 | every record of a module counts towards `total_files` |
| MainController.TotalFiles | main_controller.py:295-299 | `total_files` is the number of records, skipped ones included |
| MainController.FilesByModule | main_controller.py:296 | with distinct module paths (as dict keys are), `files_by_module` maps exactly the module paths, each to the length of its list |
| MainController.EntriesLanguageCount | main_controller.py:303-308 | over a module's records, each language's count, `loc` and `size` grow by the records that count for it |
| MainController.FilesByLanguage | main_controller.py:302-308 | `files_by_language[l]`, `loc_by_language[l]` and `size_by_language[l]` are the number, the `loc` sum and the `size` sum of the records that reach the language step with `l` |
| MainController.EntriesTotalLoc | main_controller.py:300 | over a module's records, `total_loc` grows by their `loc` sum |
| MainController.TotalLoc | main_controller.py:300 | `total_loc` adds up the `loc` of every record that has a numeric one |
| MainController.EntriesTotalSize | main_controller.py:301 | over a module's records, `total_size` grows by their size sum |
| MainController.TotalSize | main_controller.py:300-301 | `total_size` adds up the `size` of the records whose `loc` and `size` are both numbers |
| Strs.SplitLines | analysis.py:29 | `splitlines()`: no line holds a boundary, and only the empty string gives no lines |
| Strs.LineLengthOf | analysis.py:29 | a boundary-free run followed by a boundary or the end is exactly one first line |
| Strs.SplitLinesLast | analysis.py:29 | a non-empty boundary-free string is a single line |
| Strs.SplitLinesCrLf | analysis.py:29 | `\r\n` ends one line as a single boundary |
| Strs.SplitLinesBreak | analysis.py:29 | any other boundary character ends the line before it, and the rest splits on its own |
| Strs.Strip | analysis.py:30 | `strip()` leaves no whitespace at either end |
| Strs.StripTrims | analysis.py:30 | the value of `strip()`: the slice of the input between a whitespace prefix and a whitespace suffix, which with `Strip`'s ends determines it |
| Strs.LStripRemovesSpace | analysis.py:30 | what the leading strip removes is all whitespace |
| Strs.RStripRemovesSpace | analysis.py:30 | what the trailing strip removes is all whitespace |
| Strs.JoinSplit | graph_management.py:9 | splitting a path on "/" and joining again gives the path back |
| Strs.SplitJoin | main_controller.py:268 | joining components without "/" and splitting again gives the components back |
| Strs.Lower | file_handling.py:50 | ASCII lowercasing character by character |
| Strs.LowerHasNoCapitals | file_handling.py:50 | a lowered name is never `Python` or `JavaScript` |
| Strs.ReplaceChar | graph_management.py:14 | `replace('.', '/')` character by character |
| Strs.Split | graph_management.py:9 | `split(c)` gives one more piece than there are separators, none holding a separator |
| Strs.RFind | graph_management.py:10 | the last index of the character, or -1 when it does not occur |
| Paths.Suffix | graph_management.py:10 | `Path.suffix` is empty or a dot followed by a dot-free tail that ends the name; empty exactly when the name ends with a dot or has no dot after its first character |
| Paths.ParentOfPlain | graph_management.py:9 | for a plain relative path, `Path.parent` is the path of all but its last component |
| Paths.CommonPrefixLen | main_controller.py:268 | the common prefix of two component lists is maximal |
| Paths.RelPathBelow | main_controller.py:268 | `relpath` of a path below `start` is its remaining components, or "." |
| PyJson.Lookup | utilities.py:113 | `d[k]` answers exactly when `k` is a key, with a value stored under `k` |
| PyJson.LookupAt | utilities.py:113 | the first binding of a key answers for it |
| PyJson.SetKey | main_controller.py:155 | `d[k] = v`: `k` now answers `v`, other keys are unchanged, an existing key keeps its place, a new one goes last |
| PyJson.Subscript | main_controller.py:154 | `j[k]` succeeds exactly on a dict that holds `k` |
| PyJson.GetOr | utilities.py:114 | `j.get(k, d)` is defined on dicts only and gives `d` for a missing key |
| PyJson.Contains | main_controller.py:154 | `k in j` is key membership on a dict, and raises on scalars |
| PyJson.Iter | graph_management.py:38 | iteration succeeds on lists, strings and dicts, and gives a list's items |
| PyJson.Len | utilities.py:100 | `len` succeeds on lists, strings and dicts only |
| PyJson.Num | main_controller.py:300 | a value `+=` accepts is a bool, int or float |
| Codebase.ModuleEntries | graph_management.py:17 | `codebase_data.get(module_path, [])` gives a module's own list |
| Codebase.ModuleEntryInAll | graph_management.py:22-25 | a record of any module is among the records the global search goes through |
| Codebase.Field | graph_management.py:36 | `file_data[k]` succeeds exactly on a record that holds `k` |
| Codebase.Field2 | graph_management.py:38 | `file_data[k1][k2]` succeeds only through a successful `file_data[k1]` |

## Left out

- Parsers, linters, spaCy and the node scripts are not modelled. Each handler's analysis dict (or the raise that one of them caused) and the entity extractor are inputs, so the per-language analysis contents are not modelled. The early `return None` of the typescript, jsx and vue handlers when the node script fails is a raised analysis.
- The thread pool, `asyncio` and `process_file_in_pool` are not modelled. Each directory's work is its list of tasks, and the order in which the calls run is not captured.
- `os.walk`, `rglob`, `Path.exists`, `os.path.getsize`, `filetype`, `magic`, `pygments` and file reading are inputs given as sequences and result values. Their order is the one the input gives.
- File paths in the walk are lists of normalised components. The string forms of `Path` and `str(file_path)` are not modelled, and neither is a "//" in a path.
- JSON and CSV serialisation (`json.dump(default=repr)`, partial writes, `csv.DictReader`) is not modelled: an output line is the `Json` value written. One `ioOk` flag stands for every write of one file's processing.
- `load_documentation_links` and `verify_jsonl` are not modelled. The links are a given `map<string, string>`.
- MD5 is an uninterpreted `string -> string`.
- Floats are Dafny `real`, so `comment_count / loc` is exact and float rounding is not modelled.
- Python hashing treats True, 1 and 1.0 as the same dict key. The model's `Json` values keep them apart, so the statistics and lint maps do not merge them.
- A record's `file_path` that is not a string is treated as missing by the graph builder and the cache. Python would use any hashable value as a node or key.
- A cache that is not a dict, and the NameError `main` hits when `load_analysis_cache` raised, are modelled only as far as `in` and `[]` raise on the cache value.
- `Strs.Lower` folds only ASCII letters. `str.lower()` folds all of Unicode, which does not change the result that no guessed name is `Python` or `JavaScript`.
- The warm pass returns a new `codebase_data` instead of mutating the records in place. Nothing else of `main` holds a reference to the records.
- `build_call_graph` (pyan), the visualisers, logging, `print`, and `main`'s placeholder paths are not modelled. Neither is the order of stages in `main`, beyond each stage being modelled on its own.
- `extract_docstrings_and_comments`'s docstring half walks a Python `ast` and is not modelled. Only the comment half is.
- `FILE_TYPE_HANDLERS` binds ".vue" twice. The model keeps one binding, as the dict does.
