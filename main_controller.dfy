/** The controller: handler dispatch, the per-file decision flow, the task
    lists of the directory walk, the warm-cache pass of `main` and the
    codebase statistics. */
module MainController {
  import opened Wrappers
  import opened Strs
  import opened Paths
  import opened PyJson
  import opened Codebase
  import opened FileHandling
  import opened Utilities
  import opened Analysis

  // ---- Dispatch -----------------------------------------------------------

  /** `FILE_TYPE_HANDLERS`, in its written order, as runs of eight entries.
      The runs carry no meaning of their own: splitting the table lets each
      `HandlersNKeys` lemma below check one short literal, where a single
      proof over the whole table would be too costly for the verifier.
      The source lists ".vue" twice with the same handler; a dict keeps one
      binding, so it appears once here, at its first position. */
  const FileTypeHandlers: seq<(string, Handler)> :=
    Handlers1 + (Handlers2 + (Handlers3 + (Handlers4 + (Handlers5 + (Handlers6 + (Handlers7 + Handlers8))))))

  const Handlers1: seq<(string, Handler)> := [
    (".py", PythonHandler), (".js", JavaScriptHandler), (".html", HtmlHandler), (".css", CssHandler),
    (".json", JsonHandler), (".md", MarkdownHandler), (".txt", TextHandler), (".pyi", PythonHandler)
  ]
  const Handlers2: seq<(string, Handler)> := [
    (".ts", TypeScriptHandler), (".tsx", TypeScriptHandler), (".jsx", JsxHandler), (".mjs", JavaScriptHandler),
    (".cjs", JavaScriptHandler), (".vue", VueHandler), (".yaml", YamlHandler), (".yml", YamlHandler)
  ]
  const Handlers3: seq<(string, Handler)> := [
    (".xml", XmlHandler), (".png", ImageHandler), (".jpg", ImageHandler), (".jpeg", ImageHandler),
    (".gif", ImageHandler), (".bmp", ImageHandler), (".ico", ImageHandler), (".svg", ImageHandler)
  ]
  const Handlers4: seq<(string, Handler)> := [
    (".doc", DocumentHandler), (".pdf", DocumentHandler), (".odt", DocumentHandler), (".docx", DocumentHandler),
    (".xlsx", DocumentHandler), (".ppt", DocumentHandler), (".pptx", DocumentHandler), (".scss", CssHandler)
  ]
  const Handlers5: seq<(string, Handler)> := [
    (".sass", CssHandler), (".node", JavaScriptHandler), (".mts", TypeScriptHandler), (".coffee", JavaScriptHandler),
    (".applescript", TextHandler), (".c", TextHandler), (".jinja2", TextHandler), (".h", TextHandler)
  ]
  const Handlers6: seq<(string, Handler)> := [
    (".py-tpl", PythonHandler), (".cpp", TextHandler), (".hpp", TextHandler), (".asm", TextHandler),
    (".pyx", PythonHandler), (".f", TextHandler), (".template", TextHandler), (".keep", TextHandler)
  ]
  const Handlers7: seq<(string, Handler)> := [
    (".R", TextHandler), (".go", TextHandler), (".rs", TextHandler), (".pyw", PythonHandler),
    (".misc", TextHandler), (".message", TextHandler), (".no_trailing_newline", TextHandler), (".g", TextHandler)
  ]
  const Handlers8: seq<(string, Handler)> := [
    (".csh", TextHandler), (".asp", TextHandler), (".htm", HtmlHandler), (".in", TextHandler)
  ]

  /** The handler bound to `key` in `table`, or the default handler. */
  function TableLookup(table: seq<(string, Handler)>, key: string): Handler {
    if table == [] then DefaultHandler
    else if table[0].0 == key then table[0].1
    else TableLookup(table[1..], key)
  }

  /** `FILE_TYPE_HANDLERS.get(file_type, default_handler)`; a None type is
      never a key. */
  function HandlerFor(fileType: Option<string>): Handler {
    if fileType.None? then DefaultHandler else TableLookup(FileTypeHandlers, fileType.value)
  }

  /** A bound key gives its handler, an unbound one the default. */
  lemma {:induction false} TableLookupSpec(table: seq<(string, Handler)>, key: string)
    ensures (forall i :: 0 <= i < |table| ==> table[i].0 != key) ==> TableLookup(table, key) == DefaultHandler
    ensures forall i :: 0 <= i < |table| && table[i].0 == key && (forall j :: 0 <= j < i ==> table[j].0 != key) ==>
      TableLookup(table, key) == table[i].1
  {
    if table != [] {
      TableLookupSpec(table[1..], key);
      assert forall i :: 1 <= i < |table| ==> table[1..][i - 1] == table[i];
    }
  }

  /** Every key of `table` is an extension: it starts with ".". */
  predicate ExtensionKeys(table: seq<(string, Handler)>) {
    table == [] || (|table[0].0| > 0 && table[0].0[0] == '.' && ExtensionKeys(table[1..]))
  }

  lemma Handlers1Keys()
    ensures ExtensionKeys(Handlers1)
  {
  }

  lemma Handlers2Keys()
    ensures ExtensionKeys(Handlers2)
  {
  }

  lemma Handlers3Keys()
    ensures ExtensionKeys(Handlers3)
  {
  }

  lemma Handlers4Keys()
    ensures ExtensionKeys(Handlers4)
  {
  }

  lemma Handlers5Keys()
    ensures ExtensionKeys(Handlers5)
  {
  }

  lemma Handlers6Keys()
    ensures ExtensionKeys(Handlers6)
  {
  }

  lemma Handlers7Keys()
    ensures ExtensionKeys(Handlers7)
  {
  }

  lemma Handlers8Keys()
    ensures ExtensionKeys(Handlers8)
  {
  }

  /** Looking past a run of extension keys for a key that is not one. */
  lemma {:induction false} SkipExtensions(a: seq<(string, Handler)>, b: seq<(string, Handler)>, t: string)
    requires ExtensionKeys(a)
    requires !StartsWith(t, ".")
    ensures TableLookup(a + b, t) == TableLookup(b, t)
  {
    if a != [] {
      assert (a + b)[0] == a[0] && (a + b)[1..] == a[1..] + b;
      SkipExtensions(a[1..], b, t);
    } else {
      assert a + b == b;
    }
  }

  /** A key that is not an extension is bound in no table of extensions. */
  lemma {:induction false} NonExtensionUnbound(table: seq<(string, Handler)>, t: string)
    requires ExtensionKeys(table)
    requires !StartsWith(t, ".")
    ensures TableLookup(table, t) == DefaultHandler
  {
    if table != [] {
      NonExtensionUnbound(table[1..], t);
    }
  }

  /** The type handed to the table is a mime string such as "text/plain",
      which never starts with "."; so every such lookup falls back to the
      default handler. */
  lemma MimeTypesGetDefault(t: string)
    requires !StartsWith(t, ".")
    ensures HandlerFor(Some(t)) == DefaultHandler
  {
    var t7 := Handlers7 + Handlers8;
    var t6 := Handlers6 + t7;
    var t5 := Handlers5 + t6;
    var t4 := Handlers4 + t5;
    var t3 := Handlers3 + t4;
    var t2 := Handlers2 + t3;
    Handlers8Keys();
    NonExtensionUnbound(Handlers8, t);
    Handlers7Keys();
    SkipExtensions(Handlers7, Handlers8, t);
    Handlers6Keys();
    SkipExtensions(Handlers6, t7, t);
    Handlers5Keys();
    SkipExtensions(Handlers5, t6, t);
    Handlers4Keys();
    SkipExtensions(Handlers4, t5, t);
    Handlers3Keys();
    SkipExtensions(Handlers3, t4, t);
    Handlers2Keys();
    SkipExtensions(Handlers2, t3, t);
    Handlers1Keys();
    SkipExtensions(Handlers1, t2, t);
  }

  /** In particular for each of the six text mimes. */
  lemma TextTypesGetDefault(k: nat)
    requires k < |TextTypes|
    ensures HandlerFor(Some(TextTypes[k])) == DefaultHandler
  {
    assert TextTypes[k][0] != '.';
    MimeTypesGetDefault(TextTypes[k]);
  }

  // ---- process_file -------------------------------------------------------

  /** What the library calls made while processing one file gave back:
      whether the path exists, the two mime detectors, the text read, the
      lexers, the handler's parsers and linters, the size, the entity
      extractor, and whether output files can be written. */
  datatype FileFacts = FileFacts(
    present: bool, filetype: Probe, magic: Probe, read: ReadResult,
    byFilename: Lexer, byContent: string -> Lexer,
    analysis: Outcome<Fields>, size: Option<int>, nlp: string -> Option<Json>, ioOk: bool)

  /** The guessed language as stored in a record: its name, or None. */
  function LanguageOf(f: FileFacts): (r: Json)
    ensures r.JNull? || (r.JStr? && r.s != "Python" && r.s != "JavaScript")
  {
    var lang := GuessLanguage(f.read, f.byFilename, f.byContent);
    if lang.None? then JNull
    else
      GuessedLanguageIsLower(f.read, f.byFilename, f.byContent);
      JStr(lang.value)
  }

  /** The arguments a handler sees: its own read of the file goes through
      `async_read`. */
  function InputOf(f: FileFacts, filePath: string, modulePath: string): HandlerInput {
    HandlerInput(filePath, modulePath, LanguageOf(f), AsyncRead(f.filetype, f.magic, f.read),
                 f.analysis, f.size, f.nlp)
  }

  /** `file_data['analysis'][k] = v`. */
  function SetAnalysis(rec: Record, k: string, v: Json): (r: Outcome<Record>)
    ensures r.Ok? <==> Lookup(rec, "analysis").Some? && Lookup(rec, "analysis").value.JObj?
    ensures r.Ok? ==> Lookup(r.value, "analysis") == Some(JObj(SetKey(Lookup(rec, "analysis").value.fields, k, v)))
    ensures r.Ok? ==> forall k' :: k' != "analysis" ==> Lookup(r.value, k') == Lookup(rec, k')
  {
    match Lookup(rec, "analysis")
    case Some(JObj(a)) => Ok(SetKey(rec, "analysis", JObj(SetKey(a, k, v))))
    case _ => Raised
  }

  /** The entities of `nlp(file_data['content'])`; None content raises. */
  function EntitiesOf(rec: Record, nlp: string -> Option<Json>): Outcome<Json> {
    match Lookup(rec, "content")
    case Some(JStr(s)) => if nlp(s).Some? then Ok(nlp(s).value) else Raised
    case _ => Raised
  }

  /** The first half of what `process_file` does to a handler's record:
      the language is overwritten and the entities of the content are set
      in its analysis. */
  function WithEntities(rec: Record, language: Json, nlp: string -> Option<Json>): Outcome<Record> {
    var r1 := SetKey(rec, "language", language);
    match EntitiesOf(r1, nlp)
    case Raised => Raised
    case Ok(ents) => SetAnalysis(r1, "entities", ents)
  }

  /** The second half: the function count, then the comment density, each
      computed on the record as it stands. */
  function WithCounts(r2: Record): Outcome<Record> {
    match SetAnalysis(r2, "function_count", JInt(FunctionCount(Some(r2))))
    case Raised => Raised
    case Ok(r3) => SetAnalysis(r3, "comment_density", CommentDensity(Some(r3)))
  }

  /** The enrichment of `process_file`. */
  function Enrich(rec: Record, language: Json, nlp: string -> Option<Json>): Outcome<Record> {
    match WithEntities(rec, language, nlp)
    case Raised => Raised
    case Ok(r2) => WithCounts(r2)
  }

  /** The two writes a file can cause: the handler's own save and the final
      save of the enriched record. */
  datatype FileRun = FileRun(handlerSave: Option<(string, Json)>, finalSave: Option<(string, Json)>)

  const NoRun := FileRun(None, None)

  /** The per-file output file `output_dir/module_path.jsonl`. */
  function OutputFile(outputDir: string, modulePath: string): string {
    outputDir + "/" + modulePath + ".jsonl"
  }

  /** The final save of `process_file` once the handler has returned:
      nothing for a falsy record, a raise while enriching it, or an empty
      module path. */
  function FinalSave(record: Option<Record>, language: Json, nlp: string -> Option<Json>,
                     modulePath: string, outputDir: string): Option<(string, Json)> {
    if record.None? || record.value == [] then None
    else match Enrich(record.value, language, nlp)
      case Raised => None
      case Ok(final) =>
        if modulePath == "" then None else Some((OutputFile(outputDir, modulePath), JObj(final)))
  }

  /** The decision flow of `process_file`. */
  function ProcessOutcome(f: FileFacts, filePath: string, modulePath: string, outputDir: string): FileRun {
    if !f.present || IsBinaryFile(f.filetype, f.magic) then NoRun
    else match GuessFileType(f.filetype, f.magic)
      case Raised => NoRun
      case Ok(fileType) =>
        var res := Handle(HandlerFor(fileType), InputOf(f, filePath, modulePath));
        FileRun(res.saved, FinalSave(res.record, LanguageOf(f), f.nlp, modulePath, outputDir))
  }

  /** The logs after the writes of a run. */
  function RunLogs(logs: map<string, seq<Json>>, run: FileRun, ioOk: bool): map<string, seq<Json>> {
    var afterHandler := if run.handlerSave.None? then logs
      else SavedLogs(logs, run.handlerSave.value.0, run.handlerSave.value.1, ioOk);
    if run.finalSave.None? then afterHandler
    else SavedLogs(afterHandler, run.finalSave.value.0, run.finalSave.value.1, ioOk)
  }

  /** `process_file`: each check in order, returning early as the source
      does; every exception is caught, so a raise only stops the flow. */
  method ProcessFile(disk: Disk, f: FileFacts, filePath: string, modulePath: string, outputDir: string)
    modifies disk
    ensures disk.logs == RunLogs(old(disk.logs), ProcessOutcome(f, filePath, modulePath, outputDir), f.ioOk)
    ensures disk.cacheFile == old(disk.cacheFile)
  {
    if !f.present {
      return;
    }
    if IsBinaryFile(f.filetype, f.magic) {
      return;
    }
    var fileType := GuessFileType(f.filetype, f.magic);
    if fileType.Raised? {
      return;
    }
    var language := LanguageOf(f);
    var handler := HandlerFor(fileType.value);
    var fileData := RunHandler(disk, handler, InputOf(f, filePath, modulePath), f.ioOk);
    if fileData.None? || fileData.value == [] {
      return;
    }
    var enriched := Enrich(fileData.value, language, f.nlp);
    if enriched.Raised? {
      return;
    }
    if modulePath == "" {
      return;
    }
    disk.SaveToJsonl(JObj(enriched.value), OutputFile(outputDir, modulePath), f.ioOk);
  }

  /** A file that reaches the table is a text file, so it is handled by
      `default_handler`, which neither validates nor saves. */
  lemma ReachedFilesUseDefault(f: FileFacts)
    requires !IsBinaryFile(f.filetype, f.magic)
    ensures GuessFileType(f.filetype, f.magic).Ok?
    ensures HandlerFor(GuessFileType(f.filetype, f.magic).value) == DefaultHandler
  {
    var k :| 0 <= k < |TextTypes| && GuessFileType(f.filetype, f.magic) == Ok(Some(TextTypes[k]));
    TextTypesGetDefault(k);
  }

  /** Enriching a record starts by reading its content: an empty record
      raises. */
  lemma EnrichEmptyRaises(language: Json, nlp: string -> Option<Json>)
    ensures Enrich([], language, nlp).Raised?
  {
    assert SetKey([], "language", language) == [("language", language)];
  }

  /** A text file that exists is handled by `default_handler`, whose record
      alone decides the final save. */
  lemma TextFileOutcome(f: FileFacts, filePath: string, modulePath: string, outputDir: string)
    requires f.present && !IsBinaryFile(f.filetype, f.magic)
    ensures ProcessOutcome(f, filePath, modulePath, outputDir)
         == FileRun(None, FinalSave(Handle(DefaultHandler, InputOf(f, filePath, modulePath)).record,
                                    LanguageOf(f), f.nlp, modulePath, outputDir))
  {
    ReachedFilesUseDefault(f);
    NonValidatingHandlersDoNotSave(DefaultHandler, InputOf(f, filePath, modulePath));
  }

  /** Nothing is written when the file is missing, binary, yields no record,
      or has an empty module path. */
  lemma NothingSaved(logs: map<string, seq<Json>>, f: FileFacts, filePath: string, modulePath: string, outputDir: string)
    requires || !f.present
             || IsBinaryFile(f.filetype, f.magic)
             || Handle(DefaultHandler, InputOf(f, filePath, modulePath)).record.None?
             || Handle(DefaultHandler, InputOf(f, filePath, modulePath)).record == Some([])
             || modulePath == ""
    ensures RunLogs(logs, ProcessOutcome(f, filePath, modulePath, outputDir), f.ioOk) == logs
  {
    if f.present && !IsBinaryFile(f.filetype, f.magic) {
      TextFileOutcome(f, filePath, modulePath, outputDir);
    }
  }

  /** An enriched record with a module path goes to its module's file. */
  lemma FinalSaveOfEnriched(record: Record, language: Json, nlp: string -> Option<Json>,
                            modulePath: string, outputDir: string)
    requires Enrich(record, language, nlp).Ok? && modulePath != ""
    ensures FinalSave(Some(record), language, nlp, modulePath, outputDir)
         == Some((OutputFile(outputDir, modulePath), JObj(Enrich(record, language, nlp).value)))
  {
    EnrichEmptyRaises(language, nlp);
  }

  /** Otherwise, once the record has been enriched, it is appended exactly
      once, to `output_dir/module_path.jsonl`, and nothing else is written. */
  lemma SavedOnce(logs: map<string, seq<Json>>, f: FileFacts, filePath: string, modulePath: string, outputDir: string)
    requires f.present && !IsBinaryFile(f.filetype, f.magic) && modulePath != "" && f.ioOk
    requires Handle(DefaultHandler, InputOf(f, filePath, modulePath)).record.Some?
    requires Enrich(Handle(DefaultHandler, InputOf(f, filePath, modulePath)).record.value, LanguageOf(f), f.nlp).Ok?
    ensures var out := OutputFile(outputDir, modulePath);
      var final := Enrich(Handle(DefaultHandler, InputOf(f, filePath, modulePath)).record.value, LanguageOf(f), f.nlp).value;
      RunLogs(logs, ProcessOutcome(f, filePath, modulePath, outputDir), f.ioOk) == logs[out := Lines(logs, out) + [JObj(final)]]
  {
    var rec := Handle(DefaultHandler, InputOf(f, filePath, modulePath)).record.value;
    TextFileOutcome(f, filePath, modulePath, outputDir);
    FinalSaveOfEnriched(rec, LanguageOf(f), f.nlp, modulePath, outputDir);
    var out := OutputFile(outputDir, modulePath);
    assert '/' in out by {
      assert out[|outputDir|] == '/';
    }
  }

  /** The first half leaves the language and the entities in place. */
  lemma WithEntitiesShape(rec: Record, language: Json, nlp: string -> Option<Json>)
    requires WithEntities(rec, language, nlp).Ok?
    ensures var r := WithEntities(rec, language, nlp).value;
      && Lookup(r, "language") == Some(language)
      && Lookup(r, "analysis").Some? && Lookup(r, "analysis").value.JObj?
      && Lookup(Lookup(r, "analysis").value.fields, "entities")
         == Some(EntitiesOf(SetKey(rec, "language", language), nlp).value)
  {
  }

  /** Two assignments into the analysis keep every other top-level key and
      every other analysis key. The keys are parameters: the solver compares
      symbolic keys far more cheaply than literals of equal length. */
  lemma TwoAnalysisKeys(r2: Record, k1: string, v1: Json, k2: string, v2: Json, other: string, e: string)
    requires Lookup(r2, "analysis").Some? && Lookup(r2, "analysis").value.JObj?
    requires other != "analysis" && e != k1 && e != k2 && k1 != k2
    ensures SetAnalysis(r2, k1, v1).Ok?
    ensures var r3 := SetAnalysis(r2, k1, v1).value;
      && SetAnalysis(r3, k2, v2).Ok?
      && var r := SetAnalysis(r3, k2, v2).value;
      && Lookup(r, other) == Lookup(r2, other)
      && Lookup(r, "analysis").Some? && Lookup(r, "analysis").value.JObj?
      && var a := Lookup(r, "analysis").value.fields;
         && Lookup(a, e) == Lookup(Lookup(r2, "analysis").value.fields, e)
         && Lookup(a, k1) == Some(v1)
         && Lookup(a, k2) == Some(v2)
  {
  }

  /** With a language other than `Python` and `JavaScript` the function
      count is 0. */
  lemma FunctionCountOtherLanguage(r2: Record)
    requires Lookup(r2, "language").Some?
    requires Lookup(r2, "language").value !in {JStr("Python"), JStr("JavaScript")}
    ensures FunctionCount(Some(r2)) == 0
  {
    assert Field(Some(r2), "language") == Ok(Lookup(r2, "language").value);
  }

  /** The second half keeps the language and the entities; with a language
      other than `Python` and `JavaScript` the function count is 0. */
  lemma WithCountsShape(r2: Record)
    requires WithCounts(r2).Ok?
    requires Lookup(r2, "language").Some?
    requires Lookup(r2, "language").value !in {JStr("Python"), JStr("JavaScript")}
    ensures var r := WithCounts(r2).value;
      && Lookup(r, "language") == Lookup(r2, "language")
      && Lookup(r, "analysis").Some? && Lookup(r, "analysis").value.JObj?
      && var a := Lookup(r, "analysis").value.fields;
         && Lookup(a, "entities") == Lookup(Lookup(r2, "analysis").value.fields, "entities")
         && Lookup(a, "function_count") == Some(JInt(0))
         && HasKey(a, "comment_density")
  {
    FunctionCountOtherLanguage(r2);
    var r3 := SetAnalysis(r2, "function_count", JInt(0)).value;
    assert "language"[0] != "analysis"[0];
    TwoAnalysisKeys(r2, "function_count", JInt(0), "comment_density", CommentDensity(Some(r3)), "language", "entities");
  }

  /** The saved record carries the guessed language, the entities of its
      content, a function count of 0 (the guessed language is lower case,
      never `Python` or `JavaScript`) and a comment density. */
  lemma EnrichedRecord(rec: Record, f: FileFacts)
    requires Enrich(rec, LanguageOf(f), f.nlp).Ok?
    ensures var r := Enrich(rec, LanguageOf(f), f.nlp).value;
      && Lookup(r, "language") == Some(LanguageOf(f))
      && Lookup(r, "analysis").Some? && Lookup(r, "analysis").value.JObj?
      && var a := Lookup(r, "analysis").value.fields;
         && Lookup(a, "entities") == Some(EntitiesOf(SetKey(rec, "language", LanguageOf(f)), f.nlp).value)
         && Lookup(a, "function_count") == Some(JInt(0))
         && HasKey(a, "comment_density")
  {
    var lang := LanguageOf(f);
    WithEntitiesShape(rec, lang, f.nlp);
    WithCountsShape(WithEntities(rec, lang, f.nlp).value);
  }

  // ---- Walking the tree ---------------------------------------------------

  /** One call of `process_file` handed to the thread pool. */
  datatype Task = Task(filePath: PathParts, modulePath: string, outputDir: string)

  /** `dir` is an enclosing directory of the file `f`. */
  predicate ProperPrefix(dir: PathParts, f: PathParts) {
    |dir| < |f| && f[..|dir|] == dir
  }

  /** `process_directory_concurrently`: one task per file that
      `Path(dir).rglob('*')` yields, that is per file of `files` (every file
      of the tree, in rglob order) below `dir`, with the module path
      `os.path.relpath(file.parent, root_dir)`. */
  function DirectoryTasks(dir: PathParts, files: seq<PathParts>, root: PathParts, outputDir: string): (r: seq<Task>)
    ensures forall t :: t in r <==> exists f :: f in files && ProperPrefix(dir, f) && t == FileTask(f, root, outputDir)
  {
    if files == [] then []
    else
      var rest := DirectoryTasks(dir, files[1..], root, outputDir);
      assert forall f :: f in files[1..] ==> f in files;
      assert forall f :: f in files ==> f == files[0] || f in files[1..];
      if ProperPrefix(dir, files[0]) then [FileTask(files[0], root, outputDir)] + rest else rest
  }

  function FileTask(f: PathParts, root: PathParts, outputDir: string): Task
    requires |f| > 0
  {
    Task(f, RelPath(f[..|f| - 1], root), outputDir)
  }

  /** The task of a file below the root names the module of its directory:
      the components between the root and the file, or "." for a file
      directly in the root. */
  lemma TaskModule(f: PathParts, root: PathParts, outputDir: string)
    requires ProperPrefix(root, f)
    ensures FileTask(f, root, outputDir).modulePath
         == if |f| == |root| + 1 then "." else Join(f[|root|..|f| - 1], '/')
  {
    assert f[..|f| - 1][..|root|] == root;
    RelPathBelow(f[..|f| - 1], root);
  }

  /** `process_all_directories`: every directory `os.walk` yields (`dirs`,
      root first) gets its batch of tasks; the merged `codebase_data` stays
      empty, since `process_directory_concurrently` returns `{}`. */
  method ProcessAllDirectories(dirs: seq<PathParts>, files: seq<PathParts>, root: PathParts, outputDir: string)
    returns (batches: seq<seq<Task>>, data: CodebaseData)
    ensures data == []
    ensures |batches| == |dirs|
    ensures forall i :: 0 <= i < |dirs| ==> batches[i] == DirectoryTasks(dirs[i], files, root, outputDir)
  {
    batches := [];
    data := [];
    var i := 0;
    while i < |dirs|
      invariant 0 <= i <= |dirs|
      invariant |batches| == i && data == []
      invariant forall k :: 0 <= k < i ==> batches[k] == DirectoryTasks(dirs[k], files, root, outputDir)
    {
      var directoryData: CodebaseData := [];
      batches := batches + [DirectoryTasks(dirs[i], files, root, outputDir)];
      data := data + directoryData;
      i := i + 1;
    }
  }

  /** The number of directories of `dirs` that enclose `f`. */
  function EnclosingCount(dirs: seq<PathParts>, f: PathParts): (n: nat)
    ensures n <= |dirs|
  {
    if dirs == [] then 0 else (if ProperPrefix(dirs[0], f) then 1 else 0) + EnclosingCount(dirs[1..], f)
  }

  /** The number of batches that hold task `t`. */
  function BatchesWith(batches: seq<seq<Task>>, t: Task): nat {
    if batches == [] then 0 else (if t in batches[0] then 1 else 0) + BatchesWith(batches[1..], t)
  }

  /** A file of the tree is handed to `process_file` once per walked
      directory that encloses it. */
  lemma {:induction false} TaskPerEnclosingDirectory(dirs: seq<PathParts>, files: seq<PathParts>, root: PathParts,
                                                    outputDir: string, f: PathParts)
    requires f in files && |f| > 0
    ensures BatchesWith(seq(|dirs|, i requires 0 <= i < |dirs| => DirectoryTasks(dirs[i], files, root, outputDir)),
                        FileTask(f, root, outputDir))
         == EnclosingCount(dirs, f)
  {
    var bs := seq(|dirs|, i requires 0 <= i < |dirs| => DirectoryTasks(dirs[i], files, root, outputDir));
    if dirs != [] {
      var t := FileTask(f, root, outputDir);
      assert t in bs[0] <==> ProperPrefix(dirs[0], f) by {
        if t in bs[0] {
          var g :| g in files && ProperPrefix(dirs[0], g) && t == FileTask(g, root, outputDir);
          assert g == f;
        }
      }
      TaskPerEnclosingDirectory(dirs[1..], files, root, outputDir, f);
      assert bs[1..] == seq(|dirs[1..]|, i requires 0 <= i < |dirs[1..]| => DirectoryTasks(dirs[1..][i], files, root, outputDir));
    }
  }

  /** `os.walk` yields every directory at most once. */
  predicate NoRepeats(dirs: seq<PathParts>) {
    forall i, j :: 0 <= i < j < |dirs| ==> dirs[i] != dirs[j]
  }

  /** The walked directories that enclose `f`. */
  function EnclosingSet(dirs: seq<PathParts>, f: PathParts): set<PathParts> {
    set d | d in dirs && ProperPrefix(d, f)
  }

  /** The directories of `f` from component `lo` up to, not including, `hi`. */
  function LevelSet(f: PathParts, lo: nat, hi: nat): set<PathParts>
    requires lo <= hi <= |f|
  {
    set j | lo <= j < hi :: f[..j]
  }

  /** Counting the enclosing directories of a walk without repeats is
      counting the set of them. */
  lemma {:induction false} EnclosingCountIsSetSize(dirs: seq<PathParts>, f: PathParts)
    requires NoRepeats(dirs)
    ensures EnclosingCount(dirs, f) == |EnclosingSet(dirs, f)|
  {
    if dirs == [] {
      assert EnclosingSet(dirs, f) == {};
    } else {
      var rest := dirs[1..];
      assert NoRepeats(rest) by {
        forall i, j | 0 <= i < j < |rest|
          ensures rest[i] != rest[j]
        {
          assert rest[i] == dirs[i + 1] && rest[j] == dirs[j + 1];
        }
      }
      EnclosingCountIsSetSize(rest, f);
      assert dirs[0] !in rest by {
        forall k | 0 <= k < |rest|
          ensures rest[k] != dirs[0]
        {
          assert rest[k] == dirs[k + 1];
        }
      }
      if ProperPrefix(dirs[0], f) {
        assert EnclosingSet(dirs, f) == EnclosingSet(rest, f) + {dirs[0]};
      } else {
        assert EnclosingSet(dirs, f) == EnclosingSet(rest, f);
      }
    }
  }

  /** The prefixes of `f` of lengths `lo` to `hi - 1` are `hi - lo`
      different directories, since they differ in length. */
  lemma {:induction false} LevelSetSize(f: PathParts, lo: nat, hi: nat)
    requires lo <= hi <= |f|
    ensures |LevelSet(f, lo, hi)| == hi - lo
    decreases hi - lo
  {
    if lo == hi {
      assert LevelSet(f, lo, hi) == {};
    } else {
      LevelSetSize(f, lo, hi - 1);
      assert LevelSet(f, lo, hi) == LevelSet(f, lo, hi - 1) + {f[..hi - 1]};
      assert f[..hi - 1] !in LevelSet(f, lo, hi - 1);
    }
  }

  /** So a file whose directory lies `d` levels below the root (`|f| ==
      |root| + d + 1`) is processed `d + 1` times, once for the root and once
      per directory down to its own, each time appending to its module's
      output. This holds for any walk of the tree that yields each directory
      once, only directories under the root, and every directory on the way
      to `f`, whatever other directories it lists besides. */
  lemma ProcessedPerLevel(dirs: seq<PathParts>, root: PathParts, f: PathParts)
    requires ProperPrefix(root, f)
    requires forall k :: 0 <= k < |dirs| ==> |root| <= |dirs[k]| && dirs[k][..|root|] == root
    requires NoRepeats(dirs)
    requires forall j :: |root| <= j < |f| ==> f[..j] in dirs
    ensures EnclosingCount(dirs, f) == |f| - |root|
  {
    EnclosingCountIsSetSize(dirs, f);
    assert EnclosingSet(dirs, f) == LevelSet(f, |root|, |f|) by {
      forall d | d in EnclosingSet(dirs, f)
        ensures d in LevelSet(f, |root|, |f|)
      {
        assert f[..|d|] == d;
      }
      forall j | |root| <= j < |f|
        ensures f[..j] in EnclosingSet(dirs, f)
      {
        assert f[..j] in dirs;
      }
    }
    LevelSetSize(f, |root|, |f|);
  }

  // ---- Reusing the cache --------------------------------------------------

  /** The analysis stored in the cache for path `p` when its hash is `hash`:
      None when the entry's hash differs, a raise when a lookup does. */
  function CachedAnalysis(cache: Json, p: string, hash: string): Outcome<Option<Json>> {
    match Contains(cache, p)
    case Raised => Raised
    case Ok(present) =>
      if !present then Ok(None)
      else match Subscript(cache, p)
        case Raised => Raised
        case Ok(entry) =>
          match Subscript(entry, "hash")
          case Raised => Raised
          case Ok(h) =>
            if h != JStr(hash) then Ok(None)
            else match Subscript(entry, "analysis")
              case Raised => Raised
              case Ok(a) => Ok(Some(a))
  }

  /** The body of the loop in `main` that reuses cached analyses and
      attaches documentation links, for one record of module `modulePath`. The
      record is left as it was whenever a step raises before it is changed:
      a None entry, a missing `content` or `file_path`, content that is not
      a string, a cache lookup that fails. */
  function WarmRecord(modulePath: string, e: Entry, cache: Json, docLinks: map<string, string>,
                      md5: string -> string): Entry {
    match Field(e, "content")
    case Ok(JStr(content)) =>
      (match Field(e, "file_path")
       case Ok(JStr(p)) =>
         (match CachedAnalysis(cache, p, md5(content))
          case Raised => e
          case Ok(cached) => Some(Warmed(modulePath, e.value, p, cached, docLinks)))
       case _ => e)
    case _ => e
  }

  /** The record after the pass: the cached analysis when there is one,
      then the documentation link and module path when the path has a
      link. */
  function Warmed(modulePath: string, rec: Record, p: string, cached: Option<Json>,
                  docLinks: map<string, string>): Record {
    var r := if cached.Some? then SetKey(rec, "analysis", cached.value) else rec;
    if p in docLinks then SetKey(SetKey(r, "documentation", JStr(docLinks[p])), "module_path", JStr(modulePath))
    else r
  }

  /** The loop itself: every record of every module goes through
      `WarmRecord`; the modules and their lengths stay as they are. */
  method WarmCache(cb: CodebaseData, cache: Json, docLinks: map<string, string>, md5: string -> string)
    returns (out: CodebaseData)
    ensures |out| == |cb|
    ensures forall i :: 0 <= i < |cb| ==> out[i].0 == cb[i].0 && |out[i].1| == |cb[i].1|
    ensures forall i, j :: 0 <= i < |cb| && 0 <= j < |cb[i].1| ==>
              out[i].1[j] == WarmRecord(cb[i].0, cb[i].1[j], cache, docLinks, md5)
  {
    out := [];
    var i := 0;
    while i < |cb|
      invariant 0 <= i <= |cb| && |out| == i
      invariant forall k :: 0 <= k < i ==> out[k].0 == cb[k].0 && |out[k].1| == |cb[k].1|
      invariant forall k, j :: 0 <= k < i && 0 <= j < |cb[k].1| ==>
                  out[k].1[j] == WarmRecord(cb[k].0, cb[k].1[j], cache, docLinks, md5)
    {
      var (modulePath, moduleData) := cb[i];
      var updated: seq<Entry> := [];
      var j := 0;
      while j < |moduleData|
        invariant 0 <= j <= |moduleData| && |updated| == j
        invariant forall l :: 0 <= l < j ==> updated[l] == WarmRecord(modulePath, moduleData[l], cache, docLinks, md5)
      {
        updated := updated + [WarmRecord(modulePath, moduleData[j], cache, docLinks, md5)];
        j := j + 1;
      }
      out := out + [(modulePath, updated)];
      i := i + 1;
    }
  }

  /** Records the loop cannot read are left alone: None entries and records
      whose content is not a string (None content included). */
  lemma WarmSkipsUnreadable(modulePath: string, e: Entry, cache: Json, docLinks: map<string, string>, md5: string -> string)
    requires e.None? || !Field(e, "content").Ok? || !Field(e, "content").value.JStr?
    ensures WarmRecord(modulePath, e, cache, docLinks, md5) == e
  {
  }

  /** Without documentation links, the analysis is replaced by the cached one
      exactly when the entry the cache holds for the path has the digest of
      the current content as its hash, and nothing else changes. */
  lemma WarmReplacesOnHashMatch(modulePath: string, rec: Record, content: string, p: string,
                                cache: Fields, entry: Fields, md5: string -> string)
    requires Lookup(rec, "content") == Some(JStr(content)) && Lookup(rec, "file_path") == Some(JStr(p))
    requires Lookup(cache, p) == Some(JObj(entry))
    requires Lookup(entry, "hash").Some? && Lookup(entry, "analysis").Some?
    ensures WarmRecord(modulePath, Some(rec), JObj(cache), map[], md5)
         == if Lookup(entry, "hash") == Some(JStr(md5(content)))
            then Some(SetKey(rec, "analysis", Lookup(entry, "analysis").value))
            else Some(rec)
  {
    var hit := Lookup(entry, "hash") == Some(JStr(md5(content)));
    assert CachedAnalysis(JObj(cache), p, md5(content))
        == Ok(if hit then Some(Lookup(entry, "analysis").value) else None);
    assert Field(Some(rec), "content") == Ok(JStr(content));
    assert Field(Some(rec), "file_path") == Ok(JStr(p));
  }

  /** A cache without the path changes nothing but the documentation step. */
  lemma WarmMissAttachesDocs(modulePath: string, rec: Record, content: string, p: string,
                             cache: Fields, docLinks: map<string, string>, md5: string -> string)
    requires Lookup(rec, "content") == Some(JStr(content)) && Lookup(rec, "file_path") == Some(JStr(p))
    requires !HasKey(cache, p)
    ensures WarmRecord(modulePath, Some(rec), JObj(cache), docLinks, md5)
         == if p in docLinks
            then Some(SetKey(SetKey(rec, "documentation", JStr(docLinks[p])), "module_path", JStr(modulePath)))
            else Some(rec)
  {
    assert CachedAnalysis(JObj(cache), p, md5(content)) == Ok(None);
    assert Field(Some(rec), "content") == Ok(JStr(content));
    assert Field(Some(rec), "file_path") == Ok(JStr(p));
  }

  /** `d[k] = v` when `d[k]` already is `v` changes nothing. */
  lemma {:induction false} SetKeySame(fs: Fields, k: string, v: Json)
    requires Lookup(fs, k) == Some(v)
    ensures SetKey(fs, k, v) == fs
  {
    if fs != [] && fs[0].0 != k {
      SetKeySame(fs[1..], k, v);
    }
  }

  /** Running the pass twice gives what running it once gives. */
  lemma WarmIdempotent(modulePath: string, e: Entry, cache: Json, docLinks: map<string, string>, md5: string -> string)
    ensures WarmRecord(modulePath, WarmRecord(modulePath, e, cache, docLinks, md5), cache, docLinks, md5)
         == WarmRecord(modulePath, e, cache, docLinks, md5)
  {
    if Field(e, "content").Ok? && Field(e, "content").value.JStr? {
      var content := Field(e, "content").value.s;
      if Field(e, "file_path").Ok? && Field(e, "file_path").value.JStr? {
        var p := Field(e, "file_path").value.s;
        var c := CachedAnalysis(cache, p, md5(content));
        if c.Ok? {
          WarmIdempotentStep(modulePath, e.value, content, p, c.value, docLinks);
          var w := Warmed(modulePath, e.value, p, c.value, docLinks);
          assert WarmRecord(modulePath, e, cache, docLinks, md5) == Some(w);
          assert Field(Some(w), "content") == Ok(JStr(content));
          assert Field(Some(w), "file_path") == Ok(JStr(p));
        }
      }
    }
  }

  lemma WarmIdempotentStep(modulePath: string, rec: Record, content: string, p: string,
                           cached: Option<Json>, docLinks: map<string, string>)
    requires Lookup(rec, "content") == Some(JStr(content)) && Lookup(rec, "file_path") == Some(JStr(p))
    ensures var w := Warmed(modulePath, rec, p, cached, docLinks);
      && Lookup(w, "content") == Some(JStr(content)) && Lookup(w, "file_path") == Some(JStr(p))
      && Warmed(modulePath, w, p, cached, docLinks) == w
  {
    assert "content"[0] != "analysis"[0];
    var r := if cached.Some? then SetKey(rec, "analysis", cached.value) else rec;
    if p in docLinks {
      var r1 := SetKey(r, "documentation", JStr(docLinks[p]));
      var w := SetKey(r1, "module_path", JStr(modulePath));
      if cached.Some? {
        SetKeySame(w, "analysis", cached.value);
      }
      SetKeySame(w, "documentation", JStr(docLinks[p]));
      SetKeySame(w, "module_path", JStr(modulePath));
    } else if cached.Some? {
      SetKeySame(r, "analysis", cached.value);
    }
  }

  /** The entry built for a record matches the record's own hash and holds
      its analysis. */
  lemma OwnEntryMatches(e: Entry, md5: string -> string, cache: Fields)
    requires CacheEntry(e, md5).Some?
    requires Field(e, "content").Ok? && Field(e, "content").value.JStr?
    requires Lookup(cache, CacheEntry(e, md5).value.0) == Some(CacheEntry(e, md5).value.1)
    ensures CachedAnalysis(JObj(cache), CacheEntry(e, md5).value.0, md5(Field(e, "content").value.s))
         == Ok(Some(Field(e, "analysis").value))
  {
    CacheEntryShape(e, md5);
    var v := CacheEntry(e, md5).value.1;
    LookupAt(v.fields, 1);
    assert Subscript(v, "hash") == Ok(JStr(md5(Field(e, "content").value.s)));
  }

  /** A hit whose analysis is already the record's own changes nothing when
      no documentation link applies. */
  lemma HitWithOwnAnalysis(modulePath: string, rec: Record, cache: Json, md5: string -> string)
    requires Lookup(rec, "content").Some? && Lookup(rec, "content").value.JStr?
    requires Lookup(rec, "file_path").Some? && Lookup(rec, "file_path").value.JStr?
    requires Lookup(rec, "analysis").Some?
    requires CachedAnalysis(cache, Lookup(rec, "file_path").value.s, md5(Lookup(rec, "content").value.s))
          == Ok(Some(Lookup(rec, "analysis").value))
    ensures WarmRecord(modulePath, Some(rec), cache, map[], md5) == Some(rec)
  {
    assert Field(Some(rec), "content") == Ok(Lookup(rec, "content").value);
    assert Field(Some(rec), "file_path") == Ok(Lookup(rec, "file_path").value);
    SetKeySame(rec, "analysis", Lookup(rec, "analysis").value);
  }

  /** The cache `cache_analysis_results` builds hands every record back its
      own analysis: a record with string content whose entry is the one kept
      for its path comes out of the pass unchanged. */
  lemma CachedRecordComesBack(modulePath: string, es: seq<Entry>, md5: string -> string, i: nat)
    requires i < |es| && CacheEntry(es[i], md5).Some?
    requires Field(es[i], "content").Ok? && Field(es[i], "content").value.JStr?
    requires forall j :: i < j < |es| && CacheEntry(es[j], md5).Some? ==>
               CacheEntry(es[j], md5).value.0 != CacheEntry(es[i], md5).value.0
    ensures WarmRecord(modulePath, es[i], JObj(CacheOf(es, md5)), map[], md5) == es[i]
  {
    var e := es[i];
    CacheLaterWins(es, md5, i);
    OwnEntryMatches(e, md5, CacheOf(es, md5));
    assert Field(e, "file_path") == Ok(JStr(CacheEntry(e, md5).value.0));
    HitWithOwnAnalysis(modulePath, e.value, JObj(CacheOf(es, md5)), md5);
  }

  /** Record `k` of `es` yields a cache entry, has string content, and no
      later record yields an entry for the same path. */
  predicate KeptFor(es: seq<Entry>, md5: string -> string, k: nat) {
    && k < |es| && CacheEntry(es[k], md5).Some?
    && Field(es[k], "content").Ok? && Field(es[k], "content").value.JStr?
    && forall j :: k < j < |es| && CacheEntry(es[j], md5).Some? ==>
         CacheEntry(es[j], md5).value.0 != CacheEntry(es[k], md5).value.0
  }

  /** The end of one run and the start of the next: `cache_analysis_results`
      writes `analysis_cache.json` on the disk, and `load_analysis_cache`
      reads it back. When the read succeeds, the warm pass over the same
      records gives back unchanged every record whose entry is the one kept
      for its path. */
  method CacheThenReload(disk: Disk, cb: CodebaseData, md5: string -> string, readOk: bool, modulePath: string)
    returns (cache: Json)
    modifies disk
    ensures disk.cacheFile == Some(Parsed(JObj(CacheOf(AllEntries(cb), md5))))
    ensures disk.logs == old(disk.logs)
    ensures cache == LoadAnalysisCache(disk.cacheFile, readOk)
    ensures readOk ==> forall k: nat :: KeptFor(AllEntries(cb), md5, k) ==>
              WarmRecord(modulePath, AllEntries(cb)[k], cache, map[], md5) == AllEntries(cb)[k]
  {
    disk.CacheAnalysisResults(cb, md5, true);
    cache := LoadAnalysisCache(disk.cacheFile, readOk);
    if readOk {
      forall k: nat | KeptFor(AllEntries(cb), md5, k)
        ensures WarmRecord(modulePath, AllEntries(cb)[k], cache, map[], md5) == AllEntries(cb)[k]
      {
        CachedRecordComesBack(modulePath, AllEntries(cb), md5, k);
      }
    }
  }

  // ---- Codebase statistics ------------------------------------------------

  /** The `stats` dict of `calculate_codebase_stats`; numbers are `real`
      because `loc` and `size` may be floats. */
  datatype Stats = Stats(
    totalFiles: nat, totalLoc: real, totalSize: real,
    filesByLanguage: map<Json, nat>, locByLanguage: map<Json, real>, sizeByLanguage: map<Json, real>,
    filesByModule: map<string, nat>)

  const NoStats := Stats(0, 0.0, 0.0, map[], map[], map[], map[])

  /** The three per-language dicts have the same keys. */
  predicate Synced(st: Stats) {
    st.filesByLanguage.Keys == st.locByLanguage.Keys == st.sizeByLanguage.Keys
  }

  /** `file_data['metadata'][k]` as a number `+=` accepts. */
  function Metric(e: Entry, k: string): Option<real> {
    match Field2(e, "metadata", k)
    case Raised => None
    case Ok(v) => Num(v)
  }

  /** `d.get(k, 0)` on a per-language dict. */
  function Get(m: map<Json, real>, k: Json): real {
    if k in m then m[k] else 0.0
  }

  function GetCount(m: map<Json, nat>, k: Json): nat {
    if k in m then m[k] else 0
  }

  /** The per-language part of the loop body: a language seen for the first
      time starts at 0 in all three dicts, then each grows. */
  function LanguageStep(st: Stats, lang: Json, loc: real, size: real): (r: Stats)
    ensures r.totalFiles == st.totalFiles && r.filesByModule == st.filesByModule
  {
    var isNew := lang !in st.filesByLanguage;
    var files := if isNew then st.filesByLanguage[lang := 0] else st.filesByLanguage;
    var locs := if isNew then st.locByLanguage[lang := 0.0] else st.locByLanguage;
    var sizes := if isNew then st.sizeByLanguage[lang := 0.0] else st.sizeByLanguage;
    if lang !in locs || lang !in sizes then st.(filesByLanguage := files[lang := files[lang] + 1])
    else st.(filesByLanguage := files[lang := files[lang] + 1],
             locByLanguage := locs[lang := locs[lang] + loc],
             sizeByLanguage := sizes[lang := sizes[lang] + size])
  }

  /** What the loop body reads from a record, in the order it reads it:
      its `loc`, its `size` and its language. */
  datatype Reading = Reading(loc: Option<real>, size: Option<real>, language: Outcome<Json>)

  function ReadingOf(e: Entry): Reading {
    Reading(Metric(e, "loc"), Metric(e, "size"), Field(e, "language"))
  }

  /** One record of the loop, with the updates made before a raise kept:
      `total_files` always grows; `total_loc`, `total_size` and the
      per-language sums follow in order and stop at the first missing key,
      non-numeric value or unhashable language. */
  function StepOn(st: Stats, r: Reading): Stats {
    var st1 := Totals(st, r);
    if r.loc.Some? && r.size.Some? && r.language.Ok? && Hashable(r.language.value)
    then LanguageStep(st1, r.language.value, r.loc.value, r.size.value)
    else st1
  }

  /** The three running totals: `total_files` always grows, `total_loc`
      when `loc` is a number, `total_size` when `size` is one too. */
  function Totals(st: Stats, r: Reading): (t: Stats)
    ensures t.filesByLanguage == st.filesByLanguage && t.locByLanguage == st.locByLanguage
    ensures t.sizeByLanguage == st.sizeByLanguage && t.filesByModule == st.filesByModule
    ensures t.totalFiles == st.totalFiles + 1
  {
    var st1 := st.(totalFiles := st.totalFiles + 1);
    if r.loc.None? then st1
    else
      var st2 := st1.(totalLoc := st1.totalLoc + r.loc.value);
      if r.size.None? then st2 else st2.(totalSize := st2.totalSize + r.size.value)
  }

  function StatStep(st: Stats, e: Entry): Stats {
    StepOn(st, ReadingOf(e))
  }

  /** The records of one module, in order. */
  function EntriesStats(st: Stats, es: seq<Entry>): Stats {
    if es == [] then st else StatStep(EntriesStats(st, es[..|es| - 1]), es[|es| - 1])
  }

  /** One module: `files_by_module[module_path] = len(module_data)`, then its
      records. */
  function ModuleStats(st: Stats, m: (string, seq<Entry>)): Stats {
    EntriesStats(st.(filesByModule := st.filesByModule[m.0 := |m.1|]), m.1)
  }

  /** `calculate_codebase_stats`. */
  function CodebaseStats(cb: CodebaseData): Stats {
    if cb == [] then NoStats else ModuleStats(CodebaseStats(cb[..|cb| - 1]), cb[|cb| - 1])
  }

  /** The loops of `calculate_codebase_stats`. */
  method CalculateCodebaseStats(cb: CodebaseData) returns (stats: Stats)
    ensures stats == CodebaseStats(cb)
  {
    stats := NoStats;
    var i := 0;
    while i < |cb|
      invariant 0 <= i <= |cb|
      invariant stats == CodebaseStats(cb[..i])
    {
      var (modulePath, moduleData) := cb[i];
      stats := stats.(filesByModule := stats.filesByModule[modulePath := |moduleData|]);
      ghost var start := stats;
      var j := 0;
      while j < |moduleData|
        invariant 0 <= j <= |moduleData|
        invariant stats == EntriesStats(start, moduleData[..j])
      {
        assert moduleData[..j + 1][..j] == moduleData[..j];
        stats := StatStep(stats, moduleData[j]);
        j := j + 1;
      }
      assert moduleData[..j] == moduleData;
      assert cb[..i + 1][..i] == cb[..i];
      i := i + 1;
    }
    assert cb[..i] == cb;
  }

  /** A record without a numeric `loc` only counts as a file. */
  lemma StatStepWithoutLoc(st: Stats, e: Entry)
    requires ReadingOf(e).loc.None?
    ensures StatStep(st, e) == st.(totalFiles := st.totalFiles + 1)
  {
  }

  /** The per-language dicts stay in step, and only the record's own
      language gains a file. */
  lemma LanguageStepCount(st: Stats, lang: Json, loc: real, size: real, l: Json)
    requires Synced(st)
    ensures Synced(LanguageStep(st, lang, loc, size))
    ensures GetCount(LanguageStep(st, lang, loc, size).filesByLanguage, l)
         == GetCount(st.filesByLanguage, l) + (if l == lang then 1 else 0)
    ensures Get(LanguageStep(st, lang, loc, size).locByLanguage, l)
         == Get(st.locByLanguage, l) + (if l == lang then loc else 0.0)
    ensures Get(LanguageStep(st, lang, loc, size).sizeByLanguage, l)
         == Get(st.sizeByLanguage, l) + (if l == lang then size else 0.0)
  {
  }

  lemma StepOnCount(st: Stats, r: Reading, l: Json)
    requires Synced(st)
    ensures Synced(StepOn(st, r))
    ensures GetCount(StepOn(st, r).filesByLanguage, l)
         == GetCount(st.filesByLanguage, l)
            + (if r.loc.Some? && r.size.Some? && r.language == Ok(l) && Hashable(l) then 1 else 0)
    ensures Get(StepOn(st, r).locByLanguage, l)
         == Get(st.locByLanguage, l)
            + (if r.loc.Some? && r.size.Some? && r.language == Ok(l) && Hashable(l) then r.loc.value else 0.0)
    ensures Get(StepOn(st, r).sizeByLanguage, l)
         == Get(st.sizeByLanguage, l)
            + (if r.loc.Some? && r.size.Some? && r.language == Ok(l) && Hashable(l) then r.size.value else 0.0)
  {
    if r.loc.Some? && r.size.Some? && r.language.Ok? && Hashable(r.language.value) {
      LanguageStepCount(Totals(st, r), r.language.value, r.loc.value, r.size.value, l);
    }
  }

  /** A record adds one file and leaves `files_by_module` alone. */
  lemma StepOnFrame(st: Stats, r: Reading)
    ensures StepOn(st, r).totalFiles == st.totalFiles + 1
    ensures StepOn(st, r).filesByModule == st.filesByModule
  {
  }

  /** Every record counts towards `total_files`, skipped ones included. */
  lemma {:induction false} EntriesTotalFiles(st: Stats, es: seq<Entry>)
    ensures EntriesStats(st, es).totalFiles == st.totalFiles + |es|
    ensures EntriesStats(st, es).filesByModule == st.filesByModule
  {
    if es != [] {
      EntriesTotalFiles(st, es[..|es| - 1]);
      StepOnFrame(EntriesStats(st, es[..|es| - 1]), ReadingOf(es[|es| - 1]));
    }
  }

  lemma {:induction false} TotalFiles(cb: CodebaseData)
    ensures CodebaseStats(cb).totalFiles == |AllEntries(cb)|
  {
    if cb != [] {
      var init := cb[..|cb| - 1];
      TotalFiles(init);
      var st := CodebaseStats(init);
      EntriesTotalFiles(st.(filesByModule := st.filesByModule[cb[|cb| - 1].0 := |cb[|cb| - 1].1|]), cb[|cb| - 1].1);
      AllEntriesAppend(init, cb[|cb| - 1]);
      assert init + [cb[|cb| - 1]] == cb;
    }
  }

  /** `files_by_module` maps each module to the length of its list. */
  lemma {:induction false} FilesByModule(cb: CodebaseData)
    requires UniqueKeys(cb)
    ensures forall m :: m in CodebaseStats(cb).filesByModule <==> exists i :: 0 <= i < |cb| && cb[i].0 == m
    ensures forall i :: 0 <= i < |cb| ==> CodebaseStats(cb).filesByModule[cb[i].0] == |cb[i].1|
  {
    if cb != [] {
      var init := cb[..|cb| - 1];
      var last := cb[|cb| - 1];
      assert forall i :: 0 <= i < |init| ==> init[i] == cb[i];
      assert UniqueKeys(init);
      FilesByModule(init);
      var st := CodebaseStats(init);
      EntriesTotalFiles(st.(filesByModule := st.filesByModule[last.0 := |last.1|]), last.1);
    }
  }

  /** A record reaches the per-language step with language `lang`. */
  predicate CountsFor(e: Entry, lang: Json) {
    var r := ReadingOf(e);
    r.loc.Some? && r.size.Some? && r.language == Ok(lang) && Hashable(lang)
  }

  /** The number of records of `es` that count for `lang`. */
  function LanguageCount(es: seq<Entry>, lang: Json): nat {
    if es == [] then 0 else LanguageCount(es[..|es| - 1], lang) + (if CountsFor(es[|es| - 1], lang) then 1 else 0)
  }

  /** The `loc` of the records of `es` that count for `lang`, added up. */
  function LanguageLoc(es: seq<Entry>, lang: Json): real {
    if es == [] then 0.0
    else LanguageLoc(es[..|es| - 1], lang) + (if CountsFor(es[|es| - 1], lang) then ReadingOf(es[|es| - 1]).loc.value else 0.0)
  }

  /** The `size` of the records of `es` that count for `lang`, added up. */
  function LanguageSize(es: seq<Entry>, lang: Json): real {
    if es == [] then 0.0
    else LanguageSize(es[..|es| - 1], lang) + (if CountsFor(es[|es| - 1], lang) then ReadingOf(es[|es| - 1]).size.value else 0.0)
  }

  /** The per-language file count, `loc` sum and size sum grow by the records counting
      for that language. */
  lemma {:induction false} EntriesLanguageCount(st: Stats, es: seq<Entry>, lang: Json)
    requires Synced(st)
    ensures Synced(EntriesStats(st, es))
    ensures GetCount(EntriesStats(st, es).filesByLanguage, lang) == GetCount(st.filesByLanguage, lang) + LanguageCount(es, lang)
    ensures Get(EntriesStats(st, es).locByLanguage, lang) == Get(st.locByLanguage, lang) + LanguageLoc(es, lang)
    ensures Get(EntriesStats(st, es).sizeByLanguage, lang) == Get(st.sizeByLanguage, lang) + LanguageSize(es, lang)
  {
    if es != [] {
      var init := es[..|es| - 1];
      EntriesLanguageCount(st, init, lang);
      StepOnCount(EntriesStats(st, init), ReadingOf(es[|es| - 1]), lang);
    }
  }

  /** `files_by_language[lang]` is the number of records that reach the
      per-language step with that language, `loc_by_language[lang]` the sum
      of their `loc` and `size_by_language[lang]` the sum of their `size`. */
  lemma {:induction false} FilesByLanguage(cb: CodebaseData, lang: Json)
    ensures Synced(CodebaseStats(cb))
    ensures GetCount(CodebaseStats(cb).filesByLanguage, lang) == LanguageCount(AllEntries(cb), lang)
    ensures Get(CodebaseStats(cb).locByLanguage, lang) == LanguageLoc(AllEntries(cb), lang)
    ensures Get(CodebaseStats(cb).sizeByLanguage, lang) == LanguageSize(AllEntries(cb), lang)
  {
    if cb != [] {
      var init := cb[..|cb| - 1];
      var last := cb[|cb| - 1];
      FilesByLanguage(init, lang);
      var st := CodebaseStats(init);
      EntriesLanguageCount(st.(filesByModule := st.filesByModule[last.0 := |last.1|]), last.1, lang);
      AllEntriesAppend(init, last);
      assert init + [last] == cb;
      LanguageCountAppend(AllEntries(init), last.1, lang);
    }
  }

  lemma {:induction false} LanguageCountAppend(a: seq<Entry>, b: seq<Entry>, lang: Json)
    ensures LanguageCount(a + b, lang) == LanguageCount(a, lang) + LanguageCount(b, lang)
    ensures LanguageLoc(a + b, lang) == LanguageLoc(a, lang) + LanguageLoc(b, lang)
    ensures LanguageSize(a + b, lang) == LanguageSize(a, lang) + LanguageSize(b, lang)
  {
    if b != [] {
      assert (a + b)[..|a + b| - 1] == a + b[..|b| - 1];
      LanguageCountAppend(a, b[..|b| - 1], lang);
    } else {
      assert a + b == a;
    }
  }

  /** The `loc` of every record that has a numeric one, added up. */
  function LocSum(es: seq<Entry>): real {
    if es == [] then 0.0
    else LocSum(es[..|es| - 1]) + (if ReadingOf(es[|es| - 1]).loc.Some? then ReadingOf(es[|es| - 1]).loc.value else 0.0)
  }

  lemma {:induction false} LocSumAppend(a: seq<Entry>, b: seq<Entry>)
    ensures LocSum(a + b) == LocSum(a) + LocSum(b)
  {
    if b != [] {
      assert (a + b)[..|a + b| - 1] == a + b[..|b| - 1];
      LocSumAppend(a, b[..|b| - 1]);
    } else {
      assert a + b == a;
    }
  }

  lemma {:induction false} EntriesTotalLoc(st: Stats, es: seq<Entry>)
    ensures EntriesStats(st, es).totalLoc == st.totalLoc + LocSum(es)
  {
    if es != [] {
      EntriesTotalLoc(st, es[..|es| - 1]);
    }
  }

  /** `total_loc` adds up the `loc` of every record that has a numeric one,
      whether or not the rest of its record can be counted. */
  lemma {:induction false} TotalLoc(cb: CodebaseData)
    ensures CodebaseStats(cb).totalLoc == LocSum(AllEntries(cb))
  {
    if cb != [] {
      var init := cb[..|cb| - 1];
      var last := cb[|cb| - 1];
      TotalLoc(init);
      var st := CodebaseStats(init);
      EntriesTotalLoc(st.(filesByModule := st.filesByModule[last.0 := |last.1|]), last.1);
      AllEntriesAppend(init, last);
      assert init + [last] == cb;
      LocSumAppend(AllEntries(init), last.1);
    }
  }

  /** The `size` of every record whose `loc` and `size` are both numbers,
      added up. */
  function SizeSum(es: seq<Entry>): real {
    if es == [] then 0.0
    else
      var r := ReadingOf(es[|es| - 1]);
      SizeSum(es[..|es| - 1]) + (if r.loc.Some? && r.size.Some? then r.size.value else 0.0)
  }

  lemma {:induction false} SizeSumAppend(a: seq<Entry>, b: seq<Entry>)
    ensures SizeSum(a + b) == SizeSum(a) + SizeSum(b)
  {
    if b != [] {
      assert (a + b)[..|a + b| - 1] == a + b[..|b| - 1];
      SizeSumAppend(a, b[..|b| - 1]);
    } else {
      assert a + b == a;
    }
  }

  lemma {:induction false} EntriesTotalSize(st: Stats, es: seq<Entry>)
    ensures EntriesStats(st, es).totalSize == st.totalSize + SizeSum(es)
  {
    if es != [] {
      EntriesTotalSize(st, es[..|es| - 1]);
    }
  }

  /** `total_size` adds up the `size` of every record whose `loc` was read
      first: a record without a numeric `loc` stops before its size. */
  lemma {:induction false} TotalSize(cb: CodebaseData)
    ensures CodebaseStats(cb).totalSize == SizeSum(AllEntries(cb))
  {
    if cb != [] {
      var init := cb[..|cb| - 1];
      var last := cb[|cb| - 1];
      TotalSize(init);
      var st := CodebaseStats(init);
      EntriesTotalSize(st.(filesByModule := st.filesByModule[last.0 := |last.1|]), last.1);
      AllEntriesAppend(init, last);
      assert init + [last] == cb;
      SizeSumAppend(AllEntries(init), last.1);
    }
  }
}
