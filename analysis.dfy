/** Per-file analysis: comment extraction, call-name resolution and the
    call graph, the record envelopes the handlers build, and the two
    codebase-wide aggregations (lint tallies, skipped files). */
module Analysis {
  import opened Wrappers
  import opened Strs
  import opened PyJson
  import opened Codebase
  import opened DiGraphs
  import opened DataValidation
  import opened Utilities

  // ---- Comments -----------------------------------------------------------

  predicate IsCommentLine(line: string) {
    StartsWith(Strip(line), "#")
  }

  /** What one line contributes: its stripped form when that is a comment. */
  function Kept(line: string): seq<string> {
    if IsCommentLine(line) then [Strip(line)] else []
  }

  /** The stripped comment lines of `lines`, in order. */
  function CommentLines(lines: seq<string>): seq<string> {
    if lines == [] then [] else Kept(lines[0]) + CommentLines(lines[1..])
  }

  /** The comment half of `extract_docstrings_and_comments`: every line of
      the content, stripped, kept when it starts with "#". */
  method ExtractComments(content: string) returns (comments: seq<string>)
    ensures comments == CommentLines(SplitLines(content))
  {
    comments := CommentsOf(SplitLines(content));
  }

  /** The loop of `ExtractComments` over the lines. */
  method CommentsOf(lines: seq<string>) returns (comments: seq<string>)
    ensures comments == CommentLines(lines)
  {
    comments := [];
    var i := 0;
    while i < |lines|
      invariant 0 <= i <= |lines|
      invariant comments == CommentLines(lines[..i])
    {
      var line := Strip(lines[i]);
      CommentLinesStep(lines, i);
      if StartsWith(line, "#") {
        comments := comments + [line];
      }
      assert comments == CommentLines(lines[..i + 1]);
      i := i + 1;
    }
    assert lines[..i] == lines;
  }

  /** One more line adds its stripped form exactly when that is a comment. */
  lemma CommentLinesStep(lines: seq<string>, i: nat)
    requires i < |lines|
    ensures CommentLines(lines[..i + 1])
      == CommentLines(lines[..i]) + if StartsWith(Strip(lines[i]), "#") then [Strip(lines[i])] else []
  {
    assert CommentLines(lines[..i + 1]) == CommentLines(lines[..i]) + CommentLines([lines[i]]) by {
      assert lines[..i + 1] == lines[..i] + [lines[i]];
      CommentLinesAppend(lines[..i], [lines[i]]);
    }
    assert CommentLines([lines[i]]) == Kept(lines[i]) by {
      assert [lines[i]][1..] == [];
    }
  }

  /** Comment extraction keeps order across a split of the lines: the
      comments of two halves are the comments of the first, then those of
      the second. */
  lemma {:induction false} CommentLinesAppend(a: seq<string>, b: seq<string>)
    ensures CommentLines(a + b) == CommentLines(a) + CommentLines(b)
  {
    if a == [] {
      assert a + b == b;
    } else {
      assert (a + b)[1..] == a[1..] + b;
      CommentLinesAppend(a[1..], b);
    }
  }

  /** At most one comment per line, and exactly the comment lines are kept:
      every kept string is some line stripped and starts with "#", and
      every line whose stripped form starts with "#" is kept. */
  lemma {:induction false} CommentLinesExact(lines: seq<string>)
    ensures |CommentLines(lines)| <= |lines|
    ensures forall c :: c in CommentLines(lines) ==> StartsWith(c, "#") && exists l :: l in lines && c == Strip(l)
    ensures forall l :: l in lines && IsCommentLine(l) ==> Strip(l) in CommentLines(lines)
  {
    if lines != [] {
      var rest := lines[1..];
      CommentLinesExact(rest);
      assert CommentLines(lines) == Kept(lines[0]) + CommentLines(rest);
      assert forall l :: l in rest ==> l in lines;
      assert forall l :: l in lines ==> l == lines[0] || l in rest;
    }
  }

  // ---- Call graph ---------------------------------------------------------

  /** The `func` part of a call node: a bare name, an attribute access, or
      anything else (a subscript, a call result, ...). */
  datatype FuncNode = Name(id: string) | Attribute(attr: string) | OtherCallee

  /** `resolve_function_name`. */
  function ResolveFunctionName(f: FuncNode): (r: string)
    ensures f.Name? ==> r == f.id
    ensures f.Attribute? ==> r == f.attr
    ensures f.OtherCallee? ==> r == "unknown_function"
  {
    match f
    case Name(id) => id
    case Attribute(attr) => attr
    case OtherCallee => "unknown_function"
  }

  /** The graph after adding the edges for `calls`, in order. */
  function CallGraph(name: string, calls: seq<FuncNode>): Graph {
    if calls == [] then Empty
    else CallGraph(name, calls[..|calls| - 1]).WithEdge(name, ResolveFunctionName(calls[|calls| - 1]))
  }

  /** `analyze_function_calls`: one edge from the function to the resolved
      name of each call found in its body (`calls`, in walk order). */
  method AnalyzeFunctionCalls(name: string, calls: seq<FuncNode>) returns (graph: DiGraph)
    ensures fresh(graph)
    ensures graph.Value() == CallGraph(name, calls)
  {
    graph := new DiGraph();
    var i := 0;
    while i < |calls|
      invariant 0 <= i <= |calls|
      invariant graph.Value() == CallGraph(name, calls[..i])
    {
      assert calls[..i + 1][..i] == calls[..i];
      graph.AddEdge(name, ResolveFunctionName(calls[i]));
      i := i + 1;
    }
    assert calls[..i] == calls;
  }

  /** The call graph's edges are exactly function -> callee, one per
      distinct resolved callee. */
  lemma {:induction false} CallGraphEdges(name: string, calls: seq<FuncNode>)
    ensures CallGraph(name, calls).edges == set c | c in calls :: (name, ResolveFunctionName(c))
  {
    if calls != [] {
      var init := calls[..|calls| - 1];
      var last := calls[|calls| - 1];
      CallGraphEdges(name, init);
      CalleeEdgesSnoc(name, init, last);
      assert calls == init + [last];
    }
  }

  lemma CalleeEdgesSnoc(name: string, init: seq<FuncNode>, last: FuncNode)
    ensures (set c | c in init + [last] :: (name, ResolveFunctionName(c)))
         == (set c | c in init :: (name, ResolveFunctionName(c))) + {(name, ResolveFunctionName(last))}
  {
    forall c | c in init + [last]
      ensures c in init || c == last
    {
    }
  }

  /** The resolved names of `calls`. */
  function Callees(calls: seq<FuncNode>): (r: set<string>)
    ensures forall c :: c in calls ==> ResolveFunctionName(c) in r
    ensures forall n :: n in r ==> exists k :: 0 <= k < |calls| && n == ResolveFunctionName(calls[k])
  {
    if calls == [] then {}
    else
      var init := calls[..|calls| - 1];
      assert forall c :: c in calls ==> c in init || c == calls[|calls| - 1];
      assert forall k :: 0 <= k < |init| ==> init[k] == calls[k];
      Callees(init) + {ResolveFunctionName(calls[|calls| - 1])}
  }

  /** Its nodes are the function (when it calls anything) and the callees. */
  lemma {:induction false} CallGraphNodes(name: string, calls: seq<FuncNode>)
    ensures CallGraph(name, calls).nodes.Keys == (if calls == [] then {} else {name}) + Callees(calls)
  {
    if calls != [] {
      CallGraphNodes(name, calls[..|calls| - 1]);
    }
  }

  /** None of its nodes carries an attribute. */
  lemma {:induction false} CallGraphBareNodes(name: string, calls: seq<FuncNode>)
    ensures forall n :: n in CallGraph(name, calls).nodes ==> CallGraph(name, calls).nodes[n] == None
  {
    if calls != [] {
      CallGraphBareNodes(name, calls[..|calls| - 1]);
    }
  }

  // ---- Record envelopes ---------------------------------------------------

  /** `metadata['loc']`: `len(content.split('\n'))`. */
  function Loc(content: string): (n: nat)
    ensures n == CountChar(content, '\n') + 1
  {
    |Split(content, '\n')|
  }

  /** The handler functions of analysis.py. */
  datatype Handler =
    | PythonHandler | HtmlHandler | CssHandler | JavaScriptHandler | JsonHandler
    | MarkdownHandler | TextHandler | YamlHandler | XmlHandler | ImageHandler
    | DocumentHandler | TypeScriptHandler | JsxHandler | VueHandler | DefaultHandler

  /** The handlers that validate their record and save it themselves. */
  predicate Validates(h: Handler) {
    h in {PythonHandler, HtmlHandler, CssHandler, JavaScriptHandler, TypeScriptHandler, JsxHandler, VueHandler}
  }

  /** What a handler is given and what its library calls produced: the
      file's text (None when `async_read` gave nothing), the analysis dict
      its parsers, linters and entity extraction built (Raised when one of
      them raised), the file size (None when `getsize` raised), and the
      entity extractor itself (None when it raises). */
  datatype HandlerInput = HandlerInput(
    filePath: string, modulePath: string, language: Json,
    content: Option<string>, analysis: Outcome<Fields>, size: Option<int>,
    nlp: string -> Option<Json>)

  /** The record every handler builds, key by key in the handlers' order. */
  function MakeRecord(inp: HandlerInput, content: Json, analysis: Fields, metadata: Fields): Record {
    [("file_path", JStr(inp.filePath)), ("language", inp.language), ("content", content),
     ("analysis", JObj(analysis)), ("metadata", JObj(metadata)), ("module_path", JStr(inp.modulePath))]
  }

  /** The record answers for its content, analysis and metadata keys. */
  lemma RecordParts(inp: HandlerInput, content: Json, analysis: Fields, metadata: Fields)
    ensures Lookup(MakeRecord(inp, content, analysis, metadata), "content") == Some(content)
    ensures Lookup(MakeRecord(inp, content, analysis, metadata), "analysis") == Some(JObj(analysis))
    ensures Lookup(MakeRecord(inp, content, analysis, metadata), "metadata") == Some(JObj(metadata))
  {
    var r := MakeRecord(inp, content, analysis, metadata);
    assert r[0].0 == "file_path" && r[1].0 == "language" && r[2].0 == "content";
    assert r[3].0 == "analysis" && r[4].0 == "metadata";
    LookupAt(r, 2);
    LookupAt(r, 3);
    LookupAt(r, 4);
  }

  /** What a handler returns and, for the validating ones, the line it
      appends itself (target file and data). */
  datatype HandlerResult = HandlerResult(record: Option<Record>, saved: Option<(string, Json)>)

  /** The record of a handler that parses text: nothing when there is no
      content (the parsers and `content.split` raise) or a library call
      raised. */
  function TextRecord(inp: HandlerInput): Option<Record> {
    if inp.content.None? || inp.analysis.Raised? || inp.size.None? then None
    else Some(MakeRecord(inp, JStr(inp.content.value), inp.analysis.value,
                         [("loc", JInt(Loc(inp.content.value))), ("size", JInt(inp.size.value))]))
  }

  /** `process_image_file`: language "image", no content, an empty analysis
      and the size as the only metadata. */
  function ImageRecord(filePath: string, modulePath: string, size: Option<int>): (r: Option<Record>)
    ensures r.Some? <==> size.Some?
    ensures r.Some? ==>
      && Lookup(r.value, "language") == Some(JStr("image"))
      && Lookup(r.value, "content") == Some(JNull)
      && Lookup(r.value, "analysis") == Some(JObj([]))
      && Lookup(r.value, "metadata") == Some(JObj([("size", JInt(size.value))]))
  {
    if size.None? then None
    else
      var inp := HandlerInput(filePath, modulePath, JStr("image"), None, Ok([]), size, _ => None);
      var r := MakeRecord(inp, JNull, [], [("size", JInt(size.value))]);
      RecordParts(inp, JNull, [], [("size", JInt(size.value))]);
      assert r[0].0 == "file_path" && r[1].0 == "language";
      LookupAt(r, 1);
      Some(r)
  }

  /** The entities of `nlp(content)` when the content is truthy, `[]`
      otherwise (`process_document_file`). */
  function DocumentEntities(inp: HandlerInput): Option<Json> {
    if inp.content.Some? && inp.content.value != "" then inp.nlp(inp.content.value) else Some(JArr([]))
  }

  /** The entities of `default_handler`: `[]` for None content. */
  function DefaultEntities(inp: HandlerInput): Option<Json> {
    if inp.content.None? then Some(JArr([])) else inp.nlp(inp.content.value)
  }

  function ContentJson(content: Option<string>): Json {
    if content.None? then JNull else JStr(content.value)
  }

  /** The loc of `default_handler`: 0 for None or empty content. */
  function DefaultLoc(content: Option<string>): (n: nat)
    ensures content.None? || content == Some("") ==> n == 0
    ensures content.Some? && content.value != "" ==> n == CountChar(content.value, '\n') + 1
  {
    if content.Some? && content.value != "" then Loc(content.value) else 0
  }

  /** A handler called with the four arguments process_file passes. The
      image handler takes two, so that call raises before it runs and
      yields nothing. */
  function Handle(h: Handler, inp: HandlerInput): HandlerResult {
    match h
    case ImageHandler => HandlerResult(None, None)
    case DocumentHandler =>
      var ents := DocumentEntities(inp);
      if ents.None? || inp.size.None? then HandlerResult(None, None)
      else HandlerResult(Some(MakeRecord(inp, ContentJson(inp.content), [("entities", ents.value)],
                                         [("size", JInt(inp.size.value))])), None)
    case DefaultHandler =>
      var ents := DefaultEntities(inp);
      if ents.None? || inp.size.None? then HandlerResult(None, None)
      else HandlerResult(Some(MakeRecord(inp, ContentJson(inp.content), [("entities", ents.value)],
                                         [("loc", JInt(DefaultLoc(inp.content))), ("size", JInt(inp.size.value))])), None)
    case _ =>
      var rec := TextRecord(inp);
      if !Validates(h) then HandlerResult(rec, None)
      else if rec.None? || ValidateJson(rec.value) != Ok(true) then HandlerResult(None, None)
      else HandlerResult(rec, Some((inp.modulePath + ".jsonl", JObj(rec.value))))
  }

  /** A validating handler returns its record exactly when the record meets
      the schema, and then appends that record once to
      `module_path + ".jsonl"`; otherwise it returns None and saves nothing. */
  lemma ValidatingHandlerEnvelope(h: Handler, inp: HandlerInput)
    requires Validates(h)
    ensures Handle(h, inp).record.Some? <==> TextRecord(inp).Some? && SchemaValid(TextRecord(inp).value)
    ensures Handle(h, inp).record.Some? ==>
      Handle(h, inp).saved == Some((inp.modulePath + ".jsonl", JObj(Handle(h, inp).record.value)))
    ensures Handle(h, inp).record.None? ==> Handle(h, inp).saved.None?
  {
    var rec := TextRecord(inp);
    assert h != ImageHandler && h != DocumentHandler && h != DefaultHandler;
    assert Handle(h, inp) == if rec.None? || ValidateJson(rec.value) != Ok(true) then HandlerResult(None, None)
                             else HandlerResult(rec, Some((inp.modulePath + ".jsonl", JObj(rec.value))));
  }

  /** The json, markdown, text, yaml, xml, document and default handlers
      never validate or save. */
  lemma NonValidatingHandlersDoNotSave(h: Handler, inp: HandlerInput)
    requires !Validates(h)
    ensures Handle(h, inp).saved.None?
    ensures h !in {DocumentHandler, DefaultHandler, ImageHandler} ==> Handle(h, inp).record == TextRecord(inp)
    ensures h == ImageHandler ==> Handle(h, inp).record.None?
  {
  }

  /** A linter that printed a list (or failed, giving None) makes every
      validating handler return None: the schema wants an object there. */
  lemma LintListRejectsRecord(h: Handler, inp: HandlerInput)
    requires Validates(h) && inp.analysis.Ok?
    requires Lookup(inp.analysis.value, "lint_results").Some?
    requires var lint := Lookup(inp.analysis.value, "lint_results").value; lint.JNull? || lint.JArr?
    ensures Handle(h, inp) == HandlerResult(None, None)
  {
    match TextRecord(inp)
    case None =>
    case Some(rec) =>
      var content := inp.content.value;
      var metadata := [("loc", JInt(Loc(content))), ("size", JInt(inp.size.value))];
      RecordParts(inp, JStr(content), inp.analysis.value, metadata);
      LintListFailsSchema(rec, inp.analysis.value, Lookup(inp.analysis.value, "lint_results").value);
  }

  /** The record of `default_handler` carries the content (or None), the
      entities and the loc rule with 0 for missing or empty content. */
  lemma DefaultRecordShape(inp: HandlerInput)
    requires DefaultEntities(inp).Some? && inp.size.Some?
    ensures Handle(DefaultHandler, inp).record.Some?
    ensures var r := Handle(DefaultHandler, inp).record.value;
      && Lookup(r, "content") == Some(ContentJson(inp.content))
      && Lookup(r, "metadata") == Some(JObj([("loc", JInt(DefaultLoc(inp.content))), ("size", JInt(inp.size.value))]))
  {
    var analysis := [("entities", DefaultEntities(inp).value)];
    var metadata := [("loc", JInt(DefaultLoc(inp.content))), ("size", JInt(inp.size.value))];
    assert Handle(DefaultHandler, inp).record == Some(MakeRecord(inp, ContentJson(inp.content), analysis, metadata));
    RecordParts(inp, ContentJson(inp.content), analysis, metadata);
  }

  /** `RunHandler` performs a handler: returns its record and appends its
      line, if any. */
  method RunHandler(disk: Disk, h: Handler, inp: HandlerInput, ioOk: bool) returns (r: Option<Record>)
    modifies disk
    ensures r == Handle(h, inp).record
    ensures disk.logs == (match Handle(h, inp).saved
                          case None => old(disk.logs)
                          case Some(line) => SavedLogs(old(disk.logs), line.0, line.1, ioOk))
    ensures disk.cacheFile == old(disk.cacheFile)
  {
    var result := Handle(h, inp);
    r := result.record;
    if result.saved.Some? {
      disk.SaveToJsonl(result.saved.value.1, result.saved.value.0, ioOk);
    }
  }

  // ---- Lint statistics --------------------------------------------------

  /** Violation counts by violation type (the type is whatever value the
      linter reported, so any hashable JSON value). */
  type LintStats = map<Json, real>

  /** `lint_stats.get(k, 0)`. */
  function Count(stats: LintStats, k: Json): real {
    if k in stats then stats[k] else 0.0
  }

  /** `lint_stats[k] = lint_stats.get(k, 0) + amount`. */
  function Bump(stats: LintStats, k: Json, amount: real): (r: LintStats)
    ensures Count(r, k) == Count(stats, k) + amount
    ensures forall k' :: k' != k ==> Count(r, k') == Count(stats, k')
  {
    stats[k := Count(stats, k) + amount]
  }

  /** The languages whose lint results are tallied. */
  const LintLanguages: seq<string> := ["python", "javascript", "css", "typescript"]

  /** The item field naming the violation type for the counting linters
      (pylint, stylelint, tslint). */
  function RuleField(lang: string): string {
    if lang == "python" then "symbol" else if lang == "css" then "rule" else "ruleName"
  }

  /** `if field in item: lint_stats[key] += item[field]` (the eslint case). */
  function AddCount(stats: LintStats, item: Json, field: string, key: string): Outcome<LintStats> {
    match Contains(item, field)
    case Raised => Raised
    case Ok(present) =>
      if !present then Ok(stats)
      else match Subscript(item, field)
        case Raised => Raised
        case Ok(v) =>
          match Num(v)
          case None => Raised
          case Some(n) => Ok(Bump(stats, JStr(key), n))
  }

  /** The tally of one lint item. */
  function ItemStep(stats: LintStats, lang: string, item: Json): Outcome<LintStats> {
    if lang == "javascript" then
      match AddCount(stats, item, "errorCount", "error")
      case Raised => Raised
      case Ok(s) => AddCount(s, item, "warningCount", "warning")
    else
      match Subscript(item, RuleField(lang))
      case Raised => Raised
      case Ok(v) => if Hashable(v) then Ok(Bump(stats, v, 1.0)) else Raised
  }

  /** The items of one file, in order; the first item that raises ends the
      whole analysis. */
  function ItemsTally(stats: LintStats, lang: string, items: seq<Json>): Outcome<LintStats>
    decreases |items|
  {
    if items == [] then Ok(stats)
    else match ItemStep(stats, lang, items[0])
      case Raised => Raised
      case Ok(s) => ItemsTally(s, lang, items[1..])
  }

  /** The tally of one entry: None and empty records are skipped, a missing
      `language` or a non-dict `analysis` raises, other languages and falsy
      lint results add nothing. */
  function RecordTally(stats: LintStats, e: Entry): Outcome<LintStats> {
    if e.None? || e.value == [] then Ok(stats)
    else match Field(e, "language")
      case Raised => Raised
      case Ok(lang) =>
        if !(lang.JStr? && lang.s in LintLanguages) then Ok(stats)
        else match Field(e, "analysis")
          case Raised => Raised
          case Ok(a) =>
            match GetOr(a, "lint_results", JNull)
            case Raised => Raised
            case Ok(lint) =>
              if !Truthy(lint) then Ok(stats)
              else match Iter(lint)
                case Raised => Raised
                case Ok(items) => ItemsTally(stats, lang.s, items)
  }

  /** The tally over a sequence of entries. */
  function LintTally(stats: LintStats, es: seq<Entry>): Outcome<LintStats>
    decreases |es|
  {
    if es == [] then Ok(stats)
    else match RecordTally(stats, es[0])
      case Raised => Raised
      case Ok(s) => LintTally(s, es[1..])
  }

  /** `analyze_lint_results`: the tally over every entry of every module. */
  method AnalyzeLintResults(cb: CodebaseData) returns (r: Outcome<LintStats>)
    ensures r == LintTally(map[], AllEntries(cb))
  {
    var stats: LintStats := map[];
    var i := 0;
    while i < |cb|
      invariant 0 <= i <= |cb|
      invariant LintTally(map[], AllEntries(cb)) == LintTally(stats, AllEntries(cb[i..]))
    {
      var entries := cb[i].1;
      assert AllEntries(cb[i..]) == entries[0..] + AllEntries(cb[i + 1..]) by {
        assert cb[i..][0] == cb[i] && cb[i..][1..] == cb[i + 1..];
        assert entries[0..] == entries;
      }
      var j := 0;
      while j < |entries|
        invariant 0 <= j <= |entries|
        invariant LintTally(map[], AllEntries(cb)) == LintTally(stats, entries[j..] + AllEntries(cb[i + 1..]))
      {
        var rest := entries[j..] + AllEntries(cb[i + 1..]);
        assert rest[0] == entries[j] && rest[1..] == entries[j + 1..] + AllEntries(cb[i + 1..]);
        var step := TallyRecord(stats, entries[j]);
        if step.Raised? {
          return Raised;
        }
        stats := step.value;
        j := j + 1;
      }
      assert entries[j..] + AllEntries(cb[i + 1..]) == AllEntries(cb[i + 1..]);
      i := i + 1;
    }
    r := Ok(stats);
  }

  /** The body of the entry loop of `analyze_lint_results`. */
  method TallyRecord(stats: LintStats, e: Entry) returns (r: Outcome<LintStats>)
    ensures r == RecordTally(stats, e)
  {
    if e.None? || e.value == [] {
      return Ok(stats);
    }
    var lang := Field(e, "language");
    if lang.Raised? {
      return Raised;
    }
    if !(lang.value.JStr? && lang.value.s in LintLanguages) {
      return Ok(stats);
    }
    var analysis := Field(e, "analysis");
    if analysis.Raised? {
      return Raised;
    }
    var lint := GetOr(analysis.value, "lint_results", JNull);
    if lint.Raised? {
      return Raised;
    }
    if !Truthy(lint.value) {
      return Ok(stats);
    }
    var items := Iter(lint.value);
    if items.Raised? {
      return Raised;
    }
    r := TallyItems(stats, lang.value.s, items.value);
  }

  /** The item loop of `analyze_lint_results`. */
  method TallyItems(stats: LintStats, lang: string, items: seq<Json>) returns (r: Outcome<LintStats>)
    ensures r == ItemsTally(stats, lang, items)
  {
    var cur := stats;
    var k := 0;
    while k < |items|
      invariant 0 <= k <= |items|
      invariant ItemsTally(stats, lang, items) == ItemsTally(cur, lang, items[k..])
    {
      assert items[k..][0] == items[k] && items[k..][1..] == items[k + 1..];
      var step := ItemStep(cur, lang, items[k]);
      if step.Raised? {
        return Raised;
      }
      cur := step.value;
      k := k + 1;
    }
    r := Ok(cur);
  }

  /** Whether an item can be tallied: the counting linters need a dict with
      a hashable violation type; eslint needs each count it has to be a
      number. */
  predicate ItemOk(lang: string, item: Json) {
    if lang == "javascript" then CountOk(item, "errorCount") && CountOk(item, "warningCount")
    else
      var v := Subscript(item, RuleField(lang));
      v.Ok? && Hashable(v.value)
  }

  predicate CountOk(item: Json, field: string) {
    match Contains(item, field)
    case Raised => false
    case Ok(present) => present ==> Subscript(item, field).Ok? && Num(Subscript(item, field).value).Some?
  }

  lemma ItemStepRaises(stats: LintStats, lang: string, item: Json)
    ensures ItemStep(stats, lang, item).Raised? <==> !ItemOk(lang, item)
  {
    if lang == "javascript" {
      match AddCount(stats, item, "errorCount", "error")
      case Raised =>
      case Ok(s) =>
    }
  }

  /** A file's lint items raise exactly when one of them cannot be tallied,
      whatever the tally so far. */
  lemma {:induction false} ItemsTallyRaises(stats: LintStats, lang: string, items: seq<Json>)
    ensures ItemsTally(stats, lang, items).Raised? <==> exists i :: 0 <= i < |items| && !ItemOk(lang, items[i])
    decreases |items|
  {
    if items != [] {
      ItemStepRaises(stats, lang, items[0]);
      match ItemStep(stats, lang, items[0])
      case Raised =>
      case Ok(s) =>
        ItemsTallyRaises(s, lang, items[1..]);
        assert forall i :: 1 <= i < |items| ==> items[i] == items[1..][i - 1];
    }
  }

  /** The number of items whose violation type is `k`. */
  function Occurrences(items: seq<Json>, field: string, k: Json): nat {
    if items == [] then 0
    else (if Subscript(items[0], field) == Ok(k) then 1 else 0) + Occurrences(items[1..], field, k)
  }

  /** pylint, stylelint and tslint: each item adds one under its violation
      type, so a type's count grows by the number of items of that type. */
  lemma {:induction false} RuleCounts(stats: LintStats, lang: string, items: seq<Json>, k: Json)
    requires lang in {"python", "css", "typescript"}
    requires forall i :: 0 <= i < |items| ==> ItemOk(lang, items[i])
    ensures ItemsTally(stats, lang, items).Ok?
    ensures Count(ItemsTally(stats, lang, items).value, k) == Count(stats, k) + Occurrences(items, RuleField(lang), k) as real
    decreases |items|
  {
    if items != [] {
      var v := Subscript(items[0], RuleField(lang)).value;
      var s := Bump(stats, v, 1.0);
      assert ItemStep(stats, lang, items[0]) == Ok(s);
      assert forall i :: 0 <= i < |items| - 1 ==> items[1..][i] == items[i + 1];
      RuleCounts(s, lang, items[1..], k);
    }
  }

  /** The amount an eslint item adds under `field`. */
  function Amount(item: Json, field: string): real {
    if Contains(item, field) == Ok(true) && Subscript(item, field).Ok? && Num(Subscript(item, field).value).Some?
    then Num(Subscript(item, field).value).value
    else 0.0
  }

  function Sum(items: seq<Json>, field: string): real {
    if items == [] then 0.0 else Amount(items[0], field) + Sum(items[1..], field)
  }

  /** eslint: "error" grows by the sum of the items' `errorCount`s,
      "warning" by the sum of their `warningCount`s, and no other type
      changes. */
  lemma {:induction false} EslintSums(stats: LintStats, items: seq<Json>)
    requires forall i :: 0 <= i < |items| ==> ItemOk("javascript", items[i])
    ensures ItemsTally(stats, "javascript", items).Ok?
    ensures var r := ItemsTally(stats, "javascript", items).value;
      && Count(r, JStr("error")) == Count(stats, JStr("error")) + Sum(items, "errorCount")
      && Count(r, JStr("warning")) == Count(stats, JStr("warning")) + Sum(items, "warningCount")
      && forall k :: k != JStr("error") && k != JStr("warning") ==> Count(r, k) == Count(stats, k)
    decreases |items|
  {
    if items != [] {
      var item := items[0];
      var s1 := if Amount(item, "errorCount") != 0.0 || Contains(item, "errorCount") == Ok(true)
        then Bump(stats, JStr("error"), Amount(item, "errorCount")) else stats;
      assert AddCount(stats, item, "errorCount", "error") == Ok(s1);
      var s2 := if Contains(item, "warningCount") == Ok(true)
        then Bump(s1, JStr("warning"), Amount(item, "warningCount")) else s1;
      assert AddCount(s1, item, "warningCount", "warning") == Ok(s2);
      assert ItemStep(stats, "javascript", item) == Ok(s2);
      assert forall i :: 0 <= i < |items| - 1 ==> items[1..][i] == items[i + 1];
      EslintSums(s2, items[1..]);
    }
  }

  /** Entries that are skipped, of another language, or without lint
      results leave the tally unchanged. */
  lemma RecordTallyNoLint(stats: LintStats, e: Entry)
    requires e.Some? && e.value != []
    requires Field(e, "language").Ok?
    requires var lang := Field(e, "language").value;
      !(lang.JStr? && lang.s in LintLanguages)
      || (Field(e, "analysis").Ok? && Field(e, "analysis").value.JObj?
          && !Truthy(GetOr(Field(e, "analysis").value, "lint_results", JNull).value))
    ensures RecordTally(stats, e) == Ok(stats)
  {
  }

  /** The tally over two runs of entries is the tally of the second run
      started from the first's result. */
  lemma {:induction false} LintTallyAppend(stats: LintStats, a: seq<Entry>, b: seq<Entry>)
    ensures LintTally(stats, a + b) ==
      match LintTally(stats, a) case Raised => Raised case Ok(s) => LintTally(s, b)
    decreases |a|
  {
    if a == [] {
      assert a + b == b;
    } else {
      assert (a + b)[0] == a[0] && (a + b)[1..] == a[1..] + b;
      match RecordTally(stats, a[0])
      case Raised =>
      case Ok(s) => LintTallyAppend(s, a[1..], b);
    }
  }

  // ---- Skipped files ------------------------------------------------------

  /** `count_skipped_files`: the number of None entries over all modules. */
  method CountSkippedFiles(cb: CodebaseData) returns (skipped: nat)
    ensures skipped == multiset(AllEntries(cb))[None]
  {
    skipped := 0;
    var i := 0;
    while i < |cb|
      invariant 0 <= i <= |cb|
      invariant skipped == multiset(AllEntries(cb[..i]))[None]
    {
      var entries := cb[i].1;
      var j := 0;
      assert AllEntries(cb[..i]) + entries[..j] == AllEntries(cb[..i]);
      while j < |entries|
        invariant 0 <= j <= |entries|
        invariant skipped == multiset(AllEntries(cb[..i]) + entries[..j])[None]
      {
        assert AllEntries(cb[..i]) + entries[..j + 1] == (AllEntries(cb[..i]) + entries[..j]) + [entries[j]];
        if entries[j].None? {
          skipped := skipped + 1;
        }
        j := j + 1;
      }
      AllEntriesAppend(cb[..i], cb[i]);
      assert cb[..i + 1] == cb[..i] + [cb[i]];
      assert entries[..j] == entries;
      i := i + 1;
    }
    assert cb[..i] == cb;
  }
}
