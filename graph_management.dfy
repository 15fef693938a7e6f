/** Import resolution and the dependency graph. */
module GraphManagement {
  import opened Wrappers
  import opened Strs
  import opened Paths
  import opened PyJson
  import opened Codebase
  import opened DiGraphs

  /** The seventeen fixed extensions tried for an import, in order. */
  const FixedExtensions: seq<string> := [
    ".py", ".js", ".ts", ".jsx", ".vue", ".scss", ".css", ".sass", ".html", ".tsx", ".xml",
    ".php", ".c", ".cpp", ".hpp", ".go", ".rs"
  ]

  /** The candidate paths of an import: the dotted name with every "." made a
      "/", followed by each fixed extension and then the importer's own
      suffix. */
  function Candidates(spec: string, fileExt: string): (r: seq<string>)
    ensures |r| == |FixedExtensions| + 1
    ensures forall k :: 0 <= k < |FixedExtensions| ==> r[k] == ReplaceChar(spec, '.', '/') + FixedExtensions[k]
    ensures r[|FixedExtensions|] == ReplaceChar(spec, '.', '/') + fileExt
    ensures forall k :: 0 <= k < |r| ==> StartsWith(r[k], ReplaceChar(spec, '.', '/'))
  {
    var base := ReplaceChar(spec, '.', '/');
    var exts := FixedExtensions + [fileExt];
    seq(|exts|, k requires 0 <= k < |exts| => base + exts[k])
  }

  /** `any(p.endswith(c) for c in candidates)`. */
  predicate Matches(p: string, candidates: seq<string>) {
    exists k :: 0 <= k < |candidates| && EndsWith(p, candidates[k])
  }

  /** A record the search looks at and passes over: its path is a string that
      matches no candidate. */
  predicate PassedOver(e: Entry, candidates: seq<string>) {
    PathOf(e).Some? && !Matches(PathOf(e).value, candidates)
  }

  /** Record `i` is the first one the search does not pass over, and its
      path is the string `p`, which matches. */
  predicate FoundAt(es: seq<Entry>, candidates: seq<string>, p: string) {
    exists i :: 0 <= i < |es| && PathOf(es[i]) == Some(p) && Matches(p, candidates)
                && forall j :: 0 <= j < i ==> PassedOver(es[j], candidates)
  }

  /** The first record the search does not pass over has no string path. */
  predicate RaisesAt(es: seq<Entry>, candidates: seq<string>) {
    exists i :: 0 <= i < |es| && PathOf(es[i]).None?
                && forall j :: 0 <= j < i ==> PassedOver(es[j], candidates)
  }

  lemma FoundAtShift(es: seq<Entry>, candidates: seq<string>, p: string)
    requires es != [] && PassedOver(es[0], candidates) && FoundAt(es[1..], candidates, p)
    ensures FoundAt(es, candidates, p)
  {
    var i :| 0 <= i < |es[1..]| && PathOf(es[1..][i]) == Some(p) && Matches(p, candidates)
             && forall j :: 0 <= j < i ==> PassedOver(es[1..][j], candidates);
    assert PathOf(es[i + 1]) == Some(p);
    assert forall j :: 0 <= j < i + 1 ==> PassedOver(es[j], candidates) by {
      forall j | 0 <= j < i + 1
        ensures PassedOver(es[j], candidates)
      {
        if j > 0 {
          assert es[j] == es[1..][j - 1];
        }
      }
    }
  }

  lemma RaisesAtShift(es: seq<Entry>, candidates: seq<string>)
    requires es != [] && PassedOver(es[0], candidates) && RaisesAt(es[1..], candidates)
    ensures RaisesAt(es, candidates)
  {
    var i :| 0 <= i < |es[1..]| && PathOf(es[1..][i]).None?
             && forall j :: 0 <= j < i ==> PassedOver(es[1..][j], candidates);
    assert PathOf(es[i + 1]).None?;
    assert forall j :: 0 <= j < i + 1 ==> PassedOver(es[j], candidates) by {
      forall j | 0 <= j < i + 1
        ensures PassedOver(es[j], candidates)
      {
        if j > 0 {
          assert es[j] == es[1..][j - 1];
        }
      }
    }
  }

  /** The search loop over one list of records: the path of the first record
      whose path matches; None after the whole list; it raises at a None
      entry or one whose `file_path` is missing or not a string. */
  function SearchFirst(es: seq<Entry>, candidates: seq<string>): (r: Outcome<Option<string>>)
    ensures r.Ok? && r.value.Some? ==> FoundAt(es, candidates, r.value.value)
    ensures r == Ok(None) <==> forall j :: 0 <= j < |es| ==> PassedOver(es[j], candidates)
    ensures r == Raised ==> RaisesAt(es, candidates)
  {
    if es == [] then Ok(None)
    else
      match PathOf(es[0])
      case None => Raised
      case Some(p) =>
        if Matches(p, candidates) then Ok(Some(p))
        else
          var r := SearchFirst(es[1..], candidates);
          assert forall j :: 0 <= j < |es| - 1 ==> es[1..][j] == es[j + 1];
          if r.Ok? && r.value.Some? then
            FoundAtShift(es, candidates, r.value.value);
            r
          else if r == Raised then
            RaisesAtShift(es, candidates);
            r
          else r
  }

  /** The search finds the first matching record when every record before it
      is passed over. */
  lemma {:induction false} SearchFirstFinds(es: seq<Entry>, candidates: seq<string>, i: nat)
    requires i < |es| && PathOf(es[i]).Some? && Matches(PathOf(es[i]).value, candidates)
    requires forall j :: 0 <= j < i ==> PassedOver(es[j], candidates)
    ensures SearchFirst(es, candidates) == Ok(PathOf(es[i]))
  {
    if i > 0 {
      assert PassedOver(es[0], candidates);
      assert forall j :: 0 <= j < i - 1 ==> es[1..][j] == es[j + 1];
      SearchFirstFinds(es[1..], candidates, i - 1);
    }
  }

  /** `resolve_import`: the same-directory records first, then every module
      in iteration order; raises when the import is not a string or the
      search meets a bad record. */
  function ResolveImport(spec: Json, filePath: string, cb: CodebaseData): (r: Outcome<Option<string>>)
    ensures !spec.JStr? ==> r == Raised
    ensures r.Ok? && r.value.Some? ==>
      && Matches(r.value.value, Candidates(spec.s, Suffix(filePath)))
      && exists e :: e in AllEntries(cb) && PathOf(e) == r.value
    ensures r == Ok(None) ==>
      forall e :: e in AllEntries(cb) ==> PassedOver(e, Candidates(spec.s, Suffix(filePath)))
  {
    if !spec.JStr? then Raised
    else
      var candidates := Candidates(spec.s, Suffix(filePath));
      var local := ModuleEntries(cb, Parent(filePath));
      match SearchFirst(local, candidates)
      case Raised => Raised
      case Ok(Some(p)) =>
        var i :| 0 <= i < |local| && PathOf(local[i]) == Some(p);
        var m :| 0 <= m < |cb| && cb[m] == (Parent(filePath), local);
        ModuleEntryInAll(cb, m, i);
        Ok(Some(p))
      case Ok(None) =>
        var r := SearchFirst(AllEntries(cb), candidates);
        assert forall e :: e in AllEntries(cb) ==> exists j :: 0 <= j < |AllEntries(cb)| && AllEntries(cb)[j] == e;
        r
  }

  /** A match in the importer's own directory wins over every other module,
      whatever they hold. */
  lemma SameDirectoryFirst(spec: string, filePath: string, cb: CodebaseData, i: nat)
    requires i < |ModuleEntries(cb, Parent(filePath))|
    requires
      var local := ModuleEntries(cb, Parent(filePath));
      var candidates := Candidates(spec, Suffix(filePath));
      PathOf(local[i]).Some? && Matches(PathOf(local[i]).value, candidates) &&
      forall j :: 0 <= j < i ==> PassedOver(local[j], candidates)
    ensures ResolveImport(JStr(spec), filePath, cb) == Ok(PathOf(ModuleEntries(cb, Parent(filePath))[i]))
  {
    SearchFirstFinds(ModuleEntries(cb, Parent(filePath)), Candidates(spec, Suffix(filePath)), i);
  }

  /** When nothing in the importer's directory matches, the first match over
      all modules, in order, is the answer. */
  lemma GlobalSearchSecond(spec: string, filePath: string, cb: CodebaseData, i: nat)
    requires forall e :: e in ModuleEntries(cb, Parent(filePath)) ==> PassedOver(e, Candidates(spec, Suffix(filePath)))
    requires i < |AllEntries(cb)|
    requires
      var all := AllEntries(cb);
      var candidates := Candidates(spec, Suffix(filePath));
      PathOf(all[i]).Some? && Matches(PathOf(all[i]).value, candidates) &&
      forall j :: 0 <= j < i ==> PassedOver(all[j], candidates)
    ensures ResolveImport(JStr(spec), filePath, cb) == Ok(PathOf(AllEntries(cb)[i]))
  {
    var local := ModuleEntries(cb, Parent(filePath));
    var candidates := Candidates(spec, Suffix(filePath));
    assert forall j :: 0 <= j < |local| ==> PassedOver(local[j], candidates) by {
      forall j | 0 <= j < |local| ensures PassedOver(local[j], candidates) {
        assert local[j] in local;
      }
    }
    assert SearchFirst(local, candidates) == Ok(None);
    assert ResolveImport(JStr(spec), filePath, cb) == SearchFirst(AllEntries(cb), candidates);
    SearchFirstFinds(AllEntries(cb), candidates, i);
  }

  /** When no record of any module matches, the import resolves to None:
      with `ResolveImport`'s own contract, None is returned exactly when
      every record is passed over. */
  lemma NothingMatchesGivesNone(spec: string, filePath: string, cb: CodebaseData)
    requires forall e :: e in AllEntries(cb) ==> PassedOver(e, Candidates(spec, Suffix(filePath)))
    ensures ResolveImport(JStr(spec), filePath, cb) == Ok(None)
  {
    var local := ModuleEntries(cb, Parent(filePath));
    var candidates := Candidates(spec, Suffix(filePath));
    forall j | 0 <= j < |local|
      ensures PassedOver(local[j], candidates)
    {
      var m :| 0 <= m < |cb| && cb[m] == (Parent(filePath), local);
      ModuleEntryInAll(cb, m, j);
    }
    var all := AllEntries(cb);
    assert forall j :: 0 <= j < |all| ==> PassedOver(all[j], candidates) by {
      forall j | 0 <= j < |all| ensures PassedOver(all[j], candidates) {
        assert all[j] in all;
      }
    }
  }

  // ---- The dependency graph ----------------------------------------------

  /** The languages whose imports become edges. */
  const EdgeLanguages: seq<Json> := [JStr("python"), JStr("javascript"), JStr("typescript")]

  /** The resolution of each import of a record, in order. */
  function Resolutions(specs: seq<Json>, fp: string, cb: CodebaseData): (rs: seq<Outcome<Option<string>>>)
    ensures |rs| == |specs|
    ensures forall k :: 0 <= k < |specs| ==> rs[k] == ResolveImport(specs[k], fp, cb)
  {
    seq(|specs|, k requires 0 <= k < |specs| => ResolveImport(specs[k], fp, cb))
  }

  /** The import loop of one record, given the resolution of each import: an
      edge from `fp` to each import that resolves to a non-empty path, in
      order, stopping at the first resolution that raises. */
  function ImportEdges(g: Graph, fp: string, rs: seq<Outcome<Option<string>>>): Graph
    decreases |rs|
  {
    if rs == [] then g
    else
      match rs[0]
      case Raised => g
      case Ok(res) =>
        var g' := if res.Some? && res.value != "" then g.WithEdge(fp, res.value) else g;
        ImportEdges(g', fp, rs[1..])
  }

  /** The body of the `try` for one record: its node with its language, then
      its import edges when the language is one of the three; a failed
      lookup stops the record where it happens. */
  function RecordStep(g: Graph, e: Entry, cb: CodebaseData): Graph {
    match PathOf(e)
    case None => g
    case Some(fp) =>
      match Field(e, "language")
      case Raised => g
      case Ok(lang) =>
        var withNode := g.WithNode(fp, lang);
        if lang !in EdgeLanguages then withNode
        else
          match Field2(e, "analysis", "imports")
          case Raised => withNode
          case Ok(imports) =>
            match Iter(imports)
            case Raised => withNode
            case Ok(specs) => ImportEdges(withNode, fp, Resolutions(specs, fp, cb))
  }

  /** The import loop only adds: no node, attribute or edge is lost, and
      every edge it adds leaves `fp`. */
  lemma {:induction false} ImportEdgesGrows(g: Graph, fp: string, rs: seq<Outcome<Option<string>>>)
    ensures var r := ImportEdges(g, fp, rs);
      && r.nodes.Keys >= g.nodes.Keys && r.edges >= g.edges
      && (forall n :: n in g.nodes ==> r.nodes[n] == g.nodes[n])
      && (forall u, v :: (u, v) in r.edges - g.edges ==> u == fp)
      && (g.Closed() ==> r.Closed())
    decreases |rs|
  {
    if rs != [] {
      match rs[0]
      case Raised =>
      case Ok(res) =>
        var g' := if res.Some? && res.value != "" then g.WithEdge(fp, res.value) else g;
        ImportEdgesGrows(g', fp, rs[1..]);
    }
  }

  /** One record only adds to the graph, gives its own path its language as
      attribute when both lookups succeed, and adds edges leaving its path
      only. */
  lemma RecordStepGrows(g: Graph, e: Entry, cb: CodebaseData)
    ensures var r := RecordStep(g, e, cb);
      && r.nodes.Keys >= g.nodes.Keys && r.edges >= g.edges
      && (g.Closed() ==> r.Closed())
      && (forall u, v :: (u, v) in r.edges - g.edges ==> PathOf(e) == Some(u))
      && (PathOf(e).Some? && Field(e, "language").Ok? ==>
            PathOf(e).value in r.nodes && r.nodes[PathOf(e).value] == Some(Field(e, "language").value))
  {
    match PathOf(e)
    case None =>
    case Some(fp) =>
      match Field(e, "language")
      case Raised =>
      case Ok(lang) =>
        var withNode := g.WithNode(fp, lang);
        if lang in EdgeLanguages {
          match Field2(e, "analysis", "imports")
          case Raised =>
          case Ok(imports) =>
            match Iter(imports)
            case Raised =>
            case Ok(specs) => ImportEdgesGrows(withNode, fp, Resolutions(specs, fp, cb));
        }
  }

  /** The graph after the records `es`, in order. */
  function DepGraph(es: seq<Entry>, cb: CodebaseData): Graph {
    if es == [] then Empty else RecordStep(DepGraph(es[..|es| - 1], cb), es[|es| - 1], cb)
  }

  /** A resolution that yields the edge to `v`. */
  predicate ResolvesTo(res: Outcome<Option<string>>, v: string) {
    res == Ok(Some(v)) && v != ""
  }

  /** Every edge the import loop adds leaves `fp` and comes from one of the
      resolutions. */
  lemma {:induction false} ImportEdgesSound(g: Graph, fp: string, rs: seq<Outcome<Option<string>>>, u: string, v: string)
    requires (u, v) in ImportEdges(g, fp, rs).edges && (u, v) !in g.edges
    ensures u == fp && exists k :: 0 <= k < |rs| && ResolvesTo(rs[k], v)
    decreases |rs|
  {
    match rs[0]
    case Raised =>
    case Ok(res) =>
      var g' := if res.Some? && res.value != "" then g.WithEdge(fp, res.value) else g;
      if (u, v) in g'.edges {
        assert u == fp && ResolvesTo(rs[0], v);
      } else {
        ImportEdgesSound(g', fp, rs[1..], u, v);
        var k :| 0 <= k < |rs[1..]| && ResolvesTo(rs[1..][k], v);
        assert rs[1..][k] == rs[k + 1];
      }
  }

  /** Every import up to the first one that raises gets its edge. */
  lemma {:induction false} ImportEdgesComplete(g: Graph, fp: string, rs: seq<Outcome<Option<string>>>, k: nat, v: string)
    requires k < |rs| && ResolvesTo(rs[k], v)
    requires forall j :: 0 <= j < k ==> rs[j].Ok?
    ensures (fp, v) in ImportEdges(g, fp, rs).edges
    decreases |rs|
  {
    var res := rs[0].value;
    var g' := if res.Some? && res.value != "" then g.WithEdge(fp, res.value) else g;
    ImportEdgesGrows(g', fp, rs[1..]);
    if k > 0 {
      assert forall j :: 0 <= j < k - 1 ==> rs[1..][j] == rs[j + 1];
      ImportEdgesComplete(g', fp, rs[1..], k - 1, v);
    }
  }

  /** The import loop stops at the first import whose resolution raises:
      the imports after it add nothing. */
  lemma {:induction false} ImportEdgesStop(g: Graph, fp: string, rs: seq<Outcome<Option<string>>>, k: nat)
    requires k < |rs| && rs[k].Raised?
    ensures ImportEdges(g, fp, rs) == ImportEdges(g, fp, rs[..k])
    decreases |rs|
  {
    if k > 0 {
      match rs[0]
      case Raised =>
      case Ok(res) =>
        var g' := if res.Some? && res.value != "" then g.WithEdge(fp, res.value) else g;
        assert rs[1..][k - 1] == rs[k];
        ImportEdgesStop(g', fp, rs[1..], k - 1);
        assert rs[..k][1..] == rs[1..][..k - 1];
    }
  }

  /** Record `e` declares the edge `u -> v`: it is a python, javascript or
      typescript record with path `u`, and one of its imports resolves to `v`. */
  predicate Declares(e: Entry, cb: CodebaseData, u: string, v: string) {
    && PathOf(e) == Some(u)
    && Field(e, "language").Ok? && Field(e, "language").value in EdgeLanguages
    && Field2(e, "analysis", "imports").Ok?
    && Iter(Field2(e, "analysis", "imports").value).Ok?
    && var specs := Iter(Field2(e, "analysis", "imports").value).value;
       exists k :: 0 <= k < |specs| && ResolvesTo(ResolveImport(specs[k], u, cb), v)
  }

  /** The graph of a prefix of the records is part of the whole graph. */
  lemma {:induction false} DepGraphPrefix(es: seq<Entry>, cb: CodebaseData, n: nat)
    requires n <= |es|
    ensures DepGraph(es[..n], cb).nodes.Keys <= DepGraph(es, cb).nodes.Keys
    ensures DepGraph(es[..n], cb).edges <= DepGraph(es, cb).edges
    decreases |es|
  {
    if n < |es| {
      var init := es[..|es| - 1];
      assert init[..n] == es[..n];
      DepGraphPrefix(init, cb, n);
      RecordStepGrows(DepGraph(init, cb), es[|es| - 1], cb);
    } else {
      assert es[..n] == es;
    }
  }

  /** Every record with a string path and a language becomes a node, whether
      or not it has imports or later lookups fail. */
  lemma EveryRecordIsNode(es: seq<Entry>, cb: CodebaseData, i: nat)
    requires i < |es| && PathOf(es[i]).Some? && Field(es[i], "language").Ok?
    ensures PathOf(es[i]).value in DepGraph(es, cb).nodes
  {
    assert es[..i + 1][..i] == es[..i];
    RecordStepGrows(DepGraph(es[..i], cb), es[i], cb);
    DepGraphPrefix(es, cb, i + 1);
  }

  /** A record relabels no node but its own, and its own only when its
      language can be read: the edges it adds keep existing attributes. */
  lemma RecordStepKeepsLabels(g: Graph, e: Entry, cb: CodebaseData, n: string)
    requires n in g.nodes
    requires !(PathOf(e) == Some(n) && Field(e, "language").Ok?)
    ensures n in RecordStep(g, e, cb).nodes && RecordStep(g, e, cb).nodes[n] == g.nodes[n]
  {
    match PathOf(e)
    case None =>
    case Some(fp) =>
      match Field(e, "language")
      case Raised =>
      case Ok(lang) =>
        var withNode := g.WithNode(fp, lang);
        if lang in EdgeLanguages {
          match Field2(e, "analysis", "imports")
          case Raised =>
          case Ok(imports) =>
            match Iter(imports)
            case Raised =>
            case Ok(specs) => ImportEdgesGrows(withNode, fp, Resolutions(specs, fp, cb));
        }
  }

  /** A record's node carries that record's language, unless a later record
      with the same path relabels it. */
  lemma {:induction false} NodeLanguage(es: seq<Entry>, cb: CodebaseData, i: nat)
    requires i < |es| && PathOf(es[i]).Some? && Field(es[i], "language").Ok?
    requires forall j :: i < j < |es| && PathOf(es[j]) == PathOf(es[i]) ==> !Field(es[j], "language").Ok?
    ensures PathOf(es[i]).value in DepGraph(es, cb).nodes
    ensures DepGraph(es, cb).nodes[PathOf(es[i]).value] == Some(Field(es[i], "language").value)
  {
    var init := es[..|es| - 1];
    if i == |es| - 1 {
      RecordStepGrows(DepGraph(init, cb), es[i], cb);
    } else {
      assert forall j :: 0 <= j < |init| ==> init[j] == es[j];
      NodeLanguage(init, cb, i);
      RecordStepKeepsLabels(DepGraph(init, cb), es[|es| - 1], cb, PathOf(es[i]).value);
    }
  }

  /** A record that adds an edge got through every lookup to its import
      loop. */
  lemma RecordStepAddsImports(g: Graph, e: Entry, cb: CodebaseData, u: string, v: string)
    requires (u, v) in RecordStep(g, e, cb).edges && (u, v) !in g.edges
    ensures PathOf(e).Some? && Field(e, "language").Ok? && Field(e, "language").value in EdgeLanguages
    ensures Field2(e, "analysis", "imports").Ok? && Iter(Field2(e, "analysis", "imports").value).Ok?
    ensures RecordStep(g, e, cb)
         == ImportEdges(g.WithNode(PathOf(e).value, Field(e, "language").value), PathOf(e).value,
                        Resolutions(Iter(Field2(e, "analysis", "imports").value).value, PathOf(e).value, cb))
  {
  }

  /** An edge one record adds is declared by that record. */
  lemma RecordStepSound(g: Graph, e: Entry, cb: CodebaseData, u: string, v: string)
    requires (u, v) in RecordStep(g, e, cb).edges && (u, v) !in g.edges
    ensures Declares(e, cb, u, v)
  {
    RecordStepAddsImports(g, e, cb, u, v);
    var fp := PathOf(e).value;
    var lang := Field(e, "language").value;
    var specs := Iter(Field2(e, "analysis", "imports").value).value;
    var rs := Resolutions(specs, fp, cb);
    ImportEdgesSound(g.WithNode(fp, lang), fp, rs, u, v);
    var k :| 0 <= k < |rs| && ResolvesTo(rs[k], v);
    assert ResolvesTo(ResolveImport(specs[k], u, cb), v);
  }

  /** Every edge of the graph is declared by some record. */
  lemma {:induction false} EdgesSound(es: seq<Entry>, cb: CodebaseData, u: string, v: string)
    requires (u, v) in DepGraph(es, cb).edges
    ensures exists i :: 0 <= i < |es| && Declares(es[i], cb, u, v)
  {
    var init := es[..|es| - 1];
    var g := DepGraph(init, cb);
    if (u, v) in g.edges {
      EdgesSound(init, cb, u, v);
      var i :| 0 <= i < |init| && Declares(init[i], cb, u, v);
      assert init[i] == es[i];
    } else {
      RecordStepSound(g, es[|es| - 1], cb, u, v);
    }
  }

  /** A record adds its declared edge when no import before it raised. */
  lemma RecordStepComplete(g: Graph, e: Entry, cb: CodebaseData, k: nat, v: string)
    requires PathOf(e).Some?
    requires Field(e, "language").Ok? && Field(e, "language").value in EdgeLanguages
    requires Field2(e, "analysis", "imports").Ok? && Iter(Field2(e, "analysis", "imports").value).Ok?
    requires
      var specs := Iter(Field2(e, "analysis", "imports").value).value;
      k < |specs| && ResolvesTo(ResolveImport(specs[k], PathOf(e).value, cb), v) &&
      forall j :: 0 <= j < k ==> ResolveImport(specs[j], PathOf(e).value, cb).Ok?
    ensures (PathOf(e).value, v) in RecordStep(g, e, cb).edges
  {
    var fp := PathOf(e).value;
    var specs := Iter(Field2(e, "analysis", "imports").value).value;
    var withNode := g.WithNode(fp, Field(e, "language").value);
    assert RecordStep(g, e, cb) == ImportEdges(withNode, fp, Resolutions(specs, fp, cb));
    ImportEdgesComplete(withNode, fp, Resolutions(specs, fp, cb), k, v);
  }

  /** A record's declared edge is in the graph when no import before it
      raised, whatever the other records hold (a failure in one record does
      not stop later ones). */
  lemma EdgesComplete(es: seq<Entry>, cb: CodebaseData, i: nat, k: nat, v: string)
    requires i < |es| && PathOf(es[i]).Some?
    requires Field(es[i], "language").Ok? && Field(es[i], "language").value in EdgeLanguages
    requires Field2(es[i], "analysis", "imports").Ok? && Iter(Field2(es[i], "analysis", "imports").value).Ok?
    requires
      var specs := Iter(Field2(es[i], "analysis", "imports").value).value;
      k < |specs| && ResolvesTo(ResolveImport(specs[k], PathOf(es[i]).value, cb), v) &&
      forall j :: 0 <= j < k ==> ResolveImport(specs[j], PathOf(es[i]).value, cb).Ok?
    ensures (PathOf(es[i]).value, v) in DepGraph(es, cb).edges
  {
    DepGraphNext(es, cb, i);
    RecordStepComplete(DepGraph(es[..i], cb), es[i], cb, k, v);
    DepGraphPrefix(es, cb, i + 1);
  }

  /** The graph of one more record is one more step. */
  lemma DepGraphNext(es: seq<Entry>, cb: CodebaseData, i: nat)
    requires i < |es|
    ensures DepGraph(es[..i + 1], cb) == RecordStep(DepGraph(es[..i], cb), es[i], cb)
  {
    assert es[..i + 1][..i] == es[..i];
  }

  /** The graph is closed: both ends of every edge are nodes. */
  lemma {:induction false} DepGraphClosed(es: seq<Entry>, cb: CodebaseData)
    ensures DepGraph(es, cb).Closed()
  {
    if es != [] {
      DepGraphClosed(es[..|es| - 1], cb);
      RecordStepGrows(DepGraph(es[..|es| - 1], cb), es[|es| - 1], cb);
    }
  }

  /** A record whose `analysis['imports']` lookup fails keeps its node and
      adds no edge. */
  lemma ImportsLookupFails(g: Graph, e: Entry, cb: CodebaseData)
    requires PathOf(e).Some? && Field(e, "language").Ok?
    requires Field2(e, "analysis", "imports").Raised?
    ensures RecordStep(g, e, cb) == g.WithNode(PathOf(e).value, Field(e, "language").value)
  {
  }

  /** `build_dependency_graph`. */
  method BuildDependencyGraph(cb: CodebaseData) returns (graph: DiGraph)
    ensures fresh(graph)
    ensures graph.Value() == DepGraph(AllEntries(cb), cb)
  {
    graph := new DiGraph();
    var i := 0;
    while i < |cb|
      invariant 0 <= i <= |cb|
      invariant graph.Value() == DepGraph(AllEntries(cb[..i]), cb)
    {
      AddModule(graph, AllEntries(cb[..i]), cb[i].1, cb);
      AllEntriesAppend(cb[..i], cb[i]);
      assert cb[..i + 1] == cb[..i] + [cb[i]];
      i := i + 1;
    }
    assert cb[..i] == cb;
  }

  /** One more record of a module is one more `RecordStep`. */
  lemma DepGraphStep(done: seq<Entry>, entries: seq<Entry>, j: nat, cb: CodebaseData)
    requires j < |entries|
    ensures DepGraph(done + entries[..j + 1], cb) == RecordStep(DepGraph(done + entries[..j], cb), entries[j], cb)
  {
    var prefix := done + entries[..j];
    assert (prefix + [entries[j]])[..|prefix|] == prefix;
    assert done + entries[..j + 1] == prefix + [entries[j]];
  }

  /** The inner loop of `build_dependency_graph`, over one module's records,
      after the records `done` have been added. */
  method AddModule(graph: DiGraph, ghost done: seq<Entry>, entries: seq<Entry>, cb: CodebaseData)
    requires graph.Value() == DepGraph(done, cb)
    modifies graph
    ensures graph.Value() == DepGraph(done + entries, cb)
  {
    var j := 0;
    assert done + entries[..j] == done;
    while j < |entries|
      invariant 0 <= j <= |entries|
      invariant graph.Value() == DepGraph(done + entries[..j], cb)
    {
      DepGraphStep(done, entries, j, cb);
      AddRecord(graph, entries[j], cb);
      j := j + 1;
    }
    assert entries[..j] == entries;
  }

  /** One pass of the record loop on the graph object. */
  method AddRecord(graph: DiGraph, e: Entry, cb: CodebaseData)
    modifies graph
    ensures graph.Value() == RecordStep(old(graph.Value()), e, cb)
  {
    var path := Field(e, "file_path");
    var lang := Field(e, "language");
    if !(path.Ok? && path.value.JStr? && lang.Ok?) {
      return;
    }
    var fp := path.value.s;
    graph.AddNode(fp, lang.value);
    if lang.value !in EdgeLanguages {
      return;
    }
    var imports := Field2(e, "analysis", "imports");
    if imports.Raised? {
      return;
    }
    var items := Iter(imports.value);
    if items.Raised? {
      return;
    }
    var specs := items.value;
    ghost var start := graph.Value();
    ghost var rs := Resolutions(specs, fp, cb);
    var k := 0;
    while k < |specs|
      invariant 0 <= k <= |specs|
      invariant ImportEdges(start, fp, rs) == ImportEdges(graph.Value(), fp, rs[k..])
    {
      var res := ResolveImport(specs[k], fp, cb);
      if res.Raised? {
        break;
      }
      assert rs[k..][1..] == rs[k + 1..];
      if res.value.Some? && res.value.value != "" {
        graph.AddEdge(fp, res.value.value);
      }
      k := k + 1;
    }
    assert k == |specs| ==> rs[k..] == [];
  }
}
