/** Small utilities: null-byte binary detection, the append-only JSONL
    output, the analysis cache and the two per-record metrics. */
module Utilities {
  import opened Wrappers
  import opened Strs
  import opened PyJson
  import opened Codebase

  newtype byte = x: int | 0 <= x < 256

  const ChunkSize: nat := 1024

  /** `is_binary`: reads the file in 1024-byte chunks, answers true at the
      first chunk holding a zero byte, stops after the first short chunk.
      `file` is the file's bytes, or None when opening it fails (the error is
      logged and the answer is false). */
  method IsBinary(file: Option<seq<byte>>) returns (r: bool)
    ensures r <==> file.Some? && 0 in file.value
  {
    if file.None? {
      return false;
    }
    var data := file.value;
    var pos := 0;
    while true
      invariant pos <= |data|
      invariant 0 !in data[..pos]
      decreases |data| - pos
    {
      var end := if pos + ChunkSize <= |data| then pos + ChunkSize else |data|;
      var chunk := data[pos..end];
      if 0 in chunk {
        var k :| 0 <= k < |chunk| && chunk[k] == 0;
        assert data[pos + k] == 0;
        return true;
      }
      assert data[..end] == data[..pos] + chunk;
      if |chunk| < ChunkSize {
        assert end == |data|;
        assert data[..end] == data;
        break;
      }
      pos := end;
    }
    return false;
  }

  /** `calculate_function_count`: `len(analysis['functions'])` when the
      language is exactly `Python` or `JavaScript`, 0 for any other language
      and whenever a lookup or `len` raises. */
  function FunctionCount(e: Entry): (r: nat)
    ensures r != 0 ==> Field(e, "language") == Ok(JStr("Python")) || Field(e, "language") == Ok(JStr("JavaScript"))
    ensures r != 0 ==> Field2(e, "analysis", "functions").Ok? && Len(Field2(e, "analysis", "functions").value) == Ok(r)
    ensures (Field(e, "language") == Ok(JStr("Python")) || Field(e, "language") == Ok(JStr("JavaScript")))
            && Field2(e, "analysis", "functions").Ok? && Len(Field2(e, "analysis", "functions").value).Ok?
            ==> r == Len(Field2(e, "analysis", "functions").value).value
  {
    match Field(e, "language")
    case Raised => 0
    case Ok(lang) =>
      if lang == JStr("Python") || lang == JStr("JavaScript") then
        match Field2(e, "analysis", "functions")
        case Raised => 0
        case Ok(fs) =>
          match Len(fs)
          case Raised => 0
          case Ok(n) => n
      else 0
  }

  /** The number of comments `len(analysis.get('comments', []))`, when it can
      be computed. */
  function CommentCount(e: Entry): (r: Outcome<nat>)
    ensures (Field(e, "analysis").Ok? && Field(e, "analysis").value.JObj? &&
             !HasKey(Field(e, "analysis").value.fields, "comments")) ==> r == Ok(0)
  {
    match Field(e, "analysis")
    case Raised => Raised
    case Ok(a) =>
      match GetOr(a, "comments", JArr([]))
      case Raised => Raised
      case Ok(cs) => Len(cs)
  }

  /** `calculate_comment_density`: comments per line of code, as a float
      when `loc > 0`, the int 0 otherwise and whenever a lookup, `len` or the
      comparison raises. */
  function CommentDensity(e: Entry): (r: Json)
    ensures r == JInt(0) || r.JReal?
    ensures r.JReal? <==>
      && Field2(e, "metadata", "loc").Ok?
      && Num(Field2(e, "metadata", "loc").value).Some?
      && Num(Field2(e, "metadata", "loc").value).value > 0.0
      && CommentCount(e).Ok?
    ensures r.JReal? ==> r.r >= 0.0 && r.r * Num(Field2(e, "metadata", "loc").value).value == CommentCount(e).value as real
  {
    match Field2(e, "metadata", "loc")
    case Raised => JInt(0)
    case Ok(loc) =>
      match CommentCount(e)
      case Raised => JInt(0)
      case Ok(count) =>
        match Num(loc)
        case None => JInt(0)
        case Some(n) => if n > 0.0 then JReal(count as real / n) else JInt(0)
  }

  // ---- The analysis cache -------------------------------------------------

  /** The stored hash: the digest of string content, None for None content;
      anything else makes `.encode` raise. */
  function HashOf(content: Json, md5: string -> string): Option<Json> {
    match content
    case JNull => Some(JNull)
    case JStr(s) => Some(JStr(md5(s)))
    case _ => None
  }

  /** The cache entry of one record, keyed by its path, or None when building
      it raises (a None entry, a missing key, content neither string nor None). */
  function CacheEntry(e: Entry, md5: string -> string): (r: Option<(string, Json)>)
    ensures r.Some? ==> PathOf(e) == Some(r.value.0)
  {
    match Field(e, "content")
    case Raised => None
    case Ok(content) =>
      match HashOf(content, md5)
      case None => None
      case Some(hash) =>
        match Field(e, "analysis")
        case Raised => None
        case Ok(analysis) =>
          match PathOf(e)
          case None => None
          case Some(p) =>
            Some((p, JObj([("hash", hash), ("analysis", analysis),
                           ("function_count", JInt(FunctionCount(e))),
                           ("comment_density", CommentDensity(e))])))
  }

  /** What an entry holds: the hash, the analysis and the two metrics, and
      which records yield one. */
  lemma CacheEntryShape(e: Entry, md5: string -> string)
    ensures CacheEntry(e, md5).Some? <==> (
      && PathOf(e).Some? && Field(e, "analysis").Ok?
      && Field(e, "content").Ok? && HashOf(Field(e, "content").value, md5).Some?)
    ensures CacheEntry(e, md5).Some? ==> (
      && CacheEntry(e, md5).value.1.JObj?
      && CacheEntry(e, md5).value.1.fields == [("hash", HashOf(Field(e, "content").value, md5).value),
                                              ("analysis", Field(e, "analysis").value),
                                              ("function_count", JInt(FunctionCount(e))),
                                              ("comment_density", CommentDensity(e))])
  {
  }

  /** One step of the cache loop: `cache[path] = entry`, or nothing. */
  function CacheStep(cache: Fields, e: Entry, md5: string -> string): Fields {
    match CacheEntry(e, md5)
    case None => cache
    case Some((p, v)) => SetKey(cache, p, v)
  }

  /** The cache built from `es` in order. */
  function CacheOf(es: seq<Entry>, md5: string -> string): Fields {
    if es == [] then [] else CacheStep(CacheOf(es[..|es| - 1], md5), es[|es| - 1], md5)
  }

  /** Record `e` yields a cache entry for path `p`. */
  predicate Hits(e: Entry, md5: string -> string, p: string) {
    CacheEntry(e, md5).Some? && CacheEntry(e, md5).value.0 == p
  }

  /** Some record of `es` yields a cache entry for path `p`. */
  predicate Cached(es: seq<Entry>, md5: string -> string, p: string) {
    es != [] && (Hits(es[|es| - 1], md5, p) || Cached(es[..|es| - 1], md5, p))
  }

  /** A path is cached exactly when some record with that path yields an
      entry. */
  lemma {:induction false} CacheKeys(es: seq<Entry>, md5: string -> string, p: string)
    ensures HasKey(CacheOf(es, md5), p) <==> Cached(es, md5, p)
  {
    if es != [] {
      var init := es[..|es| - 1];
      var last := es[|es| - 1];
      CacheKeys(init, md5, p);
      var c := CacheOf(init, md5);
      var entry := CacheEntry(last, md5);
      if entry.Some? {
        var q := entry.value.0;
        var v := entry.value.1;
        assert CacheOf(es, md5) == SetKey(c, q, v);
        if q != p {
          assert Lookup(SetKey(c, q, v), p) == Lookup(c, p);
        }
      }
    }
  }

  /** The later record wins: the entry stored for a path is the one built
      from the last record with that path that yields an entry. */
  lemma {:induction false} CacheLaterWins(es: seq<Entry>, md5: string -> string, i: nat)
    requires i < |es| && CacheEntry(es[i], md5).Some?
    requires forall j :: i < j < |es| && CacheEntry(es[j], md5).Some? ==>
               CacheEntry(es[j], md5).value.0 != CacheEntry(es[i], md5).value.0
    ensures Lookup(CacheOf(es, md5), CacheEntry(es[i], md5).value.0) == Some(CacheEntry(es[i], md5).value.1)
  {
    var init := es[..|es| - 1];
    if i < |es| - 1 {
      assert forall j :: 0 <= j < |init| ==> init[j] == es[j];
      CacheLaterWins(init, md5, i);
    }
  }

  /** Each path is a key of the cache once. */
  lemma {:induction false} CacheKeysUnique(es: seq<Entry>, md5: string -> string)
    ensures forall a, b :: 0 <= a < b < |CacheOf(es, md5)| ==> CacheOf(es, md5)[a].0 != CacheOf(es, md5)[b].0
  {
    if es != [] {
      CacheKeysUnique(es[..|es| - 1], md5);
      var c := CacheOf(es[..|es| - 1], md5);
      match CacheEntry(es[|es| - 1], md5)
      case None =>
      case Some((p, v)) =>
        SetKeyKeepsUnique(c, p, v);
    }
  }

  lemma SetKeyKeepsUnique(fs: Fields, k: string, v: Json)
    requires forall a, b :: 0 <= a < b < |fs| ==> fs[a].0 != fs[b].0
    ensures forall a, b :: 0 <= a < b < |SetKey(fs, k, v)| ==> SetKey(fs, k, v)[a].0 != SetKey(fs, k, v)[b].0
  {
    SetKeyKeys(fs, k, v);
    var r := SetKey(fs, k, v);
    forall a, b | 0 <= a < b < |r|
      ensures r[a].0 != r[b].0
    {
      if b < |fs| {
        assert r[a].0 == fs[a].0 && r[b].0 == fs[b].0;
      } else {
        assert r[a].0 == fs[a].0 && r[b].0 == k;
      }
    }
  }

  /** Assigning a key keeps every existing key at its position. */
  lemma {:induction false} SetKeyKeys(fs: Fields, k: string, v: Json)
    ensures |SetKey(fs, k, v)| >= |fs|
    ensures forall a :: 0 <= a < |fs| ==> SetKey(fs, k, v)[a].0 == fs[a].0
  {
    if fs != [] && fs[0].0 != k {
      SetKeyKeys(fs[1..], k, v);
      var r := SetKey(fs, k, v);
      assert forall a :: 0 < a < |fs| ==> r[a] == SetKey(fs[1..], k, v)[a - 1] && fs[a] == fs[1..][a - 1];
    }
  }


  /** `load_analysis_cache`: the parsed content of `analysis_cache.json`
      when it exists, can be read and parses, `{}` otherwise. */
  datatype CacheText = Parsed(value: Json) | Unparseable

  function LoadAnalysisCache(file: Option<CacheText>, readOk: bool): (r: Json)
    ensures file.Some? && file.value.Parsed? && readOk ==> r == file.value.value
    ensures file.None? || file == Some(Unparseable) || !readOk ==> r == JObj([])
  {
    if file.Some? && file.value.Parsed? && readOk then file.value.value else JObj([])
  }

  /** The lines of an output file, empty when it does not exist yet. */
  function Lines(logs: map<string, seq<Json>>, path: string): seq<Json> {
    if path in logs then logs[path] else []
  }

  /** `save_to_jsonl` on the files' contents: one more line in
      `output_file`, none when the target has no directory part
      (`os.makedirs('')` raises) or the write fails. */
  function SavedLogs(logs: map<string, seq<Json>>, outputFile: string, data: Json, ioOk: bool): (r: map<string, seq<Json>>)
    ensures forall p :: p != outputFile ==> Lines(r, p) == Lines(logs, p)
    ensures '/' in outputFile && ioOk ==> Lines(r, outputFile) == Lines(logs, outputFile) + [data]
    ensures !('/' in outputFile && ioOk) ==> r == logs
  {
    if '/' in outputFile && ioOk then logs[outputFile := Lines(logs, outputFile) + [data]] else logs
  }

  /** The files the core writes: the JSONL outputs, line by line, and
      `analysis_cache.json`. */
  class Disk {
    var logs: map<string, seq<Json>>
    var cacheFile: Option<CacheText>

    constructor(logs0: map<string, seq<Json>>, cache0: Option<CacheText>)
      ensures logs == logs0 && cacheFile == cache0
    {
      logs := logs0;
      cacheFile := cache0;
    }

    /** `save_to_jsonl`. */
    method SaveToJsonl(data: Json, outputFile: string, ioOk: bool)
      modifies this
      ensures logs == SavedLogs(old(logs), outputFile, data, ioOk)
      ensures cacheFile == old(cacheFile)
    {
      if '/' in outputFile && ioOk {
        logs := logs[outputFile := Lines(logs, outputFile) + [data]];
      }
    }

    /** `cache_analysis_results`: builds the cache over every entry in
      iteration order and, when the write succeeds, replaces the cache file
      with it (nothing of the old cache survives). */
    method CacheAnalysisResults(cb: CodebaseData, md5: string -> string, ioOk: bool)
      modifies this
      ensures cacheFile == if ioOk then Some(Parsed(JObj(CacheOf(AllEntries(cb), md5)))) else old(cacheFile)
      ensures logs == old(logs)
    {
      var cache := BuildCache(cb, md5);
      if ioOk {
        cacheFile := Some(Parsed(JObj(cache)));
      }
    }
  }

  /** The loop of `cache_analysis_results` that fills the `cache` dict. */
  method BuildCache(cb: CodebaseData, md5: string -> string) returns (cache: Fields)
    ensures cache == CacheOf(AllEntries(cb), md5)
  {
    cache := [];
    var i := 0;
    while i < |cb|
      invariant 0 <= i <= |cb|
      invariant cache == CacheOf(AllEntries(cb[..i]), md5)
    {
      var entries := cb[i].1;
      var j := 0;
      assert AllEntries(cb[..i]) + entries[..j] == AllEntries(cb[..i]);
      while j < |entries|
        invariant 0 <= j <= |entries|
        invariant cache == CacheOf(AllEntries(cb[..i]) + entries[..j], md5)
      {
        var done := AllEntries(cb[..i]) + entries[..j];
        assert (done + [entries[j]])[..|done|] == done;
        assert AllEntries(cb[..i]) + entries[..j + 1] == done + [entries[j]];
        cache := CacheStep(cache, entries[j], md5);
        j := j + 1;
      }
      AllEntriesAppend(cb[..i], cb[i]);
      assert cb[..i + 1] == cb[..i] + [cb[i]];
      assert entries[..j] == entries;
      i := i + 1;
    }
    assert cb[..i] == cb;
  }
}
