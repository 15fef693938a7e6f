/** The analysis records and `codebase_data`, the module map every later
    stage reads. */
module Codebase {
  import opened Wrappers
  import opened PyJson

  /** An analysis record: the dict a handler builds, with keys `file_path`,
      `language`, `content`, `analysis`, `metadata`, `module_path` and, after
      the documentation step, `documentation`. */
  type Record = Fields

  /** An element of a module's list: a record, or Python's None. */
  type Entry = Option<Record>

  /** `codebase_data`: module path to its list of records, in the dict's
      iteration order (which decides what "first match" means). */
  type CodebaseData = seq<(string, seq<Entry>)>

  /** A dict has each key once. */
  ghost predicate UniqueKeys(cb: CodebaseData) {
    forall i, j :: 0 <= i < j < |cb| ==> cb[i].0 != cb[j].0
  }

  /** `codebase_data.get(module_path, [])`. */
  function ModuleEntries(cb: CodebaseData, key: string): (r: seq<Entry>)
    ensures r != [] ==> exists i :: 0 <= i < |cb| && cb[i] == (key, r)
  {
    if cb == [] then []
    else if cb[0].0 == key then cb[0].1
    else
      var r := ModuleEntries(cb[1..], key);
      assert r != [] ==> exists i :: 0 <= i < |cb| - 1 && cb[1..][i] == (key, r);
      r
  }

  /** Every entry of every module, in iteration order. */
  function AllEntries(cb: CodebaseData): seq<Entry> {
    if cb == [] then [] else cb[0].1 + AllEntries(cb[1..])
  }

  lemma {:induction false} AllEntriesAppend(cb: CodebaseData, m: (string, seq<Entry>))
    ensures AllEntries(cb + [m]) == AllEntries(cb) + m.1
  {
    if cb == [] {
      assert [m][1..] == [];
    } else {
      assert (cb + [m])[1..] == cb[1..] + [m];
      AllEntriesAppend(cb[1..], m);
    }
  }

  /** An entry taken from one module belongs to the whole codebase's entries. */
  lemma {:induction false} ModuleEntryInAll(cb: CodebaseData, i: nat, j: nat)
    requires i < |cb| && j < |cb[i].1|
    ensures cb[i].1[j] in AllEntries(cb)
  {
    if i > 0 {
      ModuleEntryInAll(cb[1..], i - 1, j);
    }
  }

  /** `file_data[k]`: a None entry raises TypeError, a missing key KeyError. */
  function Field(e: Entry, k: string): (r: Outcome<Json>)
    ensures r.Ok? <==> e.Some? && HasKey(e.value, k)
  {
    if e.None? then Raised
    else match Lookup(e.value, k)
      case Some(v) => Ok(v)
      case None => Raised
  }

  /** `file_data[k1][k2]`. */
  function Field2(e: Entry, k1: string, k2: string): (r: Outcome<Json>)
    ensures r.Ok? ==> Field(e, k1).Ok? && Subscript(Field(e, k1).value, k2) == r
  {
    match Field(e, k1)
    case Ok(v) => Subscript(v, k2)
    case Raised => Raised
  }

  /** The file path of an entry when it has a string `file_path`. */
  function PathOf(e: Entry): Option<string> {
    match Field(e, "file_path")
    case Ok(JStr(p)) => Some(p)
    case _ => None
  }
}
