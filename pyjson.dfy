/** JSON-like values as the core handles them (the parsed output of analyzers,
    linters and the cache file), and the meaning Python gives to the handful of
    operations the core applies to them: truthiness, `d[k]`, `d.get(k)`,
    `k in x`, iteration, `len`, and `+` on numbers. */
module PyJson {
  import opened Wrappers
  import opened Strs

  datatype Json =
    | JNull
    | JBool(b: bool)
    | JInt(i: int)
    | JReal(r: real)
    | JStr(s: string)
    | JArr(items: seq<Json>)
    | JObj(fields: seq<(string, Json)>)

  /** A dict: keys in insertion order. */
  type Fields = seq<(string, Json)>

  /** `bool(j)`. */
  predicate Truthy(j: Json) {
    match j
    case JNull => false
    case JBool(b) => b
    case JInt(i) => i != 0
    case JReal(r) => r != 0.0
    case JStr(s) => s != ""
    case JArr(xs) => xs != []
    case JObj(fs) => fs != []
  }

  predicate HasKey(fs: Fields, k: string) {
    exists i :: 0 <= i < |fs| && fs[i].0 == k
  }

  /** The value stored under `k` (the first binding; a dict has only one). */
  function Lookup(fs: Fields, k: string): (r: Option<Json>)
    ensures r.Some? <==> HasKey(fs, k)
    ensures r.Some? ==> exists i :: 0 <= i < |fs| && fs[i] == (k, r.value)
  {
    if fs == [] then None
    else if fs[0].0 == k then Some(fs[0].1)
    else
      var r := Lookup(fs[1..], k);
      assert r.Some? ==> exists i :: 0 <= i < |fs| - 1 && fs[1..][i] == (k, r.value);
      r
  }

  /** The binding at `i` answers for its key when no earlier binding has
      that key. */
  lemma {:induction false} LookupAt(fs: Fields, i: nat)
    requires i < |fs|
    requires forall j :: 0 <= j < i ==> fs[j].0 != fs[i].0
    ensures Lookup(fs, fs[i].0) == Some(fs[i].1)
  {
    if i > 0 {
      assert fs[1..][i - 1] == fs[i];
      LookupAt(fs[1..], i - 1);
    }
  }

  /** `d[k] = v`: an existing key keeps its position, a new one goes last. */
  function SetKey(fs: Fields, k: string, v: Json): (r: Fields)
    ensures Lookup(r, k) == Some(v)
    ensures forall k' :: k' != k ==> Lookup(r, k') == Lookup(fs, k')
    ensures HasKey(fs, k) ==> |r| == |fs|
    ensures !HasKey(fs, k) ==> r == fs + [(k, v)]
  {
    if fs == [] then [(k, v)]
    else if fs[0].0 == k then
      assert ([(k, v)] + fs[1..])[1..] == fs[1..];
      [(k, v)] + fs[1..]
    else
      var rest := SetKey(fs[1..], k, v);
      SetKeyCons(fs, k, v, rest);
      [fs[0]] + rest
  }

  /** The step of `SetKey` past a first binding of another key. */
  lemma SetKeyCons(fs: Fields, k: string, v: Json, rest: Fields)
    requires fs != [] && fs[0].0 != k
    requires Lookup(rest, k) == Some(v)
    requires forall k' :: k' != k ==> Lookup(rest, k') == Lookup(fs[1..], k')
    requires HasKey(fs[1..], k) ==> |rest| == |fs| - 1
    requires !HasKey(fs[1..], k) ==> rest == fs[1..] + [(k, v)]
    ensures Lookup([fs[0]] + rest, k) == Some(v)
    ensures forall k' :: k' != k ==> Lookup([fs[0]] + rest, k') == Lookup(fs, k')
    ensures HasKey(fs, k) ==> |[fs[0]] + rest| == |fs|
    ensures !HasKey(fs, k) ==> [fs[0]] + rest == fs + [(k, v)]
  {
    HasKeyTail(fs, k);
    var r := [fs[0]] + rest;
    assert r[0] == fs[0] && r[1..] == rest;
    if !HasKey(fs, k) {
      assert fs == [fs[0]] + fs[1..];
    }
  }

  /** A key that is not the first one is held by the dict exactly when it is
      held by the rest. */
  lemma HasKeyTail(fs: Fields, k: string)
    requires fs != [] && fs[0].0 != k
    ensures HasKey(fs, k) <==> HasKey(fs[1..], k)
  {
    if HasKey(fs[1..], k) {
      var i :| 0 <= i < |fs| - 1 && fs[1..][i].0 == k;
      assert fs[i + 1].0 == k;
    }
    if HasKey(fs, k) {
      var i :| 0 <= i < |fs| && fs[i].0 == k;
      assert i > 0 && fs[1..][i - 1].0 == k;
    }
  }

  /** `j[k]` with a string key: only a dict holding `k` answers; any other
      value raises (KeyError or TypeError). */
  function Subscript(j: Json, k: string): (r: Outcome<Json>)
    ensures r.Ok? <==> j.JObj? && HasKey(j.fields, k)
    ensures r.Ok? ==> Lookup(j.fields, k) == Some(r.value)
  {
    if j.JObj? then
      match Lookup(j.fields, k)
      case Some(v) => Ok(v)
      case None => Raised
    else Raised
  }

  /** `j.get(k, default)`: defined on dicts only (AttributeError otherwise). */
  function GetOr(j: Json, k: string, default: Json): (r: Outcome<Json>)
    ensures r.Ok? <==> j.JObj?
    ensures j.JObj? && !HasKey(j.fields, k) ==> r == Ok(default)
  {
    if j.JObj? then
      match Lookup(j.fields, k)
      case Some(v) => Ok(v)
      case None => Ok(default)
    else Raised
  }

  /** `k in j` for a string `k`: keys of a dict, elements of a list,
      substrings of a string; TypeError for everything else. */
  function Contains(j: Json, k: string): (r: Outcome<bool>)
    ensures r.Ok? <==> (j.JObj? || j.JArr? || j.JStr?)
    ensures j.JObj? ==> r == Ok(HasKey(j.fields, k))
  {
    match j
    case JObj(fs) => Ok(HasKey(fs, k))
    case JArr(xs) => Ok(JStr(k) in xs)
    case JStr(s) => Ok(IsSubstring(k, s))
    case _ => Raised
  }

  /** `for x in j`: list elements, the characters of a string, the keys of a
      dict; TypeError for scalars. */
  function Iter(j: Json): (r: Outcome<seq<Json>>)
    ensures r.Ok? <==> (j.JObj? || j.JArr? || j.JStr?)
    ensures j.JArr? ==> r == Ok(j.items)
  {
    match j
    case JArr(xs) => Ok(xs)
    case JStr(s) => Ok(seq(|s|, i requires 0 <= i < |s| => JStr([s[i]])))
    case JObj(fs) => Ok(seq(|fs|, i requires 0 <= i < |fs| => JStr(fs[i].0)))
    case _ => Raised
  }

  /** `len(j)`. */
  function Len(j: Json): (r: Outcome<nat>)
    ensures r.Ok? <==> (j.JObj? || j.JArr? || j.JStr?)
  {
    match j
    case JStr(s) => Ok(|s|)
    case JArr(xs) => Ok(|xs|)
    case JObj(fs) => Ok(|fs|)
    case _ => Raised
  }

  /** The numeric value of `j` when Python arithmetic accepts it (bool is an
      int subclass); None where `+` or `<` would raise TypeError. */
  function Num(j: Json): (r: Option<real>)
    ensures r.Some? <==> (j.JBool? || j.JInt? || j.JReal?)
  {
    match j
    case JBool(b) => Some(if b then 1.0 else 0.0)
    case JInt(i) => Some(i as real)
    case JReal(x) => Some(x)
    case _ => None
  }

  /** Values that can be dict keys (lists and dicts are unhashable). */
  predicate Hashable(j: Json) {
    !j.JArr? && !j.JObj?
  }
}
