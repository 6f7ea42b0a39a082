/**
 * Decoded JSON values as `json.loads` produces them: objects are dicts in
 * key order, arrays are lists, numbers are ints or floats.
 */
module Json {
  import opened Dicts

  datatype Json =
    | JNull
    | JBool(b: bool)
    | JInt(i: int)
    | JReal(r: real)
    | JStr(s: string)
    | JList(items: seq<Json>)
    | JObj(fields: seq<(string, Json)>)

  /** Python's truth value of a decoded value (`if value:`). */
  predicate Truthy(j: Json) {
    match j
    case JNull => false
    case JBool(b) => b
    case JInt(i) => i != 0
    case JReal(r) => r != 0.0
    case JStr(s) => s != ""
    case JList(xs) => xs != []
    case JObj(fs) => fs != []
  }

  /** Lists and dicts cannot be dict keys; everything else can. */
  predicate Hashable(j: Json) {
    !j.JList? && !j.JObj?
  }

  /** Every object inside `j` has distinct keys, as `json.loads` guarantees. */
  predicate Proper(j: Json) {
    match j
    case JList(xs) => forall i :: 0 <= i < |xs| ==> Proper(xs[i])
    case JObj(fs) => DistinctKeys(fs) && forall i :: 0 <= i < |fs| ==> Proper(fs[i].1)
    case _ => true
  }

  /** A list whose elements are all strings, as `', '.join(...)` demands. */
  predicate AllStrings(xs: seq<Json>) {
    forall i :: 0 <= i < |xs| ==> xs[i].JStr?
  }

  function Strings(xs: seq<Json>): (ss: seq<string>)
    requires AllStrings(xs)
    ensures |ss| == |xs| && forall i :: 0 <= i < |xs| ==> xs[i] == JStr(ss[i])
  {
    seq(|xs|, i requires 0 <= i < |xs| => xs[i].s)
  }

  /** A value that can be a dict key: anything but a list or a dict. */
  datatype HashKey = HNull | HBool(b: bool) | HInt(i: int) | HReal(r: real) | HStr(s: string)

  function ToJson(k: HashKey): (j: Json)
    ensures Hashable(j)
  {
    match k
    case HNull => JNull
    case HBool(b) => JBool(b)
    case HInt(i) => JInt(i)
    case HReal(r) => JReal(r)
    case HStr(s) => JStr(s)
  }

  /**
   * The key a hashable value is stored under. Lists and dicts map to
   * `HNull`; the analysis raises before using a key for them.
   */
  function KeyOf(j: Json): HashKey {
    match j
    case JBool(b) => HBool(b)
    case JInt(i) => HInt(i)
    case JReal(r) => HReal(r)
    case JStr(s) => HStr(s)
    case _ => HNull
  }

  /** A hashable value is its own key back again, and every key is some value's. */
  lemma KeyRoundTrip(j: Json, k: HashKey)
    ensures Hashable(j) ==> ToJson(KeyOf(j)) == j
    ensures KeyOf(ToJson(k)) == k
  {
  }

  function KeysOf(cs: seq<Json>): (ks: seq<HashKey>)
    ensures |ks| == |cs|
    ensures forall i :: 0 <= i < |cs| ==> ks[i] == KeyOf(cs[i])
  {
    seq(|cs|, i requires 0 <= i < |cs| => KeyOf(cs[i]))
  }
}
