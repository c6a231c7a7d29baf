/**
 * The decoded quote response: the nested dict / list / scalar value that the
 * vendor client returns or that `r.json()` produces.
 */
module JsonValue {
  import opened Wrappers

  /**
   * A JSON-like value. An object is an association list that keeps the
   * dict's iteration order; a Python dict has distinct keys.
   */
  datatype Json =
    | JNull
    | JBool(b: bool)
    | JInt(i: int)
    | JNum(r: real)
    | JStr(s: string)
    | JList(items: seq<Json>)
    | JObj(entries: seq<(string, Json)>)

  /** One step of a path: a dict key (`.k`) or a list position (`[i]`). */
  datatype Seg = Key(name: string) | Index(pos: nat)

  /** Python's `not v`: None, False, zero and the empty string, list and dict. */
  predicate Falsy(j: Json)
  {
    j == JNull || j == JBool(false) || j == JInt(0) || j == JNum(0.0)
    || j == JStr("") || j == JList([]) || j == JObj([])
  }

  /** A value is falsy exactly when it is null, false, zero or empty. */
  lemma FalsyByKind(j: Json)
    ensures Falsy(j) <==>
      || j.JNull?
      || (j.JBool? && !j.b)
      || (j.JInt? && j.i == 0)
      || (j.JNum? && j.r == 0.0)
      || (j.JStr? && |j.s| == 0)
      || (j.JList? && |j.items| == 0)
      || (j.JObj? && |j.entries| == 0)
  {
  }

  /** The value stored under key `k` in an entry list, at its first occurrence. */
  function Find(es: seq<(string, Json)>, k: string): (r: Option<Json>)
    ensures r.None? <==> forall n :: 0 <= n < |es| ==> es[n].0 != k
    ensures r.Some? ==> exists n :: 0 <= n < |es| && es[n] == (k, r.value)
  {
    if es == [] then None
    else if es[0].0 == k then Some(es[0].1)
    else
      var r := Find(es[1..], k);
      assert forall n :: 1 <= n < |es| ==> es[n] == es[1..][n - 1];
      r
  }

  /** `k in j` and `j[k]` for a dict `j`; `None` when `j` is not a dict or lacks `k`. */
  function Get(j: Json, k: string): Option<Json>
  {
    if j.JObj? then Find(j.entries, k) else None
  }

  /** Following `path` from `j` leads to `v`. */
  ghost predicate Reaches(j: Json, path: seq<Seg>, v: Json)
    decreases path
  {
    if path == [] then v == j
    else match path[0]
      case Key(k) =>
        j.JObj? && exists n :: 0 <= n < |j.entries| && j.entries[n].0 == k && Reaches(j.entries[n].1, path[1..], v)
      case Index(i) =>
        j.JList? && i < |j.items| && Reaches(j.items[i], path[1..], v)
  }
}
