/**
 * The bounded structural scan `_deep_search_numeric_candidates`: it walks a
 * response and collects, in pre-order, every dict entry whose key looks like
 * a price and whose value is numeric.
 */
module DeepScan {
  import opened Wrappers
  import opened Text
  import opened JsonValue

  /** The default `max_depth`: objects at depths 0 to 4 are scanned. */
  const MaxDepth: int := 4
  /** Only `obj[:200]` of any list is visited. */
  const MaxItems: nat := 200

  /**
   * `float(i)` raises OverflowError for an int whose magnitude is at least
   * 2^1024 - 2^970: the largest double is 2^1024 - 2^971, and an int at or
   * past the midpoint to 2^1024 rounds up out of range.
   */
  const FloatOverflow: int := 0xfffffffffffffc00000000000000000000000000000000000000000000000000000000000000000000000000000000000000000000000000000000000000000000000000000000000000000000000000000000000000000000000000000000000000000000000000000000000000000000000000000000000000000000000000

  /** A collected value: the dict value itself when it is an int, float or bool, or the parsed float of a numeric string. */
  datatype Number = Int(i: int) | Float(r: real) | Bool(b: bool)

  /** One hit: the path of the dict entry (relative to "root") and its value. */
  datatype Hit = Hit(path: seq<Seg>, value: Number)

  /** The key test: the lower-cased key contains "ltp", "last", "price" or "lt". */
  predicate KeyMatches(k: string)
  {
    var l := Lower(k);
    Contains(l, "ltp") || Contains(l, "last") || Contains(l, "price") || Contains(l, "lt")
  }

  /**
   * The value test: an int or float (a bool is an int in Python), or a
   * string that `float()` accepts once commas are removed and the ends stripped.
   */
  function NumericValue(v: Json, parse: string -> Option<real>): Option<Number>
  {
    match v
    case JInt(i) => Some(Int(i))
    case JNum(r) => Some(Float(r))
    case JBool(b) => Some(Bool(b))
    case JStr(s) =>
      (match parse(Strip(RemoveCommas(s)))
       case Some(f) => Some(Float(f))
       case None => None)
    case _ => None
  }

  /** `float(v)` of a collected value. */
  function FloatOf(n: Number): (r: Option<real>)
    ensures n.Float? ==> r == Some(n.r)
    ensures n.Int? ==> (r.Some? <==> -FloatOverflow < n.i < FloatOverflow)
    ensures r.Some? && n.Int? ==> r.value == n.i as real
    ensures n.Bool? ==> r == Some(if n.b then 1.0 else 0.0)
  {
    match n
    case Int(i) => if -FloatOverflow < i < FloatOverflow then Some(i as real) else None
    case Float(r) => Some(r)
    case Bool(b) => Some(if b then 1.0 else 0.0)
  }

  /** The hit an entry contributes itself, before its value is searched. */
  function EntryHit(path: seq<Seg>, k: string, v: Json, parse: string -> Option<real>): seq<Hit>
  {
    match NumericValue(v, parse)
    case Some(n) => if KeyMatches(k) then [Hit(path + [Key(k)], n)] else []
    case None => []
  }

  /** The hits `_deep_search_numeric_candidates(obj, path, depth, max_depth)` returns. */
  function Scan(obj: Json, path: seq<Seg>, depth: nat, maxDepth: int, parse: string -> Option<real>): seq<Hit>
    decreases obj, 1
  {
    if depth > maxDepth || obj.JNull? then []
    else match obj
      case JObj(es) => ScanEntries(es, 0, path, depth, maxDepth, parse)
      case JList(xs) => ScanItems(xs, 0, path, depth, maxDepth, parse)
      case _ => []
  }

  /** The hits of the dict entries from position `i` on. */
  function ScanEntries(es: seq<(string, Json)>, i: nat, path: seq<Seg>, depth: nat, maxDepth: int,
                       parse: string -> Option<real>): seq<Hit>
    requires i <= |es|
    decreases JObj(es), 0, |es| - i
  {
    if i == |es| then []
    else
      var (k, v) := es[i];
      EntryHit(path, k, v, parse) + Scan(v, path + [Key(k)], depth + 1, maxDepth, parse)
      + ScanEntries(es, i + 1, path, depth, maxDepth, parse)
  }

  /** The hits of the list elements from position `i` on, stopping at position 200. */
  function ScanItems(xs: seq<Json>, i: nat, path: seq<Seg>, depth: nat, maxDepth: int,
                     parse: string -> Option<real>): seq<Hit>
    requires i <= |xs|
    decreases JList(xs), 0, |xs| - i
  {
    if i == |xs| || i >= MaxItems then []
    else Scan(xs[i], path + [Index(i)], depth + 1, maxDepth, parse)
         + ScanItems(xs, i + 1, path, depth, maxDepth, parse)
  }

  /**
   * The search as the source runs it: a loop over the dict items, or over the
   * first 200 list elements, that appends to a result list and extends it
   * with the results of the recursive calls.
   */
  method DeepSearch(obj: Json, path: seq<Seg>, depth: nat, maxDepth: int, parse: string -> Option<real>)
    returns (results: seq<Hit>)
    ensures results == Scan(obj, path, depth, maxDepth, parse)
    decreases obj, 1
  {
    results := [];
    if depth > maxDepth || obj.JNull? {
      return;
    }
    match obj {
      case JObj(es) => results := SearchEntries(es, path, depth, maxDepth, parse);
      case JList(xs) => results := SearchItems(xs, path, depth, maxDepth, parse);
      case _ =>
    }
  }

  /** The `for k, v in obj.items()` loop of the search. */
  method SearchEntries(es: seq<(string, Json)>, path: seq<Seg>, depth: nat, maxDepth: int,
                       parse: string -> Option<real>)
    returns (results: seq<Hit>)
    ensures results == ScanEntries(es, 0, path, depth, maxDepth, parse)
    decreases JObj(es), 0
  {
    results := [];
    var i := 0;
    while i < |es|
      invariant 0 <= i <= |es|
      invariant results + ScanEntries(es, i, path, depth, maxDepth, parse)
                == ScanEntries(es, 0, path, depth, maxDepth, parse)
    {
      var found := SearchEntry(path, es[i].0, es[i].1, depth, maxDepth, parse);
      EntriesStep(es, i, path, depth, maxDepth, parse);
      assert results + found + ScanEntries(es, i + 1, path, depth, maxDepth, parse)
             == results + ScanEntries(es, i, path, depth, maxDepth, parse);
      results := results + found;
      i := i + 1;
    }
  }

  /**
   * The body of the entry loop: the two tests of the entry (a numeric
   * value, or a string that converts, under a key that looks like a price),
   * then the search of its value one level deeper.
   */
  method SearchEntry(path: seq<Seg>, k: string, v: Json, depth: nat, maxDepth: int,
                     parse: string -> Option<real>)
    returns (found: seq<Hit>)
    ensures found == EntryHit(path, k, v, parse) + Scan(v, path + [Key(k)], depth + 1, maxDepth, parse)
    decreases v, 2
  {
    found := [];
    var num := NumericValue(v, parse);
    if num.Some? && KeyMatches(k) {
      found := [Hit(path + [Key(k)], num.value)];
    }
    var sub := DeepSearch(v, path + [Key(k)], depth + 1, maxDepth, parse);
    found := found + sub;
  }

  /** One step of `ScanEntries`: entry `i`'s own hit, the hits inside its value, then the rest. */
  lemma EntriesStep(es: seq<(string, Json)>, i: nat, path: seq<Seg>, depth: nat, maxDepth: int,
                    parse: string -> Option<real>)
    requires i < |es|
    ensures ScanEntries(es, i, path, depth, maxDepth, parse)
            == EntryHit(path, es[i].0, es[i].1, parse) + Scan(es[i].1, path + [Key(es[i].0)], depth + 1, maxDepth, parse)
               + ScanEntries(es, i + 1, path, depth, maxDepth, parse)
  {
  }

  /** The `for i, item in enumerate(obj[:200])` loop of the search. */
  method SearchItems(xs: seq<Json>, path: seq<Seg>, depth: nat, maxDepth: int,
                     parse: string -> Option<real>)
    returns (results: seq<Hit>)
    ensures results == ScanItems(xs, 0, path, depth, maxDepth, parse)
    decreases JList(xs), 0
  {
    results := [];
    var i := 0;
    while i < |xs| && i < MaxItems
      invariant 0 <= i <= |xs|
      invariant results + ScanItems(xs, i, path, depth, maxDepth, parse)
                == ScanItems(xs, 0, path, depth, maxDepth, parse)
    {
      ghost var rest := ScanItems(xs, i + 1, path, depth, maxDepth, parse);
      ghost var before := results;
      var sub := DeepSearch(xs[i], path + [Index(i)], depth + 1, maxDepth, parse);
      results := results + sub;
      assert results + rest == before + (sub + rest);
      i := i + 1;
    }
  }
}
