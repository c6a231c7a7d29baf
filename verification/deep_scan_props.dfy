/**
 * What the deep scan finds: exactly the matching entries within the depth
 * and width bounds, in pre-order.
 */
module DeepScanProps {
  import opened Wrappers
  import opened JsonValue
  import opened DeepScan

  /** Every list position on the path is below 200. */
  predicate IndicesBelow(rel: seq<Seg>, bound: nat)
  {
    forall s :: s in rel && s.Index? ==> s.pos < bound
  }

  /**
   * `rel` is the path, from a value scanned at `depth`, of a dict entry that
   * the scan collects with value `n`: the entry's key matches, its value
   * reads as `n`, the dict holding it is at depth at most `maxDepth`, and no
   * list position on the way is 200 or more.
   */
  ghost predicate HitSource(j: Json, rel: seq<Seg>, n: Number, depth: nat, maxDepth: int,
                            parse: string -> Option<real>)
  {
    && |rel| >= 1
    && rel[|rel| - 1].Key?
    && KeyMatches(rel[|rel| - 1].name)
    && depth + |rel| <= maxDepth + 1
    && IndicesBelow(rel, MaxItems)
    && exists v :: Reaches(j, rel, v) && NumericValue(v, parse) == Some(n)
  }

  /** Soundness: every hit extends the starting path by the path of a matching entry. */
  lemma {:induction false} ScanSound(j: Json, p: seq<Seg>, d: nat, m: int, parse: string -> Option<real>, h: Hit)
    requires h in Scan(j, p, d, m, parse)
    ensures |p| < |h.path| && h.path[..|p|] == p
    ensures HitSource(j, h.path[|p|..], h.value, d, m, parse)
    decreases j, 1
  {
    match j
    case JObj(es) => EntriesSound(es, 0, p, d, m, parse, h);
    case JList(xs) => ItemsSound(xs, 0, p, d, m, parse, h);
  }

  lemma {:induction false} EntriesSound(es: seq<(string, Json)>, i: nat, p: seq<Seg>, d: nat, m: int,
                                        parse: string -> Option<real>, h: Hit)
    requires i <= |es| && d <= m
    requires h in ScanEntries(es, i, p, d, m, parse)
    ensures |p| < |h.path| && h.path[..|p|] == p
    ensures HitSource(JObj(es), h.path[|p|..], h.value, d, m, parse)
    decreases JObj(es), 0, |es| - i
  {
    assert i < |es|;
    EntriesStep(es, i, p, d, m, parse);
    if h in EntryHit(p, es[i].0, es[i].1, parse) {
      OwnSource(es, i, p, d, m, parse, h);
    } else if h in Scan(es[i].1, p + [Key(es[i].0)], d + 1, m, parse) {
      ValueSource(es, i, p, d, m, parse, h);
    } else {
      EntriesSound(es, i + 1, p, d, m, parse, h);
    }
  }

  /** A hit found inside the value of entry `i` comes from a matching entry of the dict. */
  lemma {:induction false} ValueSource(es: seq<(string, Json)>, i: nat, p: seq<Seg>, d: nat, m: int,
                                       parse: string -> Option<real>, h: Hit)
    requires i < |es| && d <= m
    requires h in Scan(es[i].1, p + [Key(es[i].0)], d + 1, m, parse)
    ensures |p| < |h.path| && h.path[..|p|] == p
    ensures HitSource(JObj(es), h.path[|p|..], h.value, d, m, parse)
    decreases JObj(es), 0, 0
  {
    var (k, v) := es[i];
    ScanSound(v, p + [Key(k)], d + 1, m, parse, h);
    assert h.path[..|p|] == (p + [Key(k)])[..|p|] == p;
    assert h.path[|p|..] == [Key(k)] + h.path[|p| + 1..];
    KeyStep(es, i, h.path[|p| + 1..], h.value, d, m, parse);
  }

  lemma {:induction false} ItemsSound(xs: seq<Json>, i: nat, p: seq<Seg>, d: nat, m: int,
                                      parse: string -> Option<real>, h: Hit)
    requires i <= |xs| && d <= m
    requires h in ScanItems(xs, i, p, d, m, parse)
    ensures |p| < |h.path| && h.path[..|p|] == p
    ensures HitSource(JList(xs), h.path[|p|..], h.value, d, m, parse)
    decreases JList(xs), 0, |xs| - i
  {
    assert i < |xs| && i < MaxItems;
    var sub := Scan(xs[i], p + [Index(i)], d + 1, m, parse);
    assert ScanItems(xs, i, p, d, m, parse) == sub + ScanItems(xs, i + 1, p, d, m, parse);
    if h in sub {
      ScanSound(xs[i], p + [Index(i)], d + 1, m, parse, h);
      assert h.path[..|p|] == (p + [Index(i)])[..|p|] == p;
      assert h.path[|p|..] == [Index(i)] + h.path[|p| + 1..];
      IndexStep(xs, i, h.path[|p| + 1..], h.value, d, m, parse);
    } else {
      ItemsSound(xs, i + 1, p, d, m, parse, h);
    }
  }

  /** The own hit of entry `i` comes from that entry. */
  lemma OwnSource(es: seq<(string, Json)>, i: nat, p: seq<Seg>, d: nat, m: int,
                  parse: string -> Option<real>, h: Hit)
    requires i < |es| && d <= m
    requires h in EntryHit(p, es[i].0, es[i].1, parse)
    ensures |p| < |h.path| && h.path[..|p|] == p
    ensures HitSource(JObj(es), h.path[|p|..], h.value, d, m, parse)
  {
    var (k, v) := es[i];
    assert h == Hit(p + [Key(k)], NumericValue(v, parse).value);
    var rel := h.path[|p|..];
    assert rel == [Key(k)];
    assert Reaches(v, rel[1..], v);
    assert Reaches(JObj(es), rel, v);
  }

  /** A hit source inside the value of entry `i` is one of the dict holding it. */
  lemma KeyStep(es: seq<(string, Json)>, i: nat, rel: seq<Seg>, n: Number, d: nat, m: int,
                parse: string -> Option<real>)
    requires i < |es|
    requires HitSource(es[i].1, rel, n, d + 1, m, parse)
    ensures HitSource(JObj(es), [Key(es[i].0)] + rel, n, d, m, parse)
  {
    var w :| Reaches(es[i].1, rel, w) && NumericValue(w, parse) == Some(n);
    var rel' := [Key(es[i].0)] + rel;
    assert rel'[1..] == rel;
    assert Reaches(JObj(es), rel', w);
    assert rel'[|rel'| - 1] == rel[|rel| - 1];
  }

  /** A hit source inside list element `i` (below 200) is one of the list. */
  lemma IndexStep(xs: seq<Json>, i: nat, rel: seq<Seg>, n: Number, d: nat, m: int,
                  parse: string -> Option<real>)
    requires i < |xs| && i < MaxItems
    requires HitSource(xs[i], rel, n, d + 1, m, parse)
    ensures HitSource(JList(xs), [Index(i)] + rel, n, d, m, parse)
  {
    var w :| Reaches(xs[i], rel, w) && NumericValue(w, parse) == Some(n);
    var rel' := [Index(i)] + rel;
    assert rel'[1..] == rel;
    assert Reaches(JList(xs), rel', w);
    assert rel'[|rel'| - 1] == rel[|rel| - 1];
  }

  /** Completeness: every matching entry within the bounds is collected. */
  lemma {:induction false} ScanComplete(j: Json, p: seq<Seg>, d: nat, m: int, parse: string -> Option<real>,
                                        rel: seq<Seg>, v: Json, n: Number)
    requires Reaches(j, rel, v) && NumericValue(v, parse) == Some(n)
    requires |rel| >= 1 && rel[|rel| - 1].Key? && KeyMatches(rel[|rel| - 1].name)
    requires d + |rel| <= m + 1 && IndicesBelow(rel, MaxItems)
    ensures Hit(p + rel, n) in Scan(j, p, d, m, parse)
    decreases rel, 2
  {
    if rel[0].Key? {
      KeyComplete(j, p, d, m, parse, rel, v, n);
    } else {
      IndexComplete(j, p, d, m, parse, rel, v, n);
    }
  }

  /** Completeness when the path starts with a dict key. */
  lemma {:induction false} KeyComplete(j: Json, p: seq<Seg>, d: nat, m: int, parse: string -> Option<real>,
                                       rel: seq<Seg>, v: Json, n: Number)
    requires Reaches(j, rel, v) && NumericValue(v, parse) == Some(n)
    requires |rel| >= 1 && rel[0].Key? && rel[|rel| - 1].Key? && KeyMatches(rel[|rel| - 1].name)
    requires d + |rel| <= m + 1 && IndicesBelow(rel, MaxItems)
    ensures Hit(p + rel, n) in Scan(j, p, d, m, parse)
    decreases rel, 1
  {
    var k := rel[0].name;
    assert j.JObj? && exists n :: 0 <= n < |j.entries| && j.entries[n].0 == k && Reaches(j.entries[n].1, rel[1..], v);
    var es := j.entries;
    var idx :| 0 <= idx < |es| && es[idx].0 == k && Reaches(es[idx].1, rel[1..], v);
    var h := Hit(p + rel, n);
    if |rel| == 1 {
      assert h in EntryHit(p, k, v, parse) by {
        assert rel == [Key(k)] && rel[1..] == [] && es[idx].1 == v;
      }
    } else {
      DeeperIncluded(es, idx, p, d, m, parse, rel, v, n);
    }
    EntryIncluded(es, 0, idx, p, d, m, parse, h);
    assert Scan(j, p, d, m, parse) == ScanEntries(es, 0, p, d, m, parse);
  }

  /** A longer path through entry `idx` names a hit found inside that entry's value. */
  lemma {:induction false} DeeperIncluded(es: seq<(string, Json)>, idx: nat, p: seq<Seg>, d: nat, m: int,
                                          parse: string -> Option<real>, rel: seq<Seg>, v: Json, n: Number)
    requires idx < |es| && |rel| >= 2 && rel[0] == Key(es[idx].0)
    requires Reaches(es[idx].1, rel[1..], v) && NumericValue(v, parse) == Some(n)
    requires rel[|rel| - 1].Key? && KeyMatches(rel[|rel| - 1].name)
    requires d + |rel| <= m + 1 && IndicesBelow(rel, MaxItems)
    ensures Hit(p + rel, n) in Scan(es[idx].1, p + [Key(es[idx].0)], d + 1, m, parse)
    decreases rel, 0
  {
    assert rel[1..][|rel[1..]| - 1] == rel[|rel| - 1];
    assert IndicesBelow(rel[1..], MaxItems) by {
      forall s | s in rel[1..] ensures s in rel { }
    }
    ScanComplete(es[idx].1, p + [Key(es[idx].0)], d + 1, m, parse, rel[1..], v, n);
    assert (p + [Key(es[idx].0)]) + rel[1..] == p + rel;
  }

  /** Completeness when the path starts with a list position. */
  lemma {:induction false} IndexComplete(j: Json, p: seq<Seg>, d: nat, m: int, parse: string -> Option<real>,
                                         rel: seq<Seg>, v: Json, n: Number)
    requires Reaches(j, rel, v) && NumericValue(v, parse) == Some(n)
    requires |rel| >= 1 && rel[0].Index? && rel[|rel| - 1].Key? && KeyMatches(rel[|rel| - 1].name)
    requires d + |rel| <= m + 1 && IndicesBelow(rel, MaxItems)
    ensures Hit(p + rel, n) in Scan(j, p, d, m, parse)
    decreases rel, 1
  {
    var i := rel[0].pos;
    var xs := j.items;
    assert |rel| > 1;
    assert i < MaxItems by { assert rel[0] in rel; }
    assert rel[1..][|rel[1..]| - 1] == rel[|rel| - 1];
    assert IndicesBelow(rel[1..], MaxItems) by {
      forall s | s in rel[1..] ensures s in rel { }
    }
    ScanComplete(xs[i], p + [Index(i)], d + 1, m, parse, rel[1..], v, n);
    assert (p + [Index(i)]) + rel[1..] == p + rel;
    ItemIncluded(xs, 0, i, p, d, m, parse, Hit(p + rel, n));
  }

  lemma {:induction false} EntryIncluded(es: seq<(string, Json)>, i: nat, idx: nat, p: seq<Seg>, d: nat, m: int,
                                         parse: string -> Option<real>, h: Hit)
    requires i <= idx < |es|
    requires h in EntryHit(p, es[idx].0, es[idx].1, parse) || h in Scan(es[idx].1, p + [Key(es[idx].0)], d + 1, m, parse)
    ensures h in ScanEntries(es, i, p, d, m, parse)
    decreases idx - i
  {
    if i < idx {
      EntryIncluded(es, i + 1, idx, p, d, m, parse, h);
    }
  }

  lemma {:induction false} ItemIncluded(xs: seq<Json>, i: nat, idx: nat, p: seq<Seg>, d: nat, m: int,
                                        parse: string -> Option<real>, h: Hit)
    requires i <= idx < |xs| && idx < MaxItems
    requires h in Scan(xs[idx], p + [Index(idx)], d + 1, m, parse)
    ensures h in ScanItems(xs, i, p, d, m, parse)
    decreases idx - i
  {
    if i < idx {
      ItemIncluded(xs, i + 1, idx, p, d, m, parse, h);
    }
  }

  /** From the root: a hit is in the scan exactly when it names a matching entry within the bounds. */
  lemma RootHits(j: Json, parse: string -> Option<real>, h: Hit)
    ensures h in Scan(j, [], 0, MaxDepth, parse) <==> HitSource(j, h.path, h.value, 0, MaxDepth, parse)
  {
    if h in Scan(j, [], 0, MaxDepth, parse) {
      RootSound(j, parse, h);
    }
    if HitSource(j, h.path, h.value, 0, MaxDepth, parse) {
      RootComplete(j, parse, h);
    }
  }

  /** A hit collected from the root names a matching entry within the bounds. */
  lemma RootSound(j: Json, parse: string -> Option<real>, h: Hit)
    requires h in Scan(j, [], 0, MaxDepth, parse)
    ensures HitSource(j, h.path, h.value, 0, MaxDepth, parse)
  {
    ScanSound(j, [], 0, MaxDepth, parse, h);
    assert h.path[0..] == h.path;
  }

  /** A matching entry within the bounds is collected from the root. */
  lemma RootComplete(j: Json, parse: string -> Option<real>, h: Hit)
    requires HitSource(j, h.path, h.value, 0, MaxDepth, parse)
    ensures h in Scan(j, [], 0, MaxDepth, parse)
  {
    var v :| Reaches(j, h.path, v) && NumericValue(v, parse) == Some(h.value);
    ScanComplete(j, [], 0, MaxDepth, parse, h.path, v, h.value);
    assert [] + h.path == h.path;
  }

  /** List elements at position 200 or later never contribute a hit. */
  lemma ScanIgnoresTail(xs: seq<Json>, ys: seq<Json>, p: seq<Seg>, d: nat, m: int,
                        parse: string -> Option<real>)
    requires |xs| >= MaxItems
    ensures Scan(JList(xs + ys), p, d, m, parse) == Scan(JList(xs), p, d, m, parse)
  {
    if d <= m {
      ItemsTail(xs, ys, 0, p, d, m, parse);
    }
  }

  lemma {:induction false} ItemsTail(xs: seq<Json>, ys: seq<Json>, i: nat, p: seq<Seg>, d: nat, m: int,
                                     parse: string -> Option<real>)
    requires |xs| >= MaxItems && i <= |xs|
    ensures ScanItems(xs + ys, i, p, d, m, parse) == ScanItems(xs, i, p, d, m, parse)
    decreases |xs| - i
  {
    if i < MaxItems {
      assert (xs + ys)[i] == xs[i];
      ItemsTail(xs, ys, i + 1, p, d, m, parse);
    }
  }

  /** Dict entries are searched in iteration order: the hits of `a + b` are those of `a`, then those of `b`. */
  lemma ScanObjectConcat(a: seq<(string, Json)>, b: seq<(string, Json)>, p: seq<Seg>, d: nat, m: int,
                         parse: string -> Option<real>)
    ensures Scan(JObj(a + b), p, d, m, parse) == Scan(JObj(a), p, d, m, parse) + Scan(JObj(b), p, d, m, parse)
  {
    if d <= m {
      EntriesConcat(a, b, 0, p, d, m, parse);
    }
  }

  /**
   * Pre-order: an entry's own hit comes first, then the hits inside its
   * value, then the hits of the entries after it.
   */
  lemma ScanObjectPreorder(k: string, v: Json, rest: seq<(string, Json)>, p: seq<Seg>, d: nat, m: int,
                           parse: string -> Option<real>)
    requires d <= m
    ensures Scan(JObj([(k, v)] + rest), p, d, m, parse)
            == EntryHit(p, k, v, parse) + Scan(v, p + [Key(k)], d + 1, m, parse) + Scan(JObj(rest), p, d, m, parse)
  {
    ScanObjectConcat([(k, v)], rest, p, d, m, parse);
    var one := [(k, v)];
    assert ScanEntries(one, 1, p, d, m, parse) == [];
    assert Scan(JObj(one), p, d, m, parse)
           == EntryHit(p, k, v, parse) + Scan(v, p + [Key(k)], d + 1, m, parse) + [];
  }

  lemma {:induction false} EntriesConcat(a: seq<(string, Json)>, b: seq<(string, Json)>, i: nat, p: seq<Seg>,
                                         d: nat, m: int, parse: string -> Option<real>)
    requires i <= |a|
    ensures ScanEntries(a + b, i, p, d, m, parse) == ScanEntries(a, i, p, d, m, parse) + ScanEntries(b, 0, p, d, m, parse)
    decreases |a| - i
  {
    if i == |a| {
      EntriesShift(a, b, 0, p, d, m, parse);
    } else {
      assert (a + b)[i] == a[i];
      EntriesStep(a + b, i, p, d, m, parse);
      EntriesStep(a, i, p, d, m, parse);
      EntriesConcat(a, b, i + 1, p, d, m, parse);
    }
  }

  lemma {:induction false} EntriesShift(a: seq<(string, Json)>, b: seq<(string, Json)>, i: nat, p: seq<Seg>,
                                        d: nat, m: int, parse: string -> Option<real>)
    requires i <= |b|
    ensures ScanEntries(a + b, |a| + i, p, d, m, parse) == ScanEntries(b, i, p, d, m, parse)
    decreases |b| - i
  {
    if i < |b| {
      assert (a + b)[|a| + i] == b[i];
      EntriesStep(a + b, |a| + i, p, d, m, parse);
      EntriesStep(b, i, p, d, m, parse);
      EntriesShift(a, b, i + 1, p, d, m, parse);
    }
  }
}
