/** Worked responses for `get_ltp`. */
module LtpExamples {
  import opened Wrappers
  import opened Text
  import opened JsonValue
  import opened DeepScan
  import opened Ltp
  import opened DeepScanProps
  import opened LtpProps

  /** Removing commas works piece by piece. */
  lemma {:induction false} RemoveCommasAppend(a: string, b: string)
    ensures RemoveCommas(a + b) == RemoveCommas(a) + RemoveCommas(b)
  {
    if a != [] {
      assert (a + b)[1..] == a[1..] + b;
      RemoveCommasAppend(a[1..], b);
    } else {
      assert a + b == b;
    }
  }

  /** Removing the commas of `whole + "," + rest` leaves `whole + rest`. */
  lemma SeparatorDropped(whole: string, rest: string)
    requires ',' !in whole && ',' !in rest
    ensures RemoveCommas(whole + "," + rest) == whole + rest
  {
    var sep: string := [','];
    assert RemoveCommas(sep) == [] by {
      assert sep[1..] == [];
    }
    RemoveCommasAppend(whole, sep);
    assert RemoveCommas(whole + sep) == whole;
    RemoveCommasAppend(whole + sep, rest);
    assert whole + "," + rest == (whole + sep) + rest;
  }

  /** A one-entry dict `{"ltp": v}` answers the probe with the conversion of `v`. */
  lemma LtpOnlyBody(v: Json, keys: seq<string>, parse: string -> Option<real>)
    requires |keys| >= 2 && keys[0] == "LTP" && keys[1] == "ltp"
    requires v != JNull && v != JStr("") && StrFloat(v, parse).Some?
    ensures ProbeKeys(JObj([("ltp", v)]), keys, parse) == StrFloat(v, parse)
  {
    var body := JObj([("ltp", v)]);
    assert "ltp" != "LTP";
    assert Get(body, "LTP") == None;
    assert ProbeAt(body, "LTP", parse) == None;
    assert ProbeAt(body, "ltp", parse) == StrFloat(v, parse);
    assert keys[1..][0] == "ltp";
  }

  /**
   * A thousands separator is dropped before parsing:
   * `{"data": {"ltp": "19,245.75"}}` gives `float("19245.75")` on both paths.
   */
  lemma ThousandsSeparator(parse: string -> Option<real>, whole: string, rest: string, x: real)
    requires ',' !in whole && ',' !in rest
    requires parse(whole + rest) == Some(x)
    ensures var resp := JObj([("data", JObj([("ltp", JStr(whole + "," + rest))]))]);
            VendorLtp(resp, parse) == Some(x) && HttpLtp(resp, parse) == Some(x)
  {
    var v := JStr(whole + "," + rest);
    var data := JObj([("ltp", v)]);
    var resp := JObj([("data", data)]);
    SeparatorDropped(whole, rest);
    assert StrFloat(v, parse) == Some(x);
    assert v != JStr("") by { assert |whole + "," + rest| > 0; }
    LtpOnlyBody(v, VendorKeys, parse);
    LtpOnlyBody(v, HttpKeys, parse);
    ContainersInOrder(resp);
    assert Get(resp, "data") == Some(data);
    assert Bodies(resp) == [data, resp];
  }

  /** A key without upper-case letters matches when one of the patterns occurs in it. */
  lemma MatchesAt(k: string, t: string, i: nat)
    requires forall n :: 0 <= n < |k| ==> !('A' <= k[n] <= 'Z')
    requires t in ["ltp", "last", "price", "lt"]
    requires OccursAt(k, t, i)
    ensures KeyMatches(k)
  {
    LowerKeeps(k);
    ContainsIff(k, t);
  }

  /** Which keys look like a price. The bare "lt" also matches "result". */
  lemma KeyVerdicts()
    ensures KeyMatches("ltp") && KeyMatches("lt") && KeyMatches("price") && KeyMatches("result")
    ensures KeyMatches("lastPrice")
  {
    assert KeyMatches("ltp") by { MatchesAt("ltp", "ltp", 0); }
    assert KeyMatches("lt") by { MatchesAt("lt", "lt", 0); }
    assert KeyMatches("price") by { MatchesAt("price", "price", 0); }
    assert KeyMatches("result") by { MatchesAt("result", "lt", 4); }
    LastPriceMatches();
  }

  /** "lastPrice" lower-cases to "lastprice", which starts with "last". */
  lemma LastPriceMatches()
    ensures KeyMatches("lastPrice")
  {
    LowerAppend("last", "Price");
    LowerKeeps("last");
    assert "lastPrice" == "last" + "Price";
    ContainsIff(Lower("lastPrice"), "last");
    assert OccursAt(Lower("lastPrice"), "last", 0);
  }

  /** Keys that do not look like a price. */
  lemma KeyNonVerdicts()
    ensures !KeyMatches("a") && !KeyMatches("data") && !KeyMatches("quote")
  {
    NoPatternStart("a");
    NoPatternStart("data");
    NoPatternStart("quote");
  }

  /**
   * Every pattern starts with 'l' or 'p', so a key without upper-case
   * letters in which neither occurs does not match.
   */
  lemma NoPatternStart(k: string)
    requires forall n :: 0 <= n < |k| ==> !('A' <= k[n] <= 'Z') && k[n] != 'l' && k[n] != 'p'
    ensures !KeyMatches(k)
  {
    LowerKeeps(k);
    forall t | t in ["ltp", "last", "price", "lt"]
      ensures !Contains(k, t)
    {
      ContainsIff(k, t);
      forall i | 0 <= i < |k|
        ensures !OccursAt(k, t, i)
      {
        assert k[i] != t[0];
      }
    }
  }

  /**
   * `{"LTP": 1, "data": {"ltp": 2}}` gives 2.0 on both paths: the vendor
   * path probes the root after the containers, the HTTP path probes only
   * `data` when it is present.
   */
  lemma RootAfterData(parse: string -> Option<real>)
    ensures var resp := JObj([("LTP", JInt(1)), ("data", JObj([("ltp", JInt(2))]))]);
            VendorLtp(resp, parse) == Some(2.0) && HttpLtp(resp, parse) == Some(2.0)
  {
    var data := JObj([("ltp", JInt(2))]);
    var resp := JObj([("LTP", JInt(1)), ("data", data)]);
    LtpOnlyBody(JInt(2), VendorKeys, parse);
    LtpOnlyBody(JInt(2), HttpKeys, parse);
    assert "LTP" != "data";
    assert resp.entries[1..] == [("data", data)];
    assert Find([("data", data)], "data") == Some(data);
    assert Find(resp.entries, "data") == Find(resp.entries[1..], "data");
    assert Get(resp, "data") == Some(data);
    ContainersInOrder(resp);
    assert Bodies(resp) == [data, resp];
  }

  /** A dict none of whose entries under a probed key converts yields no probe result. */
  lemma NoKeyUsable(es: seq<(string, Json)>, keys: seq<string>, parse: string -> Option<real>)
    requires forall n, i :: 0 <= n < |es| && 0 <= i < |keys| && es[n].0 == keys[i] ==> StrFloat(es[n].1, parse).None?
    ensures ProbeKeys(JObj(es), keys, parse) == None
  {
    ProbeKeysNone(JObj(es), keys, parse);
  }

  /** A dict holding none of the containers is probed on its own. */
  lemma OnlyRoot(es: seq<(string, Json)>)
    requires forall n :: 0 <= n < |es| ==> es[n].0 !in Containers
    ensures Bodies(JObj(es)) == [JObj(es)]
  {
    ContainersInOrder(JObj(es));
  }

  /** The scan of a one-entry dict, at a depth that is scanned. */
  lemma ScanOne(k: string, v: Json, p: seq<Seg>, d: nat, parse: string -> Option<real>)
    requires d <= MaxDepth
    ensures Scan(JObj([(k, v)]), p, d, MaxDepth, parse) == EntryHit(p, k, v, parse) + Scan(v, p + [Key(k)], d + 1, MaxDepth, parse)
  {
    assert ScanEntries([(k, v)], 1, p, d, MaxDepth, parse) == [];
  }

  /**
   * A dict without containers and without a usable value under any probed
   * key is decided by the deep scan on both paths.
   */
  lemma ScanDecides(es: seq<(string, Json)>, parse: string -> Option<real>)
    requires es != []
    requires forall n :: 0 <= n < |es| ==> es[n].0 !in Containers
    requires forall n, i :: 0 <= n < |es| && 0 <= i < |VendorKeys| && es[n].0 == VendorKeys[i] ==> StrFloat(es[n].1, parse).None?
    ensures var hits := Scan(JObj(es), [], 0, MaxDepth, parse);
            VendorLtp(JObj(es), parse) == (if hits == [] then None else FloatOf(hits[0].value))
            && HttpLtp(JObj(es), parse) == FirstFloat(hits)
  {
    var j := JObj(es);
    NoKeyUsable(es, VendorKeys, parse);
    assert HttpKeys == VendorKeys[..4];
    NoKeyUsable(es, HttpKeys, parse);
    OnlyRoot(es);
    assert "data" in Containers;
    assert Find(es, "data") == None;
    assert HttpBody(j) == j;
    ProbeBodiesNone(Bodies(j), VendorKeys, parse);
  }

  /** The scan of `{"ltp": true}`. */
  lemma BoolScan(parse: string -> Option<real>)
    ensures Scan(JObj([("ltp", JBool(true))]), [], 0, MaxDepth, parse) == [Hit([Key("ltp")], Bool(true))]
  {
    assert KeyMatches("ltp") by { MatchesAt("ltp", "ltp", 0); }
    assert [] + [Key("ltp")] == [Key("ltp")];
    assert EntryHit([], "ltp", JBool(true), parse) == [Hit([Key("ltp")], Bool(true))];
    ScanOne("ltp", JBool(true), [], 0, parse);
  }

  /**
   * `{"ltp": true}`: the direct probe skips the bool (its text "True" is
   * not a float), but the deep scan counts it as the number 1.
   */
  lemma BoolIsNumeric(parse: string -> Option<real>)
    ensures var j := JObj([("ltp", JBool(true))]);
            VendorLtp(j, parse) == Some(1.0) && HttpLtp(j, parse) == Some(1.0)
  {
    var j := JObj([("ltp", JBool(true))]);
    ScanDecides(j.entries, parse);
    BoolScan(parse);
  }

  /**
   * A response that is a list is never searched on the vendor path, while
   * the HTTP path deep-scans it: `[{"ltp": 7}]`.
   */
  lemma ListResponse(parse: string -> Option<real>)
    ensures var j := JList([JObj([("ltp", JInt(7))])]);
            VendorLtp(j, parse) == None && HttpLtp(j, parse) == Some(7.0)
  {
    var o := JObj([("ltp", JInt(7))]);
    var j := JList([o]);
    assert KeyMatches("ltp") by { MatchesAt("ltp", "ltp", 0); }
    assert [Index(0)] + [Key("ltp")] == [Index(0), Key("ltp")];
    assert EntryHit([Index(0)], "ltp", JInt(7), parse) == [Hit([Index(0), Key("ltp")], Int(7))];
    ScanOne("ltp", JInt(7), [Index(0)], 1, parse);
    assert [] + [Index(0)] == [Index(0)];
    assert ScanItems([o], 1, [], 0, MaxDepth, parse) == [];
    assert Scan(j, [], 0, MaxDepth, parse) == Scan(o, [Index(0)], 1, MaxDepth, parse);
    assert Scan(j, [], 0, MaxDepth, parse) == [Hit([Index(0), Key("ltp")], Int(7))];
  }

  /** The scan of `{"price": x, "lt": 3}`: both entries, in order. */
  lemma PriceThenLtScan(x: int, parse: string -> Option<real>)
    ensures Scan(JObj([("price", JInt(x)), ("lt", JInt(3))]), [], 0, MaxDepth, parse)
            == [Hit([Key("price")], Int(x)), Hit([Key("lt")], Int(3))]
  {
    assert KeyMatches("price") by { MatchesAt("price", "price", 0); }
    assert KeyMatches("lt") by { MatchesAt("lt", "lt", 0); }
    assert [] + [Key("price")] == [Key("price")];
    assert [] + [Key("lt")] == [Key("lt")];
    assert EntryHit([], "price", JInt(x), parse) == [Hit([Key("price")], Int(x))];
    assert EntryHit([], "lt", JInt(3), parse) == [Hit([Key("lt")], Int(3))];
    assert [("price", JInt(x))] + [("lt", JInt(3))] == [("price", JInt(x)), ("lt", JInt(3))];
    ScanObjectPreorder("price", JInt(x), [("lt", JInt(3))], [], 0, MaxDepth, parse);
    ScanOne("lt", JInt(3), [], 0, parse);
  }

  /**
   * When the first hit is an int too large for a float, the vendor path
   * gives up while the HTTP path moves on to the next hit:
   * `{"price": 2**1024 - 2**970, "lt": 3}`, the smallest such int.
   */
  lemma OverflowingFirstHit(parse: string -> Option<real>)
    ensures var j := JObj([("price", JInt(FloatOverflow)), ("lt", JInt(3))]);
            VendorLtp(j, parse) == None && HttpLtp(j, parse) == Some(3.0)
  {
    var j := JObj([("price", JInt(FloatOverflow)), ("lt", JInt(3))]);
    ScanDecides(j.entries, parse);
    PriceThenLtScan(FloatOverflow, parse);
    var hits := [Hit([Key("price")], Int(FloatOverflow)), Hit([Key("lt")], Int(3))];
    assert FloatOf(hits[0].value) == None;
    assert hits[1..] == [hits[1]];
  }

  /**
   * One below the bound the first hit converts, and both paths return it:
   * `{"price": 2**1024 - 2**970 - 1, "lt": 3}`.
   */
  lemma LargestConvertibleFirstHit(parse: string -> Option<real>)
    ensures var x := FloatOverflow - 1;
            var j := JObj([("price", JInt(x)), ("lt", JInt(3))]);
            VendorLtp(j, parse) == Some(x as real) && HttpLtp(j, parse) == Some(x as real)
  {
    var j := JObj([("price", JInt(FloatOverflow - 1)), ("lt", JInt(3))]);
    ScanDecides(j.entries, parse);
    PriceThenLtScan(FloatOverflow - 1, parse);
    var hits := [Hit([Key("price")], Int(FloatOverflow - 1)), Hit([Key("lt")], Int(3))];
    assert FloatOf(hits[0].value) == Some((FloatOverflow - 1) as real);
  }
}
