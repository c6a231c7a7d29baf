/** The precedence rules of `get_ltp` and worked responses. */
module LtpProps {
  import opened Wrappers
  import opened JsonValue
  import opened DeepScan
  import opened DeepScanProps
  import opened Ltp

  /** Key `k` is the first of `ks` whose probe of `body` succeeds. */
  ghost predicate FirstKey(body: Json, ks: seq<string>, k: int, parse: string -> Option<real>)
  {
    && 0 <= k < |ks|
    && ProbeAt(body, ks[k], parse).Some?
    && forall k' :: 0 <= k' < k ==> ProbeAt(body, ks[k'], parse).None?
  }

  /** Pair (`b`, `k`) is the first, in body-then-key order, whose probe succeeds. */
  ghost predicate FirstUsable(bs: seq<Json>, ks: seq<string>, b: int, k: int, parse: string -> Option<real>)
  {
    && 0 <= b < |bs|
    && FirstKey(bs[b], ks, k, parse)
    && forall b', k' :: 0 <= b' < b && 0 <= k' < |ks| ==> ProbeAt(bs[b'], ks[k'], parse).None?
  }

  /** No probe of `ks` on any of `bs` succeeds. */
  ghost predicate NoneUsable(bs: seq<Json>, ks: seq<string>, parse: string -> Option<real>)
  {
    forall b, k :: 0 <= b < |bs| && 0 <= k < |ks| ==> ProbeAt(bs[b], ks[k], parse).None?
  }

  lemma {:induction false} ProbeKeysNone(body: Json, ks: seq<string>, parse: string -> Option<real>)
    ensures ProbeKeys(body, ks, parse).None? <==> forall k :: 0 <= k < |ks| ==> ProbeAt(body, ks[k], parse).None?
  {
    if ks != [] {
      ProbeKeysNone(body, ks[1..], parse);
      assert forall k :: 1 <= k < |ks| ==> ks[k] == ks[1..][k - 1];
    }
  }

  /** Within one body, the result is the value of the first key, in the fixed order, that is usable. */
  lemma {:induction false} ProbeKeysFirst(body: Json, ks: seq<string>, parse: string -> Option<real>, x: real)
    ensures ProbeKeys(body, ks, parse) == Some(x) <==> exists k :: FirstKey(body, ks, k, parse) && ProbeAt(body, ks[k], parse) == Some(x)
  {
    if ks != [] {
      ProbeKeysFirst(body, ks[1..], parse, x);
      if ProbeAt(body, ks[0], parse).Some? {
        assert FirstKey(body, ks, 0, parse);
        forall k | FirstKey(body, ks, k, parse) ensures k == 0 { }
      } else {
        if ProbeKeys(body, ks, parse) == Some(x) {
          var k1 :| FirstKey(body, ks[1..], k1, parse) && ProbeAt(body, ks[1..][k1], parse) == Some(x);
          assert FirstKey(body, ks, k1 + 1, parse) by {
            forall k' | 1 <= k' < k1 + 1 ensures ProbeAt(body, ks[k'], parse).None? {
              assert ks[k'] == ks[1..][k' - 1];
            }
          }
        }
        if exists k :: FirstKey(body, ks, k, parse) && ProbeAt(body, ks[k], parse) == Some(x) {
          var k :| FirstKey(body, ks, k, parse) && ProbeAt(body, ks[k], parse) == Some(x);
          assert k != 0;
          assert FirstKey(body, ks[1..], k - 1, parse) by {
            forall k' | 0 <= k' < k - 1 ensures ProbeAt(body, ks[1..][k'], parse).None? {
              assert ks[1..][k'] == ks[k' + 1];
            }
          }
        }
      }
    }
  }

  /** Across bodies, no usable pair means no direct result. */
  lemma {:induction false} ProbeBodiesNone(bs: seq<Json>, ks: seq<string>, parse: string -> Option<real>)
    ensures ProbeBodies(bs, ks, parse).None? <==> NoneUsable(bs, ks, parse)
  {
    if bs != [] {
      ProbeBodiesNone(bs[1..], ks, parse);
      ProbeKeysNone(bs[0], ks, parse);
      assert forall b :: 1 <= b < |bs| ==> bs[b] == bs[1..][b - 1];
    }
  }

  /**
   * The nested loops with early return pick the first usable (body, key)
   * pair: bodies in their order, and keys in the fixed order within a body.
   * A key that is missing, None, "" or does not convert only moves on.
   */
  lemma {:induction false} ProbeBodiesFirst(bs: seq<Json>, ks: seq<string>, parse: string -> Option<real>, x: real)
    ensures ProbeBodies(bs, ks, parse) == Some(x)
            <==> exists b, k :: FirstUsable(bs, ks, b, k, parse) && ProbeAt(bs[b], ks[k], parse) == Some(x)
  {
    if bs != [] {
      ProbeBodiesFirst(bs[1..], ks, parse, x);
      ProbeKeysNone(bs[0], ks, parse);
      ProbeKeysFirst(bs[0], ks, parse, x);
      if ProbeKeys(bs[0], ks, parse).Some? {
        if ProbeKeys(bs[0], ks, parse) == Some(x) {
          var k :| FirstKey(bs[0], ks, k, parse) && ProbeAt(bs[0], ks[k], parse) == Some(x);
          assert FirstUsable(bs, ks, 0, k, parse);
        }
        forall b, k | FirstUsable(bs, ks, b, k, parse) && ProbeAt(bs[b], ks[k], parse) == Some(x)
          ensures ProbeKeys(bs[0], ks, parse) == Some(x)
        {
          if b > 0 {
            assert false;
          }
        }
      } else {
        if ProbeBodies(bs, ks, parse) == Some(x) {
          var b1, k :| FirstUsable(bs[1..], ks, b1, k, parse) && ProbeAt(bs[1..][b1], ks[k], parse) == Some(x);
          assert FirstUsable(bs, ks, b1 + 1, k, parse) by {
            forall b', k' | 1 <= b' < b1 + 1 && 0 <= k' < |ks| ensures ProbeAt(bs[b'], ks[k'], parse).None? {
              assert bs[b'] == bs[1..][b' - 1];
            }
          }
        }
        if exists b, k :: FirstUsable(bs, ks, b, k, parse) && ProbeAt(bs[b], ks[k], parse) == Some(x) {
          var b, k :| FirstUsable(bs, ks, b, k, parse) && ProbeAt(bs[b], ks[k], parse) == Some(x);
          assert b != 0;
          assert FirstUsable(bs[1..], ks, b - 1, k, parse) by {
            forall b', k' | 0 <= b' < b - 1 && 0 <= k' < |ks| ensures ProbeAt(bs[1..][b'], ks[k'], parse).None? {
              assert bs[1..][b'] == bs[b' + 1];
            }
          }
        }
      }
    }
  }

  /** `ProbeBodies` over `a + b` tries all of `a` before any of `b`. */
  lemma {:induction false} ProbeBodiesAppend(a: seq<Json>, b: seq<Json>, ks: seq<string>, parse: string -> Option<real>)
    ensures ProbeBodies(a + b, ks, parse)
            == match ProbeBodies(a, ks, parse) case Some(x) => Some(x) case None => ProbeBodies(b, ks, parse)
  {
    if a != [] {
      assert (a + b)[1..] == a[1..] + b;
      ProbeBodiesAppend(a[1..], b, ks, parse);
    } else {
      assert a + b == b;
    }
  }

  /**
   * The root is probed last: a usable key in any present container wins
   * over the root's own keys, which are probed only when every container fails.
   */
  lemma VendorRootLast(resp: Json, parse: string -> Option<real>)
    ensures ProbeBodies(Bodies(resp), VendorKeys, parse)
            == match ProbeBodies(PresentContainers(resp, Containers), VendorKeys, parse)
               case Some(x) => Some(x)
               case None => ProbeKeys(resp, VendorKeys, parse)
  {
    ProbeBodiesAppend(PresentContainers(resp, Containers), [resp], VendorKeys, parse);
  }

  /** The containers are tried in the order data, result, response, payload. */
  lemma ContainersInOrder(resp: Json)
    ensures PresentContainers(resp, Containers)
            == Present(resp, "data") + Present(resp, "result") + Present(resp, "response") + Present(resp, "payload")
  {
    var cs := Containers;
    assert cs[..1][..0] == [];
    assert PresentContainers(resp, cs[..1]) == Present(resp, "data");
    assert cs[..2][..1] == cs[..1];
    assert PresentContainers(resp, cs[..2]) == PresentContainers(resp, cs[..1]) + Present(resp, "result");
    assert cs[..3][..2] == cs[..2];
    assert PresentContainers(resp, cs[..3]) == PresentContainers(resp, cs[..2]) + Present(resp, "response");
    assert cs[..3] == cs[..|cs| - 1];
    assert PresentContainers(resp, cs) == PresentContainers(resp, cs[..3]) + Present(resp, "payload");
  }

  /** The value under `c`, as a one-element list, or nothing when `c` is absent. */
  function Present(resp: Json, c: string): seq<Json>
  {
    match Get(resp, c) case Some(b) => [b] case None => []
  }

  /**
   * The vendor-client path returns `x` exactly when the response is a
   * non-empty dict and either the first usable (body, key) pair gives `x`,
   * or no pair is usable and the first deep-scan hit converts to `x`.
   */
  lemma VendorLtpExact(resp: Json, parse: string -> Option<real>, x: real)
    ensures VendorLtp(resp, parse) == Some(x) <==>
      && !Falsy(resp) && resp.JObj?
      && ( (exists b, k :: FirstUsable(Bodies(resp), VendorKeys, b, k, parse)
                            && ProbeAt(Bodies(resp)[b], VendorKeys[k], parse) == Some(x))
         || (&& NoneUsable(Bodies(resp), VendorKeys, parse)
             && Scan(resp, [], 0, MaxDepth, parse) != []
             && FloatOf(Scan(resp, [], 0, MaxDepth, parse)[0].value) == Some(x)))
  {
    ProbeBodiesFirst(Bodies(resp), VendorKeys, parse, x);
    ProbeBodiesNone(Bodies(resp), VendorKeys, parse);
  }

  /**
   * A price from the deep-scan fallback names a matching entry of the
   * response within the depth and width bounds.
   */
  lemma VendorFallbackSource(resp: Json, parse: string -> Option<real>, x: real)
    requires VendorLtp(resp, parse) == Some(x)
    requires NoneUsable(Bodies(resp), VendorKeys, parse)
    ensures Scan(resp, [], 0, MaxDepth, parse) != []
    ensures var h := Scan(resp, [], 0, MaxDepth, parse)[0];
            HitSource(resp, h.path, h.value, 0, MaxDepth, parse) && FloatOf(h.value) == Some(x)
  {
    ProbeBodiesNone(Bodies(resp), VendorKeys, parse);
    RootHits(resp, parse, Scan(resp, [], 0, MaxDepth, parse)[0]);
  }

  /**
   * When no key is usable and no matching entry lies within the bounds,
   * both paths report no price.
   */
  lemma NoCandidateNoPrice(j: Json, parse: string -> Option<real>)
    requires NoneUsable(Bodies(j), VendorKeys, parse)
    requires !j.JObj? || ProbeKeys(HttpBody(j), HttpKeys, parse).None?
    requires forall h: Hit :: !HitSource(j, h.path, h.value, 0, MaxDepth, parse)
    ensures VendorLtp(j, parse) == None && HttpLtp(j, parse) == None
  {
    ProbeBodiesNone(Bodies(j), VendorKeys, parse);
    var hits := Scan(j, [], 0, MaxDepth, parse);
    if hits != [] {
      RootHits(j, parse, hits[0]);
      assert false;
    }
  }

  /** `FirstFloat` returns the conversion of the first hit that converts. */
  lemma {:induction false} FirstFloatFirst(hits: seq<Hit>, x: real)
    ensures FirstFloat(hits) == Some(x) <==>
            exists n :: 0 <= n < |hits| && FloatOf(hits[n].value) == Some(x)
                        && forall m :: 0 <= m < n ==> FloatOf(hits[m].value).None?
  {
    if hits != [] {
      FirstFloatFirst(hits[1..], x);
      if FloatOf(hits[0].value).None? {
        if FirstFloat(hits) == Some(x) {
          var n :| 0 <= n < |hits[1..]| && FloatOf(hits[1..][n].value) == Some(x)
                   && forall m :: 0 <= m < n ==> FloatOf(hits[1..][m].value).None?;
          assert hits[n + 1] == hits[1..][n];
          forall m | 0 <= m < n + 1 ensures FloatOf(hits[m].value).None? {
            if m > 0 { assert hits[m] == hits[1..][m - 1]; }
          }
        }
        if exists n :: 0 <= n < |hits| && FloatOf(hits[n].value) == Some(x)
                       && forall m :: 0 <= m < n ==> FloatOf(hits[m].value).None? {
          var n :| 0 <= n < |hits| && FloatOf(hits[n].value) == Some(x)
                   && forall m :: 0 <= m < n ==> FloatOf(hits[m].value).None?;
          assert n != 0;
          assert hits[1..][n - 1] == hits[n];
          forall m | 0 <= m < n - 1 ensures FloatOf(hits[1..][m].value).None? {
            assert hits[1..][m] == hits[m + 1];
          }
        }
      }
    }
  }

  /**
   * The HTTP path probes only `j["data"]` when that key is present, else
   * `j`, with its four keys, and then takes the first deep-scan hit that
   * converts, skipping hits that do not.
   */
  lemma HttpLtpExact(j: Json, parse: string -> Option<real>, x: real)
    ensures HttpLtp(j, parse) == Some(x) <==>
      || (j.JObj? && exists k :: FirstKey(HttpBody(j), HttpKeys, k, parse) && ProbeAt(HttpBody(j), HttpKeys[k], parse) == Some(x))
      || (&& (!j.JObj? || forall k :: 0 <= k < |HttpKeys| ==> ProbeAt(HttpBody(j), HttpKeys[k], parse).None?)
          && var hits := Scan(j, [], 0, MaxDepth, parse);
             exists n :: 0 <= n < |hits| && FloatOf(hits[n].value) == Some(x)
                         && forall m :: 0 <= m < n ==> FloatOf(hits[m].value).None?)
  {
    ProbeKeysFirst(HttpBody(j), HttpKeys, parse, x);
    ProbeKeysNone(HttpBody(j), HttpKeys, parse);
    FirstFloatFirst(Scan(j, [], 0, MaxDepth, parse), x);
  }

  /** Failures of the transport, and a missing transport, give no price. */
  lemma TransportFailureNoPrice(parse: string -> Option<real>)
    ensures LtpOf(HttpFallback(None), parse) == None
    ensures LtpOf(NoTransport, parse) == None
    ensures LtpOf(VendorClient(JNull), parse) == None
  {
  }
}
