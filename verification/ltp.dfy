/**
 * The decision logic of `get_ltp`: a fixed-order probe of well-known keys,
 * then the first deep-scan hit. The quote fetch itself is an input.
 */
module Ltp {
  import opened Wrappers
  import opened Text
  import opened JsonValue
  import opened DeepScan

  /** The containers probed before the root on the vendor-client path, in this order. */
  const Containers: seq<string> := ["data", "result", "response", "payload"]
  /** The keys probed on the vendor-client path, in this order. */
  const VendorKeys: seq<string> := ["LTP", "ltp", "lastPrice", "last_traded_price", "lastTradedPrice", "last"]
  /** The keys probed on the HTTP path, in this order. */
  const HttpKeys: seq<string> := ["LTP", "ltp", "lastPrice", "last_traded_price"]

  /**
   * Where the quote came from. `VendorClient(JNull)` also stands for a
   * `get_market_quote` call that raised; `HttpFallback(None)` for a request,
   * status check or JSON decoding that raised; `NoTransport` for no vendor
   * client and no access token.
   */
  datatype Transport =
    | VendorClient(reply: Json)
    | HttpFallback(body: Option<Json>)
    | NoTransport

  /**
   * `float(str(v).replace(",", ""))`. The text of an int or float reads back
   * as the same number; the text of a bool ("True"), list ("[...") or dict
   * ("{...") is never a float.
   */
  function StrFloat(v: Json, parse: string -> Option<real>): (r: Option<real>)
    ensures v.JInt? ==> r == Some(v.i as real)
    ensures v.JNum? ==> r == Some(v.r)
    ensures v.JStr? ==> r == parse(RemoveCommas(v.s))
    ensures r.Some? ==> v.JInt? || v.JNum? || v.JStr?
  {
    match v
    case JStr(s) => parse(RemoveCommas(s))
    case JInt(i) => Some(i as real)
    case JNum(r) => Some(r)
    case _ => None
  }

  /** One probe: the key is present, its value is neither None nor "", and it converts. */
  function ProbeAt(body: Json, key: string, parse: string -> Option<real>): Option<real>
  {
    match Get(body, key)
    case None => None
    case Some(v) => if v == JNull || v == JStr("") then None else StrFloat(v, parse)
  }

  /** The first key of `keys` whose probe succeeds. */
  function ProbeKeys(body: Json, keys: seq<string>, parse: string -> Option<real>): Option<real>
  {
    if keys == [] then None
    else match ProbeAt(body, keys[0], parse)
      case Some(x) => Some(x)
      case None => ProbeKeys(body, keys[1..], parse)
  }

  /** The first body of `bodies` with a successful probe. */
  function ProbeBodies(bodies: seq<Json>, keys: seq<string>, parse: string -> Option<real>): Option<real>
  {
    if bodies == [] then None
    else match ProbeKeys(bodies[0], keys, parse)
      case Some(x) => Some(x)
      case None => ProbeBodies(bodies[1..], keys, parse)
  }

  /** The values under those of `cs` that are present in `resp`, in the order of `cs`. */
  function PresentContainers(resp: Json, cs: seq<string>): seq<Json>
  {
    if cs == [] then []
    else
      var last := cs[|cs| - 1];
      PresentContainers(resp, cs[..|cs| - 1]) + (match Get(resp, last) case Some(b) => [b] case None => [])
  }

  /** The candidate bodies of the vendor-client path: the present containers, then the root. */
  function Bodies(resp: Json): seq<Json>
  {
    PresentContainers(resp, Containers) + [resp]
  }

  /** The first hit whose `float()` conversion succeeds. */
  function FirstFloat(hits: seq<Hit>): Option<real>
  {
    if hits == [] then None
    else match FloatOf(hits[0].value)
      case Some(x) => Some(x)
      case None => FirstFloat(hits[1..])
  }

  /** The vendor-client path, from the response on. */
  function VendorLtp(resp: Json, parse: string -> Option<real>): Option<real>
  {
    if Falsy(resp) || !resp.JObj? then None
    else match ProbeBodies(Bodies(resp), VendorKeys, parse)
      case Some(x) => Some(x)
      case None =>
        var hits := Scan(resp, [], 0, MaxDepth, parse);
        if hits == [] then None else FloatOf(hits[0].value)
  }

  /** The body the HTTP path probes: `j["data"]` when present, else `j`. */
  function HttpBody(j: Json): Json
  {
    match Get(j, "data")
    case Some(b) => b
    case None => j
  }

  /** The HTTP path, from the decoded JSON on. */
  function HttpLtp(j: Json, parse: string -> Option<real>): Option<real>
  {
    var direct := if j.JObj? then ProbeKeys(HttpBody(j), HttpKeys, parse) else None;
    match direct
    case Some(x) => Some(x)
    case None => FirstFloat(Scan(j, [], 0, MaxDepth, parse))
  }

  /** `get_ltp`: the price extracted from whatever the transport delivered, or None. */
  function LtpOf(t: Transport, parse: string -> Option<real>): Option<real>
  {
    match t
    case VendorClient(resp) => VendorLtp(resp, parse)
    case HttpFallback(Some(j)) => HttpLtp(j, parse)
    case HttpFallback(None) => None
    case NoTransport => None
  }

  /**
   * Tries the keys in order and returns the first present value that is
   * neither null nor the empty string and converts to a float; a value that
   * fails to convert is passed over.
   */
  method TryKeys(body: Json, keys: seq<string>, parse: string -> Option<real>) returns (val: Option<real>)
    ensures val == ProbeKeys(body, keys, parse)
  {
    var k := 0;
    while k < |keys|
      invariant 0 <= k <= |keys|
      invariant ProbeKeys(body, keys, parse) == ProbeKeys(body, keys[k..], parse)
    {
      assert keys[k..][1..] == keys[k + 1..];
      var got := Get(body, keys[k]);
      if got.Some? && got.value != JNull && got.value != JStr("") {
        var f := StrFloat(got.value, parse);
        if f.Some? {
          return f;
        }
      }
      k := k + 1;
    }
    return None;
  }

  /** The vendor-client branch of `get_ltp`, from the response on. */
  method VendorExtract(resp: Json, parse: string -> Option<real>) returns (price: Option<real>)
    ensures price == VendorLtp(resp, parse)
  {
    if Falsy(resp) {
      return None;
    }
    if resp.JObj? {
      var bodies: seq<Json> := [];
      var c := 0;
      while c < |Containers|
        invariant 0 <= c <= |Containers|
        invariant bodies == PresentContainers(resp, Containers[..c])
      {
        assert Containers[..c + 1][..c] == Containers[..c];
        var got := Get(resp, Containers[c]);
        if got.Some? {
          bodies := bodies + [got.value];
        }
        c := c + 1;
      }
      assert Containers[..c] == Containers;
      bodies := bodies + [resp];
      var b := 0;
      while b < |bodies|
        invariant 0 <= b <= |bodies|
        invariant ProbeBodies(bodies, VendorKeys, parse) == ProbeBodies(bodies[b..], VendorKeys, parse)
      {
        assert bodies[b..][1..] == bodies[b + 1..];
        if bodies[b].JObj? {
          var v := TryKeys(bodies[b], VendorKeys, parse);
          if v.Some? {
            return v;
          }
        } else {
          NonObjectProbe(bodies[b], VendorKeys, parse);
        }
        b := b + 1;
      }
      var hits := DeepSearch(resp, [], 0, MaxDepth, parse);
      if hits != [] {
        var f := FloatOf(hits[0].value);
        if f.Some? {
          return f;
        }
      }
    }
    return None;
  }

  /** The HTTP branch of `get_ltp`, from the decoded JSON on. */
  method HttpExtract(j: Json, parse: string -> Option<real>) returns (price: Option<real>)
    ensures price == HttpLtp(j, parse)
  {
    if j.JObj? {
      var got := Get(j, "data");
      var body := if got.Some? then got.value else j;
      if body.JObj? {
        var v := TryKeys(body, HttpKeys, parse);
        if v.Some? {
          return v;
        }
      } else {
        NonObjectProbe(body, HttpKeys, parse);
      }
    }
    var hits := DeepSearch(j, [], 0, MaxDepth, parse);
    var n := 0;
    while n < |hits|
      invariant 0 <= n <= |hits|
      invariant FirstFloat(hits) == FirstFloat(hits[n..])
    {
      assert hits[n..][1..] == hits[n + 1..];
      var f := FloatOf(hits[n].value);
      if f.Some? {
        return f;
      }
      n := n + 1;
    }
    return None;
  }

  /** `get_ltp`: dispatch on the transport; every failure ends in None. */
  method GetLtp(t: Transport, parse: string -> Option<real>) returns (price: Option<real>)
    ensures price == LtpOf(t, parse)
  {
    match t {
      case VendorClient(resp) =>
        price := VendorExtract(resp, parse);
      case HttpFallback(reply) =>
        if reply.None? {
          return None;
        }
        price := HttpExtract(reply.value, parse);
      case NoTransport =>
        return None;
    }
  }

  /** A body that is not a dict yields no probe result. */
  lemma {:induction false} NonObjectProbe(body: Json, keys: seq<string>, parse: string -> Option<real>)
    requires !body.JObj?
    ensures ProbeKeys(body, keys, parse) == None
  {
    if keys != [] {
      NonObjectProbe(body, keys[1..], parse);
    }
  }
}
