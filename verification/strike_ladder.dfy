/**
 * The option chain `build_option_chain` lays out around a spot price: the
 * at-the-money strike (the spot rounded to the strike interval, ties to
 * even) and `STRIKE_WINDOW` strikes on either side, each with a call and a
 * put leg from the `get_option_data` placeholder.
 */
module StrikeLadder {
  import opened Wrappers

  /** The `STRIKE_WINDOW` used when the environment does not set one. */
  const DefaultWindow: int := 5

  /** The option side passed to `get_option_data`. */
  datatype Side = CE | PE

  /** One leg of a row: the dict `{"ltp", "oi", "iv", "volume"}`. */
  datatype Leg = Leg(ltp: real, oi: int, iv: Option<real>, volume: int)

  /** One row of the chain: `{"strike", "CE", "PE", "is_atm"}`. */
  datatype Row = Row(strike: int, ce: Leg, pe: Leg, isAtm: bool)

  /** True when the symbol, upper-cased, starts with "NIFTY" (ASCII letters only). */
  predicate IsNifty(symbol: string)
  {
    |symbol| >= 5
    && forall n :: 0 <= n < 5 ==> symbol[n] == "NIFTY"[n] || symbol[n] == "nifty"[n]
  }

  /** The strike interval: both branches of the symbol test give 50. */
  function StrikeInterval(symbol: string): (r: int)
    ensures r == 50
  {
    if IsNifty(symbol) then 50 else 50
  }

  /**
   * The placeholder leg: zero price, zero open interest, no implied
   * volatility and zero volume, whatever the symbol, strike, side or expiry.
   */
  function GetOptionData(symbol: string, strike: int, side: Side, expiry: string): (r: Leg)
    ensures r.ltp == 0.0 && r.oi == 0 && r.iv == None && r.volume == 0
  {
    Leg(0.0, 0, None, 0)
  }

  /** Python's `round(x)`: the nearest integer, a tie going to the even one. */
  function RoundHalfEven(x: real): (r: int)
    ensures -(1.0 / 2.0) <= x - r as real <= 1.0 / 2.0
    ensures (x - r as real == 1.0 / 2.0 || r as real - x == 1.0 / 2.0) ==> r % 2 == 0
  {
    var f := x.Floor;
    var d := x - f as real;
    if d < 1.0 / 2.0 then f
    else if d > 1.0 / 2.0 then f + 1
    else if f % 2 == 0 then f else f + 1
  }

  /** `round(spot_price / interval) * interval`, the interval being 50. */
  function Atm(spot: real): (atm: int)
    ensures atm % 50 == 0
    ensures -25.0 <= spot - atm as real <= 25.0
    ensures (spot - atm as real == 25.0 || atm as real - spot == 25.0) ==> atm % 100 == 0
  {
    RoundHalfEven(spot / 50.0) * 50
  }

  /** The row for offset `i` from the at-the-money strike. */
  function RowAt(symbol: string, atm: int, i: int, expiry: string): Row
  {
    var strike := atm + i * StrikeInterval(symbol);
    Row(strike, GetOptionData(symbol, strike, CE, expiry), GetOptionData(symbol, strike, PE, expiry), i == 0)
  }

  /** The number of rows `range(-window, window + 1)` yields. */
  function RowCount(window: int): nat
  {
    if window >= 0 then 2 * window + 1 else 0
  }

  /** The chain as a whole: row `k` is the row for offset `k - window`. */
  function Ladder(symbol: string, spot: real, window: int, expiry: string): seq<Row>
  {
    var atm := Atm(spot);
    seq(RowCount(window), k => RowAt(symbol, atm, k - window, expiry))
  }

  /**
   * `build_option_chain(symbol, spot_price)`, with `STRIKE_WINDOW` and the
   * expiry `get_nearest_expiry` reads from the environment as parameters.
   */
  method BuildOptionChain(symbol: string, spot: real, window: int, expiry: string) returns (rows: seq<Row>)
    ensures rows == Ladder(symbol, spot, window, expiry)
  {
    var interval := StrikeInterval(symbol);
    var atm := RoundHalfEven(spot / interval as real) * interval;
    assert spot / interval as real == spot / 50.0;
    assert atm == Atm(spot);
    rows := [];
    var i := -window;
    while i < window + 1
      invariant window >= 0 ==> -window <= i <= window + 1 && |rows| == i + window
      invariant window < 0 ==> i == -window && rows == []
      invariant forall k :: 0 <= k < |rows| ==> rows[k] == RowAt(symbol, atm, k - window, expiry)
    {
      var strike := atm + i * interval;
      var ce := GetOptionData(symbol, strike, CE, expiry);
      var pe := GetOptionData(symbol, strike, PE, expiry);
      rows := rows + [Row(strike, ce, pe, i == 0)];
      i := i + 1;
    }
    ghost var chain := Ladder(symbol, spot, window, expiry);
    assert |chain| == |rows| && forall k :: 0 <= k < |rows| ==> chain[k] == rows[k];
  }
}
