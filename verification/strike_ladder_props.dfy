/**
 * What the option chain promises: the at-the-money strike is the nearest
 * multiple of the interval, and the rows are the consecutive strikes around
 * it, in ascending order, with exactly one row marked at the money.
 */
module StrikeLadderProps {
  import opened Wrappers
  import opened StrikeLadder

  /** `round` is determined by its two properties: nearest, and even on a tie. */
  lemma RoundUnique(x: real, n: int)
    requires -(1.0 / 2.0) <= x - n as real <= 1.0 / 2.0
    requires (x - n as real == 1.0 / 2.0 || n as real - x == 1.0 / 2.0) ==> n % 2 == 0
    ensures n == RoundHalfEven(x)
  {
    var r := RoundHalfEven(x);
    assert -1 <= n - r <= 1;
  }

  /** A multiple of 50 strictly within 25 of the spot is the at-the-money strike. */
  lemma AtmUnique(spot: real, m: int)
    requires m % 50 == 0
    requires -25.0 < spot - m as real < 25.0
    ensures m == Atm(spot)
  {
    var c := m / 50;
    assert m == c * 50;
    assert spot / 50.0 - c as real == (spot - m as real) / 50.0;
    RoundUnique(spot / 50.0, c);
  }

  /** Row `k` of the chain is the row for offset `k - window`. */
  lemma LadderRows(symbol: string, spot: real, window: int, expiry: string)
    ensures var rows := Ladder(symbol, spot, window, expiry);
            |rows| == RowCount(window)
            && forall k :: 0 <= k < |rows| ==> rows[k] == RowAt(symbol, Atm(spot), k - window, expiry)
  {
  }

  /** The chain has `2 * STRIKE_WINDOW + 1` rows, none when the window is negative. */
  lemma LadderLength(symbol: string, spot: real, window: int, expiry: string)
    ensures |Ladder(symbol, spot, window, expiry)| == (if window >= 0 then 2 * window + 1 else 0)
  {
  }

  /**
   * Row `k` holds the strike `k - window` intervals from the at-the-money
   * strike; the strikes are multiples of 50 and rise by 50 from row to row.
   */
  lemma LadderStrikes(symbol: string, spot: real, window: int, expiry: string)
    ensures var rows := Ladder(symbol, spot, window, expiry);
            (forall k :: 0 <= k < |rows| ==> rows[k].strike == Atm(spot) + (k - window) * 50)
            && (forall k :: 0 <= k < |rows| ==> rows[k].strike % 50 == 0)
            && (forall k :: 0 <= k < |rows| - 1 ==> rows[k + 1].strike == rows[k].strike + 50)
  {
    LadderRows(symbol, spot, window, expiry);
  }

  /** The first and last strikes are `window` intervals below and above the at-the-money strike. */
  lemma LadderEnds(symbol: string, spot: real, window: int, expiry: string)
    requires window >= 0
    ensures var rows := Ladder(symbol, spot, window, expiry);
            rows[0].strike == Atm(spot) - 50 * window
            && rows[|rows| - 1].strike == Atm(spot) + 50 * window
  {
    LadderRows(symbol, spot, window, expiry);
  }

  /** Every multiple of 50 between the first and the last strike is a row's strike. */
  lemma LadderCovers(symbol: string, spot: real, window: int, expiry: string, s: int)
    requires window >= 0
    requires s % 50 == 0
    requires Atm(spot) - 50 * window <= s <= Atm(spot) + 50 * window
    ensures var rows := Ladder(symbol, spot, window, expiry);
            exists k :: 0 <= k < |rows| && rows[k].strike == s
  {
    LadderRows(symbol, spot, window, expiry);
    var rows := Ladder(symbol, spot, window, expiry);
    var k := (s - Atm(spot)) / 50 + window;
    assert rows[k].strike == s;
  }

  /** Exactly one row, the middle one, is marked at the money, and it holds the at-the-money strike. */
  lemma LadderAtm(symbol: string, spot: real, window: int, expiry: string)
    ensures var rows := Ladder(symbol, spot, window, expiry);
            (forall k :: 0 <= k < |rows| ==> (rows[k].isAtm <==> k == window))
            && (window >= 0 ==> rows[window].strike == Atm(spot))
            && (set k | 0 <= k < |rows| && rows[k].isAtm) == (if window >= 0 then {window} else {})
  {
    LadderRows(symbol, spot, window, expiry);
    var rows := Ladder(symbol, spot, window, expiry);
    var marked := (set k | 0 <= k < |rows| && rows[k].isAtm);
    if window >= 0 {
      assert window in marked;
    } else {
      assert marked == {};
    }
  }

  /** The strikes lie symmetrically around the at-the-money strike. */
  lemma LadderSymmetric(symbol: string, spot: real, window: int, expiry: string)
    ensures var rows := Ladder(symbol, spot, window, expiry);
            forall k :: 0 <= k < |rows| ==> rows[k].strike + rows[|rows| - 1 - k].strike == 2 * Atm(spot)
  {
    LadderRows(symbol, spot, window, expiry);
  }

  /** Every leg is the placeholder, for calls and puts alike. */
  lemma LadderLegs(symbol: string, spot: real, window: int, expiry: string)
    ensures var rows := Ladder(symbol, spot, window, expiry);
            forall k :: 0 <= k < |rows| ==> rows[k].ce == rows[k].pe == Leg(0.0, 0, None, 0)
  {
    LadderRows(symbol, spot, window, expiry);
  }

  /** `get_option_data` returns the same leg whatever it is asked for. */
  lemma PlaceholderConstant(symbol: string, strike: int, side: Side, expiry: string,
                            symbol': string, strike': int, side': Side, expiry': string)
    ensures GetOptionData(symbol, strike, side, expiry) == GetOptionData(symbol', strike', side', expiry')
  {
  }

  /** Ties go to the even multiple: 25 gives 0, 75 and 125 give 100; 19245.75 gives 19250. */
  lemma AtmExamples()
    ensures Atm(25.0) == 0 && Atm(75.0) == 100 && Atm(125.0) == 100 && Atm(19245.75) == 19250
  {
    AtmUnique(19245.75, 19250);
  }

  /** A spot of 17650 with the default window gives the eleven strikes 17400 to 17900. */
  lemma DefaultChain(symbol: string, expiry: string)
    ensures var rows := Ladder(symbol, 17650.0, DefaultWindow, expiry);
            |rows| == 11 && rows[0].strike == 17400 && rows[10].strike == 17900 && rows[5].isAtm
  {
    LadderRows(symbol, 17650.0, DefaultWindow, expiry);
    AtmUnique(17650.0, 17650);
  }
}
