/** Equity curve, maximum drawdown and profit factor, each against what it is supposed to mean. */
module BacktestEquity {
  import opened Basics
  import opened Backtest
  import opened BacktestTrades

  /** The results of the trades that have exited by bar b. */
  function ExitedPnl(ts: seq<Trade>, b: int): real {
    if ts == [] then 0.0
    else ExitedPnl(ts[..|ts| - 1], b) + if ts[|ts| - 1].exitBar <= b then ts[|ts| - 1].pnl else 0.0
  }

  function EquityAt(ts: seq<Trade>, start: real, b: int): real { start + ExitedPnl(ts, b) }

  /** Add each trade's result to the whole suffix of the curve that begins at its exit. */
  method EquityCurve(ts: seq<Trade>, bars: nat, start: real) returns (eq: array<real>)
    ensures eq.Length == bars
    ensures forall b :: 0 <= b < bars ==> eq[b] == EquityAt(ts, start, b)
  {
    eq := new real[bars](_ => start);
    for i := 0 to |ts|
      invariant forall b :: 0 <= b < bars ==> eq[b] == EquityAt(ts[..i], start, b)
    {
      assert ts[..i + 1][..i] == ts[..i];
      var n := ts[i].exitBar;
      while n < bars
        invariant ts[i].exitBar <= n
        invariant forall b :: 0 <= b < bars ==>
          eq[b] == if ts[i].exitBar <= b < n then EquityAt(ts[..i + 1], start, b) else EquityAt(ts[..i], start, b)
      {
        eq[n] := eq[n] + ts[i].pnl;
        n := n + 1;
      }
    }
    assert ts[..|ts|] == ts;
  }

  // ---- Drawdown -----------------------------------------------------------------------------------

  /** The highest value up to and including position j. */
  function Peak(eq: seq<real>, j: nat): real
    requires j < |eq|
  {
    if j == 0 then eq[0] else Max(Peak(eq, j - 1), eq[j])
  }

  lemma {:induction false} PeakIsHighest(eq: seq<real>, j: nat)
    requires j < |eq|
    ensures forall i :: 0 <= i <= j ==> eq[i] <= Peak(eq, j)
    ensures exists i :: 0 <= i <= j && eq[i] == Peak(eq, j)
  {
    if j > 0 {
      PeakIsHighest(eq, j - 1);
      if eq[j] > Peak(eq, j - 1) {
        assert eq[j] == Peak(eq, j);
      } else {
        var i :| 0 <= i <= j - 1 && eq[i] == Peak(eq, j - 1);
        assert eq[i] == Peak(eq, j);
      }
    } else {
      assert eq[0] == Peak(eq, 0);
    }
  }

  predicate Positive(eq: seq<real>) { forall i :: 0 <= i < |eq| ==> 0.0 < eq[i] }

  /** The relative change from an earlier point i of the curve to a later point j. */
  function Change(eq: seq<real>, i: nat, j: nat): real
    requires i < |eq| && j < |eq| && eq[i] != 0.0
  {
    eq[j] / eq[i] - 1.0
  }

  /** The worst change between any two points of the curve in time order. */
  ghost predicate IsWorstChange(eq: seq<real>, dd: real)
    requires Positive(eq)
  {
    && (forall i, j :: 0 <= i <= j < |eq| ==> dd <= Change(eq, i, j))
    && (exists i, j :: 0 <= i <= j < |eq| && dd == Change(eq, i, j))
  }

  function Fall(x: real, peak: real): real
    requires peak != 0.0
  {
    (x - peak) / peak
  }

  /** No running peak is zero, so that each fall is defined. */
  ghost predicate Measurable(eq: seq<real>) { forall n :: 0 <= n < |eq| ==> Peak(eq, n) != 0.0 }

  lemma PositiveStart(eq: seq<real>)
    requires eq != [] ==> 0.0 < eq[0]
    ensures Measurable(eq)
  {
    forall n | 0 <= n < |eq| ensures 0.0 < Peak(eq, n) { PeakIsHighest(eq, n); }
  }

  /** The deepest fall of the curve below the highest value before it. */
  ghost predicate IsDeepestFall(eq: seq<real>, dd: real)
    requires Measurable(eq)
  {
    && (forall n :: 0 <= n < |eq| ==> dd <= Fall(eq[n], Peak(eq, n)))
    && (exists n :: 0 <= n < |eq| && dd == Fall(eq[n], Peak(eq, n)))
  }

  /** One pass with a running peak; the smallest of the values so far is kept. */
  method MaxDrawdown(eq: seq<real>) returns (dd: real)
    requires Measurable(eq)
    ensures eq == [] ==> dd == 0.0
    ensures eq != [] ==> IsDeepestFall(eq, dd)
    ensures eq != [] && Positive(eq) ==> IsWorstChange(eq, dd)
  {
    hide Fall, IsWorstChange;
    if eq == [] { return 0.0; }
    var peak := eq[0];
    assert peak == Peak(eq, 0);
    dd := Fall(eq[0], peak);
    ghost var at := 0;
    for j := 1 to |eq|
      invariant peak == Peak(eq, j - 1)
      invariant 0 <= at < j && dd == Fall(eq[at], Peak(eq, at))
      invariant forall n :: 0 <= n < j ==> dd <= Fall(eq[n], Peak(eq, n))
    {
      if eq[j] > peak { peak := eq[j]; }
      assert peak == Peak(eq, j);
      var d := Fall(eq[j], peak);
      if d < dd {
        dd := d;
        at := j;
      }
    }
    if Positive(eq) { WorstFromPeaks(eq, dd); }
  }

  /** While the curve stays positive, its deepest fall below a peak is its worst change between any two points. */
  lemma WorstFromPeaks(eq: seq<real>, dd: real)
    requires Positive(eq) && Measurable(eq) && IsDeepestFall(eq, dd)
    ensures IsWorstChange(eq, dd)
  {
    var at: nat :| at < |eq| && dd == Fall(eq[at], Peak(eq, at));
    forall i, j | 0 <= i <= j < |eq| ensures dd <= Change(eq, i, j) {
      PeakIsHighest(eq, j);
      FartherFalls(eq[j], eq[i], Peak(eq, j));
    }
    PeakIsHighest(eq, at);
    var i :| 0 <= i <= at && eq[i] == Peak(eq, at);
    FartherFalls(eq[at], eq[i], Peak(eq, at));
    assert dd == Change(eq, i, at);
  }

  /** From a higher reference the same value is a deeper fall. */
  lemma FartherFalls(x: real, low: real, high: real)
    requires 0.0 <= x && 0.0 < low <= high
    ensures Fall(x, high) <= x / low - 1.0
    ensures low == high ==> Fall(x, high) == x / low - 1.0
  {
    Quotient(x, low);
    Quotient(x, high);
    Quotient(x - high, high);
    var f, g := (x - high) / high, x / high;
    assert f * high == x - high && g * high == x;
    Distribute(f, high);
    Cancel(f + 1.0, g, high, x, x);
    Cancel(g, f + 1.0, high, x, x);
    assert (x / low) * (high - low) >= 0.0 by { Sign(x, low, high - low); }
    assert g * high <= (x / low) * high;
    Cancel(g, x / low, high, x, (x / low) * high);
  }

  /**
   * A fall from the peak is at least as deep as the change from any lower point if and only if it does not end below
   * zero: that is where looking at peaks alone goes wrong.
   */
  lemma PeakIsWorstExactlyWhen(eq: seq<real>, i: nat, j: nat)
    requires i <= j < |eq| && 0.0 < eq[i] < Peak(eq, j)
    ensures Fall(eq[j], Peak(eq, j)) <= Change(eq, i, j) <==> 0.0 <= eq[j]
  {
    if 0.0 <= eq[j] {
      FartherFalls(eq[j], eq[i], Peak(eq, j));
    } else {
      DebtFalls(eq[j], eq[i], Peak(eq, j));
    }
  }

  lemma DebtFalls(x: real, low: real, high: real)
    requires x < 0.0 && 0.0 < low < high
    ensures Fall(x, high) > x / low - 1.0
  {
    Quotient(x, low);
    Quotient(x, high);
    Quotient(x - high, high);
    var f, g, a := (x - high) / high, x / high, x / low;
    Distribute(f, high);
    Cancel(f + 1.0, g, high, x, x);
    Cancel(g, f + 1.0, high, x, x);
    assert g * low > g * high by { DebtShrinks(g, low, high); }
    CancelStrictly(a, g, low, x, g * low);
  }

  lemma DebtShrinks(g: real, low: real, high: real)
    requires low < high && g * high < 0.0 < high
    ensures g * low > g * high
  {
    assert g < 0.0;
    assert g * (high - low) < 0.0;
  }

  lemma Sign(x: real, low: real, gap: real)
    requires 0.0 <= x && 0.0 < low && 0.0 <= gap
    ensures 0.0 <= (x / low) * gap
  {
    assert x / low >= 0.0;
  }

  // ---- Profit factor ------------------------------------------------------------------------------

  function GrossWin(ts: seq<Trade>): real {
    if ts == [] then 0.0
    else GrossWin(ts[..|ts| - 1]) + if ts[|ts| - 1].pnl > 0.0 then ts[|ts| - 1].pnl else 0.0
  }

  function GrossLoss(ts: seq<Trade>): real {
    if ts == [] then 0.0
    else GrossLoss(ts[..|ts| - 1]) + if ts[|ts| - 1].pnl <= 0.0 then -ts[|ts| - 1].pnl else 0.0
  }

  lemma {:induction false} NetIsWinLessLoss(ts: seq<Trade>, b: int)
    requires forall t :: t in ts ==> t.exitBar <= b
    ensures ExitedPnl(ts, b) == GrossWin(ts) - GrossLoss(ts)
  {
    if ts != [] {
      NetIsWinLessLoss(ts[..|ts| - 1], b);
    }
  }

  lemma {:induction false} NothingExitedYet(ts: seq<Trade>, b: int)
    requires forall t :: t in ts ==> b < t.exitBar
    ensures ExitedPnl(ts, b) == 0.0
  {
    if ts != [] {
      NothingExitedYet(ts[..|ts| - 1], b);
    }
  }

  /** The unrounded profit factor exceeds one exactly when the last point of the curve is above its first. */
  lemma ProfitFactorMeansProfit(bars: seq<Bar>, sigs: seq<Option<Signal>>, c: CostModel, start: real)
    requires |bars| == |sigs| && bars != []
    requires GrossLoss(Trades(bars, sigs, c)) > 0.0
    ensures var ts := Trades(bars, sigs, c);
      && EquityAt(ts, start, 0) == start
      && (GrossWin(ts) / GrossLoss(ts) > 1.0 <==> EquityAt(ts, start, |bars| - 1) > start)
  {
    hide Touched, TradeOf;
    var ts := Trades(bars, sigs, c);
    TradesInOrder(bars, sigs, c, 0);
    forall t | t in ts ensures 0 < t.exitBar < |bars| {
      var a :| 0 <= a < |ts| && ts[a] == t;
      assert IsTrade(bars, sigs, c, ts[a]);
    }
    NothingExitedYet(ts, 0);
    NetIsWinLessLoss(ts, |bars| - 1);
    var w, l := GrossWin(ts), GrossLoss(ts);
    assert w / l > 1.0 <==> w > l by { QuotientAboveOne(w, l); }
  }

  lemma QuotientAboveOne(w: real, l: real)
    requires l > 0.0
    ensures w / l > 1.0 <==> w > l
  {
    assert (w / l) * l == w;
    if w / l > 1.0 { assert (w / l) * l > 1.0 * l; }
    if w / l <= 1.0 { assert (w / l) * l <= 1.0 * l; }
  }

  // ---- Whole backtests ----------------------------------------------------------------------------

  lemma {:induction false} ExitedPnlCons(first: Trade, rest: seq<Trade>, b: int)
    ensures ExitedPnl([first] + rest, b) == (if first.exitBar <= b then first.pnl else 0.0) + ExitedPnl(rest, b)
  {
    var ts := [first] + rest;
    if rest != [] {
      assert ts[..|ts| - 1] == [first] + rest[..|rest| - 1];
      ExitedPnlCons(first, rest[..|rest| - 1], b);
    } else {
      assert ts[..0] == [];
    }
  }

  lemma {:induction false} ExitedBeforeKeepsPnl(ts: seq<Trade>, n: nat, b: int)
    requires b < n
    ensures ExitedPnl(ExitedBefore(ts, n), b) == ExitedPnl(ts, b)
  {
    if ts != [] {
      ExitedBeforeKeepsPnl(ts[1..], n, b);
      assert ts == [ts[0]] + ts[1..];
      ExitedPnlCons(ts[0], ts[1..], b);
      if ts[0].exitBar < n {
        ExitedPnlCons(ts[0], ExitedBefore(ts[1..], n), b);
      } else {
        assert [] + ExitedBefore(ts[1..], n) == ExitedBefore(ts[1..], n);
      }
    }
  }

  /** Later bars never change an earlier point of the equity curve. */
  lemma EquityOfPrefix(bars: seq<Bar>, sigs: seq<Option<Signal>>, c: CostModel, start: real, n: nat, b: nat)
    requires |bars| == |sigs| && b < n <= |bars|
    ensures EquityAt(Trades(bars[..n], sigs[..n], c), start, b) == EquityAt(Trades(bars, sigs, c), start, b)
  {
    hide TradesFrom, ExitedPnl;
    PrefixTrades(bars, sigs, c, n, 0);
    ExitedBeforeKeepsPnl(Trades(bars, sigs, c), n, b);
  }

  lemma {:induction false} SmallerResultsLowerEquity(ts: seq<Trade>, ts': seq<Trade>, b: int)
    requires |ts| == |ts'|
    requires forall a :: 0 <= a < |ts| ==> ts[a].exitBar == ts'[a].exitBar && ts'[a].pnl <= ts[a].pnl
    ensures ExitedPnl(ts', b) <= ExitedPnl(ts, b)
  {
    if ts != [] {
      SmallerResultsLowerEquity(ts[..|ts| - 1], ts'[..|ts| - 1], b);
    }
  }

  /** On the same bars and signals, dearer costs lower every point of the equity curve or leave it. */
  lemma HigherCostsLowerEquity(
      bars: seq<Bar>, sigs: seq<Option<Signal>>, c: CostModel, c': CostModel, start: real, b: nat)
    requires |bars| == |sigs| && NoDearer(c, c')
    requires forall x :: x in sigs ==> UsualSignal(x)
    ensures EquityAt(Trades(bars, sigs, c'), start, b) <= EquityAt(Trades(bars, sigs, c), start, b)
  {
    hide TradesFrom, UsualSignal;
    CostsKeepTiming(bars, sigs, c, c', 0);
    HigherCostsLowerTrades(bars, sigs, c, c', 0);
    var ts, ts' := Trades(bars, sigs, c), Trades(bars, sigs, c');
    forall a | 0 <= a < |ts| ensures ts[a].exitBar == ts'[a].exitBar && ts'[a].pnl <= ts[a].pnl {
      assert (ts[a].entryBar, ts[a].exitBar, ts[a].direction) == (ts'[a].entryBar, ts'[a].exitBar, ts'[a].direction);
    }
    SmallerResultsLowerEquity(ts, ts', b);
  }
}
