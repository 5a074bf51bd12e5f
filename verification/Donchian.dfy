/** The Donchian breakout strategy: causal signals that meet the bridge's contract. */
module Donchian {
  import opened Basics
  import opened Backtest
  import opened BacktestTrades
  import opened BacktestEquity
  import opened Safety

  datatype Params = Params(entryPeriod: nat, exitPeriod: nat)

  /** The highest high of bars lo .. hi - 1. */
  function HighestHigh(bars: seq<Bar>, lo: nat, hi: nat): real
    requires lo < hi <= |bars|
    decreases hi
  {
    if hi == lo + 1 then bars[lo].high else Max(HighestHigh(bars, lo, hi - 1), bars[hi - 1].high)
  }

  /** The lowest low of bars lo .. hi - 1. */
  function LowestLow(bars: seq<Bar>, lo: nat, hi: nat): real
    requires lo < hi <= |bars|
    decreases hi
  {
    if hi == lo + 1 then bars[lo].low else Min(LowestLow(bars, lo, hi - 1), bars[hi - 1].low)
  }

  /** A rolling extreme over the `period` bars before bar i; not a number until there are that many. */
  function PriorHigh(bars: seq<Bar>, period: nat, i: nat): Option<real>
    requires i < |bars|
  {
    if 1 <= period <= i then Some(HighestHigh(bars, i - period, i)) else None
  }

  function PriorLow(bars: seq<Bar>, period: nat, i: nat): Option<real>
    requires i < |bars|
  {
    if 1 <= period <= i then Some(LowestLow(bars, i - period, i)) else None
  }

  datatype Row = Row(close: real, doncUp: Option<real>, doncLo: Option<real>, exitUp: Option<real>, exitLo: Option<real>)

  function Prepare(bars: seq<Bar>, p: Params): seq<Row> {
    seq(|bars|, i requires 0 <= i < |bars| =>
      Row(bars[i].close, PriorHigh(bars, p.entryPeriod, i), PriorLow(bars, p.entryPeriod, i),
          PriorHigh(bars, p.exitPeriod, i), PriorLow(bars, p.exitPeriod, i)))
  }

  predicate LongBreak(r: Row) { r.doncUp.Some? && r.close > r.doncUp.value }

  predicate ShortBreak(r: Row) { r.doncLo.Some? && r.close < r.doncLo.value }

  /** Only the bar that has just broken out counts. */
  predicate LongEntry(df: seq<Row>, i: nat)
    requires i < |df|
  {
    LongBreak(df[i]) && !(i > 0 && LongBreak(df[i - 1]))
  }

  predicate ShortEntry(df: seq<Row>, i: nat)
    requires i < |df|
  {
    ShortBreak(df[i]) && !(i > 0 && ShortBreak(df[i - 1]))
  }

  const FLAT := Signal(0, 0.0, Some(0.0), 0.0)

  function LongSignal(r: Row): Signal { Signal(1, r.close, r.exitLo, r.close * 1.5) }

  function ShortSignal(r: Row): Signal { Signal(-1, r.close, r.exitUp, r.close * 0.5) }

  function SignalAt(df: seq<Row>, i: nat): Signal
    requires i < |df|
  {
    if ShortEntry(df, i) then ShortSignal(df[i]) else if LongEntry(df, i) then LongSignal(df[i]) else FLAT
  }

  function SignalColumn(bars: seq<Bar>, p: Params): seq<Option<Signal>> {
    seq(|bars|, i requires 0 <= i < |bars| => Some(SignalAt(Prepare(bars, p), i)))
  }

  /** Start from a flat frame, write the long entries, then the short ones. */
  method Signals(bars: seq<Bar>, p: Params) returns (out: array<Option<Signal>>)
    ensures out[..] == SignalColumn(bars, p)
  {
    var df := Prepare(bars, p);
    out := new Option<Signal>[|bars|](_ => Some(FLAT));
    for i := 0 to |bars|
      invariant forall n :: 0 <= n < |bars| ==>
        out[n] == Some(if n < i && LongEntry(df, n) then LongSignal(df[n]) else FLAT)
    {
      if LongEntry(df, i) { out[i] := Some(LongSignal(df[i])); }
    }
    for i := 0 to |bars|
      invariant forall n :: 0 <= n < |bars| ==>
        out[n] == if n < i then Some(SignalAt(df, n))
                  else Some(if LongEntry(df, n) then LongSignal(df[n]) else FLAT)
    {
      if ShortEntry(df, i) { out[i] := Some(ShortSignal(df[i])); }
    }
  }

  // ---- Rolling extremes ---------------------------------------------------------------------------

  lemma {:induction false} HighestHighIsMax(bars: seq<Bar>, lo: nat, hi: nat)
    requires lo < hi <= |bars|
    ensures forall n :: lo <= n < hi ==> bars[n].high <= HighestHigh(bars, lo, hi)
    ensures exists n :: lo <= n < hi && bars[n].high == HighestHigh(bars, lo, hi)
    decreases hi
  {
    if hi > lo + 1 {
      HighestHighIsMax(bars, lo, hi - 1);
      if bars[hi - 1].high > HighestHigh(bars, lo, hi - 1) {
        assert bars[hi - 1].high == HighestHigh(bars, lo, hi);
      } else {
        var n :| lo <= n < hi - 1 && bars[n].high == HighestHigh(bars, lo, hi - 1);
        assert bars[n].high == HighestHigh(bars, lo, hi);
      }
    } else {
      assert bars[lo].high == HighestHigh(bars, lo, hi);
    }
  }

  lemma {:induction false} LowestLowIsMin(bars: seq<Bar>, lo: nat, hi: nat)
    requires lo < hi <= |bars|
    ensures forall n :: lo <= n < hi ==> LowestLow(bars, lo, hi) <= bars[n].low
    ensures exists n :: lo <= n < hi && bars[n].low == LowestLow(bars, lo, hi)
    decreases hi
  {
    if hi > lo + 1 {
      LowestLowIsMin(bars, lo, hi - 1);
      if bars[hi - 1].low < LowestLow(bars, lo, hi - 1) {
        assert bars[hi - 1].low == LowestLow(bars, lo, hi);
      } else {
        var n :| lo <= n < hi - 1 && bars[n].low == LowestLow(bars, lo, hi - 1);
        assert bars[n].low == LowestLow(bars, lo, hi);
      }
    } else {
      assert bars[lo].low == LowestLow(bars, lo, hi);
    }
  }

  // ---- Breakouts ----------------------------------------------------------------------------------

  /** The close of bar i lies above every high of the period before it. */
  ghost predicate BreaksUp(bars: seq<Bar>, period: nat, i: int) {
    1 <= period <= i < |bars| && forall n :: i - period <= n < i ==> bars[n].high < bars[i].close
  }

  ghost predicate BreaksDown(bars: seq<Bar>, period: nat, i: int) {
    1 <= period <= i < |bars| && forall n :: i - period <= n < i ==> bars[n].low > bars[i].close
  }

  lemma BreaksMean(bars: seq<Bar>, p: Params, i: nat)
    requires i < |bars|
    ensures LongBreak(Prepare(bars, p)[i]) <==> BreaksUp(bars, p.entryPeriod, i)
    ensures ShortBreak(Prepare(bars, p)[i]) <==> BreaksDown(bars, p.entryPeriod, i)
  {
    hide HighestHigh, LowestLow;
    if 1 <= p.entryPeriod <= i {
      HighestHighIsMax(bars, i - p.entryPeriod, i);
      LowestLowIsMin(bars, i - p.entryPeriod, i);
    }
  }

  /**
   * A bar signals if and only if its close has just broken out of the highs, or the lows, of the period before it and
   * the bar before had not; a downward break wins. The entry is the close, the target half of it away, and the stop the
   * lowest low, or highest high, of the exit period before it, once there is one.
   */
  lemma SignalExactlyWhen(bars: seq<Bar>, p: Params, i: nat)
    requires i < |bars|
    ensures |SignalColumn(bars, p)| == |bars| && SignalColumn(bars, p)[i].Some?
    ensures var s, window := SignalColumn(bars, p)[i].value, 1 <= p.exitPeriod <= i;
      && (s.direction == -1 <==> BreaksDown(bars, p.entryPeriod, i) && !BreaksDown(bars, p.entryPeriod, i - 1))
      && (s.direction == 1 <==> s.direction != -1 && BreaksUp(bars, p.entryPeriod, i) && !BreaksUp(bars, p.entryPeriod, i - 1))
      && s.direction in {-1, 0, 1}
      && (s.direction != 0 ==> s.entry == bars[i].close && (s.sl.Some? <==> window))
      && (s.direction == 1 ==> s.tp == bars[i].close * 1.5)
      && (s.direction == -1 ==> s.tp == bars[i].close * 0.5)
      && (s.direction == 1 && window ==>
            && (forall n :: i - p.exitPeriod <= n < i ==> s.sl.value <= bars[n].low)
            && (exists n :: i - p.exitPeriod <= n < i && bars[n].low == s.sl.value))
      && (s.direction == -1 && window ==>
            && (forall n :: i - p.exitPeriod <= n < i ==> bars[n].high <= s.sl.value)
            && (exists n :: i - p.exitPeriod <= n < i && bars[n].high == s.sl.value))
  {
    hide HighestHigh, LowestLow, LongBreak, ShortBreak;
    BreaksMean(bars, p, i);
    if i > 0 { BreaksMean(bars, p, i - 1); }
    if 1 <= p.exitPeriod <= i {
      HighestHighIsMax(bars, i - p.exitPeriod, i);
      LowestLowIsMin(bars, i - p.exitPeriod, i);
    }
  }

  // ---- Sides --------------------------------------------------------------------------------------

  predicate RealBars(bars: seq<Bar>) {
    forall i :: 0 <= i < |bars| ==> 0.0 < bars[i].low <= bars[i].close <= bars[i].high
  }

  /**
   * Every signal has its stop strictly on the losing side and its target strictly on the winning side, so it passes
   * the bridge's check; and it has a stop at all if and only if the exit channel is defined on that bar.
   */
  lemma SignalsAreSafe(bars: seq<Bar>, p: Params, i: nat)
    requires RealBars(bars) && i < |bars| && Fires(SignalColumn(bars, p)[i])
    ensures var s := SignalColumn(bars, p)[i].value;
      && s.direction in {-1, 1}
      && RightSides(s.direction, s.entry, s.sl, s.tp)
      && CheckSlConsistency(SideOf(s.direction), s.entry, s.sl, Some(s.tp)) == None
      && (s.sl.Some? <==> 1 <= p.exitPeriod <= i)
      && (1 <= p.exitPeriod <= p.entryPeriod ==> s.sl.Some?)
      && UsualSignal(Some(s))
  {
    var df := Prepare(bars, p);
    var s := SignalAt(df, i);
    assert 1 <= p.entryPeriod <= i;
    HighestHighIsMax(bars, i - p.entryPeriod, i);
    LowestLowIsMin(bars, i - p.entryPeriod, i);
    assert bars[i - 1].low <= bars[i - 1].high;
    if 1 <= p.exitPeriod <= i {
      HighestHighIsMax(bars, i - p.exitPeriod, i);
      LowestLowIsMin(bars, i - p.exitPeriod, i);
    }
    CheckMeansRightSides(s.direction, s.entry, s.sl, s.tp);
  }

  // ---- Trades -------------------------------------------------------------------------------------

  lemma ZeroCostTrade(s: Signal, j: nat, k: nat, b: Bar)
    requires s.direction in {-1, 1}
    ensures var t := TradeOf(s, j, k, b, ZERO);
      && t.pnl == (if s.direction > 0 then ExitLevel(s, b) - s.entry else s.entry - ExitLevel(s, b))
      && (s.sl.Some? && Abs(s.entry - s.sl.value) > 0.0 ==> t.r == t.pnl / Abs(s.entry - s.sl.value))
  {
    hide ExitLevel;
    CostedPnl(s, j, k, b, ZERO);
  }

  lemma MinusOver(x: real)
    requires x > 0.0
    ensures -x / x == -1.0
  {
  }

  /** Without costs a trade on such a signal books exactly minus one unit of risk at its stop and a gain at its target. */
  lemma MinusOneROrGain(s: Signal, j: nat, k: nat, b: Bar)
    requires s.direction in {-1, 1} && RightSides(s.direction, s.entry, s.sl, s.tp)
    ensures var t := TradeOf(s, j, k, b, ZERO);
      if StopTouched(s, b) then t.r == -1.0 else t.pnl > 0.0
  {
    hide TradeOf;
    ZeroCostTrade(s, j, k, b);
    if StopTouched(s, b) {
      MinusOver(Abs(s.entry - s.sl.value));
    }
  }

  /** The zero-cost backtest of the strategy consists of exact one-unit losses and of gains, nothing else. */
  lemma TradesLoseOneROrGain(bars: seq<Bar>, p: Params, a: nat)
    requires RealBars(bars) && a < |Trades(bars, SignalColumn(bars, p), ZERO)|
    ensures var t := Trades(bars, SignalColumn(bars, p), ZERO)[a];
      && t.entryBar < t.exitBar < |bars|
      && var s := SignalColumn(bars, p)[t.entryBar].value;
         if StopTouched(s, bars[t.exitBar]) then t.r == -1.0 else t.pnl > 0.0
  {
    hide TradeOf, Touched, TradesFrom, SignalColumn, StopTouched;
    var sigs := SignalColumn(bars, p);
    assert |sigs| == |bars| by { ColumnLength(bars, p); }
    TradesInOrder(bars, sigs, ZERO, 0);
    var t := Trades(bars, sigs, ZERO)[a];
    assert IsTrade(bars, sigs, ZERO, t);
    SignalsAreSafe(bars, p, t.entryBar);
    MinusOneROrGain(sigs[t.entryBar].value, t.entryBar, t.exitBar, bars[t.exitBar]);
  }

  lemma ColumnLength(bars: seq<Bar>, p: Params)
    ensures |SignalColumn(bars, p)| == |bars|
  {
  }

  // ---- Causality ----------------------------------------------------------------------------------

  lemma {:induction false} ExtremesOfPrefix(bars: seq<Bar>, n: nat, lo: nat, hi: nat)
    requires lo < hi <= n <= |bars|
    ensures HighestHigh(bars[..n], lo, hi) == HighestHigh(bars, lo, hi)
    ensures LowestLow(bars[..n], lo, hi) == LowestLow(bars, lo, hi)
    decreases hi
  {
    if hi > lo + 1 {
      ExtremesOfPrefix(bars, n, lo, hi - 1);
    }
  }

  lemma RowsOfPrefix(bars: seq<Bar>, p: Params, n: nat)
    requires n <= |bars|
    ensures Prepare(bars[..n], p) == Prepare(bars, p)[..n]
  {
    forall i | 0 <= i < n ensures Prepare(bars[..n], p)[i] == Prepare(bars, p)[i] {
      if 1 <= p.entryPeriod <= i { ExtremesOfPrefix(bars, n, i - p.entryPeriod, i); }
      if 1 <= p.exitPeriod <= i { ExtremesOfPrefix(bars, n, i - p.exitPeriod, i); }
    }
  }

  /** No signal depends on a later bar. */
  lemma SignalsOfPrefix(bars: seq<Bar>, p: Params, n: nat)
    requires n <= |bars|
    ensures SignalColumn(bars[..n], p) == SignalColumn(bars, p)[..n]
  {
    hide Prepare;
    RowLength(bars, p);
    RowLength(bars[..n], p);
    RowsOfPrefix(bars, p, n);
  }

  lemma RowLength(bars: seq<Bar>, p: Params)
    ensures |Prepare(bars, p)| == |bars|
  {
  }

  /**
   * No look-ahead anywhere: backtesting the first n bars alone gives exactly the trades of the whole backtest that
   * exit among them, and the same equity on each of them.
   */
  lemma BacktestIsCausal(bars: seq<Bar>, p: Params, c: CostModel, start: real, n: nat)
    requires n <= |bars|
    ensures Trades(bars[..n], SignalColumn(bars[..n], p), c) ==
            ExitedBefore(Trades(bars, SignalColumn(bars, p), c), n)
    ensures forall b :: 0 <= b < n ==>
      EquityAt(Trades(bars[..n], SignalColumn(bars[..n], p), c), start, b) ==
      EquityAt(Trades(bars, SignalColumn(bars, p), c), start, b)
  {
    hide SignalColumn, TradesFrom, EquityAt;
    ColumnLength(bars, p);
    ColumnLength(bars[..n], p);
    SignalsOfPrefix(bars, p, n);
    PrefixTrades(bars, SignalColumn(bars, p), c, n, 0);
    forall b | 0 <= b < n
      ensures EquityAt(Trades(bars[..n], SignalColumn(bars[..n], p), c), start, b) ==
              EquityAt(Trades(bars, SignalColumn(bars, p), c), start, b)
    {
      EquityOfPrefix(bars, SignalColumn(bars, p), c, start, n, b);
    }
  }
}
