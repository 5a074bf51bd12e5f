/** The simulated trades in raw prices of the bars, and their reflection: longs and shorts are treated alike. */
module BacktestLevels {
  import opened Basics
  import opened Backtest
  import opened BacktestTrades

  // ---- Raw prices ---------------------------------------------------------------------------------

  /**
   * A long is in its trade over exactly the bars before the first later one with low <= sl or high >= tp, and leaves
   * at its stop if that bar reaches it, else at its target; a short does so with high >= sl or low <= tp. Slippage
   * goes against the trade both times.
   */
  lemma TradesInRawPrices(bars: seq<Bar>, sigs: seq<Option<Signal>>, c: CostModel, a: nat)
    requires |bars| == |sigs| && a < |Trades(bars, sigs, c)|
    ensures var t := Trades(bars, sigs, c)[a];
      && t.entryBar < t.exitBar < |bars| && sigs[t.entryBar].Some?
      && var s, out := sigs[t.entryBar].value, bars[t.exitBar];
         && t.direction == s.direction != 0
         && (s.direction > 0 ==>
               && (forall n :: t.entryBar < n < t.exitBar ==>
                     (s.sl.Some? ==> bars[n].low > s.sl.value) && bars[n].high < s.tp)
               && ((s.sl.Some? && out.low <= s.sl.value) || out.high >= s.tp)
               && t.entry == s.entry + c.slippage
               && t.exit == (if s.sl.Some? && out.low <= s.sl.value then s.sl.value else s.tp) - c.slippage)
         && (s.direction < 0 ==>
               && (forall n :: t.entryBar < n < t.exitBar ==>
                     (s.sl.Some? ==> bars[n].high < s.sl.value) && bars[n].low > s.tp)
               && ((s.sl.Some? && out.high >= s.sl.value) || out.low <= s.tp)
               && t.entry == s.entry - c.slippage
               && t.exit == (if s.sl.Some? && out.high >= s.sl.value then s.sl.value else s.tp) + c.slippage)
         && t.pnl == (t.exit - t.entry) * s.direction as real - c.spread - c.commission * (t.entry + t.exit)
         && t.r == (if s.sl.Some? && t.entry > s.sl.value then t.pnl / (t.entry - s.sl.value)
                    else if s.sl.Some? && t.entry < s.sl.value then t.pnl / (s.sl.value - t.entry) else 0.0)
  {
    hide TradesFrom, TradeOf, Touched, StopTouched, TargetTouched;
    TradesInOrder(bars, sigs, c, 0);
    var t := Trades(bars, sigs, c)[a];
    assert IsTrade(bars, sigs, c, t);
    var s := sigs[t.entryBar].value;
    forall n | t.entryBar < n <= t.exitBar
      ensures s.direction > 0 ==> (Touched(s, bars[n]) <==> (s.sl.Some? && bars[n].low <= s.sl.value) || bars[n].high >= s.tp)
      ensures s.direction < 0 ==> (Touched(s, bars[n]) <==> (s.sl.Some? && bars[n].high >= s.sl.value) || bars[n].low <= s.tp)
    {
      TouchedMeans(s, bars[n]);
    }
    TradeInRawPrices(s, t.entryBar, t.exitBar, bars[t.exitBar], c);
  }

  lemma TouchedMeans(s: Signal, b: Bar)
    ensures s.direction > 0 ==> (Touched(s, b) <==> (s.sl.Some? && b.low <= s.sl.value) || b.high >= s.tp)
    ensures s.direction < 0 ==> (Touched(s, b) <==> (s.sl.Some? && b.high >= s.sl.value) || b.low <= s.tp)
  {
  }

  lemma TradeInRawPrices(s: Signal, j: nat, k: nat, b: Bar, c: CostModel)
    ensures var t := TradeOf(s, j, k, b, c);
      && t.direction == s.direction
      && (s.direction > 0 ==>
            t.entry == s.entry + c.slippage &&
            t.exit == (if s.sl.Some? && b.low <= s.sl.value then s.sl.value else s.tp) - c.slippage)
      && (s.direction < 0 ==>
            t.entry == s.entry - c.slippage &&
            t.exit == (if s.sl.Some? && b.high >= s.sl.value then s.sl.value else s.tp) + c.slippage)
      && t.pnl == (t.exit - t.entry) * s.direction as real - c.spread - c.commission * (t.entry + t.exit)
      && t.r == (if s.sl.Some? && t.entry > s.sl.value then t.pnl / (t.entry - s.sl.value)
                 else if s.sl.Some? && t.entry < s.sl.value then t.pnl / (s.sl.value - t.entry) else 0.0)
  {
  }

  /** A long that is never closed never sees low <= sl or high >= tp again, a short never high >= sl or low <= tp. */
  lemma NeverTouchedMeans(bars: seq<Bar>, s: Signal, j: nat)
    requires s.direction != 0 && j < |bars|
    ensures NeverTouched(bars, s, j) <==>
      forall n :: j < n < |bars| ==>
        if s.direction > 0 then (s.sl.Some? ==> bars[n].low > s.sl.value) && bars[n].high < s.tp
        else (s.sl.Some? ==> bars[n].high < s.sl.value) && bars[n].low > s.tp
  {
    hide Touched;
    forall n | j < n < |bars|
      ensures Touched(s, bars[n]) <==>
        !(if s.direction > 0 then (s.sl.Some? ==> bars[n].low > s.sl.value) && bars[n].high < s.tp
          else (s.sl.Some? ==> bars[n].high < s.sl.value) && bars[n].low > s.tp)
    {
      TouchedMeans(s, bars[n]);
    }
  }

  // ---- Reflection ---------------------------------------------------------------------------------

  function MirrorBar(b: Bar): Bar { Bar(-b.low, -b.high, -b.close) }

  function MirrorSignal(s: Signal): Signal {
    Signal(-s.direction, -s.entry, if s.sl.Some? then Some(-s.sl.value) else None, -s.tp)
  }

  function MirrorTrade(t: Trade): Trade { t.(direction := -t.direction, entry := -t.entry, exit := -t.exit) }

  function MirrorBars(bars: seq<Bar>): seq<Bar> { seq(|bars|, i requires 0 <= i < |bars| => MirrorBar(bars[i])) }

  function MirrorSignals(sigs: seq<Option<Signal>>): seq<Option<Signal>> {
    seq(|sigs|, i requires 0 <= i < |sigs| => if sigs[i].Some? then Some(MirrorSignal(sigs[i].value)) else None)
  }

  function MirrorTrades(ts: seq<Trade>): seq<Trade> { seq(|ts|, i requires 0 <= i < |ts| => MirrorTrade(ts[i])) }

  lemma MirrorTouched(s: Signal, b: Bar)
    requires s.direction != 0
    ensures Touched(MirrorSignal(s), MirrorBar(b)) <==> Touched(s, b)
  {
  }

  lemma MirrorTradeOf(s: Signal, j: nat, k: nat, b: Bar, c: CostModel)
    requires s.direction != 0 && c.commission == 0.0
    ensures TradeOf(MirrorSignal(s), j, k, MirrorBar(b), c) == MirrorTrade(TradeOf(s, j, k, b, c))
  {
    var t, m := TradeOf(s, j, k, b, c), TradeOf(MirrorSignal(s), j, k, MirrorBar(b), c);
    assert m.entry == -t.entry && m.exit == -t.exit;
    NegatedProduct(t.exit - t.entry, s.direction as real);
    NoFee(c.commission, t.entry + t.exit);
    NoFee(c.commission, m.entry + m.exit);
    assert m.pnl == t.pnl;
  }

  lemma NegatedProduct(x: real, d: real)
    ensures (-x) * (-d) == x * d
  {
  }

  lemma NoFee(rate: real, amount: real)
    requires rate == 0.0
    ensures rate * amount == 0.0
  {
  }

  lemma {:induction false} MirrorFirstSignal(sigs: seq<Option<Signal>>, i: nat)
    requires i <= |sigs|
    ensures FirstSignal(MirrorSignals(sigs), i) == FirstSignal(sigs, i)
    decreases |sigs| - i
  {
    if i < |sigs| && !Fires(sigs[i]) { MirrorFirstSignal(sigs, i + 1); }
  }

  lemma {:induction false} MirrorFirstTouch(bars: seq<Bar>, s: Signal, i: nat)
    requires i <= |bars| && s.direction != 0
    ensures FirstTouch(MirrorBars(bars), MirrorSignal(s), i) == FirstTouch(bars, s, i)
    decreases |bars| - i
  {
    hide Touched, MirrorBar, MirrorSignal;
    if i < |bars| {
      MirrorTouched(s, bars[i]);
      if !Touched(s, bars[i]) { MirrorFirstTouch(bars, s, i + 1); }
    }
  }

  lemma MirrorCons(first: Trade, rest: seq<Trade>)
    ensures MirrorTrades([first] + rest) == [MirrorTrade(first)] + MirrorTrades(rest)
  {
  }

  /**
   * Negating all prices and directions and exchanging highs and lows reflects every trade and leaves its result and
   * its multiple of risk alone, as long as no commission, which is paid on prices, is charged.
   */
  lemma {:induction false} TradesMirror(bars: seq<Bar>, sigs: seq<Option<Signal>>, c: CostModel, i: nat)
    requires |bars| == |sigs| && i <= |bars| && c.commission == 0.0
    ensures TradesFrom(MirrorBars(bars), MirrorSignals(sigs), c, i) == MirrorTrades(TradesFrom(bars, sigs, c, i))
    decreases |bars| - i
  {
    hide TradeOf, MirrorBar, MirrorSignal, MirrorTrade, FirstSignal, FirstTouch, Touched, MirrorBars, MirrorSignals, MirrorTrades;
    MirrorLengths(bars, sigs);
    MirrorFirstSignal(sigs, i);
    var j := FirstSignal(sigs, i);
    if j < |bars| {
      var s := sigs[j].value;
      MirrorSignalAt(sigs, j);
      MirrorFirstTouch(bars, s, j + 1);
      var k := FirstTouch(bars, s, j + 1);
      if k < |bars| {
        MirrorTradeOf(s, j, k, bars[k], c);
        TradesMirror(bars, sigs, c, k + 1);
        MirrorCons(TradeOf(s, j, k, bars[k], c), TradesFrom(bars, sigs, c, k + 1));
        MirrorBarAt(bars, k);
      }
    }
  }

  lemma MirrorLengths(bars: seq<Bar>, sigs: seq<Option<Signal>>)
    ensures |MirrorBars(bars)| == |bars| && |MirrorSignals(sigs)| == |sigs| && MirrorTrades([]) == []
  {
  }

  lemma MirrorSignalAt(sigs: seq<Option<Signal>>, j: nat)
    requires j < |sigs| && sigs[j].Some?
    ensures |MirrorSignals(sigs)| == |sigs| && MirrorSignals(sigs)[j] == Some(MirrorSignal(sigs[j].value))
  {
  }

  lemma MirrorBarAt(bars: seq<Bar>, k: nat)
    requires k < |bars|
    ensures |MirrorBars(bars)| == |bars| && MirrorBars(bars)[k] == MirrorBar(bars[k])
  {
  }
}
