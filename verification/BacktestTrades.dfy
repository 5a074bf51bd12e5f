/** What the simulated trades are: ordered, complete, causal, and shifted by costs in a known way. */
module BacktestTrades {
  import opened Basics
  import opened Backtest

  // ---- Order and completeness ---------------------------------------------------------------------

  /** A trade enters on a signal and leaves on the first later bar that touches its stop or target, stop first. */
  predicate IsTrade(bars: seq<Bar>, sigs: seq<Option<Signal>>, c: CostModel, t: Trade)
    requires |bars| == |sigs|
  {
    && t.entryBar < t.exitBar < |bars|
    && Fires(sigs[t.entryBar])
    && var s := sigs[t.entryBar].value;
       && Touched(s, bars[t.exitBar])
       && (forall n :: t.entryBar < n < t.exitBar ==> !Touched(s, bars[n]))
       && t == TradeOf(s, t.entryBar, t.exitBar, bars[t.exitBar], c)
  }

  /** Each entry strictly precedes its exit, which strictly precedes the next entry. */
  ghost predicate InOrder(bars: seq<Bar>, sigs: seq<Option<Signal>>, c: CostModel, ts: seq<Trade>, i: nat)
    requires |bars| == |sigs|
  {
    && (forall a :: 0 <= a < |ts| ==> IsTrade(bars, sigs, c, ts[a]) && i <= ts[a].entryBar)
    && (forall a, b :: 0 <= a < b < |ts| ==> ts[a].exitBar < ts[b].entryBar)
  }

  lemma {:induction false} TradesInOrder(bars: seq<Bar>, sigs: seq<Option<Signal>>, c: CostModel, i: nat)
    requires |bars| == |sigs| && i <= |bars|
    ensures InOrder(bars, sigs, c, TradesFrom(bars, sigs, c, i), i)
    decreases |bars| - i
  {
    hide TradeOf, Touched, IsTrade;
    var j := FirstSignal(sigs, i);
    if j < |bars| {
      var k := FirstTouch(bars, sigs[j].value, j + 1);
      if k < |bars| {
        var first := TradeOf(sigs[j].value, j, k, bars[k], c);
        var rest := TradesFrom(bars, sigs, c, k + 1);
        FirstIsTrade(bars, sigs, c, j, k);
        TradesInOrder(bars, sigs, c, k + 1);
        InOrderCons(bars, sigs, c, first, rest, i);
      }
    }
  }

  lemma InOrderCons(bars: seq<Bar>, sigs: seq<Option<Signal>>, c: CostModel, first: Trade, rest: seq<Trade>, i: nat)
    requires |bars| == |sigs| && IsTrade(bars, sigs, c, first) && i <= first.entryBar
    requires InOrder(bars, sigs, c, rest, first.exitBar + 1)
    ensures InOrder(bars, sigs, c, [first] + rest, i)
  {
    hide TradeOf, Touched;
    var ts := [first] + rest;
    forall a | 0 <= a < |ts| ensures IsTrade(bars, sigs, c, ts[a]) && i <= ts[a].entryBar {
      if a > 0 { assert ts[a] == rest[a - 1]; }
    }
    forall a, b | 0 <= a < b < |ts| ensures ts[a].exitBar < ts[b].entryBar {
      assert ts[b] == rest[b - 1];
      if a > 0 { assert ts[a] == rest[a - 1]; }
    }
  }

  lemma FirstIsTrade(bars: seq<Bar>, sigs: seq<Option<Signal>>, c: CostModel, j: nat, k: nat)
    requires |bars| == |sigs| && j < |bars| && Fires(sigs[j])
    requires k == FirstTouch(bars, sigs[j].value, j + 1) < |bars|
    ensures var t := TradeOf(sigs[j].value, j, k, bars[k], c);
      IsTrade(bars, sigs, c, t) && t.entryBar == j && t.exitBar == k
  {
  }

  /** Bar b is spanned by a trade, entry excluded. */
  predicate Inside(t: Trade, b: nat) { t.entryBar < b <= t.exitBar }

  /** A position entered at j is never closed. */
  predicate NeverTouched(bars: seq<Bar>, s: Signal, j: nat) {
    forall n :: j < n < |bars| ==> !Touched(s, bars[n])
  }

  /**
   * No signal is lost while flat: each one from bar i on starts a trade, falls inside a trade, or finds or opens a
   * position that is still open when the bars end, and such a position is no trade at all.
   */
  lemma {:induction false} EverySignalAccounted(bars: seq<Bar>, sigs: seq<Option<Signal>>, c: CostModel, i: nat, b: nat)
    requires |bars| == |sigs| && i <= b < |bars| && Fires(sigs[b])
    ensures var ts := TradesFrom(bars, sigs, c, i);
      || (exists t :: t in ts && (t.entryBar == b || Inside(t, b)))
      || (exists j :: i <= j <= b && Fires(sigs[j]) && NeverTouched(bars, sigs[j].value, j) && AllBefore(ts, j))
    decreases |bars| - i
  {
    hide TradeOf, Touched, AllBefore, Inside, NeverTouched;
    var ts := TradesFrom(bars, sigs, c, i);
    var j := FirstSignal(sigs, i);
    assert j <= b;
    var k := FirstTouch(bars, sigs[j].value, j + 1);
    if k == |bars| {
      NoTouch(bars, sigs[j].value, j);
      assert ts == [];
      assert AllBefore(ts, j) by { NoneBefore(j); }
    } else {
      var first, rest := TradeOf(sigs[j].value, j, k, bars[k], c), TradesFrom(bars, sigs, c, k + 1);
      SpanOf(sigs[j].value, j, k, bars[k], c);
      assert ts == [first] + rest;
      if b <= k {
        assert first in ts;
        assert first.entryBar == b || Inside(first, b) by { SpanHolds(first, b); }
      } else {
        EverySignalAccounted(bars, sigs, c, k + 1, b);
        if j' :| k + 1 <= j' <= b && Fires(sigs[j']) && NeverTouched(bars, sigs[j'].value, j') && AllBefore(rest, j') {
          assert AllBefore(ts, j') by { FirstBefore(first, rest, j'); }
        } else {
          var t :| t in rest && (t.entryBar == b || Inside(t, b));
          assert t in ts;
        }
      }
    }
  }

  /** The trades have all exited before bar j. */
  ghost predicate AllBefore(ts: seq<Trade>, j: nat) { forall t :: t in ts ==> t.exitBar < j }

  lemma NoneBefore(j: nat)
    ensures AllBefore([], j)
  {
  }

  lemma FirstBefore(first: Trade, rest: seq<Trade>, j: nat)
    requires first.exitBar < j && AllBefore(rest, j)
    ensures AllBefore([first] + rest, j)
  {
  }

  lemma SpanHolds(t: Trade, b: nat)
    requires t.entryBar <= b <= t.exitBar
    ensures t.entryBar == b || Inside(t, b)
  {
  }

  lemma NoTouch(bars: seq<Bar>, s: Signal, j: nat)
    requires j < |bars| && FirstTouch(bars, s, j + 1) == |bars|
    ensures NeverTouched(bars, s, j)
  {
  }

  /** A position is open when bar b comes: one that some trade closes, or one that nothing ever closes. */
  ghost predicate HeldAt(bars: seq<Bar>, sigs: seq<Option<Signal>>, c: CostModel, b: nat)
    requires |bars| == |sigs| && b < |bars|
  {
    var ts := Trades(bars, sigs, c);
    || (exists t :: t in ts && Inside(t, b))
    || (exists j :: 0 <= j < b && Fires(sigs[j]) && NeverTouched(bars, sigs[j].value, j) && AllBefore(ts, j))
  }

  /**
   * A signal becomes a trade if and only if no position is open when it comes and some later bar touches its stop or
   * target; a position still open at the last bar is no trade.
   */
  lemma SignalTradesExactlyWhen(bars: seq<Bar>, sigs: seq<Option<Signal>>, c: CostModel, b: nat)
    requires |bars| == |sigs| && b < |bars| && Fires(sigs[b])
    ensures (exists t :: t in Trades(bars, sigs, c) && t.entryBar == b) <==>
            !HeldAt(bars, sigs, c, b) && !NeverTouched(bars, sigs[b].value, b)
  {
    hide TradeOf, Touched, TradesFrom, Trades, Inside, AllBefore, NeverTouched, IsTrade, InOrder;
    var ts := Trades(bars, sigs, c);
    assert ts == TradesFrom(bars, sigs, c, 0) by { AllTrades(bars, sigs, c); }
    TradesInOrder(bars, sigs, c, 0);
    if t :| t in ts && t.entryBar == b {
      var x :| 0 <= x < |ts| && ts[x] == t;
      EnteredWhenFree(bars, sigs, c, ts, x);
    } else {
      EverySignalAccounted(bars, sigs, c, 0, b);
    }
  }

  lemma AllTrades(bars: seq<Bar>, sigs: seq<Option<Signal>>, c: CostModel)
    requires |bars| == |sigs|
    ensures Trades(bars, sigs, c) == TradesFrom(bars, sigs, c, 0)
  {
  }

  lemma EnteredWhenFree(bars: seq<Bar>, sigs: seq<Option<Signal>>, c: CostModel, ts: seq<Trade>, x: nat)
    requires |bars| == |sigs| && InOrder(bars, sigs, c, ts, 0) && x < |ts|
    requires ts[x].entryBar < |bars| && Fires(sigs[ts[x].entryBar])
    ensures var b := ts[x].entryBar;
      && (forall u :: u in ts ==> !Inside(u, b))
      && !NeverTouched(bars, sigs[b].value, b)
      && (forall j :: 0 <= j < b ==> !AllBefore(ts, j))
  {
    hide TradeOf, Touched;
    var b := ts[x].entryBar;
    assert IsTrade(bars, sigs, c, ts[x]);
    forall u | u in ts ensures !Inside(u, b) {
      var y :| 0 <= y < |ts| && ts[y] == u;
      assert IsTrade(bars, sigs, c, ts[y]);
    }
    forall j | 0 <= j < b ensures !AllBefore(ts, j) { assert ts[x] in ts; }
  }

  lemma SpanOf(s: Signal, j: nat, k: nat, b: Bar, c: CostModel)
    ensures TradeOf(s, j, k, b, c).entryBar == j && TradeOf(s, j, k, b, c).exitBar == k
  {
  }

  // ---- Prefixes -----------------------------------------------------------------------------------

  function ExitedBefore(ts: seq<Trade>, n: nat): seq<Trade> {
    if ts == [] then [] else (if ts[0].exitBar < n then [ts[0]] else []) + ExitedBefore(ts[1..], n)
  }

  lemma {:induction false} NoneExited(ts: seq<Trade>, n: nat)
    requires forall t :: t in ts ==> n <= t.exitBar
    ensures ExitedBefore(ts, n) == []
  {
    if ts != [] {
      NoneExited(ts[1..], n);
    }
  }

  lemma {:induction false} FirstSignalOfPrefix(sigs: seq<Option<Signal>>, n: nat, i: nat)
    requires i <= n <= |sigs|
    ensures FirstSignal(sigs[..n], i) == if FirstSignal(sigs, i) < n then FirstSignal(sigs, i) else n
    decreases n - i
  {
    if i < n && !Fires(sigs[i]) {
      FirstSignalOfPrefix(sigs, n, i + 1);
    }
  }

  lemma {:induction false} FirstTouchOfPrefix(bars: seq<Bar>, s: Signal, n: nat, i: nat)
    requires i <= n <= |bars|
    ensures FirstTouch(bars[..n], s, i) == if FirstTouch(bars, s, i) < n then FirstTouch(bars, s, i) else n
    decreases n - i
  {
    hide Touched;
    if i < n && !Touched(s, bars[i]) {
      FirstTouchOfPrefix(bars, s, n, i + 1);
    }
  }

  /** Simulating a prefix of the bars gives exactly the trades of the whole run that exit inside the prefix. */
  lemma {:induction false} PrefixTrades(bars: seq<Bar>, sigs: seq<Option<Signal>>, c: CostModel, n: nat, i: nat)
    requires |bars| == |sigs| && i <= n <= |bars|
    ensures TradesFrom(bars[..n], sigs[..n], c, i) == ExitedBefore(TradesFrom(bars, sigs, c, i), n)
    decreases n - i
  {
    hide TradeOf, Touched, TradesFrom, ExitedBefore, FirstSignal, FirstTouch;
    var j := FirstSignal(sigs, i);
    FirstSignalOfPrefix(sigs, n, i);
    if j < n {
      var s := sigs[j].value;
      var k := FirstTouch(bars, s, j + 1);
      FirstTouchOfPrefix(bars, s, n, j + 1);
      if k < n {
        var first := TradeOf(s, j, k, bars[k], c);
        var rest := TradesFrom(bars, sigs, c, k + 1);
        SpanOf(s, j, k, bars[k], c);
        PrefixTrades(bars, sigs, c, n, k + 1);
        assert bars[..|bars|] == bars && sigs[..|sigs|] == sigs;
        PrefixUnfolds(bars, sigs, c, |bars|, i, j, k);
        ExitedCons(first, rest, n);
        PrefixUnfolds(bars, sigs, c, n, i, j, k);
      } else {
        LateTrades(bars, sigs, c, n, i);
        PrefixStops(bars, sigs, c, n, i);
      }
    } else {
      LateTrades(bars, sigs, c, n, i);
      PrefixStops(bars, sigs, c, n, i);
    }
  }

  lemma PrefixUnfolds(bars: seq<Bar>, sigs: seq<Option<Signal>>, c: CostModel, n: nat, i: nat, j: nat, k: nat)
    requires |bars| == |sigs| && i <= n <= |bars|
    requires j == FirstSignal(sigs[..n], i) < n && k == FirstTouch(bars[..n], sigs[j].value, j + 1) < n
    ensures TradesFrom(bars[..n], sigs[..n], c, i) ==
      [TradeOf(sigs[j].value, j, k, bars[k], c)] + TradesFrom(bars[..n], sigs[..n], c, k + 1)
  {
    hide TradeOf, FirstSignal, FirstTouch;
  }

  lemma PrefixStops(bars: seq<Bar>, sigs: seq<Option<Signal>>, c: CostModel, n: nat, i: nat)
    requires |bars| == |sigs| && i <= n <= |bars|
    requires var j := FirstSignal(sigs[..n], i);
      j < n ==> FirstTouch(bars[..n], sigs[j].value, j + 1) == n
    ensures TradesFrom(bars[..n], sigs[..n], c, i) == []
  {
    hide TradeOf, FirstSignal, FirstTouch;
  }

  lemma ExitedCons(first: Trade, rest: seq<Trade>, n: nat)
    requires first.exitBar < n
    ensures ExitedBefore([first] + rest, n) == [first] + ExitedBefore(rest, n)
  {
    assert ([first] + rest)[1..] == rest;
  }

  /** When no position opened from bar i on is touched before the cut, no trade exits before it. */
  lemma LateTrades(bars: seq<Bar>, sigs: seq<Option<Signal>>, c: CostModel, n: nat, i: nat)
    requires |bars| == |sigs| && i <= |bars| && n <= |bars|
    requires var j := FirstSignal(sigs, i);
      j < n ==> n <= FirstTouch(bars, sigs[j].value, j + 1)
    ensures ExitedBefore(TradesFrom(bars, sigs, c, i), n) == []
  {
    hide TradeOf, Touched;
    var ts := TradesFrom(bars, sigs, c, i);
    TradesInOrder(bars, sigs, c, i);
    if ts != [] {
      var j := FirstSignal(sigs, i);
      var k := FirstTouch(bars, sigs[j].value, j + 1);
      SpanOf(sigs[j].value, j, k, bars[k], c);
      assert ts[0].exitBar == k;
      forall t | t in ts ensures n <= t.exitBar {
        var a :| 0 <= a < |ts| && ts[a] == t;
        assert a > 0 ==> ts[0].exitBar < ts[a].entryBar < ts[a].exitBar;
      }
    }
    NoneExited(ts, n);
  }

  // ---- Costs --------------------------------------------------------------------------------------

  /** Costs move no entry and no exit: only prices and results differ between two cost models. */
  lemma {:induction false} CostsKeepTiming(bars: seq<Bar>, sigs: seq<Option<Signal>>, c: CostModel, c': CostModel, i: nat)
    requires |bars| == |sigs| && i <= |bars|
    ensures var ts, ts' := TradesFrom(bars, sigs, c, i), TradesFrom(bars, sigs, c', i);
      |ts| == |ts'| && forall a :: 0 <= a < |ts| ==>
        (ts[a].entryBar, ts[a].exitBar, ts[a].direction) == (ts'[a].entryBar, ts'[a].exitBar, ts'[a].direction)
    decreases |bars| - i
  {
    hide Touched, ExitLevel;
    var j := FirstSignal(sigs, i);
    if j < |bars| {
      var k := FirstTouch(bars, sigs[j].value, j + 1);
      if k < |bars| {
        CostsKeepTiming(bars, sigs, c, c', k + 1);
      }
    }
  }

  /** The result of a trade in raw prices: slippage is paid twice, spread once, commission on both raw prices. */
  lemma CostedPnl(s: Signal, j: nat, k: nat, b: Bar, c: CostModel)
    requires s.direction in {-1, 1}
    ensures var e, x := s.entry, ExitLevel(s, b);
      TradeOf(s, j, k, b, c).pnl ==
        s.direction as real * (x - e) - 2.0 * c.slippage - c.spread - c.commission * (e + x)
  {
    var x := ExitLevel(s, b);
    var entry, exit := s.entry + c.slippage * Sgn(s.direction), x - c.slippage * Sgn(s.direction);
    assert c.commission * (entry + exit) == c.commission * (s.entry + x) by { assert entry + exit == s.entry + x; }
  }

  predicate NoDearer(c: CostModel, c': CostModel) {
    c.spread <= c'.spread && c.slippage <= c'.slippage && c.commission <= c'.commission
  }

  /** Directions are one unit, and commission is paid on an amount that is not negative. */
  predicate UsualSignal(x: Option<Signal>) {
    Fires(x) ==> x.value.direction in {-1, 1} && 0.0 <= x.value.entry + x.value.tp &&
                 (x.value.sl.Some? ==> 0.0 <= x.value.entry + x.value.sl.value)
  }

  function Gross(s: Signal, b: Bar): real { s.direction as real * (ExitLevel(s, b) - s.entry) }

  function Fee(c: CostModel, amount: real): real { c.commission * amount }

  lemma CostedByParts(s: Signal, j: nat, k: nat, b: Bar, c: CostModel)
    requires s.direction in {-1, 1}
    ensures TradeOf(s, j, k, b, c).pnl == Gross(s, b) - 2.0 * c.slippage - c.spread - Fee(c, s.entry + ExitLevel(s, b))
  {
    hide TradeOf;
    CostedPnl(s, j, k, b, c);
  }

  lemma DearerFee(c: CostModel, c': CostModel, amount: real)
    requires NoDearer(c, c')
    ensures 0.0 <= amount ==> Fee(c, amount) <= Fee(c', amount)
    ensures Fee(c.(commission := c.commission + 1.0), amount) == Fee(c, amount) + amount
  {
    if 0.0 <= amount { TimesMono(c.commission, c'.commission, amount, Fee(c, amount), Fee(c', amount)); }
  }

  /** No dearer cost model raises the result of a trade if and only if the two raw prices do not sum to less than zero. */
  lemma DearerNeverHelpsExactlyWhen(s: Signal, j: nat, k: nat, b: Bar, c: CostModel)
    requires s.direction in {-1, 1}
    ensures (forall c' :: NoDearer(c, c') ==> TradeOf(s, j, k, b, c').pnl <= TradeOf(s, j, k, b, c).pnl)
            <==> 0.0 <= s.entry + ExitLevel(s, b)
  {
    hide TradeOf, ExitLevel, Gross, Fee;
    var notional := s.entry + ExitLevel(s, b);
    CostedByParts(s, j, k, b, c);
    if 0.0 <= notional {
      forall c' | NoDearer(c, c') ensures TradeOf(s, j, k, b, c').pnl <= TradeOf(s, j, k, b, c).pnl {
        CostedByParts(s, j, k, b, c');
        DearerFee(c, c', notional);
      }
    } else {
      var c' := c.(commission := c.commission + 1.0);
      CostedByParts(s, j, k, b, c');
      DearerFee(c, c', notional);
    }
  }

  lemma HigherCostsLowerPnl(s: Signal, j: nat, k: nat, b: Bar, c: CostModel, c': CostModel)
    requires Fires(Some(s)) && UsualSignal(Some(s)) && NoDearer(c, c')
    ensures TradeOf(s, j, k, b, c').pnl <= TradeOf(s, j, k, b, c).pnl
  {
    hide TradeOf;
    DearerNeverHelpsExactlyWhen(s, j, k, b, c);
  }

  /** Higher costs never raise the result of any trade. */
  lemma {:induction false} HigherCostsLowerTrades(
      bars: seq<Bar>, sigs: seq<Option<Signal>>, c: CostModel, c': CostModel, i: nat)
    requires |bars| == |sigs| && i <= |bars| && NoDearer(c, c')
    requires forall x :: x in sigs ==> UsualSignal(x)
    ensures var ts, ts' := TradesFrom(bars, sigs, c, i), TradesFrom(bars, sigs, c', i);
      |ts| == |ts'| && forall a :: 0 <= a < |ts| ==> ts'[a].pnl <= ts[a].pnl
    decreases |bars| - i
  {
    hide Touched, ExitLevel, TradeOf, UsualSignal;
    var j := FirstSignal(sigs, i);
    if j < |bars| {
      var k := FirstTouch(bars, sigs[j].value, j + 1);
      if k < |bars| {
        assert sigs[j] == Some(sigs[j].value);
        HigherCostsLowerPnl(sigs[j].value, j, k, bars[k], c, c');
        HigherCostsLowerTrades(bars, sigs, c, c', k + 1);
      }
    }
  }
}
