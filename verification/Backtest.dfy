/** The backtest kernel: trade simulation, equity curve, drawdown and profit factor. */
module Backtest {
  import opened Basics

  datatype Bar = Bar(high: real, low: real, close: real)

  /** One row of a signals frame; a stop that is not a number is `None` and compares false with everything. */
  datatype Signal = Signal(direction: int, entry: real, sl: Option<real>, tp: real)

  datatype CostModel = CostModel(spread: real, slippage: real, commission: real)

  const ZERO := CostModel(0.0, 0.0, 0.0)

  /** Bars are identified by their position in the index. */
  datatype Trade = Trade(entryBar: nat, exitBar: nat, direction: int, entry: real, exit: real, pnl: real, r: real)

  function Sgn(d: int): real { if d > 0 then 1.0 else -1.0 }

  predicate StopTouched(s: Signal, b: Bar) {
    s.sl.Some? && if s.direction > 0 then b.low <= s.sl.value else b.high >= s.sl.value
  }

  predicate TargetTouched(s: Signal, b: Bar) {
    if s.direction > 0 then b.high >= s.tp else b.low <= s.tp
  }

  predicate Touched(s: Signal, b: Bar) { StopTouched(s, b) || TargetTouched(s, b) }

  /** The level a trade leaves at: the stop wins when one bar touches both. */
  function ExitLevel(s: Signal, b: Bar): real {
    if StopTouched(s, b) then s.sl.value else s.tp
  }

  predicate Fires(x: Option<Signal>) { x.Some? && x.value.direction != 0 }

  function TradeOf(s: Signal, j: nat, k: nat, b: Bar, c: CostModel): Trade {
    var entry := s.entry + c.slippage * Sgn(s.direction);
    var exit := ExitLevel(s, b) - c.slippage * Sgn(s.direction);
    var pnl := (exit - entry) * s.direction as real - (c.spread + c.commission * (entry + exit));
    var risk := if s.sl.Some? then Abs(entry - s.sl.value) else 0.0;
    Trade(j, k, s.direction, entry, exit, pnl, if risk > 0.0 then pnl / risk else 0.0)
  }

  // ---- What the simulation means ------------------------------------------------------------------

  /** The first bar from i on that carries a signal, or the number of bars. */
  function FirstSignal(sigs: seq<Option<Signal>>, i: nat): (j: nat)
    requires i <= |sigs|
    ensures i <= j <= |sigs| && (j < |sigs| ==> Fires(sigs[j]))
    ensures forall n :: i <= n < j ==> !Fires(sigs[n])
    decreases |sigs| - i
  {
    if i == |sigs| || Fires(sigs[i]) then i else FirstSignal(sigs, i + 1)
  }

  /** The first bar from i on that touches the stop or the target of s, or the number of bars. */
  function FirstTouch(bars: seq<Bar>, s: Signal, i: nat): (k: nat)
    requires i <= |bars|
    ensures i <= k <= |bars| && (k < |bars| ==> Touched(s, bars[k]))
    ensures forall n :: i <= n < k ==> !Touched(s, bars[n])
    decreases |bars| - i
  {
    if i == |bars| || Touched(s, bars[i]) then i else FirstTouch(bars, s, i + 1)
  }

  /** The trades of someone who is flat at bar i: jump to the next signal, then to its first touch, then go on. */
  function TradesFrom(bars: seq<Bar>, sigs: seq<Option<Signal>>, c: CostModel, i: nat): seq<Trade>
    requires |bars| == |sigs| && i <= |bars|
    decreases |bars| - i
  {
    var j := FirstSignal(sigs, i);
    if j == |bars| then [] else
      var k := FirstTouch(bars, sigs[j].value, j + 1);
      if k == |bars| then [] else
        [TradeOf(sigs[j].value, j, k, bars[k], c)] + TradesFrom(bars, sigs, c, k + 1)
  }

  function Trades(bars: seq<Bar>, sigs: seq<Option<Signal>>, c: CostModel): seq<Trade>
    requires |bars| == |sigs|
  {
    TradesFrom(bars, sigs, c, 0)
  }

  /** The exit price of an open position on a bar, if the bar touches its stop or its target. */
  method CheckExit(direction: int, sl: Option<real>, tp: real, bar: Bar, cost: CostModel) returns (exit: Option<real>)
    ensures forall entry :: var s := Signal(direction, entry, sl, tp);
      exit == if Touched(s, bar) then Some(ExitLevel(s, bar) - cost.slippage * Sgn(direction)) else None
  {
    exit := None;
    if direction > 0 {
      if sl.Some? && bar.low <= sl.value { exit := Some(sl.value - cost.slippage); }
      else if bar.high >= tp { exit := Some(tp - cost.slippage); }
    } else {
      if sl.Some? && bar.high >= sl.value { exit := Some(sl.value + cost.slippage); }
      else if bar.low <= tp { exit := Some(tp + cost.slippage); }
    }
  }

  method BookTrade(entryBar: nat, exitBar: nat, direction: int, entry: real, exit: real, sl: Option<real>,
                   cost: CostModel, ghost s: Signal, ghost bar: Bar) returns (trade: Trade)
    requires direction == s.direction && sl == s.sl && entry == s.entry + cost.slippage * Sgn(direction)
    requires exit == ExitLevel(s, bar) - cost.slippage * Sgn(direction)
    ensures trade == TradeOf(s, entryBar, exitBar, bar, cost)
  {
    var gross := (exit - entry) * direction as real;
    var costTotal := cost.spread + cost.commission * (entry + exit);
    var pnl := gross - costTotal;
    var r := if sl.Some? then Abs(entry - sl.value) else 0.0;
    trade := Trade(entryBar, exitBar, direction, entry, exit, pnl, if r > 0.0 then pnl / r else 0.0);
  }

  /** Walk the bars once with a single open position. */
  method SimulateTrades(bars: seq<Bar>, sigs: seq<Option<Signal>>, cost: CostModel) returns (trades: seq<Trade>)
    requires |bars| == |sigs|
    ensures trades == Trades(bars, sigs, cost)
  {
    hide Touched, ExitLevel, TradeOf, Rest, Trades;
    trades := [];
    Ends(bars, sigs, cost);
    var inTrade, entryPrice, sl, tp, direction, entryBar := false, 0.0, None, 0.0, 0, 0;
    ghost var sig := Signal(0, 0.0, None, 0.0);
    for i := 0 to |bars|
      invariant inTrade ==> entryBar < i && sigs[entryBar] == Some(sig) && sig.direction != 0
      invariant inTrade ==> sig == Signal(direction, sig.entry, sl, tp)
      invariant inTrade ==> entryPrice == sig.entry + cost.slippage * Sgn(direction)
      invariant Trades(bars, sigs, cost) == trades + Rest(bars, sigs, cost, if inTrade then Some(entryBar) else None, i)
    {
      var ts := i;
      if inTrade {
        var exitPrice := CheckExit(direction, sl, tp, bars[i], cost);
        if exitPrice.Some? {
          var trade := BookTrade(entryBar, ts, direction, entryPrice, exitPrice.value, sl, cost, sig, bars[i]);
          Leave(bars, sigs, cost, entryBar, i);
          trades := trades + [trade];
          inTrade := false;
          continue;
        }
        Stay(bars, sigs, cost, entryBar, i);
      }
      if !inTrade {
        Enter(bars, sigs, cost, i);
        if sigs[i].None? { continue; }
        var d := sigs[i].value.direction;
        if d == 0 { continue; }
        direction := d;
        entryPrice := sigs[i].value.entry + cost.slippage * (if d > 0 then 1.0 else -1.0);
        sl, tp, entryBar := sigs[i].value.sl, sigs[i].value.tp, ts;
        inTrade := true;
        sig := sigs[i].value;
      }
    }
  }

  /** The trades still to come at bar i, for someone flat or holding a position entered at an earlier bar. */
  ghost function Rest(bars: seq<Bar>, sigs: seq<Option<Signal>>, c: CostModel, held: Option<nat>, i: nat): seq<Trade>
    requires |bars| == |sigs| && i <= |bars| && (held.Some? ==> held.value < i && sigs[held.value].Some?)
  {
    if held.None? then TradesFrom(bars, sigs, c, i) else
      var s := sigs[held.value].value;
      var k := FirstTouch(bars, s, i);
      if k == |bars| then [] else
        [TradeOf(s, held.value, k, bars[k], c)] + TradesFrom(bars, sigs, c, k + 1)
  }

  lemma Ends(bars: seq<Bar>, sigs: seq<Option<Signal>>, c: CostModel)
    requires |bars| == |sigs|
    ensures Trades(bars, sigs, c) == Rest(bars, sigs, c, None, 0)
    ensures Rest(bars, sigs, c, None, |bars|) == []
    ensures forall j: nat :: j < |bars| && sigs[j].Some? ==> Rest(bars, sigs, c, Some(j), |bars|) == []
  {
  }

  lemma Leave(bars: seq<Bar>, sigs: seq<Option<Signal>>, c: CostModel, j: nat, i: nat)
    requires |bars| == |sigs| && j < i < |bars| && sigs[j].Some? && Touched(sigs[j].value, bars[i])
    ensures Rest(bars, sigs, c, Some(j), i) ==
      [TradeOf(sigs[j].value, j, i, bars[i], c)] + Rest(bars, sigs, c, None, i + 1)
  {
  }

  lemma Stay(bars: seq<Bar>, sigs: seq<Option<Signal>>, c: CostModel, j: nat, i: nat)
    requires |bars| == |sigs| && j < i < |bars| && sigs[j].Some? && !Touched(sigs[j].value, bars[i])
    ensures Rest(bars, sigs, c, Some(j), i) == Rest(bars, sigs, c, Some(j), i + 1)
  {
  }

  lemma Enter(bars: seq<Bar>, sigs: seq<Option<Signal>>, c: CostModel, i: nat)
    requires |bars| == |sigs| && i < |bars|
    ensures Rest(bars, sigs, c, None, i) ==
      Rest(bars, sigs, c, if Fires(sigs[i]) then Some(i) else None, i + 1)
  {
  }
}
