/** The risk manager's decision read off the raw history of what it was told. */
module RiskManagerHistory {
  import opened Basics
  import opened RiskManager
  import opened RiskManagerRuns

  function CurrentEquity(e0: real, ops: seq<Op>): real {
    if ops == [] then e0
    else match ops[|ops| - 1] { case Equity(e) => e case _ => CurrentEquity(e0, ops[..|ops| - 1]) }
  }

  function Highest(e0: real, ops: seq<Op>): real {
    if ops == [] then e0 else Max(Highest(e0, ops[..|ops| - 1]), CurrentEquity(e0, ops))
  }

  function DayOf(op: Op): Option<int> {
    match op
    case TradeDone(day, _) => Some(day)
    case TryOpen(day, _, _, _, _) => Some(day)
    case OpenAny(day, _, _, _, _) => Some(day)
    case _ => None
  }

  function LastDay(d0: int, ops: seq<Op>): int {
    if ops == [] then d0
    else if DayOf(ops[|ops| - 1]).Some? then DayOf(ops[|ops| - 1]).value else LastDay(d0, ops[..|ops| - 1])
  }

  predicate DaysForward(d0: int, ops: seq<Op>) {
    ops != [] ==> DaysForward(d0, ops[..|ops| - 1]) && LastDay(d0, ops[..|ops| - 1]) <= LastDay(d0, ops)
  }

  /** The sum of the results of all trades closed on a day. */
  function PnlOn(ops: seq<Op>, day: int): real {
    if ops == [] then 0.0
    else PnlOn(ops[..|ops| - 1], day) + match ops[|ops| - 1] { case TradeDone(d, pnl) => (if d == day then pnl else 0.0) case _ => 0.0 }
  }

  /** Some equity reported so far was the limit below the highest up to then. */
  ghost predicate Tripped(l: Limits, e0: real, ops: seq<Op>) {
    exists k :: 0 <= k < |ops| && TripsAt(l, e0, ops, k)
  }

  predicate TripsAt(l: Limits, e0: real, ops: seq<Op>, k: nat)
    requires k < |ops|
  {
    ops[k].Equity? && Highest(e0, ops[..k + 1]) != 0.0 &&
    (1.0 - ops[k].equity / Highest(e0, ops[..k + 1])) * 100.0 >= l.maxDrawdownPct
  }

  lemma {:induction false} LaterDayIsNew(d0: int, ops: seq<Op>, day: int)
    requires DaysForward(d0, ops) && LastDay(d0, ops) < day
    ensures PnlOn(ops, day) == 0.0
  {
    if ops != [] { LaterDayIsNew(d0, ops[..|ops| - 1], day); }
  }

  ghost predicate Recorded(s: State, e0: real, d0: int, ops: seq<Op>) {
    && s.equity == CurrentEquity(e0, ops) && s.peak == Highest(e0, ops)
    && s.today == LastDay(d0, ops) && s.realizedToday == PnlOn(ops, s.today)
  }

  lemma RollIsRecorded(s: State, e0: real, d0: int, ops: seq<Op>, day: int)
    requires DaysForward(d0, ops) && LastDay(d0, ops) <= day && Recorded(s, e0, d0, ops)
    ensures RollDay(s, day).realizedToday == PnlOn(ops, day)
  {
    hide CurrentEquity, PnlOn, Highest;
    if LastDay(d0, ops) < day { LaterDayIsNew(d0, ops, day); }
  }

  lemma HistoryGrows(e0: real, ops: seq<Op>, op: Op, day: int)
    ensures CurrentEquity(e0, ops + [op]) == if op.Equity? then op.equity else CurrentEquity(e0, ops)
    ensures Highest(e0, ops + [op]) == Max(Highest(e0, ops), if op.Equity? then op.equity else CurrentEquity(e0, ops))
    ensures CurrentEquity(e0, ops) <= Highest(e0, ops)
    ensures PnlOn(ops + [op], day) == PnlOn(ops, day) + if op.TradeDone? && op.today == day then op.pnl else 0.0
  {
    assert (ops + [op])[..|ops|] == ops;
  }

  lemma StepFromRoll(l: Limits, s: State, op: Op, day: int)
    requires day == if DayOf(op).Some? then DayOf(op).value else s.today
    ensures var s' := Step(l, s, op);
      && s'.today == day
      && s'.realizedToday == RollDay(s, day).realizedToday + (if op.TradeDone? then op.pnl else 0.0)
      && s'.equity == (if op.Equity? then op.equity else s.equity)
      && s'.peak == (if op.Equity? && op.equity > s.peak then op.equity else s.peak)
      && (s'.disabled <==> s.disabled || (op.Equity? && s'.peak != 0.0 &&
                             (1.0 - op.equity / s'.peak) * 100.0 >= l.maxDrawdownPct))
  {
    hide Evaluate, Opened, Closed;
  }

  lemma {:induction false} HistoryIsRecorded(l: Limits, e0: real, d0: int, ops: seq<Op>)
    requires DaysForward(d0, ops)
    ensures Recorded(Run(l, Init(e0, d0), ops), e0, d0, ops)
    ensures Run(l, Init(e0, d0), ops).disabled <==> Tripped(l, e0, ops)
  {
    hide Step, RollDay, CurrentEquity, Highest, PnlOn, Tripped, TripsAt;
    if ops == [] {
      StartIsRecorded(l, e0, d0);
    } else {
      var n := |ops| - 1;
      var prior, op, s := ops[..n], ops[n], Run(l, Init(e0, d0), ops[..n]);
      assert prior + [op] == ops;
      HistoryIsRecorded(l, e0, d0, prior);
      var day := LastDay(d0, ops);
      RollIsRecorded(s, e0, d0, prior, day);
      HistoryGrows(e0, prior, op, day);
      StepFromRoll(l, s, op, day);
      TrippedGrows(l, e0, prior, op);
    }
  }

  lemma StartIsRecorded(l: Limits, e0: real, d0: int)
    ensures Recorded(Init(e0, d0), e0, d0, []) && !Tripped(l, e0, [])
  {
  }

  lemma TrippedGrows(l: Limits, e0: real, ops: seq<Op>, op: Op)
    ensures Tripped(l, e0, ops + [op]) <==>
      Tripped(l, e0, ops) || (op.Equity? && Highest(e0, ops + [op]) != 0.0 &&
        (1.0 - op.equity / Highest(e0, ops + [op])) * 100.0 >= l.maxDrawdownPct)
  {
    hide Highest;
    var all, n := ops + [op], |ops|;
    assert all[..n + 1] == all;
    forall k | 0 <= k < n ensures TripsAt(l, e0, all, k) <==> TripsAt(l, e0, ops, k) {
      assert all[..k + 1] == ops[..k + 1];
    }
    if Tripped(l, e0, ops) {
      var k :| 0 <= k < n && TripsAt(l, e0, ops, k);
      assert TripsAt(l, e0, all, k);
    }
    if TripsAt(l, e0, all, n) { assert Tripped(l, e0, all); }
  }

  /**
   * The decision from raw history, for days that do not go back: disabled once an equity was the limit below its peak,
   * stopped for the day once its trades have lost the limit of the current equity, trimmed above the risk cap, and
   * otherwise rejected by the first count that is full, in the order total, symbol, bucket.
   */
  lemma DecisionFromHistory(l: Limits, e0: real, d0: int, ops: seq<Op>, today: int, symbol: string, size: real, risk: real)
    requires DaysForward(d0, ops) && LastDay(d0, ops) <= today
    ensures var d, m, equity := Evaluate(l, Run(l, Init(e0, d0), ops), today, symbol, size, risk),
                                Run(l, Init(e0, d0), ops).positions, CurrentEquity(e0, ops);
      var cap, loss := equity * (l.maxRiskPerTradePct / 100.0), -PnlOn(ops, today);
      d == if Tripped(l, e0, ops) then Rejected(BotDisabled)
           else if loss >= equity * (l.maxDailyLossPct / 100.0) then Rejected(DailyLoss)
           else if risk > cap then (if risk == 0.0 then Raised else Trimmed(size * (cap / risk)))
           else if Total(m) >= l.maxOpenPositions then Rejected(MaxOpen)
           else if Held(m, symbol) >= l.maxPositionsPerSymbol then Rejected(PerSymbol)
           else if BucketOf(symbol).Some? && InBucket(m, BucketOf(symbol).value) >= l.correlatedSymbolLimit then Rejected(Correlation)
           else Approved
  {
    hide Run, Total, Held, InBucket, BucketOf, Tripped, CurrentEquity, PnlOn, Highest, Evaluate;
    var s := Run(l, Init(e0, d0), ops);
    HistoryIsRecorded(l, e0, d0, ops);
    RollIsRecorded(s, e0, d0, ops, today);
    DecisionMeans(l, s, today, symbol, size, risk, CurrentEquity(e0, ops), PnlOn(ops, today));
  }

  lemma DecisionMeans(
      l: Limits, s: State, today: int, symbol: string, size: real, risk: real, equity: real, realized: real)
    requires s.equity == equity && RollDay(s, today).realizedToday == realized
    ensures var cap, m := equity * (l.maxRiskPerTradePct / 100.0), s.positions;
      Evaluate(l, s, today, symbol, size, risk) ==
           if s.disabled then Rejected(BotDisabled)
           else if -realized >= equity * (l.maxDailyLossPct / 100.0) then Rejected(DailyLoss)
           else if risk > cap then (if risk == 0.0 then Raised else Trimmed(size * (cap / risk)))
           else if Total(m) >= l.maxOpenPositions then Rejected(MaxOpen)
           else if Held(m, symbol) >= l.maxPositionsPerSymbol then Rejected(PerSymbol)
           else if BucketOf(symbol).Some? && InBucket(m, BucketOf(symbol).value) >= l.correlatedSymbolLimit then Rejected(Correlation)
           else Approved
  {
    hide Total, Held, InBucket, BucketOf;
    assert RollDay(s, today).positions == s.positions && RollDay(s, today).equity == equity;
  }

  /** The buckets in raw names: spelling does not matter to belonging, and it does to being counted. */
  lemma BucketsByName(symbol: string)
    ensures BucketOf(symbol) == Some(GoldBlock) <==> Upper(symbol) == "XAUUSD" || Upper(symbol) == "XAGUSD"
    ensures BucketOf(symbol) == Some(BtcBlock) <==> Upper(symbol) == "BTCUSDT" || Upper(symbol) == "BTCUSD"
    ensures |Upper(symbol)| == |symbol| && forall i :: 0 <= i < |symbol| ==>
      Upper(symbol)[i] == if 'a' <= symbol[i] <= 'z' then symbol[i] - 'a' + 'A' else symbol[i]
  {
    assert "XAUUSD"[0] != "BTCUSDT"[0] && "XAUUSD"[0] != "BTCUSD"[0];
  }

  function PositionsOf(m: Book, symbol: string): seq<Info> { if symbol in m then m[symbol] else [] }

  /**
   * Closing takes away every position of the symbol with that ticket, or all of its positions without a ticket, and no
   * other; opening adds one at the end.
   */
  lemma BookChanges(m: Book, symbol: string, ticket: Option<int>, info: Info, x: string, p: Info)
    ensures multiset(PositionsOf(Closed(m, symbol, ticket), x))[p] ==
      if x == symbol && (ticket.None? || p.ticket == ticket) then 0 else multiset(PositionsOf(m, x))[p]
    ensures PositionsOf(Opened(m, symbol, info), x) == if x == symbol then PositionsOf(m, x) + [info] else PositionsOf(m, x)
  {
    if x == symbol && ticket.Some? { WithoutLeaves(PositionsOf(m, x), ticket.value, p); }
  }

  lemma {:induction false} WithoutLeaves(ps: seq<Info>, ticket: int, p: Info)
    ensures multiset(Without(ps, ticket))[p] == if p.ticket == Some(ticket) then 0 else multiset(ps)[p]
  {
    if ps != [] {
      WithoutLeaves(ps[1..], ticket, p);
      assert ps == [ps[0]] + ps[1..];
    }
  }
}
