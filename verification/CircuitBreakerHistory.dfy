/** The breaker's verdict read off the raw history of what it was told. */
module CircuitBreakerHistory {
  import opened Basics
  import opened CircuitBreaker
  import opened CircuitBreakerRuns

  // ---- The median ---------------------------------------------------------------------------------

  /** How many samples lie below a value, and how many do not lie above it. */
  function Below(s: seq<real>, v: real): nat {
    if s == [] then 0 else (if s[0] < v then 1 else 0) + Below(s[1..], v)
  }

  function AtMost(s: seq<real>, v: real): nat {
    if s == [] then 0 else (if s[0] <= v then 1 else 0) + AtMost(s[1..], v)
  }

  lemma {:induction false} InsertCounts(x: real, s: seq<real>, v: real)
    ensures Below(Insert(x, s), v) == Below([x] + s, v) && AtMost(Insert(x, s), v) == AtMost([x] + s, v)
  {
    assert ([x] + s)[1..] == s;
    if s != [] && x > s[0] {
      InsertCounts(x, s[1..], v);
      assert ([x] + s[1..])[1..] == s[1..];
      assert ([s[0]] + Insert(x, s[1..]))[1..] == Insert(x, s[1..]);
    }
  }

  lemma {:induction false} SortedCounts(s: seq<real>, v: real)
    ensures Below(Sorted(s), v) == Below(s, v) && AtMost(Sorted(s), v) == AtMost(s, v)
  {
    if s != [] {
      SortedCounts(s[1..], v);
      InsertCounts(s[0], Sorted(s[1..]), v);
      assert ([s[0]] + Sorted(s[1..]))[1..] == Sorted(s[1..]);
    }
  }

  lemma {:induction false} AscendingCounts(r: seq<real>, m: nat)
    requires Ascending(r) && m < |r|
    ensures Below(r, r[m]) <= m < AtMost(r, r[m])
  {
    if m > 0 {
      assert r[1..][m - 1] == r[m];
      AscendingCounts(r[1..], m - 1);
    } else {
      NoneBelow(r, r[0]);
    }
  }

  lemma {:induction false} NoneBelow(r: seq<real>, v: real)
    requires forall i :: 0 <= i < |r| ==> v <= r[i]
    ensures Below(r, v) == 0
  {
    if r != [] { NoneBelow(r[1..], v); }
  }

  /** The upper median is one of the samples; at most half of them lie below it, and more than half do not lie above it. */
  lemma UpperMedianMeans(s: seq<real>)
    requires s != []
    ensures UpperMedian(s) in s && Below(s, UpperMedian(s)) <= |s| / 2 < AtMost(s, UpperMedian(s))
  {
    SortedSorts(s);
    var r, m := Sorted(s), |s| / 2;
    AscendingCounts(r, m);
    SortedCounts(s, r[m]);
    assert r[m] in multiset(r);
  }

  // ---- The history --------------------------------------------------------------------------------

  /** The last equity reported, and the highest. */
  function CurrentEquity(e0: real, ops: seq<Op>): real {
    if ops == [] then e0
    else match ops[|ops| - 1] { case EquityOp(e) => e case _ => CurrentEquity(e0, ops[..|ops| - 1]) }
  }

  function Highest(e0: real, ops: seq<Op>): real {
    if ops == [] then e0 else Max(Highest(e0, ops[..|ops| - 1]), CurrentEquity(e0, ops))
  }

  /** When the broker last answered. */
  function LastAnswer(t0: real, ops: seq<Op>): real {
    if ops == [] then t0
    else match ops[|ops| - 1] { case BrokerOp(at) => at case _ => LastAnswer(t0, ops[..|ops| - 1]) }
  }

  function DayOf(op: Op): Option<int> {
    match op
    case TradeOp(day, _) => Some(day)
    case JudgeOp(day, _) => Some(day)
    case _ => None
  }

  /** The day of the last operation that carries one. */
  function LastDay(d0: int, ops: seq<Op>): int {
    if ops == [] then d0
    else if DayOf(ops[|ops| - 1]).Some? then DayOf(ops[|ops| - 1]).value else LastDay(d0, ops[..|ops| - 1])
  }

  predicate DaysForward(d0: int, ops: seq<Op>) {
    ops != [] ==> DaysForward(d0, ops[..|ops| - 1]) && LastDay(d0, ops[..|ops| - 1]) <= LastDay(d0, ops)
  }

  /** The sum of the results of all trades closed on a day. */
  function PnlOn(ops: seq<Op>, day: int): real {
    if ops == [] then 0.0
    else PnlOn(ops[..|ops| - 1], day) + match ops[|ops| - 1] { case TradeOp(d, pnl) => (if d == day then pnl else 0.0) case _ => 0.0 }
  }

  predicate SeesDay(ops: seq<Op>, day: int) { exists i :: 0 <= i < |ops| && DayOf(ops[i]) == Some(day) }

  /** The equity when the day was first seen: the initial one on the first day, and the current one on a day still to come. */
  function DayStart(e0: real, d0: int, ops: seq<Op>, day: int): real {
    if day == d0 then e0
    else if ops != [] && SeesDay(ops[..|ops| - 1], day) then DayStart(e0, d0, ops[..|ops| - 1], day)
    else CurrentEquity(e0, ops)
  }

  /** The current equity is the limit below the highest. */
  predicate TooDeep(l: Limits, e0: real, ops: seq<Op>) {
    Highest(e0, ops) > 0.0 && (1.0 - CurrentEquity(e0, ops) / Highest(e0, ops)) * 100.0 >= l.maxDrawdownPct
  }

  lemma {:induction false} LastDayIsSeen(d0: int, ops: seq<Op>)
    requires DaysForward(d0, ops)
    ensures d0 <= LastDay(d0, ops) && (LastDay(d0, ops) == d0 || SeesDay(ops, LastDay(d0, ops)))
  {
    if ops != [] {
      var n := |ops| - 1;
      LastDayIsSeen(d0, ops[..n]);
      if DayOf(ops[n]).Some? {
        assert DayOf(ops[n]) == Some(LastDay(d0, ops));
      } else if LastDay(d0, ops) != d0 {
        SeenStays(ops, n, LastDay(d0, ops));
      }
    }
  }

  lemma SeenStays(ops: seq<Op>, n: nat, day: int)
    requires n <= |ops|
    ensures SeesDay(ops[..n], day) ==> SeesDay(ops, day)
  {
    if i :| 0 <= i < n && DayOf(ops[..n][i]) == Some(day) {
      assert DayOf(ops[i]) == Some(day);
    }
  }

  /** Nothing has happened on a day after the last. */
  lemma {:induction false} LaterDayIsNew(d0: int, ops: seq<Op>, day: int)
    requires DaysForward(d0, ops) && LastDay(d0, ops) < day
    ensures !SeesDay(ops, day) && PnlOn(ops, day) == 0.0
  {
    if ops != [] {
      var n := |ops| - 1;
      LaterDayIsNew(d0, ops[..n], day);
      forall i | 0 <= i < |ops| ensures DayOf(ops[i]) != Some(day) {
        if i < n { assert ops[..n][i] == ops[i]; }
      }
    }
  }

  lemma {:induction false} StartIsNoPeak(e0: real, d0: int, ops: seq<Op>, day: int)
    ensures DayStart(e0, d0, ops, day) <= Highest(e0, ops) && CurrentEquity(e0, ops) <= Highest(e0, ops) && e0 <= Highest(e0, ops)
  {
    if ops != [] { StartIsNoPeak(e0, d0, ops[..|ops| - 1], day); }
  }

  // ---- The state read off the history -------------------------------------------------------------

  /** The equities, the timer and the day's account are those of the history. */
  ghost predicate Recorded(s: State, e0: real, d0: int, t0: real, ops: seq<Op>) {
    && s.current == CurrentEquity(e0, ops) && s.peak == Highest(e0, ops) && s.lastBrokerOk == LastAnswer(t0, ops)
    && s.today == LastDay(d0, ops) && s.realizedToday == PnlOn(ops, s.today) && s.startOfDay == DayStart(e0, d0, ops, s.today)
  }

  lemma RollIsRecorded(s: State, e0: real, d0: int, t0: real, ops: seq<Op>, day: int)
    requires DaysForward(d0, ops) && LastDay(d0, ops) <= day && Recorded(s, e0, d0, t0, ops)
    ensures var s' := RollDay(s, day);
      && s'.today == day && s'.realizedToday == PnlOn(ops, day) && s'.startOfDay == DayStart(e0, d0, ops, day)
      && s'.current == s.current && s'.peak == s.peak && s'.lastBrokerOk == s.lastBrokerOk
  {
    hide CurrentEquity, PnlOn, SeesDay;
    LastDayIsSeen(d0, ops);
    if LastDay(d0, ops) < day {
      LaterDayIsNew(d0, ops, day);
      if ops != [] { SeenStays(ops, |ops| - 1, day); }
    }
  }

  lemma DayStartStays(e0: real, d0: int, ops: seq<Op>, op: Op, day: int)
    requires day == d0 || SeesDay(ops, day) || DayOf(op) == Some(day)
    ensures DayStart(e0, d0, ops + [op], day) == DayStart(e0, d0, ops, day)
  {
    assert (ops + [op])[..|ops|] == ops;
    if day != d0 && !SeesDay(ops, day) {
      assert CurrentEquity(e0, ops + [op]) == CurrentEquity(e0, ops);
      if ops != [] { SeenStays(ops, |ops| - 1, day); }
    }
  }

  lemma {:induction false} HistoryIsRecorded(l: Limits, e0: real, d0: int, t0: real, ops: seq<Op>)
    requires DaysForward(d0, ops)
    ensures Recorded(Run(l, Init(e0, d0, t0), ops), e0, d0, t0, ops)
  {
    hide DeepDrawdown, DailyLossHit, SlippageAlarm, SeesDay, DayStart, UpperMedian, RollDay, Step;
    hide CurrentEquity, Highest, LastAnswer, PnlOn;
    if ops == [] {
      StartIsRecorded(e0, d0, t0);
    } else {
      var n := |ops| - 1;
      var prior, op, s := ops[..n], ops[n], Run(l, Init(e0, d0, t0), ops[..n]);
      assert prior + [op] == ops;
      HistoryIsRecorded(l, e0, d0, t0, prior);
      LastDayIsSeen(d0, prior);
      var day := LastDay(d0, ops);
      RollIsRecorded(s, e0, d0, t0, prior, day);
      DayStartStays(e0, d0, prior, op, day);
      HistoryGrows(e0, t0, prior, op, day);
      StepFromRoll(l, s, op, day);
    }
  }

  lemma StartIsRecorded(e0: real, d0: int, t0: real)
    ensures Recorded(Init(e0, d0, t0), e0, d0, t0, [])
  {
  }

  lemma HistoryGrows(e0: real, t0: real, ops: seq<Op>, op: Op, day: int)
    ensures CurrentEquity(e0, ops + [op]) == if op.EquityOp? then op.equity else CurrentEquity(e0, ops)
    ensures Highest(e0, ops + [op]) == Max(Highest(e0, ops), if op.EquityOp? then op.equity else CurrentEquity(e0, ops))
    ensures CurrentEquity(e0, ops) <= Highest(e0, ops)
    ensures LastAnswer(t0, ops + [op]) == if op.BrokerOp? then op.at else LastAnswer(t0, ops)
    ensures PnlOn(ops + [op], day) == PnlOn(ops, day) + if op.TradeOp? && op.day == day then op.pnl else 0.0
  {
    assert (ops + [op])[..|ops|] == ops;
  }

  /** What one operation, which carries this day or none, does to the account, in terms of the day's opening account. */
  lemma StepFromRoll(l: Limits, s: State, op: Op, day: int)
    requires day == if DayOf(op).Some? then DayOf(op).value else s.today
    ensures var s', r := Step(l, s, op), RollDay(s, day);
      && s'.today == day && s'.startOfDay == r.startOfDay
      && s'.realizedToday == r.realizedToday + (if op.TradeOp? then op.pnl else 0.0)
      && s'.current == (if op.EquityOp? then op.equity else s.current)
      && s'.peak == (if op.EquityOp? && op.equity > s.peak then op.equity else s.peak)
      && s'.lastBrokerOk == (if op.BrokerOp? then op.at else s.lastBrokerOk)
  {
    hide DeepDrawdown, DailyLossHit, SlippageAlarm, UpperMedian;
  }

  lemma {:induction false} KilledSince(l: Limits, e0: real, d0: int, t0: real, ops: seq<Op>)
    requires DaysForward(d0, ops)
    ensures Run(l, Init(e0, d0, t0), ops).killed <==> exists k :: 0 <= k < |ops| && ops[k].JudgeOp? && TooDeep(l, e0, ops[..k])
  {
    hide DeepDrawdown, DailyLossHit, SlippageAlarm, TooDeep, UpperMedian, Judge;
    if ops != [] {
      var n := |ops| - 1;
      var prior, op, s := ops[..n], ops[n], Run(l, Init(e0, d0, t0), ops[..n]);
      KilledSince(l, e0, d0, t0, prior);
      forall k | 0 <= k < n ensures prior[..k] == ops[..k] && prior[k] == ops[k] {}
      if op.JudgeOp? {
        DepthFromHistory(l, e0, d0, t0, prior, op.today);
        VerdictExactlyWhen(l, s, op.today, op.now);
        assert RollDay(s, op.today).killed == s.killed;
        if TooDeep(l, e0, prior) { assert ops[n].JudgeOp? && TooDeep(l, e0, ops[..n]); }
      }
      if k :| 0 <= k < n && prior[k].JudgeOp? && TooDeep(l, e0, prior[..k]) {
        assert ops[k].JudgeOp? && TooDeep(l, e0, ops[..k]);
      }
    }
  }

  lemma DepthFromHistory(l: Limits, e0: real, d0: int, t0: real, ops: seq<Op>, today: int)
    requires DaysForward(d0, ops) && LastDay(d0, ops) <= today
    ensures DeepDrawdown(l, RollDay(Run(l, Init(e0, d0, t0), ops), today)) <==> TooDeep(l, e0, ops)
  {
    hide Run, RollDay, DayStart, CurrentEquity, Highest;
    HistoryIsRecorded(l, e0, d0, t0, ops);
    RollIsRecorded(Run(l, Init(e0, d0, t0), ops), e0, d0, t0, ops, today);
    StartIsNoPeak(e0, d0, ops, today);
  }

  /**
   * The verdict from raw history, for days that do not go back. It is a kill if and only if now, or at an earlier verdict,
   * the last equity lay the limit below the highest; otherwise a halt if and only if the trades closed today lost the
   * limit of the day's first equity, or the broker has been silent beyond the grace, or enough slippages have been
   * seen, the upper median of the first ones is positive, and the last slippage exceeds its multiple.
   */
  lemma VerdictFromHistory(l: Limits, e0: real, d0: int, t0: real, ops: seq<Op>, today: int, now: real)
    requires DaysForward(d0, ops) && LastDay(d0, ops) <= today
    ensures var v, xs := Judge(l, Run(l, Init(e0, d0, t0), ops), today, now).1, Slippages(ops);
      var start, needed := DayStart(e0, d0, ops, today), if l.slippageMinSamples == 0 then 1 else l.slippageMinSamples;
      && (v == KILL <==>
            TooDeep(l, e0, ops) || exists k :: 0 <= k < |ops| && ops[k].JudgeOp? && TooDeep(l, e0, ops[..k]))
      && (v == HALT <==>
            && v != KILL
            && (|| (start > 0.0 && -PnlOn(ops, today) / start * 100.0 >= l.dailyLossPct)
                || now - LastAnswer(t0, ops) > l.disconnectGrace
                || (|xs| >= needed && UpperMedian(xs[..needed]) > 0.0 &&
                    xs[|xs| - 1] > UpperMedian(xs[..needed]) * l.slippageAlarmX)))
  {
    hide DeepDrawdown, Judge, Run, RollDay, TooDeep, UpperMedian;
    var s := Run(l, Init(e0, d0, t0), ops);
    HistoryIsRecorded(l, e0, d0, t0, ops);
    RollIsRecorded(s, e0, d0, t0, ops, today);
    KilledSince(l, e0, d0, t0, ops);
    DepthFromHistory(l, e0, d0, t0, ops, today);
    VerdictExactlyWhen(l, s, today, now);
    BaselineIsFirstMedian(l, e0, d0, t0, ops);
    assert RollDay(s, today).samples == s.samples && RollDay(s, today).baseline == s.baseline by { RollKeepsSamples(s, today); }
  }

  lemma RollKeepsSamples(s: State, today: int)
    ensures RollDay(s, today).samples == s.samples && RollDay(s, today).baseline == s.baseline
  {
  }

  /** Once the baseline is fixed, a smaller last slippage never turns an OK into a halt or a kill. */
  lemma SmallerSlippageIsNoWorse(
      l: Limits, e0: real, d0: int, t0: real, ops: seq<Op>, less: real, more: real, today: int, now: real)
    requires DaysForward(d0, ops) && LastDay(d0, ops) <= today && less <= more
    requires |Slippages(ops)| >= l.slippageMinSamples && Slippages(ops) != []
    ensures Judge(l, Run(l, Init(e0, d0, t0), ops + [SlippageOp(more)]), today, now).1 == OK ==>
            Judge(l, Run(l, Init(e0, d0, t0), ops + [SlippageOp(less)]), today, now).1 == OK
  {
    hide Judge, UpperMedian, DeepDrawdown;
    var s := Run(l, Init(e0, d0, t0), ops);
    var high, low := OnSlippage(l, s, more), OnSlippage(l, s, less);
    assert (ops + [SlippageOp(more)])[..|ops|] == ops && (ops + [SlippageOp(less)])[..|ops|] == ops;
    BaselineIsFirstMedian(l, e0, d0, t0, ops);
    VerdictExactlyWhen(l, high, today, now);
    VerdictExactlyWhen(l, low, today, now);
    SameDepthAnySlippage(l, RollDay(high, today), RollDay(low, today));
  }

  lemma SameDepthAnySlippage(l: Limits, s: State, s': State)
    requires s.peak == s'.peak && s.current == s'.current && s.startOfDay == s'.startOfDay
    ensures DeepDrawdown(l, s) <==> DeepDrawdown(l, s')
  {
  }

  /** The reason kept is that of the first condition that asked, with its figures; a passed check clears only a stale halt. */
  lemma ReasonNamesCause(l: Limits, s: State, today: int, now: real)
    ensures var (s', v) := Judge(l, s, today, now);
      var day := RollDay(s, today);
      && (v == KILL && s.killed ==> s'.reason == s.reason)
      && (v == KILL && !s.killed ==> s'.reason == MaxDrawdown((1.0 - s.current / Max(s.peak, day.startOfDay)) * 100.0))
      && (v == HALT && DailyLossHit(l, day) ==> s'.reason == DailyLoss(-day.realizedToday / day.startOfDay * 100.0))
      && (v == HALT && !DailyLossHit(l, day) && now - s.lastBrokerOk > l.disconnectGrace ==>
            s'.reason == Disconnect(now - s.lastBrokerOk))
      && (v == HALT && !DailyLossHit(l, day) && now - s.lastBrokerOk <= l.disconnectGrace ==>
            s.samples != [] && s.baseline.Some? && s'.reason == SlippageAnomaly(s.samples[|s.samples| - 1], s.baseline.value))
      && (v == OK ==> s'.reason == if day.halted then NoReason else s.reason)
      && (day.halted <==> s.halted && today == s.today)
  {
  }
}
