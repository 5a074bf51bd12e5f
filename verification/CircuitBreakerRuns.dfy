/** The slippage baseline over whole runs of the breaker, and why a halt repeats itself. */
module CircuitBreakerRuns {
  import opened Basics
  import opened CircuitBreaker

  datatype Op =
    | EquityOp(equity: real)
    | TradeOp(day: int, pnl: real)
    | BrokerOp(at: real)
    | SlippageOp(amount: real)
    | JudgeOp(today: int, now: real)

  function Step(l: Limits, s: State, op: Op): State {
    match op
    case EquityOp(e) => OnEquity(s, e)
    case TradeOp(day, pnl) => OnTradeClosed(s, day, pnl)
    case BrokerOp(at) => OnBrokerOk(s, at)
    case SlippageOp(x) => OnSlippage(l, s, x)
    case JudgeOp(today, now) => Judge(l, s, today, now).0
  }

  function Run(l: Limits, s: State, ops: seq<Op>): State {
    if ops == [] then s else Step(l, Run(l, s, ops[..|ops| - 1]), ops[|ops| - 1])
  }

  function Slippages(ops: seq<Op>): seq<real> {
    if ops == [] then []
    else Slippages(ops[..|ops| - 1]) + match ops[|ops| - 1] { case SlippageOp(x) => [x] case _ => [] }
  }

  /** How many samples it takes; the first one is never skipped. */
  function Needed(l: Limits): nat { if l.slippageMinSamples == 0 then 1 else l.slippageMinSamples }

  /** The baseline is the upper median of the first samples that suffice, and later samples never move it. */
  lemma {:induction false} BaselineIsFirstMedian(l: Limits, equity: real, today: int, now: real, ops: seq<Op>)
    ensures var s, xs := Run(l, Init(equity, today, now), ops), Slippages(ops);
      && s.samples == xs
      && s.baseline == if |xs| < Needed(l) then None else Some(UpperMedian(xs[..Needed(l)]))
  {
    hide UpperMedian, DeepDrawdown, DailyLossHit, SlippageAlarm;
    if ops != [] {
      var prior := ops[..|ops| - 1];
      BaselineIsFirstMedian(l, equity, today, now, prior);
      var before := Slippages(prior);
      if ops[|ops| - 1].SlippageOp? {
        var xs := before + [ops[|ops| - 1].amount];
        assert |xs| >= Needed(l) && |before| < Needed(l) ==> xs[..Needed(l)] == xs;
        assert |before| >= Needed(l) ==> xs[..Needed(l)] == before[..Needed(l)];
      } else {
        assert before + [] == before;
      }
    }
  }

  /** Some condition asks for a halt: today's realized loss, a silent broker, or an abnormal last fill. */
  predicate HaltAsked(l: Limits, s: State, now: real) {
    DailyLossHit(l, s) || now - s.lastBrokerOk > l.disconnectGrace || SlippageAlarm(l, s)
  }

  /**
   * A kill is for good and outranks every halt; a halt lasts exactly as long as something asks for it; and a new day
   * forgets yesterday's realized loss before anything is judged.
   */
  lemma VerdictExactlyWhen(l: Limits, s: State, today: int, now: real)
    ensures var (s', v) := Judge(l, s, today, now);
      var day := RollDay(s, today);
      && (v == KILL <==> s.killed || DeepDrawdown(l, day))
      && (v == HALT <==> v != KILL && HaltAsked(l, day, now))
      && (s'.killed <==> v == KILL)
      && (v != KILL ==> (s'.halted <==> v == HALT))
      && (v == OK ==> s'.reason == NoReason || s'.reason == s.reason)
      && s'.peak == s.peak && s'.current == s.current && s'.samples == s.samples && s'.baseline == s.baseline
      && (today != s.today ==> s'.realizedToday == 0.0 && s'.startOfDay == s.current)
  {
    hide DeepDrawdown, DailyLossHit, SlippageAlarm;
  }

  /** What holds of a breaker that is never told of a closed trade. */
  predicate Steady(l: Limits, s: State) {
    0.0 < l.dailyLossPct && s.realizedToday == 0.0 && s.current <= s.peak && s.startOfDay <= s.peak
  }

  /** The verdict is a halt at this time and at every later one, on any day. */
  ghost predicate HaltsFrom(l: Limits, s: State, now: real) {
    forall today: int, later: real :: now <= later ==> Judge(l, s, today, later).1 == HALT
  }

  /** A halt that no equity, fill or broker answer comes after is repeated at every later verdict: only time passes. */
  lemma HaltRepeats(l: Limits, s: State, today: int, now: real)
    requires Steady(l, s) && Judge(l, s, today, now).1 == HALT
    ensures var s' := Judge(l, s, today, now).0;
      Steady(l, s') && HaltsFrom(l, s', now)
  {
    hide Judge;
    var s' := Judge(l, s, today, now).0;
    VerdictExactlyWhen(l, s, today, now);
    JudgeKeepsRest(l, s, today, now);
    forall d: int, later: real | now <= later ensures Judge(l, s', d, later).1 == HALT {
      VerdictExactlyWhen(l, s', d, later);
      SameDepth(l, RollDay(s, today), RollDay(s', d));
      NoLoss(l, RollDay(s, today));
      assert SlippageAlarm(l, RollDay(s', d)) <==> SlippageAlarm(l, RollDay(s, today));
    }
  }

  lemma JudgeKeepsRest(l: Limits, s: State, today: int, now: real)
    ensures var s' := Judge(l, s, today, now).0;
      s'.startOfDay == RollDay(s, today).startOfDay && s'.lastBrokerOk == s.lastBrokerOk &&
      s'.realizedToday == RollDay(s, today).realizedToday
  {
    hide DeepDrawdown, DailyLossHit, SlippageAlarm;
  }

  lemma SameDepth(l: Limits, s: State, s': State)
    requires s.peak == s'.peak && s.current == s'.current && s.startOfDay <= s.peak && s'.startOfDay <= s'.peak
    ensures DeepDrawdown(l, s) <==> DeepDrawdown(l, s')
  {
  }

  lemma NoLoss(l: Limits, s: State)
    requires 0.0 < l.dailyLossPct && s.realizedToday == 0.0
    ensures !DailyLossHit(l, s)
  {
    if s.startOfDay > 0.0 { assert -0.0 / s.startOfDay == 0.0; }
  }
}
