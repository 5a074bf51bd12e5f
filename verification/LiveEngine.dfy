/** The live engine's loop: consult the breaker, size and gate an order, then feed one equity sample to both latches. */
module LiveEngine {
  import opened Basics
  import opened Sizing
  import R = RiskManager
  import B = CircuitBreaker
  import BR = CircuitBreakerRuns

  const DEFAULT_EQUITY := 10000.0

  datatype Spec = Spec(symbol: string, lotStep: real, minLot: real, pipValue: real,
                       riskLimits: R.Limits, breakerLimits: B.Limits)

  datatype Signal = Signal(direction: int, entry: real, sl: real, tp: real, riskPct: real)

  datatype Status = RUNNING | HALTED | KILLED

  /** The two latches that the loop feeds. */
  datatype Latches = Latches(risk: R.State, breaker: B.State)

  datatype Event =
    | Judged(today: int, now: real)
    | Gated(day: int, symbol: string, size: real, atRisk: real)
    | Sample(equity: real)
    | BrokerSeen(at: real)
    | Slipped(amount: real)

  function Apply(spec: Spec, x: Latches, e: Event): Latches {
    match e
    case Judged(today, now) => x.(breaker := B.Judge(spec.breakerLimits, x.breaker, today, now).0)
    case Gated(day, _, _, _) => x.(risk := R.RollDay(x.risk, day))
    case Sample(equity) =>
      Latches(R.OnEquity(spec.riskLimits, x.risk, equity), B.OnEquity(x.breaker, equity))
    case BrokerSeen(at) => x.(breaker := B.OnBrokerOk(x.breaker, at))
    case Slipped(amount) => x.(breaker := B.OnSlippage(spec.breakerLimits, x.breaker, amount))
  }

  function Run(spec: Spec, x: Latches, evs: seq<Event>): Latches {
    if evs == [] then x else Apply(spec, Run(spec, x, evs[..|evs| - 1]), evs[|evs| - 1])
  }

  lemma RunOneMore(spec: Spec, x: Latches, evs: seq<Event>, e: Event)
    ensures Run(spec, x, evs + [e]) == Apply(spec, Run(spec, x, evs), e)
  {
    assert (evs + [e])[..|evs|] == evs;
  }

  lemma RunOneEvent(spec: Spec, x: Latches, e: Event)
    ensures Run(spec, x, [e]) == Apply(spec, x, e)
  {
    assert [] + [e] == [e];
    RunOneMore(spec, x, [], e);
  }

  /** A verdict has been given since the last equity sample. */
  predicate Ready(evs: seq<Event>) {
    evs != [] && match evs[|evs| - 1] {
      case Judged(_, _) => true
      case Sample(_) => false
      case _ => Ready(evs[..|evs| - 1])
    }
  }

  /** There is a verdict before every equity sample and after the one before it. */
  predicate Alternating(evs: seq<Event>) {
    evs == [] || (Alternating(evs[..|evs| - 1]) && (evs[|evs| - 1].Sample? ==> Ready(evs[..|evs| - 1])))
  }

  lemma AlternatingOneMore(evs: seq<Event>, e: Event)
    requires Alternating(evs) && (e.Sample? ==> Ready(evs))
    ensures Alternating(evs + [e])
    ensures e.Judged? ==> Ready(evs + [e])
    ensures !e.Judged? && !e.Sample? ==> (Ready(evs + [e]) <==> Ready(evs))
  {
    assert (evs + [e])[..|evs|] == evs;
  }

  // ---- Sizing and gating --------------------------------------------------------------------------

  /** The lot of the order placed for a signal, if one is placed. */
  function OrderLot(spec: Spec, s: R.State, day: int, sig: Signal): Option<real> {
    var distance := Abs(sig.entry - sig.sl);
    var size := RoundToStep(FixedFractional(s.equity, sig.riskPct, distance, spec.pipValue), spec.lotStep, spec.minLot);
    if size <= 0.0 then None else
      match R.Evaluate(spec.riskLimits, s, day, spec.symbol, size, AtRisk(size, distance, spec.pipValue))
      case Approved => Some(size)
      case Trimmed(adjusted) => Some(RoundToStep(adjusted, spec.lotStep, spec.minLot))
      case Rejected(_) => None
      case Raised => None
  }

  datatype Reply = Reply(success: bool, fill: real)

  /** What the outside world does during one turn of the loop; `None` means that nothing came or the call failed. */
  datatype Turn = Turn(today: int, now: real, bar: Option<Signal>, reply: Option<Reply>, account: Option<real>)

  class Engine {
    const spec: Spec
    const risk: R.Manager
    const breaker: B.Breaker
    var status: Status
    ghost var lots: seq<real>

    ghost predicate Valid()
      reads this
    {
      risk.limits == spec.riskLimits && breaker.limits == spec.breakerLimits
    }

    ghost function Model(): Latches
      reads this, risk, breaker
    {
      Latches(risk.Model(), breaker.Model())
    }

    constructor (spec: Spec, today: int, now: real)
      ensures Valid() && fresh(risk) && fresh(breaker)
      ensures this.spec == spec && status == RUNNING && lots == []
      ensures Model() == Latches(R.Init(DEFAULT_EQUITY, today), B.Init(DEFAULT_EQUITY, today, now))
    {
      this.spec := spec;
      risk := new R.Manager(spec.riskLimits, DEFAULT_EQUITY, today);
      breaker := new B.Breaker(spec.breakerLimits, DEFAULT_EQUITY, today, now);
      status, lots := RUNNING, [];
    }

    /**
     * Connect to the bridge, which answers, and seed both latches with the equity it reports, if it does; the peaks keep
     * the default as a floor. Every answer restarts the disconnect timer.
     */
    method Connect(connectedAt: real, account: Option<real>, seenAt: real)
      requires Valid()
      modifies risk, breaker
      ensures Model() == Seeded(old(Model()), account, if account.Some? then seenAt else connectedAt)
      ensures breaker.lastBrokerOk == if account.Some? then seenAt else connectedAt
      ensures risk.equity == account.GetOr(old(risk.equity)) && breaker.current == account.GetOr(old(breaker.current))
      ensures breaker.startOfDay == account.GetOr(old(breaker.startOfDay))
      ensures account.Some? ==> risk.peak == Max(account.value, old(risk.peak)) && breaker.peak == Max(account.value, old(breaker.peak))
    {
      breaker.BrokerOk(connectedAt);
      if account.Some? {
        breaker.BrokerOk(seenAt);
        var e := account.value;
        risk.equity := e;
        if e > risk.peak { risk.peak := e; }
        breaker.current := e;
        if e > breaker.peak { breaker.peak := e; }
        breaker.startOfDay := e;
      }
    }

    /** Size a signal and pass it through the risk gate; the events of the gate are reported. */
    method SizeAndGate(day: int, sig: Signal) returns (lot: Option<real>, ghost trace: seq<Event>)
      requires Valid()
      modifies risk`today, risk`realizedToday
      ensures lot == OrderLot(spec, old(risk.Model()), day, sig)
      ensures Model() == Run(spec, old(Model()), trace) && Quiet(trace)
      ensures trace == GateEvents(spec, old(risk.Model()), day, sig)
    {
      hide R.Evaluate, RoundToStep, FixedFractional, AtRisk;
      ghost var x := Model();
      trace := [];
      var distance := Abs(sig.entry - sig.sl);
      var size := FixedFractional(risk.equity, sig.riskPct, distance, spec.pipValue);
      size := RoundToStep(size, spec.lotStep, spec.minLot);
      if size <= 0.0 { return None, []; }
      var atRisk := AtRisk(size, distance, spec.pipValue);
      var decision := risk.EvaluateOrder(day, spec.symbol, size, atRisk);
      trace := [Gated(day, spec.symbol, size, atRisk)];
      RunOneMore(spec, x, [], trace[0]);
      assert [] + trace == trace;
      match decision {
        case Approved => lot := Some(size);
        case Trimmed(adjusted) =>
          size := RoundToStep(adjusted, spec.lotStep, spec.minLot);
          lot := Some(size);
        case Rejected(_) => lot := None;
        case Raised => lot := None;
      }
    }

    /** Place the order of a gated signal and record what the broker's answer tells the breaker. */
    method NewBar(t: Turn, sig: Signal) returns (ghost trace: seq<Event>)
      requires Valid()
      modifies this`lots, risk, breaker
      ensures Model() == Run(spec, old(Model()), trace) && Quiet(trace)
      ensures trace == BarEvents(spec, old(risk.Model()), t, sig)
      ensures lots == old(lots) + Placed(OrderLot(spec, old(risk.Model()), t.today, sig))
      ensures breaker.killed == old(breaker.killed) && breaker.current == old(breaker.current)
      ensures risk.equity == old(risk.equity)
      ensures breaker.samples == old(breaker.samples) +
        if |lots| > |old(lots)| && t.reply.Some? && t.reply.value.success then [Abs(t.reply.value.fill - sig.entry)] else []
      ensures breaker.lastBrokerOk == if |lots| > |old(lots)| && t.reply.Some? then t.now else old(breaker.lastBrokerOk)
    {
      hide OrderLot, GateEvents, AnswerEvents, Run;
      ghost var x := Model();
      var lot;
      lot, trace := SizeAndGate(t.today, sig);
      if lot.None? { return; }
      lots := lots + [lot.value];
      ghost var more;
      more := Answered(t, sig);
      RunConcat(spec, x, trace, more);
      trace := trace + more;
    }

    /** What the broker's answer to an order tells the breaker, if one came. */
    method Answered(t: Turn, sig: Signal) returns (ghost trace: seq<Event>)
      requires Valid()
      modifies breaker
      ensures Model() == Run(spec, old(Model()), trace) && trace == AnswerEvents(t, sig) && Quiet(trace)
      ensures breaker.killed == old(breaker.killed) && breaker.current == old(breaker.current)
      ensures breaker.samples == old(breaker.samples) +
        if t.reply.Some? && t.reply.value.success then [Abs(t.reply.value.fill - sig.entry)] else []
      ensures breaker.lastBrokerOk == if t.reply.Some? then t.now else old(breaker.lastBrokerOk)
    {
      hide B.UpperMedian;
      ghost var x := Model();
      trace := [];
      if t.reply.None? { return; }
      breaker.BrokerOk(t.now);
      trace := [BrokerSeen(t.now)];
      RunOneEvent(spec, x, BrokerSeen(t.now));
      if t.reply.value.success {
        var slip := Abs(t.reply.value.fill - sig.entry);
        breaker.SlippageSample(slip);
        RunOneMore(spec, x, trace, Slipped(slip));
        trace := trace + [Slipped(slip)];
      }
    }

    /** Feed one equity sample to both latches, the risk manager's first. */
    method Refresh(t: Turn) returns (ghost trace: seq<Event>)
      requires Valid()
      modifies risk, breaker
      ensures Model() == Run(spec, old(Model()), trace)
      ensures trace == AccountEvents(t)
      ensures breaker.killed == old(breaker.killed) && breaker.samples == old(breaker.samples)
      ensures risk.equity == t.account.GetOr(old(risk.equity)) && breaker.current == t.account.GetOr(old(breaker.current))
      ensures breaker.lastBrokerOk == if t.account.Some? then t.now else old(breaker.lastBrokerOk)
    {
      hide R.OnEquity;
      ghost var x := Model();
      trace := [];
      if t.account.None? { return; }
      breaker.BrokerOk(t.now);
      RunOneMore(spec, x, [], BrokerSeen(t.now));
      assert [] + [BrokerSeen(t.now)] == [BrokerSeen(t.now)];
      risk.OnEquityUpdate(t.account.value);
      breaker.EquitySeen(t.account.value);
      RunOneMore(spec, x, [BrokerSeen(t.now)], Sample(t.account.value));
      trace := [BrokerSeen(t.now)] + [Sample(t.account.value)];
    }

    /** The part of a turn after the verdict OK: react to a bar, if there is one, and sample the equity. */
    method Trade(t: Turn) returns (ghost trace: seq<Event>)
      requires Valid()
      modifies this`lots, risk, breaker
      ensures Model() == Run(spec, old(Model()), trace)
      ensures trace == TradeEvents(spec, old(risk.Model()), t)
      ensures forall i :: 0 <= i < |trace| ==> !trace[i].Judged? && (trace[i].Sample? ==> i == |trace| - 1)
      ensures breaker.killed == old(breaker.killed)
      ensures lots == old(lots) + Orders(spec, old(risk.Model()), t)
      ensures breaker.samples == old(breaker.samples) +
        if |lots| > |old(lots)| && t.reply.Some? && t.reply.value.success
        then [Abs(t.reply.value.fill - t.bar.value.entry)] else []
      ensures risk.equity == t.account.GetOr(old(risk.equity)) && breaker.current == t.account.GetOr(old(breaker.current))
      ensures breaker.lastBrokerOk ==
        if t.account.Some? || (|lots| > |old(lots)| && t.reply.Some?) then t.now else old(breaker.lastBrokerOk)
      ensures t.account.Some? ==> trace != [] && trace[|trace| - 1] == Sample(t.account.value)
      ensures t.account.None? ==> forall i :: 0 <= i < |trace| ==> !trace[i].Sample?
    {
      hide Run, OrderLot, Placed, BarEvents;
      ghost var x := Model();
      trace := [];
      RunNothing(spec, x);
      if t.bar.Some? { trace := NewBar(t, t.bar.value); }
      ghost var seen;
      seen := Refresh(t);
      RunConcat(spec, x, trace, seen);
      trace := trace + seen;
    }

    /** One turn of the loop; it ends for good on a kill and skips everything else on a halt. */
    method Iterate(t: Turn) returns (stop: bool, ghost trace: seq<Event>)
      requires Valid()
      modifies this`status, this`lots, risk, breaker
      ensures Model() == Run(spec, old(Model()), trace) && OneTurn(trace)
      ensures trace != [] && trace[0] == Judged(t.today, t.now)
      ensures trace == TurnEvents(spec, old(Model()), t) && lots == old(lots) + TurnLots(spec, old(Model()), t)
      ensures stop <==> B.Judge(spec.breakerLimits, old(breaker.Model()), t.today, t.now).1 == B.KILL
      ensures stop <==> breaker.killed
      ensures status == match B.Judge(spec.breakerLimits, old(breaker.Model()), t.today, t.now).1 {
        case KILL => KILLED
        case HALT => HALTED
        case OK => if old(status) == HALTED then RUNNING else old(status)
      }
      ensures B.Judge(spec.breakerLimits, old(breaker.Model()), t.today, t.now).1 != B.OK ==>
        lots == old(lots) && |trace| == 1 && breaker.Model() == B.Judge(spec.breakerLimits, old(breaker.Model()), t.today, t.now).0
      ensures B.Judge(spec.breakerLimits, old(breaker.Model()), t.today, t.now).1 == B.OK ==>
        && lots == old(lots) + Orders(spec, old(risk.Model()), t)
        && (t.account.Some? <==> trace[|trace| - 1].Sample?)
        && (t.account.Some? ==> trace[|trace| - 1] == Sample(t.account.value))
      ensures breaker.samples == old(breaker.samples) +
        if |lots| > |old(lots)| && t.reply.Some? && t.reply.value.success
        then [Abs(t.reply.value.fill - t.bar.value.entry)] else []
      ensures B.Judge(spec.breakerLimits, old(breaker.Model()), t.today, t.now).1 == B.OK ==>
        && risk.equity == t.account.GetOr(old(risk.equity)) && breaker.current == t.account.GetOr(old(breaker.current))
        && breaker.lastBrokerOk ==
             if t.account.Some? || (|lots| > |old(lots)| && t.reply.Some?) then t.now else old(breaker.lastBrokerOk)
    {
      BR.VerdictExactlyWhen(spec.breakerLimits, breaker.Model(), t.today, t.now);
      BR.JudgeKeepsRest(spec.breakerLimits, breaker.Model(), t.today, t.now);
      KilledAfter(spec.breakerLimits, breaker.Model(), t.today, t.now);
      RunOneEvent(spec, Model(), Judged(t.today, t.now));
      hide B.Judge, Run, Orders, TradeEvents;
      ghost var x := Model();
      var v := breaker.Verdict(t.today, t.now);
      trace := [Judged(t.today, t.now)];
      if v.KILL? {
        status := KILLED;
        return true, trace;
      }
      stop := false;
      if v.HALT? {
        status := HALTED;
        return;
      }
      if status.HALTED? { status := RUNNING; }
      ghost var more;
      more := Trade(t);
      RunConcat(spec, x, trace, more);
      trace := trace + more;
    }

    /** The whole loop over any sequence of turns. */
    method Loop(turns: seq<Turn>) returns (ghost trace: seq<Event>)
      requires Valid()
      modifies this`status, this`lots, risk, breaker
      ensures Valid() && Model() == Run(spec, old(Model()), trace) && Alternating(trace)
      ensures turns != [] ==> trace != [] && trace[0].Judged?
      ensures turns != [] && breaker.killed ==> status == KILLED
      ensures trace == LoopEvents(spec, old(Model()), turns) && lots == old(lots) + LoopLots(spec, old(Model()), turns)
    {
      hide Run, B.Judge, LoopEvents, LoopLots, TurnEvents, TurnLots, Alternating, OneTurn, Ended;
      ghost var x := Model();
      trace := [];
      assert Run(spec, x, []) == x by { RunNothing(spec, x); }
      NoTurns(spec, x);
      ghost var done := 0;
      for i := 0 to |turns|
        invariant Valid()
        invariant Model() == Run(spec, x, trace) && Alternating(trace)
        invariant i > 0 ==> trace != []
        invariant trace != [] ==> trace[0].Judged?
        invariant !Ended(spec, x, trace) && (i > 0 ==> !breaker.killed)
        invariant done == i
        invariant trace == LoopEvents(spec, x, turns[..i]) && lots == old(lots) + LoopLots(spec, x, turns[..i])
      {
        var stop;
        ghost var more;
        stop, more := Iterate(turns[i]);
        OneMoreTurn(spec, x, turns, i);
        RunConcat(spec, x, trace, more);
        TurnKeepsAlternating(trace, more);
        assert (trace + more)[0] == if trace == [] then more[0] else trace[0];
        trace, done := trace + more, i + 1;
        EndMeans(spec, x, trace);
        if stop { break; }
      }
      AfterTheLast(spec, x, turns, done);
    }
  }

  // ---- What the loop does, turn by turn -----------------------------------------------------------

  /** Only an order with a size reaches the gate. */
  function GateEvents(spec: Spec, s: R.State, day: int, sig: Signal): seq<Event> {
    var distance := Abs(sig.entry - sig.sl);
    var size := RoundToStep(FixedFractional(s.equity, sig.riskPct, distance, spec.pipValue), spec.lotStep, spec.minLot);
    if size <= 0.0 then [] else [Gated(day, spec.symbol, size, AtRisk(size, distance, spec.pipValue))]
  }

  /** The broker's answer to an order is noted, and what a successful fill slipped. */
  function BarEvents(spec: Spec, s: R.State, t: Turn, sig: Signal): seq<Event> {
    GateEvents(spec, s, t.today, sig) + if OrderLot(spec, s, t.today, sig).Some? then AnswerEvents(t, sig) else []
  }

  function AnswerEvents(t: Turn, sig: Signal): seq<Event> {
    if t.reply.None? then []
    else if t.reply.value.success then [BrokerSeen(t.now), Slipped(Abs(t.reply.value.fill - sig.entry))]
    else [BrokerSeen(t.now)]
  }

  function AccountEvents(t: Turn): seq<Event> {
    if t.account.Some? then [BrokerSeen(t.now), Sample(t.account.value)] else []
  }

  function TradeEvents(spec: Spec, s: R.State, t: Turn): seq<Event> {
    (if t.bar.Some? then BarEvents(spec, s, t, t.bar.value) else []) + AccountEvents(t)
  }

  /** A verdict, and only if it is OK the bar and the account. */
  function TurnEvents(spec: Spec, x: Latches, t: Turn): seq<Event> {
    [Judged(t.today, t.now)] +
    if B.Judge(spec.breakerLimits, x.breaker, t.today, t.now).1 == B.OK then TradeEvents(spec, x.risk, t) else []
  }

  function TurnLots(spec: Spec, x: Latches, t: Turn): seq<real> {
    if B.Judge(spec.breakerLimits, x.breaker, t.today, t.now).1 == B.OK then Orders(spec, x.risk, t) else []
  }

  /** A kill has ended the loop. */
  predicate Ended(spec: Spec, x: Latches, evs: seq<Event>) { evs != [] && Run(spec, x, evs).breaker.killed }

  /** All turns up to the first kill, in order. */
  function LoopEvents(spec: Spec, x: Latches, turns: seq<Turn>): seq<Event> {
    if turns == [] then [] else
      var prior := LoopEvents(spec, x, turns[..|turns| - 1]);
      if Ended(spec, x, prior) then prior else prior + TurnEvents(spec, Run(spec, x, prior), turns[|turns| - 1])
  }

  function LoopLots(spec: Spec, x: Latches, turns: seq<Turn>): seq<real> {
    if turns == [] then [] else
      var prior := LoopEvents(spec, x, turns[..|turns| - 1]);
      LoopLots(spec, x, turns[..|turns| - 1]) +
      if Ended(spec, x, prior) then [] else TurnLots(spec, Run(spec, x, prior), turns[|turns| - 1])
  }

  lemma NoTurns(spec: Spec, x: Latches)
    ensures LoopEvents(spec, x, []) == [] && LoopLots(spec, x, []) == []
    ensures Alternating([]) && !Ended(spec, x, [])
  {
  }

  lemma EndMeans(spec: Spec, x: Latches, evs: seq<Event>)
    ensures Ended(spec, x, evs) <==> evs != [] && Run(spec, x, evs).breaker.killed
  {
  }

  lemma OneMoreTurn(spec: Spec, x: Latches, turns: seq<Turn>, i: nat)
    requires i < |turns|
    ensures var prior := LoopEvents(spec, x, turns[..i]);
      !Ended(spec, x, prior) ==>
        && LoopEvents(spec, x, turns[..i + 1]) == prior + TurnEvents(spec, Run(spec, x, prior), turns[i])
        && LoopLots(spec, x, turns[..i + 1]) == LoopLots(spec, x, turns[..i]) + TurnLots(spec, Run(spec, x, prior), turns[i])
  {
    hide Run, TurnEvents, TurnLots;
    assert turns[..i + 1][..i] == turns[..i];
  }

  lemma {:induction false} AfterTheLast(spec: Spec, x: Latches, turns: seq<Turn>, done: nat)
    requires done <= |turns|
    ensures done == |turns| || Ended(spec, x, LoopEvents(spec, x, turns[..done])) ==>
      && LoopEvents(spec, x, turns) == LoopEvents(spec, x, turns[..done])
      && LoopLots(spec, x, turns) == LoopLots(spec, x, turns[..done])
  {
    hide Ended, TurnEvents, TurnLots;
    if done == |turns| {
      assert turns[..done] == turns;
    } else {
      AfterTheLast(spec, x, turns[..|turns| - 1], done);
      assert turns[..|turns| - 1][..done] == turns[..done];
    }
  }

  // ---- Why a halt is for good ---------------------------------------------------------------------

  predicate ClockForward(turns: seq<Turn>) { forall i, j :: 0 <= i <= j < |turns| ==> turns[i].now <= turns[j].now }

  /** The verdicts given in the course of a trace. */
  function Verdicts(spec: Spec, x: Latches, evs: seq<Event>): seq<B.Verdict> {
    if evs == [] then [] else
      var n := |evs| - 1;
      Verdicts(spec, x, evs[..n]) + match evs[n] {
        case Judged(today, now) => [B.Judge(spec.breakerLimits, Run(spec, x, evs[..n]).breaker, today, now).1]
        case _ => []
      }
  }

  /** After the first halt every verdict is a halt, and by then all orders have been placed. */
  ghost predicate HaltsForGood(vs: seq<B.Verdict>, ordered: seq<nat>, total: nat)
    requires |vs| == |ordered|
  {
    forall i, j :: 0 <= i <= j < |vs| && vs[i] == B.HALT ==> vs[j] == B.HALT && ordered[i] == total
  }

  lemma NoHalts(total: nat)
    ensures HaltsForGood([], [], total)
  {
  }

  lemma OneMoreVerdict(vs: seq<B.Verdict>, ordered: seq<nat>, v: B.Verdict, before: nat, after: nat)
    requires |vs| == |ordered| && HaltsForGood(vs, ordered, before)
    requires v == B.HALT ==> before == after
    requires vs != [] && vs[|vs| - 1] == B.HALT ==> v == B.HALT
    ensures HaltsForGood(vs + [v], ordered + [after], after)
  {
    forall i, j | 0 <= i <= j < |vs| + 1 && (vs + [v])[i] == B.HALT
      ensures (vs + [v])[j] == B.HALT && (ordered + [after])[i] == after
    {
      if i < |vs| { assert vs[|vs| - 1] == B.HALT; }
    }
  }

  lemma HaltNow(l: B.Limits, s: B.State, since: real, t: Turn)
    requires BR.HaltsFrom(l, s, since) && since <= t.now
    ensures B.Judge(l, s, t.today, t.now).1 == B.HALT
  {
  }

  lemma {:induction false} VerdictsConcat(spec: Spec, x: Latches, a: seq<Event>, b: seq<Event>)
    ensures Verdicts(spec, x, a + b) == Verdicts(spec, x, a) + Verdicts(spec, Run(spec, x, a), b)
  {
    hide Run, B.Judge;
    if b == [] {
      assert a + b == a;
    } else {
      var rest := b[..|b| - 1];
      VerdictsConcat(spec, x, a, rest);
      RunConcat(spec, x, a, rest);
      assert (a + b)[..|a + b| - 1] == a + rest;
    }
  }

  lemma {:induction false} TurnVerdict(spec: Spec, x: Latches, evs: seq<Event>)
    requires OneTurn(evs)
    ensures Verdicts(spec, x, evs) == [B.Judge(spec.breakerLimits, x.breaker, evs[0].today, evs[0].now).1]
  {
    hide B.Judge, Apply;
    if |evs| == 1 {
      assert evs[..0] == [];
    } else {
      TurnVerdict(spec, x, evs[..|evs| - 1]);
    }
  }

  /** The engine reports no closed trade, so a steady breaker stays steady. */
  lemma {:induction false} RunKeepsSteady(spec: Spec, x: Latches, evs: seq<Event>)
    requires BR.Steady(spec.breakerLimits, x.breaker)
    ensures BR.Steady(spec.breakerLimits, Run(spec, x, evs).breaker)
  {
    if evs != [] {
      RunKeepsSteady(spec, x, evs[..|evs| - 1]);
      ApplyKeepsSteady(spec, Run(spec, x, evs[..|evs| - 1]), evs[|evs| - 1]);
    }
  }

  lemma ApplyKeepsSteady(spec: Spec, x: Latches, e: Event)
    requires BR.Steady(spec.breakerLimits, x.breaker)
    ensures BR.Steady(spec.breakerLimits, Apply(spec, x, e).breaker)
  {
    hide B.DeepDrawdown, B.DailyLossHit, B.SlippageAlarm, R.OnEquity, R.RollDay;
  }

  /** How many orders have been placed by the end of each turn. */
  function LoopOrdered(spec: Spec, x: Latches, turns: seq<Turn>): seq<nat> {
    if turns == [] then [] else
      LoopOrdered(spec, x, turns[..|turns| - 1]) +
      if Ended(spec, x, LoopEvents(spec, x, turns[..|turns| - 1])) then [] else [|LoopLots(spec, x, turns)|]
  }

  /** What holds after any number of turns of a steady engine whose clock does not go back. */
  ghost predicate HaltsSoFar(spec: Spec, x: Latches, turns: seq<Turn>) {
    var evs := LoopEvents(spec, x, turns);
    var vs, ordered, l := Verdicts(spec, x, evs), LoopOrdered(spec, x, turns), spec.breakerLimits;
    && |vs| == |ordered| && BR.Steady(l, Run(spec, x, evs).breaker)
    && HaltsForGood(vs, ordered, |LoopLots(spec, x, turns)|)
    && (vs != [] && vs[|vs| - 1] == B.HALT ==>
          turns != [] && BR.HaltsFrom(l, Run(spec, x, evs).breaker, turns[|turns| - 1].now))
    && (Ended(spec, x, evs) ==> vs != [] && vs[|vs| - 1] == B.KILL)
    && (evs == [] ==> vs == [])
  }

  /**
   * In every loop whose clock does not go back the first halt is for good, as the engine reports no closed trades: every
   * later verdict is a halt too, and nothing is ordered any more.
   */
  lemma {:induction false} FirstHaltIsForGood(spec: Spec, x: Latches, turns: seq<Turn>)
    requires ClockForward(turns) && BR.Steady(spec.breakerLimits, x.breaker)
    ensures |Verdicts(spec, x, LoopEvents(spec, x, turns))| == |LoopOrdered(spec, x, turns)|
    ensures HaltsForGood(Verdicts(spec, x, LoopEvents(spec, x, turns)), LoopOrdered(spec, x, turns), |LoopLots(spec, x, turns)|)
    ensures HaltsSoFar(spec, x, turns)
  {
    hide HaltsSoFar, ClockForward, HaltsForGood;
    if turns == [] {
      assert HaltsSoFar(spec, x, []) by { NoTurnsHalt(spec, x); }
    } else {
      var prior, t := turns[..|turns| - 1], turns[|turns| - 1];
      assert prior + [t] == turns;
      PriorClock(turns);
      FirstHaltIsForGood(spec, x, prior);
      HaltsOneMore(spec, x, prior, t);
    }
    SoFarMeans(spec, x, turns);
  }

  lemma SoFarMeans(spec: Spec, x: Latches, turns: seq<Turn>)
    ensures HaltsSoFar(spec, x, turns) ==>
      && |Verdicts(spec, x, LoopEvents(spec, x, turns))| == |LoopOrdered(spec, x, turns)|
      && HaltsForGood(Verdicts(spec, x, LoopEvents(spec, x, turns)), LoopOrdered(spec, x, turns), |LoopLots(spec, x, turns)|)
  {
  }

  lemma PriorClock(turns: seq<Turn>)
    requires turns != [] && ClockForward(turns)
    ensures ClockForward(turns[..|turns| - 1])
    ensures |turns| > 1 ==> turns[|turns| - 2].now <= turns[|turns| - 1].now
  {
  }

  lemma NoTurnsHalt(spec: Spec, x: Latches)
    requires BR.Steady(spec.breakerLimits, x.breaker)
    ensures HaltsSoFar(spec, x, [])
  {
    NoHalts(0);
  }

  lemma HaltsOneMore(spec: Spec, x: Latches, prior: seq<Turn>, t: Turn)
    requires HaltsSoFar(spec, x, prior) && (prior != [] ==> prior[|prior| - 1].now <= t.now)
    ensures HaltsSoFar(spec, x, prior + [t])
  {
    hide B.Judge, Run, HaltsForGood, BR.Steady, BR.HaltsFrom, Verdicts, TurnEvents, TurnLots, LoopEvents, LoopLots, LoopOrdered, Ended;
    var evs, turns := LoopEvents(spec, x, prior), prior + [t];
    assert turns[..|turns| - 1] == prior;
    if Ended(spec, x, evs) {
      EndStays(spec, x, prior, t);
    } else {
      LoopGrows(spec, x, prior, t);
      var y := Run(spec, x, evs);
      VerdictGrows(spec, x, evs, y, t);
      TurnOutcome(spec, y, t);
      var vs, v := Verdicts(spec, x, evs), B.Judge(spec.breakerLimits, y.breaker, t.today, t.now).1;
      if vs != [] && vs[|vs| - 1] == B.HALT { HaltNow(spec.breakerLimits, y.breaker, prior[|prior| - 1].now, t); }
      if v == B.HALT { BR.HaltRepeats(spec.breakerLimits, y.breaker, t.today, t.now); }
      OneMoreVerdict(vs, LoopOrdered(spec, x, prior), v, |LoopLots(spec, x, prior)|, |LoopLots(spec, x, turns)|);
      EndMeans(spec, x, LoopEvents(spec, x, turns));
    }
  }

  lemma LoopGrows(spec: Spec, x: Latches, prior: seq<Turn>, t: Turn)
    requires !Ended(spec, x, LoopEvents(spec, x, prior))
    ensures var y := Run(spec, x, LoopEvents(spec, x, prior));
      && LoopEvents(spec, x, prior + [t]) == LoopEvents(spec, x, prior) + TurnEvents(spec, y, t)
      && LoopLots(spec, x, prior + [t]) == LoopLots(spec, x, prior) + TurnLots(spec, y, t)
      && LoopOrdered(spec, x, prior + [t]) == LoopOrdered(spec, x, prior) + [|LoopLots(spec, x, prior + [t])|]
  {
    hide Run, TurnEvents, TurnLots, Ended;
    assert (prior + [t])[..|prior|] == prior;
  }

  lemma VerdictGrows(spec: Spec, x: Latches, evs: seq<Event>, y: Latches, t: Turn)
    requires y == Run(spec, x, evs)
    ensures var more := TurnEvents(spec, y, t);
      && more != [] && Run(spec, x, evs + more) == Run(spec, y, more)
      && Verdicts(spec, x, evs + more) == Verdicts(spec, x, evs) + [B.Judge(spec.breakerLimits, y.breaker, t.today, t.now).1]
  {
    hide B.Judge, Run, Verdicts, TurnEvents;
    TurnEventsAreOneTurn(spec, y, t);
    TurnVerdict(spec, y, TurnEvents(spec, y, t));
    VerdictsConcat(spec, x, evs, TurnEvents(spec, y, t));
    RunConcat(spec, x, evs, TurnEvents(spec, y, t));
  }

  lemma TurnOutcome(spec: Spec, y: Latches, t: Turn)
    ensures var (s, v) := B.Judge(spec.breakerLimits, y.breaker, t.today, t.now);
      var after := Run(spec, y, TurnEvents(spec, y, t)).breaker;
      && (after.killed <==> v == B.KILL)
      && (v == B.HALT ==> after == s && TurnLots(spec, y, t) == [])
      && (BR.Steady(spec.breakerLimits, y.breaker) ==> BR.Steady(spec.breakerLimits, after))
  {
    hide B.Judge, Run, TurnEvents, TurnLots, BR.Steady;
    EndsOnKill(spec, y, t);
    if B.Judge(spec.breakerLimits, y.breaker, t.today, t.now).1 == B.HALT { HaltTurn(spec, y, t); }
    if BR.Steady(spec.breakerLimits, y.breaker) { RunKeepsSteady(spec, y, TurnEvents(spec, y, t)); }
  }

  lemma {:induction false} OneVerdictATurn(spec: Spec, x: Latches, turns: seq<Turn>)
    ensures |Verdicts(spec, x, LoopEvents(spec, x, turns))| == |LoopOrdered(spec, x, turns)| <= |turns|
  {
    hide B.Judge, Run, Verdicts, TurnEvents, TurnLots;
    if turns == [] {
      assert Verdicts(spec, x, []) == [] by { NoVerdicts(spec, x); }
    } else {
      var prior, t := turns[..|turns| - 1], turns[|turns| - 1];
      OneVerdictATurn(spec, x, prior);
      var evs := LoopEvents(spec, x, prior);
      if !Ended(spec, x, evs) {
        TurnEventsAreOneTurn(spec, Run(spec, x, evs), t);
        TurnVerdict(spec, Run(spec, x, evs), TurnEvents(spec, Run(spec, x, evs), t));
        VerdictsConcat(spec, x, evs, TurnEvents(spec, Run(spec, x, evs), t));
      }
    }
  }

  lemma NoVerdicts(spec: Spec, x: Latches)
    ensures Verdicts(spec, x, []) == []
  {
  }

  lemma EndStays(spec: Spec, x: Latches, prior: seq<Turn>, t: Turn)
    ensures HaltsSoFar(spec, x, prior) && Ended(spec, x, LoopEvents(spec, x, prior)) ==> HaltsSoFar(spec, x, prior + [t])
  {
    hide HaltsForGood, BR.Steady, BR.HaltsFrom, Verdicts, Run;
    var turns := prior + [t];
    assert turns[..|turns| - 1] == prior;
    if !Ended(spec, x, LoopEvents(spec, x, prior)) { return; }
    assert LoopEvents(spec, x, turns) == LoopEvents(spec, x, prior);
    assert LoopLots(spec, x, turns) == LoopLots(spec, x, prior);
    assert LoopOrdered(spec, x, turns) == LoopOrdered(spec, x, prior);
  }

  /** On a halt nothing but the verdict happens. */
  lemma HaltTurn(spec: Spec, y: Latches, t: Turn)
    requires B.Judge(spec.breakerLimits, y.breaker, t.today, t.now).1 == B.HALT
    ensures TurnLots(spec, y, t) == []
    ensures Run(spec, y, TurnEvents(spec, y, t)).breaker == B.Judge(spec.breakerLimits, y.breaker, t.today, t.now).0
  {
    hide B.Judge;
    RunOneEvent(spec, y, Judged(t.today, t.now));
    assert TurnEvents(spec, y, t) == [Judged(t.today, t.now)];
  }

  lemma EndsOnKill(spec: Spec, y: Latches, t: Turn)
    ensures Run(spec, y, TurnEvents(spec, y, t)).breaker.killed <==>
      B.Judge(spec.breakerLimits, y.breaker, t.today, t.now).1 == B.KILL
  {
    hide B.Judge, TradeEvents;
    var first, rest := [Judged(t.today, t.now)], TradeEvents(spec, y.risk, t);
    KilledAfter(spec.breakerLimits, y.breaker, t.today, t.now);
    RunOneEvent(spec, y, Judged(t.today, t.now));
    if B.Judge(spec.breakerLimits, y.breaker, t.today, t.now).1 == B.OK {
      RunConcat(spec, y, first, rest);
      TradeIsQuiet(spec, y.risk, t);
      NoVerdictNoKill(spec, Run(spec, y, first), rest);
    } else {
      assert first + [] == first;
    }
  }

  lemma {:induction false} NoVerdictNoKill(spec: Spec, x: Latches, evs: seq<Event>)
    requires forall e :: e in evs ==> !e.Judged?
    ensures Run(spec, x, evs).breaker.killed == x.breaker.killed
  {
    hide R.OnEquity, R.RollDay, B.UpperMedian;
    if evs != [] {
      NoVerdictNoKill(spec, x, evs[..|evs| - 1]);
      assert evs[|evs| - 1] in evs;
    }
  }

  lemma TradeIsQuiet(spec: Spec, s: R.State, t: Turn)
    ensures forall e :: e in TradeEvents(spec, s, t) ==> !e.Judged?
    ensures forall i :: 0 <= i < |TradeEvents(spec, s, t)| - 1 ==> !TradeEvents(spec, s, t)[i].Sample?
  {
    hide OrderLot;
  }

  lemma TurnEventsAreOneTurn(spec: Spec, y: Latches, t: Turn)
    ensures OneTurn(TurnEvents(spec, y, t)) && TurnEvents(spec, y, t)[0] == Judged(t.today, t.now)
  {
    hide B.Judge, TradeEvents;
    TradeIsQuiet(spec, y.risk, t);
  }

  lemma KilledAfter(l: B.Limits, s: B.State, today: int, now: real)
    ensures B.Judge(l, s, today, now).0.killed <==> B.Judge(l, s, today, now).1 == B.KILL
  {
  }

  /** The lots a turn orders once its verdict is OK. */
  function Orders(spec: Spec, s: R.State, t: Turn): seq<real> {
    if t.bar.Some? then Placed(OrderLot(spec, s, t.today, t.bar.value)) else []
  }

  function Placed(lot: Option<real>): seq<real> { if lot.Some? then [lot.value] else [] }

  /** Neither verdicts nor equity samples. */
  predicate Quiet(evs: seq<Event>) { forall e :: e in evs ==> !e.Judged? && !e.Sample? }

  /** The events of one turn: a verdict first, at most one equity sample, and that one last. */
  predicate OneTurn(evs: seq<Event>) {
    && evs != [] && evs[0].Judged?
    && (forall i :: 1 <= i < |evs| ==> !evs[i].Judged?)
    && (forall i :: 1 <= i < |evs| - 1 ==> !evs[i].Sample?)
  }

  lemma RunNothing(spec: Spec, x: Latches)
    ensures Run(spec, x, []) == x
  {
  }

  lemma {:induction false} RunConcat(spec: Spec, x: Latches, a: seq<Event>, b: seq<Event>)
    ensures Run(spec, x, a + b) == Run(spec, Run(spec, x, a), b)
  {
    hide Apply;
    if b == [] {
      assert a + b == a;
    } else {
      var rest := b[..|b| - 1];
      RunConcat(spec, x, a, rest);
      assert (a + b)[..|a + b| - 1] == a + rest;
    }
  }

  lemma {:induction false} TurnKeepsAlternating(a: seq<Event>, b: seq<Event>)
    requires Alternating(a) && OneTurn(b)
    ensures Alternating(a + b) && (!b[|b| - 1].Sample? ==> Ready(a + b))
    decreases |b|
  {
    var rest := b[..|b| - 1];
    assert a + b == (a + rest) + [b[|b| - 1]];
    if |b| > 1 {
      TurnKeepsAlternating(a, rest);
    } else {
      assert a + rest == a;
    }
    AlternatingOneMore(a + rest, b[|b| - 1]);
  }

  function Seeded(x: Latches, account: Option<real>, answered: real): Latches {
    var b := x.breaker.(lastBrokerOk := answered);
    match account
    case None => x.(breaker := b)
    case Some(e) =>
      Latches(x.risk.(equity := e, peak := Max(e, x.risk.peak)),
              b.(current := e, peak := Max(e, b.peak), startOfDay := e))
  }
}
