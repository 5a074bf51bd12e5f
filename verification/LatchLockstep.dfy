/** The two drawdown latches, written independently, trip together when the engine's loop feeds them. */
module LatchLockstep {
  import opened Basics
  import opened LiveEngine
  import R = RiskManager
  import B = CircuitBreaker
  import BR = CircuitBreakerRuns

  /** The latches of a new engine whose bridge last answered at the given time. */
  function Start(today: int, answered: real, account: Option<real>): Latches {
    Seeded(Latches(R.Init(DEFAULT_EQUITY, today), B.Init(DEFAULT_EQUITY, today, answered)), account, answered)
  }

  function SeedOf(account: Option<real>): real { account.GetOr(DEFAULT_EQUITY) }

  function Samples(evs: seq<Event>): seq<real> {
    if evs == [] then []
    else Samples(evs[..|evs| - 1]) + match evs[|evs| - 1] { case Sample(e) => [e] case _ => [] }
  }

  /** The highest equity so far; the default is a floor under it. */
  function RunningPeak(seed: real, ss: seq<real>): real {
    if ss == [] then Max(seed, DEFAULT_EQUITY) else Max(RunningPeak(seed, ss[..|ss| - 1]), ss[|ss| - 1])
  }

  lemma {:induction false} PeakAboveFloor(seed: real, ss: seq<real>)
    ensures RunningPeak(seed, ss) >= DEFAULT_EQUITY
  {
    if ss != [] {
      PeakAboveFloor(seed, ss[..|ss| - 1]);
    }
  }

  /** An equity is at least the limit percentage below a peak. */
  predicate Deep(limit: real, equity: real, peak: real) {
    peak > 0.0 && (1.0 - equity / peak) * 100.0 >= limit
  }

  /** The seed itself already lies the limit below the default that serves as its peak. */
  predicate SeedTrips(limit: real, seed: real) { Deep(limit, seed, Max(seed, DEFAULT_EQUITY)) }

  /** Some sample was the limit below the highest equity up to then. */
  ghost predicate Tripped(limit: real, seed: real, ss: seq<real>) {
    exists k :: 0 <= k < |ss| && Deep(limit, ss[k], RunningPeak(seed, ss[..k + 1]))
  }

  lemma TrippedOneMore(limit: real, seed: real, ss: seq<real>, e: real)
    ensures Tripped(limit, seed, ss + [e]) <==>
            Tripped(limit, seed, ss) || Deep(limit, e, Max(RunningPeak(seed, ss), e))
    ensures RunningPeak(seed, ss + [e]) == Max(RunningPeak(seed, ss), e)
  {
    hide Deep;
    var s' := ss + [e];
    assert s'[..|ss|] == ss && s'[..|ss| + 1] == s';
    forall k | 0 <= k < |ss| ensures s'[..k + 1] == ss[..k + 1] && s'[k] == ss[k] {}
    if Tripped(limit, seed, ss) {
      var k :| 0 <= k < |ss| && Deep(limit, ss[k], RunningPeak(seed, ss[..k + 1]));
      assert Deep(limit, s'[k], RunningPeak(seed, s'[..k + 1]));
    }
    if Deep(limit, e, Max(RunningPeak(seed, ss), e)) {
      assert Deep(limit, s'[|ss|], RunningPeak(seed, s'[..|ss| + 1]));
    }
    if Tripped(limit, seed, s') {
      var k :| 0 <= k < |s'| && Deep(limit, s'[k], RunningPeak(seed, s'[..k + 1]));
      if k < |ss| { assert Deep(limit, ss[k], RunningPeak(seed, ss[..k + 1])); }
    }
  }

  predicate EqualLimits(spec: Spec) { spec.riskLimits.maxDrawdownPct == spec.breakerLimits.maxDrawdownPct }

  function Last(seed: real, ss: seq<real>): real { if ss == [] then seed else ss[|ss| - 1] }

  /** What the latches know after the samples ss, and whether a verdict has been given since the last one. */
  ghost predicate Tracks(limit: real, seed: real, ss: seq<real>, ready: bool, x: Latches) {
    var peak := RunningPeak(seed, ss);
    var trips := SeedTrips(limit, seed) || Tripped(limit, seed, ss);
    && x.risk.peak == x.breaker.peak == peak && DEFAULT_EQUITY <= peak
    && x.risk.equity == x.breaker.current == Last(seed, ss) && x.breaker.current <= peak && x.breaker.startOfDay <= peak
    && (x.risk.disabled <==> Tripped(limit, seed, ss))
    && (x.breaker.killed || Deep(limit, x.breaker.current, peak) <==> trips)
    && (ready ==> (x.breaker.killed <==> trips))
  }

  lemma StartTracks(limit: real, today: int, now: real, account: Option<real>)
    ensures Tracks(limit, SeedOf(account), [], false, Start(today, now, account))
  {
  }

  lemma JudgeTracks(spec: Spec, seed: real, ss: seq<real>, ready: bool, x: Latches, today: int, now: real)
    requires EqualLimits(spec) && Tracks(spec.riskLimits.maxDrawdownPct, seed, ss, ready, x)
    ensures Tracks(spec.riskLimits.maxDrawdownPct, seed, ss, true, Apply(spec, x, Judged(today, now)))
    ensures B.Judge(spec.breakerLimits, x.breaker, today, now).1 == B.KILL <==>
            Apply(spec, x, Judged(today, now)).breaker.killed
  {
    hide Tripped, SeedTrips, B.DailyLossHit, B.SlippageAlarm, RunningPeak;
  }

  lemma SampleTracks(spec: Spec, seed: real, ss: seq<real>, x: Latches, e: real)
    requires EqualLimits(spec) && Tracks(spec.riskLimits.maxDrawdownPct, seed, ss, true, x)
    ensures Tracks(spec.riskLimits.maxDrawdownPct, seed, ss + [e], false, Apply(spec, x, Sample(e)))
  {
    hide Tripped, SeedTrips, RunningPeak;
    TrippedOneMore(spec.riskLimits.maxDrawdownPct, seed, ss, e);
  }

  /** On every trace in which verdicts and samples alternate, both latches track the same samples. */
  lemma {:induction false} LatchesTrack(spec: Spec, today: int, now: real, account: Option<real>, evs: seq<Event>)
    requires EqualLimits(spec) && Alternating(evs)
    ensures Tracks(spec.riskLimits.maxDrawdownPct, SeedOf(account), Samples(evs), Ready(evs),
                   Run(spec, Start(today, now, account), evs))
  {
    hide Tracks, Start;
    var limit, seed := spec.riskLimits.maxDrawdownPct, SeedOf(account);
    if evs == [] {
      StartTracks(limit, today, now, account);
    } else {
      var prior, e := evs[..|evs| - 1], evs[|evs| - 1];
      LatchesTrack(spec, today, now, account, prior);
      var x := Run(spec, Start(today, now, account), prior);
      match e {
        case Judged(d, t) => JudgeTracks(spec, seed, Samples(prior), Ready(prior), x, d, t);
        case Sample(equity) => SampleTracks(spec, seed, Samples(prior), x, equity);
        case _ => QuietTracks(limit, seed, Samples(prior), Ready(prior), x, spec, e);
      }
      assert Samples(prior) + [] == Samples(prior);
    }
  }

  lemma QuietTracks(limit: real, seed: real, ss: seq<real>, ready: bool, x: Latches, spec: Spec, e: Event)
    requires Tracks(limit, seed, ss, ready, x) && !e.Judged? && !e.Sample?
    ensures Tracks(limit, seed, ss, ready, Apply(spec, x, e))
  {
    hide Tripped, SeedTrips, RunningPeak, Deep;
  }

  predicate EndsInVerdict(evs: seq<Event>) { evs != [] && evs[|evs| - 1].Judged? }

  /** After each verdict both latches say the same, and both say whether some sample was too far below its peak. */
  lemma LockstepAfterVerdict(spec: Spec, today: int, now: real, account: Option<real>, evs: seq<Event>)
    requires EqualLimits(spec) && Alternating(evs) && EndsInVerdict(evs)
    requires !SeedTrips(spec.riskLimits.maxDrawdownPct, SeedOf(account))
    ensures var x := Run(spec, Start(today, now, account), evs);
      && x.breaker.killed == x.risk.disabled
      && (x.risk.disabled <==> Tripped(spec.riskLimits.maxDrawdownPct, SeedOf(account), Samples(evs)))
  {
    LatchesTrack(spec, today, now, account, evs);
  }

  /**
   * The seed reaches the breaker but never the risk manager's check. The latches agree after every verdict of every
   * alternating trace if and only if the seed is not already the limit below the default equity.
   */
  lemma LockstepIffSeedSound(spec: Spec, today: int, now: real, account: Option<real>)
    requires EqualLimits(spec)
    ensures (forall evs :: Alternating(evs) && EndsInVerdict(evs) ==>
               Run(spec, Start(today, now, account), evs).breaker.killed ==
               Run(spec, Start(today, now, account), evs).risk.disabled)
            <==> !SeedTrips(spec.riskLimits.maxDrawdownPct, SeedOf(account))
  {
    hide Run, Start, Tracks, SeedTrips;
    var limit, seed := spec.riskLimits.maxDrawdownPct, SeedOf(account);
    if SeedTrips(limit, seed) {
      var evs := [Judged(today, now)];
      OneVerdict(Judged(today, now));
      LatchesTrack(spec, today, now, account, evs);
      KilledNotDisabled(limit, seed, Run(spec, Start(today, now, account), evs));
    } else {
      forall evs | Alternating(evs) && EndsInVerdict(evs)
        ensures Run(spec, Start(today, now, account), evs).breaker.killed ==
                Run(spec, Start(today, now, account), evs).risk.disabled
      {
        LockstepAfterVerdict(spec, today, now, account, evs);
      }
    }
  }

  lemma OneVerdict(e: Event)
    requires e.Judged?
    ensures Alternating([e]) && EndsInVerdict([e]) && Ready([e]) && Samples([e]) == []
  {
    AlternatingOneMore([], e);
    assert [] + [e] == [e];
    assert [e][..0] == [];
    assert Samples([e]) == Samples([]) + [];
  }

  lemma KilledNotDisabled(limit: real, seed: real, x: Latches)
    requires SeedTrips(limit, seed) && Tracks(limit, seed, [], true, x)
    ensures x.breaker.killed && !x.risk.disabled
  {
  }

  /** Once both latches have tripped, every later verdict is a kill and every order is rejected, on any day. */
  lemma {:induction false} TrippedForever(
      spec: Spec, x: Latches, evs: seq<Event>, today: int, now: real, symbol: string, size: real, atRisk: real)
    requires x.breaker.killed && x.risk.disabled
    ensures var y := Run(spec, x, evs);
      && y.breaker.killed && y.risk.disabled
      && B.Judge(spec.breakerLimits, y.breaker, today, now).1 == B.KILL
      && R.Evaluate(spec.riskLimits, y.risk, today, symbol, size, atRisk) == R.Rejected(R.BotDisabled)
  {
    if evs != [] {
      TrippedForever(spec, x, evs[..|evs| - 1], today, now, symbol, size, atRisk);
    }
  }

  lemma StartSteady(limits: B.Limits, today: int, answered: real, account: Option<real>)
    requires 0.0 < limits.dailyLossPct
    ensures BR.Steady(limits, Start(today, answered, account).breaker)
  {
  }

  /**
   * Start an engine, connect it and let it run: whatever its turns bring, its two latches have tracked the same samples,
   * and with a clock that does not go back its first halt is for good.
   */
  method Drive(spec: Spec, today: int, now: real, connectedAt: real, account: Option<real>, seenAt: real, turns: seq<Turn>)
    returns (engine: Engine, ghost trace: seq<Event>)
    requires EqualLimits(spec)
    ensures engine.Valid() && Alternating(trace)
    ensures Tracks(spec.riskLimits.maxDrawdownPct, SeedOf(account), Samples(trace), Ready(trace), engine.Model())
    ensures var x := Start(today, if account.Some? then seenAt else connectedAt, account);
      && trace == LoopEvents(spec, x, turns) && engine.lots == LoopLots(spec, x, turns)
      && |LoopOrdered(spec, x, turns)| == |Verdicts(spec, x, trace)|
      && (ClockForward(turns) && 0.0 < spec.breakerLimits.dailyLossPct ==>
            HaltsForGood(Verdicts(spec, x, trace), LoopOrdered(spec, x, turns), |engine.lots|))
  {
    hide Tracks, Verdicts, HaltsForGood, BR.Steady, LoopEvents, LoopLots, LoopOrdered;
    engine := new Engine(spec, today, now);
    engine.Connect(connectedAt, account, seenAt);
    ghost var x := Start(today, if account.Some? then seenAt else connectedAt, account);
    assert engine.Model() == x;
    if ClockForward(turns) && 0.0 < spec.breakerLimits.dailyLossPct {
      StartSteady(spec.breakerLimits, today, x.breaker.lastBrokerOk, account);
      FirstHaltIsForGood(spec, x, turns);
    }
    trace := engine.Loop(turns);
    OneVerdictATurn(spec, x, turns);
    LatchesTrack(spec, today, if account.Some? then seenAt else connectedAt, account, trace);
  }
}
