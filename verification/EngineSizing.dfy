/** What the engine's size, round, trim, round again pipeline comes to. */
module EngineSizing {
  import opened Basics
  import opened Sizing
  import opened LiveEngine
  import R = RiskManager
  import RR = RiskManagerRuns

  function PerLot(spec: Spec, sig: Signal): real { Abs(sig.entry - sig.sl) * spec.pipValue }

  function RiskBudget(s: R.State, sig: Signal): real { s.equity * (sig.riskPct / 100.0) }

  function CapBudget(spec: Spec, s: R.State): real { s.equity * (spec.riskLimits.maxRiskPerTradePct / 100.0) }

  /** There is something to size by; the lot step may be anything. */
  predicate Regular(spec: Spec, s: R.State, sig: Signal) {
    0.0 < s.equity && sig.entry != sig.sl && 0.0 < spec.pipValue
  }

  lemma RegularPerLot(spec: Spec, s: R.State, sig: Signal)
    requires Regular(spec, s, sig)
    ensures 0.0 < PerLot(spec, sig)
    ensures 0.0 < sig.riskPct ==>
      FixedFractional(s.equity, sig.riskPct, Abs(sig.entry - sig.sl), spec.pipValue) == RiskBudget(s, sig) / PerLot(spec, sig)
    ensures sig.riskPct <= 0.0 ==>
      FixedFractional(s.equity, sig.riskPct, Abs(sig.entry - sig.sl), spec.pipValue) == 0.0 && RiskBudget(s, sig) <= 0.0
  {
    TimesMonoStrict(Abs(sig.entry - sig.sl), spec.pipValue);
    if sig.riskPct <= 0.0 { TimesMono(sig.riskPct / 100.0, 0.0, s.equity, RiskBudget(s, sig), 0.0); }
  }

  /** Without a positive budget there is nothing to round down to: the lot is the minimum or not positive. */
  lemma NothingToBuy(budget: real, u: real, step: real, least: real)
    requires budget <= 0.0 < u
    ensures Lot(budget, u, step, least) <= Max(0.0, least)
    ensures 0.0 < least ==> Lot(budget, u, step, least) == least
    ensures RoundToStep(0.0, step, least) == Max(0.0, least)
  {
    hide Multiple, Steps;
    Fits(budget, u, step);
    if step > 0.0 { StepsBelow(budget / u, step); StepsOfZero(step); }
  }

  lemma StepsOfZero(step: real)
    requires 0.0 < step
    ensures Steps(0.0, step) == 0.0
  {
  }

  /** Before the gate the size is what the risk budget buys, or neither is positive. */
  lemma SizeIsLot(spec: Spec, s: R.State, sig: Signal)
    requires Regular(spec, s, sig)
    ensures 0.0 < PerLot(spec, sig)
    ensures var size, wanted := SizeOf(spec, s, sig), Lot(RiskBudget(s, sig), PerLot(spec, sig), spec.lotStep, spec.minLot);
      (0.0 < size <==> 0.0 < wanted) && (0.0 < size ==> size == wanted)
  {
    hide FixedFractional, RoundToStep, RiskBudget, PerLot, Abs;
    RegularPerLot(spec, s, sig);
    if sig.riskPct <= 0.0 { NothingToBuy(RiskBudget(s, sig), PerLot(spec, sig), spec.lotStep, spec.minLot); }
  }

  /** The size that the engine proposes to the gate. */
  function SizeOf(spec: Spec, s: R.State, sig: Signal): real {
    RoundToStep(FixedFractional(s.equity, sig.riskPct, Abs(sig.entry - sig.sl), spec.pipValue), spec.lotStep, spec.minLot)
  }

  lemma TimesMonoStrict(a: real, b: real)
    requires 0.0 < a && 0.0 < b
    ensures 0.0 < a * b
  {
  }

  /** Scaling a lot by cap over risk leaves what the cap buys. */
  lemma TrimIsCap(size: real, cap: real, perLot: real)
    requires size != 0.0 && perLot != 0.0 && size * perLot != 0.0
    ensures size * (cap / (size * perLot)) == cap / perLot
  {
    Quotient(cap, size * perLot);
    Quotient(cap, perLot);
    var a, b := cap / (size * perLot), cap / perLot;
    assert (size * a) * perLot == a * (size * perLot);
    assert (size * a) * perLot == b * perLot;
    CancelEq(size * a, b, perLot);
  }

  lemma CancelEq(a: real, b: real, y: real)
    requires y != 0.0 && a * y == b * y
    ensures a == b
  {
    assert (a - b) * y == 0.0;
  }

  /**
   * However the order got its size, it is the smaller of the two budgets divided by the risk per lot, rounded down to
   * the step and lifted to the minimum lot.
   */
  lemma PipelineClosedForm(spec: Spec, s: R.State, day: int, sig: Signal)
    requires Regular(spec, s, sig)
    ensures 0.0 < PerLot(spec, sig)
    ensures var lot := OrderLot(spec, s, day, sig);
      lot.Some? ==>
        lot.value == Lot(Min(RiskBudget(s, sig), CapBudget(spec, s)), PerLot(spec, sig), spec.lotStep, spec.minLot)
  {
    hide R.Evaluate, FixedFractional, RoundToStep, AtRisk, RiskBudget, CapBudget, PerLot, Abs;
    var u, a, cap := PerLot(spec, sig), RiskBudget(s, sig), CapBudget(spec, s);
    var step, least := spec.lotStep, spec.minLot;
    RegularPerLot(spec, s, sig);
    if OrderLot(spec, s, day, sig).None? { return; }
    SizeIsLot(spec, s, sig);
    var distance := Abs(sig.entry - sig.sl);
    var size := SizeOf(spec, s, sig);
    RiskOf(spec, sig, size);
    var atRisk := AtRisk(size, distance, spec.pipValue);
    assert atRisk == size * u;
    GateSizes(spec, s, day, size, atRisk);
    var d := R.Evaluate(spec.riskLimits, s, day, spec.symbol, size, atRisk);
    if d.Approved? {
      if cap < a { LotsAgreeWhenFitting(cap, a, u, step, least); }
    } else {
      assert d.Trimmed?;
      TrimIsCap(size, cap, u) by { TimesMonoStrict(size, u); }
      assert d.size == cap / u;
      if a < cap { MinimumWhenOverrun(a, cap, u, step, least); }
    }
  }

  lemma RiskOf(spec: Spec, sig: Signal, size: real)
    ensures AtRisk(size, Abs(sig.entry - sig.sl), spec.pipValue) == size * PerLot(spec, sig)
  {
  }

  lemma GateSizes(spec: Spec, s: R.State, day: int, size: real, atRisk: real)
    requires atRisk != 0.0
    ensures var d := R.Evaluate(spec.riskLimits, s, day, spec.symbol, size, atRisk);
      && (d.Approved? ==> atRisk <= CapBudget(spec, s))
      && (d.Trimmed? ==> atRisk > CapBudget(spec, s) && d.size == size * (CapBudget(spec, s) / atRisk))
  {
  }

  /**
   * An order goes out if and only if the rounded size is positive, the manager is enabled and within the day's loss,
   * and the size either risks more than the cap, so that it is trimmed, or finds no position count full.
   */
  lemma OrderGoesOutExactlyWhen(spec: Spec, s: R.State, day: int, sig: Signal)
    ensures var size := SizeOf(spec, s, sig);
      var atRisk, cap := size * Abs(sig.entry - sig.sl) * spec.pipValue, s.equity * (spec.riskLimits.maxRiskPerTradePct / 100.0);
      OrderLot(spec, s, day, sig).Some? <==>
        && 0.0 < size && !s.disabled
        && -(if day == s.today then s.realizedToday else 0.0) < s.equity * (spec.riskLimits.maxDailyLossPct / 100.0)
        && (if atRisk > cap then atRisk != 0.0 else
              && R.Total(s.positions) < spec.riskLimits.maxOpenPositions
              && R.Held(s.positions, spec.symbol) < spec.riskLimits.maxPositionsPerSymbol
              && forall b :: R.BucketOf(spec.symbol) == Some(b) ==>
                   R.InBucket(s.positions, b) < spec.riskLimits.correlatedSymbolLimit)
  {
    hide R.Total, R.Held, R.BucketOf, R.InBucket, R.Evaluate, SizeOf;
    var size := SizeOf(spec, s, sig);
    var atRisk := AtRisk(size, Abs(sig.entry - sig.sl), spec.pipValue);
    RR.FullPassesExactlyWhen(spec.riskLimits, s, day, spec.symbol, size, atRisk);
    OrderPasses(spec, s, day, sig);
  }

  lemma OrderPasses(spec: Spec, s: R.State, day: int, sig: Signal)
    ensures var size := SizeOf(spec, s, sig);
      OrderLot(spec, s, day, sig).Some? <==>
        && 0.0 < size
        && RR.Passes(R.Evaluate(spec.riskLimits, s, day, spec.symbol, size, AtRisk(size, Abs(sig.entry - sig.sl), spec.pipValue)))
  {
    hide R.Evaluate, FixedFractional, RoundToStep, AtRisk;
  }

  /** The budgets, the risk per lot and the lot in raw terms. */
  lemma BudgetsMean(spec: Spec, s: R.State, sig: Signal)
    ensures RiskBudget(s, sig) == s.equity * (sig.riskPct / 100.0)
    ensures CapBudget(spec, s) == s.equity * (spec.riskLimits.maxRiskPerTradePct / 100.0)
    ensures PerLot(spec, sig) == (if sig.entry > sig.sl then sig.entry - sig.sl else sig.sl - sig.entry) * spec.pipValue
  {
  }

  /**
   * The whole pipeline, for every signal with a stop: what is ordered is what the smaller of the two budgets buys; it is
   * ordered if and only if the risk budget alone buys something while trading is on, and either that overruns the cap
   * or no position count is full.
   */
  lemma PipelineExactly(spec: Spec, s: R.State, day: int, sig: Signal)
    requires Regular(spec, s, sig)
    ensures 0.0 < PerLot(spec, sig)
    ensures var u, wanted := PerLot(spec, sig), Lot(RiskBudget(s, sig), PerLot(spec, sig), spec.lotStep, spec.minLot);
      OrderLot(spec, s, day, sig) ==
        if 0.0 < wanted && RR.Trading(spec.riskLimits, s, day) &&
           (wanted * u > CapBudget(spec, s) || !RR.Full(spec.riskLimits, s.positions, spec.symbol))
        then Some(Lot(Min(RiskBudget(s, sig), CapBudget(spec, s)), u, spec.lotStep, spec.minLot)) else None
  {
    hide OrderLot, SizeOf, RR.Trading, RR.Full, RR.RiskCap, AtRisk, R.Evaluate, Lot, RiskBudget, CapBudget, PerLot;
    var u, size := PerLot(spec, sig), SizeOf(spec, s, sig);
    PipelineClosedForm(spec, s, day, sig);
    SizeIsLot(spec, s, sig);
    RiskOf(spec, sig, size);
    OrderPasses(spec, s, day, sig);
    SameCap(spec, s);
    RR.FullPassesExactlyWhen(spec.riskLimits, s, day, spec.symbol, size, AtRisk(size, Abs(sig.entry - sig.sl), spec.pipValue));
    if 0.0 < size { TimesMonoStrict(size, u); }
  }

  lemma SameCap(spec: Spec, s: R.State)
    ensures RR.RiskCap(spec.riskLimits, s) == CapBudget(spec, s)
  {
  }

  lemma LotMeans(budget: real, u: real, step: real, least: real)
    requires 0.0 < u
    ensures Lot(budget, u, step, least) ==
      if step > 0.0 then Max((budget / u / step).Floor as real * step, least) else Max(budget / u, least)
  {
  }

  /** An order stays within both budgets unless it is exactly the minimum lot. */
  lemma OrderWithinBudgets(spec: Spec, s: R.State, day: int, sig: Signal)
    requires Regular(spec, s, sig)
    ensures OrderLot(spec, s, day, sig).Some? ==>
      var lot := OrderLot(spec, s, day, sig).value;
      && spec.minLot <= lot
      && (lot == spec.minLot || (lot * PerLot(spec, sig) <= RiskBudget(s, sig) && lot * PerLot(spec, sig) <= CapBudget(spec, s)))
  {
    hide OrderLot, RiskBudget, CapBudget, PerLot, Lot;
    PipelineClosedForm(spec, s, day, sig);
    LotWithin(Min(RiskBudget(s, sig), CapBudget(spec, s)), PerLot(spec, sig), spec.lotStep, spec.minLot);
  }

  lemma LotWithin(budget: real, u: real, step: real, least: real)
    requires 0.0 < u
    ensures var lot := Lot(budget, u, step, least);
      least <= lot && (lot == least || lot * u <= budget)
  {
    hide Steps, RoundToStep;
    var lot := Lot(budget, u, step, least);
    RoundBelow(budget / u, step, least);
    Quotient(budget, u);
    if lot > least { TimesMono(lot, budget / u, u, lot * u, budget); }
  }

  lemma RoundBelow(size: real, step: real, least: real)
    ensures var r := RoundToStep(size, step, least);
      least <= r && (r > least ==> r <= size)
  {
    hide Steps;
    if step > 0.0 { RoundIsLargestStep(size, step, least); }
  }

  /** No whole step above the order would still fit both budgets: nothing is left on the table. */
  lemma OrderIsLargest(spec: Spec, s: R.State, day: int, sig: Signal, k: int)
    requires Regular(spec, s, sig) && 0.0 < spec.lotStep
    ensures OrderLot(spec, s, day, sig).Some? &&
            Multiple(k, spec.lotStep) * PerLot(spec, sig) <= Min(RiskBudget(s, sig), CapBudget(spec, s)) ==>
            Multiple(k, spec.lotStep) <= OrderLot(spec, s, day, sig).value
  {
    hide OrderLot, RiskBudget, CapBudget, PerLot, RoundToStep, Multiple;
    PipelineClosedForm(spec, s, day, sig);
    var budget, u := Min(RiskBudget(s, sig), CapBudget(spec, s)), PerLot(spec, sig);
    RoundIsLargestStep(budget / u, spec.lotStep, spec.minLot);
    Quotient(budget, u);
    if Multiple(k, spec.lotStep) * u <= budget {
      Cancel(Multiple(k, spec.lotStep), budget / u, u, Multiple(k, spec.lotStep) * u, budget);
    }
  }

  /** With a positive minimum lot the engine's size guard never stops an order. */
  lemma GuardNeverFires(spec: Spec, s: R.State, sig: Signal)
    requires 0.0 < spec.minLot
    ensures RoundToStep(FixedFractional(s.equity, sig.riskPct, Abs(sig.entry - sig.sl), spec.pipValue),
                        spec.lotStep, spec.minLot) > 0.0
  {
  }

  /**
   * The guard looks at the size before trimming only. An order of no size at all goes out if and only if no
   * positive minimum lifts it and the cap does not buy one whole step.
   */
  lemma EmptyOrderExactlyWhen(spec: Spec, s: R.State, day: int, sig: Signal)
    requires Regular(spec, s, sig)
    ensures OrderLot(spec, s, day, sig).Some? ==>
      (OrderLot(spec, s, day, sig).value <= 0.0 <==>
       spec.minLot <= 0.0 && !BuysSomething(CapBudget(spec, s), PerLot(spec, sig), spec.lotStep))
  {
    hide RiskBudget, CapBudget, PerLot, OrderLot, FixedFractional, RoundToStep, Steps;
    var a, cap, u, step := RiskBudget(s, sig), CapBudget(spec, s), PerLot(spec, sig), spec.lotStep;
    PipelineClosedForm(spec, s, day, sig);
    if OrderLot(spec, s, day, sig).None? { return; }
    OrderPasses(spec, s, day, sig);
    SizeIsLot(spec, s, sig);
    LotPositive(a, u, step, spec.minLot);
    LotPositive(Min(a, cap), u, step, spec.minLot);
  }

  /** The budget pays for one step, or for anything at all where there are no steps. */
  predicate BuysSomething(budget: real, u: real, step: real) {
    if step > 0.0 then step * u <= budget else 0.0 < budget
  }

  lemma LotPositive(budget: real, u: real, step: real, least: real)
    requires 0.0 < u
    ensures Lot(budget, u, step, least) > 0.0 <==> least > 0.0 || BuysSomething(budget, u, step)
  {
    hide Multiple, Steps;
    var x := budget / u;
    Fits(budget, u, step);
    if step > 0.0 { SomeSteps(x, step); }
  }

  lemma Fits(budget: real, u: real, step: real)
    requires 0.0 < u
    ensures step * u <= budget <==> step <= budget / u
    ensures 0.0 < budget <==> 0.0 < budget / u
  {
    Quotient(budget, u);
    Compare(step, budget / u, u);
    Compare(budget / u, 0.0, u);
  }

  lemma Compare(a: real, b: real, y: real)
    requires 0.0 < y
    ensures a * y <= b * y <==> a <= b
  {
  }

  lemma SomeSteps(x: real, step: real)
    requires 0.0 < step
    ensures Steps(x, step) > 0.0 <==> step <= x
  {
    hide Multiple, Steps;
    StepsBelow(x, step);
    if step <= x {
      OneStep(step);
      StepsLargest(x, step, 1);
    } else if Steps(x, step) > 0.0 {
      StepsAtLeastOne(x, step);
    }
  }

  lemma OneStep(step: real)
    ensures Multiple(1, step) == step
  {
  }

  lemma StepsAtLeastOne(x: real, step: real)
    requires 0.0 < step && Steps(x, step) > 0.0
    ensures step <= Steps(x, step)
  {
    hide Multiple;
    MultipleAtLeastOne((x / step).Floor, step);
  }

  lemma MultipleAtLeastOne(k: int, step: real)
    requires 0.0 < step && Multiple(k, step) > 0.0
    ensures step <= Multiple(k, step)
  {
    if k <= 0 {
      TimesMono(k as real, 0.0, step, Multiple(k, step), 0.0);
      assert false;
    }
    TimesMono(1.0, k as real, step, step, Multiple(k, step));
  }

  /** The engine never reports a closed trade, so an account without equity cannot trade. */
  lemma NoEquityNoOrder(spec: Spec, s: R.State, day: int, sig: Signal)
    requires s.equity <= 0.0 && s.realizedToday == 0.0 && 0.0 <= spec.riskLimits.maxDailyLossPct
    ensures OrderLot(spec, s, day, sig) == None
  {
    hide FixedFractional, RoundToStep, AtRisk;
    assert s.equity * (spec.riskLimits.maxDailyLossPct / 100.0) <= 0.0;
  }
}
