/** Position sizing: the fixed fraction of equity at risk, rounded down to the broker's lot step. */
module Sizing {
  import opened Basics

  function SafeDiv(a: real, b: real): real { if b != 0.0 then a / b else 0.0 }

  function FixedFractional(equity: real, riskPct: real, slDistance: real, pipValue: real): real {
    if equity <= 0.0 || riskPct <= 0.0 || slDistance <= 0.0 then 0.0
    else SafeDiv(equity * (riskPct / 100.0), slDistance * pipValue)
  }

  /** The money lost when a position of this size is stopped out. */
  function AtRisk(size: real, slDistance: real, pipValue: real): real { size * slDistance * pipValue }

  function Multiple(k: int, step: real): real { k as real * step }

  /** The largest multiple of the step that is not above the size. */
  function Steps(size: real, step: real): real
    requires step > 0.0
  {
    Multiple((size / step).Floor, step)
  }

  function RoundToStep(size: real, step: real, minSize: real): real {
    if step <= 0.0 then Max(size, minSize)
    else Max(Steps(size, step), minSize)
  }

  lemma QuotientMono(a: real, b: real, y: real)
    requires a <= b && 0.0 < y
    ensures a / y <= b / y
  {
    Quotient(a, y);
    Quotient(b, y);
    Cancel(a / y, b / y, y, a, b);
  }

  lemma StepsBelow(size: real, step: real)
    requires step > 0.0
    ensures Steps(size, step) <= size < Steps(size, step) + step
  {
    Quotient(size, step);
    var k := (size / step).Floor as real;
    TimesMono(k, size / step, step, Steps(size, step), size);
    Distribute(k, step);
    if size >= Steps(size, step) + step {
      Cancel(k + 1.0, size / step, step, Steps(size, step) + step, size);
    }
  }

  lemma StepsLargest(size: real, step: real, k: int)
    requires step > 0.0 && Multiple(k, step) <= size
    ensures Multiple(k, step) <= Steps(size, step)
  {
    Quotient(size, step);
    Cancel(k as real, size / step, step, Multiple(k, step), size);
    FloorAbove(k, size / step);
    TimesMono(k as real, (size / step).Floor as real, step, Multiple(k, step), Steps(size, step));
  }

  lemma FloorAbove(k: int, x: real)
    requires k as real <= x
    ensures k <= x.Floor
  {
  }

  /** Rounding keeps the minimum, or is the largest step multiple within the size. */
  lemma RoundIsLargestStep(size: real, step: real, minSize: real)
    requires step > 0.0
    ensures var r := RoundToStep(size, step, minSize);
      && minSize <= r
      && (r > minSize ==> r <= size < r + step)
      && (forall k :: Multiple(k, step) <= size ==> Multiple(k, step) <= r)
  {
    StepsBelow(size, step);
    forall k | Multiple(k, step) <= size
      ensures Multiple(k, step) <= RoundToStep(size, step, minSize)
    {
      StepsLargest(size, step, k);
    }
  }

  lemma StepsMono(a: real, b: real, step: real)
    requires a <= b && step > 0.0
    ensures Steps(a, step) <= Steps(b, step)
  {
    StepsBelow(a, step);
    StepsLargest(b, step, (a / step).Floor);
  }

  /** What a budget buys at a given risk per lot. */
  function Lot(budget: real, perLot: real, step: real, minLot: real): real
    requires perLot != 0.0
  {
    RoundToStep(budget / perLot, step, minLot)
  }

  /** Rounding once to the smaller of two budgets: when the larger one's lot already fits the smaller, they agree. */
  lemma LotsAgreeWhenFitting(small: real, large: real, perLot: real, step: real, minLot: real)
    requires small <= large && perLot > 0.0
    requires Lot(large, perLot, step, minLot) * perLot <= small
    ensures Lot(small, perLot, step, minLot) == Lot(large, perLot, step, minLot)
  {
    var a, b := small / perLot, large / perLot;
    QuotientMono(small, large, perLot);
    Quotient(small, perLot);
    Cancel(Lot(large, perLot, step, minLot), a, perLot, Lot(large, perLot, step, minLot) * perLot, small);
    if step > 0.0 {
      StepsMono(a, b, step);
      StepsLargest(a, step, (b / step).Floor);
    }
  }

  /** When the smaller budget cannot even hold the lot it bought, that lot was the minimum, and so is any smaller budget's. */
  lemma MinimumWhenOverrun(small: real, large: real, perLot: real, step: real, minLot: real)
    requires small <= large && perLot > 0.0
    requires Lot(small, perLot, step, minLot) * perLot > large
    ensures Lot(small, perLot, step, minLot) == Lot(large, perLot, step, minLot) == minLot
  {
    var a, b := small / perLot, large / perLot;
    QuotientMono(small, large, perLot);
    Quotient(large, perLot);
    if step > 0.0 {
      StepsBelow(a, step);
      StepsBelow(b, step);
    }
    if Lot(small, perLot, step, minLot) <= b {
      TimesMono(Lot(small, perLot, step, minLot), b, perLot, Lot(small, perLot, step, minLot) * perLot, large);
    }
  }
}
