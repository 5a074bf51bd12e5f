/** The bridge's check that a stop and a target lie on the right sides of the entry. */
module Safety {
  import opened Basics

  datatype Violation = BuyStopNotBelow | SellStopNotAbove | BuyTargetNotAbove | SellTargetNotBelow

  /** None means the order passes. Missing and non-positive levels are not checked; other sides than buy and sell pass. */
  function CheckSlConsistency(side: string, entry: real, sl: Option<real>, tp: Option<real>): Option<Violation> {
    var stop := sl.Some? && sl.value > 0.0;
    var target := tp.Some? && tp.value > 0.0;
    if stop && side == "buy" && !(sl.value < entry) then Some(BuyStopNotBelow)
    else if stop && side == "sell" && !(sl.value > entry) then Some(SellStopNotAbove)
    else if target && side == "buy" && !(tp.value > entry) then Some(BuyTargetNotAbove)
    else if target && side == "sell" && !(tp.value < entry) then Some(SellTargetNotBelow)
    else None
  }

  /** Level x lies strictly between a losing stop and a winning target for the given sign of direction. */
  predicate RightSides(direction: int, entry: real, sl: Option<real>, tp: real) {
    if direction > 0 then (sl.Some? ==> sl.value < entry) && entry < tp
    else (sl.Some? ==> sl.value > entry) && tp < entry
  }

  function SideOf(direction: int): string { if direction > 0 then "buy" else "sell" }

  /** For positive levels the check passes if and only if both levels are on their right sides. */
  lemma CheckMeansRightSides(direction: int, entry: real, sl: Option<real>, tp: real)
    requires tp > 0.0 && (sl.Some? ==> sl.value > 0.0)
    ensures CheckSlConsistency(SideOf(direction), entry, sl, Some(tp)) == None <==>
            RightSides(direction, entry, sl, tp)
  {
    assert "buy" != "sell" by { assert "buy"[0] != "sell"[0]; }
  }
}
