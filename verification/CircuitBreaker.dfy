/** The four circuit breakers consulted before every entry. */
module CircuitBreaker {
  import opened Basics

  datatype Verdict = OK | HALT | KILL

  datatype Limits = Limits(dailyLossPct: real, maxDrawdownPct: real, disconnectGrace: real,
                           slippageAlarmX: real, slippageMinSamples: nat)

  datatype Reason = NoReason | MaxDrawdown(pct: real) | DailyLoss(pct: real) | Disconnect(gap: real)
                  | SlippageAnomaly(recent: real, baseline: real)

  datatype State = State(startOfDay: real, peak: real, realizedToday: real, current: real, lastBrokerOk: real,
                         samples: seq<real>, baseline: Option<real>, today: int,
                         killed: bool, halted: bool, reason: Reason)

  function Init(equity: real, today: int, now: real): State {
    State(equity, equity, 0.0, equity, now, [], None, today, false, false, NoReason)
  }

  // ---- Sorting the slippage samples ---------------------------------------------------------------

  function Insert(x: real, s: seq<real>): seq<real> {
    if s == [] || x <= s[0] then [x] + s else [s[0]] + Insert(x, s[1..])
  }

  function Sorted(s: seq<real>): seq<real> {
    if s == [] then [] else Insert(s[0], Sorted(s[1..]))
  }

  predicate Ascending(s: seq<real>) { forall i, j :: 0 <= i <= j < |s| ==> s[i] <= s[j] }

  lemma {:induction false} InsertBag(x: real, s: seq<real>)
    ensures multiset(Insert(x, s)) == multiset(s) + multiset{x}
  {
    if s != [] && x > s[0] {
      InsertBag(x, s[1..]);
      assert s == [s[0]] + s[1..];
    }
  }

  lemma {:induction false} InsertKeeps(x: real, s: seq<real>)
    requires Ascending(s)
    ensures Ascending(Insert(x, s))
  {
    if s != [] && x > s[0] {
      var r := Insert(x, s[1..]);
      InsertKeeps(x, s[1..]);
      InsertBag(x, s[1..]);
      hide Insert;
      forall i | 0 <= i < |r| ensures s[0] <= r[i] {
        assert r[i] in multiset(r);
        assert r[i] == x || r[i] in s[1..];
      }
    }
  }

  lemma {:induction false} SortedSorts(s: seq<real>)
    ensures Ascending(Sorted(s)) && multiset(Sorted(s)) == multiset(s) && |Sorted(s)| == |s|
  {
    if s != [] {
      SortedSorts(s[1..]);
      InsertKeeps(s[0], Sorted(s[1..]));
      InsertBag(s[0], Sorted(s[1..]));
      assert s == [s[0]] + s[1..];
    }
    assert |Sorted(s)| == |multiset(Sorted(s))|;
  }

  /** The upper median of the samples: no fewer than half lie on either side of it. */
  function UpperMedian(s: seq<real>): real
    requires s != []
  {
    SortedSorts(s);
    Sorted(s)[|s| / 2]
  }

  // ---- What each operation does -------------------------------------------------------------------

  function OnEquity(s: State, equity: real): State {
    s.(current := equity, peak := if equity > s.peak then equity else s.peak)
  }

  function RollDay(s: State, today: int): State {
    if today != s.today
    then s.(today := today, realizedToday := 0.0, startOfDay := s.current, halted := false) else s
  }

  function OnTradeClosed(s: State, today: int, pnl: real): State {
    var s1 := RollDay(s, today);
    s1.(realizedToday := s1.realizedToday + pnl)
  }

  function OnBrokerOk(s: State, now: real): State { s.(lastBrokerOk := now) }

  function OnSlippage(l: Limits, s: State, x: real): State {
    var samples := s.samples + [x];
    s.(samples := samples,
       baseline := if s.baseline.None? && |samples| >= l.slippageMinSamples then Some(UpperMedian(samples)) else s.baseline)
  }

  function DrawdownPct(equity: real, peak: real): real
    requires peak != 0.0
  {
    (1.0 - equity / peak) * 100.0
  }

  predicate DeepDrawdown(l: Limits, s: State) {
    var peak := Max(s.peak, s.startOfDay);
    peak > 0.0 && DrawdownPct(s.current, peak) >= l.maxDrawdownPct
  }

  predicate DailyLossHit(l: Limits, s: State) {
    s.startOfDay > 0.0 && -s.realizedToday / s.startOfDay * 100.0 >= l.dailyLossPct
  }

  predicate SlippageAlarm(l: Limits, s: State) {
    s.baseline.Some? && s.baseline.value > 0.0 && s.samples != [] &&
    s.samples[|s.samples| - 1] > s.baseline.value * l.slippageAlarmX
  }

  /** A kill outranks every halt, and a halt is lifted once nothing asks for it. */
  function Judge(l: Limits, s0: State, today: int, now: real): (State, Verdict) {
    var s := RollDay(s0, today);
    if s.killed then (s, KILL)
    else if DeepDrawdown(l, s) then
      (s.(killed := true, reason := MaxDrawdown(DrawdownPct(s.current, Max(s.peak, s.startOfDay)))), KILL)
    else if DailyLossHit(l, s) then
      (s.(halted := true, reason := DailyLoss(-s.realizedToday / s.startOfDay * 100.0)), HALT)
    else if now - s.lastBrokerOk > l.disconnectGrace then
      (s.(halted := true, reason := Disconnect(now - s.lastBrokerOk)), HALT)
    else if SlippageAlarm(l, s) then
      (s.(halted := true, reason := SlippageAnomaly(s.samples[|s.samples| - 1], s.baseline.value)), HALT)
    else ((if s.halted then s.(halted := false, reason := NoReason) else s), OK)
  }

  class Breaker {
    const limits: Limits
    var startOfDay: real
    var peak: real
    var realizedToday: real
    var current: real
    var lastBrokerOk: real
    var samples: seq<real>
    var baseline: Option<real>
    var today: int
    var killed: bool
    var halted: bool
    var reason: Reason

    ghost function Model(): State
      reads this
    {
      State(startOfDay, peak, realizedToday, current, lastBrokerOk, samples, baseline, today, killed, halted, reason)
    }

    constructor (limits: Limits, initialEquity: real, today: int, now: real)
      ensures this.limits == limits && Model() == Init(initialEquity, today, now)
    {
      this.limits := limits;
      startOfDay, peak, current, realizedToday := initialEquity, initialEquity, initialEquity, 0.0;
      lastBrokerOk, this.today := now, today;
      samples, baseline := [], None;
      killed, halted, reason := false, false, NoReason;
    }

    method EquitySeen(e: real)
      modifies this
      ensures Model() == OnEquity(old(Model()), e)
    {
      current := e;
      if e > peak { peak := e; }
    }

    method RollDayIfNeeded(now: int)
      modifies this
      ensures Model() == RollDay(old(Model()), now)
    {
      if now != today {
        today := now;
        realizedToday := 0.0;
        startOfDay := current;
        halted := false;
      }
    }

    method TradeClosed(day: int, pnl: real)
      modifies this
      ensures Model() == OnTradeClosed(old(Model()), day, pnl)
    {
      RollDayIfNeeded(day);
      realizedToday := realizedToday + pnl;
    }

    method BrokerOk(now: real)
      modifies this
      ensures Model() == OnBrokerOk(old(Model()), now)
    {
      lastBrokerOk := now;
    }

    method SlippageSample(x: real)
      modifies this
      ensures Model() == OnSlippage(limits, old(Model()), x)
    {
      samples := samples + [x];
      if baseline.None? && |samples| >= limits.slippageMinSamples {
        SortedSorts(samples);
        var mid := |samples| / 2;
        baseline := Some(Sorted(samples)[mid]);
      }
    }

    method Verdict(day: int, now: real) returns (v: Verdict)
      modifies this
      ensures (Model(), v) == Judge(limits, old(Model()), day, now)
    {
      RollDayIfNeeded(day);
      if killed { return KILL; }
      var high := if startOfDay > peak then startOfDay else peak;
      if high > 0.0 {
        var dd := (1.0 - current / high) * 100.0;
        if dd >= limits.maxDrawdownPct {
          killed := true;
          reason := MaxDrawdown(dd);
          return KILL;
        }
      }
      if startOfDay > 0.0 {
        var loss := -realizedToday / startOfDay * 100.0;
        if loss >= limits.dailyLossPct {
          halted := true;
          reason := DailyLoss(loss);
          return HALT;
        }
      }
      var gap := now - lastBrokerOk;
      if gap > limits.disconnectGrace {
        halted := true;
        reason := Disconnect(gap);
        return HALT;
      }
      if baseline.Some? && baseline.value > 0.0 && samples != [] {
        var recent := samples[|samples| - 1];
        if recent > baseline.value * limits.slippageAlarmX {
          halted := true;
          reason := SlippageAnomaly(recent, baseline.value);
          return HALT;
        }
      }
      if halted && !killed {
        halted := false;
        reason := NoReason;
      }
      v := OK;
    }
  }
}
