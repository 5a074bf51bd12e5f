/** Strategy instances: what users and administrators may do to them, and what a live or killed instance keeps. */
module Lifecycle {
  import opened Basics

  datatype Status = Paper | Live | Stopped | Killed

  /** The fields that may not change while an instance is live. */
  datatype Terms = Terms(params: map<string, string>, riskPercent: real, maxDailyLoss: int)

  datatype Instance = Instance(
    owner: int, strategy: int, title: string, terms: Terms, status: Status, armed: bool,
    startedAt: Option<int>, liveStartedAt: Option<int>, stoppedAt: Option<int>)

  /** How an instance last became live: with which terms, and which gate checks and order-management request preceded it. */
  datatype Launch = Created(terms: Terms) | Gated(terms: Terms, checks: seq<bool>, sent: Terms)

  datatype State = State(instances: map<int, Instance>, next: int, launches: map<int, Launch>)

  const EMPTY := State(map[], 0, map[])

  datatype Result = Done | NotFound | Conflict | Locked | GateFailed | Invalid

  datatype Op =
    | Create(user: int, strategy: int, title: string, terms: Terms, live: bool, accepted: bool)
    | Update(user: int, id: int, newTitle: Option<string>, params: Option<map<string, string>>,
             risk: Option<real>, loss: Option<int>)
    | GoLive(user: int, id: int, checks: seq<bool>, omsAccepts: bool, now: int)
    | Revert(user: int, id: int)
    | Start(user: int, id: int, now: int)
    | Stop(user: int, id: int, now: int)
    | Kill(user: int, id: int, now: int)
    | DeleteUser(actor: int, target: int, now: int)
    | KillStrategy(code: int, now: int)
    | KillAllLive(now: int)

  predicate Owned(s: State, user: int, id: int) { id in s.instances && s.instances[id].owner == user }

  predicate AllPassed(checks: seq<bool>) { forall i :: 0 <= i < |checks| ==> checks[i] }

  predicate TermsAllowed(t: Terms) { 0.0 <= t.riskPercent <= 10.0 && 0 <= t.maxDailyLoss }

  function Put(s: State, id: int, x: Instance): State { s.(instances := s.instances[id := x]) }

  function Changed(t: Terms, op: Op): Terms
    requires op.Update?
  {
    Terms(op.params.GetOr(t.params), op.risk.GetOr(t.riskPercent), op.loss.GetOr(t.maxDailyLoss))
  }

  predicate PatchAllowed(risk: Option<real>, loss: Option<int>) {
    (risk.Some? ==> 0.0 <= risk.value <= 10.0) && (loss.Some? ==> 0 <= loss.value)
  }

  predicate TouchesTerms(op: Op)
    requires op.Update?
  {
    op.params.Some? || op.risk.Some? || op.loss.Some?
  }

  /** The rows that a bulk update selects. */
  datatype Filter = AnyLive | RunningOf(user: int) | RunningOn(code: int) {
    predicate Selects(x: Instance) {
      match this
      case AnyLive => x.status == Live
      case RunningOf(user) => x.owner == user && (x.status == Live || x.status == Paper)
      case RunningOn(code) => x.strategy == code && (x.status == Live || x.status == Paper)
    }
  }

  /** Every selected row is killed in one statement. */
  function KillWhere(m: map<int, Instance>, f: Filter, now: int): map<int, Instance> {
    map id | id in m :: if f.Selects(m[id]) then m[id].(status := Killed, stoppedAt := Some(now)) else m[id]
  }

  function Step(s: State, op: Op): (State, Result) {
    match op
    case Create(user, strategy, title, terms, live, accepted) =>
      if !accepted || !TermsAllowed(terms) then (s, Invalid) else
        var x := Instance(user, strategy, title, terms, if live then Live else Paper, true, None, None, None);
        (State(s.instances[s.next := x], s.next + 1,
               if live then s.launches[s.next := Created(terms)] else s.launches), Done)
    case Update(user, id, title, params, risk, loss) =>
      if !PatchAllowed(risk, loss) then (s, Invalid)
      else if !Owned(s, user, id) then (s, NotFound) else
        var x := s.instances[id];
        if x.status == Killed then (s, Conflict)
        else if x.status == Live && TouchesTerms(op) then (s, Locked)
        else (Put(s, id, x.(title := title.GetOr(x.title), terms := Changed(x.terms, op))), Done)
    case GoLive(user, id, checks, omsAccepts, now) =>
      if !Owned(s, user, id) then (s, NotFound) else
        var x := s.instances[id];
        if x.status == Live then (s, Done)
        else if x.status == Killed then (s, Conflict)
        else if !AllPassed(checks) then (s, GateFailed)
        else if !omsAccepts then (s, Conflict)
        else
          var x' := x.(status := Live, liveStartedAt := Some(now), stoppedAt := None,
                       startedAt := if x.startedAt.Some? then x.startedAt else Some(now));
          (Put(s, id, x').(launches := s.launches[id := Gated(x.terms, checks, x.terms)]), Done)
    case Revert(user, id) =>
      if !Owned(s, user, id) then (s, NotFound)
      else if s.instances[id].status != Live then (s, Done)
      else (Put(s, id, s.instances[id].(status := Paper)), Done)
    case Start(user, id, now) =>
      if !Owned(s, user, id) then (s, NotFound) else
        var x := s.instances[id];
        if x.status == Killed then (s, Conflict)
        else if x.status == Paper || x.status == Live then (s, Done)
        else (Put(s, id, x.(status := Paper, startedAt := Some(now), stoppedAt := None)), Done)
    case Stop(user, id, now) =>
      if !Owned(s, user, id) then (s, NotFound)
      else if s.instances[id].status == Killed then (s, Conflict)
      else (Put(s, id, s.instances[id].(status := Stopped, stoppedAt := Some(now))), Done)
    case Kill(user, id, now) =>
      if !Owned(s, user, id) then (s, NotFound)
      else (Put(s, id, s.instances[id].(status := Killed, armed := false, stoppedAt := Some(now))), Done)
    case DeleteUser(actor, target, now) =>
      if actor == target then (s, Invalid) else
        (s.(instances := KillWhere(s.instances, RunningOf(target), now)), Done)
    case KillStrategy(code, now) =>
      (s.(instances := KillWhere(s.instances, RunningOn(code), now)), Done)
    case KillAllLive(now) =>
      (s.(instances := KillWhere(s.instances, AnyLive, now)), Done)
  }

  /** The service that owns the instance table. */
  class Service {
    var instances: map<int, Instance>
    var nextId: int
    ghost var launches: map<int, Launch>

    ghost function Model(): State
      reads this
    {
      State(instances, nextId, launches)
    }

    constructor ()
      ensures Model() == EMPTY
    {
      instances, nextId, launches := map[], 0, map[];
    }

    method CreateInstance(user: int, strategy: int, title: string, terms: Terms, live: bool, accepted: bool)
      returns (r: Result)
      modifies this
      ensures (Model(), r) == Step(old(Model()), Create(user, strategy, title, terms, live, accepted))
    {
      if !accepted || !TermsAllowed(terms) { return Invalid; }
      var status := if live then Live else Paper;
      instances := instances[nextId := Instance(user, strategy, title, terms, status, true, None, None, None)];
      if live { launches := launches[nextId := Created(terms)]; }
      nextId := nextId + 1;
      r := Done;
    }

    method UpdateInstance(user: int, id: int, title: Option<string>, params: Option<map<string, string>>,
                          risk: Option<real>, loss: Option<int>) returns (r: Result)
      modifies this
      ensures (Model(), r) == Step(old(Model()), Update(user, id, title, params, risk, loss))
    {
      if !PatchAllowed(risk, loss) { return Invalid; }
      if id !in instances || instances[id].owner != user { return NotFound; }
      var x := instances[id];
      if x.status == Killed { return Conflict; }
      if x.status == Live && (params.Some? || risk.Some? || loss.Some?) { return Locked; }
      if title.Some? { x := x.(title := title.value); }
      if params.Some? { x := x.(terms := x.terms.(params := params.value)); }
      if risk.Some? { x := x.(terms := x.terms.(riskPercent := risk.value)); }
      if loss.Some? { x := x.(terms := x.terms.(maxDailyLoss := loss.value)); }
      instances := instances[id := x];
      r := Done;
    }

    method GoLiveInstance(user: int, id: int, checks: seq<bool>, omsAccepts: bool, now: int) returns (r: Result)
      modifies this
      ensures (Model(), r) == Step(old(Model()), GoLive(user, id, checks, omsAccepts, now))
    {
      if id !in instances || instances[id].owner != user { return NotFound; }
      var x := instances[id];
      if x.status == Live { return Done; }
      if x.status == Killed { return Conflict; }
      var failed := 0;
      for i := 0 to |checks|
        invariant failed == 0 <==> AllPassed(checks[..i])
        invariant 0 <= failed
      {
        assert checks[..i + 1] == checks[..i] + [checks[i]];
        if !checks[i] { failed := failed + 1; }
      }
      assert checks[..|checks|] == checks;
      if failed != 0 { return GateFailed; }
      if !omsAccepts { return Conflict; }
      launches := launches[id := Gated(x.terms, checks, x.terms)];
      x := x.(status := Live, liveStartedAt := Some(now));
      if x.startedAt.None? { x := x.(startedAt := Some(now)); }
      instances := instances[id := x.(stoppedAt := None)];
      r := Done;
    }

    method RevertToPaper(user: int, id: int) returns (r: Result)
      modifies this
      ensures (Model(), r) == Step(old(Model()), Revert(user, id))
    {
      if id !in instances || instances[id].owner != user { return NotFound; }
      if instances[id].status != Live { return Done; }
      instances := instances[id := instances[id].(status := Paper)];
      r := Done;
    }

    method StartInstance(user: int, id: int, now: int) returns (r: Result)
      modifies this
      ensures (Model(), r) == Step(old(Model()), Start(user, id, now))
    {
      if id !in instances || instances[id].owner != user { return NotFound; }
      var x := instances[id];
      if x.status == Killed { return Conflict; }
      if x.status == Paper || x.status == Live { return Done; }
      instances := instances[id := x.(status := Paper, startedAt := Some(now), stoppedAt := None)];
      r := Done;
    }

    method StopInstance(user: int, id: int, now: int) returns (r: Result)
      modifies this
      ensures (Model(), r) == Step(old(Model()), Stop(user, id, now))
    {
      if id !in instances || instances[id].owner != user { return NotFound; }
      if instances[id].status == Killed { return Conflict; }
      instances := instances[id := instances[id].(status := Stopped, stoppedAt := Some(now))];
      r := Done;
    }

    method KillInstance(user: int, id: int, now: int) returns (r: Result)
      modifies this
      ensures (Model(), r) == Step(old(Model()), Kill(user, id, now))
    {
      if id !in instances || instances[id].owner != user { return NotFound; }
      instances := instances[id := instances[id].(status := Killed, armed := false, stoppedAt := Some(now))];
      r := Done;
    }

    /** Kill every instance that is live. */
    method KillEveryLive(now: int)
      modifies this`instances
      ensures Model() == Step(old(Model()), KillAllLive(now)).0
    {
      instances := KillWhere(instances, AnyLive, now);
    }

    /** Kill what a deleted user has running. */
    method SoftDeleteUser(actor: int, target: int, now: int) returns (r: Result)
      modifies this`instances
      ensures (Model(), r) == Step(old(Model()), DeleteUser(actor, target, now))
    {
      if actor == target { return Invalid; }
      instances := KillWhere(instances, RunningOf(target), now);
      r := Done;
    }

    method KillAllOfStrategy(code: int, now: int)
      modifies this`instances
      ensures Model() == Step(old(Model()), KillStrategy(code, now)).0
    {
      instances := KillWhere(instances, RunningOn(code), now);
    }
  }
}
