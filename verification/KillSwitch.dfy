/** The global kill switch: two administrators must ask for it within an hour, as recorded in an expiring approval set. */
module KillSwitch {
  import opened Basics
  import L = Lifecycle

  const TTL := 3600

  /** A set key in the store; without an expiry time it stays for good. */
  datatype Approvals = Approvals(members: set<int>, expires: Option<int>)

  /**
   * The store during one request: working, not configured, or raising from stage n on. The stages are adding the
   * actor (0), setting the expiry (1), reading the members (2), writing the switch (3) and deleting the approvals (4).
   */
  datatype Store = Up | Absent | FailsFrom(n: nat)

  datatype State = State(pending: Option<Approvals>, disarming: Option<Approvals>, engaged: bool, table: L.State)

  datatype Call =
    | Engage(actor: int, admins: nat, store: Store, now: int)
    | Disarm(actor: int, admins: nat, store: Store, now: int)
    | Other(op: L.Op)

  // ---- The store ----------------------------------------------------------------------------------

  /** A key whose time has come is gone. */
  function Current(key: Option<Approvals>, now: int): Option<Approvals> {
    if key.Some? && key.value.expires.Some? && key.value.expires.value <= now then None else key
  }

  /** Adding to a missing key creates it without an expiry time. */
  function SetAdd(key: Option<Approvals>, actor: int, now: int): Option<Approvals> {
    match Current(key, now)
    case None => Some(Approvals({actor}, None))
    case Some(a) => Some(a.(members := a.members + {actor}))
  }

  function Expire(key: Option<Approvals>, now: int): Option<Approvals> {
    match key
    case None => None
    case Some(a) => Some(a.(expires := Some(now + TTL)))
  }

  predicate Works(store: Store, stage: nat) { store == Up || (store.FailsFrom? && stage < store.n) }

  /** The approval key after a request has added its actor, as far as the store let it. */
  function Collected(key: Option<Approvals>, actor: int, store: Store, now: int): Option<Approvals> {
    if !Works(store, 0) then key
    else if !Works(store, 1) then SetAdd(key, actor, now)
    else Expire(SetAdd(key, actor, now), now)
  }

  function Required(admins: nat): nat { if admins > 1 then 2 else 1 }

  /** The approvers that a request counts; when the store is of no help that is its actor alone. */
  function Approvers(key: Option<Approvals>, actor: int, admins: nat, store: Store, now: int): set<int> {
    if Required(admins) > 1 && Works(store, 2) then SetAdd(key, actor, now).value.members else {actor}
  }

  function KeyAfter(key: Option<Approvals>, actor: int, admins: nat, store: Store, now: int): Option<Approvals> {
    if Required(admins) > 1 then Collected(key, actor, store, now) else key
  }

  /** The request reaches its quorum. */
  predicate Quorum(key: Option<Approvals>, actor: int, admins: nat, store: Store, now: int) {
    |Approvers(key, actor, admins, store, now)| >= Required(admins)
  }

  function Step(s: State, c: Call): State {
    match c
    case Engage(actor, admins, store, now) =>
      var key := KeyAfter(s.pending, actor, admins, store, now);
      if !Quorum(s.pending, actor, admins, store, now) then s.(pending := key)
      else s.(pending := if Works(store, 4) then None else key,
              engaged := s.engaged || Works(store, 3),
              table := L.Step(s.table, L.KillAllLive(now)).0)
    case Disarm(actor, admins, store, now) =>
      var key := KeyAfter(s.disarming, actor, admins, store, now);
      if !Quorum(s.disarming, actor, admins, store, now) then s.(disarming := key)
      else s.(disarming := if Works(store, 4) then None else key, engaged := s.engaged && !Works(store, 3))
    case Other(op) => s.(table := L.Step(s.table, op).0)
  }

  /** The call engages the switch in this state. */
  predicate Engages(s: State, c: Call) {
    c.Engage? && Quorum(s.pending, c.actor, c.admins, c.store, c.now)
  }

  class Switch {
    var pending: Option<Approvals>
    var disarming: Option<Approvals>
    var engaged: bool
    const service: L.Service

    ghost function Model(): State
      reads this, service
    {
      State(pending, disarming, engaged, service.Model())
    }

    constructor (service: L.Service)
      ensures this.service == service
      ensures Model() == State(None, None, false, service.Model())
    {
      this.service := service;
      pending, disarming, engaged := None, None, false;
    }

    /** Returns whether the switch was engaged by this request. */
    method EngageGlobal(actor: int, admins: nat, store: Store, now: int) returns (done: bool)
      modifies this, service`instances
      ensures Model() == Step(old(Model()), Engage(actor, admins, store, now))
      ensures done <==> Engages(old(Model()), Engage(actor, admins, store, now))
    {
      var required := if admins > 1 then 2 else 1;
      var approvers := {actor};
      if store != Absent && required > 1 {
        if Works(store, 0) {
          pending := SetAdd(pending, actor, now);
          if Works(store, 1) {
            pending := Expire(pending, now);
            if Works(store, 2) { approvers := pending.value.members; }
          }
        }
      }
      if |approvers| < required { return false; }
      if store != Absent {
        if Works(store, 3) {
          engaged := true;
          if Works(store, 4) { pending := None; }
        }
      }
      service.KillEveryLive(now);
      done := true;
    }

    /** Returns whether the switch was disarmed by this request. */
    method DisarmGlobal(actor: int, admins: nat, store: Store, now: int) returns (done: bool)
      modifies this
      ensures Model() == Step(old(Model()), Disarm(actor, admins, store, now))
      ensures done <==> Quorum(old(disarming), actor, admins, store, now)
    {
      var required := if admins > 1 then 2 else 1;
      var approvers := {actor};
      if store != Absent && required > 1 {
        if Works(store, 0) {
          disarming := SetAdd(disarming, actor, now);
          if Works(store, 1) {
            disarming := Expire(disarming, now);
            if Works(store, 2) { approvers := disarming.value.members; }
          }
        }
      }
      if |approvers| < required { return false; }
      if store != Absent {
        if Works(store, 3) {
          engaged := false;
          if Works(store, 4) { disarming := None; }
        }
      }
      done := true;
    }
  }
}
