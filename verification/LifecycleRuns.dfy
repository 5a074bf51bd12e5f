/** What every run of user and administrator operations keeps of killed and of live instances. */
module LifecycleRuns {
  import opened Basics
  import opened Lifecycle

  function Run(s: State, ops: seq<Op>): State {
    if ops == [] then s else Step(Run(s, ops[..|ops| - 1]), ops[|ops| - 1]).0
  }

  ghost predicate IdsBelowNext(s: State) { forall id :: id in s.instances ==> id < s.next }

  predicate Is(s: State, id: int, status: Status) { id in s.instances && s.instances[id].status == status }

  // ---- Killed -------------------------------------------------------------------------------------

  lemma StepKeepsKilled(s: State, op: Op, id: int)
    requires IdsBelowNext(s) && Is(s, id, Killed)
    ensures var s' := Step(s, op).0;
      IdsBelowNext(s') && Is(s', id, Killed) && s'.instances[id].terms == s.instances[id].terms &&
      s'.instances[id].title == s.instances[id].title && s'.instances[id].owner == s.instances[id].owner
  {
    StepKeepsIds(s, op);
  }

  lemma StepKeepsIds(s: State, op: Op)
    requires IdsBelowNext(s)
    ensures IdsBelowNext(Step(s, op).0)
  {
  }

  /** Killed is final: no sequence of operations revives a killed instance or edits it. */
  lemma {:induction false} KilledForever(s: State, ops: seq<Op>, id: int)
    requires IdsBelowNext(s) && Is(s, id, Killed)
    ensures var s' := Run(s, ops);
      IdsBelowNext(s') && Is(s', id, Killed) && s'.instances[id].terms == s.instances[id].terms &&
      s'.instances[id].title == s.instances[id].title && s'.instances[id].owner == s.instances[id].owner
  {
    hide Step;
    if ops != [] {
      KilledForever(s, ops[..|ops| - 1], id);
      StepKeepsKilled(Run(s, ops[..|ops| - 1]), ops[|ops| - 1], id);
    }
  }

  // ---- Live ---------------------------------------------------------------------------------------

  /** A go-live request that gets through: the owner's, with every check passed and the order system willing. */
  predicate Launches(s: State, op: Op, id: int) {
    op.GoLive? && op.id == id && Owned(s, op.user, id) && s.instances[id].status in {Paper, Stopped} &&
    AllPassed(op.checks) && op.omsAccepts
  }

  /** A creation request may ask for the live mode outright; no gate check is consulted. */
  predicate CreatedLive(s: State, op: Op, id: int) {
    op.Create? && op.live && op.accepted && TermsAllowed(op.terms) && id == s.next
  }

  /** There are exactly two ways to become live, and one of them goes around the gate. */
  lemma BecomesLiveExactlyWhen(s: State, op: Op, id: int)
    requires IdsBelowNext(s) && !Is(s, id, Live)
    ensures Is(Step(s, op).0, id, Live) <==> Launches(s, op, id) || CreatedLive(s, op, id)
  {
  }

  /** The terms of a live instance are those of its launch; a gated launch had every check passed and sent the same terms on. */
  predicate Frozen(x: Instance, l: Launch) {
    && l.terms == x.terms
    && (l.Gated? ==> AllPassed(l.checks) && l.sent == x.terms)
  }

  ghost predicate LiveFrozen(s: State) {
    forall id :: Is(s, id, Live) ==> id in s.launches && Frozen(s.instances[id], s.launches[id])
  }

  lemma StepKeepsFrozen(s: State, op: Op)
    requires IdsBelowNext(s) && LiveFrozen(s)
    ensures LiveFrozen(Step(s, op).0)
    ensures forall id :: Is(s, id, Live) && Is(Step(s, op).0, id, Live) ==>
      Step(s, op).0.instances[id].terms == s.instances[id].terms && Step(s, op).0.launches[id] == s.launches[id]
  {
    hide AllPassed;
  }

  /** On every run, whatever is live still has the parameters, risk and loss limit it became live with. */
  lemma {:induction false} LiveStaysFrozen(ops: seq<Op>)
    ensures LiveFrozen(Run(EMPTY, ops)) && IdsBelowNext(Run(EMPTY, ops))
  {
    hide Step, LiveFrozen;
    if ops != [] {
      LiveStaysFrozen(ops[..|ops| - 1]);
      StepKeepsFrozen(Run(EMPTY, ops[..|ops| - 1]), ops[|ops| - 1]);
      StepKeepsIds(Run(EMPTY, ops[..|ops| - 1]), ops[|ops| - 1]);
    } else {
      assert LiveFrozen(EMPTY) by { NothingLive(); }
    }
  }

  lemma NothingLive()
    ensures LiveFrozen(EMPTY)
  {
  }

  /** The instance is among those that an administrator's bulk kill selects. */
  predicate Swept(x: Instance, op: Op) {
    || (op.DeleteUser? && op.actor != op.target && x.owner == op.target && x.status in {Live, Paper})
    || (op.KillStrategy? && x.strategy == op.code && x.status in {Live, Paper})
    || (op.KillAllLive? && x.status == Live)
  }

  /** An existing instance is killed by its owner or by a bulk kill, and by nothing else. */
  lemma BecomesKilledExactlyWhen(s: State, op: Op, id: int)
    requires IdsBelowNext(s) && id in s.instances && s.instances[id].status != Killed
    ensures Is(Step(s, op).0, id, Killed) <==>
            (op.Kill? && op.id == id && op.user == s.instances[id].owner) || Swept(s.instances[id], op)
  {
  }

  // ---- Paper, stopped, and what an edit does ------------------------------------------------------

  /** An instance that was not running on paper does so after exactly these: its creation, a revert, or a start. */
  lemma BecomesPaperExactlyWhen(s: State, op: Op, id: int)
    requires IdsBelowNext(s) && !Is(s, id, Paper)
    ensures Is(Step(s, op).0, id, Paper) <==>
      || (op.Create? && !op.live && op.accepted && TermsAllowed(op.terms) && id == s.next)
      || (op.Revert? && op.id == id && Is(s, id, Live) && op.user == s.instances[id].owner)
      || (op.Start? && op.id == id && Is(s, id, Stopped) && op.user == s.instances[id].owner)
  {
  }

  /** An instance is stopped by its owner's request unless it is killed, and by nothing else. */
  lemma BecomesStoppedExactlyWhen(s: State, op: Op, id: int)
    requires IdsBelowNext(s) && !Is(s, id, Stopped)
    ensures Is(Step(s, op).0, id, Stopped) <==>
      op.Stop? && op.id == id && id in s.instances && op.user == s.instances[id].owner && s.instances[id].status in {Paper, Live}
  {
  }

  /**
   * Title and terms change exactly by an admissible edit of the owner, of an instance that is neither killed nor, for
   * its terms, live; each field changes to the value given and stays without one.
   */
  lemma EditsExactlyWhen(s: State, op: Op, id: int)
    requires IdsBelowNext(s) && id in s.instances
    ensures var x, y := s.instances[id], Step(s, op).0.instances[id];
      var edits := op.Update? && op.id == id && op.user == x.owner && x.status != Killed &&
        (op.risk.Some? ==> 0.0 <= op.risk.value <= 10.0) && (op.loss.Some? ==> 0 <= op.loss.value) &&
        (x.status == Live ==> op.params.None? && op.risk.None? && op.loss.None?);
      && y.owner == x.owner && y.strategy == x.strategy
      && y.title == (if edits && op.newTitle.Some? then op.newTitle.value else x.title)
      && y.terms.params == (if edits && op.params.Some? then op.params.value else x.terms.params)
      && y.terms.riskPercent == (if edits && op.risk.Some? then op.risk.value else x.terms.riskPercent)
      && y.terms.maxDailyLoss == (if edits && op.loss.Some? then op.loss.value else x.terms.maxDailyLoss)
  {
    hide AllPassed;
  }

  /** A creation that is accepted with admissible terms adds one instance under a new id, and nothing else adds any. */
  lemma AddsExactlyWhen(s: State, op: Op)
    requires IdsBelowNext(s)
    ensures var s' := Step(s, op).0;
      if op.Create? && op.accepted && 0.0 <= op.terms.riskPercent <= 10.0 && 0 <= op.terms.maxDailyLoss then
        && s'.instances.Keys == s.instances.Keys + {s.next} && s.next !in s.instances
        && s'.instances[s.next] ==
             Instance(op.user, op.strategy, op.title, op.terms, if op.live then Live else Paper, true, None, None, None)
      else s'.instances.Keys == s.instances.Keys
  {
  }

  /**
   * The times and the kill-switch flag that go with a status: a stopped or killed instance has a stop time, a running
   * one has none, a gated live one has its start times, and only a killed one is disarmed.
   */
  ghost predicate Stamped(s: State) {
    forall id :: id in s.instances ==> var x := s.instances[id];
      && (x.status in {Stopped, Killed} ==> x.stoppedAt.Some?)
      && (x.status in {Paper, Live} ==> x.stoppedAt.None?)
      && (x.status == Live && id in s.launches && s.launches[id].Gated? ==> x.liveStartedAt.Some? && x.startedAt.Some?)
      && (!x.armed ==> x.status == Killed)
  }

  lemma StepKeepsStamped(s: State, op: Op)
    requires IdsBelowNext(s) && Stamped(s)
    ensures Stamped(Step(s, op).0)
  {
    hide AllPassed;
  }

  lemma {:induction false} AlwaysStamped(ops: seq<Op>)
    ensures Stamped(Run(EMPTY, ops))
  {
    hide Step, Stamped;
    if ops == [] {
      assert Stamped(EMPTY) by { NothingStamped(); }
    } else {
      AlwaysStamped(ops[..|ops| - 1]);
      LiveStaysFrozen(ops[..|ops| - 1]);
      StepKeepsStamped(Run(EMPTY, ops[..|ops| - 1]), ops[|ops| - 1]);
    }
  }

  lemma NothingStamped()
    ensures Stamped(EMPTY)
  {
  }

  /** The times are those of the request that set them. */
  lemma TimesAreOfRequests(s: State, op: Op, id: int)
    requires IdsBelowNext(s) && id in s.instances
    ensures var x, y := s.instances[id], Step(s, op).0.instances[id];
      && (Launches(s, op, id) ==> y.liveStartedAt == Some(op.now) && y.stoppedAt == None)
      && (Launches(s, op, id) ==> y.startedAt == if x.startedAt.Some? then x.startedAt else Some(op.now))
      && (x.status == Stopped && y.status == Paper ==> op.Start? && y.startedAt == Some(op.now) && y.stoppedAt == None)
      && (x.status in {Paper, Live} && y.status in {Stopped, Killed} ==>
            (op.Stop? || op.Kill? || op.DeleteUser? || op.KillStrategy? || op.KillAllLive?) && y.stoppedAt == Some(op.now))
      && (y.armed <==> x.armed && !(op.Kill? && op.id == id && op.user == x.owner))
  {
    hide AllPassed;
  }

  /** Why a request is refused, or that it is done. */
  lemma AnswersExactly(s: State, op: Op)
    ensures var r := Step(s, op).1;
      && (op.Create? ==> r == if op.accepted && TermsAllowed(op.terms) then Done else Invalid)
      && (op.DeleteUser? ==> r == if op.actor == op.target then Invalid else Done)
      && (op.KillStrategy? || op.KillAllLive? ==> r == Done)
      && (op.Update? && !PatchAllowed(op.risk, op.loss) ==> r == Invalid)
      && (op.Update? || op.GoLive? || op.Revert? || op.Start? || op.Stop? || op.Kill? ==>
            if op.Update? && !PatchAllowed(op.risk, op.loss) then r == Invalid
            else if op.id !in s.instances || s.instances[op.id].owner != op.user then r == NotFound
            else
              var x := s.instances[op.id].status;
              && (op.Revert? || op.Kill? ==> r == Done)
              && (op.Start? || op.Stop? ==> r == if x == Killed then Conflict else Done)
              && (op.Update? ==> r == if x == Killed then Conflict
                    else if x == Live && (op.params.Some? || op.risk.Some? || op.loss.Some?) then Locked else Done)
              && (op.GoLive? ==> r == if x == Live then Done else if x == Killed then Conflict
                    else if !AllPassed(op.checks) then GateFailed else if op.omsAccepts then Done else Conflict))
  {
    hide AllPassed, TermsAllowed;
  }
}
