/** Over every run, an engagement of the kill switch takes two different administrators within an hour. */
module KillSwitchRuns {
  import opened Basics
  import opened KillSwitch
  import L = Lifecycle
  import LR = LifecycleRuns

  function Run(s: State, calls: seq<Call>): State {
    if calls == [] then s else Step(Run(s, calls[..|calls| - 1]), calls[|calls| - 1])
  }

  /** Call number i engages the switch. */
  predicate EngagesAt(s: State, calls: seq<Call>, i: nat)
    requires i < |calls|
  {
    Engages(Run(s, calls[..i]), calls[i])
  }

  /** How many administrators there are, in so far as it matters, and what the store does. */
  datatype Kind = Kind(several: bool, store: Store) {
    /** The store keeps the approvals true: it works throughout, or is of no help from the start where help is needed. */
    predicate Harmless() { Works(store, 4) || (several && !Works(store, 0)) }
  }

  function KindOf(c: Call): Kind
    requires !c.Other?
  {
    Kind(c.admins > 1, c.store)
  }

  predicate HarmlessCalls(calls: seq<Call>) { forall c :: c in calls && c.Engage? ==> KindOf(c).Harmless() }

  /** An earlier request by a different administrator less than an hour before, with no engagement in between. */
  ghost predicate Backed(s: State, calls: seq<Call>, i: nat)
    requires i < |calls| && !calls[i].Other?
  {
    exists j ::
      && 0 <= j < i && calls[j].Engage? && calls[j].actor != calls[i].actor
      && calls[i].now - calls[j].now < 3600
      && forall k :: j <= k < i ==> !EngagesAt(s, calls, k)
  }

  /** Call j asked for engagement and the switch has not been engaged from then on. */
  ghost predicate Standing(s: State, calls: seq<Call>, j: nat) {
    j < |calls| && calls[j].Engage? && forall k :: j <= k < |calls| ==> !EngagesAt(s, calls, k)
  }

  /** The approvals are exactly those of standing call j, and expire an hour after it. */
  ghost predicate ExplainedBy(s: State, calls: seq<Call>, a: Approvals, j: nat) {
    Standing(s, calls, j) && a == Approvals({calls[j].actor}, Some(calls[j].now + TTL))
  }

  ghost predicate Explained(s: State, calls: seq<Call>) {
    var p := Run(s, calls).pending;
    p.Some? ==> exists j: nat :: ExplainedBy(s, calls, p.value, j)
  }

  /** At most one administrator is pending. */
  ghost predicate OneApprover(s: State) {
    s.pending.Some? ==> exists a :: s.pending.value.members == {a}
  }

  lemma SingletonSize(a: int, b: int)
    ensures |{a, b}| == if a == b then 1 else 2
  {
    if a == b { assert {a, b} == {a}; }
  }

  /** One request on an empty or single-approver set either engages or leaves its own actor pending for an hour. */
  lemma EngageOnSingle(s: State, c: Call)
    requires c.Engage? && Works(c.store, 4)
    requires OneApprover(s)
    ensures Engages(s, c) ==> Step(s, c).pending == None
    ensures !Engages(s, c) ==> Step(s, c).pending == Some(Approvals({c.actor}, Some(c.now + TTL)))
  {
    hide L.Step;
    var cur := Current(s.pending, c.now);
    if cur.Some? {
      var a :| s.pending.value.members == {a};
      assert {a} + {c.actor} == {a, c.actor};
      SingletonSize(a, c.actor);
      assert a == c.actor ==> {a, c.actor} == {c.actor};
    }
  }

  /** Whatever the store does, an engagement that needs two approvals counts one of another administrator. */
  lemma EngagesWithAnother(s: State, c: Call)
    requires OneApprover(s) && Engages(s, c) && c.admins > 1
    ensures s.pending.Some? && c.actor !in s.pending.value.members && Current(s.pending, c.now).Some?
  {
    var cur := Current(s.pending, c.now);
    if cur.Some? {
      var a :| s.pending.value.members == {a};
      assert {a} + {c.actor} == {a, c.actor};
      SingletonSize(a, c.actor);
    }
  }

  /** A request that the store does not even record neither engages nor changes what is pending. */
  lemma UnrecordedDoesNothing(s: State, c: Call)
    requires c.Engage? && c.admins > 1 && !Works(c.store, 0)
    ensures Step(s, c).pending == s.pending && !Engages(s, c)
  {
    hide L.Step;
  }

  lemma EngagesInPrefix(s: State, calls: seq<Call>, n: nat, k: nat)
    requires k < n <= |calls|
    ensures EngagesAt(s, calls[..n], k) == EngagesAt(s, calls, k)
  {
    assert calls[..n][..k] == calls[..k];
  }

  lemma ExplainedIsOne(s: State, calls: seq<Call>)
    requires Explained(s, calls)
    ensures OneApprover(Run(s, calls))
  {
    if Run(s, calls).pending.Some? {
      var j: nat :| ExplainedBy(s, calls, Run(s, calls).pending.value, j);
    }
  }

  lemma StandingStays(s: State, calls: seq<Call>, n: nat, j: nat, a: Approvals)
    requires n < |calls| && ExplainedBy(s, calls[..n], a, j) && !EngagesAt(s, calls, n)
    requires n + 1 == |calls|
    ensures ExplainedBy(s, calls, a, j)
  {
    hide Step, Engages;
    forall k | j <= k < |calls| ensures !EngagesAt(s, calls, k) {
      if k < n { EngagesInPrefix(s, calls, n, k); }
    }
  }

  lemma {:induction false} PendingIsExplained(s: State, calls: seq<Call>)
    requires HarmlessCalls(calls) && s.pending == None
    ensures Explained(s, calls)
  {
    hide Step, Engages;
    if calls != [] {
      var n := |calls| - 1;
      var before, c := Run(s, calls[..n]), calls[n];
      PendingIsExplained(s, calls[..n]);
      ExplainedIsOne(s, calls[..n]);
      var p := Run(s, calls).pending;
      if c.Engage? && Works(c.store, 4) {
        EngageOnSingle(before, c);
        if p.Some? { assert ExplainedBy(s, calls, p.value, n); }
      } else {
        if c.Engage? { UnrecordedDoesNothing(before, c); } else { OthersLeavePending(before, c); }
        if p.Some? {
          var j: nat :| ExplainedBy(s, calls[..n], p.value, j);
          StandingStays(s, calls, n, j, p.value);
        }
      }
    }
  }

  lemma OthersLeavePending(s: State, c: Call)
    requires !c.Engage?
    ensures Step(s, c).pending == s.pending && !Engages(s, c)
  {
    hide L.Step;
  }

  /**
   * After harmless requests, an engagement that needs two approvals has them, whatever the store does to it. Disarm
   * requests play no part.
   */
  lemma TwoAdministratorsWithinAnHour(s: State, calls: seq<Call>, i: nat)
    requires i < |calls| && HarmlessCalls(calls[..i]) && s.pending == None
    requires EngagesAt(s, calls, i) && calls[i].admins > 1
    ensures Backed(s, calls, i)
  {
    hide L.Step, Step;
    var prior := calls[..i];
    PendingIsExplained(s, prior);
    ExplainedIsOne(s, prior);
    var before := Run(s, prior);
    EngagesWithAnother(before, calls[i]);
    var j: nat :| ExplainedBy(s, prior, before.pending.value, j);
    forall k | j <= k < i ensures !EngagesAt(s, calls, k) {
      EngagesInPrefix(s, calls, i, k);
    }
    assert calls[j] == prior[j];
  }

  /** Engagement requests of which number n alone meets a store that may not be up. */
  predicate UpButFor(calls: seq<Call>, n: nat) {
    && n < |calls| && (forall i :: 0 <= i < |calls| ==> calls[i].Engage?)
    && forall i :: 0 <= i < |calls| && i != n ==> calls[i].store == Up
  }

  /** By a's and b's requests around time t, one of which is of a harmful kind. */
  function BreakingRun(k: Kind, a: int, b: int, t: int): seq<Call> {
    if !k.several then [Engage(a, 2, Up, t), Engage(a, 1, k.store, t), Engage(b, 2, Up, t)]
    else if !Works(k.store, 1) then [Engage(a, 2, k.store, t), Engage(b, 2, Up, t + TTL)]
    else if !Works(k.store, 2) then [Engage(a, 2, Up, t), Engage(b, 2, k.store, t + TTL - 1), Engage(b, 2, Up, t + TTL)]
    else [Engage(a, 2, Up, t), Engage(b, 2, k.store, t), Engage(a, 2, Up, t)]
  }

  function BreakingPlace(k: Kind): nat { if k.several && !Works(k.store, 1) then 0 else 1 }

  /**
   * A single request of a kind that is not harmless breaks the rule: the last request of this run engages, and no
   * other administrator asked for it within the hour and since the previous engagement.
   */
  lemma HarmfulKindBreaks(s: State, k: Kind, a: int, b: int, t: int)
    requires !k.Harmless() && s.pending == None && a != b
    ensures var calls, n := BreakingRun(k, a, b, t), BreakingPlace(k);
      && UpButFor(calls, n) && KindOf(calls[n]) == k
      && calls[|calls| - 1].admins > 1 && EngagesAt(s, calls, |calls| - 1) && !Backed(s, calls, |calls| - 1)
  {
    hide EngagesAt, Works;
    var calls := BreakingRun(k, a, b, t);
    BreakingRunEngages(s, k, a, b, t);
    if |calls| == 3 && !(k.several && !Works(k.store, 2)) {
      assert EngagesAt(s, calls, 1);
    }
  }

  /** The last request engages; so does the middle one, unless the store kept it from reading the approvals. */
  lemma BreakingRunEngages(s: State, k: Kind, a: int, b: int, t: int)
    requires !k.Harmless() && s.pending == None && a != b
    ensures var calls := BreakingRun(k, a, b, t);
      EngagesAt(s, calls, |calls| - 1) && (!k.several || Works(k.store, 2) ==> EngagesAt(s, calls, 1))
  {
    hide Step, Engages;
    var calls := BreakingRun(k, a, b, t);
    assert calls[..1] == [calls[0]] && [calls[0]][..0] == [];
    assert Run(s, calls[..1]) == Step(s, calls[0]);
    if |calls| == 3 {
      assert calls[..2] == [calls[0], calls[1]] && [calls[0], calls[1]][..1] == [calls[0]];
      assert Run(s, calls[..2]) == Step(Step(s, calls[0]), calls[1]);
      ThirdEngages(s, k, a, b, t);
    } else {
      SecondEngages(s, k.store, a, b, t);
    }
  }

  lemma SecondEngages(s: State, store: Store, a: int, b: int, t: int)
    requires s.pending == None && a != b && Works(store, 0) && !Works(store, 1)
    ensures Engages(Step(s, Engage(a, 2, store, t)), Engage(b, 2, Up, t + TTL))
  {
    hide L.Step;
    assert {a} + {b} == {a, b};
    SingletonSize(a, b);
  }

  lemma ThirdEngages(s: State, k: Kind, a: int, b: int, t: int)
    requires !k.Harmless() && (k.several ==> Works(k.store, 1)) && s.pending == None && a != b
    ensures var calls := BreakingRun(k, a, b, t);
      var s1 := Step(s, calls[0]);
      && (!k.several || Works(k.store, 2) ==> Engages(s1, calls[1]))
      && Engages(Step(s1, calls[1]), calls[2])
  {
    hide L.Step;
    assert {a} + {b} == {a, b} && {a, b} + {b} == {a, b} && {a, b} + {a} == {a, b};
    SingletonSize(a, b);
    var calls := BreakingRun(k, a, b, t);
    var s1 := Step(s, calls[0]);
    assert s1.pending == Some(Approvals({a}, Some(t + TTL)));
    if k.several {
      assert Step(s1, calls[1]).pending.value.members == {a, b};
    } else {
      assert Step(s1, calls[1]).pending == s1.pending;
    }
  }

  /** Every request finds the store up or is of the given kind. */
  predicate UpOrOf(k: Kind, calls: seq<Call>) {
    forall c :: c in calls && !c.Other? ==> c.store == Up || KindOf(c) == k
  }

  /** A run in which the last of some requests, with all before it up or of the given kind, engages with two approvals. */
  ghost predicate EngagesAmong(k: Kind, s: State, calls: seq<Call>) {
    && calls != [] && s.pending == None && UpOrOf(k, calls[..|calls| - 1])
    && calls[|calls| - 1].Engage? && calls[|calls| - 1].admins > 1 && EngagesAt(s, calls, |calls| - 1)
  }

  ghost predicate RuleSurvives(k: Kind) {
    forall s, calls :: EngagesAmong(k, s, calls) ==> Backed(s, calls, |calls| - 1)
  }

  /** The two-administrator rule survives requests of a kind, on all runs, if and only if the kind is harmless. */
  lemma RuleSurvivesExactlyWhen(k: Kind)
    ensures RuleSurvives(k) <==> k.Harmless()
  {
    hide EngagesAt, Backed;
    if k.Harmless() {
      forall s, calls | EngagesAmong(k, s, calls) ensures Backed(s, calls, |calls| - 1) {
        TwoAdministratorsWithinAnHour(s, calls, |calls| - 1);
      }
    } else {
      var s, calls := State(None, None, false, L.EMPTY), BreakingRun(k, 0, 1, 0);
      HarmfulKindBreaks(s, k, 0, 1, 0);
      assert EngagesAmong(k, s, calls);
    }
  }

  /** Requests from number 0 to the last, all harmless to the rule and none outside the time between these two. */
  ghost predicate Between(calls: seq<Call>) {
    && |calls| >= 2 && calls[0].Engage? && calls[|calls| - 1].Engage? && HarmlessCalls(calls)
    && Works(calls[0].store, 4) && Works(calls[|calls| - 1].store, 4)
    && forall c :: c in calls && c.Engage? ==> calls[0].now <= c.now <= calls[|calls| - 1].now
  }

  /** As long as nothing engages after the first request, its actor alone is pending, for an hour from then at least. */
  lemma {:induction false} FirstStaysPending(s: State, calls: seq<Call>, n: nat)
    requires OneApprover(s) && Between(calls) && calls[|calls| - 1].now - calls[0].now < TTL
    requires 1 <= n <= |calls| && forall k :: 0 <= k < n ==> !EngagesAt(s, calls, k)
    ensures var p := Run(s, calls[..n]).pending;
      p.Some? && p.value.members == {calls[0].actor} && p.value.expires.Some? && p.value.expires.value >= calls[0].now + TTL
  {
    hide Step, Engages, L.Step;
    var c, before := calls[n - 1], Run(s, calls[..n - 1]);
    assert calls[..n][..n - 1] == calls[..n - 1];
    assert !EngagesAt(s, calls, n - 1);
    if n == 1 {
      EngageOnSingle(s, c);
    } else {
      FirstStaysPending(s, calls, n - 1);
      if c.Engage? && Works(c.store, 4) {
        EngageOnSingle(before, c);
        if c.actor != calls[0].actor { OtherEngages(before, c, calls[0].actor); }
      } else if c.Engage? {
        UnrecordedDoesNothing(before, c);
      } else {
        OthersLeavePending(before, c);
      }
    }
  }

  lemma OtherEngages(s: State, c: Call, a: int)
    requires c.Engage? && Works(c.store, 4) && c.actor != a
    requires s.pending.Some? && s.pending.value.members == {a}
    requires s.pending.value.expires.Some? && c.now < s.pending.value.expires.value
    ensures Engages(s, c)
  {
    assert {a} + {c.actor} == {a, c.actor};
    SingletonSize(a, c.actor);
  }

  /**
   * And two are enough: of two requests by different administrators within an hour, with any other calls that are
   * harmless in between, one engages the switch, or one in between does.
   */
  lemma TwoRequestsSuffice(s: State, calls: seq<Call>)
    requires OneApprover(s) && Between(calls)
    requires calls[0].actor != calls[|calls| - 1].actor && calls[|calls| - 1].now - calls[0].now < TTL
    ensures exists k :: 0 <= k < |calls| && EngagesAt(s, calls, k)
  {
    hide Step, Engages, EngagesAt;
    if forall k :: 0 <= k < |calls| ==> !EngagesAt(s, calls, k) {
      var n := |calls| - 1;
      FirstStaysPending(s, calls, n);
      LastEngages(s, calls);
    }
  }

  lemma LastEngages(s: State, calls: seq<Call>)
    requires Between(calls) && calls[0].actor != calls[|calls| - 1].actor && calls[|calls| - 1].now - calls[0].now < TTL
    requires var p := Run(s, calls[..|calls| - 1]).pending;
      p.Some? && p.value.members == {calls[0].actor} && p.value.expires.Some? && p.value.expires.value >= calls[0].now + TTL
    ensures EngagesAt(s, calls, |calls| - 1)
  {
    hide Engages, Run;
    OtherEngages(Run(s, calls[..|calls| - 1]), calls[|calls| - 1], calls[0].actor);
  }

  // ---- Disarming ----------------------------------------------------------------------------------

  /** Exchanging engage and disarm requests. */
  function Mirror(c: Call): Call {
    match c
    case Engage(actor, admins, store, now) => Disarm(actor, admins, store, now)
    case Disarm(actor, admins, store, now) => Engage(actor, admins, store, now)
    case Other(_) => c
  }

  function MirrorAll(calls: seq<Call>): seq<Call> { seq(|calls|, i requires 0 <= i < |calls| => Mirror(calls[i])) }

  predicate Mirrored(s: State, m: State) { s.pending == m.disarming && s.disarming == m.pending }

  /** The two requests keep their approvals apart and treat them alike. */
  lemma {:induction false} RunsMirror(s: State, m: State, calls: seq<Call>)
    requires Mirrored(s, m)
    ensures Mirrored(Run(s, calls), Run(m, MirrorAll(calls)))
  {
    if calls != [] {
      var n := |calls| - 1;
      assert MirrorAll(calls)[..n] == MirrorAll(calls[..n]);
      RunsMirror(s, m, calls[..n]);
      StepMirrors(Run(s, calls[..n]), Run(m, MirrorAll(calls[..n])), calls[n]);
    }
  }

  lemma StepMirrors(s: State, m: State, c: Call)
    requires Mirrored(s, m)
    ensures Mirrored(Step(s, c), Step(m, Mirror(c)))
  {
    hide L.Step, Quorum, KeyAfter;
  }

  /** Call number i disarms the switch. */
  predicate DisarmsAt(s: State, calls: seq<Call>, i: nat)
    requires i < |calls|
  {
    calls[i].Disarm? &&
    Quorum(Run(s, calls[..i]).disarming, calls[i].actor, calls[i].admins, calls[i].store, calls[i].now)
  }

  lemma DisarmIsMirroredEngage(s: State, m: State, calls: seq<Call>, i: nat)
    requires Mirrored(s, m) && i < |calls|
    ensures DisarmsAt(s, calls, i) == EngagesAt(m, MirrorAll(calls), i)
  {
    hide Quorum;
    RunsMirror(s, m, calls[..i]);
    assert MirrorAll(calls)[..i] == MirrorAll(calls[..i]);
  }

  /** An earlier request to disarm by a different administrator, less than an hour before and not used up since. */
  ghost predicate DisarmBacked(s: State, calls: seq<Call>, i: nat)
    requires i < |calls| && !calls[i].Other?
  {
    exists j ::
      && 0 <= j < i && calls[j].Disarm? && calls[j].actor != calls[i].actor
      && calls[i].now - calls[j].now < 3600
      && forall k :: j <= k < i ==> !DisarmsAt(s, calls, k)
  }

  lemma DisarmBackedMirrors(s: State, m: State, calls: seq<Call>, i: nat)
    requires Mirrored(s, m) && i < |calls| && !calls[i].Other?
    ensures DisarmBacked(s, calls, i) <==> Backed(m, MirrorAll(calls), i)
  {
    hide EngagesAt, DisarmsAt;
    var mirrored := MirrorAll(calls);
    forall k | 0 <= k <= i ensures DisarmsAt(s, calls, k) == EngagesAt(m, mirrored, k) {
      DisarmIsMirroredEngage(s, m, calls, k);
    }
    forall j | 0 <= j <= i
      ensures calls[j].Disarm? == mirrored[j].Engage?
      ensures calls[j].Disarm? ==> calls[j].actor == mirrored[j].actor && calls[j].now == mirrored[j].now
    {}
    if DisarmBacked(s, calls, i) {
      var j :| 0 <= j < i && calls[j].Disarm? && calls[j].actor != calls[i].actor &&
               calls[i].now - calls[j].now < TTL && forall k :: j <= k < i ==> !DisarmsAt(s, calls, k);
      assert forall k :: j <= k < i ==> !EngagesAt(m, mirrored, k);
    }
    if Backed(m, mirrored, i) {
      var j :| 0 <= j < i && mirrored[j].Engage? && mirrored[j].actor != mirrored[i].actor &&
               mirrored[i].now - mirrored[j].now < TTL && forall k :: j <= k < i ==> !EngagesAt(m, mirrored, k);
      assert forall k :: j <= k < i ==> !DisarmsAt(s, calls, k);
    }
  }

  /** After harmless requests disarming, too, takes two different administrators within an hour. */
  lemma TwoAdministratorsToDisarm(s: State, calls: seq<Call>, i: nat)
    requires i < |calls| && s.disarming == None
    requires forall c :: c in calls[..i] && c.Disarm? ==> KindOf(c).Harmless()
    requires DisarmsAt(s, calls, i) && calls[i].admins > 1
    ensures DisarmBacked(s, calls, i)
  {
    hide EngagesAt, DisarmBacked, Backed;
    var m, mirrored := Swapped(s), MirrorAll(calls);
    DisarmIsMirroredEngage(s, m, calls, i);
    forall c | c in mirrored[..i] && c.Engage? ensures KindOf(c).Harmless() {
      var k :| 0 <= k < i && mirrored[k] == c;
      assert calls[k] in calls[..i];
    }
    TwoAdministratorsWithinAnHour(m, mirrored, i);
    DisarmBackedMirrors(s, m, calls, i);
  }

  function Swapped(s: State): State { State(s.disarming, s.pending, s.engaged, s.table) }

  ghost predicate DisarmsAmong(k: Kind, s: State, calls: seq<Call>) {
    && calls != [] && s.disarming == None && UpOrOf(k, calls[..|calls| - 1])
    && calls[|calls| - 1].Disarm? && calls[|calls| - 1].admins > 1 && DisarmsAt(s, calls, |calls| - 1)
  }

  ghost predicate DisarmRuleSurvives(k: Kind) {
    forall s, calls :: DisarmsAmong(k, s, calls) ==> DisarmBacked(s, calls, |calls| - 1)
  }

  /** The same kinds of request are harmless to the rule for disarming, and no others. */
  lemma DisarmRuleSurvivesExactlyWhen(k: Kind)
    ensures DisarmRuleSurvives(k) <==> k.Harmless()
  {
    hide EngagesAt, DisarmBacked, Backed;
    if k.Harmless() {
      forall s, calls | DisarmsAmong(k, s, calls) ensures DisarmBacked(s, calls, |calls| - 1) {
        TwoAdministratorsToDisarm(s, calls, |calls| - 1);
      }
    } else {
      var m, mirrored := State(None, None, false, L.EMPTY), BreakingRun(k, 0, 1, 0);
      var s, calls := Swapped(m), MirrorAll(mirrored);
      HarmfulKindBreaks(m, k, 0, 1, 0);
      assert MirrorAll(calls) == mirrored;
      DisarmIsMirroredEngage(s, m, calls, |calls| - 1);
      DisarmBackedMirrors(s, m, calls, |calls| - 1);
      assert DisarmsAmong(k, s, calls);
    }
  }

  /** An engagement leaves no instance live. */
  lemma EngagementLeavesNoneLive(s: State, c: Call, id: int)
    requires Engages(s, c)
    ensures !LR.Is(Step(s, c).table, id, L.Live)
  {
  }

  /** The instance is not live before call k and live after it. */
  ghost predicate GoesLiveAt(s: State, calls: seq<Call>, k: nat, id: int)
    requires k < |calls|
  {
    calls[k].Other? && !LR.Is(Run(s, calls[..k]).table, id, L.Live) && LR.Is(Run(s, calls[..k + 1]).table, id, L.Live)
  }

  /** Whatever is live some calls after an engagement went live after it, by a user's operation. */
  lemma {:induction false} LiveAfterEngagementIsNew(s: State, calls: seq<Call>, i: nat, id: int)
    requires i < |calls| && EngagesAt(s, calls, i) && LR.Is(Run(s, calls).table, id, L.Live)
    ensures exists k :: i < k < |calls| && GoesLiveAt(s, calls, k, id)
  {
    hide Step, Engages, LR.Is;
    var n := |calls| - 1;
    var before := Run(s, calls[..n]);
    if !calls[n].Other? { OnlyOthersGoLive(before, calls[n], id); }
    if i == n {
      EngagementLeavesNoneLive(before, calls[n], id);
    } else if LR.Is(before.table, id, L.Live) {
      EngagesInPrefix(s, calls, n, i);
      LiveAfterEngagementIsNew(s, calls[..n], i, id);
      var k :| i < k < n && GoesLiveAt(s, calls[..n], k, id);
      assert calls[..n][..k] == calls[..k] && calls[..n][..k + 1] == calls[..k + 1];
      assert GoesLiveAt(s, calls, k, id);
    } else {
      assert calls[..n + 1] == calls;
      assert GoesLiveAt(s, calls, n, id);
    }
  }

  lemma OnlyOthersGoLive(s: State, c: Call, id: int)
    requires LR.Is(Step(s, c).table, id, L.Live) && !c.Other?
    ensures LR.Is(s.table, id, L.Live)
  {
  }

  // ---- The switch itself --------------------------------------------------------------------------

  /** Call k reaches its quorum and the store records it: the switch is on after it, or off. */
  predicate TurnsOn(s: State, calls: seq<Call>, k: nat)
    requires k < |calls|
  {
    EngagesAt(s, calls, k) && Works(calls[k].store, 3)
  }

  predicate TurnsOff(s: State, calls: seq<Call>, k: nat)
    requires k < |calls|
  {
    DisarmsAt(s, calls, k) && Works(calls[k].store, 3)
  }

  /** On every run the recorded switch is on if and only if something turned it on, or it was on, and nothing off since. */
  lemma {:induction false} EngagedExactlyWhen(s: State, calls: seq<Call>)
    ensures Run(s, calls).engaged <==>
      || (s.engaged && forall k :: 0 <= k < |calls| ==> !TurnsOff(s, calls, k))
      || (exists i :: 0 <= i < |calls| && TurnsOn(s, calls, i) && forall k :: i < k < |calls| ==> !TurnsOff(s, calls, k))
  {
    hide Step, TurnsOn, TurnsOff;
    if calls != [] {
      var n := |calls| - 1;
      var prior := calls[..n];
      EngagedExactlyWhen(s, prior);
      forall k | 0 <= k < n
        ensures TurnsOn(s, prior, k) == TurnsOn(s, calls, k) && TurnsOff(s, prior, k) == TurnsOff(s, calls, k)
      {
        TurnsInPrefix(s, calls, n, k);
      }
      EngagedAfter(s, calls, n);
    }
  }

  lemma TurnsInPrefix(s: State, calls: seq<Call>, n: nat, k: nat)
    requires k < n <= |calls|
    ensures TurnsOn(s, calls[..n], k) == TurnsOn(s, calls, k) && TurnsOff(s, calls[..n], k) == TurnsOff(s, calls, k)
  {
    hide Quorum, Run;
    assert calls[..n][..k] == calls[..k];
  }

  lemma EngagedAfter(s: State, calls: seq<Call>, n: nat)
    requires n < |calls|
    ensures var before, after := Run(s, calls[..n]), Step(Run(s, calls[..n]), calls[n]);
      after.engaged <==> TurnsOn(s, calls, n) || (before.engaged && !TurnsOff(s, calls, n))
  {
    hide Run, Quorum, L.Step, KeyAfter;
  }
}
