/** The shared throttle as a system of threads: a bounded semaphore, a lock held while waiting, and a last-call time. */
module Throttle {
  import opened Basics

  type Thread = nat

  /** Where a thread is between two calls: outside, or inside the acquire/release bracket at one of its steps. */
  datatype Place = Outside | Permitted | Locked | Sleeping(until: real) | Due | Stamped | Working

  datatype Config = Config(maxConcurrent: nat, spacing: real)

  datatype State = State(permits: nat, lock: Option<Thread>, lastCall: real, clock: real,
                         place: map<Thread, Place>, admitted: seq<real>, overReleased: bool)

  datatype Action =
    | Tick(dt: real)
    | TakePermit(t: Thread)
    | TakeLock(t: Thread)
    | ReadClock(t: Thread)
    | Wake(t: Thread)
    | Stamp(t: Thread)
    | Unlock(t: Thread)
    | Release(t: Thread)

  function Init(c: Config, clock: real): State { State(c.maxConcurrent, None, 0.0, clock, map[], [], false) }

  function At(s: State, t: Thread): Place { if t in s.place then s.place[t] else Outside }

  function Move(s: State, t: Thread, p: Place): State { s.(place := s.place[t := p]) }

  predicate Enabled(s: State, a: Action) {
    match a
    case Tick(dt) => 0.0 <= dt
    case TakePermit(t) => At(s, t) == Outside && s.permits > 0
    case TakeLock(t) => At(s, t) == Permitted && s.lock == None
    case ReadClock(t) => At(s, t) == Locked
    case Wake(t) => At(s, t).Sleeping? && At(s, t).until <= s.clock
    case Stamp(t) => At(s, t) == Due
    case Unlock(t) => At(s, t) == Stamped
    case Release(t) => At(s, t) == Working
  }

  function Do(c: Config, s: State, a: Action): State {
    match a
    case Tick(dt) => s.(clock := s.clock + dt)
    case TakePermit(t) => Move(s.(permits := if s.permits > 0 then s.permits - 1 else 0), t, Permitted)
    case TakeLock(t) => Move(s.(lock := Some(t)), t, Locked)
    case ReadClock(t) =>
      var wait := (s.lastCall + c.spacing) - s.clock;
      Move(s, t, if wait > 0.0 then Sleeping(s.clock + wait) else Due)
    case Wake(t) => Move(s, t, Due)
    case Stamp(t) => Move(s.(lastCall := s.clock, admitted := s.admitted + [s.clock]), t, Stamped)
    case Unlock(t) => Move(s.(lock := None), t, Working)
    case Release(t) =>
      Move(if s.permits >= c.maxConcurrent then s.(overReleased := true) else s.(permits := s.permits + 1), t, Outside)
  }

  /** A schedule interleaves the threads' actions in any order in which each is possible. */
  ghost predicate Schedule(c: Config, clock: real, acts: seq<Action>) {
    acts == [] || (Schedule(c, clock, acts[..|acts| - 1]) &&
                   Enabled(Run(c, clock, acts[..|acts| - 1]), acts[|acts| - 1]))
  }

  function Run(c: Config, clock: real, acts: seq<Action>): State {
    if acts == [] then Init(c, clock) else Do(c, Run(c, clock, acts[..|acts| - 1]), acts[|acts| - 1])
  }

  // ---- Invariant ----------------------------------------------------------------------------------

  function Inside(s: State): set<Thread> { set t | t in s.place && s.place[t] != Outside }

  predicate HoldsLock(p: Place) { p == Locked || p.Sleeping? || p == Due || p == Stamped }

  /** Each admission comes at least the spacing after the one before it. */
  predicate Spaced(c: Config, xs: seq<real>) {
    forall i :: 0 <= i < |xs| - 1 ==> xs[i] + c.spacing <= xs[i + 1]
  }

  /** Every permit is either free or held by one thread inside the bracket. */
  predicate PermitsAccounted(c: Config, s: State) {
    s.permits + |Inside(s)| == c.maxConcurrent && !s.overReleased
  }

  /** Exactly the thread between taking and giving back the lock is its holder. */
  ghost predicate OneHolder(s: State) {
    forall t: Thread :: HoldsLock(At(s, t)) <==> s.lock == Some(t)
  }

  /** A sleeper's wake-up time and a due thread's clock are measured from the last admission. */
  ghost predicate OnTime(c: Config, s: State) {
    && (forall t: Thread :: At(s, t).Sleeping? ==> At(s, t).until == s.lastCall + c.spacing)
    && (forall t: Thread :: At(s, t) == Due ==> s.lastCall + c.spacing <= s.clock)
    && (s.admitted != [] ==> s.lastCall == s.admitted[|s.admitted| - 1])
    && Spaced(c, s.admitted)
  }

  ghost predicate Inv(c: Config, s: State) { PermitsAccounted(c, s) && OneHolder(s) && OnTime(c, s) }

  lemma MoveInside(s: State, s': State, t: Thread, p: Place)
    requires s'.place == s.place[t := p]
    ensures Inside(s') == if p == Outside then Inside(s) - {t} else Inside(s) + {t}
  {
  }

  lemma StepKeepsPermits(c: Config, s: State, a: Action)
    requires PermitsAccounted(c, s) && Enabled(s, a)
    ensures PermitsAccounted(c, Do(c, s, a))
  {
    var s' := Do(c, s, a);
    if a.Tick? {
      assert Inside(s') == Inside(s);
    } else {
      assert a.t in Inside(s) <==> !a.TakePermit?;
      MoveInside(s, s', a.t, At(s', a.t));
      if a.Release? {
        assert |Inside(s) - {a.t}| == |Inside(s)| - 1;
      } else if !a.TakePermit? {
        assert Inside(s) + {a.t} == Inside(s);
      }
    }
  }

  lemma StepKeepsHolder(c: Config, s: State, a: Action)
    requires OneHolder(s) && Enabled(s, a)
    ensures OneHolder(Do(c, s, a))
  {
    if !a.Tick? {
      assert HoldsLock(At(s, a.t)) <==> s.lock == Some(a.t);
    }
  }

  /** Only the holder of the lock can sleep, be due or admit, so nobody else's timing is disturbed. */
  lemma StepKeepsTime(c: Config, s: State, a: Action)
    requires OneHolder(s) && OnTime(c, s) && Enabled(s, a)
    ensures OnTime(c, Do(c, s, a))
  {
    var s' := Do(c, s, a);
    forall t: Thread
      ensures At(s', t).Sleeping? ==> At(s', t).until == s'.lastCall + c.spacing
      ensures At(s', t) == Due ==> s'.lastCall + c.spacing <= s'.clock
    {
      assert HoldsLock(At(s, t)) <==> s.lock == Some(t);
      if a.Stamp? { assert HoldsLock(At(s, a.t)) <==> s.lock == Some(a.t); }
    }
  }

  lemma StepKeepsInv(c: Config, s: State, a: Action)
    requires Inv(c, s) && Enabled(s, a)
    ensures Inv(c, Do(c, s, a))
  {
    hide PermitsAccounted, OneHolder, OnTime, Do, Enabled;
    StepKeepsPermits(c, s, a);
    StepKeepsHolder(c, s, a);
    StepKeepsTime(c, s, a);
  }

  lemma {:induction false} InvAlwaysHolds(c: Config, clock: real, acts: seq<Action>)
    requires Schedule(c, clock, acts)
    ensures Inv(c, Run(c, clock, acts))
  {
    hide Inv, Do, Enabled;
    if acts == [] {
      assert Inv(c, Init(c, clock)) by { InitInv(c, clock); }
    } else {
      InvAlwaysHolds(c, clock, acts[..|acts| - 1]);
      StepKeepsInv(c, Run(c, clock, acts[..|acts| - 1]), acts[|acts| - 1]);
    }
  }

  lemma InitInv(c: Config, clock: real)
    ensures Inv(c, Init(c, clock))
  {
    assert Inside(Init(c, clock)) == {};
  }

  // ---- What the throttle promises -----------------------------------------------------------------

  /** Never more callers inside the bracket than allowed, and the semaphore is never released too often. */
  lemma ConcurrencyIsBounded(c: Config, clock: real, acts: seq<Action>)
    requires Schedule(c, clock, acts)
    ensures var s := Run(c, clock, acts);
      && |Inside(s)| <= c.maxConcurrent && !s.overReleased
      && forall t :: At(s, t) == Working ==> s.permits < c.maxConcurrent
  {
    InvAlwaysHolds(c, clock, acts);
    var s := Run(c, clock, acts);
    forall t | At(s, t) == Working ensures s.permits < c.maxConcurrent {
      assert t in Inside(s);
    }
  }

  lemma {:induction false} SpacedSpans(c: Config, xs: seq<real>, i: nat, n: nat)
    requires Spaced(c, xs) && i + n < |xs|
    ensures xs[i] + n as real * c.spacing <= xs[i + n]
  {
    if n > 0 {
      SpacedSpans(c, xs, i, n - 1);
      assert n as real * c.spacing == (n - 1) as real * c.spacing + c.spacing;
    }
  }

  /** Any n + 1 consecutive admissions span at least n spacings, whichever threads they belong to. */
  lemma AdmissionsAreSpaced(c: Config, clock: real, acts: seq<Action>, i: nat, n: nat)
    requires Schedule(c, clock, acts) && i + n < |Run(c, clock, acts).admitted|
    ensures var xs := Run(c, clock, acts).admitted;
      n as real * c.spacing <= xs[i + n] - xs[i]
  {
    InvAlwaysHolds(c, clock, acts);
    SpacedSpans(c, Run(c, clock, acts).admitted, i, n);
  }

  // ---- What the record says -----------------------------------------------------------------------

  function ClockAfter(clock: real, acts: seq<Action>): real {
    if acts == [] then clock
    else ClockAfter(clock, acts[..|acts| - 1]) + match acts[|acts| - 1] { case Tick(dt) => dt case _ => 0.0 }
  }

  /** The times at which calls were admitted. */
  function StampTimes(clock: real, acts: seq<Action>): seq<real> {
    if acts == [] then []
    else StampTimes(clock, acts[..|acts| - 1]) + if acts[|acts| - 1].Stamp? then [ClockAfter(clock, acts[..|acts| - 1])] else []
  }

  /** How often a thread has taken a permit, been admitted, and released its permit. */
  datatype Calls = Calls(takes: nat, stamps: nat, releases: nat)

  function Counts(acts: seq<Action>, t: Thread): Calls {
    if acts == [] then Calls(0, 0, 0) else Counted(Counts(acts[..|acts| - 1], t), acts[|acts| - 1], t)
  }

  function Counted(k: Calls, a: Action, t: Thread): Calls {
    if a == TakePermit(t) then k.(takes := k.takes + 1)
    else if a == Stamp(t) then k.(stamps := k.stamps + 1)
    else if a == Release(t) then k.(releases := k.releases + 1)
    else k
  }

  /** Where a thread is, as its counts tell. */
  predicate Tells(k: Calls, p: Place) {
    match p
    case Outside => k.takes == k.stamps == k.releases
    case Stamped => k.takes == k.stamps == k.releases + 1
    case Working => k.takes == k.stamps == k.releases + 1
    case _ => k.takes == k.releases + 1 && k.stamps == k.releases
  }

  lemma StepTells(c: Config, s: State, a: Action, t: Thread, k: Calls)
    requires Enabled(s, a) && Tells(k, At(s, t))
    ensures Tells(Counted(k, a, t), At(Do(c, s, a), t))
  {
  }

  lemma StepRecords(c: Config, s: State, a: Action)
    ensures Do(c, s, a).clock == s.clock + (match a { case Tick(dt) => dt case _ => 0.0 })
    ensures Do(c, s, a).admitted == s.admitted + if a.Stamp? then [s.clock] else []
  {
  }

  /**
   * The admissions recorded are those that took place, at their times, and between taking and releasing its permit
   * every call of every thread is admitted exactly once.
   */
  lemma {:induction false} EachCallAdmittedOnce(c: Config, clock: real, acts: seq<Action>, t: Thread)
    requires Schedule(c, clock, acts)
    ensures var s := Run(c, clock, acts);
      && s.clock == ClockAfter(clock, acts) && s.admitted == StampTimes(clock, acts)
      && Tells(Counts(acts, t), At(s, t))
  {
    hide Do, Enabled, Tells, At, Counted;
    if acts == [] {
      assert Tells(Calls(0, 0, 0), At(Init(c, clock), t)) by { StartTells(c, clock, t); }
    } else {
      var n := |acts| - 1;
      EachCallAdmittedOnce(c, clock, acts[..n], t);
      StepTells(c, Run(c, clock, acts[..n]), acts[n], t, Counts(acts[..n], t));
      StepRecords(c, Run(c, clock, acts[..n]), acts[n]);
    }
  }

  lemma StartTells(c: Config, clock: real, t: Thread)
    ensures Tells(Calls(0, 0, 0), At(Init(c, clock), t))
  {
  }

  /** No schedule gets stuck: whenever some thread is inside the bracket, a thread can act at once or after its sleep. */
  lemma SomeThreadCanAct(c: Config, clock: real, acts: seq<Action>, t: Thread)
    requires Schedule(c, clock, acts) && At(Run(c, clock, acts), t) != Outside
    ensures var s := Run(c, clock, acts);
      exists a: Action, dt: real :: !a.Tick? && !a.TakePermit? && 0.0 <= dt && Enabled(Do(c, s, Tick(dt)), a)
  {
    InvAlwaysHolds(c, clock, acts);
    var s := Run(c, clock, acts);
    var u := if At(s, t) == Permitted && s.lock.Some? then s.lock.value else t;
    var dt := if At(s, u).Sleeping? && At(s, u).until > s.clock then At(s, u).until - s.clock else 0.0;
    var a := match At(s, u)
      case Permitted => TakeLock(u)
      case Locked => ReadClock(u)
      case Sleeping(_) => Wake(u)
      case Due => Stamp(u)
      case Stamped => Unlock(u)
      case Working => Release(u)
      case Outside => Tick(0.0);
    assert HoldsLock(At(s, u)) <==> s.lock == Some(u);
    assert Enabled(Do(c, s, Tick(dt)), a);
  }
}
