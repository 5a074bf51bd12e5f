/** Which months are covered after any sequence of maintenance runs. */
module PartitionRuns {
  import opened Basics
  import opened PartitionNames
  import opened Partitions

  // ---- From names to months -----------------------------------------------------------------------

  /** Every partition is named after its table and its month, and covers exactly that month. */
  ghost predicate WellNamed(parts: Catalogue) {
    forall n :: n in parts ==>
      var p := parts[n];
      InCalendar(p.from) && p.to == p.from + 1 && TableName(p.parent) && n == Name(p.parent, OfIndex(p.from))
  }

  /** The months for which a table has a partition. */
  ghost function Months(parts: Catalogue, table: string): iset<int> {
    iset k | InCalendar(k) && Name(table, OfIndex(k)) in parts
  }

  lemma OwnName(parts: Catalogue, table: string, k: int)
    requires WellNamed(parts) && InCalendar(k) && Name(table, OfIndex(k)) in parts
    ensures parts[Name(table, OfIndex(k))] == Partition(table, k, k + 1)
  {
    hide Name;
    var n := Name(table, OfIndex(k));
    var p := parts[n];
    NamesAreInjective(table, OfIndex(k), p.parent, OfIndex(p.from));
    IndexInverts(OfIndex(k), k);
    IndexInverts(OfIndex(p.from), p.from);
  }

  /** Month k falls into exactly one partition of the table. */
  ghost predicate CoveredOnce(parts: Catalogue, table: string, k: int) {
    exists n :: Covers(parts, table, n, k) && forall n' :: Covers(parts, table, n', k) ==> n' == n
  }

  ghost predicate Covers(parts: Catalogue, table: string, n: string, k: int) {
    n in parts && parts[n].parent == table && parts[n].from <= k < parts[n].to
  }

  /** A month of a table is covered once if it has a partition of its own, and not at all otherwise. */
  lemma MonthsAreCoveredOnce(parts: Catalogue, table: string, k: int)
    requires WellNamed(parts)
    ensures k in Months(parts, table) ==> CoveredOnce(parts, table, k)
    ensures k !in Months(parts, table) ==> !exists n :: Covers(parts, table, n, k)
  {
    hide Name;
    if k in Months(parts, table) {
      OwnName(parts, table, k);
      assert Covers(parts, table, Name(table, OfIndex(k)), k);
    }
  }

  lemma CreateOneMonth(parts: Catalogue, table: string, k: int)
    requires WellNamed(parts) && InCalendar(k) && TableName(table)
    ensures WellNamed(CreateOne(parts, table, k))
    ensures Months(CreateOne(parts, table, k), table) == Months(parts, table) + iset{k}
    ensures forall t :: t != table ==> Months(CreateOne(parts, table, k), t) == Months(parts, t)
  {
    hide Name;
    forall t, m | InCalendar(m)
      ensures Name(t, OfIndex(m)) == Name(table, OfIndex(k)) <==> t == table && m == k
    {
      SameName(t, m, table, k);
    }
  }

  lemma SameName(t: string, m: int, table: string, k: int)
    requires InCalendar(m) && InCalendar(k)
    ensures Name(t, OfIndex(m)) == Name(table, OfIndex(k)) <==> t == table && m == k
  {
    hide Name;
    if Name(t, OfIndex(m)) == Name(table, OfIndex(k)) {
      NamesAreInjective(t, OfIndex(m), table, OfIndex(k));
      IndexInverts(OfIndex(k), k);
      IndexInverts(OfIndex(m), m);
    }
  }

  predicate Between(lo: int, k: int, hi: int) { lo <= k <= hi }

  ghost function Range(lo: int, hi: int): iset<int> { iset k | Between(lo, k, hi) }

  lemma {:induction false} CreateMonthsAddsRange(parts: Catalogue, table: string, base: int, n: nat)
    requires WellNamed(parts) && TableName(table)
    requires n > 0 ==> InCalendar(base) && InCalendar(base + n - 1)
    ensures var parts' := CreateMonths(parts, table, base, n);
      && WellNamed(parts')
      && Months(parts', table) == Months(parts, table) + Range(base, base + n - 1)
      && forall t :: t != table ==> Months(parts', t) == Months(parts, t)
  {
    hide WellNamed, Months, CreateOne;
    if n == 0 {
      assert Range(base, base - 1) == iset{};
    } else {
      CreateMonthsAddsRange(parts, table, base, n - 1);
      CreateOneMonth(CreateMonths(parts, table, base, n - 1), table, base + n - 1);
      assert Range(base, base + n - 1) == Range(base, base + n - 2) + iset{base + n - 1};
    }
  }

  lemma DropRemovesOldMonths(parts: Catalogue, table: string, cutoff: int)
    requires WellNamed(parts) && TableName(table)
    ensures WellNamed(DropBefore(parts, table, cutoff))
    ensures Months(DropBefore(parts, table, cutoff), table) == (iset k | k in Months(parts, table) && cutoff <= k)
    ensures forall t :: t != table ==> Months(DropBefore(parts, table, cutoff), t) == Months(parts, t)
  {
    hide Name, Parse, MatchesPattern, TableName;
    forall t, k | InCalendar(k) && Name(t, OfIndex(k)) in parts
      ensures Expired(parts, Name(t, OfIndex(k)), table, cutoff) <==> t == table && k < cutoff
    {
      OwnName(parts, t, k);
      NamesMatchPattern(t, OfIndex(k));
      ParseInvertsName(t, OfIndex(k));
      IndexInverts(OfIndex(k), k);
    }
  }

  // ---- One run on the months of one table ---------------------------------------------------------

  ghost function From(m: iset<int>, cutoff: int): iset<int> { iset k | k in m && cutoff <= k }

  ghost function Effect(m: iset<int>, retention: nat, job: Job): iset<int> {
    if job.dry then m else
      var made := m + Range(job.base, job.base + job.ahead);
      if job.skipDrop then made else From(made, job.base - retention)
  }

  lemma TableEffect(parts: Catalogue, t: Table, job: Job)
    requires WellNamed(parts) && TableName(t.name) && Datable(job, t.retention)
    ensures var parts' := MaintainTable(parts, t, job);
      && WellNamed(parts')
      && Months(parts', t.name) == Effect(Months(parts, t.name), t.retention, job)
      && forall u :: u != t.name ==> Months(parts', u) == Months(parts, u)
  {
    hide WellNamed, Months, CreateMonths, DropBefore, TableName;
    if !job.dry {
      var n := Largest(job.ahead + 1);
      CreateMonthsAddsRange(parts, t.name, job.base, n);
      assert Range(job.base, job.base + n - 1) == Range(job.base, job.base + job.ahead);
      if !job.skipDrop {
        DropRemovesOldMonths(CreateMonths(parts, t.name, job.base, n), t.name, job.base - t.retention);
      }
    }
  }

  ghost predicate ProperTables(tables: seq<Table>) {
    && (forall i :: 0 <= i < |tables| ==> TableName(tables[i].name))
    && (forall i, j :: 0 <= i < j < |tables| ==> tables[i].name != tables[j].name)
  }

  /** A run over all tables acts on each table's months by itself. */
  lemma {:induction false} RunEffect(parts: Catalogue, tables: seq<Table>, job: Job)
    requires WellNamed(parts) && ProperTables(tables) && JobDatable(tables, job)
    ensures var parts' := MaintainAll(parts, tables, job);
      && WellNamed(parts')
      && (forall i :: 0 <= i < |tables| ==>
            Months(parts', tables[i].name) == Effect(Months(parts, tables[i].name), tables[i].retention, job))
      && (forall u :: (forall i :: 0 <= i < |tables| ==> u != tables[i].name) ==> Months(parts', u) == Months(parts, u))
  {
    hide WellNamed, Months, MaintainTable, Effect, TableName, Datable;
    if tables != [] {
      var rest, last := tables[..|tables| - 1], tables[|tables| - 1];
      assert Datable(job, last.retention);
      RunEffect(parts, rest, job);
      var middle := MaintainAll(parts, rest, job);
      TableEffect(middle, last, job);
      var parts' := MaintainTable(middle, last, job);
      assert parts' == MaintainAll(parts, tables, job);
      forall i | 0 <= i < |tables|
        ensures Months(parts', tables[i].name) == Effect(Months(parts, tables[i].name), tables[i].retention, job)
      {
        if i < |rest| {
          assert rest[i] == tables[i] && tables[i].name != last.name;
        } else {
          assert Months(middle, last.name) == Months(parts, last.name);
        }
      }
      forall u | forall i :: 0 <= i < |tables| ==> u != tables[i].name
        ensures Months(parts', u) == Months(parts, u)
      {
        assert tables[|rest|] == last;
      }
    }
  }

  // ---- Whole histories ----------------------------------------------------------------------------

  ghost function AfterJobs(m: iset<int>, retention: nat, jobs: seq<Job>): iset<int> {
    if jobs == [] then m else Effect(AfterJobs(m, retention, jobs[..|jobs| - 1]), retention, jobs[|jobs| - 1])
  }

  predicate JobsDatable(tables: seq<Table>, jobs: seq<Job>) {
    forall i :: 0 <= i < |jobs| ==> JobDatable(tables, jobs[i])
  }

  function RunJobs(parts: Catalogue, tables: seq<Table>, jobs: seq<Job>): Catalogue
    requires JobsDatable(tables, jobs)
  {
    if jobs == [] then parts
    else MaintainAll(RunJobs(parts, tables, jobs[..|jobs| - 1]), tables, jobs[|jobs| - 1])
  }

  lemma {:induction false} JobsEffect(tables: seq<Table>, jobs: seq<Job>, i: nat)
    requires ProperTables(tables) && JobsDatable(tables, jobs) && i < |tables|
    ensures var parts := RunJobs(map[], tables, jobs);
      WellNamed(parts) && Months(parts, tables[i].name) == AfterJobs(iset{}, tables[i].retention, jobs)
  {
    hide WellNamed, Months, MaintainAll, Effect, TableName;
    if jobs == [] {
      NoMonths(tables[i].name);
    } else {
      JobsEffect(tables, jobs[..|jobs| - 1], i);
      RunEffect(RunJobs(map[], tables, jobs[..|jobs| - 1]), tables, jobs[|jobs| - 1]);
    }
  }

  lemma NoMonths(table: string)
    ensures WellNamed(map[]) && Months(map[], table) == iset{}
  {
  }

  /** What a history of jobs amounts to: its first month, its last covered month, its latest run and its latest cutoff. */
  datatype Summary = Summary(first: int, last: int, latest: int, cutoff: int)

  function Summarize(retention: nat, jobs: seq<Job>): Option<Summary> {
    if jobs == [] then None else
      var before, j := Summarize(retention, jobs[..|jobs| - 1]), jobs[|jobs| - 1];
      if j.dry then before
      else match before
        case None =>
          Some(Summary(j.base, j.base + j.ahead, j.base, if j.skipDrop then j.base else j.base - retention))
        case Some(s) =>
          Some(Summary(s.first, if j.base + j.ahead > s.last then j.base + j.ahead else s.last, j.base,
                       if j.skipDrop then s.cutoff else j.base - retention))
  }

  function Lowest(s: Summary): int { if s.first >= s.cutoff then s.first else s.cutoff }

  /** Runs go forward in time and each comes no later than the month after the last one covered. */
  ghost predicate Timely(retention: nat, jobs: seq<Job>) {
    jobs != [] ==>
      var before, j := Summarize(retention, jobs[..|jobs| - 1]), jobs[|jobs| - 1];
      && Timely(retention, jobs[..|jobs| - 1])
      && (!j.dry ==> 0 <= j.ahead && (before.Some? ==> before.value.latest <= j.base <= before.value.last + 1))
  }

  /** After timely runs the covered months are one unbroken range, from the first run or the latest cutoff to the horizon. */
  lemma {:induction false} TimelyRunsCoverRange(retention: nat, jobs: seq<Job>)
    requires Timely(retention, jobs)
    ensures var m := AfterJobs(iset{}, retention, jobs);
      match Summarize(retention, jobs)
      case None => m == iset{}
      case Some(s) => m == Range(Lowest(s), s.last) && Lowest(s) <= s.latest <= s.last &&
                      (s.cutoff <= s.first || s.cutoff <= s.latest - retention)
  {
    if jobs != [] {
      var prior, j := jobs[..|jobs| - 1], jobs[|jobs| - 1];
      TimelyRunsCoverRange(retention, prior);
      if !j.dry {
        var m := AfterJobs(iset{}, retention, prior);
        var s := Summarize(retention, jobs).value;
        var made := Range(j.base, j.base + j.ahead);
        match Summarize(retention, prior) {
          case None =>
            assert iset{} + made == made;
            assert From(made, j.base - retention) == made;
          case Some(b) =>
            assert m + made == Range(Lowest(b), s.last);
            assert From(Range(Lowest(b), s.last), j.base - retention) ==
                   Range(if Lowest(b) >= j.base - retention then Lowest(b) else j.base - retention, s.last);
        }
      }
    }
  }

  /**
   * Starting from no partitions, after timely runs every month from the first run or the latest cutoff up to the
   * horizon is covered by exactly one partition of each table, and no other month is covered.
   */
  lemma TimelyMaintenanceCoversOnce(tables: seq<Table>, jobs: seq<Job>, i: nat, k: int)
    requires ProperTables(tables) && JobsDatable(tables, jobs) && i < |tables|
    requires Timely(tables[i].retention, jobs) && Summarize(tables[i].retention, jobs).Some?
    ensures var s := Summarize(tables[i].retention, jobs).value;
      var parts := RunJobs(map[], tables, jobs);
      if Lowest(s) <= k <= s.last then CoveredOnce(parts, tables[i].name, k)
      else !exists n :: Covers(parts, tables[i].name, n, k)
  {
    hide RunJobs, WellNamed, Months, CoveredOnce, AfterJobs;
    JobsEffect(tables, jobs, i);
    TimelyRunsCoverRange(tables[i].retention, jobs);
    MonthsAreCoveredOnce(RunJobs(map[], tables, jobs), tables[i].name, k);
  }

  /** Real runs with one and the same look-ahead, never further apart than it reaches. */
  ghost predicate Regular(jobs: seq<Job>, ahead: nat) {
    && (forall i :: 0 <= i < |jobs| ==> !jobs[i].dry && jobs[i].ahead == ahead)
    && (forall i :: 0 <= i < |jobs| - 1 ==> 0 <= jobs[i + 1].base - jobs[i].base <= ahead + 1)
  }

  /** Such runs are timely, and their horizon is the look-ahead from the last one. */
  lemma {:induction false} RegularRunsAreTimely(retention: nat, jobs: seq<Job>, ahead: nat)
    requires Regular(jobs, ahead) && jobs != []
    ensures Timely(retention, jobs) && Summarize(retention, jobs).Some?
    ensures var s := Summarize(retention, jobs).value;
      s.first == jobs[0].base && s.latest == jobs[|jobs| - 1].base && s.last == s.latest + ahead
  {
    var prior := jobs[..|jobs| - 1];
    if prior != [] {
      assert jobs[|prior| - 1 + 1] == jobs[|prior|];
      RegularRunsAreTimely(retention, prior, ahead);
    }
  }

  ghost predicate NoGap(m: iset<int>) {
    forall a, k, b :: a in m && b in m && a <= k <= b ==> k in m
  }

  /** A run that comes later leaves a hole, unless everything before the hole is dropped at once. */
  lemma GapExactlyWhen(lo: int, hi: int, retention: nat, job: Job)
    requires lo <= hi && lo <= job.base && 0 <= job.ahead && !job.dry
    ensures NoGap(Effect(Range(lo, hi), retention, job)) <==>
            job.base <= hi + 1 || (!job.skipDrop && hi < job.base - retention)
  {
    var m := Effect(Range(lo, hi), retention, job);
    assert job.base in m;
    if job.base > hi + 1 && (job.skipDrop || job.base - retention <= hi) {
      assert hi in m && hi + 1 !in m;
    }
  }
}
