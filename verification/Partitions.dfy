/** The monthly maintenance job: create partitions ahead, drop the ones past retention, table by table. */
module Partitions {
  import opened PartitionNames

  datatype Table = Table(name: string, retention: nat)

  /** A partition of `parent` for the months from `from` up to but excluding `to`. */
  datatype Partition = Partition(parent: string, from: int, to: int)

  type Catalogue = map<string, Partition>

  /** One run of the job: the month it runs in and its command-line switches. */
  datatype Job = Job(base: int, ahead: int, dry: bool, skipDrop: bool)

  /** Every date the job computes exists. */
  predicate Datable(job: Job, retention: nat) {
    InCalendar(job.base) && InCalendar(job.base + Largest(job.ahead) + 1) && InCalendar(job.base - retention)
  }

  function Largest(n: int): int { if n < 0 then 0 else n }

  // ---- What a run does ----------------------------------------------------------------------------

  function CreateOne(parts: Catalogue, table: string, k: int): Catalogue
    requires InCalendar(k)
  {
    var name := Name(table, OfIndex(k));
    if name in parts then parts else parts[name := Partition(table, k, k + 1)]
  }

  function CreateMonths(parts: Catalogue, table: string, base: int, n: nat): Catalogue
    requires n > 0 ==> InCalendar(base) && InCalendar(base + n - 1)
  {
    if n == 0 then parts else CreateOne(CreateMonths(parts, table, base, n - 1), table, base + n - 1)
  }

  /** Selected by the catalogue query, readable as a month, and older than the cutoff. */
  predicate Expired(parts: Catalogue, name: string, table: string, cutoff: int)
    requires name in parts
  {
    parts[name].parent == table && MatchesPattern(name) && Parse(name).Some? && Index(Parse(name).value) < cutoff
  }

  function DropBefore(parts: Catalogue, table: string, cutoff: int): Catalogue {
    map name | name in parts && !Expired(parts, name, table, cutoff) :: parts[name]
  }

  function MaintainTable(parts: Catalogue, t: Table, job: Job): Catalogue
    requires Datable(job, t.retention)
  {
    if job.dry then parts else
      var made := CreateMonths(parts, t.name, job.base, Largest(job.ahead + 1));
      if job.skipDrop then made else DropBefore(made, t.name, job.base - t.retention)
  }

  predicate JobDatable(tables: seq<Table>, job: Job) { forall t :: t in tables ==> Datable(job, t.retention) }

  function MaintainAll(parts: Catalogue, tables: seq<Table>, job: Job): Catalogue
    requires JobDatable(tables, job)
  {
    if tables == [] then parts
    else MaintainTable(MaintainAll(parts, tables[..|tables| - 1], job), tables[|tables| - 1], job)
  }

  lemma TodayInCalendar(today: Month)
    requires Exists(today)
    ensures InCalendar(Index(today))
  {
  }

  lemma MonthAhead(today: Month, offset: int)
    requires Exists(today) && InCalendar(Index(today) + offset)
    ensures InCalendar(Index(today)) && Exists(AddMonths(today, offset))
    ensures AddMonths(today, offset) == OfIndex(Index(today) + offset)
    ensures Index(AddMonths(today, offset)) == Index(today) + offset
  {
    AddMonthsIsPlus(today, offset);
    IndexInverts(today, Index(today) + offset);
  }

  class Store {
    var parts: Catalogue

    constructor ()
      ensures parts == map[]
    {
      parts := map[];
    }

    method CreateAhead(table: string, today: Month, ahead: int, dry: bool)
      requires Exists(today) && InCalendar(Index(today) + Largest(ahead) + 1)
      modifies this
      ensures parts == if dry then old(parts) else CreateMonths(old(parts), table, Index(today), Largest(ahead + 1))
    {
      hide Name, OfIndex, AddMonths, Index;
      ghost var base := Index(today);
      TodayInCalendar(today);
      var offset := 0;
      while offset <= ahead
        invariant 0 <= offset <= Largest(ahead + 1)
        invariant parts == if dry then old(parts) else CreateMonths(old(parts), table, base, offset)
      {
        ghost var k := base + offset;
        MonthAhead(today, offset);
        MonthAhead(today, offset + 1);
        var start := AddMonths(today, offset);
        var end := AddMonths(today, offset + 1);
        var name := Name(table, start);
        if !dry && name !in parts {
          parts := parts[name := Partition(table, Index(start), Index(end))];
        }
        assert !dry ==> parts == CreateOne(CreateMonths(old(parts), table, base, offset), table, k);
        offset := offset + 1;
      }
    }

    method DropOld(table: string, today: Month, retention: nat, dry: bool)
      modifies this
      ensures parts == if dry then old(parts) else DropBefore(old(parts), table, Index(today) - retention)
    {
      var cutoff := AddMonths(today, 0 - retention);
      AddMonthsIsPlus(today, 0 - retention);
      ghost var before := parts;
      var rows := set name | name in parts && parts[name].parent == table && MatchesPattern(name);
      var todo := rows;
      while todo != {}
        invariant todo <= rows
        invariant forall name :: name in parts ==> name in before && parts[name] == before[name]
        invariant forall name :: name in before ==>
          (name in parts <==> dry || name in todo || !Expired(before, name, table, Index(cutoff)))
        decreases todo
      {
        var name :| name in todo;
        todo := todo - {name};
        var start := Parse(name);
        if start.Some? && Index(start.value) < Index(cutoff) && !dry {
          parts := parts - {name};
        }
      }
      assert parts == if dry then before else DropBefore(before, table, Index(cutoff));
    }

    method Maintain(tables: seq<Table>, today: Month, ahead: int, dry: bool, skipDrop: bool)
      requires Exists(today)
      requires JobDatable(tables, Job(Index(today), ahead, dry, skipDrop))
      modifies this
      ensures parts == MaintainAll(old(parts), tables, Job(Index(today), ahead, dry, skipDrop))
    {
      hide CreateMonths, DropBefore;
      ghost var job := Job(Index(today), ahead, dry, skipDrop);
      for i := 0 to |tables|
        invariant parts == MaintainAll(old(parts), tables[..i], job)
      {
        assert Datable(job, tables[i].retention);
        assert tables[..i + 1][..i] == tables[..i];
        CreateAhead(tables[i].name, today, ahead, dry);
        if !skipDrop { DropOld(tables[i].name, today, tables[i].retention, dry); }
      }
      assert tables[..|tables|] == tables;
    }
  }
}
