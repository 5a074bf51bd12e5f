/** What every run of the paper broker keeps: books that balance, tickets that never move back, quotes that commute. */
module PaperBrokerRuns {
  import opened Basics
  import opened PaperBroker

  datatype Op =
    | PlaceOp(order: Order)
    | CloseOp(ticket: nat)
    | CancelOp(ticket: nat)
    | ModifyOp(ticket: nat, sl: Option<real>, tp: Option<real>)
    | QuoteOp(symbol: string, quote: Quote)

  ghost function Step(c: Costs, s: State, op: Op): State {
    match op
    case PlaceOp(o) => PlaceOrder(c, s, o).0
    case CloseOp(t) => ClosePosition(c, s, t).0
    case CancelOp(t) => CancelOrder(s, t).0
    case ModifyOp(t, sl, tp) => ModifyPosition(s, t, sl, tp).0
    case QuoteOp(symbol, q) => OnQuote(c, s, symbol, q)
  }

  ghost function Run(c: Costs, s: State, ops: seq<Op>): State {
    if ops == [] then s else Step(c, Run(c, s, ops[..|ops| - 1]), ops[|ops| - 1])
  }

  // ---- Books and tickets --------------------------------------------------------------------------

  ghost predicate BooksBalance(s: State, initial: real) {
    s.balance == initial + s.realized && s.realized == TotalPnl(s.closed)
  }

  datatype Status = Unissued | Rejected | Pending | Open | Cancelled | Closed

  ghost function StatusOf(s: State, t: nat): Status {
    if t in s.rejected then Rejected else if t in s.pending then Pending else if t in s.open then Open
    else if t in s.cancelled then Cancelled else if t in s.closed then Closed else Unissued
  }

  /** In how many places a ticket is. */
  function Places(s: State, t: nat): nat {
    (if t in s.rejected then 1 else 0) + (if t in s.pending then 1 else 0) + (if t in s.open then 1 else 0) +
    (if t in s.cancelled then 1 else 0) + (if t in s.closed then 1 else 0)
  }

  /** Every issued ticket is in exactly one place, and no other number is anywhere. */
  ghost predicate OnePlaceEach(s: State) {
    1 <= s.next && forall t: nat :: Places(s, t) == if 1 <= t < s.next then 1 else 0
  }

  /** The moves a ticket may make in one operation. */
  predicate MayMove(a: Status, b: Status) {
    || a == b
    || (a == Unissued && b in {Rejected, Pending, Open})
    || (a == Pending && b in {Open, Cancelled})
    || (a == Open && b == Closed)
  }

  ghost predicate TicketsMove(s: State, s': State) {
    && (forall t: nat :: MayMove(StatusOf(s, t), StatusOf(s', t)))
    && (forall t :: t in s.closed ==> t in s'.closed && s'.closed[t] == s.closed[t])
  }

  lemma BookKeepsBooks(s: State, trades: map<nat, ClosedTrade>, initial: real)
    requires BooksBalance(s, initial) && s.closed.Keys !! trades.Keys
    ensures BooksBalance(Book(s, trades), initial)
  {
    SumUnion(Pnls(s.closed), Pnls(trades));
    assert Pnls(s.closed + trades) == Pnls(s.closed) + Pnls(trades);
  }

  /** Balance, realized profit and the ledger of closed trades agree after every operation. */
  lemma StepKeepsBooks(c: Costs, s: State, op: Op, initial: real)
    requires BooksBalance(s, initial) && OnePlaceEach(s)
    ensures BooksBalance(Step(c, s, op), initial)
  {
    hide ClosedAt, Marked, Hit, TotalPnl;
    OpenIsNotClosed(s);
    match op {
      case CloseOp(t) =>
        if t in s.open {
          BookKeepsBooks(s, Closings(c, s, {t}), initial);
        }
      case QuoteOp(symbol, q) =>
        var s1 := MarkAll(s, symbol, q);
        BookKeepsBooks(s1, Closings(c, s1, HitTickets(s1, symbol, q)), initial);
      case _ =>
    }
  }

  lemma OpenIsNotClosed(s: State)
    requires OnePlaceEach(s)
    ensures s.closed.Keys !! s.open.Keys
  {
    forall t | t in s.open ensures t !in s.closed {
      assert Places(s, t) <= 1;
    }
  }

  lemma CloseAllTickets(c: Costs, s: State, ts: set<nat>)
    requires OnePlaceEach(s) && ts <= s.open.Keys
    ensures OnePlaceEach(CloseAll(c, s, ts))
    ensures forall t: nat :: StatusOf(CloseAll(c, s, ts), t) == if t in ts then Closed else StatusOf(s, t)
    ensures forall t :: t in s.closed ==> t in CloseAll(c, s, ts).closed && CloseAll(c, s, ts).closed[t] == s.closed[t]
  {
    hide ClosedAt, TotalPnl;
    var s' := CloseAll(c, s, ts);
    forall t: nat
      ensures Places(s', t) == Places(s, t)
      ensures StatusOf(s', t) == if t in ts then Closed else StatusOf(s, t)
      ensures t in s.closed ==> t in s'.closed && s'.closed[t] == s.closed[t]
    {
      assert Places(s, t) <= 1;
    }
  }

  lemma FillAllTickets(c: Costs, s: State, ts: set<nat>, q: Quote)
    requires OnePlaceEach(s) && ts <= s.pending.Keys
    ensures OnePlaceEach(FillAll(c, s, ts, q))
    ensures forall t: nat :: StatusOf(FillAll(c, s, ts, q), t) == if t in ts then Open else StatusOf(s, t)
  {
    hide FillOf;
    var s' := FillAll(c, s, ts, q);
    forall t: nat
      ensures Places(s', t) == Places(s, t)
      ensures StatusOf(s', t) == if t in ts then Open else StatusOf(s, t)
    {
      assert Places(s, t) <= 1;
    }
  }

  ghost function AfterQuote(s: State, t: nat, symbol: string, q: Quote): Status {
    if t in s.open && ToClose(s.open[t], symbol, q) then Closed
    else if t in s.pending && ToFill(s.pending[t], symbol, q) then Open
    else StatusOf(s, t)
  }

  /** A quote closes exactly the open tickets it hits and opens exactly the pending ones it triggers. */
  lemma QuoteMoves(c: Costs, s: State, symbol: string, q: Quote)
    requires OnePlaceEach(s)
    ensures OnePlaceEach(OnQuote(c, s, symbol, q))
    ensures forall t: nat :: StatusOf(OnQuote(c, s, symbol, q), t) == AfterQuote(s, t, symbol, q)
    ensures TicketsMove(s, OnQuote(c, s, symbol, q))
  {
    hide CloseAll, FillAll, Triggered, Hit;
    var s1 := MarkAll(s, symbol, q);
    var hit := HitTickets(s1, symbol, q);
    SamePlaces(s, s1);
    CloseAllTickets(c, s1, hit);
    var s2 := CloseAll(c, s1, hit);
    PendingKept(c, s1, hit);
    var filled := TriggeredTickets(s2, symbol, q);
    FillAllTickets(c, s2, filled, q);
    ClosedKept(c, s2, filled, q);
    forall t: nat
      ensures StatusOf(OnQuote(c, s, symbol, q), t) == AfterQuote(s, t, symbol, q)
      ensures MayMove(StatusOf(s, t), AfterQuote(s, t, symbol, q))
    {
      assert Places(s, t) <= 1;
      if t in s.open { HitUnmarked(s.open[t], symbol, q); }
    }
  }

  lemma HitUnmarked(p: Position, symbol: string, q: Quote)
    ensures ToClose(MarkIf(p, symbol, q), symbol, q) <==> ToClose(p, symbol, q)
  {
  }

  lemma SamePlaces(s: State, s': State)
    requires OnePlaceEach(s)
    requires s.open.Keys == s'.open.Keys && s.pending.Keys == s'.pending.Keys && s.closed.Keys == s'.closed.Keys
    requires s.cancelled == s'.cancelled && s.rejected == s'.rejected && s.next == s'.next
    ensures OnePlaceEach(s') && forall t: nat :: StatusOf(s', t) == StatusOf(s, t)
  {
    forall t: nat ensures Places(s', t) == Places(s, t) {}
  }

  lemma PendingKept(c: Costs, s: State, ts: set<nat>)
    requires ts <= s.open.Keys
    ensures CloseAll(c, s, ts).pending == s.pending
  {
  }

  lemma ClosedKept(c: Costs, s: State, ts: set<nat>, q: Quote)
    requires ts <= s.pending.Keys
    ensures FillAll(c, s, ts, q).closed == s.closed
  {
  }

  lemma PlaceTickets(c: Costs, s: State, o: Order)
    requires OnePlaceEach(s)
    ensures OnePlaceEach(PlaceOrder(c, s, o).0)
    ensures TicketsMove(s, PlaceOrder(c, s, o).0)
  {
    hide Opened, Places, StatusOf, PlaceOrder;
    var s' := PlaceOrder(c, s, o).0;
    forall t: nat
      ensures Places(s', t) == if 1 <= t < s.next + 1 then 1 else 0
      ensures MayMove(StatusOf(s, t), StatusOf(s', t))
    {
      PlaceOneTicket(c, s, o, t);
    }
    PlaceRest(c, s, o);
  }

  lemma PlaceOneTicket(c: Costs, s: State, o: Order, t: nat)
    requires OnePlaceEach(s)
    ensures var s' := PlaceOrder(c, s, o).0;
      && Places(s', t) == (if 1 <= t < s.next + 1 then 1 else 0)
      && MayMove(StatusOf(s, t), StatusOf(s', t))
  {
    hide Opened;
    assert Places(s, t) == if 1 <= t < s.next then 1 else 0;
    assert Places(s, s.next) == 0;
  }

  lemma PlaceRest(c: Costs, s: State, o: Order)
    ensures PlaceOrder(c, s, o).0.next == s.next + 1 && PlaceOrder(c, s, o).0.closed == s.closed
  {
    hide Opened;
  }

  lemma CancelTickets(s: State, ticket: nat)
    requires OnePlaceEach(s)
    ensures OnePlaceEach(CancelOrder(s, ticket).0)
    ensures TicketsMove(s, CancelOrder(s, ticket).0)
  {
    var s' := CancelOrder(s, ticket).0;
    assert Places(s, ticket) <= 1;
    forall t: nat
      ensures Places(s', t) == Places(s, t)
      ensures MayMove(StatusOf(s, t), StatusOf(s', t))
    {
      if t != ticket { assert StatusOf(s', t) == StatusOf(s, t); }
    }
  }

  /** Each operation keeps every ticket in one place and moves tickets only forward. */
  lemma StepKeepsTickets(c: Costs, s: State, op: Op)
    requires OnePlaceEach(s)
    ensures OnePlaceEach(Step(c, s, op))
    ensures TicketsMove(s, Step(c, s, op))
  {
    hide CloseAll, OnQuote, PlaceOrder, CancelOrder;
    match op {
      case QuoteOp(symbol, q) => QuoteMoves(c, s, symbol, q);
      case CloseOp(t) =>
        if t in s.open {
          CloseAllTickets(c, s, {t});
          assert Places(s, t) <= 1;
        }
      case PlaceOp(o) => PlaceTickets(c, s, o);
      case CancelOp(t) => CancelTickets(s, t);
      case ModifyOp(t, sl, tp) =>
        var s' := Step(c, s, op);
        assert s'.open.Keys == s.open.Keys;
        SamePlaces(s, s');
    }
  }

  /** The moves of a whole run: forward only, and final once rejected, cancelled or closed. */
  predicate MayReach(a: Status, b: Status) {
    || a == b || a == Unissued
    || (a == Pending && b in {Open, Cancelled, Closed})
    || (a == Open && b == Closed)
  }

  /** On every run the books balance, every ticket is in one place and no closed trade is ever realized again. */
  lemma {:induction false} RunKeepsBooks(c: Costs, initial: real, ops: seq<Op>)
    ensures var s := Run(c, Init(initial), ops);
      BooksBalance(s, initial) && OnePlaceEach(s)
  {
    if ops == [] {
      assert Pnls(map[]) == map[];
      forall t: nat ensures Places(Init(initial), t) == 0 {}
    } else {
      var before := Run(c, Init(initial), ops[..|ops| - 1]);
      RunKeepsBooks(c, initial, ops[..|ops| - 1]);
      StepKeepsBooks(c, before, ops[|ops| - 1], initial);
      StepKeepsTickets(c, before, ops[|ops| - 1]);
    }
  }

  lemma {:induction false} RunMovesForward(c: Costs, s: State, ops: seq<Op>, t: nat)
    requires OnePlaceEach(s)
    ensures OnePlaceEach(Run(c, s, ops))
    ensures MayReach(StatusOf(s, t), StatusOf(Run(c, s, ops), t))
    ensures t in s.closed ==> t in Run(c, s, ops).closed && Run(c, s, ops).closed[t] == s.closed[t]
  {
    hide Step, StatusOf;
    if ops != [] {
      var before := Run(c, s, ops[..|ops| - 1]);
      RunMovesForward(c, s, ops[..|ops| - 1], t);
      StepKeepsTickets(c, before, ops[|ops| - 1]);
      assert MayMove(StatusOf(before, t), StatusOf(Run(c, s, ops), t));
    }
  }
}
