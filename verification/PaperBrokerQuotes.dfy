/** What a quote does ticket by ticket, and why quotes for different symbols commute. */
module PaperBrokerQuotes {
  import opened Basics
  import opened PaperBroker
  import opened PaperBrokerRuns

  /** All that the broker holds about one ticket. */
  datatype Cell = Cell(open: Option<Position>, pending: Option<Order>, closed: Option<ClosedTrade>)

  ghost function CellOf(s: State, t: nat): Cell {
    Cell(if t in s.open then Some(s.open[t]) else None,
         if t in s.pending then Some(s.pending[t]) else None,
         if t in s.closed then Some(s.closed[t]) else None)
  }

  /** The effect of a quote on one ticket, with no sweep in it. */
  ghost function QuoteCell(c: Costs, x: Cell, symbol: string, q: Quote): Cell {
    if x.open.Some? && ToClose(x.open.value, symbol, q) then
      x.(open := None, closed := Some(ClosedAt(c, Marked(x.open.value, q), q)))
    else if x.open.Some? then x.(open := Some(MarkIf(x.open.value, symbol, q)))
    else if x.pending.Some? && ToFill(x.pending.value, symbol, q) then
      x.(pending := None, open := Some(FillOf(c, x.pending.value, q)))
    else x
  }

  /** The three sweeps of a quote act on each ticket by itself. */
  lemma QuoteByTicket(c: Costs, s: State, symbol: string, q: Quote, t: nat)
    requires OnePlaceEach(s)
    ensures CellOf(OnQuote(c, s, symbol, q), t) == QuoteCell(c, CellOf(s, t), symbol, q)
  {
    hide ClosedAt, Hit, Triggered, TotalPnl, FillOf;
    assert Places(s, t) <= 1;
    if t in s.open { HitUnmarked(s.open[t], symbol, q); }
  }

  /** After a quote nothing on its symbol is left to do, every hit position is realized once, and other symbols are as before. */
  lemma QuoteClears(c: Costs, s: State, symbol: string, q: Quote, t: nat)
    requires OnePlaceEach(s)
    ensures var s' := OnQuote(c, s, symbol, q);
      && (t in s.open && t in s'.open && s'.open[t].symbol == symbol ==> !Hit(s'.open[t], q))
      && (t in s.open && ToClose(s.open[t], symbol, q) ==>
            t !in s.closed && t !in s'.open && t in s'.closed && s'.closed[t] == ClosedAt(c, Marked(s.open[t], q), q))
      && (t in s'.pending && s'.pending[t].symbol == symbol ==> !Triggered(s'.pending[t], q))
      && (t in s.open && s.open[t].symbol != symbol ==> t in s'.open && s'.open[t] == s.open[t])
      && (t in s.pending && s.pending[t].symbol != symbol ==> t in s'.pending && s'.pending[t] == s.pending[t])
  {
    hide OnQuote, Triggered;
    QuoteByTicket(c, s, symbol, q, t);
    var s' := OnQuote(c, s, symbol, q);
    assert CellOf(s', t) == QuoteCell(c, CellOf(s, t), symbol, q);
    assert Places(s, t) <= 1;
  }

  lemma QuoteRest(c: Costs, s: State, symbol: string, q: Quote)
    ensures var s' := OnQuote(c, s, symbol, q);
      s'.quotes == s.quotes[symbol := q] && s'.next == s.next &&
      s'.cancelled == s.cancelled && s'.rejected == s.rejected
  {
    hide ClosedAt, Hit, Triggered, TotalPnl, FillOf, Marked;
  }

  lemma SameCells(s: State, s': State)
    requires forall t: nat :: CellOf(s, t) == CellOf(s', t)
    ensures s.open == s'.open && s.pending == s'.pending && s.closed == s'.closed
  {
    forall t: nat
      ensures (t in s.open <==> t in s'.open) && (t in s.open ==> s.open[t] == s'.open[t])
      ensures (t in s.pending <==> t in s'.pending) && (t in s.pending ==> s.pending[t] == s'.pending[t])
      ensures (t in s.closed <==> t in s'.closed) && (t in s.closed ==> s.closed[t] == s'.closed[t])
    {
      assert CellOf(s, t) == CellOf(s', t);
    }
  }

  lemma CellsCommute(c: Costs, x: Cell, a: string, qa: Quote, b: string, qb: Quote)
    requires a != b && (x.open.None? || x.pending.None?)
    ensures QuoteCell(c, QuoteCell(c, x, a, qa), b, qb) == QuoteCell(c, QuoteCell(c, x, b, qb), a, qa)
  {
    hide ClosedAt, Hit, Triggered, Opened;
    if x.open.Some? { MarkKeeps(x.open.value, qa); MarkKeeps(x.open.value, qb); }
    if x.pending.Some? {
      FillKeeps(c, x.pending.value, qa);
      FillKeeps(c, x.pending.value, qb);
    }
  }

  lemma NotBoth(s: State, t: nat)
    requires OnePlaceEach(s)
    ensures CellOf(s, t).open.None? || CellOf(s, t).pending.None?
  {
    assert Places(s, t) <= 1;
  }

  lemma FillKeeps(c: Costs, o: Order, q: Quote)
    ensures var p := FillOf(c, o, q);
      p.symbol == o.symbol && p.sl == o.sl && p.tp == o.tp
  {
  }

  /** Quotes for two different symbols may arrive in either order: the broker ends in the same state. */
  lemma QuotesCommute(c: Costs, s: State, initial: real, a: string, qa: Quote, b: string, qb: Quote)
    requires BooksBalance(s, initial) && OnePlaceEach(s) && a != b
    ensures OnQuote(c, OnQuote(c, s, a, qa), b, qb) == OnQuote(c, OnQuote(c, s, b, qb), a, qa)
  {
    hide OnQuote, QuoteCell, CellOf, TotalPnl;
    var sa, sb := OnQuote(c, s, a, qa), OnQuote(c, s, b, qb);
    QuoteStep(c, s, initial, a, qa);
    QuoteStep(c, s, initial, b, qb);
    QuoteStep(c, sa, initial, b, qb);
    QuoteStep(c, sb, initial, a, qa);
    var sab, sba := OnQuote(c, sa, b, qb), OnQuote(c, sb, a, qa);
    forall t: nat ensures CellOf(sab, t) == CellOf(sba, t) {
      QuoteByTicket(c, s, a, qa, t);
      QuoteByTicket(c, s, b, qb, t);
      QuoteByTicket(c, sa, b, qb, t);
      QuoteByTicket(c, sb, a, qa, t);
      NotBoth(s, t);
      CellsCommute(c, CellOf(s, t), a, qa, b, qb);
    }
    SameCells(sab, sba);
    assert s.quotes[a := qa][b := qb] == s.quotes[b := qb][a := qa];
  }

  lemma QuoteStep(c: Costs, s: State, initial: real, symbol: string, q: Quote)
    requires BooksBalance(s, initial) && OnePlaceEach(s)
    ensures BooksBalance(OnQuote(c, s, symbol, q), initial) && OnePlaceEach(OnQuote(c, s, symbol, q))
    ensures var s' := OnQuote(c, s, symbol, q);
      s'.quotes == s.quotes[symbol := q] && s'.next == s.next &&
      s'.cancelled == s.cancelled && s'.rejected == s.rejected
  {
    hide OnQuote, TotalPnl;
    StepKeepsBooks(c, s, QuoteOp(symbol, q), initial);
    StepKeepsTickets(c, s, QuoteOp(symbol, q));
    QuoteRest(c, s, symbol, q);
  }

  // ---- Closing and equity -------------------------------------------------------------------------

  /** Closing a position that is marked at the current quote gives up exactly one fill's cost. */
  lemma CloseCostsOneFill(c: Costs, s: State, t: nat)
    requires t in s.open && s.open[t].symbol in s.quotes
    requires s.open[t] == Marked(s.open[t], s.quotes[s.open[t].symbol])
    ensures Equity(ClosePosition(c, s, t).0) == Equity(s) - c.PerFill(s.open[t].symbol) * s.open[t].volume
  {
    hide CloseAll, ClosedAt;
    var p := s.open[t];
    CloseOne(c, s, t);
    SumRemove(Unrealized(s.open), t);
    assert Unrealized(s.open - {t}) == Unrealized(s.open) - {t};
    MarkedPnl(c, p, s.quotes[p.symbol]);
  }

  lemma MarkedPnl(c: Costs, p: Position, q: Quote)
    ensures ClosedAt(c, p, q).pnl == Marked(p, q).unrealized - c.PerFill(p.symbol) * p.volume
  {
    var k := c.PerFill(p.symbol);
    if p.side.Buy? {
      assert (q.bid - k - p.entry) * p.volume == (q.bid - p.entry) * p.volume - k * p.volume;
    } else {
      assert (q.ask + k - p.entry) * -1.0 * p.volume == (p.entry - q.ask) * p.volume - k * p.volume;
    }
  }
}
