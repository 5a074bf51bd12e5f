/** What operations do in raw quotes and prices: when stops, targets and resting orders fire, and where every position comes from. */
module PaperBrokerTriggers {
  import opened Basics
  import opened PaperBroker
  import opened PaperBrokerRuns
  import opened PaperBrokerQuotes

  /** The broker after the operations. */
  ghost function After(c: Costs, initial: real, ops: seq<Op>): State { Run(c, Init(initial), ops) }

  lemma AfterOneMore(c: Costs, initial: real, ops: seq<Op>, op: Op)
    ensures After(c, initial, ops + [op]) == Step(c, After(c, initial, ops), op)
    ensures OnePlaceEach(After(c, initial, ops))
  {
    hide Step, OnePlaceEach;
    assert (ops + [op])[..|ops|] == ops;
    RunKeepsBooks(c, initial, ops);
  }

  /** One fill pays half the spread and the slippage, in pips of the symbol. */
  lemma FillCost(c: Costs, symbol: string)
    ensures c.PerFill(symbol) ==
      (c.spreadPips / 2.0 + c.slippagePips) * if symbol in c.pipSize then c.pipSize[symbol] else 0.0001
  {
    var pip := if symbol in c.pipSize then c.pipSize[symbol] else 0.0001;
    assert c.spreadPips * pip / 2.0 == (c.spreadPips / 2.0) * pip;
  }

  // ---- Stops and targets --------------------------------------------------------------------------

  lemma HitMeans(p: Position, q: Quote)
    ensures p.side == Buy ==> (Hit(p, q) <==> (p.sl.Some? && q.bid <= p.sl.value) || (p.tp.Some? && q.ask >= p.tp.value))
    ensures p.side == Sell ==> (Hit(p, q) <==> (p.sl.Some? && q.ask >= p.sl.value) || (p.tp.Some? && q.bid <= p.tp.value))
  {
  }

  lemma MarkedMeans(p: Position, q: Quote)
    ensures p.side == Buy ==> Marked(p, q) == p.(unrealized := (q.bid - p.entry) * p.volume)
    ensures p.side == Sell ==> Marked(p, q) == p.(unrealized := (p.entry - q.ask) * p.volume)
  {
  }

  lemma ClosedMeans(c: Costs, p: Position, q: Quote)
    ensures var trade, k := ClosedAt(c, p, q), c.PerFill(p.symbol);
      && trade.position == p
      && (p.side == Buy ==> trade.exit == q.bid - k && trade.pnl == (trade.exit - p.entry) * p.volume)
      && (p.side == Sell ==> trade.exit == q.ask + k && trade.pnl == (p.entry - trade.exit) * p.volume)
  {
    hide Costs.PerFill;
    var exit := ClosedAt(c, p, q).exit;
    Signed(exit - p.entry, p.entry - exit, p.volume);
  }

  lemma Signed(x: real, y: real, v: real)
    requires y == -x
    ensures x * 1.0 * v == x * v && x * -1.0 * v == y * v
  {
  }

  /** The same for a position that a quote has just marked. */
  lemma HitMeansClosed(c: Costs, p: Position, q: Quote)
    ensures var trade, k := ClosedAt(c, Marked(p, q), q), c.PerFill(p.symbol);
      && trade.position.entry == p.entry
      && (p.side == Buy ==> trade.exit == q.bid - k && trade.pnl == (trade.exit - p.entry) * p.volume)
      && (p.side == Sell ==> trade.exit == q.ask + k && trade.pnl == (p.entry - trade.exit) * p.volume)
  {
    hide ClosedAt, Costs.PerFill;
    MarkedMeans(p, q);
    ClosedMeans(c, Marked(p, q), q);
  }

  lemma QuoteOutcome(c: Costs, initial: real, ops: seq<Op>, symbol: string, q: Quote, t: nat)
    requires t in After(c, initial, ops).open && After(c, initial, ops).open[t].symbol == symbol
    ensures var p, s' := After(c, initial, ops).open[t], After(c, initial, ops + [QuoteOp(symbol, q)]);
      if Hit(p, q) then t !in s'.open && t in s'.closed && s'.closed[t] == ClosedAt(c, Marked(p, q), q)
      else t in s'.open && t !in s'.closed && s'.open[t] == Marked(p, q)
  {
    hide OnQuote, Hit, Marked, ClosedAt, Run;
    var s := After(c, initial, ops);
    AfterOneMore(c, initial, ops, QuoteOp(symbol, q));
    QuoteByTicket(c, s, symbol, q, t);
    assert CellOf(OnQuote(c, s, symbol, q), t) == QuoteCell(c, CellOf(s, t), symbol, q);
    assert Places(s, t) <= 1;
  }

  /**
   * On any run a quote closes a long if and only if its bid is at or below the stop or its ask at or above the target,
   * and a short if and only if its ask is at or above the stop or its bid at or below the target. What closes leaves
   * at that quote, and what stays is marked to it.
   */
  lemma QuoteClosesExactlyWhen(c: Costs, initial: real, ops: seq<Op>, symbol: string, q: Quote, t: nat)
    requires t in After(c, initial, ops).open && After(c, initial, ops).open[t].symbol == symbol
    ensures var p, s' := After(c, initial, ops).open[t], After(c, initial, ops + [QuoteOp(symbol, q)]);
      var k := c.PerFill(symbol);
      && (p.side == Buy ==>
            if (p.sl.Some? && q.bid <= p.sl.value) || (p.tp.Some? && q.ask >= p.tp.value) then
              && t !in s'.open && t in s'.closed && s'.closed[t].position.entry == p.entry
              && s'.closed[t].exit == q.bid - k && s'.closed[t].pnl == (s'.closed[t].exit - p.entry) * p.volume
            else t in s'.open && t !in s'.closed && s'.open[t] == p.(unrealized := (q.bid - p.entry) * p.volume))
      && (p.side == Sell ==>
            if (p.sl.Some? && q.ask >= p.sl.value) || (p.tp.Some? && q.bid <= p.tp.value) then
              && t !in s'.open && t in s'.closed && s'.closed[t].position.entry == p.entry
              && s'.closed[t].exit == q.ask + k && s'.closed[t].pnl == (p.entry - s'.closed[t].exit) * p.volume
            else t in s'.open && t !in s'.closed && s'.open[t] == p.(unrealized := (p.entry - q.ask) * p.volume))
  {
    hide After, Hit, Marked, ClosedAt, Costs.PerFill;
    var p, s' := After(c, initial, ops).open[t], After(c, initial, ops + [QuoteOp(symbol, q)]);
    QuoteOutcome(c, initial, ops, symbol, q, t);
    HitMeans(p, q);
    if Hit(p, q) { HitMeansClosed(c, p, q); } else { MarkedMeans(p, q); }
  }

  /** Whatever a quote adds to the ledger was open on its symbol and had its stop or target reached. */
  lemma LedgerGrowsByHits(c: Costs, initial: real, ops: seq<Op>, symbol: string, q: Quote, t: nat)
    requires t in After(c, initial, ops + [QuoteOp(symbol, q)]).closed && t !in After(c, initial, ops).closed
    ensures t in After(c, initial, ops).open
    ensures var p := After(c, initial, ops).open[t];
      && p.symbol == symbol
      && (p.side == Buy ==> (p.sl.Some? && q.bid <= p.sl.value) || (p.tp.Some? && q.ask >= p.tp.value))
      && (p.side == Sell ==> (p.sl.Some? && q.ask >= p.sl.value) || (p.tp.Some? && q.bid <= p.tp.value))
  {
    hide OnQuote, Hit, Marked, ClosedAt, Run;
    var s := After(c, initial, ops);
    AfterOneMore(c, initial, ops, QuoteOp(symbol, q));
    QuoteByTicket(c, s, symbol, q, t);
    assert CellOf(OnQuote(c, s, symbol, q), t) == QuoteCell(c, CellOf(s, t), symbol, q);
    HitMeans(s.open[t], q);
  }

  /** An operation that is neither a quote on the position's symbol nor a change of its levels. */
  predicate Leaves(op: Op, symbol: string, t: nat) {
    !(op.QuoteOp? && op.symbol == symbol) && !(op.ModifyOp? && op.ticket == t)
  }

  /**
   * A long that was open at its symbol's last quote, has the levels it had then and is still open has its bid above the
   * stop and its ask below the target there; a short its ask below the stop and its bid above the target.
   */
  lemma {:induction false} OpenPositionsAreUnhit(
      c: Costs, initial: real, ops: seq<Op>, symbol: string, q: Quote, rest: seq<Op>, t: nat)
    requires t in After(c, initial, ops).open && After(c, initial, ops).open[t].symbol == symbol
    requires forall op :: op in rest ==> Leaves(op, symbol, t)
    requires t in After(c, initial, ops + [QuoteOp(symbol, q)] + rest).open
    ensures var s' := After(c, initial, ops + [QuoteOp(symbol, q)] + rest);
      var p := s'.open[t];
      && p.symbol == symbol && symbol in s'.quotes && s'.quotes[symbol] == q
      && p.side == After(c, initial, ops).open[t].side
      && (p.side == Buy ==> (p.sl.Some? ==> q.bid > p.sl.value) && (p.tp.Some? ==> q.ask < p.tp.value))
      && (p.side == Sell ==> (p.sl.Some? ==> q.ask < p.sl.value) && (p.tp.Some? ==> q.bid > p.tp.value))
  {
    hide Step, Run, OnePlaceEach;
    var all := ops + [QuoteOp(symbol, q)];
    if rest == [] {
      assert all + [] == all;
      QuoteClosesExactlyWhen(c, initial, ops, symbol, q, t);
      QuoteIsLast(c, initial, ops, symbol, q);
    } else {
      var prior, op := rest[..|rest| - 1], rest[|rest| - 1];
      assert all + rest == (all + prior) + [op];
      AfterOneMore(c, initial, all + prior, op);
      OpenBefore(c, initial, ops, symbol, q, t);
      LeftAlone(c, initial, all, prior, op, symbol, t);
      OpenPositionsAreUnhit(c, initial, ops, symbol, q, prior, t);
    }
  }

  lemma QuoteIsLast(c: Costs, initial: real, ops: seq<Op>, symbol: string, q: Quote)
    ensures var s' := After(c, initial, ops + [QuoteOp(symbol, q)]);
      symbol in s'.quotes && s'.quotes[symbol] == q
  {
    hide OnQuote, Run;
    AfterOneMore(c, initial, ops, QuoteOp(symbol, q));
    QuoteRest(c, After(c, initial, ops), symbol, q);
  }

  /** A ticket that is open on some run was issued on it. */
  lemma OpenBefore(c: Costs, initial: real, ops: seq<Op>, symbol: string, q: Quote, t: nat)
    requires t in After(c, initial, ops).open
    ensures StatusOf(After(c, initial, ops + [QuoteOp(symbol, q)]), t) in {Open, Closed}
  {
    hide OnQuote, Run, Step;
    var s := After(c, initial, ops);
    AfterOneMore(c, initial, ops, QuoteOp(symbol, q));
    assert Places(s, t) <= 1;
    StepKeepsTickets(c, s, QuoteOp(symbol, q));
  }

  /** A step that leaves a position alone, and after which it is open, found it open with the same levels. */
  lemma LeftAlone(c: Costs, initial: real, all: seq<Op>, prior: seq<Op>, op: Op, symbol: string, t: nat)
    requires StatusOf(After(c, initial, all), t) in {Open, Closed} && Leaves(op, symbol, t)
    requires t in Step(c, After(c, initial, all + prior), op).open
    ensures var s, s' := After(c, initial, all + prior), Step(c, After(c, initial, all + prior), op);
      && t in s.open
      && (s.open[t].symbol == symbol ==> s'.open[t] == s.open[t])
      && (symbol in s.quotes ==> symbol in s'.quotes && s'.quotes[symbol] == s.quotes[symbol])
  {
    hide Run, Step, StatusOf, Places, After, OnQuote, CloseAll;
    var s := After(c, initial, all + prior);
    ReachesOpen(c, initial, all, prior, op, t);
    StepLeaves(c, s, op, symbol, t);
  }

  lemma ReachesOpen(c: Costs, initial: real, all: seq<Op>, prior: seq<Op>, op: Op, t: nat)
    requires StatusOf(After(c, initial, all), t) in {Open, Closed}
    requires t in Step(c, After(c, initial, all + prior), op).open
    ensures t in After(c, initial, all + prior).open && OnePlaceEach(After(c, initial, all + prior))
  {
    hide Run, Step;
    var s := After(c, initial, all + prior);
    RunKeepsBooks(c, initial, all);
    RunKeepsBooks(c, initial, all + prior);
    RunSplit(c, Init(initial), all, prior);
    RunMovesForward(c, After(c, initial, all), prior, t);
    StepKeepsTickets(c, s, op);
    assert MayMove(StatusOf(s, t), StatusOf(Step(c, s, op), t));
    assert Places(Step(c, s, op), t) <= 1;
  }

  lemma {:induction false} RunSplit(c: Costs, s: State, a: seq<Op>, b: seq<Op>)
    ensures Run(c, s, a + b) == Run(c, Run(c, s, a), b)
  {
    hide Step;
    if b == [] {
      assert a + b == a;
    } else {
      RunSplit(c, s, a, b[..|b| - 1]);
      assert (a + b)[..|a + b| - 1] == a + b[..|b| - 1];
    }
  }

  lemma StepLeaves(c: Costs, s: State, op: Op, symbol: string, t: nat)
    requires OnePlaceEach(s) && t in s.open && t in Step(c, s, op).open && Leaves(op, symbol, t)
    ensures s.open[t].symbol == symbol ==> Step(c, s, op).open[t] == s.open[t]
    ensures symbol in s.quotes ==> symbol in Step(c, s, op).quotes && Step(c, s, op).quotes[symbol] == s.quotes[symbol]
  {
    hide OnQuote, CloseAll, Opened;
    match op {
      case QuoteOp(y, q) =>
        QuoteRest(c, s, y, q);
        QuoteByTicket(c, s, y, q, t);
        assert CellOf(OnQuote(c, s, y, q), t) == QuoteCell(c, CellOf(s, t), y, q);
      case CloseOp(u) => if u in s.open { CloseOne(c, s, u); }
      case PlaceOp(_) => assert Places(s, s.next) == 0;
      case _ =>
    }
  }

  // ---- Resting orders -----------------------------------------------------------------------------

  lemma TriggeredMeans(o: Order, q: Quote)
    ensures TriggerPrice(o, q) == if o.price.Some? && o.price.value != 0.0 then o.price.value else (q.bid + q.ask) / 2.0
    ensures o.kind == Market ==> !Triggered(o, q)
    ensures o.kind == Limit && o.side == Buy ==> (Triggered(o, q) <==> q.ask <= TriggerPrice(o, q))
    ensures o.kind == Limit && o.side == Sell ==> (Triggered(o, q) <==> q.bid >= TriggerPrice(o, q))
    ensures o.kind == Stop && o.side == Buy ==> (Triggered(o, q) <==> q.ask >= TriggerPrice(o, q))
    ensures o.kind == Stop && o.side == Sell ==> (Triggered(o, q) <==> q.bid <= TriggerPrice(o, q))
  {
  }

  lemma OpenedMeans(c: Costs, o: Order, price: real)
    ensures Opened(c, o, price) == Position(o.symbol, o.side, o.volume,
      if o.side == Buy then price + c.PerFill(o.symbol) else price - c.PerFill(o.symbol), o.sl, o.tp, 0.0)
  {
    hide Costs.PerFill;
  }

  /**
   * On any run a quote fills a resting limit order if and only if it is at least as good as the order's price, and a
   * stop order if and only if it is at least as bad; without a price the mid stands for it. The fill is at that price.
   */
  lemma QuoteFillsExactlyWhen(c: Costs, initial: real, ops: seq<Op>, symbol: string, q: Quote, t: nat)
    requires t in After(c, initial, ops).pending && After(c, initial, ops).pending[t].symbol == symbol
    ensures var o, s' := After(c, initial, ops).pending[t], After(c, initial, ops + [QuoteOp(symbol, q)]);
      var price := if o.price.Some? && o.price.value != 0.0 then o.price.value else (q.bid + q.ask) / 2.0;
      var fills := match (o.kind, o.side) {
        case (Market, _) => false
        case (Limit, Buy) => q.ask <= price
        case (Limit, Sell) => q.bid >= price
        case (Stop, Buy) => q.ask >= price
        case (Stop, Sell) => q.bid <= price
      };
      if fills then
        && t !in s'.pending && t in s'.open
        && s'.open[t] == Position(symbol, o.side, o.volume,
             if o.side == Buy then price + c.PerFill(symbol) else price - c.PerFill(symbol), o.sl, o.tp, 0.0)
      else t in s'.pending && s'.pending[t] == o && t !in s'.open
  {
    hide OnQuote, Triggered, TriggerPrice, Opened, Run, Costs.PerFill;
    var s := After(c, initial, ops);
    var o := s.pending[t];
    AfterOneMore(c, initial, ops, QuoteOp(symbol, q));
    var s' := OnQuote(c, s, symbol, q);
    QuoteByTicket(c, s, symbol, q, t);
    assert CellOf(s', t) == QuoteCell(c, CellOf(s, t), symbol, q);
    assert Places(s, t) <= 1;
    TriggeredMeans(o, q);
    OpenedMeans(c, o, TriggerPrice(o, q));
  }

  // ---- Orders and requests ------------------------------------------------------------------------

  /** Where a market order is filled: at the last quote of its symbol, or without one at the price it names. */
  function MarketBase(s: State, o: Order): real {
    if o.symbol in s.quotes then (if o.side == Buy then s.quotes[o.symbol].ask else s.quotes[o.symbol].bid)
    else if o.price.Some? then o.price.value else 0.0
  }

  /**
   * Placing an order uses up the next ticket. A market order opens a position with the order's volume and levels, or is
   * rejected without a positive price; every other order rests as it is.
   */
  lemma PlacingExactly(c: Costs, s: State, o: Order)
    ensures var (s', r) := PlaceOrder(c, s, o);
      var t := s.next;
      var base := if o.symbol in s.quotes then (if o.side == Buy then s.quotes[o.symbol].ask else s.quotes[o.symbol].bid)
                  else if o.price.Some? then o.price.value else 0.0;
      && s' == (if o.kind != Market then s.(next := t + 1, pending := s.pending[t := o])
                else if base <= 0.0 then s.(next := t + 1, rejected := s.rejected + {t})
                else s.(next := t + 1, open := s.open[t := Position(o.symbol, o.side, o.volume,
                  if o.side == Buy then base + c.PerFill(o.symbol) else base - c.PerFill(o.symbol), o.sl, o.tp, 0.0)]))
      && r == (if o.kind != Market then Done(t, None)
               else if base <= 0.0 then NoQuoteForSymbol
               else Done(t, Some(if o.side == Buy then base + c.PerFill(o.symbol) else base - c.PerFill(o.symbol))))
  {
    hide Costs.PerFill;
    OpenedMeans(c, o, MarketBase(s, o));
  }

  /**
   * Closing an open position realizes it at its side of the last quote, a fill's cost away, or at its entry without a
   * quote; cancelling takes effect on exactly the pending tickets and closing on exactly the open ones.
   */
  lemma RequestsExactly(c: Costs, s: State, t: nat)
    ensures var (s', r) := CancelOrder(s, t);
      if t in s.pending then
        s' == s.(pending := s.pending - {t}, cancelled := s.cancelled + {t}) && r == Done(t, None)
      else s' == s && r == NotFound
    ensures var (s', r) := ClosePosition(c, s, t);
      if t in s.open then
        var p, k := s.open[t], c.PerFill(s.open[t].symbol);
        && t in s'.closed
        && var trade := s'.closed[t];
           && trade.position == p
           && trade.exit == (if p.symbol !in s.quotes then (if p.side == Buy then p.entry - k else p.entry + k)
                             else if p.side == Buy then s.quotes[p.symbol].bid - k else s.quotes[p.symbol].ask + k)
           && (p.side == Buy ==> trade.pnl == (trade.exit - p.entry) * p.volume)
           && (p.side == Sell ==> trade.pnl == (p.entry - trade.exit) * p.volume)
           && s' == s.(balance := s.balance + trade.pnl, realized := s.realized + trade.pnl, open := s.open - {t},
                       closed := s.closed[t := trade])
           && r == Done(t, Some(trade.exit))
      else s' == s && r == NotFound
  {
    hide Costs.PerFill, ClosedAt, CloseAll;
    if t in s.open {
      var p := s.open[t];
      CloseOne(c, s, t);
      ClosedMeans(c, p, ExitQuote(s.quotes, p));
      var trade := ClosedAt(c, p, ExitQuote(s.quotes, p));
      assert s.closed + map[t := trade] == s.closed[t := trade];
    }
  }

  /** Buying and at once selling under one quote costs the quoted spread, the broker's spread and twice the slippage. */
  lemma RoundTripCost(c: Costs, s: State, o: Order, q: Quote)
    requires o.kind == Market && o.symbol in s.quotes && s.quotes[o.symbol] == q && 0.0 < q.bid <= q.ask
    ensures var pip := if o.symbol in c.pipSize then c.pipSize[o.symbol] else 0.0001;
      var s' := ClosePosition(c, PlaceOrder(c, s, o).0, s.next).0;
      s'.balance == s.balance - (q.ask - q.bid + (c.spreadPips + 2.0 * c.slippagePips) * pip) * o.volume
  {
    hide PlaceOrder, ClosePosition, Costs.PerFill;
    var pip := if o.symbol in c.pipSize then c.pipSize[o.symbol] else 0.0001;
    var s1 := PlaceOrder(c, s, o).0;
    PlacingExactly(c, s, o);
    RequestsExactly(c, s1, s.next);
    FillCost(c, o.symbol);
    var k := c.PerFill(o.symbol);
    assert 2.0 * k == (c.spreadPips + 2.0 * c.slippagePips) * pip by { TwoFills(c.spreadPips, c.slippagePips, pip); }
    var p := s1.open[s.next];
    assert (if p.side == Buy then (q.bid - k) - p.entry else p.entry - (q.ask + k)) == -(q.ask - q.bid + 2.0 * k);
    Negated(q.ask - q.bid + 2.0 * k, o.volume);
  }

  lemma TwoFills(spread: real, slippage: real, pip: real)
    ensures 2.0 * ((spread / 2.0 + slippage) * pip) == (spread + 2.0 * slippage) * pip
  {
  }

  lemma Negated(x: real, v: real)
    ensures (-x) * v == -(x * v)
  {
  }

  // ---- Where positions come from ------------------------------------------------------------------

  ghost function OrdersPlaced(ops: seq<Op>): nat {
    if ops == [] then 0 else OrdersPlaced(ops[..|ops| - 1]) + if ops[|ops| - 1].PlaceOp? then 1 else 0
  }

  /** The t-th order placed. */
  ghost function OrderNumber(ops: seq<Op>, t: nat): Option<Order> {
    if ops == [] then None else
      var prior, op := ops[..|ops| - 1], ops[|ops| - 1];
      if op.PlaceOp? && OrdersPlaced(prior) + 1 == t then Some(op.order) else OrderNumber(prior, t)
  }

  datatype Levels = Levels(sl: Option<real>, tp: Option<real>)

  /** The levels of the t-th order, as changed by the later requests to modify it while it was open. */
  ghost function LevelsNumber(c: Costs, initial: real, ops: seq<Op>, t: nat): Levels {
    if ops == [] then Levels(None, None) else
      var prior, op := ops[..|ops| - 1], ops[|ops| - 1];
      var before := LevelsNumber(c, initial, prior, t);
      if op.PlaceOp? && OrdersPlaced(prior) + 1 == t then Levels(op.order.sl, op.order.tp)
      else if op.ModifyOp? && op.ticket == t && t in After(c, initial, prior).open then
        Levels(if op.sl.Some? then op.sl else before.sl, if op.tp.Some? then op.tp else before.tp)
      else before
  }

  ghost predicate ComesFrom(p: Position, o: Option<Order>, v: Levels) {
    o.Some? && p.symbol == o.value.symbol && p.side == o.value.side && p.volume == o.value.volume &&
    p.sl == v.sl && p.tp == v.tp
  }

  ghost predicate Traced(c: Costs, initial: real, ops: seq<Op>, t: nat) {
    var s := After(c, initial, ops);
    && (t in s.pending ==> OrderNumber(ops, t) == Some(s.pending[t]))
    && (t in s.pending ==> LevelsNumber(c, initial, ops, t) == Levels(s.pending[t].sl, s.pending[t].tp))
    && (t in s.open ==> ComesFrom(s.open[t], OrderNumber(ops, t), LevelsNumber(c, initial, ops, t)))
    && (t in s.closed ==> ComesFrom(s.closed[t].position, OrderNumber(ops, t), LevelsNumber(c, initial, ops, t)))
  }

  /**
   * On every run ticket t is the t-th order placed. While it rests it is that order; once it is a position, and in the
   * ledger, it has the order's symbol, side and volume, and the order's levels as last modified while it was open.
   */
  lemma {:induction false} EveryPositionIsTraced(c: Costs, initial: real, ops: seq<Op>, t: nat)
    ensures After(c, initial, ops).next == OrdersPlaced(ops) + 1
    ensures Traced(c, initial, ops, t)
  {
    hide Step, Traced, Run;
    if ops == [] {
      NothingTraced(c, initial, t);
    } else {
      var prior, op := ops[..|ops| - 1], ops[|ops| - 1];
      assert prior + [op] == ops;
      EveryPositionIsTraced(c, initial, prior, t);
      AfterOneMore(c, initial, prior, op);
      StepIsTraced(c, initial, prior, op, t);
    }
  }

  lemma NothingTraced(c: Costs, initial: real, t: nat)
    ensures Traced(c, initial, [], t) && After(c, initial, []).next == 1
  {
  }

  /** What one operation may do to one ticket and to the ticket counter. */
  ghost predicate CellMoves(c: Costs, s: State, op: Op, s': State, t: nat) {
    var x, y := CellOf(s, t), CellOf(s', t);
    match op
    case PlaceOp(o) =>
      && s'.next == s.next + 1
      && (if t != s.next then y == x else
            && x == Cell(None, None, None) && y.closed == None
            && (y.pending.Some? ==> y.pending.value == o)
            && (y.open.Some? ==> ComesFrom(y.open.value, Some(o), Levels(o.sl, o.tp))))
    case ModifyOp(u, sl, tp) =>
      && s'.next == s.next
      && (if t == u && x.open.Some? then
            y == x.(open := Some(x.open.value.(sl := if sl.Some? then sl else x.open.value.sl,
                                               tp := if tp.Some? then tp else x.open.value.tp)))
          else y == x)
    case _ =>
      && s'.next == s.next
      && (y.pending.Some? ==> y.pending == x.pending)
      && (y.open.Some? ==> (x.open.Some? && SameOrigin(y.open.value, x.open.value)) ||
                           (x.pending.Some? && ComesFrom(y.open.value, x.pending, Levels(x.pending.value.sl, x.pending.value.tp))))
      && (y.closed.Some? ==> y.closed == x.closed || (x.open.Some? && SameOrigin(y.closed.value.position, x.open.value)))
  }

  predicate SameOrigin(p: Position, p': Position) {
    p.symbol == p'.symbol && p.side == p'.side && p.volume == p'.volume && p.sl == p'.sl && p.tp == p'.tp
  }

  lemma StepMovesCell(c: Costs, s: State, op: Op, t: nat)
    requires OnePlaceEach(s)
    ensures CellMoves(c, s, op, Step(c, s, op), t)
  {
    hide OnQuote, CloseAll, ClosedAt, PlaceOrder, Marked, Triggered, Hit, CellMoves;
    match op {
      case QuoteOp(symbol, q) => assert CellMoves(c, s, op, Step(c, s, op), t) by { QuoteOpMoves(c, s, symbol, q, t); }
      case CloseOp(u) => assert CellMoves(c, s, op, Step(c, s, op), t) by { CloseOpMoves(c, s, u, t); }
      case PlaceOp(o) => assert CellMoves(c, s, op, Step(c, s, op), t) by { PlaceOpMoves(c, s, o, t); }
      case CancelOp(u) => assert CellMoves(c, s, op, Step(c, s, op), t) by { CancelOpMoves(c, s, u, t); }
      case ModifyOp(u, sl, tp) => assert CellMoves(c, s, op, Step(c, s, op), t) by { ModifyOpMoves(c, s, u, sl, tp, t); }
    }
  }

  lemma QuoteOpMoves(c: Costs, s: State, symbol: string, q: Quote, t: nat)
    requires OnePlaceEach(s)
    ensures CellMoves(c, s, QuoteOp(symbol, q), OnQuote(c, s, symbol, q), t)
  {
    hide OnQuote, QuoteCell, SameOrigin, ComesFrom;
    QuoteRest(c, s, symbol, q);
    QuoteByTicket(c, s, symbol, q, t);
    QuoteMovesCell(c, CellOf(s, t), symbol, q);
  }

  lemma CloseOpMoves(c: Costs, s: State, u: nat, t: nat)
    requires OnePlaceEach(s)
    ensures CellMoves(c, s, CloseOp(u), ClosePosition(c, s, u).0, t)
  {
    hide ClosedAt, CloseAll, ComesFrom;
    if u in s.open {
      CloseOne(c, s, u);
      ClosedMeans(c, s.open[u], ExitQuote(s.quotes, s.open[u]));
    }
  }

  lemma PlaceOpMoves(c: Costs, s: State, o: Order, t: nat)
    requires OnePlaceEach(s)
    ensures CellMoves(c, s, PlaceOp(o), PlaceOrder(c, s, o).0, t)
  {
    hide Opened;
    assert Places(s, s.next) == 0;
    OpenedMeans(c, o, MarketBase(s, o));
  }

  lemma CancelOpMoves(c: Costs, s: State, u: nat, t: nat)
    ensures CellMoves(c, s, CancelOp(u), CancelOrder(s, u).0, t)
  {
  }

  lemma ModifyOpMoves(c: Costs, s: State, u: nat, sl: Option<real>, tp: Option<real>, t: nat)
    ensures CellMoves(c, s, ModifyOp(u, sl, tp), ModifyPosition(s, u, sl, tp).0, t)
  {
  }

  lemma QuoteMovesCell(c: Costs, x: Cell, symbol: string, q: Quote)
    ensures var y := QuoteCell(c, x, symbol, q);
      && (y.pending.Some? ==> y.pending == x.pending)
      && (y.open.Some? ==> (x.open.Some? && SameOrigin(y.open.value, x.open.value)) ||
                           (x.pending.Some? && ComesFrom(y.open.value, x.pending, Levels(x.pending.value.sl, x.pending.value.tp))))
      && (y.closed.Some? ==> y.closed == x.closed || (x.open.Some? && SameOrigin(y.closed.value.position, x.open.value)))
  {
    hide ClosedAt, Marked, Opened, Triggered, Hit;
    if x.open.Some? {
      MarkedMeans(x.open.value, q);
      ClosedMeans(c, Marked(x.open.value, q), q);
    }
    if x.pending.Some? { OpenedMeans(c, x.pending.value, TriggerPrice(x.pending.value, q)); }
  }

  lemma StepIsTraced(c: Costs, initial: real, prior: seq<Op>, op: Op, t: nat)
    requires Traced(c, initial, prior, t) && After(c, initial, prior).next == OrdersPlaced(prior) + 1
    ensures Traced(c, initial, prior + [op], t) && After(c, initial, prior + [op]).next == OrdersPlaced(prior + [op]) + 1
  {
    hide Step, Run;
    var s := After(c, initial, prior);
    AfterOneMore(c, initial, prior, op);
    StepMovesCell(c, s, op, t);
    assert (prior + [op])[..|prior|] == prior;
    assert Places(s, t) <= 1;
  }
}
