/** The in-memory paper exchange: its state, what each operation does to it, and the mutable broker that does it. */
module PaperBroker {
  import opened Basics

  datatype Side = Buy | Sell {
    function Opposite(): Side { if Buy? then Sell else Buy }
    function Sign(): real { if Buy? then 1.0 else -1.0 }
  }

  datatype OrderType = Market | Limit | Stop

  datatype Order = Order(symbol: string, side: Side, volume: real, kind: OrderType,
                         price: Option<real>, sl: Option<real>, tp: Option<real>)

  datatype Quote = Quote(bid: real, ask: real) {
    function Mid(): real { (bid + ask) / 2.0 }
    /** The side of the quote a market order on `side` is filled at. */
    function Base(side: Side): real { if side.Buy? then ask else bid }
  }

  datatype Position = Position(symbol: string, side: Side, volume: real, entry: real,
                               sl: Option<real>, tp: Option<real>, unrealized: real)

  datatype ClosedTrade = ClosedTrade(position: Position, exit: real, pnl: real)

  datatype Result = Done(ticket: nat, fill: Option<real>) | NoQuoteForSymbol | NotFound

  datatype Costs = Costs(slippagePips: real, spreadPips: real, pipSize: map<string, real>) {
    function Pip(symbol: string): real {
      if symbol in pipSize then pipSize[symbol] else 0.0001
    }

    /** What one fill costs in price terms: half the spread plus the slippage. */
    function PerFill(symbol: string): real {
      spreadPips * Pip(symbol) / 2.0 + slippagePips * Pip(symbol)
    }

    function Apply(symbol: string, side: Side, price: real): real {
      if side.Buy? then price + PerFill(symbol) else price - PerFill(symbol)
    }
  }

  /** The fields of the broker together with the history that the broker itself does not keep. */
  datatype State = State(
    balance: real, realized: real,
    open: map<nat, Position>, pending: map<nat, Order>, quotes: map<string, Quote>, next: nat,
    closed: map<nat, ClosedTrade>, cancelled: set<nat>, rejected: set<nat>)

  function Init(balance: real): State {
    State(balance, 0.0, map[], map[], map[], 1, map[], {}, {})
  }

  // ---- Single positions and orders ----------------------------------------------------------------

  function Opened(c: Costs, o: Order, price: real): Position {
    Position(o.symbol, o.side, o.volume, c.Apply(o.symbol, o.side, price), o.sl, o.tp, 0.0)
  }

  function ExitQuote(quotes: map<string, Quote>, p: Position): Quote {
    if p.symbol in quotes then quotes[p.symbol] else Quote(p.entry, p.entry)
  }

  function ClosedAt(c: Costs, p: Position, q: Quote): ClosedTrade {
    var exit := c.Apply(p.symbol, p.side.Opposite(), q.Base(p.side.Opposite()));
    ClosedTrade(p, exit, (exit - p.entry) * p.side.Sign() * p.volume)
  }

  function Marked(p: Position, q: Quote): Position {
    p.(unrealized := if p.side.Buy? then (q.bid - p.entry) * p.volume else (p.entry - q.ask) * p.volume)
  }

  /** The stop or the target of a position is touched by a quote. */
  predicate Hit(p: Position, q: Quote) {
    match p.side
    case Buy => (p.sl.Some? && q.bid <= p.sl.value) || (p.tp.Some? && q.ask >= p.tp.value)
    case Sell => (p.sl.Some? && q.ask >= p.sl.value) || (p.tp.Some? && q.bid <= p.tp.value)
  }

  /** A missing or zero price means the given default. */
  function PriceOr(o: Order, default: real): real {
    if o.price.Some? && o.price.value != 0.0 then o.price.value else default
  }

  function TriggerPrice(o: Order, q: Quote): real { PriceOr(o, q.Mid()) }

  predicate Triggered(o: Order, q: Quote) {
    var price := TriggerPrice(o, q);
    match o.kind
    case Market => false
    case Limit => if o.side.Buy? then q.ask <= price else q.bid >= price
    case Stop => if o.side.Buy? then q.ask >= price else q.bid <= price
  }

  // ---- What each operation does to the state ------------------------------------------------------

  function PlaceOrder(c: Costs, s: State, o: Order): (State, Result) {
    var t, s1 := s.next, s.(next := s.next + 1);
    if o.kind.Market? then
      var q := if o.symbol in s.quotes then s.quotes[o.symbol] else Quote(o.price.GetOr(0.0), o.price.GetOr(0.0));
      var base := q.Base(o.side);
      if base <= 0.0 then (s1.(rejected := s.rejected + {t}), NoQuoteForSymbol)
      else
        var p := Opened(c, o, base);
        (s1.(open := s.open[t := p]), Done(t, Some(p.entry)))
    else (s1.(pending := s.pending[t := o]), Done(t, None))
  }

  ghost function ClosePosition(c: Costs, s: State, t: nat): (State, Result) {
    if t !in s.open then (s, NotFound)
    else (CloseAll(c, s, {t}), Done(t, Some(ClosedAt(c, s.open[t], ExitQuote(s.quotes, s.open[t])).exit)))
  }

  function CancelOrder(s: State, t: nat): (State, Result) {
    if t in s.pending
    then (s.(pending := s.pending - {t}, cancelled := s.cancelled + {t}), Done(t, None))
    else (s, NotFound)
  }

  function ModifyPosition(s: State, t: nat, sl: Option<real>, tp: Option<real>): (State, Result) {
    if t !in s.open then (s, NotFound)
    else
      var p := s.open[t];
      (s.(open := s.open[t := p.(sl := if sl.Some? then sl else p.sl, tp := if tp.Some? then tp else p.tp)]),
       Done(t, None))
  }

  function MarkIf(p: Position, symbol: string, q: Quote): Position {
    if p.symbol == symbol then Marked(p, q) else p
  }

  function MarkAll(s: State, symbol: string, q: Quote): State {
    s.(quotes := s.quotes[symbol := q], open := MarkMap(s.open, symbol, q))
  }

  function MarkMap(open: map<nat, Position>, symbol: string, q: Quote): map<nat, Position> {
    map t | t in open :: MarkIf(open[t], symbol, q)
  }

  predicate ToClose(p: Position, symbol: string, q: Quote) { p.symbol == symbol && Hit(p, q) }

  function HitTickets(s: State, symbol: string, q: Quote): set<nat> {
    set t | t in s.open && ToClose(s.open[t], symbol, q)
  }

  function Closings(c: Costs, s: State, ts: set<nat>): map<nat, ClosedTrade>
    requires ts <= s.open.Keys
  {
    map t | t in ts :: ClosedAt(c, s.open[t], ExitQuote(s.quotes, s.open[t]))
  }

  function Pnls(m: map<nat, ClosedTrade>): map<nat, real> { map t | t in m :: m[t].pnl }

  ghost function TotalPnl(m: map<nat, ClosedTrade>): real { Sum(Pnls(m)) }

  /** Realize a set of trades: each leaves the open map, enters the ledger and moves the balance. */
  ghost function Book(s: State, trades: map<nat, ClosedTrade>): State {
    s.(balance := s.balance + TotalPnl(trades), realized := s.realized + TotalPnl(trades),
       open := s.open - trades.Keys, closed := s.closed + trades)
  }

  /** Close a whole set of positions at once; the order in which a sweep visits them plays no part. */
  ghost function CloseAll(c: Costs, s: State, ts: set<nat>): State
    requires ts <= s.open.Keys
  {
    Book(s, Closings(c, s, ts))
  }

  predicate ToFill(o: Order, symbol: string, q: Quote) { o.symbol == symbol && Triggered(o, q) }

  function TriggeredTickets(s: State, symbol: string, q: Quote): set<nat> {
    set t | t in s.pending && ToFill(s.pending[t], symbol, q)
  }

  function FillOf(c: Costs, o: Order, q: Quote): Position { Opened(c, o, TriggerPrice(o, q)) }

  function Fills(c: Costs, pending: map<nat, Order>, ts: set<nat>, q: Quote): map<nat, Position>
    requires ts <= pending.Keys
  {
    map t | t in ts :: FillOf(c, pending[t], q)
  }

  function FillAll(c: Costs, s: State, ts: set<nat>, q: Quote): State
    requires ts <= s.pending.Keys
  {
    s.(open := s.open + Fills(c, s.pending, ts, q), pending := s.pending - ts)
  }

  ghost function OnQuote(c: Costs, s: State, symbol: string, q: Quote): State {
    var s1 := MarkAll(s, symbol, q);
    var s2 := CloseAll(c, s1, HitTickets(s1, symbol, q));
    FillAll(c, s2, TriggeredTickets(s2, symbol, q), q)
  }

  function Unrealized(m: map<nat, Position>): map<nat, real> { map t | t in m :: m[t].unrealized }

  ghost function Equity(s: State): real { s.balance + Sum(Unrealized(s.open)) }

  lemma TotalPnlAdd(m: map<nat, ClosedTrade>, t: nat, trade: ClosedTrade)
    requires t !in m
    ensures TotalPnl(m[t := trade]) == TotalPnl(m) + trade.pnl
  {
    SumAdd(Pnls(m), t, trade.pnl);
    assert Pnls(m[t := trade]) == Pnls(m)[t := trade.pnl];
  }

  lemma TotalPnlSmall(t: nat, trade: ClosedTrade)
    ensures TotalPnl(map[]) == 0.0
    ensures TotalPnl(map[t := trade]) == trade.pnl
  {
    assert Pnls(map[]) == map[];
    TotalPnlAdd(map[], t, trade);
  }

  lemma BookNothing(s: State)
    ensures Book(s, map[]) == s
  {
    assert Pnls(map[]) == map[];
    assert s.open - {} == s.open;
    assert s.closed + map[] == s.closed;
  }

  /** Realizing trades one after the other is the same as realizing them together. */
  lemma BookOneMore(s: State, trades: map<nat, ClosedTrade>, t: nat, trade: ClosedTrade)
    requires t !in trades
    ensures Book(s, trades[t := trade]) == Book(Book(s, trades), map[t := trade])
  {
    hide TotalPnl;
    TotalPnlAdd(trades, t, trade);
    TotalPnlSmall(t, trade);
    MapUnionPut(s.closed, trades, t, trade);
    MapMinusPut(s.open, trades, t, trade);
    assert (s.closed + trades)[t := trade] == (s.closed + trades) + map[t := trade];
    assert (map[t := trade]).Keys == {t};
  }

  lemma MapUnionPut<K, V>(m: map<K, V>, n: map<K, V>, k: K, v: V)
    ensures m + n[k := v] == (m + n)[k := v]
  {
  }

  lemma MapMinusPut<K, V, W>(m: map<K, V>, n: map<K, W>, k: K, v: W)
    ensures m - n[k := v].Keys == (m - n.Keys) - {k}
  {
    assert n[k := v].Keys == n.Keys + {k};
  }

  lemma CloseOne(c: Costs, s: State, t: nat)
    requires t in s.open
    ensures var trade := ClosedAt(c, s.open[t], ExitQuote(s.quotes, s.open[t]));
      CloseAll(c, s, {t}) == s.(balance := s.balance + trade.pnl, realized := s.realized + trade.pnl,
                                open := s.open - {t}, closed := s.closed + map[t := trade])
  {
    var trade := ClosedAt(c, s.open[t], ExitQuote(s.quotes, s.open[t]));
    var trades := map[t := trade];
    assert Closings(c, s, {t}) == trades;
    TotalPnlSmall(t, trade);
    assert trades.Keys == {t};
  }

  lemma CloseNone(c: Costs, s: State)
    ensures CloseAll(c, s, {}) == s
  {
    BookNothing(s);
    assert Closings(c, s, {}) == map[];
  }

  lemma CloseOneMore(c: Costs, s: State, ts: set<nat>, t: nat)
    requires ts <= s.open.Keys && t in s.open && t !in ts
    ensures t in CloseAll(c, s, ts).open
    ensures CloseAll(c, s, ts + {t}) == ClosePosition(c, CloseAll(c, s, ts), t).0
  {
    hide ClosedAt, TotalPnl;
    var trade := ClosedAt(c, s.open[t], ExitQuote(s.quotes, s.open[t]));
    assert Closings(c, s, ts + {t}) == Closings(c, s, ts)[t := trade];
    assert Closings(c, CloseAll(c, s, ts), {t}) == map[t := trade];
    BookOneMore(s, Closings(c, s, ts), t, trade);
  }

  lemma MarkKeeps(p: Position, q: Quote)
    ensures Marked(p, q).symbol == p.symbol
  {
  }

  /** A sweep that filled exactly the triggered orders reached the set-wise result. */
  lemma SweepFilled(c: Costs, s: State, filled: map<nat, Position>, symbol: string, q: Quote)
    requires filled.Keys <= s.pending.Keys
    requires forall t :: t in s.pending ==> (t in filled <==> ToFill(s.pending[t], symbol, q))
    requires forall t :: t in filled ==> filled[t] == FillOf(c, s.pending[t], q)
    ensures FillAll(c, s, TriggeredTickets(s, symbol, q), q) ==
      s.(open := s.open + filled, pending := s.pending - filled.Keys)
  {
    assert filled.Keys == TriggeredTickets(s, symbol, q);
    assert filled == Fills(c, s.pending, filled.Keys, q);
  }

  // ---- The broker ---------------------------------------------------------------------------------

  class Broker {
    const costs: Costs
    var balance: real
    var realized: real
    var open: map<nat, Position>
    var pending: map<nat, Order>
    var lastQuote: map<string, Quote>
    var nextTicket: nat
    ghost var closed: map<nat, ClosedTrade>
    ghost var cancelled: set<nat>
    ghost var rejected: set<nat>

    ghost function Model(): State
      reads this
    {
      State(balance, realized, open, pending, lastQuote, nextTicket, closed, cancelled, rejected)
    }

    constructor (initialBalance: real, costs: Costs)
      ensures this.costs == costs
      ensures Model() == Init(initialBalance)
    {
      this.costs := costs;
      balance, realized := initialBalance, 0.0;
      open, pending, lastQuote := map[], map[], map[];
      nextTicket := 1;
      closed, cancelled, rejected := map[], {}, {};
    }

    method Place(o: Order) returns (r: Result)
      modifies this
      ensures (Model(), r) == PlaceOrder(costs, old(Model()), o)
    {
      var ticket := nextTicket;
      nextTicket := nextTicket + 1;
      if o.kind.Market? {
        var q := Quote(o.price.GetOr(0.0), o.price.GetOr(0.0));
        if o.symbol in lastQuote { q := lastQuote[o.symbol]; }
        var base := if o.side.Buy? then q.ask else q.bid;
        if base <= 0.0 {
          rejected := rejected + {ticket};
          return NoQuoteForSymbol;
        }
        var fill := costs.Apply(o.symbol, o.side, base);
        open := open[ticket := Position(o.symbol, o.side, o.volume, fill, o.sl, o.tp, 0.0)];
        return Done(ticket, Some(fill));
      }
      pending := pending[ticket := o];
      r := Done(ticket, None);
    }

    method Close(ticket: nat) returns (r: Result)
      modifies this`balance, this`realized, this`open, this`closed
      ensures (Model(), r) == ClosePosition(costs, old(Model()), ticket)
    {
      hide Closings, Book, TotalPnl;
      if ticket !in open { return NotFound; }
      CloseOne(costs, Model(), ticket);
      var pos := open[ticket];
      var q := Quote(pos.entry, pos.entry);
      if pos.symbol in lastQuote { q := lastQuote[pos.symbol]; }
      var exitBase := if pos.side.Buy? then q.bid else q.ask;
      var exit := costs.Apply(pos.symbol, if pos.side.Buy? then Sell else Buy, exitBase);
      var pnl := (exit - pos.entry) * pos.side.Sign() * pos.volume;
      assert ClosedAt(costs, pos, ExitQuote(lastQuote, pos)) == ClosedTrade(pos, exit, pnl);
      balance := balance + pnl;
      realized := realized + pnl;
      open := open - {ticket};
      closed := closed + map[ticket := ClosedTrade(pos, exit, pnl)];
      r := Done(ticket, Some(exit));
      assert Model() == ClosePosition(costs, old(Model()), ticket).0;
    }

    method Cancel(ticket: nat) returns (r: Result)
      modifies this
      ensures (Model(), r) == CancelOrder(old(Model()), ticket)
    {
      if ticket in pending {
        pending := pending - {ticket};
        cancelled := cancelled + {ticket};
        return Done(ticket, None);
      }
      r := NotFound;
    }

    method Modify(ticket: nat, sl: Option<real>, tp: Option<real>) returns (r: Result)
      modifies this
      ensures (Model(), r) == ModifyPosition(old(Model()), ticket, sl, tp)
    {
      if ticket !in open { return NotFound; }
      var pos := open[ticket];
      if sl.Some? { pos := pos.(sl := sl); }
      if tp.Some? { pos := pos.(tp := tp); }
      open := open[ticket := pos];
      r := Done(ticket, None);
    }

    /** One turn of the first sweep: the marked position, and whether its stop or target is hit. */
    static method MarkAndCheck(p: Position, bid: real, ask: real) returns (pos: Position, hit: bool)
      ensures pos == Marked(p, Quote(bid, ask))
      ensures hit <==> Hit(pos, Quote(bid, ask))
    {
      hit := false;
      if p.side.Buy? {
        pos := p.(unrealized := (bid - p.entry) * p.volume);
        if pos.sl.Some? && bid <= pos.sl.value { hit := true; }
        else if pos.tp.Some? && ask >= pos.tp.value { hit := true; }
      } else {
        pos := p.(unrealized := (p.entry - ask) * p.volume);
        if pos.sl.Some? && ask >= pos.sl.value { hit := true; }
        else if pos.tp.Some? && bid <= pos.tp.value { hit := true; }
      }
    }

    /** First sweep: mark every position on the symbol and list those whose stop or target is hit. */
    method MarkSweep(symbol: string, bid: real, ask: real) returns (closedNow: seq<nat>)
      modifies this`lastQuote, this`open
      ensures Model() == MarkAll(old(Model()), symbol, Quote(bid, ask))
      ensures forall i, j :: 0 <= i < j < |closedNow| ==> closedNow[i] != closedNow[j]
      ensures forall t :: t in closedNow <==> t in HitTickets(Model(), symbol, Quote(bid, ask))
    {
      hide Marked, Hit;
      lastQuote := lastQuote[symbol := Quote(bid, ask)];
      ghost var q := Quote(bid, ask);
      ghost var before := open;
      closedNow := [];
      var todo := open.Keys;
      while todo != {}
        invariant todo <= open.Keys == before.Keys
        invariant lastQuote == old(lastQuote)[symbol := q]
        invariant forall t :: t in before && t in todo ==> open[t] == before[t]
        invariant forall t :: t in before && t !in todo ==> open[t] == MarkIf(before[t], symbol, q)
        invariant forall t :: t in closedNow <==> t in open && t !in todo && ToClose(open[t], symbol, q)
        invariant forall i, j :: 0 <= i < j < |closedNow| ==> closedNow[i] != closedNow[j]
        decreases todo
      {
        var t :| t in todo;
        todo := todo - {t};
        if open[t].symbol == symbol {
          var pos, hit := MarkAndCheck(open[t], bid, ask);
          assert pos.symbol == symbol by { MarkKeeps(open[t], q); }
          open := open[t := pos];
          if hit { closedNow := closedNow + [t]; }
        }
      }
      assert open == MarkMap(before, symbol, q);
    }

    /** Second sweep: close the listed positions one call at a time. */
    method CloseSweep(tickets: seq<nat>, ghost ts: set<nat>)
      requires forall i, j :: 0 <= i < j < |tickets| ==> tickets[i] != tickets[j]
      requires ts <= open.Keys && forall t :: t in tickets <==> t in ts
      modifies this`balance, this`realized, this`open, this`closed
      ensures Model() == CloseAll(costs, old(Model()), ts)
    {
      hide Book, Closings, ClosedAt;
      ghost var s := Model();
      ghost var done: set<nat> := {};
      CloseNone(costs, s);
      for i := 0 to |tickets|
        invariant done <= ts && forall t :: t in done <==> t in tickets[..i]
        invariant Model() == CloseAll(costs, s, done)
      {
        assert tickets[i] !in done;
        CloseOneMore(costs, s, done, tickets[i]);
        var _ := Close(tickets[i]);
        done := done + {tickets[i]};
      }
      assert tickets[..|tickets|] == tickets;
      assert done == ts;
    }

    /** One turn of the third sweep: the position an order would become, and whether the quote triggers it. */
    static method CheckTrigger(c: Costs, o: Order, symbol: string, bid: real, ask: real)
      returns (fill: Position, trigger: bool)
      ensures fill == FillOf(c, o, Quote(bid, ask))
      ensures trigger <==> ToFill(o, symbol, Quote(bid, ask))
    {
      var mid := (bid + ask) / 2.0;
      var price := PriceOr(o, mid);
      fill := Position(o.symbol, o.side, o.volume, c.Apply(o.symbol, o.side, price), o.sl, o.tp, 0.0);
      trigger := false;
      if o.symbol != symbol { return; }
      if o.kind.Limit? {
        trigger := (o.side.Buy? && ask <= price) || (o.side.Sell? && bid >= price);
      } else if o.kind.Stop? {
        trigger := (o.side.Buy? && ask >= price) || (o.side.Sell? && bid <= price);
      }
    }

    /** Third sweep: turn every triggered pending order on the symbol into a position. */
    method FillSweep(symbol: string, bid: real, ask: real)
      modifies this`open, this`pending
      ensures Model() ==
        FillAll(costs, old(Model()), TriggeredTickets(old(Model()), symbol, Quote(bid, ask)), Quote(bid, ask))
    {
      hide ToFill, FillOf, FillAll, TriggeredTickets;
      ghost var q, before, waiting := Quote(bid, ask), open, pending;
      ghost var filled: map<nat, Position> := map[];
      var todo := pending.Keys;
      assert before + filled == before;
      assert waiting - {} == waiting;
      while todo != {}
        invariant todo <= waiting.Keys && filled.Keys !! todo && filled.Keys <= waiting.Keys
        invariant open == before + filled
        invariant pending == waiting - filled.Keys
        invariant forall t :: t in waiting && t !in todo ==> (t in filled <==> ToFill(waiting[t], symbol, q))
        invariant forall t :: t in filled ==> filled[t] == FillOf(costs, waiting[t], q)
        decreases todo
      {
        var t :| t in todo;
        todo := todo - {t};
        var fill, trigger := CheckTrigger(costs, pending[t], symbol, bid, ask);
        if trigger {
          MapUnionPut(before, filled, t, fill);
          MapMinusPut(waiting, filled, t, fill);
          open := open[t := fill];
          pending := pending - {t};
          filled := filled[t := fill];
        }
      }
      SweepFilled(costs, old(Model()), filled, symbol, q);
    }

    /** Feed a quote: mark, close what is hit, then fill what is triggered. */
    method Quoted(symbol: string, bid: real, ask: real)
      modifies this
      ensures Model() == OnQuote(costs, old(Model()), symbol, Quote(bid, ask))
    {
      hide CloseAll, FillAll, ToClose, ToFill, MarkMap;
      var closedNow := MarkSweep(symbol, bid, ask);
      CloseSweep(closedNow, HitTickets(Model(), symbol, Quote(bid, ask)));
      FillSweep(symbol, bid, ask);
    }

    method AccountEquity() returns (equity: real)
      ensures equity == Equity(Model())
    {
      var total := 0.0;
      var todo := open.Keys;
      ghost var seen: map<nat, real> := map[];
      while todo != {}
        invariant todo <= open.Keys
        invariant seen == map t | t in open.Keys - todo :: open[t].unrealized
        invariant total == Sum(seen)
        decreases todo
      {
        var t :| t in todo;
        todo := todo - {t};
        SumAdd(seen, t, open[t].unrealized);
        total := total + open[t].unrealized;
        seen := seen[t := open[t].unrealized];
      }
      assert seen == Unrealized(open);
      equity := balance + total;
    }
  }
}
