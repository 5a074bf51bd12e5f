/** How much a trade can earn when quotes stay in a band, and which orders can profit without any price movement. */
module PaperBrokerBands {
  import opened Basics
  import opened PaperBroker
  import opened PaperBrokerRuns
  import opened PaperBrokerQuotes

  /** For one symbol: the lowest ask, the highest bid, the range of the mid price, and the most that one unit may earn. */
  datatype Band = Band(lo: real, hi: real, midLo: real, midHi: real, gain: real)

  predicate QuoteInBand(q: Quote, b: Band) {
    b.lo <= q.ask && q.bid <= b.hi && b.midLo <= q.Mid() <= b.midHi
  }

  /** A fill at this price, costs added, cannot earn more than the gain anywhere in the band. */
  predicate FillInBand(c: Costs, symbol: string, side: Side, price: real, b: Band) {
    var reach := 2.0 * c.PerFill(symbol) + b.gain;
    if side.Buy? then b.hi - reach <= price else price <= b.lo + reach
  }

  /** The price in the band that suits the order's owner best: a stop's own one, or the best side of a quote. */
  function BestFill(o: Order, b: Band): real {
    match o.kind
    case Stop => PriceOr(o, if o.side.Buy? then b.midLo else b.midHi)
    case _ => if o.side.Buy? then b.lo else b.hi
  }

  predicate OrderInBand(c: Costs, o: Order, b: Band) {
    0.0 <= o.volume && FillInBand(c, o.symbol, o.side, BestFill(o, b), b)
  }

  predicate PositionInBand(c: Costs, p: Position, b: Band) {
    HoldingInBand(p.side, p.volume, p.entry, p.unrealized, c.PerFill(p.symbol), b)
  }

  predicate HoldingInBand(side: Side, volume: real, entry: real, unrealized: real, k: real, b: Band) {
    && 0.0 <= volume
    && (if side.Buy? then b.hi - k - b.gain <= entry else entry <= b.lo + k + b.gain)
    && unrealized <= Max(0.0, (b.gain + k) * volume)
  }

  predicate TradeInBand(trade: ClosedTrade, b: Band) {
    0.0 <= trade.position.volume && trade.pnl <= b.gain * trade.position.volume
  }

  ghost predicate InBand(c: Costs, s: State, bands: string -> Band) {
    && (forall y :: y in s.quotes ==> QuoteInBand(s.quotes[y], bands(y)))
    && (forall t :: t in s.open ==> s.open[t].symbol in s.quotes && PositionInBand(c, s.open[t], bands(s.open[t].symbol)))
    && (forall t :: t in s.pending ==> OrderInBand(c, s.pending[t], bands(s.pending[t].symbol)))
    && (forall t :: t in s.closed ==> TradeInBand(s.closed[t], bands(s.closed[t].position.symbol)))
  }

  /** Quotes stay in the band; market orders come after a first quote of their symbol. */
  ghost predicate Admissible(c: Costs, s: State, op: Op, bands: string -> Band) {
    match op
    case QuoteOp(symbol, q) => QuoteInBand(q, bands(symbol))
    case PlaceOp(o) => OrderInBand(c, o, bands(o.symbol)) && (o.kind.Market? ==> o.symbol in s.quotes)
    case _ => true
  }

  ghost predicate AdmissibleRun(c: Costs, s: State, ops: seq<Op>, bands: string -> Band) {
    ops != [] ==>
      AdmissibleRun(c, s, ops[..|ops| - 1], bands) &&
      Admissible(c, Run(c, s, ops[..|ops| - 1]), ops[|ops| - 1], bands)
  }

  /** How far the quote has moved in favour of a position. */
  function Move(p: Position, q: Quote): real { if p.side.Buy? then q.bid - p.entry else p.entry - q.ask }

  lemma CloseInBand(c: Costs, p: Position, q: Quote, b: Band)
    requires PositionInBand(c, p, b) && QuoteInBand(q, b)
    ensures TradeInBand(ClosedAt(c, p, q), b)
  {
    var reach := b.gain + c.PerFill(p.symbol);
    MarkedPnl(c, p, q);
    TimesMono(Move(p, q), reach, p.volume, Marked(p, q).unrealized, reach * p.volume);
    assert reach * p.volume == b.gain * p.volume + c.PerFill(p.symbol) * p.volume;
  }

  lemma MarkInBand(c: Costs, p: Position, q: Quote, b: Band)
    requires PositionInBand(c, p, b) && QuoteInBand(q, b)
    ensures PositionInBand(c, Marked(p, q), b)
  {
    var reach := b.gain + c.PerFill(p.symbol);
    TimesMono(Move(p, q), reach, p.volume, Marked(p, q).unrealized, reach * p.volume);
  }

  lemma OpenInBand(c: Costs, o: Order, price: real, b: Band)
    requires 0.0 <= o.volume && FillInBand(c, o.symbol, o.side, price, b)
    ensures PositionInBand(c, Opened(c, o, price), b)
  {
  }

  lemma TriggeredInBand(c: Costs, o: Order, q: Quote, b: Band)
    requires OrderInBand(c, o, b) && Triggered(o, q) && QuoteInBand(q, b)
    ensures PositionInBand(c, FillOf(c, o, q), b)
  {
    OpenInBand(c, o, TriggerPrice(o, q), b);
  }

  ghost predicate CellInBand(c: Costs, x: Cell, bands: string -> Band) {
    && (x.open.Some? ==> PositionInBand(c, x.open.value, bands(x.open.value.symbol)))
    && (x.pending.Some? ==> OrderInBand(c, x.pending.value, bands(x.pending.value.symbol)))
    && (x.closed.Some? ==> TradeInBand(x.closed.value, bands(x.closed.value.position.symbol)))
  }

  lemma QuoteCellInBand(c: Costs, x: Cell, symbol: string, q: Quote, bands: string -> Band)
    requires CellInBand(c, x, bands) && QuoteInBand(q, bands(symbol))
    ensures var y := QuoteCell(c, x, symbol, q);
      && CellInBand(c, y, bands)
      && (y.open.Some? ==> y.open.value.symbol == symbol || (x.open.Some? && y.open.value.symbol == x.open.value.symbol))
  {
    hide PositionInBand, OrderInBand, TradeInBand, Triggered, Hit, ClosedAt;
    if x.open.Some? && x.open.value.symbol == symbol {
      MarkKeeps(x.open.value, q);
      MarkInBand(c, x.open.value, q, bands(symbol));
      CloseInBand(c, Marked(x.open.value, q), q, bands(symbol));
      ClosedKeeps(c, Marked(x.open.value, q), q);
    } else if x.pending.Some? && ToFill(x.pending.value, symbol, q) {
      TriggeredInBand(c, x.pending.value, q, bands(symbol));
      FillKeeps(c, x.pending.value, q);
    }
  }

  lemma ClosedKeeps(c: Costs, p: Position, q: Quote)
    ensures ClosedAt(c, p, q).position == p
  {
  }

  lemma QuoteStaysInBand(c: Costs, s: State, symbol: string, q: Quote, bands: string -> Band)
    requires OnePlaceEach(s) && InBand(c, s, bands) && QuoteInBand(q, bands(symbol))
    ensures InBand(c, OnQuote(c, s, symbol, q), bands)
  {
    hide PositionInBand, OrderInBand, TradeInBand, OnQuote, QuoteCell;
    var s' := OnQuote(c, s, symbol, q);
    QuoteRest(c, s, symbol, q);
    forall t: nat
      ensures CellInBand(c, CellOf(s', t), bands)
      ensures t in s'.open ==> s'.open[t].symbol in s'.quotes
    {
      QuoteByTicket(c, s, symbol, q, t);
      QuoteCellInBand(c, CellOf(s, t), symbol, q, bands);
    }
    CellsInBand(c, s', bands);
  }

  lemma StepInBand(c: Costs, s: State, op: Op, bands: string -> Band)
    requires OnePlaceEach(s) && InBand(c, s, bands) && Admissible(c, s, op, bands)
    ensures InBand(c, Step(c, s, op), bands)
  {
    hide PositionInBand, OrderInBand, TradeInBand, OnQuote, ClosedAt, Opened, QuoteCell, CloseAll;
    var s' := Step(c, s, op);
    match op {
      case QuoteOp(symbol, q) =>
        QuoteStaysInBand(c, s, symbol, q, bands);
      case CloseOp(t) =>
        if t in s.open {
          var p := s.open[t];
          CloseOne(c, s, t);
          CloseInBand(c, p, s.quotes[p.symbol], bands(p.symbol));
          ClosedKeeps(c, p, s.quotes[p.symbol]);
        }
      case PlaceOp(o) => PlaceInBand(c, s, o, bands);
      case CancelOp(_) =>
      case ModifyOp(t, sl, tp) =>
        if t in s.open { ModifyInBand(c, s.open[t], s'.open[t], bands(s.open[t].symbol)); }
    }
  }

  lemma CellsInBand(c: Costs, s: State, bands: string -> Band)
    requires forall t: nat :: CellInBand(c, CellOf(s, t), bands)
    ensures forall t :: t in s.open ==> PositionInBand(c, s.open[t], bands(s.open[t].symbol))
    ensures forall t :: t in s.pending ==> OrderInBand(c, s.pending[t], bands(s.pending[t].symbol))
    ensures forall t :: t in s.closed ==> TradeInBand(s.closed[t], bands(s.closed[t].position.symbol))
  {
    hide PositionInBand, OrderInBand, TradeInBand;
    forall t: nat
      ensures t in s.open ==> PositionInBand(c, s.open[t], bands(s.open[t].symbol))
      ensures t in s.pending ==> OrderInBand(c, s.pending[t], bands(s.pending[t].symbol))
      ensures t in s.closed ==> TradeInBand(s.closed[t], bands(s.closed[t].position.symbol))
    {
      assert CellInBand(c, CellOf(s, t), bands);
    }
  }

  lemma ModifyInBand(c: Costs, p: Position, p': Position, b: Band)
    requires PositionInBand(c, p, b) && p' == p.(sl := p'.sl, tp := p'.tp)
    ensures PositionInBand(c, p', b)
  {
    hide HoldingInBand;
  }

  lemma PlaceInBand(c: Costs, s: State, o: Order, bands: string -> Band)
    requires InBand(c, s, bands) && Admissible(c, s, PlaceOp(o), bands)
    ensures InBand(c, PlaceOrder(c, s, o).0, bands)
  {
    hide PositionInBand, TradeInBand, Opened;
    if o.kind.Market? {
      var base := s.quotes[o.symbol].Base(o.side);
      OpenInBand(c, o, base, bands(o.symbol));
      OpenedKeeps(c, o, base);
    }
  }

  lemma OpenedKeeps(c: Costs, o: Order, price: real)
    ensures Opened(c, o, price).symbol == o.symbol
  {
  }

  /**
   * However quotes, orders, closes, cancels and modifications interleave, no trade earns more per unit than the gain
   * that the band leaves to the orders placed.
   */
  lemma {:induction false} RunInBand(c: Costs, initial: real, ops: seq<Op>, bands: string -> Band)
    requires AdmissibleRun(c, Init(initial), ops, bands)
    ensures InBand(c, Run(c, Init(initial), ops), bands)
  {
    if ops != [] {
      RunInBand(c, initial, ops[..|ops| - 1], bands);
      RunKeepsBooks(c, initial, ops[..|ops| - 1]);
      StepInBand(c, Run(c, Init(initial), ops[..|ops| - 1]), ops[|ops| - 1], bands);
    }
  }

  /**
   * Where no order can gain, no closed trade has a positive result and the balance never exceeds the initial one;
   * where every order gives up at least one fill's cost, neither does equity.
   */
  lemma NoProfitWithoutMovement(c: Costs, initial: real, ops: seq<Op>, bands: string -> Band)
    requires AdmissibleRun(c, Init(initial), ops, bands)
    ensures var s := Run(c, Init(initial), ops);
      && ((forall y :: bands(y).gain <= 0.0) ==>
            s.balance <= initial && forall t :: t in s.closed ==> s.closed[t].pnl <= 0.0)
      && ((forall y :: bands(y).gain <= 0.0 && bands(y).gain + c.PerFill(y) <= 0.0) ==> Equity(s) <= initial)
  {
    hide PositionInBand, TradeInBand, OrderInBand, Run, AdmissibleRun;
    var s := Run(c, Init(initial), ops);
    RunInBand(c, initial, ops, bands);
    RunKeepsBooks(c, initial, ops);
    if forall y :: bands(y).gain <= 0.0 {
      forall t | t in s.closed ensures s.closed[t].pnl <= 0.0 {
        TradeLoses(s.closed[t], bands(s.closed[t].position.symbol));
      }
      SumNonPositive(Pnls(s.closed));
    }
    if forall y :: bands(y).gain <= 0.0 && bands(y).gain + c.PerFill(y) <= 0.0 {
      forall t | t in s.open ensures s.open[t].unrealized <= 0.0 {
        PositionLoses(c, s.open[t], bands(s.open[t].symbol));
      }
      SumNonPositive(Unrealized(s.open));
    }
  }

  lemma TradeLoses(trade: ClosedTrade, b: Band)
    requires TradeInBand(trade, b) && b.gain <= 0.0
    ensures trade.pnl <= 0.0
  {
    TimesMono(b.gain, 0.0, trade.position.volume, b.gain * trade.position.volume, 0.0);
  }

  lemma PositionLoses(c: Costs, p: Position, b: Band)
    requires PositionInBand(c, p, b) && b.gain + c.PerFill(p.symbol) <= 0.0
    ensures p.unrealized <= 0.0
  {
    var reach := b.gain + c.PerFill(p.symbol);
    TimesMono(reach, 0.0, p.volume, reach * p.volume, 0.0);
  }

  /** One unchanging quote, under which a unit may earn nothing. */
  function Still(q: Quote): Band { Band(q.ask, q.bid, q.Mid(), q.Mid(), 0.0) }

  /** With bid <= ask and costs that are not negative, a market or limit order never gains under a quote that stands still. */
  lemma StillOrders(c: Costs, o: Order, q: Quote)
    requires !o.kind.Stop? && 0.0 <= o.volume && q.bid <= q.ask && 0.0 <= c.PerFill(o.symbol)
    ensures OrderInBand(c, o, Still(q)) && OrderInBand(c, o, Still(q).(gain := -c.PerFill(o.symbol)))
  {
  }

  /** Quotes repeat one price per symbol; orders are market or limit orders, market orders after a first quote. */
  ghost predicate StillRun(c: Costs, s: State, ops: seq<Op>, quotes: string -> Quote) {
    ops != [] ==>
      && StillRun(c, s, ops[..|ops| - 1], quotes)
      && match ops[|ops| - 1]
         case QuoteOp(symbol, q) => q == quotes(symbol)
         case PlaceOp(o) =>
           !o.kind.Stop? && 0.0 <= o.volume && (o.kind.Market? ==> o.symbol in Run(c, s, ops[..|ops| - 1]).quotes)
         case _ => true
  }

  ghost function StillBands(c: Costs, quotes: string -> Quote): string -> Band {
    y => Still(quotes(y)).(gain := -c.PerFill(y))
  }

  lemma {:induction false} StillIsAdmissible(c: Costs, initial: real, ops: seq<Op>, quotes: string -> Quote)
    requires StillRun(c, Init(initial), ops, quotes)
    requires forall y :: quotes(y).bid <= quotes(y).ask && 0.0 <= c.PerFill(y)
    ensures AdmissibleRun(c, Init(initial), ops, StillBands(c, quotes))
  {
    hide Run;
    if ops != [] {
      StillIsAdmissible(c, initial, ops[..|ops| - 1], quotes);
      match ops[|ops| - 1] {
        case PlaceOp(o) => StillOrders(c, o, quotes(o.symbol));
        case _ =>
      }
    }
  }

  /**
   * Market and limit orders under quotes that never move, with bid <= ask and costs that are not negative: no closed
   * trade of any run has a positive result, and neither balance nor equity ever exceeds the initial balance.
   */
  lemma NoProfitUnderStillQuotes(c: Costs, initial: real, ops: seq<Op>, quotes: string -> Quote)
    requires StillRun(c, Init(initial), ops, quotes)
    requires forall y :: quotes(y).bid <= quotes(y).ask && 0.0 <= c.PerFill(y)
    ensures var s := Run(c, Init(initial), ops);
      && (forall t :: t in s.closed ==> s.closed[t].pnl <= 0.0)
      && s.balance <= initial && Equity(s) <= initial
  {
    hide Run, AdmissibleRun, StillRun;
    StillIsAdmissible(c, initial, ops, quotes);
    NoProfitWithoutMovement(c, initial, ops, StillBands(c, quotes));
  }

  /** With nothing open, a quote only fills what it triggers. */
  lemma QuoteFlat(c: Costs, s: State, symbol: string, q: Quote)
    requires s.open == map[]
    ensures var s1 := s.(quotes := s.quotes[symbol := q]);
      OnQuote(c, s, symbol, q) == FillAll(c, s1, TriggeredTickets(s1, symbol, q), q)
  {
    var s1 := MarkAll(s, symbol, q);
    assert s1.open == map[];
    assert HitTickets(s1, symbol, q) == {};
    CloseNone(c, s1);
  }

  /** What a triggered stop order gains on the quote by filling at its own price. */
  function StopGain(o: Order, q: Quote): real {
    if o.side.Buy? then q.bid - TriggerPrice(o, q) else TriggerPrice(o, q) - q.ask
  }

  /** Quote, order, the same quote again, and the given last operation. */
  ghost function StopTrip(o: Order, q: Quote, last: Op): seq<Op> {
    [QuoteOp(o.symbol, q), PlaceOp(o), QuoteOp(o.symbol, q), last]
  }

  /**
   * A stop order fills at its own price. Under one unchanging quote its round trip earns exactly its gain less two
   * fills' costs, so it profits if and only if it is not admitted to the band of that quote.
   */
  lemma StopOrderRoundTrip(c: Costs, initial: real, o: Order, q: Quote)
    requires o.kind.Stop? && Triggered(o, q) && 0.0 < o.volume
    ensures var s := Run(c, Init(initial), StopTrip(o, q, CloseOp(1)));
      && s.balance - initial == (StopGain(o, q) - 2.0 * c.PerFill(o.symbol)) * o.volume
      && (s.balance > initial <==> 2.0 * c.PerFill(o.symbol) < StopGain(o, q))
      && (s.balance > initial <==> !OrderInBand(c, o, Still(q)))
  {
    hide OnQuote, CloseAll, PlaceOrder, Triggered, StopGain, OrderInBand, FillOf, ClosedAt;
    var p, ops := FillOf(c, o, q), StopTrip(o, q, CloseOp(1));
    RunFour(c, Init(initial), ops[0], ops[1], ops[2], ops[3]);
    StopTripSteps(c, initial, q, o);
    FillKeeps(c, o, q);
    CloseOne(c, StopFilled(initial, o, c, q), 1);
    StopResults(c, o, q);
    SignOfProduct(StopGain(o, q) - 2.0 * c.PerFill(o.symbol), o.volume, ClosedAt(c, p, q).pnl);
  }

  lemma StopResults(c: Costs, o: Order, q: Quote)
    requires o.kind.Stop? && 0.0 < o.volume
    ensures ClosedAt(c, FillOf(c, o, q), q).pnl == (StopGain(o, q) - 2.0 * c.PerFill(o.symbol)) * o.volume
    ensures Marked(FillOf(c, o, q), q).unrealized == (StopGain(o, q) - c.PerFill(o.symbol)) * o.volume
    ensures OrderInBand(c, o, Still(q)) <==> StopGain(o, q) <= 2.0 * c.PerFill(o.symbol)
    ensures OrderInBand(c, o, Still(q).(gain := -c.PerFill(o.symbol))) <==> StopGain(o, q) <= c.PerFill(o.symbol)
  {
    var k, p := c.PerFill(o.symbol), FillOf(c, o, q);
    MarkedPnl(c, p, q);
    var m := StopGain(o, q) - k;
    if o.side.Buy? {
      assert p.entry == TriggerPrice(o, q) + k;
      assert q.bid - p.entry == m;
    } else {
      assert p.entry == TriggerPrice(o, q) - k;
      assert p.entry - q.ask == m;
    }
    assert m * o.volume - k * o.volume == (m - k) * o.volume;
  }

  /** While it is open the same order shows its gain less one fill's cost, and equity exceeds the start exactly when that is positive. */
  lemma StopOrderEquity(c: Costs, initial: real, o: Order, q: Quote)
    requires o.kind.Stop? && Triggered(o, q) && 0.0 < o.volume && o.sl == o.tp == None
    ensures var s := Run(c, Init(initial), StopTrip(o, q, QuoteOp(o.symbol, q)));
      && Equity(s) - initial == (StopGain(o, q) - c.PerFill(o.symbol)) * o.volume
      && (Equity(s) > initial <==> c.PerFill(o.symbol) < StopGain(o, q))
      && (Equity(s) > initial <==> !OrderInBand(c, o, Still(q).(gain := -c.PerFill(o.symbol))))
  {
    hide OnQuote, CloseAll, PlaceOrder, Triggered, StopGain, OrderInBand, FillOf, Marked;
    var p, ops := FillOf(c, o, q), StopTrip(o, q, QuoteOp(o.symbol, q));
    RunFour(c, Init(initial), ops[0], ops[1], ops[2], ops[3]);
    StopTripSteps(c, initial, q, o);
    FillKeeps(c, o, q);
    QuoteMarks(c, StopFilled(initial, o, c, q), p, q);
    var s4 := OnQuote(c, StopFilled(initial, o, c, q), o.symbol, q);
    var none: map<nat, real> := map[];
    SumAdd(none, 1, Marked(p, q).unrealized);
    assert Unrealized(s4.open) == none[1 := Marked(p, q).unrealized];
    assert Equity(s4) == initial + Marked(p, q).unrealized;
    StopResults(c, o, q);
    SignOfProduct(StopGain(o, q) - c.PerFill(o.symbol), o.volume, Marked(p, q).unrealized);
  }

  lemma SignOfProduct(x: real, v: real, xv: real)
    requires 0.0 < v && xv == x * v
    ensures xv > 0.0 <==> x > 0.0
  {
    if x <= 0.0 { TimesMono(x, 0.0, v, xv, 0.0); }
  }

  lemma QuoteMarks(c: Costs, s: State, p: Position, q: Quote)
    requires s.open == map[1 := p] && s.pending == map[] && p.sl == p.tp == None
    ensures var s' := OnQuote(c, s, p.symbol, q);
      s'.open == map[1 := Marked(p, q)] && s'.balance == s.balance
  {
    var s1 := MarkAll(s, p.symbol, q);
    assert s1.open == map[1 := Marked(p, q)];
    assert HitTickets(s1, p.symbol, q) == {};
    CloseNone(c, s1);
    assert TriggeredTickets(s1, p.symbol, q) == {};
    assert Fills(c, s1.pending, {}, q) == map[];
  }

  lemma RunFour(c: Costs, s: State, a: Op, b: Op, d: Op, e: Op)
    ensures Run(c, s, [a, b, d, e]) == Step(c, Step(c, Step(c, Step(c, s, a), b), d), e)
  {
    hide Step;
    assert [a][..0] == [];
    assert Run(c, s, [a]) == Step(c, s, a);
    assert [a, b][..1] == [a];
    assert Run(c, s, [a, b]) == Step(c, Step(c, s, a), b);
    assert [a, b, d][..2] == [a, b];
    assert [a, b, d, e][..3] == [a, b, d];
  }

  /** The broker after the second quote: the order has become position 1. */
  ghost function StopFilled(initial: real, o: Order, c: Costs, q: Quote): State {
    Init(initial).(quotes := map[o.symbol := q], next := 2, open := map[1 := FillOf(c, o, q)])
  }

  lemma StopTripSteps(c: Costs, initial: real, q: Quote, o: Order)
    requires o.kind.Stop? && Triggered(o, q)
    ensures var s0 := Init(initial);
      var s1 := s0.(quotes := map[o.symbol := q]);
      var s2 := s1.(next := 2, pending := map[1 := o]);
      && OnQuote(c, s0, o.symbol, q) == s1
      && PlaceOrder(c, s1, o).0 == s2
      && OnQuote(c, s2, o.symbol, q) == StopFilled(initial, o, c, q)
  {
    hide OnQuote, FillOf, Triggered;
    var s0 := Init(initial);
    var s1 := s0.(quotes := map[o.symbol := q]);
    var s2 := s1.(next := 2, pending := map[1 := o]);
    QuoteFlat(c, s0, o.symbol, q);
    assert TriggeredTickets(s1, o.symbol, q) == {};
    QuoteFlat(c, s2, o.symbol, q);
    assert s2.quotes[o.symbol := q] == s2.quotes;
    assert TriggeredTickets(s2, o.symbol, q) == {1};
    assert Fills(c, s2.pending, {1}, q) == map[1 := FillOf(c, o, q)];
    assert s2.pending - {1} == map[];
  }
}
