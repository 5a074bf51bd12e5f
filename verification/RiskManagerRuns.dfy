/** What every run of the risk manager keeps: the position caps and the drawdown latch. */
module RiskManagerRuns {
  import opened Basics
  import opened RiskManager

  /** A position is opened only on an untrimmed approval (`TryOpen`), or on any approval (`OpenAny`). */
  datatype Op =
    | Equity(equity: real)
    | TradeDone(today: int, pnl: real)
    | TryOpen(today: int, symbol: string, size: real, risk: real, info: Info)
    | OpenAny(today: int, symbol: string, size: real, risk: real, info: Info)
    | Close(name: string, ticket: Option<int>)

  predicate Passes(d: Decision) { d.Approved? || d.Trimmed? }

  function Step(l: Limits, s: State, op: Op): State {
    match op
    case Equity(e) => OnEquity(l, s, e)
    case TradeDone(today, pnl) => OnTradeClosed(s, today, pnl)
    case TryOpen(today, symbol, size, risk, info) =>
      var s1 := RollDay(s, today);
      if Evaluate(l, s, today, symbol, size, risk) == Approved
      then s1.(positions := Opened(s1.positions, symbol, info)) else s1
    case OpenAny(today, symbol, size, risk, info) =>
      var s1 := RollDay(s, today);
      if Passes(Evaluate(l, s, today, symbol, size, risk))
      then s1.(positions := Opened(s1.positions, symbol, info)) else s1
    case Close(symbol, ticket) => s.(positions := Closed(s.positions, symbol, ticket))
  }

  function Run(l: Limits, s: State, ops: seq<Op>): State {
    if ops == [] then s else Step(l, Run(l, s, ops[..|ops| - 1]), ops[|ops| - 1])
  }

  // ---- Caps ---------------------------------------------------------------------------------------

  /** The positions whose symbol belongs to a bucket however it is written. */
  function BucketSlots(m: Book, b: Bucket): set<(string, nat)> {
    set x | x in Slots(m) && BucketOf(x.0) == Some(b)
  }

  ghost predicate CapsHold(l: Limits, m: Book) {
    && Total(m) <= l.maxOpenPositions
    && (forall s :: Held(m, s) <= l.maxPositionsPerSymbol)
    && (forall b :: |BucketSlots(m, b)| <= l.correlatedSymbolLimit)
  }

  /** The symbol is in no bucket, or is written exactly as its bucket lists it. */
  predicate Listed(symbol: string) {
    var b := BucketOf(symbol);
    b.Some? ==> symbol in Members(b.value)
  }

  predicate ListedKeys(m: Book) { forall s :: s in m && m[s] != [] ==> Listed(s) }

  lemma {:induction false} SubsetSize<T>(a: set<T>, b: set<T>)
    requires a <= b
    ensures |a| <= |b|
  {
    if a != {} {
      var x :| x in a;
      SubsetSize(a - {x}, b - {x});
    }
  }

  /** Counting by the buckets' own names counts every position of each bucket if and only if all symbols held are listed ones. */
  lemma BucketByNames(m: Book)
    ensures ListedKeys(m) <==> forall b :: BucketSlots(m, b) == SlotsIn(m, set s | s in Members(b))
  {
    hide Slots, BucketOf;
    if ListedKeys(m) {
      forall b ensures BucketSlots(m, b) == SlotsIn(m, set s | s in Members(b)) {
        forall x ensures x in BucketSlots(m, b) <==> x in SlotsIn(m, set s | s in Members(b)) {
          SlotMember(m, x);
          MembersBelong(x.0, b);
        }
      }
    } else {
      var s :| s in m && m[s] != [] && !Listed(s);
      SlotMember(m, (s, 0));
      var b := BucketOf(s).value;
      assert (s, 0) in BucketSlots(m, b) && (s, 0) !in SlotsIn(m, set s | s in Members(b));
    }
  }

  lemma CountedByName(m: Book, b: Bucket)
    requires ListedKeys(m)
    ensures |BucketSlots(m, b)| == InBucket(m, b)
  {
    BucketByNames(m);
  }

  lemma MembersBelong(s: string, b: Bucket)
    ensures s in Members(b) ==> BucketOf(s) == Some(b)
  {
    assert "XAUUSD"[0] != "BTCUSDT"[0] && "XAUUSD"[0] != "BTCUSD"[0];
    assert "XAGUSD"[0] != "BTCUSDT"[0] && "XAGUSD"[0] != "BTCUSD"[0];
    if s in Members(b) { assert Upper(s) == s; }
  }

  lemma OpenAddsOneSlot(m: Book, symbol: string, info: Info)
    ensures Slots(Opened(m, symbol, info)) == Slots(m) + {(symbol, Held(m, symbol))}
    ensures (symbol, Held(m, symbol)) !in Slots(m)
  {
    hide Slots;
    var m' := Opened(m, symbol, info);
    SlotMember(m, (symbol, Held(m, symbol)));
    forall x: (string, nat)
      ensures x in Slots(m') <==> x in Slots(m) || x == (symbol, Held(m, symbol))
    {
      SlotMember(m, x);
      SlotMember(m', x);
    }
  }

  lemma CloseRemovesSlots(m: Book, symbol: string, ticket: Option<int>)
    ensures Slots(Closed(m, symbol, ticket)) <= Slots(m)
  {
    hide Slots;
    forall x | x in Slots(Closed(m, symbol, ticket)) ensures x in Slots(m) {
      SlotMember(m, x);
      SlotMember(Closed(m, symbol, ticket), x);
    }
  }

  lemma OpenKeepsCaps(l: Limits, s: State, today: int, symbol: string, size: real, risk: real, info: Info)
    requires CapsHold(l, s.positions) && ListedKeys(s.positions) && Listed(symbol)
    requires Evaluate(l, s, today, symbol, size, risk) == Approved
    ensures CapsHold(l, Opened(s.positions, symbol, info)) && ListedKeys(Opened(s.positions, symbol, info))
  {
    hide Slots, Listed, Evaluate, InBucket, BucketSlots;
    ApprovedExactlyWhen(l, s, today, symbol, size, risk);
    var m := s.positions;
    var m' := Opened(m, symbol, info);
    OpenAddsOneSlot(m, symbol, info);
    forall b ensures |BucketSlots(m', b)| <= l.correlatedSymbolLimit {
      CountedByName(m, b);
      OpenAddsToBucket(m, symbol, info, b);
    }
    assert forall s' :: Held(m', s') == Held(m, s') + if s' == symbol then 1 else 0;
  }

  lemma OpenAddsToBucket(m: Book, symbol: string, info: Info, b: Bucket)
    ensures |BucketSlots(Opened(m, symbol, info), b)| == |BucketSlots(m, b)| + if BucketOf(symbol) == Some(b) then 1 else 0
  {
    hide Slots, BucketOf, Opened;
    var m', slot := Opened(m, symbol, info), (symbol, Held(m, symbol));
    OpenAddsOneSlot(m, symbol, info);
    if BucketOf(symbol) == Some(b) {
      assert BucketSlots(m', b) == BucketSlots(m, b) + {slot};
    } else {
      assert BucketSlots(m', b) == BucketSlots(m, b);
    }
  }

  lemma CloseKeepsCaps(l: Limits, m: Book, symbol: string, ticket: Option<int>)
    requires CapsHold(l, m) && ListedKeys(m)
    ensures CapsHold(l, Closed(m, symbol, ticket)) && ListedKeys(Closed(m, symbol, ticket))
  {
    hide Slots, Listed;
    var m' := Closed(m, symbol, ticket);
    CloseRemovesSlots(m, symbol, ticket);
    SubsetSize(Slots(m'), Slots(m));
    forall b ensures |BucketSlots(m', b)| <= l.correlatedSymbolLimit {
      SubsetSize(BucketSlots(m', b), BucketSlots(m, b));
    }
    forall s ensures Held(m', s) <= Held(m, s) {}
  }

  function RiskCap(l: Limits, s: State): real { s.equity * (l.maxRiskPerTradePct / 100.0) }

  /** Every order names a listed symbol, and one whose trimmed approval would open a position stays within the risk cap. */
  ghost predicate Disciplined(l: Limits, s: State, ops: seq<Op>) {
    ops != [] ==>
      var prior, op := ops[..|ops| - 1], ops[|ops| - 1];
      && Disciplined(l, s, prior)
      && (op.TryOpen? || op.OpenAny? ==> Listed(op.symbol))
      && (op.OpenAny? ==> op.risk <= RiskCap(l, Run(l, s, prior)))
  }

  /** Total, per-symbol and per-bucket counts stay within their limits on every disciplined run. */
  lemma {:induction false} CapsAlwaysHold(l: Limits, equity: real, today: int, ops: seq<Op>)
    requires Disciplined(l, Init(equity, today), ops)
    ensures var s := Run(l, Init(equity, today), ops);
      CapsHold(l, s.positions) && ListedKeys(s.positions)
  {
    hide CapsHold, ListedKeys, Listed, Evaluate;
    if ops == [] {
      EmptyCaps(l);
    } else {
      var prior, op := ops[..|ops| - 1], ops[|ops| - 1];
      var s := Run(l, Init(equity, today), prior);
      CapsAlwaysHold(l, equity, today, prior);
      match op {
        case TryOpen(d, symbol, size, risk, info) =>
          if Evaluate(l, s, d, symbol, size, risk) == Approved {
            OpenKeepsCaps(l, s, d, symbol, size, risk, info);
          }
        case OpenAny(d, symbol, size, risk, info) =>
          TrimmedOnlyAboveCap(l, s, d, symbol, size, risk);
          if Evaluate(l, s, d, symbol, size, risk) == Approved {
            OpenKeepsCaps(l, s, d, symbol, size, risk, info);
          }
        case Close(symbol, ticket) => CloseKeepsCaps(l, s.positions, symbol, ticket);
        case _ =>
      }
    }
  }

  lemma TrimmedOnlyAboveCap(l: Limits, s: State, today: int, symbol: string, size: real, risk: real)
    ensures Evaluate(l, s, today, symbol, size, risk).Trimmed? ==> risk > RiskCap(l, s)
  {
    hide Total, InBucket, Held, BucketOf;
  }

  lemma EmptyCaps(l: Limits)
    ensures CapsHold(l, map[]) && ListedKeys(map[]) && Slots(map[]) == {}
  {
    assert Slots(map[]) == {};
    forall b ensures BucketSlots(map[], b) == {} {}
  }

  /** Some position count has reached its limit for this symbol. */
  predicate Full(l: Limits, m: Book, symbol: string) {
    || Total(m) >= l.maxOpenPositions
    || Held(m, symbol) >= l.maxPositionsPerSymbol
    || (BucketOf(symbol).Some? && InBucket(m, BucketOf(symbol).value) >= l.correlatedSymbolLimit)
  }

  /** The manager is enabled and the day's loss is below its cap. */
  predicate Trading(l: Limits, s: State, today: int) {
    !s.disabled && -(if today == s.today then s.realizedToday else 0.0) < s.equity * (l.maxDailyLossPct / 100.0)
  }

  /**
   * Trimming is decided before any position is counted: with a count at its limit, an order passes if and only if it
   * risks more than the cap. Below all limits more risk makes no order fail but one without any.
   */
  lemma FullPassesExactlyWhen(l: Limits, s: State, today: int, symbol: string, size: real, risk: real)
    ensures Full(l, s.positions, symbol) ==>
      (Passes(Evaluate(l, s, today, symbol, size, risk)) <==>
       Trading(l, s, today) && risk > RiskCap(l, s) && risk != 0.0)
    ensures Trading(l, s, today) && risk > RiskCap(l, s) && risk != 0.0 ==>
      Evaluate(l, s, today, symbol, size, risk) == Trimmed(size * (RiskCap(l, s) / risk))
    ensures !Full(l, s.positions, symbol) ==>
      (Passes(Evaluate(l, s, today, symbol, size, risk)) <==>
       Trading(l, s, today) && (risk > RiskCap(l, s) ==> risk != 0.0))
  {
    hide Total, InBucket, Held, BucketOf;
  }

  /** An order is approved as proposed exactly when no limit stands in its way. */
  lemma ApprovedExactlyWhen(l: Limits, s: State, today: int, symbol: string, size: real, risk: real)
    ensures Evaluate(l, s, today, symbol, size, risk) == Approved <==>
      && !s.disabled
      && -(if today == s.today then s.realizedToday else 0.0) < s.equity * (l.maxDailyLossPct / 100.0)
      && risk <= s.equity * (l.maxRiskPerTradePct / 100.0)
      && Total(s.positions) < l.maxOpenPositions
      && Held(s.positions, symbol) < l.maxPositionsPerSymbol
      && (forall b :: BucketOf(symbol) == Some(b) ==> InBucket(s.positions, b) < l.correlatedSymbolLimit)
  {
    hide Total, InBucket, Held, BucketOf;
  }

  // ---- The latch ----------------------------------------------------------------------------------

  /** A disabled manager stays disabled and rejects every order, whatever happens and however many days pass. */
  lemma {:induction false} DisabledForever(l: Limits, s: State, ops: seq<Op>, today: int, symbol: string, size: real, risk: real)
    requires s.disabled
    ensures var s' := Run(l, s, ops);
      s'.disabled && Evaluate(l, s', today, symbol, size, risk) == Rejected(BotDisabled)
  {
    if ops != [] {
      DisabledForever(l, s, ops[..|ops| - 1], today, symbol, size, risk);
    }
  }

  // ---- Where the caps do not hold -----------------------------------------------------------------

  /** n orders for the same symbol, each opening a position on any approval. */
  function Orders(today: int, symbol: string, risk: real, n: nat): seq<Op> {
    seq(n, _ => OpenAny(today, symbol, 1.0, risk, Info(None)))
  }

  /** The book with n more positions of a symbol. */
  function More(m: Book, symbol: string, n: nat): Book {
    if n == 0 then m else Opened(More(m, symbol, n - 1), symbol, Info(None))
  }

  lemma {:induction false} MoreCounts(m: Book, symbol: string, n: nat)
    ensures var m' := More(m, symbol, n);
      && Total(m') == Total(m) + n
      && (forall x :: Held(m', x) == Held(m, x) + if x == symbol then n else 0)
      && (forall b :: InBucket(m', b) == InBucket(m, b) + if symbol in Members(b) then n else 0)
      && (forall b :: |BucketSlots(m', b)| == |BucketSlots(m, b)| + if BucketOf(symbol) == Some(b) then n else 0)
  {
    hide Slots, BucketOf, BucketSlots, InBucket, Members;
    if n > 0 {
      var prior := More(m, symbol, n - 1);
      MoreCounts(m, symbol, n - 1);
      OpenAddsOneSlot(prior, symbol, Info(None));
      forall b
        ensures InBucket(More(m, symbol, n), b) == InBucket(prior, b) + if symbol in Members(b) then 1 else 0
        ensures |BucketSlots(More(m, symbol, n), b)| == |BucketSlots(prior, b)| + if BucketOf(symbol) == Some(b) then 1 else 0
      {
        OpenAddsToBucket(prior, symbol, Info(None), b);
        OpenAddsToNames(prior, symbol, Info(None), b);
      }
    }
  }

  lemma OpenAddsToNames(m: Book, symbol: string, info: Info, b: Bucket)
    ensures InBucket(Opened(m, symbol, info), b) == InBucket(m, b) + if symbol in Members(b) then 1 else 0
  {
    hide Slots, Opened, Members;
    var m', slot, names := Opened(m, symbol, info), (symbol, Held(m, symbol)), set s | s in Members(b);
    OpenAddsOneSlot(m, symbol, info);
    if symbol in Members(b) {
      assert SlotsIn(m', names) == SlotsIn(m, names) + {slot};
    } else {
      assert SlotsIn(m', names) == SlotsIn(m, names);
    }
  }

  /** As long as each order passes on the book of those before it, n orders add n positions. */
  lemma {:induction false} OrdersFill(l: Limits, s: State, symbol: string, risk: real, n: nat)
    requires forall k: nat :: k < n ==>
      Passes(Evaluate(l, s.(positions := More(s.positions, symbol, k)), s.today, symbol, 1.0, risk))
    ensures Run(l, s, Orders(s.today, symbol, risk, n)) == s.(positions := More(s.positions, symbol, n))
  {
    hide Evaluate, Opened;
    if n > 0 {
      assert Orders(s.today, symbol, risk, n)[..n - 1] == Orders(s.today, symbol, risk, n - 1);
      OrdersFill(l, s, symbol, risk, n - 1);
    }
  }

  lemma {:induction false} RunConcat(l: Limits, s: State, a: seq<Op>, b: seq<Op>)
    ensures Run(l, s, a + b) == Run(l, Run(l, s, a), b)
  {
    hide Step;
    if b == [] {
      assert a + b == a;
    } else {
      RunConcat(l, s, a, b[..|b| - 1]);
      assert (a + b)[..|a + b| - 1] == a + b[..|b| - 1];
    }
  }

  // ---- Names that escape their bucket -------------------------------------------------------------

  /** A symbol and the names that its bucket lists. */
  function Around(symbol: string): set<string> {
    {symbol} + if BucketOf(symbol).Some? then set s | s in Members(BucketOf(symbol).value) else {}
  }

  /** Any operations, but orders name only these symbols, and those that open on any approval stay within the risk cap. */
  ghost predicate Confined(l: Limits, s: State, ops: seq<Op>, names: set<string>) {
    ops != [] ==>
      var prior, op := ops[..|ops| - 1], ops[|ops| - 1];
      && Confined(l, s, prior, names)
      && (op.TryOpen? || op.OpenAny? ==> op.symbol in names)
      && (op.OpenAny? ==> op.risk <= RiskCap(l, Run(l, s, prior)))
  }

  ghost predicate CapsSurviveAround(l: Limits, equity: real, today: int, symbol: string) {
    forall ops :: Confined(l, Init(equity, today), ops, Around(symbol)) ==> CapsHold(l, Run(l, Init(equity, today), ops).positions)
  }

  /** The other limits let no more positions into three names than the bucket limit, or that limit lets in none at all. */
  predicate Redundant(l: Limits) {
    || l.correlatedSymbolLimit == 0 || l.maxOpenPositions <= l.correlatedSymbolLimit
    || 3 * l.maxPositionsPerSymbol <= l.correlatedSymbolLimit
  }

  /**
   * Names are compared in upper case but counted as written. Orders for a symbol and for the names that its bucket
   * lists keep the caps on every run if and only if the symbol is in no bucket or written as listed, or the other
   * limits make the bucket limit redundant.
   */
  lemma CapsSurviveExactlyWhenListed(l: Limits, equity: real, today: int, symbol: string)
    requires 0.0 < equity && 0.0 < l.maxDailyLossPct
    ensures CapsSurviveAround(l, equity, today, symbol) <==> Listed(symbol) || Redundant(l)
  {
    hide CapsHold, Run, Listed, Redundant, Around, Confined;
    if Listed(symbol) || Redundant(l) {
      forall ops | Confined(l, Init(equity, today), ops, Around(symbol))
        ensures CapsHold(l, Run(l, Init(equity, today), ops).positions)
      {
        if Listed(symbol) {
          AroundListed(l, Init(equity, today), ops, symbol);
          CapsAlwaysHold(l, equity, today, ops);
        } else {
          ConfinedStaysTight(l, equity, today, ops, symbol);
          TightIsCapped(l, Run(l, Init(equity, today), ops).positions, symbol);
        }
      }
    } else {
      EscapeIsConfined(l, equity, today, symbol);
      EscapeOverflows(l, equity, today, symbol);
    }
  }

  /** Next to a listed symbol there are only listed ones. */
  lemma {:induction false} AroundListed(l: Limits, s: State, ops: seq<Op>, symbol: string)
    requires Listed(symbol) && Confined(l, s, ops, Around(symbol))
    ensures Disciplined(l, s, ops)
  {
    hide Run, BucketOf, Members;
    if ops != [] {
      AroundListed(l, s, ops[..|ops| - 1], symbol);
      forall x | x in Around(symbol) ensures Listed(x) {
        if x != symbol { BucketNamesListed(symbol, x); }
      }
    }
  }

  lemma BucketNamesListed(symbol: string, x: string)
    requires x in Around(symbol) && x != symbol
    ensures BucketOf(x) == BucketOf(symbol) && Listed(x)
  {
    hide Members;
    MembersBelong(x, BucketOf(symbol).value);
  }

  // ---- When the bucket limit is redundant

  /** What holds of a book of confined orders whatever the spelling. */
  ghost predicate Tight(l: Limits, m: Book, symbol: string) {
    && Total(m) <= l.maxOpenPositions
    && (forall s :: Held(m, s) <= l.maxPositionsPerSymbol)
    && (forall s :: s in m && m[s] != [] ==> s in Around(symbol))
    && (l.correlatedSymbolLimit == 0 ==> Slots(m) == {})
  }

  lemma {:induction false} ConfinedStaysTight(l: Limits, equity: real, today: int, ops: seq<Op>, symbol: string)
    requires Confined(l, Init(equity, today), ops, Around(symbol)) && !Listed(symbol)
    ensures Tight(l, Run(l, Init(equity, today), ops).positions, symbol)
  {
    hide Tight, Evaluate, Around, Listed;
    if ops == [] {
      EmptyTight(l, symbol);
    } else {
      var prior, op := ops[..|ops| - 1], ops[|ops| - 1];
      var s := Run(l, Init(equity, today), prior);
      ConfinedStaysTight(l, equity, today, prior, symbol);
      match op {
        case TryOpen(d, x, size, risk, info) =>
          if Evaluate(l, s, d, x, size, risk) == Approved { OpenKeepsTight(l, s, d, x, size, risk, info, symbol); }
        case OpenAny(d, x, size, risk, info) =>
          TrimmedOnlyAboveCap(l, s, d, x, size, risk);
          if Evaluate(l, s, d, x, size, risk) == Approved { OpenKeepsTight(l, s, d, x, size, risk, info, symbol); }
        case Close(x, ticket) => CloseKeepsTight(l, s.positions, x, ticket, symbol);
        case _ =>
      }
    }
  }

  lemma EmptyTight(l: Limits, symbol: string)
    ensures Tight(l, map[], symbol)
  {
    EmptyCaps(l);
  }

  lemma OpenKeepsTight(l: Limits, s: State, today: int, x: string, size: real, risk: real, info: Info, symbol: string)
    requires Tight(l, s.positions, symbol) && x in Around(symbol) && !Listed(symbol)
    requires Evaluate(l, s, today, x, size, risk) == Approved
    ensures Tight(l, Opened(s.positions, x, info), symbol)
  {
    hide Slots, Around, Evaluate, InBucket, BucketOf;
    ApprovedExactlyWhen(l, s, today, x, size, risk);
    OpenAddsOneSlot(s.positions, x, info);
    var m' := Opened(s.positions, x, info);
    assert forall y :: Held(m', y) == Held(s.positions, y) + if y == x then 1 else 0;
    if x != symbol { BucketNamesListed(symbol, x); }
    assert BucketOf(x) == Some(BucketOf(symbol).value);
  }

  lemma CloseKeepsTight(l: Limits, m: Book, x: string, ticket: Option<int>, symbol: string)
    requires Tight(l, m, symbol)
    ensures Tight(l, Closed(m, x, ticket), symbol)
  {
    hide Slots, Around;
    CloseRemovesSlots(m, x, ticket);
    SubsetSize(Slots(Closed(m, x, ticket)), Slots(m));
    forall y ensures Held(Closed(m, x, ticket), y) <= Held(m, y) {}
  }

  lemma TightIsCapped(l: Limits, m: Book, symbol: string)
    requires Tight(l, m, symbol) && Redundant(l) && !Listed(symbol)
    ensures CapsHold(l, m)
  {
    hide Slots, Around;
    if 3 * l.maxPositionsPerSymbol <= l.correlatedSymbolLimit { ThreeNames(m, symbol, l.maxPositionsPerSymbol); }
    forall b ensures |BucketSlots(m, b)| <= l.correlatedSymbolLimit {
      SubsetSize(BucketSlots(m, b), Slots(m));
    }
  }

  lemma ThreeNames(m: Book, symbol: string, most: nat)
    requires !Listed(symbol) && forall s :: Held(m, s) <= most
    requires forall s :: s in m && m[s] != [] ==> s in Around(symbol)
    ensures Total(m) <= 3 * most
  {
    hide Slots, BucketOf;
    var names := Members(BucketOf(symbol).value);
    var a, b := names[0], names[1];
    assert a != b by { Different(BucketOf(symbol).value); }
    assert symbol !in names;
    assert SlotsIn(m, {}) == {};
    CountOneMore(m, {}, symbol);
    CountOneMore(m, {} + {symbol}, a);
    CountOneMore(m, {} + {symbol} + {a}, b);
    forall x ensures x in Slots(m) <==> x in SlotsIn(m, {} + {symbol} + {a} + {b}) {
      SlotMember(m, x);
      assert Around(symbol) == {} + {symbol} + {a} + {b};
    }
    assert Slots(m) == SlotsIn(m, {} + {symbol} + {a} + {b});
  }

  lemma Different(b: Bucket)
    ensures |Members(b)| == 2 && Members(b)[0] != Members(b)[1]
  {
    assert "XAUUSD"[2] != "XAGUSD"[2] && |"BTCUSDT"| != |"BTCUSD"|;
  }

  // ---- When it is not

  /** How many positions under the symbol itself and under the two listed names overflow the bucket. */
  function Escaped(l: Limits): (nat, nat, nat) {
    var most, all := l.maxPositionsPerSymbol, l.correlatedSymbolLimit + 1;
    var own := if most < all then most else all;
    var first := if most < all - own then most else all - own;
    (own, first, all - own - first)
  }

  function Escape(l: Limits, equity: real, today: int, symbol: string): seq<Op>
    requires BucketOf(symbol).Some?
  {
    var names := Members(BucketOf(symbol).value);
    ThreeOrders(l, equity, today, symbol, names[0], names[1])
  }

  function ThreeOrders(l: Limits, equity: real, today: int, x: string, y: string, z: string): seq<Op> {
    var risk := RiskCap(l, Init(equity, today));
    Orders(today, x, risk, Escaped(l).0) + Orders(today, y, risk, Escaped(l).1) + Orders(today, z, risk, Escaped(l).2)
  }

  lemma EscapeIsConfined(l: Limits, equity: real, today: int, symbol: string)
    requires !Listed(symbol)
    ensures Confined(l, Init(equity, today), Escape(l, equity, today, symbol), Around(symbol))
  {
    hide Run, Around, Members, BucketOf, Escaped;
    var names := Members(BucketOf(symbol).value);
    Different(BucketOf(symbol).value);
    assert {symbol, names[0], names[1]} <= Around(symbol) by { AroundHas(symbol); }
    SameRiskConfined(l, equity, today, Escape(l, equity, today, symbol), Around(symbol));
  }

  lemma AroundHas(symbol: string)
    requires BucketOf(symbol).Some?
    ensures symbol in Around(symbol) && forall x :: x in Members(BucketOf(symbol).value) ==> x in Around(symbol)
  {
  }

  lemma {:induction false} SameRiskConfined(l: Limits, equity: real, today: int, ops: seq<Op>, names: set<string>)
    requires forall op :: op in ops ==> op.OpenAny? && op.symbol in names && op.risk == RiskCap(l, Init(equity, today))
    ensures Confined(l, Init(equity, today), ops, names) && Run(l, Init(equity, today), ops).equity == equity
  {
    hide Evaluate, RiskCap, Opened;
    if ops != [] {
      SameRiskConfined(l, equity, today, ops[..|ops| - 1], names);
      SameRiskCap(l, Run(l, Init(equity, today), ops[..|ops| - 1]), Init(equity, today));
      assert ops[|ops| - 1] in ops;
    }
  }

  lemma EscapeOverflows(l: Limits, equity: real, today: int, symbol: string)
    requires !Listed(symbol) && !Redundant(l) && 0.0 < equity && 0.0 < l.maxDailyLossPct
    ensures !CapsHold(l, Run(l, Init(equity, today), Escape(l, equity, today, symbol)).positions)
  {
    hide CapsHold, Run, BucketOf, More, Orders, RiskCap, Members, Total, Held, InBucket, BucketSlots, Escaped, Redundant;
    var b, s0, risk := BucketOf(symbol).value, Init(equity, today), RiskCap(l, Init(equity, today));
    var names := Members(b);
    var (own, first, second) := Escaped(l);
    Different(b);
    MembersBelong(names[0], b);
    MembersBelong(names[1], b);
    EscapedFits(l);
    LossCapPositive(equity, l);
    EmptyCounts();
    var m1 := More(map[], symbol, own);
    MoreCounts(map[], symbol, own);
    SameRiskCap(l, s0, s0.(positions := m1));
    FillUp(l, s0, symbol, risk, own);
    var m2 := More(m1, names[0], first);
    MoreCounts(m1, names[0], first);
    SameRiskCap(l, s0, s0.(positions := m2));
    FillUp(l, s0.(positions := m1), names[0], risk, first);
    MoreCounts(m2, names[1], second);
    FillUp(l, s0.(positions := m2), names[1], risk, second);
    var a1, a2, a3 := Orders(today, symbol, risk, own), Orders(today, names[0], risk, first), Orders(today, names[1], risk, second);
    assert ThreeOrders(l, equity, today, symbol, names[0], names[1]) == a1 + a2 + a3;
    RunConcat(l, s0, a1, a2);
    RunConcat(l, s0, a1 + a2, a3);
    BucketOverflows(l, More(m2, names[1], second), b);
  }

  lemma SameRiskCap(l: Limits, s: State, s': State)
    requires s.equity == s'.equity
    ensures RiskCap(l, s) == RiskCap(l, s')
  {
  }

  lemma EscapedFits(l: Limits)
    requires !Redundant(l)
    ensures var (own, first, second) := Escaped(l);
      && 0 < l.correlatedSymbolLimit && 0 < own <= l.maxPositionsPerSymbol && first <= l.maxPositionsPerSymbol && second <= l.maxPositionsPerSymbol
      && own + first + second == l.correlatedSymbolLimit + 1 <= l.maxOpenPositions
  {
  }

  lemma EmptyCounts()
    ensures Total(map[]) == 0
    ensures forall x :: Held(map[], x) == 0
    ensures forall b :: InBucket(map[], b) == 0 && |BucketSlots(map[], b)| == 0
  {
    assert Slots(map[]) == {};
    forall b ensures InBucket(map[], b) == 0 && |BucketSlots(map[], b)| == 0 {
      assert SlotsIn(map[], set s | s in Members(b)) == {} && BucketSlots(map[], b) == {};
    }
  }

  /** Orders that stay within the risk cap fill a book up to, and not beyond, the limits. */
  lemma FillUp(l: Limits, s: State, symbol: string, risk: real, n: nat)
    requires Trading(l, s, s.today) && risk <= RiskCap(l, s) && BucketOf(symbol).Some?
    requires n > 0 ==>
      var b := BucketOf(symbol).value;
      && Total(s.positions) + n <= l.maxOpenPositions && Held(s.positions, symbol) + n <= l.maxPositionsPerSymbol
      && InBucket(s.positions, b) + (if symbol in Members(b) then n - 1 else 0) < l.correlatedSymbolLimit
    ensures Run(l, s, Orders(s.today, symbol, risk, n)) == s.(positions := More(s.positions, symbol, n))
  {
    hide Run, Evaluate, Total, Held, InBucket, BucketOf, Members, More;
    forall k: nat | k < n
      ensures Passes(Evaluate(l, s.(positions := More(s.positions, symbol, k)), s.today, symbol, 1.0, risk))
    {
      MoreCounts(s.positions, symbol, k);
      FullPassesExactlyWhen(l, s.(positions := More(s.positions, symbol, k)), s.today, symbol, 1.0, risk);
    }
    OrdersFill(l, s, symbol, risk, n);
  }

  lemma BucketOverflows(l: Limits, m: Book, b: Bucket)
    requires |BucketSlots(m, b)| > l.correlatedSymbolLimit
    ensures !CapsHold(l, m)
  {
  }

  // ---- Trimmed approvals --------------------------------------------------------------------------

  /** However many such orders come, the caps hold. */
  ghost predicate CapsSurvive(l: Limits, equity: real, today: int, symbol: string, risk: real) {
    forall n: nat :: CapsHold(l, Run(l, Init(equity, today), Orders(today, symbol, risk, n)).positions)
  }

  lemma {:induction false} OrdersDisciplined(l: Limits, equity: real, today: int, symbol: string, risk: real, n: nat)
    requires Listed(symbol) && risk <= equity * (l.maxRiskPerTradePct / 100.0)
    ensures Disciplined(l, Init(equity, today), Orders(today, symbol, risk, n))
    ensures Run(l, Init(equity, today), Orders(today, symbol, risk, n)).equity == equity
  {
    hide Listed, Evaluate;
    if n > 0 {
      assert Orders(today, symbol, risk, n)[..n - 1] == Orders(today, symbol, risk, n - 1);
      OrdersDisciplined(l, equity, today, symbol, risk, n - 1);
    }
  }

  /**
   * A trimmed approval passes every position cap. Where positions are opened on any approval, orders for a listed
   * symbol keep the caps if and only if they stay within the risk cap, or have no risk and so fail in the trimming.
   */
  lemma CapsSurviveExactlyWhenUntrimmed(l: Limits, equity: real, today: int, symbol: string, risk: real)
    requires Listed(symbol) && 0.0 < equity && 0.0 < l.maxDailyLossPct
    ensures CapsSurvive(l, equity, today, symbol, risk) <==>
            risk <= equity * (l.maxRiskPerTradePct / 100.0) || risk == 0.0
  {
    hide CapsHold, Run, Evaluate, More, Listed;
    LossCapPositive(equity, l);
    if risk <= equity * (l.maxRiskPerTradePct / 100.0) {
      forall n: nat ensures CapsHold(l, Run(l, Init(equity, today), Orders(today, symbol, risk, n)).positions) {
        OrdersDisciplined(l, equity, today, symbol, risk, n);
        CapsAlwaysHold(l, equity, today, Orders(today, symbol, risk, n));
      }
    } else if risk == 0.0 {
      forall n: nat ensures CapsHold(l, Run(l, Init(equity, today), Orders(today, symbol, risk, n)).positions) {
        OrdersFail(l, equity, today, symbol, n);
        EmptyCaps(l);
      }
    } else {
      var n := l.maxOpenPositions + 1;
      forall k: nat | k < n
        ensures Passes(Evaluate(l, Init(equity, today).(positions := More(map[], symbol, k)), today, symbol, 1.0, risk))
      {
        FullPassesExactlyWhen(l, Init(equity, today).(positions := More(map[], symbol, k)), today, symbol, 1.0, risk);
      }
      OrdersFill(l, Init(equity, today), symbol, risk, n);
      MoreCounts(map[], symbol, n);
      TotalOverflows(l, More(map[], symbol, n));
    }
  }

  lemma TotalOverflows(l: Limits, m: Book)
    requires Total(m) > l.maxOpenPositions
    ensures !CapsHold(l, m)
  {
  }

  lemma {:induction false} OrdersFail(l: Limits, equity: real, today: int, symbol: string, n: nat)
    requires 0.0 > equity * (l.maxRiskPerTradePct / 100.0) && 0.0 < equity * (l.maxDailyLossPct / 100.0)
    ensures Run(l, Init(equity, today), Orders(today, symbol, 0.0, n)) == Init(equity, today)
  {
    hide Evaluate;
    if n > 0 {
      assert Orders(today, symbol, 0.0, n)[..n - 1] == Orders(today, symbol, 0.0, n - 1);
      OrdersFail(l, equity, today, symbol, n - 1);
      FullPassesExactlyWhen(l, Init(equity, today), today, symbol, 1.0, 0.0);
    }
  }

  lemma LossCapPositive(equity: real, l: Limits)
    requires 0.0 < equity && 0.0 < l.maxDailyLossPct
    ensures 0.0 < equity * (l.maxDailyLossPct / 100.0)
  {
  }
}
