/** The gatekeeper for orders: daily loss limit, per-trade cap, position caps and the drawdown latch. */
module RiskManager {
  import opened Basics

  datatype Limits = Limits(maxRiskPerTradePct: real, maxDailyLossPct: real, maxDrawdownPct: real,
                           maxOpenPositions: nat, maxPositionsPerSymbol: nat, correlatedSymbolLimit: nat)

  datatype Info = Info(ticket: Option<int>)

  type Book = map<string, seq<Info>>

  datatype State = State(equity: real, peak: real, realizedToday: real, today: int, positions: Book, disabled: bool)

  datatype Reason = BotDisabled | DailyLoss | MaxOpen | PerSymbol | Correlation

  /** `Raised` stands for a division by zero in the trimming step. */
  datatype Decision = Approved | Trimmed(size: real) | Rejected(reason: Reason) | Raised

  datatype Bucket = GoldBlock | BtcBlock

  function UpperChar(ch: char): char { if 'a' <= ch <= 'z' then ch - 'a' + 'A' else ch }

  function Upper(s: string): string { seq(|s|, i requires 0 <= i < |s| => UpperChar(s[i])) }

  function Members(b: Bucket): seq<string> {
    match b
    case GoldBlock => ["XAUUSD", "XAGUSD"]
    case BtcBlock => ["BTCUSDT", "BTCUSD"]
  }

  function BucketOf(symbol: string): Option<Bucket> {
    if Upper(symbol) in Members(GoldBlock) then Some(GoldBlock)
    else if Upper(symbol) in Members(BtcBlock) then Some(BtcBlock)
    else None
  }

  // ---- Counting positions -------------------------------------------------------------------------

  /** One slot per position: its symbol and its place in that symbol's list. */
  function Slots(m: Book): set<(string, nat)> {
    set s, i: nat | s in m && i < |m[s]| :: (s, i)
  }

  function SlotsIn(m: Book, names: set<string>): set<(string, nat)> {
    set x | x in Slots(m) && x.0 in names
  }

  function Held(m: Book, symbol: string): nat { if symbol in m then |m[symbol]| else 0 }

  function Total(m: Book): nat { |Slots(m)| }

  function InBucket(m: Book, b: Bucket): nat { |SlotsIn(m, set s | s in Members(b))| }

  // ---- What each operation does -------------------------------------------------------------------

  function Init(equity: real, today: int): State { State(equity, equity, 0.0, today, map[], false) }

  function DrawdownPct(equity: real, peak: real): real
    requires peak != 0.0
  {
    (1.0 - equity / peak) * 100.0
  }

  /** A zero peak makes the drawdown undefined: the equity is stored and an exception leaves the rest as it was. */
  function OnEquity(l: Limits, s: State, equity: real): State {
    var peak := if equity > s.peak then equity else s.peak;
    var s1 := s.(equity := equity, peak := peak);
    if peak != 0.0 && DrawdownPct(equity, peak) >= l.maxDrawdownPct then s1.(disabled := true) else s1
  }

  function RollDay(s: State, today: int): State {
    if today != s.today then s.(today := today, realizedToday := 0.0) else s
  }

  function OnTradeClosed(s: State, today: int, pnl: real): State {
    var s1 := RollDay(s, today);
    s1.(realizedToday := s1.realizedToday + pnl)
  }

  function Opened(m: Book, symbol: string, info: Info): Book {
    m[symbol := (if symbol in m then m[symbol] else []) + [info]]
  }

  function Without(ps: seq<Info>, ticket: int): (r: seq<Info>)
    ensures |r| <= |ps|
    ensures forall p :: p in r <==> p in ps && p.ticket != Some(ticket)
  {
    if ps == [] then [] else (if ps[0].ticket == Some(ticket) then [] else [ps[0]]) + Without(ps[1..], ticket)
  }

  function Closed(m: Book, symbol: string, ticket: Option<int>): Book {
    var ps := if symbol in m then m[symbol] else [];
    match ticket
    case None => if symbol in m then m[symbol := []] else m
    case Some(t) => m[symbol := Without(ps, t)]
  }

  function Evaluate(l: Limits, s: State, today: int, symbol: string, size: real, risk: real): Decision {
    var s1 := RollDay(s, today);
    var cap := s1.equity * (l.maxRiskPerTradePct / 100.0);
    if s1.disabled then Rejected(BotDisabled)
    else if -s1.realizedToday >= s1.equity * (l.maxDailyLossPct / 100.0) then Rejected(DailyLoss)
    else if risk > cap then (if risk == 0.0 then Raised else Trimmed(size * (cap / risk)))
    else if Total(s1.positions) >= l.maxOpenPositions then Rejected(MaxOpen)
    else if Held(s1.positions, symbol) >= l.maxPositionsPerSymbol then Rejected(PerSymbol)
    else
      var b := BucketOf(symbol);
      if b.Some? && InBucket(s1.positions, b.value) >= l.correlatedSymbolLimit then Rejected(Correlation)
      else Approved
  }

  // ---- Counting loops -----------------------------------------------------------------------------

  function Row(symbol: string, n: nat): set<(string, nat)> { set i: nat | i < n :: (symbol, i) }

  lemma {:induction false} RowSize(symbol: string, n: nat)
    ensures |Row(symbol, n)| == n
  {
    if n == 0 {
      assert Row(symbol, n) == {};
    } else {
      RowSize(symbol, n - 1);
      assert Row(symbol, n) == Row(symbol, n - 1) + {(symbol, n - 1)};
    }
  }

  lemma SlotMember(m: Book, x: (string, nat))
    ensures x in Slots(m) <==> x.0 in m && x.1 < |m[x.0]|
  {
    if x.0 in m && x.1 < |m[x.0]| {
      assert (x.0, x.1) == x;
    }
  }

  /** Counting one more symbol adds the length of its list. */
  lemma CountOneMore(m: Book, names: set<string>, symbol: string)
    requires symbol !in names
    ensures |SlotsIn(m, names + {symbol})| == |SlotsIn(m, names)| + Held(m, symbol)
  {
    hide Slots;
    var row := Row(symbol, Held(m, symbol));
    RowSize(symbol, Held(m, symbol));
    forall x: (string, nat)
      ensures x in SlotsIn(m, names + {symbol}) <==> x in SlotsIn(m, names) || x in row
    {
      SlotMember(m, x);
      if x.0 == symbol && x.1 < Held(m, symbol) { assert (symbol, x.1) in row; }
    }
    assert SlotsIn(m, names + {symbol}) == SlotsIn(m, names) + row;
    assert SlotsIn(m, names) !! row;
  }

  class Manager {
    const limits: Limits
    var equity: real
    var peak: real
    var realizedToday: real
    var today: int
    var positions: Book
    var disabled: bool

    ghost function Model(): State
      reads this
    {
      State(equity, peak, realizedToday, today, positions, disabled)
    }

    constructor (limits: Limits, initialEquity: real, today: int)
      ensures this.limits == limits && Model() == Init(initialEquity, today)
    {
      this.limits := limits;
      equity, peak, realizedToday, disabled := initialEquity, initialEquity, 0.0, false;
      this.today := today;
      positions := map[];
    }

    method OnEquityUpdate(e: real)
      modifies this
      ensures Model() == OnEquity(limits, old(Model()), e) && equity == e
    {
      equity := e;
      if e > peak { peak := e; }
      if peak == 0.0 { return; }
      var dd := (1.0 - e / peak) * 100.0;
      if dd >= limits.maxDrawdownPct && !disabled { disabled := true; }
    }

    method RollDayIfNeeded(now: int)
      modifies this`today, this`realizedToday
      ensures Model() == RollDay(old(Model()), now)
    {
      if now != today {
        today := now;
        realizedToday := 0.0;
      }
    }

    method TradeClosed(now: int, pnl: real)
      modifies this
      ensures Model() == OnTradeClosed(old(Model()), now, pnl)
    {
      RollDayIfNeeded(now);
      realizedToday := realizedToday + pnl;
    }

    method PositionOpened(symbol: string, info: Info)
      modifies this`positions
      ensures Model() == old(Model()).(positions := Opened(old(positions), symbol, info))
    {
      if symbol !in positions { positions := positions[symbol := []]; }
      positions := positions[symbol := positions[symbol] + [info]];
      assert positions == Opened(old(positions), symbol, info);
    }

    method PositionClosed(symbol: string, ticket: Option<int>)
      modifies this`positions
      ensures Model() == old(Model()).(positions := Closed(old(positions), symbol, ticket))
    {
      var ps := if symbol in positions then positions[symbol] else [];
      if ticket.None? {
        if symbol in positions { positions := positions[symbol := []]; }
      } else {
        positions := positions[symbol := Without(ps, ticket.value)];
      }
    }

    method CountAll() returns (n: nat)
      ensures n == Total(positions)
    {
      n := 0;
      var todo := positions.Keys;
      ghost var done: set<string> := {};
      assert SlotsIn(positions, {}) == {};
      while todo != {}
        invariant done + todo == positions.Keys && done !! todo
        invariant n == |SlotsIn(positions, done)|
        decreases todo
      {
        var s :| s in todo;
        CountOneMore(positions, done, s);
        n := n + |positions[s]|;
        todo := todo - {s};
        done := done + {s};
      }
      assert SlotsIn(positions, done) == Slots(positions);
    }

    method CountBucket(b: Bucket) returns (n: nat)
      ensures n == InBucket(positions, b)
    {
      n := 0;
      var names := Members(b);
      ghost var done: set<string> := {};
      assert SlotsIn(positions, {}) == {};
      for i := 0 to |names|
        invariant done == set s | s in names[..i]
        invariant n == |SlotsIn(positions, done)|
      {
        assert names[i] !in done;
        CountOneMore(positions, done, names[i]);
        n := n + if names[i] in positions then |positions[names[i]]| else 0;
        done := done + {names[i]};
        assert names[..i + 1] == names[..i] + [names[i]];
      }
      assert names[..|names|] == names;
      assert done == set s | s in Members(b);
    }

    method EvaluateOrder(now: int, symbol: string, size: real, risk: real) returns (d: Decision)
      modifies this`today, this`realizedToday
      ensures Model() == RollDay(old(Model()), now)
      ensures d == Evaluate(limits, old(Model()), now, symbol, size, risk)
    {
      RollDayIfNeeded(now);
      if disabled { return Rejected(BotDisabled); }
      var lossCap := equity * (limits.maxDailyLossPct / 100.0);
      if -realizedToday >= lossCap { return Rejected(DailyLoss); }
      var cap := equity * (limits.maxRiskPerTradePct / 100.0);
      if risk > cap {
        if risk == 0.0 { return Raised; }
        var scale := cap / risk;
        return Trimmed(size * scale);
      }
      var total := CountAll();
      if total >= limits.maxOpenPositions { return Rejected(MaxOpen); }
      var held := if symbol in positions then |positions[symbol]| else 0;
      if held >= limits.maxPositionsPerSymbol { return Rejected(PerSymbol); }
      var bucket := BucketOf(symbol);
      if bucket.Some? {
        var inBucket := CountBucket(bucket.value);
        if inBucket >= limits.correlatedSymbolLimit { return Rejected(Correlation); }
      }
      d := Approved;
    }
  }
}
