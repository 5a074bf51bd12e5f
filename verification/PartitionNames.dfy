/** Month arithmetic and the names of monthly partitions, with the parser that reads a month back from a name. */
module PartitionNames {
  import opened Basics

  /** The first day of a month. */
  datatype Month = Month(year: int, month: int)

  /** The dates that exist: years 1 to 9999. */
  predicate Exists(d: Month) { 1 <= d.year <= 9999 && 1 <= d.month <= 12 }

  /** Months counted from year zero. */
  function Index(d: Month): int { d.year * 12 + d.month - 1 }

  function OfIndex(k: int): Month { Month(k / 12, k % 12 + 1) }

  predicate InCalendar(k: int) { 12 <= k < 120000 }

  function AddMonths(d: Month, months: int): Month {
    Month(d.year + (d.month - 1 + months) / 12, (d.month - 1 + months) % 12 + 1)
  }

  /** Adding months is adding to the index, across years and backwards too. */
  lemma AddMonthsIsPlus(d: Month, months: int)
    ensures AddMonths(d, months) == OfIndex(Index(d) + months)
    ensures Index(AddMonths(d, months)) == Index(d) + months
  {
  }

  lemma IndexInverts(d: Month, k: int)
    ensures Index(OfIndex(k)) == k
    ensures 1 <= d.month <= 12 ==> OfIndex(Index(d)) == d
    ensures InCalendar(k) <==> Exists(OfIndex(k))
    ensures Exists(d) ==> InCalendar(Index(d))
  {
  }

  // ---- Printing -----------------------------------------------------------------------------------

  function Digit(n: int): char
    requires 0 <= n <= 9
  {
    "0123456789"[n]
  }

  function Pad4(n: int): string
    requires 0 <= n <= 9999
  {
    [Digit(n / 1000), Digit(n / 100 % 10), Digit(n / 10 % 10), Digit(n % 10)]
  }

  function Pad2(n: int): string
    requires 0 <= n <= 99
  {
    [Digit(n / 10), Digit(n % 10)]
  }

  function Tag(d: Month): string
    requires Exists(d)
  {
    Pad4(d.year) + "_m" + Pad2(d.month)
  }

  function Name(table: string, d: Month): string
    requires Exists(d)
  {
    table + "_y" + Tag(d)
  }

  // ---- Parsing ------------------------------------------------------------------------------------

  predicate IsDigit(ch: char) { '0' <= ch <= '9' }

  function Val(ch: char): int { ch as int - '0' as int }

  function DigitValue(ch: char): Option<int> {
    if IsDigit(ch) then Some(Val(ch)) else None
  }

  /** The number written by a string of decimal digits. */
  function ParseInt(s: string): Option<int> {
    if s == [] then None
    else if |s| == 1 then DigitValue(s[0])
    else
      var high, low := ParseInt(s[..|s| - 1]), DigitValue(s[|s| - 1]);
      if high.Some? && low.Some? then Some(high.value * 10 + low.value) else None
  }

  /** The position after the last a-b pair that starts before n. */
  function AfterLast(s: string, a: char, b: char, n: nat): (r: Option<nat>)
    requires n == 0 || n < |s|
    ensures r.Some? ==> 2 <= r.value <= n + 1 && s[r.value - 2] == a && s[r.value - 1] == b
  {
    if n == 0 then None
    else if s[n - 1] == a && s[n] == b then Some(n + 1)
    else AfterLast(s, a, b, n - 1)
  }

  /** The positions at which the pair a-b starts, from i on. */
  function Pairs(s: string, a: char, b: char, i: nat): seq<nat>
    decreases |s| - i
  {
    if i + 1 >= |s| then []
    else if s[i] == a && s[i + 1] == b then [i] + Pairs(s, a, b, i + 2)
    else Pairs(s, a, b, i + 1)
  }

  /** Cut after the last "_y", split at the only "_m", read two numbers and accept only a real date. */
  function Parse(name: string): Option<Month> {
    var cut := if |name| == 0 then None else AfterLast(name, '_', 'y', |name| - 1);
    if cut.None? then None else
      var tag := name[cut.value..];
      var cuts := Pairs(tag, '_', 'm', 0);
      if |cuts| != 1 || cuts[0] + 2 > |tag| then None else
        var year, month := ParseInt(tag[..cuts[0]]), ParseInt(tag[cuts[0] + 2..]);
        if year.None? || month.None? then None
        else if Exists(Month(year.value, month.value)) then Some(Month(year.value, month.value)) else None
  }

  predicate TableChar(ch: char) { 'a' <= ch <= 'z' || ch == '_' }

  predicate TableName(s: string) { s != [] && forall i :: 0 <= i < |s| ==> TableChar(s[i]) }

  /** The pattern of the catalogue query: a table name, "_y", four digits, "_m", two digits, and nothing else. */
  predicate MatchesPattern(name: string) {
    var n := |name| - 10;
    && n >= 1 && TableName(name[..n])
    && name[n] == '_' && name[n + 1] == 'y'
    && IsDigit(name[n + 2]) && IsDigit(name[n + 3]) && IsDigit(name[n + 4]) && IsDigit(name[n + 5])
    && name[n + 6] == '_' && name[n + 7] == 'm' && IsDigit(name[n + 8]) && IsDigit(name[n + 9])
  }

  // ---- Printing and parsing are inverse -----------------------------------------------------------

  lemma DigitReads(n: int)
    requires 0 <= n <= 9
    ensures IsDigit(Digit(n)) && Val(Digit(n)) == n && DigitValue(Digit(n)) == Some(n)
  {
    if n == 0 {} else if n == 1 {} else if n == 2 {} else if n == 3 {} else if n == 4 {}
    else if n == 5 {} else if n == 6 {} else if n == 7 {} else if n == 8 {} else {}
  }

  /** One more digit on the right. */
  lemma ReadOneMore(s: string, v: int, ch: char)
    requires s != [] && ParseInt(s) == Some(v) && IsDigit(ch)
    ensures ParseInt(s + [ch]) == Some(v * 10 + Val(ch))
  {
    assert (s + [ch])[..|s|] == s;
  }

  lemma ReadTwo(a: char, b: char)
    requires IsDigit(a) && IsDigit(b)
    ensures ParseInt([a, b]) == Some(Val(a) * 10 + Val(b))
  {
    ReadOneMore([a], Val(a), b);
    assert [a] + [b] == [a, b];
  }

  lemma ReadFour(a: char, b: char, c: char, e: char)
    requires IsDigit(a) && IsDigit(b) && IsDigit(c) && IsDigit(e)
    ensures ParseInt([a, b, c, e]) ==
      Some(((Val(a) * 10 + Val(b)) * 10 + Val(c)) * 10 + Val(e))
  {
    hide ParseInt;
    ReadTwo(a, b);
    var v := Val(a) * 10 + Val(b);
    ReadOneMore([a, b], v, c);
    assert [a, b] + [c] == [a, b, c];
    ReadOneMore([a, b, c], v * 10 + Val(c), e);
    assert [a, b, c] + [e] == [a, b, c, e];
  }

  lemma Pad2Reads(n: int)
    requires 0 <= n <= 99
    ensures ParseInt(Pad2(n)) == Some(n)
  {
    hide ParseInt, Digit;
    DigitReads(n / 10);
    DigitReads(n % 10);
    ReadTwo(Digit(n / 10), Digit(n % 10));
  }

  lemma Pad4Reads(n: int)
    requires 0 <= n <= 9999
    ensures ParseInt(Pad4(n)) == Some(n)
  {
    hide ParseInt, Digit, Val;
    DigitReads(n / 1000);
    DigitReads(n / 100 % 10);
    DigitReads(n / 10 % 10);
    DigitReads(n % 10);
    ReadFour(Digit(n / 1000), Digit(n / 100 % 10), Digit(n / 10 % 10), Digit(n % 10));
    Decimal(n);
  }

  lemma Decimal(n: int)
    requires 0 <= n <= 9999
    ensures ((n / 1000 * 10 + n / 100 % 10) * 10 + n / 10 % 10) * 10 + n % 10 == n
  {
    assert n / 1000 == n / 100 / 10;
    assert n / 100 == n / 10 / 10;
  }

  lemma TagShape(d: Month)
    requires Exists(d)
    ensures var t := Tag(d);
      && |t| == 8 && t[..4] == Pad4(d.year) && t[4] == '_' && t[5] == 'm' && t[6..] == Pad2(d.month)
      && forall i :: i in {0, 1, 2, 3, 6, 7} ==> IsDigit(t[i])
  {
    DigitReads(d.year / 1000);
    DigitReads(d.year / 100 % 10);
    DigitReads(d.year / 10 % 10);
    DigitReads(d.year % 10);
    DigitReads(d.month / 10);
    DigitReads(d.month % 10);
  }

  /** The last "_y" of a name is the one before the tag, whatever the table is called. */
  lemma {:induction false} AfterLastFinds(s: string, k: nat, n: nat)
    requires k < n < |s| && s[k] == '_' && s[k + 1] == 'y'
    requires forall i :: k + 1 < i <= n ==> s[i] != 'y'
    ensures AfterLast(s, '_', 'y', n) == Some(k + 2)
  {
    if n != k + 1 {
      AfterLastFinds(s, k, n - 1);
    }
  }

  lemma OnePair(t: string)
    requires |t| == 8 && t[4] == '_' && t[5] == 'm' && forall i :: i in {0, 1, 2, 3, 6, 7} ==> IsDigit(t[i])
    ensures Pairs(t, '_', 'm', 0) == [4]
  {
    assert Pairs(t, '_', 'm', 6) == [] by { assert Pairs(t, '_', 'm', 7) == []; }
    assert Pairs(t, '_', 'm', 4) == [4];
    assert Pairs(t, '_', 'm', 3) == [4];
    assert Pairs(t, '_', 'm', 2) == [4];
    assert Pairs(t, '_', 'm', 1) == [4];
  }

  /** Reading a printed name gives back its month. */
  lemma ParseInvertsName(table: string, d: Month)
    requires Exists(d)
    ensures Parse(Name(table, d)) == Some(d)
  {
    hide Tag, Pairs, AfterLast, ParseInt, Pad4, Pad2;
    var name, t, k := Name(table, d), Tag(d), |table|;
    TagShape(d);
    assert name[k + 2..] == t;
    forall i | k + 1 < i < |name| ensures name[i] != 'y' {
      assert name[i] == t[i - k - 2];
      assert i - k - 2 in {0, 1, 2, 3, 6, 7} || i - k - 2 in {4, 5};
    }
    AfterLastFinds(name, k, |name| - 1);
    OnePair(t);
    assert t[4 + 2..] == t[6..];
    Pad4Reads(d.year);
    Pad2Reads(d.month);
  }

  /** What a name looks like: the table, then "_y" and four digits that write the year, then "_m" and two for the month. */
  lemma NameLayout(table: string, d: Month)
    requires Exists(d)
    ensures var name, n := Name(table, d), |table|;
      && |name| == n + 10 && name[..n] == table
      && name[n] == '_' && name[n + 1] == 'y' && name[n + 6] == '_' && name[n + 7] == 'm'
      && '0' <= name[n + 2] <= '9' && '0' <= name[n + 3] <= '9' && '0' <= name[n + 4] <= '9' && '0' <= name[n + 5] <= '9'
      && '0' <= name[n + 8] <= '9' && '0' <= name[n + 9] <= '9'
      && d.year == (name[n + 2] - '0') as int * 1000 + (name[n + 3] - '0') as int * 100 +
                   (name[n + 4] - '0') as int * 10 + (name[n + 5] - '0') as int
      && d.month == (name[n + 8] - '0') as int * 10 + (name[n + 9] - '0') as int
  {
    TagShape(d);
    var name, n, t := Name(table, d), |table|, Tag(d);
    assert name[..n] == table;
    forall i | 0 <= i < 8 ensures name[n + 2 + i] == t[i] {}
    DigitReads(d.year / 1000);
    DigitReads(d.year / 100 % 10);
    DigitReads(d.year / 10 % 10);
    DigitReads(d.year % 10);
    DigitReads(d.month / 10);
    DigitReads(d.month % 10);
    Decimal(d.year);
    assert t[..4] == Pad4(d.year) && t[0] == t[..4][0] && t[1] == t[..4][1] && t[2] == t[..4][2] && t[3] == t[..4][3];
    assert t[6..] == Pad2(d.month) && t[6] == t[6..][0] && t[7] == t[6..][1];
  }

  /** Names are injective in table and month together. */
  lemma NamesAreInjective(table: string, d: Month, table': string, d': Month)
    requires Exists(d) && Exists(d') && Name(table, d) == Name(table', d')
    ensures table == table' && d == d'
  {
    hide Tag, Parse;
    TagShape(d);
    TagShape(d');
    ParseInvertsName(table, d);
    ParseInvertsName(table', d');
    assert |table| == |table'|;
    assert Name(table, d)[..|table|] == table && Name(table', d')[..|table'|] == table';
  }

  /** The names that the catalogue query selects include every printed name of a proper table. */
  lemma NamesMatchPattern(table: string, d: Month)
    requires Exists(d)
    ensures MatchesPattern(Name(table, d)) <==> TableName(table)
  {
    hide Tag;
    TagShape(d);
    var name, n := Name(table, d), |table|;
    assert |name| - 10 == n;
    assert name[..n] == table;
    assert name[n] == '_' && name[n + 1] == 'y';
    forall i | 0 <= i < 8 ensures name[n + 2 + i] == Tag(d)[i] {}
  }

  lemma DigitOf(ch: char)
    requires IsDigit(ch)
    ensures 0 <= Val(ch) <= 9 && Digit(Val(ch)) == ch
  {
    var n := Val(ch);
    DigitReads(n);
  }

  lemma PadsBack2(a: char, b: char)
    requires IsDigit(a) && IsDigit(b)
    ensures var n := Val(a) * 10 + Val(b);
      0 <= n <= 99 && Pad2(n) == [a, b]
  {
    hide Digit, Val;
    DigitOf(a);
    DigitOf(b);
  }

  lemma PadsBack4(a: char, b: char, c: char, e: char)
    requires IsDigit(a) && IsDigit(b) && IsDigit(c) && IsDigit(e)
    ensures var n := ((Val(a) * 10 + Val(b)) * 10 + Val(c)) * 10 + Val(e);
      0 <= n <= 9999 && Pad4(n) == [a, b, c, e]
  {
    hide Digit, Val;
    DigitOf(a);
    DigitOf(b);
    DigitOf(c);
    DigitOf(e);
    Positions(Val(a), Val(b), Val(c), Val(e));
  }

  lemma Positions(a: int, b: int, c: int, e: int)
    requires 0 <= a <= 9 && 0 <= b <= 9 && 0 <= c <= 9 && 0 <= e <= 9
    ensures var n := ((a * 10 + b) * 10 + c) * 10 + e;
      0 <= n <= 9999 && n / 1000 == a && n / 100 % 10 == b && n / 10 % 10 == c && n % 10 == e
  {
    var ab, abc, n := a * 10 + b, (a * 10 + b) * 10 + c, ((a * 10 + b) * 10 + c) * 10 + e;
    LastDigit(abc, e);
    LastDigit(ab, c);
    LastDigit(a, b);
    assert n / 100 == n / 10 / 10;
    assert n / 1000 == n / 100 / 10;
  }

  lemma LastDigit(m: int, e: int)
    requires 0 <= e <= 9
    ensures (m * 10 + e) / 10 == m && (m * 10 + e) % 10 == e
  {
  }

  /** A selected name that parses is the printed name of that month for the table before it: nothing else is ever dropped. */
  lemma NameInvertsParse(name: string)
    requires MatchesPattern(name) && Parse(name).Some?
    ensures name == Name(name[..|name| - 10], Parse(name).value)
  {
    hide Pairs, AfterLast, ParseInt, Pad4, Pad2;
    var n := |name| - 10;
    var t := name[n + 2..];
    assert forall i :: n + 1 < i <= |name| - 1 ==> name[i] != 'y';
    AfterLastFinds(name, n, |name| - 1);
    OnePair(t);
    assert t[..4] == [t[0], t[1], t[2], t[3]] && t[4 + 2..] == [t[6], t[7]];
    ReadFour(t[0], t[1], t[2], t[3]);
    ReadTwo(t[6], t[7]);
    PadsBack4(t[0], t[1], t[2], t[3]);
    PadsBack2(t[6], t[7]);
    var d := Parse(name).value;
    assert t == Tag(d);
    assert name == name[..n] + "_y" + t;
  }
}
