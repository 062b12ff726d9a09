/** Document numbers: counters advanced inside the business transaction, and the codes printed from them. */
module Numbering {
  import Tables

  datatype SequenceKey = MAT | SUP | WH | PR | PO | RCV | TXN | CNT
  datatype Date = Date(year: nat, month: nat, day: nat)
  datatype Counter = Counter(key: SequenceKey, date: Date)

  predicate RealDate(d: Date) {
    1 <= d.year <= 9999 && 1 <= d.month <= 12 && 1 <= d.day <= 31
  }

  // Master data is numbered for ever, everything else by day.
  predicate IsGlobal(key: SequenceKey) {
    key == MAT || key == SUP || key == WH
  }

  const EPOCH := Date(1970, 1, 1)

  function Prefix(key: SequenceKey): string {
    match key
    case MAT => "MAT"
    case SUP => "SUP"
    case WH => "WH"
    case PR => "PR"
    case PO => "PO"
    case RCV => "RCV"
    case TXN => "TXN"
    case CNT => "CNT"
  }

  // ---------------------------------------------------------------------------------------------
  // Printing numbers
  // ---------------------------------------------------------------------------------------------

  function DigitChar(d: nat): char
    requires d < 10
  {
    "0123456789"[d]
  }

  function DigitValue(c: char): nat {
    if '0' <= c <= '9' then (c as int) - ('0' as int) else 0
  }

  lemma {:induction false} DigitRoundTrip(d: nat)
    requires d < 10
    ensures DigitValue(DigitChar(d)) == d && '0' <= DigitChar(d) <= '9'
  {
    assert d == 0 || d == 1 || d == 2 || d == 3 || d == 4 || d == 5 || d == 6 || d == 7 || d == 8 || d == 9;
  }

  predicate AllDigits(s: string) {
    forall i :: 0 <= i < |s| ==> '0' <= s[i] <= '9'
  }

  function Decimal(n: nat): string {
    if n < 10 then [DigitChar(n)] else Decimal(n / 10) + [DigitChar(n % 10)]
  }

  function Zeros(count: nat): string {
    seq(count, i => '0')
  }

  // Zero-padded to at least `width` digits; longer numbers are printed in full.
  function Padded(n: nat, width: nat): string {
    var d := Decimal(n);
    if |d| >= width then d else Zeros(width - |d|) + d
  }

  function Value(s: string): nat {
    if s == [] then 0 else Value(s[..|s| - 1]) * 10 + DigitValue(s[|s| - 1])
  }

  lemma {:induction false} DecimalRoundTrip(n: nat)
    ensures Value(Decimal(n)) == n && AllDigits(Decimal(n)) && |Decimal(n)| >= 1
  {
    if n < 10 {
      DigitRoundTrip(n);
      assert Decimal(n)[..0] == [];
    } else {
      DecimalRoundTrip(n / 10);
      DigitRoundTrip(n % 10);
      assert Decimal(n)[..|Decimal(n)| - 1] == Decimal(n / 10);
    }
  }

  lemma {:induction false} LeadingZeros(count: nat, s: string)
    ensures Value(Zeros(count) + s) == Value(s)
  {
    if s == [] {
      assert Zeros(count) + s == Zeros(count);
      if count > 0 {
        assert Zeros(count)[..count - 1] == Zeros(count - 1);
        LeadingZeros(count - 1, []);
        assert Zeros(count - 1) + [] == Zeros(count - 1);
      }
    } else {
      LeadingZeros(count, s[..|s| - 1]);
      assert (Zeros(count) + s)[..|Zeros(count) + s| - 1] == Zeros(count) + s[..|s| - 1];
    }
  }

  // A printed number reads back as itself, also when it is wider than the pad.
  lemma {:induction false} PaddedRoundTrip(n: nat, width: nat)
    ensures Value(Padded(n, width)) == n && AllDigits(Padded(n, width)) && |Padded(n, width)| >= 1
    ensures |Padded(n, width)| >= width
  {
    DecimalRoundTrip(n);
    if |Decimal(n)| < width { LeadingZeros(width - |Decimal(n)|, Decimal(n)); }
  }

  // Two digits exactly, for months and days.
  lemma {:induction false} TwoDigits(n: nat)
    requires n < 100
    ensures |Padded(n, 2)| == 2
  {
    if n >= 10 { assert Decimal(n / 10) == [DigitChar(n / 10)]; }
  }

  // ---------------------------------------------------------------------------------------------
  // Codes
  // ---------------------------------------------------------------------------------------------

  function FormatCode(prefix: string, number: nat): string {
    prefix + "-" + Padded(number, 6)
  }

  function PrintDate(d: Date): string {
    Decimal(d.year) + Padded(d.month, 2) + Padded(d.day, 2)
  }

  function DailyCode(prefix: string, d: Date, number: nat, width: nat): string {
    prefix + "-" + PrintDate(d) + "-" + Padded(number, width)
  }

  // What each kind of document is called.
  function Code(c: Counter, number: nat): string {
    if IsGlobal(c.key) then FormatCode(Prefix(c.key), number)
    else DailyCode(Prefix(c.key), c.date, number, if c.key == TXN then 6 else 4)
  }

  lemma {:induction false} OnlyDigitsAfter(a: string, m: string)
    requires AllDigits(m)
    ensures var s := a + "-" + m; s[|a|] == '-' && forall i :: |a| < i < |s| ==> s[i] != '-'
  {
    forall i | |a| < i < |a + "-" + m| ensures (a + "-" + m)[i] != '-' { assert (a + "-" + m)[i] == m[i - |a| - 1]; }
  }

  // The last dash tells the number from what precedes it.
  lemma {:induction false} SplitAtLastDash(a: string, m: string, b: string, n: string)
    requires a + "-" + m == b + "-" + n && AllDigits(m) && AllDigits(n)
    ensures a == b && m == n
  {
    OnlyDigitsAfter(a, m);
    OnlyDigitsAfter(b, n);
    var s := a + "-" + m;
    assert |a| == |b|;
    assert s[..|a|] == a && s[..|a|] == b;
    assert s[|a| + 1..] == m && s[|a| + 1..] == n;
  }

  lemma {:induction false} ThreeParts(a: string, b: string, c: string)
    requires |b| == 2 && |c| == 2
    ensures var s, n := a + b + c, |a + b + c|; s[..n - 4] == a && s[n - 4..n - 2] == b && s[n - 2..] == c
  {
  }

  function ReadDate(s: string): Date
    requires |s| >= 4
  {
    Date(Value(s[..|s| - 4]), Value(s[|s| - 4..|s| - 2]), Value(s[|s| - 2..]))
  }

  lemma {:induction false} PrintedDateRoundTrip(d: Date)
    requires RealDate(d)
    ensures AllDigits(PrintDate(d)) && |PrintDate(d)| >= 5 && ReadDate(PrintDate(d)) == d
  {
    DecimalRoundTrip(d.year);
    PaddedRoundTrip(d.month, 2);
    PaddedRoundTrip(d.day, 2);
    TwoDigits(d.month);
    TwoDigits(d.day);
    ThreeParts(Decimal(d.year), Padded(d.month, 2), Padded(d.day, 2));
  }

  lemma {:induction false} FormatCodeDetermines(p: string, m: nat, q: string, n: nat)
    requires FormatCode(p, m) == FormatCode(q, n)
    ensures p == q && m == n
  {
    PaddedRoundTrip(m, 6);
    PaddedRoundTrip(n, 6);
    SplitAtLastDash(p, Padded(m, 6), q, Padded(n, 6));
  }

  // A printed daily code determines prefix, date and number, whatever the pad widths and however large the number.
  lemma {:induction false} DailyCodeDetermines(p: string, d: Date, m: nat, v: nat, q: string, e: Date, n: nat, w: nat)
    requires RealDate(d) && RealDate(e) && DailyCode(p, d, m, v) == DailyCode(q, e, n, w)
    ensures p == q && d == e && m == n
  {
    PaddedRoundTrip(m, v);
    PaddedRoundTrip(n, w);
    SplitAtLastDash(p + "-" + PrintDate(d), Padded(m, v), q + "-" + PrintDate(e), Padded(n, w));
    PrintedDateRoundTrip(d);
    PrintedDateRoundTrip(e);
    SplitAtLastDash(p, PrintDate(d), q, PrintDate(e));
  }

  lemma {:induction false} PrefixDetermines(a: SequenceKey, b: SequenceKey)
    requires Prefix(a) == Prefix(b)
    ensures a == b
  {
    var s := Prefix(a);
    assert |s| >= 2 && (s[0], s[1]) == (Prefix(b)[0], Prefix(b)[1]);
  }

  // A global counter has the one fixed date, the others a calendar date.
  predicate CounterOk(c: Counter) {
    if IsGlobal(c.key) then c.date == EPOCH else RealDate(c.date)
  }

  lemma {:induction false} NoDash(key: SequenceKey)
    ensures forall i :: 0 <= i < |Prefix(key)| ==> Prefix(key)[i] != '-'
  {
  }

  lemma {:induction false} GlobalIsNotDaily(g: SequenceKey, m: nat, k: SequenceKey, d: Date, n: nat, w: nat)
    ensures FormatCode(Prefix(g), m) != DailyCode(Prefix(k), d, n, w)
  {
    var rest := Prefix(k) + "-" + PrintDate(d);
    NoDash(g);
    assert rest[|Prefix(k)|] == '-';
    assert Prefix(g) != rest;
    PaddedRoundTrip(m, 6);
    PaddedRoundTrip(n, w);
    if FormatCode(Prefix(g), m) == DailyCode(Prefix(k), d, n, w) {
      SplitAtLastDash(Prefix(g), Padded(m, 6), rest, Padded(n, w));
    }
  }

  // No two issued numbers print the same code, across all kinds of documents.
  lemma {:induction false} CodesAreDistinct(c: Counter, m: nat, d: Counter, n: nat)
    requires CounterOk(c) && CounterOk(d) && Code(c, m) == Code(d, n)
    ensures c == d && m == n
  {
    var v, w := if c.key == TXN then 6 else 4, if d.key == TXN then 6 else 4;
    if IsGlobal(c.key) && IsGlobal(d.key) {
      FormatCodeDetermines(Prefix(c.key), m, Prefix(d.key), n);
      PrefixDetermines(c.key, d.key);
    } else if !IsGlobal(c.key) && !IsGlobal(d.key) {
      DailyCodeDetermines(Prefix(c.key), c.date, m, v, Prefix(d.key), d.date, n, w);
      PrefixDetermines(c.key, d.key);
    } else {
      GlobalIsNotDaily(c.key, m, d.key, d.date, n, w);
      GlobalIsNotDaily(d.key, n, c.key, c.date, m, v);
    }
  }

  // ---------------------------------------------------------------------------------------------
  // The counter table
  // ---------------------------------------------------------------------------------------------

  function NextNumber(rows: map<Counter, nat>, c: Counter): nat {
    1 + if c in rows then rows[c] else 0
  }

  // The row a number is drawn from: without a date, global keys use the one fixed date and daily keys today.
  function CounterFor(key: SequenceKey, date: Tables.Option<Date>, today: Date): Counter {
    Counter(key, if date.Some? then date.value else if IsGlobal(key) then EPOCH else today)
  }

  // ---------------------------------------------------------------------------------------------
  // The layout of codes
  // ---------------------------------------------------------------------------------------------

  // The number in decimal digits, with leading zeros up to the width and none beyond it.
  predicate Prints(s: string, number: nat, width: nat) {
    AllDigits(s) && Value(s) == number && (|s| == width || (|s| > width && s[0] != '0'))
  }

  // Prefix, dash, number.
  ghost predicate IsCode(code: string, prefix: string, number: nat, width: nat) {
    exists s :: Prints(s, number, width) && code == prefix + "-" + s
  }

  // Year, two digits of month, two digits of day.
  ghost predicate PrintsDate(s: string, d: Date) {
    exists y, m, dd :: Prints(y, d.year, 1) && Prints(m, d.month, 2) && Prints(dd, d.day, 2) && s == y + m + dd
  }

  // Prefix, dash, date, dash, number.
  ghost predicate IsDailyCode(code: string, prefix: string, d: Date, number: nat, width: nat) {
    exists date, s :: PrintsDate(date, d) && Prints(s, number, width) && code == prefix + "-" + date + "-" + s
  }

  lemma {:induction false} NoLeadingZero(n: nat)
    ensures |Decimal(n)| > 1 ==> Decimal(n)[0] != '0'
  {
    if n >= 10 {
      NoLeadingZero(n / 10);
      DecimalRoundTrip(n / 10);
      if n < 100 { DigitRoundTrip(n / 10); }
    }
  }

  lemma {:induction false} PaddedPrints(n: nat, width: nat)
    requires width >= 1
    ensures Prints(Padded(n, width), n, width)
  {
    PaddedRoundTrip(n, width);
    NoLeadingZero(n);
  }

  lemma {:induction false} FormatCodeIs(prefix: string, number: nat)
    ensures IsCode(FormatCode(prefix, number), prefix, number, 6)
  {
    PaddedPrints(number, 6);
  }

  lemma {:induction false} DatePrints(d: Date)
    ensures PrintsDate(PrintDate(d), d)
  {
    DecimalRoundTrip(d.year);
    NoLeadingZero(d.year);
    PaddedPrints(d.month, 2);
    PaddedPrints(d.day, 2);
    assert Prints(Decimal(d.year), d.year, 1);
  }

  lemma {:induction false} DailyCodeIs(prefix: string, d: Date, number: nat, width: nat)
    requires width >= 1
    ensures IsDailyCode(DailyCode(prefix, d, number, width), prefix, d, number, width)
  {
    DatePrints(d);
    PaddedPrints(number, width);
  }

  // A printed number is the only one of its layout: leading zeros are decided by the width.
  lemma {:induction false} PrintsOnce(s: string, t: string, number: nat, width: nat)
    requires Prints(s, number, width) && Prints(t, number, width) && width >= 1
    ensures s == t
  {
    ValueBounds(s);
    ValueBounds(t);
    if |s| < |t| {
      PowersGrow(|s|, |t| - 1);
    } else if |t| < |s| {
      PowersGrow(|t|, |s| - 1);
    } else {
      SameValue(s, t);
    }
  }

  function Power(n: nat): nat {
    if n == 0 then 1 else 10 * Power(n - 1)
  }

  lemma {:induction false} PowersGrow(m: nat, n: nat)
    requires m <= n
    ensures 1 <= Power(m) <= Power(n)
    decreases n
  {
    if m < n { PowersGrow(m, n - 1); } else if n > 0 { PowersGrow(m - 1, n - 1); }
  }

  lemma {:induction false} ValueBounds(s: string)
    requires AllDigits(s)
    ensures Value(s) < Power(|s|)
    ensures s != [] && s[0] != '0' ==> Value(s) >= Power(|s| - 1)
  {
    if s != [] { ValueBounds(s[..|s| - 1]); }
  }

  lemma {:induction false} InitDigits(s: string)
    requires AllDigits(s) && s != []
    ensures AllDigits(s[..|s| - 1]) && '0' <= s[|s| - 1] <= '9'
  {
  }

  lemma {:induction false} SameLastDigit(a: nat, x: char, b: nat, y: char)
    requires '0' <= x <= '9' && '0' <= y <= '9' && a * 10 + DigitValue(x) == b * 10 + DigitValue(y)
    ensures a == b && x == y
  {
    assert (x as int) - ('0' as int) == (y as int) - ('0' as int);
  }

  lemma {:induction false} SameValue(s: string, t: string)
    requires AllDigits(s) && AllDigits(t) && |s| == |t| && Value(s) == Value(t)
    ensures s == t
  {
    if s != [] {
      var n := |s| - 1;
      hide AllDigits;
      InitDigits(s);
      InitDigits(t);
      SameLastDigit(Value(s[..n]), s[n], Value(t[..n]), t[n]);
      SameValue(s[..n], t[..n]);
      assert s == s[..n] + [s[n]] && t == t[..n] + [t[n]];
    }
  }

  class NumberSequences {
    var rows: map<Counter, nat>

    constructor ()
      ensures rows == map[]
    {
      rows := map[];
    }

    // The upsert: the first number of a counter is 1, every later one the next; the row keeps the number given out.
    method NextSequenceValue(key: SequenceKey, date: Tables.Option<Date>, today: Date) returns (value: nat)
      modifies this
      ensures var c := Counter(key, if date.Some? then date.value
                                    else if key in {MAT, SUP, WH} then Date(1970, 1, 1) else today);
        value == (if c in old(rows) then old(rows)[c] + 1 else 1) && rows == old(rows)[c := value]
    {
      var c := CounterFor(key, date, today);
      if c in rows {
        rows := rows[c := rows[c] + 1];
      } else {
        rows := rows[c := 1];
      }
      value := rows[c];
    }

    // For any key and prefix; the code of a global key under its own prefix is the one CodesAreDistinct speaks of.
    method NextCode(key: SequenceKey, prefix: string, today: Date) returns (code: string)
      modifies this
      ensures var c := CounterFor(key, Tables.None, today);
        var number := NextNumber(old(rows), c);
        && rows == old(rows)[c := number] && IsCode(code, prefix, number, 6)
        && (IsGlobal(key) && prefix == Prefix(key) ==> code == Code(c, number))
    {
      var number := NextSequenceValue(key, Tables.None, today);
      FormatCodeIs(prefix, number);
      code := FormatCode(prefix, number);
    }

    // For any key and prefix, always padded to 4.
    method NextDailyCode(key: SequenceKey, prefix: string, date: Tables.Option<Date>,
                         today: Date) returns (code: string)
      modifies this
      ensures var d := if date.Some? then date.value else today;
        var c := Counter(key, d);
        var number := NextNumber(old(rows), c);
        && rows == old(rows)[c := number]
        && IsDailyCode(code, prefix, d, number, 4)
        && (!IsGlobal(key) && key != TXN && prefix == Prefix(key) ==> code == Code(c, number))
    {
      var d := if date.Some? then date.value else today;
      var number := NextSequenceValue(key, Tables.Some(d), today);
      code := DailyCode(prefix, d, number, 4);
      DailyCodeIs(prefix, d, number, 4);
    }

    // _next_txn_no of the ledger: its own prefix, padded to 6.
    method NextTransactionNumber(date: Date) returns (code: string)
      modifies this
      ensures var c := Counter(TXN, date);
        var number := NextNumber(old(rows), c);
        code == Code(c, number) && IsDailyCode(code, "TXN", date, number, 6) && rows == old(rows)[c := number]
    {
      var number := NextSequenceValue(TXN, Tables.Some(date), date);
      code := DailyCode(Prefix(TXN), date, number, 6);
      DailyCodeIs("TXN", date, number, 6);
    }
  }

  // ---------------------------------------------------------------------------------------------
  // Many transactions drawing numbers at once
  // ---------------------------------------------------------------------------------------------

  datatype Draw = Draw(counter: Counter, number: nat)

  // A transaction holds the rows of the counters it drew from (`before` is what they held) until it ends.
  datatype Phase = Drawing(before: map<Counter, nat>, drawn: seq<Draw>) | Ended
  datatype State = State(rows: map<Counter, nat>, processes: seq<Phase>, committed: seq<Draw>)

  function NumberOf(rows: map<Counter, nat>, c: Counter): nat {
    if c in rows then rows[c] else 0
  }

  predicate Touches(p: Phase, c: Counter) {
    p.Drawing? && c in p.before
  }

  ghost predicate DrawStep(s: State, p: nat, c: Counter, s2: State)
    requires p < |s.processes|
  {
    && s.processes[p].Drawing? && (forall q :: 0 <= q < |s.processes| && q != p ==> !Touches(s.processes[q], c))
    && var number, proc := NextNumber(s.rows, c), s.processes[p];
       var before := if c in proc.before then proc.before else proc.before[c := NumberOf(s.rows, c)];
       s2 == s.(rows := s.rows[c := number],
                processes := s.processes[p := Drawing(before, proc.drawn + [Draw(c, number)])])
  }

  ghost predicate CommitStep(s: State, p: nat, s2: State)
    requires p < |s.processes|
  {
    && s.processes[p].Drawing?
    && s2 == s.(processes := s.processes[p := Ended], committed := s.committed + s.processes[p].drawn)
  }

  ghost predicate RollbackStep(s: State, p: nat, s2: State)
    requires p < |s.processes|
  {
    s.processes[p].Drawing? && s2 == s.(processes := s.processes[p := Ended], rows := s.rows + s.processes[p].before)
  }

  ghost predicate StepOf(s: State, p: nat, s2: State) {
    p < |s.processes| && ((exists c :: DrawStep(s, p, c, s2)) || CommitStep(s, p, s2) || RollbackStep(s, p, s2))
  }

  ghost predicate NextStep(s: State, s2: State) {
    exists p :: StepOf(s, p, s2)
  }

  function NumbersOf(draws: seq<Draw>, c: Counter): seq<nat> {
    if draws == [] then [] else
      var init := NumbersOf(draws[..|draws| - 1], c);
      if draws[|draws| - 1].counter == c then init + [draws[|draws| - 1].number] else init
  }

  // from+1, from+2, ..., upto
  predicate CountsUp(numbers: seq<nat>, from: nat, upto: nat) {
    |numbers| == upto - from && forall i :: 0 <= i < |numbers| ==> numbers[i] == from + 1 + i
  }

  ghost predicate Exclusive(s: State) {
    forall p, q, c :: 0 <= p < q < |s.processes| ==> !(Touches(s.processes[p], c) && Touches(s.processes[q], c))
  }

  // Numbers drawn but not committed continue the committed ones.
  ghost predicate CounterFits(s: State, p: Phase, c: Counter)
    requires p.Drawing?
  {
    if c in p.before
    then CountsUp(NumbersOf(s.committed, c), 0, p.before[c])
         && CountsUp(NumbersOf(p.drawn, c), p.before[c], NumberOf(s.rows, c))
    else NumbersOf(p.drawn, c) == []
  }

  ghost predicate DrawingFits(s: State, p: Phase) {
    p.Drawing? ==> forall c :: CounterFits(s, p, c)
  }

  predicate Untouched(s: State, c: Counter) {
    forall p :: 0 <= p < |s.processes| ==> !Touches(s.processes[p], c)
  }

  ghost predicate Inv(s: State) {
    && Exclusive(s)
    && (forall p :: 0 <= p < |s.processes| ==> DrawingFits(s, s.processes[p]))
    && (forall c :: Untouched(s, c) ==> CountsUp(NumbersOf(s.committed, c), 0, NumberOf(s.rows, c)))
  }

  lemma {:induction false} NumbersOfConcat(a: seq<Draw>, b: seq<Draw>, c: Counter)
    ensures NumbersOf(a + b, c) == NumbersOf(a, c) + NumbersOf(b, c)
  {
    if b == [] {
      assert a + b == a;
    } else {
      NumbersOfConcat(a, b[..|b| - 1], c);
      assert (a + b)[..|a + b| - 1] == a + b[..|b| - 1];
    }
  }

  lemma {:induction false} OnlyToucher(s: State, p: nat, q: nat, c: Counter)
    requires Exclusive(s) && p < |s.processes| && q < |s.processes| && p != q && Touches(s.processes[p], c)
    ensures !Touches(s.processes[q], c)
  {
    var low, high := if p < q then p else q, if p < q then q else p;
    assert !(Touches(s.processes[low], c) && Touches(s.processes[high], c));
  }

  lemma {:induction false} OneMoreNumber(draws: seq<Draw>, x: Draw, c: Counter)
    ensures NumbersOf(draws + [x], c) == NumbersOf(draws, c) + if x.counter == c then [x.number] else []
  {
    assert (draws + [x])[..|draws|] == draws;
  }

  lemma {:induction false} CountsOn(numbers: seq<nat>, from: nat, upto: nat)
    requires CountsUp(numbers, from, upto)
    ensures CountsUp(numbers + [upto + 1], from, upto + 1)
  {
  }

  lemma {:induction false} DrawKeepsOtherCounter(s: State, p: nat, c: Counter, s2: State, d: Counter)
    requires p < |s.processes| && DrawStep(s, p, c, s2) && CounterFits(s, s.processes[p], d) && d != c
    ensures CounterFits(s2, s2.processes[p], d)
  {
    OneMoreNumber(s.processes[p].drawn, Draw(c, NextNumber(s.rows, c)), d);
  }

  lemma {:induction false} DrawKeepsCounter(s: State, p: nat, c: Counter, s2: State)
    requires p < |s.processes| && DrawStep(s, p, c, s2) && CounterFits(s, s.processes[p], c)
    requires c !in s.processes[p].before ==> CountsUp(NumbersOf(s.committed, c), 0, NumberOf(s.rows, c))
    ensures CounterFits(s2, s2.processes[p], c)
  {
    var proc := s.processes[p];
    OneMoreNumber(proc.drawn, Draw(c, NextNumber(s.rows, c)), c);
    if c in proc.before {
      CountsOn(NumbersOf(proc.drawn, c), proc.before[c], NumberOf(s.rows, c));
    } else {
      CountsOn([], NumberOf(s.rows, c), NumberOf(s.rows, c));
    }
  }

  lemma {:induction false} DrawKeepsInv(s: State, p: nat, c: Counter, s2: State)
    requires Inv(s) && p < |s.processes| && DrawStep(s, p, c, s2)
    ensures Inv(s2)
  {
    forall q, r, d | 0 <= q < r < |s2.processes| ensures !(Touches(s2.processes[q], d) && Touches(s2.processes[r], d)) {
      assert !(Touches(s.processes[q], d) && Touches(s.processes[r], d));
    }
    forall q | 0 <= q < |s2.processes| ensures DrawingFits(s2, s2.processes[q]) {
      if q == p {
        assert DrawingFits(s, s.processes[p]);
        if c !in s.processes[p].before { assert Untouched(s, c); }
        forall d ensures CounterFits(s2, s2.processes[p], d) {
          assert CounterFits(s, s.processes[p], d);
          if d == c { DrawKeepsCounter(s, p, c, s2); } else { DrawKeepsOtherCounter(s, p, c, s2, d); }
        }
      } else {
        assert DrawingFits(s, s.processes[q]) && !Touches(s.processes[q], c);
        forall d | s.processes[q].Drawing? ensures CounterFits(s2, s.processes[q], d) {
          assert CounterFits(s, s.processes[q], d);
        }
      }
    }
    forall d | Untouched(s2, d) ensures CountsUp(NumbersOf(s2.committed, d), 0, NumberOf(s2.rows, d)) {
      assert !Touches(s2.processes[p], d);
      forall q | 0 <= q < |s.processes| ensures !Touches(s.processes[q], d) { assert !Touches(s2.processes[q], d); }
      assert Untouched(s, d);
    }
  }

  lemma {:induction false} EndKeepsExclusive(s: State, p: nat, s2: State)
    requires Exclusive(s) && p < |s.processes| && s2.processes == s.processes[p := Ended]
    ensures Exclusive(s2)
  {
    forall q, r, d | 0 <= q < r < |s2.processes| ensures !(Touches(s2.processes[q], d) && Touches(s2.processes[r], d)) {
      assert !(Touches(s.processes[q], d) && Touches(s.processes[r], d));
    }
  }

  lemma {:induction false} CommitKeepsInv(s: State, p: nat, s2: State)
    requires Inv(s) && p < |s.processes| && CommitStep(s, p, s2)
    ensures Inv(s2)
  {
    var proc := s.processes[p];
    EndKeepsExclusive(s, p, s2);
    assert DrawingFits(s, proc);
    forall c { NumbersOfConcat(s.committed, proc.drawn, c); }
    forall q | 0 <= q < |s2.processes| ensures DrawingFits(s2, s2.processes[q]) {
      if q != p && s.processes[q].Drawing? {
        forall c ensures CounterFits(s2, s.processes[q], c) {
          assert CounterFits(s, s.processes[q], c) && CounterFits(s, proc, c);
          if c in s.processes[q].before { OnlyToucher(s, q, p, c); }
        }
      }
    }
    forall c | Untouched(s2, c) ensures CountsUp(NumbersOf(s2.committed, c), 0, NumberOf(s2.rows, c)) {
      assert CounterFits(s, proc, c);
      if c !in proc.before {
        forall q | 0 <= q < |s.processes| ensures !Touches(s.processes[q], c) { assert !Touches(s2.processes[q], c); }
        assert Untouched(s, c);
      }
    }
  }

  lemma {:induction false} RollbackKeepsInv(s: State, p: nat, s2: State)
    requires Inv(s) && p < |s.processes| && RollbackStep(s, p, s2)
    ensures Inv(s2)
  {
    var proc := s.processes[p];
    EndKeepsExclusive(s, p, s2);
    assert DrawingFits(s, proc);
    forall q | 0 <= q < |s2.processes| ensures DrawingFits(s2, s2.processes[q]) {
      if q != p && s.processes[q].Drawing? {
        forall c ensures CounterFits(s2, s.processes[q], c) {
          assert CounterFits(s, s.processes[q], c) && CounterFits(s, proc, c);
          if c in s.processes[q].before { OnlyToucher(s, q, p, c); }
        }
      }
    }
    forall c | Untouched(s2, c) ensures CountsUp(NumbersOf(s2.committed, c), 0, NumberOf(s2.rows, c)) {
      assert CounterFits(s, proc, c);
      if c !in proc.before {
        forall q | 0 <= q < |s.processes| ensures !Touches(s.processes[q], c) { assert !Touches(s2.processes[q], c); }
        assert Untouched(s, c);
      }
    }
  }

  ghost predicate Schedule(run: seq<State>) {
    && run != [] && run[0].rows == map[] && run[0].committed == []
    && (forall p :: 0 <= p < |run[0].processes| ==> run[0].processes[p] == Drawing(map[], []))
    && (forall i :: 0 <= i < |run| - 1 ==> NextStep(run[i], run[i + 1]))
  }

  lemma {:induction false} ScheduleKeepsInv(run: seq<State>, i: nat)
    requires Schedule(run) && i < |run|
    ensures Inv(run[i])
  {
    if i > 0 {
      ScheduleKeepsInv(run, i - 1);
      var s, s2 := run[i - 1], run[i - 1 + 1];
      assert NextStep(s, s2);
      var p :| StepOf(s, p, s2);
      if c :| DrawStep(s, p, c, s2) {
        DrawKeepsInv(s, p, c, s2);
      } else if CommitStep(s, p, s2) {
        CommitKeepsInv(s, p, s2);
      } else {
        RollbackKeepsInv(s, p, s2);
      }
    }
  }

  // At any moment of any schedule, with any rollbacks, the committed numbers of a counter are exactly 1, 2, ..., n: the
  // counter moves inside the business transaction, so there are no gaps.
  lemma {:induction false} CommittedNumbersHaveNoGaps(run: seq<State>, i: nat, c: Counter)
    requires Schedule(run) && i < |run|
    ensures CountsUp(NumbersOf(run[i].committed, c), 0, |NumbersOf(run[i].committed, c)|)
  {
    ScheduleKeepsInv(run, i);
    if !Untouched(run[i], c) {
      var p :| 0 <= p < |run[i].processes| && Touches(run[i].processes[p], c);
      assert DrawingFits(run[i], run[i].processes[p]) && CounterFits(run[i], run[i].processes[p], c);
    }
  }

  // The position of a draw among the numbers of its counter.
  lemma {:induction false} DrawIsCounted(draws: seq<Draw>, i: nat, c: Counter)
    requires i < |draws| && draws[i].counter == c
    ensures var k := |NumbersOf(draws[..i], c)|; k < |NumbersOf(draws, c)| && NumbersOf(draws, c)[k] == draws[i].number
  {
    assert draws == draws[..i] + ([draws[i]] + draws[i + 1..]);
    NumbersOfConcat(draws[..i], [draws[i]] + draws[i + 1..], c);
    NumbersOfConcat([draws[i]], draws[i + 1..], c);
    assert NumbersOf([draws[i]], c) == [draws[i].number];
  }

  lemma {:induction false} LaterIsCountedLater(draws: seq<Draw>, i: nat, j: nat, c: Counter)
    requires i < j < |draws| && draws[i].counter == c
    ensures |NumbersOf(draws[..i], c)| < |NumbersOf(draws[..j], c)|
  {
    DrawIsCounted(draws[..j], i, c);
    assert draws[..j][..i] == draws[..i];
  }

  // So no two committed documents of any kind carry the same code.
  lemma {:induction false} CommittedCodesDistinct(run: seq<State>, n: nat, i: nat, j: nat)
    requires Schedule(run) && n < |run| && i < j < |run[n].committed|
    requires CounterOk(run[n].committed[i].counter) && CounterOk(run[n].committed[j].counter)
    ensures var a, b := run[n].committed[i], run[n].committed[j]; Code(a.counter, a.number) != Code(b.counter, b.number)
  {
    var a, b, draws := run[n].committed[i], run[n].committed[j], run[n].committed;
    if Code(a.counter, a.number) == Code(b.counter, b.number) {
      CodesAreDistinct(a.counter, a.number, b.counter, b.number);
      CommittedNumbersHaveNoGaps(run, n, a.counter);
      DrawIsCounted(draws, i, a.counter);
      DrawIsCounted(draws, j, a.counter);
      LaterIsCountedLater(draws, i, j, a.counter);
    }
  }
}
