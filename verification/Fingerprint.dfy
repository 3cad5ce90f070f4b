/** The canonical string a fingerprint hashes, and when it identifies a transaction. */
module Fingerprint {
  import opened Prelude
  import opened Transactions
  import opened Identifiers

  const FINGERPRINT_VERSION := "v1"
  const DELIMITER := '|'

  // ---- Decimal printing

  function Digit(n: nat): char
    requires n < 10
  {
    ('0' as int + n) as char
  }

  function Digits(n: nat): string {
    if n < 10 then [Digit(n)] else Digits(n / 10) + [Digit(n % 10)]
  }

  function Pad(width: nat, n: nat): (s: string)
    ensures |s| == width
    ensures DELIMITER !in s
  {
    if width == 0 then [] else Pad(width - 1, n / 10) + [Digit(n % 10)]
  }

  function Pow10(w: nat): nat { if w == 0 then 1 else 10 * Pow10(w - 1) }

  function ReadDecimal(s: string): int {
    if s == [] then 0 else 10 * ReadDecimal(s[..|s| - 1]) + (s[|s| - 1] as int - '0' as int)
  }

  lemma {:induction false} ReadDigits(n: nat)
    ensures ReadDecimal(Digits(n)) == n
    ensures DELIMITER !in Digits(n)
  {
    if n >= 10 {
      ReadDigits(n / 10);
      assert Digits(n)[..|Digits(n)| - 1] == Digits(n / 10);
    }
  }

  lemma {:induction false} ReadPad(width: nat, n: nat)
    requires n < Pow10(width)
    ensures ReadDecimal(Pad(width, n)) == n
  {
    if width > 0 {
      ReadPad(width - 1, n / 10);
      assert Pad(width, n)[..width - 1] == Pad(width - 1, n / 10);
    }
  }

  // Number.prototype.toFixed(2) of an amount held in cents.
  function ToFixed2(cents: nat): string { Digits(cents / 100) + ['.'] + Pad(2, cents % 100) }

  lemma ToFixedInjective(a: nat, b: nat)
    ensures ToFixed2(a) == ToFixed2(b) ==> a == b
    ensures DELIMITER !in ToFixed2(a)
  {
    ReadDigits(a / 100); ReadDigits(b / 100);
    assert Pow10(2) == 10 * Pow10(1) == 100;
    ReadPad(2, a % 100); ReadPad(2, b % 100);
    var s, t := ToFixed2(a), ToFixed2(b);
    assert s[|s| - 2..] == Pad(2, a % 100) && t[|t| - 2..] == Pad(2, b % 100);
    assert s[..|s| - 3] == Digits(a / 100) && t[..|t| - 3] == Digits(b / 100);
  }

  // ---- Date.prototype.toISOString

  predicate Leap(year: nat) { year % 4 == 0 && (year % 100 != 0 || year % 400 == 0) }

  function YearLength(year: nat): nat { if Leap(year) then 366 else 365 }

  function MonthLength(year: nat, month: nat): nat {
    if month == 2 then (if Leap(year) then 29 else 28)
    else if month == 4 || month == 6 || month == 9 || month == 11 then 30
    else 31
  }

  // (year, day of the year counted from 0)
  function CivilYear(days: nat, year: nat): (nat, nat) {
    if days < YearLength(year) then (year, days) else CivilYear(days - YearLength(year), year + 1)
  }

  // (month, day of the month counted from 1)
  function CivilMonth(day: nat, year: nat, month: nat): (nat, nat)
    decreases 12 - month
  {
    if month >= 12 || day < MonthLength(year, month) then (month, day + 1)
    else CivilMonth(day - MonthLength(year, month), year, month + 1)
  }

  function DaysOfYears(from: nat, to: nat): nat
    decreases to - from
  {
    if from >= to then 0 else YearLength(from) + DaysOfYears(from + 1, to)
  }

  function DaysOfMonths(year: nat, from: nat, to: nat): nat
    decreases to - from
  {
    if from >= to then 0 else MonthLength(year, from) + DaysOfMonths(year, from + 1, to)
  }

  lemma {:induction false} CivilYearInverse(days: nat, year: nat)
    ensures var (y, d) := CivilYear(days, year);
            year <= y <= year + days / 365 && d < YearLength(y) && days == DaysOfYears(year, y) + d
    decreases days
  {
    if days >= YearLength(year) {
      CivilYearInverse(days - YearLength(year), year + 1);
    }
  }

  lemma {:induction false} CivilMonthInverse(day: nat, year: nat, month: nat)
    requires 1 <= month <= 12 && day < DaysOfMonths(year, month, 13)
    ensures var (m, d) := CivilMonth(day, year, month);
            month <= m <= 12 && 1 <= d <= 31 && day == DaysOfMonths(year, month, m) + d - 1
    decreases 12 - month
  {
    if month == 12 {
      assert DaysOfMonths(year, 13, 13) == 0;
    } else if day >= MonthLength(year, month) {
      CivilMonthInverse(day - MonthLength(year, month), year, month + 1);
    }
  }

  lemma YearIsItsMonths(year: nat)
    ensures DaysOfMonths(year, 1, 13) == YearLength(year)
  {
    assert DaysOfMonths(year, 11, 13) == 61;
    assert DaysOfMonths(year, 9, 13) == 122;
    assert DaysOfMonths(year, 7, 13) == 184;
    assert DaysOfMonths(year, 5, 13) == 245;
    assert DaysOfMonths(year, 3, 13) == 306;
  }

  datatype Civil = Civil(year: nat, month: nat, day: nat, hour: nat, minute: nat, second: nat, milli: nat)

  function ToCivil(t: Instant): Civil {
    var (year, dayOfYear) := CivilYear(t / MS_PER_DAY, 1970);
    var (month, day) := CivilMonth(dayOfYear, year, 1);
    var ms := t % MS_PER_DAY;
    Civil(year, month, day, ms / 3_600_000, ms / 60_000 % 60, ms / 1000 % 60, ms % 1000)
  }

  function FromCivil(c: Civil): int {
    (DaysOfYears(1970, c.year) + DaysOfMonths(c.year, 1, c.month) + c.day - 1) * MS_PER_DAY
    + c.hour * 3_600_000 + c.minute * 60_000 + c.second * 1000 + c.milli
  }

  lemma ClockParts(ms: nat)
    ensures ms == ms / 3_600_000 * 3_600_000 + ms / 60_000 % 60 * 60_000 + ms / 1000 % 60 * 1000 + ms % 1000
  {
    var seconds := ms / 1000;
    var minutes := seconds / 60;
    assert minutes == ms / 60_000;
    assert minutes / 60 == ms / 3_600_000;
  }

  lemma CivilRoundTrip(t: Instant)
    ensures FromCivil(ToCivil(t)) == t
    ensures var c := ToCivil(t);
            && c.year < 10_000 && c.month < 100 && c.day < 100
            && c.hour < 24 && c.minute < 60 && c.second < 60 && c.milli < 1000
  {
    CivilYearInverse(t / MS_PER_DAY, 1970);
    var (year, dayOfYear) := CivilYear(t / MS_PER_DAY, 1970);
    YearIsItsMonths(year);
    CivilMonthInverse(dayOfYear, year, 1);
    ClockParts(t % MS_PER_DAY);
  }

  function IsoClock(c: Civil): string {
    Pad(2, c.hour) + ([':'] + (Pad(2, c.minute) + ([':'] + (Pad(2, c.second) + (['.'] + (Pad(3, c.milli) + ['Z']))))))
  }

  function IsoOf(c: Civil): string {
    Pad(4, c.year) + (['-'] + (Pad(2, c.month) + (['-'] + (Pad(2, c.day) + (['T'] + IsoClock(c))))))
  }

  function ToIso(t: Instant): string { IsoOf(ToCivil(t)) }

  lemma Peel(a: string, x: string, b: string, y: string)
    requires |a| == |b| && a + x == b + y
    ensures a == b && x == y
  {
    assert (a + x)[..|a|] == a && (a + x)[|a|..] == x;
    assert (b + y)[..|b|] == b && (b + y)[|b|..] == y;
  }

  // Peels one fixed-width number and its one-character separator.
  lemma PeelField(w: nat, m: nat, n: nat, sep: string, x: string, y: string)
    requires m < Pow10(w) && n < Pow10(w)
    requires Pad(w, m) + (sep + x) == Pad(w, n) + (sep + y)
    ensures m == n && x == y
  {
    Peel(Pad(w, m), sep + x, Pad(w, n), sep + y);
    Peel(sep, x, sep, y);
    ReadPad(w, m);
    ReadPad(w, n);
  }

  predicate InRange(c: Civil) {
    && c.year < 10_000 && c.month < 100 && c.day < 100
    && c.hour < 24 && c.minute < 60 && c.second < 60 && c.milli < 1000
  }

  lemma Powers()
    ensures Pow10(2) == 100 && Pow10(3) == 1000 && Pow10(4) == 10_000
  {
    assert Pow10(1) == 10 * Pow10(0);
  }

  lemma ClockInjective(c: Civil, d: Civil)
    requires InRange(c) && InRange(d) && IsoClock(c) == IsoClock(d)
    ensures c.hour == d.hour && c.minute == d.minute && c.second == d.second && c.milli == d.milli
  {
    Powers();
    var am, bm := Pad(3, c.milli) + ['Z'], Pad(3, d.milli) + ['Z'];
    var as_, bs := Pad(2, c.second) + (['.'] + am), Pad(2, d.second) + (['.'] + bm);
    var ai, bi := Pad(2, c.minute) + ([':'] + as_), Pad(2, d.minute) + ([':'] + bs);
    PeelField(2, c.hour, d.hour, [':'], ai, bi);
    PeelField(2, c.minute, d.minute, [':'], as_, bs);
    PeelField(2, c.second, d.second, ['.'], am, bm);
    Peel(Pad(3, c.milli), ['Z'], Pad(3, d.milli), ['Z']);
    ReadPad(3, c.milli);
    ReadPad(3, d.milli);
  }

  lemma DateInjective(c: Civil, d: Civil)
    requires InRange(c) && InRange(d) && IsoOf(c) == IsoOf(d)
    ensures c == d
  {
    Powers();
    var ad, bd := Pad(2, c.day) + (['T'] + IsoClock(c)), Pad(2, d.day) + (['T'] + IsoClock(d));
    PeelField(4, c.year, d.year, ['-'], Pad(2, c.month) + (['-'] + ad), Pad(2, d.month) + (['-'] + bd));
    PeelField(2, c.month, d.month, ['-'], ad, bd);
    PeelField(2, c.day, d.day, ['T'], IsoClock(c), IsoClock(d));
    ClockInjective(c, d);
  }

  lemma IsoInjective(a: Instant, b: Instant)
    ensures ToIso(a) == ToIso(b) ==> a == b
    ensures DELIMITER !in ToIso(a)
  {
    CivilRoundTrip(a);
    CivilRoundTrip(b);
    if ToIso(a) == ToIso(b) { DateInjective(ToCivil(a), ToCivil(b)); }
    NoBarInIso(ToCivil(a));
  }

  lemma NoBarInIso(c: Civil)
    ensures DELIMITER !in IsoOf(c)
  {
    assert DELIMITER !in IsoClock(c);
  }

  // Two decimals after a point, and before it the whole units.
  lemma ToFixedShape(cents: nat)
    ensures var s := ToFixed2(cents);
            && |s| >= 4 && s[|s| - 3] == '.'
            && 100 * ReadDecimal(s[..|s| - 3]) + ReadDecimal(s[|s| - 2..]) == cents
  {
    ReadDigits(cents / 100);
    Powers();
    ReadPad(2, cents % 100);
    var s := ToFixed2(cents);
    assert s[..|s| - 3] == Digits(cents / 100) && s[|s| - 2..] == Pad(2, cents % 100);
  }

  // YYYY-MM-DDTHH:MM:SS.mmmZ, each number being that field of the calendar.
  lemma IsoShape(t: Instant)
    ensures var s, c := ToIso(t), ToCivil(t);
            && |s| == 24 && s[4] == s[7] == '-' && s[10] == 'T' && s[13] == s[16] == ':' && s[19] == '.' && s[23] == 'Z'
            && ReadDecimal(s[..4]) == c.year && ReadDecimal(s[5..7]) == c.month && ReadDecimal(s[8..10]) == c.day
            && ReadDecimal(s[11..13]) == c.hour && ReadDecimal(s[14..16]) == c.minute
            && ReadDecimal(s[17..19]) == c.second && ReadDecimal(s[20..23]) == c.milli
  {
    CivilRoundTrip(t);
    Powers();
    var s, c := ToIso(t), ToCivil(t);
    ReadPad(4, c.year);
    ReadPad(2, c.month);
    ReadPad(2, c.day);
    ReadPad(2, c.hour);
    ReadPad(2, c.minute);
    ReadPad(2, c.second);
    ReadPad(3, c.milli);
    IsoSlices(c);
  }

  lemma IsoSlices(c: Civil)
    ensures var s := IsoOf(c);
            && |s| == 24 && s[4] == s[7] == '-' && s[10] == 'T' && s[13] == s[16] == ':' && s[19] == '.' && s[23] == 'Z'
            && s[..4] == Pad(4, c.year) && s[5..7] == Pad(2, c.month) && s[8..10] == Pad(2, c.day)
            && s[11..13] == Pad(2, c.hour) && s[14..16] == Pad(2, c.minute)
            && s[17..19] == Pad(2, c.second) && s[20..23] == Pad(3, c.milli)
  {
    var s, k := IsoOf(c), IsoClock(c);
    assert k[..2] == Pad(2, c.hour) && k[3..5] == Pad(2, c.minute) && k[6..8] == Pad(2, c.second);
    assert k[9..12] == Pad(3, c.milli);
    assert s[11..] == k;
  }

  lemma {:induction false} YearsSnoc(first: nat, last: nat)
    requires first < last
    ensures DaysOfYears(first, last) == DaysOfYears(first, last - 1) + YearLength(last - 1)
    decreases last - first
  {
    if first + 1 < last { YearsSnoc(first + 1, last); }
  }

  lemma {:induction false} MonthsSnoc(year: nat, first: nat, last: nat)
    requires first < last
    ensures DaysOfMonths(year, first, last) == DaysOfMonths(year, first, last - 1) + MonthLength(year, last - 1)
    decreases last - first
  {
    if first + 1 < last { MonthsSnoc(year, first + 1, last); }
  }

  lemma By4(year: nat)
    requires year >= 1970
    ensures (year - 1968) / 4 == (year - 1969) / 4 + if year % 4 == 0 then 1 else 0
  {}

  lemma By100(year: nat)
    requires year >= 1970
    ensures (year - 1900) / 100 == (year - 1901) / 100 + if year % 100 == 0 then 1 else 0
  {}

  lemma By400(year: nat)
    requires year >= 1970
    ensures (year - 1600) / 400 == (year - 1601) / 400 + if year % 400 == 0 then 1 else 0
  {}

  lemma Multiples(year: nat)
    ensures year % 400 == 0 ==> year % 100 == 0
    ensures year % 100 == 0 ==> year % 4 == 0
  {
    if year % 400 == 0 { TimesHundred(4 * (year / 400)); }
    if year % 100 == 0 { TimesFour(25 * (year / 100)); }
  }

  lemma TimesHundred(q: nat)
    ensures 100 * q % 100 == 0
  {}

  lemma TimesFour(q: nat)
    ensures 4 * q % 4 == 0
  {}

  function LeapsBefore(year: nat): int
    requires year >= 1970
  {
    (year - 1969) / 4 - (year - 1901) / 100 + (year - 1601) / 400
  }

  lemma LeapAdds(year: nat)
    requires year >= 1970
    ensures LeapsBefore(year + 1) == LeapsBefore(year) + if Leap(year) then 1 else 0
  {
    By4(year);
    By100(year);
    By400(year);
    Multiples(year);
  }

  lemma {:induction false} YearsAndLeaps(year: nat)
    requires year >= 1970
    ensures DaysOfYears(1970, year) == 365 * (year - 1970) + LeapsBefore(year)
  {
    if year > 1970 {
      YearsAndLeaps(year - 1);
      YearsSnoc(1970, year);
      LeapAdds(year - 1);
    }
  }

  // The days before a year and before a month, in closed form: the Gregorian calendar.
  lemma YearsClosedForm(year: nat)
    requires year >= 1970
    ensures DaysOfYears(1970, year)
         == 365 * (year - 1970) + (year - 1969) / 4 - (year - 1901) / 100 + (year - 1601) / 400
  {
    YearsAndLeaps(year);
  }

  lemma {:induction false} MonthsClosedForm(year: nat, month: nat)
    requires 3 <= month <= 12
    ensures DaysOfMonths(year, 1, 2) == 31 && DaysOfMonths(year, 2, 3) == (if Leap(year) then 29 else 28)
    ensures DaysOfMonths(year, 3, month) == (153 * (month - 3) + 2) / 5
  {
    if month > 3 {
      MonthsClosedForm(year, month - 1);
      MonthsSnoc(year, 3, month);
    }
  }

  // ---- The canonical string

  function Join(parts: seq<string>): string
    requires parts != []
  {
    if |parts| == 1 then parts[0] else parts[0] + ([DELIMITER] + Join(parts[1..]))
  }

  function Split(s: string, current: string): seq<string> {
    if s == [] then [current]
    else if s[0] == DELIMITER then [current] + Split(s[1..], [])
    else Split(s[1..], current + [s[0]])
  }

  function Bars(s: string): nat {
    if s == [] then 0 else (if s[0] == DELIMITER then 1 else 0) + Bars(s[1..])
  }

  lemma {:induction false} SplitWord(word: string, rest: string, current: string)
    requires DELIMITER !in word
    ensures Split(word + rest, current) == Split(rest, current + word)
  {
    if word == [] {
      assert word + rest == rest && current + word == current;
    } else {
      SplitWord(word[1..], rest, current + [word[0]]);
      assert (word + rest)[1..] == word[1..] + rest;
      assert current + [word[0]] + word[1..] == current + word;
    }
  }

  // Splitting undoes joining as long as no part holds the delimiter.
  lemma {:induction false} SplitJoin(parts: seq<string>)
    requires parts != [] && forall i :: 0 <= i < |parts| ==> DELIMITER !in parts[i]
    ensures Split(Join(parts), []) == parts
  {
    if |parts| == 1 {
      SplitWord(parts[0], [], []);
      assert parts[0] + [] == parts[0] && [] + parts[0] == parts[0];
    } else {
      SplitJoin(parts[1..]);
      var rest := [DELIMITER] + Join(parts[1..]);
      SplitWord(parts[0], rest, []);
      assert [] + parts[0] == parts[0] && rest[1..] == Join(parts[1..]);
      assert parts == [parts[0]] + parts[1..];
    }
  }

  lemma {:induction false} BarsAppend(a: string, b: string)
    ensures Bars(a + b) == Bars(a) + Bars(b)
  {
    if a == [] {
      assert a + b == b;
    } else {
      BarsAppend(a[1..], b);
      assert (a + b)[1..] == a[1..] + b;
    }
  }

  lemma {:induction false} NoBars(s: string)
    ensures Bars(s) == 0 <==> DELIMITER !in s
  {
    if s != [] {
      NoBars(s[1..]);
      assert s == [s[0]] + s[1..];
    }
  }

  lemma {:induction false} BarsOfJoin(parts: seq<string>)
    requires parts != []
    ensures Bars(Join(parts)) >= |parts| - 1
    ensures Bars(Join(parts)) == |parts| - 1 <==> forall i :: 0 <= i < |parts| ==> DELIMITER !in parts[i]
  {
    NoBars(parts[0]);
    if |parts| > 1 {
      BarsOfJoin(parts[1..]);
      var rest := Join(parts[1..]);
      BarsAppend(parts[0], [DELIMITER] + rest);
      BarsAppend([DELIMITER], rest);
      assert Bars([DELIMITER]) == 1 + Bars([]);
      assert forall i :: 0 < i < |parts| ==> parts[i] == parts[1..][i - 1];
    }
  }

  function Parts(t: Transaction): seq<string> {
    [t.provider, t.transactionId, t.accountId, t.merchantId, ToFixed2(t.amount), t.currency, ToIso(t.timestamp)]
  }

  function Canonical(t: Transaction): string { Join(Parts(t)) }

  function ComputeFingerprint(sha256Hex: string -> string, t: Transaction): string {
    FINGERPRINT_VERSION + ":" + sha256Hex(Canonical(t))
  }

  // Equal in every field but the description.
  predicate SameFields(a: Transaction, b: Transaction) {
    a == b.(description := a.description)
  }

  predicate PlainIdentifiers(t: Transaction) {
    DELIMITER !in t.provider && DELIMITER !in t.transactionId && DELIMITER !in t.accountId && DELIMITER !in t.merchantId
  }

  // What validation returns: three cleaned identifiers, and a provider that is one or a fallback of some import.
  predicate ValidProvider(provider: string, fallbacks: set<string>) {
    ValidIdentifier(provider) || provider in fallbacks
  }

  predicate Validated(t: Transaction, fallbacks: set<string>) {
    && ValidProvider(t.provider, fallbacks) && ValidIdentifier(t.transactionId)
    && ValidIdentifier(t.accountId) && ValidIdentifier(t.merchantId)
  }

  // No other validated transaction has the same canonical string.
  ghost predicate Unambiguous(t: Transaction, fallbacks: set<string>) {
    forall u: Transaction :: Validated(u, fallbacks) && Canonical(u) == Canonical(t) ==> SameFields(u, t)
  }

  lemma PlainParts(t: Transaction)
    ensures PlainIdentifiers(t) <==> forall i :: 0 <= i < 7 ==> DELIMITER !in Parts(t)[i]
  {
    ToFixedInjective(t.amount, t.amount);
    IsoInjective(t.timestamp, t.timestamp);
    assert DELIMITER !in t.currency;
    var p := Parts(t);
    assert p[0] == t.provider && p[1] == t.transactionId && p[2] == t.accountId && p[3] == t.merchantId;
    assert p[4] == ToFixed2(t.amount) && p[5] == t.currency && p[6] == ToIso(t.timestamp);
  }

  lemma PlainIsUnambiguous(t: Transaction, u: Transaction)
    requires PlainIdentifiers(t) && Canonical(u) == Canonical(t)
    ensures SameFields(u, t)
  {
    PlainParts(t);
    PlainParts(u);
    BarsOfJoin(Parts(t));
    BarsOfJoin(Parts(u));
    SplitJoin(Parts(t));
    SplitJoin(Parts(u));
    var p, q := Parts(t), Parts(u);
    assert p == q;
    assert p[0] == q[0] && p[1] == q[1] && p[2] == q[2] && p[3] == q[3] && p[4] == q[4] && p[5] == q[5] && p[6] == q[6];
    ToFixedInjective(t.amount, u.amount);
    IsoInjective(t.timestamp, u.timestamp);
  }

  // ---- Reading the identifiers back from the front of the canonical string

  function Head(t: Transaction): string { Join([t.provider, t.transactionId, t.accountId, t.merchantId]) }

  function TailParts(t: Transaction): seq<string> { [ToFixed2(t.amount), t.currency, ToIso(t.timestamp)] }

  function Tail(t: Transaction): string { Join(TailParts(t)) }

  lemma JoinFour(a: string, b: string, c: string, d: string)
    ensures Join([a, b, c, d]) == a + ([DELIMITER] + (b + ([DELIMITER] + (c + ([DELIMITER] + d)))))
  {
    assert [a, b, c, d][1..] == [b, c, d] && [b, c, d][1..] == [c, d] && [c, d][1..] == [d];
    assert Join([c, d]) == c + ([DELIMITER] + d);
    assert Join([b, c, d]) == b + ([DELIMITER] + Join([c, d]));
  }

  lemma {:induction false} JoinAppend(a: seq<string>, b: seq<string>)
    requires a != [] && b != []
    ensures Join(a + b) == Join(a) + ([DELIMITER] + Join(b))
  {
    if |a| == 1 {
      assert (a + b)[1..] == b;
    } else {
      JoinAppend(a[1..], b);
      assert (a + b)[1..] == a[1..] + b;
      var front, rest := a[0], [DELIMITER] + Join(a[1..]);
      assert front + (rest + ([DELIMITER] + Join(b))) == (front + rest) + ([DELIMITER] + Join(b));
    }
  }

  lemma CanonicalForm(t: Transaction)
    ensures Canonical(t) == Head(t) + ([DELIMITER] + Tail(t))
  {
    var a := [t.provider, t.transactionId, t.accountId, t.merchantId];
    var b := TailParts(t);
    JoinAppend(a, b);
    assert a + b == Parts(t);
  }

  lemma {:induction false} SplitAppend(a: string, b: string, current: string)
    ensures Split(a + ([DELIMITER] + b), current) == Split(a, current) + Split(b, [])
  {
    var whole := a + ([DELIMITER] + b);
    if a == [] {
      assert whole == [DELIMITER] + b && whole[1..] == b;
    } else {
      assert whole[0] == a[0] && whole[1..] == a[1..] + ([DELIMITER] + b);
      if a[0] == DELIMITER {
        SplitAppend(a[1..], b, []);
      } else {
        SplitAppend(a[1..], b, current + [a[0]]);
      }
    }
  }

  lemma SplitTail(t: Transaction)
    ensures Split(Tail(t), []) == TailParts(t)
  {
    ToFixedInjective(t.amount, t.amount);
    IsoInjective(t.timestamp, t.timestamp);
    assert DELIMITER !in t.currency;
    SplitJoin(TailParts(t));
  }

  // Equal canonical strings differ, if at all, in where the identifiers are cut apart.
  lemma CanonicalIff(t: Transaction, u: Transaction)
    ensures Canonical(u) == Canonical(t) <==>
            Head(u) == Head(t) && u.amount == t.amount && u.currency == t.currency && u.timestamp == t.timestamp
  {
    CanonicalForm(t);
    CanonicalForm(u);
    if Canonical(u) == Canonical(t) {
      SplitAppend(Head(t), Tail(t), []);
      SplitAppend(Head(u), Tail(u), []);
      SplitTail(t);
      SplitTail(u);
      var p, q := Split(Canonical(t), []), Split(Canonical(u), []);
      assert p[|p| - 3..] == Split(Tail(t), []) && q[|q| - 3..] == Split(Tail(u), []);
      assert Split(Tail(t), []) == Split(Tail(u), []);
      SameTail(t, u);
    }
  }

  lemma SameTail(t: Transaction, u: Transaction)
    requires Canonical(u) == Canonical(t)
    requires TailParts(t) == TailParts(u)
    ensures Head(u) == Head(t) && u.amount == t.amount && u.currency == t.currency && u.timestamp == t.timestamp
  {
    var p, q := TailParts(t), TailParts(u);
    assert p[0] == q[0] && p[1] == q[1] && p[2] == q[2];
    ToFixedInjective(t.amount, u.amount);
    IsoInjective(t.timestamp, u.timestamp);
    CanonicalForm(t);
    CanonicalForm(u);
    assert |Head(t)| == |Head(u)|;
    assert Head(t) == Canonical(t)[..|Head(t)|];
  }

  // ---- Where the identifiers can be cut apart

  datatype Cuts = Cuts(first: nat, second: nat, third: nat)

  predicate InOrder(c: Cuts, head: string) { c.first < c.second < c.third < |head| }

  // Three delimiters that cut the string into identifiers validation returns.
  predicate CutsInto(head: string, c: Cuts, fallbacks: set<string>) {
    && InOrder(c, head)
    && head[c.first] == head[c.second] == head[c.third] == DELIMITER
    && ValidProvider(head[..c.first], fallbacks) && ValidIdentifier(head[c.first + 1..c.second])
    && ValidIdentifier(head[c.second + 1..c.third]) && ValidIdentifier(head[c.third + 1..])
  }

  function CutsOf(t: Transaction): Cuts {
    var i := |t.provider|;
    var j := i + 1 + |t.transactionId|;
    Cuts(i, j, j + 1 + |t.accountId|)
  }

  // The piece of s that starts at a given place and is followed by a delimiter.
  lemma PieceAt(s: string, from: nat, piece: string, rest: string)
    requires from <= |s| && s[from..] == piece + ([DELIMITER] + rest)
    ensures from + |piece| < |s| && s[from + |piece|] == DELIMITER
    ensures s[from..from + |piece|] == piece && s[from + |piece| + 1..] == rest
  {
    var tail := s[from..];
    assert tail[|piece|] == DELIMITER && tail[..|piece|] == piece && tail[|piece| + 1..] == rest;
  }

  lemma PieceFirst(s: string, piece: string, rest: string)
    requires s == piece + ([DELIMITER] + rest)
    ensures |piece| < |s| && s[|piece|] == DELIMITER && s[..|piece|] == piece && s[|piece| + 1..] == rest
  {}

  lemma CutsOfHead(t: Transaction)
    ensures var head, c := Head(t), CutsOf(t);
            && InOrder(c, head) && head[c.first] == head[c.second] == head[c.third] == DELIMITER
            && head[..c.first] == t.provider && head[c.first + 1..c.second] == t.transactionId
            && head[c.second + 1..c.third] == t.accountId && head[c.third + 1..] == t.merchantId
  {
    var head, c := Head(t), CutsOf(t);
    var x := t.accountId + ([DELIMITER] + t.merchantId);
    var y := t.transactionId + ([DELIMITER] + x);
    JoinFour(t.provider, t.transactionId, t.accountId, t.merchantId);
    PieceFirst(head, t.provider, y);
    PieceAt(head, c.first + 1, t.transactionId, x);
    PieceAt(head, c.second + 1, t.accountId, t.merchantId);
  }

  lemma CutFront(s: string, k: nat) returns (piece: string, rest: string)
    requires k < |s| && s[k] == DELIMITER
    ensures |piece| == k && piece == s[..k] && rest == s[k + 1..] && s == piece + ([DELIMITER] + rest)
  {
    piece, rest := s[..k], s[k + 1..];
  }

  lemma CutOnce(s: string, from: nat, k: nat) returns (piece: string, rest: string)
    requires from <= k < |s| && s[k] == DELIMITER
    ensures |piece| == k - from && piece == s[from..k] && rest == s[k + 1..]
    ensures s[from..] == piece + ([DELIMITER] + rest)
  {
    piece, rest := s[from..k], s[k + 1..];
  }

  // The three pieces after the first cut.
  lemma CutRest(head: string, c: Cuts, y: string) returns (b: string, x: string, d: string, e: string)
    requires InOrder(c, head) && head[c.second] == head[c.third] == DELIMITER && y == head[c.first + 1..]
    ensures y == b + ([DELIMITER] + x) && x == d + ([DELIMITER] + e)
    ensures b == head[c.first + 1..c.second] && d == head[c.second + 1..c.third] && e == head[c.third + 1..]
    ensures |b| == c.second - c.first - 1 && |d| == c.third - c.second - 1
  {
    b, x := CutOnce(head, c.first + 1, c.second);
    d, e := CutOnce(head, c.second + 1, c.third);
  }

  lemma Glue(t: Transaction, x: string, y: string, whole: string)
    requires whole == t.provider + ([DELIMITER] + y) && y == t.transactionId + ([DELIMITER] + x)
    requires x == t.accountId + ([DELIMITER] + t.merchantId)
    ensures Head(t) == whole
  {
    JoinFour(t.provider, t.transactionId, t.accountId, t.merchantId);
  }

  lemma Recut(t: Transaction, c: Cuts) returns (u: Transaction)
    requires InOrder(c, Head(t)) && Head(t)[c.first] == Head(t)[c.second] == Head(t)[c.third] == DELIMITER
    ensures var head := Head(t);
            && u == t.(provider := head[..c.first], transactionId := head[c.first + 1..c.second],
                       accountId := head[c.second + 1..c.third], merchantId := head[c.third + 1..])
    ensures |u.provider| == c.first && |u.transactionId| == c.second - c.first - 1
    ensures |u.accountId| == c.third - c.second - 1
    ensures Head(u) == Head(t)
  {
    var head := Head(t);
    var provider, y := CutFront(head, c.first);
    var transactionId, x, accountId, merchantId := CutRest(head, c, y);
    u := t.(provider := provider, transactionId := transactionId, accountId := accountId, merchantId := merchantId);
    Glue(u, x, y, head);
  }

  // Cutting elsewhere gives a different validated transaction with the same canonical string.
  lemma Collision(t: Transaction, c: Cuts, fallbacks: set<string>) returns (u: Transaction)
    requires CutsInto(Head(t), c, fallbacks) && c != CutsOf(t)
    ensures Validated(u, fallbacks) && Canonical(u) == Canonical(t) && !SameFields(u, t)
  {
    u := Recut(t, c);
    OtherCutsDiffer(t, u, c);
    CanonicalIff(t, u);
  }

  lemma OtherCutsDiffer(t: Transaction, u: Transaction, c: Cuts)
    requires |u.provider| == c.first && |u.transactionId| == c.second - c.first - 1
    requires |u.accountId| == c.third - c.second - 1 && c != CutsOf(t)
    ensures !SameFields(u, t)
  {
    assert CutsOf(u) == c;
  }

  lemma SameCuts(t: Transaction, u: Transaction)
    requires Canonical(u) == Canonical(t) && CutsOf(u) == CutsOf(t)
    ensures SameFields(u, t)
  {
    CanonicalIff(t, u);
    CutsOfHead(t);
    CutsOfHead(u);
  }

  // Identifiers without the delimiter can be cut in one way only.
  lemma PlainHasOneCut(t: Transaction, fallbacks: set<string>)
    requires PlainIdentifiers(t)
    ensures forall c: Cuts :: CutsInto(Head(t), c, fallbacks) ==> c == CutsOf(t)
    ensures Unambiguous(t, fallbacks)
  {
    forall u: Transaction | Validated(u, fallbacks) && Canonical(u) == Canonical(t) ensures SameFields(u, t) {
      PlainIsUnambiguous(t, u);
    }
    UnambiguousIff(t, fallbacks);
  }

  // Among validated transactions the canonical string identifies one exactly when its identifiers, joined, cannot
  // be cut into identifiers at any other three delimiters.
  lemma UnambiguousIff(t: Transaction, fallbacks: set<string>)
    ensures Unambiguous(t, fallbacks) <==> forall c: Cuts :: CutsInto(Head(t), c, fallbacks) ==> c == CutsOf(t)
  {
    if forall c: Cuts :: CutsInto(Head(t), c, fallbacks) ==> c == CutsOf(t) {
      forall u: Transaction | Validated(u, fallbacks) && Canonical(u) == Canonical(t) ensures SameFields(u, t) {
        CanonicalIff(t, u);
        CutsOfHead(u);
        assert CutsInto(Head(t), CutsOf(u), fallbacks);
        SameCuts(t, u);
      }
    } else {
      var c: Cuts :| CutsInto(Head(t), c, fallbacks) && c != CutsOf(t);
      var u := Collision(t, c, fallbacks);
    }
  }

  // A delimiter inside an identifier collides with the transaction that has the rest of it in the next field...
  lemma InnerBarCollides(t: Transaction, x: string, y: string, fallbacks: set<string>)
    requires Validated(t, fallbacks) && t.accountId == x + ([DELIMITER] + y)
    requires ValidIdentifier(x) && ValidIdentifier(y + ([DELIMITER] + t.merchantId))
    ensures !Unambiguous(t, fallbacks)
  {
    var u := t.(accountId := x, merchantId := y + ([DELIMITER] + t.merchantId));
    JoinFour(t.provider, t.transactionId, t.accountId, t.merchantId);
    JoinFour(u.provider, u.transactionId, u.accountId, u.merchantId);
    Regroup(x, y, [DELIMITER] + t.merchantId);
    CanonicalIff(t, u);
  }

  lemma Regroup(x: string, y: string, rest: string)
    ensures x + ([DELIMITER] + (y + rest)) == (x + ([DELIMITER] + y)) + rest
  {}

  // ...while one at the very end is harmless: nothing valid would be left of the last field.
  lemma TrailingBarIdentifies(t: Transaction)
    requires t.provider == "p" && t.transactionId == "t" && t.accountId == "a" && t.merchantId == "m|"
    ensures !PlainIdentifiers(t) && Unambiguous(t, {""})
  {
    JoinFour("p", "t", "a", "m|");
    assert t.merchantId[1] == DELIMITER;
    var head := Head(t);
    assert head == "p|t|a|m|";
    forall c: Cuts | CutsInto(head, c, {""}) ensures c == CutsOf(t) {
      assert c.third + 1 < |head|;
    }
    UnambiguousIff(t, {""});
  }

  // What is hashed, spelled out.
  lemma FingerprintSpelled(sha256Hex: string -> string, t: Transaction)
    ensures ComputeFingerprint(sha256Hex, t) == "v1:" + sha256Hex(Canonical(t))
    ensures Canonical(t)
         == t.provider + (['|'] + (t.transactionId + (['|'] + (t.accountId + (['|'] + t.merchantId)))))
            + (['|'] + (ToFixed2(t.amount) + (['|'] + (t.currency + (['|'] + ToIso(t.timestamp))))))
  {
    CanonicalForm(t);
    JoinFour(t.provider, t.transactionId, t.accountId, t.merchantId);
    var p := TailParts(t);
    assert p[1..] == [t.currency, ToIso(t.timestamp)] && p[1..][1..] == [ToIso(t.timestamp)];
    assert Join(p[1..]) == t.currency + (['|'] + ToIso(t.timestamp));
  }

  // As far as the hash tells strings apart, fingerprints tell transactions apart by everything but the description
  // and the places where the identifiers are cut apart.
  lemma FingerprintIff(sha256Hex: string -> string, a: Transaction, b: Transaction)
    requires forall x, y :: sha256Hex(x) == sha256Hex(y) ==> x == y
    ensures ComputeFingerprint(sha256Hex, a) == ComputeFingerprint(sha256Hex, b) <==>
            Head(a) == Head(b) && a.amount == b.amount && a.currency == b.currency && a.timestamp == b.timestamp
    ensures PlainIdentifiers(a) ==>
              (ComputeFingerprint(sha256Hex, a) == ComputeFingerprint(sha256Hex, b) <==> SameFields(a, b))
  {
    FingerprintSpelled(sha256Hex, a);
    FingerprintSpelled(sha256Hex, b);
    var x, y := sha256Hex(Canonical(a)), sha256Hex(Canonical(b));
    assert ("v1:" + x)[3..] == x && ("v1:" + y)[3..] == y;
    CanonicalIff(a, b);
    if SameFields(a, b) { assert Parts(a) == Parts(b); }
    if PlainIdentifiers(a) && Canonical(a) == Canonical(b) { PlainIsUnambiguous(a, b); }
  }

  lemma DescriptionIrrelevant(sha256Hex: string -> string, a: Transaction, b: Transaction)
    requires SameFields(a, b)
    ensures ComputeFingerprint(sha256Hex, a) == ComputeFingerprint(sha256Hex, b)
  {
    assert Parts(a) == Parts(b);
  }
}
