/** Release versions YYYY.MM.DD.N: the grammar, the printer, and the allocator of the next one. */
module CalVer {
  import opened Prelude

  // ----- decimal numerals

  predicate Digit(c: char) { '0' <= c <= '9' }

  predicate Digits(s: string) { forall i | 0 <= i < |s| :: Digit(s[i]) }

  function DigitChar(d: nat): (c: char)
    requires d < 10
    ensures Digit(c) && ValueOf(c) == d
  {
    (d + '0' as int) as char
  }

  function ValueOf(c: char): (d: nat)
    requires Digit(c)
    ensures d < 10
  {
    (c as int) - ('0' as int)
  }

  /** int(s) */
  function Parse(s: string): nat
    requires Digits(s)
  {
    if s == [] then 0 else 10 * Parse(s[..|s| - 1]) + ValueOf(s[|s| - 1])
  }

  /** str(n) for n >= 1; the empty string for 0. */
  function Print(n: nat): (s: string)
    ensures Digits(s) && (n > 0 ==> s != [] && s[0] != '0')
  {
    if n == 0 then [] else Print(n / 10) + [DigitChar(n % 10)]
  }

  lemma {:induction false} ParsePrint(n: nat)
    ensures Parse(Print(n)) == n
  {
    if n > 0 {
      ParsePrint(n / 10);
      assert Print(n)[..|Print(n)| - 1] == Print(n / 10);
    }
  }

  lemma CharOfValue(c: char)
    requires Digit(c)
    ensures DigitChar(ValueOf(c)) == c
  {}

  lemma PrintSnoc(n: nat, d: nat)
    requires n > 0 && d < 10
    ensures Print(10 * n + d) == Print(n) + [DigitChar(d)]
  {
    assert (10 * n + d) / 10 == n && (10 * n + d) % 10 == d;
  }

  lemma PrintDigit(d: nat)
    requires 0 < d < 10
    ensures Print(d) == [DigitChar(d)]
  {
    assert d / 10 == 0 && d % 10 == d && Print(0) == [];
  }

  /** Without a leading zero, a numeral is what its value prints as. */
  lemma {:induction false} PrintParse(s: string)
    requires Digits(s) && s != [] && s[0] != '0'
    ensures Parse(s) > 0 && Print(Parse(s)) == s
  {
    var front, last := s[..|s| - 1], s[|s| - 1];
    assert s == front + [last];
    CharOfValue(last);
    if front == [] {
      PrintDigit(ValueOf(last));
    } else {
      PrintParse(front);
      PrintSnoc(Parse(front), ValueOf(last));
    }
  }

  lemma ParseSnoc(s: string, c: char)
    requires Digits(s) && Digit(c)
    ensures Digits(s + [c]) && Parse(s + [c]) == 10 * Parse(s) + ValueOf(c)
  {
    assert (s + [c])[..|s|] == s;
  }

  lemma ParsePair(s: string, c: char, d: char)
    requires Digits(s) && Digit(c) && Digit(d)
    ensures Digits(s + [c, d]) && Parse(s + [c, d]) == 100 * Parse(s) + 10 * ValueOf(c) + ValueOf(d)
  {
    ParseSnoc(s, c);
    ParseSnoc(s + [c], d);
    assert s + [c] + [d] == s + [c, d];
  }

  /** %02d and %04d. */
  function Pad2(n: nat): (s: string)
    requires n < 100
    ensures |s| == 2 && Digits(s) && Parse(s) == n
  {
    ParsePair([], DigitChar(n / 10), DigitChar(n % 10));
    assert [] + [DigitChar(n / 10), DigitChar(n % 10)] == [DigitChar(n / 10), DigitChar(n % 10)];
    [DigitChar(n / 10), DigitChar(n % 10)]
  }

  lemma ThreeParts(n: nat)
    ensures n == 100 * (n / 100) + 10 * (n / 10 % 10) + n % 10
  {
    assert n / 10 / 10 == n / 100;
  }

  function Pad4(n: nat): (s: string)
    requires n < 10000
    ensures |s| == 4 && Digits(s) && Parse(s) == n
  {
    var high := Pad2(n / 100);
    ParsePair(high, DigitChar(n / 10 % 10), DigitChar(n % 10));
    ThreeParts(n);
    high + [DigitChar(n / 10 % 10), DigitChar(n % 10)]
  }

  lemma Pad2Of(a: nat, b: nat)
    requires a < 10 && b < 10
    ensures Pad2(10 * a + b) == [DigitChar(a), DigitChar(b)]
  {
    assert (10 * a + b) / 10 == a && (10 * a + b) % 10 == b;
  }

  lemma Pad2Parse(s: string)
    requires |s| == 2 && Digits(s)
    ensures Parse(s) == 10 * ValueOf(s[0]) + ValueOf(s[1]) && Pad2(Parse(s)) == s
  {
    ParsePair([], s[0], s[1]);
    assert s == [] + [s[0], s[1]];
    Pad2Of(ValueOf(s[0]), ValueOf(s[1]));
    CharOfValue(s[0]);
    CharOfValue(s[1]);
  }

  lemma Pad4Of(high: nat, c: nat, d: nat)
    requires high < 100 && c < 10 && d < 10
    ensures Pad4(100 * high + 10 * c + d) == Pad2(high) + [DigitChar(c), DigitChar(d)]
  {
    var n := 100 * high + 10 * c + d;
    assert n / 100 == high && n / 10 == 10 * high + c && n / 10 % 10 == c && n % 10 == d;
  }

  lemma Pad4Parse(s: string)
    requires |s| == 4 && Digits(s)
    ensures Parse(s) < 10000 && Pad4(Parse(s)) == s
  {
    var high, c, d := s[..2], ValueOf(s[2]), ValueOf(s[3]);
    Pad2Parse(high);
    ParsePair(high, s[2], s[3]);
    Pad4Of(Parse(high), c, d);
    CharOfValue(s[2]);
    CharOfValue(s[3]);
    assert s == high + [s[2], s[3]];
  }

  // ----- dates

  datatype Date = Date(year: nat, month: nat, day: nat)

  predicate LeapYear(y: nat) { y % 4 == 0 && (y % 100 != 0 || y % 400 == 0) }

  function DaysIn(year: nat, month: nat): nat {
    if month == 2 then (if LeapYear(year) then 29 else 28)
    else if month in {4, 6, 9, 11} then 30
    else 31
  }

  /** What date() accepts. */
  predicate ValidDate(d: Date) {
    1 <= d.year <= 9999 && 1 <= d.month <= 12 && 1 <= d.day <= DaysIn(d.year, d.month)
  }

  const MONTH_LENGTHS := [31, 28, 31, 30, 31, 30, 31, 31, 30, 31, 30, 31]

  /** The Gregorian calendar, spelled out. */
  lemma Calendar(year: nat, month: nat)
    requires 1 <= month <= 12
    ensures DaysIn(year, month) == MONTH_LENGTHS[month - 1] + if month == 2 && LeapYear(year) then 1 else 0
    ensures LeapYear(year) ==> year % 4 == 0
    ensures year % 4 == 0 && !LeapYear(year) ==> year % 100 == 0
    ensures year % 100 == 0 ==> (LeapYear(year) <==> year % 400 == 0)
  {
    assert year % 400 == 0 ==> year % 4 == 0;
  }

  // ----- the grammar

  /** CALVER_RE.fullmatch: YYYY.MM.DD, then nothing or a dot and a numeral without a leading zero. */
  predicate Matches(s: string) {
    && |s| >= 10
    && Digits(s[..4]) && s[4] == '.' && Digits(s[5..7]) && s[7] == '.' && Digits(s[8..10])
    && (|s| == 10 || (|s| >= 12 && s[10] == '.' && Digits(s[11..]) && s[11] != '0'))
  }

  /** parse_calver: None for its ValueError. */
  function ParseCalver(s: string): (r: Option<(Date, nat)>)
    ensures r.Some? ==> ValidDate(r.value.0)
  {
    if !Matches(s) then None
    else
      var date := Date(Parse(s[..4]), Parse(s[5..7]), Parse(s[8..10]));
      if !ValidDate(date) then None else Some((date, if |s| == 10 then 0 else Parse(s[11..])))
  }

  /** The four-part form. */
  function Joined(year: string, month: string, day: string, sequence: string): string {
    year + "." + month + "." + day + "." + sequence
  }

  lemma JoinedParts(year: string, month: string, day: string, sequence: string)
    requires |year| == 4 && |month| == 2 && |day| == 2
    ensures var s := Joined(year, month, day, sequence);
            && |s| == 11 + |sequence| && s[4] == '.' && s[7] == '.' && s[10] == '.'
            && s[..4] == year && s[5..7] == month && s[8..10] == day && s[11..] == sequence
  {}

  /** f"{date:%Y.%m.%d}.{sequence}" */
  function PrintCalver(date: Date, sequence: nat): string
    requires ValidDate(date)
  {
    Joined(Pad4(date.year), Pad2(date.month), Pad2(date.day), Print(sequence))
  }

  /** Parsing the printed form returns the date and the sequence, however large. */
  lemma ParseOfPrint(date: Date, n: nat)
    requires ValidDate(date) && n >= 1
    ensures Matches(PrintCalver(date, n)) && ParseCalver(PrintCalver(date, n)) == Some((date, n))
  {
    JoinedParts(Pad4(date.year), Pad2(date.month), Pad2(date.day), Print(n));
    ParsePrint(n);
    ParseOfParts(PrintCalver(date, n), date, n);
  }

  lemma ParseOfParts(s: string, date: Date, n: nat)
    requires ValidDate(date) && n >= 1 && |s| >= 12 && s[4] == '.' && s[7] == '.' && s[10] == '.'
    requires s[..4] == Pad4(date.year) && s[5..7] == Pad2(date.month) && s[8..10] == Pad2(date.day)
    requires s[11..] == Print(n) && Parse(Print(n)) == n
    ensures Matches(s) && ParseCalver(s) == Some((date, n))
  {
    assert s[11] == s[11..][0];
  }

  /** Printing what a four-part version parses to returns that version. */
  lemma PrintOfParse(s: string)
    requires ParseCalver(s).Some? && |s| > 10
    ensures var (date, n) := ParseCalver(s).value; n >= 1 && PrintCalver(date, n) == s
  {
    Pad4Parse(s[..4]);
    Pad2Parse(s[5..7]);
    Pad2Parse(s[8..10]);
    PrintParse(s[11..]);
    Rejoined(s);
  }

  lemma Rejoined(s: string)
    requires |s| >= 12 && s[4] == '.' && s[7] == '.' && s[10] == '.'
    ensures Joined(s[..4], s[5..7], s[8..10], s[11..]) == s
  {}

  /** The form without a sequence, which the reader accepts and the printer never produces. */
  function PrintDate(date: Date): string
    requires ValidDate(date)
  {
    Pad4(date.year) + "." + Pad2(date.month) + "." + Pad2(date.day)
  }

  lemma DateParts(year: string, month: string, day: string)
    requires |year| == 4 && |month| == 2 && |day| == 2
    ensures var s := year + "." + month + "." + day;
            && |s| == 10 && s[4] == '.' && s[7] == '.' && s[..4] == year && s[5..7] == month && s[8..10] == day
  {}

  /** A bare date counts as sequence 0... */
  lemma ParseOfDate(date: Date)
    requires ValidDate(date)
    ensures ParseCalver(PrintDate(date)) == Some((date, 0))
  {
    DateParts(Pad4(date.year), Pad2(date.month), Pad2(date.day));
  }

  /** ...and nothing else does. */
  lemma DateOfParse(s: string)
    requires ParseCalver(s).Some?
    ensures ParseCalver(s).value.1 == 0 <==> |s| == 10
    ensures |s| == 10 ==> PrintDate(ParseCalver(s).value.0) == s
  {
    if |s| == 10 {
      Pad4Parse(s[..4]);
      Pad2Parse(s[5..7]);
      Pad2Parse(s[8..10]);
      assert s[..4] + "." + s[5..7] + "." + s[8..10] == s;
    } else {
      PrintOfParse(s);
    }
  }

  /** The form is the written one: year, month, day and sequence, in that order and in decimal. */
  lemma Spelled()
    ensures PrintCalver(Date(2026, 9, 3), 12) == "2026.09.03.12"
    ensures ParseCalver("2026.09.03.12") == Some((Date(2026, 9, 3), 12))
    ensures ParseCalver("2026.09.03") == Some((Date(2026, 9, 3), 0))
  {
    var date := Date(2026, 9, 3);
    SpelledParts();
    ParseOfPrint(date, 12);
    ParseOfDate(date);
    assert PrintDate(date) == "2026.09.03";
  }

  lemma SpelledParts()
    ensures Pad4(2026) == "2026" && Pad2(9) == "09" && Pad2(3) == "03" && Print(12) == "12"
  {
    CharOfValue('0');
    CharOfValue('1');
    CharOfValue('2');
    CharOfValue('3');
    CharOfValue('6');
    CharOfValue('9');
    assert Pad2(20) == "20" && 2026 / 100 == 20 && 2026 / 10 % 10 == 2 && 2026 % 10 == 6;
    PrintDigit(1);
    PrintSnoc(1, 2);
  }

  // ----- the allocator

  function Bare(value: string, prefix: string): string {
    if prefix != "" && prefix <= value then value[|prefix|..] else value
  }

  /** The sequence a tag contributes to a date, if any. */
  function SequenceFor(value: string, date: Date, prefix: string): Option<nat> {
    var parsed := ParseCalver(Bare(value, prefix));
    if parsed.Some? && parsed.value.0 == date then Some(parsed.value.1) else None
  }

  function Highest(existing: seq<string>, date: Date, prefix: string): nat {
    if existing == [] then 0
    else
      var before := Highest(existing[..|existing| - 1], date, prefix);
      var last := SequenceFor(existing[|existing| - 1], date, prefix);
      if last.Some? && last.value > before then last.value else before
  }

  function Max(values: seq<nat>): nat {
    if values == [] then 0
    else
      var before := Max(values[..|values| - 1]);
      if values[|values| - 1] > before then values[|values| - 1] else before
  }

  /** A tag contributes to a date exactly when, its prefix aside, it is a version of that date. */
  lemma SequenceSpelled(value: string, date: Date, prefix: string, m: nat)
    requires ValidDate(date)
    ensures SequenceFor(value, date, prefix) == Some(m) <==>
              Bare(value, prefix) == if m == 0 then PrintDate(date) else PrintCalver(date, m)
  {
    var bare := Bare(value, prefix);
    if m == 0 { ParseOfDate(date); } else { ParseOfPrint(date, m); }
    if ParseCalver(bare).Some? {
      DateOfParse(bare);
      if |bare| > 10 { PrintOfParse(bare); }
    }
  }

  /** The list holds the date's version m: tagged with the prefix, or bare where the prefix is none of its own. */
  predicate Holds(existing: seq<string>, date: Date, prefix: string, m: nat)
    requires ValidDate(date)
  {
    || prefix + PrintCalver(date, m) in existing
    || (PrintCalver(date, m) in existing && !(prefix != "" && prefix <= PrintCalver(date, m)))
  }

  lemma BareOf(value: string, prefix: string, version: string)
    ensures Bare(value, prefix) == version <==>
              value == prefix + version || (value == version && !(prefix != "" && prefix <= version))
  {
    if prefix <= value { assert value == prefix + value[|prefix|..]; }
    if value == prefix + version { assert value[|prefix|..] == version; }
  }

  lemma HoldsIff(existing: seq<string>, date: Date, prefix: string, m: nat)
    requires ValidDate(date) && m >= 1
    ensures Holds(existing, date, prefix, m) <==> exists v :: v in existing && SequenceFor(v, date, prefix) == Some(m)
  {
    var version := PrintCalver(date, m);
    forall v ensures SequenceFor(v, date, prefix) == Some(m) <==>
                       v == prefix + version || (v == version && !(prefix != "" && prefix <= version))
    {
      SequenceSpelled(v, date, prefix, m);
      BareOf(v, prefix, version);
    }
  }

  lemma {:induction false} HighestBounds(existing: seq<string>, date: Date, prefix: string, value: string)
    requires value in existing && SequenceFor(value, date, prefix).Some?
    ensures SequenceFor(value, date, prefix).value <= Highest(existing, date, prefix)
  {
    var n := |existing| - 1;
    assert existing == existing[..n] + [existing[n]];
    if value != existing[n] { HighestBounds(existing[..n], date, prefix, value); }
  }

  /** A highest sequence belongs to a version of the date in the list. */
  lemma HighestIsTaken(existing: seq<string>, date: Date, prefix: string)
    requires ValidDate(date)
    ensures Highest(existing, date, prefix) > 0 ==> Holds(existing, date, prefix, Highest(existing, date, prefix))
  {
    HighestCounted(existing, date, prefix);
    if Highest(existing, date, prefix) > 0 { HoldsIff(existing, date, prefix, Highest(existing, date, prefix)); }
  }

  lemma {:induction false} HighestCounted(existing: seq<string>, date: Date, prefix: string)
    ensures Highest(existing, date, prefix) > 0 ==>
              exists v :: v in existing && SequenceFor(v, date, prefix) == Some(Highest(existing, date, prefix))
  {
    if existing != [] {
      var n := |existing| - 1;
      HighestCounted(existing[..n], date, prefix);
      assert existing == existing[..n] + [existing[n]];
    }
  }

  function NextOf(existing: seq<string>, date: Date, prefix: string): string
    requires ValidDate(date)
  {
    PrintCalver(date, Highest(existing, date, prefix) + 1)
  }

  /** A tag made of the prefix and a version contributes that version's sequence. */
  lemma TagCounts(date: Date, n: nat, prefix: string)
    requires ValidDate(date) && n >= 1
    ensures SequenceFor(prefix + PrintCalver(date, n), date, prefix) == Some(n)
  {
    ParseOfPrint(date, n);
    assert Bare(prefix + PrintCalver(date, n), prefix) == PrintCalver(date, n);
  }

  /** The list holds the date's version before n, unless n is 1, and none from n on. */
  ghost predicate IsNext(existing: seq<string>, date: Date, prefix: string, n: nat)
    requires ValidDate(date)
  {
    && n >= 1 && (n == 1 || Holds(existing, date, prefix, n - 1))
    && forall m: nat | m >= n :: !Holds(existing, date, prefix, m)
  }

  ghost predicate IsNextVersion(existing: seq<string>, date: Date, prefix: string, version: string)
    requires ValidDate(date)
  {
    exists n: nat :: IsNext(existing, date, prefix, n) && version == PrintCalver(date, n)
  }

  /** The next version is one past the last that the list holds for the date. */
  lemma NextIsNext(existing: seq<string>, date: Date, prefix: string)
    requires ValidDate(date)
    ensures IsNext(existing, date, prefix, Highest(existing, date, prefix) + 1)
    ensures IsNextVersion(existing, date, prefix, NextOf(existing, date, prefix))
  {
    var n := Highest(existing, date, prefix) + 1;
    HighestIsTaken(existing, date, prefix);
    forall m: nat | m >= n ensures !Holds(existing, date, prefix, m) {
      HoldsIff(existing, date, prefix, m);
      if v :| v in existing && SequenceFor(v, date, prefix) == Some(m) { HighestBounds(existing, date, prefix, v); }
    }
  }

  method NextCalver(existing: seq<string>, date: Date, prefix: string) returns (version: string)
    requires ValidDate(date)
    ensures version == NextOf(existing, date, prefix)
    ensures IsNextVersion(existing, date, prefix, version)
  {
    NextIsNext(existing, date, prefix);
    var sequences: seq<nat> := [];
    for i := 0 to |existing|
      invariant Max(sequences) == Highest(existing[..i], date, prefix)
    {
      assert existing[..i + 1][..i] == existing[..i];
      var value := existing[i];
      var bare := if prefix != "" && prefix <= value then value[|prefix|..] else value;
      match ParseCalver(bare)
      case None =>
      case Some((versionDate, sequence)) =>
        if versionDate == date {
          assert (sequences + [sequence])[..|sequences|] == sequences;
          sequences := sequences + [sequence];
        }
    }
    assert existing[..|existing|] == existing;
    version := PrintCalver(date, Max(sequences) + 1);
  }

  /**
    The next version is for the release date, exceeds every existing one for it, and the tag the
    release creates from it, prefix and version, is not an existing one.
   */
  lemma NextIsFresh(existing: seq<string>, date: Date, prefix: string)
    requires ValidDate(date)
    ensures ParseCalver(NextOf(existing, date, prefix)) == Some((date, Highest(existing, date, prefix) + 1))
    ensures forall v | v in existing && SequenceFor(v, date, prefix).Some? ::
              SequenceFor(v, date, prefix).value <= Highest(existing, date, prefix)
    ensures prefix + NextOf(existing, date, prefix) !in existing
  {
    ParseOfPrint(date, Highest(existing, date, prefix) + 1);
    forall v | v in existing && SequenceFor(v, date, prefix).Some?
      ensures SequenceFor(v, date, prefix).value <= Highest(existing, date, prefix)
    {
      HighestBounds(existing, date, prefix, v);
    }
    TagIsNew(existing, date, prefix);
  }

  lemma TagIsNew(existing: seq<string>, date: Date, prefix: string)
    requires ValidDate(date)
    ensures prefix + NextOf(existing, date, prefix) !in existing
  {
    NextTag(existing, date, prefix, Highest(existing, date, prefix) + 1, prefix + NextOf(existing, date, prefix));
  }

  lemma NextTag(existing: seq<string>, date: Date, prefix: string, n: nat, tag: string)
    requires ValidDate(date) && n == Highest(existing, date, prefix) + 1 && tag == prefix + PrintCalver(date, n)
    ensures tag !in existing && Highest(existing + [tag], date, prefix) == n
  {
    TagCounts(date, n, prefix);
    if tag in existing { HighestBounds(existing, date, prefix, tag); }
    HighestAppend(existing, tag, date, prefix);
  }

  /** The dots of a version are its fifth, eighth and eleventh characters. */
  lemma DotsOf(s: string)
    requires Matches(s)
    ensures forall i | 0 <= i < |s| :: s[i] == '.' <==> i == 4 || i == 7 || i == 10
  {
    forall i | 0 <= i < |s| && i != 4 && i != 7 && i != 10
      ensures Digit(s[i])
    {
      if i < 4 { assert Digit(s[..4][i]); }
      else if i < 7 { assert Digit(s[5..7][i - 5]); }
      else if i < 10 { assert Digit(s[8..10][i - 8]); }
      else { assert Digit(s[11..][i - 11]); }
    }
  }

  /** A version with something cut off its front is no version: its dots are in the wrong places. */
  lemma CutIsMalformed(s: string, k: nat)
    requires Matches(s) && 0 < k <= |s|
    ensures !Matches(s[k..])
  {
    var t := s[k..];
    DotsOf(s);
    if Matches(t) {
      DotsOf(t);
    }
  }

  /** The prefix can be mistaken for the start of one of the date's versions. */
  ghost predicate PrefixLooksLikeVersion(date: Date, prefix: string)
    requires ValidDate(date)
  {
    prefix != "" && exists n: nat :: n >= 1 && prefix <= PrintCalver(date, n)
  }

  /**
    The bare version, too, equals no existing tag, for every tag list, exactly when the prefix cannot
    be mistaken for the start of a version.
   */
  lemma BareIsNewIff(date: Date, prefix: string)
    requires ValidDate(date)
    ensures (forall existing :: NextOf(existing, date, prefix) !in existing) <==> !PrefixLooksLikeVersion(date, prefix)
  {
    if PrefixLooksLikeVersion(date, prefix) {
      var n: nat :| n >= 1 && prefix <= PrintCalver(date, n);
      var existing := Collision(date, prefix, n);
      assert NextOf(existing, date, prefix) in existing;
    } else {
      forall existing ensures NextOf(existing, date, prefix) !in existing {
        BareIsNew(existing, date, prefix);
      }
    }
  }

  lemma BareIsNew(existing: seq<string>, date: Date, prefix: string)
    requires ValidDate(date) && !PrefixLooksLikeVersion(date, prefix)
    ensures NextOf(existing, date, prefix) !in existing
  {
    var n := Highest(existing, date, prefix) + 1;
    var version := PrintCalver(date, n);
    assert prefix == "" || !(prefix <= version);
    BareCounts(date, n, prefix);
    if version in existing { HighestBounds(existing, date, prefix, version); }
  }

  lemma BareCounts(date: Date, n: nat, prefix: string)
    requires ValidDate(date) && n >= 1 && (prefix == "" || !(prefix <= PrintCalver(date, n)))
    ensures SequenceFor(PrintCalver(date, n), date, prefix) == Some(n)
  {
    ParseOfPrint(date, n);
  }

  lemma Collision(date: Date, prefix: string, n: nat) returns (existing: seq<string>)
    requires ValidDate(date) && n >= 1 && prefix != "" && prefix <= PrintCalver(date, n)
    ensures NextOf(existing, date, prefix) in existing
  {
    var version := PrintCalver(date, n);
    ParseOfPrint(date, n);
    CutIsMalformed(version, |prefix|);
    var before: seq<string> := UpTo(date, prefix, n - 1);
    existing := before + [version];
    HighestAppend(before, version, date, prefix);
    assert existing[|before|] == version;
  }

  /** With the prefix "2" a release on 2026-09-03 can repeat a bare tag. */
  lemma BareCanCollide() returns (existing: seq<string>)
    ensures NextOf(existing, Date(2026, 9, 3), "2") in existing
  {
    var date := Date(2026, 9, 3);
    assert Pad4(2026) == Pad2(20) + [DigitChar(2), DigitChar(6)] && Pad2(20)[0] == DigitChar(2);
    assert DigitChar(2) == '2' by { CharOfValue('2'); }
    assert "2" <= PrintCalver(date, 1);
    existing := Collision(date, "2", 1);
  }

  lemma UpTo(date: Date, prefix: string, n: nat) returns (tags: seq<string>)
    requires ValidDate(date)
    ensures Highest(tags, date, prefix) == n
  {
    tags := [];
    if n > 0 {
      TagCounts(date, n, prefix);
      HighestAppend(tags, prefix + PrintCalver(date, n), date, prefix);
      tags := tags + [prefix + PrintCalver(date, n)];
    }
  }

  lemma HighestAppend(existing: seq<string>, tag: string, date: Date, prefix: string)
    ensures var before := Highest(existing, date, prefix);
            var last := SequenceFor(tag, date, prefix);
            Highest(existing + [tag], date, prefix) == if last.Some? && last.value > before then last.value else before
  {
    assert (existing + [tag])[..|existing|] == existing;
  }

  // ----- issuing versions in turn

  /** Tag after tag, each for the sequence after the highest one there is. */
  function IssueBy(existing: seq<string>, tag: nat -> string, highest: seq<string> -> nat, count: nat): seq<string> {
    if count == 0 then existing
    else
      var before := IssueBy(existing, tag, highest, count - 1);
      before + [tag(highest(before) + 1)]
  }

  /** Adding the tag for the next sequence makes that sequence the highest. */
  ghost predicate Advances(tag: nat -> string, highest: seq<string> -> nat, tags: seq<string>) {
    highest(tags + [tag(highest(tags) + 1)]) == highest(tags) + 1
  }

  /** The k-th tag added is for the highest existing sequence plus k. */
  ghost predicate InTurn(existing: seq<string>, all: seq<string>, tag: nat -> string, highest: seq<string> -> nat) {
    && |existing| <= |all| && all[..|existing|] == existing
    && highest(all) == highest(existing) + |all| - |existing|
    && forall j | |existing| <= j < |all| :: all[j] == tag(highest(existing) + (j - |existing|) + 1)
  }

  lemma {:induction false} IssuedByTurns(existing: seq<string>, tag: nat -> string, highest: seq<string> -> nat,
                                         count: nat)
    requires forall tags :: Advances(tag, highest, tags)
    ensures var all := IssueBy(existing, tag, highest, count);
            |all| == |existing| + count && InTurn(existing, all, tag, highest)
  {
    if count > 0 {
      IssuedByTurns(existing, tag, highest, count - 1);
      assert Advances(tag, highest, IssueBy(existing, tag, highest, count - 1));
    }
  }

  function TagFor(date: Date, prefix: string): nat -> string
    requires ValidDate(date)
  {
    (n: nat) => prefix + PrintCalver(date, n)
  }

  function HighestFor(date: Date, prefix: string): seq<string> -> nat {
    existing => Highest(existing, date, prefix)
  }

  lemma IssueOne(tags: seq<string>, date: Date, prefix: string)
    requires ValidDate(date)
    ensures prefix + NextOf(tags, date, prefix) == TagFor(date, prefix)(HighestFor(date, prefix)(tags) + 1)
    ensures Advances(TagFor(date, prefix), HighestFor(date, prefix), tags)
  {
    NextTag(tags, date, prefix, Highest(tags, date, prefix) + 1, prefix + NextOf(tags, date, prefix));
  }

  /**
    Issuing versions in turn, each tagged with the prefix: the k-th is the highest existing sequence
    plus k. No gap and no repetition.
   */
  lemma IssuedInSequence(existing: seq<string>, date: Date, prefix: string, count: nat)
    requires ValidDate(date)
    ensures var tag, highest := TagFor(date, prefix), HighestFor(date, prefix);
            var all := IssueBy(existing, tag, highest, count);
            |all| == |existing| + count && InTurn(existing, all, tag, highest)
  {
    var tag, highest := TagFor(date, prefix), HighestFor(date, prefix);
    forall tags ensures Advances(tag, highest, tags) { IssueOne(tags, date, prefix); }
    IssuedByTurns(existing, tag, highest, count);
  }
}
