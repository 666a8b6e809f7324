/** Printing and reading an interval. */
module Interval {
  // backend/app/adminbot/views.py and backend/app/adminbot/handlers.py. Digits and blanks are the
  // ASCII ones; amounts are exact.

  import opened Types
  import opened Decimal

  // ------------------------------------------------------------------------
  // Printing
  // ------------------------------------------------------------------------

  function Plural(n: nat): string {
    if n == 1 then "" else "s"
  }

  function HourUnit(n: nat): string {
    "hour" + Plural(n)
  }

  function MinuteUnit(n: nat): string {
    "minute" + Plural(n)
  }

  /** A number and its unit, a blank between them. */
  function Spell(n: nat, unit: string): (part: string)
    ensures part != "" && IsDigit(part[0])
  {
    NatText(n) + (" " + unit)
  }

  function HoursPart(hours: nat): string {
    Spell(hours, HourUnit(hours))
  }

  function MinutesPart(minutes: nat): string {
    Spell(minutes, MinuteUnit(minutes))
  }

  function LabelOf(hours: nat, minutes: nat): string {
    if hours > 0 && minutes > 0 then HoursPart(hours) + (" " + MinutesPart(minutes))
    else if hours > 0 then HoursPart(hours)
    else if minutes > 0 then MinutesPart(minutes)
    else "0 minutes"
  }

  function Label(seconds: nat): string {
    LabelOf(seconds / 60 / 60, seconds / 60 % 60)
  }

  // ------------------------------------------------------------------------
  // Reading
  // ------------------------------------------------------------------------

  predicate IsBlank(c: char) {
    c == ' ' || '\t' <= c <= '\r'
  }

  predicate AllBlank(s: string) {
    forall i :: 0 <= i < |s| ==> IsBlank(s[i])
  }

  /** The length of the digits, of the blanks, and of what is no digit, at the start of a text. */
  function Digits(s: string): (n: nat)
    ensures n <= |s| && AllDigits(s[..n])
    ensures s != "" && IsDigit(s[0]) ==> n > 0
  {
    if s != "" && IsDigit(s[0]) then
      var n := 1 + Digits(s[1..]);
      assert s[..n] == [s[0]] + s[1..][..n - 1];
      n
    else 0
  }

  function Blanks(s: string): (n: nat)
    ensures n <= |s|
  {
    if s != "" && IsBlank(s[0]) then 1 + Blanks(s[1..]) else 0
  }

  function Gap(s: string): (n: nat)
    ensures n <= |s|
    ensures n < |s| ==> IsDigit(s[n])
  {
    if s != "" && !IsDigit(s[0]) then 1 + Gap(s[1..]) else 0
  }

  /** The fraction after the digits, if a point is followed by a digit: its length, point included. */
  function FractionLength(s: string): (n: nat)
    ensures n == 0 || (1 < n <= |s| && AllDigits(s[1..n]))
  {
    if |s| > 1 && s[0] == '.' && IsDigit(s[1]) then
      var n := Digits(s[1..]);
      assert s[1..][..n] == s[1..1 + n];
      1 + n
    else 0
  }

  /** The first unit name, in the pattern's order, that the text starts with. */
  function UnitAt(s: string): (unit: string)
    ensures unit <= s
  {
    if "hours" <= s then "hours"
    else if "hour" <= s then "hour"
    else if "hrs" <= s then "hrs"
    else if "hr" <= s then "hr"
    else if "h" <= s then "h"
    else if "minutes" <= s then "minutes"
    else if "minute" <= s then "minute"
    else if "mins" <= s then "mins"
    else if "min" <= s then "min"
    else if "m" <= s then "m"
    else ""
  }

  /** One match of the pattern, at the start of `s`: an amount, blanks, perhaps a unit. */
  datatype Part = Piece(digits: nat, fraction: nat, blanks: nat, unit: string)

  function PartLength(p: Part): nat {
    p.digits + p.fraction + p.blanks + |p.unit|
  }

  /** What follows the amount: blanks, perhaps a unit. */
  function PartEnd(digits: nat, fraction: nat, end: string): (p: Part)
    ensures PartLength(p) <= digits + fraction + |end| && p.digits == digits && p.fraction == fraction
  {
    var blanks := Blanks(end);
    Piece(digits, fraction, blanks, UnitAt(end[blanks..]))
  }

  function PartAfter(digits: nat, rest: string): (p: Part)
    ensures PartLength(p) <= digits + |rest| && p.digits == digits && p.fraction == FractionLength(rest)
  {
    var fraction := FractionLength(rest);
    PartEnd(digits, fraction, rest[fraction..])
  }

  function PartAt(s: string): (p: Part)
    ensures PartLength(p) <= |s|
    ensures s != "" && IsDigit(s[0]) ==> PartLength(p) > 0
    ensures p.digits == Digits(s) && p.fraction == FractionLength(s[p.digits..])
  {
    PartAfter(Digits(s), s[Digits(s)..])
  }

  function Pow10(n: nat): (p: nat)
    ensures p > 0
  {
    if n == 0 then 1 else 10 * Pow10(n - 1)
  }

  /** The value of digits, perhaps with a point among them. */
  function Amount(digits: string, fraction: string): real
    requires AllDigits(digits) && AllDigits(fraction)
  {
    if fraction == "" then Value(digits) as real
    else Value(digits) as real + Value(fraction) as real / Pow10(|fraction|) as real
  }

  /** An amount without a unit is in hours. */
  function Scaled(amount: real, unit: string): real {
    if unit != "" && unit[0] == 'm' then 60.0 * amount else 3600.0 * amount
  }

  /** How much of the text one match takes, and what it is worth in seconds. */
  datatype Reading = Reading(length: nat, seconds: real)

  function ReadPart(s: string): (r: Reading)
    ensures s != "" && IsDigit(s[0]) ==> 0 < r.length <= |s|
  {
    var p := PartAt(s);
    var tail := s[p.digits..];
    var amount := Amount(s[..p.digits], if p.fraction == 0 then "" else tail[1..p.fraction]);
    Reading(PartLength(p), Scaled(amount, p.unit))
  }

  ghost predicate Consumes(read: string -> Reading) {
    forall s :: s != "" && IsDigit(s[0]) ==> 0 < read(s).length <= |s|
  }

  function LowerChar(c: char): char {
    if 'A' <= c <= 'Z' then c - 'A' + 'a' else c
  }

  function Lower(s: string): string {
    seq(|s|, i requires 0 <= i < |s| => LowerChar(s[i]))
  }

  function StripLeft(s: string): string {
    s[Blanks(s)..]
  }

  function StripRight(s: string): string {
    if s != "" && IsBlank(s[|s| - 1]) then StripRight(s[..|s| - 1]) else s
  }

  function Strip(s: string): string {
    StripRight(StripLeft(s))
  }

  /** What stands between `at` and the next digit: nothing more to read, blanks, or something else. */
  datatype Between = End(blank: bool) | Part(start: nat) | Junk

  function BetweenAt(s: string, at: nat): (b: Between)
    ensures b.Part? ==> at <= b.start < |s| && IsDigit(s[b.start])
  {
    if at > |s| then End(true)
    else
      var rest := s[at..];
      var gap := Gap(rest);
      if gap == |rest| then End(AllBlank(rest))
      else if gap > 0 && !AllBlank(rest[..gap]) then Junk
      else Between.Part(at + gap)
  }

  /** A way of finding the next digit: always at a digit, and never before `at`. */
  ghost predicate Finds(scan: (string, nat) -> Between) {
    forall s: string, at: nat :: scan(s, at).Part? ==> at <= scan(s, at).start < |s| && IsDigit(s[scan(s, at).start])
  }

  /** Reads on from position `at`, one match after another; `total` is the seconds so far. */
  function ParseFrom(scan: (string, nat) -> Between, read: string -> Reading, s: string, at: nat, total: real): Option<int>
    requires Finds(scan) && Consumes(read) && at <= |s|
    decreases |s| - at
  {
    match scan(s, at)
    case End(blank) => if at == 0 || !blank then None else Some(total.Floor)
    case Junk => None
    case Part(start) =>
      var r := read(s[start..]);
      ParseFrom(scan, read, s, start + r.length, total + r.seconds)
  }

  function ParseWith(scan: (string, nat) -> Between, read: string -> Reading, text: string): Option<int>
    requires Finds(scan) && Consumes(read)
  {
    var cleaned := Lower(Strip(text));
    if cleaned == "" then None else ParseFrom(scan, read, cleaned, 0, 0.0)
  }

  lemma PatternWorks()
    ensures Finds(BetweenAt) && Consumes(ReadPart)
  {
  }

  function Parse(text: string): Option<int> {
    PatternWorks();
    ParseWith(BetweenAt, ReadPart, text)
  }

  /** The loop, for any way of finding the next digit and of reading one match. */
  method Accumulate(scan: (string, nat) -> Between, read: string -> Reading, cleaned: string) returns (seconds: Option<int>)
    requires Finds(scan) && Consumes(read)
    ensures seconds == ParseFrom(scan, read, cleaned, 0, 0.0)
  {
    var total := 0.0;
    var consumed := 0;
    ghost var answer := ParseFrom(scan, read, cleaned, consumed, total);
    while true
      invariant consumed <= |cleaned|
      invariant answer == ParseFrom(scan, read, cleaned, consumed, total)
      decreases |cleaned| - consumed
    {
      var between := scan(cleaned, consumed);
      if between.End? {
        return if consumed == 0 || !between.blank then None else Some(total.Floor);
      }
      if between.Junk? {
        return None;
      }
      var r := read(cleaned[between.start..]);
      total := total + r.seconds;
      consumed := between.start + r.length;
    }
  }

  /** Seconds, or nothing if it is not a time anyone meant. */
  method ParseInterval(text: string) returns (seconds: Option<int>)
    ensures seconds == Parse(text)
  {
    var cleaned := Lower(Strip(text));
    if cleaned == "" {
      return None;
    }
    PatternWorks();
    seconds := Accumulate(BetweenAt, ReadPart, cleaned);
  }

  /** The parts that are not zero, joined by a blank. */
  method IntervalLabel(seconds: nat) returns (text: string)
    ensures text == Label(seconds)
  {
    var minutes := seconds / 60;
    var hours := minutes / 60;
    minutes := minutes % 60;
    var parts: seq<string> := [];
    if hours > 0 {
      parts := parts + [HoursPart(hours)];
    }
    if minutes > 0 {
      parts := parts + [MinutesPart(minutes)];
    }
    text := if parts == [] then "0 minutes" else if |parts| == 1 then parts[0] else parts[0] + (" " + parts[1]);
  }

  // ------------------------------------------------------------------------
  // Round trip
  // ------------------------------------------------------------------------

  lemma {:induction false} DigitsThrough(a: string, b: string)
    requires AllDigits(a) && (b != "" ==> !IsDigit(b[0]))
    ensures Digits(a + b) == |a|
  {
    if a == "" {
      assert a + b == b;
    } else {
      assert (a + b)[1..] == a[1..] + b;
      DigitsThrough(a[1..], b);
    }
  }

  lemma OneBlank(c: char, b: string)
    requires IsBlank(c) && b != "" && !IsBlank(b[0])
    ensures Blanks([c] + b) == 1
  {
    assert ([c] + b)[1..] == b;
  }

  lemma UnitReads(unit: string, n: nat, rest: string)
    requires Spelled(unit, n) && (rest != "" ==> rest[0] == ' ')
    ensures UnitAt(unit + rest) == unit
  {
    var s := unit + rest;
    assert |unit| < |s| ==> s[|unit|] == ' ';
    assert s[..|unit|] == unit;
    if unit == "hours" {
    } else if unit == "hour" {
      assert !("hours" <= s);
    } else if unit == "minutes" {
      assert s[0] == 'm';
    } else {
      assert unit == "minute" && s[0] == 'm';
      assert !("minutes" <= s);
    }
  }

  lemma PartShape(digits: string, blank: string, unit: string, rest: string)
    requires digits != "" && AllDigits(digits) && |blank| == 1 && IsBlank(blank[0])
    requires unit != "" && !IsBlank(unit[0]) && UnitAt(unit + rest) == unit
    ensures var s := digits + (blank + (unit + rest));
      && PartAt(s) == Piece(|digits|, 0, 1, unit)
      && s[..|digits|] == digits && s[|digits| + 1 + |unit|..] == rest
  {
    var end := blank + (unit + rest);
    var s := digits + end;
    DigitsThrough(digits, end);
    assert s[|digits|..] == end;
    assert FractionLength(end) == 0 && end[0..] == end;
    OneBlank(blank[0], unit + rest);
    assert blank == [blank[0]];
    assert end[1..] == unit + rest;
  }

  lemma WholeAmount(s: string, digits: string, unit: string)
    requires AllDigits(digits) && PartAt(s) == Piece(|digits|, 0, 1, unit) && s[..|digits|] == digits
    ensures ReadPart(s) == Reading(|digits| + 1 + |unit|, Scaled(Value(digits) as real, unit))
  {
    assert Amount(digits, "") == Value(digits) as real;
  }

  predicate Spelled(unit: string, n: nat) {
    unit == HourUnit(n) || unit == MinuteUnit(n)
  }

  /** The reader takes a spelled part, and no more, when a blank or nothing follows it. */
  predicate Reads(read: string -> Reading, n: nat, unit: string, rest: string) {
    Spelled(unit, n) && (rest != "" ==> rest[0] == ' ') ==>
      read(Spell(n, unit) + rest) == Reading(|Spell(n, unit)|, Scaled(n as real, unit))
  }

  lemma PartReads(n: nat, unit: string, rest: string)
    requires Spelled(unit, n) && (rest != "" ==> rest[0] == ' ')
    ensures ReadPart(NatText(n) + (" " + (unit + rest))) == Reading(|NatText(n)| + 1 + |unit|, Scaled(n as real, unit))
  {
    var s := NatText(n) + (" " + (unit + rest));
    UnitReads(unit, n, rest);
    PartShape(NatText(n), " ", unit, rest);
    WholeAmount(s, NatText(n), unit);
  }

  lemma Regroup(a: string, b: string, c: string, d: string)
    ensures a + (b + (c + d)) == a + (b + c) + d
  {
  }

  lemma ReadPartReads(n: nat, unit: string, rest: string)
    ensures Reads(ReadPart, n, unit, rest)
  {
    if Spelled(unit, n) && (rest != "" ==> rest[0] == ' ') {
      PartReads(n, unit, rest);
      Regroup(NatText(n), " ", unit, rest);
    }
  }

  /** What finding the next digit must make of a digit, of a blank before one, and of the end. */
  ghost predicate ScansAt(scan: (string, nat) -> Between, s: string, at: nat) {
    && (at == |s| ==> scan(s, at) == End(true))
    && (at < |s| && IsDigit(s[at]) ==> scan(s, at) == Between.Part(at))
    && (at + 1 < |s| && IsBlank(s[at]) && IsDigit(s[at + 1]) ==> scan(s, at) == Between.Part(at + 1))
  }

  ghost predicate Scans(scan: (string, nat) -> Between) {
    Finds(scan) && forall s: string, at: nat :: ScansAt(scan, s, at)
  }

  lemma GapOfOne(c: char, s: string)
    requires !IsDigit(c) && s != "" && IsDigit(s[0])
    ensures Gap([c] + s) == 1
  {
    assert ([c] + s)[1..] == s;
  }

  lemma AtDigit(s: string, at: nat)
    requires at < |s| && IsDigit(s[at])
    ensures BetweenAt(s, at) == Between.Part(at)
  {
    assert s[at..][0] == s[at];
  }

  lemma AtBlank(s: string, at: nat)
    requires at + 1 < |s| && IsBlank(s[at]) && IsDigit(s[at + 1])
    ensures BetweenAt(s, at) == Between.Part(at + 1)
  {
    GapOfOne(s[at], s[at + 1..]);
    assert s[at..] == [s[at]] + s[at + 1..];
  }

  lemma BetweenAtScans()
    ensures Scans(BetweenAt)
  {
    PatternWorks();
    forall s: string, at: nat ensures ScansAt(BetweenAt, s, at) {
      if at + 1 < |s| && IsBlank(s[at]) && IsDigit(s[at + 1]) {
        AtBlank(s, at);
      } else if at < |s| && IsDigit(s[at]) {
        AtDigit(s, at);
      }
    }
  }

  /** The last part of a text: reading it ends the parse. */
  lemma LastPart(scan: (string, nat) -> Between, read: string -> Reading, s: string, at: nat, seconds: real, total: real)
    requires Scans(scan) && Consumes(read) && at < |s| && IsDigit(s[at])
    requires read(s[at..]) == Reading(|s| - at, seconds)
    ensures ParseFrom(scan, read, s, at, total) == Some((total + seconds).Floor)
  {
    assert ScansAt(scan, s, at) && ScansAt(scan, s, |s|);
    assert ParseFrom(scan, read, s, |s|, total + seconds) == Some((total + seconds).Floor);
  }

  /** Two stretches with a blank between them, each starting with a digit. */
  predicate Joined(s: string, at: nat) {
    0 < at < |s| - 1 && IsDigit(s[0]) && IsBlank(s[at]) && IsDigit(s[at + 1])
  }

  predicate ReadsBoth(read: string -> Reading, s: string, at: nat, x: real, y: real) {
    at < |s| && read(s) == Reading(at, x) && read(s[at + 1..]) == Reading(|s| - at - 1, y)
  }

  /** Two parts: the first is read, then the blank between them is skipped. */
  lemma TwoPartsAt(scan: (string, nat) -> Between, read: string -> Reading, s: string, at: nat, x: real, y: real)
    requires Scans(scan) && Consumes(read) && Joined(s, at) && ReadsBoth(read, s, at, x, y)
    ensures ParseFrom(scan, read, s, 0, 0.0) == Some((x + y).Floor)
  {
    assert ScansAt(scan, s, 0) && ScansAt(scan, s, at) && ScansAt(scan, s, |s|);
    assert s[0..] == s;
    var none := 0.0;
    assert ParseFrom(scan, read, s, 0, none) == ParseFrom(scan, read, s, at, none + x);
    assert ParseFrom(scan, read, s, |s|, none + x + y) == Some((none + x + y).Floor);
  }

  /** The whole text is one part, or two, worth the given seconds together. */
  ghost predicate Readable(read: string -> Reading, s: string, total: real) {
    || (s != "" && IsDigit(s[0]) && read(s) == Reading(|s|, total))
    || exists at: nat, x: real, y: real :: Joined(s, at) && ReadsBoth(read, s, at, x, y) && total == x + y
  }

  lemma ReadableParses(scan: (string, nat) -> Between, read: string -> Reading, s: string, total: real)
    requires Scans(scan) && Consumes(read) && Readable(read, s, total)
    ensures ParseFrom(scan, read, s, 0, 0.0) == Some(total.Floor)
  {
    if s != "" && IsDigit(s[0]) && read(s) == Reading(|s|, total) {
      assert s[0..] == s;
      LastPart(scan, read, s, 0, total, 0.0);
    } else {
      var at: nat, x: real, y: real :| Joined(s, at) && ReadsBoth(read, s, at, x, y) && total == x + y;
      TwoPartsAt(scan, read, s, at, x, y);
    }
  }

  lemma SpellReadable(read: string -> Reading, n: nat, unit: string)
    requires Spelled(unit, n) && Reads(read, n, unit, "")
    ensures Readable(read, Spell(n, unit), Scaled(n as real, unit))
  {
    assert Spell(n, unit) + "" == Spell(n, unit);
  }

  lemma JoinReadable(read: string -> Reading, first: string, last: string, x: real, y: real)
    requires first != "" && IsDigit(first[0]) && last != "" && IsDigit(last[0])
    requires read(first + (" " + last)) == Reading(|first|, x) && read(last) == Reading(|last|, y)
    ensures Readable(read, first + (" " + last), x + y)
  {
    var s := first + (" " + last);
    assert s[|first| + 1..] == last;
    assert Joined(s, |first|) && ReadsBoth(read, s, |first|, x, y);
  }

  // ------------------------------------------------------------------------
  // Nothing to strip, nothing to lower
  // ------------------------------------------------------------------------

  /** Printed text: digits, lower-case letters and single blanks, no blank at either end. */
  predicate Printed(s: string) {
    && (forall i :: 0 <= i < |s| ==> !('A' <= s[i] <= 'Z'))
    && s != "" && !IsBlank(s[0]) && !IsBlank(s[|s| - 1])
  }

  lemma PrintedIsClean(s: string)
    requires Printed(s)
    ensures Lower(Strip(s)) == s
  {
    assert Blanks(s) == 0;
    assert s[0..] == s;
    assert StripLeft(s) == s && StripRight(s) == s;
  }

  lemma SpellPrinted(n: nat, unit: string)
    requires Spelled(unit, n)
    ensures Printed(Spell(n, unit))
  {
  }

  lemma JoinPrinted(first: string, last: string)
    requires Printed(first) && Printed(last)
    ensures Printed(first + (" " + last))
  {
  }

  lemma ZeroSpelled()
    ensures "0 minutes" == Spell(0, MinuteUnit(0))
  {
    assert NatText(0) == "0";
  }

  lemma LabelPrinted(hours: nat, minutes: nat)
    ensures Printed(LabelOf(hours, minutes))
  {
    SpellPrinted(hours, HourUnit(hours));
    SpellPrinted(minutes, MinuteUnit(minutes));
    if hours > 0 && minutes > 0 {
      JoinPrinted(HoursPart(hours), MinutesPart(minutes));
    } else if minutes == 0 {
      ZeroSpelled();
    }
  }

  lemma UnitsScale(hours: nat, minutes: nat)
    ensures Scaled(hours as real, HourUnit(hours)) == (3600 * hours) as real
    ensures Scaled(minutes as real, MinuteUnit(minutes)) == (60 * minutes) as real
  {
  }

  /** For a reader that takes spelled parts, a label is readable, and worth what it was printed for. */
  lemma LabelReadable(read: string -> Reading, hours: nat, minutes: nat)
    requires forall n, unit, rest :: Reads(read, n, unit, rest)
    ensures Readable(read, LabelOf(hours, minutes), (3600 * hours + 60 * minutes) as real)
  {
    var h, m := HourUnit(hours), MinuteUnit(minutes);
    UnitsScale(hours, minutes);
    assert Reads(read, minutes, m, "") && Reads(read, hours, h, "");
    if hours > 0 && minutes > 0 {
      assert Reads(read, hours, h, " " + Spell(minutes, m));
      assert Spell(minutes, m) + "" == Spell(minutes, m);
      JoinReadable(read, Spell(hours, h), Spell(minutes, m), (3600 * hours) as real, (60 * minutes) as real);
    } else if hours > 0 {
      SpellReadable(read, hours, h);
    } else {
      ZeroSpelled();
      SpellReadable(read, minutes, m);
    }
  }

  lemma CleanParses(scan: (string, nat) -> Between, read: string -> Reading, s: string, total: real)
    requires Scans(scan) && Consumes(read) && Printed(s) && Readable(read, s, total)
    ensures ParseWith(scan, read, s) == Some(total.Floor)
  {
    PrintedIsClean(s);
    ReadableParses(scan, read, s, total);
  }

  lemma MinutesOfSeconds(minutes: nat)
    ensures 60 * minutes / 60 == minutes
    ensures 3600 * (minutes / 60) + 60 * (minutes % 60) == 60 * minutes
  {
  }

  lemma LabelSplits(minutes: nat)
    ensures Label(60 * minutes) == LabelOf(minutes / 60, minutes % 60)
    ensures 3600 * (minutes / 60) + 60 * (minutes % 60) == 60 * minutes
  {
    MinutesOfSeconds(minutes);
    var seconds := 60 * minutes;
    assert Label(seconds) == LabelOf(seconds / 60 / 60, seconds / 60 % 60);
  }

  lemma LabelClean(s: string, hours: nat, minutes: nat)
    requires s == LabelOf(hours, minutes)
    ensures Printed(s) && Readable(ReadPart, s, (3600 * hours + 60 * minutes) as real)
  {
    forall n, unit, rest ensures Reads(ReadPart, n, unit, rest) {
      ReadPartReads(n, unit, rest);
    }
    LabelPrinted(hours, minutes);
    LabelReadable(ReadPart, hours, minutes);
  }

  /** Whatever number of minutes an interval has, the label printed for it reads back as that
      interval: hours and minutes, singular and plural, and none at all. */
  lemma RoundTrip(minutes: nat)
    ensures Parse(Label(60 * minutes)) == Some(60 * minutes)
  {
    var s := Label(60 * minutes);
    LabelSplits(minutes);
    LabelClean(s, minutes / 60, minutes % 60);
    BetweenAtScans();
    PatternWorks();
    CleanParses(BetweenAt, ReadPart, s, (60 * minutes) as real);
  }
}
