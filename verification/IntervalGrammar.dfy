/** What the interval parser accepts. */
module IntervalGrammar {
  import opened Types
  import opened Decimal
  import opened Interval

  const HOUR_UNITS := ["hours", "hour", "hrs", "hr", "h"]
  const MINUTE_UNITS := ["minutes", "minute", "mins", "min", "m"]

  predicate IsUnit(unit: string) {
    unit in HOUR_UNITS || unit in MINUTE_UNITS
  }

  /** Seconds in one of the unit; a number alone counts hours. */
  function Seconds(unit: string): real {
    if unit in MINUTE_UNITS then 60.0 else 3600.0
  }

  lemma UnitEnds(unit: string)
    requires IsUnit(unit)
    ensures UnitAt(unit) == unit && unit != "" && (unit[0] == 'h' || unit[0] == 'm')
    ensures unit in MINUTE_UNITS <==> unit[0] == 'm'
  {
    assert HOUR_UNITS[0] == "hours" && HOUR_UNITS[1] == "hour" && HOUR_UNITS[2] == "hrs" && HOUR_UNITS[3] == "hr" && HOUR_UNITS[4] == "h";
    assert MINUTE_UNITS[0] == "minutes" && MINUTE_UNITS[1] == "minute" && MINUTE_UNITS[2] == "mins" && MINUTE_UNITS[3] == "min"
        && MINUTE_UNITS[4] == "m";
  }

  lemma NoUnit()
    ensures UnitAt("") == "" && "" !in MINUTE_UNITS
  {
    assert forall i :: 0 <= i < |MINUTE_UNITS| ==> |MINUTE_UNITS[i]| > 0;
  }

  lemma UnitScales(amount: real, unit: string)
    requires unit == "" || IsUnit(unit)
    ensures Scaled(amount, unit) == Seconds(unit) * amount
  {
    if unit == "" {
      NoUnit();
    } else {
      UnitEnds(unit);
    }
  }

  // ------------------------------------------------------------------------
  // Amounts
  // ------------------------------------------------------------------------

  lemma Shifted(x: nat, p: nat, y: nat, d: nat)
    ensures 10 * (x * p + y) + d == x * (10 * p) + (10 * y + d)
  {
  }

  lemma {:induction false} ValueOfBoth(a: string, b: string)
    requires AllDigits(a) && AllDigits(b)
    ensures AllDigits(a + b) && Value(a + b) == Value(a) * Pow10(|b|) + Value(b)
  {
    if b == "" {
      assert a + b == a;
    } else {
      var front, last := b[..|b| - 1], b[|b| - 1];
      ValueOfBoth(a, front);
      assert (a + b)[..|a + b| - 1] == a + front;
      assert Value(a + b) == 10 * Value(a + front) + DigitValue(last);
      Shifted(Value(a), Pow10(|front|), Value(front), DigitValue(last));
    }
  }

  lemma Over(x: real, y: real, p: real)
    requires p > 0.0
    ensures (x * p + y) / p == x + y / p
  {
    assert x * p / p == x;
  }

  lemma RealProduct(x: nat, p: nat, y: nat)
    ensures (x * p + y) as real == x as real * p as real + y as real
  {
  }

  lemma Quotient(x: nat, y: nat, p: nat)
    requires p > 0
    ensures (x * p + y) as real / p as real == x as real + y as real / p as real
  {
    RealProduct(x, p, y);
    Over(x as real, y as real, p as real);
  }

  /** A decimal is worth its digits without the point, divided by ten for each digit after it. */
  lemma DecimalsRead(whole: string, fraction: string)
    requires AllDigits(whole) && AllDigits(fraction) && fraction != ""
    ensures AllDigits(whole + fraction)
    ensures Amount(whole, fraction) == Value(whole + fraction) as real / Pow10(|fraction|) as real
  {
    ValueOfBoth(whole, fraction);
    Quotient(Value(whole), Value(fraction), Pow10(|fraction|));
  }

  /** What stands between the digits and the end: perhaps a fraction, blanks, perhaps a unit. */
  function Tail(fraction: string, blanks: string, unit: string): string {
    (if fraction == "" then "" else "." + fraction) + (blanks + unit)
  }

  predicate IsAmount(whole: string, fraction: string, blanks: string, unit: string) {
    && whole != "" && AllDigits(whole) && AllDigits(fraction) && AllBlank(blanks)
    && (unit == "" || IsUnit(unit)) && (unit == "" ==> blanks == "")
  }

  lemma {:induction false} BlanksThrough(blanks: string, rest: string)
    requires AllBlank(blanks) && (rest != "" ==> !IsBlank(rest[0]))
    ensures Blanks(blanks + rest) == |blanks|
  {
    if blanks == "" {
      assert blanks + rest == rest;
    } else {
      assert (blanks + rest)[1..] == blanks[1..] + rest;
      BlanksThrough(blanks[1..], rest);
    }
  }

  lemma FractionThrough(fraction: string, rest: string)
    requires AllDigits(fraction) && (rest != "" ==> !IsDigit(rest[0]) && rest[0] != '.')
    ensures FractionLength((if fraction == "" then "" else "." + fraction) + rest) == if fraction == "" then 0 else 1 + |fraction|
  {
    if fraction == "" {
      assert "" + rest == rest;
    } else {
      var s := "." + fraction + rest;
      assert s[1..] == fraction + rest;
      DigitsThrough(fraction, rest);
    }
  }

  /** The end of an amount: blanks and a unit, or nothing. */
  lemma EndReads(blanks: string, unit: string)
    requires AllBlank(blanks) && (unit == "" || IsUnit(unit)) && (unit == "" ==> blanks == "")
    ensures var rest := blanks + unit;
      && (rest != "" ==> !IsDigit(rest[0]) && rest[0] != '.')
      && Blanks(rest) == |blanks| && rest[|blanks|..] == unit && UnitAt(unit) == unit
  {
    if unit == "" {
      NoUnit();
    } else {
      UnitEnds(unit);
    }
    BlanksThrough(blanks, unit);
  }

  lemma Dropped(a: string, b: string)
    ensures (a + b)[|a|..] == b
  {
  }

  lemma EndShape(digits: nat, fraction: nat, blanks: string, unit: string)
    requires AllBlank(blanks) && (unit == "" || IsUnit(unit)) && (unit == "" ==> blanks == "")
    ensures PartEnd(digits, fraction, blanks + unit) == Piece(digits, fraction, |blanks|, unit)
  {
    EndReads(blanks, unit);
  }

  lemma WholeShape(whole: string, blanks: string, unit: string)
    requires IsAmount(whole, "", blanks, unit)
    ensures PartAt(whole + (blanks + unit)) == Piece(|whole|, 0, |blanks|, unit)
  {
    var end := blanks + unit;
    EndReads(blanks, unit);
    DigitsThrough(whole, end);
    Dropped(whole, end);
    assert FractionLength(end) == 0 && end[0..] == end;
    EndShape(|whole|, 0, blanks, unit);
  }

  lemma DecimalShape(whole: string, fraction: string, blanks: string, unit: string)
    requires IsAmount(whole, fraction, blanks, unit) && fraction != ""
    ensures PartAt(whole + ("." + fraction + (blanks + unit))) == Piece(|whole|, 1 + |fraction|, |blanks|, unit)
  {
    var point, end := "." + fraction, blanks + unit;
    EndReads(blanks, unit);
    DigitsThrough(whole, point + end);
    Dropped(whole, point + end);
    FractionThrough(fraction, end);
    Dropped(point, end);
    EndShape(|whole|, |point|, blanks, unit);
  }

  lemma AmountShape(whole: string, fraction: string, blanks: string, unit: string)
    requires IsAmount(whole, fraction, blanks, unit)
    ensures PartAt(whole + Tail(fraction, blanks, unit))
         == Piece(|whole|, if fraction == "" then 0 else 1 + |fraction|, |blanks|, unit)
  {
    if fraction == "" {
      WholeShape(whole, blanks, unit);
      assert Tail(fraction, blanks, unit) == blanks + unit;
    } else {
      DecimalShape(whole, fraction, blanks, unit);
    }
  }

  lemma ReadingOf(s: string, whole: string, fraction: string, p: Part)
    requires AllDigits(whole) && AllDigits(fraction) && PartAt(s) == p && p.digits == |whole| <= |s|
    requires s[..|whole|] == whole
    requires if fraction == "" then p.fraction == 0
             else p.fraction == 1 + |fraction| && |whole| + p.fraction <= |s| && s[|whole|..][1..1 + |fraction|] == fraction
    ensures ReadPart(s) == Reading(PartLength(p), Scaled(Amount(whole, fraction), p.unit))
  {
  }

  lemma AmountReads(whole: string, fraction: string, blanks: string, unit: string)
    requires IsAmount(whole, fraction, blanks, unit)
    ensures var s := whole + Tail(fraction, blanks, unit);
      ReadPart(s) == Reading(|s|, Seconds(unit) * Amount(whole, fraction))
  {
    var s := whole + Tail(fraction, blanks, unit);
    AmountShape(whole, fraction, blanks, unit);
    UnitScales(Amount(whole, fraction), unit);
    assert s[..|whole|] == whole;
    if fraction != "" {
      Dropped(whole, Tail(fraction, blanks, unit));
      assert Tail(fraction, blanks, unit)[1..1 + |fraction|] == fraction;
    }
    ReadingOf(s, whole, fraction, PartAt(s));
  }

  lemma AmountPrinted(whole: string, fraction: string, blanks: string, unit: string)
    requires IsAmount(whole, fraction, blanks, unit)
    ensures Printed(whole + Tail(fraction, blanks, unit))
  {
    var s := whole + Tail(fraction, blanks, unit);
    if unit != "" {
      UnitLower(unit);
      assert s[|s| - 1] == unit[|unit| - 1];
    } else if fraction != "" {
      assert s[|s| - 1] == fraction[|fraction| - 1];
    } else {
      assert s == whole;
    }
  }

  lemma UnitLower(unit: string)
    requires IsUnit(unit)
    ensures forall i :: 0 <= i < |unit| ==> 'a' <= unit[i] <= 'z'
  {
    UnitEnds(unit);
    assert HOUR_UNITS[0] == "hours" && MINUTE_UNITS[0] == "minutes";
  }

  /** One amount is worth what it says: a whole number or a decimal, with any of the ten units, blanks
      before it or none, and hours when there is no unit. */
  lemma AmountParses(whole: string, fraction: string, blanks: string, unit: string)
    requires IsAmount(whole, fraction, blanks, unit)
    ensures Parse(whole + Tail(fraction, blanks, unit)) == Some((Seconds(unit) * Amount(whole, fraction)).Floor)
  {
    var s := whole + Tail(fraction, blanks, unit);
    AmountReads(whole, fraction, blanks, unit);
    AmountPrinted(whole, fraction, blanks, unit);
    BetweenAtScans();
    PatternWorks();
    CleanParses(BetweenAt, ReadPart, s, Seconds(unit) * Amount(whole, fraction));
  }

  lemma WholeSeconds(n: nat)
    ensures (3600.0 * n as real).Floor == 3600 * n && (60.0 * n as real).Floor == 60 * n
  {
    assert 3600.0 * n as real == (3600 * n) as real && 60.0 * n as real == (60 * n) as real;
  }

  lemma FloorOf(unit: string, amount: real, n: nat)
    requires amount == n as real
    ensures (Seconds(unit) * amount).Floor == if unit in MINUTE_UNITS then 60 * n else 3600 * n
  {
    WholeSeconds(n);
    if unit in MINUTE_UNITS {
      assert Seconds(unit) == 60.0;
    } else {
      assert Seconds(unit) == 3600.0;
    }
  }

  lemma NoTail(blanks: string, unit: string)
    ensures Tail("", blanks, unit) == blanks + unit
  {
  }

  lemma AmountParsesAs(whole: string, blanks: string, unit: string, seconds: int)
    requires IsAmount(whole, "", blanks, unit) && (Seconds(unit) * Amount(whole, "")).Floor == seconds
    ensures Parse(whole + (blanks + unit)) == Some(seconds)
  {
    AmountParses(whole, "", blanks, unit);
    NoTail(blanks, unit);
  }

  lemma WholeParses(whole: string, n: nat, blanks: string, unit: string)
    requires IsAmount(whole, "", blanks, unit) && Value(whole) == n
    ensures Parse(whole + (blanks + unit)) == Some(if unit in MINUTE_UNITS then 60 * n else 3600 * n)
  {
    FloorOf(unit, Amount(whole, ""), n);
    AmountParsesAs(whole, blanks, unit, if unit in MINUTE_UNITS then 60 * n else 3600 * n);
  }

  /** So a bare number counts hours, and a number with a unit counts that unit. */
  lemma NumbersParse(n: nat, blanks: string, unit: string)
    requires AllBlank(blanks) && IsUnit(unit)
    ensures Parse(NatText(n)) == Some(3600 * n)
    ensures Parse(NatText(n) + (blanks + unit)) == Some(if unit in MINUTE_UNITS then 60 * n else 3600 * n)
  {
    NoUnit();
    WholeParses(NatText(n), n, "", "");
    assert NatText(n) + ("" + "") == NatText(n);
    UnitEnds(unit);
    WholeParses(NatText(n), n, blanks, unit);
  }

  // ------------------------------------------------------------------------
  // What is refused
  // ------------------------------------------------------------------------

  lemma NothingBeforeDigit(s: string)
    requires s != "" && !IsDigit(s[0]) && !IsBlank(s[0])
    ensures BetweenAt(s, 0) == Junk || BetweenAt(s, 0) == End(false)
  {
    assert s[0..] == s;
    var gap := Gap(s);
    assert gap > 0;
    if gap < |s| {
      assert s[..gap][0] == s[0];
    }
  }

  /** A text that does not start with a digit, blanks aside, is refused. */
  lemma MustStartWithDigit(text: string)
    requires var cleaned := Lower(Strip(text)); cleaned == "" || (!IsDigit(cleaned[0]) && !IsBlank(cleaned[0]))
    ensures Parse(text) == None
  {
    PatternWorks();
    var cleaned := Lower(Strip(text));
    if cleaned != "" {
      NothingBeforeDigit(cleaned);
    }
  }

  lemma {:induction false} GapToEnd(s: string)
    requires forall i :: 0 <= i < |s| ==> !IsDigit(s[i])
    ensures Gap(s) == |s|
  {
    if s != "" {
      GapToEnd(s[1..]);
    }
  }

  lemma JunkShape(digits: string, junk: string)
    requires digits != "" && AllDigits(digits)
    requires junk != "" && !IsDigit(junk[0]) && !IsBlank(junk[0]) && junk[0] != '.' && junk[0] != 'h' && junk[0] != 'm'
    ensures PartAt(digits + junk) == Piece(|digits|, 0, 0, "")
  {
    DigitsThrough(digits, junk);
    assert (digits + junk)[|digits|..] == junk;
    assert Blanks(junk) == 0 && junk[0..] == junk;
    assert UnitAt(junk) == "";
  }

  lemma PartThenJunk(scan: (string, nat) -> Between, read: string -> Reading, s: string, at: nat, x: real)
    requires Finds(scan) && Consumes(read) && at <= |s|
    requires scan(s, 0) == Between.Part(0) && read(s) == Reading(at, x) && scan(s, at) == End(false)
    ensures ParseFrom(scan, read, s, 0, 0.0) == None
  {
    assert s[0..] == s;
  }

  lemma JunkAtEnd(s: string, at: nat, junk: string)
    requires at <= |s| && s[at..] == junk && junk != "" && !IsBlank(junk[0])
    requires forall i :: 0 <= i < |junk| ==> !IsDigit(junk[i])
    ensures BetweenAt(s, at) == End(false)
  {
    GapToEnd(junk);
  }

  /** A number followed by something that is no unit is refused. */
  lemma JunkIsRefused(digits: string, junk: string)
    requires digits != "" && AllDigits(digits) && Printed(digits + junk)
    requires junk != "" && !IsBlank(junk[0]) && junk[0] != '.' && junk[0] != 'h' && junk[0] != 'm'
    requires forall i :: 0 <= i < |junk| ==> !IsDigit(junk[i])
    ensures Parse(digits + junk) == None
  {
    var s := digits + junk;
    PrintedIsClean(s);
    PatternWorks();
    JunkShape(digits, junk);
    AtDigit(s, 0);
    Dropped(digits, junk);
    JunkAtEnd(s, |digits|, junk);
    PartThenJunk(BetweenAt, ReadPart, s, |digits|, ReadPart(s).seconds);
  }

  // ------------------------------------------------------------------------
  // Blanks around it, and capitals
  // ------------------------------------------------------------------------

  lemma {:induction false} StripRightThrough(s: string, pad: string)
    requires s != "" && !IsBlank(s[|s| - 1]) && AllBlank(pad)
    ensures StripRight(s + pad) == s
  {
    if pad == "" {
      assert s + pad == s;
    } else {
      assert (s + pad)[..|s + pad| - 1] == s + pad[..|pad| - 1];
      StripRightThrough(s, pad[..|pad| - 1]);
    }
  }

  predicate Bounded(s: string) {
    s != "" && !IsBlank(s[0]) && !IsBlank(s[|s| - 1])
  }

  lemma StripsBoth(before: string, s: string, after: string)
    requires Bounded(s) && AllBlank(before) && AllBlank(after)
    ensures Strip(before + (s + after)) == s
  {
    BlanksThrough(before, s + after);
    Dropped(before, s + after);
    StripRightThrough(s, after);
  }

  /** Blanks around a time do not matter. */
  lemma PaddedParses(before: string, s: string, after: string)
    requires Bounded(s) && AllBlank(before) && AllBlank(after)
    ensures Parse(before + (s + after)) == Parse(s)
  {
    StripsBoth(before, s, after);
    StripsBoth("", s, "");
    assert "" + (s + "") == s;
  }

  /** Two texts that differ at most in capitals. */
  predicate SameButCase(s: string, t: string) {
    |s| == |t| && forall i :: 0 <= i < |s| ==>
      t[i] == s[i] || ('A' <= s[i] <= 'Z' && t[i] as int == s[i] as int + 32)
  }

  lemma SameLower(s: string, t: string)
    requires SameButCase(s, t)
    ensures Lower(s) == Lower(t)
  {
  }

  /** Nor do capitals. */
  lemma CapitalsParse(s: string, t: string)
    requires SameButCase(s, t) && Bounded(s) && Bounded(t)
    ensures Parse(s) == Parse(t)
  {
    StripsBoth("", s, "");
    StripsBoth("", t, "");
    assert "" + (s + "") == s && "" + (t + "") == t;
    SameLower(s, t);
  }

  // ------------------------------------------------------------------------
  // What is printed
  // ------------------------------------------------------------------------

  lemma BySixty(n: nat, q: nat, r: nat)
    requires n == 60 * q + r && r < 60
    ensures n / 60 == q && n % 60 == r
  {
  }

  lemma LabelFrom(seconds: nat, total: nat, hours: nat, minutes: nat)
    requires seconds / 60 == total && total / 60 == hours && total % 60 == minutes
    ensures Label(seconds) == LabelOf(hours, minutes)
  {
  }

  lemma SplitAt(seconds: nat, total: nat, hours: nat, minutes: nat)
    requires seconds == 60 * total && total == 60 * hours + minutes && minutes < 60
    ensures Label(seconds) == LabelOf(hours, minutes)
  {
    BySixty(seconds, total, 0);
    BySixty(total, hours, minutes);
    LabelFrom(seconds, total, hours, minutes);
  }

  lemma HourPrinted(n: nat)
    ensures Spell(n, HourUnit(n)) == if n == 1 then "1 hour" else NatText(n) + " hours"
  {
    assert NatText(1) == "1";
  }

  lemma MinutePrinted(n: nat)
    ensures Spell(n, MinuteUnit(n)) == if n == 1 then "1 minute" else NatText(n) + " minutes"
  {
    assert NatText(1) == "1";
  }

  /** A label has its hours, then its minutes, each left out when there are none. */
  lemma LabelSays(seconds: nat, hours: nat, minutes: nat)
    requires seconds == 3600 * hours + 60 * minutes && minutes < 60
    ensures var h := if hours == 1 then "1 hour" else NatText(hours) + " hours";
      var m := if minutes == 1 then "1 minute" else NatText(minutes) + " minutes";
      Label(seconds)
        == if hours == 0 && minutes == 0 then "0 minutes"
           else if minutes == 0 then h else if hours == 0 then m else h + (" " + m)
  {
    SplitAt(seconds, 60 * hours + minutes, hours, minutes);
    HourPrinted(hours);
    MinutePrinted(minutes);
  }
}
