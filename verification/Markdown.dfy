/** Escaping for Telegram MarkdownV2, and the clipped preview (backend/app/adminbot/views.py). */
module Markdown {
  const SPECIALS := ['_', '*', '[', ']', '(', ')', '~', '`', '>', '#', '+', '-', '=', '|', '{', '}', '.', '!', '\\']

  predicate Special(c: char) {
    c in SPECIALS
  }

  function Width(c: char): nat {
    if Special(c) then 2 else 1
  }

  /** One character, behind a backslash if it is special. */
  function EscapeChar(c: char): (e: string)
    ensures |e| == Width(c)
  {
    if Special(c) then ['\\', c] else [c]
  }

  function Escaped(text: string): string {
    if text == "" then "" else Escaped(text[..|text| - 1]) + EscapeChar(text[|text| - 1])
  }

  method Escape(text: string) returns (out: string)
    ensures out == Escaped(text)
  {
    out := "";
    for i := 0 to |text|
      invariant out == Escaped(text[..i])
    {
      TakeOneMore(text, i);
      if Special(text[i]) {
        out := out + ['\\'];
      }
      out := out + [text[i]];
    }
    assert text[..|text|] == text;
  }

  lemma TakeOneMore(text: string, i: nat)
    requires i < |text|
    ensures Escaped(text[..i + 1]) == Escaped(text[..i]) + EscapeChar(text[i])
    ensures |Escaped(text[..i + 1])| == |Escaped(text[..i])| + Width(text[i])
  {
    assert text[..i + 1][..i] == text[..i];
  }

  /** The longest prefix of the ad that fits once escaped, and the number of characters cut: every
      longer prefix exceeds the limit. */
  method Preview(body: string, limit: int) returns (shown: string, cut: nat)
    ensures cut <= |body| && shown == Escaped(body[..|body| - cut])
    ensures limit >= 0 ==> |shown| <= limit
    ensures forall k :: |body| - cut < k <= |body| ==> |Escaped(body[..k])| > limit
  {
    var escaped := Escape(body);
    if |escaped| <= limit {
      assert body[..|body|] == body;
      return escaped, 0;
    }
    shown := "";
    var used := 0;
    for i := 0 to |body|
      invariant shown == Escaped(body[..i]) && used == |shown|
      invariant limit >= 0 ==> used <= limit
    {
      TakeOneMore(body, i);
      var width := if Special(body[i]) then 2 else 1;
      if used + width > limit {
        OnlyLonger(body, limit, i + 1);
        return shown, |body| - i;
      }
      var piece := Escape([body[i]]);
      SingleEscaped(body[i]);
      shown := shown + piece;
      used := used + width;
    }
    return shown, 0;
  }

  lemma SingleEscaped(c: char)
    ensures Escaped([c]) == EscapeChar(c)
  {
    assert [c][..0] == "";
  }

  lemma {:induction false} EscapedGrows(text: string, i: nat, j: nat)
    requires i <= j <= |text|
    ensures |Escaped(text[..i])| + (j - i) <= |Escaped(text[..j])|
  {
    if i < j {
      EscapedGrows(text, i, j - 1);
      TakeOneMore(text, j - 1);
    }
  }

  /** Once a prefix exceeds the limit, so does every longer one. */
  lemma OnlyLonger(body: string, limit: int, i: nat)
    requires i <= |body| && |Escaped(body[..i])| > limit
    ensures forall k :: i <= k <= |body| ==> |Escaped(body[..k])| > limit
  {
    forall k | i <= k <= |body| ensures |Escaped(body[..k])| > limit {
      EscapedGrows(body, i, k);
    }
  }

  /** Reading escaped text back: a backslash gives way to the character after it. */
  function Unescaped(text: string): string {
    if text == "" then ""
    else if text[0] == '\\' && |text| > 1 then [text[1]] + Unescaped(text[2..])
    else [text[0]] + Unescaped(text[1..])
  }

  lemma UnescapeOne(c: char, rest: string)
    ensures Unescaped(EscapeChar(c) + rest) == [c] + Unescaped(rest)
  {
    var tail := EscapeChar(c) + rest;
    if Special(c) {
      assert tail[2..] == rest;
    } else {
      assert tail[1..] == rest;
      assert c != '\\' by {
        assert SPECIALS[18] == '\\';
      }
    }
  }

  lemma Regroup(a: string, b: string, c: string)
    ensures a + (b + c) == a + b + c
  {
  }

  /** Reading back gets through an escaped text whole, whatever follows it. */
  lemma {:induction false} UnescapeThrough(text: string, rest: string)
    ensures Unescaped(Escaped(text) + rest) == text + Unescaped(rest)
  {
    if text == "" {
      assert Escaped(text) + rest == rest;
    } else {
      var front, c := text[..|text| - 1], text[|text| - 1];
      UnescapeThrough(front, EscapeChar(c) + rest);
      UnescapeOne(c, rest);
      Regroup(Escaped(front), EscapeChar(c), rest);
      Regroup(front, [c], Unescaped(rest));
      assert front + [c] == text;
    }
  }

  /** Escaping loses nothing. */
  lemma UnescapeEscape(text: string)
    ensures Unescaped(Escaped(text)) == text
  {
    UnescapeThrough(text, "");
    assert Escaped(text) + "" == Escaped(text);
  }

  function TrailingBackslashes(text: string): nat {
    if text == "" || text[|text| - 1] != '\\' then 0 else 1 + TrailingBackslashes(text[..|text| - 1])
  }

  lemma TrailingAfter(text: string, c: char)
    ensures TrailingBackslashes(text + [c]) == if c == '\\' then 1 + TrailingBackslashes(text) else 0
  {
    assert (text + [c])[..|text|] == text;
  }

  lemma EvenAfter(e: string, c: char)
    requires TrailingBackslashes(e) % 2 == 0
    ensures TrailingBackslashes(e + EscapeChar(c)) % 2 == 0
  {
    BackslashIsSpecial();
    if Special(c) {
      TrailingAfter(e, '\\');
      TrailingAfter(e + ['\\'], c);
      assert e + EscapeChar(c) == e + ['\\'] + [c];
    } else {
      TrailingAfter(e, c);
    }
  }

  /** Escaped text never ends in a backslash that escapes nothing. */
  lemma {:induction false} NoDanglingBackslash(text: string)
    ensures TrailingBackslashes(Escaped(text)) % 2 == 0
  {
    if text != "" {
      var front, c := text[..|text| - 1], text[|text| - 1];
      NoDanglingBackslash(front);
      EvenAfter(Escaped(front), c);
    }
  }

  lemma BackslashIsSpecial()
    ensures Special('\\')
  {
    assert SPECIALS[18] == '\\';
  }

  /** Every mark of MarkdownV2 stands behind a backslash, and nothing else does. */
  predicate WellEscaped(text: string) {
    if text == "" then true
    else if text[0] == '\\' then |text| > 1 && IsMark(text[1]) && WellEscaped(text[2..])
    else !IsMark(text[0]) && WellEscaped(text[1..])
  }

  /** The characters that Telegram reads as marks. */
  predicate IsMark(c: char) {
    || c == '_' || c == '*' || c == '[' || c == ']' || c == '(' || c == ')' || c == '~' || c == '`' || c == '>' || c == '#'
    || c == '+' || c == '-' || c == '=' || c == '|' || c == '{' || c == '}' || c == '.' || c == '!' || c == '\\'
  }

  lemma SpecialsAreMarks(c: char)
    ensures Special(c) <==> IsMark(c)
  {
    assert SPECIALS[0] == '_' && SPECIALS[1] == '*' && SPECIALS[2] == '[' && SPECIALS[3] == ']' && SPECIALS[4] == '(';
    assert SPECIALS[5] == ')' && SPECIALS[6] == '~' && SPECIALS[7] == '`' && SPECIALS[8] == '>' && SPECIALS[9] == '#';
    assert SPECIALS[10] == '+' && SPECIALS[11] == '-' && SPECIALS[12] == '=' && SPECIALS[13] == '|' && SPECIALS[14] == '{';
    assert SPECIALS[15] == '}' && SPECIALS[16] == '.' && SPECIALS[17] == '!' && SPECIALS[18] == '\\';
  }

  lemma {:induction false} WellEscapedAppend(a: string, b: string)
    requires WellEscaped(a) && WellEscaped(b)
    ensures WellEscaped(a + b)
  {
    if a == "" {
      assert a + b == b;
    } else if a[0] == '\\' {
      WellEscapedAppend(a[2..], b);
      assert (a + b)[2..] == a[2..] + b;
    } else {
      WellEscapedAppend(a[1..], b);
      assert (a + b)[1..] == a[1..] + b;
    }
  }

  /** Escaping leaves no mark bare and puts no backslash where none belongs. */
  lemma {:induction false} EscapedIsWell(text: string)
    ensures WellEscaped(Escaped(text))
  {
    if text != "" {
      var front, c := text[..|text| - 1], text[|text| - 1];
      EscapedIsWell(front);
      SpecialsAreMarks(c);
      assert WellEscaped(EscapeChar(c)) by {
        if Special(c) {
          assert EscapeChar(c)[2..] == "";
        } else {
          assert EscapeChar(c)[1..] == "";
          SpecialsAreMarks('\\');
        }
      }
      WellEscapedAppend(Escaped(front), EscapeChar(c));
    }
  }
}
