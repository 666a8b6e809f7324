/** UTF-16 code units. */
module Utf16 {
  // Section 3.9 of the Unicode Standard, section 2 of RFC 2781. A Dafny character is a Unicode scalar
  // value, so no lone surrogate can be written down.

  import opened Types

  type Unit = n: int | 0 <= n < 0x1_0000

  function EncodeChar(c: char): (u: seq<Unit>)
    ensures |u| == if c as int < 0x1_0000 then 1 else 2
  {
    var n := c as int;
    if n < 0x1_0000 then [n]
    else [0xD800 + (n - 0x1_0000) / 0x400, 0xDC00 + (n - 0x1_0000) % 0x400]
  }

  function Encode(s: string): seq<Unit> {
    if s == "" then [] else EncodeChar(s[0]) + Encode(s[1..])
  }

  /** The character a surrogate pair stands for. */
  function Joined(high: int, low: int): char
    requires 0xD800 <= high < 0xDC00 <= low < 0xE000
  {
    ((high - 0xD800) * 0x400 + (low - 0xDC00) + 0x1_0000) as char
  }

  /** The text of the units, or nothing if a surrogate stands alone. */
  function Decode(u: seq<Unit>): Option<string> {
    if u == [] then Some("")
    else if 0xD800 <= u[0] < 0xDC00 then
      if |u| > 1 && 0xDC00 <= u[1] < 0xE000 then
        var rest := Decode(u[2..]);
        if rest.None? then None else Some([Joined(u[0], u[1])] + rest.value)
      else None
    else if 0xDC00 <= u[0] < 0xE000 then None
    else
      var rest := Decode(u[1..]);
      if rest.None? then None else Some([u[0] as char] + rest.value)
  }

  lemma DecodeChar(c: char, u: seq<Unit>)
    requires Decode(u).Some?
    ensures Decode(EncodeChar(c) + u) == Some([c] + Decode(u).value)
  {
    var n := c as int;
    var e := EncodeChar(c) + u;
    if n < 0x1_0000 {
      assert e[1..] == u;
    } else {
      assert e[2..] == u;
      assert (n - 0x1_0000) / 0x400 * 0x400 + (n - 0x1_0000) % 0x400 == n - 0x1_0000;
    }
  }

  /** Decoding undoes encoding. */
  lemma {:induction false} DecodeEncode(s: string)
    ensures Decode(Encode(s)) == Some(s)
  {
    if s != "" {
      DecodeEncode(s[1..]);
      DecodeChar(s[0], Encode(s[1..]));
      assert [s[0]] + s[1..] == s;
    }
  }

  lemma Regroup(a: seq<Unit>, b: seq<Unit>, c: seq<Unit>)
    ensures a + (b + c) == a + b + c
  {
  }

  lemma EncodeFirst(c: char, s: string)
    ensures Encode([c] + s) == EncodeChar(c) + Encode(s)
  {
    assert ([c] + s)[1..] == s;
  }

  /** Encoding works piece by piece, so a stretch of the text is a stretch of the units. */
  lemma {:induction false} EncodeAppend(a: string, b: string)
    ensures Encode(a + b) == Encode(a) + Encode(b)
  {
    if a == "" {
      assert a + b == b;
    } else {
      EncodeAppend(a[1..], b);
      EncodeFirst(a[0], a[1..] + b);
      Regroup(EncodeChar(a[0]), Encode(a[1..]), Encode(b));
      assert a + b == [a[0]] + (a[1..] + b);
    }
  }

  /** The units that stand where a piece of the text stands decode to that piece. */
  lemma SliceDecodes(before: string, piece: string, after: string)
    ensures var units := Encode(before + piece + after);
      var start, end := |Encode(before)|, |Encode(before)| + |Encode(piece)|;
      && end <= |units| && units[start..end] == Encode(piece) && Decode(units[start..end]) == Some(piece)
  {
    EncodeAppend(before + piece, after);
    EncodeAppend(before, piece);
    DecodeEncode(piece);
    assert Encode(before + piece + after)[|Encode(before)|..|Encode(before)| + |Encode(piece)|] == Encode(piece);
  }

  /** A character of the basic plane is one unit, itself; any other is a high surrogate and a low one. */
  lemma UnitsOfChar(c: char)
    ensures var n := c as int;
      var u := EncodeChar(c);
      if n < 0x1_0000 then u == [n]
      else |u| == 2 && 0xD800 <= u[0] <= 0xDBFF && 0xDC00 <= u[1] <= 0xDFFF
           && n == 0x1_0000 + (u[0] as int - 0xD800) * 0x400 + (u[1] as int - 0xDC00)
  {
  }
}
