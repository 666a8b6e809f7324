/** Premium-emoji markup. */
module EmojiMarkup {
  // Writing it, taking it out, and reading it into entities (backend/app/adminbot/premium_icons.py,
  // backend/app/adminbot/handlers.py).

  import opened Types
  import opened Decimal
  import opened Utf16

  /** From an emoji to the id of its custom document. */
  type Mapping = map<string, string>

  const OPENING := "!["
  const MIDDLE := "](tg://emoji?id="
  const CLOSING := ")"

  /** Keys that cannot be mistaken for markup, and ids that are numbers. */
  predicate Good(mapping: Mapping) {
    forall k :: k in mapping ==> GoodKey(k) && GoodId(mapping[k])
  }

  predicate GoodKey(k: string) {
    k != "" && '!' !in k && '[' !in k && ']' !in k
  }

  predicate GoodId(id: string) {
    id != "" && AllDigits(id)
  }

  /** The text does not contain the opening of a token. */
  predicate Unmarked(t: string) {
    forall i :: 0 <= i < |t| - 1 ==> !(t[i] == '!' && t[i + 1] == '[')
  }

  function Token(key: string, id: string): string {
    OPENING + key + MIDDLE + id + CLOSING
  }

  // ------------------------------------------------------------------------
  // Writing
  // ------------------------------------------------------------------------

  /** The longest mapped emoji of at most `n` characters that the text starts with. */
  function LongestUpTo(mapping: Mapping, t: string, n: nat): (k: Option<string>)
    requires n <= |t|
    ensures k.Some? ==> k.value in mapping && k.value <= t && 0 < |k.value| <= n
    ensures forall j :: (if k.Some? then |k.value| else 0) < j <= n ==> t[..j] !in mapping
  {
    if n == 0 then None else if t[..n] in mapping then Some(t[..n]) else LongestUpTo(mapping, t, n - 1)
  }

  function Longest(mapping: Mapping, t: string): Option<string> {
    LongestUpTo(mapping, t, |t|)
  }

  /** Every mapped emoji, leftmost and longest first, becomes a token; nothing written is read again. */
  function Apply(mapping: Mapping, t: string): string
    decreases |t|
  {
    if t == "" then ""
    else
      var k := Longest(mapping, t);
      if k.Some? then Token(k.value, mapping[k.value]) + Apply(mapping, t[|k.value|..])
      else [t[0]] + Apply(mapping, t[1..])
  }

  // ------------------------------------------------------------------------
  // Reading
  // ------------------------------------------------------------------------

  /** How many characters come before the first closing bracket. */
  function UpToBracket(s: string): (n: nat)
    ensures n <= |s|
    ensures forall i :: 0 <= i < n ==> s[i] != ']'
    ensures n < |s| ==> s[n] == ']'
  {
    if s != "" && s[0] != ']' then
      var n := UpToBracket(s[1..]);
      assert forall i :: 1 <= i < 1 + n ==> s[i] == s[1..][i - 1];
      1 + n
    else 0
  }

  function DigitCount(s: string): (n: nat)
    ensures n <= |s| && AllDigits(s[..n])
    ensures n < |s| ==> !IsDigit(s[n])
  {
    if s != "" && IsDigit(s[0]) then
      var n := 1 + DigitCount(s[1..]);
      assert s[..n] == [s[0]] + s[1..][..n - 1];
      n
    else 0
  }

  datatype Match = Match(key: string, id: string)

  /** What a token is longer by than its emoji and its id: `![`, `](tg://emoji?id=` and `)`. */
  const FRAME: nat := 19

  function Length(m: Match): nat {
    |m.key| + |m.id| + FRAME
  }

  /** The id, and the closing of the token, after the emoji. */
  function IdAt(key: string, digits: string): (m: Option<Match>)
    requires key != ""
    ensures m.Some? ==> m.value.key == key && |m.value.id| + |CLOSING| <= |digits|
  {
    var d := DigitCount(digits);
    if d > 0 && d < |digits| && digits[d] == ')' then Some(Match(key, digits[..d])) else None
  }

  /** The emoji up to the bracket, and what follows it. */
  function KeyAt(inside: string): (m: Option<Match>)
    ensures m.Some? ==> m.value.key != "" && |m.value.key| + |MIDDLE| + |m.value.id| + |CLOSING| <= |inside|
  {
    var n := UpToBracket(inside);
    if n == 0 || !(MIDDLE <= inside[n..]) then None else IdAt(inside[..n], inside[n..][|MIDDLE|..])
  }

  /** The token the text starts with, if it does: the pattern of the source, anchored. */
  function MatchAt(s: string): (m: Option<Match>)
    ensures m.Some? ==> m.value.key != "" && Length(m.value) <= |s|
  {
    if OPENING <= s then KeyAt(s[|OPENING|..]) else None
  }

  /** A way of recognising the token that starts at a position of a text: `MatchFrom`, or any other
      that takes no more than there is. */
  type Reader = (string, nat) -> Option<Match>

  ghost predicate Fits(read: Reader) {
    forall s: string, at: nat :: read(s, at).Some? ==> at + Length(read(s, at).value) <= |s|
  }

  function MatchFrom(s: string, at: nat): Option<Match> {
    if at > |s| then None else MatchAt(s[at..])
  }

  /** A text cut up: characters left alone, and emoji with the ids of their documents. */
  datatype Piece = Plain(c: char) | Emoji(key: string, id: string)

  function Bare(p: Piece): string {
    if p.Plain? then [p.c] else p.key
  }

  function Written(p: Piece): string {
    if p.Plain? then [p.c] else Token(p.key, p.id)
  }

  function Joined(pieces: seq<Piece>, f: Piece -> string): string {
    if pieces == [] then "" else f(pieces[0]) + Joined(pieces[1..], f)
  }

  /** The tokens of a text from `at` on, leftmost first and apart, with the characters between them. */
  function Cut(read: Reader, s: string, at: nat): seq<Piece>
    requires Fits(read) && at <= |s|
    decreases |s| - at
  {
    if at == |s| then []
    else
      var m := read(s, at);
      if m.Some? then [Emoji(m.value.key, m.value.id)] + Cut(read, s, at + Length(m.value))
      else [Plain(s[at])] + Cut(read, s, at + 1)
  }

  function PiecesOf(s: string): seq<Piece> {
    MatchFromFits();
    Cut(MatchFrom, s, 0)
  }

  lemma MatchFromFits()
    ensures Fits(MatchFrom)
  {
  }

  /** Every token gives way to the emoji inside it. */
  function Stripped(s: string): string {
    Joined(PiecesOf(s), Bare)
  }

  datatype Entity = Entity(offset: nat, length: nat, id: string)

  /** The length of a text in UTF-16 code units. */
  function Units(s: string): nat {
    |Encode(s)|
  }

  /** The entities of the pieces, with the text `before` in front of them. */
  function EntitiesFrom(pieces: seq<Piece>, before: string): seq<Entity> {
    if pieces == [] then []
    else
      var rest := EntitiesFrom(pieces[1..], before + Bare(pieces[0]));
      if pieces[0].Plain? then rest else [Entity(Units(before), Units(pieces[0].key), pieces[0].id)] + rest
  }

  function Entities(s: string): seq<Entity> {
    EntitiesFrom(PiecesOf(s), "")
  }

  // ------------------------------------------------------------------------
  // What is written is found again, and nothing else
  // ------------------------------------------------------------------------

  lemma {:induction false} BracketFound(key: string, rest: string)
    requires ']' !in key && rest != "" && rest[0] == ']'
    ensures UpToBracket(key + rest) == |key|
  {
    if key == "" {
      assert key + rest == rest;
    } else {
      assert key[0] in key && (key + rest)[1..] == key[1..] + rest;
      BracketFound(key[1..], rest);
    }
  }

  lemma {:induction false} DigitsFound(id: string, rest: string)
    requires AllDigits(id) && rest != "" && !IsDigit(rest[0])
    ensures DigitCount(id + rest) == |id|
  {
    if id == "" {
      assert id + rest == rest;
    } else {
      assert (id + rest)[1..] == id[1..] + rest;
      DigitsFound(id[1..], rest);
    }
  }

  lemma IdFound(key: string, id: string, rest: string)
    requires key != "" && GoodId(id)
    ensures IdAt(key, id + (CLOSING + rest)) == Some(Match(key, id))
  {
    DigitsFound(id, CLOSING + rest);
    assert (id + (CLOSING + rest))[..|id|] == id;
  }

  lemma KeyFound(key: string, digits: string)
    requires GoodKey(key)
    ensures KeyAt(key + (MIDDLE + digits)) == IdAt(key, digits)
  {
    var inside := key + (MIDDLE + digits);
    BracketFound(key, MIDDLE + digits);
    assert inside[..|key|] == key && inside[|key|..] == MIDDLE + digits;
    assert (MIDDLE + digits)[|MIDDLE|..] == digits;
  }

  lemma OpeningFound(inside: string)
    ensures MatchAt(OPENING + inside) == KeyAt(inside)
  {
    assert (OPENING + inside)[|OPENING|..] == inside;
  }

  lemma TokenRegrouped(key: string, id: string, rest: string)
    ensures Token(key, id) + rest == OPENING + (key + (MIDDLE + (id + (CLOSING + rest))))
  {
  }

  /** A token is read back as the emoji and the id it was written from. */
  lemma TokenMatches(key: string, id: string, rest: string)
    requires GoodKey(key) && GoodId(id)
    ensures MatchAt(Token(key, id) + rest) == Some(Match(key, id))
    ensures |Token(key, id)| == Length(Match(key, id))
  {
    TokenRegrouped(key, id, rest);
    OpeningFound(key + (MIDDLE + (id + (CLOSING + rest))));
    KeyFound(key, id + (CLOSING + rest));
    IdFound(key, id, rest);
  }

  /** What is written starts with what was there, or with the opening of a token. */
  lemma AppliedStart(mapping: Mapping, t: string)
    requires t != ""
    ensures Apply(mapping, t) != ""
    ensures Apply(mapping, t)[0] == '!' || Apply(mapping, t)[0] == t[0]
  {
  }

  /** A character left as it was does not become the start of a token. */
  lemma PlainNoMatch(mapping: Mapping, t: string)
    requires t != "" && Unmarked(t)
    ensures MatchAt([t[0]] + Apply(mapping, t[1..])) == None
  {
    var s := [t[0]] + Apply(mapping, t[1..]);
    if t[1..] == "" {
      assert |s| == 1;
    } else {
      AppliedStart(mapping, t[1..]);
      assert t[1..][0] == t[1];
      assert s[1] == Apply(mapping, t[1..])[0];
      assert !(s[0] == '!' && s[1] == '[');
      assert s[..2][0] == s[0] && s[..2][1] == s[1];
    }
  }

  lemma UnmarkedTail(t: string, n: nat)
    requires Unmarked(t) && n <= |t|
    ensures Unmarked(t[n..])
  {
  }

  // ------------------------------------------------------------------------
  // Round trips
  // ------------------------------------------------------------------------

  /** The pieces that marking a text up leaves alone or writes as tokens. */
  function Pieces(mapping: Mapping, t: string): seq<Piece>
    decreases |t|
  {
    if t == "" then []
    else
      var k := Longest(mapping, t);
      if k.Some? then [Emoji(k.value, mapping[k.value])] + Pieces(mapping, t[|k.value|..])
      else [Plain(t[0])] + Pieces(mapping, t[1..])
  }

  lemma {:induction false} PiecesJoin(mapping: Mapping, t: string)
    ensures Joined(Pieces(mapping, t), Bare) == t
    ensures Joined(Pieces(mapping, t), Written) == Apply(mapping, t)
    decreases |t|
  {
    if t != "" {
      var k := Longest(mapping, t);
      var piece := if k.Some? then k.value else [t[0]];
      PiecesJoin(mapping, t[|piece|..]);
      assert t == piece + t[|piece|..];
      assert Pieces(mapping, t)[1..] == Pieces(mapping, t[|piece|..]);
    }
  }

  /** The reader takes the piece for what it is, with `rest` written after it. */
  predicate Recognised(read: Reader, p: Piece, rest: string) {
    var s := Written(p) + rest;
    if p.Plain? then read(s, 0) == None
    else read(s, 0) == Some(Match(p.key, p.id)) && Length(Match(p.key, p.id)) == |Written(p)|
  }

  ghost predicate AllRecognised(read: Reader, pieces: seq<Piece>) {
    forall i :: 0 <= i < |pieces| ==> Recognised(read, pieces[i], Joined(pieces[i + 1..], Written))
  }

  /** What the reader makes of a position depends on what comes after it only. */
  predicate LocalAt(read: Reader, s: string, at: nat) {
    at <= |s| ==> read(s, at) == read(s[at..], 0)
  }

  ghost predicate Local(read: Reader) {
    forall s: string, at: nat :: LocalAt(read, s, at)
  }

  lemma MatchFromLocal()
    ensures Local(MatchFrom)
  {
    forall s: string, at: nat ensures LocalAt(MatchFrom, s, at) {
      if at <= |s| {
        assert s[at..][0..] == s[at..];
      }
    }
  }

  /** The reader takes piece `p` at `at` and goes on to `next`. */
  predicate Goes(read: Reader, p: Piece, s: string, at: nat, next: nat) {
    && at < |s|
    && if p.Plain? then read(s, at) == None && s[at] == p.c && next == at + 1
       else read(s, at) == Some(Match(p.key, p.id)) && next == at + Length(Match(p.key, p.id)) <= |s|
  }

  lemma RecognisedGoes(read: Reader, p: Piece, s: string, at: nat, rest: string)
    requires LocalAt(read, s, at) && Recognised(read, p, rest) && at <= |s| && s[at..] == Written(p) + rest
    ensures Goes(read, p, s, at, |s| - |rest|)
  {
    assert Written(p) != "";
    assert p.Plain? ==> s[at..][0] == p.c;
  }

  lemma CutGoes(read: Reader, p: Piece, s: string, at: nat, next: nat)
    requires Fits(read) && Goes(read, p, s, at, next)
    ensures next <= |s| && Cut(read, s, at) == [p] + Cut(read, s, next)
  {
  }

  lemma {:induction false} JoinedTail(pieces: seq<Piece>, i: nat)
    requires i <= |pieces|
    ensures var s, tail := Joined(pieces, Written), Joined(pieces[i..], Written);
      |tail| <= |s| && s[|s| - |tail|..] == tail
  {
    if i == 0 {
      assert pieces[0..] == pieces;
    } else {
      JoinedTail(pieces, i - 1);
      assert pieces[i - 1..][1..] == pieces[i..];
    }
  }

  /** Where piece `i` starts in what is written. */
  function StartOf(pieces: seq<Piece>, i: nat): (at: nat)
    requires i <= |pieces|
    ensures at <= |Joined(pieces, Written)|
  {
    JoinedTail(pieces, i);
    |Joined(pieces, Written)| - |Joined(pieces[i..], Written)|
  }

  /** The reader takes piece `i` of what is written where it starts. */
  ghost predicate OnTrack(read: Reader, pieces: seq<Piece>, s: string, i: nat) {
    i < |pieces| ==> Goes(read, pieces[i], s, StartOf(pieces, i), StartOf(pieces, i + 1))
  }

  lemma PieceOnTrack(read: Reader, pieces: seq<Piece>, s: string, i: nat)
    requires Local(read) && AllRecognised(read, pieces) && s == Joined(pieces, Written)
    ensures OnTrack(read, pieces, s, i)
  {
    if i < |pieces| {
      var at := StartOf(pieces, i);
      JoinedTail(pieces, i);
      assert pieces[i..][1..] == pieces[i + 1..];
      assert LocalAt(read, s, at);
      RecognisedGoes(read, pieces[i], s, at, Joined(pieces[i + 1..], Written));
    }
  }

  lemma {:induction false} TrackIsCut(read: Reader, pieces: seq<Piece>, s: string, i: nat)
    requires Fits(read) && s == Joined(pieces, Written) && i <= |pieces|
    requires forall k :: OnTrack(read, pieces, s, k)
    ensures Cut(read, s, StartOf(pieces, i)) == pieces[i..]
    decreases |pieces| - i
  {
    if i < |pieces| {
      TrackIsCut(read, pieces, s, i + 1);
      assert OnTrack(read, pieces, s, i);
      CutGoes(read, pieces[i], s, StartOf(pieces, i), StartOf(pieces, i + 1));
    } else {
      assert pieces[i..] == [];
    }
  }

  /** The pattern of the source recognises every piece of a text it was not already marked in. */
  lemma {:induction false} PiecesRecognised(mapping: Mapping, t: string)
    requires Good(mapping) && Unmarked(t)
    ensures AllRecognised(MatchFrom, Pieces(mapping, t))
    decreases |t|
  {
    if t != "" {
      var k := Longest(mapping, t);
      var n := if k.Some? then |k.value| else 1;
      var pieces := Pieces(mapping, t);
      UnmarkedTail(t, n);
      PiecesRecognised(mapping, t[n..]);
      PiecesJoin(mapping, t[n..]);
      assert pieces[1..] == Pieces(mapping, t[n..]);
      assert Recognised(MatchFrom, pieces[0], Joined(pieces[1..], Written)) by {
        if k.Some? {
          TokenMatches(k.value, mapping[k.value], Apply(mapping, t[n..]));
        } else {
          PlainNoMatch(mapping, t);
        }
      }
      forall i | 0 <= i < |pieces| ensures Recognised(MatchFrom, pieces[i], Joined(pieces[i + 1..], Written)) {
        if i > 0 {
          assert pieces[i] == pieces[1..][i - 1] && pieces[1..][i - 1 + 1..] == pieces[i + 1..];
        }
      }
    }
  }

  /** Where the mapped emoji of a text stand, leftmost and longest first, in code units. */
  function Occurrences(mapping: Mapping, t: string): seq<Entity> {
    EntitiesFrom(Pieces(mapping, t), "")
  }

  /** Cutting up what was written finds the pieces that were written, no more and no fewer. */
  lemma CutUndoesApply(mapping: Mapping, t: string)
    requires Good(mapping) && Unmarked(t)
    ensures PiecesOf(Apply(mapping, t)) == Pieces(mapping, t)
  {
    var pieces := Pieces(mapping, t);
    MatchFromFits();
    MatchFromLocal();
    PiecesRecognised(mapping, t);
    PiecesJoin(mapping, t);
    forall k ensures OnTrack(MatchFrom, pieces, Apply(mapping, t), k) {
      PieceOnTrack(MatchFrom, pieces, Apply(mapping, t), k);
    }
    assert pieces[0..] == pieces;
    TrackIsCut(MatchFrom, pieces, Apply(mapping, t), 0);
  }

  /** Taking the markup out gives back the text it was put into; reading it gives that text with
      exactly its mapped emoji as entities. */
  lemma MarkupRoundTrips(mapping: Mapping, t: string)
    requires Good(mapping) && Unmarked(t)
    ensures Stripped(Apply(mapping, t)) == t
    ensures Entities(Apply(mapping, t)) == Occurrences(mapping, t)
  {
    CutUndoesApply(mapping, t);
    PiecesJoin(mapping, t);
  }

  /** The slice of the units that an entity points at decodes to a mapped emoji with the entity's id. */
  predicate PointsAtEmoji(mapping: Mapping, units: seq<Unit>, e: Entity) {
    && e.offset + e.length <= |units|
    && var text := Decode(units[e.offset..e.offset + e.length]);
       text.Some? && text.value in mapping && mapping[text.value] == e.id
  }

  predicate Mapped(mapping: Mapping, pieces: seq<Piece>) {
    forall i :: 0 <= i < |pieces| ==>
      pieces[i].Plain? || (pieces[i].key in mapping && pieces[i].key != "" && mapping[pieces[i].key] == pieces[i].id)
  }

  lemma {:induction false} PiecesMapped(mapping: Mapping, t: string)
    ensures Mapped(mapping, Pieces(mapping, t))
    decreases |t|
  {
    if t != "" {
      var k := Longest(mapping, t);
      PiecesMapped(mapping, t[if k.Some? then |k.value| else 1..]);
    }
  }

  lemma SplitThere(before: string, piece: string, rest: string)
    ensures Encode(before + (piece + rest)) == Encode(before + piece + rest)
    ensures Units(before + piece) == Units(before) + Units(piece)
  {
    assert before + (piece + rest) == before + piece + rest;
    EncodeAppend(before, piece);
  }

  predicate InPlace(mapping: Mapping, units: seq<Unit>, start: nat, found: seq<Entity>) {
    && (forall i :: 0 <= i < |found| ==> PointsAtEmoji(mapping, units, found[i]) && start <= found[i].offset)
    && (forall i, j :: 0 <= i < j < |found| ==> found[i].offset + found[i].length <= found[j].offset)
  }

  lemma FirstInPlace(mapping: Mapping, units: seq<Unit>, e: Entity, rest: seq<Entity>)
    requires PointsAtEmoji(mapping, units, e) && InPlace(mapping, units, e.offset + e.length, rest)
    ensures InPlace(mapping, units, e.offset, [e] + rest)
  {
  }

  /** The entities of some pieces, with `before` in front of them: each points at its emoji, and each
      starts where the one before it has ended. */
  lemma {:induction false} EntitiesPoint(mapping: Mapping, before: string, pieces: seq<Piece>)
    requires Mapped(mapping, pieces)
    ensures InPlace(mapping, Encode(before + Joined(pieces, Bare)), Units(before), EntitiesFrom(pieces, before))
    decreases |pieces|
  {
    if pieces != [] {
      var p, after := pieces[0], Joined(pieces[1..], Bare);
      SplitThere(before, Bare(p), after);
      EntitiesPoint(mapping, before + Bare(p), pieces[1..]);
      if p.Emoji? {
        SliceDecodes(before, p.key, after);
        FirstInPlace(mapping, Encode(before + (p.key + after)), Entity(Units(before), Units(p.key), p.id),
                     EntitiesFrom(pieces[1..], before + p.key));
      }
    }
  }

  /** The entities of a text, in order and apart, each stand exactly where a mapped emoji does. */
  lemma OccurrencesPoint(mapping: Mapping, t: string)
    ensures InPlace(mapping, Encode(t), 0, Occurrences(mapping, t))
  {
    var pieces := Pieces(mapping, t);
    PiecesMapped(mapping, t);
    PiecesJoin(mapping, t);
    EntitiesPoint(mapping, "", pieces);
    assert "" + t == t;
  }

  // ------------------------------------------------------------------------
  // The loop of the source
  // ------------------------------------------------------------------------

  /** The text, and the entities, that the pieces from `at` on amount to, with `before` in front. */
  function TextFrom(read: Reader, s: string, at: nat): string
    requires Fits(read) && at <= |s|
    decreases |s| - at
  {
    if at == |s| then ""
    else
      var m := read(s, at);
      if m.Some? then m.value.key + TextFrom(read, s, at + Length(m.value)) else [s[at]] + TextFrom(read, s, at + 1)
  }

  function FoundFrom(read: Reader, s: string, at: nat, before: string): seq<Entity>
    requires Fits(read) && at <= |s|
    decreases |s| - at
  {
    if at == |s| then []
    else
      var m := read(s, at);
      if m.Some? then
        [Entity(Units(before), Units(m.value.key), m.value.id)]
        + FoundFrom(read, s, at + Length(m.value), before + m.value.key)
      else FoundFrom(read, s, at + 1, before + [s[at]])
  }

  lemma JoinedNext(p: Piece, rest: seq<Piece>)
    ensures Joined([p] + rest, Bare) == Bare(p) + Joined(rest, Bare)
  {
    assert ([p] + rest)[1..] == rest;
  }

  lemma EntitiesNext(p: Piece, rest: seq<Piece>, before: string)
    ensures var more := EntitiesFrom(rest, before + Bare(p));
      EntitiesFrom([p] + rest, before)
      == if p.Plain? then more else [Entity(Units(before), Units(p.key), p.id)] + more
  {
    assert ([p] + rest)[1..] == rest;
  }

  lemma {:induction false} TextIsCut(read: Reader, s: string, at: nat)
    requires Fits(read) && at <= |s|
    ensures TextFrom(read, s, at) == Joined(Cut(read, s, at), Bare)
    decreases |s| - at
  {
    if at < |s| {
      var m := read(s, at);
      var next := if m.Some? then at + Length(m.value) else at + 1;
      TextIsCut(read, s, next);
      JoinedNext(if m.Some? then Emoji(m.value.key, m.value.id) else Plain(s[at]), Cut(read, s, next));
    }
  }

  lemma {:induction false} FoundIsCut(read: Reader, s: string, at: nat, before: string)
    requires Fits(read) && at <= |s|
    ensures FoundFrom(read, s, at, before) == EntitiesFrom(Cut(read, s, at), before)
    decreases |s| - at
  {
    if at < |s| {
      var m := read(s, at);
      if m.Some? {
        var p, next := Emoji(m.value.key, m.value.id), at + Length(m.value);
        FoundIsCut(read, s, next, before + p.key);
        EntitiesNext(p, Cut(read, s, next), before);
      } else {
        FoundIsCut(read, s, at + 1, before + [s[at]]);
        EntitiesNext(Plain(s[at]), Cut(read, s, at + 1), before);
      }
    }
  }

  /** What is written so far, and what is still to come, make up the whole. */
  ghost predicate Underway(read: Reader, text: string, whole: string, found: seq<Entity>, plain: string,
                           entities: seq<Entity>, units: nat, cursor: nat)
  {
    && Fits(read) && cursor <= |text| && units == Units(plain)
    && whole == plain + TextFrom(read, text, cursor)
    && found == entities + FoundFrom(read, text, cursor, plain)
  }

  lemma TokenDone(read: Reader, text: string, whole: string, found: seq<Entity>, plain: string,
                  entities: seq<Entity>, units: nat, cursor: nat, m: Match)
    requires Underway(read, text, whole, found, plain, entities, units, cursor)
    requires cursor < |text| && read(text, cursor) == Some(m)
    ensures Underway(read, text, whole, found, plain + m.key, entities + [Entity(units, Units(m.key), m.id)],
                     units + Units(m.key), cursor + Length(m))
  {
    var rest := TextFrom(read, text, cursor + Length(m));
    assert plain + (m.key + rest) == plain + m.key + rest;
    EncodeAppend(plain, m.key);
  }

  lemma CharDone(read: Reader, text: string, whole: string, found: seq<Entity>, plain: string,
                 entities: seq<Entity>, units: nat, cursor: nat)
    requires Underway(read, text, whole, found, plain, entities, units, cursor)
    requires cursor < |text| && read(text, cursor) == None
    ensures Underway(read, text, whole, found, plain + [text[cursor]], entities, units + Units([text[cursor]]), cursor + 1)
  {
    var rest := TextFrom(read, text, cursor + 1);
    assert plain + ([text[cursor]] + rest) == plain + [text[cursor]] + rest;
    EncodeAppend(plain, [text[cursor]]);
  }

  /** The text with each token replaced by its emoji, and an entity for each, for any way of
      recognising tokens; characters between tokens are copied singly. */
  method ParseWith(read: Reader, text: string) returns (plain: string, entities: seq<Entity>)
    requires Fits(read)
    ensures plain == TextFrom(read, text, 0)
    ensures entities == FoundFrom(read, text, 0, "")
  {
    plain, entities := "", [];
    var units: nat, cursor: nat := 0, 0;
    ghost var whole, found := TextFrom(read, text, cursor), FoundFrom(read, text, cursor, plain);
    while cursor < |text|
      invariant Underway(read, text, whole, found, plain, entities, units, cursor)
      decreases |text| - cursor
    {
      var m := read(text, cursor);
      if m.Some? {
        TokenDone(read, text, whole, found, plain, entities, units, cursor, m.value);
        var length := Units(m.value.key);
        entities := entities + [Entity(units, length, m.value.id)];
        plain := plain + m.value.key;
        units := units + length;
        cursor := cursor + Length(m.value);
      } else {
        CharDone(read, text, whole, found, plain, entities, units, cursor);
        plain := plain + [text[cursor]];
        units := units + Units([text[cursor]]);
        cursor := cursor + 1;
      }
    }
  }

  /** The text with each token replaced by its emoji, and an entity for each, counted in UTF-16 code
      units. */
  method ParseEntities(text: string) returns (plain: string, entities: seq<Entity>)
    ensures plain == Stripped(text)
    ensures entities == Entities(text)
  {
    MatchFromFits();
    TextIsCut(MatchFrom, text, 0);
    FoundIsCut(MatchFrom, text, 0, "");
    plain, entities := ParseWith(MatchFrom, text);
  }

  // ------------------------------------------------------------------------
  // The alternation of the source
  // ------------------------------------------------------------------------

  /** The first of the alternatives that the text starts with. */
  function FirstAlternative(order: seq<string>, t: string): (k: Option<string>)
    ensures k.Some? ==> k.value in order && k.value <= t
    ensures k.None? ==> forall i :: 0 <= i < |order| ==> !(order[i] <= t)
    ensures k.Some? ==> exists i :: 0 <= i < |order| && order[i] == k.value && forall j :: 0 <= j < i ==> !(order[j] <= t)
  {
    if order == [] then None
    else if order[0] <= t then Some(order[0])
    else
      var k := FirstAlternative(order[1..], t);
      assert forall i :: 1 <= i < |order| ==> order[i] == order[1..][i - 1];
      assert k.Some? ==> exists i :: 0 <= i < |order| && order[i] == k.value && forall j :: 0 <= j < i ==> !(order[j] <= t) by {
        if k.Some? {
          var i :| 0 <= i < |order[1..]| && order[1..][i] == k.value && forall j :: 0 <= j < i ==> !(order[1..][j] <= t);
          assert order[i + 1] == k.value && forall j :: 0 <= j < i + 1 ==> !(order[j] <= t);
        }
      }
      k
  }

  /** Alternatives tried from the longest down: what is found is at least as long as any that fits. */
  lemma FirstIsLongEnough(order: seq<string>, t: string, k: string)
    requires forall i, j :: 0 <= i < j < |order| ==> |order[i]| >= |order[j]|
    requires k in order && k <= t
    ensures FirstAlternative(order, t).Some? && |FirstAlternative(order, t).value| >= |k|
  {
    var l :| 0 <= l < |order| && order[l] == k;
    var first := FirstAlternative(order, t);
    assert first.Some?;
    var i :| 0 <= i < |order| && order[i] == first.value && forall j :: 0 <= j < i ==> !(order[j] <= t);
    assert i <= l;
  }

  lemma PrefixesOfOneLength(a: string, b: string, t: string)
    requires a <= t && b <= t && |a| == |b|
    ensures a == b
  {
    assert a == t[..|a|] && b == t[..|b|];
  }

  lemma LongestIsLongEnough(mapping: Mapping, t: string, k: string)
    requires k in mapping && k <= t && k != ""
    ensures Longest(mapping, t).Some? && |Longest(mapping, t).value| >= |k|
  {
    assert t[..|k|] == k;
  }

  /** However keys of one length are ordered among themselves, an alternation that tries longer keys
      first takes the longest one. */
  lemma AlternationTakesLongest(mapping: Mapping, order: seq<string>, t: string)
    requires forall k :: k in order <==> k in mapping
    requires forall i, j :: 0 <= i < j < |order| ==> |order[i]| >= |order[j]|
    requires "" !in mapping
    ensures FirstAlternative(order, t) == Longest(mapping, t)
  {
    var first, longest := FirstAlternative(order, t), Longest(mapping, t);
    if longest.Some? {
      FirstIsLongEnough(order, t, longest.value);
    }
    if first.Some? {
      LongestIsLongEnough(mapping, t, first.value);
      PrefixesOfOneLength(first.value, longest.value, t);
    }
  }

  // ------------------------------------------------------------------------
  // Reading emoji out of a message
  // ------------------------------------------------------------------------

  /** A slice as the source takes it: bounds beyond the end are cut back to it. */
  function Sliced(units: seq<Unit>, from: nat, to: nat): seq<Unit> {
    var a, b := if from <= |units| then from else |units|, if to <= |units| then to else |units|;
    if a <= b then units[a..b] else []
  }

  /** The text that an entity points at, if its slice is text at all. */
  function KeyOf(units: seq<Unit>, e: Entity): Option<string> {
    Decode(Sliced(units, e.offset, e.offset + e.length))
  }

  function KeysIn(units: seq<Unit>): Entity -> Option<string> {
    e => KeyOf(units, e)
  }

  /** Of the first `n` entities, the last that points at `key` has the id. */
  ghost predicate LastAt(read: Entity -> Option<string>, entities: seq<Entity>, n: nat, key: string, id: string)
    requires n <= |entities|
  {
    exists i :: 0 <= i < n && read(entities[i]) == Some(key) && entities[i].id == id
      && forall j :: i < j < n ==> read(entities[j]) != Some(key)
  }

  /** Each text that the first `n` entities point at is paired with the id of the last one there, and
      nothing else is paired. */
  ghost predicate PairsUpTo(read: Entity -> Option<string>, entities: seq<Entity>, n: nat, pairs: Mapping)
    requires n <= |entities|
  {
    && (forall i :: 0 <= i < n ==> read(entities[i]).Some? && read(entities[i]).value in pairs)
    && (forall key :: key in pairs ==> LastAt(read, entities, n, key, pairs[key]))
  }

  lemma PairMore(read: Entity -> Option<string>, entities: seq<Entity>, n: nat, pairs: Mapping, key: string)
    requires n < |entities| && PairsUpTo(read, entities, n, pairs) && read(entities[n]) == Some(key)
    ensures PairsUpTo(read, entities, n + 1, pairs[key := entities[n].id])
  {
    var after := pairs[key := entities[n].id];
    forall k | k in after ensures LastAt(read, entities, n + 1, k, after[k]) {
      if k != key {
        assert LastAt(read, entities, n, k, pairs[k]);
        var i :| 0 <= i < n && read(entities[i]) == Some(k) && entities[i].id == pairs[k]
          && forall j :: i < j < n ==> read(entities[j]) != Some(k);
        assert forall j :: i < j < n + 1 ==> read(entities[j]) != Some(k);
      }
    }
  }

  /** From each text that an entity points at to the id of the last entity there; nothing exactly if
      some slice is not text. */
  method CustomEmojiPairs(text: string, entities: seq<Entity>) returns (pairs: Option<Mapping>)
    ensures pairs.None? <==> exists i :: 0 <= i < |entities| && KeyOf(Encode(text), entities[i]).None?
    ensures pairs.Some? ==> PairsUpTo(KeysIn(Encode(text)), entities, |entities|, pairs.value)
  {
    var units := Encode(text);
    var found: Mapping := map[];
    for i := 0 to |entities|
      invariant PairsUpTo(KeysIn(units), entities, i, found)
    {
      var key := KeyOf(units, entities[i]);
      if key.None? {
        return None;
      }
      PairMore(KeysIn(units), entities, i, found, key.value);
      found := found[key.value := entities[i].id];
    }
    return Some(found);
  }

  predicate PairedIn(pairs: Mapping, units: seq<Unit>, e: Entity) {
    var key := KeyOf(units, e);
    key.Some? && key.value in pairs && pairs[key.value] == e.id
  }

  /** The pairs are part of the mapping and cover the entities. */
  predicate Covers(pairs: Mapping, mapping: Mapping, units: seq<Unit>, entities: seq<Entity>) {
    && (forall k :: k in pairs ==> k in mapping && pairs[k] == mapping[k])
    && (forall i :: 0 <= i < |entities| ==> PairedIn(pairs, units, entities[i]))
  }

  /** When every entity stands at a mapped emoji, the pairs are what the mapping says of them. */
  lemma PairsAreMapped(mapping: Mapping, units: seq<Unit>, entities: seq<Entity>, pairs: Mapping)
    requires PairsUpTo(KeysIn(units), entities, |entities|, pairs)
    requires forall i :: 0 <= i < |entities| ==> PointsAtEmoji(mapping, units, entities[i])
    ensures Covers(pairs, mapping, units, entities)
  {
    forall i | 0 <= i < |entities|
      ensures KeyOf(units, entities[i]).Some? && KeyOf(units, entities[i]).value in mapping
        && mapping[KeyOf(units, entities[i]).value] == entities[i].id
    {
      assert PointsAtEmoji(mapping, units, entities[i]);
    }
    forall k | k in pairs ensures k in mapping && pairs[k] == mapping[k] {
      assert LastAt(KeysIn(units), entities, |entities|, k, pairs[k]);
    }
  }

  /** Marking a text up, reading the markup, and reading the emoji out of the result gives back pairs
      of the mapping, one for every occurrence. */
  method EmojiThereAndBack(mapping: Mapping, text: string) returns (pairs: Option<Mapping>)
    requires Good(mapping) && Unmarked(text)
    ensures pairs.Some? && Covers(pairs.value, mapping, Encode(text), Occurrences(mapping, text))
  {
    MarkupRoundTrips(mapping, text);
    OccurrencesPoint(mapping, text);
    var plain, entities := ParseEntities(Apply(mapping, text));
    pairs := CustomEmojiPairs(plain, entities);
    forall i | 0 <= i < |entities| ensures KeyOf(Encode(text), entities[i]).Some? {
      assert PointsAtEmoji(mapping, Encode(text), entities[i]);
    }
    PairsAreMapped(mapping, Encode(text), entities, pairs.value);
  }

  /** The markup of one emoji, as Telegram spells it. */
  lemma TokenSays(key: string, id: string)
    ensures Token(key, id) == "![" + key + "](tg://emoji?id=" + id + ")"
  {
  }
}
