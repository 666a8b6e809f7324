/** Packing the archive index into messages (backend/app/services/archive.py). */
module Packing {
  const BUDGET: nat := 3_600
  const BREAK := "\n\n"
  const CONTINUED := " (continued)"

  /** A message: its heading, then each line after a blank one. */
  function Render(head: string, lines: seq<string>): (text: string)
    ensures |text| >= |head| + 2 * |lines|
    ensures lines == [] ==> text == head
  {
    if lines == [] then head else Render(head, lines[..|lines| - 1]) + BREAK + lines[|lines| - 1]
  }

  /** The heading of message `i`. */
  function HeadOf(header: string, i: nat): string {
    if i == 0 then header else header + CONTINUED
  }

  /** The lines of every message: those that are closed, and the one still open. */
  datatype Pack = Pack(closed: seq<seq<string>>, open: seq<string>)

  function Count(p: Pack): nat {
    |p.closed| + 1
  }

  /** Whether the line would overflow the open message. An empty first message takes any line. */
  predicate Overflows(header: string, p: Pack, line: string) {
    |Render(HeadOf(header, |p.closed|), p.open + [line])| > BUDGET && (p.closed != [] || p.open != [])
  }

  function Added(header: string, p: Pack, line: string): Pack {
    if Overflows(header, p, line) then Pack(p.closed + [p.open], [line]) else Pack(p.closed, p.open + [line])
  }

  /** The greedy packing of the first `n` lines. */
  function Greedy(lines: seq<string>, header: string, n: nat): Pack
    requires n <= |lines|
  {
    if n == 0 then Pack([], []) else Added(header, Greedy(lines, header, n - 1), lines[n - 1])
  }

  /** The closed messages, as text. */
  function Closed(header: string, closed: seq<seq<string>>): seq<string> {
    if closed == [] then []
    else
      var k := |closed| - 1;
      Closed(header, closed[..k]) + [Render(HeadOf(header, k), closed[k])]
  }

  function Messages(header: string, p: Pack): seq<string> {
    Closed(header, p.closed) + [Render(HeadOf(header, |p.closed|), p.open)]
  }

  lemma RenderNext(head: string, lines: seq<string>, line: string)
    ensures Render(head, lines + [line]) == Render(head, lines) + BREAK + line
  {
    assert (lines + [line])[..|lines|] == lines;
  }

  lemma ClosedNext(header: string, closed: seq<seq<string>>, group: seq<string>)
    ensures Closed(header, closed + [group]) == Closed(header, closed) + [Render(HeadOf(header, |closed|), group)]
  {
    assert (closed + [group])[..|closed|] == closed;
  }

  /** The loop's variables stand for the packing so far. */
  ghost predicate Underway(header: string, p: Pack, messages: seq<string>, current: string) {
    && messages == Closed(header, p.closed)
    && current == Render(HeadOf(header, |p.closed|), p.open)
    && (current != header <==> p.closed != [] || p.open != [])
  }

  lemma ChunkAdded(header: string, p: Pack, messages: seq<string>, current: string, line: string)
    requires Underway(header, p, messages, current)
    ensures var candidate := current + BREAK + line;
      if |candidate| > BUDGET && current != header
      then Underway(header, Added(header, p, line), messages + [current], header + CONTINUED + BREAK + line)
      else Underway(header, Added(header, p, line), messages, candidate)
  {
    RenderNext(HeadOf(header, |p.closed|), p.open, line);
    ClosedNext(header, p.closed, p.open);
    RenderNext(header + CONTINUED, [], line);
    assert [] + [line] == [line];
  }

  /** Packs the lines greedily: a line that would overflow the open message starts a new one. */
  method Chunks(lines: seq<string>, header: string) returns (messages: seq<string>)
    ensures messages == Messages(header, Greedy(lines, header, |lines|))
  {
    messages := [];
    var current := header;
    for n := 0 to |lines|
      invariant Underway(header, Greedy(lines, header, n), messages, current)
    {
      ChunkAdded(header, Greedy(lines, header, n), messages, current, lines[n]);
      var candidate := current + BREAK + lines[n];
      if |candidate| > BUDGET && current != header {
        messages := messages + [current];
        current := header + CONTINUED + BREAK + lines[n];
      } else {
        current := candidate;
      }
    }
    messages := messages + [current];
  }

  // ------------------------------------------------------------------------
  // Nothing lost, nothing over budget
  // ------------------------------------------------------------------------

  function Flat(groups: seq<seq<string>>): seq<string> {
    if groups == [] then [] else Flat(groups[..|groups| - 1]) + groups[|groups| - 1]
  }

  function Lines(p: Pack): seq<string> {
    Flat(p.closed) + p.open
  }

  lemma FlatNext(groups: seq<seq<string>>, group: seq<string>)
    ensures Flat(groups + [group]) == Flat(groups) + group
  {
    assert (groups + [group])[..|groups|] == groups;
  }

  lemma TakeNext<T>(s: seq<T>, n: nat)
    requires n < |s|
    ensures s[..n + 1] == s[..n] + [s[n]]
  {
  }

  lemma AddingKeepsLines(header: string, p: Pack, line: string)
    ensures Lines(Added(header, p, line)) == Lines(p) + [line]
  {
    FlatNext(p.closed, p.open);
    assert Flat(p.closed) + (p.open + [line]) == Lines(p) + [line];
  }

  lemma AddedLinesAreNext(lines: seq<string>, header: string, p: Pack, n: nat)
    requires 0 < n <= |lines| && Lines(p) == lines[..n - 1]
    ensures Lines(Added(header, p, lines[n - 1])) == lines[..n]
  {
    AddingKeepsLines(header, p, lines[n - 1]);
    TakeNext(lines, n - 1);
  }

  /** Every line is packed once, in order. */
  lemma {:induction false} NothingLost(lines: seq<string>, header: string, n: nat)
    requires n <= |lines|
    ensures Lines(Greedy(lines, header, n)) == lines[..n]
  {
    if n > 0 {
      NothingLost(lines, header, n - 1);
      AddedLinesAreNext(lines, header, Greedy(lines, header, n - 1), n);
    }
  }

  predicate Fits(header: string, p: Pack) {
    && (forall i :: 0 <= i < |p.closed| ==> |Render(HeadOf(header, i), p.closed[i])| <= BUDGET)
    && |Render(HeadOf(header, |p.closed|), p.open)| <= BUDGET
  }

  /** When each line fits alone under the longer heading, every message fits. */
  lemma {:induction false} EveryMessageFits(lines: seq<string>, header: string, n: nat)
    requires n <= |lines| && |header| <= BUDGET
    requires forall k :: 0 <= k < |lines| ==> |Render(header + CONTINUED, [lines[k]])| <= BUDGET
    ensures Fits(header, Greedy(lines, header, n))
  {
    if n > 0 {
      EveryMessageFits(lines, header, n - 1);
      RenderNext(header, [], lines[n - 1]);
      RenderNext(header + CONTINUED, [], lines[n - 1]);
      assert [] + [lines[n - 1]] == [lines[n - 1]];
      AddingFits(header, Greedy(lines, header, n - 1), lines[n - 1]);
    }
  }

  lemma AddingFits(header: string, p: Pack, line: string)
    requires Fits(header, p)
    requires |Render(header, [line])| <= BUDGET && |Render(header + CONTINUED, [line])| <= BUDGET
    ensures Fits(header, Added(header, p, line))
  {
    assert [] + [line] == [line];
  }

  // ------------------------------------------------------------------------
  // No packing uses fewer messages
  // ------------------------------------------------------------------------

  /** A way of packing exactly these lines within the budget: contiguous, and no message without a
      line but perhaps the first. */
  predicate Packs(header: string, p: Pack, lines: seq<string>) {
    && Lines(p) == lines && Fits(header, p)
    && (forall i :: 1 <= i < |p.closed| ==> p.closed[i] != [])
    && (p.closed != [] ==> p.open != [])
  }

  /** Of two final stretches of the same lines, the longer one makes the longer message. */
  lemma {:induction false} LongerStretchIsLonger(head: string, shorter: seq<string>, longer: seq<string>)
    requires |shorter| <= |longer| && shorter == longer[|longer| - |shorter|..]
    ensures |Render(head, shorter)| <= |Render(head, longer)|
  {
    if shorter == [] {
    } else {
      var s, l := shorter[..|shorter| - 1], longer[..|longer| - 1];
      assert s == l[|l| - |s|..];
      LongerStretchIsLonger(head, s, l);
    }
  }

  /** The packing without its last line. */
  function WithoutLast(p: Pack): Pack
    requires p.open != []
  {
    if p.closed != [] && |p.open| == 1 then Pack(p.closed[..|p.closed| - 1], p.closed[|p.closed| - 1])
    else Pack(p.closed, p.open[..|p.open| - 1])
  }

  lemma WithoutLastPacks(header: string, p: Pack, lines: seq<string>)
    requires Packs(header, p, lines) && lines != []
    ensures p.open != [] && Packs(header, WithoutLast(p), lines[..|lines| - 1])
  {
    assert p.open != [];
    var less := WithoutLast(p);
    if p.closed != [] && |p.open| == 1 {
      assert Lines(less) == Flat(p.closed) == lines[..|lines| - 1];
    } else {
      assert Lines(less) == lines[..|lines| - 1];
    }
  }

  lemma TailsAgree(a: seq<string>, x: seq<string>, b: seq<string>, y: seq<string>)
    requires a + x == b + y && |x| <= |y|
    ensures x == y[|y| - |x|..]
  {
    forall k | 0 <= k < |x| ensures x[k] == y[|y| - |x| + k] {
      assert (a + x)[|a| + k] == (b + y)[|a| + k];
    }
  }

  /** If the greedy packing is level with another one but for the next line, the line fits. */
  lemma RoomForOneMore(header: string, p: Pack, line: string, other: Pack)
    requires Lines(other) == Lines(p) + [line] && Fits(header, other)
    requires |p.closed| == |other.closed| && |p.open| < |other.open|
    ensures !Overflows(header, p, line)
  {
    var open := p.open + [line];
    assert Flat(p.closed) + open == Lines(other);
    TailsAgree(Flat(p.closed), open, Flat(other.closed), other.open);
    LongerStretchIsLonger(HeadOf(header, |p.closed|), open, other.open);
  }

  /** Fewer messages; or as many, with no more in the last one. */
  predicate NoWorse(p: Pack, other: Pack) {
    Count(p) < Count(other) || (Count(p) == Count(other) && |p.open| <= |other.open|)
  }

  lemma AddingStaysNoWorse(header: string, p: Pack, line: string, other: Pack)
    requires other.open != [] && NoWorse(p, WithoutLast(other))
    requires Lines(other) == Lines(p) + [line] && Fits(header, other)
    ensures NoWorse(Added(header, p, line), other)
  {
    if |p.closed| == |other.closed| {
      RoomForOneMore(header, p, line, other);
    }
  }

  /** No packing of the same lines that keeps to the budget under the same headings uses fewer
      messages than the greedy one; and one that uses as many has no less in its last message. */
  lemma {:induction false} GreedyIsMinimal(lines: seq<string>, header: string, n: nat, other: Pack)
    requires n <= |lines| && Packs(header, other, lines[..n])
    ensures NoWorse(Greedy(lines, header, n), other)
  {
    if n > 0 {
      TakeNext(lines, n - 1);
      WithoutLastPacks(header, other, lines[..n]);
      FrontOfNext(lines, n - 1);
      GreedyIsMinimal(lines, header, n - 1, WithoutLast(other));
      NothingLost(lines, header, n - 1);
      AddingStaysNoWorse(header, Greedy(lines, header, n - 1), lines[n - 1], other);
    }
  }

  lemma FrontOfNext<T>(s: seq<T>, n: nat)
    requires n < |s|
    ensures s[..n + 1][..n] == s[..n]
  {
  }

  // ------------------------------------------------------------------------
  // What is sent
  // ------------------------------------------------------------------------

  lemma {:induction false} ClosedAt(header: string, closed: seq<seq<string>>, i: nat)
    requires i < |closed|
    ensures |Closed(header, closed)| == |closed| && Closed(header, closed)[i] == Render(HeadOf(header, i), closed[i])
  {
    var k := |closed| - 1;
    assert |Closed(header, closed[..k])| == k by {
      if k > 0 {
        ClosedAt(header, closed[..k], 0);
      }
    }
    if i < k {
      ClosedAt(header, closed[..k], i);
    }
  }

  /** A message is its heading, the first one's bare and every other one's marked as continued, and then
      each of its lines after a blank one. */
  lemma RenderSays(header: string, lines: seq<string>, line: string, i: nat)
    ensures Render(HeadOf(header, i), []) == if i == 0 then header else header + " (continued)"
    ensures Render(HeadOf(header, i), lines + [line]) == Render(HeadOf(header, i), lines) + "\n\n" + line
  {
    RenderNext(HeadOf(header, i), lines, line);
  }

  /** No message is longer than 3600 characters if the heading is not, and if each line fits below the
      continued heading. */
  lemma MessagesFit(lines: seq<string>, header: string, i: nat)
    requires |header| <= 3600 && forall k :: 0 <= k < |lines| ==> |header + " (continued)"| + 2 + |lines[k]| <= 3600
    requires i < |Messages(header, Greedy(lines, header, |lines|))|
    ensures |Messages(header, Greedy(lines, header, |lines|))[i]| <= 3600
  {
    var p := Greedy(lines, header, |lines|);
    forall k | 0 <= k < |lines| ensures |Render(header + CONTINUED, [lines[k]])| <= BUDGET {
      RenderNext(header + CONTINUED, [], lines[k]);
      assert [] + [lines[k]] == [lines[k]];
    }
    EveryMessageFits(lines, header, |lines|);
    if p.closed != [] {
      ClosedAt(header, p.closed, if i < |p.closed| then i else 0);
    }
  }
}
