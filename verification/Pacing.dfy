/** The token bucket that paces outbound messages (backend/app/security/ratelimit.py,
    backend/app/worker.py). Times are in seconds. */
module Pacing {
  import opened Types

  /** What the store keeps for one bucket. */
  datatype Level = Level(tokens: real, ts: real)

  datatype Shape = Shape(capacity: real, refill: real)

  const EXPIRY: real := 3600.0
  const LONGEST_SLEEP: real := 30.0

  const GROUP := Shape(20.0, 20.0 / 60.0)
  const SINGLE := Shape(5.0, 1.0)
  const CONNECTION := Shape(30.0, 30.0)

  /** The buckets that are ever built. */
  predicate Built(b: Shape) {
    b == GROUP || b == SINGLE || b == CONNECTION
  }

  function Min(x: real, y: real): real { if x <= y then x else y }

  /** What flows in over the time elapsed. */
  function Gain(refill: real, elapsed: real): real {
    elapsed * refill
  }

  lemma NoTimeNoGain(refill: real)
    ensures Gain(refill, 0.0) == 0.0
  {
  }

  /** The tokens at `now`, before any is taken; a bucket nobody has used is full. */
  function Filled(b: Shape, level: Option<Level>, now: real): real {
    if level.None? then b.capacity
    else Min(b.capacity, level.value.tokens + Gain(b.refill, now - level.value.ts))
  }

  lemma RefillAdds(refill: real, t0: real, t1: real, t2: real)
    ensures Gain(refill, t2 - t0) == Gain(refill, t1 - t0) + Gain(refill, t2 - t1)
  {
  }

  predicate Grants(b: Shape, level: Option<Level>, now: real) {
    Filled(b, level, now) >= 1.0
  }

  function After(b: Shape, level: Option<Level>, now: real): Level {
    Level(if Grants(b, level, now) then Filled(b, level, now) - 1.0 else Filled(b, level, now), now)
  }

  function Wait(b: Shape, level: Option<Level>, now: real): real
    requires b.refill > 0.0
  {
    if Grants(b, level, now) then 0.0 else (1.0 - Filled(b, level, now)) / b.refill
  }

  class PacingBucket {
    const shape: Shape
    var level: Option<Level>

    constructor (shape: Shape)
      ensures this.shape == shape && level == None
    {
      this.shape := shape;
      level := None;
    }

    /** How long to wait before sending; a waiting caller takes no token. */
    method Acquire(now: real) returns (wait: real)
      requires shape.refill > 0.0
      modifies `level
      ensures level == Some(After(shape, old(level), now))
      ensures wait == Wait(shape, old(level), now)
    {
      var tokens, ts := shape.capacity, now;
      if level.Some? {
        tokens, ts := level.value.tokens, level.value.ts;
      }
      NoTimeNoGain(shape.refill);
      tokens := Min(shape.capacity, tokens + Gain(shape.refill, now - ts));
      wait := 0.0;
      if tokens >= 1.0 {
        tokens := tokens - 1.0;
      } else {
        wait := (1.0 - tokens) / shape.refill;
      }
      level := Some(Level(tokens, now));
    }

    /** The store forgets a bucket that has not been used for the whole expiry. */
    method Expire(now: real)
      modifies `level
      ensures level == Kept(old(level), now)
    {
      if level.Some? && now - level.value.ts >= EXPIRY {
        level := None;
      }
    }
  }

  /** The cap on the sleep would cut this wait short: the level is that far below nothing. */
  predicate Cut(b: Shape, level: Option<Level>, now: real) {
    level.Some? && level.value.tokens + Gain(b.refill, now - level.value.ts) < 1.0 - LONGEST_SLEEP * b.refill
  }

  /** Before a send: the destination's bucket, then the connection's. Both requests carry the time
      read at the outset, so either may come late: others may have asked the same bucket meanwhile
      with a later time. Both waits are slept out in full exactly when the cap cuts neither. */
  method Pace(destination: PacingBucket, connection: PacingBucket, now: real) returns (slept: real)
    requires destination != connection && Built(destination.shape) && Built(connection.shape)
    modifies destination, connection
    ensures destination.level == Some(After(destination.shape, old(destination.level), now))
    ensures connection.level == Some(After(connection.shape, old(connection.level), now))
    ensures slept <= Wait(destination.shape, old(destination.level), now) + Wait(connection.shape, old(connection.level), now)
    ensures slept == Wait(destination.shape, old(destination.level), now) + Wait(connection.shape, old(connection.level), now)
       <==> !Cut(destination.shape, old(destination.level), now) && !Cut(connection.shape, old(connection.level), now)
  {
    CutExactly(destination.shape, destination.level, now);
    CutExactly(connection.shape, connection.level, now);
    slept := 0.0;
    var wait := destination.Acquire(now);
    if wait > 0.0 {
      slept := slept + Min(wait, LONGEST_SLEEP);
    }
    wait := connection.Acquire(now);
    if wait > 0.0 {
      slept := slept + Min(wait, LONGEST_SLEEP);
    }
  }

  lemma CutExactly(b: Shape, level: Option<Level>, now: real)
    requires Built(b)
    ensures Wait(b, level, now) >= 0.0
    ensures Wait(b, level, now) > LONGEST_SLEEP <==> Cut(b, level, now)
  {
    if !Grants(b, level, now) {
      Longer(1.0 - Filled(b, level, now), b.refill, LONGEST_SLEEP);
    }
  }

  /** A wait exceeds a limit exactly when that much refill does not suffice. */
  lemma Longer(x: real, refill: real, limit: real)
    requires refill > 0.0
    ensures x / refill > limit <==> x > limit * refill
  {
    assert x / refill * refill == x;
    if x / refill > limit {
      assert x / refill * refill > limit * refill;
    }
  }

  /** With a clock that does not run backwards the tokens lie between none and the capacity. */
  predicate Sound(b: Shape, level: Option<Level>, now: real) {
    level.Some? ==> 0.0 <= level.value.tokens <= b.capacity && level.value.ts <= now
  }

  lemma RefillNonNegative(refill: real, elapsed: real)
    requires refill > 0.0 && elapsed >= 0.0
    ensures elapsed * refill >= 0.0
  {
  }

  lemma StaysSound(b: Shape, level: Option<Level>, now: real)
    requires b.refill > 0.0 && b.capacity >= 1.0 && Sound(b, level, now)
    ensures 0.0 <= Filled(b, level, now) <= b.capacity
    ensures Sound(b, Some(After(b, level, now)), now)
  {
    if level.Some? {
      RefillNonNegative(b.refill, now - level.value.ts);
      assert Gain(b.refill, now - level.value.ts) >= 0.0;
    }
  }

  /** A wait is at most the time one token takes, which no bucket built here spreads over more than
      three seconds: the cap on the sleep never cuts one short. */
  lemma WaitBounded(b: Shape, level: Option<Level>, now: real)
    requires Built(b) && Sound(b, level, now)
    ensures Sound(b, Some(After(b, level, now)), now)
    ensures 0.0 <= Wait(b, level, now) <= 1.0 / b.refill <= 3.0 < LONGEST_SLEEP
  {
    StaysSound(b, level, now);
  }

  function Kept(level: Option<Level>, now: real): Option<Level> {
    if level.Some? && now - level.value.ts >= EXPIRY then None else level
  }

  /** Losing a bucket to its expiry changes nothing: it would have been full again by then. */
  lemma ExpiryUnobservable(b: Shape, level: Option<Level>, now: real)
    requires Built(b) && Sound(b, level, now)
    ensures After(b, Kept(level, now), now) == After(b, level, now)
    ensures Wait(b, Kept(level, now), now) == Wait(b, level, now)
  {
    if level.Some? && now - level.value.ts >= EXPIRY {
      assert (now - level.value.ts) * b.refill >= EXPIRY * b.refill;
    }
  }

  // ------------------------------------------------------------------------
  // Requests that come late
  // ------------------------------------------------------------------------

  /** A late request, with a time before that of one already served, sets the level back, possibly
      below nothing; what is missing is what will have flowed in by the latest time of any request. */
  predicate Backed(b: Shape, level: Option<Level>, latest: real) {
    level.Some? ==> level.value.tokens <= b.capacity && level.value.tokens + Gain(b.refill, latest - level.value.ts) >= 0.0
  }

  lemma StaysBacked(b: Shape, level: Option<Level>, now: real, latest: real)
    requires b.refill > 0.0 && b.capacity >= 1.0 && Backed(b, level, latest) && now <= latest
    ensures Backed(b, Some(After(b, level, now)), latest)
  {
    RefillNonNegative(b.refill, latest - now);
    assert Gain(b.refill, latest - now) >= 0.0;
    if level.Some? {
      RefillAdds(b.refill, level.value.ts, now, latest);
    }
  }

  /** A request that is late by at most `slack` waits at most the time of one token and `slack`. */
  lemma LateWait(b: Shape, level: Option<Level>, now: real, latest: real, slack: real)
    requires b.refill > 0.0 && b.capacity >= 1.0 && Backed(b, level, latest) && now <= latest <= now + slack
    ensures 0.0 <= Wait(b, level, now) <= 1.0 / b.refill + slack
  {
    if level.Some? && !Grants(b, level, now) {
      RefillAdds(b.refill, level.value.ts, now, latest);
      assert Filled(b, level, now) >= -Gain(b.refill, latest - now);
      LateBy(b.refill, latest - now, slack);
      Divided(1.0 - Filled(b, level, now), b.refill, slack);
    }
  }

  lemma LateBy(refill: real, late: real, slack: real)
    requires refill > 0.0 && late <= slack
    ensures Gain(refill, late) <= slack * refill
  {
  }

  lemma Divided(x: real, refill: real, slack: real)
    requires refill > 0.0 && x <= 1.0 + slack * refill
    ensures x / refill <= 1.0 / refill + slack
  {
    assert (1.0 / refill + slack) * refill == 1.0 + slack * refill;
  }

  /** A request that is not late by 27 seconds, nine times the longest wait in time, is slept out
      in full. */
  lemma LateUncut(b: Shape, level: Option<Level>, now: real, latest: real)
    requires Built(b) && Backed(b, level, latest) && now <= latest <= now + 27.0
    ensures !Cut(b, level, now)
  {
    LateWait(b, level, now, latest, 27.0);
    CutExactly(b, level, now);
  }

  /** A wait is at most the time one token takes exactly when the level is not below nothing: then
      the request is not late, or not by enough to matter. */
  lemma WaitsOneTokenExactly(b: Shape, level: Option<Level>, now: real)
    requires b.refill > 0.0 && b.capacity >= 1.0
    ensures Wait(b, level, now) <= 1.0 / b.refill
       <==> level.None? || level.value.tokens + Gain(b.refill, now - level.value.ts) >= 0.0
  {
    if level.Some? && !Grants(b, level, now) {
      var x := 1.0 - Filled(b, level, now);
      Longer(x, b.refill, 1.0 / b.refill);
      assert 1.0 / b.refill * b.refill == 1.0;
    }
  }

  // ------------------------------------------------------------------------
  // Any number of requests
  // ------------------------------------------------------------------------

  /** The bucket after the first `n` requests of a sequence. */
  function Run(b: Shape, start: Option<Level>, times: seq<real>, n: nat): Option<Level>
    requires n <= |times|
  {
    if n == 0 then start else Some(After(b, Run(b, start, times, n - 1), times[n - 1]))
  }

  /** How many of the requests `i .. j` are told not to wait. */
  function Granted(b: Shape, start: Option<Level>, times: seq<real>, i: nat, j: nat): nat
    requires i <= j <= |times|
  {
    if i == j then 0
    else Granted(b, start, times, i, j - 1) + if Grants(b, Run(b, start, times, j - 1), times[j - 1]) then 1 else 0
  }

  predicate Monotone(times: seq<real>) {
    forall i, j :: 0 <= i < j < |times| ==> times[i] <= times[j]
  }

  lemma {:induction false} RunSound(b: Shape, start: Option<Level>, times: seq<real>, n: nat)
    requires b.refill > 0.0 && b.capacity >= 1.0 && Monotone(times) && n <= |times|
    requires |times| > 0 ==> Sound(b, start, times[0])
    ensures n < |times| ==> Sound(b, Run(b, start, times, n), times[n])
    ensures n > 0 ==> Sound(b, Run(b, start, times, n), times[n - 1])
  {
    if n > 0 {
      RunSound(b, start, times, n - 1);
      StaysSound(b, Run(b, start, times, n - 1), times[n - 1]);
    }
  }

  /** One request takes a token exactly when it is granted. */
  lemma OneRequest(b: Shape, level: Option<Level>, now: real)
    ensures After(b, level, now).tokens + (if Grants(b, level, now) then 1.0 else 0.0) == Filled(b, level, now)
    ensures level.Some? ==> Filled(b, level, now) <= level.value.tokens + Gain(b.refill, now - level.value.ts)
    ensures Filled(b, level, now) <= b.capacity
  {
  }

  /** The refill from request `i` to request `j - 1`, gap by gap. */
  function Refilled(refill: real, times: seq<real>, i: nat, j: nat): real
    requires i < j <= |times|
  {
    if i == j - 1 then 0.0 else Refilled(refill, times, i, j - 1) + Gain(refill, times[j - 1] - times[j - 2])
  }

  lemma {:induction false} RefilledTotal(refill: real, times: seq<real>, i: nat, j: nat)
    requires i < j <= |times|
    ensures Refilled(refill, times, i, j) == Gain(refill, times[j - 1] - times[i])
  {
    if i < j - 1 {
      RefilledTotal(refill, times, i, j - 1);
      RefillAdds(refill, times[i], times[j - 2], times[j - 1]);
    }
  }

  /** The requests granted at once, plus what is left, is at most a full bucket and the refill. */
  lemma {:induction false} TokensAccountedFor(b: Shape, start: Option<Level>, times: seq<real>, i: nat, j: nat)
    requires i < j <= |times|
    ensures Run(b, start, times, j).value.tokens + Granted(b, start, times, i, j) as real
         <= b.capacity + Refilled(b.refill, times, i, j)
  {
    var before := Run(b, start, times, j - 1);
    var now := times[j - 1];
    OneRequest(b, before, now);
    var granted := if Grants(b, before, now) then 1 else 0;
    assert Granted(b, start, times, i, j) == Granted(b, start, times, i, j - 1) + granted;
    if i < j - 1 {
      TokensAccountedFor(b, start, times, i, j - 1);
      assert Refilled(b.refill, times, i, j) == Refilled(b.refill, times, i, j - 1) + Gain(b.refill, now - before.value.ts);
    }
  }

  /** No request is late by more than `slack`. */
  predicate Within(times: seq<real>, slack: real) {
    forall i, j :: 0 <= i < j < |times| ==> times[i] <= times[j] + slack
  }

  lemma {:induction false} RunBacked(b: Shape, start: Option<Level>, times: seq<real>, n: nat, latest: real)
    requires b.refill > 0.0 && b.capacity >= 1.0 && n <= |times|
    requires Backed(b, start, latest) && forall k :: 0 <= k < n ==> times[k] <= latest
    ensures Backed(b, Run(b, start, times, n), latest)
  {
    if n > 0 {
      RunBacked(b, start, times, n - 1, latest);
      StaysBacked(b, Run(b, start, times, n - 1), times[n - 1], latest);
    }
  }

  lemma SoundIsBacked(b: Shape, level: Option<Level>, now: real, latest: real)
    requires b.refill > 0.0 && Sound(b, level, now) && now <= latest
    ensures Backed(b, level, latest)
  {
    if level.Some? {
      RefillNonNegative(b.refill, latest - level.value.ts);
      assert Gain(b.refill, latest - level.value.ts) >= 0.0;
    }
  }

  /** In any sequence of requests, none of them late by more than `slack`, every wait is at most the
      time one token takes and `slack`; with a clock that never runs backwards `slack` is nothing. */
  lemma WaitsBounded(b: Shape, start: Option<Level>, times: seq<real>, slack: real, n: nat)
    requires b.refill > 0.0 && b.capacity >= 1.0 && slack >= 0.0 && Within(times, slack) && n < |times|
    requires Sound(b, start, times[0])
    ensures 0.0 <= Wait(b, Run(b, start, times, n), times[n]) <= 1.0 / b.refill + slack
  {
    var latest := times[n] + slack;
    SoundIsBacked(b, start, times[0], latest);
    RunBacked(b, start, times, n, latest);
    LateWait(b, Run(b, start, times, n), times[n], latest, slack);
  }

  /** In any stretch of requests, however many and however spaced, at most the capacity, plus the
      refill over the time elapsed and the `slack` of late requests, are told to send at once. */
  lemma GrantsBounded(b: Shape, start: Option<Level>, times: seq<real>, slack: real, i: nat, j: nat)
    requires b.refill > 0.0 && b.capacity >= 1.0 && slack >= 0.0 && Within(times, slack) && i < j <= |times|
    requires Sound(b, start, times[0])
    ensures Granted(b, start, times, i, j) as real <= b.capacity + Gain(b.refill, times[j - 1] + slack - times[i])
  {
    var latest := times[j - 1] + slack;
    SoundIsBacked(b, start, times[0], latest);
    RunBacked(b, start, times, j, latest);
    TokensAccountedFor(b, start, times, i, j);
    RefilledTotal(b.refill, times, i, j);
    RefillAdds(b.refill, times[i], times[j - 1], latest);
  }

  /** Thirty requests at once, and then one that is late. */
  function Burst(late: real): seq<real> {
    seq(31, i => if i < 30 then late else 0.0)
  }

  lemma {:induction false} BurstEmpties(late: real, n: nat)
    requires n <= 30
    ensures n > 0 ==> Run(CONNECTION, None, Burst(late), n) == Some(Level(30.0 - n as real, late))
  {
    if n > 0 {
      BurstEmpties(late, n - 1);
      NoTimeNoGain(CONNECTION.refill);
    }
  }

  /** However late a request, there is a sequence in which it waits the whole delay longer than one
      token takes: thirty requests on the connection's bucket at `late`, and then one at zero. */
  lemma LateWaitsLonger(late: real)
    requires late >= 0.0
    ensures Within(Burst(late), late)
    ensures Wait(CONNECTION, Run(CONNECTION, None, Burst(late), 30), Burst(late)[30]) == 1.0 / CONNECTION.refill + late
  {
    BurstEmpties(late, 30);
  }

  /** What the buckets allow: in a group 20 messages and 20 more a minute, in a single chat 5 and one
      more a second, on a connection 30 and 30 more a second. */
  lemma BucketsAllow(start: Option<Level>, times: seq<real>, i: nat, j: nat)
    requires Within(times, 0.0) && i < j <= |times|
    ensures Sound(GROUP, start, times[0]) ==>
      Granted(GROUP, start, times, i, j) as real <= 20.0 + (times[j - 1] - times[i]) / 3.0
    ensures Sound(SINGLE, start, times[0]) ==> Granted(SINGLE, start, times, i, j) as real <= 5.0 + (times[j - 1] - times[i])
    ensures Sound(CONNECTION, start, times[0]) ==>
      Granted(CONNECTION, start, times, i, j) as real <= 30.0 + 30.0 * (times[j - 1] - times[i])
  {
    if Sound(GROUP, start, times[0]) {
      GrantsBounded(GROUP, start, times, 0.0, i, j);
    }
    if Sound(SINGLE, start, times[0]) {
      GrantsBounded(SINGLE, start, times, 0.0, i, j);
    }
    if Sound(CONNECTION, start, times[0]) {
      GrantsBounded(CONNECTION, start, times, 0.0, i, j);
    }
  }

  /** A new bucket lets through exactly its capacity at once. */
  lemma {:induction false} FirstBurst(b: Shape, now: real, n: nat)
    requires b.refill > 0.0 && n as real <= b.capacity
    ensures var times := Values(now, n);
      && Granted(b, None, times, 0, n) == n
      && (n > 0 ==> Run(b, None, times, n) == Some(Level(b.capacity - n as real, now)))
  {
    if n > 0 {
      FirstBurst(b, now, n - 1);
      SameStart(b, Values(now, n), Values(now, n - 1), n - 1);
      NoTimeNoGain(b.refill);
    }
  }

  /** The same time, over and over. */
  function Values(now: real, n: nat): seq<real> {
    seq(n, _ => now)
  }

  lemma {:induction false} SameStart(b: Shape, times: seq<real>, other: seq<real>, n: nat)
    requires n <= |times| && n <= |other| && forall i :: 0 <= i < n ==> times[i] == other[i]
    ensures Run(b, None, times, n) == Run(b, None, other, n)
    ensures Granted(b, None, times, 0, n) == Granted(b, None, other, 0, n)
  {
    if n > 0 {
      SameStart(b, times, other, n - 1);
    }
  }

  /** The same run over a store that forgets expired buckets. */
  function ForgetfulRun(b: Shape, start: Option<Level>, times: seq<real>, n: nat): Option<Level>
    requires n <= |times|
  {
    if n == 0 then start else Some(After(b, Kept(ForgetfulRun(b, start, times, n - 1), times[n - 1]), times[n - 1]))
  }

  /** Whenever the store forgets, every later level, and so every later wait, is what it would have been. */
  lemma {:induction false} ForgettingNeverShows(b: Shape, start: Option<Level>, times: seq<real>, n: nat)
    requires Built(b) && Monotone(times) && n <= |times| && (|times| > 0 ==> Sound(b, start, times[0]))
    ensures ForgetfulRun(b, start, times, n) == Run(b, start, times, n)
  {
    if n > 0 {
      ForgettingNeverShows(b, start, times, n - 1);
      RunSound(b, start, times, n - 1);
      ExpiryUnobservable(b, Run(b, start, times, n - 1), times[n - 1]);
    }
  }
}
