/** The fixed-window request limiter (backend/app/security/ratelimit.py). Times are in seconds. */
module RateLimit {
  import opened Types

  /** A counter and the time its key expires. */
  datatype Counter = Counter(count: nat, expires: int)

  datatype Answer = Answer(allowed: bool, remaining: nat, retryAfter: int)

  /** The counter as the store shows it: an expired key is gone. */
  function Live(counter: Option<Counter>, now: int): Option<Counter> {
    if counter.Some? && now >= counter.value.expires then None else counter
  }

  function Counted(counter: Option<Counter>, window: int, now: int): Counter {
    var live := Live(counter, now);
    if live.Some? then Counter(live.value.count + 1, live.value.expires) else Counter(1, now + window)
  }

  class Limiter {
    const limit: nat
    const window: int
    var counter: Option<Counter>

    constructor (limit: nat, window: int)
      ensures this.limit == limit && this.window == window && counter == None
    {
      this.limit, this.window := limit, window;
      counter := None;
    }

    /** Counts the request; the first one of a window sets when the window ends. */
    method Check(now: int) returns (answer: Answer)
      modifies `counter
      ensures counter == Some(Counted(old(counter), window, now))
      ensures answer.allowed <==> counter.value.count <= limit
      ensures answer.remaining == if answer.allowed then limit - counter.value.count else 0
      ensures answer.retryAfter == counter.value.expires - now
    {
      if counter.Some? && now >= counter.value.expires {
        counter := None;
      }
      var count, expires := 1, now + window;
      if counter.Some? {
        count, expires := counter.value.count + 1, counter.value.expires;
      }
      counter := Some(Counter(count, expires));
      if count > limit {
        return Answer(false, 0, expires - now);
      }
      return Answer(true, limit - count, expires - now);
    }
  }

  // ------------------------------------------------------------------------
  // Any sequence of requests
  // ------------------------------------------------------------------------

  /** The counter after the first `n` requests. */
  function Run(window: int, times: seq<int>, n: nat): Option<Counter>
    requires n <= |times|
  {
    if n == 0 then None else Some(Counted(Run(window, times, n - 1), window, times[n - 1]))
  }

  predicate Allowed(limit: nat, window: int, times: seq<int>, k: nat)
    requires k < |times|
  {
    Run(window, times, k + 1).value.count <= limit
  }

  /** How many of the requests `i .. j` are let through. */
  function Passed(limit: nat, window: int, times: seq<int>, i: nat, j: nat): nat
    requires i <= j <= |times|
  {
    if i == j then 0 else Passed(limit, window, times, i, j - 1) + if Allowed(limit, window, times, j - 1) then 1 else 0
  }

  predicate Monotone(times: seq<int>) {
    forall i, j :: 0 <= i < j < |times| ==> times[i] <= times[j]
  }

  lemma {:induction false} PassedAdds(limit: nat, window: int, times: seq<int>, i: nat, m: nat, j: nat)
    requires i <= m <= j <= |times|
    ensures Passed(limit, window, times, i, j) == Passed(limit, window, times, i, m) + Passed(limit, window, times, m, j)
  {
    if m < j {
      PassedAdds(limit, window, times, i, m, j - 1);
    }
  }

  /** As long as the window that is open after request `i` lasts, requests only count up: they are
      let through until the limit is reached, and not after. */
  lemma {:induction false} WithinWindow(limit: nat, window: int, times: seq<int>, i: nat, j: nat)
    requires 0 < i <= j <= |times| && Monotone(times)
    requires j > i ==> times[j - 1] < Run(window, times, i).value.expires
    ensures var open := Run(window, times, i).value;
      && Run(window, times, j) == Some(Counter(open.count + (j - i), open.expires))
      && Passed(limit, window, times, i, j)
         == if open.count >= limit then 0 else if open.count + (j - i) <= limit then j - i else limit - open.count
  {
    if j > i {
      WithinWindow(limit, window, times, i, j - 1);
    }
  }

  /** Of the requests of one window, exactly the first `limit` are let through. */
  lemma WindowAllowsLimit(limit: nat, window: int, times: seq<int>, i: nat, j: nat)
    requires i < j <= |times| && Monotone(times)
    requires Live(Run(window, times, i), times[i]) == None
    requires times[j - 1] < times[i] + window
    ensures Passed(limit, window, times, i, j) == if j - i <= limit then j - i else limit
  {
    assert Run(window, times, i + 1) == Some(Counter(1, times[i] + window));
    WithinWindow(limit, window, times, i + 1, j);
    PassedAdds(limit, window, times, i, i + 1, j);
    assert Passed(limit, window, times, i, i + 1) == Passed(limit, window, times, i, i) + if limit >= 1 then 1 else 0;
  }

  /** A stretch inside one window passes at most what the requests before it left of the limit. */
  lemma StretchOfOneWindow(limit: nat, window: int, times: seq<int>, i: nat, j: nat)
    requires i < j <= |times| && Monotone(times)
    requires times[j - 1] < Run(window, times, i + 1).value.expires
    ensures var used := Run(window, times, i + 1).value.count - 1;
      Passed(limit, window, times, i, j) <= if used >= limit then 0 else limit - used
  {
    WithinWindow(limit, window, times, i + 1, j);
    PassedAdds(limit, window, times, i, i + 1, j);
    assert Passed(limit, window, times, i, i + 1) == Passed(limit, window, times, i, i) + if Allowed(limit, window, times, i) then 1 else 0;
  }

  /** The first request from `m` on that falls outside the open window. */
  function FirstFrom(times: seq<int>, m: nat, j: nat, expires: int): (k: nat)
    requires m <= j <= |times|
    ensures m <= k <= j
    ensures forall x :: m <= x < k ==> times[x] < expires
    ensures k < j ==> times[k] >= expires
    decreases j - m
  {
    if m == j || times[m] >= expires then m else FirstFrom(times, m + 1, j, expires)
  }

  /** Any stretch of requests shorter than the window passes less than twice the limit: it meets at
      most two windows, and of the first it misses the request that opened it. */
  lemma LessThanTwiceTheLimit(limit: nat, window: int, times: seq<int>, i: nat, j: nat)
    requires window > 0 && i < j <= |times| && Monotone(times)
    requires times[j - 1] < times[i] + window
    ensures Passed(limit, window, times, i, j) <= if limit == 0 then 0 else 2 * limit - 1
  {
    var open := Run(window, times, i + 1).value;
    var m := FirstFrom(times, i + 1, j, open.expires);
    StretchOfOneWindow(limit, window, times, i, m);
    if m < j {
      assert open.count >= 2;
      WithinWindow(limit, window, times, i + 1, m);
      StretchOfOneWindow(limit, window, times, m, j);
      PassedAdds(limit, window, times, i, m, j);
    }
  }

  /** One request at once, the rest of the limit just before the window ends, and a full next window. */
  function Rush(limit: nat, window: int): seq<int>
    requires limit > 0
  {
    seq(2 * limit, k => if k == 0 then 0 else if k < limit then window - 1 else window)
  }

  /** The bound is met for every limit and every window of at least two seconds: all but the first
      of these requests pass, and they all fall into one second. */
  lemma BoundIsMet(limit: nat, window: int)
    requires limit > 0 && window >= 2
    ensures Monotone(Rush(limit, window)) && Rush(limit, window)[2 * limit - 1] < Rush(limit, window)[1] + window
    ensures Passed(limit, window, Rush(limit, window), 1, 2 * limit) == 2 * limit - 1
  {
    var times := Rush(limit, window);
    assert Run(window, times, 0) == None;
    assert Run(window, times, 1) == Some(Counter(1, window));
    WithinWindow(limit, window, times, 1, limit);
    WindowAllowsLimit(limit, window, times, limit, 2 * limit);
    PassedAdds(limit, window, times, 1, limit, 2 * limit);
  }
}
