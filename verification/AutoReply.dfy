/** The auto-reply slot: claim, send, release, purge (backend/app/repositories/autoreply.py,
    backend/app/services/autoreply.py, backend/app/scheduler.py). */
module AutoReply {
  import opened Types

  datatype Person = Person(conn: ConnId, kind: PeerKind, id: int)

  datatype Entry = Entry(repliedAt: Time, count: nat)

  type Log = map<Person, Entry>

  /** Where a released claim parks its time stamp. */
  const RELEASED: Time := 0

  /** How old an entry must be for the retention loop to delete it. */
  const RETENTION: Time := 30 * 86_400 * SECOND

  predicate Free(log: Log, p: Person, cooldown: Time, now: Time) {
    p in log ==> log[p].repliedAt < now - cooldown
  }

  /** The upsert whose condition is the cooldown. */
  function Claimed(log: Log, p: Person, cooldown: Time, now: Time): Log {
    if !Free(log, p, cooldown, now) then log
    else log[p := Entry(now, if p in log then log[p].count + 1 else 1)]
  }

  function Released(log: Log, p: Person): Log {
    if p !in log then log
    else if log[p].count <= 1 then log - {p}
    else log[p := Entry(RELEASED, log[p].count - 1)]
  }

  function Purged(log: Log, now: Time): Log {
    map p | p in log && !(log[p].repliedAt < now - RETENTION) :: log[p]
  }

  class ReplyLog {
    var entries: Log

    constructor ()
      ensures entries == map[]
    {
      entries := map[];
    }

    method ClaimSlot(p: Person, cooldown: Time, now: Time) returns (claimed: bool)
      modifies this
      ensures claimed <==> p !in old(entries) || old(entries)[p].repliedAt + cooldown < now
      ensures entries == Claimed(old(entries), p, cooldown, now)
    {
      var cutoff := now - cooldown;
      claimed := false;
      if p !in entries {
        entries := entries[p := Entry(now, 1)];
        claimed := true;
      } else if entries[p].repliedAt < cutoff {
        entries := entries[p := Entry(now, entries[p].count + 1)];
        claimed := true;
      }
    }

    /** Undoes a claim: a first-ever one leaves no trace, a repeated one is parked in the past. */
    method ReleaseSlot(p: Person)
      modifies this
      ensures entries == Released(old(entries), p)
    {
      if p in entries && entries[p].count <= 1 {
        entries := entries - {p};
        return;
      }
      if p in entries {
        entries := entries[p := Entry(RELEASED, entries[p].count - 1)];
      }
    }

    method Purge(now: Time) returns (deleted: nat)
      modifies this
      ensures entries == Purged(old(entries), now)
      ensures deleted == |old(entries)| - |entries|
    {
      var before := entries;
      entries := map p | p in entries && !(entries[p].repliedAt < now - RETENTION) :: entries[p];
      var gone := set p | p in before && p !in entries;
      assert before.Keys == entries.Keys + gone;
      deleted := |gone|;
    }
  }

  datatype Decision = Sent | NotActive | NotPrivate | Disabled | NotAdvertising | CoolingDown | Undelivered

  class Responder {
    const log: ReplyLog
    var sentCount: nat

    constructor ()
      ensures fresh(log) && log.entries == map[] && sentCount == 0
    {
      log := new ReplyLog();
      sentCount := 0;
    }

    /** Answers one incoming message at most; `delivers` is whether the send would succeed. */
    method HandleIncoming(sender: Person, active: bool, enabled: bool, blank: bool, advertising: bool, cooldown: Time,
                          now: Time, delivers: bool) returns (d: Decision)
      modifies this, log
      ensures d == if !active then NotActive
                   else if sender.kind != UserPeer then NotPrivate
                   else if !enabled || blank then Disabled
                   else if !advertising then NotAdvertising
                   else if !Free(old(log.entries), sender, cooldown, now) then CoolingDown
                   else if !delivers then Undelivered else Sent
      ensures log.entries == if d == Sent || d == Undelivered then Answered(old(log.entries), sender, cooldown, now, delivers)
                             else old(log.entries)
      ensures sentCount == old(sentCount) + if d == Sent then 1 else 0
    {
      if !active {
        return NotActive;
      }
      if sender.kind != UserPeer {
        return NotPrivate;
      }
      if !enabled || blank {
        return Disabled;
      }
      if !advertising {
        return NotAdvertising;
      }
      var claimed := log.ClaimSlot(sender, cooldown, now);
      if !claimed {
        return CoolingDown;
      }
      if !delivers {
        log.ReleaseSlot(sender);
        return Undelivered;
      }
      sentCount := sentCount + 1;
      return Sent;
    }
  }

  /** The log after an incoming message that passed every other guard. */
  function Answered(log: Log, p: Person, cooldown: Time, now: Time, delivers: bool): Log {
    if Free(log, p, cooldown, now) && !delivers then Released(Claimed(log, p, cooldown, now), p)
    else Claimed(log, p, cooldown, now)
  }

  /** A reply that could not be sent leaves the person as free as they were: at once if there was no
      reply before, and otherwise as long as the cooldown fits between 1970 and now. */
  lemma BouncedReplyFrees(log: Log, p: Person, cooldown: Time, now: Time, later: Time)
    requires Free(log, p, cooldown, now) && (p in log ==> log[p].count >= 1)
    ensures var log' := Answered(log, p, cooldown, now, false);
      && (p !in log ==> log' == log)
      && (p in log ==> log' == log[p := Entry(0, log[p].count)])
      && (Free(log', p, cooldown, later) <==> p !in log || cooldown < later)
  {
  }

  /** A claim takes the slot for the whole cooldown. */
  lemma ClaimTakesSlot(log: Log, p: Person, cooldown: Time, now: Time, later: Time)
    requires Free(log, p, cooldown, now)
    ensures var log' := Answered(log, p, cooldown, now, true);
      && log' == log[p := Entry(now, if p in log then log[p].count + 1 else 1)]
      && (Free(log', p, cooldown, later) <==> now + cooldown < later)
  {
  }

  /** Purging removes exactly the entries that are more than thirty days old. */
  lemma PurgeRemoves(log: Log, p: Person, now: Time)
    ensures p in Purged(log, now) <==> p in log && log[p].repliedAt + 30 * 24 * 60 * 60 * 1_000_000 >= now
    ensures p in Purged(log, now) ==> Purged(log, now)[p] == log[p]
  {
  }

  // ------------------------------------------------------------------------
  // Any history
  // ------------------------------------------------------------------------

  /** Lost: the message went out, but the transaction that claimed the slot was rolled back. */
  datatype Fate = Delivered | Bounced | Lost

  datatype Event = Incoming(person: Person, at: Time, fate: Fate) | Purge(at: Time)

  predicate InTime(events: seq<Event>) {
    forall i, j :: 0 <= i < j < |events| ==> events[i].at <= events[j].at
  }

  function LogAfter(events: seq<Event>, cooldown: Time, n: nat): Log
    requires n <= |events|
  {
    if n == 0 then map[]
    else
      var log := LogAfter(events, cooldown, n - 1);
      match events[n - 1]
      case Purge(at) => Purged(log, at)
      case Incoming(p, at, fate) => if fate == Lost then log else Answered(log, p, cooldown, at, fate == Delivered)
  }

  /** Event `k` is a reply that reached the person. */
  predicate Reaches(events: seq<Event>, cooldown: Time, p: Person, k: nat)
    requires k < |events|
  {
    events[k].Incoming? && events[k].person == p && events[k].fate != Bounced
    && Free(LogAfter(events, cooldown, k), p, cooldown, events[k].at)
  }

  predicate Spaced(events: seq<Event>, cooldown: Time, p: Person) {
    forall i, j :: 0 <= i < j < |events| && Reaches(events, cooldown, p, i) && Reaches(events, cooldown, p, j) ==>
      events[j].at > events[i].at + cooldown
  }

  /** No reply to the person is lost. */
  predicate NoneLost(events: seq<Event>, p: Person) {
    forall i :: 0 <= i < |events| ==> !(events[i].Incoming? && events[i].person == p && events[i].fate == Lost)
  }

  /** After a reply at `t` to `p`, either the entry still says so, or the cooldown is over. */
  predicate Remembered(log: Log, p: Person, t: Time, cooldown: Time, now: Time) {
    now > t + cooldown || (p in log && log[p].repliedAt >= t)
  }

  lemma {:induction false} ReplyRemembered(events: seq<Event>, cooldown: Time, p: Person, i: nat, n: nat)
    requires cooldown <= RETENTION && InTime(events)
    requires i < n <= |events| && Reaches(events, cooldown, p, i) && events[i].fate == Delivered
    ensures Remembered(LogAfter(events, cooldown, n), p, events[i].at, cooldown, events[n - 1].at)
  {
    if i < n - 1 {
      ReplyRemembered(events, cooldown, p, i, n - 1);
    }
  }

  /** With a cooldown no longer than the retention, a reply whose claim was committed is followed by
      no other to that person until the cooldown is over, through claims, failed sends, releases,
      parked entries, purges and replies that a crash forgot. */
  lemma DeliveredKeepsOff(events: seq<Event>, cooldown: Time, p: Person, i: nat, j: nat)
    requires cooldown <= RETENTION && InTime(events) && i < j < |events|
    requires Reaches(events, cooldown, p, i) && events[i].fate == Delivered && Reaches(events, cooldown, p, j)
    ensures events[j].at > events[i].at + cooldown
  {
    ReplyRemembered(events, cooldown, p, i, j);
  }

  /** So when no reply to the person is lost, any two are more than the cooldown apart. */
  lemma RepliesSpaced(events: seq<Event>, cooldown: Time, p: Person)
    requires cooldown <= RETENTION && InTime(events) && NoneLost(events, p)
    ensures Spaced(events, cooldown, p)
  {
    forall i, j | 0 <= i < j < |events| && Reaches(events, cooldown, p, i) && Reaches(events, cooldown, p, j)
      ensures events[j].at > events[i].at + cooldown
    {
      DeliveredKeepsOff(events, cooldown, p, i, j);
    }
  }

  /** A longer cooldown is not kept: a purge forgets the reply before it is over. */
  lemma LongCooldownForgotten(cooldown: Time, p: Person) returns (events: seq<Event>)
    requires cooldown > RETENTION
    ensures InTime(events) && NoneLost(events, p) && !Spaced(events, cooldown, p)
  {
    events := [Incoming(p, 0, Delivered), Purge(RETENTION + 1), Incoming(p, RETENTION + 1, Delivered)];
    var first := LogAfter(events, cooldown, 0);
    assert Free(first, p, cooldown, 0);
    assert LogAfter(events, cooldown, 1) == map[p := Entry(0, 1)];
    assert LogAfter(events, cooldown, 2) == map[];
    assert Reaches(events, cooldown, p, 0) && Reaches(events, cooldown, p, 2);
  }

  /** Retention is exactly what decides: replies are spaced in every history just when the cooldown
      is no longer than it. */
  lemma SpacedExactlyWithinRetention(cooldown: Time, p: Person)
    ensures (forall events: seq<Event> :: InTime(events) && NoneLost(events, p) ==> Spaced(events, cooldown, p))
       <==> cooldown <= 30 * 24 * 60 * 60 * 1_000_000
  {
    if cooldown <= RETENTION {
      forall events: seq<Event> | InTime(events) && NoneLost(events, p) ensures Spaced(events, cooldown, p) {
        RepliesSpaced(events, cooldown, p);
      }
    } else {
      var events := LongCooldownForgotten(cooldown, p);
    }
  }

  /** A crash after the send forgets it, whatever the cooldown: the same person may be answered
      twice at once. */
  lemma LostSendNotSpaced(cooldown: Time, p: Person)
    requires cooldown >= 0
    ensures !Spaced([Incoming(p, 0, Lost), Incoming(p, 0, Delivered)], cooldown, p)
  {
    var events := [Incoming(p, 0, Lost), Incoming(p, 0, Delivered)];
    assert LogAfter(events, cooldown, 0) == map[] && LogAfter(events, cooldown, 1) == map[];
    assert Reaches(events, cooldown, p, 0) && Reaches(events, cooldown, p, 1);
  }

  function Replies(events: seq<Event>, cooldown: Time, p: Person, n: nat): nat
    requires n <= |events|
  {
    if n == 0 then 0 else Replies(events, cooldown, p, n - 1) + if Reaches(events, cooldown, p, n - 1) then 1 else 0
  }

  /** Until something is purged, an entry counts exactly the replies that reached the person, and
      there is one exactly if there was such a reply. */
  lemma {:induction false} CountIsReplies(events: seq<Event>, cooldown: Time, p: Person, n: nat)
    requires NoneLost(events, p) && n <= |events|
    requires forall i :: 0 <= i < n ==> events[i].Incoming?
    ensures var log := LogAfter(events, cooldown, n);
      && (p in log <==> Replies(events, cooldown, p, n) > 0)
      && (p in log ==> log[p].count == Replies(events, cooldown, p, n))
  {
    if n > 0 {
      CountIsReplies(events, cooldown, p, n - 1);
    }
  }
}
