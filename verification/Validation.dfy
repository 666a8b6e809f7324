/** What must hold before a broadcast may be queued (backend/app/services/broadcast.py). */
module Validation {
  import opened Types
  import opened Broadcasts
  import opened Settling

  /** `groups` is the number of targets; `repeat` and the limits on time are in seconds. */
  datatype Draft = Draft(blank: bool, length: nat, hasMedia: bool, delayMs: nat, repeat: Option<int>, groups: nat)

  datatype Limits = Limits(text: nat, caption: nat, groups: nat, minRepeat: nat, maxSpread: nat)

  datatype Verdict =
    | Valid | NothingToSend | TooLong(excess: nat) | NoGroups | TooManyGroups
    | RepeatTooShort | RoundTooLong | SpreadTooLong

  /** The time from the first post of a round to its last, in milliseconds. */
  function SpreadMs(delayMs: nat, groups: nat): nat {
    if groups == 0 then 0 else delayMs * (groups - 1)
  }

  function Validate(d: Draft, limits: Limits): Verdict {
    var limit := if d.hasMedia then limits.caption else limits.text;
    if d.blank && !d.hasMedia then NothingToSend
    else if d.length > limit then TooLong(d.length - limit)
    else if d.groups == 0 then NoGroups
    else if d.groups > limits.groups then TooManyGroups
    else if d.repeat.Some? && d.repeat.value < limits.minRepeat then RepeatTooShort
    else if d.repeat.Some? && d.repeat.value * 1000 <= SpreadMs(d.delayMs, d.groups) then RoundTooLong
    else if SpreadMs(d.delayMs, d.groups) > limits.maxSpread * 1000 then SpreadTooLong
    else Valid
  }

  /** A validated round fits: its groups are all due within the longest spread allowed, and when it
      repeats, strictly before the time at which the repeat interval has passed. */
  lemma ValidRoundFits(d: Draft, limits: Limits, targets: TargetTable, rows: set<RowId>, start: Time, order: seq<RowId>, k: nat)
    requires Validate(d, limits) == Valid && d.groups == |order|
    requires InOrder(targets, rows, order) && Spaced(targets, rows, d.delayMs, start) && k < |order|
    ensures start <= targets[order[k]].lease.notBefore <= start + limits.maxSpread * SECOND
    ensures d.repeat.Some? ==> targets[order[k]].lease.notBefore < start + d.repeat.value * SECOND
  {
    assert targets[order[k]].lease.notBefore == start + d.delayMs * k * 1_000;
  }

  /** The limit on the text: the shorter caption's when an image goes with it. */
  function TextLimit(d: Draft, limits: Limits): nat {
    if d.hasMedia then limits.caption else limits.text
  }

  /** A draft is refused exactly when it has nothing to send, is too long, has no group or too many,
      repeats too soon for the floor or for its own round, or takes too long. The lengths of time are
      compared in milliseconds. */
  lemma ValidExactly(d: Draft, limits: Limits)
    ensures var spread := d.delayMs * (d.groups - 1);
      Validate(d, limits) == Valid <==>
        && (d.blank ==> d.hasMedia)
        && d.length <= TextLimit(d, limits)
        && 1 <= d.groups <= limits.groups
        && (d.repeat.Some? ==> d.repeat.value >= limits.minRepeat && d.repeat.value * 1_000 > spread)
        && spread <= limits.maxSpread * 1_000
  {
  }

  /** What the customer is told first. */
  lemma RefusalsSay(d: Draft, limits: Limits)
    ensures Validate(d, limits) == NothingToSend <==> d.blank && !d.hasMedia
    ensures Validate(d, limits).TooLong? <==> !(d.blank && !d.hasMedia) && d.length > TextLimit(d, limits)
    ensures Validate(d, limits).TooLong? ==> Validate(d, limits).excess == d.length - TextLimit(d, limits)
    ensures Validate(d, limits) == NoGroups ==> d.groups == 0
    ensures Validate(d, limits) == TooManyGroups ==> d.groups > limits.groups
    ensures Validate(d, limits) == RepeatTooShort ==> d.repeat.Some? && d.repeat.value < limits.minRepeat
    ensures Validate(d, limits) == RoundTooLong ==>
      d.repeat.Some? && d.groups > 0 && d.repeat.value * 1_000 <= d.delayMs * (d.groups - 1)
    ensures Validate(d, limits) == SpreadTooLong ==> d.groups > 0 && d.delayMs * (d.groups - 1) > limits.maxSpread * 1_000
  {
  }
}
