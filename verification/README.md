# Delivery engine: a verified model

This project models the hard parts of a durable, lease-based delivery system (forwarding rules and
broadcasts over Telegram accounts, on Postgres and Redis) and proves what they promise. `dafny
verify dfyconfig.toml` checks all of it.

**The delivery engine.** `Forwarding` and `Broadcasting` are transition systems: rules, jobs, ads,
targets, connections, what each worker has in hand, and Telegram's log of accepted messages and
tokens. `System` puts the two side by side over shared connections and one clock. A step is one
database transaction, one send, one crash, or time passing; sending and committing the outcome are
separate steps, so a crash can fall between them. `ForwardingSafety` and `BroadcastingSafety` prove
the invariants for every step, `Guarantees` states them for every state of every run, and `Cascade`,
`Retries`, `OldVersions`, `PausedRuns`, `QuietConnections`, `HarmfulWorkers`, `CancelledAds`,
`PausedAds`, `Rounds`, `Settling`, `Waits` and `Validation` build on them. `Episodes`, `FloodWaits`,
`Reached` and `Revived` are runs from an empty store that reach what can go wrong.

`JobEffects` and `AdEffects` say what every step writes, column by column and in plain values, and
`Outcomes` what each report does to a row: they fix the steps independently of the functions that the
machines and the tables share.

**The tables.** `JobStore` and `AdStore` are the repositories and services as classes that update
their tables in place, loop by loop and branch by branch. Their contracts tie the new tables to the
functions and steps that the transition systems are made of. `Weighing` is the admission loop that
both kinds of claim share, `Sweeping` the loop that rewrites rows one by one.

**Limits.** `Pacing` (the token bucket), `RateLimit` (the fixed window), `Admission` (greedy
ceilings) and `AutoReply` (the reply slot) are proved over unbounded request sequences.

**Text.** `EmojiMarkup` with `Utf16`, `Markdown`, `Packing`, `Interval` with `IntervalGrammar`, and
`Idempotency` are the codecs: loops where the source loops, each proved against a function whose laws
are proved.

`Types`, `Leases`, `Delivery`, `Jobs`, `Broadcasts` and `Decimal` are the shared vocabulary.

## Assumptions

- A live worker heartbeats before its lease lapses: time does not pass the expiry of a lease whose
  holder is still at work (`HeartbeatsKept`).
- A worker acts only on a target it still holds: a new round of an ad starts only when no other
  worker has one of its targets in hand (`Unheld`). The code never re-reads the lease.
- Each database transaction is atomic and sees the committed state, except for the rows the code
  itself loads early: the connection and the ad are read before the send, settling may see the ad's
  status of that moment (`seen` in `Commit` and `Refuse`), and the health loop writes by the status
  it loaded (`checks`).
- Telegram rejects a message whose token it has already accepted. Which error a send meets, the
  wait it names, the jitter of a backoff, and which guards of a job or target fail for reasons not
  modelled (an unreachable chat, a suspended owner) are choices of the environment.
- SHA-256 is an arbitrary function of the joined material.

## Findings

- Pausing a broadcast is documented as letting leased targets finish
  (backend/app/services/broadcast.py:157). The code skips them (259-267), and so does the model:
  `LeasedTargetSkipped` is a run in which that happens, and of the targets in hand those are still
  posted, until the ad is resumed, whose worker had already passed the guards (`PostedExactly`).
- A customer's pause is documented to end only when the customer says so
  (backend/app/repositories/broadcasts.py:327-330). A worker that commits a long wait for the ad
  replaces it with a pause for the wait, which the sweep ends (`StoppedAdResumes` is a run from an
  empty store), and one that settles the last round by a stale status completes the ad; nothing else
  undoes it (`PausedAds.PauseHolds`). Whatever runs by itself, the ad is not set sending and not
  posted exactly when no worker is about to post it or to commit a long wait for it
  (`PauseObeyedExactly`).
- A wait pauses the rule or the ad when it is at least the threshold, not only above it.
- A rate limit uses up an attempt as well: `attempt_count` grows with every rescheduling, so rate
  limits can leave fewer retries than the limit, never more (`JobRetriesBounded`).
- Resuming a paused connection is documented as always an explicit customer action
  (backend/app/services/safety.py:10). The health loop writes the status it finds over whatever
  happened since it loaded the connection. A pause survives a step exactly when the step is no check
  that had loaded the connection before and finds it changed (`PausedRuns.PauseHolds`), and it survives
  whatever runs by itself exactly when the health loop has not loaded the connection
  (`PauseStaysExactly`). `PauseOverwritten` is a run in which a paused connection becomes active.
- A worker with work in hand when its connection is paused can put that work back in the queue by
  committing a report that asks for another try, or by settling a repeating round. `CascadeHolds`
  says this is the only way, and `WorkComesBack` is a run in which it happens. After the pause, jobs
  are sent only if a worker was already about to, and so are targets until the pause itself is
  overwritten (`SendsAfterPause`). Whatever runs by itself, nothing is queued, activated or sent on the
  connection exactly when no worker with its work in hand can do harm (`HarmfulWorkers.SilentExactly`).
- A cancelled ad does not always stay cancelled. A worker that has one of its targets in hand can
  commit a long rate limit, which turns the ad into one paused for the wait and later resumed, or
  settle the last round by the status it saw when it loaded the target, which makes the ad
  completed; `CancelHolds` says there is no other way. Whatever runs by itself, a cancelled ad stays
  cancelled and silent exactly when every worker with one of its targets in hand has read nothing
  yet, has read that the ad is not sending, or is about to commit an ambiguous or unauthorized
  outcome (`CancelledAds.SilentExactly`). `StoppedAdResumes` is a whole run, from an empty store, in
  which a cancelled ad sends again.
- Starting a scheduled ad times its waiting targets anew. A wait survives exactly when the new time
  is not before its end (`ScheduledStartRetimes`); such a start and the pause of the connection are
  the only automatic steps that end a wait early (`WaitHolds`). `ScheduledStartCutsWait` is a run in
  which a rate-limited target becomes due before its wait is over.
- A worker asks both pacing buckets with the time read before the first wait. A request can
  therefore come late, take the level below nothing and wait longer than one token takes. A wait is
  at most 1/refill exactly when the level at the time of the request is not below nothing
  (`WaitsOneTokenExactly`); `LateWaitsLonger` is a sequence of requests that waits longer, and
  `LateWait` bounds the excess by how late the request is. The 30-second cap cuts a wait short
  exactly when the level is that far below nothing (`CutExactly`), which no request less than 27
  seconds late can find (`LateUncut`).
- An auto-reply cooldown is kept in every history exactly when it is no longer than the 30 days of
  retention (`SpacedExactlyWithinRetention`). A reply that a crash forgot does not keep others off
  (`LostSendNotSpaced`), but one that was committed does (`DeliveredKeepsOff`).
- The fixed window lets at most 2 × limit − 1 requests through in any stretch shorter than the
  window, one less than twice the limit, and that many can pass, for every limit and every window of
  at least two seconds (`BoundIsMet`).

## Model

| member | source | states |
|---|---|---|
| Guarantees.AtMostOnceEndToEnd | backend/app/domain/idempotency.py:52-60 | in any run, two accepted sends with the same rule, source, anchor and destination exist on a user account only if the rule was once in copy mode: at most one accepted send under replays, edits, crashes, reclaims and requeues |
| Guarantees.OneJobPerDelivery | backend/app/repositories/jobs.py:36-78 | two rows of the same delivery are one row, however often its update is replayed |
| Guarantees.EligibleNeverLost | backend/app/services/dispatch.py:118-155 | once a message was taken in, each destination eligible for it has a row under its delivery's key in every later state of the run, and that row is of this very delivery unless two deliveries share a key |
| Guarantees.SendsAccountedFor | backend/app/services/delivery.py:157-235 | landed sends of a job are at most one, plus the crashes between a send and its commit, plus the ambiguous outcomes a customer requeued; a succeeded job landed exactly that many times |
| Guarantees.JobLeasesExclude | backend/app/repositories/jobs.py:81-219 | no job in two hands; what is in hand is leased to its holder or was cancelled under it; only leased rows name an owner or an expiry |
| Guarantees.TargetLeasesExclude | backend/app/repositories/broadcasts.py:260-413 | the same for broadcast targets |
| Guarantees.CeilingsHold | backend/app/repositories/jobs.py:222-247 | the set of leased jobs of a connection never exceeds the forwarding ceiling, the set of leased targets the broadcast one, and together they never exceed the sum |
| Guarantees.TargetsAdmittedUnderJointCeiling | backend/app/worker.py:397-449 | a claim that adds targets on a connection leaves jobs and targets together within the broadcast ceiling |
| Guarantees.JobRetriesBounded | backend/app/services/delivery.py:359-390 | transient and unknown failures since the last manual reset never exceed the attempt limit, and a job that is not dead has attempts left, however failures interleave with rate limits and reclaims |
| Guarantees.TargetRetriesBounded | backend/app/services/broadcast.py:634-673 | the same for a target since its round began or a customer retried it |
| Guarantees.OnePostPerRound | backend/app/services/broadcast.py:220-410 | confirmed posts of a group in the current round, crashes between send and commit aside, are 0 or 1, and 1 exactly when its target is succeeded or a worker is about to commit that |
| Guarantees.OutcomeStands | backend/app/services/broadcast.py:361-380 | until a new round or a customer's retry, no step changes the record of a finished target: nobody posts again, an ambiguous post included |
| System.StepKeeps | backend/app/worker.py:63-161 | every step of the whole system keeps every invariant of both halves |
| System.RunKeeps | backend/app/scheduler.py:49-138 | every state of every run from an empty store, or from any sound one, is sound |
| ForwardingSafety.StepKeeps | backend/app/repositories/jobs.py:36-219 | every forwarding step keeps sound rows, unique keys, exclusive hands, balanced ledgers, bounded retries, the ceiling and at-most-once |
| ForwardingSafety.DispatchKeeps | backend/app/services/dispatch.py:118-155 | intake, replayed or not, keeps all of it |
| ForwardingSafety.DispatchedCovers | backend/app/services/dispatch.py:118-155 | suppression loses no eligible destination: each has a row for its delivery afterwards |
| ForwardingSafety.ClaimKeeps | backend/app/worker.py:365-394 | claiming hands no job to a second worker and keeps the ceiling |
| ForwardingSafety.SendKeeps | backend/app/services/delivery.py:157-182 | a send adds to the log a route that no token was accepted for before, and its ledger balances |
| ForwardingSafety.CrashKeeps | backend/app/repositories/jobs.py:116-137 | a crash loses at most the record of the send that worker had made |
| ForwardingSafety.CommitKeeps | backend/app/services/delivery.py:286-390 | every outcome of a send keeps all invariants |
| ForwardingSafety.RequeueKeeps | backend/app/repositories/jobs.py:206-219 | a manual requeue keeps all invariants: no cancelled row comes back under a worker |
| ForwardingSafety.WithdrawKeeps | backend/app/repositories/jobs.py:193-203 | cancelling under a worker keeps all invariants |
| ForwardingSafety.TimeKeeps | backend/app/worker.py:102-110 | time may pass as long as live workers heartbeat |
| BroadcastingSafety.StepKeeps | backend/app/repositories/broadcasts.py:122-599 | every broadcast step keeps sound rows, distinct places, exclusive hands, balanced rounds, bounded retries, the ceiling and one notification per round |
| BroadcastingSafety.ClaimKeeps | backend/app/repositories/broadcasts.py:260-290 | claiming targets keeps all of it |
| BroadcastingSafety.CommitKeeps | backend/app/services/broadcast.py:528-673 | every outcome of a post, down to settling the round, keeps all of it |
| BroadcastingSafety.RefuseKeeps | backend/app/services/broadcast.py:239-290 | a target refused by the guards is skipped and may end the round, keeping all of it |
| BroadcastingSafety.SetTargetsKeeps | backend/app/repositories/broadcasts.py:122-167 | editing the list of groups keeps all of it |
| BroadcastingSafety.DropChatsKeeps | backend/app/repositories/broadcasts.py:170-196 | dropping dead groups keeps all of it |
| BroadcastingSafety.SendAdKeeps | backend/app/adminbot/handlers.py:1784-1821 | sending, re-sending or scheduling an ad keeps all of it |
| BroadcastingSafety.RetryKeeps | backend/app/services/broadcast.py:185-200 | retrying what did not arrive keeps all of it |
| BroadcastingSafety.ClaimKeepsCeilingOn | backend/app/repositories/broadcasts.py:576-599 | after a claim a connection's leased targets are as before, or jobs and targets together are within the ceiling |
| Cascade.CascadeHolds | backend/app/services/safety.py:74-123 | from a connection with nothing queued and no active rule, an automatic step, health checks included, leaves it so if and only if it is not a commit or settle of work already in hand that asks for more |
| Cascade.JobsStayQuiet | backend/app/repositories/jobs.py:193-203 | the forwarding half of that equivalence |
| Cascade.AdStaysQuiet | backend/app/repositories/broadcasts.py:545-557 | for one ad with nothing waiting or leased, an automatic step recreates work exactly by such a commit or by reopening its round |
| Cascade.AdsStayQuiet | backend/app/repositories/broadcasts.py:322-356 | the same for every ad of a connection, flood-paused and scheduled ones included |
| Cascade.RulesStayQuiet | backend/app/services/safety.py:86-101 | no automatic step activates a rule |
| PausedRuns.PauseQuiets | backend/app/services/safety.py:74-123 | one unauthorized report, of a job or a target, leaves the connection paused with no active rule and nothing pending or leased of either kind |
| PausedRuns.PauseHolds | backend/app/services/connections.py:275-291 | an automatic step leaves a paused connection paused if and only if it is not a health check that loaded the connection before the pause and finds it changed |
| PausedRuns.PauseStaysExactly | backend/app/scheduler.py:122-138 | a paused connection stays paused in every automatic run if and only if the health loop has not loaded it |
| PausedRuns.SendsAfterPause | backend/app/services/delivery.py:94-97 | in any automatic run after the pause, the only jobs still sent are those a worker was already about to send when it was committed, and so it is for targets up to the first check that overwrites the pause |
| QuietConnections.NothingComesBack | backend/app/scheduler.py:49-138 | once nothing is queued and no worker can do harm, no automatic run ever queues, activates or sends anything on the connection |
| HarmfulWorkers.TargetHarmRun | backend/app/services/broadcast.py:220-410 | from any sound quiet state in which a worker can do harm with a target, an automatic run in which work is queued again or sent |
| HarmfulWorkers.SilentExactly | backend/app/services/safety.py:74-123 | nothing is queued, activated or sent on the connection in any automatic run if and only if no worker with its work in hand can do harm |
| Reached.PauseOverwritten | backend/app/scheduler.py:122-138 | a run from an empty store in which a connection is paused by an unauthorized report and made active again by health checks alone |
| Revived.WorkComesBack | backend/app/services/safety.py:74-123 | a run from an empty store in which a paused, quiet connection gets work again by a worker's commit |
| CancelledAds.CancelHolds | backend/app/services/broadcast.py:413-673 | an automatic step leaves a cancelled ad cancelled if and only if it is not a commit of a long wait for one of its targets, or a commit or refusal that settles its last round by a stale status |
| CancelledAds.DormantHolds | backend/app/services/broadcast.py:413-673 | it also leaves the ad with nothing waiting or leased if and only if, besides, it asks for no other try and reopens no round |
| CancelledAds.CancelStops | backend/app/services/broadcast.py:162-182 | cancelling leaves the ad cancelled with nothing waiting or leased, whoever holds its targets; it is stopped exactly when no holder can do harm |
| CancelledAds.CancelledStaysSilent | backend/app/services/broadcast.py:162-182 | an ad stopped once stays cancelled, without work and silent through every automatic run |
| CancelledAds.HarmfulRun | backend/app/services/broadcast.py:220-410 | from any sound state in which a holder can do harm, an automatic run in which the cancelled ad is posted, gets work again or is no longer cancelled |
| CancelledAds.SilentExactly | backend/app/services/broadcast.py:162-182 | a cancelled ad stays cancelled, without work and silent in every automatic run if and only if no holder can do harm |
| PausedAds.FloodWaitPauses | backend/app/services/broadcast.py:588-632 | a wait at or above the threshold queues the target for after the full wait and pauses the ad, whatever its status was |
| FloodWaits.FloodWaitResumes | backend/app/services/broadcast.py:588-632 | such a commit takes a cancelled ad, or one the customer paused, to one that the sweep sets sending once the wait is over |
| FloodWaits.StoppedAdResumes | backend/app/repositories/broadcasts.py:322-356 | a run from an empty store that reaches that commit, for a cancellation and for a customer's pause: three automatic steps later the ad is sending |
| PausedAds.PauseHolds | backend/app/services/broadcast.py:413-673 | an automatic step leaves a customer's pause in place if and only if it is not a commit of a long wait for one of the ad's targets, or a commit or refusal that settles its last round by a stale status |
| PausedAds.PauseObeyedExactly | backend/app/repositories/broadcasts.py:322-356 | an ad the customer paused is not set sending and not posted in any automatic run if and only if no worker is about to post it or to commit a long wait for it |
| PausedAds.PostedExactly | backend/app/services/broadcast.py:156-159 | a target in hand when the customer pauses can be posted before the ad is resumed if and only if its worker had already passed the guards |
| Reached.LeasedTargetSkipped | backend/app/services/broadcast.py:259-267 | a run from an empty store in which a target leased when the customer pauses is skipped, not posted |
| Rounds.RestingRowStands | backend/app/repositories/broadcasts.py:416-447 | no step but a new round of its ad, or a retry, changes the lease or the count of posts of a finished target |
| Rounds.RestStays | backend/app/repositories/broadcasts.py:560-573 | and no worker takes it in hand |
| Rounds.PostsNeverUncounted | backend/app/repositories/broadcasts.py:236-257 | within a round no step, customer actions included, lowers a group's count of posts |
| Rounds.HandsComeFromQueue | backend/app/repositories/broadcasts.py:260-290 | a worker comes to hold only targets that were pending |
| Rounds.ReplacingKeepsHistory | backend/app/repositories/broadcasts.py:122-167 | replacing the list leaves exactly the wanted groups, at their index; a group that stays keeps its lease and its count of posts; other ads are untouched |
| Settling.IndexIsRank | backend/app/repositories/broadcasts.py:236-257 | the row at index k of the list ordered by position has k rows before it |
| Settling.OrderExists | backend/app/repositories/broadcasts.py:236-257 | rows whose positions differ can be listed in order |
| Settling.StaggeringSpaces | backend/app/repositories/broadcasts.py:236-257 | scheduling puts the pending rows, in position order, exactly `delay_ms` apart, and touches no other row |
| Settling.ReopeningSpaces | backend/app/repositories/broadcasts.py:416-447 | reopening makes every row pending with attempts cleared, spaced the same way from the start of the round |
| Settling.EveryGroupCounted | backend/app/services/broadcast.py:488-494 | when nothing remains, delivered and missed add up to the number of targets |
| Settling.NumberIsNew | backend/app/services/broadcast.py:505-513 | the number of the round about to be reported was never reported for that ad |
| Settling.SettlingAccounts | backend/app/services/broadcast.py:413-513 | settling counts every group, adds one to the rounds, reports a non-empty round once under a new number, and leaves the ad completed with its record intact or all targets pending and spaced by `delay_ms` from the end of the round plus the repeat |
| Settling.RowsHaveOrder | backend/app/repositories/broadcasts.py:122-167 | in every sound state the rows of an ad have distinct positions and so an order |
| Validation.ValidRoundFits | backend/app/services/broadcast.py:69-123 | a validated round has all its posts due within the longest spread and strictly before the repeat interval is over |
| Validation.ValidExactly | backend/app/services/broadcast.py:69-123 | a draft is valid if and only if it has text or an image, fits the text or caption limit, has between one group and the most allowed, repeats no sooner than the floor and later than its round takes, and is spread over no more than the limit |
| Validation.RefusalsSay | backend/app/services/broadcast.py:69-123 | each refusal is given for its reason, and a text that is too long with the number of characters over |
| Waits.RateLimitStartsWait | backend/app/services/delivery.py:330-357 | a rate-limited job is written down as waiting for the full time that was asked |
| Waits.JobWaitObeyed | backend/app/repositories/jobs.py:157-166 | in any run, whatever customers do, no worker holds it before the wait is over |
| Waits.PendingTimeFixed | backend/app/repositories/jobs.py:81-103 | no step changes the release time of a pending job |
| Waits.FreeJobMoves | backend/app/repositories/jobs.py:81-219 | all that can happen to a row nobody holds: claimed if due, reclaimed if lapsed, cancelled, requeued if failed, or nothing |
| Waits.TargetRateLimitStartsWait | backend/app/services/broadcast.py:588-632 | a rate-limited target is written down as waiting for the full time that was asked, whatever the status of its ad |
| Waits.WaitHolds | backend/app/repositories/broadcasts.py:399-413 | before its end a waiting target stays waiting, unheld and undiminished through an automatic step if and only if the step is neither a scheduled start that gives it an earlier time nor the pause of its connection |
| Waits.SystemWaitHolds | backend/app/repositories/broadcasts.py:399-413 | the same for every automatic step of the whole system |
| Waits.TargetWaitObeyed | backend/app/repositories/broadcasts.py:399-413 | between customer actions, no worker holds a rate-limited target before its wait is over, unless one of those two steps came before |
| Waits.ScheduledStartRetimes | backend/app/repositories/broadcasts.py:236-257 | a scheduled start gives a waiting target the time of its rank; its wait survives if and only if that is not before its end |
| Waits.ScheduledStartForgetsWait | backend/app/scheduler.py:73-119 | the first waiting target is due at once whatever wait it was under |
| Reached.ScheduledStartCutsWait | backend/app/scheduler.py:73-119 | a run from an empty store in which a rate-limited target becomes due before its wait is over |
| Delivery.BackoffBounds | backend/app/services/delivery.py:63-70 | every backoff lies between min(2^k, 16) and 18 seconds, and its base never shrinks with the attempts |
| Outcomes.DelaysAreBackoffs | backend/app/services/delivery.py:63-70 | the delays that can be drawn are, in plain numbers, 1, 2, 4, 8 and then 16 seconds, a quarter more at most, and never more than 18 |
| Outcomes.DecisionIsOutcome | backend/app/services/delivery.py:286-390 | what each report does to the row, column by column: the final status of each error class, the wait of a rate limit, and for a retry failure the dead letter or one attempt more at `min(2^k, 16)` to 18 seconds from now |
| Retries.RetryStartsWait | backend/app/services/delivery.py:330-390 | after a rate limit, or a retry failure with attempts left, the job is pending with one attempt more, no lease, and due no earlier than its wait and, for a retry failure, no later than in 18 seconds |
| Retries.JobRetryObeyed | backend/app/repositories/jobs.py:157-166 | in any run nobody holds the job before that wait has passed |
| Retries.TargetRetryStartsWait | backend/app/services/broadcast.py:588-673 | the same for a target |
| Retries.TargetRetryObeyed | backend/app/repositories/broadcasts.py:399-413 | between customer actions, and unless a scheduled start or the pause of the connection cuts the wait, nobody holds the target before it has passed |
| OldVersions.ArmedOnlyIfWanted | backend/app/services/delivery.py:99-118 | whenever a step of a run makes a job ready to send, its rule is active, and if the rule was edited since, it still lists the destination and has no keyword filter |
| OldVersions.ExcludedStaysUnsent | backend/app/services/delivery.py:252-272 | while the edited rule has a keyword filter or no longer lists the destination, no job of another version is newly made ready to send |
| JobEffects.IntakeQueues | backend/app/services/dispatch.py:118-155 | an eligible destination whose delivery is new gets a row that is pending with no attempts and no lease, due `delay_ms` milliseconds after the destination before it, with the rule's version and connection and the message's source, ids and destination; an ineligible one gets none |
| JobEffects.DispatchWrites | backend/app/services/dispatch.py:91-170 | intake as a step: those rows, and no other change to the table |
| JobEffects.ClaimWrites | backend/app/repositories/jobs.py:81-103 | a claimed row was pending and due; if there is room it is leased to the worker until the lease time is over and taken in hand, otherwise it stays as it was |
| JobEffects.HeartbeatExtends | backend/app/repositories/jobs.py:106-113 | the holder's row gets the expiry of a whole lease time from now and nothing else changes; until then it cannot be reclaimed, and the holder keeps nobody waiting |
| JobEffects.StrangerExtendsNothing | backend/app/repositories/jobs.py:106-113 | a heartbeat for a row that its sender does not own changes nothing |
| JobEffects.ReclaimWrites | backend/app/repositories/jobs.py:116-137 | only leases that have run out are reclaimed; the row is pending with no lease and otherwise as it was |
| JobEffects.LapsedIsReclaimable | backend/app/scheduler.py:49-70 | a lease that has run out can be reclaimed at once |
| JobEffects.GuardsHold | backend/app/services/delivery.py:86-118 | a job passes the guards only with an active connection and rule, and under an older version only if its destination is listed and no keyword filter exists; its token is used exactly on a user account that does not copy |
| JobEffects.LoadWrites | backend/app/services/delivery.py:73-84 | loading a job keeps what the connection's status was |
| JobEffects.SendWrites | backend/app/services/delivery.py:157-181 | an accepted send is one message of the job's route in Telegram's log, and under a token exactly the tokens of its messages are new and remembered |
| JobEffects.RefuseWrites | backend/app/services/delivery.py:82-117 | a refused job is skipped, gives up its lease, and no other row changes |
| JobEffects.CommitWrites | backend/app/services/delivery.py:182-390 | a commit writes exactly the outcome of its report to the row, with the lesser of the two attempt limits |
| JobEffects.CommitElsewhere | backend/app/services/safety.py:122-123 | an unauthorized report skips what is unfinished on the connection; any other touches no other row |
| JobEffects.CommitPauses | backend/app/services/delivery.py:330-378 | exactly which rules a commit pauses: the connection's active ones, or the job's own after a wait of at least the threshold or too many final failures |
| JobEffects.RequeueWrites | backend/app/repositories/jobs.py:206-219 | a manual retry makes exactly the failed, ambiguous and dead jobs of the rule pending, due now, with no attempts and no owner |
| JobEffects.PauseRuleWrites | backend/app/repositories/jobs.py:180-190 | pausing a rule skips exactly its unfinished jobs |
| JobEffects.WithdrawWrites | backend/app/services/safety.py:86-123 | pausing a connection pauses exactly its active rules and skips exactly its unfinished jobs |
| AdEffects.ResumeWrites | backend/app/adminbot/handlers.py:1833-1839 | resuming sets the ad sending and gives each waiting row the time of its place, `delay_ms` apart from now |
| AdEffects.StartWrites | backend/app/scheduler.py:73-119 | only an ad whose time has come starts; it is queued so if it validates and becomes a draft if not |
| AdEffects.SendWritesAd | backend/app/adminbot/handlers.py:1784-1821 | sending sets the ad sending, or scheduled if its time is still to come, or leaves it if it does not validate |
| AdEffects.SendWritesRow | backend/app/adminbot/handlers.py:1784-1821 | sending an ad that is over starts every row afresh, valid or not; sending any other re-times what waits |
| AdEffects.PauseWrites | backend/app/services/broadcast.py:156-159 | pausing changes the ad's status and reason and no target |
| AdEffects.CancelWrites | backend/app/services/broadcast.py:162-182 | cancelling skips exactly what is unfinished of the ad |
| AdEffects.RetryWrites | backend/app/services/broadcast.py:185-200 | retrying makes exactly the failed, ambiguous and dead targets of the ad pending with no attempts and no owner, at the time of their place, and sets the ad sending; with nothing to retry it changes nothing |
| AdEffects.RetryLeavesWork | backend/app/services/broadcast.py:185-200 | after a retry that found something the ad is sending and has a target waiting |
| AdEffects.EditWrites | backend/app/adminbot/handlers.py:1664-1687 | editing changes the pause, the repeat and the start time and nothing else |
| AdEffects.DropWrites | backend/app/adminbot/handlers.py:670-706 | dropping groups removes exactly their rows that never succeeded, in the account's ads |
| AdEffects.ListWrites | backend/app/repositories/broadcasts.py:122-167 | a group that joins waits, due now, with no attempts and no lease; one that stays keeps all but its position; one that goes was no longer listed |
| AdEffects.ClaimWrites | backend/app/repositories/broadcasts.py:260-290 | a claimed target was pending, due, and of an ad that is sending; with room it is leased until the lease time is over and taken in hand, otherwise it stays |
| AdEffects.HeartbeatExtends | backend/app/repositories/broadcasts.py:293-300 | the holder's target gets a whole lease time more and nothing else changes; until then it cannot be reclaimed, and the holder keeps nobody waiting |
| AdEffects.ReclaimWrites | backend/app/repositories/broadcasts.py:359-379 | only leases that have run out are reclaimed; the row is pending with no lease and otherwise as it was |
| AdEffects.LapsedIsReclaimable | backend/app/scheduler.py:49-70 | a lease that has run out can be reclaimed at once |
| AdEffects.SweepWrites | backend/app/repositories/broadcasts.py:322-356 | the sweep may resume an ad exactly when it is paused for a wait and a waiting target is due, and only sets it sending |
| AdEffects.SettleWrites | backend/app/services/broadcast.py:413-472 | settling a round that is over adds one to the rounds, reports it if it had a group, and completes the ad or keeps its status if it repeats |
| AdEffects.SettleWritesRow | backend/app/repositories/broadcasts.py:416-447 | if it repeats, every row starts afresh, `delay_ms` apart from the end of the repeat interval; otherwise no row changes |
| AdEffects.WrittenRow | backend/app/services/broadcast.py:361-673 | a commit writes exactly the outcome of its report to the row |
| AdEffects.WrittenElsewhere | backend/app/services/safety.py:122-123 | an unauthorized report skips what is unfinished on the connection; any other touches no other row |
| AdEffects.WrittenAds | backend/app/services/broadcast.py:545-597 | exactly which ads a commit pauses, and with which reason |
| AdEffects.CommitSettles | backend/app/services/broadcast.py:361-673 | which reports go on to settle the round: a receipt, a permission or content error, and a dead letter |
| AdEffects.CommitWrites | backend/app/services/broadcast.py:361-673 | after a whole commit the row is that outcome, unless the round it ended started again at once |
| AdEffects.SkipWrites | backend/app/services/broadcast.py:239-290 | a refused target is skipped and gives up its lease, and no other row changes |
| AdEffects.GuardsHold | backend/app/services/broadcast.py:239-267 | a target passes the guards only on a connection that was active and for an ad that is sending |
| AdEffects.WithdrawWrites | backend/app/services/safety.py:105-123 | pausing a connection pauses exactly its sending ads and skips exactly the unfinished targets of all its ads |
| System.CheckWrites | backend/app/services/connections.py:275-291 | a health check writes active or error exactly when it finds the connection changed since it was loaded, whatever its status by then; loading takes the active and the failed connections |
| Broadcasts.DistinctKeepsOrder | backend/app/repositories/broadcasts.py:122-167 | the distinct groups stand in the order in which the list first names them |
| Broadcasts.Dropped | backend/app/repositories/broadcasts.py:170-196 | exactly the rows of the dropped chats that never succeeded, in the account's ads, go; the others are untouched |
| JobStore.Store.CreateIfAbsent | backend/app/repositories/jobs.py:36-78 | inserts the row exactly when no row has its key, and says so; otherwise leaves the table alone |
| JobStore.Store.DispatchForRule | backend/app/services/dispatch.py:91-170 | the loop is the machine's intake; each new row has its columns as intake promises, no existing row changes, and created, duplicate and ineligible add up to the destinations |
| JobStore.Store.InFlightCount | backend/app/repositories/jobs.py:222-247 | counting row by row gives the number of leased rows of the connection, the excluded ones aside |
| JobStore.Store.ClaimWithinLimits | backend/app/worker.py:365-394 | leasing all and handing back the excess leaves exactly the accepted rows leased to the worker until the deadline, those that greedy admission keeps, in batch order, and every other row as it was |
| JobStore.Store.Heartbeat | backend/app/repositories/jobs.py:106-113 | the owner's row gets the new expiry and keeps everything else; every other row, and a row of another owner, is unchanged |
| JobStore.Store.ReclaimExpired | backend/app/repositories/jobs.py:116-137 | returns leases that have run out to pending with no lease, up to the limit, and all of them unless the limit was reached; no other row changes |
| JobStore.Store.CancelPendingForRule | backend/app/repositories/jobs.py:180-190 | row by row: pending and leased jobs of the rule become skipped with no owner or expiry and keep everything else; every other row is unchanged and none comes or goes |
| JobStore.Store.CancelPendingForConnection | backend/app/repositories/jobs.py:193-203 | row by row: the same for the jobs of the connection |
| JobStore.Store.RequeueFailed | backend/app/repositories/jobs.py:206-219 | row by row: failed, ambiguous and dead jobs of the rule become pending and due now with no attempts and no owner, and keep their expiry column; every other row is unchanged and none comes or goes |
| JobStore.Store.Finish | backend/app/repositories/jobs.py:140-154 | the one row gets its final status and gives up its lease |
| JobStore.Store.Reschedule | backend/app/repositories/jobs.py:157-166 | the one row waits for the delay with one attempt more and no lease |
| JobStore.Store.HandleStale | backend/app/services/delivery.py:252-283 | the reason to skip a job of an older version: its destination is no longer listed, the rule has a keyword filter, or another filter refuses, in this order |
| JobStore.Store.CheckGuards | backend/app/services/delivery.py:82-153 | a job is delivered if and only if rule, owner, connection, chats and access allow it and it is of the current version or not stale |
| JobStore.Store.PauseRule | backend/app/services/safety.py:40-71 | the rule is paused; nothing else changes |
| JobStore.Store.PauseRules | backend/app/services/safety.py:86-101 | every active rule of the connection pauses, and no other |
| JobStore.Store.PauseConnection | backend/app/services/safety.py:74-123 | unless already paused: rules pause and unstarted jobs are cancelled |
| JobStore.Store.HandleFailure | backend/app/services/delivery.py:286-390 | the branches amount to the decision of the failure taxonomy, which `Outcomes.DecisionIsOutcome` gives column by column |
| JobStore.Store.CommitReport | backend/app/services/delivery.py:157-235 | what is written after a send is the commit step of the transition system, and on the row exactly the outcome of the report, backoff included |
| AdStore.Store.OrderByPosition | backend/app/repositories/broadcasts.py:236-257 | lists exactly the given rows by position |
| AdStore.Store.ScheduleTargets | backend/app/repositories/broadcasts.py:236-257 | each pending row of the ad is due `delay_ms` milliseconds after the pending one before it; no other row changes |
| AdStore.Store.ReopenForRepeat | backend/app/repositories/broadcasts.py:416-447 | each row of the ad is pending with no attempts and no lease, `delay_ms` after the one before it; no other row changes |
| AdStore.Store.RowsByChat | backend/app/repositories/broadcasts.py:122-167 | indexes the ad's rows by group |
| AdStore.Store.FirstAppearances | backend/app/repositories/broadcasts.py:122-167 | removes repetitions, keeping first appearances in order |
| AdStore.Store.ReplaceTargets | backend/app/repositories/broadcasts.py:122-167 | delete, re-position and insert amount to the new list, row by row |
| AdStore.Store.InFlightCount | backend/app/repositories/broadcasts.py:576-599 | counting row by row gives the number of leased targets of the connection, the excluded ones aside |
| AdStore.Store.WorkOn | backend/app/worker.py:434-440 | the remembered count of the connection, or else its jobs and its targets outside the batch |
| AdStore.Store.AdmitNext | backend/app/worker.py:422-448 | one turn of the loop: the next row is kept in hand or put back exactly as it was |
| AdStore.Store.ClaimWithinLimits | backend/app/worker.py:397-449 | leasing all and handing back the excess leaves exactly the accepted rows leased until the deadline, those that greedy admission under the shared ceiling keeps |
| AdStore.Store.Earliest | backend/app/repositories/broadcasts.py:344-352 | the least release time of the pending targets, if there is any |
| AdStore.Store.ResumeFloodPaused | backend/app/repositories/broadcasts.py:322-356 | exactly the ads paused for a wait with a target that is due resume |
| AdStore.Store.Queue | backend/app/services/broadcast.py:126-153 | refused without effect, or the ad is sending and each pending target has the time of its place |
| AdStore.Store.Cancel | backend/app/services/broadcast.py:162-182 | is the cancel step of the machine: the ad is cancelled, its unfinished targets are skipped, everything else is unchanged |
| AdStore.Store.RequeueFailed | backend/app/repositories/broadcasts.py:560-573 | row by row: failed, ambiguous and dead targets of the ad become pending and due now with no attempts and no owner; every other row is unchanged |
| AdStore.Store.RetryUnfinished | backend/app/services/broadcast.py:185-200 | true exactly if something did not arrive; then the ad is sending, each such target waits with no attempts at the time of its place, everything else is as it was and something waits; otherwise nothing changes |
| AdStore.RetryIsStep | backend/app/services/broadcast.py:185-200 | that is the retry step of the machine |
| AdStore.Store.Settle | backend/app/services/broadcast.py:413-472 | settles as the machine does; true exactly when the ad is finished for good |
| AdStore.Store.ReportRound | backend/app/services/broadcast.py:475-513 | one notification with the round's number if the round had any group |
| AdStore.Store.Finish | backend/app/repositories/broadcasts.py:382-396 | the one target gets its final status and gives up its lease |
| AdStore.Store.Reschedule | backend/app/repositories/broadcasts.py:399-413 | the one target waits for the delay with one attempt more and no lease |
| AdStore.Store.Heartbeat | backend/app/repositories/broadcasts.py:293-300 | the owner's target gets the new expiry and keeps everything else; every other row is unchanged |
| AdStore.Store.PauseAds | backend/app/services/safety.py:105-120 | every sending ad of the connection pauses with the reason, and no other |
| AdStore.Store.PauseConnection | backend/app/services/safety.py:74-123 | unless already paused: ads pause and unstarted targets of all ads of the connection are cancelled |
| AdStore.Store.CommitReport | backend/app/services/broadcast.py:361-410 | what is written after a post, down to settling, is the commit of the machine, which `AdEffects.CommitWrites` gives column by column |
| Admission.AdmittedExactly | backend/app/worker.py:365-394 | greedy admission gives each connection the smaller of what it asked for and what room was left |
| Admission.TakenFits | backend/app/worker.py:365-394 | no more rows are taken on a connection than there was room for |
| Admission.KeptExactly | backend/app/worker.py:365-394 | a row of the batch is kept exactly when it is admitted: accepted and released split the batch |
| Admission.KeptFromFront | backend/app/worker.py:365-394 | everything kept comes from the batch |
| Pacing.PacingBucket.Acquire | backend/app/security/ratelimit.py:102-144 | the level and the wait after one request |
| Pacing.PacingBucket.Expire | backend/app/security/ratelimit.py:102-133 | a bucket unused for the whole expiry is forgotten, any other is untouched |
| Pacing.Pace | backend/app/worker.py:47-60 | the levels of both buckets afterwards; both waits are slept out in full if and only if neither level is so far below nothing that the cap cuts |
| Pacing.WaitBounded | backend/app/security/ratelimit.py:102-160 | in time, tokens stay between none and the capacity, and a wait is at most 1/refill, at most 3 seconds for every bucket built |
| Pacing.StaysBacked | backend/app/security/ratelimit.py:102-144 | a late request can take the level below nothing, but never by more than flows in by the latest time |
| Pacing.LateWait | backend/app/worker.py:47-60 | a request late by at most some slack waits at most 1/refill plus that slack |
| Pacing.CutExactly | backend/app/worker.py:60 | a wait exceeds the cap exactly when the level is below 1 minus thirty seconds of refill |
| Pacing.LateUncut | backend/app/worker.py:47-60 | no request at most 27 seconds late is cut short, on any bucket built |
| Pacing.WaitsOneTokenExactly | backend/app/security/ratelimit.py:102-144 | a wait is at most 1/refill if and only if the bucket is new or its level at the time of the request is not below nothing |
| Pacing.LateWaitsLonger | backend/app/worker.py:47-60 | for every delay, a sequence of requests on a new connection bucket whose last one comes that late and waits exactly that much longer than 1/refill |
| Pacing.WaitsBounded | backend/app/security/ratelimit.py:102-144 | in every sequence of requests each wait is at most 1/refill plus the slack |
| Pacing.GrantsBounded | backend/app/security/ratelimit.py:102-144 | zero-wait grants in any stretch are at most the capacity plus the refill over the time elapsed and the slack |
| Pacing.BucketsAllow | backend/app/security/ratelimit.py:147-160 | in time, a group gets at most 20 grants and 20 a minute, a single chat 5 and one a second, a connection 30 and 30 a second |
| Pacing.FirstBurst | backend/app/security/ratelimit.py:102-144 | a new bucket grants any number of requests up to its capacity at once, and is left with the rest |
| Pacing.TokensAccountedFor | backend/app/security/ratelimit.py:102-144 | grants plus tokens left never exceed a full bucket plus the refill, whatever the clock does |
| Pacing.ExpiryUnobservable | backend/app/security/ratelimit.py:147-160 | losing a bucket to its 3600-second expiry changes neither level nor wait |
| Pacing.ForgettingNeverShows | backend/app/security/ratelimit.py:147-160 | over any sequence of requests a store that forgets is indistinguishable from one that does not |
| RateLimit.Limiter.Check | backend/app/security/ratelimit.py:73-92 | counts, answers, and starts a window if none is open |
| RateLimit.WindowAllowsLimit | backend/app/security/ratelimit.py:73-92 | of the requests of one window exactly the first `limit` pass |
| RateLimit.LessThanTwiceTheLimit | backend/app/security/ratelimit.py:73-92 | any stretch shorter than the window passes at most 2 × limit − 1 |
| RateLimit.BoundIsMet | backend/app/security/ratelimit.py:73-92 | for every limit and every window of at least two seconds, a sequence that reaches that bound |
| AutoReply.ReplyLog.ClaimSlot | backend/app/repositories/autoreply.py:67-107 | claims exactly when the last reply is older than the cooldown |
| AutoReply.ReplyLog.ReleaseSlot | backend/app/repositories/autoreply.py:115-150 | a first claim leaves no trace, a repeated one is parked in the past with its count lowered |
| AutoReply.ReplyLog.Purge | backend/app/repositories/autoreply.py:153-158 | deletes exactly the entries older than the retention, and counts them |
| AutoReply.Responder.HandleIncoming | backend/app/services/autoreply.py:76-149 | which guard answers, what the log becomes, and that the counter grows only with a send |
| AutoReply.BouncedReplyFrees | backend/app/repositories/autoreply.py:115-150 | a failed reply restores the count and leaves the person free: at once if there was no reply before, else as long as the cooldown fits between 1970 and now |
| AutoReply.ClaimTakesSlot | backend/app/repositories/autoreply.py:67-107 | a delivered reply keeps the slot taken until more than the cooldown has passed |
| AutoReply.PurgeRemoves | backend/app/repositories/autoreply.py:153-158 | exactly the entries more than thirty days old go |
| AutoReply.DeliveredKeepsOff | backend/app/repositories/autoreply.py:67-158 | in any history, a committed reply is followed by no other to that person within the cooldown, if that is no longer than the retention, even when crashes forget replies |
| AutoReply.RepliesSpaced | backend/app/repositories/autoreply.py:67-158 | so any two replies to one person, none of them lost, are more than the cooldown apart |
| AutoReply.SpacedExactlyWithinRetention | backend/app/scheduler.py:166-169 | histories are all spaced if and only if the cooldown is no longer than the retention |
| AutoReply.LongCooldownForgotten | backend/app/scheduler.py:166-169 | a history that breaks any longer cooldown |
| AutoReply.LostSendNotSpaced | backend/app/services/autoreply.py:118-149 | a crash between a send and its commit can answer a person twice |
| AutoReply.CountIsReplies | backend/app/repositories/autoreply.py:67-150 | without purges a row's count is exactly the replies that reached the person, and there is a row exactly if there was one |
| Idempotency.BuildKey | backend/app/domain/idempotency.py:24-49 | refuses exactly an empty list of ids, otherwise the key of the route with the lowest id |
| Idempotency.Lowest | backend/app/domain/idempotency.py:24-49 | the anchor is the least id |
| Idempotency.MaterialInjective | backend/app/domain/idempotency.py:24-49 | equal key material means equal rule, source peer, anchor and destination peer |
| Idempotency.ArrivalOrderIrrelevant | backend/app/domain/idempotency.py:24-49 | an album in another arrival order has the same key |
| Idempotency.MaterialSays | backend/app/domain/idempotency.py:38-48 | the joined material, field by field, with the names of the peer kinds |
| Packing.Chunks | backend/app/services/archive.py:325-337 | the messages are the greedy packing, rendered |
| Packing.NothingLost | backend/app/services/archive.py:325-337 | every line is packed once, in order |
| Packing.EveryMessageFits | backend/app/services/archive.py:325-337 | every message is within budget when each line fits alone under the continued header |
| Packing.GreedyIsMinimal | backend/app/services/archive.py:325-337 | no contiguous packing of the same lines under the same headers within the budget uses fewer messages |
| Packing.RenderSays | backend/app/services/archive.py:325-337 | a message is its heading, continued ones marked so, and each line after a blank one |
| Packing.MessagesFit | backend/app/services/archive.py:325-337 | no message exceeds 3600 characters when the header and each line below the continued header do not |
| Markdown.Escape | backend/app/adminbot/views.py:2307-2328 | the loop builds the escaped text |
| Markdown.Preview | backend/app/adminbot/views.py:2331-2354 | the escaped longest prefix that fits: every longer prefix, escaped, exceeds the limit; and how many characters were cut |
| Markdown.UnescapeEscape | backend/app/adminbot/views.py:2307-2328 | reading escaped text back gives the text |
| Markdown.NoDanglingBackslash | backend/app/adminbot/views.py:2331-2354 | escaped text, and so any preview, ends in an even number of backslashes |
| Markdown.EscapedIsWell | backend/app/adminbot/views.py:2304-2328 | each of the nineteen marks stands behind a backslash, and no other character does |
| Interval.Accumulate | backend/app/adminbot/handlers.py:1407-1417 | the loop over the matches sums what is read and refuses anything in between, for any way of scanning and reading |
| Interval.ParseInterval | backend/app/adminbot/handlers.py:1399-1426 | the loop over matches computes what the grammar says, or refuses |
| Interval.IntervalLabel | backend/app/adminbot/views.py:2265-2279 | the printed label |
| Interval.RoundTrip | backend/app/adminbot/handlers.py:1399-1426 | for every natural number of minutes, parsing the printed label gives back the seconds |
| IntervalGrammar.AmountParses | backend/app/adminbot/handlers.py:1396-1426 | one amount is worth its number, whole or decimal, times its unit, any of the ten or hours when there is none, with blanks before the unit or not |
| IntervalGrammar.DecimalsRead | backend/app/adminbot/handlers.py:1396-1416 | a decimal is its digits without the point over ten to the number of those after it |
| IntervalGrammar.NumbersParse | backend/app/adminbot/handlers.py:1396-1426 | a bare number counts hours, a number with a unit that unit |
| IntervalGrammar.MustStartWithDigit | backend/app/adminbot/handlers.py:1407-1417 | a text that does not start with a digit, blanks aside, is refused |
| IntervalGrammar.JunkIsRefused | backend/app/adminbot/handlers.py:1407-1417 | a number followed by something that is no unit is refused |
| IntervalGrammar.PaddedParses | backend/app/adminbot/handlers.py:1399-1408 | blanks around a time do not matter |
| IntervalGrammar.CapitalsParse | backend/app/adminbot/handlers.py:1399-1408 | nor do capitals |
| IntervalGrammar.LabelSays | backend/app/adminbot/views.py:2265-2279 | the label has its hours and its minutes, singular or plural, each left out when there are none |
| Utf16.DecodeEncode | backend/app/adminbot/handlers.py:2327-2342 | decoding undoes encoding, surrogate pairs included |
| Utf16.SliceDecodes | backend/app/adminbot/handlers.py:2327-2342 | the units where a piece of text stands decode to that piece |
| Utf16.UnitsOfChar | backend/app/adminbot/premium_icons.py:120-154 | a character of the basic plane is one unit, any other a high and a low surrogate that give it back |
| EmojiMarkup.MarkupRoundTrips | backend/app/adminbot/premium_icons.py:84-106 | stripping what was applied gives back the text, and its entities are exactly the leftmost-longest mapped occurrences |
| EmojiMarkup.CutUndoesApply | backend/app/adminbot/premium_icons.py:84-106 | the reader recognises exactly the tokens that were written, and nothing across them |
| EmojiMarkup.OccurrencesPoint | backend/app/adminbot/premium_icons.py:120-154 | the entities are ordered and disjoint, and each UTF-16 slice decodes to its mapped emoji with its id |
| EmojiMarkup.AlternationTakesLongest | backend/app/adminbot/premium_icons.py:100-101 | an alternation that tries longer keys first takes the longest key, however equal lengths are ordered |
| EmojiMarkup.TokenSays | backend/app/adminbot/premium_icons.py:84-101 | the markup of one emoji as Telegram spells it |
| EmojiMarkup.ParseEntities | backend/app/adminbot/premium_icons.py:120-154 | the loop produces the stripped text and its entities |
| EmojiMarkup.CustomEmojiPairs | backend/app/adminbot/handlers.py:2327-2342 | for any entities: fails exactly if some slice is not text; otherwise pairs each text pointed at with the id of the last entity there, and nothing else |
| EmojiMarkup.PairsAreMapped | backend/app/adminbot/handlers.py:2327-2342 | when the entities stand at mapped emoji, those pairs are the mapping's and cover every entity |
| EmojiMarkup.EmojiThereAndBack | backend/app/adminbot/handlers.py:2327-2342 | marking up, parsing and reading the pairs back gives pairs of the mapping, one for every occurrence |

## Left out

- Adapters, routes, migrations, cryptography, logging, screens, conversation handlers and notification texts: I/O or thin wrappers.
- `purge_terminal`: deleting 30-day-old rows removes the evidence that suppresses duplicates; no statement here covers a run with it.
- Deleting rules, ads and connections, disconnecting, and the login flow: a connection's status after a login is a choice of the environment (`Login`).
- Redis failures: both limiters then let everything through.
- Floating-point rounding: tokens are reals, waits are integers of microseconds.
- Stale reads other than the ad's status and the connection's: settling uses the repeat, the delay and the round counter of the current row.
- More than one health loop at a time: loading the connections replaces what was loaded before.
- `reset_rate_limit`: deleting the counter starts a new window.
- The message filters and the dispatch cursor: which destinations are eligible is a parameter of intake.
- Liveness: a sending ad with no remaining target is reachable, because the ambiguous branch does not settle.
- The other guards of a job (deleted or protected chats, access checks) and of a target: any job in hand may be refused, and only the guards on connection, rule, version and ad status are known to hold when a message is sent.
- AdStore.Store.AdmitNext: the branch that skips a target whose ad is gone, which the foreign key of the targets excludes.
- AdStore.Store.ClaimWithinLimits: the same branch.
- The archive's storing of rounds, and everything but `_chunks` of it.
- `_typed_emoji_pairs`, labels, button icons, and the module-wide emoji map with its suspension: the mapping is a parameter.
- Guarantees.SendsAccountedFor: an ambiguous outcome counts as landed, as nobody can tell.
- Guarantees.OnePostPerRound: an ambiguous post is not counted as confirmed.
- Waits.TargetWaitObeyed: per target and between customer actions; an ad paused for a wait may resume earlier for another of its targets.
- Interval.ParseInterval: `\d` and `\s` are the ASCII digits and blanks, and no amount overflows.
- EmojiMarkup.ParseEntities: plain characters are copied one at a time, not in blocks; ids are ASCII digits.
- EmojiMarkup.MarkupRoundTrips: for text without `![`, non-empty keys without `!`, `[` or `]`, and ids of digits, as the claim is made for.
- Pacing.ForgettingNeverShows: for requests in time; the level of a bucket is read and written in one script.
- RateLimit.LessThanTwiceTheLimit: the time to live that the store reports is exact, in whole seconds.
- AutoReply.RepliesSpaced: the cooldown does not change during the history, and no reply to the person is lost to a crash (`DeliveredKeepsOff` and `LostSendNotSpaced` say what holds then).
