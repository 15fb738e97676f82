# AFC gate control: a verified model

A station's gate controller keeps gates, tickets, rules, an event log and passage
statistics, changed by concurrent request handlers and background loops. This
project models that state in Dafny and proves what holds of it over whole runs.

Each component appears twice. A class performs the operations in place, as the
original does, and its methods are proved to have the effect of functions on values.
The step systems of the concurrent parts are built from those functions; where an
operation is several steps there (Open and Close, a heartbeat, an upgrade, a snapshot
tick, an entry swipe), a lemma shows that the method's effect is the run of those
steps with nothing in between. The main results are lemmas about arbitrary sequences
of steps: a label that does not apply changes nothing, so a lemma about all label
sequences is one about every interleaving.

| file | what it holds |
|---|---|
| `Gates.dfy` | the locked gate status store and its invariant over runs |
| `Actuation.dfy` | Open and Close as a concurrent protocol with any number of calls in flight; lone calls and serial runs |
| `Controller.dfy` | the controller's methods on the objects |
| `Heartbeat.dfy` | heartbeats as a last-writer-wins register |
| `Decimal.dfy` | decimal printing and parsing of 64-bit integers |
| `EventLog.dfy` | the event log: line format, parser, torn tails, files and handles |
| `Restart.dfy` | entry swipes, the log and the channel totals across restarts and failed appends |
| `Passage.dfy` | the passage counter and the session ledger |
| `Stats.dfy` | channel statistics and snapshot registry |
| `Rules.dfy` | rules, notifications and caches |
| `Dedup.dfy` | the de-duplication window |
| `Tickets.dfy` | the ticket store and its files under failures and crashes |
| `Journey.dfy` | a ticket's life through entry and exit swipes |
| `Schedule.dfy` | the scheduler's pass |
| `Server.dfy` | a swipe request and a snapshot tick |
| `Maps.dfy` | shared vocabulary |

`dafny verify dfyconfig.toml` checks everything.

Lemmas named after an effect (`EnterEffect`, `HeartbeatEffect`, `SaveEffect` and so on)
say field by field what an operation leaves behind and when it is refused, in the
operation's own inputs rather than through the function that computes it.

Where a natural claim is false of the code, the exact condition is proved instead:

- Ownership of a moving gate is kept by a step if and only if the step is not the
  recovery that follows a failed re-check and finds the gate moving
  (`StepKeepsExclusiveIff`); such a step is reachable (`OwnershipCanBeLost`).
- "Online exactly when no offline time is recorded" is kept by a write if and only
  if it does not take an online gate offline at time zero (`WriteKeepsValidIff`).
- All complete deliveries of a gate's heartbeats end with one flag if and only if no
  heartbeat of the latest time can undo another (`OrderIsForgottenIff`); one that can
  has the last word when it comes last (`LastOfTheTopWins`).
- The event log gives back what was recorded if and only if no field holds a tab or
  newline and every time fits 64 bits (`RoundTrip`).
- An entry appended to a torn line adds one to the count if and only if the cut fell in
  the time and the two times together still read as one, or in the gate's name and the
  new gate is called "entry", or in the payload of an entry (`EntryAfterTornTailIff`).
- A restart lowers a channel if and only if more entry lines were left unwritten than
  swipes are under way or lost (`RestartLowersIff`).
- Agreement of the subscribed caches with the store is kept by a step if and only if it
  neither brings a superseded rule to a cache that no later delivery will correct nor
  subscribes a cache that has missed an upgrade (`StepKeepsAgreeingIff`). Both happen,
  and leave a stale cache with no upgrade under way (`DeliveryOrderDecides`,
  `LateSubscriptionLeavesStale`).
- A closed cache is frozen if and only if no delivery that had listed it still has
  something new for it (`ClosedCacheFrozenIff`).
- The de-duplication window answers as its history says if and only if the key is not
  at once live and dropped by a sweep or check that read a clock past its expiry
  (`AnswerIsHistoryIff`), for instance one that overtook the check (`OvertakenCheck`).
- A ticket leaves the state Exited if and only if it is swiped out again, or a restart
  finds another state on disk (`ExitedEndsIff`). Of two swipes that both looked a
  ticket up unused, and are validated one after the other, the second is stopped by
  the window until that has run out and not after (`StaleCopyAdmittedIff`).
- An entered ticket shows its last accepted entry if and only if the entry that took it
  there was written to its file (`TicketCarriesItsJourney`); one that was not still shows
  in memory (`UnsavedEntryShows`).
- A heartbeat leaves its gate as it was if and only if it is older than the last write or
  carries a positive number below the gate's record number (`HeartbeatEffect`).
- A counter rebuilt from the ledger misses only the running session if and only if
  no passage landed between the latest snapshot and its reset
  (`RestoreLosesOnlyTheSession`); one that does is lost (`PassageDuringTickIsLost`).
- A scheduler pass settles if and only if no entry has both times due
  (`OnePassSettlesIff`).
- `int64String` reads back as its argument if and only if that is not the least
  64-bit integer, `itoa` if and only if it is not negative.

## Model

| member | source | states |
|---|---|---|
| Actuation.NoStuckGate | internal/gate/gate.go:113-173 | in every interleaving of any number of Open and Close calls, a gate that is Opening has an Open in flight between its claim and its resolving step, and Closing likewise; with no call in flight every gate is Closed or Open |
| Actuation.GatesComeToRest | internal/gate/gate.go:113-173 | from any attended state, once each call in flight has had seven turns and no new call came, no call is left and every gate is at rest |
| Actuation.CallReturns | internal/gate/gate.go:113-173 | a call's own turns bound its life: after at most seven of them it has returned, whatever the others do |
| Actuation.StepKeepsExclusiveIff | internal/gate/gate.go:116-140 | from a state where openers and closers in phase number exactly the Opening and Closing states of their gate, a step keeps that if and only if it is not the post-re-check recovery of a moving gate |
| Actuation.ExclusiveOwnership | internal/gate/gate.go:113-173 | hence every run without such a step keeps exclusive ownership of every moving gate |
| Actuation.OwnerSucceeds | internal/gate/gate.go:121-136 | under exclusive ownership no two calls in phase share a gate, and the owner's second SetState and its recovery are always accepted |
| Actuation.OwnershipCanBeLost | internal/gate/gate.go:137-140 | a schedule from a fresh plant puts a closer and an opener in phase on one gate at once, through a failed re-check |
| Actuation.StartIsOwned | internal/gate/state.go:66-70 | a fresh plant is attended, exclusively owned, and without calls |
| Actuation.PassagesAccounted | internal/gate/gate.go:134-142 | in every interleaving the moves of a gate into Open equal the growth of its total, plus the change in openers on their way to Count, plus those skipped by the re-check or by Count's own guard |
| Actuation.SerialTotalsCountOpens | internal/gate/gate.go:113-145 | in serial runs the total of a gate grows by exactly the Open calls that returned nil, and a gate at rest stays at rest |
| Actuation.JobMoves | internal/gate/gate.go:113-173 | one lone call, seen from one gate: when it returns nil, where it leaves the state, and what it adds to the total; nothing of other gates |
| Actuation.LoneCallsAreRuns | internal/gate/gate.go:113-173 | the closed forms OpenAlone and CloseAlone are what the step system does when only that call takes turns |
| Actuation.AdvanceMoves | internal/gate/gate.go:113-173 | a call's step moves only its own gate's state and its own program counter |
| Actuation.AdvanceStamps | internal/gate/gate.go:113-173 | a call's step that writes the gate stamps it with the time read at that step and the next record number; the state never moves without it |
| Actuation.AdvanceReturns | internal/gate/gate.go:113-173 | exactly at which steps a call returns: an Open with nil after its confirmation alone, a Close when it closed the gate itself, an error everywhere else |
| Actuation.NilOpensAccounted | internal/gate/gate.go:113-145 | in every interleaving the Opens that returned nil are the growth of the total and the counts skipped by Count's own guard, less those counted but not yet confirmed |
| Actuation.FaultsAccounted | internal/gate/gate.go:121-133 | in every interleaving a gate's faults grow by the failed actuations and confirmations of its calls and by the faults others report, less those not yet recorded |
| Actuation.JobLeaves | internal/gate/gate.go:113-173 | what else a lone call leaves: a fault exactly when it claimed the gate and failed, the confirmation time, the last write's time, how many record numbers it used |
| Controller.Controller.constructor | internal/gate/gate.go:33-63 | the counter reads the controller's own gates |
| Controller.Controller.Open | internal/gate/gate.go:113-145 | store, counter and result are those of an uninterrupted run of the protocol; a reader of the log finds one more event, of kind open or open-failed with the actuator's error as payload, and none after a refused claim or a sensor time-out |
| Controller.Controller.Close | internal/gate/gate.go:147-173 | likewise for Close, with close and close-failed |
| Controller.Controller.HandleEntry | internal/gate/gate.go:75-87 | tickets, window and result are those of the serial entry; after an accepted entry a reader of the log finds one more event, of kind entry with the ticket as payload, and after a refused one none |
| Controller.Controller.HandleExit | internal/gate/gate.go:89-111 | tickets, window and result are those of the serial exit; a failure of a known ticket is a fault of the gate; a reader of the log finds one more event of kind exit or exit-failed with the ticket as payload, and none for an unknown ticket |
| Gates.WriteFrame | internal/gate/state.go:91-180 | a write touches one gate; the state moves only along the allowed graph or by recovery, connectivity and faults only by their own writes |
| Gates.UnknownGate | internal/gate/state.go:72-83 | a gate never written is closed, online, and zero in every other field |
| Gates.StateWriteEffect | internal/gate/state.go:91-117 | a transition goes through exactly along Closed, Opening, Open, Closing, Closed, a recovery exactly from the two moving states; every field after each |
| Gates.PollEffect | internal/gate/state.go:119-133 | every field after a poll, and that a time-out is the same as a poll that found the gate offline |
| Gates.FaultAndReadEffect | internal/gate/state.go:135-144 | every field after a fault; a read leaves all as it was |
| Gates.HeartbeatEffect | internal/gate/state.go:146-166 | a heartbeat leaves the gate as it was if and only if its time is before the last write or its number is positive and below the gate's record number; every field after one that goes through |
| Gates.AcceptedWriteAdvances | internal/gate/state.go:91-180 | an accepted write gives its gate a record number above every other and its own time, a refused one changes nothing; a heartbeat never moves the update time back |
| Gates.WriteKeepsNumbering | internal/gate/state.go:91-180 | nonzero record numbers are pairwise distinct and at most the sequence, after any write |
| Gates.WriteKeepsValidIff | internal/gate/state.go:119-180 | the store invariant is kept if and only if the write does not take an online gate offline at time zero |
| Gates.RunsStayValid | internal/gate/state.go:91-180 | over every run of writes with nonzero times the invariant holds and no gate's record number goes down |
| Gates.OfflineEpisode | internal/gate/state.go:119-180 | a gate offline at the end of a run went offline at one write of it and stayed so, and OfflineSince is that write's time throughout |
| Gates.GateStore.constructor | internal/gate/state.go:66-70 | no gate known, sequence zero |
| Gates.GateStore.EnsureEntry | internal/gate/state.go:72-83 | an unknown gate appears closed and online, a known one is left as it is |
| Gates.GateStore.Status | internal/gate/state.go:85-89 | reads a status, creating it if needed |
| Gates.GateStore.SetGateState | internal/gate/state.go:91-103 | the new store value and whether the transition was legal |
| Gates.GateStore.RecoverToClosed | internal/gate/state.go:105-117 | closes a moving gate, refuses one at rest |
| Gates.GateStore.ApplyPoll | internal/gate/state.go:119-133 | the new store value after a poll |
| Gates.GateStore.RecordFault | internal/gate/state.go:135-144 | the new store value after a fault |
| Gates.GateStore.WriteHeartbeat | internal/gate/state.go:146-166 | the new store value, with the two staleness guards |
| Gates.GateStore.ApplyOffline | internal/gate/state.go:168-180 | the new store value after a time-out |
| Gates.GateStore.IsOpen | internal/gate/state.go:192-194 | true exactly when the gate's state is Open |
| Heartbeat.HeartbeatsConverge | internal/heartbeat/heartbeat.go:76-90 | in every arrival order and interleaving of the three steps, once a latest heartbeat of a gate is handled, applied and UpdatedAt are its time, and Online its flag when no heartbeat of the same time says otherwise with a number the store had not given out; if the gate was newer than all, it is unchanged |
| Heartbeat.RunConverges | internal/heartbeat/heartbeat.go:76-90 | what holds of the gate at every point of such a delivery |
| Heartbeat.HandledIsARun | internal/heartbeat/heartbeat.go:76-90 | one heartbeat's three steps in a row equal the closed form |
| Heartbeat.HandledEffect | internal/heartbeat/heartbeat.go:76-90 | which heartbeats are ignored and every field of the gate after one that is not |
| Heartbeat.EchoIsTaken | internal/gate/state.go:150-155 | a heartbeat that sends back the last answered record number goes through if its time is not earlier and nobody else wrote the gate, whatever happened to other gates; one with a smaller number or an earlier time does not |
| Heartbeat.OrderIsForgottenIff | internal/heartbeat/heartbeat.go:76-90 | all complete deliveries leave the latest heartbeat's flag if and only if every heartbeat of that time has the same flag or a positive number, when none of them has a number above the store's sequence |
| Heartbeat.LastOfTheTopWins | internal/heartbeat/heartbeat.go:79-86 | any latest heartbeat without a number, handled after all the others, leaves its own flag |
| Heartbeat.Monitor.ApplyHeartbeat | internal/heartbeat/heartbeat.go:76-90 | store and applied times are those of the three steps in a row; the answered status is the one from before exactly for a late, outdated or lower-numbered heartbeat, and otherwise carries its flag, its time and the next record number |
| Heartbeat.Monitor.Check | internal/heartbeat/heartbeat.go:45-74 | a gate goes offline and its time-outs grow exactly when it was seen too long ago; critical from the second on; an unseen gate never times out |
| Heartbeat.Monitor.Ingest | internal/heartbeat/heartbeat.go:39-43 | the last time seen |
| Decimal.PrintThenParse | internal/gate/events.go:38 | a printed integer parses back to itself exactly when it fits 64 bits |
| Decimal.CanonicalIsPrinted | cmd/afc/handlers.go:218-235 | a text is canonical and parses to v if and only if it is the printed form of v and v fits 64 bits |
| Decimal.PositiveDigits | cmd/afc/handlers.go:166-171 | the digit loop yields the canonical digits of a positive value and nothing otherwise |
| Decimal.Itoa | cmd/afc/handlers.go:162-172 | reads back as its argument if and only if that is not negative, and then it is canonical |
| Decimal.Int64String | cmd/afc/handlers.go:218-235 | canonical for every 64-bit value but the least, where negation wraps and a bare minus comes out; reads back if and only if it is not that one |
| EventLog.RoundTrip | internal/gate/eventstore.go:86-106 | parsing the lines of a sequence of events gives that sequence if and only if every field is free of tabs and newlines and every time fits 64 bits |
| EventLog.ParsedIsClean | internal/gate/eventstore.go:86-106 | whatever the file holds, every parsed event could be written back |
| EventLog.LogGrowsByOne | internal/gate/events.go:38-43 | appending the line of a clean event to a log that ends in a newline appends exactly that event |
| EventLog.ParseAppends | internal/gate/eventstore.go:87-106 | parsing distributes over any line boundary |
| EventLog.NeighboursUndisturbed | internal/gate/eventstore.go:87-98 | a complete line, however malformed, leaves the events before and after it as they are |
| EventLog.TornTail | internal/gate/eventstore.go:87-106 | cut at any point, a log of clean lines yields every event whose line is complete and at most one more, which differs only in a shortened fingerprint |
| EventLog.TornLine | internal/gate/eventstore.go:91-105 | a cut line yields nothing up to its fourth tab and the event with the remaining fingerprint after it |
| EventLog.GluedLine | internal/gate/eventstore.go:91-105 | a line written after a torn one parses with it to at most one event, whose kind is the new line's, its gate, a text ending in a digit, or the torn line's, by the field the cut fell in |
| EventLog.EventFileStore.OpenForAppend | internal/gate/eventstore.go:28-38 | creates a missing file and takes the gate's handle slot, or changes nothing |
| EventLog.EventFileStore.AppendLine | internal/gate/eventstore.go:40-49 | the file grows by what was written; success means the whole line |
| EventLog.EventFileStore.CloseHandle | internal/gate/eventstore.go:51-63 | frees the gate's slot in every case |
| EventLog.EventFileStore.Events | internal/gate/eventstore.go:71-108 | the loop returns the parse of the gate's file, and nothing for a missing one |
| EventLog.EventRecorder.Record | internal/gate/events.go:26-48 | no handle stays behind, other logs are untouched, success means the line is there, and then a clean event is what the parse gains |
| Restart.RestartLowersIff | cmd/afc/server.go:92-102 | at every point of every run with restarts and failed appends, the total rebuilt for a registered gate's channel is the number of entries in its log; it is less than total and pending were if and only if more entries were left unwritten than swipes are under way or lost |
| Restart.RestartNeverLowers | cmd/afc/server.go:92-102 | when every entry line was written, the rebuilt total is never less than the total and pending before |
| Restart.EntriesAccounted | cmd/afc/handlers.go:99-116 | the entries in a gate's log and those whose append failed are together exactly those counted or pending, those under way, and those whose gate failed to open since the last restart |
| Restart.CrashWhileAppending | cmd/afc/server.go:94-102 | a restart after a crash in the middle of a line gives at least the recorded entries and at most one more |
| Restart.EntryAfterTornTailIff | internal/gate/eventstore.go:91-103 | for every cut of every clean line and every clean line after it, what the two add to a log; an entry adds one exactly when the cut fell in the time and the times together still read, or in the gate and the new gate is called entry, or in the payload of an entry |
| Restart.SwipeAloneIsARun | cmd/afc/handlers.go:99-116 | the closed form Swiped is the run of one swipe's steps with nothing in between, from any state |
| Restart.SwipeOrder | cmd/afc/handlers.go:111-116 | a swipe counts only after its gate opened, and once; a failed opening ends it as lost |
| Restart.RebuiltTotals | cmd/afc/server.go:94-102 | the replay adds the entries of its own gate's log to each registered channel, on top of what was there |
| Restart.ReplayAll | cmd/afc/server.go:94-102 | the loops over gates and events compute that rebuilt state: each registered gate's channel, "CH-" and its name, gains the entries of its own log |
| Restart.ReplayGate | cmd/afc/server.go:97-101 | the inner loop replays one gate's events |
| Passage.SessionsConserveTotals | internal/passage/passage.go:60-117 | in every interleaving, total minus session minus what resets discarded never changes |
| Passage.RunsStayBalanced | cmd/afc/server.go:173-176 | at every point total minus gap equals the latest saved count plus session, or the held snapshot during a tick |
| Passage.RestoreLosesOnlyTheSession | internal/passage/passage.go:133-143 | between ticks a restored fresh counter misses exactly the session and the gap, and the session alone if and only if the gap is zero |
| Passage.PassageDuringTickIsLost | cmd/afc/server.go:175-176 | a passage between a tick's snapshot and its reset is counted in the total and in neither the saved nor the running session |
| Passage.SavedSnapshotsRise | internal/gate/session.go:20-37 | saved sessions are numbered in order, the latest is the last, and their counts never go down |
| Passage.CounterEffect | internal/passage/passage.go:60-75 | a passage adds one to its own gate's total and session if the gate is open; confirmation and reset touch no total |
| Passage.SaveEffect | internal/gate/session.go:20-37 | name, counts, end and number of a saved session |
| Passage.RestoreEffect | internal/passage/passage.go:133-143 | restoring what was saved from one counter gives another the saved totals and an empty session, and leaves gates unknown to the snapshot alone |
| Passage.TickSteps | cmd/afc/server.go:173-176 | what was counted at the first step of a tick is saved at the second under its name and time, and the third empties the session |
| Passage.PassageCounter.CountPassage | internal/passage/passage.go:60-69 | total and session grow together exactly when there is no reader or the gate is open |
| Passage.PassageCounter.ConfirmPassage | internal/passage/passage.go:71-75 | the confirmation time |
| Passage.PassageCounter.SetStateReader | internal/passage/passage.go:54-58 | the reader in use |
| Passage.PassageCounter.Snapshot | internal/passage/passage.go:95-103 | a copy of the totals |
| Passage.PassageCounter.Restore | internal/passage/passage.go:105-111 | the given totals replace those of their gates, the others stay |
| Passage.PassageCounter.ResetSession | internal/passage/passage.go:113-117 | sessions empty, totals kept |
| Passage.SessionLedger.Save | internal/gate/session.go:20-37 | one more numbered session, now the latest |
| Passage.Recovery.Restore | internal/passage/passage.go:133-143 | restores the latest named session and empties the running one, or does nothing |
| Stats.AmountsConserved | internal/passage/passage.go:185-210 | between recoveries totals plus pending equal the start plus everything recorded and replayed on a channel without a positive count; one with a positive count keeps its total |
| Stats.FlushSettles | internal/passage/passage.go:200-210 | a flush moves all pending into the total and a second one moves nothing |
| Stats.RecoveryRestoresOne | internal/passage/passage.go:167-183 | a recovery restores the channel of the last snapshot and no other |
| Stats.CountsStayZero | cmd/afc/server.go:173-180 | over every run in which snapshots feed back the service's own counts all counts stay zero, snapshots are numbered in order, and the index holds the last of each channel |
| Stats.SnapshotEffect | internal/gate/channel.go:22-36 | every field of a snapshot; it becomes its channel's last and no other's |
| Stats.RecoveryEffect | internal/passage/passage.go:167-183 | count, total and number come from the last snapshot, pending of its channel goes, nothing else moves |
| Stats.AmountEffect | internal/passage/passage.go:185-198 | a recorded amount waits and a replayed one counts at once, each on its own channel; no replay on a channel with a positive count |
| Stats.StatsService.RecoverLatest | internal/passage/passage.go:167-183 | the recovered state, also for a snapshot without a channel name and an empty history |
| Stats.StatsService.RecordPassage | internal/passage/passage.go:185-189 | the amount is pending |
| Stats.StatsService.ReplayPassage | internal/passage/passage.go:191-198 | the amount is counted unless the channel has a positive count |
| Stats.StatsService.FlushPending | internal/passage/passage.go:200-210 | the same totals whatever order the channels are visited in |
| Stats.ChannelRegistry.SnapshotChannel | internal/gate/channel.go:22-36 | one more numbered snapshot, last in the history and in its channel's index |
| Stats.ChannelRegistry.LatestChannelSnapshot | internal/gate/channel.go:38-45 | the last snapshot taken, if any |
| Stats.ChannelRegistry.SnapshotOf | internal/gate/channel.go:55-63 | the channel's last entry of the history, if any |
| Rules.CachedRulesAreGenuine | internal/ticket/ticket.go:230-256 | in every interleaving the rule applied at a gate was stored for its group or the default one, is no newer than the store's, and is the store's own when its version is current; it always exists |
| Rules.RuleAllows | internal/rule/rule.go:20-52 | a transferable ticket needs the transfer flag, another the single flag; the two initial rules set both |
| Rules.CacheStages | internal/ticket/ticket.go:230-263 | a cache is built, subscribed and closed once each, in that order, and nothing else moves it between those stages |
| Rules.StepKeepsAgreeingIff | internal/rule/rule.go:121-133 | whatever overlaps, a step keeps every subscribed cache equal to the store or promised what it lacks if and only if it is neither the delivery of a superseded rule to a cache not promised the current one nor the subscription of a cache that missed an upgrade |
| Rules.OrderlyRunsAreNeverLate | internal/rule/rule.go:121-133 | neither occurs in a run in which no rule is stored while an older one of its group is under way or a cache is half built |
| Rules.DeliveryOrderDecides | internal/rule/rule.go:130-131 | from the start, two overlapping upgrades of one group end with the cache right in one order of their deliveries and stale in the other |
| Rules.LateSubscriptionLeavesStale | internal/ticket/ticket.go:230-241 | from the start, an upgrade between a cache's snapshot and its subscription leaves that cache stale |
| Rules.ClosedCacheFrozenIff | internal/rule/notify.go:29-33 | a closed cache stays as it is over every run if and only if no delivery that had listed it before still has a differing rule for it |
| Rules.UpgradeAloneIsARun | internal/rule/rule.go:121-133 | the closed form UpgradedAlone is the run of one upgrade's steps with nothing in between, in any order of the subscribers |
| Rules.SubscribeAloneIsARun | internal/ticket/ticket.go:230-241 | likewise for a cache's snapshot and subscription |
| Rules.QuietCachesAgree | internal/rule/rule.go:121-133 | in every run without a late delivery or subscription, overlapping upgrades included, each subscribed cache equals the store's map whenever no upgrade is under way |
| Rules.RunsStayGenuine | internal/rule/rule.go:61-68 | the stored rules of a group have rising versions and the store holds the last, whatever overlaps |
| Rules.RuleManager.Upgrade | internal/rule/rule.go:121-133 | the store and every subscriber, stale ones included, end as UpgradedAlone has it before it returns; caches that agreed still agree; an unknown group changes nothing |
| Rules.RuleManager.constructor | internal/rule/rule.go:98-103 | no subscribers yet |
| Rules.RuleStore.constructor | internal/rule/rule.go:34-52 | the two initial rules |
| Rules.RuleStore.SetRule | internal/rule/rule.go:61-68 | the rule is stored under the next version |
| Rules.RuleStore.Snapshot | internal/rule/rule.go:70-78 | a copy of the rules |
| Rules.RuleCache.constructor | internal/ticket/ticket.go:230-241 | a new cache is the store's map and the others stay as they are, as SubscribedAlone has it; it is subscribed once, under its own number |
| Rules.RuleCache.Update | internal/ticket/ticket.go:245-249 | one entry is replaced |
| Rules.RuleCache.Get | internal/ticket/ticket.go:251-256 | the cached rule, if any |
| Rules.RuleCache.CloseCache | internal/ticket/ticket.go:258-263 | the cache is no longer among the subscribers and its entries stay, so later broadcasts pass it by; the other caches and their agreement stay; a second close does nothing |
| Rules.ChangeNotifier.SubscribeCache | internal/rule/notify.go:23-28 | a fresh number for the subscriber |
| Rules.ChangeNotifier.Unsubscribe | internal/rule/notify.go:29-33 | that subscriber is gone |
| Rules.ChangeNotifier.Broadcast | internal/rule/notify.go:49-59 | every subscriber is told, in any order, and nothing else changes |
| Dedup.AnswerIsHistoryIff | internal/dedup/dedup.go:28-67 | whatever the clock readings, a check answers as the last Set and Clear say if and only if the key is not both live and dropped since by a sweep or check that read a clock at or past its expiry; it never answers true for a key that is not live |
| Dedup.CheckAnswersHistory | internal/dedup/dedup.go:28-67 | under a nondecreasing clock a check is true exactly when the key's last Set was less than ttl ago with no Clear since, wherever sweeps and lazy deletions fell |
| Dedup.OvertakenCheck | internal/dedup/dedup.go:34-67 | a check of a live key after a sweep that read a later clock answers rightly if and only if the sweep's clock was before the expiry |
| Dedup.DedupManager.SetKey | internal/dedup/dedup.go:28-32 | the key expires ttl from now |
| Dedup.DedupManager.CheckKey | internal/dedup/dedup.go:34-47 | the answer, and an expired key is dropped |
| Dedup.DedupManager.ClearKey | internal/dedup/dedup.go:49-53 | the key is gone |
| Dedup.DedupManager.SweepExpired | internal/dedup/dedup.go:55-67 | exactly the expired keys go, and their number is returned |
| Tickets.CrashSafe | internal/ticket/ticket.go:137-209 | over every run with failures and crashes at any point of any persist, closes and restarts, the files hold exactly each ticket's last committed record, and memory agrees except where the last persist failed or was skipped |
| Tickets.PersistShows | internal/ticket/ticket.go:195-209 | a persist shows on disk only if it commits, and then as exactly that record |
| Tickets.FileShowsLastCommit | internal/ticket/ticket.go:148-209 | after any run with failures, crashes, closes and restarts a ticket's file shows gate and time of the entry or exit, the cleared entry or the put record of the last operation that committed for it |
| Tickets.EnterEffect | internal/ticket/ticket.go:148-162 | entering sets status, entry gate and entry time and keeps every other field, in memory always and on disk if the write commits; the errors of a closed store, an unknown ticket and a failed write |
| Tickets.ExitEffect | internal/ticket/ticket.go:164-178 | likewise for exiting, which keeps the entry |
| Tickets.ResetEffect | internal/ticket/ticket.go:180-193 | a reset clears status and entry alone, on disk only in an open store |
| Tickets.PutEffect | internal/ticket/ticket.go:137-146 | a put replaces the record in memory, on disk if the write commits, and nothing in a closed store |
| Tickets.CloseEffect | internal/ticket/ticket.go:211-216 | closing keeps records and files; a restart opens the store on what the files hold |
| Tickets.PersistLeavesTemp | internal/ticket/ticket.go:195-209 | what each ending of a persist leaves under the temporary name |
| Tickets.NamesDiffer | internal/ticket/ticket.go:200-201 | final names are told apart by ticket, and no temporary name is ever taken for a final one |
| Tickets.LoadedIsDisk | internal/ticket/ticket.go:103-124 | loading gives the same records in whatever order the directory is read |
| Tickets.TicketStore.LoadAll | internal/ticket/ticket.go:103-124 | fails exactly when a final file cannot be decoded; otherwise memory is what the final files hold |
| Tickets.TicketStore.LoadFiles | internal/ticket/ticket.go:108-122 | the loop over the directory |
| Tickets.TicketStore.Lookup | internal/ticket/ticket.go:126-135 | the record, if any |
| Tickets.TicketStore.PersistRecord | internal/ticket/ticket.go:195-209 | the directory after each way a persist can end |
| Tickets.TicketStore.PutRecord | internal/ticket/ticket.go:137-146 | memory, files and error after a put |
| Tickets.TicketStore.Enter | internal/ticket/ticket.go:148-162 | memory, files and error after marking entered; memory keeps the mark when the persist fails |
| Tickets.TicketStore.Exit | internal/ticket/ticket.go:164-178 | likewise for exited |
| Tickets.TicketStore.Reset | internal/ticket/ticket.go:180-193 | memory is reset in any case, the file only while the store is open |
| Tickets.TicketStore.CloseStore | internal/ticket/ticket.go:211-216 | the store is closed |
| Journey.HistoryAddsUp | internal/gate/gate.go:75-111 | between restarts, for a ticket that starts unused, moves to Entered equal completed plus aborted exits plus the one still open, and accepted entries are at most one plus the failed exits |
| Journey.AcceptedIff | internal/ticket/ticket.go:281-318 | an entry is accepted if and only if the ticket is known and unused, not in the window, the group's rule (the default one for an unknown group) has the flag of its kind, and the store is open and writes it; the version answered is that rule's; each refusal names the first that fails |
| Journey.CopyAcceptedIff | internal/ticket/ticket.go:281-318 | the same for any looked-up copy of a record |
| Journey.EntryEffect | internal/ticket/ticket.go:281-318 | what an entry leaves in window and store, accepted or refused |
| Journey.CompletedIff | internal/gate/gate.go:89-111 | an exit completes if and only if the ticket is known and entered and the store is open and writes it; which failure answers what, and what is undone |
| Journey.CopyCompletedIff | internal/ticket/ticket.go:320-343 | the validator's part for any looked-up copy |
| Journey.UpgradeDecides | internal/rule/rule.go:121-133 | after an upgrade of a group a subscribed cache lets in there exactly the kinds that the upgrade's two arguments name, under the new version |
| Journey.TicketCarriesItsJourney | internal/ticket/ticket.go:148-193 | in every serial run from unused, an entered ticket carries gate and time of the entry that took it there, which is the last accepted one if and only if its write committed; an exited one carries besides gate and time of its last completed exit |
| Journey.UnsavedEntryShows | internal/ticket/ticket.go:158-161 | an entry refused because its write failed leaves the ticket entered in memory without any accepted entry |
| Journey.EntriesBoundedAcrossRestarts | internal/gate/gate.go:75-111 | over any number of restarts, failed writes and closes, accepted entries are at most the failed exits plus one if memory or disk had the ticket unused |
| Journey.NeverDuplicate | internal/ticket/ticket.go:294-297 | a key in the window belongs to a ticket that is not unused, also across restarts, so a serial swipe is never refused as a duplicate |
| Journey.ExitedEndsIff | internal/gate/gate.go:94-101 | a step takes a ticket out of Exited if and only if it is that ticket's exit swipe, which fails and makes it unused, or a restart that finds another state on disk |
| Journey.StaleCopyAdmittedIff | internal/ticket/ticket.go:281-318 | a second swipe that looked the ticket up unused before the first was accepted is refused as a duplicate exactly within ttl of it, and otherwise accepted if the rule allows it and the write succeeds |
| Journey.LeaveMoves | internal/gate/gate.go:89-111 | an exit touches one ticket: completed it ends exited with its key kept, failed it ends unused with its key cleared |
| Journey.EnterMoves | internal/ticket/ticket.go:281-318 | an entry touches one ticket and moves it at most from Unused to Entered, always so when accepted |
| Journey.LeaveIsValidatedThenUndone | internal/gate/gate.go:94-102 | the exit is the validator's part followed, on failure, by the controller's compensation |
| Journey.Validator.ValidateEntry | internal/ticket/ticket.go:281-318 | state and result of the entry, check by check, for any looked-up copy of a record, also one the store has changed since |
| Journey.Validator.ValidateExit | internal/ticket/ticket.go:320-343 | state and result of the validator's part of an exit, for any looked-up copy |
| Schedule.OnePassSettlesIff | internal/gate/schedule.go:50-75 | from gates at rest with working devices a second pass at the same time, in any order, does nothing if and only if no entry has both times due |
| Schedule.PassMoves | internal/gate/schedule.go:58-73 | each gate ends where its own entry takes it from where it started, whatever the order; no action is taken exactly when no gate has to move |
| Schedule.PassInNumbers | internal/gate/schedule.go:58-73 | in any pass, whatever the order, the states and the devices: a closed gate opens if and only if its entry is enabled, has a positive opening time not after now, and its devices work; an open one closes if and only if the same holds of the closing time, even when its devices fail; the actions name what worked |
| Schedule.VisitInNumbers | internal/gate/schedule.go:59-72 | the same for one entry |
| Schedule.PassNever | internal/gate/schedule.go:63-68 | a pass never closes a gate whose entry has no closing time or one still to come |
| Schedule.OpenedOnceAndKept | internal/gate/schedule.go:58-73 | over any number of passes, whatever the devices answer, a gate whose entry has no closing time is opened at most once, stays open and is never closed |
| Schedule.ActionsNameMoves | internal/gate/schedule.go:58-73 | the actions name each gate once, by its move, if it moved, and not at all otherwise |
| Schedule.VisitMoves | internal/gate/schedule.go:59-72 | one entry acts at most once and only on its gate |
| Schedule.QuietPassIsIdle | internal/gate/schedule.go:58-74 | a pass with nothing to move leaves store, counter and action list as they were |
| Schedule.Scheduler.Add | internal/gate/schedule.go:30-35 | the entry replaces its gate's and is enabled |
| Schedule.Scheduler.List | internal/gate/schedule.go:51-55 | every entry once, in some order |
| Schedule.Scheduler.VisitEntry | internal/gate/schedule.go:59-72 | the calls made for one entry, with both tests on the state read first, and the event that a reader of the gate's log finds afterwards |
| Schedule.Scheduler.RunOnce | internal/gate/schedule.go:50-75 | the pass over some order of the entries, each call with its own clock readings and disk outcome |
| Server.SwipeEntry | cmd/afc/handlers.go:100-116 | tickets, gates, counter, statistics and logs after an entry swipe: with room for the lines the gate's log gains one entry exactly when the ticket was accepted, its channel, "CH-" and the gate, one passage exactly when the gate opened; with appends that write all or nothing, the logs are those of one swipe in the step system of the restarts |
| Server.SwipedEntries | cmd/afc/handlers.go:100-116 | in that run the log gains one entry exactly when the line was written, the channel one passage exactly when the gate opened |
| Server.Swipe | cmd/afc/handlers.go:83-131 | which requests are refused with nothing changed, the defaults, and for each action its effect on tickets, window, gates, counter, statistics and log, including the fault of a failed exit |
| Server.SnapshotTick | cmd/afc/server.go:173-180 | a tick flushes the statistics, does the three session steps, and leaves each known gate's channel with a last snapshot of its current count and total |
| Server.SnapshotChannels | cmd/afc/server.go:177-180 | the loop over the gates, in any order |

## Left out

- HTTP routing, JSON requests, the console page, flags, signals, tickers, goroutines and contexts: clock readings, sensor answers and disk outcomes are parameters, and step order is arbitrary.
- 64-bit wrap-around of counters, record numbers and time arithmetic: those are unbounded integers here; only the decimal printers and the log's time field model the width.
- Locks: each locked section is one atomic step; `PassageCounter.Count`, which asks the gate store under its own lock, is one step as well.
- Aliasing of `GateStatus` pointers: the store hands out copies only, so statuses are values in a map.
- Swipe keys and event fingerprints: the key stands for the ticket id (an injective hash), the fingerprint is any text.
- JSON encoding of tickets: a file is a whole record or undecodable; ticket ids and gate ids hold no path separators.
- Two appends to one gate's log at the same time: they share one handle slot, and appends are modelled one at a time.
- Ticket operations overlapping on one ticket: a swipe may act on a stale copy, but its check, mark and set are one step.
- The branch of `HandleExit` for a missing or incomplete outcome without an error: the validator never returns one.
- `RuleManager.UpgradeRule`: the same steps as `Upgrade` with the flags taken from a record.
- `seedTickets` and `seedGates`: fixed data, and the former overwrites three tickets at each start, to which `CrashSafe` applies as to any other put.
- Custom channel names of the gate registry: registered gates are on their default channel.
- Alarms, audit, registry, polls by batch, health, reports and sorted listings: counting and sorting without influence on the state proved about.
- Schedule.Scheduler.RunOnce: does not say what a whole pass writes to the event logs; `VisitEntry` does, entry by entry.
- Controller.Open: proved for a call that runs alone; its interleavings are the subject of `Actuation`.
- Controller.Close: proved for a call that runs alone, as `Controller.Open` is.
- Restart.RestartLowersIff: appends write their whole line or nothing; a log left torn is covered by `CrashWhileAppending` for the first restart and by `EntryAfterTornTailIff` for the line after the torn one.
- Heartbeat.OrderIsForgottenIff: heartbeats of the latest time may not carry numbers above the store's sequence; whether such a one wins depends on how many writes come before it.
