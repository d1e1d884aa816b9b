# Windlass in Dafny

Windlass keeps a qBittorrent client in line with a torrent registry, watches a VPN tunnel and its
forwarded port, tells its owner when something is wrong, and keeps a history of every event. A pure
core turns one timed event into state changes and actions; a shell runs the actions and returns each
result as one event. This project models the core's components together with what surrounds them:
the requests in flight, the queued answers and timer expiries, and the durable store that survives a
crash. The theorems are about what the core believes and what is really so, over every run.

Each component appears three times, in the source's own form. Its logic is a set of functions on
values. Its state, where the source changes it in place, is a class whose methods are proved to
compute those functions. Its runs are a state machine: a `System` value, a `Label` for each atomic
step of the component or its surroundings, `Step` (a step that is not enabled changes nothing), and
`Run` over any sequence of labels, with an invariant that every step keeps.

| modules | what they model |
|---|---|
| `Registry`, `RegistryChanges`, `TorrentRegistry` | registry rows, their two indexes, the dirty set and the outstanding batch |
| `RegistryStore`, `TorrentTable` | the torrents table with its unique hash, batches, crashes and restarts |
| `Reconciliation` | one command at a time until the client matches the registry |
| `History`, `HistoryLosses` | the core's count of stored history, the writer behind it, and the entries it loses |
| `Shutdown` | event ingress, workers, and the runner's drain |
| `Alarms`, `NoticeLog`, `Outbox`, `Notifications` | lasting conditions, the numbered log, push delivery, and the component that joins them |
| `MamPause`, `Settings` | the two save-one-at-a-time machines |
| `Tunnel`, `TunnelMachine`, `VpnSwitching` | tunnel checks, failover and the spacing of VPN switches |
| `PortLease` | the forwarded-port lease |
| `Replication`, `Polling`, `Following`, `Asking`, `Machine` | incremental sync, polling, and what is asked of the client and when |
| `Bencode` | the torrent-file reader (BEP 3, "bencoding") |
| `Docker`, `DockerHistory` | the archived restart breaker and container trust |
| `Basics`, `Torrents`, `Notices`, `Timer`, `Wake` | shared values, timer identities, and what the shell runs for one component |

## Findings

- Linking and holding do not keep the indexes for every input. `Registry.FetchedKeepsIndexIff` and
  `Registry.HoldKeepsIndexIff` give the exact conditions, `Registry.FetchedBreaksIndex` and
  `Registry.HoldBreaksIndex` an input each. Callers fetch only queued rows and hold only active ones, which
  always meet the conditions; and since a removed row never has a hash in any run
  (`RegistryStore.RunRemoved`), no run reaches an input on which a hold fails
  (`RegistryStore.HoldAlwaysKeepsIndex`).
- `by_mam` keeps a MAM ID that no row has any more when a bookmark turns out to be the torrent already linked
  under that other ID. `Registry.FetchedKeepsKeysIff` says exactly when, and `Registry.StaleKeyIsForgotten`
  shows it: the registry ignores a bookmark of that ID, and after a restart queues it.
  `Registry.LookupsAfterRestartIff` says exactly which MAM lookups a restart changes, and
  `RegistryStore.RestartChangesLookupsIff` says it of every run.
- The history count stays exact even when the buffer overflows before history opens. What an overflow
  breaks is contiguity: `History.UnbrokenIff` says of every run exactly when, and `History.OverflowBreaks`
  is a run with a gap.
- The Docker notes promise one `RestartStorm` a trip (POC/windlass-docker-core/src/lib.rs:20); the code
  publishes one for every suppressed restart. `Docker.OneStormATripIff` gives the exact condition on attempt
  times, and `Docker.StormRepeats` a run in which it fails.
- A Docker step keeps trust sound exactly when it is not a start report, older than the anchor's recovery,
  for a trusted container that has left the registry (`Docker.TrustKeptIff`); `Docker.TrustBreaks` is a run.
- A log that became ready turns unavailable if storage is reported unusable later; ids given before stay
  consecutive and later notices are pushed without one. `NoticeLog` models this.
- Notices are saved by concurrent workers, so saves may be applied in another order than decided. In
  order, the log holds exactly the newest 1000; in any order, `NoticeLog.SavedIdStaysIff` says exactly which stay.
- A condition pending past its grace of which a step says nothing new starts its grace timer again at once, on
  every expiry. That happens, for example, to torrents in an error state once the session with qBittorrent is
  lost. `Alarms.RearmsAtOnceIff` says exactly when, from what is known before the step, and
  `Alarms.UnchangedAlarmSpins` is a run that does so any number of times.
- A trim whose rows are deleted and whose count then fails is reported as failed, and leaves the core's history
  count too high. `History.CountIsExact` says that the excess is exactly the rows deleted, and
  `History.UncountedTrimMiscounts` is a run.
- Entries whose insert failed are reported only once an insert works again, so a trim can count the rows while a
  gap is still unreported. The gap is then taken off a count that never held it, and the count stays too low
  until the next trim. `HistoryLosses.TrimCountsRightIff` says that this is the only way a trim's report
  miscounts, `HistoryLosses.LossesAreCounted` by how much, and `HistoryLosses.CrossedGapMiscounts` is a run.
- A push whose retry is due goes to the front of the outbox and is the first dropped when there is no room.
  `Outbox.RetrySendsIff` says exactly when it is sent instead.

## Model

| member | source | states |
|---|---|---|
| Registry.ObserveKeeps | src/core/registry.rs:444-467 | Observing a listing keeps the whole registry invariant, loses no row or hash, marks every changed row unsaved, and leaves a row under every listed hash and no other new one |
| Registry.ObserveDoes | src/core/registry.rs:444-467 | After a listing of distinct torrents each one's row holds what was reported and when; it is active if it was held and the torrent completed, or is new, and otherwise wanted as before; and it is to be saved if it is new, was made active, differs in a significant field, or has changed counters a quarter of an hour unsaved |
| Registry.ObserveLeavesOthers | src/core/registry.rs:444-467 | A row whose torrent is not listed stays exactly as it was, with its times and whether it is to be saved |
| Registry.BookmarkedKeeps | src/core/registry.rs:475-501 | New bookmarks keep index agreement, identities below the next one, and mark each new row unsaved |
| Registry.RedownloadKeeps | src/core/registry.rs:504-516 | Queuing a snatched row again keeps the invariant and marks it unsaved |
| Registry.FetchedKeeps | src/core/registry.rs:519-531 | Fetching a queued row keeps the invariant, and no row that had a hash gets another |
| Registry.FetchedKeepsIndexIff | src/core/registry.rs:570-592 | For every registry, MAM ID and hash: the indexes still agree if and only if the named row is missing, has no other hash, or the fetched hash is another row's |
| Registry.FetchedBreaksIndex | src/core/registry.rs:570-592 | A sound registry on which a fetch of an active row under another hash leaves that hash naming it |
| Registry.HoldKeepsIndexIff | src/core/registry.rs:559-568 | Holding keeps the indexes if and only if it does not revive a removed row whose MAM ID names another row |
| Registry.HoldBreaksIndex | src/core/registry.rs:559-568 | A sound registry on which a hold revives a removed row beside the live row of its MAM ID |
| Registry.FetchedKeepsKeysIff | src/core/registry.rs:570-592 | Every MAM ID known still names a row that has it after a fetch of a queued row if and only if the hash is new, or its row had no MAM ID, this one, or one that names another row |
| Registry.StaleKeyIsForgotten | src/core/registry.rs:470-501 | Two bookmarks of one torrent: the first ID stays known although no row has it, is forgotten by a rebuild from the same rows, and its bookmark is then queued again |
| Registry.LoadInv | src/core/registry.rs:342-387 | Rows with unique hashes and one live row per MAM ID rebuild a registry that satisfies the whole invariant, holding exactly those rows |
| Registry.LoadLookup | src/core/registry.rs:342-387 | A rebuilt index knows exactly the MAM IDs that rows have, and names the live row, or the newest when all are removed |
| Registry.LookupsAfterRestartIff | src/core/registry.rs:396-407 | A rebuild changes a MAM lookup if and only if the index named another row than that one, and forgets an ID if and only if no row has it |
| Registry.SameIntentSameLookups | src/core/registry.rs:396-407 | Two soundly indexed registries with the same rows find the same row for every hash and every live MAM ID; `LookupsAfterRestartIff` covers the other IDs |
| RegistryChanges.HoldStopsTheRow | src/core/registry.rs:559-568 | Of all rows exactly the one with the hash becomes held and is to be saved, whatever it was before |
| RegistryChanges.ResumeStartsTheHeld | src/core/registry.rs:546-556 | Exactly the row with the hash becomes active, if it was held |
| RegistryChanges.SnatchedWaits | src/core/registry.rs:533-543 | Exactly the queued bookmark that the MAM ID names becomes snatched |
| RegistryChanges.QueuedRowsAreNamed | src/core/registry.rs:533-543 | A queued bookmark with a MAM ID is the row that ID names |
| RegistryChanges.SaveSendsWholeRows | src/core/registry.rs:626-643 | A save sends every row to be saved, whole and in order of identity, and marks exactly those saved now with their counters; other rows and their times stay |
| RegistryChanges.UnsavedIsOnItsWay | src/core/registry.rs:626-643 | Over every run with crashes and failures nothing waits to be saved unless a batch is outstanding or the last one failed |
| RegistryChanges.SaveFailureIsTold | src/core/registry.rs:291-304 | In every run the registry shows a failed save after an answer that says so, and none after one that worked |
| RegistryChanges.StorageKeeps | src/shell/storage.rs:826-879 | Storage keeps all of a row but the forced start, times at most a second earlier and in whole seconds; storing what was read back changes nothing |
| RegistryChanges.CommittedRowsReadBack | src/shell/storage.rs:712-722 | Over every run each row of a batch that commits is what a restart reads back, as storage keeps it |
| RegistryStore.SaveSends | src/core/registry.rs:626-643 | A save changes no row's intent and sends every unsaved row as it is, unless a batch is outstanding |
| RegistryStore.SaveTorrentsOnlyWrites | src/shell/storage.rs:826-879 | No `INSERT OR REPLACE` of a sent batch deletes another row through the unique hash |
| RegistryStore.CommitStoresWhatWasSent | src/shell/storage.rs:826-879 | Committing a batch leaves the table equal to the whole registry as it was when the batch was sent |
| RegistryStore.LoadReadsTable | src/shell/storage.rs:712-722 | Reading the table back and rebuilding gives a sound registry with exactly the stored intent |
| RegistryStore.RunKeeps | src/core/registry.rs:281-307 | Over every run of registry changes, commits, failed saves, crashes and restarts: index agreement, and the table plus what is in flight account for every row |
| RegistryStore.CommitIsASnapshot | src/core/registry.rs:626-643 | In every run, each committed batch leaves the table equal to the registry at the moment that batch was sent |
| RegistryStore.RestartReloadsAPastRegistry | src/core/registry.rs:342-387 | Crash consistency: a crash at any moment of any run reloads a registry state that really was, and every lookup of a live row agrees with any sound index of it |
| RegistryStore.RestartChangesLookupsIff | src/core/registry.rs:342-387 | After any run, a restart changes a MAM lookup of the stored rows if and only if it named another row than the live one, or than the newest when all are removed |
| RegistryStore.RunRemoved | src/core/registry.rs:570-592 | In every run from a table without one, no removed row in memory, in storage or on its way has a hash |
| RegistryStore.HoldAlwaysKeepsIndex | src/core/registry.rs:559-568 | In every such run a hold of any hash keeps the indexes |
| RegistryStore.ChangeAccounts | src/core/registry.rs:626-643 | After any one change every row whose intent changed is marked unsaved or in the batch sent, and the registry is sound |
| TorrentTable.Torrents.SaveAll | src/shell/storage.rs:826-879 | The row-by-row transaction leaves the table that replacing each record in order gives |
| TorrentTable.Torrents.ReadAll | src/shell/storage.rs:712-722 | The rows read are those of the table in order of identity |
| TorrentRegistry.TorrentRecords.constructor | src/core/registry.rs:342-387 | Builds exactly the rebuilt registry, with nothing unsaved or in flight |
| TorrentRegistry.TorrentRecords.SaveChanged | src/core/registry.rs:626-643 | The new state and the batch are those of one save |
| TorrentRegistry.TorrentRecords.AdoptTorrent | src/core/registry.rs:607-623 | Adds the adopted row and indexes its hash |
| TorrentRegistry.TorrentRecords.ObserveTorrent | src/core/registry.rs:445-465 | One observed torrent: adopted if unknown, noted, and made active if it completed while held |
| TorrentRegistry.TorrentRecords.ObserveTorrents | src/core/registry.rs:444-467 | The loop over a listing computes the observation, then the save; a sound registry stays sound and every changed row is marked unsaved or sent |
| TorrentRegistry.TorrentRecords.NewBookmarks | src/core/registry.rs:475-501 | The loop over bookmarks computes the bookmarked registry, then the save, with the same guarantee |
| TorrentRegistry.TorrentRecords.QueueAgain | src/core/registry.rs:504-516 | Queues a snatched row and saves; changes nothing for any other row |
| TorrentRegistry.TorrentRecords.LinkRow | src/core/registry.rs:570-592 | Links a row to its hash, or the row that already has the hash, leaving the first as history |
| TorrentRegistry.TorrentRecords.FileFetched | src/core/registry.rs:519-531 | Links the row a MAM ID names and saves, with the same guarantee for a queued row |
| TorrentRegistry.TorrentRecords.FoundSnatched | src/core/registry.rs:533-543 | Only a queued bookmark becomes snatched |
| TorrentRegistry.TorrentRecords.LetRun | src/core/registry.rs:546-556 | Only a held row becomes active |
| TorrentRegistry.TorrentRecords.KeepStopped | src/core/registry.rs:559-568 | The row under a hash becomes held, with the same guarantee for an active row |
| TorrentRegistry.TorrentRecords.BatchSaved | src/core/registry.rs:291-295 | Ends the outstanding batch and saves what changed meanwhile, with the same guarantee |
| TorrentRegistry.TorrentRecords.BatchFailed | src/core/registry.rs:297-304 | A failed batch's rows are unsaved again, so none is forgotten |
| TorrentRegistry.TorrentRecords.NextCommand | src/core/registry.rs:645-661 | The command reconciliation finds, withheld when the same one was given less than a minute ago |
| Reconciliation.ReconcileMeetsFirstNeed | src/core/registry.rs:670-770 | The command is for the first kind of change that any row needs and names those rows' hashes; none exactly when no row needs anything |
| Reconciliation.CommandShrinks | src/core/registry.rs:670-770 | Carrying out a command strictly shrinks the rows in need of its kind and adds none to an earlier kind |
| Reconciliation.RoundDecreases | src/core/registry.rs:670-770 | Every round strictly decreases seven sets of rows in lexicographic order |
| Reconciliation.QuietIffAtRest | src/core/registry.rs:670-770 | No command if and only if every row is at rest: permitted active torrents present, whole and running, unfinished held ones stopped, no removable one left, force start exactly where due |
| Reconciliation.NeedsAreWarranted | src/core/registry.rs:670-770 | A row needs a change exactly when its intent, its torrent and the permissions, read field by field, warrant it |
| Reconciliation.ReconcileKeepsItsOrder | src/core/registry.rs:670-770 | The command is of the first kind that any row warrants: removals, stops, whole content, additions, starts, forced starts and their ends |
| Reconciliation.CommandsNameTheWarranted | src/core/registry.rs:670-770 | A command names exactly the torrents whose rows warrant it, or one of them for the kinds that go one by one |
| Reconciliation.OldestRowsGoFirst | src/core/registry.rs:670-770 | Listed torrents are in the order of their rows, and the kinds that go one by one take the oldest row that warrants them |
| Reconciliation.TransfersArePermitted | src/core/registry.rs:697-747 | No Add, Start or SelectAllFiles names a MAM download that is neither permitted nor reported complete and whole |
| Reconciliation.ReconciliationConverges | src/core/registry.rs:670-770 | For every client that carries out each command, reconciliation stops after finitely many rounds with every row at rest, and no round transferred forbidden content |
| History.HistoryCount.HandleEvent | src/core/history.rs:90-126 | A writer's report is taken into the count as the count function says |
| History.HistoryCount.CountStep | src/core/history.rs:129-143 | Counts the step's own entry and asks for a trim past the limit |
| History.HistoryWriter.Insert | src/shell/history.rs:173-196 | Stores the row and reports a gap that preceded it, or widens the gap when the insert fails |
| History.HistoryWriter.RunCommands | src/shell/history.rs:90-143 | The writer's loop stores, buffers, trims, loses and reports exactly as the commands processed one by one, whichever storage calls fail |
| History.EveryRecordAccountedFor | src/shell/history.rs:90-196 | Over any commands and any failures of opening, inserting, counting and trimming, every record handed over was stored, is buffered, is counted lost, or was reported lost |
| History.CountIsExact | src/core/history.rs:85-143 | Over every run without failed inserts: with no trim outstanding the core's count is what is stored plus what is queued, and exactly the rows deleted more after a trim that could not be counted; what is stored and queued is the newest part of everything recorded, in order |
| History.UncountedTrimMiscounts | src/shell/history.rs:213-219 | A run in which a trim deletes two rows, its count fails, and the core then counts three entries where one is left |
| History.TrimLeavesTheNewest | src/shell/history.rs:213-219 | A trim that works leaves the newest `keep` of the rows, or all of them when there are fewer, and reports their number |
| History.NineTenthsStay | src/core/settings.rs:20-24 | Over every run whose limits are never below one number, what is stored and queued while history is open is never less than nine tenths of that number, or everything recorded if that is less |
| HistoryLosses.LossesAreCounted | src/core/history.rs:90-143 | From every open history, whatever inserts, trims and counts then fail: with no trim outstanding the count is what is stored, queued, lost and yet to be heard lost, and the rows deleted uncounted, less what a trim owes for a gap it did not know of |
| HistoryLosses.CountSettles | src/core/history.rs:90-143 | If no trim was counted while a gap was unreported, the count is exact again once every loss is reported and heard |
| HistoryLosses.TrimCountsRightIff | src/shell/history.rs:173-219 | A trim's report gives the right count if and only if no loss was unreported as its rows were counted |
| HistoryLosses.CrossedGapMiscounts | src/shell/history.rs:173-219 | A run in which two inserts fail, a trim is counted, and the core then counts one entry where two are stored or queued |
| History.UnbrokenIff | src/shell/history.rs:98-141 | Over every run, with history open and no trim outstanding: what is stored and queued is an unbroken suffix of the earlier rows and all handled events if and only if history opened within the buffer's 1000 steps or no more is kept than the steps since |
| History.OverflowBreaks | src/shell/history.rs:103-107 | A run that opens at step 1001: the count is exact and step 1001 is missing from what is stored |
| History.WithinLimit | src/core/history.rs:129-143 | After any step with loaded settings and an idle trim, what is stored and queued is within the limit |
| Shutdown.IngressIsSound | src/shell/ingress.rs:51-75 | Over every interleaving: no event is accepted after closing is set, events are handled in the order accepted, the worker count is dispatched work not yet received, at most 64 inputs are queued |
| Shutdown.StopIsClean | src/runner.rs:108-129 | The runner has stopped only when every accepted event was handled and every dispatched worker's result received |
| Shutdown.NeverStuck | src/shell/mod.rs:172-199 | A closing runner that waits on an empty queue is always owed an input by a worker or a shutdown caller |
| Shutdown.BreaksOffIff | src/shell/mod.rs:172-199 | The runner breaks off exactly when it receives a worker's failure |
| Shutdown.Shell.NextEvent | src/shell/mod.rs:172-199 | Shutdown requests ahead of the first other input are consumed and set closing, that input is returned and counted, a worker that failed outright ends the run with an error, and it ends cleanly only when closing, drained and without workers |
| Alarms.RaisedExactlyWhenHeld | src/core/notifications.rs:1047-1074 | For every history of a condition: raised if and only if, since it last cleared, it was seen to hold its grace or more after it was first seen to hold; otherwise pending from then, or neither |
| Alarms.RaisesAndClearsAlternate | src/core/notifications.rs:1047-1074 | At every moment raises lead clears by one exactly while raised |
| Alarms.ToldOnRaiseAndClear | src/core/notifications.rs:1047-1074 | The owner is told exactly on a raise, with that sighting's notice, and on a clear, with its notice if it has one |
| Alarms.EachConditionAlone | src/core/notifications.rs:887-907 | Over every run each condition's phase is that of its own history |
| Alarms.OwnerIsToldInOrder | src/core/notifications.rs:887-907 | In every run the owner is told of each sighting, in order, exactly what the condition's own sightings up to it warrant |
| Alarms.GracePeriods | src/core/notifications.rs:645-676 | Which conditions are told at once, and which after 2, 5, 10, 15 or 30 minutes |
| Alarms.PendingAlarmsAreWatched | src/core/notifications.rs:1078-1100 | Over every run, while any condition is pending the grace timer stands for the earliest grace end of all and rings then, or at once if started later, or has rung |
| Alarms.RunPhasesAreExact | src/core/notifications.rs:887-907 | In every run with its timer each condition is raised, pending or neither exactly as its own sightings in that run make it |
| Alarms.RearmsAtOnceIff | src/core/notifications.rs:1078-1100 | A step that hears the current grace timer starts one that rings at once if and only if a condition pending before it has its grace end at or before the step and everything the step says of it is unchanged |
| Alarms.UnchangedAlarmSpins | src/core/notifications.rs:1047-1100 | For every n, a run in which torrents are in an error state, the session is lost and the condition goes unreported past its grace: n more timers start at one instant and it is never raised |
| NoticeLog.NoticesAreNumberedInOrder | src/core/notifications.rs:915-981 | Over every run saved notices take consecutive ids from the last stored one in the order decided, waiting ones included; none is skipped while the log is ready; every urgent one is queued once and in order, with the id of its own entry if it has one |
| NoticeLog.LogHoldsTheNewest | src/shell/storage.rs:587-609 | Saves applied in order leave exactly the newest 1000 ids |
| NoticeLog.LogKeepsWhatWasSaved | src/shell/storage.rs:587-609 | Each row kept is the notice that was given its id |
| NoticeLog.SavedIdStaysIff | src/shell/storage.rs:587-609 | In any order of saves, and whichever fail, a saved id stays if and only if no save with an id 1000 or more above it is applied after it, and it keeps its notice |
| NoticeLog.NewestSurviveAnyOrder | src/shell/storage.rs:587-609 | Whatever order saves are applied in, and whichever fail, none of the newest 1000 saved is forgotten |
| Outbox.PushesAreConserved | src/core/notifications.rs:984-1044 | Over every run each queued push is in exactly one place: delivered, in delivery, waiting, dropped or discarded; deliveries follow the order queued; at most one send is in flight; at most 50 wait after every step, and none while the shell is free to send; the failures that set the retry wait are the sends failed since one was delivered |
| Outbox.NewestAreKept | src/core/notifications.rs:1038-1044 | Queueing any number of pushes keeps the newest in order and drops the oldest, only as many as have no room among 50 |
| Outbox.DropsOnlyWhenFull | src/core/notifications.rs:1038-1044 | A step that drops a push keeps 50 others |
| Outbox.RetrySendsIff | src/core/notifications.rs:1025-1044 | In every run, when its wait ends a push is sent again if and only if nothing else is queued in that step or all of it fits |
| Outbox.PositionsStandForPushes | src/core/notifications.rs:1104-1125 | A step followed by queue position is the component's own step on the pushes, so conservation is about its runs |
| Outbox.RunRefines | src/core/notifications.rs:984-1044 | Over every run the mail followed by positions carries exactly the source's mail, with as many sends in flight, and the same pushes queued in order |
| Outbox.RetryWaits | src/core/notifications.rs:1003-1015 | Waits of 30 seconds, 1, 2, 4 and 8 minutes, then 10 for good, never shorter after one more failure |
| Notifications.Notifier.constructor | src/core/notifications.rs:792-804 | Nothing pending, queued or in delivery, and a log that waits to be read |
| Notifications.Notifier.EnqueuePush | src/core/notifications.rs:1038-1044 | Appends the push, dropping and counting the oldest when 50 wait |
| Notifications.Notifier.RecordNotice | src/core/notifications.rs:926-955 | Gives a notice its place in the log and queues it if urgent |
| Notifications.Notifier.LogUnavailable | src/core/notifications.rs:915-924 | The log is given up, and urgent waiting notices are queued without an entry |
| Notifications.Notifier.HandleEvent | src/core/notifications.rs:957-1023 | Log, outbox, retry timer and its growing delay after each notification event |
| Notifications.Notifier.TimerExpired | src/core/notifications.rs:1026-1036 | Only the current grace or retry timer changes anything; a due retry goes to the front |
| Notifications.Notifier.TrackCondition | src/core/notifications.rs:1047-1074 | The condition's next phase and what the owner is told |
| Notifications.Notifier.EarliestDue | src/core/notifications.rs:1079-1086 | The minimum grace end over the pending conditions, none when there is none |
| Notifications.Notifier.ScheduleGrace | src/core/notifications.rs:1078-1100 | Starts a timer for the earliest grace end, unless the current one stands for it |
| Notifications.Notifier.SendNext | src/core/notifications.rs:1104-1125 | Hands over the oldest push when idle and a topic is known; without a topic discards what waits |
| Notifications.Notifier.AfterStep | src/core/notifications.rs:887-907 | Tracking, recording, scheduling and sending in that order |
| Notifications.Notifier.WholeStep | src/core/machine.rs:156-178 | A whole step, a failed startup included, is one step of the outbox with exactly the pushes recorded, of the log with exactly the notices decided, and of the watch; the timers started are the retry and the grace timer |
| MamPause.MamPreference.UpdatePreference | src/core/mam_pause.rs:236-251 | At most one write, pausing at once and enabling only once saved |
| MamPause.MamPreference.CompleteUpdate | src/core/mam_pause.rs:253-281 | Completion saves a newer wish, or settles, or keeps requests paused on failure |
| MamPause.FailSafe | src/core/mam_pause.rs:176-281 | Over every run of wishes, write failures and crashes: enabled only while storage holds "enabled", one operation outstanding, idle means effective, requested and stored agree, and the preference shows a failure only when the last write failed |
| MamPause.TwoWritesSettle | src/core/mam_pause.rs:236-281 | From every reachable state with a preference, after a wish and with no failed answer waiting, at most two writes that succeed leave it idle, stored, and in effect |
| MamPause.StartupRestores | src/core/mam_pause.rs:176-207 | A start reads what is stored and applies it, pausing when nothing is; a wish made meanwhile is settled by one write more, if the wish differs from what is stored |
| Settings.SettingCell.RequestValue | src/core/settings.rs:357-369 | The new request, and a save only when none is pending |
| Settings.SettingCell.CompleteSave | src/core/settings.rs:383-402 | Completion stores, retries a newer request, or fails |
| Settings.SettingCell.FailReplacement | src/core/settings.rs:372-381 | A failed rotation keeps the saved value unless the owner asked for another |
| Settings.SavedIsStored | src/core/settings.rs:338-402 | Over every run: one save at a time, `saved` is what storage holds whenever none is pending, and idle means saved as requested |
| Settings.UsableCookieIsStored | src/core/settings.rs:425-430 | Over every run, rotations that fail included, a usable cookie is both the stored and the requested one, and the stored cookie is usable whenever no replacement is pending or failed |
| Settings.TwoSavesSettle | src/core/settings.rs:357-402 | After the last request at most two successful completions store it and leave the setting idle |
| Settings.FailedRotationKeepsCookie | src/core/settings.rs:372-381 | From every idle setting a rotation whose save fails changes nothing, or, when the owner asked for another value meanwhile, saves that one next |
| Settings.FailedSaveIsReported | src/core/settings.rs:383-402 | From every idle setting a save that fails leaves the saved value as it was, with the failure and the request shown |
| Tunnel.NextServerExists | src/core/tunnel.rs:372-384 | There is no next server if and only if no configured server differs from the current one |
| Tunnel.NextServerFollows | src/core/tunnel.rs:372-384 | Distinct servers are taken in turn, the first after the last |
| Tunnel.SearchFinds | src/core/tunnel.rs:372-384 | With any list, repeats included, the search finds the first server in cyclic order that differs |
| Tunnel.AllowanceIs | src/core/tunnel.rs:214-232 | Why a switch may not start: no other server, the last switch not known, or until an hour after it |
| Tunnel.TimersStandForTheirWait | src/core/tunnel.rs:234-327 | Every timer started is for one minute or a quarter of an hour from now |
| TunnelMachine.TunnelChecks.MaySwitch | src/core/tunnel.rs:214-232 | A switch may start now if and only if another server exists and the last switch is known and absent or an hour old |
| Tunnel.HandleKeeps | src/core/tunnel.rs:278-325 | Any event keeps failover there exactly while switching, and saves a switch only an hour or more after the last known one and to another server |
| TunnelMachine.TunnelChecks.HandleEvent | src/core/tunnel.rs:234-327 | Every event's new state, action and timer; failover stays there exactly while switching, and a switch is saved only an hour or more after the last known one and to another server |
| TunnelMachine.TunnelChecks.HandleEnabled | src/core/tunnel.rs:267-325 | Check results and switch results while enabled |
| TunnelMachine.TunnelChecks.TimerRang | src/core/tunnel.rs:331-336 | Only the current timer starts a check |
| TunnelMachine.TunnelChecks.SuspectFailure | src/core/tunnel.rs:340-350 | A suspicion starts a check only while waiting and 30 seconds after the last |
| VpnSwitching.SwitchesAreSpaced | src/core/tunnel.rs:278-325 | Over all runs and restarts each started switch was durably recorded, and consecutive ones have recorded times an hour or more apart, or more than an hour less one second across a restart |
| VpnSwitching.TunnelIsAlwaysWoken | src/core/tunnel.rs:234-368 | In every reachable state exactly one request, answer or current timer wakes an enabled tunnel, and failover is there exactly while switching |
| VpnSwitching.AnswersAreAwaited | src/core/tunnel.rs:234-327 | Every request in flight is the one awaited, and every queued answer is an answer to it |
| VpnSwitching.TunnelKnowsItsConnection | src/core/tunnel.rs:278-325 | Over every run: the current server is the one connected unless the news of a switch is on its way; failures, protection and the last failure are those of the checks answered since startup or the last switch; the next check comes a quarter of an hour after a good one and a minute after anything else |
| VpnSwitching.SwitchTakesEffect | src/core/tunnel.rs:307-318 | In every run a delivered switch makes the server of the last started switch of this life current, clears failures and protection, and checks at once |
| VpnSwitching.SwitchesMoveOn | src/core/tunnel.rs:278-384 | Over every run each started switch follows three or more failed checks in a row and goes to the next server after the one connected |
| VpnSwitching.SuspicionChecksIff | src/core/tunnel.rs:340-350 | In every run a suspicion starts a check if and only if the tunnel waits and its last check began 30 seconds ago or more |
| VpnSwitching.FailsOverIff | src/core/tunnel.rs:278-294 | In every run a failed check is followed by a failover if and only if three or more failed in a row, the last switch is known and absent or an hour old, and another server is configured |
| VpnSwitching.ReadIsTaken | src/core/tunnel.rs:255-266 | In every run what storage answers at startup is what the tunnel knows of the last switch; a failed read leaves it unknown |
| VpnSwitching.ObsoleteExpiryChangesNothing | src/core/tunnel.rs:331-336 | Over every run, a queued expiry that is not the current one never becomes current in that life whatever follows, and hearing it then only takes it off the queue |
| PortLease.LeaseIsSound | src/core/port_forwarding.rs:146-260 | In every reachable state exactly one thing wakes an enabled lease; the lease is the gateway's latest grant while that lasts and no renewal was asked for, and none otherwise; failures and the last of them are the denials since a grant; the next request comes three quarters into a lease, and so in time, or five seconds after a denial |
| PortLease.ForwardedIffGranted | src/core/port_forwarding.rs:146-260 | In every reachable state a port is forwarded if and only if a grant stands, and it is the granted one |
| PortLease.AsksAtOnce | src/core/port_forwarding.rs:146-251 | In every reachable state enabling asks for a port for a minute, and a renewal forgets the lease and has a request on its way |
| PortLease.ObsoleteExpiryChangesNothing | src/core/port_forwarding.rs:218-228 | Over every run, a queued expiry that is not the current one never becomes current whatever follows, and hearing it then is a step in which only time passed |
| PortLease.PortForwarding.HandleEvent | src/core/port_forwarding.rs:146-215 | Every event's new lease, request, failure count, action and timer |
| PortLease.PortForwarding.TimerRang | src/core/port_forwarding.rs:218-228 | Only the current timer requests a lease |
| PortLease.PortForwarding.RenewNow | src/core/port_forwarding.rs:231-251 | Forgets the lease, and asks again unless a request is on its way |
| PortLease.PortForwarding.ForgetExpired | src/core/port_forwarding.rs:254-260 | A lease past its lifetime is forgotten |
| Timer.Timers.Schedule | src/core/timer.rs:54-64 | A new identity, and the deadline that the delay makes |
| Replication.FieldsRestore | src/core/qbittorrent.rs:375-380 | Applying the fields in which two torrents differ turns the first into the second |
| Replication.UpdateRefinesListing | src/core/qbittorrent.rs:886-898 | Any update that describes a change of the list, in any order, turns the first list into the second |
| Replication.DifferenceRestores | src/core/qbittorrent.rs:886-898 | For any two lists the field-level difference is such an update |
| Replication.FullUpdateRestores | src/core/qbittorrent.rs:886-898 | A full update gives the client's list whatever was known |
| Polling.Qbittorrent.ApplyUpdate | src/core/qbittorrent.rs:886-898 | The two loops merge changes and removals as the update says |
| Polling.Qbittorrent.HandleEvent | src/core/qbittorrent.rs:708-800 | Every event's new state, request and timer |
| Polling.Qbittorrent.TimerRang | src/core/qbittorrent.rs:803-817 | Only the current timer reconnects or polls |
| Polling.Qbittorrent.ChangePreferences | src/core/qbittorrent.rs:903-918 | The first setting that differs from the wanted one is changed, a queue only if reported |
| Polling.Qbittorrent.ChooseNext | src/core/qbittorrent.rs:834-866 | The next request in its order of preference; no choice is left open |
| Polling.Qbittorrent.Follow | src/core/qbittorrent.rs:869-876 | An idle session follows the wanted settings |
| Following.PollingIsAlwaysWoken | src/core/qbittorrent.rs:708-877 | In every reachable state exactly one request, fitting answer or current timer wakes polling, and `Deciding` never survives a step |
| Following.SessionMirrorsClient | src/core/qbittorrent.rs:886-898 | Over every run of full and incremental updates, reconnections and reused positions, a listed session's torrents are the client's list at the stored position |
| Following.CommandsRestOnFreshFacts | src/core/machine.rs:125-155 | Every command ever issued was reconciliation's, on a complete list equal to the client's own, when every torrent in it had its registry row |
| Following.CommandsFollowASync | src/core/qbittorrent.rs:741-750 | A step that issues a command is one that merged a sync update, and the command's list is that merge |
| Asking.SessionIsInformed | src/core/qbittorrent.rs:708-800 | Over every run a session holds the preferences the client last told it, counts the lists received since, and waits only on fewer than six |
| Asking.IdleMeansSettled | src/core/qbittorrent.rs:869-918 | After every step of every run polling waits only when no setting it knows of differs from what is wanted |
| Asking.SettingsAskedAreWanted | src/core/qbittorrent.rs:903-918 | In every run a listen port or queue is asked for only as it is wanted and where the client's differs, the queue only once the port is right |
| Asking.PollsWhenDue | src/core/qbittorrent.rs:834-866 | In every run, when the wait for a poll ends or a command is done, the client is polled from the session's position, unless a setting is due |
| Asking.CommandsWhenNeeded | src/core/qbittorrent.rs:834-866 | In every run, when a list arrives and no setting is due, the registry's command for it is applied unless just issued; otherwise the preferences are read after six lists, and else polling waits |
| Asking.RepeatedCommandsAreSpaced | src/core/registry.rs:645-661 | Over every run the same command is issued twice in a row only with a minute or more between |
| Asking.AnswersLeadOn | src/core/qbittorrent.rs:708-800 | In every run a failed request ends the session with its reason until a timer ends, connecting starts one from nothing, and a setting that was changed is read back |
| Asking.ConnectsWhenDue | src/core/qbittorrent.rs:708-817 | In every run enabling connects, and so does the end of the wait after a failure |
| Asking.WaitsAreTenSeconds | src/core/qbittorrent.rs:17 | Every wait that polling starts is of ten seconds |
| Following.ObsoleteExpiryChangesNothing | src/core/qbittorrent.rs:803-817 | Over every run, a queued expiry that is not the current one never becomes current whatever follows, and hearing it then is a step in which nothing happened to polling |
| Machine.Core.ObserveSession | src/core/registry.rs:310-315 | A fresh, complete list is recorded whole, in the order visited, before anything is decided; otherwise nothing is; this is the observation of every run |
| Machine.Core.DecideQbittorrent | src/core/machine.rs:262-279 | The new client state, requests, timer and last command are exactly the decision and the following of preferences of every run; a command is the one the registry was asked for; no choice is left open |
| Machine.Core.AskRegistry | src/core/registry.rs:318-330 | The command asked of the registry: only on a fresh, complete list, and withheld when the same was given less than a minute ago |
| Machine.Core.ConcludeStep | src/core/machine.rs:147-155 | Observing, deciding and following in that order is the conclusion of a step that the whole-run theorems are about |
| Bencode.RoundTrip | src/shell/torrent_file.rs:74-121 | The encoding of any value followed by any bytes parses to that value and leaves exactly those bytes, if and only if it nests within the 32 levels allowed; else it is refused |
| Bencode.ParseLocal | src/shell/torrent_file.rs:74-121 | A successful parse reads a nonempty prefix and gives the same value whatever follows it |
| Bencode.ShallowerParses | src/shell/torrent_file.rs:74-121 | A value read at some depth is read the same at any lesser one |
| Bencode.EntriesKeepTheirBytes | src/shell/torrent_file.rs:94-109 | The slice kept for each dictionary entry parses alone to that entry's value |
| Bencode.ParseValue | src/shell/torrent_file.rs:74-121 | The recursive parser with its loops computes the parse, and terminates |
| Bencode.ReadNamesItsInfo | src/shell/torrent_file.rs:30-71 | The bytes hashed for a torrent that reads are a slice that parses alone to its `info` |
| Bencode.ReadOfEncoding | src/shell/torrent_file.rs:30-71 | A torrent file written from its terms is named by its `info` dictionary's own encoding |
| Bencode.ReadNeedsTheWhole | src/shell/torrent_file.rs:30-40 | A torrent reads only from bytes that are one dictionary and nothing after, whose first `info` is a dictionary |
| Bencode.SizeIs | src/shell/torrent_file.rs:41-59 | A size is the torrent's own length, when it has no files, or the sum of its files' lengths, when it has no length and each file has one |
| Bencode.SizesEveryTorrent | src/shell/torrent_file.rs:41-59 | Every torrent with a length that is no negative number and no files is sized, and every one with only files exactly when their sum fits 64 bits |
| Bencode.FileLengthIs | src/shell/torrent_file.rs:50-54 | A file's length is that of its first entry that gives one, and it has none exactly when no entry does |
| Docker.DockerMachine.PruneWindow | POC/windlass-docker-core/src/lib.rs:327-337 | The loop drops exactly the leading restarts older than the window |
| Docker.DockerMachine.AttemptRestart | POC/windlass-docker-core/src/lib.rs:347-373 | A restart while the window has room, otherwise a storm and one dump of logs an incident |
| Docker.DockerMachine.ReportStarted | POC/windlass-docker-core/src/lib.rs:498-531 | A start report's effect on trust, and the restart of a stale namespace |
| Docker.DockerMachine.HandleEvent | POC/windlass-docker-core/src/lib.rs:401-536 | Every event's new state, actions and publishes |
| Docker.RestartsAreBounded | POC/windlass-docker-core/src/lib.rs:327-372 | With wall time that never goes back and a positive maximum, every interval as long as the window holds at most that many restarts from both paths |
| Docker.DumpedOncePerIncident | POC/windlass-docker-core/src/lib.rs:347-373 | Over every run logs are dumped at most once an incident |
| DockerHistory.MachineTellsItsHistory | POC/windlass-docker-core/src/lib.rs:401-536 | Over every run the dependents, the anchor's recovery, the number of recoveries, and of each container its health, its start and whether it is trusted are what the events, read back from the last, tell |
| DockerHistory.OutcomesAreTold | POC/windlass-docker-core/src/lib.rs:347-536 | In every run each event publishes and asks for exactly what the events tell: crashes and recoveries at the change of health, trust at its change, a restart of the very container reported, and a storm with one dump of everyone's logs an incident where it is refused |
| Docker.AttemptIsStormIff | POC/windlass-docker-core/src/lib.rs:347-373 | Over every run with time going forward, an attempt is a storm and not a restart if and only if the restart the maximum number back is within the window |
| Docker.StormsCountSuppressed | POC/windlass-docker-core/src/lib.rs:347-373 | Over every run storms and restarts together are the attempts, so storms are the attempts suppressed |
| Docker.OneStormATripIff | POC/windlass-docker-core/src/lib.rs:20-22 | The promise of one storm between restarts holds of a run if and only if, folding the breaker over the times it was asked, no two attempts in a row come while the restart the maximum number back is within the window |
| Docker.RestartsAreGrantedByTimes | POC/windlass-docker-core/src/lib.rs:327-373 | The restarts of every forward run are those that the breaker, folded over the attempt times alone, lets through |
| Docker.StormRepeats | POC/windlass-docker-core/src/lib.rs:347-373 | A run from the initial machine, with a maximum of one: a restart and then two storms, so the promise fails |
| Docker.TrustKeptIff | POC/windlass-docker-core/src/lib.rs:427-530 | A step keeps "trusted only while the anchor is healthy and started since its recovery" if and only if it is not a stale start report of a trusted container outside the registry |
| Docker.TrustBreaks | POC/windlass-docker-core/src/lib.rs:498-531 | A run from the initial machine in which a trusted container leaves the registry, reports an older start and stays trusted |
| Docker.TrustIsSound | POC/windlass-docker-core/src/lib.rs:427-530 | When start times never go back, trust is sound in every run |

## Left out

- MAM decision logic (`src/core/mam`): its permissions, decisions and notices are arbitrary inputs.
- The tables that assess conditions (`assess`, `mam`, `vpn` in src/core/notifications.rs) and the one-off notices of `reported` and `changed`: each condition's status and each notice is an input of a step.
- HTTP, UDP and process clients: only their contract of one answer for each request.
- JSON replies, wording, the console, the dashboard and argument parsing: conversions and plumbing.
- SQL text, pragmas, migrations and page queries: tables are maps, with the unique hash, replacement and atomic batches.
- Floating-point conversions, SHA-1 and secret wrappers: integers, an abstract digest and plain values stand for them.
- Saturation at the widest integers, and checked additions of instants that overflow: counters and times are unbounded.
- Docker commands (`handle_command`): each is a direct translation to actions.
- Version parsing and MAM's approval of client versions: pure tables that no modelled property needs.
- The last delivery outcome of notifications, and the latest storage error text: only displayed.
- Concurrency in the ingress is a state machine over atomic steps; fairness and the order in which waiting senders get their permits are not modelled.
- History.CountIsExact: states nothing of runs in which an insert fails; `HistoryLosses.LossesAreCounted` covers those from any open history on, and inserts that fail while history opens are in neither.
- NoticeLog.LogHoldsTheNewest: starts from a log without gaps, because a save that failed in an earlier run leaves one; `NewestSurviveAnyOrder` covers the rest.
- Machine.Core.ObserveSession: visits torrents in an arbitrary order rather than sorted by hash, because no property depends on it.
