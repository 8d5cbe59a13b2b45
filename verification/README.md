# Verified model of the access-control lock coordination

This project models, in Dafny, how the add-on coordinates physical door locks between Home
Assistant (HA) and UniFi Access, and proves what that coordination promises. Each module follows
one component of the program.

- `HoldProtocol` is the journal of persistent Access rules as a state machine with an external
  actor, failing commands and writes, and a crash that drops memory. `HubRecovery` is the manager
  object that rebuilds and releases that ownership after a restart.
- `Reconcile` is the two-sided arbitration: one pass as a function, runs of passes, and the object
  that performs a pass in place. `FlapGate` is its flap damping.
- `RelockCore`, `RelockProtocol` and `RelockManagement` are the relock manager: its critical
  sections, their interleavings for one entity, and the object with its dictionaries.
  `RelockProgress` is the measure by which a due relock gets carried out.
- `TimedUnlock` is a manual lock action on an HA lock with every await succeeding, failing or being
  cancelled.
- `LockOrder` and `Lockdown` are the locks of all flows and the incident control.
- `SchedulePolicy` and `AccessPolicy` are schedules, alarm aggregation and the access decision.
- `RateLimit`, `Topology`, `Circuit` and `ClientLifecycle` are the durable algorithms and the small
  machines.

Environment assumptions: a readback returns the rule in force; a command that raises has taken
effect by then or never does; a failed write changes nothing, and a cancellation can end a critical
section before its commit or right behind it; time is one nondecreasing integer clock. Random
outcomes, clocks and answers of other systems are parameters, nondeterministic choices or actions.

Three promises turned out not to hold as stated.

- A hub under an app-issued hold does not always have its durable row. When a replacement hold has
  been journaled but its command failed, `_observe_access_side` reads the manager's own earlier
  rule, takes it for a replacement made elsewhere and deletes the row
  (`HoldProtocol.StrandedOpenDoor`). `HoldProtocol.HoldsAreJournaledIff` says exactly when a run is
  safe, and `HoldProtocol.SupersessionTestIsSafeIff` which tests of the observed rule are safe in
  all runs: exactly those that never take one persistent hold for the replacement of the other.
- A durable relock does not always have its timer. The relock manager awaits the database between
  the commit of a row and the start of its timer; a cancellation there leaves the new row beside the
  old timer, or without one. `RelockProtocol.AttendedIffUnexposed` says exactly which steps do it,
  and `RelockProtocol.ShieldsAreNeededIff` that every one of the writing calls would need a shield.
  What survives: the mismatched timer neither commands nor deletes
  (`RelockProtocol.MismatchedTimerIsHarmless`), and once row and timer are due the lock command for
  the row goes out in every fair order of timers and sweeps (`RelockProgress.RowIsLockedInTheEnd`).
- A hold row that `_record_hub_state` has committed is not always in a list of the running process,
  for the same reason (`HoldProtocol.LostRow`); `HoldProtocol.RowsAreTrackedIff` gives the
  condition, and the next reload finds the row.

One promise holds, and its bound is sharp: the final deletion of a recovered relock compares
deadlines only, yet removes no newer row for any duration the settings pages accept (1 to 300
seconds). `RelockProtocol.DurationsAreSafeIff` shows that positive durations are exactly the safe
ones, and `RelockProtocol.NewerRowSurvivesIff` when a schedule survives that deletion.

Check everything with `dafny verify dfyconfig.toml`.

## Main results

| promise | proved by |
|---|---|
| Every app-issued hold has a durable row, exactly when | `HoldProtocol.HoldsAreJournaledIff`, `HoldProtocol.SupersessionTestIsSafeIff` |
| Every durable hold row is known to the process, exactly when | `HoldProtocol.RowsAreTrackedIff`, `HoldProtocol.LostRow` |
| Recovery closes or queues every held hub it does not adopt, and a marker is honoured once | `HubRecovery.HubSyncManager.Recover`, `HubRecovery.RecoverAgainAndAgain` |
| Unlocks are justified, latches hold, failed drives are retried, converged pairs stay quiet, over all runs | `Reconcile.EveryUnlockIsJustified`, `Reconcile.LatchHolds`, `Reconcile.FailedDrivesKeepAsking`, `Reconcile.ConvergedPairStaysQuiet` |
| The in-place pass is the function those are about | `Reconcile.PairMemory.Reconcile` |
| At most eight hold-opens in any five minutes, over all runs | `FlapGate.AnyRun` |
| Every row is timed, paused or overdue, exactly when; and which calls need a shield | `RelockProtocol.AttendedIffUnexposed`, `RelockProtocol.ShieldsAreNeededIff` |
| A due row gets its lock command in every fair order of timers and sweeps, whatever was cut | `RelockProgress.RowIsLockedInTheEnd`, `RelockProgress.SomeStepLeads`, `RelockProgress.LeadingStepStays` |
| Lock commands are for the current row, and newer rows survive, exactly when | `RelockProtocol.CommandsAreForTheCurrentRow`, `RelockProtocol.DurationsAreSafeIff` |
| A manual action leaves the promised relock and balanced locks on every exit | `TimedUnlock.LockAction.Execute` |
| No cycle of waiting flows of any length | `LockOrder.NoWaitCycle`, `LockOrder.SomebodyCanMove` |
| Nothing opens after the drain of a lockdown, through any crashes | `Lockdown.NothingOpensAfterTheDrain`, `Lockdown.UnpersistedLockdownEndsWithTheProcess` |
| The schedule code is a union of windows on the circle of the week | `SchedulePolicy.ScheduleIsUnionOfWindows` |
| Past a blocking panel only an unblocked disarmer opens | `AccessPolicy.GrantPastABlockingPanel` |
| A bound on the attempts allowed within a window, and which pruning is invisible | `RateLimit.AllowedWithinAWindow`, `RateLimit.PruningIsInvisibleIff` |
| A second equal sync changes nothing | `Topology.SyncTwice` |
| One probe per half-open episode | `Circuit.ProbesAreSpaced` |
| Closing always progresses, and nothing starts after it | `ClientLifecycle.CloseAlwaysProgresses`, `ClientLifecycle.NothingStartsAfterClosing` |

## Model

| member | source | states |
|---|---|---|
| `HoldProtocol.HoldsAreWriteAhead` | access_control/rootfs/opt/access_control/hub_sync.py:2505-2559 | A hub is sent `keep_lock` exactly when the row was journaled first or lockdown is being enforced, on the apply, release and shared-hub paths; native control is restored exactly when neither lockdown nor the latch asks for a persistent rule |
| `HoldProtocol.StepKeepsInv` | access_control/rootfs/opt/access_control/hub_sync.py:2707-2761 | Every action except the deletion of the row of one's own hold keeps every app-issued hold journaled (or excused: a `keep_lock` of lockdown enforcement after a failed write) |
| `HoldProtocol.StepKeepsTracked` | access_control/rootfs/opt/access_control/hub_sync.py:2813-2833 | Every step but one keeps each durable row in held-open, held-locked or the release queue of a process that has loaded the table, crash and failed write included; the exception is a journal write cut behind its commit for a key in no list |
| `HoldProtocol.ReloadTracksEverything` | access_control/rootfs/opt/access_control/hub_sync.py:2813-2833 | A reload of the table finds every row, also one that such a cut had lost |
| `HoldProtocol.RowsAreTrackedIff` | access_control/rootfs/opt/access_control/database.py:2320-2352 | From the start of a run or any reload on, every durable row is in a list of the loaded process in every state if and only if no journal write of an unlisted key was cut behind its commit |
| `HoldProtocol.LostRow` | access_control/rootfs/opt/access_control/hub_sync.py:2707-2761 | The condition does fail: a run in which the first `keep_lock` row of a hub is journaled, the request is cancelled behind the commit, and the loaded process has the row in no list until the next reload |
| `HoldProtocol.InvAlongRun` | access_control/rootfs/opt/access_control/hub_sync.py:2505-2640 | In every run without such a deletion, every app-issued hold is journaled in every state and every suspended flow keeps its promise |
| `HoldProtocol.ClearingOwnHoldIsUnsafe` | access_control/rootfs/opt/access_control/hub_sync.py:1841-1868 | Deleting the row of a hub that is still under this entity's own hold always leaves an unjournaled hold |
| `HoldProtocol.HoldsAreJournaledIff` | access_control/rootfs/opt/access_control/hub_sync.py:1841-1868 | A run keeps every app-issued hold journaled in every state if and only if the supersession branch never deletes the row of the entity's own hold |
| `HoldProtocol.StrandedOpenDoor` | access_control/rootfs/opt/access_control/hub_sync.py:1841-1868 | The promise is false of the code: a run in which a fail-safe `keep_lock` is journaled, its command is rejected, the next observation mistakes the manager's own `keep_unlock` for a replacement, and after a crash the door is held open with no row and nothing queued |
| `HoldProtocol.SupersededStaysPlain` | access_control/rootfs/opt/access_control/hub_sync.py:1841-1868 | If observers act only on rules that are no persistent hold, the rule of a hub whose row is being deleted is never app-issued, through any interleaving |
| `HoldProtocol.SafeWhenOnlyPlainRulesSupersede` | access_control/rootfs/opt/access_control/hub_sync.py:1841-1868 | A check the observer can make before it forgets ownership (the rule read back is not a persistent hold) keeps every hold journaled in every run |
| `HoldProtocol.FailToOpen` | access_control/rootfs/opt/access_control/hub_sync.py:2560-2562 | The mirror image of a failed close is reachable: a `keep_lock` in force under a row that already says `keep_unlock` |
| `HoldProtocol.MistakeIsUnsafe` | access_control/rootfs/opt/access_control/hub_sync.py:1841-1868 | From either mistaken observation any test that accepts it leads to an unjournaled hold |
| `HoldProtocol.SupersessionTestIsSafeIff` | access_control/rootfs/opt/access_control/hub_sync.py:1853-1861 | A supersession test on journaled override and type read back keeps every hold journaled in all runs if and only if it never takes one persistent hold for the replacement of the other; the test of the code does |
| `HubRecovery.AppendUnique` | access_control/rootfs/opt/access_control/hub_sync.py:2791-2811 | Merging hubs keeps the target as a prefix, yields exactly the union and introduces no duplicate |
| `HubRecovery.HubSyncManager.JournalLocked` | access_control/rootfs/opt/access_control/hub_sync.py:2707-2761 | The ownership row and both in-memory lists change together, or none of them when the write fails; other entities are untouched |
| `HubRecovery.HubSyncManager.ForgetHold` | access_control/rootfs/opt/access_control/hub_sync.py:2707-2761 | Ownership disappears from the row and both lists together, or not at all when the write fails |
| `HubRecovery.HubSyncManager.DriveHub` | access_control/rootfs/opt/access_control/hub_sync.py:3469-3664 | Bounded retries, told from how each attempt went: a command goes out exactly if some attempt found an available client before an urgent lockdown ended the drive; the hub counts as deferred exactly if no attempt found one; success is a confirmed last attempt; only a confirmed `keep_lock` makes a hub count as closed and any other command that went out stops it from counting |
| `HubRecovery.HubSyncManager.ReleaseOne` | access_control/rootfs/opt/access_control/hub_sync.py:3154-3214 | A latched or enforced release leaves the queue only with a `keep_lock` row and a confirmed `keep_lock`, an ordinary one only with its row deleted, both only with a command sent; the hub is commanded or deferred unless an urgent lockdown ended its drive |
| `HubRecovery.HubSyncManager.ReleaseHubs` | access_control/rootfs/opt/access_control/hub_sync.py:3157-3214 | Unless an urgent lockdown cuts in, every queued hub of an entity is sent a command or finds no available client in any attempt; whatever is not done stays queued, and what leaves the queue was sent a command and has its row rewritten to `keep_lock` (latched or enforcing) or deleted |
| `HubRecovery.HubSyncManager.ReleaseEntity` | access_control/rootfs/opt/access_control/hub_sync.py:3154-3255 | Processing one entity loses no row it should keep and leaves every hub closed or queued, also when an urgent lockdown cuts the loop or a drive short; otherwise each of its hubs was commanded or deferred for want of a client |
| `HubRecovery.HubSyncManager.ProcessPendingReleases` | access_control/rootfs/opt/access_control/hub_sync.py:3136-3256 | A pass over the queue sends every queued hub a command, unless the hub was deferred because no attempt found an available client, or an urgent lockdown cut the pass or a drive short; with every entity latched (or enforcing) it removes no row and keeps every hub closed or queued; otherwise rows disappear only for unlatched entities whose hub was queued |
| `HubRecovery.HubSyncManager.LoadRow` | access_control/rootfs/opt/access_control/hub_sync.py:2813-2833 | A row enters the list its override names and the release queue, and nothing else changes |
| `HubRecovery.HubSyncManager.LoadPersistedHolds` | access_control/rootfs/opt/access_control/hub_sync.py:2813-2833 | After the load memory mirrors the table exactly |
| `HubRecovery.HubSyncManager.QueueRelease` | access_control/rootfs/opt/access_control/hub_sync.py:3077-3134 | Everything held enters the queue, and with it the resolved hubs and, from an open baseline, the paired ones; nothing queued leaves it and nothing else enters |
| `HubRecovery.HubSyncManager.ConsumeMarker` | access_control/rootfs/opt/access_control/hub_sync.py:2894-2931 | The ids believed are those of a well-formed, fresh marker that could be deleted; the marker is gone whenever it was believed |
| `HubRecovery.HubSyncManager.ConfirmHeldOpen` | access_control/rootfs/opt/access_control/hub_sync.py:2962-2977 | True exactly when every held hub reads `keep_unlock` and unlocked |
| `HubRecovery.HubSyncManager.PreserveCleanHolds` | access_control/rootfs/opt/access_control/hub_sync.py:2933-2991 | Exactly the candidates that still opt in, hold only open, and read open on both sides |
| `HubRecovery.HubSyncManager.AdoptedExactly` | access_control/rootfs/opt/access_control/hub_sync.py:2848-2872 | The set read off memory equals the set the durable rows, the marker and the readings justify |
| `HubRecovery.HubSyncManager.Adopt` | access_control/rootfs/opt/access_control/hub_sync.py:696-702 | Re-adopted entities leave the queue and count as applied open; all others are untouched |
| `HubRecovery.HubSyncManager.LoadAndAdopt` | access_control/rootfs/opt/access_control/hub_sync.py:661-702 | Load, marker and readings together adopt exactly the justified entities and leave every other durable hold queued |
| `HubRecovery.HubSyncManager.ReleaseRest` | access_control/rootfs/opt/access_control/hub_sync.py:703-712 | Everything not re-adopted is queued and gets its turn (a command, or a deferral for want of a client) unless an urgent lockdown cuts in, without losing a row or forgetting a hub |
| `HubRecovery.HubSyncManager.Recover` | access_control/rootfs/opt/access_control/hub_sync.py:642-720 | No row is lost; the adopted entities are exactly those a fresh single-use marker, the opt-in, no lockdown and both readbacks vouch for; every other durably held hub is under a confirmed `keep_lock` or still queued; it was sent a command, or no attempt of its drive found an available Access client, or an urgent lockdown cut the pass or a drive short; in lockdown nothing is adopted and nothing cut short |
| `HubRecovery.RecoverOnce` | access_control/rootfs/opt/access_control/hub_sync.py:642-720 | One process on the durable state it finds: it adopts what rows, marker and readings justify, and adopting anything uses the marker up |
| `HubRecovery.RecoverAgainAndAgain` | access_control/rootfs/opt/access_control/hub_sync.py:2894-2931 | Any number of processes in a row, with any rows written and deleted by normal operation in between: each adopts exactly what is justified by what it finds, a row that one process found is lost to the next only if normal operation deleted it, and of two that adopt anything the later one found a marker written after the earlier one |
| `Reconcile.OpenSideMeansOpenRelays` | access_control/rootfs/opt/access_control/hub_sync.py:1784-1906 | The Access side reads unlocked if and only if every hub reported an opening rule and an open relay; an authoritative locked relay means the side reads locked |
| `Reconcile.PassKeepsConsistent` | access_control/rootfs/opt/access_control/hub_sync.py:1970-2396 | No pass remembers HA locked beside Access unlocked |
| `Reconcile.UnlocksAreJustified` | access_control/rootfs/opt/access_control/hub_sync.py:2072-2177 | An unlock is sent only with both sides readable, no latch, and an active schedule with an open relay as first baseline or exactly one side moved to unlocked from a locked pair |
| `Reconcile.UnlockDecisionsAreJustified` | access_control/rootfs/opt/access_control/hub_sync.py:2072-2177 | Only a schedule start or one side's own move from a locked pair is decided as an unlock |
| `Reconcile.UnlockTargetsTheLockedSide` | access_control/rootfs/opt/access_control/hub_sync.py:2232-2290 | The unlock is the first command of its pass and goes to the side that still reads locked, toward Access only when the relock that the lock asks for on an HA-origin unlock, if any, is secured |
| `Reconcile.LatchedSendsNoUnlock` | access_control/rootfs/opt/access_control/hub_sync.py:2150-2158 | A latched pair is never sent an unlock |
| `Reconcile.LatchReleaseNeedsBothLocked` | access_control/rootfs/opt/access_control/hub_sync.py:2292-2394 | A pass clears the latch only with HA locked (read or driven and confirmed) and an authoritative locked relay, and then both baselines say locked |
| `Reconcile.FailedDriveIsRetried` | access_control/rootfs/opt/access_control/hub_sync.py:2232-2340 | A failed drive leaves the three baselines unchanged and the same readings at any later time ask for the same state |
| `Reconcile.ReleaseOnSightMatchesReadings` | access_control/rootfs/opt/access_control/hub_sync.py:2292-2317 | The one failed drive that moves baselines had read both sides and the relay locked |
| `Reconcile.ExecuteAgreesOrKeeps` | access_control/rootfs/opt/access_control/hub_sync.py:2232-2349 | Executing a decision either leaves the baselines alone or makes them agree |
| `Reconcile.DecideAgain` | access_control/rootfs/opt/access_control/hub_sync.py:2072-2177 | Deciding again, later, on what a decision left in memory comes to the same state |
| `Reconcile.ConvergedPassSettles` | access_control/rootfs/opt/access_control/hub_sync.py:3033-3067 | A converged unlatched pass leaves both baselines equal to the desired state |
| `Reconcile.SettledPassIsQuiet` | access_control/rootfs/opt/access_control/hub_sync.py:2076-2079 | A pass over undisturbed readings of a settled pair sends nothing and keeps it settled |
| `Reconcile.EventKeepsConsistent` | access_control/rootfs/opt/access_control/hub_sync.py:1456-1526 | Leases, latches, pairing changes, re-adoption, restored snapshots and restarts keep the baselines consistent as well |
| `Reconcile.ConsistentAlongRun` | access_control/rootfs/opt/access_control/hub_sync.py:1970-2396 | Baselines are consistent in every state of every run |
| `Reconcile.EveryUnlockIsJustified` | access_control/rootfs/opt/access_control/hub_sync.py:1970-2177 | Every unlock ever sent in any run is justified by the readings and baselines of its pass |
| `Reconcile.LatchHolds` | access_control/rootfs/opt/access_control/hub_sync.py:2150-2158 | From a latch until both sides were seen locked, an opt-out or a shutdown, a run stays latched and sends no unlock |
| `Reconcile.FailedDrivesKeepAsking` | access_control/rootfs/opt/access_control/hub_sync.py:2232-2340 | However often the drive for the same readings fails in a run, the next attempt asks for the same state |
| `Reconcile.ConvergedPairStaysQuiet` | access_control/rootfs/opt/access_control/hub_sync.py:2351-2396 | After a converged unlatched pass a run over undisturbed readings sends no command at all and stays settled |
| `Reconcile.PairMemory.Agree` | access_control/rootfs/opt/access_control/hub_sync.py:3062-3067 | The three baselines take the agreed state and rule and nothing else changes |
| `Reconcile.PairMemory.Classify` | access_control/rootfs/opt/access_control/hub_sync.py:2072-2151 | The branch chain computes the arbitration of the specification |
| `Reconcile.PairMemory.Await` | access_control/rootfs/opt/access_control/hub_sync.py:1986-2056 | The bolt-in-motion window and the momentary lease postpone the pass as specified |
| `Reconcile.PairMemory.Resolve` | access_control/rootfs/opt/access_control/hub_sync.py:2150-2177 | Latch and durable-relock requirement override the arbitration as specified |
| `Reconcile.PairMemory.Conclude` | access_control/rootfs/opt/access_control/hub_sync.py:2351-2396 | Persistence, compensation of an unrecorded open state, and latch release as specified |
| `Reconcile.PairMemory.Drive` | access_control/rootfs/opt/access_control/hub_sync.py:2179-2349 | Gates and drives of one pass leave the state and send the commands of the specification |
| `Reconcile.PairMemory.Reconcile` | access_control/rootfs/opt/access_control/hub_sync.py:1970-2396 | The stepwise pass refines the function all the promises above are about |
| `FlapGate.RecentIsSuffix` | access_control/rootfs/opt/access_control/hub_sync.py:2218-2222 | Pruning an ordered drive list drops a prefix, and only drives older than the window |
| `FlapGate.WindowHoldsAtMostThreshold` | access_control/rootfs/opt/access_control/hub_sync.py:88-89 | If nine hold-opens in a row never fit into a window, no 300-second window holds more than eight |
| `FlapGate.AppendKeepsHistory` | access_control/rootfs/opt/access_control/hub_sync.py:2672-2686 | A hold-open let through by the gate keeps the history bounded and spaced |
| `FlapGate.PruneKeepsMatching` | access_control/rootfs/opt/access_control/hub_sync.py:2218-2222 | The drive list stays the tail of the history, and what it lost has left the window |
| `FlapGate.RecordKeepsMatching` | access_control/rootfs/opt/access_control/hub_sync.py:2680-2686 | Recording a drive keeps the list the tail of the history |
| `FlapGate.RoomMeansSpread` | access_control/rootfs/opt/access_control/hub_sync.py:2218-2225 | A list with room means the eighth-last hold-open is out of the window, across suspensions that cleared the list |
| `FlapGate.Gate.HoldOpenAllowed` | access_control/rootfs/opt/access_control/hub_sync.py:2195-2225 | The gate opens exactly when not suspended, not backing off, ten seconds after the last drive and with fewer than eight recent drives; a full window suspends for 600 seconds and clears the list |
| `FlapGate.Gate.HasRoom` | access_control/rootfs/opt/access_control/hub_sync.py:2218-2225 | With room in the window the eighth-last hold-open has left it; without room the entity is suspended |
| `FlapGate.OneAttempt` | access_control/rootfs/opt/access_control/hub_sync.py:2195-2225 | One attempt extends the history by exactly the drive the gate let through |
| `FlapGate.Gate.Prune` | access_control/rootfs/opt/access_control/hub_sync.py:2218-2222 | The list keeps exactly the drives inside the window |
| `FlapGate.Gate.Suspend` | access_control/rootfs/opt/access_control/hub_sync.py:2763-2784 | Suspension clears list, last drive and backoff, and the history survives it |
| `FlapGate.Gate.RecordDrive` | access_control/rootfs/opt/access_control/hub_sync.py:2672-2686 | A drive is appended to the pruned list and, if it was a hold-open, to the history |
| `FlapGate.AnyRun` | access_control/rootfs/opt/access_control/hub_sync.py:2195-2225 | For any chronological run of attempts, drives and backoffs: at most eight hold-opens in any 300-second window, each started at least ten seconds after the previous recorded drive |
| `RelockCore.RetainLeavesARelock` | access_control/rootfs/opt/access_control/relock_manager.py:277-300 | An ambiguous unlock leaves a durable row with the earlier of predecessor and write-ahead deadline, the write-ahead row itself if the database fails; it is armed exactly unless the write was cut while it moved the deadline |
| `RelockCore.RestoreUndoesSchedule` | access_control/rootfs/opt/access_control/relock_manager.py:205-275 | A committed rollback gives back the exact predecessor row, armed if there was one and the write was not cut |
| `RelockCore.ResumeUndoesPause` | access_control/rootfs/opt/access_control/relock_manager.py:373-427 | Resume re-arms exactly what pause found; a failed read leaves it paused and durable |
| `RelockCore.NewerScheduleWins` | access_control/rootfs/opt/access_control/relock_manager.py:223-242 | After a newer schedule with a different deadline, cut or completed, no older token, sweep snapshot or resume changes row or timer or may command |
| `RelockCore.NewerTaskWins` | access_control/rootfs/opt/access_control/relock_manager.py:235-242 | Even with an equal deadline, task identity keeps older tokens and timers of a running manager from touching a newer schedule |
| `RelockProtocol.StepKeepsLiveOk` | access_control/rootfs/opt/access_control/relock_manager.py:130-203 | Every step, cut or not, keeps the live task one that is running, is a timer of the deadline it was started for and belongs to a manager that is neither paused nor shut down |
| `RelockProtocol.StepKeepsTokenOk` | access_control/rootfs/opt/access_control/relock_manager.py:205-242 | The intent of a timed client goes on naming the timer and the row of its own schedule and nothing newer |
| `RelockProtocol.StepKeepsHolderOk` | access_control/rootfs/opt/access_control/relock_manager.py:783-870 | While a lock command is in flight the row is the one it was issued for; afterwards any other row has a later deadline |
| `RelockProtocol.StepKeepsInv` | access_control/rootfs/opt/access_control/relock_manager.py:130-429 | All of the above together, for every step: clients, timers, sweeps, failed and cut writes, shutdown and crash |
| `RelockProtocol.InvAlongRun` | access_control/rootfs/opt/access_control/relock_manager.py:130-429 | In every state of every run with positive schedule durations, cuts included |
| `RelockProtocol.StepIsAttendedIff` | access_control/rootfs/opt/access_control/relock_manager.py:168-196 | A step from an attended state leaves the row attended (live timer for the durable deadline, no future row of a rehydrated process without timer or pause) if and only if it is not an exposing one: a cut that moves the deadline beside a live timer or leaves a future row without one, or a resume or rehydration that acts for a row a cut has replaced |
| `RelockProtocol.AttendedIffUnexposed` | access_control/rootfs/opt/access_control/relock_manager.py:168-196 | Over any stretch of any run from an attended state: every state is attended if and only if no step exposes the row |
| `RelockProtocol.ExposureNeedsACut` | access_control/rootfs/opt/access_control/relock_manager.py:245-272 | Every exposing step is a cut write or comes after one |
| `RelockProtocol.ScheduleRearms` | access_control/rootfs/opt/access_control/relock_manager.py:168-203 | A completed schedule makes the row attended and armed again, whatever was cut before |
| `RelockProtocol.PauseThenResumeRearms` | access_control/rootfs/opt/access_control/relock_manager.py:373-427 | So does a pause that is resumed, also after an earlier pause that was never resolved |
| `RelockProtocol.UncutStepKeepsSound` | access_control/rootfs/opt/access_control/relock_manager.py:130-429 | As long as nothing is cut, the live timer is the one started for this very row, and whoever acts for a paused or not yet rehydrated row knows its deadline |
| `RelockProtocol.EveryRowIsCovered` | access_control/rootfs/opt/access_control/relock_manager.py:450-500 | Up to the first cut of a run: the row of a rehydrated running manager has the live timer started for exactly this row, is paused, or is overdue |
| `RelockProtocol.MismatchedTimerIsHarmless` | access_control/rootfs/opt/access_control/relock_manager.py:793-800 | A timer that is superseded, or that a cut left beside a row with another deadline, issues no command and never touches the row |
| `RelockProtocol.TimerCommandsOrYields` | access_control/rootfs/opt/access_control/relock_manager.py:707-716 | A due live timer either commands for the row or, if its deadline is not the row's, gives way and leaves the row to the sweep |
| `RelockProtocol.SweepReachesOverdueRow` | access_control/rootfs/opt/access_control/relock_manager.py:474-500 | An overdue row without a timer is picked up: the sweep ends in a lock command for exactly that row |
| `RelockProtocol.RowCanBeLocked` | access_control/rootfs/opt/access_control/relock_manager.py:474-500 | From every state of every run, cuts included: with the command lock free, no pause and no shutdown, time, timers and sweeps can run such that a lock command for exactly the durable row goes out |
| `RelockProgress.DistanceNeverGrows` | access_control/rootfs/opt/access_control/relock_manager.py:530-622 | No step of a timer or sweep, of any generation and in any order, takes a due row further from its lock command |
| `RelockProgress.SomeStepLeads` | access_control/rootfs/opt/access_control/relock_manager.py:474-500 | While the command for a due row is not out, some step that leads to it is enabled |
| `RelockProgress.LeadingStepIsCloser` | access_control/rootfs/opt/access_control/relock_manager.py:783-870 | Every leading step takes the row closer, counting also the flows that will be refused but stand before it in the queue for the command lock |
| `RelockProgress.LeadingStepStays` | access_control/rootfs/opt/access_control/relock_manager.py:783-870 | A leading step stays enabled and leading until one is taken, so an event loop that starves nobody takes one |
| `RelockProgress.RowIsLockedInTheEnd` | access_control/rootfs/opt/access_control/relock_manager.py:474-622 | Every order of steps: a path of time, timers and sweeps from a due row reaches its lock command, or the settlement of a confirmed lock, by the time as many leading steps have been taken as the row was away |
| `RelockProgress.CarriedIsForTheRow` | access_control/rootfs/opt/access_control/relock_manager.py:583-622 | What is reached is for the row that was due: the command in flight carries its deadline and generation, and a row that is gone was deleted after a confirmed lock of that generation |
| `RelockProgress.TimeMakesDue` | access_control/rootfs/opt/access_control/relock_manager.py:474-500 | Every row of a running, unpaused entity without a client becomes due by time alone |
| `RelockProtocol.RowDisappearsOnlyWhenDone` | access_control/rootfs/opt/access_control/relock_manager.py:583-622 | A row disappears only through cancel or a confirmed lock issued for that very row |
| `RelockProtocol.CommandsAreForTheCurrentRow` | access_control/rootfs/opt/access_control/relock_manager.py:783-812 | A lock command is in flight only for the row that is durable at that moment, overdue, and unable to change under it |
| `RelockProtocol.WorkersNeverTouchANewerRow` | access_control/rootfs/opt/access_control/relock_manager.py:707-716 | Timers and sweeps never overwrite a row and delete only the generation their confirmed command was for |
| `RelockProtocol.EveryCutCanExpose` | access_control/rootfs/opt/access_control/relock_manager.py:325-341 | For each of the five writing calls (schedule by a client or by the hub poll, retain, extend, cancel) a run in which clients keep to their order of calls, that one call is cut and nothing else, and the row ends unattended |
| `RelockProtocol.CutCancelExposesIff` | access_control/rootfs/opt/access_control/relock_manager.py:344-355 | A cut deletion leaves the row unattended exactly if there is a live timer beside it, and so never while the pause before it is in force, only after a schedule has overtaken that pause |
| `RelockProtocol.ShieldsAreNeededIff` | access_control/rootfs/opt/access_control/lock_actions.py:648-679 | With clients that schedule or pause once per hold of the command lock and then resolve: every row is attended in every state of all runs if and only if none of the writing calls can be cut, so each of them needs a shield from cancellation |
| `RelockProtocol.NewerRowSurvivesIff` | access_control/rootfs/opt/access_control/relock_manager.py:600-612 | A schedule that lands between a confirmed recovery and its deletion survives if and only if the settling flow is a timer or the new deadline differs; any positive duration makes it differ |
| `RelockProtocol.UselessDurationLosesTheRow` | access_control/rootfs/opt/access_control/relock_manager.py:600-612 | For every duration that is not positive, a concrete run in which a schedule in that window loses its row while its timer waits |
| `RelockProtocol.DurationsAreSafeIff` | access_control/rootfs/opt/access_control/relock_manager.py:570-622 | Timers and sweeps leave newer rows alone in all runs if and only if every allowed duration is positive |
| `RelockManagement.RelockManager.Schedule` | access_control/rootfs/opt/access_control/relock_manager.py:130-203 | One entity takes the new row, timer and unpaused state, only the row if the await is cancelled behind the commit, or nothing after a failed write or during shutdown; no other entity changes |
| `RelockManagement.RelockManager.RestoreAfterFailedUnlock` | access_control/rootfs/opt/access_control/relock_manager.py:205-275 | Rolls back exactly when the intent still owns the entity: row, timer and pause, only the row after a cut, nothing after a failure |
| `RelockManagement.RelockManager.RetainAfterUncertainUnlock` | access_control/rootfs/opt/access_control/relock_manager.py:277-300 | Restores only an earlier predecessor, otherwise reports whether the intent is still durable |
| `RelockManagement.RelockManager.ExtendAfterSuccess` | access_control/rootfs/opt/access_control/relock_manager.py:302-342 | Moves the deadline by compare-and-swap exactly when the intent owns row and timer; after a cut the old timer stays beside the new deadline |
| `RelockManagement.RelockManager.Cancel` | access_control/rootfs/opt/access_control/relock_manager.py:344-355 | Row, timer and pause go together, only the row after a cut, none of them when the delete fails |
| `RelockManagement.RelockManager.Pause` | access_control/rootfs/opt/access_control/relock_manager.py:373-388 | The timer stops, the row stays, the entity is paused if it had a row |
| `RelockManagement.RelockManager.Resume` | access_control/rootfs/opt/access_control/relock_manager.py:390-427 | Re-arms exactly the paused deadline if it is still the durable one |
| `RelockManagement.RelockManager.Shutdown` | access_control/rootfs/opt/access_control/relock_manager.py:429-448 | Every timer and pause is dropped, no row is; idempotent |
| `RelockManagement.RelockManager.InspectRow` | access_control/rootfs/opt/access_control/relock_manager.py:541-567 | Arms a future row or reports an overdue one exactly when it is current, unpaused and without a timer |
| `RelockManagement.RelockManager.FinishRecovery` | access_control/rootfs/opt/access_control/relock_manager.py:600-622 | Deletes the row exactly when the lock was confirmed and the deadline is still the recovered one |
| `RelockManagement.RelockManager.RecoverRows` | access_control/rootfs/opt/access_control/relock_manager.py:450-500 | A whole sweep or rehydration recovers every snapshot row as specified, touches no other entity and counts the rows it removed |
| `TimedUnlock.BuzzComposes` | access_control/rootfs/opt/access_control/lock_actions.py:542-595 | Schedule, command, concurrent hub schedule, readback and extend or retain, each completed, failed, or cut behind its commit, compose to the promised deadline, armed exactly unless the last write was cut while it moved the deadline |
| `TimedUnlock.CleanupResolvesBuzz` | access_control/rootfs/opt/access_control/lock_actions.py:331-336 | The exception cleanup completes a pending intent to the promised deadline and arms it exactly where it can; a row that a cut has moved is left to its promise |
| `TimedUnlock.CleanupResolvesHold` | access_control/rootfs/opt/access_control/lock_actions.py:338-342 | The exception cleanup lifts the pause and re-arms a surviving row, or leaves it durable and paused when its read fails, also after a deletion that was cut |
| `TimedUnlock.HoldComposes` | access_control/rootfs/opt/access_control/lock_actions.py:599-643 | Pause, command, concurrent hub schedule, readback and cancel or resume compose to the promised row, timer and pause on every path; after a cut deletion the pause, or the timer of a concurrent schedule, remains |
| `TimedUnlock.LockAction.ReleaseBarrierNow` | access_control/rootfs/opt/access_control/lock_actions.py:302-306 | The barrier is given back at most once however often it is released |
| `TimedUnlock.LockAction.Issue` | access_control/rootfs/opt/access_control/lock_actions.py:562-564 | A command is issued once, holding entity lock and barrier, and a dangerous one only with lockdown seen off |
| `TimedUnlock.LockAction.BuzzBody` | access_control/rootfs/opt/access_control/lock_actions.py:534-598 | Relock and intent after the buzz branch, for every outcome of every await; a schedule cut behind its commit leaves its row without a timer of its own |
| `TimedUnlock.LockAction.BuzzResolve` | access_control/rootfs/opt/access_control/lock_actions.py:564-598 | Readback resolves the intent without the barrier |
| `TimedUnlock.LockAction.HoldBody` | access_control/rootfs/opt/access_control/lock_actions.py:599-643 | Row and pause after the lock or unlock branch, for every outcome of every await |
| `TimedUnlock.LockAction.HoldCommand` | access_control/rootfs/opt/access_control/lock_actions.py:604-643 | From the bookkeeping before the command to its readback, one change of the relock state fixed by the outcomes |
| `TimedUnlock.LockAction.HoldResolve` | access_control/rootfs/opt/access_control/lock_actions.py:618-643 | A confirmed hold clears the row, an unconfirmed one resumes the pause |
| `TimedUnlock.LockAction.TryAction` | access_control/rootfs/opt/access_control/lock_actions.py:347-362 | An action that does not reach its command leaves relock, intent and pause untouched |
| `TimedUnlock.LockAction.CleanUp` | access_control/rootfs/opt/access_control/lock_actions.py:664-679 | Retain or resume, whichever is pending |
| `TimedUnlock.LockAction.Abandon` | access_control/rootfs/opt/access_control/lock_actions.py:654-679 | An attempted command that failed or was cancelled is published as unknown before its cleanup |
| `TimedUnlock.LockAction.Handle` | access_control/rootfs/opt/access_control/lock_actions.py:648-741 | Cancellation re-raises after cleanup, any other exception becomes an error, and an attempted command is published as unknown |
| `TimedUnlock.LockAction.HandledConcludes` | access_control/rootfs/opt/access_control/lock_actions.py:648-741 | Body and handlers together leave what an action promises |
| `TimedUnlock.LockAction.Run` | access_control/rootfs/opt/access_control/lock_actions.py:347-752 | The outer try with its handlers: locks balanced, result and relock as promised |
| `TimedUnlock.LockAction.Execute` | access_control/rootfs/opt/access_control/lock_actions.py:348-753 | On every exit and from every relock state: entity lock and barrier are each released exactly as often as taken; a buzz whose schedule succeeded, whether or not its command went out, leaves a row of exactly the promised deadline, with a live timer of that deadline if and only if its last write was not cut while it moved the deadline; a hold leaves row, timer and pause as its outcome demands; granted exactly when confirmed; unconfirmed commands are published as unknown |
| `LockOrder.LocksAreWaitedFor` | access_control/rootfs/opt/access_control/relock_manager.py:783-789 | A flow gains a lock only by waiting for it |
| `LockOrder.StepKeepsExclusive` | access_control/rootfs/opt/access_control/relock_manager.py:783-810 | Any step of any flow keeps the locks mutually exclusive |
| `LockOrder.ExclusiveAlongRun` | access_control/rootfs/opt/access_control/relock_manager.py:783-810 | So does every run of any number of flows |
| `LockOrder.WaitingLowersRank` | access_control/rootfs/opt/access_control/lock_actions.py:348-352 | Whoever holds a lock that another flow wants has strictly less left to wait for |
| `LockOrder.RankOfHolder` | access_control/rootfs/opt/access_control/auth_engine.py:1005-1009 | The same for two positions, from the locks they hold alone |
| `LockOrder.NoWaitCycle` | access_control/rootfs/opt/access_control/relock_manager.py:783-810 | No reachable state has a cycle of waiting flows of any length, over entity, generation, barrier, manager, poll and transition locks |
| `LockOrder.RankFallsAlong` | access_control/rootfs/opt/access_control/relock_manager.py:783-810 | Ranks fall along any chain of waiting flows |
| `LockOrder.SomebodyCanMove` | access_control/rootfs/opt/access_control/hub_sync.py:1913-1944 | Behind every blocked flow there is one that holds a lock and is not blocked |
| `LockOrder.UnblockedFlowsProceed` | access_control/rootfs/opt/access_control/hub_sync.py:3442-3498 | A flow that is not blocked can take its next step and then holds what it wanted |
| `LockOrder.OnlyTheEntityLockPreventsTheCycle` | access_control/rootfs/opt/access_control/relock_manager.py:786-789 | A command and a relock of one door would wait for each other; the entity lock is the only lock both hold in that position |
| `Lockdown.StepKeepsInv` | access_control/rootfs/opt/access_control/auth_engine.py:217-281 | Every step of enable, disable, load, crash and any flow keeps the lockdown invariant |
| `Lockdown.InvAlongRun` | access_control/rootfs/opt/access_control/auth_engine.py:217-281 | In every state of every run |
| `Lockdown.StepKeepsSealed` | access_control/rootfs/opt/access_control/auth_engine.py:217-281 | A stored lockdown that is in force once loaded, with no flow past its check, survives every step but a committed disable, and no command starts |
| `Lockdown.NothingOpensAfterTheDrain` | access_control/rootfs/opt/access_control/lock_actions.py:364-369 | Once an enable has persisted the flag and drained the barrier, no unsafe command of any flow starts until a disable is committed, through any number of crashes and restarts |
| `Lockdown.NothingOpensInThisProcess` | access_control/rootfs/opt/access_control/auth_engine.py:217-256 | Whether or not the flag could be persisted, none starts after the drain until the process crashes or a disable lowers the flag |
| `Lockdown.UnpersistedLockdownEndsWithTheProcess` | access_control/rootfs/opt/access_control/auth_engine.py:233-241 | A run in which the write of an enable fails and a command starts after a crash, without any disable: persistence is what carries a lockdown over |
| `Lockdown.AtMostOneLateCommand` | access_control/rootfs/opt/access_control/auth_engine.py:228-256 | Between publishing the flag and the drain at most one unsafe command starts |
| `Lockdown.FlagDownMeansStoredDown` | access_control/rootfs/opt/access_control/auth_engine.py:283-305 | At every crash point, a process that has loaded the flag and finds it down has no lockdown stored |
| `Lockdown.AcknowledgedLockdownSurvivesCrashes` | access_control/rootfs/opt/access_control/auth_engine.py:242-253 | A lockdown whose enable returned normally stays stored and in force through any crashes until a disable is committed |
| `Lockdown.Engine.SetLockdown` | access_control/rootfs/opt/access_control/auth_engine.py:217-281 | Flag, row, error and the order publish, persist, drain, enforce (enable) or persist, publish (disable), for every combination of failures |
| `Lockdown.Engine.LoadPersisted` | access_control/rootfs/opt/access_control/auth_engine.py:283-305 | The flag is down after a load exactly when the row was readable and not set |
| `SchedulePolicy.ScheduleIsUnionOfWindows` | access_control/rootfs/opt/access_control/auth_engine.py:1092-1169 | A schedule is active exactly when the rule is well formed and the minute of the week lies, modulo 10080, in the window of an allowed day |
| `SchedulePolicy.CoveredNow` | access_control/rootfs/opt/access_control/auth_engine.py:1135-1167 | Membership on the circle of the week needs only this week and the next |
| `SchedulePolicy.OnlyTheOpeningDayCovers` | access_control/rootfs/opt/access_control/auth_engine.py:1148-1156 | At any moment at most one day's window is open: yesterday's in the small hours of an overnight window, otherwise today's |
| `SchedulePolicy.DaysOnlyMeansWholeDays` | access_control/rootfs/opt/access_control/auth_engine.py:1135-1156 | A day list without times means those whole days; a list that names no day is never active |
| `SchedulePolicy.WindowIsContiguous` | access_control/rootfs/opt/access_control/auth_engine.py:1158-1167 | A window keeps its whole length past midnight, also from Sunday into Monday |
| `AccessPolicy.GetAlarmState` | access_control/rootfs/opt/access_control/auth_engine.py:1236-1294 | The loop computes the aggregate of the set of readings; unreadable tables and a missing client read as unknown |
| `AccessPolicy.AggregateIsUnique` | access_control/rootfs/opt/access_control/auth_engine.py:1263-1290 | The set of readings determines the aggregate |
| `AccessPolicy.AggregateIgnoresOrder` | access_control/rootfs/opt/access_control/auth_engine.py:1263-1290 | Permuted panel readings aggregate to the same state |
| `AccessPolicy.DisarmedIffEveryPanelIs` | access_control/rootfs/opt/access_control/auth_engine.py:1280-1282 | The aggregate is disarmed if and only if every panel is |
| `AccessPolicy.OwnStateBlockCarries` | access_control/rootfs/opt/access_control/auth_engine.py:389-395 | A group blocked for one armed panel's own state is blocked for the aggregate |
| `AccessPolicy.AggregateBlocksNoMoreWhenPanelsAgree` | access_control/rootfs/opt/access_control/auth_engine.py:389-395 | While the readings agree, the aggregate blocks exactly the groups some panel blocks |
| `AccessPolicy.OpenGateNeedsAnUnblockedDisarmer` | access_control/rootfs/opt/access_control/auth_engine.py:388-411 | Past a blocking panel only a scheduled disarm group opens the gate |
| `AccessPolicy.DisarmersAreBlockedByNoPanel` | access_control/rootfs/opt/access_control/auth_engine.py:396-402 | That group is on schedule and blocked by no panel's own state |
| `AccessPolicy.IsAuthorized` | access_control/rootfs/opt/access_control/auth_engine.py:436-484 | A lock is authorized by an active group that has it or by an enabled rule on schedule |
| `AccessPolicy.UnlockAll` | access_control/rootfs/opt/access_control/auth_engine.py:428-642 | The loop attempts exactly the authorized locks and reports exactly the confirmed ones, in order |
| `AccessPolicy.ProcessEvent` | access_control/rootfs/opt/access_control/auth_engine.py:304-662 | Nothing is attempted for unknown or inactive users, in lockdown or behind a closed gate; otherwise exactly the authorized locks are attempted and the confirmed ones granted; disarm exactly with a grant and a disarm group |
| `AccessPolicy.GrantPastABlockingPanel` | access_control/rootfs/opt/access_control/auth_engine.py:367-411 | From panel readings to decision: a grant past a blocked group, and any disarm, rests on a scheduled disarm group no panel blocks |
| `RateLimit.RateLimits.ConsumeRateLimit` | access_control/rootfs/opt/access_control/database.py:2168-2223 | An attempt is allowed exactly outside a lockout with fewer than `max` live attempts; it joins them, a refused one over the limit starts the lockout; other subjects are untouched |
| `RateLimit.RateLimits.RecordRateLimitFailure` | access_control/rootfs/opt/access_control/database.py:2103-2145 | A failure joins the live ones and the one that reaches `max` starts the lockout; other subjects are untouched |
| `RateLimit.RateLimits.IsRateLimited` | access_control/rootfs/opt/access_control/database.py:2078-2101 | Limited exactly during a lockout; an expired lockout row is dropped; other subjects are untouched |
| `RateLimit.RateLimits.PruneRuntimeState` | access_control/rootfs/opt/access_control/database.py:2267-2314 | Exactly the prunable rows disappear |
| `RateLimit.LiveIsSuffix` | access_control/rootfs/opt/access_control/database.py:2192-2194 | Filtering an ordered attempt list keeps a suffix: exactly the attempts inside the window |
| `RateLimit.LiveOfLive` | access_control/rootfs/opt/access_control/database.py:2192-2194 | Filtering early never changes a later filter |
| `RateLimit.StepKeepsRowOk` | access_control/rootfs/opt/access_control/database.py:2103-2145 | Every call keeps attempts ordered and in the past, and empty beside a lockout |
| `RateLimit.PruneIsAlike` | access_control/rootfs/opt/access_control/database.py:2286-2314 | A prune that keeps a window leaves a row no caller can tell from the unpruned one |
| `RateLimit.AlikeRowsAnswerAlike` | access_control/rootfs/opt/access_control/database.py:2168-2223 | Indistinguishable rows answer every call alike and stay indistinguishable |
| `RateLimit.PruningNeverChangesADecision` | access_control/rootfs/opt/access_control/database.py:2267-2314 | Any chronological mix of calls gets the same answers with every prune removed, if prunes keep at least a window |
| `RateLimit.PrunedBurstAllowsMore` | access_control/rootfs/opt/access_control/database.py:2267-2314 | For any limit whose window outlasts the retention: a full burst, a prune and one attempt more are all allowed |
| `RateLimit.UnprunedBurstRefuses` | access_control/rootfs/opt/access_control/database.py:2168-2223 | Without the prune the last attempt is refused |
| `RateLimit.PruningIsInvisibleIff` | access_control/rootfs/opt/access_control/database.py:2267-2314 | A retention never changes an answer in any chronological run if and only if nothing is ever allowed, nothing ever counts, or it covers the window |
| `RateLimit.FollowKeepsInv` | access_control/rootfs/opt/access_control/database.py:2168-2223 | The row is the tail of the allowed attempts; within an epoch they are dense, across epochs a lockout apart |
| `RateLimit.LeftTheWindow` | access_control/rootfs/opt/access_control/database.py:2192-2208 | When an attempt is allowed, the one `max` attempts before it in the same epoch has left the window |
| `RateLimit.EpochGrows` | access_control/rootfs/opt/access_control/database.py:2192-2220 | Within less than a window every `max` attempts cost a lockout |
| `RateLimit.AllowedWithinAWindow` | access_control/rootfs/opt/access_control/database.py:2168-2223 | In any run, attempts allowed within less than a window number at most max * ((window - 1) / lockout + 1), hence at most `max` when the lockout is no shorter than the window |
| `Topology.Normalize` | access_control/rootfs/opt/access_control/database.py:764-797 | The last duplicate wins, exactly the mentioned ids are kept, and seen + skipped + duplicates is the number of entries |
| `Topology.Classify` | access_control/rootfs/opt/access_control/database.py:840-853 | The insert and update lists are exactly the new and the changed ids, and the counters add up to the seen rows |
| `Topology.WrittenIsMerged` | access_control/rootfs/opt/access_control/database.py:854-885 | The three batches of writes amount to the specified merge |
| `Topology.Merge` | access_control/rootfs/opt/access_control/database.py:831-885 | One side of the sync: merged table and exact counters |
| `Topology.Side` | access_control/rootfs/opt/access_control/database.py:764-885 | Normalising and merging one side yields its snapshot, the merged table and exact counters |
| `Topology.MergeTwiceWritesNothing` | access_control/rootfs/opt/access_control/database.py:744-955 | Applying the same snapshot again inserts, updates and marks nothing, for any idempotent mark |
| `Topology.MergeKeepsRows` | access_control/rootfs/opt/access_control/database.py:854-885 | No row is removed, local columns survive, and an empty side changes nothing |
| `Topology.Store.SyncTopology` | access_control/rootfs/opt/access_control/database.py:744-955 | Both sides are merged in one transaction with exact counters, or neither is touched when a write or the unique location index fails |
| `Topology.SyncTwice` | access_control/rootfs/opt/access_control/database.py:744-955 | The second of two equal syncs succeeds and reports every row unchanged |
| `Topology.SameSnapshot` | access_control/rootfs/opt/access_control/database.py:764-797 | Normalising the same entries twice gives the same snapshot |
| `Circuit.CircuitBreaker.IsOpen` | access_control/rootfs/opt/access_control/circuit_breaker.py:52-73 | Blocks exactly while open before the recovery time or half-open with a probe out; the admitted caller after the recovery time reserves the probe |
| `Circuit.CircuitBreaker.RecordSuccess` | access_control/rootfs/opt/access_control/circuit_breaker.py:74-79 | Closes from any state with no failures counted and no probe reserved |
| `Circuit.CircuitBreaker.RecordFailure` | access_control/rootfs/opt/access_control/circuit_breaker.py:81-96 | Trips at the threshold, reopens a failed probe with a new clock, and never moves the clock of an open breaker |
| `Circuit.CircuitBreaker.AbortProbe` | access_control/rootfs/opt/access_control/circuit_breaker.py:98-110 | Reopens a reserved probe and nothing else |
| `Circuit.ModesMeanWhatTheySay` | access_control/rootfs/opt/access_control/circuit_breaker.py:32-50 | Half-open means a reserved probe and closed means fewer failures than the threshold, in every run, given a positive threshold; with a smaller one already the initial state fails it |
| `Circuit.StaysTripped` | access_control/rootfs/opt/access_control/circuit_breaker.py:52-110 | Without a success a tripped breaker never closes |
| `Circuit.WaitsSince` | access_control/rootfs/opt/access_control/circuit_breaker.py:52-73 | While nobody is admitted the reopening time never moves back |
| `Circuit.NobodyBeforeRecovery` | access_control/rootfs/opt/access_control/circuit_breaker.py:52-73 | After an opening and without a success the first admission comes no earlier than the recovery time |
| `Circuit.ProbesAreSpaced` | access_control/rootfs/opt/access_control/circuit_breaker.py:52-110 | While nothing succeeds consecutive admissions are at least a recovery time apart, so each half-open episode admits one caller |
| `ClientLifecycle.HttpClient.AcquireLease` | access_control/rootfs/opt/access_control/access_client.py:1437-1445 | A lease is granted exactly while the client is neither closing nor closed |
| `ClientLifecycle.HttpClient.ReleaseLease` | access_control/rootfs/opt/access_control/access_client.py:1429-1434 | The counter drops by one and the last release wakes a waiting drain |
| `ClientLifecycle.HttpClient.EnsureSession` | access_control/rootfs/opt/access_control/ha_client.py:112-116 | A session appears unless the client is closed |
| `ClientLifecycle.HttpClient.LatchClosing` | access_control/rootfs/opt/access_control/ha_client.py:698-708 | Closing is latched; the Access client drains at once, the HA client stops its WebSocket first |
| `ClientLifecycle.HttpClient.FinishDrain` | access_control/rootfs/opt/access_control/access_client.py:2179-2182 | Closed exactly when no lease is left |
| `ClientLifecycle.HttpClient.RetireSession` | access_control/rootfs/opt/access_control/access_client.py:2184-2193 | The session is gone when the close task ends |
| `ClientLifecycle.StepKeepsInv` | access_control/rootfs/opt/access_control/access_client.py:1429-1450 | Every step and cancellation keeps counter, latches and drain consistent |
| `ClientLifecycle.CounterIsLeasesInFlight` | access_control/rootfs/opt/access_control/access_client.py:1429-1450 | In every reachable state the counter is the number of leases in flight, and a closed client has none |
| `ClientLifecycle.LatchesStay` | access_control/rootfs/opt/access_control/access_client.py:2174-2182 | Closing, closed and done are never undone in any run |
| `ClientLifecycle.NothingStartsAfterClosing` | access_control/rootfs/opt/access_control/access_client.py:256-276 | After closing no lease starts, after closed no session is created, after the close task none exists |
| `ClientLifecycle.CloseAlwaysProgresses` | access_control/rootfs/opt/access_control/access_client.py:2197-2213 | While the close task is unfinished some enabled step brings it strictly closer: no wake-up is lost, and a cancelled caller changes nothing |

## Left out

- HoldProtocol.RowsAreTrackedIff: the relation between rows and memory, not the order in which a later poll drives the queue.
- HubRecovery.HubSyncManager.Recover: hubs are device ids without names and locations; a hub claimed by two entities counts as closed or queued for either of them; the lockdown poll at the end of the recovery, the release backoff, which recovery overrides, and a recovery that is itself cancelled are not modelled.
- Reconcile.LatchHolds: covers the bidirectional mode; the older one-way poll for Access clients without readback is not modelled.
- FlapGate.AnyRun: a drive starts when the gate lets it through; the later start of the hub command inside the same pass is not distinguished.
- RelockProgress.RowIsLockedInTheEnd: the reads of timers and sweeps succeed on the path; a failed one ends that flow and leaves the row to the next sweep. Sweeps keep being started, which the health loop does only while HA is connected. One clock stands for the wall clock and the monotonic bound of live timers, so a timer that fires early after a clock jump is not modelled, nor is a finished timer that stays registered.
- RelockProtocol.ShieldsAreNeededIff: clients resolve their intents while they hold the entity's command lock; of the remote-unlock flow of `main.py`, which schedules before it has that lock, only the schedule appears, as an external one.
- TimedUnlock.LockAction.Execute: the concurrent hub schedule completes while the command is out, and the shielded cleanup is not cut; other interleavings are in `RelockProtocol`. Native Access commands, the client lease, the audit log and the automatic disarm after the action are not modelled.
- LockOrder.NoWaitCycle: the write locks inside the database and the lease locks of the clients are leaves, released before anything else is requested, and are not modelled; neither are the settings and login locks of the web pages, of which only the barrier sections appear.
- Lockdown.NothingOpensAfterTheDrain: unsafe commands are unlocks, hold-opens and schedule restores; `reset` commands of already queued releases carry the enforcing flag of their poll and are outside the claim.
- SchedulePolicy.ScheduleIsUnionOfWindows: bounds and day tokens come parsed; the leniency of `int()` toward signs and blanks and non-ASCII digits are not modelled.
- AccessPolicy.GetAlarmState: the 1.5-second cache, which never holds the disarmed state.
- AccessPolicy.ProcessEvent: resolving a location to locks, logging and HA events.
- RateLimit.AllowedWithinAWindow: runs of consume, check and prune calls; clearing a subject after a successful login restarts its count by design.
- Topology.Store.SyncTopology: SQL, time stamps and the rejection of in-memory databases.
- The clean-shutdown writer (`shutdown`, `_write_clean_shutdown_marker`) and `_prepare_pairing_change` beyond its effect on baselines and queue.
- WebSocket start and stop of the clients, rule parsing and the confirm loop of `access_client.py`.
- HTTP, TLS, login, JSON, cryptography, web pages, notifications, UI cache and Protect frames.
- Schema migrations, including the removal of duplicate rules.
