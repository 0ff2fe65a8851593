# Verified model of the session lease, sticky sessions and run recording

A Dafny 4.11 model of the stateful core of the `cwe` package: how processes share one runtime session
through a DynamoDB item, how a process decides which session serves a call, how commands run once, how
runs are recorded, replayed and scored, and how the Kubernetes Jobs behind a session are accounted for.
`dafny verify dfyconfig.toml` checks everything.

## How the model is built

* **Protocols are transition systems.** `LeaseProtocol`, `SessionLocks` and `RemoteExec` give one atomic step
  per remote call or critical section, with clock reads and local assignments as steps of their own. A step that
  is not enabled changes nothing, so *every* sequence of steps is a run: any interleaving, any delay, any crash.
  The theorems are about all runs.
* **Objects are classes.** The Python classes that update their fields in place are Dafny classes with the same
  fields. Their methods carry the source's branches; each is proved against a function of the old state, and the
  properties are proved about that function. The outside world (clocks, replies, failures, what other
  processes left in the item) is passed in as arguments. One remote call ends in one of three ways (`Prelude.Net`):
  carried out and acknowledged, carried out with the reply lost, never carried out.
* **`SessionItem`** holds the conditional updates shared by the protocol and by the registry classes, so the classes
  and the transition system cannot disagree about what a request does to the item.

| module | models |
|---|---|
| `SessionItem`, `LeaseProtocol`, `LeaseExclusion` | one item, any number of leases: refinement to a sequential registry, fencing, mutual exclusion |
| `Registry` | `DynamoLease`, `DynamoRegistry` |
| `RuntimeApp`, `Invocation` | `_session`, `_remember`, `_forget_local`, `invoke` with the lease around it, the close branch |
| `Stickiness`, `CallSteps`, `Handover` | the calls of any number of processes as steps over the lease protocol; what they leave and are handed |
| `Agreement`, `LostRefresh` | what makes a call turn from the recorded session, agreement across processes, and calls that write two sessions |
| `GuardExclusion` | which executions the guards of several processes let through |
| `Scenes` | short concrete runs of calls, for what the theorems leave open |
| `SessionLocks` | `_serialized` |
| `RequestTable`, `RemoteExec`, `Eviction` | `_claim_request`, `run_exec`, the client's retry; which results are given up, over whole runs |
| `Recording`, `Session`, `RunBudget`, `Replay` | recording, run accounting, what a run's budget does, replay |
| `Evaluator`, `RuleMeanings` | rule scoring and the verdict; what each rule checks |
| `AgentBudget` | usage meter, cost estimate, budget hook |
| `S3Store`, `Text` | the append caches of several processes over one bucket, store keys, Python's line and whitespace rules |
| `Jobs` | `EKSEmulatorHost` and the part of `EKSJobHost` it uses |
| `Skills` | skill documents and their store |
| `Demux` | the Docker log demultiplexer |

## Findings

Where the code does not do what one might expect, the model follows the code and says exactly when.

* Mutual exclusion holds in all runs with monotone clocks if and only if clocks differ by at most 11 s: the
  10 s margin of `check` plus one second from truncation and the strict comparison (`LeaseExclusion.SkewBoundIsExact`).
  It also needs that TTL does not cut a lease short. Acquire keeps an old `expires_at`, even one that has passed, so the
  item of a lease in force can be deleted as expired (`LeaseExclusion.TtlDeletionBreaksExclusion`); exclusion is safe
  if every grant, renewal and put leaves an item that outlives its lease, and that condition is exact
  (`LeaseExclusion.CoveringRunsExclude`, `LeaseExclusion.UncoveredItemBreaksExclusion`). Fencing of writes needs none of this.
* `check()` goes on passing on a lease that was released (`LeaseExclusion.ReleasedLeaseStillPasses`); the documentation's
  "a lost lease turns further execution into an error" is about leases lost, not given up.
* An attach that succeeds but whose record refresh fails deletes the record and creates a fresh session, and the
  adopted session stays live in the process although nothing refers to it (`RuntimeApp.RuntimeProcess.Session`).
  The documentation only says the record is dropped when the sandbox is gone.
* A session served from the cache keeps the guard of the lease it was bound under, which was given back long ago. From
  110 s after that lease was taken or last renewed, every execution of a later call that hits the cache is refused with "session
  lease lost", although the call's own lease is in force; and before that, executions pass although the call's own lease
  may be lost (`Invocation.ExecuteInSecondCall`).
* The guards of two processes can pass at once: one keeps passing after its lease was given back, while the other process
  serves the same session (`GuardExclusion.TwoGuardsPass`). Executions inside calls are exclusive all the same: in every timed
  run of processes that take one lease at a time and whose renewal thread has ended before the release is sent, the executions
  of at most one call are let through, and its lease owns the item (`GuardExclusion.OneCallExecutes`). The release waits for
  that thread, though not for ever.
* A call that gave up on the recorded session leaves effective writes of both sessions exactly if its refresh was carried out
  while it owned the item and the reply was lost (`LostRefresh.BothSessionsWritten`); that happens
  (`Scenes.BothSessionsAreWritten`). What it serves is named last (`Handover.ServedLeavesItsName`).
* An acquire that is granted but whose record does not open raises and gives nothing back, so the item stays leased until it
  expires; every call that gets further gives its lease back however it ends (`Invocation.Call`).
* An execution refused by the lease guard adds nothing to any run, but if no run was in progress the refusal leaves
  an empty one behind (`Session.RefusedAddsNothing`).
* A run whose end event fails to be stored is finished and yet stays the current one (`Session.DevSession.EndRun`).
* A rule score leaves [0, 1] exactly when the execution-time limit is below a negative recorded total, or a test report
  has counts of opposite signs and its rule gets as far as scoring them (`Evaluator.ScoreInUnit`); the rule for instrumented
  tests does so even with a required share that is no number if the total is not positive, the pytest rule does not
  (`Evaluator.ScoresOutsideTheUnit`). Nothing checks any of it.
* After a stop that failed, the tokens are gone while Jobs remain, so the host's description can no longer be attached
  (`Jobs.EmulatorHost.Describe`).
* Letting go of a session leaves its append cache behind. When the session comes back to the process, its next append rewrites
  the log from that cache, and what the other process recorded in between is gone (`S3Store.ComeBack`). As long as nobody
  appends from a cache that another process's put has overtaken, nothing whose put arrived is lost (`S3Store.NothingIsLost`).
* A recorded line that contains a line separator such as U+2028 is read back as two lines
  (`S3Store.SeparatorSplitsLine`); a log reads back as written if and only if every line is non-blank and free of
  separators (`S3Store.ReadBackExactly`).
* A log stream cut inside its first header is returned raw (`Demux.CutStream`).

## Model

| member | source | states |
|---|---|---|
| `SessionItem.ValidSidMeans` | src/cwe/session.py:629-631 | a session id is `sess_` and twelve lower-case hexadecimal digits, nothing else |
| `LeaseProtocol.RunRefines` | src/cwe/registry.py:146-318 | in every run, under arbitrary clocks, delays, crashes and TTL deletion, the item behaves as a sequential map with one writer at a time, no writer twice, and holds that map's value |
| `LeaseProtocol.NextRefines` | src/cwe/registry.py:146-318 | every single step of any process preserves that refinement |
| `LeaseProtocol.GrantRefines` | src/cwe/registry.py:149-163 | a granted acquire starts a new, never used writer and is handed the map's current value |
| `LeaseProtocol.AdoptRefines` | src/cwe/registry.py:164-171 | what acquire makes of the returned item always opens and names this runtime session |
| `LeaseProtocol.WriteRefines` | src/cwe/registry.py:289-304 | a fenced put takes effect only as the current writer's and stores a value that opens under this id |
| `LeaseProtocol.RenewalRefines` | src/cwe/registry.py:181-193 | a renewal, however late and with or without its reply, is the current writer's or changes nothing on the item |
| `LeaseProtocol.ReleaseRefines` | src/cwe/registry.py:195-208 | a release ends the current writer's turn or changes nothing on the item |
| `LeaseProtocol.BlockStart` | src/cwe/registry.py:151-155 | everything since the current writer began is its own |
| `LeaseProtocol.OwnerBlocks` | src/cwe/registry.py:271-318 | successful effects of one owner form one contiguous block |
| `LeaseProtocol.Fencing` | src/cwe/registry.py:177-208 | once a later lease has begun, no put, delete, renewal or release of an earlier one takes effect, in any run |
| `LeaseProtocol.PlayIsLastValue` | src/cwe/registry.py:289-318 | the sequential map's value is the last one written and not erased or expired since |
| `LeaseProtocol.WritesWhileOwned` | src/cwe/registry.py:177-179 | from an effect of the current owner on, all effects are its own |
| `LeaseProtocol.LeaseSeesTheRegistry` | src/cwe/registry.py:164-169 | the record a lease is handed is the last stamped one put and not deleted or expired under earlier leases; it is handed none exactly if none was left or the last one had expired on its own clock when it read it; while the lease owns the item only its own writes follow |
| `LeaseProtocol.NoLeaseIsBroken` | src/cwe/registry.py:104-108 | `check_record` and opening never fail on what acquire read, in any run |
| `LeaseExclusion.TakeoverRun` | src/cwe/registry.py:146-171 | from every state of every run, a new lease gets the item exactly if nobody holds it or its holder's `lease_until` is before the clock it read, whatever record the item carries and whatever became of the holder; the record stays and is handed over exactly if it has not expired |
| `LeaseExclusion.RenewalExtends` | src/cwe/registry.py:181-190 | a renewal of the owner that goes through extends the lease to 120 s after the clock it read, in the item and locally, and changes nothing else; the lease is in force again |
| `LeaseExclusion.LostExactly` | src/cwe/registry.py:191-206 | in every run a lease is lost exactly if one of its renewals was not acknowledged or not granted, or its release was refused, and then its check never passes again |
| `LeaseExclusion.NextPaced` | src/cwe/registry.py:146-193 | every step keeps each lease's deadlines covered by the item or past the margin, TTL deletions included |
| `LeaseExclusion.RunPaced` | src/cwe/registry.py:146-208 | so does every run whose clocks are monotone and differ by at most 11 s, in which TTL deletes only expired items and none that expires too long before its lease |
| `LeaseExclusion.MutualExclusion` | src/cwe/registry.py:146-193 | in every such run at most one unreleased lease passes `check`, and it is the item's `lease_owner` |
| `LeaseExclusion.SkewBoundIsExact` | src/cwe/registry.py:173-175 | mutual exclusion in all timed runs that TTL spares holds if and only if the allowed clock difference is at most 11 s |
| `LeaseExclusion.LateTakeoverHappens` | src/cwe/registry.py:154 | with a larger difference two leases are in force at once: the witness run |
| `LeaseExclusion.ReleasedLeaseStillPasses` | src/cwe/registry.py:195-208 | a lease that was released goes on passing `check` |
| `LeaseExclusion.CoveringRunsExclude` | src/cwe/registry.py:151-157 | exclusion holds whatever TTL deletes, if every grant, renewal and put leaves an item that expires no sooner than its lease, up to the slack the clock difference leaves |
| `LeaseExclusion.UncoveredItemBreaksExclusion` | src/cwe/registry.py:153 | that condition is exact: from every timed state in which the item of a lease in force expires sooner, by however little, some continuation has two leases in force, also while a renewal is carried out but not yet assigned |
| `LeaseExclusion.LeasedAgain` | src/cwe/registry.py:153 | an acquire keeps the old `expires_at` of the item, even one that has passed |
| `LeaseExclusion.TtlDeletionBreaksExclusion` | src/cwe/registry.py:153 | an item leased, released and leased again a day later is deleted as expired under the second lease, and a third comes in beside it: a run with perfect clocks |
| `Registry.DynamoLease.Acquire` | src/cwe/registry.py:146-171 | tries until the first attempt that finds the item unheld or its holder's time up, or until the deadline; such an attempt is granted whatever the record, and only such a one; what it leaves in the item, its deadline and its record; busy only after the deadline |
| `Registry.DynamoLease.Check` | src/cwe/registry.py:173-175 | passes exactly if not lost and more than ten seconds remain |
| `Registry.DynamoLease.Renew` | src/cwe/registry.py:181-193 | gives up for good at the first wake-up that does not prove ownership; until then the local deadline is the one in the item; what the item is left with |
| `Registry.DynamoLease.Release` | src/cwe/registry.py:195-208 | frees the item if it is still owned; only a refusal marks the lease lost |
| `Registry.DynamoRegistry.Get` | src/cwe/registry.py:279-287 | a record is returned only to the runtime session it was written for, with a key only if it was sealed for it, and what `put` stored is returned whole until it expires |
| `Registry.DynamoRegistry.Put` | src/cwe/registry.py:289-304 | succeeds exactly if acknowledged and, when this process holds a lease, that lease still owns the item; stores the stamped, sealed record; refused writes change nothing |
| `Registry.DynamoRegistry.Delete` | src/cwe/registry.py:306-318 | drops the record but keeps the item under a lease, drops the item without one |
| `Registry.PutIsVisibleUntilExpiry` | src/cwe/registry.py:218-220 | a put record is read back whole until its expiry passes and not at all afterwards |
| `Registry.CopiedRecordIsRefused` | src/cwe/registry.py:104-108 | a record copied under another runtime session id is refused, sealed or not |
| `Registry.ForgedRecordIsRefused` | src/cwe/registry.py:93-98 | with a key, an unsealed record is refused |
| `RuntimeApp.RuntimeProcess.Remember` | src/cwe/runtime_app.py:72-88 | nothing for a session whose status is closed; otherwise the record names the session exactly if the write landed under the lease, or the cache entry goes and a newly created session is shut down, its status closed unless its sandbox fails to stop |
| `RuntimeApp.RuntimeProcess.EraseRecord` | src/cwe/runtime_app.py:130-133 | after a delete that arrived while the lease owned the item the record is gone; a failure is swallowed |
| `RuntimeApp.RuntimeProcess.Attach` | src/cwe/session.py:626-661 | returns the live session or adopts the recorded one; fails on an invalid id or an unreachable sandbox |
| `RuntimeApp.RuntimeProcess.ForgetLocal` | src/cwe/runtime_app.py:91-95 | drops cache entry and live session of one runtime session |
| `RuntimeApp.RuntimeProcess.UseCache` | src/cwe/runtime_app.py:104-112 | the cache is used exactly if the record names the same live session; a stale one is let go |
| `RuntimeApp.RuntimeProcess.Reattach` | src/cwe/runtime_app.py:120-133 | succeeds exactly if the session is reachable and its refresh landed, and then the item names it |
| `RuntimeApp.RuntimeProcess.CreateFresh` | src/cwe/runtime_app.py:134-138 | the created session is returned, cached and recorded, or closed |
| `RuntimeApp.RuntimeProcess.Bind` | src/cwe/runtime_app.py:120-138 | the recorded session exactly if it can be adopted and its refresh lands, otherwise, unless somebody takes the lease, a new one exactly if that can be created and recorded; a record that is not followed is deleted |
| `RuntimeApp.RuntimeProcess.Session` | src/cwe/runtime_app.py:98-138 | stickiness: the recorded session is returned exactly when it can be, whatever was cached; otherwise the created one, exactly when one can be had, recorded or closed; a stale cached session is let go; while the lease owns the item, the record names what is returned; other runtime sessions are left alone |
| `RuntimeApp.RuntimeProcess.CloseSession` | src/cwe/runtime_app.py:226-233 | a closed session leaves the live sessions, the cache and the record; one whose host or sandbox raises leaves the live sessions only, and its status is closed unless the sandbox raised |
| `RuntimeApp.RuntimeProcess.Act` | src/cwe/runtime_app.py:157-164 | the record is refreshed after the action and describes what the action left, unless somebody shut the session down meanwhile; nothing is promised if the action raised |
| `RuntimeApp.RuntimeProcess.Invoke` | src/cwe/runtime_app.py:150-171 | unless somebody takes the lease, a call returns exactly when there is a session, recorded or new, and the action ends well, and a close exactly when there is nothing to close or the session shuts down cleanly; a call that returns leaves the item naming the session as the call left it, until the expiry it wrote; the guard a cached session keeps; nothing is created only to be closed |
| `RuntimeApp.HeldLeaseIsCurrent` | src/cwe/runtime_app.py:101-104 | in every run of any number of processes, an owning lease that has not written yet holds the record the item names, and holds none exactly if the item has none or it had expired |
| `Invocation.Heartbeat` | src/cwe/registry.py:181-193 | renewals during a call change nothing of the record and never gain the item; each extends the lease to 120 s after its clock, or the lease is lost |
| `Invocation.GiveBack` | src/cwe/registry.py:328-331 | unless the release never arrives the lease does not own the item afterwards, whatever the renewals did; the record stays |
| `Invocation.Serve` | src/cwe/registry.py:325-331 | the body of a call and the end of its lease: the session served or closed, the record left or gone, and the lease given back however the body ends |
| `Invocation.Call` | src/cwe/registry.py:320-331 | one whole call, acquire to release: stickiness by the record read under the lease, the record and the free item it leaves, what a close leaves, other runtime sessions untouched, nothing at all without the lease, for which it is turned away for 90 s before it gives up; with it, a call returns exactly when there is a session to serve and its action ends well, and a close exactly when there is nothing to close or the session shuts down cleanly; a call granted the lease does not own the item afterwards, unless its record did not open |
| `Invocation.Execute` | src/cwe/session.py:150-166 | an execution is refused by the guard exactly if the check of the lease the session is bound to fails |
| `Invocation.CallTwice` | src/cwe/runtime_app.py:106-108 | a second call that finds the session in the cache leaves it guarded by the lease of the first, which was given back |
| `Invocation.ExecuteInSecondCall` | src/cwe/runtime_app.py:106-108 | its executions are let through exactly as long as the first lease passes its check, and refused from 110 s after that lease was taken or last renewed, whether or not the call's own lease is in force |
| `Stickiness.RunBeneath` | src/cwe/runtime_app.py:98-138 | every run of calls is a run of the lease protocol |
| `Stickiness.StepSound` | src/cwe/runtime_app.py:72-165 | every step of any call, and every protocol step under it, keeps what each call works on, has cached, has written and has left in the item in agreement |
| `Stickiness.RunSound` | src/cwe/runtime_app.py:72-165 | so does every run of any number of processes |
| `Handover.RunHanded` | src/cwe/registry.py:164-169 | what every call was handed is the item as its lease found it, read at its own clock |
| `Handover.WritesNameTheSession` | src/cwe/runtime_app.py:72-88 | every effective write of a call names the recorded session or the one the call created; of a call that served without creating, the one it served; when a creating call's write names the recorded one is settled by `LostRefresh.BothSessionsWritten` |
| `Handover.ServedLeavesItsName` | src/cwe/runtime_app.py:157-164 | what a call that served a session leaves in the item names that session |
| `Handover.HandOver` | src/cwe/registry.py:164-169 | a lease that begins when the item names a session is handed that record, or none exactly if it has expired on its clock |
| `Handover.CanFollow` | src/cwe/runtime_app.py:104-127 | from any cache, a call that owns the item and can reach the recorded session returns it |
| `CallSteps.BeginLetsGo` | src/cwe/runtime_app.py:104-112 | a call that begins lets go of the session its process has cached, unless the record names it |
| `CallSteps.ErasesTheRecord` | src/cwe/runtime_app.py:130-133 | a delete that arrives while the call owns the item takes the record and nothing else, any other changes nothing |
| `Scenes.RecordedSessionIsRecovered` | src/cwe/runtime_app.py:98-138 | from every state of every run, whatever happened to the process that held the lease: once its time is up, a call of another process gets the item and returns the session of the record, unless that has expired |
| `Scenes.StartsAfresh` | src/cwe/runtime_app.py:128-138 | from every state in which a call's recorded session is out of reach, the record is deleted and the call returns a new session, which the item names |
| `Agreement.TurnedOnlyIfHindered` | src/cwe/runtime_app.py:120-137 | in every run: a call turns from the recorded session only if it was handed no record or one of its own steps failed, an attach to an invalid or unreachable session or a refresh that did not land; and a call so hindered has turned away or failed |
| `Agreement.ServesTheRecordUnlessHindered` | src/cwe/runtime_app.py:98-138 | in every run, a call that served did so without creating a session exactly if it was handed a record and no step hindered it, and then it served the recorded one |
| `Agreement.ErasedOnlyIf` | src/cwe/runtime_app.py:130-133 | a record is erased only by a call that closed the session, was handed no record or was hindered |
| `Agreement.ProcessesAgree` | src/cwe/runtime_app.py:98-138 | in every run: after a call that served a session, and until TTL deletes the item or a call in between is handed nothing, is hindered or closes the session, every later lease is handed that session's record, or none exactly if it has expired on its clock, and a later call serves that session unless it was handed none or a step hindered it, whatever its process had cached |
| `Agreement.ItemStaysNamed` | src/cwe/runtime_app.py:157-164 | and the item goes on naming it |
| `LostRefresh.BothSessionsWritten` | src/cwe/runtime_app.py:126-137 | in every run, a call that created a session has an effective write of the recorded one, which is another, exactly if its refresh was carried out while it owned the item and the reply was lost |
| `Scenes.BothSessionsAreWritten` | src/cwe/runtime_app.py:126-137 | a run of two processes in which a call leaves effective writes of both sessions |
| `GuardExclusion.RunInOrder` | src/cwe/registry.py:320-331 | in every timed run of orderly processes, the leases of one process follow each other: an earlier one is done, and its deadline no later than that of the next |
| `GuardExclusion.BoundIsGuarded` | src/cwe/runtime_app.py:122-124 | a session that a call adopts or creates is cached and guarded by the call's own lease from then on, whatever guarded it before |
| `GuardExclusion.OneCallExecutes` | src/cwe/runtime_app.py:123-136 | in such runs the executions of at most one call are let through, even though a guard may be an earlier lease, and that call's lease owns the item |
| `GuardExclusion.TwoGuardsPass` | src/cwe/runtime_app.py:106-108 | between calls, the guards of two processes pass at once for one session: the witness run |
| `SessionLocks.LockTable.Register` | src/cwe/runtime_app.py:59-61 | finds or makes the entry and counts the thread |
| `SessionLocks.LockTable.Unregister` | src/cwe/runtime_app.py:65-69 | uncounts it; the last one removes the key |
| `SessionLocks.StepSound` | src/cwe/runtime_app.py:53-69 | every step of any thread keeps counts, holders and keys consistent |
| `SessionLocks.RunSound` | src/cwe/runtime_app.py:53-69 | so does every interleaving, and no key refers to an entry that does not exist |
| `SessionLocks.OneThreadInside` | src/cwe/runtime_app.py:53-69 | at most one thread is inside per id, all registered threads share one entry whose count is their number, and the key exists exactly while there are any |
| `SessionLocks.LeaversDepart` | src/cwe/runtime_app.py:65-69 | a thread that left the lock can always be uncounted |
| `SessionLocks.WaiterGetsTheLock` | src/cwe/runtime_app.py:63-64 | in every run, a waiting thread can get the lock as soon as no other of its id is inside |
| `SessionLocks.NothingLeaks` | src/cwe/runtime_app.py:65-69 | when all threads have left, the table is empty |
| `RequestTable.Agent.Claim` | src/cwe/workload_agent.py:135-150 | join, 409, 429 or a new entry, with the eviction in between |
| `RequestTable.Agent.Finish` | src/cwe/workload_agent.py:165-172 | the outcome is there for everyone who joined, the entry may now be evicted, no other entry changes state, and the table stays sound |
| `RequestTable.ClaimValid` | src/cwe/workload_agent.py:135-150 | a claim keeps the table within 256 entries with distinct ids and never drops one in flight |
| `RequestTable.BusyExactlyWhenAllInFlight` | src/cwe/workload_agent.py:142-147 | 429 exactly when all 256 entries are in flight |
| `RequestTable.LostResultsAreOldest` | src/cwe/workload_agent.py:143-145 | a stored result is lost only to a new id that finds all 256 entries taken, and then the other f − max(1, f div 4) finished ones, none created earlier, remain and all else goes |
| `RequestTable.EvictionSize` | src/cwe/workload_agent.py:143-145 | an eviction removes exactly a quarter of what is finished, but one at least |
| `Eviction.MakerOf` | src/cwe/workload_agent.py:148-149 | in every run, each entry was made by one arrival and bears its id, its command and its clock |
| `Eviction.FirstArrivedGoesFirst` | src/cwe/workload_agent.py:142-149 | in every run, a result that is given up was claimed at no later clock than any finished one that stays; if the clocks at arrivals do not go back, and the agent reads a monotonic one, its request arrived before theirs |
| `RemoteExec.RunSound` | src/cwe/workload_agent.py:153-178 | the invariant over every interleaving of claims, runs, joins, timeouts and evictions |
| `RemoteExec.StartedOnce` | src/cwe/workload_agent.py:164-173 | a command starts at most once, exactly once by the time its entry has an outcome or is evicted |
| `RemoteExec.EveryCallerIsServed` | src/cwe/workload_agent.py:135-178 | what every caller gets by what the table held when it arrived: its command's entry means that outcome or a 504; 409 exactly for an entry with another command; 429 exactly for none and all 256 in flight; 504 only after joining |
| `RemoteExec.EveryCallerCanGoOn` | src/cwe/workload_agent.py:164-178 | no caller is stuck: an owner can run and finish, a waiter whose entry has an outcome can be told it, any waiter can time out |
| `RemoteExec.AnswersAreTheRuns` | src/cwe/workload_agent.py:174-178 | every answer is the outcome of that one run of that very command |
| `RemoteExec.OtherCommandRefused` | src/cwe/workload_agent.py:138-140 | another command under a used id gets 409 and changes nothing |
| `RemoteExec.RetryJoinsTheRun` | src/cwe/workload.py:121-129 | both attempts of one client call, the first of which may never have arrived, are on one entry run by at most one of them, unless the earlier entry was finished and evicted; the client's answer is the outcome of one run of its command |
| `Session.DevSession.BeginRun` | src/cwe/session.py:99-110 | a new empty run with this budget becomes the current one |
| `Session.DevSession.RequireRun` | src/cwe/session.py:124-127 | the current run, or a new one |
| `Session.DevSession.CheckBudget` | src/cwe/session.py:133-148 | the reason the budget forbids another execution, kept in the run |
| `Session.DevSession.Record` | src/cwe/session.py:150-166 | run, guard, budget, counters, log, in this order, and what each refusal leaves |
| `Session.DevSession.EndRun` | src/cwe/session.py:112-122 | closes the current run, or one opened for it, once the end is logged; if only the end is not, the finished run stays current |
| `Session.AfterSound` | src/cwe/session.py:99-166 | the accounting invariant over every sequence of operations and failures |
| `Session.Accounting` | src/cwe/session.py:150-170 | counters, stored results, references and logged executions agree, and what was not recorded by the system stays within `max_executions` |
| `Session.PostHocResults` | src/cwe/session.py:450-461 | the log reconstructs each run's results in order, clipped, and unclipped within the limit |
| `Session.RefusedAddsNothing` | src/cwe/session.py:150-156 | a refused execution adds nothing to any run |
| `Session.AfterNumbered` | src/cwe/recorder.py:174-186 | event numbers increase along the log, and none is used twice, even if its event was not stored |
| `RunBudget.BudgetIs` | src/cwe/session.py:101 | whatever happens later, a run has the budget and the start it was begun with |
| `RunBudget.NoBudgetUnlessBegun` | src/cwe/session.py:124-127 | a run that was opened by an execution or an end has none |
| `RunBudget.BilledIsCounted` | src/cwe/session.py:150-164 | what counts against a run are exactly the executions recorded for it by anyone but the system |
| `RunBudget.WithinItsBudget` | src/cwe/session.py:140-141 | they never exceed the number of executions in the operation that began the run |
| `RunBudget.AcceptedExactly` | src/cwe/session.py:150-166 | an execution is accepted exactly if the guard passes, its event is stored, and, unless the system makes it, neither the executions nor the time the run was begun with is used up; otherwise which refusal it meets |
| `RunBudget.CheckedExactly` | src/cwe/session.py:133-148 | a budget check gives a reason exactly if the number of executions, the time or the cost the run was begun with is passed, and marks the run with it |
| `RunBudget.DeniedExactly` | src/cwe/agent.py:343-357 | the hook denies a tool call exactly if the run was marked before or one of the three limits is passed |
| `Recording.ClipKeepsTheEnds` | src/cwe/recorder.py:35-38 | a clipped text keeps its first and last 100000 characters, and a text within the limit stays as it is |
| `Replay.ReplaySandbox.constructor` | src/cwe/sandbox.py:207-221 | recordings by input in order, files as the last write left them |
| `Replay.ReplaySandbox.RestoreFiles` | src/cwe/sandbox.py:218-220 | one recorded write overwrites its own paths, bytes decoded and text as it is |
| `Replay.ReplaySandbox.Next` | src/cwe/sandbox.py:240-256 | the next recording of an input, the last one again when used up, an error or an empty success in the caller's language when there is none |
| `Replay.ReplaySandbox.WriteFiles` | src/cwe/sandbox.py:276-278 | a later read finds what was written last and everything else as it was |
| `Replay.ReplaySandbox.ReadFiles` | src/cwe/sandbox.py:280-281 | exactly the requested paths that exist |
| `Replay.FilesRestored` | src/cwe/recorder.py:170-173 | rebuilt files equal the last-write-wins fold of all writes, bytes and text kept apart |
| `Replay.RecordingsOfCalls` | src/cwe/recorder.py:157-169 | the recordings of an input are the calls with that input, in order |
| `Replay.NthOccurrence` | src/cwe/sandbox.py:247-249 | counting earlier occurrences of an input finds the call's own recording |
| `Replay.ReplayCalls` | src/cwe/sandbox.py:240-256 | replaying all inputs in order gives every recorded result back position by position |
| `Replay.ReplayExhausted` | src/cwe/sandbox.py:248 | an exhausted input repeats its last result |
| `Replay.RecordAndReplay` | src/cwe/sandbox.py:199-281 | recording any interleaving of executions and replaying it returns all results and all files |
| `Evaluator.ScoreInUnit` | src/cwe/evaluator.py:96-159 | a rule score lies in [0, 1] exactly unless the limit is below a negative total time, or test counts have opposite signs and the rule does not fail before it scores them |
| `Evaluator.ScoresOutsideTheUnit` | src/cwe/evaluator.py:126-159 | inputs that score 2.5, -5/3 and 2; where the rule for instrumented tests scores counts, the pytest rule fails on a required share that is no number |
| `RuleMeanings.ExitCodeMeans` | src/cwe/evaluator.py:100-104 | passes iff the last result has the wanted exit code, 0 by default |
| `RuleMeanings.NoErrorsMeans` | src/cwe/evaluator.py:105-109 | passes iff no result is an error; scores the share of those that are none |
| `RuleMeanings.OutputsAreJoined` | src/cwe/evaluator.py:43-44 | the text the rules read is that of all outputs in order, joined by line breaks |
| `RuleMeanings.OutputIsBoth` | src/cwe/models.py:54-57 | an output is standard output and standard error, whichever there is, one below the other |
| `RuleMeanings.StdoutMeans` | src/cwe/evaluator.py:110-115 | passes iff the text is, or is not, some slice of the joined outputs |
| `RuleMeanings.RegexMeans` | src/cwe/evaluator.py:116-122 | passes iff the pattern is not refused and matches the last 64000 characters of them |
| `RuleMeanings.FileExistsMeans` | src/cwe/evaluator.py:123-125 | passes iff the file is listed |
| `RuleMeanings.TimeLimitMeans` | src/cwe/evaluator.py:126-130 | passes iff the execution times add up to no more than the limit; otherwise scores the limit's share of them |
| `RuleMeanings.DeviceActionsMean` | src/cwe/evaluator.py:145-148 | passes iff at least so many results are device actions |
| `RuleMeanings.VerificationMeans` | src/cwe/evaluator.py:138-144 | passes iff the harness ran a verification and it exited with 0 |
| `RuleMeanings.InstrumentedMeans` | src/cwe/evaluator.py:131-137 | passes iff there are tests and the passed ones reach the required share; scores their share |
| `RuleMeanings.PytestMeans` | src/cwe/evaluator.py:149-157 | the same for pytest, where errors count as failed |
| `RuleMeanings.ScoreIsWeighted` | src/cwe/evaluator.py:301-302 | the overall score is the mean of the items' scores by their weights |
| `RuleMeanings.VerdictExactly` | src/cwe/evaluator.py:303 | PASS iff the weighted points reach the threshold's share of all weight and no rule of weight one or more failed |
| `Evaluator.OverallInUnit` | src/cwe/evaluator.py:300-306 | so does the overall score, for non-negative weights |
| `Evaluator.ImprovingKeepsPass` | src/cwe/evaluator.py:300-303 | better scores or flags never turn PASS into FAIL |
| `Evaluator.FailedRuleForcesFail` | src/cwe/evaluator.py:303 | a failed rule of weight one or more forces FAIL |
| `Evaluator.ClippingKeepsTheRest` | src/cwe/recorder.py:162-166 | clipping changes neither error counts nor times nor device actions |
| `Evaluator.PostHocScoringAgrees` | src/cwe/session.py:492-514 | scoring from the log gives the items, score and verdict of scoring live |
| `AgentBudget.UsageMeter.Add` | src/cwe/agent.py:317-327 | counters and seen ids are those of all blocks so far |
| `AgentBudget.RepeatsAreFree` | src/cwe/agent.py:320-323 | a repeated block changes nothing, wherever it arrives |
| `AgentBudget.TotalIsSumOverDistinctMessages` | src/cwe/agent.py:317-327 | totals equal the plain sum over distinct message ids |
| `AgentBudget.FirstBlocksAreFirst` | src/cwe/agent.py:317-323 | what counts are all blocks without a message id, and of each message the first block that reports usage |
| `AgentBudget.TotalsByKind` | src/cwe/agent.py:324-327 | each of the four totals is the sum of its own kind of tokens over them |
| `AgentBudget.NothingIsCutOff` | src/cwe/agent.py:556 | `max(..., 0)` never binds on meter output |
| `AgentBudget.CostIsListPrice` | src/cwe/agent.py:551-558 | the estimate is the list price to the nearest ten-thousandth of a dollar: input at its price, cache reads at a tenth, cache creation at five quarters of it, output at its own; none without a price |
| `AgentBudget.CostNeverDecreases` | src/cwe/agent.py:551-558 | the rounded cost estimate never decreases as blocks come in |
| `AgentBudget.PreToolUse` | src/cwe/agent.py:343-357 | the hook's answer and what it leaves in the run |
| `AgentBudget.MarkedForGood` | src/cwe/session.py:146-148 | nothing that happens later removes a budget mark from a run |
| `AgentBudget.DenialIsPermanent` | src/cwe/agent.py:343-357 | once a call is denied for a budget reason, every later call of that run is |
| `Text.LineBreaksAre` | src/cwe/recorder.py:130 | the ten characters at which `splitlines` ends a line |
| `Text.SplitAtBreak` | src/cwe/recorder.py:130 | `splitlines` ends a line at any separator, a carriage return taking the newline after it along |
| `S3Store.ParseIsClean` | src/cwe/recorder.py:125-130 | lines read from any object are non-blank and free of separators |
| `S3Store.ReadBackExactly` | src/cwe/recorder.py:104-130 | a rewritten log reads back as it was if and only if every line is clean |
| `S3Store.SeparatorSplitsLine` | src/cwe/recorder.py:130 | a line with a separator inside comes back as two |
| `S3Store.KeysAreInjective` | src/cwe/recorder.py:100-102 | different objects have different keys |
| `S3Store.SegmentsMakeThePath` | src/cwe/recorder.py:31 | the segments of a name are what lies between its slashes |
| `S3Store.PrefixMarksSession` | src/cwe/recorder.py:114 | a key starts with a session's prefix exactly if it is that session's |
| `S3Store.SurvivesExactly` | src/cwe/recorder.py:104-109 | with any number of writers, failed puts and evictions: after a put that arrives the object holds exactly what it held when the writer's cache entry was made, and the writer's own lines since |
| `S3Store.NothingIsLost` | src/cwe/recorder.py:104-115 | in all such runs, as long as nobody appends from a cache that another's put has overtaken, every line whose put arrived stays, and the stored lines only grow |
| `S3Store.ComingBackLosesLines` | src/cwe/recorder.py:106-109 | without that they do not: the second of three lines is lost, and is kept if the cache is evicted first |
| `S3Store.ComeBack` | src/cwe/session.py:608-613 | a session that comes back to a process that had let go of it loses what the other process recorded, exactly because its cache was not evicted |
| `S3Store.Store.ReadLines` | src/cwe/recorder.py:125-130 | the lines of any object are non-blank single lines, and a log that was written is read back as it was exactly if all its lines are |
| `S3Store.Store.AppendTo` | src/cwe/recorder.py:106-109 | the log grows by the line; a put that arrives stores all of it, and it decodes to all of it exactly if all lines are clean |
| `S3Store.Store.AppendLine` | src/cwe/recorder.py:104-109 | success exactly if key, read and put succeed; after a success the object decodes to all lines appended so far, after a failure it is a prefix of them |
| `S3Store.Store.Evict` | src/cwe/recorder.py:111-115 | exactly the session's own keys leave the cache |
| `Jobs.RemoveFirst` | src/cwe/eks.py:170 | `list.remove` takes out one occurrence |
| `Jobs.StillListed` | src/cwe/eks.py:167-174 | a Job no deletion reached is still listed, and the list is empty exactly if every deletion was acknowledged |
| `Jobs.SweepStep` | src/cwe/eks.py:167-172 | midway through a stop the list holds the refused names and those still to come |
| `Jobs.EmulatorHost.Stop` | src/cwe/eks.py:156-174 | returns normally exactly if no Job is left; a Job stays listed exactly as often as its deletion was not acknowledged; repeatable |
| `Jobs.EmulatorHost.Detach` | src/cwe/eks.py:176-183 | forgets the Jobs without touching the cluster |
| `Jobs.EmulatorHost.CreateJobWithSecret` | src/cwe/eks.py:95-107 | the Job is listed as soon as it exists, whatever becomes of its Secret |
| `Jobs.EmulatorHost.CreateAll` | src/cwe/eks.py:320-325 | each new Job is listed, names are fresh, tokens are those in the Jobs' own Secrets |
| `Jobs.EmulatorHost.ConnectAll` | src/cwe/eks.py:326-330 | the devices are the Jobs paired with their tokens, up to the first that does not boot |
| `Jobs.EmulatorHost.Start` | src/cwe/eks.py:309-334 | succeeds exactly if everything does; device i talks to Job i with Job i's own token; conservation: a failed start leaves no Job it does not list and touches nobody else's |
| `Jobs.EmulatorHost.Describe` | src/cwe/eks.py:337-338 | the record can be attached exactly if the host still has its tokens, and names the same device pairs |
| `Jobs.EmulatorHost.Attach` | src/cwe/eks.py:340-359 | all pairs reconnected or an error; what each failure leaves listed |
| `Skills.FenceSkips` | src/cwe/skills.py:84 | a header line cannot be taken for the closing fence |
| `Skills.HeaderFence` | src/cwe/skills.py:84 | the first closing fence of a printed header is its own |
| `Skills.HeaderSplits` | src/cwe/skills.py:88 | a printed header splits into its lines |
| `Skills.ParseSkill` | src/cwe/skills.py:83-94 | the loop over header lines computes the parse |
| `Skills.ParseIsPlain` | src/cwe/skills.py:83-94 | what is parsed from any text has stripped single-line fields and a stripped body |
| `Skills.FenceIsFirst` | src/cwe/skills.py:84 | the closing fence is the first one there is |
| `Skills.WithoutHeader` | src/cwe/skills.py:83-94 | a document without an opening or a closing fence is all body, and a draft |
| `Skills.RoundTrip` | src/cwe/skills.py:16-25 | printing and parsing returns every field, for any body, exactly if the fields are stripped and free of line separators |
| `Skills.ApproveChangesStatusOnly` | src/cwe/skills.py:53-58 | approving changes the status (and a name that differs from the file's) only, and twice is as once |
| `Skills.SkillStore.Save` | src/cwe/skills.py:40-43 | a valid name is filed, and what was saved is what a load returns |
| `Skills.SkillStore.Load` | src/cwe/skills.py:45-51 | an error exactly for an invalid name, else the parsed document or nothing |
| `Skills.SkillStore.Approve` | src/cwe/skills.py:53-58 | an error exactly for an invalid name, else whether the document exists; the stored document is the approved one |
| `Demux.Demux` | device_agent/app.py:111-116 | the loop terminates and computes the payloads of the stream |
| `Demux.BigRoundTrip` | device_agent/app.py:115 | big-endian lengths read back as written |
| `Demux.PayloadsOfCut` | device_agent/app.py:113-116 | a stream cut anywhere yields exactly the text whose bytes arrived |
| `Demux.DemuxInvertsFraming` | device_agent/app.py:111-116 | demultiplexing any list of frames gives the concatenation of their payloads |
| `Demux.CutStream` | device_agent/app.py:111-116 | cut after the first header a prefix of the text is shown, cut before it the raw bytes |

## Left out

* DynamoDB calls the SDK repeats on its own: each request is applied at most once.
* Unconditional puts and deletes of a process that holds no registered lease: `Registry` has them, `LeaseProtocol` has only fenced writes, as `invoke` makes.
* Late delivery of a put: a put takes effect within its call or never.
* Renewals interleaved with the record writes of a call: `Invocation.Heartbeat` runs them after the action; `LeaseProtocol` interleaves them at will.
* The item attributes `session_id` and `updated_at`, copies that are never read back.
* `StoreRegistry`, its no-op lease and the branches of `_session` and `_remember` for a lease without authority: by design there is one process.
* The runtime session id checks before the lease, and the token, path and cookie checks: one branch each.
* JSON, base64, UTF-8, SHA-256 and KMS: the identity, or injective, or opening only under the same context.
* `close` running against `start_workload` in the same session, which takes no common lock.
* Nested acquisition of the re-entrant lock by one thread: `_serialized` is not entered twice on one call path.
* Runs a reattached session loads from its stored metadata; accounting covers the runs made by the object.
* Executions of one session recorded at the same time: the log is written outside the lock that counts them, so that it has them in the order they were counted is shown for one execution after the other.
* A session that somebody else shuts down in the middle of a call without its status becoming closed, because its sandbox fails to stop.
* What a failed append leaves in the log of `Session`: there the event is lost, as in a local file; `S3Store` shows that the append cache stores it with the next success.
* Timestamps and the raw reply of results, and the display rounding of the overall score.
* Reading a run's parsed test report, pattern search and pattern refusal: functions the theorems hold for any of.
* The LLM judge, the agent loop, the hook's answer when the check itself raises.
* Argument checks of `run_exec` that answer 400 before any claim, and calls without a request id, which simply run.
* `EKSWorkloadHost`: the single-Job variant of what `Jobs` proves for several.
* Port-forward processes of a Job host, and reaping of expired Jobs.
* `Jobs.EmulatorHost.Start`: a failed create is taken to leave no Job, and nobody else makes a Job of the same name during the call.
* `Jobs.EmulatorHost.Attach`: whether a recorded Job's Pod answers is an input; the cluster is not consulted.
* `RuntimeApp.RuntimeProcess.Invoke`: the action itself is one step that may change the session's description or raise.
* Listing skills, distilling them, the viewer, the REST and command line layers, manifests and infrastructure.
