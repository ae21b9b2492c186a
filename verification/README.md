# Verified model of the inference proxy

The proxy admits a request, writes an audit record about it, picks the backend with the
least pressure, leases it, watches its circuit, and streams the answer back. Operators
drain, disable, activate and reload backends while requests are running, and a drain ends
with the promise that the backend's engine may be stopped. This project models the parts
of the proxy where that is difficult and proves what they promise.

| module | models |
|---|---|
| `Backend`, `Registry` | the lease and drain gate of one backend, the registry of all, and the registry with shared slot objects |
| `BackendState` | the durable overlay of operator modes and the file it is written to |
| `Runtime` | the published topology, its generations and its atomic reload |
| `Routing`, `Readiness`, `Circuit`, `Scrapes`, `Burst` | readiness, telemetry, circuit breaking and selection; runs of probes; the circuit under all interleavings of requests; overlapping and serial scrapes; bursts between scrapes |
| `Control` | the operator commands as methods on the objects they change |
| `BackendView`, `Lifecycle`, `LifecycleSafety` | the whole lifecycle protocol as one transition system: one backend, the system, and what every run of it keeps |
| `LifecycleDurability`, `LifecycleQuiet`, `LifecycleRuns` | how long a fence lasts, and when the work in flight is over, after each answer an operator gets; runs in which a promise fails |
| `Audit`, `AuditRecord`, `Bodies` | the audit pipeline from the request tasks to the writer, what its records say, and the two wrappers around a response body |
| `Usage`, `JsonUsage` | the token-usage scanner and its agreement with JSON trees (sections 4 and 7 of RFC 8259) |
| `Logs` | the incremental log reader and its agreement with reading the whole file |
| `Telemetry`, `MetricsText` | the pressure score and the metrics parser; what the lines of a scrape mean by their grammar |
| `CivilDate` | days to civil dates and timestamps (section 5.7 and Appendix C of RFC 3339) |

Objects that the proxy updates in place are classes whose methods are proved against
functions on values (`Backend.BackendSlot`, `Backend.BackendRegistry`,
`BackendState.BackendStateStore`, `Runtime.RuntimeState`, `Routing.RoutingState`,
`Control.ControlState`, `Audit.LogWorker`, `Audit.LogSender`, `Bodies.ObservedBody`,
`Bodies.LeasedBody`, `Usage.UsageSniffer`, `Logs.Tail`). The functions are then the steps of
transition systems whose steps are sections of code under one mutex - or a few of them taken
together, as "Left out" lists - and whose runs are any interleaving. In `Lifecycle` the steps
are: a permit with its lease, the settlement of a permit or observer, the end of a request,
each probe, each half of an operator command on either side of its file write, each stage of
a reload, each round of a drain's task, a kill of the process or a power loss at any point,
and the three stages of a start. `Control` proves that a command, undisturbed, has exactly the
effect of its steps, on the slots, the overlay file and the drain operations.

## What is proved, and what turned out false

- **Drain certification.** Every drain completed by its idle test certifies that no lease was
  held or granted since the gate closed and that the last two accepted scrapes reported no
  running and no waiting sequence. Both of these began after the fence if and only if the live
  state had two idle samples since the count of scrapes started at the fence
  (`LifecycleSafety.DrainCertified`, `BackendView.ConfirmCertifies`). An operation of the epoch of the drain always has them; a drain
  that closes the gate gets one if and only if no operation was under way for the backend
  (`LifecycleSafety.DrainOwnsOperation`). A drain that joins an older operation may complete on
  scrapes from before its fence: drained, disabled, scraped, activated and drained again before
  the first drain's task looks (`LifecycleRuns.StaleOperationConfirms`). All of this needs scrapes
  of one backend not to overlap (`Scrapes.TwoSamplesAfterFence`, `Scrapes.OverlapMiscounts`).
- **Safe to stop.** The manual says that the drain command returns successfully only after the
  work in flight is zero. A drain's task that finds its backend disabled reports completion too,
  and then a request may still be running: after a forced disable
  (`LifecycleRuns.ForcedDisableReportsBusy`), and without any force after a disable of an active
  backend, which looks at the requests before its write and closes the gate after it
  (`LifecycleRuns.UnforcedDisableReportsBusy`). Of every answer that a backend is fenced: no
  request runs on it in any continuation without an activation if and only if the slot has no
  lease when the answer is given, the fence is firm and no activation is under way
  (`LifecycleQuiet.AnswersUnusedExactly`). It always holds after the idle completion of a drain
  and after an unforced disable of a draining backend (`LifecycleQuiet.DrainingDisableIsQuiet`).
- **Durable fences.** A fence is *firm* once it has been synced, until an activation of the
  backend fails after its rename or is killed there. In every reachable state a power loss can
  leave no file without the fence if and only if the fence is firm and no activation is writing
  (`LifecycleDurability.DiskExactly`). Six answers tell an operator that a backend is fenced.
  The gate then stays closed, through reloads, failed writes, kills, power losses and restarts,
  until an activation of it starts - if and only if the fence is firm and no activation is
  already under way (`LifecycleDurability.AnswersExactly`). It always is after the three answers
  that follow a write of their own: a drain that closed the gate, a disable, and the idle
  completion of a drain, whether started or resumed after a restart. It need not be after the
  three that write nothing: a disable of a backend found disabled, a drain's task that finds it
  disabled, and a drain that joins an earlier one. Runs that show it: an activation fails after
  the rename (`LifecycleRuns.FailedActivationUndoes`), and a disable or a drain is killed between
  rename and sync (`LifecycleRuns.KilledDisableUndone`, `LifecycleRuns.KilledDrainUndone`).
- **Selection.** The chosen backend is one that may be tried, and no other costs less, by the
  numbers it and its engine reported (`Routing.ChosenIsBest`, `Routing.ScoreIsCost`); over a burst
  between two scrapes no other allocation has a lower maximum (`Burst.BurstOptimal`).
- **Audit records.** Over all interleavings every record says exactly what the request's task
  did, field by field (`AuditRecord.RecordSaysWhatWasDone`), and every started request ends with
  exactly one (`Audit.ExactlyOneRecord`, `Audit.WriterCatchesUp`).
- **Scrape texts.** What each line means is given by the grammar of a line; a text is accepted,
  and each number ends in its own field, if and only if it tells what it must
  (`MetricsText.ReadsExactly`, `MetricsText.TextAccepted`, `MetricsText.TextSays`).
- **Usage scanning.** The scanner captures exactly the outermost `usage` objects, provided every
  recognised object has at most 4096 bytes, if and only if no key whose text ends in an escaped
  quote and `usage` has an object as its value; and without such a key, if and only if every
  `usage` object has at most 4096 bytes (`JsonUsage.ScannerCapturesUsageExactly`,
  `JsonUsage.PlainKeysExactly`, `JsonUsage.FalseFriendCaptured`). Keys are compared by their raw
  text, by the scanner and in this statement: `"\u0075sage"` is not recognised.
- **Timestamps** read back as the millisecond they were made from
  (`CivilDate.TimestampReadsBack`), and sort as text through the year 9999 and not one millisecond longer
  (`CivilDate.TimestampsSortThrough9999`, `CivilDate.TimestampsStopSorting`).
- **The log tail** always stands for what it had read followed by what the file has from there
  on; that is the file if and only if a restart was noticed or what it had read is still there
  (`Logs.FollowsExactly`). So it misreads a file that was rewritten in place and regrew past what
  had been read (`Logs.RegrownFileMisread`).

## Model

| member | source | states |
|---|---|---|
| Backend.BackendSlot.TryAcquire | src/backend.rs:373-411 | a lease is granted exactly on a registered, active slot, with a fresh serial and the specification of that moment; a refusal changes nothing |
| Backend.BackendSlot.ReleaseLease | src/backend.rs:557-562 | a held lease leaves the slot, once, and nothing else but the sequence changes |
| Backend.BackendSlot.ChangeMode | src/backend.rs:491-509 | a mode change takes the next epoch, a repeated one changes nothing, and a retired slot refuses it where registration is required |
| Backend.BackendSlot.Activate | src/backend.rs:417-419 | activation succeeds exactly on registered slots |
| Backend.BackendSlot.Disable | src/backend.rs:422-427 | disabling works on any slot |
| Backend.BackendSlot.BeginDrain | src/backend.rs:432-445 | the gate closes and the token names the epoch of this drain; repeating joins it |
| Backend.BackendSlot.ReconcilePresent | src/backend.rs:511-533 | reconciling in registers the slot, replaces a changed specification, and keeps mode, epoch, counters and leases |
| Backend.BackendSlot.ReconcileAbsent | src/backend.rs:535-550 | reconciling out retires the slot, disables it if it was active, and keeps a drain's epoch |
| Backend.EpochFixesMode | src/backend.rs:143-145 | along any run of operations the epoch never falls, and a slot at the same epoch is in the same mode |
| Backend.SlotStaysValid | src/backend.rs:373-403 | serials of live leases are distinct and below the acquisition count after any run |
| Backend.SequenceCountsChanges | src/backend.rs:557-575 | along any run the published sequence never falls, and a slot at the same sequence is the same slot; likewise the revision and the specification |
| Backend.RetiredNeverActive | src/backend.rs:373-411 | after any run a lease is granted exactly by a registered, active slot, under the next serial and with the specification of that moment, and a retired slot is never active |
| Backend.FenceOnlyShrinks | src/backend.rs:16-19 | while the gate stays closed the leases are those it closed over less exactly the released ones, and none is added |
| Backend.DrainTokenSound | src/backend.rs:447-489 | a drain waiter succeeds if and only if the slot never left its drain and every lease the fence found was released, under any interleaving; it is told superseded, with both epochs and the mode, if and only if the slot left it; otherwise it waits on |
| Backend.DesiredExactly | src/backend.rs:750-756 | a list of specifications is accepted exactly if its ids are distinct, and then each id keeps its specification |
| Backend.BackendRegistry.Get | src/backend.rs:708-711 | only registered slots are found |
| Backend.BackendRegistry.Reconcile | src/backend.rs:746-790 | a repeated id changes nothing; otherwise every id is reconciled as one, slots keep their identity, and the report lists exactly what was added, revived, updated and retired |
| Backend.ReconciledMeans | src/backend.rs:511-550 | what reconciling does to each id: listed ones registered with their specification, new ones disabled and idle, old ones as they were; the others retired, disabled if they were active, with their leases |
| Backend.BackendRegistry.RetireMissing | src/backend.rs:761-765 | exactly the slots missing from the list are retired |
| Backend.BackendRegistry.AdmitDesired | src/backend.rs:767-783 | every listed backend is registered, in its old slot if it has one and else in a new disabled one |
| Backend.BackendRegistry.PruneRetired | src/backend.rs:794-806 | exactly the retired, idle, not draining slots are forgotten |
| Registry.RegistryConserves | src/backend.rs:683-690 | over any run at most one slot of an id is registered, and every lease held by a request is counted once by a slot still retained |
| Registry.PrunedNeverGains | src/backend.rs:792-806 | a slot the registry forgot never holds a lease again, even when its id returns |
| Registry.RevivalKeepsSlot | src/backend.rs:734-741 | revival keeps slot, mode, epoch, counters and leases; a repeated id changes nothing |
| Registry.ReconcileSeen | src/backend.rs:746-790 | on shared objects, reconciliation does to each id what the registry's map specifies |
| BackendState.BackendStateStore.Load | src/backend_state.rs:56-87 | loading succeeds exactly on a missing file or one of version 1 without empty ids and stored active modes, and else names what is wrong |
| BackendState.BackendStateStore.SetStoredMode | src/backend_state.rs:103-125 | a mode is stored (active by leaving it out) and reported saved exactly if the write succeeded; a failed write restores the overlay |
| BackendState.BackendStateStore.SaveFile | src/backend_state.rs:154-185 | what a crash may leave after a write that succeeds, fails before the rename, or fails after it |
| BackendState.RunStore | src/backend_state.rs:133-152 | after any run of changes, kills and power losses the overlay is valid and whatever the file may hold can be loaded again |
| BackendState.FenceSurvivesCrash | src/backend_state.rs:101-125 | over any changes, kills and power losses, everything the file may hold fences a backend if and only if the fence was synced and no activation of that backend has failed after its rename since |
| BackendState.SavedIsReadBack | src/backend_state.rs:101-125 | a write that reports success is read back as exactly the overlay it wrote |
| BackendState.FailedActivationLosesFence | src/backend_state.rs:119-123 | a disabled backend whose activation failed to sync may come back active after a power loss |
| BackendState.KilledSaveLosesFence | src/backend_state.rs:154-185 | a process killed between rename and sync leaves a fence that the next one reads and a power loss may undo |
| Runtime.RuntimeState.constructor | src/runtime.rs:515-545 | at startup all configured backends are registered and active, with generations counted from one |
| Runtime.RuntimeState.ApplyWithModes | src/runtime.rs:635-761 | a rejected candidate changes neither the registry nor what is published; an accepted one is published with the next revision and changes both as specified |
| Runtime.RuntimeState.CheckQuiescent | src/runtime.rs:650-675 | the first changed or removed backend that is not disabled and idle blocks the candidate |
| Runtime.RuntimeState.AssignGenerations | src/runtime.rs:681-701 | an unchanged backend keeps its generation and every other takes the next number |
| Runtime.RuntimeState.Reslot | src/runtime.rs:703-747 | new and revived slots take their stored mode and stored fences are reasserted on all |
| Runtime.RuntimeState.RestoreStoredModes | src/runtime.rs:779-800 | stored modes are restored, missing entries leave the slot alone |
| Runtime.ApplyGenerations | src/runtime.rs:558-574 | every configured backend has one generation of its own, kept exactly if it stays configured with the same three endpoints and otherwise never used before |
| Runtime.RejectedExactly | src/runtime.rs:655-675 | a candidate is rejected if and only if it removes or moves a backend which is not disabled or still leased |
| Runtime.RejectionNamesFirst | src/runtime.rs:650-675 | the rejection names the first such backend in configuration order, and whether it would go or move |
| Runtime.AcceptedSlots | src/runtime.rs:703-761 | what an accepted candidate does to each slot: registered exactly if configured, with its endpoint, in its stored mode if fenced, active if it was not registered, else in the mode it was in; no lease is lost or gained, and the revision is one higher |
| Runtime.GenerationsIdentify | src/runtime.rs:558-574 | over any run of reloads and slot changes a backend has its old generation if and only if it stayed configured with the same endpoints throughout, and no generation passes to another backend |
| Runtime.StartupOk | src/runtime.rs:515-545 | the startup topology is in order and every backend of it is active |
| Routing.RoutingState.constructor | src/routing.rs:368-380 | every configured backend starts with a fresh live state of its generation |
| Routing.RoutingState.EnsureBackends | src/routing.rs:398-419 | live states of backends no longer configured are dropped, those of another generation start over, the others are kept |
| Routing.EnsuredMeans | src/routing.rs:398-419 | afterwards each configured backend has one live state, of its generation: the one there was if it was of this generation, and else one with no readiness, telemetry, failures or scrapes |
| Routing.RoutingState.RecordReadinessSuccess | src/routing.rs:426-447 | readiness follows the success threshold, for the current generation only |
| Routing.RoutingState.RecordReadinessFailure | src/routing.rs:459-485 | readiness follows the failure threshold, for the current generation only |
| Readiness.ReadinessExactly | src/routing.rs:426-485 | after any run of probes the state is the verdict of the last one that completed enough like results in a row, or unknown if none did |
| Readiness.CountersCount | src/routing.rs:426-485 | the two counters are the lengths of the run of successes and of failures at the end |
| Routing.RoutingState.BeginMetricsScrape | src/routing.rs:497-527 | a scrape takes the next serial and the acquisition count read before it, for the current generation only |
| Routing.RoutingState.RecordMetricsSuccess | src/routing.rs:529-587 | a newer result of the current generation replaces the observation, and the idle streak grows exactly if it reports no running and no waiting sequence, and ends if not; any other is ignored |
| Routing.RoutingState.RecordMetricsFailure | src/routing.rs:599-621 | a newer failure of the current generation ends the idle streak and keeps the observation; any other is ignored |
| Routing.RoutingState.TryCircuitPermit | src/routing.rs:774-800 | a permit is given when the circuit is closed, or as the one trial when it is half open |
| Routing.RoutingState.RecordCircuitOutcome | src/routing.rs:802-841 | a current outcome is counted, opens the circuit or frees the trial; a stale one is ignored |
| Routing.RoutingState.RecordSuccessAndObserver | src/routing.rs:843-865 | a current success closes the circuit, in a new epoch if it was the trial, and leaves an observer |
| Routing.RoutingState.RecordBodyFailure | src/routing.rs:867-886 | a current broken body counts as a failure, and after a trial opens the circuit at once |
| Routing.RoutingState.Select | src/routing.rs:623-735 | the chosen backend is registered, active, ready and let through by its circuit, and no other such backend costs less - the share of running, waiting, newly assigned and one more sequence in the lesser capacity, plus the penalty of a cache over the soft limit - or as much with fewer local requests or an earlier id; it alone gains a permit and a lease; none is chosen only if none could be taken, or only ones of unknown cost while the trial of a known one is in flight |
| Routing.ChosenIsBest | src/routing.rs:654-735 | the same of whatever the order of the pool chooses, for any scene |
| Routing.ScoreIsCost | src/routing.rs:895-933 | a candidate has a score exactly if its telemetry is fresh, a capacity is known and positive and its cache total, if any, is positive; and then it is that share plus that penalty |
| Routing.RoutingState.TakeFirst | src/routing.rs:700-735 | whatever has changed since the scoring, candidates are tried in order for a permit and then a lease, and a permit whose lease is refused is dropped |
| Routing.TakeAlongExactly | src/routing.rs:700-735 | so the first candidate that both circuit and gate let through is taken, none only if there is none, and a refused one is left as it was or free for the next trial |
| Routing.BeforeOrders | src/routing.rs:670-684 | pressure, local requests and rotated id order the candidates strictly and totally |
| Routing.OrderPool | src/routing.rs:632-684 | the pool is ordered by that order and holds the scored candidates if there are any |
| Circuit.SingleTrial | src/routing.rs:774-886 | in every reachable state at most one unresolved trial has the current epoch, it exists exactly while the circuit is half open with a trial in flight, and current ordinary permits and observers imply a closed circuit |
| Circuit.OpensExactly | src/routing.rs:802-886 | a closed circuit opens exactly on the third failure in a row of its epoch or when the trial that closed it breaks; its counter is that run; stale outcomes change nothing |
| Circuit.OpenForTenSeconds | src/routing.rs:774-841 | an open circuit lets nothing through for 10 000 ms from the failure that opened it, then one trial, and nothing else while the trial is unresolved |
| Circuit.TrialDecides | src/routing.rs:802-865 | a failed trial opens the circuit again in a new epoch, a successful one closes it and leaves an observer that may open it at once, any other end frees the trial |
| Circuit.TrialBodyBreaks | src/routing.rs:867-886 | however the run goes on, a response which breaks after its trial closed the circuit opens it, unless something else has opened it before |
| Scrapes.LoadNeverUnderstated | src/routing.rs:497-587 | under any overlap of scrapes accepted serials increase, the observation is the latest accepted reply, and new sequences are at least the leases granted since it was requested |
| Scrapes.MeterAlways | src/routing.rs:529-621 | observation, idle streak and last serial are functions of the accepted results after any run |
| Scrapes.TwoSamplesAfterFence | src/control.rs:368-390 | with scrapes that never overlap, two idle samples newer than a fence are the last two results, both idle and both begun after it |
| Scrapes.OverlapMiscounts | src/control.rs:368-375 | with overlapping scrapes they need not be: a scrape under way at the fence can count |
| Burst.BurstOptimal | src/routing.rs:623-735 | between scrape results a burst of selections, with any releases and any reported outcomes that leave the circuits closed, leaves no request that would see lower pressure elsewhere, and no other allocation of as many requests has a lower maximum |
| Burst.OutcomesAreSteady | src/routing.rs:802-886 | an outcome that leaves a closed circuit closed changes nothing the load is computed from |
| Burst.BalancedIsOptimal | src/routing.rs:895-933 | an allocation without such a request is matched in pressure by every other |
| Burst.PressureRises | src/telemetry.rs:149-175 | pressure never falls with more sequences |
| Burst.ScoreIsPressure | src/routing.rs:895-933 | a candidate's score is the pressure it would have with one more sequence |
| Control.ControlState.EnsureDrainOperation | src/control.rs:285-329 | an operation under way for the backend is joined, else one is started with the scrape count of that moment |
| Control.ControlState.BeginDrain | src/control.rs:249-283 | the gate is closed and the fence written and an operation started or joined, or the gate, the overlay and the operations are as before |
| Control.ControlState.Activate | src/control.rs:444-508 | only a disabled, ready backend with fresh telemetry is activated, the fence being removed before the gate opens; every refusal changes nothing |
| Control.ControlState.Disable | src/control.rs:518-569 | the fence is written before the gate closes; requests in flight refuse it unless forced |
| Control.ControlState.WriteThenSet | src/control.rs:543-553 | whatever runs on the backend by then, the mode is written and then set, or neither, and its leases stay |
| Control.ControlState.ConfirmDrain | src/control.rs:377-421 | a drain ends idle exactly if under the lock the backend is draining without a lease, its observation is fresh and reports no running and no waiting sequence, and two such results in a row were requested since the operation started; it is then disabled on disk and in memory, or reported failed |
| Control.ControlState.DriveDrain | src/control.rs:331-430 | a round of a drain's task ends it if the backend is gone, disabled, active or confirmed idle, and else leaves slots, overlay and operation as they are |
| Control.VerdictMeans | src/control.rs:331-430 | which phase each round reports: idle completion exactly if nothing is left and the write succeeds, else what the mode says |
| Control.ControlState.ResumePersistedDrains | src/control.rs:241-247 | after a start or reload every registered backend that drains has an operation under way, and no operation was lost |
| Control.DrainAgrees | src/control.rs:258-274 | a drain, failed or not, leaves every registered slot in its stored mode |
| Control.WriteAgrees | src/control.rs:482-501 | so do an activation and a disable |
| Control.DrainIsSteps | src/control.rs:249-283 | undisturbed, the steps of a drain have the effect of the command on slots, overlay and file and on the operation it starts or joins |
| Control.DisableIsSteps | src/control.rs:518-569 | undisturbed, the steps of a disable have the effect of the command |
| Control.ActivateIsSteps | src/control.rs:444-508 | undisturbed, the steps of an activation have the effect of the command |
| Control.ConfirmTests | src/control.rs:377-394 | the method tests exactly what the step of the protocol tests |
| Control.ConfirmIsSteps | src/control.rs:377-421 | undisturbed, the steps of a confirmation have the effect of the method on the plane and on the operation |
| Control.ConfirmationCertified | src/control.rs:377-394 | in every reachable state a test that the method passes gives the operation its certificate, and exactly when it covers both scrapes |
| BackendView.TakeKeeps | src/routing.rs:700-711 | taking a permit and a lease, or dropping the permit when the lease is refused, keeps the invariant of a backend |
| BackendView.GrantedIsCurrent | src/routing.rs:654-656 | a lease is only ever granted on the backend as published, by its own live state, and stored as active unless a disable has just been saved |
| BackendView.SettleKeeps | src/routing.rs:255-275 | whatever a request reports lands on the live state that issued its ticket, and keeps the invariant |
| BackendView.EndFlightKeeps | src/proxy.rs:198-250 | the end of a request releases its one lease and keeps the invariant |
| BackendView.FinishScrapeKeeps | src/routing.rs:1154-1190 | a scrape result keeps the telemetry a function of the accepted results |
| BackendView.EnsureKeeps | src/routing.rs:398-419 | a live state is only replaced while no request runs on the backend |
| BackendView.ConfirmCertifies | src/control.rs:377-394 | a passed idle test is a certificate for any operation: no lease held or granted since the fence, the last two results idle; both newer than the fence if and only if two idle samples are newer than the scrape count there, as for every operation of this epoch |
| BackendView.CheckedKeeps | src/runtime.rs:655-675 | a reload in progress leaves the backends it will change disabled and idle |
| BackendView.ModeRestoredKeeps | src/runtime.rs:706-747 | new and revived backends come up in their stored mode and fenced ones stay fenced |
| BackendView.PublishedKeeps | src/runtime.rs:748-755 | publication changes the generation of no backend with a request or a drain on it |
| LifecycleSafety.StepKeeps | src/control.rs:249-588 | every step of the protocol keeps the invariant of the whole system |
| LifecycleSafety.InvAlways | src/control.rs:249-588 | the invariant holds in every reachable state, whatever the interleaving, the failures and the crashes |
| LifecycleSafety.DrainCertified | src/control.rs:331-430 | every drain completed by its idle path certifies no lease held or granted since its fence, and no running and no waiting sequence in the last two accepted replies and in the stored observation, and exactly when both replies were requested after it; and there is still no lease when it is reported |
| LifecycleSafety.DrainOwnsOperation | src/control.rs:285-329 | after a drain that closed the gate one operation is under way, of the epoch of this drain if and only if none was before |
| LifecycleSafety.ModesAgree | src/control.rs:249-588 | whenever the lifecycle lock is free every registered slot is in its stored mode, a missing entry meaning active |
| LifecycleSafety.ReloadIsApply | src/runtime.rs:635-761 | the stages of an undisturbed reload are one application of the candidate |
| LifecycleSafety.ServeViews | src/main.rs:80-118 | restoring the stored modes before serving brings every backend up in order |
| LifecycleSafety.RequestsIsolated | src/runtime.rs:649-701 | from routing to end a request's backend keeps endpoints and generation, and the live state that hears its outcome is the one that issued its permit |
| LifecycleSafety.LeasesAreRequests | src/backend.rs:578-622 | leases and requests under way correspond one to one |
| LifecycleSafety.TrialsAreSingle | src/routing.rs:774-886 | the circuit's ticket invariant holds of every backend in the whole system |
| LifecycleSafety.LoadIsConservative | src/routing.rs:895-918 | the load of a backend is never understated in the whole system |
| LifecycleDurability.DiskExactly | src/backend_state.rs:154-185 | in every reachable state, every file a power loss may leave has the fence if and only if it is firm and no activation of the backend is writing |
| LifecycleDurability.SecureStays | src/control.rs:249-588 | no step but an activation of the backend loosens a firm fence with a closed gate |
| LifecycleDurability.FenceIsDurable | src/control.rs:476-569 | such a fence holds in memory and in every file a crash may leave, through any run, until an activation of the backend starts |
| LifecycleDurability.DurableExactly | src/control.rs:444-508 | a closed gate stays closed in every continuation without an activation if and only if the fence is firm and none is under way |
| LifecycleDurability.UnfirmReturnsActive | src/main.rs:80-83 | a backend whose fence is not firm is active after some power loss and a start with any configuration that has it |
| LifecycleDurability.AnswersExactly | src/control.rs:249-569 | when each answer that a backend is fenced lasts: always after a write of its own, otherwise exactly if the fence is firm and no activation is under way |
| LifecycleQuiet.UnusedExactly | src/control.rs:444-508 | with the gate closed, no request runs in any continuation without an activation if and only if none runs now, the fence is firm and no activation is under way |
| LifecycleQuiet.AnswersUnusedExactly | src/control.rs:249-569 | the same at each answer in terms of the leases of the slot; always after the idle completion of a drain and after a quiet disable |
| LifecycleQuiet.DrainingDisableIsQuiet | src/control.rs:535-553 | without force a draining backend is refused while a lease is held and else disabled quietly |
| LifecycleRuns.StaleOperationConfirms | src/control.rs:285-296 | a run in which a second drain joins the operation of the first and its idle test passes on scrapes that all began before its fence |
| LifecycleRuns.ForcedDisableReportsBusy | src/control.rs:348-365 | a run in which a drain reports completion while a request still runs on its backend |
| LifecycleRuns.UnforcedDisableReportsBusy | src/control.rs:535-553 | such a run without any forced disable: a request is routed between the look at the requests and the closing of the gate |
| LifecycleRuns.FailedActivationUndoes | src/control.rs:482-490 | a run after which a disable and a drain's task both answer that the backend is disabled, and some continuation without an activation opens its gate |
| LifecycleRuns.KilledDisableUndone | src/control.rs:518-530 | a run in which a disable is killed, the next one answers that the backend is disabled, and some continuation without an activation opens its gate |
| LifecycleRuns.KilledDrainUndone | src/control.rs:249-262 | a run in which a drain is killed, the next one joins it and is accepted, and some continuation without an activation opens its gate |
| Audit.LogWorker.HandleEvent | src/logging.rs:809-893 | what each event does to the pending entries and the records |
| Audit.LogWorker.RunWorker | src/logging.rs:756-807 | the writer handles every queued event in order and then writes exactly one shutdown record for each request left |
| Audit.LogSender.RequestStarted | src/logging.rs:507-556 | admission takes a slot and queues the start event exactly if the pipeline is healthy, a slot is free and the queue has room, and else leaves the count as it was |
| Audit.LogSender.TrySend | src/logging.rs:607-614 | an event is queued if there is room; otherwise the pipeline fails closed |
| Audit.QueueNeverFull | src/logging.rs:54-59 | over all interleavings every queued event belongs to a live permit, the queue of five times the slots holds at most five events for each, and no send ever fails |
| Audit.RecordIsFaithful | src/logging.rs:809-893 | a request has at most one record, and it is put together from all the events it sent |
| AuditRecord.RecordSaysWhatWasDone | src/logging.rs:809-893 | every record of every run says exactly what the task did: its start and request, and status, streaming, error, routing and routing time each if and only if the task reported it; it ends as the task finished or abandoned it, or with the shutdown error if it did neither |
| AuditRecord.SentAlways | src/logging.rs:558-605 | over all interleavings a request has sent an event if and only if its task did what the event says |
| Audit.ExactlyOneRecord | src/logging.rs:756-807 | once all tasks are over and the writer has caught up, every started request has exactly one record and every permit is back |
| Audit.WriterCatchesUp | src/logging.rs:756-807 | from every reachable state with all tasks over, the writer alone gets there |
| Audit.StepKeeps | src/proxy.rs:96-147 | every step of a request task or of the writer keeps events, entries, records and permits in agreement |
| Bodies.ObservedBody.PollFrame | src/logging.rs:685-721 | bytes, first-byte time and usage are those of all frames so far, and the first poll that ends the body reports |
| Bodies.ObservedBody.Drop | src/logging.rs:732-754 | a body reports exactly once over its life: complete or broken as the first poll that ended it says and at that time, or aborted; with the bytes, the time of the first data and the last counts of the frames up to it |
| Bodies.LeasedBody.PollFrame | src/proxy.rs:214-241 | the guard is released by the first poll that ends the body, after its observer heard of an error |
| Bodies.LeasedBody.Drop | src/proxy.rs:198-220 | over its life a body releases its lease exactly once, after its observer heard of a failure exactly if the first poll that ended it was an error |
| Usage.UsageSniffer.Feed | src/usage.rs:120-124 | feeding a chunk is feeding its bytes to the state machine, and the counts are those of the last captured object with any |
| Usage.UsageSniffer.FeedByte | src/usage.rs:126-205 | the object follows the state machine and keeps the last informative counts |
| Usage.UsageSniffer.FinishObject | src/usage.rs:207-216 | a captured object replaces the counts exactly if it reports any, and the counts are then its own |
| Usage.LatestMeans | src/usage.rs:58-71 | the kept counts are those of the last captured object with any: input and output by their newer names if present and else by their older ones, cached tokens from the details of the prompt or else of the input |
| Usage.RunConcat | src/usage.rs:118-124 | feeding in two chunks is feeding the whole |
| JsonUsage.ScannerAgreesWithTree | src/usage.rs:126-205 | scanning the text of any JSON value captures exactly the outermost objects the scanner's keys lead to, in document order, if and only if each has at most 4096 bytes |
| JsonUsage.ReactsExactly | src/usage.rs:126-160 | exactly which keys the scanner takes for `usage` |
| JsonUsage.ScannerCapturesUsageExactly | src/usage.rs:126-223 | the captured objects are the outermost `usage` objects: if the recognised objects fit, exactly if no falsely recognised key has an object value; without such a key, exactly if the `usage` objects fit |
| JsonUsage.PlainKeysFaithful | src/usage.rs:126-223 | texts without escaped quotes in keys have no falsely recognised key |
| JsonUsage.PlainKeysExactly | src/usage.rs:126-223 | for them the captured objects are the outermost `usage` objects if and only if each of these has at most 4096 bytes |
| JsonUsage.CountsReported | src/usage.rs:126-223 | for such a text the counts kept are those of its last outermost `usage` object with any |
| JsonUsage.FalseFriendCaptured | src/usage.rs:126-160 | a text without a `usage` member from which an object is captured |
| JsonUsage.CapturedWholeExactly | src/usage.rs:184-205 | an awaited object is captured whole if and only if it has at most 4096 bytes |
| JsonUsage.CapturesAreShort | src/usage.rs:184-205 | nothing longer is ever captured, whatever the bytes |
| JsonUsage.OversizedObjectDropped | src/usage.rs:184-205 | a longer one is dropped after exactly 4096 bytes and what is left of it is searched like fresh text |
| JsonUsage.ChunkingIrrelevant | src/usage.rs:118-124 | frame boundaries are invisible |
| JsonUsage.ScannerAgreesWithStream | src/usage.rs:126-223 | over a whole event stream the captured objects are those of its events, in order, if and only if each has at most 4096 bytes |
| Logs.Tail.PollOnce | src/logs.rs:194-265 | a poll reads what is new, restarts on a replaced or shortened file, and holds back the unfinished line |
| Logs.Tail.DrainLines | src/logs.rs:240-262 | every finished line of the buffer is emitted or counted, in order |
| Logs.LinesExact | src/logs.rs:240-262 | cutting at newlines loses nothing |
| Logs.LinesUnique | src/logs.rs:240-262 | and is the only way to cut |
| Logs.LinesAppend | src/logs.rs:228-262 | reading on needs only the unfinished line |
| Logs.EveryLineCounted | src/logs.rs:246-258 | every nonblank line is a record or counted malformed |
| Logs.RecordsMore | src/logs.rs:246-258 | a further line adds its record at the end exactly if it holds more than white space and parses, and is malformed exactly if it does not parse |
| Logs.RestartNoticed | src/logs.rs:196-227 | a restart is noticed if and only if the path names another file or the file is shorter than what was read |
| Logs.FollowsExactly | src/logs.rs:194-265 | after any poll the tail stands for what it had read and the file from there on, or after a noticed restart for the file; the first is the file's contents if and only if what was read is still there |
| Logs.RegrownFileMisread | src/logs.rs:216-227 | a file rewritten in place which regrew is misread |
| Logs.TailEqualsFullRead | src/logs.rs:194-265 | over any appends and polls, what was emitted, counted and held back is that of one read of a prefix of the file, and of the whole file after a poll |
| Telemetry.OneMoreSequence | src/telemetry.rs:149-175 | one more sequence costs one share of the capacity |
| Telemetry.PressureMeans | src/telemetry.rs:149-175 | there is a score exactly if the capacity is positive and the cache ratio a fraction; the occupancy is the share of running, waiting and new sequences in the capacity, the penalty grows in proportion from 0 at the soft limit to 1 at a full cache, and the pressure is their sum |
| Telemetry.FindLabelSetEnd | src/telemetry.rs:538-557 | the first closing brace outside quoted label values is found, or there is none |
| Telemetry.ParseMetrics | src/telemetry.rs:351-443 | the parser reads the lines in order and stops at the first error; which texts it accepts, and what each number of the result is, is stated by `MetricsText` on the text |
| MetricsText.ReadsExactly | src/telemetry.rs:367-536 | a line reads as a sample of one of the nine metrics, with these labels and this value, if and only if it has the shape of one - white space, the name, a label set, white space, the value, a time, a comment - and it breaks the metric if and only if it begins with its name and has not |
| MetricsText.IgnoredExactly | src/telemetry.rs:367-376 | a line is ignored if and only if it begins with none of the nine names |
| MetricsText.TextAccepted | src/telemetry.rs:351-443 | a text is accepted if and only if it tells running and waiting, tells or leaves out the capacity, and tells or leaves out both cache counts - each in one unlabelled line with an exactly representable count, positive where zero makes no sense |
| MetricsText.TextSays | src/telemetry.rs:351-443 | and then every number it tells is in its own field, the counters if they are unambiguous, the family as the sum of its distinct series |
| Telemetry.ParseMeaning | src/telemetry.rs:351-443 | when a scrape is accepted and what it says, metric by metric |
| Telemetry.ParsedCacheValid | src/telemetry.rs:415-430 | an accepted cache pair has a positive total |
| Telemetry.ParseInsensitive | src/telemetry.rs:351-443 | what the recognised lines say, in any order, decides acceptance and result |
| Telemetry.TextInsensitive | src/telemetry.rs:351-443 | whether a text is accepted, and what it says, depends only on its lines with recognised names, in any order |
| Telemetry.PermutedOrExtended | src/telemetry.rs:351-443 | a permutation of the text with a line of another name put in anywhere has the same recognised lines |
| CivilDate.CivilSuccessor | src/logging.rs:1102-1119 | successor days have successor dates |
| CivilDate.CivilIsCalendar | src/logging.rs:1102-1119 | the closed form is the Gregorian calendar counted from 1 January 1970 |
| CivilDate.CivilCountsBack | src/logging.rs:1102-1119 | the day count of the date is the day it came from |
| CivilDate.CivilInverse | src/logging.rs:1102-1119 | every date from 1970 on is the date of its own day count |
| CivilDate.CivilMonotone | src/logging.rs:1102-1119 | later days have later dates |
| CivilDate.TimestampReadsBack | src/logging.rs:1087-1100 | every timestamp has the shape of RFC 3339 and read back, by the calendar and the clock, it is the millisecond it was made from |
| CivilDate.ReadOneWay | src/logging.rs:1087-1100 | and can be read in only one way |
| CivilDate.TimestampsSortThrough9999 | src/logging.rs:1087-1100 | timestamps sort as text in time order through the year 9999 |
| CivilDate.TimestampsStopSorting | src/logging.rs:1087-1100 | and not one millisecond longer |

## Left out

- Runtime.RuntimeState.ApplyWithModes: a candidate is taken as validated, with distinct ids; parsing and validation of the TOML file are not modelled.
- JsonUsage.ScannerAgreesWithStream: framing has no quotes, and after an event whose data is a bare string it begins with white space and its first other byte is not a colon, because the scanner would read on across it.
- JsonUsage.ScannerCapturesUsageExactly: with a falsely recognised key and an oversized object in one text it does not decide, because the rest of an oversized object is searched like fresh text (`JsonUsage.OversizedObjectDropped`).
- Bodies.ObservedBody.PollFrame: the byte counter does not saturate.
- LifecycleSafety.RequestsIsolated: some steps of `Lifecycle` join sections under different mutexes: a circuit permit and the lease after it, the lease and the permit which a dropped selection gives back, and the parts of a reload within its three stages. What other steps could do in these windows is not in its runs.
- Routing.RoutingState.Select: one step, without changes between scoring and taking; `Routing.RoutingState.TakeFirst` is the rest of it after any change.
- Control.ControlState.Disable: one step, without requests between its look at them and its write; in `Lifecycle` they are two.
- The overlay file is replaced whole: what a crash leaves is one of the contents renamed into place since the last sync, or that last one. A kill leaves what was last renamed; a sync that reports success is taken to have reached the disk.
- `wait_for_local_zero` is modelled by what one look at the slot tells the waiter (`Backend.WaitCheck`); the subscription which wakes it is not.
- The retry loop of a drain's task is modelled as rounds taken at any time; its sleep and its progress messages are not.
- `Lifecycle` keeps the slots, live states and cells of a world as maps of values, since a run of interleaved steps is a sequence of states; the objects and their aliasing are in `Backend`, `Registry`, `Runtime`, `Routing` and `Control`.
- In `Lifecycle` a request may be routed to any backend at any time the gate and the circuit allow, more than `Select` would; scoring is in `Routing` and `Burst`.
- Floating-point numbers are reals; rounding, overflow and the NaN of a zero cache total (no score) are not modelled.
- Counters are unbounded; the panics on exhaustion are not modelled.
- JSON, TOML and number parsing enter as function values.
- Token and prefill rates, status and display snapshots, and the percentiles of the log summary.
- The time at which a stored mode was changed, and file permissions.
- Lines of a metrics text are given as a list; `trim` is over ASCII white space.
- Failures of the audit writer beyond the failed flag, its flush timing and its terminal output.
- I/O errors of the log tail.
- HTTP, headers and URIs, keys and authentication, registration, the terminal interfaces and the command line.
- Mutex poisoning and task failures.
