# Verification of the agent's protocols

A node agent takes orders from a remote panel. It admits connections under device leases, opens firewall ports, filters
sources, meters traffic, records accesses, throttles heavy users, coalesces pushed configuration, frames VMess chunks,
spreads connections over targets and upgrades itself. This project models the protocols and algorithms behind those jobs and
proves what they keep: over whole runs, at every point where the process may crash, and for all inputs. `dafny verify
dfyconfig.toml` checks everything.

Objects that the program updates in place are classes here, with loops where the program loops. Each method's contract gives
the new state as a function of the old one; the invariants and the runs are proved about those functions.

**Device leases** (`DeviceGate*.dfy`). `DeviceGateState` says what every critical section of the coordinator does to its
memory, `DeviceGate` is the coordinator itself, `DeviceGateInvariant` and `DeviceGateHistory` hold what each section keeps, and
`DeviceGateWorld` lets the environment interleave the sections, repeat, delay or drop replies and advance a clock. The main
results are in `DeviceGateTheorems`. A source or a permit that the program holds by pointer is an identity drawn from a
counter. What is assumed of the environment: one lease string names one user and address; a processed reply carries a sequence
the node drew itself; a request is started within a minute of drawing its snapshot (the minute by which revocation records
outlive the grace time); session names never repeat. Lists that the wire format sorts are sets.

**Firewall** (`PortSet`, `FirewallPlan`, `Ufw*`, `Source*`). Interval merging and the combination of plans; the ownership
protocol over UFW's rule list; and the replacement of source filters in the kernel. Every command and every save is one step,
may fail, and may be the last one before a crash; a trace records what a crash at each step would leave. A save is one atomic
write, which may be reported as failed although it replaced the file. UFW holds one ALLOW entry per rule and never lists a
reversed port range.

**Metering and delivery** (`AccessLog*`, `Traffic*`, `BillingPeriod`, `AutoSpeed`, `Mailbox`). Each keeps a small state in
place; beside it stands the history that gives the state its meaning.

**Codecs, selection, ordering** (`Chunk*`, `Balancer`, `ReleaseVersions`). Cryptography is abstract: a keystream is any
function of the position, and opening undoes sealing under the same key and nonce.

## Where the code and its promise part

Each of these is proved with the condition under which the promise holds, an equivalence wherever it says "exactly", and
with a run or a call that shows the other case.

- Removing a user from the list fences earlier replies exactly when the coordinator knew the user
  (`RemovalFencesKnownUsers`); a run in which it did not ends in a permit on a reply older than the removal
  (`UnknownUserIsNotFenced`).
- A set of this instance is off the durable record exactly when an earlier save of its name failed and no save has replaced
  the file since (`OffRecordExactly`); a later process is then refused that set for good (`OffRecordForGood`).
- A quota that is used up blocks until the period, the epoch or the policy changes, provided that the last save before each
  restart succeeded (`BlockHoldsOverRuns`); a restart on an older file unblocks (`RestartOnOlderFileUnblocks`).
- A saved access log is restored exactly when no record is dated further ahead of the new clock than tolerated; otherwise none
  of it is (`RestoreUndoesSave`), and the process then neither records nor sends (internal/service/access_log.go:23-41).
- A receiver holds every access record at most once in every run (`EachRecordAtMostOnce`). It holds them in order if no
  process asks for a batch at an earlier time than a process before it did and no late copy brings a batch never received
  (`EachRecordOnceInOrder`); either alone can put a batch behind a later one (`ClockBackReorders`, `LateCopyReorders`).
- An own UFW entry is off the record in the file exactly when a write that dropped its record replaced the file but was
  reported as failed, because the directory could not be synchronised, and no write has reached the file since (`Commit`,
  `ResumesExactly`). A retry then opens the rule again without a write (`RetryGoesUnrecorded`).
- After a synchronisation of plans that succeeded, the same plans are refused exactly when they hold a rule for certain
  sources, because only records without priority are looked up (`ApplyTwice`). Nothing in `PlanForNode` gives a rule sources,
  so this concerns callers that hand rules to the backend directly.
- Consecutive picks hand out every target once except when the 64-bit cursor starts over on the way and the number of targets
  does not divide 2^64 (`EachTargetOnce`).
- A chunk reads back exactly when it is not empty and its length and padding fit 16 bits together (`ChunkRoundTrip`,
  `SealedRoundTrip`), and a stream exactly when all its chunks do (`StreamRoundTrip`, `SealedStreamRoundTrip`).
  Nonces repeat after 65536 chunks (`NoncesRepeat`).

## Model

| member | source | states |
|---|---|---|
| DeviceGateTheorems.EveryRunIsGood | internal/devicegate/lease_cache.go:32-289 | in every run, under every interleaving of the critical sections and every delay, repetition or loss of replies, the invariant holds: permits point at the entry of their key, retired and present leases are disjoint, stored sequences are ordered, and a source in force was confirmed after its last revocation and user removal |
| DeviceGateTheorems.NoPermitOnAStaleReply | internal/devicegate/manager.go:176-260 | in every run a permit is only handed out for a source that is in force, within its deadline and permitted, and whose confirmation was sampled after every revocation recorded for its lease and after every user list that left out its user while the coordinator knew the user, remembered or not |
| DeviceGateTheorems.UsableIsCurrent | internal/devicegate/lease_cache.go:54-101 | the same for any usable source at any time, even where the revocation record has been pruned or the barrier dropped with its session |
| DeviceGateTheorems.EveryRunIsFenced | internal/devicegate/lease_cache.go:123-163 | in every run each user list raised a barrier, at the next number, for every user it took away that the coordinator knew |
| DeviceGateTheorems.LiveConnectionsKeepTheirSource | internal/devicegate/manager.go:721-734 | in every run, until a permit's own release no step takes it off the table or changes it, replaces or drops the entry of its key, changes its lease, or lists the lease as retired |
| DeviceGateTheorems.PermitsLeaveByRelease | internal/devicegate/manager.go:721-734 | in every run, a permit is still there after a step if and only if the step is not its own release |
| DeviceGateTheorems.NoOfflineNoticeIsLost | internal/devicegate/manager.go:504-516 | a lease that is held or listed as retired leaves the account only through an acknowledgement that listed exactly that retirement, directly or through the base it named |
| DeviceGateTheorems.ShortRenewalRefinesFull | internal/devicegate/manager.go:444-502 | whenever a shortened message is out, the full snapshot last acknowledged under its base equals the current one except for the number and the connection ages, over failures, fallbacks and session restarts |
| DeviceGateTheorems.OmittedSourcesAreOut | internal/devicegate/lease_cache.go:165-219 | after a reply is accepted, every unrevoked source that was settled before its snapshot has its lease in the reply |
| DeviceGateTheorems.ListedRevoked | internal/devicegate/manager.go:572-611 | the staleness test never spares a source that the reply's snapshot should have listed |
| DeviceGateTheorems.LateGrantsSurvive | internal/devicegate/lease_cache.go:165-219 | a source settled after the snapshot was drawn is not touched for being absent from the reply, and is not returned as idle either while it is newer or in use |
| DeviceGateTheorems.GrantsUnderWaySurvive | internal/devicegate/lease_cache.go:263-281 | in every run, a lease granted while a snapshot is under way is such a source when the reply arrives, however much happens in between, and leaves acceptance as the reply's own leases left it |
| DeviceGateTheorems.RemovalFencesKnownUsers | internal/devicegate/lease_cache.go:123-163 | a user left off the list gets a barrier at every number drawn so far if and only if the previous list, an admission under way or a held source named it, or its barrier already stood there |
| DeviceGateTheorems.UnknownUserIsNotFenced | internal/devicegate/lease_cache.go:133-159 | the other half as a run: a session begins, two lists arrive while its first reply is awaited, the first without the user and the second with it, and the reply sampled before both ends in a permit for that user |
| DeviceGateTheorems.RevocationClosesExactly | internal/devicegate/manager.go:572-611 | a connection's entry is revoked after a revocation if and only if it was before or the connection is among those closed: nothing in force is revoked without being closed, and nothing else is closed |
| DeviceGateTheorems.RemovalClosesExactly | internal/devicegate/lease_cache.go:123-163 | a new user list closes exactly the connections of the users that are not on it |
| DeviceGateWorld.StepKeepsGood | internal/devicegate/manager.go:138-316 | every single step of coordinator or environment keeps the invariant of all runs |
| DeviceGateInvariant.InstallKeeps | internal/devicegate/lease_cache.go:54-101 | installing a lease keeps the coordinator's invariant in each of its cases (refused, refreshed, renewed, replaced, created) |
| DeviceGateInvariant.RevokeKeeps | internal/devicegate/manager.go:572-611 | revoking any list of leases keeps the invariant, barriers included |
| DeviceGateInvariant.RetireKeeps | internal/devicegate/lease_cache.go:32-43 | listing a lease as retired keeps the invariant and leaves the lease listed |
| DeviceGateState.LeaseDeadline | internal/devicegate/lease_cache.go:15-30 | exactly which leases are malformed and which have run out; any other gets a local deadline ahead of now and at most the grace time behind the start of the request |
| DeviceGate.Deadlines | internal/devicegate/lease_cache.go:168-176 | deadlines for all leases of a reply, or none when one of them is malformed or has run out |
| DeviceGate.Manager.Retire | internal/devicegate/lease_cache.go:32-43 | a repeated retirement without a session keeps the session first recorded; each draws a new number |
| DeviceGate.Manager.RemoveSource | internal/devicegate/lease_cache.go:45-52 | the entry leaves the table and its lease joins the retired list |
| DeviceGate.Manager.Install | internal/devicegate/lease_cache.go:54-101 | the new state and the answer for a lease, in the order of the code's checks; a repeated confirmation moves no deadline |
| DeviceGate.Manager.Grant | internal/devicegate/lease_cache.go:263-281 | an admission's grant, which outranks every snapshot sampled before it |
| DeviceGate.Manager.Accept | internal/devicegate/lease_cache.go:177-217 | the locked part of accepting a reply: install, revoke what is left out, then return what is idle, with the connections to close; nothing when the session changed |
| DeviceGate.Manager.CollectOmitted | internal/devicegate/lease_cache.go:183-188 | the sources a reply leaves out, in some order of walking the table |
| DeviceGate.Manager.CollectIdle | internal/devicegate/lease_cache.go:196-213 | the idle returns that nothing has overtaken |
| DeviceGate.Manager.SetUsers | internal/devicegate/lease_cache.go:123-163 | one barrier number for all users taken away, the revocation of their sources, and the connections to close |
| DeviceGate.Manager.Expire | internal/devicegate/lease_cache.go:104-120 | an expiry acts only on the same source under the same deadline once that has passed: its connections are closed, and a source without any leaves |
| DeviceGate.Manager.Revoke | internal/devicegate/manager.go:572-611 | prunes old records and processes the items in order; the permits to close are those of the sources hit |
| DeviceGate.Manager.RevokeItem | internal/devicegate/manager.go:577-609 | one item: malformed, stale, recorded, matched or merely retired |
| DeviceGate.Manager.ApplyRevocations | internal/devicegate/manager.go:560-569 | revocations of another session are ignored |
| DeviceGate.Manager.Acquire | internal/devicegate/manager.go:176-260 | refuses, reuses a source in force, or joins the one admission under way for this key |
| DeviceGate.Manager.LeaveFlight | internal/devicegate/manager.go:235-260 | the last waiter to leave abandons the admission, and only that one |
| DeviceGate.Manager.FinishAdmission | internal/devicegate/manager.go:263-316 | the end of an admission: a permit of its own for every waiter of the admission that is still there, if the lease still stands, and none otherwise |
| DeviceGate.Manager.IssuePermit | internal/devicegate/manager.go:406-412 | a fresh permit counted by its source |
| DeviceGate.Manager.Release | internal/devicegate/manager.go:721-734 | a release takes effect once; a revoked source leaves with its last permit |
| DeviceGate.Manager.NewConnection | internal/devicegate/manager.go:737-753 | a further connection is allowed, and moves the source's connect sequence, exactly while the permit has not been told to close and its own source is in force |
| DeviceGate.Manager.TakeSnapshot | internal/devicegate/manager.go:414-438 | admissions, connected sources and retired leases under the next number |
| DeviceGate.Manager.ConfirmSnapshot | internal/devicegate/manager.go:504-516 | forgets exactly the retirements the acknowledged snapshot is later than, of one user or of all |
| DeviceGate.Manager.LoseSession | internal/devicegate/manager.go:518-527 | only the session that was lost is given up |
| DeviceGate.Manager.CloseAll | internal/devicegate/manager.go:613-630 | every source is revoked and every connection closed; sources without any leave |
| DeviceGate.Manager.Begin | internal/devicegate/manager.go:138-173 | a session starts only on an empty table, under a new name or the one kept |
| PortSet.Merge | internal/portset/ports.go:73-89 | the same ports for any ranges, and a sorted list with gaps when no range is empty |
| PortSet.CanonicalMembers | internal/portset/ports.go:73-89 | the members of such a list are exactly the maximal runs of ports it covers |
| PortSet.CanonicalUnique | internal/portset/ports.go:73-89 | there is one such list for a set of ports |
| FirewallPlan.MergeRules | internal/firewall/plan.go:241-264 | the merged rules are the maximal runs of open ports of each scope, in key order |
| FirewallPlan.MergeKeepsPorts | internal/firewall/plan.go:241-264 | merging loses no port and adds none, scope by scope |
| FirewallPlan.MergeIsIdempotent | internal/firewall/plan.go:241-264 | merging what is merged changes nothing |
| FirewallPlan.MergeDependsOnPorts | internal/firewall/plan.go:241-264 | the result depends only on which ports are open |
| FirewallPlan.CombinePlans | internal/firewall/plan.go:198-239 | refuses shared restricted ports first, then contradicting forwards, and otherwise gives the merged union of all plans |
| FirewallPlan.FindShared | internal/firewall/plan.go:199-218 | found exactly when a restricted or source-scoped rule of one plan meets a rule of another |
| FirewallPlan.FindConflict | internal/firewall/plan.go:227-237 | found exactly when two claims on the same UDP port disagree about the target |
| FirewallPlan.CombinationIsUnique | internal/firewall/plan.go:198-239 | acceptance, error and output do not depend on the order plans are walked in |
| FirewallPlan.ForwardingIsAFunction | internal/firewall/plan.go:219-238 | there is no conflict if and only if every UDP packet has one target at most |
| FirewallPlan.RestrictedPortsAreExclusive | internal/firewall/plan.go:199-218 | plans accepted together never both receive a packet that a restricted or source-scoped rule of either covers |
| UfwManual.SplitRule | internal/firewall/ufw_manual.go:9-38 | a rule's ports split exactly into those some rule other than an ALLOW covers and the rest, both in order |
| UfwManual.SplitManagedAllows | internal/firewall/ufw_manual.go:9-38 | the same for a whole list, scope by scope and port by port |
| UfwManual.CutRule | internal/firewall/ufw_manual.go:21-35 | the loop that moves along the merged restrictions yields the gaps and the restrictions |
| UfwManual.GapsCover | internal/firewall/ufw_manual.go:21-35 | a port is in a gap if and only if it is in the range and in no restriction |
| UfwManual.ManagedPartsAreFree | internal/firewall/ufw_manual.go:40-47 | no entry in the rule list stops a managed part |
| UfwStore.ReachesAt | internal/firewall/ufw_managed.go:9-32 | a rule is let through if and only if nothing before its ALLOW entry stops it |
| UfwRecords.RememberedRecords | internal/firewall/state.go:166-188 | remembering replaces the record of the same rule and touches no other |
| UfwRecords.ForgottenRecords | internal/firewall/state.go:190-203 | forgetting takes out exactly the records of one rule |
| UfwBackend.Backend.Remember | internal/firewall/state.go:166-188 | the record grows in memory if its write is reported as done; a record that memory holds is not written again; what the file holds after each of the three ends of a write |
| UfwBackend.Backend.Forget | internal/firewall/state.go:190-203 | a record goes only once the rule list holds no entry of it, from memory if its write is reported as done; the rule is lost exactly when the write replaced the file and was reported as failed |
| UfwBackend.Backend.Save | internal/firewall/state.go:113-155 | one write of the record: done, or the old file, or the new file under a reported failure |
| UfwBackend.Backend.Commit | internal/firewall/state.go:166-203 | after a failure memory is what it was; own entries are on record in the file afterwards unless their rule is lost, which only a misreported write brings about and the next write that reaches the file ends |
| UfwBackend.Backend.constructor | internal/firewall/state.go:44-110 | the process that starts on a crash point whose own entries are all on record satisfies the invariant again |
| UfwRecords.ResumesExactly | internal/firewall/state.go:44-110 | a crash point has every own entry on record if and only if no lost rule has an entry again |
| UfwBackend.FindPosition | internal/firewall/ufw_managed.go:9-32 | the places of the own entry, the manual one and the first in the way; an overlapping entry of another instance is an error, and nothing else is |
| UfwBackend.AheadReaches | internal/firewall/ufw_managed.go:35-80 | the comparison of positions decides whether the rule is let through |
| UfwBackend.Backend.EnsureManaged | internal/firewall/ufw_managed.go:35-80 | success means that the rule is let through ahead of what is in its way, by a manual entry or by an own one with the comment wanted now; only entries of this rule change, nobody else's move |
| UfwBackend.Backend.EnsureAppended | internal/firewall/ufw.go:128-164 | the same behind the user's rules, which must not restrict it |
| UfwBackend.AnyBlocks | internal/firewall/ufw.go:92-101 | finds exactly whether a rule wanted is stopped by an entry that is there |
| UfwBackend.Backend.Remove | internal/firewall/ufw.go:166-186 | takes out this instance's entry, then its record; a manual entry of the same rule stays |
| UfwBackend.RetryGoesUnrecorded | internal/firewall/state.go:148-203 | a rule is withdrawn and the write that forgets it replaces the file but is reported as failed: wanted again, it gets its entry without a write, off the record in the file |
| UfwApply.Apply | internal/firewall/system.go:30-216 | it is refused if and only if a rule is invalid, a kept rule is too wide, UFW is needed but cannot be asked, a forward is restricted or sources are not isolated, and then nothing changes; at every step and crash point an own entry is on the record in the file if and only if its rule is not lost, and nobody else's entry is removed or reordered; on success the own entries are exactly the selected rules without a manual ALLOW plus the kept ones that were there, all let through |
| UfwApply.Check | internal/firewall/system.go:30-150 | the checks that come before the first write: refused exactly for the reasons above, and as a matter to confirm exactly where the cause is an ambiguity |
| UfwApply.Carry | internal/firewall/system.go:151-214 | open, forward, withdraw, in this order |
| UfwApply.EnsureAll | internal/firewall/system.go:151-161 | all rules wanted are let through, one after the other, without one undoing another |
| UfwApply.RemoveStale | internal/firewall/system.go:179-214 | what is on record, not wanted and not kept goes; all else stays as it was |
| UfwApply.SelectRules | internal/firewall/system.go:104-122 | the rules selected are the merged ports of the plans, or those no manual restriction keeps to itself together with what kept rules retain; the others are reported |
| UfwApply.CheckKept | internal/firewall/system.go:37-51 | found exactly when a kept rule would let in more than a source-scoped rule admits |
| UfwApply.CheckSources | internal/firewall/source_conflicts.go:11-28 | found exactly when an entry that is not an unprioritised own one lies on the ports of a source-scoped rule |
| UfwApply.CheckRedirects | internal/firewall/ufw_manual.go:50-61 | found exactly when the outer ports or the target of a forward are restricted |
| UfwApply.HoldsFinalRule | internal/firewall/system.go:151-214 | an own entry is there in the end if and only if its rule is wanted and not open by hand, or it was there and is kept |
| UfwApply.ApplyTwice | internal/firewall/source_conflicts.go:11-28 | two synchronisations in a row with the same plans: given that the first succeeds, the second is refused if and only if the plans hold a source-scoped rule |
| SourceSets.IpsetPrefixesSame | internal/firewall/source_iptables.go:26-42 | the entered prefixes match exactly the addresses the plan blocks, and none of them is a /0 |
| SourceSets.HalvesCoverAll | internal/firewall/source_iptables.go:31-36 | the two halves of a /0 hold every address of the family |
| SourceSets.WantedChainDrops | internal/firewall/source_iptables.go:192-215 | with the wanted chain in place and the sets holding what their names say, every packet the plans block is dropped |
| SourceSets.WantedChainDropsOnly | internal/firewall/source_iptables.go:192-215 | and no other packet is |
| SourceFilter.NothingSlipsThrough | internal/firewall/source_iptables.go:320-364 | at every safe moment a packet dropped under both the old filters and the new plans is still dropped |
| SourceFilter.UntamperedAsNamed | internal/firewall/source_iptables.go:74-115 | with sets that hold what their names say, the old filters are simply what they drop |
| SourceFilter.CrashCanResume | internal/firewall/source_iptables.go:320-364 | what a crash leaves at a safe moment satisfies what the next synchronisation needs |
| SourceFilter.OffRecordExactly | internal/firewall/source_iptables.go:49-60 | at every moment of a synchronisation an own set is off the durable record if and only if its name was pending when it began and no save has replaced the file since |
| SourceFilter.OffRecordForGood | internal/firewall/source_iptables.go:49-55 | a process whose save of a new name fails without reaching the file and that then synchronises without failures succeeds with the set off the record; every later process is refused that set, however often it tries, and never takes it away or records it |
| SourceFilter.Filter.Save | internal/firewall/state.go:113-155 | the first save that replaces the file brings every name in memory to disk, even if it is reported as failed |
| SourceFilter.Filter.Remember | internal/firewall/source_iptables.go:49-55 | a name in memory is taken to be on disk without a save; a new one stays in memory even if its save fails |
| SourceFilter.Filter.constructor | internal/firewall/state.go:44-74 | a process starts with the record as last written on the kernel's state as left |
| SourceFilter.Filter.Sync | internal/firewall/source_iptables.go:320-364 | from any memory, every moment on the way is safe: sets named by installed chains exist, own sets are on the durable record but for names pending since before, others' sets are untouched, and another synchronisation may start; success leaves exactly the wanted chains and no own set beside theirs; without failures it succeeds if and only if nothing hinders a wanted set |
| SourceFilter.Filter.EnsureSet | internal/firewall/source_iptables.go:130-190 | a set of this name with the right content, and all other sets as before; without failures, exactly when it is not too large, its name not taken and what is there replaceable |
| SourceFilter.Filter.Replace | internal/firewall/source_iptables.go:157-190 | content is built aside and swapped in, so the set in use is never empty |
| SourceFilter.Filter.SyncFamily | internal/firewall/source_iptables.go:265-318 | success means that the family's chain is the wanted one |
| SourceFilter.Filter.DropSets | internal/firewall/source_iptables.go:345-363 | sets no longer wanted are destroyed, then forgotten; the filters in force keep what they need |
| AccessLog.Recorder.AddForNode | internal/accesslog/recorder.go:93-128 | an invalid record or a full log changes nothing; otherwise the record ends the last open batch or starts a new one; only a valid record that finds no room is counted as dropped |
| AccessLog.Recorder.Next | internal/accesslog/recorder.go:131-172 | the pending batch again while it is fresh, otherwise the first fresh one, sealed; stale batches go and the count follows |
| AccessLog.Recorder.Ack | internal/accesslog/recorder.go:174-181 | only the pending batch's own number settles it |
| AccessLog.Recorder.Checkpoint | internal/accesslog/recorder.go:191-203 | everything queued is sealed before it is written |
| AccessLog.Recorder.Restore | internal/accesslog/recorder.go:249-303 | the whole saved state or nothing of it |
| AccessLog.RestoreUndoesSave | internal/accesslog/recorder.go:249-303 | what is sealed and saved comes back unchanged if and only if no record is dated too far ahead of the new clock |
| AccessLog.AppendKeeps | internal/accesslog/recorder.go:93-128 | adding keeps the count equal to what is held, within the limit, with distinct batch numbers |
| AccessLog.NextKeeps | internal/accesslog/recorder.go:131-172 | so does asking for the next batch |
| AccessLogRuns.EveryRunIsSafe | internal/accesslog/recorder.go:93-303 | in every run of adding, asking, delivering, acknowledging, checkpointing and restarting, whatever the clock does and whichever published batch arrives again however late, every batch held, saved or published is a stretch of the accepted records under a number of its own |
| AccessLogRuns.CountIsHeld | internal/accesslog/recorder.go:93-181 | in every run, whatever the clock does, the count is what is held and never exceeds the limit |
| AccessLogRuns.NumbersKeepTheirRecords | internal/accesslog/recorder.go:131-203 | in every run, whatever the clock does, no step changes the records that a number handed out or written carries, in memory, in the file and in what has been published |
| AccessLogRuns.EachRecordAtMostOnce | internal/accesslog/recorder.go:93-303 | in every run, whatever the clock does and however late or often copies arrive, a receiver that takes each number once holds every accepted record at most once |
| AccessLogOrder.EveryRunIsOrdered | internal/accesslog/recorder.go:131-172 | in such runs as the next row names, all that is still held lies behind what the receiver has, but for what would be too old to be sent |
| AccessLogOrder.EachRecordOnceInOrder | internal/accesslog/recorder.go:93-303 | the records are also in the order of acceptance, in every run in which no process asks for a batch at an earlier time than a process before it did and no copy arrives late of a batch never received |
| AccessLogOrder.ClockBackReorders | internal/accesslog/recorder.go:131-172 | why the clock matters for the order: a run in which a process asks earlier than one before it, and a batch too old to be sent returns from the file behind a later one |
| AccessLogOrder.LateCopyReorders | internal/accesslog/recorder.go:131-172 | why copies matter for the order: a run without restarts in which a batch handed out grows too old, the next one is taken, and the first one still arrives |
| TrafficMeter.Meter.Apply | internal/machinetraffic/meter.go:106-159 | which policies are refused, ignored or adopted, the new state, and what is on disk |
| TrafficMeter.Meter.Adopt | internal/machinetraffic/meter.go:125-152 | a policy of the same epoch never turns a period or a proxy total back |
| TrafficMeter.Meter.Tick | internal/machinetraffic/meter.go:194-242 | roll over, measure, save: the new state, what is on disk, and whether traffic is blocked |
| TrafficMeter.Meter.Consume | internal/machinetraffic/meter.go:218-230 | the loop over the counters adds the sum of all increments, whatever order they are walked in, clipped at the largest number |
| TrafficMeter.GainOverAny | internal/machinetraffic/meter.go:218-230 | the increment is the same for every order of the counters |
| TrafficLedger.EveryRunBalances | internal/machinetraffic/meter.go:106-242 | in every run of policies, samples, failed reads and restarts, what all periods of the epoch recorded is what it opened with plus what echoes raised plus what successive readings counted, while no total is clipped |
| TrafficLedger.EchoesRaiseNothing | internal/machinetraffic/meter.go:147-154 | in every run in which no echo exceeds what is recorded, echoes have raised nothing, in memory and on disk |
| TrafficLedger.EveryByteIsCounted | internal/machinetraffic/meter.go:106-242 | with such echoes and a fixed set of interfaces, the bytes recorded in all periods of the epoch are what it opened with plus the increments since the first reading |
| TrafficLedger.RecordedIsReal | internal/machinetraffic/meter.go:187-242 | and they never exceed what the interfaces really carried since then, and equal it when every restart of an interface is seen and loses nothing |
| TrafficLedger.ReadingsNeverOvercount | internal/machinetraffic/meter.go:187-230 | what successive readings count never exceeds the real traffic since the first of them, and equals it when every restart is seen and loses nothing |
| TrafficLedger.EchoRaisesNothing | internal/machinetraffic/meter.go:144-152 | a panel echo of no more than what is recorded raises nothing |
| TrafficLedger.BlockHoldsOverRuns | internal/machinetraffic/meter.go:106-276 | from any point of any run, while period, epoch and the reckoning of the quota stay the same, totals never fall and a quota that is used up stays so and blocks, through samples, policies and restarts, if the last save before each restart succeeded |
| TrafficLedger.RestartKeepsBlockWhenWritten | internal/machinetraffic/meter.go:86-104 | a restart keeps a quota used up if and only if the file says so, which it does if the last save succeeded |
| TrafficLedger.RestartOnOlderFileUnblocks | internal/machinetraffic/meter.go:238-276 | the case left out, as a run: a sample whose save fails uses up the quota, and a restart on the older file lets traffic through again |
| BillingPeriod.PeriodContains | internal/machinetraffic/meter.go:161-179 | every day lies in its own period |
| BillingPeriod.PeriodsTile | internal/machinetraffic/meter.go:161-179 | two days share a period if and only if the later one comes before the end of the earlier one's, and a period starts where the last one ended |
| AutoSpeed.EveryRunTracks | internal/autospeed/manager.go:64-168 | in every run of updates and restores, each user's state is what its samples since the last reset say, and a penalty leaves no evidence behind |
| AutoSpeed.PenaltyExactlyWhenMet | internal/autospeed/manager.go:86-150 | a new sample brings a penalty, and the right one, if and only if the samples since the last gap, penalty or change of rule meet the rule |
| AutoSpeed.TriggersWhenMet | internal/autospeed/manager.go:121-143 | the state's test equals the rule read over the samples, in both modes |
| AutoSpeed.HitsStep | internal/autospeed/manager.go:132-141 | cutting the hits at the window and adding at most one per second gives the first sample above the threshold of each second within the window |
| AutoSpeed.StepTracks | internal/autospeed/manager.go:93-147 | one sample of one user keeps state and history together, over gaps, missing rates and the end of a penalty |
| AutoSpeed.SyncTracks | internal/autospeed/manager.go:64-83 | evidence survives exactly while the rule stays the same |
| AutoSpeed.RestoredWhileRunning | internal/autospeed/manager.go:160-168 | a penalty comes back for its rule if and only if it still runs |
| AutoSpeed.Manager.SyncRules | internal/autospeed/manager.go:64-83 | users without a valid rule go, changed ones start anew, the others keep their state |
| AutoSpeed.Manager.UpdateSample | internal/autospeed/manager.go:86-150 | every user's new state, the sample remembered, and the penalties in force |
| AutoSpeed.Manager.Restore | internal/autospeed/manager.go:160-168 | takes over the penalties that fit the rule and still run |
| Mailbox.CoalescingPreservesMeaning | internal/controlplane/mailbox.go:70-168 | in every run, after a drain a consumer of drained states holds what applying every accepted event in order from the baseline gives, unless a delta could not be applied, and then it has been told to reconcile |
| Mailbox.FullSnapshotIsComplete | internal/controlplane/mailbox.go:140-168 | a drain marked as full carries configuration and users |
| Mailbox.AddAllLatest | internal/controlplane/mailbox.go:262-279 | adding is a map update and keeps the numbers unique |
| Mailbox.RemoveAllLatest | internal/controlplane/mailbox.go:280-290 | removing is a map removal and keeps the numbers unique |
| Mailbox.GateNeverGoesBack | internal/panel/version.go:11-30 | within an epoch the versions let through never go back |
| Mailbox.ApplyUserDelta | internal/controlplane/mailbox.go:256-293 | the edit with an index of positions equals the list update or removal; another action is refused |
| Mailbox.NodeMailbox.SeedBaseline | internal/controlplane/mailbox.go:58-68 | a baseline fills in what has not arrived yet and marks nothing |
| Mailbox.NodeMailbox.Apply | internal/controlplane/mailbox.go:70-129 | what each kind of event changes and marks, and what it leaves when the gate refuses it |
| Mailbox.NodeMailbox.DrainIfReady | internal/controlplane/mailbox.go:140-168 | hands out what is marked, once, with the versions reached, and nothing before the node is ready |
| ChunkFraming.ChunkRoundTrip | compat/sing-vmess/chunk_length_stream.go:34-76 | reading a written chunk gives the data if and only if the data is not empty, fits the length field with its padding, and fits the buffer; then it leaves what follows, and in any case it draws as much keystream as writing did |
| ChunkFraming.StreamRoundTrip | compat/sing-vmess/chunk_length_stream.go:34-162 | a stream reads back if and only if each of its chunks fits, then to the last byte, with both keystreams at the writer's position, with separate, shared or no padding and masking |
| ChunkFraming.ChecksumIsData | compat/sing-vmess/chunk_length_stream.go:164-203 | a chunk with a checksum is a plain chunk of checksum and data |
| ChunkFraming.Unmasked | compat/sing-vmess/chunk_length_stream.go:44-52 | masking a length twice gives it back |
| ChunkStreams.StreamChunkWriter.Write | compat/sing-vmess/chunk_length_stream.go:98-133 | emits one frame and moves both keystreams on as reading does |
| ChunkStreams.StreamChunkWriter.WriteBuffer | compat/sing-vmess/chunk_length_stream.go:135-162 | emits the same frame from the data's own buffer |
| ChunkStreams.StreamChunkWriter.WriteWithChecksum | compat/sing-vmess/chunk_length_stream.go:164-203 | emits the frame with the checksum ahead of the data |
| ChunkStreams.StreamChunkReader.Read | compat/sing-vmess/chunk_length_stream.go:34-76 | delivers a frame's data to the front of the caller's buffer, or the reason there is none, and takes exactly its bytes |
| ChunkAead.SealedRoundTrip | compat/sing-vmess/chunk_length_aead.go:46-167 | the sealed form reads back in exactly the same cases, given a buffer whose capacity holds the sealed length |
| ChunkAead.SealedStreamRoundTrip | compat/sing-vmess/chunk_length_aead.go:46-194 | a sealed stream reads back if and only if each of its chunks fits; nonces and padding keep step however often the count wraps |
| ChunkAead.FieldRestores | compat/sing-vmess/chunk_length_aead.go:60-75 | taking the overhead off and putting it back loses nothing, whichever way the 16-bit length wraps |
| ChunkAead.NoncesRepeat | compat/sing-vmess/chunk_length_aead.go:126-145 | two chunks share a nonce if and only if a multiple of 65536 chunks lies between them |
| ChunkAead.AeadChunkWriter.Write | compat/sing-vmess/chunk_length_aead.go:126-167 | emits one sealed frame under the next nonce |
| ChunkAead.AeadChunkWriter.WriteBuffer | compat/sing-vmess/chunk_length_aead.go:169-194 | emits the same frame from the data's own buffer |
| ChunkAead.AeadChunkReader.Read | compat/sing-vmess/chunk_length_aead.go:46-91 | opens the length, then delivers the data as the masked form does |
| Balancer.EligibleAreBest | internal/balancer/selector.go:62-82 | the targets to choose from are exactly the available ones of the best priority there is |
| Balancer.EachTargetOnce | internal/balancer/selector.go:62-82 | as many picks in a row as there are such targets hand out each exactly once, if and only if the cursor does not start over or their number divides 2^64 |
| Balancer.RoundRobin | internal/balancer/selector.go:78-81 | the same for the places of the list |
| Balancer.Selector.Update | internal/balancer/selector.go:34-59 | accepts exactly the valid lists, sorts them by priority and number, and otherwise keeps the old one |
| Balancer.Selector.Pick | internal/balancer/selector.go:62-82 | the target the cursor of the best priority points at; that cursor moves on by one, wrapping at 2^64, and no other does |
| Balancer.Connect | internal/balancer/runtime.go:118-142 | with a fixed list the search ends, tries each online target at most once, best priorities first, and gives up without a time-out only after all of them, whatever other connections do to the cursors |
| ReleaseVersions.NumbersCompareAsNumbers | internal/agentcli/release_version.go:66-74 | on canonical digit strings of any length comparing the texts is comparing the numbers |
| ReleaseVersions.ParsesExactlyThePattern | internal/agentcli/release_version.go:12 | a text is read as these groups if and only if it is their rendering, with or without the letter v |
| ReleaseVersions.PrecedesIsAnOrder | internal/agentcli/release_version.go:35-64 | versions are totally ordered, a release without revision behind every revision of it |
| ReleaseVersions.CompareReleaseVersions | internal/agentcli/release_version.go:35-64 | the sign of that order, or which of the two texts is not a version |
| ReleaseVersions.PlanLatestUpgrade | internal/agentcli/release_version.go:77-99 | an upgrade is planned if and only if the version found is strictly newer; every error has its code |

## Left out

- DeviceGate.Manager.Acquire: does not model address normalisation or the waiter's wake-up channel; which waiters are gone at the end of an admission, and whether a permit has been told to close, are parameters.
- DeviceGate.Manager.Begin: does not model the network exchange of a session start, only its two critical sections; a failed exchange is a step of its own.
- UfwApply.Apply: does not model the firewalld and nftables back ends, the migration of older namespaces, or how forwards are applied; whether forwarding succeeds is a parameter.
- TrafficLedger.EveryRunBalances: says nothing further once a total has reached the largest number the meter holds.
- BillingPeriod.PeriodsTile: counts whole days and month lengths of any calendar with months of 28 to 31 days; time zones and daylight saving are left out.
- ChunkStreams.StreamChunkWriter.Write: does not model failing upstream writes.
- AutoSpeed.Manager.UpdateSample: treats the comparison of floating-point rates as exact; the digest of a rule is the rule itself.
- Permit callbacks (`Bind`, `Valid`, the close functions) and arming timers: an expiry is a step the environment may take at any time.
- Device admission without the lease cache: only the lease-cache mode is modelled.
- Runs of the access log have a receiver that acknowledges only what it took, and batch numbers that never repeat.
- Host names in access records: their normal form is a parameter.
- Names of source sets are content hashes and are taken as injective; INPUT rules of other programs are ignored.
- Saving and loading files, JSON, HTTP, WebSocket and the text formats of ufw, ipset and iptables.
- Cryptographic algorithms and keystream generation.
- Copying of configuration on its way through the mailbox, and the notification channel.
- Machine mode, certificates, kernels of the proxies, system monitoring, packaging and the installer.
