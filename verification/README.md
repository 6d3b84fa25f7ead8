# Talia: a verified model

Talia is a host agent with a small control server. This project models the parts of it that keep
state over unbounded runs, and proves what those parts are for.

| Module | What it models |
| --- | --- |
| `Registry`, `Delivery`, `ControlPlane` | the control server: connections, hellos, heartbeats, config requests and reloads as interleaved atomic steps over one registry, one active config and one broadcast ring of 128 |
| `FetchAudit`, `Admission` | what every run of it does: notifications become fetches and fetches end; who gets in, and what is known of them |
| `AgentRefresh` | the agent's two refresh tasks, the saved file byte by byte, crashes and restarts, the jittered poll |
| `RuntimeConfigs`, `Fnv` | validation, layering of overrides, versions, and the finite check a control file passes before it is served |
| `PerCpu`, `NetworkLedger`, `DiskLedger`, `DiskHomes`, `DiskReference`, `CpuLedger` | the kernel-side counters (64-bit, wrapping, per CPU) and the collectors that difference them |
| `TcpDeltas` | per-pod TCP deltas against baselines |
| `Runner` | the collector loop |
| `PodPool`, `PidScan` | the CRI client pool, merged listings, and the early-exit scan of `/proc` |
| `Text`, `MountInfo`, `ProcSections` | string handling, the mount table, and the named TCP counter sections |
| `ProviderOverrides`, `ProviderSettings` | `--set`: path edits of a config's JSON tree, and what they do to the settings |

Three kinds of member work together. *Step functions* say what one lock-held region, one event, one
line or one iteration does to plain values. *Methods*, in classes where the source mutates an object,
run in the source's own order with its early returns and loops; each is proved equal to its step
function or to a direct description of its result. *Lemmas* state what holds of every run, every
interleaving or every input.

Every run of a BPF program, every read of one map key, every lock-held region and every single write to the
saved file is one atomic step.
Audit data (exact per-CPU totals, lost starts, the log of broadcasts, recorded replies) is kept beside
the state and never read by a modelled decision. The main results on counters, fetches, entries and
iterations compare the run with an account read off its events or inputs alone (`DiskReference`,
`NetworkLedger.TallyOf`, `FetchAudit`, `Admission`, `TcpDeltas.Epochs`, `Runner.Collects`).

## What turned out not to hold

- A control file whose block for the *empty* hostname repairs broken defaults passes validation, yet
  every unnamed host gets an invalid-config error. `RuntimeConfigs.FiniteCheckCoversEveryHost` gives
  the exact condition, `RuntimeConfigs.EmptyHostBlockCanHideBrokenDefaults` the file.
- Between the write of a new config and its broadcast a fully drained agent can hold an old config:
  `ControlPlane.StaleUntilAnnounced` is a run that ends so. `ControlPlane.NoLostUpdate` therefore asks that no
  reload is in between, and `ControlPlane.StalenessIsBounded` says by how much it can lag otherwise.
- Saves are not locked and not atomic: two that overlap can both succeed and leave a file no restart can read
  (`AgentRefresh.OverlapLosesBothSaves`). `AgentRefresh.OverlapLeavesTail` says exactly what is left, and
  `AgentRefresh.RestartResumesLastSave` what holds when saves of different texts do not overlap.
- The two refreshers of an agent can leave the saved file and the shared config on different versions:
  `AgentRefresh.RefreshersCanDisagree`. They agree when refreshes take turns (`AgentRefresh.RefreshesInTurnAgree`),
  and `AgentRefresh.RefreshersAgreeExactly` is the exact condition when saves do not overlap.
  No recency is claimed for the agent.
- A single CPU's in-flight counter can be negative (`DiskLedger.SingleCpuCanGoNegative`), the sum cannot.
  `DiskHomes.ColumnIsAccounted` says exactly when: more foreign starts were taken on the CPU than starts that
  landed on it are live, lost or taken elsewhere.
- Bounded *net* growth of a task's user plus system time does not bound the CPU ledger
  (`CpuLedger.NetGrowthIsNotEnough`); `CpuLedger.SwitchFitsExactly` gives the exact condition per switch and
  `CpuLedger.WindowsFitExactly` for whole runs.
- A mountpoint with Unicode whitespace other than space, tab and newline (a carriage return, a no-break
  space) is cut when read back, so a list with one such path does not come back as printed:
  `MountInfo.RoundTripExactly` is an if-and-only-if over lists.
- A later `--set` does not always win: after a quoted value was given to a setting that is no string, a
  bare value is taken as text. `ProviderOverrides.RepeatedSetting` is the exact condition, and
  `ProviderOverrides.QuotedValueIsFatal` shows that the command then fails whatever follows.
- A pod UID made of dashes only, or empty, matches every readable cgroup, and no other UID does:
  `PidScan.DashesOnlyMatchEverything`.

## Model

| member | source | states |
|---|---|---|
| `Fnv.Fnv1a64` | talia-core/src/config.rs:837-844 | the byte loop with a running 64-bit wrapping hash computes the fold of the byte step from the offset basis |
| `Fnv.KnownHashes` | talia-core/src/config.rs:837-844 | the hash of the empty text and of the letter a are the published 64-bit FNV-1a values |
| `Fnv.XorBits` | talia-core/src/config.rs:840 | a bit of the exclusive or is set exactly where the operands' bits differ |
| `Fnv.StepIsBijection` | talia-core/src/config.rs:839-842 | each xor-then-multiply step is a bijection on 64-bit states: multiplying by the inverse of the prime and xoring again undoes it from both sides |
| `Fnv.AbsorbConcat` | talia-core/src/config.rs:837-844 | hashing a concatenation is continuing from the hash of the first part |
| `Fnv.AbsorbInjective` | talia-core/src/config.rs:837-844 | two states absorb the same bytes into equal states exactly when they were equal |
| `Fnv.CollisionsComeFromPrefixes` | talia-core/src/config.rs:837-844 | a shared suffix neither creates nor hides a collision |
| `Fnv.OneByteChangesHash` | talia-core/src/config.rs:837-844 | texts of equal length differing in exactly one byte never collide |
| `Fnv.Hex16Injective` | talia-core/src/config.rs:824-826 | sixteen hex digits determine the 64-bit hash |
| `Fnv.Hex16ReadsBack` | talia-core/src/config.rs:824-826 | the sixteen hex digits read back as the 64-bit number, most significant first |
| `Fnv.SourceVersionsEqualIffHashesEqual` | talia-core/src/config.rs:824-826 | two source versions agree exactly when the hashes agree |
| `Fnv.OneByteEditChangesSourceVersion` | talia-core/src/config.rs:824-844 | a one-byte edit of a config text always changes its source version |
| `RuntimeConfigs.ValidateMounts` | talia-core/src/config.rs:344-349 | passes exactly when every mount is absolute; otherwise names the first relative mount |
| `RuntimeConfigs.CheckStorage` | talia-core/src/config.rs:337-350 | the storage checks with their loop give the same verdict and the same first error as the recursive form |
| `RuntimeConfigs.Validate` | talia-core/src/config.rs:259-271 | the ordered checks succeed exactly on configs with a non-blank version, positive intervals, absolute mounts, mounts if storage is on, and a non-blank socket; an error is one the config really has, and no earlier check in source order fails |
| `RuntimeConfigs.Draft.ApplyAgent` | talia-core/src/config.rs:672-681 | overwrites exactly the agent settings that are given |
| `RuntimeConfigs.Draft.ApplyStorage` | talia-core/src/config.rs:694-706 | overwrites exactly the storage settings that are given |
| `RuntimeConfigs.Draft.ApplyOverride` | talia-core/src/config.rs:650-663 | the in-place overwrites of all eight sections leave each of the seventeen fields as the block gives it, or as it was where the block gives none; and are one pure application of the block |
| `RuntimeConfigs.LayeringIsMerging` | talia-core/src/config.rs:574-583 | applying defaults then a host block equals applying one merged block in which host fields win |
| `RuntimeConfigs.ApplyTwice` | talia-core/src/config.rs:650-663 | applying a block twice is applying it once |
| `RuntimeConfigs.RuntimeConfigFor` | talia-core/src/config.rs:574-583 | succeeds exactly when the resolved settings are valid, and then serves those settings in a valid config; what each of them is, `RuntimeConfigs.ServedFieldByField` says |
| `RuntimeConfigs.BuildRuntimeConfig` | talia-core/src/config.rs:574-583 | default, overwrite, overwrite, version, validate in place equals the pure resolution, errors included |
| `RuntimeConfigs.ServedFieldByField` | talia-core/src/config.rs:574-583 | for every file and hostname, each field of all eight sections, as resolved and as served, is the host block's if given, else the defaults' if given, else its named built-in value |
| `RuntimeConfigs.ServedVersion` | talia-core/src/config.rs:828-835 | a served version is the hash of the hostname followed by the served settings |
| `RuntimeConfigs.VersionsEqualIffHashesEqual` | talia-core/src/config.rs:828-835 | two effective versions agree exactly when the hashes of hostname and settings do |
| `RuntimeConfigs.OneByteEditChangesVersion` | talia-core/src/config.rs:828-835 | settings whose JSON differs in one byte are never served to a hostname under one version |
| `RuntimeConfigs.ResolveIsOneMergedBlock` | talia-core/src/config.rs:574-583 | every hostname is served one merged block over the built-in settings |
| `RuntimeConfigs.EditsElsewhereKeepResponse` | talia-core/src/config.rs:574-583 | editing other hosts' blocks or any enrolment changes neither a hostname's settings nor its version |
| `RuntimeConfigs.CheckHost` | talia-control/src/main.rs:544-554 | one checked hostname passes exactly when its resolved settings are valid, and fails with the error its agents would get |
| `RuntimeConfigs.ValidateRuntimeConfigs` | talia-control/src/main.rs:544-554 | the loop passes exactly when the empty hostname and every named host resolve to valid settings, and fails with the error of one of them |
| `RuntimeConfigs.FiniteCheckCoversEveryHost` | talia-control/src/main.rs:544-554 | a passing file serves every hostname if and only if it has no block for the empty hostname or its defaults-only settings are valid anyway |
| `RuntimeConfigs.EmptyHostBlockCanHideBrokenDefaults` | talia-control/src/main.rs:544-554 | a concrete passing file that refuses an unnamed host |
| `Registry.ServeConfigIsOk` | talia-control/src/main.rs:178-203 | serving from a passing file: a refusal exactly if the file does not enrol the agent under that hostname with a non-blank token whose digest the presented token has; otherwise what the file gives the hostname, where an error needs an empty-hostname block that hides broken defaults |
| `Registry.AppState.AgentHelloAuthorized` | talia-control/src/main.rs:482-505 | looking in turn at the enrolment, its hostname, the presented and the configured token, authorizes exactly if the agent is enrolled under that hostname, a token was presented, the configured one exists and has a character that is no whitespace, and their digests agree |
| `Registry.AppState.RegisterAgentConnection` | talia-control/src/main.rs:438-480 | from the outcome of a credential check that ran earlier: accepts exactly an authorized hello for an agent no other connection has; then the agent's entry is the hello's with this connection and time, the connection's previous entry is gone, every other entry is as before; otherwise nothing changes |
| `Registry.AppState.HandleHeartbeat` | talia-control/src/main.rs:398-426 | updates hostname, version, config version, collectors and last-seen time of the entry, and nothing else, exactly in the bound case, and reports which of the four branches was taken |
| `Registry.AppState.RemoveAgent` | talia-control/src/main.rs:507-518 | removes the connection's own entry and no other |
| `Registry.BindingIsExact` | talia-control/src/main.rs:206-218 | an entry carries a connection's id exactly when that live connection is bound to it; one entry at most; none after cleanup; config lookup succeeds exactly for the bound session |
| `Registry.RegisterKeepsBound` | talia-control/src/main.rs:443-477 | registering, re-registering under another id and rejected duplicates keep the exact binding |
| `Registry.BeatKeepsBound` | talia-control/src/main.rs:398-426 | heartbeats keep the exact binding |
| `Registry.CleanupKeepsBound` | talia-control/src/main.rs:507-518 | cleanup keeps the exact binding and ends the connection |
| `Registry.HeartbeatBranches` | talia-control/src/main.rs:405-424 | under the invariant the stale and the unknown branch are dead |
| `Delivery.Channel.Send` | talia-control/src/main.rs:125 | a broadcast appends to the ring of 128 and drops the oldest when full |
| `Delivery.Channel.Recv` | talia-control/src/main.rs:307-320 | a receiver gets its next message, the number it missed if it lagged, or nothing |
| `Delivery.NewestAreReceived` | talia-control/src/main.rs:307-320 | a receiver that keeps receiving gets, in order, every message it has not lost, and only what fell out of the newest 128 is lost; a lag is as long as what it skips |
| `Delivery.SubscriberHearsWhatFollows` | talia-control/src/main.rs:305 | a new connection hears what is broadcast from then on, as far as it keeps up, and nothing older |
| `Delivery.AnnouncedKeeps` | talia-control/src/main.rs:255-264 | a broadcast keeps the ordering facts between loads, log, receivers and wires |
| `Delivery.ForwardedKeeps` | talia-control/src/main.rs:307-320 | forwarding, skipping after lag included, keeps them |
| `Delivery.AgentReadKeeps` | talia-agent/src/control.rs:206-250 | an agent reading a message before or after its ack keeps them; that it then fetches is `FetchAudit.EveryNoticeIsFetched` |
| `Delivery.FetchDoneKeeps` | talia-agent/src/control.rs:252-275 | a fetch answered now is at least as new as every notification handled before it |
| `Delivery.DrainedAnswerIsRecent` | talia-control/src/main.rs:255-264 | a drained, acknowledged connection's last answer lags behind the newest load by no more loads than still wait for their broadcast |
| `Delivery.DrainedAnswerIsNewest` | talia-control/src/main.rs:255-264 | with every reload announced, an acknowledged and drained connection's last answer is from the newest load |
| `ControlPlane.StepKeeps` | talia-control/src/main.rs:159-518 | every event of the whole control plane keeps the invariant |
| `ControlPlane.RunKeeps` | talia-control/src/main.rs:159-518 | so does every interleaving |
| `ControlPlane.ReachableBindingIsExact` | talia-control/src/main.rs:405-518 | in every reachable state binding is exact, each connection owns at most one entry, a cleaned-up one none, and a heartbeat only meets the applied or the unbound branch |
| `ControlPlane.ReachableRepliesAreSound` | talia-control/src/main.rs:159-204 | every response of every run went to a session that was bound, at lookup, to the agent it asked for; it is a refusal exactly if the then-active file has no such credential, and a served config is what that file gives the hostname it enrols for that agent, whatever reloads and heartbeats came between lookup and answer |
| `ControlPlane.CleanedUpSessionNeverFound` | talia-control/src/main.rs:206-218 | after cleanup a session id is never found again, whatever happens later |
| `ControlPlane.NoLostUpdate` | talia-control/src/main.rs:251-348 | with no reload between write and broadcast, an acknowledged, drained connection whose last triggered fetch succeeded holds what the newest config gives its enrolled hostname; when it has succeeded is `FetchAudit.EveryNoticeIsFetched` |
| `ControlPlane.StalenessIsBounded` | talia-control/src/main.rs:251-348 | in every run such a connection lags by no more loads than are written but not yet broadcast |
| `ControlPlane.StaleUntilAnnounced` | talia-control/src/main.rs:255-264 | for any enrolled agent and next config, a run that ends with the agent settled on the old config and one version written but not broadcast |
| `FetchAudit.EveryNoticeIsFetched` | talia-agent/src/control.rs:206-275 | in every run: before its ack an agent fetches nothing; from then on its last fetch began when it read its newest notification, and is under way exactly until it is lost, finds no session bound to the agent it asks for, or is answered, and then the agent holds what that reply served |
| `FetchAudit.ReloadArrives` | talia-control/src/main.rs:251-348 | from any state in which an acknowledged agent has nothing left to read and a written config waits for its broadcast: broadcasting, forwarding, reading, asking and answering leave it with what the newest config answers it |
| `FetchAudit.UpdateReachesAgent` | talia-control/src/main.rs:251-348 | for any enrolled agent and next config, a run from the start in which the agent is served from the first and, once it is broadcast, from the next one |
| `Admission.EveryAgentWasAdmitted` | talia-control/src/main.rs:438-505 | in every run each registered agent's connection has presented that agent's token under a config that was active at the time |
| `Admission.EveryAckWasEarned` | talia-control/src/main.rs:366-397 | in every run only a connection with such a hello ever gets an ack |
| `Admission.EntriesSayTheLastReport` | talia-control/src/main.rs:398-518 | in every run a connection's entry is exactly what its own accepted hello and its heartbeats since make it, whatever other connections do, and it has no other |
| `AgentRefresh.StepKeepsGood` | talia-agent/src/control.rs:277-303 | every fetch, save, failed save, apply, crash and boot keeps the shared config valid |
| `AgentRefresh.SharedConfigAlwaysValid` | talia-agent/src/commands/run.rs:35-40 | from any file content, over any run, a running agent's shared config is valid and none of its eight sleeps is zero |
| `AgentRefresh.FileUntouched` | talia-agent/src/local_config.rs:41-57 | only the truncation that opens a save, its writes and a power loss change the saved file |
| `AgentRefresh.UndisturbedSaveIsExact` | talia-agent/src/local_config.rs:49-57 | a completed save left exactly its text, however its writes were cut up, provided no save of another text was under way when it opened the file and none opened the file before it completed |
| `AgentRefresh.RestartResumesLastSave` | talia-agent/src/local_config.rs:41-57 | a restart resumes from the last completed save, even if the crash came before it was applied, provided no save of another text overlapped it |
| `AgentRefresh.BootExactly` | talia-agent/src/commands/run.rs:35-40 | an agent with an invalid bootstrap file does not start; any other starts from the saved file if that holds a valid config, and from the bootstrap settings if not |
| `AgentRefresh.OverlapLeavesTail` | talia-agent/src/local_config.rs:49-57 | when both tasks open the file before either writes, both saves succeed and leave the later text followed by the tail of a longer earlier one; the later save survives if and only if the earlier text was no longer |
| `AgentRefresh.OverlapLosesBothSaves` | talia-agent/src/local_config.rs:41-57 | so without the proviso the restart claim fails: after such an overlap of a shorter over a longer text a restart falls back to the bootstrap settings |
| `AgentRefresh.RefreshersCanDisagree` | talia-agent/src/control.rs:277-303 | an interleaving of refreshes whose saves do not overlap that leaves file and shared config on different versions |
| `AgentRefresh.RefreshesInTurnAgree` | talia-agent/src/control.rs:277-303 | in every run whose refreshes take turns and whose saves complete, file and shared config agree whenever both tasks rest after a refresh |
| `AgentRefresh.RefreshersAgreeExactly` | talia-agent/src/control.rs:277-303 | in every run from rest whose saves complete and do not overlap, whenever both tasks rest again after a save, the file is the text of the shared config if and only if the last config saved and the last one applied have the same text |
| `AgentRefresh.Process.Save` | talia-agent/src/local_config.rs:49-57 | an undisturbed save, written in pieces of any size, leaves its text, a prefix of it if it failed on the way, or the old file if it failed before opening |
| `AgentRefresh.Process.RefreshRemoteConfig` | talia-agent/src/control.rs:277-303 | an undisturbed refresh applies a valid response and leaves in the file what its save got to; an invalid or failed response changes nothing |
| `AgentRefresh.RefreshIsItsEvents` | talia-agent/src/control.rs:277-303 | the interleaved machine's events for one undisturbed refresh leave what the method leaves |
| `AgentRefresh.JitterBounds` | talia-agent/src/control.rs:352-360 | the jittered interval stays within one tenth of its base, is positive for a positive base, and does not overflow whenever base plus base/10 fits in 64 bits |
| `AgentRefresh.JitterFollowsHash` | talia-agent/src/control.rs:352-360 | the offset into the window is the agent's hash less a whole number of windows |
| `PerCpu.SatSumClampsSum` | talia-agent/src/modules/network/collector.rs:153-162 | saturating at every CPU equals clamping the exact sum once |
| `PerCpu.BumpKeeps` | talia-agent/src/modules/network/network.bpf.c:46-68 | a wrapping per-CPU increment keeps the telescoping law |
| `PerCpu.ReadKeeps` | talia-agent/src/modules/network/collector.rs:108-136 | reporting the difference to the previous reading keeps it, and below 64 bits the reading is the exact total |
| `PerCpu.SignedReadIsExact` | talia-agent/src/modules/disk_io/collector.rs:174-189 | the saturating signed sum of wrapped columns is the exact sum while total movement stays clear of the limits |
| `NetworkLedger.Program.AccountNetworkBytes` | talia-agent/src/modules/network/network.bpf.c:46-68 | zero lengths and uncreatable entries change nothing; otherwise this CPU's bytes and packets of the direction are bumped |
| `NetworkLedger.Program.NetifReceiveSkb` | talia-agent/src/modules/network/network.bpf.c:70-75 | a received packet is counted as ingress |
| `NetworkLedger.Program.NetDevXmit` | talia-agent/src/modules/network/network.bpf.c:77-85 | a transmitted packet is counted as egress unless the transmission failed |
| `NetworkLedger.Collector.Collect` | talia-agent/src/modules/network/collector.rs:108-136 | the loop reports one difference per key and replaces its previous reading; a failed read returns early and keeps the readings already replaced |
| `NetworkLedger.CollectIsKeyReads` | talia-agent/src/modules/network/collector.rs:108-136 | one uninterrupted pass of the collector is one key-read step per item |
| `NetworkLedger.FailedCollectIsKeyReads` | talia-agent/src/modules/network/collector.rs:108-136 | a pass that fails is the key reads before the failure and a dropped collection: their readings stay replaced, whatever was left unread |
| `NetworkLedger.ForeignKeysAreSkipped` | talia-agent/src/modules/network/collector.rs:113-116 | keys of no known direction change nothing, wherever they come |
| `NetworkLedger.StepKeeps` | talia-agent/src/modules/network/network.bpf.c:46-85 | packets on any CPU, key reads and collection ends keep both directions' laws |
| `NetworkLedger.BytesAreConserved` | talia-agent/src/modules/network/network.bpf.c:46-85 | over every interleaving: emitted, dropped and pending plus the unread residue is exactly what the packet events come to, bytes and packets, per direction, while that fits in 64 bits; a packet counts unless it is empty, its transmission failed, or no entry can be made for a new direction |
| `NetworkLedger.NothingDroppedWithoutFailure` | talia-agent/src/modules/network/collector.rs:108-136 | only a failed collection drops samples |
| `DiskLedger.Program.CountersFor` | talia-agent/src/modules/disk_io/disk_io.bpf.c:89-106 | finds or creates the direction's counters, and reports failure without changing the map |
| `DiskLedger.Program.AccountIssue` | talia-agent/src/modules/disk_io/disk_io.bpf.c:122-150 | stores the start, evicts, drops the start again if no counters can be made, else raises this CPU's in-flight columns |
| `DiskLedger.Program.AccountCompletion` | talia-agent/src/modules/disk_io/disk_io.bpf.c:152-188 | counts latency, bytes, operations or an error, and takes the start and its in-flight contribution away if it was there; what these add up to is `DiskReference.ReportsAreConserved` |
| `DiskLedger.Collector.Collect` | talia-agent/src/modules/disk_io/collector.rs:116-150 | the loop's samples and previous readings are the windows of its items; a failed read returns early |
| `DiskLedger.AverageLatencyBounds` | talia-agent/src/modules/disk_io/collector.rs:152-157 | no average exactly when nothing completed, else within one unit per operation of the window's total latency |
| `DiskLedger.IssueMovesStarts` | talia-agent/src/modules/disk_io/disk_io.bpf.c:122-150 | live starts and their bytes, plus what re-issue and eviction pushed out, move by exactly the issued request |
| `DiskLedger.FailedAccountingLosesNothing` | talia-agent/src/modules/disk_io/disk_io.bpf.c:142-146 | an issue whose counters cannot be made loses no start beyond the evicted ones |
| `DiskLedger.InFlightIsConserved` | talia-agent/src/modules/disk_io/disk_io.bpf.c:122-188 | over every interleaving the in-flight sum over all CPUs equals the live starts plus the lost ones, operations and bytes, so it is never below zero, and the collector reads exactly that while total movement stays clear of the 64-bit limits |
| `DiskLedger.SingleCpuCanGoNegative` | talia-agent/src/modules/disk_io/disk_io.bpf.c:152-188 | issue on one CPU and completion on another leave one and minus one |
| `DiskHomes.ColumnIsAccounted` | talia-agent/src/modules/disk_io/disk_io.bpf.c:148-179 | in every run, for every CPU and direction: its in-flight column, operations and bytes, is its own live starts plus those that landed on it and were lost or taken elsewhere minus those that landed elsewhere and were taken on it; so it is negative if and only if the latter outnumber the former, and the stored word is that value while it fits in 64 bits |
| `DiskHomes.OwnCompletionsStayNonNegative` | talia-agent/src/modules/disk_io/disk_io.bpf.c:174-179 | a CPU whose completions only take starts issued on it never has a negative column |
| `DiskHomes.LandingsAreShared` | talia-agent/src/modules/disk_io/disk_io.bpf.c:122-188 | the accounts of all CPUs agree on where every live start landed |
| `DiskLedger.CollectIsKeyReads` | talia-agent/src/modules/disk_io/collector.rs:116-150 | one uninterrupted pass of the collector is one key-read step per item, and its windows are what is pending |
| `DiskLedger.FailedCollectIsKeyReads` | talia-agent/src/modules/disk_io/collector.rs:116-150 | a pass that fails is the key reads before the failure and a dropped collection: their readings stay replaced, whatever was left unread |
| `DiskLedger.ForeignKeysAreSkipped` | talia-agent/src/modules/disk_io/collector.rs:121-125 | keys of no known direction change nothing, wherever they come |
| `DiskReference.ReportsAreConserved` | talia-agent/src/modules/disk_io/disk_io.bpf.c:122-188 | over every interleaving: the samples emitted, dropped and pending, summed field by field, plus the unread residue are what the issue and completion events alone come to, per direction, each while it fits in 64 bits: bytes and operations of the successful requests, errors of the failed ones, and for each finished request whose start is still there its completion time minus its issue time |
| `DiskReference.InFlightIsReported` | talia-agent/src/modules/disk_io/collector.rs:127-146 | in every run a sample's in-flight operations and bytes are those of the requests issued and not yet completed or gone missing, plus the missing ones |
| `DiskReference.SampleAverage` | talia-agent/src/modules/disk_io/collector.rs:152-157 | each sample's average latency is its window's latency per operation rounded down, and absent exactly without operations |
| `DiskLedger.NothingDroppedWithoutFailure` | talia-agent/src/modules/disk_io/collector.rs:116-150 | only a failed collection drops anything |
| `CpuLedger.Program.SchedSwitch` | talia-agent/src/modules/cpu/cpu.bpf.c:35-77 | the switch handler with its early returns and 64-bit wrapping is one ledger step |
| `CpuLedger.FitsExactly` | talia-agent/src/modules/cpu/cpu.bpf.c:65-73 | a busy slice contributes no more than its duration if and only if neither time, nor both together, outran the clock |
| `CpuLedger.SwitchFitsExactly` | talia-agent/src/modules/cpu/cpu.bpf.c:49-76 | at the ledger: after a first switch, one more switch adds no more than the time since the last one if and only if the leaving task is the idle task or its times fit |
| `CpuLedger.SwitchAddsSlice` | talia-agent/src/modules/cpu/cpu.bpf.c:42-76 | a switch adds exactly the slice it ends, idle time as wall time |
| `CpuLedger.LedgerIsSumOfSlices` | talia-agent/src/modules/cpu/cpu.bpf.c:42-76 | idle is the length of the idle slices, user and system the busy slices' times, and together they never exceed last minus first switch |
| `CpuLedger.WindowWithinSpan` | talia-agent/src/modules/cpu/cpu.bpf.c:42-76 | the same for every window of the run |
| `CpuLedger.WindowsFitExactly` | talia-agent/src/modules/cpu/cpu.bpf.c:49-76 | for any run in which the clock does not go back and the leaving task is the one that entered: every window of the run stays within its own span if and only if every busy slice fits |
| `CpuLedger.NetGrowthIsNotEnough` | talia-agent/src/modules/cpu/cpu.bpf.c:65-73 | bounded net growth alone does not bound the ledger |
| `CpuLedger.RatiosSumToOne` | talia-agent/src/modules/cpu/cpu.rs:33-52 | the three exact ratios sum to one if and only if the window is neither empty nor saturated |
| `CpuLedger.Collector.CpuSnapshots` | talia-agent/src/modules/cpu/cpu.rs:114-139 | one snapshot per CPU against its previous ledger or zero, and the previous ledgers replaced |
| `CpuLedger.SnapshotsOfLegalRuns` | talia-agent/src/modules/cpu/cpu.rs:114-139 | a snapshot between two reads is exactly the time spent in between, within the span, with ratios summing to one or all zero |
| `TcpDeltas.Provider.Observe` | talia-agent/src/modules/tcp/provider.rs:125-188 | one readable pod yields its gauge of established connections and, if neither its PID changed nor any of the five counters went back, the five deltas, each of its own field, in order; its baseline is replaced; an unreadable pod yields and changes nothing |
| `TcpDeltas.Provider.Collect` | talia-agent/src/modules/tcp/provider.rs:112-193 | the loop's samples and baselines are those of the round; failed discovery changes nothing; absent pods lose their baseline |
| `TcpDeltas.EpochsAreMonotone` | talia-agent/src/modules/tcp/provider.rs:112-204 | from any reading of an epoch to any later one the PID is the same and none of the five counters has decreased |
| `TcpDeltas.PodsProject` | talia-agent/src/modules/tcp/provider.rs:112-193 | looping over all pods is, for each UID, following that UID's own sightings |
| `TcpDeltas.RunProjects` | talia-agent/src/modules/tcp/provider.rs:112-193 | a whole run seen from one pod is following that pod's history |
| `TcpDeltas.FollowingIsSpreading` | talia-agent/src/modules/tcp/provider.rs:208-216 | following a history accumulates exactly its epochs' last-minus-first differences |
| `TcpDeltas.EmittedIsEpochSpread` | talia-agent/src/modules/tcp/provider.rs:112-216 | for every run and pod, and each of the five counters with the snapshot field of its name: emitted deltas add up to last minus first readable value per epoch, where an epoch ends with an absence, a new PID or a counter that went back |
| `TcpDeltas.GaugesAreReadings` | talia-agent/src/modules/tcp/provider.rs:125-150 | in every run each readable pod of each round yields exactly one gauge, its established connections, in order |
| `TcpDeltas.SilentRoundsLoseNothing` | talia-agent/src/modules/tcp/provider.rs:112-193 | removing a failed discovery or an unreadable round anywhere in a run changes neither what is emitted nor the baseline |
| `Runner.Collector.EmitAll` | talia-agent/src/runner.rs:215-224 | every kept sample goes to every sink in order |
| `Runner.FanOutIsComplete` | talia-agent/src/runner.rs:215-224 | sample by sample the emissions grow by nothing if the processors drop it, and else by exactly one to each sink, of the processed sample, under the config's version |
| `Runner.Collector.Disable` | talia-agent/src/runner.rs:150-160 | stops and drops the provider, logs once, sleeps |
| `Runner.Collector.StartProvider` | talia-agent/src/runner.rs:162-179 | loads lazily and reports a failed load |
| `Runner.Collector.CollectOnce` | talia-agent/src/runner.rs:184-238 | applies the config, collects, puts the provider back unless the task panicked |
| `Runner.Collector.Pass` | talia-agent/src/runner.rs:147-242 | one pass through the loop is the pure iteration |
| `Runner.Collector.RunCollector` | talia-agent/src/runner.rs:138-243 | any finite number of passes yields the state and the trace of the pure iterations |
| `Runner.EveryIterationIs` | talia-agent/src/runner.rs:147-242 | every iteration of every run from its inputs alone: when it stops, logs, loads, fails to load, collects, loses the provider, emits and sleeps, and in which order |
| `Runner.EveryIterationIsDisciplined` | talia-agent/src/runner.rs:147-242 | each iteration sleeps exactly once, for its own interval; collects only with that config applied and, for window collectors, at least one interval after loading; emits only under that config's version |
| `Runner.NeverTwoProviders` | talia-agent/src/runner.rs:147-242 | at no moment of any run are two providers held, and every collect, stop or loss is of the held one |
| `Runner.ClockIsIntervalSum` | talia-agent/src/runner.rs:147-242 | the time slept in a run is the sum of its iterations' intervals |
| `PidScan.FirstIsFirst` | talia-agent/src/pod_discovery/pid.rs:96-131 | the reference answer is the first directory entry that represents the UID, and none exactly if no entry does |
| `PidScan.StoppingEarlyIsSafe` | talia-agent/src/pod_discovery/pid.rs:96-131 | stopping as soon as nothing is missing changes no answer |
| `PidScan.ScanProcForUids` | talia-agent/src/pod_discovery/pid.rs:96-131 | the early-exit pass with its counter returns for each UID exactly the reference answer, in UID order |
| `PidScan.ResolvePids` | talia-agent/src/pod_discovery/pid.rs:41-63 | hints that check out, and the scan for the rest |
| `PidScan.RepresentsExactly` | talia-agent/src/pod_discovery/pid.rs:66-94 | a process can stand for a pod exactly if its snmp file is there and its cgroup holds the UID with its dashes kept, turned into underscores, escaped as \x2d, or dropped |
| `PidScan.ResolvedExactly` | talia-agent/src/pod_discovery/pid.rs:41-131 | only requested UIDs are answered: with the hint if that process can stand for the pod, else with the first directory entry that can, and not at all exactly if there is none |
| `PidScan.DashesOnlyMatchEverything` | talia-agent/src/pod_discovery/pid.rs:66-85 | a UID matches every readable cgroup if and only if it consists of dashes only, the empty UID included |
| `PodPool.DialKeepsPool` | talia-agent/src/pod_discovery/mod.rs:280-302 | dialing keeps the pool distinct and within its size, adds only wanted reachable sockets, drops nobody, and for all runtimes reaches everyone reachable |
| `PodPool.EnsuredPool` | talia-agent/src/pod_discovery/mod.rs:269-303 | ensuring clients leaves a sound pool |
| `PodPool.EnsuredExactly` | talia-agent/src/pod_discovery/mod.rs:254-303 | clients can be ensured exactly if some socket gets one: the explicit one if pooled or reachable, else a transport error; all well-known ones there that are pooled or reachable, or a pooled one that is still there and else the first to answer, else no socket; the pool is exactly those |
| `PodPool.EnsuredAll` | talia-agent/src/pod_discovery/mod.rs:269-303 | with every runtime queried the kept clients stay in front in their order, and the new ones follow in the fixed order of the well-known sockets |
| `PodPool.MergeTakesEarliest` | talia-agent/src/pod_discovery/mod.rs:330-363 | merged listings hold a UID exactly when a client listed it, from the earliest such client's first item |
| `PodPool.SandboxClientIsPooled` | talia-agent/src/pod_discovery/mod.rs:375-383 | the client a sandbox came from is still pooled when its status is asked for |
| `PodPool.Worker.EnsureClients` | talia-agent/src/pod_discovery/mod.rs:269-303 | the retain-and-dial loop leaves a client for exactly the sockets that can have one, and fails exactly if there is none, with the error that says why |
| `PodPool.Worker.ListSandboxes` | talia-agent/src/pod_discovery/mod.rs:330-365 | the listing loop merges by UID and keeps the clients that answered |
| `PodPool.Worker.RefreshAsync` | talia-agent/src/pod_discovery/mod.rs:324-423 | a refresh answers with exactly the merged pod-network sandboxes whose PID was found, each UID once |
| `PodPool.Worker.HandleJob` | talia-agent/src/pod_discovery/mod.rs:213-250 | a job drops the pool on a changed selection or a timeout and otherwise leaves the refreshed one |
| `PodPool.PodsFromListsEachOnce` | talia-agent/src/pod_discovery/mod.rs:411-422 | no UID is answered twice |
| `PodPool.PoolAlwaysOk` | talia-agent/src/pod_discovery/mod.rs:213-303 | after any sequence of jobs pooled sockets are distinct, and at most one unless all runtimes are queried |
| `PodPool.PooledExactly` | talia-agent/src/pod_discovery/mod.rs:231-249 | after any jobs and one more, the pooled clients are none if it timed out, else exactly those that could be had, counting what the last job left if it had the same selection, and that listed their sandboxes |
| `PodPool.AnsweredExactly` | talia-agent/src/pod_discovery/mod.rs:324-372 | over any sequence of jobs a job is answered exactly if it does not time out and some socket that gets a client lists its sandboxes; otherwise the error tells which of timeout, dialing and listing failed |
| `PodPool.PodsExactly` | talia-agent/src/pod_discovery/mod.rs:330-423 | an answer lists, once each, exactly the UIDs whose first listing by the first lister names a sandbox with its own network and for which a process can stand, with that listing's name and namespace and the hinted or else first such PID |
| `MountInfo.DecodeMountinfoPath` | talia-agent/src/modules/storage/storage.rs:147-175 | the one-pass decoder with its three-digit look-ahead computes the unit-by-unit decoding |
| `MountInfo.DecodeUndoesEscape` | talia-agent/src/modules/storage/storage.rs:147-175 | decoding undoes three-digit octal escaping, for every string and every set of one-byte characters that includes the backslash |
| `MountInfo.LiteralExactly` | talia-agent/src/modules/storage/storage.rs:153-173 | text comes out unchanged if and only if it holds no whole escape below 400 octal: partial and oversized escapes are literal |
| `MountInfo.ModeIsFirstOption` | talia-agent/src/modules/storage/storage.rs:132-136 | the mode is the option before the first comma, if it is one of rw and ro, and absent otherwise |
| `MountInfo.Entries` | talia-agent/src/modules/storage/storage.rs:119-130 | reading succeeds exactly when every non-blank line is readable; the error is a non-blank unreadable line |
| `MountInfo.LastWinsIsLast` | talia-agent/src/modules/storage/storage.rs:137-143 | each named path has the entry of the last line naming it |
| `MountInfo.ParseMountInfo` | talia-agent/src/modules/storage/storage.rs:119-145 | the loop with its early error returns is the table of the lines |
| `MountInfo.RoundTrip` | talia-agent/src/modules/storage/storage.rs:119-175 | printing any list of mounts with absolute paths, no earlier bare dash, and no whitespace in a path beyond space, tab and newline, and parsing it, gives the last-writer-wins map of path to type and mode |
| `MountInfo.RoundTripExactly` | talia-agent/src/modules/storage/storage.rs:119-175 | for any such list without the whitespace condition: the map comes back if and only if no path has whitespace beyond what the kernel escapes |
| `ProcSections.ParseDecimal` | talia-agent/src/modules/tcp/proc_generic_parser.rs:82-97 | a printed decimal parses back exactly when it fits in 64 bits |
| `ProcSections.SignedDecimal` | talia-agent/src/modules/tcp/proc_generic_parser.rs:92 | a plus sign in front is allowed, but not alone |
| `ProcSections.NotANumber` | talia-agent/src/modules/tcp/proc_generic_parser.rs:92 | any other character that is no digit makes a value no number |
| `ProcSections.FindIsTheColumn` | talia-agent/src/modules/tcp/proc_generic_parser.rs:82-97 | with distinct names a lookup finds exactly the column of that name |
| `ProcSections.ColumnsMayMove` | talia-agent/src/modules/tcp/proc_generic_parser.rs:61-97 | reordering columns, or adding and dropping other names, changes no reading |
| `ProcSections.SectionReadsBack` | talia-agent/src/modules/tcp/proc_generic_parser.rs:61-80 | a printed section is read as its own names and values among any others, and a missing one is a missing header |
| `ProcSections.TwoLinesRead` | talia-agent/src/modules/tcp/proc_generic_parser.rs:61-79 | two lines under a prefix are paired up if they have equally many words, and refused with both counts otherwise, whatever follows |
| `ProcSections.LoneLineIsRefused` | talia-agent/src/modules/tcp/proc_generic_parser.rs:67 | a lone line under a prefix has no values |
| `ProcSections.CounterReadsBack` | talia-agent/src/modules/tcp/proc_generic_parser.rs:61-97 | any printed counter is read back by name, and refused exactly when it overflows |
| `ProcSections.AbsentCounterIsMissing` | talia-agent/src/modules/tcp/proc_generic_parser.rs:82-97 | a name the section lacks is reported as missing |
| `ProcSections.SnmpReadsBack` | talia-agent/src/modules/tcp/proc_net_snmp.rs:42-50 | the four counters come back from any printed file whose TCP section has them in any order |
| `ProviderOverrides.DecodeEncode` | talia-agent/src/commands/providers/config.rs:34-82 | a config turned into a tree and read back is unchanged |
| `ProviderOverrides.PutThenAt` | talia-agent/src/commands/providers/config.rs:57-79 | an overwritten node reads as written and every position off its path as before |
| `ProviderOverrides.ReadAssignment` | talia-agent/src/commands/providers/config.rs:36-56 | an accepted assignment names the selected provider's section (or pod discovery for tcp), at least one field and a value |
| `ProviderOverrides.Walk` | talia-agent/src/commands/providers/config.rs:57-70 | the cursor loop finds the node or the first obstacle on its path |
| `ProviderOverrides.WithProviderOverrides` | talia-agent/src/commands/providers/config.rs:24-90 | the loop over assignments gives the result, or the first error, of the reference |
| `ProviderOverrides.Finish` | talia-agent/src/commands/providers/config.rs:83-89 | what is returned after edits is valid |
| `ProviderOverrides.OverridesStayInside` | talia-agent/src/commands/providers/config.rs:24-90 | no section or key comes or goes, nothing outside the selected section changes, and a non-empty list yields a valid config |
| `ProviderOverrides.UnnamedSettingIsKept` | talia-agent/src/commands/providers/config.rs:35-81 | inside the section too, a position no assignment names keeps its value |
| `ProviderOverrides.RepeatedSetting` | talia-agent/src/commands/providers/config.rs:71-81 | assigning twice equals assigning last if and only if the setting is a string, or the first value is not quoted, or the last one is |
| `ProviderOverrides.QuotedValueIsFatal` | talia-agent/src/commands/providers/config.rs:71-89 | a quoted value for a flag, number or list fails the command whatever follows |
| `ProviderSettings.ReadsAs` | talia-agent/src/commands/providers/config.rs:34-56 | an assignment is read as its dotted path and its value, whatever blank text stands around them; the provider's own section, or pod discovery for tcp, may be named, and else is the provider's |
| `ProviderSettings.NoEqualsSign` | talia-agent/src/commands/providers/config.rs:35-37 | text is refused as no key and value exactly if it has no equals sign |
| `ProviderSettings.NothingOnOneSide` | talia-agent/src/commands/providers/config.rs:38-43 | it is refused as invalid exactly if one side of its first equals sign is blank |
| `ProviderSettings.SettingIsExact` | talia-agent/src/commands/providers/config.rs:24-90 | a command with one assignment to a setting returns the config with exactly that setting changed, or the error of the first that fails: the setting exists, the value can be read, it has the setting's type, the outcome is valid |
| `ProviderSettings.EditsTakeEffectInOrder` | talia-agent/src/commands/providers/config.rs:34-90 | well-typed assignments take effect one after the other, and the result is what all of them leave, if that is valid |

## Left out

- AgentRefresh.UndisturbedSaveIsExact: opening with truncation and each single write are atomic, and nothing but the two tasks and a power loss touches the file; JSON text and its parsing are a parameter (`Codec`).
- Runner.Collector.RunCollector: covers any finite number of iterations of the endless loop; sinks and processors do not fail or block.
- ProviderOverrides.WithProviderOverrides: the source overwrites a node of the tree through a mutable cursor; here the walk finds the node and the tree is rebuilt around it, so update in place is not captured. Parsing of JSON literals is a parameter.
- ProviderOverrides.DecodeEncode: typed reading accepts only tables for sections; the library's array form of a table and the old alias of the tcp section cannot arise from an encoded config.
- Delivery.Channel.Recv: a receiver's lag is counted from the ring alone; the library may round the capacity up, which 128 makes exact.
- RuntimeConfigs.RuntimeConfigFor: UTF-8, JSON and SHA-256 are parameters (`Encoding`); the JSON of a config is a function of its settings.
- ProcSections.SectionReadsBack: says what printed files give; files with repeated or malformed sections are covered by the parser's definition only.
- WebSocket, HTTP, gRPC and Unix-socket transport, TLS, protobuf, bearer-token checks on the routes and the control-URL checks: messages are delivered in order per connection, or the connection ends.
- Reconnect backoff: only delays when a new connection opens.
- BPF loading, attaching and the LRU replacement policy: which starts are evicted is an input of every issue.
- Torn reads of a map value and concurrent runs of one BPF program on the same CPU: each run and each key read is atomic.
- Filesystem and procfs reads: contents and listings are inputs; one refresh or scan sees one `/proc`.
- Sample names and attributes, the OTLP and stdout sinks, the OpenAPI document, the CLI and its printing.
- Memory swap deltas, the name filter, storage block arithmetic and the PID extraction from runtime status: smaller instances of what is modelled.
- Floating-point rounding: ratios are exact reals.
- TOML decoding, the bootstrap file and install scripts.
