# Scorer: a verified model of the simulation's statistics recorder

This project models `mtdnetwork/scorer.py`: the in-memory statistics recorder that a
network-security simulation with moving-target defence (MTD) reports its events to.
The simulation tells the scorer about:

- host compromises, either without a cause or through a vulnerability, a reused password
  or password spraying;
- leaked user accounts and exploited vulnerabilities;
- MTD strategies being registered, fired and blocking an attacker action.

The scorer appends every event to a per-category time series, takes a one-time snapshot
of the initial network, and builds a report from all of it.

The model is written in the source's own form:

- `payload.dfy` (module `Payload`) holds the collaborator objects the scorer reads (host,
  vulnerability, network, MTD strategy), reduced to plain values.
- `reports.dfy` (module `Reports`) holds the dictionaries that the `get_dict` methods
  return. They are datatypes built by functions: the running count `[1..n]`, the
  per-strategy totals and their sums. The report of `get_statistics` is the `Report`
  datatype in `scoring.dfy`.
- `recorders.dfy` (module `Recorders`) holds the four recorder classes `Statistics`,
  `CompromiseStatistics`, `VulnStatistics` and `MTDStatistics`. Their list fields are
  updated in place by methods with `modifies` frames.
  - Dafny has no class inheritance, so each class carries the base fields itself.
  - A ghost `log` of the recorded payloads ties the lists of the compromise and
    vulnerability recorders together.
- `snapshot.dfy` (module `Snapshot`) holds the loops of `set_initial_statistics`, as
  methods with loop invariants. Each is proved equal to a specification function over
  the hosts. The lemmas prove the counting properties of those functions.
- `scoring.dfy` (module `Scoring`) holds the `Scorer` class:
  - its recorders and the list of MTD recorders;
  - the `lastMtd` routing reference;
  - the snapshot;
  - the report.

  `Valid()` is the scorer's invariant. It says:
  - the recorders are distinct and consistent;
  - every MTD recorder holds only what the scorer puts there (the marker `1` per trigger,
    its own name per block);
  - the active recorder is one of the registered ones;
  - the aggregate compromise series counts every direct compromise plus every
    cause-specific one. A ghost counter `directCompromises` counts the direct calls.

Calls that raise `CannotAddMTDEventToScorerError` in the source return
`Fail(CannotAddMTDEventToScorerError)` here and change nothing.

Choices the code makes that the model keeps:

- `set_initial_statistics` is not guarded: it may be called at any time and replaces the
  snapshot. `SetInitialStatistics` does the same.
- `last_mtd` is a nullable reference; so is `lastMtd: MTDStatistics?`.
- Registering a name twice creates a second recorder. Routing then always reaches the
  first one (`FirstNamed`).

## Model

| member | source | states |
|---|---|---|
| Reports.CumulativeCounts | mtdnetwork/scorer.py:24 | the running count has one entry per event, and entry i is i+1 (it counts events, not their values) |
| Reports.SeriesDictOf | mtdnetwork/scorer.py:23-31 | the base dump reports the name and the lists as they are, the running count over the values, and "total events" equal to the number of values and to the last running count |
| Reports.SumBounds | mtdnetwork/scorer.py:273-280 | no single strategy's count exceeds the report total it is summed into |
| Reports.TotalsBound | mtdnetwork/scorer.py:269-280 | for every list of strategy dumps, each strategy's "total events" is at most "Total MTD Events" and its "total blocks" at most "Total MTD Blocking Hacker Events" |
| Reports.TotalsAfterUpdate | mtdnetwork/scorer.py:273-280 | replacing one strategy's dump changes both report totals by exactly the change in that strategy's own counts |
| Reports.TotalsAfterAppend | mtdnetwork/scorer.py:273-280 | a newly listed strategy's counts are added to both report totals |
| Recorders.NonExposed | mtdnetwork/scorer.py:45-47 | the non-exposed sub-log holds exactly the logged compromises of hosts that are not exposed endpoints, and is no longer than the log |
| Recorders.OsDependentCount | mtdnetwork/scorer.py:82 | the OS-dependency counter never exceeds the number of recorded vulnerabilities |
| Recorders.DependentCount | mtdnetwork/scorer.py:83 | the dependent-vulnerability counter never exceeds the number of recorded vulnerabilities |
| Recorders.Statistics.constructor | mtdnetwork/scorer.py:7-17 | a new recorder has its name and two empty, equally long lists |
| Recorders.Statistics.AddEvent | mtdnetwork/scorer.py:19-21 | appends exactly one entry to each list and keeps the earlier entries, so both lists stay equally long |
| Recorders.Statistics.GetDict | mtdnetwork/scorer.py:23-31 | the dump holds the name and the lists, "total events" n equal to both list lengths, and the running count [1..n] |
| Recorders.CompromiseStatistics.constructor | mtdnetwork/scorer.py:38-41 | a new compromise recorder has an empty log and empty base and non-exposed series |
| Recorders.CompromiseStatistics.AddEvent | mtdnetwork/scorer.py:43-50 | always appends (time, host id) to the base series; appends it to the non-exposed series if and only if the host is not an exposed endpoint; leaves that series unchanged for an exposed host |
| Recorders.CompromiseStatistics.GetDict | mtdnetwork/scorer.py:52-66 | the dump holds both series with their running counts, and "total not exposed events" is at most "total events" |
| Recorders.VulnStatistics.constructor | mtdnetwork/scorer.py:69-75 | a new vulnerability recorder has empty lists and both counters at 0 |
| Recorders.VulnStatistics.AddEvent | mtdnetwork/scorer.py:77-83 | appends the time and the three scores; each counter grows by 1 exactly when its flag is set; the inherited value list is never touched |
| Recorders.VulnStatistics.GetDict | mtdnetwork/scorer.py:85-96 | the time and score lists are equally long, the running count is [1..n], and each counter is at most n |
| Recorders.MTDStatistics.constructor | mtdnetwork/scorer.py:100-103 | a new strategy recorder has its name and no triggers and no blocks |
| Recorders.MTDStatistics.AddEvent | mtdnetwork/scorer.py:19-21 | a trigger appends to the base lists only; the blocked lists are unchanged |
| Recorders.MTDStatistics.AddBlockedEvent | mtdnetwork/scorer.py:105-107 | a block appends to the blocked lists only; the base lists are unchanged |
| Recorders.MTDStatistics.GetDict | mtdnetwork/scorer.py:109-122 | "total events" counts the triggers, "total blocks" counts the blocks, and the blocked values come with their running count |
| Recorders.BlocksWithoutTriggers | mtdnetwork/scorer.py:105-122 | a strategy that recorded K blocks and no trigger reports 0 events and K blocks, with the block times in order and each block labelled with the given value |
| Snapshot.HostsWithoutVulns | mtdnetwork/scorer.py:229-230 | the number of hosts without vulnerabilities is at most the number of hosts |
| Snapshot.CountOsType | mtdnetwork/scorer.py:223-224 | no OS type and version is run by more hosts than there are |
| Snapshot.HistogramTotal | mtdnetwork/scorer.py:223-224 | the "OS Types In Initial Network" counts add up to the number of hosts |
| Snapshot.HistogramCounts | mtdnetwork/scorer.py:223-224 | the histogram has a key "type version" if and only if some host runs it, and its count is the number of such hosts |
| Snapshot.VulnsCoverHosts | mtdnetwork/scorer.py:225-230 | total vulnerabilities plus hosts without vulnerabilities is at least the host count, and the total is 0 if and only if every host has none |
| Snapshot.AddRoaBumps | mtdnetwork/scorer.py:232-238 | filing one RoA counts one more vulnerability under its OS type and version and changes no other count |
| Snapshot.BumpTotal | mtdnetwork/scorer.py:249-251 | one more vulnerability counted adds one to the per-OS grand total |
| Snapshot.AddVulnRoasCount | mtdnetwork/scorer.py:232-238 | filing a host's vulnerabilities adds their number to the per-OS counts |
| Snapshot.VulnsPerOsTotal | mtdnetwork/scorer.py:241-251 | "Initial Vulns Per OS" adds up to "Total Initial Vulnerabilities": no vulnerability is dropped or counted twice |
| Snapshot.ExampleNetwork | mtdnetwork/scorer.py:219-230 | two "Linux 5.0" hosts with one vulnerability each and a "Windows 10" host without any give 2 vulnerabilities, 1 host without, and the histogram {"Linux 5.0": 2, "Windows 10": 1} |
| Snapshot.CountVersions | mtdnetwork/scorer.py:249-251 | the inner loop records, for every version of one OS type, the length of its RoA list |
| Snapshot.CountVulnsPerOs | mtdnetwork/scorer.py:241-251 | the second loop computes exactly the per-OS, per-version lengths of the RoA table |
| Snapshot.RecordRoas | mtdnetwork/scorer.py:232-238 | the loop over a host's vulnerabilities files each initial RoA, in order, under the host's OS type and version |
| Snapshot.CollectInitialStatistics | mtdnetwork/scorer.py:210-251 | the loops compute the specified total, hosts without vulnerabilities, histogram, RoA table and per-OS counts |
| Scoring.Scorer.constructor | mtdnetwork/scorer.py:126-138 | a new scorer owns six distinct, empty recorders with the source's names, no MTD recorder and no active strategy |
| Scoring.Scorer.RegisterMtd | mtdnetwork/scorer.py:140-141 | appends one fresh, empty recorder named after the strategy, keeps the existing ones, does not check for duplicates, and leaves both MTD totals unchanged |
| Scoring.Scorer.RegistrationKeepsValid | mtdnetwork/scorer.py:140-141 | appending an empty recorder keeps the scorer's invariant |
| Scoring.Scorer.RegistrationKeepsTotals | mtdnetwork/scorer.py:273-280 | an empty recorder adds nothing to "Total MTD Events" or "Total MTD Blocking Hacker Events" |
| Scoring.Scorer.SetLastMtd | mtdnetwork/scorer.py:143-153 | the active recorder becomes the first registered one with the strategy's name; it is cleared if and only if no registered name matches, whatever was active before |
| Scoring.Scorer.AddMtdBlockedEvent | mtdnetwork/scorer.py:155-159 | with no active strategy, fails and changes nothing; otherwise appends (time, active strategy's name) to its blocked lists only; other strategies are unchanged; "Total MTD Blocking Hacker Events" grows by exactly one and "Total MTD Events" stays the same |
| Scoring.Scorer.AddMtdEvent | mtdnetwork/scorer.py:161-168 | with no active strategy, fails and changes nothing; otherwise appends (time, 1) to its base lists only; other strategies are unchanged; "Total MTD Events" grows by exactly one and the block total stays the same |
| Scoring.Scorer.ActiveChangeKeepsValid | mtdnetwork/scorer.py:155-168 | a consistent change to the active recorder alone keeps the scorer's invariant |
| Scoring.Scorer.ActiveChangeTotals | mtdnetwork/scorer.py:273-280 | when only the active recorder changed, each report total changes by exactly the change in that recorder's own counts |
| Scoring.Scorer.AddHostCompromise | mtdnetwork/scorer.py:170-174 | appends the compromise to the aggregate series only and counts it as direct |
| Scoring.Scorer.AddHostVulnCompromise | mtdnetwork/scorer.py:176-181 | appends the compromise to both the aggregate series and the vulnerability series |
| Scoring.Scorer.AddHostReusePassCompromise | mtdnetwork/scorer.py:183-188 | appends the compromise to both the aggregate series and the reused-password series |
| Scoring.Scorer.AddHostPassSprayCompromise | mtdnetwork/scorer.py:190-195 | appends the compromise to both the aggregate series and the password-spray series |
| Scoring.Scorer.AddUserAccountLeak | mtdnetwork/scorer.py:197-198 | appends (time, username) to the leak series |
| Scoring.Scorer.AddVulnCompromise | mtdnetwork/scorer.py:200-201 | appends the exploited vulnerability to its recorder |
| Scoring.Scorer.SetInitialStatistics | mtdnetwork/scorer.py:203-258 | the snapshot's counts and its RoA table equal their specifications; the histogram adds up to the host count; hosts without vulnerabilities are at most the host count; the per-OS counts add up to the total |
| Scoring.Scorer.GetStatistics | mtdnetwork/scorer.py:260-282 | the report exists exactly when a snapshot was taken; it lists every strategy's dump in order; the two MTD totals are the sums of the per-strategy counts and bound each of them; the aggregate compromise total equals direct compromises plus the three cause totals |
| Scoring.IpShuffleScenario | mtdnetwork/scorer.py:140-168 | register, activate, trigger at 1, block at 1.5 and trigger at 2: the dump holds the triggers (1, 1) and (2, 1) with running count [1, 2] and 2 events, and the block (1.5, "IPShuffle") with running count [1] and 1 block |
| Scoring.IpShuffleTriggerAndBlock | mtdnetwork/scorer.py:155-168 | on an active, empty strategy, a trigger at 1 and a block at 1.5 reach that strategy: its base lists become [1] and [1], its blocked lists [1.5] and its own name, and the scorer's invariant holds |
| Scoring.IpShuffleSecondTrigger | mtdnetwork/scorer.py:161-168 | a further trigger at 2 is appended after the first one and leaves the block lists as they were |
| Scoring.IpShuffleDump | mtdnetwork/scorer.py:109-122 | the dump of a strategy with triggers at 1 and 2 and a block at 1.5 reports 2 events with running count [1, 2] and 1 block with running count [1] |
| Scoring.UnroutedEventsFail | mtdnetwork/scorer.py:155-168 | a trigger or a block before any strategy was activated fails, even with a strategy registered |
| Scoring.PasswordSprayScenario | mtdnetwork/scorer.py:190-195 | one password-spray compromise of a host that is not exposed appears once in the aggregate series, in the spray series and in both non-exposed series |

## Left out

- "Average Initial RoA Per OS" (`sum(roa_list) / len(roa_list)`, line 252) is floating-point arithmetic. The model keeps the RoA lists it is computed from (`InitialStats.initialRoaPerOs`) but not the averages. RoA, impact and complexity are opaque `real` values that are only stored.
- The membership test at line 237 compares a vulnerability object with a list of RoA numbers, so it always passes. The model files every RoA unconditionally and does not invent any deduplication.
- `from numpy import record` (line 1) is unused. The exceptions module is not part of this model; its one error becomes the `Fail(CannotAddMTDEventToScorerError)` outcome.
- How a host decides `is_exposed_endpoint()` and how a vulnerability computes `roa()` and `initial_roa()` are not part of this model. They are fields of the payload datatypes.
- `__str__` of the recorders and of MTD strategies is modelled as the name string (`recordType`, `MtdStrategy.name`).
- Scoring.Scorer.GetStatistics: returns a fresh report value. It does not model that the source writes the report keys into `self.stats` and returns that same dictionary, so a second call returns and updates the same object. Before `set_initial_statistics` the source fails with an attribute error; the model returns `None` instead.
- Recorders.Statistics.GetDict, Recorders.CompromiseStatistics.GetDict, Recorders.VulnStatistics.GetDict and Recorders.MTDStatistics.GetDict: return immutable values. Each `get_dict` in the source puts the recorder's live lists into the dictionary (lines 27-28, 58-63, 89-93, 114-120), so a dump or report taken earlier keeps growing as later events are recorded. The model does not capture this aliasing: a dump shows the lists at the moment it was taken.
- Snapshot.CountVulnsPerOs, Snapshot.CountVersions, Snapshot.RecordRoas and Snapshot.CollectInitialStatistics: build Dafny maps, which have no key order. In the source, "OS Types In Initial Network", the RoA table and "Initial Vulns Per OS" are dictionaries that keep insertion order (the order in which hosts, and then OS types and versions, are first met, lines 223, 233-237 and 243-250), and whoever reads the report sees that order. The model captures each dictionary's keys and values, not its key order.
- Scoring.Scorer.AddHostVulnCompromise, Scoring.Scorer.AddHostReusePassCompromise and Scoring.Scorer.AddHostPassSprayCompromise: append to the aggregate series directly instead of through `add_host_compromise`. The effect on the series is the same; only the ghost counter of direct compromises tells the two apart.
- Concurrency does not arise: the scorer is single-threaded and has no I/O.
