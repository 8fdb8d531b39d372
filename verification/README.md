# A verified model of the network automation platform

The platform is a Django and Celery application in which requests and workers share one
database: configuration snapshots and drift checks, an AlertManager webhook, subnet discovery,
and provisioning jobs that push rendered templates to devices. This project models that
database, the statements the tasks and requests send to it, and the pure code between the
statements (the line diff, the line filter, IPv4 enumeration, the ACL template), and proves what
holds of them for every input and every run.

`dafny verify dfyconfig.toml` checks everything.

## How it is modelled

* **One database, single statements.** `Database.dfy` holds the rows, the tables (maps from key to
  row), every statement with its constraint and delete rules, and `Store`, the live object whose
  `Execute` runs one statement, all or nothing. A statement that violates a constraint raises and
  changes nothing.
* **Two granularities.** Each task is imperative code over a `Store`, with a function that says
  what a whole call does. Security tasks and discovery jobs are also programs of single steps,
  and runs are arbitrary sequences of events that spawn, advance and interleave any number of
  programs with statements of the rest of the platform. Lemmas show that a program run alone does
  what the whole call does. Provisioning workers and task-id requests are lists of statements
  under every interleaving.
* **Oracles.** SSH, ping, SNMP, DNS, the clock, the Jinja2 engine and the parser of the subnet text
  are parameters; every theorem quantifies over them.

| file | contents |
|---|---|
| `Wrappers`, `Sequences` | options, results, facts about concatenation |
| `Text` | `str.splitlines`, `str.split`, decimal numbers |
| `Difflib`, `DiffProofs`, `DiffMatches`, `DiffText`, `DriftText` | CPython's sequence matcher (with `autojunk`), opcodes, grouped hunks, unified diff; soundness; what the matcher finds and how much a hunk shows; a reader for the printed diff; the text of a drift report |
| `Database`, `Integrity`, `Statements`, `Platform` | tables and statements; what every statement, task and run keeps; exactly what each statement does |
| `Security`, `SecurityCalls`, `SecurityRuns`, `GoldenHistory`, `GoldenFlags`, `DriftBookkeeping` | golden snapshots and drift checks: task bodies, whole calls, interleaved runs, sequential histories, the flags under interleaving, accounts |
| `Footprint` | interleavings of writers with disjoint columns |
| `Monitoring`, `MonitoringProofs`, `Deliveries` | the webhook, acknowledgement and dashboard counters; the stored columns of an entry |
| `Ipv4`, `Discovery`, `DiscoveryProofs`, `DiscoveryRecords`, `DiscoveryRuns` | subnets, discovery runs, their accounts, names, logs and rows, concurrent jobs |
| `Provisioning`, `ProvisioningRuns` | the provisioning worker, alone and among other statements |
| `AclTemplate`, `AclMeaning`, `AclProofs`, `AclRoundTrip` | the ACL template, a reader for its output, and the round trip |

## Conventions

* Primary keys come from one counter per application; only their freshness is used.
* `taken_at` is an integer clock reading supplied at the insert. Ties in
  `order_by("-taken_at").first()` are broken by key. Theorems about sequential histories assume
  that the clock never runs backwards (`GoldenHistory.ClockAhead`); theorems about interleaved runs
  assume nothing about the clock.
* The two header lines of a unified diff carry dates; they are opaque labels.
* Job and discovery logs are kept as the list of their lines; the stored column is their join.
* Python's `update_or_create` writes only its `defaults` columns and is one atomic step here.
* An exception that is not a `NetmikoError` while reading a device's configuration ends a security
  task before its first write and needs no statement of its own.
* A job lists its devices in the order in which the worker iterates over them.

## Where code and documentation disagree

* `apps/security/README.md:113` says that a device has at most one golden snapshot at a time. The
  code does not keep this, in two ways. `take_config_snapshot(set_golden=True)` only adds a flag
  (`apps/security/tasks.py:151-156`, admitted at `apps/security/README.md:298`);
  `GoldenHistory.TwoGoldens` gives the run, and `OneGoldenExactly` and `OneGoldenStep` say exactly
  when the claim holds for calls that do not overlap. And two overlapping `set_golden` requests
  both clear and then both set (`apps/security/views.py:41-43`); `GoldenFlags.OverlappingRequests`
  gives that run, and `OneGoldenStatement`, `AlwaysOneExactly` and `FinallyOneExactly` say exactly
  when the claim holds for single statements and for every interleaved run.
* A `set_golden` request promises that the chosen snapshot is the golden config for its device.
  Anything flagged between its two statements can take that place. `GoldenFlags.ChoiceStandsExactly`
  says exactly when the choice stands, in every interleaved run; `GapStealsBaseline` is the case of
  a whole drift check in the gap.
* What does hold always: `GoldenHistory.PointerRefinement` and `SecurityRuns.BaselineNeverLost`.
* The `"ad-hoc"` branch at `apps/provisioning/tasks.py:65` cannot be reached: without a template the
  task already fails at line 21, outside any handler, and the job stays RUNNING
  (`ProvisioningRuns.RanJobFinishesExactly`).

## Model

| member | source | states |
|---|---|---|
| `Text.SplitKeepJoins` | apps/security/tasks.py:106-107 | splitting with line ends kept loses nothing: the kept lines join back to the text, with "\r\n" as one terminator and with or without a final newline |
| `Text.SplitKeepCutsAtBoundaries` | apps/security/tasks.py:106-107 | the cuts are exactly line boundaries: every piece is one line, all but the last are terminated, no "\r\n" is torn |
| `Text.SplitKeepOfJoin` | apps/security/tasks.py:106-107 | converse round trip: any list of lines cut at boundaries is the split of its join |
| `Text.SplitKeepInjective` | apps/security/tasks.py:106-107 | two texts have the same lines iff they are equal |
| `Text.SplitLinesExactly` | apps/provisioning/tasks.py:25 | `splitlines` gives as many lines as are kept, each free of boundaries and each its kept line without the terminator |
| `Text.CharacterClasses` | apps/provisioning/tasks.py:25 | the line boundaries and the white space by code point |
| `Text.SplitLinesOfJoin` | apps/provisioning/tasks.py:25 | unbroken lines, each ended by a newline, are exactly what `splitlines` gives back |
| `DiffProofs.GroupsOfLists` | apps/security/tasks.py:108-113 | the grouped opcodes cover both lists in order and outside the groups the lists agree, for any number of context lines |
| `DiffProofs.ContextIsBounded` | apps/security/tasks.py:108-113 | with `n=3` no hunk shows more than three equal lines at an edge or six between changes |
| `DiffMatches.ContextIsExact` | apps/security/tasks.py:108-113 | each hunk opens and closes with exactly three equal lines (or all there are at the edges), contains a change, never shows more than six equal lines between changes, and is cut off from the next only where equal lines are left out |
| `DiffMatches.PopularExactly` | apps/security/tasks.py:108-113 | a line is not indexed iff the list has at least 200 lines and more than one in a hundred of them, and one, are that line |
| `DiffMatches.LongestMatchExactly` | apps/security/tasks.py:108-113 | one search finds the first longest run of indexed lines, continued over equal lines on both sides as far as the window allows |
| `DiffMatches.LongestIsLongest` | apps/security/tasks.py:108-113 | no run of indexed lines is longer than the match; where no line is popular no equally long one starts earlier in the golden lines, or at the same place and earlier in the current ones |
| `DiffMatches.ScriptIsTidy` | apps/security/tasks.py:108-113 | changes and equal stretches take turns, and what a replacement removes shares no indexed line with what it adds |
| `DiffMatches.LongestRunIsKept` | apps/security/tasks.py:108-113 | the longest common run stands unchanged in one equal stretch of the script |
| `DiffMatches.RemovedComeFirst` | apps/security/tasks.py:108-113 | in every hunk the lines of a change are printed removed ones first: no removed line stands directly after an added one |
| `DiffProofs.DiffRoundTrip` | apps/security/tasks.py:108-113 | patching the golden lines with the hunks gives the current lines, and the inverted hunks take them back |
| `DiffText.RangeReads` | apps/security/tasks.py:108-113 | the line range in a hunk's header reads back, an empty one included |
| `DiffText.RangeShowsLength` | apps/security/tasks.py:108-113 | it shows its length exactly if that is not one |
| `DiffText.PrintedDiffReadsBack` | apps/security/tasks.py:108-113 | the printed lines determine the change: a reader recovers the hunks from them, and patching the golden lines with what it read gives the current lines; the first two lines name the two sides |
| `DiffProofs.SelfMatch` | apps/security/tasks.py:108-113 | a list matches itself in one block whatever lines the popularity heuristic drops |
| `DiffProofs.HunksDecideEquality` | apps/security/tasks.py:108-115 | there are no hunks iff the two line lists are equal |
| `DiffProofs.VerdictIsTextual` | apps/security/tasks.py:106-115 | drift is reported iff the two configuration strings differ |
| `Database.Store.Execute` | apps/inventory/models.py:30-31 | one statement on the live database: it raises and changes nothing, or it commits, with a new row under the next key of its application |
| `Integrity.StatementIsAtomic` | apps/inventory/models.py:30-31 | a statement that raises leaves every table as it was; one that creates a row gives it a key its application has not in use and adds no other |
| `Integrity.RunKeepsIntegrity` | apps/security/models.py:37-38 | after any sequence of statements and deletions every reference is null or names a row, keys are fresh, hostnames and addresses unique, and the audit log only grows |
| `Integrity.RemoveDeviceKeeps` | apps/security/models.py:76-78 | deleting a device with its cascade and set-null rules leaves no dangling reference anywhere |
| `Statements.DeviceRemovalExactly` | apps/security/models.py:76-78 | deleting a device takes exactly its own snapshots, reports, checks and results along, nulls exactly the references to it and its snapshots, and takes it off job lists; every other row and column stays |
| `Statements.InsertDeviceExactly` | apps/inventory/models.py:30-31 | a device is stored as given iff its name fits and neither name nor address is taken |
| `Statements.SetDeviceStatusExactly` | apps/inventory/tasks.py:125-128 | a reachability check writes the status of its device and nothing else |
| `Statements.SecurityInsertsExactly` | apps/security/models.py:37-38 | a snapshot, rule, report or check is stored as given iff the rows it names exist |
| `Statements.GoldenWritesExactly` | apps/security/views.py:41-43 | both golden statements write the flag (and a note if given) of the rows they name and no other column |
| `Statements.ProvisioningInsertsExactly` | apps/provisioning/models.py:42-63 | a template, job or result is stored as given iff the rows it names exist |
| `Statements.UpsertExactly` | apps/monitoring/views.py:76-90 | an upsert adds an unacknowledged row, rewrites the delivered columns of the one row of its fingerprint, or raises and changes nothing |
| `Integrity.SecurityRemovalKeeps` | apps/security/models.py:37-38 | deleting a rule or a snapshot leaves no dangling reference |
| `Integrity.SecurityRemovalExactly` | apps/security/models.py:77-78 | deleting a rule takes exactly its checks along; deleting a snapshot keeps every report and nulls exactly the references to it; everything else stays |
| `Integrity.ProvisioningRemovalKeeps` | apps/provisioning/models.py:62-63 | deleting a job or a template leaves no dangling reference |
| `Integrity.ProvisioningRemovalExactly` | apps/provisioning/models.py:42-62 | deleting a job takes exactly its results along; deleting a template keeps every job and nulls exactly the references to it; everything else stays |
| `Platform.PerformReaches` | apps/security/tasks.py:62-166 | every whole task or request is some sequence of single statements, whatever its oracles answer |
| `Platform.EveryStateIsIntegral` | apps/provisioning/models.py:84-85 | from an empty database any sequence of tasks, requests and deletions keeps referential integrity, and later calls only extend the audit log |
| `SecurityTasks.TakeConfigSnapshot` | apps/security/tasks.py:138-166 | the task body has exactly the effect and result of `RanTake`, missing device and SSH error included |
| `SecurityTasks.RunDriftDetection` | apps/security/tasks.py:63-134 | the task body has exactly the effect and result of `RanDrift`: error report, first baseline, or comparison |
| `SecurityTasks.CheckAgainstGolden` | apps/security/tasks.py:89-134 | the half after the snapshot is stored: promote when no golden is found, otherwise compare |
| `SecurityTasks.RecordComparison` | apps/security/tasks.py:115-134 | the report and the audit entry of one comparison, with the diff cut at 10000 characters |
| `SecurityTasks.SetGoldenSnapshot` | apps/security/views.py:38-44 | the request has exactly the effect of `RanPromote`: clear the device's flags, then set one |
| `SecurityTasks.LatestIsFlagged` | apps/security/tasks.py:90 | the golden query answers with a flagged snapshot of the device, or with nothing |
| `SecurityCalls.TakeExactly` | apps/security/tasks.py:144-166 | the call's answer and everything it stores: the snapshot with the flag asked for, and an audit entry with its key and that flag; or the SSH error and nothing |
| `SecurityCalls.FailedCheckExactly` | apps/security/tasks.py:71-80 | an SSH error is the answer and the text of an ERROR report, and nothing else is stored |
| `SecurityCalls.FirstCheckExactly` | apps/security/tasks.py:83-104 | without a golden snapshot the new one becomes it, with its note, and a CLEAN report compares it with itself |
| `SecurityCalls.CheckExactly` | apps/security/tasks.py:83-134 | otherwise the new one is compared with the latest golden one: verdict, stored diff (headed by the two file names, turning the golden lines into the current ones, cut at its limit), audit entry and answer, and nothing else changes |
| `SecurityCalls.SetGoldenLeavesRest` | apps/security/views.py:38-44 | `set_golden` writes the flags of one device and no other column, row or table |
| `SecurityRuns.BaselineNeverLost` | apps/security/views.py:38-43 | over every statement-level interleaving a device that has a golden snapshot keeps one, unless some `set_golden` on it is between its clear and its set |
| `SecurityRuns.QuietWorldHasBaseline` | apps/security/views.py:38-43 | hence when no program is running, a surviving device that ever had a golden snapshot has one |
| `SecurityRuns.ComparedAlwaysHaveBaseline` | apps/security/tasks.py:89-124 | every device with a verdict report has a baseline, in every reachable interleaved state |
| `SecurityRuns.PlayKeepsSane` | apps/security/tasks.py:74-124 | report truth in every reachable state: both snapshots belong to the report's device, CLEAN iff their stored configs are equal, with a stored diff (up to its cut at 10000 characters) that turns one into the other; ERROR iff there are no snapshots |
| `SecurityRuns.PlayKeepsIntegrity` | apps/security/tasks.py:63-166 | every interleaving keeps the whole database integral and its audit log growing |
| `SecurityRuns.WholeIsSolo` | apps/security/tasks.py:63-166 | a program of single statements that nothing interrupts does what the whole call does |
| `GoldenHistory.LatestIsLast` | apps/security/tasks.py:90 | the query finds the flagged snapshot that every other flagged one precedes, by time and then key, whenever one exists |
| `GoldenHistory.RunAgrees` | apps/security/tasks.py:90-96 | after any sequence of whole calls the flagged snapshots of each device are exactly those promoted since its last manual choice, in order |
| `GoldenHistory.PointerRefinement` | apps/security/tasks.py:90-96 | refinement to one pointer: the query answers with the most recent promotion, manual, taken-as-golden or automatic, however many rows are flagged |
| `GoldenHistory.OneGoldenExactly` | apps/security/tasks.py:151-156 | over calls that do not overlap, a device has at most one golden snapshot iff at most one promotion happened since its last manual choice |
| `GoldenHistory.OneGoldenStep` | apps/security/tasks.py:151-156 | one uninterrupted call keeps a device at one golden snapshot iff it is not a successful take-as-golden for a device that already has one |
| `GoldenHistory.TwoGoldens` | apps/security/tasks.py:151-156 | the documented "at most one golden" fails: a concrete run with two |
| `GoldenHistory.SetGoldenExactly` | apps/security/views.py:38-43 | each `set_golden`, even on an old snapshot, leaves exactly that one flagged on its device and found by the query, and touches no other device's flags |
| `GoldenFlags.PlayChangesFlags` | apps/security/views.py:41-43 | over every interleaving the flags of a device are the fold of its changes: a clear empties them, a promotion adds one, nothing else touches them |
| `GoldenFlags.SurvivorsAreFlagged` | apps/security/views.py:41-43 | that fold holds exactly the snapshots that were flagged, first or on the way, and not cleared since |
| `GoldenFlags.OneGoldenStatement` | apps/security/tasks.py:92-96 | one statement keeps a device at one golden snapshot iff it does not flag one of its snapshots while another is flagged; only a golden take, an automatic promotion and the second statement of `set_golden` flag anything |
| `GoldenFlags.AlwaysOneExactly` | apps/security/views.py:41-43 | "at most one golden" holds at every point of an interleaved run iff no event of it flags a snapshot while another is flagged |
| `GoldenFlags.FinallyOneExactly` | apps/security/views.py:41-43 | it holds at the end of an interleaved run iff no two snapshots were flagged and not cleared since |
| `GoldenFlags.OverlappingRequests` | apps/security/views.py:41-43 | two overlapping `set_golden` requests leave two golden snapshots with nothing running: a concrete run, from any world without programs |
| `GoldenFlags.ChosenIsLatestExactly` | apps/security/views.py:42-43 | after the second statement the query answers the chosen snapshot iff every other flagged one of the device precedes it |
| `GoldenFlags.ChoiceStandsExactly` | apps/security/views.py:41-43 | with anything between the two statements, the chosen snapshot is the baseline afterwards iff every other one flagged in between, and not cleared again, precedes it |
| `GoldenFlags.GapStealsBaseline` | apps/security/views.py:41-43 | a whole drift check in the gap leaves both snapshots flagged, and its own as the baseline unless its clock stands before the chosen one |
| `DriftBookkeeping.RunBalances` | apps/security/tasks.py:83-164 | over sequential calls: snapshots = SNAPSHOT entries + non-ERROR reports, DRIFT_CHECK entries = reports that compare two different snapshots |
| `DriftBookkeeping.NewReportStarts` | apps/security/tasks.py:92-103 | a report whose golden is its own current snapshot is stored only for a device without a baseline, which then has one |
| `DriftBookkeeping.RunStartsOnce` | apps/security/tasks.py:92-103 | over sequential calls each device gets at most one such report |
| `DriftBookkeeping.EmptyStart` | apps/security/tasks.py:62-166 | the empty platform meets every invariant that the theorems about runs start from |
| `DriftBookkeeping.EveryReachableState` | apps/security/tasks.py:62-166 | hence in every state an interleaved run reaches from it, reports tell the truth, compared devices have a baseline, and every reference is sound |
| `Footprint.InterleavingsAgree` | apps/provisioning/views.py:48-51 | writers whose writes commute pairwise end in the same row under every interleaving |
| `Footprint.JobWritesCommute` | apps/provisioning/tasks.py:16-23 | two column-limited saves of a provisioning job commute iff they disagree on no column |
| `Footprint.DiscoveryWritesCommute` | apps/inventory/tasks.py:66-69 | the same for a discovery job |
| `Footprint.JobRowIsItsSaves` | apps/provisioning/tasks.py:82-83 | in any run of any statements a provisioning job's columns are the saves made to it, in order |
| `Footprint.DiscoveryRowIsItsSaves` | apps/inventory/tasks.py:112-116 | in any run of any statements a discovery row is the saves made to it, in order |
| `Footprint.RequestAndWorkerCommute` | apps/provisioning/views.py:48-51 | the request's task-id save and all worker saves survive each other in every interleaving, with anything else around them |
| `Footprint.DiscoveryRequestAndWorkerCommute` | apps/inventory/views.py:64-71 | the same for a discovery job |
| `Monitoring.AlertmanagerWebhook` | apps/monitoring/views.py:43-96 | the loop stores what `Webhook` says, touches nothing but alerts, and answers with the payload's length and the rows created; an exception keeps the rows already stored |
| `Deliveries.NormaliseTells` | apps/monitoring/views.py:57-89 | every delivered column comes from its own key of the entry: severity by its label in any case (else Info), each time from its own stamp, the device at the instance up to its first colon |
| `Deliveries.LastEntryIsStored` | apps/monitoring/views.py:56-92 | after a payload the one row of a fingerprint holds the columns of the last entry read for it, spelled out from its keys; old rows keep their own columns, new ones are unacknowledged |
| `Monitoring.AcknowledgeAlert` | apps/monitoring/views.py:27-32 | a missing alert is not found; any other gets its two acknowledgement columns |
| `Monitoring.DeviceAt` | apps/monitoring/views.py:67-68 | the matched device has the address, and no match means no device has it |
| `MonitoringProofs.WebhookRefinesMap` | apps/monitoring/views.py:56-96 | from distinct fingerprints any payload refines a last-writer-wins map: fingerprints stay distinct, rows show the last delivery, `created` is the growth of the table; the request fails iff some entry's times cannot be read, and keeps what came before it |
| `MonitoringProofs.PayloadsRefineMap` | apps/monitoring/views.py:56-96 | the same over any sequence of payloads, each with the inventory it meets: last deliveries shown, the sum of `created` is the growth of the table, and each request fails iff its own payload has an unreadable time |
| `MonitoringProofs.LastWinsIsLast` | apps/monitoring/views.py:76-90 | the map's entry for a fingerprint is its last delivery |
| `MonitoringProofs.WebhookSplits` | apps/monitoring/views.py:56-96 | cutting a payload into two consecutive ones changes nothing, exceptions included |
| `MonitoringProofs.ReplayChangesNothing` | apps/monitoring/views.py:76-92 | replaying a payload straight after itself creates nothing, leaves the table unchanged, and fails iff it failed before |
| `MonitoringProofs.WebhookRaisesExactly` | apps/monitoring/views.py:70-90 | the request fails iff some entry has an unreadable time or a fingerprint that several rows already share |
| `MonitoringProofs.RowIsTwoHistories` | apps/monitoring/views.py:27-32 | in any run of any statements an acknowledged alert stays acknowledged and its delivered columns are those of the last delivery, with the reference to a deleted device nulled |
| `MonitoringProofs.CountersAgree` | apps/monitoring/ui_views.py:14-15 | on a table that shows a map the two counters count the map's firing, and firing critical, fingerprints |
| `MonitoringProofs.DashboardAgreesWithHistory` | apps/monitoring/ui_views.py:14-15 | after any payloads from an empty table the firing count is the number of fingerprints last delivered as firing, the critical count those of them last delivered as critical |
| `Ipv4.ParsePrint` | apps/inventory/tasks.py:81 | a printed dotted quad reads back as its address |
| `Ipv4.FallbackNamesDiffer` | apps/inventory/tasks.py:94 | replacing dots by dashes in printed addresses is injective |
| `Ipv4.HostCount` | apps/inventory/tasks.py:77-78 | a subnet of prefix p has 2^(32-p) - 2 hosts up to /30, 2 for /31 (section 2.1 of RFC 3021), 1 for /32 |
| `Ipv4.HostsExactly` | apps/inventory/tasks.py:77-78 | the hosts are exactly the addresses that share the masked subnet's leading bits, without network and broadcast address up to /30 |
| `Ipv4.HostBitsIgnored` | apps/inventory/tasks.py:77 | any address of a subnet denotes the same hosts (`strict=False`) |
| `Ipv4.HostsDistinct` | apps/inventory/tasks.py:78 | no host is listed twice |
| `Ipv4.HostsAscend` | apps/inventory/tasks.py:78 | the hosts are listed in ascending order of their addresses |
| `DiscoveryTasks.RunDiscovery` | apps/inventory/tasks.py:63-118 | the task body has exactly the effect and result of `RanDiscovery`, with the exception path that keeps partial work |
| `DiscoveryTasks.SweepHosts` | apps/inventory/tasks.py:80-104 | the host loop with its counters and log does what `Sweep` says and touches only the inventory |
| `DiscoveryTasks.CreateDiscoveryJob` | apps/inventory/views.py:59-71 | the request stores a PENDING job, then only its task id |
| `DiscoveryProofs.RunAccounts` | apps/inventory/tasks.py:71-116 | COMPLETED: found = added + skipped and 2 * found + 1 log lines; FAILED: the error is logged last and found exceeds added + skipped by at most one; found is at most the number of hosts |
| `DiscoveryProofs.RunCovers` | apps/inventory/tasks.py:80-106 | old devices stay, `added` new ones appear, each a live host the inventory lacked; a COMPLETED run leaves exactly the old addresses and the live ones |
| `DiscoveryRecords.AddedDevicesAreNamed` | apps/inventory/tasks.py:88-102 | every added device is a live host the inventory lacked, ONLINE, under the SNMP answer if there is one, else the DNS answer, else its address with dashes |
| `DiscoveryRecords.CompletedRunLogs` | apps/inventory/tasks.py:71-104 | the log names the subnet, then has two lines per live host in order: that it answered, and that it was known or under which name it was added |
| `DiscoveryRecords.CompletedRunAskedAll` | apps/inventory/tasks.py:80-106 | a completed run met no ping error, and no DNS error for a host whose name it had to ask |
| `DiscoveryRecords.FailedRunLogsCause` | apps/inventory/tasks.py:107-110 | a failed run's last line is the error of the subnet, of one of its hosts, or of a rejected insert |
| `DiscoveryRecords.FailedSweepStops` | apps/inventory/tasks.py:80-110 | a sweep that fails at a host treated the hosts before it as usual, added nothing for it, and asked none after it; it is counted and logged as alive iff its ping answered |
| `DiscoveryRecords.BadSubnetFails` | apps/inventory/tasks.py:75-110 | a subnet that cannot be parsed ends FAILED with nothing found, the error logged, and the inventory as it was |
| `DiscoveryRecords.RunLeavesRow` | apps/inventory/tasks.py:112-116 | the job's row gets its outcome, both times, both counters and the log; its subnet and task id, and every other job, stay |
| `DiscoveryProofs.SubnetCovered` | apps/inventory/tasks.py:77-106 | the same for an IPv4 subnet: an address is in the inventory afterwards iff it was, or is a live host of the masked subnet |
| `DiscoveryProofs.FoundIsBounded` | apps/inventory/tasks.py:77-85 | a run over an IPv4 subnet finds at most its number of hosts |
| `DiscoveryProofs.SilentSubnetCompletes` | apps/inventory/tasks.py:80-106 | if SNMP and DNS give nothing, nothing raises and no fallback name is taken, every subnet completes, and a second run over the same live hosts completes and adds nothing |
| `DiscoveryProofs.RunAgain` | apps/inventory/tasks.py:88-90 | once every live host is known a run completes and adds nothing, whatever SNMP and DNS say |
| `DiscoveryProofs.FinishedRowAmongOthers` | apps/inventory/views.py:64-71 | a finished discovery row has the worker's status, times, counters and log and the request's task id in every interleaving |
| `DiscoveryRuns.DevicesAreConserved` | apps/inventory/tasks.py:80-116 | with any number of interleaved jobs and no other device writer: devices = initial + all `added` counters + devices created and not yet counted; hostnames and addresses stay unique |
| `DiscoveryRuns.DevicesFromEmpty` | apps/inventory/tasks.py:80-116 | from the empty platform, every device is one that some job counts or is about to count |
| `DiscoveryRuns.PlayAccounts` | apps/inventory/tasks.py:80-116 | interference never spoils a job's own account of found, added, skipped and log lines |
| `DiscoveryRuns.CreateSucceedsExactly` | apps/inventory/tasks.py:88-102 | the create after the check succeeds iff name and address are still free and the name fits; a lost race changes nothing and fails the job |
| `DiscoveryRuns.WholeIsSolo` | apps/inventory/tasks.py:63-118 | a job's single steps, run alone, do exactly what the whole task does |
| `ProvisioningRuns.FilterExactly` | apps/provisioning/tasks.py:25 | the filter drops the blank lines and nothing else: the text's lines are the pushed ones, none of them blank, interleaved with blank lines |
| `ProvisioningTasks.ExecuteProvisioningJob` | apps/provisioning/tasks.py:12-85 | the task body has exactly the effect and result of `RanJob`, crash paths included |
| `ProvisioningTasks.PushToDevices` | apps/provisioning/tasks.py:28-70 | the per-device loop does what `PushAll` says: a failed push is recorded and the loop goes on |
| `ProvisioningTasks.CreateProvisioningJob` | apps/provisioning/views.py:44-53 | the request stores a PENDING job that has produced nothing, when its references exist, then only its task id |
| `ProvisioningRuns.FinalStatusMeans` | apps/provisioning/tasks.py:72-80 | SUCCESS iff every push succeeded (the empty set included), FAILED iff there was a device and none succeeded, PARTIAL iff some did and some did not |
| `ProvisioningRuns.RecordsAreInserts` | apps/provisioning/tasks.py:48-70 | in any run that deletes neither the job nor a device its records name, a job's results and push entries are those stored for it, in order |
| `ProvisioningRuns.JobAmongOthers` | apps/provisioning/tasks.py:26-85 | in every interleaving with the request and other statements, deletion of other devices included, a finished job has stored results and audit entries that match one to one in order, each telling how the push to its device ended (success, output, error), the status its pushes call for, and its task id |
| `ProvisioningRuns.JobAlone` | apps/provisioning/tasks.py:26-85 | the same records and row for a finished job with nothing in between |
| `ProvisioningRuns.RanJobFinishesExactly` | apps/provisioning/tasks.py:16-85 | a run alone finishes iff its template is there and renders, with success = the number of devices whose push succeeded and success + failed = total = number of devices; otherwise it answers why, the job stays RUNNING and nothing else changed |
| `ProvisioningRuns.LostAtFirstMissing` | apps/provisioning/tasks.py:28-70 | when a device has gone, the devices before it are pushed and recorded, and the task is lost there |
| `AclTemplate.RendersExactly` | apps/provisioning/jinja_renderer.py:7-22 | rendering succeeds iff no variable but the optional `port` and `apply_to` is missing |
| `AclTemplate.ErrorNamesMissing` | apps/provisioning/jinja_renderer.py:15-22 | the error of a failed rendering names a variable that is missing in an ACL, its rules or its binding, or `acls` itself |
| `AclProofs.RenderIsLines` | apps/provisioning/config_templates/acl.j2:1-17 | under the trimming settings the text is exactly the expected lines: per ACL its head, one line per rule, the final deny and a separator, then the interface blocks |
| `AclProofs.FilterKeepsLines` | apps/provisioning/tasks.py:25 | splitting the text and dropping blank lines gives back those lines |
| `AclRoundTrip.RenderingReadsBack` | apps/provisioning/config_templates/acl.j2:2-17 | the pushed lines read back as the same rules in order plus one final deny per ACL, and exactly the `apply_to` bindings |
| `AclRoundTrip.RenderingKeepsMeaning` | apps/provisioning/config_templates/acl.j2:2-11 | first-match evaluation of any packet equals that of the given rules with default deny; with a repeated name the first ACL of that name decides |

## Left out

- SSH, ping, SNMP, DNS, the clock and Celery dispatch: foreign, modelled as oracles or arbitrary scheduling.
- The general Jinja2 engine, the other four templates and syntax errors in template bodies: only what acl.j2 needs is printed directly; for provisioning jobs rendering is an oracle.
- Attributes of objects printed by the ACL template: every variable is already text.
- `run_compliance_check`, the regular expressions and the built-in rules: one more push-like loop over rules; only its inserts are statements here.
- `check_device_reachability` and its periodic dispatcher: one status write each, covered as a statement.
- Patching from the stored `diff` column: it is cut at 10000 characters and its joined lines are ambiguous without a final newline, so diff soundness is about the list of printed lines.
- Length limits of columns other than `Device.hostname`, and the content checks of serializers.
- Instance labels that are no address, IPv6 instances, and the concurrent creation of one fingerprint by two webhooks.
- The admin site: its edits by hand are no statements of the model; deletions of rules, templates, jobs and snapshots are, but the theorems about flags and reports exclude the deletion of a single snapshot, and no statement deletes a report, an alert or a discovery job.
- The generic PATCH of an alert, and edits of devices, templates and rules through the generic views.
- IPv6 subnets: the discovery theorems hold for any list of hosts, but the enumeration is IPv4 only; how the subnet text is parsed is an oracle.
- Columns no property depends on: credentials, actors, durations, descriptions, the template name and variables inside a push audit entry.
- Status against results after a device of the job is deleted: its results cascade away, so alignment is stated while those devices stay.
- Users, permissions, tokens, throttling, pages, Docker, Prometheus, Grafana and Ansible.
