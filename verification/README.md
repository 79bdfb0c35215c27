# Verification of Capture-HPC

Capture-HPC drives virtual machines that visit suspicious URLs and reports which of them changed the system. This
project models the parts of it that carry an algorithm or a protocol, and proves what they keep.

- **The scheduler.** The server batches URLs into groups, hands groups to clients, splits a malicious divide-and-conquer
  (`dac`) group in half, retries a failed group once, and recovers from every kind of failure by letting client, machine
  and checker notify each other. `UrlGroups`, `Lifecycle` and `Scheduler` state what each handler does as a function of
  the server's state; `CaptureServer` is a class with the fields of the source's objects whose loops and mutually
  recursive setters are proved against these functions. `Holding` proves what holds of the clients in every run.
  `GroupLedger` and `Conservation` prove exactly when no URL is lost or duplicated, `OneAlgorithm` a protocol under which
  that is so, `Isolation` that verdicts are right. `Dispatch`, `Budgets`, `DispatchBounds` and `VisitCount` bound how often
  groups are visited and how deep the deque gets, and `WorstCase` has the runs that attain the bounds. `Outcomes` states
  what every message leaves behind, field by field, and `Quarantine` that a machine is reverted after a malicious visit.
- **The worker pool** (`WorkerPool`). The dispatch loop of the browser plugins and its worker threads, as a state machine
  over single accesses to flags and auto-reset events, for any number of workers and URLs (the source has 60 workers).
- **The process forest** (`StateChanges`, `ProcessForest`, `ForestRuns`, `Reports`, `StateChangeHandler`). State changes
  are attributed to a forest of processes, read out in order and split into reports.
- **The event queue** (`EventRecords`, `KernelQueue`, `MonitorDriver`). Two kernel drivers queue records of variable
  length behind a timeout and drain them into a bounded buffer, which user space walks by computed offsets.
- **The archive repair** (`ZipFormat`, `ZipRepair`, `Zippa`). The walk over a truncated ZIP file and the directory that
  is rebuilt for it.
- **The codecs** (`Base64`, `Base64Buffers`, `FileTransfer`, `UrlCoding`, `UrlWire`). Base64 with chunked upload, percent
  coding of URLs, and the URLs that the server sends.

`Prelude` and `Bytes` hold shared definitions. Objects that refer to each other are held in tables by id, except for the
process trees, which are linked nodes.

Where the code and its comments or intentions differ, the model follows the code:

- The network-reset flag of a failed group starts as true, so every first error of a group that is not split is retried,
  whatever its code (UrlGroupsController.java, line 166).
- Error notifications are repeated on purpose. They split a group each time if it is malicious, dac and larger than one,
  which a held group becomes when its client changes its algorithm in the middle of a visit. URLs are duplicated exactly
  when such a client goes down (`RunConservesExactly`); `DuplicateReached` has a run from the start that does so. The
  groups are then also handed out more often and pile up deeper than without, by exactly known amounts.
- The server lets a client connect to a machine that still waits for its revert, and gives it a group
  (`ReusedUnreverted`).
- A client whose option messages fail is marked as waiting although it was just cut off (`ConnectFleet`).
- With more URLs in a group than worker threads, completions can be lost and the dispatch loop then never ends.
- A rebuilt ZIP directory copies the length of the extra field but not the field itself, so it can be walked only when
  no entry has one. An archive whose last entry ends exactly at the end of the file loses that entry in the repair
  (`LastEntryLost`, `OneEntryLost`).
- The URL encoders write a space as `+`, which the decoder does not turn back, and the decoder drops characters of four
  UTF-8 bytes (`WireTheorem`).
- The report for a process also selects a tree by the parent of its root, so a tree can be reported twice
  (`ReportedTwice`).

## Model

| member | source | states |
|---|---|---|
| Conservation.ConservationTheorem | Server/src/main/java/pl/nask/hsn/capture/server/UrlGroupsController.java:64-189 | In every state of a run of takes, visit and system events, socket and send failures, checker timeouts, reverts and connects up to which no client went down holding a group that is malicious, dac and larger than one: each admitted URL is in exactly one of the URL queue, one queued or held group, or one group that settled it; queued and held groups are non-empty, duplicate-free and disjoint, and no queued one is split by an error; settled URLs are visited or failed. Also the lifecycle invariant of the fleet. |
| Conservation.RunConservesExactly | Server/src/main/java/pl/nask/hsn/capture/server/UrlGroupsController.java:64-189 | The exact condition of conservation, for every run from the start: all its states conserve their URLs if and only if no send failure and no timeout meets a client that holds a group which is malicious, dac and larger than one. Arming a group is allowed as long as its visit ends with one notification. |
| Conservation.StepConservesExactly | Server/src/main/java/pl/nask/hsn/capture/server/Client.java:155-186 | The exact condition for one handler: after the step some ledger of the URLs is right if and only if the step is not a send failure or a timeout that takes down a client holding an armed group (malicious, dac, several URLs). It can be checked before the step. |
| Conservation.DuplicatesDuplicate | Server/src/main/java/pl/nask/hsn/capture/server/Client.java:155-186 | The failing half holds in every run, without the ledger: such a failure always leaves some URL in two different queued groups. |
| Conservation.StepKeeps | Server/src/main/java/pl/nask/hsn/capture/server/UrlGroupsController.java:99-189 | Each of the thirteen atomic handlers keeps the invariant, with the ledger it leads to, unless it is such a failure; and held groups stay unarmed until a step arms one. |
| Holding.StepHeld | Server/src/main/java/pl/nask/hsn/capture/server/Client.java:429-506 | In every run and for every handler: the fleet stays sound, no group is held by two clients, and the groups held afterwards are those held before without the ones whose visit ended or whose client went down, and with the one taken. |
| Conservation.InvConserves | Server/src/main/java/pl/nask/hsn/capture/server/UrlGroupsController.java:64-189 | The ledger invariant implies the statement of conservation that mentions no ledger. |
| Conservation.TimeoutFails | Server/src/main/java/pl/nask/hsn/capture/server/VirtualMachinesStateChecker.java:78-89 | A checker timeout, two or three error notifications together, fails a held group that is not armed (malicious, dac, several URLs) once: it splits nothing and pushes the group if and only if it had not failed before. |
| Conservation.FailedSendFails | Server/src/main/java/pl/nask/hsn/capture/server/Client.java:499-502 | A send that fails, with the notifications of the disconnect inside it, does the same to a group that is not armed. |
| GroupLedger.FailHeldFails | Server/src/main/java/pl/nask/hsn/capture/server/Client.java:155-186 | For a group that is not armed the two error notifications of a disconnect are one failure: no split, at most one push, the group's members and the other groups unchanged. |
| GroupLedger.NotifySplits | Server/src/main/java/pl/nask/hsn/capture/server/UrlGroupsController.java:109-132 | A visited or failed dac group that is malicious and has several URLs is replaced on top of the deque by two fresh groups, second half first; all other groups and the URLs outside it are untouched. |
| GroupLedger.SplitKeepsBalance | Server/src/main/java/pl/nask/hsn/capture/server/UrlGroupsController.java:109-163 | A split moves every URL of the group into exactly one of the halves and nothing else. |
| GroupLedger.FailedKeepsBalance | Server/src/main/java/pl/nask/hsn/capture/server/UrlGroupsController.java:134-187 | A failed group is either back on the deque with all its URLs or settles them. |
| GroupLedger.FinishedKeepsBalance | Server/src/main/java/pl/nask/hsn/capture/server/UrlGroupsController.java:105-108 | A visited group that is not split settles its URLs. |
| GroupLedger.BatchKeepsBalance | Server/src/main/java/pl/nask/hsn/capture/server/UrlGroupsController.java:66-87 | A batch taken from the URL queue becomes one new group with exactly those URLs. |
| OneAlgorithm.ProperRunsConserve | Server/src/main/java/pl/nask/hsn/capture/server/Client.java:196-255 | When all clients visit with one algorithm and report results only for visits they started, no client of any run goes down holding an armed group, so conservation holds whatever fails. |
| OneAlgorithm.MixedAlgorithmsDuplicate | Server/src/main/java/pl/nask/hsn/capture/server/Client.java:261-288 | The counterexample with mixed algorithms: from any state of any run in which a client that speaks holds several URLs, the three messages start (sequential), system event, start (dac) arm the group, and a send failure then leaves one URL in two different queued groups. |
| Conservation.ArmedFailureDuplicates | Server/src/main/java/pl/nask/hsn/capture/server/Client.java:155-186 | What a disconnect does to an armed group: the group is split twice, four halves are pushed, and each URL is in two of them. |
| Isolation.IsolationTheorem | Server/src/main/java/pl/nask/hsn/capture/server/UrlGroupsController.java:64-132 | Isolation: for any set M and any run of dac clients whose visits report malicious exactly when the group meets M, for any number of clients, order and failures: no URL outside M is ever called malicious, and when everything is drained each URL has exactly the right verdict, except in groups that failed at least twice. |
| VisitCount.ErrorFreeIsolation | Server/src/main/java/pl/nask/hsn/capture/server/UrlGroupsController.java:64-132 | Without errors the drained verdicts are exactly right for all URLs. |
| VisitCount.VisitTheorem | Server/src/main/java/pl/nask/hsn/capture/server/UrlGroupsController.java:89-132 | The visits that an initial group causes in an error-free run: exactly the number given by the recursion over its halves once drained, and never more than min(2n - 1, 1 + 2k ceil(log2 n)) for k malicious URLs among n. |
| VisitCount.VisitsLogarithmic | Server/src/main/java/pl/nask/hsn/capture/server/UrlGroupsController.java:109-132 | The recursion of visits is at most 1 + 2k ceil(log2 n). |
| VisitCount.VisitsLinear | Server/src/main/java/pl/nask/hsn/capture/server/UrlGroupsController.java:109-132 | The recursion of visits is at most 2n - 1. |
| DispatchBounds.DispatchTheorem | Server/src/main/java/pl/nask/hsn/capture/server/UrlGroupsController.java:134-187 | Termination of every run, whatever clients report and whatever fails: the URLs of an initial group of n are handed out, whole or in parts, at most W(n) times, where W(1) = 2 and W(n) = 2 + 3(W(floor(n/2)) + W(ceil(n/2))); and at most 4n - 2 times up to the first failure of a client that holds an armed group. |
| DispatchBounds.WorstPolynomial | Server/src/main/java/pl/nask/hsn/capture/server/UrlGroupsController.java:134-187 | W(n) is at most 2.4 times 6 to the power ceil(log2 n), so polynomial in n. |
| DispatchBounds.WorstExceeds | Server/src/main/java/pl/nask/hsn/capture/server/UrlGroupsController.java:134-187 | W(n) is above 4n - 2 for every n above one: the linear bound needs its condition. |
| WorstCase.BoundAttained | Server/src/main/java/pl/nask/hsn/capture/server/VirtualMachinesStateChecker.java:30-89 | Both dispatch bounds are attained: for every n a run from the start, with one machine and one group in work at a time, hands the only initial group out exactly W(n) times, more than 4n - 2 if n is above one, and one in which no client goes down holding an armed group exactly 4n - 2 times. |
| WorstCase.DuplicateReached | Server/src/main/java/pl/nask/hsn/capture/server/Client.java:155-288 | For every n above one a run from the start leads to a state in which a URL is in two queued groups, so that conservation fails. |
| DispatchBounds.DepthTheorem | Server/src/main/java/pl/nask/hsn/capture/server/UrlGroupsController.java:89-132 | With one group in work at a time the LIFO deque of every run, errors and retries included, never holds more than 5 ceil(log2 groupSize) + 1 groups, and no more than ceil(log2 groupSize) + 1 up to the first failure of a client that holds an armed group. |
| WorstCase.DepthAttained | Server/src/main/java/pl/nask/hsn/capture/server/UrlGroupsController.java:89-132 | Both depth bounds are attained, for every group size, by runs from the start; the larger one exceeds ceil(log2 groupSize) + 1 for every size above one. |
| DispatchBounds.RunKnown | Server/src/main/java/pl/nask/hsn/capture/server/UrlGroupsController.java:64-189 | In every state of every run, also after duplications: references resolve, a client's state fits what it holds, a waiting machine has exactly one revert item, no group is queued or held twice or both, and the URLs of every group are registered. This is what the methods of `CaptureServer` require. |
| DispatchBounds.CeilLog2Least | Server/src/main/java/pl/nask/hsn/capture/server/UrlGroupsController.java:114-131 | The logarithm used is the least exponent whose power of two reaches n. |
| Dispatch.StepRefines | Server/src/main/java/pl/nask/hsn/capture/server/UrlGroupsController.java:99-189 | Every handler in every run is at most two moves of a small machine that only pops, admits, requeues, closes and halves jobs; it halves a job more than once only in the failure of an armed group. The bounds are proved there. |
| Lifecycle.ClientDownSound | Server/src/main/java/pl/nask/hsn/capture/server/Client.java:429-463 | Taking a client down keeps the fleet sound: references, revert queue, attachment and client states. |
| Lifecycle.VmWaitsSound | Server/src/main/java/pl/nask/hsn/capture/server/VirtualMachine.java:99-118 | Telling a machine to wait for its revert keeps the fleet sound. |
| Lifecycle.RevertedSound | Server/src/main/java/pl/nask/hsn/capture/server/VBoxServer.java:91-102 | Finishing a revert and removing its item keeps the fleet sound. |
| CaptureServer.CaptureServer.SetClientState | Server/src/main/java/pl/nask/hsn/capture/server/Client.java:429-463 | The recursive setter terminates and does exactly what the state machine says a client's transition does to clients, machines, revert queue and groups. After a disconnect from any fleet whose revert queue is in order, the client is detached and its machine waits for its revert with exactly one item in the queue. |
| CaptureServer.CaptureServer.SetVmState | Server/src/main/java/pl/nask/hsn/capture/server/VirtualMachine.java:99-118 | The recursive setter of a machine terminates; waiting for a revert takes the live client down first, and the revert is queued once. |
| CaptureServer.CaptureServer.Disconnect | Server/src/main/java/pl/nask/hsn/capture/server/Client.java:155-186 | The disconnect, called from the setters and calling them, equals the non-recursive state change and the two notifications of the held group, and leaves the machine without client and with exactly one revert item. |
| CaptureServer.CaptureServer.ProcessWorkItem | Server/src/main/java/pl/nask/hsn/capture/server/VBoxServer.java:91-102 | One revert as one step: the first machine of the queue ends in the outcome, its item is gone, the rest of the server is unchanged. |
| CaptureServer.CaptureServer.AddVirtualMachine | Server/src/main/java/pl/nask/hsn/capture/server/VBoxServer.java:84-89 | A new machine waits for a revert that is queued. |
| CaptureServer.CaptureServer.ParseConnect | Server/src/main/java/pl/nask/hsn/capture/server/ClientEventController.java:58-79 | A client that connects to a machine ends up waiting on it and sets it running, also when sending the options failed and disconnected it in between. |
| CaptureServer.CaptureServer.SetMalicious | Server/src/main/java/pl/nask/hsn/capture/server/UrlGroup.java:195-227 | The loops over a group's URLs set exactly the verdicts of the function, which `VerdictTheorem` states URL by URL. |
| CaptureServer.CaptureServer.SetUrlGroupState | Server/src/main/java/pl/nask/hsn/capture/server/UrlGroup.java:92-120 | Entering a state counts errors, moves every URL of the group and no other to its new state and code, and then has the controller's reaction. |
| CaptureServer.CaptureServer.SplitGroup | Server/src/main/java/pl/nask/hsn/capture/server/UrlGroupsController.java:109-132 | The splitting loop puts the first half under the second on the deque, with both halves in order. |
| CaptureServer.CaptureServer.CopyError | Server/src/main/java/pl/nask/hsn/capture/server/UrlGroupsController.java:165-174 | The loop writes the group's error code to each URL and leaves the retry flag true for every group. |
| CaptureServer.CaptureServer.Update | Server/src/main/java/pl/nask/hsn/capture/server/UrlGroupsController.java:99-189 | The controller's reaction to a state change, with its branches for visited, split, retried and given up. |
| CaptureServer.CaptureServer.TakeUrlGroup | Server/src/main/java/pl/nask/hsn/capture/server/UrlGroupsController.java:64-92 | A group comes off the deque, or a batch of at most the group size becomes a new group. |
| CaptureServer.CaptureServer.Retrieve | Server/src/main/java/pl/nask/hsn/capture/server/Client.java:512-525 | A waiting client takes a group and is sent it; a failed send fails the group again. |
| CaptureServer.CaptureServer.SetVisitingUrlGroup | Server/src/main/java/pl/nask/hsn/capture/server/Client.java:483-506 | The client holds the group and awaits the visit when the send succeeds; when it fails, the disconnect and the failed send together fail the group. |
| CaptureServer.CaptureServer.ParseSystemEvent | Server/src/main/java/pl/nask/hsn/capture/server/Client.java:196-255 | A system event during a visit changes nothing for a bulk group, ends the visit and splits for a dac group of several URLs, and flags the group otherwise; outside a visit it changes nothing. |
| CaptureServer.CaptureServer.ParseVisitStart | Server/src/main/java/pl/nask/hsn/capture/server/Client.java:261-288 | A start message sets the client's algorithm, the group's algorithm and state, its URLs' states and the client's state, and nothing else; without a held group only the client's algorithm. |
| CaptureServer.CaptureServer.ParseVisitFinish | Server/src/main/java/pl/nask/hsn/capture/server/Client.java:289-338 | A finish message is handled as the state machine says: `FinishOutcome` states what becomes of the group and its URLs, `FinishFleet` what becomes of client and machine. |
| CaptureServer.CaptureServer.ParseVisitError | Server/src/main/java/pl/nask/hsn/capture/server/Client.java:339-410 | An error report is handled as the state machine says: `FailedReportOutcome`, `ToleratedReportOutcome` and `ErrorFleet` state what that is. |
| CaptureServer.CaptureServer.CheckerTimeout | Server/src/main/java/pl/nask/hsn/capture/server/VirtualMachinesStateChecker.java:30-69 | A timeout fails the held group, detaches and disconnects the client, queues the revert once, and changes nothing else; the recursion it starts terminates. |
| CaptureServer.CaptureServer.SetError | Server/src/main/java/pl/nask/hsn/capture/server/VirtualMachinesStateChecker.java:78-89 | A machine whose client holds a group gets that group's error code set and one error notification; any other machine leaves the groups alone. |
| Outcomes.FinishFleet | Server/src/main/java/pl/nask/hsn/capture/server/Client.java:289-338 | After a finish message the client is disconnected and its machine, detached, waits for a queued revert if the group was flagged before, the message says malicious, or every visit is followed by a revert; otherwise the client waits on its running machine and nothing is queued. Nobody else changes. |
| Outcomes.ErrorFleet | Server/src/main/java/pl/nask/hsn/capture/server/Client.java:339-425 | The same after an error report, where every code but the four tolerated ones also takes the client down, and an earlier flag does not. |
| Outcomes.SystemEventFleet | Server/src/main/java/pl/nask/hsn/capture/server/Client.java:196-255 | A system event takes the client down and its machine to the revert exactly if it visits several URLs with dac; else clients and machines are untouched. |
| Outcomes.SendFailureFleet | Server/src/main/java/pl/nask/hsn/capture/server/Client.java:118-186 | A failing send takes the client down and queues one revert of its machine. |
| Outcomes.TimeoutFleet | Server/src/main/java/pl/nask/hsn/capture/server/VirtualMachinesStateChecker.java:24-76 | A timeout takes the machine's client down, if there is one, and queues the revert. |
| Outcomes.ConnectFleet | Server/src/main/java/pl/nask/hsn/capture/server/ClientEventController.java:55-79 | A client that connects waits on a running machine; one whose option messages failed is closed and unknown to its machine, which has a revert queued and yet runs. |
| Outcomes.RevertFleet | Server/src/main/java/pl/nask/hsn/capture/server/VBoxServer.java:91-102 | A revert ends the first queued machine in the outcome and takes it off the queue. |
| Outcomes.VerdictTheorem | Server/src/main/java/pl/nask/hsn/capture/server/UrlGroup.java:195-227 | Verdicts, URL by URL: under bulk malicious exactly if the URL has state changes, or like the group if none are reported; else all benign for a benign group, the single URL malicious, several left open; other URLs untouched. |
| Outcomes.FinishOutcome | Server/src/main/java/pl/nask/hsn/capture/server/Client.java:289-338 | After a finish message: each URL's verdict by those rules, its code if one other than zero is reported, visited without a code and failed with one; the group's state and flag; and a dac group of several that is malicious is split into its fresh halves. |
| Outcomes.FailedReportOutcome | Server/src/main/java/pl/nask/hsn/capture/server/Client.java:361-387 | After an error report with a code that is not tolerated: verdicts by those rules, every URL failed with that code, the group's error counted, and the group back on top of the deque after its first failure, nowhere after a later one, or split. |
| Outcomes.ToleratedReportOutcome | Server/src/main/java/pl/nask/hsn/capture/server/Client.java:388-408 | With a tolerated code the visit counts; where the verdict is left open, writing a URL's state changes to its log marks it malicious. |
| Outcomes.SystemEventOutcome | Server/src/main/java/pl/nask/hsn/capture/server/Client.java:196-255 | What a system event does to the group and its URLs in each of its cases. |
| Outcomes.StartOutcome | Server/src/main/java/pl/nask/hsn/capture/server/Client.java:261-288 | A start message changes exactly the algorithms, the group's and its URLs' states and the client's state. |
| Outcomes.SendFailureOutcome | Server/src/main/java/pl/nask/hsn/capture/server/Client.java:155-186 | A lost client's group: two errors counted, every URL failed with the code of a lost connection, verdicts cleared to benign unless the group was flagged, requeued after a first failure. |
| Outcomes.TimeoutOutcome | Server/src/main/java/pl/nask/hsn/capture/server/VirtualMachinesStateChecker.java:78-89 | A timeout's group: three errors counted, and the code of a lost connection in the end. |
| Outcomes.LostTakeFails | Server/src/main/java/pl/nask/hsn/capture/server/Client.java:499-502 | A group that could not be sent: three errors counted, and the code of a process error in the end. |
| Outcomes.TakeOutcome | Server/src/main/java/pl/nask/hsn/capture/server/UrlGroupsController.java:64-92 | A client is given the head of the deque, or else a fresh group of its batch, and nothing else changes. |
| Outcomes.BatchOutcome | Server/src/main/java/pl/nask/hsn/capture/server/UrlGroupsController.java:66-82 | A batch has the configured size, or what is there, or one URL if the size is zero. |
| Outcomes.KnownCodes | Server/src/main/java/pl/nask/hsn/capture/server/Url.java:287-300 | The server keeps exactly the codes of its table and replaces others; none of them becomes the code of success. |
| CaptureServer.CodesTheorem | Server/src/main/java/pl/nask/hsn/capture/server/Client.java:296-311 | Of several items for one URL the last one's code is recorded; a finish event's zeroes do not count. |
| Quarantine.MaliciousVisitTheorem | Server/src/main/java/pl/nask/hsn/capture/server/Client.java:315-327 | In every run whose connects succeed and go to machines that do not wait for a revert: after a visit that ended as malicious the machine gets no group before it has been reverted. |
| Quarantine.QuarantineTheorem | Server/src/main/java/pl/nask/hsn/capture/server/Client.java:155-186 | The same after anything that took a client down. |
| Quarantine.NoGroupWithoutConnect | Server/src/main/java/pl/nask/hsn/capture/server/Client.java:512-525 | In every run, without conditions: a machine on which no client can be reached gets no group until a client connects to it. |
| Quarantine.NoGroupUnreverted | Server/src/main/java/pl/nask/hsn/capture/server/VirtualMachine.java:99-118 | If moreover it waits for its revert and no client connects to a waiting machine, it is reverted before. |
| Quarantine.ReusedUnreverted | Server/src/main/java/pl/nask/hsn/capture/server/ClientEventController.java:55-79 | The input that needs the condition, which the server does not check: after a malicious visit a client connects to the waiting machine and is given the next group there. |
| WorkerPool.SafetyTheorem | Client/ApplicationPlugins/InternetExplorer/Application_InternetExplorer.cpp:45-68 | For any interleaving of dispatcher and workers, any number of workers and URLs: when the dispatch loop exits, each URL was handed to one worker and visited by it exactly once, no worker is busy, no event is signalled and no worker is in the middle of a round, which is what the next call relies on. |
| WorkerPool.LossTheorem | Client/ApplicationPlugins/InternetExplorer/Application_InternetExplorer.cpp:145-171 | Exactly when completions can be lost: with at least one worker, some run loses one if and only if there are more URLs than workers. The proof constructs the losing run for every such pair. |
| WorkerPool.LossIsForEver | Client/ApplicationPlugins/InternetExplorer/Application_InternetExplorer.cpp:145-171 | After a lost completion the loop never exits, in any continuation. |
| WorkerPool.ProgressTheorem | Client/ApplicationPlugins/InternetExplorer/Application_InternetExplorer.cpp:145-171 | With at most as many URLs as workers, counted, signalled, running and unassigned URLs add up to all of them in every reachable state, and before the exit some step other than a time-out is possible. |
| WorkerPool.LengthTheorem | Client/ApplicationPlugins/InternetExplorer/Application_InternetExplorer.cpp:145-171 | A call with n URLs and w workers takes at most (8n + 1)(w + 3) steps besides w + 2 for each time-out, so the possible steps lead to the exit. |
| WorkerPool.StepOutstanding | Client/ApplicationPlugins/InternetExplorer/Application_InternetExplorer.cpp:145-171 | A step loses a completion exactly when a signal merges with a pending one or is judged while the flag is up again. |
| WorkerPool.StepInv | Client/ApplicationPlugins/InternetExplorer/Application_InternetExplorer.cpp:45-68 | Every single access by any thread keeps the invariant: due URLs are owned and unvisited, handed-out URLs are due or visited once by their owner, and counted plus outstanding completions never exceed the URLs handed out. |
| ProcessForest.AddChangeRefines | Server/src/main/java/pl/nask/hsn/capture/server/StateChangeHandler.java:37-90 | The recursive first-match insertion always succeeds and equals a write into the preorder outline: at the first row whose process is the owner (after its subtree for a process), or a new root at the end, real or assumed. |
| ProcessForest.OutlinesInjective | Server/src/main/java/pl/nask/hsn/capture/server/ProcessStateChange.java:57-83 | Different forests have different outlines, so the outline says all about the insertion. |
| ProcessForest.AddToFirstInserts | Server/src/main/java/pl/nask/hsn/capture/server/ProcessStateChange.java:57-83 | The recursive search of a list of siblings at any depth fails exactly when no row has the owner's id, and else writes at the first such row. |
| ForestRuns.ForestTheorem | Server/src/main/java/pl/nask/hsn/capture/server/StateChangeHandler.java:37-90 | After any run of insertions: changes and children hang under the process they name; the forest holds exactly the inserted changes and one assumed process for each process not named before its first change; the processes known are those named. |
| ForestRuns.NestedSort | Server/src/main/java/pl/nask/hsn/capture/server/ProcessStateChange.java:89-115 | Sorting again at every level equals one stable sort of the flat traversal (own changes, child subtrees, then the process). |
| ForestRuns.AssumedTheorem | Server/src/main/java/pl/nask/hsn/capture/server/StateChangeHandler.java:57-87 | The first change of an unknown process plants a tree for it: created by CaptureClient.exe with id 0, at the time and under the name of the change, holding the change. |
| ForestRuns.OrderTheorem | Server/src/main/java/pl/nask/hsn/capture/server/ProcessStateChange.java:89-115 | Of two changes in a tree's report the earlier one comes first; at one time the type that is greater at the first difference, or goes on where the other ends, comes first. |
| ForestRuns.ReadingTheorem | Server/src/main/java/pl/nask/hsn/capture/server/ProcessStateChange.java:89-115 | A tree's report is ordered by time and then by descending type, holds each change as often as the tree, and keeps the order of ties of the flat traversal. |
| StateChanges.StableSortUnique | Server/src/main/java/pl/nask/hsn/capture/server/ProcessStateChange.java:99-112 | There is only one stable sort under the comparator, so the library's algorithm does not matter. |
| StateChanges.StableSortIsStable | Server/src/main/java/pl/nask/hsn/capture/server/ProcessStateChange.java:99-112 | The sort of the model orders its input and keeps the order of ties. |
| StateChanges.LeqTotal | Server/src/main/java/pl/nask/hsn/capture/server/ProcessStateChange.java:99-112 | The comparator is total, and ties are exactly equal time and type; `OrderTheorem` states its direction. |
| StateChanges.StringLeqIs | Server/src/main/java/pl/nask/hsn/capture/server/ProcessStateChange.java:105-107 | The comparison of types is that of their first difference. |
| Reports.PartitionTheorem | Server/src/main/java/pl/nask/hsn/capture/server/StateChangeHandler.java:110-150 | The exact condition for the reports, on ids and parents: for distinct root ids every tree is in exactly one of the per-process reports and the remainder if and only if no root's process is listed twice, every root whose parent is listed comes after the root of that parent, and 0 is not listed for a single tree of another process. |
| Reports.OwnFirstSelects | Server/src/main/java/pl/nask/hsn/capture/server/StateChangeHandler.java:110-123 | That guard on one listed id holds exactly when the tree selected for it, if any, is its own. |
| Reports.ReportedTwice | Server/src/main/java/pl/nask/hsn/capture/server/StateChangeHandler.java:110-123 | The input: process 7 created by 5 and then process 5 created by 1; the reports of 5 and of 7 both show the tree of 7, and that of 5 is shown nowhere. |
| Reports.NoParentListed | Server/src/main/java/pl/nask/hsn/capture/server/StateChangeHandler.java:110-123 | The condition holds when no id is listed twice and neither 0 nor a root's parent id is listed. |
| Reports.ReportInOrder | Server/src/main/java/pl/nask/hsn/capture/server/StateChangeHandler.java:110-123 | A process's report goes forward in time. |
| Reports.RemainderInOrder | Server/src/main/java/pl/nask/hsn/capture/server/StateChangeHandler.java:141-150 | The remainder lists the trees in the order in which they were planted. |
| Reports.ReportTheorem | Server/src/main/java/pl/nask/hsn/capture/server/StateChangeHandler.java:110-150 | Then reports and remainder together hold every change of the forest with its multiplicity. |
| Reports.RunReports | Server/src/main/java/pl/nask/hsn/capture/server/StateChangeHandler.java:37-150 | For a forest built from changes that plant no id twice: each of them and each assumed process is reported exactly once in all. |
| Reports.RootsDistinct | Server/src/main/java/pl/nask/hsn/capture/server/StateChangeHandler.java:37-90 | The roots of a built forest have distinct ids exactly when no two changes whose owner was not named before bring in the same process id. |
| StateChangeHandler.ProcessStateChange.AddStateChange | Server/src/main/java/pl/nask/hsn/capture/server/ProcessStateChange.java:57-83 | The in-place recursive insertion over linked nodes changes the tree as the function does, or nothing. |
| StateChangeHandler.ProcessStateChange.GetAllStateChanges | Server/src/main/java/pl/nask/hsn/capture/server/ProcessStateChange.java:89-115 | The recursive read-out of linked nodes returns the tree's report, whose order `OrderTheorem` states, and changes nothing. |
| StateChangeHandler.StateChangeHandler.AddStateChange | Server/src/main/java/pl/nask/hsn/capture/server/StateChangeHandler.java:37-90 | The handler's loop over the trees with its break, the new tree and the assumed process; it always reports success. |
| StateChangeHandler.StateChangeHandler.GetStateChanges | Server/src/main/java/pl/nask/hsn/capture/server/StateChangeHandler.java:110-123 | The loop that selects the tree of a process, with the fallback for process 0. |
| StateChangeHandler.StateChangeHandler.GetRemainderStateChanges | Server/src/main/java/pl/nask/hsn/capture/server/StateChangeHandler.java:141-150 | The loop returns the reports of exactly the trees whose process is not listed, in order. |
| KernelQueue.DrainTheorem | Client/KernelDrivers/CaptureKernelDrivers/FileMonitor/CaptureFileMonitor.c:1435-1465 | For any queue and any buffer size: what is drained fits, the drain stops only at a record that does not fit any more, and the user-space walk over the filled buffer finds exactly the drained records in order. |
| KernelQueue.DeliveryTheorem | Client/KernelDrivers/CaptureKernelDrivers/FileMonitor/CaptureFileMonitor.c:1290-1366 | For every run of callbacks, polls, checks and disconnects, with 32-bit clock arithmetic: every event is delivered or still queued, once and in order, if and only if no step loses one (a callback behind the ten-second gate, draining or without memory; a late check or a disconnect with a non-empty queue). |
| KernelQueue.PolledTheorem | Client/KernelDrivers/CaptureKernelDrivers/FileMonitor/CaptureFileMonitor.c:1349-1366 | Polls never more than ten seconds apart deliver everything, also across a wrap-around of the clock. |
| KernelQueue.PostTheorem | Client/KernelDrivers/CaptureKernelDrivers/FileMonitor/CaptureFileMonitor.c:1349-1366 | Within ten seconds of the last poll an event is queued last, unless the filter drains or memory is short; later it is freed at once. |
| KernelQueue.EarlyTick | Client/KernelDrivers/CaptureKernelDrivers/RegistryMonitor/CaptureRegistryMonitor.c:208-228 | A check within fifteen seconds of the last poll changes nothing. |
| KernelQueue.SilenceTheorem | Client/KernelDrivers/CaptureKernelDrivers/FileMonitor/CaptureFileMonitor.c:534-545 | When polls stop, nothing more is queued after ten seconds and the first check later than fifteen seconds empties the queue until the next poll. |
| KernelQueue.FreeTheorem | Client/KernelDrivers/CaptureKernelDrivers/FileMonitor/CaptureFileMonitor.c:519-529 | In every run the memory of each event is freed exactly once or the event is still queued, never both. |
| EventRecords.WalkRecovers | Client/FileMonitor.cpp:380-428 | The walk by computed offsets recovers the records of a filled buffer whatever follows them; for registry events too. |
| EventRecords.WalkFromRecovers | Client/RegistryMonitor.cpp:291-329 | From any offset in a buffer that holds whole records there, the walk returns just those records. |
| EventRecords.FileRecordFormed | Client/KernelDrivers/CaptureKernelDrivers/FileMonitor/CaptureFileMonitor.c:321-331 | A file event as the driver lays it out declares its own size, and the path lies behind 40 bytes. |
| EventRecords.RegistryRecordFormed | Client/KernelDrivers/CaptureKernelDrivers/RegistryMonitor/CaptureRegistryMonitor.c:62-71 | A registry event as the driver lays it out declares its own size, path and data behind 36 bytes. |
| MonitorDriver.WalkBuffer | Client/FileMonitor.cpp:380-428 | The do-while loop over the byte buffer returns what the walk function finds. |
| KernelQueue.DoLoses | Client/KernelDrivers/CaptureKernelDrivers/FileMonitor/CaptureFileMonitor.c:1349-1366 | A step never finds a lost event again, and loses one exactly when its guard says so: a callback behind the gate, while draining or without memory, a late check or a disconnect with a non-empty queue. |
| MonitorDriver.MonitorDriver.Operation | Client/KernelDrivers/CaptureKernelDrivers/FileMonitor/CaptureFileMonitor.c:1290-1330 | The callback queues its event or frees it, never both, by the drain flag, the gate and the allocation. |
| MonitorDriver.MonitorDriver.FreeQueuedEvents | Client/KernelDrivers/CaptureKernelDrivers/FileMonitor/CaptureFileMonitor.c:519-529 | The loop frees the whole queue in order. |
| MonitorDriver.MonitorDriver.ConnectionChecker | Client/KernelDrivers/CaptureKernelDrivers/RegistryMonitor/CaptureRegistryMonitor.c:208-228 | The periodic check purges exactly after the purge time. |
| MonitorDriver.MonitorDriver.TakeHead | Client/KernelDrivers/CaptureKernelDrivers/FileMonitor/CaptureFileMonitor.c:1441-1464 | The head goes into the buffer behind what is there, or back to the head of the queue. |
| MonitorDriver.MonitorDriver.GetEvents | Client/KernelDrivers/CaptureKernelDrivers/RegistryMonitor/CaptureRegistryMonitor.c:240-303 | The drain loop: buffer, queue and contact time afterwards. |
| MonitorDriver.MonitorDriver.Round | Client/FileMonitor.cpp:366-397 | A zeroed buffer filled and walked is one poll of the state machine. |
| ZipRepair.RepairTheorem | Server/src/main/java/pl/nask/hsn/capture/server/Zippa.java:99-181 | Whenever the walk calls the repair: the kept entries tile the preserved prefix (with any directory headers passed); at the call a whole entry stands, and is dropped, if and only if it ends exactly with the data; the walk over the repaired bytes stands exactly where the first walk stood, then at every rebuilt directory header and at the end record, if and only if no kept entry declares an extra field; and then it completes without another repair. |
| ZipRepair.LastEntryLost | Server/src/main/java/pl/nask/hsn/capture/server/Zippa.java:140-145 | From any offset: where the repair is called a whole entry stands if and only if a local header stands there whose entry ends with the last byte. |
| ZipRepair.OneEntryLost | Server/src/main/java/pl/nask/hsn/capture/server/Zippa.java:99-146 | The input: of a file that is one whole entry nothing is kept, and the repaired file is a bare end record. |
| ZipRepair.EntryTheorem | Server/src/main/java/pl/nask/hsn/capture/server/CentralDirectoryEntry.java:8-60 | Each rebuilt directory header decodes to the offset of its local header, repeats its fields and its name, and says version 2.0, no comment, the first disk and no attributes. |
| ZipRepair.EndTheorem | Server/src/main/java/pl/nask/hsn/capture/server/CentralDirectoryEndEntry.java:8-36 | The end record is last and records the first of one disk, the bytes written for the directory, its offset, the number of entries modulo 65536, and the comment. |
| ZipRepair.TruncationTheorem | Server/src/main/java/pl/nask/hsn/capture/server/Zippa.java:99-181 | An archive cut inside an entry or a directory header, or right behind it: every whole entry before is kept by name, and the repair is called there exactly if four bytes are left and it is an entry, or less than 30 bytes of a directory header. |
| ZipRepair.ArchiveTheorem | Server/src/main/java/pl/nask/hsn/capture/server/Zippa.java:170-179 | An archive cut inside its end record is repaired exactly if 4 to 19 bytes of it are left; an undamaged one is walked to the end and left alone. |
| ZipRepair.ProcessTiles | Server/src/main/java/pl/nask/hsn/capture/server/Zippa.java:99-146 | At the call of the repair the kept entries and passed headers tile the data from the start. |
| ZipRepair.DirectoryWalk | Server/src/main/java/pl/nask/hsn/capture/server/Zippa.java:148-169 | Walking a rebuilt directory, the exact condition on extra fields. |
| ZipRepair.KeptInPlace | Server/src/main/java/pl/nask/hsn/capture/server/LocalFileEntry.java:25-67 | A kept entry is a whole local entry within the preserved prefix. |
| ZipFormat.CentralReads | Server/src/main/java/pl/nask/hsn/capture/server/Zippa.java:51-71 | What the 46 bytes and the name of a directory header say when read back, every byte of it. |
| ZipFormat.EndReads | Server/src/main/java/pl/nask/hsn/capture/server/Zippa.java:74-84 | What the 30 bytes of the end record say when read back, every byte of it. |
| ZipFormat.LocalRecordEnds | Server/src/main/java/pl/nask/hsn/capture/server/Zippa.java:107-137 | A local entry as an archiver writes it is read back: its signature, its name, and its end behind name, extra field and content. |
| ZipFormat.DirectoryRecordEnds | Server/src/main/java/pl/nask/hsn/capture/server/Zippa.java:148-162 | A directory header as an archiver writes it ends behind its comment. |
| ZipFormat.Signatures | Server/src/main/java/pl/nask/hsn/capture/server/Zippa.java:107-170 | The three signatures and the comment in letters. |
| Zippa.Zippa.ProcessZipFile | Server/src/main/java/pl/nask/hsn/capture/server/Zippa.java:99-181 | The recursive walk with its fields ends as the function says, keeps its entries, and writes the repaired file exactly when and as the function says. |
| Zippa.Zippa.RepairZipFile | Server/src/main/java/pl/nask/hsn/capture/server/Zippa.java:34-85 | The loops write the preserved prefix, one directory header for each kept entry in order, and the end record with the added-up size. |
| Zippa.ReadBytes | Server/src/main/java/pl/nask/hsn/capture/server/Zippa.java:20-28 | The shift loop reads a little-endian number, wrapped around to a signed integer of 32 bits. |
| Zippa.ReadLocalFileEntry | Server/src/main/java/pl/nask/hsn/capture/server/LocalFileEntry.java:25-67 | The constructor's advancing offset reads each field from its place. |
| Base64.StrictTheorem | Client/CaptureGlobal.cpp:100-142 | Decoding by section 4 of RFC 4648 (alphabet, padding only at the end) gives back every byte sequence. |
| Base64.DecodeTheorem | Client/CaptureGlobal.cpp:75-98 | The client's own decoder gives the bytes back first, although it decodes padding through the table's invalid entries. |
| Base64.EncodeLength | Client/CaptureGlobal.cpp:106-114 | Encoding writes four characters for every three bytes begun. |
| Base64.GroupDecodes | Client/CaptureGlobal.cpp:84-89 | The shifts of a group undo those of a block, independently of the missing characters. |
| Base64.BlockTheorem | Client/CaptureGlobal.cpp:106-130 | The four characters of a block write its three bytes as one number in base 64, the first byte highest. |
| Base64.IndexTheorem | Client/CaptureGlobal.cpp:11-29 | The table inverts the alphabet of RFC 4648, letter by letter, and has no entry for other characters. |
| Base64.DecodeExactly | Client/CaptureGlobal.cpp:75-98 | The client's decoder exactly: the bytes, then 25 and 100 for two paddings, 100 for one. |
| Base64.StrictAccepts | Server/src/main/java/pl/nask/hsn/capture/server/ClientFileReceiver.java:49-70 | Strict decoding accepts only whole groups of letters with at most two paddings at the end. |
| Base64Buffers.EncodeBuffer | Client/CaptureGlobal.cpp:100-142 | The encoding loop stays within its allocation, two bytes larger than the text, and overwrites the right characters with padding. |
| Base64Buffers.DecodeBuffer | Client/CaptureGlobal.cpp:75-98 | The decoding loop stays within its allocation and terminates the result where there is room. |
| FileTransfer.UploadTheorem | Client/FileUploader.cpp:160-167 | Every file smaller than 2^31 bytes arrives byte for byte, multiples of 8192 included. |
| FileTransfer.PartsCount | Client/FileUploader.cpp:180-227 | The parts sent are as many as the chunks begun, none is empty, and they start at multiples of the chunk. |
| FileTransfer.PartReceived | Server/src/main/java/pl/nask/hsn/capture/server/ClientFileReceiver.java:49-70 | A part passes the length check and is appended as the bytes read. |
| FileTransfer.PartTheorem | Server/src/main/java/pl/nask/hsn/capture/server/ClientFileReceiver.java:49-70 | A part adds exactly as many bytes as it says, those it decodes to, or nothing at all: when it does not decode, says another length, or its numbers do not fit 31 bits. |
| FileTransfer.ChunkSize | Client/FileUploader.cpp:180-227 | A read gets 8192 bytes or what is left. |
| FileTransfer.FileUploader.SendFile | Client/FileUploader.cpp:102-178 | The loop with seek, read and end-of-file flag sends exactly those parts; a file whose size is no number to the server is not sent. |
| FileTransfer.FileUploader.SendFilePart | Client/FileUploader.cpp:180-227 | The server's output grows by exactly the bytes read at the offset; no part is sent at the end of the file; the result is zero if and only if the read met the end. |
| UrlCoding.RoundTrip | Client/Url.cpp:70-143 | For every string of 16-bit units, decoding its encoding gives the string with spaces as plus signs and leaves the multi-byte state at rest. |
| UrlCoding.IdentityTheorem | Client/Url.cpp:70-143 | A string survives the round trip if and only if it has no space. |
| UrlCoding.EncodeInjective | Client/Url.cpp:70-104 | Encoding is injective on all strings. |
| UrlCoding.DecodeCode | Client/Url.cpp:114-141 | After each character's code the state is at rest again, whatever follows. |
| UrlWire.HexTheorem | Client/Url.cpp:119-121 | Two hexadecimal digits in any mix of cases are read as the number they write. |
| UrlWire.WireTheorem | Server/src/main/java/pl/nask/hsn/capture/server/Url.java:246-253 | What the client decodes of every string that the server encodes with upper-case triplets: the string with spaces as plus signs, lone surrogates as question marks and surrogate pairs missing. |
| UrlWire.WireIdentity | Client/Url.cpp:106-143 | The URL visited is the URL sent if and only if it has no space and no surrogate. |
| UrlWire.BrokenTriplet | Client/Url.cpp:119-123 | A percent sign before two characters that are no digits stands for the unit 0, before a digit and another character for the digit's value. |
| UrlWire.Verbatim | Client/Url.cpp:114-141 | Text without percent signs, and a percent sign near the end, is left as it is. |
| UrlWire.PlainCharacters | Client/Url.cpp:78-91 | The client leaves exactly the unreserved characters of RFC 2396 alone. |
| UrlWire.TripletCharacters | Client/Url.cpp:92-93 | Its triplets have lower-case digits, the higher one first. |
| UrlCoding.EncodeText | Client/Url.cpp:70-104 | The loop with its branches for plain, space, ASCII, two-byte and three-byte units computes the encoding of every text. |
| UrlCoding.DecodeText | Client/Url.cpp:106-143 | The loop with its moving index, its look-ahead of two and its multi-byte state computes the decoding of every text, malformed ones included. |

## Left out

- Sockets, XML, configuration, log files, statistics, dates and the visiting and visited lists of the controller; the
  server's exit once all URLs are done or on the halt option.
- Handlers are atomic steps. Finishing a revert and removing its work item are one step; in the source the removal is
  outside the machine's monitor, and between the two a new revert request can be dropped.
- Timers of the checker: a timeout may happen at any time. The pinger is a failed send.
- Reconnecting, a socket that fails while it is being set up, and a second connect to a machine that still has a live
  client: all of them bypass the disconnect.
- Messages that name a URL outside the visited group, or that come without a group where the source would dereference
  null.
- The priority order of the URL queue: a batch may hold any of the queued URLs.
- Liveness of an idle waiting client.
- The exact text of reports: they are sequences of changes. `Group.origin`, the log of dispatched groups, and the
  produced, freed and received events of the drivers are bookkeeping of the model.
- Quarantine.QuarantineTheorem: needs connects that succeed and go to machines that do not wait for a revert, neither of
  which the server checks; `NoGroupWithoutConnect` needs neither.
- UrlWire.WireTheorem: the server's encoder is a library class; it is taken to encode as its documentation says.
- Server, client, group and machine objects are records in tables by id, updated in place; object identity is the id.
- OneAlgorithm.ProperRunsConserve: needs the client's side of the protocol (one algorithm, results only for started
  visits), which the server does not check.
- VisitCount.VisitTheorem: counts dispatches of honest, error-free runs; with failures the bounds are those
  of `DispatchTheorem`.
- WorkerPool.ProgressTheorem: only for at most as many URLs as workers, since beyond that progress is false (`LossTheorem`). A
  failing wait and creating the browser objects are not modelled.
- Reports.PartitionTheorem: assumes distinct root ids; a reused process id can give two roots the same id, exactly when
  `RootsDistinct` says.
- The monitors' filtering and the set of modified files kept during the walk, and stopping the walk early.
- MonitorDriver.WalkBuffer: is stated for buffers whose records stay within the buffer, as the driver fills them; the
  source does not check others.
- Failing allocations in the registry driver, which it does not check, and races between the driver's list operations,
  which are atomic here. Setting the log directory of the file driver.
- ZipRepair.RepairTheorem: for files whose sizes stay below 2^31 - 64; a declared size that leaves the integer range, or
  reads as negative, ends the modelled walk as overflowed, where the source goes on from the wrapped-around offset.
- A single entry list per repair object, which the server uses once.
- The text of XML escaping, exclusion lists, options, plugin priorities, browser automation and the other machine
  servers: library calls, duplicates or easy folds.
- The receiver's Base64 decoder is a library class; it is taken to decode what section 4 of RFC 4648 defines.
