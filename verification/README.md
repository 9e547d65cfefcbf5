# A verified model of the ose-scanner scan leases

The arbiter hands out exclusive leases to scan container images; a controller on
every node reports the images it finds, polls for permission, scans, and reports
done or abort. The model covers that protocol from both ends, the pool of worker
channels that both programs run their jobs on, the names under which a scan is
registered and looked up, and the annotations that record one.

Run `dafny verify dfyconfig.toml` here to check everything.

## How it is laid out

| file | content |
|---|---|
| LeaseTables.dfy | the arbiter's tables as values and what each locked section does to them |
| LeaseObjects.dfy | the arbiter and its controller records as mutable classes, each method proved to leave the state that LeaseTables prescribes |
| LeaseProtocol.dfy | any number of requests being served at once, section by section; the invariant that needs no good behaviour of anyone |
| LeaseRuns.dfy | what holds between two moments of one run; that requests turned away change nothing (`BadRequestsChangeNothing`) |
| Ledger.dfy | what a step does to each table, entry by entry: who puts an entry there, takes it out or changes it; a removed image over runs |
| LeaseAgreement.dfy | the controllers' replicas against the central lease table, and exactly what keeps them in step |
| Admission.dfy | the gate on Hub jobs under interleaving, and a run that meets the bound |
| ScanCluster.dfy | the arbiter with all the controllers' workers: mutual exclusion, scan once, worker and Hub limits |
| ScanReports.dfy | a worker's report and heartbeat from sending to processing, and scan once from the report on |
| ClusterPaths.dfy | what a cluster keeps even where jobs begin freely, and where its moves can take it |
| LostLeases.dfy | leases that nobody will end: which moves leave one, over every run, and what a controller must avoid |
| LeaseRelease.dfy | exactly which leases can still be brought to an end, by whatever continuation |
| WaitingPeers.dfy | how long a worker polls, exactly which workers can still stop, and what the holder's abort does for its peers |
| SecondJob.dfy | two jobs of one controller for one spec: a run that has both scanning, and exactly when that can come about |
| WorkerPool.dfy | dispatcher, worker channels, WaitGroup, lock |
| ImageNames.dfy | the scanner's and the arbiter's reading of an image reference |
| Annotations.dfy | stamping, merging, and the check whether a scan is needed |
| Counting.dfy | sums and sizes of finite maps |

Choices made. The MD5 hash of a spec is a parameter `h`; where two specs must not
share a hash the lemma says `Injective(h)`. What a handler does without the lock
(a lookup in two maps, the gate) is one atomic section and each locked section is
another, so requests interleave between them: the gate before `findWorker`, the
check of `foundImage` before `saveFoundImage`, the lookup of a lease before the
done or abort that acts on it. In the cluster a request may be processed after its
sender has given up, a reply may be lost or arrive without its body, and a worker
may die anywhere. Jobs begin freely, several of one controller for one spec too; a
cluster run (`IsClusterRun`) asks one thing, `NoRival`: when foundImage lets a
report through for which a worker waits, no other worker of that controller is past
that check with the spec. A controller with one job at a time for a spec meets it
(`OneJobIsEnough`), and so do second jobs that report while the first one's lease is
out, or after the first has ended. A new reference without an `@` makes
`newScanImage` panic. In `saveFoundImage` the server drops the connection, after the
request table was written; the model has that branch. In `addImage`, called from a
watcher or a load, it ends the arbiter, so no run goes on from there.

## What came out false, and what is true instead

- A done or abort by a controller that does not hold the lease loses the holder's
  worker: `EndKeepsAgreementIff` gives the exact condition, the check that
  `scanDone` and `scanAbort` do not make, and `ForeignDoneLeaksWorker` a reachable
  state. The workers' own behaviour makes it good (`ClusterIsDisciplined`).
- The limit of seven Hub jobs holds for one request at a time only. With up to `k`
  requests past the gate it is `6 + k`, and a run meets it for every `k > 0`.
- A lease has no timeout, so one that is left without a worker is never released
  and no controller scans that image again (`WedgingIsForever`). Over every run a
  lease is in that state if and only if one of three moves was made (`WedgedIff`):
  the holder's worker dropped out past foundImage's check, by death or by a lost
  reply; a poll was granted after its sender had gone; or the holder's worker was
  told to skip, which happens when the body of its start was lost and a
  notification then marked the image scanned. A controller that loses no worker
  waiting for a poll's answer or holding a start, and no start's body, never gets
  there (`CarefulControllersAttend`). A worker that dies scanning, or whose done or
  abort is never sent, is the first of the three.
- Any other lease can be ended by some continuation if a done, an abort, a start or,
  its image being known and unscanned, a poll past the gate is on its way already;
  or else if its image is known and unscanned and fewer than seven leases are idle,
  so that the gate can open. With background updates any image can be made so.
  `LeaseCanEndIff` is the exact statement. Seven wedged leases keep the gate shut
  (`SevenLostStartsCloseTheGate`): scans under way and polls past the gate go on, and
  nothing else ever starts.
- A controller's job need not end, so its `Stop` need not return. With background
  updates, a worker that polls can still stop, other than by giving up, if and only
  if it has already heard something other than "come back", or its spec has a digest
  and its poll is past the gate or fewer than seven leases are idle
  (`PollingCanEndIff`). Over a stretch of a run it is kept waiting exactly as long as
  it does not give up and each poll of it that reaches findWorker finds the tables
  such that it may neither start nor skip (`KeptWaitingIff`); so while a lease of
  another controller is wedged and its image unscanned (`PeersOfWedgedPollForever`),
  while the image is missing (`MissingImagePollsForever`), or while the gate is shut
  before its poll (`ClosedGatePollsForever`). The worker pool drains, and `Stop` returns, if and only
  if every job loaded comes to an end (`StopReturns`). The arbiter's notification
  jobs call the cluster or the Hub once, so for them that is whether those calls
  return.
- Two jobs of one controller for one spec can both be scanning at once: a run from
  the initial state, for any hash (`SecondJobIsStarted`). The controller queues a
  second job when an image is removed and added again, or replaced by another image
  id. One that reports while its controller holds the lease is turned away, and only
  then (`SecondJobTurnedAwayIff`).
  Over every run in which jobs begin freely, two starts come about exactly when
  findWorker grants a waiting worker while another of that controller has a start
  (`TwoStartsIff`). The guard that decides it is foundImage's: let it pass a report
  for which a worker waits, in a run without rivals so far, with the gate open and
  the controller able to start. Then no continuation has two starts if and only if
  no other worker of the controller is past the check (`RivalsDoubleIff`), and as
  long as that holds at every such report all of the cluster's theorems do.
- The scanner and the arbiter disagree on a digest that begins with two slashes,
  since the colon of `@sha256:` then completes a second `://`: `NamesAgreeIff`.
- A pool without workers never finishes a job (`NoWorkersNoProgress`).
- Storing scan results panics on a record that has no map to write to (`CanMerge`);
  the arbiter gets one when its second lookup of the image fails.

## Model

| member | source | states |
|---|---|---|
| LeaseObjects.ControllerDaemon.AssignScan | arbiter/pkg/arbiter/controllerdaemon.go:61-88 | true only for a requested scan that is already assigned or has a free worker; a repeated claim takes no second worker |
| LeaseObjects.ControllerDaemon.CompleteScan | arbiter/pkg/arbiter/controllerdaemon.go:90-106 | the scan leaves both lists and its worker comes back exactly if it was assigned |
| LeaseObjects.ControllerDaemon.AbortScan | arbiter/pkg/arbiter/controllerdaemon.go:108-124 | as completion, for an abort |
| LeaseObjects.Arbiter.RegisterControllerAlive | arbiter/pkg/arbiter/controllerinterface.go:419-441 | a new id gets a record with its workers, a known one keeps its own |
| LeaseObjects.Arbiter.DoneScan | arbiter/pkg/arbiter/arbiter.go:165-172 | sets the flag of a known image, changes no other and adds none, and counts the job out |
| LeaseObjects.Arbiter.AddImage | arbiter/pkg/arbiter/arbiter.go:190-202 | a known image keeps its flag, a new one starts unscanned, and a new reference without a digest ends the program |
| LeaseObjects.Arbiter.QueueImagesForNotification | arbiter/pkg/arbiter/arbiter.go:217-225 | every image is sent exactly once, in some order, and counted in |
| LeaseObjects.Arbiter.FindWorker | arbiter/pkg/arbiter/controllerinterface.go:279-326 | the object changes and answers as the lease tables say on every branch |
| LeaseObjects.Arbiter.SaveFoundImage | arbiter/pkg/arbiter/controllerinterface.go:386-413 | as the tables say, with the branch that panics part way |
| LeaseObjects.Arbiter.FinalizeScan | arbiter/pkg/arbiter/controllerinterface.go:172-192 | status of a known image, none added, scanning controller, every peer, request and lease, whatever the order of the peer loop |
| LeaseObjects.Arbiter.CompleteAndStandDown | arbiter/pkg/arbiter/controllerinterface.go:179-188 | the loop completes the scanner and makes each other controller skip exactly once |
| LeaseObjects.Arbiter.ReleaseScanForPeer | arbiter/pkg/arbiter/controllerinterface.go:121-128 | the caller's record and the lease change, the request stays |
| LeaseObjects.Arbiter.FoundImage | arbiter/pkg/arbiter/controllerinterface.go:328-384 | the whole handler run alone is its two sections in turn, with every error reply, and leases stay backed and workers conserved |
| LeaseObjects.Arbiter.AssignScan | arbiter/pkg/arbiter/controllerinterface.go:227-277 | the whole handler run alone: junk, busy, unknown controller, answer; leases stay backed and workers conserved |
| LeaseObjects.Arbiter.ScanDone | arbiter/pkg/arbiter/controllerinterface.go:138-170 | the whole handler run alone, with both not-found replies; whoever calls, leases stay backed and workers conserved |
| LeaseObjects.Arbiter.ScanAbort | arbiter/pkg/arbiter/controllerinterface.go:88-119 | the whole handler run alone, with both not-found replies; whoever calls, leases stay backed and workers conserved |
| LeaseProtocol.FindKeepsBacked | arbiter/pkg/arbiter/controllerinterface.go:302-325 | a grant keeps every lease backed by its hash, a request and its owner's record |
| LeaseProtocol.FinishKeepsBacked | arbiter/pkg/arbiter/controllerinterface.go:121-192 | so does a done or abort by anyone, holder or not, stale or not, with no assumption on the hash |
| LeaseProtocol.DaemonConserves | arbiter/pkg/arbiter/controllerdaemon.go:61-144 | each call keeps free workers plus assigned scans equal to the capacity, within bounds |
| LeaseProtocol.HandleKeepsWorkers | arbiter/pkg/arbiter/controllerinterface.go:88-413 | no handler section leaks or invents a worker, or loses a controller |
| LeaseProtocol.AnyoneMaySend | arbiter/pkg/arbiter/controllerinterface.go:71-86 | the runs leave nothing out: any request from anyone at any time, served in any order, and any change of the image table but one that ends the program |
| LeaseProtocol.RunKeepsInv | arbiter/pkg/arbiter/controllerinterface.go:88-441 | in every run, leases and replicas are backed and workers conserved, whatever the callers send |
| LeaseProtocol.LeasesAndFreeWorkersBounded | arbiter/pkg/arbiter/controllerinterface.go:302-325 | leases plus free workers never exceed the workers registered, with no discipline of callers |
| LeaseProtocol.FreeWorkersWithinCapacity | arbiter/pkg/arbiter/controllerdaemon.go:79-106 | the free counter and the assigned scans add up to the capacity; a capacity of zero or more bounds the counter |
| LeaseProtocol.CapacityIsFixed | arbiter/pkg/arbiter/controllerinterface.go:429-437 | later heartbeats never change the capacity of the first |
| Ledger.ImageLedger | arbiter/pkg/arbiter/arbiter.go:153-215 | over any step an image comes into the table only where shown, with a digest and unscanned, leaves only where removed, and its flag is changed only by a notification or set by a done |
| Ledger.BackgroundLedger | arbiter/pkg/arbiter/arbiter.go:153-215 | the background touches the image table only |
| Ledger.RequestLedger | arbiter/pkg/arbiter/controllerinterface.go:386-413 | a spec is asked for, under its hash, from the record of a report, even one that panics, until a done of it |
| Ledger.ListLedger | arbiter/pkg/arbiter/controllerdaemon.go:61-144 | a controller asks for a spec from its own report until it ends it or anyone reports it done, and is assigned it from its own start until it ends it |
| Ledger.LeaseLedger | arbiter/pkg/arbiter/controllerinterface.go:302-325 | a hash is leased from a start until a done or abort for it, to the controller and for the spec of the latest start |
| Ledger.RegisterLedger | arbiter/pkg/arbiter/controllerinterface.go:419-441 | a controller is known from its first heartbeat with a name, with the workers of that one and empty lists, for good |
| Ledger.FlagWords | arbiter/pkg/arbiter/arbiter.go:153-215 | a reset leaves an image missing or unscanned, a mark missing or scanned, and spoiling leaves nothing to scan |
| Ledger.MissingUntilShown | arbiter/pkg/arbiter/arbiter.go:204-215 | over every run, a removed image is missing until it is shown again |
| Ledger.RemovedIsScannedAnew | arbiter/pkg/arbiter/arbiter.go:190-215 | over every run, an image removed and shown again is started for whoever asks for it and has a worker, whatever its flag was, unless the flag was set since |
| LeaseRuns.ScannedOnce | arbiter/pkg/arbiter/controllerinterface.go:172-192 | between a completion and a later start of a spec it was reported anew, and if its image was known the flag was reset or it was removed |
| LeaseRuns.StandDown | arbiter/pkg/arbiter/controllerinterface.go:181-191 | after a completion, until the spec is reported anew, nobody requests it and every findWorker for it says skip as long as its image is known |
| LeaseRuns.HandOverNeedsRelease | arbiter/pkg/arbiter/controllerinterface.go:302-307 | a hash passes between controllers only after a done or abort for it, even if two specs share it |
| LeaseRuns.ReportThenStart | arbiter/pkg/arbiter/controllerinterface.go:386-413 | a report of an unscanned image that nobody else holds leads to a start at the next poll, and touches no other controller |
| LeaseRuns.ReclaimStartsAgain | arbiter/pkg/arbiter/controllerdaemon.go:73-77 | the holder polling again is started again and nothing changes |
| LeaseRuns.AbortFreesForPeers | arbiter/pkg/arbiter/controllerinterface.go:121-128 | after an abort, until the hash is granted again or the image is removed or marked scanned, every findWorker by a controller that asks for the spec and has a worker starts it |
| LeaseRuns.EndedControllerMustReport | arbiter/pkg/arbiter/controllerdaemon.go:90-124 | a controller that ended a spec is not started on it before it reports it again |
| LeaseRuns.GrantsPaidByRequests | arbiter/pkg/arbiter/controllerdaemon.go:61-144 | in every run a controller takes a worker for a spec at most once per report of it |
| LeaseAgreement.EndKeepsAgreementIff | arbiter/pkg/arbiter/controllerinterface.go:106-128 | a done or abort keeps the replicas in step if and only if nobody else holds the hash |
| LeaseAgreement.EndByOtherLeaks | arbiter/pkg/arbiter/controllerinterface.go:156-192 | otherwise the lease goes while the holder's record and taken worker stay |
| LeaseAgreement.ForeignDoneLeaksWorker | arbiter/pkg/arbiter/controllerinterface.go:138-170 | a reachable state with a leaked worker |
| LeaseAgreement.DisciplinedRunAgrees | arbiter/pkg/arbiter/controllerinterface.go:172-192 | if only holders end leases, every assigned scan is leased to its controller at every moment |
| LeaseAgreement.AgreementAccountsForWorkers | arbiter/pkg/arbiter/controllerdaemon.go:79-106 | in step, a controller's list is the set of specs leased to it and its free counter its capacity less its leases |
| Admission.AdmissionBound | arbiter/pkg/arbiter/controllerinterface.go:241-266 | with at most k requests past the gate, leases and they together never exceed 6 + k |
| Admission.SequentialBound | arbiter/pkg/arbiter/controllerinterface.go:66-69 | handlers one at a time never make more than seven leases |
| Admission.BoundIsMet | arbiter/pkg/arbiter/controllerinterface.go:241-266 | for every k > 0 a run with at most k past the gate reaches 6 + k leases |
| ScanCluster.ClusterRunsProtocol | controller/pkg/controller/arbiterinterface.go:98-242 | the arbiter's part of any cluster run is a run of the protocol |
| ScanCluster.AnythingMayHappen | controller/pkg/controller/worker.go:70-149 | the runs leave nothing out: jobs, heartbeats, scans of either outcome, lost replies and bodies, and workers that give up, in any order |
| ScanCluster.ClusterRunKeepsInv | controller/pkg/controller/worker.go:70-149 | the joint invariant of arbiter, workers and requests under way, over every run in which no rival is let in, jobs beginning freely |
| ScanCluster.MutualExclusion | controller/pkg/controller/worker.go:107-144 | at most one worker in the cluster has a start for a spec, the lease names it, and a done or abort under way comes from the holder and excludes any start |
| ScanCluster.ClusterIsDisciplined | arbiter/pkg/arbiter/controllerinterface.go:88-170 | no done or abort is ever processed for a hash that someone else holds |
| ScanCluster.ClusterAccountsForWorkers | arbiter/pkg/arbiter/controllerdaemon.go:36-42 | in every cluster run the three replicas agree and no worker leaks |
| ScanCluster.ScansWithinHubLimit | arbiter/pkg/arbiter/controllerinterface.go:66-69 | no more than 6 + k scans run in the whole cluster |
| ScanCluster.StartsFitWorkers | controller/pkg/controller/worker.go:107-144 | a controller's running scans and its free workers stay within the workers it registered |
| ScanReports.ReportIsTold | controller/pkg/controller/worker.go:120-142 | over every run, a completed scan reaches the arbiter as a done of the worker's spec by its controller, any other as an abort |
| ScanReports.ReportIsProcessed | arbiter/pkg/arbiter/controllerinterface.go:88-192 | either way the lease goes and the worker is back; a done marks a known image scanned and ends everybody's request, an abort leaves flag, requests and peers alone |
| ScanReports.ScannedOnlyOnce | controller/pkg/controller/worker.go:130-139 | after a worker's report of a completed scan is processed, no worker has a start for the spec before it is reported anew (and a known image reset or removed) |
| ScanReports.HeartbeatRegisters | controller/pkg/controller/arbiterinterface.go:60-96 | a heartbeat makes its controller known with its workers, answered or not, and only an answer lets the worker go on |
| LostLeases.WedgesIff | controller/pkg/controller/arbiterinterface.go:144-181 | a move leaves a lease that nobody will end if and only if it is one of three: the holder's worker drops out, a poll is granted to a worker that has gone, or the holder's worker is told to skip |
| LostLeases.WedgedIff | controller/pkg/controller/worker.go:107-144 | over every run, a lease is in that state exactly when one of the three moves has been made |
| LostLeases.WedgingIsForever | arbiter/pkg/arbiter/controllerinterface.go:54-59 | after any of them the lease is never released and no worker of any controller is started on the spec again |
| LostLeases.LostStartIsForever | controller/pkg/controller/arbiterinterface.go:164-169 | in particular when a start is lost with its reply or its worker |
| LostLeases.CarefulControllersAttend | controller/pkg/controller/worker.go:107-144 | while a controller loses no worker that awaits a poll's answer or has a start, and no start's body, each of its leases has a done or abort on its way or a worker with the start |
| LeaseRelease.LeaseCanEndIff | arbiter/pkg/arbiter/controllerinterface.go:279-326 | in every state of every run, exactly when some continuation ends a lease, with and without background updates of the image table, whichever workers are sure to go on |
| LeaseRelease.EndableIffNotWedged | arbiter/pkg/arbiter/controllerinterface.go:241-266 | with the gate open and background updates, exactly the wedged leases cannot be ended |
| LostLeases.SevenLostStartsCloseTheGate | arbiter/pkg/arbiter/controllerinterface.go:66-69 | seven wedged leases close the gate for the rest of the run |
| SecondJob.SecondJobIsStarted | arbiter/pkg/arbiter/controllerdaemon.go:73-77 | a run from the initial state, for any hash, that ends with two workers of one controller scanning the same image |
| SecondJob.TwoStartsIff | arbiter/pkg/arbiter/controllerdaemon.go:73-77 | over every run with jobs begun freely, a controller has two starts for a spec exactly when a waiting worker of it is granted while another has a start |
| SecondJob.RivalsDoubleIff | arbiter/pkg/arbiter/controllerinterface.go:346-367 | when the check lets a report through with the gate open and the controller able to start, no continuation has two starts if and only if no other worker of the controller is past the check |
| SecondJob.OneJobIsEnough | controller/pkg/controller/controller.go:127-202 | a run in which a job begins only where its controller has none for the spec is a cluster run |
| WaitingPeers.PollingCanEndIff | controller/pkg/controller/worker.go:107-118 | in every state of every run, exactly when some continuation takes a polling worker out of its loop, by what it has heard, its spec's digest, the gate and the idle leases |
| WaitingPeers.KeptWaitingIff | arbiter/pkg/arbiter/controllerinterface.go:241-326 | over a stretch of a run a polling worker hears only "come back" exactly when it does not give up and no poll of it reaches findWorker with tables that let it start or skip |
| WaitingPeers.TurnedAwayForever | controller/pkg/controller/worker.go:107-118 | a worker that is turned away at every moment of a run never finishes its job |
| WaitingPeers.MissingImagePollsForever | arbiter/pkg/arbiter/controllerinterface.go:283-287 | so from the removal of its image until that is shown again |
| WaitingPeers.ClosedGatePollsForever | arbiter/pkg/arbiter/controllerinterface.go:241-256 | so while the gate is closed, unless the poll is past it |
| WaitingPeers.PeersOfWedgedPollForever | controller/pkg/controller/controller.go:99-108 | so for every worker of another controller once a lease is wedged, until a notification marks the image scanned |
| WaitingPeers.AbortStartsWaitingPeer | controller/pkg/controller/worker.go:124-127 | once an abort is processed, whatever follows short of a new grant or a removed or scanned image, a worker whose poll reaches findWorker is started if its controller asks for the spec and has a worker free |
| WorkerPool.RunKeepsInv | arbiter/pkg/arbiter/dispatcher.go:41-67 | every step of dispatcher, goroutines and workers keeps jobs, counter and channels consistent |
| WorkerPool.JobsAccountedFor | arbiter/pkg/arbiter/job.go:58-74 | every loaded job is under way or finished, the WaitGroup counts those under way, is never negative and is zero exactly when all have finished |
| WorkerPool.RunOnce | arbiter/pkg/arbiter/worker.go:46-73 | a job loaded once is with one worker at most, nowhere else meanwhile, and not yet finished |
| WorkerPool.ChannelsAreSound | arbiter/pkg/arbiter/dispatcher.go:33-67 | pooled channels are distinct and of waiting workers, returning one never blocks, a claimed job always meets its worker |
| WorkerPool.DrainStep | arbiter/pkg/arbiter/dispatcher.go:51-67 | with a worker at all and none on a job that does not end, some step is possible while a job is under way |
| WorkerPool.DrainEnds | arbiter/pkg/arbiter/worker.go:46-73 | a pool in which nothing can move has drained if and only if every job ever loaded ends |
| WorkerPool.EndlessJobHoldsStop | controller/pkg/controller/controller.go:99-108 | with a job loaded that does not end the counter never reaches zero |
| WorkerPool.StopReturns | arbiter/pkg/arbiter/arbiter.go:114-123 | for the arbiter's five workers, and for any positive number in a controller, after Stop the steps are bounded, and when they are used up Stop returns if and only if every job loaded ends |
| WorkerPool.BlockedSendIsFreed | controller/pkg/controller/controller.go:183-216 | a send blocked on the full queue under the lock is freed by the dispatcher, and then the workers get the lock |
| WorkerPool.ControllerSendIsFreed | controller/pkg/controller/controller.go:62-82 | the same for a controller: its queue takes as many jobs as it has workers, a blocked send keeps the lock from workers and loads, and is freed |
| WorkerPool.ControllerMayLoad | controller/pkg/controller/controller.go:183-202 | a controller loads a job exactly when no send of another is blocked |
| WorkerPool.ArbiterHandsOver | arbiter/pkg/arbiter/arbiter.go:71-89 | the arbiter's queue takes none: every job goes straight to the dispatcher, and no lock is held meanwhile |
| WorkerPool.PoolSizes | arbiter/pkg/arbiter/dispatcher.go:25-49 | the arbiter runs at most five jobs and queues none, a controller as many as it has workers for |
| WorkerPool.QueueIsFifo | controller/pkg/controller/dispatcher.go:53-69 | over every run jobs are dispatched in the order in which they were sent |
| WorkerPool.WorkersTakeTurns | arbiter/pkg/arbiter/worker.go:46-54 | and workers get them in the order in which they returned their channels |
| WorkerPool.NoWorkersNoProgress | controller/pkg/controller/dispatcher.go:43-51 | a pool without workers finishes nothing |
| ImageNames.SplitJoins | scanner/ose_scanner.go:83-83 | splitting loses nothing and leaves no separator in a part |
| ImageNames.SplitAt | arbiter/pkg/arbiter/podimage.go:56-63 | a string splits at its first separator whatever stands on either side |
| ImageNames.ArbiterReadsScannerIff | arbiter/pkg/arbiter/podimage.go:49-73 | for every reference, exactly when the arbiter reads back the project and version that the scanner registered |
| ImageNames.ScannerReads | scanner/ose_scanner.go:83-87 | what the scanner takes from a reference with no, one or more digest marks, and when it panics |
| ImageNames.ArbiterReads | arbiter/pkg/arbiter/podimage.go:56-72 | what the arbiter answers for each fault of a pod's image name, and what it takes from a good one |
| ImageNames.NamesAgreeIff | scanner/ose_scanner.go:80-87 | for clean scheme, name and digest the two agree if and only if the digest does not begin with two slashes |
| ImageNames.NamesDisagree | arbiter/pkg/arbiter/podimage.go:56-60 | a reference on which they differ |
| Annotations.MapMerge | common/annotate.go:57-73 | right-biased override, for every order of the map's entries and a nil base |
| Annotations.UpdateAnnotations | common/annotate.go:77-177 | the stamped record, labels and annotations, built step by step |
| Annotations.StampSays | common/annotate.go:94-118 | key by key: violations and vulnerabilities each in their own labels and record, scanner, Hub, project and scan id in theirs, every other label kept |
| Annotations.MergeAnnotationResults | controller/pkg/controller/job.go:172-184 | both maps overridden entry by entry in any order; a panic exactly when there are entries for a nil map |
| Annotations.IsScanNeeded | common/annotate.go:180-216 | not needed exactly when version, Hub and a valid project are all recorded |
| Annotations.IsImageStreamScanNeeded | controller/pkg/controller/job.go:187-238 | on the stored image not needed exactly when it has annotations and version, Hub and a valid project are all among them; no client means not needed, a failed lookup means needed |
| Annotations.UnmarkedIsScanned | common/annotate.go:189-215 | an image that lacks any of the three annotations is always scanned |
| Annotations.StampThenCheck | common/annotate.go:101-108 | after stamping and storing, no scan is needed if and only if it is the same scanner and Hub and the stamped project is on it; storing panics only on a record without its maps |
| Annotations.MergeKeepsTheRest | arbiter/pkg/arbiter/job.go:200-212 | storing results writes each of their labels and annotations, keeps every other one, and is idempotent |
| Annotations.StampKeepsTheRest | common/annotate.go:94-118 | a stamp changes its own keys only and keeps an older scan id when it has none |

## Left out

- A restart of the arbiter: it empties every table while scans run, so a second worker can be started on a spec and mutual exclusion does not span it.
- A restart of a controller is the death of its workers; its heartbeat after that finds the old record.
- HTTP, JSON, the Kubernetes, OpenShift and Docker clients and the Hub: a handler is its decoded arguments, and a scan's outcome, a Hub validation and a lookup are inputs.
- MD5 itself: the hash is a parameter.
- Times and sleeps: none decides anything in the protocol; `processingImage` writes only a time.
- Data races on maps read without the lock, such as two first heartbeats at once: a read or a registration is atomic.
- The arbiter's image record: it is its `scanned` flag in the image table, so sharing of the record between the table and a job is not captured; a job reads its reference only.
- The loops of `RequestScanAuthorization`, of the pool's workers and of the dispatcher: they do not end, so they are state machines and not methods.
- What a notification or scan job does between taking and finishing: any outcome is allowed, and the pool only asks which jobs end. That a controller's job is the polling worker of the cluster is not stated in one model.
- The controller's image table and the replacement branches of `AddImage`: only the queue and the lock are modelled, and in the cluster a job begins whenever a worker is idle.
- How numbers and the two OpenShift records of a stamp are printed, with the time of day: a parameter of `UpdateAnnotations`.
- `quit` channels of the workers: nothing sends on them.
- The unlocked map iteration of `queueImagesForNotification` against concurrent changes of the table.
