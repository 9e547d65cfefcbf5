/** What holds between two moments of one run of the arbiter, for any callers. */
module LeaseRuns {
  import opened LeaseTables
  import opened LeaseProtocol

  /** The step runs the next atomic section of a request. */
  ghost predicate Runs(sys: Sys, step: Step) {
    step.Run? && step.ticket in sys.handlers && sys.handlers[step.ticket].Servable(sys.tables)
  }

  ghost function Running(sys: Sys, step: Step): Request
    requires Runs(sys, step)
  {
    sys.handlers[step.ticket]
  }

  /** Some controller reports `spec` and saveFoundImage records it. */
  ghost predicate SavesSpec(sys: Sys, step: Step, spec: Spec) {
    Runs(sys, step) && Running(sys, step).Save? && Running(sys, step).spec == spec
  }

  /** Controller `c` does so. */
  ghost predicate SavesFor(sys: Sys, step: Step, c: Id, spec: Spec) {
    SavesSpec(sys, step, spec) && Running(sys, step).id == c
  }

  /** findWorker runs for controller `c`. */
  ghost predicate Finds(sys: Sys, step: Step, c: Id, spec: Spec) {
    Runs(sys, step) && Running(sys, step).Find? && Running(sys, step).id == c && Running(sys, step).spec == spec
  }

  /** findWorker lets controller `c` start `spec` under `hash`. */
  ghost predicate Starts(sys: Sys, step: Step, c: Id, spec: Spec, hash: Hash) {
    Finds(sys, step, c, spec) && FindWorker(sys.tables, c, spec).1 == Answer(hash, true, false)
  }

  /** A done (finalizeScan) or an abort (releaseScanForPeer) for `hash` is processed. */
  ghost predicate Releases(sys: Sys, step: Step, hash: Hash) {
    Runs(sys, step) && Running(sys, step).Finish? && Running(sys, step).hash == hash
  }

  /** Controller `c` ends `spec`, by done or by abort. */
  ghost predicate Ends(sys: Sys, step: Step, c: Id, spec: Spec) {
    Runs(sys, step) && Running(sys, step).Finish? && Running(sys, step).id == c && Running(sys, step).spec == spec
  }

  ghost predicate Completes(sys: Sys, step: Step, spec: Spec) {
    Runs(sys, step) && Running(sys, step).Finish? && Running(sys, step).completed && Running(sys, step).spec == spec
  }

  /** DoneScan(false) for the spec, or RemoveImage of it. */
  ghost predicate Resets(step: Step, spec: Spec) {
    || (step.SetStatus? && !step.scanned && step.spec == spec)
    || (step.Vanish? && step.spec == spec)
  }

  // ---- scan once ----

  ghost predicate Scanned(t: Tables, spec: Spec) {
    spec in t.images && t.images[spec]
  }

  lemma UnrequestedUnlessSaved(h: Spec -> Hash, sys: Sys, step: Step, spec: Spec)
    requires Enabled(sys, step) && spec !in sys.tables.requestedImages && !SavesSpec(sys, step, spec)
    ensures spec !in Next(h, sys, step).tables.requestedImages
  {
  }

  lemma SaveKeepsScanned(h: Spec -> Hash, t: Tables, c: Id, s: Spec, spec: Spec)
    requires c in t.daemons && Scanned(t, spec)
    ensures Scanned(SaveFoundImage(h, t, c, s), spec)
  {
  }

  lemma FinishKeepsScanned(t: Tables, c: Id, hash: Hash, s: Spec, spec: Spec)
    requires c in t.daemons && Scanned(t, spec)
    ensures Scanned(FinalizeScan(t, c, hash, s), spec) && Scanned(ReleaseScanForPeer(t, c, hash, s), spec)
  {
  }

  lemma FindKeepsImages(t: Tables, c: Id, s: Spec)
    requires c in t.daemons
    ensures FindWorker(t, c, s).0.images == t.images
  {
  }

  lemma HandleKeepsScanned(h: Spec -> Hash, t: Tables, r: Request, spec: Spec)
    requires r.Servable(t) && Scanned(t, spec)
    ensures Scanned(Handle(h, t, r).0, spec)
  {
    hide FindWorker, SaveFoundImage, FinalizeScan, ReleaseScanForPeer;
    match r
    case Save(id, s) => SaveKeepsScanned(h, t, id, s, spec);
    case Find(id, s) => FindKeepsImages(t, id, s);
    case Finish(id, hash, s, completed) => FinishKeepsScanned(t, id, hash, s, spec);
    case _ =>
  }

  lemma ScannedUnlessReset(h: Spec -> Hash, sys: Sys, step: Step, spec: Spec)
    requires Enabled(sys, step) && Scanned(sys.tables, spec) && !Resets(step, spec)
    ensures Scanned(Next(h, sys, step).tables, spec)
  {
    if step.Run? {
      HandleKeepsScanned(h, sys.tables, sys.handlers[step.ticket], spec);
    }
  }

  lemma {:induction false} StaysUnrequested(h: Spec -> Hash, states: seq<Sys>, steps: seq<Step>, i: nat, k: nat, spec: Spec)
    requires IsRun(h, states, steps) && i <= k < |states|
    requires spec !in states[i].tables.requestedImages
    requires forall n {:trigger steps[n]} | i <= n < k :: !SavesSpec(states[n], steps[n], spec)
    ensures spec !in states[k].tables.requestedImages
    decreases k
  {
    if i < k {
      StaysUnrequested(h, states, steps, i, k - 1, spec);
      UnrequestedUnlessSaved(h, states[k - 1], steps[k - 1], spec);
    }
  }

  lemma {:induction false} StaysScanned(h: Spec -> Hash, states: seq<Sys>, steps: seq<Step>, i: nat, k: nat, spec: Spec)
    requires IsRun(h, states, steps) && i <= k < |states|
    requires Scanned(states[i].tables, spec)
    requires forall n {:trigger steps[n]} | i <= n < k :: !Resets(steps[n], spec)
    ensures Scanned(states[k].tables, spec)
    decreases k
  {
    if i < k {
      StaysScanned(h, states, steps, i, k - 1, spec);
      ScannedUnlessReset(h, states[k - 1], steps[k - 1], spec);
    }
  }

  /** Between a completion of a spec and any later start of it, the spec was
      reported anew; and if its image was in the table at the completion, the
      flag was reset or the image removed. */
  lemma ScannedOnce(h: Spec -> Hash, states: seq<Sys>, steps: seq<Step>, i: nat, j: nat, spec: Spec, c: Id, hash: Hash)
    requires IsRun(h, states, steps) && i < j < |steps|
    requires Completes(states[i], steps[i], spec)
    requires Starts(states[j], steps[j], c, spec, hash)
    ensures exists k {:trigger steps[k]} :: i < k < j && SavesSpec(states[k], steps[k], spec)
    ensures spec in states[i].tables.images ==> exists k {:trigger steps[k]} :: i < k < j && Resets(steps[k], spec)
  {
    if forall k {:trigger steps[k]} | i < k < j :: !SavesSpec(states[k], steps[k], spec) {
      StaysUnrequested(h, states, steps, i + 1, j, spec);
      assert false;
    }
    if spec in states[i].tables.images && forall k {:trigger steps[k]} | i < k < j :: !Resets(steps[k], spec) {
      StaysScanned(h, states, steps, i + 1, j, spec);
      assert false;
    }
  }

  /** After a completion, until the spec is reported anew, no controller has it on
      its request list and every poll for it is told to skip as long as its image
      is in the table, whatever notification jobs do to the flag. */
  lemma StandDown(h: Spec -> Hash, states: seq<Sys>, steps: seq<Step>, i: nat, k: nat, spec: Spec, c: Id)
    requires IsRun(h, states, steps) && i < k < |states|
    requires Completes(states[i], steps[i], spec)
    requires forall n {:trigger steps[n]} | i < n < k :: !SavesSpec(states[n], steps[n], spec)
    requires c in states[k].tables.daemons
    ensures spec !in states[k].tables.daemons[c].requestedScans
    ensures spec in states[k].tables.images ==> FindWorker(states[k].tables, c, spec) == (states[k].tables, SKIP)
  {
    StaysUnrequested(h, states, steps, i + 1, k, spec);
    RunKeepsInv(h, states, steps, k);
    assert ReplicaBacked(h, states[k].tables, states[k].tables.daemons[c]);
  }

  lemma CompletionUnleases(h: Spec -> Hash, sys: Sys, step: Step, spec: Spec)
    requires Inv(h, sys) && Completes(sys, step, spec) && Enabled(sys, step)
    ensures h(spec) !in Next(h, sys, step).tables.assignedImages
  {
    assert RequestGood(h, sys.tables, Running(sys, step));
  }

  // ---- requests that are turned away ----

  /** A request that lacks a name, comes from a controller never heard of, is for a
      hash nobody holds, or reports what its controller holds already, is turned
      away with its own answer and changes nothing. An unknown controller's poll is
      told to come back while the gate is closed. */
  lemma BadRequestsChangeNothing(h: Spec -> Hash, t: Tables, r: Request)
    requires r.Arriving() && "" !in t.daemons
    ensures r.Found? && (r.id == "" || r.spec == "" || r.imageId == "") ==> Serve(h, t, r) == (t, NotFound)
    ensures r.Found? && r.id != "" && r.spec != "" && r.imageId != "" && r.id !in t.daemons ==> Serve(h, t, r) == (t, ServerError)
    ensures r.Found? && r.id in t.daemons && r.spec != "" && r.imageId != "" && AlreadyIdentified(t, r.id, r.spec)
            ==> Serve(h, t, r) == (t, TooMany)
    ensures r.Poll? && (r.id == "" || r.spec == "") ==> Serve(h, t, r) == (t, NotFound)
    ensures r.Poll? && r.id != "" && r.spec != "" && |t.assignedImages| >= 7 ==> Serve(h, t, r) == (t, Granted(Answer("", false, false)))
    ensures r.Poll? && r.id != "" && r.spec != "" && |t.assignedImages| < 7 && r.id !in t.daemons ==> Serve(h, t, r) == (t, NotFound)
    ensures r.Release? ==> Serve(h, t, r).1 == if r.id in t.daemons && r.hash in t.assignedImages then Accepted else NotFound
    ensures r.Release? && Serve(h, t, r).1 == NotFound ==> Serve(h, t, r).0 == t
  {
  }

  // ---- hand-over ----

  ghost predicate HeldBy(t: Tables, hash: Hash, c: Id) {
    hash in t.assignedImages && t.assignedImages[hash].controllerId == c
  }

  lemma HeldUnlessReleased(h: Spec -> Hash, sys: Sys, step: Step, hash: Hash, c: Id)
    requires Enabled(sys, step) && HeldBy(sys.tables, hash, c) && !Releases(sys, step, hash)
    ensures HeldBy(Next(h, sys, step).tables, hash, c)
  {
  }

  lemma {:induction false} StaysHeld(h: Spec -> Hash, states: seq<Sys>, steps: seq<Step>, i: nat, k: nat, hash: Hash, c: Id)
    requires IsRun(h, states, steps) && i <= k < |states|
    requires HeldBy(states[i].tables, hash, c)
    requires forall n {:trigger steps[n]} | i <= n < k :: !Releases(states[n], steps[n], hash)
    ensures HeldBy(states[k].tables, hash, c)
    decreases k
  {
    if i < k {
      StaysHeld(h, states, steps, i, k - 1, hash, c);
      HeldUnlessReleased(h, states[k - 1], steps[k - 1], hash, c);
    }
  }

  lemma HeldBlocksOthers(sys: Sys, step: Step, hash: Hash, c: Id, c': Id, spec: Spec)
    requires HeldBy(sys.tables, hash, c) && c != c'
    ensures !Starts(sys, step, c', spec, hash)
  {
  }

  lemma StartHolds(h: Spec -> Hash, sys: Sys, step: Step, c: Id, spec: Spec, hash: Hash)
    requires Starts(sys, step, c, spec, hash)
    ensures Enabled(sys, step) && HeldBy(Next(h, sys, step).tables, hash, c)
  {
  }

  /** A hash passes from one controller to another only after a done or an abort
      for it; no assumption on the hash, so two specs may share it. */
  lemma HandOverNeedsRelease(h: Spec -> Hash, states: seq<Sys>, steps: seq<Step>, i: nat, j: nat, hash: Hash,
                             c: Id, spec: Spec, c': Id, spec': Spec)
    requires IsRun(h, states, steps) && i < j < |steps| && c != c'
    requires Starts(states[i], steps[i], c, spec, hash)
    requires Starts(states[j], steps[j], c', spec', hash)
    ensures exists k {:trigger steps[k]} :: i < k < j && Releases(states[k], steps[k], hash)
  {
    StartHolds(h, states[i], steps[i], c, spec, hash);
    assert states[i + 1] == Next(h, states[i], steps[i]);
    hide Next, IsRun, Starts, Releases, HeldBy;
    if forall k {:trigger steps[k]} | i < k < j :: !Releases(states[k], steps[k], hash) {
      StaysHeld(h, states, steps, i + 1, j, hash, c);
      HeldBlocksOthers(states[j], steps[j], hash, c, c', spec');
      assert false;
    }
  }

  // ---- when a scan is started ----

  /** When findWorker starts a scan, exactly. */
  ghost predicate CanStart(t: Tables, c: Id, spec: Spec)
    requires c in t.daemons
  {
    && spec in t.images && !t.images[spec]
    && spec in t.requestedImages
    && (t.requestedImages[spec] in t.assignedImages ==> t.assignedImages[t.requestedImages[spec]].controllerId == c)
    && t.daemons[c].Accepts(spec)
  }

  lemma StartsIff(t: Tables, c: Id, spec: Spec)
    requires c in t.daemons
    ensures FindWorker(t, c, spec).1.startScan <==> CanStart(t, c, spec)
  {
  }

  lemma StartResult(t: Tables, c: Id, spec: Spec)
    requires c in t.daemons && CanStart(t, c, spec)
    ensures var hash := t.requestedImages[spec];
            FindWorker(t, c, spec) ==
            (t.(daemons := t.daemons[c := t.daemons[c].AssignScan(spec)],
                assignedImages := t.assignedImages[hash := Lease(c, spec)]),
             Answer(hash, true, false))
  {
  }

  /** A controller that reports an unscanned image which nobody else holds, and has
      a worker, is answered with its hash and started on it by its next poll, first
      to report it or not. */
  lemma ReportThenStart(h: Spec -> Hash, t: Tables, c: Id, spec: Spec, imageId: string)
    requires Backed(h, t) && c in t.daemons && t.daemons[c].workerCount > 0
    requires HasDigest(spec) && !Scanned(t, spec)
    requires spec in t.requestedImages ==> spec in t.images
    requires h(spec) in t.assignedImages ==> t.assignedImages[h(spec)].controllerId == c
    ensures FindWorker(SaveFoundImage(h, t, c, spec), c, spec).1 == Answer(h(spec), true, false)
    ensures forall i | i in t.daemons && i != c :: SaveFoundImage(h, t, c, spec).daemons[i] == t.daemons[i]
    ensures c != "" && imageId != "" && !AlreadyIdentified(t, c, spec)
            ==> Serve(h, t, Found(c, spec, imageId)) == (SaveFoundImage(h, t, c, spec), Created(h(spec)))
  {
    assert '@' in spec && spec != "";
    assert SaveFoundImage(h, t, c, spec).requestedImages[spec] == h(spec);
  }

  /** The holder asking again is started again and nothing changes: why a second
      worker of one controller must not be given the same spec. */
  lemma ReclaimStartsAgain(t: Tables, c: Id, spec: Spec)
    requires c in t.daemons && FindWorker(t, c, spec).1.startScan
    ensures var (t', answer) := FindWorker(t, c, spec); FindWorker(t', c, spec) == (t', answer)
  {
    var (t', answer) := FindWorker(t, c, spec);
    assert t'.daemons[c].AssignScan(spec) == t'.daemons[c];
    assert t'.daemons[c := t'.daemons[c]] == t'.daemons;
    var hash := t.requestedImages[spec];
    assert t'.assignedImages[hash := Lease(c, spec)] == t'.assignedImages;
  }

  ghost predicate Wants(t: Tables, c: Id, spec: Spec) {
    c in t.daemons && spec in t.daemons[c].requestedScans
  }

  lemma SaveKeepsUnwanted(h: Spec -> Hash, t: Tables, id: Id, s: Spec, c: Id, spec: Spec)
    requires id in t.daemons && !Wants(t, c, spec) && !(id == c && s == spec)
    ensures !Wants(SaveFoundImage(h, t, id, s), c, spec)
  {
  }

  lemma FindKeepsUnwanted(t: Tables, id: Id, s: Spec, c: Id, spec: Spec)
    requires id in t.daemons && !Wants(t, c, spec)
    ensures !Wants(FindWorker(t, id, s).0, c, spec)
  {
  }

  lemma FinishKeepsUnwanted(t: Tables, id: Id, hash: Hash, s: Spec, c: Id, spec: Spec)
    requires id in t.daemons && !Wants(t, c, spec)
    ensures !Wants(FinalizeScan(t, id, hash, s), c, spec) && !Wants(ReleaseScanForPeer(t, id, hash, s), c, spec)
  {
  }

  lemma HandleKeepsUnwanted(h: Spec -> Hash, t: Tables, r: Request, c: Id, spec: Spec)
    requires r.Servable(t) && !Wants(t, c, spec) && !(r.Save? && r.id == c && r.spec == spec)
    ensures !Wants(Handle(h, t, r).0, c, spec)
  {
    hide FindWorker, SaveFoundImage, FinalizeScan, ReleaseScanForPeer;
    match r
    case Save(id, s) => SaveKeepsUnwanted(h, t, id, s, c, spec);
    case Find(id, s) => FindKeepsUnwanted(t, id, s, c, spec);
    case Finish(id, hash, s, completed) => FinishKeepsUnwanted(t, id, hash, s, c, spec);
    case _ =>
  }

  lemma UnwantedUnlessSaved(h: Spec -> Hash, sys: Sys, step: Step, c: Id, spec: Spec)
    requires Enabled(sys, step) && !Wants(sys.tables, c, spec) && !SavesFor(sys, step, c, spec)
    ensures !Wants(Next(h, sys, step).tables, c, spec)
  {
    if step.Run? {
      HandleKeepsUnwanted(h, sys.tables, sys.handlers[step.ticket], c, spec);
    }
  }

  lemma {:induction false} StaysUnwanted(h: Spec -> Hash, states: seq<Sys>, steps: seq<Step>, i: nat, k: nat, c: Id, spec: Spec)
    requires IsRun(h, states, steps) && i <= k < |states|
    requires !Wants(states[i].tables, c, spec)
    requires forall n {:trigger steps[n]} | i <= n < k :: !SavesFor(states[n], steps[n], c, spec)
    ensures !Wants(states[k].tables, c, spec)
    decreases k
  {
    if i < k {
      StaysUnwanted(h, states, steps, i, k - 1, c, spec);
      UnwantedUnlessSaved(h, states[k - 1], steps[k - 1], c, spec);
    }
  }

  lemma EndedIsUnwanted(h: Spec -> Hash, sys: Sys, step: Step, c: Id, spec: Spec)
    requires Ends(sys, step, c, spec)
    ensures Enabled(sys, step) && !Wants(Next(h, sys, step).tables, c, spec)
  {
  }

  lemma StartedIsWanted(sys: Sys, step: Step, c: Id, spec: Spec, hash: Hash)
    requires Starts(sys, step, c, spec, hash)
    ensures Wants(sys.tables, c, spec)
  {
  }

  /** A controller that ended a spec, by done or abort, is not started on it
      again before it has itself reported it again. */
  lemma EndedControllerMustReport(h: Spec -> Hash, states: seq<Sys>, steps: seq<Step>, i: nat, j: nat,
                                  c: Id, spec: Spec, hash: Hash)
    requires IsRun(h, states, steps) && i < j < |steps|
    requires Ends(states[i], steps[i], c, spec)
    requires Starts(states[j], steps[j], c, spec, hash)
    ensures exists k {:trigger steps[k]} :: i < k < j && SavesFor(states[k], steps[k], c, spec)
  {
    EndedIsUnwanted(h, states[i], steps[i], c, spec);
    StartedIsWanted(states[j], steps[j], c, spec, hash);
    assert states[i + 1] == Next(h, states[i], steps[i]);
    hide Next, IsRun, Starts, Ends, SavesFor, Wants;
    if forall k {:trigger steps[k]} | i < k < j :: !SavesFor(states[k], steps[k], c, spec) {
      StaysUnwanted(h, states, steps, i + 1, j, c, spec);
      assert false;
    }
  }

  // ---- abort returns the work ----

  /** An abort of the spec is processed. */
  ghost predicate Aborts(sys: Sys, step: Step, spec: Spec) {
    Runs(sys, step) && Running(sys, step).Finish? && !Running(sys, step).completed && Running(sys, step).spec == spec
  }

  /** findWorker starts some controller under the hash. */
  ghost predicate GrantsHash(sys: Sys, step: Step, hash: Hash) {
    Runs(sys, step) && Running(sys, step).Find? &&
    var answer := FindWorker(sys.tables, Running(sys, step).id, Running(sys, step).spec).1;
    answer.startScan && answer.requestId == hash
  }

  /** The image is removed, or marked scanned by a notification or a done. */
  ghost predicate Spoils(sys: Sys, step: Step, spec: Spec) {
    step == Vanish(spec) || step == SetStatus(spec, true) || Completes(sys, step, spec)
  }

  /** Nobody has the hash, and the image waits to be scanned. */
  ghost predicate Freed(t: Tables, hash: Hash, spec: Spec) {
    hash !in t.assignedImages && spec in t.images && !t.images[spec]
  }

  lemma FreedByFind(t: Tables, c: Id, s: Spec, hash: Hash, spec: Spec)
    requires c in t.daemons && Freed(t, hash, spec)
    requires FindWorker(t, c, s).1.startScan ==> FindWorker(t, c, s).1.requestId != hash
    ensures Freed(FindWorker(t, c, s).0, hash, spec)
  {
  }

  lemma FreedBySave(h: Spec -> Hash, t: Tables, c: Id, s: Spec, hash: Hash, spec: Spec)
    requires c in t.daemons && Freed(t, hash, spec)
    ensures Freed(SaveFoundImage(h, t, c, s), hash, spec)
  {
  }

  lemma FreedByFinish(t: Tables, c: Id, x: Hash, s: Spec, hash: Hash, spec: Spec)
    requires c in t.daemons && Freed(t, hash, spec)
    ensures s != spec ==> Freed(FinalizeScan(t, c, x, s), hash, spec)
    ensures Freed(ReleaseScanForPeer(t, c, x, s), hash, spec)
  {
  }

  lemma StepKeepsFreed(h: Spec -> Hash, sys: Sys, step: Step, hash: Hash, spec: Spec)
    requires Enabled(sys, step) && Freed(sys.tables, hash, spec) && !GrantsHash(sys, step, hash) && !Spoils(sys, step, spec)
    ensures Freed(Next(h, sys, step).tables, hash, spec)
  {
    if step.Run? {
      hide FindWorker, SaveFoundImage, FinalizeScan, ReleaseScanForPeer;
      match sys.handlers[step.ticket]
      case Save(id, s) => FreedBySave(h, sys.tables, id, s, hash, spec);
      case Find(id, s) => FreedByFind(sys.tables, id, s, hash, spec);
      case Finish(id, x, s, completed) => FreedByFinish(sys.tables, id, x, s, hash, spec);
      case _ =>
    }
  }

  lemma {:induction false} StaysFreed(h: Spec -> Hash, states: seq<Sys>, steps: seq<Step>, i: nat, k: nat, hash: Hash, spec: Spec)
    requires IsRun(h, states, steps) && i <= k < |states| && Freed(states[i].tables, hash, spec)
    requires forall n {:trigger steps[n]} | i <= n < k :: !GrantsHash(states[n], steps[n], hash) && !Spoils(states[n], steps[n], spec)
    ensures Freed(states[k].tables, hash, spec)
    decreases k
  {
    if i < k {
      StaysFreed(h, states, steps, i, k - 1, hash, spec);
      assert Enabled(states[k - 1], steps[k - 1]) && states[k] == Next(h, states[k - 1], steps[k - 1]);
      hide Next, Enabled, Freed;
      StepKeepsFreed(h, states[k - 1], steps[k - 1], hash, spec);
    }
  }

  lemma AbortFrees(h: Spec -> Hash, sys: Sys, step: Step, spec: Spec)
    requires Inv(h, sys) && Enabled(sys, step) && Aborts(sys, step, spec) && spec in sys.tables.images && !sys.tables.images[spec]
    ensures Freed(Next(h, sys, step).tables, h(spec), spec)
  {
    assert RequestGood(h, sys.tables, Running(sys, step));
  }

  lemma FreedStarts(h: Spec -> Hash, t: Tables, c: Id, spec: Spec)
    requires Backed(h, t) && Freed(t, h(spec), spec)
    requires Wants(t, c, spec) && t.daemons[c].workerCount > 0
    ensures FindWorker(t, c, spec).1 == Answer(h(spec), true, false)
  {
    assert ReplicaBacked(h, t, t.daemons[c]);
  }

  /** After an abort of an unscanned image, until its hash is granted again or the
      image is removed or marked scanned, every findWorker for it by a controller
      that asks for it and has a free worker starts the scan. */
  lemma AbortFreesForPeers(h: Spec -> Hash, states: seq<Sys>, steps: seq<Step>, i: nat, j: nat, spec: Spec, c: Id)
    requires IsRun(h, states, steps) && i < j < |steps|
    requires Aborts(states[i], steps[i], spec) && spec in states[i].tables.images && !states[i].tables.images[spec]
    requires forall n {:trigger steps[n]} | i < n < j ::
               !GrantsHash(states[n], steps[n], h(spec)) && !Spoils(states[n], steps[n], spec)
    requires Finds(states[j], steps[j], c, spec)
    requires Wants(states[j].tables, c, spec) && states[j].tables.daemons[c].workerCount > 0
    ensures Starts(states[j], steps[j], c, spec, h(spec))
  {
    RunKeepsInv(h, states, steps, i);
    assert Enabled(states[i], steps[i]) && states[i + 1] == Next(h, states[i], steps[i]);
    AbortFrees(h, states[i], steps[i], spec);
    hide Next, IsRun, Freed, Finds, GrantsHash, Spoils, Wants;
    StaysFreed(h, states, steps, i + 1, j, h(spec), spec);
    RunKeepsInv(h, states, steps, j);
    FreedStarts(h, states[j].tables, c, spec);
  }

  // ---- grants are paid for by finds ----

  /** A start that takes a worker. */
  ghost predicate FreshGrant(sys: Sys, step: Step, c: Id, spec: Spec) {
    Finds(sys, step, c, spec) && FindWorker(sys.tables, c, spec).1.startScan && spec !in sys.tables.daemons[c].assignedScans
  }

  /** AddScanRequest is called for the controller and spec. */
  ghost predicate Asks(sys: Sys, step: Step, c: Id, spec: Spec) {
    SavesFor(sys, step, c, spec) && !SavePanics(sys.tables, spec)
  }

  ghost function Grants(states: seq<Sys>, steps: seq<Step>, n: nat, c: Id, spec: Spec): nat
    requires n <= |steps| <= |states|
  {
    if n == 0 then 0
    else Grants(states, steps, n - 1, c, spec) + if FreshGrant(states[n - 1], steps[n - 1], c, spec) then 1 else 0
  }

  ghost function Requests(states: seq<Sys>, steps: seq<Step>, n: nat, c: Id, spec: Spec): nat
    requires n <= |steps| <= |states|
  {
    if n == 0 then 0
    else Requests(states, steps, n - 1, c, spec) + if Asks(states[n - 1], steps[n - 1], c, spec) then 1 else 0
  }

  /** One credit: asked for and not yet assigned. */
  ghost function Credit(t: Tables, c: Id, spec: Spec): nat {
    if c in t.daemons && spec in t.daemons[c].requestedScans && spec !in t.daemons[c].assignedScans then 1 else 0
  }

  lemma CreditForSave(h: Spec -> Hash, t: Tables, c: Id, spec: Spec, id: Id, s: Spec)
    requires id in t.daemons
    ensures Credit(SaveFoundImage(h, t, id, s), c, spec)
            <= Credit(t, c, spec) + (if id == c && s == spec && !SavePanics(t, spec) then 1 else 0)
  {
  }

  lemma CreditForFind(t: Tables, c: Id, spec: Spec, id: Id, s: Spec)
    requires id in t.daemons
    ensures var (t', answer) := FindWorker(t, id, s);
            Credit(t', c, spec) <= Credit(t, c, spec)
            && (id == c && s == spec && answer.startScan && spec !in t.daemons[c].assignedScans
                ==> Credit(t', c, spec) < Credit(t, c, spec))
  {
  }

  lemma CreditForFinish(t: Tables, c: Id, spec: Spec, id: Id, hash: Hash, s: Spec)
    requires id in t.daemons
    ensures Credit(FinalizeScan(t, id, hash, s), c, spec) <= Credit(t, c, spec)
    ensures Credit(ReleaseScanForPeer(t, id, hash, s), c, spec) <= Credit(t, c, spec)
  {
  }

  lemma CreditStep(h: Spec -> Hash, sys: Sys, step: Step, c: Id, spec: Spec)
    requires Enabled(sys, step)
    ensures Credit(Next(h, sys, step).tables, c, spec) + (if FreshGrant(sys, step, c, spec) then 1 else 0)
            <= Credit(sys.tables, c, spec) + (if Asks(sys, step, c, spec) then 1 else 0)
  {
    if step.Run? {
      match sys.handlers[step.ticket]
      case Save(id, s) => CreditForSave(h, sys.tables, c, spec, id, s);
      case Find(id, s) => CreditForFind(sys.tables, c, spec, id, s);
      case Finish(id, hash, s, completed) => CreditForFinish(sys.tables, c, spec, id, hash, s);
      case _ =>
    }
  }

  /** Along every run, a controller takes a worker for a spec at most once for
      each time it reported it. */
  lemma {:induction false} GrantsPaidByRequests(h: Spec -> Hash, states: seq<Sys>, steps: seq<Step>, n: nat, c: Id, spec: Spec)
    requires IsRun(h, states, steps) && n <= |steps|
    ensures Grants(states, steps, n, c, spec) + Credit(states[n].tables, c, spec) <= Requests(states, steps, n, c, spec)
  {
    if n > 0 {
      GrantsPaidByRequests(h, states, steps, n - 1, c, spec);
      CreditStep(h, states[n - 1], steps[n - 1], c, spec);
    }
  }
}
