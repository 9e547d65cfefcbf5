/** What a step of the arbiter does to each of its tables, entry by entry: who puts
    an entry there, who takes it out, who changes it, and that nobody else does. */
module Ledger {
  import opened LeaseTables
  import opened LeaseProtocol
  import opened LeaseRuns

  // ---- the image table ----

  /** The image is shown to the arbiter: it appears in an image stream, or a
      controller reports it while it is not asked for. */
  ghost predicate Shows(sys: Sys, step: Step, spec: Spec) {
    step == Appear(spec) || (SavesSpec(sys, step, spec) && spec !in sys.tables.requestedImages)
  }

  /** An image of the table as the step leaves it. */
  ghost predicate ImageAfter(sys: Sys, step: Step, t': Tables, spec: Spec) {
    var images := sys.tables.images;
    && (spec in t'.images <==> (spec in images && step != Vanish(spec)) || (Shows(sys, step, spec) && '@' in spec))
    && (spec in t'.images ==>
          t'.images[spec] ==
            if spec !in images then false
            else if step.SetStatus? && step.spec == spec then step.scanned
            else images[spec] || Completes(sys, step, spec))
  }

  lemma SaveOnImages(h: Spec -> Hash, t: Tables, c: Id, s: Spec, spec: Spec)
    requires c in t.daemons
    ensures var images := SaveFoundImage(h, t, c, s).images;
            && (spec in images <==> spec in t.images || (s == spec && spec !in t.requestedImages && '@' in spec))
            && (spec in images ==> images[spec] == (spec in t.images && t.images[spec]))
  {
  }

  lemma FinishOnImages(t: Tables, c: Id, hash: Hash, s: Spec, spec: Spec)
    requires c in t.daemons
    ensures ReleaseScanForPeer(t, c, hash, s).images == t.images
    ensures var images := FinalizeScan(t, c, hash, s).images;
            && images.Keys == t.images.Keys
            && (spec in images ==> images[spec] == (t.images[spec] || s == spec))
  {
  }

  /** An image comes into the table only where it is shown and has a digest, and
      unscanned; it leaves only where it is removed; and its flag is changed only by
      a notification, or set by a done. */
  lemma ImageLedger(h: Spec -> Hash, sys: Sys, step: Step, spec: Spec)
    requires Enabled(sys, step)
    ensures ImageAfter(sys, step, Next(h, sys, step).tables, spec)
  {
    if step.Run? {
      hide FindWorker, SaveFoundImage, FinalizeScan, ReleaseScanForPeer;
      match sys.handlers[step.ticket]
      case Save(id, s) => SaveOnImages(h, sys.tables, id, s, spec);
      case Find(id, s) => FindKeepsImages(sys.tables, id, s);
      case Finish(id, hash, s, completed) => FinishOnImages(sys.tables, id, hash, s, spec);
      case _ =>
    }
  }

  /** The background touches the image table only. */
  lemma BackgroundLedger(h: Spec -> Hash, sys: Sys, step: Step)
    requires Enabled(sys, step) && (step.Appear? || step.Vanish? || step.SetStatus?)
    ensures var sys' := Next(h, sys, step);
            && sys'.handlers == sys.handlers && sys'.capacity == sys.capacity
            && sys'.tables.daemons == sys.tables.daemons
            && sys'.tables.requestedImages == sys.tables.requestedImages
            && sys'.tables.assignedImages == sys.tables.assignedImages
  {
  }

  // ---- the request table ----

  lemma SaveOnRequests(h: Spec -> Hash, t: Tables, c: Id, s: Spec)
    requires c in t.daemons
    ensures SaveFoundImage(h, t, c, s).requestedImages ==
              if s in t.requestedImages then t.requestedImages else t.requestedImages[s := h(s)]
  {
  }

  lemma FindOnRequests(t: Tables, c: Id, s: Spec)
    requires c in t.daemons
    ensures FindWorker(t, c, s).0.requestedImages == t.requestedImages
  {
  }

  /** A spec is asked for from when a report of it is recorded until a done of it,
      even where the record panics part way. */
  lemma RequestLedger(h: Spec -> Hash, sys: Sys, step: Step, spec: Spec)
    requires Enabled(sys, step)
    ensures var asked, asked' := sys.tables.requestedImages, Next(h, sys, step).tables.requestedImages;
            && (spec in asked' <==> (spec in asked && !Completes(sys, step, spec)) || SavesSpec(sys, step, spec))
            && (spec in asked' ==> asked'[spec] == if spec in asked then asked[spec] else h(spec))
  {
    if step.Run? {
      hide FindWorker, SaveFoundImage;
      match sys.handlers[step.ticket]
      case Save(id, s) => SaveOnRequests(h, sys.tables, id, s);
      case Find(id, s) => FindOnRequests(sys.tables, id, s);
      case _ =>
    }
  }

  // ---- the controllers' lists ----

  /** Controller `c` ends the spec, or any controller reports it done. */
  ghost predicate StandsDown(sys: Sys, step: Step, c: Id, spec: Spec) {
    Completes(sys, step, spec) || Ends(sys, step, c, spec)
  }

  lemma SaveOnLists(h: Spec -> Hash, t: Tables, id: Id, s: Spec, c: Id, spec: Spec)
    requires id in t.daemons && c in t.daemons
    ensures var t' := SaveFoundImage(h, t, id, s);
            && c in t'.daemons && t'.daemons[c].assignedScans == t.daemons[c].assignedScans
            && (spec in t'.daemons[c].requestedScans <==>
                  spec in t.daemons[c].requestedScans || (id == c && s == spec && !SavePanics(t, spec)))
            && (spec in t'.daemons[c].requestedScans && !(id == c && s == spec) ==>
                  t'.daemons[c].requestedScans[spec] == t.daemons[c].requestedScans[spec])
  {
  }

  lemma FindOnLists(t: Tables, id: Id, s: Spec, c: Id, spec: Spec)
    requires id in t.daemons && c in t.daemons
    ensures var (t', answer) := FindWorker(t, id, s);
            && c in t'.daemons && t'.daemons[c].requestedScans == t.daemons[c].requestedScans
            && (spec in t'.daemons[c].assignedScans <==>
                  spec in t.daemons[c].assignedScans || (id == c && s == spec && answer.startScan))
  {
  }

  lemma FinishOnLists(t: Tables, id: Id, hash: Hash, s: Spec, c: Id, spec: Spec)
    requires id in t.daemons && c in t.daemons
    ensures var f, r := FinalizeScan(t, id, hash, s), ReleaseScanForPeer(t, id, hash, s);
            && c in f.daemons && c in r.daemons
            && (spec in f.daemons[c].requestedScans <==> spec in t.daemons[c].requestedScans && s != spec)
            && (spec in r.daemons[c].requestedScans <==> spec in t.daemons[c].requestedScans && !(s == spec && id == c))
            && (spec in f.daemons[c].requestedScans ==> f.daemons[c].requestedScans[spec] == t.daemons[c].requestedScans[spec])
            && (spec in r.daemons[c].requestedScans ==> r.daemons[c].requestedScans[spec] == t.daemons[c].requestedScans[spec])
            && (spec in f.daemons[c].assignedScans <==> spec in t.daemons[c].assignedScans && !(s == spec && id == c))
            && (spec in r.daemons[c].assignedScans <==> spec in t.daemons[c].assignedScans && !(s == spec && id == c))
  {
  }

  /** A controller's lists as the step leaves them. */
  ghost predicate ListsAfter(sys: Sys, step: Step, t': Tables, c: Id, spec: Spec)
    requires c in sys.tables.daemons
  {
    c in t'.daemons &&
    var d, d' := sys.tables.daemons[c], t'.daemons[c];
    && (spec in d'.requestedScans <==>
          (spec in d.requestedScans && !StandsDown(sys, step, c, spec)) || Asks(sys, step, c, spec))
    && (spec in d'.assignedScans <==>
          (spec in d.assignedScans && !Ends(sys, step, c, spec)) || FreshGrant(sys, step, c, spec))
  }

  lemma ListsAfterSave(h: Spec -> Hash, sys: Sys, step: Step, c: Id, spec: Spec)
    requires Enabled(sys, step) && c in sys.tables.daemons && step.Run? && sys.handlers[step.ticket].Save?
    ensures ListsAfter(sys, step, Next(h, sys, step).tables, c, spec)
  {
    var r := sys.handlers[step.ticket];
    hide SaveFoundImage, SavePanics;
    SaveOnLists(h, sys.tables, r.id, r.spec, c, spec);
  }

  lemma ListsAfterFind(h: Spec -> Hash, sys: Sys, step: Step, c: Id, spec: Spec)
    requires Enabled(sys, step) && c in sys.tables.daemons && step.Run? && sys.handlers[step.ticket].Find?
    ensures ListsAfter(sys, step, Next(h, sys, step).tables, c, spec)
  {
    var r := sys.handlers[step.ticket];
    hide FindWorker;
    FindOnLists(sys.tables, r.id, r.spec, c, spec);
  }

  lemma ListsAfterFinish(h: Spec -> Hash, sys: Sys, step: Step, c: Id, spec: Spec)
    requires Enabled(sys, step) && c in sys.tables.daemons && step.Run? && sys.handlers[step.ticket].Finish?
    ensures ListsAfter(sys, step, Next(h, sys, step).tables, c, spec)
  {
    var r := sys.handlers[step.ticket];
    hide FinalizeScan, ReleaseScanForPeer;
    FinishOnLists(sys.tables, r.id, r.hash, r.spec, c, spec);
  }

  /** A controller asks for a spec from its own report until it ends it or anyone
      reports it done; it is assigned a spec from a start of its own until it ends
      it itself. */
  lemma ListLedger(h: Spec -> Hash, sys: Sys, step: Step, c: Id, spec: Spec)
    requires Enabled(sys, step) && c in sys.tables.daemons
    ensures ListsAfter(sys, step, Next(h, sys, step).tables, c, spec)
  {
    if step.Run? && sys.handlers[step.ticket].Save? {
      ListsAfterSave(h, sys, step, c, spec);
    } else if step.Run? && sys.handlers[step.ticket].Find? {
      ListsAfterFind(h, sys, step, c, spec);
    } else if step.Run? && sys.handlers[step.ticket].Finish? {
      ListsAfterFinish(h, sys, step, c, spec);
    } else {
      hide SaveFoundImage, FindWorker, FinalizeScan, ReleaseScanForPeer;
    }
  }

  // ---- the lease table ----

  lemma FindOnLeases(t: Tables, c: Id, s: Spec)
    requires c in t.daemons
    ensures var (t', answer) := FindWorker(t, c, s);
            t'.assignedImages == if answer.startScan then t.assignedImages[answer.requestId := Lease(c, s)] else t.assignedImages
  {
  }

  lemma SaveOnLeases(h: Spec -> Hash, t: Tables, c: Id, s: Spec)
    requires c in t.daemons
    ensures SaveFoundImage(h, t, c, s).assignedImages == t.assignedImages
  {
  }

  /** A hash is leased from a start under it until a done or abort for it, to the
      controller and for the spec of the latest start. */
  lemma LeaseLedger(h: Spec -> Hash, sys: Sys, step: Step, hash: Hash)
    requires Enabled(sys, step)
    ensures var leases, leases' := sys.tables.assignedImages, Next(h, sys, step).tables.assignedImages;
            && (hash in leases' <==> (hash in leases && !Releases(sys, step, hash)) || GrantsHash(sys, step, hash))
            && (hash in leases' ==>
                  leases'[hash] == if GrantsHash(sys, step, hash) then Lease(Running(sys, step).id, Running(sys, step).spec)
                                   else leases[hash])
  {
    if step.Run? {
      hide FindWorker, SaveFoundImage;
      match sys.handlers[step.ticket]
      case Save(id, s) => SaveOnLeases(h, sys.tables, id, s);
      case Find(id, s) => FindOnLeases(sys.tables, id, s);
      case _ =>
    }
  }

  // ---- the controllers ----

  /** A controller is known from its first heartbeat with a name, with the workers
      of that heartbeat, nothing asked for and nothing assigned; for good. */
  lemma RegisterLedger(h: Spec -> Hash, sys: Sys, step: Step, c: Id)
    requires Enabled(sys, step) && WorkersConserved(sys.tables, sys.capacity)
    ensures var known, known' := sys.tables.daemons, Next(h, sys, step).tables.daemons;
            && (c in known' <==> c in known || (step.Register? && step.id == c && c != ""))
            && (c in known' && c !in known ==>
                  known'[c].workerCount == step.workers && known'[c].requestedScans == map[] && known'[c].assignedScans == {})
  {
    if step.Run? {
      hide Handle;
      HandleKeepsWorkers(h, sys.tables, sys.handlers[step.ticket], sys.capacity);
    }
  }

  /** The flag of the image is set, by a notification or by a done. */
  ghost predicate Marks(sys: Sys, step: Step, spec: Spec) {
    step == SetStatus(spec, true) || Completes(sys, step, spec)
  }

  /** What the words for such steps promise: a reset leaves the image missing or
      unscanned, a mark leaves it missing or scanned, and after either kind of
      spoiling it is not there to be scanned. */
  lemma FlagWords(h: Spec -> Hash, sys: Sys, step: Step, spec: Spec)
    requires Enabled(sys, step)
    ensures var images := Next(h, sys, step).tables.images;
            && (Resets(step, spec) ==> spec in images ==> !images[spec])
            && (Marks(sys, step, spec) ==> spec in images ==> images[spec])
            && (Spoils(sys, step, spec) ==> spec in images ==> images[spec])
  {
    ImageLedger(h, sys, step, spec);
    hide Next;
  }

  // ---- a removed image, over runs ----

  /** From a removal on, and until the image is shown again, it is missing. */
  lemma {:induction false} MissingUntilShown(h: Spec -> Hash, states: seq<Sys>, steps: seq<Step>, i: nat, n: nat, spec: Spec)
    requires IsRun(h, states, steps) && i < n < |states| && steps[i] == Vanish(spec)
    requires forall k {:trigger steps[k]} | i < k < n :: !Shows(states[k], steps[k], spec)
    ensures spec !in states[n].tables.images
    decreases n
  {
    assert Enabled(states[n - 1], steps[n - 1]) && states[n] == Next(h, states[n - 1], steps[n - 1]);
    ImageLedger(h, states[n - 1], steps[n - 1], spec);
    hide Next, Enabled;
    if i + 1 < n {
      MissingUntilShown(h, states, steps, i, n - 1, spec);
    }
  }

  /** From a removal on, and until its flag is set anew, an image is missing or
      unscanned, whatever its flag was. */
  lemma {:induction false} RemovalClearsFlag(h: Spec -> Hash, states: seq<Sys>, steps: seq<Step>, i: nat, n: nat, spec: Spec)
    requires IsRun(h, states, steps) && i < n < |states| && steps[i] == Vanish(spec)
    requires forall k {:trigger steps[k]} | i < k < n :: !Marks(states[k], steps[k], spec)
    ensures spec in states[n].tables.images ==> !states[n].tables.images[spec]
    decreases n
  {
    assert Enabled(states[n - 1], steps[n - 1]) && states[n] == Next(h, states[n - 1], steps[n - 1]);
    ImageLedger(h, states[n - 1], steps[n - 1], spec);
    hide Next, Enabled;
    if i + 1 < n {
      RemovalClearsFlag(h, states, steps, i, n - 1, spec);
    }
  }

  lemma RequestedStarts(h: Spec -> Hash, t: Tables, c: Id, spec: Spec)
    requires Backed(h, t) && spec in t.images && !t.images[spec] && Wants(t, c, spec) && t.daemons[c].workerCount > 0
    requires h(spec) in t.assignedImages ==> t.assignedImages[h(spec)].controllerId == c
    ensures FindWorker(t, c, spec).1 == Answer(h(spec), true, false)
  {
    assert ReplicaBacked(h, t, t.daemons[c]);
  }

  /** So an image that was scanned, removed and shown again is scanned anew: unless
      its flag has been set since the removal, every findWorker for it by a
      controller that asks for it and has a free worker starts it, if nobody else
      holds it. */
  lemma RemovedIsScannedAnew(h: Spec -> Hash, states: seq<Sys>, steps: seq<Step>, i: nat, j: nat, spec: Spec, c: Id)
    requires IsRun(h, states, steps) && i < j < |steps| && steps[i] == Vanish(spec)
    requires forall k {:trigger steps[k]} | i < k < j :: !Marks(states[k], steps[k], spec)
    requires Finds(states[j], steps[j], c, spec) && spec in states[j].tables.images
    requires Wants(states[j].tables, c, spec) && states[j].tables.daemons[c].workerCount > 0
    requires h(spec) in states[j].tables.assignedImages ==> states[j].tables.assignedImages[h(spec)].controllerId == c
    ensures Starts(states[j], steps[j], c, spec, h(spec))
  {
    RemovalClearsFlag(h, states, steps, i, j, spec);
    RunKeepsInv(h, states, steps, j);
    hide IsRun, Wants;
    RequestedStarts(h, states[j].tables, c, spec);
  }
}
