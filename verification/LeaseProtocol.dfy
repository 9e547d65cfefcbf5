/** The arbiter as a state machine: any number of requests being served at once,
    each atomic section a step, interleaved with heartbeats and the background
    updates of the image table. What is proved here needs no good behaviour of
    the callers: anyone may send done or abort for any hash, late or twice. */
module LeaseProtocol {
  import opened LeaseTables
  import opened Counting

  /** `capacity` remembers the worker count given at first registration; the
      program keeps only the running counter. */
  datatype Sys = Sys(tables: Tables, capacity: map<Id, int>, handlers: map<nat, Request>)

  datatype Step =
    | Arrive(ticket: nat, request: Request)
    | Run(ticket: nat)
    | Register(id: Id, workers: int)
    | Appear(spec: Spec)
    | Vanish(spec: Spec)
    | SetStatus(spec: Spec, scanned: bool)
    | Stutter

  const Init := Sys(Tables(map[], map[], map[], map[]), map[], map[])

  ghost predicate Enabled(sys: Sys, step: Step) {
    match step
    case Arrive(ticket, request) => ticket !in sys.handlers && request.Arriving()
    case Run(ticket) => ticket in sys.handlers && sys.handlers[ticket].Servable(sys.tables)
    case Appear(spec) => spec in sys.tables.images || HasDigest(spec)
    case _ => true
  }

  function RunHandler(h: Spec -> Hash, sys: Sys, ticket: nat): Sys
    requires ticket in sys.handlers && sys.handlers[ticket].Servable(sys.tables)
  {
    var (tables, out) := Handle(h, sys.tables, sys.handlers[ticket]);
    sys.(tables := tables,
         handlers := if out.Continue? then sys.handlers[ticket := out.next] else sys.handlers - {ticket})
  }

  ghost function Next(h: Spec -> Hash, sys: Sys, step: Step): Sys
    requires Enabled(sys, step)
  {
    match step
    case Arrive(ticket, request) => sys.(handlers := sys.handlers[ticket := request])
    case Run(ticket) => RunHandler(h, sys, ticket)
    case Register(id, workers) =>
      sys.(tables := RegisterControllerAlive(sys.tables, id, workers),
           capacity := if id == "" || id in sys.tables.daemons then sys.capacity else sys.capacity[id := workers])
    case Appear(spec) => sys.(tables := AddImage(sys.tables, spec))
    case Vanish(spec) => sys.(tables := RemoveImage(sys.tables, spec))
    case SetStatus(spec, scanned) => sys.(tables := SetImageStatus(sys.tables, spec, scanned))
    case Stutter => sys
  }

  /** `states[k]` is the state before `steps[k]`. */
  ghost predicate IsRun(h: Spec -> Hash, states: seq<Sys>, steps: seq<Step>) {
    && |states| == |steps| + 1
    && states[0] == Init
    && forall k {:trigger steps[k]} | 0 <= k < |steps| :: Enabled(states[k], steps[k]) && states[k + 1] == Next(h, states[k], steps[k])
  }

  /** The state is the last one of some run. */
  ghost predicate Reachable(h: Spec -> Hash, sys: Sys) {
    exists states, steps :: IsRun(h, states, steps) && states[|steps|] == sys
  }

  lemma ReachNext(h: Spec -> Hash, sys: Sys, step: Step)
    requires Reachable(h, sys) && Enabled(sys, step)
    ensures Reachable(h, Next(h, sys, step))
  {
    var states, steps :| IsRun(h, states, steps) && states[|steps|] == sys;
    var states', steps' := states + [Next(h, sys, step)], steps + [step];
    forall k | 0 <= k < |steps'|
      ensures Enabled(states'[k], steps'[k]) && states'[k + 1] == Next(h, states'[k], steps'[k])
    {
      if k < |steps| {
        assert steps'[k] == steps[k];
      }
    }
    assert IsRun(h, states', steps');
  }

  /** An idle arbiter can serve one request to its end. */
  lemma ReachServe(h: Spec -> Hash, sys: Sys, r: Request)
    requires Reachable(h, sys) && sys.handlers == map[] && r.Arriving()
    ensures Reachable(h, sys.(tables := Serve(h, sys.tables, r).0))
  {
    ReachNext(h, sys, Arrive(0, r));
    var arrived := Next(h, sys, Arrive(0, r));
    ReachNext(h, arrived, Run(0));
    var once := Next(h, arrived, Run(0));
    if 0 in once.handlers {
      var next := once.handlers[0];
      ReachNext(h, once, Run(0));
      assert Serve(h, once.tables, next).0 == Handle(h, once.tables, next).0;
      assert Next(h, once, Run(0)).handlers == map[];
    } else {
      assert once.handlers == map[];
    }
  }

  /** Nothing is ruled out: any request may arrive from anyone at any time, a request
      under way goes on unless its controller is unknown, and the image table may
      change at any time, but for an image that ends the program. */
  lemma AnyoneMaySend(sys: Sys, k: nat, r: Request, id: Id, n: int, spec: Spec, scanned: bool)
    ensures k !in sys.handlers && (r.Found? || r.Poll? || r.Release?) ==> Enabled(sys, Arrive(k, r))
    ensures k in sys.handlers && (sys.handlers[k].Found? || sys.handlers[k].Poll? || sys.handlers[k].Release? || sys.handlers[k].id in sys.tables.daemons)
            ==> Enabled(sys, Run(k))
    ensures Enabled(sys, Register(id, n)) && Enabled(sys, Vanish(spec)) && Enabled(sys, SetStatus(spec, scanned))
    ensures Enabled(sys, Appear(spec)) <==> spec in sys.tables.images || '@' in spec
  {
  }

  // ---- the invariant every caller keeps ----

  ghost predicate RequestsHashed(h: Spec -> Hash, t: Tables) {
    forall s | s in t.requestedImages :: t.requestedImages[s] == h(s)
  }

  ghost predicate ReplicaBacked(h: Spec -> Hash, t: Tables, d: Daemon) {
    forall s | s in d.requestedScans :: s in t.requestedImages && d.requestedScans[s] == h(s)
  }

  ghost predicate LeaseBacked(h: Spec -> Hash, t: Tables, hash: Hash, lease: Lease) {
    && hash == h(lease.imageSpec)
    && lease.imageSpec in t.requestedImages
    && lease.controllerId in t.daemons
    && lease.imageSpec in t.daemons[lease.controllerId].assignedScans
  }

  ghost predicate Backed(h: Spec -> Hash, t: Tables) {
    && RequestsHashed(h, t)
    && (forall c | c in t.daemons :: ReplicaBacked(h, t, t.daemons[c]))
    && (forall x | x in t.assignedImages :: LeaseBacked(h, t, x, t.assignedImages[x]))
  }

  ghost predicate Conserved(d: Daemon, capacity: int) {
    && d.workerCount + |d.assignedScans| == capacity
    && (if capacity >= 0 then 0 <= d.workerCount else d.workerCount == capacity)
  }

  ghost predicate WorkersConserved(t: Tables, capacity: map<Id, int>) {
    && capacity.Keys == t.daemons.Keys
    && forall c | c in t.daemons :: Conserved(t.daemons[c], capacity[c])
  }

  ghost predicate RequestGood(h: Spec -> Hash, t: Tables, r: Request) {
    r.Servable(t) && (r.Finish? ==> r.hash == h(r.spec))
  }

  ghost predicate Inv(h: Spec -> Hash, sys: Sys) {
    && Backed(h, sys.tables)
    && WorkersConserved(sys.tables, sys.capacity)
    && forall k | k in sys.handlers :: RequestGood(h, sys.tables, sys.handlers[k])
  }

  // ---- one lemma for each locked section ----

  lemma SaveKeepsBacked(h: Spec -> Hash, t: Tables, c: Id, spec: Spec)
    requires c in t.daemons && Backed(h, t)
    ensures Backed(h, SaveFoundImage(h, t, c, spec))
  {
    var t' := SaveFoundImage(h, t, c, spec);
    forall i | i in t'.daemons ensures ReplicaBacked(h, t', t'.daemons[i]) {
      assert ReplicaBacked(h, t, t.daemons[i]);
    }
    forall x | x in t'.assignedImages ensures LeaseBacked(h, t', x, t'.assignedImages[x]) {
      assert LeaseBacked(h, t, x, t.assignedImages[x]);
    }
  }

  lemma FindKeepsBacked(h: Spec -> Hash, t: Tables, c: Id, spec: Spec)
    requires c in t.daemons && Backed(h, t)
    ensures Backed(h, FindWorker(t, c, spec).0)
  {
    var t' := FindWorker(t, c, spec).0;
    forall i | i in t'.daemons ensures ReplicaBacked(h, t', t'.daemons[i]) {
      assert ReplicaBacked(h, t, t.daemons[i]);
    }
    forall x | x in t'.assignedImages ensures LeaseBacked(h, t', x, t'.assignedImages[x]) {
      if x in t.assignedImages {
        assert LeaseBacked(h, t, x, t.assignedImages[x]);
      }
    }
  }

  /** Both ends of a scan, whoever reports it and whoever holds the lease: a
      lease of the same spec sits at the same key, so it goes too. */
  lemma FinishKeepsBacked(h: Spec -> Hash, t: Tables, c: Id, spec: Spec)
    requires c in t.daemons && Backed(h, t)
    ensures Backed(h, FinalizeScan(t, c, h(spec), spec))
    ensures Backed(h, ReleaseScanForPeer(t, c, h(spec), spec))
  {
    var f, r := FinalizeScan(t, c, h(spec), spec), ReleaseScanForPeer(t, c, h(spec), spec);
    forall i | i in t.daemons ensures ReplicaBacked(h, f, f.daemons[i]) && ReplicaBacked(h, r, r.daemons[i]) {
      assert ReplicaBacked(h, t, t.daemons[i]);
    }
    forall x | x in t.assignedImages && x != h(spec)
      ensures LeaseBacked(h, f, x, t.assignedImages[x]) && LeaseBacked(h, r, x, t.assignedImages[x])
    {
      assert LeaseBacked(h, t, x, t.assignedImages[x]);
    }
  }

  /** Worker conservation for each call on a controller's record. */
  lemma DaemonConserves(d: Daemon, spec: Spec, hash: Hash, capacity: int)
    requires Conserved(d, capacity)
    ensures Conserved(d.AddScanRequest(spec, hash), capacity)
    ensures Conserved(d.AssignScan(spec), capacity)
    ensures Conserved(d.FinishScan(spec), capacity)
    ensures Conserved(d.SkipScan(spec), capacity)
  {
    if spec in d.assignedScans {
      assert |d.assignedScans - {spec}| == |d.assignedScans| - 1;
    } else {
      assert |d.assignedScans + {spec}| == |d.assignedScans| + 1;
    }
  }

  ghost predicate SameControllers(t: Tables, t': Tables, capacity: map<Id, int>) {
    WorkersConserved(t', capacity) && t'.daemons.Keys == t.daemons.Keys
  }

  lemma FinishKeepsWorkers(t: Tables, c: Id, hash: Hash, spec: Spec, capacity: map<Id, int>)
    requires c in t.daemons && WorkersConserved(t, capacity)
    ensures SameControllers(t, FinalizeScan(t, c, hash, spec), capacity)
    ensures SameControllers(t, ReleaseScanForPeer(t, c, hash, spec), capacity)
  {
    forall i | i in t.daemons
      ensures Conserved(t.daemons[i].FinishScan(spec), capacity[i]) && Conserved(t.daemons[i].SkipScan(spec), capacity[i])
    {
      DaemonConserves(t.daemons[i], spec, hash, capacity[i]);
    }
    assert FinalizeScan(t, c, hash, spec).daemons.Keys == t.daemons.Keys;
    assert ReleaseScanForPeer(t, c, hash, spec).daemons.Keys == t.daemons.Keys;
  }

  lemma SaveKeepsWorkers(h: Spec -> Hash, t: Tables, c: Id, spec: Spec, capacity: map<Id, int>)
    requires c in t.daemons && WorkersConserved(t, capacity)
    ensures SameControllers(t, SaveFoundImage(h, t, c, spec), capacity)
  {
    assert SaveFoundImage(h, t, c, spec).daemons.Keys == t.daemons.Keys;
  }

  lemma FindKeepsWorkers(t: Tables, c: Id, spec: Spec, capacity: map<Id, int>)
    requires c in t.daemons && WorkersConserved(t, capacity)
    ensures SameControllers(t, FindWorker(t, c, spec).0, capacity)
  {
    DaemonConserves(t.daemons[c], spec, "", capacity[c]);
    assert t.daemons[c := t.daemons[c].AssignScan(spec)].Keys == t.daemons.Keys;
  }

  lemma HandleKeepsWorkers(h: Spec -> Hash, t: Tables, r: Request, capacity: map<Id, int>)
    requires r.Servable(t) && WorkersConserved(t, capacity)
    ensures SameControllers(t, Handle(h, t, r).0, capacity)
  {
    match r
    case Save(c, spec) => SaveKeepsWorkers(h, t, c, spec, capacity);
    case Find(c, spec) => FindKeepsWorkers(t, c, spec, capacity);
    case Finish(c, hash, spec, _) => FinishKeepsWorkers(t, c, hash, spec, capacity);
    case _ =>
  }

  lemma HandleKeepsBacked(h: Spec -> Hash, t: Tables, r: Request)
    requires RequestGood(h, t, r) && Backed(h, t)
    ensures Backed(h, Handle(h, t, r).0)
    ensures var out := Handle(h, t, r).1; out.Continue? ==> RequestGood(h, Handle(h, t, r).0, out.next)
  {
    match r
    case Save(c, spec) => SaveKeepsBacked(h, t, c, spec);
    case Find(c, spec) => FindKeepsBacked(h, t, c, spec);
    case Finish(c, _, spec, _) => FinishKeepsBacked(h, t, c, spec);
    case Release(c, hash, _) =>
      if hash in t.assignedImages {
        assert LeaseBacked(h, t, hash, t.assignedImages[hash]);
      }
    case _ =>
  }

  lemma BackedByMoreDaemons(h: Spec -> Hash, t: Tables, t': Tables)
    requires Backed(h, t)
    requires t'.requestedImages == t.requestedImages && t'.assignedImages == t.assignedImages
    requires forall c | c in t.daemons :: c in t'.daemons && t'.daemons[c] == t.daemons[c]
    requires forall c | c in t'.daemons && c !in t.daemons :: t'.daemons[c].requestedScans == map[]
    ensures Backed(h, t')
  {
    forall c | c in t'.daemons ensures ReplicaBacked(h, t', t'.daemons[c]) {
      if c in t.daemons {
        assert ReplicaBacked(h, t, t.daemons[c]);
      }
    }
    forall x | x in t'.assignedImages ensures LeaseBacked(h, t', x, t'.assignedImages[x]) {
      assert LeaseBacked(h, t, x, t.assignedImages[x]);
    }
  }

  lemma StepKeepsInv(h: Spec -> Hash, sys: Sys, step: Step)
    requires Inv(h, sys) && Enabled(sys, step)
    ensures Inv(h, Next(h, sys, step))
  {
    var sys' := Next(h, sys, step);
    if step.Run? {
      var r := sys.handlers[step.ticket];
      assert RequestGood(h, sys.tables, r);
      HandleKeepsBacked(h, sys.tables, r);
      HandleKeepsWorkers(h, sys.tables, r, sys.capacity);
    } else {
      BackedByMoreDaemons(h, sys.tables, sys'.tables);
    }
    forall k | k in sys'.handlers ensures RequestGood(h, sys'.tables, sys'.handlers[k]) {
      assert k in sys.handlers ==> RequestGood(h, sys.tables, sys.handlers[k]);
    }
  }

  /** Every reachable state keeps the invariant, whatever the callers do. */
  lemma {:induction false} RunKeepsInv(h: Spec -> Hash, states: seq<Sys>, steps: seq<Step>, k: nat)
    requires IsRun(h, states, steps) && k < |states|
    ensures Inv(h, states[k])
  {
    if k > 0 {
      RunKeepsInv(h, states, steps, k - 1);
      StepKeepsInv(h, states[k - 1], steps[k - 1]);
    }
  }

  // ---- the global bound ----

  /** The leases held by controllers in `ids`. */
  ghost function LeasesOf(t: Tables, ids: set<Id>): map<Hash, Lease> {
    map x | x in t.assignedImages && t.assignedImages[x].controllerId in ids :: t.assignedImages[x]
  }

  lemma LeasesFitAssignments(h: Spec -> Hash, t: Tables, c: Id)
    requires Backed(h, t) && c in t.daemons
    ensures |LeasesOf(t, {c})| <= |t.daemons[c].assignedScans|
  {
    var leases := LeasesOf(t, {c});
    var specs := map x | x in leases :: leases[x].imageSpec;
    forall x | x in leases ensures LeaseBacked(h, t, x, leases[x]) && leases[x].controllerId == c {
    }
    InjectiveFits(specs, t.daemons[c].assignedScans);
    assert specs.Keys == leases.Keys;
  }

  lemma LeasesSplit(t: Tables, ids: set<Id>, c: Id)
    requires c in ids
    ensures |LeasesOf(t, ids)| == |LeasesOf(t, ids - {c})| + |LeasesOf(t, {c})|
  {
    var a, b := LeasesOf(t, ids - {c}).Keys, LeasesOf(t, {c}).Keys;
    assert LeasesOf(t, ids).Keys == a + b;
    assert a !! b;
    assert |a + b| == |a| + |b|;
  }

  lemma {:induction false} LeasesFitSum(h: Spec -> Hash, t: Tables, counts: map<Id, int>)
    requires Backed(h, t) && counts.Keys <= t.daemons.Keys
    requires forall c | c in counts :: counts[c] == |t.daemons[c].assignedScans|
    ensures |LeasesOf(t, counts.Keys)| <= Sum(counts)
    decreases |counts|
  {
    if counts == map[] {
      assert LeasesOf(t, {}) == map[];
    } else {
      var c :| c in counts;
      var rest := counts - {c};
      SumSplit(counts, c);
      assert rest.Keys == counts.Keys - {c};
      LeasesFitSum(h, t, rest);
      LeasesFitAssignments(h, t, c);
      LeasesSplit(t, counts.Keys, c);
    }
  }

  /** Outstanding leases and free workers together never exceed the workers that
      were registered, even with foreign, late or repeated done and abort. */
  lemma LeasesAndFreeWorkersBounded(h: Spec -> Hash, states: seq<Sys>, steps: seq<Step>, k: nat)
    requires IsRun(h, states, steps) && k < |states|
    ensures var t := states[k].tables;
            |t.assignedImages| + Sum(map c | c in t.daemons :: t.daemons[c].workerCount) <= Sum(states[k].capacity)
  {
    RunKeepsInv(h, states, steps, k);
    var t := states[k].tables;
    var free: map<Id, int> := map c | c in t.daemons :: t.daemons[c].workerCount;
    var used: map<Id, int> := map c | c in t.daemons :: |t.daemons[c].assignedScans|;
    LeasesFitSum(h, t, used);
    assert LeasesOf(t, used.Keys).Keys == t.assignedImages.Keys by {
      forall x | x in t.assignedImages ensures t.assignedImages[x].controllerId in used {
        assert LeaseBacked(h, t, x, t.assignedImages[x]);
      }
    }
    SumPlus(used, free, states[k].capacity);
  }

  /** A controller that registered a sensible number of workers keeps its free
      counter within it, and the counter and the scans it holds add up. */
  lemma FreeWorkersWithinCapacity(h: Spec -> Hash, states: seq<Sys>, steps: seq<Step>, k: nat, c: Id)
    requires IsRun(h, states, steps) && k < |states| && c in states[k].tables.daemons
    ensures c in states[k].capacity
    ensures var d, n := states[k].tables.daemons[c], states[k].capacity[c];
            d.workerCount + |d.assignedScans| == n && (n >= 0 ==> 0 <= d.workerCount <= n)
  {
    RunKeepsInv(h, states, steps, k);
    assert Conserved(states[k].tables.daemons[c], states[k].capacity[c]);
  }

  /** The capacity recorded for a controller is the one of its first heartbeat. */
  lemma {:induction false} CapacityIsFixed(h: Spec -> Hash, states: seq<Sys>, steps: seq<Step>, i: nat, j: nat, c: Id)
    requires IsRun(h, states, steps) && i <= j < |states| && c in states[i].capacity
    ensures c in states[j].capacity && states[j].capacity[c] == states[i].capacity[c]
    decreases j
  {
    if i < j {
      CapacityIsFixed(h, states, steps, i, j - 1, c);
      RunKeepsInv(h, states, steps, j - 1);
      assert states[j] == Next(h, states[j - 1], steps[j - 1]);
    }
  }
}
