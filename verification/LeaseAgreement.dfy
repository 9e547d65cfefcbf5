/** The controllers' own lists of assigned scans against the central lease table:
    one lease map, kept three times, and exactly what keeps it in step. */
module LeaseAgreement {
  import opened LeaseTables
  import opened LeaseProtocol
  import opened Counting

  /** Specs are told apart by their hashes. */
  ghost predicate Injective(h: Spec -> Hash) {
    forall a, b :: h(a) == h(b) ==> a == b
  }

  ghost predicate Held(h: Spec -> Hash, t: Tables, c: Id, spec: Spec) {
    h(spec) in t.assignedImages && t.assignedImages[h(spec)] == Lease(c, spec)
  }

  /** Every scan a controller is down for is leased to it. The other direction is
      part of Backed and needs nothing of the callers. */
  ghost predicate Agrees(h: Spec -> Hash, t: Tables) {
    forall c, s | c in t.daemons && s in t.daemons[c].assignedScans :: Held(h, t, c, s)
  }

  /** The check that scanDone and scanAbort do not make. */
  ghost predicate MayEnd(t: Tables, c: Id, hash: Hash) {
    hash in t.assignedImages ==> t.assignedImages[hash].controllerId == c
  }

  lemma FindKeepsAgreement(h: Spec -> Hash, t: Tables, c: Id, spec: Spec)
    requires Injective(h) && Backed(h, t) && Agrees(h, t) && c in t.daemons
    ensures Agrees(h, FindWorker(t, c, spec).0)
  {
    var t' := FindWorker(t, c, spec).0;
    if FindWorker(t, c, spec).1.startScan {
      forall i, s | i in t'.daemons && s in t'.daemons[i].assignedScans ensures Held(h, t', i, s) {
        if s in t.daemons[i].assignedScans {
          assert Held(h, t, i, s);
          assert h(s) == h(spec) ==> s == spec;
        } else {
          assert i == c && s == spec;
        }
      }
    }
  }

  lemma SaveKeepsAgreement(h: Spec -> Hash, t: Tables, c: Id, spec: Spec)
    requires Agrees(h, t) && c in t.daemons
    ensures Agrees(h, SaveFoundImage(h, t, c, spec))
  {
    var t' := SaveFoundImage(h, t, c, spec);
    forall i, s | i in t'.daemons && s in t'.daemons[i].assignedScans ensures Held(h, t', i, s) {
      assert s in t.daemons[i].assignedScans && Held(h, t, i, s);
    }
  }

  lemma EndByHolderKeepsAgreement(h: Spec -> Hash, t: Tables, t': Tables, c: Id, spec: Spec)
    requires Injective(h) && Agrees(h, t) && c in t.daemons && MayEnd(t, c, h(spec))
    requires t' == FinalizeScan(t, c, h(spec), spec) || t' == ReleaseScanForPeer(t, c, h(spec), spec)
    ensures Agrees(h, t')
  {
    forall i, s | i in t'.daemons && s in t'.daemons[i].assignedScans ensures Held(h, t', i, s) {
      assert s in t.daemons[i].assignedScans && Held(h, t, i, s);
      assert h(s) == h(spec) ==> s == spec;
    }
  }

  /** A done or abort from someone else: the lease goes, the holder's record and
      its taken worker stay. */
  lemma EndByOtherLeaks(h: Spec -> Hash, t: Tables, t': Tables, c: Id, spec: Spec)
    requires Injective(h) && Backed(h, t) && c in t.daemons && !MayEnd(t, c, h(spec))
    requires t' == FinalizeScan(t, c, h(spec), spec) || t' == ReleaseScanForPeer(t, c, h(spec), spec)
    ensures var holder := t.assignedImages[h(spec)].controllerId;
            && holder in t'.daemons
            && h(spec) !in t'.assignedImages
            && spec in t'.daemons[holder].assignedScans
            && t'.daemons[holder].workerCount == t.daemons[holder].workerCount
    ensures !Agrees(h, t')
  {
    var lease := t.assignedImages[h(spec)];
    assert LeaseBacked(h, t, h(spec), lease);
    assert lease.imageSpec == spec;
    assert !Held(h, t', lease.controllerId, spec);
  }

  /** A processed done or abort keeps the tables in step if and only if nobody
      else holds the hash. */
  lemma EndKeepsAgreementIff(h: Spec -> Hash, t: Tables, c: Id, spec: Spec)
    requires Injective(h) && Backed(h, t) && Agrees(h, t) && c in t.daemons
    ensures Agrees(h, FinalizeScan(t, c, h(spec), spec)) <==> MayEnd(t, c, h(spec))
    ensures Agrees(h, ReleaseScanForPeer(t, c, h(spec), spec)) <==> MayEnd(t, c, h(spec))
  {
    var f, r := FinalizeScan(t, c, h(spec), spec), ReleaseScanForPeer(t, c, h(spec), spec);
    if MayEnd(t, c, h(spec)) {
      EndByHolderKeepsAgreement(h, t, f, c, spec);
      EndByHolderKeepsAgreement(h, t, r, c, spec);
    } else {
      EndByOtherLeaks(h, t, f, c, spec);
      EndByOtherLeaks(h, t, r, c, spec);
    }
  }

  ghost predicate RequestMayEnd(t: Tables, r: Request) {
    r.Finish? ==> MayEnd(t, r.id, r.hash)
  }

  lemma HandleKeepsAgreement(h: Spec -> Hash, t: Tables, r: Request)
    requires Injective(h) && Backed(h, t) && Agrees(h, t) && RequestGood(h, t, r) && RequestMayEnd(t, r)
    ensures Agrees(h, Handle(h, t, r).0)
  {
    match r
    case Save(c, spec) => SaveKeepsAgreement(h, t, c, spec);
    case Find(c, spec) => FindKeepsAgreement(h, t, c, spec);
    case Finish(c, _, spec, _) => EndByHolderKeepsAgreement(h, t, Handle(h, t, r).0, c, spec);
    case _ =>
  }

  lemma BackgroundKeepsAgreement(h: Spec -> Hash, sys: Sys, step: Step)
    requires Agrees(h, sys.tables) && Enabled(sys, step) && !step.Run?
    ensures Agrees(h, Next(h, sys, step).tables)
  {
    var t, t' := sys.tables, Next(h, sys, step).tables;
    forall c, s | c in t'.daemons && s in t'.daemons[c].assignedScans ensures Held(h, t', c, s) {
      assert c in t.daemons && s in t.daemons[c].assignedScans;
      assert Held(h, t, c, s);
    }
  }

  /** The step is not a done or abort for a hash that someone else holds. */
  ghost predicate Disciplined(sys: Sys, step: Step) {
    step.Run? && step.ticket in sys.handlers ==> RequestMayEnd(sys.tables, sys.handlers[step.ticket])
  }

  lemma {:induction false} DisciplinedRunAgrees(h: Spec -> Hash, states: seq<Sys>, steps: seq<Step>, k: nat)
    requires Injective(h) && IsRun(h, states, steps) && k < |states|
    requires forall n {:trigger steps[n]} | 0 <= n < k :: Disciplined(states[n], steps[n])
    ensures Agrees(h, states[k].tables)
  {
    if k > 0 {
      DisciplinedRunAgrees(h, states, steps, k - 1);
      RunKeepsInv(h, states, steps, k - 1);
      var sys, step := states[k - 1], steps[k - 1];
      assert Enabled(sys, step) && Disciplined(sys, step) && states[k] == Next(h, sys, step);
      if step.Run? {
        assert RequestGood(h, sys.tables, sys.handlers[step.ticket]);
        HandleKeepsAgreement(h, sys.tables, sys.handlers[step.ticket]);
      } else {
        BackgroundKeepsAgreement(h, sys, step);
      }
    }
  }

  /** In step, a controller's list is the set of specs leased to it, and its free
      counter is its capacity less its leases: no worker has leaked. */
  lemma AgreementAccountsForWorkers(h: Spec -> Hash, sys: Sys, c: Id)
    requires Inv(h, sys) && Agrees(h, sys.tables) && c in sys.tables.daemons
    ensures var t := sys.tables;
            && t.daemons[c].assignedScans == (set x | x in LeasesOf(t, {c}) :: t.assignedImages[x].imageSpec)
            && t.daemons[c].workerCount == sys.capacity[c] - |LeasesOf(t, {c})|
  {
    var t := sys.tables;
    var leases, scans := LeasesOf(t, {c}), t.daemons[c].assignedScans;
    forall s | s in scans ensures h(s) in leases && leases[h(s)] == Lease(c, s) {
      assert Held(h, t, c, s);
    }
    forall x | x in leases ensures LeaseBacked(h, t, x, leases[x]) && leases[x].controllerId == c {
    }
    assert scans == (set x | x in leases :: t.assignedImages[x].imageSpec);
    LeasesFitAssignments(h, t, c);
    var keys := map s | s in scans :: h(s);
    InjectiveFits(keys, leases.Keys);
    assert keys.Keys == scans;
    assert Conserved(t.daemons[c], sys.capacity[c]);
  }

  // ---- discipline is needed: a run in which it is broken ----

  function Same(spec: Spec): Hash { spec }

  const FOUND := Sys(
    Tables(map["a" := Daemon(1, map["@" := "@"], {}), "b" := Daemon(1, map[], {})],
           map["@" := false], map["@" := "@"], map[]),
    map["a" := 1, "b" := 1],
    map[])

  const LEASED := FOUND.(tables :=
    Tables(map["a" := Daemon(0, map["@" := "@"], {"@"}), "b" := Daemon(1, map[], {})],
           map["@" := false], map["@" := "@"], map["@" := Lease("a", "@")]))

  const LEAKED := FOUND.(tables :=
    Tables(map["a" := Daemon(0, map[], {"@"}), "b" := Daemon(1, map[], {})], map["@" := true], map[], map[]))

  lemma FoundIsReachable()
    ensures Reachable(Same, FOUND)
  {
    assert IsRun(Same, [Init], []);
    assert Reachable(Same, Init);
    ReachNext(Same, Init, Register("a", 1));
    var one := Next(Same, Init, Register("a", 1));
    ReachNext(Same, one, Register("b", 1));
    var two := Next(Same, one, Register("b", 1));
    assert two.tables.daemons == map["a" := Daemon(1, map[], {}), "b" := Daemon(1, map[], {})];
    ReachServe(Same, two, Found("a", "@", "i"));
    assert Serve(Same, two.tables, Found("a", "@", "i")).0 == FOUND.tables;
  }

  lemma LeasedIsReachable()
    ensures Reachable(Same, LEASED)
  {
    FoundIsReachable();
    ReachServe(Same, FOUND, Poll("a", "@"));
    assert Serve(Same, FOUND.tables, Poll("a", "@")).0 == LEASED.tables;
  }

  /** Controllers "a" and "b" register with a worker each, "a" reports the image
      "@" and is started on it, "b" says it is done: "a" has lost its worker. The
      hash here is the spec itself. */
  lemma ForeignDoneLeaksWorker()
    ensures Reachable(Same, LEAKED) && !Agrees(Same, LEAKED.tables)
  {
    LeasedIsReachable();
    ReachServe(Same, LEASED, Release("b", "@", true));
    assert Serve(Same, LEASED.tables, Release("b", "@", true)).0 == LEAKED.tables;
    assert !Held(Same, LEAKED.tables, "a", "@");
  }
}
