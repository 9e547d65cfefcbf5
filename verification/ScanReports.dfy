/** A worker's report from its sending to its processing: what the arbiter is told
    is how the scan ended, and what comes of it. */
module ScanReports {
  import opened LeaseTables
  import opened LeaseProtocol
  import opened LeaseAgreement
  import opened ScanCluster
  import opened ClusterPaths
  import opened LostLeases
  import LeaseRuns
  import Ledger

  /** Request `k` is the report, before or after its lookup. */
  ghost predicate Carries(h: Spec -> Hash, cl: Cluster, k: nat, c: Id, spec: Spec, completed: bool) {
    k in cl.sys.handlers &&
    cl.sys.handlers[k] in {Release(c, h(spec), completed), Finish(c, h(spec), spec, completed)}
  }

  lemma ReportIsSent(h: Spec -> Hash, cl: Cluster, w: nat, k: nat, completed: bool)
    requires ClusterInv(h, cl) && CanMove(cl, Report(w, k, completed))
    ensures Carries(h, Moved(h, cl, Report(w, k, completed)), k, cl.workers[w].controller, cl.workers[w].pc.spec, completed)
  {
    assert PcGood(h, cl.sys, cl.workers[w].controller, cl.workers[w].pc);
    hide ClusterInv;
  }

  /** On its way it stays as it is, and its lookup finds the spec's own lease. */
  lemma ReportTravels(h: Spec -> Hash, cl: Cluster, m: Move, k: nat, c: Id, spec: Spec, completed: bool)
    requires Injective(h) && ClusterInv(h, cl) && CanMove(cl, m) && Carries(h, cl, k, c, spec, completed)
    ensures k in Moved(h, cl, m).sys.handlers ==> Carries(h, Moved(h, cl, m), k, c, spec, completed)
    ensures m == Server(k) ==> (cl.sys.handlers[k].Release? <==> k in Moved(h, cl, m).sys.handlers)
  {
    var t, e := cl.sys.tables, cl.sys.handlers[k];
    assert Ending(e) && EndGood(h, t, e);
    assert LeaseBacked(h, t, e.hash, t.assignedImages[e.hash]);
    hide ClusterInv;
    if m == Server(k) {
      EndSection(h, t, e);
      ServerFrame(h, cl, k);
      FinishIsLast(h, t, e);
    } else {
      OthersWait(h, cl, m, k);
    }
    hide Moved, Handle;
  }

  lemma FinishIsLast(h: Spec -> Hash, t: Tables, r: Request)
    requires r.Servable(t)
    ensures r.Finish? ==> Handle(h, t, r).1.Done?
  {
  }

  /** As long as the ticket is in use since the report, it is the report's. */
  lemma {:induction false} ReportIsCarried(h: Spec -> Hash, states: seq<Cluster>, moves: seq<Move>, i: nat, n: nat, w: nat, k: nat, completed: bool)
    requires Injective(h) && IsClusterRun(h, states, moves) && i < n < |states|
    requires CanMove(states[i], moves[i]) && moves[i] == Report(w, k, completed)
    requires forall j {:trigger states[j]} | i < j <= n :: k in states[j].sys.handlers
    ensures Carries(h, states[n], k, states[i].workers[w].controller, states[i].workers[w].pc.spec, completed)
    decreases n
  {
    RunStep(h, states, moves, n);
    ClusterRunKeepsInv(h, states, moves, n - 1);
    hide IsClusterRun, ClusterInv, Moved, CanMove, Carries;
    if i + 1 < n {
      ReportIsCarried(h, states, moves, i, n - 1, w, k, completed);
      ReportTravels(h, states[n - 1], moves[n - 1], k, states[i].workers[w].controller, states[i].workers[w].pc.spec, completed);
    } else {
      ReportIsSent(h, states[i], w, k, completed);
    }
  }

  /** The report's last section is processed: ticket `k`, in use since the report
      at `i`, is past its lookup and is served at `j`. */
  ghost predicate Processed(states: seq<Cluster>, moves: seq<Move>, i: nat, j: nat, w: nat, k: nat, completed: bool)
    requires |states| == |moves| + 1
  {
    && i < j < |moves|
    && CanMove(states[i], moves[i]) && moves[i] == Report(w, k, completed)
    && (forall n {:trigger states[n]} | i < n <= j :: k in states[n].sys.handlers)
    && CanMove(states[j], moves[j]) && moves[j] == Server(k) && states[j].sys.handlers[k].Finish?
  }

  /** Then, to the arbiter, a scan that completed is a done of the worker's spec by
      its controller, and any other an abort of it. */
  lemma ReportIsTold(h: Spec -> Hash, states: seq<Cluster>, moves: seq<Move>, i: nat, j: nat, w: nat, k: nat, completed: bool)
    requires Injective(h) && IsClusterRun(h, states, moves) && Processed(states, moves, i, j, w, k, completed)
    ensures var c, spec := states[i].workers[w].controller, states[i].workers[w].pc.spec;
            var sys, step := states[j].sys, ArbiterStep(states[j], moves[j]);
            && states[j].sys.handlers[k] == Finish(c, h(spec), spec, completed)
            && LeaseRuns.Ends(sys, step, c, spec)
            && (if completed then LeaseRuns.Completes(sys, step, spec) else LeaseRuns.Aborts(sys, step, spec))
  {
    ReportIsCarried(h, states, moves, i, j, w, k, completed);
    hide IsClusterRun;
  }

  lemma FinishOnTables(t: Tables, c: Id, hash: Hash, spec: Spec)
    requires c in t.daemons
    ensures var f := FinalizeScan(t, c, hash, spec);
            && (spec in t.images ==> spec in f.images && f.images[spec])
            && spec !in f.requestedImages
            && (forall i | i in f.daemons :: spec !in f.daemons[i].requestedScans)
    ensures var r := ReleaseScanForPeer(t, c, hash, spec);
            && r.images == t.images && r.requestedImages == t.requestedImages && r.daemons.Keys == t.daemons.Keys
            && (forall i | i in t.daemons && i != c :: r.daemons[i] == t.daemons[i])
            && spec !in r.daemons[c].requestedScans
    ensures forall t' | t' == FinalizeScan(t, c, hash, spec) || t' == ReleaseScanForPeer(t, c, hash, spec) ::
              && hash !in t'.assignedImages && spec !in t'.daemons[c].assignedScans
              && t'.daemons[c].workerCount == t.daemons[c].workerCount + (if spec in t.daemons[c].assignedScans then 1 else 0)
  {
  }

  /** What a worker's report comes to. Either way the lease is gone and the worker
      is back. After a completed scan a known image is marked scanned and nobody
      asks for the spec; after any other, flag, requests and the other controllers
      are as they were, and the reporter no longer asks for it. */
  lemma ReportIsProcessed(h: Spec -> Hash, states: seq<Cluster>, moves: seq<Move>, i: nat, j: nat, w: nat, k: nat, completed: bool)
    requires Injective(h) && IsClusterRun(h, states, moves) && Processed(states, moves, i, j, w, k, completed)
    ensures var c, spec := states[i].workers[w].controller, states[i].workers[w].pc.spec;
            var t, t' := states[j].sys.tables, states[j + 1].sys.tables;
            && c in t.daemons && c in t'.daemons
            && h(spec) !in t'.assignedImages && spec !in t'.daemons[c].assignedScans
            && t'.daemons[c].workerCount == t.daemons[c].workerCount + 1
            && (completed ==>
                  && (spec in t.images ==> spec in t'.images && t'.images[spec])
                  && spec !in t'.requestedImages
                  && forall d | d in t'.daemons :: spec !in t'.daemons[d].requestedScans)
            && (!completed ==>
                  && t'.images == t.images && t'.requestedImages == t.requestedImages && t'.daemons.Keys == t.daemons.Keys
                  && (forall d | d in t.daemons && d != c :: t'.daemons[d] == t.daemons[d])
                  && spec !in t'.daemons[c].requestedScans)
  {
    var c, spec := states[i].workers[w].controller, states[i].workers[w].pc.spec;
    ReportIsTold(h, states, moves, i, j, w, k, completed);
    ReportedIsAssigned(h, states, moves, j, k);
    RunStep(h, states, moves, j + 1);
    ServerFrame(h, states[j], k);
    FinishOnTables(states[j].sys.tables, c, h(spec), spec);
    hide IsClusterRun, Moved, CanMove, FinalizeScan, ReleaseScanForPeer, Processed;
  }

  lemma ReportedIsAssigned(h: Spec -> Hash, states: seq<Cluster>, moves: seq<Move>, j: nat, k: nat)
    requires Injective(h) && IsClusterRun(h, states, moves) && j < |states|
    requires k in states[j].sys.handlers && states[j].sys.handlers[k].Finish?
    ensures var t, r := states[j].sys.tables, states[j].sys.handlers[k];
            r.id in t.daemons && r.spec in t.daemons[r.id].assignedScans
  {
    ClusterRunKeepsInv(h, states, moves, j);
    var t, r := states[j].sys.tables, states[j].sys.handlers[k];
    assert EndGood(h, t, r);
    assert LeaseBacked(h, t, r.hash, t.assignedImages[r.hash]);
  }

  /** If a worker reports a completed scan, and that is processed, no worker of any
      controller has a start for the spec before some controller reported the image
      anew; and if the image was known, its flag was reset or it was removed. */
  lemma ScannedOnlyOnce(h: Spec -> Hash, states: seq<Cluster>, moves: seq<Move>, i: nat, j: nat, n: nat, w: nat, k: nat, v: nat)
    requires Injective(h) && IsClusterRun(h, states, moves) && Processed(states, moves, i, j, w, k, true)
    requires j < n < |states| && IsStarted(states[n], v, states[i].workers[w].pc.spec)
    ensures var spec := states[i].workers[w].pc.spec;
            exists a {:trigger moves[a]} :: j < a < n && CanMove(states[a], moves[a])
              && LeaseRuns.SavesSpec(states[a].sys, ArbiterStep(states[a], moves[a]), spec)
    ensures var spec := states[i].workers[w].pc.spec;
            spec in states[j].sys.tables.images ==>
              exists a {:trigger moves[a]} :: j < a < n && CanMove(states[a], moves[a])
                && LeaseRuns.Resets(ArbiterStep(states[a], moves[a]), spec)
  {
    ReportIsTold(h, states, moves, i, j, w, k, true);
    hide IsClusterRun, IsStarted;
    CompletedOnlyOnce(h, states, moves, j, n, v, states[i].workers[w].pc.spec);
  }

  // ---- heartbeats ----

  /** A heartbeat makes a controller with a name known, with the workers of its first
      one, whether its answer arrives or not; the worker goes on only if it does. */
  lemma HeartbeatRegisters(h: Spec -> Hash, cl: Cluster, m: Move)
    requires LeaseProtocol.Inv(h, cl.sys) && CanMove(cl, m) && (m.Beat? || m.BeatLost?) && cl.workers[m.w].controller != ""
    ensures var c, known, cl' := cl.workers[m.w].controller, cl.sys.tables.daemons, Moved(h, cl, m);
            && c in cl'.sys.tables.daemons
            && (c in known ==> cl'.sys == cl.sys)
            && (c !in known ==> cl'.sys.tables.daemons[c].workerCount == m.workers && c in cl'.sys.capacity && cl'.sys.capacity[c] == m.workers)
            && m.w in cl'.workers
            && cl'.workers[m.w].pc == if m.Beat? then Ready(cl.workers[m.w].pc.spec) else cl.workers[m.w].pc
  {
    Ledger.RegisterLedger(h, cl.sys, ArbiterStep(cl, m), cl.workers[m.w].controller);
  }
}
