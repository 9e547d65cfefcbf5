/** Leases that nobody will end. The arbiter has no timeout, so a lease ends only
    by a done or abort of its holder's worker. What is shown is which moves leave a
    lease without one, that it then stays for ever, and exactly which leases can
    still be brought to an end. */
module LostLeases {
  import opened LeaseTables
  import opened LeaseProtocol
  import opened LeaseAgreement
  import opened Counting
  import opened ScanCluster
  import opened ClusterPaths
  import LeaseRuns

  /** No done or abort for the spec's hash is on its way. */
  ghost predicate NoEnd(h: Spec -> Hash, cl: Cluster, spec: Spec) {
    forall k | k in cl.sys.handlers && Ending(cl.sys.handlers[k]) :: cl.sys.handlers[k].hash != h(spec)
  }

  lemma SomeWatcher(cl: Cluster, c: Id, spec: Spec) returns (w: nat)
    requires !Unwatched(cl, c, spec)
    ensures PastCheckFor(cl, w, c, spec)
  {
    w :| w in cl.workers && cl.workers[w].controller == c && PastCheck(cl.sys, cl.workers[w].pc) && cl.workers[w].pc.spec == spec;
  }

  ghost predicate Unwatched(cl: Cluster, c: Id, spec: Spec) {
    forall w | w in cl.workers && cl.workers[w].controller == c && PastCheck(cl.sys, cl.workers[w].pc) ::
      cl.workers[w].pc.spec != spec
  }

  /** Controller `c` holds the spec and nothing is left that could end the lease. */
  ghost predicate Wedged(h: Spec -> Hash, cl: Cluster, c: Id, spec: Spec) {
    Held(h, cl.sys.tables, c, spec) && NoEnd(h, cl, spec) && Unwatched(cl, c, spec)
  }

  lemma WedgedStartsNobody(h: Spec -> Hash, cl: Cluster, c: Id, spec: Spec, w: nat)
    requires ClusterInv(h, cl) && Wedged(h, cl, c, spec)
    ensures !IsStarted(cl, w, spec)
  {
    if IsStarted(cl, w, spec) {
      assert PcGood(h, cl.sys, cl.workers[w].controller, cl.workers[w].pc);
      assert PastCheck(cl.sys, cl.workers[w].pc);
    }
  }

  lemma WedgedAfterServer(h: Spec -> Hash, cl: Cluster, k: nat, c: Id, spec: Spec)
    requires Injective(h) && ClusterInv(h, cl) && CanMove(cl, Server(k)) && Wedged(h, cl, c, spec)
    ensures Wedged(h, Moved(h, cl, Server(k)), c, spec)
  {
    var t, r, cl' := cl.sys.tables, cl.sys.handlers[k], Moved(h, cl, Server(k));
    HeldAfter(h, t, r, c, spec);
    forall j | j in cl'.sys.handlers && Ending(cl'.sys.handlers[j]) ensures cl'.sys.handlers[j].hash != h(spec) {
      ServerHandlers(h, cl, k, j);
    }
    assert LeaseBacked(h, t, h(spec), Lease(c, spec));
    assert AlreadyIdentified(t, c, spec);
    forall w | w in cl'.workers && cl'.workers[w].controller == c && PastCheck(cl'.sys, cl'.workers[w].pc)
      ensures cl'.workers[w].pc.spec != spec
    {
      assert PcGood(h, cl.sys, c, cl.workers[w].pc);
      ServerPastCheck(h, cl, k, w);
    }
  }

  lemma WedgedAfterOther(h: Spec -> Hash, cl: Cluster, m: Move, c: Id, spec: Spec)
    requires Injective(h) && ClusterInv(h, cl) && CanMove(cl, m) && !m.Server? && Wedged(h, cl, c, spec)
    ensures Wedged(h, Moved(h, cl, m), c, spec)
  {
    var cl' := Moved(h, cl, m);
    OtherKeepsLeases(h, cl, m);
    if m.Report? {
      assert PcGood(h, cl.sys, cl.workers[m.w].controller, cl.workers[m.w].pc);
      WedgedStartsNobody(h, cl, c, spec, m.w);
      assert cl.workers[m.w].pc.spec != spec;
    }
    forall w | w in cl'.workers && cl'.workers[w].controller == c && PastCheck(cl'.sys, cl'.workers[w].pc)
      ensures cl'.workers[w].pc.spec != spec
    {
      assert PcGood(h, cl.sys, c, cl.workers[w].pc);
      OtherKeepsWorker(h, cl, m, w);
    }
  }

  lemma WedgedAfterMove(h: Spec -> Hash, cl: Cluster, m: Move, c: Id, spec: Spec)
    requires Injective(h) && ClusterInv(h, cl) && CanMove(cl, m) && Wedged(h, cl, c, spec)
    ensures Wedged(h, Moved(h, cl, m), c, spec)
  {
    if m.Server? {
      WedgedAfterServer(h, cl, m.k, c, spec);
    } else {
      WedgedAfterOther(h, cl, m, c, spec);
    }
  }

  lemma {:induction false} StaysWedged(h: Spec -> Hash, states: seq<Cluster>, moves: seq<Move>, i: nat, n: nat, c: Id, spec: Spec)
    requires Injective(h) && IsClusterRun(h, states, moves) && i <= n < |states|
    requires Wedged(h, states[i], c, spec)
    ensures Wedged(h, states[n], c, spec)
    decreases n
  {
    hide ClusterInv, Wedged, Moved, CanMove;
    if i < n {
      StaysWedged(h, states, moves, i, n - 1, c, spec);
      ClusterRunKeepsInv(h, states, moves, n - 1);
      var cl, m := states[n - 1], moves[n - 1];
      assert CanMove(cl, m) && states[n] == Moved(h, cl, m);
      WedgedAfterMove(h, cl, m, c, spec);
    }
  }

  // ---- the moves that wedge a lease, exactly ----

  /** The three ways: the holder's worker drops out past the check, by death or by
      a lost reply; a poll is granted that no worker of its controller waits for
      any more; or the holder's worker is told to skip. */
  ghost predicate Wedging(h: Spec -> Hash, cl: Cluster, m: Move, c: Id, spec: Spec)
    requires CanMove(cl, m)
  {
    match m
    case GiveUp(w) => Held(h, cl.sys.tables, c, spec) && PastCheckFor(cl, w, c, spec)
    case Server(k) =>
      && cl.sys.handlers[k] == Find(c, spec) && LeaseRuns.CanStart(cl.sys.tables, c, spec)
      && !Held(h, cl.sys.tables, c, spec) && Unwatched(cl, c, spec)
    case Hear(w) =>
      && Held(h, cl.sys.tables, c, spec) && PastCheckFor(cl, w, c, spec)
      && cl.workers[w].pc.AskTold? && (cl.workers[w].pc.reply.Granted? ==> cl.workers[w].pc.reply.answer.skipScan)
    case _ => false
  }

  /** A worker past the check with the holder's spec means no end is on its way,
      and the other way round. */
  lemma WatchedHasNoEnd(h: Spec -> Hash, cl: Cluster, w: nat, c: Id, spec: Spec)
    requires ClusterInv(h, cl) && Held(h, cl.sys.tables, c, spec) && PastCheckFor(cl, w, c, spec)
    ensures NoEnd(h, cl, spec)
    ensures forall v | PastCheckFor(cl, v, c, spec) :: v == w
  {
    forall k | k in cl.sys.handlers && Ending(cl.sys.handlers[k]) ensures cl.sys.handlers[k].hash != h(spec) {
      var e := cl.sys.handlers[k];
      assert EndGood(h, cl.sys.tables, e) && Quiet(h, cl, e.id, e.hash);
    }
  }

  lemma DroppingOutWedges(h: Spec -> Hash, cl: Cluster, m: Move, c: Id, spec: Spec)
    requires ClusterInv(h, cl) && CanMove(cl, m) && (m.GiveUp? || m.Hear?) && Wedging(h, cl, m, c, spec)
    ensures Wedged(h, Moved(h, cl, m), c, spec)
  {
    var cl' := Moved(h, cl, m);
    WatchedHasNoEnd(h, cl, m.w, c, spec);
    OtherKeepsLeases(h, cl, m);
    hide ClusterInv;
    assert cl'.workers[m.w].pc.Idle?;
    forall v | v in cl'.workers && cl'.workers[v].controller == c && PastCheck(cl'.sys, cl'.workers[v].pc)
      ensures cl'.workers[v].pc.spec != spec
    {
      assert v != m.w ==> cl'.workers[v] == cl.workers[v];
      assert v != m.w && cl.workers[v].pc.spec == spec ==> PastCheckFor(cl, v, c, spec);
    }
  }

  lemma OrphanGrantWedges(h: Spec -> Hash, cl: Cluster, k: nat, c: Id, spec: Spec)
    requires Injective(h) && ClusterInv(h, cl) && CanMove(cl, Server(k)) && Wedging(h, cl, Server(k), c, spec)
    ensures Wedged(h, Moved(h, cl, Server(k)), c, spec)
  {
    var t, cl' := cl.sys.tables, Moved(h, cl, Server(k));
    LeaseRuns.StartResult(t, c, spec);
    assert t.requestedImages[spec] == h(spec);
    forall j | j in cl'.sys.handlers && Ending(cl'.sys.handlers[j]) ensures cl'.sys.handlers[j].hash != h(spec) {
      ServerHandlers(h, cl, k, j);
      var e := cl.sys.handlers[j];
      assert EndGood(h, t, e);
      assert LeaseBacked(h, t, e.hash, t.assignedImages[e.hash]);
    }
    forall w | w in cl'.workers && cl'.workers[w].controller == c && PastCheck(cl'.sys, cl'.workers[w].pc)
      ensures cl'.workers[w].pc.spec != spec
    {
      assert PcGood(h, cl.sys, c, cl.workers[w].pc);
      ServerPastCheck(h, cl, k, w);
    }
  }

  lemma EndSection(h: Spec -> Hash, t: Tables, r: Request)
    requires Ending(r) && EndGood(h, t, r) && r.Servable(t) && r.id in t.daemons
    ensures r.Release? ==> Handle(h, t, r) == (t, Continue(Finish(r.id, r.hash, t.assignedImages[r.hash].imageSpec, r.completed)))
    ensures r.Finish? ==> r.hash !in Handle(h, t, r).0.assignedImages
  {
  }

  lemma ServedEnd(h: Spec -> Hash, cl: Cluster, k: nat)
    requires CanMove(cl, Server(k)) && Ending(cl.sys.handlers[k]) && EndGood(h, cl.sys.tables, cl.sys.handlers[k])
    requires cl.sys.handlers[k].id in cl.sys.tables.daemons
    ensures var e, cl' := cl.sys.handlers[k], Moved(h, cl, Server(k));
            if e.Finish? then e.hash !in cl'.sys.tables.assignedImages
            else cl'.sys == cl.sys.(handlers := cl.sys.handlers[k :=
                   Finish(e.id, e.hash, cl.sys.tables.assignedImages[e.hash].imageSpec, e.completed)])
  {
    EndSection(h, cl.sys.tables, cl.sys.handlers[k]);
  }

  /** A done or abort on its way stays so until it is processed. */
  lemma EndSurvives(h: Spec -> Hash, cl: Cluster, m: Move, k: nat, spec: Spec)
    requires ClusterInv(h, cl) && CanMove(cl, m)
    requires k in cl.sys.handlers && Ending(cl.sys.handlers[k]) && cl.sys.handlers[k].hash == h(spec)
    ensures !NoEnd(h, Moved(h, cl, m), spec) || h(spec) !in Moved(h, cl, m).sys.tables.assignedImages
  {
    var t, e := cl.sys.tables, cl.sys.handlers[k];
    assert EndGood(h, t, e);
    assert LeaseBacked(h, t, e.hash, t.assignedImages[e.hash]);
    hide Moved, ClusterInv;
    if m == Server(k) {
      ServedEnd(h, cl, k);
    } else {
      OthersWait(h, cl, m, k);
    }
    var cl' := Moved(h, cl, m);
    assert h(spec) in cl'.sys.tables.assignedImages ==> k in cl'.sys.handlers && Ending(cl'.sys.handlers[k]);
  }

  lemma ServedStaysPastCheck(h: Spec -> Hash, cl: Cluster, k: nat, w: nat, c: Id, spec: Spec)
    requires ClusterInv(h, cl) && CanMove(cl, Server(k)) && PastCheckFor(cl, w, c, spec) && spec in cl.sys.tables.requestedImages
    ensures PastCheckFor(Moved(h, cl, Server(k)), w, c, spec)
  {
    var t, pc, cl' := cl.sys.tables, cl.workers[w].pc, Moved(h, cl, Server(k));
    assert PcGood(h, cl.sys, c, pc);
    if pc.Alerting? {
      assert cl.sys.handlers[pc.ticket] == Save(c, spec);
      if pc.ticket == k {
        SaveSection(h, t, c, spec);
      }
    }
    hide Handle, ClusterInv;
    assert cl'.workers[w] == Worker(c, PcAfter(h, cl, Server(k), w));
  }

  lemma OtherStaysPastCheck(h: Spec -> Hash, cl: Cluster, m: Move, w: nat, c: Id, spec: Spec)
    requires CanMove(cl, m) && !m.Server? && Held(h, cl.sys.tables, c, spec) && PastCheckFor(cl, w, c, spec)
    requires !Wedging(h, cl, m, c, spec) && !(m.Report? && m.w == w)
    ensures PastCheckFor(Moved(h, cl, m), w, c, spec)
  {
    OtherKeepsLeases(h, cl, m);
    hide Next;
  }

  lemma ReportIsEnd(h: Spec -> Hash, cl: Cluster, m: Move, spec: Spec)
    requires WorkersGood(h, cl) && CanMove(cl, m) && m.Report? && cl.workers[m.w].pc.spec == spec
    ensures !NoEnd(h, Moved(h, cl, m), spec)
  {
    assert PcGood(h, cl.sys, cl.workers[m.w].controller, cl.workers[m.w].pc);
    assert m.k in Moved(h, cl, m).sys.handlers && Ending(Moved(h, cl, m).sys.handlers[m.k]);
  }

  /** Nor does a worker of the holder stop watching but by those moves, or to
      report. */
  lemma WatchSurvives(h: Spec -> Hash, cl: Cluster, m: Move, w: nat, c: Id, spec: Spec)
    requires ClusterInv(h, cl) && CanMove(cl, m) && Held(h, cl.sys.tables, c, spec) && PastCheckFor(cl, w, c, spec)
    requires !Wedging(h, cl, m, c, spec)
    ensures PastCheckFor(Moved(h, cl, m), w, c, spec) || !NoEnd(h, Moved(h, cl, m), spec)
  {
    if m.Server? {
      assert LeaseBacked(h, cl.sys.tables, h(spec), Lease(c, spec));
      ServedStaysPastCheck(h, cl, m.k, w, c, spec);
    } else if m.Report? && m.w == w {
      ReportIsEnd(h, cl, m, spec);
    } else {
      OtherStaysPastCheck(h, cl, m, w, c, spec);
    }
  }

  lemma HandleHolds(h: Spec -> Hash, t: Tables, r: Request, c: Id, spec: Spec)
    requires Backed(h, t) && r.Servable(t) && !Held(h, t, c, spec) && Held(h, Handle(h, t, r).0, c, spec)
    ensures r == Find(c, spec) && LeaseRuns.CanStart(t, c, spec)
  {
  }

  lemma NewHoldIsGranted(h: Spec -> Hash, cl: Cluster, m: Move, c: Id, spec: Spec)
    requires ClusterInv(h, cl) && CanMove(cl, m)
    requires !Held(h, cl.sys.tables, c, spec) && Held(h, Moved(h, cl, m).sys.tables, c, spec)
    ensures m.Server? && cl.sys.handlers[m.k] == Find(c, spec) && LeaseRuns.CanStart(cl.sys.tables, c, spec)
  {
    if m.Server? {
      HandleHolds(h, cl.sys.tables, cl.sys.handlers[m.k], c, spec);
    } else {
      OtherKeepsLeases(h, cl, m);
    }
  }

  lemma GrantKeepsWatch(h: Spec -> Hash, cl: Cluster, k: nat, w: nat, c: Id, spec: Spec)
    requires ClusterInv(h, cl) && CanMove(cl, Server(k)) && cl.sys.handlers[k].Find? && PastCheckFor(cl, w, c, spec)
    ensures PastCheckFor(Moved(h, cl, Server(k)), w, c, spec)
  {
    assert PcGood(h, cl.sys, c, cl.workers[w].pc);
  }

  /** One move wedges a lease if and only if it is one of the three. */
  lemma WedgesIff(h: Spec -> Hash, cl: Cluster, m: Move, c: Id, spec: Spec)
    requires Injective(h) && ClusterInv(h, cl) && CanMove(cl, m) && !Wedged(h, cl, c, spec)
    ensures Wedged(h, Moved(h, cl, m), c, spec) <==> Wedging(h, cl, m, c, spec)
  {
    var cl' := Moved(h, cl, m);
    if Wedging(h, cl, m, c, spec) {
      if m.Server? {
        OrphanGrantWedges(h, cl, m.k, c, spec);
      } else {
        DroppingOutWedges(h, cl, m, c, spec);
      }
    } else if !Held(h, cl.sys.tables, c, spec) {
      if Held(h, cl'.sys.tables, c, spec) {
        NewHoldIsGranted(h, cl, m, c, spec);
        var w := SomeWatcher(cl, c, spec);
        GrantKeepsWatch(h, cl, m.k, w, c, spec);
      }
    } else if NoEnd(h, cl, spec) {
      var w := SomeWatcher(cl, c, spec);
      WatchSurvives(h, cl, m, w, c, spec);
    } else {
      var k :| k in cl.sys.handlers && Ending(cl.sys.handlers[k]) && cl.sys.handlers[k].hash == h(spec);
      EndSurvives(h, cl, m, k, spec);
    }
  }

  /** Over every run: a lease is wedged if and only if one of the three moves has
      been made. */
  lemma {:induction false} WedgedIff(h: Spec -> Hash, states: seq<Cluster>, moves: seq<Move>, n: nat, c: Id, spec: Spec)
    requires Injective(h) && IsClusterRun(h, states, moves) && n < |states|
    ensures Wedged(h, states[n], c, spec) <==>
              exists k {:trigger moves[k]} :: 0 <= k < n && CanMove(states[k], moves[k]) && Wedging(h, states[k], moves[k], c, spec)
  {
    hide ClusterInv, Wedging, Moved, CanMove;
    if n > 0 {
      var cl, m := states[n - 1], moves[n - 1];
      WedgedIff(h, states, moves, n - 1, c, spec);
      ClusterRunKeepsInv(h, states, moves, n - 1);
      assert CanMove(cl, m) && states[n] == Moved(h, cl, m);
      hide Wedged;
      if Wedged(h, cl, c, spec) {
        WedgedAfterMove(h, cl, m, c, spec);
      } else {
        WedgesIff(h, cl, m, c, spec);
      }
    }
  }

  /** There is no lease timeout: after any of the three moves the lease is never
      released, and no worker of any controller is ever started on that spec
      again. */
  lemma WedgingIsForever(h: Spec -> Hash, states: seq<Cluster>, moves: seq<Move>, i: nat, n: nat, c: Id, spec: Spec, v: nat)
    requires Injective(h) && IsClusterRun(h, states, moves) && i < n < |states|
    requires CanMove(states[i], moves[i]) && Wedging(h, states[i], moves[i], c, spec)
    ensures Held(h, states[n].sys.tables, c, spec)
    ensures !IsStarted(states[n], v, spec)
  {
    WedgedIff(h, states, moves, n, c, spec);
    ClusterRunKeepsInv(h, states, moves, n);
    WedgedStartsNobody(h, states[n], c, spec, v);
  }

  /** The case of a start that was granted and whose worker or reply is lost. */
  lemma LostStartIsForever(h: Spec -> Hash, states: seq<Cluster>, moves: seq<Move>, i: nat, n: nat, w: nat, v: nat, spec: Spec)
    requires Injective(h) && IsClusterRun(h, states, moves) && i < n < |states|
    requires moves[i] == GiveUp(w) && IsStarted(states[i], w, spec)
    ensures Held(h, states[n].sys.tables, states[i].workers[w].controller, spec)
    ensures !IsStarted(states[n], v, spec)
  {
    var c := states[i].workers[w].controller;
    ClusterRunKeepsInv(h, states, moves, i);
    assert PcGood(h, states[i].sys, c, states[i].workers[w].pc);
    WedgingIsForever(h, states, moves, i, n, c, spec, v);
  }

  // ---- what a controller must avoid ----

  /** A worker of the controller is lost while it waits for a poll's answer or has
      a start, or the body of a start is lost. */
  ghost predicate Loses(cl: Cluster, m: Move, c: Id, spec: Spec) {
    && (m.GiveUp? || m.HearEmpty?) && m.w in cl.workers && cl.workers[m.w].controller == c
    && !cl.workers[m.w].pc.Idle? && cl.workers[m.w].pc.spec == spec
    && (Started(cl.workers[m.w].pc) || (m.GiveUp? && cl.workers[m.w].pc.Asking?))
  }

  /** The lease, if `c` has it, will be ended: a done or abort is on its way or a
      worker has the start. */
  ghost predicate Attended(h: Spec -> Hash, cl: Cluster, c: Id, spec: Spec) {
    Held(h, cl.sys.tables, c, spec) ==>
      !NoEnd(h, cl, spec) || exists w :: HasStart(cl, w, c, spec)
  }

  ghost predicate PollFor(r: Request, c: Id, spec: Spec) {
    (r.Poll? || r.Find?) && r.id == c && r.spec == spec
  }

  /** Some worker waits for the answer to each poll. */
  ghost predicate PollsAwaited(cl: Cluster, c: Id, spec: Spec) {
    forall k | k in cl.sys.handlers && PollFor(cl.sys.handlers[k], c, spec) ::
      exists w :: w in cl.workers && cl.workers[w] == Worker(c, Asking(spec, k))
  }

  lemma PollsStayAwaited(h: Spec -> Hash, cl: Cluster, m: Move, c: Id, spec: Spec)
    requires CanMove(cl, m) && PollsAwaited(cl, c, spec) && !Loses(cl, m, c, spec)
    ensures PollsAwaited(Moved(h, cl, m), c, spec)
  {
    var cl' := Moved(h, cl, m);
    forall k | k in cl'.sys.handlers && PollFor(cl'.sys.handlers[k], c, spec)
      ensures exists w :: w in cl'.workers && cl'.workers[w] == Worker(c, Asking(spec, k))
    {
      if k in cl.sys.handlers {
        assert PollFor(cl.sys.handlers[k], c, spec);
        var w :| w in cl.workers && cl.workers[w] == Worker(c, Asking(spec, k));
        assert w in cl'.workers && cl'.workers[w] == cl.workers[w];
      } else {
        assert m.Ask? && m.k == k;
        assert m.w in cl'.workers && cl'.workers[m.w] == Worker(c, Asking(spec, k));
      }
    }
  }

  lemma StartSurvives(h: Spec -> Hash, cl: Cluster, m: Move, c: Id, spec: Spec, w: nat)
    requires ClusterInv(h, cl) && CanMove(cl, m) && !Loses(cl, m, c, spec)
    requires HasStart(cl, w, c, spec)
    ensures HasStart(Moved(h, cl, m), w, c, spec) || !NoEnd(h, Moved(h, cl, m), spec)
  {
    var cl' := Moved(h, cl, m);
    assert PcGood(h, cl.sys, c, cl.workers[w].pc);
    hide ClusterInv, Handle;
    if m.Report? && m.w == w {
      assert m.k in cl'.sys.handlers && Ending(cl'.sys.handlers[m.k]);
    }
  }

  lemma StaysAttended(h: Spec -> Hash, cl: Cluster, m: Move, c: Id, spec: Spec)
    requires ClusterInv(h, cl) && CanMove(cl, m) && !Loses(cl, m, c, spec)
    requires Attended(h, cl, c, spec) && PollsAwaited(cl, c, spec)
    ensures Attended(h, Moved(h, cl, m), c, spec)
  {
    var t, cl' := cl.sys.tables, Moved(h, cl, m);
    if Held(h, cl'.sys.tables, c, spec) {
      if !Held(h, t, c, spec) {
        NewHoldIsGranted(h, cl, m, c, spec);
        assert PollFor(cl.sys.handlers[m.k], c, spec);
        var w :| w in cl.workers && cl.workers[w] == Worker(c, Asking(spec, m.k));
        AwaitedGrantStarts(h, cl, m.k, c, spec, w);
      } else if NoEnd(h, cl, spec) {
        var w :| HasStart(cl, w, c, spec);
        StartSurvives(h, cl, m, c, spec, w);
      } else {
        var k :| k in cl.sys.handlers && Ending(cl.sys.handlers[k]) && cl.sys.handlers[k].hash == h(spec);
        EndSurvives(h, cl, m, k, spec);
      }
    }
  }

  /** As long as a controller loses no worker that waits for a poll's answer or has
      a start, and no start's body, every lease it has will be ended: a done or
      abort is on its way or a worker has the start. */
  lemma {:induction false} CarefulControllersAttend(h: Spec -> Hash, states: seq<Cluster>, moves: seq<Move>, n: nat, c: Id, spec: Spec)
    requires Injective(h) && IsClusterRun(h, states, moves) && n < |states|
    requires forall k {:trigger moves[k]} | 0 <= k < n :: !Loses(states[k], moves[k], c, spec)
    ensures Attended(h, states[n], c, spec) && PollsAwaited(states[n], c, spec)
    ensures !Wedged(h, states[n], c, spec)
  {
    if n > 0 {
      hide ClusterInv, Moved, CanMove, Loses, Attended, PollsAwaited;
      var cl, m := states[n - 1], moves[n - 1];
      CarefulControllersAttend(h, states, moves, n - 1, c, spec);
      ClusterRunKeepsInv(h, states, moves, n - 1);
      assert CanMove(cl, m) && states[n] == Moved(h, cl, m) && !Loses(cl, m, c, spec);
      StaysAttended(h, cl, m, c, spec);
      PollsStayAwaited(h, cl, m, c, spec);
    }
    AttendedIsNotWedged(h, states[n], c, spec);
  }

  lemma AttendedIsNotWedged(h: Spec -> Hash, cl: Cluster, c: Id, spec: Spec)
    requires Attended(h, cl, c, spec)
    ensures !Wedged(h, cl, c, spec)
  {
    assert forall w | w in cl.workers && Started(cl.workers[w].pc) :: PastCheck(cl.sys, cl.workers[w].pc);
  }

  /** Seven specs lost in this way close the gate for good: every later poll of
      every controller is told to come back. */
  lemma SevenLostStartsCloseTheGate(h: Spec -> Hash, states: seq<Cluster>, moves: seq<Move>, i: nat, n: nat, lost: map<Spec, Id>)
    requires Injective(h) && IsClusterRun(h, states, moves) && i <= n < |states|
    requires |lost| >= 7 && forall s | s in lost :: Wedged(h, states[i], lost[s], s)
    ensures !CanSendHubJobs(states[n].sys.tables)
  {
    var hashes := map s | s in lost :: h(s);
    forall s | s in lost ensures h(s) in states[n].sys.tables.assignedImages {
      StaysWedged(h, states, moves, i, n, lost[s], s);
    }
    InjectiveFits(hashes, states[n].sys.tables.assignedImages.Keys);
    assert hashes.Keys == lost.Keys;
  }
}
