/** Workers that poll for a spec while another controller holds it: how long they
    go on, what ends their polling, and what the holder's abort does for them. */
module WaitingPeers {
  import opened LeaseTables
  import opened LeaseProtocol
  import opened LeaseAgreement
  import opened ScanCluster
  import opened ClusterPaths
  import opened LostLeases
  import opened LeaseRelease
  import LeaseRuns
  import Ledger

  // ---- the polling loop ----

  /** The worker is in the polling loop of RequestScanAuthorization. */
  ghost predicate Polls(cl: Cluster, w: nat, spec: Spec) {
    && w in cl.workers && (cl.workers[w].pc.Polling? || cl.workers[w].pc.Asking? || cl.workers[w].pc.AskTold?)
    && cl.workers[w].pc.spec == spec
  }

  /** The answer that means "come back": neither a start nor a skip. */
  ghost predicate ComeBack(reply: Reply) {
    reply.Granted? && !reply.answer.startScan && !reply.answer.skipScan
  }

  // ---- when the answer is "come back" ----

  /** findWorker says skip: the image is known, and scanned or no longer asked for. */
  ghost predicate Skipped(t: Tables, spec: Spec) {
    spec in t.images && (t.images[spec] || spec !in t.requestedImages)
  }

  ghost predicate Turned(t: Tables, c: Id, spec: Spec)
    requires c in t.daemons
  {
    !Skipped(t, spec) && !LeaseRuns.CanStart(t, c, spec)
  }

  lemma ComeBackIff(t: Tables, c: Id, spec: Spec)
    requires c in t.daemons
    ensures ComeBack(Granted(FindWorker(t, c, spec).1)) <==> Turned(t, c, spec)
    ensures Turned(t, c, spec) ==> FindWorker(t, c, spec).0 == t
  {
  }

  /** The worker polls and has heard nothing but "come back". */
  ghost predicate KeptWaiting(cl: Cluster, w: nat, spec: Spec) {
    Polls(cl, w, spec) && (cl.workers[w].pc.AskTold? ==> ComeBack(cl.workers[w].pc.reply))
  }

  /** Every poll of the worker is turned away now. */
  ghost predicate TurnedAway(cl: Cluster, w: nat, spec: Spec) {
    w in cl.workers && cl.workers[w].controller in cl.sys.tables.daemons ==>
      Turned(cl.sys.tables, cl.workers[w].controller, spec)
  }

  /** The worker's own poll, if it is answered now, is answered "come back". */
  ghost predicate AnswerComesBack(h: Spec -> Hash, cl: Cluster, m: Move, w: nat)
    requires CanMove(cl, m) && w in cl.workers
  {
    m.Server? && cl.workers[w].pc.Asking? && cl.workers[w].pc.ticket == m.k ==>
      var out := Handle(h, cl.sys.tables, cl.sys.handlers[m.k]).1; out.Done? ==> ComeBack(out.reply)
  }

  lemma OneRound(h: Spec -> Hash, cl: Cluster, m: Move, w: nat, spec: Spec)
    requires CanMove(cl, m) && m != GiveUp(w) && KeptWaiting(cl, w, spec) && AnswerComesBack(h, cl, m, w)
    ensures KeptWaiting(Moved(h, cl, m), w, spec)
    ensures Moved(h, cl, m).workers[w].controller == cl.workers[w].controller
  {
    hide Handle;
  }

  lemma OwnPoll(h: Spec -> Hash, cl: Cluster, w: nat, spec: Spec)
    requires FullInv(h, cl) && KeptWaiting(cl, w, spec)
    ensures var c, pc := cl.workers[w].controller, cl.workers[w].pc;
            && c in cl.sys.tables.daemons && c != "" && spec != ""
            && (pc.Asking? ==> pc.ticket in cl.sys.handlers && cl.sys.handlers[pc.ticket] in {Poll(c, spec), Find(c, spec)})
  {
    assert PcGood(h, cl.sys, cl.workers[w].controller, cl.workers[w].pc);
    assert CheckGood(cl.sys, cl.workers[w].controller, cl.workers[w].pc);
  }

  lemma StaysKeptWaiting(h: Spec -> Hash, cl: Cluster, m: Move, w: nat, spec: Spec)
    requires FullInv(h, cl) && CanMove(cl, m) && m != GiveUp(w)
    requires KeptWaiting(cl, w, spec) && TurnedAway(cl, w, spec)
    ensures KeptWaiting(Moved(h, cl, m), w, spec)
  {
    OwnPoll(h, cl, w, spec);
    hide FullInv, Handle, Moved, Turned;
    if m.Server? && cl.workers[w].pc.Asking? && cl.workers[w].pc.ticket == m.k {
      TurnedPoll(h, cl.sys.tables, cl.sys.handlers[m.k], cl.workers[w].controller, spec);
    }
    OneRound(h, cl, m, w, spec);
  }

  lemma TurnedPoll(h: Spec -> Hash, t: Tables, r: Request, c: Id, spec: Spec)
    requires c in t.daemons && c != "" && spec != "" && Turned(t, c, spec) && (r == Poll(c, spec) || r == Find(c, spec))
    ensures Handle(h, t, r).0 == t
    ensures Handle(h, t, r).1.Done? ==> ComeBack(Handle(h, t, r).1.reply)
  {
    ComeBackIff(t, c, spec);
  }

  /** The worker's own poll gets to findWorker, and is not turned away there. */
  ghost predicate LetGo(cl: Cluster, m: Move, w: nat) {
    && m.Server? && m.k in cl.sys.handlers && cl.sys.handlers[m.k].Find?
    && w in cl.workers && cl.workers[w].pc.Asking? && cl.workers[w].pc.ticket == m.k
    && cl.sys.handlers[m.k].id in cl.sys.tables.daemons
    && !Turned(cl.sys.tables, cl.sys.handlers[m.k].id, cl.sys.handlers[m.k].spec)
  }

  lemma LetGoHears(h: Spec -> Hash, cl: Cluster, m: Move, w: nat)
    requires CanMove(cl, m) && LetGo(cl, m, w)
    ensures var pc := Moved(h, cl, m).workers[w].pc; pc.AskTold? && !ComeBack(pc.reply)
  {
    ComeBackIff(cl.sys.tables, cl.sys.handlers[m.k].id, cl.sys.handlers[m.k].spec);
    hide Turned, FindWorker;
  }

  lemma PollAtGate(h: Spec -> Hash, t: Tables, c: Id, spec: Spec)
    requires c in t.daemons && c != "" && spec != ""
    ensures Handle(h, t, Poll(c, spec)).1.Done? ==> ComeBack(Handle(h, t, Poll(c, spec)).1.reply)
  {
  }

  lemma KeptWaitingOn(h: Spec -> Hash, cl: Cluster, m: Move, w: nat, spec: Spec)
    requires FullInv(h, cl) && CanMove(cl, m) && KeptWaiting(cl, w, spec)
    ensures KeptWaiting(Moved(h, cl, m), w, spec) <==> m != GiveUp(w) && !LetGo(cl, m, w)
  {
    var c := cl.workers[w].controller;
    OwnPoll(h, cl, w, spec);
    hide FullInv, Handle, Moved, Turned;
    if m == GiveUp(w) {
      GaveUp(h, cl, w);
    } else if LetGo(cl, m, w) {
      LetGoHears(h, cl, m, w);
    } else {
      if m.Server? && cl.workers[w].pc.Asking? && cl.workers[w].pc.ticket == m.k {
        if cl.sys.handlers[m.k].Find? {
          TurnedPoll(h, cl.sys.tables, cl.sys.handlers[m.k], c, spec);
        } else {
          PollAtGate(h, cl.sys.tables, c, spec);
        }
      }
      OneRound(h, cl, m, w, spec);
    }
  }

  lemma GaveUp(h: Spec -> Hash, cl: Cluster, w: nat)
    requires CanMove(cl, GiveUp(w))
    ensures Moved(h, cl, GiveUp(w)).workers[w].pc.Idle?
  {
  }

  /** Throughout a stretch of a run a worker polls and hears nothing but "come back"
      exactly when in that stretch it does not give up, and every poll of it that
      passes the gate finds the tables such that it may neither start nor skip. */
  lemma {:induction false} KeptWaitingIff(h: Spec -> Hash, states: seq<Cluster>, moves: seq<Move>, i: nat, n: nat, w: nat, spec: Spec)
    requires Injective(h) && IsClusterRun(h, states, moves) && i <= n < |states| && KeptWaiting(states[i], w, spec)
    ensures (forall j {:trigger states[j]} | i <= j <= n :: KeptWaiting(states[j], w, spec)) <==>
            (forall j {:trigger moves[j]} | i <= j < n :: moves[j] != GiveUp(w) && !LetGo(states[j], moves[j], w))
    decreases n
  {
    hide *;
    if i < n {
      KeptWaitingIff(h, states, moves, i, n - 1, w, spec);
      ClusterRunKeepsFullInv(h, states, moves, n - 1);
      RunStep(h, states, moves, n);
      if KeptWaiting(states[n - 1], w, spec) {
        KeptWaitingOn(h, states[n - 1], moves[n - 1], w, spec);
      }
    }
  }

  /** A worker whose polls are turned away at every moment never finishes its job,
      unless it dies. */
  lemma {:induction false} TurnedAwayForever(h: Spec -> Hash, states: seq<Cluster>, moves: seq<Move>, i: nat, n: nat, w: nat, spec: Spec)
    requires Injective(h) && IsClusterRun(h, states, moves) && i <= n < |states| && KeptWaiting(states[i], w, spec)
    requires forall j {:trigger states[j]} | i <= j < n :: TurnedAway(states[j], w, spec)
    requires forall j {:trigger moves[j]} | i <= j < n :: moves[j] != GiveUp(w)
    ensures KeptWaiting(states[n], w, spec)
    decreases n
  {
    hide *;
    if i < n {
      RunStep(h, states, moves, n);
      TurnedAwayForever(h, states, moves, i, n - 1, w, spec);
      ClusterRunKeepsFullInv(h, states, moves, n - 1);
      StaysKeptWaiting(h, states[n - 1], moves[n - 1], w, spec);
    }
  }

  /** While the image is missing its workers go on polling. */
  lemma MissingPollsOn(h: Spec -> Hash, states: seq<Cluster>, moves: seq<Move>, i: nat, n: nat, w: nat, spec: Spec)
    requires Injective(h) && IsClusterRun(h, states, moves) && i <= n < |states| && KeptWaiting(states[i], w, spec)
    requires forall j {:trigger states[j]} | i <= j < n :: spec !in states[j].sys.tables.images
    requires forall j {:trigger moves[j]} | i <= j < n :: moves[j] != GiveUp(w)
    ensures KeptWaiting(states[n], w, spec)
  {
    hide IsClusterRun, KeptWaiting;
    TurnedAwayForever(h, states, moves, i, n, w, spec);
  }

  lemma VanishKeepsWaiting(h: Spec -> Hash, cl: Cluster, w: nat, spec: Spec)
    requires KeptWaiting(cl, w, spec) && CanMove(cl, Background(Vanish(spec)))
    ensures KeptWaiting(Moved(h, cl, Background(Vanish(spec))), w, spec)
  {
  }

  /** From the removal of an image on, and until it is shown to the arbiter again, a
      worker that polls for it goes on polling, unless it gives up. */
  lemma MissingImagePollsForever(h: Spec -> Hash, states: seq<Cluster>, moves: seq<Move>, i: nat, n: nat, w: nat, spec: Spec)
    requires Injective(h) && IsClusterRun(h, states, moves) && i < n < |states|
    requires moves[i] == Background(Vanish(spec)) && KeptWaiting(states[i], w, spec)
    requires forall j {:trigger moves[j]} | i < j < n ::
               CanMove(states[j], moves[j]) && moves[j] != GiveUp(w)
               && !Ledger.Shows(states[j].sys, ArbiterStep(states[j], moves[j]), spec)
    ensures KeptWaiting(states[n], w, spec)
  {
    RunStep(h, states, moves, i + 1);
    VanishKeepsWaiting(h, states[i], w, spec);
    forall j {:trigger states[j]} | i + 1 <= j < n ensures spec !in states[j].sys.tables.images {
      VanishedIsMissing(h, states, moves, i, j, spec);
    }
    hide IsClusterRun, KeptWaiting, Moved, CanMove;
    MissingPollsOn(h, states, moves, i + 1, n, w, spec);
  }

  lemma VanishedIsMissing(h: Spec -> Hash, states: seq<Cluster>, moves: seq<Move>, i: nat, n: nat, spec: Spec)
    requires IsClusterRun(h, states, moves) && i < n < |states| && moves[i] == Background(Vanish(spec))
    requires forall j {:trigger moves[j]} | i < j < n ::
               CanMove(states[j], moves[j]) && !Ledger.Shows(states[j].sys, ArbiterStep(states[j], moves[j]), spec)
    ensures spec !in states[n].sys.tables.images
  {
    var sys, steps := SysPart(states), StepPart(states, moves);
    ClusterRunsProtocol(h, states, moves);
    assert CanMove(states[i], moves[i]);
    assert steps[i] == ArbiterStep(states[i], moves[i]) == Vanish(spec);
    hide IsClusterRun, IsRun, CanMove, ArbiterStep, Ledger.Shows;
    forall j {:trigger steps[j]} | i < j < n ensures !Ledger.Shows(sys[j], steps[j], spec) {
      assert steps[j] == ArbiterStep(states[j], moves[j]);
    }
    Ledger.MissingUntilShown(h, sys, steps, i, n, spec);
  }

  lemma GateClosedPoll(h: Spec -> Hash, t: Tables, c: Id, spec: Spec)
    requires c != "" && spec != "" && !CanSendHubJobs(t)
    ensures Handle(h, t, Poll(c, spec)) == (t, Done(Granted(RETRY)))
  {
  }

  lemma ClosedGateRound(h: Spec -> Hash, cl: Cluster, m: Move, w: nat, spec: Spec)
    requires FullInv(h, cl) && CanMove(cl, m) && m != GiveUp(w) && KeptWaiting(cl, w, spec)
    requires !CanSendHubJobs(cl.sys.tables) && !Awaits(cl, w, cl.workers[w].controller, spec)
    ensures var cl' := Moved(h, cl, m); KeptWaiting(cl', w, spec) && !Awaits(cl', w, cl'.workers[w].controller, spec)
  {
    var c := cl.workers[w].controller;
    OwnPoll(h, cl, w, spec);
    if Awaits(Moved(h, cl, m), w, c, spec) {
      AwaitsComeThroughGate(h, cl, m, w, c, spec);
    }
    hide FullInv, Handle, Moved, CanSendHubJobs;
    if m.Server? && cl.workers[w].pc.Asking? && cl.workers[w].pc.ticket == m.k {
      GateClosedPoll(h, cl.sys.tables, c, spec);
    }
    OneRound(h, cl, m, w, spec);
  }

  /** While the gate is closed, no worker finishes the job it polls for, unless its
      poll is past the gate already. */
  lemma {:induction false} ClosedGatePollsForever(h: Spec -> Hash, states: seq<Cluster>, moves: seq<Move>, i: nat, n: nat, w: nat, spec: Spec)
    requires Injective(h) && IsClusterRun(h, states, moves) && i <= n < |states|
    requires KeptWaiting(states[i], w, spec) && !Awaits(states[i], w, states[i].workers[w].controller, spec)
    requires forall j {:trigger states[j]} | i <= j < n :: !CanSendHubJobs(states[j].sys.tables)
    requires forall j {:trigger moves[j]} | i <= j < n :: moves[j] != GiveUp(w)
    ensures KeptWaiting(states[n], w, spec) && !Awaits(states[n], w, states[n].workers[w].controller, spec)
    decreases n
  {
    hide *;
    if i < n {
      RunStep(h, states, moves, n);
      ClosedGatePollsForever(h, states, moves, i, n - 1, w, spec);
      ClusterRunKeepsFullInv(h, states, moves, n - 1);
      ClosedGateRound(h, states[n - 1], moves[n - 1], w, spec);
    }
  }

  // ---- peers of a wedged lease poll for ever ----

  ghost predicate NotScanned(t: Tables, spec: Spec) {
    spec in t.images ==> !t.images[spec]
  }

  lemma SaveKeepsNotScanned(h: Spec -> Hash, t: Tables, c: Id, s: Spec, spec: Spec)
    requires c in t.daemons && NotScanned(t, spec)
    ensures NotScanned(SaveFoundImage(h, t, c, s), spec)
  {
  }

  lemma FinishKeepsNotScanned(t: Tables, c: Id, hash: Hash, s: Spec, spec: Spec)
    requires c in t.daemons && NotScanned(t, spec) && s != spec
    ensures NotScanned(FinalizeScan(t, c, hash, s), spec) && NotScanned(ReleaseScanForPeer(t, c, hash, s), spec)
  {
  }

  lemma SectionKeepsNotScanned(h: Spec -> Hash, t: Tables, r: Request, spec: Spec)
    requires r.Servable(t) && NotScanned(t, spec) && !(r.Finish? && r.spec == spec)
    ensures NotScanned(Handle(h, t, r).0, spec)
  {
    hide FindWorker, SaveFoundImage, FinalizeScan, ReleaseScanForPeer;
    match r
    case Save(id, s) => SaveKeepsNotScanned(h, t, id, s, spec);
    case Find(id, s) => LeaseRuns.FindKeepsImages(t, id, s);
    case Finish(id, hash, s, completed) => FinishKeepsNotScanned(t, id, hash, s, spec);
    case _ =>
  }

  lemma NotScannedElsewhere(h: Spec -> Hash, cl: Cluster, m: Move, spec: Spec)
    requires CanMove(cl, m) && !m.Server? && m != Background(SetStatus(spec, true)) && NotScanned(cl.sys.tables, spec)
    ensures NotScanned(Moved(h, cl, m).sys.tables, spec)
  {
  }

  lemma StaysNotScanned(h: Spec -> Hash, cl: Cluster, m: Move, spec: Spec)
    requires ClusterInv(h, cl) && CanMove(cl, m) && NoEnd(h, cl, spec) && m != Background(SetStatus(spec, true))
    requires NotScanned(cl.sys.tables, spec)
    ensures NotScanned(Moved(h, cl, m).sys.tables, spec)
  {
    if m.Server? {
      var r := cl.sys.handlers[m.k];
      assert RequestGood(h, cl.sys.tables, r);
      assert !(r.Finish? && r.spec == spec);
      hide ClusterInv, Moved, NotScanned;
      SectionKeepsNotScanned(h, cl.sys.tables, r, spec);
      ServerFrame(h, cl, m.k);
    } else {
      NotScannedElsewhere(h, cl, m, spec);
    }
  }

  lemma WedgedTurnsAway(h: Spec -> Hash, cl: Cluster, c: Id, w: nat, spec: Spec)
    requires FullInv(h, cl) && Wedged(h, cl, c, spec) && NotScanned(cl.sys.tables, spec)
    requires Polls(cl, w, spec) && cl.workers[w].controller != c
    ensures TurnedAway(cl, w, spec)
  {
    assert CheckGood(cl.sys, cl.workers[w].controller, cl.workers[w].pc);
    assert LeaseBacked(h, cl.sys.tables, h(spec), Lease(c, spec));
  }

  /** While a lease is wedged, and nothing but a notification can mark its image
      scanned, a worker of any other controller that polls for it polls for ever:
      its job does not end. */
  lemma {:induction false} PeersOfWedgedPollForever(h: Spec -> Hash, states: seq<Cluster>, moves: seq<Move>, i: nat, n: nat,
                                                    c: Id, w: nat, spec: Spec)
    requires Injective(h) && IsClusterRun(h, states, moves) && i <= n < |states|
    requires Wedged(h, states[i], c, spec) && NotScanned(states[i].sys.tables, spec)
    requires KeptWaiting(states[i], w, spec) && states[i].workers[w].controller != c
    requires forall j {:trigger moves[j]} | i <= j < n :: moves[j] != GiveUp(w) && moves[j] != Background(SetStatus(spec, true))
    ensures Wedged(h, states[n], c, spec) && NotScanned(states[n].sys.tables, spec)
    ensures KeptWaiting(states[n], w, spec) && states[n].workers[w].controller != c
    decreases n
  {
    hide *;
    if i < n {
      RunStep(h, states, moves, n);
      var cl, m := states[n - 1], moves[n - 1];
      PeersOfWedgedPollForever(h, states, moves, i, n - 1, c, w, spec);
      ClusterRunKeepsFullInv(h, states, moves, n - 1);
      WedgedRound(h, cl, m, c, w, spec);
    }
  }

  lemma WedgedRound(h: Spec -> Hash, cl: Cluster, m: Move, c: Id, w: nat, spec: Spec)
    requires Injective(h) && FullInv(h, cl) && CanMove(cl, m)
    requires m != GiveUp(w) && m != Background(SetStatus(spec, true))
    requires Wedged(h, cl, c, spec) && NotScanned(cl.sys.tables, spec)
    requires KeptWaiting(cl, w, spec) && cl.workers[w].controller != c
    ensures var cl' := Moved(h, cl, m);
            && Wedged(h, cl', c, spec) && NotScanned(cl'.sys.tables, spec)
            && KeptWaiting(cl', w, spec) && cl'.workers[w].controller != c
  {
    WedgedTurnsAway(h, cl, c, w, spec);
    StaysKeptWaiting(h, cl, m, w, spec);
    assert Moved(h, cl, m).workers[w].controller == cl.workers[w].controller;
    hide Moved, KeptWaiting, TurnedAway;
    WedgedAfterMove(h, cl, m, c, spec);
    StaysNotScanned(h, cl, m, spec);
  }

  // ---- exactly which workers can still leave the loop ----

  /** In some continuation the worker leaves its polling loop without giving up;
      the image table is updated in the background as well. */
  ghost predicate CanLeave(h: Spec -> Hash, cl: Cluster, w: nat, spec: Spec) {
    exists to :: Reaches(h, cl, to, Watching(w)) && !Polls(to, w, spec)
  }

  function Watching(w: nat): World { World(true, {w}) }

  /** It has heard nothing but "come back", and nothing else can come of its polls:
      the image can never be in the table, or the gate stays closed before it. */
  ghost predicate Stranded(h: Spec -> Hash, cl: Cluster, w: nat, c: Id, spec: Spec) {
    && KeptWaiting(cl, w, spec) && cl.workers[w].controller == c
    && (!HasDigest(spec) || (!Awaits(cl, w, c, spec) && |Idling(h, cl, Watching(w))| >= MAX_HUB_JOBS))
  }

  lemma NoDigestIsTurnedAway(h: Spec -> Hash, cl: Cluster, w: nat, spec: Spec)
    requires FullInv(h, cl) && !HasDigest(spec)
    ensures TurnedAway(cl, w, spec)
  {
  }

  lemma SameController(h: Spec -> Hash, cl: Cluster, m: Move, w: nat)
    requires CanMove(cl, m) && w in cl.workers
    ensures w in Moved(h, cl, m).workers && Moved(h, cl, m).workers[w].controller == cl.workers[w].controller
  {
  }

  lemma StaysStranded(h: Spec -> Hash, cl: Cluster, m: Move, w: nat, c: Id, spec: Spec)
    requires Injective(h) && FullInv(h, cl) && CanMove(cl, m) && m != GiveUp(w) && Stranded(h, cl, w, c, spec)
    ensures Stranded(h, Moved(h, cl, m), w, c, spec)
  {
    SameController(h, cl, m, w);
    hide FullInv, Moved, HasDigest, Idling, Awaits;
    if !HasDigest(spec) {
      NoDigestIsTurnedAway(h, cl, w, spec);
      StaysKeptWaiting(h, cl, m, w, spec);
    } else {
      IdlingLeases(h, cl, Watching(w));
      ClosedGateRound(h, cl, m, w, spec);
      IdlingOn(h, cl, m, Watching(w));
    }
  }

  lemma IdlingLeases(h: Spec -> Hash, cl: Cluster, world: World)
    ensures |Idling(h, cl, world)| <= |cl.sys.tables.assignedImages|
  {
    MoreIsMore(Idling(h, cl, world), cl.sys.tables.assignedImages.Keys);
  }

  lemma IdlingOn(h: Spec -> Hash, cl: Cluster, m: Move, world: World)
    requires Injective(h) && FullInv(h, cl) && CanMove(cl, m) && Allowed(m, world) && |Idling(h, cl, world)| >= MAX_HUB_JOBS
    ensures |Idling(h, Moved(h, cl, m), world)| >= MAX_HUB_JOBS
  {
    StayIdling(h, cl, m, world);
    MoreIsMore(Idling(h, cl, world), Idling(h, Moved(h, cl, m), world));
  }

  lemma {:induction false} StrandedOnPath(h: Spec -> Hash, states: seq<Cluster>, moves: seq<Move>, n: nat, w: nat, c: Id, spec: Spec)
    requires Injective(h) && IsPath(h, states, moves, Watching(w)) && n < |states| && FullInv(h, states[0])
    requires Stranded(h, states[0], w, c, spec)
    ensures FullInv(h, states[n]) && Stranded(h, states[n], w, c, spec)
  {
    hide *;
    if n > 0 {
      PathStep(h, states, moves, n, Watching(w));
      AllowedIsNoGiveUp(moves[n - 1], w);
      StrandedOnPath(h, states, moves, n - 1, w, c, spec);
      MoveKeepsFullInv(h, states[n - 1], moves[n - 1]);
      StaysStranded(h, states[n - 1], moves[n - 1], w, c, spec);
    }
  }

  lemma AllowedIsNoGiveUp(m: Move, w: nat)
    requires Allowed(m, Watching(w))
    ensures m != GiveUp(w)
  {
  }

  // ---- the way out ----

  lemma HeardLeaves(h: Spec -> Hash, from: Cluster, cl: Cluster, w: nat, spec: Spec)
    requires Reaches(h, from, cl, Watching(w)) && Polls(cl, w, spec) && !KeptWaiting(cl, w, spec)
    ensures CanLeave(h, from, w, spec)
  {
    ReachesOn(h, from, cl, Hear(w), Watching(w));
    hide Reaches;
    assert !Polls(Moved(h, cl, Hear(w)), w, spec);
  }

  lemma BackgroundStep(h: Spec -> Hash, cl: Cluster, w: nat, c: Id, spec: Spec)
    requires Awaits(cl, w, c, spec) && HasDigest(spec)
    ensures var m := Background(if spec in cl.sys.tables.images then SetStatus(spec, true) else Appear(spec));
            CanMove(cl, m) && NoRival(cl, m) &&
            var cl' := Moved(h, cl, m);
            && Awaits(cl', w, c, spec) && spec in cl'.sys.tables.images
            && (spec in cl.sys.tables.images ==> cl'.sys.tables.images[spec])
  {
  }

  /** The background marks the image scanned, which does not touch the worker. */
  lemma MarkScanned(h: Spec -> Hash, from: Cluster, cl: Cluster, w: nat, c: Id, spec: Spec) returns (to: Cluster)
    requires Reaches(h, from, cl, Watching(w)) && FreeInv(h, cl) && Awaits(cl, w, c, spec) && HasDigest(spec)
    ensures Reaches(h, from, to, Watching(w)) && FreeInv(h, to) && Awaits(to, w, c, spec)
    ensures spec in to.sys.tables.images && to.sys.tables.images[spec]
    decreases spec !in cl.sys.tables.images
  {
    hide Reaches, FreeInv, Awaits, HasDigest, Moved, CanMove, NoRival;
    var m := Background(if spec in cl.sys.tables.images then SetStatus(spec, true) else Appear(spec));
    BackgroundStep(h, cl, w, c, spec);
    ReachesOn(h, from, cl, m, Watching(w));
    MoveKeepsFreeInv(h, cl, m);
    to := Moved(h, cl, m);
    if spec !in cl.sys.tables.images {
      to := MarkScanned(h, from, to, w, c, spec);
    }
  }

  lemma ScannedIsSkipped(h: Spec -> Hash, cl: Cluster, w: nat, c: Id, spec: Spec)
    requires FreeInv(h, cl) && Awaits(cl, w, c, spec) && spec in cl.sys.tables.images && cl.sys.tables.images[spec]
    ensures var m := Server(cl.workers[w].pc.ticket);
            CanMove(cl, m) && NoRival(cl, m) && Polls(Moved(h, cl, m), w, spec) && !KeptWaiting(Moved(h, cl, m), w, spec)
  {
    OwnPc(h, cl, w);
    hide FreeInv;
  }

  lemma AwaitsLeaves(h: Spec -> Hash, from: Cluster, cl: Cluster, w: nat, c: Id, spec: Spec)
    requires Reaches(h, from, cl, Watching(w)) && FreeInv(h, cl) && Awaits(cl, w, c, spec) && HasDigest(spec)
    ensures CanLeave(h, from, w, spec)
  {
    hide Reaches, FreeInv, Moved, CanMove, NoRival, HasDigest;
    var ready := MarkScanned(h, from, cl, w, c, spec);
    var m := Server(ready.workers[w].pc.ticket);
    ScannedIsSkipped(h, ready, w, c, spec);
    ReachesOn(h, from, ready, m, Watching(w));
    HeardLeaves(h, from, Moved(h, ready, m), w, spec);
  }

  lemma StartLeaves(h: Spec -> Hash, from: Cluster, cl: Cluster, w: nat, c: Id, spec: Spec)
    requires Reaches(h, from, cl, Watching(w)) && HasStart(cl, w, c, spec)
    ensures CanLeave(h, from, w, spec)
  {
    if Polls(cl, w, spec) {
      HeardLeaves(h, from, cl, w, spec);
    }
  }

  lemma KeptWaitingIsOutside(h: Spec -> Hash, cl: Cluster, w: nat, c: Id, spec: Spec)
    requires KeptWaiting(cl, w, spec) && cl.workers[w].controller == c && !Awaits(cl, w, c, spec)
    ensures Outside(cl, w, c, spec) && !cl.workers[w].pc.Alerting?
  {
  }

  lemma UnlessStrandedLeaves(h: Spec -> Hash, cl: Cluster, w: nat, c: Id, spec: Spec)
    requires Injective(h) && FullInv(h, cl) && Polls(cl, w, spec) && cl.workers[w].controller == c && !Stranded(h, cl, w, c, spec)
    ensures CanLeave(h, cl, w, spec)
  {
    ReachesSelf(h, cl, Watching(w));
    hide Reaches, ClusterInv, FreeInv, CanLeave, Idling, HasDigest;
    if !KeptWaiting(cl, w, spec) {
      HeardLeaves(h, cl, cl, w, spec);
    } else if Awaits(cl, w, c, spec) {
      AwaitsLeaves(h, cl, cl, w, c, spec);
    } else {
      KeptWaitingIsOutside(h, cl, w, c, spec);
      hide Awaits, HasStart, PastCheckFor, KeptWaiting;
      var open := OpenGate(h, cl, cl, w, c, spec, Watching(w));
      assert Coming(open, w, c, spec);
      var to := ToTheGate(h, cl, open, w, c, spec, Watching(w));
      if HasStart(to, w, c, spec) {
        StartLeaves(h, cl, to, w, c, spec);
      } else {
        AwaitsLeaves(h, cl, to, w, c, spec);
      }
    }
  }

  /** At every moment of every run a worker in its polling loop can still leave it,
      other than by giving up, if and only if it has already heard something other
      than "come back", or the image could be in the table at all and either its
      poll is past the gate or fewer than seven leases idle, so that the gate can
      open. */
  lemma PollingCanEndIff(h: Spec -> Hash, states: seq<Cluster>, moves: seq<Move>, n: nat, w: nat, spec: Spec)
    requires Injective(h) && IsClusterRun(h, states, moves) && n < |states| && Polls(states[n], w, spec)
    ensures CanLeave(h, states[n], w, spec) <==>
              || (states[n].workers[w].pc.AskTold? && !ComeBack(states[n].workers[w].pc.reply))
              || (HasDigest(spec) && (Awaits(states[n], w, states[n].workers[w].controller, spec)
                                      || |Idling(h, states[n], Watching(w))| < MAX_HUB_JOBS))
  {
    var cl := states[n];
    var c := cl.workers[w].controller;
    ClusterRunKeepsFullInv(h, states, moves, n);
    hide IsClusterRun, FullInv, Idling, HasDigest, Awaits;
    if Stranded(h, cl, w, c, spec) {
      if CanLeave(h, cl, w, spec) {
        var to :| Reaches(h, cl, to, Watching(w)) && !Polls(to, w, spec);
        var path, steps :| IsPath(h, path, steps, Watching(w)) && path[0] == cl && path[|steps|] == to;
        StrandedOnPath(h, path, steps, |steps|, w, c, spec);
        assert false;
      }
    } else {
      UnlessStrandedLeaves(h, cl, w, c, spec);
    }
  }

  // ---- what the holder's abort does ----

  lemma GrantedIsStarted(h: Spec -> Hash, cl: Cluster, k: nat, v: nat, c: Id, spec: Spec, hash: Hash)
    requires CanMove(cl, Server(k)) && LeaseRuns.Starts(cl.sys, Run(k), c, spec, hash)
    requires v in cl.workers && cl.workers[v] == Worker(c, Asking(spec, k))
    ensures HasStart(Moved(h, cl, Server(k)), v, c, spec)
  {
    LeaseRuns.StartsIff(cl.sys.tables, c, spec);
    hide LeaseRuns.CanStart;
    AwaitedGrantStarts(h, cl, k, c, spec, v);
  }

  /** Once the holder's abort is processed, and until the hash is granted again or
      the image is removed or marked scanned, every findWorker for a worker that
      waits starts it, if its controller still asks for the spec and has a free
      worker; whatever happens in between. */
  lemma AbortStartsWaitingPeer(h: Spec -> Hash, states: seq<Cluster>, moves: seq<Move>, i: nat, j: nat,
                               spec: Spec, c: Id, v: nat, k: nat)
    requires IsClusterRun(h, states, moves) && i < j < |moves|
    requires CanMove(states[i], moves[i]) && LeaseRuns.Aborts(states[i].sys, ArbiterStep(states[i], moves[i]), spec)
    requires spec in states[i].sys.tables.images && !states[i].sys.tables.images[spec]
    requires forall n {:trigger moves[n]} | i < n < j ::
               CanMove(states[n], moves[n])
               && !LeaseRuns.GrantsHash(states[n].sys, ArbiterStep(states[n], moves[n]), h(spec))
               && !LeaseRuns.Spoils(states[n].sys, ArbiterStep(states[n], moves[n]), spec)
    requires moves[j] == Server(k) && CanMove(states[j], Server(k)) && states[j].sys.handlers[k] == Find(c, spec)
    requires v in states[j].workers && states[j].workers[v] == Worker(c, Asking(spec, k))
    requires LeaseRuns.Wants(states[j].sys.tables, c, spec) && states[j].sys.tables.daemons[c].workerCount > 0
    ensures HasStart(states[j + 1], v, c, spec)
  {
    var sys, steps := SysPart(states), StepPart(states, moves);
    ClusterRunsProtocol(h, states, moves);
    assert states[j + 1] == Moved(h, states[j], Server(k));
    assert LeaseRuns.Finds(sys[j], steps[j], c, spec);
    hide IsClusterRun, IsRun, CanMove, ArbiterStep, Moved, LeaseRuns.Aborts, LeaseRuns.GrantsHash, LeaseRuns.Spoils, LeaseRuns.Finds, LeaseRuns.Starts;
    forall n {:trigger steps[n]} | i < n < j
      ensures !LeaseRuns.GrantsHash(sys[n], steps[n], h(spec)) && !LeaseRuns.Spoils(sys[n], steps[n], spec)
    {
      assert steps[n] == ArbiterStep(states[n], moves[n]);
    }
    LeaseRuns.AbortFreesForPeers(h, sys, steps, i, j, spec, c);
    assert steps[j] == Run(k) by { ServerIsRun(states[j], k); }
    GrantedIsStarted(h, states[j], k, v, c, spec, h(spec));
  }

  lemma ServerIsRun(cl: Cluster, k: nat)
    requires CanMove(cl, Server(k))
    ensures ArbiterStep(cl, Server(k)) == Run(k)
  {
  }
}
