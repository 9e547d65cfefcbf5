/** Which leases can still be brought to an end. A lease that nobody is ending can
    be ended only by way of a start of its holder's worker, and for that the image
    must be in the table with its flag unset and the gate must open. */
module LeaseRelease {
  import opened LeaseTables
  import opened LeaseProtocol
  import opened LeaseAgreement
  import opened ScanCluster
  import opened ClusterPaths
  import opened LostLeases
  import LeaseRuns
  import Admission

  ghost predicate FullInv(h: Spec -> Hash, cl: Cluster) {
    ClusterInv(h, cl) && FreeInv(h, cl)
  }

  lemma MoveKeepsFullInv(h: Spec -> Hash, cl: Cluster, m: Move)
    requires Injective(h) && FullInv(h, cl) && CanMove(cl, m) && NoRival(cl, m)
    ensures FullInv(h, Moved(h, cl, m))
  {
    hide ClusterInv, FreeInv;
    MoveKeepsInv(h, cl, m);
    MoveKeepsFreeInv(h, cl, m);
  }

  lemma InitialIsFree(h: Spec -> Hash, cl: Cluster)
    requires Initial(cl)
    ensures FreeInv(h, cl)
  {
  }

  lemma {:induction false} ClusterRunKeepsFullInv(h: Spec -> Hash, states: seq<Cluster>, moves: seq<Move>, n: nat)
    requires Injective(h) && IsClusterRun(h, states, moves) && n < |states|
    ensures FullInv(h, states[n])
  {
    if n > 0 {
      hide *;
      ClusterRunKeepsFullInv(h, states, moves, n - 1);
      RunStep(h, states, moves, n);
      MoveKeepsFullInv(h, states[n - 1], moves[n - 1]);
    } else {
      ClusterRunKeepsInv(h, states, moves, 0);
      InitialIsFree(h, states[0]);
    }
  }

  lemma {:induction false} PathKeepsFullInv(h: Spec -> Hash, states: seq<Cluster>, moves: seq<Move>, n: nat, world: World)
    requires Injective(h) && IsPath(h, states, moves, world) && n < |states| && FullInv(h, states[0])
    ensures FullInv(h, states[n])
  {
    hide *;
    if n > 0 {
      PathKeepsFullInv(h, states, moves, n - 1, world);
      PathStep(h, states, moves, n, world);
      MoveKeepsFullInv(h, states[n - 1], moves[n - 1]);
    }
  }

  lemma ReachedKeepsFullInv(h: Spec -> Hash, from: Cluster, to: Cluster, world: World)
    requires Injective(h) && FullInv(h, from) && Reaches(h, from, to, world)
    ensures FullInv(h, to)
  {
    hide FullInv;
    var states, moves :| IsPath(h, states, moves, world) && states[0] == from && states[|moves|] == to;
    PathKeepsFullInv(h, states, moves, |moves|, world);
  }

  /** In some continuation the spec is no longer leased. */
  ghost predicate CanEnd(h: Spec -> Hash, cl: Cluster, spec: Spec, world: World) {
    exists to :: Reaches(h, cl, to, world) && h(spec) !in to.sys.tables.assignedImages
  }

  /** Reached, with everything that every run keeps. */
  ghost predicate Got(h: Spec -> Hash, from: Cluster, cl: Cluster, world: World) {
    Reaches(h, from, cl, world) && FullInv(h, cl)
  }

  lemma GoOn(h: Spec -> Hash, from: Cluster, cl: Cluster, m: Move, world: World)
    requires Injective(h) && Got(h, from, cl, world) && CanMove(cl, m) && NoRival(cl, m) && Allowed(m, world)
    ensures Got(h, from, Moved(h, cl, m), world)
  {
    ReachesOn(h, from, cl, m, world);
    MoveKeepsFullInv(h, cl, m);
  }

  // ---- leases that can be ended as things stand ----

  ghost predicate Unscanned(t: Tables, spec: Spec) {
    spec in t.images && !t.images[spec]
  }

  /** A poll for the spec would find the image waiting, or can be made to. */
  ghost predicate Ready(t: Tables, spec: Spec, world: World) {
    world.background || Unscanned(t, spec)
  }

  /** The lease can be ended whatever the gate does: a done or abort is on its way,
      or a worker of the holder has a start or is past the gate to a ready image. */
  ghost predicate Live(h: Spec -> Hash, cl: Cluster, c: Id, spec: Spec, world: World) {
    || !NoEnd(h, cl, spec)
    || (exists w :: HasStart(cl, w, c, spec))
    || (Ready(cl.sys.tables, spec, world) && exists w :: Awaits(cl, w, c, spec))
  }

  /** The leases that cannot. */
  ghost function Idling(h: Spec -> Hash, cl: Cluster, world: World): set<Hash> {
    set x | x in cl.sys.tables.assignedImages
          && !Live(h, cl, cl.sys.tables.assignedImages[x].controllerId, cl.sys.tables.assignedImages[x].imageSpec, world)
  }

  // ---- ending one lease leaves the others as they are ----

  ghost predicate About(h: Spec -> Hash, r: Request, c: Id, spec: Spec) {
    if Ending(r) then r.hash == h(spec) else r.id == c && r.spec == spec
  }

  /** The worker has a job of controller `c` for the spec. */
  ghost predicate Busy(cl: Cluster, w: nat, c: Id, spec: Spec)
    requires w in cl.workers
  {
    !cl.workers[w].pc.Idle? && cl.workers[w].controller == c && cl.workers[w].pc.spec == spec
  }

  /** From one state to the other nothing happened but to the lease of `c`. */
  ghost predicate Spares(h: Spec -> Hash, cl: Cluster, cl': Cluster, c: Id, spec: Spec, world: World) {
    && (var leases, leases' := cl.sys.tables.assignedImages, cl'.sys.tables.assignedImages;
        leases' == leases || leases' == leases - {h(spec)})
    && (forall s | s != spec && Ready(cl.sys.tables, s, world) :: Ready(cl'.sys.tables, s, world))
    && (forall k | k in cl.sys.handlers && !About(h, cl.sys.handlers[k], c, spec) ::
          k in cl'.sys.handlers && cl'.sys.handlers[k] == cl.sys.handlers[k])
    && (forall w | w in cl.workers && !Busy(cl, w, c, spec) && !cl.workers[w].pc.Idle? ::
          w in cl'.workers && cl'.workers[w] == cl.workers[w])
  }

  lemma SparesOn(h: Spec -> Hash, a: Cluster, b: Cluster, d: Cluster, c: Id, spec: Spec, world: World)
    requires Spares(h, a, b, c, spec, world) && Spares(h, b, d, c, spec, world)
    ensures Spares(h, a, d, c, spec, world)
  {
    hide Ready;
  }

  /** The move is a step towards the end of the lease of `c`. */
  ghost predicate Towards(h: Spec -> Hash, cl: Cluster, m: Move, c: Id, spec: Spec)
    requires CanMove(cl, m)
  {
    match m
    case Server(k) =>
      var r := cl.sys.handlers[k];
      r.id == c && ((Ending(r) && r.hash == h(spec)) || (r.Find? && r.spec == spec && Held(h, cl.sys.tables, c, spec)))
    case Hear(w) => Busy(cl, w, c, spec)
    case Report(w, _, _) => Busy(cl, w, c, spec)
    case Background(step) => step == Appear(spec) || step == SetStatus(spec, false)
    case _ => false
  }

  lemma SectionSpares(h: Spec -> Hash, t: Tables, r: Request, spec: Spec, world: World)
    requires Injective(h) && Backed(h, t) && RequestGood(h, t, r)
    requires (Ending(r) && r.hash == h(spec)) || (r.Find? && r.spec == spec && Held(h, t, r.id, spec))
    ensures var t' := Handle(h, t, r).0;
            && (t'.assignedImages == t.assignedImages || t'.assignedImages == t.assignedImages - {h(spec)})
            && forall s | s != spec && Ready(t, s, world) :: Ready(t', s, world)
  {
    var t' := Handle(h, t, r).0;
    if r.Find? {
      assert t.assignedImages[h(spec) := Lease(r.id, spec)] == t.assignedImages;
    }
  }

  /** No worker with another job waits for a request about this one. */
  lemma OthersDoNotWait(h: Spec -> Hash, cl: Cluster, k: nat, c: Id, spec: Spec, w: nat)
    requires Injective(h) && k in cl.sys.handlers && About(h, cl.sys.handlers[k], c, spec) && cl.sys.handlers[k].id == c
    requires w in cl.workers && !Busy(cl, w, c, spec) && CallGood(h, cl.sys, cl.workers[w].controller, cl.workers[w].pc)
    ensures !cl.workers[w].pc.Waits(k)
  {
  }

  lemma ServerSpares(h: Spec -> Hash, cl: Cluster, k: nat, c: Id, spec: Spec, world: World)
    requires Injective(h) && CanMove(cl, Server(k)) && Towards(h, cl, Server(k), c, spec)
    requires Backed(h, cl.sys.tables) && RequestGood(h, cl.sys.tables, cl.sys.handlers[k]) && CallsGood(h, cl)
    ensures Spares(h, cl, Moved(h, cl, Server(k)), c, spec, world)
  {
    var r, cl' := cl.sys.handlers[k], Moved(h, cl, Server(k));
    forall w | w in cl.workers && !Busy(cl, w, c, spec) ensures !cl.workers[w].pc.Waits(k) {
      OthersDoNotWait(h, cl, k, c, spec, w);
    }
    hide CallsGood, Backed, Handle, Ready, Moved, Busy;
    SectionSpares(h, cl.sys.tables, r, spec, world);
    ServerFrame(h, cl, k);
    forall j | j in cl.sys.handlers && !About(h, cl.sys.handlers[j], c, spec)
      ensures j in cl'.sys.handlers && cl'.sys.handlers[j] == cl.sys.handlers[j]
    {
      OthersWait(h, cl, Server(k), j);
    }
  }

  lemma OtherSpares(h: Spec -> Hash, cl: Cluster, m: Move, c: Id, spec: Spec, world: World)
    requires CanMove(cl, m) && !m.Server? && Towards(h, cl, m, c, spec)
    ensures Spares(h, cl, Moved(h, cl, m), c, spec, world)
  {
    OtherKeepsLeases(h, cl, m);
  }

  lemma AllCallsGood(h: Spec -> Hash, cl: Cluster)
    requires FreeInv(h, cl)
    ensures CallsGood(h, cl)
  {
    forall w | w in cl.workers ensures CallGood(h, cl.sys, cl.workers[w].controller, cl.workers[w].pc) {
      assert FreePc(h, cl.sys, cl.workers[w].controller, cl.workers[w].pc);
    }
  }

  lemma StepTowards(h: Spec -> Hash, from: Cluster, start: Cluster, cl: Cluster, m: Move, c: Id, spec: Spec, world: World)
    requires Injective(h) && Got(h, from, cl, world) && Spares(h, start, cl, c, spec, world)
    requires CanMove(cl, m) && Towards(h, cl, m, c, spec) && Allowed(m, world)
    ensures Got(h, from, Moved(h, cl, m), world) && Spares(h, start, Moved(h, cl, m), c, spec, world)
  {
    assert Backed(h, cl.sys.tables);
    AllCallsGood(h, cl);
    assert m.Server? ==> RequestGood(h, cl.sys.tables, cl.sys.handlers[m.k]);
    hide FullInv, Reaches, Spares, Moved, CallsGood, Backed;
    OnlyReportsRival(cl, m);
    GoOn(h, from, cl, m, world);
    if m.Server? {
      ServerSpares(h, cl, m.k, c, spec, world);
    } else {
      OtherSpares(h, cl, m, c, spec, world);
    }
    SparesOn(h, start, cl, Moved(h, cl, m), c, spec, world);
  }

  lemma LiveSpared(h: Spec -> Hash, cl: Cluster, cl': Cluster, c: Id, spec: Spec, i: Id, s: Spec, world: World)
    requires Injective(h) && Spares(h, cl, cl', c, spec, world) && s != spec && Live(h, cl, i, s, world)
    ensures Live(h, cl', i, s, world)
  {
    if !NoEnd(h, cl, s) {
      var k :| k in cl.sys.handlers && Ending(cl.sys.handlers[k]) && cl.sys.handlers[k].hash == h(s);
      assert !About(h, cl.sys.handlers[k], c, spec);
      assert k in cl'.sys.handlers && Ending(cl'.sys.handlers[k]);
    } else if w :| HasStart(cl, w, i, s) {
      assert HasStart(cl', w, i, s);
    } else {
      var w :| Awaits(cl, w, i, s);
      assert !About(h, cl.sys.handlers[cl.workers[w].pc.ticket], c, spec);
      assert Awaits(cl', w, i, s);
    }
  }

  // ---- ending a live lease ----

  lemma EndByReport(h: Spec -> Hash, from: Cluster, start: Cluster, cl: Cluster, k: nat, c: Id, spec: Spec, world: World) returns (to: Cluster)
    requires Injective(h) && Got(h, from, cl, world) && Spares(h, start, cl, c, spec, world)
    requires k in cl.sys.handlers && Ending(cl.sys.handlers[k]) && cl.sys.handlers[k].hash == h(spec) && cl.sys.handlers[k].id == c
    ensures Got(h, from, to, world) && Spares(h, start, to, c, spec, world) && h(spec) !in to.sys.tables.assignedImages
    decreases cl.sys.handlers[k].Release?
  {
    var t, e := cl.sys.tables, cl.sys.handlers[k];
    assert EndGood(h, t, e);
    assert LeaseBacked(h, t, e.hash, t.assignedImages[e.hash]);
    StepTowards(h, from, start, cl, Server(k), c, spec, world);
    ServedEnd(h, cl, k);
    to := Moved(h, cl, Server(k));
    hide Moved, Got, Spares;
    if e.Release? {
      to := EndByReport(h, from, start, to, k, c, spec, world);
    }
  }

  lemma StartIsHeard(h: Spec -> Hash, cl: Cluster, w: nat, c: Id, spec: Spec)
    requires HasStart(cl, w, c, spec) && cl.workers[w].pc.AskTold?
    ensures CanMove(cl, Hear(w)) && Towards(h, cl, Hear(w), c, spec)
    ensures HasStart(Moved(h, cl, Hear(w)), w, c, spec) && Moved(h, cl, Hear(w)).workers[w].pc.Scanning?
  {
  }

  lemma StartIsReported(h: Spec -> Hash, cl: Cluster, w: nat, c: Id, spec: Spec, k: nat)
    requires FullInv(h, cl) && HasStart(cl, w, c, spec) && cl.workers[w].pc.Scanning? && k !in cl.sys.handlers
    ensures CanMove(cl, Report(w, k, true)) && Towards(h, cl, Report(w, k, true), c, spec)
    ensures var cl' := Moved(h, cl, Report(w, k, true));
            k in cl'.sys.handlers && Ending(cl'.sys.handlers[k]) && cl'.sys.handlers[k].hash == h(spec) && cl'.sys.handlers[k].id == c
  {
    assert PcGood(h, cl.sys, c, cl.workers[w].pc);
    hide FullInv;
  }

  lemma EndByStart(h: Spec -> Hash, from: Cluster, start: Cluster, cl: Cluster, w: nat, c: Id, spec: Spec, world: World) returns (to: Cluster)
    requires Injective(h) && Got(h, from, cl, world) && Spares(h, start, cl, c, spec, world) && HasStart(cl, w, c, spec)
    ensures Got(h, from, to, world) && Spares(h, start, to, c, spec, world) && h(spec) !in to.sys.tables.assignedImages
    decreases cl.workers[w].pc.AskTold?
  {
    hide FullInv, Reaches, Spares, Moved, CanMove, Towards;
    if cl.workers[w].pc.AskTold? {
      StartIsHeard(h, cl, w, c, spec);
      StepTowards(h, from, start, cl, Hear(w), c, spec, world);
      to := EndByStart(h, from, start, Moved(h, cl, Hear(w)), w, c, spec, world);
    } else {
      var k := FreshTicket(cl.sys.handlers);
      StartIsReported(h, cl, w, c, spec, k);
      StepTowards(h, from, start, cl, Report(w, k, true), c, spec, world);
      to := EndByReport(h, from, start, Moved(h, cl, Report(w, k, true)), k, c, spec, world);
    }
  }

  lemma HeldFacts(h: Spec -> Hash, cl: Cluster, c: Id, spec: Spec)
    requires FullInv(h, cl) && Held(h, cl.sys.tables, c, spec)
    ensures LeaseRooted(cl.sys.tables, Lease(c, spec)) && LeaseBacked(h, cl.sys.tables, h(spec), Lease(c, spec))
    ensures cl.sys.tables.requestedImages[spec] == h(spec)
  {
    hide ClusterInv;
  }

  /** A poll past the gate to a ready image of its own lease is granted. */
  lemma AwaitedIsStarted(h: Spec -> Hash, cl: Cluster, w: nat, c: Id, spec: Spec)
    requires FullInv(h, cl) && Held(h, cl.sys.tables, c, spec) && Awaits(cl, w, c, spec)
    requires Unscanned(cl.sys.tables, spec)
    ensures CanMove(cl, Server(cl.workers[w].pc.ticket)) && HasStart(Moved(h, cl, Server(cl.workers[w].pc.ticket)), w, c, spec)
  {
    var t, k := cl.sys.tables, cl.workers[w].pc.ticket;
    hide FullInv;
    HeldFacts(h, cl, c, spec);
    assert LeaseRuns.CanStart(t, c, spec);
    AwaitedGrantStarts(h, cl, k, c, spec, w);
  }

  /** The background can make any leased image ready. */
  lemma MakeReady(h: Spec -> Hash, from: Cluster, start: Cluster, cl: Cluster, w: nat, c: Id, spec: Spec, world: World) returns (to: Cluster)
    requires Injective(h) && Got(h, from, cl, world) && Spares(h, start, cl, c, spec, world)
    requires Held(h, cl.sys.tables, c, spec) && Awaits(cl, w, c, spec) && Ready(cl.sys.tables, spec, world)
    ensures Got(h, from, to, world) && Spares(h, start, to, c, spec, world)
    ensures Held(h, to.sys.tables, c, spec) && Awaits(to, w, c, spec) && Unscanned(to.sys.tables, spec)
  {
    hide FullInv, Reaches, Spares;
    HeldFacts(h, cl, c, spec);
    if Unscanned(cl.sys.tables, spec) {
      to := cl;
    } else {
      var m := Background(if spec in cl.sys.tables.images then SetStatus(spec, false) else Appear(spec));
      StepTowards(h, from, start, cl, m, c, spec, world);
      to := Moved(h, cl, m);
    }
  }

  /** An end on its way comes from the holder. */
  lemma SomeEnd(h: Spec -> Hash, cl: Cluster, c: Id, spec: Spec) returns (k: nat)
    requires FullInv(h, cl) && Held(h, cl.sys.tables, c, spec) && !NoEnd(h, cl, spec)
    ensures k in cl.sys.handlers && Ending(cl.sys.handlers[k]) && cl.sys.handlers[k].hash == h(spec) && cl.sys.handlers[k].id == c
  {
    k :| k in cl.sys.handlers && Ending(cl.sys.handlers[k]) && cl.sys.handlers[k].hash == h(spec);
    assert EndGood(h, cl.sys.tables, cl.sys.handlers[k]);
  }

  lemma EndLive(h: Spec -> Hash, from: Cluster, cl: Cluster, c: Id, spec: Spec, world: World) returns (to: Cluster)
    requires Injective(h) && Got(h, from, cl, world) && Held(h, cl.sys.tables, c, spec) && Live(h, cl, c, spec, world)
    ensures Got(h, from, to, world) && Spares(h, cl, to, c, spec, world) && h(spec) !in to.sys.tables.assignedImages
  {
    assert Spares(h, cl, cl, c, spec, world);
    hide FullInv, Reaches, Spares, Ready, Moved;
    if !NoEnd(h, cl, spec) {
      var k := SomeEnd(h, cl, c, spec);
      to := EndByReport(h, from, cl, cl, k, c, spec, world);
    } else if w :| HasStart(cl, w, c, spec) {
      to := EndByStart(h, from, cl, cl, w, c, spec, world);
    } else {
      var w :| Awaits(cl, w, c, spec);
      var ready := MakeReady(h, from, cl, cl, w, c, spec, world);
      var k := ready.workers[w].pc.ticket;
      GrantTowards(h, from, cl, ready, w, c, spec, world);
      to := EndByStart(h, from, cl, Moved(h, ready, Server(k)), w, c, spec, world);
    }
  }

  lemma GrantTowards(h: Spec -> Hash, from: Cluster, start: Cluster, cl: Cluster, w: nat, c: Id, spec: Spec, world: World)
    requires Injective(h) && Got(h, from, cl, world) && Spares(h, start, cl, c, spec, world)
    requires Held(h, cl.sys.tables, c, spec) && Awaits(cl, w, c, spec) && Unscanned(cl.sys.tables, spec)
    ensures var m := Server(cl.workers[w].pc.ticket);
            CanMove(cl, m) && Got(h, from, Moved(h, cl, m), world) && Spares(h, start, Moved(h, cl, m), c, spec, world)
            && HasStart(Moved(h, cl, m), w, c, spec)
  {
    hide FullInv, Reaches, Spares, Moved, Unscanned;
    AwaitedIsStarted(h, cl, w, c, spec);
    StepTowards(h, from, start, cl, Server(cl.workers[w].pc.ticket), c, spec, world);
  }

  // ---- opening the gate ----

  lemma LeaseIsHeld(h: Spec -> Hash, cl: Cluster, x: Hash)
    requires FullInv(h, cl) && x in cl.sys.tables.assignedImages
    ensures var lease := cl.sys.tables.assignedImages[x];
            x == h(lease.imageSpec) && Held(h, cl.sys.tables, lease.controllerId, lease.imageSpec)
  {
    assert LeaseBacked(h, cl.sys.tables, x, cl.sys.tables.assignedImages[x]);
  }

  lemma MoreIsMore(a: set<Hash>, b: set<Hash>)
    requires a <= b
    ensures |a| <= |b|
    ensures a < b ==> |a| < |b|
  {
    assert |a| + |b - a| == |a + (b - a)|;
    assert a + (b - a) == b;
  }

  lemma SomeLive(h: Spec -> Hash, cl: Cluster, world: World) returns (c: Id, spec: Spec)
    requires FullInv(h, cl) && |Idling(h, cl, world)| < |cl.sys.tables.assignedImages|
    ensures Held(h, cl.sys.tables, c, spec) && Live(h, cl, c, spec, world)
  {
    var t := cl.sys.tables;
    hide Live, FullInv;
    if forall x | x in t.assignedImages :: x in Idling(h, cl, world) {
      MoreIsMore(t.assignedImages.Keys, Idling(h, cl, world));
      assert false;
    }
    var x :| x in t.assignedImages && x !in Idling(h, cl, world);
    LeaseIsHeld(h, cl, x);
    c, spec := t.assignedImages[x].controllerId, t.assignedImages[x].imageSpec;
  }

  lemma LeasesSpared(h: Spec -> Hash, cl: Cluster, cl': Cluster, c: Id, spec: Spec, world: World)
    requires Spares(h, cl, cl', c, spec, world) && h(spec) !in cl'.sys.tables.assignedImages
    ensures cl'.sys.tables.assignedImages == cl.sys.tables.assignedImages - {h(spec)}
  {
  }

  lemma IdlingSpared(h: Spec -> Hash, cl: Cluster, cl': Cluster, c: Id, spec: Spec, world: World)
    requires Injective(h) && FullInv(h, cl) && Spares(h, cl, cl', c, spec, world) && h(spec) !in cl'.sys.tables.assignedImages
    ensures |Idling(h, cl', world)| <= |Idling(h, cl, world)|
  {
    var leases := cl.sys.tables.assignedImages;
    LeasesSpared(h, cl, cl', c, spec, world);
    hide Spares, Live, FullInv;
    forall x | x in Idling(h, cl', world) ensures x in Idling(h, cl, world) {
      LeaseIsHeld(h, cl, x);
      if Live(h, cl, leases[x].controllerId, leases[x].imageSpec, world) {
        LiveSpared(h, cl, cl', c, spec, leases[x].controllerId, leases[x].imageSpec, world);
      }
    }
    MoreIsMore(Idling(h, cl', world), Idling(h, cl, world));
  }

  /** The worker is past the check, has no start and is not through the gate. */
  ghost predicate Outside(cl: Cluster, w: nat, c: Id, spec: Spec) {
    PastCheckFor(cl, w, c, spec) && !HasStart(cl, w, c, spec) && !Awaits(cl, w, c, spec)
  }

  /** Then a lease of its own controller for the spec, if there is one, is not live. */
  lemma OutsideIsNotLive(h: Spec -> Hash, cl: Cluster, w: nat, c: Id, spec: Spec, world: World)
    requires FullInv(h, cl) && Outside(cl, w, c, spec) && Held(h, cl.sys.tables, c, spec)
    ensures !Live(h, cl, c, spec, world)
  {
    WatchedHasNoEnd(h, cl, w, c, spec);
    forall v ensures !HasStart(cl, v, c, spec) && !Awaits(cl, v, c, spec) {
      assert HasStart(cl, v, c, spec) || Awaits(cl, v, c, spec) ==> PastCheckFor(cl, v, c, spec);
    }
  }

  /** The worker and its request are as they were. */
  ghost predicate Undisturbed(cl: Cluster, cl': Cluster, w: nat) {
    && w in cl.workers && w in cl'.workers && cl'.workers[w] == cl.workers[w]
    && forall k | k in cl.sys.handlers && cl.workers[w].pc.Waits(k) ::
         k in cl'.sys.handlers && cl'.sys.handlers[k] == cl.sys.handlers[k]
  }

  lemma StillOutside(h: Spec -> Hash, cl: Cluster, cl': Cluster, w: nat, c: Id, spec: Spec)
    requires Outside(cl, w, c, spec) && Undisturbed(cl, cl', w) && FreePc(h, cl.sys, c, cl.workers[w].pc)
    ensures Outside(cl', w, c, spec)
  {
    var pc := cl.workers[w].pc;
    assert pc.Alerting? || pc.Asking? ==> pc.Waits(pc.ticket);
  }

  /** Ending another lease leaves the worker undisturbed. */
  lemma WorkerSpared(h: Spec -> Hash, cl: Cluster, cl': Cluster, c: Id, spec: Spec, w: nat, i: Id, s: Spec, world: World)
    requires Injective(h) && Spares(h, cl, cl', c, spec, world) && PastCheckFor(cl, w, i, s) && (i != c || s != spec)
    requires FreePc(h, cl.sys, i, cl.workers[w].pc)
    ensures Undisturbed(cl, cl', w)
  {
    hide Ready;
    assert !Busy(cl, w, c, spec);
  }

  lemma TablesSpared(h: Spec -> Hash, cl: Cluster, cl': Cluster, c: Id, spec: Spec, i: Id, s: Spec, world: World)
    requires Injective(h) && Spares(h, cl, cl', c, spec, world) && Held(h, cl.sys.tables, c, spec) && (i != c || s != spec)
    ensures Held(h, cl.sys.tables, i, s) ==> s != spec && Held(h, cl'.sys.tables, i, s)
    ensures s != spec && Ready(cl.sys.tables, s, world) ==> Ready(cl'.sys.tables, s, world)
  {
    hide Ready;
  }

  lemma OwnFreePc(h: Spec -> Hash, cl: Cluster, w: nat)
    requires FullInv(h, cl) && w in cl.workers
    ensures FreePc(h, cl.sys, cl.workers[w].controller, cl.workers[w].pc)
  {
    hide ClusterInv;
  }

  /** While fewer than seven leases idle, ending the others opens the gate, and a
      worker outside it is left as it was, with the lease of its controller. */
  lemma OpenGate(h: Spec -> Hash, from: Cluster, cl: Cluster, w: nat, c: Id, spec: Spec, world: World) returns (to: Cluster)
    requires Injective(h) && Got(h, from, cl, world) && |Idling(h, cl, world)| < MAX_HUB_JOBS && Outside(cl, w, c, spec)
    ensures Got(h, from, to, world) && CanSendHubJobs(to.sys.tables)
    ensures Outside(to, w, c, spec) && to.workers[w] == cl.workers[w]
    ensures Held(h, cl.sys.tables, c, spec) ==> Held(h, to.sys.tables, c, spec)
    ensures Held(h, cl.sys.tables, c, spec) && Ready(cl.sys.tables, spec, world) ==> Ready(to.sys.tables, spec, world)
    decreases |cl.sys.tables.assignedImages|
  {
    if CanSendHubJobs(cl.sys.tables) {
      to := cl;
    } else {
      var next := EndAnother(h, from, cl, w, c, spec, world);
      hide *;
      to := OpenGate(h, from, next, w, c, spec, world);
    }
  }

  lemma EndAnother(h: Spec -> Hash, from: Cluster, cl: Cluster, w: nat, c: Id, spec: Spec, world: World) returns (to: Cluster)
    requires Injective(h) && Got(h, from, cl, world) && |Idling(h, cl, world)| < MAX_HUB_JOBS && Outside(cl, w, c, spec)
    requires !CanSendHubJobs(cl.sys.tables)
    ensures Got(h, from, to, world) && |Idling(h, to, world)| <= |Idling(h, cl, world)|
    ensures |to.sys.tables.assignedImages| < |cl.sys.tables.assignedImages|
    ensures Outside(to, w, c, spec) && w in to.workers && w in cl.workers && to.workers[w] == cl.workers[w]
    ensures Held(h, cl.sys.tables, c, spec) ==> Held(h, to.sys.tables, c, spec)
    ensures Held(h, cl.sys.tables, c, spec) && Ready(cl.sys.tables, spec, world) ==> Ready(to.sys.tables, spec, world)
  {
    hide Reaches, FullInv, Live, Idling, Spares, Ready, PastCheck;
    var c', spec' := SomeLive(h, cl, world);
    if c' == c && spec' == spec {
      OutsideIsNotLive(h, cl, w, c, spec, world);
      assert false;
    }
    to := EndLive(h, from, cl, c', spec', world);
    IdlingSpared(h, cl, to, c', spec', world);
    LeasesSpared(h, cl, to, c', spec', world);
    MoreIsMore(to.sys.tables.assignedImages.Keys, cl.sys.tables.assignedImages.Keys);
    OwnFreePc(h, cl, w);
    hide FreePc;
    WorkerSpared(h, cl, to, c', spec', w, c, spec, world);
    StillOutside(h, cl, to, w, c, spec);
    TablesSpared(h, cl, to, c', spec', c, spec, world);
  }

  lemma SameReady(t: Tables, t': Tables, spec: Spec, world: World)
    requires t'.images == t.images && Ready(t, spec, world)
    ensures Ready(t', spec, world)
  {
  }

  /** Through the open gate, a worker that watches makes the lease live. */
  lemma PassGate(h: Spec -> Hash, from: Cluster, cl: Cluster, w: nat, c: Id, spec: Spec, world: World) returns (to: Cluster)
    requires Injective(h) && FullInv(h, from) && Got(h, from, cl, world) && PastCheckFor(cl, w, c, spec)
    requires Held(h, cl.sys.tables, c, spec) && Ready(cl.sys.tables, spec, world) && CanSendHubJobs(cl.sys.tables)
    ensures Got(h, from, to, world) && Held(h, to.sys.tables, c, spec) && Live(h, to, c, spec, world)
  {
    hide ClusterInv, FreeInv, Reaches, PastCheck, Unscanned;
    HeldFacts(h, cl, c, spec);
    to := ToTheGate(h, from, cl, w, c, spec, world);
    hide FullInv, HasStart, Awaits;
    SameReady(cl.sys.tables, to.sys.tables, spec, world);
    ReachedKeepsFullInv(h, from, to, world);
  }

  // ---- leases that cannot be ended ----

  lemma UnreadyAfterSection(h: Spec -> Hash, t: Tables, r: Request, spec: Spec)
    requires r.Servable(t) && spec in t.requestedImages && !Unscanned(t, spec)
    ensures !Unscanned(Handle(h, t, r).0, spec)
  {
  }

  lemma UnreadyElsewhere(h: Spec -> Hash, cl: Cluster, m: Move, spec: Spec)
    requires CanMove(cl, m) && !m.Server? && !m.Background? && !Unscanned(cl.sys.tables, spec)
    ensures !Unscanned(Moved(h, cl, m).sys.tables, spec)
  {
  }

  lemma StaysUnready(h: Spec -> Hash, cl: Cluster, m: Move, c: Id, spec: Spec, world: World)
    requires ClusterInv(h, cl) && CanMove(cl, m) && Allowed(m, world)
    requires Held(h, cl.sys.tables, c, spec) && !Ready(cl.sys.tables, spec, world)
    ensures !Ready(Moved(h, cl, m).sys.tables, spec, world)
  {
    assert LeaseBacked(h, cl.sys.tables, h(spec), Lease(c, spec));
    hide ClusterInv, Handle, Moved;
    if m.Server? {
      UnreadyAfterSection(h, cl.sys.tables, cl.sys.handlers[m.k], spec);
      ServerFrame(h, cl, m.k);
    } else {
      UnreadyElsewhere(h, cl, m, spec);
    }
  }

  lemma StaysHeldWithoutEnd(h: Spec -> Hash, cl: Cluster, m: Move, c: Id, spec: Spec)
    requires Injective(h) && ClusterInv(h, cl) && CanMove(cl, m)
    requires Held(h, cl.sys.tables, c, spec) && NoEnd(h, cl, spec)
    ensures Held(h, Moved(h, cl, m).sys.tables, c, spec)
  {
    if m.Server? {
      HeldAfter(h, cl.sys.tables, cl.sys.handlers[m.k], c, spec);
    } else {
      OtherKeepsLeases(h, cl, m);
    }
  }

  lemma ServerMakesNoEnd(h: Spec -> Hash, cl: Cluster, k: nat, spec: Spec)
    requires Injective(h) && ClusterInv(h, cl) && CanMove(cl, Server(k)) && NoEnd(h, cl, spec)
    ensures NoEnd(h, Moved(h, cl, Server(k)), spec)
  {
    var cl' := Moved(h, cl, Server(k));
    hide Moved, CanMove, ClusterInv;
    forall j | j in cl'.sys.handlers && Ending(cl'.sys.handlers[j]) ensures cl'.sys.handlers[j].hash != h(spec) {
      ServerHandlers(h, cl, k, j);
    }
  }

  lemma OtherMakesNoEnd(h: Spec -> Hash, cl: Cluster, m: Move, spec: Spec)
    requires CanMove(cl, m) && !m.Server? && NoEnd(h, cl, spec)
    requires m.Report? ==> ArbiterStep(cl, m).request.hash != h(spec)
    ensures NoEnd(h, Moved(h, cl, m), spec)
  {
    OtherKeepsLeases(h, cl, m);
    hide Moved;
  }

  lemma EndsComeFromStarts(h: Spec -> Hash, cl: Cluster, m: Move, c: Id, spec: Spec)
    requires Injective(h) && ClusterInv(h, cl) && CanMove(cl, m)
    requires Held(h, cl.sys.tables, c, spec) && NoEnd(h, cl, spec) && forall w :: !HasStart(cl, w, c, spec)
    ensures NoEnd(h, Moved(h, cl, m), spec)
  {
    assert WorkersGood(h, cl);
    hide ClusterInv, Moved, WorkersGood, HasStart, Held, NoEnd;
    if m.Server? {
      ServerMakesNoEnd(h, cl, m.k, spec);
    } else {
      if m.Report? {
        ReportedBy(h, cl, m, c, spec);
      }
      OtherMakesNoEnd(h, cl, m, spec);
    }
  }

  lemma ReportedBy(h: Spec -> Hash, cl: Cluster, m: Move, c: Id, spec: Spec)
    requires WorkersGood(h, cl) && CanMove(cl, m) && m.Report? && Held(h, cl.sys.tables, c, spec)
    requires !HasStart(cl, m.w, c, spec) && Injective(h)
    ensures ArbiterStep(cl, m).request.hash != h(spec)
  {
    assert PcGood(h, cl.sys, cl.workers[m.w].controller, cl.workers[m.w].pc);
  }

  /** A start comes from a poll past the gate to a ready image. */
  lemma StartsComeFromAwaits(h: Spec -> Hash, cl: Cluster, m: Move, w: nat, c: Id, spec: Spec, world: World)
    requires ClusterInv(h, cl) && CanMove(cl, m)
    requires !HasStart(cl, w, c, spec) && HasStart(Moved(h, cl, m), w, c, spec)
    ensures Awaits(cl, w, c, spec) && Ready(cl.sys.tables, spec, world)
  {
    assert PcGood(h, cl.sys, c, cl.workers[w].pc);
    StartComesFromFind(h, cl, m, w);
  }

  lemma AskedBefore(h: Spec -> Hash, cl: Cluster, m: Move, w: nat, c: Id, spec: Spec)
    requires CanMove(cl, m) && Awaits(Moved(h, cl, m), w, c, spec)
    ensures w in cl.workers && cl.workers[w].controller == c
    ensures cl.workers[w].pc == Moved(h, cl, m).workers[w].pc || (m.Ask? && Moved(h, cl, m).workers[w].pc == Asking(spec, m.k))
  {
    hide Handle;
  }

  lemma AwaitsComeThroughGate(h: Spec -> Hash, cl: Cluster, m: Move, w: nat, c: Id, spec: Spec)
    requires ClusterInv(h, cl) && CanMove(cl, m) && !CanSendHubJobs(cl.sys.tables) && Awaits(Moved(h, cl, m), w, c, spec)
    ensures Awaits(cl, w, c, spec)
  {
    assert PcGood(h, cl.sys, c, cl.workers[w].pc);
    AskedBefore(h, cl, m, w, c, spec);
    var k := Moved(h, cl, m).workers[w].pc.ticket;
    if m == Server(k) {
      Admission.HandleLoad(h, cl.sys.tables, cl.sys.handlers[k]);
      ServerFrame(h, cl, k);
    } else if k in cl.sys.handlers {
      OthersWait(h, cl, m, k);
    }
    hide Handle, ClusterInv, CanSendHubJobs;
  }

  /** A lease that is not live stays so while the gate is closed or its image is
      not ready. */
  lemma StaysIdle(h: Spec -> Hash, cl: Cluster, m: Move, c: Id, spec: Spec, world: World)
    requires Injective(h) && ClusterInv(h, cl) && CanMove(cl, m) && Allowed(m, world)
    requires Held(h, cl.sys.tables, c, spec) && !Live(h, cl, c, spec, world)
    requires !CanSendHubJobs(cl.sys.tables) || !Ready(cl.sys.tables, spec, world)
    ensures var cl' := Moved(h, cl, m); Held(h, cl'.sys.tables, c, spec) && !Live(h, cl', c, spec, world)
    ensures !Ready(cl.sys.tables, spec, world) ==> !Ready(Moved(h, cl, m).sys.tables, spec, world)
  {
    var cl' := Moved(h, cl, m);
    hide Moved, ClusterInv, HasStart, Awaits, NoEnd, Ready, CanSendHubJobs;
    StaysHeldWithoutEnd(h, cl, m, c, spec);
    EndsComeFromStarts(h, cl, m, c, spec);
    forall w ensures !HasStart(cl', w, c, spec) {
      if HasStart(cl', w, c, spec) {
        StartsComeFromAwaits(h, cl, m, w, c, spec, world);
      }
    }
    if !Ready(cl.sys.tables, spec, world) {
      StaysUnready(h, cl, m, c, spec, world);
    } else {
      forall w ensures !Awaits(cl', w, c, spec) {
        if Awaits(cl', w, c, spec) {
          AwaitsComeThroughGate(h, cl, m, w, c, spec);
        }
      }
    }
  }

  /** Seven idle leases keep the gate closed, and so stay idle. */
  lemma StayIdling(h: Spec -> Hash, cl: Cluster, m: Move, world: World)
    requires Injective(h) && ClusterInv(h, cl) && CanMove(cl, m) && Allowed(m, world)
    requires |Idling(h, cl, world)| >= MAX_HUB_JOBS
    ensures Idling(h, cl, world) <= Idling(h, Moved(h, cl, m), world)
  {
    var t := cl.sys.tables;
    MoreIsMore(Idling(h, cl, world), t.assignedImages.Keys);
    forall x | x in Idling(h, cl, world) ensures x in Idling(h, Moved(h, cl, m), world) {
      assert LeaseBacked(h, t, x, t.assignedImages[x]);
      StaysIdle(h, cl, m, t.assignedImages[x].controllerId, t.assignedImages[x].imageSpec, world);
    }
  }

  /** Leased, and nothing can come of it. */
  ghost predicate Hopeless(h: Spec -> Hash, cl: Cluster, c: Id, spec: Spec, world: World) {
    && Held(h, cl.sys.tables, c, spec) && !Live(h, cl, c, spec, world)
    && (Wedged(h, cl, c, spec) || !Ready(cl.sys.tables, spec, world) || |Idling(h, cl, world)| >= MAX_HUB_JOBS)
  }

  lemma WedgedIsIdle(h: Spec -> Hash, cl: Cluster, c: Id, spec: Spec, world: World)
    requires Wedged(h, cl, c, spec)
    ensures !Live(h, cl, c, spec, world)
  {
    forall w ensures !HasStart(cl, w, c, spec) && !Awaits(cl, w, c, spec) {
      assert w in cl.workers && (Started(cl.workers[w].pc) || cl.workers[w].pc.Asking?) ==> PastCheck(cl.sys, cl.workers[w].pc);
    }
  }

  lemma StaysHopeless(h: Spec -> Hash, cl: Cluster, m: Move, c: Id, spec: Spec, world: World)
    requires Injective(h) && FullInv(h, cl) && CanMove(cl, m) && Allowed(m, world)
    requires Hopeless(h, cl, c, spec, world)
    ensures Hopeless(h, Moved(h, cl, m), c, spec, world)
  {
    hide Moved, ClusterInv, Wedged, Live, Ready;
    if Wedged(h, cl, c, spec) {
      WedgedAfterMove(h, cl, m, c, spec);
      WedgedIsIdle(h, Moved(h, cl, m), c, spec, world);
      WedgedIsHeld(h, Moved(h, cl, m), c, spec);
    } else if !Ready(cl.sys.tables, spec, world) {
      StaysIdle(h, cl, m, c, spec, world);
    } else {
      MoreIsMore(Idling(h, cl, world), cl.sys.tables.assignedImages.Keys);
      StaysIdle(h, cl, m, c, spec, world);
      StayIdling(h, cl, m, world);
      MoreIsMore(Idling(h, cl, world), Idling(h, Moved(h, cl, m), world));
    }
  }

  lemma WedgedIsHeld(h: Spec -> Hash, cl: Cluster, c: Id, spec: Spec)
    requires Wedged(h, cl, c, spec)
    ensures Held(h, cl.sys.tables, c, spec)
  {
  }

  lemma {:induction false} HopelessOnPath(h: Spec -> Hash, states: seq<Cluster>, moves: seq<Move>, n: nat, c: Id, spec: Spec, world: World)
    requires Injective(h) && IsPath(h, states, moves, world) && n < |states| && FullInv(h, states[0])
    requires Hopeless(h, states[0], c, spec, world)
    ensures FullInv(h, states[n]) && Hopeless(h, states[n], c, spec, world)
  {
    hide *;
    if n > 0 {
      HopelessOnPath(h, states, moves, n - 1, c, spec, world);
      PathStep(h, states, moves, n, world);
      MoveKeepsFullInv(h, states[n - 1], moves[n - 1]);
      StaysHopeless(h, states[n - 1], moves[n - 1], c, spec, world);
    }
  }

  lemma CanEndUnlessHopeless(h: Spec -> Hash, cl: Cluster, c: Id, spec: Spec, world: World)
    requires Injective(h) && FullInv(h, cl) && Held(h, cl.sys.tables, c, spec) && !Hopeless(h, cl, c, spec, world)
    ensures CanEnd(h, cl, spec, world)
  {
    ReachesSelf(h, cl, world);
    hide Reaches, FullInv;
    var to := cl;
    if !Live(h, cl, c, spec, world) {
      assert NoEnd(h, cl, spec) by { NotLiveHasNoEnd(h, cl, c, spec, world); }
      var w := SomeWatcher(cl, c, spec);
      assert !HasStart(cl, w, c, spec) && !Awaits(cl, w, c, spec);
      to := OpenGate(h, cl, cl, w, c, spec, world);
      to := PassGate(h, cl, to, w, c, spec, world);
    }
    to := EndLive(h, cl, to, c, spec, world);
  }

  lemma NotLiveHasNoEnd(h: Spec -> Hash, cl: Cluster, c: Id, spec: Spec, world: World)
    requires !Live(h, cl, c, spec, world)
    ensures NoEnd(h, cl, spec)
  {
  }

  /** At every moment of every run, a lease can still be brought to an end exactly
      when it is live, or some worker of its holder is past the check, its image is
      ready, and fewer than seven leases idle so that the gate can open. With
      background updates of the image table every image counts as ready; which
      workers are sure not to give up makes no difference. */
  lemma LeaseCanEndIff(h: Spec -> Hash, states: seq<Cluster>, moves: seq<Move>, n: nat, c: Id, spec: Spec, world: World)
    requires Injective(h) && IsClusterRun(h, states, moves) && n < |states| && Held(h, states[n].sys.tables, c, spec)
    ensures CanEnd(h, states[n], spec, world) <==>
              || Live(h, states[n], c, spec, world)
              || (&& !Wedged(h, states[n], c, spec) && Ready(states[n].sys.tables, spec, world)
                  && |Idling(h, states[n], world)| < MAX_HUB_JOBS)
  {
    var cl := states[n];
    ClusterRunKeepsFullInv(h, states, moves, n);
    hide IsClusterRun, FullInv, Live, Wedged, Ready;
    if Hopeless(h, cl, c, spec, world) {
      if CanEnd(h, cl, spec, world) {
        var to :| Reaches(h, cl, to, world) && h(spec) !in to.sys.tables.assignedImages;
        var path, steps :| IsPath(h, path, steps, world) && path[0] == cl && path[|steps|] == to;
        HopelessOnPath(h, path, steps, |steps|, c, spec, world);
        assert false;
      }
    } else {
      CanEndUnlessHopeless(h, cl, c, spec, world);
    }
  }

  /** With background updates and the gate open, exactly the wedged leases cannot
      be ended. */
  lemma EndableIffNotWedged(h: Spec -> Hash, states: seq<Cluster>, moves: seq<Move>, n: nat, c: Id, spec: Spec, world: World)
    requires Injective(h) && IsClusterRun(h, states, moves) && n < |states| && Held(h, states[n].sys.tables, c, spec)
    requires world.background && CanSendHubJobs(states[n].sys.tables)
    ensures CanEnd(h, states[n], spec, world) <==> !Wedged(h, states[n], c, spec)
  {
    LeaseCanEndIff(h, states, moves, n, c, spec, world);
    MoreIsMore(Idling(h, states[n], world), states[n].sys.tables.assignedImages.Keys);
    if Wedged(h, states[n], c, spec) {
      WedgedIsIdle(h, states[n], c, spec, world);
    }
  }
}
