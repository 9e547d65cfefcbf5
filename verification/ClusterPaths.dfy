/** What a cluster keeps even where jobs begin freely, and where its moves can
    take it. */
module ClusterPaths {
  import opened LeaseTables
  import opened LeaseProtocol
  import opened ScanCluster
  import LeaseRuns

  // ---- kept in every run, with rivals or without ----

  ghost predicate LeaseRooted(t: Tables, lease: Lease) {
    && HasDigest(lease.imageSpec)
    && lease.controllerId in t.daemons && lease.imageSpec in t.daemons[lease.controllerId].requestedScans
  }

  ghost predicate Rooted(t: Tables) {
    && "" !in t.daemons
    && (forall s | s in t.images :: HasDigest(s))
    && (forall x | x in t.assignedImages :: LeaseRooted(t, t.assignedImages[x]))
  }

  /** What foundImage's check lets through, and the answers it gets. */
  ghost predicate CheckGood(sys: Sys, c: Id, pc: Pc) {
    PastCheck(sys, pc) ==> c in sys.tables.daemons && pc.spec != "" && (pc.AskTold? ==> pc.reply.Granted?)
  }

  ghost predicate FreePc(h: Spec -> Hash, sys: Sys, c: Id, pc: Pc) {
    && CallGood(h, sys, c, pc)
    && (Started(pc) ==> StartHash(pc) == h(pc.spec))
    && CheckGood(sys, c, pc)
  }

  ghost predicate FreeInv(h: Spec -> Hash, cl: Cluster) {
    && Inv(h, cl.sys)
    && Rooted(cl.sys.tables)
    && TicketsOwn(cl)
    && forall w | w in cl.workers :: FreePc(h, cl.sys, cl.workers[w].controller, cl.workers[w].pc)
  }

  lemma SaveKeepsRooted(h: Spec -> Hash, t: Tables, c: Id, spec: Spec)
    requires Rooted(t) && c in t.daemons
    ensures Rooted(SaveFoundImage(h, t, c, spec))
  {
    var t' := SaveFoundImage(h, t, c, spec);
    forall x | x in t'.assignedImages ensures LeaseRooted(t', t'.assignedImages[x]) {
      assert LeaseRooted(t, t.assignedImages[x]);
    }
  }

  lemma FindKeepsRooted(t: Tables, c: Id, spec: Spec)
    requires Rooted(t) && c in t.daemons
    ensures Rooted(FindWorker(t, c, spec).0)
  {
    var t' := FindWorker(t, c, spec).0;
    forall x | x in t'.assignedImages ensures LeaseRooted(t', t'.assignedImages[x]) {
      assert x in t.assignedImages ==> LeaseRooted(t, t.assignedImages[x]);
    }
  }

  lemma FinishKeepsRooted(h: Spec -> Hash, t: Tables, c: Id, spec: Spec)
    requires Backed(h, t) && Rooted(t) && c in t.daemons
    ensures Rooted(FinalizeScan(t, c, h(spec), spec)) && Rooted(ReleaseScanForPeer(t, c, h(spec), spec))
  {
    var f, r := FinalizeScan(t, c, h(spec), spec), ReleaseScanForPeer(t, c, h(spec), spec);
    forall x | x in t.assignedImages && x != h(spec)
      ensures LeaseRooted(f, t.assignedImages[x]) && LeaseRooted(r, t.assignedImages[x])
    {
      assert LeaseRooted(t, t.assignedImages[x]) && LeaseBacked(h, t, x, t.assignedImages[x]);
    }
  }

  lemma HandleKeepsRooted(h: Spec -> Hash, t: Tables, r: Request)
    requires Backed(h, t) && RequestGood(h, t, r) && Rooted(t)
    ensures Rooted(Handle(h, t, r).0)
  {
    match r
    case Save(c, spec) => SaveKeepsRooted(h, t, c, spec);
    case Find(c, spec) => FindKeepsRooted(t, c, spec);
    case Finish(c, _, spec, _) => FinishKeepsRooted(h, t, c, spec);
    case _ =>
  }

  lemma BackgroundKeepsRooted(h: Spec -> Hash, sys: Sys, step: Step)
    requires Rooted(sys.tables) && Enabled(sys, step) && !step.Run?
    ensures Rooted(Next(h, sys, step).tables)
  {
    var t, t' := sys.tables, Next(h, sys, step).tables;
    forall x | x in t'.assignedImages ensures LeaseRooted(t', t'.assignedImages[x]) {
      assert LeaseRooted(t, t.assignedImages[x]);
    }
  }

  lemma SectionChecks(h: Spec -> Hash, t: Tables, r: Request)
    requires r.Servable(t)
    ensures var out := Handle(h, t, r).1;
            && (r.Found? && out.Continue? ==> r.id in t.daemons && r.spec != "")
            && ((r.Poll? || r.Find?) && r.id in t.daemons && r.id != "" && r.spec != "" && out.Done? ==> out.reply.Granted?)
  {
  }

  lemma ServerKeepsCheck(h: Spec -> Hash, cl: Cluster, k: nat, w: nat)
    requires CanMove(cl, Server(k)) && w in cl.workers && WorkersConserved(cl.sys.tables, cl.sys.capacity)
    requires CallGood(h, cl.sys, cl.workers[w].controller, cl.workers[w].pc) && "" !in cl.sys.tables.daemons
    requires CheckGood(cl.sys, cl.workers[w].controller, cl.workers[w].pc)
    ensures CheckGood(Moved(h, cl, Server(k)).sys, cl.workers[w].controller, PcAfter(h, cl, Server(k), w))
  {
    HandleKeepsWorkers(h, cl.sys.tables, cl.sys.handlers[k], cl.sys.capacity);
    if PastCheck(Moved(h, cl, Server(k)).sys, PcAfter(h, cl, Server(k), w)) {
      ServerPastCheck(h, cl, k, w);
    }
    SectionChecks(h, cl.sys.tables, cl.sys.handlers[k]);
    hide Handle, WorkersConserved;
  }

  lemma GrantNamesHash(h: Spec -> Hash, t: Tables, r: Request)
    requires Backed(h, t) && r.Servable(t) && (r.Poll? || r.Find?)
    ensures var out := Handle(h, t, r).1;
            out.Done? && out.reply.Granted? && out.reply.answer.startScan ==> out.reply.answer.requestId == h(r.spec)
  {
  }

  lemma ServerKeepsFreePc(h: Spec -> Hash, cl: Cluster, k: nat, w: nat)
    requires FreeInv(h, cl) && CanMove(cl, Server(k)) && w in cl.workers
    ensures FreePc(h, Moved(h, cl, Server(k)).sys, cl.workers[w].controller, PcAfter(h, cl, Server(k), w))
  {
    var t, r, c, pc := cl.sys.tables, cl.sys.handlers[k], cl.workers[w].controller, cl.workers[w].pc;
    assert FreePc(h, cl.sys, c, pc);
    assert Backed(h, t) && WorkersConserved(t, cl.sys.capacity) && "" !in t.daemons;
    hide FreeInv, Backed, WorkersConserved;
    ServerKeepsCall(h, cl, k, w);
    ServerKeepsCheck(h, cl, k, w);
    if r.Poll? || r.Find? {
      GrantNamesHash(h, t, r);
    }
    hide Handle, CheckGood;
  }

  lemma OtherKeepsFreePc(h: Spec -> Hash, cl: Cluster, m: Move, w: nat)
    requires CanMove(cl, m) && !m.Server? && w in cl.workers && FreePc(h, cl.sys, cl.workers[w].controller, cl.workers[w].pc)
    ensures FreePc(h, Moved(h, cl, m).sys, cl.workers[w].controller, PcAfter(h, cl, m, w))
  {
    OtherKeepsLeases(h, cl, m);
  }

  lemma MoveKeepsFreeInv(h: Spec -> Hash, cl: Cluster, m: Move)
    requires FreeInv(h, cl) && CanMove(cl, m)
    ensures FreeInv(h, Moved(h, cl, m))
  {
    var cl' := Moved(h, cl, m);
    ArbiterStepEnabled(cl, m);
    StepKeepsInv(h, cl.sys, ArbiterStep(cl, m));
    if m.Server? {
      assert RequestGood(h, cl.sys.tables, cl.sys.handlers[m.k]);
      HandleKeepsRooted(h, cl.sys.tables, cl.sys.handlers[m.k]);
    } else {
      BackgroundKeepsRooted(h, cl.sys, ArbiterStep(cl, m));
    }
    forall w | w in cl'.workers ensures FreePc(h, cl'.sys, cl'.workers[w].controller, cl'.workers[w].pc) {
      assert FreePc(h, cl.sys, cl.workers[w].controller, cl.workers[w].pc);
      if m.Server? {
        ServerKeepsFreePc(h, cl, m.k, w);
      } else {
        OtherKeepsFreePc(h, cl, m, w);
      }
    }
    assert CallsGood(h, cl) by {
      forall w | w in cl.workers ensures CallGood(h, cl.sys, cl.workers[w].controller, cl.workers[w].pc) {
        assert FreePc(h, cl.sys, cl.workers[w].controller, cl.workers[w].pc);
      }
    }
    hide LeaseProtocol.Inv, Rooted, FreePc, Moved;
    MoveKeepsTickets(h, cl, m);
  }

  // ---- single sections ----

  lemma ServerFrame(h: Spec -> Hash, cl: Cluster, k: nat)
    requires CanMove(cl, Server(k))
    ensures Moved(h, cl, Server(k)).sys.tables == Handle(h, cl.sys.tables, cl.sys.handlers[k]).0
    ensures var handlers, out := Moved(h, cl, Server(k)).sys.handlers, Handle(h, cl.sys.tables, cl.sys.handlers[k]).1;
            if out.Continue? then k in handlers && handlers[k] == out.next else k !in handlers
    ensures forall w | w in cl.workers && !cl.workers[w].pc.Waits(k) ::
              w in Moved(h, cl, Server(k)).workers && Moved(h, cl, Server(k)).workers[w] == cl.workers[w]
  {
  }

  lemma OthersWait(h: Spec -> Hash, cl: Cluster, m: Move, k: nat)
    requires CanMove(cl, m) && m != Server(k) && k in cl.sys.handlers
    ensures k in Moved(h, cl, m).sys.handlers && Moved(h, cl, m).sys.handlers[k] == cl.sys.handlers[k]
  {
    hide Handle;
  }

  lemma SaveSection(h: Spec -> Hash, t: Tables, c: Id, spec: Spec)
    requires c in t.daemons && spec in t.requestedImages
    ensures Handle(h, t, Save(c, spec)).1 == Done(Created(t.requestedImages[spec]))
  {
  }

  /** A grant to the worker that waits for it. */
  lemma AwaitedGrantStarts(h: Spec -> Hash, cl: Cluster, k: nat, c: Id, spec: Spec, w: nat)
    requires CanMove(cl, Server(k)) && cl.sys.handlers[k] == Find(c, spec) && LeaseRuns.CanStart(cl.sys.tables, c, spec)
    requires w in cl.workers && cl.workers[w] == Worker(c, Asking(spec, k))
    ensures HasStart(Moved(h, cl, Server(k)), w, c, spec)
  {
  }

  // ---- what can come of a cluster ----

  /** What may happen on a path: whether the image table is updated in the
      background as well, and which workers do not give up. */
  datatype World = World(background: bool, kept: set<nat>)

  ghost predicate Allowed(m: Move, world: World) {
    (m.Background? ==> world.background) && (m.GiveUp? ==> m.w !in world.kept)
  }

  ghost predicate IsPath(h: Spec -> Hash, states: seq<Cluster>, moves: seq<Move>, world: World) {
    && |states| == |moves| + 1
    && forall k {:trigger moves[k]} | 0 <= k < |moves| ::
         && CanMove(states[k], moves[k]) && NoRival(states[k], moves[k]) && Allowed(moves[k], world)
         && states[k + 1] == Moved(h, states[k], moves[k])
  }

  ghost predicate Reaches(h: Spec -> Hash, from: Cluster, to: Cluster, world: World) {
    exists states, moves :: IsPath(h, states, moves, world) && states[0] == from && states[|moves|] == to
  }

  lemma ReachesSelf(h: Spec -> Hash, cl: Cluster, world: World)
    ensures Reaches(h, cl, cl, world)
  {
    assert IsPath(h, [cl], [], world);
  }

  lemma ReachesOn(h: Spec -> Hash, from: Cluster, cl: Cluster, m: Move, world: World)
    requires Reaches(h, from, cl, world) && CanMove(cl, m) && NoRival(cl, m) && Allowed(m, world)
    ensures Reaches(h, from, Moved(h, cl, m), world)
  {
    var states, moves :| IsPath(h, states, moves, world) && states[0] == from && states[|moves|] == cl;
    var states', moves' := states + [Moved(h, cl, m)], moves + [m];
    hide CanMove, NoRival, Moved, Allowed;
    forall k {:trigger moves'[k]} | 0 <= k < |moves'|
      ensures CanMove(states'[k], moves'[k]) && NoRival(states'[k], moves'[k]) && Allowed(moves'[k], world)
      ensures states'[k + 1] == Moved(h, states'[k], moves'[k])
    {
      if k < |moves| {
        assert moves'[k] == moves[k];
      }
    }
    assert IsPath(h, states', moves', world);
  }

  lemma PathStep(h: Spec -> Hash, states: seq<Cluster>, moves: seq<Move>, n: nat, world: World)
    requires IsPath(h, states, moves, world) && 0 < n < |states|
    ensures |states| == |moves| + 1
    ensures CanMove(states[n - 1], moves[n - 1]) && NoRival(states[n - 1], moves[n - 1]) && Allowed(moves[n - 1], world)
    ensures states[n] == Moved(h, states[n - 1], moves[n - 1])
  {
  }

  lemma FreshTicket(handlers: map<nat, Request>) returns (k: nat)
    ensures k !in handlers
  {
    k := Above(handlers.Keys);
  }

  lemma Above(s: set<nat>) returns (k: nat)
    ensures forall x | x in s :: x < k
  {
    if s == {} {
      k := 0;
    } else {
      var x :| x in s;
      var j := Above(s - {x});
      k := if x < j then j else x + 1;
      assert forall y | y in s :: y == x || y in s - {x};
    }
  }


  // ---- through the open gate ----

  /** The worker's poll is past the gate. */
  ghost predicate Awaits(cl: Cluster, w: nat, c: Id, spec: Spec) {
    && w in cl.workers && cl.workers[w].controller == c && cl.workers[w].pc.Asking? && cl.workers[w].pc.spec == spec
    && cl.workers[w].pc.ticket in cl.sys.handlers && cl.sys.handlers[cl.workers[w].pc.ticket] == Find(c, spec)
  }

  ghost function Stage(sys: Sys, pc: Pc): nat {
    match pc
    case Alerting(_, _) => 4
    case AlertTold(_, _) => 3
    case AskTold(_, _) => 3
    case Polling(_) => 2
    case Asking(_, k) => if k in sys.handlers && sys.handlers[k].Poll? then 1 else 0
    case _ => 0
  }

  /** The next move of a worker that is past the check and has no start. */
  ghost function Forward(cl: Cluster, w: nat, k: nat): Move
    requires w in cl.workers
  {
    match cl.workers[w].pc
    case Alerting(_, ticket) => Server(ticket)
    case AlertTold(_, _) => Hear(w)
    case AskTold(_, _) => HearEmpty(w)
    case Asking(_, ticket) => Server(ticket)
    case _ => Ask(w, k)
  }

  /** Worker `w` went on by itself: nothing else changed but that its controller may
      have asked for the spec. */
  ghost predicate Beside(cl: Cluster, cl': Cluster, w: nat, c: Id, spec: Spec) {
    && (var t, t' := cl.sys.tables, cl'.sys.tables;
        && t'.assignedImages == t.assignedImages && t'.images == t.images && t'.requestedImages == t.requestedImages
        && (t'.daemons == t.daemons
            || (c in t.daemons && spec in t.requestedImages
                && t'.daemons == t.daemons[c := t.daemons[c].AddScanRequest(spec, t.requestedImages[spec])])))
    && (forall v | v in cl.workers && v != w :: v in cl'.workers && cl'.workers[v] == cl.workers[v])
    && (forall v, k | v in cl.workers && v != w && cl.workers[v].pc.Waits(k) && k in cl.sys.handlers ::
          k in cl'.sys.handlers && cl'.sys.handlers[k] == cl.sys.handlers[k])
  }

  lemma BesideOn(a: Cluster, b: Cluster, d: Cluster, w: nat, c: Id, spec: Spec)
    requires Beside(a, b, w, c, spec) && Beside(b, d, w, c, spec)
    ensures Beside(a, d, w, c, spec)
  {
    var t := a.sys.tables;
    if c in t.daemons && spec in t.requestedImages {
      var hash := t.requestedImages[spec];
      var asked := t.daemons[c := t.daemons[c].AddScanRequest(spec, hash)];
      assert asked[c].AddScanRequest(spec, hash) == asked[c];
      assert asked[c := asked[c].AddScanRequest(spec, hash)] == asked;
    }
  }

  lemma SaveAgain(h: Spec -> Hash, t: Tables, c: Id, spec: Spec)
    requires c in t.daemons && spec in t.requestedImages
    ensures Handle(h, t, Save(c, spec)) ==
              (t.(daemons := t.daemons[c := t.daemons[c].AddScanRequest(spec, t.requestedImages[spec])]),
               Done(Created(t.requestedImages[spec])))
  {
  }

  lemma PollSection(h: Spec -> Hash, t: Tables, c: Id, spec: Spec)
    requires c in t.daemons && c != "" && spec != "" && CanSendHubJobs(t)
    ensures Handle(h, t, Poll(c, spec)) == (t, Continue(Find(c, spec)))
  {
  }

  /** A worker on its way to the gate, and the gate open. */
  ghost predicate Coming(cl: Cluster, w: nat, c: Id, spec: Spec) {
    && PastCheckFor(cl, w, c, spec) && CanSendHubJobs(cl.sys.tables)
    && (cl.workers[w].pc.Alerting? ==> spec in cl.sys.tables.requestedImages)
  }

  /** The worker is a step nearer. */
  ghost predicate Nearer(cl: Cluster, cl': Cluster, w: nat, c: Id, spec: Spec) {
    && Coming(cl', w, c, spec) && Beside(cl, cl', w, c, spec)
    && w in cl.workers && Stage(cl'.sys, cl'.workers[w].pc) < Stage(cl.sys, cl.workers[w].pc)
  }

  lemma OwnPc(h: Spec -> Hash, cl: Cluster, w: nat)
    requires FreeInv(h, cl) && w in cl.workers
    ensures "" !in cl.sys.tables.daemons && TicketsOwn(cl)
    ensures FreePc(h, cl.sys, cl.workers[w].controller, cl.workers[w].pc)
  {
  }

  lemma ServedBeside(h: Spec -> Hash, cl: Cluster, w: nat, c: Id, spec: Spec)
    requires w in cl.workers && (cl.workers[w].pc.Alerting? || cl.workers[w].pc.Asking?) && TicketsOwn(cl)
    requires CanMove(cl, Server(cl.workers[w].pc.ticket))
    ensures var k := cl.workers[w].pc.ticket;
            var cl' := Moved(h, cl, Server(k));
            && (forall v | v in cl.workers && v != w :: v in cl'.workers && cl'.workers[v] == cl.workers[v])
            && (forall v, j | v in cl.workers && v != w && cl.workers[v].pc.Waits(j) && j in cl.sys.handlers ::
                  j in cl'.sys.handlers && cl'.sys.handlers[j] == cl.sys.handlers[j])
            && w in cl'.workers && cl'.workers[w].controller == cl.workers[w].controller
            && (var out := Handle(h, cl.sys.tables, cl.sys.handlers[k]).1;
                cl'.workers[w].pc == if out.Done? then ToldBy(cl.workers[w].pc, out.reply) else cl.workers[w].pc)
  {
    var k := cl.workers[w].pc.ticket;
    assert cl.workers[w].pc.Waits(k);
    hide Handle;
  }

  lemma OnlyReportsRival(cl: Cluster, m: Move)
    requires m.Server? && m.k in cl.sys.handlers ==> !cl.sys.handlers[m.k].Found?
    ensures NoRival(cl, m)
  {
  }

  lemma OwnSave(h: Spec -> Hash, cl: Cluster, w: nat, c: Id, spec: Spec)
    requires PastCheckFor(cl, w, c, spec) && cl.workers[w].pc.Alerting? && FreePc(h, cl.sys, c, cl.workers[w].pc)
    ensures var k := cl.workers[w].pc.ticket;
            k in cl.sys.handlers && cl.sys.handlers[k] == Save(c, spec) && c in cl.sys.tables.daemons && CanMove(cl, Server(k))
  {
  }

  lemma OwnAsk(h: Spec -> Hash, cl: Cluster, w: nat, c: Id, spec: Spec)
    requires PastCheckFor(cl, w, c, spec) && cl.workers[w].pc.Asking? && FreePc(h, cl.sys, c, cl.workers[w].pc)
    requires !Awaits(cl, w, c, spec)
    ensures var k := cl.workers[w].pc.ticket;
            && k in cl.sys.handlers && cl.sys.handlers[k] == Poll(c, spec) && CanMove(cl, Server(k))
            && c in cl.sys.tables.daemons && spec != ""
  {
  }

  lemma ReportNearer(h: Spec -> Hash, cl: Cluster, w: nat, c: Id, spec: Spec)
    requires FreeInv(h, cl) && Coming(cl, w, c, spec) && cl.workers[w].pc.Alerting?
    ensures var m := Server(cl.workers[w].pc.ticket); CanMove(cl, m) && NoRival(cl, m) && Nearer(cl, Moved(h, cl, m), w, c, spec)
  {
    hide FreeInv, TicketsOwn, CanSendHubJobs, FreePc, Moved, Handle, NoRival, CanMove;
    var k := cl.workers[w].pc.ticket;
    OwnPc(h, cl, w);
    OwnSave(h, cl, w, c, spec);
    OnlyReportsRival(cl, Server(k));
    SaveAgain(h, cl.sys.tables, c, spec);
    ServerFrame(h, cl, k);
    ServedBeside(h, cl, w, c, spec);
    GateFollowsLeases(cl.sys.tables, Moved(h, cl, Server(k)).sys.tables);
  }

  lemma GateFollowsLeases(t: Tables, t': Tables)
    requires t'.assignedImages == t.assignedImages
    ensures CanSendHubJobs(t') == CanSendHubJobs(t)
  {
  }

  lemma PollNearer(h: Spec -> Hash, cl: Cluster, w: nat, c: Id, spec: Spec)
    requires FreeInv(h, cl) && Coming(cl, w, c, spec) && cl.workers[w].pc.Asking? && !Awaits(cl, w, c, spec)
    ensures var m := Server(cl.workers[w].pc.ticket); CanMove(cl, m) && NoRival(cl, m) && Nearer(cl, Moved(h, cl, m), w, c, spec)
  {
    hide FreeInv, TicketsOwn, CanSendHubJobs, FreePc, Moved, Handle, NoRival, CanMove, Awaits;
    var k := cl.workers[w].pc.ticket;
    OwnPc(h, cl, w);
    OwnAsk(h, cl, w, c, spec);
    OnlyReportsRival(cl, Server(k));
    PollSection(h, cl.sys.tables, c, spec);
    ServerFrame(h, cl, k);
    ServedBeside(h, cl, w, c, spec);
  }

  /** The worker's own moves on the way. */
  ghost predicate OwnMove(m: Move, w: nat) {
    (m.Ask? && m.w == w) || m == Hear(w) || m == HearEmpty(w)
  }

  lemma WorkerBeside(h: Spec -> Hash, cl: Cluster, w: nat, m: Move, c: Id, spec: Spec)
    requires CanMove(cl, m) && OwnMove(m, w)
    ensures var cl' := Moved(h, cl, m);
            && Beside(cl, cl', w, c, spec)
            && cl'.sys.tables == cl.sys.tables
            && w in cl'.workers && cl'.workers[w] == Worker(cl.workers[w].controller, PcAfter(h, cl, m, w))
            && (m.Ask? ==> m.k in cl'.sys.handlers && cl'.sys.handlers[m.k].Poll?)
  {
  }

  lemma ForwardIsOwn(h: Spec -> Hash, cl: Cluster, w: nat, c: Id, spec: Spec, k: nat)
    requires PastCheckFor(cl, w, c, spec) && FreePc(h, cl.sys, c, cl.workers[w].pc) && k !in cl.sys.handlers
    requires !cl.workers[w].pc.Alerting? && !cl.workers[w].pc.Asking? && !HasStart(cl, w, c, spec)
    ensures var m, pc := Forward(cl, w, k), cl.workers[w].pc;
            && CanMove(cl, m) && OwnMove(m, w)
            && PcAfter(h, cl, m, w) == (if pc.Polling? then Asking(spec, k) else Polling(spec)) && (pc.Polling? <==> m == Ask(w, k))
            && (pc.Polling? || pc.AlertTold? || pc.AskTold?)
  {
  }

  lemma WorkerNearer(h: Spec -> Hash, cl: Cluster, w: nat, c: Id, spec: Spec, k: nat)
    requires FreeInv(h, cl) && Coming(cl, w, c, spec) && k !in cl.sys.handlers
    requires !cl.workers[w].pc.Alerting? && !cl.workers[w].pc.Asking? && !HasStart(cl, w, c, spec)
    ensures var m := Forward(cl, w, k);
            CanMove(cl, m) && NoRival(cl, m) && Nearer(cl, Moved(h, cl, m), w, c, spec)
  {
    hide FreeInv, TicketsOwn, CanSendHubJobs, Moved, NoRival, Beside, FreePc, Forward, CanMove, PcAfter;
    OwnPc(h, cl, w);
    ForwardIsOwn(h, cl, w, c, spec, k);
    OnlyReportsRival(cl, Forward(cl, w, k));
    WorkerBeside(h, cl, w, Forward(cl, w, k), c, spec);
  }

  lemma ForwardNearer(h: Spec -> Hash, cl: Cluster, w: nat, c: Id, spec: Spec, k: nat)
    requires FreeInv(h, cl) && Coming(cl, w, c, spec) && k !in cl.sys.handlers
    requires !HasStart(cl, w, c, spec) && !Awaits(cl, w, c, spec)
    ensures var m := Forward(cl, w, k);
            CanMove(cl, m) && NoRival(cl, m) && !m.Background? && !m.GiveUp?
            && Coming(Moved(h, cl, m), w, c, spec) && Beside(cl, Moved(h, cl, m), w, c, spec)
            && w in Moved(h, cl, m).workers && w in cl.workers
            && Stage(Moved(h, cl, m).sys, Moved(h, cl, m).workers[w].pc) < Stage(cl.sys, cl.workers[w].pc)
  {
    hide FreeInv, Moved, Stage, Beside, CanMove, CanSendHubJobs, NoRival, HasStart, Awaits;
    if cl.workers[w].pc.Alerting? {
      ReportNearer(h, cl, w, c, spec);
    } else if cl.workers[w].pc.Asking? {
      PollNearer(h, cl, w, c, spec);
    } else {
      WorkerNearer(h, cl, w, c, spec, k);
    }
  }

  /** Through the open gate a worker that is past the check gets to its findWorker,
      by itself. */
  lemma ToTheGate(h: Spec -> Hash, from: Cluster, cl: Cluster, w: nat, c: Id, spec: Spec, world: World) returns (to: Cluster)
    requires Reaches(h, from, cl, world) && FreeInv(h, cl) && Coming(cl, w, c, spec)
    ensures Reaches(h, from, to, world) && FreeInv(h, to) && (HasStart(to, w, c, spec) || Awaits(to, w, c, spec))
    ensures Beside(cl, to, w, c, spec)
    decreases Stage(cl.sys, cl.workers[w].pc)
  {
    if HasStart(cl, w, c, spec) || Awaits(cl, w, c, spec) {
      to := cl;
    } else {
      hide Reaches, FreeInv, Moved, Stage, Beside, CanMove, CanSendHubJobs, NoRival, PastCheck, HasStart, Awaits;
      var k := FreshTicket(cl.sys.handlers);
      var m := Forward(cl, w, k);
      ForwardNearer(h, cl, w, c, spec, k);
      assert Allowed(m, world);
      hide *;
      ReachesOn(h, from, cl, m, world);
      MoveKeepsFreeInv(h, cl, m);
      to := ToTheGate(h, from, Moved(h, cl, m), w, c, spec, world);
      BesideOn(cl, Moved(h, cl, m), to, w, c, spec);
    }
  }
}
