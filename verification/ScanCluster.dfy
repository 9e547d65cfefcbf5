/** The arbiter together with any number of controllers, each running any number
    of workers through the loop of RequestScanAuthorization. Replies may be lost
    or truncated, requests may be processed after their sender has given up, and
    workers may die at any point. Jobs begin freely. The one thing asked of a
    controller is that foundImage lets no report of it through while another of its
    workers is past that check with the same spec. */
module ScanCluster {
  import opened LeaseTables
  import opened LeaseProtocol
  import opened LeaseAgreement
  import opened Counting
  import LeaseRuns
  import Admission

  /** Where a worker is. Alerting, Asking and Reporting wait for the reply to the
      request that carries the ticket; Told has it. */
  datatype Pc =
    | Idle
    | Starting(spec: Spec)
    | Ready(spec: Spec)
    | Alerting(spec: Spec, ticket: nat)
    | AlertTold(spec: Spec, reply: Reply)
    | Polling(spec: Spec)
    | Asking(spec: Spec, ticket: nat)
    | AskTold(spec: Spec, reply: Reply)
    | Scanning(spec: Spec, hash: Hash)
    | Reporting(spec: Spec, ticket: nat)
  {
    ghost predicate Waits(k: nat) { (Alerting? || Asking? || Reporting?) && ticket == k }
  }

  datatype Worker = Worker(controller: Id, pc: Pc)

  datatype Cluster = Cluster(sys: Sys, workers: map<nat, Worker>)

  datatype Move =
    | Begin(w: nat, spec: Spec)              // takes a job off the queue
    | Beat(w: nat, workers: int)             // heartbeat answered
    | BeatLost(w: nat, workers: int)         // heartbeat processed, answer lost
    | Alert(w: nat, k: nat, imageId: string)
    | Ask(w: nat, k: nat)
    | Report(w: nat, k: nat, completed: bool)
    | Server(k: nat)                         // the arbiter runs a section of request k
    | Hear(w: nat)                           // the reply arrives
    | HearEmpty(w: nat)                      // status 200 arrives, the body does not
    | GiveUp(w: nat)                         // reply lost, image gone, or worker dead
    | Background(step: Step)                 // image table updates

  /** foundImage's check lets the report through. */
  ghost predicate LetsThrough(t: Tables, r: Request) {
    && r.Found? && r.id != "" && r.spec != "" && r.imageId != ""
    && r.id in t.daemons && !AlreadyIdentified(t, r.id, r.spec)
  }

  /** The assumption on controllers. Jobs begin as they like, several for one spec
      too; but when foundImage lets a report through for which a worker waits, no
      other worker of that controller is past the check with the spec. */
  ghost predicate NoRival(cl: Cluster, m: Move) {
    m.Server? && m.k in cl.sys.handlers && LetsThrough(cl.sys.tables, cl.sys.handlers[m.k]) ==>
      forall v, w | v in cl.workers && w in cl.workers && v != w && cl.workers[v].pc.Waits(m.k) ::
        !PastCheckFor(cl, w, cl.sys.handlers[m.k].id, cl.sys.handlers[m.k].spec)
  }

  /** Worker `w` of controller `c` is past the check with the spec. */
  ghost predicate PastCheckFor(cl: Cluster, w: nat, c: Id, spec: Spec) {
    w in cl.workers && cl.workers[w].controller == c && PastCheck(cl.sys, cl.workers[w].pc) && cl.workers[w].pc.spec == spec
  }

  ghost predicate CanMove(cl: Cluster, m: Move) {
    match m
    case Begin(w, spec) => w in cl.workers && cl.workers[w].pc.Idle?
    case Beat(w, _) => w in cl.workers && cl.workers[w].pc.Starting?
    case BeatLost(w, _) => w in cl.workers && cl.workers[w].pc.Starting?
    case Alert(w, k, _) => w in cl.workers && cl.workers[w].pc.Ready? && k !in cl.sys.handlers
    case Ask(w, k) => w in cl.workers && cl.workers[w].pc.Polling? && k !in cl.sys.handlers
    case Report(w, k, _) => w in cl.workers && cl.workers[w].pc.Scanning? && k !in cl.sys.handlers
    case Server(k) => Enabled(cl.sys, Run(k))
    case Hear(w) => w in cl.workers && (cl.workers[w].pc.AlertTold? || cl.workers[w].pc.AskTold?)
    case HearEmpty(w) => w in cl.workers && cl.workers[w].pc.AskTold? && cl.workers[w].pc.reply.Granted?
    case GiveUp(w) => w in cl.workers
    case Background(step) => (step.Appear? || step.Vanish? || step.SetStatus?) && Enabled(cl.sys, step)
  }

  /** Nothing is ruled out: a worker may take any job when it has none, its heartbeat
      may be answered or not, its scan may end either way, it may hear a reply or
      only that there was one, and it may give up at any time; requests are served
      in any order, and the image table changes as it likes. */
  lemma AnythingMayHappen(cl: Cluster, w: nat, k: nat, n: int, spec: Spec, imageId: string, completed: bool)
    requires w in cl.workers && k !in cl.sys.handlers
    ensures CanMove(cl, GiveUp(w))
    ensures cl.workers[w].pc.Idle? ==> CanMove(cl, Begin(w, spec))
    ensures cl.workers[w].pc.Starting? ==> CanMove(cl, Beat(w, n)) && CanMove(cl, BeatLost(w, n))
    ensures cl.workers[w].pc.Ready? ==> CanMove(cl, Alert(w, k, imageId))
    ensures cl.workers[w].pc.Polling? ==> CanMove(cl, Ask(w, k))
    ensures cl.workers[w].pc.Scanning? ==> CanMove(cl, Report(w, k, completed))
    ensures cl.workers[w].pc.AlertTold? || cl.workers[w].pc.AskTold? ==> CanMove(cl, Hear(w))
    ensures cl.workers[w].pc.AskTold? && cl.workers[w].pc.reply.Granted? ==> CanMove(cl, HearEmpty(w))
    ensures forall j :: Enabled(cl.sys, Run(j)) ==> CanMove(cl, Server(j))
    ensures CanMove(cl, Background(Vanish(spec))) && CanMove(cl, Background(SetStatus(spec, completed)))
    ensures '@' in spec ==> CanMove(cl, Background(Appear(spec)))
  {
  }

  /** What the arbiter does in a move: a step of the protocol, or nothing. */
  ghost function ArbiterStep(cl: Cluster, m: Move): Step
    requires CanMove(cl, m)
  {
    match m
    case Beat(w, n) => Register(cl.workers[w].controller, n)
    case BeatLost(w, n) => Register(cl.workers[w].controller, n)
    case Alert(w, k, imageId) => Arrive(k, Found(cl.workers[w].controller, cl.workers[w].pc.spec, imageId))
    case Ask(w, k) => Arrive(k, Poll(cl.workers[w].controller, cl.workers[w].pc.spec))
    case Report(w, k, completed) => Arrive(k, Release(cl.workers[w].controller, cl.workers[w].pc.hash, completed))
    case Server(k) => Run(k)
    case Background(step) => step
    case _ => Stutter
  }

  /** The worker's side of a reply: a skip wins over a start, anything else but a
      start is asked again, and any other status is a skip. */
  function AfterReply(pc: Pc): Pc
    requires pc.AlertTold? || pc.AskTold?
  {
    if pc.AlertTold? then
      if pc.reply.Created? then Polling(pc.spec) else Idle
    else if pc.reply.Granted? then
      if pc.reply.answer.skipScan then Idle
      else if pc.reply.answer.startScan then Scanning(pc.spec, pc.reply.answer.requestId)
      else Polling(pc.spec)
    else Idle
  }

  function ToldBy(pc: Pc, reply: Reply): Pc {
    match pc
    case Alerting(spec, _) => AlertTold(spec, reply)
    case Asking(spec, _) => AskTold(spec, reply)
    case _ => Idle
  }

  ghost function PcAfter(h: Spec -> Hash, cl: Cluster, m: Move, v: nat): Pc
    requires CanMove(cl, m) && v in cl.workers
  {
    var pc := cl.workers[v].pc;
    match m
    case Begin(w, spec) => if v == w then Starting(spec) else pc
    case Beat(w, _) => if v == w then Ready(pc.spec) else pc
    case Alert(w, k, _) => if v == w then Alerting(pc.spec, k) else pc
    case Ask(w, k) => if v == w then Asking(pc.spec, k) else pc
    case Report(w, k, _) => if v == w then Reporting(pc.spec, k) else pc
    case Server(k) =>
      var out := Handle(h, cl.sys.tables, cl.sys.handlers[k]).1;
      if pc.Waits(k) && out.Done? then ToldBy(pc, out.reply) else pc
    case Hear(w) => if v == w then AfterReply(pc) else pc
    case HearEmpty(w) => if v == w then Polling(pc.spec) else pc
    case GiveUp(w) => if v == w then Idle else pc
    case _ => pc
  }

  ghost function Moved(h: Spec -> Hash, cl: Cluster, m: Move): Cluster
    requires CanMove(cl, m)
  {
    Cluster(Next(h, cl.sys, ArbiterStep(cl, m)),
            map v | v in cl.workers :: Worker(cl.workers[v].controller, PcAfter(h, cl, m, v)))
  }

  ghost predicate Initial(cl: Cluster) {
    cl.sys == Init && forall w | w in cl.workers :: cl.workers[w].pc.Idle?
  }

  ghost predicate IsClusterRun(h: Spec -> Hash, states: seq<Cluster>, moves: seq<Move>) {
    && |states| == |moves| + 1
    && Initial(states[0])
    && forall k {:trigger moves[k]} | 0 <= k < |moves| ::
         CanMove(states[k], moves[k]) && NoRival(states[k], moves[k]) && states[k + 1] == Moved(h, states[k], moves[k])
  }

  // ---- the arbiter's part of a cluster run is a run of the protocol ----

  ghost function SysPart(states: seq<Cluster>): seq<Sys> {
    seq(|states|, k requires 0 <= k < |states| => states[k].sys)
  }

  ghost function StepPart(states: seq<Cluster>, moves: seq<Move>): seq<Step>
    requires |states| == |moves| + 1
    requires forall k {:trigger moves[k]} | 0 <= k < |moves| :: CanMove(states[k], moves[k])
  {
    seq(|moves|, k requires 0 <= k < |moves| => ArbiterStep(states[k], moves[k]))
  }

  lemma ArbiterStepEnabled(cl: Cluster, m: Move)
    requires CanMove(cl, m)
    ensures Enabled(cl.sys, ArbiterStep(cl, m))
  {
  }

  lemma RunStep(h: Spec -> Hash, states: seq<Cluster>, moves: seq<Move>, n: nat)
    requires IsClusterRun(h, states, moves) && 0 < n < |states|
    ensures |states| == |moves| + 1
    ensures CanMove(states[n - 1], moves[n - 1]) && NoRival(states[n - 1], moves[n - 1])
    ensures states[n] == Moved(h, states[n - 1], moves[n - 1])
  {
  }

  lemma MovedSys(h: Spec -> Hash, cl: Cluster, m: Move)
    requires CanMove(cl, m)
    ensures Enabled(cl.sys, ArbiterStep(cl, m)) && Moved(h, cl, m).sys == Next(h, cl.sys, ArbiterStep(cl, m))
  {
    ArbiterStepEnabled(cl, m);
  }

  /** Everything proved of the arbiter alone holds in every cluster run. */
  lemma ClusterRunsProtocol(h: Spec -> Hash, states: seq<Cluster>, moves: seq<Move>)
    requires IsClusterRun(h, states, moves)
    ensures IsRun(h, SysPart(states), StepPart(states, moves))
  {
    var sys, steps := SysPart(states), StepPart(states, moves);
    assert sys[0] == Init;
    hide IsClusterRun, CanMove, ArbiterStep, Moved, Next, Enabled;
    forall k {:trigger steps[k]} | 0 <= k < |steps|
      ensures Enabled(sys[k], steps[k]) && sys[k + 1] == Next(h, sys[k], steps[k])
    {
      RunStep(h, states, moves, k + 1);
      MovedSys(h, states[k], moves[k]);
    }
  }

  // ---- the invariant ----

  /** The request is the worker's own. */
  ghost predicate OwnRequest(h: Spec -> Hash, c: Id, pc: Pc, r: Request) {
    match pc
    case Alerting(spec, _) => (r.Found? || r.Save?) && r.id == c && r.spec == spec
    case Asking(spec, _) => (r.Poll? || r.Find?) && r.id == c && r.spec == spec
    case Reporting(spec, _) => Ending(r) && r.id == c && r.hash == h(spec)
    case _ => true
  }

  /** A done or abort on its way. */
  ghost predicate Ending(r: Request) { r.Release? || r.Finish? }

  ghost predicate CallGood(h: Spec -> Hash, sys: Sys, c: Id, pc: Pc) {
    pc.Alerting? || pc.Asking? || pc.Reporting? ==>
      pc.ticket in sys.handlers && OwnRequest(h, c, pc, sys.handlers[pc.ticket])
  }

  /** A start was granted and the worker has not yet reported. */
  ghost predicate Started(pc: Pc) {
    pc.Scanning? || (pc.AskTold? && pc.reply.Granted? && pc.reply.answer.startScan && !pc.reply.answer.skipScan)
  }

  function StartHash(pc: Pc): Hash
    requires Started(pc)
  {
    if pc.Scanning? then pc.hash else pc.reply.answer.requestId
  }

  /** The worker is past the check of foundImage and has not reported. */
  ghost predicate PastCheck(sys: Sys, pc: Pc) {
    || (pc.Alerting? && pc.ticket in sys.handlers && sys.handlers[pc.ticket].Save?)
    || (pc.AlertTold? && pc.reply.Created?)
    || pc.Polling? || pc.Asking? || pc.AskTold? || pc.Scanning?
  }

  ghost predicate PcGood(h: Spec -> Hash, sys: Sys, c: Id, pc: Pc) {
    && CallGood(h, sys, c, pc)
    && (Started(pc) ==> StartHash(pc) == h(pc.spec) && Held(h, sys.tables, c, pc.spec))
  }

  /** No two workers of a controller are past the check with one spec. */
  ghost predicate NoRivals(cl: Cluster) {
    forall v, w | v in cl.workers && w in cl.workers && v != w && cl.workers[v].controller == cl.workers[w].controller
        && PastCheck(cl.sys, cl.workers[v].pc) && PastCheck(cl.sys, cl.workers[w].pc) ::
      cl.workers[v].pc.spec != cl.workers[w].pc.spec
  }

  /** No two workers wait for one request. */
  ghost predicate TicketsOwn(cl: Cluster) {
    forall v, w, k | v in cl.workers && w in cl.workers && v != w && cl.workers[v].pc.Waits(k) :: !cl.workers[w].pc.Waits(k)
  }

  /** A done or abort on its way comes from the holder. */
  ghost predicate EndGood(h: Spec -> Hash, t: Tables, r: Request) {
    Ending(r) ==>
      && r.hash in t.assignedImages && t.assignedImages[r.hash].controllerId == r.id
      && (r.Finish? ==> t.assignedImages[r.hash].imageSpec == r.spec)
  }

  /** While a done or abort of controller `c` for `hash` is on its way, none of its
      workers is past the check with that spec. */
  ghost predicate Quiet(h: Spec -> Hash, cl: Cluster, c: Id, hash: Hash) {
    forall w | w in cl.workers && cl.workers[w].controller == c && PastCheck(cl.sys, cl.workers[w].pc) ::
      h(cl.workers[w].pc.spec) != hash
  }

  ghost predicate EndsGood(h: Spec -> Hash, cl: Cluster) {
    && (forall k | k in cl.sys.handlers && Ending(cl.sys.handlers[k]) ::
          && EndGood(h, cl.sys.tables, cl.sys.handlers[k])
          && Quiet(h, cl, cl.sys.handlers[k].id, cl.sys.handlers[k].hash))
    && (forall j, k | j in cl.sys.handlers && k in cl.sys.handlers && j != k
            && Ending(cl.sys.handlers[j]) && Ending(cl.sys.handlers[k]) ::
          cl.sys.handlers[j].hash != cl.sys.handlers[k].hash)
  }

  ghost predicate CallsGood(h: Spec -> Hash, cl: Cluster) {
    forall w | w in cl.workers :: CallGood(h, cl.sys, cl.workers[w].controller, cl.workers[w].pc)
  }

  ghost predicate WorkersGood(h: Spec -> Hash, cl: Cluster) {
    forall w | w in cl.workers :: PcGood(h, cl.sys, cl.workers[w].controller, cl.workers[w].pc)
  }

  ghost predicate ClusterInv(h: Spec -> Hash, cl: Cluster) {
    && Inv(h, cl.sys)
    && Agrees(h, cl.sys.tables)
    && NoRivals(cl)
    && TicketsOwn(cl)
    && WorkersGood(h, cl)
    && EndsGood(h, cl)
  }

  // ---- one section of the arbiter ----

  lemma HeldAfter(h: Spec -> Hash, t: Tables, r: Request, c: Id, spec: Spec)
    requires Injective(h) && Backed(h, t) && r.Servable(t) && Held(h, t, c, spec)
    requires r.Finish? ==> r.hash != h(spec)
    ensures Held(h, Handle(h, t, r).0, c, spec)
  {
    match r
    case Find(id, s) => assert h(s) == h(spec) ==> s == spec;
    case _ =>
  }

  lemma EndGoodAfter(h: Spec -> Hash, t: Tables, r: Request, e: Request)
    requires Injective(h) && Backed(h, t) && r.Servable(t) && Ending(e) && EndGood(h, t, e)
    requires r.Finish? ==> r.hash != e.hash
    ensures EndGood(h, Handle(h, t, r).0, e)
  {
    var lease := t.assignedImages[e.hash];
    assert LeaseBacked(h, t, e.hash, lease);
    HeldAfter(h, t, r, e.id, lease.imageSpec);
  }

  /** The reply to a worker's own request leaves it in good standing. */
  lemma ReplyGood(h: Spec -> Hash, t: Tables, r: Request, c: Id, pc: Pc)
    requires Injective(h) && Backed(h, t) && RequestGood(h, t, r) && Handle(h, t, r).1.Done?
    requires pc.Alerting? || pc.Asking? || pc.Reporting?
    requires OwnRequest(h, c, pc, r)
    ensures var told := ToldBy(pc, Handle(h, t, r).1.reply);
            Started(told) ==> StartHash(told) == h(told.spec) && Held(h, Handle(h, t, r).0, c, told.spec)
  {
  }

  /** A report that passes foundImage's check is not from the holder. */
  lemma CheckMeansQuiet(h: Spec -> Hash, t: Tables, r: Request, e: Request)
    requires Injective(h) && Backed(h, t) && r.Found? && Handle(h, t, r).1.Continue?
    requires Ending(e) && EndGood(h, t, e) && e.id == r.id
    ensures e.hash != h(r.spec)
  {
    assert LeaseBacked(h, t, e.hash, t.assignedImages[e.hash]);
  }

  lemma ServerAgrees(h: Spec -> Hash, cl: Cluster, k: nat)
    requires Injective(h) && ClusterInv(h, cl) && CanMove(cl, Server(k))
    ensures Inv(h, Moved(h, cl, Server(k)).sys) && Agrees(h, Moved(h, cl, Server(k)).sys.tables)
  {
    var r := cl.sys.handlers[k];
    assert RequestGood(h, cl.sys.tables, r);
    assert Ending(r) ==> EndGood(h, cl.sys.tables, r);
    StepKeepsInv(h, cl.sys, Run(k));
    HandleKeepsAgreement(h, cl.sys.tables, r);
  }

  lemma ServerKeepsStart(h: Spec -> Hash, cl: Cluster, k: nat, v: nat)
    requires Injective(h) && ClusterInv(h, cl) && CanMove(cl, Server(k)) && v in cl.workers && Started(cl.workers[v].pc)
    ensures PcAfter(h, cl, Server(k), v) == cl.workers[v].pc
    ensures StartHash(cl.workers[v].pc) == h(cl.workers[v].pc.spec)
    ensures Held(h, Handle(h, cl.sys.tables, cl.sys.handlers[k]).0, cl.workers[v].controller, cl.workers[v].pc.spec)
  {
    var t, r := cl.sys.tables, cl.sys.handlers[k];
    var c, pc := cl.workers[v].controller, cl.workers[v].pc;
    assert PcGood(h, cl.sys, c, pc);
    assert Ending(r) ==> EndGood(h, t, r) && Quiet(h, cl, r.id, r.hash);
    assert r.Finish? ==> r.hash != h(pc.spec);
    assert Backed(h, t) && r.Servable(t);
    hide Handle, ClusterInv, LeaseProtocol.Inv;
    HeldAfter(h, t, r, c, pc.spec);
  }

  /** A worker's own request stays its own, section by section. */
  lemma ServerKeepsCall(h: Spec -> Hash, cl: Cluster, k: nat, v: nat)
    requires CanMove(cl, Server(k)) && v in cl.workers && CallGood(h, cl.sys, cl.workers[v].controller, cl.workers[v].pc)
    ensures CallGood(h, Moved(h, cl, Server(k)).sys, cl.workers[v].controller, PcAfter(h, cl, Server(k), v))
  {
  }

  lemma ServerKeepsWorker(h: Spec -> Hash, cl: Cluster, k: nat, v: nat)
    requires Injective(h) && ClusterInv(h, cl) && CanMove(cl, Server(k)) && v in cl.workers
    ensures PcGood(h, Moved(h, cl, Server(k)).sys, cl.workers[v].controller, PcAfter(h, cl, Server(k), v))
  {
    var t, r := cl.sys.tables, cl.sys.handlers[k];
    var c, pc := cl.workers[v].controller, cl.workers[v].pc;
    assert RequestGood(h, t, r);
    assert PcGood(h, cl.sys, c, pc);
    ServerKeepsCall(h, cl, k, v);
    if Started(pc) {
      ServerKeepsStart(h, cl, k, v);
    }
    if pc.Waits(k) && Handle(h, t, r).1.Done? {
      ReplyGood(h, t, r, c, pc);
    }
    hide OwnRequest, LeaseProtocol.Inv, EndsGood, NoRivals, Agrees;
  }

  /** A section brings a worker past the check only by letting its report through. */
  lemma ServerPastCheck(h: Spec -> Hash, cl: Cluster, k: nat, w: nat)
    requires CanMove(cl, Server(k)) && w in cl.workers
    requires CallGood(h, cl.sys, cl.workers[w].controller, cl.workers[w].pc)
    requires PastCheck(Moved(h, cl, Server(k)).sys, PcAfter(h, cl, Server(k), w))
    ensures PcAfter(h, cl, Server(k), w).spec == cl.workers[w].pc.spec
    ensures var r, pc := cl.sys.handlers[k], cl.workers[w].pc;
            || PastCheck(cl.sys, pc)
            || (pc.Waits(k) && LetsThrough(cl.sys.tables, r) && Handle(h, cl.sys.tables, r).1.Continue?
                && r.id == cl.workers[w].controller && r.spec == pc.spec)
  {
  }

  lemma ServerKeepsQuiet(h: Spec -> Hash, cl: Cluster, k: nat, e: Request)
    requires Injective(h) && ClusterInv(h, cl) && CanMove(cl, Server(k))
    requires Ending(e) && EndGood(h, cl.sys.tables, e) && Quiet(h, cl, e.id, e.hash)
    ensures Quiet(h, Moved(h, cl, Server(k)), e.id, e.hash)
  {
    var r, cl' := cl.sys.handlers[k], Moved(h, cl, Server(k));
    forall w | w in cl'.workers && cl'.workers[w].controller == e.id && PastCheck(cl'.sys, cl'.workers[w].pc)
      ensures h(cl'.workers[w].pc.spec) != e.hash
    {
      assert PcGood(h, cl.sys, e.id, cl.workers[w].pc);
      ServerPastCheck(h, cl, k, w);
      if !PastCheck(cl.sys, cl.workers[w].pc) {
        CheckMeansQuiet(h, cl.sys.tables, r, e);
      }
    }
  }

  /** The requests in flight after a section: as before, but for the one served. */
  lemma ServerHandlers(h: Spec -> Hash, cl: Cluster, k: nat, j: nat)
    requires Injective(h) && ClusterInv(h, cl) && CanMove(cl, Server(k))
    requires j in Moved(h, cl, Server(k)).sys.handlers
    ensures j in cl.sys.handlers
    ensures j != k ==> Moved(h, cl, Server(k)).sys.handlers[j] == cl.sys.handlers[j]
    ensures var e, e' := cl.sys.handlers[j], Moved(h, cl, Server(k)).sys.handlers[j];
            && (Ending(e') <==> Ending(e))
            && (Ending(e) ==> e'.id == e.id && e'.hash == e.hash)
    ensures j == k ==>
              && !cl.sys.handlers[k].Finish?
              && Moved(h, cl, Server(k)).sys.handlers[k] == Handle(h, cl.sys.tables, cl.sys.handlers[k]).1.next
  {
  }

  lemma ServerKeepsEnd(h: Spec -> Hash, cl: Cluster, k: nat, j: nat)
    requires Injective(h) && ClusterInv(h, cl) && CanMove(cl, Server(k))
    requires j in Moved(h, cl, Server(k)).sys.handlers && Ending(Moved(h, cl, Server(k)).sys.handlers[j])
    ensures var cl' := Moved(h, cl, Server(k));
            EndGood(h, cl'.sys.tables, cl'.sys.handlers[j]) && Quiet(h, cl', cl'.sys.handlers[j].id, cl'.sys.handlers[j].hash)
  {
    var t, r, e := cl.sys.tables, cl.sys.handlers[k], cl.sys.handlers[j];
    ServerHandlers(h, cl, k, j);
    assert EndGood(h, t, e) && Quiet(h, cl, e.id, e.hash);
    ServerKeepsQuiet(h, cl, k, e);
    EndGoodAfter(h, t, r, e);
  }

  lemma ServerKeepsEnds(h: Spec -> Hash, cl: Cluster, k: nat)
    requires Injective(h) && ClusterInv(h, cl) && CanMove(cl, Server(k))
    ensures EndsGood(h, Moved(h, cl, Server(k)))
  {
    var cl' := Moved(h, cl, Server(k));
    forall j | j in cl'.sys.handlers && Ending(cl'.sys.handlers[j])
      ensures EndGood(h, cl'.sys.tables, cl'.sys.handlers[j]) && Quiet(h, cl', cl'.sys.handlers[j].id, cl'.sys.handlers[j].hash)
    {
      ServerKeepsEnd(h, cl, k, j);
    }
    forall i, j | i in cl'.sys.handlers && j in cl'.sys.handlers && i != j && Ending(cl'.sys.handlers[i]) && Ending(cl'.sys.handlers[j])
      ensures cl'.sys.handlers[i].hash != cl'.sys.handlers[j].hash
    {
      ServerHandlers(h, cl, k, i);
      ServerHandlers(h, cl, k, j);
    }
  }

  // ---- every other move ----

  lemma StepKeepsLeases(h: Spec -> Hash, sys: Sys, step: Step)
    requires Enabled(sys, step) && !step.Run?
    ensures Next(h, sys, step).tables.assignedImages == sys.tables.assignedImages
    ensures Next(h, sys, step).handlers == if step.Arrive? then sys.handlers[step.ticket := step.request] else sys.handlers
  {
  }

  lemma OtherKeepsLeases(h: Spec -> Hash, cl: Cluster, m: Move)
    requires CanMove(cl, m) && !m.Server?
    ensures var t, t' := cl.sys.tables, Moved(h, cl, m).sys.tables;
            t'.assignedImages == t.assignedImages
    ensures var r, r' := cl.sys.handlers, Moved(h, cl, m).sys.handlers;
            forall k | k in r :: k in r' && r'[k] == r[k]
    ensures var r, r' := cl.sys.handlers, Moved(h, cl, m).sys.handlers;
            forall k | k in r' && k !in r :: (m.Alert? || m.Ask? || m.Report?) && k == m.k && r'[k] == ArbiterStep(cl, m).request
  {
    ArbiterStepEnabled(cl, m);
    StepKeepsLeases(h, cl.sys, ArbiterStep(cl, m));
    hide Next, PcAfter;
  }

  lemma OtherKeepsWorker(h: Spec -> Hash, cl: Cluster, m: Move, v: nat)
    requires CanMove(cl, m) && !m.Server? && v in cl.workers && PcGood(h, cl.sys, cl.workers[v].controller, cl.workers[v].pc)
    ensures PcGood(h, Moved(h, cl, m).sys, cl.workers[v].controller, PcAfter(h, cl, m, v))
    ensures PastCheck(Moved(h, cl, m).sys, PcAfter(h, cl, m, v)) ==>
              PastCheck(cl.sys, cl.workers[v].pc) && PcAfter(h, cl, m, v).spec == cl.workers[v].pc.spec
  {
    OtherKeepsLeases(h, cl, m);
  }

  lemma MoveKeepsTickets(h: Spec -> Hash, cl: Cluster, m: Move)
    requires CanMove(cl, m) && TicketsOwn(cl) && CallsGood(h, cl)
    ensures TicketsOwn(Moved(h, cl, m))
  {
    var cl' := Moved(h, cl, m);
    forall v, k | v in cl.workers && cl'.workers[v].pc.Waits(k)
      ensures cl.workers[v].pc.Waits(k) || ((m.Alert? || m.Ask? || m.Report?) && m.w == v && m.k == k)
    {
      hide Handle;
    }
    hide Moved, PcAfter;
  }

  /** A worker is past the check because it was before, or was let through now. */
  ghost predicate LetIn(cl: Cluster, m: Move, v: nat)
    requires v in cl.workers
  {
    || PastCheck(cl.sys, cl.workers[v].pc)
    || (&& m.Server? && m.k in cl.sys.handlers && cl.workers[v].pc.Waits(m.k)
        && LetsThrough(cl.sys.tables, cl.sys.handlers[m.k])
        && cl.sys.handlers[m.k].id == cl.workers[v].controller && cl.sys.handlers[m.k].spec == cl.workers[v].pc.spec)
  }

  lemma PastCheckWasLetIn(h: Spec -> Hash, cl: Cluster, m: Move, v: nat)
    requires CanMove(cl, m) && v in cl.workers && PcGood(h, cl.sys, cl.workers[v].controller, cl.workers[v].pc)
    requires PastCheck(Moved(h, cl, m).sys, PcAfter(h, cl, m, v))
    ensures LetIn(cl, m, v) && !cl.workers[v].pc.Idle? && PcAfter(h, cl, m, v).spec == cl.workers[v].pc.spec
  {
    if m.Server? {
      ServerPastCheck(h, cl, m.k, v);
    } else {
      OtherKeepsWorker(h, cl, m, v);
    }
    hide Moved, PcAfter;
  }

  /** Without a rival let in, two that are past the check with one spec are one. */
  lemma LetInAlone(cl: Cluster, m: Move, v: nat, w: nat)
    requires NoRival(cl, m) && NoRivals(cl) && TicketsOwn(cl)
    requires v in cl.workers && w in cl.workers && v != w && LetIn(cl, m, v) && LetIn(cl, m, w)
    requires cl.workers[v].controller == cl.workers[w].controller && !cl.workers[v].pc.Idle? && !cl.workers[w].pc.Idle?
    ensures cl.workers[v].pc.spec != cl.workers[w].pc.spec
  {
    hide PastCheck;
  }

  lemma MoveKeepsNoRivals(h: Spec -> Hash, cl: Cluster, m: Move)
    requires CanMove(cl, m) && NoRival(cl, m) && NoRivals(cl) && TicketsOwn(cl) && WorkersGood(h, cl)
    ensures NoRivals(Moved(h, cl, m))
  {
    var cl' := Moved(h, cl, m);
    forall v, w | v in cl'.workers && w in cl'.workers && v != w && cl'.workers[v].controller == cl'.workers[w].controller
        && PastCheck(cl'.sys, cl'.workers[v].pc) && PastCheck(cl'.sys, cl'.workers[w].pc)
      ensures cl'.workers[v].pc.spec != cl'.workers[w].pc.spec
    {
      assert PcGood(h, cl.sys, cl.workers[v].controller, cl.workers[v].pc);
      assert PcGood(h, cl.sys, cl.workers[w].controller, cl.workers[w].pc);
      hide NoRival, NoRivals, TicketsOwn, WorkersGood, PastCheck, PcAfter, Next, ArbiterStep, CanMove, LetIn;
      PastCheckWasLetIn(h, cl, m, v);
      PastCheckWasLetIn(h, cl, m, w);
      LetInAlone(cl, m, v, w);
    }
  }

  /** A scanning worker's report is the only one for its hash, and no sibling is
      past the check. */
  lemma ReportIsQuiet(h: Spec -> Hash, cl: Cluster, m: Move)
    requires Injective(h) && ClusterInv(h, cl) && CanMove(cl, m) && m.Report?
    ensures EndGood(h, cl.sys.tables, ArbiterStep(cl, m).request)
    ensures Quiet(h, Moved(h, cl, m), cl.workers[m.w].controller, cl.workers[m.w].pc.hash)
    ensures forall k | k in cl.sys.handlers && Ending(cl.sys.handlers[k]) :: cl.sys.handlers[k].hash != cl.workers[m.w].pc.hash
  {
    var c, pc, cl' := cl.workers[m.w].controller, cl.workers[m.w].pc, Moved(h, cl, m);
    assert PcGood(h, cl.sys, c, pc);
    forall k | k in cl.sys.handlers && Ending(cl.sys.handlers[k]) ensures cl.sys.handlers[k].hash != pc.hash {
      var e := cl.sys.handlers[k];
      assert EndGood(h, cl.sys.tables, e) && Quiet(h, cl, e.id, e.hash);
    }
    forall v | v in cl'.workers && cl'.workers[v].controller == c && PastCheck(cl'.sys, cl'.workers[v].pc)
      ensures h(cl'.workers[v].pc.spec) != pc.hash
    {
      OtherKeepsWorker(h, cl, m, v);
      assert v != m.w && cl.workers[v].pc.spec != pc.spec;
    }
  }

  lemma OtherKeepsQuiet(h: Spec -> Hash, cl: Cluster, m: Move, c: Id, hash: Hash)
    requires CanMove(cl, m) && !m.Server? && WorkersGood(h, cl) && Quiet(h, cl, c, hash)
    ensures Quiet(h, Moved(h, cl, m), c, hash)
  {
    var cl' := Moved(h, cl, m);
    forall v | v in cl'.workers && cl'.workers[v].controller == c && PastCheck(cl'.sys, cl'.workers[v].pc)
      ensures h(cl'.workers[v].pc.spec) != hash
    {
      OtherKeepsWorker(h, cl, m, v);
    }
  }

  lemma OtherKeepsEnds(h: Spec -> Hash, cl: Cluster, m: Move)
    requires Injective(h) && ClusterInv(h, cl) && CanMove(cl, m) && !m.Server?
    ensures EndsGood(h, Moved(h, cl, m))
  {
    var cl' := Moved(h, cl, m);
    OtherKeepsLeases(h, cl, m);
    if m.Report? {
      ReportIsQuiet(h, cl, m);
    }
    forall j | j in cl'.sys.handlers && Ending(cl'.sys.handlers[j])
      ensures EndGood(h, cl'.sys.tables, cl'.sys.handlers[j]) && Quiet(h, cl', cl'.sys.handlers[j].id, cl'.sys.handlers[j].hash)
    {
      if j in cl.sys.handlers {
        var e := cl.sys.handlers[j];
        assert EndGood(h, cl.sys.tables, e) && Quiet(h, cl, e.id, e.hash);
        OtherKeepsQuiet(h, cl, m, e.id, e.hash);
      }
    }
  }

  lemma MoveKeepsInv(h: Spec -> Hash, cl: Cluster, m: Move)
    requires Injective(h) && ClusterInv(h, cl) && CanMove(cl, m) && NoRival(cl, m)
    ensures ClusterInv(h, Moved(h, cl, m))
  {
    var cl' := Moved(h, cl, m);
    forall v | v in cl.workers ensures CallGood(h, cl.sys, cl.workers[v].controller, cl.workers[v].pc) {
      assert PcGood(h, cl.sys, cl.workers[v].controller, cl.workers[v].pc);
    }
    MoveKeepsTickets(h, cl, m);
    MoveKeepsNoRivals(h, cl, m);
    if m.Server? {
      ServerAgrees(h, cl, m.k);
      forall v | v in cl'.workers ensures PcGood(h, cl'.sys, cl'.workers[v].controller, cl'.workers[v].pc) {
        ServerKeepsWorker(h, cl, m.k, v);
      }
      ServerKeepsEnds(h, cl, m.k);
    } else {
      ArbiterStepEnabled(cl, m);
      StepKeepsInv(h, cl.sys, ArbiterStep(cl, m));
      BackgroundKeepsAgreement(h, cl.sys, ArbiterStep(cl, m));
      forall v | v in cl'.workers ensures PcGood(h, cl'.sys, cl'.workers[v].controller, cl'.workers[v].pc) {
        OtherKeepsWorker(h, cl, m, v);
      }
      OtherKeepsEnds(h, cl, m);
    }
  }

  lemma {:induction false} ClusterRunKeepsInv(h: Spec -> Hash, states: seq<Cluster>, moves: seq<Move>, n: nat)
    requires Injective(h) && IsClusterRun(h, states, moves) && n < |states|
    ensures ClusterInv(h, states[n])
  {
    if n > 0 {
      hide ClusterInv, Moved, CanMove;
      ClusterRunKeepsInv(h, states, moves, n - 1);
      assert CanMove(states[n - 1], moves[n - 1]) && states[n] == Moved(h, states[n - 1], moves[n - 1]);
      MoveKeepsInv(h, states[n - 1], moves[n - 1]);
    }
  }

  // ---- what follows ----

  /** At every moment of every run: a granted start is the recorded lease, no two
      workers anywhere have one for the same spec, a done or abort still on its
      way comes from the recorded holder and excludes any start of that hash, and
      there is at most one such for a hash. */
  lemma MutualExclusion(h: Spec -> Hash, states: seq<Cluster>, moves: seq<Move>, n: nat)
    requires Injective(h) && IsClusterRun(h, states, moves) && n < |states|
    ensures var cl := states[n];
            && (forall w | w in cl.workers && Started(cl.workers[w].pc) ::
                  StartHash(cl.workers[w].pc) == h(cl.workers[w].pc.spec)
                  && Held(h, cl.sys.tables, cl.workers[w].controller, cl.workers[w].pc.spec))
            && (forall v, w | v in cl.workers && w in cl.workers && Started(cl.workers[v].pc) && Started(cl.workers[w].pc)
                    && cl.workers[v].pc.spec == cl.workers[w].pc.spec :: v == w)
            && (forall k | k in cl.sys.handlers && Ending(cl.sys.handlers[k]) ::
                  && EndGood(h, cl.sys.tables, cl.sys.handlers[k])
                  && forall w | w in cl.workers && Started(cl.workers[w].pc) :: StartHash(cl.workers[w].pc) != cl.sys.handlers[k].hash)
            && (forall j, k | j in cl.sys.handlers && k in cl.sys.handlers && j != k
                    && Ending(cl.sys.handlers[j]) && Ending(cl.sys.handlers[k]) ::
                  cl.sys.handlers[j].hash != cl.sys.handlers[k].hash)
  {
    var cl := states[n];
    ClusterRunKeepsInv(h, states, moves, n);
    forall w | w in cl.workers ensures PcGood(h, cl.sys, cl.workers[w].controller, cl.workers[w].pc) {
    }
    forall k, w | k in cl.sys.handlers && Ending(cl.sys.handlers[k]) && w in cl.workers && Started(cl.workers[w].pc)
      ensures StartHash(cl.workers[w].pc) != cl.sys.handlers[k].hash
    {
      var e := cl.sys.handlers[k];
      assert EndGood(h, cl.sys.tables, e) && Quiet(h, cl, e.id, e.hash);
      assert PastCheck(cl.sys, cl.workers[w].pc);
    }
  }

  /** Nobody but the holder ever ends a lease: the check that the arbiter omits is
      made good by the workers' own behaviour. */
  lemma ClusterIsDisciplined(h: Spec -> Hash, states: seq<Cluster>, moves: seq<Move>, n: nat)
    requires Injective(h) && IsClusterRun(h, states, moves) && n < |moves|
    ensures CanMove(states[n], moves[n]) && Disciplined(states[n].sys, ArbiterStep(states[n], moves[n]))
  {
    ClusterRunKeepsInv(h, states, moves, n);
    assert CanMove(states[n], moves[n]);
    if moves[n].Server? {
      var r := states[n].sys.handlers[moves[n].k];
      assert Ending(r) ==> EndGood(h, states[n].sys.tables, r);
    }
  }

  /** So the tables stay in step and no worker leaks: a controller's list is the
      set of specs leased to it, and its free counter its capacity less its leases. */
  lemma ClusterAccountsForWorkers(h: Spec -> Hash, states: seq<Cluster>, moves: seq<Move>, n: nat, c: Id)
    requires Injective(h) && IsClusterRun(h, states, moves) && n < |states| && c in states[n].sys.tables.daemons
    ensures c in states[n].sys.capacity
    ensures var t := states[n].sys.tables;
            && t.daemons[c].assignedScans == (set x | x in LeasesOf(t, {c}) :: t.assignedImages[x].imageSpec)
            && t.daemons[c].workerCount == states[n].sys.capacity[c] - |LeasesOf(t, {c})|
  {
    ClusterRunKeepsInv(h, states, moves, n);
    AgreementAccountsForWorkers(h, states[n].sys, c);
  }

  /** All workers with a granted start. */
  ghost function AllStarted(cl: Cluster): set<nat> {
    set w | w in cl.workers && Started(cl.workers[w].pc)
  }

  lemma StartIsHeld(h: Spec -> Hash, cl: Cluster, w: nat)
    requires ClusterInv(h, cl) && w in AllStarted(cl)
    ensures w in cl.workers && Started(cl.workers[w].pc)
    ensures StartHash(cl.workers[w].pc) == h(cl.workers[w].pc.spec)
    ensures Held(h, cl.sys.tables, cl.workers[w].controller, cl.workers[w].pc.spec)
  {
    assert PcGood(h, cl.sys, cl.workers[w].controller, cl.workers[w].pc);
  }

  lemma StartsDiffer(h: Spec -> Hash, cl: Cluster, v: nat, w: nat)
    requires Injective(h) && ClusterInv(h, cl) && v in AllStarted(cl) && w in AllStarted(cl)
    requires StartHash(cl.workers[v].pc) == StartHash(cl.workers[w].pc)
    ensures v == w
  {
    StartIsHeld(h, cl, v);
    StartIsHeld(h, cl, w);
    assert cl.workers[v].pc.spec == cl.workers[w].pc.spec;
  }

  lemma StartsFitLeases(h: Spec -> Hash, cl: Cluster)
    requires Injective(h) && ClusterInv(h, cl)
    ensures |AllStarted(cl)| <= |cl.sys.tables.assignedImages|
  {
    var hashes := map w | w in AllStarted(cl) :: StartHash(cl.workers[w].pc);
    forall w | w in hashes ensures hashes[w] in cl.sys.tables.assignedImages {
      StartIsHeld(h, cl, w);
    }
    forall v, w | v in hashes && w in hashes && hashes[v] == hashes[w] ensures v == w {
      StartsDiffer(h, cl, v, w);
    }
    hide ClusterInv, StartHash;
    InjectiveFits(hashes, cl.sys.tables.assignedImages.Keys);
    assert hashes.Keys == AllStarted(cl);
  }

  /** With at most `k` polls past the gate at a time, no more than `6 + k` scans run
      in the whole cluster. */
  lemma ScansWithinHubLimit(h: Spec -> Hash, states: seq<Cluster>, moves: seq<Move>, n: nat, k: nat)
    requires Injective(h) && IsClusterRun(h, states, moves) && n < |states|
    requires forall i {:trigger states[i]} | 0 <= i <= n :: |Admission.PastGate(states[i].sys)| <= k
    ensures |AllStarted(states[n])| <= 6 + k
  {
    ClusterRunKeepsInv(h, states, moves, n);
    StartsFitLeases(h, states[n]);
    ClusterRunsProtocol(h, states, moves);
    var sys := SysPart(states);
    forall i {:trigger sys[i]} | 0 <= i <= n ensures |Admission.PastGate(sys[i])| <= k {
      assert sys[i] == states[i].sys;
    }
    Admission.AdmissionBound(h, sys, StepPart(states, moves), n, k);
  }

  /** The workers of controller `c` with a granted start. */
  ghost function StartedOf(cl: Cluster, c: Id): set<nat> {
    set w | w in cl.workers && cl.workers[w].controller == c && Started(cl.workers[w].pc)
  }

  /** A controller never scans more at once than the workers it registered less
      those the arbiter thinks free. */
  lemma StartsFitWorkers(h: Spec -> Hash, states: seq<Cluster>, moves: seq<Move>, n: nat, c: Id)
    requires Injective(h) && IsClusterRun(h, states, moves) && n < |states| && c in states[n].sys.tables.daemons
    ensures c in states[n].sys.capacity
    ensures |StartedOf(states[n], c)| + states[n].sys.tables.daemons[c].workerCount <= states[n].sys.capacity[c]
  {
    var cl := states[n];
    var d := cl.sys.tables.daemons[c];
    ClusterRunKeepsInv(h, states, moves, n);
    assert Conserved(d, cl.sys.capacity[c]);
    var started := StartedOf(cl, c);
    var specs := map w | w in started :: cl.workers[w].pc.spec;
    forall w | w in started ensures specs[w] in d.assignedScans {
      assert PcGood(h, cl.sys, c, cl.workers[w].pc);
      assert LeaseBacked(h, cl.sys.tables, h(specs[w]), Lease(c, specs[w]));
    }
    InjectiveFits(specs, d.assignedScans);
    assert specs.Keys == started;
  }

  // ---- scanned only once, seen from the workers ----

  /** A worker gets a start only from findWorker. */
  lemma StartComesFromFind(h: Spec -> Hash, cl: Cluster, m: Move, w: nat)
    requires CanMove(cl, m) && w in cl.workers && CallGood(h, cl.sys, cl.workers[w].controller, cl.workers[w].pc)
    requires Started(PcAfter(h, cl, m, w))
    requires !(Started(cl.workers[w].pc) && cl.workers[w].pc.spec == PcAfter(h, cl, m, w).spec)
    ensures var c, spec := cl.workers[w].controller, PcAfter(h, cl, m, w).spec;
            LeaseRuns.Starts(cl.sys, ArbiterStep(cl, m), c, spec, StartHash(PcAfter(h, cl, m, w)))
    ensures m.Server? && cl.workers[w].pc == Asking(PcAfter(h, cl, m, w).spec, m.k)
  {
  }

  ghost predicate IsStarted(cl: Cluster, w: nat, spec: Spec) {
    w in cl.workers && Started(cl.workers[w].pc) && cl.workers[w].pc.spec == spec
  }

  ghost predicate HasStart(cl: Cluster, w: nat, c: Id, spec: Spec) {
    IsStarted(cl, w, spec) && cl.workers[w].controller == c
  }

  lemma StartAtMove(h: Spec -> Hash, states: seq<Cluster>, moves: seq<Move>, n: nat, w: nat, spec: Spec)
    returns (c: Id, hash: Hash)
    requires Injective(h) && IsClusterRun(h, states, moves) && n < |moves|
    requires !IsStarted(states[n], w, spec) && IsStarted(states[n + 1], w, spec)
    ensures CanMove(states[n], moves[n])
    ensures LeaseRuns.Starts(states[n].sys, ArbiterStep(states[n], moves[n]), c, spec, hash)
  {
    var last := states[n];
    assert CanMove(last, moves[n]) && states[n + 1] == Moved(h, last, moves[n]);
    assert states[n + 1].workers[w] == Worker(last.workers[w].controller, PcAfter(h, last, moves[n], w));
    ClusterRunKeepsInv(h, states, moves, n);
    assert PcGood(h, last.sys, last.workers[w].controller, last.workers[w].pc);
    hide IsClusterRun, ClusterInv, Moved, CanMove, PcAfter, ArbiterStep;
    StartComesFromFind(h, last, moves[n], w);
    c, hash := last.workers[w].controller, StartHash(states[n + 1].workers[w].pc);
  }

  /** If a worker has a start for a spec now and had none then, findWorker gave one
      in between. */
  lemma {:induction false} StartInBetween(h: Spec -> Hash, states: seq<Cluster>, moves: seq<Move>, i: nat, n: nat, w: nat, spec: Spec)
    returns (j: nat, c: Id, hash: Hash)
    requires Injective(h) && IsClusterRun(h, states, moves) && i < n < |states|
    requires !IsStarted(states[i], w, spec) && IsStarted(states[n], w, spec)
    ensures i <= j < n && CanMove(states[j], moves[j])
    ensures LeaseRuns.Starts(states[j].sys, ArbiterStep(states[j], moves[j]), c, spec, hash)
  {
    assert |states| == |moves| + 1;
    hide *;
    if IsStarted(states[n - 1], w, spec) {
      j, c, hash := StartInBetween(h, states, moves, i, n - 1, w, spec);
    } else {
      j := n - 1;
      c, hash := StartAtMove(h, states, moves, j, w, spec);
    }
  }

  lemma UnleasedIsUnstarted(h: Spec -> Hash, cl: Cluster, w: nat, spec: Spec)
    requires WorkersGood(h, cl) && h(spec) !in cl.sys.tables.assignedImages
    ensures !IsStarted(cl, w, spec)
  {
    assert w in cl.workers ==> PcGood(h, cl.sys, cl.workers[w].controller, cl.workers[w].pc);
  }

  lemma UnstartedAfterCompletion(h: Spec -> Hash, states: seq<Cluster>, moves: seq<Move>, i: nat, w: nat, spec: Spec)
    requires Injective(h) && IsClusterRun(h, states, moves) && i < |moves|
    requires CanMove(states[i], moves[i]) && LeaseRuns.Completes(states[i].sys, ArbiterStep(states[i], moves[i]), spec)
    ensures !IsStarted(states[i + 1], w, spec)
  {
    ClusterRunKeepsInv(h, states, moves, i);
    ClusterRunKeepsInv(h, states, moves, i + 1);
    assert states[i + 1] == Moved(h, states[i], moves[i]);
    LeaseRuns.CompletionUnleases(h, states[i].sys, ArbiterStep(states[i], moves[i]), spec);
    UnleasedIsUnstarted(h, states[i + 1], w, spec);
  }

  /** Between a completion and a later start, as the arbiter sees it. */
  lemma ArbiterSawReport(h: Spec -> Hash, states: seq<Cluster>, moves: seq<Move>, i: nat, j: nat, spec: Spec, c: Id, hash: Hash)
    requires IsClusterRun(h, states, moves) && i < j < |moves|
    requires CanMove(states[i], moves[i]) && LeaseRuns.Completes(states[i].sys, ArbiterStep(states[i], moves[i]), spec)
    requires CanMove(states[j], moves[j]) && LeaseRuns.Starts(states[j].sys, ArbiterStep(states[j], moves[j]), c, spec, hash)
    ensures exists k {:trigger moves[k]} :: i < k < j && CanMove(states[k], moves[k])
              && LeaseRuns.SavesSpec(states[k].sys, ArbiterStep(states[k], moves[k]), spec)
    ensures spec in states[i].sys.tables.images ==>
              exists k {:trigger moves[k]} :: i < k < j && CanMove(states[k], moves[k])
                && LeaseRuns.Resets(ArbiterStep(states[k], moves[k]), spec)
  {
    var sys, steps := SysPart(states), StepPart(states, moves);
    ClusterRunsProtocol(h, states, moves);
    LeaseRuns.ScannedOnce(h, sys, steps, i, j, spec, c, hash);
    hide IsClusterRun, IsRun, ArbiterStep, CanMove, LeaseRuns.SavesSpec, LeaseRuns.Resets;
    var k :| i < k < j && LeaseRuns.SavesSpec(sys[k], steps[k], spec);
    assert steps[k] == ArbiterStep(states[k], moves[k]);
    if spec in states[i].sys.tables.images {
      var k' :| i < k' < j && LeaseRuns.Resets(steps[k'], spec);
      assert steps[k'] == ArbiterStep(states[k'], moves[k']);
    }
  }

  /** If a done of a spec is processed at one moment and any worker of any controller has
      a start for it at a later one, some controller reported it anew in between;
      and if its image was known at the completion, its flag was reset or it was
      removed. */
  lemma CompletedOnlyOnce(h: Spec -> Hash, states: seq<Cluster>, moves: seq<Move>, i: nat, n: nat, w: nat, spec: Spec)
    requires Injective(h) && IsClusterRun(h, states, moves) && i < n < |states|
    requires CanMove(states[i], moves[i]) && LeaseRuns.Completes(states[i].sys, ArbiterStep(states[i], moves[i]), spec)
    requires IsStarted(states[n], w, spec)
    ensures exists k {:trigger moves[k]} :: i < k < n && CanMove(states[k], moves[k])
              && LeaseRuns.SavesSpec(states[k].sys, ArbiterStep(states[k], moves[k]), spec)
    ensures spec in states[i].sys.tables.images ==>
              exists k {:trigger moves[k]} :: i < k < n && CanMove(states[k], moves[k])
                && LeaseRuns.Resets(ArbiterStep(states[k], moves[k]), spec)
  {
    assert |states| == |moves| + 1;
    hide *;
    UnstartedAfterCompletion(h, states, moves, i, w, spec);
    if i + 1 < n {
      var j, c, hash := StartInBetween(h, states, moves, i + 1, n, w, spec);
      ArbiterSawReport(h, states, moves, i, j, spec, c, hash);
    }
  }
}
