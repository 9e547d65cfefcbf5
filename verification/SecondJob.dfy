/** Two jobs of one controller for one spec: a run that has both scanning, exactly
    which moves give the second start, and exactly when letting a second report
    through the check makes that possible. */
module SecondJob {
  import opened LeaseTables
  import opened LeaseProtocol
  import opened LeaseAgreement
  import opened ScanCluster
  import opened ClusterPaths
  import opened LeaseRelease
  import LeaseRuns

  /** A run of the cluster in which jobs begin freely. */
  ghost predicate IsFreeRun(h: Spec -> Hash, states: seq<Cluster>, moves: seq<Move>) {
    && |states| == |moves| + 1
    && Initial(states[0])
    && forall k {:trigger moves[k]} | 0 <= k < |moves| ::
         CanMove(states[k], moves[k]) && states[k + 1] == Moved(h, states[k], moves[k])
  }

  ghost predicate FreelyReached(h: Spec -> Hash, cl: Cluster) {
    exists states, moves :: IsFreeRun(h, states, moves) && states[|moves|] == cl
  }

  lemma FreeNext(h: Spec -> Hash, cl: Cluster, m: Move, cl': Cluster)
    requires FreelyReached(h, cl) && CanMove(cl, m) && Moved(h, cl, m) == cl'
    ensures FreelyReached(h, cl')
  {
    var states, moves :| IsFreeRun(h, states, moves) && states[|moves|] == cl;
    var states', moves' := states + [cl'], moves + [m];
    hide CanMove, Moved;
    forall k {:trigger moves'[k]} | 0 <= k < |moves'|
      ensures CanMove(states'[k], moves'[k]) && states'[k + 1] == Moved(h, states'[k], moves'[k])
    {
      if k < |moves| {
        assert moves'[k] == moves[k];
      }
    }
    assert IsFreeRun(h, states', moves');
  }

  /** The cluster with worker `w` at `pc` and the given tables and requests. */
  ghost function At(cl: Cluster, w: nat, pc: Pc, t: Tables, handlers: map<nat, Request>): Cluster
    requires w in cl.workers
  {
    Cluster(cl.sys.(tables := t, handlers := handlers), cl.workers[w := Worker(cl.workers[w].controller, pc)])
  }

  /** No worker but `w` waits for a reply. */
  ghost predicate Alone(cl: Cluster, w: nat) {
    forall v, k | v in cl.workers && v != w :: !cl.workers[v].pc.Waits(k)
  }

  lemma HearStep(h: Spec -> Hash, cl: Cluster, w: nat)
    requires w in cl.workers && (cl.workers[w].pc.AlertTold? || cl.workers[w].pc.AskTold?)
    ensures CanMove(cl, Hear(w)) && Moved(h, cl, Hear(w)) == At(cl, w, AfterReply(cl.workers[w].pc), cl.sys.tables, cl.sys.handlers)
  {
  }

  lemma AlertStep(h: Spec -> Hash, cl: Cluster, w: nat, c: Id, spec: Spec)
    requires cl.sys.handlers == map[] && w in cl.workers && cl.workers[w] == Worker(c, Ready(spec))
    ensures CanMove(cl, Alert(w, 0, "i"))
    ensures Moved(h, cl, Alert(w, 0, "i")) == At(cl, w, Alerting(spec, 0), cl.sys.tables, map[0 := Found(c, spec, "i")])
  {
  }

  lemma AskStep(h: Spec -> Hash, cl: Cluster, w: nat, c: Id, spec: Spec)
    requires cl.sys.handlers == map[] && w in cl.workers && cl.workers[w] == Worker(c, Polling(spec))
    ensures CanMove(cl, Ask(w, 0))
    ensures Moved(h, cl, Ask(w, 0)) == At(cl, w, Asking(spec, 0), cl.sys.tables, map[0 := Poll(c, spec)])
  {
  }

  lemma SectionStep(h: Spec -> Hash, cl: Cluster, w: nat, r: Request)
    requires Alone(cl, w) && w in cl.workers && cl.workers[w].pc.Waits(0) && cl.sys.handlers == map[0 := r] && r.Servable(cl.sys.tables)
    ensures CanMove(cl, Server(0))
    ensures var (t, out) := Handle(h, cl.sys.tables, r);
            Moved(h, cl, Server(0)) ==
              if out.Done? then At(cl, w, ToldBy(cl.workers[w].pc, out.reply), t, map[])
              else At(cl, w, cl.workers[w].pc, t, map[0 := out.next])
  {
    hide Handle;
    var out := Handle(h, cl.sys.tables, r).1;
    assert cl.sys.handlers - {0} == map[];
    assert out.Continue? ==> cl.sys.handlers[0 := out.next] == map[0 := out.next];
    assert Moved(h, cl, Server(0)).workers == cl.workers[w := Worker(cl.workers[w].controller,
      if out.Done? then ToldBy(cl.workers[w].pc, out.reply) else cl.workers[w].pc)];
  }

  /** A request goes through both its sections, unless its check turns it away. */
  lemma Sections(h: Spec -> Hash, cl: Cluster, w: nat, r: Request, next: Request)
    requires FreelyReached(h, cl) && Alone(cl, w) && w in cl.workers && cl.workers[w].pc.Waits(0)
    requires cl.sys.handlers == map[0 := r] && r.Servable(cl.sys.tables)
    requires Handle(h, cl.sys.tables, r) == (cl.sys.tables, Continue(next)) && next.Servable(cl.sys.tables)
    requires Handle(h, cl.sys.tables, next).1.Done?
    ensures var (t, out) := Handle(h, cl.sys.tables, next);
            FreelyReached(h, At(cl, w, ToldBy(cl.workers[w].pc, out.reply), t, map[]))
  {
    var two := At(cl, w, cl.workers[w].pc, cl.sys.tables, map[0 := next]);
    SectionStep(h, cl, w, r);
    SectionStep(h, two, w, next);
    hide Handle, Moved, CanMove, FreelyReached;
    FreeNext(h, cl, Server(0), two);
    FreeNext(h, two, Server(0), Moved(h, two, Server(0)));
    var told := At(cl, w, ToldBy(cl.workers[w].pc, Handle(h, cl.sys.tables, next).1.reply), Handle(h, cl.sys.tables, next).0, map[]);
    assert Moved(h, two, Server(0)).workers == told.workers;
  }

  lemma ReportServed(h: Spec -> Hash, cl: Cluster, w: nat, c: Id, spec: Spec)
    requires FreelyReached(h, cl) && cl.sys.handlers == map[] && Alone(cl, w) && w in cl.workers && cl.workers[w] == Worker(c, Ready(spec))
    requires c in cl.sys.tables.daemons && c != "" && HasDigest(spec) && !AlreadyIdentified(cl.sys.tables, c, spec)
    ensures FreelyReached(h, At(cl, w, Polling(spec), SaveFoundImage(h, cl.sys.tables, c, spec), map[]))
  {
    var t := cl.sys.tables;
    var t' := SaveFoundImage(h, t, c, spec);
    var asked := At(cl, w, Alerting(spec, 0), t, map[0 := Found(c, spec, "i")]);
    var told := At(cl, w, AlertTold(spec, Created(t'.requestedImages[spec])), t', map[]);
    assert Handle(h, t, Found(c, spec, "i")) == (t, Continue(Save(c, spec)));
    assert Handle(h, t, Save(c, spec)) == (t', Done(Created(t'.requestedImages[spec])));
    AlertStep(h, cl, w, c, spec);
    HearStep(h, told, w);
    hide Handle, Moved, CanMove, FreelyReached, SaveFoundImage, AlreadyIdentified;
    FreeNext(h, cl, Alert(w, 0, "i"), asked);
    Sections(h, asked, w, Found(c, spec, "i"), Save(c, spec));
    assert At(asked, w, AlertTold(spec, Created(t'.requestedImages[spec])), t', map[]) == told;
    FreeNext(h, told, Hear(w), Moved(h, told, Hear(w)));
    assert At(told, w, Polling(spec), t', map[]) == At(cl, w, Polling(spec), t', map[]);
  }

  lemma PollServed(h: Spec -> Hash, cl: Cluster, w: nat, c: Id, spec: Spec)
    requires FreelyReached(h, cl) && cl.sys.handlers == map[] && Alone(cl, w) && w in cl.workers && cl.workers[w] == Worker(c, Polling(spec))
    requires c in cl.sys.tables.daemons && c != "" && spec != "" && CanSendHubJobs(cl.sys.tables)
    requires LeaseRuns.CanStart(cl.sys.tables, c, spec)
    ensures FreelyReached(h, At(cl, w, Scanning(spec, cl.sys.tables.requestedImages[spec]), FindWorker(cl.sys.tables, c, spec).0, map[]))
  {
    var t := cl.sys.tables;
    var (t', answer) := FindWorker(t, c, spec);
    LeaseRuns.StartResult(t, c, spec);
    var asked := At(cl, w, Asking(spec, 0), t, map[0 := Poll(c, spec)]);
    var told := At(cl, w, AskTold(spec, Granted(answer)), t', map[]);
    assert Handle(h, t, Poll(c, spec)) == (t, Continue(Find(c, spec)));
    assert Handle(h, t, Find(c, spec)) == (t', Done(Granted(answer)));
    AskStep(h, cl, w, c, spec);
    HearStep(h, told, w);
    hide Handle, Moved, CanMove, FreelyReached, FindWorker, LeaseRuns.CanStart;
    FreeNext(h, cl, Ask(w, 0), asked);
    Sections(h, asked, w, Poll(c, spec), Find(c, spec));
    assert At(asked, w, AskTold(spec, Granted(answer)), t', map[]) == told;
    FreeNext(h, told, Hear(w), Moved(h, told, Hear(w)));
    assert At(told, w, Scanning(spec, answer.requestId), t', map[]) == At(cl, w, Scanning(spec, answer.requestId), t', map[]);
  }

  // ---- the run ----

  ghost function Pair(v: Pc, w: Pc): map<nat, Worker> {
    map[0 := Worker("a", v), 1 := Worker("a", w)]
  }

  ghost function Scene(t: Tables, v: Pc, w: Pc): Cluster {
    Cluster(Sys(t, map["a" := 2], map[]), Pair(v, w))
  }

  const EMPTY := Tables(map["a" := Daemon(2, map[], {})], map[], map[], map[])

  lemma BeginStep(h: Spec -> Hash, sys: Sys, v: Pc, w: Pc, spec: Spec)
    requires w.Idle?
    ensures CanMove(Cluster(sys, Pair(v, w)), Begin(1, spec))
    ensures Moved(h, Cluster(sys, Pair(v, w)), Begin(1, spec)) == Cluster(sys, Pair(v, Starting(spec)))
    ensures CanMove(Cluster(sys, Pair(w, v)), Begin(0, spec))
    ensures Moved(h, Cluster(sys, Pair(w, v)), Begin(0, spec)) == Cluster(sys, Pair(Starting(spec), v))
  {
  }

  lemma BeatStep(h: Spec -> Hash, spec: Spec)
    ensures var cl := Cluster(Init, Pair(Starting(spec), Starting(spec)));
            CanMove(cl, Beat(0, 2)) && Moved(h, cl, Beat(0, 2)) == Scene(EMPTY, Ready(spec), Starting(spec))
    ensures var cl := Scene(EMPTY, Ready(spec), Starting(spec));
            CanMove(cl, Beat(1, 2)) && Moved(h, cl, Beat(1, 2)) == Scene(EMPTY, Ready(spec), Ready(spec))
  {
  }

  /** Two jobs for the image "@" begin on two workers of controller "a". */
  lemma BothReady(h: Spec -> Hash)
    ensures FreelyReached(h, Scene(EMPTY, Ready("@"), Ready("@")))
  {
    var s0, s1, s2 := Cluster(Init, Pair(Idle, Idle)), Cluster(Init, Pair(Starting("@"), Idle)), Cluster(Init, Pair(Starting("@"), Starting("@")));
    assert IsFreeRun(h, [s0], []);
    assert FreelyReached(h, s0);
    BeginStep(h, Init, Idle, Idle, "@");
    BeginStep(h, Init, Starting("@"), Idle, "@");
    BeatStep(h, "@");
    hide FreelyReached, IsFreeRun, CanMove, Moved, Scene;
    FreeNext(h, s0, Begin(0, "@"), s1);
    FreeNext(h, s1, Begin(1, "@"), s2);
    FreeNext(h, s2, Beat(0, 2), Scene(EMPTY, Ready("@"), Starting("@")));
    FreeNext(h, Scene(EMPTY, Ready("@"), Starting("@")), Beat(1, 2), Scene(EMPTY, Ready("@"), Ready("@")));
  }

  ghost function Reported(h: Spec -> Hash): Tables {
    Tables(map["a" := Daemon(2, map["@" := h("@")], {})], map["@" := false], map["@" := h("@")], map[])
  }

  ghost function Leased(h: Spec -> Hash): Tables {
    Tables(map["a" := Daemon(1, map["@" := h("@")], {"@"})], map["@" := false], map["@" := h("@")],
           map[h("@") := Lease("a", "@")])
  }

  lemma SavesAlike(h: Spec -> Hash)
    ensures HasDigest("@")
    ensures SaveFoundImage(h, EMPTY, "a", "@") == Reported(h)
    ensures SaveFoundImage(h, Reported(h), "a", "@") == Reported(h)
  {
    assert "@"[0] == '@';
    var t := Reported(h);
    assert t.daemons["a"].AddScanRequest("@", h("@")) == t.daemons["a"];
    assert t.daemons["a" := t.daemons["a"]] == t.daemons;
  }

  lemma GrantsAlike(h: Spec -> Hash)
    ensures LeaseRuns.CanStart(Reported(h), "a", "@") && FindWorker(Reported(h), "a", "@").0 == Leased(h)
    ensures LeaseRuns.CanStart(Leased(h), "a", "@") && FindWorker(Leased(h), "a", "@").0 == Leased(h)
  {
    var t := Reported(h);
    assert t.daemons["a"].AssignScan("@") == Daemon(1, map["@" := h("@")], {"@"});
    LeaseRuns.StartResult(t, "a", "@");
    assert FindWorker(t, "a", "@").0 == Leased(h);
    LeaseRuns.ReclaimStartsAgain(Reported(h), "a", "@");
    LeaseRuns.StartsIff(Leased(h), "a", "@");
  }

  lemma PairAt(t: Tables, t': Tables, v: Pc, w: Pc, pc: Pc)
    ensures At(Scene(t, v, w), 0, pc, t', map[]) == Scene(t', pc, w)
    ensures At(Scene(t, v, w), 1, pc, t', map[]) == Scene(t', v, pc)
  {
  }

  /** Both pass foundImage's check, since neither has a lease yet. */
  lemma BothPoll(h: Spec -> Hash)
    ensures FreelyReached(h, Scene(Reported(h), Polling("@"), Polling("@")))
  {
    var t := Reported(h);
    BothReady(h);
    SavesAlike(h);
    PairAt(EMPTY, t, Ready("@"), Ready("@"), Polling("@"));
    PairAt(t, t, Polling("@"), Ready("@"), Polling("@"));
    hide FreelyReached, SaveFoundImage, At, HasDigest;
    ReportServed(h, Scene(EMPTY, Ready("@"), Ready("@")), 0, "a", "@");
    ReportServed(h, Scene(t, Polling("@"), Ready("@")), 1, "a", "@");
  }

  /** And both are started: a run, for whatever hash, that ends with two workers of
      one controller scanning the same image under one lease. */
  lemma SecondJobIsStarted(h: Spec -> Hash)
    ensures FreelyReached(h, Scene(Leased(h), Scanning("@", h("@")), Scanning("@", h("@"))))
  {
    var t, t' := Reported(h), Leased(h);
    var polls, scans := Polling("@"), Scanning("@", h("@"));
    BothPoll(h);
    GrantsAlike(h);
    PairAt(t, t', polls, polls, scans);
    PairAt(t', t', scans, polls, scans);
    hide FreelyReached, FindWorker, At, LeaseRuns.CanStart;
    PollServed(h, Scene(t, polls, polls), 0, "a", "@");
    PollServed(h, Scene(t', scans, polls), 1, "a", "@");
  }

  // ---- when a second job is turned away ----

  /** A report by a registered controller is turned away, and its job ends there,
      if and only if the controller holds the lease when foundImage makes its
      check; otherwise its worker is let through. */
  lemma SecondJobTurnedAwayIff(h: Spec -> Hash, cl: Cluster, w: nat, c: Id, spec: Spec, imageId: string, k: nat)
    requires Injective(h) && Backed(h, cl.sys.tables)
    requires w in cl.workers && cl.workers[w] == Worker(c, Alerting(spec, k))
    requires k in cl.sys.handlers && cl.sys.handlers[k] == Found(c, spec, imageId)
    requires c in cl.sys.tables.daemons && c != "" && spec != "" && imageId != ""
    ensures CanMove(cl, Server(k))
    ensures var checked := Moved(h, cl, Server(k));
            if Held(h, cl.sys.tables, c, spec)
            then CanMove(checked, Hear(w)) && Moved(h, checked, Hear(w)).workers[w].pc.Idle?
                 && Moved(h, checked, Hear(w)).sys.tables == cl.sys.tables
            else PastCheck(checked.sys, checked.workers[w].pc) && checked.workers[w].pc == cl.workers[w].pc
  {
    IdentifiedIffHeld(h, cl.sys.tables, c, spec);
    hide Handle, Held, AlreadyIdentified, Backed, Moved;
    FoundSection(h, cl.sys.tables, c, spec, imageId);
    ServerFrame(h, cl, k);
    ServedPc(h, cl, w, k);
    var checked := Moved(h, cl, Server(k));
    if checked.workers[w].pc.AlertTold? {
      HearStep(h, checked, w);
    }
  }

  lemma ServedPc(h: Spec -> Hash, cl: Cluster, w: nat, k: nat)
    requires CanMove(cl, Server(k)) && w in cl.workers && cl.workers[w].pc.Waits(k)
    ensures var out := Handle(h, cl.sys.tables, cl.sys.handlers[k]).1;
            && w in Moved(h, cl, Server(k)).workers
            && Moved(h, cl, Server(k)).workers[w] ==
                 Worker(cl.workers[w].controller, if out.Done? then ToldBy(cl.workers[w].pc, out.reply) else cl.workers[w].pc)
  {
    hide Handle;
  }

  lemma IdentifiedIffHeld(h: Spec -> Hash, t: Tables, c: Id, spec: Spec)
    requires Injective(h) && Backed(h, t)
    ensures AlreadyIdentified(t, c, spec) <==> Held(h, t, c, spec)
  {
    if h(spec) in t.assignedImages {
      assert LeaseBacked(h, t, h(spec), t.assignedImages[h(spec)]);
    }
  }

  lemma FoundSection(h: Spec -> Hash, t: Tables, c: Id, spec: Spec, imageId: string)
    requires c in t.daemons && c != "" && spec != "" && imageId != ""
    ensures Handle(h, t, Found(c, spec, imageId)) ==
              (t, if AlreadyIdentified(t, c, spec) then Done(TooMany) else Continue(Save(c, spec)))
  {
  }

  // ---- which move gives a second start ----

  lemma {:induction false} FreeRunKeepsFreeInv(h: Spec -> Hash, states: seq<Cluster>, moves: seq<Move>, n: nat)
    requires IsFreeRun(h, states, moves) && n < |states|
    ensures FreeInv(h, states[n])
  {
    if n > 0 {
      assert CanMove(states[n - 1], moves[n - 1]) && states[n] == Moved(h, states[n - 1], moves[n - 1]);
      hide FreeInv, Moved, CanMove;
      FreeRunKeepsFreeInv(h, states, moves, n - 1);
      MoveKeepsFreeInv(h, states[n - 1], moves[n - 1]);
    } else {
      InitialIsFree(h, states[0]);
    }
  }

  ghost predicate TwoStarts(cl: Cluster, c: Id, spec: Spec) {
    exists v, w :: v != w && HasStart(cl, v, c, spec) && HasStart(cl, w, c, spec)
  }

  /** findWorker starts the controller on the spec for a worker that waits, while
      another of its workers has a start. */
  ghost predicate SecondGrant(cl: Cluster, m: Move, c: Id, spec: Spec) {
    && m.Server? && m.k in cl.sys.handlers && cl.sys.handlers[m.k] == Find(c, spec)
    && c in cl.sys.tables.daemons && LeaseRuns.CanStart(cl.sys.tables, c, spec)
    && exists v, w :: v != w && HasStart(cl, v, c, spec) && w in cl.workers && cl.workers[w] == Worker(c, Asking(spec, m.k))
  }

  lemma StartIsGranted(h: Spec -> Hash, cl: Cluster, m: Move, w: nat, c: Id, spec: Spec)
    requires FreeInv(h, cl) && CanMove(cl, m) && !HasStart(cl, w, c, spec) && HasStart(Moved(h, cl, m), w, c, spec)
    ensures m.Server? && cl.sys.handlers[m.k] == Find(c, spec) && w in cl.workers && cl.workers[w] == Worker(c, Asking(spec, m.k))
    ensures c in cl.sys.tables.daemons && LeaseRuns.CanStart(cl.sys.tables, c, spec)
  {
    OwnPc(h, cl, w);
    hide FreeInv;
    StartComesFromFind(h, cl, m, w);
    LeaseRuns.StartsIff(cl.sys.tables, c, spec);
  }

  lemma OneAsksWith(cl: Cluster, v: nat, w: nat, c: Id, spec: Spec, k: nat)
    requires TicketsOwn(cl) && v != w && v in cl.workers && w in cl.workers && cl.workers[v] == Worker(c, Asking(spec, k))
    ensures cl.workers[w] != Worker(c, Asking(spec, k))
  {
    assert cl.workers[v].pc.Waits(k);
  }

  lemma StartStays(h: Spec -> Hash, cl: Cluster, k: nat, w: nat, c: Id, spec: Spec)
    requires CanMove(cl, Server(k)) && HasStart(cl, w, c, spec)
    ensures HasStart(Moved(h, cl, Server(k)), w, c, spec)
  {
    hide Handle;
  }

  /** A move gives a controller a second start for a spec if and only if it is such
      a grant; whatever jobs there are, and whatever the hash. */
  lemma SecondStartIff(h: Spec -> Hash, cl: Cluster, m: Move, c: Id, spec: Spec)
    requires FreeInv(h, cl) && CanMove(cl, m) && !TwoStarts(cl, c, spec)
    ensures TwoStarts(Moved(h, cl, m), c, spec) <==> SecondGrant(cl, m, c, spec)
  {
    var cl' := Moved(h, cl, m);
    assert TicketsOwn(cl);
    hide FreeInv, Moved, Started, LeaseRuns.CanStart;
    if SecondGrant(cl, m, c, spec) {
      var v, w :| v != w && HasStart(cl, v, c, spec) && w in cl.workers && cl.workers[w] == Worker(c, Asking(spec, m.k));
      AwaitedGrantStarts(h, cl, m.k, c, spec, w);
      StartStays(h, cl, m.k, v, c, spec);
    } else if TwoStarts(cl', c, spec) {
      var v, w :| v != w && HasStart(cl', v, c, spec) && HasStart(cl', w, c, spec);
      var late, early := if HasStart(cl, v, c, spec) then w else v, if HasStart(cl, v, c, spec) then v else w;
      StartIsGranted(h, cl, m, late, c, spec);
      if !HasStart(cl, early, c, spec) {
        StartIsGranted(h, cl, m, early, c, spec);
        OneAsksWith(cl, early, late, c, spec, m.k);
        assert false;
      }
    }
  }

  lemma FreeStep(h: Spec -> Hash, states: seq<Cluster>, moves: seq<Move>, n: nat)
    requires IsFreeRun(h, states, moves) && 0 < n < |states|
    ensures |states| == |moves| + 1
    ensures CanMove(states[n - 1], moves[n - 1]) && states[n] == Moved(h, states[n - 1], moves[n - 1])
  {
  }

  lemma NoStartsAtFirst(h: Spec -> Hash, states: seq<Cluster>, moves: seq<Move>, c: Id, spec: Spec)
    requires IsFreeRun(h, states, moves)
    ensures !TwoStarts(states[0], c, spec)
  {
  }

  /** Over every run in which jobs begin freely: two starts of a controller for a
      spec at once come about if and only if such a grant is made. */
  lemma {:induction false} TwoStartsIff(h: Spec -> Hash, states: seq<Cluster>, moves: seq<Move>, n: nat, c: Id, spec: Spec)
    requires IsFreeRun(h, states, moves) && n < |states|
    ensures (exists i {:trigger states[i]} :: 0 <= i <= n && TwoStarts(states[i], c, spec)) <==>
            (exists k {:trigger moves[k]} :: 0 <= k < n && SecondGrant(states[k], moves[k], c, spec))
  {
    hide *;
    NoStartsAtFirst(h, states, moves, c, spec);
    if n > 0 {
      FreeStep(h, states, moves, n);
      TwoStartsIff(h, states, moves, n - 1, c, spec);
      FreeRunKeepsFreeInv(h, states, moves, n - 1);
      if !TwoStarts(states[n - 1], c, spec) {
        SecondStartIff(h, states[n - 1], moves[n - 1], c, spec);
      }
    }
  }

  // ---- when a rival makes it possible ----

  lemma CanStartBeside(cl: Cluster, cl': Cluster, w: nat, c: Id, spec: Spec)
    requires c in cl.sys.tables.daemons && LeaseRuns.CanStart(cl.sys.tables, c, spec) && Beside(cl, cl', w, c, spec)
    ensures c in cl'.sys.tables.daemons && LeaseRuns.CanStart(cl'.sys.tables, c, spec)
  {
  }

  /** A worker with a start, or about to get one. */
  ghost predicate AtGate(cl: Cluster, w: nat, c: Id, spec: Spec) {
    HasStart(cl, w, c, spec) || Awaits(cl, w, c, spec)
  }

  lemma BesideKeepsPeer(cl: Cluster, cl': Cluster, v: nat, w: nat, c: Id, spec: Spec)
    requires Beside(cl, cl', v, c, spec) && v != w
    ensures PastCheckFor(cl, w, c, spec) ==> PastCheckFor(cl', w, c, spec)
    ensures AtGate(cl, w, c, spec) ==> AtGate(cl', w, c, spec)
    ensures CanSendHubJobs(cl.sys.tables) ==> CanSendHubJobs(cl'.sys.tables)
  {
    assert w in cl.workers && (cl.workers[w].pc.Alerting? || cl.workers[w].pc.Asking?) ==> cl.workers[w].pc.Waits(cl.workers[w].pc.ticket);
  }

  lemma GrantOne(h: Spec -> Hash, from: Cluster, cl: Cluster, v: nat, w: nat, c: Id, spec: Spec, world: World) returns (to: Cluster)
    requires Reaches(h, from, cl, world) && FreeInv(h, cl) && v != w && AtGate(cl, v, c, spec) && AtGate(cl, w, c, spec)
    requires c in cl.sys.tables.daemons && LeaseRuns.CanStart(cl.sys.tables, c, spec)
    ensures Reaches(h, from, to, world) && FreeInv(h, to) && HasStart(to, v, c, spec) && AtGate(to, w, c, spec)
    ensures HasStart(cl, w, c, spec) ==> HasStart(to, w, c, spec)
    ensures c in to.sys.tables.daemons && LeaseRuns.CanStart(to.sys.tables, c, spec)
  {
    if HasStart(cl, v, c, spec) {
      to := cl;
    } else {
      var k := cl.workers[v].pc.ticket;
      to := Moved(h, cl, Server(k));
      assert TicketsOwn(cl);
      hide Reaches, FreeInv, Moved, NoRival, LeaseRuns.CanStart, Started;
      OnlyReportsRival(cl, Server(k));
      ReachesOn(h, from, cl, Server(k), world);
      MoveKeepsFreeInv(h, cl, Server(k));
      AwaitedGrantStarts(h, cl, k, c, spec, v);
      PeerUnmoved(h, cl, k, v, w, c, spec);
      ServerFrame(h, cl, k);
      GrantAgain(h, cl.sys.tables, c, spec);
    }
  }

  lemma GrantAgain(h: Spec -> Hash, t: Tables, c: Id, spec: Spec)
    requires c in t.daemons && LeaseRuns.CanStart(t, c, spec)
    ensures var t' := Handle(h, t, Find(c, spec)).0; c in t'.daemons && LeaseRuns.CanStart(t', c, spec)
  {
    LeaseRuns.StartsIff(t, c, spec);
    LeaseRuns.ReclaimStartsAgain(t, c, spec);
    LeaseRuns.StartsIff(FindWorker(t, c, spec).0, c, spec);
  }

  lemma PeerUnmoved(h: Spec -> Hash, cl: Cluster, k: nat, v: nat, w: nat, c: Id, spec: Spec)
    requires CanMove(cl, Server(k)) && TicketsOwn(cl) && v != w && v in cl.workers && cl.workers[v].pc.Waits(k)
    ensures AtGate(cl, w, c, spec) ==> AtGate(Moved(h, cl, Server(k)), w, c, spec)
    ensures HasStart(cl, w, c, spec) ==> HasStart(Moved(h, cl, Server(k)), w, c, spec)
  {
    var cl' := Moved(h, cl, Server(k));
    ServerFrame(h, cl, k);
    assert w in cl.workers ==> !cl.workers[w].pc.Waits(k);
    hide Moved, Started;
    if Awaits(cl, w, c, spec) {
      assert cl.workers[w].pc.Waits(cl.workers[w].pc.ticket);
      OthersWait(h, cl, Server(k), cl.workers[w].pc.ticket);
    }
  }

  /** Two workers of a controller past the check, with the gate open and the
      controller startable on the spec: some continuation starts both. */
  lemma BothCanStart(h: Spec -> Hash, cl: Cluster, v: nat, w: nat, c: Id, spec: Spec, world: World) returns (to: Cluster)
    requires FreeInv(h, cl) && v != w && PastCheckFor(cl, v, c, spec) && PastCheckFor(cl, w, c, spec)
    requires CanSendHubJobs(cl.sys.tables) && c in cl.sys.tables.daemons && LeaseRuns.CanStart(cl.sys.tables, c, spec)
    ensures Reaches(h, cl, to, world) && TwoStarts(to, c, spec)
  {
    ReachesSelf(h, cl, world);
    assert spec in cl.sys.tables.requestedImages;
    hide Reaches, FreeInv, Beside, PastCheckFor, LeaseRuns.CanStart, HasStart, Awaits, CanSendHubJobs;
    assert Coming(cl, v, c, spec);
    var a := ToTheGate(h, cl, cl, v, c, spec, world);
    BesideKeepsPeer(cl, a, v, w, c, spec);
    CanStartBeside(cl, a, v, c, spec);
    StartableIsRequested(a.sys.tables, c, spec);
    var b := ToTheGate(h, cl, a, w, c, spec, world);
    BesideKeepsPeer(a, b, w, v, c, spec);
    CanStartBeside(a, b, w, c, spec);
    var d := GrantOne(h, cl, b, v, w, c, spec, world);
    to := GrantOne(h, cl, d, w, v, c, spec, world);
  }

  lemma StartableIsRequested(t: Tables, c: Id, spec: Spec)
    requires c in t.daemons && LeaseRuns.CanStart(t, c, spec)
    ensures spec in t.requestedImages
  {
  }

  /** Some continuation gives the controller two starts for the spec at once. */
  ghost predicate CanDouble(h: Spec -> Hash, cl: Cluster, c: Id, spec: Spec, world: World) {
    exists to :: Reaches(h, cl, to, world) && TwoStarts(to, c, spec)
  }

  lemma NoRivalsOneStart(cl: Cluster, c: Id, spec: Spec)
    requires NoRivals(cl)
    ensures !TwoStarts(cl, c, spec)
  {
    forall w | HasStart(cl, w, c, spec) ensures PastCheckFor(cl, w, c, spec) {
    }
  }

  lemma NoRivalsNoDouble(h: Spec -> Hash, cl: Cluster, c: Id, spec: Spec, world: World)
    requires Injective(h) && FullInv(h, cl)
    ensures !CanDouble(h, cl, c, spec, world)
  {
    if to :| Reaches(h, cl, to, world) && TwoStarts(to, c, spec) {
      ReachedKeepsFullInv(h, cl, to, world);
      NoRivalsOneStart(to, c, spec);
      assert false;
    }
  }

  lemma RivalsPastCheck(h: Spec -> Hash, cl: Cluster, k: nat, v: nat, w: nat, c: Id, spec: Spec)
    requires FreeInv(h, cl) && CanMove(cl, Server(k)) && LetsThrough(cl.sys.tables, cl.sys.handlers[k])
    requires cl.sys.handlers[k].id == c && cl.sys.handlers[k].spec == spec
    requires v in cl.workers && cl.workers[v].pc.Waits(k) && PastCheckFor(cl, w, c, spec) && v != w
    ensures PastCheckFor(Moved(h, cl, Server(k)), v, c, spec) && PastCheckFor(Moved(h, cl, Server(k)), w, c, spec)
    ensures Moved(h, cl, Server(k)).sys.tables == cl.sys.tables
  {
    OwnPc(h, cl, v);
    OwnPc(h, cl, w);
    ServerFrame(h, cl, k);
    hide FreeInv;
    assert !cl.workers[w].pc.Waits(k);
    if cl.workers[w].pc.Alerting? {
      OthersWait(h, cl, Server(k), cl.workers[w].pc.ticket);
    }
  }

  /** In a run without rivals so far, let foundImage pass a report for which a
      worker waits, where the gate is open and the controller could be started on
      the spec. Then no continuation gives it two starts if and only if no other of
      its workers is past the check. */
  lemma RivalsDoubleIff(h: Spec -> Hash, states: seq<Cluster>, moves: seq<Move>, n: nat, k: nat, world: World)
    requires Injective(h) && IsClusterRun(h, states, moves) && n < |states| && CanMove(states[n], Server(k))
    requires LetsThrough(states[n].sys.tables, states[n].sys.handlers[k])
    requires var r := states[n].sys.handlers[k];
             CanSendHubJobs(states[n].sys.tables) && LeaseRuns.CanStart(states[n].sys.tables, r.id, r.spec)
    ensures var r := states[n].sys.handlers[k];
            NoRival(states[n], Server(k)) <==> !CanDouble(h, Moved(h, states[n], Server(k)), r.id, r.spec, world)
  {
    var cl := states[n];
    var c, spec := cl.sys.handlers[k].id, cl.sys.handlers[k].spec;
    ClusterRunKeepsFullInv(h, states, moves, n);
    hide IsClusterRun, ClusterInv, FreeInv, Moved, LeaseRuns.CanStart, CanSendHubJobs, LetsThrough, PastCheckFor;
    if NoRival(cl, Server(k)) {
      MoveKeepsFullInv(h, cl, Server(k));
      NoRivalsNoDouble(h, Moved(h, cl, Server(k)), c, spec, world);
    } else {
      var v, w :| v in cl.workers && w in cl.workers && v != w && cl.workers[v].pc.Waits(k) && PastCheckFor(cl, w, c, spec);
      RivalsPastCheck(h, cl, k, v, w, c, spec);
      MoveKeepsFreeInv(h, cl, Server(k));
      var to := BothCanStart(h, Moved(h, cl, Server(k)), v, w, c, spec, world);
    }
  }

  // ---- one job at a time is enough ----

  /** A job begins only where its controller has none for the spec. */
  ghost predicate OneJob(cl: Cluster, m: Move) {
    m.Begin? && m.w in cl.workers ==>
      forall v | v in cl.workers && v != m.w && cl.workers[v].controller == cl.workers[m.w].controller ::
        cl.workers[v].pc.Idle? || cl.workers[v].pc.spec != m.spec
  }

  ghost predicate JobsDiffer(cl: Cluster) {
    forall v, w | v in cl.workers && w in cl.workers && v != w && cl.workers[v].controller == cl.workers[w].controller
        && !cl.workers[v].pc.Idle? && !cl.workers[w].pc.Idle? ::
      cl.workers[v].pc.spec != cl.workers[w].pc.spec
  }

  lemma MoveKeepsJobsDiffer(h: Spec -> Hash, cl: Cluster, m: Move)
    requires CanMove(cl, m) && OneJob(cl, m) && JobsDiffer(cl)
    ensures JobsDiffer(Moved(h, cl, m))
  {
    var cl' := Moved(h, cl, m);
    forall v | v in cl.workers
      ensures cl'.workers[v].pc.Idle? || (!cl.workers[v].pc.Idle? && cl'.workers[v].pc.spec == cl.workers[v].pc.spec)
              || (m.Begin? && m.w == v && cl'.workers[v].pc == Starting(m.spec))
    {
    }
  }

  lemma JobsDifferNoRival(h: Spec -> Hash, cl: Cluster, m: Move)
    requires FreeInv(h, cl) && JobsDiffer(cl)
    ensures NoRival(cl, m)
  {
    forall v | v in cl.workers ensures CallGood(h, cl.sys, cl.workers[v].controller, cl.workers[v].pc) {
      OwnPc(h, cl, v);
    }
    hide FreeInv;
  }

  /** A controller with one job at a time for a spec lets in no rivals. */
  lemma {:induction false} OneJobKeepsJobsDiffer(h: Spec -> Hash, states: seq<Cluster>, moves: seq<Move>, n: nat)
    requires IsFreeRun(h, states, moves) && n < |states|
    requires forall k {:trigger moves[k]} | 0 <= k < |moves| :: OneJob(states[k], moves[k])
    ensures JobsDiffer(states[n])
  {
    if n > 0 {
      assert CanMove(states[n - 1], moves[n - 1]) && OneJob(states[n - 1], moves[n - 1]) && states[n] == Moved(h, states[n - 1], moves[n - 1]);
      hide JobsDiffer, Moved, CanMove, OneJob;
      OneJobKeepsJobsDiffer(h, states, moves, n - 1);
      MoveKeepsJobsDiffer(h, states[n - 1], moves[n - 1]);
    }
  }

  /** So everything proved of cluster runs holds where controllers run one job at a
      time for a spec. */
  lemma OneJobIsEnough(h: Spec -> Hash, states: seq<Cluster>, moves: seq<Move>)
    requires IsFreeRun(h, states, moves)
    requires forall k {:trigger moves[k]} | 0 <= k < |moves| :: OneJob(states[k], moves[k])
    ensures IsClusterRun(h, states, moves)
  {
    forall k {:trigger moves[k]} | 0 <= k < |moves| ensures NoRival(states[k], moves[k]) {
      FreeRunKeepsFreeInv(h, states, moves, k);
      OneJobKeepsJobsDiffer(h, states, moves, k);
      JobsDifferNoRival(h, states[k], moves[k]);
    }
  }
}
