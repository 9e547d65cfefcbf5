/** The gate on outstanding Hub jobs. It is checked in one locked section and the
    lease is taken in another, so it bounds the leases only up to the number of
    requests that are between the two; and that bound is met. */
module Admission {
  import opened LeaseTables
  import opened LeaseProtocol
  import opened LeaseAgreement
  import LeaseRuns

  /** Polls that have passed CanSendHubJobs and not yet entered findWorker. */
  ghost function PastGate(sys: Sys): set<nat> {
    FindsIn(sys.handlers)
  }

  ghost function FindsIn(handlers: map<nat, Request>): set<nat> {
    set k | k in handlers && handlers[k].Find?
  }

  ghost function Load(sys: Sys): nat {
    |sys.tables.assignedImages| + |PastGate(sys)|
  }

  ghost predicate GateOpens(sys: Sys, step: Step) {
    && step.Run? && step.ticket in sys.handlers && sys.handlers[step.ticket].Poll?
    && |sys.tables.assignedImages| < MAX_HUB_JOBS
  }

  lemma FindLoad(t: Tables, c: Id, spec: Spec)
    requires c in t.daemons
    ensures |FindWorker(t, c, spec).0.assignedImages| <= |t.assignedImages| + 1
  {
  }

  lemma DropLoad(leases: map<Hash, Lease>, hash: Hash)
    ensures |leases - {hash}| <= |leases|
  {
    var left := leases - {hash};
    assert left.Keys <= leases.Keys;
    assert |left.Keys| + |leases.Keys - left.Keys| == |leases.Keys|;
  }

  lemma HandleLoad(h: Spec -> Hash, t: Tables, r: Request)
    requires r.Servable(t)
    ensures |Handle(h, t, r).0.assignedImages| <= |t.assignedImages| + (if r.Find? then 1 else 0)
    ensures Handle(h, t, r).1.Continue? && Handle(h, t, r).1.next.Find? ==> r.Poll? && CanSendHubJobs(t)
  {
    match r
    case Find(c, spec) => FindLoad(t, c, spec);
    case Finish(c, hash, spec, completed) => DropLoad(t.assignedImages, hash);
    case _ =>
  }

  /** Only an opening gate adds to the load. */
  lemma LoadStep(h: Spec -> Hash, sys: Sys, step: Step)
    requires Enabled(sys, step)
    ensures Load(Next(h, sys, step)) <= Load(sys) || GateOpens(sys, step)
    ensures GateOpens(sys, step) ==> |Next(h, sys, step).tables.assignedImages| <= |sys.tables.assignedImages|
  {
    var sys' := Next(h, sys, step);
    var before, after := PastGate(sys), PastGate(sys');
    if step.Run? {
      var r := sys.handlers[step.ticket];
      HandleLoad(h, sys.tables, r);
      hide Handle;
      if !GateOpens(sys, step) {
        assert after == before - {step.ticket};
      }
    } else {
      assert after == before;
    }
  }

  /** With at most `k` requests past the gate at a time, leases and requests past
      the gate never exceed `6 + k` together. */
  lemma {:induction false} AdmissionBound(h: Spec -> Hash, states: seq<Sys>, steps: seq<Step>, n: nat, k: nat)
    requires IsRun(h, states, steps) && n < |states|
    requires forall i {:trigger states[i]} | 0 <= i <= n :: |PastGate(states[i])| <= k
    ensures Load(states[n]) <= 6 + k
  {
    if n == 0 {
      assert PastGate(Init) == {};
    } else {
      AdmissionBound(h, states, steps, n - 1, k);
      var sys, step := states[n - 1], steps[n - 1];
      assert Enabled(sys, step) && states[n] == Next(h, sys, step);
      LoadStep(h, sys, step);
    }
  }

  /** Handlers one at a time: never more than seven leases. */
  lemma SequentialBound(h: Spec -> Hash, states: seq<Sys>, steps: seq<Step>, n: nat)
    requires IsRun(h, states, steps) && n < |states|
    requires forall i {:trigger states[i]} | 0 <= i <= n :: |states[i].handlers| <= 1
    ensures |states[n].tables.assignedImages| <= 7
  {
    forall i {:trigger states[i]} | 0 <= i <= n ensures |PastGate(states[i])| <= 1 {
      PastGateFits(states[i]);
    }
    AdmissionBound(h, states, steps, n, 1);
  }

  lemma PastGateFits(sys: Sys)
    ensures |PastGate(sys)| <= |sys.handlers|
  {
    var all, past := sys.handlers.Keys, PastGate(sys);
    assert past <= all;
    assert |past| + |all - past| == |all|;
  }

  // ---- the bound is met ----

  /** Reachable with never more than `k` requests past the gate. */
  ghost predicate Within(h: Spec -> Hash, k: nat, sys: Sys) {
    exists states, steps ::
      && IsRun(h, states, steps) && states[|steps|] == sys
      && forall i {:trigger states[i]} | 0 <= i < |states| :: |PastGate(states[i])| <= k
  }

  lemma WithinInit(h: Spec -> Hash, k: nat)
    ensures Within(h, k, Init)
  {
    assert PastGate(Init) == {};
    assert IsRun(h, [Init], []);
  }

  lemma WithinNext(h: Spec -> Hash, k: nat, sys: Sys, step: Step)
    requires Within(h, k, sys) && Enabled(sys, step) && |PastGate(Next(h, sys, step))| <= k
    ensures Within(h, k, Next(h, sys, step))
  {
    var states, steps :|
      && IsRun(h, states, steps) && states[|steps|] == sys
      && forall i {:trigger states[i]} | 0 <= i < |states| :: |PastGate(states[i])| <= k;
    var states', steps' := states + [Next(h, sys, step)], steps + [step];
    forall i {:trigger steps'[i]} | 0 <= i < |steps'|
      ensures Enabled(states'[i], steps'[i]) && states'[i + 1] == Next(h, states'[i], steps'[i])
    {
      if i < |steps| {
        assert steps'[i] == steps[i];
      }
    }
    assert IsRun(h, states', steps');
  }

  /** The i-th image of the scenario. */
  function Ref(i: nat): Spec { seq(i + 1, _ => '@') }

  ghost function Flags(p: nat): map<Spec, bool> {
    if p == 0 then map[] else Flags(p - 1)[Ref(p - 1) := false]
  }

  ghost function Asked(h: Spec -> Hash, p: nat): map<Spec, Hash> {
    if p == 0 then map[] else Asked(h, p - 1)[Ref(p - 1) := h(Ref(p - 1))]
  }

  ghost function Leased(h: Spec -> Hash, a: nat): map<Hash, Lease> {
    if a == 0 then map[] else Leased(h, a - 1)[h(Ref(a - 1)) := Lease("c", Ref(a - 1))]
  }

  ghost function Taken(a: nat): set<Spec> {
    if a == 0 then {} else Taken(a - 1) + {Ref(a - 1)}
  }

  ghost function Between(a: nat, g: nat): map<nat, Request> {
    map i: nat | a <= i < a + g :: Find("c", Ref(i))
  }

  /** Controller "c" with `n` workers has reported the first `p` images and holds
      the first `a`; its polls for the next `g` are past the gate. */
  ghost function Scenario(h: Spec -> Hash, n: nat, p: nat, a: nat, g: nat): Sys {
    Sys(Tables(map["c" := Daemon(n - a, Asked(h, p), Taken(a))], Flags(p), Asked(h, p), Leased(h, a)),
        map["c" := n], Between(a, g))
  }

  lemma {:induction false} Reported(h: Spec -> Hash, p: nat, i: nat)
    ensures Ref(i) in Flags(p) <==> i < p
    ensures Ref(i) in Asked(h, p) <==> i < p
    ensures i < p ==> !Flags(p)[Ref(i)] && Asked(h, p)[Ref(i)] == h(Ref(i))
  {
    if p > 0 {
      Reported(h, p - 1, i);
      assert |Ref(i)| == i + 1 && |Ref(p - 1)| == p;
    }
  }

  lemma RefsDiffer(h: Spec -> Hash, i: nat, j: nat)
    requires Injective(h) && i != j
    ensures Ref(i) != Ref(j) && h(Ref(i)) != h(Ref(j))
  {
    assert |Ref(i)| == i + 1 && |Ref(j)| == j + 1;
  }

  lemma LeasedOnce(h: Spec -> Hash, a: nat)
    ensures a > 0 ==> Leased(h, a) == Leased(h, a - 1)[h(Ref(a - 1)) := Lease("c", Ref(a - 1))]
    ensures a > 0 ==> Taken(a) == Taken(a - 1) + {Ref(a - 1)}
    ensures a == 0 ==> Leased(h, a) == map[] && Taken(a) == {}
  {
  }

  lemma OneMoreKey(leases: map<Hash, Lease>, hash: Hash, lease: Lease)
    requires hash !in leases
    ensures |leases[hash := lease]| == |leases| + 1
  {
    assert leases[hash := lease].Keys == leases.Keys + {hash};
  }

  lemma {:induction false} NotYetLeased(h: Spec -> Hash, a: nat, i: nat)
    requires Injective(h) && a <= i
    ensures h(Ref(i)) !in Leased(h, a) && Ref(i) !in Taken(a) && |Leased(h, a)| == a
  {
    hide Ref, Injective, Leased, Taken;
    LeasedOnce(h, a);
    if a > 0 {
      NotYetLeased(h, a - 1, i);
      NotYetLeased(h, a - 1, a - 1);
      RefsDiffer(h, i, a - 1);
      OneMoreKey(Leased(h, a - 1), h(Ref(a - 1)), Lease("c", Ref(a - 1)));
    }
  }

  lemma {:induction false} BetweenSize(a: nat, g: nat)
    ensures |FindsIn(Between(a, g))| == g
  {
    if g == 0 {
      assert FindsIn(Between(a, 0)) == {};
    } else {
      BetweenSize(a, g - 1);
      assert FindsIn(Between(a, g)) == FindsIn(Between(a, g - 1)) + {a + g - 1};
    }
  }

  lemma RegisterStep(h: Spec -> Hash, n: nat)
    ensures Next(h, Init, Register("c", n)) == Scenario(h, n, 0, 0, 0)
  {
    assert Between(0, 0) == map[];
  }

  lemma {:induction false} ReportAll(h: Spec -> Hash, k: nat, n: nat, p: nat)
    ensures Within(h, k, Scenario(h, n, p, 0, 0))
  {
    var sys := Scenario(h, n, p, 0, 0);
    if p == 0 {
      WithinInit(h, k);
      BetweenSize(0, 0);
      RegisterStep(h, n);
      WithinNext(h, k, Init, Register("c", n));
    } else {
      ReportAll(h, k, n, p - 1);
      Report(h, k, n, p - 1);
    }
  }

  lemma Report(h: Spec -> Hash, k: nat, n: nat, p: nat)
    requires Within(h, k, Scenario(h, n, p, 0, 0))
    ensures Within(h, k, Scenario(h, n, p + 1, 0, 0))
  {
    var s0 := Scenario(h, n, p, 0, 0);
    var r := Found("c", Ref(p), "i");
    var s1 := s0.(handlers := map[0 := r]);
    var s2 := s0.(handlers := map[0 := Save("c", Ref(p))]);
    Reported(h, p, p);
    assert PastGate(s1) == {} && PastGate(s2) == {};
    WithinNext(h, k, s0, Arrive(0, r));
    assert Next(h, s0, Arrive(0, r)) == s1;
    WithinNext(h, k, s1, Run(0));
    assert Next(h, s1, Run(0)) == s2;
    BetweenSize(0, 0);
    assert HasDigest(Ref(p)) by { assert Ref(p)[0] == '@'; }
    assert Next(h, s2, Run(0)) == Scenario(h, n, p + 1, 0, 0);
    WithinNext(h, k, s2, Run(0));
  }

  lemma PollPasses(h: Spec -> Hash, sys: Sys, k: nat, c: Id, spec: Spec)
    requires k !in sys.handlers && c in sys.tables.daemons && c != "" && spec != "" && CanSendHubJobs(sys.tables)
    ensures var polled := sys.(handlers := sys.handlers[k := Poll(c, spec)]);
            && Enabled(sys, Arrive(k, Poll(c, spec))) && Next(h, sys, Arrive(k, Poll(c, spec))) == polled
            && Enabled(polled, Run(k)) && Next(h, polled, Run(k)) == sys.(handlers := sys.handlers[k := Find(c, spec)])
            && PastGate(polled) == PastGate(sys)
  {
    var polled := sys.(handlers := sys.handlers[k := Poll(c, spec)]);
    assert polled.handlers[k := Find(c, spec)] == sys.handlers[k := Find(c, spec)];
  }

  lemma OneMoreBetween(a: nat, g: nat)
    ensures a + g !in Between(a, g)
    ensures Between(a, g)[a + g := Find("c", Ref(a + g))] == Between(a, g + 1)
  {
  }

  lemma GateStillOpen(h: Spec -> Hash, n: nat, a: nat, g: nat)
    requires Injective(h) && a < MAX_HUB_JOBS
    ensures CanSendHubJobs(Scenario(h, n, n, a, g).tables) && "c" in Scenario(h, n, n, a, g).tables.daemons
  {
    NotYetLeased(h, a, a);
  }

  lemma PassReady(h: Spec -> Hash, n: nat, a: nat, g: nat)
    requires Injective(h) && a < MAX_HUB_JOBS
    ensures var s0 := Scenario(h, n, n, a, g);
            && a + g !in s0.handlers && "c" in s0.tables.daemons && "c" != "" && Ref(a + g) != ""
            && CanSendHubJobs(s0.tables)
            && s0.(handlers := s0.handlers[a + g := Find("c", Ref(a + g))]) == Scenario(h, n, n, a, g + 1)
  {
    assert |Ref(a + g)| > 0;
    GateStillOpen(h, n, a, g);
    OneMoreBetween(a, g);
    hide Between, Asked, Leased, Flags, Taken, CanSendHubJobs, Ref;
  }

  lemma PassStep(h: Spec -> Hash, n: nat, a: nat, g: nat)
    requires Injective(h) && a < MAX_HUB_JOBS
    ensures var s0 := Scenario(h, n, n, a, g);
            var r := Poll("c", Ref(a + g));
            var polled := s0.(handlers := s0.handlers[a + g := r]);
            && Enabled(s0, Arrive(a + g, r)) && Next(h, s0, Arrive(a + g, r)) == polled
            && Enabled(polled, Run(a + g)) && Next(h, polled, Run(a + g)) == Scenario(h, n, n, a, g + 1)
            && PastGate(polled) == PastGate(s0)
  {
    PassReady(h, n, a, g);
    hide Scenario, Next, Enabled, PastGate;
    PollPasses(h, Scenario(h, n, n, a, g), a + g, "c", Ref(a + g));
  }

  /** One more poll passes the gate, which still counts fewer than seven leases. */
  lemma Pass(h: Spec -> Hash, k: nat, n: nat, a: nat, g: nat)
    requires Injective(h) && Within(h, k, Scenario(h, n, n, a, g)) && a < MAX_HUB_JOBS && g < k
    ensures Within(h, k, Scenario(h, n, n, a, g + 1))
  {
    var s0 := Scenario(h, n, n, a, g);
    var r := Poll("c", Ref(a + g));
    PassStep(h, n, a, g);
    BetweenSize(a, g);
    BetweenSize(a, g + 1);
    assert PastGate(s0) == FindsIn(Between(a, g)) && PastGate(Scenario(h, n, n, a, g + 1)) == FindsIn(Between(a, g + 1));
    hide Scenario, Next, Enabled, PastGate, Within;
    WithinNext(h, k, s0, Arrive(a + g, r));
    WithinNext(h, k, s0.(handlers := s0.handlers[a + g := r]), Run(a + g));
  }

  lemma FindRuns(h: Spec -> Hash, sys: Sys, k: nat, c: Id, spec: Spec)
    requires k in sys.handlers && sys.handlers[k] == Find(c, spec) && c in sys.tables.daemons
    ensures Enabled(sys, Run(k))
    ensures Next(h, sys, Run(k)) == sys.(tables := FindWorker(sys.tables, c, spec).0, handlers := sys.handlers - {k})
  {
  }

  lemma TakeDaemon(h: Spec -> Hash, n: nat, a: nat)
    requires Injective(h) && a < n
    ensures var d := Daemon(n - a, Asked(h, n), Taken(a));
            d.Accepts(Ref(a)) && d.AssignScan(Ref(a)) == Daemon(n - (a + 1), Asked(h, n), Taken(a + 1))
  {
    Reported(h, n, a);
    NotYetLeased(h, a, a);
  }

  lemma TakeReady(h: Spec -> Hash, n: nat, a: nat)
    requires Injective(h) && a < n
    ensures LeaseRuns.CanStart(Scenario(h, n, n, a, 0).tables, "c", Ref(a))
    ensures Scenario(h, n, n, a, 0).tables.requestedImages[Ref(a)] == h(Ref(a))
  {
    Reported(h, n, a);
    NotYetLeased(h, a, a);
    TakeDaemon(h, n, a);
  }

  lemma TakeTables(h: Spec -> Hash, n: nat, a: nat)
    requires Injective(h) && a < n
    ensures FindWorker(Scenario(h, n, n, a, 0).tables, "c", Ref(a)).0 == Scenario(h, n, n, a + 1, 0).tables
  {
    hide FindWorker, LeaseRuns.CanStart, Asked, Flags, Taken, Leased, Ref, Injective;
    var t, d := Scenario(h, n, n, a, 0).tables, Daemon(n - a, Asked(h, n), Taken(a));
    var d' := Daemon(n - (a + 1), Asked(h, n), Taken(a + 1));
    TakeReady(h, n, a);
    TakeDaemon(h, n, a);
    LeaseRuns.StartResult(t, "c", Ref(a));
    LeasedOnce(h, a + 1);
    assert t.daemons == map["c" := d];
    assert map["c" := d]["c" := d'] == map["c" := d'];
  }

  lemma TakeStep(h: Spec -> Hash, n: nat, a: nat, g: nat)
    requires Injective(h) && 0 < g && a + g <= n
    ensures var s0 := Scenario(h, n, n, a, g);
            Enabled(s0, Run(a)) && Next(h, s0, Run(a)) == Scenario(h, n, n, a + 1, g - 1)
  {
    var s0 := Scenario(h, n, n, a, g);
    TakeTables(h, n, a);
    assert s0.tables == Scenario(h, n, n, a, 0).tables;
    FindRuns(h, s0, a, "c", Ref(a));
    hide FindWorker, Next, Enabled;
    assert s0.handlers - {a} == Between(a + 1, g - 1);
  }

  /** The oldest request past the gate takes its lease. */
  lemma Take(h: Spec -> Hash, k: nat, n: nat, a: nat, g: nat)
    requires Injective(h) && Within(h, k, Scenario(h, n, n, a, g)) && 0 < g <= k && a + g <= n
    ensures Within(h, k, Scenario(h, n, n, a + 1, g - 1))
  {
    TakeStep(h, n, a, g);
    BetweenSize(a + 1, g - 1);
    assert PastGate(Scenario(h, n, n, a + 1, g - 1)) == FindsIn(Between(a + 1, g - 1));
    hide Scenario, Next, Enabled, PastGate, Within;
    WithinNext(h, k, Scenario(h, n, n, a, g), Run(a));
  }

  lemma {:induction false} PassMany(h: Spec -> Hash, k: nat, n: nat, a: nat, g: nat)
    requires Injective(h) && Within(h, k, Scenario(h, n, n, a, 0)) && a < MAX_HUB_JOBS && a + g <= n && g <= k
    ensures Within(h, k, Scenario(h, n, n, a, g))
  {
    hide Within, Scenario;
    if g > 0 {
      PassMany(h, k, n, a, g - 1);
      Pass(h, k, n, a, g - 1);
    }
  }

  lemma {:induction false} TakeMany(h: Spec -> Hash, k: nat, n: nat, a: nat, g: nat)
    requires Injective(h) && Within(h, k, Scenario(h, n, n, a, g)) && a + g <= n && g <= k
    ensures Within(h, k, Scenario(h, n, n, a + g, 0))
    decreases g
  {
    hide Within, Scenario;
    if g > 0 {
      Take(h, k, n, a, g);
      TakeMany(h, k, n, a + 1, g - 1);
    }
  }

  lemma {:induction false} TakeInTurn(h: Spec -> Hash, k: nat, n: nat, a: nat)
    requires Injective(h) && k > 0 && a <= n && a <= MAX_HUB_JOBS
    ensures Within(h, k, Scenario(h, n, n, a, 0))
  {
    hide Within, Scenario;
    if a == 0 {
      ReportAll(h, k, n, n);
    } else {
      TakeInTurn(h, k, n, a - 1);
      PassMany(h, k, n, a - 1, 1);
      TakeMany(h, k, n, a - 1, 1);
    }
  }

  /** For every `k > 0` there is a run with at most `k` requests past the gate at
      a time in which `6 + k` leases are out: the limit of seven holds for one
      request at a time and for no more. */
  lemma BoundIsMet(h: Spec -> Hash, k: nat) returns (sys: Sys)
    requires Injective(h) && k > 0
    ensures Within(h, k, sys) && |sys.tables.assignedImages| == 6 + k
  {
    var n := MAX_HUB_JOBS - 1 + k;
    sys := Scenario(h, n, n, n, 0);
    TakeInTurn(h, k, n, MAX_HUB_JOBS - 1);
    PassMany(h, k, n, MAX_HUB_JOBS - 1, k);
    TakeMany(h, k, n, MAX_HUB_JOBS - 1, k);
    NotYetLeased(h, n, n);
  }
}
