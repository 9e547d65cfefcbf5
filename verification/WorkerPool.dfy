/** The pool of worker channels used by the arbiter and by the controller: a
    dispatcher starts a goroutine for every job, the goroutine takes a worker's
    channel out of the pool and sends the job on it, the worker runs the job and
    puts its channel back. A WaitGroup counts jobs from Load to Done. */
module WorkerPool {

  /** `capacity` is that of the job queue. In the controller the sender holds the
      controller's lock while it sends, and workers need that lock once a job. */
  datatype Config = Config(workers: nat, capacity: nat, sendsUnderLock: bool)

  const MAX_WORKERS := 5

  function ArbiterConfig(): Config { Config(MAX_WORKERS, 0, false) }

  function ControllerConfig(hubWorkers: nat): Config { Config(hubWorkers, hubWorkers, true) }

  /** A worker: about to put its channel in the pool; waiting on it; holding a job
      before and after the one point where it needs the lock. */
  datatype Worker<J> = Registering | Waiting | Fetched(job: J) | Cleared(job: J)

  /** A dispatch goroutine that has taken the channel of worker `worker`. */
  datatype Claim<J> = Claim(worker: nat, job: J)

  datatype Pool<J> = Pool(
    sending: multiset<J>,       // loaded, blocked in the send on the job queue
    queue: seq<J>,              // in the job queue's buffer
    awaiting: multiset<J>,      // in a dispatch goroutine that has no channel yet
    claims: seq<Claim<J>>,      // in a dispatch goroutine blocked in the send to a worker
    workers: seq<Worker<J>>,
    channels: seq<nat>,         // the pool's buffer: channels of workers, by worker
    finished: multiset<J>,
    loaded: multiset<J>,        // all jobs ever loaded
    wait: int)                  // the WaitGroup's counter

  datatype Step<J> =
    | Load(job: J)              // Add and the start of the send
    | Push(job: J)              // the send finds room in the queue
    | Handoff(job: J)           // the send meets the dispatcher at an empty queue
    | Receive                   // the dispatcher takes from the queue
    | TakeChannel(job: J)       // a dispatch goroutine gets a worker's channel
    | Deliver(i: nat)           // and its send meets that worker
    | Clear(w: nat)             // the worker takes and drops the lock
    | Finish(w: nat)            // Done
    | Register(w: nat)          // the worker puts its channel back

  ghost predicate LockFree<J>(cfg: Config, p: Pool<J>) {
    cfg.sendsUnderLock ==> p.sending == multiset{}
  }

  ghost predicate Enabled<J>(cfg: Config, p: Pool<J>, s: Step<J>) {
    match s
    case Load(_) => LockFree(cfg, p)
    case Push(job) => job in p.sending && |p.queue| < cfg.capacity
    case Handoff(job) => job in p.sending && p.queue == []
    case Receive => p.queue != []
    case TakeChannel(job) => job in p.awaiting && p.channels != []
    case Deliver(i) => i < |p.claims| && p.claims[i].worker < |p.workers| && p.workers[p.claims[i].worker].Waiting?
    case Clear(w) => w < |p.workers| && p.workers[w].Fetched? && LockFree(cfg, p)
    case Finish(w) => w < |p.workers| && p.workers[w].Cleared?
    case Register(w) => w < |p.workers| && p.workers[w].Registering? && |p.channels| < cfg.workers
  }

  ghost function Next<J>(cfg: Config, p: Pool<J>, s: Step<J>): Pool<J>
    requires Enabled(cfg, p, s)
  {
    match s
    case Load(job) => p.(sending := p.sending + multiset{job}, loaded := p.loaded + multiset{job}, wait := p.wait + 1)
    case Push(job) => p.(sending := p.sending - multiset{job}, queue := p.queue + [job])
    case Handoff(job) => p.(sending := p.sending - multiset{job}, awaiting := p.awaiting + multiset{job})
    case Receive => p.(queue := p.queue[1..], awaiting := p.awaiting + multiset{p.queue[0]})
    case TakeChannel(job) =>
      p.(awaiting := p.awaiting - multiset{job}, channels := p.channels[1..], claims := p.claims + [Claim(p.channels[0], job)])
    case Deliver(i) =>
      p.(claims := p.claims[..i] + p.claims[i + 1..],
         workers := p.workers[p.claims[i].worker := Fetched(p.claims[i].job)])
    case Clear(w) => p.(workers := p.workers[w := Cleared(p.workers[w].job)])
    case Finish(w) =>
      p.(workers := p.workers[w := Registering], finished := p.finished + multiset{p.workers[w].job}, wait := p.wait - 1)
    case Register(w) => p.(workers := p.workers[w := Waiting], channels := p.channels + [w])
  }

  ghost function NewWorkers<J>(n: nat): seq<Worker<J>> {
    if n == 0 then [] else [Registering] + NewWorkers(n - 1)
  }

  ghost function Start<J>(cfg: Config): Pool<J> {
    Pool(multiset{}, [], multiset{}, [], NewWorkers(cfg.workers), [], multiset{}, multiset{}, 0)
  }

  ghost predicate IsRun<J>(cfg: Config, states: seq<Pool<J>>, steps: seq<Step<J>>) {
    && |states| == |steps| + 1
    && forall k {:trigger steps[k]} | 0 <= k < |steps| :: Enabled(cfg, states[k], steps[k]) && states[k + 1] == Next(cfg, states[k], steps[k])
  }

  // ---- what is where ----

  ghost function Count<T>(s: seq<T>, f: T -> bool): nat {
    if s == [] then 0 else (if f(s[0]) then 1 else 0) + Count(s[1..], f)
  }

  ghost function Busy<J>(): Worker<J> -> bool { (w: Worker<J>) => w.Fetched? || w.Cleared? }

  ghost function Runs<J>(job: J): Worker<J> -> bool { (w: Worker<J>) => (w.Fetched? || w.Cleared?) && w.job == job }

  ghost function Carries<J>(job: J): Claim<J> -> bool { (c: Claim<J>) => c.job == job }

  ghost function Targets<J>(w: nat): Claim<J> -> bool { (c: Claim<J>) => c.worker == w }

  /** How often a job is in the system, unfinished. */
  ghost function Unfinished<J>(p: Pool<J>, job: J): nat {
    p.sending[job] + multiset(p.queue)[job] + p.awaiting[job] + Count(p.claims, Carries(job)) + Count(p.workers, Runs(job))
  }

  ghost function UnfinishedTotal<J>(p: Pool<J>): nat {
    |p.sending| + |p.queue| + |p.awaiting| + |p.claims| + Count(p.workers, Busy())
  }

  /** In how many places the channel of worker `w` is on offer. */
  ghost function Tokens<J>(p: Pool<J>, w: nat): nat {
    multiset(p.channels)[w] + Count(p.claims, Targets(w))
  }

  ghost predicate JobConserved<J>(p: Pool<J>, j: J) {
    p.loaded[j] == Unfinished(p, j) + p.finished[j]
  }

  /** Every job loaded is in exactly one place for each time it was loaded. */
  ghost predicate JobsConserved<J(!new)>(p: Pool<J>) {
    forall j :: JobConserved(p, j)
  }

  /** The worker's channel is on offer once while the worker waits on it, and not
      at all while it does not. */
  ghost predicate TokenUnique<J>(p: Pool<J>, w: nat) {
    Tokens(p, w) == if w < |p.workers| && p.workers[w].Waiting? then 1 else 0
  }

  ghost predicate TokensUnique<J>(p: Pool<J>) {
    forall w: nat :: TokenUnique(p, w)
  }

  ghost predicate Inv<J(!new)>(cfg: Config, p: Pool<J>) {
    && |p.workers| == cfg.workers
    && |p.queue| <= cfg.capacity
    && JobsConserved(p)
    && p.wait == UnfinishedTotal(p)
    && TokensUnique(p)
    && (cfg.sendsUnderLock ==> |p.sending| <= 1)
  }

  lemma {:induction false} CountUpdate<T>(s: seq<T>, i: nat, v: T, f: T -> bool)
    requires i < |s|
    ensures Count(s[i := v], f) + (if f(s[i]) then 1 else 0) == Count(s, f) + (if f(v) then 1 else 0)
  {
    if i == 0 {
      assert s[i := v][1..] == s[1..];
    } else {
      CountUpdate(s[1..], i - 1, v, f);
      assert s[i := v][1..] == s[1..][i - 1 := v];
    }
  }

  lemma {:induction false} CountAppend<T>(s: seq<T>, v: T, f: T -> bool)
    ensures Count(s + [v], f) == Count(s, f) + (if f(v) then 1 else 0)
  {
    if s == [] {
      assert [v][1..] == [];
      assert s + [v] == [v];
    } else {
      CountAppend(s[1..], v, f);
      assert (s + [v])[1..] == s[1..] + [v];
    }
  }

  lemma {:induction false} CountRemove<T>(s: seq<T>, i: nat, f: T -> bool)
    requires i < |s|
    ensures Count(s, f) == Count(s[..i] + s[i + 1..], f) + (if f(s[i]) then 1 else 0)
  {
    if i == 0 {
      assert s[..0] + s[1..] == s[1..];
    } else {
      CountRemove(s[1..], i - 1, f);
      assert (s[..i] + s[i + 1..])[1..] == s[1..][..i - 1] + s[1..][i..];
    }
  }

  lemma {:induction false} CountNone<T>(s: seq<T>, f: T -> bool)
    ensures Count(s, f) <= |s|
    ensures Count(s, f) == 0 <==> forall i | 0 <= i < |s| :: !f(s[i])
  {
    if s != [] {
      CountNone(s[1..], f);
      assert forall i | 0 < i < |s| :: s[i] == s[1..][i - 1];
      assert forall i | 0 <= i < |s[1..]| :: s[1..][i] == s[i + 1];
    }
  }

  lemma {:induction false} NewWorkersRegister<J>(n: nat)
    ensures |NewWorkers<J>(n)| == n
    ensures forall w | 0 <= w < n :: NewWorkers<J>(n)[w].Registering?
  {
    if n > 0 {
      NewWorkersRegister<J>(n - 1);
    }
  }

  lemma StartInv<J(!new)>(cfg: Config)
    ensures Inv<J>(cfg, Start(cfg))
  {
    var p := Start<J>(cfg);
    NewWorkersRegister<J>(cfg.workers);
    CountNone(p.workers, Busy());
    forall j ensures JobConserved(p, j) {
      CountNone(p.workers, Runs(j));
    }
    forall w: nat ensures TokenUnique(p, w) {
    }
  }

  lemma ClaimsAndWorkersCounted<J>(p: Pool<J>, s: Step<J>, cfg: Config, j: J)
    requires Enabled(cfg, p, s)
    ensures var p' := Next(cfg, p, s);
            && Count(p'.claims, Carries(j)) ==
               (if s.TakeChannel? && s.job == j then Count(p.claims, Carries(j)) + 1
                else if s.Deliver? && p.claims[s.i].job == j then Count(p.claims, Carries(j)) - 1
                else Count(p.claims, Carries(j)))
            && Count(p'.workers, Runs(j)) ==
               (if s.Deliver? && p.claims[s.i].job == j then Count(p.workers, Runs(j)) + 1
                else if s.Finish? && p.workers[s.w].job == j then Count(p.workers, Runs(j)) - 1
                else Count(p.workers, Runs(j)))
  {
    match s
    case TakeChannel(job) => CountAppend(p.claims, Claim(p.channels[0], job), Carries(j));
    case Deliver(i) =>
      CountRemove(p.claims, i, Carries(j));
      CountUpdate(p.workers, p.claims[i].worker, Fetched(p.claims[i].job), Runs(j));
    case Clear(w) => CountUpdate(p.workers, w, Cleared(p.workers[w].job), Runs(j));
    case Finish(w) => CountUpdate(p.workers, w, Registering, Runs(j));
    case Register(w) => CountUpdate(p.workers, w, Waiting, Runs(j));
    case _ =>
  }

  lemma ReceiveKeepsJob<J>(cfg: Config, p: Pool<J>, j: J)
    requires Enabled(cfg, p, Receive) && JobConserved(p, j)
    ensures JobConserved(Next(cfg, p, Receive), j)
  {
    assert p.queue == [p.queue[0]] + p.queue[1..];
  }

  lemma StepKeepsJob<J>(cfg: Config, p: Pool<J>, s: Step<J>, j: J)
    requires Enabled(cfg, p, s) && JobConserved(p, j)
    ensures JobConserved(Next(cfg, p, s), j)
  {
    if s.Receive? {
      ReceiveKeepsJob(cfg, p, j);
    } else {
      ClaimsAndWorkersCounted(p, s, cfg, j);
    }
  }

  lemma StepKeepsWait<J(!new)>(cfg: Config, p: Pool<J>, s: Step<J>)
    requires Inv(cfg, p) && Enabled(cfg, p, s)
    ensures Next(cfg, p, s).wait == UnfinishedTotal(Next(cfg, p, s))
  {
    match s
    case Deliver(i) => CountUpdate(p.workers, p.claims[i].worker, Fetched(p.claims[i].job), Busy());
    case Clear(w) => CountUpdate(p.workers, w, Cleared(p.workers[w].job), Busy());
    case Finish(w) => CountUpdate(p.workers, w, Registering, Busy());
    case Register(w) => CountUpdate(p.workers, w, Waiting, Busy());
    case _ =>
  }

  lemma TakeKeepsToken<J>(cfg: Config, p: Pool<J>, job: J, w: nat)
    requires Enabled(cfg, p, TakeChannel(job)) && TokenUnique(p, w)
    ensures TokenUnique(Next(cfg, p, TakeChannel(job)), w)
  {
    assert p.channels == [p.channels[0]] + p.channels[1..];
    CountAppend(p.claims, Claim(p.channels[0], job), Targets(w));
  }

  lemma DeliverKeepsToken<J>(cfg: Config, p: Pool<J>, i: nat, w: nat)
    requires Enabled(cfg, p, Deliver(i)) && TokenUnique(p, w)
    ensures TokenUnique(Next(cfg, p, Deliver(i)), w)
  {
    CountRemove(p.claims, i, Targets(w));
  }

  lemma StepKeepsToken<J>(cfg: Config, p: Pool<J>, s: Step<J>, w: nat)
    requires Enabled(cfg, p, s) && TokenUnique(p, w)
    ensures TokenUnique(Next(cfg, p, s), w)
  {
    match s
    case TakeChannel(job) => TakeKeepsToken(cfg, p, job, w);
    case Deliver(i) => DeliverKeepsToken(cfg, p, i, w);
    case Register(v) => assert Next(cfg, p, s).claims == p.claims;
    case _ =>
      assert Next(cfg, p, s).claims == p.claims && Next(cfg, p, s).channels == p.channels;
  }

  lemma StepKeepsInv<J(!new)>(cfg: Config, p: Pool<J>, s: Step<J>)
    requires Inv(cfg, p) && Enabled(cfg, p, s)
    ensures Inv(cfg, Next(cfg, p, s))
  {
    forall j ensures JobConserved(Next(cfg, p, s), j) {
      assert JobConserved(p, j);
      StepKeepsJob(cfg, p, s, j);
    }
    StepKeepsWait(cfg, p, s);
    forall w: nat ensures TokenUnique(Next(cfg, p, s), w) {
      assert TokenUnique(p, w);
      StepKeepsToken(cfg, p, s, w);
    }
  }

  lemma {:induction false} RunKeepsInv<J(!new)>(cfg: Config, states: seq<Pool<J>>, steps: seq<Step<J>>, n: nat)
    requires IsRun(cfg, states, steps) && n < |states| && Inv(cfg, states[0])
    ensures Inv(cfg, states[n])
  {
    if n > 0 {
      RunKeepsInv(cfg, states, steps, n - 1);
      assert Enabled(cfg, states[n - 1], steps[n - 1]) && states[n] == Next(cfg, states[n - 1], steps[n - 1]);
      StepKeepsInv(cfg, states[n - 1], steps[n - 1]);
    }
  }

  /** At every moment of a run of a new pool: each job has been loaded as often as
      it has finished and is still under way; the WaitGroup counts what is under
      way, so it is never negative and is zero exactly when every loaded job has
      finished; no more than the configured number of workers are busy. */
  lemma JobsAccountedFor<J(!new)>(cfg: Config, states: seq<Pool<J>>, steps: seq<Step<J>>, n: nat)
    requires IsRun(cfg, states, steps) && n < |states| && states[0] == Start(cfg)
    ensures JobsConserved(states[n]) && states[n].finished <= states[n].loaded
    ensures states[n].wait == UnfinishedTotal(states[n]) >= 0
    ensures states[n].wait == 0 <==> states[n].finished == states[n].loaded
    ensures Count(states[n].workers, Busy()) <= cfg.workers
  {
    StartInv<J>(cfg);
    RunKeepsInv(cfg, states, steps, n);
    var p := states[n];
    CountNone(p.workers, Busy());
    forall j ensures p.finished[j] <= p.loaded[j] {
      assert JobConserved(p, j);
    }
    if p.wait == 0 {
      NothingLeft(p);
    } else {
      SomethingLeft(p);
    }
  }

  lemma NothingLeft<J(!new)>(p: Pool<J>)
    requires JobsConserved(p) && UnfinishedTotal(p) == 0
    ensures p.finished == p.loaded
  {
    CountNone(p.workers, Busy());
    forall j ensures p.loaded[j] == p.finished[j] {
      assert JobConserved(p, j);
      CountNone(p.workers, Runs(j));
      assert Unfinished(p, j) == 0;
    }
  }

  /** A job that is somewhere under way. */
  lemma SomeJob<J>(p: Pool<J>) returns (j: J)
    requires UnfinishedTotal(p) > 0
    ensures Unfinished(p, j) > 0
  {
    if p.sending != multiset{} {
      j :| j in p.sending;
    } else if p.queue != [] {
      j := p.queue[0];
    } else if p.awaiting != multiset{} {
      j :| j in p.awaiting;
    } else if p.claims != [] {
      j := p.claims[0].job;
      CountNone(p.claims, Carries(j));
    } else {
      CountNone(p.workers, Busy());
      var w :| 0 <= w < |p.workers| && Busy<J>()(p.workers[w]);
      j := p.workers[w].job;
      CountNone(p.workers, Runs(j));
    }
  }

  lemma SomethingLeft<J(!new)>(p: Pool<J>)
    requires JobsConserved(p) && UnfinishedTotal(p) > 0
    ensures p.finished != p.loaded
  {
    var j := SomeJob(p);
    assert JobConserved(p, j);
  }

  /** A job loaded once is run by one worker at most and finished at most once. */
  lemma RunOnce<J(!new)>(cfg: Config, states: seq<Pool<J>>, steps: seq<Step<J>>, n: nat, j: J, v: nat, w: nat)
    requires IsRun(cfg, states, steps) && n < |states| && states[0] == Start(cfg)
    requires states[n].loaded[j] == 1 && v < |states[n].workers| && w < |states[n].workers|
    requires Runs(j)(states[n].workers[v]) && Runs(j)(states[n].workers[w])
    ensures v == w && states[n].finished[j] == 0 && j !in states[n].sending && j !in states[n].awaiting && j !in states[n].queue
  {
    StartInv<J>(cfg);
    RunKeepsInv(cfg, states, steps, n);
    var p := states[n];
    assert JobConserved(p, j);
    CountDistinct(p.workers, Runs(j), v, w);
  }

  lemma {:induction false} CountDistinct<T>(s: seq<T>, f: T -> bool, v: nat, w: nat)
    requires v < |s| && w < |s| && f(s[v]) && f(s[w])
    ensures Count(s, f) >= (if v == w then 1 else 2)
  {
    CountNone(s, f);
    if v != 0 && w != 0 {
      CountDistinct(s[1..], f, v - 1, w - 1);
    } else {
      CountNone(s[1..], f);
      if v != w {
        assert s[1..][v + w - 1] == s[v + w];
      }
    }
  }

  // ---- channels ----

  /** A channel in the pool belongs to a waiting worker and is there once; a worker
      that has its channel to return finds room for it; and the send to a worker
      whose channel was taken always meets that worker. */
  lemma ChannelsAreSound<J(!new)>(cfg: Config, p: Pool<J>)
    requires Inv(cfg, p)
    ensures forall i, j | 0 <= i < j < |p.channels| :: p.channels[i] != p.channels[j]
    ensures forall i | 0 <= i < |p.channels| :: p.channels[i] < cfg.workers && p.workers[p.channels[i]].Waiting?
    ensures forall w | 0 <= w < cfg.workers && p.workers[w].Registering? :: Enabled(cfg, p, Register(w))
    ensures forall i | 0 <= i < |p.claims| :: Enabled(cfg, p, Deliver(i))
    ensures forall i, j | 0 <= i < j < |p.claims| :: p.claims[i].worker != p.claims[j].worker
  {
    forall i | 0 <= i < |p.channels| ensures p.channels[i] < cfg.workers && p.workers[p.channels[i]].Waiting? {
      assert p.channels[i] in multiset(p.channels) && TokenUnique(p, p.channels[i]);
    }
    forall i, j | 0 <= i < j < |p.channels| ensures p.channels[i] != p.channels[j] {
      assert TokenUnique(p, p.channels[i]);
      TwiceInMultiset(p.channels, i, j);
    }
    forall i | 0 <= i < |p.claims| ensures Enabled(cfg, p, Deliver(i)) {
      CountNone(p.claims, Targets(p.claims[i].worker));
      assert TokenUnique(p, p.claims[i].worker);
    }
    forall i, j | 0 <= i < j < |p.claims| ensures p.claims[i].worker != p.claims[j].worker {
      assert TokenUnique(p, p.claims[i].worker);
      if p.claims[i].worker == p.claims[j].worker {
        CountDistinct(p.claims, Targets(p.claims[i].worker), i, j);
      }
    }
    forall w | 0 <= w < cfg.workers && p.workers[w].Registering? ensures |p.channels| < cfg.workers {
      forall i | 0 <= i < |p.channels| ensures p.channels[i] in Below(cfg.workers) - {w} {
        BelowHas(cfg.workers, p.channels[i]);
      }
      BelowHas(cfg.workers, w);
      DistinctFit(p.channels, Below(cfg.workers) - {w});
    }
  }

  lemma TwiceInMultiset(s: seq<nat>, i: nat, j: nat)
    requires i < j < |s|
    ensures s[i] == s[j] ==> multiset(s)[s[i]] >= 2
  {
    assert s == s[..j] + [s[j]] + s[j + 1..];
    assert s[i] in s[..j];
  }

  ghost function Below(n: nat): set<nat> {
    if n == 0 then {} else Below(n - 1) + {n - 1}
  }

  lemma {:induction false} BelowHas(n: nat, v: nat)
    ensures |Below(n)| == n && (v in Below(n) <==> v < n)
  {
    if n > 0 {
      BelowHas(n - 1, v);
      BelowHas(n - 1, n - 1);
    }
  }

  lemma {:induction false} DistinctFit(s: seq<nat>, b: set<nat>)
    requires forall i, j | 0 <= i < j < |s| :: s[i] != s[j]
    requires forall i | 0 <= i < |s| :: s[i] in b
    ensures |s| <= |b|
  {
    if s != [] {
      DistinctFit(s[1..], b - {s[0]});
    }
  }

  // ---- draining ----

  ghost predicate Drains<J>(s: Step<J>) { !s.Load? }

  /** `ends` tells the jobs that come to an end once they run. The arbiter's do. A
      controller's job polls until it is told to start or to skip, and a scan may
      never return, so a controller can have others. */
  ghost predicate Possible<J>(cfg: Config, p: Pool<J>, s: Step<J>, ends: J -> bool) {
    Enabled(cfg, p, s) && (s.Finish? ==> ends(p.workers[s.w].job))
  }

  /** No step can be taken but the load of another job. */
  ghost predicate Stuck<J(!new)>(cfg: Config, p: Pool<J>, ends: J -> bool) {
    forall s | Drains(s) :: !Possible(cfg, p, s, ends)
  }

  /** A worker with a job that does not end. */
  ghost predicate Endless<J>(w: Worker<J>, ends: J -> bool) {
    w.Cleared? && !ends(w.job)
  }

  /** While a job is under way, and no worker has a job that does not end, some step
      other than a new load can be taken, if there is a worker at all. */
  lemma DrainStep<J(!new)>(cfg: Config, p: Pool<J>, ends: J -> bool) returns (s: Step<J>)
    requires Inv(cfg, p) && p.wait > 0 && cfg.workers > 0
    requires forall w | 0 <= w < |p.workers| :: !Endless(p.workers[w], ends)
    ensures Drains(s) && Possible(cfg, p, s, ends)
  {
    ChannelsAreSound(cfg, p);
    if w: nat :| w < cfg.workers && (p.workers[w].Registering? || p.workers[w].Cleared?) {
      s := if p.workers[w].Registering? then Register(w) else Finish(w);
    } else if p.claims != [] {
      s := Deliver(0);
    } else if p.queue != [] {
      s := Receive;
    } else if job :| job in p.sending {
      s := Handoff(job);
    } else if w: nat :| w < cfg.workers && p.workers[w].Fetched? {
      s := Clear(w);
    } else {
      CountNone(p.workers, Busy());
      assert p.sending == multiset{};
      assert |p.awaiting| > 0;
      var job :| job in p.awaiting;
      assert p.workers[0].Waiting? && TokenUnique(p, 0);
      s := TakeChannel(job);
    }
  }

  ghost function WorkLeft<J>(w: Worker<J>): nat {
    match w
    case Registering => 1
    case Waiting => 0
    case Fetched(_) => 3
    case Cleared(_) => 2
  }

  ghost function WorkersLeft<J>(workers: seq<Worker<J>>): nat {
    if workers == [] then 0 else WorkLeft(workers[0]) + WorkersLeft(workers[1..])
  }

  ghost function Left<J>(p: Pool<J>): nat {
    7 * |p.sending| + 6 * |p.queue| + 5 * |p.awaiting| + 4 * |p.claims| + WorkersLeft(p.workers)
  }

  lemma {:induction false} WorkersLeftUpdate<J>(workers: seq<Worker<J>>, w: nat, v: Worker<J>)
    requires w < |workers|
    ensures WorkersLeft(workers[w := v]) + WorkLeft(workers[w]) == WorkersLeft(workers) + WorkLeft(v)
  {
    if w == 0 {
      assert workers[w := v][1..] == workers[1..];
    } else {
      WorkersLeftUpdate(workers[1..], w - 1, v);
      assert workers[w := v][1..] == workers[1..][w - 1 := v];
    }
  }

  lemma WorkerDecreases<J>(cfg: Config, p: Pool<J>, s: Step<J>)
    requires Enabled(cfg, p, s) && (s.Deliver? || s.Clear? || s.Finish? || s.Register?)
    ensures Left(Next(cfg, p, s)) < Left(p)
  {
    match s
    case Deliver(i) => WorkersLeftUpdate(p.workers, p.claims[i].worker, Fetched(p.claims[i].job));
    case Clear(w) => WorkersLeftUpdate(p.workers, w, Cleared(p.workers[w].job));
    case Finish(w) => WorkersLeftUpdate(p.workers, w, Registering);
    case Register(w) => WorkersLeftUpdate(p.workers, w, Waiting);
    hide WorkersLeft;
  }

  lemma DrainDecreases<J>(cfg: Config, p: Pool<J>, s: Step<J>)
    requires Enabled(cfg, p, s) && Drains(s)
    ensures Left(Next(cfg, p, s)) < Left(p)
  {
    hide WorkersLeft;
    if s.Deliver? || s.Clear? || s.Finish? || s.Register? {
      WorkerDecreases(cfg, p, s);
    }
  }

  /** Where nothing can move, either all is done or a worker has a job that does not
      end. */
  lemma StuckIff<J(!new)>(cfg: Config, p: Pool<J>, ends: J -> bool)
    requires Inv(cfg, p) && cfg.workers > 0 && Stuck(cfg, p, ends)
    ensures p.wait == 0 <==> p.finished == p.loaded
    ensures p.wait == 0 <==> forall w | 0 <= w < |p.workers| :: !Endless(p.workers[w], ends)
  {
    if p.wait == 0 {
      NothingLeft(p);
      CountNone(p.workers, Busy());
      assert forall w | 0 <= w < |p.workers| :: !Busy<J>()(p.workers[w]);
    } else {
      SomethingLeft(p);
      if forall w | 0 <= w < |p.workers| :: !Endless(p.workers[w], ends) {
        var s := DrainStep(cfg, p, ends);
        assert false;
      }
    }
  }

  lemma {:induction false} DrainIsBounded<J>(cfg: Config, states: seq<Pool<J>>, steps: seq<Step<J>>, n: nat)
    requires IsRun(cfg, states, steps) && n <= |steps|
    requires forall k {:trigger steps[k]} | 0 <= k < |steps| :: Drains(steps[k])
    ensures n + Left(states[n]) <= Left(states[0])
  {
    if n > 0 {
      DrainIsBounded(cfg, states, steps, n - 1);
      assert Drains(steps[n - 1]) && Enabled(cfg, states[n - 1], steps[n - 1]);
      DrainDecreases(cfg, states[n - 1], steps[n - 1]);
    }
  }

  /** Only jobs that end have finished. */
  lemma {:induction false} OnlyEndingFinish<J>(cfg: Config, states: seq<Pool<J>>, steps: seq<Step<J>>, n: nat, ends: J -> bool)
    requires IsRun(cfg, states, steps) && n <= |steps| && states[0].finished == multiset{}
    requires forall k {:trigger steps[k]} | 0 <= k < |steps| :: Possible(cfg, states[k], steps[k], ends)
    ensures forall j | j in states[n].finished :: ends(j)
  {
    if n > 0 {
      OnlyEndingFinish(cfg, states, steps, n - 1, ends);
      assert Possible(cfg, states[n - 1], steps[n - 1], ends) && states[n] == Next(cfg, states[n - 1], steps[n - 1]);
    }
  }

  /** As long as a job that does not end is loaded, Stop waits. */
  lemma EndlessJobHoldsStop<J(!new)>(cfg: Config, states: seq<Pool<J>>, steps: seq<Step<J>>, n: nat, ends: J -> bool, job: J)
    requires IsRun(cfg, states, steps) && states[0] == Start(cfg) && n <= |steps|
    requires forall k {:trigger steps[k]} | 0 <= k < |steps| :: Possible(cfg, states[k], steps[k], ends)
    requires job in states[n].loaded && !ends(job)
    ensures states[n].wait > 0
  {
    JobsAccountedFor(cfg, states, steps, n);
    OnlyEndingFinish(cfg, states, steps, n, ends);
    assert states[n].finished != states[n].loaded;
  }

  /** A pool with workers, in which nothing can move, has drained if and only if
      every job ever loaded ends. */
  lemma DrainEnds<J(!new)>(cfg: Config, states: seq<Pool<J>>, steps: seq<Step<J>>, ends: J -> bool)
    requires cfg.workers > 0 && IsRun(cfg, states, steps) && states[0] == Start(cfg)
    requires forall k {:trigger steps[k]} | 0 <= k < |steps| :: Possible(cfg, states[k], steps[k], ends)
    requires Stuck(cfg, states[|steps|], ends)
    ensures var p := states[|steps|];
            && (p.wait == 0 <==> p.finished == p.loaded)
            && (p.wait == 0 <==> forall j | j in p.loaded :: ends(j))
  {
    var p := states[|steps|];
    StartInv<J>(cfg);
    RunKeepsInv(cfg, states, steps, |steps|);
    StuckIff(cfg, p, ends);
    if p.wait == 0 {
      OnlyEndingFinish(cfg, states, steps, |steps|, ends);
    } else {
      var w :| 0 <= w < |p.workers| && Endless(p.workers[w], ends);
      CountNone(p.workers, Runs(p.workers[w].job));
      assert JobConserved(p, p.workers[w].job);
    }
  }

  /** The arbiter's pool, and the controller's if it is given workers: from the
      moment Stop is called (no more loads) at most `Left` steps remain; and when
      none is possible Stop returns if and only if every job loaded ends. */
  lemma StopReturns<J(!new)>(cfg: Config, hubWorkers: nat, states: seq<Pool<J>>, steps: seq<Step<J>>, i: nat, ends: J -> bool)
    requires cfg == ArbiterConfig() || (cfg == ControllerConfig(hubWorkers) && hubWorkers > 0)
    requires IsRun(cfg, states, steps) && states[0] == Start(cfg) && i <= |steps|
    requires forall k {:trigger steps[k]} | 0 <= k < |steps| :: Possible(cfg, states[k], steps[k], ends)
    requires forall k {:trigger steps[k]} | i <= k < |steps| :: Drains(steps[k])
    ensures |steps| - i <= Left(states[i])
    ensures Stuck(cfg, states[|steps|], ends) ==>
              (states[|steps|].wait == 0 <==> forall j | j in states[|steps|].loaded :: ends(j))
  {
    var later, laterSteps := states[i..], steps[i..];
    forall k {:trigger laterSteps[k]} | 0 <= k < |laterSteps|
      ensures Drains(laterSteps[k]) && Enabled(cfg, later[k], laterSteps[k])
              && later[k + 1] == Next(cfg, later[k], laterSteps[k])
    {
      assert laterSteps[k] == steps[i + k];
    }
    DrainIsBounded(cfg, later, laterSteps, |laterSteps|);
    if Stuck(cfg, states[|steps|], ends) {
      DrainEnds(cfg, states, steps, ends);
    }
  }

  /** The controller's AddImage holds the lock while its send is blocked on a full
      queue, and workers wait for that lock: the dispatcher can always take a job
      without it, then the send completes and the lock is free. */
  lemma BlockedSendIsFreed<J(!new)>(cfg: Config, p: Pool<J>, job: J)
    requires Inv(cfg, p) && cfg.sendsUnderLock && job in p.sending && |p.queue| == cfg.capacity > 0
    ensures !Enabled(cfg, p, Push(job)) && forall w :: !Enabled(cfg, p, Clear(w))
    ensures Enabled(cfg, p, Receive)
    ensures var q := Next(cfg, p, Receive);
            && Enabled(cfg, q, Push(job))
            && var r := Next(cfg, q, Push(job));
               LockFree(cfg, r) && forall w | 0 <= w < |p.workers| && p.workers[w].Fetched? :: Enabled(cfg, r, Clear(w))
  {
    assert |p.sending - multiset{job}| == 0;
    assert p.sending != multiset{};
  }

  /** Without workers a loaded job is never finished. */
  lemma {:induction false} NoWorkersNoProgress<J(!new)>(cfg: Config, states: seq<Pool<J>>, steps: seq<Step<J>>, n: nat)
    requires cfg.workers == 0 && IsRun(cfg, states, steps) && n < |states| && Inv(cfg, states[0]) && states[0].finished == multiset{}
    ensures states[n].finished == multiset{}
  {
    if n > 0 {
      NoWorkersNoProgress(cfg, states, steps, n - 1);
      RunKeepsInv(cfg, states, steps, n - 1);
      assert Enabled(cfg, states[n - 1], steps[n - 1]);
    }
  }

  // ---- the two pools ----

  /** The arbiter runs at most five jobs at once and its job queue holds none; a
      controller runs at most as many as it is given workers for, and its queue
      holds as many. */
  lemma PoolSizes<J(!new)>(hubWorkers: nat, states: seq<Pool<J>>, steps: seq<Step<J>>, n: nat)
    requires n < |states|
    ensures IsRun(ArbiterConfig(), states, steps) && states[0] == Start(ArbiterConfig()) ==>
              |states[n].workers| == 5 && Count(states[n].workers, Busy()) <= 5 && states[n].queue == []
    ensures IsRun(ControllerConfig(hubWorkers), states, steps) && states[0] == Start(ControllerConfig(hubWorkers)) ==>
              && |states[n].workers| == hubWorkers && Count(states[n].workers, Busy()) <= hubWorkers
              && |states[n].queue| <= hubWorkers
  {
    StartInv<J>(ArbiterConfig());
    StartInv<J>(ControllerConfig(hubWorkers));
    if IsRun(ArbiterConfig(), states, steps) && states[0] == Start(ArbiterConfig()) {
      RunKeepsInv(ArbiterConfig(), states, steps, n);
    }
    if IsRun(ControllerConfig(hubWorkers), states, steps) && states[0] == Start(ControllerConfig(hubWorkers)) {
      RunKeepsInv(ControllerConfig(hubWorkers), states, steps, n);
    }
    CountNone(states[n].workers, Busy());
  }

  /** A controller's queue takes as many jobs as it has workers; while a send is
      blocked on it the lock is kept from workers and from other loads; and the send
      is freed, for any positive number of workers. */
  lemma ControllerSendIsFreed<J(!new)>(hubWorkers: nat, p: Pool<J>, job: J)
    requires Inv(ControllerConfig(hubWorkers), p) && job in p.sending
    ensures var cfg := ControllerConfig(hubWorkers);
            && (Enabled(cfg, p, Push(job)) <==> |p.queue| < hubWorkers)
            && (forall w :: !Enabled(cfg, p, Clear(w))) && (forall other :: !Enabled(cfg, p, Load(other)))
            && (|p.queue| == hubWorkers > 0 ==>
                  && Enabled(cfg, p, Receive)
                  && Enabled(cfg, Next(cfg, p, Receive), Push(job))
                  && LockFree(cfg, Next(cfg, Next(cfg, p, Receive), Push(job))))
  {
    if |p.queue| == hubWorkers > 0 {
      BlockedSendIsFreed(ControllerConfig(hubWorkers), p, job);
    }
  }

  /** Between sends a controller can load any job. */
  lemma ControllerMayLoad<J(!new)>(hubWorkers: nat, p: Pool<J>, job: J)
    requires Inv(ControllerConfig(hubWorkers), p)
    ensures Enabled(ControllerConfig(hubWorkers), p, Load(job)) <==> p.sending == multiset{}
  {
  }

  /** The arbiter's queue takes none, so a job goes straight to the dispatcher; and
      no lock is held meanwhile. */
  lemma ArbiterHandsOver<J(!new)>(p: Pool<J>, job: J)
    requires Inv(ArbiterConfig(), p)
    ensures !Enabled(ArbiterConfig(), p, Push(job))
    ensures Enabled(ArbiterConfig(), p, Handoff(job)) <==> job in p.sending
    ensures Enabled(ArbiterConfig(), p, Load(job))
    ensures forall w | 0 <= w < |p.workers| && p.workers[w].Fetched? :: Enabled(ArbiterConfig(), p, Clear(w))
  {
  }

  // ---- first in, first out ----

  /** The jobs sent on the queue, into its buffer or to the waiting dispatcher, in
      order. */
  ghost function Entered<J>(steps: seq<Step<J>>, n: nat): seq<J>
    requires n <= |steps|
  {
    if n == 0 then []
    else Entered(steps, n - 1) + if steps[n - 1].Push? || steps[n - 1].Handoff? then [steps[n - 1].job] else []
  }

  /** The jobs that the dispatcher has started a goroutine for: what its steps add to
      those awaiting a channel. */
  ghost function Taken<J>(states: seq<Pool<J>>, steps: seq<Step<J>>, n: nat): multiset<J>
    requires n <= |steps| < |states|
  {
    if n == 0 then multiset{}
    else Taken(states, steps, n - 1) + if steps[n - 1].Receive? || steps[n - 1].Handoff? then states[n].awaiting - states[n - 1].awaiting else multiset{}
  }

  /** The two buffers over one step: at most one entry comes in at the back or goes
      out at the front, to a goroutine that waits for a channel or with the job that
      took it. */
  lemma StepOnBuffers<J>(cfg: Config, p: Pool<J>, s: Step<J>)
    requires Enabled(cfg, p, s)
    ensures var q := Next(cfg, p, s);
            && (s.Push? ==> q.queue == p.queue + [s.job])
            && (s.Receive? ==> p.queue != [] && q.queue == p.queue[1..] && q.awaiting - p.awaiting == multiset{p.queue[0]})
            && (s.Handoff? ==> p.queue == q.queue == [] && q.awaiting - p.awaiting == multiset{s.job})
            && (!s.Push? && !s.Receive? ==> q.queue == p.queue)
            && (s.Register? ==> q.channels == p.channels + [s.w])
            && (s.TakeChannel? ==> p.channels != [] && q.channels == p.channels[1..] && q.claims == p.claims + [Claim(p.channels[0], s.job)])
            && (!s.Register? && !s.TakeChannel? ==> q.channels == p.channels)
  {
  }

  /** Those that went out are the first of all, and those still in it the rest. */
  ghost predicate InOrder<T>(all: seq<T>, out: multiset<T>, waiting: seq<T>) {
    |waiting| <= |all| && waiting == all[|all| - |waiting|..] && out == multiset(all[..|all| - |waiting|])
  }

  lemma InAtBack<T>(all: seq<T>, out: multiset<T>, waiting: seq<T>, x: T)
    requires InOrder(all, out, waiting)
    ensures InOrder(all + [x], out, waiting + [x])
  {
    assert (all + [x])[..|all| - |waiting|] == all[..|all| - |waiting|];
  }

  lemma OutAtFront<T>(all: seq<T>, out: multiset<T>, waiting: seq<T>)
    requires InOrder(all, out, waiting) && waiting != []
    ensures InOrder(all, out + multiset{waiting[0]}, waiting[1..])
  {
    var n := |all| - |waiting|;
    assert all[..n + 1] == all[..n] + [waiting[0]];
  }

  lemma StraightThrough<T>(all: seq<T>, out: multiset<T>, x: T)
    requires InOrder(all, out, [])
    ensures InOrder(all + [x], out + multiset{x}, [])
  {
    assert all[..|all|] == all && (all + [x])[..|all| + 1] == all + [x];
  }

  lemma StepInOrder<J>(cfg: Config, p: Pool<J>, s: Step<J>, all: seq<J>, out: multiset<J>)
    requires Enabled(cfg, p, s) && InOrder(all, out, p.queue)
    ensures var q := Next(cfg, p, s);
            InOrder(all + (if s.Push? || s.Handoff? then [s.job] else []),
                    out + (if s.Receive? || s.Handoff? then q.awaiting - p.awaiting else multiset{}), q.queue)
  {
    hide Next, Enabled, InOrder;
    StepOnBuffers(cfg, p, s);
    assert all + [] == all && out + multiset{} == out;
    if s.Push? {
      InAtBack(all, out, p.queue, s.job);
    } else if s.Receive? {
      OutAtFront(all, out, p.queue);
    } else if s.Handoff? {
      StraightThrough(all, out, s.job);
    }
  }

  lemma OrderOfStep<J>(states: seq<Pool<J>>, steps: seq<Step<J>>, n: nat)
    requires 0 < n <= |steps| < |states|
    ensures var s := steps[n - 1];
            && Entered(steps, n) == Entered(steps, n - 1) + (if s.Push? || s.Handoff? then [s.job] else [])
            && Taken(states, steps, n) == Taken(states, steps, n - 1)
                 + (if s.Receive? || s.Handoff? then states[n].awaiting - states[n - 1].awaiting else multiset{})
  {
  }

  /** The dispatcher takes the jobs in the order in which they were sent: those taken
      are the first, and those in the buffer the rest. */
  lemma {:induction false} QueueIsFifo<J>(cfg: Config, states: seq<Pool<J>>, steps: seq<Step<J>>, n: nat)
    requires IsRun(cfg, states, steps) && states[0] == Start(cfg) && n <= |steps|
    ensures InOrder(Entered(steps, n), Taken(states, steps, n), states[n].queue)
  {
    hide *;
    if n == 0 {
      NothingSent(cfg, states, steps);
    } else {
      QueueIsFifo(cfg, states, steps, n - 1);
      StepOfRun(cfg, states, steps, n);
      StepInOrder(cfg, states[n - 1], steps[n - 1], Entered(steps, n - 1), Taken(states, steps, n - 1));
      OrderOfStep(states, steps, n);
    }
  }

  lemma NothingSent<J>(cfg: Config, states: seq<Pool<J>>, steps: seq<Step<J>>)
    requires IsRun(cfg, states, steps) && states[0] == Start(cfg)
    ensures InOrder(Entered(steps, 0), Taken(states, steps, 0), states[0].queue)
  {
    assert states[0].queue == [];
  }

  lemma StepOfRun<J>(cfg: Config, states: seq<Pool<J>>, steps: seq<Step<J>>, n: nat)
    requires IsRun(cfg, states, steps) && 0 < n <= |steps|
    ensures |states| == |steps| + 1
    ensures Enabled(cfg, states[n - 1], steps[n - 1]) && states[n] == Next(cfg, states[n - 1], steps[n - 1])
  {
  }

  /** The workers whose channels were returned to the pool, in order. */
  ghost function Returned<J>(steps: seq<Step<J>>, n: nat): seq<nat>
    requires n <= |steps|
  {
    if n == 0 then []
    else Returned(steps, n - 1) + if steps[n - 1].Register? then [steps[n - 1].w] else []
  }

  /** The workers whose channels were taken out of it: those of the latest claims. */
  ghost function Claimed<J>(states: seq<Pool<J>>, steps: seq<Step<J>>, n: nat): seq<nat>
    requires n <= |steps| < |states|
  {
    if n == 0 then [] else Claimed(states, steps, n - 1) + (if steps[n - 1].TakeChannel? then LatestClaim(states[n]) else [])
  }

  ghost function LatestClaim<J>(p: Pool<J>): seq<nat> {
    if p.claims == [] then [] else [p.claims[|p.claims| - 1].worker]
  }

  lemma StepTakesTurns<J>(cfg: Config, p: Pool<J>, s: Step<J>)
    requires Enabled(cfg, p, s)
    ensures (if s.TakeChannel? then LatestClaim(Next(cfg, p, s)) else []) + Next(cfg, p, s).channels ==
            p.channels + (if s.Register? then [s.w] else [])
  {
    hide Next, Enabled;
    StepOnBuffers(cfg, p, s);
  }

  lemma Regroup(c: seq<nat>, l: seq<nat>, ch': seq<nat>, ch: seq<nat>, r: seq<nat>)
    requires l + ch' == ch + r
    ensures c + l + ch' == c + ch + r
  {
    assert c + l + ch' == c + (l + ch') && c + ch + r == c + (ch + r);
  }

  /** Workers get jobs in the order in which they returned their channels. */
  lemma {:induction false} WorkersTakeTurns<J>(cfg: Config, states: seq<Pool<J>>, steps: seq<Step<J>>, n: nat)
    requires IsRun(cfg, states, steps) && states[0] == Start(cfg) && n <= |steps|
    ensures Claimed(states, steps, n) + states[n].channels == Returned(steps, n)
  {
    if n == 0 {
      assert states[0].channels == [];
    } else {
      hide *;
      WorkersTakeTurns(cfg, states, steps, n - 1);
      StepOfRun(cfg, states, steps, n);
      var p, s, q := states[n - 1], steps[n - 1], states[n];
      StepTakesTurns(cfg, p, s);
      var c, l, r := Claimed(states, steps, n - 1), if s.TakeChannel? then LatestClaim(q) else [], if s.Register? then [s.w] else [];
      Regroup(c, l, q.channels, p.channels, r);
      TurnsOfStep(states, steps, n);
    }
  }

  lemma TurnsOfStep<J>(states: seq<Pool<J>>, steps: seq<Step<J>>, n: nat)
    requires 0 < n <= |steps| < |states|
    ensures Claimed(states, steps, n) == Claimed(states, steps, n - 1) + (if steps[n - 1].TakeChannel? then LatestClaim(states[n]) else [])
    ensures Returned(steps, n) == Returned(steps, n - 1) + (if steps[n - 1].Register? then [steps[n - 1].w] else [])
  {
  }
}
