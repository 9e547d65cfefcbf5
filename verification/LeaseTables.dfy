/** The arbiter's lease tables as values, and what each locked section of a
    handler does to them. The hash of an image spec (MD5 in the program) is the
    parameter `h` throughout. */
module LeaseTables {

  type Id = string
  type Spec = string
  type Hash = string

  /** What the arbiter remembers about one controller. */
  datatype Daemon = Daemon(
    workerCount: int,
    requestedScans: map<Spec, Hash>,
    assignedScans: set<Spec>)
  {
    function AddScanRequest(spec: Spec, hash: Hash): Daemon {
      this.(requestedScans := requestedScans[spec := hash])
    }

    /** True when AssignScan answers true. */
    predicate Accepts(spec: Spec) {
      spec in requestedScans && (spec in assignedScans || workerCount > 0)
    }

    /** A claim that is repeated takes no second worker. */
    function AssignScan(spec: Spec): Daemon {
      if Accepts(spec) && spec !in assignedScans
      then this.(assignedScans := assignedScans + {spec}, workerCount := workerCount - 1)
      else this
    }

    /** CompleteScan and AbortScan change the record alike. */
    function FinishScan(spec: Spec): Daemon {
      if spec in assignedScans
      then Daemon(workerCount + 1, requestedScans - {spec}, assignedScans - {spec})
      else this.(requestedScans := requestedScans - {spec})
    }

    function SkipScan(spec: Spec): Daemon {
      this.(requestedScans := requestedScans - {spec})
    }
  }

  function NewDaemon(workers: int): Daemon {
    Daemon(workers, map[], {})
  }

  datatype Lease = Lease(controllerId: Id, imageSpec: Spec)

  datatype Tables = Tables(
    daemons: map<Id, Daemon>,
    images: map<Spec, bool>,              // the value is the image's `scanned` flag
    requestedImages: map<Spec, Hash>,
    assignedImages: map<Hash, Lease>)

  datatype Answer = Answer(requestId: Hash, startScan: bool, skipScan: bool)

  const RETRY := Answer("", false, false)
  const SKIP := Answer("", false, true)

  const MAX_HUB_JOBS := 7

  predicate CanSendHubJobs(t: Tables) {
    |t.assignedImages| < MAX_HUB_JOBS
  }

  function FindWorker(t: Tables, c: Id, spec: Spec): (Tables, Answer)
    requires c in t.daemons
  {
    if spec !in t.images then (t, RETRY)
    else if t.images[spec] then (t, SKIP)
    else if spec !in t.requestedImages then (t, SKIP)
    else
      var hash := t.requestedImages[spec];
      if hash in t.assignedImages && t.assignedImages[hash].controllerId != c then (t, RETRY)
      else if !t.daemons[c].Accepts(spec) then (t, RETRY)
      else
        (t.(daemons := t.daemons[c := t.daemons[c].AssignScan(spec)],
            assignedImages := t.assignedImages[hash := Lease(c, spec)]),
         Answer(hash, true, false))
  }

  /** An image record can only be built for a reference holding an '@'; without
      one the program indexes past the end of the split and panics. */
  predicate HasDigest(spec: Spec) {
    '@' in spec
  }

  function AddImage(t: Tables, spec: Spec): Tables {
    if spec in t.images || !HasDigest(spec) then t
    else t.(images := t.images[spec := false])
  }

  function RemoveImage(t: Tables, spec: Spec): Tables {
    t.(images := t.images - {spec})
  }

  function SetImageStatus(t: Tables, spec: Spec, scanned: bool): Tables {
    if spec in t.images then t.(images := t.images[spec := scanned]) else t
  }

  /** True when saveFoundImage panics: the spec is neither requested nor known
      and has no digest part. The request table has been written by then. */
  predicate SavePanics(t: Tables, spec: Spec) {
    spec !in t.requestedImages && spec !in t.images && !HasDigest(spec)
  }

  function SaveFoundImage(h: Spec -> Hash, t: Tables, c: Id, spec: Spec): Tables
    requires c in t.daemons
  {
    if spec in t.requestedImages then
      t.(daemons := t.daemons[c := t.daemons[c].AddScanRequest(spec, t.requestedImages[spec])])
    else
      var requested := t.(requestedImages := t.requestedImages[spec := h(spec)]);
      if SavePanics(t, spec) then requested
      else
        AddImage(requested, spec).(daemons := t.daemons[c := t.daemons[c].AddScanRequest(spec, h(spec))])
  }

  function FinalizeScan(t: Tables, c: Id, hash: Hash, spec: Spec): Tables
    requires c in t.daemons
  {
    Tables(
      map i | i in t.daemons :: if i == c then t.daemons[i].FinishScan(spec) else t.daemons[i].SkipScan(spec),
      SetImageStatus(t, spec, true).images,
      t.requestedImages - {spec},
      t.assignedImages - {hash})
  }

  function ReleaseScanForPeer(t: Tables, c: Id, hash: Hash, spec: Spec): Tables
    requires c in t.daemons
  {
    t.(daemons := t.daemons[c := t.daemons[c].FinishScan(spec)],
       assignedImages := t.assignedImages - {hash})
  }

  function RegisterControllerAlive(t: Tables, c: Id, workers: int): Tables {
    if c == "" || c in t.daemons then t
    else t.(daemons := t.daemons[c := NewDaemon(workers)])
  }

  /** A request being served. Found, Poll and Release are as they arrive; Save,
      Find and Finish are the same requests past their unlocked checks, about to
      enter the locked section with the record they have already read. */
  datatype Request =
    | Found(id: Id, spec: Spec, imageId: string)
    | Save(id: Id, spec: Spec)
    | Poll(id: Id, spec: Spec)
    | Find(id: Id, spec: Spec)
    | Release(id: Id, hash: Hash, completed: bool)
    | Finish(id: Id, hash: Hash, spec: Spec, completed: bool)
  {
    predicate Arriving() { Found? || Poll? || Release? }

    /** The locked sections hold a pointer to a registered controller. */
    predicate Servable(t: Tables) { Arriving() || id in t.daemons }
  }

  /** How a handler answers; Dropped is a connection closed by a panic. */
  datatype Reply = NotFound | ServerError | TooMany | Created(hash: Hash) | Granted(answer: Answer) | Accepted | Dropped

  datatype Outcome = Continue(next: Request) | Done(reply: Reply)

  /** True when foundImage turns the caller away because it holds the lease. */
  predicate AlreadyIdentified(t: Tables, c: Id, spec: Spec) {
    spec in t.requestedImages &&
    var hash := t.requestedImages[spec];
    hash in t.assignedImages && t.assignedImages[hash].controllerId == c
  }

  /** One atomic section of a handler. */
  function Handle(h: Spec -> Hash, t: Tables, r: Request): (Tables, Outcome)
    requires r.Servable(t)
  {
    match r
    case Found(c, spec, imageId) =>
      if c == "" || spec == "" || imageId == "" then (t, Done(NotFound))
      else if c !in t.daemons then (t, Done(ServerError))
      else if AlreadyIdentified(t, c, spec) then (t, Done(TooMany))
      else (t, Continue(Save(c, spec)))
    case Save(c, spec) =>
      var t' := SaveFoundImage(h, t, c, spec);
      (t', Done(if SavePanics(t, spec) then Dropped else Created(t'.requestedImages[spec])))
    case Poll(c, spec) =>
      if c == "" || spec == "" then (t, Done(NotFound))
      else if !CanSendHubJobs(t) then (t, Done(Granted(RETRY)))
      else if c !in t.daemons then (t, Done(NotFound))
      else (t, Continue(Find(c, spec)))
    case Find(c, spec) =>
      var (t', answer) := FindWorker(t, c, spec);
      (t', Done(Granted(answer)))
    case Release(c, hash, completed) =>
      if c !in t.daemons || hash !in t.assignedImages then (t, Done(NotFound))
      else (t, Continue(Finish(c, hash, t.assignedImages[hash].imageSpec, completed)))
    case Finish(c, hash, spec, completed) =>
      (if completed then FinalizeScan(t, c, hash, spec) else ReleaseScanForPeer(t, c, hash, spec), Done(Accepted))
  }

  /** A handler run to its reply with nothing in between. */
  function Serve(h: Spec -> Hash, t: Tables, r: Request): (Tables, Reply)
    requires r.Servable(t)
    decreases r.Arriving()
  {
    var (t', out) := Handle(h, t, r);
    match out
    case Done(reply) => (t', reply)
    case Continue(next) => Serve(h, t', next)
  }
}
