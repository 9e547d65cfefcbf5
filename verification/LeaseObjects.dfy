/** The arbiter and its controller records as the mutable objects they are. Each
    method leaves the state that the tables of LeaseTables prescribe; what those
    tables keep over whole runs is proved beside them. */
module LeaseObjects {
  import opened LeaseTables
  import opened LeaseProtocol

  /** What every request keeps, whoever sends it: leases and lists that back each
      other, and each controller's workers. */
  ghost predicate Kept(h: Spec -> Hash, t: Tables, t': Tables) {
    && (Backed(h, t) ==> Backed(h, t'))
    && forall capacity | WorkersConserved(t, capacity) :: WorkersConserved(t', capacity)
  }

  lemma SectionKeeps(h: Spec -> Hash, t: Tables, r: Request)
    requires r.Servable(t) && (Backed(h, t) ==> RequestGood(h, t, r))
    ensures Kept(h, t, Handle(h, t, r).0)
    ensures Backed(h, t) && Handle(h, t, r).1.Continue? ==> RequestGood(h, Handle(h, t, r).0, Handle(h, t, r).1.next)
  {
    hide Handle, Backed, RequestGood, WorkersConserved;
    if Backed(h, t) {
      HandleKeepsBacked(h, t, r);
    }
    forall capacity | WorkersConserved(t, capacity) ensures WorkersConserved(Handle(h, t, r).0, capacity) {
      HandleKeepsWorkers(h, t, r, capacity);
      var t' := Handle(h, t, r).0;
      assert SameControllers(t, t', capacity);
    }
  }

  lemma ServeKeeps(h: Spec -> Hash, t: Tables, r: Request)
    requires r.Arriving()
    ensures Kept(h, t, Serve(h, t, r).0)
  {
    var (t', out) := Handle(h, t, r);
    SectionKeeps(h, t, r);
    if out.Continue? {
      hide Backed, RequestGood, WorkersConserved;
      assert t' == t;
      SectionKeeps(h, t, out.next);
      assert Serve(h, t, r).0 == Handle(h, t, out.next).0;
    }
  }

  class ControllerDaemon {
    const id: Id
    var workerCount: int
    var requestedScans: map<Spec, Hash>
    var assignedScans: set<Spec>

    function View(): Daemon
      reads this
    {
      Daemon(workerCount, requestedScans, assignedScans)
    }

    constructor (id: Id, workers: int)
      ensures this.id == id && View() == NewDaemon(workers)
    {
      this.id, workerCount, requestedScans, assignedScans := id, workers, map[], {};
    }

    method AssignScan(spec: Spec) returns (ok: bool)
      modifies this
      ensures ok == old(View()).Accepts(spec)
      ensures View() == old(View()).AssignScan(spec)
    {
      if spec !in requestedScans {
        return false;
      }
      if spec in assignedScans {
        return true;
      }
      if workerCount > 0 {
        assignedScans := assignedScans + {spec};
        workerCount := workerCount - 1;
        return true;
      }
      return false;
    }

    method CompleteScan(spec: Spec)
      modifies this
      ensures View() == old(View()).FinishScan(spec)
    {
      requestedScans := requestedScans - {spec};
      if spec in assignedScans {
        assignedScans := assignedScans - {spec};
        workerCount := workerCount + 1;
      }
    }

    method AbortScan(spec: Spec)
      modifies this
      ensures View() == old(View()).FinishScan(spec)
    {
      requestedScans := requestedScans - {spec};
      if spec in assignedScans {
        assignedScans := assignedScans - {spec};
        workerCount := workerCount + 1;
      }
    }

    method SkipScan(spec: Spec)
      modifies this
      ensures View() == old(View()).SkipScan(spec)
    {
      requestedScans := requestedScans - {spec};
    }

    method AddScanRequest(spec: Spec, hash: Hash)
      modifies this
      ensures View() == old(View()).AddScanRequest(spec, hash)
    {
      requestedScans := requestedScans[spec := hash];
    }
  }

  class Arbiter {
    const h: Spec -> Hash
    var controllerDaemons: map<Id, ControllerDaemon>
    var images: map<Spec, bool> // an image record, by its `scanned` flag
    var requestedImages: map<Spec, Hash>
    var assignedImages: map<Hash, Lease>
    var wait: int // the WaitGroup's counter

    ghost function Objects(): set<ControllerDaemon>
      reads this
    {
      controllerDaemons.Values
    }

    ghost predicate Valid()
      reads this, Objects()
    {
      forall i | i in controllerDaemons :: controllerDaemons[i].id == i
    }

    ghost function View(): Tables
      reads this, Objects()
    {
      Tables(
        map i | i in controllerDaemons :: controllerDaemons[i].View(),
        images,
        requestedImages,
        assignedImages)
    }

    ghost predicate Knows(cd: ControllerDaemon)
      reads this, cd
    {
      cd.id in controllerDaemons && controllerDaemons[cd.id] == cd
    }

    /** The objects hold the tables `t`, entry by entry. */
    ghost predicate Shows(t: Tables)
      reads this, Objects()
    {
      && t.images == images && t.requestedImages == requestedImages && t.assignedImages == assignedImages
      && t.daemons.Keys == controllerDaemons.Keys
      && (forall i | i in controllerDaemons :: t.daemons[i] == controllerDaemons[i].View())
    }

    lemma ShownIsView(t: Tables)
      requires Shows(t)
      ensures View() == t
    {
      assert View().daemons == t.daemons;
    }

    constructor (h: Spec -> Hash)
      ensures Valid() && this.h == h && wait == 0
      ensures View() == Tables(map[], map[], map[], map[]) && Objects() == {}
    {
      this.h := h;
      controllerDaemons, images, requestedImages, assignedImages := map[], map[], map[], map[];
      wait := 0;
    }

    method RegisterControllerAlive(id: Id, workers: int) returns (reply: Reply)
      requires Valid()
      modifies this`controllerDaemons
      ensures Valid() && fresh(Objects() - old(Objects()))
      ensures View() == LeaseTables.RegisterControllerAlive(old(View()), id, workers)
      ensures reply == if id == "" then NotFound else Created("")
    {
      if |id| == 0 {
        return NotFound;
      }
      if id !in controllerDaemons {
        ghost var w := LeaseTables.RegisterControllerAlive(View(), id, workers);
        var cd := new ControllerDaemon(id, workers);
        controllerDaemons := controllerDaemons[id := cd];
        ShownIsView(w);
      }
      return Created("");
    }

    method SetImageStatus(scanned: bool, spec: Spec)
      requires Valid()
      modifies this`images
      ensures Valid()
      ensures View() == LeaseTables.SetImageStatus(old(View()), spec, scanned)
      ensures images.Keys == old(images).Keys
      ensures forall s | s in images :: images[s] == if s == spec then scanned else old(images)[s]
    {
      if spec in images {
        images := images[spec := scanned];
      }
    }

    /** Called at the end of a notification job, which has been counted in. */
    method DoneScan(scanned: bool, spec: Spec)
      requires Valid() && wait > 0
      modifies this`wait, this`images
      ensures Valid()
      ensures View() == LeaseTables.SetImageStatus(old(View()), spec, scanned)
      ensures images.Keys == old(images).Keys
      ensures forall s | s in images :: images[s] == if s == spec then scanned else old(images)[s]
      ensures wait == old(wait) - 1
    {
      SetImageStatus(scanned, spec);
      wait := wait - 1;
    }

    /** A new reference without a digest makes newScanImage panic, here on a
        goroutine that nobody recovers: `crashed` is the end of the program. */
    method AddImage(spec: Spec) returns (crashed: bool)
      requires Valid()
      modifies this`images
      ensures Valid()
      ensures View() == LeaseTables.AddImage(old(View()), spec)
      ensures crashed == (spec !in old(images) && !HasDigest(spec))
      ensures !crashed ==> spec in images && images[spec] == (spec in old(images) && old(images)[spec])
    {
      if spec !in images {
        if '@' !in spec {
          return true;
        }
        images := images[spec := false];
      }
      return false;
    }

    method RemoveImage(spec: Spec)
      requires Valid()
      modifies this`images
      ensures Valid()
      ensures View() == LeaseTables.RemoveImage(old(View()), spec)
      ensures images.Keys == old(images).Keys - {spec}
      ensures forall s | s in images :: images[s] == old(images)[s]
    {
      images := images - {spec};
    }

    method CanSendHubJobs() returns (ok: bool)
      requires Valid()
      ensures ok == LeaseTables.CanSendHubJobs(View())
    {
      ok := |assignedImages| < 7;
    }

    method FindWorker(spec: Spec, cd: ControllerDaemon) returns (answer: Answer)
      requires Valid() && Knows(cd)
      modifies this`assignedImages, cd
      ensures Valid() && Objects() == old(Objects())
      ensures (View(), answer) == LeaseTables.FindWorker(old(View()), cd.id, spec)
    {
      ghost var t := View();
      if spec !in images {
        return RETRY;
      }
      if images[spec] {
        return SKIP;
      }
      if spec !in requestedImages {
        return SKIP;
      }
      var hash := requestedImages[spec];
      if hash in assignedImages && cd.id != assignedImages[hash].controllerId {
        return RETRY;
      }
      var ok := cd.AssignScan(spec);
      if !ok {
        ShownIsView(t);
        return RETRY;
      }
      assignedImages := assignedImages[hash := Lease(cd.id, spec)];
      ShownIsView(LeaseTables.FindWorker(t, cd.id, spec).0);
      return Answer(hash, true, false);
    }

    /** The first half of saveFoundImage: puts the spec in the request table and,
        if need be, in the image table. `dropped` is a panic part way. */
    method RequestImage(spec: Spec) returns (hash: Hash, dropped: bool)
      requires Valid()
      modifies this`requestedImages, this`images
      ensures hash == (if old(spec in requestedImages) then old(requestedImages)[spec] else h(spec))
      ensures requestedImages == old(requestedImages)[spec := hash]
      ensures dropped == SavePanics(old(View()), spec)
      ensures images == if old(spec in requestedImages) || dropped then old(images)
                        else LeaseTables.AddImage(old(View()), spec).images
    {
      if spec in requestedImages {
        return requestedImages[spec], false;
      }
      hash := h(spec);
      requestedImages := requestedImages[spec := hash];
      if spec !in images {
        if '@' !in spec {
          return hash, true;
        }
        images := images[spec := false];
      }
      return hash, false;
    }

    method SaveFoundImage(spec: Spec, cd: ControllerDaemon) returns (hash: Hash, dropped: bool)
      requires Valid() && Knows(cd)
      modifies this`requestedImages, this`images, cd
      ensures Valid() && Objects() == old(Objects())
      ensures View() == LeaseTables.SaveFoundImage(h, old(View()), cd.id, spec)
      ensures dropped == SavePanics(old(View()), spec)
      ensures spec in requestedImages && hash == requestedImages[spec]
    {
      ghost var w := LeaseTables.SaveFoundImage(h, View(), cd.id, spec);
      hash, dropped := RequestImage(spec);
      if !dropped {
        cd.AddScanRequest(spec, hash);
      }
      ShownIsView(w);
    }

    method FinalizeScan(image: Lease, cd: ControllerDaemon, hash: Hash)
      requires Valid() && Knows(cd)
      modifies this`images, this`requestedImages, this`assignedImages, Objects()
      ensures Valid() && Objects() == old(Objects())
      ensures View() == LeaseTables.FinalizeScan(old(View()), cd.id, hash, image.imageSpec)
      ensures images.Keys == old(images).Keys
      ensures forall s | s in images :: images[s] == (old(images)[s] || s == image.imageSpec)
    {
      ghost var t := View();
      SetImageStatus(true, image.imageSpec);
      CompleteAndStandDown(image.imageSpec, cd);
      requestedImages := requestedImages - {image.imageSpec};
      assignedImages := assignedImages - {hash};
      Finalized(t, cd.id, hash, image.imageSpec);
    }

    lemma Finalized(t: Tables, c: Id, hash: Hash, spec: Spec)
      requires c in t.daemons && t.daemons.Keys == controllerDaemons.Keys
      requires images == LeaseTables.SetImageStatus(t, spec, true).images
      requires requestedImages == t.requestedImages - {spec} && assignedImages == t.assignedImages - {hash}
      requires forall i | i in controllerDaemons ::
                 controllerDaemons[i].View() == if i == c then t.daemons[i].FinishScan(spec) else t.daemons[i].SkipScan(spec)
      ensures View() == LeaseTables.FinalizeScan(t, c, hash, spec)
    {
      ShownIsView(LeaseTables.FinalizeScan(t, c, hash, spec));
    }

    /** The scanning controller completes, its peers skip, in whatever order the
        map yields them. */
    method CompleteAndStandDown(spec: Spec, cd: ControllerDaemon)
      requires Valid() && Knows(cd)
      modifies Objects()
      ensures forall i | i in controllerDaemons ::
                controllerDaemons[i].View() ==
                if i == cd.id then old(controllerDaemons[i].View()).FinishScan(spec)
                else old(controllerDaemons[i].View()).SkipScan(spec)
    {
      cd.CompleteScan(spec);
      var todo := controllerDaemons.Keys;
      while todo != {}
        invariant todo <= controllerDaemons.Keys
        invariant forall i | i in controllerDaemons ::
                    controllerDaemons[i].View() ==
                    if i == cd.id then old(controllerDaemons[i].View()).FinishScan(spec)
                    else if i in todo then old(controllerDaemons[i].View())
                    else old(controllerDaemons[i].View()).SkipScan(spec)
        decreases |todo|
      {
        var i :| i in todo;
        todo := todo - {i};
        var peer := controllerDaemons[i];
        if cd.id != peer.id {
          peer.SkipScan(spec);
        }
      }
    }

    method ReleaseScanForPeer(image: Lease, cd: ControllerDaemon, hash: Hash)
      requires Valid() && Knows(cd)
      modifies this`assignedImages, cd
      ensures Valid() && Objects() == old(Objects())
      ensures View() == LeaseTables.ReleaseScanForPeer(old(View()), cd.id, hash, image.imageSpec)
    {
      ghost var w := LeaseTables.ReleaseScanForPeer(View(), cd.id, hash, image.imageSpec);
      cd.AbortScan(image.imageSpec);
      assignedImages := assignedImages - {hash};
      ShownIsView(w);
    }

    method FoundImage(id: Id, spec: Spec, imageId: string) returns (reply: Reply)
      requires Valid()
      modifies this, Objects()
      ensures Valid() && Objects() == old(Objects()) && wait == old(wait)
      ensures (View(), reply) == Serve(h, old(View()), Found(id, spec, imageId))
      ensures Kept(h, old(View()), View())
    {
      ServeKeeps(h, View(), Found(id, spec, imageId));
      if |id| == 0 || |spec| == 0 || |imageId| == 0 {
        return NotFound;
      }
      if id !in controllerDaemons {
        return ServerError;
      }
      var cd := controllerDaemons[id];
      if spec in requestedImages {
        var hash := requestedImages[spec];
        if hash in assignedImages && cd.id == assignedImages[hash].controllerId {
          return TooMany;
        }
      }
      var hash, dropped := SaveFoundImage(spec, cd);
      reply := if dropped then Dropped else Created(hash);
    }

    method AssignScan(id: Id, spec: Spec) returns (reply: Reply)
      requires Valid()
      modifies this, Objects()
      ensures Valid() && Objects() == old(Objects()) && wait == old(wait)
      ensures (View(), reply) == Serve(h, old(View()), Poll(id, spec))
      ensures Kept(h, old(View()), View())
    {
      ServeKeeps(h, View(), Poll(id, spec));
      if |id| == 0 || |spec| == 0 {
        return NotFound;
      }
      var ok := CanSendHubJobs();
      if !ok {
        return Granted(RETRY);
      }
      if id !in controllerDaemons {
        return NotFound;
      }
      var answer := FindWorker(spec, controllerDaemons[id]);
      return Granted(answer);
    }

    method ScanDone(id: Id, hash: Hash) returns (reply: Reply)
      requires Valid()
      modifies this, Objects()
      ensures Valid() && Objects() == old(Objects()) && wait == old(wait)
      ensures (View(), reply) == Serve(h, old(View()), Release(id, hash, true))
      ensures Kept(h, old(View()), View())
    {
      ServeKeeps(h, View(), Release(id, hash, true));
      if id !in controllerDaemons || hash !in assignedImages {
        return NotFound;
      }
      FinalizeScan(assignedImages[hash], controllerDaemons[id], hash);
      return Accepted;
    }

    method ScanAbort(id: Id, hash: Hash) returns (reply: Reply)
      requires Valid()
      modifies this, Objects()
      ensures Valid() && Objects() == old(Objects()) && wait == old(wait)
      ensures (View(), reply) == Serve(h, old(View()), Release(id, hash, false))
      ensures Kept(h, old(View()), View())
    {
      ServeKeeps(h, View(), Release(id, hash, false));
      if id !in controllerDaemons || hash !in assignedImages {
        return NotFound;
      }
      ReleaseScanForPeer(assignedImages[hash], controllerDaemons[id], hash);
      return Accepted;
    }

    /** Counts in and sends one job for every image in the table. */
    method QueueImagesForNotification() returns (sent: seq<Spec>)
      requires Valid()
      modifies this`wait
      ensures wait == old(wait) + |images|
      ensures multiset(sent) == multiset(images.Keys)
    {
      sent := [];
      var todo := images.Keys;
      while todo != {}
        invariant todo <= images.Keys
        invariant multiset(sent) + multiset(todo) == multiset(images.Keys)
        invariant wait + |todo| == old(wait) + |images|
        decreases |todo|
      {
        var spec :| spec in todo;
        todo := todo - {spec};
        wait := wait + 1;
        sent := sent + [spec];
      }
    }
  }
}
