/**
  The client itself, with the budget, the ledger and the compositor it owns; each
  callback is proved to do what Client.dfy says of it.
*/
module LupaClients {
  import opened Arithmetic
  import opened Budgets
  import opened Clients
  import opened Compositors
  import opened Pyramid
  import opened Results
  import ClientRuns
  import L = Ledgers
  import W = Workers

  /** link stands for the transport and posted for what was sent to the worker; log is an observer's. */
  class LupaClient {
    const budget: BitmapBudget
    const ledger: L.DeliveryLedger
    var compositor: CanvasCompositor?
    var pending: map<Job, Pending>
    var link: Link
    var posted: seq<W.Request>
    var connectionId: int
    var epoch: int
    var selected: Option<string>
    var manifest: Option<Manifest>
    var manifestHistory: seq<Manifest>
    var plan: Option<Plan>
    var welcome: Option<int>
    var viewport: bool
    var layout: bool
    var focusMode: bool
    var activeIntent: Option<Intent>
    var lastViewSignature: Option<int>
    var phase: Phase
    var error: bool
    var receivedTiles: int
    var drawnTiles: int
    var discardedTiles: int
    var failedTiles: int
    var releases: int
    var pendingPresentations: int
    var serverDone: bool
    ghost var log: Log

    ghost function NavModel(): Nav
      reads this
    {
      Nav(selected, manifest, manifestHistory, plan, welcome, viewport, layout, focusMode, activeIntent,
          lastViewSignature, serverDone, error)
    }

    ghost function PipeModel(): Pipe
      reads this, budget, ledger, compositor
    {
      Pipe(link, connectionId, epoch, pending, budget.Model(), ledger.Model(),
           if compositor == null then None else Some(compositor.Model()),
           receivedTiles, drawnTiles, discardedTiles, failedTiles, releases, pendingPresentations, posted, log)
    }

    ghost function Model(): Client
      reads this, budget, ledger, compositor
    {
      Client(NavModel(), PipeModel(), phase)
    }

    /** What every callback keeps: the invariants of Client*.dfy, of this object. */
    ghost predicate Valid()
      reads this, budget, ledger, compositor
    {
      ClientRuns.Inv(Model())
    }

    constructor ()
      ensures Valid() && New(Model()) && fresh(budget) && fresh(ledger) && compositor == null
    {
      budget := new BitmapBudget();
      ledger := new L.DeliveryLedger();
      compositor, pending, link, posted := null, map[], Idle, [];
      connectionId, epoch := 0, 0;
      selected, manifest, manifestHistory, plan, welcome := None, None, [], None, None;
      viewport, layout, focusMode, activeIntent, lastViewSignature := false, false, false, None, None;
      phase, error, serverDone := Disconnected, false, false;
      receivedTiles, drawnTiles, discardedTiles, failedTiles, releases, pendingPresentations := 0, 0, 0, 0, 0, 0;
      log := Log(0, multiset{}, [], multiset{}, multiset{}, 0, 0);
      new;
      ClientRuns.NewInv(Model());
    }

    // ----- acknowledgements -----

    method Acknowledge(id: int, connection: int)
      modifies this`releases, this`log, ledger
      ensures PipeModel() == Release(old(PipeModel()), id, connection)
    {
      hide BitmapBudget.Model, L.DeliveryLedger.Model, CanvasCompositor.Model;
      if connection != connectionId || !link.Open? { return; }
      var sent := ledger.ReleaseDelivery(id, connection);
      if sent {
        releases := releases + 1;
        log := log.(acked := log.acked + [id]);
      }
    }

    method RequestSelectiveRetry(id: int, connection: int, ofEpoch: int) returns (requested: bool)
      modifies this`log, ledger
      ensures (PipeModel(), requested) == AskAgain(old(PipeModel()), id, connection, ofEpoch)
    {
      hide BitmapBudget.Model, L.DeliveryLedger.Model, CanvasCompositor.Model;
      if connection != connectionId || ofEpoch != epoch || !link.Open? { return false; }
      requested := ledger.RequestRetryOf(id, connection);
      if requested { log := log.(retries := log.retries + 1); }
    }

    method DiscardDelivery(id: int, connection: int)
      modifies this`releases, this`log, this`discardedTiles, ledger
      ensures PipeModel() == Discard(old(PipeModel()), id, connection)
    {
      hide BitmapBudget.Model, L.DeliveryLedger.Model, CanvasCompositor.Model;
      discardedTiles := discardedTiles + 1;
      Acknowledge(id, connection);
    }

    method UpdateCompletionPhase()
      modifies `phase
      ensures phase == UpdatedPhase(old(phase), NavModel(), |pending|, pendingPresentations)
    {
      hide BitmapBudget.Model, L.DeliveryLedger.Model, CanvasCompositor.Model;
      if error && manifest.None? {
        phase := if welcome.Some? then Ready else Error;
        return;
      }
      var next := TransferPhase(serverDone, |pending|, pendingPresentations, plan.Some?);
      if next.Some? {
        phase := next.value;
      } else if error && manifest.Some? {
        phase := Observing;
      }
    }

    // ----- what the compositor calls back -----

    method CountPresented(e: Entry)
      modifies this`pendingPresentations, this`drawnTiles, this`releases, this`log, ledger
      ensures PipeModel() == Presented(old(PipeModel()), e)
    {
      hide BitmapBudget.Model, L.DeliveryLedger.Model, CanvasCompositor.Model;
      hide Release;
      pendingPresentations := Max(0, pendingPresentations - 1);
      drawnTiles := drawnTiles + 1;
      Acknowledge(e.header.deliveryId, e.connectionId);
    }

    method OnPresented(e: Entry)
      modifies this`pendingPresentations, this`drawnTiles, this`releases, this`log, this`phase, ledger
      ensures Model() == UpdatePhase(old(Model()).(pipe := Presented(old(PipeModel()), e)))
    {
      hide BitmapBudget.Model, L.DeliveryLedger.Model, CanvasCompositor.Model;
      hide Presented, UpdatedPhase;
      CountPresented(e);
      UpdateCompletionPhase();
    }

    method CountDiscarded(e: Entry)
      modifies this`pendingPresentations, this`discardedTiles, this`releases, this`log, ledger
      ensures PipeModel() == Unwanted(old(PipeModel()), e)
    {
      hide BitmapBudget.Model, L.DeliveryLedger.Model, CanvasCompositor.Model;
      hide Discard;
      pendingPresentations := Max(0, pendingPresentations - 1);
      DiscardDelivery(e.header.deliveryId, e.connectionId);
    }

    method OnDiscarded(e: Entry)
      modifies this`pendingPresentations, this`discardedTiles, this`releases, this`log, this`phase, ledger
      ensures Model() == UpdatePhase(old(Model()).(pipe := Unwanted(old(PipeModel()), e)))
    {
      hide BitmapBudget.Model, L.DeliveryLedger.Model, CanvasCompositor.Model;
      hide Unwanted, UpdatedPhase;
      CountDiscarded(e);
      UpdateCompletionPhase();
    }

    method OnRemoved(e: Entry)
      modifies this`pendingPresentations, this`discardedTiles, this`releases, this`log, this`phase, ledger, budget
      ensures Model() == Drop(old(Model()), e)
    {
      hide BitmapBudget.Model, L.DeliveryLedger.Model, CanvasCompositor.Model;
      if !e.presented { OnDiscarded(e); }
      log := log.(closed := log.closed + multiset{e.bitmap});
      budget.RemoveBytes(e.kind, e.bytes);
    }

    method TellGone(gone: seq<Entry>)
      modifies this`pendingPresentations, this`discardedTiles, this`releases, this`log, this`phase, ledger, budget
      ensures Model() == DropAll(old(Model()), gone)
    {
      hide BitmapBudget.Model, L.DeliveryLedger.Model, CanvasCompositor.Model;
      var i := 0;
      while i < |gone|
        invariant 0 <= i <= |gone|
        invariant DropAll(Model(), gone[i..]) == DropAll(old(Model()), gone)
      {
        assert gone[i..][0] == gone[i] && gone[i..][1..] == gone[i + 1..];
        OnRemoved(gone[i]);
        i := i + 1;
      }
    }

    method TellShown(shown: seq<Entry>)
      modifies this`pendingPresentations, this`drawnTiles, this`releases, this`log, this`phase, ledger
      ensures Model() == ShowAll(old(Model()), shown)
    {
      hide BitmapBudget.Model, L.DeliveryLedger.Model, CanvasCompositor.Model;
      var i := 0;
      while i < |shown|
        invariant 0 <= i <= |shown|
        invariant ShowAll(Model(), shown[i..]) == ShowAll(old(Model()), shown)
      {
        assert shown[i..][0] == shown[i] && shown[i..][1..] == shown[i + 1..];
        OnPresented(shown[i]);
        i := i + 1;
      }
    }

    method ResetCompositor()
      modifies this`pendingPresentations, this`discardedTiles, this`releases, this`log, this`phase, ledger, budget,
        compositor
      ensures Model() == ResetCanvas(old(Model()))
    {
      hide BitmapBudget.Model, L.DeliveryLedger.Model, CanvasCompositor.Model;
      if compositor == null { return; }
      var gone := compositor.ResetAll();
      TellGone(gone);
    }

    method StartCompositor(m: Manifest)
      modifies this`pendingPresentations, this`discardedTiles, this`releases, this`log, this`phase, ledger, budget,
        compositor
      ensures Model() == StartCanvas(old(Model()), m)
    {
      hide BitmapBudget.Model, L.DeliveryLedger.Model, CanvasCompositor.Model;
      if compositor == null { return; }
      var gone := compositor.StartWith(m);
      TellGone(gone);
    }

    method BeginCompositor(newEpoch: int)
      modifies this`pendingPresentations, this`discardedTiles, this`releases, this`log, this`phase, ledger, budget,
        compositor
      ensures Model() == BeginOnCanvas(old(Model()), newEpoch)
    {
      hide BitmapBudget.Model, L.DeliveryLedger.Model, CanvasCompositor.Model;
      if compositor == null { return; }
      var gone := compositor.StartEpoch(newEpoch);
      TellGone(gone);
    }

    // ----- failures -----

    method FailWith()
      modifies `error, `phase
      ensures old(Valid()) ==> Valid()
      ensures Model() == Fail(old(Model()))
    {
      hide ClientRuns.Inv;
      if Valid() { ClientRuns.FailKeepsInv(Model()); }
      hide BitmapBudget.Model, L.DeliveryLedger.Model, CanvasCompositor.Model;
      error := true;
      phase := Error;
    }

    method ProtocolViolation()
      modifies `error, `phase, `link
      ensures Model() == Violation(old(Model()))
    {
      hide BitmapBudget.Model, L.DeliveryLedger.Model, CanvasCompositor.Model;
      link := Closing;
      FailWith();
    }

    // ----- image and view -----

    method NextEpoch() returns (next: Option<int>)
      modifies `epoch, `error, `phase
      ensures if old(epoch) >= MAX_EPOCH then next == None && Model() == Fail(old(Model()))
              else next == Some(old(epoch) + 1) && Model() == Advanced(old(Model()))
    {
      hide BitmapBudget.Model, L.DeliveryLedger.Model, CanvasCompositor.Model;
      if epoch >= MAX_EPOCH {
        FailWith();
        return None;
      }
      epoch := epoch + 1;
      return Some(epoch);
    }

    static lemma CancelNone(b: Budget, some: set<Job>, all: set<Job>)
      requires some <= all
      ensures CancelAll(b, some - all) == b
    {
      assert some - all == {};
      assert b.reservations - {} == b.reservations;
    }

    /** One more stale job is cancelled, or the job is not stale. */
    static lemma OneStaleLess(all: map<Job, Pending>, connectionId: int, newEpoch: int, jobs: set<Job>, job: Job)
      requires job in jobs && jobs <= all.Keys
      ensures var stale := StaleJobs(all, connectionId, newEpoch);
              job !in stale - jobs &&
              stale - (jobs - {job}) ==
                if job.connectionId == connectionId && all[job].epoch < newEpoch then stale - jobs + {job}
                else stale - jobs
    {
    }

    /** One turn of the loop below: jobs are those still to come. */
    method CancelIfStale(job: Job, newEpoch: int, ghost before: Budget, ghost jobs: set<Job>)
      requires job in jobs && jobs <= pending.Keys
      requires budget.Model() == CancelAll(before, StaleJobs(pending, connectionId, newEpoch) - jobs)
      modifies budget
      ensures budget.Model() == CancelAll(before, StaleJobs(pending, connectionId, newEpoch) - (jobs - {job}))
    {
      hide CancelAll, Cancel, StaleJobs, BitmapBudget.Model;
      OneStaleLess(pending, connectionId, newEpoch, jobs, job);
      if job.connectionId == connectionId && pending[job].epoch < newEpoch {
        CancelOneMore(before, StaleJobs(pending, connectionId, newEpoch) - jobs, job);
        budget.CancelJob(job);
      }
    }

    /** Gives back the reservations of this connection's pending jobs of earlier epochs. */
    method CancelReservationsBefore(newEpoch: int)
      modifies budget
      ensures budget.Model() == CancelAll(old(budget.Model()), StaleJobs(pending, connectionId, newEpoch))
    {
      ghost var before := budget.Model();
      CancelNone(before, StaleJobs(pending, connectionId, newEpoch), pending.Keys);
      hide CancelAll, StaleJobs, BitmapBudget.Model;
      var jobs := pending.Keys;
      while jobs != {}
        invariant jobs <= pending.Keys
        invariant budget.Model() == CancelAll(before, StaleJobs(pending, connectionId, newEpoch) - jobs)
        decreases |jobs|
      {
        var job :| job in jobs;
        CancelIfStale(job, newEpoch, before, jobs);
        jobs := jobs - {job};
      }
      assert StaleJobs(pending, connectionId, newEpoch) - {} == StaleJobs(pending, connectionId, newEpoch);
    }

    method ClearImage()
      modifies `error, `manifest, `activeIntent, `lastViewSignature, `plan, `serverDone
      ensures manifest == None && activeIntent == None && lastViewSignature == None
      ensures plan == None && !serverDone && !error
    {
      error := false;
      manifest := None;
      activeIntent := None;
      lastViewSignature := None;
      plan := None;
      serverDone := false;
    }

    method ForgetImage()
      modifies `error, `manifest, `activeIntent, `lastViewSignature, `plan, `serverDone, budget
      ensures Model() == Forgetting(old(Model()))
    {
      hide L.DeliveryLedger.Model, CanvasCompositor.Model, CancelAll, StaleJobs;
      CancelReservationsBefore(epoch);
      ClearImage();
    }

    method PostOpen()
      modifies `posted, `phase
      ensures Model() == OpenPosted(old(Model()))
    {
      hide BitmapBudget.Model, L.DeliveryLedger.Model, CanvasCompositor.Model;
      posted := posted + [W.Invalidate(connectionId, epoch)];
      phase := Opening;
    }

    method OpenSelectedImage()
      modifies this`pendingPresentations, this`discardedTiles, this`releases, this`log, this`phase, ledger, budget,
        compositor, this`epoch, this`error, this`activeIntent, this`lastViewSignature, this`plan, this`serverDone,
        this`posted, this`manifest
      ensures Model() == OpenSelected(old(Model()))
    {
      hide ResetCanvas, Forgetting, Advanced, OpenPosted;
      hide BitmapBudget.Model, L.DeliveryLedger.Model, CanvasCompositor.Model;
      if selected.None? { return; }
      var next := NextEpoch();
      if next.None? { return; }
      ForgetImage();
      ResetCompositor();
      PostOpen();
    }

    method NoteRequest(signature: int)
      modifies `lastViewSignature, `serverDone, `plan, `error, `activeIntent, `posted
      ensures lastViewSignature == Some(signature) && !serverDone && plan == None && !error
      ensures activeIntent == Some(Intent(epoch, focusMode))
      ensures posted == old(posted) + [W.Invalidate(connectionId, epoch)]
    {
      lastViewSignature := Some(signature);
      serverDone := false;
      plan := None;
      error := false;
      activeIntent := Some(Intent(epoch, focusMode));
      posted := posted + [W.Invalidate(connectionId, epoch)];
    }

    method AskForView(signature: int)
      modifies `lastViewSignature, `serverDone, `plan, `error, `activeIntent, `posted
      ensures Model() == Asked(old(Model()), signature)
    {
      hide BitmapBudget.Model, L.DeliveryLedger.Model, CanvasCompositor.Model;
      NoteRequest(signature);
    }

    method ExpectTiles()
      modifies `phase
      ensures Model() == Expecting(old(Model()))
    {
      hide BitmapBudget.Model, L.DeliveryLedger.Model, CanvasCompositor.Model;
      phase := Receiving;
    }

    method StartViewOf(signature: int)
      modifies this`pendingPresentations, this`discardedTiles, this`releases, this`log, this`phase, ledger, budget,
        compositor, this`epoch, this`error, this`activeIntent, this`lastViewSignature, this`plan, this`serverDone,
        this`posted
      ensures Model() == StartView(old(Model()), signature)
    {
      hide BeginOnCanvas, Asked, Fail, Expecting;
      hide BitmapBudget.Model, L.DeliveryLedger.Model, CanvasCompositor.Model;
      var next := NextEpoch();
      if next.None? { return; }
      AskForView(signature);
      BeginCompositor(next.value);
      ExpectTiles();
    }

    method RequestViewOf(signature: int)
      modifies this`pendingPresentations, this`discardedTiles, this`releases, this`log, this`phase, ledger, budget,
        compositor, this`epoch, this`error, this`activeIntent, this`lastViewSignature, this`plan, this`serverDone,
        this`posted
      ensures old(Valid()) ==> Valid()
      ensures Model() == RequestView(old(Model()), signature)
    {
      hide ClientRuns.Inv;
      if Valid() { ClientRuns.RequestKeepsInv(Model(), signature); }
      hide StartView;
      hide BitmapBudget.Model, L.DeliveryLedger.Model, CanvasCompositor.Model;
      if manifest.None? || !layout || selected.None? || !link.Open? { return; }
      if lastViewSignature == Some(signature) { return; }
      StartViewOf(signature);
    }

    method RememberManifest(m: Manifest)
      modifies `manifestHistory
      ensures manifestHistory == Remember(old(manifestHistory), m)
    {
      manifestHistory := Forget(manifestHistory, m.imageId, m.imageVersion) + [m];
      ghost var all := manifestHistory;
      while |manifestHistory| > MANIFESTS_KEPT
        invariant |manifestHistory| <= |all| && manifestHistory == all[|all| - |manifestHistory|..]
        invariant |all| > MANIFESTS_KEPT ==> |manifestHistory| >= MANIFESTS_KEPT
        invariant |all| <= MANIFESTS_KEPT ==> manifestHistory == all
      {
        manifestHistory := manifestHistory[1..];
      }
    }

    // ----- what the server says -----

    method HandleWelcome(version: int, maxTileBytes: int)
      modifies this`pendingPresentations, this`discardedTiles, this`releases, this`log, this`phase, ledger, budget,
        compositor, this`epoch, this`error, this`activeIntent, this`lastViewSignature, this`plan, this`serverDone,
        this`posted, this`manifest, this`welcome, this`link
      ensures Model() == OnWelcome(old(Model()), version, maxTileBytes)
    {
      hide BitmapBudget.Model, L.DeliveryLedger.Model, CanvasCompositor.Model;
      if version != LUPA_VERSION {
        ProtocolViolation();
        return;
      }
      welcome := Some(maxTileBytes);
      phase := Ready;
      if selected.Some? { OpenSelectedImage(); }
    }

    method NoteManifest(m: Manifest)
      modifies `manifest, `manifestHistory, `plan, `serverDone, `phase, `layout
      ensures manifest == Some(m) && manifestHistory == Remember(old(manifestHistory), m) && plan == None && !serverDone
      ensures phase == Opening && layout == (old(layout) || viewport)
    {
      hide Remember;
      manifest := Some(m);
      RememberManifest(m);
      plan := None;
      serverDone := false;
      phase := Opening;
      if viewport { layout := true; }
    }

    method KnowManifest(m: Manifest)
      modifies `manifest, `manifestHistory, `plan, `serverDone, `phase, `layout
      ensures Model() == Knowing(old(Model()), m)
    {
      hide Remember;
      hide BitmapBudget.Model, L.DeliveryLedger.Model, CanvasCompositor.Model;
      NoteManifest(m);
    }

    method HandleManifest(raw: Manifest, signature: int)
      modifies this`pendingPresentations, this`discardedTiles, this`releases, this`log, this`phase, ledger, budget,
        compositor, this`epoch, this`error, this`activeIntent, this`lastViewSignature, this`plan, this`serverDone,
        this`posted, this`manifest, this`manifestHistory, this`layout, this`link
      ensures Model() == OnManifest(old(Model()), raw, signature)
    {
      hide StartCanvas, RequestView, Knowing, ParseManifest, Violation;
      hide BitmapBudget.Model, L.DeliveryLedger.Model, CanvasCompositor.Model;
      if 1 <= raw.epoch < epoch { return; }
      if selected.None? {
        ProtocolViolation();
        return;
      }
      var parsed := ParseManifest(raw, selected.value, epoch);
      if parsed.Err? {
        ProtocolViolation();
        return;
      }
      KnowManifest(parsed.value);
      if viewport {
        StartCompositor(parsed.value);
        RequestViewOf(signature);
      }
    }

    method HandlePlan(p: Plan)
      modifies this`error, this`phase, this`link, this`plan
      ensures Model() == OnPlan(old(Model()), p)
    {
      hide BitmapBudget.Model, L.DeliveryLedger.Model, CanvasCompositor.Model;
      if 1 <= p.epoch < epoch { return; }
      if manifest.None? {
        ProtocolViolation();
        return;
      }
      var top := |manifest.value.levels| - 1;
      if !IntBetween(p.epoch, 1, MAX_EPOCH) || !IntBetween(p.appliedLevel, 0, top)
         || !IntBetween(p.contextLevel, 0, top) {
        ProtocolViolation();
        return;
      }
      if p.epoch != epoch {
        ProtocolViolation();
        return;
      }
      plan := Some(p);
      phase := Receiving;
    }

    method HandleDone(ofEpoch: int)
      modifies this`error, this`phase, this`link, this`serverDone
      ensures Model() == OnDone(old(Model()), ofEpoch)
    {
      hide BitmapBudget.Model, L.DeliveryLedger.Model, CanvasCompositor.Model;
      if 1 <= ofEpoch < epoch { return; }
      if !IntBetween(ofEpoch, 1, MAX_EPOCH) || ofEpoch != epoch {
        ProtocolViolation();
        return;
      }
      serverDone := true;
      phase := if |pending| == 0 && pendingPresentations == 0 then Observing else Processing;
    }

    method EndIntent(versionUnsupported: bool)
      modifies `error, `plan, `phase
      ensures Model() == Refusal(old(Model()), versionUnsupported)
    {
      hide BitmapBudget.Model, L.DeliveryLedger.Model, CanvasCompositor.Model;
      error := true;
      if versionUnsupported || welcome.None? {
        phase := Error;
      } else if manifest.None? {
        phase := Ready;
      } else {
        plan := None;
        phase := if |pending| > 0 || pendingPresentations > 0 then Processing else Observing;
      }
    }

    method HandleError(ofEpoch: Option<int>, versionUnsupported: bool)
      modifies this`error, this`phase, this`link, this`plan
      ensures Model() == OnRefused(old(Model()), ofEpoch, versionUnsupported)
    {
      hide Violation, Refusal;
      hide BitmapBudget.Model, L.DeliveryLedger.Model, CanvasCompositor.Model;
      if ofEpoch.Some? && !IntBetween(ofEpoch.value, 1, MAX_EPOCH) {
        ProtocolViolation();
        return;
      }
      if ofEpoch.Some? && ofEpoch.value < epoch { return; }
      if ofEpoch.Some? && ofEpoch.value > epoch {
        ProtocolViolation();
        return;
      }
      EndIntent(versionUnsupported);
    }

    method HandleText(control: Control, signature: int)
      requires Valid() && link.Open?
      modifies this`pendingPresentations, this`discardedTiles, this`releases, this`log, this`phase, ledger, budget,
        compositor, this`epoch, this`error, this`activeIntent, this`lastViewSignature, this`plan, this`serverDone,
        this`posted, this`manifest, this`manifestHistory, this`layout, this`link, this`welcome
      ensures Valid()
      ensures Model() == OnText(old(Model()), control, signature)
    {
      hide ClientRuns.Inv;
      ClientRuns.TextKeepsInv(Model(), control, signature);
      hide BitmapBudget.Model, L.DeliveryLedger.Model, CanvasCompositor.Model;
      match control
      case Welcome(version, maxTileBytes) => HandleWelcome(version, maxTileBytes);
      case ManifestIs(m) => HandleManifest(m, signature);
      case PlanIs(p) => HandlePlan(p);
      case Done(ofEpoch) => HandleDone(ofEpoch);
      case Refused(of, versionUnsupported) => HandleError(of, versionUnsupported);
      case Malformed => ProtocolViolation();
    }

    // ----- tiles -----

    method AdmitDelivery(id: int) returns (admitted: bool)
      modifies this`log, ledger
      ensures (PipeModel(), admitted) == Admit(old(PipeModel()), id)
    {
      hide BitmapBudget.Model, L.DeliveryLedger.Model, CanvasCompositor.Model;
      admitted := ledger.RegisterDelivery(id, connectionId);
      if admitted {
        log := log.(registered := log.registered + multiset{id});
      } else {
        admitted := ledger.AcceptRetransmitted(id, connectionId);
      }
    }

    method SendToWorker(h: Header, kind: Kind)
      modifies `pending, `posted, `phase
      ensures pending == old(pending)[Job(connectionId, h.deliveryId) := Pending(h.epoch, DecodedBytes(h), kind)]
      ensures posted == old(posted) + [W.Decode(W.Task(connectionId, h))] && phase == Processing
    {
      hide DecodedBytes;
      pending := pending[Job(connectionId, h.deliveryId) := Pending(h.epoch, DecodedBytes(h), kind)];
      phase := Processing;
      posted := posted + [W.Decode(W.Task(connectionId, h))];
    }

    /** A tile of the current epoch goes to the worker if the budget has room for its bitmap. */
    method ReserveAndSend(h: Header)
      modifies this`phase, this`discardedTiles, this`releases, this`log, this`pending, this`posted, ledger, budget
      ensures Model() == ReservedOrNot(old(Model()), h)
    {
      hide Discard, Classify, DecodedBytes;
      hide L.DeliveryLedger.Model, CanvasCompositor.Model;
      var reserved := budget.ReserveBytes(Job(connectionId, h.deliveryId), DecodedBytes(h));
      if !reserved {
        DiscardDelivery(h.deliveryId, connectionId);
        return;
      }
      var kind := ClassifyTile(h.epoch, h.z);
      SendToWorker(h, kind);
    }

    method HandleDelivery(h: Header)
      modifies this`error, this`phase, this`link, this`discardedTiles, this`releases, this`log, this`pending,
        this`posted, ledger, budget
      ensures Model() == OnDelivery(old(Model()), h)
    {
      hide Discard, ReservedOrNot, Violation;
      hide BitmapBudget.Model, L.DeliveryLedger.Model, CanvasCompositor.Model;
      if h.epoch < epoch {
        DiscardDelivery(h.deliveryId, connectionId);
        return;
      }
      if h.epoch > epoch {
        ProtocolViolation();
        return;
      }
      ReserveAndSend(h);
    }

    method ClassifyTile(ofEpoch: int, z: int) returns (kind: Kind)
      ensures kind == Classify(NavModel(), ofEpoch, z)
    {
      if z == 0 { return Context; }
      if activeIntent.Some? && activeIntent.value.epoch == ofEpoch && activeIntent.value.focus
         && plan.Some? && plan.value.epoch == ofEpoch && z <= plan.value.contextLevel {
        return Context;
      }
      return Detail;
    }

    method HandleTile(h: Header)
      modifies this`error, this`phase, this`link, this`discardedTiles, this`releases, this`log, this`pending,
        this`posted, ledger, budget, this`receivedTiles
      ensures Model() == OnTile(old(Model()), h)
    {
      hide BitmapBudget.Model, L.DeliveryLedger.Model, CanvasCompositor.Model;
      receivedTiles := receivedTiles + 1;
      var admitted := AdmitDelivery(h.deliveryId);
      assert Model() == Received(old(Model()), h);
      if !admitted {
        ProtocolViolation();
        return;
      }
      HandleDelivery(h);
    }

    method HandleBinary(tile: Option<Header>)
      requires Valid() && link.Open? && (tile.Some? ==> IsTileHeader(tile.value))
      modifies this`error, this`phase, this`link, this`discardedTiles, this`releases, this`log, this`pending,
        this`posted, ledger, budget, this`receivedTiles
      ensures Valid()
      ensures Model() == OnBinary(old(Model()), tile)
    {
      hide ClientRuns.Inv;
      ClientRuns.BinaryKeepsInv(Model(), tile);
      hide BitmapBudget.Model, L.DeliveryLedger.Model, CanvasCompositor.Model;
      if welcome.None? { return; }
      if tile.None? || tile.value.payloadBytes > Min(welcome.value, MAX_TILE_PAYLOAD) {
        ProtocolViolation();
        return;
      }
      var known := Lookup(manifestHistory, tile.value.imageId, tile.value.imageVersion);
      if known.None? || known.value.tileSize <= 0 || ValidateTile(tile.value, known.value).Err? {
        ProtocolViolation();
        return;
      }
      HandleTile(tile.value);
    }

    // ----- the worker answers -----

    method CloseBitmap(ghost bitmap: int)
      modifies `log
      ensures log == old(log).(closed := old(log).closed + multiset{bitmap})
    {
      log := log.(closed := log.closed + multiset{bitmap});
    }

    /** A bitmap of another connection, epoch or image. */
    method DiscardTooLate(t: W.Task, bitmap: int)
      modifies this`discardedTiles, this`releases, this`log, ledger, budget
      ensures PipeModel() == TooLate(old(PipeModel()), t, bitmap)
    {
      hide Release, Cancel;
      hide L.DeliveryLedger.Model, CanvasCompositor.Model;
      CloseBitmap(bitmap);
      budget.CancelJob(JobOf(t));
      discardedTiles := discardedTiles + 1;
      if t.connectionId == connectionId { Acknowledge(t.header.deliveryId, t.connectionId); }
    }

    method DiscardNotStored(t: W.Task, bitmap: int, kind: Kind, bytes: Option<int>)
      modifies this`discardedTiles, this`releases, this`log, ledger
      ensures PipeModel() == NotStored(old(PipeModel()), t, bitmap, kind, bytes)
    {
      hide Discard, Leak;
      hide BitmapBudget.Model, L.DeliveryLedger.Model, CanvasCompositor.Model;
      CloseBitmap(bitmap);
      if bytes.Some? { log := Leak(log, kind, bytes.value); }
      DiscardDelivery(t.header.deliveryId, t.connectionId);
    }

    method DiscardRejected(e: Entry)
      modifies this`pendingPresentations, this`discardedTiles, this`releases, this`log, ledger, budget
      ensures PipeModel() == NotAccepted(old(PipeModel()), e)
    {
      hide Discard, RemoveStored;
      hide L.DeliveryLedger.Model, CanvasCompositor.Model;
      CloseBitmap(e.bitmap);
      pendingPresentations := Max(0, pendingPresentations - 1);
      budget.RemoveBytes(e.kind, e.bytes);
      DiscardDelivery(e.header.deliveryId, e.connectionId);
    }

    method CountShowing()
      modifies `pendingPresentations
      ensures Model() == Showing(old(Model()))
    {
      hide BitmapBudget.Model, L.DeliveryLedger.Model, CanvasCompositor.Model;
      pendingPresentations := pendingPresentations + 1;
    }

    method StoreOn(e: Entry) returns (gone: seq<Entry>, accepted: bool)
      requires compositor != null
      modifies compositor
      ensures (gone, accepted) == (Store(old(compositor.Model()), e).1, Store(old(compositor.Model()), e).2)
      ensures Model() == if accepted then OnCanvas(old(Model()), Store(old(compositor.Model()), e).0) else old(Model())
    {
      hide Store;
      hide BitmapBudget.Model, L.DeliveryLedger.Model;
      gone, accepted := compositor.StoreEntry(e);
    }

    method StoreDecoded(e: Entry)
      requires compositor != null
      modifies this`pendingPresentations, this`discardedTiles, this`releases, this`log, this`phase, ledger, budget,
        compositor
      ensures Model() == StoreOnCanvas(old(Model()), old(compositor.Model()), e)
    {
      hide Store, NotAccepted, DropAll, OnCanvas, Showing;
      hide BitmapBudget.Model, L.DeliveryLedger.Model, CanvasCompositor.Model;
      CountShowing();
      var gone, accepted := StoreOn(e);
      if accepted { TellGone(gone); } else { DiscardRejected(e); }
    }

    method CommitDecoded(t: W.Task, bitmap: int, kind: Kind)
      modifies this`pendingPresentations, this`discardedTiles, this`releases, this`log, this`phase, ledger, budget,
        compositor
      ensures Model() == Commits(old(Model()), t, bitmap, kind)
    {
      hide Commit, NotStored, StoreOnCanvas;
      hide L.DeliveryLedger.Model;
      var bytes := budget.CommitJob(JobOf(t), kind);
      if bytes.None? || compositor == null {
        DiscardNotStored(t, bitmap, kind, bytes);
      } else {
        StoreDecoded(EntryOf(t, bitmap, bytes.value, kind));
      }
    }

    method HandleDecoded(t: W.Task, bitmap: int, kind: Kind)
      modifies this`pendingPresentations, this`discardedTiles, this`releases, this`log, this`phase, ledger, budget,
        compositor
      ensures Model() == OnDecoded(old(Model()), t, bitmap, kind)
    {
      hide Commits, TooLate;
      hide BitmapBudget.Model, L.DeliveryLedger.Model, CanvasCompositor.Model;
      if t.connectionId != connectionId || t.header.epoch != epoch || manifest.None?
         || t.header.imageId != manifest.value.imageId || t.header.imageVersion != manifest.value.imageVersion {
        DiscardTooLate(t, bitmap);
      } else {
        CommitDecoded(t, bitmap, kind);
      }
    }

    method HandleUndecoded(t: W.Task, failed: bool)
      modifies this`discardedTiles, this`failedTiles, this`releases, this`log, ledger, budget
      ensures PipeModel() == OnUndecoded(old(PipeModel()), t, failed)
    {
      hide Discard, Release, AskAgain, Cancel;
      hide L.DeliveryLedger.Model, CanvasCompositor.Model;
      budget.CancelJob(JobOf(t));
      if t.connectionId != connectionId { return; }
      if !failed {
        DiscardDelivery(t.header.deliveryId, t.connectionId);
      } else {
        failedTiles := failedTiles + 1;
        var requested := RequestSelectiveRetry(t.header.deliveryId, t.connectionId, t.header.epoch);
        if !requested { Acknowledge(t.header.deliveryId, t.connectionId); }
      }
    }

    method NoteArrival(r: W.Response)
      modifies `log
      ensures PipeModel() == Arrive(old(PipeModel()), r)
    {
      hide BitmapBudget.Model, L.DeliveryLedger.Model, CanvasCompositor.Model;
      ghost var arrived := log.(arrived := log.arrived + if r.Decoded? then multiset{r.bitmap} else multiset{});
      assert r.Decoded? || arrived == log;
      log := arrived;
    }

    method HandleAnswer(r: W.Response, kind: Kind)
      modifies this`pendingPresentations, this`discardedTiles, this`releases, this`log, this`phase, ledger, budget,
        this`failedTiles, compositor
      ensures Model() == OnAnswer(old(Model()), r, kind)
    {
      hide OnDecoded, OnUndecoded;
      hide BitmapBudget.Model, L.DeliveryLedger.Model, CanvasCompositor.Model;
      match r
      case Decoded(t, bitmap) => HandleDecoded(t, bitmap, kind);
      case Discarded(t) => HandleUndecoded(t, false);
      case Failed(t) => HandleUndecoded(t, true);
    }

    method TakePending(job: Job) returns (kind: Kind)
      requires job in pending
      modifies `pending
      ensures PipeModel() == Taken(old(PipeModel()), job) && kind == old(pending)[job].kind
    {
      hide BitmapBudget.Model, L.DeliveryLedger.Model, CanvasCompositor.Model;
      kind := pending[job].kind;
      pending := pending - {job};
    }

    method AnswerPending(r: W.Response)
      requires JobOf(r.task) in pending
      modifies this`pendingPresentations, this`discardedTiles, this`releases, this`log, this`phase, ledger, budget,
        this`failedTiles, this`pending, compositor
      ensures var c := old(Model());
              var d := c.(pipe := Taken(c.pipe, JobOf(r.task)));
              Model() == UpdatePhase(OnAnswer(d, r, old(pending)[JobOf(r.task)].kind))
    {
      hide OnAnswer, UpdatedPhase, Taken;
      hide BitmapBudget.Model, L.DeliveryLedger.Model, CanvasCompositor.Model;
      var kind := TakePending(JobOf(r.task));
      HandleAnswer(r, kind);
      UpdateCompletionPhase();
    }

    method HandleWorker(r: W.Response)
      requires Valid()
      modifies this`pendingPresentations, this`discardedTiles, this`releases, this`log, this`phase, ledger, budget,
        this`failedTiles, this`pending, compositor
      ensures Valid()
      ensures Model() == OnWorker(old(Model()), r)
    {
      hide ClientRuns.Inv;
      ClientRuns.WorkerKeepsInv(Model(), r);
      hide OnAnswer, UpdatePhase, Taken;
      hide BitmapBudget.Model, L.DeliveryLedger.Model, CanvasCompositor.Model;
      NoteArrival(r);
      if JobOf(r.task) in pending {
        AnswerPending(r);
      } else if r.Decoded? {
        CloseBitmap(r.bitmap);
      }
    }

    // ----- painting, canvas and view -----

    method HandleFrame(context: bool)
      requires Valid() && compositor != null && compositor.Model().frame
      modifies this`pendingPresentations, this`drawnTiles, this`releases, this`log, this`phase, ledger, compositor
      ensures Valid()
      ensures Model() == OnFrame(old(Model()), context)
    {
      hide ClientRuns.Inv;
      ClientRuns.FrameKeepsInv(Model(), context);
      hide Paint, ShowAll;
      hide BitmapBudget.Model, L.DeliveryLedger.Model;
      if compositor == null { return; }
      var shown := compositor.PaintFrame(context);
      TellShown(shown);
    }

    method NewCompositor()
      modifies `compositor
      ensures fresh(compositor) && Model() == OnCanvas(old(Model()), BLANK)
    {
      hide BitmapBudget.Model, L.DeliveryLedger.Model;
      compositor := new CanvasCompositor();
    }

    method AttachNewCanvas()
      requires Valid()
      modifies this`pendingPresentations, this`discardedTiles, this`releases, this`log, this`phase, ledger, budget,
        compositor, this`compositor
      ensures Valid()
      ensures Model() == AttachCanvas(old(Model())) && fresh(compositor)
    {
      hide ClientRuns.Inv;
      ClientRuns.AttachKeepsInv(Model());
      hide ResetCanvas, OnCanvas, StartCanvas;
      hide BitmapBudget.Model, L.DeliveryLedger.Model, CanvasCompositor.Model;
      ResetCompositor();
      NewCompositor();
      if manifest.Some? && layout { StartCompositor(manifest.value); }
    }

    method NavigateTo()
      modifies compositor
      ensures old(Valid()) ==> Valid()
      ensures Model() == Navigate(old(Model()))
    {
      hide ClientRuns.Inv;
      if Valid() { ClientRuns.NavigateKeepsInv(Model()); }
      hide BitmapBudget.Model, L.DeliveryLedger.Model;
      if manifest.None? || compositor == null { return; }
      compositor.UseView();
    }

    method UseMode(focus: bool)
      modifies `focusMode, compositor
      ensures Model() == Focused(old(Model()), focus)
    {
      hide Navigate;
      hide BitmapBudget.Model, L.DeliveryLedger.Model, CanvasCompositor.Model;
      focusMode := focus;
      NavigateTo();
    }

    method SetViewMode(focus: bool, signature: int)
      requires Valid()
      modifies this`pendingPresentations, this`discardedTiles, this`releases, this`log, this`phase, ledger, budget,
        compositor, this`epoch, this`error, this`activeIntent, this`lastViewSignature, this`plan, this`serverDone,
        this`posted, this`focusMode
      ensures Valid()
      ensures Model() == SetMode(old(Model()), focus, signature)
    {
      hide ClientRuns.Inv;
      ClientRuns.ModeKeepsInv(Model(), focus, signature);
      hide Focused, RequestView;
      hide BitmapBudget.Model, L.DeliveryLedger.Model, CanvasCompositor.Model;
      UseMode(focus);
      RequestViewOf(signature);
    }

    method FitLayout()
      modifies `layout, compositor
      ensures Model() == Fitted(old(Model()))
    {
      hide BitmapBudget.Model, L.DeliveryLedger.Model;
      layout := true;
      if compositor == null { return; }
      compositor.UseLayout();
      compositor.UseView();
    }

    method SetViewportSize(signature: int)
      requires Valid()
      modifies this`pendingPresentations, this`discardedTiles, this`releases, this`log, this`phase, ledger, budget,
        compositor, this`epoch, this`error, this`activeIntent, this`lastViewSignature, this`plan, this`serverDone,
        this`posted, this`viewport, this`layout
      ensures Valid()
      ensures Model() == SetViewport(old(Model()), signature)
    {
      hide ClientRuns.Inv;
      ClientRuns.ViewportKeepsInv(Model(), signature);
      hide Fitted, RequestView;
      hide BitmapBudget.Model, L.DeliveryLedger.Model, CanvasCompositor.Model;
      var previous := viewport;
      viewport := true;
      if manifest.None? { return; }
      FitLayout();
      if !previous { RequestViewOf(signature); }
    }

    method Select(imageId: string)
      requires Valid()
      modifies this`pendingPresentations, this`discardedTiles, this`releases, this`log, this`phase, ledger, budget,
        compositor, this`epoch, this`error, this`activeIntent, this`lastViewSignature, this`plan, this`serverDone,
        this`posted, this`manifest, this`selected
      ensures Valid()
      ensures Model() == SelectImage(old(Model()), imageId)
    {
      hide ClientRuns.Inv;
      ClientRuns.SelectKeepsInv(Model(), imageId);
      hide OpenSelected;
      hide BitmapBudget.Model, L.DeliveryLedger.Model, CanvasCompositor.Model;
      selected := Some(imageId);
      if welcome.None? || !link.Open? {
        if !phase.Linking? && !phase.Error? { phase := Disconnected; }
        return;
      }
      OpenSelectedImage();
    }

    method Retry()
      requires Valid()
      modifies this`pendingPresentations, this`discardedTiles, this`releases, this`log, this`phase, ledger, budget,
        compositor, this`epoch, this`error, this`activeIntent, this`lastViewSignature, this`plan, this`serverDone,
        this`posted, this`manifest
      ensures Valid()
      ensures Model() == RetrySelected(old(Model()))
    {
      hide ClientRuns.Inv;
      ClientRuns.RetryKeepsInv(Model());
      hide OpenSelected;
      hide BitmapBudget.Model, L.DeliveryLedger.Model, CanvasCompositor.Model;
      if welcome.None? || !link.Open? { return; }
      OpenSelectedImage();
    }

    // ----- the connection -----

    method ForgetSession()
      modifies `manifest, `plan, `welcome, `activeIntent, `lastViewSignature, `serverDone
      ensures NavModel() == Blank(old(NavModel()))
    {
      manifest := None;
      plan := None;
      welcome := None;
      activeIntent := None;
      lastViewSignature := None;
      serverDone := false;
    }

    method ForgetOnlySession()
      modifies `manifest, `plan, `welcome, `activeIntent, `lastViewSignature, `serverDone
      ensures NavModel() == Blank(old(NavModel())) && PipeModel() == old(PipeModel())
    {
      hide Blank, LupaClient.NavModel;
      hide BitmapBudget.Model, L.DeliveryLedger.Model, CanvasCompositor.Model;
      ForgetSession();
    }

    method NextConnection()
      modifies `link, `connectionId, `epoch, `manifestHistory, `error, `phase, `posted
      ensures link == Connecting && connectionId == old(connectionId) + 1 && epoch == 0 && manifestHistory == []
      ensures !error && phase == Linking && posted == old(posted) + [W.ResetConnection(old(connectionId))]
    {
      link := Connecting;
      connectionId := connectionId + 1;
      epoch := 0;
      manifestHistory := [];
      error := false;
      phase := Linking;
      posted := posted + [W.ResetConnection(connectionId - 1)];
    }

    method RestartSession()
      modifies this`link, this`connectionId, this`epoch, this`manifestHistory, this`error, this`phase, this`posted,
        this`manifest, this`plan, this`welcome, this`activeIntent, this`lastViewSignature, this`serverDone
      ensures NavModel() == Blank(old(NavModel())).(history := [], error := false)
      ensures link == Connecting && connectionId == old(connectionId) + 1 && epoch == 0
      ensures phase == Linking && posted == old(posted) + [W.ResetConnection(old(connectionId))]
    {
      ForgetSession();
      NextConnection();
    }

    method ForgetLedger()
      modifies ledger
      ensures Model() == old(Model().(pipe := PipeModel().(ledger := L.EMPTY_LEDGER)))
    {
      hide BitmapBudget.Model, CanvasCompositor.Model;
      ledger.Clear();
    }

    method RenewSession()
      modifies this`link, this`connectionId, this`epoch, this`manifestHistory, this`error, this`phase, this`posted,
        this`manifest, this`plan, this`welcome, this`activeIntent, this`lastViewSignature, this`serverDone
      ensures Model() == old(Renewed(Model()).(pipe := Renewed(Model()).pipe.(ledger := ledger.Model())))
    {
      hide Blank;
      hide BitmapBudget.Model, L.DeliveryLedger.Model, CanvasCompositor.Model;
      RestartSession();
    }

    method Renew()
      modifies this`link, this`connectionId, this`epoch, this`manifestHistory, this`error, this`phase, this`posted,
        ledger, this`manifest, this`plan, this`welcome, this`activeIntent, this`lastViewSignature, this`serverDone
      ensures Model() == Renewed(old(Model()))
    {
      hide Blank;
      hide BitmapBudget.Model, L.DeliveryLedger.Model, CanvasCompositor.Model, LupaClient.NavModel,
        LupaClient.PipeModel;
      RenewSession();
      ForgetLedger();
    }

    method SetCountersToZero()
      modifies `pending, `receivedTiles, `drawnTiles, `discardedTiles, `failedTiles, `releases
      ensures pending == map[] && receivedTiles == 0 && drawnTiles == 0 && discardedTiles == 0
      ensures failedTiles == 0 && releases == 0
    {
      pending := map[];
      receivedTiles := 0;
      drawnTiles := 0;
      discardedTiles := 0;
      failedTiles := 0;
      releases := 0;
    }

    method ClearCounters()
      modifies `pending, `receivedTiles, `drawnTiles, `discardedTiles, `failedTiles, `releases, `log
      ensures PipeModel() == Zeroed(old(PipeModel()))
    {
      hide BitmapBudget.Model, L.DeliveryLedger.Model, CanvasCompositor.Model;
      SetCountersToZero();
      log := log.(retries := 0, registered := multiset{}, acked := []);
    }

    method ForgetBytes()
      modifies this`pendingPresentations, this`log, budget
      ensures PipeModel() == Forgotten(old(PipeModel()))
    {
      hide L.DeliveryLedger.Model, CanvasCompositor.Model;
      budget.Reset();
      pendingPresentations := 0;
      log := log.(leakedContext := 0, leakedDetail := 0);
    }

    method FinishConnect()
      modifies this`pendingPresentations, this`pending, this`receivedTiles, this`drawnTiles, this`discardedTiles,
        this`failedTiles, this`releases, this`log, budget
      ensures Model() == Connected(old(Model()))
    {
      hide Zeroed, Forgotten;
      hide BitmapBudget.Model, L.DeliveryLedger.Model, CanvasCompositor.Model;
      ForgetBytes();
      ClearCounters();
    }

    method ConnectAgain()
      requires Valid()
      modifies this, ledger, budget, compositor
      ensures Valid()
      ensures Model() == Connect(old(Model())) && compositor == old(compositor)
    {
      hide ClientRuns.Inv;
      ClientRuns.ConnectKeepsInv(Model());
      hide Renewed, ResetCanvas, Connected;
      hide BitmapBudget.Model, L.DeliveryLedger.Model, CanvasCompositor.Model;
      Renew();
      ResetCompositor();
      FinishConnect();
    }

    method HandleOpen()
      requires Valid() && link.Connecting?
      modifies `link
      ensures Valid()
      ensures Model() == Opened(old(Model()))
    {
      hide ClientRuns.Inv;
      ClientRuns.OpenKeepsInv(Model());
      hide BitmapBudget.Model, L.DeliveryLedger.Model, CanvasCompositor.Model;
      link := Open;
    }

    /** The transport is no longer open; the close event is still to come. */
    method LoseLink()
      requires Valid() && (link.Connecting? || link.Open?)
      modifies `link
      ensures Valid()
      ensures Model() == Lost(old(Model()))
    {
      hide ClientRuns.Inv;
      ClientRuns.LoseKeepsInv(Model());
      hide BitmapBudget.Model, L.DeliveryLedger.Model, CanvasCompositor.Model;
      link := Closing;
    }

    /** One more of this connection's jobs is off, or the job is another connection's. */
    static lemma OneJobLess(all: map<Job, Pending>, connectionId: int, jobs: set<Job>, job: Job)
      requires job in jobs && jobs <= all.Keys
      ensures var own := OwnJobs(all, connectionId);
              own - (jobs - {job}) == (if job.connectionId == connectionId then own - jobs + {job} else own - jobs) &&
              all - (own - jobs) - {job} == all - (own - jobs + {job}) && job !in own - jobs
    {
    }

    /** One turn of the loop below: jobs are those still to come. */
    method DropIfOwn(job: Job, ghost all: map<Job, Pending>, ghost before: Budget, ghost jobs: set<Job>)
      requires job in jobs && jobs <= all.Keys
      requires pending == all - (OwnJobs(all, connectionId) - jobs)
      requires budget.Model() == CancelAll(before, OwnJobs(all, connectionId) - jobs)
      modifies this`pending, budget
      ensures pending == all - (OwnJobs(all, connectionId) - (jobs - {job}))
      ensures budget.Model() == CancelAll(before, OwnJobs(all, connectionId) - (jobs - {job}))
    {
      hide CancelAll, Cancel, OwnJobs, BitmapBudget.Model;
      OneJobLess(all, connectionId, jobs, job);
      if job.connectionId == connectionId {
        CancelOneMore(before, OwnJobs(all, connectionId) - jobs, job);
        budget.CancelJob(job);
        pending := pending - {job};
      }
    }

    /** Takes this connection's jobs off the pending ones and gives their reservations back. */
    method DropOwnJobs()
      modifies this`pending, budget
      ensures pending == old(pending) - OwnJobs(old(pending), connectionId)
      ensures budget.Model() == CancelAll(old(budget.Model()), OwnJobs(old(pending), connectionId))
    {
      ghost var before := budget.Model();
      ghost var all := pending;
      CancelNone(before, OwnJobs(all, connectionId), all.Keys);
      assert all - (OwnJobs(all, connectionId) - all.Keys) == all;
      hide CancelAll, OwnJobs, BitmapBudget.Model;
      var jobs := pending.Keys;
      while jobs != {}
        invariant jobs <= all.Keys && pending == all - (OwnJobs(all, connectionId) - jobs)
        invariant budget.Model() == CancelAll(before, OwnJobs(all, connectionId) - jobs)
        decreases |jobs|
      {
        var job :| job in jobs;
        DropIfOwn(job, all, before, jobs);
        jobs := jobs - {job};
      }
      assert OwnJobs(all, connectionId) - {} == OwnJobs(all, connectionId);
    }

    method ResetWorker()
      modifies `link, `posted
      ensures link == Closed && posted == old(posted) + [W.ResetConnection(connectionId)]
    {
      link := Closed;
      posted := posted + [W.ResetConnection(connectionId)];
    }

    method EmptyConnection()
      modifies this`link, this`posted, this`pending, budget
      ensures Model() == Emptied(old(Model()))
    {
      hide OwnJobs, CancelAll;
      hide L.DeliveryLedger.Model, CanvasCompositor.Model;
      ResetWorker();
      DropOwnJobs();
    }

    method ForgetDeliveries()
      modifies this`pendingPresentations, this`log, ledger, budget
      ensures PipeModel() == Forgotten(old(PipeModel())).(ledger := L.EMPTY_LEDGER)
      ensures NavModel() == old(NavModel()) && phase == old(phase)
    {
      hide Forgotten;
      hide BitmapBudget.Model, CanvasCompositor.Model;
      ForgetBytes();
      ledger.Clear();
    }

    method SayClosed(reason: bool)
      modifies `error, `phase
      ensures if old(phase).Error? then phase == Error && error == old(error)
              else phase == Disconnected && error == reason
      ensures PipeModel() == old(PipeModel())
    {
      hide BitmapBudget.Model, L.DeliveryLedger.Model, CanvasCompositor.Model;
      if !phase.Error? {
        phase := Disconnected;
        error := reason;
      }
    }

    method EndSession(reason: bool)
      modifies `error, `phase, `manifest, `plan, `welcome, `activeIntent, `lastViewSignature, `serverDone
      ensures if old(phase).Error? then NavModel() == Blank(old(NavModel())) && phase == Error
              else NavModel() == Blank(old(NavModel())).(error := reason) && phase == Disconnected
      ensures PipeModel() == old(PipeModel())
    {
      hide LupaClient.PipeModel;
      ForgetOnlySession();
      SayClosed(reason);
    }

    method CloseDown(reason: bool)
      modifies this`pendingPresentations, this`log, this`error, this`phase, ledger, budget,
        this`manifest, this`plan, this`welcome, this`activeIntent, this`lastViewSignature, this`serverDone
      ensures Model() == ClosedDown(old(Model()), reason)
    {
      hide Forgotten, Blank, LupaClient.NavModel, LupaClient.PipeModel;
      ForgetDeliveries();
      EndSession(reason);
    }

    method HandleClose(reason: bool)
      requires Valid() && (link.Connecting? || link.Open? || link.Closing?)
      modifies this, ledger, budget, compositor
      ensures Valid()
      ensures Model() == OnClose(old(Model()), reason) && compositor == old(compositor)
    {
      hide ClientRuns.Inv;
      ClientRuns.CloseKeepsInv(Model(), reason);
      hide Emptied, ResetCanvas, ClosedDown;
      hide BitmapBudget.Model, L.DeliveryLedger.Model, CanvasCompositor.Model;
      EmptyConnection();
      ResetCompositor();
      CloseDown(reason);
    }
  }
}
