/**
  Whole runs of the client: any callbacks in any order, over any number of
  images, views, canvases and connections.
*/
module ClientRuns {
  import opened Budgets
  import opened ClientBooks
  import opened ClientBudget
  import opened ClientSafety
  import opened ClientView
  import opened Clients
  import opened Compositors
  import opened Pyramid
  import opened Results
  import L = Ledgers
  import W = Workers

  // ----- the manifests a client knows -----

  ghost predicate DistinctImages(history: seq<Manifest>) {
    forall i, j | 0 <= i < j < |history| :: !SameImage(history[i], history[j].imageId, history[j].imageVersion)
  }

  ghost predicate AllAccepted(history: seq<Manifest>) {
    forall i | 0 <= i < |history| :: Accepted(history[i])
  }

  /** At most eight accepted manifests, one for each version of an image, and the current one is the latest of them. */
  ghost predicate Knows(nav: Nav) {
    |nav.history| <= MANIFESTS_KEPT && DistinctImages(nav.history) && AllAccepted(nav.history) &&
    (nav.manifest.Some? ==> nav.history != [] && nav.history[|nav.history| - 1] == nav.manifest.value)
  }

  lemma {:induction false} ForgetKeeps(history: seq<Manifest>, imageId: string, imageVersion: string)
    requires DistinctImages(history) && AllAccepted(history)
    ensures var r := Forget(history, imageId, imageVersion);
            DistinctImages(r) && AllAccepted(r) && |r| <= |history| &&
            forall m | m in r :: m in history && !SameImage(m, imageId, imageVersion)
    decreases |history|
  {
    if history != [] {
      ForgetKeeps(history[1..], imageId, imageVersion);
      var rest := Forget(history[1..], imageId, imageVersion);
      forall i | 0 <= i < |rest| ensures !SameImage(history[0], rest[i].imageId, rest[i].imageVersion) {
        assert rest[i] in rest;
        assert rest[i] in history[1..];
      }
    }
  }

  lemma RememberKnows(history: seq<Manifest>, m: Manifest)
    requires DistinctImages(history) && AllAccepted(history) && Accepted(m)
    ensures var r := Remember(history, m);
            |r| <= MANIFESTS_KEPT && DistinctImages(r) && AllAccepted(r) && r != [] && r[|r| - 1] == m
  {
    ForgetKeeps(history, m.imageId, m.imageVersion);
    var rest := Forget(history, m.imageId, m.imageVersion);
    forall i | 0 <= i < |rest| ensures !SameImage(rest[i], m.imageId, m.imageVersion) {
      assert rest[i] in rest;
    }
  }

  lemma {:induction false} LookupFinds(history: seq<Manifest>, i: nat)
    requires DistinctImages(history) && i < |history|
    ensures Lookup(history, history[i].imageId, history[i].imageVersion) == Some(history[i])
    decreases i
  {
    if i > 0 { LookupFinds(history[1..], i - 1); }
  }

  /** A tile of the current image is held against the current manifest, not against an older one. */
  lemma CurrentManifestIsUsed(nav: Nav)
    requires Knows(nav) && nav.manifest.Some?
    ensures Lookup(nav.history, nav.manifest.value.imageId, nav.manifest.value.imageVersion) == nav.manifest
  {
    LookupFinds(nav.history, |nav.history| - 1);
  }

  /** What the rest of the client does to the manifests: keep them, or have no current one. */
  ghost predicate NoNewImage(before: Nav, after: Nav) {
    (after.history == before.history || after.history == []) &&
    (after.manifest.None? || (after.manifest == before.manifest && after.history == before.history))
  }

  lemma RequestSameImages(c: Client, signature: int)
    ensures RequestView(c, signature).nav.history == c.nav.history
    ensures RequestView(c, signature).nav.manifest == c.nav.manifest
  {
    if c.pipe.canvas.Some? {
      var (k, gone) := BeginEpoch(c.pipe.canvas.value, c.pipe.epoch + 1);
      DropAllChangesLittle(OnCanvas(Asking(c, signature), k), gone);
    }
  }

  lemma OpenNoNewImage(c: Client)
    ensures NoNewImage(c.nav, OpenSelected(c).nav)
  {
    ResetEmpties(Leaving(c));
  }

  lemma StartSameNav(c: Client, m: Manifest)
    ensures StartCanvas(c, m).nav == c.nav
  {
    if c.pipe.canvas.Some? {
      var (k, gone) := StartImage(c.pipe.canvas.value, m);
      DropAllChangesLittle(OnCanvas(c, k), gone);
    }
  }

  lemma KnowingKnows(c: Client, m: Manifest)
    requires Knows(c.nav) && Accepted(m)
    ensures Knows(Knowing(c, m).nav)
  {
    RememberKnows(c.nav.history, m);
  }

  lemma NoNewImageKnows(before: Nav, after: Nav)
    requires Knows(before) && NoNewImage(before, after)
    ensures Knows(after)
  {
  }

  lemma ParsedIsAccepted(raw: Manifest, imageId: string, epoch: int)
    requires ParseManifest(raw, imageId, epoch).Ok?
    ensures ParseManifest(raw, imageId, epoch).value == raw && Accepted(raw)
  {
  }

  lemma ManifestKnows(c: Client, raw: Manifest, signature: int)
    requires Knows(c.nav)
    ensures Knows(OnManifest(c, raw, signature).nav)
  {
    NoNewImageKnows(c.nav, Violation(c).nav);
    if c.nav.selected.Some? {
      var parsed := ParseManifest(raw, c.nav.selected.value, c.pipe.epoch);
      if parsed.Ok? {
        ParsedIsAccepted(raw, c.nav.selected.value, c.pipe.epoch);
        var known := Knowing(c, parsed.value);
        KnowingKnows(c, parsed.value);
        StartSameNav(known, parsed.value);
        RequestSameImages(StartCanvas(known, parsed.value), signature);
        NoNewImageKnows(known.nav, RequestView(StartCanvas(known, parsed.value), signature).nav);
      }
    }
  }

  lemma WelcomeNoNewImage(c: Client, version: int, maxTileBytes: int)
    ensures NoNewImage(c.nav, OnWelcome(c, version, maxTileBytes).nav)
  {
    hide OpenSelected;
    OpenNoNewImage(c.(nav := c.nav.(welcome := Some(maxTileBytes)), phase := Ready));
  }

  lemma TextNoNewImage(c: Client, control: Control, signature: int)
    requires !control.ManifestIs?
    ensures NoNewImage(c.nav, OnText(c, control, signature).nav)
  {
    hide OnWelcome, OnManifest;
    if control.Welcome? { WelcomeNoNewImage(c, control.version, control.maxTileBytes); }
  }

  lemma TextKnows(c: Client, control: Control, signature: int)
    requires Knows(c.nav)
    ensures Knows(OnText(c, control, signature).nav)
  {
    if control.ManifestIs? {
      ManifestKnows(c, control.m, signature);
    } else {
      TextNoNewImage(c, control, signature);
      NoNewImageKnows(c.nav, OnText(c, control, signature).nav);
    }
  }

  lemma WorkerSameNav(c: Client, r: W.Response)
    ensures OnWorker(c, r).nav == c.nav
  {
    var job := JobOf(r.task);
    var p := Arrive(c.pipe, r);
    if job in p.pending && r.Decoded? && Current(c.(pipe := Taken(p, job)), r.task) {
      var t := r.task;
      var kind := p.pending[job].kind;
      var (budget, bytes) := Commit(Taken(p, job).budget, job, kind);
      var q := Taken(p, job).(budget := budget);
      if bytes.Some? && q.canvas.Some? {
        var (k', gone, accepted) := Store(q.canvas.value, EntryOf(t, r.bitmap, bytes.value, kind));
        DropAllChangesLittle(c.(pipe := q.(presentations := q.presentations + 1, canvas := Some(k'))), gone);
      }
    }
  }

  lemma FrameSameNav(c: Client, context: bool)
    ensures OnFrame(c, context).nav == c.nav
  {
    if c.pipe.canvas.Some? {
      var (k, shown) := Paint(c.pipe.canvas.value, context);
      ShowAllChangesLittle(OnCanvas(c, k), shown);
    }
  }

  lemma AttachSameNav(c: Client)
    ensures AttachCanvas(c).nav == c.nav
  {
    ResetEmpties(c);
    if c.nav.manifest.Some? { StartSameNav(OnCanvas(ResetCanvas(c), BLANK), c.nav.manifest.value); }
  }

  lemma ViewportNoNewImage(c: Client, signature: int)
    ensures NoNewImage(c.nav, SetViewport(c, signature).nav)
  {
    var l := c.(nav := c.nav.(viewport := true, layout := true));
    RequestSameImages(l, signature);
    if l.pipe.canvas.Some? { RequestSameImages(OnCanvas(l, SetView(SetLayout(l.pipe.canvas.value))), signature); }
  }

  lemma ConnectionsNoNewImage(c: Client, reason: bool)
    ensures NoNewImage(c.nav, Connect(c).nav) && NoNewImage(c.nav, OnClose(c, reason).nav)
  {
    ResetEmpties(Renewed(c));
    ResetEmpties(Emptied(c));
  }

  lemma BinarySameImages(c: Client, tile: Option<Header>)
    ensures NoNewImage(c.nav, OnBinary(c, tile).nav)
  {
  }

  lemma SelectNoNewImage(c: Client, imageId: string)
    ensures NoNewImage(c.nav, SelectImage(c, imageId).nav) && NoNewImage(c.nav, RetrySelected(c).nav)
  {
    OpenNoNewImage(c.(nav := c.nav.(selected := Some(imageId))));
    OpenNoNewImage(c);
  }

  lemma StepNoNewImage(c: Client, e: Event)
    requires !e.TextArrives?
    ensures NoNewImage(c.nav, Step(c, e).nav)
  {
    match e
    case Connects => ConnectionsNoNewImage(c, false);
    case LinkOpens =>
    case LinkDrops =>
    case LinkCloses(reason) => ConnectionsNoNewImage(c, reason);
    case TileArrives(tile) => BinarySameImages(c, tile);
    case WorkerAnswers(r) => WorkerSameNav(c, r);
    case FrameRuns(context) => FrameSameNav(c, context);
    case CanvasAttached => AttachSameNav(c);
    case ImageSelected(imageId) => SelectNoNewImage(c, imageId);
    case ImageRetried => SelectNoNewImage(c, "");
    case ViewportSet(signature) => ViewportNoNewImage(c, signature);
    case ModeSet(focus, signature) => RequestSameImages(Focused(c, focus), signature);
    case ViewMoved =>
    case ViewRequested(signature) => RequestSameImages(c, signature);
    case Broke =>
  }

  lemma StepKnows(c: Client, e: Event)
    requires Knows(c.nav)
    ensures Knows(Step(c, e).nav)
  {
    if e.TextArrives? {
      TextKnows(c, e.control, e.signature);
    } else {
      StepNoNewImage(c, e);
      NoNewImageKnows(c.nav, Step(c, e).nav);
    }
  }

  // ----- runs -----

  ghost predicate Inv(c: Client) {
    Books(c.pipe, [], None) && Holds(c.pipe, [], None) && Fresh(c) && Drained(c) && Knows(c.nav) &&
    forall bitmap :: Kept(c.pipe, [], None, bitmap)
  }

  lemma NewInv(c: Client)
    requires New(c)
    ensures Inv(c)
  {
    assert Within(c.pipe.budget);
  }

  lemma StepKeepsInv(c: Client, e: Event)
    requires Inv(c) && Enabled(c, e)
    ensures Inv(Step(c, e))
  {
    StepKeepsBooks(c, e);
    StepHolds(c, e);
    StepIsFresh(c, e);
    StepDrains(c, e);
    StepKnows(c, e);
    forall bitmap ensures Kept(Step(c, e).pipe, [], None, bitmap) { StepKeepsBitmap(c, e, bitmap); }
  }

  // ----- callback by callback -----

  lemma TextKeepsInv(c: Client, control: Control, signature: int)
    requires Inv(c) && c.pipe.link.Open?
    ensures Inv(OnText(c, control, signature))
  {
    hide Inv;
    StepKeepsInv(c, TextArrives(control, signature));
  }

  lemma BinaryKeepsInv(c: Client, tile: Option<Header>)
    requires Inv(c) && c.pipe.link.Open? && (tile.Some? ==> IsTileHeader(tile.value))
    ensures Inv(OnBinary(c, tile))
  {
    hide Inv;
    StepKeepsInv(c, TileArrives(tile));
  }

  lemma WorkerKeepsInv(c: Client, r: W.Response)
    requires Inv(c)
    ensures Inv(OnWorker(c, r))
  {
    hide Inv;
    StepKeepsInv(c, WorkerAnswers(r));
  }

  lemma FrameKeepsInv(c: Client, context: bool)
    requires Inv(c) && c.pipe.canvas.Some? && c.pipe.canvas.value.frame
    ensures Inv(OnFrame(c, context))
  {
    hide Inv;
    StepKeepsInv(c, FrameRuns(context));
  }

  lemma AttachKeepsInv(c: Client)
    requires Inv(c)
    ensures Inv(AttachCanvas(c))
  {
    hide Inv;
    StepKeepsInv(c, CanvasAttached);
  }

  lemma ModeKeepsInv(c: Client, focus: bool, signature: int)
    requires Inv(c)
    ensures Inv(SetMode(c, focus, signature))
  {
    hide Inv;
    StepKeepsInv(c, ModeSet(focus, signature));
  }

  lemma ViewportKeepsInv(c: Client, signature: int)
    requires Inv(c)
    ensures Inv(SetViewport(c, signature))
  {
    hide Inv;
    StepKeepsInv(c, ViewportSet(signature));
  }

  lemma SelectKeepsInv(c: Client, imageId: string)
    requires Inv(c)
    ensures Inv(SelectImage(c, imageId))
  {
    hide Inv;
    StepKeepsInv(c, ImageSelected(imageId));
  }

  lemma RetryKeepsInv(c: Client)
    requires Inv(c)
    ensures Inv(RetrySelected(c))
  {
    hide Inv;
    StepKeepsInv(c, ImageRetried);
  }

  lemma ConnectKeepsInv(c: Client)
    requires Inv(c)
    ensures Inv(Connect(c))
  {
    hide Inv;
    StepKeepsInv(c, Connects);
  }

  lemma OpenKeepsInv(c: Client)
    requires Inv(c) && c.pipe.link.Connecting?
    ensures Inv(Opened(c))
  {
    hide Inv;
    StepKeepsInv(c, LinkOpens);
  }

  lemma LoseKeepsInv(c: Client)
    requires Inv(c) && (c.pipe.link.Connecting? || c.pipe.link.Open?)
    ensures Inv(Lost(c))
  {
    hide Inv;
    StepKeepsInv(c, LinkDrops);
  }

  lemma CloseKeepsInv(c: Client, reason: bool)
    requires Inv(c) && (c.pipe.link.Connecting? || c.pipe.link.Open? || c.pipe.link.Closing?)
    ensures Inv(OnClose(c, reason))
  {
    hide Inv;
    StepKeepsInv(c, LinkCloses(reason));
  }

  lemma NavigateKeepsInv(c: Client)
    requires Inv(c)
    ensures Inv(Navigate(c))
  {
    hide Inv;
    StepKeepsInv(c, ViewMoved);
  }

  lemma RequestKeepsInv(c: Client, signature: int)
    requires Inv(c)
    ensures Inv(RequestView(c, signature))
  {
    hide Inv;
    StepKeepsInv(c, ViewRequested(signature));
  }

  lemma FailKeepsInv(c: Client)
    requires Inv(c)
    ensures Inv(Fail(c))
  {
    hide Inv;
    StepKeepsInv(c, Broke);
  }

  // ----- runs of callbacks -----

  datatype Move = Move(e: Event, c: Client)

  ghost predicate Next(c: Client, e: Event, d: Client) { Enabled(c, e) && d == Step(c, e) }

  ghost predicate Run(c: Client, run: seq<Move>)
    decreases |run|
  {
    run == [] || (Next(c, run[0].e, run[0].c) && Run(run[0].c, run[1..]))
  }

  function End(c: Client, run: seq<Move>): Client {
    if run == [] then c else run[|run| - 1].c
  }

  lemma NextKeepsInv(c: Client, e: Event, d: Client)
    requires Inv(c) && Next(c, e, d)
    ensures Inv(d)
  {
    StepKeepsInv(c, e);
  }

  lemma {:induction false} RunsKeepInv(c: Client, run: seq<Move>)
    requires Inv(c) && Run(c, run)
    ensures Inv(End(c, run))
    decreases |run|
  {
    hide Inv, Enabled, Step;
    if run != [] {
      NextKeepsInv(c, run[0].e, run[0].c);
      RunsKeepInv(run[0].c, run[1..]);
    }
  }

  lemma Reached(c: Client, run: seq<Move>, d: Client)
    requires New(c) && Run(c, run) && d == End(c, run)
    ensures Inv(d)
  {
    NewInv(c);
    RunsKeepInv(c, run);
  }

  /**
    No credit is lost or doubled. While the transport is open, a delivery is active exactly
    when it is being decoded, or waits to be painted, or is asked for again, one of the
    three; and it has had one terminal ACK for each time it stopped being active.
  */
  lemma NoCreditIsLost(c: Client, run: seq<Move>, d: Client, id: int)
    requires New(c) && Run(c, run) && d == End(c, run) && d.pipe.link.Open?
    ensures var p := d.pipe;
            var active := p.ledger.active;
            One(id in active) ==
              One(Job(p.connectionId, id) in p.pending) + Sum(WaitingFor(id), Entries(p))
              + One(id in active && active[id].retryExpected) &&
            p.log.registered[id] == multiset(p.log.acked)[id] + One(id in active)
  {
    Reached(c, run, d);
    assert Credit(d.pipe, [], None, id);
  }

  /** On one connection, two terminal ACKs of one delivery have at least 2048 others between them. */
  lemma AcksAreFarApart(c: Client, run: seq<Move>, d: Client, i: nat, j: nat)
    requires New(c) && Run(c, run) && d == End(c, run)
    requires i < j < |d.pipe.log.acked| && d.pipe.log.acked[i] == d.pipe.log.acked[j]
    ensures j - i - 1 >= L.MAX_RELEASED_HISTORY
  {
    Reached(c, run, d);
  }

  /**
    On an open link a tile is a violation for its delivery exactly when that is in hand and was not
    asked for again, or is one of the newest 2048 that had their terminal ACK on this connection.
  */
  lemma AdmittedIff(c: Client, run: seq<Move>, d: Client, h: Header)
    requires New(c) && Run(c, run) && d == End(c, run) && d.pipe.link.Open?
    ensures var p, id := d.pipe, h.deliveryId;
            Admitted(d, h) <==>
            if id in p.ledger.active then p.ledger.active[id].retryExpected
            else id !in L.Newest(p.log.acked, L.MAX_RELEASED_HISTORY)
  {
    Reached(c, run, d);
    assert Credit(d.pipe, [], None, h.deliveryId);
  }

  /**
    Every tile received is drawn, discarded, failed, being decoded or waiting to be painted;
    and every one that is done was told to the server, as an ACK or as a retry request.
  */
  lemma TilesAreAccounted(c: Client, run: seq<Move>, d: Client)
    requires New(c) && Run(c, run) && d == End(c, run) && d.pipe.link.Open?
    ensures var p := d.pipe;
            p.received == p.drawn + p.discarded + p.failed + |p.pending| + p.presentations &&
            p.presentations == Sum(Waiting, Entries(p)) &&
            p.releases + p.log.retries == p.drawn + p.discarded + p.failed &&
            (p.releases == p.drawn + p.discarded + p.failed <==> p.log.retries == 0)
  {
    Reached(c, run, d);
  }

  /**
    On any link: the limits hold, reservations belong to pending decodes, a current decode
    has its own, and the stored bytes are those of the resident entries and the leaked ones.
  */
  lemma BudgetIsKept(c: Client, run: seq<Move>, d: Client)
    requires New(c) && Run(c, run) && d == End(c, run)
    ensures var p := d.pipe;
            p.budget.transient == Total(p.budget.reservations) &&
            p.budget.context + p.budget.transient <= TRANSIENT_BUDGET && p.budget.detail <= DETAIL_BUDGET &&
            p.budget.transient + p.budget.context + p.budget.detail <= BITMAP_BUDGET &&
            (forall j | j in p.budget.reservations ::
               j in p.pending && p.pending[j].bytes == p.budget.reservations[j]) &&
            (forall j | j in p.pending && p.pending[j].epoch == p.epoch :: j in p.budget.reservations) &&
            p.budget.context == Sum(BytesOf(Context), Entries(p)) + p.log.leakedContext &&
            p.budget.detail == Sum(BytesOf(Detail), Entries(p)) + p.log.leakedDetail
  {
    Reached(c, run, d);
    ManagedIsBounded(d.pipe.budget);
  }

  /** The bytes of the bitmaps a run has orphaned since a connection was last made or closed. */
  ghost function OrphanedSince(c: Client, run: seq<Move>, before: int): int
    decreases |run|
  {
    if run == [] then before
    else
      var e := run[0].e;
      OrphanedSince(run[0].c, run[1..], if StartsOver(e) then 0 else before + OrphanedBytes(c, e))
  }

  lemma NextLeaks(c: Client, e: Event, d: Client)
    requires Inv(c) && Next(c, e, d)
    ensures Inv(d) && Leaked(d.pipe) == if StartsOver(e) then 0 else Leaked(c.pipe) + OrphanedBytes(c, e)
  {
    NextKeepsInv(c, e, d);
    StepLeaks(c, e);
  }

  lemma {:induction false} RunsLeak(c: Client, run: seq<Move>)
    requires Inv(c) && Run(c, run)
    ensures Leaked(End(c, run).pipe) == OrphanedSince(c, run, Leaked(c.pipe))
    decreases |run|
  {
    hide Inv, Enabled, Step, Leaked, OrphanedBytes;
    if run != [] {
      NextLeaks(c, run[0].e, run[0].c);
      RunsLeak(run[0].c, run[1..]);
    }
  }

  /** A bitmap has been orphaned since a connection was last made or closed. */
  ghost predicate OrphansSince(c: Client, run: seq<Move>, before: bool)
    decreases |run|
  {
    if run == [] then before
    else
      var e := run[0].e;
      OrphansSince(run[0].c, run[1..], !StartsOver(e) && (before || (e.WorkerAnswers? && Orphans(c, e.r))))
  }

  lemma NextAgreesIff(c: Client, e: Event, d: Client)
    requires Inv(c) && Next(c, e, d)
    ensures Inv(d)
    ensures Agrees(d.pipe) <==> StartsOver(e) || (Agrees(c.pipe) && !(e.WorkerAnswers? && Orphans(c, e.r)))
  {
    NextKeepsInv(c, e, d);
    StepAgreesIff(c, e);
  }

  lemma {:induction false} RunsAgreeIff(c: Client, run: seq<Move>)
    requires Inv(c) && Run(c, run)
    ensures Agrees(End(c, run).pipe) <==> !OrphansSince(c, run, !Agrees(c.pipe))
    decreases |run|
  {
    hide Inv, Enabled, Step, Agrees, Orphans;
    if run != [] {
      NextAgreesIff(c, run[0].e, run[0].c);
      RunsAgreeIff(run[0].c, run[1..]);
    }
  }

  /**
    The stored bytes are those of the resident entries exactly when no bitmap was orphaned on
    this connection, and what they exceed them by is the bytes of those that were.
  */
  lemma AgreesUnlessOrphaned(c: Client, run: seq<Move>, d: Client)
    requires New(c) && Run(c, run) && d == End(c, run)
    ensures Agrees(d.pipe) <==> !OrphansSince(c, run, false)
    ensures Leaked(d.pipe) == OrphanedSince(c, run, 0)
  {
    NewInv(c);
    RunsLeak(c, run);
    RunsAgreeIff(c, run);
  }

  /** On any link: what is resident is of the current image, fine tiles are of the current epoch, one to a place. */
  lemma NothingStaleIsShown(c: Client, run: seq<Move>, d: Client, i: nat)
    requires New(c) && Run(c, run) && d == End(c, run) && i < |Entries(d.pipe)|
    ensures var h := Entries(d.pipe)[i].header;
            d.nav.manifest.Some? && h.imageId == d.nav.manifest.value.imageId &&
            h.imageVersion == d.nav.manifest.value.imageVersion && (h.z != 0 ==> h.epoch == d.pipe.epoch) &&
            forall j | 0 <= j < |Entries(d.pipe)| && j != i :: CacheKey(Entries(d.pipe)[j].header) != CacheKey(h)
  {
    Reached(c, run, d);
    assert ClientSafety.Fits(d.pipe.canvas.value.manifest.value, d.pipe.epoch, Entries(d.pipe)[i]);
  }

  /** Over all connections: a bitmap that has come in has been closed, or is resident; never both, never twice. */
  lemma BitmapsAreClosedOnce(c: Client, run: seq<Move>, d: Client, bitmap: int)
    requires New(c) && Run(c, run) && d == End(c, run)
    ensures var p := d.pipe;
            p.log.arrived[bitmap] == p.log.closed[bitmap] + Sum(Holding(bitmap), Entries(p))
  {
    Reached(c, run, d);
    assert Kept(d.pipe, [], None, bitmap);
  }

  /** The view is only called settled when nothing is being decoded and nothing waits to be painted. */
  lemma SettledMeansDrained(c: Client, run: seq<Move>, d: Client)
    requires New(c) && Run(c, run) && d == End(c, run) && d.phase.Observing?
    ensures var p := d.pipe;
            p.pending == map[] && Sum(Waiting, Entries(p)) == 0 && p.budget.transient == 0
  {
    Reached(c, run, d);
    var p := d.pipe;
    assert p.budget.reservations == map[];
  }

  /** Some frame of the run found no drawing context, while a tile waited to be painted. */
  ghost predicate Overlooks(c: Client, run: seq<Move>)
    decreases |run|
  {
    run != [] && (MissedFrame(c, run[0].e) || Overlooks(run[0].c, run[1..]))
  }

  predicate MissedFrame(c: Client, e: Event) { e.FrameRuns? && !e.context && c.pipe.presentations > 0 }

  /** The one callback after which a tile can wait with no frame to come. */
  lemma ScheduledIff(c: Client, e: Event)
    requires Inv(c) && Scheduled(c.pipe) && Enabled(c, e)
    ensures Scheduled(Step(c, e).pipe) <==> !MissedFrame(c, e)
  {
    if !e.FrameRuns? || e.context { StepScheduled(c, e); }
  }

  lemma NextScheduledIff(c: Client, e: Event, d: Client)
    requires Inv(c) && Scheduled(c.pipe) && Next(c, e, d)
    ensures Scheduled(d.pipe) <==> !MissedFrame(c, e)
  {
    ScheduledIff(c, e);
  }

  lemma {:induction false} RunsKeepScheduled(c: Client, run: seq<Move>)
    requires Inv(c) && Scheduled(c.pipe) && Run(c, run) && !Overlooks(c, run)
    ensures Scheduled(End(c, run).pipe)
    decreases |run|
  {
    hide Inv, Enabled, Step, Scheduled, MissedFrame;
    if run != [] {
      NextKeepsInv(c, run[0].e, run[0].c);
      NextScheduledIff(c, run[0].e, run[0].c);
      RunsKeepScheduled(run[0].c, run[1..]);
    }
  }

  /** A tile that waits to be painted has a frame coming, unless a frame before found no context to paint it in. */
  lemma NoTileIsForgotten(c: Client, run: seq<Move>, d: Client)
    requires New(c) && Run(c, run) && d == End(c, run)
    ensures d.pipe.presentations > 0 ==> (d.pipe.canvas.Some? && d.pipe.canvas.value.frame) || Overlooks(c, run)
  {
    NewInv(c);
    if !Overlooks(c, run) {
      RunsKeepScheduled(c, run);
      Reached(c, run, d);
    }
  }

  // ----- which tiles are let in -----

  /**
    A tile is let in exactly when it fits one of the manifests the client remembers, and its payload what
    was agreed.
  */
  lemma TileIsKnownIff(c: Client, h: Header)
    requires Knows(c.nav) && c.nav.welcome.Some? && IsTileHeader(h)
    ensures TileIsKnown(c, Some(h)) <==>
            h.payloadBytes <= c.nav.welcome.value && exists m :: m in c.nav.history && Pyramid.Fits(m, h)
  {
    var found := Lookup(c.nav.history, h.imageId, h.imageVersion);
    forall m | m in c.nav.history ensures Accepted(m) && (Pyramid.Fits(m, h) ==> found == Some(m)) {
      var i :| 0 <= i < |c.nav.history| && c.nav.history[i] == m;
      assert Accepted(c.nav.history[i]);
      if Pyramid.Fits(m, h) { LookupFinds(c.nav.history, i); }
    }
    if found.Some? { assert found.value in c.nav.history; }
  }

  // ----- failed decodes -----

  /**
    A failed decode is told to the server as a retry request, exactly when its epoch is current and two have
    not been made.
  */
  lemma FailureIsRetriedIff(c: Client, t: W.Task)
    requires Books(c.pipe, [], None) && c.pipe.link.Open? && JobOf(t) in c.pipe.pending
    ensures t.header.deliveryId in c.pipe.ledger.active
    ensures var p := c.pipe;
            var q := OnWorker(c, W.Failed(t)).pipe;
            var retried := t.header.epoch == p.epoch
                           && p.ledger.active[t.header.deliveryId].retryRequests < L.MAX_SELECTIVE_RETRIES;
            q.failed == p.failed + 1 && q.log.retries == p.log.retries + One(retried) &&
            q.releases == p.releases + One(!retried) && (retried <==> t.header.deliveryId in q.ledger.active)
  {
    var id := t.header.deliveryId;
    assert Credit(c.pipe, [], None, id);
    SumNotNegative(WaitingFor(id), Entries(c.pipe));
  }
}
