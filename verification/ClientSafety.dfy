/**
  What the client never shows or loses: every bitmap is resident once or closed
  once, and nothing stale is resident.
*/
module ClientSafety {
  import opened Budgets
  import opened ClientBooks
  import opened Clients
  import opened Compositors
  import opened Pyramid
  import opened Results
  import L = Ledgers
  import W = Workers

  // ----- bitmaps -----

  /** Every arrival of the bitmap has been closed, is resident, is about to leave, or is in a callback's hands. */
  ghost predicate Kept(p: Pipe, loose: seq<Entry>, hand: Option<int>, bitmap: int) {
    p.log.arrived[bitmap] == p.log.closed[bitmap] + Sum(Holding(bitmap), Entries(p)) + Sum(Holding(bitmap), loose)
                             + One(hand == Some(bitmap))
  }

  lemma LeaveKeepsBitmap(p: Pipe, loose: seq<Entry>, bitmap: int)
    requires loose != [] && Kept(p, loose, None, bitmap)
    ensures Kept(Leave(p, loose[0]), loose[1..], None, bitmap)
  {
    SumHead(Holding(bitmap), loose);
  }

  lemma {:induction false} DropAllKeepsBitmap(c: Client, loose: seq<Entry>, bitmap: int)
    requires Kept(c.pipe, loose, None, bitmap)
    ensures Kept(DropAll(c, loose).pipe, [], None, bitmap)
    decreases |loose|
  {
    if loose != [] {
      LeaveKeepsBitmap(c.pipe, loose, bitmap);
      DropAllKeepsBitmap(Drop(c, loose[0]), loose[1..], bitmap);
    }
  }

  lemma ReplaceKeepsBitmap(c: Client, k: Compositor, gone: seq<Entry>, bitmap: int)
    requires Kept(c.pipe, [], None, bitmap) && Moves(Entries(c.pipe), k.entries, gone)
    ensures Kept(DropAll(OnCanvas(c, k), gone).pipe, [], None, bitmap)
  {
    assert Sum(Holding(bitmap), k.entries) + Sum(Holding(bitmap), gone) == Sum(Holding(bitmap), Entries(c.pipe));
    DropAllKeepsBitmap(OnCanvas(c, k), gone, bitmap);
  }

  lemma ResetKeepsBitmap(c: Client, bitmap: int)
    requires Kept(c.pipe, [], None, bitmap)
    ensures Kept(ResetCanvas(c).pipe, [], None, bitmap)
  {
    if c.pipe.canvas.Some? {
      EverythingMoves(c.pipe.canvas.value.entries);
      ReplaceKeepsBitmap(c, BLANK, c.pipe.canvas.value.entries, bitmap);
    }
  }

  lemma StartKeepsBitmap(c: Client, m: Manifest, bitmap: int)
    requires Kept(c.pipe, [], None, bitmap)
    ensures Kept(StartCanvas(c, m).pipe, [], None, bitmap)
  {
    if c.pipe.canvas.Some? {
      EverythingMoves(c.pipe.canvas.value.entries);
      var (k, gone) := StartImage(c.pipe.canvas.value, m);
      ReplaceKeepsBitmap(c, k, gone, bitmap);
    }
  }

  lemma BeginKeepsBitmap(c: Client, epoch: int, bitmap: int)
    requires Kept(c.pipe, [], None, bitmap)
    ensures Kept(BeginOnCanvas(c, epoch).pipe, [], None, bitmap)
  {
    if c.pipe.canvas.Some? {
      EpochMoves(c.pipe.canvas.value.entries);
      var (k, gone) := BeginEpoch(c.pipe.canvas.value, epoch);
      ReplaceKeepsBitmap(c, k, gone, bitmap);
    }
  }

  lemma StoreKeepsBitmap(c: Client, k: Compositor, e: Entry, bitmap: int)
    requires Kept(c.pipe, [], Some(e.bitmap), bitmap) && c.pipe.canvas == Some(k)
    ensures Kept(StoreOnCanvas(c, k, e).pipe, [], None, bitmap)
  {
    hide Put, Replaced, Accepts, RemoveStored;
    var (k', gone, accepted) := Store(k, e);
    if accepted {
      SumPut(Holding(bitmap), k.entries, e);
      DropAllKeepsBitmap(OnCanvas(Showing(c), k'), gone, bitmap);
    } else {
      RejectedKeepsBitmap(Showing(c).pipe, e, bitmap);
    }
  }

  lemma RejectedKeepsBitmap(p: Pipe, e: Entry, bitmap: int)
    requires Kept(p, [], Some(e.bitmap), bitmap)
    ensures Kept(NotAccepted(p, e), [], None, bitmap)
  {
    hide RemoveStored;
  }

  lemma CommitsKeepsBitmap(c: Client, t: W.Task, x: int, kind: Kind, bitmap: int)
    requires Kept(c.pipe, [], Some(x), bitmap)
    ensures Kept(Commits(c, t, x, kind).pipe, [], None, bitmap)
  {
    var (budget, bytes) := Commit(c.pipe.budget, JobOf(t), kind);
    var p := c.pipe.(budget := budget);
    if bytes.Some? && p.canvas.Some? {
      StoreKeepsBitmap(c.(pipe := p), p.canvas.value, EntryOf(t, x, bytes.value, kind), bitmap);
    }
  }

  lemma WorkerKeepsBitmap(c: Client, r: W.Response, bitmap: int)
    requires Kept(c.pipe, [], None, bitmap)
    ensures Kept(OnWorker(c, r).pipe, [], None, bitmap)
  {
    hide Commits, Cancel, UpdatedPhase;
    var job := JobOf(r.task);
    var p := Arrive(c.pipe, r);
    assert Kept(p, [], if r.Decoded? then Some(r.bitmap) else None, bitmap);
    if job in p.pending && r.Decoded? {
      var d := c.(pipe := Taken(p, job));
      if Current(d, r.task) { CommitsKeepsBitmap(d, r.task, r.bitmap, p.pending[job].kind, bitmap); }
    }
  }

  lemma RequestKeepsBitmap(c: Client, signature: int, bitmap: int)
    requires Kept(c.pipe, [], None, bitmap)
    ensures Kept(RequestView(c, signature).pipe, [], None, bitmap)
  {
    BeginKeepsBitmap(Asking(c, signature), c.pipe.epoch + 1, bitmap);
  }

  lemma OpenKeepsBitmap(c: Client, bitmap: int)
    requires Kept(c.pipe, [], None, bitmap)
    ensures Kept(OpenSelected(c).pipe, [], None, bitmap)
  {
    ResetKeepsBitmap(Leaving(c), bitmap);
  }

  lemma TextKeepsBitmap(c: Client, control: Control, signature: int, bitmap: int)
    requires Kept(c.pipe, [], None, bitmap)
    ensures Kept(OnText(c, control, signature).pipe, [], None, bitmap)
  {
    match control
    case Welcome(_, maxTileBytes) =>
      OpenKeepsBitmap(c.(nav := c.nav.(welcome := Some(maxTileBytes)), phase := Ready), bitmap);
    case ManifestIs(raw) =>
      if c.nav.selected.Some? {
        var parsed := ParseManifest(raw, c.nav.selected.value, c.pipe.epoch);
        if parsed.Ok? {
          StartKeepsBitmap(Knowing(c, parsed.value), parsed.value, bitmap);
          RequestKeepsBitmap(StartCanvas(Knowing(c, parsed.value), parsed.value), signature, bitmap);
        }
      }
    case PlanIs(_) =>
    case Done(_) =>
    case Refused(_, _) =>
    case Malformed =>
  }

  lemma {:induction false} ShowAllKeepsBitmap(c: Client, shown: seq<Entry>, bitmap: int)
    requires Kept(c.pipe, [], None, bitmap)
    ensures Kept(ShowAll(c, shown).pipe, [], None, bitmap)
    decreases |shown|
  {
    if shown != [] { ShowAllKeepsBitmap(UpdatePhase(c.(pipe := Presented(c.pipe, shown[0]))), shown[1..], bitmap); }
  }

  lemma FrameKeepsBitmap(c: Client, context: bool, bitmap: int)
    requires Kept(c.pipe, [], None, bitmap)
    ensures Kept(OnFrame(c, context).pipe, [], None, bitmap)
  {
    if c.pipe.canvas.Some? {
      var (k, shown) := Paint(c.pipe.canvas.value, context);
      SumPresentAll(Holding(bitmap), c.pipe.canvas.value.entries);
      ShowAllKeepsBitmap(OnCanvas(c, k), shown, bitmap);
    }
  }

  lemma AttachKeepsBitmap(c: Client, bitmap: int)
    requires Kept(c.pipe, [], None, bitmap)
    ensures Kept(AttachCanvas(c).pipe, [], None, bitmap)
  {
    ResetKeepsBitmap(c, bitmap);
    ResetEmpties(c);
    if c.nav.manifest.Some? { StartKeepsBitmap(OnCanvas(ResetCanvas(c), BLANK), c.nav.manifest.value, bitmap); }
  }

  lemma ViewportKeepsBitmap(c: Client, signature: int, bitmap: int)
    requires Kept(c.pipe, [], None, bitmap)
    ensures Kept(SetViewport(c, signature).pipe, [], None, bitmap)
  {
    var l := c.(nav := c.nav.(viewport := true, layout := true));
    if l.pipe.canvas.None? { RequestKeepsBitmap(l, signature, bitmap); }
    else { RequestKeepsBitmap(OnCanvas(l, SetView(SetLayout(l.pipe.canvas.value))), signature, bitmap); }
  }

  lemma ConnectKeepsBitmap(c: Client, bitmap: int)
    requires Kept(c.pipe, [], None, bitmap)
    ensures Kept(Connect(c).pipe, [], None, bitmap)
  {
    ResetKeepsBitmap(Renewed(c), bitmap);
  }

  lemma CloseKeepsBitmap(c: Client, reason: bool, bitmap: int)
    requires Kept(c.pipe, [], None, bitmap)
    ensures Kept(OnClose(c, reason).pipe, [], None, bitmap)
  {
    ResetKeepsBitmap(Emptied(c), bitmap);
  }

  lemma DeliveryKeepsBitmap(c: Client, h: Header, bitmap: int)
    requires Kept(c.pipe, [], None, bitmap)
    ensures Kept(OnDelivery(c, h).pipe, [], None, bitmap)
  {
    hide Reserve, DecodedBytes, Classify;
  }

  lemma BinaryKeepsBitmap(c: Client, tile: Option<Header>, bitmap: int)
    requires Kept(c.pipe, [], None, bitmap)
    ensures Kept(OnBinary(c, tile).pipe, [], None, bitmap)
  {
    hide ValidateTile, Lookup, OnDelivery;
    if tile.Some? { DeliveryKeepsBitmap(Received(c, tile.value), tile.value, bitmap); }
  }

  lemma NavigateKeepsBitmap(c: Client, bitmap: int)
    requires Kept(c.pipe, [], None, bitmap)
    ensures Kept(Navigate(c).pipe, [], None, bitmap)
  {
  }

  lemma ModeKeepsBitmap(c: Client, focus: bool, signature: int, bitmap: int)
    requires Kept(c.pipe, [], None, bitmap)
    ensures Kept(SetMode(c, focus, signature).pipe, [], None, bitmap)
  {
    NavigateKeepsBitmap(c.(nav := c.nav.(focus := focus)), bitmap);
    RequestKeepsBitmap(Focused(c, focus), signature, bitmap);
  }

  /** Across every callback, connections included: closed exactly once, or resident. */
  lemma StepKeepsBitmap(c: Client, e: Event, bitmap: int)
    requires Kept(c.pipe, [], None, bitmap)
    ensures Kept(Step(c, e).pipe, [], None, bitmap)
  {
    match e
    case Connects => ConnectKeepsBitmap(c, bitmap);
    case LinkOpens =>
    case LinkDrops =>
    case LinkCloses(reason) => CloseKeepsBitmap(c, reason, bitmap);
    case TextArrives(control, signature) => TextKeepsBitmap(c, control, signature, bitmap);
    case TileArrives(tile) => BinaryKeepsBitmap(c, tile, bitmap);
    case WorkerAnswers(r) => WorkerKeepsBitmap(c, r, bitmap);
    case FrameRuns(context) => FrameKeepsBitmap(c, context, bitmap);
    case CanvasAttached => AttachKeepsBitmap(c, bitmap);
    case ImageSelected(imageId) => OpenKeepsBitmap(c.(nav := c.nav.(selected := Some(imageId))), bitmap);
    case ImageRetried => OpenKeepsBitmap(c, bitmap);
    case ViewportSet(signature) => ViewportKeepsBitmap(c, signature, bitmap);
    case ModeSet(focus, signature) => ModeKeepsBitmap(c, focus, signature, bitmap);
    case ViewMoved => NavigateKeepsBitmap(c, bitmap);
    case ViewRequested(signature) => RequestKeepsBitmap(c, signature, bitmap);
    case Broke =>
  }

  // ----- nothing stale is resident -----

  ghost predicate Fits(m: Manifest, epoch: int, e: Entry) {
    SameImage(m, e.header.imageId, e.header.imageVersion) && (e.header.z != 0 ==> e.header.epoch == epoch)
  }

  ghost predicate AllFit(m: Manifest, epoch: int, entries: seq<Entry>) {
    forall i | 0 <= i < |entries| :: Fits(m, epoch, entries[i])
  }

  /**
    A compositor that is started shows the client's manifest; every entry is of that image, of this epoch
    unless z = 0, and alone in its place.
  */
  ghost predicate Shows(k: Compositor, manifest: Option<Manifest>, epoch: int) {
    (k.currentEpoch == 0 || k.currentEpoch == epoch) && Distinct(k.entries) &&
    if k.manifest.None? then k.entries == []
    else k.manifest == manifest && k.layout && k.view && AllFit(k.manifest.value, epoch, k.entries)
  }

  ghost predicate Fresh(c: Client) {
    (c.nav.layout ==> c.nav.viewport) &&
    (c.pipe.canvas.Some? ==>
       Shows(c.pipe.canvas.value, c.nav.manifest, c.pipe.epoch) &&
       (c.pipe.canvas.value.manifest.Some? ==> c.nav.layout))
  }

  ghost predicate SameView(c: Client, d: Client) {
    d.pipe.canvas == c.pipe.canvas && d.pipe.epoch == c.pipe.epoch && d.nav.manifest == c.nav.manifest &&
    d.nav.layout == c.nav.layout && d.nav.viewport == c.nav.viewport
  }

  lemma DropAllSameView(c: Client, gone: seq<Entry>)
    ensures SameView(c, DropAll(c, gone))
  {
    DropAllChangesLittle(c, gone);
  }

  lemma ResetIsFresh(c: Client)
    requires c.nav.layout ==> c.nav.viewport
    ensures Fresh(ResetCanvas(c))
    ensures ResetCanvas(c).nav == c.nav && ResetCanvas(c).pipe.epoch == c.pipe.epoch
    ensures ResetCanvas(c).pipe.canvas == if c.pipe.canvas.Some? then Some(BLANK) else None
  {
    if c.pipe.canvas.Some? { DropAllChangesLittle(OnCanvas(c, BLANK), c.pipe.canvas.value.entries); }
  }

  lemma StartIsFresh(c: Client, m: Manifest)
    requires c.nav.layout && c.nav.viewport && c.nav.manifest == Some(m)
    ensures Fresh(StartCanvas(c, m))
  {
    if c.pipe.canvas.Some? {
      var (k, gone) := StartImage(c.pipe.canvas.value, m);
      DropAllSameView(OnCanvas(c, k), gone);
    }
  }

  /** A new epoch keeps the coarse tiles of the image and none of the fine ones. */
  lemma BeginShows(k: Compositor, manifest: Option<Manifest>, before: int, epoch: int)
    requires Shows(k, manifest, before)
    ensures Shows(BeginEpoch(k, epoch).0, manifest, epoch)
  {
    var kept := Coarse(k.entries);
    LevelsOf(k.entries);
    CoarseKeepsDistinct(k.entries);
    ComeFrom(k.entries, kept);
    if k.manifest.Some? {
      forall i | 0 <= i < |kept| ensures Fits(k.manifest.value, epoch, kept[i]) {
        assert kept[i] in kept;
        assert kept[i] in k.entries;
      }
    }
  }

  lemma RequestIsFresh(c: Client, signature: int)
    requires Fresh(c)
    ensures Fresh(RequestView(c, signature))
  {
    if CanRequest(c, signature) && c.pipe.epoch < MAX_EPOCH && c.pipe.canvas.Some? {
      var epoch := c.pipe.epoch + 1;
      var (k, gone) := BeginEpoch(c.pipe.canvas.value, epoch);
      BeginShows(c.pipe.canvas.value, c.nav.manifest, c.pipe.epoch, epoch);
      DropAllSameView(OnCanvas(Asking(c, signature), k), gone);
    }
  }

  lemma ManifestIsFresh(c: Client, raw: Manifest, signature: int)
    requires Fresh(c)
    ensures Fresh(OnManifest(c, raw, signature))
  {
    if c.nav.selected.Some? {
      var parsed := ParseManifest(raw, c.nav.selected.value, c.pipe.epoch);
      if parsed.Ok? && c.nav.viewport {
        StartIsFresh(Knowing(c, parsed.value), parsed.value);
        RequestIsFresh(StartCanvas(Knowing(c, parsed.value), parsed.value), signature);
      }
    }
  }

  lemma OpenIsFresh(c: Client)
    requires Fresh(c)
    ensures Fresh(OpenSelected(c))
  {
    ResetIsFresh(Leaving(c));
  }

  lemma WelcomeIsFresh(c: Client, version: int, maxTileBytes: int)
    requires Fresh(c)
    ensures Fresh(OnWelcome(c, version, maxTileBytes))
  {
    hide OpenSelected;
    OpenIsFresh(c.(nav := c.nav.(welcome := Some(maxTileBytes)), phase := Ready));
  }

  /** What the other control messages leave alone. */
  lemma OtherTextKeeps(c: Client, control: Control, signature: int)
    requires !control.Welcome? && !control.ManifestIs?
    ensures var d := OnText(c, control, signature);
            d.pipe.canvas == c.pipe.canvas && d.pipe.epoch == c.pipe.epoch && d.nav.manifest == c.nav.manifest &&
            d.nav.layout == c.nav.layout && d.nav.viewport == c.nav.viewport
  {
    hide OnWelcome, OnManifest;
  }

  lemma OtherTextIsFresh(c: Client, control: Control, signature: int)
    requires Fresh(c) && !control.Welcome? && !control.ManifestIs?
    ensures Fresh(OnText(c, control, signature))
  {
    hide OnText;
    OtherTextKeeps(c, control, signature);
  }

  lemma TextIsFresh(c: Client, control: Control, signature: int)
    requires Fresh(c)
    ensures Fresh(OnText(c, control, signature))
  {
    hide Fresh, OnWelcome, OnManifest;
    match control
    case Welcome(version, maxTileBytes) => WelcomeIsFresh(c, version, maxTileBytes);
    case ManifestIs(raw) => ManifestIsFresh(c, raw, signature);
    case _ => OtherTextIsFresh(c, control, signature);
  }

  lemma PutShows(k: Compositor, manifest: Option<Manifest>, epoch: int, e: Entry)
    requires Shows(k, manifest, epoch) && Accepts(k, e.header) && e.header.epoch == epoch
    ensures Shows(Store(k, e).0, manifest, epoch)
  {
    var put := Put(k.entries, e);
    PutMembers(k.entries, e);
    PutKeepsDistinct(k.entries, e);
    forall i | 0 <= i < |put| ensures Fits(k.manifest.value, epoch, put[i]) {
      assert put[i] in put;
    }
  }

  lemma StoreIsFresh(c: Client, k: Compositor, e: Entry)
    requires Fresh(c) && c.pipe.canvas == Some(k) && e.header.epoch == c.pipe.epoch
    ensures Fresh(StoreOnCanvas(c, k, e))
  {
    var (k', gone, accepted) := Store(k, e);
    if accepted {
      PutShows(k, c.nav.manifest, c.pipe.epoch, e);
      DropAllSameView(c.(pipe := c.pipe.(presentations := c.pipe.presentations + 1, canvas := Some(k'))), gone);
    }
  }

  lemma CommitsIsFresh(c: Client, t: W.Task, bitmap: int, kind: Kind)
    requires Fresh(c) && t.header.epoch == c.pipe.epoch
    ensures Fresh(Commits(c, t, bitmap, kind))
  {
    var (budget, bytes) := Commit(c.pipe.budget, JobOf(t), kind);
    var p := c.pipe.(budget := budget);
    if bytes.Some? && p.canvas.Some? {
      StoreIsFresh(c.(pipe := p), p.canvas.value, EntryOf(t, bitmap, bytes.value, kind));
    }
  }

  lemma WorkerIsFresh(c: Client, r: W.Response)
    requires Fresh(c)
    ensures Fresh(OnWorker(c, r))
  {
    var job := JobOf(r.task);
    var p := Arrive(c.pipe, r);
    if job in p.pending && r.Decoded? {
      var d := c.(pipe := Taken(p, job));
      if Current(d, r.task) { CommitsIsFresh(d, r.task, r.bitmap, p.pending[job].kind); }
    }
  }

  lemma FrameIsFresh(c: Client, context: bool)
    requires Fresh(c)
    ensures Fresh(OnFrame(c, context))
  {
    if c.pipe.canvas.Some? {
      var (k, shown) := Paint(c.pipe.canvas.value, context);
      assert Shows(k, c.nav.manifest, c.pipe.epoch);
      ShowAllChangesLittle(OnCanvas(c, k), shown);
    }
  }

  lemma AttachIsFresh(c: Client)
    requires Fresh(c)
    ensures Fresh(AttachCanvas(c))
  {
    ResetIsFresh(c);
    if c.nav.manifest.Some? && c.nav.layout { StartIsFresh(OnCanvas(ResetCanvas(c), BLANK), c.nav.manifest.value); }
  }

  lemma ViewportIsFresh(c: Client, signature: int)
    requires Fresh(c)
    ensures Fresh(SetViewport(c, signature))
  {
    var l := c.(nav := c.nav.(viewport := true, layout := true));
    if l.pipe.canvas.None? { RequestIsFresh(l, signature); }
    else { RequestIsFresh(OnCanvas(l, SetView(SetLayout(l.pipe.canvas.value))), signature); }
  }

  lemma ConnectIsFresh(c: Client)
    requires Fresh(c)
    ensures Fresh(Connect(c))
  {
    ResetIsFresh(Renewed(c));
  }

  lemma CloseIsFresh(c: Client, reason: bool)
    requires Fresh(c)
    ensures Fresh(OnClose(c, reason))
  {
    ResetIsFresh(Emptied(c));
  }

  lemma BinaryIsFresh(c: Client, tile: Option<Header>)
    requires Fresh(c)
    ensures Fresh(OnBinary(c, tile))
  {
    hide ValidateTile, Lookup, DecodedBytes, Classify, Shows;
  }

  lemma NavigateIsFresh(c: Client)
    requires Fresh(c)
    ensures Fresh(Navigate(c))
  {
  }

  lemma ModeIsFresh(c: Client, focus: bool, signature: int)
    requires Fresh(c)
    ensures Fresh(SetMode(c, focus, signature))
  {
    NavigateIsFresh(c.(nav := c.nav.(focus := focus)));
    RequestIsFresh(Focused(c, focus), signature);
  }

  /** In every state the client can be in, whatever happens next. */
  lemma StepIsFresh(c: Client, e: Event)
    requires Fresh(c)
    ensures Fresh(Step(c, e))
  {
    hide OnText, OnBinary, OnWorker, OnFrame, AttachCanvas, SetViewport, Connect, OnClose;
    match e
    case Connects => ConnectIsFresh(c);
    case LinkOpens =>
    case LinkDrops =>
    case LinkCloses(reason) => CloseIsFresh(c, reason);
    case TextArrives(control, signature) => TextIsFresh(c, control, signature);
    case TileArrives(tile) => BinaryIsFresh(c, tile);
    case WorkerAnswers(r) => WorkerIsFresh(c, r);
    case FrameRuns(context) => FrameIsFresh(c, context);
    case CanvasAttached => AttachIsFresh(c);
    case ImageSelected(imageId) => OpenIsFresh(c.(nav := c.nav.(selected := Some(imageId))));
    case ImageRetried => OpenIsFresh(c);
    case ViewportSet(signature) => ViewportIsFresh(c, signature);
    case ModeSet(focus, signature) => ModeIsFresh(c, focus, signature);
    case ViewMoved => NavigateIsFresh(c);
    case ViewRequested(signature) => RequestIsFresh(c, signature);
    case Broke =>
  }

  /**
    When the compositor turns a tile away that the client found current: exactly when it was never
    started for the image, or has begun no epoch since it was started and the tile is not of level 0.
  */
  lemma TurnedAwayIff(c: Client, k: Compositor, t: W.Task)
    requires Fresh(c) && c.pipe.canvas == Some(k) && Current(c, t) && t.header.epoch >= 1
    ensures Accepts(k, t.header) <==> k.manifest.Some? && (t.header.z == 0 || k.currentEpoch != 0)
  {
  }

  /**
    A MANIFEST of the current epoch whose view has been asked for already starts the compositor afresh, with
    no epoch.
  */
  lemma RepeatedManifestForgetsTheEpoch(c: Client, m: Manifest, signature: int)
    requires c.pipe.canvas.Some? && c.nav.viewport && c.nav.selected.Some? && c.nav.signature == Some(signature)
    requires !StaleControl(m.epoch, c.pipe.epoch) && ParseManifest(m, c.nav.selected.value, c.pipe.epoch) == Ok(m)
    ensures var d := OnManifest(c, m, signature);
            d.pipe.epoch == c.pipe.epoch && d.pipe.canvas.Some? &&
            d.pipe.canvas.value.manifest == Some(m) && d.pipe.canvas.value.currentEpoch == 0
  {
    var known := Knowing(c, m);
    var (k, gone) := StartImage(c.pipe.canvas.value, m);
    DropAllChangesLittle(OnCanvas(known, k), gone);
  }
}
