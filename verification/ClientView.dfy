/**
  What the client tells the viewer: the view is only called settled when no tile
  is on its way, and every tile waiting to be painted has a frame coming.
*/
module ClientView {
  import opened Budgets
  import opened ClientBooks
  import opened ClientSafety
  import opened Clients
  import opened Compositors
  import opened Pyramid
  import opened Results
  import L = Ledgers
  import W = Workers

  // ----- settled -----

  /** The view is only called settled when no tile is being decoded or waits to be painted. */
  ghost predicate Drained(c: Client) {
    c.pipe.presentations >= 0 && (c.phase.Observing? ==> c.pipe.pending == map[] && c.pipe.presentations == 0)
  }

  lemma UpdateDrains(c: Client)
    requires c.pipe.presentations >= 0
    ensures Drained(UpdatePhase(c))
  {
  }

  lemma DropDrains(c: Client, e: Entry)
    requires Drained(c)
    ensures Drained(Drop(c, e))
  {
  }

  lemma {:induction false} DropAllDrains(c: Client, gone: seq<Entry>)
    requires Drained(c)
    ensures Drained(DropAll(c, gone))
    decreases |gone|
  {
    if gone != [] {
      DropDrains(c, gone[0]);
      DropAllDrains(Drop(c, gone[0]), gone[1..]);
    }
  }

  lemma {:induction false} ShowAllDrains(c: Client, shown: seq<Entry>)
    requires Drained(c)
    ensures Drained(ShowAll(c, shown))
    decreases |shown|
  {
    if shown != [] {
      var d := c.(pipe := Presented(c.pipe, shown[0]));
      UpdateDrains(d);
      ShowAllDrains(UpdatePhase(d), shown[1..]);
    }
  }

  lemma ResetDrains(c: Client)
    requires Drained(c)
    ensures Drained(ResetCanvas(c))
  {
    if c.pipe.canvas.Some? { DropAllDrains(OnCanvas(c, BLANK), c.pipe.canvas.value.entries); }
  }

  lemma StartDrains(c: Client, m: Manifest)
    requires Drained(c)
    ensures Drained(StartCanvas(c, m))
  {
    if c.pipe.canvas.Some? {
      var (k, gone) := StartImage(c.pipe.canvas.value, m);
      DropAllDrains(OnCanvas(c, k), gone);
    }
  }

  lemma RequestDrains(c: Client, signature: int)
    requires Drained(c)
    ensures Drained(RequestView(c, signature))
  {
    if c.pipe.canvas.Some? {
      var a := Asking(c, signature);
      var (k, gone) := BeginEpoch(c.pipe.canvas.value, c.pipe.epoch + 1);
      DropAllDrains(OnCanvas(a, k), gone);
    }
  }

  lemma OpenDrains(c: Client)
    requires Drained(c)
    ensures Drained(OpenSelected(c))
  {
    ResetDrains(Leaving(c));
  }

  lemma ManifestDrains(c: Client, raw: Manifest, signature: int)
    requires Drained(c)
    ensures Drained(OnManifest(c, raw, signature))
  {
    if c.nav.selected.Some? {
      var parsed := ParseManifest(raw, c.nav.selected.value, c.pipe.epoch);
      if parsed.Ok? {
        StartDrains(Knowing(c, parsed.value), parsed.value);
        RequestDrains(StartCanvas(Knowing(c, parsed.value), parsed.value), signature);
      }
    }
  }

  lemma TextDrains(c: Client, control: Control, signature: int)
    requires Drained(c)
    ensures Drained(OnText(c, control, signature))
  {
    match control
    case Welcome(_, maxTileBytes) => OpenDrains(c.(nav := c.nav.(welcome := Some(maxTileBytes)), phase := Ready));
    case ManifestIs(raw) => ManifestDrains(c, raw, signature);
    case PlanIs(_) =>
    case Done(_) =>
    case Refused(_, _) =>
    case Malformed =>
  }

  lemma BinaryDrains(c: Client, tile: Option<Header>)
    requires Drained(c)
    ensures Drained(OnBinary(c, tile))
  {
  }

  lemma FrameDrains(c: Client, context: bool)
    requires Drained(c)
    ensures Drained(OnFrame(c, context))
  {
    if c.pipe.canvas.Some? {
      var (k, shown) := Paint(c.pipe.canvas.value, context);
      ShowAllDrains(OnCanvas(c, k), shown);
    }
  }

  lemma AttachDrains(c: Client)
    requires Drained(c)
    ensures Drained(AttachCanvas(c))
  {
    ResetDrains(c);
    if c.nav.manifest.Some? { StartDrains(OnCanvas(ResetCanvas(c), BLANK), c.nav.manifest.value); }
  }

  lemma ViewportDrains(c: Client, signature: int)
    requires Drained(c)
    ensures Drained(SetViewport(c, signature))
  {
    var l := c.(nav := c.nav.(viewport := true, layout := true));
    if l.pipe.canvas.None? { RequestDrains(l, signature); }
    else { RequestDrains(OnCanvas(l, SetView(SetLayout(l.pipe.canvas.value))), signature); }
  }

  lemma WorkerDrains(c: Client, r: W.Response)
    requires Books(c.pipe, [], None) && Drained(c)
    ensures Drained(OnWorker(c, r))
  {
    WorkerKeepsBooks(c, r);
    SumNotNegative(Waiting, Entries(OnWorker(c, r).pipe));
  }

  lemma CloseDrains(c: Client, reason: bool)
    requires OwnPending(c.pipe)
    ensures Drained(OnClose(c, reason))
  {
    CloseEmpties(c, reason);
  }

  lemma StepDrains(c: Client, e: Event)
    requires Books(c.pipe, [], None) && Drained(c)
    ensures Drained(Step(c, e))
  {
    hide OnText, OnBinary, OnWorker, OnFrame, AttachCanvas, SetViewport, OnClose;
    match e
    case Connects =>
    case LinkOpens =>
    case LinkDrops =>
    case LinkCloses(reason) => CloseDrains(c, reason);
    case TextArrives(control, signature) => TextDrains(c, control, signature);
    case TileArrives(tile) => BinaryDrains(c, tile);
    case WorkerAnswers(r) => WorkerDrains(c, r);
    case FrameRuns(context) => FrameDrains(c, context);
    case CanvasAttached => AttachDrains(c);
    case ImageSelected(imageId) => OpenDrains(c.(nav := c.nav.(selected := Some(imageId))));
    case ImageRetried => OpenDrains(c);
    case ViewportSet(signature) => ViewportDrains(c, signature);
    case ModeSet(focus, signature) => RequestDrains(Focused(c, focus), signature);
    case ViewMoved =>
    case ViewRequested(signature) => RequestDrains(c, signature);
    case Broke =>
  }

  // ----- the phase of a new connection -----

  /**
    The callbacks of the entries that a new connection throws out run after the phase was
    set and before the pending decodes are forgotten, so they can change it.
  */
  lemma {:induction false} CallbacksMaySayProcessing(c: Client, gone: seq<Entry>)
    requires !c.nav.error && !c.nav.serverDone && c.nav.plan.None?
    requires c.phase.Linking? || c.phase.Processing?
    requires c.pipe.presentations == Sum(Waiting, gone)
    ensures DropAll(c, gone).phase ==
            if c.phase.Linking? &&
               (Sum(Waiting, gone) == 0 || (Sum(Waiting, gone) == 1 && c.pipe.pending == map[])) then Linking
            else Processing
    decreases |gone|
  {
    if gone != [] {
      SumHead(Waiting, gone);
      SumNotNegative(Waiting, gone[1..]);
      CallbacksMaySayProcessing(Drop(c, gone[0]), gone[1..]);
    }
  }

  /** A client that connects says so exactly when nothing, or one tile alone, was left to be painted. */
  lemma ConnectingIsSaidIff(c: Client)
    requires Books(c.pipe, [], None)
    ensures Connect(c).phase.Linking? <==>
            c.pipe.presentations == 0 || (c.pipe.presentations == 1 && c.pipe.pending == map[])
  {
    if c.pipe.canvas.Some? { CallbacksMaySayProcessing(OnCanvas(Renewed(c), BLANK), c.pipe.canvas.value.entries); }
  }

  // ----- a frame is coming -----

  /** An entry that waits to be painted has a frame scheduled. */
  ghost predicate Scheduled(p: Pipe) {
    p.canvas.Some? && !p.canvas.value.frame ==> Sum(Waiting, p.canvas.value.entries) == 0
  }

  lemma DropAllScheduled(c: Client, gone: seq<Entry>)
    requires Scheduled(c.pipe)
    ensures Scheduled(DropAll(c, gone).pipe)
  {
    DropAllChangesLittle(c, gone);
  }

  lemma ResetScheduled(c: Client)
    requires Scheduled(c.pipe)
    ensures Scheduled(ResetCanvas(c).pipe)
  {
    if c.pipe.canvas.Some? { DropAllScheduled(OnCanvas(c, BLANK), c.pipe.canvas.value.entries); }
  }

  lemma StartScheduled(c: Client, m: Manifest)
    requires Scheduled(c.pipe)
    ensures Scheduled(StartCanvas(c, m).pipe)
  {
    if c.pipe.canvas.Some? {
      var (k, gone) := StartImage(c.pipe.canvas.value, m);
      DropAllScheduled(OnCanvas(c, k), gone);
    }
  }

  lemma RequestScheduled(c: Client, signature: int)
    requires Scheduled(c.pipe)
    ensures Scheduled(RequestView(c, signature).pipe)
  {
    if c.pipe.canvas.Some? {
      var (k, gone) := BeginEpoch(c.pipe.canvas.value, c.pipe.epoch + 1);
      DropAllScheduled(OnCanvas(Asking(c, signature), k), gone);
    }
  }

  lemma OpenScheduled(c: Client)
    requires Scheduled(c.pipe)
    ensures Scheduled(OpenSelected(c).pipe)
  {
    ResetScheduled(Leaving(c));
  }

  lemma TextScheduled(c: Client, control: Control, signature: int)
    requires Scheduled(c.pipe)
    ensures Scheduled(OnText(c, control, signature).pipe)
  {
    match control
    case Welcome(_, maxTileBytes) => OpenScheduled(c.(nav := c.nav.(welcome := Some(maxTileBytes)), phase := Ready));
    case ManifestIs(raw) =>
      if c.nav.selected.Some? {
        var parsed := ParseManifest(raw, c.nav.selected.value, c.pipe.epoch);
        if parsed.Ok? {
          StartScheduled(Knowing(c, parsed.value), parsed.value);
          RequestScheduled(StartCanvas(Knowing(c, parsed.value), parsed.value), signature);
        }
      }
    case PlanIs(_) =>
    case Done(_) =>
    case Refused(_, _) =>
    case Malformed =>
  }

  lemma StoreScheduled(c: Client, k: Compositor, e: Entry)
    requires Scheduled(c.pipe) && c.pipe.canvas == Some(k)
    ensures Scheduled(StoreOnCanvas(c, k, e).pipe)
  {
    var (k', gone, accepted) := Store(k, e);
    if accepted {
      DropAllScheduled(c.(pipe := c.pipe.(presentations := c.pipe.presentations + 1, canvas := Some(k'))), gone);
    }
  }

  lemma CommitsScheduled(c: Client, t: W.Task, bitmap: int, kind: Kind)
    requires Scheduled(c.pipe)
    ensures Scheduled(Commits(c, t, bitmap, kind).pipe)
  {
    var (budget, bytes) := Commit(c.pipe.budget, JobOf(t), kind);
    var p := c.pipe.(budget := budget);
    if bytes.Some? && p.canvas.Some? {
      StoreScheduled(c.(pipe := p), p.canvas.value, EntryOf(t, bitmap, bytes.value, kind));
    }
  }

  lemma WorkerScheduled(c: Client, r: W.Response)
    requires Scheduled(c.pipe)
    ensures Scheduled(OnWorker(c, r).pipe)
  {
    var job := JobOf(r.task);
    var p := Arrive(c.pipe, r);
    if job in p.pending && r.Decoded? {
      var d := c.(pipe := Taken(p, job));
      if Current(d, r.task) { CommitsScheduled(d, r.task, r.bitmap, p.pending[job].kind); }
    }
  }

  /** A frame with a drawing context paints every entry, and with it the books say that nothing waits. */
  lemma FramePaintsAll(c: Client)
    requires Fresh(c) && Books(c.pipe, [], None) && c.pipe.canvas.Some?
    ensures OnFrame(c, true).pipe.presentations == 0 && Scheduled(OnFrame(c, true).pipe)
    ensures OnFrame(c, true).pipe.pending == c.pipe.pending
  {
    var k := c.pipe.canvas.value;
    var (k', shown) := Paint(k, true);
    FrameKeepsBooks(c, true);
    ShowAllChangesLittle(OnCanvas(c, k'), shown);
    SumPresentAll(Waiting, k.entries);
    assert Sum(Waiting, k'.entries) == 0;
  }

  lemma AttachScheduled(c: Client)
    requires Scheduled(c.pipe)
    ensures Scheduled(AttachCanvas(c).pipe)
  {
    if c.nav.manifest.Some? { StartScheduled(OnCanvas(ResetCanvas(c), BLANK), c.nav.manifest.value); }
  }

  lemma ViewportScheduled(c: Client, signature: int)
    requires Scheduled(c.pipe)
    ensures Scheduled(SetViewport(c, signature).pipe)
  {
    var l := c.(nav := c.nav.(viewport := true, layout := true));
    if l.pipe.canvas.None? { RequestScheduled(l, signature); }
    else { RequestScheduled(OnCanvas(l, SetView(SetLayout(l.pipe.canvas.value))), signature); }
  }

  lemma BinaryScheduled(c: Client, tile: Option<Header>)
    requires Scheduled(c.pipe)
    ensures Scheduled(OnBinary(c, tile).pipe)
  {
  }

  lemma ConnectionsScheduled(c: Client, reason: bool)
    requires Scheduled(c.pipe)
    ensures Scheduled(Connect(c).pipe) && Scheduled(OnClose(c, reason).pipe)
  {
    ResetScheduled(Renewed(c));
    ResetScheduled(Emptied(c));
  }

  /** Only a frame without a drawing context can leave a tile waiting with no frame to come. */
  lemma StepScheduled(c: Client, e: Event)
    requires Scheduled(c.pipe) && Fresh(c) && Books(c.pipe, [], None) && Enabled(c, e)
    requires e.FrameRuns? ==> e.context
    ensures Scheduled(Step(c, e).pipe)
  {
    match e
    case Connects => ConnectionsScheduled(c, false);
    case LinkOpens =>
    case LinkDrops =>
    case LinkCloses(reason) => ConnectionsScheduled(c, reason);
    case TextArrives(control, signature) => TextScheduled(c, control, signature);
    case TileArrives(tile) => BinaryScheduled(c, tile);
    case WorkerAnswers(r) => WorkerScheduled(c, r);
    case FrameRuns(context) => FramePaintsAll(c);
    case CanvasAttached => AttachScheduled(c);
    case ImageSelected(imageId) => OpenScheduled(c.(nav := c.nav.(selected := Some(imageId))));
    case ImageRetried => OpenScheduled(c);
    case ViewportSet(signature) => ViewportScheduled(c, signature);
    case ModeSet(focus, signature) => RequestScheduled(Focused(c, focus), signature);
    case ViewMoved =>
    case ViewRequested(signature) => RequestScheduled(c, signature);
    case Broke =>
  }
}
