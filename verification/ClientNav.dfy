/**
  What the user and the server say, seen apart from the tiles: the image, the plan, the
  view asked for, and what the compositor has been told of them.
*/
module ClientNav {
  import opened Budgets
  import opened ClientBooks
  import opened ClientBudget
  import opened ClientRuns
  import opened ClientSafety
  import opened Clients
  import opened Compositors
  import opened Pyramid
  import opened Results
  import S = ClientSystem
  import W = Workers

  // ----- a smaller machine -----

  /** What a compositor has been started with, and the epoch it has been told to begin. */
  datatype Easel = Easel(manifest: Option<Manifest>, epoch: int)

  datatype Outline = Outline(
    manifest: Option<Manifest>, plan: Option<Plan>, intent: Option<Intent>, epoch: int, easel: Option<Easel>)

  const BARE := Easel(None, 0)

  function EaselOf(p: Pipe): Option<Easel> {
    if p.canvas.None? then None else Some(Easel(p.canvas.value.manifest, p.canvas.value.currentEpoch))
  }

  /** All that the smaller machine sees of a client: none of its tiles, decodes, bytes or deliveries. */
  datatype Front = Front(nav: Nav, link: Link, epoch: int, easel: Option<Easel>)

  function FrontOf(c: Client): Front { Front(c.nav, c.pipe.link, c.pipe.epoch, EaselOf(c.pipe)) }

  function Outlined(f: Front): Outline { Outline(f.nav.manifest, f.nav.plan, f.nav.intent, f.epoch, f.easel) }

  function OutlineOf(c: Client): Outline { Outlined(FrontOf(c)) }

  /** A MANIFEST the client takes over. */
  predicate Hears(f: Front, m: Manifest) {
    !StaleControl(m.epoch, f.epoch) && f.nav.selected.Some? && ParseManifest(m, f.nav.selected.value, f.epoch).Ok?
  }

  /** Callbacks that leave the image for the one selected. */
  predicate Opens(f: Front, e: Event) {
    f.epoch < MAX_EPOCH &&
    match e
    case TextArrives(Welcome(version, _), _) => version == LUPA_VERSION && f.nav.selected.Some?
    case ImageSelected(_) => f.nav.welcome.Some? && f.link.Open?
    case ImageRetried => f.nav.welcome.Some? && f.link.Open? && f.nav.selected.Some?
    case _ => false
  }

  /** Some image is on show, and this is not what was asked for last. */
  predicate MayAsk(f: Front, signature: int) {
    f.nav.manifest.Some? && f.nav.selected.Some? && f.link.Open? && f.nav.signature != Some(signature)
  }

  /** Callbacks that ask for a view. */
  predicate Requests(f: Front, e: Event) {
    f.epoch < MAX_EPOCH &&
    match e
    case TextArrives(ManifestIs(m), signature) => Hears(f, m) && f.nav.viewport && f.nav.signature != Some(signature)
    case ViewportSet(signature) => !f.nav.viewport && MayAsk(f, signature)
    case ModeSet(_, signature) => f.nav.layout && MayAsk(f, signature)
    case ViewRequested(signature) => f.nav.layout && MayAsk(f, signature)
    case _ => false
  }

  function Wiped(o: Outline): Outline {
    Outline(None, None, None, o.epoch, if o.easel.Some? then Some(BARE) else None)
  }

  function AskedFor(o: Outline, focus: bool): Outline {
    o.(plan := None, intent := Some(Intent(o.epoch + 1, focus)), epoch := o.epoch + 1,
       easel := if o.easel.Some? then Some(o.easel.value.(epoch := o.epoch + 1)) else None)
  }

  function Heard(f: Front, m: Manifest): Outline {
    Outlined(f).(manifest := Some(m), plan := None,
                 easel := if f.easel.Some? && f.nav.viewport then Some(Easel(Some(m), 0)) else f.easel)
  }

  /** What a callback does to the outline of a client that it finds like this. */
  function NextOutline(f: Front, e: Event): Outline {
    var o := Outlined(f);
    match e
    case Connects => Wiped(o).(epoch := 0)
    case LinkCloses(_) => Wiped(o)
    case CanvasAttached => o.(easel := Some(if f.nav.layout then Easel(o.manifest, 0) else BARE))
    case TextArrives(PlanIs(plan), _) =>
      if o.manifest.Some? && plan.epoch == o.epoch && IntBetween(plan.epoch, 1, MAX_EPOCH)
         && IntBetween(plan.appliedLevel, 0, |o.manifest.value.levels| - 1)
         && IntBetween(plan.contextLevel, 0, |o.manifest.value.levels| - 1) then o.(plan := Some(plan)) else o
    case TextArrives(Refused(of, versionUnsupported), _) =>
      if (of.None? || (of.value == o.epoch && IntBetween(of.value, 1, MAX_EPOCH)))
         && !versionUnsupported && f.nav.welcome.Some? && o.manifest.Some? then o.(plan := None) else o
    case TextArrives(ManifestIs(m), _) =>
      if !Hears(f, m) then o else if Requests(f, e) then AskedFor(Heard(f, m), f.nav.focus) else Heard(f, m)
    case _ =>
      if Opens(f, e) then Wiped(o).(epoch := o.epoch + 1)
      else if Requests(f, e) then AskedFor(o, if e.ModeSet? then e.focus else f.nav.focus)
      else o
  }

  lemma RequestOutline(c: Client, signature: int)
    ensures OutlineOf(RequestView(c, signature)) ==
            if CanRequest(c, signature) && c.pipe.epoch < MAX_EPOCH then AskedFor(OutlineOf(c), c.nav.focus)
            else OutlineOf(c)
  {
    if c.pipe.canvas.Some? {
      var (k, gone) := BeginEpoch(c.pipe.canvas.value, c.pipe.epoch + 1);
      DropAllChangesLittle(OnCanvas(Asking(c, signature), k), gone);
    }
  }

  lemma ResetOutline(c: Client)
    ensures ResetCanvas(c).nav == c.nav && ResetCanvas(c).pipe.epoch == c.pipe.epoch
    ensures EaselOf(ResetCanvas(c).pipe) == if c.pipe.canvas.Some? then Some(BARE) else None
  {
    if c.pipe.canvas.Some? { DropAllChangesLittle(OnCanvas(c, BLANK), c.pipe.canvas.value.entries); }
  }

  lemma OpenOutline(c: Client)
    ensures OutlineOf(OpenSelected(c)) ==
            if c.nav.selected.Some? && c.pipe.epoch < MAX_EPOCH then Wiped(OutlineOf(c)).(epoch := c.pipe.epoch + 1)
            else OutlineOf(c)
  {
    ResetOutline(Leaving(c));
  }

  lemma StartOutline(c: Client, m: Manifest)
    ensures StartCanvas(c, m).nav == c.nav && StartCanvas(c, m).pipe.link == c.pipe.link
    ensures OutlineOf(StartCanvas(c, m)) ==
            OutlineOf(c).(easel := if c.pipe.canvas.Some? then Some(Easel(Some(m), 0)) else None)
  {
    if c.pipe.canvas.Some? {
      var (k, gone) := StartImage(c.pipe.canvas.value, m);
      DropAllChangesLittle(OnCanvas(c, k), gone);
    }
  }

  lemma ManifestOutline(c: Client, m: Manifest, signature: int)
    requires c.pipe.link.Open?
    ensures OutlineOf(OnManifest(c, m, signature)) == NextOutline(FrontOf(c), TextArrives(ManifestIs(m), signature))
  {
    if Hears(FrontOf(c), m) {
      ParsedIsAccepted(m, c.nav.selected.value, c.pipe.epoch);
      hide ParseManifest, Remember;
      var known := Knowing(c, m);
      StartOutline(known, m);
      RequestOutline(StartCanvas(known, m), signature);
    }
  }

  lemma WelcomeOutline(c: Client, version: int, maxTileBytes: int, signature: int)
    ensures OutlineOf(OnWelcome(c, version, maxTileBytes)) ==
            NextOutline(FrontOf(c), TextArrives(Welcome(version, maxTileBytes), signature))
  {
    OpenOutline(c.(nav := c.nav.(welcome := Some(maxTileBytes)), phase := Ready));
  }

  lemma PlanOutline(c: Client, plan: Plan, signature: int)
    ensures OutlineOf(OnPlan(c, plan)) == NextOutline(FrontOf(c), TextArrives(PlanIs(plan), signature))
  {
  }

  lemma RefusedOutline(c: Client, of: Option<int>, versionUnsupported: bool, signature: int)
    ensures OutlineOf(OnRefused(c, of, versionUnsupported)) ==
            NextOutline(FrontOf(c), TextArrives(Refused(of, versionUnsupported), signature))
  {
  }

  lemma OtherTextOutline(c: Client, epoch: int, signature: int)
    ensures OutlineOf(OnDone(c, epoch)) == NextOutline(FrontOf(c), TextArrives(Done(epoch), signature))
    ensures OutlineOf(Violation(c)) == NextOutline(FrontOf(c), TextArrives(Malformed, signature))
  {
  }

  lemma TextOutline(c: Client, control: Control, signature: int)
    requires c.pipe.link.Open?
    ensures OutlineOf(OnText(c, control, signature)) == NextOutline(FrontOf(c), TextArrives(control, signature))
  {
    hide OutlineOf, NextOutline, OnWelcome, OnManifest, OnPlan, OnDone, OnRefused, Violation;
    match control
    case Welcome(version, maxTileBytes) => WelcomeOutline(c, version, maxTileBytes, signature);
    case ManifestIs(m) => ManifestOutline(c, m, signature);
    case PlanIs(plan) => PlanOutline(c, plan, signature);
    case Done(epoch) => OtherTextOutline(c, epoch, signature);
    case Refused(of, versionUnsupported) => RefusedOutline(c, of, versionUnsupported, signature);
    case Malformed => OtherTextOutline(c, 0, signature);
  }

  lemma UndecodedEasel(p: Pipe, t: W.Task, failed: bool, bitmap: int)
    ensures OnUndecoded(p, t, failed).canvas == p.canvas && OnUndecoded(p, t, failed).epoch == p.epoch
    ensures TooLate(p, t, bitmap).canvas == p.canvas && TooLate(p, t, bitmap).epoch == p.epoch
  {
  }

  lemma AnswerEasel(c: Client, r: W.Response, kind: Kind)
    ensures EaselOf(OnAnswer(c, r, kind).pipe) == EaselOf(c.pipe) && OnAnswer(c, r, kind).pipe.epoch == c.pipe.epoch
  {
    hide Commits, OnUndecoded, TooLate;
    match r
    case Decoded(t, bitmap) =>
      UndecodedEasel(c.pipe, t, false, bitmap);
      CommitsOutline(c, t, bitmap, kind);
    case Discarded(t) => UndecodedEasel(c.pipe, t, false, 0);
    case Failed(t) => UndecodedEasel(c.pipe, t, true, 0);
  }

  lemma WorkerOutline(c: Client, r: W.Response)
    ensures OutlineOf(OnWorker(c, r)) == NextOutline(FrontOf(c), WorkerAnswers(r))
  {
    hide OnAnswer;
    WorkerSameNav(c, r);
    var job := JobOf(r.task);
    var p := Arrive(c.pipe, r);
    if job in p.pending { AnswerEasel(c.(pipe := Taken(p, job)), r, p.pending[job].kind); }
  }

  lemma CommitsOutline(c: Client, t: W.Task, bitmap: int, kind: Kind)
    ensures Commits(c, t, bitmap, kind).pipe.epoch == c.pipe.epoch
    ensures EaselOf(Commits(c, t, bitmap, kind).pipe) == EaselOf(c.pipe)
  {
    var (budget, bytes) := Commit(c.pipe.budget, JobOf(t), kind);
    var p := c.pipe.(budget := budget);
    if bytes.Some? && p.canvas.Some? {
      var (k', gone, accepted) := Store(p.canvas.value, EntryOf(t, bitmap, bytes.value, kind));
      DropAllChangesLittle(OnCanvas(Showing(c.(pipe := p)), k'), gone);
    }
  }

  lemma FrameOutline(c: Client, context: bool)
    ensures OutlineOf(OnFrame(c, context)) == NextOutline(FrontOf(c), FrameRuns(context))
  {
    if c.pipe.canvas.Some? {
      var (k, shown) := Paint(c.pipe.canvas.value, context);
      ShowAllChangesLittle(OnCanvas(c, k), shown);
    }
  }

  lemma AttachOutline(c: Client)
    ensures OutlineOf(AttachCanvas(c)) == NextOutline(FrontOf(c), CanvasAttached)
  {
    ResetOutline(c);
    if c.nav.manifest.Some? { StartOutline(OnCanvas(ResetCanvas(c), BLANK), c.nav.manifest.value); }
  }

  lemma ViewportOutline(c: Client, signature: int)
    ensures OutlineOf(SetViewport(c, signature)) == NextOutline(FrontOf(c), ViewportSet(signature))
  {
    hide RequestView, Hears, Wiped;
    RequestOutline(Fitted(c.(nav := c.nav.(viewport := true))), signature);
  }

  lemma SelectOutline(c: Client, e: Event)
    requires e.ImageSelected? || e.ImageRetried?
    ensures OutlineOf(Step(c, e)) == NextOutline(FrontOf(c), e)
  {
    if e.ImageSelected? { OpenOutline(c.(nav := c.nav.(selected := Some(e.imageId)))); } else { OpenOutline(c); }
  }

  lemma ConnectionOutline(c: Client, reason: bool)
    ensures OutlineOf(Connect(c)) == NextOutline(FrontOf(c), Connects)
    ensures OutlineOf(OnClose(c, reason)) == NextOutline(FrontOf(c), LinkCloses(reason))
  {
    ResetOutline(Renewed(c));
    ResetOutline(Emptied(c));
  }

  lemma DeliveryOutline(c: Client, h: Header)
    ensures OutlineOf(OnDelivery(c, h)) == OutlineOf(c)
  {
    hide Reserve, Classify, DecodedBytes;
  }

  lemma TileOutline(c: Client, h: Header)
    ensures OutlineOf(OnTile(c, h)) == OutlineOf(c)
  {
    hide OnDelivery;
    DeliveryOutline(Received(c, h), h);
  }

  lemma BinaryOutline(c: Client, tile: Option<Header>)
    ensures OutlineOf(OnBinary(c, tile)) == NextOutline(FrontOf(c), TileArrives(tile))
  {
    hide OnTile, ValidateTile, Lookup;
    if tile.Some? { TileOutline(c, tile.value); }
  }

  lemma OtherOutline(c: Client, e: Event)
    requires e.LinkOpens? || e.LinkDrops? || e.ViewMoved? || e.Broke?
    ensures OutlineOf(Step(c, e)) == NextOutline(FrontOf(c), e)
  {
  }

  lemma ModeOutline(c: Client, focus: bool, signature: int)
    ensures OutlineOf(SetMode(c, focus, signature)) == NextOutline(FrontOf(c), ModeSet(focus, signature))
  {
    RequestOutline(Focused(c, focus), signature);
  }

  lemma AskOutline(c: Client, signature: int)
    ensures OutlineOf(RequestView(c, signature)) == NextOutline(FrontOf(c), ViewRequested(signature))
  {
    RequestOutline(c, signature);
  }

  /**
    Every callback does to image, plan, intent, epoch and compositor what the smaller machine
    says. Tiles, decodes and frames have no say in it, but for a tile that closes the link.
  */
  lemma StepRefinesOutline(c: Client, e: Event)
    requires Enabled(c, e)
    ensures OutlineOf(Step(c, e)) == NextOutline(FrontOf(c), e)
  {
    hide OutlineOf, NextOutline, OnText, OnBinary, OnWorker, OnFrame, AttachCanvas, SetViewport, SetMode, RequestView,
         Connect, OnClose;
    match e
    case Connects => ConnectionOutline(c, false);
    case LinkCloses(reason) => ConnectionOutline(c, reason);
    case TextArrives(control, signature) => TextOutline(c, control, signature);
    case TileArrives(tile) => BinaryOutline(c, tile);
    case WorkerAnswers(r) => WorkerOutline(c, r);
    case FrameRuns(context) => FrameOutline(c, context);
    case CanvasAttached => AttachOutline(c);
    case ImageSelected(_) => SelectOutline(c, e);
    case ImageRetried => SelectOutline(c, e);
    case ViewportSet(signature) => ViewportOutline(c, signature);
    case ModeSet(focus, signature) => ModeOutline(c, focus, signature);
    case ViewRequested(signature) => AskOutline(c, signature);
    case _ => OtherOutline(c, e);
  }

  // ----- when the compositor is started, and when it begins an epoch -----

  predicate Started(p: Pipe) { p.canvas.Some? && p.canvas.value.manifest.Some? }

  /** The epoch whose fine tiles the compositor takes; 0 before it is told of one. */
  function Begun(p: Pipe): int { if p.canvas.Some? then p.canvas.value.currentEpoch else 0 }

  /** A MANIFEST that comes when the viewport is known, or a canvas attached when manifest and layout are. */
  predicate Starts(f: Front, e: Event) {
    (e.TextArrives? && e.control.ManifestIs? && Hears(f, e.control.m) && f.nav.viewport && f.easel.Some?)
    || (e.CanvasAttached? && f.nav.manifest.Some? && f.nav.layout)
  }

  /** Callbacks after which the compositor holds nothing of before. */
  predicate Clears(f: Front, e: Event) { e.CanvasAttached? || StartsOver(e) || Opens(f, e) }

  lemma OutlineStarts(c: Client, e: Event, q: Pipe)
    requires EaselOf(q) == NextOutline(FrontOf(c), e).easel
    ensures Started(q) <==> Starts(FrontOf(c), e) || (Started(c.pipe) && !Clears(FrontOf(c), e))
  {
    hide ParseManifest, StaleControl;
  }

  /** Which callbacks start the compositor, and which leave it started. A viewport that is set is neither. */
  lemma StartedIff(c: Client, e: Event)
    requires Enabled(c, e)
    ensures Started(Step(c, e).pipe) <==> Starts(FrontOf(c), e) || (Started(c.pipe) && !Clears(FrontOf(c), e))
  {
    StepRefinesOutline(c, e);
    OutlineStarts(c, e, Step(c, e).pipe);
  }

  lemma OutlineBegins(c: Client, e: Event, q: Pipe)
    requires c.pipe.epoch >= 0 && EaselOf(q) == NextOutline(FrontOf(c), e).easel
    ensures Requests(FrontOf(c), e) && c.pipe.canvas.Some? ==> Begun(q) == c.pipe.epoch + 1
    ensures !(Requests(FrontOf(c), e) && c.pipe.canvas.Some?) ==>
              Begun(q) == if Starts(FrontOf(c), e) || Clears(FrontOf(c), e) then 0 else Begun(c.pipe)
  {
    hide ParseManifest, StaleControl;
  }

  /**
    Only a request for a view makes the compositor begin an epoch. A start that comes with no
    request, and every attached canvas, leave it at epoch 0 until the next request.
  */
  lemma EpochBegunIff(c: Client, e: Event)
    requires Enabled(c, e) && c.pipe.epoch >= 0
    ensures Requests(FrontOf(c), e) && c.pipe.canvas.Some? ==>
              Begun(Step(c, e).pipe) == Step(c, e).pipe.epoch == c.pipe.epoch + 1
    ensures !(Requests(FrontOf(c), e) && c.pipe.canvas.Some?) ==>
              Begun(Step(c, e).pipe) == if Starts(FrontOf(c), e) || Clears(FrontOf(c), e) then 0 else Begun(c.pipe)
  {
    StepRefinesOutline(c, e);
    OutlineBegins(c, e, Step(c, e).pipe);
  }

  ghost predicate NeverRequests(c: Client, run: seq<Move>)
    decreases |run|
  {
    run == [] || (!Requests(FrontOf(c), run[0].e) && NeverRequests(run[0].c, run[1..]))
  }

  ghost predicate NeverStarts(c: Client, run: seq<Move>)
    decreases |run|
  {
    run == [] || (!Starts(FrontOf(c), run[0].e) && NeverStarts(run[0].c, run[1..]))
  }

  lemma NextEasel(c: Client, e: Event, d: Client)
    requires Inv(c) && UpToDate(OutlineOf(c)) && Next(c, e, d)
    ensures Inv(d) && UpToDate(OutlineOf(d))
    ensures Begun(c.pipe) == 0 && !Requests(FrontOf(c), e) ==> Begun(d.pipe) == 0
    ensures !Started(c.pipe) && !Starts(FrontOf(c), e) ==> !Started(d.pipe)
  {
    hide Inv, Requests, Starts, Clears, Step, Enabled, Started, Begun;
    NextKeepsInv(c, e, d);
    NextStaysUpToDate(c, e, d);
    NextBegins(c, e, d);
  }

  lemma NextBegins(c: Client, e: Event, d: Client)
    requires UpToDate(OutlineOf(c)) && Next(c, e, d)
    ensures Begun(c.pipe) == 0 && !Requests(FrontOf(c), e) ==> Begun(d.pipe) == 0
    ensures !Started(c.pipe) && !Starts(FrontOf(c), e) ==> !Started(d.pipe)
  {
    hide Step, Enabled, Requests, Starts, Clears;
    NextIsEnabled(c, e, d);
    EpochBegunIff(c, e);
    StartedIff(c, e);
  }

  lemma NextIsEnabled(c: Client, e: Event, d: Client)
    requires Next(c, e, d)
    ensures Enabled(c, e) && d == Step(c, e)
  {
  }

  lemma {:induction false} RunsEasel(c: Client, run: seq<Move>)
    requires Inv(c) && UpToDate(OutlineOf(c)) && Run(c, run)
    ensures Inv(End(c, run)) && UpToDate(OutlineOf(End(c, run)))
    ensures Begun(c.pipe) == 0 && NeverRequests(c, run) ==> Begun(End(c, run).pipe) == 0
    ensures !Started(c.pipe) && NeverStarts(c, run) ==> !Started(End(c, run).pipe)
    decreases |run|
  {
    hide Inv, Requests, Starts, Step, Enabled, Started, Begun, UpToDate;
    if run != [] {
      NextEasel(c, run[0].e, run[0].c);
      RunsEasel(run[0].c, run[1..]);
    }
  }

  /**
    After a canvas was attached, and whatever follows it, a current tile is taken only if the
    compositor was started and the tile is of level 0, until a view is requested.
  */
  lemma AttachingForgetsTheEpoch(c: Client, run: seq<Move>, d: Client, t: W.Task)
    requires Inv(c) && UpToDate(OutlineOf(c))
    requires Run(AttachCanvas(c), run) && NeverRequests(AttachCanvas(c), run) && d == End(AttachCanvas(c), run)
    requires Clients.Current(d, t) && t.header.epoch >= 1 && d.pipe.canvas.Some?
    ensures Accepts(d.pipe.canvas.value, t.header) <==> Started(d.pipe) && t.header.z == 0
  {
    hide Inv, Requests, Starts, Clears, UpToDate, NextOutline, AttachCanvas;
    Attached(c);
    RunsEasel(AttachCanvas(c), run);
    InvIsFresh(d);
    TurnedAwayIff(d, d.pipe.canvas.value, t);
  }

  lemma Attached(c: Client)
    requires Inv(c) && UpToDate(OutlineOf(c))
    ensures Inv(AttachCanvas(c)) && UpToDate(OutlineOf(AttachCanvas(c))) && Begun(AttachCanvas(c).pipe) == 0
  {
    hide Inv, Requests, AttachCanvas;
    AttachKeepsInv(c);
    AttachOutline(c);
    OutlineStaysUpToDate(c, CanvasAttached);
  }

  lemma InvIsFresh(c: Client)
    requires Inv(c)
    ensures Fresh(c)
  {
  }

  /**
    A compositor that was never started for the image takes no tile at all, whatever happens,
    until it is: in particular after a MANIFEST that came before the viewport was set.
  */
  lemma NoTilesBeforeStart(c: Client, run: seq<Move>, d: Client, t: W.Task)
    requires Inv(c) && UpToDate(OutlineOf(c)) && !Started(c.pipe)
    requires Run(c, run) && NeverStarts(c, run) && d == End(c, run)
    requires Clients.Current(d, t) && t.header.epoch >= 1 && d.pipe.canvas.Some?
    ensures !Accepts(d.pipe.canvas.value, t.header)
  {
    hide Inv, Starts, Clears, UpToDate;
    RunsEasel(c, run);
    InvIsFresh(d);
    TurnedAwayIff(d, d.pipe.canvas.value, t);
  }

  // ----- the plan and the view asked for -----

  /** The plan is for the current epoch and fits the current image; so is the view that was asked for last. */
  ghost predicate UpToDate(o: Outline) {
    0 <= o.epoch <= MAX_EPOCH &&
    (o.plan.Some? ==> o.manifest.Some? && o.plan.value.epoch == o.epoch >= 1 &&
                      0 <= o.plan.value.appliedLevel < |o.manifest.value.levels| &&
                      0 <= o.plan.value.contextLevel < |o.manifest.value.levels|) &&
    (o.intent.Some? ==> o.manifest.Some? && o.intent.value.epoch == o.epoch >= 1)
  }

  lemma OutlineStaysUpToDate(c: Client, e: Event)
    requires UpToDate(OutlineOf(c))
    ensures UpToDate(NextOutline(FrontOf(c), e))
  {
    hide ParseManifest, StaleControl;
  }

  lemma NextStaysUpToDate(c: Client, e: Event, d: Client)
    requires UpToDate(OutlineOf(c)) && Next(c, e, d)
    ensures UpToDate(OutlineOf(d))
  {
    StepRefinesOutline(c, e);
    OutlineStaysUpToDate(c, e);
  }

  lemma {:induction false} PlanStaysCurrent(c: Client, run: seq<Move>)
    requires UpToDate(OutlineOf(c)) && Run(c, run)
    ensures UpToDate(OutlineOf(End(c, run)))
    decreases |run|
  {
    hide UpToDate, Enabled, Step;
    if run != [] {
      NextStaysUpToDate(c, run[0].e, run[0].c);
      PlanStaysCurrent(run[0].c, run[1..]);
    }
  }

  /**
    After any run, a tile of the current epoch counts as context exactly when it is of level 0,
    or the view was asked for in focus mode, has its plan, and the tile is no finer than the
    plan's context level: neither intent nor plan is ever one of another epoch or image.
  */
  lemma ContextIff(c: Client, run: seq<Move>, d: Client, z: int)
    requires New(c) && Run(c, run) && d == End(c, run)
    ensures Classify(d.nav, d.pipe.epoch, z).Context? <==>
            z == 0 ||
            (d.nav.intent.Some? && d.nav.intent.value.focus && d.nav.plan.Some? && z <= d.nav.plan.value.contextLevel)
    ensures d.nav.plan.Some? ==>
              d.nav.manifest.Some? && d.nav.plan.value.epoch == d.pipe.epoch &&
              0 <= d.nav.plan.value.appliedLevel < |d.nav.manifest.value.levels| &&
              0 <= d.nav.plan.value.contextLevel < |d.nav.manifest.value.levels|
  {
    PlanStaysCurrent(c, run);
  }

  // ----- how a view ends -----

  predicate AllDone(p: Pipe) { p.received == p.drawn + p.discarded + p.failed }

  lemma NothingIsLeftIff(p: Pipe)
    requires Books(p, [], None) && p.link.Open?
    ensures p.presentations >= 0 && (AllDone(p) <==> |p.pending| == 0 && p.presentations == 0)
  {
    SumNotNegative(Waiting, Entries(p));
  }

  lemma Upright(c: Client, run: seq<Move>, d: Client)
    requires New(c) && Run(c, run) && d == End(c, run) && d.pipe.link.Open?
    ensures UpToDate(OutlineOf(d))
    ensures d.pipe.presentations >= 0 && (AllDone(d.pipe) <==> |d.pipe.pending| == 0 && d.pipe.presentations == 0)
  {
    Reached(c, run, d);
    NothingIsLeftIff(d.pipe);
    PlanStaysCurrent(c, run);
  }

  /**
    A DONE breaks the connection exactly when it names no epoch there has been, and is ignored
    when it names an old one; one of the current epoch settles the view exactly when every tile
    received has been drawn, discarded or has failed.
  */
  lemma DoneSettlesIff(c: Client, run: seq<Move>, d: Client, epoch: int)
    requires New(c) && Run(c, run) && d == End(c, run) && d.pipe.link.Open?
    ensures var u := OnDone(d, epoch);
            (u.pipe.link.Open? <==> 1 <= epoch <= d.pipe.epoch) &&
            (1 <= epoch < d.pipe.epoch ==> u == d) &&
            (epoch == d.pipe.epoch >= 1 ==>
               u.nav.serverDone && u.phase == if AllDone(d.pipe) then Observing else Processing)
  {
    hide AllDone, Step, Enabled;
    Upright(c, run, d);
  }

  /**
    An ERROR breaks the connection exactly when it names no epoch there has been, and is ignored
    when it names an old one; any other ends the view asked for: no plan is left, and with an
    image on show the view is settled exactly when every tile received is accounted for.
  */
  lemma ErrorSettlesIff(c: Client, run: seq<Move>, d: Client, of: Option<int>)
    requires New(c) && Run(c, run) && d == End(c, run) && d.pipe.link.Open? && d.nav.welcome.Some?
    ensures var u := OnRefused(d, of, false);
            (u.pipe.link.Open? <==> of.None? || 1 <= of.value <= d.pipe.epoch) &&
            (of.Some? && 1 <= of.value < d.pipe.epoch ==> u == d) &&
            (of.None? || of.value == d.pipe.epoch >= 1 ==>
               u.nav.error && u.nav.plan.None? &&
               u.phase == if d.nav.manifest.None? then Ready else if AllDone(d.pipe) then Observing else Processing)
  {
    hide AllDone, Step, Enabled;
    Upright(c, run, d);
  }

  /**
    The phase an ERROR shows is what the next completion update would show, with one kind of
    exception: the error phase of an unsupported version is lost at the first tile after it,
    and so is that of an error before the welcome when there is a manifest already.
  */
  lemma RefusalLastsIff(c: Client, versionUnsupported: bool)
    ensures UpdatePhase(Refusal(c, versionUnsupported)) == Refusal(c, versionUnsupported) <==>
            if c.nav.welcome.Some? then !versionUnsupported else c.nav.manifest.None?
  {
  }

  // ----- after a protocol violation -----

  /** The transport was given up, or is closed. */
  predicate Off(p: Pipe) { p.link.Closing? || p.link.Closed? }

  /** Nothing is told to the server or taken from it, and no decode is posted. */
  ghost predicate Mute(p: Pipe, q: Pipe) {
    Silent(p, q) && q.connectionId == p.connectionId && q.epoch == p.epoch && p.posted <= q.posted &&
    forall i | |p.posted| <= i < |q.posted| :: !q.posted[i].Decode?
  }

  ghost predicate Still(p: Pipe, q: Pipe) {
    Silent(p, q) && q.link == p.link && q.connectionId == p.connectionId && q.epoch == p.epoch && q.posted == p.posted
  }

  lemma DropAllStill(c: Client, gone: seq<Entry>)
    requires !c.pipe.link.Open?
    ensures Still(c.pipe, DropAll(c, gone).pipe)
  {
    DropAllOffline(c, gone);
    DropAllChangesLittle(c, gone);
  }

  lemma {:induction false} ShowAllOffline(c: Client, shown: seq<Entry>)
    requires !c.pipe.link.Open?
    ensures Silent(c.pipe, ShowAll(c, shown).pipe)
    decreases |shown|
  {
    if shown != [] { ShowAllOffline(UpdatePhase(c.(pipe := Presented(c.pipe, shown[0]))), shown[1..]); }
  }

  lemma ResetOffline(c: Client)
    requires !c.pipe.link.Open?
    ensures Still(c.pipe, ResetCanvas(c).pipe)
  {
    if c.pipe.canvas.Some? { DropAllStill(OnCanvas(c, BLANK), c.pipe.canvas.value.entries); }
  }

  lemma StartOffline(c: Client, m: Manifest)
    requires !c.pipe.link.Open?
    ensures Still(c.pipe, StartCanvas(c, m).pipe)
  {
    if c.pipe.canvas.Some? {
      var (k, gone) := StartImage(c.pipe.canvas.value, m);
      DropAllStill(OnCanvas(c, k), gone);
    }
  }

  lemma AttachOffline(c: Client)
    requires !c.pipe.link.Open?
    ensures Still(c.pipe, AttachCanvas(c).pipe)
  {
    ResetOffline(c);
    if c.nav.manifest.Some? { StartOffline(OnCanvas(ResetCanvas(c), BLANK), c.nav.manifest.value); }
  }

  lemma CommitsOffline(c: Client, t: W.Task, bitmap: int, kind: Kind)
    requires !c.pipe.link.Open?
    ensures Still(c.pipe, Commits(c, t, bitmap, kind).pipe)
  {
    var (budget, bytes) := Commit(c.pipe.budget, JobOf(t), kind);
    var p := c.pipe.(budget := budget);
    if bytes.Some? && p.canvas.Some? {
      var (k', gone, accepted) := Store(p.canvas.value, EntryOf(t, bitmap, bytes.value, kind));
      DropAllStill(OnCanvas(Showing(c.(pipe := p)), k'), gone);
    }
  }

  lemma WorkerOffline(c: Client, r: W.Response)
    requires !c.pipe.link.Open?
    ensures Still(c.pipe, OnWorker(c, r).pipe)
  {
    var job := JobOf(r.task);
    var p := Arrive(c.pipe, r);
    if job in p.pending && r.Decoded? {
      CommitsOffline(c.(pipe := Taken(p, job)), r.task, r.bitmap, p.pending[job].kind);
    }
  }

  lemma FrameOffline(c: Client, context: bool)
    requires !c.pipe.link.Open?
    ensures Still(c.pipe, OnFrame(c, context).pipe)
  {
    if c.pipe.canvas.Some? {
      var (k, shown) := Paint(c.pipe.canvas.value, context);
      ShowAllOffline(OnCanvas(c, k), shown);
      ShowAllChangesLittle(OnCanvas(c, k), shown);
    }
  }

  lemma StepOffline(c: Client, e: Event)
    requires Enabled(c, e) && Off(c.pipe) && !e.Connects? && !e.LinkCloses?
    ensures Still(c.pipe, Step(c, e).pipe)
  {
    match e
    case WorkerAnswers(r) => WorkerOffline(c, r);
    case FrameRuns(context) => FrameOffline(c, context);
    case CanvasAttached => AttachOffline(c);
    case _ =>
  }

  lemma CloseOffline(c: Client, reason: bool)
    requires Off(c.pipe)
    ensures Off(OnClose(c, reason).pipe) && Mute(c.pipe, OnClose(c, reason).pipe)
  {
    ResetOffline(Emptied(c));
    S.ClosePosts(c, reason);
  }

  lemma NextStaysOff(c: Client, e: Event, d: Client)
    requires Off(c.pipe) && Next(c, e, d) && !e.Connects?
    ensures Off(d.pipe) && Mute(c.pipe, d.pipe)
  {
    if e.LinkCloses? { CloseOffline(c, e.reason); } else { StepOffline(c, e); }
  }

  ghost predicate NeverConnects(run: seq<Move>)
    decreases |run|
  {
    run == [] || (!run[0].e.Connects? && NeverConnects(run[1..]))
  }

  /**
    After a protocol violation, and after a close, whatever happens until connect is called
    again: no ACK and no retry request is sent, no tile taken in, no decode posted.
  */
  lemma {:induction false} NothingIsSentUntilConnected(c: Client, run: seq<Move>)
    requires Off(c.pipe) && Run(c, run) && NeverConnects(run)
    ensures Off(End(c, run).pipe) && Mute(c.pipe, End(c, run).pipe)
    decreases |run|
  {
    hide Enabled, Step;
    if run != [] {
      NextStaysOff(c, run[0].e, run[0].c);
      NothingIsSentUntilConnected(run[0].c, run[1..]);
    }
  }
}
