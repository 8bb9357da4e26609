/**
  The viewer's client as a value: one function per callback, each of which the
  source runs to its end before the next.

  The pipe is what a tile passes through (ledger, budget, decode, compositor);
  nav is what the user and the server have said about image and view.
*/
module Clients {
  import opened Arithmetic
  import opened Budgets
  import opened Compositors
  import opened Pyramid
  import opened Results
  import L = Ledgers
  import W = Workers

  const MAX_EPOCH := 2_147_483_647
  const MAX_TILE_PAYLOAD := 262_144
  const LUPA_VERSION := 1
  const MANIFESTS_KEPT := 8

  /** Closing is a transport that is no longer open and whose close event is still to come. */
  datatype Link = Idle | Connecting | Open | Closing | Closed

  datatype Phase = Disconnected | Linking | Ready | Opening | Receiving | Processing | Observing | Error

  datatype Plan = Plan(epoch: int, appliedLevel: int, contextLevel: int)

  datatype Intent = Intent(epoch: int, focus: bool)

  datatype Pending = Pending(epoch: int, bytes: int, kind: Kind)

  /**
    What an observer of one connection writes down: retry requests sent, registrations
    made, and the terminal ACKs sent, in order. arrived and closed count bitmaps over all connections, and the leaked
    bytes are those committed while there was no compositor to hold them.
  */
  datatype Log = Log(
    retries: int, registered: multiset<int>, acked: seq<int>,
    arrived: multiset<int>, closed: multiset<int>, leakedContext: int, leakedDetail: int)

  datatype Pipe = Pipe(
    link: Link, connectionId: int, epoch: int,
    pending: map<Job, Pending>, budget: Budget, ledger: L.Ledger, canvas: Option<Compositor>,
    received: int, drawn: int, discarded: int, failed: int, releases: int, presentations: int,
    posted: seq<W.Request>, log: Log)

  /** An active view rectangle exists exactly when a manifest does, so only the manifest is kept. */
  datatype Nav = Nav(
    selected: Option<string>, manifest: Option<Manifest>, history: seq<Manifest>, plan: Option<Plan>,
    welcome: Option<int>, viewport: bool, layout: bool, focus: bool, intent: Option<Intent>,
    signature: Option<int>, serverDone: bool, error: bool)

  datatype Client = Client(nav: Nav, pipe: Pipe, phase: Phase)

  /** A client that has just been constructed. */
  predicate New(c: Client) {
    && c.nav == Nav(None, None, [], None, None, false, false, false, None, None, false, false)
    && c.pipe.link.Idle? && c.pipe.connectionId == 0 && c.pipe.epoch == 0 && c.pipe.pending == map[]
    && c.pipe.budget == EMPTY_BUDGET
    && c.pipe.ledger == L.EMPTY_LEDGER && c.pipe.canvas.None? && c.pipe.presentations == 0 && c.pipe.posted == []
    && c.pipe.log == Log(0, multiset{}, [], multiset{}, multiset{}, 0, 0)
    && c.phase.Disconnected?
  }

  // ----- acknowledgements -----

  function Release(p: Pipe, id: int, connectionId: int): Pipe {
    if connectionId != p.connectionId || !p.link.Open? then p
    else
      var (ledger, sent) := L.ReleaseOnce(p.ledger, id, connectionId);
      if sent then
        p.(ledger := ledger, releases := p.releases + 1, log := p.log.(acked := p.log.acked + [id]))
      else p
  }

  function AskAgain(p: Pipe, id: int, connectionId: int, epoch: int): (Pipe, bool) {
    if connectionId != p.connectionId || epoch != p.epoch || !p.link.Open? then (p, false)
    else
      var (ledger, requested) := L.RequestRetry(p.ledger, id, connectionId);
      if requested then (p.(ledger := ledger, log := p.log.(retries := p.log.retries + 1)), true) else (p, false)
  }

  function Discard(p: Pipe, id: int, connectionId: int): Pipe {
    Release(p.(discarded := p.discarded + 1), id, connectionId)
  }

  function Close(p: Pipe, bitmap: int): Pipe {
    p.(log := p.log.(closed := p.log.closed + multiset{bitmap}))
  }

  // ----- phase -----

  function TransferPhase(serverDone: bool, pending: nat, presentations: int, hasPlan: bool): Option<Phase> {
    if serverDone && pending == 0 && presentations == 0 then Some(Observing)
    else if pending > 0 || presentations > 0 then Some(Processing)
    else if hasPlan then Some(Receiving)
    else None
  }

  function UpdatedPhase(phase: Phase, nav: Nav, pending: nat, presentations: int): Phase {
    if nav.error && nav.manifest.None? then (if nav.welcome.Some? then Ready else Error)
    else
      var next := TransferPhase(nav.serverDone, pending, presentations, nav.plan.Some?);
      if next.Some? then next.value
      else if nav.error && nav.manifest.Some? then Observing
      else phase
  }

  function UpdatePhase(c: Client): Client {
    c.(phase := UpdatedPhase(c.phase, c.nav, |c.pipe.pending|, c.pipe.presentations))
  }

  // ----- the callbacks of compositor entries -----

  function Presented(p: Pipe, e: Entry): Pipe {
    Release(p.(presentations := Max(0, p.presentations - 1), drawn := p.drawn + 1), e.header.deliveryId, e.connectionId)
  }

  function Unwanted(p: Pipe, e: Entry): Pipe {
    Discard(p.(presentations := Max(0, p.presentations - 1)), e.header.deliveryId, e.connectionId)
  }

  /** An entry leaves the compositor: discarded if it was never painted, closed, and taken off the budget. */
  function Leave(p: Pipe, e: Entry): Pipe {
    var q := Close(if e.presented then p else Unwanted(p, e), e.bitmap);
    q.(budget := RemoveStored(q.budget, e.kind, e.bytes))
  }

  function Drop(c: Client, e: Entry): Client {
    var d := c.(pipe := Leave(c.pipe, e));
    if e.presented then d else UpdatePhase(d)
  }

  function DropAll(c: Client, gone: seq<Entry>): Client
    decreases |gone|
  {
    if gone == [] then c else DropAll(Drop(c, gone[0]), gone[1..])
  }

  function ShowAll(c: Client, shown: seq<Entry>): Client
    decreases |shown|
  {
    if shown == [] then c else ShowAll(UpdatePhase(c.(pipe := Presented(c.pipe, shown[0]))), shown[1..])
  }

  function OnCanvas(c: Client, k: Compositor): Client { c.(pipe := c.pipe.(canvas := Some(k))) }

  function ResetCanvas(c: Client): Client {
    if c.pipe.canvas.None? then c
    else
      var (k, gone) := Reset(c.pipe.canvas.value);
      DropAll(OnCanvas(c, k), gone)
  }

  function StartCanvas(c: Client, m: Manifest): Client {
    if c.pipe.canvas.None? then c
    else
      var (k, gone) := StartImage(c.pipe.canvas.value, m);
      DropAll(OnCanvas(c, k), gone)
  }

  function BeginOnCanvas(c: Client, epoch: int): Client {
    if c.pipe.canvas.None? then c
    else
      var (k, gone) := BeginEpoch(c.pipe.canvas.value, epoch);
      DropAll(OnCanvas(c, k), gone)
  }

  // ----- failures -----

  function Fail(c: Client): Client { c.(nav := c.nav.(error := true), phase := Error) }

  function Violation(c: Client): Client { Fail(c.(pipe := c.pipe.(link := Closing))) }

  // ----- image and view -----

  /** The pending jobs whose reservations a change of image gives back. */
  function StaleJobs(pending: map<Job, Pending>, connectionId: int, epoch: int): set<Job> {
    set j | j in pending && j.connectionId == connectionId && pending[j].epoch < epoch
  }

  function Advanced(c: Client): Client { c.(pipe := c.pipe.(epoch := c.pipe.epoch + 1)) }

  /** In the epoch of a new image: the old one is forgotten and the reservations made for it are given back. */
  ghost function Forgetting(c: Client): Client {
    Client(
      c.nav.(manifest := None, plan := None, intent := None, signature := None, serverDone := false, error := false),
      c.pipe.(budget := CancelAll(c.pipe.budget, StaleJobs(c.pipe.pending, c.pipe.connectionId, c.pipe.epoch))),
      c.phase)
  }

  ghost function Leaving(c: Client): Client { Forgetting(Advanced(c)) }

  function OpenPosted(c: Client): Client {
    c.(pipe := c.pipe.(posted := c.pipe.posted + [W.Invalidate(c.pipe.connectionId, c.pipe.epoch)]), phase := Opening)
  }

  ghost function OpenSelected(c: Client): Client {
    if c.nav.selected.None? then c
    else if c.pipe.epoch >= MAX_EPOCH then Fail(c)
    else
      OpenPosted(ResetCanvas(Leaving(c)))
  }

  predicate CanRequest(c: Client, signature: int) {
    c.nav.manifest.Some? && c.nav.layout && c.nav.selected.Some? && c.pipe.link.Open?
    && c.nav.signature != Some(signature)
  }

  /** In the epoch of a new view, before the compositor is told. */
  function Asked(c: Client, signature: int): Client {
    Client(
      c.nav.(signature := Some(signature), serverDone := false, plan := None, error := false,
             intent := Some(Intent(c.pipe.epoch, c.nav.focus))),
      c.pipe.(posted := c.pipe.posted + [W.Invalidate(c.pipe.connectionId, c.pipe.epoch)]),
      c.phase)
  }

  function Asking(c: Client, signature: int): Client { Asked(Advanced(c), signature) }

  function Expecting(c: Client): Client { c.(phase := Receiving) }

  function StartView(c: Client, signature: int): Client {
    if c.pipe.epoch >= MAX_EPOCH then Fail(c)
    else Expecting(BeginOnCanvas(Asking(c, signature), c.pipe.epoch + 1))
  }

  /** The signature stands for the text the source makes of rectangle, viewport, offset, mode and focus. */
  function RequestView(c: Client, signature: int): Client {
    if CanRequest(c, signature) then StartView(c, signature) else c
  }

  function Classify(nav: Nav, epoch: int, z: int): Kind {
    if z == 0 then Context
    else if nav.intent.Some? && nav.intent.value.epoch == epoch && nav.intent.value.focus
            && nav.plan.Some? && nav.plan.value.epoch == epoch && z <= nav.plan.value.contextLevel then Context
    else Detail
  }

  function SameImage(m: Manifest, imageId: string, imageVersion: string): bool {
    m.imageId == imageId && m.imageVersion == imageVersion
  }

  function Forget(history: seq<Manifest>, imageId: string, imageVersion: string): seq<Manifest> {
    if history == [] then []
    else if SameImage(history[0], imageId, imageVersion) then Forget(history[1..], imageId, imageVersion)
    else [history[0]] + Forget(history[1..], imageId, imageVersion)
  }

  /** The newest eight manifests by image and version, the latest last. */
  function Remember(history: seq<Manifest>, m: Manifest): seq<Manifest> {
    var all := Forget(history, m.imageId, m.imageVersion) + [m];
    if |all| > MANIFESTS_KEPT then all[|all| - MANIFESTS_KEPT..] else all
  }

  function Lookup(history: seq<Manifest>, imageId: string, imageVersion: string): (r: Option<Manifest>)
    ensures r.Some? ==> r.value in history && SameImage(r.value, imageId, imageVersion)
  {
    if history == [] then None
    else if SameImage(history[0], imageId, imageVersion) then Some(history[0])
    else Lookup(history[1..], imageId, imageVersion)
  }

  // ----- what the server says -----

  /** A control message whose JSON has been read; Malformed is every text that does not parse or has no known type. */
  datatype Control =
    | Welcome(version: int, maxTileBytes: int)
    | ManifestIs(m: Manifest)
    | PlanIs(plan: Plan)
    | Done(epoch: int)
    | Refused(of: Option<int>, versionUnsupported: bool)
    | Malformed

  predicate StaleControl(epoch: int, current: int) { 1 <= epoch < current }

  ghost function OnWelcome(c: Client, version: int, maxTileBytes: int): Client {
    if version != LUPA_VERSION then Violation(c)
    else OpenSelected(c.(nav := c.nav.(welcome := Some(maxTileBytes)), phase := Ready))
  }

  function Knowing(c: Client, m: Manifest): Client {
    Client(
      c.nav.(manifest := Some(m), history := Remember(c.nav.history, m), plan := None, serverDone := false,
             layout := c.nav.layout || c.nav.viewport),
      c.pipe, Opening)
  }

  function OnManifest(c: Client, raw: Manifest, signature: int): Client {
    if StaleControl(raw.epoch, c.pipe.epoch) then c
    else if c.nav.selected.None? then Violation(c)
    else
      var parsed := ParseManifest(raw, c.nav.selected.value, c.pipe.epoch);
      if parsed.Err? then Violation(c)
      else
        var known := Knowing(c, parsed.value);
        if c.nav.viewport then RequestView(StartCanvas(known, parsed.value), signature) else known
  }

  function OnPlan(c: Client, plan: Plan): Client {
    if StaleControl(plan.epoch, c.pipe.epoch) then c
    else if c.nav.manifest.None? then Violation(c)
    else
      var top := |c.nav.manifest.value.levels| - 1;
      if !IntBetween(plan.epoch, 1, MAX_EPOCH) || !IntBetween(plan.appliedLevel, 0, top)
         || !IntBetween(plan.contextLevel, 0, top) || plan.epoch != c.pipe.epoch then Violation(c)
      else c.(nav := c.nav.(plan := Some(plan)), phase := Receiving)
  }

  function OnDone(c: Client, epoch: int): Client {
    if StaleControl(epoch, c.pipe.epoch) then c
    else if !IntBetween(epoch, 1, MAX_EPOCH) || epoch != c.pipe.epoch then Violation(c)
    else c.(nav := c.nav.(serverDone := true),
            phase := if |c.pipe.pending| == 0 && c.pipe.presentations == 0 then Observing else Processing)
  }

  /** An error of the current epoch, or of none: it ends the view that was asked for, without a DONE. */
  function Refusal(c: Client, versionUnsupported: bool): Client {
    var e := c.(nav := c.nav.(error := true));
    if versionUnsupported || c.nav.welcome.None? then e.(phase := Error)
    else if c.nav.manifest.None? then e.(phase := Ready)
    else e.(nav := e.nav.(plan := None),
            phase := if |c.pipe.pending| > 0 || c.pipe.presentations > 0 then Processing else Observing)
  }

  function OnRefused(c: Client, epoch: Option<int>, versionUnsupported: bool): Client {
    if epoch.Some? && !IntBetween(epoch.value, 1, MAX_EPOCH) then Violation(c)
    else if epoch.Some? && epoch.value < c.pipe.epoch then c
    else if epoch.Some? && epoch.value > c.pipe.epoch then Violation(c)
    else Refusal(c, versionUnsupported)
  }

  ghost function OnText(c: Client, control: Control, signature: int): Client {
    match control
    case Welcome(version, maxTileBytes) => OnWelcome(c, version, maxTileBytes)
    case ManifestIs(m) => OnManifest(c, m, signature)
    case PlanIs(plan) => OnPlan(c, plan)
    case Done(epoch) => OnDone(c, epoch)
    case Refused(epoch, versionUnsupported) => OnRefused(c, epoch, versionUnsupported)
    case Malformed => Violation(c)
  }

  // ----- a tile arrives -----

  /**
    The envelope parsed and fits a manifest the client knows. None is an envelope that does
    not parse; the tile size of an accepted manifest is never 0.
  */
  predicate TileIsKnown(c: Client, tile: Option<Header>)
    requires c.nav.welcome.Some?
  {
    && tile.Some?
    && tile.value.payloadBytes <= Min(c.nav.welcome.value, MAX_TILE_PAYLOAD)
    && var known := Lookup(c.nav.history, tile.value.imageId, tile.value.imageVersion);
       known.Some? && known.value.tileSize > 0 && ValidateTile(tile.value, known.value).Ok?
  }

  /** A new delivery, or one that was asked for again. */
  function Admit(p: Pipe, id: int): (Pipe, bool) {
    var (registered, isNew) := L.Register(p.ledger, id, p.connectionId);
    if isNew then (p.(ledger := registered, log := p.log.(registered := p.log.registered + multiset{id})), true)
    else
      var (accepted, again) := L.AcceptRetransmission(p.ledger, id, p.connectionId);
      (p.(ledger := accepted), again)
  }

  function DecodedBytes(h: Header): int { h.w * h.h * 4 }

  function Enqueue(p: Pipe, h: Header, budget: Budget, kind: Kind): Pipe {
    p.(budget := budget,
       pending := p.pending[Job(p.connectionId, h.deliveryId) := Pending(h.epoch, DecodedBytes(h), kind)],
       posted := p.posted + [W.Decode(W.Task(p.connectionId, h))])
  }

  /** A tile of the current epoch goes to the worker if the budget has room for its bitmap. */
  function ReservedOrNot(c: Client, h: Header): Client {
    var p := c.pipe;
    var (budget, reserved) := Reserve(p.budget, Job(p.connectionId, h.deliveryId), DecodedBytes(h));
    if !reserved then c.(pipe := Discard(p, h.deliveryId, p.connectionId))
    else c.(pipe := Enqueue(p, h, budget, Classify(c.nav, h.epoch, h.z)), phase := Processing)
  }

  /** A delivery in hand: too old, impossible, or of the current epoch. */
  function OnDelivery(c: Client, h: Header): Client {
    if h.epoch < c.pipe.epoch then c.(pipe := Discard(c.pipe, h.deliveryId, c.pipe.connectionId))
    else if h.epoch > c.pipe.epoch then Violation(c)
    else ReservedOrNot(c, h)
  }

  predicate Admitted(c: Client, h: Header) { Admit(c.pipe, h.deliveryId).1 }

  function Received(c: Client, h: Header): Client {
    c.(pipe := Admit(c.pipe, h.deliveryId).0.(received := c.pipe.received + 1))
  }

  function OnTile(c: Client, h: Header): Client {
    if Admitted(c, h) then OnDelivery(Received(c, h), h) else Violation(Received(c, h))
  }

  function OnBinary(c: Client, tile: Option<Header>): Client {
    if c.nav.welcome.None? then c
    else if !TileIsKnown(c, tile) then Violation(c)
    else OnTile(c, tile.value)
  }

  // ----- the worker answers -----

  function JobOf(t: W.Task): Job { Job(t.connectionId, t.header.deliveryId) }

  predicate Current(c: Client, t: W.Task) {
    t.connectionId == c.pipe.connectionId && t.header.epoch == c.pipe.epoch && c.nav.manifest.Some?
    && SameImage(c.nav.manifest.value, t.header.imageId, t.header.imageVersion)
  }

  function EntryOf(t: W.Task, bitmap: int, bytes: int, kind: Kind): Entry {
    Entry(t.header, t.connectionId, bitmap, bytes, kind, false)
  }

  /** A bitmap nobody needs any more. */
  function TooLate(p: Pipe, t: W.Task, bitmap: int): Pipe {
    var q := Close(p, bitmap);
    var freed := q.(budget := Cancel(q.budget, JobOf(t)), discarded := q.discarded + 1);
    if t.connectionId == p.connectionId then Release(freed, t.header.deliveryId, t.connectionId) else freed
  }

  /** Committed with no compositor to hold it: the bytes stay on the budget. */
  function Leak(log: Log, kind: Kind, bytes: int): Log {
    if kind.Context? then log.(leakedContext := log.leakedContext + bytes)
    else log.(leakedDetail := log.leakedDetail + bytes)
  }

  function NotStored(p: Pipe, t: W.Task, bitmap: int, kind: Kind, bytes: Option<int>): Pipe {
    var q := Close(p, bitmap);
    var r := if bytes.Some? then q.(log := Leak(q.log, kind, bytes.value)) else q;
    Discard(r, t.header.deliveryId, t.connectionId)
  }

  /** A bitmap the compositor has turned away. */
  function NotAccepted(p: Pipe, e: Entry): Pipe {
    var closed := Close(p, e.bitmap);
    var back := closed.(presentations := Max(0, closed.presentations - 1),
                        budget := RemoveStored(closed.budget, e.kind, e.bytes));
    Discard(back, e.header.deliveryId, e.connectionId)
  }

  function Showing(c: Client): Client { c.(pipe := c.pipe.(presentations := c.pipe.presentations + 1)) }

  function StoreOnCanvas(c: Client, k: Compositor, e: Entry): Client {
    var d := Showing(c);
    var (k', gone, accepted) := Store(k, e);
    if accepted then DropAll(OnCanvas(d, k'), gone) else d.(pipe := NotAccepted(d.pipe, e))
  }

  function Commits(c: Client, t: W.Task, bitmap: int, kind: Kind): Client {
    var (budget, bytes) := Commit(c.pipe.budget, JobOf(t), kind);
    var p := c.pipe.(budget := budget);
    if bytes.None? || p.canvas.None? then c.(pipe := NotStored(p, t, bitmap, kind, bytes))
    else StoreOnCanvas(c.(pipe := p), p.canvas.value, EntryOf(t, bitmap, bytes.value, kind))
  }

  function OnDecoded(c: Client, t: W.Task, bitmap: int, kind: Kind): Client {
    if !Current(c, t) then c.(pipe := TooLate(c.pipe, t, bitmap))
    else Commits(c, t, bitmap, kind)
  }

  function OnUndecoded(p: Pipe, t: W.Task, failed: bool): Pipe {
    var q := p.(budget := Cancel(p.budget, JobOf(t)));
    if t.connectionId != q.connectionId then q
    else if !failed then Discard(q, t.header.deliveryId, t.connectionId)
    else
      var (asked, again) := AskAgain(q.(failed := q.failed + 1), t.header.deliveryId, t.connectionId, t.header.epoch);
      if again then asked else Release(asked, t.header.deliveryId, t.connectionId)
  }

  function Arrive(p: Pipe, r: W.Response): Pipe {
    if r.Decoded? then p.(log := p.log.(arrived := p.log.arrived + multiset{r.bitmap})) else p
  }

  function Taken(p: Pipe, job: Job): Pipe { p.(pending := p.pending - {job}) }

  /** The answer to a job that was pending; its kind was settled when it was posted. */
  function OnAnswer(c: Client, r: W.Response, kind: Kind): Client {
    match r
    case Decoded(t, bitmap) => OnDecoded(c, t, bitmap, kind)
    case Discarded(t) => c.(pipe := OnUndecoded(c.pipe, t, false))
    case Failed(t) => c.(pipe := OnUndecoded(c.pipe, t, true))
  }

  function OnWorker(c: Client, r: W.Response): Client {
    var job := JobOf(r.task);
    var p := Arrive(c.pipe, r);
    if job !in p.pending then c.(pipe := if r.Decoded? then Close(p, r.bitmap) else p)
    else UpdatePhase(OnAnswer(c.(pipe := Taken(p, job)), r, p.pending[job].kind))
  }

  // ----- painting and the canvas -----

  function OnFrame(c: Client, context: bool): Client {
    if c.pipe.canvas.None? then c
    else
      var (k, shown) := Paint(c.pipe.canvas.value, context);
      ShowAll(OnCanvas(c, k), shown)
  }

  function AttachCanvas(c: Client): Client {
    var d := OnCanvas(ResetCanvas(c), BLANK);
    if c.nav.manifest.Some? && c.nav.layout then StartCanvas(d, c.nav.manifest.value) else d
  }

  function Navigate(c: Client): Client {
    if c.nav.manifest.None? || c.pipe.canvas.None? then c else OnCanvas(c, SetView(c.pipe.canvas.value))
  }

  function Focused(c: Client, focus: bool): Client { Navigate(c.(nav := c.nav.(focus := focus))) }

  function SetMode(c: Client, focus: bool, signature: int): Client { RequestView(Focused(c, focus), signature) }

  function Fitted(c: Client): Client {
    var l := c.(nav := c.nav.(layout := true));
    if l.pipe.canvas.None? then l else OnCanvas(l, SetView(SetLayout(l.pipe.canvas.value)))
  }

  function SetViewport(c: Client, signature: int): Client {
    var v := c.(nav := c.nav.(viewport := true));
    if c.nav.manifest.None? then v
    else if c.nav.viewport then Fitted(v)
    else RequestView(Fitted(v), signature)
  }

  ghost function SelectImage(c: Client, imageId: string): Client {
    var s := c.(nav := c.nav.(selected := Some(imageId)));
    if s.nav.welcome.None? || !s.pipe.link.Open? then
      (if s.phase.Linking? || s.phase.Error? then s else s.(phase := Disconnected))
    else OpenSelected(s)
  }

  ghost function RetrySelected(c: Client): Client {
    if c.nav.welcome.None? || !c.pipe.link.Open? then c else OpenSelected(c)
  }

  // ----- the connection -----

  /** What a new connection and a closed one both forget. */
  function Blank(nav: Nav): Nav {
    nav.(manifest := None, plan := None, welcome := None, intent := None, signature := None, serverDone := false)
  }

  /** The budget and the presentations of a connection that is gone. */
  function Forgotten(p: Pipe): Pipe {
    p.(budget := EMPTY_BUDGET, presentations := 0, log := p.log.(leakedContext := 0, leakedDetail := 0))
  }

  function Zeroed(p: Pipe): Pipe {
    p.(pending := map[], received := 0, drawn := 0, discarded := 0, failed := 0, releases := 0,
       log := p.log.(retries := 0, registered := multiset{}, acked := []))
  }

  function Renewed(c: Client): Client {
    var last := c.pipe.connectionId;
    Client(
      Blank(c.nav).(history := [], error := false),
      c.pipe.(link := Connecting, connectionId := last + 1, epoch := 0, ledger := L.EMPTY_LEDGER,
              posted := c.pipe.posted + [W.ResetConnection(last)]),
      Linking)
  }

  function Connected(c: Client): Client { c.(pipe := Zeroed(Forgotten(c.pipe))) }

  function Connect(c: Client): Client { Connected(ResetCanvas(Renewed(c))) }

  function Opened(c: Client): Client { c.(pipe := c.pipe.(link := Open)) }

  function Lost(c: Client): Client { c.(pipe := c.pipe.(link := Closing)) }

  function OwnJobs(pending: map<Job, Pending>, connectionId: int): set<Job> {
    set j | j in pending && j.connectionId == connectionId
  }

  ghost function Emptied(c: Client): Client {
    var p := c.pipe;
    var own := OwnJobs(p.pending, p.connectionId);
    c.(pipe := p.(link := Closed, budget := CancelAll(p.budget, own), pending := p.pending - own,
                  posted := p.posted + [W.ResetConnection(p.connectionId)]))
  }

  /** The rest of the clean-up, and what the close event says: the phase of an error stays. */
  function ClosedDown(c: Client, reason: bool): Client {
    var p := Forgotten(c.pipe).(ledger := L.EMPTY_LEDGER);
    if c.phase.Error? then Client(Blank(c.nav), p, Error)
    else Client(Blank(c.nav).(error := reason), p, Disconnected)
  }

  ghost function OnClose(c: Client, reason: bool): Client { ClosedDown(ResetCanvas(Emptied(c)), reason) }

  // ----- all of them -----

  datatype Event =
    | Connects
    | LinkOpens
    | LinkDrops
    | LinkCloses(reason: bool)
    | TextArrives(control: Control, signature: int)
    | TileArrives(tile: Option<Header>)
    | WorkerAnswers(r: W.Response)
    | FrameRuns(context: bool)
    | CanvasAttached
    | ImageSelected(imageId: string)
    | ImageRetried
    | ViewportSet(signature: int)
    | ModeSet(focus: bool, signature: int)
    | ViewMoved
    | ViewRequested(signature: int)
    | Broke

  /** A transport delivers while it is open and closes once; a frame runs when one is scheduled. */
  ghost predicate Enabled(c: Client, e: Event) {
    match e
    case LinkOpens => c.pipe.link.Connecting?
    case LinkDrops => c.pipe.link.Connecting? || c.pipe.link.Open?
    case LinkCloses(_) => c.pipe.link.Connecting? || c.pipe.link.Open? || c.pipe.link.Closing?
    case TextArrives(_, _) => c.pipe.link.Open?
    case TileArrives(tile) => c.pipe.link.Open? && (tile.Some? ==> IsTileHeader(tile.value))
    case FrameRuns(_) => c.pipe.canvas.Some? && c.pipe.canvas.value.frame
    case _ => true
  }

  ghost function Step(c: Client, e: Event): Client {
    match e
    case Connects => Connect(c)
    case LinkOpens => Opened(c)
    case LinkDrops => Lost(c)
    case LinkCloses(reason) => OnClose(c, reason)
    case TextArrives(control, signature) => OnText(c, control, signature)
    case TileArrives(tile) => OnBinary(c, tile)
    case WorkerAnswers(r) => OnWorker(c, r)
    case FrameRuns(context) => OnFrame(c, context)
    case CanvasAttached => AttachCanvas(c)
    case ImageSelected(imageId) => SelectImage(c, imageId)
    case ImageRetried => RetrySelected(c)
    case ViewportSet(signature) => SetViewport(c, signature)
    case ModeSet(focus, signature) => SetMode(c, focus, signature)
    case ViewMoved => Navigate(c)
    case ViewRequested(signature) => RequestView(c, signature)
    case Broke => Fail(c)
  }
}
