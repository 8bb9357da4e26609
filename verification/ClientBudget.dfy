/**
  The client's budget agrees with what it accounts for: the reservations belong
  to pending decodes, and the stored bytes are those of the resident entries.

  The predicate takes the entries that have been committed but are not resident,
  and the job a callback is working on.
*/
module ClientBudget {
  import opened Budgets
  import opened ClientBooks
  import opened Clients
  import opened Compositors
  import opened Pyramid
  import opened Results
  import L = Ledgers
  import W = Workers

  ghost predicate NoNegative(entries: seq<Entry>) {
    forall i | 0 <= i < |entries| :: entries[i].bytes >= 0
  }

  /** The stored bytes of one kind: resident, on their way, or leaked. */
  ghost predicate Stored(p: Pipe, loose: seq<Entry>) {
    p.budget.context == Sum(BytesOf(Context), Entries(p)) + Sum(BytesOf(Context), loose) + p.log.leakedContext &&
    p.budget.detail == Sum(BytesOf(Detail), Entries(p)) + Sum(BytesOf(Detail), loose) + p.log.leakedDetail &&
    p.log.leakedContext >= 0 && p.log.leakedDetail >= 0 && NoNegative(Entries(p)) && NoNegative(loose)
  }

  /** Only pending decodes have reservations, and every pending decode of the current epoch has one. */
  ghost predicate Reserved(p: Pipe, working: Option<Job>) {
    (forall j | j in p.budget.reservations ::
       working == Some(j) || (j in p.pending && p.pending[j].bytes == p.budget.reservations[j])) &&
    (forall j | j in p.pending :: p.pending[j].epoch <= p.epoch) &&
    (forall j | j in p.pending && p.pending[j].epoch == p.epoch :: j in p.budget.reservations)
  }

  ghost predicate Holds(p: Pipe, loose: seq<Entry>, working: Option<Job>) {
    Within(p.budget) && Stored(p, loose) && Reserved(p, working)
  }

  lemma LooseHead(p: Pipe, loose: seq<Entry>, kind: Kind)
    requires loose != [] && NoNegative(loose) && NoNegative(Entries(p))
    ensures Sum(BytesOf(kind), loose) == Weight(BytesOf(kind), loose[0]) + Sum(BytesOf(kind), loose[1..])
    ensures Sum(BytesOf(kind), loose[1..]) >= 0 && Sum(BytesOf(kind), Entries(p)) >= 0
  {
    SumHead(BytesOf(kind), loose);
    SumNotNegative(BytesOf(kind), loose[1..]);
    SumNotNegative(BytesOf(kind), Entries(p));
  }

  /** The clamp of removeStored never binds: what is taken off was on. */
  lemma StoredClampNeverBinds(p: Pipe, loose: seq<Entry>)
    requires loose != [] && Stored(p, loose)
    ensures RemoveStored(p.budget, loose[0].kind, loose[0].bytes) ==
            if loose[0].kind.Context? then p.budget.(context := p.budget.context - loose[0].bytes)
            else p.budget.(detail := p.budget.detail - loose[0].bytes)
  {
    LooseHead(p, loose, Context);
    LooseHead(p, loose, Detail);
  }

  lemma RemoveKeepsStored(p: Pipe, loose: seq<Entry>)
    requires loose != [] && Stored(p, loose)
    ensures Stored(p.(budget := RemoveStored(p.budget, loose[0].kind, loose[0].bytes)), loose[1..])
  {
    StoredClampNeverBinds(p, loose);
    LooseHead(p, loose, Context);
    LooseHead(p, loose, Detail);
  }

  /** Acknowledging, counting and closing leave the budget alone. */
  ghost predicate SameBudget(p: Pipe, q: Pipe) {
    q.budget == p.budget && q.pending == p.pending && q.epoch == p.epoch && Entries(q) == Entries(p) &&
    q.log.leakedContext == p.log.leakedContext && q.log.leakedDetail == p.log.leakedDetail
  }

  lemma HoldsDependsOn(p: Pipe, q: Pipe, loose: seq<Entry>, working: Option<Job>)
    requires Holds(p, loose, working) && SameBudget(p, q)
    ensures Holds(q, loose, working)
  {
  }

  lemma DiscardSameBudget(p: Pipe, id: int, connectionId: int)
    ensures SameBudget(p, Discard(p, id, connectionId)) && SameBudget(p, Release(p, id, connectionId))
  {
  }

  lemma LeaveSameBudget(p: Pipe, e: Entry)
    ensures SameBudget(p.(budget := RemoveStored(p.budget, e.kind, e.bytes)), Leave(p, e))
  {
  }

  lemma {:induction false} DropAllHolds(c: Client, loose: seq<Entry>)
    requires Holds(c.pipe, loose, None)
    ensures Holds(DropAll(c, loose).pipe, [], None)
    decreases |loose|
  {
    if loose != [] {
      var removed := c.pipe.(budget := RemoveStored(c.pipe.budget, loose[0].kind, loose[0].bytes));
      RemoveKeepsStored(c.pipe, loose);
      RemoveKeepsWithin(c.pipe.budget, loose[0].kind, loose[0].bytes);
      LeaveSameBudget(c.pipe, loose[0]);
      HoldsDependsOn(removed, Leave(c.pipe, loose[0]), loose[1..], None);
      DropAllHolds(Drop(c, loose[0]), loose[1..]);
    }
  }

  // ----- the callbacks without their clamps -----

  function TakeOff(b: Budget, kind: Kind, bytes: int): Budget {
    if kind.Context? then b.(context := b.context - bytes) else b.(detail := b.detail - bytes)
  }

  function CountDown(p: Pipe): Pipe { p.(presentations := p.presentations - 1) }

  function LeavePlainly(p: Pipe, e: Entry): Pipe {
    var q := Close(if e.presented then p else Discard(CountDown(p), e.header.deliveryId, e.connectionId), e.bitmap);
    q.(budget := TakeOff(q.budget, e.kind, e.bytes))
  }

  function DropPlainly(c: Client, gone: seq<Entry>): Client
    decreases |gone|
  {
    if gone == [] then c
    else
      var d := c.(pipe := LeavePlainly(c.pipe, gone[0]));
      DropPlainly(if gone[0].presented then d else UpdatePhase(d), gone[1..])
  }

  function ShowPlainly(c: Client, shown: seq<Entry>): Client
    decreases |shown|
  {
    if shown == [] then c
    else
      var p := CountDown(c.pipe).(drawn := c.pipe.drawn + 1);
      ShowPlainly(UpdatePhase(c.(pipe := Release(p, shown[0].header.deliveryId, shown[0].connectionId))), shown[1..])
  }

  lemma LeaveNeverClamps(p: Pipe, loose: seq<Entry>)
    requires loose != [] && Presentations(p, loose) && Stored(p, loose)
    ensures Leave(p, loose[0]) == LeavePlainly(p, loose[0])
  {
    hide Discard;
    if !loose[0].presented {
      PresentationsClampNeverBinds(p, loose);
      DiscardSameBudget(CountDown(p), loose[0].header.deliveryId, loose[0].connectionId);
    }
    StoredClampNeverBinds(p, loose);
  }

  lemma LeaveKeepsStored(p: Pipe, loose: seq<Entry>)
    requires loose != [] && Stored(p, loose)
    ensures Stored(Leave(p, loose[0]), loose[1..])
  {
    RemoveKeepsStored(p, loose);
    LeaveSameBudget(p, loose[0]);
  }

  /** Wherever the callbacks run, they do what they would do without any clamp. */
  lemma {:induction false} DropNeverClamps(c: Client, gone: seq<Entry>)
    requires Presentations(c.pipe, gone) && Stored(c.pipe, gone)
    ensures DropAll(c, gone) == DropPlainly(c, gone)
    decreases |gone|
  {
    hide Leave, LeavePlainly, UpdatedPhase, Stored, Presentations;
    if gone != [] {
      LeaveNeverClamps(c.pipe, gone);
      LeaveKeepsPresentations(c.pipe, gone);
      LeaveKeepsStored(c.pipe, gone);
      DropNeverClamps(Drop(c, gone[0]), gone[1..]);
    }
  }

  lemma {:induction false} ShowNeverClamps(c: Client, shown: seq<Entry>)
    requires Presentations(c.pipe, shown) && AllWait(shown)
    ensures ShowAll(c, shown) == ShowPlainly(c, shown)
    decreases |shown|
  {
    hide UpdatedPhase, Presentations, Release;
    if shown != [] {
      PresentationsClampNeverBinds(c.pipe, shown);
      PresentedKeepsPresentations(c.pipe, shown);
      ShowNeverClamps(UpdatePhase(c.(pipe := Presented(c.pipe, shown[0]))), shown[1..]);
    }
  }

  lemma {:induction false} ShowAllSameBudget(c: Client, shown: seq<Entry>)
    ensures SameBudget(c.pipe, ShowAll(c, shown).pipe)
    decreases |shown|
  {
    if shown != [] { ShowAllSameBudget(UpdatePhase(c.(pipe := Presented(c.pipe, shown[0]))), shown[1..]); }
  }

  lemma MoveHolds(p: Pipe, k: Compositor, gone: seq<Entry>)
    requires Holds(p, [], None) && Moves(Entries(p), k.entries, gone)
    ensures Holds(p.(canvas := Some(k)), gone, None)
  {
    assert Sum(BytesOf(Context), k.entries) + Sum(BytesOf(Context), gone) == Sum(BytesOf(Context), Entries(p));
    assert Sum(BytesOf(Detail), k.entries) + Sum(BytesOf(Detail), gone) == Sum(BytesOf(Detail), Entries(p));
    forall i | 0 <= i < |k.entries| ensures k.entries[i].bytes >= 0 { assert k.entries[i] in Entries(p); }
    forall i | 0 <= i < |gone| ensures gone[i].bytes >= 0 { assert gone[i] in Entries(p); }
  }

  lemma MoveNeverClamps(c: Client, k: Compositor, gone: seq<Entry>)
    requires Books(c.pipe, [], None) && Holds(c.pipe, [], None) && Moves(Entries(c.pipe), k.entries, gone)
    ensures DropAll(OnCanvas(c, k), gone) == DropPlainly(OnCanvas(c, k), gone)
  {
    MoveKeepsBooks(c.pipe, k, gone);
    MoveHolds(c.pipe, k, gone);
    DropNeverClamps(OnCanvas(c, k), gone);
  }

  /** Between callbacks: a compositor that is reset, started or told of an epoch lets entries go without a clamp. */
  lemma CanvasNeverClamps(c: Client, m: Manifest, epoch: int)
    requires Books(c.pipe, [], None) && Holds(c.pipe, [], None) && c.pipe.canvas.Some?
    ensures var (k, gone) := Reset(c.pipe.canvas.value); ResetCanvas(c) == DropPlainly(OnCanvas(c, k), gone)
    ensures var (k, gone) := StartImage(c.pipe.canvas.value, m); StartCanvas(c, m) == DropPlainly(OnCanvas(c, k), gone)
    ensures var (k, gone) := BeginEpoch(c.pipe.canvas.value, epoch);
            BeginOnCanvas(c, epoch) == DropPlainly(OnCanvas(c, k), gone)
  {
    hide DropAll, DropPlainly, Books, Holds;
    var k := c.pipe.canvas.value;
    EverythingMoves(k.entries);
    EpochMoves(k.entries);
    MoveNeverClamps(c, Reset(k).0, Reset(k).1);
    MoveNeverClamps(c, StartImage(k, m).0, StartImage(k, m).1);
    MoveNeverClamps(c, BeginEpoch(k, epoch).0, BeginEpoch(k, epoch).1);
  }

  lemma ReplaceHolds(c: Client, k: Compositor, gone: seq<Entry>)
    requires Holds(c.pipe, [], None) && Moves(Entries(c.pipe), k.entries, gone)
    ensures Holds(DropAll(OnCanvas(c, k), gone).pipe, [], None)
  {
    MoveHolds(c.pipe, k, gone);
    DropAllHolds(OnCanvas(c, k), gone);
  }

  lemma ResetHolds(c: Client)
    requires Holds(c.pipe, [], None)
    ensures Holds(ResetCanvas(c).pipe, [], None)
  {
    if c.pipe.canvas.Some? {
      EverythingMoves(c.pipe.canvas.value.entries);
      ReplaceHolds(c, BLANK, c.pipe.canvas.value.entries);
    }
  }

  lemma StartHolds(c: Client, m: Manifest)
    requires Holds(c.pipe, [], None)
    ensures Holds(StartCanvas(c, m).pipe, [], None)
  {
    if c.pipe.canvas.Some? {
      EverythingMoves(c.pipe.canvas.value.entries);
      var (k, gone) := StartImage(c.pipe.canvas.value, m);
      ReplaceHolds(c, k, gone);
    }
  }

  lemma BeginHolds(c: Client, epoch: int)
    requires Holds(c.pipe, [], None)
    ensures Holds(BeginOnCanvas(c, epoch).pipe, [], None)
  {
    if c.pipe.canvas.Some? {
      EpochMoves(c.pipe.canvas.value.entries);
      var (k, gone) := BeginEpoch(c.pipe.canvas.value, epoch);
      ReplaceHolds(c, k, gone);
    }
  }

  // ----- tiles -----

  lemma EnqueueHolds(p: Pipe, h: Header, kind: Kind)
    requires Holds(p, [], None) && h.epoch == p.epoch
    requires Reserve(p.budget, Job(p.connectionId, h.deliveryId), DecodedBytes(h)).1
    ensures var budget := Reserve(p.budget, Job(p.connectionId, h.deliveryId), DecodedBytes(h)).0;
            Holds(Enqueue(p, h, budget, kind), [], None)
  {
    ReserveKeepsWithin(p.budget, Job(p.connectionId, h.deliveryId), DecodedBytes(h));
  }

  lemma DeliveryHolds(c: Client, h: Header)
    requires Holds(c.pipe, [], None)
    ensures Holds(OnDelivery(c, h).pipe, [], None)
  {
    var p := c.pipe;
    DiscardSameBudget(p, h.deliveryId, p.connectionId);
    HoldsDependsOn(p, Discard(p, h.deliveryId, p.connectionId), [], None);
    if h.epoch == p.epoch && Reserve(p.budget, Job(p.connectionId, h.deliveryId), DecodedBytes(h)).1 {
      EnqueueHolds(p, h, Classify(c.nav, h.epoch, h.z));
    }
  }

  lemma ReceivedHolds(c: Client, h: Header)
    requires Holds(c.pipe, [], None)
    ensures Holds(Received(c, h).pipe, [], None) && Holds(Violation(Received(c, h)).pipe, [], None)
  {
    HoldsDependsOn(c.pipe, Received(c, h).pipe, [], None);
    HoldsDependsOn(c.pipe, Violation(Received(c, h)).pipe, [], None);
  }

  lemma TileHolds(c: Client, h: Header)
    requires Holds(c.pipe, [], None)
    ensures Holds(OnTile(c, h).pipe, [], None)
  {
    ReceivedHolds(c, h);
    DeliveryHolds(Received(c, h), h);
  }

  // ----- the worker answers -----

  lemma TakenHolds(p: Pipe, job: Job)
    requires Holds(p, [], None)
    ensures Holds(Taken(p, job), [], Some(job))
  {
  }

  lemma CancelHolds(p: Pipe, job: Job)
    requires Holds(p, [], Some(job)) && job !in p.pending
    ensures Holds(p.(budget := Cancel(p.budget, job)), [], None)
  {
    CancelKeepsWithin(p.budget, job);
  }

  lemma TooLateHolds(p: Pipe, t: W.Task, bitmap: int)
    requires Holds(p, [], Some(JobOf(t))) && JobOf(t) !in p.pending
    ensures Holds(TooLate(p, t, bitmap), [], None)
  {
    CancelHolds(p, JobOf(t));
    var freed := p.(budget := Cancel(p.budget, JobOf(t)));
    HoldsDependsOn(freed, TooLate(p, t, bitmap), [], None);
  }

  lemma UndecodedHolds(p: Pipe, t: W.Task, failed: bool)
    requires Holds(p, [], Some(JobOf(t))) && JobOf(t) !in p.pending
    ensures Holds(OnUndecoded(p, t, failed), [], None)
  {
    CancelHolds(p, JobOf(t));
    var freed := p.(budget := Cancel(p.budget, JobOf(t)));
    HoldsDependsOn(freed, OnUndecoded(p, t, failed), [], None);
  }

  lemma CommitStores(p: Pipe, job: Job, e: Entry)
    requires Stored(p, []) && e.bytes >= 0 && job in p.budget.reservations && p.budget.reservations[job] == e.bytes
    requires Commit(p.budget, job, e.kind).1.Some?
    ensures Stored(p.(budget := Commit(p.budget, job, e.kind).0), [e])
  {
    SumPush(BytesOf(Context), [], e);
    SumPush(BytesOf(Detail), [], e);
    assert [] + [e] == [e];
  }

  /** A commit that fails has given the reservation back; one that succeeds has left an entry to be stored. */
  lemma CommitHolds(p: Pipe, t: W.Task, bitmap: int, kind: Kind)
    requires Holds(p, [], Some(JobOf(t))) && JobOf(t) !in p.pending
    ensures var (budget, bytes) := Commit(p.budget, JobOf(t), kind);
            Holds(p.(budget := budget), if bytes.Some? then [EntryOf(t, bitmap, bytes.value, kind)] else [], None)
  {
    var (budget, bytes) := Commit(p.budget, JobOf(t), kind);
    CommitKeepsWithin(p.budget, JobOf(t), kind);
    if bytes.Some? { CommitStores(p, JobOf(t), EntryOf(t, bitmap, bytes.value, kind)); }
    hide Sum, Within;
    assert Reserved(p.(budget := budget), None);
  }

  lemma LeakHolds(p: Pipe, e: Entry)
    requires Holds(p, [e], None)
    ensures Holds(p.(log := Leak(p.log, e.kind, e.bytes)), [], None)
  {
    SumPush(BytesOf(Context), [], e);
    SumPush(BytesOf(Detail), [], e);
    assert [] + [e] == [e];
  }

  lemma AcceptHolds(p: Pipe, k: Compositor, e: Entry)
    requires Holds(p, [e], None) && p.canvas == Some(k) && Accepts(k, e.header)
    ensures Holds(p.(presentations := p.presentations + 1, canvas := Some(Store(k, e).0)), Store(k, e).1, None)
  {
    var (k', gone, _) := Store(k, e);
    SumPut(BytesOf(Context), k.entries, e);
    SumPut(BytesOf(Detail), k.entries, e);
    SumPush(BytesOf(Context), [], e);
    SumPush(BytesOf(Detail), [], e);
    assert [] + [e] == [e];
    assert [e][0].bytes >= 0;
    PutMembers(k.entries, e);
    forall i | 0 <= i < |k'.entries| ensures k'.entries[i].bytes >= 0 { assert k'.entries[i] in k'.entries; }
    forall i | 0 <= i < |gone| ensures gone[i].bytes >= 0 { assert gone[i] in gone; }
  }

  lemma StoreHolds(c: Client, k: Compositor, e: Entry)
    requires Holds(c.pipe, [e], None) && c.pipe.canvas == Some(k)
    ensures Holds(StoreOnCanvas(c, k, e).pipe, [], None)
  {
    var (k', gone, accepted) := Store(k, e);
    if accepted {
      AcceptHolds(c.pipe, k, e);
      DropAllHolds(c.(pipe := c.pipe.(presentations := c.pipe.presentations + 1, canvas := Some(k'))), gone);
    } else {
      RemoveKeepsStored(c.pipe, [e]);
      assert [e][1..] == [] && [e][0].bytes >= 0;
      RemoveKeepsWithin(c.pipe.budget, e.kind, e.bytes);
      var removed := c.pipe.(budget := RemoveStored(c.pipe.budget, e.kind, e.bytes));
      HoldsDependsOn(removed, StoreOnCanvas(c, k, e).pipe, [], None);
    }
  }

  function StorePlainly(c: Client, k: Compositor, e: Entry): Client {
    var (k', gone, accepted) := Store(k, e);
    if accepted then DropPlainly(OnCanvas(Showing(c), k'), gone)
    else
      var p := CountDown(Close(Showing(c).pipe, e.bitmap));
      c.(pipe := Discard(p.(budget := TakeOff(p.budget, e.kind, e.bytes)), e.header.deliveryId, e.connectionId))
  }

  /** Nor does a clamp bind when a bitmap is stored: not for an entry it replaces, and not when it is turned away. */
  lemma StoreNeverClamps(c: Client, k: Compositor, e: Entry)
    requires c.pipe.canvas == Some(k) && !e.presented && e.connectionId == c.pipe.connectionId
    requires Books(c.pipe, [], Some(e.header.deliveryId)) && !c.pipe.link.Connecting? && Holds(c.pipe, [e], None)
    ensures StoreOnCanvas(c, k, e) == StorePlainly(c, k, e)
  {
    hide Put, Replaced, Credits, Account, Discard, Accepts;
    var (k', gone, accepted) := Store(k, e);
    if accepted {
      AcceptedKeepsBooks(c.pipe, k, e);
      AcceptHolds(c.pipe, k, e);
      DropNeverClamps(OnCanvas(Showing(c), k'), gone);
    } else {
      SumNotNegative(Waiting, Entries(c.pipe));
      StoredClampNeverBinds(c.pipe, [e]);
    }
  }

  /** Nor in a frame. */
  lemma FrameNeverClamps(c: Client, context: bool)
    requires Books(c.pipe, [], None) && c.pipe.canvas.Some?
    ensures var (k, shown) := Paint(c.pipe.canvas.value, context);
            OnFrame(c, context) == ShowPlainly(OnCanvas(c, k), shown)
  {
    var (k, shown) := Paint(c.pipe.canvas.value, context);
    PaintMovesBooks(c.pipe, c.pipe.canvas.value);
    ShowNeverClamps(OnCanvas(c, k), shown);
  }

  lemma CommitsHold(c: Client, t: W.Task, bitmap: int, kind: Kind)
    requires Holds(c.pipe, [], Some(JobOf(t))) && JobOf(t) !in c.pipe.pending
    ensures Holds(Commits(c, t, bitmap, kind).pipe, [], None)
  {
    var (budget, bytes) := Commit(c.pipe.budget, JobOf(t), kind);
    var p := c.pipe.(budget := budget);
    CommitHolds(c.pipe, t, bitmap, kind);
    if bytes.None? {
      HoldsDependsOn(p, NotStored(p, t, bitmap, kind, bytes), [], None);
    } else {
      var e := EntryOf(t, bitmap, bytes.value, kind);
      if p.canvas.None? {
        LeakHolds(p, e);
        HoldsDependsOn(p.(log := Leak(p.log, kind, e.bytes)), NotStored(p, t, bitmap, kind, bytes), [], None);
      } else {
        StoreHolds(c.(pipe := p), p.canvas.value, e);
      }
    }
  }

  lemma WorkerHolds(c: Client, r: W.Response)
    requires Holds(c.pipe, [], None)
    ensures Holds(OnWorker(c, r).pipe, [], None)
  {
    var job := JobOf(r.task);
    var p := Arrive(c.pipe, r);
    HoldsDependsOn(c.pipe, p, [], None);
    if job !in p.pending {
      HoldsDependsOn(p, OnWorker(c, r).pipe, [], None);
    } else {
      TakenHolds(p, job);
      var d := c.(pipe := Taken(p, job));
      match r
      case Decoded(t, bitmap) =>
        if Current(d, t) { CommitsHold(d, t, bitmap, p.pending[job].kind); }
        else { TooLateHolds(d.pipe, t, bitmap); }
      case Discarded(t) => UndecodedHolds(d.pipe, t, false);
      case Failed(t) => UndecodedHolds(d.pipe, t, true);
    }
  }

  // ----- everything else -----

  lemma LeavingHolds(c: Client)
    requires Holds(c.pipe, [], None)
    ensures Holds(Leaving(c).pipe, [], None)
  {
    CancelAllKeepsWithin(c.pipe.budget, StaleJobs(c.pipe.pending, c.pipe.connectionId, c.pipe.epoch + 1));
  }

  lemma OpenHolds(c: Client)
    requires Holds(c.pipe, [], None)
    ensures Holds(OpenSelected(c).pipe, [], None)
  {
    LeavingHolds(c);
    ResetHolds(Leaving(c));
  }

  lemma RequestHolds(c: Client, signature: int)
    requires Holds(c.pipe, [], None)
    ensures Holds(RequestView(c, signature).pipe, [], None)
  {
    assert Holds(Asking(c, signature).pipe, [], None);
    BeginHolds(Asking(c, signature), c.pipe.epoch + 1);
  }

  lemma ManifestHolds(c: Client, raw: Manifest, signature: int)
    requires Holds(c.pipe, [], None)
    ensures Holds(OnManifest(c, raw, signature).pipe, [], None)
  {
    if c.nav.selected.Some? {
      var parsed := ParseManifest(raw, c.nav.selected.value, c.pipe.epoch);
      if parsed.Ok? {
        StartHolds(Knowing(c, parsed.value), parsed.value);
        RequestHolds(StartCanvas(Knowing(c, parsed.value), parsed.value), signature);
      }
    }
  }

  lemma TextSameBudget(c: Client, control: Control, signature: int)
    requires !control.Welcome? && !control.ManifestIs?
    ensures SameBudget(c.pipe, OnText(c, control, signature).pipe)
  {
  }

  lemma TextHolds(c: Client, control: Control, signature: int)
    requires Holds(c.pipe, [], None)
    ensures Holds(OnText(c, control, signature).pipe, [], None)
  {
    hide Holds;
    match control
    case Welcome(version, maxTileBytes) =>
      HoldsDependsOn(c.pipe, Violation(c).pipe, [], None);
      OpenHolds(c.(nav := c.nav.(welcome := Some(maxTileBytes)), phase := Ready));
    case ManifestIs(m) => ManifestHolds(c, m, signature);
    case _ =>
      TextSameBudget(c, control, signature);
      HoldsDependsOn(c.pipe, OnText(c, control, signature).pipe, [], None);
  }

  lemma FrameHolds(c: Client, context: bool)
    requires Holds(c.pipe, [], None)
    ensures Holds(OnFrame(c, context).pipe, [], None)
  {
    if c.pipe.canvas.Some? {
      var k := c.pipe.canvas.value;
      var (k', shown) := Paint(k, context);
      SumPresentAll(BytesOf(Context), k.entries);
      SumPresentAll(BytesOf(Detail), k.entries);
      assert Holds(OnCanvas(c, k').pipe, [], None);
      ShowAllSameBudget(OnCanvas(c, k'), shown);
      HoldsDependsOn(OnCanvas(c, k').pipe, OnFrame(c, context).pipe, [], None);
    }
  }

  lemma AttachHolds(c: Client)
    requires Holds(c.pipe, [], None)
    ensures Holds(AttachCanvas(c).pipe, [], None)
  {
    ResetHolds(c);
    ResetEmpties(c);
    var d := OnCanvas(ResetCanvas(c), BLANK);
    HoldsDependsOn(ResetCanvas(c).pipe, d.pipe, [], None);
    if c.nav.manifest.Some? { StartHolds(d, c.nav.manifest.value); }
  }

  lemma ViewportHolds(c: Client, signature: int)
    requires Holds(c.pipe, [], None)
    ensures Holds(SetViewport(c, signature).pipe, [], None)
  {
    var l := c.(nav := c.nav.(viewport := true, layout := true));
    RequestHolds(l, signature);
    if l.pipe.canvas.Some? {
      var d := OnCanvas(l, SetView(SetLayout(l.pipe.canvas.value)));
      HoldsDependsOn(l.pipe, d.pipe, [], None);
      RequestHolds(d, signature);
    }
  }

  lemma NavigateHolds(c: Client)
    requires Holds(c.pipe, [], None)
    ensures Holds(Navigate(c).pipe, [], None)
  {
    HoldsDependsOn(c.pipe, Navigate(c).pipe, [], None);
  }

  lemma ModeHolds(c: Client, focus: bool, signature: int)
    requires Holds(c.pipe, [], None)
    ensures Holds(SetMode(c, focus, signature).pipe, [], None)
  {
    NavigateHolds(c.(nav := c.nav.(focus := focus)));
    RequestHolds(Focused(c, focus), signature);
  }

  lemma ConnectHolds(c: Client)
    ensures Holds(Connect(c).pipe, [], None)
  {
    ResetEmpties(Renewed(c));
  }

  lemma CloseHolds(c: Client, reason: bool)
    requires OwnPending(c.pipe)
    ensures Holds(OnClose(c, reason).pipe, [], None)
  {
    CloseEmpties(c, reason);
    ResetEmpties(Emptied(c));
  }

  lemma BinaryHolds(c: Client, tile: Option<Header>)
    requires Holds(c.pipe, [], None)
    ensures Holds(OnBinary(c, tile).pipe, [], None)
  {
    hide Holds;
    HoldsDependsOn(c.pipe, Violation(c).pipe, [], None);
    if c.nav.welcome.Some? && TileIsKnown(c, tile) { TileHolds(c, tile.value); }
  }

  lemma StepHolds(c: Client, e: Event)
    requires Holds(c.pipe, [], None) && OwnPending(c.pipe) && Enabled(c, e)
    ensures Holds(Step(c, e).pipe, [], None)
  {
    hide Holds;
    match e
    case Connects => ConnectHolds(c);
    case LinkOpens => HoldsDependsOn(c.pipe, Opened(c).pipe, [], None);
    case LinkDrops => HoldsDependsOn(c.pipe, Lost(c).pipe, [], None);
    case LinkCloses(reason) => CloseHolds(c, reason);
    case TextArrives(control, signature) => TextHolds(c, control, signature);
    case TileArrives(tile) => BinaryHolds(c, tile);
    case WorkerAnswers(r) => WorkerHolds(c, r);
    case FrameRuns(context) => FrameHolds(c, context);
    case CanvasAttached => AttachHolds(c);
    case ImageSelected(imageId) => OpenHolds(c.(nav := c.nav.(selected := Some(imageId))));
    case ImageRetried => OpenHolds(c);
    case ViewportSet(signature) => ViewportHolds(c, signature);
    case ModeSet(focus, signature) => ModeHolds(c, focus, signature);
    case ViewMoved => NavigateHolds(c);
    case ViewRequested(signature) => RequestHolds(c, signature);
    case Broke => HoldsDependsOn(c.pipe, Fail(c).pipe, [], None);
  }

  // ----- where bytes leak -----

  /** The stored bytes are exactly those of the resident entries. */
  ghost predicate Agrees(p: Pipe) {
    p.budget.context == Sum(BytesOf(Context), Entries(p)) && p.budget.detail == Sum(BytesOf(Detail), Entries(p))
  }

  function Leaked(p: Pipe): int { p.log.leakedContext + p.log.leakedDetail }

  lemma AgreesIff(p: Pipe)
    requires Holds(p, [], None)
    ensures Agrees(p) <==> Leaked(p) == 0
  {
  }

  /** A bitmap of the current view is decoded, and its bytes committed, while no canvas is attached. */
  predicate Orphans(c: Client, r: W.Response) {
    r.Decoded? && JobOf(r.task) in c.pipe.pending && Current(c, r.task) && c.pipe.canvas.None?
    && JobOf(r.task) in c.pipe.budget.reservations
    && (c.pipe.pending[JobOf(r.task)].kind.Context?
        || c.pipe.budget.detail + c.pipe.budget.reservations[JobOf(r.task)] <= DETAIL_BUDGET)
  }

  function OrphanedBytes(c: Client, e: Event): int {
    if e.WorkerAnswers? && Orphans(c, e.r) then c.pipe.budget.reservations[JobOf(e.r.task)] else 0
  }

  lemma {:induction false} DropAllLeaksNothing(c: Client, gone: seq<Entry>)
    ensures Leaked(DropAll(c, gone).pipe) == Leaked(c.pipe)
    decreases |gone|
  {
    if gone != [] { DropAllLeaksNothing(Drop(c, gone[0]), gone[1..]); }
  }

  lemma {:induction false} ShowAllLeaksNothing(c: Client, shown: seq<Entry>)
    ensures Leaked(ShowAll(c, shown).pipe) == Leaked(c.pipe)
    decreases |shown|
  {
    if shown != [] { ShowAllLeaksNothing(UpdatePhase(c.(pipe := Presented(c.pipe, shown[0]))), shown[1..]); }
  }

  lemma CommitsLeaks(c: Client, t: W.Task, bitmap: int, kind: Kind)
    ensures var stored := Commit(c.pipe.budget, JobOf(t), kind).1;
            Leaked(Commits(c, t, bitmap, kind).pipe) ==
            Leaked(c.pipe) + (if stored.Some? && c.pipe.canvas.None? then stored.value else 0)
  {
    var (budget, bytes) := Commit(c.pipe.budget, JobOf(t), kind);
    var p := c.pipe.(budget := budget);
    if bytes.Some? && p.canvas.Some? {
      var (k', gone, accepted) := Store(p.canvas.value, EntryOf(t, bitmap, bytes.value, kind));
      DropAllLeaksNothing(c.(pipe := p.(presentations := p.presentations + 1, canvas := Some(k'))), gone);
    }
  }

  lemma DecodedLeaks(c: Client, t: W.Task, bitmap: int)
    requires Within(c.pipe.budget) && JobOf(t) in c.pipe.pending
    ensures var r := W.Decoded(t, bitmap);
            Leaked(OnWorker(c, r).pipe) == Leaked(c.pipe) + OrphanedBytes(c, WorkerAnswers(r))
  {
    var job := JobOf(t);
    var p := Arrive(c.pipe, W.Decoded(t, bitmap));
    var d := c.(pipe := Taken(p, job));
    assert Current(d, t) == Current(c, t);
    if Current(d, t) {
      CommitsLeaks(d, t, bitmap, p.pending[job].kind);
      CommitSucceedsIff(c.pipe.budget, job, p.pending[job].kind);
    }
  }

  lemma UndecodedLeaksNothing(p: Pipe, t: W.Task, failed: bool)
    ensures Leaked(OnUndecoded(p, t, failed)) == Leaked(p)
  {
  }

  /** The one place bytes leak: the commit is not undone when there is no compositor to store the bitmap. */
  lemma WorkerLeaks(c: Client, r: W.Response)
    requires Within(c.pipe.budget)
    ensures Leaked(OnWorker(c, r).pipe) == Leaked(c.pipe) + OrphanedBytes(c, WorkerAnswers(r))
  {
    if JobOf(r.task) in c.pipe.pending {
      match r
      case Decoded(t, bitmap) => DecodedLeaks(c, t, bitmap);
      case Discarded(t) => UndecodedLeaksNothing(Taken(c.pipe, JobOf(t)), t, false);
      case Failed(t) => UndecodedLeaksNothing(Taken(c.pipe, JobOf(t)), t, true);
    }
  }

  lemma OpenLeaksNothing(c: Client)
    ensures Leaked(OpenSelected(c).pipe) == Leaked(c.pipe)
  {
    if c.pipe.canvas.Some? { DropAllLeaksNothing(OnCanvas(Leaving(c), BLANK), c.pipe.canvas.value.entries); }
  }

  lemma RequestLeaksNothing(c: Client, signature: int)
    ensures Leaked(RequestView(c, signature).pipe) == Leaked(c.pipe)
  {
    if c.pipe.canvas.Some? {
      var (k, gone) := BeginEpoch(c.pipe.canvas.value, c.pipe.epoch + 1);
      DropAllLeaksNothing(OnCanvas(Asking(c, signature), k), gone);
    }
  }

  lemma StartLeaksNothing(c: Client, m: Manifest)
    ensures Leaked(StartCanvas(c, m).pipe) == Leaked(c.pipe)
  {
    if c.pipe.canvas.Some? {
      var (k, gone) := StartImage(c.pipe.canvas.value, m);
      DropAllLeaksNothing(OnCanvas(c, k), gone);
    }
  }

  lemma ManifestLeaksNothing(c: Client, raw: Manifest, signature: int)
    ensures Leaked(OnManifest(c, raw, signature).pipe) == Leaked(c.pipe)
  {
    if c.nav.selected.Some? {
      var parsed := ParseManifest(raw, c.nav.selected.value, c.pipe.epoch);
      if parsed.Ok? {
        StartLeaksNothing(Knowing(c, parsed.value), parsed.value);
        RequestLeaksNothing(StartCanvas(Knowing(c, parsed.value), parsed.value), signature);
      }
    }
  }

  lemma TextLeaksNothing(c: Client, control: Control, signature: int)
    ensures Leaked(OnText(c, control, signature).pipe) == Leaked(c.pipe)
  {
    match control
    case Welcome(_, maxTileBytes) => OpenLeaksNothing(c.(nav := c.nav.(welcome := Some(maxTileBytes)), phase := Ready));
    case ManifestIs(raw) => ManifestLeaksNothing(c, raw, signature);
    case PlanIs(_) =>
    case Done(_) =>
    case Refused(_, _) =>
    case Malformed =>
  }

  lemma FrameLeaksNothing(c: Client, context: bool)
    ensures Leaked(OnFrame(c, context).pipe) == Leaked(c.pipe)
  {
    if c.pipe.canvas.Some? {
      var (k, shown) := Paint(c.pipe.canvas.value, context);
      ShowAllLeaksNothing(OnCanvas(c, k), shown);
    }
  }

  lemma AttachLeaksNothing(c: Client)
    ensures Leaked(AttachCanvas(c).pipe) == Leaked(c.pipe)
  {
    if c.pipe.canvas.Some? { DropAllLeaksNothing(OnCanvas(c, BLANK), c.pipe.canvas.value.entries); }
    if c.nav.manifest.Some? { StartLeaksNothing(OnCanvas(ResetCanvas(c), BLANK), c.nav.manifest.value); }
  }

  lemma ViewportLeaksNothing(c: Client, signature: int)
    ensures Leaked(SetViewport(c, signature).pipe) == Leaked(c.pipe)
  {
    var l := c.(nav := c.nav.(viewport := true, layout := true));
    if l.pipe.canvas.None? { RequestLeaksNothing(l, signature); }
    else { RequestLeaksNothing(OnCanvas(l, SetView(SetLayout(l.pipe.canvas.value))), signature); }
  }

  lemma BinaryLeaksNothing(c: Client, tile: Option<Header>)
    ensures Leaked(OnBinary(c, tile).pipe) == Leaked(c.pipe)
  {
  }

  lemma SelectLeaksNothing(c: Client, imageId: string)
    ensures Leaked(SelectImage(c, imageId).pipe) == Leaked(c.pipe) && Leaked(RetrySelected(c).pipe) == Leaked(c.pipe)
  {
    OpenLeaksNothing(c.(nav := c.nav.(selected := Some(imageId))));
    OpenLeaksNothing(c);
  }

  /** A connection made or closed starts the budget, and with it the leaked bytes, from nothing. */
  predicate StartsOver(e: Event) { e.Connects? || e.LinkCloses? }

  lemma StepLeaksNothing(c: Client, e: Event)
    requires !e.WorkerAnswers?
    ensures Leaked(Step(c, e).pipe) == if StartsOver(e) then 0 else Leaked(c.pipe)
  {
    match e
    case Connects =>
    case LinkOpens =>
    case LinkDrops =>
    case LinkCloses(_) =>
    case TextArrives(control, signature) => TextLeaksNothing(c, control, signature);
    case TileArrives(tile) => BinaryLeaksNothing(c, tile);
    case FrameRuns(context) => FrameLeaksNothing(c, context);
    case CanvasAttached => AttachLeaksNothing(c);
    case ImageSelected(imageId) => SelectLeaksNothing(c, imageId);
    case ImageRetried => SelectLeaksNothing(c, "");
    case ViewportSet(signature) => ViewportLeaksNothing(c, signature);
    case ModeSet(focus, signature) => RequestLeaksNothing(Focused(c, focus), signature);
    case ViewMoved =>
    case ViewRequested(signature) => RequestLeaksNothing(c, signature);
    case Broke =>
  }

  /** What is leaked after any callback: nothing on a new connection, else what was and what the callback orphans. */
  lemma StepLeaks(c: Client, e: Event)
    requires Within(c.pipe.budget)
    ensures Leaked(Step(c, e).pipe) == if StartsOver(e) then 0 else Leaked(c.pipe) + OrphanedBytes(c, e)
  {
    if e.WorkerAnswers? { WorkerLeaks(c, e.r); } else { StepLeaksNothing(c, e); }
  }

  /**
    Any callback: the stored bytes agree afterwards exactly on a new connection, or if they agreed and no
    bitmap is orphaned.
  */
  lemma StepAgreesIff(c: Client, e: Event)
    requires Holds(c.pipe, [], None) && OwnPending(c.pipe) && Enabled(c, e)
    ensures Agrees(Step(c, e).pipe) <==>
            StartsOver(e) || (Agrees(c.pipe) && !(e.WorkerAnswers? && Orphans(c, e.r)))
  {
    StepHolds(c, e);
    AgreesIff(c.pipe);
    AgreesIff(Step(c, e).pipe);
    StepLeaks(c, e);
  }
}
