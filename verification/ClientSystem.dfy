/**
  The client and its worker, joined by two channels that keep the order of
  messages: what is posted and not yet taken, what is answered and not yet heard.
*/
module ClientSystem {
  import opened Budgets
  import opened ClientBooks
  import opened ClientBudget
  import opened ClientRuns
  import opened ClientView
  import opened Clients
  import opened Compositors
  import opened Pyramid
  import opened Results
  import L = Ledgers
  import W = Workers

  /**
    taken requests of c.pipe.posted have reached the worker, heard answers of w.posted the
    client. flight remembers, for each pending decode, what was posted for it.
  */
  datatype System = System(c: Client, w: W.Worker, taken: nat, heard: nat, flight: map<Job, W.Task>)

  // ----- what the client posts -----

  function Sent(posted: seq<W.Request>, t: W.Task): nat {
    if posted == [] then 0
    else Sent(posted[..|posted| - 1], t) + (if posted[|posted| - 1] == W.Decode(t) then 1 else 0)
  }

  lemma {:induction false} SentGrows(posted: seq<W.Request>, n: nat, t: W.Task)
    requires n <= |posted|
    ensures Sent(posted[..n], t) <= Sent(posted, t)
    decreases |posted|
  {
    if n < |posted| {
      var m := |posted| - 1;
      assert posted[..m][..n] == posted[..n];
      SentGrows(posted[..m], n, t);
    } else {
      assert posted[..n] == posted;
    }
  }

  /** At most one message, and not a decode. */
  ghost predicate NoDecode(before: seq<W.Request>, after: seq<W.Request>) {
    after == before ||
    (|after| == |before| + 1 && after[..|before|] == before && !after[|before|].Decode?)
  }

  lemma NoDecodeSendsNothing(before: seq<W.Request>, after: seq<W.Request>, t: W.Task)
    requires NoDecode(before, after)
    ensures Sent(after, t) == Sent(before, t)
  {
  }

  /**
    What a callback leaves to the decodes in flight: a new epoch comes with one message that invalidates the
    old ones.
  */
  ghost predicate SameFlight(p: Pipe, q: Pipe) {
    q.connectionId == p.connectionId && q.pending == p.pending && (q.link.Closed? <==> p.link.Closed?) &&
    ((q.epoch == p.epoch && q.posted == p.posted) ||
     (q.epoch == p.epoch + 1 && q.posted == p.posted + [W.Invalidate(p.connectionId, q.epoch)]))
  }

  lemma SameFlightNoDecode(p: Pipe, q: Pipe)
    requires SameFlight(p, q)
    ensures NoDecode(p.posted, q.posted)
  {
  }

  lemma ResetSameFlight(c: Client)
    ensures ResetCanvas(c).pipe.posted == c.pipe.posted && SameFlight(c.pipe, ResetCanvas(c).pipe)
  {
    if c.pipe.canvas.Some? { DropAllChangesLittle(OnCanvas(c, BLANK), c.pipe.canvas.value.entries); }
  }

  lemma StartSameFlight(c: Client, m: Manifest)
    ensures StartCanvas(c, m).pipe.posted == c.pipe.posted && SameFlight(c.pipe, StartCanvas(c, m).pipe)
  {
    if c.pipe.canvas.Some? {
      var (k, gone) := StartImage(c.pipe.canvas.value, m);
      DropAllChangesLittle(OnCanvas(c, k), gone);
    }
  }

  lemma RequestSameFlight(c: Client, signature: int)
    ensures SameFlight(c.pipe, RequestView(c, signature).pipe)
  {
    if c.pipe.canvas.Some? {
      var (k, gone) := BeginEpoch(c.pipe.canvas.value, c.pipe.epoch + 1);
      DropAllChangesLittle(OnCanvas(Asking(c, signature), k), gone);
    }
  }

  lemma OpenSameFlight(c: Client)
    ensures SameFlight(c.pipe, OpenSelected(c).pipe)
  {
    ResetSameFlight(Leaving(c));
  }

  lemma ManifestSameFlight(c: Client, raw: Manifest, signature: int)
    requires c.pipe.link.Open?
    ensures SameFlight(c.pipe, OnManifest(c, raw, signature).pipe)
  {
    if c.nav.selected.Some? {
      var parsed := ParseManifest(raw, c.nav.selected.value, c.pipe.epoch);
      if parsed.Ok? {
        StartSameFlight(Knowing(c, parsed.value), parsed.value);
        RequestSameFlight(StartCanvas(Knowing(c, parsed.value), parsed.value), signature);
      }
    }
  }

  lemma TextSameFlight(c: Client, control: Control, signature: int)
    requires c.pipe.link.Open?
    ensures SameFlight(c.pipe, OnText(c, control, signature).pipe)
  {
    match control
    case Welcome(_, maxTileBytes) => OpenSameFlight(c.(nav := c.nav.(welcome := Some(maxTileBytes)), phase := Ready));
    case ManifestIs(raw) => ManifestSameFlight(c, raw, signature);
    case PlanIs(_) =>
    case Done(_) =>
    case Refused(_, _) =>
    case Malformed =>
  }

  lemma FrameSameFlight(c: Client, context: bool)
    ensures SameFlight(c.pipe, OnFrame(c, context).pipe)
  {
    if c.pipe.canvas.Some? {
      var (k, shown) := Paint(c.pipe.canvas.value, context);
      ShowAllChangesLittle(OnCanvas(c, k), shown);
    }
  }

  lemma AttachSameFlight(c: Client)
    ensures SameFlight(c.pipe, AttachCanvas(c).pipe)
  {
    ResetSameFlight(c);
    if c.nav.manifest.Some? { StartSameFlight(OnCanvas(ResetCanvas(c), BLANK), c.nav.manifest.value); }
  }

  lemma ViewportSameFlight(c: Client, signature: int)
    ensures SameFlight(c.pipe, SetViewport(c, signature).pipe)
  {
    var l := c.(nav := c.nav.(viewport := true, layout := true));
    if l.pipe.canvas.None? { RequestSameFlight(l, signature); }
    else { RequestSameFlight(OnCanvas(l, SetView(SetLayout(l.pipe.canvas.value))), signature); }
  }

  lemma SelectSameFlight(c: Client, imageId: string)
    ensures SameFlight(c.pipe, SelectImage(c, imageId).pipe) && SameFlight(c.pipe, RetrySelected(c).pipe)
  {
    OpenSameFlight(c.(nav := c.nav.(selected := Some(imageId))));
    OpenSameFlight(c);
  }

  /** A connection made or closed, a tile or an answer apart, no callback touches what is in flight. */
  ghost predicate Ordinary(e: Event) {
    !e.Connects? && !e.LinkCloses? && !e.TileArrives? && !e.WorkerAnswers?
  }

  lemma StepSameFlight(c: Client, e: Event)
    requires Ordinary(e) && Enabled(c, e)
    ensures SameFlight(c.pipe, Step(c, e).pipe)
  {
    match e
    case LinkOpens =>
    case LinkDrops =>
    case TextArrives(control, signature) => TextSameFlight(c, control, signature);
    case FrameRuns(context) => FrameSameFlight(c, context);
    case CanvasAttached => AttachSameFlight(c);
    case ImageSelected(imageId) => SelectSameFlight(c, imageId);
    case ImageRetried => SelectSameFlight(c, "");
    case ViewportSet(signature) => ViewportSameFlight(c, signature);
    case ModeSet(focus, signature) => RequestSameFlight(Focused(c, focus), signature);
    case ViewMoved =>
    case ViewRequested(signature) => RequestSameFlight(c, signature);
    case Broke =>
  }

  /** A tile posts one decode, for a job that is not pending, or nothing. */
  ghost predicate Sends(p: Pipe, q: Pipe, h: Header) {
    var job := Job(p.connectionId, h.deliveryId);
    q.connectionId == p.connectionId && q.epoch == p.epoch && (q.link.Closed? ==> p.link.Closed?) &&
    ((q.posted == p.posted && q.pending == p.pending) ||
     (q.posted == p.posted + [W.Decode(W.Task(p.connectionId, h))] && h.epoch == p.epoch &&
      job !in p.pending && job in q.pending &&
      q.pending - {job} == p.pending && q.pending[job].epoch == h.epoch && q.pending[job].bytes == DecodedBytes(h)))
  }

  lemma DeliverySends(c: Client, h: Header)
    requires Job(c.pipe.connectionId, h.deliveryId) !in c.pipe.pending
    ensures Sends(c.pipe, OnDelivery(c, h).pipe, h)
  {
    var p := c.pipe;
    var (budget, reserved) := Reserve(p.budget, Job(p.connectionId, h.deliveryId), DecodedBytes(h));
    var kind := Classify(c.nav, h.epoch, h.z);
    var q := Enqueue(p, h, budget, kind);
    assert q.pending - {Job(p.connectionId, h.deliveryId)} == p.pending;
  }

  lemma TileSends(c: Client, h: Header)
    requires Books(c.pipe, [], None) && c.pipe.link.Open?
    ensures Sends(c.pipe, OnTile(c, h).pipe, h)
  {
    if Admitted(c, h) {
      AdmitKeepsBooks(c, h);
      var p := Received(c, h).pipe;
      assert Credit(p, [], Some(h.deliveryId), h.deliveryId);
      SumNotNegative(WaitingFor(h.deliveryId), Entries(p));
      DeliverySends(Received(c, h), h);
    }
  }

  /** An answer takes its job off the pending decodes and posts nothing. */
  lemma WorkerTakes(c: Client, r: W.Response)
    ensures var q := OnWorker(c, r).pipe;
            q.pending == c.pipe.pending - {JobOf(r.task)} && q.posted == c.pipe.posted &&
            q.connectionId == c.pipe.connectionId && q.epoch == c.pipe.epoch && q.link == c.pipe.link
  {
    var job := JobOf(r.task);
    var p := Arrive(c.pipe, r);
    assert job !in p.pending ==> p.pending - {job} == p.pending;
    if job in p.pending && r.Decoded? && Current(c.(pipe := Taken(p, job)), r.task) {
      CommitsTake(c.(pipe := Taken(p, job)), r.task, r.bitmap, p.pending[job].kind);
    }
  }

  lemma CommitsTake(c: Client, t: W.Task, bitmap: int, kind: Kind)
    ensures var q := Commits(c, t, bitmap, kind).pipe;
            q.pending == c.pipe.pending && q.posted == c.pipe.posted &&
            q.connectionId == c.pipe.connectionId && q.epoch == c.pipe.epoch && q.link == c.pipe.link
  {
    var (budget, bytes) := Commit(c.pipe.budget, JobOf(t), kind);
    var p := c.pipe.(budget := budget);
    if bytes.Some? && p.canvas.Some? {
      var (k', gone, accepted) := Store(p.canvas.value, EntryOf(t, bitmap, bytes.value, kind));
      DropAllChangesLittle(c.(pipe := p.(presentations := p.presentations + 1, canvas := Some(k'))), gone);
    }
  }

  lemma ConnectPosts(c: Client)
    ensures var q := Connect(c).pipe;
            q.posted == c.pipe.posted + [W.ResetConnection(c.pipe.connectionId)] &&
            q.connectionId == c.pipe.connectionId + 1 && q.epoch == 0 && q.pending == map[] && q.link.Connecting?
  {
    ResetSameFlight(Renewed(c));
    ResetEmpties(Renewed(c));
  }

  lemma ClosePosts(c: Client, reason: bool)
    ensures var q := OnClose(c, reason).pipe;
            q.posted == c.pipe.posted + [W.ResetConnection(c.pipe.connectionId)] &&
            q.connectionId == c.pipe.connectionId && q.epoch == c.pipe.epoch && q.link.Closed?
  {
    ResetSameFlight(Emptied(c));
    ResetEmpties(Emptied(c));
  }

  // ----- the steps -----

  datatype SystemEvent =
    | ClientActs(e: Event)
    | RequestTaken
    | DecodeEnds(i: nat, o: W.Outcome)
    | DecodeCountedOut
    | AnswerHeard

  /** The worker is the only source of its answers. */
  ghost predicate CanHappen(s: System, e: SystemEvent) {
    match e
    case ClientActs(x) => Enabled(s.c, x) && !x.WorkerAnswers?
    case RequestTaken => s.taken < |s.c.pipe.posted|
    case DecodeEnds(i, _) => i < |s.w.decoding|
    case DecodeCountedOut => s.w.closing > 0
    case AnswerHeard => s.heard < |s.w.posted|
  }

  /** A decode that has just been posted joins what is in flight. */
  function Joining(before: seq<W.Request>, after: seq<W.Request>, flight: map<Job, W.Task>): map<Job, W.Task> {
    if |after| == |before| + 1 && after[|before|].Decode? then
      flight[JobOf(after[|before|].task) := after[|before|].task]
    else flight
  }

  /** What is in flight after a callback: a decode just posted joins, a connection made or closed forgets all. */
  function FlightAfter(s: System, e: Event, posted: seq<W.Request>): map<Job, W.Task> {
    if e.Connects? || e.LinkCloses? then map[]
    else Joining(s.c.pipe.posted, posted, s.flight)
  }

  ghost function After(s: System, e: SystemEvent): System
    requires CanHappen(s, e)
  {
    match e
    case ClientActs(x) =>
      var c := Step(s.c, x);
      s.(c := c, flight := FlightAfter(s, x, c.pipe.posted))
    case RequestTaken => s.(w := W.Handle(s.w, s.c.pipe.posted[s.taken]), taken := s.taken + 1)
    case DecodeEnds(i, o) => s.(w := W.DecodeEnds(s.w, i, o))
    case DecodeCountedOut => s.(w := W.Finally(s.w))
    case AnswerHeard =>
      var r := s.w.posted[s.heard];
      s.(c := OnWorker(s.c, r), heard := s.heard + 1, flight := s.flight - {JobOf(r.task)})
  }

  // ----- every decode in flight is a pending one, and the other way round -----

  /** The payloads the worker adds up are not negative. */
  ghost predicate Payloads(posted: seq<W.Request>) {
    forall i | 0 <= i < |posted| && posted[i].Decode? :: posted[i].task.header.payloadBytes >= 0
  }

  /** Each decode in flight was posted for the pending job of its name, in its epoch and of its size. */
  ghost predicate Matches(p: Pipe, flight: map<Job, W.Task>) {
    flight.Keys == p.pending.Keys &&
    forall j | j in flight ::
      JobOf(flight[j]) == j && flight[j].header.epoch == p.pending[j].epoch &&
      DecodedBytes(flight[j].header) == p.pending[j].bytes
  }

  ghost predicate Channels(s: System) {
    s.taken <= |s.c.pipe.posted| && s.heard <= |s.w.posted| && W.Inv(s.w) && Payloads(s.c.pipe.posted) &&
    Books(s.c.pipe, [], None) && (!s.c.pipe.link.Closed? ==> Matches(s.c.pipe, s.flight))
  }

  /** How often t was posted and not yet heard of: once if it is what its job has in flight, else never. */
  ghost predicate Tracked(p: Pipe, answers: nat, flight: map<Job, W.Task>, t: W.Task) {
    (t.connectionId > p.connectionId ==> Sent(p.posted, t) == 0) &&
    (!p.link.Closed? && t.connectionId == p.connectionId ==>
       Sent(p.posted, t) == answers + One(JobOf(t) in flight && flight[JobOf(t)] == t))
  }

  ghost predicate At(s: System, t: W.Task) {
    s.taken <= |s.c.pipe.posted| && s.heard <= |s.w.posted| &&
    W.Count(s.w.received, t) == Sent(s.c.pipe.posted[..s.taken], t) && W.Accounted(s.w, t) &&
    Tracked(s.c.pipe, W.Answers(s.w.posted[..s.heard], t), s.flight, t)
  }

  lemma {:induction false} AnswersGrow(posted: seq<W.Response>, n: nat, t: W.Task)
    requires n <= |posted|
    ensures W.Answers(posted[..n], t) <= W.Answers(posted, t)
    ensures n < |posted| && posted[n].task == t ==> W.Answers(posted[..n], t) < W.Answers(posted, t)
  {
    W.AnswersConcat(posted[..n], posted[n..], t);
    assert posted[..n] + posted[n..] == posted;
  }

  /** Nothing is answered that was not posted. */
  lemma AnswersWereSent(s: System, t: W.Task)
    requires At(s, t)
    ensures W.Answers(s.w.posted, t) <= Sent(s.c.pipe.posted, t)
  {
    SentGrows(s.c.pipe.posted, s.taken, t);
  }

  lemma OrdinaryKeepsAt(s: System, e: Event, t: W.Task)
    requires At(s, t) && Ordinary(e) && Enabled(s.c, e)
    ensures At(After(s, ClientActs(e)), t) && After(s, ClientActs(e)).flight == s.flight
  {
    StepSameFlight(s.c, e);
    SameFlightNoDecode(s.c.pipe, Step(s.c, e).pipe);
    var posted := Step(s.c, e).pipe.posted;
    NoDecodeSendsNothing(s.c.pipe.posted, posted, t);
    assert posted[..s.taken] == s.c.pipe.posted[..s.taken];
  }

  lemma ConnectionKeepsAt(s: System, e: Event, t: W.Task)
    requires At(s, t) && (e.Connects? || e.LinkCloses?) && Enabled(s.c, e)
    ensures At(After(s, ClientActs(e)), t)
  {
    ConnectPosts(s.c);
    if e.LinkCloses? { ClosePosts(s.c, e.reason); }
    var posted := Step(s.c, e).pipe.posted;
    NoDecodeSendsNothing(s.c.pipe.posted, posted, t);
    assert posted[..s.taken] == s.c.pipe.posted[..s.taken];
    AnswersWereSent(s, t);
    AnswersGrow(s.w.posted, s.heard, t);
  }

  lemma TileStep(s: System, h: Header)
    requires Channels(s) && s.c.pipe.link.Open?
    ensures Sends(s.c.pipe, OnBinary(s.c, Some(h)).pipe, h)
  {
    if s.c.nav.welcome.Some? && TileIsKnown(s.c, Some(h)) { TileSends(s.c, h); }
  }

  lemma SendsKeepsTracked(p: Pipe, q: Pipe, h: Header, answers: nat, flight: map<Job, W.Task>, t: W.Task)
    requires Tracked(p, answers, flight, t) && Sends(p, q, h) && !p.link.Closed? && flight.Keys == p.pending.Keys
    ensures Tracked(q, answers, Joining(p.posted, q.posted, flight), t) && p.posted <= q.posted
  {
    if q.posted != p.posted { assert q.posted[..|q.posted| - 1] == p.posted; }
  }

  lemma TileKeepsAt(s: System, h: Header, t: W.Task)
    requires At(s, t) && Channels(s) && s.c.pipe.link.Open? && IsTileHeader(h)
    ensures At(After(s, ClientActs(TileArrives(Some(h)))), t)
  {
    TileStep(s, h);
    SendsKeepsTracked(s.c.pipe, OnBinary(s.c, Some(h)).pipe, h, W.Answers(s.w.posted[..s.heard], t), s.flight, t);
    hide OnBinary, Channels, IsTileHeader, Sends, Tracked, W.Accounted;
    var posted := OnBinary(s.c, Some(h)).pipe.posted;
    assert posted[..s.taken] == s.c.pipe.posted[..s.taken];
  }

  lemma TakenKeepsCount(posted: seq<W.Request>, taken: nat, w: W.Worker, t: W.Task)
    requires taken < |posted| && W.Count(w.received, t) == Sent(posted[..taken], t)
    ensures W.Count(W.Handle(w, posted[taken]).received, t) == Sent(posted[..taken + 1], t)
  {
    var r := posted[taken];
    W.HandleReceives(w, r);
    assert posted[..taken + 1][..taken] == posted[..taken];
    if r.Decode? { W.CountPush(w.received, t, r.task); } else { assert w.received + [] == w.received; }
  }

  lemma TakenKeepsAt(s: System, t: W.Task)
    requires At(s, t) && Channels(s) && s.taken < |s.c.pipe.posted|
    ensures At(After(s, RequestTaken), t)
  {
    hide W.Handle, W.Inv, W.Accounted, Tracked, Sent, Books, Matches;
    var r := s.c.pipe.posted[s.taken];
    W.HandleKeepsAccounts(s.w, r, t);
    W.MessagePostsNoBitmap(s.w, r);
    TakenKeepsCount(s.c.pipe.posted, s.taken, s.w, t);
    assert W.Handle(s.w, r).posted[..s.heard] == s.w.posted[..s.heard];
  }

  lemma WorkKeepsAt(s: System, e: W.Event, t: W.Task)
    requires At(s, t) && Channels(s) && !e.Message? && W.Enabled(s.w, e)
    ensures At(s.(w := W.Step(s.w, e)), t) && W.Inv(W.Step(s.w, e)) && s.heard <= |W.Step(s.w, e).posted|
  {
    W.StepKeeps(s.w, e, t);
    W.StepLogs(s.w, e);
    assert W.Step(s.w, e).posted[..s.heard] == s.w.posted[..s.heard];
    assert s.w.received + [] == s.w.received;
  }

  /** An answer about to be heard on a connection that is not closed is the one its pending job waits for. */
  lemma HeardWasInFlight(s: System)
    requires Channels(s) && s.heard < |s.w.posted| && At(s, s.w.posted[s.heard].task)
    requires !s.c.pipe.link.Closed? && s.w.posted[s.heard].task.connectionId == s.c.pipe.connectionId
    ensures var t := s.w.posted[s.heard].task;
            JobOf(t) in s.flight && s.flight[JobOf(t)] == t && JobOf(t) in s.c.pipe.pending
  {
    var t := s.w.posted[s.heard].task;
    AnswersWereSent(s, t);
    AnswersGrow(s.w.posted, s.heard, t);
  }

  lemma HeardKeepsAt(s: System, t: W.Task)
    requires At(s, t) && Channels(s) && s.heard < |s.w.posted| && At(s, s.w.posted[s.heard].task)
    ensures At(After(s, AnswerHeard), t)
  {
    hide OnWorker, W.Inv, Payloads, DecodedBytes;
    var r := s.w.posted[s.heard];
    WorkerTakes(s.c, r);
    W.AnswersPush(s.w.posted[..s.heard], r, t);
    assert s.w.posted[..s.heard + 1] == s.w.posted[..s.heard] + [r];
    if !s.c.pipe.link.Closed? && r.task.connectionId == s.c.pipe.connectionId { HeardWasInFlight(s); }
  }

  // ----- the whole system -----

  ghost predicate Tracks(s: System) { forall t :: At(s, t) }

  ghost predicate Sound(s: System) { Channels(s) && Tracks(s) && Inv(s.c) }

  lemma PayloadsGrow(before: seq<W.Request>, after: seq<W.Request>)
    requires Payloads(before) && (NoDecode(before, after) || before == after)
    ensures Payloads(after)
  {
    forall i | 0 <= i < |after| && after[i].Decode? ensures after[i].task.header.payloadBytes >= 0 {
      if i < |before| { assert after[..|before|][i] == before[i]; }
    }
  }

  lemma OrdinaryKeepsChannels(s: System, e: Event)
    requires Channels(s) && Ordinary(e) && Enabled(s.c, e)
    ensures Channels(After(s, ClientActs(e)))
  {
    StepKeepsBooks(s.c, e);
    StepSameFlight(s.c, e);
    SameFlightNoDecode(s.c.pipe, Step(s.c, e).pipe);
    PayloadsGrow(s.c.pipe.posted, Step(s.c, e).pipe.posted);
  }

  lemma ConnectionKeepsChannels(s: System, e: Event)
    requires Channels(s) && (e.Connects? || e.LinkCloses?) && Enabled(s.c, e)
    ensures Channels(After(s, ClientActs(e)))
  {
    StepKeepsBooks(s.c, e);
    ConnectPosts(s.c);
    if e.LinkCloses? { ClosePosts(s.c, e.reason); }
    var posted := Step(s.c, e).pipe.posted;
    assert NoDecode(s.c.pipe.posted, posted);
    PayloadsGrow(s.c.pipe.posted, posted);
  }

  lemma SendsKeepsChannels(s: System, q: Pipe, h: Header, flight: map<Job, W.Task>)
    requires Channels(s) && !s.c.pipe.link.Closed? && Sends(s.c.pipe, q, h) && IsTileHeader(h)
    requires flight == if q.posted == s.c.pipe.posted then s.flight
                       else s.flight[Job(s.c.pipe.connectionId, h.deliveryId) := W.Task(s.c.pipe.connectionId, h)]
    ensures Matches(q, flight) && Payloads(q.posted)
  {
    hide Books, W.Inv, DecodedBytes;
    var job := Job(s.c.pipe.connectionId, h.deliveryId);
    if q.posted != s.c.pipe.posted {
      assert q.pending.Keys == s.c.pipe.pending.Keys + {job};
      forall j | j in flight
        ensures j in q.pending && JobOf(flight[j]) == j && flight[j].header.epoch == q.pending[j].epoch
        ensures DecodedBytes(flight[j].header) == q.pending[j].bytes
      {
        if j != job {
          assert j in s.flight;
          assert (q.pending - {job})[j] == q.pending[j];
        }
      }
    }
  }

  lemma TileKeepsChannels(s: System, h: Header)
    requires Channels(s) && s.c.pipe.link.Open? && IsTileHeader(h)
    ensures Channels(After(s, ClientActs(TileArrives(Some(h)))))
  {
    var e := TileArrives(Some(h));
    StepKeepsBooks(s.c, e);
    TileStep(s, h);
    var q := Step(s.c, e).pipe;
    SendsKeepsChannels(s, q, h, FlightAfter(s, e, q.posted));
  }

  lemma NoTileKeeps(s: System, t: W.Task)
    requires Channels(s) && s.c.pipe.link.Open? && At(s, t)
    ensures Channels(After(s, ClientActs(TileArrives(None)))) && At(After(s, ClientActs(TileArrives(None))), t)
  {
    StepKeepsBooks(s.c, TileArrives(None));
    var posted := Step(s.c, TileArrives(None)).pipe.posted;
    assert posted == s.c.pipe.posted;
  }

  lemma HeardKeepsChannels(s: System)
    requires Channels(s) && s.heard < |s.w.posted|
    ensures Channels(After(s, AnswerHeard))
  {
    var r := s.w.posted[s.heard];
    WorkerTakes(s.c, r);
    WorkerKeepsBooks(s.c, r);
  }

  /** Any task at all: what holds of every task is asked of this one where only the worker is meant. */
  const SOME_TASK := W.Task(0, Header(0, 0, "", "", 0, 0, 0, 0, 0, 0, None))

  lemma ClientKeeps(s: System, e: Event)
    requires Channels(s) && Tracks(s) && Enabled(s.c, e) && !e.WorkerAnswers?
    ensures Channels(After(s, ClientActs(e))) && Tracks(After(s, ClientActs(e)))
  {
    var u := After(s, ClientActs(e));
    if Ordinary(e) {
      OrdinaryKeepsChannels(s, e);
      forall t ensures At(u, t) { assert At(s, t); OrdinaryKeepsAt(s, e, t); }
    } else if e.TileArrives? {
      if e.tile.Some? {
        TileKeepsChannels(s, e.tile.value);
        forall t ensures At(u, t) { assert At(s, t); TileKeepsAt(s, e.tile.value, t); }
      } else {
        forall t ensures At(u, t) && Channels(u) { assert At(s, t); NoTileKeeps(s, t); }
        assert At(u, SOME_TASK);
      }
    } else {
      ConnectionKeepsChannels(s, e);
      forall t ensures At(u, t) { assert At(s, t); ConnectionKeepsAt(s, e, t); }
    }
  }

  lemma WorkKeeps(s: System, e: W.Event)
    requires Channels(s) && Tracks(s) && !e.Message? && W.Enabled(s.w, e)
    ensures Channels(s.(w := W.Step(s.w, e))) && Tracks(s.(w := W.Step(s.w, e)))
  {
    var u := s.(w := W.Step(s.w, e));
    forall t ensures At(u, t) { assert At(s, t); WorkKeepsAt(s, e, t); }
    assert At(s, SOME_TASK);
    WorkKeepsAt(s, e, SOME_TASK);
  }

  lemma TakenKeepsChannels(s: System)
    requires Channels(s) && Tracks(s) && s.taken < |s.c.pipe.posted|
    ensures Channels(After(s, RequestTaken)) && Tracks(After(s, RequestTaken))
  {
    var r := s.c.pipe.posted[s.taken];
    W.HandleKeepsInv(s.w, r);
    W.StepLogs(s.w, W.Message(r));
    var u := After(s, RequestTaken);
    forall t ensures At(u, t) { assert At(s, t); TakenKeepsAt(s, t); }
  }

  lemma HeardKeeps(s: System)
    requires Channels(s) && Tracks(s) && s.heard < |s.w.posted|
    ensures Channels(After(s, AnswerHeard)) && Tracks(After(s, AnswerHeard))
  {
    HeardKeepsChannels(s);
    var u := After(s, AnswerHeard);
    assert At(s, s.w.posted[s.heard].task);
    forall t ensures At(u, t) { assert At(s, t); HeardKeepsAt(s, t); }
  }

  lemma StepKeepsSound(s: System, e: SystemEvent)
    requires Sound(s) && CanHappen(s, e)
    ensures Sound(After(s, e))
  {
    match e
    case ClientActs(x) => ClientKeeps(s, x); StepKeepsInv(s.c, x);
    case RequestTaken => TakenKeepsChannels(s);
    case DecodeEnds(i, o) => WorkKeeps(s, W.Ends(i, o));
    case DecodeCountedOut => WorkKeeps(s, W.CountsOut);
    case AnswerHeard => HeardKeeps(s); StepKeepsInv(s.c, WorkerAnswers(s.w.posted[s.heard]));
  }

  // ----- what it means for the client -----

  /**
    Every answer on a connection that is not closed finds its job pending, and that job was
    posted with this very header: its epoch, not past the client's, and its size. Answers of
    other connections are all of earlier ones.
  */
  lemma AnswersFindTheirJobs(s: System)
    requires Sound(s) && s.heard < |s.w.posted|
    ensures var t := s.w.posted[s.heard].task;
            var p := s.c.pipe;
            t.connectionId <= p.connectionId &&
            (!p.link.Closed? && t.connectionId == p.connectionId ==>
               JobOf(t) in p.pending && p.pending[JobOf(t)].epoch == t.header.epoch <= p.epoch &&
               p.pending[JobOf(t)].bytes == DecodedBytes(t.header))
  {
    var t := s.w.posted[s.heard].task;
    assert At(s, t);
    AnswersWereSent(s, t);
    AnswersGrow(s.w.posted, s.heard, t);
    if !s.c.pipe.link.Closed? && t.connectionId == s.c.pipe.connectionId { HeardWasInFlight(s); }
  }

  /**
    A bitmap of the current epoch is always paid for by its own reservation; only the limit of detail can
    refuse it.
  */
  lemma CurrentBitmapsCommit(s: System)
    requires Sound(s) && s.heard < |s.w.posted| && !s.c.pipe.link.Closed?
    requires s.w.posted[s.heard].task.connectionId == s.c.pipe.connectionId
    requires s.w.posted[s.heard].task.header.epoch == s.c.pipe.epoch
    ensures var t := s.w.posted[s.heard].task;
            var p := s.c.pipe;
            JobOf(t) in p.pending &&
            var stored := Commit(p.budget, JobOf(t), p.pending[JobOf(t)].kind).1;
            (stored.Some? ==> stored.value == DecodedBytes(t.header)) &&
            (stored.None? <==>
               p.pending[JobOf(t)].kind.Detail? && p.budget.detail + DecodedBytes(t.header) > DETAIL_BUDGET)
  {
    AnswersFindTheirJobs(s);
    var t := s.w.posted[s.heard].task;
    CommitSucceedsIff(s.c.pipe.budget, JobOf(t), s.c.pipe.pending[JobOf(t)].kind);
  }

  /** Both channels are empty and the worker rests. */
  ghost predicate Resting(s: System) {
    s.taken == |s.c.pipe.posted| && s.heard == |s.w.posted| && s.w.active == 0
  }

  lemma RestingHasHeardAll(s: System, t: W.Task)
    requires W.Inv(s.w) && At(s, t) && Resting(s)
    ensures W.Answers(s.w.posted[..s.heard], t) == Sent(s.c.pipe.posted, t)
  {
    assert s.w.queue == [] && s.w.decoding == [];
    assert s.c.pipe.posted[..s.taken] == s.c.pipe.posted && s.w.posted[..s.heard] == s.w.posted;
  }

  lemma InFlightIsUnheard(s: System, t: W.Task)
    requires Channels(s) && At(s, t) && !s.c.pipe.link.Closed?
    requires JobOf(t) in s.flight && s.flight[JobOf(t)] == t
    ensures W.Answers(s.w.posted[..s.heard], t) < Sent(s.c.pipe.posted, t)
  {
    assert JobOf(t) in s.c.pipe.pending;
  }

  lemma RestingMeansNothingPending(s: System)
    requires Sound(s) && Resting(s) && !s.c.pipe.link.Closed?
    ensures s.c.pipe.pending == map[]
  {
    forall j ensures j !in s.flight {
      if j in s.flight {
        var t := s.flight[j];
        assert At(s, t);
        RestingHasHeardAll(s, t);
        InFlightIsUnheard(s, t);
        assert false;
      }
    }
  }

  /**
    Nothing is stuck: once the worker rests and a frame has run, every tile received is
    drawn, discarded or failed, no reservation is left, and whatever delivery is still
    active has been asked for again.
  */
  lemma NothingIsStuck(s: System, id: int)
    requires Sound(s) && Resting(s) && s.c.pipe.link.Open? && s.c.pipe.canvas.Some?
    ensures var p := OnFrame(s.c, true).pipe;
            p.received == p.drawn + p.discarded + p.failed && p.budget.transient == 0 &&
            (id in p.ledger.active ==> p.ledger.active[id].retryExpected)
  {
    RestingMeansNothingPending(s);
    var d := OnFrame(s.c, true);
    FramePaintsAll(s.c);
    FrameKeepsBooks(s.c, true);
    FrameHolds(s.c, true);
    ShowAllChangesLittle(OnCanvas(s.c, Paint(s.c.pipe.canvas.value, true).0), Paint(s.c.pipe.canvas.value, true).1);
    assert d.pipe.budget.reservations == map[];
    assert Credit(d.pipe, [], None, id);
    SumPresentAll(WaitingFor(id), s.c.pipe.canvas.value.entries);
  }

  // ----- runs -----

  datatype SystemMove = SystemMove(e: SystemEvent, s: System)

  ghost predicate Follows(s: System, e: SystemEvent, u: System) { CanHappen(s, e) && u == After(s, e) }

  ghost predicate SystemRun(s: System, run: seq<SystemMove>)
    decreases |run|
  {
    run == [] || (Follows(s, run[0].e, run[0].s) && SystemRun(run[0].s, run[1..]))
  }

  function SystemEnd(s: System, run: seq<SystemMove>): System {
    if run == [] then s else run[|run| - 1].s
  }

  /** A new client beside an idle worker. */
  function Initial(c: Client): System { System(c, W.IDLE, 0, 0, map[]) }

  lemma StartIsSound(c: Client)
    requires New(c)
    ensures Sound(Initial(c))
  {
    NewInv(c);
  }

  lemma FollowsKeepsSound(s: System, e: SystemEvent, u: System)
    requires Sound(s) && Follows(s, e, u)
    ensures Sound(u)
  {
    StepKeepsSound(s, e);
  }

  /** Every interleaving of callbacks, messages and decodes, from any sound system. */
  lemma {:induction false} SystemStaysSound(s: System, run: seq<SystemMove>)
    requires Sound(s) && SystemRun(s, run)
    ensures Sound(SystemEnd(s, run))
    decreases |run|
  {
    hide Sound, CanHappen, After;
    if run != [] {
      FollowsKeepsSound(s, run[0].e, run[0].s);
      SystemStaysSound(run[0].s, run[1..]);
    }
  }
}
