/**
  The order of messages between the client and its worker: epochs only grow, and
  a decode is never posted after a message that makes it stale.
*/
module ClientOrder {
  import opened ClientBooks
  import opened ClientRuns
  import opened ClientSystem
  import opened Clients
  import Compositors
  import opened Pyramid
  import opened Results
  import W = Workers

  // ----- what may follow what -----

  /** A message the client may have posted by now: of an epoch it has reached, on a connection it has made. */
  ghost predicate Sayable(r: W.Request, p: Pipe) {
    match r
    case Configure(_) => true
    case Decode(t) => t.connectionId <= p.connectionId && t.header.epoch >= 0
    case Invalidate(connectionId, minEpoch) =>
      connectionId <= p.connectionId && (connectionId == p.connectionId ==> minEpoch <= p.epoch)
    case ResetConnection(connectionId) =>
      connectionId <= p.connectionId && (connectionId == p.connectionId ==> p.link.Closed?)
  }

  /** A decode is not stale by any one message that went before it. */
  ghost predicate InTime(before: W.Request, r: W.Request) {
    r.Decode? ==>
      match before
      case Configure(_) => true
      case Decode(_) => true
      case Invalidate(connectionId, minEpoch) => connectionId == r.task.connectionId ==> minEpoch <= r.task.header.epoch
      case ResetConnection(connectionId) => connectionId != r.task.connectionId
  }

  ghost predicate AllSayable(p: Pipe) {
    p.epoch >= 0 && forall i | 0 <= i < |p.posted| :: Sayable(p.posted[i], p)
  }

  ghost predicate InOrder(posted: seq<W.Request>) {
    forall i, j | 0 <= i < j < |posted| :: InTime(posted[i], posted[j])
  }

  ghost predicate Orderly(p: Pipe) { AllSayable(p) && InOrder(p.posted) }

  lemma PostKeepsOrder(p: Pipe, q: Pipe, r: W.Request)
    requires Orderly(p) && q.posted == p.posted + [r] && Sayable(r, q) && q.epoch >= 0
    requires forall x | Sayable(x, p) :: Sayable(x, q) && InTime(x, r)
    ensures Orderly(q)
  {
    forall i | 0 <= i < |q.posted| ensures Sayable(q.posted[i], q) {
      if i < |p.posted| { assert Sayable(p.posted[i], p); }
    }
    forall i, j | 0 <= i < j < |q.posted| ensures InTime(q.posted[i], q.posted[j]) {
      if j < |p.posted| { assert InTime(p.posted[i], p.posted[j]); } else { assert Sayable(p.posted[i], p); }
    }
  }

  lemma SameKeepsOrder(p: Pipe, q: Pipe)
    requires Orderly(p) && q.posted == p.posted && q.connectionId == p.connectionId && q.epoch == p.epoch
    requires p.link.Closed? ==> q.link.Closed?
    ensures Orderly(q)
  {
    forall i | 0 <= i < |q.posted| ensures Sayable(q.posted[i], q) { assert Sayable(p.posted[i], p); }
  }

  lemma OrdinaryKeepsOrder(c: Client, e: Event)
    requires Orderly(c.pipe) && Ordinary(e) && Enabled(c, e)
    ensures Orderly(Step(c, e).pipe)
  {
    hide Step, Enabled, Orderly;
    StepSameFlight(c, e);
    var q := Step(c, e).pipe;
    if q.posted == c.pipe.posted && q.epoch == c.pipe.epoch { SameKeepsOrder(c.pipe, q); }
    else { InvalidateKeepsOrder(c.pipe, q); }
  }

  lemma InvalidateKeepsOrder(p: Pipe, q: Pipe)
    requires Orderly(p) && q.connectionId == p.connectionId && (p.link.Closed? ==> q.link.Closed?)
    requires q.epoch == p.epoch + 1 && q.posted == p.posted + [W.Invalidate(p.connectionId, q.epoch)]
    ensures Orderly(q)
  {
    PostKeepsOrder(p, q, W.Invalidate(p.connectionId, q.epoch));
  }

  lemma ResetKeepsOrder(p: Pipe, q: Pipe)
    requires Orderly(p) && q.posted == p.posted + [W.ResetConnection(p.connectionId)]
    requires (q.connectionId == p.connectionId + 1 && q.epoch == 0) ||
             (q.connectionId == p.connectionId && q.epoch == p.epoch && q.link.Closed?)
    ensures Orderly(q)
  {
    PostKeepsOrder(p, q, W.ResetConnection(p.connectionId));
  }

  lemma DecodeKeepsOrder(p: Pipe, q: Pipe, h: Header)
    requires Orderly(p) && p.link.Open? && Sends(p, q, h)
    ensures Orderly(q)
  {
    if q.posted == p.posted { SameKeepsOrder(p, q); }
    else { PostKeepsOrder(p, q, W.Decode(W.Task(p.connectionId, h))); }
  }

  lemma TileKeepsOrder(s: System, tile: Option<Header>)
    requires Channels(s) && Orderly(s.c.pipe) && s.c.pipe.link.Open?
    ensures Orderly(OnBinary(s.c, tile).pipe)
  {
    hide Orderly, Sends, Channels;
    if tile.Some? {
      TileStep(s, tile.value);
      DecodeKeepsOrder(s.c.pipe, OnBinary(s.c, tile).pipe, tile.value);
    } else {
      SameKeepsOrder(s.c.pipe, OnBinary(s.c, tile).pipe);
    }
  }

  /** Whatever the client does next, its messages stay in order. */
  lemma ClientKeepsOrder(s: System, e: Event)
    requires Channels(s) && Orderly(s.c.pipe) && Enabled(s.c, e) && !e.WorkerAnswers?
    ensures Orderly(Step(s.c, e).pipe)
  {
    hide Orderly, Channels;
    if Ordinary(e) {
      OrdinaryKeepsOrder(s.c, e);
    } else if e.TileArrives? {
      TileKeepsOrder(s, e.tile);
    } else if e.Connects? {
      ConnectPosts(s.c);
      ResetKeepsOrder(s.c.pipe, Connect(s.c).pipe);
    } else {
      ClosePosts(s.c, e.reason);
      ResetKeepsOrder(s.c.pipe, OnClose(s.c, e.reason).pipe);
    }
  }

  /** Within a connection the epoch never falls, and a new connection starts below every epoch of its own. */
  lemma EpochsOnlyGrow(s: System, e: Event)
    requires Channels(s) && Enabled(s.c, e) && !e.WorkerAnswers?
    ensures var p, q := s.c.pipe, Step(s.c, e).pipe;
            if q.connectionId == p.connectionId then p.epoch <= q.epoch <= p.epoch + 1
            else q.connectionId == p.connectionId + 1 && q.epoch == 0
  {
    hide Channels;
    if Ordinary(e) {
      StepSameFlight(s.c, e);
    } else if e.TileArrives? {
      if e.tile.Some? { TileStep(s, e.tile.value); }
    } else if e.Connects? {
      ConnectPosts(s.c);
    } else {
      ClosePosts(s.c, e.reason);
    }
  }

  // ----- what the worker has been told -----

  /** The minimum of a connection comes from a message the worker has taken. */
  ghost predicate WasTold(posted: seq<W.Request>, taken: nat, connectionId: int, minEpoch: int) {
    exists i :: 0 <= i < taken <= |posted| &&
      (posted[i] == W.Invalidate(connectionId, minEpoch) ||
       (posted[i] == W.ResetConnection(connectionId) && minEpoch == W.NEVER))
  }

  ghost predicate Told(s: System) {
    forall connectionId | connectionId in s.w.minimum ::
      WasTold(s.c.pipe.posted, s.taken, connectionId, s.w.minimum[connectionId])
  }

  lemma ToldStays(before: seq<W.Request>, after: seq<W.Request>, taken: nat, more: nat, connectionId: int,
                  minEpoch: int)
    requires WasTold(before, taken, connectionId, minEpoch) && before <= after && taken <= more <= |after|
    ensures WasTold(after, more, connectionId, minEpoch)
  {
    var i :| 0 <= i < taken <= |before| &&
      (before[i] == W.Invalidate(connectionId, minEpoch) ||
       (before[i] == W.ResetConnection(connectionId) && minEpoch == W.NEVER));
    assert after[i] == before[i];
  }

  lemma PumpKeepsMinimum(w: W.Worker, r: W.Request)
    ensures W.Handle(w, r).minimum ==
            match r
            case Configure(_) => w.minimum
            case Decode(_) => w.minimum
            case Invalidate(connectionId, minEpoch) => w.minimum[connectionId := minEpoch]
            case ResetConnection(connectionId) => w.minimum[connectionId := W.NEVER]
  {
    if r.Decode? { W.PumpPostsNoBitmap(W.Enqueue(w.(received := w.received + [r.task]), r.task)); }
  }

  lemma TakingIsTold(s: System)
    requires Told(s) && s.taken < |s.c.pipe.posted|
    ensures Told(After(s, RequestTaken))
  {
    var posted, r := s.c.pipe.posted, s.c.pipe.posted[s.taken];
    PumpKeepsMinimum(s.w, r);
    var u := After(s, RequestTaken);
    assert u.w.minimum == W.Handle(s.w, r).minimum;
    forall connectionId | connectionId in u.w.minimum
      ensures WasTold(posted, s.taken + 1, connectionId, u.w.minimum[connectionId])
    {
      if connectionId in s.w.minimum && u.w.minimum[connectionId] == s.w.minimum[connectionId] {
        ToldStays(posted, posted, s.taken, s.taken + 1, connectionId, s.w.minimum[connectionId]);
      } else {
        assert posted[s.taken] == r;
      }
    }
  }

  lemma PostingIsTold(s: System, u: System)
    requires Told(s) && u.w.minimum == s.w.minimum && u.taken == s.taken <= |s.c.pipe.posted|
    requires s.c.pipe.posted <= u.c.pipe.posted
    ensures Told(u)
  {
    forall connectionId | connectionId in u.w.minimum
      ensures WasTold(u.c.pipe.posted, u.taken, connectionId, u.w.minimum[connectionId])
    {
      ToldStays(s.c.pipe.posted, u.c.pipe.posted, s.taken, u.taken, connectionId, s.w.minimum[connectionId]);
    }
  }

  /**
    A decode that reaches the worker is never stale: its check on admission never finds
    anything. A decode can only be discarded in the queue or after it was decoded.
  */
  lemma DecodesArriveCurrent(s: System)
    requires Orderly(s.c.pipe) && Told(s) && s.taken < |s.c.pipe.posted| && s.c.pipe.posted[s.taken].Decode?
    ensures !W.Stale(s.w.minimum, s.c.pipe.posted[s.taken].task)
  {
    var posted, t := s.c.pipe.posted, s.c.pipe.posted[s.taken].task;
    assert Sayable(posted[s.taken], s.c.pipe);
    if t.connectionId in s.w.minimum {
      var minEpoch := s.w.minimum[t.connectionId];
      assert WasTold(posted, s.taken, t.connectionId, minEpoch);
      var i :| 0 <= i < s.taken <= |posted| &&
        (posted[i] == W.Invalidate(t.connectionId, minEpoch) ||
         (posted[i] == W.ResetConnection(t.connectionId) && minEpoch == W.NEVER));
      assert InTime(posted[i], posted[s.taken]);
    }
  }

  // ----- runs -----

  ghost predicate Ordered(s: System) { Sound(s) && Orderly(s.c.pipe) && Told(s) }

  lemma StepPosts(s: System, e: Event)
    requires Channels(s) && Enabled(s.c, e) && !e.WorkerAnswers?
    ensures s.c.pipe.posted <= Step(s.c, e).pipe.posted
  {
    hide Channels;
    if Ordinary(e) {
      StepSameFlight(s.c, e);
    } else if e.TileArrives? {
      if e.tile.Some? { TileStep(s, e.tile.value); }
    } else if e.Connects? {
      ConnectPosts(s.c);
    } else {
      ClosePosts(s.c, e.reason);
    }
  }

  lemma ActKeepsOrdered(s: System, e: Event)
    requires Ordered(s) && Enabled(s.c, e) && !e.WorkerAnswers?
    ensures Ordered(After(s, ClientActs(e)))
  {
    StepKeepsSound(s, ClientActs(e));
    hide Sound, Orderly, Told, Step, Enabled;
    assert Channels(s) by { SoundHasChannels(s); }
    ClientKeepsOrder(s, e);
    StepPosts(s, e);
    PostingIsTold(s, After(s, ClientActs(e)));
  }

  lemma SoundHasChannels(s: System)
    requires Sound(s)
    ensures Channels(s) && s.taken <= |s.c.pipe.posted|
  {
  }

  lemma TakeKeepsOrdered(s: System)
    requires Ordered(s) && s.taken < |s.c.pipe.posted|
    ensures Ordered(After(s, RequestTaken))
  {
    StepKeepsSound(s, RequestTaken);
    hide Sound, Orderly, Told;
    TakingIsTold(s);
  }

  lemma WorkKeepsMinimum(w: W.Worker, e: W.Event)
    requires W.Enabled(w, e) && !e.Message?
    ensures W.Step(w, e).minimum == w.minimum
  {
    if e.CountsOut? { W.PumpPostsNoBitmap(w.(closing := w.closing - 1, active := w.active - 1)); }
  }

  lemma WorkKeepsOrdered(s: System, e: SystemEvent)
    requires Ordered(s) && CanHappen(s, e) && (e.DecodeEnds? || e.DecodeCountedOut?)
    ensures Ordered(After(s, e))
  {
    StepKeepsSound(s, e);
    WorkKeepsMinimum(s.w, if e.DecodeEnds? then W.Ends(e.i, e.o) else W.CountsOut);
    hide Sound, Orderly, Told;
    SoundHasChannels(s);
    PostingIsTold(s, After(s, e));
  }

  lemma HearKeepsOrdered(s: System)
    requires Ordered(s) && s.heard < |s.w.posted|
    ensures Ordered(After(s, AnswerHeard))
  {
    StepKeepsSound(s, AnswerHeard);
    WorkerTakes(s.c, s.w.posted[s.heard]);
    hide Sound, Orderly, Told;
    SoundHasChannels(s);
    SameKeepsOrder(s.c.pipe, After(s, AnswerHeard).c.pipe);
    PostingIsTold(s, After(s, AnswerHeard));
  }

  lemma StepKeepsOrdered(s: System, e: SystemEvent)
    requires Ordered(s) && CanHappen(s, e)
    ensures Ordered(After(s, e))
  {
    hide Ordered;
    match e
    case ClientActs(x) => ActKeepsOrdered(s, x);
    case RequestTaken => TakeKeepsOrdered(s);
    case DecodeEnds(_, _) => WorkKeepsOrdered(s, e);
    case DecodeCountedOut => WorkKeepsOrdered(s, e);
    case AnswerHeard => HearKeepsOrdered(s);
  }

  lemma StartIsOrdered(c: Client)
    requires New(c)
    ensures Ordered(Initial(c))
  {
    StartIsSound(c);
  }

  lemma FollowsKeepsOrdered(s: System, e: SystemEvent, u: System)
    requires Ordered(s) && Follows(s, e, u)
    ensures Ordered(u)
  {
    hide Ordered;
    StepKeepsOrdered(s, e);
  }

  /** Over every interleaving: the messages are in order, and the worker knows only what it was told. */
  lemma {:induction false} SystemStaysOrdered(s: System, run: seq<SystemMove>)
    requires Ordered(s) && SystemRun(s, run)
    ensures Ordered(SystemEnd(s, run))
    decreases |run|
  {
    hide Ordered, CanHappen, After;
    if run != [] {
      FollowsKeepsOrdered(s, run[0].e, run[0].s);
      SystemStaysOrdered(run[0].s, run[1..]);
    }
  }

  // ----- the first view of an image -----

  /**
    Opening an image and hearing of it always asks for its first view, whatever was asked
    for before, and leaves the compositor ready for the tiles of that view.
  */
  lemma FirstViewIsRequested(c: Client, m: Manifest, signature: int)
    requires c.pipe.link.Open? && c.nav.selected.Some? && c.nav.viewport && 0 <= c.pipe.epoch < MAX_EPOCH - 1
    requires ParseManifest(m, c.nav.selected.value, c.pipe.epoch + 1) == Ok(m)
    ensures var d := OnManifest(OpenSelected(c), m, signature);
            d.nav.manifest == Some(m) && d.pipe.epoch == c.pipe.epoch + 2 && d.phase.Receiving? &&
            d.nav.intent == Some(Intent(c.pipe.epoch + 2, c.nav.focus)) &&
            d.pipe.posted == c.pipe.posted + [W.Invalidate(c.pipe.connectionId, c.pipe.epoch + 1)]
                                           + [W.Invalidate(c.pipe.connectionId, c.pipe.epoch + 2)] &&
            (c.pipe.canvas.Some? ==>
               d.pipe.canvas.Some? && d.pipe.canvas.value.manifest == Some(m) &&
               d.pipe.canvas.value.currentEpoch == d.pipe.epoch)
  {
    ResetEmpties(Leaving(c));
    ResetSameFlight(Leaving(c));
    var o := OpenSelected(c);
    var known := Knowing(o, m);
    StartSameFlight(known, m);
    StartSameNav(known, m);
    ResetKeepsCanvas(Leaving(c));
    StartedCanvas(known, m);
    FirstRequest(StartCanvas(known, m), signature);
  }

  lemma ResetKeepsCanvas(c: Client)
    ensures c.pipe.canvas.Some? ==> ResetCanvas(c).pipe.canvas == Some(Compositors.BLANK)
  {
    if c.pipe.canvas.Some? { DropAllChangesLittle(OnCanvas(c, Compositors.BLANK), c.pipe.canvas.value.entries); }
  }

  lemma StartedCanvas(c: Client, m: Manifest)
    ensures c.pipe.canvas.Some? ==>
              StartCanvas(c, m).pipe.canvas == Some(Compositors.StartImage(c.pipe.canvas.value, m).0)
  {
    if c.pipe.canvas.Some? {
      var (k, gone) := Compositors.StartImage(c.pipe.canvas.value, m);
      DropAllChangesLittle(OnCanvas(c, k), gone);
    }
  }

  lemma FirstRequest(c: Client, signature: int)
    requires CanRequest(c, signature) && c.pipe.epoch < MAX_EPOCH
    ensures var d := RequestView(c, signature);
            d.nav == Asking(c, signature).nav && d.pipe.epoch == c.pipe.epoch + 1 && d.phase.Receiving? &&
            d.pipe.posted == c.pipe.posted + [W.Invalidate(c.pipe.connectionId, c.pipe.epoch + 1)] &&
            (c.pipe.canvas.Some? ==>
               d.pipe.canvas == Some(Compositors.BeginEpoch(c.pipe.canvas.value, c.pipe.epoch + 1).0))
  {
    RequestSameFlight(c, signature);
    if c.pipe.canvas.Some? {
      var (k, gone) := Compositors.BeginEpoch(c.pipe.canvas.value, c.pipe.epoch + 1);
      DropAllChangesLittle(OnCanvas(Asking(c, signature), k), gone);
    }
  }
}
