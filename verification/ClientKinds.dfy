/**
  What the two budgets are for: level 0 is always context, so a new view, which
  drops every other level, frees all the detail.
*/
module ClientKinds {
  import opened Budgets
  import opened ClientBooks
  import opened ClientBudget
  import opened ClientEntries
  import opened ClientRuns
  import opened ClientSystem
  import opened Clients
  import opened Compositors
  import opened Pyramid
  import opened Results
  import W = Workers

  predicate ContextIfBase(e: Entry) { e.header.z == 0 ==> e.kind.Context? }

  ghost predicate BaseIsContext(entries: seq<Entry>) { AllAre(ContextIfBase, entries) }

  /** A pending decode of a level-0 tile is to be stored as context; a closed connection has none pending. */
  ghost predicate FlightKinds(p: Pipe, flight: map<Job, W.Task>) {
    (p.link.Closed? ==> p.pending == map[]) &&
    forall j | j in flight && j in p.pending :: flight[j].header.z == 0 ==> p.pending[j].kind.Context?
  }

  ghost predicate Kinds(s: System) { BaseIsContext(Entries(s.c.pipe)) && FlightKinds(s.c.pipe, s.flight) }

  // ----- tiles and answers -----

  lemma TileKinds(c: Client, h: Header, flight: map<Job, W.Task>)
    requires c.pipe.link.Open? && FlightKinds(c.pipe, flight)
    ensures var q := OnTile(c, h).pipe;
            Entries(q) == Entries(c.pipe) && !q.link.Closed? &&
            FlightKinds(q, if q.posted == c.pipe.posted then flight
                           else flight[Job(c.pipe.connectionId, h.deliveryId) := W.Task(c.pipe.connectionId, h)])
  {
    hide Reserve, DecodedBytes;
  }

  // ----- the system -----

  lemma OrdinaryKeepsKinds(s: System, e: Event)
    requires Kinds(s) && Ordinary(e) && Enabled(s.c, e)
    ensures Kinds(After(s, ClientActs(e)))
  {
    hide AllAre, Step, Enabled;
    OrdinaryKeepsAll(ContextIfBase, s.c, e);
    StepSameFlight(s.c, e);
  }

  lemma ConnectionKeepsKinds(s: System, e: Event)
    requires Channels(s) && (e.Connects? || e.LinkCloses?) && Enabled(s.c, e)
    ensures Kinds(After(s, ClientActs(e)))
  {
    hide Connect, OnClose;
    if e.LinkCloses? { CloseEmpties(s.c, e.reason); } else { ConnectEmpties(s.c); }
  }

  lemma TileKeepsKinds(s: System, tile: Option<Header>)
    requires Channels(s) && Kinds(s) && s.c.pipe.link.Open? && (tile.Some? ==> IsTileHeader(tile.value))
    ensures Kinds(After(s, ClientActs(TileArrives(tile))))
  {
    hide BaseIsContext, Channels, OnBinary;
    BinaryKinds(s, tile);
  }

  /** What is in flight after a tile, in the words of the step that follows it. */
  lemma BinaryKinds(s: System, tile: Option<Header>)
    requires Channels(s) && Kinds(s) && s.c.pipe.link.Open?
    ensures var q := OnBinary(s.c, tile).pipe;
            Entries(q) == Entries(s.c.pipe) && !q.link.Closed? &&
            FlightKinds(q, FlightAfter(s, TileArrives(tile), q.posted))
  {
    hide BaseIsContext, OnTile;
    if tile.Some? && s.c.nav.welcome.Some? && TileIsKnown(s.c, tile) {
      TileKinds(s.c, tile.value, s.flight);
      TileSends(s.c, tile.value);
    }
  }

  /** The answer about to be heard is the one its pending job waits for. */
  lemma HeardIsInFlight(s: System)
    requires Sound(s) && s.heard < |s.w.posted| && (s.c.pipe.link.Closed? ==> s.c.pipe.pending == map[])
    requires JobOf(s.w.posted[s.heard].task) in s.c.pipe.pending
    ensures var t := s.w.posted[s.heard].task; JobOf(t) in s.flight && s.flight[JobOf(t)] == t
  {
    var t := s.w.posted[s.heard].task;
    assert At(s, t);
    OwnJob(s.c.pipe, JobOf(t));
    HeardWasInFlight(s);
  }

  lemma OwnJob(p: Pipe, job: Job)
    requires OwnPending(p) && job in p.pending
    ensures job.connectionId == p.connectionId
  {
  }

  lemma HeardKeepsKinds(s: System)
    requires Sound(s) && Kinds(s) && s.heard < |s.w.posted|
    ensures Kinds(After(s, AnswerHeard))
  {
    hide AllAre, OnWorker, Sound;
    var r := s.w.posted[s.heard];
    WorkerTakes(s.c, r);
    if JobOf(r.task) in s.c.pipe.pending { HeardIsInFlight(s); }
    WorkerKeepsAll(ContextIfBase, s.c, r);
  }

  lemma StepKeepsKinds(s: System, e: SystemEvent)
    requires Sound(s) && Kinds(s) && CanHappen(s, e)
    ensures Kinds(After(s, e))
  {
    hide Kinds, Tracks, Inv, Step, Enabled;
    match e
    case ClientActs(x) =>
      if Ordinary(x) { OrdinaryKeepsKinds(s, x); }
      else if x.TileArrives? { TilesNeedAnOpenLink(s.c, x); TileKeepsKinds(s, x.tile); }
      else { ConnectionKeepsKinds(s, x); }
    case RequestTaken => SameClientKeepsKinds(s, After(s, e));
    case DecodeEnds(_, _) => SameClientKeepsKinds(s, After(s, e));
    case DecodeCountedOut => SameClientKeepsKinds(s, After(s, e));
    case AnswerHeard => HeardKeepsKinds(s);
  }

  lemma TilesNeedAnOpenLink(c: Client, e: Event)
    requires Enabled(c, e) && e.TileArrives?
    ensures c.pipe.link.Open? && (e.tile.Some? ==> IsTileHeader(e.tile.value))
  {
  }

  lemma SameClientKeepsKinds(s: System, u: System)
    requires Kinds(s) && u.c == s.c && u.flight == s.flight
    ensures Kinds(u)
  {
  }

  lemma StartKindsOk(c: Client)
    requires New(c)
    ensures Kinds(Initial(c))
  {
  }

  lemma FollowsKeepsKinds(s: System, e: SystemEvent, u: System)
    requires Sound(s) && Kinds(s) && Follows(s, e, u)
    ensures Kinds(u)
  {
    hide Sound, Kinds;
    StepKeepsKinds(s, e);
  }

  /** Over every interleaving, level 0 is context: in flight and resident. */
  lemma {:induction false} SystemKeepsKinds(s: System, run: seq<SystemMove>)
    requires Sound(s) && Kinds(s) && SystemRun(s, run)
    ensures Kinds(SystemEnd(s, run))
    decreases |run|
  {
    hide Sound, Kinds, CanHappen, After;
    if run != [] {
      FollowsKeepsKinds(s, run[0].e, run[0].s);
      FollowsKeepsSound(s, run[0].e, run[0].s);
      SystemKeepsKinds(run[0].s, run[1..]);
    }
  }

  lemma {:induction false} NoDetailIn(entries: seq<Entry>)
    requires forall i | 0 <= i < |entries| :: entries[i].kind.Context?
    ensures Sum(BytesOf(Detail), entries) == 0
    decreases |entries|
  {
    if entries != [] { NoDetailIn(entries[..|entries| - 1]); }
  }

  /**
    A new view starts with the whole detail budget: whatever detail was resident is freed,
    and only what had leaked before is still on it. What stays resident is level 0.
  */
  lemma NewViewFreesDetail(s: System, signature: int)
    requires Sound(s) && Kinds(s) && CanRequest(s.c, signature) && s.c.pipe.epoch < MAX_EPOCH
    ensures var p := RequestView(s.c, signature).pipe;
            p.budget.detail == p.log.leakedDetail &&
            forall i | 0 <= i < |Entries(p)| :: Entries(p)[i].header.z == 0
  {
    var p := RequestView(s.c, signature).pipe;
    RequestHolds(s.c, signature);
    if s.c.pipe.canvas.Some? {
      var (k, gone) := BeginEpoch(s.c.pipe.canvas.value, s.c.pipe.epoch + 1);
      CoarseKeepsAll(ContextIfBase, s.c.pipe.canvas.value.entries);
      DropAllChangesLittle(OnCanvas(Asking(s.c, signature), k), gone);
      forall i | 0 <= i < |k.entries| ensures k.entries[i].kind.Context? { assert ContextIfBase(k.entries[i]); }
      NoDetailIn(k.entries);
    }
  }
}
