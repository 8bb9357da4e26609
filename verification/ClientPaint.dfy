/**
  What is resident can be drawn: over every interleaving of client and worker each entry is of a level
  that the manifest on show has, so that painting finds a destination for it.
*/
module ClientPaint {
  import opened Budgets
  import opened ClientBooks
  import opened ClientBudget
  import opened ClientEntries
  import opened ClientKinds
  import opened ClientNav
  import opened ClientRuns
  import opened ClientSafety
  import opened ClientSystem
  import opened Clients
  import opened Compositors
  import opened Pyramid
  import opened Results
  import opened ViewMath
  import W = Workers

  /** The tile is of a level of the image; a fine one is one of the tiles its level is divided into. */
  ghost predicate HasPlace(m: Manifest, h: Header) {
    IsTileHeader(h) && m.tileSize > 0 && 0 <= h.z < |m.levels| && (h.z != 0 ==> ValidateTile(h, m).Ok?)
  }

  ghost function Placed(m: Manifest): Entry -> bool { (e: Entry) => HasPlace(m, e.header) }

  /** A compositor that was started; one that was not holds nothing. */
  ghost predicate EntriesPlaced(p: Pipe) {
    Started(p) ==> AllAre(Placed(p.canvas.value.manifest.value), Entries(p))
  }

  /** The view of the current epoch has been begun under the manifest on show. */
  predicate Begins(p: Pipe) { Started(p) && Begun(p) == p.epoch >= 1 }

  /** A tile in flight that the compositor would take as a fine one is one of the image on show. */
  ghost predicate TilePlaced(c: Client, h: Header) {
    IsTileHeader(h) &&
    (Begins(c.pipe) && h.epoch == c.pipe.epoch && c.nav.manifest.Some? &&
     SameImage(c.nav.manifest.value, h.imageId, h.imageVersion) ==>
       c.nav.manifest.value.tileSize > 0 && ValidateTile(h, c.nav.manifest.value).Ok?)
  }

  ghost predicate FlightPlaced(c: Client, flight: map<Job, W.Task>) {
    forall j | j in flight && j in c.pipe.pending :: TilePlaced(c, flight[j].header)
  }

  ghost predicate AllPlaced(s: System) {
    s.c.pipe.epoch >= 0 && EntriesPlaced(s.c.pipe) && FlightPlaced(s.c, s.flight)
  }

  // ----- what a callback leaves of the view that was begun -----

  /** A view is begun anew, at a later epoch, or the epoch and the manifest are what they were. */
  lemma BeginsSince(c: Client, e: Event, d: Client)
    requires Fresh(c) && c.pipe.epoch >= 0 && OutlineOf(d) == NextOutline(FrontOf(c), e)
    ensures d.pipe.epoch >= 0
    ensures Begins(d.pipe) ==>
              d.pipe.epoch == c.pipe.epoch + 1 ||
              (d.pipe.epoch == c.pipe.epoch && Begins(c.pipe) && d.nav.manifest == c.nav.manifest)
  {
    hide ParseManifest, StaleControl, Shows;
  }

  lemma ManifestStays(c: Client, e: Event, d: Client)
    requires OutlineOf(d) == NextOutline(FrontOf(c), e) && !Starts(FrontOf(c), e) && !Clears(FrontOf(c), e)
    ensures Started(d.pipe) ==> Started(c.pipe) && d.pipe.canvas.value.manifest == c.pipe.canvas.value.manifest
  {
    hide ParseManifest, StaleControl;
  }

  lemma PlacedLasts(m: Manifest)
    ensures Lasting(Placed(m))
  {
  }

  lemma StepKeepsEntriesPlaced(c: Client, e: Event)
    requires Enabled(c, e) && OwnPending(c.pipe) && EntriesPlaced(c.pipe) && !e.WorkerAnswers?
    ensures EntriesPlaced(Step(c, e).pipe)
  {
    hide AllAre, Step, Enabled, NextOutline, OutlineOf, Starts, Clears, FrontOf;
    var d := Step(c, e);
    if Started(d.pipe) {
      var q := Placed(d.pipe.canvas.value.manifest.value);
      if Starts(FrontOf(c), e) || Clears(FrontOf(c), e) {
        RestartKeepsAll(q, c, e);
      } else {
        StepRefinesOutline(c, e);
        ManifestStays(c, e, d);
        PlacedLasts(d.pipe.canvas.value.manifest.value);
        StayKeepsAll(q, c, e);
      }
    }
  }

  lemma StayKeepsAll(q: Entry -> bool, c: Client, e: Event)
    requires Enabled(c, e) && Lasting(q) && AllAre(q, Entries(c.pipe)) && !e.WorkerAnswers? && !Clears(FrontOf(c), e)
    ensures AllAre(q, Entries(Step(c, e).pipe))
  {
    hide AllAre, OnBinary, Lasting;
    if e.TileArrives? { TileKeepsEntries(c, e.tile); } else { OrdinaryKeepsAll(q, c, e); }
  }

  // ----- tiles in flight -----

  /** A tile in flight was posted in the current epoch or an earlier one. */
  lemma InFlightIsOld(s: System, j: Job)
    requires Sound(s) && Kinds(s) && j in s.flight && j in s.c.pipe.pending
    ensures s.flight[j].header.epoch <= s.c.pipe.epoch
  {
  }

  lemma TileStaysPlaced(c: Client, e: Event, d: Client, h: Header)
    requires Fresh(c) && c.pipe.epoch >= 0 && OutlineOf(d) == NextOutline(FrontOf(c), e)
    requires TilePlaced(c, h) && h.epoch <= c.pipe.epoch
    ensures TilePlaced(d, h)
  {
    hide NextOutline, IsTileHeader, ValidateTile, Fresh;
    BeginsSince(c, e, d);
  }

  /** A tile that is let in is held against the manifest on show, if it is of that image. */
  lemma ArrivedIsPlaced(c: Client, h: Header)
    requires Knows(c.nav) && IsTileHeader(h) && c.nav.welcome.Some? && TileIsKnown(c, Some(h))
    ensures TilePlaced(c, h)
  {
    hide ValidateTile, Started;
    if c.nav.manifest.Some? && SameImage(c.nav.manifest.value, h.imageId, h.imageVersion) {
      CurrentManifestIsUsed(c.nav);
    }
  }

  lemma OrdinaryKeepsFlight(s: System, e: Event)
    requires Sound(s) && Kinds(s) && AllPlaced(s) && Ordinary(e) && Enabled(s.c, e)
    ensures var u := After(s, ClientActs(e)); u.c.pipe.epoch >= 0 && FlightPlaced(u.c, u.flight)
  {
    hide Sound, Kinds, Step, Enabled, NextOutline, OutlineOf, TilePlaced, EntriesPlaced;
    var u := After(s, ClientActs(e));
    InvOf(s);
    StepSameFlight(s.c, e);
    StepRefinesOutline(s.c, e);
    BeginsSince(s.c, e, u.c);
    forall j | j in u.flight && j in u.c.pipe.pending ensures TilePlaced(u.c, u.flight[j].header) {
      InFlightIsOld(s, j);
      TileStaysPlaced(s.c, e, u.c, s.flight[j].header);
    }
  }

  lemma InvOf(s: System)
    requires Sound(s)
    ensures Fresh(s.c) && Knows(s.c.nav) && OwnPending(s.c.pipe)
  {
  }

  lemma OnlyKnownTilesArePosted(c: Client, tile: Option<Header>)
    ensures OnBinary(c, tile).pipe.posted != c.pipe.posted ==> c.nav.welcome.Some? && TileIsKnown(c, tile)
  {
    hide OnTile, TileIsKnown;
  }

  lemma TileKeepsFlight(s: System, h: Header)
    requires Sound(s) && Kinds(s) && AllPlaced(s) && s.c.pipe.link.Open? && IsTileHeader(h)
    ensures var u := After(s, ClientActs(TileArrives(Some(h)))); u.c.pipe.epoch >= 0 && FlightPlaced(u.c, u.flight)
  {
    hide Kinds, NextOutline, OutlineOf, TilePlaced, EntriesPlaced, OnBinary, IsTileHeader, Inv, Tracks, Books, W.Inv,
      Payloads, TileIsKnown, Matches;
    var e := TileArrives(Some(h));
    var u := After(s, ClientActs(e));
    InvOf(s);
    TileStep(s, h);
    StepRefinesOutline(s.c, e);
    BeginsSince(s.c, e, u.c);
    OnlyKnownTilesArePosted(s.c, Some(h));
    if u.c.pipe.posted != s.c.pipe.posted {
      ArrivedIsPlaced(s.c, h);
      TileStaysPlaced(s.c, e, u.c, h);
    }
    forall j | j in u.flight && j in u.c.pipe.pending ensures TilePlaced(u.c, u.flight[j].header) {
      if j in s.flight && u.flight[j] == s.flight[j] && j in s.c.pipe.pending {
        InFlightIsOld(s, j);
        TileStaysPlaced(s.c, e, u.c, s.flight[j].header);
      }
    }
  }

  lemma NoTileKeepsFlight(s: System)
    requires Sound(s) && Kinds(s) && AllPlaced(s) && s.c.pipe.link.Open?
    ensures var u := After(s, ClientActs(TileArrives(None))); u.c.pipe.epoch >= 0 && FlightPlaced(u.c, u.flight)
  {
    hide Sound, Kinds, TilePlaced, EntriesPlaced, NextOutline, OutlineOf, IsTileHeader;
    var e := TileArrives(None);
    var u := After(s, ClientActs(e));
    InvOf(s);
    StepRefinesOutline(s.c, e);
    BeginsSince(s.c, e, u.c);
    forall j | j in u.flight && j in u.c.pipe.pending ensures TilePlaced(u.c, u.flight[j].header) {
      InFlightIsOld(s, j);
      TileStaysPlaced(s.c, e, u.c, s.flight[j].header);
    }
  }

  lemma ConnectionKeepsFlight(s: System, e: Event)
    requires AllPlaced(s) && StartsOver(e) && Enabled(s.c, e)
    ensures var u := After(s, ClientActs(e)); u.c.pipe.epoch >= 0 && FlightPlaced(u.c, u.flight)
  {
    hide Connect, OnClose, EntriesPlaced;
    if e.Connects? { ConnectPosts(s.c); } else { ClosePosts(s.c, e.reason); }
  }

  // ----- a bitmap is stored -----

  /** A tile the compositor takes has its place in the image it shows. */
  lemma TakenIsPlaced(c: Client, k: Compositor, t: W.Task)
    requires Fresh(c) && Knows(c.nav) && c.pipe.canvas == Some(k) && Clients.Current(c, t)
    requires TilePlaced(c, t.header) && Accepts(k, t.header)
    ensures HasPlace(k.manifest.value, t.header)
  {
    hide Columns, Rows, Span, IsPyramid;
    assert Accepted(c.nav.history[|c.nav.history| - 1]);
  }

  lemma AcceptedHasLevels(m: Manifest)
    requires Accepted(m)
    ensures m.levels != [] && m.tileSize > 0
  {
  }

  /** It fits that image exactly when it is a fine one, or has the size that level 0 has there. */
  lemma TakenFitsIff(c: Client, k: Compositor, t: W.Task)
    requires Fresh(c) && Knows(c.nav) && c.pipe.canvas == Some(k) && Clients.Current(c, t)
    requires TilePlaced(c, t.header) && Accepts(k, t.header)
    ensures var h, m := t.header, k.manifest.value;
            m.levels != [] &&
            (Pyramid.Fits(m, h) <==>
               h.z != 0 || (h.x == 0 && h.y == 0 && h.w == m.levels[0].width && h.h == m.levels[0].height))
  {
    hide ValidateTile, ParseManifest;
    TakenIsPlaced(c, k, t);
    assert Accepted(c.nav.history[|c.nav.history| - 1]);
    AcceptedHasLevels(k.manifest.value);
    if t.header.z == 0 { LevelZeroIsOneTile(k.manifest.value, t.header); }
  }

  lemma HeardKeepsPlaced(s: System)
    requires Sound(s) && Kinds(s) && AllPlaced(s) && s.heard < |s.w.posted|
    ensures AllPlaced(After(s, AnswerHeard))
  {
    hide Sound, OnWorker, AllAre, HasPlace, TilePlaced, Fresh, Knows, NextOutline, OutlineOf, IsTileHeader, Accepts,
      Current;
    var r := s.w.posted[s.heard];
    var e := WorkerAnswers(r);
    var u := After(s, AnswerHeard);
    InvOf(s);
    WorkerTakes(s.c, r);
    AnswerOutline(s.c, r);
    if Started(s.c.pipe) {
      var q := Placed(s.c.pipe.canvas.value.manifest.value);
      forall x | Adds(s.c, r, x) ensures q(x) {
        HeardIsInFlight(s);
        TakenIsPlaced(s.c, s.c.pipe.canvas.value, r.task);
      }
      WorkerKeepsAll(q, s.c, r);
    }
    forall j | j in u.flight && j in u.c.pipe.pending ensures TilePlaced(u.c, u.flight[j].header) {
      AnswerStaysPlaced(s.c, r, s.flight[j].header);
    }
  }

  lemma AnswerOutline(c: Client, r: W.Response)
    ensures EaselOf(OnWorker(c, r).pipe) == EaselOf(c.pipe) && OnWorker(c, r).nav == c.nav
    ensures OnWorker(c, r).pipe.epoch == c.pipe.epoch
    ensures Started(OnWorker(c, r).pipe) ==>
              Started(c.pipe) && OnWorker(c, r).pipe.canvas.value.manifest == c.pipe.canvas.value.manifest
  {
    hide OnWorker;
    WorkerOutline(c, r);
    WorkerSameNav(c, r);
  }

  lemma AnswerStaysPlaced(c: Client, r: W.Response, h: Header)
    requires TilePlaced(c, h)
    ensures TilePlaced(OnWorker(c, r), h)
  {
    hide OnWorker, ValidateTile, IsTileHeader;
    AnswerOutline(c, r);
  }

  // ----- the system -----

  lemma ActKeepsPlaced(s: System, e: Event)
    requires Sound(s) && Kinds(s) && AllPlaced(s) && Enabled(s.c, e) && !e.WorkerAnswers?
    ensures AllPlaced(After(s, ClientActs(e)))
  {
    hide Sound, Kinds, Step, EntriesPlaced, FlightPlaced;
    InvOf(s);
    StepKeepsEntriesPlaced(s.c, e);
    if Ordinary(e) {
      OrdinaryKeepsFlight(s, e);
    } else if e.TileArrives? {
      if e.tile.Some? { TileKeepsFlight(s, e.tile.value); } else { NoTileKeepsFlight(s); }
    } else {
      ConnectionKeepsFlight(s, e);
    }
  }

  lemma NextKeepsPlaced(s: System, e: SystemEvent, u: System)
    requires Sound(s) && Kinds(s) && AllPlaced(s) && Follows(s, e, u)
    ensures AllPlaced(u)
  {
    hide Sound, Kinds, EntriesPlaced, FlightPlaced, Step, OnWorker;
    match e
    case ClientActs(x) => ActKeepsPlaced(s, x);
    case AnswerHeard => HeardKeepsPlaced(s);
    case _ => SamePlaced(s, u);
  }

  lemma SamePlaced(s: System, u: System)
    requires AllPlaced(s) && u.c == s.c && u.flight == s.flight
    ensures AllPlaced(u)
  {
  }

  lemma {:induction false} SystemKeepsPlaced(s: System, run: seq<SystemMove>)
    requires Sound(s) && Kinds(s) && AllPlaced(s) && SystemRun(s, run)
    ensures AllPlaced(SystemEnd(s, run))
    decreases |run|
  {
    hide Sound, Kinds, AllPlaced, CanHappen, After;
    if run != [] {
      NextKeepsPlaced(s, run[0].e, run[0].s);
      FollowsKeepsKinds(s, run[0].e, run[0].s);
      FollowsKeepsSound(s, run[0].e, run[0].s);
      SystemKeepsPlaced(run[0].s, run[1..]);
    }
  }

  // ----- what is painted -----

  lemma StartIsPlaced(c: Client)
    requires New(c)
    ensures AllPlaced(Initial(c))
  {
  }

  lemma Resident(s: System, i: nat)
    requires Sound(s) && AllPlaced(s) && i < |Entries(s.c.pipe)|
    ensures Started(s.c.pipe) && Accepted(s.c.pipe.canvas.value.manifest.value)
    ensures HasPlace(s.c.pipe.canvas.value.manifest.value, Entries(s.c.pipe)[i].header)
  {
    InvOf(s);
    assert Accepted(s.c.nav.history[|s.c.nav.history| - 1]);
    assert Placed(s.c.pipe.canvas.value.manifest.value)(Entries(s.c.pipe)[i]);
  }

  /**
    Every resident entry has a destination, whatever the view, so that the loop that paints never throws;
    and a fine one is a tile of the image on show, to which all that is proved of destinations applies.
  */
  lemma ResidentsAreDrawn(s: System, i: nat, image: Rect, view: Rect)
    requires Sound(s) && AllPlaced(s) && i < |Entries(s.c.pipe)| && view.width > 0.0 && view.height > 0.0
    ensures var h := Entries(s.c.pipe)[i].header;
            Started(s.c.pipe) &&
            var m := s.c.pipe.canvas.value.manifest.value;
            Accepted(m) && TileDestination(m, image, h, view).Some? && (h.z != 0 ==> Pyramid.Fits(m, h))
  {
    hide Sound, AllPlaced, ValidateTile, IsTileHeader;
    Resident(s, i);
  }

  /** Two resident tiles of one level are never drawn over the same point of the canvas. */
  lemma ResidentsDoNotOverlap(s: System, i: nat, j: nat, image: Rect, view: Rect, u: real, v: real)
    requires Sound(s) && AllPlaced(s) && i < |Entries(s.c.pipe)| && j < |Entries(s.c.pipe)| && GoodImage(image)
    requires var g, h := Entries(s.c.pipe)[i].header, Entries(s.c.pipe)[j].header;
             g.z == h.z != 0 && Started(s.c.pipe) &&
             var m := s.c.pipe.canvas.value.manifest.value;
             DrawnOver(m, image, g, view, u, v) && DrawnOver(m, image, h, view, u, v)
    ensures i == j
  {
    hide Sound, AllPlaced, DrawnOver, ValidateTile;
    var g, h := Entries(s.c.pipe)[i].header, Entries(s.c.pipe)[j].header;
    DestinationsDoNotOverlap(s.c.pipe.canvas.value.manifest.value, image, g, h, view, u, v);
    OnePlaceEach(s, i, j);
  }

  lemma OnePlaceEach(s: System, i: nat, j: nat)
    requires Sound(s) && i < |Entries(s.c.pipe)| && j < |Entries(s.c.pipe)|
    requires var g, h := Entries(s.c.pipe)[i].header, Entries(s.c.pipe)[j].header;
             g.z == h.z && g.x == h.x && g.y == h.y
    ensures i == j
  {
    var m := s.c.pipe.canvas.value.manifest.value;
    assert ClientSafety.Fits(m, s.c.pipe.epoch, Entries(s.c.pipe)[i]);
    assert ClientSafety.Fits(m, s.c.pipe.epoch, Entries(s.c.pipe)[j]);
    assert CacheKey(Entries(s.c.pipe)[i].header) == CacheKey(Entries(s.c.pipe)[j].header);
  }
}
