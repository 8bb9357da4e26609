/**
  Runs that show where a property stops: each starts from a new client and reaches a state
  in which something one might expect is not so.
*/
module ClientExamples {
  import opened Budgets
  import opened ClientBooks
  import opened ClientBudget
  import opened ClientNav
  import opened ClientRuns
  import opened ClientSafety
  import opened ClientView
  import opened Clients
  import opened Compositors
  import opened Pyramid
  import opened Results
  import L = Ledgers
  import S = ClientSystem
  import W = Workers

  // ----- what can be reached -----

  ghost predicate Reachable(d: Client) { exists c, run :: New(c) && Run(c, run) && d == End(c, run) }

  lemma {:induction false} RunsExtend(c: Client, run: seq<Move>, e: Event)
    requires Run(c, run) && Enabled(End(c, run), e)
    ensures Run(c, run + [Move(e, Step(End(c, run), e))])
    decreases |run|
  {
    hide Step, Enabled;
    var m := Move(e, Step(End(c, run), e));
    if run == [] {
      assert [m][1..] == [];
    } else {
      assert (run + [m])[1..] == run[1..] + [m];
      RunsExtend(run[0].c, run[1..], e);
    }
  }

  lemma Then(d: Client, e: Event)
    requires Reachable(d) && Enabled(d, e)
    ensures Reachable(Step(d, e))
  {
    hide Step, Enabled;
    var c, run :| New(c) && Run(c, run) && d == End(c, run);
    RunsExtend(c, run, e);
    var longer := run + [Move(e, Step(d, e))];
    assert End(c, longer) == Step(d, e);
  }

  // ----- an image of two levels, and its tiles -----

  function Image(epoch: int): Manifest { Manifest(epoch, "a", "v1", 2, 1, [Level(0, 1, 1), Level(1, 2, 1)], TILE_SIZE) }

  function Tile(id: int, epoch: int, z: int): Header { Header(id, epoch, "a", "v1", z, 0, 0, 1 + z, 1, 1, None) }

  lemma ImageIsAccepted(epoch: int)
    requires 1 <= epoch <= MAX_EPOCH
    ensures ParseManifest(Image(epoch), "a", epoch) == Ok(Image(epoch))
  {
    var m := Image(epoch);
    assert Pow2(0) == 1 && Pow2(1) == 2;
    forall i | 0 <= i < |m.levels|
      ensures m.levels[i].width == CeilDiv(m.width, Pow2(|m.levels| - 1 - i)) &&
              m.levels[i].height == CeilDiv(m.height, Pow2(|m.levels| - 1 - i))
    {
      assert i == 0 || i == 1;
    }
  }

  lemma TileFits(id: int, epoch: int, z: int, of: int)
    requires 0 <= z <= 1
    ensures ValidateTile(Tile(id, epoch, z), Image(of)).Ok?
  {
  }

  // ----- from a new client to an image on show -----

  const START := Client(
    Nav(None, None, [], None, None, false, false, false, None, None, false, false),
    Pipe(Idle, 0, 0, map[], EMPTY_BUDGET, L.EMPTY_LEDGER, None, 0, 0, 0, 0, 0, 0, [],
         Log(0, multiset{}, [], multiset{}, multiset{}, 0, 0)),
    Disconnected)

  /** An open connection with nothing on its books. */
  ghost predicate Clean(p: Pipe) {
    p.link.Open? && p.connectionId == 1 && p.pending == map[] &&
    p.budget == EMPTY_BUDGET && p.ledger == L.EMPTY_LEDGER &&
    p.received == 0 && p.drawn == 0 && p.discarded == 0 && p.failed == 0 && p.releases == 0 && p.presentations == 0 &&
    p.log == Log(0, multiset{}, [], multiset{}, multiset{}, 0, 0)
  }

  lemma Prepared(viewport: bool, canvas: bool) returns (d: Client)
    ensures Reachable(d)
    ensures d == START.(nav := START.nav.(viewport := viewport),
                        pipe := START.pipe.(canvas := if canvas then Some(BLANK) else None))
  {
    d := START;
    assert New(d) && Run(d, []) && End(d, []) == d;
    if viewport {
      Then(d, ViewportSet(0));
      d := Step(d, ViewportSet(0));
    }
    if canvas {
      Then(d, CanvasAttached);
      d := Step(d, CanvasAttached);
    }
  }

  lemma Linked(viewport: bool, canvas: bool) returns (d: Client)
    ensures Reachable(d) && Clean(d.pipe) && d.pipe.epoch == 0
    ensures d.nav == START.nav.(viewport := viewport)
    ensures d.pipe.canvas == if canvas then Some(BLANK) else None
  {
    hide Reachable;
    d := Prepared(viewport, canvas);
    Then(d, Connects);
    d := Step(d, Connects);
    Then(d, LinkOpens);
    d := Step(d, LinkOpens);
  }

  lemma Greeted(viewport: bool, canvas: bool) returns (d: Client)
    ensures Reachable(d) && Clean(d.pipe) && d.pipe.epoch == 0
    ensures d.nav == START.nav.(welcome := Some(1000), viewport := viewport)
    ensures d.pipe.canvas == if canvas then Some(BLANK) else None
  {
    hide Reachable;
    d := Linked(viewport, canvas);
    var e := TextArrives(Welcome(LUPA_VERSION, 1000), 0);
    Then(d, e);
    d := Step(d, e);
  }

  lemma Selected(viewport: bool, canvas: bool) returns (d: Client)
    ensures Reachable(d) && Clean(d.pipe) && d.pipe.epoch == 1
    ensures d.nav == START.nav.(selected := Some("a"), welcome := Some(1000), viewport := viewport)
    ensures d.pipe.canvas == if canvas then Some(BLANK) else None
  {
    hide Reachable;
    d := Greeted(viewport, canvas);
    Then(d, ImageSelected("a"));
    var stale := StaleJobs(map[], 1, 1);
    assert map[] - stale == d.pipe.budget.reservations;
    d := Step(d, ImageSelected("a"));
  }

  lemma KnowingIs(d: Client)
    requires d.nav.history == [] && !d.nav.layout
    ensures Knowing(d, Image(1)) ==
            d.(nav := d.nav.(manifest := Some(Image(1)), history := [Image(1)], plan := None, serverDone := false,
                             layout := d.nav.viewport), phase := Opening)
  {
    assert Forget([], "a", "v1") == [];
  }

  lemma Hearing(d: Client)
    requires d.nav.selected == Some("a") && d.pipe.epoch == 1
    ensures var known := Knowing(d, Image(1));
            OnManifest(d, Image(1), 0) ==
            if d.nav.viewport then RequestView(StartCanvas(known, Image(1)), 0) else known
  {
    hide ParseManifest, Knowing, StartCanvas, RequestView;
    ImageIsAccepted(1);
  }

  lemma ManifestHeard(d: Client)
    requires Reachable(d) && d.pipe.link.Open?
    ensures Reachable(OnManifest(d, Image(1), 0))
  {
    hide Reachable, OnManifest;
    Then(d, TextArrives(ManifestIs(Image(1)), 0));
  }

  /** The MANIFEST comes before the viewport is known: the client remembers it and does no more. */
  lemma Early(canvas: bool) returns (d: Client)
    ensures Reachable(d) && Clean(d.pipe) && d.pipe.epoch == 1
    ensures d.nav == START.nav.(selected := Some("a"), welcome := Some(1000),
                                manifest := Some(Image(1)), history := [Image(1)])
    ensures d.pipe.canvas == if canvas then Some(BLANK) else None
  {
    hide Reachable, OnManifest, Knowing;
    var c := Selected(false, canvas);
    Hearing(c);
    KnowingIs(c);
    ManifestHeard(c);
    d := OnManifest(c, Image(1), 0);
  }

  /** It comes when the viewport is known and a canvas is there: the first view is asked for. */
  lemma Shown() returns (d: Client)
    ensures Reachable(d) && Clean(d.pipe) && d.pipe.epoch == 2
    ensures d.nav == START.nav.(selected := Some("a"), welcome := Some(1000),
                                manifest := Some(Image(1)), history := [Image(1)],
                                viewport := true, layout := true,
                                signature := Some(0), intent := Some(Intent(2, false)))
    ensures d.pipe.canvas == Some(Compositor(Some(Image(1)), true, true, [], 2, true))
  {
    hide Reachable, OnManifest, Knowing;
    var c := Selected(true, true);
    Hearing(c);
    KnowingIs(c);
    ManifestHeard(c);
    d := OnManifest(c, Image(1), 0);
  }

  // ----- a tile arrives and is answered -----

  function TaskOf(id: int, epoch: int, z: int): W.Task { W.Task(1, Tile(id, epoch, z)) }

  /** The pipe of an image on show, once a tile has been sent to the worker. */
  function Sent(p: Pipe, id: int, z: int): Pipe {
    var job := Job(1, id);
    var kind := if z == 0 then Context else Detail;
    p.(pending := p.pending[job := Pending(p.epoch, 4 * (1 + z), kind)],
       budget := p.budget.(reservations := p.budget.reservations[job := 4 * (1 + z)],
                           transient := p.budget.transient + 4 * (1 + z)),
       ledger := p.ledger.(active := p.ledger.active[id := L.Delivery(1, false, 0)]),
       received := p.received + 1, posted := p.posted + [W.Decode(TaskOf(id, p.epoch, z))],
       log := p.log.(registered := p.log.registered + multiset{id}))
  }

  lemma Delivered(d: Client, id: int, z: int)
    requires d.pipe.connectionId == 1 && 0 <= z <= 1 && d.nav.plan.None?
    requires id !in d.pipe.ledger.active && id !in d.pipe.ledger.released && Job(1, id) !in d.pipe.budget.reservations
    requires d.pipe.budget.context + d.pipe.budget.transient <= 1000 && d.pipe.budget.detail == 0
    ensures OnTile(d, Tile(id, d.pipe.epoch, z)) == Client(d.nav, Sent(d.pipe, id, z), Processing)
  {
    var h := Tile(id, d.pipe.epoch, z);
    assert Admitted(d, h) && DecodedBytes(h) == 4 * (1 + z);
  }

  lemma Arrives(d: Client, id: int, z: int)
    requires Reachable(d) && d.pipe.link.Open? && d.pipe.connectionId == 1 && 1 <= d.pipe.epoch <= 2
    requires d.nav.welcome == Some(1000) && d.nav.history == [Image(1)] && d.nav.plan.None?
    requires 1 <= id <= 9 && 0 <= z <= 1 && id !in d.pipe.ledger.active && id !in d.pipe.ledger.released
    requires Job(1, id) !in d.pipe.budget.reservations
    requires d.pipe.budget.context + d.pipe.budget.transient <= 1000 && d.pipe.budget.detail == 0
    ensures var u := Step(d, TileArrives(Some(Tile(id, d.pipe.epoch, z))));
            Reachable(u) && u == Client(d.nav, Sent(d.pipe, id, z), Processing)
  {
    hide OnTile, Sent, ValidateTile, Reachable;
    var h := Tile(id, d.pipe.epoch, z);
    Then(d, TileArrives(Some(h)));
    TileFits(id, d.pipe.epoch, z, 1);
    Delivered(d, id, z);
    assert Lookup(d.nav.history, "a", "v1") == Some(Image(1));
  }

  /** No canvas is attached: the bitmap is closed and its bytes stay on the budget. */
  lemma BytesCanLeak() returns (d: Client)
    ensures Reachable(d) && !Agrees(d.pipe)
  {
    hide Reachable;
    var c := Early(false);
    Arrives(c, 1, 0);
    var u := Step(c, TileArrives(Some(Tile(1, 1, 0))));
    var r := W.Decoded(TaskOf(1, 1, 0), 7);
    assert Orphans(u, r);
    Then(u, WorkerAnswers(r));
    d := Step(u, WorkerAnswers(r));
    ReachedInv(u);
    StepAgreesIff(u, WorkerAnswers(r));
  }

  lemma ReachedInv(d: Client)
    requires Reachable(d)
    ensures Inv(d)
  {
    var c, run :| New(c) && Run(c, run) && d == End(c, run);
    Reached(c, run, d);
  }

  /** A failed decode that is asked for again: failed counts it, RELEASE does not. */
  lemma ReleaseCanFallShort() returns (d: Client)
    ensures Reachable(d) && d.pipe.link.Open?
    ensures d.pipe.releases == 0 && d.pipe.drawn + d.pipe.discarded + d.pipe.failed == 1
  {
    hide Reachable;
    var c := Early(false);
    Arrives(c, 1, 0);
    var u := Step(c, TileArrives(Some(Tile(1, 1, 0))));
    var r := W.Failed(TaskOf(1, 1, 0));
    Then(u, WorkerAnswers(r));
    d := Step(u, WorkerAnswers(r));
  }

  /** A fine tile that is being decoded for the current view, when something happens to the compositor. */
  lemma FineTileInHand() returns (d: Client)
    ensures Reachable(d) && d.pipe.link.Open? && d.pipe.connectionId == 1
    ensures d.pipe.epoch == 2 && d.pipe.presentations == 0
    ensures d.pipe.pending.Keys == {JobOf(TaskOf(1, 2, 1))}
    ensures d.nav.manifest == Some(Image(1)) && d.nav.selected == Some("a") && d.nav.signature == Some(0)
    ensures d.nav.viewport && d.nav.layout && d.nav.welcome.Some? && !d.nav.serverDone && d.nav.plan.None?
    ensures d.pipe.canvas == Some(Compositor(Some(Image(1)), true, true, [], 2, true))
    ensures Accepts(d.pipe.canvas.value, Tile(1, 2, 1))
  {
    hide Reachable;
    var c := Shown();
    Arrives(c, 1, 1);
    d := Step(c, TileArrives(Some(Tile(1, 2, 1))));
  }

  ghost predicate TurnsAway(d: Client, t: W.Task) {
    d.pipe.canvas.Some? && JobOf(t) in d.pipe.pending && Current(d, t) && !Accepts(d.pipe.canvas.value, t.header)
  }

  /** A canvas attached in between: the new compositor is started, with no epoch. */
  lemma AttachingCanTurnAway() returns (d: Client)
    ensures Reachable(d) && Started(d.pipe) && TurnsAway(d, TaskOf(1, 2, 1))
  {
    hide Reachable;
    var c := FineTileInHand();
    Then(c, CanvasAttached);
    d := Step(c, CanvasAttached);
  }

  /** A MANIFEST of the current epoch in between, whose view was asked for already. */
  lemma RepeatedManifestCanTurnAway() returns (d: Client)
    ensures Reachable(d) && Started(d.pipe) && TurnsAway(d, TaskOf(1, 2, 1))
  {
    hide Reachable, ParseManifest, Remember;
    var c := FineTileInHand();
    var e := TextArrives(ManifestIs(Image(2)), 0);
    ImageIsAccepted(2);
    Then(c, e);
    RepeatedManifestForgetsTheEpoch(c, Image(2), 0);
    StepRefinesOutline(c, e);
    S.StepSameFlight(c, e);
    d := Step(c, e);
  }

  /** The viewport is set after the MANIFEST: the view is asked for, and not even a tile of level 0 is taken. */
  lemma LateViewportCanTurnAway() returns (d: Client)
    ensures Reachable(d) && d.nav.viewport && d.nav.layout && TurnsAway(d, TaskOf(1, 2, 0))
  {
    hide Reachable;
    var c := Early(true);
    Then(c, ViewportSet(1));
    var v := Step(c, ViewportSet(1));
    Arrives(v, 1, 0);
    d := Step(v, TileArrives(Some(Tile(1, 2, 0))));
  }

  /** What the answer does to a client that has just sent its first tile, of level 0. */
  lemma StoringIs(c: Client, k: Compositor)
    requires Clean(c.pipe) && c.pipe.epoch == 2 && c.nav.manifest.Some? && SameImage(c.nav.manifest.value, "a", "v1")
    requires c.pipe.canvas == Some(k) && k.manifest == c.nav.manifest && k.entries == []
    ensures var u := c.(pipe := Sent(c.pipe, 1, 0));
            var e := EntryOf(TaskOf(1, 2, 0), 7, 4, Context);
            var q := OnWorker(u, W.Decoded(TaskOf(1, 2, 0), 7)).pipe;
            q == u.pipe.(pending := map[], budget := Budget(map[], 0, 4, 0), presentations := 1,
                         canvas := Some(Store(k, e).0), log := u.pipe.log.(arrived := multiset{7}))
  {
    var u := c.(pipe := Sent(c.pipe, 1, 0));
    assert u.pipe.budget.reservations - {Job(1, 1)} == map[] && u.pipe.pending - {Job(1, 1)} == map[];
    assert Put([], EntryOf(TaskOf(1, 2, 0), 7, 4, Context)) == [EntryOf(TaskOf(1, 2, 0), 7, 4, Context)];
  }

  /** An image on show with one coarse tile stored and not yet painted. */
  lemma OneWaits() returns (d: Client)
    ensures Reachable(d) && d.pipe.link.Open? && d.pipe.connectionId == 1 && d.pipe.epoch == 2
    ensures d.nav.welcome == Some(1000) && d.nav.history == [Image(1)] && d.nav.plan.None?
    ensures d.pipe.ledger.released == [] && d.pipe.ledger.active.Keys == {1}
    ensures d.pipe.budget == Budget(map[], 0, 4, 0) && d.pipe.pending == map[] && d.pipe.presentations == 1
    ensures d.pipe.canvas.Some? && d.pipe.canvas.value.frame
  {
    hide Reachable, OnWorker;
    var c := Shown();
    Arrives(c, 1, 0);
    StoringIs(c.(phase := Processing), c.pipe.canvas.value);
    var u := Step(c, TileArrives(Some(Tile(1, 2, 0))));
    var e := WorkerAnswers(W.Decoded(TaskOf(1, 2, 0), 7));
    Then(u, e);
    WorkerSameNav(u, e.r);
    d := Step(u, e);
  }

  /** A frame that finds no drawing context is used up, and the tile goes on waiting with no other to come. */
  lemma TileCanBeForgotten() returns (d: Client)
    ensures Reachable(d) && d.pipe.presentations == 1 && d.pipe.canvas.Some? && !d.pipe.canvas.value.frame
  {
    hide Reachable;
    var c := OneWaits();
    Then(c, FrameRuns(false));
    d := Step(c, FrameRuns(false));
  }

  /** One tile waits and another is being decoded: connecting again ends in another phase than connecting. */
  lemma ConnectingCanShowProcessing() returns (d: Client)
    ensures Reachable(d) && !Connect(d).phase.Linking?
  {
    hide Reachable;
    var c := OneWaits();
    Arrives(c, 2, 1);
    d := Step(c, TileArrives(Some(Tile(2, 2, 1))));
    assert Job(1, 2) in d.pipe.pending;
    ReachedInv(d);
    ConnectingIsSaidIff(d);
  }

  lemma VersionRefused(c: Client) returns (d: Client)
    requires Reachable(c) && c.pipe.link.Open? && c.nav.welcome.Some?
    ensures Reachable(d) && d == Client(c.nav.(error := true), c.pipe, Error)
  {
    hide Reachable;
    Then(c, TextArrives(Refused(None, true), 0));
    d := Step(c, TextArrives(Refused(None, true), 0));
  }

  /** The error phase of an unsupported version is gone after the next answer of the worker. */
  lemma ErrorPhaseCanBeLost() returns (d: Client, e: Event)
    ensures Reachable(d) && d.phase.Error? && Enabled(d, e) && e.WorkerAnswers? && Step(d, e).phase.Observing?
  {
    hide Reachable;
    var c := FineTileInHand();
    d := VersionRefused(c);
    e := WorkerAnswers(W.Discarded(TaskOf(1, 2, 1)));
    assert d.pipe.pending - {Job(1, 1)} == map[];
  }

  /** Another pyramid under the same name and version. */
  const OTHER := Manifest(2, "a", "v1", 2, 1, [Level(0, 2, 1)], TILE_SIZE)

  lemma OtherIsAccepted()
    ensures ParseManifest(OTHER, "a", 2) == Ok(OTHER)
  {
    assert Pow2(0) == 1;
  }

  /** What a repeated MANIFEST with other levels does to an image on show whose view was asked for already. */
  lemma OtherHeard(c: Client)
    requires c.nav.selected == Some("a") && c.nav.history == [Image(1)] && c.nav.viewport && c.nav.signature == Some(0)
    requires c.pipe.epoch == 2 && c.pipe.canvas == Some(Compositor(Some(Image(1)), true, true, [], 2, true))
    ensures OnManifest(c, OTHER, 0) ==
            Client(c.nav.(manifest := Some(OTHER), history := [OTHER], plan := None, serverDone := false,
                          layout := true),
                   c.pipe.(canvas := Some(Compositor(Some(OTHER), true, true, [], 0, true))), Opening)
  {
    hide ParseManifest;
    OtherIsAccepted();
    assert Forget([Image(1)], "a", "v1") == [] by { assert SameImage(Image(1), "a", "v1"); }
  }

  /** A tile of level 0 that came under one MANIFEST is stored under another, whose level 0 has another size. */
  lemma CoarseTileCanMisfit() returns (d: Client)
    ensures Reachable(d) && d.pipe.canvas.Some? && d.pipe.canvas.value.manifest == Some(OTHER)
    ensures |Entries(d.pipe)| == 1 && ValidateTile(Entries(d.pipe)[0].header, OTHER).Err?
  {
    hide Reachable, OnWorker, OnManifest;
    var c := Shown();
    Arrives(c, 1, 0);
    var u := Step(c, TileArrives(Some(Tile(1, 2, 0))));
    var heard := TextArrives(ManifestIs(OTHER), 0);
    Then(u, heard);
    OtherHeard(u);
    var v := Step(u, heard);
    OtherHeard(c);
    var e := WorkerAnswers(W.Decoded(TaskOf(1, 2, 0), 7));
    StoringIs(OnManifest(c, OTHER, 0), Compositor(Some(OTHER), true, true, [], 0, true));
    Then(v, e);
    d := Step(v, e);
    assert Put([], EntryOf(TaskOf(1, 2, 0), 7, 4, Context)) == [EntryOf(TaskOf(1, 2, 0), 7, 4, Context)];
  }
}
