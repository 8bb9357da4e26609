/**
  What the callbacks do to the entries that stay in the compositor: nothing but paint them. Stated for
  any property of an entry that painting does not change.
*/
module ClientEntries {
  import opened Budgets
  import opened ClientBooks
  import opened ClientNav
  import opened ClientRuns
  import opened ClientSystem
  import opened Clients
  import opened Compositors
  import opened Pyramid
  import opened Results
  import W = Workers

  ghost predicate AllAre(q: Entry -> bool, entries: seq<Entry>) {
    forall i | 0 <= i < |entries| :: q(entries[i])
  }

  ghost predicate Lasting(q: Entry -> bool) { forall e {:trigger Present(e)} :: q(e) ==> q(Present(e)) }

  // ----- callbacks that store nothing -----

  lemma CoarseKeepsAll(q: Entry -> bool, entries: seq<Entry>)
    requires AllAre(q, entries)
    ensures AllAre(q, Coarse(entries))
    ensures forall i | 0 <= i < |Coarse(entries)| :: Coarse(entries)[i].header.z == 0
  {
    LevelsOf(entries);
    var kept := Coarse(entries);
    forall i | 0 <= i < |kept| ensures kept[i].header.z == 0 && q(kept[i]) {
      assert kept[i] in kept;
      assert kept[i] in entries;
    }
  }

  lemma StartKeepsAll(q: Entry -> bool, c: Client, m: Manifest)
    ensures AllAre(q, Entries(StartCanvas(c, m).pipe))
  {
    if c.pipe.canvas.Some? {
      var (k, gone) := StartImage(c.pipe.canvas.value, m);
      DropAllChangesLittle(OnCanvas(c, k), gone);
    }
  }

  lemma RequestKeepsAll(q: Entry -> bool, c: Client, signature: int)
    requires AllAre(q, Entries(c.pipe))
    ensures AllAre(q, Entries(RequestView(c, signature).pipe))
  {
    hide AllAre;
    if c.pipe.canvas.Some? {
      var (k, gone) := BeginEpoch(c.pipe.canvas.value, c.pipe.epoch + 1);
      CoarseKeepsAll(q, c.pipe.canvas.value.entries);
      DropAllChangesLittle(OnCanvas(Asking(c, signature), k), gone);
    }
  }

  lemma OpenKeepsAll(q: Entry -> bool, c: Client)
    ensures c.nav.selected.Some? && c.pipe.epoch < MAX_EPOCH ==> AllAre(q, Entries(OpenSelected(c).pipe))
    ensures AllAre(q, Entries(c.pipe)) ==> AllAre(q, Entries(OpenSelected(c).pipe))
  {
    ResetEmpties(Leaving(c));
  }

  lemma ManifestKeepsAll(q: Entry -> bool, c: Client, m: Manifest, signature: int)
    ensures Hears(FrontOf(c), m) && c.nav.viewport ==> AllAre(q, Entries(OnManifest(c, m, signature).pipe))
    ensures AllAre(q, Entries(c.pipe)) ==> AllAre(q, Entries(OnManifest(c, m, signature).pipe))
  {
    hide AllAre;
    if Hears(FrontOf(c), m) && c.nav.viewport {
      ParsedIsAccepted(m, c.nav.selected.value, c.pipe.epoch);
      StartKeepsAll(q, Knowing(c, m), m);
      RequestKeepsAll(q, StartCanvas(Knowing(c, m), m), signature);
    }
  }

  lemma TextKeepsAll(q: Entry -> bool, c: Client, control: Control, signature: int)
    requires AllAre(q, Entries(c.pipe))
    ensures AllAre(q, Entries(OnText(c, control, signature).pipe))
  {
    hide AllAre, OnManifest, OpenSelected;
    match control
    case Welcome(_, maxTileBytes) => OpenKeepsAll(q, c.(nav := c.nav.(welcome := Some(maxTileBytes)), phase := Ready));
    case ManifestIs(m) => ManifestKeepsAll(q, c, m, signature);
    case _ =>
  }

  lemma FrameKeepsAll(q: Entry -> bool, c: Client, context: bool)
    requires AllAre(q, Entries(c.pipe)) && Lasting(q)
    ensures AllAre(q, Entries(OnFrame(c, context).pipe))
  {
    if c.pipe.canvas.Some? {
      var (k, shown) := Paint(c.pipe.canvas.value, context);
      ShowAllChangesLittle(OnCanvas(c, k), shown);
    }
  }

  lemma AttachKeepsAll(q: Entry -> bool, c: Client)
    ensures AllAre(q, Entries(AttachCanvas(c).pipe))
  {
    if c.nav.manifest.Some? { StartKeepsAll(q, OnCanvas(ResetCanvas(c), BLANK), c.nav.manifest.value); }
  }

  lemma ViewportKeepsAll(q: Entry -> bool, c: Client, signature: int)
    requires AllAre(q, Entries(c.pipe))
    ensures AllAre(q, Entries(SetViewport(c, signature).pipe))
  {
    RequestKeepsAll(q, Fitted(c.(nav := c.nav.(viewport := true))), signature);
  }

  lemma SelectKeepsAll(q: Entry -> bool, c: Client, e: Event)
    requires e.ImageSelected? || e.ImageRetried?
    ensures Opens(FrontOf(c), e) || AllAre(q, Entries(c.pipe)) ==> AllAre(q, Entries(Step(c, e).pipe))
  {
    hide AllAre, OpenSelected;
    if e.ImageSelected? {
      OpenKeepsAll(q, c.(nav := c.nav.(selected := Some(e.imageId))));
    } else {
      OpenKeepsAll(q, c);
    }
  }

  /** Entries are neither changed nor added but by a painted frame and a stored bitmap. */
  lemma OrdinaryKeepsAll(q: Entry -> bool, c: Client, e: Event)
    requires AllAre(q, Entries(c.pipe)) && Lasting(q) && Ordinary(e) && Enabled(c, e)
    ensures AllAre(q, Entries(Step(c, e).pipe))
  {
    hide AllAre, OnText, OnFrame, AttachCanvas, SetViewport, RequestView;
    match e
    case TextArrives(control, signature) => TextKeepsAll(q, c, control, signature);
    case FrameRuns(context) => FrameKeepsAll(q, c, context);
    case CanvasAttached => AttachKeepsAll(q, c);
    case ImageSelected(_) => SelectKeepsAll(q, c, e);
    case ImageRetried => SelectKeepsAll(q, c, e);
    case ViewportSet(signature) => ViewportKeepsAll(q, c, signature);
    case ModeSet(focus, signature) => RequestKeepsAll(q, Focused(c, focus), signature);
    case ViewRequested(signature) => RequestKeepsAll(q, c, signature);
    case _ =>
  }

  lemma ConnectEmpties(c: Client)
    ensures Entries(Connect(c).pipe) == [] && Connect(c).pipe.pending == map[]
  {
    hide Renewed, ResetCanvas;
    ResetEmpties(Renewed(c));
  }

  /** A compositor that is started, or cleared, holds nothing of before: whatever is asked of its entries is so. */
  lemma RestartKeepsAll(q: Entry -> bool, c: Client, e: Event)
    requires Enabled(c, e) && OwnPending(c.pipe) && (Starts(FrontOf(c), e) || Clears(FrontOf(c), e))
    ensures AllAre(q, Entries(Step(c, e).pipe))
  {
    hide OnManifest, OpenSelected, Connect, OnClose, AttachCanvas, ParseManifest;
    match e
    case Connects => ConnectEmpties(c);
    case LinkCloses(reason) => CloseEmpties(c, reason);
    case CanvasAttached => AttachKeepsAll(q, c);
    case TextArrives(ManifestIs(m), signature) => ManifestKeepsAll(q, c, m, signature);
    case TextArrives(Welcome(_, maxTileBytes), _) =>
      OpenKeepsAll(q, c.(nav := c.nav.(welcome := Some(maxTileBytes)), phase := Ready));
    case _ => SelectKeepsAll(q, c, e);
  }

  // ----- tiles and answers -----

  lemma TileKeepsEntries(c: Client, tile: Option<Header>)
    ensures Entries(OnBinary(c, tile).pipe) == Entries(c.pipe)
  {
    hide ValidateTile, Lookup, Reserve, Classify, DecodedBytes;
  }

  lemma StoreKeepsAll(q: Entry -> bool, c: Client, k: Compositor, e: Entry)
    requires AllAre(q, k.entries) && c.pipe.canvas == Some(k) && (Accepts(k, e.header) ==> q(e))
    ensures AllAre(q, Entries(StoreOnCanvas(c, k, e).pipe))
  {
    var (k', gone, accepted) := Store(k, e);
    if accepted {
      PutMembers(k.entries, e);
      forall i | 0 <= i < |k'.entries| ensures q(k'.entries[i]) {
        assert k'.entries[i] in k'.entries;
      }
      DropAllChangesLittle(OnCanvas(Showing(c), k'), gone);
    }
  }

  /** The entry an answer may add: of a current tile that the compositor takes, for a job that was pending. */
  ghost predicate Adds(c: Client, r: W.Response, e: Entry) {
    r.Decoded? && JobOf(r.task) in c.pipe.pending && Clients.Current(c, r.task) &&
    c.pipe.canvas.Some? && Accepts(c.pipe.canvas.value, r.task.header) &&
    e.header == r.task.header && e.kind == c.pipe.pending[JobOf(r.task)].kind
  }

  lemma WorkerKeepsAll(q: Entry -> bool, c: Client, r: W.Response)
    requires AllAre(q, Entries(c.pipe)) && forall e | Adds(c, r, e) :: q(e)
    ensures AllAre(q, Entries(OnWorker(c, r).pipe))
  {
    hide AllAre;
    var job := JobOf(r.task);
    var p := Arrive(c.pipe, r);
    if job in p.pending && r.Decoded? {
      var d := c.(pipe := Taken(p, job));
      var t, kind := r.task, p.pending[job].kind;
      var (budget, bytes) := Commit(d.pipe.budget, job, kind);
      if Clients.Current(d, t) && bytes.Some? && d.pipe.canvas.Some? {
        var e := EntryOf(t, r.bitmap, bytes.value, kind);
        assert Accepts(d.pipe.canvas.value, e.header) ==> Adds(c, r, e);
        StoreKeepsAll(q, d.(pipe := d.pipe.(budget := budget)), d.pipe.canvas.value, e);
      }
    }
  }
}
