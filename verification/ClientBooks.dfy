/**
  The client's books: every active delivery is in exactly one place, every tile
  received is accounted for, and every presentation pending is an entry waiting.

  Each predicate takes the entries whose callbacks are still owed and the
  delivery a callback holds in its hands, so that it also holds in the middle of
  a callback.
*/
module ClientBooks {
  import opened Arithmetic
  import opened Budgets
  import opened Clients
  import opened Compositors
  import opened Pyramid
  import opened Results
  import L = Ledgers
  import W = Workers

  function Entries(p: Pipe): seq<Entry> { if p.canvas.Some? then p.canvas.value.entries else [] }

  function One(b: bool): int { if b then 1 else 0 }

  /** A delivery is active exactly when it is in one of these places, and it is in no more than one. */
  ghost predicate Credit(p: Pipe, owed: seq<Entry>, held: Option<int>, id: int) {
    var active := p.ledger.active;
    (id in active ==> active[id].connectionId == p.connectionId) &&
    One(id in active) ==
      One(Job(p.connectionId, id) in p.pending) + Sum(WaitingFor(id), Entries(p)) + Sum(WaitingFor(id), owed)
      + One(id in active && active[id].retryExpected) + One(held == Some(id)) &&
    p.log.registered[id] == multiset(p.log.acked)[id] + One(id in active)
  }

  ghost predicate Presentations(p: Pipe, owed: seq<Entry>) {
    p.presentations == Sum(Waiting, Entries(p)) + Sum(Waiting, owed)
  }

  /** The accounting of tiles, and every terminal outcome told to the server once, as an ACK or as a retry. */
  ghost predicate Account(p: Pipe, held: Option<int>) {
    p.received == p.drawn + p.discarded + p.failed + |p.pending| + p.presentations + One(held.Some?) &&
    p.releases + p.log.retries == p.drawn + p.discarded + p.failed
  }

  ghost predicate OwnEntries(connectionId: int, entries: seq<Entry>) {
    forall i | 0 <= i < |entries| :: entries[i].connectionId == connectionId
  }

  ghost predicate OwnPending(p: Pipe) {
    forall job | job in p.pending :: job.connectionId == p.connectionId
  }

  /** A connection that has just been asked for. */
  ghost predicate Quiet(p: Pipe) {
    p.pending == map[] && Entries(p) == [] && p.ledger == L.EMPTY_LEDGER && p.presentations == 0 &&
    p.received == 0 && p.drawn == 0 && p.discarded == 0 && p.failed == 0 && p.releases == 0 &&
    p.log.retries == 0 && p.log.registered == multiset{} && p.log.acked == []
  }

  ghost predicate Credits(p: Pipe, owed: seq<Entry>, held: Option<int>) { forall id :: Credit(p, owed, held, id) }

  /** Terminal ACKs of one delivery are far apart, and the ledger of an open link remembers the newest of them. */
  ghost predicate Spaced(p: Pipe) {
    L.Apart(p.log.acked) && (p.link.Open? ==> L.HistoryOk(p.ledger, p.log.acked))
  }

  ghost predicate Books(p: Pipe, owed: seq<Entry>, held: Option<int>) {
    OwnPending(p) && OwnEntries(p.connectionId, Entries(p)) && OwnEntries(p.connectionId, owed) &&
    Presentations(p, owed) && Spaced(p) &&
    (p.link.Open? ==> Credits(p, owed, held) && Account(p, held)) &&
    (p.link.Connecting? ==> Quiet(p) && owed == [] && held == None)
  }

  lemma SumHead(q: Measure, entries: seq<Entry>)
    requires entries != []
    ensures Sum(q, entries) == Weight(q, entries[0]) + Sum(q, entries[1..])
  {
    assert entries == [entries[0]] + entries[1..];
    SumConcat(q, [entries[0]], entries[1..]);
    SumPush(q, [], entries[0]);
    assert [] + [entries[0]] == [entries[0]];
  }

  // ----- one entry leaves or is shown -----

  lemma HeadWaits(p: Pipe, owed: seq<Entry>, q: Measure)
    requires owed != [] && (q.Waiting? || q.WaitingFor?)
    ensures Sum(q, owed) == Weight(q, owed[0]) + Sum(q, owed[1..])
    ensures Sum(q, owed[1..]) >= 0 && Sum(q, Entries(p)) >= 0
  {
    SumHead(q, owed);
    SumNotNegative(q, owed[1..]);
    SumNotNegative(q, Entries(p));
  }

  /** What a release does to the ledger and the log, seen from one delivery. */
  lemma ReleaseTells(p: Pipe, x: int, id: int)
    requires p.link.Open?
    ensures var q := Release(p, x, p.connectionId);
            var told := x in p.ledger.active && p.ledger.active[x].connectionId == p.connectionId;
            q.ledger.active == (if told then p.ledger.active - {x} else p.ledger.active) &&
            multiset(q.log.acked)[id] == multiset(p.log.acked)[id] + One(told && id == x) &&
            q.log.registered == p.log.registered && q.connectionId == p.connectionId &&
            q.pending == p.pending && q.canvas == p.canvas
  {
  }

  lemma LeaveKeepsCredit(p: Pipe, owed: seq<Entry>, id: int)
    requires owed != [] && owed[0].connectionId == p.connectionId && p.link.Open?
    requires Credit(p, owed, None, id)
    ensures Credit(Leave(p, owed[0]), owed[1..], None, id)
  {
    hide Release, RemoveStored;
    HeadWaits(p, owed, WaitingFor(id));
    var counted := p.(presentations := Max(0, p.presentations - 1), discarded := p.discarded + 1);
    ReleaseTells(counted, owed[0].header.deliveryId, id);
  }

  lemma PresentedKeepsCredit(p: Pipe, owed: seq<Entry>, id: int)
    requires owed != [] && owed[0].connectionId == p.connectionId && p.link.Open? && !owed[0].presented
    requires Credit(p, owed, None, id)
    ensures Credit(Presented(p, owed[0]), owed[1..], None, id)
  {
    hide Release;
    HeadWaits(p, owed, WaitingFor(id));
    var counted := p.(presentations := Max(0, p.presentations - 1), drawn := p.drawn + 1);
    ReleaseTells(counted, owed[0].header.deliveryId, id);
  }

  lemma LeaveKeepsPresentations(p: Pipe, owed: seq<Entry>)
    requires owed != [] && Presentations(p, owed)
    ensures Presentations(Leave(p, owed[0]), owed[1..])
  {
    HeadWaits(p, owed, Waiting);
  }

  lemma PresentedKeepsPresentations(p: Pipe, owed: seq<Entry>)
    requires owed != [] && Presentations(p, owed) && !owed[0].presented
    ensures Presentations(Presented(p, owed[0]), owed[1..])
  {
    HeadWaits(p, owed, Waiting);
  }

  lemma LeaveKeepsAccount(p: Pipe, owed: seq<Entry>)
    requires owed != [] && owed[0].connectionId == p.connectionId && p.link.Open?
    requires Credit(p, owed, None, owed[0].header.deliveryId) && Presentations(p, owed) && Account(p, None)
    ensures Account(Leave(p, owed[0]), None)
  {
    HeadWaits(p, owed, WaitingFor(owed[0].header.deliveryId));
    HeadWaits(p, owed, Waiting);
  }

  lemma PresentedKeepsAccount(p: Pipe, owed: seq<Entry>)
    requires owed != [] && owed[0].connectionId == p.connectionId && p.link.Open? && !owed[0].presented
    requires Credit(p, owed, None, owed[0].header.deliveryId) && Presentations(p, owed) && Account(p, None)
    ensures Account(Presented(p, owed[0]), None)
  {
    HeadWaits(p, owed, WaitingFor(owed[0].header.deliveryId));
    HeadWaits(p, owed, Waiting);
  }

  /** What the callbacks of an entry leave as it is. */
  ghost predicate SameButTold(p: Pipe, q: Pipe) {
    q.link == p.link && q.connectionId == p.connectionId && q.epoch == p.epoch && q.pending == p.pending &&
    q.canvas == p.canvas && q.posted == p.posted && q.received == p.received
  }

  lemma ReleaseKeepsSpaced(p: Pipe, id: int, connectionId: int)
    requires Spaced(p)
    ensures Spaced(Release(p, id, connectionId))
  {
    var (_, sent) := L.ReleaseOnce(p.ledger, id, connectionId);
    if connectionId == p.connectionId && p.link.Open? && sent {
      L.ReleaseKeepsHistory(p.ledger, p.log.acked, id, connectionId);
    }
  }

  /** Only the link, the ledger and the ACKs matter for it. */
  lemma SpacedDependsOn(p: Pipe, q: Pipe)
    requires Spaced(p) && q.link == p.link && q.ledger == p.ledger && q.log.acked == p.log.acked
    ensures Spaced(q)
  {
  }

  lemma LeaveKeepsSpaced(p: Pipe, e: Entry)
    requires Spaced(p)
    ensures Spaced(Leave(p, e)) && Spaced(Presented(p, e))
  {
    hide Spaced, Release;
    var counted := p.(presentations := Max(0, p.presentations - 1));
    var discarded, drawn := counted.(discarded := p.discarded + 1), counted.(drawn := p.drawn + 1);
    SpacedDependsOn(p, discarded);
    SpacedDependsOn(p, drawn);
    ReleaseKeepsSpaced(discarded, e.header.deliveryId, e.connectionId);
    ReleaseKeepsSpaced(drawn, e.header.deliveryId, e.connectionId);
    SpacedDependsOn(if e.presented then p else Unwanted(p, e), Leave(p, e));
  }

  lemma LeaveTellsOnly(p: Pipe, e: Entry)
    ensures SameButTold(p, Leave(p, e)) && SameButTold(p, Presented(p, e))
  {
  }

  lemma LeaveKeepsBooks(p: Pipe, owed: seq<Entry>)
    requires owed != [] && Books(p, owed, None)
    ensures Books(Leave(p, owed[0]), owed[1..], None) && SameButTold(p, Leave(p, owed[0]))
  {
    hide Spaced, Credit, Leave;
    LeaveTellsOnly(p, owed[0]);
    LeaveKeepsSpaced(p, owed[0]);
    LeaveKeepsPresentations(p, owed);
    if p.link.Open? {
      LeaveKeepsAccount(p, owed);
      forall id ensures Credit(Leave(p, owed[0]), owed[1..], None, id) {
        assert Credit(p, owed, None, id);
        LeaveKeepsCredit(p, owed, id);
      }
    }
  }

  lemma PresentedKeepsBooks(p: Pipe, owed: seq<Entry>)
    requires owed != [] && Books(p, owed, None) && !owed[0].presented
    ensures Books(Presented(p, owed[0]), owed[1..], None) && SameButTold(p, Presented(p, owed[0]))
  {
    hide Spaced, Credit, Presented;
    LeaveTellsOnly(p, owed[0]);
    LeaveKeepsSpaced(p, owed[0]);
    PresentedKeepsPresentations(p, owed);
    if p.link.Open? {
      PresentedKeepsAccount(p, owed);
      forall id ensures Credit(Presented(p, owed[0]), owed[1..], None, id) {
        assert Credit(p, owed, None, id);
        PresentedKeepsCredit(p, owed, id);
      }
    }
  }

  /** The clamp in the callbacks never binds: something waits whenever one of them runs. */
  lemma PresentationsClampNeverBinds(p: Pipe, owed: seq<Entry>)
    requires owed != [] && Presentations(p, owed) && !owed[0].presented
    ensures p.presentations - 1 >= 0
  {
    HeadWaits(p, owed, Waiting);
  }

  lemma {:induction false} DropAllKeepsBooks(c: Client, owed: seq<Entry>)
    requires Books(c.pipe, owed, None)
    ensures Books(DropAll(c, owed).pipe, [], None)
    decreases |owed|
  {
    if owed != [] {
      LeaveKeepsBooks(c.pipe, owed);
      DropAllKeepsBooks(Drop(c, owed[0]), owed[1..]);
    }
  }

  lemma {:induction false} DropAllChangesLittle(c: Client, owed: seq<Entry>)
    ensures DropAll(c, owed).nav == c.nav && SameButTold(c.pipe, DropAll(c, owed).pipe)
    decreases |owed|
  {
    if owed != [] {
      DropAllChangesLittle(Drop(c, owed[0]), owed[1..]);
    }
  }

  ghost predicate AllWait(owed: seq<Entry>) { forall i | 0 <= i < |owed| :: !owed[i].presented }

  lemma {:induction false} ShowAllKeepsBooks(c: Client, owed: seq<Entry>)
    requires Books(c.pipe, owed, None) && AllWait(owed)
    ensures Books(ShowAll(c, owed).pipe, [], None)
    decreases |owed|
  {
    if owed != [] {
      PresentedKeepsBooks(c.pipe, owed);
      ShowAllKeepsBooks(UpdatePhase(c.(pipe := Presented(c.pipe, owed[0]))), owed[1..]);
    }
  }

  lemma {:induction false} ShowAllChangesLittle(c: Client, owed: seq<Entry>)
    ensures ShowAll(c, owed).nav == c.nav && SameButTold(c.pipe, ShowAll(c, owed).pipe)
    decreases |owed|
  {
    if owed != [] {
      ShowAllChangesLittle(UpdatePhase(c.(pipe := Presented(c.pipe, owed[0]))), owed[1..]);
    }
  }

  // ----- the entries of the compositor move -----

  /** Nothing is lost between what was there, what is there and what is gone, whatever is measured. */
  ghost predicate Moves(before: seq<Entry>, after: seq<Entry>, gone: seq<Entry>) {
    (forall q :: Sum(q, after) + Sum(q, gone) == Sum(q, before)) &&
    (forall e | e in after :: e in before) && (forall e | e in gone :: e in before)
  }

  lemma EpochMoves(entries: seq<Entry>)
    ensures Moves(entries, Coarse(entries), Fine(entries))
  {
    LevelsOf(entries);
    forall q ensures Sum(q, Coarse(entries)) + Sum(q, Fine(entries)) == Sum(q, entries) { SumByLevel(q, entries); }
  }

  lemma EverythingMoves(entries: seq<Entry>)
    ensures Moves(entries, [], entries)
  {
  }

  lemma MoveKeepsCredit(p: Pipe, k: Compositor, gone: seq<Entry>, id: int)
    requires Credit(p, [], None, id) && Moves(Entries(p), k.entries, gone)
    ensures Credit(p.(canvas := Some(k)), gone, None, id)
  {
    assert Sum(WaitingFor(id), k.entries) + Sum(WaitingFor(id), gone) == Sum(WaitingFor(id), Entries(p));
  }

  lemma ComeFrom(before: seq<Entry>, after: seq<Entry>)
    requires forall e | e in after :: e in before
    ensures before == [] ==> after == []
  {
    if after != [] {
      var e := after[0];
      assert e in before;
    }
  }

  lemma MoveKeepsBooks(p: Pipe, k: Compositor, gone: seq<Entry>)
    requires Books(p, [], None) && Moves(Entries(p), k.entries, gone)
    ensures Books(p.(canvas := Some(k)), gone, None)
  {
    var q := p.(canvas := Some(k));
    assert Sum(Waiting, k.entries) + Sum(Waiting, gone) == Sum(Waiting, Entries(p));
    forall i | 0 <= i < |k.entries| ensures k.entries[i].connectionId == p.connectionId {
      assert k.entries[i] in Entries(p);
    }
    forall i | 0 <= i < |gone| ensures gone[i].connectionId == p.connectionId {
      assert gone[i] in Entries(p);
    }
    if p.link.Open? {
      forall id ensures Credit(q, gone, None, id) { MoveKeepsCredit(p, k, gone, id); }
    }
    ComeFrom(Entries(p), k.entries);
    ComeFrom(Entries(p), gone);
  }

  lemma ReplaceKeepsBooks(c: Client, k: Compositor, gone: seq<Entry>)
    requires Books(c.pipe, [], None) && Moves(Entries(c.pipe), k.entries, gone)
    ensures Books(DropAll(OnCanvas(c, k), gone).pipe, [], None)
  {
    MoveKeepsBooks(c.pipe, k, gone);
    DropAllKeepsBooks(OnCanvas(c, k), gone);
  }

  lemma ResetKeepsBooks(c: Client)
    requires Books(c.pipe, [], None)
    ensures Books(ResetCanvas(c).pipe, [], None)
  {
    if c.pipe.canvas.Some? {
      EverythingMoves(c.pipe.canvas.value.entries);
      ReplaceKeepsBooks(c, BLANK, c.pipe.canvas.value.entries);
    }
  }

  lemma StartKeepsBooks(c: Client, m: Manifest)
    requires Books(c.pipe, [], None)
    ensures Books(StartCanvas(c, m).pipe, [], None)
  {
    if c.pipe.canvas.Some? {
      EverythingMoves(c.pipe.canvas.value.entries);
      var (k, gone) := StartImage(c.pipe.canvas.value, m);
      ReplaceKeepsBooks(c, k, gone);
    }
  }

  lemma BeginKeepsBooks(c: Client, epoch: int)
    requires Books(c.pipe, [], None)
    ensures Books(BeginOnCanvas(c, epoch).pipe, [], None)
  {
    if c.pipe.canvas.Some? {
      EpochMoves(c.pipe.canvas.value.entries);
      var (k, gone) := BeginEpoch(c.pipe.canvas.value, epoch);
      ReplaceKeepsBooks(c, k, gone);
    }
  }

  // ----- a delivery in hand -----

  lemma AdmitKeepsCredit(p: Pipe, x: int, id: int)
    requires Credit(p, [], None, id)
    requires Admit(p, x).1
    ensures Credit(Admit(p, x).0, [], Some(x), id)
  {
    SumNotNegative(WaitingFor(id), Entries(p));
  }

  lemma AdmitKeepsBooks(c: Client, h: Header)
    requires Books(c.pipe, [], None) && c.pipe.link.Open? && Admitted(c, h)
    ensures Books(Received(c, h).pipe, [], Some(h.deliveryId)) && Received(c, h).pipe.link.Open?
  {
    var q := Admit(c.pipe, h.deliveryId).0;
    forall id ensures Credit(Received(c, h).pipe, [], Some(h.deliveryId), id) {
      assert Credit(c.pipe, [], None, id);
      AdmitKeepsCredit(c.pipe, h.deliveryId, id);
      assert Credit(q, [], Some(h.deliveryId), id);
    }
  }

  lemma ReleaseKeepsCredit(p: Pipe, x: int, id: int)
    requires p.link.Open? && Credit(p, [], Some(x), id)
    ensures Credit(Release(p, x, p.connectionId), [], None, id)
  {
    SumNotNegative(WaitingFor(id), Entries(p));
  }

  /** The delivery in hand is active and awaits no retransmission, so its ACK is sent. */
  lemma ReleaseIsSent(p: Pipe, x: int)
    requires p.link.Open? && Credit(p, [], Some(x), x)
    ensures L.ReleaseOnce(p.ledger, x, p.connectionId).1
  {
    SumNotNegative(WaitingFor(x), Entries(p));
  }

  /** A delivery in hand with one terminal outcome more than told. */
  ghost predicate Told(p: Pipe, held: Option<int>, x: int) {
    p.link.Open? ==>
      Credits(p, [], held) && (held == Some(x)) &&
      p.received == p.drawn + p.discarded + p.failed + |p.pending| + p.presentations &&
      p.releases + p.log.retries + 1 == p.drawn + p.discarded + p.failed
  }

  ghost predicate Settled(p: Pipe) {
    OwnPending(p) && OwnEntries(p.connectionId, Entries(p)) && Presentations(p, []) && Spaced(p) && !p.link.Connecting?
  }

  lemma ReleaseKeepsBooks(p: Pipe, x: int)
    requires Settled(p) && Told(p, Some(x), x)
    ensures Books(Release(p, x, p.connectionId), [], None)
  {
    hide Spaced;
    ReleaseKeepsSpaced(p, x, p.connectionId);
    var q := Release(p, x, p.connectionId);
    if p.link.Open? {
      assert Credit(p, [], Some(x), x);
      ReleaseIsSent(p, x);
      forall id ensures Credit(q, [], None, id) {
        assert Credit(p, [], Some(x), id);
        ReleaseKeepsCredit(p, x, id);
      }
    }
  }

  lemma SameCredits(p: Pipe, q: Pipe, owed: seq<Entry>, held: Option<int>)
    requires Credits(p, owed, held)
    requires q.connectionId == p.connectionId && q.pending == p.pending && q.ledger == p.ledger
    requires Entries(q) == Entries(p) && q.log.registered == p.log.registered && q.log.acked == p.log.acked
    ensures Credits(q, owed, held)
  {
    forall id ensures Credit(q, owed, held, id) { assert Credit(p, owed, held, id); }
  }

  lemma DiscardKeepsBooks(p: Pipe, x: int)
    requires Books(p, [], Some(x))
    ensures Books(Discard(p, x, p.connectionId), [], None)
  {
    var q := p.(discarded := p.discarded + 1);
    if p.link.Open? { SameCredits(p, q, [], Some(x)); }
    ReleaseKeepsBooks(q, x);
  }

  lemma EnqueueKeepsCredit(p: Pipe, h: Header, budget: Budget, kind: Kind, id: int)
    requires Credit(p, [], Some(h.deliveryId), id)
    ensures Credit(Enqueue(p, h, budget, kind), [], None, id)
  {
    SumNotNegative(WaitingFor(id), Entries(p));
  }

  lemma EnqueueKeepsBooks(p: Pipe, h: Header, budget: Budget, kind: Kind)
    requires Books(p, [], Some(h.deliveryId)) && p.link.Open?
    ensures Books(Enqueue(p, h, budget, kind), [], None)
  {
    var job := Job(p.connectionId, h.deliveryId);
    var q := Enqueue(p, h, budget, kind);
    assert Credit(p, [], Some(h.deliveryId), h.deliveryId);
    SumNotNegative(WaitingFor(h.deliveryId), Entries(p));
    assert job !in p.pending;
    assert |q.pending| == |p.pending| + 1;
    forall id ensures Credit(q, [], None, id) {
      assert Credit(p, [], Some(h.deliveryId), id);
      EnqueueKeepsCredit(p, h, budget, kind, id);
    }
  }

  lemma TakenKeepsCredit(p: Pipe, job: Job, id: int)
    requires Credit(p, [], None, id) && job in p.pending && job.connectionId == p.connectionId
    ensures Credit(Taken(p, job), [], Some(job.deliveryId), id)
  {
  }

  lemma TakenKeepsBooks(p: Pipe, job: Job)
    requires Books(p, [], None) && job in p.pending
    ensures Books(Taken(p, job), [], Some(job.deliveryId)) && job.connectionId == p.connectionId
    ensures !p.link.Connecting?
  {
    var q := Taken(p, job);
    assert |q.pending| == |p.pending| - 1;
    if p.link.Open? {
      forall id ensures Credit(q, [], Some(job.deliveryId), id) {
        assert Credit(p, [], None, id);
        TakenKeepsCredit(p, job, id);
      }
    }
  }

  /** The books say nothing of budget, epoch, bitmaps or messages. */
  ghost predicate SameBooks(p: Pipe, q: Pipe) {
    q.link == p.link && q.connectionId == p.connectionId && q.pending == p.pending && q.ledger == p.ledger &&
    q.canvas == p.canvas && q.received == p.received && q.drawn == p.drawn && q.discarded == p.discarded &&
    q.failed == p.failed && q.releases == p.releases && q.presentations == p.presentations &&
    q.log.retries == p.log.retries && q.log.registered == p.log.registered && q.log.acked == p.log.acked
  }

  lemma BooksDependOn(p: Pipe, q: Pipe, held: Option<int>)
    requires Books(p, [], held) && SameBooks(p, q)
    ensures Books(q, [], held)
  {
    if p.link.Open? { SameCredits(p, q, [], held); }
  }

  // ----- storing -----

  lemma PutMembers(entries: seq<Entry>, e: Entry)
    ensures forall x :: x in Put(entries, e) ==> x == e || x in entries
    ensures forall x :: x in Replaced(entries, CacheKey(e.header)) ==> x in entries
  {
  }

  lemma StoreKeepsCredit(p: Pipe, k: Compositor, gone: seq<Entry>, e: Entry, id: int)
    requires Credit(p, [], Some(e.header.deliveryId), id) && !e.presented
    requires Sum(WaitingFor(id), k.entries) + Sum(WaitingFor(id), gone) ==
             Sum(WaitingFor(id), Entries(p)) + Weight(WaitingFor(id), e)
    ensures Credit(p.(presentations := p.presentations + 1, canvas := Some(k)), gone, None, id)
  {
  }

  lemma StoreKeepsOwn(connectionId: int, entries: seq<Entry>, e: Entry)
    requires OwnEntries(connectionId, entries) && e.connectionId == connectionId
    ensures OwnEntries(connectionId, Put(entries, e)) && OwnEntries(connectionId, Replaced(entries, CacheKey(e.header)))
  {
    PutMembers(entries, e);
    forall i | 0 <= i < |Put(entries, e)| ensures Put(entries, e)[i].connectionId == connectionId {
      assert Put(entries, e)[i] in Put(entries, e);
    }
  }

  lemma AcceptedKeepsBooks(p: Pipe, k: Compositor, e: Entry)
    requires p.canvas == Some(k) && Accepts(k, e.header) && !e.presented && e.connectionId == p.connectionId
    requires Books(p, [], Some(e.header.deliveryId)) && !p.link.Connecting?
    ensures Books(p.(presentations := p.presentations + 1, canvas := Some(Store(k, e).0)), Store(k, e).1, None)
  {
    var (k', gone, _) := Store(k, e);
    var q := p.(presentations := p.presentations + 1, canvas := Some(k'));
    StoreKeepsOwn(p.connectionId, k.entries, e);
    SumPut(Waiting, k.entries, e);
    if p.link.Open? {
      forall id ensures Credit(q, gone, None, id) {
        SumPut(WaitingFor(id), k.entries, e);
        assert Credit(p, [], Some(e.header.deliveryId), id);
        StoreKeepsCredit(p, k', gone, e, id);
      }
    }
  }

  lemma StoreKeepsBooks(c: Client, k: Compositor, e: Entry)
    requires c.pipe.canvas == Some(k) && !e.presented && e.connectionId == c.pipe.connectionId
    requires Books(c.pipe, [], Some(e.header.deliveryId)) && !c.pipe.link.Connecting?
    ensures Books(StoreOnCanvas(c, k, e).pipe, [], None)
  {
    hide Credits, Account, Quiet, OwnEntries, OwnPending, Put, Replaced;
    var shown := c.pipe.(presentations := c.pipe.presentations + 1);
    var (k', gone, accepted) := Store(k, e);
    if accepted {
      AcceptedKeepsBooks(c.pipe, k, e);
      DropAllKeepsBooks(c.(pipe := shown.(canvas := Some(k'))), gone);
    } else {
      var closed := Close(shown, e.bitmap);
      var back := closed.(presentations := Max(0, closed.presentations - 1),
                          budget := RemoveStored(closed.budget, e.kind, e.bytes));
      SumNotNegative(Waiting, Entries(c.pipe));
      BooksDependOn(c.pipe, back, Some(e.header.deliveryId));
      DiscardKeepsBooks(back, e.header.deliveryId);
    }
  }

  // ----- the worker answers -----

  lemma TooLateKeepsBooks(p: Pipe, t: W.Task, bitmap: int)
    requires t.connectionId == p.connectionId && Books(p, [], Some(t.header.deliveryId)) && !p.link.Connecting?
    ensures Books(TooLate(p, t, bitmap), [], None)
  {
    hide Release, Cancel, Credits, Account;
    var q := Close(p, bitmap);
    var freed := q.(budget := Cancel(q.budget, JobOf(t)));
    BooksDependOn(p, freed, Some(t.header.deliveryId));
    DiscardKeepsBooks(freed, t.header.deliveryId);
  }

  lemma NotStoredKeepsBooks(p: Pipe, t: W.Task, bitmap: int, kind: Kind, bytes: Option<int>)
    requires t.connectionId == p.connectionId && Books(p, [], Some(t.header.deliveryId)) && !p.link.Connecting?
    ensures Books(NotStored(p, t, bitmap, kind, bytes), [], None)
  {
    var q := Close(p, bitmap);
    var r := if bytes.Some? then q.(log := Leak(q.log, kind, bytes.value)) else q;
    BooksDependOn(p, r, Some(t.header.deliveryId));
    DiscardKeepsBooks(r, t.header.deliveryId);
  }

  lemma DecodedKeepsBooks(c: Client, t: W.Task, bitmap: int, kind: Kind)
    requires t.connectionId == c.pipe.connectionId && !c.pipe.link.Connecting?
    requires Books(c.pipe, [], Some(t.header.deliveryId))
    ensures Books(OnDecoded(c, t, bitmap, kind).pipe, [], None)
  {
    if !Current(c, t) {
      TooLateKeepsBooks(c.pipe, t, bitmap);
    } else {
      var (budget, bytes) := Commit(c.pipe.budget, JobOf(t), kind);
      var p := c.pipe.(budget := budget);
      BooksDependOn(c.pipe, p, Some(t.header.deliveryId));
      if bytes.None? || p.canvas.None? {
        NotStoredKeepsBooks(p, t, bitmap, kind, bytes);
      } else {
        StoreKeepsBooks(c.(pipe := p), p.canvas.value, EntryOf(t, bitmap, bytes.value, kind));
      }
    }
  }

  lemma AskKeepsCredit(p: Pipe, x: int, epoch: int, id: int)
    requires p.link.Open? && Credit(p, [], Some(x), id) && AskAgain(p, x, p.connectionId, epoch).1
    ensures Credit(AskAgain(p, x, p.connectionId, epoch).0, [], None, id)
  {
    SumNotNegative(WaitingFor(id), Entries(p));
  }

  lemma FailedKeepsBooks(p: Pipe, x: int, epoch: int)
    requires Books(p, [], Some(x)) && !p.link.Connecting?
    ensures var (asked, again) := AskAgain(p.(failed := p.failed + 1), x, p.connectionId, epoch);
            Books(if again then asked else Release(asked, x, p.connectionId), [], None)
  {
    var q := p.(failed := p.failed + 1);
    if p.link.Open? { SameCredits(p, q, [], Some(x)); }
    var (asked, again) := AskAgain(q, x, p.connectionId, epoch);
    if again {
      forall id ensures Credit(asked, [], None, id) {
        assert Credit(q, [], Some(x), id);
        AskKeepsCredit(q, x, epoch, id);
      }
    } else {
      ReleaseKeepsBooks(q, x);
    }
  }

  lemma UndecodedKeepsBooks(p: Pipe, t: W.Task, failed: bool)
    requires t.connectionId == p.connectionId && Books(p, [], Some(t.header.deliveryId)) && !p.link.Connecting?
    ensures Books(OnUndecoded(p, t, failed), [], None)
  {
    var q := p.(budget := Cancel(p.budget, JobOf(t)));
    BooksDependOn(p, q, Some(t.header.deliveryId));
    if failed { FailedKeepsBooks(q, t.header.deliveryId, t.header.epoch); }
    else { DiscardKeepsBooks(q, t.header.deliveryId); }
  }

  lemma WorkerKeepsBooks(c: Client, r: W.Response)
    requires Books(c.pipe, [], None)
    ensures Books(OnWorker(c, r).pipe, [], None)
  {
    var job := JobOf(r.task);
    var p := Arrive(c.pipe, r);
    BooksDependOn(c.pipe, p, None);
    if job !in p.pending {
      if r.Decoded? { BooksDependOn(p, Close(p, r.bitmap), None); }
    } else {
      TakenKeepsBooks(p, job);
      var d := c.(pipe := Taken(p, job));
      match r
      case Decoded(t, bitmap) => DecodedKeepsBooks(d, t, bitmap, p.pending[job].kind);
      case Discarded(t) => UndecodedKeepsBooks(d.pipe, t, false);
      case Failed(t) => UndecodedKeepsBooks(d.pipe, t, true);
    }
  }

  // ----- tiles -----

  lemma ClosingKeepsBooks(p: Pipe, held: Option<int>, q: Pipe)
    requires Books(p, [], held) && q.link.Closing?
    requires q.connectionId == p.connectionId && q.pending == p.pending && q.canvas == p.canvas
    requires q.presentations == p.presentations && q.log.acked == p.log.acked
    ensures Books(q, [], None)
  {
  }

  lemma DeliveryKeepsBooks(c: Client, h: Header)
    requires Books(c.pipe, [], Some(h.deliveryId)) && c.pipe.link.Open?
    ensures Books(OnDelivery(c, h).pipe, [], None)
  {
    var p := c.pipe;
    DiscardKeepsBooks(p, h.deliveryId);
    if h.epoch > p.epoch { ClosingKeepsBooks(p, Some(h.deliveryId), Violation(c).pipe); }
    var (budget, reserved) := Reserve(p.budget, Job(p.connectionId, h.deliveryId), DecodedBytes(h));
    EnqueueKeepsBooks(p, h, budget, Classify(c.nav, h.epoch, h.z));
  }

  lemma TileKeepsBooks(c: Client, h: Header)
    requires Books(c.pipe, [], None) && c.pipe.link.Open?
    ensures Books(OnTile(c, h).pipe, [], None)
  {
    if Admitted(c, h) {
      AdmitKeepsBooks(c, h);
      DeliveryKeepsBooks(Received(c, h), h);
    } else {
      ClosingKeepsBooks(c.pipe, None, Violation(Received(c, h)).pipe);
    }
  }

  lemma BinaryKeepsBooks(c: Client, tile: Option<Header>)
    requires Books(c.pipe, [], None) && c.pipe.link.Open?
    ensures Books(OnBinary(c, tile).pipe, [], None)
  {
    if c.nav.welcome.Some? {
      if TileIsKnown(c, tile) { TileKeepsBooks(c, tile.value); }
      else { ClosingKeepsBooks(c.pipe, None, Violation(c).pipe); }
    }
  }

  // ----- everything else -----

  lemma OpenKeepsBooks(c: Client)
    requires Books(c.pipe, [], None)
    ensures Books(OpenSelected(c).pipe, [], None)
  {
    BooksDependOn(c.pipe, Leaving(c).pipe, None);
    ResetKeepsBooks(Leaving(c));
    BooksDependOn(ResetCanvas(Leaving(c)).pipe, OpenPosted(ResetCanvas(Leaving(c))).pipe, None);
  }

  lemma RequestKeepsBooks(c: Client, signature: int)
    requires Books(c.pipe, [], None)
    ensures Books(RequestView(c, signature).pipe, [], None)
  {
    BooksDependOn(c.pipe, Asking(c, signature).pipe, None);
    BeginKeepsBooks(Asking(c, signature), c.pipe.epoch + 1);
  }

  lemma ManifestKeepsBooks(c: Client, raw: Manifest, signature: int)
    requires Books(c.pipe, [], None) && c.pipe.link.Open?
    ensures Books(OnManifest(c, raw, signature).pipe, [], None)
  {
    ClosingKeepsBooks(c.pipe, None, Violation(c).pipe);
    if c.nav.selected.Some? {
      var parsed := ParseManifest(raw, c.nav.selected.value, c.pipe.epoch);
      if parsed.Ok? {
        StartKeepsBooks(Knowing(c, parsed.value), parsed.value);
        RequestKeepsBooks(StartCanvas(Knowing(c, parsed.value), parsed.value), signature);
      }
    }
  }

  lemma TextKeepsBooks(c: Client, control: Control, signature: int)
    requires Books(c.pipe, [], None) && c.pipe.link.Open?
    ensures Books(OnText(c, control, signature).pipe, [], None)
  {
    ClosingKeepsBooks(c.pipe, None, Violation(c).pipe);
    match control
    case Welcome(version, maxTileBytes) =>
      OpenKeepsBooks(c.(nav := c.nav.(welcome := Some(maxTileBytes)), phase := Ready));
    case ManifestIs(m) => ManifestKeepsBooks(c, m, signature);
    case PlanIs(_) =>
    case Done(_) =>
    case Refused(_, _) =>
    case Malformed =>
  }

  lemma {:induction false} UnpresentedWait(entries: seq<Entry>)
    ensures AllWait(Unpresented(entries))
    ensures forall e :: e in Unpresented(entries) ==> e in entries
    decreases |entries|
  {
    if entries != [] {
      UnpresentedWait(entries[..|entries| - 1]);
      assert entries == entries[..|entries| - 1] + [entries[|entries| - 1]];
    }
  }

  lemma InPaintOrderMembers(entries: seq<Entry>)
    ensures forall e :: e in InPaintOrder(entries) ==> e in entries
  {
    PaintsBackToFront(entries);
    forall e | e in InPaintOrder(entries) ensures e in entries {
      assert e in multiset(InPaintOrder(entries));
    }
  }

  lemma PaintMovesBooks(p: Pipe, k: Compositor)
    requires p.canvas == Some(k) && Books(p, [], None)
    ensures Books(p.(canvas := Some(Paint(k, true).0)), Paint(k, true).1, None) && AllWait(Paint(k, true).1)
    ensures Books(p.(canvas := Some(Paint(k, false).0)), [], None)
  {
    BooksDependOn(p, p, None);
    var q := p.(canvas := Some(Paint(k, true).0));
    var shown := Paint(k, true).1;
    if Paintable(k, true) {
      UnpresentedWait(InPaintOrder(k.entries));
      InPaintOrderMembers(k.entries);
      SumPainted(Waiting, k.entries);
      SumPresentAll(Waiting, k.entries);
      forall i | 0 <= i < |shown| ensures shown[i].connectionId == p.connectionId {
        assert shown[i] in k.entries;
      }
      if p.link.Open? {
        forall id ensures Credit(q, shown, None, id) {
          SumPainted(WaitingFor(id), k.entries);
          SumPresentAll(WaitingFor(id), k.entries);
          assert Credit(p, [], None, id);
        }
      }
    } else if p.link.Open? {
      SameCredits(p, q, [], None);
    }
    if p.link.Open? { SameCredits(p, p.(canvas := Some(Paint(k, false).0)), [], None); }
  }

  lemma FrameKeepsBooks(c: Client, context: bool)
    requires Books(c.pipe, [], None)
    ensures Books(OnFrame(c, context).pipe, [], None)
  {
    if c.pipe.canvas.Some? {
      var (k, shown) := Paint(c.pipe.canvas.value, context);
      PaintMovesBooks(c.pipe, c.pipe.canvas.value);
      ShowAllKeepsBooks(OnCanvas(c, k), shown);
    }
  }

  /** Whatever is done to a compositor short of touching its entries. */
  lemma SameEntriesKeepBooks(c: Client, k: Compositor)
    requires Books(c.pipe, [], None) && k.entries == Entries(c.pipe)
    ensures Books(OnCanvas(c, k).pipe, [], None)
  {
    if c.pipe.link.Open? { SameCredits(c.pipe, OnCanvas(c, k).pipe, [], None); }
  }

  lemma ResetEmpties(c: Client)
    ensures Entries(ResetCanvas(c).pipe) == [] && ResetCanvas(c).nav == c.nav
    ensures ResetCanvas(c).pipe.link == c.pipe.link && ResetCanvas(c).pipe.connectionId == c.pipe.connectionId
    ensures ResetCanvas(c).pipe.epoch == c.pipe.epoch && ResetCanvas(c).pipe.pending == c.pipe.pending
  {
    if c.pipe.canvas.Some? {
      DropAllChangesLittle(OnCanvas(c, BLANK), c.pipe.canvas.value.entries);
    }
  }

  lemma AttachKeepsBooks(c: Client)
    requires Books(c.pipe, [], None)
    ensures Books(AttachCanvas(c).pipe, [], None)
  {
    ResetKeepsBooks(c);
    ResetEmpties(c);
    SameEntriesKeepBooks(ResetCanvas(c), BLANK);
    if c.nav.manifest.Some? { StartKeepsBooks(OnCanvas(ResetCanvas(c), BLANK), c.nav.manifest.value); }
  }

  lemma ViewportKeepsBooks(c: Client, signature: int)
    requires Books(c.pipe, [], None)
    ensures Books(SetViewport(c, signature).pipe, [], None)
  {
    if c.nav.manifest.Some? {
      var l := c.(nav := c.nav.(viewport := true, layout := true));
      if l.pipe.canvas.None? {
        RequestKeepsBooks(l, signature);
      } else {
        var k := SetView(SetLayout(l.pipe.canvas.value));
        SameEntriesKeepBooks(l, k);
        RequestKeepsBooks(OnCanvas(l, k), signature);
      }
    }
  }

  lemma NavigateKeepsBooks(c: Client)
    requires Books(c.pipe, [], None)
    ensures Books(Navigate(c).pipe, [], None)
  {
    if c.pipe.canvas.Some? { SameEntriesKeepBooks(c, SetView(c.pipe.canvas.value)); }
  }

  lemma ModeKeepsBooks(c: Client, focus: bool, signature: int)
    requires Books(c.pipe, [], None)
    ensures Books(SetMode(c, focus, signature).pipe, [], None)
  {
    NavigateKeepsBooks(c.(nav := c.nav.(focus := focus)));
    RequestKeepsBooks(Focused(c, focus), signature);
  }

  /** Nothing was told to the server between p and q, and nothing taken in. */
  ghost predicate Silent(p: Pipe, q: Pipe) {
    q.releases == p.releases && q.received == p.received && q.log.retries == p.log.retries &&
    q.log.registered == p.log.registered && q.log.acked == p.log.acked
  }

  /** A callback sends nothing while the transport is not open. */
  lemma {:induction false} DropAllOffline(c: Client, gone: seq<Entry>)
    requires !c.pipe.link.Open?
    ensures DropAll(c, gone).pipe.ledger == c.pipe.ledger && Silent(c.pipe, DropAll(c, gone).pipe)
    decreases |gone|
  {
    if gone != [] { DropAllOffline(Drop(c, gone[0]), gone[1..]); }
  }

  lemma ConnectKeepsBooks(c: Client)
    ensures Books(Connect(c).pipe, [], None)
  {
    ResetEmpties(Renewed(c));
    if c.pipe.canvas.Some? { DropAllOffline(OnCanvas(Renewed(c), BLANK), c.pipe.canvas.value.entries); }
  }

  lemma CloseEmpties(c: Client, reason: bool)
    requires OwnPending(c.pipe)
    ensures OnClose(c, reason).pipe.pending == map[] && Entries(OnClose(c, reason).pipe) == []
  {
    assert Emptied(c).pipe.pending == map[];
    ResetEmpties(Emptied(c));
  }

  lemma CloseKeepsBooks(c: Client, reason: bool)
    requires OwnPending(c.pipe) && Spaced(c.pipe)
    ensures Books(OnClose(c, reason).pipe, [], None)
  {
    CloseEmpties(c, reason);
    ResetEmpties(Emptied(c));
    if c.pipe.canvas.Some? { DropAllOffline(OnCanvas(Emptied(c), BLANK), c.pipe.canvas.value.entries); }
  }

  lemma OpenedKeepsBooks(c: Client)
    requires Books(c.pipe, [], None) && c.pipe.link.Connecting?
    ensures Books(Opened(c).pipe, [], None)
  {
  }

  /** Any callback, in any state. */
  lemma StepKeepsBooks(c: Client, e: Event)
    requires Books(c.pipe, [], None) && Enabled(c, e)
    ensures Books(Step(c, e).pipe, [], None)
  {
    match e
    case Connects => ConnectKeepsBooks(c);
    case LinkOpens => OpenedKeepsBooks(c);
    case LinkDrops => ClosingKeepsBooks(c.pipe, None, Lost(c).pipe);
    case LinkCloses(reason) => CloseKeepsBooks(c, reason);
    case TextArrives(control, signature) => TextKeepsBooks(c, control, signature);
    case TileArrives(tile) => BinaryKeepsBooks(c, tile);
    case WorkerAnswers(r) => WorkerKeepsBooks(c, r);
    case FrameRuns(context) => FrameKeepsBooks(c, context);
    case CanvasAttached => AttachKeepsBooks(c);
    case ImageSelected(imageId) => OpenKeepsBooks(c.(nav := c.nav.(selected := Some(imageId))));
    case ImageRetried => OpenKeepsBooks(c);
    case ViewportSet(signature) => ViewportKeepsBooks(c, signature);
    case ModeSet(focus, signature) => ModeKeepsBooks(c, focus, signature);
    case ViewMoved => NavigateKeepsBooks(c);
    case ViewRequested(signature) => RequestKeepsBooks(c, signature);
    case Broke =>
  }
}
