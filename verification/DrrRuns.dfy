/**
  Whole runs of the scheduler: any interleaving of acquires, releases and
  cancels, each one a body the source runs under its lock.
*/
module DrrRuns {
  import opened Arithmetic
  import opened Drr
  import opened DrrProofs

  datatype Event = AcquireBy(o: int) | ReleaseBy(o: int, bytes: nat) | CancelBy(o: int)

  /** A release comes from a live lease; a cancel that finds its waiter comes from a queued owner. */
  ghost predicate Enabled(s: Sched, e: Event) {
    match e
    case AcquireBy(_) => true
    case ReleaseBy(o, _) => o in s.leases
    case CancelBy(o) => o in s.queue
  }

  function Step(s: Sched, e: Event): Sched
    requires s.quantum >= 1
  {
    match e
    case AcquireBy(o) => Acquire(s, o).0
    case ReleaseBy(o, bytes) => Release(s, o, bytes).0
    case CancelBy(o) => Cancel(s, o)
  }

  /** A scheduler whose largest cost fits the source's 32-bit product. */
  ghost predicate Sound(s: Sched) { Inv(s) && Cap(s.quantum) <= MAX_INT }

  lemma StepKeepsSound(s: Sched, e: Event)
    requires Sound(s) && Enabled(s, e)
    ensures Sound(Step(s, e))
    ensures Step(s, e).quantum == s.quantum && Step(s, e).maxWaiters == s.maxWaiters
    ensures Step(s, e).maxInFlight == s.maxInFlight
  {
    match e
    case AcquireBy(o) => AcquireKeepsInv(s, o);
    case ReleaseBy(o, bytes) => ReleaseKeeps(s, o, bytes);
    case CancelBy(o) => CancelKeepsInv(s, o);
  }

  ghost predicate Next(s: Sched, e: Event, u: Sched) {
    s.quantum >= 1 && Enabled(s, e) && u == Step(s, e)
  }

  /** One step of a run: what happened, and the scheduler after it. */
  datatype Move = Move(e: Event, s: Sched)

  ghost predicate Run(s: Sched, run: seq<Move>)
    decreases |run|
  {
    run == [] || (Next(s, run[0].e, run[0].s) && Run(run[0].s, run[1..]))
  }

  function End(s: Sched, run: seq<Move>): Sched {
    if run == [] then s else run[|run| - 1].s
  }

  lemma NextKeepsSound(s: Sched, e: Event, u: Sched)
    requires Sound(s) && Next(s, e, u)
    ensures Sound(u) && u.quantum == s.quantum && u.maxWaiters == s.maxWaiters && u.maxInFlight == s.maxInFlight
  {
    StepKeepsSound(s, e);
  }

  /** Permit safety and work conservation hold after every run from the empty scheduler. */
  lemma {:induction false} RunsAreSound(s: Sched, run: seq<Move>)
    requires Sound(s) && Run(s, run)
    ensures Sound(End(s, run)) && End(s, run).quantum == s.quantum && End(s, run).maxWaiters == s.maxWaiters
    decreases |run|
  {
    if run != [] {
      NextKeepsSound(s, run[0].e, run[0].s);
      RunsAreSound(run[0].s, run[1..]);
    }
  }

  // ----- bounded waiting -----

  ghost function Position(queue: seq<int>, w: int): (k: nat)
    requires w in queue
    ensures k < |queue| && queue[k] == w
  {
    var k :| 0 <= k < |queue| && queue[k] == w;
    k
  }

  /** How far w is from its grant: full rounds still needed, then places in the queue. */
  ghost function Rank(s: Sched, w: int): (r: nat)
    requires s.quantum >= 1 && w in s.queue
  {
    Times(NeedOf(s.flows, w, s.quantum) - 1, s.maxWaiters) + Position(s.queue, w)
  }

  lemma {:induction false} TimesGrows(a: int, b: int, amount: nat)
    requires 0 <= a <= b
    ensures Times(a, amount) <= Times(b, amount)
    ensures a < b ==> Times(a, amount) + amount <= Times(b, amount)
    decreases b
  {
    if a < b { TimesGrows(a, b - 1, amount); }
  }

  lemma RankIsBounded(s: Sched, w: int)
    requires Inv(s) && w in s.queue
    ensures Rank(s, w) < 8 * s.maxWaiters
  {
    assert w in Elements(s.queue);
    NeedAtMostEight(s.flows[w], s.quantum);
    TimesGrows(NeedOf(s.flows, w, s.quantum) - 1, 7, s.maxWaiters);
    TimesIsProduct(7, s.maxWaiters);
  }

  lemma RankAfterAcquire(s: Sched, o: int, w: int)
    requires Inv(s) && w in s.queue
    ensures w in Acquire(s, o).0.queue && Rank(Acquire(s, o).0, w) == Rank(s, w)
  {
    var u := Acquire(s, o).0;
    assert w in Elements(s.queue);
    assert s.queue <= u.queue;
    assert u.queue[Position(s.queue, w)] == w;
    AcquireKeepsOwners(s, o);
  }

  lemma {:induction false} WithoutPosition(q: seq<int>, o: int, k: nat) returns (k': nat)
    requires k < |q| && Distinct(q) && q[k] != o
    ensures k' <= k && k' < |Without(q, o)| && Without(q, o)[k'] == q[k]
  {
    if q[0] == o {
      k' := k - 1;
    } else if k == 0 {
      k' := 0;
    } else {
      k' := WithoutPosition(q[1..], o, k - 1);
      k' := k' + 1;
    }
  }

  lemma RankAfterCancel(s: Sched, o: int, w: int)
    requires Inv(s) && w in s.queue && o in s.queue && o != w
    ensures w in Cancel(s, o).queue && Rank(Cancel(s, o), w) <= Rank(s, w)
  {
    var k' := WithoutPosition(s.queue, o, Position(s.queue, w));
    WithoutFacts(s.queue, o);
    assert Cancel(s, o).queue[k'] == w;
  }

  lemma PositionIs(q: seq<int>, k: nat)
    requires k < |q| && Distinct(q)
    ensures Position(q, q[k]) == k
  {
    var p := Position(q, q[k]);
    assert !(p < k) && !(k < p);
  }

  /** Where the waiter at position j stands in the queue rotated around position i. */
  lemma RotatedPosition(q: seq<int>, i: nat, j: nat)
    requires Distinct(q) && i < |q| && j < |q| && i != j
    ensures q[j] in q[i + 1..] + q[..i]
    ensures Position(q[i + 1..] + q[..i], q[j]) == if j < i then |q| - i - 1 + j else j - i - 1
  {
    RotatedElements(q, i);
    var r := q[i + 1..] + q[..i];
    var k := if j < i then |q| - i - 1 + j else j - i - 1;
    assert r[k] == q[j];
    PositionIs(r, k);
  }

  /** The need of a waiter passed over falls by the visits it was paid. */
  lemma NeedAfterGrant(t: Sched, i: nat, rounds: int, j: nat)
    requires Settled(t) && Wins(t, i, rounds) && j < |t.queue| && j != i
    ensures
      var paid := if j < i then rounds + 1 else rounds;
      0 <= paid < NeedOf(t.flows, t.queue[j], t.quantum) &&
      NeedOf(Grant(t, i, rounds).flows, t.queue[j], t.quantum) == NeedOf(t.flows, t.queue[j], t.quantum) - paid
  {
    if j < i { GrantAhead(t, i, rounds, j); } else { GrantBehind(t, i, rounds, j); }
  }

  /** A waiter that a release passes over has a smaller rank: fewer rounds to go, or as many and fewer places. */
  lemma RankAfterGrant(t: Sched, i: nat, rounds: int, j: nat)
    requires Settled(t) && Wins(t, i, rounds) && j < |t.queue| && j != i
    ensures var w := t.queue[j]; w in Grant(t, i, rounds).queue && Rank(Grant(t, i, rounds), w) < Rank(t, w)
  {
    NeedAfterGrant(t, i, rounds, j);
    RankRotated(t, i, rounds, j, if j < i then rounds + 1 else rounds);
  }

  lemma RankRotated(t: Sched, i: nat, rounds: nat, j: nat, paid: int)
    requires t.quantum >= 1 && i < |t.queue| <= t.maxWaiters && j < |t.queue| && j != i && Distinct(t.queue)
    requires paid == if j < i then rounds + 1 else rounds
    requires paid < NeedOf(t.flows, t.queue[j], t.quantum)
    requires NeedOf(Grant(t, i, rounds).flows, t.queue[j], t.quantum) == NeedOf(t.flows, t.queue[j], t.quantum) - paid
    ensures var w := t.queue[j]; w in Grant(t, i, rounds).queue && Rank(Grant(t, i, rounds), w) < Rank(t, w)
  {
    RotatedPosition(t.queue, i, j);
    PositionIs(t.queue, j);
    var u := Grant(t, i, rounds);
    var w := t.queue[j];
    RankDrops(NeedOf(t.flows, w, t.quantum), NeedOf(u.flows, w, u.quantum), j, Position(u.queue, w), t.maxWaiters);
  }

  lemma RankDrops(need: int, need': int, place: nat, place': nat, most: nat)
    requires 1 <= need' <= need
    requires place' < place || (need' < need && place' < place + most)
    ensures Times(need' - 1, most) + place' < Times(need - 1, most) + place
  {
    TimesGrows(need' - 1, need - 1, most);
  }

  lemma RankAfterRelease(s: Sched, o: int, bytes: nat, w: int)
    requires Sound(s) && o in s.leases && w in s.queue && w in Release(s, o, bytes).0.queue
    ensures Rank(Release(s, o, bytes).0, w) < Rank(s, w)
  {
    var t := Settle(s, o, bytes);
    SettleSettles(s, o, bytes);
    var i, rounds := ReleaseGrants(s, o, bytes);
    RankAfterSettle(s, o, bytes, w);
    var j := Position(t.queue, w);
    PassedOver(t.queue, i, w);
    RankAfterGrant(t, i, rounds, j);
  }

  lemma PassedOver(q: seq<int>, i: nat, w: int)
    requires i < |q| && Distinct(q) && w in q && w in q[i + 1..] + q[..i]
    ensures w != q[i]
  {
    RotatedElements(q, i);
    assert w in Elements(q[i + 1..] + q[..i]);
  }

  lemma RankAfterSettle(s: Sched, o: int, bytes: nat, w: int)
    requires Inv(s) && o in s.leases && w in s.queue
    ensures Rank(Settle(s, o, bytes), w) == Rank(s, w)
  {
    assert w in Elements(s.queue);
  }

  /** In every state of the run, the first included, w is in the queue. */
  ghost predicate KeepsWaiting(s: Sched, run: seq<Move>, w: int) {
    w in s.queue && forall m | m in run :: w in m.s.queue
  }

  function Releases(run: seq<Move>): nat {
    if run == [] then 0 else (if run[0].e.ReleaseBy? then 1 else 0) + Releases(run[1..])
  }

  lemma RankAfterStep(s: Sched, e: Event, u: Sched, w: int)
    requires Sound(s) && Next(s, e, u) && w in s.queue && w in u.queue
    ensures u.quantum >= 1 && Rank(u, w) + (if e.ReleaseBy? then 1 else 0) <= Rank(s, w)
  {
    match e
    case AcquireBy(o) => RankAfterAcquire(s, o, w);
    case ReleaseBy(o, bytes) => RankAfterRelease(s, o, bytes, w);
    case CancelBy(o) =>
      WithoutFacts(s.queue, o);
      assert w in Elements(Without(s.queue, o));
      RankAfterCancel(s, o, w);
  }

  /**
    Bounded waiting. While an owner waits, whatever the others acquire, cancel
    or are charged, fewer than 8 * maxWaiters permits are released: by that
    release it has been granted, unless it was cancelled.
  */
  lemma {:induction false} BoundedWaiting(s: Sched, run: seq<Move>, w: int)
    requires Sound(s) && Run(s, run) && KeepsWaiting(s, run, w)
    ensures Releases(run) <= Rank(s, w) < 8 * s.maxWaiters
    decreases |run|
  {
    RankIsBounded(s, w);
    if run != [] {
      NextKeepsSound(s, run[0].e, run[0].s);
      RankAfterStep(s, run[0].e, run[0].s, w);
      BoundedWaiting(run[0].s, run[1..], w);
    }
  }

  // ----- the byte bound -----

  /** Visits, each worth at most one quantum, that one step pays to w. */
  function VisitsPaid(s: Sched, e: Event, w: int): int {
    if s.quantum < 1 || !e.ReleaseBy? || s.queue == [] then 0
    else
      var t := Settle(s, e.o, e.bytes);
      var i := Winner(t.queue, t.flows, t.quantum, |t.queue|);
      Tops(t.queue, NeedOf(t.flows, t.queue[i], t.quantum) - 1, i + 1, w)
  }

  /** Bytes one step charges to w: never more than the cap for one tile. */
  function BytesCharged(s: Sched, e: Event, w: int): nat {
    if s.quantum >= 1 && e.ReleaseBy? && e.o == w then Min(e.bytes, Cap(s.quantum)) else 0
  }

  function Deficit(s: Sched, w: int): int { FlowOf(s.flows, w, s.quantum).deficit }

  /** A turn w got from the queue is paid for in advance. */
  ghost predicate PaidAhead(s: Sched, w: int) {
    w in s.leases ==> Deficit(s, w) >= FlowOf(s.flows, w, s.quantum).lastCost
  }

  /** So charging it never meets the floor: the whole cost is taken. */
  lemma FloorNeverBinds(s: Sched, bytes: nat, w: int)
    requires Inv(s) && PaidAhead(s, w) && w in s.leases
    ensures Deficit(Settle(s, w, bytes), w) == Deficit(s, w) - Min(bytes, Cap(s.quantum)) > -Cap(s.quantum)
  {
    assert w in s.flows;
  }

  lemma GrantPays(t: Sched, i: nat, rounds: int, w: int)
    requires Settled(t) && Wins(t, i, rounds) && PaidAhead(t, w)
    ensures PaidAhead(Grant(t, i, rounds), w)
    ensures Deficit(Grant(t, i, rounds), w) <= Deficit(t, w) + Times(Tops(t.queue, rounds, i + 1, w), t.quantum)
  {
    var u := Grant(t, i, rounds);
    if w in t.queue {
      assert w in Elements(t.queue);
      if w == t.queue[i] { GrantWinner(t, i, rounds); }
    } else if w in t.flows {
      GrantIdle(t, i, rounds, w);
    }
  }

  lemma TimesAdds(a: nat, b: nat, amount: int)
    ensures Times(a + b, amount) == Times(a, amount) + Times(b, amount)
  {
    TimesIsProduct(a, amount); TimesIsProduct(b, amount); TimesIsProduct(a + b, amount);
    assert (a + b) * amount == a * amount + b * amount;
  }

  lemma ReleaseBytes(s: Sched, o: int, bytes: nat, w: int)
    requires Sound(s) && o in s.leases && PaidAhead(s, w)
    ensures PaidAhead(Release(s, o, bytes).0, w)
    ensures Deficit(Release(s, o, bytes).0, w) + BytesCharged(s, ReleaseBy(o, bytes), w)
              <= Deficit(s, w) + Times(VisitsPaid(s, ReleaseBy(o, bytes), w), s.quantum)
    ensures VisitsPaid(s, ReleaseBy(o, bytes), w) >= 0
  {
    var t := Settle(s, o, bytes);
    SettleBytes(s, o, bytes, w);
    if s.queue != [] {
      SettleSettles(s, o, bytes);
      var i, rounds := ReleaseGrants(s, o, bytes);
      VisitsPaidAt(s, o, bytes, w, i, rounds);
      GrantPays(t, i, rounds, w);
    }
  }

  lemma VisitsPaidAt(s: Sched, o: int, bytes: nat, w: int, i: nat, rounds: int)
    requires s.quantum >= 1 && s.queue != [] && Wins(Settle(s, o, bytes), i, rounds)
    ensures VisitsPaid(s, ReleaseBy(o, bytes), w) == Tops(s.queue, rounds, i + 1, w) >= 0
  {
    var t := Settle(s, o, bytes);
    WinnerWins(t.queue, t.flows, t.quantum, |t.queue|);
    assert t.queue[..|t.queue|] == t.queue;
    WinnerIsUnique(t.queue, t.flows, t.quantum, i, Winner(t.queue, t.flows, t.quantum, |t.queue|));
  }

  lemma SettleBytes(s: Sched, o: int, bytes: nat, w: int)
    requires Inv(s) && o in s.leases && PaidAhead(s, w)
    ensures Deficit(Settle(s, o, bytes), w) + BytesCharged(s, ReleaseBy(o, bytes), w) == Deficit(s, w)
    ensures PaidAhead(Settle(s, o, bytes), w)
  {
    if o == w { FloorNeverBinds(s, bytes, w); }
  }

  lemma StepBytes(s: Sched, e: Event, w: int)
    requires Sound(s) && Enabled(s, e) && PaidAhead(s, w)
    requires !(e == AcquireBy(w) && Acquire(s, w).1 == Granted)
    ensures PaidAhead(Step(s, e), w) && VisitsPaid(s, e, w) >= 0
    ensures Deficit(Step(s, e), w) + BytesCharged(s, e, w) <= Deficit(s, w) + Times(VisitsPaid(s, e, w), s.quantum)
  {
    match e
    case AcquireBy(o) =>
    case ReleaseBy(o, bytes) => ReleaseBytes(s, o, bytes, w);
    case CancelBy(o) =>
  }

  /** Every turn w takes in this run comes through the queue. */
  ghost predicate Queueing(s: Sched, run: seq<Move>, w: int)
    decreases |run|
  {
    run == [] ||
    (!(run[0].e == AcquireBy(w) && Acquire(s, w).1 == Granted) && Queueing(run[0].s, run[1..], w))
  }

  function TotalVisits(s: Sched, run: seq<Move>, w: int): int
    decreases |run|
  {
    if run == [] then 0 else VisitsPaid(s, run[0].e, w) + TotalVisits(run[0].s, run[1..], w)
  }

  function TotalCharged(s: Sched, run: seq<Move>, w: int): nat
    decreases |run|
  {
    if run == [] then 0 else BytesCharged(s, run[0].e, w) + TotalCharged(run[0].s, run[1..], w)
  }

  /** From s to u, w is charged no more than its credit falls and its visits pay. */
  ghost predicate Pays(s: Sched, e: Event, u: Sched, w: int, quantum: int) {
    && VisitsPaid(s, e, w) >= 0
    && Deficit(u, w) + BytesCharged(s, e, w) <= Deficit(s, w) + Times(VisitsPaid(s, e, w), quantum)
  }

  ghost predicate AllPay(s: Sched, run: seq<Move>, w: int, quantum: int)
    decreases |run|
  {
    run == [] || (Pays(s, run[0].e, run[0].s, w, quantum) && AllPay(run[0].s, run[1..], w, quantum))
  }

  lemma NextPays(s: Sched, e: Event, u: Sched, w: int)
    requires Sound(s) && Next(s, e, u) && PaidAhead(s, w)
    requires !(e == AcquireBy(w) && Acquire(s, w).1 == Granted)
    ensures PaidAhead(u, w) && Pays(s, e, u, w, s.quantum)
  {
    StepBytes(s, e, w);
  }

  lemma {:induction false} RunPays(s: Sched, run: seq<Move>, w: int)
    requires Sound(s) && Run(s, run) && PaidAhead(s, w) && Queueing(s, run, w)
    ensures AllPay(s, run, w, s.quantum)
    decreases |run|
  {
    if run != [] {
      NextKeepsSound(s, run[0].e, run[0].s);
      NextPays(s, run[0].e, run[0].s, w);
      RunPays(run[0].s, run[1..], w);
    }
  }

  /** Charges never outrun the credit at the start and one quantum for each visit. */
  lemma {:induction false} Balance(s: Sched, run: seq<Move>, w: int, quantum: int)
    requires AllPay(s, run, w, quantum)
    ensures TotalVisits(s, run, w) >= 0
    ensures TotalCharged(s, run, w) + Deficit(End(s, run), w) <= Deficit(s, w) + Times(TotalVisits(s, run, w), quantum)
    decreases |run|
  {
    if run != [] {
      var e, u := run[0].e, run[0].s;
      Balance(u, run[1..], w, quantum);
      assert End(u, run[1..]) == End(s, run);
      AddUp(BytesCharged(s, e, w), TotalCharged(u, run[1..], w), Deficit(s, w), Deficit(u, w), Deficit(End(s, run), w),
            VisitsPaid(s, e, w), TotalVisits(u, run[1..], w), quantum);
    }
  }

  lemma AddUp(c: int, c': int, before: int, between: int, after: int, v: nat, v': nat, quantum: int)
    requires between + c <= before + Times(v, quantum) && c' + after <= between + Times(v', quantum)
    ensures c + c' + after <= before + Times(v + v', quantum)
  {
    TimesAdds(v, v', quantum);
  }

  /**
    The byte bound of Deficit Round Robin. Over any run in which an owner that
    starts idle takes every turn from the queue, what it is charged is covered
    by one quantum for each visit, its credit at the start, and at most the cap.
  */
  lemma ByteBound(s: Sched, run: seq<Move>, w: int)
    requires Sound(s) && Run(s, run) && w !in s.outstanding && Queueing(s, run, w)
    ensures TotalVisits(s, run, w) >= 0
    ensures TotalCharged(s, run, w) <= Deficit(s, w) + TotalVisits(s, run, w) * s.quantum + Cap(s.quantum)
  {
    var visits, charged := TotalVisits(s, run, w), TotalCharged(s, run, w);
    RunPays(s, run, w);
    Balance(s, run, w, s.quantum);
    RunsAreSound(s, run);
    DeficitBounds(End(s, run), w);
    TimesIsProduct(visits, s.quantum);
  }

  lemma DeficitBounds(s: Sched, w: int)
    requires Inv(s)
    ensures -Cap(s.quantum) <= Deficit(s, w) <= Cap(s.quantum)
  {
    assert w in s.flows ==> FlowOk(s.flows[w], s.quantum);
  }
}
