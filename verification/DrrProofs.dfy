/**
  What every acquire, release and cancel keeps, and what the closed form of a
  release means: how many visits a flow needs, and how many the loop makes.
*/
module DrrProofs {
  import opened Arithmetic
  import opened Drr

  // ----- visits -----

  /** A flow whose credit and cost are within the bounds the scheduler keeps. */
  ghost predicate FlowOk(f: Flow, quantum: int) {
    && -4 * quantum <= f.deficit <= 4 * quantum
    && 1 <= f.lastCost <= 4 * quantum
  }

  lemma {:induction false} TimesIsProduct(k: nat, amount: int)
    ensures Times(k, amount) == k * amount
  {
    if k > 0 { TimesIsProduct(k - 1, amount); }
  }

  /** Need is the least number of top-ups, at least one, after which the flow can pay. */
  lemma {:induction false} NeedIsLeast(f: Flow, quantum: int, k: int)
    requires quantum >= 1 && k >= 1 && f.lastCost <= 4 * quantum
    ensures TopUp(f, k, quantum).deficit >= f.lastCost <==> Need(f, quantum) <= k
    decreases f.lastCost - f.deficit
  {
    if f.deficit + quantum >= f.lastCost {
    } else if k > 1 {
      NeedIsLeast(Flow(f.deficit + quantum, f.lastCost), quantum, k - 1);
    } else {
      assert Times(1, quantum) == quantum;
    }
  }

  /** Need in closed form: the missing bytes in quanta, rounded up, and at least one. */
  lemma NeedIsCeiling(f: Flow, quantum: int)
    requires quantum >= 1 && FlowOk(f, quantum)
    ensures Need(f, quantum) == Max(1, -((f.deficit - f.lastCost) / quantum))
  {
    NeedIsBetween(f, quantum);
    CeilingIs(f.deficit - f.lastCost, quantum, Need(f, quantum));
  }

  lemma NeedIsBetween(f: Flow, quantum: int)
    requires quantum >= 1 && FlowOk(f, quantum)
    ensures var n := Need(f, quantum);
      f.lastCost - f.deficit <= n * quantum && (n > 1 ==> (n - 1) * quantum < f.lastCost - f.deficit)
  {
    var n := Need(f, quantum);
    NeedIsLeast(f, quantum, n);
    TimesIsProduct(n, quantum);
    if n > 1 {
      NeedIsLeast(f, quantum, n - 1);
      TimesIsProduct(n - 1, quantum);
    }
  }

  lemma CeilingIs(a: int, q: int, n: int)
    requires q >= 1 && n >= 1 && -a <= n * q && (n > 1 ==> (n - 1) * q < -a)
    ensures n == Max(1, -(a / q))
  {
    if n > 1 {
      assert (-n) * q == -(n * q) && (-n + 1) * q == -((n - 1) * q);
      QuotientIs(a, q, -n);
    } else {
      assert a < (a / q + 1) * q;
      NotNegative(a / q + 1, q);
    }
  }

  lemma QuotientIs(a: int, q: int, m: int)
    requires q >= 1 && m * q <= a < (m + 1) * q
    ensures a / q == m
  {
    var d := a / q;
    assert d * q <= a < d * q + q;
    assert (m + 1) * q == m * q + q;
    SmallMultiple(m - d, q);
  }

  lemma NotNegative(e: int, q: int)
    requires q >= 1 && e * q > -q
    ensures e >= 0
  {
  }

  lemma NeedAtMostEight(f: Flow, quantum: int)
    requires quantum >= 1 && FlowOk(f, quantum)
    ensures 1 <= Need(f, quantum) <= 8
  {
    NeedIsLeast(f, quantum, 8);
    TimesIsProduct(8, quantum);
  }

  /** g is f after k visits that it could not pay for: k uncapped quanta richer, k visits nearer its grant. */
  ghost predicate Waited(f: Flow, g: Flow, quantum: int, k: int)
    requires quantum >= 1
  {
    && 0 <= k < Need(f, quantum)
    && g == Flow(f.deficit + Times(k, quantum), f.lastCost)
    && Need(g, quantum) == Need(f, quantum) - k
    && FlowOk(g, quantum)
  }

  lemma {:induction false} NeedAfterTopUps(f: Flow, quantum: int, k: int)
    requires quantum >= 1 && FlowOk(f, quantum) && 0 <= k < Need(f, quantum)
    ensures Waited(f, TopUp(f, k, quantum), quantum, k)
    decreases k
  {
    if k > 0 {
      NeedAfterTopUps(Flow(f.deficit + quantum, f.lastCost), quantum, k - 1);
    }
  }

  /** Position i needs the fewest visits, and no earlier position needs as few. */
  ghost predicate IsWinner(queue: seq<int>, flows: map<int, Flow>, quantum: int, i: int)
    requires quantum >= 1
  {
    && 0 <= i < |queue|
    && (forall j | 0 <= j < |queue| :: NeedOf(flows, queue[i], quantum) <= NeedOf(flows, queue[j], quantum))
    && (forall j | 0 <= j < i :: NeedOf(flows, queue[i], quantum) < NeedOf(flows, queue[j], quantum))
  }

  lemma {:induction false} WinnerWins(queue: seq<int>, flows: map<int, Flow>, quantum: int, k: nat)
    requires quantum >= 1 && 1 <= k <= |queue|
    ensures IsWinner(queue[..k], flows, quantum, Winner(queue, flows, quantum, k))
  {
    if k > 1 { WinnerWins(queue, flows, quantum, k - 1); }
  }

  lemma WinnerIsUnique(queue: seq<int>, flows: map<int, Flow>, quantum: int, i: int, j: int)
    requires quantum >= 1
    requires IsWinner(queue, flows, quantum, i) && IsWinner(queue, flows, quantum, j)
    ensures i == j
  {
    var needs := seq(|queue|, k requires 0 <= k < |queue| => NeedOf(flows, queue[k], quantum));
    assert needs[i] <= needs[j] <= needs[i];
    assert !(i < j) && !(j < i);
  }

  // ----- the invariant -----

  ghost predicate Distinct(q: seq<int>) {
    forall i, j | 0 <= i < j < |q| :: q[i] != q[j]
  }

  function Elements(q: seq<int>): set<int> { set x | x in q }

  /** Owners: everyone outstanding holds exactly one permit or one place in the queue. */
  ghost predicate OwnersOk(s: Sched) {
    && Distinct(s.queue)
    && s.outstanding == s.leases + Elements(s.queue)
    && s.leases !! Elements(s.queue)
    && s.outstanding <= s.flows.Keys
  }

  /** Permits: never more than allowed, none idle while somebody waits, none lost. */
  ghost predicate PermitsOk(s: Sched) {
    && s.inFlight == |s.leases| <= s.highWatermark <= s.maxInFlight
    && s.turns == s.releases + s.inFlight
    && |s.queue| <= s.maxWaiters
    && (s.queue != [] ==> s.inFlight == s.maxInFlight)
  }

  ghost predicate FlowsOk(s: Sched) {
    forall o | o in s.flows :: FlowOk(s.flows[o], s.quantum)
  }

  ghost predicate Inv(s: Sched) {
    && s.maxInFlight >= 1 && s.maxWaiters >= 1 && s.quantum >= 1
    && OwnersOk(s) && PermitsOk(s) && FlowsOk(s)
  }

  lemma StartInv(maxInFlight: nat, maxWaiters: nat, quantum: int)
    requires maxInFlight >= 1 && maxWaiters >= 1 && quantum >= 1
    ensures Inv(Start(maxInFlight, maxWaiters, quantum))
  {
  }

  lemma AcquireKeepsInv(s: Sched, o: int)
    requires Inv(s)
    ensures Inv(Acquire(s, o).0)
  {
    AcquireKeepsOwners(s, o);
    AcquireKeepsPermits(s, o);
    AcquireKeepsFlows(s, o);
  }

  lemma AcquireKeepsOwners(s: Sched, o: int)
    requires OwnersOk(s)
    ensures OwnersOk(Acquire(s, o).0)
  {
    if o !in s.outstanding {
      assert o !in s.leases && o !in s.queue;
      QueueGrows(s.queue, o);
    }
  }

  lemma AcquireKeepsPermits(s: Sched, o: int)
    requires s.leases <= s.outstanding && PermitsOk(s)
    ensures PermitsOk(Acquire(s, o).0)
  {
    if o !in s.outstanding {
      assert o !in s.leases;
      assert |s.leases + {o}| == |s.leases| + 1;
    }
  }

  lemma QueueGrows(q: seq<int>, o: int)
    requires Distinct(q) && o !in q
    ensures Distinct(q + [o]) && Elements(q + [o]) == Elements(q) + {o}
  {
  }

  lemma AcquireKeepsFlows(s: Sched, o: int)
    requires s.quantum >= 1 && FlowsOk(s)
    ensures FlowsOk(Acquire(s, o).0)
  {
  }

  /** Exactly when an owner is served at once, told to wait, or turned away. */
  lemma AcquireOutcome(s: Sched, o: int)
    requires Inv(s)
    ensures
      var out := Acquire(s, o).1;
      && (out == Rejected(DuplicateOwner) <==> o in s.outstanding)
      && (out == Granted <==> o !in s.outstanding && s.inFlight < s.maxInFlight)
      && (out == Rejected(QueueFull) <==>
          (o !in s.outstanding && s.inFlight == s.maxInFlight && |s.queue| == s.maxWaiters))
      && (out == Queued <==>
          (o !in s.outstanding && s.inFlight == s.maxInFlight && |s.queue| < s.maxWaiters))
    ensures
      var (u, out) := Acquire(s, o);
      && u.outstanding == s.outstanding + (if out.Rejected? then {} else {o})
      && u.leases == s.leases + (if out == Granted then {o} else {})
      && u.queue == s.queue + (if out == Queued then [o] else [])
  {
  }

  // ----- cancel -----

  lemma {:induction false} WithoutFacts(q: seq<int>, o: int)
    requires Distinct(q)
    ensures Distinct(Without(q, o)) && Elements(Without(q, o)) == Elements(q) - {o}
    ensures |Without(q, o)| <= |q|
  {
    if q != [] {
      assert Elements(q) == {q[0]} + Elements(q[1..]);
      assert q[0] !in q[1..];
      if q[0] != o {
        WithoutFacts(q[1..], o);
        var r := Without(q[1..], o);
        assert q[0] !in Elements(r);
        assert q[0] !in r;
        assert Elements([q[0]] + r) == {q[0]} + Elements(r);
      }
    }
  }

  lemma CancelKeepsInv(s: Sched, o: int)
    requires Inv(s) && o in s.queue
    ensures Inv(Cancel(s, o))
    ensures Cancel(s, o).leases == s.leases
  {
    WithoutFacts(s.queue, o);
    assert o in Elements(s.queue);
  }

  // ----- release -----

  lemma ChargeKeepsFlow(f: Flow, bytes: nat, quantum: int)
    requires quantum >= 1 && FlowOk(f, quantum)
    ensures FlowOk(Charge(f, bytes, quantum), quantum)
  {
  }

  /** Settling breaks only one thing: the permit is for a moment in nobody's hands. */
  ghost predicate Settled(t: Sched) {
    && t.maxInFlight >= 1 && t.maxWaiters >= 1 && t.quantum >= 1
    && OwnersOk(t) && FlowsOk(t)
    && t.inFlight == |t.leases| + 1 <= t.highWatermark <= t.maxInFlight
    && t.turns + 1 == t.releases + t.inFlight
    && |t.queue| <= t.maxWaiters
    && (t.queue != [] ==> t.inFlight == t.maxInFlight)
  }

  lemma SettleSettles(s: Sched, o: int, bytes: nat)
    requires Inv(s) && o in s.leases
    ensures Settled(Settle(s, o, bytes))
  {
    ChargeKeepsFlow(FlowOf(s.flows, o, s.quantum), bytes, s.quantum);
    assert o !in Elements(s.queue);
  }

  lemma RotatedElements(q: seq<int>, i: int)
    requires 0 <= i < |q| && Distinct(q)
    ensures Distinct(q[i + 1..] + q[..i])
    ensures Elements(q[i + 1..] + q[..i]) == Elements(q) - {q[i]}
  {
    var r := q[i + 1..] + q[..i];
    forall x | x in Elements(q) - {q[i]} ensures x in r {
      var k :| 0 <= k < |q| && q[k] == x;
      if k < i { assert r[|q| - i - 1 + k] == x; } else { assert r[k - i - 1] == x; }
    }
  }

  /** Position i is the winner, and so many full rotations do not yet let it pay. */
  ghost predicate Wins(t: Sched, i: nat, rounds: int)
    requires t.quantum >= 1
  {
    IsWinner(t.queue, t.flows, t.quantum, i) && rounds + 1 == NeedOf(t.flows, t.queue[i], t.quantum)
  }

  /** An owner that does not wait is not touched by a grant. */
  lemma GrantIdle(t: Sched, i: nat, rounds: int, o: int)
    requires Settled(t) && i < |t.queue| && o in t.flows && o !in t.queue
    ensures o in Grant(t, i, rounds).flows && Grant(t, i, rounds).flows[o] == t.flows[o]
  {
  }

  /** The winner has been visited until, and no longer than, it could pay; it has a lease now, and waits no more. */
  lemma GrantWinner(t: Sched, i: nat, rounds: int)
    requires Settled(t) && Wins(t, i, rounds)
    ensures
      var w := t.queue[i];
      && w in t.flows && w in Grant(t, i, rounds).flows
      && Grant(t, i, rounds).flows[w] == TopUp(t.flows[w], rounds + 1, t.quantum)
      && Grant(t, i, rounds).flows[w].deficit >= t.flows[w].lastCost
      && FlowOk(Grant(t, i, rounds).flows[w], t.quantum)
    ensures Grant(t, i, rounds).leases == t.leases + {t.queue[i]} && t.queue[i] !in t.leases
    ensures t.queue[i] !in Grant(t, i, rounds).queue
  {
    hide Visited;
    assert t.queue[i] in Elements(t.queue);
    VisitedAt(t.flows, t.queue, rounds, i + 1, t.quantum, i);
    TopUpPays(t.flows[t.queue[i]], rounds + 1, t.quantum);
  }

  /** A waiter ahead of the winner gets as many uncapped quanta as the winner needed, and goes to the back in order. */
  lemma GrantAhead(t: Sched, i: nat, rounds: int, j: nat)
    requires Settled(t) && Wins(t, i, rounds) && j < i
    ensures
      var o := t.queue[j];
      && o in t.flows && o in Grant(t, i, rounds).flows
      && Waited(t.flows[o], Grant(t, i, rounds).flows[o], t.quantum, rounds + 1)
    ensures Grant(t, i, rounds).queue[|t.queue| - 1 - i + j] == t.queue[j]
  {
    hide Visited;
    assert t.queue[j] in Elements(t.queue);
    VisitedAt(t.flows, t.queue, rounds, i + 1, t.quantum, j);
    NeedAfterTopUps(t.flows[t.queue[j]], t.quantum, rounds + 1);
  }

  /** A waiter behind the winner gets one quantum less, and comes to the front in order. */
  lemma GrantBehind(t: Sched, i: nat, rounds: int, j: nat)
    requires Settled(t) && Wins(t, i, rounds) && i < j < |t.queue|
    ensures
      var o := t.queue[j];
      && o in t.flows && o in Grant(t, i, rounds).flows
      && Waited(t.flows[o], Grant(t, i, rounds).flows[o], t.quantum, rounds)
    ensures Grant(t, i, rounds).queue[j - i - 1] == t.queue[j]
  {
    hide Visited;
    assert t.queue[j] in Elements(t.queue);
    VisitedAt(t.flows, t.queue, rounds, i + 1, t.quantum, j);
    NeedAfterTopUps(t.flows[t.queue[j]], t.quantum, rounds);
  }

  lemma VisitedAt(flows: map<int, Flow>, queue: seq<int>, rounds: int, p: nat, quantum: int, j: nat)
    requires Distinct(queue) && j < |queue| && p <= |queue|
    ensures
      var visited := Visited(flows, queue, rounds, p, quantum);
      var k := if j < p then rounds + 1 else rounds;
      queue[j] in visited && visited[queue[j]] == TopUp(FlowOf(flows, queue[j], quantum), k, quantum)
  {
    assert j < p <==> queue[j] in queue[..p];
  }

  lemma TopUpPays(f: Flow, n: int, quantum: int)
    requires quantum >= 1 && FlowOk(f, quantum) && Need(f, quantum) <= n
    ensures TopUp(f, n, quantum).deficit >= f.lastCost && FlowOk(TopUp(f, n, quantum), quantum)
  {
    NeedIsLeast(f, quantum, n);
  }

  lemma GrantKeepsFlows(t: Sched, i: nat, rounds: int)
    requires Settled(t) && Wins(t, i, rounds)
    ensures FlowsOk(Grant(t, i, rounds)) && Grant(t, i, rounds).flows.Keys == t.flows.Keys
  {
    var u := Grant(t, i, rounds);
    assert Elements(t.queue) <= t.flows.Keys;
    forall o | o in u.flows ensures FlowOk(u.flows[o], u.quantum) {
      if o !in t.queue {
        GrantIdle(t, i, rounds, o);
      } else {
        var j :| 0 <= j < |t.queue| && t.queue[j] == o;
        if j == i { GrantWinner(t, i, rounds); }
        else if j < i { GrantAhead(t, i, rounds, j); }
        else { GrantBehind(t, i, rounds, j); }
      }
    }
  }

  lemma GrantKeepsOwners(t: Sched, i: nat, rounds: int)
    requires OwnersOk(t) && i < |t.queue| && t.outstanding <= Grant(t, i, rounds).flows.Keys
    ensures OwnersOk(Grant(t, i, rounds)) && t.queue[i] !in t.leases
  {
    hide Visited;
    RotatedElements(t.queue, i);
    assert t.queue[i] in Elements(t.queue);
  }

  lemma GrantKeepsInv(t: Sched, i: nat, rounds: int)
    requires Settled(t) && Wins(t, i, rounds)
    ensures Inv(Grant(t, i, rounds))
  {
    hide FlowsOk, Visited, NeedOf, OwnersOk;
    GrantKeepsFlows(t, i, rounds);
    OutstandingHaveFlows(t);
    GrantKeepsOwners(t, i, rounds);
    assert |t.leases + {t.queue[i]}| == |t.leases| + 1;
  }

  lemma OutstandingHaveFlows(t: Sched)
    requires OwnersOk(t)
    ensures t.outstanding <= t.flows.Keys
  {
  }

  /** Charging this release would overflow the 32-bit product of the source. */
  predicate Overflows(s: Sched, bytes: nat) { bytes > 0 && Cap(s.quantum) > MAX_INT }

  /** Whoever wins is the one the permit is handed to. */
  lemma WinnerIsHandedOn(t: Sched, i: nat, rounds: int)
    requires t.quantum >= 1 && Wins(t, i, rounds)
    ensures HandOn(t) == (Grant(t, i, rounds), Transferred(t.queue[i]))
  {
    WinnerWins(t.queue, t.flows, t.quantum, |t.queue|);
    assert t.queue[..|t.queue|] == t.queue;
    WinnerIsUnique(t.queue, t.flows, t.quantum, i, Winner(t.queue, t.flows, t.quantum, |t.queue|));
  }

  lemma SomebodyWins(t: Sched) returns (i: nat, rounds: int)
    requires t.quantum >= 1 && t.queue != []
    ensures Wins(t, i, rounds)
  {
    i := Winner(t.queue, t.flows, t.quantum, |t.queue|);
    rounds := NeedOf(t.flows, t.queue[i], t.quantum) - 1;
    WinnerWins(t.queue, t.flows, t.quantum, |t.queue|);
    assert t.queue[..|t.queue|] == t.queue;
  }

  /** With somebody waiting, a release settles and then grants to the winner. */
  lemma ReleaseGrants(s: Sched, o: int, bytes: nat) returns (i: nat, rounds: int)
    requires s.quantum >= 1 && o in s.outstanding && !Overflows(s, bytes) && s.queue != []
    ensures Wins(Settle(s, o, bytes), i, rounds)
    ensures Release(s, o, bytes) == (Grant(Settle(s, o, bytes), i, rounds), Transferred(s.queue[i]))
  {
    i, rounds := SomebodyWins(Settle(s, o, bytes));
    WinnerIsHandedOn(Settle(s, o, bytes), i, rounds);
  }

  lemma ReleaseKeeps(s: Sched, o: int, bytes: nat)
    requires Inv(s) && o in s.leases && !Overflows(s, bytes)
    ensures Inv(Release(s, o, bytes).0)
    ensures if s.queue == [] then Release(s, o, bytes).1 == Returned
            else Release(s, o, bytes).1.Transferred? && Release(s, o, bytes).1.next in s.queue
  {
    SettleSettles(s, o, bytes);
    if s.queue != [] {
      var i, rounds := ReleaseGrants(s, o, bytes);
      GrantKeepsInv(Settle(s, o, bytes), i, rounds);
    }
  }

  /**
    Releasing a live permit keeps everything unless the charge overflows; and
    then the permit is gone for good: it counts as in flight and nobody holds it.
  */
  lemma ReleaseKeepsInv(s: Sched, o: int, bytes: nat)
    requires Inv(s) && o in s.leases
    ensures Inv(Release(s, o, bytes).0) <==> !Overflows(s, bytes)
    ensures !Overflows(s, bytes) ==>
              if s.queue == [] then Release(s, o, bytes).1 == Returned
              else Release(s, o, bytes).1.Transferred? && Release(s, o, bytes).1.next in s.queue
    ensures Overflows(s, bytes) ==>
              && Release(s, o, bytes).1 == CostOverflow
              && Release(s, o, bytes).0.inFlight == |Release(s, o, bytes).0.leases| + 1
  {
    if !Overflows(s, bytes) { ReleaseKeeps(s, o, bytes); }
  }

  /**
    Every quantum of 2^29 bytes or more: the one permit there is gets lost, and the next owner queues behind
    nobody.
  */
  lemma PermitCanBeLost(quantum: int)
    requires quantum > 0x1fff_ffff
    ensures var s := Acquire(Start(1, 1, quantum), 7).0;
            var t := Release(s, 7, 1).0;
            Inv(s) && 7 in s.leases && !Inv(t) && t.leases == {} && Acquire(t, 8).1 == Queued
  {
    StartInv(1, 1, quantum);
    AcquireKeepsInv(Start(1, 1, quantum), 7);
    ReleaseKeepsInv(Acquire(Start(1, 1, quantum), 7).0, 7, 1);
  }

  // ----- the loop, visit by visit -----

  /** All the loop needs to know of the waiters and their flows. */
  ghost predicate CanSelect(flows: map<int, Flow>, queue: seq<int>, quantum: int) {
    && quantum >= 1 && Distinct(queue) && Elements(queue) <= flows.Keys
    && forall o | o in flows :: FlowOk(flows[o], quantum)
  }

  lemma InvSelects(s: Sched)
    requires Inv(s)
    ensures CanSelect(s.flows, s.queue, s.quantum)
  {
  }

  lemma VisitedNothing(flows: map<int, Flow>, queue: seq<int>, quantum: int)
    requires CanSelect(flows, queue, quantum)
    ensures Visited(flows, queue, 0, 0, quantum) == flows
  {
  }

  lemma ChargeKeepsSelect(flows: map<int, Flow>, queue: seq<int>, quantum: int, o: int, bytes: nat)
    requires CanSelect(flows, queue, quantum)
    ensures CanSelect(flows[o := Charge(FlowOf(flows, o, quantum), bytes, quantum)], queue, quantum)
  {
    ChargeKeepsFlow(FlowOf(flows, o, quantum), bytes, quantum);
  }

  lemma VisitedNext(flows: map<int, Flow>, queue: seq<int>, rounds: int, p: nat, quantum: int)
    requires Distinct(queue) && p < |queue|
    ensures Visited(flows, queue, rounds, p + 1, quantum)
         == Visited(flows, queue, rounds, p, quantum)
              [queue[p] := TopUp(FlowOf(flows, queue[p], quantum), rounds + 1, quantum)]
  {
    assert queue[..p + 1] == queue[..p] + [queue[p]];
    assert queue[p] in queue;
  }

  lemma VisitedRound(flows: map<int, Flow>, queue: seq<int>, rounds: int, quantum: int)
    ensures Visited(flows, queue, rounds, |queue|, quantum) == Visited(flows, queue, rounds + 1, 0, quantum)
  {
    assert queue[..|queue|] == queue;
  }

  /** Nobody visited so far, in `rounds` full rotations and p further visits, could pay. */
  ghost predicate NobodyPaid(flows: map<int, Flow>, queue: seq<int>, quantum: int, rounds: int, p: nat)
    requires quantum >= 1
  {
    forall j | 0 <= j < |queue| :: NeedOf(flows, queue[j], quantum) > if j < p then rounds + 1 else rounds
  }

  lemma NobodyPaidNext(flows: map<int, Flow>, queue: seq<int>, quantum: int, rounds: int, p: nat)
    requires quantum >= 1 && p < |queue| && NobodyPaid(flows, queue, quantum, rounds, p)
    requires NeedOf(flows, queue[p], quantum) != rounds + 1
    ensures NobodyPaid(flows, queue, quantum, rounds, p + 1)
    ensures p + 1 == |queue| ==> NobodyPaid(flows, queue, quantum, rounds + 1, 0)
  {
  }

  lemma NobodyPaidWins(flows: map<int, Flow>, queue: seq<int>, quantum: int, rounds: int, p: nat)
    requires quantum >= 1 && p < |queue| && NobodyPaid(flows, queue, quantum, rounds, p)
    requires NeedOf(flows, queue[p], quantum) == rounds + 1
    ensures IsWinner(queue, flows, quantum, p)
  {
  }

  /** The visit at position p adds one uncapped quantum, and pays exactly when position p is the winner. */
  lemma VisitPays(f: Flow, quantum: int, rounds: nat)
    requires quantum >= 1 && FlowOk(f, quantum) && Need(f, quantum) > rounds
    ensures
      var before, after := TopUp(f, rounds, quantum), TopUp(f, rounds + 1, quantum);
      && after == before.(deficit := Min(Cap(quantum), before.deficit + quantum))
      && (after.deficit >= after.lastCost <==> Need(f, quantum) == rounds + 1)
  {
    NeedAfterTopUps(f, quantum, rounds);
    NeedIsLeast(f, quantum, rounds + 1);
    TimesIsProduct(rounds, quantum);
    TimesIsProduct(rounds + 1, quantum);
    assert (rounds + 1) * quantum == rounds * quantum + quantum;
  }

  /** The loop after `rounds` full rotations and i further visits, none of which paid. */
  ghost predicate Scan(start: map<int, Flow>, q: seq<int>, quantum: int, flows: map<int, Flow>, rounds: nat, i: nat,
                       visits: int) {
    && CanSelect(start, q, quantum) && i < |q|
    && flows == Visited(start, q, rounds, i, quantum)
    && NobodyPaid(start, q, quantum, rounds, i)
    && visits == Times(rounds, |q|) + i
  }

  /** The loop after one more visit, which paid. */
  ghost predicate Selected(start: map<int, Flow>, q: seq<int>, quantum: int, flows: map<int, Flow>, rounds: nat,
                           i: nat, visits: int) {
    && quantum >= 1 && IsWinner(q, start, quantum, i) && NeedOf(start, q[i], quantum) == rounds + 1
    && flows == Visited(start, q, rounds, i + 1, quantum)
    && visits == Times(rounds, |q|) + i + 1
  }

  /** What one visit reads, writes and decides. */
  function Topped(f: Flow, quantum: int): Flow { f.(deficit := Min(Cap(quantum), f.deficit + quantum)) }

  lemma ScanFlow(start: map<int, Flow>, q: seq<int>, quantum: int, flows: map<int, Flow>, rounds: nat, i: nat,
                 visits: int)
    requires Scan(start, q, quantum, flows, rounds, i, visits)
    ensures q[i] in flows
    ensures flows[q[i] := Topped(flows[q[i]], quantum)] == Visited(start, q, rounds, i + 1, quantum)
    ensures var g := Topped(flows[q[i]], quantum);
            g.deficit >= g.lastCost <==> NeedOf(start, q[i], quantum) == rounds + 1
  {
    assert q[i] in Elements(q);
    VisitedAt(start, q, rounds, i, quantum, i);
    VisitedNext(start, q, rounds, i, quantum);
    VisitPays(start[q[i]], quantum, rounds);
  }

  /** Where the loop stands after one more visit: it has selected, or it scans on. */
  ghost predicate Visits(start: map<int, Flow>, q: seq<int>, quantum: int, flows: map<int, Flow>, rounds: nat,
                         i: nat, visits: int, paid: bool)
    requires i < |q|
  {
    if paid then Selected(start, q, quantum, flows, rounds, i, visits)
    else Scan(start, q, quantum, flows, NextRound(i, |q|, rounds), NextPosition(i, |q|), visits)
  }

  lemma ScanVisit(start: map<int, Flow>, q: seq<int>, quantum: int, flows: map<int, Flow>, rounds: nat, i: nat,
                  visits: int)
    requires Scan(start, q, quantum, flows, rounds, i, visits)
    ensures q[i] in flows
    ensures
      var g := Topped(flows[q[i]], quantum);
      Visits(start, q, quantum, flows[q[i] := g], rounds, i, visits + 1, g.deficit >= g.lastCost)
  {
    ScanFlow(start, q, quantum, flows, rounds, i, visits);
    if NeedOf(start, q[i], quantum) == rounds + 1 {
      NobodyPaidWins(start, q, quantum, rounds, i);
    } else {
      ScanOn(start, q, quantum, Visited(start, q, rounds, i + 1, quantum), rounds, i, visits);
    }
  }

  lemma ScanOn(start: map<int, Flow>, q: seq<int>, quantum: int, flows: map<int, Flow>, rounds: nat, i: nat,
               visits: int)
    requires CanSelect(start, q, quantum) && i < |q|
    requires NobodyPaid(start, q, quantum, rounds, i) && NeedOf(start, q[i], quantum) != rounds + 1
    requires flows == Visited(start, q, rounds, i + 1, quantum) && visits == Times(rounds, |q|) + i
    ensures Scan(start, q, quantum, flows, NextRound(i, |q|, rounds), NextPosition(i, |q|), visits + 1)
  {
    hide Visited, NeedOf, NobodyPaid;
    NobodyPaidNext(start, q, quantum, rounds, i);
    VisitedRound(start, q, rounds, quantum);
  }

  /** A scheduler in which the loop has selected is the one the permit was handed on in. */
  lemma SelectedIsHandedOn(t: Sched, u: Sched, i: nat, rounds: nat)
    requires t.quantum >= 1 && Selected(t.flows, t.queue, t.quantum, u.flows, rounds, i, u.visits - t.visits)
    requires u.queue == t.queue[i + 1..] + t.queue[..i] && u.leases == t.leases + {t.queue[i]} && u.turns == t.turns + 1
    requires u == t.(queue := u.queue, flows := u.flows, leases := u.leases, turns := u.turns, visits := u.visits)
    ensures HandOn(t) == (u, Transferred(t.queue[i]))
  {
    FieldsOfGrant(t, u, i, rounds);
    WinnerIsHandedOn(t, i, rounds);
  }

  lemma FieldsOfGrant(t: Sched, u: Sched, i: nat, rounds: int)
    requires i < |t.queue|
    requires u.queue == t.queue[i + 1..] + t.queue[..i] && u.leases == t.leases + {t.queue[i]} && u.turns == t.turns + 1
    requires u.flows == Visited(t.flows, t.queue, rounds, i + 1, t.quantum)
    requires u.visits == t.visits + Times(rounds, |t.queue|) + i + 1
    requires u == t.(queue := u.queue, flows := u.flows, leases := u.leases, turns := u.turns, visits := u.visits)
    ensures u == Grant(t, i, rounds)
  {
  }

  /** The deque rotated so that position i is at its head. */
  function Rotated<T>(all: seq<T>, i: nat): seq<T>
    requires i < |all|
  {
    all[i..] + all[..i]
  }

  function NextPosition(i: nat, size: nat): nat { if i + 1 == size then 0 else i + 1 }

  function NextRound(i: nat, size: nat, rounds: nat): nat { if i + 1 == size then rounds + 1 else rounds }

  lemma RotateNext<T>(all: seq<T>, i: nat)
    requires i < |all|
    ensures
      var ws := Rotated(all, i);
      && |ws| == |all| && ws[0] == all[i] && ws[1..] == all[i + 1..] + all[..i]
      && ws[1..] + [ws[0]] == Rotated(all, NextPosition(i, |all|))
  {
    assert all[..i] + [all[i]] == all[..i + 1];
    assert Rotated(all, i)[1..] == all[i + 1..] + all[..i];
  }

  // ----- how long the loop runs -----

  /** One release makes at most 7 visits to every waiter and one more. */
  lemma VisitsOfOneRelease(t: Sched, i: nat, rounds: int)
    requires CanSelect(t.flows, t.queue, t.quantum) && Wins(t, i, rounds)
    ensures t.visits < Grant(t, i, rounds).visits <= t.visits + 7 * |t.queue| + 1
  {
    assert t.queue[0] in Elements(t.queue) && t.queue[i] in Elements(t.queue);
    NeedAtMostEight(t.flows[t.queue[0]], t.quantum);
    NeedAtMostEight(t.flows[t.queue[i]], t.quantum);
    FirstRoundWins(t, i, rounds);
    VisitCount(rounds + 1, i, |t.queue|);
  }

  lemma FirstRoundWins(t: Sched, i: nat, rounds: int)
    requires t.quantum >= 1 && Wins(t, i, rounds) && NeedOf(t.flows, t.queue[0], t.quantum) <= 8
    ensures rounds == 7 ==> i == 0
  {
  }

  lemma VisitCount(n: int, i: int, size: int)
    requires 1 <= n <= 8 && 0 <= i < size && (n == 8 ==> i == 0)
    ensures 0 < Times(n - 1, size) + i + 1 <= 7 * size + 1
  {
    TimesIsProduct(n - 1, size);
    if n < 8 { assert (n - 1) * size <= 6 * size; }
  }
}
