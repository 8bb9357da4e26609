/**
  The scheduler as the object the source has: fields updated in place, a deque
  of waiter objects, leases and wait handles that may be used once. Every
  method is proved to compute what Drr.dfy specifies.
*/
module Admission {
  import opened Arithmetic
  import opened Drr
  import opened DrrProofs

  class Waiter {
    const ownerId: int
    var cancelled: bool

    constructor (ownerId: int)
      ensures this.ownerId == ownerId && !cancelled
    {
      this.ownerId := ownerId;
      cancelled := false;
    }
  }

  function Owners(ws: seq<Waiter>): seq<int> {
    seq(|ws|, i requires 0 <= i < |ws| => ws[i].ownerId)
  }

  ghost predicate AllWaiting(ws: seq<Waiter>)
    reads ws
  {
    forall k {:trigger ws[k].cancelled} | 0 <= k < |ws| :: !ws[k].cancelled
  }

  lemma RotationWaits(all: seq<Waiter>, ws: seq<Waiter>, i: nat)
    requires i < |all| && AllWaiting(all) && ws == all[i + 1..] + all[..i]
    ensures AllWaiting(ws) && Owners(ws) == Owners(all)[i + 1..] + Owners(all)[..i]
  {
    forall k | 0 <= k < |ws| ensures !ws[k].cancelled {
      assert !all[if k < |all| - i - 1 then k + i + 1 else k - (|all| - i - 1)].cancelled;
    }
  }

  /** The duplicate is turned away first; otherwise putting the flow on record first makes no difference. */
  lemma AcquireBySteps(s: Sched, o: int)
    ensures if o in s.outstanding then
              Acquire(s, o) ==
              (s.(duplicates := s.duplicates + 1, rejected := s.rejected + 1), Rejected(DuplicateOwner))
            else Acquire(s.(flows := s.flows[o := FlowOf(s.flows, o, s.quantum)]), o) == Acquire(s, o)
  {
    var flow := FlowOf(s.flows, o, s.quantum);
    assert s.flows[o := flow][o := flow] == s.flows[o := flow];
    assert s.flows[o := flow][o := GrantTop(flow, s.quantum)] == s.flows[o := GrantTop(flow, s.quantum)];
  }

  class TileReadAdmission {
    const maxInFlight: nat
    const maxWaiters: nat
    const quantumBytes: int

    var waiters: seq<Waiter>
    var outstandingOwners: set<int>
    var flows: map<int, Flow>
    var inFlight: int
    var highWatermark: int
    var turnsGranted: nat
    var rejected: nat
    var duplicateOwnerRejections: nat
    var chargedBytes: nat
    var drrVisits: nat

    // The unreleased lease of every owner that holds a permit, and how many have been released.
    ghost var live: map<int, Lease>
    ghost var releases: nat

    ghost function Model(): Sched
      reads this
    {
      Sched(maxInFlight, maxWaiters, quantumBytes, Owners(waiters), outstandingOwners, live.Keys, flows,
            inFlight, highWatermark, turnsGranted, releases, rejected, duplicateOwnerRejections, chargedBytes,
            drrVisits)
    }

    /** No queued waiter is cancelled, and each live lease is filed under its own owner. */
    ghost predicate Valid()
      reads this, waiters, live.Values
    {
      && AllWaiting(waiters)
      && (forall o | o in live :: live[o].ownerId == o && live[o].admission == this && !live[o].released)
    }

    /** The three illegal arguments of the source's constructor are reported, not refused. */
    static method Create(maxInFlight: int, maxWaiters: int, quantumBytes: int) returns (made: TileReadAdmission?)
      ensures made == null <==> maxInFlight < 1 || maxWaiters < 1 || quantumBytes < 1
      ensures made != null ==> made.Valid() && made.Model() == Start(maxInFlight, maxWaiters, quantumBytes)
    {
      if maxInFlight < 1 || maxWaiters < 1 || quantumBytes < 1 { return null; }
      made := new TileReadAdmission(maxInFlight, maxWaiters, quantumBytes);
    }

    constructor (maxInFlight: nat, maxWaiters: nat, quantumBytes: int)
      requires maxInFlight >= 1 && maxWaiters >= 1 && quantumBytes >= 1
      ensures Valid() && Model() == Start(maxInFlight, maxWaiters, quantumBytes)
      ensures fresh(this)
    {
      this.maxInFlight := maxInFlight;
      this.maxWaiters := maxWaiters;
      this.quantumBytes := quantumBytes;
      waiters := [];
      outstandingOwners := {};
      flows := map[];
      inFlight, highWatermark := 0, 0;
      turnsGranted, rejected, duplicateOwnerRejections, chargedBytes, drrVisits := 0, 0, 0, 0, 0;
      live := map[];
      releases := 0;
    }

    /** computeIfAbsent on the flow table. */
    method FlowFor(ownerId: int) returns (flow: Flow)
      modifies this`flows
      ensures flow == FlowOf(old(flows), ownerId, quantumBytes)
      ensures flows == old(flows)[ownerId := flow]
    {
      if ownerId !in flows { flows := flows[ownerId := Flow(0, quantumBytes)]; }
      flow := flows[ownerId];
    }

    /** Counts the turn, and tops up a flow that could not pay for it. */
    method GrantAccounting(ownerId: int)
      requires ownerId in flows
      modifies this`turnsGranted, this`flows
      ensures turnsGranted == old(turnsGranted) + 1
      ensures flows == old(flows)[ownerId := GrantTop(old(flows)[ownerId], quantumBytes)]
    {
      turnsGranted := turnsGranted + 1;
      var flow := flows[ownerId];
      if flow.deficit < flow.lastCost {
        flows := flows[ownerId := flow.(deficit := Min(Cap(quantumBytes), flow.deficit + quantumBytes))];
      }
    }

    /** Gives a free permit to an owner whose flow is on record. */
    method GrantNow(ownerId: int) returns (lease: Lease)
      requires Valid() && ownerId in flows
      modifies this`outstandingOwners, this`inFlight, this`flows, this`turnsGranted, this`highWatermark, this`live
      ensures Valid() && fresh(lease) && live == old(live)[ownerId := lease]
      ensures outstandingOwners == old(outstandingOwners) + {ownerId}
      ensures flows == old(flows)[ownerId := GrantTop(old(flows)[ownerId], quantumBytes)]
      ensures inFlight == old(inFlight) + 1 && turnsGranted == old(turnsGranted) + 1
      ensures highWatermark == Max(old(highWatermark), old(inFlight) + 1)
    {
      outstandingOwners := outstandingOwners + {ownerId};
      inFlight := inFlight + 1;
      GrantAccounting(ownerId);
      highWatermark := Max(highWatermark, inFlight);
      lease := new Lease(this, ownerId);
      live := live[ownerId := lease];
    }

    /** Puts an owner at the tail of the queue. */
    method Enqueue(ownerId: int) returns (waitHandle: WaitHandle)
      requires Valid()
      modifies this`outstandingOwners, this`waiters
      ensures Valid()
      ensures fresh(waitHandle) && fresh(waitHandle.waiter) && waitHandle.admission == this && !waitHandle.cancelled
      ensures waiters == old(waiters) + [waitHandle.waiter]
      ensures Model() == old(
        Model().(outstanding := outstandingOwners + {ownerId}, queue := Owners(waiters) + [ownerId]))
    {
      outstandingOwners := outstandingOwners + {ownerId};
      var waiter := new Waiter(ownerId);
      waiters := waiters + [waiter];
      waitHandle := new WaitHandle(this, waiter);
    }

    /** For an owner that is not outstanding and whose flow is on record: a lease, a place in the queue, or neither. */
    method GrantOrQueue(ownerId: int) returns (result: Acquired, lease: Lease?, waitHandle: WaitHandle?)
      requires Valid() && ownerId !in outstandingOwners && ownerId in flows
      modifies this
      ensures Valid()
      ensures Model() == Acquire(old(Model()), ownerId).0 && result == Acquire(old(Model()), ownerId).1
      ensures Acquires(old(live), old(waiters), ownerId, result, lease, waitHandle)
      ensures (lease != null ==> fresh(lease)) && (waitHandle != null ==> fresh(waitHandle) && fresh(waitHandle.waiter))
    {
      hide GrantTop, Distinct;
      lease, waitHandle := null, null;
      if inFlight < maxInFlight && waiters == [] {
        lease := GrantNow(ownerId);
        return Granted, lease, null;
      }
      if |waiters| >= maxWaiters {
        rejected := rejected + 1;
        return Rejected(QueueFull), null, null;
      }
      waitHandle := Enqueue(ownerId);
      return Queued, null, waitHandle;
    }

    /** Live leases change only when one is granted, and the waiters only when one is queued. */
    ghost predicate Acquires(wereLive: map<int, Lease>, wereWaiting: seq<Waiter>, ownerId: int,
                             result: Acquired, lease: Lease?, waitHandle: WaitHandle?)
      reads this, waitHandle
    {
      (lease != null <==> result == Granted) && (waitHandle != null <==> result == Queued) &&
      live == (if lease != null then wereLive[ownerId := lease] else wereLive) &&
      waiters == (if waitHandle != null then wereWaiting + [waitHandle.waiter] else wereWaiting) &&
      (waitHandle != null ==> waitHandle.admission == this && !waitHandle.cancelled)
    }

    method AcquireOrQueue(ownerId: int) returns (result: Acquired, lease: Lease?, waitHandle: WaitHandle?)
      requires Valid()
      modifies this
      ensures Valid() && (old(Inv(Model())) ==> Inv(Model()))
      ensures Model() == Acquire(old(Model()), ownerId).0 && result == Acquire(old(Model()), ownerId).1
      ensures Acquires(old(live), old(waiters), ownerId, result, lease, waitHandle)
      ensures (lease != null ==> fresh(lease)) && (waitHandle != null ==> fresh(waitHandle) && fresh(waitHandle.waiter))
    {
      hide GrantTop, Distinct, Inv, Acquire;
      ghost var before := Model();
      if Inv(before) { AcquireKeepsInv(before, ownerId); }
      AcquireBySteps(before, ownerId);
      if ownerId in outstandingOwners {
        duplicateOwnerRejections := duplicateOwnerRejections + 1;
        rejected := rejected + 1;
        return Rejected(DuplicateOwner), null, null;
      }
      var _ := FlowFor(ownerId);
      result, lease, waitHandle := GrantOrQueue(ownerId);
    }

    /** One visit of the loop: a capped quantum, and the turn if the flow can now pay. */
    method Visit(ownerId: int) returns (paid: bool)
      requires ownerId in flows
      modifies this`flows, this`turnsGranted, this`drrVisits
      ensures var g := Topped(old(flows)[ownerId], quantumBytes);
        flows == old(flows)[ownerId := g] && (paid <==> g.deficit >= g.lastCost)
      ensures drrVisits == old(drrVisits) + 1
      ensures turnsGranted == old(turnsGranted) + if paid then 1 else 0
    {
      drrVisits := drrVisits + 1;
      var flow := FlowFor(ownerId);
      flow := flow.(deficit := Min(Cap(quantumBytes), flow.deficit + quantumBytes));
      flows := flows[ownerId := flow];
      paid := flow.deficit >= flow.lastCost;
      if paid { GrantAccounting(ownerId); }
    }

    /**
      Deficit Round Robin: visits the waiters in turn, and rotates one that
      cannot pay to the tail, until one can. The ghost results say where the
      loop stopped: at position i, after so many full rotations.
    */
    method SelectNextWaiter() returns (next: Waiter?, ghost i: nat, ghost rounds: nat)
      requires AllWaiting(waiters)
      requires CanSelect(flows, Owners(waiters), quantumBytes)
      modifies this`waiters, this`flows, this`turnsGranted, this`drrVisits
      ensures old(waiters) == [] ==>
        && next == null && waiters == [] && flows == old(flows)
        && turnsGranted == old(turnsGranted) && drrVisits == old(drrVisits)
      ensures old(waiters) != [] ==>
        && i < |old(waiters)| && next == old(waiters)[i]
        && waiters == old(waiters)[i + 1..] + old(waiters)[..i]
        && turnsGranted == old(turnsGranted) + 1
        && Selected(old(flows), old(Owners(waiters)), quantumBytes, flows, rounds, i, drrVisits - old(drrVisits))
    {
      i, rounds := 0, 0;
      if waiters == [] { return null, i, rounds; }
      ghost var all, start := waiters, flows;
      ghost var q := Owners(all);
      ghost var visits := 0;
      VisitedNothing(flows, q, quantumBytes);
      while waiters != []
        invariant i < |q| && waiters == Rotated(all, i)
        invariant Scan(start, q, quantumBytes, flows, rounds, i, visits)
        invariant turnsGranted == old(turnsGranted) && drrVisits == old(drrVisits) + visits
        decreases NeedOf(start, q[0], quantumBytes) - rounds, |q| - i
      {
        RotateNext(all, i);
        var candidate := waiters[0];
        waiters := waiters[1..];
        if candidate.cancelled {
          // The source would drop it here; but a cancelled waiter has already left the queue.
          assert false;
        }
        ScanVisit(start, q, quantumBytes, flows, rounds, i, visits);
        visits := visits + 1;
        var paid := Visit(candidate.ownerId);
        if paid { return candidate, i, rounds; }
        waiters := waiters + [candidate];
        i, rounds := NextPosition(i, |q|), NextRound(i, |q|, rounds);
      }
      assert false;
    }

    /** Lines before the selection: takes the owner off the books and charges its flow. */
    method Charge(ownerId: int, actualBytes: nat) returns (overflow: bool)
      modifies this`outstandingOwners, this`flows, this`chargedBytes
      ensures overflow <==> actualBytes > 0 && Cap(quantumBytes) > MAX_INT
      ensures outstandingOwners == old(outstandingOwners) - {ownerId}
      ensures var flow := FlowOf(old(flows), ownerId, quantumBytes);
        flows == old(flows)[ownerId := if overflow then flow else Drr.Charge(flow, actualBytes, quantumBytes)]
      ensures chargedBytes == old(chargedBytes) + if overflow then 0 else actualBytes
    {
      outstandingOwners := outstandingOwners - {ownerId};
      var flow := FlowFor(ownerId);
      if actualBytes > 0 {
        if Cap(quantumBytes) > MAX_INT { return true; }
        var boundedCost := Min(actualBytes, Cap(quantumBytes));
        flow := Flow(flow.deficit - boundedCost, boundedCost);
        if flow.deficit < -Cap(quantumBytes) { flow := flow.(deficit := -Cap(quantumBytes)); }
        flows := flows[ownerId := flow];
        chargedBytes := chargedBytes + actualBytes;
      }
      return false;
    }

    /** The selection and what follows it: the permit goes to the winner, or is free again. */
    method HandOn() returns (outcome: Released, transferred: Lease?)
      requires AllWaiting(waiters) && CanSelect(flows, Owners(waiters), quantumBytes)
      modifies this`waiters, this`flows, this`turnsGranted, this`drrVisits, this`inFlight, this`live
      ensures AllWaiting(waiters)
      ensures Model() == Drr.HandOn(old(Model())).0 && outcome == Drr.HandOn(old(Model())).1
      ensures if outcome.Transferred? then
                && transferred != null && fresh(transferred) && transferred.ownerId == outcome.next
                && transferred.admission == this && !transferred.released
                && live == old(live)[outcome.next := transferred]
              else transferred == null && live == old(live)
    {
      hide CanSelect, Selected, Visited, Winner, NeedOf;
      ghost var before, all := Model(), waiters;
      var next, i, rounds := SelectNextWaiter();
      if next == null {
        inFlight := inFlight - 1;
        if inFlight < 0 {
          inFlight := inFlight + 1;
          return TooManyPermits, null;
        }
        return Returned, null;
      }
      RotationWaits(all, waiters, i);
      transferred := new Lease(this, next.ownerId);
      live := live[next.ownerId := transferred];
      SelectedIsHandedOn(before, Model(), i, rounds);
      return Transferred(next.ownerId), transferred;
    }

    /** The owner's lease is live no more, and the winner's new one is; every other live lease stays. */
    ghost predicate PassedOn(before: map<int, Lease>, ownerId: int, outcome: Released, transferred: Lease?)
      reads this`live, transferred
    {
      if outcome.Transferred? then
        && transferred != null && transferred.ownerId == outcome.next
        && transferred.admission == this && !transferred.released
        && live == (before - {ownerId})[outcome.next := transferred]
      else transferred == null && live == if outcome == NotOutstanding then before else before - {ownerId}
    }

    /** The whole of a release under the lock, and the lease it hands on. */
    method Release(ownerId: int, actualBytes: nat) returns (outcome: Released, transferred: Lease?)
      requires AllWaiting(waiters) && CanSelect(flows, Owners(waiters), quantumBytes)
      modifies this
      ensures AllWaiting(waiters)
      ensures Model() == Drr.Release(old(Model()), ownerId, actualBytes).0
      ensures outcome == Drr.Release(old(Model()), ownerId, actualBytes).1
      ensures PassedOn(old(live), ownerId, outcome, transferred)
      ensures transferred != null ==> fresh(transferred)
    {
      ghost var before := Model();
      if ownerId !in outstandingOwners { return NotOutstanding, null; }
      ChargeKeepsSelect(flows, Owners(waiters), quantumBytes, ownerId, actualBytes);
      live := live - {ownerId};
      var overflow := Charge(ownerId, actualBytes);
      if overflow { return CostOverflow, null; }
      releases := releases + 1;
      assert Model() == Settle(before, ownerId, actualBytes);
      outcome, transferred := HandOn();
    }

    /** Takes a waiter out of the queue; false if it was cancelled before or is no longer there. */
    method CancelWaiter(waiter: Waiter) returns (removed: bool)
      requires AllWaiting(waiters) && Distinct(Owners(waiters))
      modifies this`waiters, this`outstandingOwners, waiter`cancelled
      ensures AllWaiting(waiters) && waiter.cancelled
      ensures removed <==> waiter in old(waiters)
      ensures Model() == if removed then Cancel(old(Model()), waiter.ownerId) else old(Model())
    {
      if waiter.cancelled {
        forall k | 0 <= k < |waiters| ensures waiters[k] != waiter { assert !waiters[k].cancelled; }
        return false;
      }
      waiter.cancelled := true;
      removed := waiter in waiters;
      if removed {
        ghost var before := waiters;
        var k := Find(waiters, waiter);
        waiters := waiters[..k] + waiters[k + 1..];
        outstandingOwners := outstandingOwners - {waiter.ownerId};
        RemovalWaits(before, waiters, k);
      }
    }
  }

  /** Where the deque's remove finds the object. */
  function Find(ws: seq<Waiter>, w: Waiter): (k: nat)
    requires w in ws
    ensures k < |ws| && ws[k] == w && w !in ws[..k]
  {
    if ws[0] == w then 0 else 1 + Find(ws[1..], w)
  }

  lemma RemovalWaits(all: seq<Waiter>, ws: seq<Waiter>, k: nat)
    requires k < |all| && Distinct(Owners(all)) && ws == all[..k] + all[k + 1..]
    requires forall j {:trigger all[j].cancelled} | 0 <= j < |all| && all[j] != all[k] :: !all[j].cancelled
    ensures AllWaiting(ws) && Owners(ws) == Without(Owners(all), all[k].ownerId)
  {
    WithoutAt(Owners(all), k);
    assert Owners(ws) == Owners(all)[..k] + Owners(all)[k + 1..];
    forall i | 0 <= i < |ws| ensures !ws[i].cancelled {
      var j := if i < k then i else i + 1;
      assert ws[i] == all[j] && Owners(all)[j] != Owners(all)[k];
    }
  }

  lemma {:induction false} WithoutAt(q: seq<int>, k: nat)
    requires k < |q| && Distinct(q)
    ensures Without(q, q[k]) == q[..k] + q[k + 1..]
  {
    if k > 0 {
      var rest := q[1..];
      assert rest[k - 1] == q[k] && rest[..k - 1] == q[1..k] && rest[k..] == q[k + 1..];
      WithoutAt(rest, k - 1);
      assert q[..k] == [q[0]] + q[1..k];
    }
  }

  datatype Completion = NegativeBytes | AlreadyReleased | Done(outcome: Released)

  /** A permit in somebody's hands. */
  class Lease {
    const admission: TileReadAdmission
    const ownerId: int
    var released: bool

    constructor (admission: TileReadAdmission, ownerId: int)
      ensures this.admission == admission && this.ownerId == ownerId && !released
    {
      this.admission := admission;
      this.ownerId := ownerId;
      released := false;
    }

    /**
      Completes the turn: charges its bytes and passes the permit on. Only the
      first call does anything. The lease handed on is live, and every other
      live lease stays live, so that all of them can be completed in turn;
      unless the charge overflows, the scheduler's invariants still hold.
    */
    method Complete(actualBytes: int) returns (outcome: Completion, transferred: Lease?)
      requires admission.Valid() && Inv(admission.Model())
      requires !released ==> ownerId in admission.live && admission.live[ownerId] == this
      modifies this, admission
      ensures admission.Valid()
      ensures outcome == NegativeBytes <==> actualBytes < 0
      ensures actualBytes >= 0 ==> released
      ensures actualBytes < 0 || old(released) ==>
        && outcome == (if actualBytes < 0 then NegativeBytes else AlreadyReleased)
        && transferred == null && released == old(released)
        && admission.Model() == old(admission.Model()) && admission.live == old(admission.live)
      ensures actualBytes >= 0 && !old(released) ==>
        && admission.Model() == Drr.Release(old(admission.Model()), ownerId, actualBytes).0
        && outcome == Done(Drr.Release(old(admission.Model()), ownerId, actualBytes).1)
        && admission.PassedOn(old(admission.live), ownerId, outcome.outcome, transferred)
      ensures forall o | o in old(admission.live) && o != ownerId ::
        o in admission.live && admission.live[o] == old(admission.live[o])
      ensures transferred != null ==> fresh(transferred)
      ensures actualBytes < 0 || old(released) || !Overflows(old(admission.Model()), actualBytes) ==>
        Inv(admission.Model())
    {
      hide Inv, Overflows, CanSelect, Drr.Release;
      if actualBytes < 0 { return NegativeBytes, null; }
      if released { return AlreadyReleased, null; }
      ghost var before := admission.Model();
      CompleteSelects(before, ownerId, actualBytes);
      released := true;
      var out;
      out, transferred := admission.Release(ownerId, actualBytes);
      outcome := Done(out);
    }
  }

  /** What completing a turn needs of the invariants, and gives back. */
  lemma CompleteSelects(s: Sched, o: int, bytes: nat)
    requires Inv(s) && o in s.leases
    ensures CanSelect(s.flows, s.queue, s.quantum) && s.quantum >= 1
    ensures !Overflows(s, bytes) ==> Inv(Release(s, o, bytes).0)
    ensures Release(s, o, bytes).1 != NotOutstanding
    ensures Release(s, o, bytes).1.Transferred? ==> Release(s, o, bytes).1.next !in s.leases
  {
    InvSelects(s);
    ReleaseKeepsInv(s, o, bytes);
    if !Overflows(s, bytes) { ReleaseKeeps(s, o, bytes); }
  }

  /** What cancelling a waiter needs of the invariants, and gives back. */
  lemma CancelSelects(ws: seq<Waiter>, s: Sched, w: Waiter)
    requires Inv(s) && s.queue == Owners(ws)
    ensures Distinct(Owners(ws)) && (w in ws ==> Inv(Drr.Cancel(s, w.ownerId)))
  {
    if w in ws {
      var k :| 0 <= k < |ws| && ws[k] == w;
      assert Owners(ws)[k] == w.ownerId;
      CancelKeepsInv(s, w.ownerId);
    }
  }

  class WaitHandle {
    const admission: TileReadAdmission
    const waiter: Waiter
    var cancelled: bool

    constructor (admission: TileReadAdmission, waiter: Waiter)
      ensures this.admission == admission && this.waiter == waiter && !cancelled
    {
      this.admission := admission;
      this.waiter := waiter;
      cancelled := false;
    }

    method Cancel() returns (removed: bool)
      requires admission.Valid() && Inv(admission.Model())
      modifies this, waiter`cancelled, admission`waiters, admission`outstandingOwners
      ensures cancelled && admission.Valid() && Inv(admission.Model())
      ensures removed <==> !old(cancelled) && waiter in old(admission.waiters)
      ensures admission.Model() ==
        if removed then Drr.Cancel(old(admission.Model()), waiter.ownerId) else old(admission.Model())
    {
      hide Drr.Cancel, Inv, Distinct;
      CancelSelects(admission.waiters, admission.Model(), waiter);
      if cancelled { return false; }
      cancelled := true;
      removed := admission.CancelWaiter(waiter);
    }
  }
}
