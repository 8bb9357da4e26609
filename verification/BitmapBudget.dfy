/**
  The byte budget of decoded bitmaps: reservations for tiles being decoded, and
  totals for what the compositor holds.
*/
module Budgets {
  import opened Arithmetic
  import opened Results

  const BITMAP_BUDGET := 64 * 1024 * 1024
  const TRANSIENT_BUDGET := 16 * 1024 * 1024
  const DETAIL_BUDGET := BITMAP_BUDGET - TRANSIENT_BUDGET
  const MAX_SAFE_INTEGER := 9_007_199_254_740_991

  datatype Kind = Context | Detail

  /** A decode job is named after its connection and its delivery. */
  datatype Job = Job(connectionId: int, deliveryId: int)

  datatype Budget = Budget(reservations: map<Job, int>, transient: int, context: int, detail: int)

  const EMPTY_BUDGET := Budget(map[], 0, 0, 0)

  function Reserve(b: Budget, job: Job, bytes: int): (Budget, bool) {
    if bytes > MAX_SAFE_INTEGER || bytes <= 0 || job in b.reservations then (b, false)
    else if b.context + b.transient + bytes > TRANSIENT_BUDGET then (b, false)
    else if b.transient + b.context + b.detail + bytes > BITMAP_BUDGET then (b, false)
    else (b.(reservations := b.reservations[job := bytes], transient := b.transient + bytes), true)
  }

  function Cancel(b: Budget, job: Job): Budget {
    if job !in b.reservations then b
    else b.(reservations := b.reservations - {job}, transient := b.transient - b.reservations[job])
  }

  /** The reservation is gone whatever the answer; None means that it was missing or does not fit. */
  function Commit(b: Budget, job: Job, kind: Kind): (Budget, Option<int>) {
    if job !in b.reservations then (b, None)
    else
      var bytes := b.reservations[job];
      var freed := Cancel(b, job);
      if kind.Context? then
        if b.context + bytes > TRANSIENT_BUDGET then (freed, None)
        else (freed.(context := b.context + bytes), Some(bytes))
      else
        if b.detail + bytes > DETAIL_BUDGET then (freed, None)
        else (freed.(detail := b.detail + bytes), Some(bytes))
  }

  function RemoveStored(b: Budget, kind: Kind, bytes: int): Budget {
    if kind.Context? then b.(context := Max(0, b.context - bytes))
    else b.(detail := Max(0, b.detail - bytes))
  }

  // ----- limits -----

  ghost function Total(m: map<Job, int>): int {
    if m == map[] then 0
    else
      var job :| job in m;
      m[job] + Total(m - {job})
  }

  ghost predicate Within(b: Budget) {
    b.transient == Total(b.reservations) &&
    (forall job | job in b.reservations :: b.reservations[job] > 0) &&
    b.context >= 0 && b.context + b.transient <= TRANSIENT_BUDGET &&
    0 <= b.detail <= DETAIL_BUDGET
  }

  lemma {:induction false} TotalWithout(m: map<Job, int>, job: Job)
    requires job in m
    ensures Total(m) == m[job] + Total(m - {job})
    decreases |m|
  {
    var first :| first in m && Total(m) == m[first] + Total(m - {first});
    if first != job {
      TotalWithout(m - {first}, job);
      TotalWithout(m - {job}, first);
      assert m - {first} - {job} == m - {job} - {first};
    }
  }

  lemma TotalWith(m: map<Job, int>, job: Job, bytes: int)
    requires job !in m
    ensures Total(m[job := bytes]) == bytes + Total(m)
  {
    TotalWithout(m[job := bytes], job);
    assert m[job := bytes] - {job} == m;
  }

  lemma {:induction false} TotalNotNegative(m: map<Job, int>)
    requires forall job | job in m :: m[job] > 0
    ensures Total(m) >= 0
    decreases |m|
  {
    if m != map[] {
      var first :| first in m && Total(m) == m[first] + Total(m - {first});
      TotalNotNegative(m - {first});
    }
  }

  lemma ReserveKeepsWithin(b: Budget, job: Job, bytes: int)
    requires Within(b)
    ensures Within(Reserve(b, job, bytes).0)
  {
    if Reserve(b, job, bytes).1 { TotalWith(b.reservations, job, bytes); }
  }

  lemma CancelKeepsWithin(b: Budget, job: Job)
    requires Within(b)
    ensures Within(Cancel(b, job))
  {
    if job in b.reservations { TotalWithout(b.reservations, job); }
  }

  lemma CommitKeepsWithin(b: Budget, job: Job, kind: Kind)
    requires Within(b)
    ensures Within(Commit(b, job, kind).0)
  {
    if job in b.reservations {
      TotalWithout(b.reservations, job);
      TotalNotNegative(b.reservations - {job});
    }
  }

  lemma RemoveKeepsWithin(b: Budget, kind: Kind, bytes: int)
    requires Within(b) && bytes >= 0
    ensures Within(RemoveStored(b, kind, bytes))
  {
    TotalNotNegative(b.reservations);
  }

  /** All limits at once, and that no more than 64 MiB is ever managed. */
  lemma ManagedIsBounded(b: Budget)
    requires Within(b)
    ensures 0 <= b.transient && b.context + b.transient <= TRANSIENT_BUDGET
    ensures b.transient + b.context + b.detail <= BITMAP_BUDGET
  {
    TotalNotNegative(b.reservations);
  }

  /** The second limit of reserve never decides: a reservation is refused by the first or not at all. */
  lemma ReserveSucceedsIff(b: Budget, job: Job, bytes: int)
    requires Within(b)
    ensures Reserve(b, job, bytes).1 <==>
            0 < bytes && job !in b.reservations && b.context + b.transient + bytes <= TRANSIENT_BUDGET
  {
    TotalNotNegative(b.reservations);
  }

  /** A reserved context commit never fails; a reserved detail commit fails exactly over its own limit. */
  lemma CommitSucceedsIff(b: Budget, job: Job, kind: Kind)
    requires Within(b)
    ensures Commit(b, job, kind).1.Some? <==>
            job in b.reservations && (kind.Context? || b.detail + b.reservations[job] <= DETAIL_BUDGET)
  {
    if job in b.reservations {
      TotalWithout(b.reservations, job);
      TotalNotNegative(b.reservations - {job});
    }
  }

  /** Cancelling several jobs: what they had reserved is given back, in any order. */
  ghost function CancelAll(b: Budget, jobs: set<Job>): Budget {
    b.(reservations := b.reservations - jobs,
       transient := b.transient - Total(b.reservations) + Total(b.reservations - jobs))
  }

  lemma CancelOneMore(b: Budget, jobs: set<Job>, job: Job)
    requires job !in jobs
    ensures Cancel(CancelAll(b, jobs), job) == CancelAll(b, jobs + {job})
  {
    var left := b.reservations - jobs;
    assert b.reservations - (jobs + {job}) == left - {job};
    if job in left { TotalWithout(left, job); } else { assert left - {job} == left; }
  }

  lemma CancelAllKeepsWithin(b: Budget, jobs: set<Job>)
    requires Within(b)
    ensures Within(CancelAll(b, jobs))
  {
    TotalSplits(b.reservations, jobs);
  }

  lemma {:induction false} TotalSplits(m: map<Job, int>, jobs: set<Job>)
    requires forall job | job in m :: m[job] > 0
    ensures Total(m - jobs) <= Total(m)
    decreases |jobs|
  {
    if jobs == {} {
      assert m - jobs == m;
    } else {
      var job :| job in jobs;
      assert m - jobs == (m - {job}) - (jobs - {job});
      TotalSplits(m - {job}, jobs - {job});
      if job in m { TotalWithout(m, job); } else { assert m - {job} == m; }
    }
  }

  // ----- the class -----

  /**
    The budget as an object. Every method keeps Valid(); what it promises of it
    is said of calls that find it so, for the guards do not depend on it.
  */
  class BitmapBudget {
    var reservations: map<Job, int>
    var transientBytes: int
    var contextBytes: int
    var detailBytes: int

    ghost function Model(): Budget
      reads this
    {
      Budget(reservations, transientBytes, contextBytes, detailBytes)
    }

    /** Each limit is kept and the reservations add up: what every method keeps. */
    ghost predicate Valid()
      reads this
    {
      Within(Model())
    }

    constructor ()
      ensures Model() == EMPTY_BUDGET && Valid()
    {
      reservations, transientBytes, contextBytes, detailBytes := map[], 0, 0, 0;
    }

    /** Of the three limits only the one on transient and context bytes ever decides. */
    method ReserveBytes(job: Job, bytes: int) returns (ok: bool)
      modifies this
      ensures (Model(), ok) == Reserve(old(Model()), job, bytes)
      ensures old(Valid()) ==> Valid()
      ensures old(Valid()) ==>
        (ok <==> 0 < bytes && job !in old(reservations) &&
                 old(contextBytes) + old(transientBytes) + bytes <= TRANSIENT_BUDGET)
      ensures old(Valid()) ==>
        Total(reservations) == Total(old(reservations)) + if ok then bytes else 0
    {
      ghost var before := Model();
      if Within(before) {
        ReserveSucceedsIff(before, job, bytes);
        ReserveKeepsWithin(before, job, bytes);
      }
      if bytes > MAX_SAFE_INTEGER || bytes <= 0 || job in reservations { return false; }
      if contextBytes + transientBytes + bytes > TRANSIENT_BUDGET { return false; }
      if transientBytes + contextBytes + detailBytes + bytes > BITMAP_BUDGET { return false; }
      if Within(before) { TotalWith(reservations, job, bytes); }
      reservations := reservations[job := bytes];
      transientBytes := transientBytes + bytes;
      return true;
    }

    /** Gives back exactly what the job had reserved. */
    method CancelJob(job: Job)
      modifies this
      ensures Model() == Cancel(old(Model()), job)
      ensures old(Valid()) ==> Valid()
      ensures job !in reservations
      ensures Total(old(reservations)) ==
              Total(reservations) + if job in old(reservations) then old(reservations)[job] else 0
    {
      ghost var before := Model();
      if Within(before) { CancelKeepsWithin(before, job); }
      if job !in reservations { return; }
      var bytes := reservations[job];
      TotalWithout(reservations, job);
      reservations := reservations - {job};
      transientBytes := transientBytes - bytes;
    }

    /**
      Moves what the job had reserved to the stored bytes of its kind. A reserved
      context commit never fails; a detail commit fails exactly over its own limit.
    */
    method CommitJob(job: Job, kind: Kind) returns (stored: Option<int>)
      modifies this
      ensures (Model(), stored) == Commit(old(Model()), job, kind)
      ensures old(Valid()) ==> Valid()
      ensures job !in reservations
      ensures old(Valid()) ==>
        (stored.Some? <==>
           job in old(reservations) && (kind.Context? || old(detailBytes) + old(reservations)[job] <= DETAIL_BUDGET))
      ensures stored.Some? ==>
        contextBytes + detailBytes + Total(reservations) ==
          old(contextBytes) + old(detailBytes) + Total(old(reservations))
    {
      ghost var before := Model();
      if Within(before) {
        CommitSucceedsIff(before, job, kind);
        CommitKeepsWithin(before, job, kind);
      }
      if job !in reservations { return None; }
      var bytes := reservations[job];
      TotalWithout(reservations, job);
      reservations := reservations - {job};
      transientBytes := transientBytes - bytes;
      if kind.Context? {
        if contextBytes + bytes > TRANSIENT_BUDGET { return None; }
        contextBytes := contextBytes + bytes;
      } else {
        if detailBytes + bytes > DETAIL_BUDGET { return None; }
        detailBytes := detailBytes + bytes;
      }
      return Some(bytes);
    }

    /** Taking off what was stored leaves every limit kept and everything reserved reserved. */
    method RemoveBytes(kind: Kind, bytes: int)
      modifies this
      ensures Model() == RemoveStored(old(Model()), kind, bytes)
      ensures old(Valid()) && bytes >= 0 ==> Valid()
      ensures 0 <= bytes <= (if kind.Context? then old(contextBytes) else old(detailBytes)) ==>
        contextBytes + detailBytes == old(contextBytes) + old(detailBytes) - bytes
    {
      ghost var before := Model();
      if Within(before) && bytes >= 0 { RemoveKeepsWithin(before, kind, bytes); }
      if kind.Context? { contextBytes := Max(0, contextBytes - bytes); }
      else { detailBytes := Max(0, detailBytes - bytes); }
    }

    method Reset()
      modifies this
      ensures Model() == EMPTY_BUDGET && Valid()
    {
      reservations := map[];
      transientBytes, contextBytes, detailBytes := 0, 0, 0;
    }
  }
}
