/**
  The ledger of deliveries: which are active, which were released lately, and
  how often each has been asked for again.
*/
module Ledgers {

  const MAX_RELEASED_HISTORY := 2048
  const MAX_SELECTIVE_RETRIES := 2

  datatype Delivery = Delivery(connectionId: int, retryExpected: bool, retryRequests: nat)

  /** released is a set in the order of insertion. */
  datatype Ledger = Ledger(active: map<int, Delivery>, released: seq<int>)

  const EMPTY_LEDGER := Ledger(map[], [])

  function Register(l: Ledger, id: int, connectionId: int): (Ledger, bool) {
    if id in l.active || id in l.released then (l, false)
    else (l.(active := l.active[id := Delivery(connectionId, false, 0)]), true)
  }

  function AcceptRetransmission(l: Ledger, id: int, connectionId: int): (Ledger, bool) {
    if id !in l.active || l.active[id].connectionId != connectionId || !l.active[id].retryExpected then (l, false)
    else (l.(active := l.active[id := l.active[id].(retryExpected := false)]), true)
  }

  function RequestRetry(l: Ledger, id: int, connectionId: int): (Ledger, bool) {
    if id !in l.active || l.active[id].connectionId != connectionId || l.active[id].retryExpected
       || l.active[id].retryRequests >= MAX_SELECTIVE_RETRIES then (l, false)
    else
      var d := l.active[id];
      (l.(active := l.active[id := d.(retryExpected := true, retryRequests := d.retryRequests + 1)]), true)
  }

  /** Adding to a set that keeps insertion order. */
  function Added(ids: seq<int>, id: int): seq<int> { if id in ids then ids else ids + [id] }

  /** The newest max of a log. */
  function Newest(ids: seq<int>, max: nat): seq<int> {
    if |ids| <= max then ids else ids[|ids| - max..]
  }

  function ReleaseOnce(l: Ledger, id: int, connectionId: int): (Ledger, bool) {
    if id !in l.active || l.active[id].connectionId != connectionId then (l, false)
    else (Ledger(l.active - {id}, Newest(Added(l.released, id), MAX_RELEASED_HISTORY)), true)
  }

  // ----- runs -----

  datatype Event = Registering(id: int) | Accepting(id: int) | Asking(id: int) | Releasing(id: int)

  /** One call, on the ledger of one connection. */
  function Call(l: Ledger, e: Event, connectionId: int): (Ledger, bool) {
    match e
    case Registering(id) => Register(l, id, connectionId)
    case Accepting(id) => AcceptRetransmission(l, id, connectionId)
    case Asking(id) => RequestRetry(l, id, connectionId)
    case Releasing(id) => ReleaseOnce(l, id, connectionId)
  }

  function After(events: seq<Event>, connectionId: int): (l: Ledger) {
    if events == [] then EMPTY_LEDGER
    else Call(After(events[..|events| - 1], connectionId), events[|events| - 1], connectionId).0
  }

  /** Whether the last call of a run answered true. */
  predicate Succeeded(events: seq<Event>, connectionId: int)
    requires events != []
  {
    Call(After(events[..|events| - 1], connectionId), events[|events| - 1], connectionId).1
  }

  /** The terminal releases of a run, in order. */
  function Releases(events: seq<Event>, connectionId: int): seq<int> {
    if events == [] then []
    else
      var before := Releases(events[..|events| - 1], connectionId);
      var e := events[|events| - 1];
      if e.Releasing? && Succeeded(events, connectionId) then before + [e.id] else before
  }

  /** Retry requests sent, and retransmissions accepted, since the last registration of id. */
  datatype Tally = Tally(asked: nat, accepted: nat)

  function TallyOf(events: seq<Event>, connectionId: int, id: int): Tally {
    if events == [] then Tally(0, 0)
    else
      var before := TallyOf(events[..|events| - 1], connectionId, id);
      var e := events[|events| - 1];
      if e.id != id || !Succeeded(events, connectionId) then before
      else match e
        case Registering(_) => Tally(0, 0)
        case Accepting(_) => before.(accepted := before.accepted + 1)
        case Asking(_) => before.(asked := before.asked + 1)
        case Releasing(_) => before
  }

  ghost predicate Apart(log: seq<int>) {
    forall i, j | 0 <= i < j < |log| && log[i] == log[j] :: j - i > MAX_RELEASED_HISTORY
  }

  ghost predicate HistoryOk(l: Ledger, log: seq<int>) {
    l.released == Newest(log, MAX_RELEASED_HISTORY) && Apart(log) &&
    forall id | id in l.active :: id !in l.released
  }

  predicate OwnedBy(l: Ledger, connectionId: int) {
    forall id | id in l.active :: l.active[id].connectionId == connectionId
  }

  /** What the ledger holds of a delivery is what was asked and accepted since it was registered. */
  predicate Remembers(d: Delivery, t: Tally) {
    t.accepted <= t.asked <= MAX_SELECTIVE_RETRIES &&
    d.retryRequests == t.asked && t.asked == t.accepted + if d.retryExpected then 1 else 0
  }

  lemma ReleaseKeepsHistory(l: Ledger, log: seq<int>, id: int, connectionId: int)
    requires HistoryOk(l, log) && id in l.active && l.active[id].connectionId == connectionId
    ensures HistoryOk(ReleaseOnce(l, id, connectionId).0, log + [id])
  {
    var kept := Newest(log, MAX_RELEASED_HISTORY);
    var u := ReleaseOnce(l, id, connectionId).0;
    assert id !in kept;
    assert u.released == Newest(log + [id], MAX_RELEASED_HISTORY);
    forall i | 0 <= i < |log| && |log| - i <= MAX_RELEASED_HISTORY ensures log[i] in kept {
      assert kept[i - (|log| - |kept|)] == log[i];
    }
    forall other | other in u.active ensures other !in u.released {
      assert other in l.active;
    }
  }

  lemma {:induction false} HistoryWindow(events: seq<Event>, connectionId: int)
    ensures HistoryOk(After(events, connectionId), Releases(events, connectionId))
    ensures OwnedBy(After(events, connectionId), connectionId)
    decreases |events|
  {
    if events != [] {
      HistoryWindow(events[..|events| - 1], connectionId);
      var e := events[|events| - 1];
      if e.Releasing? && Succeeded(events, connectionId) {
        ReleaseKeepsHistory(After(events[..|events| - 1], connectionId),
          Releases(events[..|events| - 1], connectionId), e.id, connectionId);
      }
    }
  }

  /**
    The window of 2048: what is active is not in it, it holds the newest 2048 releases, and
    two releases of one delivery have at least 2048 others between them.
  */
  lemma ReleasesAreFarApart(events: seq<Event>, connectionId: int, i: nat, j: nat)
    requires i < j < |Releases(events, connectionId)|
    requires Releases(events, connectionId)[i] == Releases(events, connectionId)[j]
    ensures j - i - 1 >= MAX_RELEASED_HISTORY
    ensures |After(events, connectionId).released| == MAX_RELEASED_HISTORY
  {
    HistoryWindow(events, connectionId);
  }

  /** What the ledger remembers of an active delivery is what happened since it was registered. */
  lemma {:induction false} RetriesAreBounded(events: seq<Event>, connectionId: int, id: int)
    ensures var t := TallyOf(events, connectionId, id);
            t.accepted <= t.asked <= MAX_SELECTIVE_RETRIES &&
            (id in After(events, connectionId).active ==> Remembers(After(events, connectionId).active[id], t))
    decreases |events|
  {
    if events != [] { RetriesAreBounded(events[..|events| - 1], connectionId, id); }
  }

  // ----- the class -----

  /**
    The ledger as an object, with the history of its calls since it was last
    cleared as ghost state. The guards do not depend on Valid(), so what is
    promised of it is said of calls that find it so.
  */
  class DeliveryLedger {
    var active: map<int, Delivery>
    var released: seq<int>

    // All terminal releases in order, and for each active delivery what was asked and accepted.
    ghost var log: seq<int>
    ghost var tallies: map<int, Tally>

    ghost function Model(): Ledger
      reads this
    {
      Ledger(active, released)
    }

    ghost predicate Valid()
      reads this
    {
      HistoryOk(Model(), log) && forall id | id in active :: id in tallies && Remembers(active[id], tallies[id])
    }

    constructor ()
      ensures Model() == EMPTY_LEDGER && Valid()
    {
      active, released := map[], [];
      log, tallies := [], map[];
    }

    /** Turns down exactly the deliveries in hand and those among the newest 2048 released. */
    method RegisterDelivery(id: int, connectionId: int) returns (ok: bool)
      modifies this
      ensures (Model(), ok) == Register(old(Model()), id, connectionId)
      ensures old(Valid()) ==> Valid()
      ensures old(Valid()) ==> (ok <==> id !in old(active) && id !in Newest(old(log), MAX_RELEASED_HISTORY))
      ensures log == old(log) && tallies == if ok then old(tallies)[id := Tally(0, 0)] else old(tallies)
    {
      if id in active || id in released { return false; }
      active := active[id := Delivery(connectionId, false, 0)];
      tallies := tallies[id := Tally(0, 0)];
      return true;
    }

    /** Lets through exactly the deliveries of which one more was asked for than has come. */
    method AcceptRetransmitted(id: int, connectionId: int) returns (ok: bool)
      modifies this
      ensures (Model(), ok) == AcceptRetransmission(old(Model()), id, connectionId)
      ensures old(Valid()) ==> Valid()
      ensures old(Valid()) ==>
        (ok <==> id in old(active) && old(active)[id].connectionId == connectionId &&
                 old(tallies)[id].accepted < old(tallies)[id].asked)
      ensures old(Valid()) && ok ==>
        tallies == old(tallies)[id := old(tallies)[id].(accepted := old(tallies)[id].asked)]
      ensures log == old(log) && (!ok ==> tallies == old(tallies))
    {
      if id !in active || active[id].connectionId != connectionId || !active[id].retryExpected { return false; }
      active := active[id := active[id].(retryExpected := false)];
      if id in tallies { tallies := tallies[id := tallies[id].(accepted := tallies[id].accepted + 1)]; }
      return true;
    }

    /** Asks again exactly when all that was asked for has come, and at most twice. */
    method RequestRetryOf(id: int, connectionId: int) returns (ok: bool)
      modifies this
      ensures (Model(), ok) == RequestRetry(old(Model()), id, connectionId)
      ensures old(Valid()) ==> Valid()
      ensures old(Valid()) ==>
        (ok <==> id in old(active) && old(active)[id].connectionId == connectionId &&
                 old(tallies)[id].accepted == old(tallies)[id].asked < MAX_SELECTIVE_RETRIES)
      ensures old(Valid()) && ok ==>
        tallies == old(tallies)[id := old(tallies)[id].(asked := old(tallies)[id].asked + 1)]
      ensures log == old(log) && (!ok ==> tallies == old(tallies))
    {
      if id !in active { return false; }
      var d := active[id];
      if d.connectionId != connectionId || d.retryExpected || d.retryRequests >= MAX_SELECTIVE_RETRIES { return false; }
      active := active[id := d.(retryExpected := true, retryRequests := d.retryRequests + 1)];
      if id in tallies { tallies := tallies[id := tallies[id].(asked := tallies[id].asked + 1)]; }
      return true;
    }

    /** The sender the source passes in is called by the caller when the answer is true. */
    method ReleaseDelivery(id: int, connectionId: int) returns (ok: bool)
      modifies this
      ensures (Model(), ok) == ReleaseOnce(old(Model()), id, connectionId)
      ensures old(Valid()) ==> Valid()
      ensures log == old(log) + (if ok then [id] else []) && tallies == old(tallies)
    {
      if id !in active || active[id].connectionId != connectionId { return false; }
      if HistoryOk(Model(), log) { ReleaseKeepsHistory(Model(), log, id, connectionId); }
      active := active - {id};
      log := log + [id];
      if id !in released { released := released + [id]; }
      while |released| > MAX_RELEASED_HISTORY
        invariant Newest(released, MAX_RELEASED_HISTORY) == Newest(Added(old(released), id), MAX_RELEASED_HISTORY)
        invariant active == old(active) - {id} && log == old(log) + [id] && tallies == old(tallies)
      {
        released := released[1..];
      }
      return true;
    }

    method Clear()
      modifies this
      ensures Model() == EMPTY_LEDGER && Valid()
    {
      active, released := map[], [];
      log, tallies := [], map[];
    }
  }
}
