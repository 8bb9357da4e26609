/**
  The tile-read scheduler as a value: who holds a permit, who waits, what each
  flow owes, and what one acquire, release or cancel makes of it.

  A release is written here in closed form, without the rotating loop of the
  source: the loop itself is the method TileReadAdmission.SelectNextWaiter,
  proved in Admission.dfy to compute exactly this.
*/
module Drr {
  import opened Arithmetic

  /** What the scheduler remembers of one owner: byte credit and last cost. */
  datatype Flow = Flow(deficit: int, lastCost: int)

  datatype Reason = DuplicateOwner | QueueFull

  datatype Acquired = Granted | Queued | Rejected(reason: Reason)

  /** How a release ends. The last three are the exceptions the source can throw. */
  datatype Released =
    | Returned
    | Transferred(next: int)
    | NotOutstanding
    | CostOverflow
    | TooManyPermits

  datatype Sched = Sched(
    maxInFlight: nat, maxWaiters: nat, quantum: int,
    queue: seq<int>, outstanding: set<int>, leases: set<int>, flows: map<int, Flow>,
    inFlight: int, highWatermark: int, turns: nat, releases: nat,
    rejected: nat, duplicates: nat, charged: nat, visits: nat)

  /** The largest cost charged and the largest credit kept: MAX_COST_MULTIPLIER (4) quanta. */
  function Cap(quantum: int): int { 4 * quantum }

  function Start(maxInFlight: nat, maxWaiters: nat, quantum: int): Sched {
    Sched(maxInFlight, maxWaiters, quantum, [], {}, {}, map[], 0, 0, 0, 0, 0, 0, 0, 0)
  }

  function FlowOf(flows: map<int, Flow>, o: int, quantum: int): Flow {
    if o in flows then flows[o] else Flow(0, quantum)
  }

  /** k * amount, for k that is not negative; a recursion the solver unfolds one addition at a time. */
  function Times(k: int, amount: int): (r: int)
    ensures amount >= 0 ==> r >= 0
  {
    if k <= 0 then 0 else amount + Times(k - 1, amount)
  }

  /** The capped credit of a flow after k top-ups of one quantum each. */
  function TopUp(f: Flow, k: int, quantum: int): Flow {
    f.(deficit := Min(Cap(quantum), f.deficit + Times(k, quantum)))
  }

  /** How many visits, each adding one quantum, a waiting flow needs before it can pay for its last cost. */
  function Need(f: Flow, quantum: int): (n: int)
    requires quantum >= 1
    ensures n >= 1
    decreases f.lastCost - f.deficit
  {
    if f.deficit + quantum >= f.lastCost then 1 else 1 + Need(Flow(f.deficit + quantum, f.lastCost), quantum)
  }

  function NeedOf(flows: map<int, Flow>, o: int, quantum: int): (n: int)
    requires quantum >= 1
  {
    Need(FlowOf(flows, o, quantum), quantum)
  }

  /** The first among the first k positions that needs the fewest visits. */
  function Winner(queue: seq<int>, flows: map<int, Flow>, quantum: int, k: nat): (i: nat)
    requires quantum >= 1 && 1 <= k <= |queue|
    ensures i < k
  {
    if k == 1 then 0
    else
      var i := Winner(queue, flows, quantum, k - 1);
      if NeedOf(flows, queue[k - 1], quantum) < NeedOf(flows, queue[i], quantum) then k - 1 else i
  }

  /** Top-ups an owner has had when the loop has done `rounds` full rotations and `p` further visits. */
  function Tops(queue: seq<int>, rounds: int, p: nat, o: int): int
    requires p <= |queue|
  {
    if o in queue[..p] then rounds + 1 else if o in queue then rounds else 0
  }

  function Visited(flows: map<int, Flow>, queue: seq<int>, rounds: int, p: nat, quantum: int): map<int, Flow>
    requires p <= |queue|
  {
    var owners := flows.Keys + set x | x in queue;
    map o | o in owners ::
      TopUp(FlowOf(flows, o, quantum), Tops(queue, rounds, p, o), quantum)
  }

  /** The uncontended top-up of grantAccounting. */
  function GrantTop(f: Flow, quantum: int): Flow {
    if f.deficit < f.lastCost then f.(deficit := Min(Cap(quantum), f.deficit + quantum)) else f
  }

  function Charge(f: Flow, bytes: nat, quantum: int): Flow {
    if bytes == 0 then f
    else
      var cost := Min(bytes, Cap(quantum));
      Flow(Max(f.deficit - cost, -Cap(quantum)), cost)
  }

  function Without(queue: seq<int>, o: int): seq<int> {
    if queue == [] then []
    else if queue[0] == o then queue[1..]
    else [queue[0]] + Without(queue[1..], o)
  }

  // ----- the three operations -----

  function Acquire(s: Sched, o: int): (Sched, Acquired) {
    if o in s.outstanding then
      (s.(duplicates := s.duplicates + 1, rejected := s.rejected + 1), Rejected(DuplicateOwner))
    else
      var flow := FlowOf(s.flows, o, s.quantum);
      if s.inFlight < s.maxInFlight && s.queue == [] then
        (s.(outstanding := s.outstanding + {o}, leases := s.leases + {o},
            flows := s.flows[o := GrantTop(flow, s.quantum)],
            inFlight := s.inFlight + 1, turns := s.turns + 1,
            highWatermark := Max(s.highWatermark, s.inFlight + 1)), Granted)
      else if |s.queue| >= s.maxWaiters then
        (s.(flows := s.flows[o := flow], rejected := s.rejected + 1), Rejected(QueueFull))
      else
        (s.(outstanding := s.outstanding + {o}, flows := s.flows[o := flow], queue := s.queue + [o]), Queued)
  }

  /** The permit passes to position i after so many full rotations; the queue is left rotated around it. */
  function Grant(s: Sched, i: nat, rounds: int): Sched
    requires i < |s.queue|
  {
    s.(queue := s.queue[i + 1..] + s.queue[..i],
       flows := Visited(s.flows, s.queue, rounds, i + 1, s.quantum),
       leases := s.leases + {s.queue[i]},
       turns := s.turns + 1,
       visits := s.visits + Times(rounds, |s.queue|) + i + 1)
  }

  /** Taking the permit back from o and charging it, before anybody else is chosen. */
  function Settle(s: Sched, o: int, bytes: nat): Sched {
    s.(outstanding := s.outstanding - {o}, leases := s.leases - {o},
       flows := s.flows[o := Charge(FlowOf(s.flows, o, s.quantum), bytes, s.quantum)],
       charged := s.charged + bytes, releases := s.releases + 1)
  }

  /** The permit just taken back goes to the winner, or is free again. */
  function HandOn(t: Sched): (Sched, Released)
    requires t.quantum >= 1
  {
    if t.queue != [] then
      var i := Winner(t.queue, t.flows, t.quantum, |t.queue|);
      (Grant(t, i, NeedOf(t.flows, t.queue[i], t.quantum) - 1), Transferred(t.queue[i]))
    else if t.inFlight - 1 < 0 then (t, TooManyPermits)
    else (t.(inFlight := t.inFlight - 1), Returned)
  }

  function Release(s: Sched, o: int, bytes: nat): (Sched, Released)
    requires s.quantum >= 1
  {
    if o !in s.outstanding then (s, NotOutstanding)
    else if bytes > 0 && Cap(s.quantum) > MAX_INT then
      // multiplyExact throws after the owner was removed and before the permit is passed on
      (s.(outstanding := s.outstanding - {o}, leases := s.leases - {o},
          flows := s.flows[o := FlowOf(s.flows, o, s.quantum)]), CostOverflow)
    else
      HandOn(Settle(s, o, bytes))
  }

  function Cancel(s: Sched, o: int): Sched {
    s.(queue := Without(s.queue, o), outstanding := s.outstanding - {o})
  }
}
