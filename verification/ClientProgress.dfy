/**
  Left to itself the system of client and worker comes to rest: every step that is not a
  callback of the user or the server lowers one measure, and until it rests there is one.
  Then, for systems that began as a new client and an idle worker, all of it together.
*/
module ClientProgress {
  import opened ClientKinds
  import opened ClientNav
  import opened ClientOrder
  import opened ClientPaint
  import opened ClientSystem
  import opened Clients
  import W = Workers

  // ----- what is still to be done -----

  /** An answer counts 1, a decode to be counted out 1, one in progress 3, a job in the queue 4. */
  function Work(w: W.Worker): nat { 4 * |w.queue| + 3 * |w.decoding| + w.closing + |w.posted| }

  /** The work in the worker and in both channels. */
  function Effort(s: System): int { 5 * (|s.c.pipe.posted| - s.taken) + Work(s.w) - s.heard }

  lemma {:induction false} PumpLowersWork(w: W.Worker)
    ensures Work(W.Pump(w)) <= Work(w)
    decreases |w.queue|
  {
    if w.active < W.MAX_ACTIVE && w.queue != [] { PumpLowersWork(W.BeginHead(w)); }
  }

  lemma {:induction false} DiscardSplits(queue: seq<W.Task>, connectionId: int, minEpoch: int, all: bool)
    ensures |W.Kept(queue, connectionId, minEpoch, all)| + |W.Thrown(queue, connectionId, minEpoch, all)| == |queue|
    decreases |queue|
  {
    if queue != [] { DiscardSplits(queue[1..], connectionId, minEpoch, all); }
  }

  lemma MessageAddsLittleWork(w: W.Worker, r: W.Request)
    ensures Work(W.Handle(w, r)) <= Work(w) + 4
  {
    match r
    case Configure(_) =>
    case Decode(t) => PumpLowersWork(W.Enqueue(w.(received := w.received + [t]), t));
    case Invalidate(connectionId, minEpoch) => DiscardSplits(w.queue, connectionId, minEpoch, false);
    case ResetConnection(connectionId) => DiscardSplits(w.queue, connectionId, W.NEVER, true);
  }

  lemma StepLowersEffort(s: System, e: SystemEvent)
    requires CanHappen(s, e) && !e.ClientActs?
    ensures Effort(After(s, e)) < Effort(s)
  {
    match e
    case RequestTaken => MessageAddsLittleWork(s.w, s.c.pipe.posted[s.taken]);
    case DecodeEnds(_, _) =>
    case DecodeCountedOut => PumpLowersWork(s.w.(closing := s.w.closing - 1, active := s.w.active - 1));
    case AnswerHeard => WorkerTakes(s.c, s.w.posted[s.heard]);
  }

  /** A system that does not rest has a step to take that is no callback. */
  lemma CanGoOn(s: System) returns (e: SystemEvent)
    requires Sound(s) && !Resting(s)
    ensures CanHappen(s, e) && !e.ClientActs?
  {
    if s.taken < |s.c.pipe.posted| { return RequestTaken; }
    if s.heard < |s.w.posted| { return AnswerHeard; }
    return if s.w.closing > 0 then DecodeCountedOut else DecodeEnds(0, W.Throws);
  }

  // ----- runs without callbacks -----

  ghost predicate NoCallbacks(run: seq<SystemMove>)
    decreases |run|
  {
    run == [] || (!run[0].e.ClientActs? && NoCallbacks(run[1..]))
  }

  lemma EffortIsNatural(s: System)
    requires Sound(s)
    ensures Effort(s) >= 0
  {
  }

  lemma QuietStepSameView(s: System, e: SystemEvent)
    requires CanHappen(s, e) && !e.ClientActs?
    ensures After(s, e).c.pipe.link == s.c.pipe.link && OutlineOf(After(s, e).c) == OutlineOf(s.c)
  {
    hide OnWorker, OutlineOf;
    if e.AnswerHeard? {
      WorkerTakes(s.c, s.w.posted[s.heard]);
      WorkerOutline(s.c, s.w.posted[s.heard]);
      AnswersChangeNoOutline(s.c, s.w.posted[s.heard]);
    }
  }

  lemma AnswersChangeNoOutline(c: Client, r: W.Response)
    ensures NextOutline(FrontOf(c), WorkerAnswers(r)) == OutlineOf(c)
  {
  }

  lemma QuietStep(s: System, e: SystemEvent, u: System)
    requires Sound(s) && Follows(s, e, u) && !e.ClientActs?
    ensures Sound(u) && 0 <= Effort(u) < Effort(s)
    ensures u.c.pipe.link == s.c.pipe.link && OutlineOf(u.c) == OutlineOf(s.c)
  {
    hide Sound, CanHappen, After, Effort, OutlineOf;
    StepKeepsSound(s, e);
    StepLowersEffort(s, e);
    QuietStepSameView(s, e);
    EffortIsNatural(u);
  }

  lemma {:induction false} QuietRunsEnd(s: System, run: seq<SystemMove>)
    requires Sound(s) && SystemRun(s, run) && NoCallbacks(run)
    ensures Sound(SystemEnd(s, run)) && |run| + Effort(SystemEnd(s, run)) <= Effort(s)
    ensures SystemEnd(s, run).c.pipe.link == s.c.pipe.link && OutlineOf(SystemEnd(s, run).c) == OutlineOf(s.c)
    decreases |run|
  {
    hide Sound, CanHappen, After, Effort, OutlineOf;
    if run != [] {
      QuietStep(s, run[0].e, run[0].s);
      QuietRunsEnd(run[0].s, run[1..]);
    }
  }

  /** From everywhere there is a way to rest. */
  lemma {:induction false} ComesToRest(s: System) returns (run: seq<SystemMove>)
    requires Sound(s)
    ensures SystemRun(s, run) && NoCallbacks(run) && Resting(SystemEnd(s, run))
    decreases Effort(s)
  {
    hide Sound, CanHappen, After, Resting, Effort;
    if Resting(s) { return []; }
    var e := CanGoOn(s);
    var u := After(s, e);
    QuietStep(s, e, u);
    var rest := ComesToRest(u);
    run := [SystemMove(e, u)] + rest;
    assert run[1..] == rest;
  }

  /** Every tile received is drawn, discarded or failed, nothing is reserved, and what is active was asked for again. */
  ghost predicate AllServed(p: Pipe) {
    p.received == p.drawn + p.discarded + p.failed && p.budget.transient == 0 &&
    forall id | id in p.ledger.active :: p.ledger.active[id].retryExpected
  }

  lemma RestIsServed(s: System)
    requires Sound(s) && Resting(s) && s.c.pipe.link.Open? && s.c.pipe.canvas.Some?
    ensures AllServed(OnFrame(s.c, true).pipe)
  {
    hide Sound, Resting, OnFrame;
    NothingIsStuck(s, 0);
    forall id | id in OnFrame(s.c, true).pipe.ledger.active
      ensures OnFrame(s.c, true).pipe.ledger.active[id].retryExpected
    {
      NothingIsStuck(s, id);
    }
  }

  lemma SameCanvas(c: Client, d: Client)
    requires OutlineOf(c) == OutlineOf(d)
    ensures c.pipe.canvas.Some? == d.pipe.canvas.Some?
  {
  }

  /**
    From any state of client and worker on an open link with a canvas: as long as no callback comes in
    between, only so many steps can happen, in whatever order; however far they have gone, some more of
    them lead to rest; and then one frame leaves nothing undone.
  */
  lemma EverythingIsServed(s: System, run: seq<SystemMove>) returns (more: seq<SystemMove>)
    requires Sound(s) && s.c.pipe.link.Open? && s.c.pipe.canvas.Some?
    requires SystemRun(s, run) && NoCallbacks(run)
    ensures SystemRun(SystemEnd(s, run), more) && NoCallbacks(more) && |run| + |more| <= Effort(s)
    ensures var u := SystemEnd(SystemEnd(s, run), more); Resting(u) && AllServed(OnFrame(u.c, true).pipe)
  {
    hide Sound, Effort, Resting, OutlineOf, AllServed, OnFrame, CanHappen, After;
    QuietRunsEnd(s, run);
    var between := SystemEnd(s, run);
    more := ComesToRest(between);
    QuietRunsEnd(between, more);
    var u := SystemEnd(between, more);
    EffortIsNatural(u);
    SameCanvas(s.c, u.c);
    RestIsServed(u);
  }

  // ----- from a new client and an idle worker -----

  /** Whatever has been done to them since, all that is proved of sound systems holds of the two. */
  lemma SystemReached(c: Client, run: seq<SystemMove>, s: System)
    requires New(c) && SystemRun(Initial(c), run) && s == SystemEnd(Initial(c), run)
    ensures Sound(s) && Ordered(s) && Kinds(s) && AllPlaced(s)
  {
    hide SystemRun, SystemEnd, Sound, Ordered, Kinds, AllPlaced;
    StartIsSound(c);
    StartIsOrdered(c);
    StartKindsOk(c);
    StartIsPlaced(c);
    SystemStaysSound(Initial(c), run);
    SystemStaysOrdered(Initial(c), run);
    SystemKeepsKinds(Initial(c), run);
    SystemKeepsPlaced(Initial(c), run);
  }

  /** So whatever the user and the server have done by now, what has been received can still all be served. */
  lemma ReachedIsServed(c: Client, run: seq<SystemMove>, s: System) returns (more: seq<SystemMove>)
    requires New(c) && SystemRun(Initial(c), run) && s == SystemEnd(Initial(c), run)
    requires s.c.pipe.link.Open? && s.c.pipe.canvas.Some?
    ensures SystemRun(s, more) && NoCallbacks(more) && Resting(SystemEnd(s, more))
    ensures AllServed(OnFrame(SystemEnd(s, more).c, true).pipe)
  {
    hide Sound, Ordered, Kinds, AllPlaced, Resting, AllServed, OnFrame, CanHappen, After, Effort;
    SystemReached(c, run, s);
    assert SystemRun(s, []) && NoCallbacks([]) && SystemEnd(s, []) == s;
    more := EverythingIsServed(s, []);
  }
}
