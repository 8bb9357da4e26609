/**
  The decoding worker: a bounded queue in front of at most two decodes in
  progress, with a minimum epoch per connection.

  A decode runs in three steps of the event loop: it starts, it ends with an
  answer, and the finally of the pump counts it out.
*/
module Workers {
  import opened Pyramid

  const MAX_ACTIVE := 2
  const MAX_QUEUED_JOBS := 32
  const MAX_QUEUED_BYTES := 8 * 1024 * 1024
  const NEVER := 9_007_199_254_740_991

  /** What a decode request carries; the job is named after connectionId and the delivery. */
  datatype Task = Task(connectionId: int, header: Header)

  datatype Request =
    | Decode(task: Task)
    | Invalidate(connectionId: int, minEpoch: int)
    | ResetConnection(connectionId: int)
    | Configure(failFirst: bool)

  datatype Response = Decoded(task: Task, bitmap: int) | Discarded(task: Task) | Failed(task: Task)

  /** How createImageBitmap ends. */
  datatype Outcome = Image(bitmap: int, width: int, height: int) | Throws

  /** decoding holds the jobs awaiting their bitmap, closing counts those answered but not yet counted out. */
  datatype Worker = Worker(
    queue: seq<Task>, decoding: seq<Task>, closing: nat, active: int, queuedBytes: int,
    minimum: map<int, int>, failFirst: bool, posted: seq<Response>, received: seq<Task>)

  const IDLE := Worker([], [], 0, 0, 0, map[], false, [], [])

  function MinimumOf(minimum: map<int, int>, connectionId: int): int {
    if connectionId in minimum then minimum[connectionId] else 0
  }

  predicate Stale(minimum: map<int, int>, t: Task) { t.header.epoch < MinimumOf(minimum, t.connectionId) }

  /** The synchronous part of decode. */
  function Begin(w: Worker, t: Task): Worker {
    if Stale(w.minimum, t) then w.(closing := w.closing + 1, posted := w.posted + [Discarded(t)])
    else if w.failFirst && t.header.retry.None? then
      w.(failFirst := false, closing := w.closing + 1, posted := w.posted + [Failed(t)])
    else w.(decoding := w.decoding + [t])
  }

  /** The job at the head leaves the queue and its decode begins. */
  function BeginHead(w: Worker): (u: Worker)
    requires w.queue != []
    ensures u.queue == w.queue[1..]
  {
    var t := w.queue[0];
    Begin(w.(queue := w.queue[1..], queuedBytes := w.queuedBytes - t.header.payloadBytes, active := w.active + 1), t)
  }

  function Pump(w: Worker): Worker
    decreases |w.queue|
  {
    if w.active >= MAX_ACTIVE || w.queue == [] then w
    else
      Pump(BeginHead(w))
  }

  predicate Doomed(t: Task, connectionId: int, minEpoch: int, all: bool) {
    t.connectionId == connectionId && (all || t.header.epoch < minEpoch)
  }

  function Kept(queue: seq<Task>, connectionId: int, minEpoch: int, all: bool): seq<Task> {
    if queue == [] then []
    else
      var rest := Kept(queue[1..], connectionId, minEpoch, all);
      if Doomed(queue[0], connectionId, minEpoch, all) then rest else [queue[0]] + rest
  }

  /** The answers to what is thrown out, the last in the queue first. */
  function Thrown(queue: seq<Task>, connectionId: int, minEpoch: int, all: bool): seq<Response> {
    if queue == [] then []
    else
      var rest := Thrown(queue[1..], connectionId, minEpoch, all);
      if Doomed(queue[0], connectionId, minEpoch, all) then rest + [Discarded(queue[0])] else rest
  }

  function Payload(queue: seq<Task>): int {
    if queue == [] then 0 else queue[0].header.payloadBytes + Payload(queue[1..])
  }

  function DiscardQueued(w: Worker, connectionId: int, minEpoch: int, all: bool): Worker {
    var kept := Kept(w.queue, connectionId, minEpoch, all);
    w.(queue := kept, queuedBytes := w.queuedBytes - Payload(w.queue) + Payload(kept),
       posted := w.posted + Thrown(w.queue, connectionId, minEpoch, all))
  }

  function Enqueue(w: Worker, t: Task): Worker {
    w.(queue := w.queue + [t], queuedBytes := w.queuedBytes + t.header.payloadBytes)
  }

  predicate Full(w: Worker, t: Task) {
    |w.queue| >= MAX_QUEUED_JOBS || w.queuedBytes + t.header.payloadBytes > MAX_QUEUED_BYTES
  }

  function Admit(w: Worker, t: Task): Worker {
    if Full(w, t) then
      w.(posted := w.posted + [Failed(t)])
    else if Stale(w.minimum, t) then w.(posted := w.posted + [Discarded(t)])
    else Pump(Enqueue(w, t))
  }

  function Handle(w: Worker, r: Request): Worker {
    match r
    case Configure(failFirst) => w.(failFirst := failFirst)
    case Decode(t) => Admit(w.(received := w.received + [t]), t)
    case Invalidate(connectionId, minEpoch) =>
      DiscardQueued(w.(minimum := w.minimum[connectionId := minEpoch]), connectionId, minEpoch, false)
    case ResetConnection(connectionId) =>
      DiscardQueued(w.(minimum := w.minimum[connectionId := NEVER]), connectionId, NEVER, true)
  }

  function Answer(minimum: map<int, int>, t: Task, o: Outcome): Response {
    if o.Throws? || o.width != t.header.w || o.height != t.header.h then Failed(t)
    else if Stale(minimum, t) then Discarded(t)
    else Decoded(t, o.bitmap)
  }

  /** The decode at position i has its bitmap, or has thrown. */
  function DecodeEnds(w: Worker, i: nat, o: Outcome): Worker
    requires i < |w.decoding|
  {
    w.(decoding := w.decoding[..i] + w.decoding[i + 1..], closing := w.closing + 1,
       posted := w.posted + [Answer(w.minimum, w.decoding[i], o)])
  }

  function Finally(w: Worker): Worker
    requires w.closing > 0
  {
    Pump(w.(closing := w.closing - 1, active := w.active - 1))
  }

  // ----- what the worker keeps -----

  function Count(s: seq<Task>, t: Task): nat {
    if s == [] then 0 else (if s[0] == t then 1 else 0) + Count(s[1..], t)
  }

  function Answers(posted: seq<Response>, t: Task): nat {
    if posted == [] then 0 else (if posted[0].task == t then 1 else 0) + Answers(posted[1..], t)
  }

  /** However often t was requested: each request is queued, being decoded, or answered. */
  ghost predicate Accounted(w: Worker, t: Task) {
    Count(w.received, t) == Count(w.queue, t) + Count(w.decoding, t) + Answers(w.posted, t)
  }

  ghost predicate Bounded(w: Worker) {
    w.active == |w.decoding| + w.closing && w.active <= MAX_ACTIVE && |w.queue| <= MAX_QUEUED_JOBS &&
    w.queuedBytes == Payload(w.queue) && w.queuedBytes <= MAX_QUEUED_BYTES
  }

  ghost predicate Positive(queue: seq<Task>) {
    forall i | 0 <= i < |queue| :: queue[i].header.payloadBytes >= 0
  }

  /** No job in the queue is below its connection's minimum. */
  ghost predicate NoneStale(minimum: map<int, int>, queue: seq<Task>) {
    forall i | 0 <= i < |queue| :: !Stale(minimum, queue[i])
  }

  ghost predicate Steady(w: Worker) { Bounded(w) && Positive(w.queue) && NoneStale(w.minimum, w.queue) }

  /** Nothing waits while a decode could start. */
  ghost predicate Busy(w: Worker) { w.queue != [] ==> w.active == MAX_ACTIVE }

  ghost predicate Inv(w: Worker) { Steady(w) && Busy(w) }

  lemma {:induction false} CountPush(s: seq<Task>, t: Task, x: Task)
    ensures Count(s + [x], t) == Count(s, t) + (if x == t then 1 else 0)
    decreases |s|
  {
    if s == [] {
      assert [] + [x] == [x];
    } else {
      assert (s + [x])[1..] == s[1..] + [x] && (s + [x])[0] == s[0];
      CountPush(s[1..], t, x);
    }
  }

  lemma {:induction false} CountRemove(s: seq<Task>, t: Task, i: nat)
    requires i < |s|
    ensures Count(s, t) == Count(s[..i] + s[i + 1..], t) + (if s[i] == t then 1 else 0)
    decreases |s|
  {
    if i == 0 {
      assert s[..0] + s[1..] == s[1..];
    } else {
      var r := s[..i] + s[i + 1..];
      assert r[0] == s[0] && r[1..] == s[1..][..i - 1] + s[1..][i..];
      CountRemove(s[1..], t, i - 1);
    }
  }

  lemma {:induction false} AnswersConcat(a: seq<Response>, b: seq<Response>, t: Task)
    ensures Answers(a + b, t) == Answers(a, t) + Answers(b, t)
    decreases |a|
  {
    if a == [] {
      assert a + b == b;
    } else {
      assert (a + b)[0] == a[0] && (a + b)[1..] == a[1..] + b;
      AnswersConcat(a[1..], b, t);
    }
  }

  lemma AnswersPush(posted: seq<Response>, r: Response, t: Task)
    ensures Answers(posted + [r], t) == Answers(posted, t) + (if r.task == t then 1 else 0)
  {
    AnswersConcat(posted, [r], t);
    assert [r][1..] == [];
  }

  lemma {:induction false} PayloadNotNegative(queue: seq<Task>)
    requires Positive(queue)
    ensures Payload(queue) >= 0
    decreases |queue|
  {
    if queue != [] { PayloadNotNegative(queue[1..]); }
  }

  lemma {:induction false} PayloadPush(queue: seq<Task>, t: Task)
    ensures Payload(queue + [t]) == Payload(queue) + t.header.payloadBytes
    decreases |queue|
  {
    if queue == [] {
      assert [] + [t] == [t];
    } else {
      assert (queue + [t])[1..] == queue[1..] + [t] && (queue + [t])[0] == queue[0];
      PayloadPush(queue[1..], t);
    }
  }

  lemma BeginKeepsAccounts(w: Worker, t: Task)
    requires w.queue != []
    ensures Accounted(w, t) ==> Accounted(BeginHead(w), t)
    ensures BeginHead(w).received == w.received
  {
    var head := w.queue[0];
    AnswersPush(w.posted, Discarded(head), t);
    AnswersPush(w.posted, Failed(head), t);
    CountPush(w.decoding, t, head);
  }

  lemma BeginKeepsSteady(w: Worker)
    requires Steady(w) && w.queue != [] && w.active < MAX_ACTIVE
    ensures Steady(BeginHead(w))
  {
    PayloadNotNegative(w.queue[1..]);
    assert !Stale(w.minimum, w.queue[0]);
  }

  /** The check before createImageBitmap never finds a job out of date: the queue holds none. */
  lemma QueuedJobsAreCurrent(w: Worker)
    requires Steady(w) && w.queue != []
    ensures BeginHead(w).posted == w.posted || (w.failFirst && BeginHead(w).posted == w.posted + [Failed(w.queue[0])])
  {
    assert !Stale(w.minimum, w.queue[0]);
  }

  lemma {:induction false} PumpKeepsAccounts(w: Worker, t: Task)
    requires Accounted(w, t)
    ensures Accounted(Pump(w), t)
    decreases |w.queue|
  {
    if w.active < MAX_ACTIVE && w.queue != [] {
      BeginKeepsAccounts(w, t);
      PumpKeepsAccounts(BeginHead(w), t);
    }
  }

  lemma {:induction false} PumpSettles(w: Worker)
    requires Steady(w)
    ensures Inv(Pump(w))
    decreases |w.queue|
  {
    if w.active < MAX_ACTIVE && w.queue != [] {
      BeginKeepsSteady(w);
      PumpSettles(BeginHead(w));
    }
  }

  lemma EnqueueKeepsSteady(w: Worker, t: Task)
    requires Steady(w) && t.header.payloadBytes >= 0 && !Full(w, t) && !Stale(w.minimum, t)
    ensures Steady(Enqueue(w, t))
  {
    PayloadPush(w.queue, t);
  }

  lemma AdmitKeepsAccounts(w: Worker, x: Task, t: Task)
    requires Accounted(w, t)
    ensures Accounted(Admit(w.(received := w.received + [x]), x), t)
  {
    AnswersPush(w.posted, Failed(x), t);
    AnswersPush(w.posted, Discarded(x), t);
    CountPush(w.received, t, x);
    CountPush(w.queue, t, x);
    var u := w.(received := w.received + [x]);
    if !Full(u, x) && !Stale(u.minimum, x) { PumpKeepsAccounts(Enqueue(u, x), t); }
  }

  lemma AdmitKeepsInv(w: Worker, t: Task)
    requires Inv(w) && t.header.payloadBytes >= 0
    ensures Inv(Admit(w, t))
  {
    if !Full(w, t) && !Stale(w.minimum, t) {
      EnqueueKeepsSteady(w, t);
      PumpSettles(Enqueue(w, t));
    }
  }

  lemma {:induction false} DiscardCounts(queue: seq<Task>, connectionId: int, minEpoch: int, all: bool, t: Task)
    ensures Count(queue, t) == Count(Kept(queue, connectionId, minEpoch, all), t)
                               + Answers(Thrown(queue, connectionId, minEpoch, all), t)
    decreases |queue|
  {
    if queue != [] {
      DiscardCounts(queue[1..], connectionId, minEpoch, all, t);
      AnswersPush(Thrown(queue[1..], connectionId, minEpoch, all), Discarded(queue[0]), t);
    }
  }

  lemma {:induction false} DiscardShrinks(queue: seq<Task>, connectionId: int, minEpoch: int, all: bool)
    requires Positive(queue)
    ensures var kept := Kept(queue, connectionId, minEpoch, all);
            |kept| <= |queue| && Positive(kept) && Payload(kept) <= Payload(queue)
    decreases |queue|
  {
    if queue != [] { DiscardShrinks(queue[1..], connectionId, minEpoch, all); }
  }

  lemma {:induction false} KeptAreCurrent(minimum: map<int, int>, queue: seq<Task>, connectionId: int, minEpoch: int,
                                          all: bool)
    requires NoneStale(minimum, queue) && (all ==> minEpoch == NEVER)
    ensures NoneStale(minimum[connectionId := minEpoch], Kept(queue, connectionId, minEpoch, all))
    decreases |queue|
  {
    if queue != [] {
      KeptAreCurrent(minimum, queue[1..], connectionId, minEpoch, all);
      assert !Stale(minimum, queue[0]);
    }
  }

  lemma DiscardKeepsInv(w: Worker, connectionId: int, minEpoch: int, all: bool)
    requires Inv(w)
    requires all ==> minEpoch == NEVER
    ensures Inv(DiscardQueued(w.(minimum := w.minimum[connectionId := minEpoch]), connectionId, minEpoch, all))
  {
    DiscardShrinks(w.queue, connectionId, minEpoch, all);
    KeptAreCurrent(w.minimum, w.queue, connectionId, minEpoch, all);
  }

  lemma DiscardKeepsAccounts(w: Worker, connectionId: int, minEpoch: int, all: bool, t: Task)
    requires Accounted(w, t)
    ensures Accounted(DiscardQueued(w, connectionId, minEpoch, all), t)
  {
    DiscardCounts(w.queue, connectionId, minEpoch, all, t);
    AnswersConcat(w.posted, Thrown(w.queue, connectionId, minEpoch, all), t);
  }

  /** Any message, at any moment. */
  lemma HandleKeepsInv(w: Worker, r: Request)
    requires Inv(w)
    requires r.Decode? ==> r.task.header.payloadBytes >= 0
    ensures Inv(Handle(w, r))
  {
    match r
    case Configure(_) =>
    case Decode(x) => AdmitKeepsInv(w.(received := w.received + [x]), x);
    case Invalidate(connectionId, minEpoch) => DiscardKeepsInv(w, connectionId, minEpoch, false);
    case ResetConnection(connectionId) => DiscardKeepsInv(w, connectionId, NEVER, true);
  }

  lemma HandleKeepsAccounts(w: Worker, r: Request, t: Task)
    requires Accounted(w, t)
    ensures Accounted(Handle(w, r), t)
  {
    match r
    case Configure(_) =>
    case Decode(x) => AdmitKeepsAccounts(w, x, t);
    case Invalidate(connectionId, minEpoch) =>
      DiscardKeepsAccounts(w.(minimum := w.minimum[connectionId := minEpoch]), connectionId, minEpoch, false, t);
    case ResetConnection(connectionId) =>
      DiscardKeepsAccounts(w.(minimum := w.minimum[connectionId := NEVER]), connectionId, NEVER, true, t);
  }

  lemma DecodeEndsKeeps(w: Worker, i: nat, o: Outcome, t: Task)
    requires Inv(w) && Accounted(w, t) && i < |w.decoding|
    ensures Inv(DecodeEnds(w, i, o)) && Accounted(DecodeEnds(w, i, o), t)
  {
    AnswersPush(w.posted, Answer(w.minimum, w.decoding[i], o), t);
    CountRemove(w.decoding, t, i);
  }

  lemma FinallyKeeps(w: Worker, t: Task)
    requires Inv(w) && Accounted(w, t) && w.closing > 0
    ensures Inv(Finally(w)) && Accounted(Finally(w), t)
  {
    var u := w.(closing := w.closing - 1, active := w.active - 1);
    PumpKeepsAccounts(u, t);
    PumpSettles(u);
  }

  // ----- runs -----

  datatype Event = Message(r: Request) | Ends(i: nat, o: Outcome) | CountsOut

  ghost predicate Enabled(w: Worker, e: Event) {
    match e
    case Message(r) => r.Decode? ==> r.task.header.payloadBytes >= 0
    case Ends(i, _) => i < |w.decoding|
    case CountsOut => w.closing > 0
  }

  function Step(w: Worker, e: Event): Worker
    requires e.Ends? ==> e.i < |w.decoding|
    requires e.CountsOut? ==> w.closing > 0
  {
    match e
    case Message(r) => Handle(w, r)
    case Ends(i, o) => DecodeEnds(w, i, o)
    case CountsOut => Finally(w)
  }

  datatype Move = Move(e: Event, w: Worker)

  ghost predicate Run(w: Worker, run: seq<Move>)
    decreases |run|
  {
    run == [] || (Enabled(w, run[0].e) && run[0].w == Step(w, run[0].e) && Run(run[0].w, run[1..]))
  }

  function End(w: Worker, run: seq<Move>): Worker {
    if run == [] then w else run[|run| - 1].w
  }

  lemma StepKeeps(w: Worker, e: Event, t: Task)
    requires Inv(w) && Accounted(w, t) && Enabled(w, e)
    ensures Inv(Step(w, e)) && Accounted(Step(w, e), t)
  {
    match e
    case Message(r) =>
      HandleKeepsInv(w, r);
      HandleKeepsAccounts(w, r, t);
    case Ends(i, o) => DecodeEndsKeeps(w, i, o, t);
    case CountsOut => FinallyKeeps(w, t);
  }

  lemma {:induction false} RunsKeep(w: Worker, run: seq<Move>, t: Task)
    requires Inv(w) && Accounted(w, t) && Run(w, run)
    ensures Inv(End(w, run)) && Accounted(End(w, run), t)
    decreases |run|
  {
    if run != [] {
      StepKeeps(w, run[0].e, t);
      RunsKeep(run[0].w, run[1..], t);
    }
  }

  /** Every request is answered exactly once: at most once at any time, and once each when no decode is in progress. */
  lemma AnswersOnce(run: seq<Move>, t: Task)
    requires Run(IDLE, run)
    ensures var w := End(IDLE, run);
            Answers(w.posted, t) <= Count(w.received, t) &&
            (w.active == 0 ==> Answers(w.posted, t) == Count(w.received, t))
  {
    RunsKeep(IDLE, run, t);
  }

  /** Messages aside, each step brings the worker nearer to having answered everything. */
  function Left(w: Worker): nat { 3 * |w.queue| + 2 * |w.decoding| + w.closing }

  lemma {:induction false} PumpLeaves(w: Worker)
    ensures Left(Pump(w)) <= Left(w)
    decreases |w.queue|
  {
    if w.active < MAX_ACTIVE && w.queue != [] { PumpLeaves(BeginHead(w)); }
  }

  lemma WorkRunsOut(w: Worker, e: Event)
    requires Enabled(w, e) && !e.Message?
    ensures Left(Step(w, e)) < Left(w)
  {
    if e.CountsOut? { PumpLeaves(w.(closing := w.closing - 1, active := w.active - 1)); }
  }

  // ----- what is posted -----

  /** What one step posts, after what was posted before it. */
  ghost predicate Posts(before: seq<Response>, after: seq<Response>) {
    before <= after && forall i | |before| <= i < |after| :: !after[i].Decoded?
  }

  lemma {:induction false} PumpPostsNoBitmap(w: Worker)
    ensures Posts(w.posted, Pump(w).posted) && Pump(w).minimum == w.minimum
    decreases |w.queue|
  {
    if w.active < MAX_ACTIVE && w.queue != [] {
      PumpPostsNoBitmap(BeginHead(w));
    }
  }

  lemma {:induction false} ThrownAreDiscards(queue: seq<Task>, connectionId: int, minEpoch: int, all: bool, i: nat)
    requires i < |Thrown(queue, connectionId, minEpoch, all)|
    ensures Thrown(queue, connectionId, minEpoch, all)[i].Discarded?
    decreases |queue|
  {
    if i < |Thrown(queue[1..], connectionId, minEpoch, all)| {
      ThrownAreDiscards(queue[1..], connectionId, minEpoch, all, i);
    }
  }

  lemma DiscardPostsNoBitmap(w: Worker, connectionId: int, minEpoch: int, all: bool)
    ensures Posts(w.posted, DiscardQueued(w, connectionId, minEpoch, all).posted)
  {
    forall i: nat | i < |Thrown(w.queue, connectionId, minEpoch, all)|
      ensures Thrown(w.queue, connectionId, minEpoch, all)[i].Discarded?
    {
      ThrownAreDiscards(w.queue, connectionId, minEpoch, all, i);
    }
  }

  lemma MessagePostsNoBitmap(w: Worker, r: Request)
    ensures Posts(w.posted, Handle(w, r).posted)
  {
    match r
    case Configure(_) =>
    case Decode(t) => PumpPostsNoBitmap(Enqueue(w.(received := w.received + [t]), t));
    case Invalidate(connectionId, minEpoch) =>
      DiscardPostsNoBitmap(w.(minimum := w.minimum[connectionId := minEpoch]), connectionId, minEpoch, false);
    case ResetConnection(connectionId) =>
      DiscardPostsNoBitmap(w.(minimum := w.minimum[connectionId := NEVER]), connectionId, NEVER, true);
  }

  /** A decoded answer is never below the minimum its connection has at the moment it is posted. */
  lemma DecodedIsFresh(w: Worker, e: Event, i: nat)
    requires Enabled(w, e)
    requires |w.posted| <= i < |Step(w, e).posted| && Step(w, e).posted[i].Decoded?
    ensures !Stale(Step(w, e).minimum, Step(w, e).posted[i].task)
  {
    match e
    case Ends(_, _) =>
    case CountsOut => PumpPostsNoBitmap(w.(closing := w.closing - 1, active := w.active - 1));
    case Message(r) => MessagePostsNoBitmap(w, r);
  }

  // ----- what one step does to the two logs -----

  lemma {:induction false} PumpReceivesNothing(w: Worker)
    ensures Pump(w).received == w.received
    decreases |w.queue|
  {
    if w.active < MAX_ACTIVE && w.queue != [] { PumpReceivesNothing(BeginHead(w)); }
  }

  lemma HandleReceives(w: Worker, r: Request)
    ensures Handle(w, r).received == w.received + (if r.Decode? then [r.task] else [])
  {
    if r.Decode? { PumpReceivesNothing(Enqueue(w.(received := w.received + [r.task]), r.task)); }
  }

  lemma StepLogs(w: Worker, e: Event)
    requires Enabled(w, e)
    ensures w.posted <= Step(w, e).posted
    ensures Step(w, e).received == w.received + (if e.Message? && e.r.Decode? then [e.r.task] else [])
  {
    match e
    case Message(r) =>
      HandleReceives(w, r);
      MessagePostsNoBitmap(w, r);
    case Ends(_, _) =>
    case CountsOut =>
      PumpReceivesNothing(w.(closing := w.closing - 1, active := w.active - 1));
      PumpPostsNoBitmap(w.(closing := w.closing - 1, active := w.active - 1));
  }

  // ----- the worker itself -----

  /** The jobs from index on have been gone over: what is left of the queue, what was posted, what the bytes came to. */
  ghost predicate GoneOver(w: Worker, index: int, connectionId: int, minEpoch: int, all: bool,
                           queue: seq<Task>, posted: seq<Response>, queuedBytes: int) {
    0 <= index <= |w.queue| &&
    var rest := w.queue[index..];
    queue == w.queue[..index] + Kept(rest, connectionId, minEpoch, all) &&
    posted == w.posted + Thrown(rest, connectionId, minEpoch, all) &&
    queuedBytes == w.queuedBytes - Payload(rest) + Payload(Kept(rest, connectionId, minEpoch, all))
  }

  lemma GoOverOne(w: Worker, index: int, connectionId: int, minEpoch: int, all: bool,
                  queue: seq<Task>, posted: seq<Response>, queuedBytes: int)
    requires index >= 0 && GoneOver(w, index + 1, connectionId, minEpoch, all, queue, posted, queuedBytes)
    ensures index < |queue| && queue[index] == w.queue[index]
    ensures if Doomed(w.queue[index], connectionId, minEpoch, all)
            then GoneOver(w, index, connectionId, minEpoch, all, queue[..index] + queue[index + 1..],
                          posted + [Discarded(w.queue[index])], queuedBytes - w.queue[index].header.payloadBytes)
            else GoneOver(w, index, connectionId, minEpoch, all, queue, posted, queuedBytes)
  {
    var jobs := w.queue;
    var kept := Kept(jobs[index + 1..], connectionId, minEpoch, all);
    assert jobs[index..][0] == jobs[index] && jobs[index..][1..] == jobs[index + 1..];
    assert queue[..index] == jobs[..index] && queue[index + 1..] == kept;
    assert queue == jobs[..index] + ([jobs[index]] + kept);
  }

  /** Every request is accounted for. */
  ghost predicate AllAccounted(w: Worker) { forall t {:trigger Count(w.received, t)} :: Accounted(w, t) }

  /** All but one request for x, which is neither queued nor being decoded nor answered. */
  ghost predicate Owes(w: Worker, x: Task) {
    forall t {:trigger Count(w.received, t)} ::
                Count(w.received, t) ==
                Count(w.queue, t) + Count(w.decoding, t) + Answers(w.posted, t) + if t == x then 1 else 0
  }

  lemma RequestIsOwed(w: Worker, x: Task)
    requires AllAccounted(w)
    ensures Owes(w.(received := w.received + [x]), x)
  {
    forall t { CountPush(w.received, t, x); }
  }

  lemma ReceivedKeepsInv(w: Worker, x: Task)
    requires Inv(w)
    ensures Inv(w.(received := w.received + [x]))
  {
  }

  lemma HeadIsOwed(w: Worker)
    requires AllAccounted(w) && w.queue != []
    ensures Owes(w.(queue := w.queue[1..], queuedBytes := w.queuedBytes - w.queue[0].header.payloadBytes,
                    active := w.active + 1), w.queue[0])
  {
  }

  lemma AnswerSettles(w: Worker, u: Worker, r: Response)
    requires Owes(w, r.task)
    requires u.received == w.received && u.queue == w.queue && u.decoding == w.decoding && u.posted == w.posted + [r]
    ensures AllAccounted(u)
  {
    forall t ensures Accounted(u, t) { AnswersPush(w.posted, r, t); }
  }

  lemma DecodingSettles(w: Worker, u: Worker, x: Task)
    requires Owes(w, x)
    requires u.received == w.received && u.queue == w.queue && u.decoding == w.decoding + [x] && u.posted == w.posted
    ensures AllAccounted(u)
  {
    forall t ensures Accounted(u, t) { CountPush(w.decoding, t, x); }
  }

  lemma QueueSettles(w: Worker, u: Worker, x: Task)
    requires Owes(w, x)
    requires u.received == w.received && u.queue == w.queue + [x] && u.decoding == w.decoding && u.posted == w.posted
    ensures AllAccounted(u)
  {
    forall t ensures Accounted(u, t) { CountPush(w.queue, t, x); }
  }

  lemma MessageKeeps(w: Worker, r: Request)
    requires Inv(w) && AllAccounted(w) && (r.Decode? ==> r.task.header.payloadBytes >= 0)
    ensures Inv(Handle(w, r)) && AllAccounted(Handle(w, r))
  {
    HandleKeepsInv(w, r);
    forall t ensures Accounted(Handle(w, r), t) { HandleKeepsAccounts(w, r, t); }
  }

  lemma PumpIsDone(w: Worker)
    requires Steady(w) && (w.active >= MAX_ACTIVE || w.queue == [])
    ensures Inv(w)
  {
  }

  lemma CountOutKeeps(w: Worker)
    requires Inv(w) && AllAccounted(w) && w.closing > 0
    ensures var u := w.(closing := w.closing - 1, active := w.active - 1); Steady(u) && AllAccounted(u)
  {
    var u := w.(closing := w.closing - 1, active := w.active - 1);
    forall t ensures Accounted(u, t) { assert Accounted(w, t); }
  }

  lemma EndKeeps(w: Worker, i: nat, o: Outcome)
    requires Inv(w) && AllAccounted(w) && i < |w.decoding|
    ensures Inv(DecodeEnds(w, i, o)) && AllAccounted(DecodeEnds(w, i, o))
  {
    forall t ensures Accounted(DecodeEnds(w, i, o), t) { DecodeEndsKeeps(w, i, o, t); }
    DecodeEndsKeeps(w, i, o, w.decoding[i]);
  }

  /** decoding, closing and received are what the event loop holds; posted is what has left for the client. */
  class DecodeWorker {
    var queue: seq<Task>
    var minimumEpoch: map<int, int>
    var active: int
    var queuedBytes: int
    var failFirstDecodeOnce: bool
    var posted: seq<Response>
    ghost var decoding: seq<Task>
    ghost var closing: nat
    ghost var received: seq<Task>

    ghost function Model(): Worker
      reads this
    {
      Worker(queue, decoding, closing, active, queuedBytes, minimumEpoch, failFirstDecodeOnce, posted, received)
    }

    /**
      The limits, the byte count and the freshness of the queue; and each request is queued, in progress or
      answered.
    */
    ghost predicate Valid()
      reads this
    {
      Inv(Model()) && AllAccounted(Model())
    }

    constructor ()
      ensures Model() == IDLE && Valid()
    {
      queue, decoding, closing, active, queuedBytes := [], [], 0, 0, 0;
      minimumEpoch, failFirstDecodeOnce, posted, received := map[], false, [], [];
    }

    method OnMessage(message: Request)
      requires Valid() && (message.Decode? ==> message.task.header.payloadBytes >= 0)
      modifies this
      ensures Valid()
      ensures Model() == Handle(old(Model()), message)
    {
      hide Inv, AllAccounted, Owes, Admit, DiscardQueued;
      ghost var before := Model();
      MessageKeeps(before, message);
      match message
      case Configure(failFirst) =>
        failFirstDecodeOnce := failFirst;
      case Decode(task) =>
        received := received + [task];
        RequestIsOwed(before, task);
        ReceivedKeepsInv(before, task);
        OnDecode(task);
      case Invalidate(connectionId, minEpoch) =>
        minimumEpoch := minimumEpoch[connectionId := minEpoch];
        DiscardFromQueue(connectionId, minEpoch, false);
      case ResetConnection(connectionId) =>
        minimumEpoch := minimumEpoch[connectionId := NEVER];
        DiscardFromQueue(connectionId, NEVER, true);
    }

    /** The one request not yet accounted for is queued, started or answered. */
    method OnDecode(task: Task)
      requires Inv(Model()) && Owes(Model(), task) && task.header.payloadBytes >= 0
      modifies this
      ensures Valid()
      ensures Model() == Admit(old(Model()), task)
    {
      hide Count, Answers, Accounted, Pump, Payload, Steady;
      ghost var before := Model();
      AdmitKeepsInv(before, task);
      if |queue| >= MAX_QUEUED_JOBS || queuedBytes + task.header.payloadBytes > MAX_QUEUED_BYTES {
        posted := posted + [Failed(task)];
        AnswerSettles(before, Model(), Failed(task));
        return;
      }
      if task.header.epoch < MinimumOf(minimumEpoch, task.connectionId) {
        posted := posted + [Discarded(task)];
        AnswerSettles(before, Model(), Discarded(task));
        return;
      }
      queue := queue + [task];
      queuedBytes := queuedBytes + task.header.payloadBytes;
      EnqueueKeepsSteady(before, task);
      QueueSettles(before, Model(), task);
      PumpQueue();
    }

    /** From the back of the queue to its front. */
    method DiscardFromQueue(connectionId: int, minEpoch: int, all: bool)
      modifies this
      ensures Model() == DiscardQueued(old(Model()), connectionId, minEpoch, all)
    {
      ghost var w := Model();
      var index := |queue|;
      while index > 0
        invariant GoneOver(w, index, connectionId, minEpoch, all, queue, posted, queuedBytes)
        invariant Model() == w.(queue := queue, posted := posted, queuedBytes := queuedBytes)
      {
        index := index - 1;
        GoOverOne(w, index, connectionId, minEpoch, all, queue, posted, queuedBytes);
        hide GoneOver;
        var job := queue[index];
        if job.connectionId == connectionId && (all || job.header.epoch < minEpoch) {
          queue := queue[..index] + queue[index + 1..];
          queuedBytes := queuedBytes - job.header.payloadBytes;
          posted := posted + [Discarded(job)];
        }
      }
      assert w.queue[0..] == w.queue;
    }

    method PumpQueue()
      requires Steady(Model()) && AllAccounted(Model())
      modifies this
      ensures Valid()
      ensures Model() == Pump(old(Model()))
    {
      hide AllAccounted, Owes, Inv, Steady, Begin;
      while active < MAX_ACTIVE && queue != []
        invariant Steady(Model()) && AllAccounted(Model())
        invariant Pump(Model()) == Pump(old(Model()))
        decreases |queue|
      {
        HeadIsOwed(Model());
        BeginKeepsSteady(Model());
        var job := queue[0];
        queue := queue[1..];
        queuedBytes := queuedBytes - job.header.payloadBytes;
        active := active + 1;
        StartDecode(job);
      }
      PumpIsDone(Model());
    }

    /** decode up to its first await: a job in time is started, unless a failure is asked for. */
    method StartDecode(job: Task)
      requires Owes(Model(), job)
      modifies this
      ensures AllAccounted(Model()) && active - |decoding| - closing == old(active - |decoding| - closing) - 1
      ensures !Stale(minimumEpoch, job) && !old(failFirstDecodeOnce) ==> decoding == old(decoding) + [job]
      ensures Model() == Begin(old(Model()), job)
    {
      hide Count, Answers, Accounted, Owes;
      ghost var before := Model();
      if job.header.epoch < MinimumOf(minimumEpoch, job.connectionId) {
        posted := posted + [Discarded(job)];
        closing := closing + 1;
        AnswerSettles(before, Model(), Discarded(job));
        return;
      }
      if failFirstDecodeOnce && job.header.retry.None? {
        failFirstDecodeOnce := false;
        posted := posted + [Failed(job)];
        closing := closing + 1;
        AnswerSettles(before, Model(), Failed(job));
        return;
      }
      decoding := decoding + [job];
      DecodingSettles(before, Model(), job);
    }

    /** decode from its last await: the bitmap of the job at position i is there, or createImageBitmap has thrown. */
    method EndDecode(ghost i: nat, job: Task, outcome: Outcome)
      requires Valid() && i < |decoding| && decoding[i] == job
      modifies this
      ensures Valid()
      ensures Model() == DecodeEnds(old(Model()), i, outcome)
    {
      hide Inv, AllAccounted;
      EndKeeps(Model(), i, outcome);
      decoding := decoding[..i] + decoding[i + 1..];
      closing := closing + 1;
      match outcome
      case Throws =>
        posted := posted + [Failed(job)];
      case Image(bitmap, width, height) =>
        if width != job.header.w || height != job.header.h {
          posted := posted + [Failed(job)];
          return;
        }
        if job.header.epoch < MinimumOf(minimumEpoch, job.connectionId) {
          posted := posted + [Discarded(job)];
          return;
        }
        posted := posted + [Decoded(job, bitmap)];
    }

    /** The finally of the pump. */
    method CountOut()
      requires Valid() && closing > 0
      modifies this
      ensures Valid()
      ensures Model() == Finally(old(Model()))
    {
      hide Inv, Steady, AllAccounted;
      CountOutKeeps(Model());
      closing := closing - 1;
      active := active - 1;
      PumpQueue();
    }
  }
}
