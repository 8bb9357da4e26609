/**
  The pump that writes a list of buffers to a socket, one outstanding write at
  a time, and reports success or failure once.
*/
module WritePump {
  import opened Arithmetic
  import opened Results

  /**
    queue holds what each buffer has left. writing says that a write is outstanding;
    sink is what the socket has taken so far, the environment's side of the exchange.
  */
  datatype Pump = Pump(
    queue: seq<seq<int>>, done: bool, successes: nat, failures: nat, writing: bool, sink: seq<int>)

  /** Completed carries what the channel reports, null being None; taken is how far the write moved the buffer. */
  datatype Event = Completed(taken: nat, reported: Option<int>) | Failed(taken: nat)

  function Fresh(buffers: seq<seq<int>>): Pump { Pump(buffers, false, 0, 0, false, []) }

  function Trimmed(queue: seq<seq<int>>): seq<seq<int>> {
    if queue != [] && queue[0] == [] then Trimmed(queue[1..]) else queue
  }

  function Succeed(p: Pump): Pump {
    if p.done then p else p.(done := true, successes := p.successes + 1)
  }

  function Fail(p: Pump): Pump {
    if p.done then p else p.(done := true, failures := p.failures + 1)
  }

  function WriteNext(p: Pump): Pump {
    var q := p.(queue := Trimmed(p.queue), writing := false);
    if q.queue == [] then Succeed(q) else q.(writing := true)
  }

  /** The socket takes bytes from the buffer at the head; the write is over. */
  function Take(p: Pump, taken: nat): Pump
    requires p.queue != [] && taken <= |p.queue[0]|
  {
    p.(queue := p.queue[0 := p.queue[0][taken..]], sink := p.sink + p.queue[0][..taken], writing := false)
  }

  /** The channel completes only the write that is outstanding, and takes only bytes the buffer has. */
  ghost predicate Enabled(p: Pump, e: Event) {
    p.writing && p.queue != [] && e.taken <= |p.queue[0]|
  }

  function Handle(p: Pump, e: Event): Pump
    requires p.queue != [] && e.taken <= |p.queue[0]|
  {
    var q := Take(p, e.taken);
    match e
    case Failed(_) => Fail(q)
    case Completed(_, reported) =>
      if reported.None? || reported.value < 0 then Fail(q)
      else if reported.value == 0 && q.queue[0] != [] then q.(writing := true)
      else WriteNext(q)
  }

  // ----- in order, once, and only when everything is out -----

  /**
    What is written and what is left make up the input in order; exactly one report was
    made if the pump is done and none otherwise; success means that everything is out;
    and a pump that is not done always has a write outstanding, on a buffer with bytes left.
  */
  ghost predicate Inv(p: Pump, input: seq<int>) {
    p.sink + Joined(p.queue) == input &&
    p.successes + p.failures == (if p.done then 1 else 0) &&
    (p.successes == 1 ==> p.queue == [] && p.sink == input) &&
    p.writing == !p.done &&
    (p.writing ==> p.queue != [] && p.queue[0] != [])
  }

  lemma {:induction false} TrimmedKeepsBytes(queue: seq<seq<int>>)
    ensures Joined(Trimmed(queue)) == Joined(queue)
    ensures Trimmed(queue) != [] ==> Trimmed(queue)[0] != []
    decreases |queue|
  {
    if queue != [] && queue[0] == [] {
      TrimmedKeepsBytes(queue[1..]);
      assert Joined(queue) == [] + Joined(queue[1..]);
    }
  }

  lemma TakeKeepsBytes(p: Pump, taken: nat)
    requires p.queue != [] && taken <= |p.queue[0]|
    ensures Take(p, taken).sink + Joined(Take(p, taken).queue) == p.sink + Joined(p.queue)
  {
    var q := Take(p, taken);
    var rest := Joined(p.queue[1..]);
    assert q.queue[1..] == p.queue[1..];
    assert p.queue[0][..taken] + p.queue[0][taken..] == p.queue[0];
    calc {
      q.sink + Joined(q.queue);
      (p.sink + p.queue[0][..taken]) + (p.queue[0][taken..] + rest);
      p.sink + ((p.queue[0][..taken] + p.queue[0][taken..]) + rest);
      p.sink + Joined(p.queue);
    }
  }

  /** A write that is over, with nothing reported yet. */
  ghost predicate Between(p: Pump, input: seq<int>) {
    p.sink + Joined(p.queue) == input && p.successes == 0 && p.failures == 0 && !p.done && !p.writing
  }

  lemma WriteNextKeepsInv(p: Pump, input: seq<int>)
    requires Between(p, input)
    ensures Inv(WriteNext(p), input)
  {
    TrimmedKeepsBytes(p.queue);
    assert Trimmed(p.queue) == [] ==> p.sink + [] == p.sink;
  }

  lemma StartInv(buffers: seq<seq<int>>)
    ensures Inv(WriteNext(Fresh(buffers)), Joined(buffers))
  {
    assert [] + Joined(buffers) == Joined(buffers);
    WriteNextKeepsInv(Fresh(buffers), Joined(buffers));
  }

  lemma HandleKeepsInv(p: Pump, e: Event, input: seq<int>)
    requires Inv(p, input) && Enabled(p, e)
    ensures Inv(Handle(p, e), input)
  {
    TakeKeepsBytes(p, e.taken);
    var q := Take(p, e.taken);
    assert Between(q, input);
    WriteNextKeepsInv(q, input);
  }

  datatype Move = Move(e: Event, p: Pump)

  ghost predicate Run(p: Pump, run: seq<Move>)
    decreases |run|
  {
    run == [] || (Enabled(p, run[0].e) && run[0].p == Handle(p, run[0].e) && Run(run[0].p, run[1..]))
  }

  function End(p: Pump, run: seq<Move>): Pump {
    if run == [] then p else run[|run| - 1].p
  }

  lemma {:induction false} RunsKeepInv(p: Pump, run: seq<Move>, input: seq<int>)
    requires Inv(p, input) && Run(p, run)
    ensures Inv(End(p, run), input)
    decreases |run|
  {
    if run != [] {
      HandleKeepsInv(p, run[0].e, input);
      RunsKeepInv(run[0].p, run[1..], input);
    }
  }

  /**
    From start, under any partial, empty or failing writes: the socket has a prefix of the
    buffers in order, the caller hears of at most one outcome, hears of one exactly when no
    write is outstanding, and success means that every byte is out.
  */
  lemma DeliversInOrder(buffers: seq<seq<int>>, run: seq<Move>)
    requires Run(WriteNext(Fresh(buffers)), run)
    ensures var p := End(WriteNext(Fresh(buffers)), run);
            p.sink <= Joined(buffers) && p.successes + p.failures <= 1 &&
            (p.successes + p.failures == 1 <==> !p.writing) &&
            (p.successes == 1 ==> p.sink == Joined(buffers))
  {
    StartInv(buffers);
    RunsKeepInv(WriteNext(Fresh(buffers)), run, Joined(buffers));
  }

  // ----- handlers called at any time, any number of times -----

  /** A call of a handler whose buffer has bytes left or not, and whatever else may become of the buffers. */
  datatype Call = Completes(reported: Option<int>, left: bool) | Fails | Moves(queue: seq<seq<int>>, sink: seq<int>)

  function Called(p: Pump, call: Call): Pump {
    match call
    case Fails => Fail(p)
    case Moves(queue, sink) => p.(queue := queue, sink := sink)
    case Completes(reported, left) =>
      if reported.None? || reported.value < 0 then Fail(p)
      else if reported.value == 0 && left then p.(writing := true)
      else WriteNext(p)
  }

  function CalledAll(p: Pump, calls: seq<Call>): Pump
    decreases |calls|
  {
    if calls == [] then p else CalledAll(Called(p, calls[0]), calls[1..])
  }

  /** The end of an outstanding write is such a call, made after the socket took its bytes. */
  lemma HandleIsACall(p: Pump, e: Event)
    requires Enabled(p, e)
    ensures var q := Take(p, e.taken);
            Handle(p, e) == Called(q, if e.Failed? then Fails else Completes(e.reported, q.queue[0] != []))
  {
  }

  ghost predicate ReportedOnce(p: Pump) { p.successes + p.failures == if p.done then 1 else 0 }

  /**
    However often and whenever the handlers are called, and whatever the socket does: no more
    than one outcome is reported, and the first one stands.
  */
  lemma {:induction false} ReportsOnce(p: Pump, calls: seq<Call>)
    requires ReportedOnce(p)
    ensures ReportedOnce(CalledAll(p, calls))
    ensures p.done ==> CalledAll(p, calls).successes == p.successes && CalledAll(p, calls).failures == p.failures
    decreases |calls|
  {
    if calls != [] { ReportsOnce(Called(p, calls[0]), calls[1..]); }
  }

  // ----- the class -----

  class AsyncWritePump {
    var queue: seq<seq<int>>
    var done: bool
    var successes: nat
    var failures: nat
    var writing: bool
    ghost var sink: seq<int>

    ghost function Model(): Pump
      reads this
    {
      Pump(queue, done, successes, failures, writing, sink)
    }

    constructor (buffers: seq<seq<int>>)
      ensures Model() == Fresh(buffers)
    {
      queue, done, successes, failures, writing, sink := buffers, false, 0, 0, false, [];
    }

    method StartWriting()
      modifies this
      ensures Model() == WriteNext(old(Model()))
    {
      WriteNextBuffer();
    }

    method WriteNextBuffer()
      modifies this
      ensures Model() == WriteNext(old(Model()))
    {
      writing := false;
      while queue != [] && queue[0] == []
        invariant Trimmed(queue) == Trimmed(old(queue)) && !writing
        invariant done == old(done) && successes == old(successes) && failures == old(failures) && sink == old(sink)
      {
        queue := queue[1..];
      }
      if queue == [] {
        if !done { done, successes := true, successes + 1; }
        return;
      }
      writing := true;
    }

    method OnFailed(taken: nat)
      requires queue != [] && taken <= |queue[0]|
      modifies this
      ensures Model() == Handle(old(Model()), Failed(taken))
    {
      SocketTakes(taken);
      if !done { done, failures := true, failures + 1; }
    }

    method OnCompleted(taken: nat, reported: Option<int>)
      requires queue != [] && taken <= |queue[0]|
      modifies this
      ensures Model() == Handle(old(Model()), Completed(taken, reported))
    {
      SocketTakes(taken);
      if reported.None? || reported.value < 0 {
        if !done { done, failures := true, failures + 1; }
        return;
      }
      if reported.value == 0 && queue[0] != [] {
        writing := true;
        return;
      }
      WriteNextBuffer();
    }

    /** The environment's step: the write moved the buffer's position by that many bytes and is over. */
    method SocketTakes(taken: nat)
      requires queue != [] && taken <= |queue[0]|
      modifies `queue, `sink, `writing
      ensures Model() == Take(old(Model()), taken)
    {
      sink := sink + queue[0][..taken];
      queue := queue[0 := queue[0][taken..]];
      writing := false;
    }
  }
}
