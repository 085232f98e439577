/**
The stream of one remote component: a reactor driven by transport callbacks, the HAL worker,
timers and shutdown, all serialized by its lifetime gate.
*/
module ComponentReactor {
  import opened Options
  import opened ComponentMessages
  import opened ComponentOutbox
  import WriteFinish

  datatype Gate = Open | Finishing | Done

  /** What the transport has been asked to do and has not answered yet, and the calls made so far: `sent` lists the
      messages given to it and `clobbered` records whether the response buffer was ever assigned while a write was
      reading it. */
  datatype Transport = Transport(
    openReads: nat,
    openWrites: nat,
    finishes: nat,
    clobbered: bool,
    sent: seq<ServerMessage>)

  /** The attachment this stream owns in the registry. */
  datatype Handle = Handle(proxyId: string, generation: nat)

  datatype Reactor = Reactor(
    transport: Transport,
    gate: Gate,
    finish: WriteFinish.State,
    outbox: seq<Entry>,
    response: Option<ServerMessage>,
    activeResponse: bool,
    resumeReadWhenIdle: bool,
    receivedFirstMessage: bool,
    finishAfterResponses: bool,
    detachRequested: bool,
    handle: Option<Handle>,
    working: bool,
    cleanups: seq<Handle>)

  const FRESH: Reactor := Reactor(
    Transport(0, 0, 0, false, []), Open, WriteFinish.IDLE, [], None, false, false, false, false, false, None, false, [])

  /** The worker's answer to one client message. */
  datatype Result =
    | Failed(handle: Option<Handle>)
    | Answered(handle: Option<Handle>, response: Option<ServerMessage>, close: bool)

  // ---- Building blocks ----

  function ReadStarted(r: Reactor): Reactor {
    r.(transport := r.transport.(openReads := r.transport.openReads + 1))
  }

  function FinishIfReady(r: Reactor): Reactor {
    if !r.finish.MayFinish() then r
    else if r.gate != Open then r.(finish := WriteFinish.FinishTaken(r.finish))
    else
      r.(finish := WriteFinish.FinishTaken(r.finish), gate := Finishing,
         transport := r.transport.(finishes := r.transport.finishes + 1))
  }

  function FinishRequested(r: Reactor, status: WriteFinish.Status): Reactor {
    FinishIfReady(
      r.(outbox := [], resumeReadWhenIdle := false, finish := WriteFinish.FinishRequested(r.finish, status)))
  }

  function TransportDetached(r: Reactor): Reactor {
    if r.detachRequested || r.handle.None? then r
    else r.(detachRequested := true, cleanups := r.cleanups + [r.handle.value])
  }

  function WriteStarted(r: Reactor, entry: Entry): Reactor {
    var loaded := r.(response := Some(entry.message), activeResponse := entry.resumeRead,
                     transport := r.transport.(clobbered := r.transport.clobbered || r.transport.openWrites > 0));
    if !r.finish.MayStartWrite() then loaded
    else loaded.(finish := WriteFinish.WriteStarted(r.finish),
                 transport := loaded.transport.(openWrites := r.transport.openWrites + 1,
                                                sent := r.transport.sent + [entry.message]))
  }

  function DeltaOffered(r: Reactor, message: ServerMessage): Reactor {
    if r.finish.TerminationRequested() then r
    else if r.finish.writeInFlight then r.(outbox := PushedDelta(r.outbox, message))
    else WriteStarted(r, Entry(message, false))
  }

  function ResponseOffered(r: Reactor, message: ServerMessage): Reactor {
    if r.finish.TerminationRequested() then r
    else if r.finish.writeInFlight then r.(outbox := PushedResponse(r.outbox, message))
    else WriteStarted(r, Entry(message, true))
  }

  // ---- Callbacks, each under the gate ----

  function ReadAnswered(r: Reactor, ok: bool, submitted: bool): Reactor {
    if r.finish.TerminationRequested() then r
    else if !ok then FinishRequested(TransportDetached(r), WriteFinish.Ok)
    else
      var received := r.(receivedFirstMessage := true);
      if submitted then received.(working := true)
      else FinishRequested(received, WriteFinish.ResourceExhausted)
  }

  function WriteAnswered(r: Reactor, ok: bool): Reactor {
    var completed := r.(finish := WriteFinish.WriteCompleted(r.finish, ok));
    if completed.finish.MayFinish() then FinishIfReady(completed)
    else if !ok then completed
    else
      var resume := completed.resumeReadWhenIdle || completed.activeResponse;
      var idle := completed.(resumeReadWhenIdle := resume);
      if idle.outbox != [] then WriteStarted(idle.(outbox := idle.outbox[1..]), idle.outbox[0])
      else if idle.finishAfterResponses then FinishRequested(idle, WriteFinish.Ok)
      else if resume then ReadStarted(idle.(resumeReadWhenIdle := false))
      else idle
  }

  function WorkSucceeded(r: Reactor, response: Option<ServerMessage>, close: bool): Reactor {
    if response.Some? then
      var offered := ResponseOffered(r, response.value);
      if close then offered.(detachRequested := true, finishAfterResponses := true) else offered
    else if close then FinishRequested(r, WriteFinish.Ok)
    else if !r.finish.TerminationRequested() then ReadStarted(r)
    else r
  }

  function WorkAnswered(r: Reactor, result: Result): Reactor {
    match result
    case Failed(_) => FinishRequested(TransportDetached(r), WriteFinish.Rejected)
    case Answered(handle, response, close) =>
      WorkSucceeded(if handle.Some? then r.(handle := handle) else r, response, close)
  }

  function TimedOut(r: Reactor, generation: nat): Reactor {
    if r.handle.None? || r.handle.value.generation != generation then r
    else FinishRequested(r.(detachRequested := true), WriteFinish.DeadlineExceeded)
  }

  // ---- Steps ----

  datatype Step =
    | Construct(registered: bool, admitted: bool)
    | BeginReading
    | ReadDone(ok: bool, submitted: bool)
    | WriteDone(ok: bool)
    | WorkDone(result: Result)
    | OfferDelta(message: ServerMessage)
    | Cancel
    | Shutdown
    | Tick(firstMessageOverdue: bool)
    | HeartbeatTimeout(generation: nat)
    | StreamDone

  datatype Phase = Unborn | Constructed | Reading | Gone

  datatype System = System(phase: Phase, reactor: Reactor)

  const UNBORN: System := System(Unborn, FRESH)

  /** A callback that finds the gate closed is dropped, except that its operation is no longer outstanding. */
  function Next(y: System, step: Step): System {
    var r := y.reactor;
    match step
    case Construct(registered, admitted) =>
      if y.phase != Unborn then y
      else if !registered then System(Reading, FinishRequested(TransportDetached(r), WriteFinish.Unavailable))
      else if !admitted then System(Reading, FinishRequested(r, WriteFinish.ResourceExhausted))
      else System(Constructed, r)
    case BeginReading =>
      if y.phase != Constructed then y else System(Reading, ReadStarted(r))
    case ReadDone(ok, submitted) =>
      if r.transport.openReads == 0 || y.phase == Gone then y
      else
        var answered := r.(transport := r.transport.(openReads := r.transport.openReads - 1));
        y.(reactor := if r.gate == Open then ReadAnswered(answered, ok, submitted) else answered)
    case WriteDone(ok) =>
      if r.transport.openWrites == 0 || y.phase == Gone then y
      else
        var answered := r.(transport := r.transport.(openWrites := r.transport.openWrites - 1));
        y.(reactor := if r.gate == Open then WriteAnswered(answered, ok) else answered)
    case WorkDone(result) =>
      if !r.working || (result.Answered? && result.response.Some? && result.response.value.Delta?) then y
      else
        var answered := r.(working := false);
        if r.gate == Open then y.(reactor := WorkAnswered(answered, result))
        else if result.handle.Some? then y.(reactor := answered.(cleanups := answered.cleanups + [result.handle.value]))
        else y.(reactor := answered)
    case OfferDelta(message) =>
      if !message.Delta? || !DistinctItems(message.values) || r.gate != Open || y.phase == Unborn then y
      else y.(reactor := DeltaOffered(r, message))
    case Cancel =>
      if r.gate != Open || y.phase == Unborn then y
      else y.(reactor := FinishRequested(TransportDetached(r), WriteFinish.Cancelled))
    case Shutdown =>
      if r.gate != Open || y.phase == Unborn then y
      else y.(reactor := FinishRequested(TransportDetached(r), WriteFinish.Unavailable))
    case Tick(overdue) =>
      if r.gate != Open || y.phase != Reading || r.receivedFirstMessage || !overdue then y
      else y.(reactor := FinishRequested(r, WriteFinish.DeadlineExceeded))
    case HeartbeatTimeout(generation) =>
      if r.gate != Open || y.phase == Unborn then y
      else y.(reactor := TimedOut(r, generation))
    case StreamDone =>
      if y.phase != Reading || r.transport.finishes == 0 || r.transport.openReads + r.transport.openWrites > 0 then y
      else System(Gone, TransportDetached(r.(gate := Done)))
  }

  function Run(steps: seq<Step>): System {
    if steps == [] then UNBORN else Next(Run(steps[..|steps| - 1]), steps[|steps| - 1])
  }

  // ---- Invariants ----

  function One(b: bool): nat {
    if b then 1 else 0
  }

  function Pending(outbox: seq<Entry>): nat {
    if outbox == [] then 0 else Pending(outbox[..|outbox| - 1]) + One(outbox[|outbox| - 1].resumeRead)
  }

  /** The conversation is at one place at a time: a read is outstanding, the worker has the message, its response is
      queued or in flight, or the next read is due. */
  function Turns(r: Reactor): nat {
    r.transport.openReads + One(r.working) + Pending(r.outbox) +
    One(r.transport.openWrites > 0 && r.activeResponse) + One(r.resumeReadWhenIdle)
  }

  /** Responses and deltas are tagged as such, and deltas that would be adjacent have been merged. */
  predicate Shaped(outbox: seq<Entry>) {
    && (forall i :: 0 <= i < |outbox| ==> outbox[i].resumeRead == !outbox[i].message.Delta?)
    && (forall i, j :: 0 <= i < |outbox| && j == i + 1 && j < |outbox| ==> outbox[i].resumeRead || outbox[j].resumeRead)
  }

  /** The buffer holds the message that is being written. */
  predicate Steady(r: Reactor) {
    r.transport.openWrites > 0 ==>
      r.transport.sent != [] && r.response == Some(r.transport.sent[|r.transport.sent| - 1])
  }

  /** What holds even in the middle of a callback. */
  predicate Coherent(r: Reactor) {
    && Shaped(r.outbox)
    && !r.transport.clobbered
    && Steady(r)
    && r.transport.openWrites == One(r.finish.writeInFlight)
    && r.transport.finishes == One(r.finish.finishStarted)
    && (r.gate == Open <==> !r.finish.finishStarted)
    && (r.finish.finishStarted ==> !r.finish.writeInFlight && r.finish.terminal.Some?)
  }

  /** What holds between callbacks: messages wait only behind a write, and an ending stream waits for nothing else. */
  predicate Settled(r: Reactor) {
    && Coherent(r)
    && (r.gate == Open && r.outbox != [] ==> r.finish.writeInFlight && !r.finish.TerminationRequested())
    && (r.gate == Open && r.finish.TerminationRequested() ==> r.finish.writeInFlight)
  }

  predicate Disciplined(y: System) {
    && Settled(y.reactor)
    && Turns(y.reactor) + One(y.phase == Unborn || y.phase == Constructed) <= 1
    && (y.phase == Unborn ==> y.reactor == FRESH)
  }

  // ---- Proofs ----

  lemma {:induction false} PendingAppend(outbox: seq<Entry>, entry: Entry)
    ensures Pending(outbox + [entry]) == Pending(outbox) + One(entry.resumeRead)
  {
    assert (outbox + [entry])[..|outbox|] == outbox;
  }

  lemma {:induction false} PendingSplit(outbox: seq<Entry>)
    requires outbox != []
    ensures Pending(outbox) == One(outbox[0].resumeRead) + Pending(outbox[1..])
  {
    var n := |outbox| - 1;
    if n > 0 {
      PendingSplit(outbox[..n]);
      assert outbox[1..][..n - 1] == outbox[..n][1..];
    }
  }

  /** Between two deltas there is a response. */
  lemma {:induction false} OutboxBound(outbox: seq<Entry>)
    requires Shaped(outbox)
    ensures |outbox| <= 2 * Pending(outbox) + 1
  {
    var n := |outbox|;
    if n >= 2 {
      OutboxBound(outbox[..n - 2]);
      assert outbox[..n - 1][..n - 2] == outbox[..n - 2];
      assert outbox[n - 2].resumeRead || outbox[n - 1].resumeRead;
    }
  }

  lemma PushedDeltaShaped(outbox: seq<Entry>, message: ServerMessage)
    requires Shaped(outbox) && message.Delta?
    ensures Shaped(PushedDelta(outbox, message)) && Pending(PushedDelta(outbox, message)) == Pending(outbox)
  {
    if EndsInDelta(outbox) {
      var n := |outbox| - 1;
      var pushed := PushedDelta(outbox, message);
      assert outbox[..n] + [outbox[n]] == outbox;
      PendingAppend(outbox[..n], outbox[n]);
      PendingAppend(outbox[..n], pushed[n]);
    } else {
      PendingAppend(outbox, Entry(message, false));
    }
  }

  /** A settled reactor with no more than `limit` turns. */
  predicate Within(r: Reactor, limit: nat) {
    Settled(r) && Turns(r) <= limit
  }

  lemma FinishRequestedSettles(r: Reactor, status: WriteFinish.Status, limit: nat)
    requires Coherent(r) && Turns(r) <= limit
    ensures Within(FinishRequested(r, status), limit)
  {
  }

  lemma DetachedFinish(r: Reactor, status: WriteFinish.Status, limit: nat)
    requires Coherent(r) && Turns(r) <= limit
    ensures Within(FinishRequested(TransportDetached(r), status), limit)
  {
    var detached := TransportDetached(r);
    assert Coherent(detached) && Turns(detached) == Turns(r);
    FinishRequestedSettles(detached, status, limit);
  }

  lemma WriteStartedSettles(r: Reactor, entry: Entry, limit: nat)
    requires Coherent(r) && r.finish.MayStartWrite() && Turns(r) + One(entry.resumeRead) <= limit
    ensures Within(WriteStarted(r, entry), limit)
  {
  }

  lemma DeltaOfferedSettles(r: Reactor, message: ServerMessage, limit: nat)
    requires Within(r, limit) && message.Delta?
    ensures Within(DeltaOffered(r, message), limit)
  {
    hide Shaped, Pending, WriteStarted, PushedDelta;
    if r.finish.TerminationRequested() {
    } else if r.finish.writeInFlight {
      PushedDeltaShaped(r.outbox, message);
    } else {
      WriteStartedSettles(r, Entry(message, false), limit);
    }
  }

  lemma PushedResponseShaped(outbox: seq<Entry>, message: ServerMessage)
    requires Shaped(outbox) && !message.Delta?
    ensures Shaped(PushedResponse(outbox, message)) && Pending(PushedResponse(outbox, message)) == Pending(outbox) + 1
  {
    PendingAppend(outbox, Entry(message, true));
  }

  lemma ResponseOfferedSettles(r: Reactor, message: ServerMessage, limit: nat)
    requires Settled(r) && !message.Delta? && Turns(r) + 1 <= limit
    ensures Within(ResponseOffered(r, message), limit)
  {
    hide Shaped, Pending, WriteStarted, PushedResponse;
    if r.finish.TerminationRequested() {
    } else if r.finish.writeInFlight {
      PushedResponseShaped(r.outbox, message);
    } else {
      WriteStartedSettles(r, Entry(message, true), limit);
    }
  }

  /** After a completed write: the queue moves on, the stream ends, or the next read starts. */
  lemma IdleSettles(r: Reactor, limit: nat)
    requires Coherent(r) && r.finish.MayStartWrite() && Turns(r) <= limit
    ensures Within(
              if r.outbox != [] then WriteStarted(r.(outbox := r.outbox[1..]), r.outbox[0])
              else if r.finishAfterResponses then FinishRequested(r, WriteFinish.Ok)
              else if r.resumeReadWhenIdle then ReadStarted(r.(resumeReadWhenIdle := false))
              else r, limit)
  {
    if r.outbox != [] {
      PendingSplit(r.outbox);
      var popped := r.(outbox := r.outbox[1..]);
      assert Shaped(popped.outbox);
      WriteStartedSettles(popped, r.outbox[0], limit);
    } else if r.finishAfterResponses {
      FinishRequestedSettles(r, WriteFinish.Ok, limit);
    }
  }

  lemma WriteAnsweredSettles(r: Reactor, ok: bool, limit: nat)
    requires Within(r, limit) && r.finish.writeInFlight
    ensures Within(WriteAnswered(r.(transport := r.transport.(openWrites := r.transport.openWrites - 1)), ok), limit)
  {
    var answered := r.(transport := r.transport.(openWrites := r.transport.openWrites - 1));
    var completed := answered.(finish := WriteFinish.WriteCompleted(answered.finish, ok));
    if completed.finish.MayFinish() {
      assert Within(FinishIfReady(completed), limit);
    } else {
      var idle := completed.(resumeReadWhenIdle := completed.resumeReadWhenIdle || completed.activeResponse);
      IdleSettles(idle, limit);
    }
  }

  /** The flags and the handle play no part in the discipline. */
  lemma FlagsKeep(r: Reactor, detachRequested: bool, finishAfterResponses: bool, handle: Option<Handle>, limit: nat)
    requires Within(r, limit)
    ensures Within(
              r.(detachRequested := detachRequested, finishAfterResponses := finishAfterResponses, handle := handle),
              limit)
  {
  }

  lemma WorkSucceededSettles(r: Reactor, response: Option<ServerMessage>, close: bool, limit: nat)
    requires Settled(r) && Turns(r) + 1 <= limit && (response.Some? ==> !response.value.Delta?)
    requires r.gate == Open
    ensures Within(WorkSucceeded(r, response, close), limit)
  {
    if response.Some? {
      ResponseOfferedSettles(r, response.value, limit);
      var offered := ResponseOffered(r, response.value);
      if close {
        FlagsKeep(offered, true, true, offered.handle, limit);
      }
    } else if close {
      FinishRequestedSettles(r, WriteFinish.Ok, limit);
    }
  }

  lemma WorkAnsweredSettles(r: Reactor, result: Result, limit: nat)
    requires Settled(r) && r.gate == Open && Turns(r) + 1 <= limit
    requires result.Answered? && result.response.Some? ==> !result.response.value.Delta?
    ensures Within(WorkAnswered(r, result), limit)
  {
    if result.Failed? {
      DetachedFinish(r, WriteFinish.Rejected, limit);
    } else {
      var owned := if result.handle.Some? then r.(handle := result.handle) else r;
      FlagsKeep(r, r.detachRequested, r.finishAfterResponses, owned.handle, Turns(r));
      WorkSucceededSettles(owned, result.response, result.close, limit);
    }
  }

  lemma ReadAnsweredSettles(r: Reactor, ok: bool, submitted: bool, limit: nat)
    requires Settled(r) && Turns(r) + 1 <= limit
    ensures Within(ReadAnswered(r, ok, submitted), limit)
  {
    if r.finish.TerminationRequested() {
    } else if !ok {
      DetachedFinish(r, WriteFinish.Ok, limit);
    } else if !submitted {
      FinishRequestedSettles(r.(receivedFirstMessage := true), WriteFinish.ResourceExhausted, limit);
    } else {
      assert Turns(r.(receivedFirstMessage := true, working := true)) <= limit;
    }
  }

  lemma ReadDoneKeeps(y: System, ok: bool, submitted: bool)
    requires Disciplined(y)
    ensures Disciplined(Next(y, ReadDone(ok, submitted)))
  {
    var r := y.reactor;
    if r.transport.openReads > 0 {
      var answered := r.(transport := r.transport.(openReads := r.transport.openReads - 1));
      assert Settled(answered) && Turns(answered) == 0;
      ReadAnsweredSettles(answered, ok, submitted, 1);
    }
  }

  lemma WorkDoneKeeps(y: System, result: Result)
    requires Disciplined(y)
    ensures Disciplined(Next(y, WorkDone(result)))
  {
    var r := y.reactor;
    if r.working && !(result.Answered? && result.response.Some? && result.response.value.Delta?) {
      var answered := r.(working := false);
      assert Settled(answered) && Turns(answered) == 0;
      if r.gate == Open {
        WorkAnsweredSettles(answered, result, 1);
      }
    }
  }

  lemma WriteDoneKeeps(y: System, ok: bool)
    requires Disciplined(y)
    ensures Disciplined(Next(y, WriteDone(ok)))
  {
    if y.reactor.finish.writeInFlight {
      WriteAnsweredSettles(y.reactor, ok, Turns(y.reactor));
    }
  }

  /** Cancellation, shutdown, timeouts and construction only ever ask the stream to finish. */
  lemma FinishingStepKeeps(y: System, step: Step)
    requires Disciplined(y)
    requires step.Construct? || step.Cancel? || step.Shutdown? || step.Tick? || step.HeartbeatTimeout?
    ensures Disciplined(Next(y, step))
  {
    hide FinishRequested, TransportDetached, Shaped, Pending;
    var r := y.reactor;
    match step
    case Construct(_, _) =>
      DetachedFinish(r, WriteFinish.Unavailable, Turns(r));
      FinishRequestedSettles(r, WriteFinish.ResourceExhausted, Turns(r));
    case Cancel => DetachedFinish(r, WriteFinish.Cancelled, Turns(r));
    case Shutdown => DetachedFinish(r, WriteFinish.Unavailable, Turns(r));
    case Tick(_) => FinishRequestedSettles(r, WriteFinish.DeadlineExceeded, Turns(r));
    case HeartbeatTimeout(_) =>
      FinishRequestedSettles(r.(detachRequested := true), WriteFinish.DeadlineExceeded, Turns(r));
  }

  lemma NextKeeps(y: System, step: Step)
    requires Disciplined(y)
    ensures Disciplined(Next(y, step))
  {
    match step
    case BeginReading =>
    case StreamDone =>
    case ReadDone(ok, submitted) => ReadDoneKeeps(y, ok, submitted);
    case WriteDone(ok) => WriteDoneKeeps(y, ok);
    case WorkDone(result) => WorkDoneKeeps(y, result);
    case OfferDelta(message) =>
      if message.Delta? {
        DeltaOfferedSettles(y.reactor, message, Turns(y.reactor));
      }
    case _ => FinishingStepKeeps(y, step);
  }

  lemma {:induction false} RunDisciplined(steps: seq<Step>)
    ensures Disciplined(Run(steps))
  {
    if steps != [] {
      RunDisciplined(steps[..|steps| - 1]);
      NextKeeps(Run(steps[..|steps| - 1]), steps[|steps| - 1]);
    }
  }

  /** Over every interleaving: at most one read and one write are outstanding, the buffer being written is never
      overwritten and holds the message sent last, Finish is called at most once and never during a write, the gate is
      open whenever a write is outstanding, and the outbox never holds more than three messages. */
  lemma StreamDiscipline(steps: seq<Step>)
    ensures var y := Run(steps);
            var t := y.reactor.transport;
            && t.openReads <= 1 && t.openWrites <= 1 && t.finishes <= 1 && !t.clobbered
            && (t.openWrites == 1 ==> t.finishes == 0 && y.reactor.gate == Open)
            && (t.openWrites == 1 ==> t.sent != [] && y.reactor.response == Some(t.sent[|t.sent| - 1]))
            && |y.reactor.outbox| <= 3
  {
    RunDisciplined(steps);
    OutboxBound(Run(steps).reactor.outbox);
  }

  predicate Ending(r: Reactor, openWrites: nat) {
    r.finish.TerminationRequested() && r.transport.openWrites <= openWrites
  }

  lemma EndingFinish(r: Reactor, status: WriteFinish.Status, openWrites: nat)
    requires Ending(r, openWrites)
    ensures Ending(FinishRequested(r, status), openWrites)
  {
  }

  lemma EndingDetach(r: Reactor, status: WriteFinish.Status, openWrites: nat)
    requires Ending(r, openWrites)
    ensures Ending(FinishRequested(TransportDetached(r), status), openWrites)
  {
    var detached := TransportDetached(r);
    assert Ending(detached, openWrites);
    EndingFinish(detached, status, openWrites);
  }

  lemma EndingWork(r: Reactor, result: Result, openWrites: nat)
    requires Ending(r, openWrites)
    ensures Ending(WorkAnswered(r, result), openWrites)
  {
    hide FinishRequested;
    if result.Failed? {
      EndingDetach(r, WriteFinish.Rejected, openWrites);
    } else {
      EndingFinish(if result.handle.Some? then r.(handle := result.handle) else r, WriteFinish.Ok, openWrites);
    }
  }

  lemma EndingWrite(r: Reactor, ok: bool, openWrites: nat)
    requires Ending(r, openWrites) && r.gate == Open && !r.finish.finishStarted
    ensures Ending(WriteAnswered(r, ok), openWrites)
  {
  }

  lemma EndingCallback(y: System, step: Step)
    requires Coherent(y.reactor) && y.reactor.finish.TerminationRequested()
    requires
      || step.ReadDone? || step.WriteDone? || step.WorkDone?
      || step.OfferDelta? || step.BeginReading? || step.StreamDone?
    ensures Ending(Next(y, step).reactor, y.reactor.transport.openWrites)
  {
    hide Shaped, WriteAnswered, WorkAnswered;
    var r, n := y.reactor, y.reactor.transport.openWrites;
    match step
    case WriteDone(ok) =>
      if n > 0 && r.gate == Open {
        EndingWrite(r.(transport := r.transport.(openWrites := n - 1)), ok, n);
      }
    case WorkDone(result) => EndingWork(r.(working := false), result, n);
    case _ =>
  }

  lemma EndingStop(y: System, step: Step)
    requires y.phase != Unborn && y.reactor.finish.TerminationRequested()
    requires step.Construct? || step.Cancel? || step.Shutdown? || step.Tick? || step.HeartbeatTimeout?
    ensures Ending(Next(y, step).reactor, y.reactor.transport.openWrites)
  {
    hide FinishRequested, TransportDetached;
    var r, n := y.reactor, y.reactor.transport.openWrites;
    match step
    case Cancel => EndingDetach(r, WriteFinish.Cancelled, n);
    case Shutdown => EndingDetach(r, WriteFinish.Unavailable, n);
    case Tick(_) => EndingFinish(r, WriteFinish.DeadlineExceeded, n);
    case HeartbeatTimeout(_) => EndingFinish(r.(detachRequested := true), WriteFinish.DeadlineExceeded, n);
    case _ =>
  }

  /** Once termination is requested no write starts, whatever happens next. */
  lemma NoWriteAfterTermination(steps: seq<Step>, step: Step)
    ensures var y := Run(steps);
            y.reactor.finish.TerminationRequested() ==>
              Ending(Next(y, step).reactor, y.reactor.transport.openWrites)
  {
    RunDisciplined(steps);
    hide Run, Next, Coherent, Turns;
    var y := Run(steps);
    if y.reactor.finish.TerminationRequested() {
      if step.Construct? || step.Cancel? || step.Shutdown? || step.Tick? || step.HeartbeatTimeout? {
        EndingStop(y, step);
      } else {
        EndingCallback(y, step);
      }
    }
  }
}
