/** The conversation on a component stream: it never stalls, and it ends only for a reason. */
module ComponentConversation {
  import opened Options
  import opened ComponentMessages
  import opened ComponentOutbox
  import opened ComponentReactor
  import WriteFinish

  /** The stream is up, and nobody has asked it to end. */
  predicate Talking(y: System) {
    y.phase == Reading && y.reactor.gate == Open && !y.reactor.finish.TerminationRequested()
  }

  /** It is somebody's turn, and a read that is due waits only for a write. */
  predicate Alive(y: System) {
    Talking(y) ==> Turns(y.reactor) == 1 && (y.reactor.resumeReadWhenIdle ==> y.reactor.finish.writeInFlight)
  }

  // ---- Nothing stalls ----

  /** Somebody has the turn, and a read that is due waits for a write; or the stream is to end. */
  predicate Moving(r: Reactor) {
    !r.finish.TerminationRequested() ==> Turns(r) == 1 && (r.resumeReadWhenIdle ==> r.finish.writeInFlight)
  }

  lemma FinishTerminates(r: Reactor, status: WriteFinish.Status)
    ensures FinishRequested(r, status).finish.TerminationRequested()
  {
  }

  lemma WriteStartedTurns(r: Reactor, entry: Entry)
    requires Coherent(r) && r.finish.MayStartWrite()
    ensures var q := WriteStarted(r, entry);
            && Turns(q) == Turns(r) + One(entry.resumeRead) && q.finish.writeInFlight
            && q.resumeReadWhenIdle == r.resumeReadWhenIdle
  {
  }

  lemma DeltaTurns(r: Reactor, message: ServerMessage)
    requires Settled(r) && message.Delta? && r.gate == Open && !r.finish.TerminationRequested()
    ensures var q := DeltaOffered(r, message);
            && Turns(q) == Turns(r) && q.resumeReadWhenIdle == r.resumeReadWhenIdle
            && (r.finish.writeInFlight ==> q.finish.writeInFlight)
  {
    hide Shaped, Pending, WriteStarted, PushedDelta;
    if r.finish.writeInFlight {
      PushedDeltaShaped(r.outbox, message);
    } else {
      WriteStartedTurns(r, Entry(message, false));
    }
  }

  lemma ResponseTurns(r: Reactor, message: ServerMessage)
    requires Settled(r) && !message.Delta? && r.gate == Open && !r.finish.TerminationRequested()
    ensures var q := ResponseOffered(r, message);
            && Turns(q) == Turns(r) + 1 && q.resumeReadWhenIdle == r.resumeReadWhenIdle && q.finish.writeInFlight
  {
    hide Shaped, Pending, WriteStarted, PushedResponse;
    if r.finish.writeInFlight {
      PushedResponseShaped(r.outbox, message);
    } else {
      WriteStartedTurns(r, Entry(message, true));
    }
  }

  lemma SuccessTurns(r: Reactor, response: Option<ServerMessage>, close: bool)
    requires Settled(r) && r.gate == Open && !r.finish.TerminationRequested() && Turns(r) == 0
    requires response.Some? ==> !response.value.Delta?
    ensures Moving(WorkSucceeded(r, response, close))
  {
    hide Shaped, Pending, ResponseOffered, FinishRequested;
    if response.Some? {
      ResponseTurns(r, response.value);
    } else if close {
      FinishTerminates(r, WriteFinish.Ok);
    }
  }

  lemma WorkTurns(r: Reactor, result: Result)
    requires Settled(r) && r.gate == Open && !r.finish.TerminationRequested() && Turns(r) == 0
    requires result.Answered? && result.response.Some? ==> !result.response.value.Delta?
    ensures Moving(WorkAnswered(r, result))
  {
    hide Shaped, Pending, WorkSucceeded, FinishRequested, TransportDetached;
    if result.Answered? {
      var owned := if result.handle.Some? then r.(handle := result.handle) else r;
      assert Settled(owned) && Turns(owned) == 0;
      SuccessTurns(owned, result.response, result.close);
    } else {
      FinishTerminates(TransportDetached(r), WriteFinish.Rejected);
    }
  }

  lemma PopMoves(r: Reactor)
    requires Coherent(r) && r.finish.MayStartWrite() && Turns(r) == 1 && r.outbox != []
    ensures Moving(WriteStarted(r.(outbox := r.outbox[1..]), r.outbox[0]))
  {
    var popped := r.(outbox := r.outbox[1..]);
    PendingSplit(r.outbox);
    ShapedRest(r.outbox);
    hide Pending, Shaped, WriteStarted;
    WriteStartedTurns(popped, r.outbox[0]);
  }

  lemma IdleMoves(r: Reactor)
    requires Coherent(r) && r.finish.MayStartWrite() && Turns(r) == 1
    requires r.outbox == [] && r.resumeReadWhenIdle
    ensures Moving(ReadStarted(r.(resumeReadWhenIdle := false)))
  {
  }

  lemma WaitingMoves(r: Reactor)
    requires Turns(r) == 1 && !r.resumeReadWhenIdle
    ensures Moving(r)
  {
  }

  lemma WriteTurns(r: Reactor, ok: bool)
    requires Settled(r) && r.gate == Open && r.finish.writeInFlight && !r.finish.TerminationRequested() && Turns(r) == 1
    requires r.resumeReadWhenIdle ==> r.finish.writeInFlight
    ensures Moving(WriteAnswered(r.(transport := r.transport.(openWrites := r.transport.openWrites - 1)), ok))
  {
    var answered := r.(transport := r.transport.(openWrites := r.transport.openWrites - 1));
    var completed := answered.(finish := WriteFinish.WriteCompleted(answered.finish, ok));
    if ok {
      var idle := completed.(resumeReadWhenIdle := completed.resumeReadWhenIdle || completed.activeResponse);
      assert Coherent(idle) && Turns(idle) == 1;
      hide Shaped, WriteStarted, FinishRequested, ReadStarted, Moving, Turns, Coherent;
      if idle.outbox != [] {
        PopMoves(idle);
      } else if idle.finishAfterResponses {
        FinishTerminates(idle, WriteFinish.Ok);
        EndMoves(FinishRequested(idle, WriteFinish.Ok));
      } else if idle.resumeReadWhenIdle {
        IdleMoves(idle);
      } else {
        WaitingMoves(idle);
      }
    } else {
      EndMoves(WriteAnswered(answered, ok));
    }
  }

  lemma EndMoves(r: Reactor)
    requires r.finish.TerminationRequested()
    ensures Moving(r)
  {
  }

  lemma ShapedRest(outbox: seq<Entry>)
    requires Shaped(outbox) && outbox != []
    ensures Shaped(outbox[1..])
  {
  }

  lemma ReadTurns(r: Reactor, ok: bool, submitted: bool)
    requires r.transport.openReads > 0 && !r.finish.TerminationRequested() && Turns(r) == 1
    requires r.resumeReadWhenIdle ==> r.finish.writeInFlight
    ensures Moving(ReadAnswered(r.(transport := r.transport.(openReads := r.transport.openReads - 1)), ok, submitted))
  {
    hide Pending, FinishRequested, TransportDetached;
    var answered := r.(transport := r.transport.(openReads := r.transport.openReads - 1));
    FinishTerminates(TransportDetached(answered), WriteFinish.Ok);
    FinishTerminates(answered.(receivedFirstMessage := true), WriteFinish.ResourceExhausted);
  }

  lemma TalkingCallback(y: System, step: Step)
    requires Disciplined(y) && Alive(y)
    requires step.ReadDone? || step.WriteDone? || step.WorkDone? || step.OfferDelta?
    ensures Alive(Next(y, step))
  {
    hide Shaped, Pending, ReadAnswered, WriteAnswered, WorkAnswered, DeltaOffered;
    var r := y.reactor;
    if Talking(y) {
      match step
      case ReadDone(ok, submitted) =>
        if r.transport.openReads > 0 {
          ReadTurns(r, ok, submitted);
        }
      case WriteDone(ok) =>
        if r.transport.openWrites > 0 {
          WriteTurns(r, ok);
        }
      case WorkDone(result) =>
        if r.working && !(result.Answered? && result.response.Some? && result.response.value.Delta?) {
          var answered := r.(working := false);
          assert Settled(answered) && Turns(answered) == 0;
          WorkTurns(answered, result);
        }
      case OfferDelta(message) =>
        if message.Delta? {
          DeltaTurns(r, message);
        }
    } else {
      StaysSilent(y, step);
    }
  }

  lemma StaysSilent(y: System, step: Step)
    requires Disciplined(y) && !Talking(y)
    requires step.ReadDone? || step.WriteDone? || step.WorkDone? || step.OfferDelta?
    ensures !Talking(Next(y, step))
  {
    hide Shaped, Pending, Next;
    if y.reactor.finish.TerminationRequested() {
      EndingCallback(y, step);
    } else {
      NextPhase(y, step);
    }
  }

  lemma NextPhase(y: System, step: Step)
    requires Coherent(y.reactor) && !y.reactor.finish.TerminationRequested()
    requires step.ReadDone? || step.WriteDone? || step.WorkDone? || step.OfferDelta?
    ensures y.phase != Reading ==> Next(y, step).phase != Reading
    ensures y.reactor.gate == Open
  {
  }

  lemma DetachedSame(r: Reactor)
    ensures var q := TransportDetached(r);
            q == r.(detachRequested := q.detachRequested, cleanups := q.cleanups)
  {
  }

  lemma StopAlive(y: System, step: Step)
    requires Disciplined(y) && Alive(y)
    requires !(step.ReadDone? || step.WriteDone? || step.WorkDone? || step.OfferDelta?)
    ensures Alive(Next(y, step))
  {
    hide FinishRequested, TransportDetached, Shaped, Pending, Settled;
    var r := y.reactor;
    match step
    case Construct(_, _) =>
      FinishTerminates(TransportDetached(r), WriteFinish.Unavailable);
      FinishTerminates(r, WriteFinish.ResourceExhausted);
    case Cancel => FinishTerminates(TransportDetached(r), WriteFinish.Cancelled);
    case Shutdown => FinishTerminates(TransportDetached(r), WriteFinish.Unavailable);
    case Tick(_) => FinishTerminates(r, WriteFinish.DeadlineExceeded);
    case HeartbeatTimeout(_) => FinishTerminates(r.(detachRequested := true), WriteFinish.DeadlineExceeded);
    case BeginReading =>
    case StreamDone =>
  }

  lemma NextAlive(y: System, step: Step)
    requires Disciplined(y) && Alive(y)
    ensures Alive(Next(y, step))
  {
    hide Next, Disciplined, Alive;
    if step.ReadDone? || step.WriteDone? || step.WorkDone? || step.OfferDelta? {
      TalkingCallback(y, step);
    } else {
      StopAlive(y, step);
    }
  }

  lemma {:induction false} RunAlive(steps: seq<Step>)
    ensures Alive(Run(steps))
  {
    if steps != [] {
      RunAlive(steps[..|steps| - 1]);
      RunDisciplined(steps[..|steps| - 1]);
      hide Alive, Next, Disciplined;
      NextAlive(Run(steps[..|steps| - 1]), steps[|steps| - 1]);
    }
  }

  /** Over every run, the conversation never stalls: while nobody asked the stream to end and nothing is being written,
      a read is outstanding or the worker has the client's message, and nothing waits to be written; and a stream that
      is to end and writes nothing has started to finish. */
  lemma NeverStalls(steps: seq<Step>)
    ensures var y := Run(steps);
            && (Talking(y) && !y.reactor.finish.writeInFlight ==>
                  y.reactor.outbox == [] && (y.reactor.transport.openReads == 1) != y.reactor.working)
            && (y.reactor.finish.TerminationRequested() && !y.reactor.finish.writeInFlight ==>
                  y.reactor.transport.finishes == 1)
  {
    RunAlive(steps);
    RunDisciplined(steps);
    hide Run, Shaped;
  }

  // ---- Why it ends ----

  predicate Admissible(result: Result) {
    !(result.Answered? && result.response.Some? && result.response.value.Delta?)
  }

  /** Why the step asks a stream that is up to end, if it does. */
  function Reason(y: System, step: Step): Option<WriteFinish.Status> {
    var r := y.reactor;
    match step
    case Construct(registered, admitted) =>
      if y.phase != Unborn then None
      else if !registered then Some(WriteFinish.Unavailable)
      else if !admitted then Some(WriteFinish.ResourceExhausted)
      else None
    case ReadDone(ok, submitted) =>
      if r.transport.openReads == 0 || (ok && submitted) then None
      else Some(if ok then WriteFinish.ResourceExhausted else WriteFinish.Ok)
    case WriteDone(ok) =>
      if r.transport.openWrites > 0 && (!ok || (r.finishAfterResponses && r.outbox == [])) then Some(WriteFinish.Ok)
      else None
    case WorkDone(result) =>
      if !r.working || !Admissible(result) then None
      else if result.Failed? then Some(WriteFinish.Rejected)
      else if result.close && result.response.None? then Some(WriteFinish.Ok)
      else None
    case Cancel => if y.phase == Unborn then None else Some(WriteFinish.Cancelled)
    case Shutdown => if y.phase == Unborn then None else Some(WriteFinish.Unavailable)
    case Tick(overdue) =>
      if overdue && y.phase == Reading && !r.receivedFirstMessage then Some(WriteFinish.DeadlineExceeded) else None
    case HeartbeatTimeout(generation) =>
      if y.phase != Unborn && r.handle.Some? && r.handle.value.generation == generation
      then Some(WriteFinish.DeadlineExceeded)
      else None
    case _ => None
  }

  lemma FinishGives(r: Reactor, status: WriteFinish.Status)
    requires !r.finish.TerminationRequested()
    ensures FinishRequested(r, status).finish.terminal == Some(status)
  {
  }

  lemma DetachedFinishGives(r: Reactor, status: WriteFinish.Status)
    requires !r.finish.TerminationRequested()
    ensures FinishRequested(TransportDetached(r), status).finish.terminal == Some(status)
  {
    hide FinishRequested;
    DetachedSame(r);
    FinishGives(TransportDetached(r), status);
  }

  lemma WriteStartedGives(r: Reactor, entry: Entry)
    ensures WriteStarted(r, entry).finish.terminal == r.finish.terminal
  {
  }

  lemma ReadGives(r: Reactor, ok: bool, submitted: bool)
    requires !r.finish.TerminationRequested()
    ensures ReadAnswered(r, ok, submitted).finish.terminal ==
            if ok && submitted then None else Some(if ok then WriteFinish.ResourceExhausted else WriteFinish.Ok)
  {
    hide FinishRequested, TransportDetached;
    DetachedFinishGives(r, WriteFinish.Ok);
    FinishGives(r.(receivedFirstMessage := true), WriteFinish.ResourceExhausted);
  }

  lemma WriteGives(r: Reactor, ok: bool)
    requires !r.finish.TerminationRequested()
    ensures WriteAnswered(r, ok).finish.terminal ==
            if !ok || (r.finishAfterResponses && r.outbox == []) then Some(WriteFinish.Ok) else None
  {
    hide WriteAnswered;
    if ok {
      WrittenGives(r);
    } else {
      LostGives(r);
    }
  }

  lemma LostGives(r: Reactor)
    requires !r.finish.TerminationRequested()
    ensures WriteAnswered(r, false).finish.terminal == Some(WriteFinish.Ok)
  {
    hide FinishRequested, WriteStarted, ReadStarted;
  }

  lemma WrittenGives(r: Reactor)
    requires !r.finish.TerminationRequested()
    ensures WriteAnswered(r, true).finish.terminal ==
            if r.finishAfterResponses && r.outbox == [] then Some(WriteFinish.Ok) else None
  {
    hide FinishRequested, WriteStarted, FinishIfReady;
    var completed := r.(finish := WriteFinish.WriteCompleted(r.finish, true));
    var idle := completed.(resumeReadWhenIdle := completed.resumeReadWhenIdle || completed.activeResponse);
    FinishGives(idle, WriteFinish.Ok);
    if idle.outbox != [] {
      WriteStartedGives(idle.(outbox := idle.outbox[1..]), idle.outbox[0]);
    }
  }

  lemma ResponseGives(r: Reactor, message: ServerMessage)
    requires !r.finish.TerminationRequested()
    ensures ResponseOffered(r, message).finish.terminal == None && DeltaOffered(r, message).finish.terminal == None
  {
    hide WriteStarted, PushedDelta, PushedResponse;
    WriteStartedGives(r, Entry(message, true));
    WriteStartedGives(r, Entry(message, false));
  }

  lemma WorkGives(r: Reactor, result: Result)
    requires !r.finish.TerminationRequested()
    ensures WorkAnswered(r, result).finish.terminal ==
            if result.Failed? then Some(WriteFinish.Rejected)
            else if result.close && result.response.None? then Some(WriteFinish.Ok)
            else None
  {
    hide FinishRequested, TransportDetached, ResponseOffered, ReadStarted;
    DetachedFinishGives(r, WriteFinish.Rejected);
    if result.Answered? {
      var owned := if result.handle.Some? then r.(handle := result.handle) else r;
      FinishGives(owned, WriteFinish.Ok);
      ReadStartedGives(owned);
      if result.response.Some? {
        ResponseGives(owned, result.response.value);
      }
    }
  }

  lemma ReadStartedGives(r: Reactor)
    ensures ReadStarted(r).finish == r.finish
  {
  }

  lemma CallbackGives(y: System, step: Step)
    requires y.phase != Gone && y.reactor.gate == Open && !y.reactor.finish.TerminationRequested()
    requires step.ReadDone? || step.WriteDone? || step.WorkDone? || step.OfferDelta?
    ensures Next(y, step).reactor.finish.terminal == Reason(y, step)
  {
    hide ReadAnswered, WriteAnswered, WorkAnswered, DeltaOffered;
    var r := y.reactor;
    match step
    case ReadDone(ok, submitted) =>
      if r.transport.openReads > 0 {
        ReadGives(r.(transport := r.transport.(openReads := r.transport.openReads - 1)), ok, submitted);
      }
    case WriteDone(ok) =>
      if r.transport.openWrites > 0 {
        WriteGives(r.(transport := r.transport.(openWrites := r.transport.openWrites - 1)), ok);
      }
    case WorkDone(result) => WorkGives(r.(working := false), result);
    case OfferDelta(message) => ResponseGives(r, message);
  }

  lemma StopGives(y: System, step: Step)
    requires Disciplined(y) && y.phase != Gone && y.reactor.gate == Open && !y.reactor.finish.TerminationRequested()
    requires !(step.ReadDone? || step.WriteDone? || step.WorkDone? || step.OfferDelta?)
    ensures Next(y, step).reactor.finish.terminal == Reason(y, step)
  {
    hide FinishRequested, TransportDetached, Shaped, Pending, Turns;
    var r := y.reactor;
    match step
    case Construct(_, _) =>
      DetachedFinishGives(r, WriteFinish.Unavailable);
      FinishGives(r, WriteFinish.ResourceExhausted);
    case Cancel => DetachedFinishGives(r, WriteFinish.Cancelled);
    case Shutdown => DetachedFinishGives(r, WriteFinish.Unavailable);
    case Tick(_) => FinishGives(r, WriteFinish.DeadlineExceeded);
    case HeartbeatTimeout(_) => FinishGives(r.(detachRequested := true), WriteFinish.DeadlineExceeded);
    case _ =>
  }

  /** Over every run, a step gives a stream that is up a status to end with exactly if it is a reason to end, and then
      the status of that reason. */
  lemma EndsForAReason(steps: seq<Step>, step: Step)
    ensures var y := Run(steps);
            y.phase != Gone && y.reactor.gate == Open && !y.reactor.finish.TerminationRequested() ==>
              Next(y, step).reactor.finish.terminal == Reason(y, step)
  {
    RunDisciplined(steps);
    var y := Run(steps);
    hide Run, Next, Reason, Disciplined;
    if y.phase != Gone && y.reactor.gate == Open && !y.reactor.finish.TerminationRequested() {
      if step.ReadDone? || step.WriteDone? || step.WorkDone? || step.OfferDelta? {
        CallbackGives(y, step);
      } else {
        StopGives(y, step);
      }
    }
  }

  // ---- What it remembers ----

  /** What the stream remembers of the conversation. */
  datatype Memory = Memory(first: bool, closing: bool, handle: Option<Handle>)

  function Remembered(r: Reactor): Memory {
    Memory(r.receivedFirstMessage, r.finishAfterResponses, r.handle)
  }

  /** A client's message arrived, an answer closed the component, an answer came with an attachment. */
  function Learned(m: Memory, y: System, step: Step): Memory {
    var r := y.reactor;
    match step
    case ReadDone(ok, _) =>
      if ok && r.transport.openReads > 0 && !r.finish.TerminationRequested() then m.(first := true) else m
    case WorkDone(Answered(handle, response, close)) =>
      if !r.working || !Admissible(step.result) then m
      else m.(closing := m.closing || (close && response.Some?), handle := if handle.Some? then handle else m.handle)
    case _ => m
  }

  lemma WriteStartedRemembers(r: Reactor, entry: Entry)
    ensures Remembered(WriteStarted(r, entry)) == Remembered(r)
  {
  }

  lemma FinishRemembers(r: Reactor, status: WriteFinish.Status)
    ensures Remembered(FinishRequested(r, status)) == Remembered(r) && Remembered(FinishIfReady(r)) == Remembered(r)
  {
    hide FinishIfReady;
    ReadyRemembers(r);
    ReadyRemembers(
      r.(outbox := [], resumeReadWhenIdle := false, finish := WriteFinish.FinishRequested(r.finish, status)));
  }

  lemma ReadyRemembers(r: Reactor)
    ensures Remembered(FinishIfReady(r)) == Remembered(r)
  {
  }

  lemma CallbackRemembers(y: System, step: Step)
    requires y.phase != Gone && y.reactor.gate == Open
    requires step.ReadDone? || step.WriteDone? || step.WorkDone? || step.OfferDelta?
    ensures Remembered(Next(y, step).reactor) == Learned(Remembered(y.reactor), y, step)
  {
    hide ReadAnswered, WriteAnswered, WorkAnswered, DeltaOffered;
    var r := y.reactor;
    match step
    case ReadDone(ok, submitted) =>
      if r.transport.openReads > 0 {
        ReadRemembers(r.(transport := r.transport.(openReads := r.transport.openReads - 1)), ok, submitted);
      }
    case WriteDone(ok) =>
      if r.transport.openWrites > 0 {
        WriteRemembers(r.(transport := r.transport.(openWrites := r.transport.openWrites - 1)), ok);
      }
    case WorkDone(result) => WorkRemembers(r.(working := false), result);
    case OfferDelta(message) => ResponseRemembers(r, message);
  }

  lemma ReadRemembers(r: Reactor, ok: bool, submitted: bool)
    ensures Remembered(ReadAnswered(r, ok, submitted)) ==
            if ok && !r.finish.TerminationRequested() then Remembered(r).(first := true) else Remembered(r)
  {
    hide FinishRequested, FinishIfReady, TransportDetached;
    DetachedSame(r);
    FinishRemembers(TransportDetached(r), WriteFinish.Ok);
    FinishRemembers(r.(receivedFirstMessage := true), WriteFinish.ResourceExhausted);
  }

  lemma WriteRemembers(r: Reactor, ok: bool)
    ensures Remembered(WriteAnswered(r, ok)) == Remembered(r)
  {
    hide FinishRequested, FinishIfReady, WriteStarted;
    var completed := r.(finish := WriteFinish.WriteCompleted(r.finish, ok));
    var idle := completed.(resumeReadWhenIdle := completed.resumeReadWhenIdle || completed.activeResponse);
    FinishRemembers(completed, WriteFinish.Ok);
    FinishRemembers(idle, WriteFinish.Ok);
    if idle.outbox != [] {
      WriteStartedRemembers(idle.(outbox := idle.outbox[1..]), idle.outbox[0]);
    }
  }

  lemma ResponseRemembers(r: Reactor, message: ServerMessage)
    ensures Remembered(ResponseOffered(r, message)) == Remembered(r)
    ensures Remembered(DeltaOffered(r, message)) == Remembered(r)
  {
    hide WriteStarted, PushedResponse, PushedDelta;
    WriteStartedRemembers(r, Entry(message, true));
    WriteStartedRemembers(r, Entry(message, false));
  }

  lemma WorkRemembers(r: Reactor, result: Result)
    ensures Remembered(WorkAnswered(r, result)) ==
            match result
            case Failed(_) => Remembered(r)
            case Answered(handle, response, close) =>
              Memory(r.receivedFirstMessage, r.finishAfterResponses || (close && response.Some?),
                     if handle.Some? then handle else r.handle)
  {
    hide FinishRequested, WorkSucceeded, TransportDetached;
    if result.Failed? {
      DetachedSame(r);
      FinishRemembers(TransportDetached(r), WriteFinish.Rejected);
    } else {
      SuccessRemembers(
        if result.handle.Some? then r.(handle := result.handle) else r, result.response, result.close);
    }
  }

  lemma SuccessRemembers(r: Reactor, response: Option<ServerMessage>, close: bool)
    ensures Remembered(WorkSucceeded(r, response, close)) ==
            Remembered(r).(closing := r.finishAfterResponses || (close && response.Some?))
  {
    hide FinishRequested, ResponseOffered;
    FinishRemembers(r, WriteFinish.Ok);
    if response.Some? {
      ResponseRemembers(r, response.value);
    }
  }

  /** Over every run, a stream that is up remembers exactly that a message came, that the component was closed and which
      attachment it was given last. */
  lemma RemembersTheConversation(steps: seq<Step>, step: Step)
    requires step.ReadDone? || step.WriteDone? || step.WorkDone? || step.OfferDelta?
    ensures var y := Run(steps);
            y.phase != Gone && y.reactor.gate == Open ==>
              Remembered(Next(y, step).reactor) == Learned(Remembered(y.reactor), y, step)
  {
    var y := Run(steps);
    hide Run, Next, Learned, Remembered;
    if y.phase != Gone && y.reactor.gate == Open {
      CallbackRemembers(y, step);
    }
  }

  // ---- How it is over ----

  /** Over every run, the stream is gone exactly from the moment it is told so after its one Finish, with no read and no
      write outstanding; a stream that is gone has given up its attachment. */
  lemma GoneAfterFinish(steps: seq<Step>, step: Step)
    ensures var y := Run(steps);
            var after := Next(y, step);
            && (after.phase == Gone <==>
                  || y.phase == Gone
                  || (step.StreamDone? && y.phase == Reading && y.reactor.transport.finishes == 1 &&
                      y.reactor.transport.openReads == 0 && y.reactor.transport.openWrites == 0))
            && (after.phase == Gone && y.phase != Gone ==>
                  after.reactor.gate == Done && (after.reactor.handle.Some? ==> after.reactor.detachRequested))
  {
    RunDisciplined(steps);
    hide Run, Turns, Shaped, ReadAnswered, WriteAnswered, WorkAnswered, DeltaOffered, FinishRequested, TimedOut;
  }

  /** Over every run, a stream that is finishing sends nothing more, and an answer that arrives late is taken off the
      worker's hands with the attachment it brought. */
  lemma LateAnswersAreReleased(steps: seq<Step>, result: Result)
    ensures var r := Run(steps).reactor;
            var after := Next(Run(steps), WorkDone(result)).reactor;
            r.gate != Open && Admissible(result) ==>
              && !after.working && after.transport == r.transport
              && after.cleanups == r.cleanups + if r.working && result.handle.Some? then [result.handle.value] else []
  {
    hide Run, WorkAnswered;
  }
}
