/** The stream object: each callback of the reactor carried out on its own fields, its outbox and its write state. */
module ComponentStream {
  import opened Options
  import opened ComponentMessages
  import opened ComponentOutbox
  import R = ComponentReactor
  import WriteFinish

  class ComponentReactorObject {
    const finish: WriteFinish.DeferredWriteFinish
    const outbox: Outbox
    var transport: R.Transport
    var gate: R.Gate
    var response: Option<ServerMessage>
    var activeResponse: bool
    var resumeReadWhenIdle: bool
    var receivedFirstMessage: bool
    var finishAfterResponses: bool
    var detachRequested: bool
    var handle: Option<R.Handle>
    var working: bool
    var cleanups: seq<R.Handle>

    ghost function View(): R.Reactor
      reads this, finish, outbox
    {
      R.Reactor(transport, gate, finish.View(), outbox.entries, response, activeResponse, resumeReadWhenIdle,
                receivedFirstMessage, finishAfterResponses, detachRequested, handle, working, cleanups)
    }

    constructor ()
      ensures View() == R.FRESH && fresh(finish) && fresh(outbox)
    {
      finish := new WriteFinish.DeferredWriteFinish();
      outbox := new Outbox();
      transport, gate := R.Transport(0, 0, 0, false, []), R.Open;
      response, activeResponse, resumeReadWhenIdle := None, false, false;
      receivedFirstMessage, finishAfterResponses, detachRequested := false, false, false;
      handle, working, cleanups := None, false, [];
    }

    method StartRead()
      modifies this`transport
      ensures View() == R.ReadStarted(old(View()))
    {
      transport := transport.(openReads := transport.openReads + 1);
    }

    method StartWrite(entry: Entry)
      modifies this, finish
      ensures View() == R.WriteStarted(old(View()), entry)
    {
      transport := transport.(clobbered := transport.clobbered || transport.openWrites > 0);
      response := Some(entry.message);
      activeResponse := entry.resumeRead;
      var started := finish.TryStartWrite();
      if !started {
        return;
      }
      transport := transport.(openWrites := transport.openWrites + 1, sent := transport.sent + [entry.message]);
    }

    method FinishIfReady() returns (finished: bool)
      modifies this, finish
      ensures View() == R.FinishIfReady(old(View())) && finished == old(View()).finish.MayFinish()
    {
      var status := finish.TakeFinishStatus();
      if status.None? {
        return false;
      }
      if gate == R.Open {
        gate := R.Finishing;
        transport := transport.(finishes := transport.finishes + 1);
      }
      return true;
    }

    method RequestFinish(status: WriteFinish.Status)
      modifies this, finish, outbox
      ensures View() == R.FinishRequested(old(View()), status)
    {
      outbox.Clear();
      resumeReadWhenIdle := false;
      finish.RequestFinish(status);
      var _ := FinishIfReady();
    }

    method DetachTransport()
      modifies this
      ensures View() == R.TransportDetached(old(View()))
    {
      if detachRequested || handle.None? {
        return;
      }
      detachRequested := true;
      cleanups := cleanups + [handle.value];
    }

    method OfferDelta(message: ServerMessage)
      modifies this, finish, outbox
      ensures View() == R.DeltaOffered(old(View()), message)
    {
      if finish.terminal.Some? || finish.finishStarted {
        return;
      }
      if finish.writeInFlight {
        outbox.PushDelta(message);
        return;
      }
      StartWrite(Entry(message, false));
    }

    method OfferResponse(message: ServerMessage)
      modifies this, finish, outbox
      ensures View() == R.ResponseOffered(old(View()), message)
    {
      if finish.terminal.Some? || finish.finishStarted {
        return;
      }
      if finish.writeInFlight {
        outbox.PushResponse(message);
        return;
      }
      StartWrite(Entry(message, true));
    }

    method OnReadDone(ok: bool, submitted: bool)
      modifies this, finish, outbox
      ensures View() == R.ReadAnswered(old(View()), ok, submitted)
    {
      hide R.FinishRequested, R.TransportDetached;
      if finish.terminal.Some? || finish.finishStarted {
        return;
      }
      if !ok {
        DetachTransport();
        RequestFinish(WriteFinish.Ok);
        return;
      }
      receivedFirstMessage := true;
      if submitted {
        working := true;
      } else {
        RequestFinish(WriteFinish.ResourceExhausted);
      }
    }

    method OnWriteDone(ok: bool)
      modifies this, finish, outbox
      ensures View() == R.WriteAnswered(old(View()), ok)
    {
      hide R.FinishRequested, R.WriteStarted;
      finish.CompleteWrite(ok);
      var finished := FinishIfReady();
      if finished || !ok {
        return;
      }
      if activeResponse {
        resumeReadWhenIdle := true;
      }
      if outbox.entries != [] {
        var entry := outbox.PopFront();
        StartWrite(entry);
      } else if finishAfterResponses {
        RequestFinish(WriteFinish.Ok);
      } else if resumeReadWhenIdle {
        resumeReadWhenIdle := false;
        StartRead();
      }
    }

    method OnWorkResult(result: R.Result)
      modifies this, finish, outbox
      ensures View() == R.WorkAnswered(old(View()), result)
    {
      hide R.FinishRequested, R.TransportDetached, R.ResponseOffered;
      if result.Failed? {
        DetachTransport();
        RequestFinish(WriteFinish.Rejected);
        return;
      }
      if result.handle.Some? {
        handle := result.handle;
      }
      if result.response.Some? {
        OfferResponse(result.response.value);
        if result.close {
          detachRequested := true;
          finishAfterResponses := true;
        }
      } else if result.close {
        RequestFinish(WriteFinish.Ok);
      } else if !(finish.terminal.Some? || finish.finishStarted) {
        StartRead();
      }
    }

    method OnHeartbeatTimeout(generation: nat)
      modifies this, finish, outbox
      ensures View() == R.TimedOut(old(View()), generation)
    {
      hide R.FinishRequested;
      if handle.Some? && handle.value.generation == generation {
        detachRequested := true;
        RequestFinish(WriteFinish.DeadlineExceeded);
      }
    }
  }
}
