/** The stream delivers what it is offered: in order, with nothing lost or repeated, up to merging adjacent deltas. */
module ComponentDelivery {
  import opened Options
  import opened ComponentMessages
  import opened ComponentOutbox
  import opened ComponentReactor
  import WriteFinish

  /** The message a step hands to the stream while it is open for messages. */
  function Offered(y: System, step: Step): seq<ServerMessage> {
    var r := y.reactor;
    if r.gate != Open || r.finish.TerminationRequested() then []
    else
      match step
      case WorkDone(Answered(_, Some(response), _)) => if !r.working || response.Delta? then [] else [response]
      case OfferDelta(message) =>
        if !message.Delta? || !DistinctItems(message.values) || y.phase == Unborn then [] else [message]
      case _ => []
  }

  function AllOffered(steps: seq<Step>): seq<ServerMessage> {
    if steps == [] then []
    else AllOffered(steps[..|steps| - 1]) + Offered(Run(steps[..|steps| - 1]), steps[|steps| - 1])
  }

  /** The first `k` messages offered are what was sent, up to merged deltas. */
  ghost predicate SentUpTo(sent: seq<ServerMessage>, offered: seq<ServerMessage>, k: nat) {
    k <= |offered| && SameEffect(sent, offered[..k])
  }

  /** What was sent is, up to merged deltas, a prefix of what was offered. */
  ghost predicate SentPrefix(sent: seq<ServerMessage>, offered: seq<ServerMessage>) {
    exists k :: SentUpTo(sent, offered, k)
  }

  /** The first of the messages has the effect of the next `n` offered, and so on for the others. */
  ghost predicate SegmentsFrom(messages: seq<ServerMessage>, offered: seq<ServerMessage>, n: nat)
    requires messages != []
    decreases |messages|, 0
  {
    1 <= n <= |offered| && SameEffect([messages[0]], offered[..n]) && Segments(messages[1..], offered[n..])
  }

  /** Each message stands for a contiguous stretch of what was offered, in order and without gaps. */
  ghost predicate Segments(messages: seq<ServerMessage>, offered: seq<ServerMessage>)
    decreases |messages|
  {
    if messages == [] then offered == [] else exists n :: SegmentsFrom(messages, offered, n)
  }

  /** Sent is a prefix of what was offered, and the queue stands, message by message, for the rest. */
  ghost predicate DeliversFrom(
      sent: seq<ServerMessage>, queued: seq<ServerMessage>, offered: seq<ServerMessage>, k: nat)
  {
    SentUpTo(sent, offered, k) && Segments(queued, offered[k..])
  }

  ghost predicate Delivers(r: Reactor, offered: seq<ServerMessage>) {
    && DistinctDeltas(Messages(r.outbox))
    && exists k :: DeliversFrom(r.transport.sent, Messages(r.outbox), offered, k)
  }

  /** Always a prefix of what was offered was sent; and while the stream is not ending, the rest is queued. */
  ghost predicate Faithful(r: Reactor, offered: seq<ServerMessage>) {
    if r.finish.TerminationRequested() then SentPrefix(r.transport.sent, offered) else Delivers(r, offered)
  }

  lemma DeliversPrefix(r: Reactor, offered: seq<ServerMessage>)
    requires Delivers(r, offered)
    ensures SentPrefix(r.transport.sent, offered)
  {
    hide SentUpTo, Segments;
    var k: nat :| DeliversFrom(r.transport.sent, Messages(r.outbox), offered, k);
    assert SentUpTo(r.transport.sent, offered, k);
  }

  lemma FaithfulPrefix(r: Reactor, offered: seq<ServerMessage>)
    requires Faithful(r, offered)
    ensures SentPrefix(r.transport.sent, offered)
  {
    hide SentPrefix, Delivers;
    if !r.finish.TerminationRequested() {
      DeliversPrefix(r, offered);
    }
  }

  // ---- Segments ----

  lemma SameEffectBoth(a: seq<ServerMessage>, b: seq<ServerMessage>, c: seq<ServerMessage>, d: seq<ServerMessage>)
    requires SameEffect(a, b) && SameEffect(c, d)
    ensures SameEffect(a + c, b + d)
  {
    hide SameEffect;
    SameEffectAppend(a, b, c);
    SameEffectPrepend(b, c, d);
    SameEffectChain(a + c, b + c, b + d);
  }

  /** Together the messages have the effect of everything they stand for. */
  lemma {:induction false} SegmentsEffect(messages: seq<ServerMessage>, offered: seq<ServerMessage>)
    requires Segments(messages, offered)
    ensures SameEffect(messages, offered)
    decreases |messages|
  {
    hide SameEffect;
    if messages == [] {
      SameEffectSelf([]);
    } else {
      var n: nat :| SegmentsFrom(messages, offered, n);
      SegmentsEffect(messages[1..], offered[n..]);
      SameEffectBoth([messages[0]], offered[..n], messages[1..], offered[n..]);
      assert messages == [messages[0]] + messages[1..];
      assert offered == offered[..n] + offered[n..];
    }
  }

  lemma SegmentsIntro(messages: seq<ServerMessage>, offered: seq<ServerMessage>, n: nat)
    requires messages != [] && SegmentsFrom(messages, offered, n)
    ensures Segments(messages, offered)
  {
  }

  lemma SegmentsOne(message: ServerMessage, offered: seq<ServerMessage>)
    requires offered != [] && SameEffect([message], offered)
    ensures Segments([message], offered)
  {
    hide SameEffect;
    var n := |offered|;
    assert offered[..n] == offered && offered[n..] == [] && [message][1..] == [];
    assert Segments([message][1..], offered[n..]);
    SegmentsIntro([message], offered, n);
  }

  /** A message queued behind the others stands for itself. */
  lemma {:induction false} SegmentsAppend(messages: seq<ServerMessage>, offered: seq<ServerMessage>, m: ServerMessage)
    requires Segments(messages, offered)
    ensures Segments(messages + [m], offered + [m])
    decreases |messages|
  {
    hide SameEffect;
    if messages == [] {
      SameEffectSelf([m]);
      assert [] + [m] == [m];
      SegmentsOne(m, [m]);
    } else {
      var n: nat :| SegmentsFrom(messages, offered, n);
      SegmentsAppend(messages[1..], offered[n..], m);
      assert (messages + [m])[1..] == messages[1..] + [m];
      assert (offered + [m])[..n] == offered[..n] && (offered + [m])[n..] == offered[n..] + [m];
      SegmentsIntro(messages + [m], offered + [m], n);
    }
  }

  /** A delta merged into the last message makes that message stand for one more. */
  lemma {:induction false} SegmentsMerge(
      front: seq<ServerMessage>, back: ServerMessage, merged: ServerMessage,
      offered: seq<ServerMessage>, m: ServerMessage)
    requires Segments(front + [back], offered) && SameEffect([merged], [back, m])
    ensures Segments(front + [merged], offered + [m])
    decreases |front|
  {
    hide SameEffect;
    var messages := front + [back];
    var n: nat :| SegmentsFrom(messages, offered, n);
    if front == [] {
      assert messages == [back] && messages[1..] == [];
      assert Segments([], offered[n..]);
      assert offered[n..] == [];
      assert offered[..n] == offered;
      SameEffectAppend([back], offered, [m]);
      assert [back] + [m] == [back, m];
      SameEffectChain([merged], [back, m], offered + [m]);
      SegmentsOne(merged, offered + [m]);
      assert [] + [merged] == [merged];
    } else {
      assert messages[0] == front[0] && messages[1..] == front[1..] + [back];
      SegmentsMerge(front[1..], back, merged, offered[n..], m);
      assert (front + [merged])[0] == front[0] && (front + [merged])[1..] == front[1..] + [merged];
      assert (offered + [m])[..n] == offered[..n] && (offered + [m])[n..] == offered[n..] + [m];
      SegmentsIntro(front + [merged], offered + [m], n);
    }
  }

  lemma SameEffectChain(a: seq<ServerMessage>, b: seq<ServerMessage>, c: seq<ServerMessage>)
    requires SameEffect(a, b) && SameEffect(b, c)
    ensures SameEffect(a, c)
  {
  }

  /** The parts of a reactor that delivery depends on. */
  predicate SameDelivery(r: Reactor, q: Reactor) {
    q.outbox == r.outbox && q.transport.sent == r.transport.sent
  }

  lemma UntouchedDelivers(r: Reactor, q: Reactor, offered: seq<ServerMessage>)
    requires Delivers(r, offered) && SameDelivery(r, q)
    ensures Delivers(q, offered)
  {
  }

  lemma EndingAbandons(r: Reactor, q: Reactor, offered: seq<ServerMessage>)
    requires Faithful(r, offered) && q.finish.TerminationRequested() && q.transport.sent == r.transport.sent
    ensures Faithful(q, offered)
  {
    hide SentPrefix, Delivers;
    FaithfulPrefix(r, offered);
  }

  lemma FinishEnds(r: Reactor, status: WriteFinish.Status)
    ensures FinishRequested(r, status).finish.TerminationRequested()
    ensures FinishRequested(r, status).transport.sent == r.transport.sent
  {
    hide FinishIfReady;
    ReadyEnds(r.(outbox := [], resumeReadWhenIdle := false, finish := WriteFinish.FinishRequested(r.finish, status)));
  }

  lemma ReadyEnds(r: Reactor)
    ensures r.finish.TerminationRequested() ==> FinishIfReady(r).finish.TerminationRequested()
    ensures FinishIfReady(r).transport.sent == r.transport.sent
  {
  }

  lemma DetachEnds(r: Reactor, status: WriteFinish.Status)
    ensures FinishRequested(TransportDetached(r), status).finish.TerminationRequested()
    ensures FinishRequested(TransportDetached(r), status).transport.sent == r.transport.sent
  {
    hide FinishRequested;
    FinishEnds(TransportDetached(r), status);
  }

  lemma DeliversIntro(r: Reactor, offered: seq<ServerMessage>, k: nat)
    requires DistinctDeltas(Messages(r.outbox)) && DeliversFrom(r.transport.sent, Messages(r.outbox), offered, k)
    ensures Delivers(r, offered)
  {
    hide DeliversFrom, DistinctDeltas;
  }

  /** Starting the write of a message is giving it to the transport. */
  lemma StartDelivers(r: Reactor, entry: Entry, offered: seq<ServerMessage>)
    requires Delivers(r, offered) && r.finish.MayStartWrite() && r.outbox == []
    ensures Delivers(WriteStarted(r, entry), offered + [entry.message])
  {
    hide SameEffect;
    var q, m, all := WriteStarted(r, entry), entry.message, offered + [entry.message];
    var k: nat :| DeliversFrom(r.transport.sent, Messages(r.outbox), offered, k);
    assert Messages(r.outbox) == [] && Messages(q.outbox) == [];
    assert offered[k..] == [] && offered[..k] == offered;
    SameEffectAppend(r.transport.sent, offered, [m]);
    assert all[..|all|] == all && all[|all|..] == [];
    DeliversIntro(q, all, |all|);
  }

  /** Queueing extends what the queue stands for. */
  lemma QueueDelivers(r: Reactor, q: Reactor, message: ServerMessage, offered: seq<ServerMessage>, k: nat)
    requires DeliversFrom(r.transport.sent, Messages(r.outbox), offered, k)
    requires q.transport.sent == r.transport.sent && DistinctDeltas(Messages(q.outbox))
    requires Segments(Messages(q.outbox), offered[k..] + [message])
    ensures Delivers(q, offered + [message])
  {
    hide SameEffect, Segments, DistinctDeltas;
    assert (offered + [message])[..k] == offered[..k] && (offered + [message])[k..] == offered[k..] + [message];
    DeliversIntro(q, offered + [message], k);
  }

  lemma PushedSegments(outbox: seq<Entry>, message: ServerMessage, rest: seq<ServerMessage>)
    requires Segments(Messages(outbox), rest) && message.Delta?
    requires DistinctDeltas(Messages(outbox))
    ensures Segments(Messages(PushedDelta(outbox, message)), rest + [message])
  {
    hide SameEffect, Segments;
    var queued, pushed := Messages(outbox), Messages(PushedDelta(outbox, message));
    if EndsInDelta(outbox) {
      var n := |outbox| - 1;
      var front, back, merged := Messages(outbox[..n]), outbox[n].message, pushed[n];
      assert queued[n] == back;
      assert queued == front + [back] && pushed == front + [merged];
      MergedEffect(back, message);
      SegmentsMerge(front, back, merged, rest, message);
    } else {
      assert pushed == queued + [message];
      SegmentsAppend(queued, rest, message);
    }
  }

  lemma DeltaDelivers(r: Reactor, message: ServerMessage, offered: seq<ServerMessage>)
    requires Settled(r) && r.gate == Open && !r.finish.TerminationRequested()
    requires Delivers(r, offered) && message.Delta? && DistinctItems(message.values)
    ensures Delivers(DeltaOffered(r, message), offered + [message])
  {
    if r.finish.writeInFlight {
      hide SameEffect, Settled, Segments, PushedDelta, DistinctDeltas;
      var k: nat :| DeliversFrom(r.transport.sent, Messages(r.outbox), offered, k);
      PushKeepsEffect(r.outbox, message);
      PushedSegments(r.outbox, message, offered[k..]);
      QueueDelivers(r, DeltaOffered(r, message), message, offered, k);
    } else {
      StartDelivers(r, Entry(message, false), offered);
    }
  }

  lemma ResponseDelivers(r: Reactor, message: ServerMessage, offered: seq<ServerMessage>)
    requires Settled(r) && r.gate == Open && !r.finish.TerminationRequested()
    requires Delivers(r, offered) && !message.Delta?
    ensures Delivers(ResponseOffered(r, message), offered + [message])
  {
    if r.finish.writeInFlight {
      hide SameEffect, Settled, Segments;
      var k: nat :| DeliversFrom(r.transport.sent, Messages(r.outbox), offered, k);
      var queued, pushed := Messages(r.outbox), Messages(PushedResponse(r.outbox, message));
      PushResponseKeepsEffect(r.outbox, message);
      assert forall i :: 0 <= i < |queued| ==> pushed[i] == queued[i];
      SegmentsAppend(queued, offered[k..], message);
      QueueDelivers(r, ResponseOffered(r, message), message, offered, k);
    } else {
      StartDelivers(r, Entry(message, true), offered);
    }
  }

  /** Taking the front of the queue moves it, without passing anything, from the queue to the transport. */
  lemma PopDelivers(r: Reactor, offered: seq<ServerMessage>)
    requires Delivers(r, offered) && r.finish.MayStartWrite() && r.outbox != []
    ensures Delivers(WriteStarted(r.(outbox := r.outbox[1..]), r.outbox[0]), offered)
  {
    hide SameEffect, Segments, DistinctDeltas;
    var q := WriteStarted(r.(outbox := r.outbox[1..]), r.outbox[0]);
    var sent, queued := r.transport.sent, Messages(r.outbox);
    var k: nat :| DeliversFrom(sent, queued, offered, k);
    MessagesTail(r.outbox);
    var n := FirstSegment(queued, offered[k..]);
    SameEffectBoth(sent, offered[..k], [queued[0]], offered[k..][..n]);
    SliceTwice(offered, k, n);
    DeliversIntro(q, offered, k + n);
  }

  lemma MessagesTail(outbox: seq<Entry>)
    requires outbox != []
    ensures Messages(outbox) != [] && Messages(outbox)[0] == outbox[0].message
    ensures Messages(outbox)[1..] == Messages(outbox[1..])
    ensures DistinctDeltas(Messages(outbox)) ==> DistinctDeltas(Messages(outbox[1..]))
  {
    var tail := Messages(outbox[1..]);
    assert forall i :: 0 <= i < |tail| ==> tail[i] == Messages(outbox)[i + 1];
  }

  lemma FirstSegment(messages: seq<ServerMessage>, offered: seq<ServerMessage>) returns (n: nat)
    requires messages != [] && Segments(messages, offered)
    ensures SegmentsFrom(messages, offered, n)
  {
    n :| SegmentsFrom(messages, offered, n);
  }

  lemma SliceTwice<T>(s: seq<T>, k: nat, n: nat)
    requires k + n <= |s|
    ensures s[..k] + s[k..][..n] == s[..k + n] && s[k..][n..] == s[k + n..]
  {
  }

  lemma WriteAnsweredDelivers(r: Reactor, ok: bool, offered: seq<ServerMessage>)
    requires Faithful(r, offered) && r.gate == Open && !r.finish.finishStarted && r.finish.writeInFlight
    ensures Faithful(WriteAnswered(r, ok), offered)
  {
    hide Delivers, SentPrefix;
    var q := WriteAnswered(r, ok);
    var completed := r.(finish := WriteFinish.WriteCompleted(r.finish, ok));
    if completed.finish.MayFinish() {
      EndingAbandons(r, q, offered);
    } else {
      var idle := completed.(resumeReadWhenIdle := completed.resumeReadWhenIdle || completed.activeResponse);
      UntouchedDelivers(r, idle, offered);
      if idle.outbox != [] {
        PopDelivers(idle, offered);
      } else if idle.finishAfterResponses {
        FinishEnds(idle, WriteFinish.Ok);
        EndingAbandons(r, q, offered);
      } else {
        UntouchedDelivers(r, q, offered);
      }
    }
  }

  lemma ResponseKeepsOpen(r: Reactor, message: ServerMessage)
    requires !r.finish.TerminationRequested()
    ensures !ResponseOffered(r, message).finish.TerminationRequested()
  {
  }

  lemma WorkSucceededDelivers(r: Reactor, response: Option<ServerMessage>, close: bool, offered: seq<ServerMessage>)
    requires Settled(r) && r.gate == Open && !r.finish.TerminationRequested() && Delivers(r, offered)
    requires response.Some? ==> !response.value.Delta?
    ensures Faithful(WorkSucceeded(r, response, close), offered + if response.Some? then [response.value] else [])
  {
    hide Delivers, SentPrefix, FinishRequested, ResponseOffered, Settled;
    var q := WorkSucceeded(r, response, close);
    if response.Some? {
      ResponseDelivers(r, response.value, offered);
      ResponseKeepsOpen(r, response.value);
      UntouchedDelivers(ResponseOffered(r, response.value), q, offered + [response.value]);
    } else {
      assert offered + [] == offered;
      if close {
        FinishEnds(r, WriteFinish.Ok);
        EndingAbandons(r, q, offered);
      } else {
        UntouchedDelivers(r, q, offered);
      }
    }
  }

  lemma WorkAnsweredDelivers(r: Reactor, result: Result, offered: seq<ServerMessage>)
    requires Settled(r) && r.gate == Open && !r.finish.TerminationRequested() && Delivers(r, offered)
    requires result.Answered? && result.response.Some? ==> !result.response.value.Delta?
    ensures Faithful(WorkAnswered(r, result),
                     offered + if result.Answered? && result.response.Some? then [result.response.value] else [])
  {
    hide Delivers, SentPrefix, FinishRequested, TransportDetached, WorkSucceeded;
    if result.Failed? {
      DetachEnds(r, WriteFinish.Rejected);
      EndingAbandons(r, WorkAnswered(r, result), offered);
      assert offered + [] == offered;
    } else {
      var owned := if result.handle.Some? then r.(handle := result.handle) else r;
      UntouchedDelivers(r, owned, offered);
      WorkSucceededDelivers(owned, result.response, result.close, offered);
    }
  }

  lemma FaithfulSame(r: Reactor, q: Reactor, offered: seq<ServerMessage>)
    requires Faithful(r, offered) && SameDelivery(r, q)
    requires q.finish.TerminationRequested() == r.finish.TerminationRequested()
    ensures Faithful(q, offered)
  {
    if r.finish.TerminationRequested() {
      EndingAbandons(r, q, offered);
    } else {
      UntouchedDelivers(r, q, offered);
    }
  }

  lemma DetachedSame(r: Reactor)
    ensures TransportDetached(r).finish == r.finish && TransportDetached(r).transport == r.transport
    ensures TransportDetached(r).outbox == r.outbox
  {
  }

  lemma EndedWork(r: Reactor, result: Result)
    requires r.finish.TerminationRequested()
    ensures WorkAnswered(r, result).finish.TerminationRequested()
    ensures WorkAnswered(r, result).transport.sent == r.transport.sent
  {
    hide FinishRequested, TransportDetached;
    if result.Failed? {
      DetachEnds(r, WriteFinish.Rejected);
    } else {
      FinishEnds(if result.handle.Some? then r.(handle := result.handle) else r, WriteFinish.Ok);
    }
  }

  /** Work results and offers on a stream that is already ending leave it alone. */
  lemma EndingUntouched(y: System, step: Step)
    requires Disciplined(y) && y.reactor.finish.TerminationRequested()
    requires step.WorkDone? || step.OfferDelta?
    ensures Next(y, step).reactor.finish.TerminationRequested()
    ensures Next(y, step).reactor.transport.sent == y.reactor.transport.sent
  {
    hide Disciplined, FinishRequested, TransportDetached, WorkAnswered;
    if step.WorkDone? {
      EndedWork(y.reactor.(working := false), step.result);
    }
  }

  lemma ReadAnsweredDelivers(r: Reactor, ok: bool, submitted: bool, offered: seq<ServerMessage>)
    requires Faithful(r, offered)
    ensures Faithful(ReadAnswered(r, ok, submitted), offered)
  {
    hide Faithful, FinishRequested, TransportDetached;
    if r.finish.TerminationRequested() {
    } else if !ok {
      DetachEnds(r, WriteFinish.Ok);
      EndingAbandons(r, ReadAnswered(r, ok, submitted), offered);
    } else if submitted {
      FaithfulSame(r, ReadAnswered(r, ok, submitted), offered);
    } else {
      FinishEnds(r.(receivedFirstMessage := true), WriteFinish.ResourceExhausted);
      EndingAbandons(r, ReadAnswered(r, ok, submitted), offered);
    }
  }

  lemma ReadDoneDelivers(y: System, ok: bool, submitted: bool, offered: seq<ServerMessage>)
    requires Faithful(y.reactor, offered)
    ensures Faithful(Next(y, ReadDone(ok, submitted)).reactor, offered)
  {
    hide Faithful, ReadAnswered;
    var r := y.reactor;
    if r.transport.openReads > 0 {
      var answered := r.(transport := r.transport.(openReads := r.transport.openReads - 1));
      FaithfulSame(r, answered, offered);
      ReadAnsweredDelivers(answered, ok, submitted, offered);
    }
  }

  lemma WorkDoneDelivers(y: System, result: Result, offered: seq<ServerMessage>)
    requires Disciplined(y) && Faithful(y.reactor, offered) && !y.reactor.finish.TerminationRequested()
    ensures Faithful(Next(y, WorkDone(result)).reactor, offered + Offered(y, WorkDone(result)))
  {
    var r := y.reactor;
    var answered := r.(working := false);
    assert Settled(answered) && r.gate == Open;
    hide Faithful, Disciplined, Settled, WorkAnswered;
    assert offered + [] == offered;
    FaithfulSame(r, answered, offered);
    if r.working && !(result.Answered? && result.response.Some? && result.response.value.Delta?) {
      FaithfulDelivers(answered, offered);
      WorkAnsweredDelivers(answered, result, offered);
    }
  }

  lemma FaithfulDelivers(r: Reactor, offered: seq<ServerMessage>)
    requires !r.finish.TerminationRequested()
    ensures Faithful(r, offered) <==> Delivers(r, offered)
  {
  }

  lemma OfferDelivers(y: System, message: ServerMessage, offered: seq<ServerMessage>)
    requires Disciplined(y) && Faithful(y.reactor, offered) && !y.reactor.finish.TerminationRequested()
    ensures Faithful(Next(y, OfferDelta(message)).reactor, offered + Offered(y, OfferDelta(message)))
  {
    var r := y.reactor;
    assert Settled(r) && r.gate == Open;
    hide Disciplined, Settled, DeltaOffered, Delivers, SentPrefix;
    assert offered + [] == offered;
    if message.Delta? && DistinctItems(message.values) && y.phase != Unborn {
      DeltaDelivers(r, message, offered);
      DeltaKeepsOpen(r, message);
    }
  }

  lemma DeltaKeepsOpen(r: Reactor, message: ServerMessage)
    requires !r.finish.TerminationRequested()
    ensures !DeltaOffered(r, message).finish.TerminationRequested()
  {
  }

  lemma WriteDoneDelivers(y: System, ok: bool, offered: seq<ServerMessage>)
    requires Disciplined(y) && Faithful(y.reactor, offered)
    ensures Faithful(Next(y, WriteDone(ok)).reactor, offered)
  {
    var r := y.reactor;
    assert Coherent(r);
    hide Faithful, Disciplined, WriteAnswered, Shaped;
    if r.transport.openWrites > 0 && y.phase != Gone {
      var answered := r.(transport := r.transport.(openWrites := r.transport.openWrites - 1));
      FaithfulSame(r, answered, offered);
      WriteAnsweredDelivers(answered, ok, offered);
    }
  }

  lemma FinishingDelivers(y: System, step: Step, offered: seq<ServerMessage>)
    requires Faithful(y.reactor, offered)
    requires step.Construct? || step.Cancel? || step.Shutdown? || step.Tick? || step.HeartbeatTimeout?
    ensures Faithful(Next(y, step).reactor, offered)
  {
    hide Faithful, FinishRequested, TransportDetached;
    var r, q := y.reactor, Next(y, step).reactor;
    var status := match step
      case Construct(registered, _) => if registered then WriteFinish.ResourceExhausted else WriteFinish.Unavailable
      case Cancel => WriteFinish.Cancelled
      case Shutdown => WriteFinish.Unavailable
      case _ => WriteFinish.DeadlineExceeded;
    FinishEnds(r, status);
    DetachEnds(r, status);
    FinishEnds(r.(detachRequested := true), status);
    if q != r {
      EndingAbandons(r, q, offered);
    }
  }

  lemma NextDelivers(y: System, step: Step, offered: seq<ServerMessage>)
    requires Disciplined(y) && Faithful(y.reactor, offered)
    ensures Faithful(Next(y, step).reactor, offered + Offered(y, step))
  {
    hide Disciplined, Faithful, Next, Run;
    if step.WriteDone? {
      WriteDoneDelivers(y, step.ok, offered);
      assert offered + [] == offered;
    } else if step.Construct? || step.Cancel? || step.Shutdown? || step.Tick? || step.HeartbeatTimeout? {
      FinishingDelivers(y, step, offered);
      assert offered + [] == offered;
    } else if step.ReadDone? {
      ReadDoneDelivers(y, step.ok, step.submitted, offered);
      assert offered + [] == offered;
    } else if step.BeginReading? || step.StreamDone? {
      PlainDelivers(y, step, offered);
      assert offered + [] == offered;
    } else if y.reactor.finish.TerminationRequested() {
      EndingUntouched(y, step);
      EndingAbandons(y.reactor, Next(y, step).reactor, offered);
      assert offered + [] == offered;
    } else if step.WorkDone? {
      WorkDoneDelivers(y, step.result, offered);
    } else {
      OfferDelivers(y, step.message, offered);
    }
  }

  lemma PlainDelivers(y: System, step: Step, offered: seq<ServerMessage>)
    requires Faithful(y.reactor, offered) && (step.BeginReading? || step.StreamDone?)
    ensures Faithful(Next(y, step).reactor, offered)
  {
    hide Faithful, TransportDetached;
    DetachedSame(y.reactor.(gate := Done));
    FaithfulSame(y.reactor, Next(y, step).reactor, offered);
  }

  lemma {:induction false} RunFaithful(steps: seq<Step>)
    ensures Faithful(Run(steps).reactor, AllOffered(steps))
  {
    if steps == [] {
      SameEffectSelf([]);
      assert Messages([]) == [];
      DeliversIntro(Run([]).reactor, [], 0);
    } else {
      var before := steps[..|steps| - 1];
      RunFaithful(before);
      RunDisciplined(before);
      hide Faithful, Next, Run;
      NextDelivers(Run(before), steps[|steps| - 1], AllOffered(before));
    }
  }

  /** Over every run and whether or not the stream is ending, what was sent is a prefix of what was offered, up to
      merged deltas: whatever a client knew before, it holds exactly what it would hold after the first so many
      messages offered, and it got the same responses at the same points. */
  lemma StreamIsFaithful(steps: seq<Step>) returns (k: nat)
    ensures k <= |AllOffered(steps)|
    ensures SameEffect(Run(steps).reactor.transport.sent, AllOffered(steps)[..k])
    ensures !Run(steps).reactor.finish.TerminationRequested() ==>
              SameEffect(Messages(Run(steps).reactor.outbox), AllOffered(steps)[k..])
  {
    RunFaithful(steps);
    var r, offered := Run(steps).reactor, AllOffered(steps);
    hide Run, SameEffect;
    if r.finish.TerminationRequested() {
      k :| SentUpTo(r.transport.sent, offered, k);
    } else {
      k :| DeliversFrom(r.transport.sent, Messages(r.outbox), offered, k);
      SegmentsEffect(Messages(r.outbox), offered[k..]);
    }
  }

  /** While the stream is open, what was sent and still waits has the effect of everything offered. */
  lemma DeliversEffect(r: Reactor, offered: seq<ServerMessage>)
    requires Delivers(r, offered)
    ensures SameEffect(r.transport.sent + Messages(r.outbox), offered)
  {
    hide SameEffect, Segments;
    var queued := Messages(r.outbox);
    var k: nat :| DeliversFrom(r.transport.sent, queued, offered, k);
    SegmentsEffect(queued, offered[k..]);
    SameEffectBoth(r.transport.sent, offered[..k], queued, offered[k..]);
    assert offered[..k] + offered[k..] == offered;
  }
}
