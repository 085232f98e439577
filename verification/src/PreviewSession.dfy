/** One preview session: the parser produces messages, the session queues and writes them, and holds the parser back. */
module PreviewDelivery {
  import opened Options
  import AdmissionCounter

  /** How a preview ends: with the number of operations, or with an error. */
  datatype Ending = Summary(operationCount: nat) | Failure(text: string)

  datatype Message<Op> = Batch(ops: seq<Op>) | Progress(count: nat) | Terminal(ending: Ending)

  /** `posted` are messages on their way to the session's thread, `writing` the one being written; `closing` says that
      the client sent something itself, so that the session is about to close. */
  datatype Session<Op> = Session(
    posted: seq<Message<Op>>,
    queue: seq<Message<Op>>,
    writing: Option<Message<Op>>,
    outstanding: nat,
    closing: bool,
    closed: bool)

  function Opened<Op>(): Session<Op> {
    Session([], [], None, 0, false, false)
  }

  /** Progress replaces progress that is still last in the queue. */
  function Enqueued<Op>(queue: seq<Message<Op>>, message: Message<Op>): seq<Message<Op>> {
    if message.Progress? && queue != [] && queue[|queue| - 1].Progress? then queue[..|queue| - 1] + [message]
    else queue + [message]
  }

  function Pumped<Op>(s: Session<Op>): Session<Op> {
    if s.writing.Some? || s.queue == [] || s.closed then s
    else s.(queue := s.queue[1..], writing := Some(s.queue[0]))
  }

  /** The parser waits while two of its batches are outstanding. */
  predicate MaySend<Op>(s: Session<Op>) {
    !s.closed && s.outstanding < 2
  }

  function Sent<Op>(s: Session<Op>, message: Message<Op>): Session<Op> {
    s.(posted := s.posted + [message], outstanding := s.outstanding + if message.Batch? then 1 else 0)
  }

  function Arrived<Op>(s: Session<Op>): Session<Op>
    requires s.posted != []
  {
    var rest := s.(posted := s.posted[1..]);
    if s.closed then rest else Pumped(rest.(queue := Enqueued(s.queue, s.posted[0])))
  }

  function Failed<Op>(s: Session<Op>): Session<Op> {
    s.(closed := true, queue := [])
  }

  /** The write no longer counts; a batch makes room for another. */
  function Counted<Op>(s: Session<Op>): Session<Op>
    requires s.writing.Some?
  {
    s.(writing := None,
       outstanding := if s.writing.value.Batch? then AdmissionCounter.Lowered(s.outstanding) else s.outstanding)
  }

  /** After the end, or when the client sent something, the closing handshake starts and the queue rests until it is
      over. */
  function WriteCompleted<Op>(s: Session<Op>, ok: bool): Session<Op>
    requires s.writing.Some?
  {
    if !ok then Failed(s.(writing := None))
    else if s.closing || s.writing.value.Terminal? then Counted(s)
    else Pumped(Counted(s))
  }

  // ---- The session object ----

  class PreviewSession<Op> {
    var posted: seq<Message<Op>>
    var queue: seq<Message<Op>>
    var writing: Option<Message<Op>>
    var outstanding: nat
    var closing: bool
    var closed: bool

    ghost function View(): Session<Op>
      reads this
    {
      Session(posted, queue, writing, outstanding, closing, closed)
    }

    constructor ()
      ensures View() == Opened()
    {
      posted, queue, writing, outstanding, closing, closed := [], [], None, 0, false, false;
    }

    method PumpPreview()
      modifies this
      ensures View() == Pumped(old(View()))
    {
      if writing.Some? || queue == [] || closed {
        return;
      }
      writing := Some(queue[0]);
      queue := queue[1..];
    }

    method EnqueuePreview()
      requires posted != []
      modifies this
      ensures View() == Arrived(old(View()))
    {
      var message := posted[0];
      posted := posted[1..];
      if closed {
        return;
      }
      if message.Progress? && queue != [] && queue[|queue| - 1].Progress? {
        queue := queue[|queue| - 1 := message];
        assert queue == Enqueued(old(queue), message);
      } else {
        queue := queue + [message];
      }
      PumpPreview();
    }

    method OnWrite(ok: bool)
      requires writing.Some?
      modifies this
      ensures View() == WriteCompleted(old(View()), ok)
    {
      var message := writing.value;
      writing := None;
      if !ok {
        Fail();
        return;
      }
      if message.Batch? {
        outstanding := AdmissionCounter.Lowered(outstanding);
      }
      if closing || message.Terminal? {
        return;
      }
      PumpPreview();
    }

    method OnRead()
      modifies this
      ensures View() == old(View()).(closing := true)
    {
      closing := true;
    }

    method Fail()
      modifies this
      ensures View() == Failed(old(View()))
    {
      closed := true;
      queue := [];
    }
  }

  // ---- Runs ----

  /** `produced` lists what the parser sent, `written` what reached the client. */
  datatype World<Op> = World(s: Session<Op>, produced: seq<Message<Op>>, written: seq<Message<Op>>)

  datatype Step<Op> =
    | Produce(message: Message<Op>)
    | Arrive
    | WriteDone(ok: bool)
    | ApplicationData
    | Fail

  function Start<Op>(): World<Op> {
    World(Opened(), [], [])
  }

  predicate Finished<Op>(produced: seq<Message<Op>>) {
    produced != [] && produced[|produced| - 1].Terminal?
  }

  /** A summary or an error is the last thing the parser sends; batches wait for room. */
  predicate MayProduce<Op>(w: World<Op>, message: Message<Op>) {
    !Finished(w.produced) && (message.Batch? ==> MaySend(w.s))
  }

  function Next<Op>(w: World<Op>, step: Step<Op>): World<Op> {
    match step
    case Produce(message) =>
      if !MayProduce(w, message) then w else w.(s := Sent(w.s, message), produced := w.produced + [message])
    case Arrive => if w.s.posted == [] then w else w.(s := Arrived(w.s))
    case WriteDone(ok) =>
      if w.s.writing.None? then w
      else w.(s := WriteCompleted(w.s, ok), written := w.written + if ok then [w.s.writing.value] else [])
    case ApplicationData => w.(s := w.s.(closing := true))
    case Fail => w.(s := Failed(w.s))
  }

  function Run<Op>(steps: seq<Step<Op>>): World<Op> {
    if steps == [] then Start() else Next(Run(steps[..|steps| - 1]), steps[|steps| - 1])
  }

  // ---- Invariant ----

  function One(b: bool): nat {
    if b then 1 else 0
  }

  function Batches<Op>(messages: seq<Message<Op>>): nat {
    if messages == [] then 0 else Batches(messages[..|messages| - 1]) + One(messages[|messages| - 1].Batch?)
  }

  /** The messages that are not progress. */
  function Essence<Op>(messages: seq<Message<Op>>): seq<Message<Op>> {
    if messages == [] then []
    else
      Essence(messages[..|messages| - 1]) +
      if messages[|messages| - 1].Progress? then [] else [messages[|messages| - 1]]
  }

  function Active<Op>(s: Session<Op>): seq<Message<Op>> {
    if s.writing.Some? then [s.writing.value] else []
  }

  /** No two progress messages next to each other, and nothing behind a terminal message. */
  predicate Tidy<Op>(queue: seq<Message<Op>>) {
    && (forall i :: 0 <= i < |queue| - 1 ==> !queue[i].Terminal?)
    && (forall i :: 0 <= i < |queue| - 1 ==> !(queue[i].Progress? && queue[i + 1].Progress?))
  }

  /** Only the last message is terminal. */
  predicate OnceTerminal<Op>(messages: seq<Message<Op>>) {
    forall i :: 0 <= i < |messages| - 1 ==> !messages[i].Terminal?
  }

  /** Everything not yet written, in the order it will be. */
  function Ahead<Op>(s: Session<Op>): seq<Message<Op>> {
    Active(s) + s.queue + s.posted
  }

  predicate NoTerminal<Op>(messages: seq<Message<Op>>) {
    forall i :: 0 <= i < |messages| ==> !messages[i].Terminal?
  }

  /** What is ahead, with what was written, is what was produced, up to merged progress. */
  ghost predicate Accounted<Op>(w: World<Op>, ahead: seq<Message<Op>>) {
    && w.s.outstanding == Batches(ahead)
    && Essence(w.written) + Essence(ahead) == Essence(w.produced)
    && OnceTerminal(ahead)
    && (Finished(w.produced) || NoTerminal(ahead))
  }

  ghost predicate Sound<Op>(w: World<Op>) {
    && Batches(Active(w.s)) <= w.s.outstanding <= 2
    && Essence(w.written + Active(w.s)) <= Essence(w.produced)
    && (!w.s.closed ==>
          && Accounted(w, Ahead(w.s)) && Tidy(w.s.queue)
          && (w.s.writing.None? && !w.s.closing ==> w.s.queue == []))
  }

  // ---- Counting and filtering ----

  lemma {:induction false} BatchesAppend<Op>(a: seq<Message<Op>>, b: seq<Message<Op>>)
    ensures Batches(a + b) == Batches(a) + Batches(b)
  {
    if b == [] {
      assert a + b == a;
    } else {
      assert (a + b)[..|a + b| - 1] == a + b[..|b| - 1];
      BatchesAppend(a, b[..|b| - 1]);
    }
  }

  lemma {:induction false} EssenceAppend<Op>(a: seq<Message<Op>>, b: seq<Message<Op>>)
    ensures Essence(a + b) == Essence(a) + Essence(b)
  {
    if b == [] {
      assert a + b == a;
    } else {
      assert (a + b)[..|a + b| - 1] == a + b[..|b| - 1];
      EssenceAppend(a, b[..|b| - 1]);
    }
  }

  lemma Singles<Op>(m: Message<Op>)
    ensures Batches([m]) == One(m.Batch?) && Essence([m]) == if m.Progress? then [] else [m]
    ensures Batches<Op>([]) == 0 && Essence<Op>([]) == []
  {
    assert [m][..0] == [];
  }

  /** A tidy queue has at most one more progress message than other messages, and none after a terminal one. */
  lemma {:induction false} TidyBound<Op>(queue: seq<Message<Op>>)
    requires Tidy(queue)
    ensures |queue| <= 2 * |Essence(queue)| + One(queue != [] && queue[|queue| - 1].Progress?)
  {
    var n := |queue|;
    if n == 1 {
      Singles(queue[0]);
      assert queue == [queue[0]];
    } else if n >= 2 {
      TidyFront(queue, n - 1);
      TidyBound(queue[..n - 1]);
      assert queue[..n - 1][n - 2] == queue[n - 2];
    }
  }

  lemma TidyFront<Op>(queue: seq<Message<Op>>, n: nat)
    requires Tidy(queue) && n <= |queue|
    ensures Tidy(queue[..n])
  {
    assert forall i :: 0 <= i < n ==> queue[..n][i] == queue[i];
  }

  /** Messages that are not progress are batches, apart from one terminal message. */
  lemma {:induction false} EssenceBound<Op>(messages: seq<Message<Op>>)
    requires OnceTerminal(messages)
    ensures |Essence(messages)| <= Batches(messages) + One(messages != [] && messages[|messages| - 1].Terminal?)
  {
    if messages != [] {
      var n := |messages| - 1;
      assert forall i :: 0 <= i < n ==> !messages[..n][i].Terminal?;
      EssenceBound(messages[..n]);
    }
  }

  // ---- Steps ----

  lemma PumpedAhead<Op>(s: Session<Op>)
    ensures Ahead(Pumped(s)) == Ahead(s) && Pumped(s).outstanding == s.outstanding && Pumped(s).closed == s.closed
    ensures Tidy(s.queue) ==> Tidy(Pumped(s).queue)
    ensures !s.closed ==> (Pumped(s).writing.None? ==> Pumped(s).queue == [])
  {
    hide Tidy;
    if s.queue != [] {
      assert [] + s.queue + s.posted == [s.queue[0]] + s.queue[1..] + s.posted;
      if Tidy(s.queue) {
        TidyBack(s.queue);
      }
    }
  }

  lemma TidyBack<Op>(queue: seq<Message<Op>>)
    requires Tidy(queue) && queue != []
    ensures Tidy(queue[1..])
  {
    assert forall i :: 0 <= i < |queue| - 1 ==> queue[1..][i] == queue[i + 1];
  }

  lemma OrderMore<Op>(ahead: seq<Message<Op>>, message: Message<Op>)
    requires NoTerminal(ahead)
    ensures OnceTerminal(ahead + [message]) && (!message.Terminal? ==> NoTerminal(ahead + [message]))
  {
  }

  lemma EssenceMore<Op>(written: seq<Message<Op>>, ahead: seq<Message<Op>>, produced: seq<Message<Op>>, m: Message<Op>)
    requires Essence(written) + Essence(ahead) == Essence(produced)
    ensures Essence(written) + Essence(ahead + [m]) == Essence(produced + [m])
  {
    EssenceAppend(ahead, [m]);
    EssenceAppend(produced, [m]);
    hide Essence;
    assert Essence(written) + (Essence(ahead) + Essence([m])) == Essence(written) + Essence(ahead) + Essence([m]);
  }

  lemma AccountedMore<Op>(w: World<Op>, message: Message<Op>)
    requires Accounted(w, Ahead(w.s)) && MayProduce(w, message)
    ensures var after := w.(s := Sent(w.s, message), produced := w.produced + [message]);
            Accounted(after, Ahead(after.s))
  {
    hide Essence, Batches, OnceTerminal, NoTerminal;
    var ahead := Ahead(w.s);
    assert Ahead(Sent(w.s, message)) == ahead + [message];
    EssenceMore(w.written, ahead, w.produced, message);
    BatchesAppend(ahead, [message]);
    Singles(message);
    OrderMore(ahead, message);
  }

  lemma ProduceKeeps<Op>(w: World<Op>, message: Message<Op>)
    requires Sound(w) && MayProduce(w, message)
    ensures Sound(Next(w, Produce(message)))
  {
    hide Essence, Batches, Tidy, OnceTerminal, NoTerminal, Ahead;
    EssenceAppend(w.produced, [message]);
    if !w.s.closed {
      AccountedMore(w, message);
      hide Accounted;
    }
  }

  /** Queueing changes nothing but the progress shown. */
  lemma EnqueuedSame<Op>(front: seq<Message<Op>>, queue: seq<Message<Op>>, message: Message<Op>, rest: seq<Message<Op>>)
    ensures var before, after := front + queue + ([message] + rest), front + Enqueued(queue, message) + rest;
            Essence(after) == Essence(before) && Batches(after) == Batches(before)
  {
    hide Essence, Batches;
    var n := |queue| - 1;
    if message.Progress? && queue != [] && queue[n].Progress? {
      var head := front + queue[..n];
      assert front + queue + ([message] + rest) == head + ([queue[n]] + ([message] + rest));
      assert front + Enqueued(queue, message) + rest == head + ([message] + rest);
      var tail := [message] + rest;
      EssenceAppend(head, [queue[n]] + tail);
      EssenceAppend(head, tail);
      EssenceAppend([queue[n]], tail);
      BatchesAppend(head, [queue[n]] + tail);
      BatchesAppend(head, tail);
      BatchesAppend([queue[n]], tail);
      Singles(queue[n]);
    } else {
      assert front + queue + ([message] + rest) == front + Enqueued(queue, message) + rest;
    }
  }

  lemma EnqueuedOrder<Op>(
      front: seq<Message<Op>>, queue: seq<Message<Op>>, message: Message<Op>, rest: seq<Message<Op>>)
    requires OnceTerminal(front + queue + ([message] + rest)) && Tidy(queue)
    ensures Tidy(Enqueued(queue, message)) && OnceTerminal(front + Enqueued(queue, message) + rest)
    ensures NoTerminal(front + queue + ([message] + rest)) ==> NoTerminal(front + Enqueued(queue, message) + rest)
  {
    var n := |queue| - 1;
    NoTerminalQueue(front, queue, [message] + rest);
    if message.Progress? && queue != [] && queue[n].Progress? {
      TidyReplace(queue, message);
      assert front + queue + ([message] + rest) == (front + queue[..n]) + ([queue[n]] + ([message] + rest));
      assert front + Enqueued(queue, message) + rest == (front + queue[..n]) + ([message] + rest);
      hide Tidy, Enqueued;
      OrderSkips(front + queue[..n], queue[n], [message] + rest);
    } else {
      assert front + queue + ([message] + rest) == front + Enqueued(queue, message) + rest;
    }
  }

  /** Nothing in front of another message is terminal. */
  lemma NoTerminalQueue<Op>(front: seq<Message<Op>>, queue: seq<Message<Op>>, back: seq<Message<Op>>)
    requires OnceTerminal(front + queue + back) && back != []
    ensures NoTerminal(queue)
  {
    forall i | 0 <= i < |queue| ensures !queue[i].Terminal? {
      assert (front + queue + back)[|front| + i] == queue[i];
    }
  }

  lemma TidyReplace<Op>(queue: seq<Message<Op>>, message: Message<Op>)
    requires Tidy(queue) && queue != [] && queue[|queue| - 1].Progress? && message.Progress?
    ensures Tidy(queue[..|queue| - 1] + [message])
  {
    var after := queue[..|queue| - 1] + [message];
    assert forall i :: 0 <= i < |queue| - 1 ==> after[i] == queue[i];
  }

  /** Leaving out a message that is not last keeps the order of the others. */
  lemma OrderSkips<Op>(head: seq<Message<Op>>, skipped: Message<Op>, tail: seq<Message<Op>>)
    requires OnceTerminal(head + ([skipped] + tail)) && tail != []
    ensures OnceTerminal(head + tail)
    ensures NoTerminal(head + ([skipped] + tail)) ==> NoTerminal(head + tail)
  {
    var before, after := head + ([skipped] + tail), head + tail;
    assert forall i :: 0 <= i < |head| ==> after[i] == before[i];
    assert forall i :: |head| <= i < |after| ==> after[i] == before[i + 1];
  }

  lemma ArriveKeeps<Op>(w: World<Op>)
    requires Sound(w) && w.s.posted != []
    ensures Sound(Next(w, Arrive))
  {
    hide Essence, Batches, Tidy, OnceTerminal, NoTerminal;
    if !w.s.closed {
      var s := w.s;
      var message, rest := s.posted[0], s.posted[1..];
      assert s.posted == [message] + rest;
      var queued := s.(posted := rest, queue := Enqueued(s.queue, message));
      EnqueuedSame(Active(s), s.queue, message, rest);
      EnqueuedOrder(Active(s), s.queue, message, rest);
      PumpedAhead(queued);
      AccountedPrefix(w.(s := Pumped(queued)));
      ActiveBatches(Pumped(queued));
    }
  }

  lemma WriteDoneKeeps<Op>(w: World<Op>, ok: bool)
    requires Sound(w) && w.s.writing.Some?
    ensures Sound(Next(w, WriteDone(ok)))
  {
    hide Essence, Batches, Tidy, OnceTerminal, NoTerminal;
    var s, message := w.s, w.s.writing.value;
    NoBatches<Op>();
    Singles(message);
    if !ok {
      assert w.written + [] + [] == w.written;
      EssenceAppend(w.written, Active(s));
    } else if s.closed {
      assert w.written + [message] + [] == w.written + Active(s);
    } else {
      var after := w.(s := Counted(s), written := w.written + [message]);
      OpenWrite(w);
      AccountedPrefix(after);
      if message.Terminal? {
        LastIsLast(message, s.queue, s.posted);
      } else if !s.closing {
        PumpedAhead(Counted(s));
        AccountedPrefix(after.(s := Pumped(Counted(s))));
        ActiveBatches(Pumped(Counted(s)));
      }
    }
  }

  lemma NoBatches<Op>()
    ensures Batches<Op>([]) == 0
  {
  }

  lemma ActiveBatches<Op>(s: Session<Op>)
    ensures Batches(Active(s)) <= Batches(Ahead(s))
  {
    hide Batches;
    var rest := s.queue + s.posted;
    assert Ahead(s) == Active(s) + rest;
    BatchesAppend(Active(s), rest);
  }

  lemma LastIsLast<Op>(message: Message<Op>, queue: seq<Message<Op>>, posted: seq<Message<Op>>)
    requires message.Terminal? && OnceTerminal([message] + queue + posted)
    ensures queue == []
  {
    assert ([message] + queue + posted)[0] == message;
  }

  /** After the write, the first message ahead has become the last one written. */
  lemma OpenWrite<Op>(w: World<Op>)
    requires Sound(w) && w.s.writing.Some? && !w.s.closed
    ensures var after := w.(s := Counted(w.s), written := w.written + [w.s.writing.value]);
            Accounted(after, Ahead(after.s))
  {
    hide Essence, Batches, Tidy, OnceTerminal, NoTerminal;
    var message, rest := w.s.writing.value, w.s.queue + w.s.posted;
    assert Ahead(w.s) == [message] + rest;
    EssenceShifts(w.written, message, rest);
    BatchesAppend([message], rest);
    Singles(message);
    OrderRest(message, rest);
    assert [] + w.s.queue + w.s.posted == rest;
  }

  lemma EssenceShifts<Op>(written: seq<Message<Op>>, message: Message<Op>, rest: seq<Message<Op>>)
    ensures Essence(written) + Essence([message] + rest) == Essence(written + [message]) + Essence(rest)
  {
    EssenceAppend([message], rest);
    EssenceAppend(written, [message]);
    hide Essence;
    assert Essence(written) + (Essence([message]) + Essence(rest)) ==
           Essence(written) + Essence([message]) + Essence(rest);
  }

  lemma OrderRest<Op>(message: Message<Op>, rest: seq<Message<Op>>)
    ensures OnceTerminal([message] + rest) ==> OnceTerminal(rest)
    ensures NoTerminal([message] + rest) ==> NoTerminal(rest)
  {
    assert forall i :: 0 <= i < |rest| ==> ([message] + rest)[i + 1] == rest[i];
  }

  lemma AccountedPrefix<Op>(w: World<Op>)
    requires Accounted(w, Ahead(w.s))
    ensures Essence(w.written + Active(w.s)) <= Essence(w.produced)
  {
    hide Essence, Batches, OnceTerminal, NoTerminal;
    var rest := w.s.queue + w.s.posted;
    assert Ahead(w.s) == Active(w.s) + rest;
    EssenceAppend(Active(w.s), rest);
    EssenceAppend(w.written, Active(w.s));
    assert Essence(w.written) + (Essence(Active(w.s)) + Essence(rest)) ==
           Essence(w.written) + Essence(Active(w.s)) + Essence(rest);
  }

  lemma FailKeeps<Op>(w: World<Op>)
    requires Sound(w)
    ensures Sound(Next(w, Fail)) && Sound(Next(w, ApplicationData))
  {
    hide Essence, Batches, OnceTerminal, NoTerminal, Tidy;
  }

  lemma {:induction false} RunSound<Op>(steps: seq<Step<Op>>)
    ensures Sound(Run(steps))
  {
    if steps == [] {
      assert Ahead(Start<Op>().s) == [] && Active(Start<Op>().s) == [];
    } else {
      var w, step := Run(steps[..|steps| - 1]), steps[|steps| - 1];
      RunSound(steps[..|steps| - 1]);
      hide Sound;
      match step
      case Produce(message) =>
        if MayProduce(w, message) {
          ProduceKeeps(w, message);
        }
      case Arrive =>
        if w.s.posted != [] {
          ArriveKeeps(w);
        }
      case WriteDone(ok) =>
        if w.s.writing.Some? {
          WriteDoneKeeps(w, ok);
        }
      case ApplicationData => FailKeeps(w);
      case Fail => FailKeeps(w);
    }
  }

  // ---- Results ----

  /** Over every run at most two batches are outstanding and the open session's queue never holds more than six
      messages, however often progress is reported. */
  lemma QueueIsBounded<Op>(steps: seq<Step<Op>>)
    ensures var s := Run(steps).s;
            s.outstanding <= 2 && (!s.closed ==> |s.queue| <= 6)
  {
    RunSound(steps);
    var w := Run(steps);
    hide Run;
    if !w.s.closed {
      var q := w.s.queue;
      assert Ahead(w.s) == Active(w.s) + (q + w.s.posted);
      BatchesAppend(Active(w.s), q + w.s.posted);
      BatchesAppend(q, w.s.posted);
      assert OnceTerminal(q) by {
        assert forall i :: 0 <= i < |q| - 1 ==> !q[i].Terminal?;
      }
      TidyBound(q);
      EssenceBound(q);
    }
  }

  /** Over every run the client gets the batches and the end of the preview in the order they were produced, none
      skipped, none twice; once the terminal message is written it has them all. */
  lemma PreviewArrives<Op>(steps: seq<Step<Op>>)
    ensures var w := Run(steps);
            && Essence(w.written) <= Essence(w.produced)
            && (Finished(w.written) ==> Essence(w.written) == Essence(w.produced))
  {
    RunSound(steps);
    ProducedOnce(steps);
    var w := Run(steps);
    hide Run;
    EssenceAppend(w.written, Active(w.s));
    EssenceOnce(w.produced);
    if Finished(w.written) {
      var n := |Essence(w.written)| - 1;
      assert Essence(w.written)[n].Terminal? && Essence(w.written)[n] == Essence(w.produced)[n];
    }
  }

  lemma {:induction false} ProducedOnce<Op>(steps: seq<Step<Op>>)
    ensures OnceTerminal(Run(steps).produced)
  {
    if steps != [] {
      ProducedOnce(steps[..|steps| - 1]);
    }
  }

  lemma {:induction false} EssenceOnce<Op>(messages: seq<Message<Op>>)
    requires OnceTerminal(messages)
    ensures OnceTerminal(Essence(messages))
    ensures !Finished(messages) ==> NoTerminal(Essence(messages))
  {
    if messages != [] {
      var n := |messages| - 1;
      assert forall i :: 0 <= i < n ==> !messages[..n][i].Terminal?;
      EssenceOnce(messages[..n]);
    }
  }

  /** Over every run the count of outstanding batches covers the one being written, also after the session was closed,
      so that it never goes round. */
  lemma OutstandingNeverWraps<Op>(steps: seq<Step<Op>>)
    ensures var s := Run(steps).s;
            s.writing.Some? && s.writing.value.Batch? ==>
              s.outstanding > 0 && Counted(s).outstanding == s.outstanding - 1
  {
    RunSound(steps);
    var s := Run(steps).s;
    hide Run;
    if s.writing.Some? {
      Singles(s.writing.value);
    }
  }

  /** Over every run, a session that is open, not writing and has nothing on the way to it has written everything the
      parser sent. */
  lemma QuietMeansWritten<Op>(steps: seq<Step<Op>>)
    ensures var w := Run(steps);
            !w.s.closed && !w.s.closing && w.s.writing.None? && w.s.posted == [] ==>
              Essence(w.written) == Essence(w.produced)
  {
    RunSound(steps);
    var w := Run(steps);
    hide Run;
    if !w.s.closed && !w.s.closing && w.s.writing.None? && w.s.posted == [] {
      assert Ahead(w.s) == [];
      EssenceNone<Op>();
    }
  }

  lemma EssenceNone<Op>()
    ensures Essence<Op>([]) == []
  {
  }

  // ---- Room ----

  lemma {:induction false} ClosedHoldsNothing<Op>(steps: seq<Step<Op>>)
    ensures Run(steps).s.closed ==> Run(steps).s.queue == []
  {
    if steps != [] {
      ClosedHoldsNothing(steps[..|steps| - 1]);
    }
  }

  lemma {:induction false} BatchesOfEssence<Op>(messages: seq<Message<Op>>)
    ensures Batches(Essence(messages)) == Batches(messages)
  {
    if messages != [] {
      var front, last := messages[..|messages| - 1], messages[|messages| - 1];
      BatchesOfEssence(front);
      BatchesAppend(Essence(front), if last.Progress? then [] else [last]);
      Singles(last);
    }
  }

  /** Over every run, the parser may send a batch exactly while the session is not closed and fewer than two of the
      batches it sent are still to be written; a closed session holds nothing back. */
  lemma RoomForTwoBatches<Op>(steps: seq<Step<Op>>, ops: seq<Op>)
    ensures var w := Run(steps);
            && (w.s.closed ==> w.s.queue == [])
            && (!Finished(w.produced) ==>
                  (Next(w, Produce(Batch(ops))).produced == w.produced + [Batch(ops)] <==>
                     !w.s.closed && Batches(w.produced) < Batches(w.written) + 2))
  {
    RunSound(steps);
    ClosedHoldsNothing(steps);
    var w := Run(steps);
    hide Run;
    if !w.s.closed {
      BatchesOfEssence(w.produced);
      BatchesOfEssence(w.written);
      BatchesOfEssence(Ahead(w.s));
      BatchesAppend(Essence(w.written), Essence(Ahead(w.s)));
    }
    hide Batches, Essence;
  }
}
