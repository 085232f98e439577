/**
A whole preview: the parser records operations and flushes them as batches, each batch is cut
into frames, the frames wait for room in the session, and the session writes them.
*/
module PreviewPipeline {
  import opened Batches = PreviewBatches
  import Delivery = PreviewDelivery

  type Message<Op> = Delivery.Message<Op>

  /** The limits of a batch, and what a frame with these operations counts for. */
  datatype Setup<!Op> = Setup(limits: Limits<Op>, size: seq<Op> -> nat)

  /** `Flushed` follows the final flush, `Broken` an operation that is too large; `Ended` is the parser's return. */
  datatype Phase = Parsing | Flushed | Broken | Ended

  /** What the parser did so far, the frames it has still to send, and what the session did so far. */
  datatype Pipeline<Op> = Pipeline(
    parse: seq<Batches.Step<Op>>,
    frames: seq<seq<Op>>,
    phase: Phase,
    trace: seq<Delivery.Step<Op>>)

  datatype Step<Op> =
    | Record(op: Op)
    | Flush
    | Finish
    | SendFrame
    | Report(count: nat)
    | Summarize
    | Throw(text: string)
    | Cancel
    | Session(step: Delivery.Step<Op>)

  function World<Op>(y: Pipeline<Op>): Delivery.World<Op> {
    Delivery.Run(y.trace)
  }

  // ---- The parser's thread ----

  predicate NoneOversize<Op>(size: seq<Op> -> nat, batches: seq<seq<Op>>) {
    forall i :: 0 <= i < |batches| ==> !FrameAll(size, batches[i]).failed
  }

  /** The frames of all batches in order, up to an operation that does not fit into a frame of its own. */
  function FramesUntil<Op>(size: seq<Op> -> nat, batches: seq<seq<Op>>): seq<seq<Op>> {
    if batches == [] then []
    else
      var front, last := batches[..|batches| - 1], batches[|batches| - 1];
      FramesUntil(size, front) + if NoneOversize(size, front) then Frames(size, last) else []
  }

  /** The parser goes on only when all its frames are sent. */
  predicate Free<Op>(y: Pipeline<Op>) {
    y.phase == Parsing && y.frames == []
  }

  function Parsed<Op>(k: Setup<Op>, y: Pipeline<Op>, step: Batches.Step<Op>, phase: Phase): Pipeline<Op> {
    var before := Parse(k.limits, y.parse);
    var after := Batches.Next(k.limits, before, step);
    var batches := after.emitted[|before.emitted|..];
    y.(parse := y.parse + [step],
       frames := FramesUntil(k.size, batches),
       phase := if after.failed || !NoneOversize(k.size, batches) then Broken else phase)
  }

  function Produced<Op>(y: Pipeline<Op>, message: Message<Op>): Pipeline<Op> {
    y.(trace := y.trace + [Delivery.Produce(message)])
  }

  function Next<Op>(k: Setup<Op>, y: Pipeline<Op>, step: Step<Op>): Pipeline<Op> {
    match step
    case Record(op) => if Free(y) then Parsed(k, y, Add(op), Parsing) else y
    case Flush => if Free(y) then Parsed(k, y, FlushReady, Parsing) else y
    case Finish => if Free(y) then Parsed(k, y, FlushAll, Flushed) else y
    case SendFrame =>
      if y.frames == [] || !Delivery.MaySend(World(y).s) then y
      else Produced(y.(frames := y.frames[1..]), Delivery.Batch(y.frames[0]))
    case Report(count) => if Free(y) then Produced(y, Delivery.Progress(count)) else y
    case Summarize =>
      if y.phase != Flushed || y.frames != [] then y
      else
        var count := Parse(k.limits, y.parse).operationCount;
        Produced(y.(phase := Ended), Delivery.Terminal(Delivery.Summary(count)))
    case Throw(text) =>
      if y.frames != [] || (y.phase != Parsing && y.phase != Broken) then y
      else Produced(y.(phase := Ended), Delivery.Terminal(Delivery.Failure(text)))
    case Cancel => if World(y).s.closed then y.(phase := Ended, frames := []) else y
    case Session(step) => if step.Produce? then y else y.(trace := y.trace + [step])
  }

  function Run<Op>(k: Setup<Op>, steps: seq<Step<Op>>): Pipeline<Op> {
    if steps == [] then Pipeline([], [], Parsing, [])
    else Next(k, Run(k, steps[..|steps| - 1]), steps[|steps| - 1])
  }

  // ---- What messages carry ----

  function Payloads<Op>(messages: seq<Message<Op>>): seq<seq<Op>> {
    if messages == [] then []
    else
      Payloads(messages[..|messages| - 1]) +
      if messages[|messages| - 1].Batch? then [messages[|messages| - 1].ops] else []
  }

  function Shown<Op>(messages: seq<Message<Op>>): seq<Op> {
    Concat(Payloads(messages))
  }

  lemma PayloadsStep<Op>(front: seq<Message<Op>>, message: Message<Op>)
    ensures Payloads(front + [message]) == if message.Batch? then Payloads(front) + [message.ops] else Payloads(front)
    ensures Payloads<Op>([]) == []
  {
    assert (front + [message])[..|front|] == front;
  }

  lemma ShownStep<Op>(front: seq<Message<Op>>, message: Message<Op>)
    ensures Shown(front + [message]) == if message.Batch? then Shown(front) + message.ops else Shown(front)
  {
    PayloadsStep(front, message);
    if message.Batch? {
      ConcatAppend(Payloads(front), [message.ops]);
      ConcatOne(message.ops);
    }
  }

  /** Progress carries no operations. */
  lemma {:induction false} PayloadsOfEssence<Op>(messages: seq<Message<Op>>)
    ensures Payloads(Delivery.Essence(messages)) == Payloads(messages)
  {
    hide Delivery.Essence, Payloads;
    if messages == [] {
      Delivery.EssenceNone<Op>();
    } else {
      var front, last := messages[..|messages| - 1], messages[|messages| - 1];
      PayloadsOfEssence(front);
      assert messages == front + [last];
      Delivery.EssenceAppend(front, [last]);
      Delivery.Singles(last);
      PayloadsStep(front, last);
      PayloadsStep(Delivery.Essence(front), last);
      assert Delivery.Essence(front) + [] == Delivery.Essence(front);
    }
  }

  lemma {:induction false} PayloadsPrefix<Op>(messages: seq<Message<Op>>, n: nat)
    requires n <= |messages|
    ensures Payloads(messages[..n]) <= Payloads(messages)
  {
    if n == |messages| {
      assert messages[..n] == messages;
    } else {
      var front := messages[..|messages| - 1];
      PayloadsPrefix(front, n);
      assert front[..n] == messages[..n];
    }
  }

  lemma ConcatPrefix<T>(a: seq<seq<T>>, b: seq<seq<T>>)
    requires a <= b
    ensures Concat(a) <= Concat(b)
  {
    ConcatAppend(a, b[|a|..]);
    assert b == a + b[|a|..];
  }

  // ---- Frames of several batches ----

  predicate AllOk<Op>(size: seq<Op> -> nat, frames: seq<seq<Op>>) {
    forall i :: 0 <= i < |frames| ==> FrameOk(size, frames[i])
  }

  lemma NoneOversizeFront<Op>(size: seq<Op> -> nat, front: seq<seq<Op>>, last: seq<Op>)
    ensures NoneOversize(size, front + [last]) <==> NoneOversize(size, front) && !FrameAll(size, last).failed
  {
    var all := front + [last];
    if NoneOversize(size, all) {
      assert all[|front|] == last;
      assert forall i :: 0 <= i < |front| ==> all[i] == front[i];
    }
  }

  /** The frames are a beginning of the batches' operations, and all of them if none is too large. */
  ghost predicate FramedUntil<Op>(size: seq<Op> -> nat, batches: seq<seq<Op>>, frames: seq<seq<Op>>) {
    && AllOk(size, frames)
    && Concat(frames) <= Concat(batches)
    && (NoneOversize(size, batches) ==> Concat(frames) == Concat(batches))
  }

  lemma FramedUntilMore<Op>(size: seq<Op> -> nat, front: seq<seq<Op>>, last: seq<Op>, frames: seq<seq<Op>>)
    requires FramedUntil(size, front, frames)
    ensures FramedUntil(size, front + [last], frames + if NoneOversize(size, front) then Frames(size, last) else [])
  {
    FramesAreLossless(size, last);
    hide Frames, FrameAll, FrameOk, NoneOversize, Concat;
    NoneOversizeFront(size, front, last);
    ConcatAppend(frames, Frames(size, last));
    ConcatAppend(front, [last]);
    ConcatOne(last);
    assert frames + [] == frames;
  }

  lemma {:induction false} FramesUntilLossless<Op>(size: seq<Op> -> nat, batches: seq<seq<Op>>)
    ensures FramedUntil(size, batches, FramesUntil(size, batches))
  {
    if batches != [] {
      hide FramedUntil, NoneOversize, Frames;
      var front, last := batches[..|batches| - 1], batches[|batches| - 1];
      FramesUntilLossless(size, front);
      FramedUntilMore(size, front, last, FramesUntil(size, front));
      assert batches == front + [last];
    }
  }

  // ---- Invariant ----

  /** What was handed to the session and what is still to be sent. */
  function Sent<Op>(y: Pipeline<Op>): seq<Op> {
    Shown(World(y).produced) + Concat(y.frames)
  }

  predicate Summed<Op>(messages: seq<Message<Op>>) {
    Delivery.Finished(messages) && messages[|messages| - 1].ending.Summary?
  }

  /** A summary comes after all the operations and counts them. */
  ghost predicate Complete<Op>(messages: seq<Message<Op>>, added: seq<Op>) {
    Summed(messages) ==> Shown(messages) == added && messages[|messages| - 1].ending.operationCount == |added|
  }

  ghost predicate Sound<Op>(k: Setup<Op>, y: Pipeline<Op>) {
    var c, produced := Parse(k.limits, y.parse), World(y).produced;
    && AllOk(k.size, y.frames) && AllOk(k.size, Payloads(produced))
    && Sent(y) <= Added(y.parse)
    && (y.phase == Parsing || y.phase == Flushed ==> !c.failed && Sent(y) == Concat(c.emitted))
    && (y.phase == Flushed ==> c.operations == [])
    && (if y.phase == Ended then y.frames == [] else !Delivery.Finished(produced))
    && Complete(produced, Added(y.parse))
  }

  // ---- Steps ----

  lemma ParseStep<Op>(l: Limits<Op>, parse: seq<Batches.Step<Op>>, step: Batches.Step<Op>)
    ensures Parse(l, parse + [step]) == Batches.Next(l, Parse(l, parse), step)
    ensures Added(parse + [step]) == Added(parse) + if step.Add? then [step.op] else []
  {
    assert (parse + [step])[..|parse|] == parse;
  }

  /** What a step of the parse emits is what its context says, and nothing goes out that was not recorded. */
  lemma ParseAccounts<Op>(l: Limits<Op>, parse: seq<Batches.Step<Op>>, step: Batches.Step<Op>)
    requires !Parse(l, parse).failed
    ensures var before, after := Parse(l, parse), Parse(l, parse + [step]);
            && before.emitted <= after.emitted
            && Concat(after.emitted) <= Added(parse + [step])
            && (step == FlushAll && !after.failed ==> after.operations == [])
  {
    var c := Parse(l, parse);
    ParseKeeps(l, parse);
    ParseStep(l, parse, step);
    FlushedContextKeeps(l, c, Added(parse));
    hide Parse, Added, Concat, FlushedContext;
    assert step == FlushReady || step == FlushAll || step.Add?;
  }

  lemma ParsedKeeps<Op>(k: Setup<Op>, y: Pipeline<Op>, step: Batches.Step<Op>, phase: Phase)
    requires Sound(k, y) && Free(y) && (phase == Parsing || (phase == Flushed && step == FlushAll))
    ensures Sound(k, Parsed(k, y, step, phase))
  {
    hide Parse, Added, Concat, Batches.Next, AllOk, NoneOversize, FramesUntil, Delivery.Run, Shown, Payloads;
    var before, after := Parse(k.limits, y.parse), Parse(k.limits, y.parse + [step]);
    ParseAccounts(k.limits, y.parse, step);
    ParseStep(k.limits, y.parse, step);
    var batches := after.emitted[|before.emitted|..];
    FramesUntilLossless(k.size, batches);
    ConcatAppend(before.emitted, batches);
    ConcatNone<Op>();
    assert after.emitted == before.emitted + batches;
    var shown := Shown(World(y).produced);
    assert shown + [] == shown;
    PrefixBelow(shown, Concat(FramesUntil(k.size, batches)), Concat(batches), Added(y.parse + [step]));
  }

  lemma ConcatNone<T>()
    ensures Concat<T>([]) == []
  {
  }

  lemma PrefixBelow<T>(head: seq<T>, some: seq<T>, more: seq<T>, all: seq<T>)
    requires some <= more && head + more <= all
    ensures head + some <= all
  {
    assert head + more == head + some + more[|some|..];
  }

  lemma TraceStep<Op>(trace: seq<Delivery.Step<Op>>, step: Delivery.Step<Op>)
    ensures Delivery.Run(trace + [step]) == Delivery.Next(Delivery.Run(trace), step)
  {
    assert (trace + [step])[..|trace|] == trace;
  }

  lemma SessionKeeps<Op>(k: Setup<Op>, y: Pipeline<Op>, step: Delivery.Step<Op>)
    requires Sound(k, y) && !step.Produce?
    ensures Sound(k, y.(trace := y.trace + [step]))
  {
    TraceStep(y.trace, step);
    hide Parse, Added, Concat, AllOk, Delivery.Run, Shown, Payloads, Delivery.Arrived, Delivery.WriteCompleted;
  }

  /** Handing a message to the session, which takes it. */
  lemma ProducedTaken<Op>(y: Pipeline<Op>, message: Message<Op>)
    requires Delivery.MayProduce(World(y), message)
    ensures World(Produced(y, message)).produced == World(y).produced + [message]
  {
    TraceStep(y.trace, Delivery.Produce(message));
    hide Delivery.Run;
  }

  lemma FrontMoves<Op>(shown: seq<Op>, frames: seq<seq<Op>>)
    requires frames != []
    ensures shown + frames[0] + Concat(frames[1..]) == shown + Concat(frames)
  {
    ConcatAppend([frames[0]], frames[1..]);
    ConcatOne(frames[0]);
    hide Concat;
    assert frames == [frames[0]] + frames[1..];
    assert shown + (frames[0] + Concat(frames[1..])) == shown + frames[0] + Concat(frames[1..]);
  }

  /** Sending a frame leaves what was sent and is to be sent as it is. */
  lemma FrameMoves<Op>(k: Setup<Op>, y: Pipeline<Op>)
    requires y.frames != [] && Delivery.MayProduce(World(y), Delivery.Batch(y.frames[0]))
    requires AllOk(k.size, y.frames) && AllOk(k.size, Payloads(World(y).produced))
    ensures var after := Produced(y.(frames := y.frames[1..]), Delivery.Batch(y.frames[0]));
            && World(after).produced == World(y).produced + [Delivery.Batch(y.frames[0])]
            && Sent(after) == Sent(y)
            && AllOk(k.size, after.frames) && AllOk(k.size, Payloads(World(after).produced))
  {
    hide Concat, AllOk, Delivery.Run, Delivery.Next, Shown, Payloads, FrameOk;
    var message, produced := Delivery.Batch(y.frames[0]), World(y).produced;
    ProducedTaken(y.(frames := y.frames[1..]), message);
    PayloadsStep(produced, message);
    ShownStep(produced, message);
    FrontMoves(Shown(produced), y.frames);
    OkRest(k.size, y.frames);
    OkMore(k.size, Payloads(produced), y.frames[0]);
  }

  lemma SendFrameKeeps<Op>(k: Setup<Op>, y: Pipeline<Op>)
    requires Sound(k, y)
    ensures Sound(k, Next(k, y, SendFrame))
  {
    hide Parse, Added, AllOk, World, Sent, Shown, Payloads, Produced;
    if y.frames != [] && Delivery.MaySend(World(y).s) {
      FrameMoves(k, y);
      SendingLeavesParser(y);
    }
  }

  lemma SendingLeavesParser<Op>(y: Pipeline<Op>)
    requires y.frames != []
    ensures var after := Produced(y.(frames := y.frames[1..]), Delivery.Batch(y.frames[0]));
            after.parse == y.parse && after.phase == y.phase && after.frames == y.frames[1..]
  {
  }

  lemma OkMore<Op>(size: seq<Op> -> nat, frames: seq<seq<Op>>, frame: seq<Op>)
    requires AllOk(size, frames) && FrameOk(size, frame)
    ensures AllOk(size, frames + [frame])
  {
  }

  lemma OkRest<Op>(size: seq<Op> -> nat, frames: seq<seq<Op>>)
    requires AllOk(size, frames) && frames != []
    ensures FrameOk(size, frames[0]) && AllOk(size, frames[1..])
  {
  }

  /** A message without operations changes nothing that was sent. */
  lemma PlainKeeps<Op>(k: Setup<Op>, y: Pipeline<Op>, message: Message<Op>, phase: Phase)
    requires Sound(k, y) && y.phase != Ended && !message.Batch?
    requires if message.Terminal? then phase == Ended else phase == y.phase
    requires message.Terminal? ==> y.frames == []
    requires message.Terminal? && message.ending.Summary? ==>
               && y.phase == Flushed
               && message.ending.operationCount == Parse(k.limits, y.parse).operationCount
    ensures Sound(k, Produced(y.(phase := phase), message))
  {
    hide Parse, Added, Concat, AllOk, Delivery.Run, Delivery.Next, Shown, Payloads;
    var produced := World(y).produced;
    ProducedTaken(y.(phase := phase), message);
    PayloadsStep(produced, message);
    ShownStep(produced, message);
    if message.Terminal? && message.ending.Summary? {
      ParseKeeps(k.limits, y.parse);
      ConcatNone<Op>();
      var c := Parse(k.limits, y.parse);
      assert Shown(produced) + [] == Shown(produced);
      assert Concat(c.emitted) + [] == Concat(c.emitted);
    }
  }

  lemma CancelKeeps<Op>(k: Setup<Op>, y: Pipeline<Op>)
    requires Sound(k, y)
    ensures Sound(k, y.(phase := Ended, frames := []))
  {
    var shown := Shown(World(y).produced);
    assert Concat<Op>([]) == [];
    hide Parse, Added, Concat, Delivery.Run, Shown, Payloads;
    PrefixBelow(shown, [], Concat(y.frames), Added(y.parse));
  }

  lemma NextSound<Op>(k: Setup<Op>, y: Pipeline<Op>, step: Step<Op>)
    requires Sound(k, y)
    ensures Sound(k, Next(k, y, step))
  {
    hide Sound, Parse, Parsed, World, Produced, Delivery.MaySend;
    match step
    case Record(op) =>
      if Free(y) {
        ParsedKeeps(k, y, Add(op), Parsing);
      }
    case Flush =>
      if Free(y) {
        ParsedKeeps(k, y, FlushReady, Parsing);
      }
    case Finish =>
      if Free(y) {
        ParsedKeeps(k, y, FlushAll, Flushed);
      }
    case SendFrame => SendFrameKeeps(k, y);
    case Report(count) =>
      if Free(y) {
        PlainKeeps(k, y, Delivery.Progress(count), Parsing);
      }
    case Summarize =>
      if y.phase == Flushed && y.frames == [] {
        PlainKeeps(k, y, Delivery.Terminal(Delivery.Summary(Parse(k.limits, y.parse).operationCount)), Ended);
      }
    case Throw(text) =>
      if y.frames == [] && (y.phase == Parsing || y.phase == Broken) {
        PlainKeeps(k, y, Delivery.Terminal(Delivery.Failure(text)), Ended);
      }
    case Cancel => CancelKeeps(k, y);
    case Session(step) =>
      if !step.Produce? {
        SessionKeeps(k, y, step);
      }
  }

  lemma {:induction false} RunSound<Op>(k: Setup<Op>, steps: seq<Step<Op>>)
    ensures Sound(k, Run(k, steps))
  {
    if steps == [] {
      assert Concat<Op>([]) == [] && Payloads<Op>([]) == [] && Added<Op>([]) == [];
      assert World(Run(k, [])).produced == [];
    } else {
      RunSound(k, steps[..|steps| - 1]);
      hide Sound, Next;
      NextSound(k, Run(k, steps[..|steps| - 1]), steps[|steps| - 1]);
    }
  }

  // ---- Result ----

  lemma LastOfEssence<Op>(messages: seq<Message<Op>>)
    requires Delivery.Finished(messages)
    ensures var essence := Delivery.Essence(messages);
            essence != [] && essence[|essence| - 1] == messages[|messages| - 1]
  {
  }

  /** What the client got is a beginning of what was produced; and if it got the end, that is the end produced. */
  lemma WrittenPrefix<Op>(trace: seq<Delivery.Step<Op>>)
    ensures var w := Delivery.Run(trace);
            && Payloads(w.written) <= Payloads(w.produced)
            && (Delivery.Finished(w.written) ==>
                  && Payloads(w.written) == Payloads(w.produced)
                  && Delivery.Finished(w.produced)
                  && w.produced[|w.produced| - 1] == w.written[|w.written| - 1])
  {
    Delivery.PreviewArrives(trace);
    Delivery.ProducedOnce(trace);
    var w := Delivery.Run(trace);
    hide Delivery.Run;
    var some, all := Delivery.Essence(w.written), Delivery.Essence(w.produced);
    PayloadsOfEssence(w.written);
    PayloadsOfEssence(w.produced);
    PayloadsPrefix(all, |some|);
    assert all[..|some|] == some;
    Delivery.EssenceOnce(w.produced);
    if Delivery.Finished(w.written) {
      LastOfEssence(w.written);
      hide Delivery.Essence, Payloads;
      assert !Delivery.NoTerminal(all) by {
        assert all[|all| - 1].Terminal?;
      }
      LastOfEssence(w.produced);
    }
  }

  lemma OkPrefix<Op>(size: seq<Op> -> nat, some: seq<seq<Op>>, all: seq<seq<Op>>)
    requires AllOk(size, all) && some <= all
    ensures AllOk(size, some)
  {
  }

  /** Over every run of parser and session together, what the client has received is a beginning of the program's
      operations, in order and in frames none of which is empty or above the limit; and a client that received the
      summary has received them all and their number. */
  lemma PreviewShowsProgram<Op>(k: Setup<Op>, steps: seq<Step<Op>>)
    ensures var y := Run(k, steps);
            var written := World(y).written;
            && Shown(written) <= Added(y.parse)
            && AllOk(k.size, Payloads(written))
            && (Summed(written) ==>
                  && Shown(written) == Added(y.parse)
                  && written[|written| - 1].ending.operationCount == |Added(y.parse)|)
  {
    RunSound(k, steps);
    var y := Run(k, steps);
    var w := World(y);
    hide Run;
    WrittenPrefix(y.trace);
    OkPrefix(k.size, Payloads(w.written), Payloads(w.produced));
    ConcatPrefix(Payloads(w.written), Payloads(w.produced));
    hide Parse, Added, Concat, AllOk, Delivery.Run, Payloads;
    PrefixBelow([], Shown(w.written), Shown(w.produced), Shown(w.produced));
    PrefixBelow(Shown(w.produced), [], Concat(y.frames), Added(y.parse));
  }

  // ---- The end is told ----

  /** Something recorded is too large for a batch or for a frame. */
  ghost predicate TooLarge<Op>(k: Setup<Op>, parse: seq<Batches.Step<Op>>) {
    var c := Parse(k.limits, parse);
    c.failed || !NoneOversize(k.size, c.emitted)
  }

  lemma NoneOversizeAppend<Op>(size: seq<Op> -> nat, a: seq<seq<Op>>, b: seq<seq<Op>>)
    ensures NoneOversize(size, a + b) <==> NoneOversize(size, a) && NoneOversize(size, b)
  {
    hide FrameAll;
    var all := a + b;
    if NoneOversize(size, all) {
      assert forall i :: 0 <= i < |a| ==> all[i] == a[i];
      assert forall i :: 0 <= i < |b| ==> all[|a| + i] == b[i];
    }
  }

  /** The phase says how the parse stands. */
  ghost predicate Stands<Op>(k: Setup<Op>, y: Pipeline<Op>) {
    && (y.phase == Parsing || y.phase == Flushed ==> !TooLarge(k, y.parse))
    && (y.phase == Broken ==> TooLarge(k, y.parse))
    && (y.phase == Flushed ==> y.parse != [] && y.parse[|y.parse| - 1] == FlushAll)
  }

  lemma ParsedStands<Op>(k: Setup<Op>, y: Pipeline<Op>, step: Batches.Step<Op>, phase: Phase)
    requires Stands(k, y) && Free(y) && (phase == Parsing || (phase == Flushed && step == FlushAll))
    ensures Stands(k, Parsed(k, y, step, phase))
    ensures Parsed(k, y, step, phase).phase == if TooLarge(k, y.parse + [step]) then Broken else phase
  {
    hide Parse, NoneOversize, FramesUntil, Batches.Next;
    ParseStep(k.limits, y.parse, step);
    var before := Parse(k.limits, y.parse);
    var after := Batches.Next(k.limits, before, step);
    assert after.emitted == before.emitted + after.emitted[|before.emitted|..];
    NoneOversizeAppend(k.size, before.emitted, after.emitted[|before.emitted|..]);
  }

  lemma NextStands<Op>(k: Setup<Op>, y: Pipeline<Op>, step: Step<Op>)
    requires Stands(k, y)
    ensures Stands(k, Next(k, y, step))
  {
    hide Parse, NoneOversize, Parsed, TooLarge, World, Delivery.MaySend;
    if Free(y) {
      match step
      case Record(op) => ParsedStands(k, y, Add(op), Parsing);
      case Flush => ParsedStands(k, y, FlushReady, Parsing);
      case Finish => ParsedStands(k, y, FlushAll, Flushed);
      case _ =>
    }
  }

  lemma {:induction false} RunStands<Op>(k: Setup<Op>, steps: seq<Step<Op>>)
    ensures Stands(k, Run(k, steps))
  {
    if steps != [] {
      RunStands(k, steps[..|steps| - 1]);
      hide Stands, Next;
      NextStands(k, Run(k, steps[..|steps| - 1]), steps[|steps| - 1]);
    }
  }

  /** Over every run, once all frames are sent the end is told to the session: a final flush leads to a summary of what
      was recorded exactly if nothing was too large, and otherwise, or when the parser itself fails, to a failure. */
  lemma EndIsTold<Op>(k: Setup<Op>, steps: seq<Step<Op>>, text: string)
    ensures var y := Run(k, steps);
            Free(y) ==> Next(k, y, Finish).phase == if TooLarge(k, y.parse + [FlushAll]) then Broken else Flushed
    ensures var y := Run(k, steps);
            y.frames == [] && y.phase == Flushed ==>
              && !TooLarge(k, y.parse)
              && World(Next(k, y, Summarize)).produced ==
                   World(y).produced + [Delivery.Terminal(Delivery.Summary(|Added(y.parse)|))]
    ensures var y := Run(k, steps);
            y.frames == [] && (y.phase == Parsing || y.phase == Broken) ==>
              World(Next(k, y, Throw(text))).produced == World(y).produced + [Delivery.Terminal(Delivery.Failure(text))]
  {
    RunSound(k, steps);
    RunStands(k, steps);
    var y := Run(k, steps);
    ParseKeeps(k.limits, y.parse);
    hide Run, NoneOversize, Parsed, TooLarge, Delivery.Run, FramesUntil;
    if Free(y) {
      ParsedStands(k, y, FlushAll, Flushed);
    }
    if y.frames == [] && y.phase == Flushed {
      var count := Parse(k.limits, y.parse).operationCount;
      hide Parse;
      ProducedTaken(y.(phase := Ended), Delivery.Terminal(Delivery.Summary(count)));
    }
    if y.frames == [] && (y.phase == Parsing || y.phase == Broken) {
      hide Parse;
      ProducedTaken(y.(phase := Ended), Delivery.Terminal(Delivery.Failure(text)));
    }
  }
}
