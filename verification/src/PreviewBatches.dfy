/** Cutting a program's operations into batches, and batches into frames, within count and byte limits. */
module PreviewBatches {
  /** The limits of a batch. `size` is what an operation counts for; zero `batchSize` means no limit on the count. */
  datatype Limits<!Op> = Limits(batchSize: nat, maxBytes: nat, size: Op -> nat)

  function Concat<T>(parts: seq<seq<T>>): seq<T> {
    if parts == [] then [] else Concat(parts[..|parts| - 1]) + parts[|parts| - 1]
  }

  function Bytes<Op>(l: Limits<Op>, ops: seq<Op>): nat {
    if ops == [] then 0 else Bytes(l, ops[..|ops| - 1]) + l.size(ops[|ops| - 1])
  }

  function MaxBatch<Op>(l: Limits<Op>, ops: seq<Op>): nat {
    if l.batchSize == 0 then |ops| else l.batchSize
  }

  /** How far a batch that already has `count` operations can grow. */
  function Grown<Op>(l: Limits<Op>, ops: seq<Op>, maxBatch: nat, count: nat): (n: nat)
    requires count <= |ops|
    ensures count <= n <= |ops|
    decreases |ops| - count
  {
    if count < |ops| && count < maxBatch && Bytes(l, ops[..count + 1]) <= l.maxBytes
    then Grown(l, ops, maxBatch, count + 1)
    else count
  }

  /** What a flush produced and what it left; it fails on an operation too large for any batch. */
  datatype Flush<Op> = Flush(batches: seq<seq<Op>>, rest: seq<Op>, failed: bool)

  /** Batches from `ops` until they are used up, `allowed` batches were made, or one operation is too large. */
  function Flushed<Op>(l: Limits<Op>, ops: seq<Op>, maxBatch: nat, allowed: nat): Flush<Op>
    decreases allowed
  {
    if ops == [] || allowed == 0 then Flush([], ops, false)
    else
      var n := Grown(l, ops, maxBatch, 0);
      if n == 0 then Flush([], ops, true)
      else
        var later := Flushed(l, ops[n..], maxBatch, allowed - 1);
        Flush([ops[..n]] + later.batches, later.rest, later.failed)
  }

  /** Every batch keeps the limits. */
  predicate Fits<Op>(l: Limits<Op>, maxBatch: nat, batch: seq<Op>) {
    1 <= |batch| <= maxBatch && Bytes(l, batch) <= l.maxBytes
  }

  // ---- The parser's buffer ----

  /** Count the operations of the next batch; zero means that the first one is too large. */
  method TakeBatch<Op>(l: Limits<Op>, rest: seq<Op>, maxBatch: nat) returns (count: nat)
    ensures count == Grown(l, rest, maxBatch, 0)
  {
    count := 0;
    var bytes := 0;
    while count < |rest| && count < maxBatch
      invariant count <= |rest| && bytes == Bytes(l, rest[..count]) && bytes <= l.maxBytes
      invariant Grown(l, rest, maxBatch, 0) == Grown(l, rest, maxBatch, count)
      decreases |rest| - count
    {
      var next := l.size(rest[count]);
      assert rest[..count + 1][..count] == rest[..count];
      if count != 0 && bytes + next > l.maxBytes {
        break;
      }
      if next > l.maxBytes {
        return;
      }
      bytes, count := bytes + next, count + 1;
    }
  }

  /** `allowed` is the number of batches that go out before a stop is noticed. */
  method FlushBatch<Op>(l: Limits<Op>, operations: seq<Op>, allowed: nat) returns (flush: Flush<Op>)
    ensures flush == Flushed(l, operations, MaxBatch(l, operations), allowed)
  {
    hide Grown, Flushed;
    var maxBatch := if l.batchSize == 0 then |operations| else l.batchSize;
    var batches: seq<seq<Op>> := [];
    var offset: nat, left: nat := 0, allowed;
    assert operations[0..] == operations;
    while offset < |operations| && left > 0
      invariant offset <= |operations|
      invariant var later := Flushed(l, operations[offset..], maxBatch, left);
                Flushed(l, operations, maxBatch, allowed) == Flush(batches + later.batches, later.rest, later.failed)
      decreases left
    {
      var rest := operations[offset..];
      var count := TakeBatch(l, rest, maxBatch);
      FlushStep(l, rest, maxBatch, left);
      if count == 0 {
        assert batches + [] == batches;
        return Flush(batches, rest, true);
      }
      ghost var later := Flushed(l, rest[count..], maxBatch, left - 1);
      assert batches + ([rest[..count]] + later.batches) == batches + [rest[..count]] + later.batches;
      assert rest[count..] == operations[offset + count..];
      batches, offset, left := batches + [rest[..count]], offset + count, left - 1;
    }
    assert batches + [] == batches;
    FlushEnd(l, operations[offset..], maxBatch, left);
    flush := Flush(batches, operations[offset..], false);
  }

  lemma FlushStep<Op>(l: Limits<Op>, rest: seq<Op>, maxBatch: nat, left: nat)
    requires rest != [] && left > 0
    ensures var n := Grown(l, rest, maxBatch, 0);
            Flushed(l, rest, maxBatch, left) ==
            if n == 0 then Flush([], rest, true)
            else var later := Flushed(l, rest[n..], maxBatch, left - 1);
                 Flush([rest[..n]] + later.batches, later.rest, later.failed)
  {
    hide Grown;
  }

  lemma FlushEnd<Op>(l: Limits<Op>, rest: seq<Op>, maxBatch: nat, left: nat)
    requires rest == [] || left == 0
    ensures Flushed(l, rest, maxBatch, left) == Flush([], rest, false)
  {
  }

  // ---- Nothing is lost ----

  lemma {:induction false} ConcatAppend<T>(a: seq<seq<T>>, b: seq<seq<T>>)
    ensures Concat(a + b) == Concat(a) + Concat(b)
  {
    if b == [] {
      assert a + b == a;
    } else {
      var n := |b| - 1;
      assert (a + b)[..|a + b| - 1] == a + b[..n];
      ConcatAppend(a, b[..n]);
    }
  }

  lemma ConcatOne<T>(part: seq<T>)
    ensures Concat([part]) == part
  {
    assert [part][..0] == [];
  }

  lemma {:induction false} GrownFits<Op>(l: Limits<Op>, ops: seq<Op>, maxBatch: nat, count: nat)
    requires count <= |ops| && Bytes(l, ops[..count]) <= l.maxBytes && count <= maxBatch
    ensures var n := Grown(l, ops, maxBatch, count);
            && Bytes(l, ops[..n]) <= l.maxBytes && n <= maxBatch
            && (n == |ops| || n == maxBatch || Bytes(l, ops[..n + 1]) > l.maxBytes)
    decreases |ops| - count
  {
    if count < |ops| && count < maxBatch && Bytes(l, ops[..count + 1]) <= l.maxBytes {
      GrownFits(l, ops, maxBatch, count + 1);
    }
  }

  predicate AllFits<Op>(l: Limits<Op>, maxBatch: nat, batches: seq<seq<Op>>) {
    forall i :: 0 <= i < |batches| ==> Fits(l, maxBatch, batches[i])
  }

  /** What holds of a flush of `ops`. */
  ghost predicate Lossless<Op>(l: Limits<Op>, ops: seq<Op>, maxBatch: nat, f: Flush<Op>) {
    && Concat(f.batches) + f.rest == ops
    && AllFits(l, maxBatch, f.batches)
    && (f.failed && maxBatch > 0 ==> f.rest != [] && l.size(f.rest[0]) > l.maxBytes)
  }

  lemma LosslessMore<Op>(l: Limits<Op>, ops: seq<Op>, maxBatch: nat, n: nat, later: Flush<Op>)
    requires n <= |ops| && Lossless(l, ops[n..], maxBatch, later) && Fits(l, maxBatch, ops[..n])
    ensures Lossless(l, ops, maxBatch, Flush([ops[..n]] + later.batches, later.rest, later.failed))
  {
    hide Fits;
    ConcatAppend([ops[..n]], later.batches);
    ConcatOne(ops[..n]);
    hide Concat;
    assert ops[..n] + (Concat(later.batches) + later.rest) == ops[..n] + Concat(later.batches) + later.rest;
    assert ops == ops[..n] + ops[n..];
  }

  lemma FirstTooLarge<Op>(l: Limits<Op>, ops: seq<Op>, maxBatch: nat)
    requires ops != [] && maxBatch > 0 && Grown(l, ops, maxBatch, 0) == 0
    ensures l.size(ops[0]) > l.maxBytes
  {
    assert ops[..1][..0] == [] && ops[..1][0] == ops[0];
    assert Bytes(l, ops[..1]) == l.size(ops[0]);
  }

  /** The batches and what is left are the operations in order; every batch is within the limits and none is empty; and
      a flush fails only at an operation that no batch could hold. */
  lemma {:induction false} FlushIsLossless<Op>(l: Limits<Op>, ops: seq<Op>, maxBatch: nat, allowed: nat)
    ensures Lossless(l, ops, maxBatch, Flushed(l, ops, maxBatch, allowed))
    decreases allowed
  {
    if ops == [] || allowed == 0 {
      assert Concat<Op>([]) == [];
    } else {
      var n := Grown(l, ops, maxBatch, 0);
      GrownFits(l, ops, maxBatch, 0);
      if n == 0 {
        assert Concat<Op>([]) == [];
        if maxBatch > 0 {
          FirstTooLarge(l, ops, maxBatch);
        }
      } else {
        FlushIsLossless(l, ops[n..], maxBatch, allowed - 1);
        hide Lossless, Grown;
        LosslessMore(l, ops, maxBatch, n, Flushed(l, ops[n..], maxBatch, allowed - 1));
      }
    }
  }

  predicate AllFit<Op>(l: Limits<Op>, ops: seq<Op>) {
    forall i :: 0 <= i < |ops| ==> l.size(ops[i]) <= l.maxBytes
  }

  /** Without a stop, a flush uses up the operations exactly when none of them is too large. */
  lemma {:induction false} FlushIsComplete<Op>(l: Limits<Op>, ops: seq<Op>, maxBatch: nat, allowed: nat)
    requires |ops| <= allowed && maxBatch > 0
    ensures var f := Flushed(l, ops, maxBatch, allowed);
            && (AllFit(l, ops) <==> !f.failed)
            && (!f.failed ==> f.rest == [])
    decreases allowed
  {
    if ops != [] {
      var n := Grown(l, ops, maxBatch, 0);
      GrownFits(l, ops, maxBatch, 0);
      if n == 0 {
        FirstTooLarge(l, ops, maxBatch);
      } else {
        BytesCover(l, ops[..n]);
        AllFitSplit(l, ops, n);
        hide Bytes, AllFit;
        FlushIsComplete(l, ops[n..], maxBatch, allowed - 1);
      }
    }
  }

  lemma AllFitSplit<Op>(l: Limits<Op>, ops: seq<Op>, n: nat)
    requires n <= |ops|
    ensures AllFit(l, ops) <==> AllFit(l, ops[..n]) && AllFit(l, ops[n..])
  {
    if AllFit(l, ops[..n]) && AllFit(l, ops[n..]) {
      forall i | 0 <= i < |ops| ensures l.size(ops[i]) <= l.maxBytes {
        if i < n {
          assert ops[i] == ops[..n][i];
        } else {
          assert ops[i] == ops[n..][i - n];
        }
      }
    }
  }

  lemma {:induction false} BytesCover<Op>(l: Limits<Op>, ops: seq<Op>)
    requires Bytes(l, ops) <= l.maxBytes
    ensures AllFit(l, ops)
  {
    if ops != [] {
      BytesCover(l, ops[..|ops| - 1]);
    }
  }

  // ---- A whole parse ----

  datatype Context<Op> = Context(operations: seq<Op>, operationCount: nat, emitted: seq<seq<Op>>, failed: bool)

  /** `Add` records an operation; the parser then flushes whenever enough are waiting, and once more at the end. */
  datatype Step<Op> = Add(op: Op) | FlushReady | FlushAll

  function FlushedContext<Op>(l: Limits<Op>, c: Context<Op>): Context<Op> {
    if c.operations == [] || c.failed then c
    else
      var f := Flushed(l, c.operations, MaxBatch(l, c.operations), |c.operations|);
      c.(operations := f.rest, emitted := c.emitted + f.batches, failed := f.failed)
  }

  function Next<Op>(l: Limits<Op>, c: Context<Op>, step: Step<Op>): (after: Context<Op>)
    ensures c.emitted <= after.emitted
  {
    match step
    case Add(op) =>
      if c.failed then c else c.(operations := c.operations + [op], operationCount := c.operationCount + 1)
    case FlushReady =>
      if l.batchSize == 0 || |c.operations| < l.batchSize then c else FlushedContext(l, c)
    case FlushAll => FlushedContext(l, c)
  }

  function Parse<Op>(l: Limits<Op>, steps: seq<Step<Op>>): Context<Op> {
    if steps == [] then Context([], 0, [], false) else Next(l, Parse(l, steps[..|steps| - 1]), steps[|steps| - 1])
  }

  function Added<Op>(steps: seq<Step<Op>>): seq<Op> {
    if steps == [] then []
    else Added(steps[..|steps| - 1]) + if steps[|steps| - 1].Add? then [steps[|steps| - 1].op] else []
  }

  /** A batch as the consumer may expect it. */
  predicate Within<Op>(l: Limits<Op>, batch: seq<Op>) {
    batch != [] && Bytes(l, batch) <= l.maxBytes && (l.batchSize != 0 ==> |batch| <= l.batchSize)
  }

  predicate AllWithin<Op>(l: Limits<Op>, batches: seq<seq<Op>>) {
    forall i :: 0 <= i < |batches| ==> Within(l, batches[i])
  }

  lemma FitsWithin<Op>(l: Limits<Op>, ops: seq<Op>, batches: seq<seq<Op>>)
    requires AllFits(l, MaxBatch(l, ops), batches)
    ensures AllWithin(l, batches)
  {
  }

  lemma FlushedContextKeeps<Op>(l: Limits<Op>, c: Context<Op>, added: seq<Op>)
    requires Concat(c.emitted) + c.operations == added && AllWithin(l, c.emitted)
    ensures var after := FlushedContext(l, c);
            && Concat(after.emitted) + after.operations == added
            && AllWithin(l, after.emitted) && c.emitted <= after.emitted
            && (!after.failed ==> after.operations == [])
  {
    hide Flushed, Concat, AllFits, AllFit, Within;
    if c.operations != [] && !c.failed {
      var maxBatch := MaxBatch(l, c.operations);
      var f := Flushed(l, c.operations, maxBatch, |c.operations|);
      FlushIsLossless(l, c.operations, maxBatch, |c.operations|);
      FlushIsComplete(l, c.operations, maxBatch, |c.operations|);
      FitsWithin(l, c.operations, f.batches);
      ConcatAppend(c.emitted, f.batches);
      assert Concat(c.emitted) + (Concat(f.batches) + f.rest) == Concat(c.emitted) + Concat(f.batches) + f.rest;
    }
  }

  lemma {:induction false} ParseKeeps<Op>(l: Limits<Op>, steps: seq<Step<Op>>)
    ensures var c := Parse(l, steps);
            && AllWithin(l, c.emitted)
            && (!c.failed ==> Concat(c.emitted) + c.operations == Added(steps) && c.operationCount == |Added(steps)|)
  {
    if steps != [] {
      var n := |steps| - 1;
      var c := Parse(l, steps[..n]);
      ParseKeeps(l, steps[..n]);
      assert Added(steps[..n]) + [] == Added(steps[..n]);
      if !c.failed {
        FlushedContextKeeps(l, c, Added(steps[..n]));
        hide FlushedContext, AllWithin;
        if steps[n].Add? {
          assert Concat(c.emitted) + (c.operations + [steps[n].op]) == Concat(c.emitted) + c.operations + [steps[n].op];
        }
      } else {
        assert Parse(l, steps).failed;
      }
    }
  }

  /** A parse that ran to its final flush without an error emitted exactly the recorded operations, in order; and every
      batch of every parse, whatever its end, is within the limits and not empty. */
  lemma ParseEmitsEverything<Op>(l: Limits<Op>, steps: seq<Step<Op>>)
    ensures AllWithin(l, Parse(l, steps).emitted)
    ensures var c := Parse(l, steps + [FlushAll]);
            !c.failed ==> Concat(c.emitted) == Added(steps) && c.operationCount == |Added(steps)|
  {
    var all := steps + [FlushAll];
    assert all[..|all| - 1] == steps;
    ParseKeeps(l, all);
    ParseKeeps(l, steps);
    var c := Parse(l, steps);
    if !c.failed {
      FlushedContextKeeps(l, c, Added(steps));
    }
    hide Parse;
    assert Added(all) == Added(steps) + [] == Added(steps);
  }

  /** Over every parse, a check between operations flushes exactly if there is a limit on the count and that many wait;
      nothing then waits, unless an operation was too large. A final flush leaves nothing in any case. */
  lemma ChecksFlushWhenEnoughWait<Op>(l: Limits<Op>, steps: seq<Step<Op>>)
    ensures var c, after := Parse(l, steps), Parse(l, steps + [FlushReady]);
            && (l.batchSize == 0 || |c.operations| < l.batchSize ==> after == c)
            && (l.batchSize != 0 && l.batchSize <= |c.operations| && !c.failed ==>
                  after.failed || (after.operations == [] && |after.emitted| > |c.emitted|))
            && (!Parse(l, steps + [FlushAll]).failed ==> Parse(l, steps + [FlushAll]).operations == [])
  {
    var c := Parse(l, steps);
    assert (steps + [FlushReady])[..|steps|] == steps && (steps + [FlushAll])[..|steps|] == steps;
    ParseKeeps(l, steps);
    if !c.failed {
      FlushedContextKeeps(l, c, Added(steps));
      if c.operations != [] {
        FirstBatch(l, c);
      }
    }
    hide Parse, FlushedContext;
  }

  lemma FirstBatch<Op>(l: Limits<Op>, c: Context<Op>)
    requires c.operations != [] && !c.failed
    ensures FlushedContext(l, c).failed || |FlushedContext(l, c).emitted| > |c.emitted|
  {
    hide Grown;
  }

  // ---- Frames ----

  const MAX_FRAME_BYTES: nat := 4194304

  /** The frames sent so far, the one being filled, and whether an operation did not fit into a frame of its own. */
  datatype Framing<Op> = Framing(frames: seq<seq<Op>>, current: seq<Op>, failed: bool)

  /** `size` is the encoded size of a frame with these operations; nothing is assumed about it. */
  function FrameOne<Op>(size: seq<Op> -> nat, f: Framing<Op>, op: Op): Framing<Op> {
    if f.failed then f
    else if size(f.current + [op]) <= MAX_FRAME_BYTES then f.(current := f.current + [op])
    else if f.current == [] then f.(failed := true)
    else if size([op]) > MAX_FRAME_BYTES then Framing(f.frames + [f.current], [op], true)
    else Framing(f.frames + [f.current], [op], false)
  }

  function FrameAll<Op>(size: seq<Op> -> nat, ops: seq<Op>): Framing<Op> {
    if ops == [] then Framing([], [], false) else FrameOne(size, FrameAll(size, ops[..|ops| - 1]), ops[|ops| - 1])
  }

  /** The frames of a batch; the last one is sent when the batch is used up. */
  function Frames<Op>(size: seq<Op> -> nat, batch: seq<Op>): seq<seq<Op>> {
    var f := FrameAll(size, batch);
    if f.failed || f.current == [] then f.frames else f.frames + [f.current]
  }

  method SendFrames<Op>(size: seq<Op> -> nat, batch: seq<Op>) returns (frames: seq<seq<Op>>, failed: bool)
    ensures frames == Frames(size, batch) && failed == FrameAll(size, batch).failed
  {
    frames := [];
    var current: seq<Op> := [];
    for n := 0 to |batch|
      invariant FrameAll(size, batch[..n]) == Framing(frames, current, false)
    {
      assert batch[..n + 1][..n] == batch[..n];
      ghost var before := FrameAll(size, batch[..n]);
      current := current + [batch[n]];
      if size(current) > MAX_FRAME_BYTES {
        current := current[..|current| - 1];
        assert current == before.current;
        if current == [] {
          FailureSticks(size, batch, n + 1);
          return frames, true;
        }
        frames := frames + [current];
        current := [batch[n]];
        if size(current) > MAX_FRAME_BYTES {
          FailureSticks(size, batch, n + 1);
          return frames, true;
        }
      }
    }
    assert batch[..|batch|] == batch;
    if current != [] {
      frames := frames + [current];
    }
    failed := false;
  }

  lemma {:induction false} FailureSticks<Op>(size: seq<Op> -> nat, batch: seq<Op>, n: nat)
    requires n <= |batch| && FrameAll(size, batch[..n]).failed
    ensures FrameAll(size, batch) == FrameAll(size, batch[..n])
  {
    if n == |batch| {
      assert batch[..n] == batch;
    } else {
      assert batch[..|batch| - 1][..n] == batch[..n];
      FailureSticks(size, batch[..|batch| - 1], n);
    }
  }

  predicate FrameOk<Op>(size: seq<Op> -> nat, frame: seq<Op>) {
    frame != [] && size(frame) <= MAX_FRAME_BYTES
  }

  ghost predicate Oversize<Op>(size: seq<Op> -> nat, ops: seq<Op>) {
    exists i :: 0 <= i < |ops| && size([ops[i]]) > MAX_FRAME_BYTES
  }

  ghost predicate FramedTo<Op>(size: seq<Op> -> nat, ops: seq<Op>, f: Framing<Op>) {
    && (forall i :: 0 <= i < |f.frames| ==> FrameOk(size, f.frames[i]))
    && (!f.failed ==> Concat(f.frames) + f.current == ops && (f.current == [] || FrameOk(size, f.current)))
    && (f.failed ==> Oversize(size, ops) && Concat(f.frames) <= ops)
  }

  lemma OversizeMore<Op>(size: seq<Op> -> nat, ops: seq<Op>, op: Op)
    ensures Oversize(size, ops) || size([op]) > MAX_FRAME_BYTES ==> Oversize(size, ops + [op])
  {
    var all := ops + [op];
    if size([op]) > MAX_FRAME_BYTES {
      assert all[|ops|] == op;
    } else if Oversize(size, ops) {
      var i :| 0 <= i < |ops| && size([ops[i]]) > MAX_FRAME_BYTES;
      assert all[i] == ops[i];
    }
  }

  lemma FrameOneKeeps<Op>(size: seq<Op> -> nat, ops: seq<Op>, f: Framing<Op>, op: Op)
    requires FramedTo(size, ops, f)
    ensures FramedTo(size, ops + [op], FrameOne(size, f, op))
  {
    OversizeMore(size, ops, op);
    ConcatAppend(f.frames, [f.current]);
    ConcatOne(f.current);
    hide Concat, Oversize;
    assert f.current == [] ==> f.current + [op] == [op];
    assert Concat(f.frames) + (f.current + [op]) == Concat(f.frames) + f.current + [op];
  }

  lemma {:induction false} FramingKeeps<Op>(size: seq<Op> -> nat, ops: seq<Op>)
    ensures FramedTo(size, ops, FrameAll(size, ops))
  {
    if ops == [] {
      assert Concat<Op>([]) == [];
    } else {
      var n := |ops| - 1;
      FramingKeeps(size, ops[..n]);
      hide FramedTo, FrameOne;
      FrameOneKeeps(size, ops[..n], FrameAll(size, ops[..n]), ops[n]);
      assert ops == ops[..n] + [ops[n]];
    }
  }

  /** The frames of a batch are its operations in order, none empty and none above four mebibytes; sending fails only if
      some operation does not fit into a frame of its own, and then the frames are a beginning of the batch. */
  lemma FramesAreLossless<Op>(size: seq<Op> -> nat, batch: seq<Op>)
    ensures forall i :: 0 <= i < |Frames(size, batch)| ==> FrameOk(size, Frames(size, batch)[i])
    ensures !FrameAll(size, batch).failed ==> Concat(Frames(size, batch)) == batch
    ensures FrameAll(size, batch).failed ==> Oversize(size, batch) && Concat(Frames(size, batch)) <= batch
  {
    FramingKeeps(size, batch);
    var f := FrameAll(size, batch);
    hide FrameAll;
    ConcatAppend(f.frames, [f.current]);
    ConcatOne(f.current);
    assert f.current == [] ==> Concat(f.frames) + f.current == Concat(f.frames);
  }

  /** If a frame is never smaller than one of its operations alone, that is also when sending must fail. */
  lemma {:induction false} OversizeFails<Op>(size: seq<Op> -> nat, batch: seq<Op>, i: nat)
    requires i < |batch| && size([batch[i]]) > MAX_FRAME_BYTES
    requires forall front: seq<Op>, op :: size([op]) <= size(front + [op])
    ensures FrameAll(size, batch).failed
  {
    if i < |batch| - 1 {
      OversizeFails(size, batch[..|batch| - 1], i);
    } else {
      var f := FrameAll(size, batch[..i]);
      assert size([batch[i]]) <= size(f.current + [batch[i]]);
    }
  }
}
