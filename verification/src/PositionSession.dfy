/**
Delivery of the position history over one WebSocket session.

The producer changes the history and afterwards publishes a wake; a periodic delivery
timer turns a pending wake into at most one frame at a time.  The machine below
interleaves those steps freely with a consumer that applies each completed frame.
*/
module PositionDelivery {
  import opened Options
  import opened Position
  import opened PositionPath

  datatype Frame = Frame(batch: Batch, replacement: bool)

  /** The per-connection state of the server. */
  datatype Session = Session(
    cursor: nat,
    generation: nat,
    writeCursor: nat,
    writeGeneration: nat,
    wakePending: bool,
    writing: bool,
    closing: bool,
    closed: bool)

  const FRESH_SESSION: Session := Session(0, 0, 0, 0, false, false, false, false)

  /** The frame put on the wire drops points only when it is a delta. */
  function Encode(batch: Batch, replacement: bool): Frame {
    Frame(if replacement then batch.(replaceCount := 0) else batch, replacement)
  }

  /** Start writing the snapshot or the changes since the cursor; nothing is written when nothing changed. */
  function Sent(s: Session, h: History, initial: bool): (Session, Option<Frame>) {
    var batch := if initial then SnapshotOf(h) else DeltaSince(h, s.cursor, 0, s.generation);
    if !initial && !batch.reset && batch.packed == [] then (s, None)
    else
      (s.(writeCursor := batch.nextSequence, writeGeneration := batch.generation, writing := true),
       Some(Encode(batch, initial || batch.reset)))
  }

  function Ticked(s: Session, h: History): (Session, Option<Frame>) {
    if s.closed || s.closing || s.writing || !s.wakePending then (s, None)
    else Sent(s.(wakePending := false), h, false)
  }

  function WriteCompleted(s: Session, ok: bool): Session {
    if !ok then s.(writing := false, closed := true)
    else s.(writing := false, cursor := s.writeCursor, generation := s.writeGeneration)
  }

  // ---- The session object ----

  class PositionSession {
    const history: PositionHistory
    var cursor: nat
    var generation: nat
    var writeCursor: nat
    var writeGeneration: nat
    var wakePending: bool
    var writing: bool
    var closing: bool
    var closed: bool

    ghost function View(): Session
      reads this
    {
      Session(cursor, generation, writeCursor, writeGeneration, wakePending, writing, closing, closed)
    }

    constructor (history: PositionHistory)
      ensures this.history == history && View() == FRESH_SESSION
    {
      this.history := history;
      cursor, generation, writeCursor, writeGeneration := 0, 0, 0, 0;
      wakePending, writing, closing, closed := false, false, false, false;
    }

    method SendNext(initial: bool) returns (frame: Option<Frame>)
      requires Valid(history.View())
      modifies this
      ensures (View(), frame) == Sent(old(View()), history.View(), initial)
    {
      var batch;
      if initial {
        batch := history.Snapshot();
      } else {
        batch := history.Since(cursor, 0, generation);
      }
      if !initial && !batch.reset && batch.packed == [] {
        return None;
      }
      var replacement := initial || batch.reset;
      writeCursor := batch.nextSequence;
      writeGeneration := batch.generation;
      writing := true;
      return Some(Encode(batch, replacement));
    }

    method OnDelivery() returns (frame: Option<Frame>)
      requires Valid(history.View())
      modifies this
      ensures (View(), frame) == Ticked(old(View()), history.View())
    {
      if closed || closing {
        return None;
      }
      if !writing {
        var pending := wakePending;
        wakePending := false;
        if pending {
          frame := SendNext(false);
          return;
        }
      }
      return None;
    }

    method OnWrite(ok: bool)
      modifies this
      ensures View() == WriteCompleted(old(View()), ok)
    {
      writing := false;
      if !ok {
        closed := true;
        return;
      }
      cursor := writeCursor;
      generation := writeGeneration;
    }
  }

  // ---- Whole runs ----

  /** Everything that takes part. `unpublished` counts changes whose wake is still to come, `frame` is the
      write in flight and `copy` the consumer's list; `held` and `sent` record the server's list when the
      consumer last synchronized and when `frame` was built, and `path` all samples that were accepted. */
  datatype System = System(
    history: History,
    unpublished: nat,
    accepted: bool,
    session: Session,
    frame: Option<Frame>,
    copy: seq<real>,
    held: seq<Entry>,
    sent: seq<Entry>,
    path: seq<Point>)

  datatype Step =
    | NewSample(point: Point)
    | Reconfigure(maxSamples: nat, epsilon: real)
    | Reset
    | Publish
    | Accept
    | Tick
    | WriteDone(ok: bool)
    | ApplicationData
    | Fail

  function Start(maxSamples: nat, epsilon: real): System {
    System(Initial(maxSamples, epsilon), 0, false, FRESH_SESSION, None, [], [], [], [])
  }

  /** Steps that are not enabled leave the system as it is. */
  function Next(g: Geometry, y: System, step: Step): System {
    match step
    case NewSample(point) =>
      if !Accepts(g, y.history, point) then y
      else y.(history := Appended(g, y.history, point), unpublished := y.unpublished + 1, path := y.path + [point])
    case Reconfigure(maxSamples, epsilon) =>
      y.(history := Configured(y.history, maxSamples, epsilon), unpublished := y.unpublished + 1)
    case Reset =>
      y.(history := Cleared(y.history), unpublished := y.unpublished + 1)
    case Publish =>
      if y.unpublished == 0 then y
      else y.(unpublished := y.unpublished - 1,
              session := if y.accepted then y.session.(wakePending := true) else y.session)
    case Accept =>
      if y.accepted || y.session.closed then y
      else
        var (session, frame) := Sent(y.session, y.history, true);
        y.(accepted := true, session := session, frame := frame, sent := y.history.entries)
    case Tick =>
      if !y.accepted then y
      else
        var (session, frame) := Ticked(y.session, y.history);
        if frame.None? then y.(session := session)
        else y.(session := session, frame := frame, sent := y.history.entries)
    case WriteDone(ok) =>
      if y.frame.None? then y
      else
        y.(session := WriteCompleted(y.session, ok), frame := None,
           copy := if ok then Receive(y.copy, y.frame.value.batch, y.frame.value.replacement) else y.copy,
           held := if ok then y.sent else y.held)
    case ApplicationData =>
      if !y.accepted then y else y.(session := y.session.(closing := true))
    case Fail =>
      y.(session := y.session.(closed := true))
  }

  function Run(g: Geometry, y: System, steps: seq<Step>): System
    decreases |steps|
  {
    if steps == [] then y else Run(g, Next(g, y, steps[0]), steps[1..])
  }

  /** The session and the consumer agree about the list they last synchronized on. */
  predicate Consistent(y: System) {
    var s := y.session;
    && Valid(y.history)
    && (s.writing <==> y.frame.Some?)
    && (!y.accepted ==> s == FRESH_SESSION.(closed := s.closed) && y.frame.None?)
    && (y.accepted && !s.closed && y.frame.None? ==>
          y.copy == Pack(y.held) && Tracks(y.history, y.held, s.cursor, s.generation))
    && (y.frame.Some? && !s.closed ==>
          && Receive(y.copy, y.frame.value.batch, y.frame.value.replacement) == Pack(y.sent)
          && Tracks(y.history, y.sent, s.writeCursor, s.writeGeneration))
  }

  /** The list the consumer will hold once the write in flight, if any, completes. */
  function Expected(y: System): seq<Entry> {
    if y.frame.Some? then y.sent else y.held
  }

  /** Either a wake is still due, or the newest list is on its way. */
  predicate NothingLost(y: System) {
    y.accepted && !y.session.closed && y.unpublished == 0 && !y.session.wakePending ==>
      Expected(y) == y.history.entries
  }

  lemma SentIsConsistent(y: System, session: Session, frame: Option<Frame>, initial: bool)
    requires Consistent(y) && !y.session.closed && y.frame.None? && initial == !y.accepted
    requires (session, frame) == Sent(y.session, y.history, initial)
    ensures frame.Some? ==>
              && Receive(y.copy, frame.value.batch, frame.value.replacement) == Pack(y.history.entries)
              && Tracks(y.history, y.history.entries, session.writeCursor, session.writeGeneration)
              && session.writing
    ensures frame.None? ==> session == y.session && y.held == y.history.entries
  {
    TracksSnapshot(y.history);
    if !initial {
      SyncReproduces(y.history, y.held, y.session.cursor, y.session.generation, 0);
      if frame.None? {
        EmptyDeltaMeansCurrent(y.history, y.held, y.session.cursor, y.session.generation);
      }
    }
  }

  lemma HistoryStepKeeps(g: Geometry, y: System, step: Step)
    requires step.NewSample? || step.Reconfigure? || step.Reset?
    requires Consistent(y)
    ensures Consistent(Next(g, y, step))
  {
    var s := y.session;
    match step
    case NewSample(point) =>
      AppendedValid(g, y.history, point);
      if y.accepted && !s.closed {
        if y.frame.None? {
          TracksAppend(g, y.history, point, y.held, s.cursor, s.generation);
        } else {
          TracksAppend(g, y.history, point, y.sent, s.writeCursor, s.writeGeneration);
        }
      }
    case Reconfigure(maxSamples, epsilon) =>
      ConfiguredValid(y.history, maxSamples, epsilon);
    case Reset =>
  }

  lemma NextKeeps(g: Geometry, y: System, step: Step)
    requires Consistent(y) && NothingLost(y)
    ensures Consistent(Next(g, y, step)) && NothingLost(Next(g, y, step))
  {
    match step
    case NewSample(_) => HistoryStepKeeps(g, y, step);
    case Reconfigure(_, _) => HistoryStepKeeps(g, y, step);
    case Reset => HistoryStepKeeps(g, y, step);
    case Accept =>
      if !y.accepted && !y.session.closed {
        var (session, frame) := Sent(y.session, y.history, true);
        SentIsConsistent(y, session, frame, true);
      }
    case Tick =>
      if y.accepted && !y.session.closed && !y.session.closing && !y.session.writing && y.session.wakePending {
        var woken := y.(session := y.session.(wakePending := false));
        var (session, frame) := Sent(woken.session, y.history, false);
        SentIsConsistent(woken, session, frame, false);
      }
    case _ =>
  }

  lemma {:induction false} RunKeeps(g: Geometry, y: System, steps: seq<Step>)
    requires Consistent(y) && NothingLost(y)
    ensures Consistent(Run(g, y, steps)) && NothingLost(Run(g, y, steps))
    decreases |steps|
  {
    if steps != [] {
      NextKeeps(g, y, steps[0]);
      RunKeeps(g, Next(g, y, steps[0]), steps[1..]);
    }
  }

  /** Replication: in every run, for any geometry tests, each completed write leaves the consumer with exactly
      the list the server held when it built that frame. */
  lemma EveryWriteSynchronizes(g: Geometry, maxSamples: nat, epsilon: real, steps: seq<Step>)
    ensures var y := Run(g, Start(maxSamples, epsilon), steps);
            y.frame.Some? && !y.session.closed ==>
              Next(g, y, WriteDone(true)).copy == Pack(y.sent)
  {
    RunKeeps(g, Start(maxSamples, epsilon), steps);
  }

  /** Convergence: whenever the connection is open, no write is in flight and no wake is due, the consumer's
      list is the server's current list. */
  lemma QuietMeansEqual(g: Geometry, maxSamples: nat, epsilon: real, steps: seq<Step>)
    ensures var y := Run(g, Start(maxSamples, epsilon), steps);
            && y.accepted && !y.session.closed
            && !y.session.writing && !y.session.wakePending && y.unpublished == 0 ==>
              y.copy == Pack(y.history.entries)
  {
    RunKeeps(g, Start(maxSamples, epsilon), steps);
  }

  // ---- The path ----

  lemma NextCovers(g: Geometry, y: System, step: Step)
    requires Covers(g, y.path, y.history)
    ensures Covers(g, Next(g, y, step).path, Next(g, y, step).history)
  {
    hide Covers;
    match step
    case NewSample(point) =>
      if Accepts(g, y.history, point) {
        AppendedCovers(g, y.path, y.history, point);
      }
    case Reconfigure(maxSamples, epsilon) => ConfiguredCovers(g, y.path, y.history, maxSamples, epsilon);
    case Reset => ClearedCovers(g, y.path, y.history);
    case _ =>
  }

  lemma {:induction false} RunCovers(g: Geometry, y: System, steps: seq<Step>)
    requires Covers(g, y.path, y.history)
    ensures Covers(g, Run(g, y, steps).path, Run(g, y, steps).history)
    decreases |steps|
  {
    if steps != [] {
      hide Covers, Next;
      NextCovers(g, y, steps[0]);
      RunCovers(g, Next(g, y, steps[0]), steps[1..]);
    }
  }

  lemma StartCovers(g: Geometry, maxSamples: nat, epsilon: real, steps: seq<Step>)
    ensures var y := Run(g, Start(maxSamples, epsilon), steps);
            Covers(g, y.path, y.history) && Valid(y.history)
  {
    RunCovers(g, Start(maxSamples, epsilon), steps);
    RunKeeps(g, Start(maxSamples, epsilon), steps);
  }

  /** Over every run, the history is the path reduced to its straight stretches: each entry has the sample accepted
      under its number, each accepted sample from the beginning of the covered part on belongs to one entry, whose
      samples all continue the line from the sample before them, and from the third entry on each begins where the path
      turns. */
  lemma HistoryIsThePath(g: Geometry, maxSamples: nat, epsilon: real, steps: seq<Step>, n: nat) returns (i: nat)
    requires var y := Run(g, Start(maxSamples, epsilon), steps);
             Begin(y.history) <= n < |y.path|
    ensures var y := Run(g, Start(maxSamples, epsilon), steps);
            && Covers(g, y.path, y.history)
            && i < |y.history.entries|
            && First(y.history.entries[i]) <= n <= y.history.entries[i].sequence
  {
    StartCovers(g, maxSamples, epsilon, steps);
    var y := Run(g, Start(maxSamples, epsilon), steps);
    hide Run;
    i := StandsFor(g, y.path, y.history, n, |y.history.entries|);
  }

  /** Over every run, a sample is refused if and only if there is a covered part and the sample does not differ from its
      last one by more than the tolerance; otherwise it becomes the last one, and nothing is lost but the first stretch
      of a full history. */
  lemma SampleIsTaken(g: Geometry, maxSamples: nat, epsilon: real, steps: seq<Step>, p: Point)
    ensures var y := Run(g, Start(maxSamples, epsilon), steps);
            var v := Next(g, y, NewSample(p));
            var h := y.history;
            && (|h.entries| >= 2 ==> h.entries[|h.entries| - 2].sequence < |y.path|)
            && (if Begin(h) < |y.path| && !g.changed(y.path[|y.path| - 1], p, h.epsilon) then v == y
                else
                  var k := v.history;
                  var evicts := h.nextSequence == |y.path| && |h.entries| == h.maxSamples && Turns(g, y.path, h, p);
                  && v.path == y.path + [p] && v.unpublished == y.unpublished + 1
                  && k.entries != [] && k.entries[|k.entries| - 1].sample == p
                  && k.entries[|k.entries| - 1].sequence == |y.path|
                  && Begin(k) == (if evicts then h.entries[0].sequence + 1 else Begin(h))
                  && k.generation == h.generation + (if evicts then 1 else 0))
  {
    hide Run, Covers, Appended, Valid, Turns;
    StartCovers(g, maxSamples, epsilon, steps);
    var y := Run(g, Start(maxSamples, epsilon), steps);
    LastCovered(g, y.path, y.history);
    if Accepts(g, y.history, p) {
      AppendedMoves(g, y.path, y.history, p);
      AppendedCovers(g, y.path, y.history, p);
      LastCovered(g, y.path + [p], Appended(g, y.history, p));
    }
  }

  lemma LastCovered(g: Geometry, path: seq<Point>, h: History)
    requires Covers(g, path, h)
    ensures h.nextSequence == |path|
    ensures h.entries == [] <==> Begin(h) == |path|
    ensures h.entries != [] ==>
              var last := h.entries[|h.entries| - 1];
              Begin(h) < |path| && last.sequence + 1 == |path| && last.sample == path[|path| - 1]
    ensures |h.entries| >= 2 ==> h.entries[|h.entries| - 2].sequence < |path|
  {
    hide Corner, Straight;
    if h.entries != [] {
      BeginsBefore(g, path, h, |h.entries| - 1);
    }
    if |h.entries| >= 2 {
      assert Stretch(g, path, h.entries[|h.entries| - 2]);
    }
  }

  lemma {:induction false} BeginsBefore(g: Geometry, path: seq<Point>, h: History, i: nat)
    requires Covers(g, path, h) && i < |h.entries|
    ensures Begin(h) <= h.entries[i].sequence < |path| && h.entries[i].sample == path[h.entries[i].sequence]
  {
    hide Corner, Straight;
    assert Stretch(g, path, h.entries[i]);
    if i > 0 {
      BeginsBefore(g, path, h, i - 1);
      assert Meets(h.entries, i - 1);
    }
  }

  /** Over every run, reconfiguring keeps the newest entries, as many as the new bound allows, and clearing none; both
      tell every consumer by a new generation. */
  lemma ReconfiguringKeepsTheNewest(
      g: Geometry, maxSamples: nat, epsilon: real, steps: seq<Step>, bound: nat, tolerance: real)
    ensures var y := Run(g, Start(maxSamples, epsilon), steps);
            var k := Next(g, y, Reconfigure(bound, tolerance)).history;
            var entries := y.history.entries;
            && |k.entries| <= |entries| && k.entries == entries[|entries| - |k.entries|..]
            && (|k.entries| == |entries| || |k.entries| == bound || (bound == 0 && |k.entries| == 1))
            && |k.entries| <= k.maxSamples && 1 <= k.maxSamples && (bound >= 1 ==> k.maxSamples == bound)
            && k.epsilon >= 0.0 && (tolerance >= 0.0 ==> k.epsilon == tolerance)
            && k.generation > y.history.generation && k.nextSequence == |y.path|
    ensures var y := Run(g, Start(maxSamples, epsilon), steps);
            var k := Next(g, y, Reset).history;
            && k.entries == [] && Begin(k) == |y.path| && k.generation > y.history.generation
            && k.maxSamples == y.history.maxSamples && k.epsilon == y.history.epsilon
  {
    StartCovers(g, maxSamples, epsilon, steps);
  }

  /** Over every run, what a consumer reads back when everything is quiet is the accepted samples themselves, those with
      the numbers the history kept, up to the last one accepted. */
  lemma ConsumerSeesThePath(g: Geometry, maxSamples: nat, epsilon: real, steps: seq<Step>)
    ensures var y := Run(g, Start(maxSamples, epsilon), steps);
            && y.accepted && !y.session.closed
            && !y.session.writing && !y.session.wakePending && y.unpublished == 0 ==>
              var entries := y.history.entries;
              && |y.copy| == 10 * |entries|
              && (forall i :: 0 <= i < |entries| ==> entries[i].sequence < |y.path|)
              && (forall i :: 0 <= i < |entries| ==> Unpack(y.copy)[i] == y.path[entries[i].sequence])
              && (Begin(y.history) < |y.path| ==>
                    entries != [] && Unpack(y.copy)[|entries| - 1] == y.path[|y.path| - 1])
  {
    StartCovers(g, maxSamples, epsilon, steps);
    QuietMeansEqual(g, maxSamples, epsilon, steps);
    var y := Run(g, Start(maxSamples, epsilon), steps);
    hide Run;
    LastCovered(g, y.path, y.history);
    UnpackPack(y.history.entries);
    forall i | 0 <= i < |y.history.entries|
      ensures y.history.entries[i].sequence < |y.path|
      ensures y.history.entries[i].sample == y.path[y.history.entries[i].sequence]
    {
      BeginsBefore(g, y.path, y.history, i);
    }
    hide Covers, Unpack, Pack;
  }

  /** The numbers of a frame: those of its generation, of its first entry and of the next sample to be accepted; a
      replacement has all entries and any other frame the last ones. */
  ghost predicate Numbered(frame: Frame, h: History, first: nat) {
    var b := frame.batch;
    && first <= |h.entries| && b.packed == Pack(h.entries[first..])
    && b.generation == h.generation && b.nextSequence == h.nextSequence
    && b.firstSequence == (if first < |h.entries| then h.entries[first].sequence else h.nextSequence)
    && b.replaceCount <= 1 && (frame.replacement ==> first == 0 && b.replaceCount == 0)
  }

  lemma SentNumbered(s: Session, h: History, initial: bool) returns (first: nat)
    requires Sent(s, h, initial).1.Some?
    ensures Numbered(Sent(s, h, initial).1.value, h, first)
  {
    hide Pack, LowerBound;
    var n := |h.entries|;
    assert h.entries[0..] == h.entries == h.entries[0..n];
    if initial || h.entries == [] || GenerationChanged(h, s.generation) || s.cursor < Oldest(h) {
      first := 0;
      EmptyPacks(h.entries);
    } else {
      first := LowerBound(h.entries, s.cursor);
      assert h.entries[first..n] == h.entries[first..];
    }
  }

  lemma EmptyPacks(entries: seq<Entry>)
    ensures entries == [] ==> Pack(entries) == []
  {
  }

  /** Over every run, a frame that starts is numbered by the history it was made from. */
  lemma FramesAreNumbered(g: Geometry, maxSamples: nat, epsilon: real, steps: seq<Step>, step: Step)
    returns (first: nat)
    requires var y := Run(g, Start(maxSamples, epsilon), steps);
             y.frame.None? && Next(g, y, step).frame.Some?
    ensures var v := Next(g, Run(g, Start(maxSamples, epsilon), steps), step);
            && Numbered(v.frame.value, v.history, first)
            && v.history.nextSequence == |v.path| && v.sent == v.history.entries
  {
    StartCovers(g, maxSamples, epsilon, steps);
    var y := Run(g, Start(maxSamples, epsilon), steps);
    hide Run;
    hide Sent, Numbered, Covers;
    LastCovered(g, y.path, y.history);
    var session := if step.Accept? then y.session else y.session.(wakePending := false);
    first := SentNumbered(session, y.history, step.Accept?);
  }

  /** Over every run, a tick of an open session that is idle and was woken serves the wake: it starts a frame exactly
      if the consumer has not seen the history's generation or does not hold its list. Any other tick does nothing. */
  lemma TickServesTheWake(g: Geometry, maxSamples: nat, epsilon: real, steps: seq<Step>)
    ensures var y := Run(g, Start(maxSamples, epsilon), steps);
            var v := Next(g, y, Tick);
            var s := y.session;
            if y.accepted && !s.closed && !s.closing && !s.writing && s.wakePending
            then && !v.session.wakePending
                 && (v.frame.Some? <==> s.generation != y.history.generation || y.held != y.history.entries)
            else v == y
  {
    RunKeeps(g, Start(maxSamples, epsilon), steps);
    var y := Run(g, Start(maxSamples, epsilon), steps);
    hide Run, Tracks, DeltaSince, Valid;
    var s := y.session;
    if y.accepted && !s.closed && !s.closing && !s.writing && s.wakePending {
      var batch := DeltaSince(y.history, s.cursor, 0, s.generation);
      if s.generation != y.history.generation {
        NewGenerationResets(y.history, y.held, s.cursor, s.generation);
      } else if y.held == y.history.entries {
        CurrentMeansEmptyDelta(y.history, y.held, s.cursor, s.generation);
      } else if !batch.reset && batch.packed == [] {
        EmptyDeltaMeansCurrent(y.history, y.held, s.cursor, s.generation);
      }
    }
  }

  lemma NewGenerationResets(h: History, base: seq<Entry>, cursor: nat, generation: nat)
    requires Tracks(h, base, cursor, generation) && generation != h.generation
    ensures DeltaSince(h, cursor, 0, generation).reset
  {
  }
}
