/**
When a watcher's copy of the machine status is exact.

The server leaves out of a delta every unit that compares equal, and it compares doubles
with the IEEE operator.  A copy can therefore differ from the published status.  Which
statuses may be published so that this never happens, in any run, is decided here.
*/
module StatusExactness {
  import opened Options
  import opened StatusCodec
  import opened StatusStream
  import opened StatusService

  /** The statuses a server may publish. */
  type Choice<!V> = StatusRecord<V> -> bool

  predicate Chosen<V>(good: Choice<V>, s: StatusRecord<V>) {
    WellFormed(s) && good(s)
  }

  /** All statuses observed in the run are among those. */
  predicate Publishes<V>(good: Choice<V>, steps: seq<Step<StatusRecord<V>>>) {
    forall i :: 0 <= i < |steps| && steps[i].Observe? && WellFormed(steps[i].status) ==> good(steps[i].status)
  }

  function After<V(==)>(eq: Comparison<V>, capacity: nat, steps: seq<Step<StatusRecord<V>>>)
    : System<StatusRecord<V>, StatusDelta<V>>
  {
    Run(MachineCodec(eq), Start(capacity), steps)
  }

  /** The event in flight, if there is one, brings the client exactly the status of its number. */
  predicate EventExact<V(==)>(eq: Comparison<V>, y: System<StatusRecord<V>, StatusDelta<V>>) {
    y.watcher.writing.Some? ==>
      var event := y.watcher.writing.value.0;
      event.sequence in y.log && Receive(MachineCodec(eq), y.copy, event) == Some(y.log[event.sequence])
  }

  /** A wake would write nothing and not end the stream. */
  predicate Silent<V(==)>(eq: Comparison<V>, y: System<StatusRecord<V>, StatusDelta<V>>) {
    var w := Woken(MachineCodec(eq), y.watcher, y.feed);
    y.subscribed && y.watcher.writing.None? && w.writing.None? && !w.terminated
  }

  /** If the stream is quiet or a wake is silent, the client has exactly the newest status. */
  predicate RestExact<V(==)>(eq: Comparison<V>, y: System<StatusRecord<V>, StatusDelta<V>>) {
    Quiet(y) || Silent(eq, y) ==> y.feed.latest.Some? && y.copy == Some(y.feed.latest.value.encoded)
  }

  ghost predicate EventsExact<V(!new)>(eq: Comparison<V>, capacity: nat, good: Choice<V>) {
    forall steps :: Publishes(good, steps) ==> EventExact(eq, After(eq, capacity, steps))
  }

  ghost predicate RestsExact<V(!new)>(eq: Comparison<V>, capacity: nat, good: Choice<V>) {
    forall steps :: Publishes(good, steps) ==> RestExact(eq, After(eq, capacity, steps))
  }

  // ---- The conditions ----

  predicate Apart<V(==)>(eq: Comparison<V>, p: StatusRecord<V>, c: StatusRecord<V>) {
    StatusEqual(eq, p, c) || StatusExact(eq, p, c)
  }

  /** Of two statuses that do not compare equal, no unit that differs compares equal. */
  ghost predicate Separated<V(!new)>(eq: Comparison<V>, good: Choice<V>) {
    forall p, c :: Chosen(good, p) && Chosen(good, c) ==> Apart(eq, p, c)
  }

  predicate Back<V(==)>(eq: Comparison<V>, p: StatusRecord<V>, m: StatusRecord<V>, c: StatusRecord<V>) {
    StatusEqual(eq, p, c) && !StatusEqual(eq, p, m) ==> p == c
  }

  /** Two statuses that compare equal are the same, unless nothing can come between them. */
  ghost predicate Recurrent<V(!new)>(eq: Comparison<V>, good: Choice<V>) {
    forall p, m, c :: Chosen(good, p) && Chosen(good, m) && Chosen(good, c) ==> Back(eq, p, m, c)
  }

  // ---- They suffice ----

  /** The machine codec, restricted to the chosen statuses and held to the letter. */
  function ExactCodec<V(==)>(eq: Comparison<V>, good: Choice<V>): Codec<StatusRecord<V>, StatusDelta<V>> {
    MachineCodec(eq).(
      wellFormed := (s: StatusRecord<V>) => Chosen(good, s),
      alike := (a: StatusRecord<V>, b: StatusRecord<V>) => a == b)
  }

  lemma SeparatedRebuilds<V(!new)>(eq: Comparison<V>, good: Choice<V>, capacity: nat)
    requires capacity >= 2 ==> Separated(eq, good)
    ensures Rebuilds(ExactCodec(eq, good), capacity)
  {
    var k := ExactCodec(eq, good);
    forall w, p, c, n | capacity >= 2 ensures RoundTrips(k, w, p, c, n) {
      if k.wellFormed(p) && k.wellFormed(c) {
        assert Apart(eq, p, c);
        StatusExactIff(eq, p, c, n);
        hide StatusEqual, StatusExact, Patched, Fits;
      }
    }
  }

  lemma RecurrentLawful<V(!new)>(eq: Comparison<V>, good: Choice<V>, capacity: nat)
    requires capacity >= 2 ==> Separated(eq, good)
    requires capacity >= 3 ==> Recurrent(eq, good)
    ensures Lawful(ExactCodec(eq, good), capacity)
  {
    SeparatedRebuilds(eq, good, capacity);
    hide Rebuilds, Separated;
    var k := ExactCodec(eq, good);
    forall w, p, m, c, i, n | capacity >= 3 ensures Returns(k, w, p, m, c, i, n) {
      if k.wellFormed(p) && k.wellFormed(m) && k.wellFormed(c) {
        assert Back(eq, p, m, c);
        hide StatusEqual;
      }
    }
  }

  /** Restricting the codec to the statuses a run observes changes nothing. */
  lemma {:induction false} SameRun<V>(
      eq: Comparison<V>, good: Choice<V>, y: System<StatusRecord<V>, StatusDelta<V>>,
      steps: seq<Step<StatusRecord<V>>>)
    requires Publishes(good, steps)
    ensures Run(MachineCodec(eq), y, steps) == Run(ExactCodec(eq, good), y, steps)
    decreases |steps|
  {
    if steps != [] {
      var k, e := MachineCodec(eq), ExactCodec(eq, good);
      SameNext(eq, good, y, steps[0]);
      hide Next;
      SameRun(eq, good, Next(k, y, steps[0]), steps[1..]);
    }
  }

  lemma SameNext<V>(
      eq: Comparison<V>, good: Choice<V>, y: System<StatusRecord<V>, StatusDelta<V>>, step: Step<StatusRecord<V>>)
    requires step.Observe? && WellFormed(step.status) ==> good(step.status)
    ensures Next(MachineCodec(eq), y, step) == Next(ExactCodec(eq, good), y, step)
  {
    var k, e := MachineCodec(eq), ExactCodec(eq, good);
    if step.WriteDone? && y.watcher.writing.Some? {
      SameReceive(eq, good, y.copy, y.watcher.writing.value.0);
    }
    hide Receive;
  }

  lemma SameWoken<V>(
      eq: Comparison<V>, good: Choice<V>, w: Watcher<StatusRecord<V>, StatusDelta<V>>,
      f: Feed<StatusRecord<V>, StatusDelta<V>>)
    ensures Woken(MachineCodec(eq), w, f) == Woken(ExactCodec(eq, good), w, f)
  {
  }

  lemma SameReceive<V>(
      eq: Comparison<V>, good: Choice<V>, copy: Option<StatusRecord<V>>,
      event: Event<StatusRecord<V>, StatusDelta<V>>)
    ensures Receive(MachineCodec(eq), copy, event) == Receive(ExactCodec(eq, good), copy, event)
  {
    if event.Replay? {
      SamePatches(eq, good, event.start, event.deltas);
    }
  }

  lemma {:induction false} SamePatches<V>(
      eq: Comparison<V>, good: Choice<V>, status: StatusRecord<V>, deltas: seq<StatusDelta<V>>)
    ensures PatchAll(MachineCodec(eq), status, deltas) == PatchAll(ExactCodec(eq, good), status, deltas)
  {
    if deltas != [] {
      SamePatches(eq, good, status, deltas[..|deltas| - 1]);
    }
  }

  lemma SeparatedSuffices<V(!new)>(eq: Comparison<V>, capacity: nat, good: Choice<V>)
    requires 1 <= capacity && (capacity >= 2 ==> Separated(eq, good))
    ensures EventsExact(eq, capacity, good)
  {
    SeparatedRebuilds(eq, good, capacity);
    hide Rebuilds, Run, Separated;
    forall steps | Publishes(good, steps) ensures EventExact(eq, After(eq, capacity, steps)) {
      var y := After(eq, capacity, steps);
      SameRun(eq, good, Start(capacity), steps);
      EveryEventRebuilds(ExactCodec(eq, good), capacity, steps, true);
      if y.watcher.writing.Some? {
        SameReceive(eq, good, y.copy, y.watcher.writing.value.0);
      }
    }
  }

  lemma RecurrentSuffices<V(!new)>(eq: Comparison<V>, capacity: nat, good: Choice<V>)
    requires 1 <= capacity && (capacity >= 2 ==> Separated(eq, good)) && (capacity >= 3 ==> Recurrent(eq, good))
    ensures RestsExact(eq, capacity, good)
  {
    RecurrentLawful(eq, good, capacity);
    hide Lawful, Run, Separated, Recurrent;
    forall steps | Publishes(good, steps) ensures RestExact(eq, After(eq, capacity, steps)) {
      var y := After(eq, capacity, steps);
      SameRun(eq, good, Start(capacity), steps);
      SameWoken(eq, good, y.watcher, y.feed);
      QuietMeansCurrent(ExactCodec(eq, good), capacity, steps);
      SilentWakeIsCurrent(ExactCodec(eq, good), capacity, steps);
    }
  }

  // ---- They are needed ----

  lemma RunStep<S, D>(k: Codec<S, D>, y: System<S, D>, step: Step<S>, rest: seq<Step<S>>)
    ensures Run(k, y, [step] + rest) == Run(k, Next(k, y, step), rest)
  {
    assert ([step] + rest)[1..] == rest;
  }

  /** A client that has got the first status, `p`, and is due another look. */
  function Watching<V>(capacity: nat, p: StatusRecord<V>): System<StatusRecord<V>, StatusDelta<V>> {
    var sample := Sample(1, p, None);
    System(Feed(Some(sample), [sample], 1, true, capacity), map[1 := p], 1, 1, true,
           Watcher(0, 1, Some(sample), None, true, false), Some(p))
  }

  /** The steps that lead there, followed by others. */
  function Watch<V>(p: StatusRecord<V>, rest: seq<Step<StatusRecord<V>>>): seq<Step<StatusRecord<V>>> {
    [Observe(p, false)] + ([MarkAvailable] + ([Subscribe(0)] + ([Wake] + ([WriteDone(true, true)] + rest))))
  }

  lemma WatchWatches<V>(
      eq: Comparison<V>, capacity: nat, p: StatusRecord<V>, rest: seq<Step<StatusRecord<V>>>)
    requires 1 <= capacity && WellFormed(p)
    ensures After(eq, capacity, Watch(p, rest)) == Run(MachineCodec(eq), Watching(capacity, p), rest)
  {
    hide Run;
    var k := MachineCodec(eq);
    var y0: System<StatusRecord<V>, StatusDelta<V>> := Start(capacity);
    var r4 := [WriteDone(true, true)] + rest;
    var r3 := [Wake] + r4;
    var r2 := [Subscribe(0)] + r3;
    var r1 := [MarkAvailable] + r2;
    var y1 := Next(k, y0, Observe(p, false));
    var y2 := Next(k, y1, MarkAvailable);
    var y3 := Next(k, y2, Subscribe(0));
    var y4 := Next(k, y3, Wake);
    RunStep(k, y0, Observe(p, false), r1);
    RunStep(k, y1, MarkAvailable, r2);
    RunStep(k, y2, Subscribe(0), r3);
    RunStep(k, y3, Wake, r4);
    RunStep(k, y4, WriteDone(true, true), rest);
    assert Next(k, y4, WriteDone(true, true)) == Watching(capacity, p);
  }

  /** A client at `p` that is sent the delta to `c`. */
  function TwoStatuses<V>(p: StatusRecord<V>, c: StatusRecord<V>): seq<Step<StatusRecord<V>>> {
    Watch(p, [Observe(c, false)] + ([Wake] + []))
  }

  /** The same client when `c` has come. */
  function Behind<V>(eq: Comparison<V>, capacity: nat, p: StatusRecord<V>, c: StatusRecord<V>)
    : System<StatusRecord<V>, StatusDelta<V>>
    requires WellFormed(p) && WellFormed(c)
  {
    var y := Watching(capacity, p);
    var second := Sample(2, c, StatusDiff(eq, p, c, 2));
    y.(feed := y.feed.(latest := Some(second), history := [y.feed.latest.value, second], sequence := 2),
       log := map[1 := p, 2 := c],
       unpublished := 2)
  }

  lemma BehindReached<V>(eq: Comparison<V>, capacity: nat, p: StatusRecord<V>, c: StatusRecord<V>)
    requires 2 <= capacity && WellFormed(p) && WellFormed(c) && !StatusEqual(eq, p, c)
    ensures Next(MachineCodec(eq), Watching(capacity, p), Observe(c, false)) == Behind(eq, capacity, p, c)
  {
    hide StatusEqual;
  }

  lemma BehindIsTold<V>(eq: Comparison<V>, capacity: nat, p: StatusRecord<V>, c: StatusRecord<V>)
    requires WellFormed(p) && WellFormed(c) && !StatusEqual(eq, p, c)
    ensures var y := Next(MachineCodec(eq), Behind(eq, capacity, p, c), Wake);
            && y.watcher.writing.Some? && y.copy == Some(p) && y.log == map[1 := p, 2 := c]
            && StatusDiff(eq, p, c, 2).Some?
            && y.watcher.writing.value.0 == Delta(2, StatusDiff(eq, p, c, 2).value)
  {
    hide StatusEqual;
  }

  /** Its copy is then `p` with the delta applied. */
  lemma TwoStatusesArrive<V>(eq: Comparison<V>, capacity: nat, p: StatusRecord<V>, c: StatusRecord<V>)
    requires 2 <= capacity && WellFormed(p) && WellFormed(c) && !StatusEqual(eq, p, c)
    ensures var y := After(eq, capacity, TwoStatuses(p, c));
            && y.watcher.writing.Some?
            && var event := y.watcher.writing.value.0;
               && event.sequence == 2 && 2 in y.log && y.log[2] == c
               && (Receive(MachineCodec(eq), y.copy, event) == Some(c) <==> StatusExact(eq, p, c))
  {
    var k := MachineCodec(eq);
    WatchWatches(eq, capacity, p, [Observe(c, false)] + ([Wake] + []));
    StatusExactIff(eq, p, c, 2);
    BehindReached(eq, capacity, p, c);
    BehindIsTold(eq, capacity, p, c);
    hide Run, Next, Watching, Behind, StatusExact, StatusEqual, StatusDiff, Patched, Fits;
    var y1 := Behind(eq, capacity, p, c);
    RunStep(k, Watching(capacity, p), Observe(c, false), [Wake] + []);
    RunStep(k, y1, Wake, []);
    RunEnd(k, Next(k, y1, Wake));
  }

  lemma RunEnd<S, D>(k: Codec<S, D>, y: System<S, D>)
    ensures Run(k, y, []) == y
  {
  }

  /** A client at `p` that looks again only after `m` and `c`. */
  function ThereAndBack<V>(p: StatusRecord<V>, m: StatusRecord<V>, c: StatusRecord<V>): seq<Step<StatusRecord<V>>> {
    Watch(p, [Observe(m, false)] + ([Observe(c, false)] +
      ([Publish(true)] + ([Publish(true)] + ([Publish(true)] + ([Wake] + []))))))
  }

  /** The same client when `m` and `c` have come. */
  function Overtaken<V>(
      eq: Comparison<V>, capacity: nat, p: StatusRecord<V>, m: StatusRecord<V>, c: StatusRecord<V>)
    : System<StatusRecord<V>, StatusDelta<V>>
    requires WellFormed(p) && WellFormed(m) && WellFormed(c)
  {
    var y := Watching(capacity, p);
    var second, third := Sample(2, m, StatusDiff(eq, p, m, 2)), Sample(3, c, StatusDiff(eq, m, c, 3));
    y.(feed := y.feed.(latest := Some(third), history := [y.feed.latest.value, second, third], sequence := 3),
       log := map[1 := p, 2 := m, 3 := c],
       unpublished := 3)
  }

  lemma OvertakenReached<V>(
      eq: Comparison<V>, capacity: nat, p: StatusRecord<V>, m: StatusRecord<V>, c: StatusRecord<V>,
      rest: seq<Step<StatusRecord<V>>>)
    requires 3 <= capacity && WellFormed(p) && WellFormed(m) && WellFormed(c)
    requires !StatusEqual(eq, p, m) && !StatusEqual(eq, m, c)
    ensures Run(MachineCodec(eq), Watching(capacity, p), [Observe(m, false)] + ([Observe(c, false)] + rest)) ==
            Run(MachineCodec(eq), Overtaken(eq, capacity, p, m, c), rest)
  {
    hide Run, StatusEqual;
    var k := MachineCodec(eq);
    var y0: System<StatusRecord<V>, StatusDelta<V>> := Watching(capacity, p);
    var y1 := Next(k, y0, Observe(m, false));
    RunStep(k, y0, Observe(m, false), [Observe(c, false)] + rest);
    RunStep(k, y1, Observe(c, false), rest);
    assert Next(k, y1, Observe(c, false)) == Overtaken(eq, capacity, p, m, c);
  }

  lemma PublishedThrice<S, D>(k: Codec<S, D>, y: System<S, D>, rest: seq<Step<S>>)
    requires y.unpublished == 3 && y.watcher.wakeScheduled
    ensures Run(k, y, [Publish(true)] + ([Publish(true)] + ([Publish(true)] + rest))) ==
            Run(k, y.(unpublished := 0), rest)
  {
    hide Run;
    RunStep(k, y, Publish(true), [Publish(true)] + ([Publish(true)] + rest));
    RunStep(k, y.(unpublished := 2), Publish(true), [Publish(true)] + rest);
    RunStep(k, y.(unpublished := 1), Publish(true), rest);
  }

  lemma OvertakenRests<V>(
      eq: Comparison<V>, capacity: nat, p: StatusRecord<V>, m: StatusRecord<V>, c: StatusRecord<V>)
    requires WellFormed(p) && WellFormed(m) && WellFormed(c) && StatusEqual(eq, p, c)
    ensures var y := Next(MachineCodec(eq), Overtaken(eq, capacity, p, m, c).(unpublished := 0), Wake);
            Quiet(y) && y.copy == Some(p) && y.feed.latest.Some? && y.feed.latest.value.encoded == c
  {
    hide StatusEqual;
  }

  /** If `c` compares equal to `p`, nothing is sent, and its copy is still `p`. */
  lemma ThereAndBackRests<V>(
      eq: Comparison<V>, capacity: nat, p: StatusRecord<V>, m: StatusRecord<V>, c: StatusRecord<V>)
    requires 3 <= capacity && WellFormed(p) && WellFormed(m) && WellFormed(c)
    requires !StatusEqual(eq, p, m) && !StatusEqual(eq, m, c) && StatusEqual(eq, p, c)
    ensures var y := After(eq, capacity, ThereAndBack(p, m, c));
            Quiet(y) && y.copy == Some(p) && y.feed.latest.Some? && y.feed.latest.value.encoded == c
  {
    hide Run, Next, StatusEqual, Quiet;
    var k := MachineCodec(eq);
    var wake: seq<Step<StatusRecord<V>>> := [Wake] + [];
    var rest := [Publish(true)] + ([Publish(true)] + ([Publish(true)] + wake));
    WatchWatches(eq, capacity, p, [Observe(m, false)] + ([Observe(c, false)] + rest));
    OvertakenReached(eq, capacity, p, m, c, rest);
    var y := Overtaken(eq, capacity, p, m, c);
    PublishedThrice(k, y, wake);
    RunStep(k, y.(unpublished := 0), Wake, []);
    RunEnd(k, Next(k, y.(unpublished := 0), Wake));
    OvertakenRests(eq, capacity, p, m, c);
  }

  // ---- Results ----

  /** Every event of every run is exact if and only if the statuses that may be published are separated, or the server
      keeps a single sample and never sends a delta. */
  lemma EventsExactIff<V(!new)>(eq: Comparison<V>, capacity: nat, good: Choice<V>)
    requires 1 <= capacity
    ensures EventsExact(eq, capacity, good) <==> capacity == 1 || Separated(eq, good)
  {
    if capacity == 1 || Separated(eq, good) {
      SeparatedSuffices(eq, capacity, good);
    } else {
      var p, c :| Chosen(good, p) && Chosen(good, c) && !Apart(eq, p, c);
      TwoStatusesArrive(eq, capacity, p, c);
      assert Publishes(good, TwoStatuses(p, c));
      assert !EventExact(eq, After(eq, capacity, TwoStatuses(p, c)));
    }
  }

  ghost predicate Symmetric<V(!new)>(eq: Comparison<V>) {
    forall a, b :: eq(a, b) ==> eq(b, a)
  }

  lemma NotBetween<V(!new)>(eq: Comparison<V>, p: StatusRecord<V>, m: StatusRecord<V>, c: StatusRecord<V>)
    requires Symmetric(eq) && Transitive(eq) && StatusEqual(eq, p, c) && StatusEqual(eq, m, c)
    ensures StatusEqual(eq, p, m)
  {
  }

  /** Every event of every run is exact, and so is the copy whenever the stream is quiet, if and only if the statuses
      that may be published are separated and, where three samples are kept, no two of them that compare equal differ
      once a third can come between them. */
  lemma StreamExactIff<V(!new)>(eq: Comparison<V>, capacity: nat, good: Choice<V>)
    requires 1 <= capacity && Symmetric(eq) && Transitive(eq)
    ensures EventsExact(eq, capacity, good) && RestsExact(eq, capacity, good) <==>
            (capacity == 1 || Separated(eq, good)) && (capacity <= 2 || Recurrent(eq, good))
  {
    EventsExactIff(eq, capacity, good);
    hide EventsExact, Separated;
    if capacity == 1 || Separated(eq, good) {
      if capacity <= 2 || Recurrent(eq, good) {
        RecurrentSuffices(eq, capacity, good);
      } else {
        var p, m, c :| Chosen(good, p) && Chosen(good, m) && Chosen(good, c) && !Back(eq, p, m, c);
        if StatusEqual(eq, m, c) {
          NotBetween(eq, p, m, c);
        }
        ThereAndBackRests(eq, capacity, p, m, c);
        assert Publishes(good, ThereAndBack(p, m, c));
        assert !RestExact(eq, After(eq, capacity, ThereAndBack(p, m, c)));
      }
    }
  }

  /** Statuses that are exact pair by pair may be published freely. */
  lemma PairwiseExactSuffices<V(!new)>(eq: Comparison<V>, capacity: nat, good: Choice<V>)
    requires 1 <= capacity
    requires forall p, c :: Chosen(good, p) && Chosen(good, c) ==> StatusExact(eq, p, c)
    ensures EventsExact(eq, capacity, good) && RestsExact(eq, capacity, good)
  {
    forall p, m, c | Chosen(good, p) && Chosen(good, m) && Chosen(good, c) ensures Back(eq, p, m, c) {
      StatusExactIff(eq, p, c, 0);
    }
    hide StatusExact;
    SeparatedSuffices(eq, capacity, good);
    RecurrentSuffices(eq, capacity, good);
  }

  // ---- Doubles ----

  predicate Unsigned(values: seq<Double>) {
    NegativeZero !in values
  }

  /** No unit of the status is a negative zero. */
  predicate NoNegativeZero(s: StatusRecord<Double>) {
    && Unsigned([s.state, s.echoSerialNumber, s.debug, s.io.tool, s.io.coolant, s.io.estop])
    && Unsigned(s.task.scalars) && Unsigned(s.task.records) && Unsigned(s.task.g5xOffsets)
    && Unsigned(s.task.g5xRotations)
    && Unsigned(s.motion.trajectory.scalars) && Unsigned(s.motion.trajectory.records)
    && Unsigned(s.motion.trajectory.availableAxes)
    && Unsigned(s.motion.joints) && Unsigned(s.motion.axes) && Unsigned(s.motion.spindles)
    && Unsigned(s.motion.digitalInput) && Unsigned(s.motion.digitalOutput)
    && Unsigned(s.motion.analogInput) && Unsigned(s.motion.analogOutput)
    && Unsigned(s.toolTable)
  }

  lemma UnsignedExact(a: seq<Double>, b: seq<Double>)
    requires Unsigned(a) && Unsigned(b)
    ensures ArrayExact(IeeeEqual, a, b) && WholeExact(IeeeEqual, a, b)
  {
    forall i | 0 <= i < |a| && i < |b| && IeeeEqual(a[i], b[i]) ensures a[i] == b[i] {
      assert a[i] in a && b[i] in b;
    }
  }

  lemma UnsignedMotionExact(a: Motion<Double>, b: Motion<Double>)
    requires Unsigned(a.trajectory.scalars) && Unsigned(a.trajectory.records) && Unsigned(a.trajectory.availableAxes)
    requires Unsigned(a.joints) && Unsigned(a.axes) && Unsigned(a.spindles)
    requires Unsigned(a.digitalInput) && Unsigned(a.digitalOutput)
    requires Unsigned(a.analogInput) && Unsigned(a.analogOutput)
    requires Unsigned(b.trajectory.scalars) && Unsigned(b.trajectory.records) && Unsigned(b.trajectory.availableAxes)
    requires Unsigned(b.joints) && Unsigned(b.axes) && Unsigned(b.spindles)
    requires Unsigned(b.digitalInput) && Unsigned(b.digitalOutput)
    requires Unsigned(b.analogInput) && Unsigned(b.analogOutput)
    ensures MotionExact(IeeeEqual, a, b)
  {
    hide Unsigned, ArrayExact, WholeExact;
    UnsignedExact(a.trajectory.scalars, b.trajectory.scalars);
    UnsignedExact(a.trajectory.records, b.trajectory.records);
    UnsignedExact(a.trajectory.availableAxes, b.trajectory.availableAxes);
    UnsignedExact(a.joints, b.joints);
    UnsignedExact(a.axes, b.axes);
    UnsignedExact(a.spindles, b.spindles);
    UnsignedExact(a.digitalInput, b.digitalInput);
    UnsignedExact(a.digitalOutput, b.digitalOutput);
    UnsignedExact(a.analogInput, b.analogInput);
    UnsignedExact(a.analogOutput, b.analogOutput);
  }

  lemma UnsignedFieldsExact(p: StatusRecord<Double>, c: StatusRecord<Double>)
    requires Unsigned([p.state, p.echoSerialNumber, p.debug, p.io.tool, p.io.coolant, p.io.estop])
    requires Unsigned([c.state, c.echoSerialNumber, c.debug, c.io.tool, c.io.coolant, c.io.estop])
    ensures FieldExact(IeeeEqual, p.state, c.state) && FieldExact(IeeeEqual, p.debug, c.debug)
    ensures FieldExact(IeeeEqual, p.echoSerialNumber, c.echoSerialNumber)
    ensures FieldExact(IeeeEqual, p.io.tool, c.io.tool) && FieldExact(IeeeEqual, p.io.coolant, c.io.coolant)
    ensures FieldExact(IeeeEqual, p.io.estop, c.io.estop)
  {
  }

  lemma UnsignedStatusExact(p: StatusRecord<Double>, c: StatusRecord<Double>)
    requires NoNegativeZero(p) && NoNegativeZero(c)
    ensures StatusExact(IeeeEqual, p, c)
  {
    hide Unsigned, ArrayExact, WholeExact, MotionExact;
    UnsignedFieldsExact(p, c);
    UnsignedExact(p.task.scalars, c.task.scalars);
    UnsignedExact(p.task.records, c.task.records);
    UnsignedExact(p.task.g5xOffsets, c.task.g5xOffsets);
    UnsignedExact(p.task.g5xRotations, c.task.g5xRotations);
    UnsignedMotionExact(p.motion, c.motion);
    UnsignedExact(p.toolTable, c.toolTable);
  }

  /** As long as no published status holds a negative zero, every event of every run rebuilds exactly the status it
      stands for, NaNs included, and a quiet client has exactly the newest one. */
  lemma ExactWithoutNegativeZero(capacity: nat)
    requires 1 <= capacity
    ensures EventsExact(IeeeEqual, capacity, NoNegativeZero) && RestsExact(IeeeEqual, capacity, NoNegativeZero)
  {
    forall p, c | Chosen(NoNegativeZero, p) && Chosen(NoNegativeZero, c) ensures StatusExact(IeeeEqual, p, c) {
      UnsignedStatusExact(p, c);
    }
    hide StatusExact, NoNegativeZero;
    PairwiseExactSuffices(IeeeEqual, capacity, NoNegativeZero);
  }

  lemma IeeeEquivalence()
    ensures Symmetric(IeeeEqual) && Transitive(IeeeEqual)
  {
    IeeeTransitive();
  }

  /** What the doubles of a server may be, so that its stream is exact, is thereby decided both ways. */
  lemma IeeeStreamExactIff(capacity: nat, good: Choice<Double>)
    requires 1 <= capacity
    ensures EventsExact(IeeeEqual, capacity, good) && RestsExact(IeeeEqual, capacity, good) <==>
            (capacity == 1 || Separated(IeeeEqual, good)) && (capacity <= 2 || Recurrent(IeeeEqual, good))
  {
    IeeeEquivalence();
    StreamExactIff(IeeeEqual, capacity, good);
  }

  /** Two statuses are enough to break it: if a task scalar goes from zero to negative zero while the debug level
      changes, the delta leaves the scalar out and the client's status is not the one published. */
  lemma NegativeZeroBreaksEvent(capacity: nat, p: StatusRecord<Double>, index: nat, debug: Double)
    requires 2 <= capacity && WellFormed(p) && index < TASK_SCALARS && p.task.scalars[index] == Number(0.0)
    requires !IeeeEqual(p.debug, debug)
    ensures var c := p.(debug := debug, task := p.task.(scalars := p.task.scalars[index := NegativeZero]));
            !EventExact(IeeeEqual, After(IeeeEqual, capacity, TwoStatuses(p, c)))
  {
    var c := p.(debug := debug, task := p.task.(scalars := p.task.scalars[index := NegativeZero]));
    assert c.task.scalars[index] == NegativeZero;
    assert !ArrayExact(IeeeEqual, p.task.scalars, c.task.scalars);
    assert !StatusExact(IeeeEqual, p, c);
    hide StatusExact;
    TwoStatusesArrive(IeeeEqual, capacity, p, c);
    hide After;
  }

  /** And a client that misses a status in between rests on the zero, although the newest status has the negative
      zero. */
  lemma NegativeZeroBreaksRest(capacity: nat, p: StatusRecord<Double>, index: nat, debug: Double)
    requires 3 <= capacity && WellFormed(p) && NoNaN(p) && index < TASK_SCALARS
    requires p.task.scalars[index] == Number(0.0) && !IeeeEqual(p.debug, debug)
    ensures var c := p.(task := p.task.(scalars := p.task.scalars[index := NegativeZero]));
            !RestExact(IeeeEqual, After(IeeeEqual, capacity, ThereAndBack(p, p.(debug := debug), c)))
  {
    var c := p.(task := p.task.(scalars := p.task.scalars[index := NegativeZero]));
    SignedZeroIsNotSent(p, index, 2);
    assert !StatusEqual(IeeeEqual, p, p.(debug := debug)) && !StatusEqual(IeeeEqual, p.(debug := debug), c);
    hide StatusEqual;
    ThereAndBackRests(IeeeEqual, capacity, p, p.(debug := debug), c);
    hide After;
  }
}
