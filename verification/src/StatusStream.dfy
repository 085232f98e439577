/**
The status stream: a bounded history of sequenced samples on the server, and one watcher
that is sent a snapshot or a replay first and deltas afterwards.

The protocol is stated over any codec whose `patch` undoes its `diff`, up to a relation of
its choice; the machine status codec is such a codec.
*/
module StatusStream {
  import opened Options

  /** `diff(p, c, n)` is the delta numbered `n` from `p` to `c`, or nothing when they compare equal;
      `alike` is equality up to that comparison. */
  datatype Codec<!S, !D> = Codec(
    wellFormed: S -> bool,
    alike: (S, S) -> bool,
    diff: (S, S, nat) -> Option<D>,
    patch: (S, D) -> S)

  /** Whoever holds a status like `p` and receives the delta from `p` to `c` then holds one like `c`. */
  ghost predicate RoundTrips<S, D>(k: Codec<S, D>, w: S, p: S, c: S, n: nat) {
    && k.wellFormed(p) && k.wellFormed(c) && k.alike(w, p) && k.diff(p, c, n).Some? ==>
      k.alike(k.patch(w, k.diff(p, c, n).value), c)
  }

  /** If there is no delta from `p` to `c`, although `p` was left in between, whoever holds a status like `p` also holds
      one like `c`. */
  ghost predicate Returns<S, D>(k: Codec<S, D>, w: S, p: S, m: S, c: S, i: nat, n: nat) {
    && k.wellFormed(p) && k.wellFormed(m) && k.wellFormed(c) && k.alike(w, p)
    && k.diff(p, m, i).Some? && k.diff(p, c, n).None? ==>
      k.alike(w, c)
  }

  ghost predicate Reflexive<S, D>(k: Codec<S, D>, s: S) {
    k.alike(s, s)
  }

  /** What rebuilding takes: a history of one sample never sends a delta. */
  ghost predicate Rebuilds<S(!new), D>(k: Codec<S, D>, capacity: nat) {
    && (forall s :: Reflexive(k, s))
    && (capacity >= 2 ==> forall w, p, c, n :: RoundTrips(k, w, p, c, n))
  }

  /** What silence takes: only a history of three samples can return to a status. */
  ghost predicate Lawful<S(!new), D>(k: Codec<S, D>, capacity: nat) {
    && Rebuilds(k, capacity)
    && (capacity >= 3 ==> forall w, p, m, c, i, n :: Returns(k, w, p, m, c, i, n))
  }

  /** A published status and, unless it starts a new history, its delta from the sample before. */
  datatype Sample<S, D> = Sample(sequence: nat, encoded: S, delta: Option<D>)

  datatype Feed<S, D> = Feed(
    latest: Option<Sample<S, D>>,
    history: seq<Sample<S, D>>,
    sequence: nat,
    available: bool,
    capacity: nat)

  datatype Selection<S, D> = Selection(anchorRetained: bool, entries: seq<Sample<S, D>>)

  datatype Event<S, D> =
    | Snapshot(sequence: nat, status: S)
    | Replay(sequence: nat, from: nat, to: nat, start: S, deltas: seq<D>)
    | Delta(sequence: nat, delta: D)

  // ---- The server's side ----

  function Empty<S, D>(capacity: nat): Feed<S, D> {
    Feed(None, [], 0, false, capacity)
  }

  function Trimmed<T>(history: seq<T>, capacity: nat): seq<T> {
    if |history| > capacity then history[|history| - capacity..] else history
  }

  /** The feed after an observation; unchanged when the status compares equal to the newest one. */
  function Observed<S, D>(k: Codec<S, D>, f: Feed<S, D>, status: S, rebase: bool): Feed<S, D> {
    if f.latest.None? || rebase then
      var sample := Sample(f.sequence + 1, status, None);
      f.(latest := Some(sample), history := [sample], sequence := f.sequence + 1)
    else
      var delta := k.diff(f.latest.value.encoded, status, f.sequence + 1);
      if delta.None? then f
      else
        var sample := Sample(f.sequence + 1, status, delta);
        f.(latest := Some(sample), history := Trimmed(f.history + [sample], f.capacity), sequence := f.sequence + 1)
  }

  /** The position of the first sample numbered `anchor`, or the length when there is none. */
  function Find<S, D>(history: seq<Sample<S, D>>, anchor: nat): (r: nat)
    ensures r <= |history|
    ensures r < |history| ==> history[r].sequence == anchor
    ensures forall i :: 0 <= i < r ==> history[i].sequence != anchor
  {
    if history == [] || history[0].sequence == anchor then 0 else 1 + Find(history[1..], anchor)
  }

  function Selected<S, D>(f: Feed<S, D>, anchor: nat, includeReplay: bool): (r: Selection<S, D>)
    ensures r.entries == [] <==> f.history == []
    ensures r.entries != [] ==> r.entries[|r.entries| - 1] == f.history[|f.history| - 1]
  {
    if f.history == [] then Selection(false, [])
    else
      var found := Find(f.history, anchor);
      var retained := found < |f.history|;
      if includeReplay && anchor != 0 && retained then Selection(true, f.history[found..])
      else Selection(retained, [f.history[|f.history| - 1]])
  }

  // ---- The watcher ----

  /** `writing` is the event in flight with the sample it brings the client to. */
  datatype Watcher<S, D> = Watcher(
    after: nat,
    cursor: nat,
    previous: Option<Sample<S, D>>,
    writing: Option<(Event<S, D>, Sample<S, D>)>,
    wakeScheduled: bool,
    terminated: bool)

  /** A new watcher schedules its first wake at once. */
  function Attached<S, D>(after: nat): Watcher<S, D> {
    Watcher(after, 0, None, None, true, false)
  }

  function ReplayDeltas<S, D>(entries: seq<Sample<S, D>>): seq<D> {
    if |entries| <= 1 then []
    else
      var last := entries[|entries| - 1];
      ReplayDeltas(entries[..|entries| - 1]) + if last.delta.Some? then [last.delta.value] else []
  }

  function FirstEvent<S, D>(after: nat, selection: Selection<S, D>): Event<S, D>
    requires selection.entries != []
  {
    var latest := selection.entries[|selection.entries| - 1];
    if after != 0 && selection.anchorRetained then
      Replay(latest.sequence, after, latest.sequence, selection.entries[0].encoded, ReplayDeltas(selection.entries))
    else
      Snapshot(latest.sequence, latest.encoded)
  }

  function LaterEvent<S, D>(
      k: Codec<S, D>, previous: Sample<S, D>, cursor: nat, latest: Sample<S, D>, anchorRetained: bool)
    : Option<Event<S, D>>
  {
    if latest.sequence == cursor then None
    else if !anchorRetained then Some(Snapshot(latest.sequence, latest.encoded))
    else
      var delta := if previous.sequence + 1 == latest.sequence then latest.delta
                   else k.diff(previous.encoded, latest.encoded, latest.sequence);
      if delta.None? then None else Some(Delta(latest.sequence, delta.value))
  }

  function Woken<S, D>(k: Codec<S, D>, w: Watcher<S, D>, f: Feed<S, D>): Watcher<S, D> {
    if w.writing.Some? || w.terminated then w
    else if !f.available then w.(terminated := true)
    else
      var selection := Selected(f, if w.previous.Some? then w.cursor else w.after, w.previous.None?);
      if selection.entries == [] then w.(terminated := true)
      else
        var latest := selection.entries[|selection.entries| - 1];
        if w.previous.None? then w.(writing := Some((FirstEvent(w.after, selection), latest)))
        else
          var event := LaterEvent(k, w.previous.value, w.cursor, latest, selection.anchorRetained);
          if event.None? then w else w.(writing := Some((event.value, latest)))
  }

  /** `submitted` says whether the executor took the wake. */
  function Rescheduled<S, D>(w: Watcher<S, D>, submitted: bool): Watcher<S, D> {
    if w.terminated || w.wakeScheduled then w
    else if submitted then w.(wakeScheduled := true)
    else w.(terminated := true)
  }

  function WriteCompleted<S, D>(w: Watcher<S, D>, ok: bool, submitted: bool): Watcher<S, D>
    requires w.writing.Some?
  {
    var idle := w.(writing := None);
    if w.terminated then idle
    else if !ok then idle.(terminated := true)
    else
      var sample := w.writing.value.1;
      Rescheduled(idle.(previous := Some(sample), cursor := sample.sequence), submitted)
  }

  // ---- The client ----

  function PatchAll<S, D>(k: Codec<S, D>, status: S, deltas: seq<D>): S {
    if deltas == [] then status
    else k.patch(PatchAll(k, status, deltas[..|deltas| - 1]), deltas[|deltas| - 1])
  }

  function Receive<S, D>(k: Codec<S, D>, copy: Option<S>, event: Event<S, D>): Option<S> {
    match event
    case Snapshot(_, status) => Some(status)
    case Replay(_, _, _, start, deltas) => Some(PatchAll(k, start, deltas))
    case Delta(_, delta) => if copy.None? then None else Some(k.patch(copy.value, delta))
  }

  // ---- Whole runs ----

  /** `log` remembers every published status by its sequence number, `base` the number under which the history was last
      started anew, and `unpublished` counts changes whose wake is still to come. */
  datatype System<S, D> = System(
    feed: Feed<S, D>,
    log: map<nat, S>,
    base: nat,
    unpublished: nat,
    subscribed: bool,
    watcher: Watcher<S, D>,
    copy: Option<S>)

  datatype Step<S> =
    | Observe(status: S, rebase: bool)
    | MarkAvailable
    | MarkUnavailable
    | Publish(submitted: bool)
    | Subscribe(after: nat)
    | Wake
    | WriteDone(ok: bool, submitted: bool)
    | Cancel

  function Start<S, D>(capacity: nat): System<S, D> {
    System(Empty(capacity), map[], 0, 0, false, Attached(0), None)
  }

  /** Steps that are not enabled leave the system as it is. */
  function Next<S, D>(k: Codec<S, D>, y: System<S, D>, step: Step<S>): System<S, D> {
    match step
    case Observe(status, rebase) =>
      var feed := Observed(k, y.feed, status, rebase);
      if !k.wellFormed(status) || feed.sequence == y.feed.sequence then y
      else y.(feed := feed, log := y.log[feed.sequence := status], unpublished := y.unpublished + 1,
              base := if y.feed.latest.None? || rebase then feed.sequence else y.base)
    case MarkAvailable => y.(feed := y.feed.(available := true))
    case MarkUnavailable =>
      y.(feed := y.feed.(available := false), unpublished := y.unpublished + if y.feed.available then 1 else 0)
    case Publish(submitted) =>
      if y.unpublished == 0 then y
      else y.(unpublished := y.unpublished - 1,
              watcher := if y.subscribed then Rescheduled(y.watcher, submitted) else y.watcher)
    case Subscribe(after) =>
      if y.subscribed then y else y.(subscribed := true, watcher := Attached(after))
    case Wake =>
      if !y.subscribed || !y.watcher.wakeScheduled then y
      else y.(watcher := Woken(k, y.watcher.(wakeScheduled := false), y.feed))
    case WriteDone(ok, submitted) =>
      if y.watcher.writing.None? then y
      else y.(watcher := WriteCompleted(y.watcher, ok, submitted),
              copy := if ok then Receive(k, y.copy, y.watcher.writing.value.0) else y.copy)
    case Cancel =>
      if !y.subscribed then y else y.(watcher := y.watcher.(terminated := true))
  }

  function Run<S, D>(k: Codec<S, D>, y: System<S, D>, steps: seq<Step<S>>): System<S, D>
    decreases |steps|
  {
    if steps == [] then y else Run(k, Next(k, y, steps[0]), steps[1..])
  }

  // ---- Invariants ----

  ghost predicate Logged<S, D>(k: Codec<S, D>, log: map<nat, S>, sample: Sample<S, D>) {
    sample.sequence in log && log[sample.sequence] == sample.encoded && k.wellFormed(sample.encoded)
  }

  /** `b` directly follows `a` and carries the delta between them. */
  ghost predicate Follows<S, D>(k: Codec<S, D>, a: Sample<S, D>, b: Sample<S, D>) {
    && b.sequence == a.sequence + 1
    && b.delta.Some? && b.delta == k.diff(a.encoded, b.encoded, b.sequence)
  }

  ghost predicate Chained<S, D>(k: Codec<S, D>, history: seq<Sample<S, D>>) {
    forall i, j :: 0 <= i < |history| && j == i + 1 && j < |history| ==> Follows(k, history[i], history[j])
  }

  ghost predicate FeedValid<S, D>(k: Codec<S, D>, f: Feed<S, D>, log: map<nat, S>) {
    && 1 <= f.capacity
    && |f.history| <= f.capacity
    && (f.latest.None? <==> f.history == [])
    && (f.latest.Some? ==> f.history[|f.history| - 1] == f.latest.value && f.latest.value.sequence == f.sequence)
    && Chained(k, f.history)
    && (forall i :: 0 <= i < |f.history| ==> Logged(k, log, f.history[i]))
    && (forall n :: n in log ==> n <= f.sequence)
  }

  ghost predicate ClientValid<S, D>(k: Codec<S, D>, y: System<S, D>) {
    var w := y.watcher;
    && (w.previous.Some? ==> w.cursor == w.previous.value.sequence && Logged(k, y.log, w.previous.value))
    && (w.previous.Some? && !w.terminated ==> y.copy.Some? && k.alike(y.copy.value, w.previous.value.encoded))
    && (w.writing.Some? ==>
          var (event, sample) := w.writing.value;
          && Logged(k, y.log, sample) && event.sequence == sample.sequence
          && var r := Receive(k, y.copy, event); r.Some? && k.alike(r.value, sample.encoded))
  }

  /** Unless a wake is due or an event is in flight, the client already holds the newest status. */
  ghost predicate NothingLost<S, D>(k: Codec<S, D>, y: System<S, D>) {
    && y.subscribed && !y.watcher.terminated && !y.watcher.wakeScheduled && y.unpublished == 0
    && y.watcher.writing.None? ==>
      y.feed.latest.Some? && y.copy.Some? && k.alike(y.copy.value, y.feed.latest.value.encoded)
  }

  ghost predicate Traced<S, D>(k: Codec<S, D>, y: System<S, D>) {
    && FeedValid(k, y.feed, y.log)
    && ClientValid(k, y)
    && (!y.subscribed ==> y.watcher == Attached(0))
  }

  lemma {:induction false} ChainedNumbers<S, D>(k: Codec<S, D>, history: seq<Sample<S, D>>, i: nat, j: nat)
    requires Chained(k, history) && i <= j < |history|
    ensures history[j].sequence == history[i].sequence + (j - i)
    decreases j
  {
    if i < j {
      ChainedNumbers(k, history, i, j - 1);
      assert Follows(k, history[j - 1], history[j]);
    }
  }

  lemma ChainedTrimmed<S, D>(k: Codec<S, D>, history: seq<Sample<S, D>>, from: nat)
    requires Chained(k, history) && from <= |history|
    ensures Chained(k, history[from..])
  {
    var rest := history[from..];
    forall i, j | 0 <= i < |rest| && j == i + 1 && j < |rest| ensures Follows(k, rest[i], rest[j]) {
      assert rest[i] == history[from + i] && rest[j] == history[from + i + 1];
    }
  }

  lemma ChainedOne<S, D>(k: Codec<S, D>, sample: Sample<S, D>)
    ensures Chained(k, [sample])
  {
  }

  lemma ChainedAppend<S, D>(k: Codec<S, D>, history: seq<Sample<S, D>>, sample: Sample<S, D>)
    requires Chained(k, history) && (history != [] ==> Follows(k, history[|history| - 1], sample))
    ensures Chained(k, history + [sample])
  {
  }

  lemma ObservedValid<S, D>(k: Codec<S, D>, f: Feed<S, D>, log: map<nat, S>, status: S, rebase: bool)
    requires FeedValid(k, f, log) && k.wellFormed(status)
    ensures var after := Observed(k, f, status, rebase);
            after.sequence != f.sequence ==>
              after.sequence == f.sequence + 1 && FeedValid(k, after, log[after.sequence := status])
  {
    hide Chained, Follows;
    var after := Observed(k, f, status, rebase);
    if after.sequence != f.sequence && f.latest.Some? && !rebase {
      NewestFollows(k, f, status);
      GrownValid(k, f, log, after.latest.value);
    } else if after.sequence != f.sequence {
      ChainedOne(k, after.latest.value);
    }
  }

  /** A sample that follows the newest one, with the oldest dropped beyond the capacity. */
  lemma GrownValid<S, D>(k: Codec<S, D>, f: Feed<S, D>, log: map<nat, S>, sample: Sample<S, D>)
    requires FeedValid(k, f, log) && f.latest.Some?
    requires Follows(k, f.latest.value, sample) && k.wellFormed(sample.encoded)
    ensures FeedValid(
              k,
              f.(latest := Some(sample), history := Trimmed(f.history + [sample], f.capacity),
                 sequence := sample.sequence),
              log[sample.sequence := sample.encoded])
  {
    hide Chained, Follows, Logged;
    FollowsNumbers(k, f.latest.value, sample);
    var grown, history := f.history + [sample], Trimmed(f.history + [sample], f.capacity);
    var from := |grown| - |history|;
    assert history == grown[from..];
    ChainedAppend(k, f.history, sample);
    ChainedTrimmed(k, grown, from);
    forall i | 0 <= i < |history| ensures Logged(k, log[sample.sequence := sample.encoded], history[i]) {
      assert history[i] == grown[from + i];
      if from + i < |f.history| {
        LoggedStays(k, log, f.history[from + i], sample);
      } else {
        LoggedNow(k, log, sample);
      }
    }
  }

  lemma LoggedStays<S, D>(k: Codec<S, D>, log: map<nat, S>, earlier: Sample<S, D>, sample: Sample<S, D>)
    requires Logged(k, log, earlier) && sample.sequence !in log
    ensures Logged(k, log[sample.sequence := sample.encoded], earlier)
  {
  }

  lemma LoggedNow<S, D>(k: Codec<S, D>, log: map<nat, S>, sample: Sample<S, D>)
    requires k.wellFormed(sample.encoded)
    ensures Logged(k, log[sample.sequence := sample.encoded], sample)
  {
  }

  lemma NewestFollows<S, D>(k: Codec<S, D>, f: Feed<S, D>, status: S)
    requires f.latest.Some? && f.latest.value.sequence == f.sequence
    ensures var after := Observed(k, f, status, false);
            after.sequence != f.sequence ==> Follows(k, f.latest.value, after.latest.value)
  {
  }

  lemma FollowsNumbers<S, D>(k: Codec<S, D>, a: Sample<S, D>, b: Sample<S, D>)
    requires Follows(k, a, b)
    ensures b.sequence == a.sequence + 1
  {
  }

  /** Replaying a chain from its first status arrives at its last. */
  lemma {:induction false} ReplayArrives<S(!new), D>(k: Codec<S, D>, capacity: nat, entries: seq<Sample<S, D>>)
    requires Rebuilds(k, capacity) && 1 <= |entries| <= capacity && Chained(k, entries)
    requires forall i :: 0 <= i < |entries| ==> k.wellFormed(entries[i].encoded)
    ensures k.alike(PatchAll(k, entries[0].encoded, ReplayDeltas(entries)), entries[|entries| - 1].encoded)
  {
    var n := |entries|;
    if n == 1 {
      assert Reflexive(k, entries[0].encoded);
    } else {
      var before := entries[..n - 1];
      ReplayArrives(k, capacity, before);
      assert Follows(k, entries[n - 2], entries[n - 1]);
      var delta := entries[n - 1].delta;
      assert ReplayDeltas(entries) == ReplayDeltas(before) + [delta.value];
      assert (ReplayDeltas(before) + [delta.value])[..|ReplayDeltas(before)|] == ReplayDeltas(before);
      var copy := PatchAll(k, entries[0].encoded, ReplayDeltas(before));
      assert RoundTrips(k, copy, entries[n - 2].encoded, entries[n - 1].encoded, entries[n - 1].sequence);
    }
  }

  lemma FirstEventArrives<S(!new), D>(k: Codec<S, D>, f: Feed<S, D>, log: map<nat, S>, after: nat, copy: Option<S>)
    requires Rebuilds(k, f.capacity) && FeedValid(k, f, log) && f.history != []
    ensures var event := FirstEvent(after, Selected(f, after, true));
            var r := Receive(k, copy, event);
            && event.sequence == f.latest.value.sequence
            && r.Some? && k.alike(r.value, f.latest.value.encoded)
  {
    assert Reflexive(k, f.latest.value.encoded);
    var found := Find(f.history, after);
    if after != 0 && found < |f.history| {
      ChainedTrimmed(k, f.history, found);
      ReplayArrives(k, f.capacity, f.history[found..]);
    }
  }

  /** A retained anchor is the previous sample, followed by as many samples as its number is behind. */
  lemma Anchored<S, D>(k: Codec<S, D>, f: Feed<S, D>, log: map<nat, S>, previous: Sample<S, D>)
    requires FeedValid(k, f, log) && Logged(k, log, previous)
    requires Find(f.history, previous.sequence) < |f.history|
    ensures var found := Find(f.history, previous.sequence);
            && f.history[found].encoded == previous.encoded
            && f.sequence == previous.sequence + (|f.history| - 1 - found)
            && (previous.sequence < f.sequence ==> Follows(k, f.history[found], f.history[found + 1]))
  {
    var found, last := Find(f.history, previous.sequence), |f.history| - 1;
    ChainedNumbers(k, f.history, found, last);
    assert Logged(k, log, f.history[found]);
    if found < last {
      assert Follows(k, f.history[found], f.history[found + 1]);
    }
  }

  lemma LaterEventArrives<S(!new), D>(k: Codec<S, D>, f: Feed<S, D>, log: map<nat, S>, previous: Sample<S, D>, copy: S)
    requires Rebuilds(k, f.capacity) && FeedValid(k, f, log) && f.history != []
    requires Logged(k, log, previous) && k.alike(copy, previous.encoded)
    ensures var latest := f.latest.value;
            var retained := Find(f.history, previous.sequence) < |f.history|;
            var event := LaterEvent(k, previous, previous.sequence, latest, retained);
            event.Some? ==>
              var r := Receive(k, Some(copy), event.value);
              event.value.sequence == latest.sequence && r.Some? && k.alike(r.value, latest.encoded)
  {
    var latest := f.latest.value;
    assert Logged(k, log, f.history[|f.history| - 1]);
    assert Reflexive(k, latest.encoded);
    if Find(f.history, previous.sequence) < |f.history| && previous.sequence != latest.sequence {
      Anchored(k, f, log, previous);
      assert RoundTrips(k, copy, previous.encoded, latest.encoded, latest.sequence);
    }
  }

  /** When there is nothing to send, the client's status is like the newest. */
  lemma SilenceArrives<S(!new), D>(k: Codec<S, D>, f: Feed<S, D>, log: map<nat, S>, previous: Sample<S, D>, copy: S)
    requires Lawful(k, f.capacity) && FeedValid(k, f, log) && f.history != []
    requires Logged(k, log, previous) && k.alike(copy, previous.encoded)
    requires var retained := Find(f.history, previous.sequence) < |f.history|;
             LaterEvent(k, previous, previous.sequence, f.latest.value, retained).None?
    ensures k.alike(copy, f.latest.value.encoded)
  {
    var latest, found := f.latest.value, Find(f.history, previous.sequence);
    assert Logged(k, log, f.history[|f.history| - 1]);
    if latest.sequence != previous.sequence {
      Anchored(k, f, log, previous);
      var m := f.history[found + 1];
      assert Logged(k, log, m);
      assert Returns(k, copy, previous.encoded, m.encoded, latest.encoded, m.sequence, latest.sequence);
    }
  }

  lemma WakeTraced<S(!new), D>(k: Codec<S, D>, y: System<S, D>)
    requires Rebuilds(k, y.feed.capacity) && Traced(k, y)
    ensures Traced(k, Next(k, y, Wake))
  {
    var w, f := y.watcher, y.feed;
    if y.subscribed && w.wakeScheduled && w.writing.None? && !w.terminated && f.available && f.history != [] {
      assert Logged(k, y.log, f.history[|f.history| - 1]);
      if w.previous.None? {
        FirstEventArrives(k, f, y.log, w.after, y.copy);
      } else {
        LaterEventArrives(k, f, y.log, w.previous.value, y.copy.value);
      }
    }
  }

  lemma WriteTraced<S, D>(k: Codec<S, D>, y: System<S, D>, ok: bool, submitted: bool)
    requires Traced(k, y)
    ensures Traced(k, Next(k, y, WriteDone(ok, submitted)))
  {
    hide FeedValid, Receive;
  }

  lemma ObserveTraced<S, D>(k: Codec<S, D>, y: System<S, D>, status: S, rebase: bool)
    requires Traced(k, y)
    ensures Traced(k, Next(k, y, Observe(status, rebase)))
  {
    if k.wellFormed(status) {
      ObservedValid(k, y.feed, y.log, status, rebase);
    }
  }

  /** Every step keeps the client's status tied to the sample it was sent. */
  lemma NextTraced<S(!new), D>(k: Codec<S, D>, y: System<S, D>, step: Step<S>)
    requires Rebuilds(k, y.feed.capacity) && Traced(k, y)
    ensures Traced(k, Next(k, y, step)) && Next(k, y, step).feed.capacity == y.feed.capacity
  {
    match step
    case Observe(status, rebase) => ObserveTraced(k, y, status, rebase);
    case Wake => WakeTraced(k, y);
    case WriteDone(ok, submitted) => WriteTraced(k, y, ok, submitted);
    case _ =>
  }

  /** And every step leaves a wake due, an event in flight, or the client at the newest status. */
  lemma NextKeeps<S(!new), D>(k: Codec<S, D>, y: System<S, D>, step: Step<S>)
    requires Lawful(k, y.feed.capacity) && Traced(k, y) && NothingLost(k, y)
    ensures NothingLost(k, Next(k, y, step))
  {
    var w, f := y.watcher, y.feed;
    if step.Wake? && y.subscribed && w.wakeScheduled && Woken(k, w.(wakeScheduled := false), f).writing.None?
      && !Woken(k, w.(wakeScheduled := false), f).terminated
    {
      SilenceArrives(k, f, y.log, w.previous.value, y.copy.value);
    }
  }

  lemma {:induction false} RunTraced<S(!new), D>(k: Codec<S, D>, y: System<S, D>, steps: seq<Step<S>>)
    requires Rebuilds(k, y.feed.capacity) && Traced(k, y)
    ensures Traced(k, Run(k, y, steps)) && Run(k, y, steps).feed.capacity == y.feed.capacity
    decreases |steps|
  {
    if steps != [] {
      NextTraced(k, y, steps[0]);
      hide Traced, Rebuilds, Next;
      RunTraced(k, Next(k, y, steps[0]), steps[1..]);
    }
  }

  lemma {:induction false} RunKeeps<S(!new), D>(k: Codec<S, D>, y: System<S, D>, steps: seq<Step<S>>)
    requires Lawful(k, y.feed.capacity) && Traced(k, y) && NothingLost(k, y)
    ensures NothingLost(k, Run(k, y, steps))
    decreases |steps|
  {
    if steps != [] {
      NextTraced(k, y, steps[0]);
      NextKeeps(k, y, steps[0]);
      hide Traced, Rebuilds, Next, NothingLost;
      RunKeeps(k, Next(k, y, steps[0]), steps[1..]);
    }
  }

  /** In every run, through replay, skipped samples, eviction and rebase, the status a client rebuilds from an
      event is the one published under that event's sequence number. */
  lemma EveryEventRebuilds<S(!new), D>(k: Codec<S, D>, capacity: nat, steps: seq<Step<S>>, submitted: bool)
    requires Rebuilds(k, capacity) && 1 <= capacity
    ensures var y := Run(k, Start(capacity), steps);
            y.watcher.writing.Some? ==>
              var sequence := y.watcher.writing.value.0.sequence;
              var copy := Next(k, y, WriteDone(true, submitted)).copy;
              sequence in y.log && copy.Some? && k.alike(copy.value, y.log[sequence])
  {
    RunTraced(k, Start(capacity), steps);
  }

  /** A wake that neither writes nor ends the stream finds the client already at the newest status. */
  lemma SilentWakeIsCurrent<S(!new), D>(k: Codec<S, D>, capacity: nat, steps: seq<Step<S>>)
    requires Lawful(k, capacity) && 1 <= capacity
    ensures var y := Run(k, Start(capacity), steps);
            var w := Woken(k, y.watcher, y.feed);
            y.subscribed && y.watcher.writing.None? && w.writing.None? && !w.terminated ==>
              y.feed.latest.Some? && y.copy.Some? && k.alike(y.copy.value, y.feed.latest.value.encoded)
  {
    var y := Run(k, Start(capacity), steps);
    RunTraced(k, Start(capacity), steps);
    var w := Woken(k, y.watcher, y.feed);
    if y.subscribed && y.watcher.writing.None? && w.writing.None? && !w.terminated {
      SilenceArrives(k, y.feed, y.log, y.watcher.previous.value, y.copy.value);
    }
  }

  /** The stream is alive, nothing is in flight and no wake is due. */
  predicate Quiet<S, D>(y: System<S, D>) {
    && y.subscribed && !y.watcher.terminated && y.watcher.writing.None?
    && !y.watcher.wakeScheduled && y.unpublished == 0
  }

  /** Convergence: when the stream is quiet, the client holds the newest status. */
  lemma QuietMeansCurrent<S(!new), D>(k: Codec<S, D>, capacity: nat, steps: seq<Step<S>>)
    requires Lawful(k, capacity) && 1 <= capacity
    ensures var y := Run(k, Start(capacity), steps);
            Quiet(y) ==> y.feed.latest.Some? && y.copy.Some? && k.alike(y.copy.value, y.feed.latest.value.encoded)
  {
    RunKeeps(k, Start(capacity), steps);
  }
}
