/** The objects behind the status stream, and the stream's guarantees for the machine status codec. */
module StatusService {
  import opened Options
  import opened StatusCodec
  import opened StatusStream

  /** The published statuses of one machine. */
  class StatusFeed<S, D> {
    const codec: Codec<S, D>
    const capacity: nat
    var latest: Option<Sample<S, D>>
    var history: seq<Sample<S, D>>
    var sequence: nat
    var available: bool

    ghost function View(): Feed<S, D>
      reads this
    {
      Feed(latest, history, sequence, available, capacity)
    }

    constructor (codec: Codec<S, D>, capacity: nat)
      ensures this.codec == codec && View() == Empty(capacity)
    {
      this.codec, this.capacity := codec, capacity;
      latest, history, sequence, available := None, [], 0, false;
    }

    method ObserveStatus(status: S, forceRebase: bool) returns (published: nat)
      requires latest.None? ==> sequence == 0 && history == []
      modifies this
      ensures View() == Observed(codec, old(View()), status, forceRebase)
      ensures published == if sequence == old(sequence) then 0 else sequence
    {
      published := 0;
      if latest.None? {
        sequence := 1;
        latest := Some(Sample(sequence, status, None));
        history := history + [latest.value];
        published := sequence;
      } else if forceRebase {
        sequence := sequence + 1;
        latest := Some(Sample(sequence, status, None));
        history := [latest.value];
        published := sequence;
      } else {
        var delta := codec.diff(latest.value.encoded, status, sequence + 1);
        if delta.None? {
          return;
        }
        sequence := sequence + 1;
        latest := Some(Sample(sequence, status, delta));
        history := history + [latest.value];
        ghost var grown := history;
        ghost var dropped := 0;
        while |history| > capacity
          invariant dropped <= |grown| && history == grown[dropped..]
          invariant dropped == 0 || capacity <= |history|
          invariant latest == Some(Sample(sequence, status, delta)) && sequence == old(sequence) + 1
          invariant available == old(available)
          decreases |history|
        {
          history := history[1..];
          dropped := dropped + 1;
        }
        published := sequence;
      }
    }

    method SelectHistory(anchor: nat, includeReplay: bool) returns (selection: Selection<S, D>)
      ensures selection == Selected(View(), anchor, includeReplay)
    {
      hide Find;
      if history == [] {
        return Selection(false, []);
      }
      var found := 0;
      while found < |history| && history[found].sequence != anchor
        invariant found <= |history|
        invariant forall i :: 0 <= i < found ==> history[i].sequence != anchor
      {
        found := found + 1;
      }
      assert Find(history, anchor) == found;
      var retained := found < |history|;
      if includeReplay && anchor != 0 && retained {
        return Selection(true, history[found..]);
      }
      return Selection(retained, [history[|history| - 1]]);
    }
  }

  /** One watcher's stream. */
  class StatusReactor<S, D> {
    const feed: StatusFeed<S, D>
    const after: nat
    var cursor: nat
    var previous: Option<Sample<S, D>>
    var writing: Option<(Event<S, D>, Sample<S, D>)>
    var wakeScheduled: bool
    var terminated: bool

    ghost function View(): Watcher<S, D>
      reads this
    {
      Watcher(after, cursor, previous, writing, wakeScheduled, terminated)
    }

    constructor (feed: StatusFeed<S, D>, after: nat)
      ensures this.feed == feed && View() == Attached(after)
    {
      this.feed, this.after := feed, after;
      cursor, previous, writing, wakeScheduled, terminated := 0, None, None, true, false;
    }

    method Wake()
      modifies this
      ensures View() == Woken(feed.codec, old(View()), feed.View())
    {
      hide Selected, Find, ReplayDeltas;
      if writing.Some? || terminated {
        return;
      }
      if !feed.available {
        terminated := true;
        return;
      }
      var initialWritten := previous.Some?;
      var selection := feed.SelectHistory(if initialWritten then cursor else after, !initialWritten);
      if selection.entries == [] {
        terminated := true;
        return;
      }
      var latest := selection.entries[|selection.entries| - 1];
      if !initialWritten {
        if after != 0 && selection.anchorRetained {
          var deltas := CollectDeltas(selection.entries);
          var event := Replay(latest.sequence, after, latest.sequence, selection.entries[0].encoded, deltas);
          writing := Some((event, latest));
        } else {
          writing := Some((Snapshot(latest.sequence, latest.encoded), latest));
        }
        return;
      }
      if latest.sequence == cursor {
        return;
      }
      if !selection.anchorRetained {
        writing := Some((Snapshot(latest.sequence, latest.encoded), latest));
      } else {
        var delta := if previous.value.sequence + 1 == latest.sequence then latest.delta
                     else feed.codec.diff(previous.value.encoded, latest.encoded, latest.sequence);
        if delta.None? {
          return;
        }
        writing := Some((Delta(latest.sequence, delta.value), latest));
      }
    }

    method CollectDeltas(entries: seq<Sample<S, D>>) returns (deltas: seq<D>)
      requires entries != []
      ensures deltas == ReplayDeltas(entries)
    {
      deltas := [];
      for index := 1 to |entries|
        invariant deltas == ReplayDeltas(entries[..index])
      {
        if entries[index].delta.Some? {
          deltas := deltas + [entries[index].delta.value];
        }
        assert entries[..index + 1][..index] == entries[..index];
      }
      assert entries[..|entries|] == entries;
    }

    method ScheduleWake(submitted: bool)
      modifies this
      ensures View() == Rescheduled(old(View()), submitted)
    {
      if terminated || wakeScheduled {
        return;
      }
      if submitted {
        wakeScheduled := true;
      } else {
        terminated := true;
      }
    }

    method WriteDone(ok: bool, submitted: bool)
      requires writing.Some?
      modifies this
      ensures View() == WriteCompleted(old(View()), ok, submitted)
    {
      var sample := writing.value.1;
      writing := None;
      if terminated {
        return;
      }
      if !ok {
        terminated := true;
        return;
      }
      previous := Some(sample);
      cursor := sample.sequence;
      ScheduleWake(submitted);
    }
  }

  // ---- The machine status ----

  function MachineCodec<V(==)>(eq: Comparison<V>): Codec<StatusRecord<V>, StatusDelta<V>> {
    Codec(
      (s: StatusRecord<V>) => WellFormed(s),
      (a: StatusRecord<V>, b: StatusRecord<V>) => StatusAlike(eq, a, b),
      (p: StatusRecord<V>, c: StatusRecord<V>, n: nat) =>
        if WellFormed(p) && WellFormed(c) then StatusDiff(eq, p, c, n) else None,
      (w: StatusRecord<V>, d: StatusDelta<V>) => if Fits(w, d) then Patched(w, d) else w)
  }

  lemma MachineCodecLawful<V(!new)>(eq: Comparison<V>, capacity: nat)
    requires Transitive(eq)
    ensures Lawful(MachineCodec(eq), capacity)
  {
    var k := MachineCodec(eq);
    forall w, p, c, n ensures RoundTrips(k, w, p, c, n) {
      if k.wellFormed(p) && k.wellFormed(c) && k.alike(w, p) {
        StatusRoundTrip(eq, w, p, c, n);
      }
    }
    forall w, p, m, c, i, n ensures Returns(k, w, p, m, c, i, n) {
      if k.wellFormed(p) && k.wellFormed(c) && k.alike(w, p) {
        StatusRoundTrip(eq, w, p, c, n);
      }
    }
  }

  lemma AlikeIsIdentity<V(!new)>(eq: Comparison<V>, a: StatusRecord<V>, b: StatusRecord<V>)
    requires Identity(eq) && StatusAlike(eq, a, b)
    ensures a == b
  {
    ArrayIdentity(eq, a.toolTable, b.toolTable);
    TaskIdentity(eq, a.task, b.task);
    MotionIdentity(eq, a.motion, b.motion);
  }

  /** For any transitive comparison of units a watcher's rebuilt machine status differs from the published one at
      most in units the comparison cannot tell apart, and not at all if the comparison is exact; and so does the one it
      holds when a wake is silent or the stream is quiet. */
  lemma MachineStatusRebuilt<V(!new)>(
      eq: Comparison<V>, capacity: nat, steps: seq<Step<StatusRecord<V>>>, submitted: bool)
    requires Transitive(eq) && 1 <= capacity
    ensures var k := MachineCodec(eq);
            var y := Run(k, Start(capacity), steps);
            y.watcher.writing.Some? ==>
              var sequence := y.watcher.writing.value.0.sequence;
              var copy := Next(k, y, WriteDone(true, submitted)).copy;
              && sequence in y.log && copy.Some?
              && StatusAlike(eq, copy.value, y.log[sequence])
              && (Identity(eq) ==> copy.value == y.log[sequence])
    ensures var k := MachineCodec(eq);
            var y := Run(k, Start(capacity), steps);
            var w := Woken(k, y.watcher, y.feed);
            y.subscribed && y.watcher.writing.None? && w.writing.None? && !w.terminated ==>
              y.feed.latest.Some? && y.copy.Some? && StatusAlike(eq, y.copy.value, y.feed.latest.value.encoded)
    ensures var y := Run(MachineCodec(eq), Start(capacity), steps);
            Quiet(y) ==>
              y.feed.latest.Some? && y.copy.Some? && StatusAlike(eq, y.copy.value, y.feed.latest.value.encoded)
  {
    var k := MachineCodec(eq);
    MachineCodecLawful(eq, capacity);
    EveryEventRebuilds(k, capacity, steps, submitted);
    SilentWakeIsCurrent(k, capacity, steps);
    QuietMeansCurrent(k, capacity, steps);
    var y := Run(k, Start(capacity), steps);
    hide Run, Next, Woken, Lawful, StatusAlike, StatusDiff, Patched;
    if y.watcher.writing.Some? && Identity(eq) {
      var copy := Next(k, y, WriteDone(true, submitted)).copy;
      AlikeIsIdentity(eq, copy.value, y.log[y.watcher.writing.value.0.sequence]);
    }
  }
}
