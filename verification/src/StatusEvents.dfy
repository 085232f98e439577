/**
Which statuses are published, which are retained, and what each event says about them.

Everything is told in terms of the published statuses and their numbers.
*/
module StatusEvents {
  import opened Options
  import opened StatusCodec
  import opened StatusService
  import opened StatusStream

  /** The sample numbered `n` is one of the last `capacity` since the history was last started anew. */
  predicate Retained<S, D>(y: System<S, D>, n: nat) {
    1 <= y.base <= n <= y.feed.sequence && y.feed.sequence - n < y.feed.capacity
  }

  function Kept<S, D>(y: System<S, D>): int {
    var count := y.feed.sequence - y.base + 1;
    if count < y.feed.capacity then count else y.feed.capacity
  }

  /** The numbers are used without a gap, and the history has exactly what is retained. */
  ghost predicate Based<S, D>(y: System<S, D>) {
    && (y.feed.history == [] <==> y.feed.sequence == 0)
    && (forall n :: 1 <= n <= y.feed.sequence ==> n in y.log)
    && (y.feed.sequence > 0 ==> 1 <= y.base <= y.feed.sequence && |y.feed.history| == Kept(y))
  }

  lemma NextBased<S, D>(k: Codec<S, D>, y: System<S, D>, step: Step<S>)
    requires FeedValid(k, y.feed, y.log) && Based(y)
    ensures Based(Next(k, y, step))
  {
    hide Chained, Logged;
  }

  lemma {:induction false} RunBased<S(!new), D>(k: Codec<S, D>, y: System<S, D>, steps: seq<Step<S>>)
    requires Rebuilds(k, y.feed.capacity) && Traced(k, y) && Based(y)
    ensures Based(Run(k, y, steps))
    decreases |steps|
  {
    if steps != [] {
      NextTraced(k, y, steps[0]);
      NextBased(k, y, steps[0]);
      hide Based, Next, Rebuilds, ClientValid, FeedValid;
      RunBased(k, Next(k, y, steps[0]), steps[1..]);
    }
  }

  /** The sample at a position of the history is the status published under its number, with its delta from the one
      before. */
  lemma HistoryAt<S, D>(k: Codec<S, D>, y: System<S, D>, i: nat)
    requires FeedValid(k, y.feed, y.log) && i < |y.feed.history|
    ensures var n := y.feed.sequence - (|y.feed.history| - 1 - i);
            && y.feed.history[i].sequence == n && n in y.log && y.feed.history[i].encoded == y.log[n]
            && (i > 0 ==> n - 1 in y.log && y.feed.history[i].delta.Some?
                          && y.feed.history[i].delta == k.diff(y.log[n - 1], y.log[n], n))
  {
    var h := y.feed.history;
    ChainedNumbers(k, h, i, |h| - 1);
    assert Logged(k, y.log, h[i]);
    if i > 0 {
      assert Follows(k, h[i - 1], h[i]) && Logged(k, y.log, h[i - 1]);
    }
  }

  /** A number is found in the history exactly if it is retained, and then where its distance from the newest says. */
  lemma FoundIffRetained<S, D>(k: Codec<S, D>, y: System<S, D>, n: nat)
    requires FeedValid(k, y.feed, y.log) && Based(y) && y.feed.history != []
    ensures var found := Find(y.feed.history, n);
            && (found < |y.feed.history| <==> Retained(y, n))
            && (Retained(y, n) ==> found == |y.feed.history| - 1 - (y.feed.sequence - n))
  {
    var h := y.feed.history;
    var found := Find(h, n);
    hide FeedValid, Find;
    if found < |h| {
      HistoryAt(k, y, found);
    } else if Retained(y, n) {
      HistoryAt(k, y, |h| - 1 - (y.feed.sequence - n));
    }
  }

  // ---- Replays ----

  /** The deltas are those between the statuses published one after the other, each under its own number. */
  ghost predicate Steps<S, D>(k: Codec<S, D>, log: map<nat, S>, from: int, deltas: seq<D>) {
    forall i :: 0 <= i < |deltas| ==> IsStep(k, log, from + i, deltas[i])
  }

  ghost predicate IsStep<S, D>(k: Codec<S, D>, log: map<nat, S>, n: int, delta: D) {
    0 <= n && n in log && n + 1 in log && k.diff(log[n], log[n + 1], n + 1) == Some(delta)
  }

  lemma {:induction false} ReplaySteps<S, D>(k: Codec<S, D>, y: System<S, D>, found: nat, count: nat)
    requires FeedValid(k, y.feed, y.log) && found < |y.feed.history| && 1 <= count <= |y.feed.history| - found
    ensures var deltas := ReplayDeltas(y.feed.history[found..found + count]);
            |deltas| == count - 1 && Steps(k, y.log, y.feed.sequence - (|y.feed.history| - 1 - found), deltas)
    decreases count
  {
    var h := y.feed.history;
    if count > 1 {
      ReplaySteps(k, y, found, count - 1);
      HistoryAt(k, y, found + count - 1);
      hide FeedValid;
      var entries := h[found..found + count];
      assert entries[..count - 1] == h[found..found + count - 1];
      assert entries[count - 1] == h[found + count - 1];
    }
  }

  // ---- Events ----

  /** What an event sent now must say: a replay from the position the client named, if that is retained, the delta from
      the status it has, if that is retained, and otherwise the newest status itself. */
  ghost predicate Says<S, D>(k: Codec<S, D>, y: System<S, D>, event: Event<S, D>) {
    var w, newest := y.watcher, y.feed.sequence;
    newest in y.log &&
    if w.previous.None? then
      if w.after != 0 && Retained(y, w.after) then
        && event.Replay? && event.sequence == newest && event.from == w.after && event.to == newest
        && w.after in y.log && event.start == y.log[w.after]
        && |event.deltas| == newest - w.after && Steps(k, y.log, w.after, event.deltas)
      else event == Snapshot(newest, y.log[newest])
    else if Retained(y, w.cursor) then
      && w.cursor != newest && event.Delta? && event.sequence == newest
      && w.cursor in y.log && k.diff(y.log[w.cursor], y.log[newest], newest) == Some(event.delta)
    else event == Snapshot(newest, y.log[newest])
  }

  /** There is nothing to say to a client that has the newest status, or one without a delta to it. */
  ghost predicate NothingToSay<S, D>(k: Codec<S, D>, y: System<S, D>) {
    var w, newest := y.watcher, y.feed.sequence;
    && w.previous.Some? && w.cursor in y.log && newest in y.log
    && (w.cursor == newest || (Retained(y, w.cursor) && k.diff(y.log[w.cursor], y.log[newest], newest).None?))
  }

  lemma FirstSays<S, D>(k: Codec<S, D>, y: System<S, D>)
    requires FeedValid(k, y.feed, y.log) && Based(y) && y.feed.history != [] && y.watcher.previous.None?
    ensures Says(k, y, FirstEvent(y.watcher.after, Selected(y.feed, y.watcher.after, true)))
  {
    var h, after := y.feed.history, y.watcher.after;
    FoundIffRetained(k, y, after);
    HistoryAt(k, y, |h| - 1);
    var found := Find(h, after);
    hide FeedValid, Find;
    if after != 0 && found < |h| {
      HistoryAt(k, y, found);
      ReplaySteps(k, y, found, |h| - found);
      assert h[found..|h|] == h[found..];
    }
    hide ReplayDeltas, Based;
  }

  lemma LaterSays<S, D>(k: Codec<S, D>, y: System<S, D>)
    requires FeedValid(k, y.feed, y.log) && Based(y) && y.feed.history != []
    requires var w := y.watcher; w.previous.Some? && w.cursor == w.previous.value.sequence
                                 && Logged(k, y.log, w.previous.value)
    ensures var w := y.watcher;
            var retained := Find(y.feed.history, w.cursor) < |y.feed.history|;
            var event := LaterEvent(k, w.previous.value, w.cursor, y.feed.latest.value, retained);
            if event.Some? then Says(k, y, event.value) && !NothingToSay(k, y) else NothingToSay(k, y)
  {
    var h, w := y.feed.history, y.watcher;
    FoundIffRetained(k, y, w.cursor);
    HistoryAt(k, y, |h| - 1);
    assert w.cursor <= y.feed.sequence;
    hide FeedValid, Find;
    if Retained(y, w.cursor) && w.cursor + 1 == y.feed.sequence {
      assert |h| >= 2;
    }
    hide Based;
  }

  // ---- Results ----

  lemma RunSaid<S(!new), D>(k: Codec<S, D>, capacity: nat, steps: seq<Step<S>>)
    requires Rebuilds(k, capacity) && 1 <= capacity
    ensures var y := Run(k, Start(capacity), steps); Traced(k, y) && Based(y)
  {
    RunTraced(k, Start(capacity), steps);
    RunBased(k, Start(capacity), steps);
  }

  /** A wake that has come may act. */
  predicate Wakes<S, D>(y: System<S, D>) {
    y.subscribed && y.watcher.wakeScheduled && y.watcher.writing.None? && !y.watcher.terminated
  }

  /** Over every run, a wake ends the stream if the feed is unavailable or nothing was published, is silent exactly if
      there is nothing to say, and otherwise sends an event that says what is due. */
  lemma WakeSaysWhatIsDue<S(!new), D>(k: Codec<S, D>, capacity: nat, steps: seq<Step<S>>)
    requires Rebuilds(k, capacity) && 1 <= capacity
    ensures var y := Run(k, Start(capacity), steps);
            var v := Next(k, y, Wake).watcher;
            Wakes(y) ==>
              && !v.wakeScheduled && v.previous == y.watcher.previous && v.cursor == y.watcher.cursor
              && v.after == y.watcher.after
              && (v.terminated <==> !y.feed.available || y.feed.sequence == 0)
              && (v.writing.Some? <==> !v.terminated && !NothingToSay(k, y))
              && (v.writing.Some? ==> Says(k, y, v.writing.value.0))
  {
    RunSaid(k, capacity, steps);
    var y := Run(k, Start(capacity), steps);
    hide Run;
    if Wakes(y) && y.feed.history != [] {
      if y.watcher.previous.None? {
        FirstSays(k, y);
      } else {
        LaterSays(k, y);
      }
      hide FeedValid, Find, Says, ReplayDeltas;
    }
  }

  /** Over every run, a status is published, under the next number, if and only if it is the first, the history is to be
      started anew, or there is a delta to it from the newest one. */
  lemma StatusIsPublished<S(!new), D>(k: Codec<S, D>, capacity: nat, steps: seq<Step<S>>, status: S, rebase: bool)
    requires Rebuilds(k, capacity) && 1 <= capacity && k.wellFormed(status)
    ensures var y := Run(k, Start(capacity), steps);
            var v := Next(k, y, Observe(status, rebase));
            var newest := y.feed.sequence;
            && (newest > 0 ==> newest in y.log)
            && (if newest == 0 || rebase || k.diff(y.log[newest], status, newest + 1).Some?
                then && v.feed.sequence == newest + 1 && v.log == y.log[newest + 1 := status]
                     && v.unpublished == y.unpublished + 1
                     && (newest == 0 || rebase ==> forall n: nat :: n <= newest ==> !Retained(v, n))
                     && (!(newest == 0 || rebase) ==>
                           forall n: nat :: n <= newest < n + capacity - 1 ==> (Retained(v, n) <==> Retained(y, n)))
                else v == y)
  {
    RunSaid(k, capacity, steps);
    RunTraced(k, Start(capacity), steps);
    var y := Run(k, Start(capacity), steps);
    hide Run;
    if y.feed.history != [] {
      HistoryAt(k, y, |y.feed.history| - 1);
    }
    hide FeedValid, Find;
  }

  /** Over every run, a step ends an open stream exactly if the client cancels, a write fails, a wake finds nothing
      available, or a wake that is needed cannot be submitted. */
  lemma StreamEndsForAReason<S(!new), D>(k: Codec<S, D>, capacity: nat, steps: seq<Step<S>>, step: Step<S>)
    requires Rebuilds(k, capacity) && 1 <= capacity
    ensures var y := Run(k, Start(capacity), steps);
            y.subscribed && !y.watcher.terminated ==>
              (Next(k, y, step).watcher.terminated <==>
                 || step.Cancel?
                 || (step.WriteDone? && y.watcher.writing.Some? &&
                     (!step.ok || (!step.submitted && !y.watcher.wakeScheduled)))
                 || (step.Wake? && Wakes(y) && (!y.feed.available || y.feed.sequence == 0))
                 || (step.Publish? && y.unpublished > 0 && !step.submitted && !y.watcher.wakeScheduled))
  {
    WakeSaysWhatIsDue(k, capacity, steps);
    hide Run, Woken, NothingToSay, Says;
    BusyWake(k, Run(k, Start(capacity), steps));
  }

  lemma BusyWake<S, D>(k: Codec<S, D>, y: System<S, D>)
    ensures y.watcher.writing.Some? ==> Next(k, y, Wake).watcher.terminated == y.watcher.terminated
  {
  }

  /** For the machine codec, every delta of a replay carries the number of the status it leads to, and so does the delta
      of any later event. */
  lemma MachineDeltasAreNumbered<V(!new)>(eq: Comparison<V>, capacity: nat, steps: seq<Step<StatusRecord<V>>>)
    requires Transitive(eq) && 1 <= capacity
    ensures var k := MachineCodec(eq);
            var y := Run(k, Start(capacity), steps);
            var v := Next(k, y, Wake).watcher;
            Wakes(y) && v.writing.Some? ==>
              match v.writing.value.0
              case Replay(_, from, _, _, deltas) =>
                forall i :: 0 <= i < |deltas| ==> deltas[i].sequence == from + i + 1
              case Delta(sequence, delta) => delta.sequence == sequence
              case Snapshot(_, _) => true
  {
    var k := MachineCodec(eq);
    MachineCodecLawful(eq, capacity);
    WakeSaysWhatIsDue(k, capacity, steps);
    var y := Run(k, Start(capacity), steps);
    var v := Next(k, y, Wake).watcher;
    hide Run, Next, NothingToSay, Lawful, Rebuilds, Steps, MachineCodec;
    if Wakes(y) && v.writing.Some? {
      var event := v.writing.value.0;
      if event.Replay? {
        StepsNumbered(eq, y.log, event.from, event.deltas);
      } else if event.Delta? {
        DiffNumbered(eq, y.log[y.watcher.cursor], y.log[event.sequence], event.sequence);
      }
    }
  }

  lemma DiffNumbered<V>(eq: Comparison<V>, p: StatusRecord<V>, c: StatusRecord<V>, n: nat)
    ensures var d := MachineCodec(eq).diff(p, c, n); d.Some? ==> d.value.sequence == n
  {
    hide StatusEqual, TaskEqual, MotionEqual, IoEqual, TaskDiff, MotionDiff, IoDiff;
  }

  lemma StepsNumbered<V>(
      eq: Comparison<V>, log: map<nat, StatusRecord<V>>, from: nat, deltas: seq<StatusDelta<V>>)
    requires Steps(MachineCodec(eq), log, from, deltas)
    ensures forall i :: 0 <= i < |deltas| ==> deltas[i].sequence == from + i + 1
  {
    hide MachineCodec;
    forall i | 0 <= i < |deltas| ensures deltas[i].sequence == from + i + 1 {
      assert IsStep(MachineCodec(eq), log, from + i, deltas[i]);
      DiffNumbered(eq, log[from + i], log[from + i + 1], from + i + 1);
    }
  }
}
