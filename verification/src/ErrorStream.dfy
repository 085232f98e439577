/** The ring of retained error events and one reader's stream of them. */
module ErrorStream {
  import opened Options
  import WriteFinish

  datatype Entry<E> = Entry(sequence: nat, event: E)

  datatype Ring<E> = Ring(capacity: nat, entries: seq<Entry<E>>, nextSequence: nat)

  datatype Reading<E> = Reading(behind: bool, entries: seq<Entry<E>>)

  function Published<E>(r: Ring<E>, event: E): Ring<E> {
    var all := r.entries + [Entry(r.nextSequence, event)];
    r.(entries := if |all| > r.capacity then all[1..] else all, nextSequence := r.nextSequence + 1)
  }

  function Later<E>(entries: seq<Entry<E>>, sequence: nat): seq<Entry<E>> {
    if entries == [] then []
    else
      Later(entries[..|entries| - 1], sequence) +
      if entries[|entries| - 1].sequence > sequence then [entries[|entries| - 1]] else []
  }

  /** The largest position a client can name. */
  const LAST: nat := 0xFFFF_FFFF_FFFF_FFFF

  /** The number after a position, in 64 bits. */
  function Successor(sequence: nat): nat {
    if sequence == LAST then 0 else sequence + 1
  }

  /** Zero asks for whatever is retained; any other number must still connect to what is. */
  function After<E>(r: Ring<E>, sequence: nat): Reading<E> {
    if r.entries != [] && sequence != 0 && Successor(sequence) < r.entries[0].sequence then Reading(true, [])
    else Reading(false, Later(r.entries, sequence))
  }

  // ---- The ring object ----

  class SequencedRing<E> {
    const capacity: nat
    var entries: seq<Entry<E>>
    var nextSequence: nat

    ghost function View(): Ring<E>
      reads this
    {
      Ring(capacity, entries, nextSequence)
    }

    constructor (capacity: nat)
      requires 1 <= capacity
      ensures View() == Ring(capacity, [], 1)
    {
      this.capacity := capacity;
      entries, nextSequence := [], 1;
    }

    method Publish(event: E) returns (sequence: nat)
      modifies this
      ensures View() == Published(old(View()), event) && sequence == old(nextSequence)
    {
      sequence := nextSequence;
      nextSequence := nextSequence + 1;
      entries := entries + [Entry(sequence, event)];
      if |entries| > capacity {
        entries := entries[1..];
      }
    }

    method ReadAfter(sequence: nat) returns (reading: Reading<E>)
      ensures reading == After(View(), sequence)
    {
      if entries != [] && sequence != 0 && Successor(sequence) < entries[0].sequence {
        return Reading(true, []);
      }
      var later: seq<Entry<E>> := [];
      for n := 0 to |entries|
        invariant later == Later(entries[..n], sequence)
      {
        assert entries[..n + 1][..n] == entries[..n];
        if entries[n].sequence > sequence {
          later := later + [entries[n]];
        }
      }
      assert entries[..|entries|] == entries;
      return Reading(false, later);
    }
  }

  // ---- The reader ----

  /** `writing` is the event on its way to the reader. */
  datatype Reader<E> = Reader(cursor: nat, writing: Option<Entry<E>>, finish: WriteFinish.State)

  function Ended<E>(p: Reader<E>, status: WriteFinish.Status): Reader<E> {
    p.(finish := WriteFinish.FinishTaken(WriteFinish.FinishRequested(p.finish, status)))
  }

  function Woken<E>(p: Reader<E>, r: Ring<E>): Reader<E> {
    if p.finish.writeInFlight || p.finish.TerminationRequested() then p
    else
      var reading := After(r, p.cursor);
      if reading.behind then Ended(p, WriteFinish.ResourceExhausted)
      else if reading.entries == [] then p
      else p.(writing := Some(reading.entries[0]), finish := WriteFinish.WriteStarted(p.finish))
  }

  function WriteCompleted<E>(p: Reader<E>, r: Ring<E>, ok: bool): Reader<E>
    requires p.writing.Some?
  {
    var s := WriteFinish.FinishTaken(WriteFinish.WriteCompleted(p.finish, ok));
    var done := p.(finish := s, writing := None);
    if s.TerminationRequested() then done else Woken(done.(cursor := p.writing.value.sequence), r)
  }

  // ---- The reader object ----

  class ErrorReactor<E> {
    const ring: SequencedRing<E>
    const finish: WriteFinish.DeferredWriteFinish
    var cursor: nat
    var writing: Option<Entry<E>>

    ghost function View(): Reader<E>
      reads this, finish
    {
      Reader(cursor, writing, finish.View())
    }

    constructor (ring: SequencedRing<E>, after: nat)
      ensures this.ring == ring && fresh(finish)
      ensures View() == Woken(Reader(after, None, WriteFinish.IDLE), ring.View())
    {
      this.ring := ring;
      finish := new WriteFinish.DeferredWriteFinish();
      cursor, writing := after, None;
      new;
      Wake();
    }

    method RequestFinish(status: WriteFinish.Status)
      modifies finish
      ensures View() == Ended(old(View()), status)
    {
      finish.RequestFinish(status);
      var _ := finish.TakeFinishStatus();
    }

    method Wake()
      modifies this, finish
      ensures View() == Woken(old(View()), ring.View())
    {
      if finish.writeInFlight || finish.terminal.Some? || finish.finishStarted {
        return;
      }
      var available := ring.ReadAfter(cursor);
      if available.behind {
        RequestFinish(WriteFinish.ResourceExhausted);
        return;
      }
      if available.entries == [] {
        return;
      }
      writing := Some(available.entries[0]);
      var _ := finish.TryStartWrite();
    }

    method OnWriteDone(ok: bool)
      requires writing.Some?
      modifies this, finish
      ensures View() == WriteCompleted(old(View()), ring.View(), ok)
    {
      var sequence := writing.value.sequence;
      writing := None;
      finish.CompleteWrite(ok);
      var status := finish.TakeFinishStatus();
      if finish.terminal.Some? || finish.finishStarted || !ok {
        return;
      }
      cursor := sequence;
      Wake();
    }
  }

  // ---- Runs ----

  /** `published` are all events, numbered from one; `posted` counts wakes on their way. */
  datatype World<E> = World(ring: Ring<E>, published: seq<E>, reader: Reader<E>, posted: nat, delivered: seq<Entry<E>>)

  datatype Step<E> = Publish(event: E) | Wake | WriteDone(ok: bool) | End(status: WriteFinish.Status)

  /** A stream opened for the events after `after`, on a ring that may already have events. */
  function Start<E>(ring: Ring<E>, published: seq<E>, after: nat): World<E> {
    World(ring, published, Woken(Reader(after, None, WriteFinish.IDLE), ring), 0, [])
  }

  function Next<E>(w: World<E>, step: Step<E>): World<E> {
    match step
    case Publish(event) =>
      w.(ring := Published(w.ring, event), published := w.published + [event], posted := w.posted + 1)
    case Wake => if w.posted == 0 then w else w.(reader := Woken(w.reader, w.ring), posted := w.posted - 1)
    case WriteDone(ok) =>
      if w.reader.writing.None? then w
      else w.(reader := WriteCompleted(w.reader, w.ring, ok),
              delivered := w.delivered + if ok then [w.reader.writing.value] else [])
    case End(status) => w.(reader := Ended(w.reader, status))
  }

  function Run<E>(w: World<E>, steps: seq<Step<E>>): World<E> {
    if steps == [] then w else Next(Run(w, steps[..|steps| - 1]), steps[|steps| - 1])
  }

  // ---- Invariant ----

  /** The ring holds the most recent events, without a gap, and empties only if nothing was ever published. */
  ghost predicate Retains<E>(r: Ring<E>, published: seq<E>) {
    && 1 <= r.capacity && |r.entries| <= r.capacity
    && r.nextSequence == |published| + 1
    && |r.entries| <= |published| && (published != [] ==> r.entries != [])
    && forall i :: 0 <= i < |r.entries| ==> Matches(r, published, i)
  }

  ghost predicate Matches<E>(r: Ring<E>, published: seq<E>, i: nat)
    requires i < |r.entries| <= |published|
  {
    var n := |published| - |r.entries| + i;
    r.entries[i] == Entry(n + 1, published[n])
  }

  ghost predicate Authentic<E>(published: seq<E>, entry: Entry<E>) {
    1 <= entry.sequence <= |published| && entry.event == published[entry.sequence - 1]
  }

  /** The event that must come next: the successor of the last one, or of the position asked for. */
  function Due<E>(delivered: seq<Entry<E>>, after: nat): Option<nat> {
    if delivered != [] then Some(delivered[|delivered| - 1].sequence + 1)
    else if after != 0 then Some(after + 1)
    else None
  }

  /** Events follow one another without a gap, from the position asked for if there was one. */
  ghost predicate Contiguous<E>(delivered: seq<Entry<E>>, after: nat) {
    forall i :: 0 <= i < |delivered| ==>
      Due(delivered[..i], after).None? || delivered[i].sequence == Due(delivered[..i], after).value
  }

  ghost predicate Sound<E>(w: World<E>, after: nat) {
    var p := w.reader;
    && Retains(w.ring, w.published)
    && Contiguous(w.delivered, after)
    && (forall i :: 0 <= i < |w.delivered| ==> Authentic(w.published, w.delivered[i]))
    && (p.finish.writeInFlight <==> p.writing.Some?)
    && (p.writing.Some? ==>
          && Authentic(w.published, p.writing.value)
          && (Due(w.delivered, after).Some? ==> p.writing.value.sequence == Due(w.delivered, after).value))
    && (!p.finish.TerminationRequested() ==>
          p.cursor == if w.delivered == [] then after else w.delivered[|w.delivered| - 1].sequence)
    && (!p.finish.TerminationRequested() && p.writing.None? && w.posted == 0 ==> |w.published| <= p.cursor)
  }

  lemma PublishedRetains<E>(r: Ring<E>, published: seq<E>, event: E)
    requires Retains(r, published)
    ensures Retains(Published(r, event), published + [event])
  {
    var after, all := Published(r, event), r.entries + [Entry(r.nextSequence, event)];
    forall i | 0 <= i < |after.entries| ensures Matches(after, published + [event], i) {
      var j := if |all| > r.capacity then i + 1 else i;
      assert after.entries[i] == all[j];
      if j < |r.entries| {
        assert Matches(r, published, j);
      }
    }
  }

  /** Of entries numbered one by one, the first `skip` are those up to `sequence`. */
  ghost predicate Splits<E>(entries: seq<Entry<E>>, sequence: nat, skip: nat) {
    && (forall i :: 0 <= i < |entries| && i < skip ==> entries[i].sequence <= sequence)
    && (forall i :: skip <= i < |entries| ==> entries[i].sequence > sequence)
  }

  lemma {:induction false} LaterIsTail<E>(entries: seq<Entry<E>>, sequence: nat, skip: nat, n: nat)
    requires Splits(entries, sequence, skip) && n <= |entries|
    ensures n <= skip ==> Later(entries[..n], sequence) == []
    ensures skip < n ==> Later(entries[..n], sequence) == entries[skip..n]
  {
    hide Later;
    if n == 0 {
      assert entries[..0] == [];
      LaterNone<E>(sequence);
    } else {
      LaterIsTail(entries, sequence, skip, n - 1);
      LaterStep(entries, sequence, n - 1);
      if skip == n - 1 {
        assert entries[skip..n] == [entries[skip]];
      } else if skip < n - 1 {
        assert entries[skip..n] == entries[skip..n - 1] + [entries[n - 1]];
      }
    }
  }

  lemma LaterNone<E>(sequence: nat)
    ensures Later<E>([], sequence) == []
  {
  }

  lemma LaterStep<E>(entries: seq<Entry<E>>, sequence: nat, n: nat)
    requires n < |entries|
    ensures Later(entries[..n + 1], sequence) ==
            Later(entries[..n], sequence) + if entries[n].sequence > sequence then [entries[n]] else []
  {
    assert entries[..n + 1][..n] == entries[..n];
  }

  /** A reader at the cursor has missed an event: what follows it was evicted. At the largest position any event at all
      counts, because the number after it wraps around to zero. */
  predicate Missed<E>(r: Ring<E>, published: seq<E>, cursor: nat) {
    cursor != 0 && if cursor == LAST then published != [] else cursor < |published| - |r.entries|
  }

  /** How many of the retained events are after the cursor. */
  function Ahead<E>(r: Ring<E>, published: seq<E>, cursor: nat): nat
    requires |r.entries| <= |published|
  {
    if cursor >= |published| then 0
    else if cursor < |published| - |r.entries| then |r.entries|
    else |published| - cursor
  }

  /** Events with consecutive numbers from `first` on, each the one published under its number. */
  ghost predicate Listed<E>(published: seq<E>, entries: seq<Entry<E>>, first: nat) {
    forall i :: 0 <= i < |entries| ==> entries[i].sequence == first + i && Authentic(published, entries[i])
  }

  lemma ListedFirst<E>(published: seq<E>, entries: seq<Entry<E>>, first: nat)
    requires Listed(published, entries, first) && entries != []
    ensures entries[0].sequence == first && Authentic(published, entries[0])
  {
  }

  lemma ListedTail<E>(published: seq<E>, entries: seq<Entry<E>>, first: nat, skip: nat)
    requires Listed(published, entries, first) && skip <= |entries|
    ensures Listed(published, entries[skip..], first + skip)
  {
  }

  lemma RetainedListed<E>(r: Ring<E>, published: seq<E>)
    requires Retains(r, published)
    ensures |r.entries| <= |published| && (published != [] ==> r.entries != [])
    ensures Listed(published, r.entries, |published| - |r.entries| + 1)
  {
    forall i | 0 <= i < |r.entries|
      ensures r.entries[i].sequence == |published| - |r.entries| + 1 + i && Authentic(published, r.entries[i])
    {
      assert Matches(r, published, i);
    }
  }

  lemma LaterMeans<E>(r: Ring<E>, published: seq<E>, cursor: nat)
    requires Retains(r, published)
    ensures Later(r.entries, cursor) == r.entries[|r.entries| - Ahead(r, published, cursor)..]
  {
    var n, skip := |r.entries|, |r.entries| - Ahead(r, published, cursor);
    RetainedListed(r, published);
    hide Later, Retains, Authentic;
    LaterIsTail(r.entries, cursor, skip, n);
    assert r.entries[..n] == r.entries && r.entries[skip..n] == r.entries[skip..];
  }

  /** For any cursor: behind exactly if something was missed, and otherwise the retained events after it, in order and
      up to the last one published, starting with the very next if the reader named a position. */
  lemma AfterMeans<E>(r: Ring<E>, published: seq<E>, cursor: nat)
    requires Retains(r, published)
    ensures var reading := After(r, cursor);
            && (reading.behind <==> Missed(r, published, cursor))
            && (!reading.behind ==>
                  && |reading.entries| == Ahead(r, published, cursor)
                  && Listed(published, reading.entries, |published| - |reading.entries| + 1)
                  && (cursor != 0 && reading.entries != [] ==> reading.entries[0].sequence == cursor + 1))
  {
    hide Later, Retains, Authentic, Listed;
    LaterMeans(r, published, cursor);
    RetainedListed(r, published);
    var n, ahead := |r.entries|, Ahead(r, published, cursor);
    var tail := r.entries[n - ahead..];
    ListedTail(published, r.entries, |published| - n + 1, n - ahead);
    if n > 0 {
      ListedFirst(published, r.entries, |published| - n + 1);
    }
    if ahead > 0 {
      ListedFirst(published, tail, |published| - ahead + 1);
    }
  }

  /** Being told that it is behind means that an event was evicted before the reader got to it, for every position but
      the largest. At that one a reader is told so as soon as anything was published at all, so that the promise holds
      there only of an empty ring. */
  lemma BehindMeansEvicted<E>(r: Ring<E>, published: seq<E>, cursor: nat)
    requires Retains(r, published) && |published| <= LAST && cursor <= LAST
    ensures (After(r, cursor).behind <==> cursor != 0 && cursor < |published| - |r.entries|)
            <==> cursor < LAST || published == []
  {
    AfterMeans(r, published, cursor);
    hide After, Retains;
  }

  /** A stream opened at the largest position on a ring that has lost nothing ends at once, as behind. */
  lemma LargestPositionEndsBehind<E>(event: E)
    ensures var ring := Published(Ring(2, [], 1), event);
            && Retains(ring, [event]) && |ring.entries| == 1
            && Start(ring, [event], LAST).reader.finish ==
                 WriteFinish.State(false, true, Some(WriteFinish.ResourceExhausted))
  {
    var ring := Published(Ring(2, [], 1), event);
    assert Matches(ring, [event], 0);
    AfterMeans(ring, [event], LAST);
  }

  lemma ContiguousAppend<E>(delivered: seq<Entry<E>>, after: nat, entry: Entry<E>)
    requires Contiguous(delivered, after)
    requires Due(delivered, after).Some? ==> entry.sequence == Due(delivered, after).value
    ensures Contiguous(delivered + [entry], after)
  {
    var all := delivered + [entry];
    forall i | 0 <= i < |all| ensures Due(all[..i], after).None? || all[i].sequence == Due(all[..i], after).value {
      if i < |delivered| {
        assert all[..i] == delivered[..i];
      } else {
        assert all[..i] == delivered;
      }
    }
  }

  /** An idle reader that looks at the ring takes the right event, or there is none, or it is behind. */
  lemma WakeKeeps<E>(w: World<E>, after: nat, reader: Reader<E>)
    requires Retains(w.ring, w.published) && Contiguous(w.delivered, after)
    requires forall i :: 0 <= i < |w.delivered| ==> Authentic(w.published, w.delivered[i])
    requires !reader.finish.writeInFlight && reader.writing.None? && !reader.finish.TerminationRequested()
    requires reader.cursor == if w.delivered == [] then after else w.delivered[|w.delivered| - 1].sequence
    ensures Sound(w.(reader := Woken(reader, w.ring)), after)
  {
    hide After, Retains, Contiguous, Authentic, Listed;
    AfterMeans(w.ring, w.published, reader.cursor);
    var reading := After(w.ring, reader.cursor);
    RetainedListed(w.ring, w.published);
    if !reading.behind && reading.entries != [] {
      ListedFirst(w.published, reading.entries, |w.published| - |reading.entries| + 1);
    }
    if w.delivered != [] {
      DeliveredPositive(w.published, w.delivered[|w.delivered| - 1]);
    }
  }

  lemma DeliveredPositive<E>(published: seq<E>, entry: Entry<E>)
    requires Authentic(published, entry)
    ensures entry.sequence != 0
  {
  }

  lemma AuthenticMore<E>(published: seq<E>, event: E)
    ensures forall entry: Entry<E> :: Authentic(published, entry) ==> Authentic(published + [event], entry)
  {
  }

  lemma PublishKeeps<E>(w: World<E>, after: nat, event: E)
    requires Sound(w, after)
    ensures Sound(Next(w, Publish(event)), after)
  {
    hide Retains, Contiguous, Authentic;
    PublishedRetains(w.ring, w.published, event);
    AuthenticMore(w.published, event);
  }

  lemma WriteDoneKeeps<E>(w: World<E>, after: nat, ok: bool)
    requires Sound(w, after) && w.reader.writing.Some?
    ensures Sound(Next(w, WriteDone(ok)), after)
  {
    hide Retains, Contiguous, Authentic, Woken;
    var p, entry := w.reader, w.reader.writing.value;
    var s := WriteFinish.FinishTaken(WriteFinish.WriteCompleted(p.finish, ok));
    if ok {
      var delivered := w.delivered + [entry];
      ContiguousAppend(w.delivered, after, entry);
      if !s.TerminationRequested() {
        WakeKeeps(w.(delivered := delivered), after, p.(finish := s, writing := None, cursor := entry.sequence));
      }
    } else {
      assert w.delivered + [] == w.delivered;
    }
  }

  lemma WakeStepKeeps<E>(w: World<E>, after: nat)
    requires Sound(w, after) && w.posted > 0
    ensures Sound(Next(w, Wake), after)
  {
    hide Retains, Contiguous, Authentic, Woken;
    if w.reader.finish.writeInFlight || w.reader.finish.TerminationRequested() {
      BusyWake(w.reader, w.ring);
    } else {
      WakeKeeps(w.(posted := w.posted - 1), after, w.reader);
    }
  }

  lemma BusyWake<E>(p: Reader<E>, r: Ring<E>)
    requires p.finish.writeInFlight || p.finish.TerminationRequested()
    ensures Woken(p, r) == p
  {
  }

  lemma EndKeeps<E>(w: World<E>, after: nat, status: WriteFinish.Status)
    requires Sound(w, after)
    ensures Sound(Next(w, End(status)), after)
  {
    hide Retains, Contiguous, Authentic;
  }

  lemma NextSound<E>(w: World<E>, after: nat, step: Step<E>)
    requires Sound(w, after)
    ensures Sound(Next(w, step), after)
  {
    hide Sound;
    match step
    case Publish(event) => PublishKeeps(w, after, event);
    case Wake =>
      if w.posted > 0 {
        WakeStepKeeps(w, after);
      }
    case WriteDone(ok) =>
      if w.reader.writing.Some? {
        WriteDoneKeeps(w, after, ok);
      }
    case End(status) => EndKeeps(w, after, status);
  }

  lemma {:induction false} RunSound<E>(ring: Ring<E>, published: seq<E>, after: nat, steps: seq<Step<E>>)
    requires Retains(ring, published)
    ensures Sound(Run(Start(ring, published, after), steps), after)
  {
    if steps == [] {
      var w := Start(ring, published, after);
      WakeKeeps(w, after, Reader(after, None, WriteFinish.IDLE));
    } else {
      RunSound(ring, published, after, steps[..|steps| - 1]);
      hide Sound, Next;
      NextSound(Run(Start(ring, published, after), steps[..|steps| - 1]), after, steps[|steps| - 1]);
    }
  }

  // ---- Results ----

  /** Over every run: the events a reader gets are numbered without a gap, and each is the one published under its
      number; a reader that asked to continue after an event gets its successor first. */
  lemma NoSilentGap<E>(ring: Ring<E>, published: seq<E>, after: nat, steps: seq<Step<E>>, i: nat)
    requires Retains(ring, published) && i < |Run(Start(ring, published, after), steps).delivered|
    ensures var w := Run(Start(ring, published, after), steps);
            && Authentic(w.published, w.delivered[i])
            && (i > 0 ==> w.delivered[i].sequence == w.delivered[i - 1].sequence + 1)
            && (i == 0 && after != 0 ==> w.delivered[0].sequence == after + 1)
  {
    RunSound(ring, published, after, steps);
    var w := Run(Start(ring, published, after), steps);
    hide Run;
    assert Due(w.delivered[..i], after).None? || w.delivered[i].sequence == Due(w.delivered[..i], after).value;
  }

  /** Over every run: a stream that is open, not writing and owed no wake has delivered everything it was asked for, up
      to the last event published. */
  lemma QuietMeansCaughtUp<E>(ring: Ring<E>, published: seq<E>, after: nat, steps: seq<Step<E>>)
    requires Retains(ring, published)
    ensures var w := Run(Start(ring, published, after), steps);
            && !w.reader.finish.TerminationRequested() && w.reader.writing.None? && w.posted == 0 ==>
              && |w.published| <= w.reader.cursor
              && (w.delivered != [] ==> w.delivered[|w.delivered| - 1].sequence == |w.published|)
  {
    RunSound(ring, published, after, steps);
    var w := Run(Start(ring, published, after), steps);
    hide Run;
    if w.delivered != [] {
      assert Authentic(w.published, w.delivered[|w.delivered| - 1]);
    }
  }

  // ---- Why a stream ends ----

  /** The step makes an open stream look at the ring. */
  predicate Looks<E>(w: World<E>, step: Step<E>) {
    match step
    case Wake => w.posted > 0 && w.reader.writing.None?
    case WriteDone(ok) => ok && w.reader.writing.Some?
    case _ => false
  }

  lemma LookEnds<E>(r: Ring<E>, published: seq<E>, p: Reader<E>)
    requires Retains(r, published) && p.finish.MayStartWrite()
    ensures Woken(p, r).finish.TerminationRequested() <==> Missed(r, published, p.cursor)
    ensures Woken(p, r).cursor == p.cursor
    ensures Missed(r, published, p.cursor) ==> Woken(p, r).finish.terminal == Some(WriteFinish.ResourceExhausted)
  {
    AfterMeans(r, published, p.cursor);
    hide After, Retains, Missed;
  }

  /** Over every run, a step ends an open stream exactly if it asks for the end, is a failed write, or lets the reader
      see that it missed an event. */
  lemma EndsForAReason<E>(ring: Ring<E>, published: seq<E>, after: nat, steps: seq<Step<E>>, step: Step<E>)
    requires Retains(ring, published)
    requires !Run(Start(ring, published, after), steps).reader.finish.TerminationRequested()
    ensures var w := Run(Start(ring, published, after), steps);
            var v := Next(w, step);
            && (v.reader.finish.TerminationRequested() <==>
                  || step.End?
                  || (step == WriteDone(false) && w.reader.writing.Some?)
                  || (Looks(w, step) && Missed(v.ring, v.published, v.reader.cursor)))
            && (v.reader.finish.terminal == Some(WriteFinish.ResourceExhausted) ==>
                  || step == End(WriteFinish.ResourceExhausted)
                  || Missed(v.ring, v.published, v.reader.cursor))
  {
    RunSound(ring, published, after, steps);
    var w := Run(Start(ring, published, after), steps);
    var p := w.reader;
    hide Run, Missed, Woken, Retains, Contiguous, Authentic;
    if Looks(w, step) {
      if step.Wake? {
        LookEnds(w.ring, w.published, p);
      } else {
        var s := WriteFinish.FinishTaken(WriteFinish.WriteCompleted(p.finish, true));
        LookEnds(w.ring, w.published, p.(finish := s, writing := None, cursor := p.writing.value.sequence));
      }
    } else if step.Wake? && w.posted > 0 {
      BusyWake(p, w.ring);
    }
  }

  lemma MissedStays<E>(w: World<E>, step: Step<E>)
    requires Retains(w.ring, w.published) && w.reader.finish.TerminationRequested()
    ensures var v := Next(w, step);
            && (v.reader.finish.terminal == Some(WriteFinish.ResourceExhausted) ==>
                  w.reader.finish.terminal == Some(WriteFinish.ResourceExhausted))
            && (Missed(w.ring, w.published, w.reader.cursor) ==> Missed(v.ring, v.published, v.reader.cursor))
  {
    BusyWake(w.reader, w.ring);
    hide Woken;
  }

  /** Over every run in which nobody else ends it so, a stream that ended as behind has really missed an event. */
  lemma {:induction false} BehindMeansMissed<E>(ring: Ring<E>, published: seq<E>, after: nat, steps: seq<Step<E>>)
    requires Retains(ring, published) && End(WriteFinish.ResourceExhausted) !in steps
    ensures var w := Run(Start(ring, published, after), steps);
            w.reader.finish.terminal == Some(WriteFinish.ResourceExhausted) ==>
              Missed(w.ring, w.published, w.reader.cursor)
  {
    if steps == [] {
      LookEnds(ring, published, Reader(after, None, WriteFinish.IDLE));
    } else {
      var front, step := steps[..|steps| - 1], steps[|steps| - 1];
      BehindMeansMissed(ring, published, after, front);
      RunSound(ring, published, after, front);
      var w := Run(Start(ring, published, after), front);
      if w.reader.finish.TerminationRequested() {
        hide Run, Next, Missed;
        MissedStays(w, step);
      } else {
        EndsForAReason(ring, published, after, front, step);
        hide Run, Next, Missed;
      }
    }
  }
}
