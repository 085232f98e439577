/**
The bounded position history and its replication to one remote consumer.

A history is a list of samples whose last entry may be replaced in place while the
tool moves along a straight line.  Every append gets a fresh sequence number; a
consumer remembers the sequence number it will see next and the generation it last
acknowledged, and asks for what changed since.
*/
module Position {
  import opened Options

  datatype Sample = Sample(coordinates: seq<real>, motionType: int)
  type Point = s: Sample | |s.coordinates| == 9 witness Sample([0.0, 0.0, 0.0, 0.0, 0.0, 0.0, 0.0, 0.0, 0.0], 0)

  /** `root` is the first sequence number of a chain of tail replacements. */
  datatype Entry = Entry(sequence: nat, sample: Point, root: Option<nat>)

  /** The two floating-point tests of the source. Every result below holds for any choice of them. */
  datatype Geometry = Geometry(
    changed: (Point, Point, real) -> bool,
    collinear: (Point, Point, Point) -> bool)

  datatype History = History(
    entries: seq<Entry>,
    maxSamples: nat,
    epsilon: real,
    nextSequence: nat,
    generation: nat)

  datatype Batch = Batch(
    reset: bool,
    generation: nat,
    firstSequence: nat,
    nextSequence: nat,
    replaceCount: nat,
    packed: seq<real>)

  function Max(a: nat, b: nat): nat {
    if a < b then b else a
  }

  function NonNegative(x: real): real {
    if x < 0.0 then 0.0 else x
  }

  // ---- Wire layout ----

  function PackPoint(p: Point): (r: seq<real>)
    ensures |r| == 10
  {
    p.coordinates + [p.motionType as real]
  }

  function Pack(entries: seq<Entry>): (r: seq<real>)
    ensures |r| == 10 * |entries|
  {
    if entries == [] then [] else PackPoint(entries[0].sample) + Pack(entries[1..])
  }

  /** What a consumer reads back from a packed list. */
  function Unpack(packed: seq<real>): (r: seq<Point>)
    requires |packed| % 10 == 0
    ensures |r| == |packed| / 10
  {
    if packed == [] then []
    else [Sample(packed[..9], packed[9].Floor)] + Unpack(packed[10..])
  }

  // ---- Operations ----

  function Initial(maxSamples: nat, epsilon: real): History {
    History([], Max(1, maxSamples), NonNegative(epsilon), 0, 1)
  }

  predicate Accepts(g: Geometry, h: History, p: Point) {
    h.entries == [] || g.changed(h.entries[|h.entries| - 1].sample, p, h.epsilon)
  }

  /** Does `p` continue the straight line through the last two entries? */
  predicate Continues(g: Geometry, entries: seq<Entry>, p: Point) {
    var n := |entries|;
    && n >= 2
    && p.motionType == entries[n - 1].sample.motionType
    && p.motionType == entries[n - 2].sample.motionType
    && g.collinear(p, entries[n - 1].sample, entries[n - 2].sample)
  }

  /** The list with `p` placed at its tail, before the bound is enforced. */
  function Placed(g: Geometry, h: History, p: Point): seq<Entry> {
    var n := |h.entries|;
    if Continues(g, h.entries, p) then
      var last := h.entries[n - 1];
      h.entries[..n - 1] + [Entry(h.nextSequence, p, Some(last.root.ValueOr(last.sequence)))]
    else
      h.entries + [Entry(h.nextSequence, p, None)]
  }

  function Appended(g: Geometry, h: History, p: Point): History {
    if !Accepts(g, h, p) then h
    else
      var placed := Placed(g, h, p);
      if |placed| > h.maxSamples then
        h.(entries := placed[1..], nextSequence := h.nextSequence + 1, generation := h.generation + 1)
      else
        h.(entries := placed, nextSequence := h.nextSequence + 1)
  }

  function Configured(h: History, maxSamples: nat, epsilon: real): History {
    var bound := Max(1, maxSamples);
    var kept := if |h.entries| > bound then h.entries[|h.entries| - bound..] else h.entries;
    h.(entries := kept, maxSamples := bound, epsilon := NonNegative(epsilon), generation := h.generation + 1)
  }

  function Cleared(h: History): History {
    h.(entries := [], generation := h.generation + 1)
  }

  function Oldest(h: History): nat {
    if h.entries == [] then h.nextSequence else h.entries[0].sequence
  }

  function SnapshotOf(h: History): Batch {
    Batch(true, h.generation, Oldest(h), h.nextSequence, 0, Pack(h.entries))
  }

  /** The number of leading entries older than `sequence`. */
  function LowerBound(entries: seq<Entry>, sequence: nat): (r: nat)
    ensures r <= |entries|
  {
    if entries == [] || entries[0].sequence >= sequence then 0
    else 1 + LowerBound(entries[1..], sequence)
  }

  predicate GenerationChanged(h: History, afterGeneration: nat) {
    afterGeneration != 0 && afterGeneration != h.generation
  }

  function DeltaSince(h: History, sequence: nat, maxSamples: nat, afterGeneration: nat): Batch {
    if h.entries == [] then
      Batch(GenerationChanged(h, afterGeneration) || sequence != h.nextSequence,
            h.generation, h.nextSequence, h.nextSequence, 0, [])
    else if GenerationChanged(h, afterGeneration) || sequence < Oldest(h) then
      BatchFrom(h, sequence, maxSamples, true, 0)
    else
      BatchFrom(h, sequence, maxSamples, false, LowerBound(h.entries, sequence))
  }

  /** The entries from index `first` on, as many as the limit allows; zero is no limit. */
  function BatchFrom(h: History, sequence: nat, maxSamples: nat, reset: bool, first: nat): Batch
    requires first <= |h.entries|
  {
    var rest := |h.entries| - first;
    var count := Limited(rest, maxSamples);
    var replacesTail := !reset && rest != 0 && h.entries[first].root.ValueOr(sequence) < sequence;
    Batch(reset, h.generation, if rest == 0 then h.nextSequence else h.entries[first].sequence,
          h.nextSequence, if replacesTail then 1 else 0, Pack(h.entries[first..first + count]))
  }

  function Limited(count: nat, limit: nat): (r: nat)
    ensures r <= count
  {
    if limit == 0 || count <= limit then count else limit
  }

  /** The number of entries a batch would carry without a size limit. */
  function Available(h: History, sequence: nat, afterGeneration: nat): nat {
    if h.entries == [] then 0
    else if GenerationChanged(h, afterGeneration) || sequence < Oldest(h) then |h.entries|
    else |h.entries| - LowerBound(h.entries, sequence)
  }

  // ---- The consumer ----

  /** A frame replaces the consumer's list, or drops points from its tail and appends. */
  function Receive(copy: seq<real>, batch: Batch, replacement: bool): seq<real> {
    if replacement then batch.packed
    else if 10 * batch.replaceCount <= |copy| then
      copy[..|copy| - 10 * batch.replaceCount] + batch.packed
    else batch.packed
  }

  // ---- Invariants ----

  predicate Valid(h: History) {
    && 1 <= h.maxSamples
    && 1 <= h.generation
    && |h.entries| <= h.maxSamples
    && Ordered(h.entries, h.nextSequence)
  }

  /** Sequence numbers grow, and each replacement chain started after the entry before it. */
  predicate Ordered(entries: seq<Entry>, next: nat) {
    && (forall i :: 0 <= i < |entries| ==> entries[i].sequence < next)
    && (forall i, j :: 0 <= i < j < |entries| ==> entries[i].sequence < entries[j].sequence)
    && (forall i :: 0 <= i < |entries| ==> entries[i].root.ValueOr(0) <= entries[i].sequence)
    && (forall i, j :: 0 <= i < j < |entries| && entries[j].root.Some? ==> entries[i].sequence < entries[j].root.value)
  }

  /** Entries from index `from` on are unknown to a consumer at `cursor`, and so are their chains. */
  predicate NewSince(entries: seq<Entry>, from: nat, cursor: nat) {
    forall i :: from <= i < |entries| ==>
      cursor <= entries[i].sequence && cursor <= entries[i].root.ValueOr(cursor)
  }

  predicate Older(entries: seq<Entry>, cursor: nat) {
    forall i :: 0 <= i < |entries| ==> entries[i].sequence < cursor
  }

  /** `entries` grew out of `base`, which the consumer at `cursor` holds, without any loss at the front:
      either by appending, or by replacing the last entry of `base` and then appending. */
  predicate GrewFrom(base: seq<Entry>, cursor: nat, entries: seq<Entry>) {
    && Older(base, cursor)
    && var n := |base|;
       || (n <= |entries| && entries[..n] == base && NewSince(entries, n, cursor))
       || (&& 2 <= n <= |entries|
           && entries[..n - 1] == base[..n - 1]
           && cursor <= entries[n - 1].sequence
           && entries[n - 1].root.Some? && entries[n - 1].root.value < cursor
           && NewSince(entries, n, cursor))
  }

  /** The consumer last synchronized when the list was `base`. */
  predicate Tracks(h: History, base: seq<Entry>, cursor: nat, generation: nat) {
    && 1 <= generation <= h.generation
    && cursor <= h.nextSequence
    && (generation == h.generation ==>
          && GrewFrom(base, cursor, h.entries) && (cursor == h.nextSequence ==> h.entries == base)
          && (h.entries == [] ==> cursor == h.nextSequence))
  }

  // ---- Proofs ----

  lemma {:induction false} PackAppend(a: seq<Entry>, b: seq<Entry>)
    ensures Pack(a + b) == Pack(a) + Pack(b)
  {
    if a == [] {
      assert a + b == b;
    } else {
      assert (a + b)[1..] == a[1..] + b;
      PackAppend(a[1..], b);
    }
  }

  /** The wire layout loses nothing: unpacking gives back the samples in order. */
  lemma {:induction false} UnpackPack(entries: seq<Entry>)
    ensures |Unpack(Pack(entries))| == |entries|
    ensures forall i :: 0 <= i < |entries| ==> Unpack(Pack(entries))[i] == entries[i].sample
  {
    if entries != [] {
      var packed := Pack(entries);
      assert packed[..9] == entries[0].sample.coordinates;
      assert packed[10..] == Pack(entries[1..]);
      UnpackPack(entries[1..]);
    }
  }

  lemma {:induction false} LowerBoundSplits(entries: seq<Entry>, sequence: nat, k: nat)
    requires k <= |entries|
    requires forall i :: 0 <= i < k ==> entries[i].sequence < sequence
    requires k < |entries| ==> sequence <= entries[k].sequence
    ensures LowerBound(entries, sequence) == k
  {
    if k > 0 {
      LowerBoundSplits(entries[1..], sequence, k - 1);
    }
  }

  /** Whatever comes after the entries seen so far may follow them. */
  lemma OrderedExtend(entries: seq<Entry>, next: nat, last: Entry)
    requires Ordered(entries, next) && last.sequence == next
    requires last.root.Some? ==>
               last.root.value <= next && Older(entries, last.root.value)
    ensures Ordered(entries + [last], next + 1)
  {
    var all, n := entries + [last], |entries|;
    assert all[n] == last;
    assert forall i :: 0 <= i < n ==> all[i] == entries[i];
  }

  lemma OrderedFront(entries: seq<Entry>, next: nat)
    requires Ordered(entries, next) && entries != []
    ensures Ordered(entries[..|entries| - 1], next)
    ensures var last := entries[|entries| - 1];
            var root := last.root.ValueOr(last.sequence);
            root <= next && Older(entries[..|entries| - 1], root)
  {
    var front := entries[..|entries| - 1];
    assert forall i :: 0 <= i < |front| ==> front[i] == entries[i];
  }

  lemma PlacedOrdered(g: Geometry, h: History, p: Point)
    requires Valid(h)
    ensures Ordered(Placed(g, h, p), h.nextSequence + 1)
  {
    hide Ordered;
    var n := |h.entries|;
    if Continues(g, h.entries, p) {
      var last := h.entries[n - 1];
      var root := last.root.ValueOr(last.sequence);
      OrderedFront(h.entries, h.nextSequence);
      OrderedExtend(h.entries[..n - 1], h.nextSequence, Entry(h.nextSequence, p, Some(root)));
    } else {
      OrderedExtend(h.entries, h.nextSequence, Entry(h.nextSequence, p, None));
    }
  }

  lemma OrderedTail(entries: seq<Entry>, next: nat)
    requires Ordered(entries, next) && entries != []
    ensures Ordered(entries[1..], next)
  {
    assert forall i :: 0 <= i < |entries| - 1 ==> entries[1..][i] == entries[i + 1];
  }

  lemma AppendedValid(g: Geometry, h: History, p: Point)
    requires Valid(h)
    ensures Valid(Appended(g, h, p))
  {
    PlacedOrdered(g, h, p);
    hide Ordered, Continues;
    OrderedTail(Placed(g, h, p), h.nextSequence + 1);
  }

  lemma ConfiguredValid(h: History, maxSamples: nat, epsilon: real)
    requires Valid(h)
    ensures Valid(Configured(h, maxSamples, epsilon))
  {
  }

  lemma TracksSnapshot(h: History)
    requires Valid(h)
    ensures Tracks(h, h.entries, h.nextSequence, h.generation)
  {
  }

  lemma TracksAppend(g: Geometry, h: History, p: Point, base: seq<Entry>, cursor: nat, generation: nat)
    requires Valid(h) && Tracks(h, base, cursor, generation)
    ensures Tracks(Appended(g, h, p), base, cursor, generation)
  {
    var after := Appended(g, h, p);
    if generation == after.generation && Accepts(g, h, p) {
      var n := |h.entries|;
      assert after.entries == Placed(g, h, p);
      if Continues(g, h.entries, p) {
        assert after.entries[..n - 1] == h.entries[..n - 1];
        assert forall k :: 0 <= k < n ==> after.entries[..k] == h.entries[..k];
      } else {
        assert forall k :: 0 <= k <= n ==> after.entries[..k] == h.entries[..k];
      }
    }
  }

  /** Where the unseen part of the list begins, and whether the consumer must first drop its last point. */
  lemma SplitAtCursor(h: History, base: seq<Entry>, cursor: nat, generation: nat)
    returns (first: nat, dropped: nat)
    requires Valid(h) && Tracks(h, base, cursor, generation) && h.entries != []
    requires generation == h.generation && Oldest(h) <= cursor
    ensures first <= |h.entries| && first == LowerBound(h.entries, cursor)
    ensures dropped <= 1 && first + dropped == |base| && h.entries[..first] == base[..first]
    ensures dropped == 1 <==> first < |h.entries| && h.entries[first].root.ValueOr(cursor) < cursor
  {
    var n := |base|;
    if n <= |h.entries| && h.entries[..n] == base && NewSince(h.entries, n, cursor) {
      first, dropped := n, 0;
      assert forall i :: 0 <= i < n ==> h.entries[i] == base[i];
    } else {
      first, dropped := n - 1, 1;
      assert forall i :: 0 <= i < n - 1 ==> h.entries[i] == h.entries[..n - 1][i] == base[..n - 1][i] == base[i];
    }
    LowerBoundSplits(h.entries, cursor, first);
  }

  /** A delta that drops `dropped` points and appends `sent` is complete exactly when `sent` is all that is unseen. */
  lemma DeltaReproduces(base: seq<Entry>, entries: seq<Entry>, first: nat, dropped: nat, sent: seq<Entry>, batch: Batch)
    requires first <= |entries| && dropped <= 1 && first + dropped == |base| && entries[..first] == base[..first]
    requires |sent| <= |entries| - first && sent == entries[first..first + |sent|]
    requires batch.replaceCount == dropped && batch.packed == Pack(sent)
    ensures Receive(Pack(base), batch, false) == Pack(entries) <==> |sent| == |entries| - first
  {
    hide Pack;
    var rest := entries[first..];
    assert base == base[..first] + base[first..];
    PackAppend(base[..first], base[first..]);
    assert entries == entries[..first] + rest;
    PackAppend(entries[..first], rest);
    assert Pack(base)[..10 * first] == Pack(base[..first]);
    assert Receive(Pack(base), batch, false) == Pack(base[..first]) + Pack(sent);
    if |sent| < |rest| {
      assert |Pack(sent)| < |Pack(rest)|;
    } else {
      assert sent == rest;
    }
  }

  lemma ResetReproduces(h: History, copy: seq<real>, cursor: nat, maxSamples: nat)
    ensures Receive(copy, BatchFrom(h, cursor, maxSamples, true, 0), true) == Pack(h.entries)
            <==> maxSamples == 0 || |h.entries| <= maxSamples
  {
    var n := |h.entries|;
    assert h.entries[0..n] == h.entries;
    if n > maxSamples != 0 {
      assert |Pack(h.entries[0..maxSamples])| < |Pack(h.entries)|;
    }
  }

  lemma EmptyReproduces(h: History, base: seq<Entry>, cursor: nat, generation: nat, maxSamples: nat)
    requires h.entries == [] && Tracks(h, base, cursor, generation)
    ensures var batch := DeltaSince(h, cursor, maxSamples, generation);
            Receive(Pack(base), batch, batch.reset) == Pack(h.entries)
  {
  }

  /** A batch limited to `maxSamples` entries reproduces the server's list from any tracked position
      if and only if the limit does not cut anything off. */
  lemma SyncReproduces(h: History, base: seq<Entry>, cursor: nat, generation: nat, maxSamples: nat)
    requires Valid(h) && Tracks(h, base, cursor, generation)
    ensures var batch := DeltaSince(h, cursor, maxSamples, generation);
            Receive(Pack(base), batch, batch.reset) == Pack(h.entries)
            <==> maxSamples == 0 || Available(h, cursor, generation) <= maxSamples
  {
    hide Pack, Receive, Ordered, GrewFrom, LowerBound;
    if h.entries == [] {
      EmptyReproduces(h, base, cursor, generation, maxSamples);
    } else if GenerationChanged(h, generation) || cursor < Oldest(h) {
      ResetReproduces(h, Pack(base), cursor, maxSamples);
    } else {
      var first, dropped := SplitAtCursor(h, base, cursor, generation);
      var sent := h.entries[first..first + Limited(|h.entries| - first, maxSamples)];
      DeltaReproduces(base, h.entries, first, dropped, sent, BatchFrom(h, cursor, maxSamples, false, first));
    }
  }

  /** The session skips a frame only when the consumer already holds the list. */
  lemma EmptyDeltaMeansCurrent(h: History, base: seq<Entry>, cursor: nat, generation: nat)
    requires Valid(h) && Tracks(h, base, cursor, generation)
    requires var batch := DeltaSince(h, cursor, 0, generation); !batch.reset && batch.packed == []
    ensures h.entries == base
  {
    if h.entries != [] {
      var first, dropped := SplitAtCursor(h, base, cursor, generation);
      assert h.entries[first..] == [];
    }
  }

  /** And it skips a frame whenever the consumer holds the list and has seen its generation. */
  lemma CurrentMeansEmptyDelta(h: History, base: seq<Entry>, cursor: nat, generation: nat)
    requires Valid(h) && Tracks(h, base, cursor, generation) && generation == h.generation && h.entries == base
    ensures var batch := DeltaSince(h, cursor, 0, generation); !batch.reset && batch.packed == []
  {
    if h.entries != [] {
      LowerBoundSplits(h.entries, cursor, |h.entries|);
      assert h.entries[|h.entries|..] == [];
    }
  }

  // ---- The history object ----

  class PositionHistory {
    const geometry: Geometry
    var entries: seq<Entry>
    var maxSamples: nat
    var epsilon: real
    var nextSequence: nat
    var generation: nat

    ghost function View(): History
      reads this
    {
      History(entries, maxSamples, epsilon, nextSequence, generation)
    }

    constructor (geometry: Geometry, maxSamples: nat, epsilon: real)
      ensures this.geometry == geometry
      ensures View() == Initial(maxSamples, epsilon) && Valid(View())
    {
      this.geometry := geometry;
      this.entries := [];
      this.maxSamples := Max(1, maxSamples);
      this.epsilon := NonNegative(epsilon);
      this.nextSequence := 0;
      this.generation := 1;
    }

    method Configure(maxSamples: nat, epsilon: real)
      requires Valid(View())
      modifies this
      ensures View() == Configured(old(View()), maxSamples, epsilon) && Valid(View())
    {
      this.maxSamples := Max(1, maxSamples);
      this.epsilon := NonNegative(epsilon);
      ghost var dropped := 0;
      while |entries| > this.maxSamples
        invariant dropped <= |old(entries)| && entries == old(entries)[dropped..]
        invariant dropped == 0 || this.maxSamples <= |entries|
        invariant this.maxSamples == Max(1, maxSamples) && this.epsilon == NonNegative(epsilon)
        invariant nextSequence == old(nextSequence) && generation == old(generation)
        decreases |entries|
      {
        entries := entries[1..];
        dropped := dropped + 1;
      }
      generation := generation + 1;
      ConfiguredValid(old(View()), maxSamples, epsilon);
    }

    method Clear()
      requires Valid(View())
      modifies this
      ensures View() == Cleared(old(View())) && Valid(View())
    {
      entries := [];
      generation := generation + 1;
    }

    method Append(sample: Point) returns (appended: bool)
      requires Valid(View())
      modifies this
      ensures appended == Accepts(geometry, old(View()), sample)
      ensures View() == Appended(geometry, old(View()), sample) && Valid(View())
    {
      hide Ordered;
      AppendedValid(geometry, View(), sample);
      if entries != [] && !geometry.changed(entries[|entries| - 1].sample, sample, epsilon) {
        return false;
      }
      var sequence := nextSequence;
      nextSequence := nextSequence + 1;
      var n := |entries|;
      if && n >= 2
         && sample.motionType == entries[n - 1].sample.motionType
         && sample.motionType == entries[n - 2].sample.motionType
         && geometry.collinear(sample, entries[n - 1].sample, entries[n - 2].sample)
      {
        var root := entries[n - 1].root.ValueOr(entries[n - 1].sequence);
        entries := entries[n - 1 := Entry(sequence, sample, Some(root))];
        assert entries == Placed(geometry, old(View()), sample);
      } else {
        entries := entries + [Entry(sequence, sample, None)];
      }
      if |entries| > maxSamples {
        entries := entries[1..];
        generation := generation + 1;
      }
      return true;
    }

    method Snapshot() returns (batch: Batch)
      requires Valid(View())
      ensures batch == SnapshotOf(View())
    {
      var first := if entries == [] then nextSequence else entries[0].sequence;
      var packed := PackRange(0, |entries|);
      assert entries[0..|entries|] == entries;
      batch := Batch(true, generation, first, nextSequence, 0, packed);
    }

    method Since(sequence: nat, maxSamples: nat, afterGeneration: nat) returns (batch: Batch)
      requires Valid(View())
      ensures batch == DeltaSince(View(), sequence, maxSamples, afterGeneration)
    {
      if entries == [] {
        var reset := (afterGeneration != 0 && afterGeneration != generation) || sequence != nextSequence;
        return Batch(reset, generation, nextSequence, nextSequence, 0, []);
      }
      var generationChanged := afterGeneration != 0 && afterGeneration != generation;
      var rolled := sequence < entries[0].sequence;
      var first := 0;
      if !generationChanged && !rolled {
        first := FindFirst(sequence);
      }
      batch := Collect(sequence, maxSamples, generationChanged || rolled, first);
    }

    method Collect(sequence: nat, maxSamples: nat, reset: bool, first: nat) returns (batch: Batch)
      requires first <= |entries|
      ensures batch == BatchFrom(View(), sequence, maxSamples, reset, first)
    {
      var rest := |entries| - first;
      var count := if maxSamples == 0 || rest <= maxSamples then rest else maxSamples;
      var firstSequence := if rest == 0 then nextSequence else entries[first].sequence;
      var replaceCount := 0;
      if !reset && rest != 0 && entries[first].root.ValueOr(sequence) < sequence {
        replaceCount := 1;
      }
      var packed := PackRange(first, count);
      batch := Batch(reset, generation, firstSequence, nextSequence, replaceCount, packed);
    }

    /** Binary search for the first entry that is not older than `sequence`. */
    method FindFirst(sequence: nat) returns (first: nat)
      requires Valid(View())
      ensures first == LowerBound(entries, sequence)
    {
      first := 0;
      var last := |entries|;
      while first < last
        invariant 0 <= first <= last <= |entries|
        invariant forall i :: 0 <= i < first ==> entries[i].sequence < sequence
        invariant forall i :: last <= i < |entries| ==> sequence <= entries[i].sequence
      {
        var middle := (first + last) / 2;
        if entries[middle].sequence < sequence {
          first := middle + 1;
        } else {
          last := middle;
        }
      }
      LowerBoundSplits(entries, sequence, first);
    }

    method PackRange(first: nat, count: nat) returns (packed: seq<real>)
      requires first + count <= |entries|
      ensures packed == Pack(entries[first..first + count])
    {
      packed := [];
      for index := first to first + count
        invariant packed == Pack(entries[first..index])
      {
        packed := packed + PackPoint(entries[index].sample);
        assert entries[first..index + 1] == entries[first..index] + [entries[index]];
        PackAppend(entries[first..index], [entries[index]]);
      }
    }
  }
}
