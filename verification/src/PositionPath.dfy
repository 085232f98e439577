/**
What the position history says about the path that was travelled.

Every accepted sample has a number.  `path` lists the accepted samples by their numbers; the
history keeps some of them, and this is which.
*/
module PositionPath {
  import opened Options
  import opened Position

  /** The first of the samples an entry stands for. */
  function First(e: Entry): nat {
    e.root.ValueOr(e.sequence)
  }

  /** Where the part of the path that the history covers begins. */
  function Begin(h: History): nat {
    if h.entries == [] then h.nextSequence else First(h.entries[0])
  }

  /** Sample `n` continues the line that leaves sample `from` and reaches sample `n - 1`. */
  predicate Straight(g: Geometry, path: seq<Point>, from: nat, n: nat)
    requires from < n < |path|
  {
    && path[n].motionType == path[n - 1].motionType && path[n].motionType == path[from].motionType
    && g.collinear(path[n], path[n - 1], path[from])
  }

  /** The entry has the last of the samples it stands for, and they all follow the line from the sample before them. */
  ghost predicate Stretch(g: Geometry, path: seq<Point>, e: Entry) {
    && First(e) <= e.sequence < |path| && e.sample == path[e.sequence]
    && (First(e) < e.sequence ==> 1 <= First(e))
    && forall n :: First(e) < n <= e.sequence ==> Follows(g, path, First(e), n)
  }

  ghost predicate Follows(g: Geometry, path: seq<Point>, first: nat, n: nat)
    requires first < n < |path|
  {
    1 <= first && Straight(g, path, first - 1, n)
  }

  /** The stretches of the entries meet without a gap. */
  ghost predicate Meets(entries: seq<Entry>, i: nat)
    requires i + 1 < |entries|
  {
    First(entries[i + 1]) == entries[i].sequence + 1
  }

  /** Where a stretch begins, the path leaves the line of the stretch before. */
  ghost predicate Corner(g: Geometry, path: seq<Point>, entries: seq<Entry>, i: nat)
    requires 2 <= i < |entries|
  {
    var at, from := First(entries[i]), entries[i - 2].sequence;
    from < at < |path| && !Straight(g, path, from, at)
  }

  /** The history covers the path from its beginning to the last accepted sample, one entry for each straight stretch.
      */
  ghost predicate Covers(g: Geometry, path: seq<Point>, h: History) {
    var entries := h.entries;
    && h.nextSequence == |path|
    && (entries != [] ==> entries[|entries| - 1].sequence + 1 == |path|)
    && (forall i :: 0 <= i < |entries| ==> Stretch(g, path, entries[i]))
    && (forall i :: 0 <= i < |entries| - 1 ==> Meets(entries, i))
    && (forall i :: 2 <= i < |entries| ==> Corner(g, path, entries, i))
  }

  // ---- More path ----

  lemma StretchMore(g: Geometry, path: seq<Point>, p: Point, e: Entry)
    requires Stretch(g, path, e)
    ensures Stretch(g, path + [p], e)
  {
    forall n | First(e) < n <= e.sequence ensures Follows(g, path + [p], First(e), n) {
      assert Follows(g, path, First(e), n);
    }
  }

  lemma CornerMore(g: Geometry, path: seq<Point>, p: Point, entries: seq<Entry>, i: nat)
    requires 2 <= i < |entries| && Corner(g, path, entries, i)
    ensures Corner(g, path + [p], entries, i)
  {
  }

  /** A sample that continues the line makes the last stretch longer by one. */
  lemma StretchGrows(g: Geometry, path: seq<Point>, p: Point, e: Entry)
    requires Stretch(g, path, e) && e.sequence + 1 == |path| && 1 <= First(e)
    requires Straight(g, path + [p], First(e) - 1, |path|)
    ensures Stretch(g, path + [p], Entry(|path|, p, Some(First(e))))
  {
    var all := path + [p];
    forall n | First(e) < n <= |path| ensures Follows(g, all, First(e), n) {
      if n < |path| {
        assert Follows(g, path, First(e), n);
      }
    }
  }

  /** What `Continues` asks of the last two entries is a statement about the path. */
  lemma ContinuesMeansStraight(g: Geometry, path: seq<Point>, h: History, p: Point)
    requires Covers(g, path, h) && |h.entries| >= 2
    ensures var n := |h.entries|;
            var from := h.entries[n - 2].sequence;
            && from + 1 == First(h.entries[n - 1]) <= |path| - 1
            && (Continues(g, h.entries, p) <==> Straight(g, path + [p], from, |path|))
  {
    var n := |h.entries|;
    assert Stretch(g, path, h.entries[n - 1]) && Stretch(g, path, h.entries[n - 2]);
    assert Meets(h.entries, n - 2);
  }

  // ---- The operations ----

  lemma ReplacedCovers(g: Geometry, path: seq<Point>, h: History, p: Point)
    requires Covers(g, path, h) && Continues(g, h.entries, p)
    ensures Covers(g, path + [p], h.(entries := Placed(g, h, p), nextSequence := h.nextSequence + 1))
  {
    var n, placed := |h.entries|, Placed(g, h, p);
    ContinuesMeansStraight(g, path, h, p);
    hide Continues, Straight;
    forall i | 0 <= i < n ensures Stretch(g, path + [p], placed[i]) {
      assert Stretch(g, path, h.entries[i]);
      if i < n - 1 {
        assert placed[i] == h.entries[i];
        StretchMore(g, path, p, h.entries[i]);
      } else {
        StretchGrows(g, path, p, h.entries[i]);
      }
    }
    hide Stretch;
    forall i | 0 <= i < n - 1 ensures Meets(placed, i) {
      assert Meets(h.entries, i);
    }
    forall i | 2 <= i < n ensures Corner(g, path + [p], placed, i) {
      assert Corner(g, path, h.entries, i);
      CornerMore(g, path, p, h.entries, i);
    }
  }

  lemma OpenedCovers(g: Geometry, path: seq<Point>, h: History, p: Point)
    requires Covers(g, path, h) && !Continues(g, h.entries, p)
    ensures Covers(g, path + [p], h.(entries := Placed(g, h, p), nextSequence := h.nextSequence + 1))
  {
    var n, placed := |h.entries|, Placed(g, h, p);
    if n >= 2 {
      ContinuesMeansStraight(g, path, h, p);
    }
    hide Continues, Straight;
    forall i | 0 <= i <= n ensures Stretch(g, path + [p], placed[i]) {
      if i < n {
        assert placed[i] == h.entries[i];
        StretchMore(g, path, p, h.entries[i]);
      }
    }
    hide Stretch;
    forall i | 0 <= i < n ensures Meets(placed, i) {
      if i < n - 1 {
        assert Meets(h.entries, i);
      }
    }
    forall i | 2 <= i <= n ensures Corner(g, path + [p], placed, i) {
      if i < n {
        assert Corner(g, path, h.entries, i);
        CornerMore(g, path, p, h.entries, i);
      }
    }
  }

  lemma DroppedCovers(g: Geometry, path: seq<Point>, h: History, dropped: nat)
    requires Covers(g, path, h) && dropped <= |h.entries|
    ensures Covers(g, path, h.(entries := h.entries[dropped..]))
  {
    var kept := h.entries[dropped..];
    assert forall i :: 0 <= i < |kept| ==> kept[i] == h.entries[dropped + i];
    hide Stretch, Straight;
    forall i | 0 <= i < |kept| - 1 ensures Meets(kept, i) {
      assert Meets(h.entries, dropped + i);
    }
    forall i | 2 <= i < |kept| ensures Corner(g, path, kept, i) {
      assert Corner(g, path, h.entries, dropped + i);
    }
  }

  /** An accepted sample is covered like all before it; the history loses its oldest entry only to stay in bounds. */
  lemma AppendedCovers(g: Geometry, path: seq<Point>, h: History, p: Point)
    requires Covers(g, path, h) && Accepts(g, h, p)
    ensures Covers(g, path + [p], Appended(g, h, p))
  {
    hide Covers, Continues;
    var placed := h.(entries := Placed(g, h, p), nextSequence := h.nextSequence + 1);
    if Continues(g, h.entries, p) {
      ReplacedCovers(g, path, h, p);
    } else {
      OpenedCovers(g, path, h, p);
    }
    if |placed.entries| > h.maxSamples {
      DroppedCovers(g, path + [p], placed, 1);
      SameCovers(g, path + [p], placed.(entries := placed.entries[1..]), Appended(g, h, p));
    } else {
      SameCovers(g, path + [p], placed, Appended(g, h, p));
    }
  }

  lemma SameCovers(g: Geometry, path: seq<Point>, h: History, k: History)
    requires h.nextSequence == k.nextSequence && h.entries == k.entries
    ensures Covers(g, path, h) <==> Covers(g, path, k)
  {
  }

  lemma ConfiguredCovers(g: Geometry, path: seq<Point>, h: History, maxSamples: nat, epsilon: real)
    requires Covers(g, path, h)
    ensures Covers(g, path, Configured(h, maxSamples, epsilon))
  {
    hide Covers;
    var bound := Max(1, maxSamples);
    var dropped := if |h.entries| > bound then |h.entries| - bound else 0;
    DroppedCovers(g, path, h, dropped);
    SameCovers(g, path, h.(entries := h.entries[dropped..]), Configured(h, maxSamples, epsilon));
  }

  lemma ClearedCovers(g: Geometry, path: seq<Point>, h: History)
    requires Covers(g, path, h)
    ensures Covers(g, path, Cleared(h))
  {
  }

  // ---- What a covering history means ----

  /** Every sample from the beginning on is one that some entry stands for, and only one does. */
  lemma {:induction false} StandsFor(g: Geometry, path: seq<Point>, h: History, n: nat, count: nat) returns (i: nat)
    requires Covers(g, path, h) && 1 <= count <= |h.entries|
    requires First(h.entries[0]) <= n <= h.entries[count - 1].sequence
    ensures i < count && First(h.entries[i]) <= n <= h.entries[i].sequence
  {
    hide Corner, Straight;
    if count == 1 || First(h.entries[count - 1]) <= n {
      i := count - 1;
    } else {
      assert Meets(h.entries, count - 2);
      i := StandsFor(g, path, h, n, count - 1);
    }
  }

  /** The next sample would begin a stretch of its own. */
  predicate Turns(g: Geometry, path: seq<Point>, h: History, p: Point)
    requires h.nextSequence == |path|
    requires |h.entries| >= 2 ==> h.entries[|h.entries| - 2].sequence < |path|
  {
    |h.entries| < 2 || !Straight(g, path + [p], h.entries[|h.entries| - 2].sequence, |path|)
  }

  /** What happens to the covered part: it grows by the sample, and its first stretch goes, under a new generation, if
      and only if the history is full and the sample begins a stretch of its own. */
  lemma AppendedMoves(g: Geometry, path: seq<Point>, h: History, p: Point)
    requires Covers(g, path, h) && Valid(h) && Accepts(g, h, p)
    ensures |h.entries| >= 2 ==> h.entries[|h.entries| - 2].sequence < |path|
    ensures var after := Appended(g, h, p);
            var turns, full := Turns(g, path, h, p), |h.entries| == h.maxSamples;
            && |after.entries| == |h.entries| + (if turns && !full then 1 else 0)
            && (if turns && full
                then Begin(after) == h.entries[0].sequence + 1 && after.generation == h.generation + 1
                else Begin(after) == Begin(h) && after.generation == h.generation)
            && after.maxSamples == h.maxSamples && after.epsilon == h.epsilon
  {
    hide Continues, Straight, Ordered, Covers, Stretch;
    SecondBegins(g, path, h);
    if |h.entries| >= 2 {
      ContinuesMeansStraight(g, path, h, p);
    } else {
      TooShort(g, h.entries, p);
    }
  }

  lemma TooShort(g: Geometry, entries: seq<Entry>, p: Point)
    requires |entries| < 2
    ensures !Continues(g, entries, p)
  {
  }

  lemma SecondBegins(g: Geometry, path: seq<Point>, h: History)
    requires Covers(g, path, h)
    ensures h.nextSequence == |path|
    ensures |h.entries| == 1 ==> h.entries[0].sequence + 1 == |path|
    ensures |h.entries| >= 2 ==> First(h.entries[1]) == h.entries[0].sequence + 1
  {
    if |h.entries| >= 2 {
      assert Meets(h.entries, 0);
    }
  }
}
