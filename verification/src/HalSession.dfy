/** One session showing a subscription's values to its client, and the client's copy of them. */
module HalDelivery {
  import opened Options
  import opened HalTelemetry
  import opened HalSubscriptions
  import HalPromises

  datatype Snapshot<V> = Snapshot(
    sampled: bool,
    revision: nat,
    sequence: nat,
    bindings: seq<Binding>,
    values: seq<Option<V>>)

  datatype Entry<V> = Entry(slot: nat, value: Option<V>)

  datatype Frame<V> = Frame(replacement: bool, revision: nat, sequence: nat, entries: seq<Entry<V>>)

  /** `writing` is the snapshot on its way to the client with the frame that carries it; `closing` says that the client
      sent something itself, so that the session is about to close. */
  datatype Session<V> = Session(
    revision: nat,
    values: seq<Option<V>>,
    writing: Option<(Snapshot<V>, Frame<V>)>,
    dirty: bool,
    closed: bool,
    closing: bool)

  function Opened<V>(): Session<V> {
    Session(0, [], None, false, false, false)
  }

  function SnapshotOf<V>(s: State<V>): Snapshot<V> {
    Snapshot(s.sampled, s.revision, s.sequence, s.bindings, s.values)
  }

  function Shown<V>(states: map<string, State<V>>, id: string): Option<Snapshot<V>> {
    if id in states then Some(SnapshotOf(states[id])) else None
  }

  // ---- Sending ----

  predicate Sends<V>(k: Values<V>, values: seq<Option<V>>, before: seq<Option<V>>, replacement: bool, i: nat)
    requires i < |values|
  {
    replacement || i >= |before| || !SameValue(k, values[i], before[i])
  }

  /** The entries for the first `count` bindings that must be sent. */
  function Listed<V>(
      k: Values<V>, snapshot: Snapshot<V>, before: seq<Option<V>>, replacement: bool, count: nat): seq<Entry<V>>
    requires count <= |snapshot.values| == |snapshot.bindings|
  {
    if count == 0 then []
    else
      Listed(k, snapshot, before, replacement, count - 1) +
      if Sends(k, snapshot.values, before, replacement, count - 1)
      then [Entry(snapshot.bindings[count - 1].slot, snapshot.values[count - 1])] else []
  }

  function Framed<V>(k: Values<V>, snapshot: Snapshot<V>, before: seq<Option<V>>, replacement: bool): Frame<V>
    requires |snapshot.values| == |snapshot.bindings|
  {
    Frame(replacement, snapshot.revision, snapshot.sequence,
          Listed(k, snapshot, before, replacement, |snapshot.values|))
  }

  predicate Readable<V>(snapshot: Option<Snapshot<V>>) {
    snapshot.Some? ==> |snapshot.value.values| == |snapshot.value.bindings|
  }

  function Sent<V>(k: Values<V>, s: Session<V>, snapshot: Option<Snapshot<V>>): Session<V>
    requires Readable(snapshot)
  {
    if snapshot.None? then s.(closed := true)
    else if !snapshot.value.sampled then s
    else
      var replacement := s.revision != snapshot.value.revision;
      var frame := Framed(k, snapshot.value, s.values, replacement);
      if !replacement && frame.entries == [] then s else s.(writing := Some((snapshot.value, frame)))
  }

  function Woken<V>(k: Values<V>, s: Session<V>, snapshot: Option<Snapshot<V>>): Session<V>
    requires Readable(snapshot)
  {
    if s.closed then s else if s.writing.Some? then s.(dirty := true) else Sent(k, s, snapshot)
  }

  function WriteCompleted<V>(k: Values<V>, s: Session<V>, ok: bool, snapshot: Option<Snapshot<V>>): Session<V>
    requires s.writing.Some? && Readable(snapshot)
  {
    if !ok then s.(writing := None, closed := true)
    else
      var written := s.(revision := s.writing.value.0.revision, values := s.writing.value.0.values, writing := None);
      if !s.closing && s.dirty then Sent(k, written.(dirty := false), snapshot)
      else written
  }

  // ---- The client ----

  type Copy<V> = map<nat, Option<V>>

  function Overlaid<V>(copy: Copy<V>, entries: seq<Entry<V>>): Copy<V> {
    if entries == [] then copy
    else Overlaid(copy, entries[..|entries| - 1])[entries[|entries| - 1].slot := entries[|entries| - 1].value]
  }

  function Receive<V>(copy: Copy<V>, frame: Frame<V>): Copy<V> {
    Overlaid(if frame.replacement then map[] else copy, frame.entries)
  }

  // ---- The session object ----

  class HalSession<V> {
    const k: Values<V>
    var revision: nat
    var values: seq<Option<V>>
    var writing: Option<(Snapshot<V>, Frame<V>)>
    var dirty: bool
    var closed: bool
    var closing: bool

    ghost function View(): Session<V>
      reads this
    {
      Session(revision, values, writing, dirty, closed, closing)
    }

    constructor (k: Values<V>)
      ensures this.k == k && View() == Opened()
    {
      this.k := k;
      revision, values, writing, dirty, closed, closing := 0, [], None, false, false, false;
    }

    method SendHal(snapshot: Option<Snapshot<V>>)
      requires Readable(snapshot)
      modifies this
      ensures View() == Sent(k, old(View()), snapshot)
    {
      if snapshot.None? {
        closed := true;
        return;
      }
      var current := snapshot.value;
      if !current.sampled {
        return;
      }
      var replacement := revision != current.revision;
      var entries: seq<Entry<V>> := [];
      for n := 0 to |current.values|
        invariant entries == Listed(k, current, values, replacement, n)
      {
        if replacement || n >= |values| || !SameValue(k, current.values[n], values[n]) {
          entries := entries + [Entry(current.bindings[n].slot, current.values[n])];
        }
      }
      if !replacement && entries == [] {
        return;
      }
      writing := Some((current, Frame(replacement, current.revision, current.sequence, entries)));
    }

    method WakeHal(snapshot: Option<Snapshot<V>>)
      requires Readable(snapshot)
      modifies this
      ensures View() == Woken(k, old(View()), snapshot)
    {
      if closed {
        return;
      }
      if writing.Some? {
        dirty := true;
        return;
      }
      SendHal(snapshot);
    }

    method OnWrite(ok: bool, snapshot: Option<Snapshot<V>>)
      requires writing.Some? && Readable(snapshot)
      modifies this
      ensures View() == WriteCompleted(k, old(View()), ok, snapshot)
    {
      var written := writing.value.0;
      writing := None;
      if !ok {
        closed := true;
        return;
      }
      revision, values := written.revision, written.values;
      if closing {
        return;
      }
      if dirty {
        dirty := false;
        SendHal(snapshot);
      }
    }
  }

  // ---- The session at work ----

  /** `posted` counts wakes on their way to the session; `shown` is the snapshot whose write last completed. */
  datatype System<!V> = System(
    world: World<V>,
    session: Session<V>,
    posted: nat,
    copy: Copy<V>,
    shown: Option<Snapshot<V>>)

  datatype Step<!V> =
    | Subscribers(step: HalSubscriptions.Step<V>)
    | Wake
    | WriteDone(ok: bool)
    | ApplicationData
    | Fail

  ghost function Accepted<V>(k: Values<V>, w: World<V>, id: string): System<V>
    requires Ready(w.t.states)
  {
    System(w, Sent(k, Opened(), Shown(w.t.states, id)), 0, map[], None)
  }

  /** Updates, published changes, claims and deletion wake the subscription's session. */
  ghost predicate Posts<V>(k: Values<V>, w: World<V>, step: HalSubscriptions.Step<V>, id: string)
    requires Ready(w.t.states)
  {
    match step
    case Update(updated, revision, items, period, now) =>
      updated == id && Acceptable(items, period) && Updated(w.t, id, revision, items, period, now).1
    case Publish(due, hal) =>
      due in w.taken && due.id == id && Publishable(k, w.t, id, due.revision, Read(k, due.bindings, hal))
    case Erase(erased) => erased == id && id in w.t.states
    case Claim(token, now) => Claimed(w.t, token, now).1 == Some(id)
    case _ => false
  }

  /** A closed session has forgotten its subscription. */
  ghost function Next<V>(k: Values<V>, y: System<V>, id: string, step: Step<V>): (after: System<V>)
    requires Ready(y.world.t.states)
    ensures Ready(after.world.t.states)
  {
    var s := y.session;
    var current := if s.closed then None else Shown(y.world.t.states, id);
    match step
    case Subscribers(step) =>
      y.(world := HalSubscriptions.Next(k, y.world, step),
         posted := y.posted + if Posts(k, y.world, step, id) then 1 else 0)
    case Wake => if y.posted == 0 then y else y.(session := Woken(k, s, current), posted := y.posted - 1)
    case WriteDone(ok) =>
      if s.writing.None? then y
      else if !ok then y.(session := WriteCompleted(k, s, ok, current))
      else y.(session := WriteCompleted(k, s, ok, current),
              copy := Receive(y.copy, s.writing.value.1), shown := Some(s.writing.value.0))
    case ApplicationData => y.(session := s.(closing := true))
    case Fail => y.(session := s.(closed := true))
  }

  ghost function Run<V>(k: Values<V>, w: World<V>, id: string, steps: seq<Step<V>>): (y: System<V>)
    requires Ready(w.t.states)
    ensures Ready(y.world.t.states)
  {
    if steps == [] then Accepted(k, w, id) else Next(k, Run(k, w, id, steps[..|steps| - 1]), id, steps[|steps| - 1])
  }

  // ---- Invariants ----

  /** The comparison need not be reflexive, as not-a-number is not. */
  ghost predicate PartialEquivalence<V(!new)>(k: Values<V>) {
    && (forall a, b :: k.same(a, b) ==> k.same(b, a))
    && (forall a, b, c :: k.same(a, b) && k.same(b, c) ==> k.same(a, c))
  }

  /** The same value, or one the comparison cannot tell apart. */
  ghost predicate Alike<V>(k: Values<V>, a: Option<V>, b: Option<V>) {
    a == b || SameValue(k, a, b)
  }

  ghost predicate AllAlike<V>(k: Values<V>, a: seq<Option<V>>, b: seq<Option<V>>) {
    |a| == |b| && forall i :: 0 <= i < |a| ==> Alike(k, a[i], b[i])
  }

  ghost predicate WellFormed<V>(snapshot: Snapshot<V>) {
    && |snapshot.values| == |snapshot.bindings|
    && forall i, j :: 0 <= i < j < |snapshot.bindings| ==> snapshot.bindings[i].slot != snapshot.bindings[j].slot
  }

  /** The copy has exactly the snapshot's slots, each with a value like the snapshot's. */
  ghost predicate Matches<V>(k: Values<V>, copy: Copy<V>, snapshot: Snapshot<V>)
    requires |snapshot.values| == |snapshot.bindings|
  {
    && (forall i :: 0 <= i < |snapshot.bindings| ==>
          snapshot.bindings[i].slot in copy && Alike(k, copy[snapshot.bindings[i].slot], snapshot.values[i]))
    && (forall slot :: slot in copy ==> exists i :: 0 <= i < |snapshot.bindings| && snapshot.bindings[i].slot == slot)
  }

  ghost predicate UpToDate<V>(k: Values<V>, shown: Option<Snapshot<V>>, current: Snapshot<V>) {
    current.sampled ==>
      shown.Some? && shown.value.revision == current.revision && AllAlike(k, shown.value.values, current.values)
  }

  /** The snapshot was taken of this subscription: at its current revision it has the current bindings. */
  ghost predicate Taken<V>(states: map<string, State<V>>, id: string, snapshot: Snapshot<V>) {
    Dated(states, Due(id, snapshot.revision, snapshot.bindings))
  }

  ghost predicate Delivered<V>(k: Values<V>, s: Session<V>, copy: Copy<V>, shown: Option<Snapshot<V>>) {
    if shown.None? then s.revision == 0
    else
      && 1 <= s.revision == shown.value.revision && s.values == shown.value.values
      && WellFormed(shown.value) && Matches(k, copy, shown.value)
  }

  ghost predicate Delivering<V>(k: Values<V>, s: Session<V>, copy: Copy<V>) {
    s.writing.Some? ==>
      && WellFormed(s.writing.value.0) && 1 <= s.writing.value.0.revision
      && Matches(k, Receive(copy, s.writing.value.1), s.writing.value.0)
  }

  /** The snapshot the client has, or will have once the write completes. */
  function Target<V>(y: System<V>): Option<Snapshot<V>> {
    if y.session.writing.Some? then Some(y.session.writing.value.0) else y.shown
  }

  /** Nothing the client does not know is forgotten: a wake is posted, or noted, or there is nothing to tell. */
  ghost predicate Attentive<V>(k: Values<V>, y: System<V>, current: Option<Snapshot<V>>) {
    !y.session.closed && !y.session.closing && current.Some? ==>
      y.posted > 0 || y.session.dirty || UpToDate(k, Target(y), current.value)
  }

  ghost predicate Consistent<V>(k: Values<V>, y: System<V>, id: string) {
    && HalSubscriptions.Sound(k, y.world) && id in y.world.used
    && Delivered(k, y.session, y.copy, y.shown) && Delivering(k, y.session, y.copy)
    && (y.session.dirty && !y.session.closed && !y.session.closing ==> y.session.writing.Some?)
    && (y.shown.Some? ==> Taken(y.world.t.states, id, y.shown.value))
    && (y.session.writing.Some? ==> Taken(y.world.t.states, id, y.session.writing.value.0))
    && Attentive(k, y, Shown(y.world.t.states, id))
  }

  // ---- Sending brings the client to the snapshot ----

  lemma AlikeChain<V(!new)>(k: Values<V>, a: Option<V>, b: Option<V>, c: Option<V>)
    requires PartialEquivalence(k) && Alike(k, a, b) && SameValue(k, c, b)
    ensures Alike(k, a, c)
  {
  }

  /** After the entries for the first `count` bindings, those are like the snapshot and the others as before. */
  ghost predicate Reached<V>(
      k: Values<V>, copy: Copy<V>, after: Copy<V>, snapshot: Snapshot<V>, before: seq<Option<V>>, replacement: bool,
      count: nat)
    requires count <= |snapshot.values| == |snapshot.bindings|
  {
    && (forall slot :: slot in after ==>
          slot in copy || exists i :: 0 <= i < count && snapshot.bindings[i].slot == slot)
    && (forall slot :: slot in copy ==> slot in after)
    && (forall i :: 0 <= i < count && Sends(k, snapshot.values, before, replacement, i) ==>
          snapshot.bindings[i].slot in after && after[snapshot.bindings[i].slot] == snapshot.values[i])
    && (forall i :: 0 <= i < |snapshot.values| && !(i < count && Sends(k, snapshot.values, before, replacement, i)) &&
                    snapshot.bindings[i].slot in copy ==>
          after[snapshot.bindings[i].slot] == copy[snapshot.bindings[i].slot])
  }

  lemma {:induction false} ListedReaches<V>(
      k: Values<V>, copy: Copy<V>, snapshot: Snapshot<V>, before: seq<Option<V>>, replacement: bool, count: nat)
    requires WellFormed(snapshot) && count <= |snapshot.values|
    ensures Reached(k, copy, Overlaid(copy, Listed(k, snapshot, before, replacement, count)),
                    snapshot, before, replacement, count)
  {
    if count > 0 {
      var n := count - 1;
      ListedReaches(k, copy, snapshot, before, replacement, n);
      hide Reached, Sends, WellFormed;
      var front := Listed(k, snapshot, before, replacement, n);
      if Sends(k, snapshot.values, before, replacement, n) {
        var last := Entry(snapshot.bindings[n].slot, snapshot.values[n]);
        assert (front + [last])[..|front|] == front;
        EntryReaches(k, copy, Overlaid(copy, front), snapshot, before, replacement, n);
      } else {
        assert front + [] == front;
        SkipReaches(k, copy, Overlaid(copy, front), snapshot, before, replacement, n);
      }
    }
  }

  lemma EntryReaches<V>(
      k: Values<V>, copy: Copy<V>, after: Copy<V>, snapshot: Snapshot<V>, before: seq<Option<V>>,
      replacement: bool, n: nat)
    requires WellFormed(snapshot) && n < |snapshot.values| && Sends(k, snapshot.values, before, replacement, n)
    requires Reached(k, copy, after, snapshot, before, replacement, n)
    ensures Reached(k, copy, after[snapshot.bindings[n].slot := snapshot.values[n]],
                    snapshot, before, replacement, n + 1)
  {
    hide Sends;
    forall i | 0 <= i < |snapshot.bindings| && i != n ensures snapshot.bindings[i].slot != snapshot.bindings[n].slot {
      var low, high := if i < n then i else n, if i < n then n else i;
      assert snapshot.bindings[low].slot != snapshot.bindings[high].slot;
    }
    var more := after[snapshot.bindings[n].slot := snapshot.values[n]];
    forall slot | slot in more
      ensures slot in copy || exists i :: 0 <= i < n + 1 && snapshot.bindings[i].slot == slot
    {
      if slot !in copy && slot != snapshot.bindings[n].slot {
        var i :| 0 <= i < n && snapshot.bindings[i].slot == slot;
        assert i < n + 1;
      } else {
        assert slot in copy || snapshot.bindings[n].slot == slot;
      }
    }
  }

  lemma SkipReaches<V>(
      k: Values<V>, copy: Copy<V>, after: Copy<V>, snapshot: Snapshot<V>, before: seq<Option<V>>,
      replacement: bool, n: nat)
    requires WellFormed(snapshot) && n < |snapshot.values| && !Sends(k, snapshot.values, before, replacement, n)
    requires Reached(k, copy, after, snapshot, before, replacement, n)
    ensures Reached(k, copy, after, snapshot, before, replacement, n + 1)
  {
    hide Sends;
    forall slot | slot in after && slot !in copy
      ensures exists i :: 0 <= i < n + 1 && snapshot.bindings[i].slot == slot
    {
      var i :| 0 <= i < n && snapshot.bindings[i].slot == slot;
      assert i < n + 1;
    }
  }

  lemma ReplacementMatches<V>(k: Values<V>, copy: Copy<V>, snapshot: Snapshot<V>, before: seq<Option<V>>)
    requires WellFormed(snapshot)
    ensures Matches(k, Receive(copy, Framed(k, snapshot, before, true)), snapshot)
  {
    ListedReaches(k, map[], snapshot, before, true, |snapshot.values|);
  }

  lemma DeltaMatches<V(!new)>(k: Values<V>, copy: Copy<V>, shown: Snapshot<V>, snapshot: Snapshot<V>)
    requires PartialEquivalence(k) && WellFormed(snapshot) && WellFormed(shown) && shown.bindings == snapshot.bindings
    requires Matches(k, copy, shown)
    ensures Matches(k, Receive(copy, Framed(k, snapshot, shown.values, false)), snapshot)
  {
    var after := Receive(copy, Framed(k, snapshot, shown.values, false));
    ListedReaches(k, copy, snapshot, shown.values, false, |snapshot.values|);
    forall i | 0 <= i < |snapshot.bindings| ensures Alike(k, after[snapshot.bindings[i].slot], snapshot.values[i]) {
      if !Sends(k, snapshot.values, shown.values, false, i) {
        AlikeChain(k, copy[snapshot.bindings[i].slot], shown.values[i], snapshot.values[i]);
      }
    }
  }

  lemma {:induction false} NothingListed<V>(k: Values<V>, snapshot: Snapshot<V>, before: seq<Option<V>>, count: nat)
    requires count <= |snapshot.values| == |snapshot.bindings| && Listed(k, snapshot, before, false, count) == []
    ensures forall i :: 0 <= i < count ==> !Sends(k, snapshot.values, before, false, i)
  {
    if count > 0 {
      NothingListed(k, snapshot, before, count - 1);
    }
  }

  lemma SentDelivers<V(!new)>(
      k: Values<V>, s: Session<V>, copy: Copy<V>, shown: Option<Snapshot<V>>, snapshot: Snapshot<V>)
    requires PartialEquivalence(k) && WellFormed(snapshot) && 1 <= snapshot.revision
    requires Delivered(k, s, copy, shown) && s.writing.None?
    requires shown.Some? && shown.value.revision == snapshot.revision ==> shown.value.bindings == snapshot.bindings
    ensures var after := Sent(k, s, Some(snapshot));
            && Delivered(k, after, copy, shown) && Delivering(k, after, copy)
            && (after.writing.Some? ==> after.writing.value.0 == snapshot)
            && (after.writing.None? ==> UpToDate(k, shown, snapshot))
            && after == s.(writing := after.writing)
  {
    hide Matches, Framed, Listed;
    if snapshot.sampled {
      if s.revision != snapshot.revision {
        ReplacementMatches(k, copy, snapshot, s.values);
      } else {
        DeltaMatches(k, copy, shown.value, snapshot);
        SkippedMeansCurrent(k, snapshot, s.values);
      }
    }
  }

  lemma SkippedMeansCurrent<V(!new)>(k: Values<V>, snapshot: Snapshot<V>, before: seq<Option<V>>)
    requires |before| == |snapshot.values| == |snapshot.bindings|
    requires PartialEquivalence(k)
    ensures Framed(k, snapshot, before, false).entries == [] ==> AllAlike(k, before, snapshot.values)
  {
    if Framed(k, snapshot, before, false).entries == [] {
      NothingListed(k, snapshot, before, |snapshot.values|);
      forall i | 0 <= i < |before| ensures Alike(k, before[i], snapshot.values[i]) {
        assert !Sends(k, snapshot.values, before, false, i);
        AlikeChain(k, before[i], before[i], snapshot.values[i]);
      }
    }
  }

  // ---- Steps ----

  lemma StateWellFormed<V>(k: Values<V>, w: World<V>, id: string)
    requires HalSubscriptions.Sound(k, w) && id in w.t.states
    ensures WellFormed(SnapshotOf(w.t.states[id])) && 1 <= w.t.states[id].revision
  {
    assert StateValid(k, w.t.states[id], w.readings);
  }

  /** Reading the current snapshot and sending it leaves nothing to tell. */
  lemma SendKeeps<V(!new)>(k: Values<V>, y: System<V>, id: string)
    requires PartialEquivalence(k) && HalSubscriptions.Sound(k, y.world) && id in y.world.used
    requires Delivered(k, y.session, y.copy, y.shown) && y.session.writing.None?
    requires y.session.dirty ==> y.session.closing
    requires y.shown.Some? ==> Taken(y.world.t.states, id, y.shown.value)
    ensures Consistent(k, y.(session := Sent(k, y.session, Shown(y.world.t.states, id))), id)
  {
    var states := y.world.t.states;
    if id in states {
      StateWellFormed(k, y.world, id);
      hide HalSubscriptions.Sound, Sent, WellFormed, Delivered, Delivering, UpToDate;
      SentDelivers(k, y.session, y.copy, y.shown, SnapshotOf(states[id]));
    } else {
      hide HalSubscriptions.Sound, Matches;
    }
  }

  lemma WakeKeeps<V(!new)>(k: Values<V>, y: System<V>, id: string)
    requires PartialEquivalence(k) && Consistent(k, y, id)
    ensures Consistent(k, Next(k, y, id, Wake), id)
  {
    if y.posted > 0 && !y.session.closed && y.session.writing.None? {
      SendKeeps(k, y.(posted := y.posted - 1), id);
    }
  }

  lemma SentNothing<V>(k: Values<V>, s: Session<V>)
    ensures Sent(k, s, None) == s.(closed := true)
  {
  }

  lemma WriteDoneKeeps<V(!new)>(k: Values<V>, y: System<V>, id: string, ok: bool)
    requires PartialEquivalence(k) && Consistent(k, y, id)
    ensures Consistent(k, Next(k, y, id, WriteDone(ok)), id)
  {
    var s := y.session;
    hide HalSubscriptions.Sound, Matches, WellFormed, UpToDate, Sent, HalSubscriptions.Next, Shown, Taken;
    if s.writing.Some? && ok {
      var (snapshot, frame) := s.writing.value;
      var written := s.(revision := snapshot.revision, values := snapshot.values, writing := None);
      var copy := Receive(y.copy, frame);
      hide Receive;
      assert Delivered(k, written, copy, Some(snapshot));
      if s.closed {
        SentNothing(k, written.(dirty := false));
      } else if !s.closing && s.dirty {
        SendKeeps(k, y.(session := written.(dirty := false), copy := copy, shown := Some(snapshot)), id);
      }
    }
  }

  /** A snapshot that belonged to the subscription still does. */
  lemma TakenStays<V>(k: Values<V>, w: World<V>, step: HalSubscriptions.Step<V>, id: string, snapshot: Snapshot<V>)
    requires HalSubscriptions.Sound(k, w) && id in w.used && Taken(w.t.states, id, snapshot)
    ensures Taken(HalSubscriptions.Next(k, w, step).t.states, id, snapshot)
  {
    var due := Due(id, snapshot.revision, snapshot.bindings);
    if step.Publish? && step.due !in w.taken {
      assert HalSubscriptions.Next(k, w, step) == w;
    } else {
      var watched := w.(taken := w.taken + {due});
      assert HalSubscriptions.Sound(k, watched);
      HalSubscriptions.NextKeeps(k, watched, step);
      SameTelemetry(k, w, watched, step);
      TakenGrows(k, watched, step);
      hide HalSubscriptions.Next;
      assert due in HalSubscriptions.Next(k, watched, step).taken;
    }
  }

  lemma TakenGrows<V>(k: Values<V>, w: World<V>, step: HalSubscriptions.Step<V>)
    requires Ready(w.t.states)
    ensures w.taken <= HalSubscriptions.Next(k, w, step).taken
  {
  }

  lemma SameTelemetry<V>(k: Values<V>, w: World<V>, watched: World<V>, step: HalSubscriptions.Step<V>)
    requires Ready(w.t.states) && watched == w.(taken := watched.taken) && w.taken <= watched.taken
    requires step.Publish? ==> step.due in w.taken
    ensures HalSubscriptions.Next(k, watched, step).t == HalSubscriptions.Next(k, w, step).t
  {
  }

  lemma QuietSteps<V>(k: Values<V>, w: World<V>, step: HalSubscriptions.Step<V>, id: string)
    requires HalSubscriptions.Sound(k, w) && id in w.used && !Posts(k, w, step, id)
    requires Shown(HalSubscriptions.Next(k, w, step).t.states, id).Some?
    ensures Shown(HalSubscriptions.Next(k, w, step).t.states, id) == Shown(w.t.states, id)
  {
    hide Affords, StatesValid, Affordable, DueNow;
  }

  lemma TelemetryKeeps<V>(k: Values<V>, y: System<V>, id: string, step: HalSubscriptions.Step<V>)
    requires Consistent(k, y, id)
    ensures Consistent(k, Next(k, y, id, Subscribers(step)), id)
  {
    hide HalSubscriptions.Sound, HalSubscriptions.Next, Delivered, Delivering, UpToDate, Taken, Posts;
    SoundReady(k, y.world);
    HalSubscriptions.NextKeeps(k, y.world, step);
    UsedGrows(k, y.world, step);
    if y.shown.Some? {
      TakenStays(k, y.world, step, id, y.shown.value);
    }
    if y.session.writing.Some? {
      TakenStays(k, y.world, step, id, y.session.writing.value.0);
    }
    if !Posts(k, y.world, step, id) && Shown(HalSubscriptions.Next(k, y.world, step).t.states, id).Some? {
      QuietSteps(k, y.world, step, id);
    }
  }

  lemma UsedGrows<V>(k: Values<V>, w: World<V>, step: HalSubscriptions.Step<V>)
    requires Ready(w.t.states)
    ensures w.used <= HalSubscriptions.Next(k, w, step).used
  {
  }

  lemma NextKeeps<V(!new)>(k: Values<V>, y: System<V>, id: string, step: Step<V>)
    requires PartialEquivalence(k) && Consistent(k, y, id)
    ensures Consistent(k, Next(k, y, id, step), id)
  {
    match step
    case Subscribers(step) => TelemetryKeeps(k, y, id, step);
    case Wake => WakeKeeps(k, y, id);
    case WriteDone(ok) => WriteDoneKeeps(k, y, id, ok);
    case ApplicationData =>
    case Fail =>
  }

  lemma {:induction false} RunKeeps<V(!new)>(k: Values<V>, w: World<V>, id: string, steps: seq<Step<V>>)
    requires PartialEquivalence(k) && HalSubscriptions.Sound(k, w) && id in w.used
    ensures Consistent(k, Run(k, w, id, steps), id)
  {
    if steps == [] {
      SendKeeps(k, System(w, Opened(), 0, map[], None), id);
    } else {
      RunKeeps(k, w, id, steps[..|steps| - 1]);
      NextKeeps(k, Run(k, w, id, steps[..|steps| - 1]), id, steps[|steps| - 1]);
    }
  }

  // ---- Results ----

  /** Over every run, after each completed write the client's slots are those of the snapshot that was sent, with its
      values, whether the frame replaced them all or listed changes. */
  lemma EveryWriteMatches<V(!new)>(k: Values<V>, w: World<V>, id: string, steps: seq<Step<V>>)
    requires PartialEquivalence(k) && HalSubscriptions.Sound(k, w) && id in w.used
    requires Run(k, w, id, steps).session.writing.Some?
    ensures var y := Run(k, w, id, steps);
            var after := Next(k, y, id, WriteDone(true));
            && after.shown == Some(y.session.writing.value.0)
            && |after.shown.value.values| == |after.shown.value.bindings|
            && Matches(k, after.copy, after.shown.value)
  {
    RunKeeps(k, w, id, steps);
  }

  /** Over every run, once no wake is on its way and no write is in progress, the client's slots are those of the
      subscription with the values last published: no wake that met a write was lost. */
  lemma QuietMeansCurrent<V(!new)>(k: Values<V>, w: World<V>, id: string, steps: seq<Step<V>>)
    requires PartialEquivalence(k) && HalSubscriptions.Sound(k, w) && id in w.used
    ensures var y := Run(k, w, id, steps);
            var states := y.world.t.states;
            && y.posted == 0 && y.session.writing.None? && !y.session.closed && !y.session.closing
            && id in states && states[id].sampled ==>
              |states[id].values| == |states[id].bindings| && Matches(k, y.copy, SnapshotOf(states[id]))
  {
    RunKeeps(k, w, id, steps);
    var y := Run(k, w, id, steps);
    var states := y.world.t.states;
    if
      && y.posted == 0 && y.session.writing.None? && !y.session.closed && !y.session.closing
      && id in states && states[id].sampled
    {
      StateWellFormed(k, y.world, id);
      hide Run, HalSubscriptions.Sound;
      MatchesAlike(k, y.copy, y.shown.value, SnapshotOf(states[id]));
    }
  }

  lemma MatchesAlike<V(!new)>(k: Values<V>, copy: Copy<V>, shown: Snapshot<V>, current: Snapshot<V>)
    requires PartialEquivalence(k) && WellFormed(shown) && WellFormed(current) && Matches(k, copy, shown)
    requires shown.bindings == current.bindings && AllAlike(k, shown.values, current.values)
    ensures Matches(k, copy, current)
  {
    forall i | 0 <= i < |current.bindings| ensures Alike(k, copy[current.bindings[i].slot], current.values[i]) {
      assert Alike(k, copy[shown.bindings[i].slot], shown.values[i]) && Alike(k, shown.values[i], current.values[i]);
      if shown.values[i] != current.values[i] {
        AlikeChain(k, copy[current.bindings[i].slot], shown.values[i], current.values[i]);
      }
    }
  }

  /** Over every run, publishing a sample wakes the subscription's session if and only if it is for the current
      revision and says something new; what it read is then what the subscription holds. */
  lemma NewsWakesTheSession<V(!new)>(
      k: Values<V>, capacity: nat, ttl: nat, before: seq<HalSubscriptions.Step<V>>, id: string, steps: seq<Step<V>>,
      due: Due, hal: Reading<V>)
    requires var w := HalSubscriptions.Run(k, HalSubscriptions.Start(capacity, ttl), before);
             && PartialEquivalence(k) && id in w.used
             && due in Run(k, w, id, steps).world.taken && due.id == id
    ensures var y := Run(k, HalSubscriptions.Run(k, HalSubscriptions.Start(capacity, ttl), before), id, steps);
            var after := Next(k, y, id, Subscribers(Publish(due, hal)));
            var states := y.world.t.states;
            && (id in states ==> |states[id].bindings| == |states[id].values|)
            && after.posted ==
                 y.posted +
                 if id in states && states[id].revision == due.revision && HalPromises.News(k, states[id], hal) then 1
                 else 0
  {
    HalSubscriptions.StartSound(k, capacity, ttl);
    HalSubscriptions.RunKeeps(k, HalSubscriptions.Start(capacity, ttl), before);
    var w := HalSubscriptions.Run(k, HalSubscriptions.Start(capacity, ttl), before);
    RunKeeps(k, w, id, steps);
    var y := Run(k, w, id, steps);
    hide Run, HalSubscriptions.Run, Affords, StatesValid, HalSubscriptions.Next;
    if id in y.world.t.states {
      assert Dated(y.world.t.states, due);
      HalPromises.NewsMeansDifferent(k, y.world.t.states[id], hal);
    }
    hide HalPromises.News, Read, SameValues;
  }

  /** The step makes the session read its subscription. */
  predicate Looks<V>(y: System<V>, step: Step<V>) {
    match step
    case Wake => y.posted > 0 && y.session.writing.None?
    case WriteDone(ok) => ok && y.session.writing.Some? && y.session.dirty && !y.session.closing
    case _ => false
  }

  /** Over every run, a step closes an open session exactly if it fails, its write fails, or it finds its subscription
      gone; after a write, however it went, that write is over. */
  lemma SessionClosesForAReason<V(!new)>(k: Values<V>, w: World<V>, id: string, steps: seq<Step<V>>, step: Step<V>)
    requires Ready(w.t.states)
    ensures var y := Run(k, w, id, steps);
            var after := Next(k, y, id, step).session;
            && (!y.session.closed ==>
                  (after.closed <==>
                     || step.Fail?
                     || (step == WriteDone(false) && y.session.writing.Some?)
                     || (Looks(y, step) && id !in y.world.t.states)))
            && (step == WriteDone(false) ==> after.writing.None?)
  {
    var y := Run(k, w, id, steps);
    hide Run, Framed, HalSubscriptions.Next, Posts;
  }
}
