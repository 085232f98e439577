/** One remote HAL component held by the server: its items, their HAL values, and what a client may do to them. */
module ComponentProxy {
  import opened Options
  import opened ComponentMessages

  const ONLINE: string := "online"

  datatype Direction = In | Out | Io | ReadOnly | ReadWrite

  /** `previous` is the value last sent to the client and `slot` the item's place in the allocation slab. */
  datatype Item = Item(
    suffix: string,
    kind: ItemKind,
    halType: HalType,
    direction: Direction,
    fullName: string,
    clientWritable: bool,
    serverReadable: bool,
    disconnect: Option<HalValue>,
    previous: Option<HalValue>,
    slot: nat)
  {
    function Ref(): ItemRef {
      ItemRef(kind, fullName)
    }
  }

  /** `values` are the live HAL values by item suffix. */
  datatype Proxy = Proxy(
    name: string,
    prefix: string,
    token: string,
    items: seq<Item>,
    values: map<string, HalValue>,
    samplingPeriod: nat,
    nextSample: int,
    lastHeartbeat: int,
    generation: nat,
    clientSequence: nat,
    serverSequence: nat,
    attached: bool,
    active: bool)

  datatype Error = NotOwned | Duplicate | WrongType | Incomplete

  datatype Outcome<T> = Okay(value: T) | Wrong(error: Error)

  /** A client's wish to set an item; the value is missing when its encoding was malformed. */
  datatype Update = Update(item: ItemRef, value: Option<HalValue>)

  /** An accepted update, by item position. */
  datatype Assignment = Assignment(index: nat, value: HalValue)

  // ---- HAL access ----

  predicate Writable(item: Item, value: HalValue) {
    item.halType == TypeOf(value) && item.direction != In
  }

  /** The position of the item with this suffix, or the length when there is none. */
  function Locate(items: seq<Item>, suffix: string): (r: nat)
    ensures r <= |items|
    ensures r < |items| ==> items[r].suffix == suffix
    ensures forall i :: 0 <= i < r ==> items[i].suffix != suffix
  {
    if items == [] || items[0].suffix == suffix then 0 else 1 + Locate(items[1..], suffix)
  }

  /** A write to an unknown item, with another type, or to an input is refused. */
  function Written(p: Proxy, suffix: string, value: HalValue): Proxy {
    var at := Locate(p.items, suffix);
    if at < |p.items| && Writable(p.items[at], value) then p.(values := p.values[suffix := value]) else p
  }

  predicate WriteSucceeds(p: Proxy, suffix: string, value: HalValue) {
    var at := Locate(p.items, suffix);
    at < |p.items| && Writable(p.items[at], value)
  }

  function Read(p: Proxy, suffix: string): Option<HalValue> {
    if suffix in p.values then Some(p.values[suffix]) else None
  }

  // ---- Client updates ----

  function Stripped(name: string, prefix: string): string {
    if prefix <= name then name[|prefix|..] else name
  }

  /** An item goes by its own name or by that name after its component's prefix. */
  lemma EitherNameWillDo(suffix: string, prefix: string)
    ensures Stripped(prefix + suffix, prefix) == suffix
    ensures !(prefix <= suffix) ==> Stripped(suffix, prefix) == suffix
  {
    var name := prefix + suffix;
    assert prefix <= name && name[|prefix|..] == suffix;
  }

  function FindItem(items: seq<Item>, prefix: string, item: ItemRef): (r: nat)
    ensures r <= |items|
    ensures r < |items| ==> items[r].suffix == Stripped(item.name, prefix + ".") && items[r].kind == item.kind
  {
    if items == [] || (items[0].suffix == Stripped(item.name, prefix + ".") && items[0].kind == item.kind) then 0
    else 1 + FindItem(items[1..], prefix, item)
  }

  predicate Targets(assignments: seq<Assignment>, index: nat) {
    exists i :: 0 <= i < |assignments| && assignments[i].index == index
  }

  /** Judge the next update, given those accepted before it. */
  function Judged(p: Proxy, accepted: seq<Assignment>, update: Update): Outcome<seq<Assignment>> {
    var at := FindItem(p.items, p.prefix, update.item);
    if at == |p.items| || !p.items[at].clientWritable then Wrong(NotOwned)
    else if Targets(accepted, at) then Wrong(Duplicate)
    else if update.value.None? || TypeOf(update.value.value) != p.items[at].halType then Wrong(WrongType)
    else Okay(accepted + [Assignment(at, update.value.value)])
  }

  function Accepted(p: Proxy, updates: seq<Update>): Outcome<seq<Assignment>> {
    if updates == [] then Okay([])
    else
      var before := Accepted(p, updates[..|updates| - 1]);
      if before.Wrong? then before else Judged(p, before.value, updates[|updates| - 1])
  }

  function CountWritable(items: seq<Item>): (r: nat)
    ensures r <= |items|
  {
    if items == [] then 0
    else CountWritable(items[..|items| - 1]) + if items[|items| - 1].clientWritable then 1 else 0
  }

  function Decoded(p: Proxy, updates: seq<Update>, complete: bool): Outcome<seq<Assignment>> {
    var accepted := Accepted(p, updates);
    if accepted.Okay? && complete && |accepted.value| != CountWritable(p.items) then Wrong(Incomplete)
    else accepted
  }

  /** The HAL values after the accepted updates. */
  function Assigned(p: Proxy, assignments: seq<Assignment>): Proxy {
    if assignments == [] then p
    else
      var last := assignments[|assignments| - 1];
      var before := Assigned(p, assignments[..|assignments| - 1]);
      if last.index < |p.items| then Written(before, p.items[last.index].suffix, last.value) else before
  }

  // ---- Disconnecting ----

  /** The disconnect values of the first `count` items, written in order. */
  function Parked(p: Proxy, count: nat): Proxy
    requires count <= |p.items|
  {
    if count == 0 then p
    else
      var before := Parked(p, count - 1);
      var item := p.items[count - 1];
      if item.disconnect.Some? then Written(before, item.suffix, item.disconnect.value) else before
  }

  function Disconnected(p: Proxy): Proxy {
    var offline := Written(p, ONLINE, BitValue(false)).(active := false);
    Parked(offline, |p.items|)
  }

  function Dropped(p: Proxy): Proxy {
    Disconnected(p).(attached := false)
  }

  // ---- Values towards the client ----

  /** Remember and list the values of the first `count` items. */
  function SnapshotItems(items: seq<Item>, values: map<string, HalValue>): (seq<Item>, seq<ComponentValue>) {
    if items == [] then ([], [])
    else
      var n := |items| - 1;
      var (kept, listed) := SnapshotItems(items[..n], values);
      var item := items[n];
      if item.suffix !in values then (kept + [item], listed)
      else (kept + [item.(previous := Some(values[item.suffix]))],
            listed + [ComponentValue(item.Ref(), values[item.suffix])])
  }

  predicate Changed(item: Item, values: map<string, HalValue>) {
    && item.serverReadable
    && item.suffix in values
    && item.previous != Some(values[item.suffix])
  }

  /** Remember and list the readable values that changed since they were last sent. */
  function SampleItems(items: seq<Item>, values: map<string, HalValue>): (seq<Item>, seq<ComponentValue>) {
    if items == [] then ([], [])
    else
      var n := |items| - 1;
      var (kept, listed) := SampleItems(items[..n], values);
      var item := items[n];
      if !Changed(item, values) then (kept + [item], listed)
      else (kept + [item.(previous := Some(values[item.suffix]))],
            listed + [ComponentValue(item.Ref(), values[item.suffix])])
  }

  predicate Expired(p: Proxy, now: int, timeout: nat) {
    p.attached && now - p.lastHeartbeat >= timeout
  }

  predicate Due(p: Proxy, now: int, timeout: nat) {
    p.attached && !Expired(p, now, timeout) && p.active && now >= p.nextSample
  }

  /** One sampling round for this proxy, with the delta offered to its stream. */
  function Sampled(p: Proxy, now: int, timeout: nat): (Proxy, Option<ServerMessage>) {
    if Expired(p, now, timeout) then (Dropped(p), None)
    else if !Due(p, now, timeout) then (p, None)
    else
      var (items, listed) := SampleItems(p.items, p.values);
      var scanned := p.(items := items, nextSample := now + p.samplingPeriod);
      if listed == [] then (scanned, None)
      else (scanned.(serverSequence := p.serverSequence + 1),
            Some(Delta(p.generation, p.serverSequence + 1, listed)))
  }

  // ---- Invariant ----

  predicate ItemsValid(prefix: string, items: seq<Item>) {
    && (forall i, j :: 0 <= i < j < |items| ==> items[i].suffix != items[j].suffix)
    && (forall i :: 0 <= i < |items| ==> items[i].fullName == prefix + "." + items[i].suffix)
    && (forall i :: 0 <= i < |items| ==>
          && (items[i].clientWritable ==> items[i].direction != In)
          && (items[i].disconnect.Some? ==> Writable(items[i], items[i].disconnect.value)))
    && (forall i :: 0 <= i < |items| && items[i].suffix == ONLINE ==>
          && items[i].halType == Bit && items[i].direction == Out
          && !items[i].clientWritable && items[i].disconnect.None?)
    && Locate(items, ONLINE) < |items|
  }

  predicate ValuesValid(items: seq<Item>, values: map<string, HalValue>) {
    forall i :: 0 <= i < |items| ==> items[i].suffix in values && TypeOf(values[items[i].suffix]) == items[i].halType
  }

  /** Active implies attached, and the online pin always tells whether the component is active. */
  predicate Valid(p: Proxy) {
    && ItemsValid(p.prefix, p.items)
    && ValuesValid(p.items, p.values)
    && p.values[ONLINE] == BitValue(p.active)
    && (p.active ==> p.attached)
  }

  // ---- Writes ----

  predicate Sound(p: Proxy) {
    ItemsValid(p.prefix, p.items) && ValuesValid(p.items, p.values)
  }

  lemma LocateAt(prefix: string, items: seq<Item>, i: nat)
    requires ItemsValid(prefix, items) && i < |items|
    ensures Locate(items, items[i].suffix) == i
  {
  }

  /** A permitted write changes the value of one item and nothing else. */
  lemma WrittenAt(p: Proxy, i: nat, value: HalValue)
    requires Sound(p) && i < |p.items| && Writable(p.items[i], value)
    ensures WriteSucceeds(p, p.items[i].suffix, value)
    ensures var q := Written(p, p.items[i].suffix, value);
            && q == p.(values := p.values[p.items[i].suffix := value])
            && Sound(q)
            && forall k :: 0 <= k < |p.items| && k != i ==> q.values[p.items[k].suffix] == p.values[p.items[k].suffix]
  {
    LocateAt(p.prefix, p.items, i);
  }

  /** The accepted updates, one for one: known, client-owned, of the item's own type, and no item twice. */
  ghost predicate Proper(p: Proxy, assignments: seq<Assignment>) {
    && (forall i :: 0 <= i < |assignments| ==>
          && assignments[i].index < |p.items|
          && p.items[assignments[i].index].clientWritable
          && p.items[assignments[i].index].halType == TypeOf(assignments[i].value))
    && (forall i, j :: 0 <= i < j < |assignments| ==> assignments[i].index != assignments[j].index)
  }

  lemma {:induction false} AcceptedProper(p: Proxy, updates: seq<Update>)
    requires Accepted(p, updates).Okay?
    ensures var assignments := Accepted(p, updates).value;
            && Proper(p, assignments)
            && |assignments| == |updates|
            && forall i :: 0 <= i < |updates| ==> Carries(p, updates[i], assignments[i])
  {
    if updates != [] {
      hide Proper, Judged, Carries;
      var front, last := updates[..|updates| - 1], updates[|updates| - 1];
      AcceptedProper(p, front);
      JudgedProper(p, Accepted(p, front).value, last);
    }
  }

  /** The assignment is what the update asks for. */
  predicate Carries(p: Proxy, update: Update, assignment: Assignment) {
    && update.value == Some(assignment.value)
    && assignment.index == FindItem(p.items, p.prefix, update.item)
  }

  lemma JudgedProper(p: Proxy, accepted: seq<Assignment>, update: Update)
    requires Proper(p, accepted) && Judged(p, accepted, update).Okay?
    ensures var all := Judged(p, accepted, update).value;
            && Proper(p, all) && |all| == |accepted| + 1 && all[..|accepted|] == accepted
            && Carries(p, update, all[|accepted|])
  {
    var at := FindItem(p.items, p.prefix, update.item);
    assert forall i :: 0 <= i < |accepted| ==> accepted[i].index != at;
  }

  /** What a proper list of assignments does: each listed item takes its value and every other value, the items and
      the bookkeeping stay as they were. */
  ghost predicate Changes(p: Proxy, q: Proxy, assignments: seq<Assignment>)
    requires Sound(p)
  {
    && q == p.(values := q.values)
    && Sound(q) && q.items == p.items
    && (forall i :: 0 <= i < |assignments| ==>
          assignments[i].index < |p.items| && q.values[p.items[assignments[i].index].suffix] == assignments[i].value)
    && (forall k :: 0 <= k < |p.items| && !Targets(assignments, k) ==>
          q.values[p.items[k].suffix] == p.values[p.items[k].suffix])
  }

  lemma ChangesExtend(p: Proxy, before: Proxy, front: seq<Assignment>, last: Assignment)
    requires Sound(p) && Proper(p, front + [last]) && last.index < |p.items| && Changes(p, before, front)
    ensures Changes(p, Written(before, p.items[last.index].suffix, last.value), front + [last])
  {
    var all := front + [last];
    assert all[|front|] == last;
    WrittenAt(before, last.index, last.value);
    forall i | 0 <= i < |front| ensures all[i] == front[i] && front[i].index != last.index {
      assert all[i] == front[i];
    }
    forall k | 0 <= k < |p.items| && !Targets(all, k) ensures !Targets(front, k) && k != last.index {
      assert all[|front|].index != k;
      assert forall i :: 0 <= i < |front| ==> all[i].index == front[i].index;
    }
  }

  lemma ProperFront(p: Proxy, assignments: seq<Assignment>, n: nat)
    requires Proper(p, assignments) && n <= |assignments|
    ensures Proper(p, assignments[..n])
    ensures n < |assignments| ==> assignments[n].index < |p.items|
  {
    assert forall i :: 0 <= i < n ==> assignments[..n][i] == assignments[i];
  }

  lemma ChangesNothing(p: Proxy)
    requires Sound(p)
    ensures Changes(p, p, [])
  {
  }

  lemma {:induction false} AssignedExactly(p: Proxy, assignments: seq<Assignment>)
    requires Sound(p) && Proper(p, assignments)
    ensures Changes(p, Assigned(p, assignments), assignments)
  {
    hide Changes, Sound, Proper, Written;
    if assignments == [] {
      ChangesNothing(p);
    } else {
      var n := |assignments| - 1;
      ProperFront(p, assignments, n);
      AssignedExactly(p, assignments[..n]);
      assert assignments == assignments[..n] + [assignments[n]];
      ChangesExtend(p, Assigned(p, assignments[..n]), assignments[..n], assignments[n]);
    }
  }

  ghost function WritableIndices(items: seq<Item>): set<nat> {
    set i | 0 <= i < |items| && items[i].clientWritable
  }

  lemma {:induction false} CountWritableIsCardinality(items: seq<Item>)
    ensures |WritableIndices(items)| == CountWritable(items)
  {
    if items != [] {
      var n := |items| - 1;
      CountWritableIsCardinality(items[..n]);
      var rest := if items[n].clientWritable then {n} else {};
      assert WritableIndices(items) == WritableIndices(items[..n]) + rest;
    }
  }

  ghost function Indices(assignments: seq<Assignment>): set<nat> {
    set i | 0 <= i < |assignments| :: assignments[i].index
  }

  lemma IndicesMore(front: seq<Assignment>, last: Assignment)
    ensures Indices(front + [last]) == Indices(front) + {last.index}
  {
    var all := front + [last];
    assert all[|front|] == last;
    assert forall i :: 0 <= i < |front| ==> all[i] == front[i];
  }

  lemma ProperLast(p: Proxy, front: seq<Assignment>, last: Assignment)
    requires Proper(p, front + [last])
    ensures last.index !in Indices(front) && last.index in WritableIndices(p.items)
  {
    var all := front + [last];
    assert all[|front|] == last;
    assert forall i :: 0 <= i < |front| ==> all[i] == front[i];
  }

  lemma {:induction false} IndicesCount(p: Proxy, assignments: seq<Assignment>)
    requires Proper(p, assignments)
    ensures |Indices(assignments)| == |assignments|
    ensures Indices(assignments) <= WritableIndices(p.items)
  {
    if assignments != [] {
      hide Proper, Indices, WritableIndices;
      var n := |assignments| - 1;
      ProperFront(p, assignments, n);
      IndicesCount(p, assignments[..n]);
      assert assignments == assignments[..n] + [assignments[n]];
      IndicesMore(assignments[..n], assignments[n]);
      ProperLast(p, assignments[..n], assignments[n]);
    }
  }

  lemma {:induction false} SubsetOfEqualSize(a: set<nat>, b: set<nat>)
    requires a <= b && |a| == |b|
    ensures a == b
  {
    if a != b {
      var k :| k in b && k !in a;
      assert a <= b - {k};
      SubsetSize(a, b - {k});
    }
  }

  lemma {:induction false} SubsetSize(a: set<nat>, b: set<nat>)
    requires a <= b
    ensures |a| <= |b|
  {
    if a != {} {
      var k :| k in a;
      SubsetSize(a - {k}, b - {k});
    }
  }

  /** A complete set of updates, as activation requires, targets every item the client owns. */
  lemma CompleteTargetsAll(p: Proxy, updates: seq<Update>)
    requires Decoded(p, updates, true).Okay?
    ensures forall k :: 0 <= k < |p.items| && p.items[k].clientWritable ==> Targets(Decoded(p, updates, true).value, k)
  {
    var assignments := Decoded(p, updates, true).value;
    AcceptedProper(p, updates);
    CountWritableIsCardinality(p.items);
    IndicesCount(p, assignments);
    SubsetOfEqualSize(Indices(assignments), WritableIndices(p.items));
    forall k | 0 <= k < |p.items| && p.items[k].clientWritable ensures Targets(assignments, k) {
      assert k in WritableIndices(p.items);
    }
  }

  // ---- Disconnecting ----

  /** The first `count` items hold their disconnect values, where they have one; everything else is as in `p`. */
  ghost predicate ParkedTo(p: Proxy, q: Proxy, count: nat)
    requires Sound(p)
  {
    && q == p.(values := q.values) && Sound(q) && q.items == p.items
    && (forall i :: 0 <= i < |p.items| ==>
          q.values[p.items[i].suffix] ==
          if i < count && p.items[i].disconnect.Some? then p.items[i].disconnect.value
          else p.values[p.items[i].suffix])
  }

  lemma ParkedStep(p: Proxy, before: Proxy, count: nat)
    requires Sound(p) && count < |p.items| && ParkedTo(p, before, count) && p.items[count].disconnect.Some?
    ensures ParkedTo(p, Written(before, p.items[count].suffix, p.items[count].disconnect.value), count + 1)
  {
    WrittenAt(before, count, p.items[count].disconnect.value);
  }

  lemma {:induction false} ParkedExactly(p: Proxy, count: nat)
    requires Sound(p) && count <= |p.items|
    ensures ParkedTo(p, Parked(p, count), count)
  {
    if count > 0 {
      ParkedExactly(p, count - 1);
      if p.items[count - 1].disconnect.Some? {
        ParkedStep(p, Parked(p, count - 1), count - 1);
      }
    }
  }

  /** A disconnect takes the component offline and gives every item its disconnect value, leaving the others alone. */
  lemma DisconnectedExactly(p: Proxy)
    requires Sound(p)
    ensures var q := Disconnected(p);
            && q == p.(values := q.values, active := false) && Sound(q)
            && q.values[ONLINE] == BitValue(false)
            && (forall i :: 0 <= i < |p.items| && p.items[i].suffix != ONLINE ==>
                  q.values[p.items[i].suffix] == p.items[i].disconnect.ValueOr(p.values[p.items[i].suffix]))
  {
    WrittenAt(p, Locate(p.items, ONLINE), BitValue(false));
    var offline := Written(p, ONLINE, BitValue(false)).(active := false);
    ParkedExactly(offline, |p.items|);
  }

  lemma DroppedValid(p: Proxy)
    requires Valid(p)
    ensures Valid(Dropped(p)) && !Dropped(p).attached && !Dropped(p).active
  {
    DisconnectedExactly(p);
  }

  // ---- Values towards the client ----

  /** The client knows, for every readable item, the value the server last recorded as sent. */
  ghost predicate Knows(view: map<ItemRef, HalValue>, items: seq<Item>) {
    forall i :: 0 <= i < |items| && items[i].serverReadable ==>
      items[i].Ref() in view && items[i].previous == Some(view[items[i].Ref()])
  }

  /** The same items apart from what was last sent. */
  ghost predicate SameItems(a: seq<Item>, b: seq<Item>) {
    |a| == |b| && forall i :: 0 <= i < |a| ==> a[i] == b[i].(previous := a[i].previous)
  }

  ghost predicate DistinctRefs(items: seq<Item>) {
    forall i, j :: 0 <= i < j < |items| ==> items[i].fullName != items[j].fullName
  }

  lemma ItemsValidDistinct(prefix: string, items: seq<Item>)
    requires ItemsValid(prefix, items)
    ensures DistinctRefs(items)
  {
    forall i, j | 0 <= i < j < |items| ensures items[i].fullName != items[j].fullName {
      assert items[i].fullName[|prefix| + 1..] == items[i].suffix;
      assert items[j].fullName[|prefix| + 1..] == items[j].suffix;
    }
  }

  /** Every listed value belongs to one of the items. */
  ghost predicate Named(items: seq<Item>, listed: seq<ComponentValue>) {
    forall k :: 0 <= k < |listed| ==> Owns(items, listed[k].item)
  }

  ghost predicate Owns(items: seq<Item>, ref: ItemRef) {
    exists i :: 0 <= i < |items| && items[i].fullName == ref.name
  }

  /** The readable values that could be read are recorded as sent. */
  ghost predicate Recorded(items: seq<Item>, values: map<string, HalValue>, kept: seq<Item>) {
    && |kept| == |items|
    && forall i :: 0 <= i < |items| && items[i].serverReadable && items[i].suffix in values ==>
         kept[i].previous == Some(values[items[i].suffix])
  }

  /** What sampling the items achieved. */
  ghost predicate SampledTo(
    items: seq<Item>, values: map<string, HalValue>, view: map<ItemRef, HalValue>,
    kept: seq<Item>, listed: seq<ComponentValue>)
  {
    && SameItems(kept, items)
    && DistinctItems(listed)
    && Named(items, listed)
    && Knows(Overlay(view, listed), kept)
    && Recorded(items, values, kept)
  }

  lemma OwnsMore(items: seq<Item>, item: Item, ref: ItemRef)
    requires Owns(items, ref) || item.fullName == ref.name
    ensures Owns(items + [item], ref)
  {
    var all := items + [item];
    if Owns(items, ref) {
      var i :| 0 <= i < |items| && items[i].fullName == ref.name;
      assert all[i].fullName == ref.name;
    } else {
      assert all[|items|].fullName == ref.name;
    }
  }

  lemma NamedMore(items: seq<Item>, item: Item, listed: seq<ComponentValue>)
    requires Named(items, listed)
    ensures Named(items + [item], listed)
  {
    forall k | 0 <= k < |listed| ensures Owns(items + [item], listed[k].item) {
      OwnsMore(items, item, listed[k].item);
    }
  }

  lemma NotListed(items: seq<Item>, item: Item, listed: seq<ComponentValue>)
    requires DistinctRefs(items + [item]) && Named(items, listed)
    ensures forall k :: 0 <= k < |listed| ==> listed[k].item.name != item.fullName
  {
    var all := items + [item];
    assert all[|items|] == item;
    forall k | 0 <= k < |listed| ensures listed[k].item.name != item.fullName {
      assert Owns(items, listed[k].item);
      var i :| 0 <= i < |items| && items[i].fullName == listed[k].item.name;
      assert all[i] == items[i];
    }
  }

  lemma KnowsAppend(view: map<ItemRef, HalValue>, kept: seq<Item>, item: Item)
    requires Knows(view, kept)
    requires item.serverReadable ==> item.Ref() in view && item.previous == Some(view[item.Ref()])
    ensures Knows(view, kept + [item])
  {
  }

  lemma SameItemsAppend(kept: seq<Item>, items: seq<Item>, item: Item, previous: Option<HalValue>)
    requires SameItems(kept, items)
    ensures SameItems(kept + [item.(previous := previous)], items + [item])
  {
  }

  lemma RecordedAppend(items: seq<Item>, values: map<string, HalValue>, kept: seq<Item>, item: Item, after: Item)
    requires Recorded(items, values, kept)
    requires item.serverReadable && item.suffix in values ==> after.previous == Some(values[item.suffix])
    ensures Recorded(items + [item], values, kept + [after])
  {
  }

  /** Setting a value the client had no other item under leaves what it knows about the others. */
  lemma KnowsOthers(view: map<ItemRef, HalValue>, kept: seq<Item>, item: Item, value: HalValue)
    requires Knows(view, kept) && DistinctRefs(kept + [item])
    ensures Knows(view[item.Ref() := value], kept)
  {
    var all := kept + [item];
    assert all[|kept|] == item;
    forall i | 0 <= i < |kept| ensures kept[i].Ref() != item.Ref() {
      assert all[i] == kept[i];
    }
  }

  lemma DistinctSame(kept: seq<Item>, items: seq<Item>, item: Item)
    requires SameItems(kept, items) && DistinctRefs(items + [item])
    ensures DistinctRefs(kept + [item])
  {
    var all, now := items + [item], kept + [item];
    assert forall i :: 0 <= i < |all| ==> now[i].fullName == all[i].fullName;
  }

  lemma DistinctAppend(listed: seq<ComponentValue>, added: ComponentValue)
    requires DistinctItems(listed) && forall k :: 0 <= k < |listed| ==> listed[k].item.name != added.item.name
    ensures DistinctItems(listed + [added])
  {
  }

  lemma OverlayAppend(view: map<ItemRef, HalValue>, listed: seq<ComponentValue>, added: ComponentValue)
    ensures Overlay(view, listed + [added]) == Overlay(view, listed)[added.item := added.value]
  {
    assert (listed + [added])[..|listed|] == listed;
  }

  lemma NamedAppend(items: seq<Item>, item: Item, listed: seq<ComponentValue>, added: ComponentValue)
    requires Named(items, listed) && added.item == item.Ref()
    ensures Named(items + [item], listed + [added])
  {
    NamedMore(items, item, listed);
    OwnsMore(items, item, added.item);
  }

  lemma SampleItemAdds(
      items: seq<Item>, values: map<string, HalValue>, view: map<ItemRef, HalValue>,
      kept: seq<Item>, listed: seq<ComponentValue>, item: Item)
    requires SampledTo(items, values, view, kept, listed) && DistinctRefs(items + [item])
    requires item.suffix in values
    ensures SampledTo(items + [item], values, view, kept + [item.(previous := Some(values[item.suffix]))],
                      listed + [ComponentValue(item.Ref(), values[item.suffix])])
  {
    hide SameItems, DistinctItems, Named, Knows, Recorded, DistinctRefs, Overlay;
    var added, after := ComponentValue(item.Ref(), values[item.suffix]), item.(previous := Some(values[item.suffix]));
    NotListed(items, item, listed);
    DistinctAppend(listed, added);
    NamedAppend(items, item, listed, added);
    OverlayAppend(view, listed, added);
    DistinctSame(kept, items, item);
    KnowsOthers(Overlay(view, listed), kept, item, added.value);
    KnowsAppend(Overlay(view, listed)[item.Ref() := added.value], kept, after);
    SameItemsAppend(kept, items, item, after.previous);
    RecordedAppend(items, values, kept, item, after);
  }

  lemma SampleItemSkips(
      items: seq<Item>, values: map<string, HalValue>, view: map<ItemRef, HalValue>,
      kept: seq<Item>, listed: seq<ComponentValue>, item: Item)
    requires SampledTo(items, values, view, kept, listed) && DistinctRefs(items + [item])
    requires !Changed(item, values)
    requires item.serverReadable ==> item.Ref() in view && item.previous == Some(view[item.Ref()])
    ensures SampledTo(items + [item], values, view, kept + [item], listed)
  {
    NotListed(items, item, listed);
    OverlayMeaning(view, listed);
    hide SameItems, DistinctItems, Named, Knows, Recorded, DistinctRefs, Overlay;
    NamedMore(items, item, listed);
    KnowsAppend(Overlay(view, listed), kept, item);
    SameItemsAppend(kept, items, item, item.previous);
    RecordedAppend(items, values, kept, item, item);
  }

  lemma {:induction false} SampleItemsKeepsView(
      items: seq<Item>, values: map<string, HalValue>, view: map<ItemRef, HalValue>)
    requires DistinctRefs(items) && Knows(view, items)
    ensures SampledTo(items, values, view, SampleItems(items, values).0, SampleItems(items, values).1)
  {
    if items != [] {
      var n := |items| - 1;
      SampleItemsKeepsView(items[..n], values, view);
      var (kept, listed) := SampleItems(items[..n], values);
      hide SampledTo;
      assert items == items[..n] + [items[n]];
      if Changed(items[n], values) {
        SampleItemAdds(items[..n], values, view, kept, listed, items[n]);
      } else {
        SampleItemSkips(items[..n], values, view, kept, listed, items[n]);
      }
    }
  }

  /** What listing all values achieved. */
  ghost predicate ListedTo(
      items: seq<Item>, values: map<string, HalValue>, kept: seq<Item>, listed: seq<ComponentValue>)
  {
    && SameItems(kept, items) && DistinctItems(listed) && Named(items, listed)
    && |listed| == |items|
    && (forall i :: 0 <= i < |items| && items[i].suffix in values ==>
          listed[i] == ComponentValue(items[i].Ref(), values[items[i].suffix]))
    && Knows(Overlay(map[], listed), kept)
  }

  lemma ListItem(
      items: seq<Item>, values: map<string, HalValue>, kept: seq<Item>, listed: seq<ComponentValue>, item: Item)
    requires ListedTo(items, values, kept, listed) && DistinctRefs(items + [item]) && item.suffix in values
    ensures ListedTo(items + [item], values, kept + [item.(previous := Some(values[item.suffix]))],
                     listed + [ComponentValue(item.Ref(), values[item.suffix])])
  {
    hide SameItems, DistinctItems, Named, Knows, DistinctRefs, Overlay;
    var added, after := ComponentValue(item.Ref(), values[item.suffix]), item.(previous := Some(values[item.suffix]));
    NotListed(items, item, listed);
    DistinctAppend(listed, added);
    NamedAppend(items, item, listed, added);
    OverlayAppend(map[], listed, added);
    DistinctSame(kept, items, item);
    KnowsOthers(Overlay(map[], listed), kept, item, added.value);
    KnowsAppend(Overlay(map[], listed)[item.Ref() := added.value], kept, after);
    SameItemsAppend(kept, items, item, after.previous);
  }

  lemma {:induction false} SnapshotItemsGivesView(items: seq<Item>, values: map<string, HalValue>)
    requires DistinctRefs(items) && forall i :: 0 <= i < |items| ==> items[i].suffix in values
    ensures ListedTo(items, values, SnapshotItems(items, values).0, SnapshotItems(items, values).1)
  {
    if items != [] {
      var n := |items| - 1;
      SnapshotItemsGivesView(items[..n], values);
      var (kept, listed) := SnapshotItems(items[..n], values);
      hide ListedTo;
      assert items == items[..n] + [items[n]];
      ListItem(items[..n], values, kept, listed, items[n]);
    }
  }
}
