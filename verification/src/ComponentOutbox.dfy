/** The queue of messages waiting for the stream's write to finish; adjacent deltas are merged. */
module ComponentOutbox {
  import opened ComponentMessages

  datatype Entry = Entry(message: ServerMessage, resumeRead: bool)

  function Messages(entries: seq<Entry>): (r: seq<ServerMessage>)
    ensures |r| == |entries|
  {
    seq(|entries|, i requires 0 <= i < |entries| => entries[i].message)
  }

  /** The position of the first value for `item`, or the length when there is none. */
  function Position(values: seq<ComponentValue>, item: ItemRef): (r: nat)
    ensures r <= |values|
    ensures r < |values| ==> values[r].item == item
    ensures forall i :: 0 <= i < r ==> values[i].item != item
  {
    if values == [] || values[0].item == item then 0 else 1 + Position(values[1..], item)
  }

  function MergedOne(target: seq<ComponentValue>, incoming: ComponentValue): seq<ComponentValue> {
    var at := Position(target, incoming.item);
    if at < |target| then target[at := incoming] else target + [incoming]
  }

  function Merged(target: seq<ComponentValue>, source: seq<ComponentValue>): seq<ComponentValue> {
    if source == [] then target
    else MergedOne(Merged(target, source[..|source| - 1]), source[|source| - 1])
  }

  function PushedResponse(entries: seq<Entry>, message: ServerMessage): seq<Entry> {
    entries + [Entry(message, true)]
  }

  predicate EndsInDelta(entries: seq<Entry>) {
    entries != [] && entries[|entries| - 1].message.Delta?
  }

  function PushedDelta(entries: seq<Entry>, message: ServerMessage): seq<Entry> {
    if message.Delta? && EndsInDelta(entries) then
      var n := |entries| - 1;
      var back := entries[n];
      entries[..n] +
      [back.(message := Delta(message.generation, message.sequence, Merged(back.message.values, message.values)))]
    else entries + [Entry(message, false)]
  }

  /** Every delta names each item once. */
  predicate DistinctDeltas(messages: seq<ServerMessage>) {
    forall i :: 0 <= i < |messages| && messages[i].Delta? ==> DistinctItems(messages[i].values)
  }

  // ---- The outbox object ----

  class Outbox {
    var entries: seq<Entry>

    constructor ()
      ensures entries == []
    {
      entries := [];
    }

    method PushResponse(message: ServerMessage)
      modifies this
      ensures entries == PushedResponse(old(entries), message)
    {
      entries := entries + [Entry(message, true)];
    }

    method PushDelta(message: ServerMessage)
      modifies this
      ensures entries == PushedDelta(old(entries), message)
    {
      if !message.Delta? {
        entries := entries + [Entry(message, false)];
        return;
      }
      if entries != [] && entries[|entries| - 1].message.Delta? {
        var n := |entries| - 1;
        var back := entries[n];
        var values := MergeDelta(message.values, back.message.values);
        entries := entries[n := back.(message := Delta(message.generation, message.sequence, values))];
        assert entries == PushedDelta(old(entries), message);
        return;
      }
      entries := entries + [Entry(message, false)];
    }

    method Clear()
      modifies this
      ensures entries == []
    {
      entries := [];
    }

    method PopFront() returns (entry: Entry)
      requires entries != []
      modifies this
      ensures [entry] + entries == old(entries)
    {
      entry := entries[0];
      entries := entries[1..];
    }
  }

  method MergeDelta(source: seq<ComponentValue>, target: seq<ComponentValue>) returns (values: seq<ComponentValue>)
    ensures values == Merged(target, source)
  {
    values := target;
    for index := 0 to |source|
      invariant values == Merged(target, source[..index])
    {
      var incoming := source[index];
      var existing := 0;
      while existing < |values| && values[existing].item != incoming.item
        invariant existing <= |values|
        invariant Position(values, incoming.item) == existing + Position(values[existing..], incoming.item)
      {
        existing := existing + 1;
      }
      assert source[..index + 1][..index] == source[..index];
      if existing == |values| {
        values := values + [incoming];
      } else {
        values := values[existing := incoming];
      }
    }
    assert source[..|source|] == source;
  }

  // ---- Coalescing keeps the meaning ----

  lemma MergedOneKeeps(target: seq<ComponentValue>, incoming: ComponentValue, view: map<ItemRef, HalValue>)
    requires DistinctItems(target)
    ensures DistinctItems(MergedOne(target, incoming))
    ensures Overlay(view, MergedOne(target, incoming)) == Overlay(view, target)[incoming.item := incoming.value]
  {
    var at := Position(target, incoming.item);
    var merged := MergedOne(target, incoming);
    if at < |target| {
      assert forall i :: 0 <= i < |target| ==> merged[i].item == target[i].item;
      OverwrittenOverlay(target, at, incoming, view);
    } else {
      assert merged[..|merged| - 1] == target;
    }
  }

  /** Overwriting the value listed for an item changes the overlay at that item only. */
  lemma OverwrittenOverlay(target: seq<ComponentValue>, at: nat, incoming: ComponentValue, view: map<ItemRef, HalValue>)
    requires DistinctItems(target) && at < |target| && target[at].item == incoming.item
    ensures DistinctItems(target[at := incoming])
    ensures Overlay(view, target[at := incoming]) == Overlay(view, target)[incoming.item := incoming.value]
  {
    var merged := target[at := incoming];
    assert forall i :: 0 <= i < |target| ==> merged[i].item == target[i].item;
    hide Overlay;
    var left, right := Overlay(view, merged), Overlay(view, target)[incoming.item := incoming.value];
    forall k ensures (k in left <==> k in right) && (k in left ==> left[k] == right[k]) {
      if i :| 0 <= i < |target| && target[i].item == k {
        OverlayHit(view, target, i);
        OverlayHit(view, merged, i);
      } else {
        OverlayMiss(view, target, k);
        OverlayMiss(view, merged, k);
      }
    }
    assert left == right;
  }

  lemma {:induction false} MergedKeeps(
      target: seq<ComponentValue>, source: seq<ComponentValue>, view: map<ItemRef, HalValue>)
    requires DistinctItems(target)
    ensures DistinctItems(Merged(target, source))
    ensures Overlay(view, Merged(target, source)) == Overlay(Overlay(view, target), source)
  {
    if source != [] {
      var n := |source| - 1;
      MergedKeeps(target, source[..n], view);
      MergedOneKeeps(Merged(target, source[..n]), source[n], view);
    }
  }

  /** Pushing a delta has the same effect as queueing it behind everything else: no change is lost, none crosses a
      response, and the client ends at the same delta number. */
  lemma PushKeepsEffect(entries: seq<Entry>, message: ServerMessage)
    requires DistinctDeltas(Messages(entries)) && (message.Delta? ==> DistinctItems(message.values))
    ensures DistinctDeltas(Messages(PushedDelta(entries, message)))
    ensures SameEffect(Messages(PushedDelta(entries, message)), Messages(entries) + [message])
  {
    hide SameEffect, Merged, ReceivedAll, Responses;
    var pushed := PushedDelta(entries, message);
    if message.Delta? && EndsInDelta(entries) {
      var n := |entries| - 1;
      var front, back := Messages(entries[..n]), entries[n].message;
      var merged := pushed[n].message;
      assert Messages(entries)[n] == back;
      assert Messages(entries) + [message] == front + [back, message];
      assert Messages(pushed) == front + [merged];
      assert forall i :: 0 <= i < n ==> Messages(pushed)[i] == Messages(entries)[i];
      MergedKeeps(back.values, message.values, map[]);
      MergedEffect(back, message);
      SameEffectPrepend(front, [merged], [back, message]);
    } else {
      assert Messages(pushed) == Messages(entries) + [message];
      SameEffectSelf(Messages(pushed));
    }
  }

  lemma SameEffectSelf(messages: seq<ServerMessage>)
    ensures SameEffect(messages, messages)
  {
  }

  /** One merged delta does what the two do one after the other. */
  lemma MergedEffect(back: ServerMessage, message: ServerMessage)
    requires back.Delta? && message.Delta? && DistinctItems(back.values)
    ensures var merged := Delta(message.generation, message.sequence, Merged(back.values, message.values));
            SameEffect([merged], [back, message])
  {
    var merged := Delta(message.generation, message.sequence, Merged(back.values, message.values));
    forall c ensures ReceivedAll(c, [merged]) == ReceivedAll(c, [back, message])
             ensures Responses(c, [merged]) == Responses(c, [back, message])
    {
      MergedKeeps(back.values, message.values, c.view);
      assert [back, message][..1] == [back];
      assert [merged][..0] == [] && [back][..0] == [];
    }
  }

  lemma PushResponseKeepsEffect(entries: seq<Entry>, message: ServerMessage)
    ensures Messages(PushedResponse(entries, message)) == Messages(entries) + [message]
  {
  }
}
