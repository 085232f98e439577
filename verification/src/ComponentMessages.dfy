/** HAL values and the messages a remote component stream carries, with the client's reading of them. */
module ComponentMessages {
  datatype ItemKind = Pin | Param

  datatype HalType = Bit | Float | S32 | U32 | S64 | U64

  datatype HalValue =
    | BitValue(bit: bool)
    | FloatValue(float: real)
    | S32Value(s32: int)
    | U32Value(u32: nat)
    | S64Value(s64: int)
    | U64Value(u64: nat)

  function TypeOf(v: HalValue): HalType {
    match v
    case BitValue(_) => Bit
    case FloatValue(_) => Float
    case S32Value(_) => S32
    case U32Value(_) => U32
    case S64Value(_) => S64
    case U64Value(_) => U64
  }

  datatype ItemRef = ItemRef(kind: ItemKind, name: string)

  datatype ComponentValue = ComponentValue(item: ItemRef, value: HalValue)

  datatype CloseMode = Unspecified | Detach | Destroy

  datatype ServerMessage =
    | Attached(proxyId: string, attachedGeneration: nat, retained: seq<ComponentValue>)
    | Active(activeGeneration: nat)
    | UpdateAck(ackGeneration: nat, ackSequence: nat)
    | Delta(generation: nat, sequence: nat, values: seq<ComponentValue>)
    | HeartbeatAck(heartbeatGeneration: nat)
    | Closed(closedId: string, mode: CloseMode)

  predicate DistinctItems(values: seq<ComponentValue>) {
    forall i, j :: 0 <= i < j < |values| ==> values[i].item != values[j].item
  }

  // ---- The client ----

  /** The values the client knows and the number of the last delta it saw. */
  datatype Client = Client(view: map<ItemRef, HalValue>, generation: nat, sequence: nat)

  function Overlay(view: map<ItemRef, HalValue>, values: seq<ComponentValue>): map<ItemRef, HalValue> {
    if values == [] then view
    else
      var last := values[|values| - 1];
      Overlay(view, values[..|values| - 1])[last.item := last.value]
  }

  function Received(c: Client, m: ServerMessage): Client {
    match m
    case Attached(_, _, retained) => c.(view := Overlay(map[], retained))
    case Delta(generation, sequence, values) => Client(Overlay(c.view, values), generation, sequence)
    case _ => c
  }

  function ReceivedAll(c: Client, messages: seq<ServerMessage>): Client {
    if messages == [] then c
    else Received(ReceivedAll(c, messages[..|messages| - 1]), messages[|messages| - 1])
  }

  /** The responses in order, each with what the client knows when it arrives. */
  function Responses(c: Client, messages: seq<ServerMessage>): seq<(ServerMessage, Client)> {
    if messages == [] then []
    else
      var n := |messages| - 1;
      Responses(c, messages[..n]) +
      if messages[n].Delta? then [] else [(messages[n], ReceivedAll(c, messages[..n]))]
  }

  /** Two message lists a client cannot tell apart except by how deltas are grouped. */
  ghost predicate SameEffect(a: seq<ServerMessage>, b: seq<ServerMessage>) {
    forall c :: ReceivedAll(c, a) == ReceivedAll(c, b) && Responses(c, a) == Responses(c, b)
  }

  lemma {:induction false} ReceivedAllAppend(c: Client, a: seq<ServerMessage>, b: seq<ServerMessage>)
    ensures ReceivedAll(c, a + b) == ReceivedAll(ReceivedAll(c, a), b)
    ensures Responses(c, a + b) == Responses(c, a) + Responses(ReceivedAll(c, a), b)
  {
    if b == [] {
      assert a + b == a;
    } else {
      var n := |b| - 1;
      assert (a + b)[..|a + b| - 1] == a + b[..n];
      ReceivedAllAppend(c, a, b[..n]);
    }
  }

  lemma SameEffectAppend(a: seq<ServerMessage>, b: seq<ServerMessage>, tail: seq<ServerMessage>)
    requires SameEffect(a, b)
    ensures SameEffect(a + tail, b + tail)
  {
    forall c
      ensures ReceivedAll(c, a + tail) == ReceivedAll(c, b + tail)
      ensures Responses(c, a + tail) == Responses(c, b + tail)
    {
      ReceivedAllAppend(c, a, tail);
      ReceivedAllAppend(c, b, tail);
    }
  }

  lemma SameEffectPrepend(head: seq<ServerMessage>, a: seq<ServerMessage>, b: seq<ServerMessage>)
    requires SameEffect(a, b)
    ensures SameEffect(head + a, head + b)
  {
    forall c
      ensures ReceivedAll(c, head + a) == ReceivedAll(c, head + b)
      ensures Responses(c, head + a) == Responses(c, head + b)
    {
      ReceivedAllAppend(c, head, a);
      ReceivedAllAppend(c, head, b);
    }
  }

  lemma {:induction false} OverlayHit(view: map<ItemRef, HalValue>, values: seq<ComponentValue>, i: nat)
    requires DistinctItems(values) && i < |values|
    ensures values[i].item in Overlay(view, values) && Overlay(view, values)[values[i].item] == values[i].value
  {
    var n := |values| - 1;
    if i < n {
      OverlayHit(view, values[..n], i);
      assert values[i].item != values[n].item;
    }
  }

  lemma {:induction false} OverlayMiss(view: map<ItemRef, HalValue>, values: seq<ComponentValue>, k: ItemRef)
    requires forall i :: 0 <= i < |values| ==> values[i].item != k
    ensures (k in Overlay(view, values) <==> k in view) && (k in view ==> Overlay(view, values)[k] == view[k])
  {
    if values != [] {
      OverlayMiss(view, values[..|values| - 1], k);
    }
  }

  /** Overlaying distinct items sets exactly those items. */
  lemma OverlayMeaning(view: map<ItemRef, HalValue>, values: seq<ComponentValue>)
    requires DistinctItems(values)
    ensures forall i :: 0 <= i < |values| ==>
              values[i].item in Overlay(view, values) && Overlay(view, values)[values[i].item] == values[i].value
    ensures forall k :: (forall i :: 0 <= i < |values| ==> values[i].item != k) ==>
              (k in Overlay(view, values) <==> k in view) && (k in view ==> Overlay(view, values)[k] == view[k])
  {
    forall i | 0 <= i < |values|
      ensures values[i].item in Overlay(view, values) && Overlay(view, values)[values[i].item] == values[i].value
    {
      OverlayHit(view, values, i);
    }
    forall k | forall i :: 0 <= i < |values| ==> values[i].item != k
      ensures (k in Overlay(view, values) <==> k in view) && (k in view ==> Overlay(view, values)[k] == view[k])
    {
      OverlayMiss(view, values, k);
    }
  }
}
