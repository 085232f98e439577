/** The registry object: the same operations carried out step by step on its own fields and on the shared slab. */
module ComponentService {
  import opened Options
  import opened ComponentMessages
  import opened ComponentProxy
  import opened ComponentBudget
  import opened ComponentRegistry

  // ---- One proxy ----

  method FindPosition(p: Proxy, item: ItemRef) returns (at: nat)
    ensures at == FindItem(p.items, p.prefix, item)
  {
    var name := Stripped(item.name, p.prefix + ".");
    at := 0;
    while at < |p.items| && !(p.items[at].suffix == name && p.items[at].kind == item.kind)
      invariant at <= |p.items|
      invariant FindItem(p.items, p.prefix, item) == at + FindItem(p.items[at..], p.prefix, item)
    {
      at := at + 1;
    }
  }

  method DecodeValues(p: Proxy, updates: seq<Update>, complete: bool) returns (decoded: Outcome<seq<Assignment>>)
    ensures decoded == Decoded(p, updates, complete)
  {
    var seen: set<nat> := {};
    var values: seq<Assignment> := [];
    for n := 0 to |updates|
      invariant Accepted(p, updates[..n]) == Okay(values)
      invariant forall k: nat :: k in seen <==> Targets(values, k)
      invariant |seen| == |values| == n
    {
      var update := updates[n];
      assert updates[..n + 1][..n] == updates[..n];
      var at := FindPosition(p, update.item);
      var judged := if at == |p.items| || !p.items[at].clientWritable then Wrong(NotOwned)
                    else if at in seen then Wrong(Duplicate)
                    else if update.value.None? || TypeOf(update.value.value) != p.items[at].halType
                    then Wrong(WrongType)
                    else Okay(values + [Assignment(at, update.value.value)]);
      assert judged == Judged(p, values, update) == Accepted(p, updates[..n + 1]);
      if judged.Wrong? {
        RefusalSticks(p, updates, n + 1);
        return judged;
      }
      TargetsAppend(values, judged.value[n]);
      seen, values := seen + {at}, judged.value;
    }
    assert updates[..|updates|] == updates;
    if complete {
      var expected := 0;
      for k := 0 to |p.items|
        invariant expected == CountWritable(p.items[..k])
      {
        assert p.items[..k + 1][..k] == p.items[..k];
        if p.items[k].clientWritable {
          expected := expected + 1;
        }
      }
      assert p.items[..|p.items|] == p.items;
      if |seen| != expected {
        return Wrong(Incomplete);
      }
    }
    return Okay(values);
  }

  lemma TargetsAppend(values: seq<Assignment>, last: Assignment)
    ensures forall k: nat :: Targets(values + [last], k) <==> Targets(values, k) || k == last.index
  {
    var all := values + [last];
    forall k: nat ensures Targets(all, k) <==> Targets(values, k) || k == last.index {
      if Targets(values, k) {
        var i :| 0 <= i < |values| && values[i].index == k;
        assert all[i].index == k;
      } else if k == last.index {
        assert all[|values|].index == k;
      }
    }
  }

  /** The first refusal decides. */
  lemma {:induction false} RefusalSticks(p: Proxy, updates: seq<Update>, n: nat)
    requires n <= |updates| && Accepted(p, updates[..n]).Wrong?
    ensures Accepted(p, updates) == Accepted(p, updates[..n])
  {
    if n == |updates| {
      assert updates[..n] == updates;
    } else {
      assert updates[..|updates| - 1][..n] == updates[..n];
      RefusalSticks(p, updates[..|updates| - 1], n);
    }
  }

  method WriteValues(p: Proxy, assignments: seq<Assignment>) returns (q: Proxy)
    requires Sound(p) && Proper(p, assignments)
    ensures q == Assigned(p, assignments)
  {
    q := p;
    for n := 0 to |assignments|
      invariant q == Assigned(p, assignments[..n]) && q.items == p.items
    {
      assert assignments[..n + 1][..n] == assignments[..n];
      var a := assignments[n];
      q := Written(q, q.items[a.index].suffix, a.value);
    }
    assert assignments[..|assignments|] == assignments;
  }

  method ApplyDisconnect(p: Proxy) returns (q: Proxy)
    ensures q == Disconnected(p)
  {
    q := Written(p, ONLINE, BitValue(false));
    q := q.(active := false);
    ghost var offline := q;
    for n := 0 to |p.items|
      invariant q == Parked(offline, n)
    {
      if p.items[n].disconnect.Some? {
        q := Written(q, p.items[n].suffix, p.items[n].disconnect.value);
      }
    }
  }

  method EncodeSnapshot(p: Proxy, proxyId: string) returns (q: Proxy, message: ServerMessage)
    ensures (q, message) == Snapshotted(p, proxyId)
  {
    var items: seq<Item>, listed: seq<ComponentValue> := [], [];
    for n := 0 to |p.items|
      invariant (items, listed) == SnapshotItems(p.items[..n], p.values)
    {
      var item := p.items[n];
      assert p.items[..n + 1][..n] == p.items[..n];
      if item.suffix in p.values {
        listed := listed + [ComponentValue(item.Ref(), p.values[item.suffix])];
        item := item.(previous := Some(p.values[item.suffix]));
      }
      items := items + [item];
    }
    assert p.items[..|p.items|] == p.items;
    return p.(items := items), Attached(proxyId, p.generation, listed);
  }

  method SampleProxy(p: Proxy, now: int, timeout: nat) returns (q: Proxy, delta: Option<ServerMessage>)
    ensures (q, delta) == Sampled(p, now, timeout)
  {
    if !p.attached {
      return p, None;
    }
    if now - p.lastHeartbeat >= timeout {
      q := ApplyDisconnect(p);
      return q.(attached := false), None;
    }
    if !p.active || now < p.nextSample {
      return p, None;
    }
    var items: seq<Item>, listed: seq<ComponentValue> := [], [];
    for n := 0 to |p.items|
      invariant (items, listed) == SampleItems(p.items[..n], p.values)
    {
      var item := p.items[n];
      assert p.items[..n + 1][..n] == p.items[..n];
      if item.serverReadable && item.suffix in p.values && item.previous != Some(p.values[item.suffix]) {
        listed := listed + [ComponentValue(item.Ref(), p.values[item.suffix])];
        item := item.(previous := Some(p.values[item.suffix]));
      }
      items := items + [item];
    }
    assert p.items[..|p.items|] == p.items;
    q := p.(items := items, nextSample := now + p.samplingPeriod);
    if listed == [] {
      return q, None;
    }
    return q.(serverSequence := p.serverSequence + 1), Some(Delta(p.generation, p.serverSequence + 1, listed));
  }

  method ValidateSchema(definitions: seq<Definition>) returns (ok: bool)
    ensures ok <==> SchemaOk(definitions)
  {
    var names := {ONLINE};
    for n := 0 to |definitions|
      invariant SchemaOk(definitions[..n])
      invariant forall name ::
                  name in names <==> name == ONLINE || exists i :: 0 <= i < n && definitions[i].name == name
    {
      var d := definitions[n];
      if
        || d.halType.None? || d.name == "" || d.name in names
        || d.direction.None? || !DirectionFits(d.kind, d.direction.value)
        || !DisconnectFits(d)
      {
        return false;
      }
      names := names + {d.name};
    }
    assert definitions[..|definitions|] == definitions;
    return true;
  }

  // ---- The registry ----

  class RemoteComponentRegistry {
    const cfg: Config
    const slab: HalAllocationSlab
    var proxies: map<string, Proxy>
    var retained: nat
    var admitted: nat
    var accepting: bool

    ghost function View(): Registry
      reads this, slab
    {
      Registry(proxies, retained, admitted, accepting, slab.free)
    }

    ghost predicate Sane()
      reads this, slab
    {
      slab.capacity == cfg.maxItems && Invariant(cfg, View())
    }

    constructor (cfg: Config)
      ensures this.cfg == cfg && fresh(slab)
      ensures View() == Initial(cfg) && Sane()
    {
      this.cfg := cfg;
      slab := new HalAllocationSlab(cfg.maxItems);
      proxies, retained, admitted, accepting := map[], 0, 0, true;
      new;
      RunKeeps(cfg, []);
    }

    /** Give back slots, in order. */
    method ReleaseAll(slots: seq<nat>)
      requires Below(slots, slab.capacity)
      modifies slab
      ensures slab.free == old(slab.free) + slots
    {
      for n := 0 to |slots|
        invariant slab.free == old(slab.free) + slots[..n]
      {
        slab.Release(slots[n]);
        assert slots[..n + 1] == slots[..n] + [slots[n]];
      }
    }

    /** Take slots for a component's items until HAL refuses one or the slab runs out. */
    method AcquireItems(count: nat, refusedAfter: Option<nat>) returns (slots: seq<nat>)
      modifies slab
      ensures |slots| <= |old(slab.free)|
      ensures slots == Taken(old(slab.free), |slots|) && slab.free == old(slab.free)[..|old(slab.free)| - |slots|]
      ensures |slots| == if refusedAfter.Some? && refusedAfter.value <= count && refusedAfter.value <= |old(slab.free)|
                         then refusedAfter.value
                         else if |old(slab.free)| < count then |old(slab.free)| else count
    {
      slots := [];
      while |slots| < count && refusedAfter != Some(|slots|)
        invariant |slots| <= count && |slots| <= |old(slab.free)|
        invariant refusedAfter.Some? && refusedAfter.value <= count ==> |slots| <= refusedAfter.value
        invariant slots == Taken(old(slab.free), |slots|)
        invariant slab.free == old(slab.free)[..|old(slab.free)| - |slots|]
        decreases count - |slots|
      {
        var slot := slab.Acquire();
        if slot.None? {
          return;
        }
        slots := slots + [slot.value];
      }
    }

    method Create(schema: Schema, env: Environment) returns (reply: Reply)
      requires Sane() && FreshId(View(), env)
      modifies this, slab
      ensures (View(), reply) == Created(cfg, old(View()), schema, env)
    {
      hide Invariant, SchemaOk, NewProxy, Taken, Snapshotted, Below, Balanced, FreshId;
      FreeBelow(cfg, View());
      ghost var before := View();
      if schema.name == "" {
        return Refused(InvalidArgument);
      }
      var prefix := if schema.prefix == "" then schema.name else schema.prefix;
      if exists id :: id in proxies && proxies[id].name == schema.name {
        return Refused(AlreadyExists);
      }
      var ok := ValidateSchema(schema.definitions);
      if !ok {
        return Refused(InvalidArgument);
      }
      var count := |schema.definitions| + 1;
      if count > cfg.maxItems || retained > cfg.maxItems - count || !accepting || admitted >= cfg.maxComponents {
        return Refused(ResourceExhausted);
      }
      retained, admitted := retained + count, admitted + 1;
      var slots := AcquireItems(count, env.refusedAfter);
      if env.refusedAfter == Some(|slots|) || |slots| < count {
        TakenBelow(before.free, |slots|, slab.capacity);
        ReleaseAll(slots);
        assert slab.free == Recycled(before.free, |slots|);
        retained, admitted := retained - count, admitted - 1;
        return Refused(if env.refusedAfter == Some(|slots|) then HalFailure else SlabExhausted);
      }
      var proxy, message := EncodeSnapshot(NewProxy(cfg, schema, prefix, slots, env), env.proxyId);
      proxies := proxies[env.proxyId := proxy];
      return Answered(env.proxyId, 1, message);
    }

    method Attach(proxyId: string, name: string, token: string, now: int) returns (reply: Reply)
      modifies this`proxies
      ensures (View(), reply) == AttachedTo(old(View()), proxyId, name, token, now)
    {
      hide Snapshotted, Locate;
      if proxyId !in proxies || proxies[proxyId].name != name {
        return Refused(NotFound);
      }
      var p := proxies[proxyId];
      if p.token != token {
        return Refused(Unauthenticated);
      }
      if p.attached {
        return Refused(AlreadyExists);
      }
      p := p.(attached := true, active := false, generation := p.generation + 1,
              clientSequence := 0, lastHeartbeat := now);
      p := Written(p, ONLINE, BitValue(false));
      var q, message := EncodeSnapshot(p, proxyId);
      proxies := proxies[proxyId := q];
      return Answered(proxyId, q.generation, message);
    }

    method Leave(proxyId: string, generation: nat)
      requires Sane()
      modifies this
      ensures View() == Detached(old(View()), proxyId, generation) && Sane()
    {
      hide Invariant, Disconnected;
      DetachedKeeps(cfg, View(), proxyId, generation);
      if proxyId !in proxies || !proxies[proxyId].attached || proxies[proxyId].generation != generation {
        return;
      }
      var p := ApplyDisconnect(proxies[proxyId]);
      proxies := proxies[proxyId := p.(attached := false)];
    }

    method Consume(attachedId: string, generation: nat, message: ClientMessage, env: Environment) returns (reply: Reply)
      requires Sane() && FreshId(View(), env)
      modifies this, slab
      ensures (View(), reply) == Consumed(cfg, old(View()), attachedId, generation, message, env) && Sane()
    {
      hide Invariant, Created, AttachedTo, Handled;
      ConsumedKeeps(cfg, View(), attachedId, generation, message, env);
      var first := attachedId == "";
      if first != (message.Create? || message.Attach?) {
        return Refused(InvalidArgument);
      }
      if message.Create? {
        reply := Create(message.schema, env);
        return;
      }
      if message.Attach? {
        reply := Attach(message.proxyId, message.name, message.token, env.now);
        return;
      }
      if attachedId !in proxies || !proxies[attachedId].attached || proxies[attachedId].generation != generation {
        return Refused(FailedPrecondition);
      }
      reply := Handle(attachedId, message, env.now);
    }

    method Handle(proxyId: string, message: ClientMessage, now: int) returns (reply: Reply)
      requires Sane() && proxyId in proxies && proxies[proxyId].attached
      modifies this, slab
      ensures (View(), reply) == Handled(old(View()), proxyId, message, now)
    {
      hide Invariant, Valid, Decoded, Activated, Amended, Closing;
      MemberValid(cfg, View(), proxyId);
      var p := proxies[proxyId];
      match message
      case Activate(g, updates) =>
        reply := Start(proxyId, g, updates, now);
      case ChangeValues(g, sequence, updates) =>
        reply := Change(proxyId, g, sequence, updates, now);
      case Heartbeat(g) =>
        if g != p.generation {
          return Reply(FailedPrecondition, proxyId, p.generation, None, false);
        }
        proxies := proxies[proxyId := p.(lastHeartbeat := now)];
        return Answered(proxyId, p.generation, HeartbeatAck(p.generation));
      case Close(g, mode) =>
        reply := End(proxyId, g, mode, now);
      case _ =>
        return Reply(InvalidArgument, proxyId, p.generation, None, false);
    }

    method Start(proxyId: string, generation: nat, updates: seq<Update>, now: int) returns (reply: Reply)
      requires proxyId in proxies && Valid(proxies[proxyId])
      modifies this`proxies
      ensures (View(), reply) == Handled(old(View()), proxyId, Activate(generation, updates), now)
    {
      var p := proxies[proxyId];
      if p.active || generation != p.generation {
        return Reply(FailedPrecondition, proxyId, p.generation, None, false);
      }
      var decoded := DecodeValues(p, updates, true);
      if decoded.Wrong? {
        return Reply(InvalidArgument, proxyId, p.generation, None, false);
      }
      AcceptedProper(p, updates);
      var q := WriteValues(p, decoded.value);
      q := Written(q, ONLINE, BitValue(true));
      proxies := proxies[proxyId := q.(active := true, lastHeartbeat := now)];
      return Answered(proxyId, p.generation, Active(p.generation));
    }

    method Change(
        proxyId: string, generation: nat, sequence: nat, updates: seq<Update>, now: int) returns (reply: Reply)
      requires proxyId in proxies && Valid(proxies[proxyId])
      modifies this`proxies
      ensures (View(), reply) == Handled(old(View()), proxyId, ChangeValues(generation, sequence, updates), now)
    {
      var p := proxies[proxyId];
      if !p.active || generation != p.generation {
        return Reply(FailedPrecondition, proxyId, p.generation, None, false);
      }
      if sequence != p.clientSequence + 1 {
        return Reply(OutOfRange, proxyId, p.generation, None, false);
      }
      var decoded := DecodeValues(p, updates, false);
      if decoded.Wrong? {
        return Reply(InvalidArgument, proxyId, p.generation, None, false);
      }
      AcceptedProper(p, updates);
      var q := WriteValues(p, decoded.value);
      proxies := proxies[proxyId := q.(clientSequence := sequence, lastHeartbeat := now)];
      return Answered(proxyId, p.generation, UpdateAck(p.generation, sequence));
    }

    method End(proxyId: string, generation: nat, mode: CloseMode, now: int) returns (reply: Reply)
      requires Sane() && proxyId in proxies
      modifies this, slab
      ensures (View(), reply) == Handled(old(View()), proxyId, Close(generation, mode), now)
    {
      hide Invariant, Disconnected, Slots, Below;
      HeldBelow(cfg, View(), proxyId);
      var p := proxies[proxyId];
      if generation != p.generation || mode == Unspecified {
        return Reply(InvalidArgument, proxyId, p.generation, None, false);
      }
      var q := ApplyDisconnect(p);
      q := q.(attached := false);
      proxies := proxies[proxyId := q];
      if mode == Destroy {
        retained := retained - |p.items|;
        proxies := proxies - {proxyId};
        assert proxies == old(proxies) - {proxyId};
        admitted := admitted - 1;
        ReleaseAll(Slots(p.items));
      }
      return Reply(Done, proxyId, p.generation, Some(Closed(proxyId, mode)), true);
    }

    /** One sampling round over all components, in any order, with the deltas to offer to their streams. */
    method Sample(now: int) returns (offers: map<string, ServerMessage>)
      requires Sane()
      modifies this
      ensures View() == SampledAll(cfg, old(View()), now) && Sane()
      ensures Swept(old(proxies), proxies, {}, offers, now, cfg.heartbeatTimeout)
    {
      hide Invariant, SampledAll, Swept;
      SampledAllKeeps(cfg, View(), now);
      offers := Sweep(now);
      SweptAll(cfg, old(View()), View(), offers, now);
    }

    method Sweep(now: int) returns (offers: map<string, ServerMessage>)
      modifies this`proxies
      ensures Swept(old(proxies), proxies, {}, offers, now, cfg.heartbeatTimeout)
    {
      hide Swept, Sampled;
      offers := map[];
      var rest := proxies.Keys;
      SweptNone(proxies, now, cfg.heartbeatTimeout);
      while rest != {}
        invariant Swept(old(proxies), proxies, rest, offers, now, cfg.heartbeatTimeout)
        invariant rest <= proxies.Keys
        decreases |rest|
      {
        var id :| id in rest;
        ghost var before, offered := proxies, offers;
        var q, delta := SampleProxy(proxies[id], now, cfg.heartbeatTimeout);
        proxies := proxies[id := q];
        if delta.Some? {
          offers := offers[id := delta.value];
        }
        SweptOne(old(proxies), before, rest, offered, now, cfg.heartbeatTimeout, id);
        rest := rest - {id};
      }
    }

    /** Destroy every component, in any order. */
    method Shutdown() returns (ghost order: seq<string>)
      requires Sane()
      modifies this, slab
      ensures Enumerates(order, old(proxies).Keys)
      ensures View() == ShutDown(old(View()), order) && Sane()
    {
      hide Invariant, Enumerates, HeldBy;
      AllHeldBelow(cfg, View());
      var count := |proxies.Keys|;
      order := ReleaseProxies();
      retained := 0;
      ReleaseAdmissions(count);
      ShutDownKeeps(cfg, old(View()), order);
    }

    method ReleaseAdmissions(count: nat)
      modifies this`admitted
      ensures admitted == if count <= old(admitted) then old(admitted) - count else 0
    {
      for index := 0 to count
        invariant admitted == if index <= old(admitted) then old(admitted) - index else 0
      {
        admitted := if admitted == 0 then 0 else admitted - 1;
      }
    }

    method ReleaseProxies() returns (ghost order: seq<string>)
      requires forall id :: id in proxies ==> Below(Slots(proxies[id].items), slab.capacity)
      modifies this`proxies, slab
      ensures Enumerates(order, old(proxies).Keys)
      ensures proxies == map[] && slab.free == old(slab.free) + HeldBy(Held(old(proxies)), order)
    {
      hide Below, Slots, Enumerates, Held, HeldBy, Released;
      order := [];
      ReleasedNone(proxies);
      while proxies != map[]
        invariant Released(old(proxies), proxies, order)
        invariant forall id :: id in proxies ==> Below(Slots(proxies[id].items), slab.capacity)
        invariant slab.free == old(slab.free) + HeldBy(Held(old(proxies)), order)
        decreases |proxies|
      {
        var id :| id in proxies;
        ReleaseAll(Slots(proxies[id].items));
        ReleasedOne(old(proxies), proxies, order, id);
        order := order + [id];
        proxies := proxies - {id};
      }
      ReleasedAll(old(proxies), order);
    }
  }

  // ---- Lemmas for the loops ----

  /** The components outside `rest` were sampled and offered their deltas; those in `rest` are untouched. */
  ghost predicate Swept(
    before: map<string, Proxy>, proxies: map<string, Proxy>, rest: set<string>, offers: map<string, ServerMessage>,
    now: int, timeout: nat)
  {
    && proxies.Keys == before.Keys
    && (forall id :: id in before ==>
          proxies[id] == if id in rest then before[id] else Sampled(before[id], now, timeout).0)
    && offers.Keys <= before.Keys
    && (forall id :: id in before ==>
          Offer(offers, id) == if id in rest then None else Sampled(before[id], now, timeout).1)
  }

  function Offer(offers: map<string, ServerMessage>, id: string): Option<ServerMessage> {
    if id in offers then Some(offers[id]) else None
  }

  lemma SweptNone(proxies: map<string, Proxy>, now: int, timeout: nat)
    ensures Swept(proxies, proxies, proxies.Keys, map[], now, timeout)
  {
  }

  lemma SweptOne(
      before: map<string, Proxy>, proxies: map<string, Proxy>, rest: set<string>, offers: map<string, ServerMessage>,
      now: int, timeout: nat, id: string)
    requires Swept(before, proxies, rest, offers, now, timeout) && id in rest && rest <= proxies.Keys
    ensures var (q, delta) := Sampled(proxies[id], now, timeout);
            Swept(before, proxies[id := q], rest - {id},
                  if delta.Some? then offers[id := delta.value] else offers, now, timeout)
  {
    hide Sampled;
  }

  lemma SweptAll(cfg: Config, r: Registry, after: Registry, offers: map<string, ServerMessage>, now: int)
    requires Swept(r.proxies, after.proxies, {}, offers, now, cfg.heartbeatTimeout)
    requires after == r.(proxies := after.proxies)
    ensures after == SampledAll(cfg, r, now)
  {
    hide Sampled;
    assert after.proxies == SampledAll(cfg, r, now).proxies;
  }

  /** The components in `order` are gone, each once, and the others are as before. */
  ghost predicate Released(before: map<string, Proxy>, proxies: map<string, Proxy>, order: seq<string>) {
    && proxies.Keys <= before.Keys
    && (forall id :: id in proxies ==> proxies[id] == before[id])
    && Enumerates(order, before.Keys - proxies.Keys)
  }

  lemma ReleasedNone(proxies: map<string, Proxy>)
    ensures Released(proxies, proxies, []) && HeldBy(Held(proxies), []) == []
  {
    assert proxies.Keys - proxies.Keys == {};
  }

  lemma ReleasedOne(before: map<string, Proxy>, proxies: map<string, Proxy>, order: seq<string>, id: string)
    requires Released(before, proxies, order) && id in proxies
    ensures Released(before, proxies - {id}, order + [id])
    ensures HeldBy(Held(before), order + [id]) == HeldBy(Held(before), order) + Slots(proxies[id].items)
  {
    hide Enumerates, Slots, HeldBy;
    EnumerateMore(order, before.Keys - proxies.Keys, id);
    assert before.Keys - (proxies - {id}).Keys == (before.Keys - proxies.Keys) + {id};
    HeldByMore(Held(before), order, id);
  }

  lemma HeldByMore(held: map<string, seq<nat>>, order: seq<string>, id: string)
    requires id in held
    ensures HeldBy(held, order + [id]) == HeldBy(held, order) + held[id]
  {
    assert (order + [id])[..|order|] == order;
  }

  lemma ReleasedAll(before: map<string, Proxy>, order: seq<string>)
    requires Released(before, map[], order)
    ensures Enumerates(order, before.Keys)
  {
    var none: map<string, Proxy> := map[];
    assert before.Keys - none.Keys == before.Keys;
  }

  lemma EnumerateMore(order: seq<string>, keys: set<string>, id: string)
    requires Enumerates(order, keys) && id !in keys
    ensures Enumerates(order + [id], keys + {id})
  {
  }

  lemma FreeBelow(cfg: Config, r: Registry)
    requires Invariant(cfg, r)
    ensures Below(r.free, cfg.maxItems)
  {
  }

  lemma MemberValid(cfg: Config, r: Registry, proxyId: string)
    requires Invariant(cfg, r) && proxyId in r.proxies
    ensures Valid(r.proxies[proxyId])
  {
  }

  /** What a component gives back is within the slab and within the counts. */
  lemma HeldBelow(cfg: Config, r: Registry, proxyId: string)
    requires Invariant(cfg, r) && proxyId in r.proxies
    ensures Below(Slots(r.proxies[proxyId].items), cfg.maxItems)
    ensures |r.proxies[proxyId].items| <= r.retained && 1 <= r.admitted
  {
    assert Held(r.proxies)[proxyId] == Slots(r.proxies[proxyId].items);
    ReturnedBalanced(cfg.maxItems, Books(r), proxyId);
  }

  lemma AllHeldBelow(cfg: Config, r: Registry)
    requires Invariant(cfg, r)
    ensures forall id :: id in r.proxies ==> Below(Slots(r.proxies[id].items), cfg.maxItems)
  {
    forall id | id in r.proxies ensures Below(Slots(r.proxies[id].items), cfg.maxItems) {
      HeldBelow(cfg, r, id);
    }
  }
}
