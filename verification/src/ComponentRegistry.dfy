/**
The registry of remote HAL components: who is attached to which component, under which
generation, and how many items, slab slots and admissions they hold.
*/
module ComponentRegistry {
  import opened Options
  import opened ComponentMessages
  import opened ComponentProxy
  import opened ComponentBudget

  datatype Config = Config(
    maxItems: nat,
    maxComponents: nat,
    heartbeatTimeout: nat,
    defaultSampling: nat,
    minSampling: nat,
    maxSampling: nat)

  /** `free` is the slab's free list, used from its end; `admitted` the component admissions held. */
  datatype Registry = Registry(
    proxies: map<string, Proxy>,
    retained: nat,
    admitted: nat,
    accepting: bool,
    free: seq<nat>)

  /** A pin or parameter as the client describes it; a missing type or direction was out of range on the wire. */
  datatype Definition = Definition(
    name: string,
    kind: ItemKind,
    halType: Option<HalType>,
    direction: Option<Direction>,
    disconnect: Option<Option<HalValue>>)

  datatype Schema = Schema(name: string, prefix: string, definitions: seq<Definition>, samplingPeriod: nat)

  datatype ClientMessage =
    | Create(schema: Schema)
    | Attach(proxyId: string, name: string, token: string)
    | Activate(generation: nat, updates: seq<Update>)
    | ChangeValues(generation: nat, sequence: nat, updates: seq<Update>)
    | Heartbeat(generation: nat)
    | Close(generation: nat, mode: CloseMode)
    | Malformed

  datatype Code =
    | Done
    | InvalidArgument
    | AlreadyExists
    | ResourceExhausted
    | HalFailure
    | SlabExhausted
    | NotFound
    | Unauthenticated
    | FailedPrecondition
    | OutOfRange

  datatype Reply = Reply(code: Code, proxyId: string, generation: nat, response: Option<ServerMessage>, close: bool)

  /** What the surroundings contribute: the clock, an unused random id, a random token, and whether HAL refuses the
      component after some of its items were added. */
  datatype Environment = Environment(now: int, proxyId: string, token: string, refusedAfter: Option<nat>)

  function Refused(code: Code): Reply {
    Reply(code, "", 0, None, false)
  }

  function Answered(proxyId: string, generation: nat, response: ServerMessage): Reply {
    Reply(Done, proxyId, generation, Some(response), false)
  }

  function Initial(cfg: Config): Registry {
    Registry(map[], 0, 0, true, Descending(cfg.maxItems))
  }

  function Slots(items: seq<Item>): (r: seq<nat>)
    ensures |r| == |items|
  {
    seq(|items|, i requires 0 <= i < |items| => items[i].slot)
  }

  // ---- Creating a component ----

  predicate DirectionFits(kind: ItemKind, direction: Direction) {
    if kind == Pin then direction == In || direction == Out || direction == Io
    else direction == ReadOnly || direction == ReadWrite
  }

  predicate DisconnectFits(d: Definition)
    requires d.halType.Some? && d.direction.Some?
  {
    d.disconnect.Some? ==>
      && (d.kind == Pin ==> d.direction.value == Out || d.direction.value == Io)
      && d.disconnect.value.Some? && TypeOf(d.disconnect.value.value) == d.halType.value
  }

  predicate DefinitionOk(d: Definition) {
    && d.halType.Some? && d.name != "" && d.name != ONLINE
    && d.direction.Some? && DirectionFits(d.kind, d.direction.value)
    && DisconnectFits(d)
  }

  predicate SchemaOk(definitions: seq<Definition>) {
    && (forall i :: 0 <= i < |definitions| ==> DefinitionOk(definitions[i]))
    && (forall i, j :: 0 <= i < j < |definitions| ==> definitions[i].name != definitions[j].name)
  }

  function MakeItem(d: Definition, prefix: string, slot: nat): Item
    requires DefinitionOk(d)
  {
    var direction := d.direction.value;
    Item(d.name, d.kind, d.halType.value, direction, prefix + "." + d.name,
         direction != In,
         direction == In || direction == Io || direction == ReadWrite,
         if d.disconnect.Some? then d.disconnect.value else None,
         None, slot)
  }

  function OnlineItem(prefix: string, slot: nat): Item {
    Item(ONLINE, Pin, Bit, Out, prefix + "." + ONLINE, false, false, None, None, slot)
  }

  function MakeItems(definitions: seq<Definition>, prefix: string, slots: seq<nat>): (r: seq<Item>)
    requires SchemaOk(definitions) && |slots| == |definitions| + 1
    ensures |r| == |definitions| + 1
  {
    var n := |definitions|;
    seq(n, i requires 0 <= i < n => MakeItem(definitions[i], prefix, slots[i])) + [OnlineItem(prefix, slots[n])]
  }

  /** The value of a zeroed slot. */
  function Zero(t: HalType): (v: HalValue)
    ensures TypeOf(v) == t
  {
    match t
    case Bit => BitValue(false)
    case Float => FloatValue(0.0)
    case S32 => S32Value(0)
    case U32 => U32Value(0)
    case S64 => S64Value(0)
    case U64 => U64Value(0)
  }

  function ZeroValues(items: seq<Item>): map<string, HalValue> {
    if items == [] then map[]
    else ZeroValues(items[..|items| - 1])[items[|items| - 1].suffix := Zero(items[|items| - 1].halType)]
  }

  function Clamped(value: nat, low: nat, high: nat): nat {
    if value < low then low else if high < value then high else value
  }

  /** Hand out the snapshot every new attachment starts from. */
  function Snapshotted(p: Proxy, proxyId: string): (Proxy, ServerMessage) {
    var (items, listed) := SnapshotItems(p.items, p.values);
    (p.(items := items), Attached(proxyId, p.generation, listed))
  }

  function NewProxy(cfg: Config, schema: Schema, prefix: string, slots: seq<nat>, env: Environment): Proxy
    requires SchemaOk(schema.definitions) && |slots| == |schema.definitions| + 1
  {
    var items := MakeItems(schema.definitions, prefix, slots);
    var requested := if schema.samplingPeriod == 0 then cfg.defaultSampling else schema.samplingPeriod;
    Proxy(schema.name, prefix, env.token, items, ZeroValues(items),
          Clamped(requested, cfg.minSampling, cfg.maxSampling), env.now, env.now, 1, 0, 0, true, false)
  }

  function Newcomer(
      cfg: Config, schema: Schema, prefix: string, slots: seq<nat>, env: Environment): (Proxy, ServerMessage)
    requires SchemaOk(schema.definitions) && |slots| == |schema.definitions| + 1
  {
    Snapshotted(NewProxy(cfg, schema, prefix, slots, env), env.proxyId)
  }

  predicate NameTaken(proxies: map<string, Proxy>, name: string) {
    exists id :: id in proxies && proxies[id].name == name
  }

  predicate BudgetAllows(cfg: Config, r: Registry, count: nat) {
    && count <= cfg.maxItems && r.retained <= cfg.maxItems - count
    && r.accepting && r.admitted < cfg.maxComponents
  }

  /** The registry with one more component, whose items took `count` slots. */
  function Enlarged(r: Registry, proxyId: string, p: Proxy, count: nat): Registry
    requires count <= |r.free|
  {
    r.(proxies := r.proxies[proxyId := p], retained := r.retained + count,
       admitted := r.admitted + 1, free := r.free[..|r.free| - count])
  }

  function Created(cfg: Config, r: Registry, schema: Schema, env: Environment): (Registry, Reply) {
    var prefix := if schema.prefix == "" then schema.name else schema.prefix;
    var count := |schema.definitions| + 1;
    if schema.name == "" then (r, Refused(InvalidArgument))
    else if NameTaken(r.proxies, schema.name) then (r, Refused(AlreadyExists))
    else if !SchemaOk(schema.definitions) then (r, Refused(InvalidArgument))
    else if !BudgetAllows(cfg, r, count) then (r, Refused(ResourceExhausted))
    else if env.refusedAfter.Some? && env.refusedAfter.value <= count && env.refusedAfter.value <= |r.free| then
      (r.(free := Recycled(r.free, env.refusedAfter.value)), Refused(HalFailure))
    else if |r.free| < count then (r.(free := Recycled(r.free, |r.free|)), Refused(SlabExhausted))
    else
      var (proxy, message) := Newcomer(cfg, schema, prefix, Taken(r.free, count), env);
      (Enlarged(r, env.proxyId, proxy, count), Answered(env.proxyId, 1, message))
  }

  // ---- Attaching and detaching ----

  function Reattached(p: Proxy, now: int): Proxy {
    Written(p, ONLINE, BitValue(false)).(
      attached := true, active := false, generation := p.generation + 1, clientSequence := 0, lastHeartbeat := now)
  }

  function Rejoined(p: Proxy, proxyId: string, now: int): (Proxy, ServerMessage) {
    Snapshotted(Reattached(p, now), proxyId)
  }

  function AttachedTo(r: Registry, proxyId: string, name: string, token: string, now: int): (Registry, Reply) {
    if proxyId !in r.proxies || r.proxies[proxyId].name != name then (r, Refused(NotFound))
    else
      var p := r.proxies[proxyId];
      if p.token != token then (r, Refused(Unauthenticated))
      else if p.attached then (r, Refused(AlreadyExists))
      else
        var (proxy, message) := Rejoined(p, proxyId, now);
        (r.(proxies := r.proxies[proxyId := proxy]), Answered(proxyId, proxy.generation, message))
  }

  predicate Current(r: Registry, proxyId: string, generation: nat) {
    proxyId in r.proxies && r.proxies[proxyId].attached && r.proxies[proxyId].generation == generation
  }

  function Detached(r: Registry, proxyId: string, generation: nat): Registry {
    if !Current(r, proxyId, generation) then r
    else r.(proxies := r.proxies[proxyId := Dropped(r.proxies[proxyId])])
  }

  // ---- Messages of an attached client ----

  function Activated(p: Proxy, assignments: seq<Assignment>, now: int): Proxy {
    Written(Assigned(p, assignments), ONLINE, BitValue(true)).(active := true, lastHeartbeat := now)
  }

  function Amended(p: Proxy, assignments: seq<Assignment>, sequence: nat, now: int): Proxy {
    Assigned(p, assignments).(clientSequence := sequence, lastHeartbeat := now)
  }

  function Closing(r: Registry, proxyId: string, mode: CloseMode): Registry
    requires proxyId in r.proxies
  {
    var p := r.proxies[proxyId];
    if mode == Destroy then
      r.(proxies := r.proxies - {proxyId},
         retained := if |p.items| <= r.retained then r.retained - |p.items| else 0,
         admitted := if r.admitted == 0 then 0 else r.admitted - 1,
         free := r.free + Slots(p.items))
    else r.(proxies := r.proxies[proxyId := Dropped(p)])
  }

  /** The registry's answer to a message on an attached stream, and the proxy's new state. */
  function Handled(r: Registry, proxyId: string, message: ClientMessage, now: int): (Registry, Reply)
    requires proxyId in r.proxies
  {
    var p := r.proxies[proxyId];
    var refused := (code: Code) => Reply(code, proxyId, p.generation, None, false);
    match message
    case Activate(generation, updates) =>
      if p.active || generation != p.generation then (r, refused(FailedPrecondition))
      else
        var decoded := Decoded(p, updates, true);
        if decoded.Wrong? then (r, refused(InvalidArgument))
        else (r.(proxies := r.proxies[proxyId := Activated(p, decoded.value, now)]),
              Answered(proxyId, p.generation, Active(p.generation)))
    case ChangeValues(generation, sequence, updates) =>
      if !p.active || generation != p.generation then (r, refused(FailedPrecondition))
      else if sequence != p.clientSequence + 1 then (r, refused(OutOfRange))
      else
        var decoded := Decoded(p, updates, false);
        if decoded.Wrong? then (r, refused(InvalidArgument))
        else (r.(proxies := r.proxies[proxyId := Amended(p, decoded.value, sequence, now)]),
              Answered(proxyId, p.generation, UpdateAck(p.generation, sequence)))
    case Heartbeat(generation) =>
      if generation != p.generation then (r, refused(FailedPrecondition))
      else (r.(proxies := r.proxies[proxyId := p.(lastHeartbeat := now)]),
            Answered(proxyId, p.generation, HeartbeatAck(p.generation)))
    case Close(generation, mode) =>
      if generation != p.generation || mode == Unspecified then (r, refused(InvalidArgument))
      else (Closing(r, proxyId, mode), Reply(Done, proxyId, p.generation, Some(Closed(proxyId, mode)), true))
    case _ => (r, refused(InvalidArgument))
  }

  /** Consume one message from the stream that holds (`attachedId`, `generation`); the first has no id yet. */
  function Consumed(
      cfg: Config, r: Registry, attachedId: string, generation: nat, message: ClientMessage, env: Environment)
    : (Registry, Reply)
  {
    var first := attachedId == "";
    if first != (message.Create? || message.Attach?) then (r, Refused(InvalidArgument))
    else if message.Create? then Created(cfg, r, message.schema, env)
    else if message.Attach? then AttachedTo(r, message.proxyId, message.name, message.token, env.now)
    else if !Current(r, attachedId, generation) then (r, Refused(FailedPrecondition))
    else Handled(r, attachedId, message, env.now)
  }

  // ---- Sampling and shutdown ----

  function SampledAll(cfg: Config, r: Registry, now: int): Registry {
    r.(proxies := map id | id in r.proxies :: Sampled(r.proxies[id], now, cfg.heartbeatTimeout).0)
  }

  /** The slots each component holds. */
  function Held(proxies: map<string, Proxy>): map<string, seq<nat>> {
    map id | id in proxies :: Slots(proxies[id].items)
  }

  function ShutDown(r: Registry, order: seq<string>): Registry {
    r.(proxies := map[], retained := 0,
       admitted := if |r.proxies.Keys| <= r.admitted then r.admitted - |r.proxies.Keys| else 0,
       free := r.free + HeldBy(Held(r.proxies), order))
  }

  // ---- Whole runs ----

  datatype Step =
    | Consume(attachedId: string, generation: nat, message: ClientMessage, env: Environment)
    | Leave(proxyId: string, generation: nat)
    | Sample(now: int)
    | HalChange(proxyId: string, suffix: string, value: HalValue)
    | StopAdmission
    | Shutdown(order: seq<string>)

  /** HAL itself may change any value but the online pin, keeping its type. */
  function HalChanged(r: Registry, proxyId: string, suffix: string, value: HalValue): Registry {
    if proxyId !in r.proxies || suffix == ONLINE || suffix !in r.proxies[proxyId].values then r
    else
      var p := r.proxies[proxyId];
      if TypeOf(value) != TypeOf(p.values[suffix]) then r
      else r.(proxies := r.proxies[proxyId := p.(values := p.values[suffix := value])])
  }

  /** Random ids are drawn until one is neither empty nor in use. */
  predicate FreshId(r: Registry, env: Environment) {
    env.proxyId != "" && env.proxyId !in r.proxies
  }

  function Next(cfg: Config, r: Registry, step: Step): Registry {
    match step
    case Consume(id, generation, message, env) =>
      if FreshId(r, env) then Consumed(cfg, r, id, generation, message, env).0 else r
    case Leave(id, generation) => Detached(r, id, generation)
    case Sample(now) => SampledAll(cfg, r, now)
    case HalChange(id, suffix, value) => HalChanged(r, id, suffix, value)
    case StopAdmission => r.(accepting := false)
    case Shutdown(order) => if Enumerates(order, r.proxies.Keys) then ShutDown(r, order) else r
  }

  function Run(cfg: Config, steps: seq<Step>): Registry {
    if steps == [] then Initial(cfg) else Next(cfg, Run(cfg, steps[..|steps| - 1]), steps[|steps| - 1])
  }

  // ---- Invariants ----

  ghost predicate Members(r: Registry) {
    forall id :: id in r.proxies ==> Valid(r.proxies[id]) && 1 <= r.proxies[id].generation
  }

  function Books(r: Registry): Ledger {
    Ledger(r.free, Held(r.proxies), r.retained, r.admitted)
  }

  /** Every proxy is sound and the budgets agree with what the proxies hold. */
  ghost predicate Invariant(cfg: Config, r: Registry) {
    Members(r) && Balanced(cfg.maxItems, Books(r))
  }

  // ---- Every proxy stays valid ----

  lemma {:induction false} LocateSame(a: seq<Item>, b: seq<Item>, suffix: string)
    requires SameItems(a, b)
    ensures Locate(a, suffix) == Locate(b, suffix)
  {
    if b != [] && b[0].suffix != suffix {
      assert forall i :: 0 <= i < |a| - 1 ==> a[1..][i] == a[i + 1] && b[1..][i] == b[i + 1];
      LocateSame(a[1..], b[1..], suffix);
    }
  }

  lemma SameItemsValid(p: Proxy, items: seq<Item>)
    requires Valid(p) && SameItems(items, p.items)
    ensures Valid(p.(items := items)) && Slots(items) == Slots(p.items)
  {
    LocateSame(items, p.items, ONLINE);
  }

  lemma SnapshottedValid(p: Proxy, proxyId: string)
    requires Valid(p)
    ensures var (q, message) := Snapshotted(p, proxyId);
            && Valid(q) && q == p.(items := q.items) && SameItems(q.items, p.items)
            && message.Attached? && Knows(Overlay(map[], message.retained), q.items)
  {
    ItemsValidDistinct(p.prefix, p.items);
    SnapshotItemsGivesView(p.items, p.values);
    SameItemsValid(p, SnapshotItems(p.items, p.values).0);
  }

  lemma {:induction false} ZeroValuesMeaning(items: seq<Item>)
    requires forall i, j :: 0 <= i < j < |items| ==> items[i].suffix != items[j].suffix
    ensures forall i :: 0 <= i < |items| ==>
              items[i].suffix in ZeroValues(items) && ZeroValues(items)[items[i].suffix] == Zero(items[i].halType)
  {
    if items != [] {
      ZeroValuesMeaning(items[..|items| - 1]);
    }
  }

  lemma MakeItemsValid(definitions: seq<Definition>, prefix: string, slots: seq<nat>)
    requires SchemaOk(definitions) && |slots| == |definitions| + 1
    ensures var items := MakeItems(definitions, prefix, slots);
            ItemsValid(prefix, items) && Slots(items) == slots
  {
    var items, n := MakeItems(definitions, prefix, slots), |definitions|;
    assert items[n] == OnlineItem(prefix, slots[n]);
    forall i | 0 <= i < n ensures items[i] == MakeItem(definitions[i], prefix, slots[i]) && MadeWell(prefix, items[i]) {
      MakeItemWell(definitions[i], prefix, slots[i]);
    }
    SuffixesDiffer(definitions, prefix, slots);
    hide SchemaOk, MakeItem, MakeItems, OnlineItem;
    assert Locate(items, ONLINE) == n;
  }

  /** What holds of an item that is not the online pin. */
  predicate MadeWell(prefix: string, item: Item) {
    && item.suffix != ONLINE && item.fullName == prefix + "." + item.suffix
    && (item.clientWritable ==> item.direction != In)
    && (item.disconnect.Some? ==> Writable(item, item.disconnect.value))
  }

  lemma MakeItemWell(d: Definition, prefix: string, slot: nat)
    requires DefinitionOk(d)
    ensures MadeWell(prefix, MakeItem(d, prefix, slot))
  {
  }

  lemma SuffixesDiffer(definitions: seq<Definition>, prefix: string, slots: seq<nat>)
    requires SchemaOk(definitions) && |slots| == |definitions| + 1
    ensures var items := MakeItems(definitions, prefix, slots);
            forall i, j :: 0 <= i < j < |items| ==> items[i].suffix != items[j].suffix
  {
    var items, n := MakeItems(definitions, prefix, slots), |definitions|;
    forall i | 0 <= i < n ensures items[i].suffix == definitions[i].name != ONLINE {
      assert DefinitionOk(definitions[i]);
    }
    assert items[n].suffix == ONLINE;
    hide DefinitionOk, MakeItems;
  }

  lemma NewProxyValid(cfg: Config, schema: Schema, prefix: string, slots: seq<nat>, env: Environment)
    requires SchemaOk(schema.definitions) && |slots| == |schema.definitions| + 1
    ensures var p := NewProxy(cfg, schema, prefix, slots, env);
            Valid(p) && Slots(p.items) == slots && |p.items| == |slots|
  {
    hide SchemaOk, MakeItems;
    var items := MakeItems(schema.definitions, prefix, slots);
    MakeItemsValid(schema.definitions, prefix, slots);
    ZeroValuesMeaning(items);
  }

  lemma OnlineUntouched(p: Proxy, q: Proxy, assignments: seq<Assignment>)
    requires Valid(p) && Proper(p, assignments) && Changes(p, q, assignments)
    ensures q.values[ONLINE] == p.values[ONLINE] && Valid(q)
  {
    var at := Locate(p.items, ONLINE);
    assert !Targets(assignments, at);
  }

  lemma AssignedValid(p: Proxy, updates: seq<Update>, complete: bool)
    requires Valid(p) && Decoded(p, updates, complete).Okay?
    ensures var q := Assigned(p, Decoded(p, updates, complete).value);
            Valid(q) && Changes(p, q, Decoded(p, updates, complete).value)
  {
    AcceptedProper(p, updates);
    var assignments := Decoded(p, updates, complete).value;
    AssignedExactly(p, assignments);
    OnlineUntouched(p, Assigned(p, assignments), assignments);
  }

  lemma OnlineWritten(p: Proxy, online: bool)
    requires Sound(p)
    ensures var q := Written(p, ONLINE, BitValue(online));
            q == p.(values := p.values[ONLINE := BitValue(online)]) && Sound(q)
  {
    WrittenAt(p, Locate(p.items, ONLINE), BitValue(online));
  }

  lemma SampledValid(p: Proxy, now: int, timeout: nat)
    requires Valid(p)
    ensures var q := Sampled(p, now, timeout).0;
            && Valid(q) && SameItems(q.items, p.items) && q.generation == p.generation
            && !Expired(q, now, timeout)
            && (Expired(p, now, timeout) ==> q == Dropped(p))
  {
    if Expired(p, now, timeout) {
      DisconnectedExactly(p);
      DroppedValid(p);
    } else if Due(p, now, timeout) {
      SampleItemsSame(p.items, p.values);
      SameItemsValid(p, SampleItems(p.items, p.values).0);
    }
  }

  lemma {:induction false} SampleItemsSame(items: seq<Item>, values: map<string, HalValue>)
    ensures SameItems(SampleItems(items, values).0, items)
  {
    if items != [] {
      SampleItemsSame(items[..|items| - 1], values);
    }
  }

  // ---- The invariant of every run ----

  lemma MembersPut(r: Registry, after: Registry, proxyId: string, p: Proxy)
    requires Members(r) && Valid(p) && 1 <= p.generation
    requires after.proxies == r.proxies[proxyId := p]
    ensures Members(after)
  {
  }

  lemma HeldPut(proxies: map<string, Proxy>, proxyId: string, p: Proxy)
    ensures Held(proxies[proxyId := p]) == Held(proxies)[proxyId := Slots(p.items)]
  {
  }

  lemma SlotsSame(a: seq<Item>, b: seq<Item>)
    requires SameItems(a, b)
    ensures Slots(a) == Slots(b)
  {
  }

  lemma HeldSame(proxies: map<string, Proxy>, proxyId: string, p: Proxy)
    requires proxyId in proxies && SameItems(p.items, proxies[proxyId].items)
    ensures Held(proxies[proxyId := p]) == Held(proxies)
  {
    SlotsSame(p.items, proxies[proxyId].items);
  }

  /** Replacing one proxy by another with the same items leaves the books as they are. */
  lemma ReplaceKeeps(cfg: Config, r: Registry, proxyId: string, p: Proxy)
    requires Invariant(cfg, r) && proxyId in r.proxies
    requires Valid(p) && 1 <= p.generation && SameItems(p.items, r.proxies[proxyId].items)
    ensures Invariant(cfg, r.(proxies := r.proxies[proxyId := p]))
  {
    var after := r.(proxies := r.proxies[proxyId := p]);
    MembersPut(r, after, proxyId, p);
    HeldSame(r.proxies, proxyId, p);
    assert Books(after) == Books(r);
  }

  lemma AddKeeps(cfg: Config, r: Registry, proxyId: string, p: Proxy, count: nat)
    requires Invariant(cfg, r) && proxyId !in r.proxies && count <= |r.free|
    requires Valid(p) && 1 <= p.generation && Slots(p.items) == Taken(r.free, count)
    ensures Invariant(cfg, Enlarged(r, proxyId, p, count))
  {
    var after := Enlarged(r, proxyId, p, count);
    MembersPut(r, after, proxyId, p);
    HeldPut(r.proxies, proxyId, p);
    assert Books(after) == Granted(Books(r), proxyId, count);
    GrantedBalanced(cfg.maxItems, Books(r), proxyId, count);
  }

  lemma RecycleKeeps(cfg: Config, r: Registry, count: nat)
    requires Invariant(cfg, r) && count <= |r.free|
    ensures Invariant(cfg, r.(free := Recycled(r.free, count)))
  {
    RecycledBalanced(cfg.maxItems, Books(r), count);
  }

  lemma HeldRemoved(proxies: map<string, Proxy>, proxyId: string)
    ensures Held(proxies - {proxyId}) == Held(proxies) - {proxyId}
  {
  }

  lemma DestroyKeeps(cfg: Config, r: Registry, proxyId: string)
    requires Invariant(cfg, r) && proxyId in r.proxies
    ensures Invariant(cfg, Closing(r, proxyId, Destroy))
  {
    hide Balanced, Valid;
    var after := Closing(r, proxyId, Destroy);
    assert Members(after);
    HeldRemoved(r.proxies, proxyId);
    assert Books(after) == Returned(Books(r), proxyId);
    ReturnedBalanced(cfg.maxItems, Books(r), proxyId);
  }

  lemma ShutDownKeeps(cfg: Config, r: Registry, order: seq<string>)
    requires Invariant(cfg, r) && Enumerates(order, r.proxies.Keys)
    ensures Invariant(cfg, ShutDown(r, order))
  {
    assert Held(r.proxies).Keys == r.proxies.Keys;
    AllReturnedBalanced(cfg.maxItems, Books(r), order);
    assert Books(ShutDown(r, order)) == AllReturned(Books(r), order);
  }

  lemma NewcomerValid(cfg: Config, schema: Schema, prefix: string, slots: seq<nat>, env: Environment)
    requires SchemaOk(schema.definitions) && |slots| == |schema.definitions| + 1
    ensures var p := Newcomer(cfg, schema, prefix, slots, env).0;
            Valid(p) && p.generation == 1 && Slots(p.items) == slots
  {
    var p := NewProxy(cfg, schema, prefix, slots, env);
    NewProxyValid(cfg, schema, prefix, slots, env);
    SnapshottedValid(p, env.proxyId);
    assert Slots(Snapshotted(p, env.proxyId).0.items) == Slots(p.items);
  }

  lemma BooksCover(cfg: Config, r: Registry, count: nat)
    requires Invariant(cfg, r) && BudgetAllows(cfg, r, count)
    ensures count <= |r.free|
  {
  }

  lemma NewcomerKeeps(cfg: Config, r: Registry, schema: Schema, prefix: string, env: Environment)
    requires Invariant(cfg, r) && FreshId(r, env) && SchemaOk(schema.definitions)
    requires |schema.definitions| + 1 <= |r.free|
    ensures var count := |schema.definitions| + 1;
            Invariant(cfg, Enlarged(r, env.proxyId, Newcomer(cfg, schema, prefix, Taken(r.free, count), env).0, count))
  {
    var count := |schema.definitions| + 1;
    NewcomerValid(cfg, schema, prefix, Taken(r.free, count), env);
    AddKeeps(cfg, r, env.proxyId, Newcomer(cfg, schema, prefix, Taken(r.free, count), env).0, count);
  }

  /** Creation, also when HAL refuses it partway, keeps the books; and because the two budgets agree, a slab that
      passed the item budget never runs out of slots. */
  lemma CreatedKeeps(cfg: Config, r: Registry, schema: Schema, env: Environment)
    requires Invariant(cfg, r) && FreshId(r, env)
    ensures Invariant(cfg, Created(cfg, r, schema, env).0)
    ensures Created(cfg, r, schema, env).1.code != SlabExhausted
  {
    hide Valid, Balanced, Newcomer, NewProxy;
    var prefix := if schema.prefix == "" then schema.name else schema.prefix;
    var count := |schema.definitions| + 1;
    if SchemaOk(schema.definitions) && BudgetAllows(cfg, r, count) {
      BooksCover(cfg, r, count);
      if env.refusedAfter.Some? && env.refusedAfter.value <= count {
        RecycleKeeps(cfg, r, env.refusedAfter.value);
      } else {
        NewcomerKeeps(cfg, r, schema, prefix, env);
      }
    }
  }

  lemma RejoinedValid(p: Proxy, proxyId: string, now: int)
    requires Valid(p)
    ensures var q := Rejoined(p, proxyId, now).0;
            Valid(q) && q.generation == p.generation + 1 && SameItems(q.items, p.items)
  {
    OnlineWritten(p, false);
    var again := Reattached(p, now);
    assert Valid(again);
    SnapshottedValid(again, proxyId);
  }

  lemma AttachedKeeps(cfg: Config, r: Registry, proxyId: string, name: string, token: string, now: int)
    requires Invariant(cfg, r)
    ensures Invariant(cfg, AttachedTo(r, proxyId, name, token, now).0)
  {
    hide Valid, Balanced, Rejoined, SameItems;
    if proxyId in r.proxies {
      RejoinedValid(r.proxies[proxyId], proxyId, now);
      ReplaceKeeps(cfg, r, proxyId, Rejoined(r.proxies[proxyId], proxyId, now).0);
    }
  }

  lemma ActivatedValid(p: Proxy, updates: seq<Update>, now: int)
    requires Valid(p) && p.attached && Decoded(p, updates, true).Okay?
    ensures var q := Activated(p, Decoded(p, updates, true).value, now);
            Valid(q) && SameItems(q.items, p.items) && q.generation == p.generation
  {
    AssignedValid(p, updates, true);
    OnlineWritten(Assigned(p, Decoded(p, updates, true).value), true);
  }

  lemma AmendedValid(p: Proxy, updates: seq<Update>, sequence: nat, now: int)
    requires Valid(p) && Decoded(p, updates, false).Okay?
    ensures var q := Amended(p, Decoded(p, updates, false).value, sequence, now);
            Valid(q) && SameItems(q.items, p.items) && q.generation == p.generation
  {
    AssignedValid(p, updates, false);
  }

  lemma DroppedKeeps(cfg: Config, r: Registry, proxyId: string)
    requires Invariant(cfg, r) && proxyId in r.proxies
    ensures Invariant(cfg, r.(proxies := r.proxies[proxyId := Dropped(r.proxies[proxyId])]))
  {
    DisconnectedExactly(r.proxies[proxyId]);
    DroppedValid(r.proxies[proxyId]);
    ReplaceKeeps(cfg, r, proxyId, Dropped(r.proxies[proxyId]));
  }

  lemma ActivateKeeps(cfg: Config, r: Registry, proxyId: string, generation: nat, updates: seq<Update>, now: int)
    requires Invariant(cfg, r) && proxyId in r.proxies && r.proxies[proxyId].attached
    ensures Invariant(cfg, Handled(r, proxyId, Activate(generation, updates), now).0)
  {
    hide Valid, Balanced, Decoded, Activated, SameItems;
    var p := r.proxies[proxyId];
    if Decoded(p, updates, true).Okay? {
      ActivatedValid(p, updates, now);
      ReplaceKeeps(cfg, r, proxyId, Activated(p, Decoded(p, updates, true).value, now));
    }
  }

  lemma ChangeKeeps(
      cfg: Config, r: Registry, proxyId: string, generation: nat, sequence: nat, updates: seq<Update>, now: int)
    requires Invariant(cfg, r) && proxyId in r.proxies
    ensures Invariant(cfg, Handled(r, proxyId, ChangeValues(generation, sequence, updates), now).0)
  {
    hide Valid, Balanced, Decoded, Amended, SameItems;
    var p := r.proxies[proxyId];
    if Decoded(p, updates, false).Okay? {
      AmendedValid(p, updates, sequence, now);
      ReplaceKeeps(cfg, r, proxyId, Amended(p, Decoded(p, updates, false).value, sequence, now));
    }
  }

  lemma HeartbeatKeeps(cfg: Config, r: Registry, proxyId: string, now: int)
    requires Invariant(cfg, r) && proxyId in r.proxies
    ensures Invariant(cfg, r.(proxies := r.proxies[proxyId := r.proxies[proxyId].(lastHeartbeat := now)]))
  {
    hide Balanced;
    ReplaceKeeps(cfg, r, proxyId, r.proxies[proxyId].(lastHeartbeat := now));
  }

  lemma HandledKeeps(cfg: Config, r: Registry, proxyId: string, message: ClientMessage, now: int)
    requires Invariant(cfg, r) && proxyId in r.proxies && r.proxies[proxyId].attached
    ensures Invariant(cfg, Handled(r, proxyId, message, now).0)
  {
    hide Valid, Balanced, Decoded, Activated, Amended, SameItems, Dropped;
    match message
    case Activate(generation, updates) => ActivateKeeps(cfg, r, proxyId, generation, updates, now);
    case ChangeValues(generation, sequence, updates) =>
      ChangeKeeps(cfg, r, proxyId, generation, sequence, updates, now);
    case Heartbeat(_) => HeartbeatKeeps(cfg, r, proxyId, now);
    case Close(_, mode) =>
      if mode == Destroy {
        DestroyKeeps(cfg, r, proxyId);
      } else {
        DroppedKeeps(cfg, r, proxyId);
      }
    case _ =>
  }

  lemma SampledAllKeeps(cfg: Config, r: Registry, now: int)
    requires Invariant(cfg, r)
    ensures Invariant(cfg, SampledAll(cfg, r, now))
  {
    hide Valid, Balanced, SameItems, Sampled, Expired;
    var after := SampledAll(cfg, r, now);
    forall id | id in r.proxies
      ensures Valid(after.proxies[id]) && 1 <= after.proxies[id].generation
      ensures Slots(after.proxies[id].items) == Slots(r.proxies[id].items)
    {
      SampledValid(r.proxies[id], now, cfg.heartbeatTimeout);
      SlotsSame(after.proxies[id].items, r.proxies[id].items);
    }
    assert Held(after.proxies) == Held(r.proxies);
    assert Books(after) == Books(r);
  }

  lemma HalChangedKeeps(cfg: Config, r: Registry, proxyId: string, suffix: string, value: HalValue)
    requires Invariant(cfg, r)
    ensures Invariant(cfg, HalChanged(r, proxyId, suffix, value))
  {
    hide Balanced;
    if proxyId in r.proxies && suffix != ONLINE && suffix in r.proxies[proxyId].values
       && TypeOf(value) == TypeOf(r.proxies[proxyId].values[suffix]) {
      var p := r.proxies[proxyId];
      ReplaceKeeps(cfg, r, proxyId, p.(values := p.values[suffix := value]));
    }
  }

  lemma ConsumedKeeps(cfg: Config, r: Registry, id: string, generation: nat, message: ClientMessage, env: Environment)
    requires Invariant(cfg, r) && FreshId(r, env)
    ensures Invariant(cfg, Consumed(cfg, r, id, generation, message, env).0)
  {
    hide Invariant, Created, AttachedTo, Handled;
    if message.Create? {
      CreatedKeeps(cfg, r, message.schema, env);
    } else if message.Attach? {
      AttachedKeeps(cfg, r, message.proxyId, message.name, message.token, env.now);
    } else if Current(r, id, generation) {
      HandledKeeps(cfg, r, id, message, env.now);
    }
  }

  lemma DetachedKeeps(cfg: Config, r: Registry, proxyId: string, generation: nat)
    requires Invariant(cfg, r)
    ensures Invariant(cfg, Detached(r, proxyId, generation))
  {
    hide Members, Balanced, Books, Dropped;
    if Current(r, proxyId, generation) {
      DroppedKeeps(cfg, r, proxyId);
    }
  }

  lemma StopKeeps(cfg: Config, r: Registry)
    requires Invariant(cfg, r)
    ensures Invariant(cfg, r.(accepting := false))
  {
    hide Balanced;
    assert Books(r.(accepting := false)) == Books(r);
  }

  lemma NextKeeps(cfg: Config, r: Registry, step: Step)
    requires Invariant(cfg, r)
    ensures Invariant(cfg, Next(cfg, r, step))
  {
    hide Invariant, Consumed, Detached, SampledAll, HalChanged, ShutDown, FreshId, Enumerates;
    match step
    case Consume(id, generation, message, env) =>
      if FreshId(r, env) {
        ConsumedKeeps(cfg, r, id, generation, message, env);
      }
    case Leave(id, generation) => DetachedKeeps(cfg, r, id, generation);
    case Sample(now) => SampledAllKeeps(cfg, r, now);
    case HalChange(id, suffix, value) => HalChangedKeeps(cfg, r, id, suffix, value);
    case StopAdmission => StopKeeps(cfg, r);
    case Shutdown(order) =>
      if Enumerates(order, r.proxies.Keys) {
        ShutDownKeeps(cfg, r, order);
      }
  }

  lemma {:induction false} RunKeeps(cfg: Config, steps: seq<Step>)
    ensures Invariant(cfg, Run(cfg, steps))
  {
    if steps == [] {
      EmptyBalanced(cfg.maxItems);
      assert Books(Initial(cfg)) == EmptyLedger(cfg.maxItems);
    } else {
      RunKeeps(cfg, steps[..|steps| - 1]);
      NextKeeps(cfg, Run(cfg, steps[..|steps| - 1]), steps[|steps| - 1]);
    }
  }
}
