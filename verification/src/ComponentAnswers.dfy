/** What the registry answers to each message of a client, and what the message then does. */
module ComponentAnswers {
  import opened Options
  import opened ComponentMessages
  import opened ComponentProxy
  import opened ComponentBudget
  import opened ComponentRegistry
  import opened ComponentProtocol
  import opened Sums

  // ---- Creating ----

  /** What a client may ask for: a typed pin or parameter with a name of its own, and a disconnect value of its type
      unless only HAL sets it. */
  predicate Sensible(d: Definition) {
    && d.name != "" && d.name != "online" && d.halType.Some? && d.direction.Some?
    && (match d.kind
        case Pin => d.direction.value in {In, Out, Io} && (d.disconnect.Some? ==> d.direction.value != In)
        case Param => d.direction.value in {ReadOnly, ReadWrite})
    && (d.disconnect.Some? ==> d.disconnect.value.Some? && TypeOf(d.disconnect.value.value) == d.halType.value)
  }

  predicate SensibleSchema(definitions: seq<Definition>) {
    && (forall i :: 0 <= i < |definitions| ==> Sensible(definitions[i]))
    && (forall i, j :: 0 <= i < j < |definitions| ==> definitions[i].name != definitions[j].name)
  }

  lemma SensibleIffOk(definitions: seq<Definition>)
    ensures SensibleSchema(definitions) <==> SchemaOk(definitions)
  {
    forall i | 0 <= i < |definitions| ensures Sensible(definitions[i]) <==> DefinitionOk(definitions[i]) {
    }
    hide Sensible, DefinitionOk;
  }

  /** The item a definition asks for: what the client may set is all but inputs, and it is told about inputs and about
      what both sides may set. */
  predicate IsItemFor(d: Definition, prefix: string, item: Item)
    requires Sensible(d)
  {
    && item.suffix == d.name && item.kind == d.kind && item.fullName == prefix + "." + d.name
    && item.halType == d.halType.value && item.direction == d.direction.value
    && item.clientWritable == (d.direction.value != In)
    && item.serverReadable == (d.direction.value in {In, Io, ReadWrite})
    && item.disconnect == (if d.disconnect.Some? then d.disconnect.value else None)
  }

  predicate IsZero(v: HalValue) {
    match v
    case BitValue(b) => !b
    case FloatValue(x) => x == 0.0
    case S32Value(n) => n == 0
    case U32Value(n) => n == 0
    case S64Value(n) => n == 0
    case U64Value(n) => n == 0
  }

  /** The snapshot tells the HAL value of every item, in order, and each is recorded as told. */
  ghost predicate TellsAll(p: Proxy, told: seq<ComponentValue>) {
    && |told| == |p.items|
    && forall i :: 0 <= i < |p.items| ==>
         && p.items[i].suffix in p.values
         && told[i] == ComponentValue(p.items[i].Ref(), p.values[p.items[i].suffix])
         && p.items[i].previous == Some(p.values[p.items[i].suffix])
  }

  /** The number within the bounds that is nearest to the one asked for. */
  predicate IsNearest(asked: nat, low: nat, high: nat, given: nat) {
    low <= high ==>
      && low <= given <= high && (asked < low ==> given == low) && (high < asked ==> given == high)
      && (low <= asked <= high ==> given == asked)
  }

  ghost predicate IsCreated(cfg: Config, schema: Schema, env: Environment, p: Proxy) {
    var prefix := if schema.prefix == "" then schema.name else schema.prefix;
    var n := |schema.definitions|;
    && SensibleSchema(schema.definitions)
    && p.name == schema.name && p.prefix == prefix && p.token == env.token
    && IsNearest(if schema.samplingPeriod == 0 then cfg.defaultSampling else schema.samplingPeriod,
                 cfg.minSampling, cfg.maxSampling, p.samplingPeriod)
    && p.nextSample == env.now && p.lastHeartbeat == env.now
    && p.generation == 1 && p.clientSequence == 0 && p.serverSequence == 0 && p.attached && !p.active
    && |p.items| == n + 1
    && (forall i :: 0 <= i < n ==> IsItemFor(schema.definitions[i], prefix, p.items[i]))
    && p.items[n].suffix == "online" && p.items[n].kind == Pin && p.items[n].halType == Bit
    && p.items[n].direction == Out && p.items[n].fullName == prefix + ".online"
    && !p.items[n].clientWritable && !p.items[n].serverReadable && p.items[n].disconnect == None
    && (forall i :: 0 <= i <= n ==>
          p.items[i].suffix in p.values && IsZero(p.values[p.items[i].suffix])
          && TypeOf(p.values[p.items[i].suffix]) == p.items[i].halType)
  }

  lemma {:induction false} SnapshotTells(items: seq<Item>, values: map<string, HalValue>)
    requires forall i :: 0 <= i < |items| ==> items[i].suffix in values
    ensures var (kept, told) := SnapshotItems(items, values);
            && |kept| == |told| == |items|
            && forall i :: 0 <= i < |items| ==>
                 && told[i] == ComponentValue(items[i].Ref(), values[items[i].suffix])
                 && kept[i] == items[i].(previous := Some(values[items[i].suffix]))
  {
    if items != [] {
      SnapshotTells(items[..|items| - 1], values);
    }
  }

  lemma SnapshottedTells(p: Proxy, id: string)
    requires Valid(p)
    ensures var (q, message) := Snapshotted(p, id);
            && message.Attached? && message.proxyId == id && message.attachedGeneration == p.generation
            && TellsAll(q, message.retained) && q == p.(items := q.items)
            && |q.items| == |p.items|
            && forall i :: 0 <= i < |p.items| ==> q.items[i] == p.items[i].(previous := q.items[i].previous)
  {
    SnapshotTells(p.items, p.values);
    hide SnapshotItems, ItemsValid;
  }

  lemma NewProxyCreated(cfg: Config, schema: Schema, prefix: string, slots: seq<nat>, env: Environment)
    requires SchemaOk(schema.definitions) && |slots| == |schema.definitions| + 1
    requires prefix == if schema.prefix == "" then schema.name else schema.prefix
    ensures IsCreated(cfg, schema, env, NewProxy(cfg, schema, prefix, slots, env))
  {
    var p := NewProxy(cfg, schema, prefix, slots, env);
    SensibleIffOk(schema.definitions);
    SuffixesDiffer(schema.definitions, prefix, slots);
    ZeroValuesMeaning(p.items);
    hide SensibleSchema, ZeroValues;
    forall i | 0 <= i < |schema.definitions|
      ensures Sensible(schema.definitions[i]) && IsItemFor(schema.definitions[i], prefix, p.items[i])
    {
      assert DefinitionOk(schema.definitions[i]);
      assert p.items[i] == MakeItem(schema.definitions[i], prefix, slots[i]);
    }
    assert p.items[|schema.definitions|] == OnlineItem(prefix, slots[|schema.definitions|]);
    hide MakeItems, SchemaOk, MakeItem, IsItemFor;
    assert SensibleSchema(schema.definitions);
    forall i | 0 <= i < |p.items| ensures IsZero(p.values[p.items[i].suffix]) {
      assert p.values[p.items[i].suffix] == Zero(p.items[i].halType);
    }
  }

  lemma SnapshottedCreated(cfg: Config, schema: Schema, env: Environment, p: Proxy, q: Proxy)
    requires IsCreated(cfg, schema, env, p) && q == p.(items := q.items) && |q.items| == |p.items|
    requires forall i :: 0 <= i < |p.items| ==> q.items[i] == p.items[i].(previous := q.items[i].previous)
    ensures IsCreated(cfg, schema, env, q)
  {
    forall i | 0 <= i < |schema.definitions|
      ensures Sensible(schema.definitions[i])
      ensures IsItemFor(schema.definitions[i], q.prefix, q.items[i])
    {
      assert IsItemFor(schema.definitions[i], p.prefix, p.items[i]);
    }
  }

  lemma NewcomerTells(cfg: Config, schema: Schema, prefix: string, slots: seq<nat>, env: Environment)
    requires SchemaOk(schema.definitions) && |slots| == |schema.definitions| + 1
    requires prefix == if schema.prefix == "" then schema.name else schema.prefix
    ensures var (q, message) := Newcomer(cfg, schema, prefix, slots, env);
            && IsCreated(cfg, schema, env, q)
            && message.Attached? && message.proxyId == env.proxyId && message.attachedGeneration == 1
            && TellsAll(q, message.retained)
  {
    var p := NewProxy(cfg, schema, prefix, slots, env);
    NewProxyValid(cfg, schema, prefix, slots, env);
    NewProxyCreated(cfg, schema, prefix, slots, env);
    assert p.generation == 1;
    hide NewProxy, Snapshotted, IsCreated, SchemaOk, Valid;
    SnapshottedTells(p, env.proxyId);
    SnapshottedCreated(cfg, schema, env, p, Snapshotted(p, env.proxyId).0);
  }

  /** The items of all components, and of this one. */
  ghost predicate Fits(cfg: Config, r: Registry, count: nat) {
    Sum(r.proxies.Keys, ItemCount(r)) + count <= cfg.maxItems && |r.proxies.Keys| < cfg.maxComponents
  }

  /** The answer to a request for a component. */
  ghost function CreateCode(cfg: Config, r: Registry, open: bool, schema: Schema, env: Environment): Code {
    if schema.name == "" then InvalidArgument
    else if exists id :: id in r.proxies && r.proxies[id].name == schema.name then AlreadyExists
    else if !SensibleSchema(schema.definitions) then InvalidArgument
    else if !open || !Fits(cfg, r, |schema.definitions| + 1) then ResourceExhausted
    else if env.refusedAfter.Some? && env.refusedAfter.value <= |schema.definitions| + 1 then HalFailure
    else Done
  }

  lemma {:induction false} OpenUntilStopped(cfg: Config, steps: seq<Step>)
    ensures Run(cfg, steps).accepting <==> StopAdmission !in steps
  {
    if steps != [] {
      var front, last := steps[..|steps| - 1], steps[|steps| - 1];
      OpenUntilStopped(cfg, front);
      assert steps == front + [last];
      NextOpen(cfg, Run(cfg, front), last);
      hide Next;
    }
  }

  lemma NextOpen(cfg: Config, r: Registry, step: Step)
    ensures Next(cfg, r, step).accepting == (r.accepting && step != StopAdmission)
  {
    hide Newcomer, Rejoined, Decoded, Activated, Amended, Dropped, SchemaOk, NameTaken, BudgetAllows, Sampled;
  }

  lemma BudgetFits(cfg: Config, r: Registry, count: nat)
    requires Invariant(cfg, r)
    ensures BudgetAllows(cfg, r, count) <==> r.accepting && Fits(cfg, r, count)
    ensures BudgetAllows(cfg, r, count) ==> count <= |r.free|
  {
    hide Members;
    assert Held(r.proxies).Keys == r.proxies.Keys;
    SumCongruent(r.proxies.Keys, Size(Held(r.proxies)), ItemCount(r));
  }

  /** Over every run, a component is created exactly if its name is new, its schema sensible, its items and it fit into
      what the budgets leave, and HAL takes it; any other request gets the code that says why not. The new component is
      as the schema asks, nothing else changes, and the client is told the value of every item. */
  lemma CreateIsAnswered(cfg: Config, steps: seq<Step>, schema: Schema, env: Environment)
    requires FreshId(Run(cfg, steps), env)
    ensures var r := Run(cfg, steps);
            var (after, reply) := Consumed(cfg, r, "", 0, Create(schema), env);
            && reply.code == CreateCode(cfg, r, StopAdmission !in steps, schema, env)
            && (reply.code == Done ==>
                  && after.proxies == r.proxies[env.proxyId := after.proxies[env.proxyId]]
                  && IsCreated(cfg, schema, env, after.proxies[env.proxyId])
                  && reply.proxyId == env.proxyId && reply.generation == 1 && !reply.close
                  && reply.response.Some? && reply.response.value.Attached?
                  && reply.response.value.proxyId == env.proxyId && reply.response.value.attachedGeneration == 1
                  && TellsAll(after.proxies[env.proxyId], reply.response.value.retained))
  {
    hide Run, Balanced, Valid, IsCreated, TellsAll, Newcomer, Fits, BudgetAllows, SensibleSchema, SchemaOk, Recycled;
    RunKeeps(cfg, steps);
    OpenUntilStopped(cfg, steps);
    var r, count := Run(cfg, steps), |schema.definitions| + 1;
    SensibleIffOk(schema.definitions);
    BudgetFits(cfg, r, count);
    if SchemaOk(schema.definitions) && count <= |r.free| {
      var prefix := if schema.prefix == "" then schema.name else schema.prefix;
      NewcomerTells(cfg, schema, prefix, Taken(r.free, count), env);
    }
  }

  // ---- Attaching ----

  /** Over every run, attaching is answered as not found unless the component and its name agree, as unauthenticated
      unless its token is given, as existing while somebody is attached, and otherwise starts a new attachment: under
      the next generation, offline, counting from the start, with every value told. */
  lemma AttachIsAnswered(
      cfg: Config, steps: seq<Step>, id: string, name: string, token: string, env: Environment)
    requires FreshId(Run(cfg, steps), env)
    ensures var r := Run(cfg, steps);
            var (after, reply) := Consumed(cfg, r, "", 0, Attach(id, name, token), env);
            if id !in r.proxies || r.proxies[id].name != name then reply.code == NotFound && after == r
            else if r.proxies[id].token != token then reply.code == Unauthenticated && after == r
            else if r.proxies[id].attached then reply.code == AlreadyExists && after == r
            else
              && reply.code == Done && reply.proxyId == id && reply.generation == r.proxies[id].generation + 1
              && !reply.close && after == r.(proxies := r.proxies[id := after.proxies[id]])
              && var p, q := r.proxies[id], after.proxies[id];
                 && q == p.(items := q.items, values := q.values, attached := true, active := false,
                            generation := p.generation + 1, clientSequence := 0, lastHeartbeat := env.now)
                 && ONLINE in p.values && q.values == p.values[ONLINE := BitValue(false)]
                 && reply.response.Some? && reply.response.value.Attached?
                 && reply.response.value.proxyId == id && reply.response.value.attachedGeneration == q.generation
                 && TellsAll(q, reply.response.value.retained)
  {
    RunKeeps(cfg, steps);
    var r := Run(cfg, steps);
    hide Run, Balanced, TellsAll, Snapshotted, Written;
    if id in r.proxies {
      var p := r.proxies[id];
      assert Valid(p);
      OnlineWritten(p, false);
      WrittenAt(p, Locate(p.items, ONLINE), BitValue(false));
      assert p.items[Locate(p.items, ONLINE)].suffix == ONLINE;
      var again := Reattached(p, env.now);
      assert Valid(again);
      hide Valid;
      SnapshottedTells(again, id);
    }
  }

  // ---- Values ----

  /** The values are for items the client owns, of their types, each named once; and where they must be complete, every
      item the client owns is named. */
  ghost predicate WellNamed(p: Proxy, updates: seq<Update>, complete: bool) {
    && (forall i :: 0 <= i < |updates| ==> Settable(p, updates[i]))
    && (forall i, j :: 0 <= i < j < |updates| ==>
          FindItem(p.items, p.prefix, updates[i].item) != FindItem(p.items, p.prefix, updates[j].item))
    && (complete ==> forall k :: 0 <= k < |p.items| && p.items[k].clientWritable ==> Names(p, updates, k))
  }

  predicate Settable(p: Proxy, update: Update) {
    var at := FindItem(p.items, p.prefix, update.item);
    && at < |p.items| && p.items[at].clientWritable
    && update.value.Some? && TypeOf(update.value.value) == p.items[at].halType
  }

  lemma NamedMore(p: Proxy, front: seq<Update>, last: Update)
    ensures WellNamed(p, front + [last], false) <==>
            && WellNamed(p, front, false) && Settable(p, last)
            && !Names(p, front, FindItem(p.items, p.prefix, last.item))
  {
    hide Settable, FindItem;
    var all, at := front + [last], FindItem(p.items, p.prefix, last.item);
    assert all[|front|] == last && forall i :: 0 <= i < |front| ==> all[i] == front[i];
  }

  lemma TargetsIffNamed(p: Proxy, updates: seq<Update>, k: nat)
    requires Accepted(p, updates).Okay?
    ensures Targets(Accepted(p, updates).value, k) <==> Names(p, updates, k)
  {
    AcceptedProper(p, updates);
    TargetsAreNamed(p, updates);
    var accepted := Accepted(p, updates).value;
    hide Accepted, Proper, FindItem;
    if Names(p, updates, k) {
      var i :| 0 <= i < |updates| && FindItem(p.items, p.prefix, updates[i].item) == k;
      assert Carries(p, updates[i], accepted[i]);
      assert accepted[i].index == k;
    }
  }

  lemma {:induction false} AcceptedIffNamed(p: Proxy, updates: seq<Update>)
    ensures Accepted(p, updates).Okay? <==> WellNamed(p, updates, false)
  {
    if updates != [] {
      hide WellNamed, Names, Targets, FindItem;
      var n := |updates| - 1;
      var front, last := updates[..n], updates[n];
      AcceptedIffNamed(p, front);
      assert updates == front + [last];
      NamedMore(p, front, last);
      if Accepted(p, front).Okay? {
        TargetsIffNamed(p, front, FindItem(p.items, p.prefix, last.item));
      }
    }
  }

  lemma DecodedIffNamed(p: Proxy, updates: seq<Update>, complete: bool)
    ensures Decoded(p, updates, complete).Okay? <==> WellNamed(p, updates, complete)
  {
    AcceptedIffNamed(p, updates);
    if complete && Accepted(p, updates).Okay? {
      if Decoded(p, updates, true).Okay? {
        ActivatedCompletely(p, updates);
      } else if WellNamed(p, updates, true) {
        CompleteCounts(p, updates);
      }
    }
  }

  lemma CompleteCounts(p: Proxy, updates: seq<Update>)
    requires Accepted(p, updates).Okay? && WellNamed(p, updates, true)
    ensures |Accepted(p, updates).value| == CountWritable(p.items)
  {
    var accepted := Accepted(p, updates).value;
    AcceptedProper(p, updates);
    IndicesCount(p, accepted);
    CountWritableIsCardinality(p.items);
    forall k | k in WritableIndices(p.items) ensures k in Indices(accepted) {
      assert Names(p, updates, k);
      var i :| 0 <= i < |updates| && FindItem(p.items, p.prefix, updates[i].item) == k;
      assert Carries(p, updates[i], accepted[i]);
      assert accepted[i].index == k;
    }
    assert Indices(accepted) == WritableIndices(p.items);
  }

  /** An item found by its name is the one of its kind whose name, with or without the prefix, it is. */
  lemma {:induction false} FoundByName(items: seq<Item>, prefix: string, item: ItemRef, k: nat)
    requires k < |items| && FindItem(items, prefix, item) == k
    ensures items[k].kind == item.kind
    ensures item.name == prefix + "." + items[k].suffix || item.name == items[k].suffix
  {
    var stem := prefix + ".";
    if stem <= item.name {
      assert item.name == stem + item.name[|stem|..];
    }
  }

  // ---- A message on an attached stream ----

  /** The answer to a message from the client that is attached. */
  ghost function HandleCode(p: Proxy, message: ClientMessage): Code {
    match message
    case Activate(generation, updates) =>
      if p.active || generation != p.generation then FailedPrecondition
      else if WellNamed(p, updates, true) then Done
      else InvalidArgument
    case ChangeValues(generation, sequence, updates) =>
      if !p.active || generation != p.generation then FailedPrecondition
      else if sequence != p.clientSequence + 1 then OutOfRange
      else if WellNamed(p, updates, false) then Done
      else InvalidArgument
    case Heartbeat(generation) => if generation == p.generation then Done else FailedPrecondition
    case Close(generation, mode) => if generation == p.generation && mode != Unspecified then Done else InvalidArgument
    case _ => InvalidArgument
  }

  /** What the client is told. */
  ghost function HandleResponse(id: string, p: Proxy, message: ClientMessage): Option<ServerMessage> {
    match message
    case Activate(_, _) => Some(Active(p.generation))
    case ChangeValues(_, sequence, _) => Some(UpdateAck(p.generation, sequence))
    case Heartbeat(_) => Some(HeartbeatAck(p.generation))
    case Close(_, mode) => Some(Closed(id, mode))
    case _ => None
  }

  /** Nobody is attached, the component is offline, and every item has its disconnect value if there is one. */
  ghost predicate TakenOff(p: Proxy, q: Proxy) {
    && q == p.(values := q.values, attached := false, active := false)
    && ONLINE in q.values && q.values[ONLINE] == BitValue(false)
    && forall i :: 0 <= i < |p.items| && p.items[i].suffix != ONLINE ==>
         && p.items[i].suffix in p.values && p.items[i].suffix in q.values
         && q.values[p.items[i].suffix] == p.items[i].disconnect.ValueOr(p.values[p.items[i].suffix])
  }

  lemma DroppedTakenOff(p: Proxy)
    requires Valid(p)
    ensures TakenOff(p, Dropped(p))
  {
    DisconnectedExactly(p);
    assert p.items[Locate(p.items, ONLINE)].suffix == ONLINE;
    hide Disconnected;
  }

  /** What a message of the attached client brings. */
  ghost predicate IsAnswered(r: Registry, id: string, message: ClientMessage, now: int, after: Registry, reply: Reply)
    requires id in r.proxies
  {
    var p := r.proxies[id];
    && reply.code == HandleCode(p, message) && reply.proxyId == id && reply.generation == p.generation
    && (reply.code != Done ==> after == r && reply.response == None && !reply.close)
    && (reply.code == Done ==> reply.response == HandleResponse(id, p, message) && reply.close == message.Close?)
    && (reply.code == Done && message.Heartbeat? ==>
          after == r.(proxies := r.proxies[id := p.(lastHeartbeat := now)]))
    && (reply.code == Done && message.Close? && message.mode == Destroy ==> after.proxies == r.proxies - {id})
    && (reply.code == Done && message.Close? && message.mode == Detach ==>
          && id in after.proxies && TakenOff(p, after.proxies[id])
          && after == r.(proxies := r.proxies[id := after.proxies[id]]))
  }

  lemma ValuesAnswered(r: Registry, id: string, message: ClientMessage, now: int)
    requires id in r.proxies && (message.Activate? || message.ChangeValues?)
    ensures var (after, reply) := Handled(r, id, message, now);
            IsAnswered(r, id, message, now, after, reply)
  {
    hide WellNamed, Decoded, Activated, Amended;
    DecodedIffNamed(r.proxies[id], message.updates, message.Activate?);
  }

  lemma OthersAnswered(r: Registry, id: string, message: ClientMessage, now: int)
    requires id in r.proxies && Valid(r.proxies[id]) && !message.Activate? && !message.ChangeValues?
    ensures var (after, reply) := Handled(r, id, message, now);
            IsAnswered(r, id, message, now, after, reply)
  {
    hide Dropped, TakenOff, Valid;
    DroppedTakenOff(r.proxies[id]);
  }

  /** Over every run, each message of an attached client gets the answer that its component's state calls for, with the
      component and generation; a refused one has no response and changes nothing, a heartbeat changes only when the
      component was last heard of, and a close takes the component off or away and ends the stream. */
  lemma MessageIsAnswered(cfg: Config, steps: seq<Step>, id: string, message: ClientMessage, env: Environment)
    requires var r := Run(cfg, steps);
             && id != "" && id in r.proxies && r.proxies[id].attached && !message.Create? && !message.Attach?
    ensures var r := Run(cfg, steps);
            var (after, reply) := Consumed(cfg, r, id, r.proxies[id].generation, message, env);
            IsAnswered(r, id, message, env.now, after, reply)
  {
    hide Run, IsAnswered, Balanced, Handled;
    RunKeeps(cfg, steps);
    var r := Run(cfg, steps);
    assert Valid(r.proxies[id]);
    if message.Activate? || message.ChangeValues? {
      ValuesAnswered(r, id, message, env.now);
    } else {
      OthersAnswered(r, id, message, env.now);
    }
  }

  /** Over every run, a message that does not fit the stream's state is refused: one that creates or attaches on an
      attached stream, and any other on a stream that is not, or whose attachment is no longer current. */
  lemma MisplacedIsRefused(
      cfg: Config, steps: seq<Step>, id: string, generation: nat, message: ClientMessage, env: Environment)
    ensures var r := Run(cfg, steps);
            var (after, reply) := Consumed(cfg, r, id, generation, message, env);
            && (id == "" && !message.Create? && !message.Attach? ==> reply.code == InvalidArgument && after == r)
            && (id != "" && (message.Create? || message.Attach?) ==> reply.code == InvalidArgument && after == r)
            && (id != "" && !message.Create? && !message.Attach?
                && (id !in r.proxies || !r.proxies[id].attached || r.proxies[id].generation != generation) ==>
                  reply.code == FailedPrecondition && after == r)
  {
    hide Run;
  }

  /** Over every run, a stream that leaves takes its component off exactly if its attachment is current. */
  lemma LeavingTakesOff(cfg: Config, steps: seq<Step>, id: string, generation: nat)
    ensures var r := Run(cfg, steps);
            var after := Next(cfg, r, Leave(id, generation));
            if id in r.proxies && r.proxies[id].attached && r.proxies[id].generation == generation
            then
              after == r.(proxies := r.proxies[id := after.proxies[id]]) && TakenOff(r.proxies[id], after.proxies[id])
            else after == r
  {
    RunKeeps(cfg, steps);
    var r := Run(cfg, steps);
    hide Run, Balanced, Dropped, TakenOff;
    if id in r.proxies {
      assert Valid(r.proxies[id]);
      DroppedTakenOff(r.proxies[id]);
    }
  }
}
