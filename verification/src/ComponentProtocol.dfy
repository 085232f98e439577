/** What the remote component registry promises over whole runs, to clients, to HAL and to its own budgets. */
module ComponentProtocol {
  import opened Options
  import opened ComponentMessages
  import opened ComponentProxy
  import opened ComponentBudget
  import opened ComponentRegistry
  import opened Sums

  // ---- Budgets ----

  ghost function ItemCount(r: Registry): string -> nat {
    id => if id in r.proxies then |r.proxies[id].items| else 0
  }

  predicate Holds(r: Registry, id: string, i: int, slot: nat) {
    id in r.proxies && 0 <= i < |r.proxies[id].items| && r.proxies[id].items[i].slot == slot
  }

  lemma HeldAt(cfg: Config, r: Registry, a: string, i: int, b: string, j: int, slot: nat)
    requires Balanced(cfg.maxItems, Books(r)) && Holds(r, a, i, slot) && Holds(r, b, j, slot)
    ensures a == b && i == j && slot !in r.free
  {
    var held := Held(r.proxies);
    assert held[a][i] == slot && held[b][j] == slot;
    assert Apart(held[a], r.free);
    assert NoRepeats(held[a]);
    assert a != b ==> Apart(held[a], held[b]);
  }

  /** Over every run, including creations that HAL refuses partway: the retained count is the number of items and of
      slab slots in use, no slot has two holders or is free while held, and admissions count the components. */
  lemma BudgetsAgree(cfg: Config, steps: seq<Step>)
    ensures var r := Run(cfg, steps);
            && r.retained == Sum(r.proxies.Keys, ItemCount(r))
            && r.retained == cfg.maxItems - |r.free|
            && r.admitted == |r.proxies.Keys|
            && (forall a, i, b, j, slot :: Holds(r, a, i, slot) && Holds(r, b, j, slot) ==>
                  a == b && i == j && slot !in r.free)
  {
    RunKeeps(cfg, steps);
    var r := Run(cfg, steps);
    hide Run, Members;
    assert Held(r.proxies).Keys == r.proxies.Keys;
    SumCongruent(r.proxies.Keys, Size(Held(r.proxies)), ItemCount(r));
    forall a, i, b, j, slot | Holds(r, a, i, slot) && Holds(r, b, j, slot) ensures a == b && i == j && slot !in r.free {
      HeldAt(cfg, r, a, i, b, j, slot);
    }
  }

  /** Once the budget check passes, the slab cannot run out in the middle of a creation. */
  lemma CreateNeverRunsOut(cfg: Config, steps: seq<Step>, schema: Schema, env: Environment)
    requires FreshId(Run(cfg, steps), env)
    ensures Created(cfg, Run(cfg, steps), schema, env).1.code != SlabExhausted
  {
    RunKeeps(cfg, steps);
    CreatedKeeps(cfg, Run(cfg, steps), schema, env);
  }

  /** A refused message leaves the registry as it was; a creation that HAL refused partway has only turned round the
      free slots it had taken. */
  lemma RefusedChangesNothing(
      cfg: Config, r: Registry, id: string, generation: nat, message: ClientMessage, env: Environment)
    requires Consumed(cfg, r, id, generation, message, env).1.code != Done
    ensures var after := Consumed(cfg, r, id, generation, message, env).0;
            && after == r.(free := after.free)
            && (exists count :: 0 <= count <= |r.free| && after.free == Recycled(r.free, count))
            && (!message.Create? ==> after == r)
  {
    hide Newcomer, SchemaOk, NameTaken, Decoded, Rejoined;
    assert Recycled(r.free, 0) == r.free;
    hide Recycled;
  }

  // ---- Attachments ----

  /** Over every run an active component is attached, and its online pin says whether it is active. */
  lemma OnlineMeansActive(cfg: Config, steps: seq<Step>, id: string)
    requires id in Run(cfg, steps).proxies
    ensures var p := Run(cfg, steps).proxies[id];
            (p.active ==> p.attached) && ONLINE in p.values && p.values[ONLINE] == BitValue(p.active)
  {
    RunKeeps(cfg, steps);
    hide Run, Balanced;
    var p := Run(cfg, steps).proxies[id];
    assert Valid(p);
    assert p.items[Locate(p.items, ONLINE)].suffix in p.values;
  }

  /** How far an attachment handle can still be from becoming current again. */
  predicate Spent(r: Registry, id: string, generation: nat) {
    id in r.proxies &&
    (generation < r.proxies[id].generation || (generation == r.proxies[id].generation && !r.proxies[id].attached))
  }

  /** A step may end the current attachment; only an attach replaces it, and with a larger generation. */
  predicate Moves(p: Proxy, q: Proxy) {
    q.generation > p.generation || (q.generation == p.generation && (q.attached ==> p.attached))
  }

  lemma ConsumedMoves(
      cfg: Config, r: Registry, id: string, generation: nat, message: ClientMessage, env: Environment, other: string)
    requires Invariant(cfg, r) && FreshId(r, env) && other in r.proxies
    ensures var after := Consumed(cfg, r, id, generation, message, env).0;
            other in after.proxies ==> Moves(r.proxies[other], after.proxies[other])
  {
    hide Balanced, Newcomer, SchemaOk, BudgetAllows, NameTaken, Valid, Decoded, Recycled, Dropped;
    if message.Attach? && message.proxyId in r.proxies {
      RejoinedValid(r.proxies[message.proxyId], message.proxyId, env.now);
    } else if Current(r, id, generation) {
      var p := r.proxies[id];
      assert Valid(p);
      if message.Activate? && Decoded(p, message.updates, true).Okay? {
        ActivatedValid(p, message.updates, env.now);
      } else if message.ChangeValues? && Decoded(p, message.updates, false).Okay? {
        AmendedValid(p, message.updates, message.sequence, env.now);
      } else if message.Close? {
        DroppedMoves(p);
      }
    }
  }

  lemma DroppedMoves(p: Proxy)
    requires Valid(p)
    ensures Moves(p, Dropped(p))
  {
    DisconnectedExactly(p);
  }

  lemma NextMoves(cfg: Config, r: Registry, step: Step, id: string)
    requires Invariant(cfg, r) && id in r.proxies && id in Next(cfg, r, step).proxies
    ensures Moves(r.proxies[id], Next(cfg, r, step).proxies[id])
  {
    hide Balanced, Consumed, Valid, Dropped, Sampled, FreshId, Enumerates;
    assert Valid(r.proxies[id]);
    match step
    case Consume(other, generation, message, env) =>
      if FreshId(r, env) {
        ConsumedMoves(cfg, r, other, generation, message, env, id);
      }
    case Leave(other, generation) => DroppedMoves(r.proxies[id]);
    case Sample(now) => SampledMoves(r.proxies[id], now, cfg.heartbeatTimeout);
    case _ =>
  }

  lemma SampledMoves(p: Proxy, now: int, timeout: nat)
    requires Valid(p)
    ensures Moves(p, Sampled(p, now, timeout).0)
  {
    if Expired(p, now, timeout) {
      DroppedMoves(p);
    }
  }

  /** The component with this id is never destroyed while `more` happens. */
  ghost predicate Lives(cfg: Config, steps: seq<Step>, more: seq<Step>, id: string) {
    forall k :: 0 <= k <= |more| ==> id in Run(cfg, steps + more[..k]).proxies
  }

  lemma RunStep(cfg: Config, steps: seq<Step>, more: seq<Step>)
    requires more != []
    ensures Run(cfg, steps + more) == Next(cfg, Run(cfg, steps + more[..|more| - 1]), more[|more| - 1])
  {
    hide Next;
    var n := |more| - 1;
    assert (steps + more)[..|steps + more| - 1] == steps + more[..n];
    assert (steps + more)[|steps + more| - 1] == more[n];
  }

  lemma LivesFront(cfg: Config, steps: seq<Step>, more: seq<Step>, id: string)
    requires more != [] && Lives(cfg, steps, more, id)
    ensures Lives(cfg, steps, more[..|more| - 1], id)
    ensures id in Run(cfg, steps + more).proxies && id in Run(cfg, steps + more[..|more| - 1]).proxies
  {
    hide Run;
    var n := |more| - 1;
    assert more[..n + 1] == more;
    forall k | 0 <= k <= n ensures id in Run(cfg, steps + more[..n][..k]).proxies {
      assert more[..n][..k] == more[..k];
    }
    assert id in Run(cfg, steps + more[..n]).proxies;
  }

  /** An attachment handle that stopped being current never becomes current again in the component's life. */
  lemma {:induction false} OnceStaleAlwaysStale(
      cfg: Config, steps: seq<Step>, more: seq<Step>, id: string, generation: nat)
    requires Lives(cfg, steps, more, id) && Spent(Run(cfg, steps), id, generation)
    ensures Spent(Run(cfg, steps + more), id, generation) && !Current(Run(cfg, steps + more), id, generation)
  {
    hide Run, Next, Invariant, Lives;
    if more == [] {
      assert steps + more == steps;
    } else {
      var before := steps + more[..|more| - 1];
      LivesFront(cfg, steps, more, id);
      OnceStaleAlwaysStale(cfg, steps, more[..|more| - 1], id, generation);
      RunStep(cfg, steps, more);
      RunKeeps(cfg, before);
      NextMoves(cfg, Run(cfg, before), more[|more| - 1], id);
    }
  }

  /** The generation of a component never falls. */
  lemma {:induction false} GenerationGrows(cfg: Config, steps: seq<Step>, more: seq<Step>, id: string)
    requires Lives(cfg, steps, more, id)
    ensures id in Run(cfg, steps).proxies && id in Run(cfg, steps + more).proxies
    ensures Run(cfg, steps).proxies[id].generation <= Run(cfg, steps + more).proxies[id].generation
  {
    assert steps + more[..0] == steps && more[..|more|] == more;
    assert id in Run(cfg, steps + more[..0]).proxies && id in Run(cfg, steps + more[..|more|]).proxies;
    hide Run, Next, Invariant, Lives;
    if more != [] {
      var before := steps + more[..|more| - 1];
      LivesFront(cfg, steps, more, id);
      GenerationGrows(cfg, steps, more[..|more| - 1], id);
      RunStep(cfg, steps, more);
      RunKeeps(cfg, before);
      NextMoves(cfg, Run(cfg, before), more[|more| - 1], id);
    }
  }

  /** An accepted attach hands out a generation larger than every generation the component had before. */
  lemma AttachIsNewer(cfg: Config, steps: seq<Step>, more: seq<Step>, id: string, name: string, token: string, now: int)
    requires Lives(cfg, steps, more, id)
    requires AttachedTo(Run(cfg, steps + more), id, name, token, now).1.code == Done
    ensures id in Run(cfg, steps).proxies
    ensures Run(cfg, steps).proxies[id].generation <
            AttachedTo(Run(cfg, steps + more), id, name, token, now).1.generation
  {
    GenerationGrows(cfg, steps, more, id);
    RunKeeps(cfg, steps + more);
    RejoinedValid(Run(cfg, steps + more).proxies[id], id, now);
  }

  /** A stale handle has no effect: its messages are refused and its departure is ignored. */
  lemma StaleHandleIsInert(
      cfg: Config, r: Registry, id: string, generation: nat, message: ClientMessage, env: Environment)
    requires id != "" && !Current(r, id, generation)
    ensures Consumed(cfg, r, id, generation, message, env).0 == r
    ensures Consumed(cfg, r, id, generation, message, env).1.code ==
            if message.Create? || message.Attach? then InvalidArgument else FailedPrecondition
    ensures Detached(r, id, generation) == r
  {
  }

  /** Whatever happens after a handle stopped being current, as long as the component lives, nothing sent with it has an
      effect. */
  lemma StaleHandleStaysInert(
      cfg: Config, steps: seq<Step>, more: seq<Step>, id: string, generation: nat,
      message: ClientMessage, env: Environment)
    requires id != "" && Lives(cfg, steps, more, id) && Spent(Run(cfg, steps), id, generation)
    ensures var r := Run(cfg, steps + more);
            && Consumed(cfg, r, id, generation, message, env).0 == r
            && Consumed(cfg, r, id, generation, message, env).1.code ==
                 (if message.Create? || message.Attach? then InvalidArgument else FailedPrecondition)
            && Detached(r, id, generation) == r
  {
    OnceStaleAlwaysStale(cfg, steps, more, id, generation);
    hide Run, Lives, Consumed, Detached, Current, Spent;
    StaleHandleIsInert(cfg, Run(cfg, steps + more), id, generation, message, env);
  }

  // ---- Values ----

  /** An accepted change sets exactly the items it names, and nothing at all in any other component. */
  lemma ChangeIsExact(cfg: Config, steps: seq<Step>, id: string, sequence: nat, updates: seq<Update>, env: Environment)
    requires var r := Run(cfg, steps);
             id != "" && id in r.proxies &&
             Consumed(cfg, r, id, r.proxies[id].generation,
                      ChangeValues(r.proxies[id].generation, sequence, updates), env).1.code == Done
    ensures var r := Run(cfg, steps);
            var p := r.proxies[id];
            var after := Consumed(cfg, r, id, p.generation, ChangeValues(p.generation, sequence, updates), env).0;
            && p.active && sequence == p.clientSequence + 1
            && after == r.(proxies := r.proxies[id := after.proxies[id]])
            && after.proxies[id] ==
                 p.(values := after.proxies[id].values, clientSequence := sequence, lastHeartbeat := env.now)
            && SetsExactly(p, after.proxies[id].values, updates)
  {
    var r := Run(cfg, steps);
    RunKeeps(cfg, steps);
    var p := r.proxies[id];
    assert Valid(p);
    hide Run, Balanced, SetsExactly, Valid;
    AssignedValid(p, updates, false);
    ChangesSetExactly(p, Assigned(p, Decoded(p, updates, false).value), updates);
  }

  lemma WrittenThenOnline(p: Proxy, written: Proxy, updates: seq<Update>)
    requires Valid(p) && Sound(written) && SetsExactly(p, written.values, updates)
    requires written == p.(values := written.values) && written.values[ONLINE] == p.values[ONLINE]
    ensures var q := Written(written, ONLINE, BitValue(true));
            && q == p.(values := q.values) && ONLINE in p.values
            && ONLINE in q.values && q.values[ONLINE] == BitValue(true)
            && SetsExactly(p, q.values[ONLINE := p.values[ONLINE]], updates)
  {
    hide SetsExactly, Written;
    OnlineWritten(written, true);
    assert p.items[Locate(p.items, ONLINE)].suffix == ONLINE;
    hide Sound, Valid, ItemsValid, ValuesValid;
    assert written.values[ONLINE := BitValue(true)][ONLINE := p.values[ONLINE]] == written.values;
  }

  lemma AssignedExactlyNamed(p: Proxy, updates: seq<Update>)
    requires Valid(p) && Decoded(p, updates, true).Okay?
    ensures var written := Assigned(p, Decoded(p, updates, true).value);
            && Sound(written) && SetsExactly(p, written.values, updates)
            && written == p.(values := written.values) && written.values[ONLINE] == p.values[ONLINE]
  {
    var assignments := Decoded(p, updates, true).value;
    AssignedValid(p, updates, true);
    AcceptedProper(p, updates);
    OnlineUntouched(p, Assigned(p, assignments), assignments);
    ChangesSetExactly(p, Assigned(p, assignments), updates);
  }

  lemma ActivatedExactly(p: Proxy, updates: seq<Update>, now: int)
    requires Valid(p) && Decoded(p, updates, true).Okay?
    ensures var q := Activated(p, Decoded(p, updates, true).value, now);
            && q == p.(values := q.values, active := true, lastHeartbeat := now)
            && ONLINE in p.values && ONLINE in q.values && q.values[ONLINE] == BitValue(true)
            && SetsExactly(p, q.values[ONLINE := p.values[ONLINE]], updates)
  {
    AssignedExactlyNamed(p, updates);
    hide SetsExactly, Assigned, Written, Decoded, Sound, Valid;
    WrittenThenOnline(p, Assigned(p, Decoded(p, updates, true).value), updates);
  }

  lemma ActivatedCompletely(p: Proxy, updates: seq<Update>)
    requires Decoded(p, updates, true).Okay?
    ensures forall k :: 0 <= k < |p.items| && p.items[k].clientWritable ==> Names(p, updates, k)
  {
    CompleteTargetsAll(p, updates);
    TargetsAreNamed(p, updates);
  }

  /** An accepted activation sets every item the client owns, as named, and no other; then the component is online. */
  lemma ActivationIsComplete(cfg: Config, steps: seq<Step>, id: string, updates: seq<Update>, env: Environment)
    requires var r := Run(cfg, steps);
             id != "" && id in r.proxies &&
             Consumed(cfg, r, id, r.proxies[id].generation,
                      Activate(r.proxies[id].generation, updates), env).1.code == Done
    ensures var r := Run(cfg, steps);
            var p := r.proxies[id];
            var after := Consumed(cfg, r, id, p.generation, Activate(p.generation, updates), env).0;
            && id in after.proxies && after == r.(proxies := r.proxies[id := after.proxies[id]])
            && var q := after.proxies[id];
            && !p.active && q == p.(values := q.values, active := true, lastHeartbeat := env.now)
            && ONLINE in p.values && ONLINE in q.values && q.values[ONLINE] == BitValue(true)
            && SetsExactly(p, q.values[ONLINE := p.values[ONLINE]], updates)
            && (forall k :: 0 <= k < |p.items| && p.items[k].clientWritable ==> Names(p, updates, k))
  {
    var r := Run(cfg, steps);
    RunKeeps(cfg, steps);
    var p := r.proxies[id];
    assert Valid(p);
    hide Run, Balanced, Valid, SetsExactly, Names, Activated, Decoded;
    ActivatedExactly(p, updates, env.now);
    ActivatedCompletely(p, updates);
  }

  /** Some update names the item at position `k`. */
  ghost predicate Names(p: Proxy, updates: seq<Update>, k: nat) {
    exists i :: 0 <= i < |updates| && FindItem(p.items, p.prefix, updates[i].item) == k
  }

  /** Every named item is one the client owns and takes the value given for it; every other item keeps its value. */
  ghost predicate SetsExactly(p: Proxy, values: map<string, HalValue>, updates: seq<Update>) {
    && (forall i :: 0 <= i < |updates| ==>
          var at := FindItem(p.items, p.prefix, updates[i].item);
          && at < |p.items| && p.items[at].clientWritable
          && p.items[at].suffix in values && updates[i].value == Some(values[p.items[at].suffix]))
    && (forall k :: 0 <= k < |p.items| && !Names(p, updates, k) ==>
          && p.items[k].suffix in values && p.items[k].suffix in p.values
          && values[p.items[k].suffix] == p.values[p.items[k].suffix])
  }

  lemma TargetsAreNamed(p: Proxy, updates: seq<Update>)
    requires Accepted(p, updates).Okay?
    ensures forall k: nat :: Targets(Accepted(p, updates).value, k) ==> Names(p, updates, k)
  {
    AcceptedProper(p, updates);
    var assignments := Accepted(p, updates).value;
    forall k: nat | Targets(assignments, k) ensures Names(p, updates, k) {
      var i :| 0 <= i < |assignments| && assignments[i].index == k;
      assert FindItem(p.items, p.prefix, updates[i].item) == k;
    }
  }

  lemma ChangesSetExactly(p: Proxy, q: Proxy, updates: seq<Update>)
    requires Valid(p) && Accepted(p, updates).Okay? && Changes(p, q, Accepted(p, updates).value)
    ensures SetsExactly(p, q.values, updates)
  {
    AcceptedProper(p, updates);
    var assignments := Accepted(p, updates).value;
    forall k | 0 <= k < |p.items| && !Names(p, updates, k) ensures !Targets(assignments, k) {
      TargetsAreNamed(p, updates);
    }
  }

  /** After a sampling round at `now`, no component past its heartbeat timeout is attached or online; those that were
      late hold their disconnect values and keep all others. */
  lemma LateComponentsAreDropped(cfg: Config, steps: seq<Step>, now: int, id: string)
    requires id in Run(cfg, steps).proxies
    ensures var p, q := Run(cfg, steps).proxies[id], SampledAll(cfg, Run(cfg, steps), now).proxies[id];
            && !Expired(q, now, cfg.heartbeatTimeout)
            && (Expired(p, now, cfg.heartbeatTimeout) ==>
                  && !q.attached && !q.active && ONLINE in q.values && q.values[ONLINE] == BitValue(false)
                  && forall i :: 0 <= i < |p.items| && p.items[i].suffix != ONLINE ==>
                       && p.items[i].suffix in p.values && p.items[i].suffix in q.values
                       && q.values[p.items[i].suffix] == p.items[i].disconnect.ValueOr(p.values[p.items[i].suffix]))
  {
    RunKeeps(cfg, steps);
    hide Run, Balanced;
    var p := Run(cfg, steps).proxies[id];
    assert Valid(p);
    SampledValid(p, now, cfg.heartbeatTimeout);
    DisconnectedExactly(p);
    assert p.items[Locate(p.items, ONLINE)].suffix == ONLINE;
  }

  // ---- Names and tokens ----

  predicate SameOwner(p: Proxy, q: Proxy) {
    q.name == p.name && q.token == p.token
  }

  lemma RejoinedOwner(p: Proxy, id: string, now: int)
    requires Valid(p)
    ensures SameOwner(p, Rejoined(p, id, now).0)
  {
    OnlineWritten(p, false);
    var again := Reattached(p, now);
    assert Valid(again);
    SnapshottedValid(again, id);
  }

  lemma DroppedOwner(p: Proxy)
    requires Valid(p)
    ensures SameOwner(p, Dropped(p))
  {
    DisconnectedExactly(p);
  }

  lemma SampledOwner(p: Proxy, now: int, timeout: nat)
    requires Valid(p)
    ensures SameOwner(p, Sampled(p, now, timeout).0)
  {
    hide Disconnected;
    if Expired(p, now, timeout) {
      DroppedOwner(p);
    }
  }

  lemma HandledOwner(cfg: Config, r: Registry, id: string, message: ClientMessage, now: int)
    requires Invariant(cfg, r) && id in r.proxies && id in Handled(r, id, message, now).0.proxies
    ensures SameOwner(r.proxies[id], Handled(r, id, message, now).0.proxies[id])
  {
    hide Balanced, Valid, Decoded, Activated, Dropped, SetsExactly, Changes;
    var p := r.proxies[id];
    assert Valid(p);
    match message
    case Activate(_, updates) =>
      if Decoded(p, updates, true).Okay? {
        ActivatedExactly(p, updates, now);
      }
    case ChangeValues(_, sequence, updates) =>
      if Decoded(p, updates, false).Okay? {
        AmendedOwner(p, updates, sequence, now);
      }
    case Close(_, _) => DroppedOwner(p);
    case _ =>
  }

  lemma AmendedOwner(p: Proxy, updates: seq<Update>, sequence: nat, now: int)
    requires Valid(p) && Decoded(p, updates, false).Okay?
    ensures SameOwner(p, Amended(p, Decoded(p, updates, false).value, sequence, now))
  {
    AssignedValid(p, updates, false);
  }

  lemma ConsumedOwner(
      cfg: Config, r: Registry, id: string, generation: nat, message: ClientMessage, env: Environment, other: string)
    requires Invariant(cfg, r) && FreshId(r, env) && other in r.proxies
    requires other in Consumed(cfg, r, id, generation, message, env).0.proxies
    ensures SameOwner(r.proxies[other], Consumed(cfg, r, id, generation, message, env).0.proxies[other])
  {
    hide Balanced, Newcomer, SchemaOk, BudgetAllows, NameTaken, Valid, Rejoined, Decoded, Activated, Amended, Dropped;
    if message.Attach? && message.proxyId in r.proxies {
      assert Valid(r.proxies[message.proxyId]);
      RejoinedOwner(r.proxies[message.proxyId], message.proxyId, env.now);
    } else if id != "" && Current(r, id, generation) && id == other && !message.Create? && !message.Attach? {
      HandledOwner(cfg, r, id, message, env.now);
    }
  }

  lemma NextOwner(cfg: Config, r: Registry, step: Step, id: string)
    requires Invariant(cfg, r) && id in r.proxies && id in Next(cfg, r, step).proxies
    ensures SameOwner(r.proxies[id], Next(cfg, r, step).proxies[id])
  {
    hide Balanced, Consumed, Valid, Dropped, Sampled, FreshId, Enumerates;
    assert Valid(r.proxies[id]);
    match step
    case Consume(other, generation, message, env) =>
      if FreshId(r, env) {
        ConsumedOwner(cfg, r, other, generation, message, env, id);
      }
    case Leave(other, generation) => DroppedOwner(r.proxies[id]);
    case Sample(now) => SampledOwner(r.proxies[id], now, cfg.heartbeatTimeout);
    case _ =>
  }

  lemma {:induction false} OwnerStays(cfg: Config, steps: seq<Step>, more: seq<Step>, id: string)
    requires Lives(cfg, steps, more, id)
    ensures id in Run(cfg, steps).proxies && id in Run(cfg, steps + more).proxies
    ensures SameOwner(Run(cfg, steps).proxies[id], Run(cfg, steps + more).proxies[id])
  {
    assert steps + more[..0] == steps && more[..|more|] == more;
    assert id in Run(cfg, steps + more[..0]).proxies && id in Run(cfg, steps + more[..|more|]).proxies;
    hide Run, Next, Invariant, Lives;
    if more != [] {
      var before := steps + more[..|more| - 1];
      LivesFront(cfg, steps, more, id);
      OwnerStays(cfg, steps, more[..|more| - 1], id);
      RunStep(cfg, steps, more);
      RunKeeps(cfg, before);
      NextOwner(cfg, Run(cfg, before), more[|more| - 1], id);
    }
  }

  /** However long a component lives and whoever was attached to it, an attach is accepted if and only if it gives the
      name and token the component had from the start and nobody is attached. */
  lemma OnlyItsTokenAttaches(
      cfg: Config, steps: seq<Step>, more: seq<Step>, id: string, name: string, token: string, now: int)
    requires Lives(cfg, steps, more, id)
    ensures id in Run(cfg, steps).proxies && id in Run(cfg, steps + more).proxies
    ensures AttachedTo(Run(cfg, steps + more), id, name, token, now).1.code == Done <==>
            && name == Run(cfg, steps).proxies[id].name && token == Run(cfg, steps).proxies[id].token
            && !Run(cfg, steps + more).proxies[id].attached
  {
    OwnerStays(cfg, steps, more, id);
    hide Run, Rejoined;
  }

  predicate NamesDiffer(r: Registry) {
    forall a, b :: a in r.proxies && b in r.proxies && a != b ==> r.proxies[a].name != r.proxies[b].name
  }

  lemma CreatedNames(cfg: Config, r: Registry, schema: Schema, env: Environment)
    requires NamesDiffer(r) && FreshId(r, env)
    ensures NamesDiffer(Created(cfg, r, schema, env).0)
  {
    hide SchemaOk, BudgetAllows, MakeItems, SnapshotItems;
  }

  /** A step that creates nothing and renames nothing keeps names apart. */
  lemma KeptNames(r: Registry, after: Registry)
    requires NamesDiffer(r)
    requires forall id :: id in after.proxies ==> id in r.proxies && SameOwner(r.proxies[id], after.proxies[id])
    ensures NamesDiffer(after)
  {
  }

  lemma NextNames(cfg: Config, r: Registry, step: Step)
    requires Invariant(cfg, r) && NamesDiffer(r)
    ensures NamesDiffer(Next(cfg, r, step))
  {
    var after := Next(cfg, r, step);
    if step.Consume? && step.message.Create? {
      hide Invariant, Created, NamesDiffer;
      if FreshId(r, step.env) {
        CreatedNames(cfg, r, step.message.schema, step.env);
      }
    } else {
      OnlyCreateAdds(cfg, r, step);
      hide Invariant, Next, NamesDiffer, SameOwner;
      forall id | id in after.proxies ensures id in r.proxies && SameOwner(r.proxies[id], after.proxies[id]) {
        NextOwner(cfg, r, step, id);
      }
      KeptNames(r, after);
    }
  }

  lemma OnlyCreateAdds(cfg: Config, r: Registry, step: Step)
    requires !(step.Consume? && step.message.Create?)
    ensures Next(cfg, r, step).proxies.Keys <= r.proxies.Keys
  {
    hide Rejoined, Decoded, Activated, Amended, Dropped, Sampled, Enumerates;
  }

  /** Over every run no two components have the same name. */
  lemma {:induction false} NamesAreUnique(cfg: Config, steps: seq<Step>)
    ensures NamesDiffer(Run(cfg, steps))
  {
    if steps != [] {
      NamesAreUnique(cfg, steps[..|steps| - 1]);
      RunKeeps(cfg, steps[..|steps| - 1]);
      hide Next, Invariant, NamesDiffer;
      NextNames(cfg, Run(cfg, steps[..|steps| - 1]), steps[|steps| - 1]);
    }
  }
}
