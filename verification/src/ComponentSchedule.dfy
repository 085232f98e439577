/** When a remote component is sampled, what is then told to its client, and how long an attachment lasts. */
module ComponentSchedule {
  import opened Options
  import opened ComponentMessages
  import opened ComponentProxy
  import opened ComponentBudget
  import opened ComponentRegistry
  import opened ComponentProtocol

  // ---- Sampling ----

  /** The client is told about the item, and its HAL value is not the one last told. */
  predicate Differs(p: Proxy, i: nat)
    requires i < |p.items|
  {
    && p.items[i].serverReadable && p.items[i].suffix in p.values
    && p.items[i].previous != Some(p.values[p.items[i].suffix])
  }

  predicate SomeDiffer(p: Proxy) {
    exists i :: 0 <= i < |p.items| && Differs(p, i)
  }

  function LiveValue(p: Proxy, i: nat): ComponentValue
    requires i < |p.items| && p.items[i].suffix in p.values
  {
    ComponentValue(p.items[i].Ref(), p.values[p.items[i].suffix])
  }

  /** The values are those of the differing items, each once. */
  ghost predicate ListsDiffering(p: Proxy, values: seq<ComponentValue>) {
    && DistinctItems(values)
    && (forall i :: 0 <= i < |p.items| && Differs(p, i) ==> LiveValue(p, i) in values)
    && (forall v :: v in values ==> IsDiffering(p, v))
  }

  ghost predicate IsDiffering(p: Proxy, v: ComponentValue) {
    exists i :: 0 <= i < |p.items| && Differs(p, i) && v == LiveValue(p, i)
  }

  /** Every item the client is told about is now recorded with its HAL value, and the others are as they were. */
  ghost predicate RecordsAll(p: Proxy, items: seq<Item>) {
    && |items| == |p.items|
    && forall i :: 0 <= i < |items| ==>
         items[i] == if Differs(p, i) then p.items[i].(previous := Some(p.values[p.items[i].suffix])) else p.items[i]
  }

  /** What a round that samples the component leaves, and what it offers to the component's stream. */
  ghost predicate Reports(p: Proxy, now: int, q: Proxy, offered: Option<ServerMessage>) {
    && RecordsAll(p, q.items)
    && q == p.(items := q.items, nextSample := now + p.samplingPeriod, serverSequence := q.serverSequence)
    && q.serverSequence == p.serverSequence + (if SomeDiffer(p) then 1 else 0)
    && (offered.Some? <==> SomeDiffer(p))
    && (offered.Some? ==>
          && offered.value.Delta? && offered.value.generation == p.generation
          && offered.value.sequence == q.serverSequence && ListsDiffering(p, offered.value.values))
  }

  /** The component is due: attached, active, heard of in time, and its time has come. */
  predicate IsDue(p: Proxy, now: int, timeout: nat) {
    p.attached && p.active && now - p.lastHeartbeat < timeout && p.nextSample <= now
  }

  function Front(p: Proxy, n: nat): Proxy
    requires n <= |p.items|
  {
    p.(items := p.items[..n])
  }

  lemma ListMore(p: Proxy, n: nat, values: seq<ComponentValue>)
    requires n < |p.items| && DistinctRefs(p.items) && ListsDiffering(Front(p, n), values)
    ensures Differs(p, n) ==> ListsDiffering(Front(p, n + 1), values + [LiveValue(p, n)])
    ensures !Differs(p, n) ==> ListsDiffering(Front(p, n + 1), values)
  {
    var front, next := Front(p, n), Front(p, n + 1);
    assert forall i :: 0 <= i < n ==> front.items[i] == next.items[i] == p.items[i];
    assert next.items[n] == p.items[n];
    assert forall i :: 0 <= i < n ==> (Differs(front, i) <==> Differs(next, i));
    forall v | v in values ensures IsDiffering(next, v) {
      assert IsDiffering(front, v);
      var i :| 0 <= i < n && Differs(front, i) && v == LiveValue(front, i);
      assert Differs(next, i) && v == LiveValue(next, i);
    }
    if Differs(p, n) {
      var added := LiveValue(p, n);
      assert Differs(next, n) && added == LiveValue(next, n);
      forall v | v in values ensures v.item != added.item {
        assert IsDiffering(front, v);
        var i :| 0 <= i < n && Differs(front, i) && v == LiveValue(front, i);
        assert p.items[i].fullName != p.items[n].fullName;
      }
    }
  }

  lemma {:induction false} SampleItemsExact(p: Proxy, n: nat)
    requires n <= |p.items| && DistinctRefs(p.items)
    requires forall i :: 0 <= i < |p.items| ==> p.items[i].suffix in p.values
    ensures var (kept, listed) := SampleItems(p.items[..n], p.values);
            && RecordsAll(Front(p, n), kept) && ListsDiffering(Front(p, n), listed)
            && (listed != [] <==> SomeDiffer(Front(p, n)))
  {
    var (kept, listed) := SampleItems(p.items[..n], p.values);
    if n > 0 {
      SampleItemsExact(p, n - 1);
      assert p.items[..n][..n - 1] == p.items[..n - 1];
      var (before, said) := SampleItems(p.items[..n - 1], p.values);
      ListMore(p, n - 1, said);
      RecordMore(p, n - 1, before, kept);
      hide DistinctRefs;
    }
    if listed != [] {
      assert IsDiffering(Front(p, n), listed[0]);
    }
  }

  lemma RecordMore(p: Proxy, n: nat, before: seq<Item>, after: seq<Item>)
    requires n < |p.items| && p.items[n].suffix in p.values && RecordsAll(Front(p, n), before)
    requires after == before + [if Differs(p, n) then p.items[n].(previous := Some(p.values[p.items[n].suffix]))
                                else p.items[n]]
    ensures RecordsAll(Front(p, n + 1), after)
  {
    var front, next := Front(p, n), Front(p, n + 1);
    forall i | 0 <= i < n + 1
      ensures after[i] == if Differs(next, i) then next.items[i].(previous := Some(next.values[next.items[i].suffix]))
                          else next.items[i]
    {
      if i < n {
        assert front.items[i] == next.items[i] && after[i] == before[i];
      }
    }
  }

  lemma SampledExact(p: Proxy, now: int, timeout: nat)
    requires Valid(p) && !Expired(p, now, timeout)
    ensures var (q, offered) := Sampled(p, now, timeout);
            if IsDue(p, now, timeout) then Reports(p, now, q, offered) else q == p && offered == None
  {
    ItemsValidDistinct(p.prefix, p.items);
    SampleItemsExact(p, |p.items|);
    assert Front(p, |p.items|) == p && p.items[..|p.items|] == p.items;
    hide RecordsAll, ListsDiffering, SomeDiffer, SampleItems, ItemsValid, ValuesValid;
  }

  /** Over every run, a round at `now` samples exactly the components that are due: it records the HAL value of every
      item the client is told about and offers a delta of those that differed from what it was last told, if there are
      any. A component that is neither due nor late is left alone. */
  lemma RoundIsExact(cfg: Config, steps: seq<Step>, now: int, id: string)
    requires id in Run(cfg, steps).proxies
    ensures var p := Run(cfg, steps).proxies[id];
            var offered := Sampled(p, now, cfg.heartbeatTimeout).1;
            && id in Next(cfg, Run(cfg, steps), Sample(now)).proxies
            && var q := Next(cfg, Run(cfg, steps), Sample(now)).proxies[id];
               if IsDue(p, now, cfg.heartbeatTimeout) then Reports(p, now, q, offered)
               else offered == None && (!Expired(p, now, cfg.heartbeatTimeout) ==> q == p)
  {
    RunKeeps(cfg, steps);
    var p := Run(cfg, steps).proxies[id];
    assert Valid(p);
    hide Run, Balanced, Reports, Valid;
    if !Expired(p, now, cfg.heartbeatTimeout) {
      SampledExact(p, now, cfg.heartbeatTimeout);
    }
  }

  // ---- Staying attached ----

  /** Attached under this generation, and last heard of at `time` or later. */
  predicate HeardSince(r: Registry, id: string, generation: nat, time: int) {
    && id in r.proxies && r.proxies[id].attached && r.proxies[id].generation == generation
    && time <= r.proxies[id].lastHeartbeat
  }

  lemma HandledHeard(cfg: Config, r: Registry, id: string, message: ClientMessage, now: int)
    requires Invariant(cfg, r) && id in r.proxies && r.proxies[id].attached && !message.Close?
    ensures var (after, reply) := Handled(r, id, message, now);
            && id in after.proxies && after.proxies[id].attached
            && after.proxies[id].generation == r.proxies[id].generation
            && after.proxies[id].lastHeartbeat ==
                 (if reply.code == Done then now else r.proxies[id].lastHeartbeat)
            && reply.proxyId == id && reply.generation == r.proxies[id].generation
  {
    hide Balanced, Valid, Decoded, Activated, Amended;
    var p := r.proxies[id];
    assert Valid(p);
    match message
    case Activate(_, updates) =>
      if Decoded(p, updates, true).Okay? {
        ActivatedHeard(p, updates, now);
      }
    case ChangeValues(_, sequence, updates) =>
      if Decoded(p, updates, false).Okay? {
        AmendedHeard(p, updates, sequence, now);
      }
    case _ =>
  }

  lemma ActivatedHeard(p: Proxy, updates: seq<Update>, now: int)
    requires Valid(p) && Decoded(p, updates, true).Okay?
    ensures var q := Activated(p, Decoded(p, updates, true).value, now);
            q.attached == p.attached && q.generation == p.generation && q.lastHeartbeat == now
  {
    ActivatedExactly(p, updates, now);
    hide Activated, SetsExactly;
  }

  lemma AmendedHeard(p: Proxy, updates: seq<Update>, sequence: nat, now: int)
    requires Valid(p) && Decoded(p, updates, false).Okay?
    ensures var q := Amended(p, Decoded(p, updates, false).value, sequence, now);
            q.attached == p.attached && q.generation == p.generation && q.lastHeartbeat == now
  {
    AssignedValid(p, updates, false);
  }

  lemma RejoinedHeard(p: Proxy, id: string, now: int)
    requires Valid(p)
    ensures var q := Rejoined(p, id, now).0;
            q.attached && q.generation == p.generation + 1 && q.lastHeartbeat == now && !q.active
  {
    OnlineWritten(p, false);
    var again := Reattached(p, now);
    assert Valid(again);
    SnapshottedValid(again, id);
  }

  lemma NewcomerHeard(cfg: Config, schema: Schema, prefix: string, slots: seq<nat>, env: Environment)
    requires SchemaOk(schema.definitions) && |slots| == |schema.definitions| + 1
    ensures var q := Newcomer(cfg, schema, prefix, slots, env).0;
            q.attached && q.generation == 1 && q.lastHeartbeat == env.now
  {
  }

  /** Whoever gets a message accepted, unless it closes the component, is attached from then on and was heard of now. */
  lemma ConsumedHeard(
      cfg: Config, r: Registry, id: string, generation: nat, message: ClientMessage, env: Environment)
    requires Invariant(cfg, r) && FreshId(r, env) && !message.Close?
    requires Consumed(cfg, r, id, generation, message, env).1.code == Done
    ensures var (after, reply) := Consumed(cfg, r, id, generation, message, env);
            && HeardSince(after, reply.proxyId, reply.generation, env.now)
            && after.proxies[reply.proxyId].lastHeartbeat == env.now
            && reply.proxyId ==
                 (if message.Create? then env.proxyId else if message.Attach? then message.proxyId else id)
  {
    hide Balanced, Newcomer, SchemaOk, BudgetAllows, NameTaken, Valid, Rejoined, Handled, Recycled;
    if message.Attach? {
      assert Valid(r.proxies[message.proxyId]);
      RejoinedHeard(r.proxies[message.proxyId], message.proxyId, env.now);
    } else if message.Create? {
      var prefix := if message.schema.prefix == "" then message.schema.name else message.schema.prefix;
      NewcomerHeard(cfg, message.schema, prefix, Taken(r.free, |message.schema.definitions| + 1), env);
    } else {
      HandledHeard(cfg, r, id, message, env.now);
    }
  }

  /** The step happens between `time` and the timeout after it, and does not end the attachment of `id`. */
  predicate Harmless(cfg: Config, step: Step, id: string, time: int) {
    match step
    case Consume(other, _, message, env) =>
      time <= env.now < time + cfg.heartbeatTimeout && !(message.Close? && other == id)
    case Leave(other, _) => other != id
    case Sample(now) => time <= now < time + cfg.heartbeatTimeout
    case Shutdown(_) => false
    case _ => true
  }

  predicate AllHarmless(cfg: Config, steps: seq<Step>, id: string, time: int) {
    forall i :: 0 <= i < |steps| ==> Harmless(cfg, steps[i], id, time)
  }

  lemma ConsumeStaysHeard(
      cfg: Config, r: Registry, id: string, generation: nat, time: int, other: string, held: nat,
      message: ClientMessage, env: Environment)
    requires Invariant(cfg, r) && FreshId(r, env) && HeardSince(r, id, generation, time)
    requires time <= env.now && !(message.Close? && other == id)
    ensures HeardSince(Consumed(cfg, r, other, held, message, env).0, id, generation, time)
  {
    hide Balanced, Newcomer, SchemaOk, BudgetAllows, NameTaken, Valid, Rejoined, Recycled;
    if other != "" && ComponentRegistry.Current(r, other, held) && other == id && !message.Create? && !message.Attach? {
      HandledHeard(cfg, r, id, message, env.now);
    }
  }

  lemma NextStaysHeard(cfg: Config, r: Registry, id: string, generation: nat, time: int, step: Step)
    requires Invariant(cfg, r) && HeardSince(r, id, generation, time) && Harmless(cfg, step, id, time)
    ensures HeardSince(Next(cfg, r, step), id, generation, time)
  {
    hide Balanced, Consumed, Valid, Dropped, FreshId, Enumerates, SampleItems;
    match step
    case Consume(other, held, message, env) =>
      if FreshId(r, env) {
        ConsumeStaysHeard(cfg, r, id, generation, time, other, held, message, env);
      }
    case _ =>
  }

  lemma {:induction false} RunStaysHeard(
      cfg: Config, steps: seq<Step>, more: seq<Step>, id: string, generation: nat, time: int)
    requires HeardSince(Run(cfg, steps), id, generation, time) && AllHarmless(cfg, more, id, time)
    ensures HeardSince(Run(cfg, steps + more), id, generation, time)
  {
    hide Run, Next, Invariant, HeardSince, Harmless;
    if more == [] {
      assert steps + more == steps;
    } else {
      var n := |more| - 1;
      assert forall i :: 0 <= i < n ==> more[..n][i] == more[i];
      RunStaysHeard(cfg, steps, more[..n], id, generation, time);
      RunStep(cfg, steps, more);
      RunKeeps(cfg, steps + more[..n]);
      NextStaysHeard(cfg, Run(cfg, steps + more[..n]), id, generation, time, more[n]);
    }
  }

  /** Over every run, a client whose creation, attach, activation, update or heartbeat is accepted stays attached, under
      the same generation, through everything that happens within the heartbeat timeout, unless it leaves, closes the
      component or the server shuts down. */
  lemma HeartbeatKeepsAttached(
      cfg: Config, steps: seq<Step>, id: string, generation: nat, message: ClientMessage, env: Environment,
      more: seq<Step>)
    requires FreshId(Run(cfg, steps), env) && !message.Close?
    requires Consumed(cfg, Run(cfg, steps), id, generation, message, env).1.code == Done
    requires AllHarmless(cfg, more, Consumed(cfg, Run(cfg, steps), id, generation, message, env).1.proxyId, env.now)
    ensures var reply := Consumed(cfg, Run(cfg, steps), id, generation, message, env).1;
            var r := Run(cfg, steps + [Consume(id, generation, message, env)] + more);
            && reply.proxyId in r.proxies && r.proxies[reply.proxyId].attached
            && r.proxies[reply.proxyId].generation == reply.generation
  {
    var step := Consume(id, generation, message, env);
    var reply := Consumed(cfg, Run(cfg, steps), id, generation, message, env).1;
    RunKeeps(cfg, steps);
    RunStep(cfg, steps, [step]);
    assert steps + [step][..0] == steps;
    hide Run, Consumed, Invariant, AllHarmless;
    ConsumedHeard(cfg, Run(cfg, steps), id, generation, message, env);
    RunStaysHeard(cfg, steps + [step], more, reply.proxyId, reply.generation, env.now);
  }
}
