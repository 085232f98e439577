/**
One component stream together with the registry it talks to, the HAL worker that serves both,
and everything other streams do meanwhile.
*/
module ComponentLink {
  import opened Options
  import opened ComponentMessages
  import opened ComponentProxy
  import opened ComponentRegistry
  import opened ComponentProtocol
  import opened ComponentDelivery
  import ComponentSchedule
  import O = ComponentOutbox
  import ComponentBudget
  import R = ComponentReactor
  import WriteFinish

  /** `used` are the component ids drawn so far, `obtained` the attachments this stream was given, and `offered` the
      messages it was handed for its client. */
  datatype Link = Link(
    registry: Registry,
    used: set<string>,
    stream: R.System,
    obtained: set<R.Handle>,
    offered: seq<ServerMessage>)

  datatype Step =
    | Transport(step: R.Step)
    | Serve(message: ClientMessage, env: Environment)
    | Cleanup
    | Sampling(now: int)
    | Others(action: ComponentRegistry.Step)

  function Start(cfg: Config): Link {
    Link(Initial(cfg), {}, R.UNBORN, {}, [])
  }

  /** The transport, the timers and the server's shutdown reach the stream directly; the worker does the rest. */
  predicate Direct(step: R.Step) {
    !step.WorkDone? && !step.OfferDelta? && !step.HeartbeatTimeout?
  }

  function Reacted(k: Link, step: R.Step): Link {
    k.(stream := R.Next(k.stream, step), offered := k.offered + Offered(k.stream, step))
  }

  function HandleOf(reply: Reply): Option<R.Handle> {
    if reply.proxyId == "" then None else Some(R.Handle(reply.proxyId, reply.generation))
  }

  function ResultOf(reply: Reply): R.Result {
    if reply.code != Done then R.Failed(HandleOf(reply))
    else R.Answered(HandleOf(reply), reply.response, reply.close)
  }

  /** The worker consumes the stream's message and hands the result back, in one task. */
  function Served(cfg: Config, k: Link, message: ClientMessage, env: Environment): Link {
    var handle := k.stream.reactor.handle.ValueOr(R.Handle("", 0));
    var (registry, reply) := Consumed(cfg, k.registry, handle.proxyId, handle.generation, message, env);
    var obtained := if reply.proxyId == "" then {} else {R.Handle(reply.proxyId, reply.generation)};
    Reacted(k.(registry := registry, used := k.used + {env.proxyId}, obtained := k.obtained + obtained),
            R.WorkDone(ResultOf(reply)))
  }

  function CleanedUp(k: Link): Link {
    var r := k.stream.reactor;
    if r.cleanups == [] then k
    else
      k.(registry := Detached(k.registry, r.cleanups[0].proxyId, r.cleanups[0].generation),
         stream := k.stream.(reactor := r.(cleanups := r.cleanups[1..])))
  }

  predicate Holding(k: Link) {
    k.stream.reactor.handle.Some? &&
    Current(k.registry, k.stream.reactor.handle.value.proxyId, k.stream.reactor.handle.value.generation)
  }

  /** A sampling round calls back the stream that holds the component: with a delta, or because it is late. */
  function SampledLink(cfg: Config, k: Link, now: int): Link {
    var after := k.(registry := SampledAll(cfg, k.registry, now));
    if !Holding(k) then after
    else
      var handle := k.stream.reactor.handle.value;
      var p := k.registry.proxies[handle.proxyId];
      if Expired(p, now, cfg.heartbeatTimeout) then Reacted(after, R.HeartbeatTimeout(handle.generation))
      else
        var delta := Sampled(p, now, cfg.heartbeatTimeout).1;
        if delta.None? then after else Reacted(after, R.OfferDelta(delta.value))
  }

  predicate Ours(k: Link, id: string, generation: nat) {
    R.Handle(id, generation) in k.obtained
  }

  /** Other streams act under attachments of their own, and ids are never drawn twice. */
  predicate Foreign(k: Link, action: ComponentRegistry.Step) {
    match action
    case Consume(id, generation, _, env) => !Ours(k, id, generation) && env.proxyId != "" && env.proxyId !in k.used
    case Leave(id, generation) => !Ours(k, id, generation)
    case Sample(_) => false
    case _ => true
  }

  function DrawnBy(action: ComponentRegistry.Step): set<string> {
    if action.Consume? then {action.env.proxyId} else {}
  }

  function Next(cfg: Config, k: Link, step: Step): Link {
    match step
    case Transport(step) => if Direct(step) then Reacted(k, step) else k
    case Serve(message, env) =>
      if !k.stream.reactor.working || !FreshId(k.registry, env) || env.proxyId in k.used then k
      else Served(cfg, k, message, env)
    case Cleanup => CleanedUp(k)
    case Sampling(now) => SampledLink(cfg, k, now)
    case Others(action) =>
      if !Foreign(k, action) then k
      else k.(registry := ComponentRegistry.Next(cfg, k.registry, action), used := k.used + DrawnBy(action))
  }

  function Run(cfg: Config, steps: seq<Step>): Link {
    if steps == [] then Start(cfg) else Next(cfg, Run(cfg, steps[..|steps| - 1]), steps[|steps| - 1])
  }

  // ---- Invariants ----

  const NEWCOMER: Client := Client(map[], 0, 0)

  /** The client that has received everything offered knows the values last recorded as sent. */
  ghost predicate Informed(k: Link) {
    Holding(k) && !k.stream.reactor.finish.TerminationRequested() ==>
      Knows(ReceivedAll(NEWCOMER, k.offered).view, k.registry.proxies[k.stream.reactor.handle.value.proxyId].items)
  }

  /** An attachment that is still current is the stream's own, or its cleanup is queued. */
  ghost predicate Accounted(registry: Registry, obtained: set<R.Handle>, r: R.Reactor) {
    && (r.handle.Some? ==> r.handle.value in obtained && r.handle.value.proxyId != "")
    && (r.handle.None? ==> !r.detachRequested)
    && (forall h :: h in obtained && Current(registry, h.proxyId, h.generation) ==>
          (r.handle == Some(h) && !r.detachRequested) || h in r.cleanups)
  }

  predicate Known(k: Link) {
    && "" !in k.used && k.registry.proxies.Keys <= k.used
    && (forall h :: h in k.obtained ==> h.proxyId in k.used)
  }

  /** An attachment of this stream has been overtaken once the component's generation passed it. */
  predicate NotAhead(registry: Registry, obtained: set<R.Handle>) {
    forall h :: h in obtained && h.proxyId in registry.proxies ==>
      h.generation <= registry.proxies[h.proxyId].generation
  }

  predicate Departed(y: R.System) {
    y.phase == R.Gone ==> y.reactor.gate != R.Open && (y.reactor.handle.Some? ==> y.reactor.detachRequested)
  }

  ghost predicate Orderly(cfg: Config, k: Link) {
    && Invariant(cfg, k.registry) && R.Disciplined(k.stream) && Faithful(k.stream.reactor, k.offered)
    && Known(k) && NotAhead(k.registry, k.obtained)
    && Accounted(k.registry, k.obtained, k.stream.reactor) && Departed(k.stream)
  }

  ghost predicate Sound(cfg: Config, k: Link) {
    Orderly(cfg, k) && Informed(k)
  }

  // ---- What registry steps do to attachments ----

  /** Components move on, and a component that appears has an id never used before. */
  ghost predicate Advances(r: Registry, after: Registry, used: set<string>) {
    forall id :: id in after.proxies ==>
      if id in r.proxies then Moves(r.proxies[id], after.proxies[id]) else id !in used
  }

  lemma ConsumedKeys(cfg: Config, r: Registry, id: string, generation: nat, message: ClientMessage, env: Environment)
    ensures Consumed(cfg, r, id, generation, message, env).0.proxies.Keys <= r.proxies.Keys + {env.proxyId}
  {
    hide Newcomer, Rejoined, Decoded, Activated, Amended, Dropped, SchemaOk, NameTaken, BudgetAllows;
  }

  lemma NextAdvances(cfg: Config, r: Registry, action: ComponentRegistry.Step, used: set<string>)
    requires Invariant(cfg, r) && (action.Consume? ==> action.env.proxyId !in used)
    ensures Advances(r, ComponentRegistry.Next(cfg, r, action), used)
  {
    hide Invariant, Consumed, Moves, Sampled, Dropped;
    var after := ComponentRegistry.Next(cfg, r, action);
    if action.Consume? {
      ConsumedKeys(cfg, r, action.attachedId, action.generation, action.message, action.env);
    }
    forall id | id in after.proxies && id in r.proxies ensures Moves(r.proxies[id], after.proxies[id]) {
      NextMoves(cfg, r, action, id);
    }
  }

  lemma StaleStays(r: Registry, after: Registry, used: set<string>, obtained: set<R.Handle>, h: R.Handle)
    requires Advances(r, after, used) && NotAhead(r, obtained) && h in obtained && h.proxyId in used
    ensures Current(after, h.proxyId, h.generation) ==> Current(r, h.proxyId, h.generation)
    ensures h.proxyId in after.proxies ==> h.generation <= after.proxies[h.proxyId].generation
  {
  }

  ghost predicate NoneRevived(before: Registry, after: Registry, obtained: set<R.Handle>) {
    forall h :: h in obtained && Current(after, h.proxyId, h.generation) ==> Current(before, h.proxyId, h.generation)
  }

  lemma StaleAllStay(k: Link, after: Registry)
    requires Known(k) && NotAhead(k.registry, k.obtained) && Advances(k.registry, after, k.used)
    ensures NotAhead(after, k.obtained) && NoneRevived(k.registry, after, k.obtained)
  {
    hide Advances;
    forall h | h in k.obtained
      ensures Current(after, h.proxyId, h.generation) ==> Current(k.registry, h.proxyId, h.generation)
      ensures h.proxyId in after.proxies ==> h.generation <= after.proxies[h.proxyId].generation
    {
      StaleStays(k.registry, after, k.used, k.obtained, h);
    }
  }

  /** No registry step makes one of this stream's lost attachments current again. */
  lemma RegistryMoves(cfg: Config, k: Link, action: ComponentRegistry.Step)
    requires Orderly(cfg, k) && (action.Consume? ==> action.env.proxyId !in k.used)
    ensures var after := ComponentRegistry.Next(cfg, k.registry, action);
            Invariant(cfg, after) && NotAhead(after, k.obtained) && NoneRevived(k.registry, after, k.obtained)
  {
    hide Invariant, ComponentRegistry.Next, Advances, NotAhead, NoneRevived, Known, R.Disciplined, Faithful, Accounted;
    hide Departed;
    ComponentRegistry.NextKeeps(cfg, k.registry, action);
    NextAdvances(cfg, k.registry, action, k.used);
    StaleAllStay(k, ComponentRegistry.Next(cfg, k.registry, action));
  }

  // ---- What stream steps do to the attachment ----

  /** The stream keeps its attachment and forgets no cleanup; giving the attachment up queues its cleanup, unless the
      registry already dropped it. */
  ghost predicate Holds(r: R.Reactor, q: R.Reactor, dropped: bool) {
    && q.handle == r.handle
    && (forall h :: h in r.cleanups ==> h in q.cleanups)
    && (r.handle.None? ==> q.detachRequested == r.detachRequested)
    && (q.detachRequested && !r.detachRequested ==> dropped || r.handle.value in q.cleanups)
  }

  lemma FinishHolds(r: R.Reactor, status: WriteFinish.Status)
    ensures Holds(r, R.FinishRequested(r, status), false)
    ensures R.FinishRequested(r, status).detachRequested == r.detachRequested
    ensures r.finish.TerminationRequested() ==> R.FinishRequested(r, status).finish.TerminationRequested()
  {
  }

  lemma DetachHolds(r: R.Reactor, status: WriteFinish.Status)
    ensures Holds(r, R.FinishRequested(R.TransportDetached(r), status), false)
    ensures r.handle.Some? ==> R.FinishRequested(R.TransportDetached(r), status).detachRequested
  {
    FinishHolds(R.TransportDetached(r), status);
    hide R.FinishRequested;
  }

  predicate SameHandle(r: R.Reactor, q: R.Reactor) {
    q.handle == r.handle && q.cleanups == r.cleanups && q.detachRequested == r.detachRequested
  }

  lemma FinishSame(r: R.Reactor, status: WriteFinish.Status)
    ensures SameHandle(r, R.FinishRequested(r, status)) && SameHandle(r, R.FinishIfReady(r))
  {
    hide R.FinishIfReady;
    ReadySame(r);
    ReadySame(r.(outbox := [], resumeReadWhenIdle := false, finish := WriteFinish.FinishRequested(r.finish, status)));
  }

  lemma ReadySame(r: R.Reactor)
    ensures SameHandle(r, R.FinishIfReady(r))
  {
  }

  lemma StartSame(r: R.Reactor, entry: O.Entry)
    ensures SameHandle(r, R.WriteStarted(r, entry))
  {
  }

  lemma WriteHolds(r: R.Reactor, ok: bool)
    ensures Holds(r, R.WriteAnswered(r, ok), false)
  {
    hide R.FinishRequested, R.FinishIfReady, R.WriteStarted;
    var completed := r.(finish := WriteFinish.WriteCompleted(r.finish, ok));
    var idle := completed.(resumeReadWhenIdle := completed.resumeReadWhenIdle || completed.activeResponse);
    if completed.finish.MayFinish() {
      FinishSame(completed, WriteFinish.Ok);
    } else if ok {
      if idle.outbox != [] {
        StartSame(idle.(outbox := idle.outbox[1..]), idle.outbox[0]);
      } else {
        FinishSame(idle, WriteFinish.Ok);
      }
    }
  }

  lemma ReadHolds(r: R.Reactor, ok: bool, submitted: bool)
    ensures Holds(r, R.ReadAnswered(r, ok, submitted), false)
  {
    hide R.FinishRequested, R.TransportDetached;
    DetachHolds(r, WriteFinish.Ok);
    FinishHolds(r.(receivedFirstMessage := true), WriteFinish.ResourceExhausted);
  }

  lemma CallbackHolds(y: R.System, step: R.Step)
    requires step.ReadDone? || step.WriteDone? || step.OfferDelta? || step.BeginReading?
    ensures Holds(y.reactor, R.Next(y, step).reactor, false)
  {
    hide R.ReadAnswered, R.WriteAnswered, R.WriteStarted;
    var r := y.reactor;
    match step
    case ReadDone(ok, submitted) =>
      if r.transport.openReads > 0 {
        ReadHolds(r.(transport := r.transport.(openReads := r.transport.openReads - 1)), ok, submitted);
      }
    case WriteDone(ok) =>
      if r.transport.openWrites > 0 {
        WriteHolds(r.(transport := r.transport.(openWrites := r.transport.openWrites - 1)), ok);
      }
    case OfferDelta(message) => StartSame(r, O.Entry(message, false));
    case BeginReading =>
  }

  lemma StopHolds(y: R.System, step: R.Step)
    requires
      || step.Construct? || step.Cancel? || step.Shutdown?
      || step.Tick? || step.HeartbeatTimeout? || step.StreamDone?
    ensures Holds(y.reactor, R.Next(y, step).reactor, step.HeartbeatTimeout?)
  {
    hide R.FinishRequested, R.TransportDetached;
    var r := y.reactor;
    match step
    case Construct(_, _) =>
      DetachHolds(r, WriteFinish.Unavailable);
      FinishHolds(r, WriteFinish.ResourceExhausted);
    case Cancel => DetachHolds(r, WriteFinish.Cancelled);
    case Shutdown => DetachHolds(r, WriteFinish.Unavailable);
    case Tick(_) => FinishHolds(r, WriteFinish.DeadlineExceeded);
    case HeartbeatTimeout(_) => FinishHolds(r.(detachRequested := true), WriteFinish.DeadlineExceeded);
    case StreamDone => DoneHolds(r);
  }

  lemma DoneHolds(r: R.Reactor)
    ensures Holds(r, R.TransportDetached(r.(gate := R.Done)), false)
    ensures r.handle.Some? ==> R.TransportDetached(r.(gate := R.Done)).detachRequested
    ensures R.TransportDetached(r.(gate := R.Done)).gate == R.Done
  {
  }

  lemma StepHolds(y: R.System, step: R.Step)
    requires !step.WorkDone?
    ensures Holds(y.reactor, R.Next(y, step).reactor, step.HeartbeatTimeout?)
  {
    hide R.Next;
    if step.ReadDone? || step.WriteDone? || step.OfferDelta? || step.BeginReading? {
      CallbackHolds(y, step);
    } else {
      StopHolds(y, step);
    }
  }

  /** A gate that closed stays closed, and leaving the stream gives up its attachment. */
  lemma StepDeparts(y: R.System, step: R.Step)
    requires Departed(y)
    ensures Departed(R.Next(y, step))
  {
    hide R.FinishRequested, R.ReadAnswered, R.WriteAnswered, R.WorkAnswered, R.DeltaOffered, R.TimedOut;
    hide R.TransportDetached;
    DoneHolds(y.reactor);
  }

  // ---- Stream steps ----

  lemma AccountedHolds(registry: Registry, obtained: set<R.Handle>, r: R.Reactor, q: R.Reactor, dropped: bool)
    requires Accounted(registry, obtained, r) && Holds(r, q, dropped)
    requires dropped && r.handle.Some? ==> !Current(registry, r.handle.value.proxyId, r.handle.value.generation)
    ensures Accounted(registry, obtained, q)
  {
  }

  lemma TerminationStays(y: R.System, step: R.Step)
    requires R.Disciplined(y) && y.reactor.finish.TerminationRequested()
    ensures R.Next(y, step).reactor.finish.TerminationRequested()
  {
    hide R.Next, R.Coherent, R.Turns;
    if step.Construct? || step.Cancel? || step.Shutdown? || step.Tick? || step.HeartbeatTimeout? {
      R.EndingStop(y, step);
    } else {
      R.EndingCallback(y, step);
    }
  }

  lemma ReactedOrderly(cfg: Config, k: Link, step: R.Step)
    requires Orderly(cfg, k) && !step.WorkDone? && (step.HeartbeatTimeout? ==> !Holding(k))
    ensures var after := Reacted(k, step);
            && Orderly(cfg, after) && after.stream.reactor.handle == k.stream.reactor.handle
            && (k.stream.reactor.finish.TerminationRequested() ==> after.stream.reactor.finish.TerminationRequested())
  {
    hide Invariant, R.Disciplined, Faithful, Accounted, Departed, R.Next, Holds;
    var y, after := k.stream, Reacted(k, step);
    R.NextKeeps(y, step);
    NextDelivers(y, step, k.offered);
    StepHolds(y, step);
    StepDeparts(y, step);
    AccountedHolds(k.registry, k.obtained, y.reactor, after.stream.reactor, step.HeartbeatTimeout?);
    HandleKept(y.reactor, after.stream.reactor, step.HeartbeatTimeout?);
    if y.reactor.finish.TerminationRequested() {
      TerminationStays(y, step);
    }
  }

  lemma TransportKeeps(cfg: Config, k: Link, step: R.Step)
    requires Sound(cfg, k) && Direct(step)
    ensures Sound(cfg, Reacted(k, step))
  {
    hide Orderly, R.Next, Knows;
    ReactedOrderly(cfg, k, step);
    assert Reacted(k, step).offered == k.offered;
  }

  lemma HandleKept(r: R.Reactor, q: R.Reactor, dropped: bool)
    requires Holds(r, q, dropped)
    ensures q.handle == r.handle
  {
  }

  // ---- The worker ----

  lemma DetachedStale(r: Registry, id: string, generation: nat)
    requires id in r.proxies ==> Valid(r.proxies[id])
    ensures !Current(Detached(r, id, generation), id, generation)
    ensures forall other :: other in r.proxies && other != id ==>
              && other in Detached(r, id, generation).proxies
              && Detached(r, id, generation).proxies[other] == r.proxies[other]
    ensures !Current(r, id, generation) ==> Detached(r, id, generation) == r
  {
    if id in r.proxies {
      DroppedValid(r.proxies[id]);
    }
  }

  lemma CleanupKeeps(cfg: Config, k: Link)
    requires Sound(cfg, k)
    ensures Sound(cfg, CleanedUp(k))
  {
    hide Invariant, R.Disciplined, Faithful, Knows, Detached, NotAhead, NoneRevived, Current, Accounted;
    var r := k.stream.reactor;
    if r.cleanups != [] {
      var h, after := r.cleanups[0], CleanedUp(k);
      RegistryMoves(cfg, k, Leave(h.proxyId, h.generation));
      CleanupDisciplined(k.stream, after.stream, k.offered);
      MembersAreValid(cfg, k.registry);
      DetachedStale(k.registry, h.proxyId, h.generation);
      DetachedKeys(k.registry, h.proxyId, h.generation);
      CleanupAccounted(k.registry, after.registry, k.obtained, r);
      CleanupInformed(cfg, k);
    }
  }

  lemma CleanupInformed(cfg: Config, k: Link)
    requires Sound(cfg, k) && k.stream.reactor.cleanups != []
    requires NoneRevived(k.registry, CleanedUp(k).registry, k.obtained)
    ensures Informed(CleanedUp(k))
  {
    hide Invariant, R.Disciplined, Faithful, Knows, Detached, NotAhead;
    var h, after := k.stream.reactor.cleanups[0], CleanedUp(k);
    if Holding(after) {
      assert Holding(k);
      MembersAreValid(cfg, k.registry);
      KeptByDetach(k.registry, h.proxyId, h.generation, k.stream.reactor.handle.value);
    }
  }

  lemma MembersAreValid(cfg: Config, r: Registry)
    requires Invariant(cfg, r)
    ensures forall id :: id in r.proxies ==> Valid(r.proxies[id])
  {
  }

  lemma DetachedKeys(r: Registry, id: string, generation: nat)
    ensures Detached(r, id, generation).proxies.Keys == r.proxies.Keys
  {
  }

  /** Who still holds the component after another handle left kept it untouched. */
  lemma KeptByDetach(r: Registry, id: string, generation: nat, h: R.Handle)
    requires id in r.proxies ==> Valid(r.proxies[id])
    requires Current(Detached(r, id, generation), h.proxyId, h.generation) && Current(r, h.proxyId, h.generation)
    ensures Detached(r, id, generation).proxies[h.proxyId] == r.proxies[h.proxyId]
  {
    DetachedStale(r, id, generation);
  }

  lemma CleanupDisciplined(y: R.System, after: R.System, offered: seq<ServerMessage>)
    requires R.Disciplined(y) && Faithful(y.reactor, offered) && y.reactor.cleanups != []
    requires after == y.(reactor := y.reactor.(cleanups := y.reactor.cleanups[1..]))
    ensures R.Disciplined(after) && Faithful(after.reactor, offered)
  {
    FaithfulSame(y.reactor, after.reactor, offered);
  }

  lemma CleanupAccounted(registry: Registry, after: Registry, obtained: set<R.Handle>, r: R.Reactor)
    requires Accounted(registry, obtained, r) && r.cleanups != []
    requires NoneRevived(registry, after, obtained)
    requires !Current(after, r.cleanups[0].proxyId, r.cleanups[0].generation)
    ensures Accounted(after, obtained, r.(cleanups := r.cleanups[1..]))
  {
    forall h | h in r.cleanups && h != r.cleanups[0] ensures h in r.cleanups[1..] {
      var i :| 0 <= i < |r.cleanups| && r.cleanups[i] == h;
      assert r.cleanups[1..][i - 1] == h;
    }
  }

  // ---- Other streams ----

  /** Nobody else touches a component while this stream holds it. */
  lemma OthersLeaveItems(cfg: Config, r: Registry, action: ComponentRegistry.Step, h: R.Handle)
    requires !action.Sample? && Current(r, h.proxyId, h.generation)
    requires action.Consume? ==>
               R.Handle(action.attachedId, action.generation) != h && action.env.proxyId != h.proxyId
    requires action.Leave? ==> R.Handle(action.proxyId, action.generation) != h
    requires Current(ComponentRegistry.Next(cfg, r, action), h.proxyId, h.generation)
    ensures ComponentRegistry.Next(cfg, r, action).proxies[h.proxyId].items == r.proxies[h.proxyId].items
  {
    hide Newcomer, Rejoined, Decoded, Activated, Amended, Dropped, SchemaOk, NameTaken, BudgetAllows;
    if action.Consume? {
      OthersConsume(cfg, r, action.attachedId, action.generation, action.message, action.env, h);
    }
  }

  lemma OthersConsume(
      cfg: Config, r: Registry, id: string, generation: nat, message: ClientMessage, env: Environment, h: R.Handle)
    requires Current(r, h.proxyId, h.generation) && R.Handle(id, generation) != h && env.proxyId != h.proxyId
    requires h.proxyId in Consumed(cfg, r, id, generation, message, env).0.proxies
    ensures Consumed(cfg, r, id, generation, message, env).0.proxies[h.proxyId] == r.proxies[h.proxyId]
  {
    hide Newcomer, Rejoined, Decoded, Activated, Amended, Dropped, SchemaOk, NameTaken, BudgetAllows;
  }

  lemma OthersInformed(cfg: Config, k: Link, action: ComponentRegistry.Step)
    requires Sound(cfg, k) && Foreign(k, action)
    requires NoneRevived(k.registry, ComponentRegistry.Next(cfg, k.registry, action), k.obtained)
    ensures Informed(Next(cfg, k, Others(action)))
  {
    hide Invariant, R.Disciplined, Faithful, Knows, ComponentRegistry.Next, NotAhead, Departed;
    if Holding(Next(cfg, k, Others(action))) {
      var h := k.stream.reactor.handle.value;
      assert h in k.obtained && Holding(k);
      OthersLeaveItems(cfg, k.registry, action, h);
    }
  }

  lemma OthersKeep(cfg: Config, k: Link, action: ComponentRegistry.Step)
    requires Sound(cfg, k) && Foreign(k, action)
    ensures Sound(cfg, Next(cfg, k, Others(action)))
  {
    hide Invariant, R.Disciplined, Faithful, Informed, ComponentRegistry.Next, NotAhead, NoneRevived, Departed;
    hide Accounted, Known;
    RegistryMoves(cfg, k, action);
    OthersKnown(cfg, k, action);
    AccountedLess(k.registry, ComponentRegistry.Next(cfg, k.registry, action), k.obtained, k.stream.reactor);
    OthersInformed(cfg, k, action);
  }

  lemma OthersKnown(cfg: Config, k: Link, action: ComponentRegistry.Step)
    requires Known(k) && Foreign(k, action)
    ensures Known(Next(cfg, k, Others(action)))
  {
    hide Consumed, Sampled, Dropped;
    if action.Consume? {
      ConsumedKeys(cfg, k.registry, action.attachedId, action.generation, action.message, action.env);
    }
  }

  // ---- Serving the stream ----

  /** What the registry's answer tells the stream about its attachment. */
  ghost predicate Answers(r: Registry, after: Registry, id: string, generation: nat, reply: Reply) {
    && (reply.code == Done ==> reply.proxyId != "" && reply.response.Some? && !reply.response.value.Delta?)
    && (reply.code != Done ==> reply.response.None?)
    && (if id == "" then
          && (reply.code != Done ==> reply.proxyId == "")
          && (reply.code == Done ==>
                && !reply.close && Current(after, reply.proxyId, reply.generation)
                && reply.response.value.Attached?
                && Knows(Overlay(map[], reply.response.value.retained), after.proxies[reply.proxyId].items))
        else
          && (reply.proxyId != "" ==>
                reply.proxyId == id && reply.generation == generation && Current(r, id, generation))
          && (reply.code == Done && reply.close ==> !Current(after, id, generation))
          && (reply.code == Done && !reply.close ==>
                && !reply.response.value.Attached?
                && Current(after, id, generation)
                && after.proxies[id].items == r.proxies[id].items))
  }

  lemma CreatedAnswers(cfg: Config, r: Registry, schema: Schema, env: Environment)
    requires Invariant(cfg, r) && FreshId(r, env)
    ensures var (after, reply) := Created(cfg, r, schema, env);
            Answers(r, after, "", 0, reply) && (reply.code == Done ==> reply.proxyId == env.proxyId)
  {
    hide Invariant, SchemaOk, NameTaken, BudgetAllows, NewProxy, Snapshotted, Knows, Valid;
    var count := |schema.definitions| + 1;
    if SchemaOk(schema.definitions) && count <= |r.free| {
      var prefix := if schema.prefix == "" then schema.name else schema.prefix;
      NewcomerInformed(cfg, r, schema, prefix, env);
    }
  }

  lemma NewcomerInformed(cfg: Config, r: Registry, schema: Schema, prefix: string, env: Environment)
    requires SchemaOk(schema.definitions) && |schema.definitions| + 1 <= |r.free|
    ensures var slots := ComponentBudget.Taken(r.free, |schema.definitions| + 1);
            var (p, message) := Newcomer(cfg, schema, prefix, slots, env);
            && p.generation == 1 && p.attached && message.Attached?
            && Knows(Overlay(map[], message.retained), p.items)
  {
    var slots := ComponentBudget.Taken(r.free, |schema.definitions| + 1);
    NewProxyValid(cfg, schema, prefix, slots, env);
    SnapshottedValid(NewProxy(cfg, schema, prefix, slots, env), env.proxyId);
  }

  lemma AttachedAnswers(cfg: Config, r: Registry, id: string, name: string, token: string, now: int)
    requires Invariant(cfg, r) && "" !in r.proxies
    ensures var (after, reply) := AttachedTo(r, id, name, token, now);
            && Answers(r, after, "", 0, reply)
            && (reply.code == Done ==> reply.proxyId == id && id in r.proxies)
  {
    hide Invariant, Snapshotted, Knows, Valid, Written;
    if id in r.proxies {
      MembersAreValid(cfg, r);
      RejoinedInformed(r.proxies[id], id, now);
    }
  }

  lemma RejoinedInformed(p: Proxy, id: string, now: int)
    requires Valid(p)
    ensures var (q, message) := Rejoined(p, id, now);
            && q.generation == p.generation + 1 && q.attached && message.Attached?
            && Knows(Overlay(map[], message.retained), q.items)
  {
    OnlineWritten(p, false);
    var again := Reattached(p, now);
    assert Valid(again);
    SnapshottedValid(again, id);
  }

  lemma HandledAnswers(cfg: Config, r: Registry, id: string, message: ClientMessage, now: int)
    requires Invariant(cfg, r) && id != "" && id in r.proxies && r.proxies[id].attached
    ensures var (after, reply) := Handled(r, id, message, now);
            Answers(r, after, id, r.proxies[id].generation, reply)
  {
    hide Invariant, Knows, Valid, Decoded, Activated, Amended, Dropped;
    MembersAreValid(cfg, r);
    var p := r.proxies[id];
    match message
    case Activate(_, updates) =>
      if Decoded(p, updates, true).Okay? {
        ActivatedItems(p, updates, now);
      }
    case ChangeValues(_, sequence, updates) =>
      if Decoded(p, updates, false).Okay? {
        AmendedItems(p, updates, sequence, now);
      }
    case Close(_, _) => DroppedValid(p);
    case _ =>
  }

  lemma ActivatedItems(p: Proxy, updates: seq<Update>, now: int)
    requires Valid(p) && Decoded(p, updates, true).Okay?
    ensures var q := Activated(p, Decoded(p, updates, true).value, now);
            q.items == p.items && q.attached == p.attached && q.generation == p.generation
  {
    ActivatedExactly(p, updates, now);
  }

  lemma AmendedItems(p: Proxy, updates: seq<Update>, sequence: nat, now: int)
    requires Valid(p) && Decoded(p, updates, false).Okay?
    ensures var q := Amended(p, Decoded(p, updates, false).value, sequence, now);
            q.items == p.items && q.attached == p.attached && q.generation == p.generation
  {
    AssignedValid(p, updates, false);
  }

  lemma ConsumedAnswers(cfg: Config, r: Registry, id: string, generation: nat, message: ClientMessage, env: Environment)
    requires Invariant(cfg, r) && FreshId(r, env) && "" !in r.proxies
    ensures var (after, reply) := Consumed(cfg, r, id, generation, message, env);
            && Answers(r, after, id, if id == "" then 0 else generation, reply)
            && (reply.proxyId == "" || reply.proxyId in r.proxies || reply.proxyId == env.proxyId)
  {
    hide Invariant, Created, AttachedTo, Handled, Answers;
    if (id == "") != (message.Create? || message.Attach?) {
      RefusedAnswers(r, id, if id == "" then 0 else generation, InvalidArgument);
    } else if message.Create? {
      CreatedAnswers(cfg, r, message.schema, env);
      AnsweredKey(r, Created(cfg, r, message.schema, env).0, Created(cfg, r, message.schema, env).1);
    } else if message.Attach? {
      AttachedAnswers(cfg, r, message.proxyId, message.name, message.token, env.now);
      var (after, reply) := AttachedTo(r, message.proxyId, message.name, message.token, env.now);
      AnsweredKey(r, after, reply);
    } else if !Current(r, id, generation) {
      RefusedAnswers(r, id, generation, FailedPrecondition);
    } else {
      HandledAnswers(cfg, r, id, message, env.now);
      HandledKey(r, Handled(r, id, message, env.now).0, id, generation, Handled(r, id, message, env.now).1);
    }
  }

  lemma AnsweredKey(r: Registry, after: Registry, reply: Reply)
    requires Answers(r, after, "", 0, reply)
    ensures reply.code != Done ==> reply.proxyId == ""
  {
  }

  lemma HandledKey(r: Registry, after: Registry, id: string, generation: nat, reply: Reply)
    requires id != "" && Answers(r, after, id, generation, reply)
    ensures reply.proxyId == "" || reply.proxyId in r.proxies
  {
  }

  lemma RefusedAnswers(r: Registry, id: string, generation: nat, code: Code)
    requires code != Done
    ensures Answers(r, r, id, generation, Refused(code))
  {
  }

  /** What the worker's result does to the stream's attachment. */
  ghost predicate Worked(r: R.Reactor, q: R.Reactor, result: R.Result) {
    if r.gate != R.Open then
      && q.handle == r.handle && q.detachRequested == r.detachRequested
      && q.cleanups == r.cleanups + if result.handle.Some? then [result.handle.value] else []
    else if result.Failed? then Holds(r, q, false)
    else
      && q.handle == (if result.handle.Some? then result.handle else r.handle)
      && q.cleanups == r.cleanups
      && q.detachRequested == (r.detachRequested || (result.close && result.response.Some?))
  }

  lemma ResponseSame(r: R.Reactor, message: ServerMessage)
    ensures SameHandle(r, R.ResponseOffered(r, message))
  {
    hide R.WriteStarted;
    StartSame(r, O.Entry(message, true));
  }

  lemma AnsweredWorks(r: R.Reactor, result: R.Result)
    requires r.gate == R.Open && result.Answered?
    ensures Worked(r, R.WorkAnswered(r, result), result)
  {
    hide R.FinishRequested, R.ResponseOffered;
    var owned := if result.handle.Some? then r.(handle := result.handle) else r;
    FinishSame(owned, WriteFinish.Ok);
    if result.response.Some? {
      ResponseSame(owned, result.response.value);
    }
  }

  lemma WorkWorks(y: R.System, result: R.Result)
    requires y.reactor.working && (result.Answered? && result.response.Some? ==> !result.response.value.Delta?)
    ensures Worked(y.reactor, R.Next(y, R.WorkDone(result)).reactor, result)
  {
    var r := y.reactor.(working := false);
    if y.reactor.gate != R.Open {
      hide R.WorkAnswered;
    } else if result.Failed? {
      hide R.FinishRequested, R.TransportDetached;
      DetachHolds(r, WriteFinish.Rejected);
      HoldsIdle(y.reactor, r, R.Next(y, R.WorkDone(result)).reactor);
    } else {
      hide R.WorkAnswered;
      AnsweredWorks(r, result);
    }
  }

  lemma HoldsIdle(r: R.Reactor, idle: R.Reactor, q: R.Reactor)
    requires idle == r.(working := false) && Holds(idle, q, false)
    ensures Holds(r, q, false)
  {
  }

  /** The stream asks under its attachment, or under none. */
  predicate AsksAs(r: R.Reactor, id: string, generation: nat) {
    if r.handle.None? then id == "" && generation == 0 else r.handle == Some(R.Handle(id, generation)) && id != ""
  }

  function Gained(reply: Reply): set<R.Handle> {
    if reply.proxyId == "" then {} else {R.Handle(reply.proxyId, reply.generation)}
  }

  lemma ServedAccounted(
      before: Registry, after: Registry, obtained: set<R.Handle>, r: R.Reactor, q: R.Reactor,
      id: string, generation: nat, reply: Reply)
    requires Accounted(before, obtained, r) && NoneRevived(before, after, obtained) && AsksAs(r, id, generation)
    requires Answers(before, after, id, generation, reply) && Worked(r, q, ResultOf(reply))
    ensures Accounted(after, obtained + Gained(reply), q)
  {
    hide Knows, Current;
    if r.gate != R.Open {
      ServedClosed(before, after, obtained, r, q, id, generation, reply);
    } else if reply.code != Done {
      ServedRefused(before, after, obtained, r, q, id, generation, reply);
    } else if id != "" && reply.close {
      assert R.Handle(id, generation) in obtained;
    }
  }

  lemma ServedClosed(
      before: Registry, after: Registry, obtained: set<R.Handle>, r: R.Reactor, q: R.Reactor,
      id: string, generation: nat, reply: Reply)
    requires Accounted(before, obtained, r) && NoneRevived(before, after, obtained) && AsksAs(r, id, generation)
    requires Answers(before, after, id, generation, reply) && Worked(r, q, ResultOf(reply)) && r.gate != R.Open
    ensures Accounted(after, obtained + Gained(reply), q)
  {
    hide Knows, Current, Answers;
    forall h | h in Gained(reply) ensures h in q.cleanups {
      assert q.cleanups[|r.cleanups|] == h;
    }
  }

  lemma ServedRefused(
      before: Registry, after: Registry, obtained: set<R.Handle>, r: R.Reactor, q: R.Reactor,
      id: string, generation: nat, reply: Reply)
    requires Accounted(before, obtained, r) && NoneRevived(before, after, obtained) && AsksAs(r, id, generation)
    requires Answers(before, after, id, generation, reply) && Worked(r, q, ResultOf(reply))
    requires r.gate == R.Open && reply.code != Done
    ensures Accounted(after, obtained + Gained(reply), q)
  {
    hide Knows, Current;
    assert obtained + Gained(reply) == obtained;
  }

  /** What the client knows after the answer. */
  lemma ServedInformed(
      before: Registry, after: Registry, offered: seq<ServerMessage>, id: string, generation: nat, reply: Reply)
    requires Answers(before, after, id, generation, reply) && reply.code == Done && !reply.close
    requires id != "" ==> id in before.proxies && Knows(ReceivedAll(NEWCOMER, offered).view, before.proxies[id].items)
    ensures reply.proxyId in after.proxies
    ensures Knows(ReceivedAll(NEWCOMER, offered + [reply.response.value]).view, after.proxies[reply.proxyId].items)
  {
    hide Knows;
    var m := reply.response.value;
    assert (offered + [m])[..|offered|] == offered;
  }

  /** What a successful answer says about the stream and what it was handed. */
  lemma ServedStream(
      y: R.System, offered: seq<ServerMessage>, before: Registry, after: Registry, handle: R.Handle, reply: Reply)
    requires R.Disciplined(y) && y.reactor.working
    requires Answers(before, after, handle.proxyId, handle.generation, reply)
    requires var q := R.Next(y, R.WorkDone(ResultOf(reply))).reactor;
             && !q.finish.TerminationRequested() && q.handle.Some?
             && Current(after, q.handle.value.proxyId, q.handle.value.generation)
    ensures var q := R.Next(y, R.WorkDone(ResultOf(reply))).reactor;
            && reply.code == Done && !reply.close && q.handle == Some(R.Handle(reply.proxyId, reply.generation))
            && !y.reactor.finish.TerminationRequested()
            && offered + Offered(y, R.WorkDone(ResultOf(reply))) == offered + [reply.response.value]
  {
    hide R.Disciplined, R.Next, Knows, Current, Holds;
    WorkOpen(y, ResultOf(reply));
    WorkWorks(y, ResultOf(reply));
  }

  lemma ServedInforms(cfg: Config, k: Link, message: ClientMessage, env: Environment)
    requires Sound(cfg, k) && k.stream.reactor.working && FreshId(k.registry, env) && env.proxyId !in k.used
    ensures Informed(Served(cfg, k, message, env))
  {
    hide Invariant, R.Disciplined, Faithful, NotAhead, Departed, Consumed, R.Next, Knows, Current, Answers, Offered;
    var r := k.stream.reactor;
    var handle := r.handle.ValueOr(R.Handle("", 0));
    ConsumedAnswers(cfg, k.registry, handle.proxyId, handle.generation, message, env);
    var (registry, reply) := Consumed(cfg, k.registry, handle.proxyId, handle.generation, message, env);
    var after := Served(cfg, k, message, env);
    if Holding(after) && !after.stream.reactor.finish.TerminationRequested() {
      ServedStream(k.stream, k.offered, k.registry, registry, handle, reply);
      if handle.proxyId != "" {
        HoldsItems(k.registry, registry, handle, reply);
        CurrentIn(k.registry, handle);
      }
      ServedInformed(k.registry, registry, k.offered, handle.proxyId, handle.generation, reply);
    }
  }

  lemma CurrentIn(r: Registry, h: R.Handle)
    requires Current(r, h.proxyId, h.generation)
    ensures h.proxyId in r.proxies
  {
  }

  lemma HoldsItems(before: Registry, after: Registry, handle: R.Handle, reply: Reply)
    requires handle.proxyId != "" && reply.code == Done
    requires Answers(before, after, handle.proxyId, handle.generation, reply)
    ensures Current(before, handle.proxyId, handle.generation)
  {
  }

  /** A stream that is open after the result was open before, and the result was a success. */
  lemma WorkOpen(y: R.System, result: R.Result)
    requires R.Disciplined(y) && y.reactor.working
    requires result.Answered? && result.response.Some? ==> !result.response.value.Delta?
    requires !R.Next(y, R.WorkDone(result)).reactor.finish.TerminationRequested()
    ensures y.reactor.gate == R.Open && !y.reactor.finish.TerminationRequested() && result.Answered?
  {
    if y.reactor.finish.TerminationRequested() {
      TerminationStays(y, R.WorkDone(result));
    } else if result.Failed? {
      assert y.reactor.gate == R.Open;
      hide R.FinishRequested, R.TransportDetached;
      DetachEnds(y.reactor.(working := false), WriteFinish.Rejected);
    }
  }

  lemma ServeKeeps(cfg: Config, k: Link, message: ClientMessage, env: Environment)
    requires Sound(cfg, k) && k.stream.reactor.working && FreshId(k.registry, env) && env.proxyId !in k.used
    ensures Sound(cfg, Served(cfg, k, message, env))
  {
    hide Invariant, R.Disciplined, Faithful, Departed, Consumed, R.Next, Knows, Informed, Answers, Worked, NoneRevived;
    hide Offered;
    ServedInforms(cfg, k, message, env);
    var r := k.stream.reactor;
    var handle := r.handle.ValueOr(R.Handle("", 0));
    var (registry, reply) := Consumed(cfg, k.registry, handle.proxyId, handle.generation, message, env);
    var after, step := Served(cfg, k, message, env), R.WorkDone(ResultOf(reply));
    ConsumedAnswers(cfg, k.registry, handle.proxyId, handle.generation, message, env);
    RegistryMoves(cfg, k, Consume(handle.proxyId, handle.generation, message, env));
    ConsumedKeys(cfg, k.registry, handle.proxyId, handle.generation, message, env);
    R.NextKeeps(k.stream, step);
    NextDelivers(k.stream, step, k.offered);
    StepDeparts(k.stream, step);
    ResponsesOnly(k.registry, registry, handle, reply);
    WorkWorks(k.stream, ResultOf(reply));
    ServedAccounted(
      k.registry, registry, k.obtained, r, after.stream.reactor, handle.proxyId, handle.generation, reply);
    ServedNotAhead(k, registry, handle, reply);
  }

  lemma ResponsesOnly(before: Registry, after: Registry, handle: R.Handle, reply: Reply)
    requires Answers(before, after, handle.proxyId, handle.generation, reply)
    ensures reply.response.Some? ==> !reply.response.value.Delta?
  {
  }

  lemma ServedNotAhead(k: Link, after: Registry, handle: R.Handle, reply: Reply)
    requires NotAhead(after, k.obtained) && Answers(k.registry, after, handle.proxyId, handle.generation, reply)
    requires handle.proxyId != "" ==> handle in k.obtained
    ensures NotAhead(after, k.obtained + Gained(reply))
  {
    hide Knows;
  }

  // ---- Sampling ----

  lemma SampledStale(p: Proxy, now: int, timeout: nat)
    requires Valid(p)
    ensures Expired(p, now, timeout) ==> !Sampled(p, now, timeout).0.attached
    ensures !Expired(p, now, timeout) && Sampled(p, now, timeout).1.None? ==>
              forall view :: Knows(view, p.items) ==> Knows(view, Sampled(p, now, timeout).0.items)
    ensures !Expired(p, now, timeout) && Sampled(p, now, timeout).1.Some? ==>
              && Sampled(p, now, timeout).1.value.Delta? && DistinctItems(Sampled(p, now, timeout).1.value.values)
              && forall view :: Knows(view, p.items) ==>
                   Knows(Overlay(view, Sampled(p, now, timeout).1.value.values), Sampled(p, now, timeout).0.items)
  {
    ItemsValidDistinct(p.prefix, p.items);
    if Expired(p, now, timeout) {
      DroppedValid(p);
    } else if Due(p, now, timeout) {
      hide Valid, Knows, DistinctRefs;
      SampleDistinct(p.items, p.values);
      forall view | Knows(view, p.items)
        ensures Knows(Overlay(view, SampleItems(p.items, p.values).1), SampleItems(p.items, p.values).0)
      {
        SampleItemsKeepsView(p.items, p.values, view);
      }
    }
  }

  lemma {:induction false} SampleDistinct(items: seq<Item>, values: map<string, HalValue>)
    requires DistinctRefs(items)
    ensures DistinctItems(SampleItems(items, values).1)
    ensures forall j :: 0 <= j < |SampleItems(items, values).1| ==>
              exists i :: 0 <= i < |items| && items[i].fullName == SampleItems(items, values).1[j].item.name
  {
    if items != [] {
      var n := |items| - 1;
      SampleDistinct(items[..n], values);
      var listed := SampleItems(items[..n], values).1;
      forall j | 0 <= j < |listed| ensures exists i :: 0 <= i < n && items[i].fullName == listed[j].item.name {
        var i :| 0 <= i < n && items[..n][i].fullName == listed[j].item.name;
        assert items[i].fullName == listed[j].item.name;
      }
      assert items[n].fullName == items[n].Ref().name;
    }
  }

  lemma AccountedLess(before: Registry, after: Registry, obtained: set<R.Handle>, r: R.Reactor)
    requires Accounted(before, obtained, r) && NoneRevived(before, after, obtained)
    ensures Accounted(after, obtained, r)
  {
  }

  lemma OwnHandle(registry: Registry, obtained: set<R.Handle>, r: R.Reactor)
    requires Accounted(registry, obtained, r)
    ensures r.handle.Some? ==> r.handle.value in obtained
  {
  }

  lemma SampledOrderly(cfg: Config, k: Link, now: int)
    requires Orderly(cfg, k)
    ensures Orderly(cfg, k.(registry := SampledAll(cfg, k.registry, now)))
    ensures !Holding(k) ==> !Holding(k.(registry := SampledAll(cfg, k.registry, now)))
  {
    hide Invariant, NotAhead, Sampled, R.Disciplined, Faithful, Departed, Accounted, Current;
    var registry := SampledAll(cfg, k.registry, now);
    RegistryMoves(cfg, k, Sample(now));
    AccountedLess(k.registry, registry, k.obtained, k.stream.reactor);
    assert registry.proxies.Keys == k.registry.proxies.Keys;
    OwnHandle(k.registry, k.obtained, k.stream.reactor);
  }

  lemma SampledItems(cfg: Config, k: Link, now: int)
    requires Invariant(cfg, k.registry) && Holding(k)
    ensures var id := k.stream.reactor.handle.value.proxyId;
            && Valid(k.registry.proxies[id])
            && id in SampledAll(cfg, k.registry, now).proxies
            && SampledAll(cfg, k.registry, now).proxies[id] ==
                 Sampled(k.registry.proxies[id], now, cfg.heartbeatTimeout).0
  {
    MembersAreValid(cfg, k.registry);
  }

  lemma OpenForDelta(cfg: Config, k: Link)
    requires Orderly(cfg, k) && k.stream.reactor.handle.Some?
    ensures k.stream.phase != R.Unborn
    ensures !k.stream.reactor.finish.TerminationRequested() ==> k.stream.reactor.gate == R.Open
  {
    hide Invariant, Faithful, Accounted, NotAhead, Known, Departed, R.Turns, R.Shaped;
  }

  lemma DeltaInforms(cfg: Config, mid: Link, delta: ServerMessage, items: seq<Item>)
    requires Orderly(cfg, mid) && delta.Delta? && DistinctItems(delta.values) && Holding(mid)
    requires mid.registry.proxies[mid.stream.reactor.handle.value.proxyId].items == items
    requires !mid.stream.reactor.finish.TerminationRequested() ==>
               Knows(Overlay(ReceivedAll(NEWCOMER, mid.offered).view, delta.values), items)
    ensures Informed(Reacted(mid, R.OfferDelta(delta)))
  {
    hide Orderly, R.Next, Knows;
    ReactedOrderly(cfg, mid, R.OfferDelta(delta));
    OpenForDelta(cfg, mid);
    var after := Reacted(mid, R.OfferDelta(delta));
    if !after.stream.reactor.finish.TerminationRequested() {
      assert after.offered == mid.offered + [delta];
      assert after.offered[..|mid.offered|] == mid.offered;
    }
  }

  lemma SamplingKeeps(cfg: Config, k: Link, now: int)
    requires Sound(cfg, k)
    ensures Sound(cfg, SampledLink(cfg, k, now))
  {
    var mid := k.(registry := SampledAll(cfg, k.registry, now));
    SampledOrderly(cfg, k, now);
    if Holding(k) {
      var handle := k.stream.reactor.handle.value;
      var p := k.registry.proxies[handle.proxyId];
      SampledItems(cfg, k, now);
      SampledStale(p, now, cfg.heartbeatTimeout);
      hide Orderly, Knows, SampledAll, R.Next, Sampled, Valid;
      if Expired(p, now, cfg.heartbeatTimeout) {
        ReactedOrderly(cfg, mid, R.HeartbeatTimeout(handle.generation));
      } else {
        var delta := Sampled(p, now, cfg.heartbeatTimeout).1;
        if delta.Some? && Holding(mid) {
          DeltaInforms(cfg, mid, delta.value, Sampled(p, now, cfg.heartbeatTimeout).0.items);
        }
        if delta.Some? {
          ReactedOrderly(cfg, mid, R.OfferDelta(delta.value));
        }
      }
    }
  }

  // ---- Whole runs ----

  lemma NextKeeps(cfg: Config, k: Link, step: Step)
    requires Sound(cfg, k)
    ensures Sound(cfg, Next(cfg, k, step))
  {
    hide Sound, Reacted, Served, CleanedUp, SampledLink, FreshId;
    match step
    case Transport(step) =>
      if Direct(step) {
        TransportKeeps(cfg, k, step);
      }
    case Serve(message, env) =>
      if k.stream.reactor.working && FreshId(k.registry, env) && env.proxyId !in k.used {
        ServeKeeps(cfg, k, message, env);
      }
    case Cleanup => CleanupKeeps(cfg, k);
    case Sampling(now) => SamplingKeeps(cfg, k, now);
    case Others(action) =>
      if Foreign(k, action) {
        OthersKeep(cfg, k, action);
      }
  }

  lemma {:induction false} RunKeeps(cfg: Config, steps: seq<Step>)
    ensures Sound(cfg, Run(cfg, steps))
  {
    if steps == [] {
      ComponentRegistry.RunKeeps(cfg, []);
      R.RunDisciplined([]);
      RunFaithful([]);
    } else {
      RunKeeps(cfg, steps[..|steps| - 1]);
      hide Sound, Next;
      NextKeeps(cfg, Run(cfg, steps[..|steps| - 1]), steps[|steps| - 1]);
    }
  }

  /** Over every interleaving of this stream, the worker, sampling rounds, HAL and all other streams: as long as the
      stream holds its component and is not ending, a client that starts knowing nothing and receives what was sent
      and what still waits knows, for every readable item, the value the registry last recorded as sent. */
  lemma ClientKnowsComponent(cfg: Config, steps: seq<Step>)
    ensures var k := Run(cfg, steps);
            var r := k.stream.reactor;
            Holding(k) && !r.finish.TerminationRequested() ==>
              Knows(ReceivedAll(NEWCOMER, r.transport.sent + O.Messages(r.outbox)).view,
                    k.registry.proxies[r.handle.value.proxyId].items)
  {
    RunKeeps(cfg, steps);
    var k := Run(cfg, steps);
    var r := k.stream.reactor;
    if Holding(k) && !r.finish.TerminationRequested() {
      FaithfulDelivers(r, k.offered);
      hide Run, Knows, Invariant, R.Disciplined, Faithful, Delivers;
      DeliversEffect(r, k.offered);
      assert ReceivedAll(NEWCOMER, r.transport.sent + O.Messages(r.outbox)) == ReceivedAll(NEWCOMER, k.offered);
    }
  }

  lemma RecordedMeansLive(p: Proxy, q: Proxy, view: map<ItemRef, HalValue>, i: nat)
    requires Valid(p) && ComponentSchedule.RecordsAll(p, q.items) && q.values == p.values && Knows(view, q.items)
    requires i < |q.items| && q.items[i].serverReadable
    ensures q.items[i].suffix in q.values && q.items[i].Ref() in view
    ensures view[q.items[i].Ref()] == q.values[q.items[i].suffix]
  {
  }

  /** Over the same runs: when a round finds the component due, a client that then receives what was sent and what still
      waits knows the HAL value of every item it is told about. */
  lemma ClientSeesLiveValues(cfg: Config, steps: seq<Step>, now: int, i: nat)
    requires var k := Run(cfg, steps);
             && Holding(k)
             && var p := k.registry.proxies[k.stream.reactor.handle.value.proxyId];
                && ComponentSchedule.IsDue(p, now, cfg.heartbeatTimeout)
                && i < |p.items| && p.items[i].serverReadable
    ensures var k := Run(cfg, steps + [Sampling(now)]);
            var r := k.stream.reactor;
            && Holding(k)
            && var p := k.registry.proxies[r.handle.value.proxyId];
               && i < |p.items| && p.items[i].suffix in p.values
               && (!r.finish.TerminationRequested() ==>
                     var view := ReceivedAll(NEWCOMER, r.transport.sent + O.Messages(r.outbox)).view;
                     p.items[i].Ref() in view && view[p.items[i].Ref()] == p.values[p.items[i].suffix])
  {
    hide Run, SampledLink, Knows, Invariant, R.Disciplined, Faithful, Sampled, Valid, SampledAll;
    var before, all := Run(cfg, steps), steps + [Sampling(now)];
    var k := Run(cfg, all);
    OneMore(cfg, steps, Sampling(now));
    RunKeeps(cfg, steps);
    ClientKnowsComponent(cfg, all);
    var id := before.stream.reactor.handle.value.proxyId;
    var p := before.registry.proxies[id];
    MembersAreValid(cfg, before.registry);
    SampledHandle(cfg, before, now);
    ComponentSchedule.SampledExact(p, now, cfg.heartbeatTimeout);
    LiveIsThere(p, i);
    if !k.stream.reactor.finish.TerminationRequested() {
      var r := k.stream.reactor;
      var view := ReceivedAll(NEWCOMER, r.transport.sent + O.Messages(r.outbox)).view;
      RecordedMeansLive(p, k.registry.proxies[id], view, i);
    }
  }

  lemma OneMore(cfg: Config, steps: seq<Step>, step: Step)
    ensures Run(cfg, steps + [step]) == Next(cfg, Run(cfg, steps), step)
  {
    hide Next;
    assert (steps + [step])[..|steps|] == steps;
  }

  lemma LiveIsThere(p: Proxy, i: nat)
    requires Valid(p) && i < |p.items|
    ensures p.items[i].suffix in p.values
  {
  }

  /** A round leaves the stream its handle and samples every component. */
  lemma SampledHandle(cfg: Config, k: Link, now: int)
    requires Holding(k)
    ensures var after := SampledLink(cfg, k, now);
            var id := k.stream.reactor.handle.value.proxyId;
            && after.stream.reactor.handle == k.stream.reactor.handle
            && id in after.registry.proxies
            && after.registry.proxies[id] == Sampled(k.registry.proxies[id], now, cfg.heartbeatTimeout).0
  {
    hide R.Next, Sampled, Holds;
    var y, handle := k.stream, k.stream.reactor.handle.value;
    var p := k.registry.proxies[handle.proxyId];
    var delta := Sampled(p, now, cfg.heartbeatTimeout).1;
    if Expired(p, now, cfg.heartbeatTimeout) {
      var step := R.HeartbeatTimeout(handle.generation);
      StepHolds(y, step);
      HandleKept(y.reactor, R.Next(y, step).reactor, true);
    } else if delta.Some? {
      StepHolds(y, R.OfferDelta(delta.value));
      HandleKept(y.reactor, R.Next(y, R.OfferDelta(delta.value)).reactor, false);
    }
  }

  /** Over the same runs, also when the stream is ending: what was sent so far leaves a client with a view the server
      offered, namely the one after the first `n` messages. */
  lemma ClientSawWhatWasOffered(cfg: Config, steps: seq<Step>) returns (n: nat)
    ensures var k := Run(cfg, steps);
            && n <= |k.offered|
            && ReceivedAll(NEWCOMER, k.stream.reactor.transport.sent) == ReceivedAll(NEWCOMER, k.offered[..n])
  {
    RunKeeps(cfg, steps);
    var k := Run(cfg, steps);
    hide Run, Invariant, R.Disciplined, Delivers;
    FaithfulPrefix(k.stream.reactor, k.offered);
    n :| SentUpTo(k.stream.reactor.transport.sent, k.offered, n);
  }

  /** Over the same runs: once the stream is gone and its cleanups are done, no attachment it ever obtained is still
      current, also when the attachment was granted after the stream had already closed. */
  lemma NoOrphanedAttachment(cfg: Config, steps: seq<Step>, h: R.Handle)
    ensures var k := Run(cfg, steps);
            k.stream.phase == R.Gone && k.stream.reactor.cleanups == [] && h in k.obtained ==>
              !Current(k.registry, h.proxyId, h.generation)
  {
    RunKeeps(cfg, steps);
  }
}
