/** Every run of the HAL value subscriptions: clients, sessions, the sampler and the clock in any order. */
module HalSubscriptions {
  import opened Options
  import opened SamplingBudget
  import opened HalTelemetry

  /** What HAL returned for each item when the sampler read it. */
  type Reading<!V> = Reference -> Option<V>

  /** `used` are the ids drawn so far, `taken` the samples the sampler is working on, and `readings` all it ever
      read. */
  datatype World<!V> = World(t: Telemetry<V>, used: set<string>, taken: set<Due>, readings: seq<Reading<V>>)

  datatype Step<!V> =
    | Create(items: seq<Resolved>, period: nat, draw: Draw)
    | Update(id: string, revision: nat, items: seq<Resolved>, period: nat, now: int)
    | Claim(token: string, now: int)
    | Detach(id: string, now: int)
    | Erase(id: string)
    | Close
    | TakeSamples(now: int)
    | Publish(due: Due, hal: Reading<V>)

  function Start<V>(capacity: nat, ttl: nat): World<V> {
    World(Telemetry(capacity, ttl, map[], map[], false), {}, {}, [])
  }

  /** The service refuses lists that name an item twice and periods outside 50 to 60000 milliseconds. */
  predicate Acceptable(items: seq<Resolved>, period: nat) {
    && 50 <= period <= 60000
    && forall i, j :: 0 <= i < j < |items| ==> items[i].item != items[j].item
  }

  ghost predicate WasRead<V>(readings: seq<Reading<V>>, item: Reference, v: V) {
    exists n :: 0 <= n < |readings| && readings[n](item) == Some(v)
  }

  ghost function Next<V>(k: Values<V>, w: World<V>, step: Step<V>): (after: World<V>)
    requires Ready(w.t.states)
    ensures Ready(after.t.states)
  {
    match step
    case Create(items, period, draw) =>
      if !Acceptable(items, period) || draw.id in w.used || draw.token in w.t.tokens then w
      else w.(t := Created(w.t, items, period, draw).0, used := w.used + {draw.id})
    case Update(id, revision, items, period, now) =>
      if !Acceptable(items, period) then w else w.(t := Updated(w.t, id, revision, items, period, now).0)
    case Claim(token, now) => w.(t := Claimed(w.t, token, now).0)
    case Detach(id, now) => w.(t := Released(w.t, id, now))
    case Erase(id) => w.(t := Erased(w.t, id))
    case Close => w.(t := Closed(w.t))
    case TakeSamples(now) => w.(t := Scheduled(w.t, now), taken := w.taken + DueNow(w.t, now))
    case Publish(due, hal) =>
      if due !in w.taken then w
      else w.(t := Published(k, w.t, due.id, due.revision, Read(k, due.bindings, hal)),
              readings := w.readings + [hal])
  }

  ghost function Run<V>(k: Values<V>, w: World<V>, steps: seq<Step<V>>): (after: World<V>)
    requires Ready(w.t.states)
    ensures Ready(after.t.states)
  {
    if steps == [] then w else Next(k, Run(k, w, steps[..|steps| - 1]), steps[|steps| - 1])
  }

  // ---- Invariants ----

  predicate Paired<V>(s: State<V>) {
    1 <= s.period && |s.values| == |s.bindings|
  }

  predicate Ready<V>(states: map<string, State<V>>) {
    forall id :: id in states ==> Paired(states[id])
  }

  /** No item and no slot occurs twice, and every slot was issued. */
  predicate DistinctBindings(bindings: seq<Binding>, nextSlot: nat) {
    && (forall i :: 0 <= i < |bindings| ==> bindings[i].slot < nextSlot)
    && (forall i, j :: 0 <= i < j < |bindings| ==>
          bindings[i].slot != bindings[j].slot && bindings[i].item != bindings[j].item)
  }

  /** A value is one HAL returned for the very item it is stored under, and has the type the binding promises. */
  ghost predicate Genuine<V>(k: Values<V>, bindings: seq<Binding>, values: seq<Option<V>>, readings: seq<Reading<V>>) {
    && |values| == |bindings|
    && forall i :: 0 <= i < |values| && values[i].Some? ==>
         k.typeOf(values[i].value) == bindings[i].halType && WasRead(readings, bindings[i].item, values[i].value)
  }

  ghost predicate StateValid<V>(k: Values<V>, s: State<V>, readings: seq<Reading<V>>) {
    && Paired(s) && 1 <= s.revision && DistinctBindings(s.bindings, s.nextSlot)
    && Genuine(k, s.bindings, s.values, readings)
  }

  /** A sample in progress is for the current bindings, or for a revision that has passed. */
  predicate Dated<V>(states: map<string, State<V>>, due: Due) {
    due.id in states ==>
      && due.revision <= states[due.id].revision
      && (due.revision == states[due.id].revision ==> due.bindings == states[due.id].bindings)
  }

  ghost predicate StatesValid<V>(k: Values<V>, states: map<string, State<V>>, readings: seq<Reading<V>>) {
    forall id :: id in states ==> StateValid(k, states[id], readings)
  }

  ghost predicate Affords<V>(states: map<string, State<V>>) {
    && Ready(states)
    && (TimedPeriodic(states, [], 1); Periodic(Loads(states)) && WithinBudget(Loads(states)))
  }

  ghost predicate Sound<V>(k: Values<V>, w: World<V>) {
    && Affords(w.t.states)
    && StatesValid(k, w.t.states, w.readings)
    && w.t.states.Keys <= w.used
    && (forall due :: due in w.taken ==> due.id in w.used && Dated(w.t.states, due))
  }

  // ---- The budget ----

  lemma FewerStates<V>(fewer: map<string, State<V>>, states: map<string, State<V>>)
    requires Affords(states)
    requires forall id :: id in fewer ==>
               id in states && fewer[id].bindings == states[id].bindings && fewer[id].period == states[id].period
    requires Ready(fewer)
    ensures Affords(fewer)
  {
    TimedPeriodic(fewer, [], 1);
    TimedPeriodic(states, [], 1);
    assert Loads(fewer) <= Loads(states) by {
      forall l | l in Loads(fewer) ensures l in Loads(states) {
        var id :| id in fewer && l in StateLoads(fewer[id]);
        assert l in StateLoads(states[id]);
      }
    }
    CostMonotone(Loads(fewer), Loads(states));
  }

  /** Adding a state costs what the budget check computed for its items. */
  lemma AddedState<V>(states: map<string, State<V>>, id: string, s: State<V>, items: seq<Resolved>)
    requires Ready(states) && Paired(s) && Bound(s.bindings) == Wanted(items)
    requires Affordable(states, {id}, items, s.period)
    ensures Affords(states[id := s])
  {
    var all, others := states[id := s], states - {id};
    TimedPeriodic(all, [], 1);
    TimedPeriodic(others, Wanted(items), s.period);
    assert Loads(all) == Loads(others) + LoadsOf(Wanted(items), s.period) by {
      forall l | l in Loads(all) ensures l in Loads(others) + StateLoads(s) {
        var x :| x in all && l in StateLoads(all[x]);
        if x != id {
          assert x in others;
        }
      }
      forall l | l in Loads(others) ensures l in Loads(all) {
        var x :| x in others && l in StateLoads(others[x]);
        assert x in all && all[x] == others[x];
      }
      forall l | l in StateLoads(s) ensures l in Loads(all) {
        assert id in all && all[id] == s;
      }
    }
  }

  // ---- Bindings ----

  /** What rebinding does: the items are those asked for, kept bindings are old ones and new slots come after all
      old. */
  ghost predicate Rebinds<V>(
      k: Values<V>, s: State<V>, items: seq<Resolved>, r: Rebinding<V>, readings: seq<Reading<V>>)
  {
    && |r.bindings| == |items| && s.nextSlot <= r.nextSlot
    && (forall i :: 0 <= i < |items| ==>
          r.bindings[i].item == items[i].item && r.bindings[i].halType == items[i].halType)
    && (forall i :: 0 <= i < |items| ==> r.bindings[i] in s.bindings || s.nextSlot <= r.bindings[i].slot)
    && DistinctBindings(r.bindings, r.nextSlot)
    && Genuine(k, r.bindings, r.values, readings)
  }

  lemma RebindOneKeeps<V>(
      k: Values<V>, s: State<V>, items: seq<Resolved>, r: Rebinding<V>, item: Resolved, readings: seq<Reading<V>>)
    requires StateValid(k, s, readings) && Rebinds(k, s, items, r, readings)
    requires forall i :: 0 <= i < |items| ==> items[i].item != item.item
    ensures Rebinds(k, s, items + [item], RebindOne(s, r, item), readings)
  {
    var at := FindItem(s.bindings, item.item);
    assert |r.values| == |items| && |s.values| == |s.bindings|;
    assert forall i :: 0 <= i < |items| ==> r.bindings[i].slot < r.nextSlot;
    assert at < |s.bindings| ==> s.bindings[at] in s.bindings && s.bindings[at].slot < s.nextSlot;
    hide Genuine, DistinctBindings;
    var after := RebindOne(s, r, item);
    var last, value := after.bindings[|items|], after.values[|items|];
    RebindApart(s, r.bindings, items, item, at, last);
    DistinctAppend(r.bindings, r.nextSlot, last, after.nextSlot);
    RebindValue(k, s, at, last, value, readings);
    GenuineAppend(k, r.bindings, r.values, last, value, readings);
  }

  /** The binding added differs in slot and item from those before it. */
  lemma RebindApart<V>(
      s: State<V>, bindings: seq<Binding>, items: seq<Resolved>, item: Resolved, at: nat, last: Binding)
    requires DistinctBindings(s.bindings, s.nextSlot) && |bindings| == |items|
    requires forall i :: 0 <= i < |items| ==>
               bindings[i].item == items[i].item && items[i].item != item.item &&
               (|| bindings[i] in s.bindings
                || (s.nextSlot <= bindings[i].slot && last in s.bindings)
                || bindings[i].slot < last.slot)
    requires last.item == item.item && (last in s.bindings || s.nextSlot <= last.slot)
    ensures forall i :: 0 <= i < |bindings| ==> bindings[i].slot != last.slot && bindings[i].item != last.item
  {
    forall i | 0 <= i < |bindings| ensures bindings[i].slot != last.slot {
      if last in s.bindings {
        var m :| 0 <= m < |s.bindings| && s.bindings[m] == last;
        if bindings[i] in s.bindings {
          var j :| 0 <= j < |s.bindings| && s.bindings[j] == bindings[i];
          var low, high := if j < m then j else m, if j < m then m else j;
          assert j != m && s.bindings[low].slot != s.bindings[high].slot;
        }
      } else if bindings[i] in s.bindings {
        var j :| 0 <= j < |s.bindings| && s.bindings[j] == bindings[i];
      }
    }
  }

  lemma DistinctAppend(bindings: seq<Binding>, nextSlot: nat, last: Binding, after: nat)
    requires DistinctBindings(bindings, nextSlot) && nextSlot <= after && last.slot < after
    requires forall i :: 0 <= i < |bindings| ==> bindings[i].slot != last.slot && bindings[i].item != last.item
    ensures DistinctBindings(bindings + [last], after)
  {
  }

  lemma RebindValue<V>(k: Values<V>, s: State<V>, at: nat, last: Binding, value: Option<V>, readings: seq<Reading<V>>)
    requires Genuine(k, s.bindings, s.values, readings) && at <= |s.bindings|
    requires value.None? || (at < |s.bindings| && last == s.bindings[at] && value == s.values[at])
    ensures value.Some? ==> k.typeOf(value.value) == last.halType && WasRead(readings, last.item, value.value)
  {
  }

  lemma GenuineAppend<V>(
      k: Values<V>, bindings: seq<Binding>, values: seq<Option<V>>, last: Binding, value: Option<V>,
      readings: seq<Reading<V>>)
    requires Genuine(k, bindings, values, readings)
    requires value.Some? ==> k.typeOf(value.value) == last.halType && WasRead(readings, last.item, value.value)
    ensures Genuine(k, bindings + [last], values + [value], readings)
  {
    hide WasRead;
  }

  lemma {:induction false} ReboundKeeps<V>(k: Values<V>, s: State<V>, items: seq<Resolved>, readings: seq<Reading<V>>)
    requires StateValid(k, s, readings)
    requires forall i, j :: 0 <= i < j < |items| ==> items[i].item != items[j].item
    ensures Rebinds(k, s, items, Rebound(s, items), readings)
  {
    if items != [] {
      var n := |items| - 1;
      ReboundKeeps(k, s, items[..n], readings);
      hide Rebinds, StateValid, RebindOne;
      assert items[..n] + [items[n]] == items;
      RebindOneKeeps(k, s, items[..n], Rebound(s, items[..n]), items[n], readings);
    }
  }

  lemma RevisedValid<V>(
      k: Values<V>, s: State<V>, items: seq<Resolved>, period: nat, now: int, readings: seq<Reading<V>>)
    requires StateValid(k, s, readings) && Acceptable(items, period)
    ensures var q := Revised(s, items, period, now);
            StateValid(k, q, readings) && Bound(q.bindings) == Wanted(items) && Descends(s, q)
  {
    ReboundKeeps(k, s, items, readings);
  }

  /** Of one subscription at two moments: whatever is bound later was bound already, or has a slot issued since. */
  ghost predicate Descends<V>(s: State<V>, q: State<V>) {
    && s.nextSlot <= q.nextSlot && s.revision <= q.revision
    && (forall b :: b in q.bindings ==> b in s.bindings || s.nextSlot <= b.slot)
  }

  lemma NewValid<V>(k: Values<V>, items: seq<Resolved>, period: nat, draw: Draw, ttl: nat, readings: seq<Reading<V>>)
    requires Acceptable(items, period)
    ensures var s := NewState<V>(items, period, draw, ttl);
            StateValid(k, s, readings) && Bound(s.bindings) == Wanted(items)
  {
  }

  lemma PublishedValid<V>(
      k: Values<V>, s: State<V>, due: Due, hal: Reading<V>, readings: seq<Reading<V>>)
    requires StateValid(k, s, readings) && due.bindings == s.bindings
    ensures StateValid(k, s.(values := Read(k, due.bindings, hal), sampled := true, sequence := s.sequence + 1),
                       readings + [hal])
  {
    var values := Read(k, due.bindings, hal);
    forall i | 0 <= i < |values| && values[i].Some?
      ensures WasRead(readings + [hal], s.bindings[i].item, values[i].value)
    {
      assert (readings + [hal])[|readings|](s.bindings[i].item) == values[i];
    }
  }

  lemma MoreReadings<V>(k: Values<V>, states: map<string, State<V>>, readings: seq<Reading<V>>, hal: Reading<V>)
    requires StatesValid(k, states, readings)
    ensures StatesValid(k, states, readings + [hal])
  {
    forall id | id in states ensures StateValid(k, states[id], readings + [hal]) {
      var s := states[id];
      forall i | 0 <= i < |s.values| && s.values[i].Some?
        ensures WasRead(readings + [hal], s.bindings[i].item, s.values[i].value)
      {
        assert StateValid(k, s, readings);
        var n :| 0 <= n < |readings| && readings[n](s.bindings[i].item) == Some(s.values[i].value);
        assert (readings + [hal])[n](s.bindings[i].item) == Some(s.values[i].value);
      }
    }
  }

  // ---- Steps ----

  /** A step that keeps, drops or relabels subscriptions without touching what they bind or hold. */
  ghost predicate Thins<V>(fewer: map<string, State<V>>, states: map<string, State<V>>) {
    forall id :: id in fewer ==>
      && id in states
      && fewer[id] ==
           states[id].(attached := fewer[id].attached, expires := fewer[id].expires, nextDue := fewer[id].nextDue)
  }

  lemma ThinsKeeps<V>(k: Values<V>, w: World<V>, t: Telemetry<V>)
    requires Sound(k, w) && Thins(t.states, w.t.states)
    ensures Sound(k, w.(t := t))
  {
    forall id | id in t.states ensures StateValid(k, t.states[id], w.readings) {
      assert StateValid(k, w.t.states[id], w.readings);
    }
    FewerStates(t.states, w.t.states);
  }

  lemma ExpiredThins<V>(t: Telemetry<V>, now: int)
    ensures Thins(Expired(t, now).states, t.states)
  {
  }

  lemma NewcomerKeeps<V>(k: Values<V>, w: World<V>, items: seq<Resolved>, period: nat, draw: Draw, t: Telemetry<V>)
    requires Sound(k, w) && Acceptable(items, period) && draw.id !in w.used
    requires Affordable(w.t.states, {}, items, period)
    requires t.states == w.t.states[draw.id := NewState(items, period, draw, w.t.ttl)]
    ensures Sound(k, w.(t := t, used := w.used + {draw.id}))
  {
    hide Affords, StateValid, Affordable, NewState, Dated;
    SoundReady(k, w);
    assert w.t.states - {draw.id} == w.t.states - {};
    AffordableSame(w.t.states, {}, {draw.id}, items, period);
    NewValid(k, items, period, draw, w.t.ttl, w.readings);
    NewPaired<V>(items, period, draw, w.t.ttl);
    AddedState(w.t.states, draw.id, NewState(items, period, draw, w.t.ttl), items);
    forall due | due in w.taken ensures due.id in w.used + {draw.id} && Dated(t.states, due) {
      DatedElsewhere(w.t.states, t.states, due, draw.id);
    }
  }

  lemma NewPaired<V>(items: seq<Resolved>, period: nat, draw: Draw, ttl: nat)
    requires Acceptable(items, period)
    ensures Paired(NewState<V>(items, period, draw, ttl)) && NewState<V>(items, period, draw, ttl).period == period
  {
  }

  lemma DatedElsewhere<V>(states: map<string, State<V>>, after: map<string, State<V>>, due: Due, id: string)
    requires Dated(states, due) && due.id != id && id in after && after == states[id := after[id]]
    ensures Dated(after, due)
  {
  }

  lemma AffordableSame<V>(
      states: map<string, State<V>>, a: set<string>, b: set<string>, items: seq<Resolved>, period: nat)
    requires Ready(states) && 1 <= period && states - a == states - b && Affordable(states, a, items, period)
    ensures Affordable(states, b, items, period)
  {
  }

  lemma CreateKeeps<V>(k: Values<V>, w: World<V>, items: seq<Resolved>, period: nat, draw: Draw)
    requires Sound(k, w) && Acceptable(items, period) && draw.id !in w.used
    ensures Sound(k, w.(t := Created(w.t, items, period, draw).0, used := w.used + {draw.id}))
  {
    hide Affords, StatesValid, Affordable, NewState, Expired, Thins, Dated;
    var e := Expired(w.t, draw.now);
    ExpiredThins(w.t, draw.now);
    ThinsKeeps(k, w, e);
    SoundReady(k, w.(t := e));
    SoundReady(k, w);
    if !w.t.closed && |e.states| < e.capacity && Affordable(e.states, {}, items, period) {
      NewcomerKeeps(k, w.(t := e), items, period, draw, Created(w.t, items, period, draw).0);
    }
  }

  lemma UpdateKeeps<V>(
      k: Values<V>, w: World<V>, id: string, revision: nat, items: seq<Resolved>, period: nat, now: int)
    requires Sound(k, w) && Acceptable(items, period)
    ensures Sound(k, w.(t := Updated(w.t, id, revision, items, period, now).0))
  {
    hide Affords, Affordable, Rebound, DistinctBindings, Genuine;
    SoundReady(k, w);
    if MayUpdate(w.t, id, revision, items, period) {
      assert StateValid(k, w.t.states[id], w.readings);
      RevisedValid(k, w.t.states[id], items, period, now, w.readings);
      AddedState(w.t.states, id, Revised(w.t.states[id], items, period, now), items);
    }
  }

  lemma PublishKeeps<V>(k: Values<V>, w: World<V>, due: Due, hal: Reading<V>)
    requires Sound(k, w) && due in w.taken
    ensures var t := Published(k, w.t, due.id, due.revision, Read(k, due.bindings, hal));
            Sound(k, w.(t := t, readings := w.readings + [hal]))
  {
    var values := Read(k, due.bindings, hal);
    var t := Published(k, w.t, due.id, due.revision, values);
    MoreReadings(k, w.t.states, w.readings, hal);
    if Publishable(k, w.t, due.id, due.revision, values) {
      assert Dated(w.t.states, due) && StateValid(k, w.t.states[due.id], w.readings);
      PublishedValid(k, w.t.states[due.id], due, hal, w.readings);
      FewerStates(t.states, w.t.states);
      hide Affords, StateValid, Publishable, Read;
    }
  }

  lemma ScheduleKeeps<V>(k: Values<V>, w: World<V>, now: int)
    requires Sound(k, w)
    ensures Sound(k, Next(k, w, TakeSamples(now)))
  {
    hide Affords, StateValid;
    ThinsKeeps(k, w, Scheduled(w.t, now));
  }

  lemma NextKeeps<V>(k: Values<V>, w: World<V>, step: Step<V>)
    requires Sound(k, w)
    ensures Sound(k, Next(k, w, step))
  {
    hide Sound, Created, Updated, Published, Scheduled, Affords, Acceptable;
    SoundReady(k, w);
    match step
    case Create(items, period, draw) =>
      if Acceptable(items, period) && draw.id !in w.used {
        CreateKeeps(k, w, items, period, draw);
      }
    case Update(id, revision, items, period, now) =>
      if Acceptable(items, period) {
        UpdateKeeps(k, w, id, revision, items, period, now);
      }
    case Claim(token, now) => ThinsKeeps(k, w, Claimed(w.t, token, now).0);
    case Detach(id, now) => ThinsKeeps(k, w, Released(w.t, id, now));
    case Erase(id) => ThinsKeeps(k, w, Erased(w.t, id));
    case Close => ThinsKeeps(k, w, Closed(w.t));
    case TakeSamples(now) => ScheduleKeeps(k, w, now);
    case Publish(due, hal) =>
      if due in w.taken {
        PublishKeeps(k, w, due, hal);
      }
  }

  lemma SoundReady<V>(k: Values<V>, w: World<V>)
    requires Sound(k, w)
    ensures Ready(w.t.states)
  {
  }

  lemma {:induction false} RunKeeps<V>(k: Values<V>, w: World<V>, steps: seq<Step<V>>)
    requires Sound(k, w)
    ensures Sound(k, Run(k, w, steps))
  {
    if steps != [] {
      RunKeeps(k, w, steps[..|steps| - 1]);
      NextKeeps(k, Run(k, w, steps[..|steps| - 1]), steps[|steps| - 1]);
    }
  }

  lemma StartSound<V>(k: Values<V>, capacity: nat, ttl: nat)
    ensures Sound(k, Start(capacity, ttl))
  {
    var none: map<string, State<V>> := map[];
    assert Loads(none) == {};
    assert Items({}) == {};
  }

  // ---- Results ----

  /** Over every run, reading each subscribed item at its fastest period takes at most 20480 samples per second. */
  lemma BudgetHolds<V>(k: Values<V>, capacity: nat, ttl: nat, steps: seq<Step<V>>)
    ensures var states := Run(k, Start(capacity, ttl), steps).t.states;
            Periodic(Loads(states)) && Cost(Loads(states)) <= 20480
  {
    StartSound(k, capacity, ttl);
    RunKeeps(k, Start(capacity, ttl), steps);
  }

  /** Over every run, and however sampling races with updates, a stored value is one that HAL returned for the item it
      is stored under, with the type that its binding promises. */
  lemma ValuesAreGenuine<V>(k: Values<V>, capacity: nat, ttl: nat, steps: seq<Step<V>>, id: string)
    requires id in Run(k, Start(capacity, ttl), steps).t.states
    ensures var w := Run(k, Start(capacity, ttl), steps);
            Genuine(k, w.t.states[id].bindings, w.t.states[id].values, w.readings)
  {
    StartSound(k, capacity, ttl);
    RunKeeps(k, Start(capacity, ttl), steps);
    var w := Run(k, Start(capacity, ttl), steps);
    assert StateValid(k, w.t.states[id], w.readings);
  }

  lemma ThinsDescends<V>(fewer: map<string, State<V>>, states: map<string, State<V>>, id: string)
    requires Thins(fewer, states) && id in fewer
    ensures Descends(states[id], fewer[id])
  {
  }

  lemma ThinsTwice<V>(least: map<string, State<V>>, fewer: map<string, State<V>>, states: map<string, State<V>>)
    requires Thins(least, fewer) && Thins(fewer, states)
    ensures Thins(least, states)
  {
  }

  lemma ClaimedThins<V>(t: Telemetry<V>, token: string, now: int)
    ensures Thins(Claimed(t, token, now).0.states, t.states)
  {
    hide Expired;
    ExpiredThins(t, now);
    ThinsTwice(Claimed(t, token, now).0.states, Expired(t, now).states, t.states);
  }

  lemma ScheduledThins<V>(t: Telemetry<V>, now: int)
    ensures Thins(Scheduled(t, now).states, t.states)
  {
    hide Expired, IsDue;
    ExpiredThins(t, now);
    ThinsTwice(Scheduled(t, now).states, Expired(t, now).states, t.states);
  }

  lemma ThinStep<V>(k: Values<V>, w: World<V>, step: Step<V>)
    requires Ready(w.t.states)
    requires step.Claim? || step.Detach? || step.Erase? || step.Close? || step.TakeSamples?
    ensures Thins(Next(k, w, step).t.states, w.t.states)
  {
    hide DueNow, Created, Updated, Published, Claimed, Scheduled;
    if step.Claim? {
      ClaimedThins(w.t, step.token, step.now);
    } else if step.TakeSamples? {
      ScheduledThins(w.t, step.now);
    }
  }

  lemma CreateDescends<V>(t: Telemetry<V>, items: seq<Resolved>, period: nat, draw: Draw, id: string)
    requires Ready(t.states) && 1 <= period && id in t.states && id != draw.id
    requires id in Created(t, items, period, draw).0.states
    ensures Descends(t.states[id], Created(t, items, period, draw).0.states[id])
  {
    hide Affordable;
  }

  lemma UpdateDescends<V>(k: Values<V>, w: World<V>, step: Step<V>, id: string)
    requires Sound(k, w) && id in w.t.states && step.Update? && Acceptable(step.items, step.period)
    ensures var after := Updated(w.t, step.id, step.revision, step.items, step.period, step.now).0.states;
            id in after && Descends(w.t.states[id], after[id])
  {
    hide Affordable, Rebound;
    assert StateValid(k, w.t.states[id], w.readings);
    RevisedValid(k, w.t.states[id], step.items, step.period, step.now, w.readings);
    hide StateValid;
  }

  lemma NextDescends<V>(k: Values<V>, w: World<V>, step: Step<V>, id: string)
    requires Sound(k, w) && id in w.t.states && id in Next(k, w, step).t.states
    ensures Descends(w.t.states[id], Next(k, w, step).t.states[id])
  {
    hide Affords, StatesValid, Descends, Created, Updated, Thins;
    SoundReady(k, w);
    var after := Next(k, w, step).t.states;
    match step
    case Create(items, period, draw) =>
      if Acceptable(items, period) && draw.id !in w.used && draw.token !in w.t.tokens {
        CreateDescends(w.t, items, period, draw, id);
      } else {
        PublishDescends(w.t.states, after, id);
      }
    case Update(_, _, items, period, _) =>
      if Acceptable(items, period) {
        UpdateDescends(k, w, step, id);
      } else {
        PublishDescends(w.t.states, after, id);
      }
    case Publish(due, hal) =>
      hide Publishable, Read;
      PublishDescends(w.t.states, after, id);
    case _ =>
      ThinStep(k, w, step);
      hide Next;
      ThinsDescends(after, w.t.states, id);
  }

  lemma PublishDescends<V>(states: map<string, State<V>>, after: map<string, State<V>>, id: string)
    requires id in states && id in after
    requires after[id].bindings == states[id].bindings && after[id].nextSlot == states[id].nextSlot
    requires after[id].revision == states[id].revision
    ensures Descends(states[id], after[id])
  {
  }

  /** The subscription is not deleted while `steps` happen. */
  ghost predicate Lives<V>(k: Values<V>, w: World<V>, steps: seq<Step<V>>, id: string)
    requires Ready(w.t.states)
  {
    forall n :: 0 <= n <= |steps| ==> id in Run(k, w, steps[..n]).t.states
  }

  lemma {:induction false} RunDescends<V>(k: Values<V>, w: World<V>, steps: seq<Step<V>>, id: string)
    requires Sound(k, w) && Lives(k, w, steps, id)
    ensures id in w.t.states && id in Run(k, w, steps).t.states
    ensures Descends(w.t.states[id], Run(k, w, steps).t.states[id])
  {
    assert steps[..0] == [] && steps[..|steps|] == steps;
    assert id in Run(k, w, steps[..0]).t.states && id in Run(k, w, steps[..|steps|]).t.states;
    if steps != [] {
      var n := |steps| - 1;
      var before := steps[..n];
      assert Lives(k, w, before, id) by {
        forall m | 0 <= m <= n ensures id in Run(k, w, before[..m]).t.states {
          assert before[..m] == steps[..m];
        }
      }
      RunDescends(k, w, before, id);
      RunKeeps(k, w, before);
      NextDescends(k, Run(k, w, before), steps[n], id);
    }
  }

  /** A slot number means one item with one type for as long as the subscription lives, whatever updates happen. */
  lemma SlotMeansOneItem<V>(
      k: Values<V>, capacity: nat, ttl: nat, steps: seq<Step<V>>, more: seq<Step<V>>, id: string,
      a: Binding, b: Binding)
    requires var w := Run(k, Start(capacity, ttl), steps);
             && Lives(k, w, more, id) && id in w.t.states && a in w.t.states[id].bindings
             && id in Run(k, w, more).t.states && b in Run(k, w, more).t.states[id].bindings
    requires a.slot == b.slot
    ensures a == b
  {
    hide Run, Affords, Lives;
    var w := Run(k, Start(capacity, ttl), steps);
    StartSound(k, capacity, ttl);
    RunKeeps(k, Start(capacity, ttl), steps);
    RunDescends(k, w, more, id);
    assert StateValid(k, w.t.states[id], w.readings);
    SameSlot(w.t.states[id], Run(k, w, more).t.states[id], a, b);
  }

  lemma SameSlot<V>(s: State<V>, q: State<V>, a: Binding, b: Binding)
    requires DistinctBindings(s.bindings, s.nextSlot) && Descends(s, q)
    requires a in s.bindings && b in q.bindings && a.slot == b.slot
    ensures a == b
  {
  }

  // ---- Tokens ----

  /** Tokens and subscriptions belong to each other one to one. */
  predicate TokensMatch<V>(t: Telemetry<V>) {
    && (forall id :: id in t.states ==> t.states[id].token in t.tokens && t.tokens[t.states[id].token] == id)
    && (forall token :: token in t.tokens ==> t.tokens[token] in t.states && t.states[t.tokens[token]].token == token)
  }

  lemma ExpiredTokens<V>(t: Telemetry<V>, now: int)
    requires TokensMatch(t)
    ensures TokensMatch(Expired(t, now))
  {
  }

  /** A step that changes a subscription, but not its token. */
  lemma KeptTokens<V>(t: Telemetry<V>, id: string, s: State<V>)
    requires TokensMatch(t) && id in t.states && s.token == t.states[id].token
    ensures TokensMatch(t.(states := t.states[id := s]))
  {
  }

  lemma ScheduledTokens<V>(t: Telemetry<V>, now: int)
    requires TokensMatch(t)
    ensures TokensMatch(Scheduled(t, now))
  {
    hide Expired;
    ExpiredTokens(t, now);
  }

  lemma ErasedTokens<V>(t: Telemetry<V>, id: string)
    requires TokensMatch(t)
    ensures TokensMatch(Erased(t, id))
  {
  }

  lemma AddedTokens<V>(t: Telemetry<V>, id: string, token: string, s: State<V>)
    requires TokensMatch(t) && id !in t.states && token !in t.tokens && s.token == token
    ensures TokensMatch(t.(states := t.states[id := s], tokens := t.tokens[token := id]))
  {
  }

  lemma CreatedTokens<V>(t: Telemetry<V>, items: seq<Resolved>, period: nat, draw: Draw)
    requires TokensMatch(t) && Timed(t.states) && 1 <= period && draw.id !in t.states && draw.token !in t.tokens
    ensures TokensMatch(Created(t, items, period, draw).0)
  {
    hide Affordable, TokensMatch, Expired;
    var e := Expired(t, draw.now);
    ExpiredTokens(t, draw.now);
    ExpiredSubset(t, draw.now);
    if !t.closed {
      AddedTokens(e, draw.id, draw.token, NewState(items, period, draw, e.ttl));
    }
  }

  lemma ExpiredSubset<V>(t: Telemetry<V>, now: int)
    ensures Expired(t, now).states.Keys <= t.states.Keys && Expired(t, now).tokens.Keys <= t.tokens.Keys
    ensures Timed(t.states) ==> Timed(Expired(t, now).states)
  {
  }

  lemma ClaimedTokens<V>(t: Telemetry<V>, token: string, now: int)
    requires TokensMatch(t)
    ensures TokensMatch(Claimed(t, token, now).0)
  {
    hide TokensMatch, Expired;
    var e := Expired(t, now);
    ExpiredTokens(t, now);
    var (after, id) := Claimed(t, token, now);
    if id.Some? {
      KeptTokens(e, id.value, after.states[id.value]);
    }
  }

  lemma NextTokens<V>(k: Values<V>, w: World<V>, step: Step<V>)
    requires Sound(k, w) && TokensMatch(w.t)
    ensures TokensMatch(Next(k, w, step).t)
  {
    SoundReady(k, w);
    hide TokensMatch, Created, Claimed, Scheduled, Erased, Affords, StatesValid, Rebound, Affordable, SameValues, Read;
    match step
    case Create(items, period, draw) =>
      if Acceptable(items, period) && draw.id !in w.used && draw.token !in w.t.tokens {
        CreatedTokens(w.t, items, period, draw);
      }
    case Update(id, revision, items, period, now) =>
      if Acceptable(items, period) && MayUpdate(w.t, id, revision, items, period) {
        KeptTokens(w.t, id, Revised(w.t.states[id], items, period, now));
      }
    case Claim(token, now) => ClaimedTokens(w.t, token, now);
    case Detach(id, now) =>
      if id in w.t.states && w.t.states[id].attached {
        KeptTokens(w.t, id, Released(w.t, id, now).states[id]);
      }
    case Erase(id) => ErasedTokens(w.t, id);
    case Close =>
      if !w.t.closed {
        NoTokens(w.t.(closed := true));
      }
    case TakeSamples(now) => ScheduledTokens(w.t, now);
    case Publish(due, hal) =>
      var values := Read(k, due.bindings, hal);
      if due in w.taken && Publishable(k, w.t, due.id, due.revision, values) {
        KeptTokens(w.t, due.id, Published(k, w.t, due.id, due.revision, values).states[due.id]);
      }
  }

  lemma NoTokens<V>(t: Telemetry<V>)
    ensures TokensMatch(t.(states := map[], tokens := map[]))
  {
  }

  lemma {:induction false} RunTokens<V>(k: Values<V>, capacity: nat, ttl: nat, steps: seq<Step<V>>)
    ensures TokensMatch(Run(k, Start(capacity, ttl), steps).t)
  {
    StartSound(k, capacity, ttl);
    if steps != [] {
      RunTokens(k, capacity, ttl, steps[..|steps| - 1]);
      RunKeeps(k, Start(capacity, ttl), steps[..|steps| - 1]);
      NextTokens(k, Run(k, Start(capacity, ttl), steps[..|steps| - 1]), steps[|steps| - 1]);
    }
  }

  /** Over every run a token opens exactly the subscription it was issued for, and only while that subscription is
      alive, has not lapsed and is not attached. */
  lemma TokenOpensItsSubscription<V>(
      k: Values<V>, capacity: nat, ttl: nat, steps: seq<Step<V>>, token: string, now: int, id: string)
    ensures var t := Run(k, Start(capacity, ttl), steps).t;
            Claimed(t, token, now).1 == Some(id) <==>
              && !t.closed && id in t.states && t.states[id].token == token
              && !t.states[id].attached && !Lapsed(t.states[id], now)
  {
    RunTokens(k, capacity, ttl, steps);
    hide Run;
  }
}
