/** What HAL value subscriptions do for their clients: when they are sampled, what is then stored, and how long they
    live. */
module HalPromises {
  import opened Options
  import opened SamplingBudget
  import opened HalTelemetry
  import opened HalSubscriptions

  // ---- Publishing ----

  /** What was read for a binding; nothing if HAL has nothing for the item or nothing of the promised type. */
  function Reads<V>(k: Values<V>, b: Binding, hal: Reading<V>): Option<V> {
    match hal(b.item)
    case Some(v) => if k.typeOf(v) == b.halType then Some(v) else None
    case None => None
  }

  /** The values stored are those read now; one that compares the same may be the value stored before. */
  ghost predicate Stores<V>(k: Values<V>, s: State<V>, hal: Reading<V>, q: State<V>) {
    && |q.values| == |s.bindings| == |s.values|
    && forall i :: 0 <= i < |q.values| ==> StoresAt(k, s, hal, q.values[i], i)
  }

  ghost predicate StoresAt<V>(k: Values<V>, s: State<V>, hal: Reading<V>, v: Option<V>, i: nat)
    requires i < |s.bindings| == |s.values|
  {
    var now := Reads(k, s.bindings[i], hal);
    v == now || (v == s.values[i] && SameValue(k, v, now))
  }

  /** Something was read that does not compare the same as what is stored. */
  predicate NewsAt<V>(k: Values<V>, s: State<V>, hal: Reading<V>, i: nat)
    requires i < |s.bindings| == |s.values|
  {
    !SameValue(k, s.values[i], Reads(k, s.bindings[i], hal))
  }

  ghost predicate News<V>(k: Values<V>, s: State<V>, hal: Reading<V>)
    requires |s.bindings| == |s.values|
  {
    !s.sampled || exists i :: 0 <= i < |s.bindings| && NewsAt(k, s, hal, i)
  }

  lemma ReadIsReading<V>(k: Values<V>, bindings: seq<Binding>, hal: Reading<V>, i: nat)
    requires i < |bindings|
    ensures Read(k, bindings, hal)[i] == Reads(k, bindings[i], hal)
  {
  }

  lemma NewsMeansDifferent<V>(k: Values<V>, s: State<V>, hal: Reading<V>)
    requires |s.bindings| == |s.values|
    ensures News(k, s, hal) <==> !s.sampled || !SameValues(k, s.values, Read(k, s.bindings, hal))
  {
    var values := Read(k, s.bindings, hal);
    forall i | 0 <= i < |s.bindings| ensures NewsAt(k, s, hal, i) <==> !SameValue(k, s.values[i], values[i]) {
      ReadIsReading(k, s.bindings, hal, i);
    }
    hide Read, NewsAt, SameValue;
  }

  /** Over every run, publishing a sample whose revision is still the subscription's leaves the subscription sampled and
      with the values just read; its number goes up, and only then is its session woken, if something differs from what
      was stored. A sample of an earlier revision changes nothing, and no other subscription changes. */
  lemma PublishedIsCurrent<V>(k: Values<V>, capacity: nat, ttl: nat, steps: seq<Step<V>>, due: Due, hal: Reading<V>)
    requires due in Run(k, Start(capacity, ttl), steps).taken
    ensures var w := Run(k, Start(capacity, ttl), steps);
            var after := Next(k, w, Publish(due, hal));
            if due.id in w.t.states && w.t.states[due.id].revision == due.revision then
              var s := w.t.states[due.id];
              && after.t == w.t.(states := w.t.states[due.id := after.t.states[due.id]])
              && var q := after.t.states[due.id];
                 && |s.bindings| == |s.values|
                 && q == s.(values := q.values, sampled := true, sequence := q.sequence)
                 && Stores(k, s, hal, q)
                 && q.sequence == s.sequence + (if News(k, s, hal) then 1 else 0)
            else after.t == w.t
  {
    StartSound(k, capacity, ttl);
    RunKeeps(k, Start(capacity, ttl), steps);
    var w := Run(k, Start(capacity, ttl), steps);
    hide Run, Affords, StatesValid;
    if due.id in w.t.states && w.t.states[due.id].revision == due.revision {
      var s := w.t.states[due.id];
      assert Dated(w.t.states, due);
      NewsMeansDifferent(k, s, hal);
      forall i | 0 <= i < |s.bindings|
        ensures StoresAt(k, s, hal, Read(k, s.bindings, hal)[i], i)
        ensures SameValue(k, s.values[i], Read(k, s.bindings, hal)[i]) ==> StoresAt(k, s, hal, s.values[i], i)
      {
        ReadIsReading(k, s.bindings, hal, i);
      }
      hide Read, News, StoresAt;
      assert w.t.states[due.id := s] == w.t.states;
    }
  }

  // ---- Sampling ----

  /** An attached subscription with items, whose time has come; it has not lapsed because it is attached. */
  predicate Waiting<V>(t: Telemetry<V>, id: string, now: int) {
    id in t.states && t.states[id].attached && t.states[id].bindings != [] && t.states[id].nextDue <= now
  }

  lemma DueMeansWaiting<V>(t: Telemetry<V>, now: int)
    ensures forall due :: due in DueNow(t, now) <==>
              Waiting(t, due.id, now) && due == Due(due.id, t.states[due.id].revision, t.states[due.id].bindings)
  {
    var e := Expired(t, now);
    forall due
      ensures due in DueNow(t, now) <==>
              Waiting(t, due.id, now) && due == Due(due.id, t.states[due.id].revision, t.states[due.id].bindings)
    {
      if Waiting(t, due.id, now) && due == Due(due.id, t.states[due.id].revision, t.states[due.id].bindings) {
        assert due.id in e.states && IsDue(e.states[due.id], now);
      }
    }
  }

  lemma ScheduledAt<V>(t: Telemetry<V>, now: int, id: string)
    ensures var after := Scheduled(t, now);
            && (id in after.states <==> id in t.states && (t.states[id].attached || now < t.states[id].expires))
            && (id in after.states ==>
                  after.states[id] ==
                    if Waiting(t, id, now) then t.states[id].(nextDue := now + t.states[id].period) else t.states[id])
            && after.capacity == t.capacity && after.ttl == t.ttl && after.closed == t.closed
  {
  }

  /** Over every run, taking samples at `now` takes one for exactly the subscriptions that are waiting, with the items
      they have now, and each of them waits for its period from then on; subscriptions go if they are not attached and
      their time is up, and nothing else changes. */
  lemma SamplesAreTaken<V>(k: Values<V>, capacity: nat, ttl: nat, steps: seq<Step<V>>, now: int, id: string)
    ensures var w := Run(k, Start(capacity, ttl), steps);
            var after := Next(k, w, TakeSamples(now));
            && (Waiting(w.t, id, now) ==> Due(id, w.t.states[id].revision, w.t.states[id].bindings) in after.taken)
            && (forall due :: due in after.taken ==>
                  || due in w.taken
                  || (Waiting(w.t, due.id, now)
                      && due == Due(due.id, w.t.states[due.id].revision, w.t.states[due.id].bindings)))
            && w.taken <= after.taken
            && (id in after.t.states <==>
                  id in w.t.states && (w.t.states[id].attached || now < w.t.states[id].expires))
            && (id in after.t.states ==>
                  after.t.states[id] ==
                    if Waiting(w.t, id, now) then w.t.states[id].(nextDue := now + w.t.states[id].period)
                    else w.t.states[id])
            && after.t.capacity == w.t.capacity && after.t.ttl == w.t.ttl && after.t.closed == w.t.closed
  {
    hide Run, Scheduled, DueNow, Timed;
    var w := Run(k, Start(capacity, ttl), steps);
    DueMeansWaiting(w.t, now);
    ScheduledAt(w.t, now, id);
    assert Waiting(w.t, id, now) ==>
             Due(id, w.t.states[id].revision, w.t.states[id].bindings) in DueNow(w.t, now);
  }

  // ---- Life ----

  /** The subscription would be gone at this time. */
  predicate Over<V>(s: State<V>, now: int) {
    !s.attached && s.expires <= now
  }

  ghost function Alive<V>(t: Telemetry<V>, now: int): set<string> {
    set id | id in t.states && !Over(t.states[id], now)
  }

  lemma ExpiredIsAlive<V>(t: Telemetry<V>, now: int)
    ensures Expired(t, now).states.Keys == Alive(t, now) && |Expired(t, now).states| == |Alive(t, now)|
    ensures forall id :: id in Alive(t, now) ==> Expired(t, now).states[id] == t.states[id]
    ensures Expired(t, now).capacity == t.capacity && Expired(t, now).ttl == t.ttl
    ensures Expired(t, now).closed == t.closed
  {
    var e := Expired(t, now);
    assert e.states.Keys == Alive(t, now);
    assert |e.states| == |e.states.Keys|;
  }

  /** What a new subscription is like: nothing read, nobody attached, its items bound in order to the first slots. */
  ghost predicate IsNew<V>(s: State<V>, items: seq<Resolved>, period: nat, draw: Draw, ttl: nat) {
    && s.token == draw.token && s.expires == draw.now + ttl && s.nextDue == draw.now && s.period == period
    && s.revision == 1 && s.sequence == 0 && !s.attached && !s.sampled
    && s.nextSlot == |s.bindings| == |s.values| == |items|
    && (forall i :: 0 <= i < |items| ==> s.bindings[i] == Binding(i, items[i].item, items[i].halType))
    && (forall i :: 0 <= i < |items| ==> s.values[i] == None)
  }

  ghost function Living<V>(t: Telemetry<V>, now: int): map<string, State<V>> {
    map id | id in Alive(t, now) :: t.states[id]
  }

  lemma ExpiredIsLiving<V>(t: Telemetry<V>, now: int)
    ensures Expired(t, now).states == Living(t, now) && |Expired(t, now).states| == |Alive(t, now)|
    ensures Expired(t, now).capacity == t.capacity && Expired(t, now).ttl == t.ttl
    ensures Expired(t, now).closed == t.closed
    ensures Timed(t.states) ==> Timed(Living(t, now))
  {
    ExpiredIsAlive(t, now);
    assert Living(t, now).Keys == Alive(t, now);
  }

  /** There is room for one more subscription. */
  ghost predicate Room<V>(t: Telemetry<V>, items: seq<Resolved>, period: nat, now: int)
    requires Timed(t.states) && 1 <= period
  {
    ExpiredIsLiving(t, now);
    !t.closed && |Alive(t, now)| < t.capacity && Affordable(Living(t, now), {}, items, period)
  }

  lemma NewIsNew<V>(items: seq<Resolved>, period: nat, draw: Draw, ttl: nat)
    ensures IsNew<V>(NewState(items, period, draw, ttl), items, period, draw, ttl)
  {
  }

  lemma CreatedExactly<V>(t: Telemetry<V>, items: seq<Resolved>, period: nat, draw: Draw)
    requires Timed(t.states) && 1 <= period && draw.id !in t.states
    ensures var (after, created) := Created(t, items, period, draw);
            && (created <==> Room(t, items, period, draw.now))
            && (created ==>
                  && draw.id in after.states && IsNew(after.states[draw.id], items, period, draw, t.ttl)
                  && after.states == Living(t, draw.now)[draw.id := after.states[draw.id]]
                  && draw.token in after.tokens && after.tokens[draw.token] == draw.id)
            && (!created ==> after.states == if t.closed then t.states else Living(t, draw.now))
            && after.capacity == t.capacity && after.ttl == t.ttl && after.closed == t.closed
  {
    hide Expired, Affordable, IsNew, NewState, Living, Alive;
    ExpiredIsLiving(t, draw.now);
    NewIsNew<V>(items, period, draw, t.ttl);
  }

  /** Over every run, a subscription is created if and only if the telemetry is open, fewer are alive than it may hold
      and the sampling budget allows it with all that are alive; it is then as new and opened by its token. The others
      that are alive stay as they were. */
  lemma CreationIsAsAsked<V>(
      k: Values<V>, capacity: nat, ttl: nat, steps: seq<Step<V>>, items: seq<Resolved>, period: nat, draw: Draw)
    requires Acceptable(items, period)
    requires var w := Run(k, Start(capacity, ttl), steps); draw.id !in w.used && draw.token !in w.t.tokens
    ensures var w := Run(k, Start(capacity, ttl), steps);
            var after := Next(k, w, Create(items, period, draw)).t;
            && (Room(w.t, items, period, draw.now) ==>
                  && draw.id in after.states && IsNew(after.states[draw.id], items, period, draw, w.t.ttl)
                  && after.states == Living(w.t, draw.now)[draw.id := after.states[draw.id]]
                  && draw.token in after.tokens && after.tokens[draw.token] == draw.id)
            && (!Room(w.t, items, period, draw.now) ==>
                  after.states == if w.t.closed then w.t.states else Living(w.t, draw.now))
  {
    hide Run, Affords, StatesValid, Created, Room, IsNew, Living;
    StartSound(k, capacity, ttl);
    RunKeeps(k, Start(capacity, ttl), steps);
    CreatedExactly(Run(k, Start(capacity, ttl), steps).t, items, period, draw);
  }

  // ---- Updating ----

  /** An item that was bound with the same type keeps its slot and value; any other gets a slot never used before and no
      value. */
  ghost predicate RebindsAt<V>(s: State<V>, q: State<V>, i: nat)
    requires i < |q.bindings| == |q.values| && |s.bindings| == |s.values|
  {
    var b := q.bindings[i];
    if Bindable(s, b.item, b.halType) then KeptAt(s, b, q.values[i]) else s.nextSlot <= b.slot && q.values[i] == None
  }

  ghost predicate Bindable<V>(s: State<V>, item: Reference, halType: TypeCode) {
    exists j :: 0 <= j < |s.bindings| && s.bindings[j].item == item && s.bindings[j].halType == halType
  }

  ghost predicate KeptAt<V>(s: State<V>, b: Binding, v: Option<V>)
    requires |s.bindings| == |s.values|
  {
    exists j :: 0 <= j < |s.bindings| && s.bindings[j] == b && s.values[j] == v
  }

  ghost predicate IsRevised<V>(s: State<V>, q: State<V>, items: seq<Resolved>, period: nat, now: int) {
    && |s.bindings| == |s.values| && |q.bindings| == |q.values| == |items|
    && q == s.(bindings := q.bindings, values := q.values, nextSlot := q.nextSlot, period := period, nextDue := now,
               sampled := items == [], revision := s.revision + 1, sequence := s.sequence + 1)
    && (forall i :: 0 <= i < |items| ==>
          q.bindings[i].item == items[i].item && q.bindings[i].halType == items[i].halType)
    && (forall i :: 0 <= i < |items| ==> RebindsAt(s, q, i))
  }

  lemma FoundBindable<V>(s: State<V>, nextSlot: nat, item: Reference, halType: TypeCode)
    requires DistinctBindings(s.bindings, nextSlot)
    ensures var at := FindItem(s.bindings, item);
            Bindable(s, item, halType) <==> at < |s.bindings| && s.bindings[at].halType == halType
  {
    var at := FindItem(s.bindings, item);
    if Bindable(s, item, halType) {
      var j :| 0 <= j < |s.bindings| && s.bindings[j].item == item && s.bindings[j].halType == halType;
      assert at <= j;
    }
    hide FindItem;
  }

  lemma {:induction false} ReboundExactly<V>(s: State<V>, items: seq<Resolved>, n: nat)
    requires |s.bindings| == |s.values| && DistinctBindings(s.bindings, s.nextSlot) && n <= |items|
    ensures var r := Rebound(s, items[..n]);
            var q := s.(bindings := r.bindings, values := r.values);
            && s.nextSlot <= r.nextSlot
            && forall i :: 0 <= i < n ==>
                 && r.bindings[i].item == items[i].item && r.bindings[i].halType == items[i].halType
                 && RebindsAt(s, q, i)
  {
    if n > 0 {
      var item := items[n - 1];
      assert items[..n][..n - 1] == items[..n - 1];
      ReboundExactly(s, items, n - 1);
      var before, r := Rebound(s, items[..n - 1]), Rebound(s, items[..n]);
      assert r == RebindOne(s, before, item);
      FoundBindable(s, s.nextSlot, item.item, item.halType);
      var q0 := s.(bindings := before.bindings, values := before.values);
      var q := s.(bindings := r.bindings, values := r.values);
      hide Rebound, DistinctBindings, Bindable;
      forall i | 0 <= i < n
        ensures r.bindings[i].item == items[i].item && r.bindings[i].halType == items[i].halType && RebindsAt(s, q, i)
      {
        if i < n - 1 {
          assert RebindsAt(s, q0, i);
        } else {
          var at := FindItem(s.bindings, item.item);
          assert at < |s.bindings| && s.bindings[at].halType == item.halType ==>
                   KeptAt(s, s.bindings[at], s.values[at]);
        }
      }
    }
  }

  /** Over every run, an update is accepted if and only if the telemetry is open, the subscription exists with the
      revision the client names and the budget allows it with the others; it then binds exactly the items asked for, in
      order. */
  lemma UpdateIsAsAsked<V>(
      k: Values<V>, capacity: nat, ttl: nat, steps: seq<Step<V>>, id: string, revision: nat, items: seq<Resolved>,
      period: nat, now: int)
    requires Acceptable(items, period)
    ensures var w := Run(k, Start(capacity, ttl), steps);
            var after := Next(k, w, Update(id, revision, items, period, now)).t;
            if && !w.t.closed && id in w.t.states && w.t.states[id].revision == revision
               && Affordable(w.t.states, {id}, items, period)
            then && after == w.t.(states := w.t.states[id := after.states[id]])
                 && IsRevised(w.t.states[id], after.states[id], items, period, now)
            else after == w.t
  {
    hide Run, Affords, Affordable, Genuine, Rebound, Timed;
    StartSound(k, capacity, ttl);
    RunKeeps(k, Start(capacity, ttl), steps);
    var w := Run(k, Start(capacity, ttl), steps);
    if id in w.t.states {
      assert StateValid(k, w.t.states[id], w.readings);
      hide StatesValid;
      ReboundExactly(w.t.states[id], items, |items|);
      assert items[..|items|] == items;
    }
    hide DistinctBindings, StatesValid, RebindsAt;
  }

  // ---- Claiming and leaving ----

  lemma ClaimAttaches<V>(t: Telemetry<V>, token: string, now: int)
    ensures var (after, claimed) := Claimed(t, token, now);
            after.states ==
              if claimed.Some? && claimed.value in Living(t, now)
              then Living(t, now)[claimed.value := Living(t, now)[claimed.value].(attached := true, nextDue := now)]
              else Living(t, now)
  {
    hide Living, Alive, Expired;
    ExpiredIsLiving(t, now);
  }

  lemma LeavingRemoves<V>(t: Telemetry<V>, id: string, now: int)
    ensures Released(t, id, now) ==
              if id in t.states && t.states[id].attached
              then t.(states := t.states[id := t.states[id].(attached := false, expires := now + t.ttl)])
              else t
    ensures Erased(t, id).states == t.states - {id}
    ensures Closed(t).closed && (!t.closed ==> Closed(t).states == map[] && Closed(t).tokens == map[])
  {
    if id !in t.states {
      assert t.states - {id} == t.states;
    }
  }

  /** Over every run, a claim that succeeds attaches the subscription, whose next sample is due at once; detaching
      starts its time to live again, erasing removes it and closing removes all. Nothing else changes but what was
      over. */
  lemma AttachmentIsAsAsked<V>(
      k: Values<V>, capacity: nat, ttl: nat, steps: seq<Step<V>>, token: string, id: string, now: int)
    ensures var w := Run(k, Start(capacity, ttl), steps);
            var (_, claimed) := Claimed(w.t, token, now);
            Next(k, w, Claim(token, now)).t.states ==
              if claimed.Some? && claimed.value in Living(w.t, now)
              then Living(w.t, now)[claimed.value :=
                     Living(w.t, now)[claimed.value].(attached := true, nextDue := now)]
              else Living(w.t, now)
    ensures var w := Run(k, Start(capacity, ttl), steps);
            Next(k, w, Detach(id, now)).t ==
              if id in w.t.states && w.t.states[id].attached
              then w.t.(states := w.t.states[id := w.t.states[id].(attached := false, expires := now + w.t.ttl)])
              else w.t
    ensures var w := Run(k, Start(capacity, ttl), steps);
            Next(k, w, Erase(id)).t.states == w.t.states - {id}
    ensures var w := Run(k, Start(capacity, ttl), steps);
            var after := Next(k, w, Close).t;
            after.closed && (!w.t.closed ==> after.states == map[] && after.tokens == map[])
  {
    hide Run, Living, Alive, Claimed, Released, Erased, Closed, Timed;
    var w := Run(k, Start(capacity, ttl), steps);
    ClaimAttaches(w.t, token, now);
    LeavingRemoves(w.t, id, now);
  }

  lemma NextBounds<V>(k: Values<V>, w: World<V>, step: Step<V>)
    requires Ready(w.t.states)
    ensures var t := Next(k, w, step).t; t.capacity == w.t.capacity && t.ttl == w.t.ttl
  {
    hide Affordable, Rebound, Read, SameValues, IsDue, Lapsed, Timed;
  }

  /** The bounds never change. */
  lemma {:induction false} BoundsStay<V>(k: Values<V>, capacity: nat, ttl: nat, steps: seq<Step<V>>)
    ensures var t := Run(k, Start(capacity, ttl), steps).t; t.capacity == capacity && t.ttl == ttl
  {
    if steps != [] {
      BoundsStay(k, capacity, ttl, steps[..|steps| - 1]);
      hide Next;
      NextBounds(k, Run(k, Start(capacity, ttl), steps[..|steps| - 1]), steps[|steps| - 1]);
    }
  }

  /** What the budget allows: the items of all other subscriptions and those asked for, each read at its fastest period,
      up to exactly 20480 times a second. */
  lemma AffordableMeans<V>(states: map<string, State<V>>, replacing: set<string>, items: seq<Resolved>, period: nat)
    requires Timed(states) && 1 <= period
    ensures var loads := Loads(states - replacing) + LoadsOf(Wanted(items), period);
            Periodic(loads) && (Affordable(states, replacing, items, period) <==> Cost(loads) <= 20480)
  {
    TimedPeriodic(states - replacing, Wanted(items), period);
  }
}
