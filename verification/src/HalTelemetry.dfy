/**
Subscriptions to HAL values: which items each one samples, under which slot numbers, and
the values last published for them.
*/
module HalTelemetry {
  import opened Options
  import opened SamplingBudget

  /** A value's type; zero marks an item that could not be read when it was resolved. */
  type TypeCode = nat

  /** How values are compared and typed. Values are opaque otherwise. */
  datatype Values<!V> = Values(same: (V, V) -> bool, typeOf: V -> TypeCode)

  datatype Resolved = Resolved(item: Reference, halType: TypeCode)

  datatype Binding = Binding(slot: nat, item: Reference, halType: TypeCode)

  datatype State<V> = State(
    token: string,
    expires: int,
    nextDue: int,
    period: nat,
    revision: nat,
    sequence: nat,
    nextSlot: nat,
    attached: bool,
    sampled: bool,
    bindings: seq<Binding>,
    values: seq<Option<V>>)

  datatype Telemetry<V> = Telemetry(
    capacity: nat,
    ttl: nat,
    states: map<string, State<V>>,
    tokens: map<string, string>,
    closed: bool)

  datatype Due = Due(id: string, revision: nat, bindings: seq<Binding>)

  /** Two random draws and the clock. */
  datatype Draw = Draw(id: string, token: string, now: int)

  // ---- Loads ----

  ghost function LoadsOf(items: seq<Reference>, period: nat): set<Load> {
    set i | 0 <= i < |items| :: Load(items[i], period)
  }

  function Bound(bindings: seq<Binding>): (r: seq<Reference>)
    ensures |r| == |bindings|
  {
    seq(|bindings|, i requires 0 <= i < |bindings| => bindings[i].item)
  }

  function Wanted(items: seq<Resolved>): (r: seq<Reference>)
    ensures |r| == |items|
  {
    seq(|items|, i requires 0 <= i < |items| => items[i].item)
  }

  ghost function StateLoads<V>(s: State<V>): set<Load> {
    LoadsOf(Bound(s.bindings), s.period)
  }

  ghost function Loads<V>(states: map<string, State<V>>): set<Load> {
    set id, l | id in states && l in StateLoads(states[id]) :: l
  }

  /** Every subscription has a period. */
  predicate Timed<V>(states: map<string, State<V>>) {
    forall id :: id in states ==> 1 <= states[id].period
  }

  lemma TimedPeriodic<V>(states: map<string, State<V>>, items: seq<Reference>, period: nat)
    requires Timed(states) && 1 <= period
    ensures Periodic(Loads(states) + LoadsOf(items, period))
  {
  }

  /** What sampling would cost with these items in place of `replacing`. */
  ghost predicate Affordable<V>(
      states: map<string, State<V>>, replacing: set<string>, items: seq<Resolved>, period: nat)
    requires Timed(states) && 1 <= period
  {
    TimedPeriodic(states - replacing, Wanted(items), period);
    WithinBudget(Loads(states - replacing) + LoadsOf(Wanted(items), period))
  }

  // ---- Bindings ----

  function Numbered(items: seq<Resolved>, first: nat): (r: seq<Binding>)
    ensures |r| == |items|
  {
    seq(|items|, i requires 0 <= i < |items| => Binding(first + i, items[i].item, items[i].halType))
  }

  function Nothing<V>(count: nat): seq<Option<V>> {
    seq(count, _ => None)
  }

  /** The first binding for the item, or the length when there is none. */
  function FindItem(bindings: seq<Binding>, item: Reference): (r: nat)
    ensures r <= |bindings|
    ensures r < |bindings| ==> bindings[r].item == item
    ensures forall i :: 0 <= i < r ==> bindings[i].item != item
  {
    if bindings == [] || bindings[0].item == item then 0 else 1 + FindItem(bindings[1..], item)
  }

  datatype Rebinding<V> = Rebinding(bindings: seq<Binding>, values: seq<Option<V>>, nextSlot: nat)

  /** An item that keeps its type keeps its slot and value; any other gets the next slot and no value. */
  function RebindOne<V>(s: State<V>, r: Rebinding<V>, item: Resolved): Rebinding<V>
    requires |s.values| == |s.bindings|
  {
    var at := FindItem(s.bindings, item.item);
    if at < |s.bindings| && s.bindings[at].halType == item.halType then
      Rebinding(r.bindings + [s.bindings[at]], r.values + [s.values[at]], r.nextSlot)
    else
      Rebinding(r.bindings + [Binding(r.nextSlot, item.item, item.halType)], r.values + [None], r.nextSlot + 1)
  }

  function Rebound<V>(s: State<V>, items: seq<Resolved>): (r: Rebinding<V>)
    requires |s.values| == |s.bindings|
    ensures |r.bindings| == |r.values| == |items|
  {
    if items == [] then Rebinding([], [], s.nextSlot)
    else RebindOne(s, Rebound(s, items[..|items| - 1]), items[|items| - 1])
  }

  // ---- Operations ----

  predicate Lapsed<V>(s: State<V>, now: int) {
    !s.attached && now >= s.expires
  }

  function Expired<V>(t: Telemetry<V>, now: int): Telemetry<V> {
    t.(states := map id | id in t.states && !Lapsed(t.states[id], now) :: t.states[id],
       tokens := map token |
                   && token in t.tokens
                   && !(t.tokens[token] in t.states && Lapsed(t.states[t.tokens[token]], now)) ::
                   t.tokens[token])
  }

  lemma ExpiredTimed<V>(t: Telemetry<V>, now: int)
    requires Timed(t.states)
    ensures Timed(Expired(t, now).states)
  {
  }

  function NewState<V>(items: seq<Resolved>, period: nat, draw: Draw, ttl: nat): State<V> {
    State(draw.token, draw.now + ttl, draw.now, period, 1, 0, |items|, false, false,
          Numbered(items, 0), Nothing(|items|))
  }

  ghost function Created<V>(t: Telemetry<V>, items: seq<Resolved>, period: nat, draw: Draw): (Telemetry<V>, bool)
    requires Timed(t.states) && 1 <= period
  {
    if t.closed then (t, false)
    else
      var e := Expired(t, draw.now);
      if |e.states| >= e.capacity || !Affordable(e.states, {}, items, period) then (e, false)
      else (e.(states := e.states[draw.id := NewState(items, period, draw, e.ttl)],
               tokens := e.tokens[draw.token := draw.id]), true)
  }

  function Revised<V>(s: State<V>, items: seq<Resolved>, period: nat, now: int): State<V>
    requires |s.values| == |s.bindings|
  {
    var r := Rebound(s, items);
    s.(bindings := r.bindings, values := r.values, nextSlot := r.nextSlot, period := period, nextDue := now,
       sampled := r.bindings == [], revision := s.revision + 1, sequence := s.sequence + 1)
  }

  ghost predicate MayUpdate<V>(t: Telemetry<V>, id: string, revision: nat, items: seq<Resolved>, period: nat)
    requires Timed(t.states) && 1 <= period
  {
    !t.closed && id in t.states && t.states[id].revision == revision && Affordable(t.states, {id}, items, period)
  }

  ghost function Updated<V>(t: Telemetry<V>, id: string, revision: nat, items: seq<Resolved>, period: nat, now: int)
    : (Telemetry<V>, bool)
    requires Timed(t.states) && 1 <= period && (id in t.states ==> |t.states[id].values| == |t.states[id].bindings|)
  {
    if !MayUpdate(t, id, revision, items, period) then (t, false)
    else (t.(states := t.states[id := Revised(t.states[id], items, period, now)]), true)
  }

  function Claimed<V>(t: Telemetry<V>, token: string, now: int): (Telemetry<V>, Option<string>) {
    var e := Expired(t, now);
    if e.closed || token !in e.tokens || e.tokens[token] !in e.states || e.states[e.tokens[token]].attached
    then (e, None)
    else
      var id := e.tokens[token];
      (e.(states := e.states[id := e.states[id].(attached := true, nextDue := now)]), Some(id))
  }

  function Released<V>(t: Telemetry<V>, id: string, now: int): Telemetry<V> {
    if id !in t.states || !t.states[id].attached then t
    else t.(states := t.states[id := t.states[id].(attached := false, expires := now + t.ttl)])
  }

  function Erased<V>(t: Telemetry<V>, id: string): Telemetry<V> {
    if id !in t.states then t
    else t.(states := t.states - {id}, tokens := t.tokens - {t.states[id].token})
  }

  function Closed<V>(t: Telemetry<V>): Telemetry<V> {
    if t.closed then t else t.(closed := true, states := map[], tokens := map[])
  }

  predicate IsDue<V>(s: State<V>, now: int) {
    s.attached && s.bindings != [] && now >= s.nextDue
  }

  function Scheduled<V>(t: Telemetry<V>, now: int): Telemetry<V> {
    var e := Expired(t, now);
    e.(states := map id | id in e.states ::
         if IsDue(e.states[id], now) then e.states[id].(nextDue := now + e.states[id].period) else e.states[id])
  }

  /** The samples to take now, each for the bindings of its moment. */
  function DueNow<V>(t: Telemetry<V>, now: int): set<Due> {
    var e := Expired(t, now);
    set id | id in e.states && IsDue(e.states[id], now) :: Due(id, e.states[id].revision, e.states[id].bindings)
  }

  predicate SameValues<V>(k: Values<V>, a: seq<Option<V>>, b: seq<Option<V>>) {
    |a| == |b| && forall i :: 0 <= i < |a| ==> SameValue(k, a[i], b[i])
  }

  predicate SameValue<V>(k: Values<V>, a: Option<V>, b: Option<V>) {
    if a.None? || b.None? then a.None? && b.None? else k.same(a.value, b.value)
  }

  /** The published values replace those of the revision they were sampled for, and of no other. */
  predicate Publishable<V>(k: Values<V>, t: Telemetry<V>, id: string, revision: nat, values: seq<Option<V>>) {
    && id in t.states && t.states[id].revision == revision && |t.states[id].values| == |values|
    && (!t.states[id].sampled || !SameValues(k, t.states[id].values, values))
  }

  function Published<V>(
      k: Values<V>, t: Telemetry<V>, id: string, revision: nat, values: seq<Option<V>>): Telemetry<V>
  {
    if !Publishable(k, t, id, revision, values) then t
    else
      var s := t.states[id];
      t.(states := t.states[id := s.(values := values, sampled := true, sequence := s.sequence + 1)])
  }

  /** What HAL reads for the items, kept only where it has the type the binding promises. */
  function Read<V>(k: Values<V>, bindings: seq<Binding>, hal: Reference -> Option<V>): (r: seq<Option<V>>)
    ensures |r| == |bindings|
  {
    seq(|bindings|, i requires 0 <= i < |bindings| =>
      var v := hal(bindings[i].item);
      if v.Some? && k.typeOf(v.value) == bindings[i].halType then v else None)
  }

  // ---- The telemetry object ----

  class HalValueTelemetry<V> {
    const k: Values<V>
    const capacity: nat
    const ttl: nat
    var states: map<string, State<V>>
    var tokens: map<string, string>
    var closed: bool

    ghost function View(): Telemetry<V>
      reads this
    {
      Telemetry(capacity, ttl, states, tokens, closed)
    }

    constructor (k: Values<V>, capacity: nat, ttl: nat)
      ensures this.k == k && View() == Telemetry(capacity, ttl, map[], map[], false)
    {
      this.k, this.capacity, this.ttl := k, capacity, ttl;
      states, tokens, closed := map[], map[], false;
    }

    method ExpireLocked(now: int)
      modifies this
      ensures View() == Expired(old(View()), now)
    {
      var lapsed := set id | id in states && Lapsed(states[id], now);
      tokens := map token | token in tokens && !(tokens[token] in lapsed) :: tokens[token];
      states := states - lapsed;
      assert states == Expired(old(View()), now).states;
    }

    /** Gather the fastest period for each item, over the other subscriptions in any order and then the candidate. */
    method WithinSamplingBudget(replacing: set<string>, items: seq<Resolved>, period: nat) returns (ok: bool)
      requires Timed(states) && 1 <= period
      ensures ok == Affordable(states, replacing, items, period)
    {
      var others := states - replacing;
      var fastest: map<string, nat> := map[];
      var rest := others.Keys;
      RecordsNone();
      assert Loads(others - rest) == {};
      while rest != {}
        invariant rest <= others.Keys
        invariant Records(fastest, Loads(others - rest))
        decreases |rest|
      {
        var id :| id in rest;
        fastest := Include(fastest, Bound(others[id].bindings), others[id].period, Loads(others - rest));
        LoadsMore(others, rest, id);
        rest := rest - {id};
      }
      assert others - rest == others;
      fastest := Include(fastest, Wanted(items), period, Loads(others));
      TimedPeriodic(others, Wanted(items), period);
      ok := CheckBudget(fastest, Loads(others) + LoadsOf(Wanted(items), period));
    }

    method Include(fastest: map<string, nat>, items: seq<Reference>, period: nat, ghost loads: set<Load>)
      returns (r: map<string, nat>)
      requires Records(fastest, loads)
      ensures Records(r, loads + LoadsOf(items, period))
    {
      hide Records;
      r := fastest;
      assert loads + LoadsOf(items[..0], period) == loads;
      for n := 0 to |items|
        invariant Records(r, loads + LoadsOf(items[..n], period))
      {
        ghost var l := Load(items[n], period);
        RecordedRecords(r, loads + LoadsOf(items[..n], period), l);
        LoadsAppend(items, period, n);
        assert loads + LoadsOf(items[..n + 1], period) == loads + LoadsOf(items[..n], period) + {l};
        r := Recorded(r, Load(items[n], period));
      }
      assert items[..|items|] == items;
    }

    method Create(items: seq<Resolved>, period: nat, draw: Draw) returns (created: bool)
      requires Timed(states) && 1 <= period
      modifies this
      ensures (View(), created) == Created(old(View()), items, period, draw)
    {
      hide Affordable, Expired;
      if closed {
        return false;
      }
      ExpireLocked(draw.now);
      ExpiredTimed(old(View()), draw.now);
      if |states| >= capacity {
        return false;
      }
      var ok := WithinSamplingBudget({}, items, period);
      if !ok {
        return false;
      }
      var bindings: seq<Binding>, nextSlot := [], 0;
      for n := 0 to |items|
        invariant nextSlot == n && bindings == Numbered(items, 0)[..n]
      {
        bindings := bindings + [Binding(nextSlot, items[n].item, items[n].halType)];
        nextSlot := nextSlot + 1;
      }
      assert bindings == Numbered(items, 0);
      states := states[draw.id := State(draw.token, draw.now + ttl, draw.now, period, 1, 0, nextSlot, false, false,
                                        bindings, Nothing(|items|))];
      tokens := tokens[draw.token := draw.id];
      return true;
    }

    method Update(id: string, revision: nat, items: seq<Resolved>, period: nat, now: int) returns (updated: bool)
      requires Timed(states) && 1 <= period && (id in states ==> |states[id].values| == |states[id].bindings|)
      modifies this
      ensures (View(), updated) == Updated(old(View()), id, revision, items, period, now)
    {
      hide Affordable, Rebound;
      if closed || id !in states || states[id].revision != revision {
        return false;
      }
      var ok := WithinSamplingBudget({id}, items, period);
      if !ok {
        return false;
      }
      var s := states[id];
      var r := Rebind(s, items);
      states := states[id := s.(bindings := r.bindings, values := r.values, nextSlot := r.nextSlot, period := period,
                                nextDue := now, sampled := r.bindings == [], revision := s.revision + 1,
                                sequence := s.sequence + 1)];
      return true;
    }

    method Claim(token: string, now: int) returns (id: Option<string>)
      modifies this
      ensures (View(), id) == Claimed(old(View()), token, now)
    {
      ExpireLocked(now);
      if closed || token !in tokens || tokens[token] !in states || states[tokens[token]].attached {
        return None;
      }
      var found := tokens[token];
      states := states[found := states[found].(attached := true, nextDue := now)];
      return Some(found);
    }

    method Detach(id: string, now: int) returns (detached: bool)
      modifies this
      ensures View() == Released(old(View()), id, now) && detached == (id in old(states) && old(states)[id].attached)
    {
      if id !in states || !states[id].attached {
        return false;
      }
      states := states[id := states[id].(attached := false, expires := now + ttl)];
      return true;
    }

    method Erase(id: string) returns (erased: bool)
      modifies this
      ensures View() == Erased(old(View()), id) && erased == (id in old(states))
    {
      if id !in states {
        return false;
      }
      tokens := tokens - {states[id].token};
      states := states - {id};
      return true;
    }

    method Close()
      modifies this
      ensures View() == Closed(old(View()))
    {
      if closed {
        return;
      }
      closed, states, tokens := true, map[], map[];
    }

    method DueSamples(now: int) returns (samples: set<Due>)
      modifies this
      ensures View() == Scheduled(old(View()), now)
      ensures samples == DueNow(old(View()), now)
    {
      ExpireLocked(now);
      samples := set id | id in states && IsDue(states[id], now) :: Due(id, states[id].revision, states[id].bindings);
      states := map id | id in states ::
        if IsDue(states[id], now) then states[id].(nextDue := now + states[id].period) else states[id];
    }

    method Publish(id: string, revision: nat, values: seq<Option<V>>) returns (changed: bool)
      modifies this
      ensures View() == Published(k, old(View()), id, revision, values)
      ensures changed == Publishable(k, old(View()), id, revision, values)
    {
      if id !in states || states[id].revision != revision || |states[id].values| != |values| {
        return false;
      }
      var s := states[id];
      if s.sampled && SameValues(k, s.values, values) {
        return false;
      }
      states := states[id := s.(values := values, sampled := true, sequence := s.sequence + 1)];
      return true;
    }
  }

  method FindPosition(bindings: seq<Binding>, item: Reference) returns (at: nat)
    ensures at == FindItem(bindings, item)
  {
    at := 0;
    while at < |bindings| && bindings[at].item != item
      invariant at <= |bindings|
      invariant FindItem(bindings, item) == at + FindItem(bindings[at..], item)
    {
      at := at + 1;
    }
  }

  method Rebind<V>(s: State<V>, items: seq<Resolved>) returns (r: Rebinding<V>)
    requires |s.values| == |s.bindings|
    ensures r == Rebound(s, items)
  {
    r := Rebinding([], [], s.nextSlot);
    for n := 0 to |items|
      invariant r == Rebound(s, items[..n])
    {
      assert items[..n + 1][..n] == items[..n];
      var at := FindPosition(s.bindings, items[n].item);
      if at < |s.bindings| && s.bindings[at].halType == items[n].halType {
        r := Rebinding(r.bindings + [s.bindings[at]], r.values + [s.values[at]], r.nextSlot);
      } else {
        var added := Binding(r.nextSlot, items[n].item, items[n].halType);
        r := Rebinding(r.bindings + [added], r.values + [None], r.nextSlot + 1);
      }
    }
    assert items[..|items|] == items;
  }

  lemma LoadsAppend(items: seq<Reference>, period: nat, n: nat)
    requires n < |items|
    ensures LoadsOf(items[..n + 1], period) == LoadsOf(items[..n], period) + {Load(items[n], period)}
  {
    assert forall i :: 0 <= i < n ==> items[..n + 1][i] == items[..n][i];
    assert items[..n + 1][n] == items[n];
  }

  lemma LoadsMore<V>(others: map<string, State<V>>, rest: set<string>, id: string)
    requires id in rest && rest <= others.Keys
    ensures Loads(others - (rest - {id})) ==
            Loads(others - rest) + LoadsOf(Bound(others[id].bindings), others[id].period)
  {
    var before, after := others - rest, others - (rest - {id});
    forall l | l in Loads(after) ensures l in Loads(before) + StateLoads(others[id]) {
      var x :| x in after && l in StateLoads(after[x]);
      if x != id {
        assert x in before && before[x] == after[x];
      }
    }
    forall l | l in Loads(before) ensures l in Loads(after) {
      var x :| x in before && l in StateLoads(before[x]);
      assert x in after && after[x] == before[x];
    }
    forall l | l in StateLoads(others[id]) ensures l in Loads(after) {
      assert id in after && after[id] == others[id];
    }
  }
}
