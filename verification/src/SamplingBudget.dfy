/** The cost of sampling HAL items for all subscriptions together, and the budget it must stay within. */
module SamplingBudget {
  import opened Sums

  datatype ItemKind = Pin | Param | Signal

  datatype Reference = Reference(kind: ItemKind, name: string)

  /** Somebody wants this item read every `period` milliseconds. */
  datatype Load = Load(item: Reference, period: nat)

  const MAX_SAMPLES_PER_SECOND: nat := 20480

  function Digit(kind: ItemKind): char {
    match kind
    case Pin => '1'
    case Param => '2'
    case Signal => '3'
  }

  /** The text under which the server files an item. */
  function Key(item: Reference): string {
    [Digit(item.kind)] + ":" + item.name
  }

  lemma KeyIsUnique(a: Reference, b: Reference)
    ensures Key(a) == Key(b) <==> a == b
  {
    assert Key(a)[0] == Digit(a.kind) && Key(a)[2..] == a.name;
    assert Key(b)[0] == Digit(b.kind) && Key(b)[2..] == b.name;
  }

  /** Samples per second for a period in milliseconds, rounded up. */
  function Rate(period: nat): nat
    requires 1 <= period
  {
    (1000 + period - 1) / period
  }

  lemma RateBounds(period: nat)
    requires 1 <= period
    ensures 1000 <= Rate(period) * period && (Rate(period) - 1) * period <= 999
  {
    var n := 999 + period;
    assert n == (n / period) * period + n % period;
    assert (Rate(period) - 1) * period == Rate(period) * period - period;
  }

  lemma ProductMonotone(a: nat, b: nat, x: nat, y: nat)
    requires a <= b && x <= y
    ensures a * x <= b * y
  {
    assert a * x <= a * y <= b * y;
  }

  lemma RateAntitone(fast: nat, slow: nat)
    requires 1 <= fast <= slow
    ensures Rate(slow) <= Rate(fast)
  {
    RateBounds(fast);
    RateBounds(slow);
    hide Rate;
    if Rate(fast) < Rate(slow) {
      ProductMonotone(Rate(fast), Rate(slow) - 1, fast, slow);
    }
  }

  predicate Periodic(loads: set<Load>) {
    forall l :: l in loads ==> 1 <= l.period
  }

  ghost function Items(loads: set<Load>): set<Reference> {
    set l | l in loads :: l.item
  }

  ghost predicate IsFastest(loads: set<Load>, item: Reference, period: nat) {
    && Load(item, period) in loads
    && forall l :: l in loads && l.item == item ==> period <= l.period
  }

  lemma {:induction false} FastestExists(loads: set<Load>, l: Load)
    requires l in loads
    ensures exists p :: IsFastest(loads, l.item, p)
    decreases l.period
  {
    if faster :| faster in loads && faster.item == l.item && faster.period < l.period {
      FastestExists(loads, faster);
    } else {
      assert l == Load(l.item, l.period);
      assert IsFastest(loads, l.item, l.period);
    }
  }

  /** The shortest period anybody wants for the item. */
  ghost function Fastest(loads: set<Load>, item: Reference): (p: nat)
    requires item in Items(loads)
    ensures IsFastest(loads, item, p)
  {
    var l :| l in loads && l.item == item;
    FastestExists(loads, l);
    var p :| IsFastest(loads, item, p);
    p
  }

  ghost function ItemRate(loads: set<Load>, item: Reference): nat
    requires Periodic(loads)
  {
    if item in Items(loads) then Rate(Fastest(loads, item)) else 0
  }

  /** Samples per second over all items, each read once at the fastest period wanted. */
  ghost function Cost(loads: set<Load>): nat
    requires Periodic(loads)
  {
    Sum(Items(loads), (item: Reference) => ItemRate(loads, item))
  }

  ghost predicate WithinBudget(loads: set<Load>)
    requires Periodic(loads)
  {
    Cost(loads) <= MAX_SAMPLES_PER_SECOND
  }

  /** Dropping loads never raises the cost. */
  lemma CostMonotone(fewer: set<Load>, loads: set<Load>)
    requires fewer <= loads && Periodic(loads)
    ensures Cost(fewer) <= Cost(loads)
  {
    forall item | item in Items(fewer) ensures item in Items(loads) && ItemRate(fewer, item) <= ItemRate(loads, item) {
      RateAntitone(Fastest(loads, item), Fastest(fewer, item));
    }
    SumMonotone(
      Items(fewer), Items(loads),
      (item: Reference) => ItemRate(fewer, item), (item: Reference) => ItemRate(loads, item));
  }

  // ---- The server's computation ----

  /** `fastest` has the shortest period for each item of the loads seen so far. */
  ghost predicate Records(fastest: map<string, nat>, loads: set<Load>) {
    && (forall item :: item in Items(loads) ==> Key(item) in fastest && fastest[Key(item)] == Fastest(loads, item))
    && (forall key :: key in fastest ==> exists item :: item in Items(loads) && Key(item) == key)
  }

  lemma RecordsNone()
    ensures Records(map[], {})
  {
  }

  function Recorded(fastest: map<string, nat>, l: Load): map<string, nat> {
    if Key(l.item) !in fastest || l.period < fastest[Key(l.item)] then fastest[Key(l.item) := l.period] else fastest
  }

  lemma FastestIs(loads: set<Load>, item: Reference, p: nat)
    requires IsFastest(loads, item, p)
    ensures item in Items(loads) && Fastest(loads, item) == p
  {
    assert Load(item, p) in loads;
  }

  lemma RecordedRecords(fastest: map<string, nat>, loads: set<Load>, l: Load)
    requires Records(fastest, loads)
    ensures Records(Recorded(fastest, l), loads + {l})
  {
    var all, after := loads + {l}, Recorded(fastest, l);
    forall item | item in Items(all) ensures Key(item) in after && after[Key(item)] == Fastest(all, item) {
      KeyIsUnique(item, l.item);
      if item != l.item {
        assert item in Items(loads);
        FastestIs(all, item, Fastest(loads, item));
      } else if item !in Items(loads) {
        NotRecorded(fastest, loads, item);
        assert l == Load(item, l.period);
        FastestIs(all, item, l.period);
      } else {
        assert l == Load(item, l.period);
        FastestIs(all, item, after[Key(item)]);
      }
    }
    forall key | key in after ensures exists item :: item in Items(all) && Key(item) == key {
      if key == Key(l.item) {
        assert l.item in Items(all);
      } else {
        var item :| item in Items(loads) && Key(item) == key;
        assert item in Items(all);
      }
    }
  }

  lemma NotRecorded(fastest: map<string, nat>, loads: set<Load>, item: Reference)
    requires Records(fastest, loads) && item !in Items(loads)
    ensures Key(item) !in fastest
  {
    if Key(item) in fastest {
      var other :| other in Items(loads) && Key(other) == Key(item);
      KeyIsUnique(other, item);
    }
  }

  ghost function PeriodRate(fastest: map<string, nat>): string -> nat
    requires forall key :: key in fastest ==> 1 <= fastest[key]
  {
    key => if key in fastest then Rate(fastest[key]) else 0
  }

  /** Summing over keys or over items gives the same total. */
  lemma {:induction false} SumByKey(items: set<Reference>, byItem: Reference -> nat, byKey: string -> nat)
    requires forall item :: item in items ==> byItem(item) == byKey(Key(item))
    ensures Sum(items, byItem) == Sum(set item | item in items :: Key(item), byKey)
  {
    var keys := set item | item in items :: Key(item);
    if items != {} {
      var item :| item in items;
      var rest := items - {item};
      SumRemove(items, byItem, item);
      SumByKey(rest, byItem, byKey);
      SumRemove(keys, byKey, Key(item));
      assert keys - {Key(item)} == set i | i in rest :: Key(i) by {
        forall i | i in rest ensures Key(i) != Key(item) {
          KeyIsUnique(i, item);
        }
      }
    }
  }

  lemma RecordsCost(fastest: map<string, nat>, loads: set<Load>)
    requires Records(fastest, loads) && Periodic(loads)
    ensures forall key :: key in fastest ==> 1 <= fastest[key]
    ensures Cost(loads) == Sum(fastest.Keys, PeriodRate(fastest))
  {
    forall key | key in fastest ensures 1 <= fastest[key] {
      var item :| item in Items(loads) && Key(item) == key;
      assert Load(item, Fastest(loads, item)) in loads;
    }
    var byItem := (item: Reference) => ItemRate(loads, item);
    SumByKey(Items(loads), byItem, PeriodRate(fastest));
    assert fastest.Keys == set item | item in Items(loads) :: Key(item);
  }

  /** The total, visiting the keys in any order and stopping as soon as the budget is exceeded. */
  method CheckBudget(fastest: map<string, nat>, ghost loads: set<Load>) returns (ok: bool)
    requires Records(fastest, loads) && Periodic(loads)
    ensures ok <==> WithinBudget(loads)
  {
    hide Rate, Records, Cost;
    RecordsCost(fastest, loads);
    ghost var weight := PeriodRate(fastest);
    var cost, rest := 0, fastest.Keys;
    while rest != {}
      invariant rest <= fastest.Keys
      invariant cost <= MAX_SAMPLES_PER_SECOND
      invariant cost + Sum(rest, weight) == Cost(loads)
      decreases |rest|
    {
      var key :| key in rest;
      SumRemove(rest, weight, key);
      var rate := Rate(fastest[key]);
      if rate > MAX_SAMPLES_PER_SECOND - cost {
        return false;
      }
      cost, rest := cost + rate, rest - {key};
    }
    return true;
  }
}
