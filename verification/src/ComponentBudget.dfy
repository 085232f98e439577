/**
The two budgets of remote HAL components: the count of retained items with the component
admissions, and the slab of storage slots the items occupy.
*/
module ComponentBudget {
  import opened Options
  import opened Sums

  /** `free` is the slab's free list, used from its end; `held` lists the slots of each component's items. */
  datatype Ledger = Ledger(free: seq<nat>, held: map<string, seq<nat>>, retained: nat, admitted: nat)

  function Descending(count: nat): seq<nat> {
    seq(count, i requires 0 <= i < count => count - 1 - i)
  }

  function EmptyLedger(capacity: nat): Ledger {
    Ledger(Descending(capacity), map[], 0, 0)
  }

  /** The slots handed out by `count` acquisitions, in order. */
  function Taken(free: seq<nat>, count: nat): (r: seq<nat>)
    requires count <= |free|
    ensures |r| == count
  {
    seq(count, i requires 0 <= i < count => free[|free| - 1 - i])
  }

  /** The free list after `count` slots were taken and given back. */
  function Recycled(free: seq<nat>, count: nat): seq<nat>
    requires count <= |free|
  {
    free[..|free| - count] + Taken(free, count)
  }

  function Granted(l: Ledger, id: string, count: nat): Ledger
    requires count <= |l.free|
  {
    Ledger(l.free[..|l.free| - count], l.held[id := Taken(l.free, count)], l.retained + count, l.admitted + 1)
  }

  function Returned(l: Ledger, id: string): Ledger
    requires id in l.held
  {
    Ledger(l.free + l.held[id], l.held - {id},
           if |l.held[id]| <= l.retained then l.retained - |l.held[id]| else 0,
           if l.admitted == 0 then 0 else l.admitted - 1)
  }

  /** The slots of the components listed in `order`. */
  function HeldBy(held: map<string, seq<nat>>, order: seq<string>): seq<nat> {
    if order == [] || order[|order| - 1] !in held then []
    else HeldBy(held, order[..|order| - 1]) + held[order[|order| - 1]]
  }

  /** `order` lists every key once. */
  predicate Enumerates(order: seq<string>, keys: set<string>) {
    && (forall i :: 0 <= i < |order| ==> order[i] in keys)
    && (forall i, j :: 0 <= i < j < |order| ==> order[i] != order[j])
    && |order| == |keys|
  }

  function AllReturned(l: Ledger, order: seq<string>): Ledger {
    Ledger(l.free + HeldBy(l.held, order), map[], 0,
           if |l.held.Keys| <= l.admitted then l.admitted - |l.held.Keys| else 0)
  }

  // ---- The slab object ----

  class HalAllocationSlab {
    const capacity: nat
    var free: seq<nat>

    constructor (capacity: nat)
      ensures this.capacity == capacity && free == Descending(capacity)
    {
      this.capacity := capacity;
      free := [];
      new;
      var index := capacity;
      while index > 0
        invariant 0 <= index <= capacity && free == Descending(capacity)[..capacity - index]
        modifies this
      {
        free := free + [index - 1];
        index := index - 1;
      }
    }

    method Acquire() returns (slot: Option<nat>)
      modifies this
      ensures old(free) == [] ==> slot == None && free == old(free)
      ensures old(free) != [] ==> slot.Some? && free + [slot.value] == old(free)
    {
      if free == [] {
        return None;
      }
      slot := Some(free[|free| - 1]);
      free := free[..|free| - 1];
    }

    method Release(slot: nat)
      modifies this
      ensures free == if slot < capacity then old(free) + [slot] else old(free)
    {
      if slot >= capacity {
        return;
      }
      free := free + [slot];
    }
  }

  // ---- Invariant ----

  predicate NoRepeats(slots: seq<nat>) {
    forall i, j :: 0 <= i < j < |slots| ==> slots[i] != slots[j]
  }

  predicate Apart(a: seq<nat>, b: seq<nat>) {
    forall i, j :: 0 <= i < |a| && 0 <= j < |b| ==> a[i] != b[j]
  }

  predicate Below(slots: seq<nat>, capacity: nat) {
    forall i :: 0 <= i < |slots| ==> slots[i] < capacity
  }

  function Size(held: map<string, seq<nat>>): string -> nat {
    id => if id in held then |held[id]| else 0
  }

  /** Every slot is either free, once, or held by one item of one component. */
  ghost predicate Separate(capacity: nat, free: seq<nat>, held: map<string, seq<nat>>) {
    && NoRepeats(free) && Below(free, capacity)
    && (forall id :: id in held ==> NoRepeats(held[id]) && Apart(held[id], free) && Below(held[id], capacity))
    && (forall a, b :: a in held && b in held && a != b ==> Apart(held[a], held[b]))
  }

  /** The retained count is the number of items and of slots in use, and there is one admission for each component. */
  ghost predicate Counted(capacity: nat, l: Ledger) {
    && l.retained == Sum(l.held.Keys, Size(l.held))
    && |l.free| + l.retained == capacity
    && l.admitted == |l.held.Keys|
  }

  ghost predicate Balanced(capacity: nat, l: Ledger) {
    Separate(capacity, l.free, l.held) && Counted(capacity, l)
  }

  lemma EmptyBalanced(capacity: nat)
    ensures Balanced(capacity, EmptyLedger(capacity))
  {
  }

  lemma AppendNoRepeats(a: seq<nat>, b: seq<nat>)
    requires NoRepeats(a) && NoRepeats(b) && Apart(a, b)
    ensures NoRepeats(a + b)
  {
  }

  lemma AppendBelow(a: seq<nat>, b: seq<nat>, capacity: nat)
    requires Below(a, capacity) && Below(b, capacity)
    ensures Below(a + b, capacity)
  {
  }

  lemma AppendApart(a: seq<nat>, b: seq<nat>, other: seq<nat>)
    requires Apart(other, a) && Apart(other, b)
    ensures Apart(other, a + b)
  {
  }

  lemma ApartSymmetric(a: seq<nat>, b: seq<nat>)
    requires Apart(a, b)
    ensures Apart(b, a)
  {
  }

  lemma TakenFacts(free: seq<nat>, count: nat, other: seq<nat>)
    requires NoRepeats(free) && count <= |free|
    ensures NoRepeats(free[..|free| - count])
    ensures NoRepeats(Taken(free, count)) && Apart(Taken(free, count), free[..|free| - count])
    ensures Apart(other, free) ==>
              && Apart(other, Taken(free, count)) && Apart(Taken(free, count), other)
              && Apart(other, free[..|free| - count])
  {
  }

  lemma TakenBelow(free: seq<nat>, count: nat, capacity: nat)
    requires Below(free, capacity) && count <= |free|
    ensures Below(Taken(free, count), capacity) && Below(free[..|free| - count], capacity)
  {
  }

  lemma SizeAdded(held: map<string, seq<nat>>, id: string, slots: seq<nat>)
    requires id !in held
    ensures Sum(held[id := slots].Keys, Size(held[id := slots])) == Sum(held.Keys, Size(held)) + |slots|
    ensures |held[id := slots].Keys| == |held.Keys| + 1
  {
    var more := held[id := slots];
    assert more.Keys == held.Keys + {id};
    SumAdd(held.Keys, Size(more), id);
    SumCongruent(held.Keys, Size(more), Size(held));
  }

  lemma SeparateAdd(
      capacity: nat, free: seq<nat>, held: map<string, seq<nat>>, id: string, kept: seq<nat>, mine: seq<nat>)
    requires Separate(capacity, free, held) && id !in held
    requires NoRepeats(kept) && Below(kept, capacity) && NoRepeats(mine) && Below(mine, capacity) && Apart(mine, kept)
    requires forall other :: other in held ==>
               Apart(held[other], kept) && Apart(held[other], mine) && Apart(mine, held[other])
    ensures Separate(capacity, kept, held[id := mine])
  {
    hide NoRepeats, Apart, Below;
  }

  lemma GrantedSeparate(capacity: nat, free: seq<nat>, held: map<string, seq<nat>>, id: string, count: nat)
    requires Separate(capacity, free, held) && id !in held && count <= |free|
    ensures Separate(capacity, free[..|free| - count], held[id := Taken(free, count)])
  {
    hide NoRepeats, Apart, Below, Taken;
    var kept, mine := free[..|free| - count], Taken(free, count);
    TakenFacts(free, count, []);
    TakenBelow(free, count, capacity);
    forall other | other in held
      ensures Apart(held[other], kept) && Apart(held[other], mine) && Apart(mine, held[other])
    {
      TakenFacts(free, count, held[other]);
    }
    SeparateAdd(capacity, free, held, id, kept, mine);
  }

  lemma GrantedBalanced(capacity: nat, l: Ledger, id: string, count: nat)
    requires Balanced(capacity, l) && id !in l.held && count <= |l.free|
    ensures Balanced(capacity, Granted(l, id, count))
  {
    hide Separate, Taken;
    GrantedSeparate(capacity, l.free, l.held, id, count);
    SizeAdded(l.held, id, Taken(l.free, count));
  }

  lemma RecycledBalanced(capacity: nat, l: Ledger, count: nat)
    requires Balanced(capacity, l) && count <= |l.free|
    ensures Balanced(capacity, l.(free := Recycled(l.free, count)))
  {
    hide NoRepeats, Apart, Below, Taken;
    var kept, taken := l.free[..|l.free| - count], Taken(l.free, count);
    TakenFacts(l.free, count, []);
    TakenBelow(l.free, count, capacity);
    ApartSymmetric(taken, kept);
    AppendNoRepeats(kept, taken);
    AppendBelow(kept, taken, capacity);
    forall id | id in l.held ensures Apart(l.held[id], kept + taken) {
      TakenFacts(l.free, count, l.held[id]);
      AppendApart(kept, taken, l.held[id]);
    }
  }

  lemma ReturnedSeparate(capacity: nat, free: seq<nat>, held: map<string, seq<nat>>, id: string)
    requires Separate(capacity, free, held) && id in held
    ensures Separate(capacity, free + held[id], held - {id})
  {
    hide NoRepeats, Apart, Below;
    var rest, mine := held - {id}, held[id];
    ApartSymmetric(mine, free);
    AppendNoRepeats(free, mine);
    AppendBelow(free, mine, capacity);
    forall other | other in rest ensures Apart(rest[other], free + mine) {
      AppendApart(free, mine, held[other]);
    }
  }

  lemma ReturnedBalanced(capacity: nat, l: Ledger, id: string)
    requires Balanced(capacity, l) && id in l.held
    ensures |l.held[id]| <= l.retained && 1 <= l.admitted
    ensures Balanced(capacity, Returned(l, id))
  {
    hide Separate;
    ReturnedSeparate(capacity, l.free, l.held, id);
    var rest := l.held - {id};
    assert rest.Keys == l.held.Keys - {id};
    assert l.held == rest[id := l.held[id]];
    SizeAdded(rest, id, l.held[id]);
  }

  ghost function Listed(order: seq<string>): set<string> {
    set i | 0 <= i < |order| :: order[i]
  }

  ghost predicate Selects(order: seq<string>, held: map<string, seq<nat>>) {
    && (forall i :: 0 <= i < |order| ==> order[i] in held)
    && (forall i, j :: 0 <= i < j < |order| ==> order[i] != order[j])
  }

  lemma ListedSplit(order: seq<string>)
    requires order != [] && forall i, j :: 0 <= i < j < |order| ==> order[i] != order[j]
    ensures Listed(order) == Listed(order[..|order| - 1]) + {order[|order| - 1]}
    ensures order[|order| - 1] !in Listed(order[..|order| - 1])
  {
  }

  /** The slots collected from distinct components are as many as their items. */
  lemma {:induction false} HeldByCount(held: map<string, seq<nat>>, order: seq<string>)
    requires Selects(order, held)
    ensures |HeldBy(held, order)| == Sum(Listed(order), Size(held)) && |Listed(order)| == |order|
  {
    if order != [] {
      var n := |order| - 1;
      HeldByCount(held, order[..n]);
      ListedSplit(order);
      hide Listed, Selects;
      SumAdd(Listed(order[..n]), Size(held), order[n]);
    }
  }

  lemma ApartAppend(a: seq<nat>, b: seq<nat>, c: seq<nat>)
    requires Apart(a, c) && Apart(b, c)
    ensures Apart(a + b, c)
  {
  }

  /** None of the collected slots is free, held by another component, or listed twice. */
  lemma {:induction false} HeldByApart(capacity: nat, l: Ledger, order: seq<string>)
    requires Balanced(capacity, l) && Selects(order, l.held)
    ensures NoRepeats(HeldBy(l.held, order)) && Apart(HeldBy(l.held, order), l.free)
    ensures Below(HeldBy(l.held, order), capacity)
    ensures forall id :: id in l.held && id !in Listed(order) ==> Apart(HeldBy(l.held, order), l.held[id])
  {
    if order != [] {
      var n := |order| - 1;
      var front, last := order[..n], order[n];
      HeldByApart(capacity, l, front);
      assert last !in Listed(front);
      AppendNoRepeats(HeldBy(l.held, front), l.held[last]);
      ApartAppend(HeldBy(l.held, front), l.held[last], l.free);
      forall id | id in l.held && id !in Listed(order) ensures Apart(HeldBy(l.held, order), l.held[id]) {
        assert order[n] in Listed(order);
        assert forall k :: k in Listed(front) ==> k in Listed(order);
        ApartAppend(HeldBy(l.held, front), l.held[last], l.held[id]);
      }
    }
  }

  lemma {:induction false} EqualBySize(a: set<string>, b: set<string>)
    requires a <= b && |a| == |b|
    ensures a == b
  {
    if a != {} {
      var k :| k in a;
      EqualBySize(a - {k}, b - {k});
    }
  }

  lemma AllReturnedBalanced(capacity: nat, l: Ledger, order: seq<string>)
    requires Balanced(capacity, l) && Enumerates(order, l.held.Keys)
    ensures Balanced(capacity, AllReturned(l, order)) && |AllReturned(l, order).free| == capacity
  {
    HeldByCount(l.held, order);
    HeldByApart(capacity, l, order);
    EqualBySize(Listed(order), l.held.Keys);
    ApartSymmetric(HeldBy(l.held, order), l.free);
    AppendBelow(l.free, HeldBy(l.held, order), capacity);
    AppendNoRepeats(l.free, HeldBy(l.held, order));
    assert AllReturned(l, order).held.Keys == {};
  }
}
