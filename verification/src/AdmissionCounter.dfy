/** The lock-free admission counter, one atomic operation at a time, shared by any number of threads. */
module AdmissionCounter {
  import opened Sums

  /** Where a thread is: inside `acquire` it loads the flag, loads the count, tries to raise it and looks at the flag
      again; inside `release` it lowers the count and, if it was zero already, sets it back. */
  datatype Place =
    | Outside
    | Loading
    | Trying(current: nat)
    | Confirming
    | Holding
    | Lowering
    | Zeroing

  datatype Counter = Counter(capacity: nat, active: nat, accepting: bool, threads: map<nat, Place>)

  datatype Step =
    | Enter(thread: nat)
    | Load(thread: nat)
    | Exchange(thread: nat, spurious: bool)
    | Confirm(thread: nat)
    | Release(thread: nat)
    | Lower(thread: nat)
    | Zero(thread: nat)
    | Stop

  /** A 64-bit count goes round when lowered below zero. */
  function Lowered(active: nat): nat {
    if active == 0 then 0xFFFF_FFFF_FFFF_FFFF else active - 1
  }

  function At(c: Counter, thread: nat): Place {
    if thread in c.threads then c.threads[thread] else Outside
  }

  function Moved(c: Counter, thread: nat, place: Place): Counter {
    c.(threads := c.threads[thread := place])
  }

  /** Only a thread that was admitted releases. */
  function Next(c: Counter, step: Step): Counter {
    match step
    case Enter(t) => if At(c, t) != Outside then c else if c.accepting then Moved(c, t, Loading) else c
    case Load(t) => if At(c, t) != Loading then c else Moved(c, t, Trying(c.active))
    case Exchange(t, spurious) =>
      if !At(c, t).Trying? then c
      else if At(c, t).current >= c.capacity then Moved(c, t, Outside)
      else if c.active == At(c, t).current && !spurious then Moved(c, t, Confirming).(active := c.active + 1)
      else Moved(c, t, Trying(c.active))
    case Confirm(t) => if At(c, t) != Confirming then c else Moved(c, t, if c.accepting then Holding else Lowering)
    case Release(t) => if At(c, t) != Holding then c else Moved(c, t, Lowering)
    case Lower(t) =>
      if At(c, t) != Lowering then c
      else Moved(c, t, if c.active == 0 then Zeroing else Outside).(active := Lowered(c.active))
    case Zero(t) => if At(c, t) != Zeroing then c else Moved(c, t, Outside).(active := 0)
    case Stop => c.(accepting := false)
  }

  function Start(capacity: nat): Counter {
    Counter(capacity, 0, true, map[])
  }

  function Run(c: Counter, steps: seq<Step>): Counter {
    if steps == [] then c else Next(Run(c, steps[..|steps| - 1]), steps[|steps| - 1])
  }

  // ---- Invariant ----

  /** A thread counts from the exchange that raised the count to the subtraction that lowers it. */
  function Counts(place: Place): nat {
    if place == Confirming || place == Holding || place == Lowering then 1 else 0
  }

  function Weight(threads: map<nat, Place>): nat -> nat {
    t => if t in threads then Counts(threads[t]) else 0
  }

  ghost function Counted(threads: map<nat, Place>): nat {
    Sum(threads.Keys, Weight(threads))
  }

  ghost predicate Sound(c: Counter) {
    && c.active == Counted(c.threads) <= c.capacity
    && forall t :: t in c.threads ==> c.threads[t] != Zeroing
  }

  lemma MovedCounts(threads: map<nat, Place>, t: nat, place: Place)
    ensures Counted(threads[t := place]) ==
            Counted(threads) + Counts(place) - if t in threads then Counts(threads[t]) else 0
  {
    var after := threads[t := place];
    if t in threads {
      SumRemove(threads.Keys, Weight(threads), t);
      SumRemove(after.Keys, Weight(after), t);
      assert after.Keys - {t} == threads.Keys - {t};
      SumCongruent(threads.Keys - {t}, Weight(threads), Weight(after));
    } else {
      assert after.Keys == threads.Keys + {t};
      SumAdd(threads.Keys, Weight(after), t);
      SumCongruent(threads.Keys, Weight(threads), Weight(after));
    }
  }

  lemma CountedCovers(threads: map<nat, Place>, t: nat)
    requires t in threads
    ensures Counts(threads[t]) <= Counted(threads)
  {
    SumRemove(threads.Keys, Weight(threads), t);
  }

  lemma NextSound(c: Counter, step: Step)
    requires Sound(c)
    ensures Sound(Next(c, step)) && Next(c, step).capacity == c.capacity
  {
    hide Counted;
    if !step.Stop? {
      var t := step.thread;
      if t in c.threads {
        CountedCovers(c.threads, t);
      }
      if t in Next(c, step).threads {
        MovedCounts(c.threads, t, Next(c, step).threads[t]);
      }
    }
  }

  lemma {:induction false} RunSound(capacity: nat, steps: seq<Step>)
    ensures Sound(Run(Start(capacity), steps)) && Run(Start(capacity), steps).capacity == capacity
  {
    if steps != [] {
      RunSound(capacity, steps[..|steps| - 1]);
      NextSound(Run(Start(capacity), steps[..|steps| - 1]), steps[|steps| - 1]);
    }
  }

  // ---- Results ----

  /** At every point of every interleaving the count is the number of threads that hold an admission or are about to
      decide on one, it never exceeds the capacity, and it is never lowered below zero. */
  lemma CountIsExact(capacity: nat, steps: seq<Step>)
    ensures var c := Run(Start(capacity), steps);
            && c.active == Sum(c.threads.Keys, Weight(c.threads)) && c.active <= capacity
            && (forall t :: t in c.threads ==> c.threads[t] != Zeroing)
  {
    RunSound(capacity, steps);
  }

  predicate Refused(c: Counter, t: nat) {
    !c.accepting && At(c, t) != Holding
  }

  /** Once admission has stopped, a thread that does not hold an admission never gets one: not if it starts to acquire
      afterwards, and not if it had already raised the count. */
  lemma {:induction false} NoneAdmittedAfterStop(c: Counter, more: seq<Step>, t: nat)
    requires Refused(c, t)
    ensures Refused(Run(c, more), t)
  {
    if more != [] {
      NoneAdmittedAfterStop(c, more[..|more| - 1], t);
    }
  }

  lemma {:induction false} AcceptingUntilStop(capacity: nat, steps: seq<Step>)
    ensures Run(Start(capacity), steps).accepting <==> Stop !in steps
  {
    if steps != [] {
      AcceptingUntilStop(capacity, steps[..|steps| - 1]);
      assert steps == steps[..|steps| - 1] + [steps[|steps| - 1]];
    }
  }

  /** What a thread does that acquires, and that releases, without being disturbed. */
  function Acquires(c: Counter, t: nat): Counter {
    Next(Next(Next(Next(c, Enter(t)), Load(t)), Exchange(t, false)), Confirm(t))
  }

  function Releases(c: Counter, t: nat): Counter {
    Next(Next(c, Release(t)), Lower(t))
  }

  /** At every point of every interleaving, a thread that acquires undisturbed is admitted exactly if admission was not
      stopped and fewer count than the capacity, and counts from then on; one that releases undisturbed no longer
      does. */
  lemma UndisturbedAcquire(capacity: nat, steps: seq<Step>, t: nat)
    ensures var c := Run(Start(capacity), steps);
            var after := Acquires(c, t);
            At(c, t) == Outside ==>
              if Stop !in steps && c.active < capacity then At(after, t) == Holding && after.active == c.active + 1
              else At(after, t) == Outside && after.active == c.active
    ensures var c := Run(Start(capacity), steps);
            var after := Releases(c, t);
            At(c, t) == Holding ==> At(after, t) == Outside && after.active == c.active - 1
  {
    RunSound(capacity, steps);
    AcceptingUntilStop(capacity, steps);
    var c := Run(Start(capacity), steps);
    if t in c.threads {
      CountedCovers(c.threads, t);
    }
    hide Run, Counted;
  }
}
