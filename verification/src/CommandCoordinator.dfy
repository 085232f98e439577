/** The command coordinator: two bounded queues and the one worker that empties them. */
module CommandCoordinator {
  import opened Options

  datatype Priority = Normal | Safety

  datatype Item = Item(sequence: nat, priority: Priority)

  datatype Submission = Submitted(item: Item) | QueueFull | Stopped

  datatype Coordinator = Coordinator(
    capacity: nat,
    safetyCapacity: nat,
    queue: seq<Item>,
    safety: seq<Item>,
    nextSequence: nat,
    stopping: bool)

  function AtLeastOne(n: nat): nat {
    if n == 0 then 1 else n
  }

  function Initial(capacity: nat, safetyCapacity: nat): Coordinator {
    Coordinator(AtLeastOne(capacity), AtLeastOne(safetyCapacity), [], [], 1, false)
  }

  function Queue(c: Coordinator, priority: Priority): seq<Item> {
    if priority == Safety then c.safety else c.queue
  }

  function Capacity(c: Coordinator, priority: Priority): nat {
    if priority == Safety then c.safetyCapacity else c.capacity
  }

  function Submit(c: Coordinator, priority: Priority): (Coordinator, Submission) {
    if c.stopping then (c, Stopped)
    else if |Queue(c, priority)| >= Capacity(c, priority) then (c, QueueFull)
    else
      var item := Item(c.nextSequence, priority);
      var counted := c.(nextSequence := c.nextSequence + 1);
      (if priority == Safety then counted.(safety := c.safety + [item]) else counted.(queue := c.queue + [item]),
       Submitted(item))
  }

  /** Safety actions go first. */
  function Picked(c: Coordinator): (Coordinator, Option<Item>) {
    if c.safety != [] then (c.(safety := c.safety[1..]), Some(c.safety[0]))
    else if c.queue != [] then (c.(queue := c.queue[1..]), Some(c.queue[0]))
    else (c, None)
  }

  // ---- The coordinator object ----

  class CommandCoordinatorObject {
    const capacity: nat
    const safetyCapacity: nat
    var queue: seq<Item>
    var safety: seq<Item>
    var nextSequence: nat
    var stopping: bool

    ghost function View(): Coordinator
      reads this
    {
      Coordinator(capacity, safetyCapacity, queue, safety, nextSequence, stopping)
    }

    constructor (capacity: nat, safetyCapacity: nat)
      ensures View() == Initial(capacity, safetyCapacity)
    {
      this.capacity := if capacity == 0 then 1 else capacity;
      this.safetyCapacity := if safetyCapacity == 0 then 1 else safetyCapacity;
      queue, safety, nextSequence, stopping := [], [], 1, false;
    }

    method SubmitAction(priority: Priority) returns (submission: Submission)
      modifies this
      ensures (View(), submission) == Submit(old(View()), priority)
    {
      if stopping {
        return Stopped;
      }
      var waiting := if priority == Safety then |safety| else |queue|;
      var room := if priority == Safety then safetyCapacity else capacity;
      if waiting >= room {
        return QueueFull;
      }
      var item := Item(nextSequence, priority);
      nextSequence := nextSequence + 1;
      if priority == Safety {
        safety := safety + [item];
      } else {
        queue := queue + [item];
      }
      return Submitted(item);
    }

    method Shutdown()
      modifies this
      ensures View() == old(View()).(stopping := true)
    {
      stopping := true;
    }

    /** What the worker does each time it is woken: the next action, or the decision to leave. */
    method NextAction() returns (item: Option<Item>, exit: bool)
      modifies this
      ensures (View(), item) == Picked(old(View()))
      ensures exit <==> item.None? && stopping
    {
      if queue == [] && safety == [] {
        return None, stopping;
      }
      if safety == [] {
        item := Some(queue[0]);
        queue := queue[1..];
      } else {
        item := Some(safety[0]);
        safety := safety[1..];
      }
      exit := false;
    }
  }

  // ---- Runs ----

  datatype Worker = Idle | Busy(item: Item) | Exited

  /** `admitted` and `started` list the actions in the order they were accepted and begun. */
  datatype World = World(c: Coordinator, worker: Worker, admitted: seq<Item>, started: seq<Item>)

  datatype Step = SubmitStep(priority: Priority) | ShutdownStep | Wake | Done

  function Start(capacity: nat, safetyCapacity: nat): World {
    World(Initial(capacity, safetyCapacity), Idle, [], [])
  }

  function Next(w: World, step: Step): World {
    match step
    case SubmitStep(priority) =>
      var (c, submission) := Submit(w.c, priority);
      w.(c := c, admitted := w.admitted + if submission.Submitted? then [submission.item] else [])
    case ShutdownStep => w.(c := w.c.(stopping := true))
    case Wake =>
      if w.worker != Idle then w
      else
        var (c, item) := Picked(w.c);
        if item.Some? then w.(c := c, worker := Busy(item.value), started := w.started + [item.value])
        else if w.c.stopping then w.(worker := Exited)
        else w
    case Done => if w.worker.Busy? then w.(worker := Idle) else w
  }

  function Run(w: World, steps: seq<Step>): World {
    if steps == [] then w else Next(Run(w, steps[..|steps| - 1]), steps[|steps| - 1])
  }

  // ---- Invariant ----

  function Class(items: seq<Item>, priority: Priority): seq<Item> {
    if items == [] then []
    else
      var n := |items| - 1;
      Class(items[..n], priority) + if items[n].priority == priority then [items[n]] else []
  }

  /** Each class is started in the order it was admitted, and the rest of it is queued in that order. */
  predicate Fifo(w: World, priority: Priority) {
    Class(w.admitted, priority) == Class(w.started, priority) + Queue(w.c, priority)
  }

  /** Sequence numbers are given out one by one. */
  predicate Counted(w: World) {
    && w.c.nextSequence == |w.admitted| + 1
    && forall i :: 0 <= i < |w.admitted| ==> w.admitted[i].sequence == i + 1
  }

  predicate Sound(w: World) {
    && Fifo(w, Normal) && Fifo(w, Safety) && Counted(w)
    && |w.c.queue| <= w.c.capacity && |w.c.safety| <= w.c.safetyCapacity
    && (forall i :: 0 <= i < |w.c.queue| ==> w.c.queue[i].priority == Normal)
    && (forall i :: 0 <= i < |w.c.safety| ==> w.c.safety[i].priority == Safety)
    && |w.admitted| == |w.started| + |w.c.queue| + |w.c.safety|
    && (w.worker == Exited ==> w.c.stopping && w.c.queue == [] && w.c.safety == [])
  }

  lemma ClassAppend(items: seq<Item>, item: Item, priority: Priority)
    ensures Class(items + [item], priority) == Class(items, priority) + if item.priority == priority then [item] else []
  {
    assert (items + [item])[..|items|] == items;
  }

  lemma SubmitKeeps(w: World, priority: Priority)
    requires Sound(w)
    ensures Sound(Next(w, SubmitStep(priority)))
  {
    hide Class;
    var item := Item(w.c.nextSequence, priority);
    ClassAppend(w.admitted, item, Normal);
    ClassAppend(w.admitted, item, Safety);
    assert w.admitted + [] == w.admitted;
    assert Class(w.started, priority) + (Queue(w.c, priority) + [item]) ==
           Class(w.started, priority) + Queue(w.c, priority) + [item];
    assert forall p :: Class(w.admitted, p) + [] == Class(w.admitted, p);
  }

  /** Moving the front of a queue to the started actions. */
  lemma StartedFifo(w: World, after: World, item: Item)
    requires Fifo(w, Normal) && Fifo(w, Safety) && after.admitted == w.admitted && after.started == w.started + [item]
    requires Queue(w.c, item.priority) == [item] + Queue(after.c, item.priority)
    requires forall p :: p != item.priority ==> Queue(after.c, p) == Queue(w.c, p)
    ensures Fifo(after, Normal) && Fifo(after, Safety)
  {
    hide Class, Queue;
    ClassAppend(w.started, item, Normal);
    ClassAppend(w.started, item, Safety);
    var p, rest := item.priority, Queue(after.c, item.priority);
    assert Class(w.started, p) + ([item] + rest) == Class(w.started, p) + [item] + rest;
    var other := if p == Normal then Safety else Normal;
    assert Class(w.started, other) + [] == Class(w.started, other);
  }

  lemma WakeKeeps(w: World)
    requires Sound(w)
    ensures Sound(Next(w, Wake))
  {
    hide Class, Fifo;
    var (c, item) := Picked(w.c);
    if item.Some? {
      var after := Next(w, Wake);
      assert Queue(w.c, item.value.priority) == [item.value] + Queue(c, item.value.priority);
      if w.worker == Idle {
        StartedFifo(w, after, item.value);
      }
    } else {
      assert Next(w, Wake) == w.(worker := Next(w, Wake).worker);
      SameFifo(w, Next(w, Wake));
    }
  }

  lemma SameFifo(w: World, after: World)
    requires after == w.(worker := after.worker)
    ensures Fifo(after, Normal) == Fifo(w, Normal) && Fifo(after, Safety) == Fifo(w, Safety)
  {
  }

  lemma {:induction false} ClassMembers(items: seq<Item>, item: Item)
    ensures item in items <==> item in Class(items, item.priority)
  {
    if items != [] {
      ClassMembers(items[..|items| - 1], item);
      assert items == items[..|items| - 1] + [items[|items| - 1]];
    }
  }

  lemma {:induction false} RunSound(capacity: nat, safetyCapacity: nat, steps: seq<Step>)
    ensures Sound(Run(Start(capacity, safetyCapacity), steps))
  {
    if steps != [] {
      var before := Run(Start(capacity, safetyCapacity), steps[..|steps| - 1]);
      RunSound(capacity, safetyCapacity, steps[..|steps| - 1]);
      match steps[|steps| - 1]
      case SubmitStep(priority) => SubmitKeeps(before, priority);
      case Wake => WakeKeeps(before);
      case _ =>
    }
  }

  // ---- Results ----

  /** Over every run: the queues stay within their capacities, sequence numbers grow by one, and each class is started
      in exactly the order it was admitted. */
  lemma RunsInOrder(capacity: nat, safetyCapacity: nat, steps: seq<Step>, priority: Priority)
    ensures var w := Run(Start(capacity, safetyCapacity), steps);
            && |Queue(w.c, priority)| <= Capacity(w.c, priority)
            && Class(w.started, priority) <= Class(w.admitted, priority)
            && (forall i :: 0 <= i < |w.admitted| ==> w.admitted[i].sequence == i + 1)
  {
    RunSound(capacity, safetyCapacity, steps);
  }

  /** When the worker exits, every admitted action has been started, and none twice: class by class what was started is
      what was admitted, and there is no room for anything else. */
  lemma ExitMeansAllRan(capacity: nat, safetyCapacity: nat, steps: seq<Step>)
    ensures var w := Run(Start(capacity, safetyCapacity), steps);
            w.worker == Exited ==>
              && Class(w.started, Normal) == Class(w.admitted, Normal)
              && Class(w.started, Safety) == Class(w.admitted, Safety)
              && |w.started| == |w.admitted|
              && (forall item :: item in w.admitted <==> item in w.started)
  {
    RunSound(capacity, safetyCapacity, steps);
    var w := Run(Start(capacity, safetyCapacity), steps);
    hide Run;
    if w.worker == Exited {
      assert Class(w.started, Normal) + [] == Class(w.started, Normal);
      assert Class(w.started, Safety) + [] == Class(w.started, Safety);
      forall item ensures item in w.admitted <==> item in w.started {
        ClassMembers(w.admitted, item);
        ClassMembers(w.started, item);
      }
    }
  }

  /** What was started since `w` begins with its safety queue, and what is left of that queue is still in front. */
  predicate SafetyFirst(w: World, later: World) {
    && w.started <= later.started
    && var since := later.started[|w.started|..];
       if |since| <= |w.c.safety|
       then since + w.c.safety[|since|..] == w.c.safety && w.c.safety[|since|..] <= later.c.safety
       else w.c.safety <= since
  }

  lemma NextSafetyFirst(w: World, later: World, step: Step)
    requires SafetyFirst(w, later)
    ensures SafetyFirst(w, Next(later, step))
  {
    var after := Next(later, step);
    var since, rest := later.started[|w.started|..], w.c.safety;
    if step == Wake && after.started != later.started {
      var item := after.started[|later.started|];
      assert after.started[|w.started|..] == since + [item];
      if |since| < |rest| {
        assert rest[|since|] == rest[|since|..][0] == item;
        assert rest[|since|..] == [item] + rest[|since| + 1..];
        assert since + [item] + rest[|since| + 1..] == rest;
      }
    } else {
      assert after.started[|w.started|..] == since;
    }
  }

  lemma {:induction false} RunSafetyFirst(w: World, more: seq<Step>)
    ensures SafetyFirst(w, Run(w, more))
  {
    if more == [] {
      assert w.started[|w.started|..] == [];
    } else {
      RunSafetyFirst(w, more[..|more| - 1]);
      NextSafetyFirst(w, Run(w, more[..|more| - 1]), more[|more| - 1]);
    }
  }

  /** A safety action with `ahead` others in front of it is the next but `ahead` to start, whatever is submitted
      meanwhile; and there are never more than the capacity less one in front of it. */
  lemma SafetyStartsSoon(capacity: nat, safetyCapacity: nat, steps: seq<Step>, more: seq<Step>, ahead: nat)
    requires ahead < |Run(Start(capacity, safetyCapacity), steps).c.safety|
    ensures var w := Run(Start(capacity, safetyCapacity), steps);
            var later := Run(w, more);
            && ahead < AtLeastOne(safetyCapacity)
            && |w.started| <= |later.started|
            && (|w.started| + ahead < |later.started| ==> later.started[|w.started| + ahead] == w.c.safety[ahead])
            && (|w.started| + ahead >= |later.started| ==> w.c.safety[ahead] in later.c.safety)
  {
    RunSound(capacity, safetyCapacity, steps);
    FixedCapacity(Start(capacity, safetyCapacity), steps);
    var w := Run(Start(capacity, safetyCapacity), steps);
    RunSafetyFirst(w, more);
    var later := Run(w, more);
    hide Run, Sound;
    var since := later.started[|w.started|..];
    if |w.started| + ahead < |later.started| {
      assert later.started[|w.started| + ahead] == since[ahead];
    } else {
      assert w.c.safety[ahead] == w.c.safety[|since|..][ahead - |since|] == later.c.safety[ahead - |since|];
    }
  }

  lemma {:induction false} FixedCapacity(w: World, steps: seq<Step>)
    ensures Run(w, steps).c.safetyCapacity == w.c.safetyCapacity && Run(w, steps).c.capacity == w.c.capacity
  {
    if steps != [] {
      FixedCapacity(w, steps[..|steps| - 1]);
    }
  }

  // ---- What becomes of a submission ----

  /** The actions of a class that were admitted and not yet started, oldest first. */
  function Waiting(w: World, priority: Priority): seq<Item> {
    var done := |Class(w.started, priority)|;
    if done <= |Class(w.admitted, priority)| then Class(w.admitted, priority)[done..] else []
  }

  function Bound(capacity: nat): nat {
    if capacity < 1 then 1 else capacity
  }

  lemma WaitingIsQueued(w: World, priority: Priority)
    requires Sound(w)
    ensures Waiting(w, priority) == Queue(w.c, priority)
  {
    assert Fifo(w, priority);
  }

  lemma {:induction false} RunBounds(capacity: nat, safetyCapacity: nat, steps: seq<Step>)
    ensures var w := Run(Start(capacity, safetyCapacity), steps);
            && w.c.capacity == Bound(capacity) && w.c.safetyCapacity == Bound(safetyCapacity)
            && (w.c.stopping <==> ShutdownStep in steps)
  {
    if steps != [] {
      RunBounds(capacity, safetyCapacity, steps[..|steps| - 1]);
      assert steps == steps[..|steps| - 1] + [steps[|steps| - 1]];
    }
  }

  /** Over every run, an action is refused as stopped exactly if a shutdown came before it, as full exactly if as many
      of its class wait as that class may hold, and otherwise admitted last, under the next number. */
  lemma SubmissionIsDecided(capacity: nat, safetyCapacity: nat, steps: seq<Step>, priority: Priority)
    ensures var w := Run(Start(capacity, safetyCapacity), steps);
            var after := Next(w, SubmitStep(priority));
            var submission := Submit(w.c, priority).1;
            var room := Bound(if priority == Safety then safetyCapacity else capacity);
            if ShutdownStep in steps then submission == Stopped && after == w
            else if |Waiting(w, priority)| == room then submission == QueueFull && after == w
            else
              var item := Item(|w.admitted| + 1, priority);
              && |Waiting(w, priority)| < room && submission == Submitted(item)
              && after.admitted == w.admitted + [item] && after.started == w.started && after.worker == w.worker
              && after.c.stopping == w.c.stopping
  {
    RunSound(capacity, safetyCapacity, steps);
    RunBounds(capacity, safetyCapacity, steps);
    var w := Run(Start(capacity, safetyCapacity), steps);
    WaitingIsQueued(w, priority);
    assert w.admitted + [] == w.admitted;
    hide Run, Class, Fifo, Waiting;
  }

  /** Over every run, an idle worker that is woken starts the oldest safety action that waits, or else the oldest other
      one; if none waits it exits exactly if a shutdown came. A worker that is busy or gone does nothing. */
  lemma WakingStartsTheNext(capacity: nat, safetyCapacity: nat, steps: seq<Step>)
    ensures var w := Run(Start(capacity, safetyCapacity), steps);
            var after := Next(w, Wake);
            if w.worker != Idle then after == w
            else if Waiting(w, Safety) + Waiting(w, Normal) != [] then
              var item := (Waiting(w, Safety) + Waiting(w, Normal))[0];
              && after.worker == Busy(item) && after.started == w.started + [item] && after.admitted == w.admitted
            else
              after == w.(worker := if ShutdownStep in steps then Exited else Idle)
  {
    RunSound(capacity, safetyCapacity, steps);
    RunBounds(capacity, safetyCapacity, steps);
    var w := Run(Start(capacity, safetyCapacity), steps);
    WaitingIsQueued(w, Safety);
    WaitingIsQueued(w, Normal);
    hide Run, Class, Fifo, Waiting;
  }
}
