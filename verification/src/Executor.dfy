/** The bounded executor: one queue for ordinary and clean-up tasks, emptied by several workers. */
module Executor {
  import AdmissionCounter

  datatype Task = Task(id: nat, cleanup: bool)

  datatype Executor = Executor(
    capacity: nat,
    reserve: nat,
    queue: seq<Task>,
    ordinary: nat,
    active: nat,
    accepting: bool,
    stopping: bool)

  function Initial(capacity: nat, reserve: nat): Executor {
    Executor(capacity, reserve, [], 0, 0, true, false)
  }

  predicate Admits(e: Executor, cleanup: bool) {
    && !e.stopping && (cleanup || e.accepting)
    && |e.queue| < e.capacity
    && (cleanup || e.ordinary + e.reserve < e.capacity)
  }

  function Submitted(e: Executor, task: Task): Executor {
    if !Admits(e, task.cleanup) then e
    else e.(queue := e.queue + [task], ordinary := e.ordinary + if task.cleanup then 0 else 1)
  }

  function StoppedShort(e: Executor, drain: bool): Executor {
    if e.stopping then e
    else
      var closed := e.(accepting := false, stopping := true);
      if drain then closed else closed.(queue := [], ordinary := 0)
  }

  function Started(e: Executor): Executor
    requires e.queue != []
  {
    var task := e.queue[0];
    e.(queue := e.queue[1..], active := e.active + 1,
       ordinary := if task.cleanup then e.ordinary else AdmissionCounter.Lowered(e.ordinary))
  }

  // ---- The executor object ----

  class BoundedExecutor {
    const capacity: nat
    const reserve: nat
    var queue: seq<Task>
    var ordinary: nat
    var active: nat
    var accepting: bool
    var stopping: bool

    ghost function View(): Executor
      reads this
    {
      Executor(capacity, reserve, queue, ordinary, active, accepting, stopping)
    }

    constructor (capacity: nat, reserve: nat)
      requires 1 <= capacity && reserve <= capacity
      ensures View() == Initial(capacity, reserve)
    {
      this.capacity, this.reserve := capacity, reserve;
      queue, ordinary, active, accepting, stopping := [], 0, 0, true, false;
    }

    method Submit(task: Task) returns (ok: bool)
      requires reserve <= capacity
      modifies this
      ensures View() == Submitted(old(View()), task) && ok == Admits(old(View()), task.cleanup)
    {
      if stopping || (!task.cleanup && !accepting) {
        return false;
      }
      if |queue| >= capacity {
        return false;
      }
      if !task.cleanup && ordinary >= capacity - reserve {
        return false;
      }
      queue := queue + [task];
      if !task.cleanup {
        ordinary := ordinary + 1;
      }
      return true;
    }

    method Shutdown(drain: bool)
      modifies this
      ensures View() == StoppedShort(old(View()), drain)
    {
      if stopping {
        return;
      }
      accepting, stopping := false, true;
      if !drain {
        queue, ordinary := [], 0;
      }
    }

    method TakeTask() returns (task: Task)
      requires queue != []
      modifies this
      ensures View() == Started(old(View())) && task == old(queue)[0]
    {
      task := queue[0];
      queue := queue[1..];
      if !task.cleanup {
        ordinary := AdmissionCounter.Lowered(ordinary);
      }
      active := active + 1;
    }
  }

  // ---- Runs ----

  /** `dropped` are the tasks a shutdown without draining threw away. */
  datatype World = World(e: Executor, accepted: seq<Task>, started: seq<Task>, finished: nat, dropped: seq<Task>)

  datatype Step = Submit(task: Task) | StopAdmission | Shutdown(drain: bool) | Begin | Finish

  function Start(capacity: nat, reserve: nat): World {
    World(Initial(capacity, reserve), [], [], 0, [])
  }

  function Next(w: World, step: Step): World {
    match step
    case Submit(task) =>
      w.(e := Submitted(w.e, task), accepted := w.accepted + if Admits(w.e, task.cleanup) then [task] else [])
    case StopAdmission => w.(e := w.e.(accepting := false))
    case Shutdown(drain) =>
      w.(e := StoppedShort(w.e, drain), dropped := w.dropped + if w.e.stopping || drain then [] else w.e.queue)
    case Begin => if w.e.queue == [] then w else w.(e := Started(w.e), started := w.started + [w.e.queue[0]])
    case Finish => if w.e.active == 0 then w else w.(e := w.e.(active := w.e.active - 1), finished := w.finished + 1)
  }

  function Run(capacity: nat, reserve: nat, steps: seq<Step>): World {
    if steps == [] then Start(capacity, reserve)
    else Next(Run(capacity, reserve, steps[..|steps| - 1]), steps[|steps| - 1])
  }

  // ---- Invariant ----

  function Ordinary(tasks: seq<Task>): (n: nat)
    ensures n <= |tasks|
  {
    if tasks == [] then 0 else Ordinary(tasks[..|tasks| - 1]) + if tasks[|tasks| - 1].cleanup then 0 else 1
  }

  function Cleanups(tasks: seq<Task>): nat {
    |tasks| - Ordinary(tasks)
  }

  predicate Sound(w: World, capacity: nat, reserve: nat) {
    && w.e.capacity == capacity && w.e.reserve == reserve
    && |w.e.queue| <= capacity
    && w.e.ordinary == Ordinary(w.e.queue) && w.e.ordinary + reserve <= capacity
    && w.started + w.e.queue + w.dropped == w.accepted
    && |w.started| == w.finished + w.e.active
    && (w.dropped != [] ==> w.e.stopping && w.e.queue == [])
    && (w.e.stopping ==> !w.e.accepting)
  }

  lemma {:induction false} OrdinarySplit(tasks: seq<Task>)
    requires tasks != []
    ensures Ordinary(tasks) == Ordinary(tasks[1..]) + if tasks[0].cleanup then 0 else 1
  {
    var n := |tasks| - 1;
    if n > 0 {
      OrdinarySplit(tasks[..n]);
      assert tasks[1..][..n - 1] == tasks[..n][1..];
    }
  }

  lemma OrdinaryAppend(tasks: seq<Task>, task: Task)
    ensures Ordinary(tasks + [task]) == Ordinary(tasks) + if task.cleanup then 0 else 1
  {
    assert (tasks + [task])[..|tasks|] == tasks;
  }

  lemma OrdinaryNone()
    ensures Ordinary([]) == 0
  {
  }

  lemma SubmitKeeps(w: World, task: Task, capacity: nat, reserve: nat)
    requires Sound(w, capacity, reserve) && reserve <= capacity && Admits(w.e, task.cleanup)
    ensures Sound(Next(w, Submit(task)), capacity, reserve)
  {
    hide Ordinary;
    OrdinaryAppend(w.e.queue, task);
    var q := w.e.queue;
    assert w.dropped == [];
    assert w.started + (q + [task]) + [] == (w.started + q + []) + [task];
  }

  lemma ShutdownKeeps(w: World, capacity: nat, reserve: nat)
    requires Sound(w, capacity, reserve) && !w.e.stopping && reserve <= capacity
    ensures Sound(Next(w, Shutdown(false)), capacity, reserve)
  {
    hide Ordinary;
    OrdinaryNone();
    assert w.dropped == [];
    assert w.started + [] + ([] + w.e.queue) == w.started + w.e.queue + [];
  }

  lemma BeginKeeps(w: World, capacity: nat, reserve: nat)
    requires Sound(w, capacity, reserve) && w.e.queue != []
    ensures Sound(Next(w, Begin), capacity, reserve)
  {
    hide Ordinary;
    OrdinarySplit(w.e.queue);
    var task, rest := w.e.queue[0], w.e.queue[1..];
    assert w.dropped == [];
    assert w.started + [task] + rest + [] == w.started + w.e.queue + [];
  }

  lemma NextSound(w: World, step: Step, capacity: nat, reserve: nat)
    requires Sound(w, capacity, reserve) && reserve <= capacity
    ensures Sound(Next(w, step), capacity, reserve)
  {
    hide Ordinary;
    match step
    case Submit(task) =>
      if Admits(w.e, task.cleanup) {
        SubmitKeeps(w, task, capacity, reserve);
      } else {
        assert w.accepted + [] == w.accepted;
      }
    case Shutdown(drain) =>
      if !w.e.stopping && !drain {
        ShutdownKeeps(w, capacity, reserve);
      } else {
        assert w.dropped + [] == w.dropped;
      }
    case Begin =>
      if w.e.queue != [] {
        BeginKeeps(w, capacity, reserve);
      }
    case StopAdmission =>
    case Finish =>
  }

  lemma {:induction false} RunSound(capacity: nat, reserve: nat, steps: seq<Step>)
    requires reserve <= capacity
    ensures Sound(Run(capacity, reserve, steps), capacity, reserve)
  {
    if steps != [] {
      RunSound(capacity, reserve, steps[..|steps| - 1]);
      NextSound(Run(capacity, reserve, steps[..|steps| - 1]), steps[|steps| - 1], capacity, reserve);
    }
  }

  // ---- Results ----

  /** Over every run the ordinary tasks leave the reserve free, so that until shutdown begins a clean-up task is
      accepted whenever fewer clean-up tasks than the reserve are queued, even after ordinary admission has stopped. */
  lemma CleanupHasRoom(capacity: nat, reserve: nat, steps: seq<Step>)
    requires reserve <= capacity
    ensures var e := Run(capacity, reserve, steps).e;
            && Ordinary(e.queue) <= capacity - reserve && |e.queue| <= capacity
            && (!e.stopping && Cleanups(e.queue) < reserve ==> Admits(e, true))
  {
    RunSound(capacity, reserve, steps);
  }

  /** Over every run tasks are started in the order they were accepted, each once, and what a shutdown dropped is
      exactly what had not been started; a draining shutdown drops nothing. */
  lemma StartedInOrder(capacity: nat, reserve: nat, steps: seq<Step>)
    requires reserve <= capacity
    ensures var w := Run(capacity, reserve, steps);
            && w.started + w.e.queue + w.dropped == w.accepted
            && |w.started| == w.finished + w.e.active
            && (w.e.queue == [] && w.dropped == [] ==> w.started == w.accepted)
  {
    RunSound(capacity, reserve, steps);
    var w := Run(capacity, reserve, steps);
    assert w.started + [] + [] == w.started;
  }

  lemma {:induction false} RunFlags(capacity: nat, reserve: nat, steps: seq<Step>)
    ensures var e := Run(capacity, reserve, steps).e;
            && e.capacity == capacity && e.reserve == reserve
            && (e.stopping <==> Shutdown(true) in steps || Shutdown(false) in steps)
            && (e.accepting <==> StopAdmission !in steps && !e.stopping)
  {
    if steps != [] {
      RunFlags(capacity, reserve, steps[..|steps| - 1]);
      var last := steps[|steps| - 1];
      assert steps == steps[..|steps| - 1] + [last];
      assert last.Shutdown? ==> last == Shutdown(true) || last == Shutdown(false);
    }
  }

  /** The tasks that were accepted, not started and not dropped. */
  function Waiting(w: World): seq<Task> {
    if |w.started| + |w.dropped| <= |w.accepted| then w.accepted[|w.started|..|w.accepted| - |w.dropped|] else []
  }

  lemma WaitingIsQueued(w: World, capacity: nat, reserve: nat)
    requires Sound(w, capacity, reserve)
    ensures Waiting(w) == w.e.queue
  {
    hide Ordinary;
    assert |w.accepted| == |w.started| + |w.e.queue| + |w.dropped|;
    assert (w.started + w.e.queue + w.dropped)[|w.started|..|w.started| + |w.e.queue|] == w.e.queue;
  }

  /** Over every run, a task is accepted, behind all others, exactly if no shutdown came, there is room in the queue,
      and, for an ordinary task, admission was not stopped and the ordinary ones among those waiting leave the reserve
      free. */
  lemma SubmissionIsDecided(capacity: nat, reserve: nat, steps: seq<Step>, task: Task)
    requires reserve <= capacity
    ensures var w := Run(capacity, reserve, steps);
            var after := Next(w, Submit(task));
            if && Shutdown(true) !in steps && Shutdown(false) !in steps && |Waiting(w)| < capacity
               && (task.cleanup || (StopAdmission !in steps && Ordinary(Waiting(w)) < capacity - reserve))
            then after.accepted == w.accepted + [task] && after.started == w.started && after.dropped == w.dropped
            else after == w
  {
    RunSound(capacity, reserve, steps);
    RunFlags(capacity, reserve, steps);
    var w := Run(capacity, reserve, steps);
    WaitingIsQueued(w, capacity, reserve);
    assert w.accepted + [] == w.accepted;
    hide Run, Ordinary, Waiting;
  }

  /** Over every run, a worker that looks starts the oldest task that waits, and a shutdown drops all that wait exactly
      if it is the first one and does not drain. */
  lemma WorkersTakeTheOldest(capacity: nat, reserve: nat, steps: seq<Step>, drain: bool)
    requires reserve <= capacity
    ensures var w := Run(capacity, reserve, steps);
            var after := Next(w, Begin);
            if Waiting(w) == [] then after == w
            else
              && after.started == w.started + [Waiting(w)[0]]
              && after.accepted == w.accepted && after.dropped == w.dropped
    ensures var w := Run(capacity, reserve, steps);
            var after := Next(w, Shutdown(drain));
            && after.started == w.started && after.accepted == w.accepted
            && (if !drain && Shutdown(true) !in steps && Shutdown(false) !in steps
                then after.dropped == w.dropped + Waiting(w)
                else after.dropped == w.dropped)
  {
    RunSound(capacity, reserve, steps);
    RunFlags(capacity, reserve, steps);
    var w := Run(capacity, reserve, steps);
    WaitingIsQueued(w, capacity, reserve);
    assert w.dropped + [] == w.dropped;
    hide Run, Ordinary, Waiting;
  }
}
