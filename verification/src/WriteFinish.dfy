/** The rule shared by all streams: finishing waits until the outstanding write completes. */
module WriteFinish {
  import opened Options

  /** Why a stream ends. */
  datatype Status = Ok | Cancelled | Unavailable | ResourceExhausted | DeadlineExceeded | Rejected

  datatype State = State(writeInFlight: bool, finishStarted: bool, terminal: Option<Status>) {
    predicate TerminationRequested() {
      terminal.Some? || finishStarted
    }

    predicate MayStartWrite() {
      !writeInFlight && !TerminationRequested()
    }

    predicate MayFinish() {
      !writeInFlight && terminal.Some? && !finishStarted
    }
  }

  const IDLE: State := State(false, false, None)

  function WriteStarted(s: State): State {
    if s.MayStartWrite() then s.(writeInFlight := true) else s
  }

  function WriteCompleted(s: State, ok: bool): State {
    s.(writeInFlight := false, terminal := if !ok && s.terminal.None? then Some(Ok) else s.terminal)
  }

  function FinishRequested(s: State, status: Status): State {
    if s.TerminationRequested() then s else s.(terminal := Some(status))
  }

  function FinishTaken(s: State): State {
    if s.MayFinish() then s.(finishStarted := true) else s
  }

  class DeferredWriteFinish {
    var writeInFlight: bool
    var finishStarted: bool
    var terminal: Option<Status>

    ghost function View(): State
      reads this
    {
      State(writeInFlight, finishStarted, terminal)
    }

    constructor ()
      ensures View() == IDLE
    {
      writeInFlight, finishStarted, terminal := false, false, None;
    }

    method TryStartWrite() returns (started: bool)
      modifies this
      ensures started == old(View()).MayStartWrite() && View() == WriteStarted(old(View()))
    {
      if writeInFlight || terminal.Some? || finishStarted {
        return false;
      }
      writeInFlight := true;
      return true;
    }

    method CompleteWrite(ok: bool)
      modifies this
      ensures View() == WriteCompleted(old(View()), ok)
    {
      writeInFlight := false;
      if !ok && terminal.None? {
        terminal := Some(Ok);
      }
    }

    method RequestFinish(status: Status)
      modifies this
      ensures View() == FinishRequested(old(View()), status)
    {
      if terminal.None? && !finishStarted {
        terminal := Some(status);
      }
    }

    method TakeFinishStatus() returns (status: Option<Status>)
      modifies this
      ensures View() == FinishTaken(old(View()))
      ensures status == if old(View()).MayFinish() then old(View()).terminal else None
    {
      if writeInFlight || terminal.None? || finishStarted {
        return None;
      }
      finishStarted := true;
      return terminal;
    }
  }

  // ---- Whole runs ----

  datatype Step = StartWrite | CompleteWrite(ok: bool) | RequestFinish(status: Status) | TakeFinish

  /** What callers observe: a write starting, the first reason given to stop, or the status to finish with. */
  datatype Observation = Wrote | Ended(status: Status) | Finished(status: Status)

  function Apply(s: State, step: Step): State {
    match step
    case StartWrite => WriteStarted(s)
    case CompleteWrite(ok) => WriteCompleted(s, ok)
    case RequestFinish(status) => FinishRequested(s, status)
    case TakeFinish => FinishTaken(s)
  }

  function Observed(s: State, step: Step): seq<Observation> {
    match step
    case StartWrite => if s.MayStartWrite() then [Wrote] else []
    case CompleteWrite(ok) => if !ok && s.terminal.None? then [Ended(Ok)] else []
    case RequestFinish(status) => if s.TerminationRequested() then [] else [Ended(status)]
    case TakeFinish => if s.MayFinish() then [Finished(s.terminal.value)] else []
  }

  function Final(steps: seq<Step>): State {
    if steps == [] then IDLE else Apply(Final(steps[..|steps| - 1]), steps[|steps| - 1])
  }

  function Log(steps: seq<Step>): seq<Observation> {
    if steps == [] then []
    else Log(steps[..|steps| - 1]) + Observed(Final(steps[..|steps| - 1]), steps[|steps| - 1])
  }

  /** Completions answer a write that is in flight. */
  predicate WellPaired(steps: seq<Step>) {
    forall i :: 0 <= i < |steps| && steps[i].CompleteWrite? ==> Final(steps[..i]).writeInFlight
  }

  function Writes(count: nat): seq<Observation> {
    seq(count, _ => Wrote)
  }

  /** What must follow the writes: the first reason to end and, once finished, that same reason. */
  function Ending(s: State): seq<Observation> {
    if s.terminal.None? then []
    else if s.finishStarted then [Ended(s.terminal.value), Finished(s.terminal.value)]
    else [Ended(s.terminal.value)]
  }

  predicate Consistent(s: State) {
    s.finishStarted ==> s.terminal.Some? && !s.writeInFlight
  }

  /** One call extends the log by a write, the first reason to end, the finish, or nothing. */
  lemma StepExtends(s: State, step: Step, writes: nat) returns (after: nat)
    requires Consistent(s) && (step.CompleteWrite? ==> s.writeInFlight)
    ensures Writes(writes) + Ending(s) + Observed(s, step) == Writes(after) + Ending(Apply(s, step))
    ensures Consistent(Apply(s, step))
  {
    after := writes;
    if step == StartWrite && s.MayStartWrite() {
      after := writes + 1;
      assert Writes(writes) + [] + [Wrote] == Writes(after) + [];
    } else {
      assert Ending(s) + Observed(s, step) == Ending(Apply(s, step));
      assert Writes(writes) + Ending(s) + Observed(s, step) == Writes(writes) + (Ending(s) + Observed(s, step));
    }
  }

  /** However the calls interleave, the log is a series of writes, then the first reason to end, then one finish with
      that very reason: no write follows the end, and the finish comes once and never while a write is in flight. */
  lemma {:induction false} EndsOnce(steps: seq<Step>) returns (writes: nat)
    requires WellPaired(steps)
    ensures Log(steps) == Writes(writes) + Ending(Final(steps))
    ensures Consistent(Final(steps))
  {
    writes := 0;
    if steps != [] {
      var n := |steps| - 1;
      var before := steps[..n];
      assert forall i :: 0 <= i < n ==> before[..i] == steps[..i];
      writes := EndsOnce(before);
      hide Writes, Ending, Observed, Apply, Consistent;
      writes := StepExtends(Final(before), steps[n], writes);
    }
  }
}
