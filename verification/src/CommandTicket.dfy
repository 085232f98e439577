/** The ticket of one submitted command: its state, its result and those waiting for it. */
module CommandTicket {
  import opened Options

  datatype Phase = Queued | Accepted | Completed | Failed

  datatype Policy = UntilAccepted | UntilCompleted

  datatype Result = Result(sequence: nat, acceptedSequence: nat, phase: Phase, error: string)

  /** Observers are known by number. */
  datatype Observer = Observer(policy: Policy, id: nat)

  datatype Ticket = Ticket(result: Result, observers: seq<Observer>)

  function Issued(sequence: nat): Ticket {
    Ticket(Result(sequence, 0, Queued, ""), [])
  }

  predicate Terminal(phase: Phase) {
    phase == Completed || phase == Failed
  }

  /** May an observer with this policy be told of this phase? */
  predicate Satisfies(policy: Policy, phase: Phase) {
    Terminal(phase) || (policy == UntilAccepted && phase == Accepted)
  }

  predicate Allowed(from: Phase, to: Phase) {
    !Terminal(from) && (to == Accepted ==> from == Queued)
  }

  /** The result after asking for `phase`; a request that comes too late changes nothing. */
  function Moved(r: Result, phase: Phase, error: string, acceptedSequence: nat): Result {
    if !Allowed(r.phase, phase) then r
    else r.(phase := phase, error := error,
            acceptedSequence := if phase == Accepted then acceptedSequence else r.acceptedSequence)
  }

  function Ready(observers: seq<Observer>, phase: Phase): seq<Observer> {
    if observers == [] then []
    else
      var n := |observers| - 1;
      Ready(observers[..n], phase) + if Satisfies(observers[n].policy, phase) then [observers[n]] else []
  }

  function Waiting(observers: seq<Observer>, phase: Phase): seq<Observer> {
    if observers == [] then []
    else
      var n := |observers| - 1;
      Waiting(observers[..n], phase) + if Satisfies(observers[n].policy, phase) then [] else [observers[n]]
  }

  // ---- The ticket object ----

  class CommandTicketState {
    var result: Result
    var observers: seq<Observer>

    ghost function View(): Ticket
      reads this
    {
      Ticket(result, observers)
    }

    constructor (sequence: nat)
      ensures View() == Issued(sequence)
    {
      result, observers := Result(sequence, 0, Queued, ""), [];
    }

    /** The observers to call, with the result to give them once the lock is released. */
    method Transition(
        phase: Phase, error: string, acceptedSequence: nat) returns (ready: seq<Observer>, snapshot: Result)
      requires phase != Queued
      modifies this
      ensures result == Moved(old(result), phase, error, acceptedSequence) && snapshot == result
      ensures if Allowed(old(result).phase, phase)
              then ready == Ready(old(observers), phase) && observers == Waiting(old(observers), phase)
              else ready == [] && observers == old(observers)
    {
      if result.phase == Completed || result.phase == Failed {
        return [], result;
      }
      if phase == Accepted && result.phase != Queued {
        return [], result;
      }
      if phase == Accepted {
        result := result.(acceptedSequence := acceptedSequence);
      }
      result := result.(phase := phase, error := error);
      snapshot := result;
      ready := Collect(phase);
    }

    /** Move those who waited for `phase` out of the list, keeping the order of both. */
    method Collect(phase: Phase) returns (ready: seq<Observer>)
      modifies this`observers
      ensures ready == Ready(old(observers), phase) && observers == Waiting(old(observers), phase)
    {
      hide Ready, Waiting;
      ready := [];
      var at := 0;
      ghost var all, done := observers, 0;
      SplitNone(phase);
      assert all[..0] == [];
      while at < |observers|
        invariant done <= |all| && at <= |observers|
        invariant observers[..at] == Waiting(all[..done], phase) && observers[at..] == all[done..]
        invariant ready == Ready(all[..done], phase)
        decreases |all| - done
      {
        SplitOne(all, done, phase);
        assert observers[at] == observers[at..][0] == all[done];
        assert observers[at + 1..] == observers[at..][1..] == all[done + 1..];
        var terminal := phase == Completed || phase == Failed;
        if terminal || (observers[at].policy == UntilAccepted && phase == Accepted) {
          ready := ready + [observers[at]];
          observers := observers[..at] + observers[at + 1..];
        } else {
          assert observers[..at + 1] == observers[..at] + [observers[at]];
          at := at + 1;
        }
        done := done + 1;
      }
      assert all[..done] == all && observers[..at] == observers;
    }

    /** Register for later, or get the result to report at once. */
    method Observe(observer: Observer) returns (now: Option<Result>)
      modifies this
      ensures result == old(result)
      ensures if Satisfies(observer.policy, result.phase) then now == Some(result) && observers == old(observers)
              else now == None && observers == old(observers) + [observer]
    {
      var ready := result.phase == Failed || result.phase == Completed ||
                   (observer.policy == UntilAccepted && result.phase == Accepted);
      if !ready {
        observers := observers + [observer];
        return None;
      }
      return Some(result);
    }
  }

  // ---- Everybody at once ----

  /** A call about to be made, or made. */
  datatype Call = Call(observer: Observer, result: Result)

  /** Calls leave the lock before they are made, so they are made in any order. `registered` lists every
      observer in the order of registration, `history` every result the ticket has had. */
  datatype World = World(
    ticket: Ticket,
    calling: seq<Call>,
    called: seq<Call>,
    registered: seq<Observer>,
    history: seq<Result>)

  datatype Step =
    | Transition(phase: Phase, error: string, acceptedSequence: nat)
    | Observe(observer: Observer)
    | MakeCall(which: nat)

  function Start(sequence: nat): World {
    World(Issued(sequence), [], [], [], [Issued(sequence).result])
  }

  function Calls(observers: seq<Observer>, result: Result): (r: seq<Call>)
    ensures |r| == |observers|
  {
    seq(|observers|, i requires 0 <= i < |observers| => Call(observers[i], result))
  }

  function Next(w: World, step: Step): World {
    var t := w.ticket;
    match step
    case Transition(phase, error, acceptedSequence) =>
      if phase == Queued || !Allowed(t.result.phase, phase) then w
      else
        var result := Moved(t.result, phase, error, acceptedSequence);
        w.(ticket := Ticket(result, Waiting(t.observers, phase)),
           calling := w.calling + Calls(Ready(t.observers, phase), result),
           history := w.history + [result])
    case Observe(observer) =>
      var seen := w.(registered := w.registered + [observer]);
      if Satisfies(observer.policy, t.result.phase) then seen.(calling := w.calling + [Call(observer, t.result)])
      else seen.(ticket := t.(observers := t.observers + [observer]))
    case MakeCall(which) =>
      if which >= |w.calling| then w
      else w.(calling := w.calling[..which] + w.calling[which + 1..], called := w.called + [w.calling[which]])
  }

  function Run(sequence: nat, steps: seq<Step>): World {
    if steps == [] then Start(sequence) else Next(Run(sequence, steps[..|steps| - 1]), steps[|steps| - 1])
  }

  // ---- Invariant ----

  function Count(observers: seq<Observer>, o: Observer): nat {
    if observers == [] then 0
    else Count(observers[..|observers| - 1], o) + if observers[|observers| - 1] == o then 1 else 0
  }

  function CountCalls(calls: seq<Call>, o: Observer): nat {
    if calls == [] then 0
    else CountCalls(calls[..|calls| - 1], o) + if calls[|calls| - 1].observer == o then 1 else 0
  }

  /** As often as it registered, an observer is waiting, about to be called or was called. */
  predicate Conserved(w: World, o: Observer) {
    Count(w.registered, o) == Count(w.ticket.observers, o) + CountCalls(w.calling, o) + CountCalls(w.called, o)
  }

  predicate Proper(history: seq<Result>, call: Call) {
    call.result in history && Satisfies(call.observer.policy, call.result.phase)
  }

  predicate AllProper(history: seq<Result>, calls: seq<Call>) {
    forall i :: 0 <= i < |calls| ==> Proper(history, calls[i])
  }

  /** From queued to accepted to an end, or from queued to an end; the accepted number is set on the way once. */
  predicate Orderly(history: seq<Result>) {
    && 1 <= |history| <= 3
    && history[0].phase == Queued && history[0].acceptedSequence == 0
    && (forall i :: 0 <= i < |history| - 1 ==> Follows(history[i], history[i + 1]))
  }

  predicate Follows(a: Result, b: Result) {
    && Allowed(a.phase, b.phase) && b.phase != Queued && b.sequence == a.sequence
    && (b.phase != Accepted ==> b.acceptedSequence == a.acceptedSequence)
  }

  predicate Sound(w: World) {
    && AllProper(w.history, w.calling) && AllProper(w.history, w.called)
    && Orderly(w.history) && w.history[|w.history| - 1] == w.ticket.result
    && (forall i :: 0 <= i < |w.ticket.observers| ==> !Satisfies(w.ticket.observers[i].policy, w.ticket.result.phase))
  }

  // ---- Proofs ----

  lemma SplitNone(phase: Phase)
    ensures Ready([], phase) == [] && Waiting([], phase) == []
  {
  }

  lemma SplitOne(all: seq<Observer>, done: nat, phase: Phase)
    requires done < |all|
    ensures if Satisfies(all[done].policy, phase)
            then Ready(all[..done + 1], phase) == Ready(all[..done], phase) + [all[done]]
                 && Waiting(all[..done + 1], phase) == Waiting(all[..done], phase)
            else Ready(all[..done + 1], phase) == Ready(all[..done], phase)
                 && Waiting(all[..done + 1], phase) == Waiting(all[..done], phase) + [all[done]]
  {
    assert all[..done + 1][..done] == all[..done];
  }

  lemma {:induction false} ReadyOrWaiting(observers: seq<Observer>, phase: Phase)
    ensures forall i :: 0 <= i < |Ready(observers, phase)| ==> Satisfies(Ready(observers, phase)[i].policy, phase)
    ensures forall i :: 0 <= i < |Waiting(observers, phase)| ==> !Satisfies(Waiting(observers, phase)[i].policy, phase)
  {
    if observers != [] {
      ReadyOrWaiting(observers[..|observers| - 1], phase);
    }
  }

  lemma {:induction false} CountAppend(a: seq<Observer>, b: seq<Observer>, o: Observer)
    ensures Count(a + b, o) == Count(a, o) + Count(b, o)
  {
    if b == [] {
      assert a + b == a;
    } else {
      var n := |b| - 1;
      assert (a + b)[..|a + b| - 1] == a + b[..n];
      CountAppend(a, b[..n], o);
    }
  }

  lemma {:induction false} CountCallsAppend(a: seq<Call>, b: seq<Call>, o: Observer)
    ensures CountCalls(a + b, o) == CountCalls(a, o) + CountCalls(b, o)
  {
    if b == [] {
      assert a + b == a;
    } else {
      var n := |b| - 1;
      assert (a + b)[..|a + b| - 1] == a + b[..n];
      CountCallsAppend(a, b[..n], o);
    }
  }

  lemma CountOne(observer: Observer, result: Result, o: Observer)
    ensures Count([observer], o) == (if observer == o then 1 else 0)
    ensures CountCalls([Call(observer, result)], o) == (if observer == o then 1 else 0)
  {
    assert [observer][..0] == [] && [Call(observer, result)][..0] == [];
  }

  lemma {:induction false} CountCallsOf(observers: seq<Observer>, result: Result, o: Observer)
    ensures CountCalls(Calls(observers, result), o) == Count(observers, o)
  {
    if observers != [] {
      var n := |observers| - 1;
      CountCallsOf(observers[..n], result, o);
      assert Calls(observers, result)[..n] == Calls(observers[..n], result);
    }
  }

  lemma {:induction false} CountSplits(observers: seq<Observer>, phase: Phase, o: Observer)
    ensures Count(observers, o) == Count(Ready(observers, phase), o) + Count(Waiting(observers, phase), o)
  {
    if observers != [] {
      var n := |observers| - 1;
      CountSplits(observers[..n], phase, o);
      SplitOne(observers, n, phase);
      assert observers[..n + 1] == observers;
      hide Ready, Waiting;
      CountAppend(Ready(observers[..n], phase), [observers[n]], o);
      CountAppend(Waiting(observers[..n], phase), [observers[n]], o);
      CountOne(observers[n], Issued(0).result, o);
    }
  }

  lemma ProperMore(history: seq<Result>, more: seq<Result>, calls: seq<Call>)
    requires AllProper(history, calls)
    ensures AllProper(history + more, calls)
  {
    forall i | 0 <= i < |calls| ensures Proper(history + more, calls[i]) {
      var j :| 0 <= j < |history| && history[j] == calls[i].result;
      assert (history + more)[j] == calls[i].result;
    }
  }

  /** The third result is an end. */
  lemma OrderlyEnds(history: seq<Result>)
    requires Orderly(history)
    ensures |history| == 3 ==> Terminal(history[2].phase)
  {
    if |history| == 3 {
      assert Follows(history[0], history[0 + 1]) && Follows(history[1], history[1 + 1]);
    }
  }

  lemma OrderlyAppend(history: seq<Result>, result: Result)
    requires Orderly(history) && Follows(history[|history| - 1], result)
    ensures Orderly(history + [result])
  {
    OrderlyEnds(history);
    var all, n := history + [result], |history|;
    forall i | 0 <= i < n ensures Follows(all[i], all[i + 1]) {
      if i < n - 1 {
        assert Follows(history[i], history[i + 1]);
      } else {
        assert all[n] == result;
      }
    }
  }

  lemma TransitionKeeps(w: World, phase: Phase, error: string, acceptedSequence: nat)
    requires Sound(w) && phase != Queued && Allowed(w.ticket.result.phase, phase)
    ensures Sound(Next(w, Transition(phase, error, acceptedSequence)))
  {
    var t := w.ticket;
    var result := Moved(t.result, phase, error, acceptedSequence);
    ReadyOrWaiting(t.observers, phase);
    OrderlyAppend(w.history, result);
    ProperMore(w.history, [result], w.calling);
    ProperMore(w.history, [result], w.called);
    hide Orderly, Ready, Waiting;
    var calls := Calls(Ready(t.observers, phase), result);
    assert (w.history + [result])[|w.history|] == result;
    ProperAppend(w.history + [result], w.calling, calls);
  }

  lemma ProperAppend(history: seq<Result>, a: seq<Call>, b: seq<Call>)
    requires AllProper(history, a) && AllProper(history, b)
    ensures AllProper(history, a + b)
  {
  }

  lemma ObserveKeeps(w: World, observer: Observer)
    requires Sound(w)
    ensures Sound(Next(w, Observe(observer)))
  {
    assert w.history[|w.history| - 1] in w.history;
    hide Orderly;
    if Satisfies(observer.policy, w.ticket.result.phase) {
      ProperAppend(w.history, w.calling, [Call(observer, w.ticket.result)]);
    }
  }

  lemma MakeCallKeeps(w: World, which: nat)
    requires Sound(w) && which < |w.calling|
    ensures Sound(Next(w, MakeCall(which)))
  {
    hide Orderly, Satisfies;
    ProperAppend(w.history, w.calling[..which], w.calling[which + 1..]);
    ProperAppend(w.history, w.called, [w.calling[which]]);
  }

  lemma {:induction false} RunSound(sequence: nat, steps: seq<Step>)
    ensures Sound(Run(sequence, steps))
  {
    if steps != [] {
      var w, step := Run(sequence, steps[..|steps| - 1]), steps[|steps| - 1];
      RunSound(sequence, steps[..|steps| - 1]);
      hide Sound;
      match step
      case Transition(phase, error, acceptedSequence) =>
        if phase != Queued && Allowed(w.ticket.result.phase, phase) {
          TransitionKeeps(w, phase, error, acceptedSequence);
        }
      case Observe(observer) => ObserveKeeps(w, observer);
      case MakeCall(which) =>
        if which < |w.calling| {
          MakeCallKeeps(w, which);
        }
    }
  }

  lemma NextConserves(w: World, step: Step, o: Observer)
    requires Conserved(w, o)
    ensures Conserved(Next(w, step), o)
  {
    hide Count, CountCalls, Ready, Waiting;
    var t := w.ticket;
    match step
    case Transition(phase, error, acceptedSequence) =>
      var result := Moved(t.result, phase, error, acceptedSequence);
      CountSplits(t.observers, phase, o);
      CountCallsOf(Ready(t.observers, phase), result, o);
      CountCallsAppend(w.calling, Calls(Ready(t.observers, phase), result), o);
    case Observe(observer) =>
      CountOne(observer, t.result, o);
      CountAppend(w.registered, [observer], o);
      CountAppend(t.observers, [observer], o);
      CountCallsAppend(w.calling, [Call(observer, t.result)], o);
    case MakeCall(which) =>
      if which < |w.calling| {
        var front, call, back := w.calling[..which], w.calling[which], w.calling[which + 1..];
        assert w.calling == front + ([call] + back);
        CountCallsAppend(front, [call] + back, o);
        CountCallsAppend([call], back, o);
        CountCallsAppend(front, back, o);
        CountCallsAppend(w.called, [call], o);
      }
  }

  lemma {:induction false} RunConserves(sequence: nat, steps: seq<Step>, o: Observer)
    ensures Conserved(Run(sequence, steps), o)
  {
    if steps != [] {
      RunConserves(sequence, steps[..|steps| - 1], o);
      NextConserves(Run(sequence, steps[..|steps| - 1]), steps[|steps| - 1], o);
    }
  }

  // ---- Results ----

  /** However acceptance, completion, failure and registration race: the ticket goes from queued to accepted to an end,
      or straight to an end, and once it is accepted its channel number never changes. */
  lemma TicketMovesForward(sequence: nat, steps: seq<Step>, i: nat, j: nat)
    requires i <= j < |Run(sequence, steps).history|
    ensures var h := Run(sequence, steps).history;
            && Orderly(h) && h[|h| - 1] == Run(sequence, steps).ticket.result
            && (h[i].phase == Accepted ==> h[j].acceptedSequence == h[i].acceptedSequence)
            && (Terminal(h[i].phase) ==> i == j)
  {
    RunSound(sequence, steps);
    var h := Run(sequence, steps).history;
    hide Run;
    if |h| >= 2 {
      assert Follows(h[0], h[0 + 1]);
    }
    if |h| >= 3 {
      assert Follows(h[1], h[1 + 1]);
    }
  }

  /** No observer is called more often than it registered, and each call reports a state the ticket really had and that
      the observer was waiting for. */
  lemma CalledAtMostOnce(sequence: nat, steps: seq<Step>, o: Observer)
    ensures var w := Run(sequence, steps);
            CountCalls(w.called, o) <= Count(w.registered, o) && AllProper(w.history, w.called)
  {
    RunSound(sequence, steps);
    RunConserves(sequence, steps, o);
  }

  /** Once the ticket has ended and the calls underway are made, every observer was called exactly once for each time
      it registered. */
  lemma CalledExactlyOnce(sequence: nat, steps: seq<Step>, o: Observer)
    ensures var w := Run(sequence, steps);
            Terminal(w.ticket.result.phase) && w.calling == [] ==> CountCalls(w.called, o) == Count(w.registered, o)
  {
    RunSound(sequence, steps);
    RunConserves(sequence, steps, o);
    var w := Run(sequence, steps);
    hide Run;
    assert |w.ticket.observers| > 0 ==> !Satisfies(w.ticket.observers[0].policy, w.ticket.result.phase);
  }

  /** Over every race, a request for a phase takes effect exactly if the ticket is queued, or is accepted and the
      request is for its end; the ticket then has that phase and error, the accepted number if it was accepted, and
      otherwise the number it had. */
  lemma RequestsTakeEffect(sequence: nat, steps: seq<Step>, phase: Phase, error: string, accepted: nat)
    requires phase != Queued
    ensures var r := Run(sequence, steps).ticket.result;
            var q := Next(Run(sequence, steps), Transition(phase, error, accepted)).ticket.result;
            && r.sequence == sequence
            && (if r.phase == Queued || (r.phase == Accepted && phase != Accepted)
                then q == Result(sequence, if phase == Accepted then accepted else r.acceptedSequence, phase, error)
                else Next(Run(sequence, steps), Transition(phase, error, accepted)) == Run(sequence, steps))
  {
    NumberStays(sequence, steps);
    hide Run, Ready, Waiting;
  }

  lemma {:induction false} NumberStays(sequence: nat, steps: seq<Step>)
    ensures Run(sequence, steps).ticket.result.sequence == sequence
  {
    if steps != [] {
      NumberStays(sequence, steps[..|steps| - 1]);
      hide Ready, Waiting;
    }
  }

  /** The phases an observer with this policy waits for. */
  function Awaited(policy: Policy): set<Phase> {
    match policy
    case UntilAccepted => {Accepted, Completed, Failed}
    case UntilCompleted => {Completed, Failed}
  }

  lemma AwaitedMeans(policy: Policy, phase: Phase)
    ensures Satisfies(policy, phase) <==> phase in Awaited(policy)
  {
  }

  /** Over every race, nobody waits for a phase that is reached, and nobody is told of one not waited for: each call
      has a result the ticket had, in a phase the observer waited for. */
  lemma ToldInTime(sequence: nat, steps: seq<Step>)
    ensures var w := Run(sequence, steps);
            && (forall o :: o in w.ticket.observers ==> w.ticket.result.phase !in Awaited(o.policy))
            && (forall c :: c in w.calling + w.called ==>
                  c.result in w.history && c.result.phase in Awaited(c.observer.policy))
  {
    RunSound(sequence, steps);
    var w := Run(sequence, steps);
    hide Run, Orderly, Satisfies, Awaited;
    forall o | o in w.ticket.observers ensures w.ticket.result.phase !in Awaited(o.policy) {
      AwaitedMeans(o.policy, w.ticket.result.phase);
    }
    forall c | c in w.calling + w.called ensures c.result in w.history && c.result.phase in Awaited(c.observer.policy) {
      assert Proper(w.history, c);
      AwaitedMeans(c.observer.policy, c.result.phase);
    }
  }
}
