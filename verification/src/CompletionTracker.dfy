/** Deciding from LinuxCNC's status which of the commands sent to it are done. */
module CompletionTracker {
  import opened Options

  // ---- Wrapping serial numbers ----

  function Unsigned(x: int): (u: int)
    ensures 0 <= u < 0x1_0000_0000
  {
    x % 0x1_0000_0000
  }

  function Signed(u: int): int {
    if u >= 0x8000_0000 then u - 0x1_0000_0000 else u
  }

  /** The 32-bit number that stands for an unbounded counter. */
  function Wrapped(counter: int): int {
    Signed(Unsigned(counter))
  }

  predicate SerialAfter(lhs: int, rhs: int) {
    Signed(Unsigned(Unsigned(lhs) - Unsigned(rhs))) > 0
  }

  lemma WrappedDifference(a: int, b: int)
    ensures Unsigned(Unsigned(Wrapped(a)) - Unsigned(Wrapped(b))) == Unsigned(a - b)
  {
    UnsignedWrapped(a);
    UnsignedWrapped(b);
    hide Signed;
    var x, y := a / 0x1_0000_0000, b / 0x1_0000_0000;
    assert a == 0x1_0000_0000 * x + Unsigned(a) && b == 0x1_0000_0000 * y + Unsigned(b);
    UnsignedShift(Unsigned(a) - Unsigned(b), x - y);
  }

  lemma UnsignedShift(x: int, n: int)
    ensures Unsigned(x + 0x1_0000_0000 * n) == Unsigned(x)
  {
  }

  lemma UnsignedWrapped(a: int)
    ensures Unsigned(Wrapped(a)) == Unsigned(a)
  {
  }

  /** For counters up to two to the thirty-first apart the comparison of their 32-bit serials agrees with the counters
      themselves, except that a counter ahead by exactly that distance is not recognized as being ahead. */
  lemma SerialOrder(a: int, b: int)
    requires -0x8000_0000 <= a - b <= 0x8000_0000
    ensures (SerialAfter(Wrapped(a), Wrapped(b)) <==> a > b) <==> a - b < 0x8000_0000
    ensures a - b < 0x8000_0000 ==> (Wrapped(a) == Wrapped(b) <==> a == b)
  {
    WrappedDifference(a, b);
    hide Wrapped;
    if a >= b {
      assert Unsigned(a - b) == a - b;
    } else {
      UnsignedShift(a - b, 1);
      assert Unsigned(a - b) == a - b + 0x1_0000_0000;
    }
    EqualWrapped(a, b);
  }

  lemma EqualWrapped(a: int, b: int)
    ensures Wrapped(a) == Wrapped(b) ==> Unsigned(a - b) == 0
  {
    WrappedDifference(a, b);
  }

  // ---- Resolving ----

  datatype RcsStatus = Done | Exec | Error | Other

  datatype Snapshot = Snapshot(echo: int, status: RcsStatus)

  /** `deadline` is missing when commands never time out, `after` the number of observations made before tracking. */
  datatype Pending = Pending(id: nat, serial: int, deadline: Option<int>, after: nat)

  datatype Resolution = Unresolved | Completed | Rejected | TimedOut | Unavailable

  predicate Late(p: Pending, now: int) {
    p.deadline.Some? && now >= p.deadline.value
  }

  function Resolve(p: Pending, snapshot: Snapshot, now: int, observations: nat): Resolution {
    if observations <= p.after then if Late(p, now) then TimedOut else Unresolved
    else if SerialAfter(snapshot.echo, p.serial) then Completed
    else if snapshot.echo == p.serial && snapshot.status == Done then Completed
    else if snapshot.echo == p.serial && snapshot.status == Error then Rejected
    else if Late(p, now) then TimedOut
    else Unresolved
  }

  datatype Tracker = Tracker(
    timeout: nat,
    pending: seq<Pending>,
    latest: Option<Snapshot>,
    healthy: bool,
    observations: nat)

  /** A command's end: how, on the strength of which observation, and when. */
  datatype Outcome = Outcome(pending: Pending, resolution: Resolution, observation: nat, now: int)

  function ResolveWith(t: Tracker, p: Pending, now: int): Resolution {
    if t.latest.None? then if Late(p, now) then TimedOut else Unresolved
    else Resolve(p, t.latest.value, now, t.observations)
  }

  function Resolved(t: Tracker, pending: seq<Pending>, now: int): seq<Outcome> {
    if pending == [] then []
    else
      var n := |pending| - 1;
      var resolution := ResolveWith(t, pending[n], now);
      Resolved(t, pending[..n], now) +
      if resolution == Unresolved then [] else [Outcome(pending[n], resolution, t.observations, now)]
  }

  function Remaining(t: Tracker, pending: seq<Pending>, now: int): seq<Pending> {
    if pending == [] then []
    else
      var n := |pending| - 1;
      Remaining(t, pending[..n], now) + if ResolveWith(t, pending[n], now) == Unresolved then [pending[n]] else []
  }

  /** The clock is read twice: `now` sets the deadline and `later`, under the lock, decides. */
  function Tracked(t: Tracker, id: nat, serial: int, now: int, later: int): (Tracker, seq<Outcome>) {
    var p := Filed(t, id, serial, now);
    var resolution :=
      if !t.healthy then Unavailable else if t.latest.Some? then ResolveWith(t, p, later) else Unresolved;
    if resolution == Unresolved then (t.(pending := t.pending + [p]), [])
    else (t, [Outcome(p, resolution, t.observations, later)])
  }

  function Filed(t: Tracker, id: nat, serial: int, now: int): Pending {
    Pending(id, serial, if t.timeout == 0 then None else Some(now + t.timeout), t.observations)
  }

  function Failures(t: Tracker, now: int): (r: seq<Outcome>)
    ensures |r| == |t.pending|
  {
    seq(|t.pending|, i requires 0 <= i < |t.pending| => Outcome(t.pending[i], Unavailable, t.observations, now))
  }

  function ChannelFailed(t: Tracker, now: int): (Tracker, seq<Outcome>) {
    (t.(healthy := false, pending := []), Failures(t, now))
  }

  function Ticked(t: Tracker, now: int): (Tracker, seq<Outcome>) {
    (t.(pending := Remaining(t, t.pending, now)), Resolved(t, t.pending, now))
  }

  function Observed(t: Tracker, snapshot: Snapshot, now: int): (Tracker, seq<Outcome>) {
    Ticked(t.(latest := Some(snapshot), healthy := true, observations := t.observations + 1), now)
  }

  // ---- The tracker object ----

  class CommandCompletionTracker {
    const timeout: nat
    var pending: seq<Pending>
    var latest: Option<Snapshot>
    var healthy: bool
    var observations: nat

    ghost function View(): Tracker
      reads this
    {
      Tracker(timeout, pending, latest, healthy, observations)
    }

    constructor (timeout: nat)
      ensures View() == Tracker(timeout, [], None, false, 0)
    {
      this.timeout := timeout;
      pending, latest, healthy, observations := [], None, false, 0;
    }

    method Track(id: nat, serial: int, now: int, later: int) returns (outcomes: seq<Outcome>)
      modifies this
      ensures (View(), outcomes) == Tracked(old(View()), id, serial, now, later)
    {
      var p := Pending(id, serial, if timeout == 0 then None else Some(now + timeout), observations);
      var resolution := Unresolved;
      if !healthy {
        resolution := Unavailable;
      } else if latest.Some? {
        resolution := Resolve(p, latest.value, later, observations);
      }
      if resolution == Unresolved {
        pending := pending + [p];
        return [];
      }
      return [Outcome(p, resolution, observations, later)];
    }

    method FailChannel(now: int) returns (outcomes: seq<Outcome>)
      modifies this
      ensures (View(), outcomes) == ChannelFailed(old(View()), now)
    {
      healthy := false;
      outcomes := [];
      for n := 0 to |pending|
        invariant outcomes == Failures(old(View()), now)[..n]
        invariant View() == old(View()).(healthy := false)
      {
        outcomes := outcomes + [Outcome(pending[n], Unavailable, observations, now)];
      }
      assert outcomes == Failures(old(View()), now);
      pending := [];
    }

    method Observe(snapshot: Snapshot, now: int) returns (outcomes: seq<Outcome>)
      modifies this
      ensures (View(), outcomes) == Observed(old(View()), snapshot, now)
    {
      latest := Some(snapshot);
      healthy := true;
      observations := observations + 1;
      outcomes := CollectReady(now);
    }

    /** Take the resolved commands out of the list, keeping the order of both. */
    method CollectReady(now: int) returns (outcomes: seq<Outcome>)
      modifies this`pending
      ensures (View(), outcomes) == Ticked(old(View()), now)
    {
      hide Resolved, Remaining;
      outcomes := [];
      var at := 0;
      ghost var t, all, done := View(), pending, 0;
      SplitNone(t, now);
      assert all[..0] == [];
      while at < |pending|
        invariant done <= |all| && at <= |pending|
        invariant pending[..at] == Remaining(t, all[..done], now) && pending[at..] == all[done..]
        invariant outcomes == Resolved(t, all[..done], now)
        decreases |all| - done
      {
        SplitOne(t, all, done, now);
        assert pending[at] == pending[at..][0] == all[done];
        assert pending[at + 1..] == pending[at..][1..] == all[done + 1..];
        var resolution := if latest.None? then (if Late(pending[at], now) then TimedOut else Unresolved)
                          else Resolve(pending[at], latest.value, now, observations);
        if resolution == Unresolved {
          assert pending[..at + 1] == pending[..at] + [pending[at]];
          at := at + 1;
        } else {
          outcomes := outcomes + [Outcome(pending[at], resolution, observations, now)];
          pending := pending[..at] + pending[at + 1..];
        }
        done := done + 1;
      }
      assert all[..done] == all && pending[..at] == pending;
    }
  }

  lemma SplitNone(t: Tracker, now: int)
    ensures Resolved(t, [], now) == [] && Remaining(t, [], now) == []
  {
  }

  lemma SplitOne(t: Tracker, all: seq<Pending>, done: nat, now: int)
    requires done < |all|
    ensures var resolution := ResolveWith(t, all[done], now);
            if resolution == Unresolved
            then Resolved(t, all[..done + 1], now) == Resolved(t, all[..done], now)
                 && Remaining(t, all[..done + 1], now) == Remaining(t, all[..done], now) + [all[done]]
            else Resolved(t, all[..done + 1], now) ==
                   Resolved(t, all[..done], now) + [Outcome(all[done], resolution, t.observations, now)]
                 && Remaining(t, all[..done + 1], now) == Remaining(t, all[..done], now)
  {
    assert all[..done + 1][..done] == all[..done];
  }

  // ---- Runs ----

  /** `observed` lists every status read, `channel` for every report about the channel whether it was a status,
      `requests` the commands tracked so far, which are numbered in that order, and `outcomes` every command's end; the
      end at `i` was decided after `reports[i]` reports. */
  datatype World = World(
    t: Tracker,
    requests: seq<Request>,
    observed: seq<Snapshot>,
    channel: seq<bool>,
    outcomes: seq<Outcome>,
    reports: seq<nat>)

  /** What a command was tracked with: its serial, the time, and how many statuses had been read. */
  datatype Request = Request(serial: int, now: int, after: nat)

  datatype Step =
    | Track(serial: int, now: int, later: int)
    | Observe(snapshot: Snapshot, now: int)
    | FailChannel(now: int)
    | Tick(now: int)

  function Start(timeout: nat): World {
    World(Tracker(timeout, [], None, false, 0), [], [], [], [], [])
  }

  function Next(w: World, step: Step): World {
    var (t, outcomes) := match step
      case Track(serial, now, later) => Tracked(w.t, |w.requests|, serial, now, later)
      case Observe(snapshot, now) => Observed(w.t, snapshot, now)
      case FailChannel(now) => ChannelFailed(w.t, now)
      case Tick(now) => Ticked(w.t, now);
    var channel := w.channel + match step
      case Observe(_, _) => [true]
      case FailChannel(_) => [false]
      case _ => [];
    World(t, if step.Track? then w.requests + [Request(step.serial, step.now, |w.observed|)] else w.requests,
          if step.Observe? then w.observed + [step.snapshot] else w.observed,
          channel, w.outcomes + outcomes, w.reports + seq(|outcomes|, i => |channel|))
  }

  function Run(timeout: nat, steps: seq<Step>): World {
    if steps == [] then Start(timeout) else Next(Run(timeout, steps[..|steps| - 1]), steps[|steps| - 1])
  }

  // ---- Exactly once ----

  function Mine(id: nat, other: nat): nat {
    if id == other then 1 else 0
  }

  function CountPending(pending: seq<Pending>, id: nat): nat {
    if pending == [] then 0 else CountPending(pending[..|pending| - 1], id) + Mine(id, pending[|pending| - 1].id)
  }

  function CountOutcomes(outcomes: seq<Outcome>, id: nat): nat {
    if outcomes == [] then 0
    else CountOutcomes(outcomes[..|outcomes| - 1], id) + Mine(id, outcomes[|outcomes| - 1].pending.id)
  }

  predicate Conserved(w: World, id: nat) {
    CountPending(w.t.pending, id) + CountOutcomes(w.outcomes, id) == if id < |w.requests| then 1 else 0
  }

  lemma {:induction false} CountOutcomesAppend(a: seq<Outcome>, b: seq<Outcome>, id: nat)
    ensures CountOutcomes(a + b, id) == CountOutcomes(a, id) + CountOutcomes(b, id)
  {
    if b == [] {
      assert a + b == a;
    } else {
      var n := |b| - 1;
      assert (a + b)[..|a + b| - 1] == a + b[..n];
      CountOutcomesAppend(a, b[..n], id);
    }
  }

  lemma CountPendingAppend(a: seq<Pending>, p: Pending, id: nat)
    ensures CountPending(a + [p], id) == CountPending(a, id) + Mine(id, p.id)
  {
    assert (a + [p])[..|a|] == a;
  }

  lemma CountOne(o: Outcome, id: nat)
    ensures CountOutcomes([o], id) == Mine(id, o.pending.id) && CountOutcomes([], id) == 0
  {
    assert [o][..0] == [];
  }

  lemma {:induction false} CountTicked(t: Tracker, pending: seq<Pending>, now: int, id: nat)
    ensures CountPending(pending, id) ==
            CountPending(Remaining(t, pending, now), id) + CountOutcomes(Resolved(t, pending, now), id)
  {
    if pending != [] {
      var n := |pending| - 1;
      CountTicked(t, pending[..n], now, id);
      SplitOne(t, pending, n, now);
      assert pending[..n + 1] == pending;
      hide Resolved, Remaining, ResolveWith;
      var o := Outcome(pending[n], ResolveWith(t, pending[n], now), t.observations, now);
      CountPendingAppend(Remaining(t, pending[..n], now), pending[n], id);
      CountOutcomesAppend(Resolved(t, pending[..n], now), [o], id);
      CountOne(o, id);
    }
  }

  lemma {:induction false} CountFailed(t: Tracker, now: int, id: nat)
    ensures CountOutcomes(Failures(t, now), id) == CountPending(t.pending, id)
    decreases |t.pending|
  {
    if t.pending != [] {
      var n := |t.pending| - 1;
      var front := t.(pending := t.pending[..n]);
      CountFailed(front, now, id);
      assert Failures(t, now)[..n] == Failures(front, now);
    }
  }

  lemma NextConserves(w: World, step: Step, id: nat)
    requires Conserved(w, id)
    ensures Conserved(Next(w, step), id)
  {
    hide CountPending, CountOutcomes, Resolved, Remaining, Failures, ResolveWith;
    var outcomes := Next(w, step).outcomes[|w.outcomes|..];
    assert Next(w, step).outcomes == w.outcomes + outcomes;
    CountOutcomesAppend(w.outcomes, outcomes, id);
    match step
    case Track(serial, now, later) =>
      var p := Filed(w.t, |w.requests|, serial, now);
      CountPendingAppend(w.t.pending, p, id);
      CountTracked(w.t, p.id, serial, now, later, outcomes, id);
    case Observe(snapshot, now) =>
      var t := w.t.(latest := Some(snapshot), healthy := true, observations := w.t.observations + 1);
      CountTicked(t, w.t.pending, now, id);
    case FailChannel(now) =>
      CountFailed(w.t, now, id);
      CountNone(id);
    case Tick(now) => CountTicked(w.t, w.t.pending, now, id);
  }

  lemma CountNone(id: nat)
    ensures CountPending([], id) == 0 && CountOutcomes([], id) == 0
  {
  }

  lemma CountTracked(
      t: Tracker, number: nat, serial: int, now: int, later: int, outcomes: seq<Outcome>, id: nat)
    requires outcomes == Tracked(t, number, serial, now, later).1
    ensures CountOutcomes(outcomes, id) == if outcomes == [] then 0 else Mine(id, number)
  {
    hide ResolveWith;
    if outcomes != [] {
      CountOne(outcomes[0], id);
    }
  }

  lemma {:induction false} RunConserves(timeout: nat, steps: seq<Step>, id: nat)
    ensures Conserved(Run(timeout, steps), id)
  {
    if steps != [] {
      RunConserves(timeout, steps[..|steps| - 1], id);
      hide Next, Conserved;
      NextConserves(Run(timeout, steps[..|steps| - 1]), steps[|steps| - 1], id);
    }
  }

  // ---- Only for a reason ----

  /** The status that decided the outcome was read after the command was tracked, and says what the outcome says. */
  predicate Grounded(observed: seq<Snapshot>, o: Outcome) {
    match o.resolution
    case Unresolved => false
    case Completed =>
      && o.pending.after < o.observation <= |observed|
      && var s := observed[o.observation - 1];
         SerialAfter(s.echo, o.pending.serial) || (s.echo == o.pending.serial && s.status == Done)
    case Rejected =>
      && o.pending.after < o.observation <= |observed|
      && var s := observed[o.observation - 1];
         s.echo == o.pending.serial && s.status == Error
    case TimedOut => Late(o.pending, o.now)
    case Unavailable => true
  }

  /** After so many reports the channel is not known to work: there was none yet, or the last one was a failure. */
  predicate Down(channel: seq<bool>, reports: nat) {
    reports <= |channel| && (reports > 0 ==> !channel[reports - 1])
  }

  /** A command is reported unavailable exactly if the channel was down, and otherwise for a reason of its own. */
  predicate Justified(observed: seq<Snapshot>, channel: seq<bool>, o: Outcome, reports: nat) {
    && reports <= |channel| && Grounded(observed, o)
    && (o.resolution == Unavailable <==> Down(channel, reports))
  }

  predicate AllJustified(observed: seq<Snapshot>, channel: seq<bool>, outcomes: seq<Outcome>, reports: seq<nat>) {
    |outcomes| == |reports| && forall i :: 0 <= i < |outcomes| ==> Justified(observed, channel, outcomes[i], reports[i])
  }

  /** What ends now, for a reason found in the statuses read so far, or because the channel is down. */
  predicate EndsNow(observed: seq<Snapshot>, outcomes: seq<Outcome>, down: bool) {
    forall i :: 0 <= i < |outcomes| ==>
      Grounded(observed, outcomes[i]) && (outcomes[i].resolution == Unavailable <==> down)
  }

  /** The latest status, if it was read after the command was tracked, does not decide the command. */
  predicate Undecided(t: Tracker, p: Pending) {
    t.latest.Some? && t.observations > p.after ==>
      && !SerialAfter(t.latest.value.echo, p.serial)
      && (t.latest.value.echo == p.serial ==> t.latest.value.status != Done && t.latest.value.status != Error)
  }

  predicate AllUndecided(t: Tracker) {
    forall p :: p in t.pending ==> Undecided(t, p)
  }

  predicate UpToDate(t: Tracker, observed: seq<Snapshot>) {
    && t.observations == |observed|
    && (t.observations == 0 ==> t.latest.None?)
    && (t.observations > 0 ==> t.latest == Some(observed[|observed| - 1]))
  }

  predicate Current(w: World) {
    && UpToDate(w.t, w.observed)
    && (w.t.healthy <==> !Down(w.channel, |w.channel|))
    && (!w.t.healthy ==> w.t.pending == [])
    && AllUndecided(w.t)
    && AllJustified(w.observed, w.channel, w.outcomes, w.reports)
  }

  lemma ResolveGrounded(t: Tracker, observed: seq<Snapshot>, p: Pending, now: int)
    requires UpToDate(t, observed) && ResolveWith(t, p, now) != Unresolved
    ensures Grounded(observed, Outcome(p, ResolveWith(t, p, now), t.observations, now))
    ensures ResolveWith(t, p, now) != Unavailable
  {
  }

  lemma {:induction false} ResolvedEndsNow(t: Tracker, observed: seq<Snapshot>, pending: seq<Pending>, now: int)
    requires UpToDate(t, observed)
    ensures EndsNow(observed, Resolved(t, pending, now), false)
  {
    if pending != [] {
      var n := |pending| - 1;
      ResolvedEndsNow(t, observed, pending[..n], now);
      if ResolveWith(t, pending[n], now) != Unresolved {
        ResolveGrounded(t, observed, pending[n], now);
      }
    }
  }

  /** What stays pending is a part of what was, and was not decided. */
  lemma {:induction false} RemainingUnresolved(t: Tracker, pending: seq<Pending>, now: int)
    ensures forall p :: p in Remaining(t, pending, now) ==> p in pending && ResolveWith(t, p, now) == Unresolved
  {
    if pending != [] {
      hide ResolveWith;
      RemainingUnresolved(t, pending[..|pending| - 1], now);
    }
  }

  lemma JustifiedMore(w: World, observed: seq<Snapshot>, channel: seq<bool>)
    requires AllJustified(w.observed, w.channel, w.outcomes, w.reports)
    requires w.observed <= observed && w.channel <= channel
    ensures AllJustified(observed, channel, w.outcomes, w.reports)
  {
    hide SerialAfter;
    forall i | 0 <= i < |w.outcomes| ensures Justified(observed, channel, w.outcomes[i], w.reports[i]) {
      assert Justified(w.observed, w.channel, w.outcomes[i], w.reports[i]);
    }
  }

  lemma JustifiedAppend(w: World, outcomes: seq<Outcome>)
    requires AllJustified(w.observed, w.channel, w.outcomes, w.reports)
    requires EndsNow(w.observed, outcomes, Down(w.channel, |w.channel|))
    ensures AllJustified(w.observed, w.channel, w.outcomes + outcomes, w.reports + seq(|outcomes|, i => |w.channel|))
  {
    hide Grounded, Down;
    var all, reports := w.outcomes + outcomes, w.reports + seq(|outcomes|, i => |w.channel|);
    forall i | 0 <= i < |all| ensures Justified(w.observed, w.channel, all[i], reports[i]) {
      if i >= |w.outcomes| {
        assert all[i] == outcomes[i - |w.outcomes|] && reports[i] == |w.channel|;
      }
    }
  }

  lemma TrackCurrent(w: World, serial: int, now: int, later: int)
    requires Current(w)
    ensures Current(Next(w, Track(serial, now, later)))
  {
    var p := Filed(w.t, |w.requests|, serial, now);
    if ResolveWith(w.t, p, later) != Unresolved {
      ResolveGrounded(w.t, w.observed, p, later);
    }
    assert Undecided(w.t, p);
    hide ResolveWith, Resolved, Remaining, AllJustified, Undecided;
    assert w.channel + [] == w.channel;
    JustifiedAppend(w, Tracked(w.t, |w.requests|, serial, now, later).1);
  }

  lemma ObserveCurrent(w: World, snapshot: Snapshot, now: int)
    requires Current(w)
    ensures Current(Next(w, Observe(snapshot, now)))
  {
    var t := w.t.(latest := Some(snapshot), healthy := true, observations := w.t.observations + 1);
    var v := w.(observed := w.observed + [snapshot], channel := w.channel + [true]);
    ResolvedEndsNow(t, v.observed, t.pending, now);
    RemainingUnresolved(t, t.pending, now);
    hide Resolved, Remaining, AllJustified, Grounded, SerialAfter;
    JustifiedMore(w, v.observed, v.channel);
    JustifiedAppend(v, Resolved(t, t.pending, now));
  }

  lemma FailCurrent(w: World, now: int)
    requires Current(w)
    ensures Current(Next(w, FailChannel(now)))
  {
    var v := w.(channel := w.channel + [false]);
    hide AllJustified;
    JustifiedMore(w, v.observed, v.channel);
    JustifiedAppend(v, Failures(w.t, now));
  }

  lemma TickCurrent(w: World, now: int)
    requires Current(w)
    ensures Current(Next(w, Tick(now)))
  {
    ResolvedEndsNow(w.t, w.observed, w.t.pending, now);
    RemainingUnresolved(w.t, w.t.pending, now);
    assert !w.t.healthy ==> Resolved(w.t, [], now) == [] && Remaining(w.t, [], now) == [];
    hide Resolved, Remaining, ResolveWith, AllJustified, Grounded, Undecided;
    assert w.channel + [] == w.channel;
    JustifiedAppend(w, Resolved(w.t, w.t.pending, now));
  }

  lemma NextCurrent(w: World, step: Step)
    requires Current(w)
    ensures Current(Next(w, step))
  {
    hide Current, Next;
    match step
    case Track(serial, now, later) => TrackCurrent(w, serial, now, later);
    case Observe(snapshot, now) => ObserveCurrent(w, snapshot, now);
    case FailChannel(now) => FailCurrent(w, now);
    case Tick(now) => TickCurrent(w, now);
  }

  lemma {:induction false} RunCurrent(timeout: nat, steps: seq<Step>)
    ensures Current(Run(timeout, steps))
  {
    if steps != [] {
      RunCurrent(timeout, steps[..|steps| - 1]);
      hide Next, Current;
      NextCurrent(Run(timeout, steps[..|steps| - 1]), steps[|steps| - 1]);
    }
  }

  // ---- Results ----

  /** Over every run, each tracked command is pending or has ended, never both, and has not ended twice. */
  lemma ResolvedExactlyOnce(timeout: nat, steps: seq<Step>, id: nat)
    ensures var w := Run(timeout, steps);
            CountPending(w.t.pending, id) + CountOutcomes(w.outcomes, id) == if id < |w.requests| then 1 else 0
  {
    RunConserves(timeout, steps, id);
  }

  /** Over every run, a command is reported completed, rejected or late only for a reason, and never because of a status
      read before it was tracked; and it is reported unavailable exactly if, when that was decided, no status had been
      read yet or the last report was that the channel failed. */
  lemma OutcomesAreJustified(timeout: nat, steps: seq<Step>, i: nat)
    requires i < |Run(timeout, steps).outcomes|
    ensures var w := Run(timeout, steps);
            && |w.reports| == |w.outcomes|
            && Justified(w.observed, w.channel, w.outcomes[i], w.reports[i])
  {
    RunCurrent(timeout, steps);
  }

  /** Over every run, no command is kept waiting: none is pending that the last status read, if that was after it was
      tracked, has decided; none is pending on a channel that is down; and none is late just after its time was looked
      at. */
  lemma NoneKeptWaiting(timeout: nat, steps: seq<Step>, p: Pending)
    requires p in Run(timeout, steps).t.pending
    ensures var w := Run(timeout, steps);
            && !Down(w.channel, |w.channel|) && p.id < |w.requests|
            && var r := w.requests[p.id];
               && (r.after < |w.observed| ==>
                     var s := w.observed[|w.observed| - 1];
                     && !SerialAfter(s.echo, r.serial)
                     && (s.echo == r.serial ==> s.status != Done && s.status != Error))
               && (steps != [] && (steps[|steps| - 1].Tick? || steps[|steps| - 1].Observe?) ==>
                     timeout == 0 || steps[|steps| - 1].now < r.now + timeout)
  {
    RunCurrent(timeout, steps);
    RunKept(timeout, steps);
    if steps != [] && (steps[|steps| - 1].Tick? || steps[|steps| - 1].Observe?) {
      LookedAt(Run(timeout, steps[..|steps| - 1]), steps[|steps| - 1], p);
    }
    hide Run;
  }

  lemma LookedAt(w: World, step: Step, p: Pending)
    requires (step.Tick? || step.Observe?) && p in Next(w, step).t.pending
    ensures !Late(p, step.now)
  {
    var t := if step.Tick? then w.t
             else w.t.(latest := Some(step.snapshot), healthy := true, observations := w.t.observations + 1);
    RemainingUnresolved(t, t.pending, step.now);
    hide Remaining, Resolved;
  }

  // ---- What a command was tracked with ----

  /** The command is kept under the serial it was tracked with, with its deadline and the statuses read before. */
  predicate Keeps(timeout: nat, requests: seq<Request>, p: Pending) {
    && p.id < |requests|
    && var r := requests[p.id];
       && p.serial == r.serial && p.after == r.after
       && (if timeout == 0 then p.deadline == None else p.deadline == Some(r.now + timeout))
  }

  predicate AllKept(timeout: nat, w: World) {
    && w.t.timeout == timeout && w.t.observations == |w.observed|
    && (forall p :: p in w.t.pending ==> Keeps(timeout, w.requests, p))
    && (forall o :: o in w.outcomes ==> Keeps(timeout, w.requests, o.pending))
  }

  lemma {:induction false} ResolvedWerePending(t: Tracker, pending: seq<Pending>, now: int)
    ensures forall o :: o in Resolved(t, pending, now) ==> o.pending in pending
  {
    if pending != [] {
      hide ResolveWith;
      ResolvedWerePending(t, pending[..|pending| - 1], now);
    }
  }

  lemma KeepsMore(timeout: nat, requests: seq<Request>, r: Request)
    ensures forall p :: Keeps(timeout, requests, p) ==> Keeps(timeout, requests + [r], p)
  {
  }

  lemma NextKept(timeout: nat, w: World, step: Step)
    requires AllKept(timeout, w)
    ensures AllKept(timeout, Next(w, step))
  {
    hide ResolveWith, Resolved, Remaining;
    match step
    case Track(serial, now, later) =>
      var r := Request(serial, now, |w.observed|);
      KeepsMore(timeout, w.requests, r);
      assert Keeps(timeout, w.requests + [r], Filed(w.t, |w.requests|, serial, now));
      hide Keeps;
    case Observe(snapshot, now) =>
      var t := w.t.(latest := Some(snapshot), healthy := true, observations := w.t.observations + 1);
      ResolvedWerePending(t, t.pending, now);
      RemainingUnresolved(t, t.pending, now);
      hide Keeps;
    case FailChannel(now) =>
      hide Keeps;
    case Tick(now) =>
      ResolvedWerePending(w.t, w.t.pending, now);
      RemainingUnresolved(w.t, w.t.pending, now);
      hide Keeps;
  }

  lemma {:induction false} RunKept(timeout: nat, steps: seq<Step>)
    ensures AllKept(timeout, Run(timeout, steps))
  {
    if steps != [] {
      RunKept(timeout, steps[..|steps| - 1]);
      hide AllKept, Next;
      NextKept(timeout, Run(timeout, steps[..|steps| - 1]), steps[|steps| - 1]);
    }
  }

  /** Over every run, whatever is pending or has ended under a number is the command tracked under that number: with its
      serial, its time and the statuses read before it. */
  lemma CommandsAreKept(timeout: nat, steps: seq<Step>)
    ensures var w := Run(timeout, steps);
            && (forall p :: p in w.t.pending ==> Keeps(timeout, w.requests, p))
            && (forall o :: o in w.outcomes ==> Keeps(timeout, w.requests, o.pending))
  {
    RunKept(timeout, steps);
  }

  // ---- What becomes of a command ----

  predicate Overdue(timeout: nat, r: Request, now: int) {
    timeout > 0 && r.now + timeout <= now
  }

  /** What the last status says about a command tracked before it was read. */
  function Verdict(observed: seq<Snapshot>, r: Request): Resolution {
    if |observed| <= r.after then Unresolved
    else
      var s := observed[|observed| - 1];
      if SerialAfter(s.echo, r.serial) then Completed
      else if s.echo != r.serial then Unresolved
      else match s.status
           case Done => Completed
           case Error => Rejected
           case _ => Unresolved
  }

  function Fate(timeout: nat, observed: seq<Snapshot>, r: Request, now: int): Resolution {
    var verdict := Verdict(observed, r);
    if verdict == Unresolved && Overdue(timeout, r, now) then TimedOut else verdict
  }

  lemma ResolvedByFate(timeout: nat, t: Tracker, observed: seq<Snapshot>, requests: seq<Request>, p: Pending, now: int)
    requires UpToDate(t, observed) && t.timeout == timeout && Keeps(timeout, requests, p)
    ensures ResolveWith(t, p, now) == Fate(timeout, observed, requests[p.id], now)
  {
    hide SerialAfter;
  }

  lemma {:induction false} SplitByFate(t: Tracker, pending: seq<Pending>, now: int, p: Pending)
    requires p in pending
    ensures ResolveWith(t, p, now) == Unresolved ==> p in Remaining(t, pending, now)
    ensures ResolveWith(t, p, now) != Unresolved ==>
              Outcome(p, ResolveWith(t, p, now), t.observations, now) in Resolved(t, pending, now)
  {
    hide ResolveWith;
    var n := |pending| - 1;
    if p in pending[..n] {
      SplitByFate(t, pending[..n], now, p);
    }
  }

  /** Over every run, when a status is read or the clock is looked at, each pending command meets its fate, as the last
      status and its deadline decide: it ends so, or stays pending if there is none yet. */
  lemma LookingDecides(timeout: nat, steps: seq<Step>, step: Step, p: Pending)
    requires p in Run(timeout, steps).t.pending && (step.Tick? || step.Observe?)
    ensures var w := Run(timeout, steps);
            var v := Next(w, step);
            && p.id < |w.requests|
            && var fate := Fate(timeout, v.observed, w.requests[p.id], step.now);
               && (p in v.t.pending <==> fate == Unresolved)
               && (fate != Unresolved ==>
                     Outcome(p, fate, |v.observed|, step.now) in v.outcomes[|w.outcomes|..])
  {
    RunKept(timeout, steps);
    RunCurrent(timeout, steps);
    var w := Run(timeout, steps);
    hide Run, SerialAfter, AllJustified, AllUndecided;
    var t := if step.Tick? then w.t
             else w.t.(latest := Some(step.snapshot), healthy := true, observations := w.t.observations + 1);
    var observed := if step.Tick? then w.observed else w.observed + [step.snapshot];
    ResolvedByFate(timeout, t, observed, w.requests, p, step.now);
    SplitByFate(t, t.pending, step.now, p);
    RemainingUnresolved(t, t.pending, step.now);
    hide Resolved, Remaining, ResolveWith, Fate;
    assert Next(w, step).outcomes[|w.outcomes|..] == Resolved(t, t.pending, step.now);
  }

  /** Over every run, a command that is tracked ends at once as unavailable if the channel is down, and as late if its
      time is already up; otherwise it is pending, after all others. */
  lemma TrackingFiles(timeout: nat, steps: seq<Step>, serial: int, now: int, later: int)
    ensures var w := Run(timeout, steps);
            var v := Next(w, Track(serial, now, later));
            var r := Request(serial, now, |w.observed|);
            && v.requests == w.requests + [r]
            && (if Down(w.channel, |w.channel|) || Overdue(timeout, r, later)
                then && v.t == w.t && |v.outcomes| == |w.outcomes| + 1
                     && v.outcomes[|w.outcomes|].pending.id == |w.requests|
                     && v.outcomes[|w.outcomes|].resolution ==
                          (if Down(w.channel, |w.channel|) then Unavailable else TimedOut)
                else && v.outcomes == w.outcomes && |v.t.pending| == |w.t.pending| + 1
                     && v.t.pending[..|w.t.pending|] == w.t.pending
                     && v.t.pending[|w.t.pending|].id == |w.requests|)
  {
    RunKept(timeout, steps);
    RunCurrent(timeout, steps);
    var w := Run(timeout, steps);
    hide Run, AllJustified, AllUndecided, Resolved, Remaining;
    assert w.t.healthy ==> w.t.latest.Some? by {
      if w.t.healthy {
        HealthyMeansRead(timeout, steps);
      }
    }
  }

  lemma {:induction false} HealthyMeansRead(timeout: nat, steps: seq<Step>)
    ensures Run(timeout, steps).t.healthy ==> Run(timeout, steps).t.latest.Some?
  {
    if steps != [] {
      HealthyMeansRead(timeout, steps[..|steps| - 1]);
      hide ResolveWith, Resolved, Remaining;
    }
  }

  /** If serials stand for unbounded counters, a command reported completed has been reached: LinuxCNC echoed it or a
      later one, as long as the two are less than two to the thirty-first apart. */
  lemma CompletedMeansReached(timeout: nat, steps: seq<Step>, i: nat, sent: int, echoed: int)
    requires i < |Run(timeout, steps).outcomes|
    requires var w := Run(timeout, steps);
             var o := w.outcomes[i];
             && o.resolution == Completed && o.pending.id < |w.requests|
             && w.requests[o.pending.id].serial == Wrapped(sent)
             && 1 <= o.observation <= |w.observed| && w.observed[o.observation - 1].echo == Wrapped(echoed)
    requires -0x8000_0000 < echoed - sent < 0x8000_0000
    ensures echoed >= sent
  {
    OutcomesAreJustified(timeout, steps, i);
    CommandsAreKept(timeout, steps);
    var w := Run(timeout, steps);
    assert w.outcomes[i] in w.outcomes;
    hide Run;
    SerialOrder(echoed, sent);
  }
}
