/** The oscilloscope's frame queue: one frame with the consumer, one waiting, and a count of those it replaced. */
module ScopeQueue {
  import opened Options

  /** `capture` stands for the samples. */
  datatype Frame<T> = Frame(generation: nat, skipped: nat, capture: T)

  datatype Queue<T> = Queue(
    owner: string,
    inFlight: Option<Frame<T>>,
    pending: Option<Frame<T>>,
    delivered: bool,
    nextGeneration: nat,
    pendingSkipped: nat,
    skipped: nat)

  function Initial<T>(): Queue<T> {
    Queue("", None, None, false, 1, 0, 0)
  }

  function Acquired<T>(q: Queue<T>, owner: string): (Queue<T>, bool) {
    if owner == "" || (q.owner != "" && q.owner != owner) then (q, false) else (q.(owner := owner), true)
  }

  function Cleared<T>(q: Queue<T>, owner: string): Queue<T> {
    if q.owner != owner then q else q.(inFlight := None, pending := None, delivered := false, pendingSkipped := 0)
  }

  function Released<T>(q: Queue<T>, owner: string): Queue<T> {
    if q.owner != owner then q
    else q.(owner := "", inFlight := None, pending := None, delivered := false, pendingSkipped := 0, skipped := 0)
  }

  function Published<T>(q: Queue<T>, capture: T): Queue<T> {
    if q.owner == "" then q
    else
      var frame := Frame(q.nextGeneration, 0, capture);
      var counted := q.(nextGeneration := q.nextGeneration + 1);
      if q.inFlight.Some? then
        counted.(pending := Some(frame), pendingSkipped := q.pendingSkipped + if q.pending.Some? then 1 else 0)
      else counted.(inFlight := Some(frame), delivered := false)
  }

  function Taken<T>(q: Queue<T>, owner: string): (Queue<T>, Option<Frame<T>>) {
    if q.owner != owner || q.inFlight.None? || q.delivered then (q, None) else (q.(delivered := true), q.inFlight)
  }

  predicate Acknowledges<T>(q: Queue<T>, owner: string, generation: nat) {
    q.owner == owner && q.inFlight.Some? && q.inFlight.value.generation == generation
  }

  function Acknowledged<T>(q: Queue<T>, owner: string, generation: nat): (Queue<T>, Option<Frame<T>>) {
    if !Acknowledges(q, owner, generation) then (q, None)
    else if q.pending.None? then (q.(inFlight := None, delivered := false), None)
    else
      var frame := Some(q.pending.value.(skipped := q.pendingSkipped));
      (q.(inFlight := frame, pending := None, delivered := true, pendingSkipped := 0,
          skipped := q.skipped + q.pendingSkipped),
       frame)
  }

  // ---- The queue object ----

  class ScopeFrameQueue<T> {
    var owner: string
    var inFlight: Option<Frame<T>>
    var pending: Option<Frame<T>>
    var delivered: bool
    var nextGeneration: nat
    var pendingSkipped: nat
    var skipped: nat

    ghost function View(): Queue<T>
      reads this
    {
      Queue(owner, inFlight, pending, delivered, nextGeneration, pendingSkipped, skipped)
    }

    constructor ()
      ensures View() == Initial()
    {
      owner, inFlight, pending, delivered, nextGeneration, pendingSkipped, skipped := "", None, None, false, 1, 0, 0;
    }

    method Acquire(owner: string) returns (ok: bool)
      modifies this
      ensures (View(), ok) == Acquired(old(View()), owner)
    {
      if owner == "" {
        return false;
      }
      if this.owner != "" && this.owner != owner {
        return false;
      }
      this.owner := owner;
      return true;
    }

    method Clear(owner: string)
      modifies this
      ensures View() == Cleared(old(View()), owner)
    {
      if this.owner != owner {
        return;
      }
      inFlight, pending, delivered, pendingSkipped := None, None, false, 0;
    }

    method Release(owner: string)
      modifies this
      ensures View() == Released(old(View()), owner)
    {
      if this.owner != owner {
        return;
      }
      this.owner := "";
      inFlight, pending, delivered, pendingSkipped, skipped := None, None, false, 0, 0;
    }

    method Publish(capture: T) returns (ok: bool)
      modifies this
      ensures View() == Published(old(View()), capture) && ok == (old(owner) != "")
    {
      if owner == "" {
        return false;
      }
      var frame := Frame(nextGeneration, 0, capture);
      nextGeneration := nextGeneration + 1;
      if inFlight.Some? {
        if pending.Some? {
          pendingSkipped := pendingSkipped + 1;
        }
        pending := Some(frame);
      } else {
        delivered := false;
        inFlight := Some(frame);
      }
      return true;
    }

    method Next(owner: string) returns (frame: Option<Frame<T>>)
      modifies this
      ensures (View(), frame) == Taken(old(View()), owner)
    {
      if this.owner != owner || inFlight.None? || delivered {
        return None;
      }
      delivered := true;
      return inFlight;
    }

    method Acknowledge(owner: string, generation: nat) returns (frame: Option<Frame<T>>)
      modifies this
      ensures (View(), frame) == Acknowledged(old(View()), owner, generation)
    {
      if this.owner != owner || inFlight.None? || inFlight.value.generation != generation {
        return None;
      }
      inFlight, delivered := None, false;
      if pending.None? {
        return None;
      }
      var next := pending.value.(skipped := pendingSkipped);
      skipped := skipped + pendingSkipped;
      pendingSkipped := 0;
      inFlight, pending, delivered := Some(next), None, true;
      return inFlight;
    }
  }

  // ---- Runs ----

  /** `published` are all captures, numbered from one; `handed` the frames given to consumers; `taken` those that were
      in flight since the queue was last emptied, and `acked` how many of them were acknowledged. `since` is the
      generation at which it was last emptied. `tenure` are the frames that were in flight since the queue was last
      released. */
  datatype World<T> = World(
    q: Queue<T>,
    published: seq<T>,
    handed: seq<Frame<T>>,
    taken: seq<Frame<T>>,
    acked: nat,
    since: nat,
    tenure: seq<Frame<T>>)

  datatype Step<T> =
    | Acquire(owner: string)
    | Clear(owner: string)
    | Release(owner: string)
    | Publish(capture: T)
    | Take(owner: string)
    | Acknowledge(owner: string, generation: nat)

  function Start<T>(): World<T> {
    World(Initial(), [], [], [], 0, 1, [])
  }

  function Listed<T>(o: Option<T>): seq<T> {
    if o.Some? then [o.value] else []
  }

  function Emptied<T>(w: World<T>, q: Queue<T>): World<T> {
    w.(q := q, taken := [], acked := 0, since := q.nextGeneration)
  }

  function Next<T>(w: World<T>, step: Step<T>): World<T> {
    var q := w.q;
    match step
    case Acquire(owner) => w.(q := Acquired(q, owner).0)
    case Clear(owner) => if q.owner != owner then w else Emptied(w, Cleared(q, owner))
    case Release(owner) => if q.owner != owner then w else Emptied(w, Released(q, owner)).(tenure := [])
    case Publish(capture) =>
      if q.owner == "" then w
      else
        var after := Published(q, capture);
        var started := if q.inFlight.None? then Listed(after.inFlight) else [];
        w.(q := after, published := w.published + [capture], taken := w.taken + started, tenure := w.tenure + started)
    case Take(owner) =>
      var (after, frame) := Taken(q, owner);
      w.(q := after, handed := w.handed + Listed(frame))
    case Acknowledge(owner, generation) =>
      var (after, frame) := Acknowledged(q, owner, generation);
      w.(q := after, handed := w.handed + Listed(frame),
         taken := w.taken + Listed(frame), tenure := w.tenure + Listed(frame),
         acked := w.acked + if Acknowledges(q, owner, generation) then 1 else 0)
  }

  function Run<T>(steps: seq<Step<T>>): World<T> {
    if steps == [] then Start() else Next(Run(steps[..|steps| - 1]), steps[|steps| - 1])
  }

  // ---- Invariant ----

  function One<T>(o: Option<T>): nat {
    if o.Some? then 1 else 0
  }

  function SkippedBy<T>(frames: seq<Frame<T>>): nat {
    if frames == [] then 0 else SkippedBy(frames[..|frames| - 1]) + frames[|frames| - 1].skipped
  }

  /** A frame carries the capture that was published under its number. */
  ghost predicate Authentic<T>(published: seq<T>, frame: Frame<T>) {
    1 <= frame.generation <= |published| && frame.capture == published[frame.generation - 1]
  }

  /** The generation after the frame before position `i`, or where counting began. */
  function Expected<T>(taken: seq<Frame<T>>, since: nat, i: nat): nat
    requires i <= |taken|
  {
    if i == 0 then since else taken[i - 1].generation + 1
  }

  function Reached<T>(taken: seq<Frame<T>>, since: nat): nat {
    Expected(taken, since, |taken|)
  }

  predicate Follows<T>(taken: seq<Frame<T>>, since: nat, i: nat)
    requires i < |taken|
  {
    taken[i].generation == taken[i].skipped + Expected(taken, since, i)
  }

  /** Frames in flight follow one another, each counting those skipped before it. */
  ghost predicate Chained<T>(taken: seq<Frame<T>>, since: nat) {
    forall i :: 0 <= i < |taken| ==> Follows(taken, since, i)
  }

  ghost predicate Increasing<T>(handed: seq<Frame<T>>) {
    forall i, j :: 0 <= i < j < |handed| ==> handed[i].generation < handed[j].generation
  }

  ghost predicate Sound<T>(w: World<T>) {
    var q := w.q;
    && q.nextGeneration == |w.published| + 1 && 1 <= w.since <= q.nextGeneration
    && (q.owner == "" ==> q.inFlight.None?)
    && (q.inFlight.None? ==> q.pending.None? && !q.delivered)
    && (q.pending.None? ==> q.pendingSkipped == 0)
    && Chained(w.taken, w.since)
    && |w.taken| == w.acked + One(q.inFlight)
    && (q.inFlight.Some? ==> w.taken[|w.taken| - 1] == q.inFlight.value && Authentic(w.published, q.inFlight.value))
    && (q.pending.Some? ==> Authentic(w.published, q.pending.value))
    && q.nextGeneration == Reached(w.taken, w.since) + q.pendingSkipped + One(q.pending)
    && (q.pending.Some? ==> q.pending.value.generation == q.nextGeneration - 1)
    && (forall i :: 0 <= i < |w.handed| ==> Authentic(w.published, w.handed[i]))
    && Increasing(w.handed)
    && (forall i :: 0 <= i < |w.handed| ==> w.handed[i].generation < HandedBelow(w))
  }

  /** Everything handed out is older than this. */
  function HandedBelow<T>(w: World<T>): nat {
    if w.q.inFlight.None? then w.q.nextGeneration
    else w.q.inFlight.value.generation + if w.q.delivered then 1 else 0
  }

  lemma ChainedAppend<T>(taken: seq<Frame<T>>, since: nat, frame: Frame<T>)
    requires Chained(taken, since) && frame.generation == Reached(taken, since) + frame.skipped
    ensures Chained(taken + [frame], since)
  {
    var all := taken + [frame];
    forall i | 0 <= i < |all| ensures Follows(all, since, i) {
      if i < |taken| {
        assert Follows(taken, since, i);
      }
    }
  }

  lemma AuthenticMore<T>(published: seq<T>, capture: T)
    ensures Authentic(published + [capture], Frame(|published| + 1, 0, capture))
    ensures forall f: Frame<T> :: Authentic(published, f) ==> Authentic(published + [capture], f)
  {
  }

  lemma PublishKeeps<T>(w: World<T>, capture: T)
    requires Sound(w) && w.q.owner != ""
    ensures Sound(Next(w, Publish(capture)))
  {
    hide Chained, Authentic, Increasing;
    var q, after := w.q, Next(w, Publish(capture));
    var frame := Frame(q.nextGeneration, 0, capture);
    AuthenticMore(w.published, capture);
    if q.inFlight.None? {
      ChainedAppend(w.taken, w.since, frame);
      assert after.taken == w.taken + [frame];
    } else {
      assert after.taken == w.taken;
    }
  }

  lemma AcknowledgeKeeps<T>(w: World<T>, owner: string, generation: nat)
    requires Sound(w) && Acknowledges(w.q, owner, generation)
    ensures Sound(Next(w, Acknowledge(owner, generation)))
  {
    hide Chained, Authentic, Increasing;
    var q, after := w.q, Next(w, Acknowledge(owner, generation));
    if q.pending.Some? {
      var frame := q.pending.value.(skipped := q.pendingSkipped);
      StillAuthentic(w.published, q.pending.value, q.pendingSkipped);
      ChainedAppend(w.taken, w.since, frame);
      HandMore(w.handed, frame);
      assert after.taken == w.taken + [frame] && after.handed == w.handed + [frame];
    } else {
      assert after.taken == w.taken && after.handed == w.handed;
    }
  }

  lemma StillAuthentic<T>(published: seq<T>, frame: Frame<T>, skipped: nat)
    requires Authentic(published, frame)
    ensures Authentic(published, frame.(skipped := skipped))
  {
  }

  lemma HandMore<T>(handed: seq<Frame<T>>, frame: Frame<T>)
    requires Increasing(handed) && forall i :: 0 <= i < |handed| ==> handed[i].generation < frame.generation
    ensures Increasing(handed + [frame])
  {
  }

  lemma TakeKeeps<T>(w: World<T>, owner: string)
    requires Sound(w)
    ensures Sound(Next(w, Take(owner)))
  {
    hide Chained, Authentic, Increasing;
    var (q, frame) := Taken(w.q, owner);
    if frame.Some? {
      HandMore(w.handed, frame.value);
      assert Next(w, Take(owner)).handed == w.handed + [frame.value];
    } else {
      assert Next(w, Take(owner)).handed == w.handed;
    }
  }

  lemma EmptiedKeeps<T>(w: World<T>, q: Queue<T>)
    requires Sound(w) && q.nextGeneration == w.q.nextGeneration
    requires q.inFlight.None? && q.pending.None? && !q.delivered && q.pendingSkipped == 0
    ensures Sound(Emptied(w, q)) && Sound(Emptied(w, q).(tenure := []))
  {
    hide Authentic, Increasing;
  }

  lemma NextSound<T>(w: World<T>, step: Step<T>)
    requires Sound(w)
    ensures Sound(Next(w, step))
  {
    hide Sound;
    match step
    case Acquire(owner) => AcquireKeeps(w, owner);
    case Clear(owner) =>
      if w.q.owner == owner {
        EmptiedKeeps(w, Cleared(w.q, owner));
      }
    case Release(owner) =>
      if w.q.owner == owner {
        EmptiedKeeps(w, Released(w.q, owner));
      }
    case Publish(capture) =>
      if w.q.owner != "" {
        PublishKeeps(w, capture);
      }
    case Take(owner) => TakeKeeps(w, owner);
    case Acknowledge(owner, generation) =>
      if Acknowledges(w.q, owner, generation) {
        AcknowledgeKeeps(w, owner, generation);
      } else {
        assert Next(w, step) == w;
      }
  }

  lemma {:induction false} RunSound<T>(steps: seq<Step<T>>)
    ensures Sound(Run(steps))
  {
    if steps != [] {
      RunSound(steps[..|steps| - 1]);
      hide Sound, Next;
      NextSound(Run(steps[..|steps| - 1]), steps[|steps| - 1]);
    }
  }

  lemma AcquireKeeps<T>(w: World<T>, owner: string)
    requires Sound(w)
    ensures Sound(Next(w, Acquire(owner)))
  {
    hide Chained, Authentic, Increasing;
  }

  // ---- Results ----

  lemma {:induction false} ChainedSpan<T>(taken: seq<Frame<T>>, since: nat)
    requires Chained(taken, since)
    ensures Reached(taken, since) == since + |taken| + SkippedBy(taken)
  {
    if taken != [] {
      var n := |taken| - 1;
      forall i | 0 <= i < n ensures Follows(taken[..n], since, i) {
        assert Follows(taken, since, i);
      }
      ChainedSpan(taken[..n], since);
      assert Follows(taken, since, n);
    }
  }

  /** Over every run, what was published since the queue was last emptied is accounted for: acknowledged, in flight,
      waiting, or skipped, either before a frame that was in flight or before the one waiting. */
  lemma FramesAreConserved<T>(steps: seq<Step<T>>)
    ensures var w := Run(steps);
            w.q.nextGeneration - w.since ==
            w.acked + One(w.q.inFlight) + One(w.q.pending) + SkippedBy(w.taken) + w.q.pendingSkipped
  {
    RunSound(steps);
    ChainedSpan(Run(steps).taken, Run(steps).since);
  }

  /** Over every run, frames that are in flight one after the other tell exactly how many were skipped between them. */
  lemma SkipsAreExact<T>(steps: seq<Step<T>>, i: nat)
    requires i + 1 < |Run(steps).taken|
    ensures var taken := Run(steps).taken;
            taken[i + 1].generation == taken[i].generation + 1 + taken[i + 1].skipped
  {
    RunSound(steps);
    assert Follows(Run(steps).taken, Run(steps).since, i + 1);
  }

  /** Over every run, and across owners, no frame is handed out twice or after a later one, and each carries what was
      published under its number. */
  lemma HandedOutOnce<T>(steps: seq<Step<T>>)
    ensures var w := Run(steps);
            && Increasing(w.handed)
            && forall i :: 0 <= i < |w.handed| ==> Authentic(w.published, w.handed[i])
  {
    RunSound(steps);
  }

  // ---- The counter ----

  /** The latest frames of the tenure are those since the queue was last emptied. */
  ghost predicate EndsWith<T>(tenure: seq<Frame<T>>, taken: seq<Frame<T>>) {
    |taken| <= |tenure| && tenure[|tenure| - |taken|..] == taken
  }

  ghost predicate Counted<T>(w: World<T>) {
    w.q.skipped == SkippedBy(w.tenure) && EndsWith(w.tenure, w.taken)
  }

  lemma SkippedByMore<T>(frames: seq<Frame<T>>, o: Option<Frame<T>>)
    ensures SkippedBy(frames + Listed(o)) == SkippedBy(frames) + if o.Some? then o.value.skipped else 0
  {
    if o.Some? {
      assert (frames + [o.value])[..|frames|] == frames;
    } else {
      assert frames + [] == frames;
    }
  }

  lemma EndsWithMore<T>(tenure: seq<Frame<T>>, taken: seq<Frame<T>>, more: seq<Frame<T>>)
    requires EndsWith(tenure, taken)
    ensures EndsWith(tenure + more, taken + more)
  {
  }

  lemma NextCounted<T>(w: World<T>, step: Step<T>)
    requires Sound(w) && Counted(w)
    ensures Counted(Next(w, step))
  {
    hide SkippedBy, EndsWith, Chained, Authentic, Increasing;
    match step
    case Publish(capture) =>
      if w.q.owner != "" {
        var started := if w.q.inFlight.None? then Published(w.q, capture).inFlight else None;
        SkippedByMore(w.tenure, started);
        EndsWithMore(w.tenure, w.taken, Listed(started));
      }
    case Acknowledge(owner, generation) =>
      var frame := Acknowledged(w.q, owner, generation).1;
      SkippedByMore(w.tenure, frame);
      EndsWithMore(w.tenure, w.taken, Listed(frame));
    case _ =>
      NothingCounted(w.tenure);
  }

  lemma NothingCounted<T>(tenure: seq<Frame<T>>)
    ensures SkippedBy<T>([]) == 0 && EndsWith(tenure, []) && EndsWith<T>([], [])
  {
    assert tenure[|tenure|..] == [];
  }

  lemma {:induction false} RunCounted<T>(steps: seq<Step<T>>)
    ensures Counted(Run(steps))
  {
    if steps != [] {
      RunCounted(steps[..|steps| - 1]);
      RunSound(steps[..|steps| - 1]);
      hide Sound, Counted, Next;
      NextCounted(Run(steps[..|steps| - 1]), steps[|steps| - 1]);
    }
  }

  /** Over every run, the exposed counter is the number of captures that frames put in flight since the owner took the
      queue say they replaced; emptying the queue keeps that number, and only releasing it starts again. */
  lemma SkippedIsTheTenuresTotal<T>(steps: seq<Step<T>>)
    ensures var w := Run(steps);
            && w.q.skipped == SkippedBy(w.tenure)
            && |w.taken| <= |w.tenure| && w.tenure[|w.tenure| - |w.taken|..] == w.taken
  {
    RunCounted(steps);
  }

  // ---- Whose queue it is, and what is handed over ----

  /** The frame in flight has been handed to the consumer. */
  ghost predicate HandedOver<T>(w: World<T>) {
    && w.q.inFlight.Some? && w.handed != []
    && w.handed[|w.handed| - 1].generation == w.q.inFlight.value.generation
  }

  ghost predicate Remembers<T>(w: World<T>) {
    w.q.delivered <==> HandedOver(w)
  }

  lemma NextRemembers<T>(w: World<T>, step: Step<T>)
    requires Sound(w) && Remembers(w)
    ensures Remembers(Next(w, step))
  {
    hide Chained, Authentic, Increasing, EndsWith;
    assert w.handed + [] == w.handed;
  }

  lemma {:induction false} RunRemembers<T>(steps: seq<Step<T>>)
    ensures Remembers(Run(steps))
  {
    if steps != [] {
      RunRemembers(steps[..|steps| - 1]);
      RunSound(steps[..|steps| - 1]);
      hide Sound, Remembers, Next;
      NextRemembers(Run(steps[..|steps| - 1]), steps[|steps| - 1]);
    }
  }

  /** Over every run, the owner is handed the frame in flight exactly if it was not handed over before; an
      acknowledgement counts exactly if it comes from the owner and names the frame in flight, and then the waiting
      frame is handed over at once. Nobody else gets or changes anything. */
  lemma OwnerIsServed<T>(steps: seq<Step<T>>, owner: string, generation: nat)
    ensures var w := Run(steps);
            var after := Next(w, Take(owner));
            if w.q.owner == owner && w.q.inFlight.Some? && !HandedOver(w)
            then after.handed == w.handed + [w.q.inFlight.value] && HandedOver(after)
            else after == w
    ensures var w := Run(steps);
            var after := Next(w, Acknowledge(owner, generation));
            if w.q.owner == owner && w.q.inFlight.Some? && w.q.inFlight.value.generation == generation
            then
              && after.acked == w.acked + 1
              && (if w.q.pending.Some?
                  then && after.q.inFlight.Some? && HandedOver(after) && after.q.pending.None?
                       && after.q.inFlight.value.generation == w.q.pending.value.generation
                       && after.q.inFlight.value.capture == w.q.pending.value.capture
                  else after.q.inFlight.None? && after.handed == w.handed)
            else after == w
  {
    RunRemembers(steps);
    RunSound(steps);
    var w := Run(steps);
    hide Run, Chained, Authentic, Increasing;
    assert w.handed + [] == w.handed && w.taken + [] == w.taken && w.tenure + [] == w.tenure;
  }

  lemma OnlyTheOwnerClears<T>(w: World<T>, owner: string)
    requires Sound(w)
    ensures w.q.owner != owner ==> Next(w, Clear(owner)) == w && Next(w, Release(owner)) == w
    ensures w.q.owner == owner ==>
              && Next(w, Clear(owner)).q.owner == owner && Next(w, Clear(owner)).q.inFlight.None?
              && Next(w, Release(owner)).q.owner == "" && Next(w, Release(owner)).q.inFlight.None?
  {
    hide Chained, Authentic, Increasing;
  }

  lemma CapturesWait<T>(w: World<T>, capture: T)
    requires Sound(w) && Remembers(w)
    ensures var after := Next(w, Publish(capture));
            if w.q.owner == "" then after == w
            else
              && after.published == w.published + [capture] && after.q.owner == w.q.owner
              && (if w.q.inFlight.None?
                  then after.q.inFlight == Some(Frame(|after.published|, 0, capture)) && !HandedOver(after)
                  else && after.q.inFlight == w.q.inFlight && after.q.pending.Some?
                       && after.q.pending.value.capture == capture && (HandedOver(after) <==> HandedOver(w)))
  {
    NextRemembers(w, Publish(capture));
    hide Chained, Authentic, Increasing;
  }

  /** Over every run, a queue is acquired exactly by a named owner while nobody else has it, is cleared and released by
      its owner only, and takes captures only while it is owned: the first goes in flight, not yet handed over, and
      later ones wait, the last replacing those before. */
  lemma OneOwnerAtATime<T>(steps: seq<Step<T>>, owner: string, capture: T)
    ensures var w := Run(steps);
            var (q, ok) := Acquired(w.q, owner);
            && (ok <==> owner != "" && (w.q.owner == "" || w.q.owner == owner))
            && q.owner == (if ok then owner else w.q.owner) && q == w.q.(owner := q.owner)
    ensures var w := Run(steps);
            && (w.q.owner != owner ==> Next(w, Clear(owner)) == w && Next(w, Release(owner)) == w)
            && (w.q.owner == owner ==>
                  && Next(w, Clear(owner)).q.owner == owner && Next(w, Clear(owner)).q.inFlight.None?
                  && Next(w, Release(owner)).q.owner == "" && Next(w, Release(owner)).q.inFlight.None?)
    ensures var w := Run(steps);
            var after := Next(w, Publish(capture));
            if w.q.owner == "" then after == w
            else
              && after.published == w.published + [capture] && after.q.owner == w.q.owner
              && (if w.q.inFlight.None?
                  then after.q.inFlight == Some(Frame(|after.published|, 0, capture)) && !HandedOver(after)
                  else && after.q.inFlight == w.q.inFlight && after.q.pending.Some?
                       && after.q.pending.value.capture == capture && (HandedOver(after) <==> HandedOver(w)))
  {
    RunRemembers(steps);
    RunSound(steps);
    hide Run, Sound, Remembers, HandedOver, Next;
    var w := Run(steps);
    OnlyTheOwnerClears(w, owner);
    CapturesWait(w, capture);
  }
}
