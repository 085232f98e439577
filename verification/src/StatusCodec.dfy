/**
Sparse deltas between machine statuses.

A status is a record of delta units: scalars and small records that are replaced whole,
arrays that are replaced whole, and three lists whose elements are addressed by index.
Units are opaque values of type `V`, compared by `eq`.  The server compares doubles with
the IEEE operator, which is not identity, so `eq` is any relation unless stated otherwise.
*/
module StatusCodec {
  import opened Options

  // ---- Statuses ----

  /** Task scalars and records in the order the encoder copies them. */
  const TASK_SCALARS: nat := 22
  const TASK_RECORDS: nat := 8
  const TRAJECTORY_SCALARS: nat := 29
  const TRAJECTORY_RECORDS: nat := 4

  datatype Task<V> = Task(scalars: seq<V>, records: seq<V>, g5xOffsets: seq<V>, g5xRotations: seq<V>)

  datatype Trajectory<V> = Trajectory(scalars: seq<V>, records: seq<V>, availableAxes: seq<V>)

  datatype Motion<V> = Motion(
    trajectory: Trajectory<V>,
    joints: seq<V>,
    axes: seq<V>,
    spindles: seq<V>,
    digitalInput: seq<V>,
    digitalOutput: seq<V>,
    analogInput: seq<V>,
    analogOutput: seq<V>)

  datatype Io<V> = Io(tool: V, coolant: V, estop: V)

  datatype StatusRecord<V> = Status(
    state: V,
    echoSerialNumber: V,
    debug: V,
    task: Task<V>,
    motion: Motion<V>,
    io: Io<V>,
    toolTable: seq<V>)

  /** Every status carries the same scalars and records. */
  predicate WellFormed<V>(s: StatusRecord<V>) {
    && |s.task.scalars| == TASK_SCALARS && |s.task.records| == TASK_RECORDS
    && |s.motion.trajectory.scalars| == TRAJECTORY_SCALARS
    && |s.motion.trajectory.records| == TRAJECTORY_RECORDS
  }

  // ---- Deltas ----

  /** Repeated fields have no presence of their own: `replace` tells an emptied array from an unchanged one. */
  datatype ArrayDelta<V> = ArrayDelta(replace: bool, values: seq<V>)

  /** An element of an indexed list; without a value the list now ends before `index`. */
  datatype Item<V> = Item(index: nat, value: Option<V>)

  datatype TaskDelta<V> = TaskDelta(
    scalars: seq<Option<V>>,
    records: seq<Option<V>>,
    g5xOffsets: ArrayDelta<V>,
    g5xRotations: ArrayDelta<V>)

  datatype TrajectoryDelta<V> = TrajectoryDelta(
    scalars: seq<Option<V>>,
    records: seq<Option<V>>,
    availableAxes: ArrayDelta<V>)

  datatype MotionDelta<V> = MotionDelta(
    trajectory: Option<TrajectoryDelta<V>>,
    joints: seq<Item<V>>,
    axes: seq<Item<V>>,
    spindles: seq<Item<V>>,
    digitalInput: ArrayDelta<V>,
    digitalOutput: ArrayDelta<V>,
    analogInput: ArrayDelta<V>,
    analogOutput: ArrayDelta<V>)

  datatype IoDelta<V> = IoDelta(tool: Option<V>, coolant: Option<V>, estop: Option<V>)

  datatype StatusDelta<V> = StatusDelta(
    sequence: nat,
    state: Option<V>,
    echoSerialNumber: Option<V>,
    debug: Option<V>,
    task: Option<TaskDelta<V>>,
    motion: Option<MotionDelta<V>>,
    io: Option<IoDelta<V>>,
    toolTable: Option<seq<V>>)

  type Comparison<!V> = (V, V) -> bool

  // ---- Comparing ----

  predicate ArrayEqual<V>(eq: Comparison<V>, a: seq<V>, b: seq<V>) {
    |a| == |b| && forall i :: 0 <= i < |a| ==> eq(a[i], b[i])
  }

  predicate TaskEqual<V>(eq: Comparison<V>, a: Task<V>, b: Task<V>) {
    && ArrayEqual(eq, a.scalars, b.scalars) && ArrayEqual(eq, a.records, b.records)
    && ArrayEqual(eq, a.g5xOffsets, b.g5xOffsets) && ArrayEqual(eq, a.g5xRotations, b.g5xRotations)
  }

  predicate TrajectoryEqual<V>(eq: Comparison<V>, a: Trajectory<V>, b: Trajectory<V>) {
    && ArrayEqual(eq, a.scalars, b.scalars) && ArrayEqual(eq, a.records, b.records)
    && ArrayEqual(eq, a.availableAxes, b.availableAxes)
  }

  predicate MotionEqual<V>(eq: Comparison<V>, a: Motion<V>, b: Motion<V>) {
    && TrajectoryEqual(eq, a.trajectory, b.trajectory)
    && ArrayEqual(eq, a.joints, b.joints) && ArrayEqual(eq, a.axes, b.axes) && ArrayEqual(eq, a.spindles, b.spindles)
    && ArrayEqual(eq, a.digitalInput, b.digitalInput) && ArrayEqual(eq, a.digitalOutput, b.digitalOutput)
    && ArrayEqual(eq, a.analogInput, b.analogInput) && ArrayEqual(eq, a.analogOutput, b.analogOutput)
  }

  predicate IoEqual<V>(eq: Comparison<V>, a: Io<V>, b: Io<V>) {
    eq(a.tool, b.tool) && eq(a.coolant, b.coolant) && eq(a.estop, b.estop)
  }

  predicate StatusEqual<V>(eq: Comparison<V>, a: StatusRecord<V>, b: StatusRecord<V>) {
    && eq(a.state, b.state) && eq(a.echoSerialNumber, b.echoSerialNumber) && eq(a.debug, b.debug)
    && TaskEqual(eq, a.task, b.task) && MotionEqual(eq, a.motion, b.motion) && IoEqual(eq, a.io, b.io)
    && ArrayEqual(eq, a.toolTable, b.toolTable)
  }

  // ---- Taking the difference ----

  function Field<V>(eq: Comparison<V>, p: V, c: V): Option<V> {
    if eq(p, c) then None else Some(c)
  }

  function Fields<V>(eq: Comparison<V>, p: seq<V>, c: seq<V>): (d: seq<Option<V>>)
    requires |p| == |c|
    ensures |d| == |p|
  {
    seq(|p|, i requires 0 <= i < |p| => Field(eq, p[i], c[i]))
  }

  function Array<V>(eq: Comparison<V>, p: seq<V>, c: seq<V>): ArrayDelta<V> {
    if ArrayEqual(eq, p, c) then ArrayDelta(false, []) else ArrayDelta(true, c)
  }

  function Longest<V>(p: seq<V>, c: seq<V>): nat {
    if |p| < |c| then |c| else |p|
  }

  predicate DiffersAt<V>(eq: Comparison<V>, p: seq<V>, c: seq<V>, index: nat) {
    index >= |p| || index >= |c| || !eq(p[index], c[index])
  }

  /** The differing elements at positions below `count`, in order. */
  function Items<V>(eq: Comparison<V>, p: seq<V>, c: seq<V>, count: nat): seq<Item<V>> {
    if count == 0 then []
    else
      var index := count - 1;
      Items(eq, p, c, index) +
      if DiffersAt(eq, p, c, index) then [Item(index, if index < |c| then Some(c[index]) else None)] else []
  }

  function TaskDiff<V>(eq: Comparison<V>, p: Task<V>, c: Task<V>): TaskDelta<V>
    requires |p.scalars| == |c.scalars| && |p.records| == |c.records|
  {
    TaskDelta(Fields(eq, p.scalars, c.scalars), Fields(eq, p.records, c.records),
              Array(eq, p.g5xOffsets, c.g5xOffsets), Array(eq, p.g5xRotations, c.g5xRotations))
  }

  function TrajectoryDiff<V>(eq: Comparison<V>, p: Trajectory<V>, c: Trajectory<V>): TrajectoryDelta<V>
    requires |p.scalars| == |c.scalars| && |p.records| == |c.records|
  {
    TrajectoryDelta(Fields(eq, p.scalars, c.scalars), Fields(eq, p.records, c.records),
                    Array(eq, p.availableAxes, c.availableAxes))
  }

  function MotionDiff<V>(eq: Comparison<V>, p: Motion<V>, c: Motion<V>): MotionDelta<V>
    requires |p.trajectory.scalars| == |c.trajectory.scalars| && |p.trajectory.records| == |c.trajectory.records|
  {
    MotionDelta(
      if TrajectoryEqual(eq, p.trajectory, c.trajectory) then None
      else Some(TrajectoryDiff(eq, p.trajectory, c.trajectory)),
      Items(eq, p.joints, c.joints, Longest(p.joints, c.joints)),
      Items(eq, p.axes, c.axes, Longest(p.axes, c.axes)),
      Items(eq, p.spindles, c.spindles, Longest(p.spindles, c.spindles)),
      Array(eq, p.digitalInput, c.digitalInput), Array(eq, p.digitalOutput, c.digitalOutput),
      Array(eq, p.analogInput, c.analogInput), Array(eq, p.analogOutput, c.analogOutput))
  }

  function IoDiff<V>(eq: Comparison<V>, p: Io<V>, c: Io<V>): IoDelta<V> {
    IoDelta(Field(eq, p.tool, c.tool), Field(eq, p.coolant, c.coolant), Field(eq, p.estop, c.estop))
  }

  /** The delta from `p` to `c`, or nothing when every unit compares equal. */
  function StatusDiff<V>(
      eq: Comparison<V>, p: StatusRecord<V>, c: StatusRecord<V>, sequence: nat): Option<StatusDelta<V>>
    requires WellFormed(p) && WellFormed(c)
  {
    if StatusEqual(eq, p, c) then None
    else Some(StatusDelta(
      sequence,
      Field(eq, p.state, c.state),
      Field(eq, p.echoSerialNumber, c.echoSerialNumber),
      Field(eq, p.debug, c.debug),
      if TaskEqual(eq, p.task, c.task) then None else Some(TaskDiff(eq, p.task, c.task)),
      if MotionEqual(eq, p.motion, c.motion) then None else Some(MotionDiff(eq, p.motion, c.motion)),
      if IoEqual(eq, p.io, c.io) then None else Some(IoDiff(eq, p.io, c.io)),
      if ArrayEqual(eq, p.toolTable, c.toolTable) then None else Some(c.toolTable)))
  }

  // ---- Applying a delta ----

  function PatchFields<V>(w: seq<V>, d: seq<Option<V>>): (r: seq<V>)
    requires |w| == |d|
    ensures |r| == |w|
  {
    seq(|w|, i requires 0 <= i < |w| => d[i].ValueOr(w[i]))
  }

  function PatchArray<V>(w: seq<V>, d: ArrayDelta<V>): seq<V> {
    if d.replace then d.values else w
  }

  function PatchItem<V>(w: seq<V>, item: Item<V>): seq<V> {
    if item.value.None? then
      if item.index < |w| then w[..item.index] else w
    else
      if item.index < |w| then w[item.index := item.value.value]
      else if item.index == |w| then w + [item.value.value]
      else w
  }

  function PatchItems<V>(w: seq<V>, items: seq<Item<V>>): seq<V> {
    if items == [] then w
    else PatchItem(PatchItems(w, items[..|items| - 1]), items[|items| - 1])
  }

  function PatchTask<V>(w: Task<V>, d: TaskDelta<V>): Task<V>
    requires |w.scalars| == |d.scalars| && |w.records| == |d.records|
  {
    Task(PatchFields(w.scalars, d.scalars), PatchFields(w.records, d.records),
         PatchArray(w.g5xOffsets, d.g5xOffsets), PatchArray(w.g5xRotations, d.g5xRotations))
  }

  function PatchTrajectory<V>(w: Trajectory<V>, d: TrajectoryDelta<V>): Trajectory<V>
    requires |w.scalars| == |d.scalars| && |w.records| == |d.records|
  {
    Trajectory(PatchFields(w.scalars, d.scalars), PatchFields(w.records, d.records),
               PatchArray(w.availableAxes, d.availableAxes))
  }

  predicate MotionFits<V>(w: Motion<V>, d: MotionDelta<V>) {
    d.trajectory.Some? ==>
      |w.trajectory.scalars| == |d.trajectory.value.scalars| && |w.trajectory.records| == |d.trajectory.value.records|
  }

  function PatchMotion<V>(w: Motion<V>, d: MotionDelta<V>): Motion<V>
    requires MotionFits(w, d)
  {
    Motion(
      if d.trajectory.None? then w.trajectory else PatchTrajectory(w.trajectory, d.trajectory.value),
      PatchItems(w.joints, d.joints), PatchItems(w.axes, d.axes), PatchItems(w.spindles, d.spindles),
      PatchArray(w.digitalInput, d.digitalInput), PatchArray(w.digitalOutput, d.digitalOutput),
      PatchArray(w.analogInput, d.analogInput), PatchArray(w.analogOutput, d.analogOutput))
  }

  function PatchIo<V>(w: Io<V>, d: IoDelta<V>): Io<V> {
    Io(d.tool.ValueOr(w.tool), d.coolant.ValueOr(w.coolant), d.estop.ValueOr(w.estop))
  }

  /** The delta addresses the scalars and records a status has. */
  predicate Fits<V>(w: StatusRecord<V>, d: StatusDelta<V>) {
    && (d.task.Some? ==> |w.task.scalars| == |d.task.value.scalars| && |w.task.records| == |d.task.value.records|)
    && (d.motion.Some? ==> MotionFits(w.motion, d.motion.value))
  }

  function Patched<V>(w: StatusRecord<V>, d: StatusDelta<V>): StatusRecord<V>
    requires Fits(w, d)
  {
    Status(
      d.state.ValueOr(w.state),
      d.echoSerialNumber.ValueOr(w.echoSerialNumber),
      d.debug.ValueOr(w.debug),
      if d.task.None? then w.task else PatchTask(w.task, d.task.value),
      if d.motion.None? then w.motion else PatchMotion(w.motion, d.motion.value),
      if d.io.None? then w.io else PatchIo(w.io, d.io.value),
      d.toolTable.ValueOr(w.toolTable))
  }

  // ---- Up to the comparison ----

  /** The same value, or one the comparison cannot tell apart. */
  predicate Alike<V(==)>(eq: Comparison<V>, a: V, b: V) {
    a == b || eq(a, b)
  }

  predicate ArrayAlike<V(==)>(eq: Comparison<V>, a: seq<V>, b: seq<V>) {
    |a| == |b| && forall i :: 0 <= i < |a| ==> Alike(eq, a[i], b[i])
  }

  predicate TaskAlike<V(==)>(eq: Comparison<V>, a: Task<V>, b: Task<V>) {
    && ArrayAlike(eq, a.scalars, b.scalars) && ArrayAlike(eq, a.records, b.records)
    && ArrayAlike(eq, a.g5xOffsets, b.g5xOffsets) && ArrayAlike(eq, a.g5xRotations, b.g5xRotations)
  }

  predicate TrajectoryAlike<V(==)>(eq: Comparison<V>, a: Trajectory<V>, b: Trajectory<V>) {
    && ArrayAlike(eq, a.scalars, b.scalars) && ArrayAlike(eq, a.records, b.records)
    && ArrayAlike(eq, a.availableAxes, b.availableAxes)
  }

  predicate MotionAlike<V(==)>(eq: Comparison<V>, a: Motion<V>, b: Motion<V>) {
    && TrajectoryAlike(eq, a.trajectory, b.trajectory)
    && ArrayAlike(eq, a.joints, b.joints) && ArrayAlike(eq, a.axes, b.axes) && ArrayAlike(eq, a.spindles, b.spindles)
    && ArrayAlike(eq, a.digitalInput, b.digitalInput) && ArrayAlike(eq, a.digitalOutput, b.digitalOutput)
    && ArrayAlike(eq, a.analogInput, b.analogInput) && ArrayAlike(eq, a.analogOutput, b.analogOutput)
  }

  predicate IoAlike<V(==)>(eq: Comparison<V>, a: Io<V>, b: Io<V>) {
    Alike(eq, a.tool, b.tool) && Alike(eq, a.coolant, b.coolant) && Alike(eq, a.estop, b.estop)
  }

  predicate StatusAlike<V(==)>(eq: Comparison<V>, a: StatusRecord<V>, b: StatusRecord<V>) {
    && Alike(eq, a.state, b.state) && Alike(eq, a.echoSerialNumber, b.echoSerialNumber)
    && Alike(eq, a.debug, b.debug)
    && TaskAlike(eq, a.task, b.task) && MotionAlike(eq, a.motion, b.motion) && IoAlike(eq, a.io, b.io)
    && ArrayAlike(eq, a.toolTable, b.toolTable)
  }

  ghost predicate Transitive<V(!new)>(eq: Comparison<V>) {
    forall a, b, c :: eq(a, b) && eq(b, c) ==> eq(a, c)
  }

  // ---- Diff and patch are inverse ----

  lemma AlikeTrans<V(!new)>(eq: Comparison<V>, w: V, p: V, c: V)
    requires Transitive(eq) && Alike(eq, w, p) && eq(p, c)
    ensures Alike(eq, w, c)
  {
  }

  lemma ArrayAlikeTrans<V(!new)>(eq: Comparison<V>, w: seq<V>, p: seq<V>, c: seq<V>)
    requires Transitive(eq) && ArrayAlike(eq, w, p) && ArrayEqual(eq, p, c)
    ensures ArrayAlike(eq, w, c)
  {
    forall i | 0 <= i < |w| ensures Alike(eq, w[i], c[i]) {
      AlikeTrans(eq, w[i], p[i], c[i]);
    }
  }

  lemma FieldsRoundTrip<V(!new)>(eq: Comparison<V>, w: seq<V>, p: seq<V>, c: seq<V>)
    requires Transitive(eq) && ArrayAlike(eq, w, p) && |p| == |c|
    ensures ArrayAlike(eq, PatchFields(w, Fields(eq, p, c)), c)
  {
    forall i | 0 <= i < |w| && eq(p[i], c[i]) ensures Alike(eq, w[i], c[i]) {
      AlikeTrans(eq, w[i], p[i], c[i]);
    }
  }

  lemma ArrayRoundTrip<V(!new)>(eq: Comparison<V>, w: seq<V>, p: seq<V>, c: seq<V>)
    requires Transitive(eq) && ArrayAlike(eq, w, p)
    ensures ArrayAlike(eq, PatchArray(w, Array(eq, p, c)), c)
  {
    if ArrayEqual(eq, p, c) {
      ArrayAlikeTrans(eq, w, p, c);
    }
  }

  /** What applying the items below `count` to `w` achieves: of the first `count` elements, those that differ
      are taken from `c` and those that do not, like everything further on, are still the receiver's own. */
  predicate Reached<V(==)>(eq: Comparison<V>, w: seq<V>, p: seq<V>, c: seq<V>, count: nat, r: seq<V>) {
    && |r| == (if count > |c| then |c| else if count < |w| then |w| else count)
    && (forall i :: 0 <= i < |r| && i < count && DiffersAt(eq, p, c, i) ==> r[i] == c[i])
    && (forall i :: 0 <= i < |r| && !(i < count && DiffersAt(eq, p, c, i)) ==> i < |w| && r[i] == w[i])
  }

  lemma ItemAdvances<V>(eq: Comparison<V>, w: seq<V>, p: seq<V>, c: seq<V>, index: nat, r: seq<V>)
    requires Reached(eq, w, p, c, index, r) && index < Longest(w, c) && DiffersAt(eq, p, c, index)
    ensures Reached(eq, w, p, c, index + 1, PatchItem(r, Item(index, if index < |c| then Some(c[index]) else None)))
  {
  }

  lemma {:induction false} ItemsProgress<V>(eq: Comparison<V>, w: seq<V>, p: seq<V>, c: seq<V>, count: nat)
    requires |w| == |p| && count <= Longest(p, c)
    ensures Reached(eq, w, p, c, count, PatchItems(w, Items(eq, p, c, count)))
  {
    if count > 0 {
      var index := count - 1;
      var before := Items(eq, p, c, index);
      ItemsProgress(eq, w, p, c, index);
      if DiffersAt(eq, p, c, index) {
        var item := Item(index, if index < |c| then Some(c[index]) else None);
        assert Items(eq, p, c, count) == before + [item];
        assert (before + [item])[..|before|] == before;
        ItemAdvances(eq, w, p, c, index, PatchItems(w, before));
      } else {
        assert Items(eq, p, c, count) == before;
      }
    }
  }

  lemma ItemsRoundTrip<V(!new)>(eq: Comparison<V>, w: seq<V>, p: seq<V>, c: seq<V>)
    requires Transitive(eq) && ArrayAlike(eq, w, p)
    ensures ArrayAlike(eq, PatchItems(w, Items(eq, p, c, Longest(p, c))), c)
  {
    ItemsProgress(eq, w, p, c, Longest(p, c));
    forall i | 0 <= i < |c| && !DiffersAt(eq, p, c, i) ensures Alike(eq, w[i], c[i]) {
      AlikeTrans(eq, w[i], p[i], c[i]);
    }
  }

  lemma TaskRoundTrip<V(!new)>(eq: Comparison<V>, w: Task<V>, p: Task<V>, c: Task<V>)
    requires Transitive(eq) && TaskAlike(eq, w, p) && |p.scalars| == |c.scalars| && |p.records| == |c.records|
    ensures TaskAlike(eq, if TaskEqual(eq, p, c) then w else PatchTask(w, TaskDiff(eq, p, c)), c)
  {
    if TaskEqual(eq, p, c) {
      ArrayAlikeTrans(eq, w.scalars, p.scalars, c.scalars);
      ArrayAlikeTrans(eq, w.records, p.records, c.records);
      ArrayAlikeTrans(eq, w.g5xOffsets, p.g5xOffsets, c.g5xOffsets);
      ArrayAlikeTrans(eq, w.g5xRotations, p.g5xRotations, c.g5xRotations);
    } else {
      FieldsRoundTrip(eq, w.scalars, p.scalars, c.scalars);
      FieldsRoundTrip(eq, w.records, p.records, c.records);
      ArrayRoundTrip(eq, w.g5xOffsets, p.g5xOffsets, c.g5xOffsets);
      ArrayRoundTrip(eq, w.g5xRotations, p.g5xRotations, c.g5xRotations);
    }
  }

  lemma TrajectoryRoundTrip<V(!new)>(eq: Comparison<V>, w: Trajectory<V>, p: Trajectory<V>, c: Trajectory<V>)
    requires Transitive(eq) && TrajectoryAlike(eq, w, p) && |p.scalars| == |c.scalars| && |p.records| == |c.records|
    ensures TrajectoryAlike(
              eq, if TrajectoryEqual(eq, p, c) then w else PatchTrajectory(w, TrajectoryDiff(eq, p, c)), c)
  {
    if TrajectoryEqual(eq, p, c) {
      ArrayAlikeTrans(eq, w.scalars, p.scalars, c.scalars);
      ArrayAlikeTrans(eq, w.records, p.records, c.records);
      ArrayAlikeTrans(eq, w.availableAxes, p.availableAxes, c.availableAxes);
    } else {
      FieldsRoundTrip(eq, w.scalars, p.scalars, c.scalars);
      FieldsRoundTrip(eq, w.records, p.records, c.records);
      ArrayRoundTrip(eq, w.availableAxes, p.availableAxes, c.availableAxes);
    }
  }

  lemma MotionRoundTrip<V(!new)>(eq: Comparison<V>, w: Motion<V>, p: Motion<V>, c: Motion<V>)
    requires Transitive(eq) && MotionAlike(eq, w, p)
    requires |p.trajectory.scalars| == |c.trajectory.scalars| && |p.trajectory.records| == |c.trajectory.records|
    ensures MotionFits(w, MotionDiff(eq, p, c))
    ensures MotionAlike(eq, PatchMotion(w, MotionDiff(eq, p, c)), c)
    ensures MotionEqual(eq, p, c) ==> MotionAlike(eq, w, c)
  {
    TrajectoryRoundTrip(eq, w.trajectory, p.trajectory, c.trajectory);
    ItemsRoundTrip(eq, w.joints, p.joints, c.joints);
    ItemsRoundTrip(eq, w.axes, p.axes, c.axes);
    ItemsRoundTrip(eq, w.spindles, p.spindles, c.spindles);
    ArrayRoundTrip(eq, w.digitalInput, p.digitalInput, c.digitalInput);
    ArrayRoundTrip(eq, w.digitalOutput, p.digitalOutput, c.digitalOutput);
    ArrayRoundTrip(eq, w.analogInput, p.analogInput, c.analogInput);
    ArrayRoundTrip(eq, w.analogOutput, p.analogOutput, c.analogOutput);
    if MotionEqual(eq, p, c) {
      ArrayAlikeTrans(eq, w.joints, p.joints, c.joints);
      ArrayAlikeTrans(eq, w.axes, p.axes, c.axes);
      ArrayAlikeTrans(eq, w.spindles, p.spindles, c.spindles);
    }
  }

  lemma IoRoundTrip<V(!new)>(eq: Comparison<V>, w: Io<V>, p: Io<V>, c: Io<V>)
    requires Transitive(eq) && IoAlike(eq, w, p)
    ensures IoAlike(eq, PatchIo(w, IoDiff(eq, p, c)), c)
    ensures IoEqual(eq, p, c) ==> IoAlike(eq, w, c)
  {
  }

  /** The receiver's copy after an optional delta; no delta leaves it as it is. */
  function Updated<V>(w: StatusRecord<V>, d: Option<StatusDelta<V>>): StatusRecord<V>
    requires d.Some? ==> Fits(w, d.value)
  {
    if d.None? then w else Patched(w, d.value)
  }

  /** Whatever the receiver holds for `p`, up to the comparison, applying the delta from `p` to `c` gives it `c`,
      up to the comparison. */
  lemma StatusRoundTrip<V(!new)>(
      eq: Comparison<V>, w: StatusRecord<V>, p: StatusRecord<V>, c: StatusRecord<V>, sequence: nat)
    requires Transitive(eq) && WellFormed(p) && WellFormed(c) && StatusAlike(eq, w, p)
    ensures var d := StatusDiff(eq, p, c, sequence);
            (d.Some? ==> Fits(w, d.value)) && StatusAlike(eq, Updated(w, d), c)
  {
    TaskRoundTrip(eq, w.task, p.task, c.task);
    MotionRoundTrip(eq, w.motion, p.motion, c.motion);
    IoRoundTrip(eq, w.io, p.io, c.io);
    ArrayRoundTrip(eq, w.toolTable, p.toolTable, c.toolTable);
  }

  // ---- When the copy is exact ----

  /** The comparison tells the two arrays apart element by element. */
  predicate ArrayExact<V(==)>(eq: Comparison<V>, p: seq<V>, c: seq<V>) {
    forall i :: 0 <= i < |p| && i < |c| && eq(p[i], c[i]) ==> p[i] == c[i]
  }

  /** An array replaced whole is exact if it is replaced or was the same. */
  predicate WholeExact<V(==)>(eq: Comparison<V>, p: seq<V>, c: seq<V>) {
    ArrayEqual(eq, p, c) ==> p == c
  }

  predicate FieldExact<V(==)>(eq: Comparison<V>, p: V, c: V) {
    eq(p, c) ==> p == c
  }

  predicate TaskExact<V(==)>(eq: Comparison<V>, p: Task<V>, c: Task<V>) {
    && ArrayExact(eq, p.scalars, c.scalars) && ArrayExact(eq, p.records, c.records)
    && WholeExact(eq, p.g5xOffsets, c.g5xOffsets) && WholeExact(eq, p.g5xRotations, c.g5xRotations)
  }

  predicate TrajectoryExact<V(==)>(eq: Comparison<V>, p: Trajectory<V>, c: Trajectory<V>) {
    && ArrayExact(eq, p.scalars, c.scalars) && ArrayExact(eq, p.records, c.records)
    && WholeExact(eq, p.availableAxes, c.availableAxes)
  }

  predicate MotionExact<V(==)>(eq: Comparison<V>, p: Motion<V>, c: Motion<V>) {
    && TrajectoryExact(eq, p.trajectory, c.trajectory)
    && ArrayExact(eq, p.joints, c.joints) && ArrayExact(eq, p.axes, c.axes) && ArrayExact(eq, p.spindles, c.spindles)
    && WholeExact(eq, p.digitalInput, c.digitalInput) && WholeExact(eq, p.digitalOutput, c.digitalOutput)
    && WholeExact(eq, p.analogInput, c.analogInput) && WholeExact(eq, p.analogOutput, c.analogOutput)
  }

  /** No unit that differs between the statuses is one the comparison calls equal. */
  predicate StatusExact<V(==)>(eq: Comparison<V>, p: StatusRecord<V>, c: StatusRecord<V>) {
    && FieldExact(eq, p.state, c.state) && FieldExact(eq, p.echoSerialNumber, c.echoSerialNumber)
    && FieldExact(eq, p.debug, c.debug)
    && TaskExact(eq, p.task, c.task) && MotionExact(eq, p.motion, c.motion)
    && FieldExact(eq, p.io.tool, c.io.tool) && FieldExact(eq, p.io.coolant, c.io.coolant)
    && FieldExact(eq, p.io.estop, c.io.estop)
    && WholeExact(eq, p.toolTable, c.toolTable)
  }

  lemma FieldsExactIff<V>(eq: Comparison<V>, p: seq<V>, c: seq<V>)
    requires |p| == |c|
    ensures PatchFields(p, Fields(eq, p, c)) == c <==> ArrayExact(eq, p, c)
    ensures ArrayEqual(eq, p, c) ==> (p == c <==> ArrayExact(eq, p, c))
  {
    var r := PatchFields(p, Fields(eq, p, c));
    if ArrayExact(eq, p, c) {
      assert forall i :: 0 <= i < |c| ==> r[i] == c[i];
    } else {
      var i :| 0 <= i < |p| && i < |c| && eq(p[i], c[i]) && p[i] != c[i];
      assert r[i] != c[i];
    }
  }

  lemma ItemsExactIff<V>(eq: Comparison<V>, p: seq<V>, c: seq<V>)
    ensures PatchItems(p, Items(eq, p, c, Longest(p, c))) == c <==> ArrayExact(eq, p, c)
    ensures ArrayEqual(eq, p, c) ==> (p == c <==> ArrayExact(eq, p, c))
  {
    var r := PatchItems(p, Items(eq, p, c, Longest(p, c)));
    ItemsProgress(eq, p, p, c, Longest(p, c));
    if ArrayExact(eq, p, c) {
      assert forall i :: 0 <= i < |c| ==> r[i] == c[i];
    } else {
      var i :| 0 <= i < |p| && i < |c| && eq(p[i], c[i]) && p[i] != c[i];
      assert r[i] != c[i];
    }
  }

  lemma TaskExactIff<V>(eq: Comparison<V>, p: Task<V>, c: Task<V>)
    requires |p.scalars| == |c.scalars| && |p.records| == |c.records|
    ensures (if TaskEqual(eq, p, c) then p else PatchTask(p, TaskDiff(eq, p, c))) == c <==> TaskExact(eq, p, c)
  {
    FieldsExactIff(eq, p.scalars, c.scalars);
    FieldsExactIff(eq, p.records, c.records);
  }

  lemma TrajectoryExactIff<V>(eq: Comparison<V>, p: Trajectory<V>, c: Trajectory<V>)
    requires |p.scalars| == |c.scalars| && |p.records| == |c.records|
    ensures (if TrajectoryEqual(eq, p, c) then p else PatchTrajectory(p, TrajectoryDiff(eq, p, c))) == c
            <==> TrajectoryExact(eq, p, c)
  {
    FieldsExactIff(eq, p.scalars, c.scalars);
    FieldsExactIff(eq, p.records, c.records);
  }

  lemma MotionExactIff<V>(eq: Comparison<V>, p: Motion<V>, c: Motion<V>)
    requires |p.trajectory.scalars| == |c.trajectory.scalars| && |p.trajectory.records| == |c.trajectory.records|
    ensures PatchMotion(p, MotionDiff(eq, p, c)) == c <==> MotionExact(eq, p, c)
    ensures MotionEqual(eq, p, c) ==> (p == c <==> MotionExact(eq, p, c))
  {
    TrajectoryExactIff(eq, p.trajectory, c.trajectory);
    ItemsExactIff(eq, p.joints, c.joints);
    ItemsExactIff(eq, p.axes, c.axes);
    ItemsExactIff(eq, p.spindles, c.spindles);
  }

  /** Applying the delta between two statuses to the first gives exactly the second if and only if the comparison
      tells apart every unit in which they differ. */
  lemma StatusExactIff<V>(eq: Comparison<V>, p: StatusRecord<V>, c: StatusRecord<V>, sequence: nat)
    requires WellFormed(p) && WellFormed(c)
    ensures var d := StatusDiff(eq, p, c, sequence);
            (d.Some? ==> Fits(p, d.value)) && (Updated(p, d) == c <==> StatusExact(eq, p, c))
  {
    hide ArrayEqual, ArrayExact, TaskExact, MotionExact, Fields, PatchFields, PatchTask, PatchMotion;
    TaskExactIff(eq, p.task, c.task);
    MotionExactIff(eq, p.motion, c.motion);
  }

  ghost predicate Identity<V(!new)>(eq: Comparison<V>) {
    forall a, b :: eq(a, b) <==> a == b
  }

  lemma ArrayIdentity<V(!new)>(eq: Comparison<V>, p: seq<V>, c: seq<V>)
    requires Identity(eq)
    ensures ArrayEqual(eq, p, c) <==> p == c
    ensures ArrayExact(eq, p, c)
  {
  }

  lemma MotionIdentity<V(!new)>(eq: Comparison<V>, p: Motion<V>, c: Motion<V>)
    requires Identity(eq)
    ensures MotionEqual(eq, p, c) <==> p == c
    ensures MotionExact(eq, p, c)
  {
    ArrayIdentity(eq, p.trajectory.scalars, c.trajectory.scalars);
    ArrayIdentity(eq, p.trajectory.records, c.trajectory.records);
    ArrayIdentity(eq, p.trajectory.availableAxes, c.trajectory.availableAxes);
    ArrayIdentity(eq, p.joints, c.joints);
    ArrayIdentity(eq, p.axes, c.axes);
    ArrayIdentity(eq, p.spindles, c.spindles);
    ArrayIdentity(eq, p.digitalInput, c.digitalInput);
    ArrayIdentity(eq, p.digitalOutput, c.digitalOutput);
    ArrayIdentity(eq, p.analogInput, c.analogInput);
    ArrayIdentity(eq, p.analogOutput, c.analogOutput);
  }

  lemma TaskIdentity<V(!new)>(eq: Comparison<V>, p: Task<V>, c: Task<V>)
    requires Identity(eq)
    ensures TaskEqual(eq, p, c) <==> p == c
    ensures TaskExact(eq, p, c)
  {
    ArrayIdentity(eq, p.scalars, c.scalars);
    ArrayIdentity(eq, p.records, c.records);
    ArrayIdentity(eq, p.g5xOffsets, c.g5xOffsets);
    ArrayIdentity(eq, p.g5xRotations, c.g5xRotations);
  }

  /** With an exact comparison, diff and patch are inverse for all pairs, and there is no delta exactly when the
      statuses are the same. */
  lemma IdentityRoundTrip<V(!new)>(eq: Comparison<V>, p: StatusRecord<V>, c: StatusRecord<V>, sequence: nat)
    requires Identity(eq) && WellFormed(p) && WellFormed(c)
    ensures var d := StatusDiff(eq, p, c, sequence);
            (d.Some? ==> Fits(p, d.value)) && Updated(p, d) == c && (d.None? <==> p == c)
  {
    StatusExactIff(eq, p, c, sequence);
    TaskIdentity(eq, p.task, c.task);
    MotionIdentity(eq, p.motion, c.motion);
    ArrayIdentity(eq, p.toolTable, c.toolTable);
  }

  /** Doubles as the wire compares them. */
  datatype Double = Number(value: real) | NegativeZero | NaN

  predicate IeeeEqual(a: Double, b: Double) {
    && a != NaN && b != NaN
    && (if a == NegativeZero then 0.0 else a.value) == (if b == NegativeZero then 0.0 else b.value)
  }

  lemma IeeeTransitive()
    ensures Transitive(IeeeEqual)
  {
  }

  predicate NoNaN(s: StatusRecord<Double>) {
    && StatusEqual(IeeeEqual, s, s)
  }

  /** A scalar that goes from zero to negative zero is not sent, so the receiver keeps a status that differs from
      a fresh snapshot. */
  lemma SignedZeroIsNotSent(p: StatusRecord<Double>, index: nat, sequence: nat)
    requires WellFormed(p) && NoNaN(p) && index < TASK_SCALARS && p.task.scalars[index] == Number(0.0)
    ensures var c := p.(task := p.task.(scalars := p.task.scalars[index := NegativeZero]));
            StatusDiff(IeeeEqual, p, c, sequence) == None && c != p
  {
    var c := p.(task := p.task.(scalars := p.task.scalars[index := NegativeZero]));
    assert c.task.scalars[index] != p.task.scalars[index];
  }

  /** A status holding a NaN never compares equal to itself, so an unchanged status still produces a delta,
      and that delta changes nothing. */
  lemma NaNIsAlwaysSent(p: StatusRecord<Double>, sequence: nat)
    requires WellFormed(p) && !NoNaN(p)
    ensures var d := StatusDiff(IeeeEqual, p, p, sequence);
            d.Some? && Fits(p, d.value) && Patched(p, d.value) == p
  {
    hide Patched;
    StatusExactIff(IeeeEqual, p, p, sequence);
    assert StatusExact(IeeeEqual, p, p);
  }

  // ---- The encoder ----

  method CopyField<V>(eq: Comparison<V>, previous: V, current: V) returns (target: Option<V>, changed: bool)
    ensures target == Field(eq, previous, current)
    ensures changed <==> !eq(previous, current)
  {
    target, changed := None, false;
    if !eq(previous, current) {
      target, changed := Some(current), true;
    }
  }

  method CopyIoDelta<V>(eq: Comparison<V>, previous: Io<V>, current: Io<V>) returns (target: IoDelta<V>, changed: bool)
    ensures target == IoDiff(eq, previous, current)
    ensures changed <==> !IoEqual(eq, previous, current)
  {
    var tool, toolChanged := CopyField(eq, previous.tool, current.tool);
    var coolant, coolantChanged := CopyField(eq, previous.coolant, current.coolant);
    var estop, estopChanged := CopyField(eq, previous.estop, current.estop);
    target := IoDelta(tool, coolant, estop);
    changed := toolChanged || coolantChanged || estopChanged;
  }

  method CopyFields<V>(eq: Comparison<V>, previous: seq<V>, current: seq<V>)
    returns (target: seq<Option<V>>, changed: bool)
    requires |previous| == |current|
    ensures target == Fields(eq, previous, current)
    ensures changed <==> !ArrayEqual(eq, previous, current)
  {
    target, changed := [], false;
    for index := 0 to |previous|
      invariant |target| == index
      invariant forall i :: 0 <= i < index ==> target[i] == Field(eq, previous[i], current[i])
      invariant changed <==> exists i :: 0 <= i < index && !eq(previous[i], current[i])
    {
      if !eq(previous[index], current[index]) {
        target := target + [Some(current[index])];
        changed := true;
      } else {
        target := target + [None];
      }
    }
  }

  method CompareArrays<V>(eq: Comparison<V>, left: seq<V>, right: seq<V>) returns (equal: bool)
    ensures equal <==> ArrayEqual(eq, left, right)
  {
    if |left| != |right| {
      return false;
    }
    for index := 0 to |left|
      invariant forall i :: 0 <= i < index ==> eq(left[i], right[i])
    {
      if !eq(left[index], right[index]) {
        return false;
      }
    }
    return true;
  }

  method CopyArray<V>(eq: Comparison<V>, previous: seq<V>, current: seq<V>)
    returns (target: ArrayDelta<V>, changed: bool)
    ensures target == Array(eq, previous, current)
    ensures changed <==> !ArrayEqual(eq, previous, current)
  {
    var equal := CompareArrays(eq, previous, current);
    if equal {
      return ArrayDelta(false, []), false;
    }
    return ArrayDelta(true, current), true;
  }

  method CopyIndexed<V>(eq: Comparison<V>, previous: seq<V>, current: seq<V>)
    returns (target: seq<Item<V>>, changed: bool)
    ensures target == Items(eq, previous, current, Longest(previous, current))
    ensures changed <==> !ArrayEqual(eq, previous, current)
  {
    target, changed := [], false;
    var count := if |previous| < |current| then |current| else |previous|;
    for index := 0 to count
      invariant target == Items(eq, previous, current, index)
      invariant changed <==> exists i :: 0 <= i < index && DiffersAt(eq, previous, current, i)
    {
      if index >= |previous| || index >= |current| || !eq(previous[index], current[index]) {
        target := target + [Item(index, if index < |current| then Some(current[index]) else None)];
        changed := true;
        assert DiffersAt(eq, previous, current, index);
      }
    }
    if |previous| < |current| {
      assert DiffersAt(eq, previous, current, |previous|);
    } else if |current| < |previous| {
      assert DiffersAt(eq, previous, current, |current|);
    } else {
      assert forall i :: 0 <= i < |previous| ==>
          (DiffersAt(eq, previous, current, i) <==> !eq(previous[i], current[i]));
    }
  }

  method CopyTaskDelta<V>(eq: Comparison<V>, previous: Task<V>, current: Task<V>)
    returns (target: TaskDelta<V>, changed: bool)
    requires |previous.scalars| == |current.scalars| && |previous.records| == |current.records|
    ensures target == TaskDiff(eq, previous, current)
    ensures changed <==> !TaskEqual(eq, previous, current)
  {
    var scalars, scalarsChanged := CopyFields(eq, previous.scalars, current.scalars);
    var records, recordsChanged := CopyFields(eq, previous.records, current.records);
    var offsets, offsetsChanged := CopyArray(eq, previous.g5xOffsets, current.g5xOffsets);
    var rotations, rotationsChanged := CopyArray(eq, previous.g5xRotations, current.g5xRotations);
    target := TaskDelta(scalars, records, offsets, rotations);
    changed := scalarsChanged || recordsChanged || offsetsChanged || rotationsChanged;
  }

  method CopyTrajectoryDelta<V>(eq: Comparison<V>, previous: Trajectory<V>, current: Trajectory<V>)
    returns (target: TrajectoryDelta<V>, changed: bool)
    requires |previous.scalars| == |current.scalars| && |previous.records| == |current.records|
    ensures target == TrajectoryDiff(eq, previous, current)
    ensures changed <==> !TrajectoryEqual(eq, previous, current)
  {
    var scalars, scalarsChanged := CopyFields(eq, previous.scalars, current.scalars);
    var records, recordsChanged := CopyFields(eq, previous.records, current.records);
    var axes, axesChanged := CopyArray(eq, previous.availableAxes, current.availableAxes);
    target := TrajectoryDelta(scalars, records, axes);
    changed := scalarsChanged || recordsChanged || axesChanged;
  }

  method CopyMotionDelta<V>(eq: Comparison<V>, previous: Motion<V>, current: Motion<V>)
    returns (target: MotionDelta<V>, changed: bool)
    requires |previous.trajectory.scalars| == |current.trajectory.scalars|
    requires |previous.trajectory.records| == |current.trajectory.records|
    ensures target == MotionDiff(eq, previous, current)
    ensures changed <==> !MotionEqual(eq, previous, current)
  {
    var trajectory, trajectoryChanged := CopyTrajectoryDelta(eq, previous.trajectory, current.trajectory);
    var joints, jointsChanged := CopyIndexed(eq, previous.joints, current.joints);
    var axes, axesChanged := CopyIndexed(eq, previous.axes, current.axes);
    var spindles, spindlesChanged := CopyIndexed(eq, previous.spindles, current.spindles);
    var digitalInput, digitalInputChanged := CopyArray(eq, previous.digitalInput, current.digitalInput);
    var digitalOutput, digitalOutputChanged := CopyArray(eq, previous.digitalOutput, current.digitalOutput);
    var analogInput, analogInputChanged := CopyArray(eq, previous.analogInput, current.analogInput);
    var analogOutput, analogOutputChanged := CopyArray(eq, previous.analogOutput, current.analogOutput);
    target := MotionDelta(if trajectoryChanged then Some(trajectory) else None, joints, axes, spindles,
                          digitalInput, digitalOutput, analogInput, analogOutput);
    changed := trajectoryChanged || jointsChanged || axesChanged || spindlesChanged ||
               digitalInputChanged || digitalOutputChanged || analogInputChanged || analogOutputChanged;
  }

  method MakeStatusDelta<V>(eq: Comparison<V>, previous: StatusRecord<V>, current: StatusRecord<V>, sequence: nat)
    returns (delta: Option<StatusDelta<V>>)
    requires WellFormed(previous) && WellFormed(current)
    ensures delta == StatusDiff(eq, previous, current, sequence)
  {
    var state, stateChanged := CopyField(eq, previous.state, current.state);
    var serial, serialChanged := CopyField(eq, previous.echoSerialNumber, current.echoSerialNumber);
    var debug, debugChanged := CopyField(eq, previous.debug, current.debug);
    var task, taskChanged := CopyTaskDelta(eq, previous.task, current.task);
    var motion, motionChanged := CopyMotionDelta(eq, previous.motion, current.motion);
    var io, ioChanged := CopyIoDelta(eq, previous.io, current.io);
    var sameTools := CompareArrays(eq, previous.toolTable, current.toolTable);
    if !(stateChanged || serialChanged || debugChanged || taskChanged || motionChanged || ioChanged || !sameTools) {
      return None;
    }
    return Some(StatusDelta(
      sequence, state, serial, debug,
      if taskChanged then Some(task) else None,
      if motionChanged then Some(motion) else None,
      if ioChanged then Some(io) else None,
      if sameTools then None else Some(current.toolTable)));
  }
}
