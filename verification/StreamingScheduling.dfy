/**
  The streaming batch scheduler and its one-slot deferred closer, as a transition system.

  Every transition is one critical section under the scheduler's mutex, or one turn of the
  closer thread's loop. This file states what the transitions do and proves what every run keeps;
  `StreamingBatchScheduler.dfy` carries them out on mutable objects.
 */
module StreamingScheduling {
  import opened Common

  datatype Options = Options(maxBatchSize: nat, timeoutMicros: int, numThreads: nat)

  ghost predicate ValidOptions(o: Options) {
    o.maxBatchSize > 0 && o.numThreads > 0
  }

  datatype Task = Task(id: nat, size: nat)

  /** A started batch: its tasks, whether it is closed, whether its callback has returned. */
  datatype BatchView = BatchView(tasks: seq<Task>, closed: bool, finished: bool)

  /** A deferred request to close the batch with sequence number `batchNum` at `time`. */
  datatype Closure = Closure(time: nat, batchNum: nat)

  /** The closer: its one slot, the newest time it was given, and the closer thread's own task. */
  datatype Closer = Closer(updated: Option<Closure>, lastTime: nat, current: Option<Closure>, firing: bool)

  /**
    `batches` holds every batch ever started, in sequence-number order; the last is the open one
    and `|batches|` is its number. `accepted` and `newest` are histories: the accepted tasks, and
    the newest closure handed to the closer.
   */
  datatype State = State(
    batches: seq<BatchView>,
    inProgress: int,
    closer: Closer,
    now: nat,
    accepted: seq<Task>,
    newest: Option<Closure>
  )

  const INITIAL_STATE := State([], 0, Closer(None, 0, None, false), 0, [], None)

  // ---------- Transitions ----------

  function SizeOf(tasks: seq<Task>): nat {
    if tasks == [] then 0 else SizeOf(tasks[..|tasks| - 1]) + tasks[|tasks| - 1].size
  }

  function CloseLast(batches: seq<BatchView>): seq<BatchView> {
    if batches == [] then [] else batches[|batches| - 1 := batches[|batches| - 1].(closed := true)]
  }

  function StartNewBatch(s: State): State {
    s.(batches := CloseLast(s.batches) + [BatchView([], false, false)], inProgress := s.inProgress + 1)
  }

  /** The closer's `Schedule`: the new closure supersedes whatever is in the slot. */
  function Supersede(c: Closer, closure: Closure): Closer {
    c.(updated := Some(closure), lastTime := closure.time)
  }

  function ScheduleClose(s: State, time: nat): State {
    var closure := Closure(time, |s.batches|);
    s.(closer := Supersede(s.closer, closure), newest := Some(closure))
  }

  predicate FitsOpenBatch(o: Options, s: State, t: Task) {
    |s.batches| > 0 && SizeOf(s.batches[|s.batches| - 1].tasks) + t.size <= o.maxBatchSize
  }

  function AddTask(s: State, t: Task): State
    requires |s.batches| > 0
  {
    var n := |s.batches| - 1;
    s.(batches := s.batches[n := s.batches[n].(tasks := s.batches[n].tasks + [t])],
       accepted := s.accepted + [t])
  }

  /** Arms the closer when the open batch is about to get its first task. */
  function Arm(o: Options, s: State): (r: State)
    requires |s.batches| > 0
    ensures r.batches == s.batches
  {
    if o.timeoutMicros > 0 && s.batches[|s.batches| - 1].tasks == []
    then ScheduleClose(s, s.now + o.timeoutMicros) else s
  }

  /** A batch that has exactly reached the size limit is replaced at once. */
  function Rollover(o: Options, s: State): State
    requires |s.batches| > 0
  {
    if SizeOf(s.batches[|s.batches| - 1].tasks) == o.maxBatchSize then StartNewBatch(s) else s
  }

  function Accept(o: Options, s: State, t: Task): State
    requires |s.batches| > 0
  {
    Rollover(o, AddTask(Arm(o, s), t))
  }

  /** The open batch a task of this size would go to, started on demand. */
  function Prepare(o: Options, s: State, t: Task): (r: State)
    ensures |r.batches| > 0
  {
    if FitsOpenBatch(o, s, t) then s else StartNewBatch(s)
  }

  function Schedule(o: Options, s: State, t: Task, now: nat): (State, Status) {
    if t.size > o.maxBatchSize then
      (s.(now := now), Error(InvalidArgument, "Task size is larger than maximum batch size"))
    else
      var ready := Prepare(o, s.(now := now), t);
      if ready.inProgress > o.numThreads then
        (ready, Error(Unavailable, "all batch threads are busy"))
      else
        (Accept(o, ready, t), OK)
  }

  /** The body of a closure: close the batch it names if that one is still open. */
  function RunClosure(s: State, c: Closure): State {
    if |s.batches| == c.batchNum then StartNewBatch(s) else s
  }

  /**
    One turn of the closer thread. It sleeps until its task is due, then picks up a newer task if
    there is one, else commits to its own (`firing`) and runs it in a later turn, so that other
    transitions may come between the check and the run.
   */
  function CloserTurn(s: State, now: nat): State {
    var c := s.closer;
    var s := s.(now := now);
    if c.firing && c.current.Some? then
      RunClosure(s, c.current.value).(closer := c.(current := None, firing := false))
    else if c.current.Some? && c.current.value.time > now then s
    else if c.updated.Some? then s.(closer := c.(current := c.updated, updated := None))
    else s.(closer := c.(firing := c.current.Some?))
  }

  /** A batch callback has returned, which it does only once its batch is closed. */
  function FinishBatch(s: State, i: nat): State
    requires i < |s.batches|
  {
    s.(batches := s.batches[i := s.batches[i].(finished := true)], inProgress := s.inProgress - 1)
  }

  function Capacity(o: Options, s: State): int {
    if s.inProgress > o.numThreads then 0
    else (o.numThreads - s.inProgress) * o.maxBatchSize + OpenSlot(o, s)
  }

  function OpenSlot(o: Options, s: State): int {
    if s.batches == [] then 0 else o.maxBatchSize - SizeOf(s.batches[|s.batches| - 1].tasks)
  }

  ghost predicate IsSchedule(o: Options, s: State, s': State) {
    exists t, now: nat :: s.now <= now && s' == Schedule(o, s, t, now).0
  }

  ghost predicate IsTurn(s: State, s': State) {
    exists now: nat :: s.now <= now && s' == CloserTurn(s, now)
  }

  ghost predicate IsFinish(s: State, s': State) {
    exists i: nat :: i < |s.batches| && s.batches[i].closed && !s.batches[i].finished && s' == FinishBatch(s, i)
  }

  ghost predicate Next(o: Options, s: State, s': State) {
    IsSchedule(o, s, s') || IsTurn(s, s') || IsFinish(s, s')
  }

  ghost predicate IsRun(o: Options, run: seq<State>) {
    && |run| > 0 && run[0] == INITIAL_STATE
    && forall i :: 0 <= i < |run| - 1 ==> Next(o, run[i], run[i + 1])
  }

  // ---------- What every run keeps ----------

  function Flatten(batches: seq<BatchView>): seq<Task> {
    if batches == [] then [] else Flatten(batches[..|batches| - 1]) + batches[|batches| - 1].tasks
  }

  function Unfinished(batches: seq<BatchView>): nat {
    if batches == [] then 0
    else Unfinished(batches[..|batches| - 1]) + if batches[|batches| - 1].finished then 0 else 1
  }

  function UnfinishedNonEmpty(batches: seq<BatchView>): nat {
    if batches == [] then 0
    else
      var b := batches[|batches| - 1];
      UnfinishedNonEmpty(batches[..|batches| - 1]) + if b.finished || b.tasks == [] then 0 else 1
  }

  ghost predicate OpenIsNonEmpty(s: State) {
    |s.batches| > 0 && s.batches[|s.batches| - 1].tasks != []
  }

  /** Only the last batch is open; a closed batch holds tasks; nothing outgrows the size limit. */
  ghost predicate Shape(o: Options, s: State) {
    forall i :: 0 <= i < |s.batches| ==>
      && s.batches[i].closed == (i < |s.batches| - 1)
      && (s.batches[i].finished ==> s.batches[i].closed)
      && (s.batches[i].closed ==> s.batches[i].tasks != [])
      && SizeOf(s.batches[i].tasks) <= o.maxBatchSize
  }

  /** A batch that reaches the size limit does not stay open. */
  ghost predicate OpenHasRoom(o: Options, s: State) {
    |s.batches| > 0 ==> OpenSlot(o, s) > 0
  }

  /** Nothing accepted is lost, duplicated or reordered. */
  ghost predicate Conserved(s: State) {
    Flatten(s.batches) == s.accepted
  }

  ghost predicate Occupancy(o: Options, s: State) {
    && s.inProgress == Unfinished(s.batches)
    && s.inProgress <= o.numThreads + 1
    && (s.inProgress == o.numThreads + 1 ==> !OpenIsNonEmpty(s))
  }

  ghost predicate Waiting(c: Closer, closure: Closure) {
    c.updated == Some(closure) || (c.updated == None && c.current == Some(closure))
  }

  /** What may sit in the closer: stale closures, or the one aimed at the non-empty open batch. */
  ghost predicate Targets(s: State, c: Option<Closure>) {
    c.Some? ==>
      && c.value.batchNum <= |s.batches|
      && (c.value.batchNum == |s.batches| ==> OpenIsNonEmpty(s))
      && c.value.time <= s.closer.lastTime
  }

  /**
    The one-slot closer loses no deadline: a non-empty open batch always has the newest closure,
    still waiting and aimed at exactly that batch, and a superseded one aims at a closed batch.
   */
  ghost predicate TimerSlot(o: Options, s: State) {
    && (o.timeoutMicros <= 0 ==> s.closer.updated == None && s.closer.current == None)
    && (o.timeoutMicros > 0 ==> s.closer.lastTime <= s.now + o.timeoutMicros)
    && (s.newest.Some? ==> s.newest.value.time == s.closer.lastTime)
    && (o.timeoutMicros > 0 && OpenIsNonEmpty(s) ==>
          s.newest.Some? && s.newest.value.batchNum == |s.batches| && Waiting(s.closer, s.newest.value))
    && Targets(s, s.closer.updated) && Targets(s, s.closer.current)
    && (s.closer.updated.Some? && s.closer.current.Some? ==>
          s.closer.current.value.batchNum < s.closer.updated.value.batchNum)
    && (s.closer.firing ==> s.closer.current.Some? && s.closer.current.value.time <= s.now)
  }

  ghost predicate Inv(o: Options, s: State) {
    Shape(o, s) && OpenHasRoom(o, s) && Conserved(s) && Occupancy(o, s) && TimerSlot(o, s)
  }

  lemma FlattenUpdateLast(batches: seq<BatchView>, b: BatchView)
    requires |batches| > 0
    ensures Flatten(batches[|batches| - 1 := b]) == Flatten(batches[..|batches| - 1]) + b.tasks
    ensures Unfinished(batches[|batches| - 1 := b])
         == Unfinished(batches[..|batches| - 1]) + if b.finished then 0 else 1
  {
    var updated := batches[|batches| - 1 := b];
    assert updated[..|batches| - 1] == batches[..|batches| - 1];
  }

  lemma AppendBatch(batches: seq<BatchView>, b: BatchView)
    ensures Flatten(batches + [b]) == Flatten(batches) + b.tasks
    ensures Unfinished(batches + [b]) == Unfinished(batches) + if b.finished then 0 else 1
  {
    assert (batches + [b])[..|batches|] == batches;
  }

  lemma {:induction false} FinishUpdates(batches: seq<BatchView>, i: nat)
    requires i < |batches| && !batches[i].finished
    ensures Flatten(batches[i := batches[i].(finished := true)]) == Flatten(batches)
    ensures Unfinished(batches[i := batches[i].(finished := true)]) == Unfinished(batches) - 1
  {
    var updated := batches[i := batches[i].(finished := true)];
    var n := |batches| - 1;
    if i == n {
      FlattenUpdateLast(batches, updated[n]);
    } else {
      FinishUpdates(batches[..n], i);
      assert updated[..n] == batches[..n][i := batches[i].(finished := true)];
    }
  }

  lemma CloseLastKeeps(batches: seq<BatchView>)
    ensures |CloseLast(batches)| == |batches|
    ensures Flatten(CloseLast(batches)) == Flatten(batches)
    ensures Unfinished(CloseLast(batches)) == Unfinished(batches)
  {
    if batches != [] {
      FlattenUpdateLast(batches, CloseLast(batches)[|batches| - 1]);
    }
  }

  /** Starting a batch is safe whenever a thread is free and there is no open batch or it holds tasks. */
  lemma StartNewBatchKeepsInv(o: Options, s: State)
    requires ValidOptions(o) && Shape(o, s) && Conserved(s) && TimerSlot(o, s)
    requires s.inProgress == Unfinished(s.batches) <= o.numThreads
    requires s.batches == [] || OpenIsNonEmpty(s)
    ensures Inv(o, StartNewBatch(s)) && !OpenIsNonEmpty(StartNewBatch(s))
  {
    CloseLastKeeps(s.batches);
    AppendBatch(CloseLast(s.batches), BatchView([], false, false));
  }

  lemma AddTaskKeepsBatches(o: Options, s: State, t: Task)
    requires Shape(o, s) && Conserved(s) && Occupancy(o, s) && FitsOpenBatch(o, s, t) && s.inProgress <= o.numThreads
    ensures var r := AddTask(s, t); Shape(o, r) && Conserved(r) && Occupancy(o, r) && OpenIsNonEmpty(r)
    ensures OpenSlot(o, AddTask(s, t)) == OpenSlot(o, s) - t.size
  {
    var n := |s.batches| - 1;
    SizeGrows(s.batches[n].tasks, t);
    AddTaskFlattens(s, t);
  }

  lemma SizeGrows(tasks: seq<Task>, t: Task)
    ensures SizeOf(tasks + [t]) == SizeOf(tasks) + t.size
  {
    assert (tasks + [t])[..|tasks|] == tasks;
  }

  lemma AddTaskFlattens(s: State, t: Task)
    requires s.batches != []
    ensures Flatten(AddTask(s, t).batches) == Flatten(s.batches) + [t]
    ensures Unfinished(AddTask(s, t).batches) == Unfinished(s.batches)
  {
    var n := |s.batches| - 1;
    FlattenUpdateLast(s.batches, s.batches[n].(tasks := s.batches[n].tasks + [t]));
    assert s.batches[n := s.batches[n]] == s.batches;
    FlattenUpdateLast(s.batches, s.batches[n]);
  }

  lemma ArmedAddKeepsTimer(o: Options, s: State, t: Task)
    requires ValidOptions(o) && Inv(o, s) && |s.batches| > 0
    ensures TimerSlot(o, AddTask(Arm(o, s), t))
  {}

  lemma AcceptKeepsInv(o: Options, s: State, t: Task)
    requires ValidOptions(o) && Inv(o, s) && FitsOpenBatch(o, s, t) && s.inProgress <= o.numThreads
    ensures Inv(o, Accept(o, s, t))
    ensures Accept(o, s, t).accepted == s.accepted + [t]
  {
    AddTaskKeepsBatches(o, Arm(o, s), t);
    ArmedAddKeepsTimer(o, s, t);
    RolloverKeepsInv(o, AddTask(Arm(o, s), t));
  }

  lemma RolloverKeepsInv(o: Options, s: State)
    requires ValidOptions(o) && Shape(o, s) && Conserved(s) && Occupancy(o, s) && TimerSlot(o, s)
    requires OpenIsNonEmpty(s) && s.inProgress <= o.numThreads
    ensures Inv(o, Rollover(o, s)) && Rollover(o, s).accepted == s.accepted
  {
    if OpenSlot(o, s) == 0 {
      StartNewBatchKeepsInv(o, s);
    }
  }

  lemma PrepareKeepsInv(o: Options, s: State, t: Task)
    requires ValidOptions(o) && Inv(o, s) && t.size <= o.maxBatchSize
    ensures Inv(o, Prepare(o, s, t)) && FitsOpenBatch(o, Prepare(o, s, t), t)
    ensures Prepare(o, s, t).accepted == s.accepted
  {
    if !FitsOpenBatch(o, s, t) {
      StartNewBatchKeepsInv(o, s);
    }
  }

  lemma ScheduleKeepsInv(o: Options, s: State, t: Task, now: nat)
    requires ValidOptions(o) && Inv(o, s) && s.now <= now
    ensures Inv(o, Schedule(o, s, t, now).0)
  {
    var s1 := s.(now := now);
    assert Inv(o, s1);
    if t.size <= o.maxBatchSize {
      PrepareKeepsInv(o, s1, t);
      if Prepare(o, s1, t).inProgress <= o.numThreads {
        AcceptKeepsInv(o, Prepare(o, s1, t), t);
      }
    }
  }

  /** What the implementation of `Schedule` relies on: its occupancy check and the closer's monotonicity check. */
  ghost predicate ChecksPass(o: Options, s: State, t: Task) {
    && (o.timeoutMicros > 0 ==> s.closer.lastTime <= s.now + o.timeoutMicros)
    && (t.size <= o.maxBatchSize && Prepare(o, s, t).inProgress > o.numThreads ==> !OpenIsNonEmpty(Prepare(o, s, t)))
  }

  lemma InvImpliesChecks(o: Options, s: State, t: Task, now: nat)
    requires ValidOptions(o) && Inv(o, s) && s.now <= now
    ensures ChecksPass(o, s.(now := now), t)
  {
    assert Inv(o, s.(now := now));
    if t.size <= o.maxBatchSize {
      PrepareKeepsInv(o, s.(now := now), t);
    }
  }

  lemma FinishBatchKeepsInv(o: Options, s: State, i: nat)
    requires ValidOptions(o) && Inv(o, s) && i < |s.batches| && s.batches[i].closed && !s.batches[i].finished
    ensures Inv(o, FinishBatch(s, i))
  {
    FinishUpdates(s.batches, i);
  }

  lemma CloserTurnKeepsInv(o: Options, s: State, now: nat)
    requires ValidOptions(o) && Inv(o, s) && s.now <= now
    ensures Inv(o, CloserTurn(s, now))
  {
    var c := s.closer;
    var s1 := s.(now := now);
    if c.firing && c.current.Some? && |s.batches| == c.current.value.batchNum {
      StartNewBatchKeepsInv(o, s1);
    }
  }

  lemma NextKeepsInv(o: Options, s: State, s': State)
    requires ValidOptions(o) && Inv(o, s) && Next(o, s, s')
    ensures Inv(o, s')
  {
    if t, now: nat :| s.now <= now && s' == Schedule(o, s, t, now).0 {
      ScheduleKeepsInv(o, s, t, now);
    } else if now: nat :| s.now <= now && s' == CloserTurn(s, now) {
      CloserTurnKeepsInv(o, s, now);
    } else {
      var i: nat :| i < |s.batches| && s.batches[i].closed && !s.batches[i].finished && s' == FinishBatch(s, i);
      FinishBatchKeepsInv(o, s, i);
    }
  }

  /** The step invariant holds in every state of every run. */
  lemma {:induction false} RunKeepsInv(o: Options, run: seq<State>, i: nat)
    requires ValidOptions(o) && IsRun(o, run) && i < |run|
    ensures Inv(o, run[i])
  {
    if i > 0 {
      RunKeepsInv(o, run, i - 1);
      NextKeepsInv(o, run[i - 1], run[i]);
    }
  }

  // ---------- Main results ----------

  /**
    Thread occupancy. With N threads at most N+1 batches are unfinished; when there are N+1 the open
    one is empty, so tasks wait in at most N batches and each of those has a thread of its own.
   */
  lemma OccupancyHolds(o: Options, run: seq<State>, i: nat)
    requires ValidOptions(o) && IsRun(o, run) && i < |run|
    ensures Unfinished(run[i].batches) <= o.numThreads + 1
    ensures Unfinished(run[i].batches) == o.numThreads + 1 ==> !OpenIsNonEmpty(run[i])
    ensures UnfinishedNonEmpty(run[i].batches) <= o.numThreads
    ensures run[i].inProgress == Unfinished(run[i].batches)
  {
    RunKeepsInv(o, run, i);
    var s := run[i];
    NonEmptyAtMost(s.batches);
    if s.batches != [] {
      NonEmptyAtMost(s.batches[..|s.batches| - 1]);
    }
  }

  lemma {:induction false} NonEmptyAtMost(batches: seq<BatchView>)
    ensures UnfinishedNonEmpty(batches) <= Unfinished(batches)
  {
    if batches != [] {
      NonEmptyAtMost(batches[..|batches| - 1]);
    }
  }

  /** Conservation and order, the size bound, and that no batch is ever closed empty. */
  lemma ConservationHolds(o: Options, run: seq<State>, i: nat)
    requires ValidOptions(o) && IsRun(o, run) && i < |run|
    ensures Flatten(run[i].batches) == run[i].accepted
    ensures forall b :: b in run[i].batches ==> SizeOf(b.tasks) <= o.maxBatchSize
    ensures forall b :: b in run[i].batches && b.closed ==> b.tasks != []
  {
    RunKeepsInv(o, run, i);
  }

  /**
    A non-empty open batch has the newest closure waiting for it. A closure that the closer thread holds
    while a newer one is in the slot aims at a closed batch, and firing any but the newest closes nothing.
   */
  ghost predicate SlotIsEnough(o: Options, s: State) {
    && (OpenIsNonEmpty(s) ==>
          s.newest.Some? && s.newest.value.batchNum == |s.batches| && Waiting(s.closer, s.newest.value))
    && (s.closer.updated.Some? && s.closer.current.Some? ==> s.closer.current.value.batchNum < |s.batches|)
    && (s.closer.firing && s.closer.current != s.newest ==> forall now :: CloserTurn(s, now).batches == s.batches)
    && s.closer.lastTime <= s.now + o.timeoutMicros
    && (forall n :: 0 <= n < |s.batches| - 1 ==> s.batches[n].closed)
  }

  lemma InvMeansSlotIsEnough(o: Options, s: State)
    requires Inv(o, s) && o.timeoutMicros > 0
    ensures SlotIsEnough(o, s)
  {}

  /**
    One timer slot is enough in every state of every run. Close times never decrease, and a closure is
    overwritten in the slot only once the batch that it was to close is closed.
   */
  lemma TimerSlotHolds(o: Options, run: seq<State>, i: nat)
    requires ValidOptions(o) && o.timeoutMicros > 0 && IsRun(o, run) && i < |run|
    ensures SlotIsEnough(o, run[i])
    ensures i > 0 ==> run[i - 1].closer.lastTime <= run[i].closer.lastTime
    ensures i > 0 && Overwritten(run[i - 1].closer, run[i].closer) ==>
      run[i - 1].closer.updated.value.batchNum < |run[i].batches|
  {
    RunKeepsInv(o, run, i);
    InvMeansSlotIsEnough(o, run[i]);
    if i > 0 {
      RunKeepsInv(o, run, i - 1);
      CloserTimeIsMonotone(o, run[i - 1], run[i]);
      OverwrittenIsStale(o, run[i - 1], run[i]);
    }
  }

  /** The slot held a closure, and now holds another one. */
  ghost predicate Overwritten(c: Closer, c': Closer) {
    c.updated.Some? && c'.updated.Some? && c.updated != c'.updated
  }

  /** A closure is only overwritten in the slot once the batch it was to close is closed. */
  lemma OverwrittenIsStale(o: Options, s: State, s': State)
    requires ValidOptions(o) && Inv(o, s) && Next(o, s, s')
    ensures Overwritten(s.closer, s'.closer) ==> s.closer.updated.value.batchNum < |s'.batches|
  {
    if t, now: nat :| s.now <= now && s' == Schedule(o, s, t, now).0 {
      ScheduleOverwritesStale(o, s, t, now);
    }
  }

  lemma ScheduleOverwritesStale(o: Options, s: State, t: Task, now: nat)
    requires Inv(o, s)
    ensures var r := Schedule(o, s, t, now).0;
      Overwritten(s.closer, r.closer) ==> s.closer.updated.value.batchNum < |r.batches|
  {
    var ready := Prepare(o, s.(now := now), t);
    PrepareKeepsCloser(o, s.(now := now), t);
    var armed := AddTask(Arm(o, ready), t);
    RolloverKeepsCloser(o, armed);
    assert Overwritten(s.closer, Arm(o, ready).closer) ==> !OpenIsNonEmpty(ready);
  }

  lemma PrepareKeepsCloser(o: Options, s: State, t: Task)
    ensures Prepare(o, s, t).closer == s.closer
    ensures Prepare(o, s, t) == s || |Prepare(o, s, t).batches| == |s.batches| + 1
  {}

  lemma RolloverKeepsCloser(o: Options, s: State)
    requires |s.batches| > 0
    ensures Rollover(o, s).closer == s.closer && |Rollover(o, s).batches| >= |s.batches|
  {}

  lemma CloserTimeIsMonotone(o: Options, s: State, s': State)
    requires ValidOptions(o) && Inv(o, s) && Next(o, s, s')
    ensures s.closer.lastTime <= s'.closer.lastTime
  {
    if t, now: nat :| s.now <= now && s' == Schedule(o, s, t, now).0 {
      ScheduleSetsCloserTime(o, s, t, now);
    }
  }

  lemma ScheduleSetsCloserTime(o: Options, s: State, t: Task, now: nat)
    ensures var r := Schedule(o, s, t, now).0;
      r.closer.lastTime == s.closer.lastTime || (o.timeoutMicros > 0 && r.closer.lastTime == now + o.timeoutMicros)
  {
    var ready := Prepare(o, s.(now := now), t);
    assert ready.closer == s.closer && ready.now == now;
    assert Rollover(o, AddTask(Arm(o, ready), t)).closer == Arm(o, ready).closer;
  }

  function CloserTurns(s: State, now: nat, turns: nat): State
    decreases turns
  {
    if turns == 0 then s else CloserTurns(CloserTurn(s, now), now, turns - 1)
  }

  /** How many turns the closer thread still needs before it has run the newest closure. */
  function TurnsLeft(s: State): nat {
    if s.closer.updated == None then if s.closer.firing then 1 else 2
    else if s.closer.firing then 4 else 3
  }

  /** The newest closure is due and aims at the non-empty open batch. */
  ghost predicate Due(o: Options, s: State, now: nat) {
    Inv(o, s) && o.timeoutMicros > 0 && OpenIsNonEmpty(s) && s.now <= now && s.closer.lastTime <= now
  }

  lemma DueTurn(o: Options, s: State, now: nat)
    requires ValidOptions(o) && Due(o, s, now)
    ensures var r := CloserTurn(s, now);
      if TurnsLeft(s) == 1 then r.batches == StartNewBatch(s).batches && r.accepted == s.accepted
      else Due(o, r, now) && TurnsLeft(r) == TurnsLeft(s) - 1 && r.batches == s.batches && r.accepted == s.accepted
  {
    CloserTurnKeepsInv(o, s, now);
  }

  lemma {:induction false} DueTurns(o: Options, s: State, now: nat)
    requires ValidOptions(o) && Due(o, s, now)
    ensures var r := CloserTurns(s, now, TurnsLeft(s));
      r.batches == StartNewBatch(s).batches && r.accepted == s.accepted
    decreases TurnsLeft(s)
  {
    DueTurn(o, s, now);
    var r := CloserTurn(s, now);
    if TurnsLeft(s) > 1 {
      DueTurns(o, r, now);
    } else {
      assert CloserTurns(s, now, 1) == CloserTurns(r, now, 0);
    }
  }

  /**
    If nothing else happens, at most four turns of the closer thread close a non-empty open batch whose
    deadline has passed, with its tasks intact, whatever the thread was doing before.
   */
  lemma QuietTimeoutClosesBatch(o: Options, run: seq<State>, now: nat)
    requires ValidOptions(o) && o.timeoutMicros > 0 && IsRun(o, run)
    requires var s := run[|run| - 1]; OpenIsNonEmpty(s) && s.now <= now
    ensures var s := run[|run| - 1]; s.newest.Some? && TurnsLeft(s) <= 4
    ensures run[|run| - 1].newest.value.time <= now ==>
      var s := run[|run| - 1];
      var r, n := CloserTurns(s, now, TurnsLeft(s)), |s.batches|;
      |r.batches| == n + 1 && r.batches[n - 1] == s.batches[n - 1].(closed := true) && r.accepted == s.accepted
  {
    var s := run[|run| - 1];
    RunKeepsInv(o, run, |run| - 1);
    if s.newest.value.time <= now {
      DueTurns(o, s, now);
    }
  }

  /** How many of the steps from `i` to `j` are turns of the closer thread. */
  ghost function Turns(run: seq<State>, i: nat, j: nat): nat
    requires i <= j < |run|
  {
    if i == j then 0 else Turns(run, i, j - 1) + if IsTurn(run[j - 1], run[j]) then 1 else 0
  }

  /** Batch number `n` is open, holds `tasks` at least, and is overdue. */
  ghost predicate Overdue(o: Options, s: State, n: nat, tasks: seq<Task>) {
    Due(o, s, s.now) && |s.batches| == n && tasks <= s.batches[n - 1].tasks
  }

  ghost predicate ClosedWith(s: State, n: nat, tasks: seq<Task>) {
    0 < n < |s.batches| && s.batches[n - 1].closed && tasks <= s.batches[n - 1].tasks
  }

  /** One step closer to being closed; `fewer` says that a turn has been used up. */
  ghost predicate Approaches(o: Options, s: State, s': State, n: nat, tasks: seq<Task>, fewer: bool) {
    || ClosedWith(s', n, tasks)
    || (Overdue(o, s', n, tasks) && TurnsLeft(s') <= TurnsLeft(s) - if fewer then 1 else 0)
  }

  lemma TurnApproaches(o: Options, s: State, now: nat, n: nat, tasks: seq<Task>)
    requires ValidOptions(o) && Overdue(o, s, n, tasks) && s.now <= now
    ensures Approaches(o, s, CloserTurn(s, now), n, tasks, true)
  {
    DueTurn(o, s, now);
  }

  lemma FinishApproaches(o: Options, s: State, i: nat, n: nat, tasks: seq<Task>)
    requires ValidOptions(o) && Overdue(o, s, n, tasks)
    requires i < |s.batches| && s.batches[i].closed && !s.batches[i].finished
    ensures Approaches(o, s, FinishBatch(s, i), n, tasks, false)
  {
    FinishBatchKeepsInv(o, s, i);
  }

  lemma ScheduleApproaches(o: Options, s: State, t: Task, now: nat, n: nat, tasks: seq<Task>)
    requires ValidOptions(o) && Overdue(o, s, n, tasks) && s.now <= now
    ensures Approaches(o, s, Schedule(o, s, t, now).0, n, tasks, false)
  {
    ScheduleKeepsInv(o, s, t, now);
    var later := s.(now := now);
    if t.size <= o.maxBatchSize {
      if FitsOpenBatch(o, later, t) {
        assert Prepare(o, later, t) == later;
        if s.inProgress <= o.numThreads {
          AcceptKeepsOthers(o, later, t);
        }
      } else {
        assert Prepare(o, later, t) == StartNewBatch(later);
        OverdueIsClosed(o, later, n, tasks);
        AcceptKeepsOthers(o, StartNewBatch(later), t);
      }
    }
  }

  lemma OverdueIsClosed(o: Options, s: State, n: nat, tasks: seq<Task>)
    requires s.batches != [] && |s.batches| == n && tasks <= s.batches[n - 1].tasks
    ensures ClosedWith(StartNewBatch(s), n, tasks)
  {
    StartClosesLast(s);
  }

  lemma StartClosesLast(s: State)
    requires s.batches != []
    ensures var n, r := |s.batches|, StartNewBatch(s);
      |r.batches| == n + 1 && r.batches[n - 1] == s.batches[n - 1].(closed := true)
      && forall i :: 0 <= i < n - 1 ==> r.batches[i] == s.batches[i]
  {}

  /** Accepting a task adds it to the open batch, which may close it; no other batch changes. */
  lemma AcceptKeepsOthers(o: Options, s: State, t: Task)
    requires s.batches != []
    ensures var n, r := |s.batches|, Accept(o, s, t);
      && |r.batches| >= n && r.batches[n - 1].tasks == s.batches[n - 1].tasks + [t]
      && (|r.batches| > n ==> r.batches[n - 1].closed)
      && (forall i :: 0 <= i < n - 1 ==> r.batches[i] == s.batches[i])
      && (OpenIsNonEmpty(s) ==> r.closer == s.closer && r.now == s.now)
  {
    var added := AddTask(Arm(o, s), t);
    StartClosesLast(added);
  }

  lemma StepApproaches(o: Options, s: State, s': State, n: nat, tasks: seq<Task>)
    requires ValidOptions(o) && Overdue(o, s, n, tasks) && Next(o, s, s')
    ensures Approaches(o, s, s', n, tasks, IsTurn(s, s'))
  {
    if now: nat :| s.now <= now && s' == CloserTurn(s, now) {
      TurnApproaches(o, s, now, n, tasks);
    } else if t, now: nat :| s.now <= now && s' == Schedule(o, s, t, now).0 {
      ScheduleApproaches(o, s, t, now, n, tasks);
    } else {
      var i: nat :| i < |s.batches| && s.batches[i].closed && !s.batches[i].finished && s' == FinishBatch(s, i);
      FinishApproaches(o, s, i, n, tasks);
    }
  }

  lemma StartKeepsClosed(s: State, n: nat, tasks: seq<Task>)
    requires ClosedWith(s, n, tasks)
    ensures ClosedWith(StartNewBatch(s), n, tasks)
  {
    StartClosesLast(s);
  }

  lemma ScheduleKeepsClosed(o: Options, s: State, t: Task, now: nat, n: nat, tasks: seq<Task>)
    requires ClosedWith(s, n, tasks)
    ensures ClosedWith(Schedule(o, s, t, now).0, n, tasks)
  {
    var later := s.(now := now);
    var ready := Prepare(o, later, t);
    StartKeepsClosed(later, n, tasks);
    assert ClosedWith(ready, n, tasks);
    AcceptKeepsOthers(o, ready, t);
  }

  /** A closed batch stays closed, with its tasks. */
  lemma StepKeepsClosed(o: Options, s: State, s': State, n: nat, tasks: seq<Task>)
    requires Next(o, s, s') && ClosedWith(s, n, tasks)
    ensures ClosedWith(s', n, tasks)
  {
    if t, now: nat :| s.now <= now && s' == Schedule(o, s, t, now).0 {
      ScheduleKeepsClosed(o, s, t, now, n, tasks);
    } else if now: nat :| s.now <= now && s' == CloserTurn(s, now) {
      StartKeepsClosed(s.(now := now), n, tasks);
    }
  }

  lemma {:induction false} SegmentApproaches(o: Options, run: seq<State>, i: nat, j: nat)
    requires ValidOptions(o) && o.timeoutMicros > 0 && IsRun(o, run) && i <= j < |run|
    requires OpenIsNonEmpty(run[i]) && run[i].closer.lastTime <= run[i].now
    ensures var n := |run[i].batches|; var tasks := run[i].batches[n - 1].tasks;
      || ClosedWith(run[j], n, tasks)
      || (Overdue(o, run[j], n, tasks) && TurnsLeft(run[j]) + Turns(run, i, j) <= TurnsLeft(run[i]))
  {
    var n := |run[i].batches|;
    var tasks := run[i].batches[n - 1].tasks;
    if i == j {
      RunKeepsInv(o, run, i);
    } else {
      SegmentApproaches(o, run, i, j - 1);
      RunKeepsInv(o, run, j - 1);
      assert Next(o, run[j - 1], run[j - 1 + 1]);
      if ClosedWith(run[j - 1], n, tasks) {
        StepKeepsClosed(o, run[j - 1], run[j], n, tasks);
      } else {
        StepApproaches(o, run[j - 1], run[j], n, tasks);
      }
    }
  }

  /**
    The timeout is honoured. Once the deadline of a non-empty open batch has passed, at most four turns of
    the closer thread, with anything else in between, leave it closed with all its tasks.
   */
  lemma TimeoutClosesBatch(o: Options, run: seq<State>, i: nat, j: nat)
    requires ValidOptions(o) && o.timeoutMicros > 0 && IsRun(o, run) && i <= j < |run| && OpenIsNonEmpty(run[i])
    ensures run[i].newest.Some? && TurnsLeft(run[i]) <= 4
    ensures var n := |run[i].batches|;
      run[i].newest.value.time <= run[i].now && Turns(run, i, j) >= TurnsLeft(run[i]) ==>
        ClosedWith(run[j], n, run[i].batches[n - 1].tasks)
  {
    RunKeepsInv(o, run, i);
    if run[i].newest.value.time <= run[i].now {
      SegmentApproaches(o, run, i, j);
    }
  }

  // ---------- No batch is closed early ----------

  /** Batch number `n` gets its first task in the step that leads to `run[h + 1]`. */
  ghost predicate FirstTaskArrives(run: seq<State>, n: nat, h: nat) {
    && h + 1 < |run| && 0 < n <= |run[h + 1].batches| && run[h + 1].batches[n - 1].tasks != []
    && (n <= |run[h].batches| ==> run[h].batches[n - 1].tasks == [])
  }

  /** The batch got its first task before `run[i]`, one timeout before `time`. */
  ghost predicate IsDeadline(o: Options, run: seq<State>, i: nat, n: nat, time: int) {
    exists h: nat :: h < i && FirstTaskArrives(run, n, h) && time == run[h + 1].now + o.timeoutMicros
  }

  ghost predicate HasDeadline(o: Options, run: seq<State>, i: nat, c: Option<Closure>) {
    c.Some? ==> IsDeadline(o, run, i, c.value.batchNum, c.value.time)
  }

  ghost predicate ClosuresHaveDeadlines(o: Options, run: seq<State>, i: nat)
    requires i < |run|
  {
    HasDeadline(o, run, i, run[i].closer.updated) && HasDeadline(o, run, i, run[i].closer.current)
  }

  /** Only a batch that gets its first task is given a closure, which is due one timeout later. */
  lemma ScheduleArms(o: Options, s: State, t: Task, now: nat) returns (n: nat)
    ensures var r := Schedule(o, s, t, now).0;
      && r.closer.current == s.closer.current && r.now == now
      && (r.closer.updated != s.closer.updated ==>
        && r.closer.updated == Some(Closure(now + o.timeoutMicros, n))
        && 0 < n <= |r.batches| && r.batches[n - 1].tasks != []
        && (n <= |s.batches| ==> s.batches[n - 1].tasks == []))
  {
    var later := s.(now := now);
    var ready := Prepare(o, later, t);
    n := |ready.batches|;
    PrepareKeepsCloser(o, later, t);
    if t.size <= o.maxBatchSize && ready.inProgress <= o.numThreads {
      AcceptArms(o, ready, t);
    }
  }

  lemma AcceptArms(o: Options, s: State, t: Task)
    requires s.batches != []
    ensures var n, r := |s.batches|, Accept(o, s, t);
      && r.closer.current == s.closer.current && r.now == s.now
      && (r.closer.updated != s.closer.updated ==>
        r.closer.updated == Some(Closure(s.now + o.timeoutMicros, n)) && s.batches[n - 1].tasks == [])
      && n <= |r.batches| && r.batches[n - 1].tasks != []
  {
    RolloverKeepsCloser(o, AddTask(Arm(o, s), t));
    AcceptGoesToOpen(o, s, t);
  }

  lemma StepKeepsDeadlines(o: Options, run: seq<State>, i: nat)
    requires i + 1 < |run| && Next(o, run[i], run[i + 1]) && ClosuresHaveDeadlines(o, run, i)
    ensures ClosuresHaveDeadlines(o, run, i + 1)
  {
    var s, r := run[i], run[i + 1];
    if t, now: nat :| s.now <= now && r == Schedule(o, s, t, now).0 {
      var n := ScheduleArms(o, s, t, now);
      if r.closer.updated != s.closer.updated {
        assert FirstTaskArrives(run, n, i);
      }
    }
  }

  lemma {:induction false} RunKeepsDeadlines(o: Options, run: seq<State>, i: nat)
    requires IsRun(o, run) && i < |run|
    ensures ClosuresHaveDeadlines(o, run, i)
  {
    if i > 0 {
      RunKeepsDeadlines(o, run, i - 1);
      assert Next(o, run[i - 1], run[i - 1 + 1]);
      StepKeepsDeadlines(o, run, i - 1);
    }
  }

  /**
    The closer waits: if one of its turns changes the batches, then it closes the open batch, which got its
    first task at least one timeout ago.
   */
  lemma TimeoutIsAwaited(o: Options, run: seq<State>, i: nat)
    requires ValidOptions(o) && IsRun(o, run) && 0 < i < |run|
    requires IsTurn(run[i - 1], run[i]) && run[i].batches != run[i - 1].batches
    ensures var n := |run[i - 1].batches|;
      && o.timeoutMicros > 0 && |run[i].batches| == n + 1
      && exists h: nat :: h < i - 1 && FirstTaskArrives(run, n, h) && run[h + 1].now + o.timeoutMicros <= run[i].now
  {
    var s := run[i - 1];
    RunKeepsInv(o, run, i - 1);
    RunKeepsDeadlines(o, run, i - 1);
    var now: nat :| s.now <= now && run[i] == CloserTurn(s, now);
    assert s.closer.firing && s.closer.current.Some? && s.closer.current.value.batchNum == |s.batches|;
    StartClosesLast(s);
  }

  /** While the closer thread's own closure is not due, its turns change nothing. */
  lemma EarlyTurnSleeps(o: Options, run: seq<State>, i: nat)
    requires ValidOptions(o) && IsRun(o, run) && 0 < i < |run| && IsTurn(run[i - 1], run[i])
    requires run[i - 1].closer.current.Some? && run[i].now < run[i - 1].closer.current.value.time
    ensures run[i] == run[i - 1].(now := run[i].now)
  {
    RunKeepsInv(o, run, i - 1);
  }

  // ---------- Capacity ----------

  lemma AbandonOpenBatch(o: Options, s: State)
    requires s.inProgress < o.numThreads
    ensures Capacity(o, StartNewBatch(s)) == Capacity(o, s) - OpenSlot(o, s)
  {
    CloseLastKeeps(s.batches);
    assert (o.numThreads - s.inProgress) * o.maxBatchSize
        == (o.numThreads - s.inProgress - 1) * o.maxBatchSize + o.maxBatchSize;
  }

  lemma AcceptLowersCapacity(o: Options, s: State, t: Task)
    requires ValidOptions(o) && Inv(o, s) && FitsOpenBatch(o, s, t) && s.inProgress <= o.numThreads
    ensures Capacity(o, Accept(o, s, t)) == Capacity(o, s) - t.size
  {
    var added := AddTask(Arm(o, s), t);
    AddTaskKeepsBatches(o, Arm(o, s), t);
    SameIdleThreads(o, s, added);
    RolloverKeepsCapacity(o, added);
  }

  lemma RolloverKeepsCapacity(o: Options, s: State)
    requires s.batches != [] && s.inProgress <= o.numThreads
    ensures Capacity(o, Rollover(o, s)) == Capacity(o, s)
  {
    SameIdleThreads(o, s, s);
    if OpenSlot(o, s) == 0 && s.inProgress < o.numThreads {
      AbandonOpenBatch(o, s);
    }
  }

  lemma SameIdleThreads(o: Options, s: State, r: State)
    requires r.inProgress == s.inProgress <= o.numThreads
    ensures Capacity(o, r) - Capacity(o, s) == OpenSlot(o, r) - OpenSlot(o, s)
    ensures s.inProgress == o.numThreads ==> Capacity(o, s) == OpenSlot(o, s)
  {}

  /** When a task is taken: a thread is free for a fresh batch, or the open batch has one and has room. */
  predicate Accepts(o: Options, s: State, t: Task) {
    && t.size <= o.maxBatchSize
    && (s.inProgress < o.numThreads || (s.inProgress == o.numThreads && FitsOpenBatch(o, s, t)))
  }

  /** The exact acceptance rule of `Schedule`, its effect on the tasks, and its price in capacity. */
  lemma ScheduleIsExact(o: Options, s: State, t: Task, now: nat)
    requires ValidOptions(o) && Inv(o, s) && s.now <= now
    ensures var (r, status) := Schedule(o, s, t, now);
      var fits := s.batches != [] && SizeOf(s.batches[|s.batches| - 1].tasks) + t.size <= o.maxBatchSize;
      && (status == OK <==>
        && t.size <= o.maxBatchSize
        && (s.inProgress < o.numThreads || (s.inProgress == o.numThreads && fits)))
      && (status.Error? ==> status.code == if t.size > o.maxBatchSize then InvalidArgument else Unavailable)
      && r.accepted == (if status == OK then s.accepted + [t] else s.accepted)
      && (status == OK ==> Capacity(o, r) == Capacity(o, s) - t.size - if fits then 0 else OpenSlot(o, s))
      && (t.size > o.maxBatchSize ==> r == s.(now := now))
      && (t.size <= o.maxBatchSize && status.Error? ==> Capacity(o, r) == 0)
  {
    var s1 := s.(now := now);
    LaterKeepsInv(o, s, now);
    if t.size <= o.maxBatchSize {
      PrepareIsExact(o, s1, t);
      AcceptIsExact(o, Prepare(o, s1, t), t);
    }
  }

  /**
    A task that fits goes to the open batch, which is closed at once exactly if that fills it; if it is
    rejected, nothing is closed. No other batch changes.
   */
  lemma FittingTaskJoins(o: Options, s: State, t: Task, now: nat)
    requires s.batches != [] && SizeOf(s.batches[|s.batches| - 1].tasks) + t.size <= o.maxBatchSize
    ensures var (r, status) := Schedule(o, s, t, now); var n := |s.batches|;
      && (status != OK ==> r.batches == s.batches)
      && (status == OK ==>
        && IsPrefixOf(s, r, n - 1) && r.batches[n - 1].tasks == s.batches[n - 1].tasks + [t]
        && |r.batches| == if SizeOf(s.batches[n - 1].tasks) + t.size == o.maxBatchSize then n + 1 else n)
  {
    var later := s.(now := now);
    assert Prepare(o, later, t) == later;
    if s.inProgress <= o.numThreads {
      AcceptGoesToOpen(o, later, t);
      assert IsPrefixOf(s, Accept(o, later, t), |s.batches| - 1);
    }
  }

  /** One that does not fit closes the open batch as it is, and goes to a fresh one if it is accepted. */
  lemma LargeTaskStarts(o: Options, s: State, t: Task, now: nat)
    requires t.size <= o.maxBatchSize
    requires s.batches != [] ==> SizeOf(s.batches[|s.batches| - 1].tasks) + t.size > o.maxBatchSize
    ensures var (r, status) := Schedule(o, s, t, now); var n := |s.batches|;
      && |r.batches| > n && r.batches[n].tasks == (if status == OK then [t] else [])
      && |r.batches| == (if status == OK && t.size == o.maxBatchSize then n + 2 else n + 1)
      && (n > 0 ==> IsPrefixOf(s, r, n - 1) && r.batches[n - 1] == s.batches[n - 1].(closed := true))
  {
    var later := s.(now := now);
    var ready, n := StartNewBatch(later), |s.batches|;
    assert Prepare(o, later, t) == ready;
    assert |ready.batches| == n + 1 && ready.batches[n].tasks == [] && SizeOf([]) == 0;
    if n > 0 {
      StartClosesLast(later);
      assert IsPrefixOf(s, ready, n - 1);
    }
    if ready.inProgress <= o.numThreads {
      AcceptGoesToOpen(o, ready, t);
      PrefixOfPrefix(s, ready, Accept(o, ready, t), n);
      assert [] + [t] == [t];
    }
  }

  lemma PrefixOfPrefix(s: State, ready: State, r: State, n: nat)
    requires IsPrefixOf(ready, r, n)
    ensures forall i :: 0 <= i < n ==> r.batches[i] == ready.batches[i]
    ensures n > 0 && IsPrefixOf(s, ready, n - 1) ==> IsPrefixOf(s, r, n - 1)
  {
    assert forall i :: 0 <= i < n ==> r.batches[..n][i] == ready.batches[..n][i];
    if n > 0 {
      assert r.batches[..n - 1] == r.batches[..n][..n - 1] && ready.batches[..n - 1] == ready.batches[..n][..n - 1];
    }
  }

  /** The first `n` batches have not changed. */
  ghost predicate IsPrefixOf(s: State, r: State, n: nat) {
    n <= |s.batches| && n <= |r.batches| && s.batches[..n] == r.batches[..n]
  }

  /** An accepted task goes to the open batch, and a batch is started behind that exactly if it is full. */
  lemma AcceptGoesToOpen(o: Options, s: State, t: Task)
    requires s.batches != []
    ensures var n, r := |s.batches|, Accept(o, s, t);
      && IsPrefixOf(s, r, n - 1)
      && |r.batches| == (if SizeOf(s.batches[n - 1].tasks) + t.size == o.maxBatchSize then n + 1 else n)
      && r.batches[n - 1].tasks == s.batches[n - 1].tasks + [t]
  {
    var n, armed := |s.batches|, Arm(o, s);
    var added := AddTask(armed, t);
    assert added.batches[n - 1].tasks == s.batches[n - 1].tasks + [t] && added.batches[..n - 1] == s.batches[..n - 1];
    SizeGrows(s.batches[n - 1].tasks, t);
    RolloverKeepsBatches(o, added);
  }

  lemma RolloverKeepsBatches(o: Options, s: State)
    requires s.batches != []
    ensures var n, r := |s.batches|, Rollover(o, s);
      && r.batches[..n - 1] == s.batches[..n - 1]
      && |r.batches| == (if SizeOf(s.batches[n - 1].tasks) == o.maxBatchSize then n + 1 else n)
      && r.batches[n - 1].tasks == s.batches[n - 1].tasks
  {
    StartClosesLast(s);
  }

  lemma AcceptIsExact(o: Options, s: State, t: Task)
    requires ValidOptions(o) && Inv(o, s) && FitsOpenBatch(o, s, t)
    ensures s.inProgress > o.numThreads ==> Capacity(o, s) == 0
    ensures s.inProgress <= o.numThreads ==>
      Accept(o, s, t).accepted == s.accepted + [t] && Capacity(o, Accept(o, s, t)) == Capacity(o, s) - t.size
  {
    if s.inProgress <= o.numThreads {
      AcceptKeepsInv(o, s, t);
      AcceptLowersCapacity(o, s, t);
    }
  }

  lemma LaterKeepsInv(o: Options, s: State, now: nat)
    requires Inv(o, s) && s.now <= now
    ensures Inv(o, s.(now := now))
    ensures Capacity(o, s.(now := now)) == Capacity(o, s) && OpenSlot(o, s.(now := now)) == OpenSlot(o, s)
  {}

  lemma PrepareIsExact(o: Options, s: State, t: Task)
    requires ValidOptions(o) && Inv(o, s) && t.size <= o.maxBatchSize
    ensures var ready := Prepare(o, s, t);
      && Inv(o, ready) && FitsOpenBatch(o, ready, t) && ready.accepted == s.accepted
      && (ready.inProgress <= o.numThreads <==> Accepts(o, s, t))
      && (Accepts(o, s, t) ==>
        Capacity(o, ready) == Capacity(o, s) - if FitsOpenBatch(o, s, t) then 0 else OpenSlot(o, s))
  {
    PrepareKeepsInv(o, s, t);
    if !FitsOpenBatch(o, s, t) && s.inProgress < o.numThreads {
      AbandonOpenBatch(o, s);
    }
  }

  lemma IdleThreadsHaveRoom(o: Options, s: State)
    requires ValidOptions(o) && s.inProgress < o.numThreads
    ensures (o.numThreads - s.inProgress) * o.maxBatchSize >= o.maxBatchSize
  {
    AtLeastOne(o.numThreads - s.inProgress, o.maxBatchSize);
  }

  lemma AtLeastOne(count: nat, m: nat)
    requires count > 0
    ensures count * m >= m
  {}

  lemma UnitTaskAccepted(o: Options, s: State, t: Task)
    requires ValidOptions(o) && Inv(o, s) && t.size == 1
    ensures Capacity(o, s) >= 0
    ensures Accepts(o, s, t) <==> Capacity(o, s) > 0
  {
    if s.inProgress < o.numThreads {
      IdleThreadsHaveRoom(o, s);
    } else if s.inProgress == o.numThreads {
      assert Capacity(o, s) == OpenSlot(o, s);
      assert s.batches != [];
    }
  }

  /** A unit task is accepted exactly when the reported capacity is positive, and costs exactly one. */
  lemma UnitTaskCapacity(o: Options, s: State, t: Task, now: nat)
    requires ValidOptions(o) && Inv(o, s) && s.now <= now && t.size == 1
    ensures Capacity(o, s) >= 0
    ensures Schedule(o, s, t, now).1 == OK <==> Capacity(o, s) > 0
    ensures Capacity(o, Schedule(o, s, t, now).0) == Capacity(o, s) - if Schedule(o, s, t, now).1 == OK then 1 else 0
  {
    UnitTaskAccepted(o, s, t);
    ScheduleIsExact(o, s, t, now);
    if Accepts(o, s, t) && !FitsOpenBatch(o, s, t) {
      assert OpenSlot(o, s) == 0;
    }
  }

  /** Schedules the tasks in order, each at its own time. */
  function ScheduleAll(o: Options, s: State, ts: seq<Task>, times: seq<nat>): State
    requires |ts| == |times|
  {
    if ts == [] then s
    else
      var n := |ts| - 1;
      Schedule(o, ScheduleAll(o, s, ts[..n], times[..n]), ts[n], times[n]).0
  }

  /** The times do not go back, and begin no earlier than `start`. */
  ghost predicate AreTimes(start: nat, times: seq<nat>) {
    && (times != [] ==> start <= times[0])
    && forall i, j :: 0 <= i < j < |times| ==> times[i] <= times[j]
  }

  function Taken(capacity: int, offered: nat): int {
    if offered <= capacity then offered else capacity
  }

  lemma TakenGrows(accepted: seq<Task>, ts: seq<Task>, capacity: nat)
    requires ts != []
    ensures var n := |ts| - 1;
      accepted + ts[..Taken(capacity, |ts|)]
        == accepted + ts[..n][..Taken(capacity, n)] + if n < capacity then [ts[n]] else []
  {
    var n := |ts| - 1;
    if n < capacity {
      assert ts[..n][..n] == ts[..n] && ts == ts[..n] + [ts[n]];
    } else {
      assert ts[..n][..capacity] == ts[..capacity];
    }
  }

  lemma UnitStep(o: Options, s: State, t: Task, now: nat)
    requires ValidOptions(o) && Inv(o, s) && s.now <= now && t.size == 1
    ensures var r := Schedule(o, s, t, now).0;
      Inv(o, r) && r.now == now && Capacity(o, s) >= 0
      && Capacity(o, r) == Capacity(o, s) - (if Capacity(o, s) > 0 then 1 else 0)
      && r.accepted == (if Capacity(o, s) > 0 then s.accepted + [t] else s.accepted)
  {
    ScheduleKeepsInv(o, s, t, now);
    ScheduleKeepsClock(o, s, t, now);
    UnitTaskAccepted(o, s, t);
    UnitTaskCapacity(o, s, t, now);
    AcceptedAreKept(o, s, t, now);
  }

  lemma ScheduleKeepsClock(o: Options, s: State, t: Task, now: nat)
    ensures Schedule(o, s, t, now).0.now == now
  {}

  lemma AcceptedAreKept(o: Options, s: State, t: Task, now: nat)
    requires ValidOptions(o) && Inv(o, s) && s.now <= now
    ensures var (r, status) := Schedule(o, s, t, now);
      r.accepted == if status == OK then s.accepted + [t] else s.accepted
  {
    ScheduleIsExact(o, s, t, now);
  }

  /** With no completion or timeout in between, unit tasks get exactly the capacity, however fast they arrive. */
  lemma {:induction false} BurstFillsCapacity(o: Options, s: State, ts: seq<Task>, times: seq<nat>, capacity: int)
    requires ValidOptions(o) && Inv(o, s) && capacity == Capacity(o, s)
    requires |ts| == |times| && AreTimes(s.now, times) && forall i :: 0 <= i < |ts| ==> ts[i].size == 1
    ensures capacity >= 0 && HasTaken(o, ScheduleAll(o, s, ts, times), s.accepted, ts, capacity)
    ensures ScheduleAll(o, s, ts, times).now == if ts == [] then s.now else times[|ts| - 1]
  {
    if ts == [] {
      UnitTaskAccepted(o, s, Task(0, 1));
    } else {
      var n := |ts| - 1;
      TimesPrefix(s.now, times);
      BurstFillsCapacity(o, s, ts[..n], times[..n], capacity);
      OneMoreIsTaken(o, ScheduleAll(o, s, ts[..n], times[..n]), s.accepted, ts, times[n], capacity);
    }
  }

  lemma TimesPrefix(start: nat, times: seq<nat>)
    requires AreTimes(start, times) && times != []
    ensures var n := |times| - 1;
      AreTimes(start, times[..n]) && (if n == 0 then start else times[n - 1]) <= times[n]
  {}

  /** Of the tasks `ts`, as many as the capacity have been accepted, in order. */
  ghost predicate HasTaken(o: Options, r: State, accepted: seq<Task>, ts: seq<Task>, capacity: nat) {
    && Inv(o, r) && Capacity(o, r) == capacity - Taken(capacity, |ts|)
    && r.accepted == accepted + ts[..Taken(capacity, |ts|)]
  }

  lemma OneMoreIsTaken(o: Options, mid: State, accepted: seq<Task>, ts: seq<Task>, time: nat, capacity: nat)
    requires ValidOptions(o) && ts != [] && HasTaken(o, mid, accepted, ts[..|ts| - 1], capacity)
    requires mid.now <= time && ts[|ts| - 1].size == 1
    ensures var r := Schedule(o, mid, ts[|ts| - 1], time).0;
      HasTaken(o, r, accepted, ts, capacity) && r.now == time
  {
    UnitStep(o, mid, ts[|ts| - 1], time);
    TakenGrows(accepted, ts, capacity);
  }

  // ---------- A timeout of zero ----------

  /** What the documentation says of a timeout of zero: each batch contains just a single item. */
  ghost predicate SingleItems(s: State) {
    forall b :: b in s.batches ==> |b.tasks| <= 1
  }

  ghost predicate TasksAtLeast(s: State, k: nat) {
    forall t :: t in s.accepted ==> t.size >= k
  }

  /** Tasks of size `k` and more never share a batch. */
  ghost predicate DisablesBatching(o: Options, k: nat) {
    forall run :: IsRun(o, run) && TasksAtLeast(run[|run| - 1], k) ==> SingleItems(run[|run| - 1])
  }

  lemma {:induction false} BatchTasksAreAccepted(batches: seq<BatchView>, i: nat)
    requires i < |batches|
    ensures forall t :: t in batches[i].tasks ==> t in Flatten(batches)
  {
    if i < |batches| - 1 {
      BatchTasksAreAccepted(batches[..|batches| - 1], i);
    }
  }

  lemma TwoTasksAreLarge(tasks: seq<Task>, k: nat)
    requires |tasks| >= 2 && forall t :: t in tasks ==> t.size >= k
    ensures SizeOf(tasks) >= 2 * k
  {
    var init := tasks[..|tasks| - 1];
    assert init[|init| - 1] in tasks && tasks[|tasks| - 1] in tasks;
    assert SizeOf(init) >= init[|init| - 1].size;
  }

  /** Two tasks of size `k`, scheduled one after the other, share a batch that has room for both. */
  lemma PairSharesBatch(o: Options, k: nat) returns (run: seq<State>)
    requires ValidOptions(o) && 2 * k <= o.maxBatchSize
    ensures IsRun(o, run) && TasksAtLeast(run[|run| - 1], k) && !SingleItems(run[|run| - 1])
  {
    var a, b := Task(0, k), Task(1, k);
    var s1 := FirstOfPair(o, a);
    var s2 := SecondOfPair(o, s1, a, b);
    run := RunOfTwo(o, s1, s2);
    PairIsNotSingle(s2, a, b);
  }

  lemma RunOfTwo(o: Options, s1: State, s2: State) returns (run: seq<State>)
    requires Next(o, INITIAL_STATE, s1) && Next(o, s1, s2)
    ensures IsRun(o, run) && run[|run| - 1] == s2
  {
    run := ExtendRun(o, [INITIAL_STATE], s1);
    run := ExtendRun(o, run, s2);
  }

  lemma PairIsNotSingle(s: State, a: Task, b: Task)
    requires |s.batches| > 0 && s.batches[0].tasks == [a, b] && s.accepted == [a, b]
    ensures !SingleItems(s) && forall t :: t in s.accepted ==> t == a || t == b
  {
    assert s.batches[0] in s.batches;
  }

  lemma ScheduleIsNext(o: Options, s: State, t: Task, now: nat)
    requires s.now <= now
    ensures Next(o, s, Schedule(o, s, t, now).0)
  {}

  lemma ExtendRun(o: Options, run: seq<State>, s: State) returns (longer: seq<State>)
    requires IsRun(o, run) && Next(o, run[|run| - 1], s)
    ensures IsRun(o, longer) && longer == run + [s]
  {
    longer := run + [s];
    forall i | 0 <= i < |longer| - 1 ensures Next(o, longer[i], longer[i + 1]) {
      if i < |run| - 1 {
        assert Next(o, run[i], run[i + 1]);
      }
    }
  }

  lemma FirstOfPair(o: Options, a: Task) returns (s: State)
    requires ValidOptions(o) && 2 * a.size <= o.maxBatchSize
    ensures Next(o, INITIAL_STATE, s)
    ensures s.batches == [BatchView([a], false, false)] && s.accepted == [a] && s.inProgress == 1 && s.now == 0
  {
    s := Schedule(o, INITIAL_STATE, a, 0).0;
    assert SizeOf([]) == 0 && SizeOf([a]) == SizeOf([]) + a.size;
    ScheduleIsNext(o, INITIAL_STATE, a, 0);
  }

  lemma SecondOfPair(o: Options, s: State, a: Task, b: Task) returns (r: State)
    requires ValidOptions(o) && 2 * a.size <= o.maxBatchSize && b.size == a.size
    requires s.batches == [BatchView([a], false, false)] && s.accepted == [a] && s.inProgress == 1 && s.now == 0
    ensures Next(o, s, r)
    ensures |r.batches| > 0 && r.batches[0].tasks == [a, b] && r.accepted == [a, b]
  {
    r := Schedule(o, s, b, 0).0;
    assert SizeOf([]) == 0 && SizeOf([a]) == SizeOf([]) + a.size;
    ScheduleIsNext(o, s, b, 0);
  }

  lemma LargeTasksAreSingle(o: Options, s: State, k: nat)
    requires Inv(o, s) && TasksAtLeast(s, k) && o.maxBatchSize < 2 * k
    ensures SingleItems(s)
  {
    forall b | b in s.batches ensures |b.tasks| <= 1 {
      var i :| 0 <= i < |s.batches| && s.batches[i] == b;
      BatchTasksAreAccepted(s.batches, i);
      if |b.tasks| >= 2 {
        TwoTasksAreLarge(b.tasks, k);
      }
    }
  }

  /**
    The code schedules no close when the timeout is zero or negative, and whatever the timeout, tasks share
    a batch that has room for them. So batching is disabled, as documented for a timeout of zero, for tasks
    of size `k` and more exactly if no batch has room for two of size `k`; with `k` zero it never is.
   */
  lemma BatchingDisabledIff(o: Options, k: nat)
    requires ValidOptions(o)
    ensures DisablesBatching(o, k) <==> o.maxBatchSize < 2 * k
  {
    if o.maxBatchSize < 2 * k {
      forall run: seq<State> | IsRun(o, run) && TasksAtLeast(run[|run| - 1], k) ensures SingleItems(run[|run| - 1]) {
        RunKeepsInv(o, run, |run| - 1);
        LargeTasksAreSingle(o, run[|run| - 1], k);
      }
    } else {
      var run := PairSharesBatch(o, k);
    }
  }
}
