/** Running a batch: one run of the wrapped session on the merged inputs, whose outputs go to the tasks' callers. */
module BatchingSessions {
  import opened Common
  import opened Tensors
  import opened Batching
  import opened InputMerging
  import opened OutputSplitting
  import opened SplitJoin
  import opened BatchTasks
  import opened BatchDeadlines

  // ---------- Delivering the outputs ----------

  method PushOutput(
    d: Destination, tensor: Tensor, ghost before: Snapshot, ghost row: seq<Tensor>, ghost numOutputs: nat)
    requires ShowsAt(d, WithRow(d, before, row)) && Awaits(d, before, numOutputs, []) && |row| < numOutputs
    modifies Objects(d)
    ensures ShowsAt(d, WithRow(d, before, row + [tensor]))
  {
    WithRowsAppend(d, before, row, tensor);
    match d {
      case Whole(call) => call.outputs := call.outputs + [tensor];
      case Partial(request, j) => request.Push(j, tensor);
    }
  }

  /** `row` lists task `k`'s segments of the signature's outputs, moved away where they are asked for again. */
  ghost predicate IsRow(
    sig: Signature, outputs: seq<string>, split: TensorLists, k: nat, moved: MovedFrom, row: seq<Tensor>)
  {
    |row| == Known(sig, outputs) &&
    forall j :: 0 <= j < |row| ==>
      && outputs[j] in split && k < |split[outputs[j]]|
      && row[j] == if FirstMention(outputs, j) then split[outputs[j]][k] else moved(k, j)
  }

  /**
    Moves to the task its segment of every output it asks for, in its own order, until it asks for one that
    is none of the signature's.
   */
  method DeliverOutputs(
    ghost sig: Signature, task: BatchingSessionTask, k: nat, split: TensorLists, moved: MovedFrom,
    ghost before: Snapshot, ghost row: seq<Tensor>)
    returns (conforms: bool)
    requires split.Keys == SetOf(sig.outputs) && IsRow(sig, task.view.outputs, split, k, moved, row)
    requires ShowsAt(task.destination, before) && Awaits(task.destination, before, |task.view.outputs|, [])
    modifies Objects(task.destination)
    ensures conforms <==> AllKnown(sig, task.view)
    ensures ShowsAt(task.destination, WithRow(task.destination, before, row))
  {
    var taken: set<string> := {};
    WithRowsAppend(task.destination, before, [], Scalar(0));
    assert row[..0] == [];
    for j := 0 to |task.view.outputs|
      invariant j <= |row| && taken == SetOf(task.view.outputs[..j])
      invariant ShowsAt(task.destination, WithRow(task.destination, before, row[..j]))
    {
      if task.view.outputs[j] !in split {
        assert row[..j] == row;
        return false;
      }
      PushNext(sig, task, k, j, split, taken, moved, before, row);
      PrefixGrows(task.view.outputs, j);
      taken := taken + {task.view.outputs[j]};
    }
    assert row[..|row|] == row;
    return true;
  }

  method PushNext(
    ghost sig: Signature, task: BatchingSessionTask, k: nat, j: nat, split: TensorLists, taken: set<string>,
    moved: MovedFrom, ghost before: Snapshot, ghost row: seq<Tensor>)
    requires IsRow(sig, task.view.outputs, split, k, moved, row) && j < |row| && taken == SetOf(task.view.outputs[..j])
    requires ShowsAt(task.destination, WithRow(task.destination, before, row[..j]))
    requires Awaits(task.destination, before, |task.view.outputs|, [])
    modifies Objects(task.destination)
    ensures ShowsAt(task.destination, WithRow(task.destination, before, row[..j + 1]))
  {
    var name := task.view.outputs[j];
    var tensor := if name in taken then moved(k, j) else split[name][k];
    PrefixGrows(row, j);
    PushOutput(task.destination, tensor, before, row[..j], |task.view.outputs|);
  }

  lemma SegmentsAreDelivered(
    p: Plan, batch: seq<TaskView>, combined: seq<Tensor>, split: TensorLists, k: nat, moved: MovedFrom)
    requires k < |batch| && Splittable(p, batch, combined) && AreSplit(p, batch, combined, |p.sig.outputs|, split)
    requires k <= Leading(p.sig, batch)
    ensures IsRow(p.sig, batch[k].outputs, split, k, moved, RowsGiven(p, batch, combined, moved)[k])
  {
    RowGivenIs(p, batch, combined, moved, k);
    DeliveredIsRow(p, batch, combined, split, k, moved, Known(p.sig, batch[k].outputs));
  }

  lemma DeliveredIsRow(
    p: Plan, batch: seq<TaskView>, combined: seq<Tensor>, split: TensorLists, k: nat, moved: MovedFrom, n: nat)
    requires k < |batch| && |combined| == |p.sig.outputs| && n == Known(p.sig, batch[k].outputs)
    requires AreSplit(p, batch, combined, |p.sig.outputs|, split)
    ensures IsRow(p.sig, batch[k].outputs, split, k, moved, Delivered(p, batch, combined, k, moved)[..n])
  {
    forall j | 0 <= j < n {
      SegmentIsSplit(p, batch, combined, split, k, batch[k].outputs[j]);
    }
  }

  lemma SegmentIsSplit(
    p: Plan, batch: seq<TaskView>, combined: seq<Tensor>, split: TensorLists, k: nat, output: string)
    requires k < |batch| && |combined| == |p.sig.outputs| && output in p.sig.outputs
    requires AreSplit(p, batch, combined, |p.sig.outputs|, split)
    ensures output in split && k < |split[output]| && split[output][k] == Segment(p, batch, combined, k, output)
  {
    assert p.sig.outputs[IndexOf(p.sig.outputs, output)] == output;
  }

  method DeliverNext(
    ghost sig: Signature, batch: seq<BatchingSessionTask>, k: nat, split: TensorLists, moved: MovedFrom,
    ghost before: seq<Snapshot>, ghost row: seq<Tensor>)
    returns (conforms: bool)
    requires k < |batch| && Apart(batch) && Shows(batch, before)
    requires split.Keys == SetOf(sig.outputs) && IsRow(sig, batch[k].view.outputs, split, k, moved, row)
    requires Awaits(batch[k].destination, before[k], |batch[k].view.outputs|, [])
    modifies Objects(batch[k].destination)
    ensures conforms <==> AllKnown(sig, batch[k].view)
    ensures Shows(batch, Changed(batch, before, k, WithRow(batch[k].destination, before[k], row)))
  {
    conforms := DeliverOutputs(sig, batch[k], k, split, moved, before[k], row);
    ghost var after := WithRow(batch[k].destination, before[k], row);
    forall h | 0 <= h < |batch|
      ensures ShowsAt(batch[h].destination, if SameKey(batch, h, k) then after else before[h])
    {
      if SameKey(batch, h, k) {
        assert h != k ==> Compatible(batch[h].destination, batch[k].destination);
        SameKeyShows(batch[k].destination, batch[h].destination, after);
      } else {
        assert Compatible(batch[h].destination, batch[k].destination);
        match batch[h].destination {
          case Whole(call) => assert unchanged(call);
          case Partial(request, _) =>
            assert unchanged(request);
            assert unchanged(request.call);
            assert unchanged(request.sharedStatus);
            assert unchanged(request.barrier);
        }
        Untouched(batch[h].destination);
      }
    }
  }

  /** Every task awaits its outputs, as the snapshots show it. */
  ghost predicate AllAwait(batch: seq<BatchingSessionTask>, snapshots: seq<Snapshot>) {
    |snapshots| == |batch| &&
    forall k :: 0 <= k < |batch| ==> Awaits(batch[k].destination, snapshots[k], |batch[k].view.outputs|, [])
  }

  lemma StillAwaits(
    batch: seq<BatchingSessionTask>, before: seq<Snapshot>, rows: seq<seq<Tensor>>, n: nat, k: nat)
    requires n <= k < |batch| == |rows| && Apart(batch) && KeysAgree(batch, before) && AllAwait(batch, before)
    ensures Awaits(batch[k].destination, Pushed(batch, before, rows, n)[k], |batch[k].view.outputs|, [])
  {
    assert Awaits(batch[k].destination, before[k], |batch[k].view.outputs|, []);
    match batch[k].destination
    case Whole(_) => PushedCall(batch, before, rows, n, k);
    case Partial(_, _) => PushedPiece(batch, before, rows, n, k, |batch[k].view.outputs|);
  }

  /** The rows of the first `stop` tasks and of the one that stops delivery are theirs; nothing is behind. */
  ghost predicate RowsMatch(
    sig: Signature, batch: seq<BatchingSessionTask>, split: TensorLists, moved: MovedFrom, rows: seq<seq<Tensor>>,
    stop: nat)
  {
    && |rows| == |batch|
    && (forall k :: 0 <= k < |batch| && k <= stop ==> IsRow(sig, batch[k].view.outputs, split, k, moved, rows[k]))
    && forall k :: stop < k < |batch| ==> rows[k] == []
  }

  lemma GivenRowsMatch(
    p: Plan, batch: seq<BatchingSessionTask>, combined: seq<Tensor>, split: TensorLists, moved: MovedFrom)
    requires Splittable(p, Views(batch), combined) && AreSplit(p, Views(batch), combined, |p.sig.outputs|, split)
    ensures RowsMatch(p.sig, batch, split, moved, RowsGiven(p, Views(batch), combined, moved),
      Leading(p.sig, Views(batch)))
  {
    var rows, stop := RowsGiven(p, Views(batch), combined, moved), Leading(p.sig, Views(batch));
    forall k | 0 <= k < |batch| && k <= stop ensures IsRow(p.sig, batch[k].view.outputs, split, k, moved, rows[k]) {
      SegmentsAreDelivered(p, Views(batch), combined, split, k, moved);
    }
  }

  method DeliverTask(
    ghost sig: Signature, batch: seq<BatchingSessionTask>, k: nat, split: TensorLists, moved: MovedFrom,
    ghost before: seq<Snapshot>, ghost rows: seq<seq<Tensor>>)
    returns (conforms: bool)
    requires k < |batch| == |rows| == |before| && Apart(batch) && Shows(batch, Pushed(batch, before, rows, k))
    requires split.Keys == SetOf(sig.outputs) && IsRow(sig, batch[k].view.outputs, split, k, moved, rows[k])
    requires Awaits(batch[k].destination, Pushed(batch, before, rows, k)[k], |batch[k].view.outputs|, [])
    requires k <= Leading(sig, Views(batch))
    modifies AllObjects(batch)
    ensures conforms <==> k < Leading(sig, Views(batch))
    ensures Shows(batch, Pushed(batch, before, rows, k + 1))
  {
    assert Views(batch)[k] == batch[k].view;
    conforms := DeliverNext(sig, batch, k, split, moved, Pushed(batch, before, rows, k), rows[k]);
  }

  /** Gives every task its row, until one asks for an output that is none of the signature's. */
  method DeliverAll(
    ghost sig: Signature, batch: seq<BatchingSessionTask>, split: TensorLists, moved: MovedFrom,
    ghost before: seq<Snapshot>, ghost rows: seq<seq<Tensor>>, ghost stop: nat)
    returns (conform: bool)
    requires Apart(batch) && KeysAgree(batch, before) && AllAwait(batch, before) && Shows(batch, before)
    requires split.Keys == SetOf(sig.outputs) && RowsMatch(sig, batch, split, moved, rows, stop)
    requires stop == Leading(sig, Views(batch))
    modifies AllObjects(batch)
    ensures conform <==> stop == |batch|
    ensures Shows(batch, Pushed(batch, before, rows, |batch|))
  {
    for k := 0 to |batch|
      invariant Shows(batch, Pushed(batch, before, rows, k)) && k <= stop
    {
      StillAwaits(batch, before, rows, k, k);
      var conforms := DeliverTask(sig, batch, k, split, moved, before, rows);
      if !conforms {
        NothingFollows(batch, before, rows, k + 1);
        return false;
      }
    }
    return true;
  }

  /** Splitting succeeds: all outputs can be cut, and every task is given all that it asks for. */
  ghost predicate Splits(p: Plan, batch: seq<TaskView>, combined: seq<Tensor>) {
    Splittable(p, batch, combined) && forall k :: 0 <= k < |batch| ==> AllKnown(p.sig, batch[k])
  }

  /** The code of the error if splitting fails. */
  ghost function SplitErrorCode(p: Plan, batch: seq<TaskView>, combined: seq<Tensor>): Code {
    if |combined| != |p.sig.outputs| || Splittable(p, batch, combined) then Internal else FailedPrecondition
  }

  /**
    Gives every task its own segments. If the combined outputs cannot be split nobody gets anything; if a
    task asks for an output that is none of the signature's, delivery stops there.
   */
  method SplitOutputTensors(
    p: Plan, combined: seq<Tensor>, batch: seq<BatchingSessionTask>, moved: MovedFrom, ghost before: seq<Snapshot>)
    returns (status: Status)
    requires DistinctStrings(p.sig.outputs) && Apart(batch) && Shows(batch, before) && AllAwait(batch, before)
    modifies AllObjects(batch)
    ensures status.OK? <==> batch != [] && Splits(p, Views(batch), combined)
    ensures Shows(batch, Pushed(batch, before, RowsGiven(p, Views(batch), combined, moved), |batch|))
    ensures status.Error? && batch != [] ==> status.code == SplitErrorCode(p, Views(batch), combined)
    ensures status.Error? ==>
      status.code == if batch != [] && |combined| == |p.sig.outputs| && !Splittable(p, Views(batch), combined)
                     then FailedPrecondition else Internal
  {
    if |batch| < 1 {
      return Error(Internal, "Batch size expected to be positive");
    }
    status := SplitAndDeliver(p, combined, batch, moved, before);
  }

  lemma NoRowsGiven(
    p: Plan, batch: seq<BatchingSessionTask>, combined: seq<Tensor>, moved: MovedFrom, before: seq<Snapshot>)
    requires !Splittable(p, Views(batch), combined) && KeysAgree(batch, before)
    ensures Pushed(batch, before, RowsGiven(p, Views(batch), combined, moved), |batch|) == before
  {
    PushedNothing(batch, before, RowsGiven(p, Views(batch), combined, moved), 0, |batch|);
  }

  lemma SplitsIff(p: Plan, batch: seq<TaskView>, combined: seq<Tensor>)
    requires Splittable(p, batch, combined)
    ensures Splits(p, batch, combined) <==> Leading(p.sig, batch) == |batch|
    ensures SplitErrorCode(p, batch, combined) == Internal
  {}

  method SplitAndDeliver(
    p: Plan, combined: seq<Tensor>, batch: seq<BatchingSessionTask>, moved: MovedFrom, ghost before: seq<Snapshot>)
    returns (status: Status)
    requires DistinctStrings(p.sig.outputs) && Apart(batch) && Shows(batch, before) && AllAwait(batch, before)
    modifies AllObjects(batch)
    ensures status.OK? <==> Splits(p, Views(batch), combined)
    ensures Shows(batch, Pushed(batch, before, RowsGiven(p, Views(batch), combined, moved), |batch|))
    ensures status.Error? ==> status.code == SplitErrorCode(p, Views(batch), combined)
  {
    ShownKeysAgree(batch, before);
    var split := SplitAll(p, Views(batch), combined);
    if split.Failure? {
      NoRowsGiven(p, batch, combined, moved, before);
      return split.error;
    }
    SplitsIff(p, Views(batch), combined);
    var conform := DeliverSplit(p, combined, split.value, batch, moved, before);
    status := if conform then OK else Error(Internal, "Task does not conform to batch signature");
  }

  method DeliverSplit(
    ghost p: Plan, ghost combined: seq<Tensor>, split: TensorLists, batch: seq<BatchingSessionTask>, moved: MovedFrom,
    ghost before: seq<Snapshot>)
    returns (conform: bool)
    requires Splittable(p, Views(batch), combined) && AreSplit(p, Views(batch), combined, |p.sig.outputs|, split)
    requires split.Keys == SetOf(p.sig.outputs) && Apart(batch) && Shows(batch, before) && AllAwait(batch, before)
    modifies AllObjects(batch)
    ensures conform <==> Leading(p.sig, Views(batch)) == |batch|
    ensures Shows(batch, Pushed(batch, before, RowsGiven(p, Views(batch), combined, moved), |batch|))
  {
    ghost var rows := RowsGiven(p, Views(batch), combined, moved);
    ShownKeysAgree(batch, before);
    GivenRowsMatch(p, batch, combined, split, moved);
    conform := DeliverAll(p.sig, batch, split, moved, before, rows, Leading(p.sig, Views(batch)));
  }

  // ---------- Finishing the tasks ----------

  method FinishTask(d: Destination, status: Status, ghost before: Snapshot)
    requires ShowsAt(d, before) && CanFinish(d, before, status)
    modifies Objects(d)
    ensures ShowsAt(d, Finished(d, before, status))
  {
    match d {
      case Whole(call) =>
        call.status := status;
        call.notifications := call.notifications + 1;
      case Partial(request, j) =>
        request.Report(j, status);
        request.Callback(j);
    }
  }

  method FinishNext(batch: seq<BatchingSessionTask>, k: nat, status: Status, ghost before: seq<Snapshot>)
    requires k < |batch| && Apart(batch) && Shows(batch, before) && CanFinish(batch[k].destination, before[k], status)
    modifies Objects(batch[k].destination)
    ensures Shows(batch, Changed(batch, before, k, Finished(batch[k].destination, before[k], status)))
  {
    FinishTask(batch[k].destination, status, before[k]);
    ghost var after := Finished(batch[k].destination, before[k], status);
    forall h | 0 <= h < |batch|
      ensures ShowsAt(batch[h].destination, if SameKey(batch, h, k) then after else before[h])
    {
      if SameKey(batch, h, k) {
        assert h != k ==> Compatible(batch[h].destination, batch[k].destination);
        SameKeyShows(batch[k].destination, batch[h].destination, after);
      } else {
        assert Compatible(batch[h].destination, batch[k].destination);
        match batch[h].destination {
          case Whole(call) => assert unchanged(call);
          case Partial(request, _) =>
            assert unchanged(request);
            assert unchanged(request.call);
            assert unchanged(request.sharedStatus);
            assert unchanged(request.barrier);
        }
        Untouched(batch[h].destination);
      }
    }
  }

  /** Every task has its row, and has all of its outputs if the status is OK. */
  ghost predicate CanFinishAll(
    batch: seq<BatchingSessionTask>, snapshots: seq<Snapshot>, rows: seq<seq<Tensor>>, status: Status)
  {
    |snapshots| == |batch| == |rows| && forall k :: 0 <= k < |batch| ==>
      && Awaits(batch[k].destination, snapshots[k], |batch[k].view.outputs|, rows[k])
      && (status.OK? ==> |rows[k]| == |batch[k].view.outputs|)
  }

  lemma StillCanFinish(
    batch: seq<BatchingSessionTask>, before: seq<Snapshot>, rows: seq<seq<Tensor>>, status: Status, n: nat, k: nat)
    requires n <= k < |batch| && Apart(batch) && KeysAgree(batch, before) && CanFinishAll(batch, before, rows, status)
    ensures CanFinish(batch[k].destination, Told(batch, before, status, n)[k], status)
  {
    assert Awaits(batch[k].destination, before[k], |batch[k].view.outputs|, rows[k]);
    match batch[k].destination
    case Whole(_) => ToldCall(batch, before, status, n, k);
    case Partial(_, _) => ToldPiece(batch, before, status, n, k, |batch[k].view.outputs|, rows[k]);
  }

  /** What happens on every way out of `ProcessBatch`: each task is told the status, once. */
  method FinishAll(
    batch: seq<BatchingSessionTask>, status: Status, ghost before: seq<Snapshot>, ghost rows: seq<seq<Tensor>>)
    requires Apart(batch) && Shows(batch, before) && CanFinishAll(batch, before, rows, status)
    modifies AllObjects(batch)
    ensures Shows(batch, Told(batch, before, status, |batch|))
  {
    ShownKeysAgree(batch, before);
    for k := 0 to |batch|
      invariant Shows(batch, Told(batch, before, status, k))
    {
      StillCanFinish(batch, before, rows, status, k, k);
      FinishNext(batch, k, status, Told(batch, before, status, k));
    }
  }

  // ---------- Processing a batch ----------

  /** The wrapped session's answer to a run. */
  datatype RunResult = RunResult(status: Status, outputs: seq<Tensor>)

  /** The wrapped session: a timeout in milliseconds, named inputs, and the names of the outputs. */
  type Session = (int, seq<NamedTensor>, seq<string>) -> RunResult

  ghost function Answer(p: Plan, batch: seq<TaskView>, timeout: int, session: Session): RunResult {
    session(timeout, MergedList(p, batch), p.sig.outputs)
  }

  /** The session is asked, and answers with success. */
  ghost predicate Runs(p: Plan, batch: seq<TaskView>, expired: bool, timeout: int, session: Session) {
    !expired && Merges(p, batch) && Answer(p, batch, timeout, session).status.OK?
  }

  /** The status of a batch: the first failure among waiting too long, merging, running and splitting. */
  ghost predicate IsOutcome(
    p: Plan, batch: seq<TaskView>, expired: bool, timeout: int, session: Session, status: Status)
  {
    if expired then status.Error? && status.code == ResourceExhausted
    else if !Mergeable(p, batch) then status.Error? && status.code == MergeErrorCode(p.options)
    else if !Concatenable(p, batch) then status.Error? && status.code == Internal
    else
      var ran := Answer(p, batch, timeout, session);
      if ran.status.Error? then status == ran.status
      else if Splits(p, batch, ran.outputs) then status == OK
      else status.Error? && status.code == SplitErrorCode(p, batch, ran.outputs)
  }

  /** The rows that the tasks are given by the batch, if anything is run at all. */
  ghost function RowsOfBatch(
    p: Plan, batch: seq<TaskView>, expired: bool, timeout: int, session: Session, moved: MovedFrom)
    : (rows: seq<seq<Tensor>>)
    ensures |rows| == |batch|
  {
    if Runs(p, batch, expired, timeout, session)
    then RowsGiven(p, batch, Answer(p, batch, timeout, session).outputs, moved)
    else seq(|batch|, _ => [])
  }

  /** The session's answer if it was asked and succeeded; else the status of the batch. */
  ghost predicate IsRan(
    p: Plan, batch: seq<TaskView>, expired: bool, timeout: int, session: Session, ran: RunResult)
  {
    && (ran.status.OK? <==> Runs(p, batch, expired, timeout, session))
    && (ran.status.OK? ==> ran == Answer(p, batch, timeout, session))
    && (ran.status.Error? ==> IsOutcome(p, batch, expired, timeout, session, ran.status))
  }

  /** Merges the inputs and runs the wrapped session on them, unless the batch has expired. */
  method RunMerged(
    o: Options, sig: Signature, batch: seq<TaskView>, expired: bool, timeout: int, session: Session)
    returns (ran: RunResult, p: Plan)
    requires batch != [] && IsSignature(sig) && Readable(o, batch)
    ensures p.options == o && p.sig == sig && (!expired ==> SizesFor(p, batch))
    ensures IsRan(p, batch, expired, timeout, session, ran)
  {
    p := Plan(o, sig, map[]);
    if expired {
      return RunResult(Error(ResourceExhausted, "Run() timeout exceeded while waiting in batching queue"), []), p;
    }
    var merged, plan := MergeInputTensors(o, sig, batch);
    p := plan;
    if merged.Failure? {
      return RunResult(merged.error, []), p;
    }
    ran := session(timeout, merged.value, sig.outputs);
  }

  lemma PendingAwait(batch: seq<BatchingSessionTask>)
    requires Pending(batch)
    ensures Shows(batch, Snapshots(batch)) && AllAwait(batch, Snapshots(batch))
  {}

  lemma RowsAreComplete(p: Plan, batch: seq<TaskView>, combined: seq<Tensor>, moved: MovedFrom, k: nat)
    requires k < |batch| && Splits(p, batch, combined)
    ensures |RowsGiven(p, batch, combined, moved)[k]| == |batch[k].outputs|
  {
    KnownRowsAreDelivered(p, batch, combined, moved, k);
  }

  /** Once the rows are there, every task can be told the status of the batch. */
  lemma PushedCanFinish(
    batch: seq<BatchingSessionTask>, before: seq<Snapshot>, rows: seq<seq<Tensor>>, status: Status)
    requires |rows| == |batch| && Apart(batch) && KeysAgree(batch, before) && AllAwait(batch, before)
    requires status.OK? ==> forall k :: 0 <= k < |batch| ==> |rows[k]| == |batch[k].view.outputs|
    ensures CanFinishAll(batch, Pushed(batch, before, rows, |batch|), rows, status)
  {
    forall k | 0 <= k < |batch|
      ensures Awaits(batch[k].destination, Pushed(batch, before, rows, |batch|)[k], |batch[k].view.outputs|, rows[k])
    {
      assert Awaits(batch[k].destination, before[k], |batch[k].view.outputs|, []);
      match batch[k].destination
      case Whole(_) => PushedCall(batch, before, rows, |batch|, k);
      case Partial(_, _) => PushedPiece(batch, before, rows, |batch|, k, |batch[k].view.outputs|);
    }
  }

  /** Splits the answer of a run that succeeded; the status is what the tasks will be told. */
  method DeliverRun(
    p: Plan, ran: RunResult, batch: seq<BatchingSessionTask>, moved: MovedFrom, ghost before: seq<Snapshot>,
    ghost expired: bool, ghost timeout: int, ghost session: Session)
    returns (status: Status)
    requires batch != [] && DistinctStrings(p.sig.outputs)
    requires Apart(batch) && Shows(batch, before) && AllAwait(batch, before)
    requires IsRan(p, Views(batch), expired, timeout, session, ran)
    modifies AllObjects(batch)
    ensures IsOutcome(p, Views(batch), expired, timeout, session, status)
    ensures Shows(batch, Pushed(batch, before, RowsOfBatch(p, Views(batch), expired, timeout, session, moved), |batch|))
  {
    if ran.status.Error? {
      ShownKeysAgree(batch, before);
      PushedNothing(batch, before, RowsOfBatch(p, Views(batch), expired, timeout, session, moved), 0, |batch|);
      return ran.status;
    }
    status := SplitOutputTensors(p, ran.outputs, batch, moved, before);
  }

  /** What is run of a batch that is taken at time `now`, and what it is told. */
  ghost predicate IsResult(
    p: Plan, batch: seq<BatchingSessionTask>, now: nat, session: Session, moved: MovedFrom,
    rows: seq<seq<Tensor>>, status: Status)
  {
    var views, expired := Views(batch), AllExpired(batch, now);
    var timeout := RunTimeoutMillis(LatestDeadline(batch, now), now);
    && (!expired ==> SizesFor(p, views))
    && IsOutcome(p, views, expired, timeout, session, status)
    && rows == RowsOfBatch(p, views, expired, timeout, session, moved)
  }

  lemma OutcomeRowsAreComplete(
    p: Plan, batch: seq<BatchingSessionTask>, now: nat, session: Session, moved: MovedFrom,
    rows: seq<seq<Tensor>>, status: Status)
    requires IsResult(p, batch, now, session, moved, rows, status) && status.OK?
    ensures forall k :: 0 <= k < |batch| ==> |rows[k]| == |batch[k].view.outputs|
  {
    var timeout := RunTimeoutMillis(LatestDeadline(batch, now), now);
    forall k | 0 <= k < |batch| ensures |rows[k]| == |batch[k].view.outputs| {
      RowsAreComplete(p, Views(batch), Answer(p, Views(batch), timeout, session).outputs, moved, k);
    }
  }

  /** Runs the batch, whatever comes of it. */
  method RunBatch(
    o: Options, sig: Signature, batch: seq<BatchingSessionTask>, now: nat, session: Session, moved: MovedFrom,
    ghost before: seq<Snapshot>)
    returns (status: Status, p: Plan, ghost rows: seq<seq<Tensor>>)
    requires batch != [] && IsSignature(sig) && Readable(o, Views(batch))
    requires Apart(batch) && Shows(batch, before) && AllAwait(batch, before)
    modifies AllObjects(batch)
    ensures p.options == o && p.sig == sig && IsResult(p, batch, now, session, moved, rows, status)
    ensures |rows| == |batch| && Shows(batch, Pushed(batch, before, rows, |batch|))
  {
    ghost var expired, timeout := AllExpired(batch, now), RunTimeoutMillis(LatestDeadline(batch, now), now);
    var ran, plan := AskSession(o, sig, batch, now, session);
    p, rows := plan, RowsOfBatch(plan, Views(batch), expired, timeout, session, moved);
    status := DeliverRun(p, ran, batch, moved, before, expired, timeout, session);
    ResultIs(p, batch, now, session, moved, status, expired, timeout);
  }

  lemma ResultIs(
    p: Plan, batch: seq<BatchingSessionTask>, now: nat, session: Session, moved: MovedFrom, status: Status,
    expired: bool, timeout: int)
    requires expired == AllExpired(batch, now) && timeout == RunTimeoutMillis(LatestDeadline(batch, now), now)
    requires !expired ==> SizesFor(p, Views(batch))
    requires IsOutcome(p, Views(batch), expired, timeout, session, status)
    ensures IsResult(
      p, batch, now, session, moved, RowsOfBatch(p, Views(batch), expired, timeout, session, moved), status)
  {}

  /** Runs the merged inputs of the batch with what is left of its time. */
  method AskSession(o: Options, sig: Signature, batch: seq<BatchingSessionTask>, now: nat, session: Session)
    returns (ran: RunResult, p: Plan)
    requires batch != [] && IsSignature(sig) && Readable(o, Views(batch))
    ensures p.options == o && p.sig == sig && (!AllExpired(batch, now) ==> SizesFor(p, Views(batch)))
    ensures IsRan(
      p, Views(batch), AllExpired(batch, now), RunTimeoutMillis(LatestDeadline(batch, now), now), session, ran)
  {
    var exceeded, latest := FindDeadline(batch, now);
    ran, p := RunMerged(o, sig, Views(batch), exceeded, RunTimeoutMillis(latest, now), session);
  }

  /**
    Processes a batch. Whatever happens, every caller is notified exactly once and every piece reports and
    calls back exactly once, all with the batch's status, after the rows have been given.
   */
  method ProcessBatch(
    o: Options, sig: Signature, batch: seq<BatchingSessionTask>, now: nat, session: Session, moved: MovedFrom)
    returns (ghost status: Status, ghost p: Plan, ghost rows: seq<seq<Tensor>>)
    requires Apart(batch) && Pending(batch) && IsSignature(sig) && Readable(o, Views(batch))
    modifies AllObjects(batch)
    ensures |rows| == |batch| && p.options == o && p.sig == sig
    ensures batch != [] ==> IsResult(p, batch, now, session, moved, rows, status)
    ensures var before := old(Snapshots(batch));
      Shows(batch, Told(batch, Pushed(batch, before, rows, |batch|), status, |batch|))
  {
    status, p, rows := OK, Plan(o, sig, map[]), [];
    ghost var before := Snapshots(batch);
    PendingAwait(batch);
    if batch == [] {
      return;
    }
    ShownKeysAgree(batch, before);
    var result, plan, given := RunBatch(o, sig, batch, now, session, moved, before);
    status, p, rows := result, plan, given;
    if result.OK? {
      OutcomeRowsAreComplete(p, batch, now, session, moved, rows, result);
    }
    PushedCanFinish(batch, before, rows, result);
    FinishAll(batch, result, Pushed(batch, before, rows, |batch|), rows);
  }

  /**
    What this comes to for task `k`. A caller has the row appended to its outputs, has the status, and is
    notified once more. A piece has the row in the matrix, has reported the status and has called back,
    whether or not other pieces of its request are in the batch.
   */
  lemma TaskIsServed(
    batch: seq<BatchingSessionTask>, before: seq<Snapshot>, rows: seq<seq<Tensor>>, status: Status, k: nat)
    requires k < |batch| == |rows| && Apart(batch) && KeysAgree(batch, before) && AllAwait(batch, before)
    ensures var d, n := batch[k].destination, |batch|;
      var after := Told(batch, Pushed(batch, before, rows, n), status, n)[k];
      if d.Whole? then
        && before[k].OfCall?
        && after == OfCall(before[k].outputs + rows[k], status, before[k].notifications + 1)
      else
        && after.OfRequest? && d.index < |after.state.pieces|
        && after.state.pieces[d.index] == Piece(Called, rows[k])
        && Report(d.index, status) in after.state.reports
  {
    var d, n, numOutputs := batch[k].destination, |batch|, |batch[k].view.outputs|;
    var pushed := Pushed(batch, before, rows, n);
    assert Awaits(d, before[k], numOutputs, []);
    match d
    case Whole(_) =>
      PushedCall(batch, before, rows, n, k);
      ToldCall(batch, pushed, status, n, k);
    case Partial(_, _) =>
      PushedPiece(batch, before, rows, n, k, numOutputs);
      ToldPiece(batch, pushed, status, n, k, numOutputs, rows[k]);
      ToldReport(batch, pushed, status, n, k, numOutputs, rows[k]);
  }

  /**
    A batch that fails before its outputs are there gives nobody any: it has expired, or cannot be merged, or
    its run fails, in which case the status is the run's.
   */
  lemma FailedRunGivesNothing(
    p: Plan, batch: seq<BatchingSessionTask>, now: nat, session: Session, moved: MovedFrom,
    rows: seq<seq<Tensor>>, status: Status)
    requires batch != [] && IsResult(p, batch, now, session, moved, rows, status)
    ensures var timeout := RunTimeoutMillis(LatestDeadline(batch, now), now);
      var ran := session(timeout, MergedList(p, Views(batch)), p.sig.outputs);
      && (AllExpired(batch, now) ==> status.Error? && status.code == ResourceExhausted)
      && (!AllExpired(batch, now) && !Merges(p, Views(batch)) ==>
        status.Error? && status.code in {Internal, InvalidArgument, FailedPrecondition})
      && (!AllExpired(batch, now) && Merges(p, Views(batch)) && ran.status.Error? ==> status == ran.status)
      && (AllExpired(batch, now) || !Merges(p, Views(batch)) || ran.status.Error? ==>
        forall k :: 0 <= k < |rows| ==> rows[k] == [])
  {}
}
