/** Cutting an oversized task into pieces that answer one shared request. */
module TaskSplitting {
  import opened Common
  import opened Tensors
  import opened Batching
  import opened InputSplitting
  import opened SplitJoin
  import opened SplitRequests
  import opened BatchTasks

  ghost predicate CanSplit(t: TaskView) {
    forall e :: e in t.inputs ==> e.tensor.Ranked? && |e.tensor.rows| == t.size
  }

  /** What the request looks like when its pieces set out: all of them waited for, and the barrier gone. */
  function SetOut(numOutputs: nat, count: nat): State {
    Init(numOutputs).(left := count, alive := false, pieces := seq(count, _ => Piece(Waiting, [])))
  }

  /** Makes a callback for every piece. */
  method PrepareRequest(call: RunCall, numOutputs: nat, count: nat, missing: ShortReads) returns (request: SplitRequest)
    requires call.outputs == [] && call.status == OK && call.notifications == 0
    modifies call
    ensures fresh(request.Footprint() - {call}) && request.call == call
    ensures request.missing == missing && request.numOutputs == numOutputs
    ensures request.Valid() && request.View() == SetOut(numOutputs, count).(left := count + 1, alive := true)
  {
    request := new SplitRequest(call, numOutputs, missing);
    for i := 0 to count
      invariant fresh(request.Footprint() - {call}) && request.call == call && request.missing == missing
      invariant request.Valid() && request.View() == SetOut(numOutputs, i).(left := i + 1, alive := true)
    {
      request.Inc();
    }
  }

  /** The inputs of every piece: the segments of each input, if all of them can be cut. */
  method SplitInputs(t: TaskView, sizes: seq<nat>) returns (r: Result<seq<seq<NamedTensor>>>)
    requires Sum(sizes) == t.size
    ensures r.Success? <==> CanSplit(t)
    ensures r.Success? ==>
      |r.value| == |sizes| && forall j :: 0 <= j < |sizes| ==> r.value[j] == PieceInputs(t.inputs, sizes, j)
    ensures r.Failure? ==> r.error.Error? && r.error.code == Internal
  {
    var inputs: seq<seq<NamedTensor>> := seq(|sizes|, _ => []);
    for i := 0 to |t.inputs|
      invariant forall h :: 0 <= h < i ==> t.inputs[h].tensor.Ranked? && |t.inputs[h].tensor.rows| == t.size
      invariant SplitSoFar(t.inputs, sizes, i, inputs)
    {
      assert t.inputs[i] in t.inputs;
      inputs :- SplitNextInput(t, sizes, i, inputs);
    }
    r := Success(inputs);
  }

  method SplitNextInput(t: TaskView, sizes: seq<nat>, i: nat, inputs: seq<seq<NamedTensor>>)
    returns (r: Result<seq<seq<NamedTensor>>>)
    requires i < |t.inputs| && Sum(sizes) == t.size && SplitSoFar(t.inputs, sizes, i, inputs)
    ensures r.Success? <==> t.inputs[i].tensor.Ranked? && |t.inputs[i].tensor.rows| == t.size
    ensures r.Success? ==> SplitSoFar(t.inputs, sizes, i + 1, r.value)
    ensures r.Failure? ==> r.error.Error? && r.error.code == Internal
  {
    var splitTensors := Split(t.inputs[i].tensor, sizes);
    if splitTensors.Failure? {
      return Failure(Error(Internal, "When splitting input, Tensor split operation failed"));
    }
    var more := AppendInputs(inputs, t.inputs[i].name, splitTensors.value);
    SplitOneMore(t.inputs, sizes, i, inputs, more);
    r := Success(more);
  }

  /** The pieces have their segments of the first `i` inputs. */
  ghost predicate SplitSoFar(inputs: seq<NamedTensor>, sizes: seq<nat>, i: nat, pieces: seq<seq<NamedTensor>>)
    requires i <= |inputs|
  {
    |pieces| == |sizes| && forall j :: 0 <= j < |sizes| ==> pieces[j] == PieceInputs(inputs, sizes, j)[..i]
  }

  lemma SplitOneMore(
    inputs: seq<NamedTensor>, sizes: seq<nat>, i: nat, pieces: seq<seq<NamedTensor>>, more: seq<seq<NamedTensor>>)
    requires i < |inputs| && SplitSoFar(inputs, sizes, i, pieces) && Split(inputs[i].tensor, sizes).Success?
    requires |more| == |pieces|
    requires forall j :: 0 <= j < |more| ==>
      more[j] == pieces[j] + [NamedTensor(inputs[i].name, Split(inputs[i].tensor, sizes).value[j])]
    ensures SplitSoFar(inputs, sizes, i + 1, more)
  {
    forall j | 0 <= j < |sizes| ensures more[j] == PieceInputs(inputs, sizes, j)[..i + 1] {
      assert PieceInputs(inputs, sizes, j)[i] == NamedTensor(inputs[i].name, Split(inputs[i].tensor, sizes).value[j]);
    }
  }

  method AppendInputs(inputs: seq<seq<NamedTensor>>, name: string, tensors: seq<Tensor>)
    returns (r: seq<seq<NamedTensor>>)
    requires |inputs| == |tensors|
    ensures |r| == |inputs| && forall j :: 0 <= j < |r| ==> r[j] == inputs[j] + [NamedTensor(name, tensors[j])]
  {
    r := inputs;
    for j := 0 to |tensors|
      invariant |r| == |inputs|
      invariant forall h :: 0 <= h < |r| ==> r[h] == inputs[h] + if h < j then [NamedTensor(name, tensors[h])] else []
    {
      r := r[j := r[j] + [NamedTensor(name, tensors[j])]];
    }
  }

  /**
    Cuts a task into pieces of the computed sizes, which share a request that answers the task's caller.
    The barrier is destroyed on the way out; with pieces still waited for, this does not release it.
   */
  method SplitInputTask(task: BatchingSessionTask, openBatchRemainingSlot: nat, maxBatchSize: nat, missing: ShortReads)
    returns (r: Result<seq<BatchingSessionTask>>, request: SplitRequest)
    requires maxBatchSize > 0 && openBatchRemainingSlot < task.view.size
    requires task.destination.Whole?
    requires task.destination.call.outputs == [] && task.destination.call.status == OK
    requires task.destination.call.notifications == 0
    modifies task.destination.call
    ensures r.Success? <==> CanSplit(task.view)
    ensures r.Failure? ==> r.error.Error? && r.error.code == Internal
    ensures r.Success? ==>
      var sizes := PieceSizes(task.view.size, openBatchRemainingSlot, maxBatchSize);
      |r.value| == |sizes| && forall j :: 0 <= j < |sizes| ==>
        r.value[j] == task.(view := PieceTask(task.view, sizes, j), destination := Partial(request, j))
    ensures fresh(request.Footprint() - {task.destination.call}) && request.call == task.destination.call
    ensures request.Valid() && request.missing == missing
    ensures var s, count := request.View(), |PieceSizes(task.view.size, openBatchRemainingSlot, maxBatchSize)|;
      && s.numOutputs == |task.view.outputs| && s.left == count && !s.alive
      && s.joins == 0 && s.notifications == 0 && s.reports == [] && s.outputs == []
      && |s.pieces| == count && forall j :: 0 <= j < count ==> s.pieces[j] == Piece(Waiting, [])
  {
    var sizes := ComputePieceSizes(task.view.size, openBatchRemainingSlot, maxBatchSize);
    PieceSizesSum(task.view.size, openBatchRemainingSlot, maxBatchSize);
    request := PrepareRequest(task.destination.call, |task.view.outputs|, |sizes|, missing);
    var inputs := SplitInputs(task.view, sizes);
    request.DestroyBarrier();
    if inputs.Failure? {
      return Failure(inputs.error), request;
    }
    var pieces := seq(|sizes|, j requires 0 <= j < |sizes| =>
      task.(view := TaskView(sizes[j], inputs.value[j], task.view.outputs), destination := Partial(request, j)));
    r := Success(pieces);
  }
}
