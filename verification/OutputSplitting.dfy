/** Splitting the outputs of a batch: each combined tensor is cut into a segment for every task, and one for padding. */
module OutputSplitting {
  import opened Common
  import opened Tensors
  import opened BatchSizes
  import opened Batching
  import opened InputSplitting
  import opened InputMerging

  ghost predicate RowsFitBatch(o: Options, batch: seq<TaskView>, t: Tensor) {
    t.Ranked? && |t.rows| == TotalSize(batch) + PaddingSize(o, batch)
  }

  /** There is one combined tensor per output, each with a row for every row of the padded batch. */
  ghost predicate Splittable(p: Plan, batch: seq<TaskView>, combined: seq<Tensor>) {
    |combined| == |p.sig.outputs| && forall i :: 0 <= i < |combined| ==> RowsFitBatch(p.options, batch, combined[i])
  }

  lemma SumOfSplitSizes(o: Options, batch: seq<TaskView>)
    ensures Sum(SplitSizes(o, batch)) == TotalSize(batch) + PaddingSize(o, batch)
  {
    SumOfTaskSizes(batch);
    SumConcat(TaskSizes(batch), if PaddingSize(o, batch) > 0 then [PaddingSize(o, batch)] else []);
    assert PaddingSize(o, batch) > 0 ==> Sum([PaddingSize(o, batch)]) == Sum([]) + PaddingSize(o, batch);
  }

  ghost predicate IsSplit(o: Options, batch: seq<TaskView>, t: Tensor, pieces: seq<Tensor>) {
    |pieces| >= |batch| && forall k :: 0 <= k < |batch| ==> pieces[k] == PieceOf(t, SplitSizes(o, batch), k)
  }

  method TaskSizesPlusPadding(o: Options, batch: seq<TaskView>) returns (sizes: seq<nat>)
    ensures sizes == SplitSizes(o, batch)
  {
    sizes := [];
    for i := 0 to |batch|
      invariant sizes == TaskSizes(batch)[..i]
    {
      sizes := sizes + [batch[i].size];
    }
    var lowestAllowedBatchSize := RoundToLowestAllowedBatchSize(o.allowedBatchSizes, TotalSize(batch));
    var paddingSize := lowestAllowedBatchSize - TotalSize(batch);
    if paddingSize > 0 {
      sizes := sizes + [paddingSize];
    }
  }

  method SplitCombined(o: Options, batch: seq<TaskView>, t: Tensor) returns (r: Result<seq<Tensor>>)
    ensures r.Success? <==> RowsFitBatch(o, batch, t)
    ensures r.Success? ==> IsSplit(o, batch, t, r.value)
    ensures r.Failure? ==> r.error.Error? && r.error.code == FailedPrecondition
  {
    var sizes := TaskSizesPlusPadding(o, batch);
    var paddedBatchSize := RoundToLowestAllowedBatchSize(o.allowedBatchSizes, TotalSize(batch));
    if t.Scalar? {
      return Failure(Error(FailedPrecondition, "Batched output tensor has 0 dimensions"));
    }
    if |t.rows| != paddedBatchSize {
      return Failure(Error(FailedPrecondition,
        "Batched output tensor's 0th dimension does not equal the sum of the input sizes"));
    }
    SplitIs(o, batch, t);
    r := Split(t, sizes);
  }

  lemma SplitIs(o: Options, batch: seq<TaskView>, t: Tensor)
    requires RowsFitBatch(o, batch, t)
    ensures var r := Split(t, SplitSizes(o, batch)); r.Success? && IsSplit(o, batch, t, r.value)
  {
    SumOfSplitSizes(o, batch);
  }

  ghost predicate AreSplit(p: Plan, batch: seq<TaskView>, combined: seq<Tensor>, n: nat, split: TensorLists)
    requires n <= |p.sig.outputs| && n <= |combined|
  {
    forall i :: 0 <= i < n ==>
      p.sig.outputs[i] in split && IsSplit(p.options, batch, combined[i], split[p.sig.outputs[i]])
  }

  /** Cuts every combined output, one segment per task and one for the padding. */
  method SplitAll(p: Plan, batch: seq<TaskView>, combined: seq<Tensor>) returns (r: Result<TensorLists>)
    requires DistinctStrings(p.sig.outputs)
    ensures r.Success? <==> Splittable(p, batch, combined)
    ensures r.Success? ==>
      r.value.Keys == SetOf(p.sig.outputs) && AreSplit(p, batch, combined, |p.sig.outputs|, r.value)
    ensures r.Failure? ==>
      r.error.Error? && r.error.code == if |combined| != |p.sig.outputs| then Internal else FailedPrecondition
  {
    if |combined| != |p.sig.outputs| {
      return Failure(Error(Internal, "Wrong number of batched output tensors"));
    }
    var split: TensorLists := map[];
    for i := 0 to |combined|
      invariant forall h :: 0 <= h < i ==> RowsFitBatch(p.options, batch, combined[h])
      invariant split.Keys == SetOf(p.sig.outputs[..i]) && AreSplit(p, batch, combined, i, split)
    {
      var pieces :- SplitCombined(p.options, batch, combined[i]);
      split := split[p.sig.outputs[i] := pieces];
      PrefixGrows(p.sig.outputs, i);
    }
    assert p.sig.outputs[..|p.sig.outputs|] == p.sig.outputs;
    r := Success(split);
  }

  // ---------- What each task is given ----------

  /** How many of the outputs come before the first that is none of the signature's. */
  function Known(sig: Signature, outputs: seq<string>): (n: nat)
    ensures n <= |outputs| && (forall j :: 0 <= j < n ==> outputs[j] in sig.outputs)
    ensures n < |outputs| ==> outputs[n] !in sig.outputs
  {
    if outputs == [] || outputs[0] !in sig.outputs then 0 else 1 + Known(sig, outputs[1..])
  }

  predicate AllKnown(sig: Signature, t: TaskView) {
    Known(sig, t.outputs) == |t.outputs|
  }

  /** How many of the tasks come before the first that asks for an output that is none of the signature's. */
  function Leading(sig: Signature, batch: seq<TaskView>): (n: nat)
    ensures n <= |batch| && (forall k :: 0 <= k < n ==> AllKnown(sig, batch[k]))
    ensures n < |batch| ==> !AllKnown(sig, batch[n])
  {
    if batch == [] || !AllKnown(sig, batch[0]) then 0 else 1 + Leading(sig, batch[1..])
  }

  /**
    The rows that the tasks are given: none if the combined outputs cannot be split; else every task is
    given its outputs, up to the first one, if any, that is none of the signature's.
   */
  ghost function RowsGiven(p: Plan, batch: seq<TaskView>, combined: seq<Tensor>, moved: MovedFrom): seq<seq<Tensor>> {
    seq(|batch|, k requires 0 <= k < |batch| =>
      if Splittable(p, batch, combined) && k <= Leading(p.sig, batch)
      then Delivered(p, batch, combined, k, moved)[..Known(p.sig, batch[k].outputs)]
      else [])
  }

  lemma ConformingTaskIsKnown(sig: Signature, t: TaskView)
    requires SetOf(t.outputs) <= SetOf(sig.outputs)
    ensures AllKnown(sig, t)
  {
    forall j | 0 <= j < |t.outputs| ensures t.outputs[j] in sig.outputs {
      assert t.outputs[j] in SetOf(t.outputs);
    }
  }

  lemma RowGivenIs(p: Plan, batch: seq<TaskView>, combined: seq<Tensor>, moved: MovedFrom, k: nat)
    requires Splittable(p, batch, combined) && k < |batch| && k <= Leading(p.sig, batch)
    ensures RowsGiven(p, batch, combined, moved)[k]
         == Delivered(p, batch, combined, k, moved)[..Known(p.sig, batch[k].outputs)]
  {}

  /** Tasks that ask for outputs of the signature only are given all of them. */
  lemma KnownRowsAreDelivered(p: Plan, batch: seq<TaskView>, combined: seq<Tensor>, moved: MovedFrom, k: nat)
    requires Splittable(p, batch, combined) && k < |batch| && forall h :: 0 <= h < |batch| ==> AllKnown(p.sig, batch[h])
    ensures RowsGiven(p, batch, combined, moved)[k] == Delivered(p, batch, combined, k, moved)
  {
    assert Leading(p.sig, batch) == |batch|;
  }
}
