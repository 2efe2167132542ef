/** What processing batches means for the callers when the wrapped session is a row-wise model. */
module BatchingTheorems {
  import opened Common
  import opened Tensors
  import opened Padding
  import opened Batching
  import opened InputMerging
  import opened OutputSplitting
  import opened SplitTransparency
  import opened BatchingSessions

  /** The session that runs a row-wise model on as many rows as its first input has. */
  function RowWise(m: Model): Session {
    (timeout: int, inputs: seq<NamedTensor>, outputs: seq<string>) =>
      RunResult(OK, Run(m, InputMap(inputs), if inputs == [] then 0 else |RowsOf(inputs[0].tensor)|, outputs))
  }

  function RowsOf(t: Tensor): seq<Row> {
    if t.Ranked? then t.rows else []
  }

  lemma RowWiseOn(m: Model, timeout: int, list: seq<NamedTensor>, tensors: map<string, Tensor>, outputs: seq<string>)
    requires list != [] && InputMap(list) == tensors
    ensures RowWise(m)(timeout, list, outputs) == RunResult(OK, Run(m, tensors, |RowsOf(list[0].tensor)|, outputs))
  {}

  lemma ListIsMap(list: seq<NamedTensor>, names: seq<string>, tensors: map<string, Tensor>)
    requires DistinctStrings(names) && |list| == |names| && tensors.Keys == SetOf(names)
    requires forall k :: 0 <= k < |list| ==>
      list[k].name == names[k] && names[k] in SetOf(names) && list[k].tensor == tensors[names[k]]
    ensures InputMap(list) == tensors
  {
    InputMapIs(list);
    forall k | 0 <= k < |names| ensures names[k] in InputMap(list) && InputMap(list)[names[k]] == tensors[names[k]] {
      assert list[k] in list;
    }
    forall name | name in InputMap(list) ensures name in SetOf(names) {
      assert NamedTensor(name, InputMap(list)[name]) in list;
    }
  }

  lemma MergedListIsMap(p: Plan, batch: seq<TaskView>)
    requires DistinctStrings(p.sig.inputs)
    ensures InputMap(MergedList(p, batch)) == MergedInputs(p, batch)
  {
    ListIsMap(MergedList(p, batch), p.sig.inputs, MergedInputs(p, batch));
  }

  /** The merged inputs have a row for every row of the padded batch. */
  lemma MergedRows(p: Plan, batch: seq<TaskView>, name: string)
    requires GoodBatch(p, batch) && name in p.sig.inputs
    ensures |RowsOf(MergedTensor(p, batch, name))| == TotalSize(batch) + PaddingSize(p.options, batch)
  {
    var parts := Parts(p, batch, PaddingSize(p.options, batch));
    MergedIsStacked(p, batch, name);
    PartsHaveRows(p, batch);
    assert name in StackAll(parts, SetOf(p.sig.inputs));
    assert StackAll(parts, SetOf(p.sig.inputs))[name].rows == AllRows(Column(parts, name));
  }

  lemma PartsHaveRows(p: Plan, batch: seq<TaskView>)
    requires GoodBatch(p, batch)
    ensures var padding := PaddingSize(p.options, batch);
      HasRows(StackAll(Parts(p, batch, padding), SetOf(p.sig.inputs)), TotalSize(batch) + padding)
  {
    var padding := PaddingSize(p.options, batch);
    PartsOfGoodBatch(p, batch);
    StackHasRows(Parts(p, batch, padding), PartSizes(batch, padding), SetOf(p.sig.inputs));
    SumOfPartSizes(batch, padding);
  }

  lemma SessionGivesCombined(m: Model, p: Plan, batch: seq<TaskView>, timeout: int)
    requires GoodBatch(p, batch) && DistinctStrings(p.sig.inputs) && p.sig.inputs != []
    ensures Answer(p, batch, timeout, RowWise(m)) == RunResult(OK, CombinedOutputs(m, p, batch))
  {
    var list := MergedList(p, batch);
    MergedListIsMap(p, batch);
    RowWiseOn(m, timeout, list, MergedInputs(p, batch), p.sig.outputs);
    var size := |RowsOf(list[0].tensor)|;
    MergedRows(p, batch, p.sig.inputs[0]);
    RunGivesCombined(m, p, batch, size);
  }

  lemma RunGivesCombined(m: Model, p: Plan, batch: seq<TaskView>, size: nat)
    requires size == TotalSize(batch) + PaddingSize(p.options, batch)
    ensures Run(m, MergedInputs(p, batch), size, p.sig.outputs) == CombinedOutputs(m, p, batch)
    ensures Splittable(p, batch, CombinedOutputs(m, p, batch))
  {}

  /** A batch that has not expired and whose inputs fit together succeeds. */
  lemma BatchSucceeds(m: Model, p: Plan, batch: seq<TaskView>, timeout: int, status: Status)
    requires GoodBatch(p, batch) && DistinctStrings(p.sig.inputs) && p.sig.inputs != []
    ensures IsOutcome(p, batch, false, timeout, RowWise(m), status) ==> status == OK
  {
    GoodBatchMerges(p, batch);
    SessionGivesCombined(m, p, batch, timeout);
    GoodBatchSplits(m, p, batch);
  }

  lemma GoodBatchSplits(m: Model, p: Plan, batch: seq<TaskView>)
    requires GoodBatch(p, batch)
    ensures Splits(p, batch, CombinedOutputs(m, p, batch))
  {
    RunGivesCombined(m, p, batch, TotalSize(batch) + PaddingSize(p.options, batch));
    forall k | 0 <= k < |batch| ensures AllKnown(p.sig, batch[k]) {
      assert HasSignature(p.sig, batch[k]);
      ConformingTaskIsKnown(p.sig, batch[k]);
    }
  }

  /** The rows that the batch gives are what is delivered of the combined outputs. */
  lemma RowsAreDelivered(m: Model, p: Plan, batch: seq<TaskView>, timeout: int, k: nat, moved: MovedFrom)
    requires GoodBatch(p, batch) && DistinctStrings(p.sig.inputs) && p.sig.inputs != [] && k < |batch|
    ensures RowsOfBatch(p, batch, false, timeout, RowWise(m), moved)[k]
         == Delivered(p, batch, CombinedOutputs(m, p, batch), k, moved)
  {
    GoodBatchMerges(p, batch);
    SessionGivesCombined(m, p, batch, timeout);
    GoodBatchSplits(m, p, batch);
    KnownRowsAreDelivered(p, batch, CombinedOutputs(m, p, batch), moved, k);
  }

  /** Every task in it, whole or piece, is given what a run on its own prepared inputs would give it. */
  lemma BatchIsTransparent(m: Model, p: Plan, batch: seq<TaskView>, timeout: int, k: nat, moved: MovedFrom)
    requires GoodBatch(p, batch) && DistinctStrings(p.sig.inputs) && p.sig.inputs != [] && k < |batch|
    ensures Serves(batch[k].outputs, RowsOfBatch(p, batch, false, timeout, RowWise(m), moved)[k],
      Run(m, PreparedInputs(p, batch[k]), batch[k].size, batch[k].outputs))
  {
    RowsAreDelivered(m, p, batch, timeout, k, moved);
    BatchingIsTransparent(m, p, batch, k, moved);
  }

  /**
    For tasks that conform to the signature and have equal row shapes nothing else is needed: their batch
    succeeds unless it has expired, and each is given what a run on its own inputs would give it, where it
    asks for an output first; so everything, if it asks for none twice.
   */
  lemma EqualShapesAreServed(
    m: Model, p: Plan, batch: seq<TaskView>, timeout: int, status: Status, k: nat, moved: MovedFrom)
    requires Conforms(p, batch) && EqualRowShapes(batch) && NothingToPad(p, batch)
    requires DistinctStrings(p.sig.inputs) && p.sig.inputs != [] && k < |batch|
    ensures IsOutcome(p, batch, false, timeout, RowWise(m), status) ==> status == OK
    ensures var row := RowsOfBatch(p, batch, false, timeout, RowWise(m), moved)[k];
      var run := Run(m, InputMap(batch[k].inputs), batch[k].size, batch[k].outputs);
      Serves(batch[k].outputs, row, run) && (DistinctStrings(batch[k].outputs) ==> row == run)
  {
    EqualShapesAreMergeable(p, batch);
    BatchSucceeds(m, p, batch, timeout, status);
    RowsAreDelivered(m, p, batch, timeout, k, moved);
    EqualShapesAreTransparent(m, p, batch, k, moved);
  }

  /** Conforming tasks satisfy what the loops of merging ask for, if padding finds equal ranks. */
  lemma ConformingIsReadable(p: Plan, batch: seq<TaskView>)
    requires Conforms(p, batch) && (p.options.padVariableLengthInputs ==> EqualRanks(AllInputs(batch)))
    ensures Readable(p.options, batch)
  {
    forall i | 0 <= i < |batch| ensures AllWellFormed(batch[i]) {
      assert HasSignature(p.sig, batch[i]);
    }
    assert HasSignature(p.sig, batch[|batch| - 1]);
  }

  /** Conforming tasks with equal row shapes do. */
  lemma EqualShapesAreReadable(p: Plan, batch: seq<TaskView>)
    requires Conforms(p, batch) && EqualRowShapes(batch) && NothingToPad(p, batch)
    ensures Readable(p.options, batch)
  {
    if p.options.padVariableLengthInputs {
      forall k, e | 0 <= k < |batch| && e in batch[k].inputs
        ensures |Shape(e.tensor)| == RankIn(batch[0].inputs, e.name)
      {
        HasFirstRank(p, batch, k, e);
      }
      forall task | task in AllInputs(batch) ensures RanksEqual(task, AllInputs(batch)[0]) {
        var k :| 0 <= k < |batch| && AllInputs(batch)[k] == task;
      }
    }
    ConformingIsReadable(p, batch);
  }

  lemma HasFirstRank(p: Plan, batch: seq<TaskView>, k: nat, e: NamedTensor)
    requires Conforms(p, batch) && EqualRowShapes(batch) && k < |batch| && e in batch[k].inputs
    ensures |Shape(e.tensor)| == RankIn(batch[0].inputs, e.name)
  {
    HasFirstShape(p, batch, k, e);
    assert HasSignature(p.sig, batch[0]) && HasSignature(p.sig, batch[k]);
    assert e.name in NamesOf(batch[k].inputs) && e.name in SetOf(p.sig.inputs);
    FirstInput(p, batch[0], e.name);
    RankInIs(batch[0].inputs, NamedTensor(e.name, InputTensor(batch[0], e.name)));
  }

  lemma {:induction false} RankInIs(inputs: seq<NamedTensor>, e: NamedTensor)
    requires DistinctNames(inputs) && e in inputs
    ensures RankIn(inputs, e.name) == |Shape(e.tensor)|
  {
    var init, last := inputs[..|inputs| - 1], inputs[|inputs| - 1];
    assert inputs == init + [last];
    if e != last {
      RankInIs(init, e);
    }
  }

  /** What a batch pushes into a piece's row is what the join needs: rows of its own run, on its inputs as prepared. */
  lemma PieceIsServed(m: Model, p: Plan, batch: seq<TaskView>, timeout: int, k: nat, moved: MovedFrom, even: bool)
    requires GoodBatch(p, batch) && DistinctStrings(p.sig.inputs) && p.sig.inputs != [] && k < |batch|
    requires even ==> NothingToPad(p, batch)
    ensures RowServes(m, batch[k], RowsOfBatch(p, batch, false, timeout, RowWise(m), moved)[k], even)
  {
    RowsAreDelivered(m, p, batch, timeout, k, moved);
    var row := Delivered(p, batch, CombinedOutputs(m, p, batch), k, moved);
    forall i | 0 <= i < |row| && FirstMention(batch[k].outputs, i) ensures IsOutput(m, batch[k], i, row[i], even) {
      assert DeliveredBy(m, p, batch, k, moved, batch[k], i, row[i], even);
      PushedIsOutput(m, batch[k], i, row[i], even);
    }
  }
}
