/** What merging comes to, row by row, and exactly which batches can be merged. */
module MergingTheorems {
  import opened Common
  import opened Tensors
  import opened Padding
  import opened BatchSizes
  import opened Batching
  import opened InputMerging

  // ---------- The rows of a merged input ----------

  lemma {:induction false} RowOfTensor(ts: seq<Tensor>, k: nat, j: nat)
    requires k < |ts| && ts[k].Ranked? && j < |ts[k].rows|
    ensures |AllRows(ts[..k])| + j < |AllRows(ts)| && AllRows(ts)[|AllRows(ts[..k])| + j] == ts[k].rows[j]
  {
    var init := ts[..|ts| - 1];
    if k < |init| {
      RowOfTensor(init, k, j);
      assert init[..k] == ts[..k];
    }
  }

  lemma ColumnCounts(parts: seq<map<string, Tensor>>, sizes: seq<nat>, names: set<string>, name: string)
    requires PartsFit(parts, sizes, names) && name in names
    ensures RowCounts(Column(parts, name)) == sizes
    ensures forall i :: 0 <= i < |parts| ==> Column(parts, name)[i].Ranked?
  {}

  /** How many rows the first `k` tasks have. */
  function Offset(batch: seq<TaskView>, k: nat): nat
    requires k <= |batch|
  {
    if k == 0 then 0 else Offset(batch, k - 1) + batch[k - 1].size
  }

  lemma {:induction false} OffsetIs(batch: seq<TaskView>, k: nat)
    requires k <= |batch|
    ensures Sum(TaskSizes(batch)[..k]) == Offset(batch, k)
  {
    if k > 0 {
      OffsetIs(batch, k - 1);
      assert TaskSizes(batch)[..k][..k - 1] == TaskSizes(batch)[..k - 1];
    }
  }

  lemma AllOffset(batch: seq<TaskView>)
    ensures Offset(batch, |batch|) == TotalSize(batch)
  {
    OffsetIs(batch, |batch|);
    SumOfTaskSizes(batch);
    assert TaskSizes(batch)[..|batch|] == TaskSizes(batch);
  }

  lemma TaskRowAt(batch: seq<TaskView>, column: seq<Tensor>, padding: nat, k: nat, j: nat)
    requires RowCounts(column) == PartSizes(batch, padding) && k < |batch| && column[k].Ranked? && j < batch[k].size
    ensures |column[k].rows| == batch[k].size && Offset(batch, k) + j < |AllRows(column)|
    ensures AllRows(column)[Offset(batch, k) + j] == column[k].rows[j]
  {
    assert RowCounts(column)[k] == batch[k].size;
    RowsBeforeTask(batch, column, padding, k);
    RowOfTensor(column, k, j);
  }

  lemma PaddingRowAt(batch: seq<TaskView>, column: seq<Tensor>, padding: nat, i: nat, row: Row)
    requires RowCounts(column) == PartSizes(batch, padding) && i < padding
    requires |column| > |batch| + i && column[|batch| + i].Ranked? && column[|batch| + i].rows == [row]
    ensures TotalSize(batch) + i < |AllRows(column)| && AllRows(column)[TotalSize(batch) + i] == row
  {
    RowsBeforePadding(batch, column, padding, i);
    RowOfTensor(column, |batch| + i, 0);
  }

  /** What is stacked for `name`. */
  function MergedColumn(p: Plan, batch: seq<TaskView>, name: string): seq<Tensor>
    requires batch != []
  {
    Column(Parts(p, batch, PaddingSize(p.options, batch)), name)
  }

  /** The tensors stacked have as many rows as the parts. */
  lemma ColumnIs(p: Plan, batch: seq<TaskView>, name: string)
    requires GoodBatch(p, batch) && name in p.sig.inputs
    ensures MergedTensor(p, batch, name).Ranked?
    ensures MergedTensor(p, batch, name).rows == AllRows(MergedColumn(p, batch, name))
    ensures RowCounts(MergedColumn(p, batch, name)) == PartSizes(batch, PaddingSize(p.options, batch))
  {
    var padding := PaddingSize(p.options, batch);
    MergedIsStacked(p, batch, name);
    PartsOfGoodBatch(p, batch);
    assert name in SetOf(p.sig.inputs);
    ColumnCounts(Parts(p, batch, padding), PartSizes(batch, padding), SetOf(p.sig.inputs), name);
  }

  /** The rows before a task's tensor are those of the tasks before it. */
  lemma RowsBeforeTask(batch: seq<TaskView>, column: seq<Tensor>, padding: nat, k: nat)
    requires RowCounts(column) == PartSizes(batch, padding) && k <= |batch|
    ensures |AllRows(column[..k])| == Offset(batch, k)
  {
    AllRowsLength(column[..k]);
    assert RowCounts(column[..k]) == RowCounts(column)[..k] == TaskSizes(batch)[..k];
    OffsetIs(batch, k);
  }

  /** The rows before a padding row are those of all tasks, and the padding rows before it. */
  lemma RowsBeforePadding(batch: seq<TaskView>, column: seq<Tensor>, padding: nat, i: nat)
    requires RowCounts(column) == PartSizes(batch, padding) && i <= padding
    ensures |AllRows(column[..|batch| + i])| == TotalSize(batch) + i
  {
    AllRowsLength(column[..|batch| + i]);
    assert RowCounts(column[..|batch| + i]) == RowCounts(column)[..|batch| + i] == PartSizes(batch, i);
    SumOfPartSizes(batch, i);
  }

  lemma TaskTensor(p: Plan, batch: seq<TaskView>, name: string, k: nat)
    requires k < |batch| && name in PreparedInputs(p, batch[k])
    ensures k < |MergedColumn(p, batch, name)| && MergedColumn(p, batch, name)[k] == Prepared(p, batch[k], name)
  {}

  lemma PaddingTensor(p: Plan, batch: seq<TaskView>, name: string, i: nat)
    requires batch != [] && i < PaddingSize(p.options, batch) && name in PreparedInputs(p, batch[|batch| - 1])
    ensures |batch| + i < |MergedColumn(p, batch, name)|
    ensures MergedColumn(p, batch, name)[|batch| + i] == FirstRow(Prepared(p, batch[|batch| - 1], name))
  {
    var parts := Parts(p, batch, PaddingSize(p.options, batch));
    assert parts[|batch| + i] == FirstRows(PreparedInputs(p, batch[|batch| - 1]));
  }

  /** `name`'s prepared tensor of task `k`, with one row for each of the task's rows. */
  ghost predicate HasPreparedRows(p: Plan, batch: seq<TaskView>, name: string, k: nat)
    requires k < |batch|
  {
    Prepared(p, batch[k], name).Ranked? && |Prepared(p, batch[k], name).rows| == batch[k].size
  }

  lemma PreparedRows(p: Plan, batch: seq<TaskView>, name: string, k: nat)
    requires GoodBatch(p, batch) && name in p.sig.inputs && k < |batch|
    ensures HasPreparedRows(p, batch, name, k) && name in PreparedInputs(p, batch[k])
  {
    PreparedHasRows(p, batch, k);
    assert name in SetOf(p.sig.inputs) && name in PreparedInputs(p, batch[k]);
  }

  lemma MergedRowCount(p: Plan, batch: seq<TaskView>, name: string)
    requires GoodBatch(p, batch) && name in p.sig.inputs
    ensures MergedTensor(p, batch, name).Ranked?
    ensures |MergedTensor(p, batch, name).rows| == RoundedSize(p.options.allowedBatchSizes, TotalSize(batch))
  {
    var column, padding := MergedColumn(p, batch, name), PaddingSize(p.options, batch);
    ColumnIs(p, batch, name);
    RowsBeforePadding(batch, column, padding, padding);
    assert column[..|batch| + padding] == column;
  }

  /** The merged input has the rounded size, and row `j` of task `k` lies behind the rows of the tasks before it. */
  lemma MergedRowIs(p: Plan, batch: seq<TaskView>, name: string, k: nat, j: nat)
    requires GoodBatch(p, batch) && name in p.sig.inputs && k < |batch| && j < batch[k].size
    ensures MergedTensor(p, batch, name).Ranked? && HasPreparedRows(p, batch, name, k)
    ensures var rows := MergedTensor(p, batch, name).rows;
      && |rows| == RoundedSize(p.options.allowedBatchSizes, TotalSize(batch)) && Offset(batch, k) + j < |rows|
      && rows[Offset(batch, k) + j] == Prepared(p, batch[k], name).rows[j]
  {
    var column := MergedColumn(p, batch, name);
    MergedRowCount(p, batch, name);
    ColumnIs(p, batch, name);
    PreparedRows(p, batch, name, k);
    TaskTensor(p, batch, name, k);
    TaskRowAt(batch, column, PaddingSize(p.options, batch), k, j);
  }

  /** Behind the tasks' rows, every row repeats the first row of the last task. */
  lemma PaddingRowIs(p: Plan, batch: seq<TaskView>, name: string, i: nat)
    requires GoodBatch(p, batch) && name in p.sig.inputs
    requires i < RoundedSize(p.options.allowedBatchSizes, TotalSize(batch)) - TotalSize(batch)
    ensures MergedTensor(p, batch, name).Ranked? && HasPreparedRows(p, batch, name, |batch| - 1)
    ensures var rows := MergedTensor(p, batch, name).rows;
      && TotalSize(batch) + i < |rows| && batch[|batch| - 1].size > 0
      && rows[TotalSize(batch) + i] == Prepared(p, batch[|batch| - 1], name).rows[0]
  {
    var column, last := MergedColumn(p, batch, name), Prepared(p, batch[|batch| - 1], name);
    ColumnIs(p, batch, name);
    PreparedRows(p, batch, name, |batch| - 1);
    PaddingTensor(p, batch, name, i);
    assert last.rows != [] && FirstRow(last).rows == [last.rows[0]];
    PaddingRowAt(batch, column, PaddingSize(p.options, batch), i, last.rows[0]);
  }

  // ---------- Which batches can be merged ----------

  lemma {:induction false} ProductIsPositive(shape: seq<nat>)
    ensures Product(shape) > 0 <==> forall d :: 0 <= d < |shape| ==> shape[d] > 0
  {
    if shape != [] {
      ProductIsPositive(shape[1..]);
      assert Product(shape) > 0 <==> shape[0] > 0 && Product(shape[1..]) > 0 by {
        GrowingProduct(1, if shape[0] > 0 then shape[0] else 1, 1,
          if Product(shape[1..]) > 0 then Product(shape[1..]) else 1);
      }
      assert forall d :: 1 <= d < |shape| ==> shape[d] == shape[1..][d - 1];
    }
  }

  /** The tensor has elements, or would not gain any: it has no rows, or some dimension is zero throughout the batch. */
  ghost predicate CanBePadded(t: Tensor, maxDimSizes: seq<nat>) {
    && t.Ranked? && |t.rowShape| < 6
    && (|| t.rows == []
        || (forall d :: 0 <= d < |t.rowShape| ==> t.rowShape[d] > 0)
        || exists d :: 0 < d < |maxDimSizes| && maxDimSizes[d] == 0)
  }

  lemma PadsIff(t: Tensor, maxDimSizes: seq<nat>)
    requires t.Ranked? && WellFormed(t) && Within(Shape(t), maxDimSizes)
    ensures AddPadding(t, maxDimSizes).Success? <==> CanBePadded(t, maxDimSizes)
  {
    if |t.rowShape| < 6 {
      var shape := maxDimSizes[1..];
      PaddedShapeIsMaximum(t, maxDimSizes);
      PadsUnlessEmpty(t, maxDimSizes);
      HasElementsIff(|t.rows|, t.rowShape);
      HasElementsIff(|t.rows|, shape);
      assert forall d :: 0 < d < |maxDimSizes| ==> shape[d - 1] == maxDimSizes[d];
      if d :| 0 <= d < |shape| && shape[d] == 0 {
        assert maxDimSizes[d + 1] == 0;
      }
    }
  }

  lemma PadsUnlessEmpty(t: Tensor, maxDimSizes: seq<nat>)
    requires t.Ranked? && |t.rowShape| < 6 && WellFormed(t) && |maxDimSizes| == |Shape(t)|
    ensures AddPadding(t, maxDimSizes).Failure? <==>
      Product([|t.rows|] + t.rowShape) == 0 && Product([|t.rows|] + PaddedShape(t.rowShape, maxDimSizes)) > 0
  {
    PaddingIsExact(t, maxDimSizes);
  }

  lemma HasElementsIff(count: nat, shape: seq<nat>)
    ensures Product([count] + shape) > 0 <==> count > 0 && forall d :: 0 <= d < |shape| ==> shape[d] > 0
  {
    ProductIsPositive([count] + shape);
    assert forall d :: 0 <= d < |shape| ==> ([count] + shape)[d + 1] == shape[d];
    assert ([count] + shape)[0] == count;
  }

  /** What it takes for one input of a conforming batch. */
  ghost predicate CanBeBatched(p: Plan, batch: seq<TaskView>, e: NamedTensor)
    requires batch != []
  {
    if p.options.padVariableLengthInputs
    then e.name in p.maxDimSizes && CanBePadded(e.tensor, p.maxDimSizes[e.name])
    else forall f :: f in batch[0].inputs ==> SameShapeEntries(e, f)
  }

  lemma FitsIff(p: Plan, batch: seq<TaskView>, k: nat, e: NamedTensor)
    requires Conforms(p, batch) && k < |batch| && e in batch[k].inputs
    ensures InputFits(p, batch, k, e) <==> CanBeBatched(p, batch, e)
  {
    assert HasSignature(p.sig, batch[0]) && HasSignature(p.sig, batch[k]);
    if p.options.padVariableLengthInputs {
      InputIsEntry(batch, k, e);
      assert HasSizes(p, e) && IsMaximum(AllEntries(AllInputs(batch)), e.name, p.maxDimSizes[e.name]);
      PadsIff(e.tensor, p.maxDimSizes[e.name]);
    } else {
      FitsFirst(p, batch, k, e);
    }
  }

  lemma FitsFirst(p: Plan, batch: seq<TaskView>, k: nat, e: NamedTensor)
    requires Conforms(p, batch) && k < |batch| && e in batch[k].inputs && !p.options.padVariableLengthInputs
    ensures InputFits(p, batch, k, e) <==> forall f :: f in batch[0].inputs ==> SameShapeEntries(e, f)
  {
    assert HasSignature(p.sig, batch[0]) && HasSignature(p.sig, batch[k]);
    assert e.name in NamesOf(batch[k].inputs) && e.name in SetOf(p.sig.inputs);
    FirstInput(p, batch[0], e.name);
    var g := NamedTensor(e.name, InputTensor(batch[0], e.name));
    forall f | f in batch[0].inputs && f.name == e.name ensures f == g {
      InputMapIs(batch[0].inputs);
    }
    if k == 0 {
      InputMapIs(batch[0].inputs);
      assert e == g;
    }
    assert Shape(e.tensor)[1..] == e.tensor.rowShape && Shape(g.tensor)[1..] == g.tensor.rowShape;
    TailsAgree(Shape(e.tensor), Shape(g.tensor));
  }

  /**
    A conforming batch passes the checks on its inputs exactly if, without padding, all tensors have the
    row shape of the first task's tensor of their name; and with padding, no rank is above six, and a tensor
    without elements, where it has rows, has a dimension that is zero throughout the batch.
   */
  lemma MergeableIff(p: Plan, batch: seq<TaskView>)
    requires Conforms(p, batch)
    ensures Mergeable(p, batch) <==>
      forall k :: 0 <= k < |batch| ==> forall e :: e in batch[k].inputs ==> CanBeBatched(p, batch, e)
  {
    forall k | 0 <= k < |batch|
      ensures Fits(p, batch, k) <==> forall e :: e in batch[k].inputs ==> CanBeBatched(p, batch, e)
    {
      forall e | e in batch[k].inputs ensures InputFits(p, batch, k, e) <==> CanBeBatched(p, batch, e) {
        FitsIff(p, batch, k, e);
      }
    }
  }

  // ---------- Which batches pass the checks for names and concatenation ----------

  lemma {:induction false} EntriesAre(p: Plan, inputs: seq<NamedTensor>, name: string, padding: nat)
    ensures Entries(p, inputs, name, padding) != [] <==> name in NamesOf(inputs)
    ensures (forall t :: t in Entries(p, inputs, name, padding) ==> t.Ranked?)
       <==> forall e :: e in inputs && e.name == name ==> PreparedEntry(p, e).Ranked?
  {
    if inputs != [] {
      var init, last := inputs[..|inputs| - 1], inputs[|inputs| - 1];
      assert inputs == init + [last];
      EntriesAre(p, init, name, padding);
      if last.name == name {
        assert PreparedEntry(p, last) in Entries(p, inputs, name, padding);
        assert last in inputs;
      } else {
        assert NamesOf(inputs) == NamesOf(init) + {last.name};
      }
    }
  }

  /** Some task has an input called `name`. */
  ghost predicate IsNamed(batch: seq<TaskView>, name: string) {
    exists k :: 0 <= k < |batch| && name in NamesOf(batch[k].inputs)
  }

  ghost predicate RankedNamed(p: Plan, t: TaskView, name: string) {
    forall e :: e in t.inputs && e.name == name ==> PreparedEntry(p, e).Ranked?
  }

  lemma {:induction false} MergeListSpec(p: Plan, batch: seq<TaskView>, name: string, padding: nat)
    ensures MergeList(p, batch, name, padding) != [] <==> IsNamed(batch, name)
    ensures (forall t :: t in MergeList(p, batch, name, padding) ==> t.Ranked?)
       <==> forall k :: 0 <= k < |batch| ==> RankedNamed(p, batch[k], name)
    ensures name in AllNames(batch) <==> IsNamed(batch, name)
  {
    if batch != [] {
      var init, last := batch[..|batch| - 1], batch[|batch| - 1];
      MergeListSpec(p, init, name, 0);
      EntriesAre(p, last.inputs, name, padding);
      assert batch == init + [last];
      assert IsNamed(batch, name) <==> IsNamed(init, name) || name in NamesOf(last.inputs);
    }
  }

  lemma ConcatIff(ts: seq<Tensor>)
    ensures Concat(ts).Success? <==> ts != [] && forall t :: t in ts ==> t.Ranked?
  {
    if exists i :: 0 <= i < |ts| && ts[i].Scalar? {
      var i :| 0 <= i < |ts| && ts[i].Scalar?;
      assert ts[i] in ts;
    }
  }

  /** Every input of the batch is in the signature and has a zeroth dimension. */
  ghost predicate InputsAreKnown(sig: Signature, batch: seq<TaskView>) {
    forall k :: 0 <= k < |batch| ==>
      forall e :: e in batch[k].inputs ==> e.name in sig.inputs && e.tensor.Ranked?
  }

  /**
    A batch whose inputs fit is merged exactly if all its inputs are the signature's and have a zeroth
    dimension, and each input of the signature is some task's.
   */
  lemma MergesIff(p: Plan, batch: seq<TaskView>)
    requires Mergeable(p, batch)
    ensures Merges(p, batch) <==>
      InputsAreKnown(p.sig, batch) && forall name :: name in p.sig.inputs ==> IsNamed(batch, name)
  {
    var padding := PaddingSize(p.options, batch);
    forall name ensures name in AllNames(batch) <==> IsNamed(batch, name) {
      MergeListSpec(p, batch, name, padding);
    }
    PreparedIsRanked(p, batch);
    forall name | name in p.sig.inputs
      ensures Concat(MergeList(p, batch, name, padding)).Success? <==>
        IsNamed(batch, name) && forall k :: 0 <= k < |batch| ==> RankedNamed(p, batch[k], name)
    {
      MergeListSpec(p, batch, name, padding);
      ConcatIff(MergeList(p, batch, name, padding));
    }
    if Merges(p, batch) {
      MergedAreKnown(p, batch);
    }
    if InputsAreKnown(p.sig, batch) && forall name :: name in p.sig.inputs ==> IsNamed(batch, name) {
      KnownNames(p, batch);
      assert forall name, k :: name in p.sig.inputs && 0 <= k < |batch| ==> RankedNamed(p, batch[k], name);
    }
  }

  lemma PreparedIsRanked(p: Plan, batch: seq<TaskView>)
    requires Mergeable(p, batch)
    ensures forall k :: 0 <= k < |batch| ==>
      forall e :: e in batch[k].inputs ==> (PreparedEntry(p, e).Ranked? <==> e.tensor.Ranked?)
  {
    forall k, e | 0 <= k < |batch| && e in batch[k].inputs
      ensures PreparedEntry(p, e).Ranked? <==> e.tensor.Ranked?
    {
      assert Fits(p, batch, k) && InputFits(p, batch, k, e);
    }
  }

  lemma MergedAreKnown(p: Plan, batch: seq<TaskView>)
    requires Merges(p, batch)
    requires forall name :: name in AllNames(batch) <==> IsNamed(batch, name)
    requires forall k :: 0 <= k < |batch| ==>
      forall e :: e in batch[k].inputs ==> (PreparedEntry(p, e).Ranked? <==> e.tensor.Ranked?)
    ensures InputsAreKnown(p.sig, batch)
  {
    forall k, e | 0 <= k < |batch| && e in batch[k].inputs ensures e.name in p.sig.inputs && e.tensor.Ranked? {
      assert e.name in NamesOf(batch[k].inputs);
      assert IsNamed(batch, e.name) && e.name in SetOf(p.sig.inputs);
      var padding := PaddingSize(p.options, batch);
      MergeListSpec(p, batch, e.name, padding);
      ConcatIff(MergeList(p, batch, e.name, padding));
      assert RankedNamed(p, batch[k], e.name);
    }
  }

  lemma KnownNames(p: Plan, batch: seq<TaskView>)
    requires InputsAreKnown(p.sig, batch) && forall name :: name in p.sig.inputs ==> IsNamed(batch, name)
    requires forall name :: name in AllNames(batch) <==> IsNamed(batch, name)
    ensures AllNames(batch) == SetOf(p.sig.inputs)
  {
    forall name | IsNamed(batch, name) ensures name in p.sig.inputs {
      var k :| 0 <= k < |batch| && name in NamesOf(batch[k].inputs);
      var e :| e in batch[k].inputs && e.name == name;
    }
  }
}
