/**
  What a batched run delivers to each of its tasks, as a function of the tasks, and why that is what
  each task would get from a run of its own.
 */
module Batching {
  import opened Common
  import opened Tensors
  import opened Padding
  import opened BatchSizes

  /** Names in the order in which the signature's sets list them. */
  datatype Signature = Signature(inputs: seq<string>, outputs: seq<string>)

  /** A task: its zeroth-dimension size, its named inputs, and the outputs it asks for, in its own order. */
  datatype TaskView = TaskView(size: nat, inputs: seq<NamedTensor>, outputs: seq<string>)

  datatype Options = Options(allowedBatchSizes: seq<int>, padVariableLengthInputs: bool)

  type DimSizes = map<string, seq<nat>>

  /** What the run of a batch depends on besides its tasks and the model. */
  datatype Plan = Plan(options: Options, sig: Signature, maxDimSizes: DimSizes)

  // ---------- Conforming tasks ----------

  ghost predicate DistinctNames(inputs: seq<NamedTensor>) {
    forall i, j :: 0 <= i < j < |inputs| ==> inputs[i].name != inputs[j].name
  }

  ghost predicate DistinctStrings(names: seq<string>) {
    forall i, j :: 0 <= i < j < |names| ==> names[i] != names[j]
  }

  /** The task has the signature it was routed by, and inputs whose common zeroth dimension is its size. */
  ghost predicate HasSignature(sig: Signature, t: TaskView) {
    && NamesOf(t.inputs) == SetOf(sig.inputs) && DistinctNames(t.inputs)
    && SetOf(t.outputs) == SetOf(sig.outputs)
    && forall e :: e in t.inputs ==> e.tensor.Ranked? && |e.tensor.rows| == t.size && WellFormed(e.tensor)
  }

  function InputMap(inputs: seq<NamedTensor>): map<string, Tensor> {
    if inputs == [] then map[]
    else InputMap(inputs[..|inputs| - 1])[inputs[|inputs| - 1].name := inputs[|inputs| - 1].tensor]
  }

  lemma {:induction false} InputMapIs(inputs: seq<NamedTensor>)
    requires DistinctNames(inputs)
    ensures InputMap(inputs).Keys == NamesOf(inputs)
    ensures forall e :: e in inputs ==> InputMap(inputs)[e.name] == e.tensor
    ensures forall name :: name in InputMap(inputs) ==> NamedTensor(name, InputMap(inputs)[name]) in inputs
  {
    if inputs != [] {
      var init, last := inputs[..|inputs| - 1], inputs[|inputs| - 1];
      InputMapIs(init);
      assert inputs == init + [last];
    }
  }

  function InputTensor(t: TaskView, name: string): Tensor {
    if name in InputMap(t.inputs) then InputMap(t.inputs)[name] else Scalar(0)
  }

  // ---------- The merged inputs ----------

  function TotalSize(batch: seq<TaskView>): nat {
    if batch == [] then 0 else TotalSize(batch[..|batch| - 1]) + batch[|batch| - 1].size
  }

  function PaddingSize(o: Options, batch: seq<TaskView>): nat {
    RoundedSize(o.allowedBatchSizes, TotalSize(batch)) - TotalSize(batch)
  }

  function AllInputs(batch: seq<TaskView>): seq<seq<NamedTensor>> {
    seq(|batch|, i requires 0 <= i < |batch| => batch[i].inputs)
  }

  /** As many maximum sizes as the tensor has dimensions. */
  ghost predicate HasSizes(p: Plan, e: NamedTensor) {
    e.name in p.maxDimSizes && |p.maxDimSizes[e.name]| == |Shape(e.tensor)|
  }

  /** The tensor that goes into the batch: padded to the batch's maximum sizes if that option is on. */
  function Prepare(p: Plan, e: NamedTensor): Result<Tensor> {
    if !p.options.padVariableLengthInputs then Success(e.tensor)
    else if e.name in p.maxDimSizes && |p.maxDimSizes[e.name]| == |Shape(e.tensor)| && WellFormed(e.tensor)
    then AddPadding(e.tensor, p.maxDimSizes[e.name])
    else Failure(Error(Internal, "no maximum sizes"))
  }

  /** The sizes used for padding are the maxima of the batch. */
  ghost predicate SizesFor(p: Plan, batch: seq<TaskView>) {
    p.options.padVariableLengthInputs ==>
      && AreMaxima(AllEntries(AllInputs(batch)), p.maxDimSizes)
      && forall e :: e in AllEntries(AllInputs(batch)) ==> HasSizes(p, e)
  }

  function PreparedEntry(p: Plan, e: NamedTensor): Tensor {
    var r := Prepare(p, e);
    if r.Success? then r.value else Scalar(0)
  }

  /** `name`'s tensor of task `t`, prepared. */
  function Prepared(p: Plan, t: TaskView, name: string): Tensor {
    if name in InputMap(t.inputs) then PreparedEntry(p, NamedTensor(name, InputTensor(t, name))) else Scalar(0)
  }

  /** The first tensor called `name`. */
  function FirstNamed(inputs: seq<NamedTensor>, name: string): Tensor {
    if inputs == [] then Scalar(0)
    else if inputs[0].name == name then inputs[0].tensor
    else FirstNamed(inputs[1..], name)
  }

  /**
    The input of task `i` can be padded, or, where padding is off and the task is not the first one, has the
    shape that the first task's tensor of its name has beyond the zeroth dimension.
   */
  ghost predicate InputFits(p: Plan, batch: seq<TaskView>, i: nat, e: NamedTensor)
    requires i < |batch|
  {
    && Prepare(p, e).Success?
    && (!p.options.padVariableLengthInputs && i > 0 ==>
          EqualExceptZeroDim(Shape(e.tensor), Shape(FirstNamed(batch[0].inputs, e.name))))
  }

  /** All inputs of the task can be batched with the first task's. */
  ghost predicate Fits(p: Plan, batch: seq<TaskView>, i: nat)
    requires i < |batch|
  {
    forall e :: e in batch[i].inputs ==> InputFits(p, batch, i, e)
  }

  ghost predicate Mergeable(p: Plan, batch: seq<TaskView>) {
    batch != [] && forall i :: 0 <= i < |batch| ==> Fits(p, batch, i)
  }

  /** The first row of a tensor, as a tensor of one row. */
  function FirstRow(t: Tensor): Tensor {
    if t.Ranked? && |t.rows| > 0 then Ranked(t.rowShape, t.rows[..1]) else t
  }

  /** The prepared inputs called `name`, each followed by as many copies of its first row as there is padding. */
  function Entries(p: Plan, inputs: seq<NamedTensor>, name: string, padding: nat): seq<Tensor> {
    if inputs == [] then []
    else
      var last := inputs[|inputs| - 1];
      Entries(p, inputs[..|inputs| - 1], name, padding) +
      if last.name == name
      then [PreparedEntry(p, last)] + seq(padding, _ => FirstRow(PreparedEntry(p, last)))
      else []
  }

  /** What is concatenated for `name`: the tasks' tensors, and behind the last task's the padding. */
  function MergeList(p: Plan, batch: seq<TaskView>, name: string, padding: nat): seq<Tensor> {
    if batch == [] then []
    else MergeList(p, batch[..|batch| - 1], name, 0) + Entries(p, batch[|batch| - 1].inputs, name, padding)
  }

  /** The inputs of one task as they go into the batch. */
  function PreparedInputs(p: Plan, t: TaskView): map<string, Tensor> {
    map name | name in InputMap(t.inputs) :: Prepared(p, t, name)
  }

  function MergedTensor(p: Plan, batch: seq<TaskView>, name: string): Tensor {
    var r := Concat(MergeList(p, batch, name, PaddingSize(p.options, batch)));
    if r.Success? then r.value else Scalar(0)
  }

  /** The batch's inputs, merged under the signature's names. */
  function MergedInputs(p: Plan, batch: seq<TaskView>): map<string, Tensor> {
    map name | name in p.sig.inputs :: MergedTensor(p, batch, name)
  }

  // ---------- What is delivered ----------

  function TaskSizes(batch: seq<TaskView>): seq<nat> {
    seq(|batch|, i requires 0 <= i < |batch| => batch[i].size)
  }

  function SplitSizes(o: Options, batch: seq<TaskView>): seq<nat> {
    TaskSizes(batch) + if PaddingSize(o, batch) > 0 then [PaddingSize(o, batch)] else []
  }

  function IndexOf(names: seq<string>, name: string): (i: nat)
    ensures name in names ==> i < |names| && names[i] == name
  {
    if names == [] || names[0] == name then 0 else 1 + IndexOf(names[1..], name)
  }

  /** The `k`-th piece of a split, if the split succeeds. */
  function PieceOf(t: Tensor, sizes: seq<nat>, k: nat): Tensor {
    var r := Split(t, sizes);
    if r.Success? && k < |r.value| then r.value[k] else Scalar(0)
  }

  /** The output is not among those before it in the list. */
  predicate FirstMention(outputs: seq<string>, j: nat)
    requires j < |outputs|
  {
    outputs[j] !in outputs[..j]
  }

  /** Task `k`'s segment of the combined tensor for `output`. */
  function Segment(p: Plan, batch: seq<TaskView>, combined: seq<Tensor>, k: nat, output: string): Tensor {
    var index := IndexOf(p.sig.outputs, output);
    if index < |combined| then PieceOf(combined[index], SplitSizes(p.options, batch), k) else Scalar(0)
  }

  /** What task `k` finds at place `j` where a segment has been moved away. */
  type MovedFrom = (nat, nat) -> Tensor

  /**
    The outputs of task `k`, in the order it asked for them. A segment is moved to the first place that
    asks for it; a later place `j` gets `moved(k, j)`, whatever a tensor holds whose contents were moved away.
   */
  function Delivered(p: Plan, batch: seq<TaskView>, combined: seq<Tensor>, k: nat, moved: MovedFrom): seq<Tensor>
    requires k < |batch|
  {
    var outputs := batch[k].outputs;
    seq(|outputs|, j requires 0 <= j < |outputs| =>
      if FirstMention(outputs, j) then Segment(p, batch, combined, k, outputs[j]) else moved(k, j))
  }

  /** Running a row-wise model on the merged inputs, which have the padded batch size. */
  function CombinedOutput(m: Model, p: Plan, batch: seq<TaskView>, output: string): Tensor {
    RunOutput(m, MergedInputs(p, batch), TotalSize(batch) + PaddingSize(p.options, batch), output)
  }

  function CombinedOutputs(m: Model, p: Plan, batch: seq<TaskView>): seq<Tensor> {
    seq(|p.sig.outputs|, k requires 0 <= k < |p.sig.outputs| => CombinedOutput(m, p, batch, p.sig.outputs[k]))
  }

  // ---------- Running stacked inputs ----------

  /** `name`'s tensors in all parts. */
  function Column(parts: seq<map<string, Tensor>>, name: string): seq<Tensor> {
    seq(|parts|, i requires 0 <= i < |parts| => if name in parts[i] then parts[i][name] else Scalar(0))
  }

  function StackAll(parts: seq<map<string, Tensor>>, names: set<string>): map<string, Tensor> {
    map name | name in names :: Ranked([], AllRows(Column(parts, name)))
  }

  ghost predicate PartsFit(parts: seq<map<string, Tensor>>, sizes: seq<nat>, names: set<string>) {
    |parts| == |sizes| && forall i :: 0 <= i < |parts| ==> parts[i].Keys == names && HasRows(parts[i], sizes[i])
  }

  function Outputs(m: Model, parts: seq<map<string, Tensor>>, sizes: seq<nat>, output: string): seq<Tensor>
    requires |parts| == |sizes|
  {
    seq(|parts|, i requires 0 <= i < |parts| => RunOutput(m, parts[i], sizes[i], output))
  }

  lemma {:induction false} StackHasRows(parts: seq<map<string, Tensor>>, sizes: seq<nat>, names: set<string>)
    requires PartsFit(parts, sizes, names)
    ensures HasRows(StackAll(parts, names), Sum(sizes))
  {
    forall name | name in names ensures |AllRows(Column(parts, name))| == Sum(sizes) {
      AllRowsLength(Column(parts, name));
      assert RowCounts(Column(parts, name)) == sizes;
    }
  }

  lemma StackGrows(parts: seq<map<string, Tensor>>, next: map<string, Tensor>, size: nat, names: set<string>)
    requires next.Keys == names && HasRows(next, size)
    ensures forall name :: name in names ==>
      StackAll(parts + [next], names)[name].rows == StackAll(parts, names)[name].rows + next[name].rows
  {
    forall name | name in names
      ensures AllRows(Column(parts + [next], name)) == AllRows(Column(parts, name)) + next[name].rows
    {
      assert Column(parts + [next], name) == Column(parts, name) + [next[name]];
      AllRowsAppend(Column(parts, name), next[name]);
    }
  }

  /** A row-wise model run on stacked parts gives the stacked outputs of the parts. */
  lemma {:induction false} RunOfStack(
    m: Model, parts: seq<map<string, Tensor>>, sizes: seq<nat>, names: set<string>, output: string)
    requires PartsFit(parts, sizes, names)
    ensures RunOutput(m, StackAll(parts, names), Sum(sizes), output).rows == AllRows(Outputs(m, parts, sizes, output))
    decreases |parts|
  {
    if parts != [] {
      var n := |parts| - 1;
      var init, counts := parts[..n], sizes[..n];
      RunOfStack(m, init, counts, names, output);
      StackHasRows(parts, sizes, names);
      StackHasRows(init, counts, names);
      StackGrows(init, parts[n], sizes[n], names);
      assert parts == init + [parts[n]];
      RunStacked(m, StackAll(parts, names), StackAll(init, names), Sum(counts), parts[n], sizes[n], output);
      assert Outputs(m, parts, sizes, output)[..n] == Outputs(m, init, counts, output);
    }
  }

  ghost predicate SameRows(a: map<string, Tensor>, b: map<string, Tensor>) {
    a.Keys == b.Keys && forall name :: name in a ==> a[name].Ranked? && b[name].Ranked? && a[name].rows == b[name].rows
  }

  lemma RunDependsOnRows(m: Model, a: map<string, Tensor>, b: map<string, Tensor>, size: nat, output: string)
    requires SameRows(a, b)
    ensures RunOutput(m, a, size, output).rows == RunOutput(m, b, size, output).rows
  {
    forall i: nat ensures RowsAt(a, i) == RowsAt(b, i) {}
  }

  // ---------- The parts of a batch ----------

  /** What the batch stacks: each task's prepared inputs, then one part of one row per padding row. */
  function Parts(p: Plan, batch: seq<TaskView>, padding: nat): seq<map<string, Tensor>>
    requires batch != []
  {
    var inputs := seq(|batch|, i requires 0 <= i < |batch| => PreparedInputs(p, batch[i]));
    var last := inputs[|batch| - 1];
    inputs + seq(padding, _ => FirstRows(last))
  }

  function FirstRows(inputs: map<string, Tensor>): map<string, Tensor> {
    map name | name in inputs :: FirstRow(inputs[name])
  }

  function PartSizes(batch: seq<TaskView>, padding: nat): seq<nat> {
    TaskSizes(batch) + seq(padding, _ => 1)
  }

  /** The tasks conform to the signature, and the batch has a row to pad with if it needs one. */
  ghost predicate Conforms(p: Plan, batch: seq<TaskView>) {
    && batch != [] && SizesFor(p, batch)
    && (forall i :: 0 <= i < |batch| ==> HasSignature(p.sig, batch[i]))
    && (PaddingSize(p.options, batch) > 0 ==> batch[|batch| - 1].size > 0)
  }

  /** A conforming batch whose inputs fit together. */
  ghost predicate GoodBatch(p: Plan, batch: seq<TaskView>) {
    Conforms(p, batch) && Mergeable(p, batch)
  }

  lemma PrepareKeepsRows(p: Plan, e: NamedTensor)
    requires e.tensor.Ranked? && Prepare(p, e).Success?
    ensures var r := Prepare(p, e).value; r.Ranked? && |r.rows| == |e.tensor.rows|
  {}

  lemma PreparedHasRows(p: Plan, batch: seq<TaskView>, i: nat)
    requires i < |batch| && HasSignature(p.sig, batch[i]) && Fits(p, batch, i)
    ensures PreparedInputs(p, batch[i]).Keys == SetOf(p.sig.inputs)
    ensures HasRows(PreparedInputs(p, batch[i]), batch[i].size)
  {
    var t := batch[i];
    InputMapIs(t.inputs);
    forall name | name in InputMap(t.inputs)
      ensures var r := Prepared(p, t, name); r.Ranked? && |r.rows| == t.size
    {
      var e := NamedTensor(name, InputMap(t.inputs)[name]);
      assert e in t.inputs && InputFits(p, batch, i, e);
      PrepareKeepsRows(p, e);
    }
  }

  lemma FirstRowsHaveOneRow(inputs: map<string, Tensor>, size: nat)
    requires HasRows(inputs, size) && size > 0
    ensures FirstRows(inputs).Keys == inputs.Keys && HasRows(FirstRows(inputs), 1)
  {}

  lemma PartsOfGoodBatch(p: Plan, batch: seq<TaskView>)
    requires GoodBatch(p, batch)
    ensures var padding := PaddingSize(p.options, batch);
      PartsFit(Parts(p, batch, padding), PartSizes(batch, padding), SetOf(p.sig.inputs))
  {
    var padding, n := PaddingSize(p.options, batch), |batch|;
    var parts, sizes := Parts(p, batch, padding), PartSizes(batch, padding);
    forall i | 0 <= i < |parts| ensures parts[i].Keys == SetOf(p.sig.inputs) && HasRows(parts[i], sizes[i]) {
      var k := if i < n then i else n - 1;
      PreparedHasRows(p, batch, k);
      if i >= n {
        FirstRowsHaveOneRow(PreparedInputs(p, batch[n - 1]), batch[n - 1].size);
      }
    }
  }

  lemma {:induction false} SumOfTaskSizes(batch: seq<TaskView>)
    ensures Sum(TaskSizes(batch)) == TotalSize(batch)
  {
    if batch != [] {
      SumOfTaskSizes(batch[..|batch| - 1]);
      assert TaskSizes(batch)[..|batch| - 1] == TaskSizes(batch[..|batch| - 1]);
    }
  }

  lemma {:induction false} SumOfPartSizes(batch: seq<TaskView>, padding: nat)
    ensures Sum(PartSizes(batch, padding)) == TotalSize(batch) + padding
  {
    if padding == 0 {
      assert PartSizes(batch, 0) == TaskSizes(batch);
      SumOfTaskSizes(batch);
    } else {
      SumOfPartSizes(batch, padding - 1);
      assert PartSizes(batch, padding)[..|batch| + padding - 1] == PartSizes(batch, padding - 1);
    }
  }

  /** `name` is an input of the task, and has been prepared. */
  ghost predicate IsPrepared(p: Plan, t: TaskView, name: string) {
    name in InputMap(t.inputs) && Prepared(p, t, name).Ranked?
  }

  lemma GoodBatchIsPrepared(p: Plan, batch: seq<TaskView>, name: string)
    requires GoodBatch(p, batch) && name in p.sig.inputs
    ensures AllPrepared(p, batch, name)
  {
    assert name in SetOf(p.sig.inputs);
    forall i | 0 <= i < |batch| ensures DistinctNames(batch[i].inputs) && IsPrepared(p, batch[i], name) {
      PreparedHasRows(p, batch, i);
      assert name in PreparedInputs(p, batch[i]);
    }
  }

  /** `name`'s prepared tensors of all tasks. */
  function PreparedList(p: Plan, batch: seq<TaskView>, name: string): seq<Tensor> {
    seq(|batch|, i requires 0 <= i < |batch| => Prepared(p, batch[i], name))
  }

  lemma {:induction false} NoEntries(p: Plan, inputs: seq<NamedTensor>, name: string, padding: nat)
    requires name !in NamesOf(inputs)
    ensures Entries(p, inputs, name, padding) == []
  {
    if inputs != [] {
      var init, last := inputs[..|inputs| - 1], inputs[|inputs| - 1];
      assert inputs == init + [last] && last.name in NamesOf(inputs);
      assert NamesOf(init) <= NamesOf(inputs);
      NoEntries(p, init, name, padding);
    }
  }

  lemma {:induction false} OneEntry(p: Plan, inputs: seq<NamedTensor>, e: NamedTensor, padding: nat)
    requires DistinctNames(inputs) && e in inputs
    ensures Entries(p, inputs, e.name, padding)
         == [PreparedEntry(p, e)] + seq(padding, _ => FirstRow(PreparedEntry(p, e)))
  {
    var init, last := inputs[..|inputs| - 1], inputs[|inputs| - 1];
    assert inputs == init + [last];
    if e == last {
      assert e.name !in NamesOf(init);
      NoEntries(p, init, e.name, padding);
    } else {
      assert e in init;
      OneEntry(p, init, e, padding);
    }
  }

  lemma TaskEntries(p: Plan, t: TaskView, name: string, padding: nat)
    requires DistinctNames(t.inputs) && name in InputMap(t.inputs)
    ensures Entries(p, t.inputs, name, padding)
         == [Prepared(p, t, name)] + seq(padding, _ => FirstRow(Prepared(p, t, name)))
  {
    InputMapIs(t.inputs);
    OneEntry(p, t.inputs, NamedTensor(name, InputTensor(t, name)), padding);
  }

  /** Every task has prepared inputs called `name`, exactly one each. */
  ghost predicate AllPrepared(p: Plan, batch: seq<TaskView>, name: string) {
    forall i :: 0 <= i < |batch| ==> DistinctNames(batch[i].inputs) && IsPrepared(p, batch[i], name)
  }

  lemma {:induction false} MergeListIs(p: Plan, batch: seq<TaskView>, name: string)
    requires AllPrepared(p, batch, name)
    ensures MergeList(p, batch, name, 0) == PreparedList(p, batch, name)
  {
    if batch != [] {
      var init, last := batch[..|batch| - 1], batch[|batch| - 1];
      TaskEntries(p, last, name, 0);
      MergeListIs(p, init, name);
      assert PreparedList(p, batch, name) == PreparedList(p, init, name) + [Prepared(p, last, name)];
    }
  }

  lemma PaddedMergeListIs(p: Plan, batch: seq<TaskView>, name: string, padding: nat)
    requires batch != [] && AllPrepared(p, batch, name)
    ensures MergeList(p, batch, name, padding)
      == PreparedList(p, batch, name) + seq(padding, _ => FirstRow(Prepared(p, batch[|batch| - 1], name)))
  {
    var init, last := batch[..|batch| - 1], batch[|batch| - 1];
    TaskEntries(p, last, name, padding);
    MergeListIs(p, init, name);
    assert PreparedList(p, batch, name) == PreparedList(p, init, name) + [Prepared(p, last, name)];
  }

  lemma ListIsColumn(p: Plan, batch: seq<TaskView>, name: string, padding: nat)
    requires batch != [] && AllPrepared(p, batch, name)
    ensures MergeList(p, batch, name, padding) == Column(Parts(p, batch, padding), name)
    ensures forall t :: t in MergeList(p, batch, name, padding) ==> t.Ranked?
  {
    PaddedMergeListIs(p, batch, name, padding);
    var column, n := Column(Parts(p, batch, padding), name), |batch|;
    forall i | 0 <= i < n + padding
      ensures column[i].Ranked?
      ensures column[i] == if i < n then Prepared(p, batch[i], name) else FirstRow(Prepared(p, batch[n - 1], name))
    {
      assert IsPrepared(p, batch[if i < n then i else n - 1], name);
    }
  }

  /** The merged inputs are the stacked parts. */
  lemma MergedIsStacked(p: Plan, batch: seq<TaskView>, name: string)
    requires GoodBatch(p, batch) && name in p.sig.inputs
    ensures MergedTensor(p, batch, name).Ranked?
    ensures MergedTensor(p, batch, name).rows
      == AllRows(Column(Parts(p, batch, PaddingSize(p.options, batch)), name))
  {
    GoodBatchIsPrepared(p, batch, name);
    ListIsColumn(p, batch, name, PaddingSize(p.options, batch));
    ConcatOfRanked(MergeList(p, batch, name, PaddingSize(p.options, batch)));
  }

  lemma ConcatOfRanked(ts: seq<Tensor>)
    requires ts != [] && forall t :: t in ts ==> t.Ranked?
    ensures Concat(ts) == Success(Ranked(ts[0].rowShape, AllRows(ts)))
  {}

  // ---------- The shapes in a batch ----------

  /** The row shape that `name`'s tensors have in the batch. */
  function CommonShape(p: Plan, batch: seq<TaskView>, name: string): seq<nat> {
    if p.options.padVariableLengthInputs
    then if name in p.maxDimSizes && p.maxDimSizes[name] != [] then p.maxDimSizes[name][1..] else []
    else if batch != [] && InputTensor(batch[0], name).Ranked? then InputTensor(batch[0], name).rowShape else []
  }

  ghost predicate HasShape(t: Tensor, rowShape: seq<nat>) {
    t.Ranked? && WellFormed(t) && t.rowShape == rowShape
  }

  lemma {:induction false} InputIsEntry(batch: seq<TaskView>, k: nat, e: NamedTensor)
    requires k < |batch| && e in batch[k].inputs
    ensures e in AllEntries(AllInputs(batch))
  {
    var all := AllInputs(batch);
    assert all[..|all| - 1] == AllInputs(batch[..|batch| - 1]);
    if k < |batch| - 1 {
      InputIsEntry(batch[..|batch| - 1], k, e);
    }
  }

  /** Padded to the maxima, a tensor has their shape. */
  lemma PaddedHasShape(t: Tensor, sizes: seq<nat>)
    requires t.Ranked? && WellFormed(t) && Within(Shape(t), sizes) && AddPadding(t, sizes).Success?
    ensures HasShape(AddPadding(t, sizes).value, sizes[1..])
  {
    PaddingIsExact(t, sizes);
    PaddedShapeIsMaximum(t, sizes);
  }

  lemma {:induction false} FirstNamedIs(inputs: seq<NamedTensor>, e: NamedTensor)
    requires DistinctNames(inputs) && e in inputs
    ensures FirstNamed(inputs, e.name) == e.tensor
  {
    if inputs[0] != e {
      assert e in inputs[1..];
      FirstNamedIs(inputs[1..], e);
    }
  }

  lemma FirstInput(p: Plan, first: TaskView, name: string)
    requires HasSignature(p.sig, first) && name in p.sig.inputs
    ensures FirstNamed(first.inputs, name) == InputTensor(first, name)
    ensures NamedTensor(name, InputTensor(first, name)) in first.inputs && InputTensor(first, name).Ranked?
  {
    InputMapIs(first.inputs);
    assert name in SetOf(p.sig.inputs);
    FirstNamedIs(first.inputs, NamedTensor(name, InputTensor(first, name)));
  }

  /** In a good batch the prepared tensors of one name are well-formed and have one row shape. */
  lemma PreparedHasShape(p: Plan, batch: seq<TaskView>, k: nat, name: string)
    requires GoodBatch(p, batch) && k < |batch| && name in p.sig.inputs
    ensures HasShape(Prepared(p, batch[k], name), CommonShape(p, batch, name))
  {
    var e := NamedTensor(name, InputTensor(batch[k], name));
    assert name in SetOf(p.sig.inputs);
    InputMapIs(batch[k].inputs);
    assert Fits(p, batch, k) && e in batch[k].inputs;
    if p.options.padVariableLengthInputs {
      InputIsEntry(batch, k, e);
      assert HasSizes(p, e) && IsMaximum(AllEntries(AllInputs(batch)), name, p.maxDimSizes[name]);
      PaddedHasShape(e.tensor, p.maxDimSizes[name]);
    } else {
      HasReferenceShape(p, batch, k, e);
    }
  }

  lemma HasReferenceShape(p: Plan, batch: seq<TaskView>, k: nat, e: NamedTensor)
    requires k < |batch| && HasSignature(p.sig, batch[0]) && HasSignature(p.sig, batch[k])
    requires e in batch[k].inputs && e.name in p.sig.inputs && InputFits(p, batch, k, e)
    requires !p.options.padVariableLengthInputs
    ensures e.tensor.Ranked? && e.tensor.rowShape == CommonShape(p, batch, e.name)
  {
    var reference := InputTensor(batch[0], e.name);
    FirstInput(p, batch[0], e.name);
    if k > 0 {
      TailsAgree(Shape(e.tensor), Shape(reference));
      assert Shape(e.tensor)[1..] == e.tensor.rowShape && Shape(reference)[1..] == reference.rowShape;
    } else {
      InputMapIs(batch[0].inputs);
    }
  }

  lemma FirstRowHasShape(t: Tensor, rowShape: seq<nat>)
    requires HasShape(t, rowShape)
    ensures HasShape(FirstRow(t), rowShape)
  {}

  /** So what is concatenated has one row shape, which the library's concatenation takes for granted. */
  lemma MergeListHasShape(p: Plan, batch: seq<TaskView>, name: string)
    requires GoodBatch(p, batch) && name in p.sig.inputs
    ensures var list := MergeList(p, batch, name, PaddingSize(p.options, batch));
      list != [] && SameRowShape(list, CommonShape(p, batch, name)) && forall t :: t in list ==> WellFormed(t)
  {
    var padding := PaddingSize(p.options, batch);
    GoodBatchIsPrepared(p, batch, name);
    ListIsColumn(p, batch, name, padding);
    var list := Column(Parts(p, batch, padding), name);
    forall i | 0 <= i < |list| ensures HasShape(list[i], CommonShape(p, batch, name)) {
      var k := if i < |batch| then i else |batch| - 1;
      PreparedHasShape(p, batch, k, name);
      assert IsPrepared(p, batch[k], name);
      FirstRowHasShape(Prepared(p, batch[k], name), CommonShape(p, batch, name));
    }
  }

  lemma {:induction false} RowsOfWellFormed(ts: seq<Tensor>, rowShape: seq<nat>)
    requires SameRowShape(ts, rowShape) && forall t :: t in ts ==> WellFormed(t)
    ensures forall r :: r in AllRows(ts) ==> r.Keys == Coords(rowShape)
  {
    if ts != [] {
      var init, last := ts[..|ts| - 1], ts[|ts| - 1];
      RowsOfWellFormed(init, rowShape);
      assert WellFormed(last) && last.rowShape == rowShape;
    }
  }

  /** The merged tensor is well-formed, with the common row shape. */
  lemma MergedHasShape(p: Plan, batch: seq<TaskView>, name: string)
    requires GoodBatch(p, batch) && name in p.sig.inputs
    ensures HasShape(MergedTensor(p, batch, name), CommonShape(p, batch, name))
  {
    var list := MergeList(p, batch, name, PaddingSize(p.options, batch));
    MergeListHasShape(p, batch, name);
    RowsOfWellFormed(list, CommonShape(p, batch, name));
    ConcatOfRanked(list);
    var rows := MergedTensor(p, batch, name).rows;
    assert forall i :: 0 <= i < |rows| ==> rows[i] in rows;
  }

  /** The merged inputs have the row shapes of each task's prepared inputs. */
  lemma MergedHasPreparedShapes(p: Plan, batch: seq<TaskView>, k: nat)
    requires GoodBatch(p, batch) && k < |batch|
    ensures ShapesOf(MergedInputs(p, batch)) == ShapesOf(PreparedInputs(p, batch[k]))
  {
    var merged, prepared := MergedInputs(p, batch), PreparedInputs(p, batch[k]);
    PreparedHasRows(p, batch, k);
    forall name | name in p.sig.inputs ensures name in prepared && SameShape(merged[name], prepared[name]) {
      assert name in SetOf(p.sig.inputs);
      MergedHasShape(p, batch, name);
      PreparedHasShape(p, batch, k, name);
    }
    ShapesAgree(merged, prepared);
  }

  ghost predicate SameShape(t: Tensor, u: Tensor) {
    t.Ranked? && u.Ranked? && t.rowShape == u.rowShape
  }

  lemma ShapesAgree(a: map<string, Tensor>, b: map<string, Tensor>)
    requires a.Keys == b.Keys && forall name :: name in a ==> SameShape(a[name], b[name])
    ensures ShapesOf(a) == ShapesOf(b)
  {}

  // ---------- Each task's own rows ----------

  lemma {:induction false} AllRowsPrefix(ts: seq<Tensor>, n: nat)
    requires n <= |ts|
    ensures AllRows(ts[..n]) <= AllRows(ts)
  {
    if n < |ts| {
      AllRowsPrefix(ts[..|ts| - 1], n);
      assert ts[..|ts| - 1][..n] == ts[..n];
    } else {
      assert ts[..n] == ts;
    }
  }

  lemma SegmentsWithTail(rows: seq<Row>, sizes: seq<nat>, tail: nat, all: seq<nat>)
    requires Sum(sizes) + tail == |rows| && all == sizes + [tail]
    ensures Sum(all) == |rows|
    ensures Segments(rows, all) == Segments(rows[..|rows| - tail], sizes) + [rows[|rows| - tail..]]
  {
    assert all[..|all| - 1] == sizes;
  }

  /** Cutting the combined rows by the task sizes, with or without a padding segment, gives each task its own rows. */
  lemma CutOutOwnRows(o: Options, batch: seq<TaskView>, outs: seq<Tensor>, t: Tensor, k: nat)
    requires k < |batch| <= |outs| && t.Ranked? && t.rows == AllRows(outs)
    requires |t.rows| == TotalSize(batch) + PaddingSize(o, batch)
    requires forall i :: 0 <= i < |batch| ==> outs[i].Ranked? && |outs[i].rows| == batch[i].size
    ensures PieceOf(t, SplitSizes(o, batch), k) == Ranked(t.rowShape, outs[k].rows)
  {
    var own, padding, sizes := outs[..|batch|], PaddingSize(o, batch), TaskSizes(batch);
    OwnSegment(batch, outs, t.rows, padding, k);
    if padding > 0 {
      SegmentsWithTail(t.rows, sizes, padding, SplitSizes(o, batch));
    } else {
      assert SplitSizes(o, batch) == sizes && t.rows[..|t.rows|] == t.rows;
    }
  }

  lemma OwnSegment(batch: seq<TaskView>, outs: seq<Tensor>, rows: seq<Row>, padding: nat, k: nat)
    requires k < |batch| <= |outs| && rows == AllRows(outs) && |rows| == TotalSize(batch) + padding
    requires forall i :: 0 <= i < |batch| ==> outs[i].Ranked? && |outs[i].rows| == batch[i].size
    ensures Sum(TaskSizes(batch)) == |rows| - padding
    ensures Segments(rows[..|rows| - padding], TaskSizes(batch))[k] == outs[k].rows
  {
    var own := outs[..|batch|];
    assert RowCounts(own) == TaskSizes(batch);
    SumOfTaskSizes(batch);
    AllRowsLength(own);
    AllRowsPrefix(outs, |batch|);
    SegmentsOfAllRows(own, k);
    assert rows[..|rows| - padding] == AllRows(own);
  }

  lemma MergedInputsAreStacked(p: Plan, batch: seq<TaskView>)
    requires GoodBatch(p, batch)
    ensures var parts := Parts(p, batch, PaddingSize(p.options, batch));
      SameRows(MergedInputs(p, batch), StackAll(parts, SetOf(p.sig.inputs)))
  {
    forall name | name in p.sig.inputs
      ensures MergedTensor(p, batch, name).Ranked?
      ensures MergedTensor(p, batch, name).rows == AllRows(Column(Parts(p, batch, PaddingSize(p.options, batch)), name))
    {
      MergedIsStacked(p, batch, name);
    }
  }

  /** One combined output is the tasks' own outputs, stacked, followed by the padding's. */
  lemma CombinedIsStacked(m: Model, p: Plan, batch: seq<TaskView>, output: string)
    requires GoodBatch(p, batch)
    ensures var padding := PaddingSize(p.options, batch);
      CombinedOutput(m, p, batch, output).rows
        == AllRows(Outputs(m, Parts(p, batch, padding), PartSizes(batch, padding), output))
  {
    var padding, names := PaddingSize(p.options, batch), SetOf(p.sig.inputs);
    var parts, sizes := Parts(p, batch, padding), PartSizes(batch, padding);
    PartsOfGoodBatch(p, batch);
    MergedInputsAreStacked(p, batch);
    var size := Sum(sizes);
    SumOfPartSizes(batch, padding);
    assert CombinedOutput(m, p, batch, output) == RunOutput(m, MergedInputs(p, batch), size, output);
    RunDependsOnRows(m, MergedInputs(p, batch), StackAll(parts, names), size, output);
    RunOfStack(m, parts, sizes, names, output);
  }

  lemma OwnOutputs(m: Model, p: Plan, batch: seq<TaskView>, padding: nat, output: string)
    requires batch != []
    ensures var outs := Outputs(m, Parts(p, batch, padding), PartSizes(batch, padding), output);
      |batch| <= |outs| && forall i :: 0 <= i < |batch| ==>
        outs[i] == RunOutput(m, PreparedInputs(p, batch[i]), batch[i].size, output) && |outs[i].rows| == batch[i].size
  {}

  /** The combined tensor for one output, cut for task `k`, is that output of a run on its own prepared inputs. */
  lemma OutputIsTransparent(m: Model, p: Plan, batch: seq<TaskView>, k: nat, output: string)
    requires GoodBatch(p, batch) && k < |batch|
    ensures PieceOf(CombinedOutput(m, p, batch, output), SplitSizes(p.options, batch), k)
      == RunOutput(m, PreparedInputs(p, batch[k]), batch[k].size, output)
  {
    var padding := PaddingSize(p.options, batch);
    var outs := Outputs(m, Parts(p, batch, padding), PartSizes(batch, padding), output);
    var t := CombinedOutput(m, p, batch, output);
    CombinedIsStacked(m, p, batch, output);
    OwnOutputs(m, p, batch, padding, output);
    CutOutOwnRows(p.options, batch, outs, t, k);
    MergedHasPreparedShapes(p, batch, k);
    assert Ranked(t.rowShape, outs[k].rows) == outs[k];
  }

  // ---------- Transparency ----------

  /** Wherever an output is mentioned first, what is delivered is what the run gives. */
  ghost predicate Serves(outputs: seq<string>, delivered: seq<Tensor>, run: seq<Tensor>) {
    |delivered| == |outputs| == |run| &&
    forall j :: 0 <= j < |outputs| && FirstMention(outputs, j) ==> delivered[j] == run[j]
  }

  lemma DistinctIffFirstMentions(outputs: seq<string>)
    ensures DistinctStrings(outputs) <==> forall j :: 0 <= j < |outputs| ==> FirstMention(outputs, j)
  {
    if DistinctStrings(outputs) {
      forall j | 0 <= j < |outputs| ensures FirstMention(outputs, j) {}
    } else {
      var i, j :| 0 <= i < j < |outputs| && outputs[i] == outputs[j];
      assert outputs[..j][i] == outputs[j];
      assert !FirstMention(outputs, j);
    }
  }

  /**
    Ordinary batching is transparent: whatever tasks share the batch, merging, padding, one run of a
    row-wise model and splitting give task `k` exactly the outputs of a run on its own prepared inputs,
    in the order it asked for them; the padding rows go to nobody. Only a repeated output is lost.
   */
  lemma BatchingIsTransparent(m: Model, p: Plan, batch: seq<TaskView>, k: nat, moved: MovedFrom)
    requires GoodBatch(p, batch) && k < |batch|
    ensures Serves(batch[k].outputs, Delivered(p, batch, CombinedOutputs(m, p, batch), k, moved),
      Run(m, PreparedInputs(p, batch[k]), batch[k].size, batch[k].outputs))
  {
    var combined, outputs := CombinedOutputs(m, p, batch), batch[k].outputs;
    forall j | 0 <= j < |outputs|
      ensures Segment(p, batch, combined, k, outputs[j])
           == RunOutput(m, PreparedInputs(p, batch[k]), batch[k].size, outputs[j])
    {
      SegmentIsTransparent(m, p, batch, k, outputs[j]);
    }
  }

  lemma SegmentIsTransparent(m: Model, p: Plan, batch: seq<TaskView>, k: nat, output: string)
    requires GoodBatch(p, batch) && k < |batch| && output in batch[k].outputs
    ensures Segment(p, batch, CombinedOutputs(m, p, batch), k, output)
         == RunOutput(m, PreparedInputs(p, batch[k]), batch[k].size, output)
  {
    assert HasSignature(p.sig, batch[k]) && output in SetOf(batch[k].outputs) && output in SetOf(p.sig.outputs);
    OutputIsTransparent(m, p, batch, k, output);
  }

  /**
    What is delivered does not depend on what moved-from tensors hold, and is right, exactly if no output
    is repeated.
   */
  lemma TransparentIffDistinct(m: Model, p: Plan, batch: seq<TaskView>, k: nat)
    requires GoodBatch(p, batch) && k < |batch|
    ensures (forall moved: MovedFrom :: Delivered(p, batch, CombinedOutputs(m, p, batch), k, moved)
                             == Run(m, PreparedInputs(p, batch[k]), batch[k].size, batch[k].outputs))
      <==> DistinctStrings(batch[k].outputs)
  {
    var combined, outputs := CombinedOutputs(m, p, batch), batch[k].outputs;
    var own := Run(m, PreparedInputs(p, batch[k]), batch[k].size, outputs);
    DistinctIffFirstMentions(outputs);
    if DistinctStrings(outputs) {
      forall moved: MovedFrom ensures Delivered(p, batch, combined, k, moved) == own {
        BatchingIsTransparent(m, p, batch, k, moved);
      }
    } else {
      var j :| 0 <= j < |outputs| && !FirstMention(outputs, j);
      var moved: MovedFrom := (_, _) => Scalar(0);
      assert own[j].Ranked? && Delivered(p, batch, combined, k, moved)[j] == Scalar(0);
      assert Delivered(p, batch, combined, k, moved) != own;
    }
  }

  /** A batch of one task with one row, which asks for its only output twice: the second place can hold anything. */
  lemma RepeatedOutputIsLost(m: Model, moved: MovedFrom) returns (p: Plan, batch: seq<TaskView>)
    ensures GoodBatch(p, batch) && |batch| == 1 && batch[0].outputs == ["y", "y"]
    ensures Delivered(p, batch, CombinedOutputs(m, p, batch), 0, moved)
         == [RunOutput(m, InputMap(batch[0].inputs), 1, "y"), moved(0, 1)]
  {
    var x := NamedTensor("x", Ranked([], [map[[] := 7]]));
    var t := TaskView(1, [x], ["y", "y"]);
    p, batch := Plan(Options([], false), Signature(["x"], ["y"]), map[]), [t];
    assert Coords([]) == {[]} && x in t.inputs;
    assert TotalSize(batch[..0]) == 0 && PaddingSize(p.options, batch) == 0;
    assert NamesOf(t.inputs) == {"x"} == SetOf(p.sig.inputs) && SetOf(t.outputs) == {"y"} == SetOf(p.sig.outputs);
    var delivered := Delivered(p, batch, CombinedOutputs(m, p, batch), 0, moved);
    BatchingIsTransparent(m, p, batch, 0, moved);
    PreparedAreOwn(p, t);
    assert FirstMention(t.outputs, 0) && t.outputs[..1][0] == t.outputs[1] && !FirstMention(t.outputs, 1);
    assert delivered[1] == moved(0, 1);
  }

  /** Preparation leaves the task's inputs as they are. */
  ghost predicate OwnInputs(p: Plan, t: TaskView) {
    forall e :: e in t.inputs ==> Prepare(p, e) == Success(e.tensor)
  }

  lemma PreparedAreOwn(p: Plan, t: TaskView)
    requires OwnInputs(p, t) && DistinctNames(t.inputs)
    ensures PreparedInputs(p, t) == InputMap(t.inputs)
  {
    InputMapIs(t.inputs);
    forall name | name in InputMap(t.inputs) ensures Prepared(p, t, name) == InputMap(t.inputs)[name] {
      assert NamedTensor(name, InputMap(t.inputs)[name]) in t.inputs;
    }
  }

  ghost predicate SameShapeEntries(e: NamedTensor, f: NamedTensor) {
    e.name == f.name ==> SameShape(e.tensor, f.tensor)
  }

  /** All tensors of one name agree beyond the zeroth dimension. */
  ghost predicate EqualRowShapes(batch: seq<TaskView>) {
    forall e, f :: e in AllEntries(AllInputs(batch)) && f in AllEntries(AllInputs(batch)) ==> SameShapeEntries(e, f)
  }

  /** All tensors have a rank that padding supports. */
  ghost predicate PaddableRanks(batch: seq<TaskView>) {
    forall e :: e in AllEntries(AllInputs(batch)) ==> 1 <= |Shape(e.tensor)| <= 6
  }

  /** Where variable-length inputs are padded, there is nothing to pad. */
  ghost predicate NothingToPad(p: Plan, batch: seq<TaskView>) {
    p.options.padVariableLengthInputs ==> EqualRowShapes(batch) && PaddableRanks(batch)
  }

  /** Inputs are batched as they are if variable-length padding is off, and also if row shapes are equal. */
  lemma InputsAreOwn(p: Plan, batch: seq<TaskView>, k: nat)
    requires k < |batch| && HasSignature(p.sig, batch[k]) && SizesFor(p, batch) && NothingToPad(p, batch)
    ensures OwnInputs(p, batch[k])
  {
    forall e | e in batch[k].inputs ensures Prepare(p, e) == Success(e.tensor) {
      if p.options.padVariableLengthInputs {
        var entries := AllEntries(AllInputs(batch));
        InputIsEntry(batch, k, e);
        assert HasSizes(p, e) && IsMaximum(entries, e.name, p.maxDimSizes[e.name]);
        assert forall f :: f in entries ==> SameShapeEntries(f, e);
        EqualShapesNeedNoPadding(entries, e.name, p.maxDimSizes[e.name], e);
      }
    }
  }

  /** Tasks with equal row shapes can be merged, whether or not inputs are padded. */
  lemma EqualShapesAreMergeable(p: Plan, batch: seq<TaskView>)
    requires Conforms(p, batch) && EqualRowShapes(batch) && NothingToPad(p, batch)
    ensures Mergeable(p, batch)
  {
    forall k | 0 <= k < |batch| ensures Fits(p, batch, k) {
      InputsAreOwn(p, batch, k);
      forall e | e in batch[k].inputs ensures InputFits(p, batch, k, e) {
        InputIsEntry(batch, k, e);
        HasFirstShape(p, batch, k, e);
      }
    }
  }

  lemma HasFirstShape(p: Plan, batch: seq<TaskView>, k: nat, e: NamedTensor)
    requires Conforms(p, batch) && EqualRowShapes(batch) && k < |batch| && e in batch[k].inputs
    ensures EqualExceptZeroDim(Shape(e.tensor), Shape(FirstNamed(batch[0].inputs, e.name)))
  {
    assert HasSignature(p.sig, batch[0]) && HasSignature(p.sig, batch[k]);
    assert e.name in NamesOf(batch[k].inputs) && e.name in SetOf(p.sig.inputs);
    FirstInput(p, batch[0], e.name);
    var f := NamedTensor(e.name, InputTensor(batch[0], e.name));
    InputIsEntry(batch, k, e);
    InputIsEntry(batch, 0, f);
    assert SameShapeEntries(e, f);
    assert Shape(e.tensor)[1..] == e.tensor.rowShape && Shape(f.tensor)[1..] == f.tensor.rowShape;
    TailsAgree(Shape(e.tensor), Shape(f.tensor));
  }

  /** Ordinary batching of equal row shapes succeeds, and each task gets what a run on its own inputs would give it. */
  lemma EqualShapesAreTransparent(m: Model, p: Plan, batch: seq<TaskView>, k: nat, moved: MovedFrom)
    requires Conforms(p, batch) && EqualRowShapes(batch) && NothingToPad(p, batch) && k < |batch|
    ensures GoodBatch(p, batch)
    ensures var delivered := Delivered(p, batch, CombinedOutputs(m, p, batch), k, moved);
      var run := Run(m, InputMap(batch[k].inputs), batch[k].size, batch[k].outputs);
      Serves(batch[k].outputs, delivered, run) && (DistinctStrings(batch[k].outputs) ==> delivered == run)
  {
    EqualShapesAreMergeable(p, batch);
    BatchingIsTransparent(m, p, batch, k, moved);
    InputsAreOwn(p, batch, k);
    PreparedAreOwn(p, batch[k]);
    DistinctIffFirstMentions(batch[k].outputs);
  }
}
