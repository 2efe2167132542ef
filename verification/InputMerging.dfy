/** Merging the inputs of a batch: each input of the signature becomes one tensor, padded to an allowed batch size. */
module InputMerging {
  import opened Common
  import opened Tensors
  import opened Padding
  import opened BatchSizes
  import opened Batching

  type TensorLists = map<string, seq<Tensor>>

  // ---------- Which batches can be read ----------

  ghost predicate AllWellFormed(t: TaskView) {
    forall e :: e in t.inputs ==> WellFormed(e.tensor)
  }

  ghost predicate HasFirstRows(t: TaskView) {
    forall e :: e in t.inputs ==> e.tensor.Ranked? && |e.tensor.rows| > 0
  }

  /**
    With padding of variable lengths, tensors have the rank that the first task has for their name;
    without, they have names of the first task. If the batch has to be padded, the last task's tensors
    have a row to pad with.
   */
  ghost predicate Readable(o: Options, batch: seq<TaskView>) {
    && (forall i :: 0 <= i < |batch| ==> AllWellFormed(batch[i]))
    && (batch != [] ==>
          && (o.padVariableLengthInputs ==> EqualRanks(AllInputs(batch)))
          && (!o.padVariableLengthInputs ==>
                forall i :: 0 <= i < |batch| ==> NamesOf(batch[i].inputs) <= NamesOf(batch[0].inputs))
          && (PaddingSize(o, batch) > 0 ==> HasFirstRows(batch[|batch| - 1])))
  }

  ghost predicate EqualRanks(batch: seq<seq<NamedTensor>>) {
    batch != [] && forall task :: task in batch ==> RanksEqual(task, batch[0])
  }

  ghost predicate RanksEqual(task: seq<NamedTensor>, first: seq<NamedTensor>) {
    forall e :: e in task ==> |Shape(e.tensor)| == RankIn(first, e.name)
  }

  /** What task `i` needs of the above while the lists are filled. */
  ghost predicate CanGather(p: Plan, batch: seq<TaskView>, i: nat) {
    && i < |batch| && AllWellFormed(batch[i])
    && (p.options.padVariableLengthInputs ==> forall e :: e in batch[i].inputs ==> HasSizes(p, e))
    && (!p.options.padVariableLengthInputs ==> NamesOf(batch[i].inputs) <= NamesOf(batch[0].inputs))
  }

  ghost predicate CanGatherAll(p: Plan, batch: seq<TaskView>) {
    batch != [] && forall i :: 0 <= i < |batch| ==> CanGather(p, batch, i)
  }

  lemma ReadableCanGather(p: Plan, batch: seq<TaskView>)
    requires batch != [] && Readable(p.options, batch) && SizesFor(p, batch)
    ensures CanGatherAll(p, batch)
  {
    forall i | 0 <= i < |batch| ensures CanGather(p, batch, i) {
      if p.options.padVariableLengthInputs {
        forall e | e in batch[i].inputs ensures HasSizes(p, e) {
          InputIsEntry(batch, i, e);
        }
      }
    }
  }

  // ---------- The lists ----------

  ghost function AllNames(batch: seq<TaskView>): set<string> {
    if batch == [] then {} else AllNames(batch[..|batch| - 1]) + NamesOf(batch[|batch| - 1].inputs)
  }

  /** The padding rows behind each input of task `i`: only the last task has some. */
  function PaddingOf(p: Plan, batch: seq<TaskView>, i: nat): nat {
    if i + 1 == |batch| then PaddingSize(p.options, batch) else 0
  }

  /** The tensors of `name` from the first `i` tasks and the first `k` inputs of the next one. */
  ghost function Gathered(p: Plan, batch: seq<TaskView>, i: nat, k: nat, name: string): seq<Tensor>
    requires i < |batch| && k <= |batch[i].inputs|
  {
    MergeList(p, batch[..i], name, 0) + Entries(p, batch[i].inputs[..k], name, PaddingOf(p, batch, i))
  }

  lemma GatheredNext(p: Plan, batch: seq<TaskView>, i: nat, k: nat, name: string)
    requires i < |batch| && k < |batch[i].inputs|
    ensures var tensor := PreparedEntry(p, batch[i].inputs[k]);
      Gathered(p, batch, i, k + 1, name) == Gathered(p, batch, i, k, name) +
        if batch[i].inputs[k].name == name
        then [tensor] + seq(PaddingOf(p, batch, i), _ => FirstRow(tensor))
        else []
  {
    assert batch[i].inputs[..k + 1][..k] == batch[i].inputs[..k];
  }

  lemma {:induction false} UnnamedListIsEmpty(p: Plan, batch: seq<TaskView>, name: string, padding: nat)
    requires name !in AllNames(batch)
    ensures MergeList(p, batch, name, padding) == []
  {
    if batch != [] {
      NoEntries(p, batch[|batch| - 1].inputs, name, padding);
      UnnamedListIsEmpty(p, batch[..|batch| - 1], name, 0);
    }
  }

  lemma {:induction false} EntriesBeginWithFirst(p: Plan, inputs: seq<NamedTensor>, name: string)
    requires !p.options.padVariableLengthInputs && name in NamesOf(inputs)
    ensures Entries(p, inputs, name, 0) != [] && Entries(p, inputs, name, 0)[0] == FirstNamed(inputs, name)
  {
    var init, last := inputs[..|inputs| - 1], inputs[|inputs| - 1];
    assert inputs == init + [last];
    FirstNamedOfPrefix(init, last, name);
    if name in NamesOf(init) {
      EntriesBeginWithFirst(p, init, name);
    } else {
      NoEntries(p, init, name, 0);
    }
  }

  lemma {:induction false} FirstNamedOfPrefix(init: seq<NamedTensor>, last: NamedTensor, name: string)
    ensures FirstNamed(init + [last], name)
      == if name in NamesOf(init) then FirstNamed(init, name) else if last.name == name then last.tensor else Scalar(0)
  {
    if init != [] {
      assert (init + [last])[1..] == init[1..] + [last];
      assert init == [init[0]] + init[1..] && init[0] in init;
      FirstNamedOfPrefix(init[1..], last, name);
      assert NamesOf(init) == {init[0].name} + NamesOf(init[1..]);
    }
  }

  lemma {:induction false} ListBeginsWithFirst(p: Plan, batch: seq<TaskView>, name: string)
    requires batch != [] && !p.options.padVariableLengthInputs && name in NamesOf(batch[0].inputs)
    ensures MergeList(p, batch, name, 0) != []
    ensures MergeList(p, batch, name, 0)[0] == FirstNamed(batch[0].inputs, name)
  {
    if |batch| > 1 {
      ListBeginsWithFirst(p, batch[..|batch| - 1], name);
    } else {
      EntriesBeginWithFirst(p, batch[0].inputs, name);
    }
  }

  /** The code of the error for inputs that cannot be batched. */
  function MergeErrorCode(o: Options): Code {
    if o.padVariableLengthInputs then InvalidArgument else FailedPrecondition
  }

  // ---------- One input ----------

  /** Prepares input `k` of task `i`; `tensors` are those of its name that are there already. */
  method PrepareInput(p: Plan, batch: seq<TaskView>, i: nat, k: nat, tensors: seq<Tensor>)
    returns (r: Result<Tensor>)
    requires CanGather(p, batch, i) && k < |batch[i].inputs|
    requires tensors == Gathered(p, batch, i, k, batch[i].inputs[k].name)
    ensures r == Prepare(p, batch[i].inputs[k]) || r.Failure?
    ensures r.Success? <==> InputFits(p, batch, i, batch[i].inputs[k])
    ensures r.Failure? ==> r.error.Error? && r.error.code == MergeErrorCode(p.options)
  {
    if p.options.padVariableLengthInputs {
      assert HasSizes(p, batch[i].inputs[k]) && WellFormed(batch[i].inputs[k].tensor);
      r := PadInput(p, batch[i].inputs[k]);
    } else {
      ReferenceIsFirst(p, batch, i, k);
      r := CheckInput(batch[i].inputs[k].tensor, i, tensors);
    }
  }

  method PadInput(p: Plan, e: NamedTensor) returns (r: Result<Tensor>)
    requires p.options.padVariableLengthInputs && HasSizes(p, e) && WellFormed(e.tensor)
    ensures r == Prepare(p, e) && (r.Failure? ==> r.error.Error? && r.error.code == InvalidArgument)
  {
    r := PadTensor(e.tensor, p.maxDimSizes[e.name]);
  }

  /** Compares the shape with that of the first tensor that is there already. */
  method CheckInput(tensor: Tensor, i: nat, tensors: seq<Tensor>) returns (r: Result<Tensor>)
    requires i > 0 ==> tensors != []
    ensures r.Success? <==> i == 0 || EqualExceptZeroDim(Shape(tensor), Shape(tensors[0]))
    ensures r.Success? ==> r.value == tensor
    ensures r.Failure? ==> r.error.Error? && r.error.code == FailedPrecondition
  {
    if i > 0 {
      var equal := AreShapesEqualExceptZeroDim(Shape(tensor), Shape(tensors[0]));
      if !equal {
        return Failure(Error(FailedPrecondition,
          "Tensors from different tasks have different shapes and padding is turned off."));
      }
    }
    r := Success(tensor);
  }

  lemma ReferenceIsFirst(p: Plan, batch: seq<TaskView>, i: nat, k: nat)
    requires CanGather(p, batch, i) && !p.options.padVariableLengthInputs && k < |batch[i].inputs|
    ensures var name := batch[i].inputs[k].name; var tensors := Gathered(p, batch, i, k, name);
      i > 0 ==> tensors != [] && tensors[0] == FirstNamed(batch[0].inputs, name)
  {
    if i > 0 {
      assert batch[i].inputs[k] in batch[i].inputs && batch[i].inputs[k].name in NamesOf(batch[i].inputs);
      ListBeginsWithFirst(p, batch[..i], batch[i].inputs[k].name);
    }
  }

  /** The list of one name after input `k`: its prepared tensor and, in the last task, the padding rows. */
  method GatherInput(p: Plan, batch: seq<TaskView>, i: nat, padding: nat, k: nat, tensors: seq<Tensor>)
    returns (r: Result<seq<Tensor>>)
    requires CanGather(p, batch, i) && padding == PaddingSize(p.options, batch) && k < |batch[i].inputs|
    requires tensors == Gathered(p, batch, i, k, batch[i].inputs[k].name)
    ensures r.Success? <==> InputFits(p, batch, i, batch[i].inputs[k])
    ensures r.Success? ==> r.value == Gathered(p, batch, i, k + 1, batch[i].inputs[k].name)
    ensures r.Failure? ==> r.error.Error? && r.error.code == MergeErrorCode(p.options)
  {
    var tensor :- PrepareInput(p, batch, i, k, tensors);
    GatheredNext(p, batch, i, k, batch[i].inputs[k].name);
    var list := AppendTensor(tensors, tensor, if i == |batch| - 1 then padding else 0);
    r := Success(list);
  }

  method AppendTensor(tensors: seq<Tensor>, tensor: Tensor, padding: nat) returns (list: seq<Tensor>)
    ensures list == tensors + ([tensor] + seq(padding, _ => FirstRow(tensor)))
  {
    list := tensors + [tensor];
    if padding > 0 {
      var paddingTensor := FirstRow(list[|list| - 1]);
      for c := 0 to padding
        invariant list == tensors + [tensor] + seq(c, _ => paddingTensor)
      {
        list := list + [paddingTensor];
      }
    }
  }

  // ---------- One task ----------

  /** The lists after the first `k` inputs of task `i`. */
  ghost predicate Gathering(p: Plan, batch: seq<TaskView>, i: nat, k: nat, lists: TensorLists)
    requires i < |batch| && k <= |batch[i].inputs|
  {
    && lists.Keys == AllNames(batch[..i]) + NamesOf(batch[i].inputs[..k])
    && forall name :: name in lists ==> lists[name] == Gathered(p, batch, i, k, name)
  }

  lemma NextName(task: seq<NamedTensor>, k: nat)
    requires k < |task|
    ensures NamesOf(task[..k + 1]) == NamesOf(task[..k]) + {task[k].name}
  {
    assert task[..k + 1] == task[..k] + [task[k]];
  }

  lemma NextList(p: Plan, batch: seq<TaskView>, i: nat, k: nat, lists: TensorLists)
    requires i < |batch| && k < |batch[i].inputs| && Gathering(p, batch, i, k, lists)
    ensures var name := batch[i].inputs[k].name;
      Gathered(p, batch, i, k, name) == if name in lists then lists[name] else []
  {
    var name := batch[i].inputs[k].name;
    if name !in lists {
      UnnamedListIsEmpty(p, batch[..i], name, 0);
      NoEntries(p, batch[i].inputs[..k], name, PaddingOf(p, batch, i));
    }
  }

  lemma NextLists(p: Plan, batch: seq<TaskView>, i: nat, k: nat, lists: TensorLists, list: seq<Tensor>)
    requires i < |batch| && k < |batch[i].inputs| && Gathering(p, batch, i, k, lists)
    requires list == Gathered(p, batch, i, k + 1, batch[i].inputs[k].name)
    ensures Gathering(p, batch, i, k + 1, lists[batch[i].inputs[k].name := list])
  {
    NextName(batch[i].inputs, k);
    forall name | name in lists && name != batch[i].inputs[k].name
      ensures lists[name] == Gathered(p, batch, i, k + 1, name)
    {
      GatheredNext(p, batch, i, k, name);
    }
  }

  method GatherNextInput(p: Plan, batch: seq<TaskView>, i: nat, padding: nat, k: nat, lists: TensorLists)
    returns (r: Result<TensorLists>)
    requires CanGather(p, batch, i) && padding == PaddingSize(p.options, batch)
    requires k < |batch[i].inputs| && Gathering(p, batch, i, k, lists)
    ensures r.Success? <==> InputFits(p, batch, i, batch[i].inputs[k])
    ensures r.Success? ==> Gathering(p, batch, i, k + 1, r.value)
    ensures r.Failure? ==> r.error.Error? && r.error.code == MergeErrorCode(p.options)
  {
    var name := batch[i].inputs[k].name;
    var tensors := if name in lists then lists[name] else [];
    NextList(p, batch, i, k, lists);
    var list :- GatherInput(p, batch, i, padding, k, tensors);
    NextLists(p, batch, i, k, lists, list);
    r := Success(lists[name := list]);
  }

  /** Adds the inputs of task `i` to the lists. */
  method GatherTask(p: Plan, batch: seq<TaskView>, i: nat, padding: nat, lists: TensorLists)
    returns (r: Result<TensorLists>)
    requires CanGather(p, batch, i) && padding == PaddingSize(p.options, batch)
    requires Gathering(p, batch, i, 0, lists)
    ensures r.Success? <==> Fits(p, batch, i)
    ensures r.Success? ==> Gathering(p, batch, i, |batch[i].inputs|, r.value)
    ensures r.Failure? ==> r.error.Error? && r.error.code == MergeErrorCode(p.options)
  {
    r := Success(lists);
    FitsInOrder(p, batch, i);
    for k := 0 to |batch[i].inputs|
      invariant FitsUpTo(p, batch, i, k)
      invariant r.Success? && Gathering(p, batch, i, k, r.value)
    {
      r := GatherNextInput(p, batch, i, padding, k, r.value);
      NextFits(p, batch, i, k);
      if r.Failure? {
        return;
      }
    }
  }

  ghost predicate FitsUpTo(p: Plan, batch: seq<TaskView>, i: nat, k: nat)
    requires i < |batch| && k <= |batch[i].inputs|
  {
    forall h :: 0 <= h < k ==> InputFits(p, batch, i, batch[i].inputs[h])
  }

  lemma NextFits(p: Plan, batch: seq<TaskView>, i: nat, k: nat)
    requires i < |batch| && k < |batch[i].inputs|
    ensures FitsUpTo(p, batch, i, k + 1) <==> FitsUpTo(p, batch, i, k) && InputFits(p, batch, i, batch[i].inputs[k])
    ensures Fits(p, batch, i) ==> InputFits(p, batch, i, batch[i].inputs[k])
  {
    assert batch[i].inputs[k] in batch[i].inputs;
  }

  lemma FitsInOrder(p: Plan, batch: seq<TaskView>, i: nat)
    requires i < |batch|
    ensures FitsUpTo(p, batch, i, |batch[i].inputs|) <==> Fits(p, batch, i)
  {
    forall e | e in batch[i].inputs && FitsUpTo(p, batch, i, |batch[i].inputs|) ensures InputFits(p, batch, i, e) {
      var h :| 0 <= h < |batch[i].inputs| && batch[i].inputs[h] == e;
    }
  }

  // ---------- All tasks ----------

  /** The tensors of `name` from the first `i` tasks, with the padding rows if those are all. */
  ghost function GatheredFrom(p: Plan, batch: seq<TaskView>, i: nat, name: string): seq<Tensor>
    requires i <= |batch|
  {
    MergeList(p, batch[..i], name, if i == |batch| then PaddingSize(p.options, batch) else 0)
  }

  /** The lists after the first `i` tasks. */
  ghost predicate AllGathered(p: Plan, batch: seq<TaskView>, i: nat, lists: TensorLists)
    requires i <= |batch|
  {
    && lists.Keys == AllNames(batch[..i])
    && forall name :: name in lists ==> lists[name] == GatheredFrom(p, batch, i, name)
  }

  lemma StartTask(p: Plan, batch: seq<TaskView>, i: nat, lists: TensorLists)
    requires i < |batch| && AllGathered(p, batch, i, lists)
    ensures Gathering(p, batch, i, 0, lists)
  {
    assert NamesOf(batch[i].inputs[..0]) == {};
  }

  lemma EndTask(p: Plan, batch: seq<TaskView>, i: nat, lists: TensorLists)
    requires i < |batch| && Gathering(p, batch, i, |batch[i].inputs|, lists)
    ensures AllGathered(p, batch, i + 1, lists)
  {
    assert batch[i].inputs[..|batch[i].inputs|] == batch[i].inputs;
    assert batch[..i + 1][..i] == batch[..i];
  }

  method GatherNextTask(p: Plan, batch: seq<TaskView>, i: nat, padding: nat, lists: TensorLists)
    returns (r: Result<TensorLists>)
    requires CanGather(p, batch, i) && padding == PaddingSize(p.options, batch)
    requires AllGathered(p, batch, i, lists)
    ensures r.Success? <==> Fits(p, batch, i)
    ensures r.Success? ==> AllGathered(p, batch, i + 1, r.value)
    ensures r.Failure? ==> r.error.Error? && r.error.code == MergeErrorCode(p.options)
  {
    StartTask(p, batch, i, lists);
    r := GatherTask(p, batch, i, padding, lists);
    if r.Success? {
      EndTask(p, batch, i, r.value);
    }
  }

  method GatherAll(p: Plan, batch: seq<TaskView>, padding: nat) returns (r: Result<TensorLists>)
    requires CanGatherAll(p, batch) && padding == PaddingSize(p.options, batch)
    ensures r.Success? <==> Mergeable(p, batch)
    ensures r.Success? ==> AllGathered(p, batch, |batch|, r.value)
    ensures r.Failure? ==> r.error.Error? && r.error.code == MergeErrorCode(p.options)
  {
    r := Success(map[]);
    for i := 0 to |batch|
      invariant forall h :: 0 <= h < i ==> Fits(p, batch, h)
      invariant r.Success? && AllGathered(p, batch, i, r.value)
    {
      assert CanGather(p, batch, i);
      r := GatherNextTask(p, batch, i, padding, r.value);
      if r.Failure? {
        return;
      }
    }
  }

  // ---------- The merged tensors ----------

  /** A signature lists no name twice. */
  ghost predicate IsSignature(sig: Signature) {
    DistinctStrings(sig.inputs) && DistinctStrings(sig.outputs)
  }

  /** The tasks' names are exactly the signature's, and each name's tensors can be concatenated. */
  ghost predicate Concatenable(p: Plan, batch: seq<TaskView>) {
    && AllNames(batch) == SetOf(p.sig.inputs)
    && forall name :: name in p.sig.inputs ==> Concat(MergeList(p, batch, name, PaddingSize(p.options, batch))).Success?
  }

  ghost predicate Merges(p: Plan, batch: seq<TaskView>) {
    Mergeable(p, batch) && Concatenable(p, batch)
  }

  ghost function MergedList(p: Plan, batch: seq<TaskView>): seq<NamedTensor> {
    seq(|p.sig.inputs|, k requires 0 <= k < |p.sig.inputs| =>
      NamedTensor(p.sig.inputs[k], MergedTensor(p, batch, p.sig.inputs[k])))
  }

  lemma {:induction false} CountNames(names: seq<string>)
    requires DistinctStrings(names)
    ensures |SetOf(names)| == |names|
  {
    if names != [] {
      var init, last := names[..|names| - 1], names[|names| - 1];
      CountNames(init);
      assert names == init + [last];
      assert SetOf(names) == SetOf(init) + {last};
    }
  }

  lemma SameCountSameNames(names: seq<string>, keys: set<string>)
    requires DistinctStrings(names)
    ensures keys == SetOf(names) <==> |keys| == |names| && SetOf(names) <= keys
  {
    CountNames(names);
    if |keys| == |names| && SetOf(names) <= keys {
      assert |keys - SetOf(names)| == 0;
    }
  }

  ghost predicate IsMerged(p: Plan, batch: seq<TaskView>, name: string, e: NamedTensor) {
    e == NamedTensor(name, MergedTensor(p, batch, name))
  }

  lemma AllMerged(p: Plan, batch: seq<TaskView>, merged: seq<NamedTensor>)
    requires |merged| == |p.sig.inputs|
    requires forall h :: 0 <= h < |merged| ==> IsMerged(p, batch, p.sig.inputs[h], merged[h])
    ensures merged == MergedList(p, batch)
  {}

  ghost predicate NameConcatenates(p: Plan, batch: seq<TaskView>, name: string) {
    name in AllNames(batch) && Concat(MergeList(p, batch, name, PaddingSize(p.options, batch))).Success?
  }

  method ConcatInput(p: Plan, ghost batch: seq<TaskView>, name: string, lists: TensorLists)
    returns (r: Result<NamedTensor>)
    requires AllGathered(p, batch, |batch|, lists)
    ensures r.Success? <==> NameConcatenates(p, batch, name)
    ensures r.Success? ==> IsMerged(p, batch, name, r.value)
    ensures r.Failure? ==> r.error.Error? && r.error.code == Internal
  {
    assert batch[..|batch|] == batch;
    if name !in lists {
      return Failure(Error(Internal, "One or more tasks does not conform to batch signature"));
    }
    var concated := Concat(lists[name]);
    if concated.Failure? {
      return Failure(Error(Internal, "Tensor concat operation failed"));
    }
    r := Success(NamedTensor(name, concated.value));
  }

  method ConcatAll(p: Plan, ghost batch: seq<TaskView>, lists: TensorLists) returns (r: Result<seq<NamedTensor>>)
    requires AllGathered(p, batch, |batch|, lists)
    ensures r.Success? <==> forall name :: name in p.sig.inputs ==> NameConcatenates(p, batch, name)
    ensures r.Success? ==> r.value == MergedList(p, batch)
    ensures r.Failure? ==> r.error.Error? && r.error.code == Internal
  {
    var merged: seq<NamedTensor> := [];
    for k := 0 to |p.sig.inputs|
      invariant |merged| == k
      invariant forall h :: 0 <= h < k ==>
        NameConcatenates(p, batch, p.sig.inputs[h]) && IsMerged(p, batch, p.sig.inputs[h], merged[h])
    {
      var e :- ConcatInput(p, batch, p.sig.inputs[k], lists);
      merged := merged + [e];
    }
    AllMerged(p, batch, merged);
    r := Success(merged);
  }

  lemma ConcatenableIff(p: Plan, batch: seq<TaskView>)
    requires DistinctStrings(p.sig.inputs)
    ensures Concatenable(p, batch) <==>
      |AllNames(batch)| == |p.sig.inputs| && forall name :: name in p.sig.inputs ==> NameConcatenates(p, batch, name)
  {
    SameCountSameNames(p.sig.inputs, AllNames(batch));
    if forall name :: name in p.sig.inputs ==> NameConcatenates(p, batch, name) {
      assert SetOf(p.sig.inputs) <= AllNames(batch);
    }
    if Concatenable(p, batch) {
      forall name | name in p.sig.inputs ensures NameConcatenates(p, batch, name) {
        assert name in SetOf(p.sig.inputs);
      }
    }
  }

  lemma MaximaAreSizes(p: Plan, batch: seq<TaskView>)
    requires batch != [] && EqualRanks(AllInputs(batch))
    requires AreMaxima(AllEntries(AllInputs(batch)), p.maxDimSizes) && HasRanks(p.maxDimSizes, batch[0].inputs)
    ensures SizesFor(p, batch)
  {
    forall e | e in AllEntries(AllInputs(batch)) ensures HasSizes(p, e) {
      EntryHasRank(AllInputs(batch), AllInputs(batch)[0], e);
      assert |SizesOf(p.maxDimSizes, e.name)| == RankIn(batch[0].inputs, e.name);
    }
  }

  lemma {:induction false} EntryHasRank(batch: seq<seq<NamedTensor>>, first: seq<NamedTensor>, e: NamedTensor)
    requires e in AllEntries(batch) && forall task :: task in batch ==> RanksEqual(task, first)
    ensures |Shape(e.tensor)| == RankIn(first, e.name)
  {
    var init, last := batch[..|batch| - 1], batch[|batch| - 1];
    if e in AllEntries(init) {
      EntryHasRank(init, first, e);
    } else {
      assert last in batch && e in last;
    }
  }

  /** The maximum sizes of the batch, if they are needed. */
  method MakePlan(o: Options, sig: Signature, batch: seq<TaskView>) returns (p: Plan)
    requires batch != [] && (o.padVariableLengthInputs ==> EqualRanks(AllInputs(batch)))
    ensures p.options == o && p.sig == sig && SizesFor(p, batch)
  {
    var maxDimSizes: DimSizes := map[];
    if o.padVariableLengthInputs {
      maxDimSizes := CalculateMaxDimSizes(AllInputs(batch));
    }
    p := Plan(o, sig, maxDimSizes);
    if o.padVariableLengthInputs {
      MaximaAreSizes(p, batch);
    }
  }

  /**
    Merging succeeds exactly if all inputs fit together, have the signature's names, and can be
    concatenated; then every input of the signature is the concatenation of the tasks' prepared tensors,
    followed by the padding rows.
   */
  method MergeInputTensors(o: Options, sig: Signature, batch: seq<TaskView>)
    returns (r: Result<seq<NamedTensor>>, p: Plan)
    requires IsSignature(sig) && Readable(o, batch)
    ensures p.options == o && p.sig == sig && (batch != [] ==> SizesFor(p, batch))
    ensures r.Success? <==> Merges(p, batch)
    ensures r.Success? ==> r.value == MergedList(p, batch)
    ensures r.Failure? ==>
      && r.error.Error?
      && r.error.code == if batch == [] || Mergeable(p, batch) then Internal
                         else if o.padVariableLengthInputs then InvalidArgument else FailedPrecondition
  {
    p := Plan(o, sig, map[]);
    if |batch| < 1 {
      return Failure(Error(Internal, "Batch size expected to be positive")), p;
    }
    var lowestAllowedBatchSize := RoundToLowestAllowedBatchSize(o.allowedBatchSizes, TotalSize(batch));
    p := MakePlan(o, sig, batch);
    ReadableCanGather(p, batch);
    var lists :- GatherAll(p, batch, lowestAllowedBatchSize - TotalSize(batch));
    assert batch[..|batch|] == batch;
    ConcatenableIff(p, batch);
    if |lists.Keys| != |sig.inputs| {
      return Failure(Error(Internal, "One or more tasks does not conform to batch signature")), p;
    }
    r := ConcatAll(p, batch, lists);
  }

  // ---------- Conforming batches ----------

  lemma {:induction false} NamesAreSignatures(p: Plan, batch: seq<TaskView>)
    requires batch != [] && forall i :: 0 <= i < |batch| ==> HasSignature(p.sig, batch[i])
    ensures AllNames(batch) == SetOf(p.sig.inputs)
  {
    if |batch| > 1 {
      NamesAreSignatures(p, batch[..|batch| - 1]);
    } else {
      assert AllNames(batch[..0]) == {};
    }
  }

  /** A good batch passes all checks. */
  lemma GoodBatchMerges(p: Plan, batch: seq<TaskView>)
    requires GoodBatch(p, batch)
    ensures Merges(p, batch)
  {
    NamesAreSignatures(p, batch);
    forall name | name in p.sig.inputs
      ensures Concat(MergeList(p, batch, name, PaddingSize(p.options, batch))).Success?
    {
      MergeListHasShape(p, batch, name);
      ConcatOfRanked(MergeList(p, batch, name, PaddingSize(p.options, batch)));
    }
  }
}
