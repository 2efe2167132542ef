/** Why a task that was split gets the outputs of one run, whatever batches its pieces went through. */
module SplitTransparency {
  import opened Common
  import opened Tensors
  import opened Batching
  import opened InputSplitting
  import opened SplitJoin

  // ---------- What the pieces are given ----------

  /**
    One batch that contains the piece, run on a row-wise model, delivered `tensor` as its output `index`.
    With `even`, the batch had nothing to pad.
   */
  ghost predicate DeliveredBy(
    m: Model, p: Plan, batch: seq<TaskView>, k: nat, moved: MovedFrom,
    piece: TaskView, index: nat, tensor: Tensor, even: bool)
  {
    && GoodBatch(p, batch) && k < |batch| && batch[k] == piece && (even ==> NothingToPad(p, batch))
    && index < |piece.outputs| && tensor == Delivered(p, batch, CombinedOutputs(m, p, batch), k, moved)[index]
  }

  ghost predicate FromSomeBatch(m: Model, piece: TaskView, index: nat, tensor: Tensor, even: bool) {
    exists p, batch, k, moved :: DeliveredBy(m, p, batch, k, moved, piece, index, tensor, even)
  }

  /** Every tensor that is pushed in the run was delivered by some batch that contained the piece. */
  ghost predicate PushedByBatches(m: Model, t: TaskView, sizes: seq<nat>, steps: seq<Step>, even: bool) {
    forall i :: 0 <= i < |steps| && steps[i].PushStep? ==>
      var j := steps[i].piece;
      j < |sizes| && FromSomeBatch(m, PieceTask(t, sizes, j), steps[i].index, steps[i].tensor, even)
  }

  /** The piece's inputs as some batch prepared them; as they are, with `even`. */
  ghost predicate IsPreparedFor(piece: TaskView, inputs: map<string, Tensor>, even: bool) {
    exists p :: inputs == PreparedInputs(p, piece) && (even ==> OwnInputs(p, piece))
  }

  ghost predicate OutputFrom(
    m: Model, piece: TaskView, index: nat, inputs: map<string, Tensor>, tensor: Tensor, even: bool)
    requires index < |piece.outputs|
  {
    IsPreparedFor(piece, inputs, even) && tensor == RunOutput(m, inputs, piece.size, piece.outputs[index])
  }

  /** The tensor is what the piece's own run gives, on its inputs as some batch prepared them. */
  ghost predicate IsOutput(m: Model, piece: TaskView, index: nat, tensor: Tensor, even: bool)
    requires index < |piece.outputs|
  {
    exists inputs :: OutputFrom(m, piece, index, inputs, tensor, even)
  }

  lemma PushedIsOutput(m: Model, piece: TaskView, index: nat, tensor: Tensor, even: bool)
    requires FromSomeBatch(m, piece, index, tensor, even)
    ensures index < |piece.outputs| && (FirstMention(piece.outputs, index) ==> IsOutput(m, piece, index, tensor, even))
  {
    var p, batch, k, moved :| DeliveredBy(m, p, batch, k, moved, piece, index, tensor, even);
    BatchingIsTransparent(m, p, batch, k, moved);
    if even {
      InputsAreOwn(p, batch, k);
    }
    var inputs := PreparedInputs(p, piece);
    assert IsPreparedFor(piece, inputs, even);
    if FirstMention(piece.outputs, index) {
      assert OutputFrom(m, piece, index, inputs, tensor, even);
    }
  }

  // ---------- What is in the rows ----------

  /** Wherever an output is mentioned first, the row has what the piece's own run gives. */
  ghost predicate RowServes(m: Model, piece: TaskView, row: seq<Tensor>, even: bool) {
    |row| <= |piece.outputs| &&
    forall i :: 0 <= i < |row| && FirstMention(piece.outputs, i) ==> IsOutput(m, piece, i, row[i], even)
  }

  ghost predicate RowsServe(m: Model, t: TaskView, sizes: seq<nat>, pieces: seq<Piece>, even: bool) {
    forall j :: 0 <= j < |pieces| && j < |sizes| ==> RowServes(m, PieceTask(t, sizes, j), pieces[j].row, even)
  }

  lemma StepKeepsRowsServe(m: Model, t: TaskView, sizes: seq<nat>, s: State, step: Step, even: bool)
    requires Enabled(s, step) && RowsServe(m, t, sizes, s.pieces, even)
    requires step.PushStep? ==>
      && step.piece < |sizes| && step.index < |t.outputs|
      && (FirstMention(t.outputs, step.index) ==>
            IsOutput(m, PieceTask(t, sizes, step.piece), step.index, step.tensor, even))
    ensures RowsServe(m, t, sizes, Apply(s, step).pieces, even)
  {
    var next := Apply(s, step);
    forall j | 0 <= j < |next.pieces| && j < |sizes|
      ensures RowServes(m, PieceTask(t, sizes, j), next.pieces[j].row, even)
    {
      assert j < |s.pieces| ==> RowServes(m, PieceTask(t, sizes, j), s.pieces[j].row, even);
    }
  }

  /** At any time, what is in a piece's row is what a run of its own would give it. */
  lemma {:induction false} RunKeepsRowsServe(m: Model, t: TaskView, sizes: seq<nat>, steps: seq<Step>, even: bool)
    requires IsRun(|t.outputs|, steps) && PushedByBatches(m, t, sizes, steps, even)
    ensures RowsServe(m, t, sizes, After(|t.outputs|, steps).pieces, even)
    decreases |steps|
  {
    if steps != [] {
      var init, step := steps[..|steps| - 1], steps[|steps| - 1];
      RunKeepsRowsServe(m, t, sizes, init, even);
      if step.PushStep? {
        assert steps[|steps| - 1] == step;
        PushedIsOutput(m, PieceTask(t, sizes, step.piece), step.index, step.tensor, even);
      }
      StepKeepsRowsServe(m, t, sizes, After(|t.outputs|, init), step, even);
    }
  }

  // ---------- What the join makes of them ----------

  /** The request has been joined, and every piece reported success. */
  ghost predicate Succeeded(s: State, count: nat) {
    |s.pieces| == count && s.notifications > 0 && forall r :: r in s.reports ==> r.status.OK?
  }

  ghost function PartOf(m: Model, piece: TaskView, index: nat, tensor: Tensor, even: bool)
    : (inputs: map<string, Tensor>)
    requires index < |piece.outputs| && IsOutput(m, piece, index, tensor, even)
    ensures OutputFrom(m, piece, index, inputs, tensor, even)
  {
    var inputs :| OutputFrom(m, piece, index, inputs, tensor, even);
    inputs
  }

  lemma PieceOutputIsFrom(m: Model, t: TaskView, sizes: seq<nat>, pieces: seq<Piece>, i: nat, j: nat, even: bool)
    requires j < |sizes| == |pieces| && RowsServe(m, t, sizes, pieces, even)
    requires i < |t.outputs| == |pieces[j].row| && FirstMention(t.outputs, i)
    ensures IsOutput(m, PieceTask(t, sizes, j), i, pieces[j].row[i], even)
  {
    assert RowServes(m, PieceTask(t, sizes, j), pieces[j].row, even);
  }

  lemma ColumnIsFrom(m: Model, t: TaskView, sizes: seq<nat>, pieces: seq<Piece>, i: nat, even: bool)
    returns (parts: seq<map<string, Tensor>>)
    requires |sizes| == |pieces| && i < |t.outputs| && FirstMention(t.outputs, i)
    requires RowsServe(m, t, sizes, pieces, even) && forall p :: p in pieces ==> |p.row| == |t.outputs|
    ensures |parts| == |sizes| && forall j :: 0 <= j < |sizes| ==>
      |pieces[j].row| == |t.outputs| && OutputFrom(m, PieceTask(t, sizes, j), i, parts[j], pieces[j].row[i], even)
  {
    forall j | 0 <= j < |sizes|
      ensures |pieces[j].row| == |t.outputs| && IsOutput(m, PieceTask(t, sizes, j), i, pieces[j].row[i], even)
    {
      assert pieces[j] in pieces;
      PieceOutputIsFrom(m, t, sizes, pieces, i, j, even);
    }
    parts := seq(|sizes|, j requires 0 <= j < |sizes| => PartOf(m, PieceTask(t, sizes, j), i, pieces[j].row[i], even));
  }

  /** The column of one output is what the pieces' own runs give, whatever a short row would hold. */
  lemma ColumnIsOutputs(
    m: Model, t: TaskView, sizes: seq<nat>, pieces: seq<Piece>, i: nat, even: bool, missing: ShortReads)
    returns (parts: seq<map<string, Tensor>>)
    requires |sizes| == |pieces| && i < |t.outputs| && FirstMention(t.outputs, i)
    requires RowsServe(m, t, sizes, pieces, even) && forall p :: p in pieces ==> |p.row| == |t.outputs|
    ensures |parts| == |sizes| && forall j :: 0 <= j < |sizes| ==> IsPreparedFor(PieceTask(t, sizes, j), parts[j], even)
    ensures OutputColumn(pieces, i, missing) == Outputs(m, parts, sizes, t.outputs[i])
    ensures forall u :: u in OutputColumn(pieces, i, missing) ==> u.Ranked?
  {
    var column := OutputColumn(pieces, i, missing);
    parts := ColumnIsFrom(m, t, sizes, pieces, i, even);
    forall j | 0 <= j < |sizes|
      ensures IsPreparedFor(PieceTask(t, sizes, j), parts[j], even)
      ensures column[j] == RunOutput(m, parts[j], sizes[j], t.outputs[i])
    {
      assert OutputFrom(m, PieceTask(t, sizes, j), i, parts[j], pieces[j].row[i], even);
    }
    assert column == Outputs(m, parts, sizes, t.outputs[i]);
  }

  /**
    What splitting comes to in general. If all pieces report success, then every output, where it is first
    mentioned, is the concatenation of the runs on the pieces, each on its inputs as some batch prepared them.
   */
  lemma SplitRequestJoinsPieces(m: Model, t: TaskView, sizes: seq<nat>, steps: seq<Step>, i: nat, even: bool)
    returns (parts: seq<map<string, Tensor>>)
    requires sizes != [] && IsRun(|t.outputs|, steps) && PushedByBatches(m, t, sizes, steps, even)
    requires Succeeded(After(|t.outputs|, steps), |sizes|)
    requires i < |t.outputs| && FirstMention(t.outputs, i)
    ensures |parts| == |sizes|
    ensures forall j :: 0 <= j < |sizes| ==> IsPreparedFor(PieceTask(t, sizes, j), parts[j], even)
    ensures var s := After(|t.outputs|, steps);
      |s.outputs| == |t.outputs| && Success(s.outputs[i]) == Concat(Outputs(m, parts, sizes, t.outputs[i]))
  {
    RunKeepsRowsServe(m, t, sizes, steps, even);
    parts := JoinedFrom(m, t, sizes, steps, i, even);
  }

  lemma JoinedFrom(m: Model, t: TaskView, sizes: seq<nat>, steps: seq<Step>, i: nat, even: bool)
    returns (parts: seq<map<string, Tensor>>)
    requires sizes != [] && IsRun(|t.outputs|, steps) && RowsServe(m, t, sizes, After(|t.outputs|, steps).pieces, even)
    requires Succeeded(After(|t.outputs|, steps), |sizes|)
    requires i < |t.outputs| && FirstMention(t.outputs, i)
    ensures |parts| == |sizes|
    ensures forall j :: 0 <= j < |sizes| ==> IsPreparedFor(PieceTask(t, sizes, j), parts[j], even)
    ensures var s := After(|t.outputs|, steps);
      |s.outputs| == |t.outputs| && Success(s.outputs[i]) == Concat(Outputs(m, parts, sizes, t.outputs[i]))
  {
    var s := After(|t.outputs|, steps);
    RunKeepsInv(|t.outputs|, steps);
    AllRowsComplete(|t.outputs|, steps);
    var missing :| JoinedWith(s, missing);
    parts := ColumnIsOutputs(m, t, sizes, s.pieces, i, even, missing);
    ConcatOfRanked(OutputColumn(s.pieces, i, missing));
  }

  // ---------- Transparency ----------

  lemma OwnPartsAre(sig: Signature, t: TaskView, sizes: seq<nat>, parts: seq<map<string, Tensor>>)
    requires HasSignature(sig, t) && Sum(sizes) == t.size && |parts| == |sizes|
    requires forall j :: 0 <= j < |sizes| ==> IsPreparedFor(PieceTask(t, sizes, j), parts[j], true)
    ensures parts == PieceMaps(t, sizes)
  {
    forall j | 0 <= j < |sizes| ensures parts[j] == PieceMaps(t, sizes)[j] {
      var piece := PieceTask(t, sizes, j);
      var p :| parts[j] == PreparedInputs(p, piece) && OwnInputs(p, piece);
      PieceHasSignature(sig, t, sizes, j);
      PreparedAreOwn(p, piece);
    }
  }

  /** Rows that hold what runs on the pieces' own inputs give are joined to what one run gives the task. */
  lemma JoinIsTransparent(m: Model, sig: Signature, t: TaskView, sizes: seq<nat>, steps: seq<Step>)
    requires HasSignature(sig, t) && Sum(sizes) == t.size && sizes != [] && IsRun(|t.outputs|, steps)
    requires RowsServe(m, t, sizes, After(|t.outputs|, steps).pieces, true)
    requires Succeeded(After(|t.outputs|, steps), |sizes|)
    ensures Serves(t.outputs, After(|t.outputs|, steps).outputs, Run(m, InputMap(t.inputs), t.size, t.outputs))
    ensures DistinctStrings(t.outputs) ==> After(|t.outputs|, steps).finalStatus == OK
  {
    JoinedCount(|t.outputs|, steps);
    forall i | 0 <= i < |t.outputs| && FirstMention(t.outputs, i)
      ensures var s := After(|t.outputs|, steps);
        |s.outputs| == |t.outputs| && s.outputs[i] == RunOutput(m, InputMap(t.inputs), t.size, t.outputs[i])
    {
      OutputIsWhole(m, sig, t, sizes, steps, i);
    }
    if DistinctStrings(t.outputs) {
      DistinctJoinSucceeds(m, t, sizes, steps, true);
    }
  }

  lemma OutputIsWhole(m: Model, sig: Signature, t: TaskView, sizes: seq<nat>, steps: seq<Step>, i: nat)
    requires HasSignature(sig, t) && Sum(sizes) == t.size && sizes != [] && IsRun(|t.outputs|, steps)
    requires RowsServe(m, t, sizes, After(|t.outputs|, steps).pieces, true)
    requires Succeeded(After(|t.outputs|, steps), |sizes|) && i < |t.outputs| && FirstMention(t.outputs, i)
    ensures var s := After(|t.outputs|, steps);
      |s.outputs| == |t.outputs| && s.outputs[i] == RunOutput(m, InputMap(t.inputs), t.size, t.outputs[i])
  {
    var parts := JoinedFrom(m, t, sizes, steps, i, true);
    OwnPartsAre(sig, t, sizes, parts);
    PiecesJoinToWhole(m, sig, t, sizes, t.outputs[i]);
  }

  lemma DistinctJoinSucceeds(m: Model, t: TaskView, sizes: seq<nat>, steps: seq<Step>, even: bool)
    requires sizes != [] && IsRun(|t.outputs|, steps) && RowsServe(m, t, sizes, After(|t.outputs|, steps).pieces, even)
    requires Succeeded(After(|t.outputs|, steps), |sizes|) && DistinctStrings(t.outputs)
    ensures After(|t.outputs|, steps).finalStatus == OK
  {
    var s := After(|t.outputs|, steps);
    RunKeepsInv(|t.outputs|, steps);
    AllRowsComplete(|t.outputs|, steps);
    DistinctIffFirstMentions(t.outputs);
    var missing :| JoinedWith(s, missing);
    forall i | 0 <= i < |t.outputs| ensures Concat(OutputColumn(s.pieces, i, missing)).Success? {
      var parts := ColumnIsOutputs(m, t, sizes, s.pieces, i, even, missing);
      ConcatOfRanked(OutputColumn(s.pieces, i, missing));
    }
    FirstErrorIs(s.reports);
    JoinSucceeds(OK, s.pieces, |t.outputs|, missing);
  }

  /**
    Splitting is transparent: however the pieces of a task are distributed over batches that pad nothing,
    whatever tasks they meet there, and in whatever order they finish, if all of them report success then
    the caller gets exactly the outputs of one run on the whole task, in the order it asked for them, and,
    unless it asks for one twice, status OK.
   */
  lemma SplitRequestIsTransparent(m: Model, sig: Signature, t: TaskView, sizes: seq<nat>, steps: seq<Step>)
    requires HasSignature(sig, t) && Sum(sizes) == t.size && sizes != []
    requires IsRun(|t.outputs|, steps) && PushedByBatches(m, t, sizes, steps, true)
    requires Succeeded(After(|t.outputs|, steps), |sizes|)
    ensures var s, run := After(|t.outputs|, steps), Run(m, InputMap(t.inputs), t.size, t.outputs);
      && Serves(t.outputs, s.outputs, run)
      && (DistinctStrings(t.outputs) ==> s.outputs == run && s.finalStatus == OK)
  {
    RunKeepsRowsServe(m, t, sizes, steps, true);
    JoinIsTransparent(m, sig, t, sizes, steps);
    DistinctIffFirstMentions(t.outputs);
  }
}
