/** Cutting an oversized task into pieces, and why running the pieces apart loses nothing. */
module InputSplitting {
  import opened Common
  import opened Tensors
  import opened Padding
  import opened Batching

  // ---------- Piece sizes ----------

  function Chunks(left: nat, maxBatchSize: nat): seq<nat>
    requires maxBatchSize > 0
  {
    if left == 0 then []
    else if left <= maxBatchSize then [left]
    else [maxBatchSize] + Chunks(left - maxBatchSize, maxBatchSize)
  }

  /** The rest of the open batch first, if there is any, then batches' worth. */
  function PieceSizes(size: nat, openSlot: nat, maxBatchSize: nat): seq<nat>
    requires maxBatchSize > 0 && size > openSlot
  {
    (if openSlot > 0 then [openSlot] else []) + Chunks(size - openSlot, maxBatchSize)
  }

  method ComputePieceSizes(size: nat, openSlot: nat, maxBatchSize: nat) returns (sizes: seq<nat>)
    requires maxBatchSize > 0 && size > openSlot
    ensures sizes == PieceSizes(size, openSlot, maxBatchSize)
  {
    sizes := [];
    if openSlot > 0 {
      sizes := sizes + [openSlot];
    }
    var left: int := size - openSlot;
    while left > 0
      invariant sizes + ChunksLeft(left, maxBatchSize) == PieceSizes(size, openSlot, maxBatchSize)
      decreases left
    {
      var next := if left < maxBatchSize then left else maxBatchSize;
      NextChunk(left, maxBatchSize);
      sizes := sizes + [next];
      left := left - maxBatchSize;
    }
  }

  function ChunksLeft(left: int, maxBatchSize: nat): seq<nat>
    requires maxBatchSize > 0
  {
    if left > 0 then Chunks(left, maxBatchSize) else []
  }

  lemma NextChunk(left: nat, maxBatchSize: nat)
    requires maxBatchSize > 0 && left > 0
    ensures ChunksLeft(left, maxBatchSize)
      == [if left < maxBatchSize then left else maxBatchSize] + ChunksLeft(left - maxBatchSize, maxBatchSize)
  {}

  lemma SumConcat(a: seq<nat>, b: seq<nat>)
    ensures Sum(a + b) == Sum(a) + Sum(b)
  {
    if b == [] {
      assert a + b == a;
    } else {
      SumConcat(a, b[..|b| - 1]);
      assert (a + b)[..|a + b| - 1] == a + b[..|b| - 1];
    }
  }

  lemma {:induction false} ChunksAreRight(left: nat, maxBatchSize: nat)
    requires maxBatchSize > 0
    ensures var chunks := Chunks(left, maxBatchSize);
      && Sum(chunks) == left
      && (forall i :: 0 <= i < |chunks| ==> 0 < chunks[i] <= maxBatchSize)
      && (forall i :: 0 <= i < |chunks| - 1 ==> chunks[i] == maxBatchSize)
  {
    if left > maxBatchSize {
      ChunksAreRight(left - maxBatchSize, maxBatchSize);
      SumConcat([maxBatchSize], Chunks(left - maxBatchSize, maxBatchSize));
      assert Sum([maxBatchSize]) == Sum([]) + maxBatchSize;
    } else if left > 0 {
      assert Sum([left]) == Sum([]) + left;
    }
  }

  lemma {:induction false} ChunkCount(left: nat, maxBatchSize: nat)
    requires maxBatchSize > 0 && left > 0
    ensures (|Chunks(left, maxBatchSize)| - 1) * maxBatchSize < left <= |Chunks(left, maxBatchSize)| * maxBatchSize
  {
    if left > maxBatchSize {
      var count := |Chunks(left - maxBatchSize, maxBatchSize)|;
      ChunkCount(left - maxBatchSize, maxBatchSize);
      assert (count + 1) * maxBatchSize == count * maxBatchSize + maxBatchSize;
      assert (count - 1) * maxBatchSize == count * maxBatchSize - maxBatchSize;
    }
  }

  /**
    The sizes add up to the task's, are positive and at most the maximum, and all pieces but the last fill a
    batch, or the open slot if that is positive and they are the first. There is one piece for the open slot,
    if it is positive, plus the rounded-up quotient of the rest.
   */
  lemma PieceSizesAreRight(size: nat, openSlot: nat, maxBatchSize: nat)
    requires maxBatchSize > 0 && openSlot < size && openSlot <= maxBatchSize
    ensures var sizes := PieceSizes(size, openSlot, maxBatchSize);
      && Sum(sizes) == size
      && (forall i :: 0 <= i < |sizes| ==> 0 < sizes[i] <= maxBatchSize)
      && (forall i :: 0 <= i < |sizes| - 1 ==>
            sizes[i] == if i == 0 && openSlot > 0 then openSlot else maxBatchSize)
      && (openSlot > 0 ==> sizes[0] == openSlot)
      && |sizes| == (if openSlot > 0 then 1 else 0) + (size - openSlot + maxBatchSize - 1) / maxBatchSize
  {
    PieceSizesSum(size, openSlot, maxBatchSize);
    ChunksAreRight(size - openSlot, maxBatchSize);
    CountChunks(size - openSlot, maxBatchSize);
    if openSlot == 0 {
      assert PieceSizes(size, openSlot, maxBatchSize) == Chunks(size - openSlot, maxBatchSize);
    }
  }

  lemma CountChunks(left: nat, maxBatchSize: nat)
    requires maxBatchSize > 0 && left > 0
    ensures |Chunks(left, maxBatchSize)| == (left + maxBatchSize - 1) / maxBatchSize
  {
    ChunkCount(left, maxBatchSize);
    CeilingIs(left, maxBatchSize, |Chunks(left, maxBatchSize)|);
  }

  lemma PieceSizesSum(size: nat, openSlot: nat, maxBatchSize: nat)
    requires maxBatchSize > 0 && openSlot < size
    ensures Sum(PieceSizes(size, openSlot, maxBatchSize)) == size && PieceSizes(size, openSlot, maxBatchSize) != []
  {
    var chunks := Chunks(size - openSlot, maxBatchSize);
    ChunksAreRight(size - openSlot, maxBatchSize);
    if openSlot > 0 {
      SumConcat([openSlot], chunks);
      assert Sum([openSlot]) == Sum([]) + openSlot;
    } else {
      assert PieceSizes(size, openSlot, maxBatchSize) == chunks;
    }
  }

  lemma CeilingIs(left: nat, m: nat, count: nat)
    requires m > 0 && left > 0 && (count - 1) * m < left <= count * m
    ensures (left + m - 1) / m == count
  {
    var q := (left + m - 1) / m;
    assert q * m <= left + m - 1 < q * m + m;
    OrderedMultiples(count - 1, q, m);
    OrderedMultiples(q - 1, count, m);
  }

  // ---------- Pieces ----------

  /** The `j`-th slice of every input. */
  function PieceInputs(inputs: seq<NamedTensor>, sizes: seq<nat>, j: nat): seq<NamedTensor> {
    seq(|inputs|, i requires 0 <= i < |inputs| =>
      NamedTensor(inputs[i].name, PieceOf(inputs[i].tensor, sizes, j)))
  }

  function PieceTask(t: TaskView, sizes: seq<nat>, j: nat): TaskView
    requires j < |sizes|
  {
    TaskView(sizes[j], PieceInputs(t.inputs, sizes, j), t.outputs)
  }

  function PieceMaps(t: TaskView, sizes: seq<nat>): seq<map<string, Tensor>> {
    seq(|sizes|, j requires 0 <= j < |sizes| => InputMap(PieceTask(t, sizes, j).inputs))
  }

  lemma PieceHasSignature(sig: Signature, t: TaskView, sizes: seq<nat>, j: nat)
    requires HasSignature(sig, t) && Sum(sizes) == t.size && j < |sizes|
    ensures HasSignature(sig, PieceTask(t, sizes, j))
  {
    var inputs := PieceInputs(t.inputs, sizes, j);
    forall i | 0 <= i < |inputs|
      ensures t.inputs[i] in t.inputs && inputs[i].tensor.Ranked?
      ensures |inputs[i].tensor.rows| == sizes[j] && WellFormed(inputs[i].tensor)
    {
      PieceIsWellFormed(t.inputs[i].tensor, sizes, j);
    }
    assert forall name :: name in NamesOf(inputs) <==> name in NamesOf(t.inputs) by {
      forall i | 0 <= i < |inputs| ensures t.inputs[i].name in NamesOf(inputs) && inputs[i].name in NamesOf(t.inputs) {
        assert inputs[i] in inputs && t.inputs[i] in t.inputs;
      }
    }
  }

  lemma {:induction false} SegmentsAreParts(rows: seq<Row>, sizes: seq<nat>, j: nat)
    requires Sum(sizes) == |rows| && j < |sizes|
    ensures forall r :: r in Segments(rows, sizes)[j] ==> r in rows
    decreases |sizes|
  {
    var n := |rows| - sizes[|sizes| - 1];
    if j < |sizes| - 1 {
      SegmentsAreParts(rows[..n], sizes[..|sizes| - 1], j);
    }
  }

  lemma PieceIsWellFormed(t: Tensor, sizes: seq<nat>, j: nat)
    requires t.Ranked? && WellFormed(t) && Sum(sizes) == |t.rows| && j < |sizes|
    ensures HasShape(PieceOf(t, sizes, j), t.rowShape) && |PieceOf(t, sizes, j).rows| == sizes[j]
  {
    SegmentsAreParts(t.rows, sizes, j);
    var p := PieceOf(t, sizes, j);
    forall i | 0 <= i < |p.rows| ensures p.rows[i].Keys == Coords(t.rowShape) {
      assert p.rows[i] in p.rows;
    }
  }

  lemma PieceInputIs(sig: Signature, t: TaskView, sizes: seq<nat>, j: nat, e: NamedTensor)
    requires HasSignature(sig, t) && Sum(sizes) == t.size && j < |sizes| && e in t.inputs
    ensures e.name in PieceMaps(t, sizes)[j] && PieceMaps(t, sizes)[j][e.name] == PieceOf(e.tensor, sizes, j)
  {
    var i :| 0 <= i < |t.inputs| && t.inputs[i] == e;
    PieceHasSignature(sig, t, sizes, j);
    InputMapIs(PieceTask(t, sizes, j).inputs);
    assert PieceTask(t, sizes, j).inputs[i] in PieceTask(t, sizes, j).inputs;
  }

  /** The pieces' inputs have the row shapes of the task's. */
  lemma PieceHasShapes(sig: Signature, t: TaskView, sizes: seq<nat>, j: nat)
    requires HasSignature(sig, t) && Sum(sizes) == t.size && j < |sizes|
    ensures ShapesOf(PieceMaps(t, sizes)[j]) == ShapesOf(InputMap(t.inputs))
  {
    var piece, whole := PieceMaps(t, sizes)[j], InputMap(t.inputs);
    InputMapIs(t.inputs);
    PiecesFit(sig, t, sizes);
    assert PartsFit(PieceMaps(t, sizes), sizes, SetOf(sig.inputs)) && piece.Keys == SetOf(sig.inputs);
    forall name | name in piece ensures SameShape(piece[name], whole[name]) {
      var e := NamedTensor(name, whole[name]);
      assert e in t.inputs;
      PieceInputIs(sig, t, sizes, j, e);
      PieceIsWellFormed(e.tensor, sizes, j);
    }
    ShapesAgree(piece, whole);
  }

  /** Stacking the pieces' inputs gives the task's inputs back. */
  lemma PiecesStackToWhole(sig: Signature, t: TaskView, sizes: seq<nat>, name: string)
    requires HasSignature(sig, t) && Sum(sizes) == t.size && name in InputMap(t.inputs)
    ensures InputMap(t.inputs)[name].Ranked?
    ensures AllRows(Column(PieceMaps(t, sizes), name)) == InputMap(t.inputs)[name].rows
  {
    InputMapIs(t.inputs);
    var e := NamedTensor(name, InputMap(t.inputs)[name]);
    assert e in t.inputs;
    var column := Column(PieceMaps(t, sizes), name);
    forall j | 0 <= j < |sizes| ensures column[j] == PieceOf(e.tensor, sizes, j) {
      PieceInputIs(sig, t, sizes, j, e);
    }
    assert column == Split(e.tensor, sizes).value;
    AllRowsOfSegments(e.tensor, sizes);
  }

  lemma PiecesFit(sig: Signature, t: TaskView, sizes: seq<nat>)
    requires HasSignature(sig, t) && Sum(sizes) == t.size
    ensures PartsFit(PieceMaps(t, sizes), sizes, SetOf(sig.inputs))
  {
    forall j | 0 <= j < |sizes|
      ensures PieceMaps(t, sizes)[j].Keys == SetOf(sig.inputs) && HasRows(PieceMaps(t, sizes)[j], sizes[j])
    {
      var piece := PieceTask(t, sizes, j);
      PieceHasSignature(sig, t, sizes, j);
      InputMapIs(piece.inputs);
    }
  }

  lemma PiecesStack(sig: Signature, t: TaskView, sizes: seq<nat>)
    requires HasSignature(sig, t) && Sum(sizes) == t.size
    ensures SameRows(StackAll(PieceMaps(t, sizes), SetOf(sig.inputs)), InputMap(t.inputs))
  {
    InputMapIs(t.inputs);
    forall name | name in SetOf(sig.inputs)
      ensures InputMap(t.inputs)[name].Ranked?
      ensures AllRows(Column(PieceMaps(t, sizes), name)) == InputMap(t.inputs)[name].rows
    {
      PiecesStackToWhole(sig, t, sizes, name);
    }
  }

  /** For a row-wise model, concatenating one output of all pieces gives that output of the whole task. */
  lemma PiecesJoinToWhole(m: Model, sig: Signature, t: TaskView, sizes: seq<nat>, output: string)
    requires HasSignature(sig, t) && Sum(sizes) == t.size && sizes != []
    ensures Concat(Outputs(m, PieceMaps(t, sizes), sizes, output))
         == Success(RunOutput(m, InputMap(t.inputs), t.size, output))
  {
    var parts, names := PieceMaps(t, sizes), SetOf(sig.inputs);
    PiecesFit(sig, t, sizes);
    PiecesStack(sig, t, sizes);
    RunDependsOnRows(m, StackAll(parts, names), InputMap(t.inputs), t.size, output);
    RunOfStack(m, parts, sizes, names, output);
    PieceHasShapes(sig, t, sizes, 0);
    ConcatOfRanked(Outputs(m, parts, sizes, output));
  }
}
