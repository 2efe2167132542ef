/** Tensors as rows along the batch dimension, and the library's concatenation and splitting of rows. */
module Tensors {
  import opened Common

  /** The position of an element within a row, one index per dimension after the zeroth. */
  type Coord = seq<nat>

  /** A row: the value at each coordinate. Element types play no part, so values are integers. */
  type Row = map<Coord, int>

  /** A zero-dimensional tensor, or rows that all have the shape `rowShape`. */
  datatype Tensor = Scalar(value: int) | Ranked(rowShape: seq<nat>, rows: seq<Row>)

  datatype NamedTensor = NamedTensor(name: string, tensor: Tensor)

  // ---------- Rows of several tensors in order ----------

  function AllRows(ts: seq<Tensor>): seq<Row> {
    if ts == [] then []
    else
      var last := ts[|ts| - 1];
      AllRows(ts[..|ts| - 1]) + if last.Ranked? then last.rows else []
  }

  function Sum(sizes: seq<nat>): nat {
    if sizes == [] then 0 else Sum(sizes[..|sizes| - 1]) + sizes[|sizes| - 1]
  }

  ghost predicate SameRowShape(ts: seq<Tensor>, rowShape: seq<nat>) {
    forall i :: 0 <= i < |ts| ==> ts[i].Ranked? && ts[i].rowShape == rowShape
  }

  /** The library's concatenation: refuses an empty list and zero-dimensional tensors, else joins the rows. */
  function Concat(ts: seq<Tensor>): Result<Tensor> {
    if ts == [] then Failure(Error(InvalidArgument, "Cannot concatenate zero tensors"))
    else if exists i :: 0 <= i < |ts| && ts[i].Scalar? then
      Failure(Error(InvalidArgument, "Cannot concatenate a zero-dimensional tensor"))
    else Success(Ranked(ts[0].rowShape, AllRows(ts)))
  }

  /** The consecutive segments of `rows` with the given sizes. */
  function Segments(rows: seq<Row>, sizes: seq<nat>): (r: seq<seq<Row>>)
    requires Sum(sizes) == |rows|
    ensures |r| == |sizes| && forall k :: 0 <= k < |r| ==> |r[k]| == sizes[k]
    decreases |sizes|
  {
    if sizes == [] then []
    else
      var n := |rows| - sizes[|sizes| - 1];
      Segments(rows[..n], sizes[..|sizes| - 1]) + [rows[n..]]
  }

  /** The library's split: refuses a zero-dimensional tensor and sizes that do not add up. */
  function Split(t: Tensor, sizes: seq<nat>): Result<seq<Tensor>> {
    if t.Scalar? then Failure(Error(InvalidArgument, "Cannot split a zero-dimensional tensor"))
    else if Sum(sizes) != |t.rows| then
      Failure(Error(InvalidArgument, "The values in 'sizes' do not sum to the zeroth-dimension size"))
    else
      var segments := Segments(t.rows, sizes);
      Success(seq(|sizes|, k requires 0 <= k < |sizes| => Ranked(t.rowShape, segments[k])))
  }

  function RowCounts(ts: seq<Tensor>): seq<nat> {
    seq(|ts|, i requires 0 <= i < |ts| => if ts[i].Ranked? then |ts[i].rows| else 0)
  }

  lemma {:induction false} AllRowsLength(ts: seq<Tensor>)
    ensures |AllRows(ts)| == Sum(RowCounts(ts))
  {
    if ts != [] {
      AllRowsLength(ts[..|ts| - 1]);
      assert RowCounts(ts)[..|ts| - 1] == RowCounts(ts[..|ts| - 1]);
    }
  }

  lemma AllRowsAppend(ts: seq<Tensor>, t: Tensor)
    ensures AllRows(ts + [t]) == AllRows(ts) + if t.Ranked? then t.rows else []
  {
    assert (ts + [t])[..|ts|] == ts;
  }

  /** Segmenting joined rows by the row counts gives the tensors' rows back. */
  lemma {:induction false} SegmentsOfAllRows(ts: seq<Tensor>, k: nat)
    requires k < |ts|
    ensures |AllRows(ts)| == Sum(RowCounts(ts))
    ensures Segments(AllRows(ts), RowCounts(ts))[k] == if ts[k].Ranked? then ts[k].rows else []
  {
    AllRowsLength(ts);
    AllRowsLength(ts[..|ts| - 1]);
    var init := ts[..|ts| - 1];
    assert RowCounts(ts)[..|ts| - 1] == RowCounts(init);
    assert AllRows(ts)[..|AllRows(init)|] == AllRows(init);
    if k < |init| {
      SegmentsOfAllRows(init, k);
    }
  }

  /** Splitting undoes concatenation. */
  lemma SplitOfConcat(ts: seq<Tensor>, rowShape: seq<nat>)
    requires ts != [] && SameRowShape(ts, rowShape)
    ensures Concat(ts).Success? && Split(Concat(ts).value, RowCounts(ts)) == Success(ts)
  {
    AllRowsLength(ts);
    var split := Split(Concat(ts).value, RowCounts(ts)).value;
    forall k | 0 <= k < |ts| ensures split[k] == ts[k] {
      SegmentsOfAllRows(ts, k);
    }
    assert split == ts;
  }

  lemma {:induction false} AllRowsOfSegments(t: Tensor, sizes: seq<nat>)
    requires t.Ranked? && Sum(sizes) == |t.rows|
    ensures AllRows(Split(t, sizes).value) == t.rows
    decreases |sizes|
  {
    if sizes != [] {
      var init, n := sizes[..|sizes| - 1], |t.rows| - sizes[|sizes| - 1];
      var head := Ranked(t.rowShape, t.rows[..n]);
      AllRowsOfSegments(head, init);
      var parts := Split(t, sizes).value;
      assert parts[..|parts| - 1] == Split(head, init).value;
    }
  }

  /** Concatenating undoes splitting. */
  lemma ConcatOfSplit(t: Tensor, sizes: seq<nat>)
    requires t.Ranked? && Sum(sizes) == |t.rows| && sizes != []
    ensures Split(t, sizes).Success? && Concat(Split(t, sizes).value) == Success(t)
  {
    AllRowsOfSegments(t, sizes);
  }

  // ---------- Row-wise models ----------

  type RowShapes = map<string, seq<nat>>

  /**
    A model that computes each output row from the input rows at the same position, and nothing else. The
    shape of the output rows may depend on the shapes of the input rows.
   */
  datatype Model = Model(outputShape: (string, RowShapes) -> seq<nat>, f: (string, map<string, Row>) -> Row)

  function ShapesOf(inputs: map<string, Tensor>): RowShapes {
    map name | name in inputs && inputs[name].Ranked? :: inputs[name].rowShape
  }

  /** The `i`-th row of every input. */
  function RowsAt(inputs: map<string, Tensor>, i: nat): map<string, Row> {
    map name | name in inputs && inputs[name].Ranked? && i < |inputs[name].rows| :: inputs[name].rows[i]
  }

  /** Every input has exactly `size` rows. */
  ghost predicate HasRows(inputs: map<string, Tensor>, size: nat) {
    forall name :: name in inputs ==> inputs[name].Ranked? && |inputs[name].rows| == size
  }

  function RunOutput(m: Model, inputs: map<string, Tensor>, size: nat, output: string): Tensor {
    var rows := seq(size, i requires 0 <= i < size => m.f(output, RowsAt(inputs, i)));
    Ranked(m.outputShape(output, ShapesOf(inputs)), rows)
  }

  function Run(m: Model, inputs: map<string, Tensor>, size: nat, outputs: seq<string>): seq<Tensor> {
    seq(|outputs|, k requires 0 <= k < |outputs| => RunOutput(m, inputs, size, outputs[k]))
  }

  /** `whole` has the rows of `first` followed by those of `second`. */
  ghost predicate Stacked(
    whole: map<string, Tensor>, first: map<string, Tensor>, a: nat, second: map<string, Tensor>, b: nat)
  {
    && whole.Keys == first.Keys == second.Keys && HasRows(whole, a + b) && HasRows(first, a) && HasRows(second, b)
    && forall name :: name in whole ==> whole[name].rows == first[name].rows + second[name].rows
  }

  /** A row-wise model respects stacking. */
  lemma RunStacked(
    m: Model, whole: map<string, Tensor>, first: map<string, Tensor>, a: nat, second: map<string, Tensor>, b: nat,
    output: string)
    requires Stacked(whole, first, a, second, b)
    ensures RunOutput(m, whole, a + b, output).rows
      == RunOutput(m, first, a, output).rows + RunOutput(m, second, b, output).rows
  {
    forall i: nat | i < a + b
      ensures RowsAt(whole, i) == if i < a then RowsAt(first, i) else RowsAt(second, i - a)
    {}
  }
}
