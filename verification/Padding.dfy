/** Padding of variable-length inputs: tensors of one name are brought to a common shape beyond the zeroth dimension. */
module Padding {
  import opened Common
  import opened Tensors

  /** All coordinates of a row of this shape. */
  function Coords(shape: seq<nat>): set<Coord> {
    if shape == [] then {[]} else set i: nat, c | 0 <= i < shape[0] && c in Coords(shape[1..]) :: [i] + c
  }

  predicate WellFormed(t: Tensor) {
    t.Ranked? ==> forall i :: 0 <= i < |t.rows| ==> t.rows[i].Keys == Coords(t.rowShape)
  }

  function Product(shape: seq<nat>): nat {
    if shape == [] then 1 else shape[0] * Product(shape[1..])
  }

  function Shape(t: Tensor): seq<nat> {
    if t.Scalar? then [] else [|t.rows|] + t.rowShape
  }

  function NumElements(t: Tensor): nat {
    Product(Shape(t))
  }

  function Origin(rank: nat): Coord {
    seq(rank, _ => 0)
  }

  // ---------- Coordinates and products ----------

  lemma {:induction false} CoordIff(shape: seq<nat>, c: Coord)
    ensures c in Coords(shape) <==> |c| == |shape| && forall d :: 0 <= d < |c| ==> c[d] < shape[d]
  {
    if shape != [] && c != [] {
      CoordIff(shape[1..], c[1..]);
      ConsCoord(shape, c);
      if |c| == |shape| {
        TailsBelow(shape, c);
      }
    }
  }

  lemma ConsCoord(shape: seq<nat>, c: Coord)
    requires shape != [] && c != []
    ensures c in Coords(shape) <==> c[0] < shape[0] && c[1..] in Coords(shape[1..])
  {
    assert c == [c[0]] + c[1..];
    if c in Coords(shape) {
      var i: nat, tail :| i < shape[0] && tail in Coords(shape[1..]) && c == [i] + tail;
      assert tail == c[1..];
    }
  }

  lemma TailsBelow(shape: seq<nat>, c: Coord)
    requires |c| == |shape| > 0
    ensures (forall d :: 0 <= d < |c| ==> c[d] < shape[d])
      <==> c[0] < shape[0] && forall d :: 0 <= d < |c[1..]| ==> c[1..][d] < shape[1..][d]
  {
    assert forall d :: 1 <= d < |c| ==> c[d] == c[1..][d - 1] && shape[d] == shape[1..][d - 1];
  }

  /** Equal element counts of a non-empty tensor and its enlargement mean equal shapes. */
  lemma {:induction false} SameCountSameShape(shape: seq<nat>, larger: seq<nat>)
    requires Within(shape, larger)
    ensures Product(shape) <= Product(larger)
    ensures Product(shape) > 0 && Product(shape) == Product(larger) ==> shape == larger
  {
    if shape != [] {
      SameCountSameShape(shape[1..], larger[1..]);
      GrowingProduct(shape[0], larger[0], Product(shape[1..]), Product(larger[1..]));
      assert shape == [shape[0]] + shape[1..] && larger == [larger[0]] + larger[1..];
    }
  }

  lemma GrowingProduct(a: nat, b: nat, p: nat, q: nat)
    requires a <= b && p <= q
    ensures a * p <= b * q
    ensures a * p > 0 && (a < b || p < q) ==> a * p < b * q
  {
    assert b * q == a * p + a * (q - p) + (b - a) * q;
  }

  lemma {:induction false} NonEmptyIff(shape: seq<nat>)
    ensures Product(shape) > 0 <==> Coords(shape) != {}
    ensures Product(shape) > 0 ==> Origin(|shape|) in Coords(shape)
  {
    CoordIff(shape, Origin(|shape|));
    if shape == [] {
      assert [] in Coords(shape);
    } else {
      NonEmptyIff(shape[1..]);
      if Product(shape) > 0 {
        assert shape[0] > 0 && Product(shape[1..]) > 0;
        CoordIff(shape[1..], Origin(|shape[1..]|));
        forall d | 0 <= d < |shape| ensures 0 < shape[d] {
          assert d > 0 ==> Origin(|shape[1..]|)[d - 1] < shape[1..][d - 1];
        }
      } else if Coords(shape) != {} {
        var c :| c in Coords(shape);
        var i: nat, tail :| i < shape[0] && tail in Coords(shape[1..]) && c == [i] + tail;
        GrowingProduct(1, shape[0], 1, Product(shape[1..]));
      }
    }
  }

  // ---------- The maximum sizes ----------

  /** The shape has no more dimensions than there are sizes, and each is at most its size. */
  ghost predicate UpTo(shape: seq<nat>, sizes: seq<nat>) {
    |shape| <= |sizes| && forall d :: 0 <= d < |shape| ==> shape[d] <= sizes[d]
  }

  ghost predicate Within(shape: seq<nat>, sizes: seq<nat>) {
    |shape| == |sizes| && UpTo(shape, sizes)
  }

  ghost predicate Bounds(entries: set<NamedTensor>, name: string, sizes: seq<nat>) {
    forall e :: e in entries && e.name == name ==> UpTo(Shape(e.tensor), sizes)
  }

  ghost predicate Attained(entries: set<NamedTensor>, name: string, d: nat, size: nat) {
    size == 0 || exists e :: e in entries && e.name == name && d < |Shape(e.tensor)| && Shape(e.tensor)[d] == size
  }

  /** `sizes` bounds the shapes of the entries called `name`, and each of them is needed for it. */
  ghost predicate IsMaximum(entries: set<NamedTensor>, name: string, sizes: seq<nat>) {
    Bounds(entries, name, sizes) && forall d :: 0 <= d < |sizes| ==> Attained(entries, name, d, sizes[d])
  }

  /** The maximum lies within every other bound. */
  lemma MaximumIsLeast(entries: set<NamedTensor>, name: string, sizes: seq<nat>, bound: seq<nat>)
    requires IsMaximum(entries, name, sizes) && |bound| == |sizes| && Bounds(entries, name, bound)
    ensures Within(sizes, bound)
  {
    forall d | 0 <= d < |sizes| ensures sizes[d] <= bound[d] {
      assert Attained(entries, name, d, sizes[d]);
    }
  }

  ghost function AllEntries(batch: seq<seq<NamedTensor>>): set<NamedTensor> {
    if batch == [] then {} else AllEntries(batch[..|batch| - 1]) + SetOf(batch[|batch| - 1])
  }

  ghost function NamesOf(task: seq<NamedTensor>): set<string> {
    set e | e in task :: e.name
  }

  /** The rank of the task's last tensor called `name`, zero if there is none. */
  function RankIn(task: seq<NamedTensor>, name: string): nat {
    if task == [] then 0
    else if task[|task| - 1].name == name then |Shape(task[|task| - 1].tensor)|
    else RankIn(task[..|task| - 1], name)
  }

  /** No tensor of the task has more dimensions than the first task has for its name. */
  ghost predicate RanksUpTo(task: seq<NamedTensor>, first: seq<NamedTensor>) {
    forall e :: e in task ==> |Shape(e.tensor)| <= RankIn(first, e.name)
  }

  ghost predicate RanksBounded(batch: seq<seq<NamedTensor>>) {
    batch != [] && forall task :: task in batch ==> RanksUpTo(task, batch[0])
  }

  /** The sizes kept for every name are as many as the first task's tensor has dimensions. */
  ghost predicate HasRanks(sizes: map<string, seq<nat>>, first: seq<NamedTensor>) {
    forall name :: |SizesOf(sizes, name)| == RankIn(first, name)
  }

  function SizesOf(sizes: map<string, seq<nat>>, name: string): seq<nat> {
    if name in sizes then sizes[name] else []
  }

  /** Every entry's name has sizes, and they are maxima. */
  ghost predicate AreMaxima(entries: set<NamedTensor>, sizes: map<string, seq<nat>>) {
    && (forall e :: e in entries ==> e.name in sizes)
    && forall name :: name in sizes ==> IsMaximum(entries, name, sizes[name])
  }

  ghost predicate IsRaised(sizes: seq<nat>, shape: seq<nat>, raised: seq<nat>) {
    |shape| <= |sizes| == |raised| &&
    forall d :: 0 <= d < |sizes| ==> raised[d] == if d < |shape| && shape[d] > sizes[d] then shape[d] else sizes[d]
  }

  lemma GrowMaximum(entries: set<NamedTensor>, e: NamedTensor, sizes: seq<nat>, grown: seq<nat>)
    requires IsMaximum(entries, e.name, sizes) && IsRaised(sizes, Shape(e.tensor), grown)
    ensures IsMaximum(entries + {e}, e.name, grown)
  {
    assert e in entries + {e};
    forall d | 0 <= d < |grown| ensures Attained(entries + {e}, e.name, d, grown[d]) {
      assert Attained(entries, e.name, d, sizes[d]);
    }
  }

  lemma OtherMaximumStays(entries: set<NamedTensor>, e: NamedTensor, name: string, sizes: seq<nat>)
    requires IsMaximum(entries, name, sizes) && name != e.name
    ensures IsMaximum(entries + {e}, name, sizes)
  {
    forall d | 0 <= d < |sizes| ensures Attained(entries + {e}, name, d, sizes[d]) {
      assert Attained(entries, name, d, sizes[d]);
    }
  }

  lemma GrowMaxima(entries: set<NamedTensor>, e: NamedTensor, sizes: map<string, seq<nat>>, grown: seq<nat>)
    requires AreMaxima(entries, sizes) && IsRaised(SizesOf(sizes, e.name), Shape(e.tensor), grown)
    ensures AreMaxima(entries + {e}, sizes[e.name := grown])
  {
    assert e.name !in sizes ==> IsMaximum(entries, e.name, []);
    GrowMaximum(entries, e, SizesOf(sizes, e.name), grown);
    forall name | name in sizes && name != e.name ensures IsMaximum(entries + {e}, name, sizes[name]) {
      OtherMaximumStays(entries, e, name, sizes[name]);
    }
  }

  lemma NextEntry(before: set<NamedTensor>, task: seq<NamedTensor>, k: nat)
    requires k < |task|
    ensures before + SetOf(task[..k + 1]) == before + SetOf(task[..k]) + {task[k]}
  {}

  /** One zero per dimension for each tensor of the first task. */
  method InitialDimSizes(task: seq<NamedTensor>) returns (sizes: map<string, seq<nat>>)
    ensures AreMaxima({}, sizes) && HasRanks(sizes, task)
  {
    sizes := map[];
    for k := 0 to |task|
      invariant forall name :: name in sizes ==> forall d :: 0 <= d < |sizes[name]| ==> sizes[name][d] == 0
      invariant HasRanks(sizes, task[..k])
    {
      assert task[..k + 1][..k] == task[..k];
      sizes := sizes[task[k].name := seq(|Shape(task[k].tensor)|, _ => 0)];
    }
    assert task[..|task|] == task;
  }

  method RaiseByTask(
    task: seq<NamedTensor>, sizes: map<string, seq<nat>>, ghost first: seq<NamedTensor>, ghost before: set<NamedTensor>)
    returns (raised: map<string, seq<nat>>)
    requires RanksUpTo(task, first) && HasRanks(sizes, first) && AreMaxima(before, sizes)
    ensures HasRanks(raised, first) && AreMaxima(before + SetOf(task), raised)
  {
    raised := sizes;
    assert before + SetOf(task[..0]) == before;
    for k := 0 to |task|
      invariant HasRanks(raised, first) && AreMaxima(before + SetOf(task[..k]), raised)
    {
      var e := task[k];
      assert e in task;
      var grown := RaiseTo(SizesOf(raised, e.name), Shape(e.tensor));
      GrowMaxima(before + SetOf(task[..k]), e, raised, grown);
      NextEntry(before, task, k);
      raised := raised[e.name := grown];
    }
    assert task[..|task|] == task;
  }

  /** For each name, the least sizes that bound all its tensors. */
  method CalculateMaxDimSizes(batch: seq<seq<NamedTensor>>) returns (maxDimSizes: map<string, seq<nat>>)
    requires RanksBounded(batch)
    ensures AreMaxima(AllEntries(batch), maxDimSizes) && HasRanks(maxDimSizes, batch[0])
  {
    maxDimSizes := InitialDimSizes(batch[0]);
    for i := 0 to |batch|
      invariant HasRanks(maxDimSizes, batch[0]) && AreMaxima(AllEntries(batch[..i]), maxDimSizes)
    {
      assert batch[i] in batch && batch[..i + 1][..i] == batch[..i];
      maxDimSizes := RaiseByTask(batch[i], maxDimSizes, batch[0], AllEntries(batch[..i]));
    }
    assert batch[..|batch|] == batch;
  }

  /** The innermost loop: raises each size that the shape exceeds. */
  method RaiseTo(sizes: seq<nat>, shape: seq<nat>) returns (raised: seq<nat>)
    requires |shape| <= |sizes|
    ensures IsRaised(sizes, shape, raised)
  {
    raised := sizes;
    for j := 0 to |shape|
      invariant IsRaised(sizes, shape[..j], raised)
    {
      var oldMaxSize := raised[j];
      if shape[j] > oldMaxSize {
        raised := raised[j := shape[j]];
      }
    }
    assert shape[..|shape|] == shape;
  }

  // ---------- Padding one tensor ----------

  datatype OneDimPadding = OneDimPadding(first: nat, second: nat)

  function Larger(a: nat, b: nat): nat {
    if a > b then a else b
  }

  function PaddedShape(rowShape: seq<nat>, maxDimSizes: seq<nat>): seq<nat>
    requires |maxDimSizes| == |rowShape| + 1
  {
    seq(|rowShape|, d requires 0 <= d < |rowShape| => Larger(rowShape[d], maxDimSizes[d + 1]))
  }

  /** The library's padding after the existing elements: old coordinates keep their values, new ones get `value`. */
  function PadRow(row: Row, shape: seq<nat>, value: int): Row {
    map c | c in Coords(shape) :: if c in row then row[c] else value
  }

  function PadRows(rows: seq<Row>, shape: seq<nat>, value: int): seq<Row> {
    seq(|rows|, i requires 0 <= i < |rows| => PadRow(rows[i], shape, value))
  }

  /** The tensor's first element in memory order. */
  function FirstElement(t: Tensor): int
    requires WellFormed(t) && NumElements(t) > 0
  {
    if t.Scalar? then t.value
    else
      FirstElementExists(t);
      t.rows[0][Origin(|t.rowShape|)]
  }

  lemma FirstElementExists(t: Tensor)
    requires t.Ranked? && WellFormed(t) && NumElements(t) > 0
    ensures |t.rows| > 0 && Origin(|t.rowShape|) in t.rows[0]
  {
    assert Shape(t)[1..] == t.rowShape;
    NonEmptyIff(t.rowShape);
  }

  /** Pads to `maxDimSizes` beyond the zeroth dimension; a dimension that is already larger stays. */
  function AddPadding(t: Tensor, maxDimSizes: seq<nat>): Result<Tensor>
    requires WellFormed(t) && |maxDimSizes| == |Shape(t)|
  {
    if !(1 <= |Shape(t)| <= 6) then Failure(Error(InvalidArgument, "Only tensors with rank from 1 to 6 can be padded."))
    else
      var shape := PaddedShape(t.rowShape, maxDimSizes);
      if Product([|t.rows|] + shape) == NumElements(t) then Success(Ranked(shape, t.rows))
      else if NumElements(t) < 1 then Failure(Error(InvalidArgument, "Got empty tensor in batch of non-empty tensors."))
      else Success(Ranked(shape, PadRows(t.rows, shape, FirstElement(t))))
  }

  /** Nothing in front, and behind it as much as is missing, if anything is. */
  ghost predicate RaisesTo(padding: OneDimPadding, size: nat, maxSize: nat) {
    padding.first == 0 && size + padding.second == if size > maxSize then size else maxSize
  }

  method CreatePadding(t: Tensor, maxDimSizes: seq<nat>) returns (padding: seq<OneDimPadding>)
    requires t.Ranked? && |maxDimSizes| == |Shape(t)|
    ensures |padding| == |maxDimSizes| && padding[0] == OneDimPadding(0, 0)
    ensures forall d :: 0 < d < |padding| ==> RaisesTo(padding[d], Shape(t)[d], maxDimSizes[d])
  {
    padding := [];
    for i := 0 to |maxDimSizes|
      invariant |padding| == i && (i > 0 ==> padding[0] == OneDimPadding(0, 0))
      invariant forall d :: 0 < d < i ==> RaisesTo(padding[d], Shape(t)[d], maxDimSizes[d])
    {
      if i > 0 && maxDimSizes[i] > Shape(t)[i] {
        padding := padding + [OneDimPadding(0, maxDimSizes[i] - Shape(t)[i])];
      } else {
        padding := padding + [OneDimPadding(0, 0)];
      }
    }
  }

  method PaddedOutputShape(t: Tensor, maxDimSizes: seq<nat>) returns (outputShape: seq<nat>)
    requires t.Ranked? && |maxDimSizes| == |Shape(t)|
    ensures outputShape == [|t.rows|] + PaddedShape(t.rowShape, maxDimSizes)
  {
    var padding := CreatePadding(t, maxDimSizes);
    outputShape := [];
    for d := 0 to |padding|
      invariant |outputShape| == d && forall k :: 0 <= k < d ==> outputShape[k] == PaddedSize(t, maxDimSizes, k)
    {
      var size := padding[d].first + Shape(t)[d] + padding[d].second;
      assert size == PaddedSize(t, maxDimSizes, d);
      outputShape := outputShape + [size];
    }
    PaddedSizesAre(t, maxDimSizes, outputShape);
  }

  /** The size of dimension `d` after padding. */
  function PaddedSize(t: Tensor, maxDimSizes: seq<nat>, d: nat): nat
    requires |maxDimSizes| == |Shape(t)| && d < |maxDimSizes|
  {
    if d == 0 then Shape(t)[0] else Larger(Shape(t)[d], maxDimSizes[d])
  }

  lemma PaddedSizesAre(t: Tensor, maxDimSizes: seq<nat>, shape: seq<nat>)
    requires t.Ranked? && |maxDimSizes| == |Shape(t)| == |shape|
    requires forall k :: 0 <= k < |shape| ==> shape[k] == PaddedSize(t, maxDimSizes, k)
    ensures shape == [|t.rows|] + PaddedShape(t.rowShape, maxDimSizes)
  {
    var padded := [|t.rows|] + PaddedShape(t.rowShape, maxDimSizes);
    forall k | 0 <= k < |shape| ensures shape[k] == padded[k] {
      if k > 0 {
        assert padded[k] == PaddedShape(t.rowShape, maxDimSizes)[k - 1];
      }
    }
  }

  method PadTensor(t: Tensor, maxDimSizes: seq<nat>) returns (r: Result<Tensor>)
    requires WellFormed(t) && |maxDimSizes| == |Shape(t)|
    ensures r == AddPadding(t, maxDimSizes)
    ensures !(1 <= |Shape(t)| <= 6) ==> r.Failure?
    ensures r.Failure? ==> r.error.Error? && r.error.code == InvalidArgument
  {
    if !(1 <= |Shape(t)| <= 6) {
      return Failure(Error(InvalidArgument, "Only tensors with rank from 1 to 6 can be padded."));
    }
    var outputShape := PaddedOutputShape(t, maxDimSizes);
    assert outputShape[1..] == PaddedShape(t.rowShape, maxDimSizes);
    if Product(outputShape) == NumElements(t) {
      return Success(Ranked(outputShape[1..], t.rows));
    }
    if NumElements(t) < 1 {
      return Failure(Error(InvalidArgument, "Got empty tensor in batch of non-empty tensors."));
    }
    return Success(Ranked(outputShape[1..], PadRows(t.rows, outputShape[1..], FirstElement(t))));
  }

  method AreShapesEqualExceptZeroDim(shape1: seq<nat>, shape2: seq<nat>) returns (equal: bool)
    ensures equal <==> EqualExceptZeroDim(shape1, shape2)
  {
    if |shape1| != |shape2| {
      return false;
    }
    var i := 1;
    while i < |shape1|
      invariant forall d :: 1 <= d < i && d < |shape1| ==> shape1[d] == shape2[d]
    {
      if shape1[i] != shape2[i] {
        return false;
      }
      i := i + 1;
    }
    return true;
  }

  predicate EqualExceptZeroDim(shape1: seq<nat>, shape2: seq<nat>) {
    |shape1| == |shape2| && forall d :: 1 <= d < |shape1| ==> shape1[d] == shape2[d]
  }

  // ---------- What padding achieves ----------

  /** `c` indexes an element of the row. */
  lemma PaddedCoords(shape: seq<nat>, larger: seq<nat>)
    requires Within(shape, larger)
    ensures Coords(shape) <= Coords(larger)
  {
    forall c | c in Coords(shape) ensures c in Coords(larger) {
      CoordIff(shape, c);
      CoordIff(larger, c);
    }
  }

  /** Same element count on both sides: either nothing changes, or both sides are empty. */
  lemma SameCount(t: Tensor, shape: seq<nat>)
    requires t.Ranked? && WellFormed(t) && Within(t.rowShape, shape) && Product([|t.rows|] + shape) == NumElements(t)
    ensures WellFormed(Ranked(shape, t.rows))
    ensures NumElements(t) > 0 ==> shape == t.rowShape
  {
    assert Shape(t)[1..] == t.rowShape && ([|t.rows|] + shape)[1..] == shape;
    if |t.rows| > 0 {
      SameCountSameShape(t.rowShape, shape);
      NonEmptyIff(t.rowShape);
      NonEmptyIff(shape);
      GrowingProduct(|t.rows|, |t.rows|, Product(t.rowShape), Product(shape));
    }
  }

  /**
    Padding is exact: it fails only for a tensor without elements that would have to gain some. Else every
    dimension but the zeroth becomes the larger of its own and the maximum size, every original coordinate
    keeps its value, and every new one holds the value at the first row's first coordinate.
   */
  lemma PaddingIsExact(t: Tensor, maxDimSizes: seq<nat>)
    requires t.Ranked? && |t.rowShape| < 6 && WellFormed(t) && |maxDimSizes| == |Shape(t)|
    ensures var shape, r := PaddedShape(t.rowShape, maxDimSizes), AddPadding(t, maxDimSizes);
      && (r.Failure? <==> NumElements(t) == 0 && Product([|t.rows|] + shape) > 0)
      && (r.Success? ==>
        WellFormed(r.value) && r.value.Ranked? && r.value.rowShape == shape && |r.value.rows| == |t.rows|)
      && (r.Success? ==> RowsArePadded(t, shape, r.value.rows))
      && Coords(t.rowShape) <= Coords(shape)
    ensures forall d :: 0 <= d < |t.rowShape| ==>
      PaddedShape(t.rowShape, maxDimSizes)[d]
        == if t.rowShape[d] > maxDimSizes[d + 1] then t.rowShape[d] else maxDimSizes[d + 1]
  {
    var shape := PaddedShape(t.rowShape, maxDimSizes);
    PaddedCoords(t.rowShape, shape);
    if Product([|t.rows|] + shape) == NumElements(t) {
      SameCount(t, shape);
      WellFormedRowsArePadded(t, shape);
    } else if NumElements(t) > 0 {
      PaddedRowsAre(t, shape);
    }
  }

  lemma WellFormedRowsArePadded(t: Tensor, shape: seq<nat>)
    requires t.Ranked? && WellFormed(Ranked(shape, t.rows))
    ensures RowsArePadded(t, shape, t.rows)
  {}

  lemma PaddedRowsAre(t: Tensor, shape: seq<nat>)
    requires t.Ranked? && WellFormed(t) && NumElements(t) > 0
    ensures RowsArePadded(t, shape, PadRows(t.rows, shape, FirstElement(t)))
    ensures WellFormed(Ranked(shape, PadRows(t.rows, shape, FirstElement(t))))
  {
    FirstElementExists(t);
  }

  /** On the shape's coordinates, the padded row keeps what the row has, and else holds the tensor's first element. */
  ghost predicate IsPaddedRow(t: Tensor, row: Row, shape: seq<nat>, padded: Row)
    requires t.Ranked? && |t.rows| > 0
  {
    forall c :: c in Coords(shape) ==>
      && c in padded
      && (c in row ==> padded[c] == row[c])
      && (c !in row ==> HoldsAt(t.rows[0], seq(|t.rowShape|, _ => 0), padded[c]))
  }

  ghost predicate RowsArePadded(t: Tensor, shape: seq<nat>, rows: seq<Row>)
    requires t.Ranked?
  {
    |rows| == |t.rows| && forall i :: 0 <= i < |rows| ==> IsPaddedRow(t, t.rows[i], shape, rows[i])
  }

  /** The row has this value at this coordinate. */
  ghost predicate HoldsAt(row: Row, c: Coord, value: int) {
    c in row && row[c] == value
  }

  /** A tensor that already has the maximum sizes is left alone. */
  lemma PaddingIsIdentity(t: Tensor, maxDimSizes: seq<nat>)
    requires t.Ranked? && |t.rowShape| < 6 && WellFormed(t) && |maxDimSizes| == |Shape(t)|
    requires Within(maxDimSizes[1..], t.rowShape)
    ensures AddPadding(t, maxDimSizes) == Success(t)
  {
    assert PaddedShape(t.rowShape, maxDimSizes) == t.rowShape;
  }

  /**
    Padding equalizes: padded to the computed maxima, the non-empty tensors of one name agree in every
    dimension but the zeroth, and any shape that holds them all holds the common one.
   */
  lemma PaddingEqualizes(entries: set<NamedTensor>, name: string, sizes: seq<nat>, e: NamedTensor, f: NamedTensor)
    requires IsMaximum(entries, name, sizes) && 1 <= |sizes| <= 6
    requires NonEmptyEntry(entries, name, e) && IsRanked(e, sizes)
    requires NonEmptyEntry(entries, name, f) && IsRanked(f, sizes)
    ensures var p, q := AddPadding(e.tensor, sizes), AddPadding(f.tensor, sizes);
      && p.Success? && q.Success? && Shape(p.value) != [] && Shape(q.value) != []
      && EqualExceptZeroDim(Shape(p.value), Shape(q.value))
      && Shape(p.value)[1..] == sizes[1..]
    ensures forall bound :: |bound| == |sizes| && Bounds(entries, name, bound) ==> Within(sizes, bound)
  {
    PadsToMaximum(entries, name, sizes, e);
    PadsToMaximum(entries, name, sizes, f);
    forall bound | |bound| == |sizes| && Bounds(entries, name, bound) ensures Within(sizes, bound) {
      MaximumIsLeast(entries, name, sizes, bound);
    }
    TailsAgree(Shape(AddPadding(e.tensor, sizes).value), Shape(AddPadding(f.tensor, sizes).value));
  }

  ghost predicate NonEmptyEntry(entries: set<NamedTensor>, name: string, e: NamedTensor) {
    e in entries && e.name == name && WellFormed(e.tensor) && NumElements(e.tensor) > 0
  }

  /** The entry has as many dimensions as there are sizes. */
  ghost predicate IsRanked(e: NamedTensor, sizes: seq<nat>) {
    |Shape(e.tensor)| == |sizes|
  }

  lemma TailsAgree(shape1: seq<nat>, shape2: seq<nat>)
    requires shape1 != [] && shape2 != []
    ensures EqualExceptZeroDim(shape1, shape2) <==> shape1[1..] == shape2[1..]
  {
    if EqualExceptZeroDim(shape1, shape2) {
      assert shape1[1..] == shape2[1..];
    } else if |shape1| == |shape2| {
      var d :| 1 <= d < |shape1| && shape1[d] != shape2[d];
      assert shape1[1..][d - 1] != shape2[1..][d - 1];
    }
  }

  lemma PadsToMaximum(entries: set<NamedTensor>, name: string, sizes: seq<nat>, e: NamedTensor)
    requires IsMaximum(entries, name, sizes) && 1 <= |sizes| <= 6
    requires NonEmptyEntry(entries, name, e) && IsRanked(e, sizes)
    ensures AddPadding(e.tensor, sizes).Success? && Shape(AddPadding(e.tensor, sizes).value) != []
    ensures Shape(AddPadding(e.tensor, sizes).value)[1..] == sizes[1..]
  {
    PaddingIsExact(e.tensor, sizes);
    PaddedShapeIsMaximum(e.tensor, sizes);
    assert Shape(AddPadding(e.tensor, sizes).value)[1..] == PaddedShape(e.tensor.rowShape, sizes);
  }

  lemma PaddedShapeIsMaximum(t: Tensor, sizes: seq<nat>)
    requires t.Ranked? && Within(Shape(t), sizes)
    ensures PaddedShape(t.rowShape, sizes) == sizes[1..]
  {
    forall d | 0 <= d < |t.rowShape| ensures PaddedShape(t.rowShape, sizes)[d] == sizes[d + 1] {
      assert Shape(t)[d + 1] == t.rowShape[d];
    }
  }

  /** Where all tensors of a name already agree beyond the zeroth dimension, padding changes none of them. */
  lemma EqualShapesNeedNoPadding(entries: set<NamedTensor>, name: string, sizes: seq<nat>, e: NamedTensor)
    requires IsMaximum(entries, name, sizes) && e in entries && e.name == name && IsRanked(e, sizes)
    requires e.tensor.Ranked? && |e.tensor.rowShape| < 6 && WellFormed(e.tensor)
    requires forall f :: f in entries && f.name == name ==> f.tensor.Ranked? && f.tensor.rowShape == e.tensor.rowShape
    ensures AddPadding(e.tensor, sizes) == Success(e.tensor)
  {
    assert Within(Shape(e.tensor), sizes);
    forall d | 0 <= d < |sizes| - 1 ensures sizes[1..][d] <= e.tensor.rowShape[d] {
      assert Attained(entries, name, d + 1, sizes[d + 1]);
    }
    PaddingIsIdentity(e.tensor, sizes);
  }
}
