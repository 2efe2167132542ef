/** The sizes a batch may have: validation of the allowed sizes, rounding, and the size of an input list. */
module BatchSizes {
  import opened Common

  /** The first allowed size that is large enough; the size itself if there is none. */
  function RoundedSize(allowed: seq<int>, batchSize: int): (size: int)
    ensures size >= batchSize
  {
    if allowed == [] then batchSize
    else if allowed[0] >= batchSize then allowed[0]
    else RoundedSize(allowed[1..], batchSize)
  }

  method RoundToLowestAllowedBatchSize(allowed: seq<int>, batchSize: int) returns (size: int)
    ensures size == RoundedSize(allowed, batchSize)
  {
    if allowed == [] {
      return batchSize;
    }
    for i := 0 to |allowed|
      invariant RoundedSize(allowed, batchSize) == RoundedSize(allowed[i..], batchSize)
    {
      if allowed[i] >= batchSize {
        return allowed[i];
      }
    }
    return batchSize;
  }

  lemma {:induction false} RoundedSizeIsFirstFit(allowed: seq<int>, batchSize: int)
    ensures var r := RoundedSize(allowed, batchSize);
      if exists i :: 0 <= i < |allowed| && allowed[i] >= batchSize
      then exists i :: 0 <= i < |allowed| && allowed[i] == r && forall j :: 0 <= j < i ==> allowed[j] < batchSize
      else r == batchSize
  {
    if allowed != [] && allowed[0] < batchSize {
      RoundedSizeIsFirstFit(allowed[1..], batchSize);
      var r := RoundedSize(allowed, batchSize);
      if i :| 0 <= i < |allowed| && allowed[i] >= batchSize {
        assert allowed[1..][i - 1] >= batchSize;
        var rest := allowed[1..];
        var k :| 0 <= k < |rest| && rest[k] == r && forall j :: 0 <= j < k ==> rest[j] < batchSize;
        assert allowed[k + 1] == r;
        assert forall j :: 0 < j < k + 1 ==> allowed[j] == allowed[1..][j - 1];
      } else {
        assert forall i :: 0 <= i < |allowed[1..]| ==> allowed[1..][i] == allowed[i + 1];
      }
    }
  }

  /** What the documentation promises: the smallest allowed size that is large enough, if any is. */
  ghost predicate IsLeastFit(allowed: seq<int>, batchSize: int, size: int) {
    (exists a :: a in allowed && a >= batchSize) ==>
      size in allowed && size >= batchSize && forall a :: a in allowed && a >= batchSize ==> size <= a
  }

  ghost predicate MeetsDocumentation(allowed: seq<int>) {
    forall b :: IsLeastFit(allowed, b, RoundedSize(allowed, b))
  }

  /** An entry below an earlier one has itself occurred before that one. */
  ghost predicate DescentsRepeat(allowed: seq<int>) {
    forall i, j :: 0 <= i < j < |allowed| && allowed[j] < allowed[i] ==> allowed[j] in allowed[..i]
  }

  /**
    Rounding meets the documentation for every batch size exactly if no entry drops below an earlier
    one without repeating. Sizes that are not validated to be increasing need not meet it.
   */
  lemma LeastFitIff(allowed: seq<int>)
    ensures MeetsDocumentation(allowed) <==> DescentsRepeat(allowed)
  {
    if DescentsRepeat(allowed) {
      forall b ensures IsLeastFit(allowed, b, RoundedSize(allowed, b)) {
        FirstFitIsLeast(allowed, b);
      }
    }
    if MeetsDocumentation(allowed) {
      forall i, j | 0 <= i < j < |allowed| && allowed[j] < allowed[i] ensures allowed[j] in allowed[..i] {
        assert IsLeastFit(allowed, allowed[j], RoundedSize(allowed, allowed[j]));
        LeastFitRepeats(allowed, i, j);
      }
      assert DescentsRepeat(allowed);
    }
  }

  lemma LeastFitRepeats(allowed: seq<int>, i: nat, j: nat)
    requires i < j < |allowed| && allowed[j] < allowed[i]
    requires IsLeastFit(allowed, allowed[j], RoundedSize(allowed, allowed[j]))
    ensures allowed[j] in allowed[..i]
  {
    var b := allowed[j];
    RoundedSizeIsFirstFit(allowed, b);
    var k :| 0 <= k < |allowed| && allowed[k] == RoundedSize(allowed, b) && forall m :: 0 <= m < k ==> allowed[m] < b;
    assert b in allowed && allowed[k] == b;
    assert allowed[..i][k] == b;
  }

  lemma FirstFitIsLeast(allowed: seq<int>, b: int)
    requires DescentsRepeat(allowed)
    ensures IsLeastFit(allowed, b, RoundedSize(allowed, b))
  {
    RoundedSizeIsFirstFit(allowed, b);
    if a :| a in allowed && a >= b {
      var k :| 0 <= k < |allowed| && allowed[k] == RoundedSize(allowed, b) && forall m :: 0 <= m < k ==> allowed[m] < b;
      forall c | c in allowed && c >= b ensures allowed[k] <= c {
        var j :| 0 <= j < |allowed| && allowed[j] == c;
        assert c !in allowed[..k];
      }
    }
  }

  // ---------- Validation ----------

  ghost predicate Increasing(allowed: seq<int>) {
    forall i, j :: 0 <= i < j < |allowed| ==> allowed[i] < allowed[j]
  }

  /** The sizes must end in the maximum; only large-batch splitting also requires them to increase. */
  ghost predicate IsValidated(allowed: seq<int>, maxBatchSize: int, splitting: bool) {
    allowed == [] || (allowed[|allowed| - 1] == maxBatchSize && (splitting ==> Increasing(allowed)))
  }

  /**
    Without splitting, sizes that are validated can break the promise: a batch of three runs at eight
    although four is allowed.
   */
  lemma UnsortedSizesMissTheLeast()
    ensures IsValidated([8, 4, 16], 16, false) && !IsLeastFit([8, 4, 16], 3, RoundedSize([8, 4, 16], 3))
  {
    assert 4 in [8, 4, 16];
  }

  method AreIncreasing(allowed: seq<int>) returns (increasing: bool)
    ensures increasing <==> Increasing(allowed)
  {
    var lastSize := 0;
    for i := 0 to |allowed|
      invariant i > 0 ==> lastSize == allowed[i - 1]
      invariant forall j, k :: 0 <= j < k < i ==> allowed[j] < allowed[k]
    {
      if i > 0 && allowed[i] <= lastSize {
        assert allowed[i - 1] >= allowed[i];
        return false;
      }
      lastSize := allowed[i];
    }
    return true;
  }

  method ValidateAllowedBatchSizes(allowed: seq<int>, maxBatchSize: int, splitting: bool) returns (status: Status)
    ensures status == OK <==>
      || allowed == []
      || (allowed[|allowed| - 1] == maxBatchSize
          && (splitting ==> forall i, j :: 0 <= i < j < |allowed| ==> allowed[i] < allowed[j]))
    ensures status == OK <==> IsValidated(allowed, maxBatchSize, splitting)
    ensures status.Error? ==> status.code == InvalidArgument
  {
    if allowed != [] {
      if splitting {
        var maxAllowed := allowed[|allowed| - 1];
        var increasing := AreIncreasing(allowed);
        if !increasing {
          return Error(InvalidArgument, "allowed_batch_sizes entries must be monotonically increasing");
        }
        if maxAllowed > maxBatchSize {
          return Error(InvalidArgument, "Last entry must be less than or equal to max_batch_size");
        }
        if maxBatchSize != maxAllowed {
          return Error(InvalidArgument, "Last entry must be equal to max_execution_batch_size");
        }
      } else if allowed[|allowed| - 1] != maxBatchSize {
        return Error(InvalidArgument, "Last entry must match max_batch_size");
      }
    }
    return OK;
  }

  /** Under the splitting-mode validation every batch runs at the least allowed size, at most the maximum. */
  lemma ValidatedSizesAreLeast(allowed: seq<int>, maxBatchSize: int, batchSize: int)
    requires allowed != [] && IsValidated(allowed, maxBatchSize, true) && batchSize <= maxBatchSize
    ensures var r := RoundedSize(allowed, batchSize);
      r in allowed && batchSize <= r <= maxBatchSize && forall a :: a in allowed && a >= batchSize ==> r <= a
  {
    FirstFitIsLeast(allowed, batchSize);
    assert maxBatchSize in allowed;
  }

  // ---------- The size of an input list ----------

  /** The common zeroth dimension of the input shapes; refuses an empty list, a scalar, and unequal sizes. */
  method ComputeTensorBatchSize(shapes: seq<seq<nat>>) returns (r: Result<nat>)
    ensures r.Success? <==>
      && shapes != [] && shapes[0] != []
      && forall i :: 0 <= i < |shapes| ==> shapes[i] != [] && shapes[i][0] == shapes[0][0]
    ensures r.Success? ==> r.value == shapes[0][0]
    ensures r.Failure? ==> r.error.Error? && r.error.code == InvalidArgument
  {
    if shapes == [] {
      return Failure(Error(InvalidArgument, "must have at least one input tensor"));
    }
    var first, size := true, 0;
    for i := 0 to |shapes|
      invariant first <==> i == 0
      invariant forall j :: 0 <= j < i ==> shapes[j] != [] && shapes[j][0] == size
    {
      if |shapes[i]| == 0 {
        return Failure(Error(InvalidArgument, "input tensors must have at least one dimension"));
      }
      var thisSize := shapes[i][0];
      if first {
        size, first := thisSize, false;
      } else if thisSize != size {
        assert shapes[0][0] == size != shapes[i][0];
        return Failure(Error(InvalidArgument, "input tensors must have equal 0th-dimension size"));
      }
    }
    return Success(size);
  }
}
