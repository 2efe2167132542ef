/** The tasks of a batch, where their results go, and how the destinations look as the tasks are served one by one. */
module BatchTasks {
  import opened Common
  import opened Tensors
  import opened Batching
  import opened SplitJoin
  import opened SplitRequests

  // ---------- Destinations ----------

  /** A whole task answers its caller; a piece answers the request that it was cut from. */
  datatype Destination = Whole(call: RunCall) | Partial(request: SplitRequest, index: nat)

  datatype BatchingSessionTask =
    BatchingSessionTask(view: TaskView, enqueueTime: nat, timeoutMillis: int, destination: Destination)

  /** What can be seen of a destination. */
  datatype Snapshot = OfCall(outputs: seq<Tensor>, status: Status, notifications: nat) | OfRequest(state: State)

  /** The object that the destination belongs to; pieces of one task share it. */
  ghost function Key(d: Destination): object {
    match d
    case Whole(call) => call
    case Partial(request, _) => request
  }

  ghost function Objects(d: Destination): set<object> {
    match d
    case Whole(call) => {call}
    case Partial(request, _) => request.Footprint()
  }

  ghost function Observe(d: Destination): Snapshot
    reads Objects(d)
  {
    match d
    case Whole(call) => OfCall(call.outputs, call.status, call.notifications)
    case Partial(request, _) => OfRequest(request.View())
  }

  /** A piece's request is in a state of its protocol. */
  ghost predicate Live(d: Destination)
    reads Objects(d)
  {
    d.Partial? ==> d.request.Valid()
  }

  ghost predicate ShowsAt(d: Destination, s: Snapshot)
    reads Objects(d)
  {
    Live(d) && Observe(d) == s
  }

  // ---------- What happens to a destination ----------

  /** The destination has not been told the status of its task, and has `row` in the place of the task. */
  ghost predicate Awaits(d: Destination, s: Snapshot, numOutputs: nat, row: seq<Tensor>) {
    match d
    case Whole(_) => s.OfCall?
    case Partial(_, j) =>
      && s.OfRequest? && s.state.numOutputs == numOutputs
      && j < |s.state.pieces| && s.state.pieces[j] == Piece(Waiting, row)
  }

  /** The outputs arrive: in the caller's list, or in the piece's row. */
  function WithRow(d: Destination, s: Snapshot, row: seq<Tensor>): Snapshot {
    match s
    case OfCall(outputs, _, _) => s.(outputs := outputs + row)
    case OfRequest(state) =>
      if d.Partial? && d.index < |state.pieces| then
        var piece := state.pieces[d.index];
        OfRequest(state.(pieces := state.pieces[d.index := piece.(row := piece.row + row)]))
      else s
  }

  /** The status arrives: a caller is notified; a piece reports and calls back, which may finish the request. */
  function Finished(d: Destination, s: Snapshot, status: Status): Snapshot {
    match s
    case OfCall(_, _, notifications) => s.(status := status, notifications := notifications + 1)
    case OfRequest(state) =>
      if d.Partial? && d.index < |state.pieces|
      then OfRequest(Released(CallBack(ReportStatus(state, d.index, status), d.index), d.request.missing))
      else s
  }

  /** The destination may be told the status: a piece reports success only with all of its outputs. */
  ghost predicate CanFinish(d: Destination, s: Snapshot, status: Status) {
    match d
    case Whole(_) => s.OfCall?
    case Partial(_, j) => s.OfRequest? && Enabled(s.state, ReportStep(j, status))
  }

  lemma WithRowsAppend(d: Destination, s: Snapshot, row: seq<Tensor>, tensor: Tensor)
    ensures WithRow(d, s, []) == s
    ensures WithRow(d, WithRow(d, s, row), [tensor]) == WithRow(d, s, row + [tensor])
  {
    if s.OfRequest? && d.Partial? && d.index < |s.state.pieces| {
      var pieces, j := s.state.pieces, d.index;
      assert pieces[j].row + [] == pieces[j].row;
      assert pieces[j := pieces[j]] == pieces;
      assert pieces[j].row + row + [tensor] == pieces[j].row + (row + [tensor]);
    } else if s.OfCall? {
      assert s.outputs + row + [tensor] == s.outputs + (row + [tensor]);
    }
  }

  // ---------- The tasks of a batch ----------

  /** Two tasks either share nothing, or are different pieces of one request. */
  ghost predicate Compatible(d: Destination, e: Destination) {
    if Key(d) == Key(e) then d.Partial? && e.Partial? && d.index != e.index else Objects(d) !! Objects(e)
  }

  ghost predicate Apart(batch: seq<BatchingSessionTask>) {
    forall h, k :: 0 <= h < |batch| && 0 <= k < |batch| && h != k ==>
      Compatible(batch[h].destination, batch[k].destination)
  }

  function Views(batch: seq<BatchingSessionTask>): seq<TaskView> {
    seq(|batch|, k requires 0 <= k < |batch| => batch[k].view)
  }

  ghost function AllObjects(batch: seq<BatchingSessionTask>): set<object> {
    set k, x | 0 <= k < |batch| && x in Objects(batch[k].destination) :: x
  }

  ghost predicate Shows(batch: seq<BatchingSessionTask>, snapshots: seq<Snapshot>)
    reads AllObjects(batch)
  {
    |snapshots| == |batch| && forall k :: 0 <= k < |batch| ==> ShowsAt(batch[k].destination, snapshots[k])
  }

  ghost function Snapshots(batch: seq<BatchingSessionTask>): seq<Snapshot>
    reads AllObjects(batch)
  {
    seq(|batch|, k requires 0 <= k < |batch| reads AllObjects(batch) => Observe(batch[k].destination))
  }

  /** Every task awaits its outputs. */
  ghost predicate Pending(batch: seq<BatchingSessionTask>)
    reads AllObjects(batch)
  {
    forall k :: 0 <= k < |batch| ==>
      var d := batch[k].destination;
      Live(d) && Awaits(d, Observe(d), |batch[k].view.outputs|, [])
  }

  ghost predicate SameKey(batch: seq<BatchingSessionTask>, h: nat, k: nat)
    requires h < |batch| && k < |batch|
  {
    Key(batch[h].destination) == Key(batch[k].destination)
  }

  /** Tasks that share an object see the same of it. */
  ghost predicate KeysAgree(batch: seq<BatchingSessionTask>, snapshots: seq<Snapshot>) {
    |snapshots| == |batch| &&
    forall h, k :: 0 <= h < |batch| && 0 <= k < |batch| && SameKey(batch, h, k) ==> snapshots[h] == snapshots[k]
  }

  lemma SameKeyShows(d: Destination, e: Destination, s: Snapshot)
    requires Key(d) == Key(e) && (d.Partial? <==> e.Partial?) && ShowsAt(d, s)
    ensures ShowsAt(e, s)
  {}

  lemma ShownKeysAgree(batch: seq<BatchingSessionTask>, snapshots: seq<Snapshot>)
    requires Apart(batch) && Shows(batch, snapshots)
    ensures KeysAgree(batch, snapshots)
  {
    forall h, k | 0 <= h < |batch| && 0 <= k < |batch| && SameKey(batch, h, k) ensures snapshots[h] == snapshots[k] {
      assert ShowsAt(batch[h].destination, snapshots[h]) && ShowsAt(batch[k].destination, snapshots[k]);
      if h != k {
        assert Compatible(batch[h].destination, batch[k].destination);
        SameKeyShows(batch[h].destination, batch[k].destination, snapshots[h]);
      }
    }
  }

  // ---------- Serving the tasks in order ----------

  /** After something has happened to the object of task `k`: all tasks that share it see `s`. */
  ghost function Changed(batch: seq<BatchingSessionTask>, snapshots: seq<Snapshot>, k: nat, s: Snapshot): seq<Snapshot>
    requires k < |batch| == |snapshots|
  {
    seq(|batch|, h requires 0 <= h < |batch| => if SameKey(batch, h, k) then s else snapshots[h])
  }

  /** After the first `n` tasks have been given their rows. */
  ghost function Pushed(batch: seq<BatchingSessionTask>, before: seq<Snapshot>, rows: seq<seq<Tensor>>, n: nat)
    : (after: seq<Snapshot>)
    requires n <= |batch| == |before| == |rows|
    ensures |after| == |batch|
  {
    if n == 0 then before
    else
      var earlier := Pushed(batch, before, rows, n - 1);
      Changed(batch, earlier, n - 1, WithRow(batch[n - 1].destination, earlier[n - 1], rows[n - 1]))
  }

  /** After the first `n` tasks have been told the status. */
  ghost function Told(batch: seq<BatchingSessionTask>, before: seq<Snapshot>, status: Status, n: nat)
    : (after: seq<Snapshot>)
    requires n <= |batch| == |before|
    ensures |after| == |batch|
  {
    if n == 0 then before
    else
      var earlier := Told(batch, before, status, n - 1);
      Changed(batch, earlier, n - 1, Finished(batch[n - 1].destination, earlier[n - 1], status))
  }

  lemma ChangedKeysAgree(batch: seq<BatchingSessionTask>, snapshots: seq<Snapshot>, k: nat, s: Snapshot)
    requires k < |batch| && KeysAgree(batch, snapshots)
    ensures KeysAgree(batch, Changed(batch, snapshots, k, s))
  {}

  /** The snapshot is of the destination's kind and has the piece. */
  ghost predicate HasPiece(d: Destination, s: Snapshot, numOutputs: nat, p: Piece) {
    d.Partial? && s.OfRequest? && s.state.numOutputs == numOutputs &&
    d.index < |s.state.pieces| && s.state.pieces[d.index] == p
  }

  lemma OtherPieceStays(
    d: Destination, e: Destination, s: Snapshot, row: seq<Tensor>, status: Status, numOutputs: nat, p: Piece)
    requires d.Partial? && e.Partial? && d.index != e.index && HasPiece(e, s, numOutputs, p)
    ensures HasPiece(e, WithRow(d, s, row), numOutputs, p) && HasPiece(e, Finished(d, s, status), numOutputs, p)
  {}

  lemma OwnPieceMoves(d: Destination, s: Snapshot, row: seq<Tensor>, status: Status, numOutputs: nat, p: Piece)
    requires HasPiece(d, s, numOutputs, p)
    ensures HasPiece(d, WithRow(d, s, row), numOutputs, p.(row := p.row + row))
    ensures HasPiece(d, Finished(d, s, status), numOutputs, p.(progress := Called))
  {}

  /** Where task `k` is a piece: its row is filled at its turn, and nobody else's turn touches it. */
  lemma {:induction false} PushedPiece(
    batch: seq<BatchingSessionTask>, before: seq<Snapshot>, rows: seq<seq<Tensor>>, n: nat, k: nat, numOutputs: nat)
    requires n <= |batch| == |before| == |rows| && k < |batch| && Apart(batch) && KeysAgree(batch, before)
    requires HasPiece(batch[k].destination, before[k], numOutputs, Piece(Waiting, []))
    ensures KeysAgree(batch, Pushed(batch, before, rows, n))
    ensures HasPiece(batch[k].destination, Pushed(batch, before, rows, n)[k], numOutputs,
      Piece(Waiting, if k < n then rows[k] else []))
  {
    if n > 0 {
      var m, d := n - 1, batch[k].destination;
      var earlier, p := Pushed(batch, before, rows, m), Piece(Waiting, if k < m then rows[k] else []);
      PushedPiece(batch, before, rows, m, k, numOutputs);
      ChangedKeysAgree(batch, earlier, m, WithRow(batch[m].destination, earlier[m], rows[m]));
      if m == k {
        OwnPieceMoves(d, earlier[k], rows[k], OK, numOutputs, p);
        assert [] + rows[k] == rows[k];
      } else if SameKey(batch, k, m) {
        assert Compatible(batch[m].destination, d);
        OtherPieceStays(batch[m].destination, d, earlier[k], rows[m], OK, numOutputs, p);
      }
    }
  }

  /** Where task `k` is whole: its caller gets the row at its turn, and nobody else's turn touches it. */
  lemma {:induction false} PushedCall(
    batch: seq<BatchingSessionTask>, before: seq<Snapshot>, rows: seq<seq<Tensor>>, n: nat, k: nat)
    requires n <= |batch| == |before| == |rows| && k < |batch| && Apart(batch) && batch[k].destination.Whole?
    ensures Pushed(batch, before, rows, n)[k]
         == if k < n then WithRow(batch[k].destination, before[k], rows[k]) else before[k]
  {
    if n > 0 {
      PushedCall(batch, before, rows, n - 1, k);
      if n - 1 != k {
        assert Compatible(batch[k].destination, batch[n - 1].destination);
      }
    }
  }

  lemma {:induction false} ToldPiece(
    batch: seq<BatchingSessionTask>, before: seq<Snapshot>, status: Status, n: nat, k: nat,
    numOutputs: nat, row: seq<Tensor>)
    requires n <= |batch| == |before| && k < |batch| && Apart(batch) && KeysAgree(batch, before)
    requires HasPiece(batch[k].destination, before[k], numOutputs, Piece(Waiting, row))
    ensures KeysAgree(batch, Told(batch, before, status, n))
    ensures HasPiece(batch[k].destination, Told(batch, before, status, n)[k], numOutputs,
      Piece(if k < n then Called else Waiting, row))
  {
    if n > 0 {
      var m, d := n - 1, batch[k].destination;
      var earlier, p := Told(batch, before, status, m), Piece(if k < m then Called else Waiting, row);
      ToldPiece(batch, before, status, m, k, numOutputs, row);
      ChangedKeysAgree(batch, earlier, m, Finished(batch[m].destination, earlier[m], status));
      if m == k {
        OwnPieceMoves(d, earlier[k], [], status, numOutputs, p);
      } else if SameKey(batch, k, m) {
        assert Compatible(batch[m].destination, d);
        OtherPieceStays(batch[m].destination, d, earlier[k], [], status, numOutputs, p);
      }
    }
  }

  /** The request has a report of this status for the piece. */
  ghost predicate HasReported(d: Destination, s: Snapshot, status: Status) {
    d.Partial? && s.OfRequest? && Report(d.index, status) in s.state.reports
  }

  lemma ReportsStay(d: Destination, e: Destination, s: Snapshot, status: Status)
    requires d.Partial? && s.OfRequest?
    ensures HasReported(e, s, status) ==> HasReported(e, Finished(d, s, status), status)
    ensures d.index < |s.state.pieces| ==> HasReported(d, Finished(d, s, status), status)
  {}

  lemma {:induction false} ToldReport(
    batch: seq<BatchingSessionTask>, before: seq<Snapshot>, status: Status, n: nat, k: nat,
    numOutputs: nat, row: seq<Tensor>)
    requires k < n <= |batch| == |before| && Apart(batch) && KeysAgree(batch, before)
    requires HasPiece(batch[k].destination, before[k], numOutputs, Piece(Waiting, row))
    ensures HasReported(batch[k].destination, Told(batch, before, status, n)[k], status)
  {
    var m, d := n - 1, batch[k].destination;
    var earlier := Told(batch, before, status, m);
    ToldPiece(batch, before, status, m, k, numOutputs, row);
    if m == k {
      ReportsStay(d, d, earlier[k], status);
    } else {
      ToldReport(batch, before, status, m, k, numOutputs, row);
      if SameKey(batch, k, m) {
        assert Compatible(batch[m].destination, d);
        ReportsStay(batch[m].destination, d, earlier[k], status);
      }
    }
  }

  lemma {:induction false} ToldCall(
    batch: seq<BatchingSessionTask>, before: seq<Snapshot>, status: Status, n: nat, k: nat)
    requires n <= |batch| == |before| && k < |batch| && Apart(batch) && batch[k].destination.Whole?
    ensures Told(batch, before, status, n)[k]
         == if k < n then Finished(batch[k].destination, before[k], status) else before[k]
  {
    if n > 0 {
      ToldCall(batch, before, status, n - 1, k);
      if n - 1 != k {
        assert Compatible(batch[k].destination, batch[n - 1].destination);
      }
    }
  }

  /** Empty rows change nothing. */
  lemma {:induction false} PushedNothing(
    batch: seq<BatchingSessionTask>, before: seq<Snapshot>, rows: seq<seq<Tensor>>, m: nat, n: nat)
    requires m <= n <= |batch| == |before| == |rows| && KeysAgree(batch, Pushed(batch, before, rows, m))
    requires forall k :: m <= k < n ==> rows[k] == []
    ensures Pushed(batch, before, rows, n) == Pushed(batch, before, rows, m)
  {
    if m < n {
      PushedNothing(batch, before, rows, m, n - 1);
      var earlier := Pushed(batch, before, rows, n - 1);
      WithRowsAppend(batch[n - 1].destination, earlier[n - 1], [], Scalar(0));
      assert Changed(batch, earlier, n - 1, earlier[n - 1]) == earlier;
    }
  }

  lemma {:induction false} PushedKeysAgree(
    batch: seq<BatchingSessionTask>, before: seq<Snapshot>, rows: seq<seq<Tensor>>, n: nat)
    requires n <= |batch| == |before| == |rows| && KeysAgree(batch, before)
    ensures KeysAgree(batch, Pushed(batch, before, rows, n))
  {
    if n > 0 {
      var earlier := Pushed(batch, before, rows, n - 1);
      PushedKeysAgree(batch, before, rows, n - 1);
      ChangedKeysAgree(batch, earlier, n - 1, WithRow(batch[n - 1].destination, earlier[n - 1], rows[n - 1]));
    }
  }

  lemma NothingFollows(batch: seq<BatchingSessionTask>, before: seq<Snapshot>, rows: seq<seq<Tensor>>, n: nat)
    requires n <= |batch| == |before| == |rows| && KeysAgree(batch, before)
    requires forall k :: n <= k < |batch| ==> rows[k] == []
    ensures Pushed(batch, before, rows, |batch|) == Pushed(batch, before, rows, n)
  {
    PushedKeysAgree(batch, before, rows, n);
    PushedNothing(batch, before, rows, n, |batch|);
  }

  // ---------- Carrying it out ----------

  /** What happens to other objects does not show at the destination. */
  twostate lemma Untouched(d: Destination)
    requires match d {
      case Whole(call) => unchanged(call)
      case Partial(request, _) => unchanged(request, request.call, request.sharedStatus, request.barrier)
    }
    ensures Observe(d) == old(Observe(d)) && Live(d) == old(Live(d))
  {}
}
