/** The objects that the pieces of one split task share, each tied to its state in the join protocol. */
module SplitRequests {
  import opened Common
  import opened Tensors
  import opened SplitJoin

  /** Keeps the first error it is given. */
  class ThreadSafeStatus {
    var status: Status

    constructor ()
      ensures status == OK
    {
      status := OK;
    }

    method Update(newStatus: Status)
      modifies this
      ensures status == Updated(old(status), newStatus)
    {
      if newStatus.OK? {
        return;
      }
      if status.OK? {
        status := newStatus;
      }
    }
  }

  /** The counter behind an incremental barrier; it starts at one, for the barrier itself. */
  class InternalIncrementalBarrier {
    var left: int

    constructor ()
      ensures left == 1
    {
      left := 1;
    }

    method Inc()
      modifies this
      ensures left == old(left) + 1
    {
      left := left + 1;
    }

    /** Tells whether this was the last signal, upon which the callback is due. */
    method Signal() returns (done: bool)
      modifies this
      ensures left == old(left) - 1 && (done <==> left == 0)
    {
      left := left - 1;
      done := left == 0;
    }
  }

  /** What a caller of the session waits for: its outputs and status, and the notification that they are there. */
  class RunCall {
    var outputs: seq<Tensor>
    var status: Status
    var notifications: nat

    constructor ()
      ensures outputs == [] && status == OK && notifications == 0
    {
      outputs, status, notifications := [], OK, 0;
    }
  }

  /** The join runs as soon as it is due. */
  function Released(s: State, missing: ShortReads): State {
    if s.joins > 0 then SplitJoin.Join(s, missing) else s
  }

  lemma JoinOutputsGrow(pieces: seq<Piece>, i: nat, missing: ShortReads)
    ensures JoinOutputs(pieces, i + 1, missing)
      == JoinOutputs(pieces, i, missing) + [JoinOne(OutputColumn(pieces, i, missing))]
  {}

  /** The barrier, status and output matrix shared by all pieces, and the call that they finish together. */
  class SplitRequest {
    const numOutputs: nat
    const missing: ShortReads
    const call: RunCall
    const sharedStatus: ThreadSafeStatus
    const barrier: InternalIncrementalBarrier
    var sharedOutputs: seq<seq<Tensor>>
    ghost var progress: seq<Progress>
    ghost var alive: bool
    ghost var joins: nat
    ghost var reports: seq<Report>
    ghost var steps: seq<Step>

    ghost function Footprint(): set<object> {
      {this, call, sharedStatus, barrier}
    }

    ghost function Pieces(): seq<Piece>
      reads this
    {
      seq(|progress|, j requires 0 <= j < |progress| reads this =>
        Piece(progress[j], if j < |sharedOutputs| then sharedOutputs[j] else []))
    }

    ghost function View(): State
      reads Footprint()
    {
      State(numOutputs, barrier.left, alive, joins, Pieces(), sharedStatus.status, reports,
        call.outputs, call.status, call.notifications)
    }

    /** The objects are in the state that the protocol's steps so far have led to. */
    ghost predicate Valid()
      reads Footprint()
    {
      |progress| == |sharedOutputs| && IsRun(numOutputs, steps) && After(numOutputs, steps) == View()
    }

    constructor (call: RunCall, numOutputs: nat, missing: ShortReads)
      requires call.outputs == [] && call.status == OK && call.notifications == 0
      ensures Valid() && View() == Init(numOutputs)
      ensures this.call == call && this.numOutputs == numOutputs && this.missing == missing
      ensures fresh(sharedStatus) && fresh(barrier)
    {
      this.call, this.numOutputs, this.missing := call, numOutputs, missing;
      sharedStatus := new ThreadSafeStatus();
      barrier := new InternalIncrementalBarrier();
      sharedOutputs, progress, alive, joins, reports, steps := [], [], true, 0, [], [];
    }

    /** Records one protocol step that the caller has just made on the objects. */
    ghost method Record(before: State, step: Step)
      requires |progress| == |sharedOutputs| && IsRun(numOutputs, steps) && After(numOutputs, steps) == before
      requires Enabled(before, step) && View() == Apply(before, step)
      modifies this`steps
      ensures Valid() && View() == old(View())
    {
      steps := steps + [step];
      assert steps[..|steps| - 1] == old(steps);
    }

    method Inc()
      requires Valid() && View().alive
      modifies Footprint()
      ensures Valid() && View() == SplitJoin.Inc(old(View()))
    {
      ghost var before := View();
      barrier.Inc();
      sharedOutputs, progress := sharedOutputs + [[]], progress + [Waiting];
      assert Pieces() == before.pieces + [Piece(Waiting, [])];
      Record(before, IncStep);
    }

    method Push(j: nat, tensor: Tensor)
      requires Valid() && j < |View().pieces|
      requires View().pieces[j].progress.Waiting? && |View().pieces[j].row| < numOutputs
      modifies Footprint()
      ensures Valid() && View() == SplitJoin.Push(old(View()), j, tensor)
    {
      ghost var before := View();
      ghost var index := |sharedOutputs[j]|;
      sharedOutputs := sharedOutputs[j := sharedOutputs[j] + [tensor]];
      assert Pieces() == SplitJoin.Push(before, j, tensor).pieces;
      Record(before, PushStep(j, index, tensor));
    }

    method Report(j: nat, status: Status)
      requires Valid() && Enabled(View(), ReportStep(j, status))
      modifies Footprint()
      ensures Valid() && View() == ReportStatus(old(View()), j, status)
    {
      ghost var before := View();
      sharedStatus.Update(status);
      progress, reports := progress[j := Reported], reports + [SplitJoin.Report(j, status)];
      assert Pieces() == ReportStatus(before, j, status).pieces;
      Record(before, ReportStep(j, status));
    }

    /** A piece's callback: signals the barrier and, if that was the last signal, joins. */
    method Callback(j: nat)
      requires Valid() && Enabled(View(), CallStep(j))
      modifies Footprint()
      ensures Valid() && View() == Released(CallBack(old(View()), j), missing)
    {
      ghost var before := View();
      RunKeepsInv(numOutputs, steps);
      ReleaseIsFinal(before);
      var done := SignalFor(j);
      Record(before, CallStep(j));
      if done {
        Join();
      }
    }

    method SignalFor(j: nat) returns (done: bool)
      requires |progress| == |sharedOutputs| && j < |progress| && View().left > 0
      modifies this`progress, this`joins, barrier
      ensures |progress| == |sharedOutputs| && View() == CallBack(old(View()), j)
      ensures done <==> View().left == 0
    {
      ghost var before := View();
      done := barrier.Signal();
      progress := progress[j := Called];
      if done {
        joins := joins + 1;
      }
      assert Pieces() == CallBack(before, j).pieces;
    }

    method DestroyBarrier()
      requires Valid() && View().alive
      modifies Footprint()
      ensures Valid() && View() == Released(Destroy(old(View())), missing)
    {
      ghost var before := View();
      RunKeepsInv(numOutputs, steps);
      ReleaseIsFinal(before);
      var done := barrier.Signal();
      alive := false;
      if done {
        joins := joins + 1;
      }
      Record(before, DestroyStep);
      if done {
        Join();
      }
    }

    /** Concatenates the pieces' outputs, hands them and the status to the caller, and notifies it. */
    method Join()
      requires Valid() && View().joins > 0
      modifies Footprint()
      ensures Valid() && View() == SplitJoin.Join(old(View()), missing)
    {
      ghost var before := View();
      for i := 0 to numOutputs
        invariant View() == Joining(before, i)
        invariant |progress| == |sharedOutputs| && steps == old(steps)
      {
        ConcatOutput(i);
        JoinOutputsGrow(before.pieces, i, missing);
      }
      this.call.status := sharedStatus.status;
      this.call.notifications := this.call.notifications + 1;
      joins := joins - 1;
      Record(before, JoinStep(missing));
    }

    /** The state after concatenating the first `i` outputs. */
    ghost function Joining(before: State, i: nat): State {
      before.(outputs := before.outputs + JoinOutputs(before.pieces, i, missing),
        status := JoinStatus(before.status, before.pieces, i, missing))
    }

    method ConcatOutput(i: nat)
      requires |progress| == |sharedOutputs|
      modifies this.call`outputs, sharedStatus
      ensures var column := OutputColumn(Pieces(), i, missing);
        && View() == old(View()).(outputs := this.call.outputs, status := sharedStatus.status)
        && this.call.outputs == old(this.call.outputs) + [JoinOne(column)]
        && sharedStatus.status ==
           if Concat(column).Failure? then Updated(old(sharedStatus.status), Concat(column).error)
           else old(sharedStatus.status)
    {
      var toConcatenate := Column(i);
      var outputTensor := Ranked([], []);
      var concat := Concat(toConcatenate);
      if concat.Failure? {
        sharedStatus.Update(concat.error);
      } else {
        outputTensor := concat.value;
      }
      this.call.outputs := this.call.outputs + [outputTensor];
    }

    method Column(i: nat) returns (column: seq<Tensor>)
      requires |progress| == |sharedOutputs|
      ensures column == OutputColumn(Pieces(), i, missing)
    {
      column := [];
      for j := 0 to |sharedOutputs|
        invariant column == OutputColumn(Pieces(), i, missing)[..j]
      {
        column := column + [if i < |sharedOutputs[j]| then sharedOutputs[j][i] else missing(j, i)];
      }
    }
  }
}
