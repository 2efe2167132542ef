/**
  How the pieces of a split task come together again. Each piece travels in a batch of its own choosing;
  the batch's thread fills the piece's row of the shared outputs, reports a status and signals the
  barrier. Whoever brings the barrier's counter to zero joins the rows and notifies the caller.
 */
module SplitJoin {
  import opened Common
  import opened Tensors

  datatype Progress = Waiting | Reported | Called

  datatype Piece = Piece(progress: Progress, row: seq<Tensor>)

  datatype Report = Report(piece: nat, status: Status)

  /**
    `left` is the barrier's counter and `alive` says that the barrier has not been destroyed; `joins`
    counts the releases whose callback has not run yet. `reports` is the history of the shared status.
   */
  datatype State = State(
    numOutputs: nat,
    left: int,
    alive: bool,
    joins: nat,
    pieces: seq<Piece>,
    status: Status,
    reports: seq<Report>,
    outputs: seq<Tensor>,
    finalStatus: Status,
    notifications: nat)

  function Init(numOutputs: nat): State {
    State(numOutputs, 1, true, 0, [], OK, [], [], OK, 0)
  }

  // ---------- Steps ----------

  /** The first error stays. */
  function Updated(status: Status, reported: Status): Status {
    if status.OK? then reported else status
  }

  function Inc(s: State): State {
    s.(left := s.left + 1, pieces := s.pieces + [Piece(Waiting, [])])
  }

  /** Decrements the counter; at zero the callback is due. */
  function Signal(s: State): State {
    s.(left := s.left - 1, joins := if s.left - 1 == 0 then s.joins + 1 else s.joins)
  }

  function Destroy(s: State): State {
    Signal(s).(alive := false)
  }

  function Push(s: State, j: nat, tensor: Tensor): State
    requires j < |s.pieces|
  {
    s.(pieces := s.pieces[j := s.pieces[j].(row := s.pieces[j].row + [tensor])])
  }

  function ReportStatus(s: State, j: nat, reported: Status): State
    requires j < |s.pieces|
  {
    s.(pieces := s.pieces[j := s.pieces[j].(progress := Reported)],
       status := Updated(s.status, reported),
       reports := s.reports + [Report(j, reported)])
  }

  function CallBack(s: State, j: nat): State
    requires j < |s.pieces|
  {
    Signal(s.(pieces := s.pieces[j := s.pieces[j].(progress := Called)]))
  }

  /** What is read from the row of piece `j` for output `i` if the row is too short for it. */
  type ShortReads = (nat, nat) -> Tensor

  /** The `i`-th output of every piece; `missing` stands for whatever is read beyond the end of a row. */
  function OutputColumn(pieces: seq<Piece>, i: nat, missing: ShortReads): seq<Tensor> {
    seq(|pieces|, j requires 0 <= j < |pieces| =>
      if i < |pieces[j].row| then pieces[j].row[i] else missing(j, i))
  }

  /** The concatenation; where it fails, the tensor without rows that was to hold it. */
  function JoinOne(column: seq<Tensor>): Tensor {
    if Concat(column).Success? then Concat(column).value else Ranked([], [])
  }

  function JoinOutputs(pieces: seq<Piece>, n: nat, missing: ShortReads): seq<Tensor> {
    seq(n, i requires 0 <= i < n => JoinOne(OutputColumn(pieces, i, missing)))
  }

  /** The shared status after concatenating the first `n` outputs. */
  function JoinStatus(status: Status, pieces: seq<Piece>, n: nat, missing: ShortReads): Status {
    if n == 0 then status
    else
      var before, r := JoinStatus(status, pieces, n - 1, missing), Concat(OutputColumn(pieces, n - 1, missing));
      if r.Failure? then Updated(before, r.error) else before
  }

  function Join(s: State, missing: ShortReads): State {
    var status := JoinStatus(s.status, s.pieces, s.numOutputs, missing);
    s.(joins := if s.joins > 0 then s.joins - 1 else 0,
       status := status,
       outputs := s.outputs + JoinOutputs(s.pieces, s.numOutputs, missing),
       finalStatus := status,
       notifications := s.notifications + 1)
  }

  // ---------- Runs ----------

  datatype Step =
    | IncStep
    | DestroyStep
    | PushStep(piece: nat, index: nat, tensor: Tensor)
    | ReportStep(piece: nat, reported: Status)
    | CallStep(piece: nat)
    | JoinStep(missing: ShortReads)

  /**
    Each thread's own order of steps, and nothing more: callbacks are made while the barrier lives; a
    batch pushes outputs before it reports, succeeds only if it has pushed all of them, and signals last.
   */
  predicate Enabled(s: State, step: Step) {
    match step
    case IncStep => s.alive
    case DestroyStep => s.alive
    case PushStep(j, index, _) =>
      j < |s.pieces| && s.pieces[j].progress.Waiting? && index == |s.pieces[j].row| < s.numOutputs
    case ReportStep(j, reported) =>
      && j < |s.pieces| && s.pieces[j].progress.Waiting?
      && (reported.OK? ==> |s.pieces[j].row| == s.numOutputs)
    case CallStep(j) => j < |s.pieces| && s.pieces[j].progress.Reported?
    case JoinStep(_) => s.joins > 0
  }

  function Apply(s: State, step: Step): State
    requires Enabled(s, step)
  {
    match step
    case IncStep => Inc(s)
    case DestroyStep => Destroy(s)
    case PushStep(j, _, tensor) => Push(s, j, tensor)
    case ReportStep(j, reported) => ReportStatus(s, j, reported)
    case CallStep(j) => CallBack(s, j)
    case JoinStep(missing) => Join(s, missing)
  }

  ghost predicate IsRun(numOutputs: nat, steps: seq<Step>)
    decreases |steps|, 0
  {
    steps == [] ||
    (IsRun(numOutputs, steps[..|steps| - 1]) && Enabled(After(numOutputs, steps[..|steps| - 1]), steps[|steps| - 1]))
  }

  /** The state that a run leads to. */
  ghost function After(numOutputs: nat, steps: seq<Step>): State
    requires IsRun(numOutputs, steps)
    decreases |steps|, 1
  {
    if steps == [] then Init(numOutputs)
    else Apply(After(numOutputs, steps[..|steps| - 1]), steps[|steps| - 1])
  }

  // ---------- Invariants ----------

  function NotCalled(pieces: seq<Piece>): nat {
    if pieces == [] then 0
    else NotCalled(pieces[..|pieces| - 1]) + if pieces[|pieces| - 1].progress.Called? then 0 else 1
  }

  lemma {:induction false} NotCalledUpdate(pieces: seq<Piece>, j: nat, p: Piece)
    requires j < |pieces|
    ensures NotCalled(pieces[j := p])
      == NotCalled(pieces) - (if pieces[j].progress.Called? then 0 else 1) + if p.progress.Called? then 0 else 1
  {
    var init := pieces[..|pieces| - 1];
    if j < |init| {
      NotCalledUpdate(init, j, p);
      assert pieces[j := p][..|pieces| - 1] == init[j := p];
    } else {
      assert pieces[j := p][..|pieces| - 1] == init;
    }
  }

  lemma {:induction false} AllCalledIff(pieces: seq<Piece>)
    ensures NotCalled(pieces) == 0 <==> forall j :: 0 <= j < |pieces| ==> pieces[j].progress.Called?
  {
    if pieces != [] {
      AllCalledIff(pieces[..|pieces| - 1]);
    }
  }

  /** The error that was reported first; OK if none was. */
  function FirstError(reports: seq<Report>): Status {
    if reports == [] then OK else Updated(FirstError(reports[..|reports| - 1]), reports[|reports| - 1].status)
  }

  /** The `i`-th report is an error, and the ones before it are not. */
  ghost predicate IsFirstError(reports: seq<Report>, i: nat)
    requires i < |reports|
  {
    !reports[i].status.OK? && forall h :: 0 <= h < i ==> reports[h].status.OK?
  }

  lemma FirstErrorIs(reports: seq<Report>)
    ensures FirstError(reports).OK? <==> forall r :: r in reports ==> r.status.OK?
    ensures !FirstError(reports).OK? ==>
      exists i :: 0 <= i < |reports| && IsFirstError(reports, i) && reports[i].status == FirstError(reports)
  {
    NoErrorIff(reports);
    if !FirstError(reports).OK? {
      var i := FirstErrorAt(reports);
    }
  }

  lemma {:induction false} NoErrorIff(reports: seq<Report>)
    ensures FirstError(reports).OK? <==> forall r :: r in reports ==> r.status.OK?
  {
    if reports != [] {
      var init, last := reports[..|reports| - 1], reports[|reports| - 1];
      NoErrorIff(init);
      assert reports == init + [last];
    }
  }

  lemma {:induction false} FirstErrorAt(reports: seq<Report>) returns (i: nat)
    requires !FirstError(reports).OK?
    ensures i < |reports| && IsFirstError(reports, i) && reports[i].status == FirstError(reports)
  {
    var init := reports[..|reports| - 1];
    if FirstError(init).OK? {
      i := |init|;
      NoErrorIff(init);
      assert forall h :: 0 <= h < i ==> reports[h] == init[h] && init[h] in init;
    } else {
      i := FirstErrorAt(init);
      assert reports[i] == init[i] && forall h :: 0 <= h < i ==> reports[h] == init[h];
    }
  }

  /** The counter counts the barrier and the callbacks that are still to come. */
  ghost predicate Counted(s: State) {
    s.left == NotCalled(s.pieces) + if s.alive then 1 else 0
  }

  /** The release happens when the counter reaches zero, and the join happens once for it. */
  ghost predicate JoinsOnce(s: State) {
    s.joins + s.notifications == if s.left == 0 then 1 else 0
  }

  ghost predicate HasReport(s: State, j: nat) {
    exists r :: r in s.reports && r.piece == j
  }

  /** Every piece reports once, after its row is complete if the report is OK. */
  ghost predicate ReportsMatch(s: State) {
    && (forall j :: 0 <= j < |s.pieces| ==>
          (HasReport(s, j) <==> s.pieces[j].progress.Reported? || s.pieces[j].progress.Called?))
    && (forall r :: r in s.reports ==>
          r.piece < |s.pieces| && (r.status.OK? ==> |s.pieces[r.piece].row| == s.numOutputs))
    && (forall h, i :: 0 <= h < i < |s.reports| ==> s.reports[h].piece != s.reports[i].piece)
  }

  ghost predicate RowsFit(s: State) {
    forall j :: 0 <= j < |s.pieces| ==> |s.pieces[j].row| <= s.numOutputs
  }

  ghost predicate JoinedWith(s: State, missing: ShortReads) {
    && s.outputs == JoinOutputs(s.pieces, s.numOutputs, missing)
    && s.status == s.finalStatus == JoinStatus(FirstError(s.reports), s.pieces, s.numOutputs, missing)
  }

  /** Until the join the shared status is the first error reported; the join works on the final rows. */
  ghost predicate JoinIsRight(s: State) {
    if s.notifications == 0 then s.outputs == [] && s.status == FirstError(s.reports)
    else exists missing :: JoinedWith(s, missing)
  }

  ghost predicate Inv(s: State) {
    Counted(s) && JoinsOnce(s) && ReportsMatch(s) && RowsFit(s) && JoinIsRight(s)
  }

  /** Once released, the barrier has been destroyed, all callbacks have been made, and only the join is left. */
  lemma ReleaseIsFinal(s: State)
    requires Counted(s)
    ensures s.left >= 0
    ensures s.left == 0 <==> !s.alive && forall j :: 0 <= j < |s.pieces| ==> s.pieces[j].progress.Called?
    ensures s.left == 0 ==> forall step :: Enabled(s, step) ==> step.JoinStep?
  {
    AllCalledIff(s.pieces);
  }

  lemma StepKeepsCount(s: State, step: Step)
    requires Counted(s) && JoinsOnce(s) && Enabled(s, step)
    ensures Counted(Apply(s, step)) && JoinsOnce(Apply(s, step))
  {
    ReleaseIsFinal(s);
    match step
    case IncStep =>
      assert Inc(s).pieces[..|s.pieces|] == s.pieces;
    case DestroyStep =>
    case PushStep(j, _, tensor) => NotCalledUpdate(s.pieces, j, s.pieces[j].(row := s.pieces[j].row + [tensor]));
    case ReportStep(j, _) => NotCalledUpdate(s.pieces, j, s.pieces[j].(progress := Reported));
    case CallStep(j) => NotCalledUpdate(s.pieces, j, s.pieces[j].(progress := Called));
    case JoinStep(_) =>
  }

  lemma StepKeepsReports(s: State, step: Step)
    requires ReportsMatch(s) && RowsFit(s) && Enabled(s, step)
    ensures ReportsMatch(Apply(s, step)) && RowsFit(Apply(s, step))
  {
    var next := Apply(s, step);
    forall j | 0 <= j < |next.pieces|
      ensures HasReport(next, j) <==> next.pieces[j].progress.Reported? || next.pieces[j].progress.Called?
    {
      if step.ReportStep? {
        assert Report(step.piece, step.reported) in next.reports;
        assert forall r :: r in s.reports ==> r in next.reports;
      } else {
        assert HasReport(next, j) == HasReport(s, j);
      }
    }
    if step.PushStep? {
      assert !HasReport(s, step.piece);
    }
    if step.ReportStep? {
      assert !HasReport(s, step.piece);
    }
  }

  lemma StepKeepsJoin(s: State, step: Step)
    requires Inv(s) && Enabled(s, step)
    ensures JoinIsRight(Apply(s, step))
  {
    ReleaseIsFinal(s);
    var next := Apply(s, step);
    if step.JoinStep? {
      assert JoinedWith(next, step.missing);
    } else if step.ReportStep? {
      assert next.reports[..|s.reports|] == s.reports;
    }
  }

  lemma {:induction false} RunKeepsInv(numOutputs: nat, steps: seq<Step>)
    requires IsRun(numOutputs, steps)
    ensures Inv(After(numOutputs, steps)) && After(numOutputs, steps).numOutputs == numOutputs
  {
    if steps != [] {
      var before, step := After(numOutputs, steps[..|steps| - 1]), steps[|steps| - 1];
      RunKeepsInv(numOutputs, steps[..|steps| - 1]);
      StepKeepsCount(before, step);
      StepKeepsReports(before, step);
      StepKeepsJoin(before, step);
    }
  }

  // ---------- The protocol's promises ----------

  /**
    The caller is notified at most once in every interleaving, and only when the barrier has been
    destroyed and every piece has reported and called back. From then on nothing can happen any more, so
    nobody touches the released barrier.
   */
  lemma NotifiedOnlyAtTheEnd(numOutputs: nat, steps: seq<Step>)
    requires IsRun(numOutputs, steps)
    ensures var s := After(numOutputs, steps);
      && s.left >= 0 && s.notifications <= 1
      && (s.joins > 0 || s.notifications > 0 ==>
        && !s.alive && (forall j :: 0 <= j < |s.pieces| ==> s.pieces[j].progress.Called? && HasReport(s, j))
        && forall step :: Enabled(s, step) ==> step.JoinStep?)
      && (s.notifications > 0 ==> forall step :: !Enabled(s, step))
  {
    RunKeepsInv(numOutputs, steps);
    ReleaseIsFinal(After(numOutputs, steps));
  }

  /** A run that can go no further has notified its caller. */
  lemma NotifiedInTheEnd(numOutputs: nat, steps: seq<Step>)
    requires IsRun(numOutputs, steps) && forall step :: !Enabled(After(numOutputs, steps), step)
    ensures After(numOutputs, steps).notifications == 1
  {
    var s := After(numOutputs, steps);
    RunKeepsInv(numOutputs, steps);
    ReleaseIsFinal(s);
    assert !Enabled(s, DestroyStep) && !Enabled(s, JoinStep((_, _) => Scalar(0)));
    StuckPiecesHaveCalled(s);
  }

  lemma StuckPiecesHaveCalled(s: State)
    requires forall step :: !Enabled(s, step)
    ensures forall j :: 0 <= j < |s.pieces| ==> s.pieces[j].progress.Called?
  {
    forall j | 0 <= j < |s.pieces| ensures s.pieces[j].progress.Called? {
      assert !Enabled(s, ReportStep(j, Error(Internal, ""))) && !Enabled(s, CallStep(j));
    }
  }

  function StepsLeft(p: Piece, n: nat): int {
    match p.progress
    case Waiting => n - |p.row| + 2
    case Reported => 1
    case Called => 0
  }

  function PieceSteps(pieces: seq<Piece>, n: nat): int {
    if pieces == [] then 0 else PieceSteps(pieces[..|pieces| - 1], n) + StepsLeft(pieces[|pieces| - 1], n)
  }

  lemma {:induction false} PieceStepsUpdate(pieces: seq<Piece>, n: nat, j: nat, p: Piece)
    requires j < |pieces|
    ensures PieceSteps(pieces[j := p], n) == PieceSteps(pieces, n) - StepsLeft(pieces[j], n) + StepsLeft(p, n)
  {
    var init := pieces[..|pieces| - 1];
    if j < |init| {
      PieceStepsUpdate(init, n, j, p);
      assert pieces[j := p][..|pieces| - 1] == init[j := p];
    } else {
      assert pieces[j := p][..|pieces| - 1] == init;
    }
  }

  lemma {:induction false} PieceStepsAreLeft(pieces: seq<Piece>, n: nat)
    requires forall p :: p in pieces ==> |p.row| <= n
    ensures PieceSteps(pieces, n) >= 0
  {
    if pieces != [] {
      PieceStepsAreLeft(pieces[..|pieces| - 1], n);
    }
  }

  /** The most steps that can follow if no further callback is made. */
  function Remaining(s: State): int {
    PieceSteps(s.pieces, s.numOutputs) + (if s.alive then 1 else 0) + (if s.notifications == 0 then 1 else 0)
  }

  lemma StepUsesUp(s: State, step: Step)
    requires JoinsOnce(s) && RowsFit(s) && Enabled(s, step)
    ensures Remaining(Apply(s, step)) < Remaining(s) + if step.IncStep? then s.numOutputs + 3 else 0
  {
    match step
    case IncStep =>
      assert Inc(s).pieces[..|s.pieces|] == s.pieces;
    case DestroyStep =>
    case PushStep(j, _, tensor) => PieceStepsUpdate(s.pieces, s.numOutputs, j, Push(s, j, tensor).pieces[j]);
    case ReportStep(j, _) => PieceStepsUpdate(s.pieces, s.numOutputs, j, s.pieces[j].(progress := Reported));
    case CallStep(j) => PieceStepsUpdate(s.pieces, s.numOutputs, j, s.pieces[j].(progress := Called));
    case JoinStep(_) =>
  }

  function StepBound(s: State): int {
    |s.pieces| * (s.numOutputs + 3) + 2
  }

  lemma StepKeepsBound(s: State, step: Step, count: nat)
    requires JoinsOnce(s) && RowsFit(s) && Enabled(s, step) && count + Remaining(s) <= StepBound(s)
    ensures count + 1 + Remaining(Apply(s, step)) <= StepBound(Apply(s, step))
  {
    StepUsesUp(s, step);
    OneMore(|s.pieces|, s.numOutputs + 3);
  }

  /** Every step but making another callback uses one up; so runs are bounded, and each gets to its end. */
  lemma {:induction false} RunIsBounded(numOutputs: nat, steps: seq<Step>)
    requires IsRun(numOutputs, steps)
    ensures |steps| + Remaining(After(numOutputs, steps)) <= StepBound(After(numOutputs, steps))
    ensures 0 <= Remaining(After(numOutputs, steps))
    decreases |steps|
  {
    RunKeepsInv(numOutputs, steps);
    PieceStepsAreLeft(After(numOutputs, steps).pieces, numOutputs);
    if steps != [] {
      var init := steps[..|steps| - 1];
      RunIsBounded(numOutputs, init);
      RunKeepsInv(numOutputs, init);
      StepKeepsBound(After(numOutputs, init), steps[|steps| - 1], |init|);
    }
  }

  lemma OneMore(count: nat, k: nat)
    ensures (count + 1) * k == count * k + k
  {}

  // ---------- The statuses ----------

  /** The shared status is OK if and only if all reports so far were; otherwise it is the first error reported. */
  lemma StatusIsFirstError(numOutputs: nat, steps: seq<Step>)
    requires IsRun(numOutputs, steps) && After(numOutputs, steps).notifications == 0
    ensures var s := After(numOutputs, steps);
      && (s.status.OK? <==> forall r :: r in s.reports ==> r.status.OK?)
      && (!s.status.OK? ==>
        exists i :: 0 <= i < |s.reports| && IsFirstError(s.reports, i) && s.reports[i].status == s.status)
  {
    RunKeepsInv(numOutputs, steps);
    FirstErrorIs(After(numOutputs, steps).reports);
  }

  lemma {:induction false} JoinKeepsError(status: Status, pieces: seq<Piece>, n: nat, missing: ShortReads)
    requires !status.OK?
    ensures JoinStatus(status, pieces, n, missing) == status
  {
    if n > 0 {
      JoinKeepsError(status, pieces, n - 1, missing);
    }
  }

  /** An error status that is delivered to the caller is the first error that any piece reported, if one did. */
  lemma DeliveredStatus(numOutputs: nat, steps: seq<Step>)
    requires IsRun(numOutputs, steps) && After(numOutputs, steps).notifications > 0
    requires exists r :: r in After(numOutputs, steps).reports && !r.status.OK?
    ensures var s := After(numOutputs, steps);
      exists i :: 0 <= i < |s.reports| && IsFirstError(s.reports, i) && s.reports[i].status == s.finalStatus
  {
    var s := After(numOutputs, steps);
    RunKeepsInv(numOutputs, steps);
    FirstErrorIs(s.reports);
    var missing :| JoinedWith(s, missing);
    JoinKeepsError(FirstError(s.reports), s.pieces, numOutputs, missing);
  }

  lemma {:induction false} JoinFails(status: Status, pieces: seq<Piece>, n: nat, missing: ShortReads, i: nat)
    requires i < n && Concat(OutputColumn(pieces, i, missing)).Failure?
    ensures !JoinStatus(status, pieces, n, missing).OK?
  {
    if i < n - 1 {
      JoinFails(status, pieces, n - 1, missing, i);
    } else {
      ConcatErrors(OutputColumn(pieces, i, missing));
    }
  }

  lemma ConcatErrors(column: seq<Tensor>)
    ensures Concat(column).Failure? ==> !Concat(column).error.OK?
  {}

  /** There is a piece, and all pieces have output `i`, with a zeroth dimension. */
  ghost predicate CanJoin(pieces: seq<Piece>, i: nat) {
    pieces != [] && forall p :: p in pieces ==> i < |p.row| && p.row[i].Ranked?
  }

  /**
    The caller gets OK exactly if all pieces reported success and every output can be concatenated.
   */
  lemma DeliveredOkIff(numOutputs: nat, steps: seq<Step>)
    requires IsRun(numOutputs, steps) && After(numOutputs, steps).notifications > 0
    ensures var s := After(numOutputs, steps);
      s.finalStatus.OK? <==>
        && (forall r :: r in s.reports ==> r.status.OK?)
        && (forall i :: 0 <= i < numOutputs ==> CanJoin(s.pieces, i))
  {
    var s := After(numOutputs, steps);
    RunKeepsInv(numOutputs, steps);
    FirstErrorIs(s.reports);
    var missing :| JoinedWith(s, missing);
    if exists r :: r in s.reports && !r.status.OK? {
      JoinKeepsError(FirstError(s.reports), s.pieces, numOutputs, missing);
    } else {
      AllRowsComplete(numOutputs, steps);
      JoinOkIff(s.pieces, numOutputs, missing);
    }
  }

  lemma JoinOkIff(pieces: seq<Piece>, n: nat, missing: ShortReads)
    requires forall p :: p in pieces ==> |p.row| == n
    ensures JoinStatus(OK, pieces, n, missing).OK? <==>
      forall i :: 0 <= i < n ==> CanJoin(pieces, i)
  {
    forall i | 0 <= i < n ensures Concat(OutputColumn(pieces, i, missing)).Success? <==> CanJoin(pieces, i) {
      ColumnJoinsIff(pieces, i, missing);
    }
    if forall i :: 0 <= i < n ==> Concat(OutputColumn(pieces, i, missing)).Success? {
      JoinSucceeds(OK, pieces, n, missing);
    } else {
      var i :| 0 <= i < n && !Concat(OutputColumn(pieces, i, missing)).Success?;
      JoinFails(OK, pieces, n, missing, i);
    }
  }

  lemma ColumnJoinsIff(pieces: seq<Piece>, i: nat, missing: ShortReads)
    requires forall p :: p in pieces ==> i < |p.row|
    ensures Concat(OutputColumn(pieces, i, missing)).Success? <==> CanJoin(pieces, i)
  {
    var column := OutputColumn(pieces, i, missing);
    forall j | 0 <= j < |pieces| ensures column[j] == pieces[j].row[i] {
      assert pieces[j] in pieces;
    }
    if exists j :: 0 <= j < |column| && column[j].Scalar? {
      var j :| 0 <= j < |column| && column[j].Scalar?;
      assert pieces[j] in pieces;
    }
  }

  // ---------- Runs in which every piece succeeds ----------

  lemma {:induction false} JoinSucceeds(status: Status, pieces: seq<Piece>, n: nat, missing: ShortReads)
    requires forall i :: 0 <= i < n ==> Concat(OutputColumn(pieces, i, missing)).Success?
    ensures JoinStatus(status, pieces, n, missing) == status
  {
    if n > 0 {
      JoinSucceeds(status, pieces, n - 1, missing);
    }
  }

  lemma AllRowsComplete(numOutputs: nat, steps: seq<Step>)
    requires IsRun(numOutputs, steps) && After(numOutputs, steps).notifications > 0
    requires forall r :: r in After(numOutputs, steps).reports ==> r.status.OK?
    ensures forall p :: p in After(numOutputs, steps).pieces ==> |p.row| == numOutputs
  {
    var s := After(numOutputs, steps);
    RunKeepsInv(numOutputs, steps);
    NotifiedOnlyAtTheEnd(numOutputs, steps);
    forall j | 0 <= j < |s.pieces| ensures |s.pieces[j].row| == numOutputs {
      assert HasReport(s, j);
    }
  }

  lemma JoinedCount(numOutputs: nat, steps: seq<Step>)
    requires IsRun(numOutputs, steps) && After(numOutputs, steps).notifications > 0
    ensures |After(numOutputs, steps).outputs| == numOutputs
  {
    RunKeepsInv(numOutputs, steps);
  }
}
