/**
  The basic manager's bookkeeping and the aspired-versions manager on mutable objects. The manager
  carries, as a ghost history, the run of `VersionLifecycle` it has made; every method extends it by
  the steps it takes, so everything proved of runs holds of the object.
 */
module AspiredVersionsManagers {
  import opened Common
  import opened P = VersionPolicy
  import opened L = VersionLifecycle
  import opened LifecycleInvariants
  import opened LifecycleTheorems
  import opened Convergence

  function SnapshotOf(managed: map<ServableId, Harness>, id: ServableId): Snapshot
    requires id in managed
  {
    Snapshot(id, managed[id].state, managed[id].isAspired)
  }

  function Ids(snapshots: seq<Snapshot>): seq<ServableId> {
    seq(|snapshots|, i requires 0 <= i < |snapshots| => snapshots[i].id)
  }

  lemma IdsOfStream(managed: map<ServableId, Harness>, name: string, snapshots: seq<Snapshot>)
    requires SetOf(snapshots) == StreamOf(managed, name)
    ensures forall id :: id in SetOf(Ids(snapshots)) <==> id in managed && id.name == name
  {
    forall id | id in managed && id.name == name ensures id in Ids(snapshots) {
      assert SnapshotOf(managed, id) in SetOf(snapshots);
      var i :| 0 <= i < |snapshots| && snapshots[i] == SnapshotOf(managed, id);
      assert Ids(snapshots)[i] == id;
    }
    forall i | 0 <= i < |snapshots| ensures snapshots[i].id in managed && snapshots[i].id.name == name {
      assert snapshots[i] in SetOf(snapshots);
    }
  }

  lemma RemainingIds(snapshots: seq<Snapshot>, i: nat)
    requires i < |snapshots| && Distinct(snapshots)
    ensures snapshots[i].id in SetOf(Ids(snapshots[i..]))
    ensures SetOf(Ids(snapshots[i..])) - {snapshots[i].id} == SetOf(Ids(snapshots[i + 1..]))
  {
    var rest := Ids(snapshots[i + 1..]);
    assert Ids(snapshots[i..]) == [snapshots[i].id] + rest;
    assert snapshots[i].id !in rest;
  }

  class BasicManager {
    var managed: map<ServableId, Harness>
    ghost var calls: map<ServableId, seq<Call>>

    constructor ()
      ensures View() == INITIAL_STATE
    {
      managed, calls := map[], map[];
    }

    ghost function View(): State
      reads this
    {
      State(map[], managed, map[], calls)
    }

    /** Turns down an id that is already managed; accepts an unhealthy servable, in state `Failed`. */
    method ManageServable(e: Entry) returns (status: Status)
      modifies this
      ensures View() == L.ManageServable(old(View()), e)
      ensures status == OK <==> e.id !in old(managed)
    {
      if e.id in managed {
        calls := Log(View(), e.id, Refused).calls;
        return Error(FailedPrecondition, "This servable is already being managed");
      }
      managed := managed[e.id := Harness(e.loader, if e.healthy then New else Failed, true, false)];
      calls := Log(View(), e.id, Manage(e.loader)).calls;
      return OK;
    }

    method StopManagingServable(id: ServableId) returns (status: Status)
      modifies this
      ensures View() == L.StopManagingServable(old(View()), id)
      ensures status == OK <==> id in old(managed) && old(managed)[id].state in {New, Failed, Disabled}
    {
      if id !in managed || managed[id].state !in {New, Failed, Disabled} {
        calls := Log(View(), id, Refused).calls;
        return Error(FailedPrecondition, "This servable cannot be dropped");
      }
      calls := Log(View(), id, StopCall(managed[id].loader)).calls;
      managed := managed - {id};
      return OK;
    }

    method SetUnaspired(id: ServableId)
      requires id in managed
      modifies this`managed
      ensures managed == old(managed)[id := old(managed)[id].(isAspired := false)]
    {
      managed := managed[id := managed[id].(isAspired := false)];
    }

    /** Does nothing for a harness that has failed. */
    method CancelLoadServableRetry(id: ServableId)
      requires id in managed
      modifies this`managed
      ensures managed == old(managed)[id := old(managed)[id]
        .(retryCancelled := old(managed)[id].retryCancelled || !old(managed)[id].state.Failed?)]
    {
      if !managed[id].state.Failed? {
        managed := managed[id := managed[id].(retryCancelled := true)];
      }
    }

    method LoadServable(id: ServableId)
      modifies this
      ensures View() == L.LoadServable(old(View()), id)
    {
      if id in managed && managed[id].state.New? {
        calls := Log(View(), id, LoadCall(managed[id].loader)).calls;
        managed := managed[id := managed[id].(state := LoadRequested)];
      } else {
        calls := Log(View(), id, Refused).calls;
      }
    }

    method UnloadServable(id: ServableId)
      modifies this
      ensures View() == L.UnloadServable(old(View()), id)
    {
      if id in managed && managed[id].state.Ready? {
        calls := Log(View(), id, UnloadCall(managed[id].loader)).calls;
        managed := managed[id := managed[id].(state := UnloadRequested)];
      } else {
        calls := Log(View(), id, Refused).calls;
      }
    }

    method GetManagedServableNames() returns (names: set<string>)
      ensures names == Names(managed)
    {
      names := set id | id in managed :: id.name;
    }

    method GetManagedServableStateSnapshots(name: string) returns (snapshots: seq<Snapshot>)
      ensures SetOf(snapshots) == StreamOf(managed, name) && Distinct(snapshots)
      ensures forall v :: v in snapshots ==> v.id in managed && v.id.name == name
    {
      snapshots := [];
      var remaining := set id | id in managed && id.name == name;
      while remaining != {}
        invariant remaining <= managed.Keys && forall id :: id in remaining ==> id.name == name
        invariant forall v :: v in snapshots ==> v.id in managed && v.id.name == name && v.id !in remaining
        invariant forall v :: v in snapshots ==> v == SnapshotOf(managed, v.id)
        invariant forall id :: id in managed && id.name == name && id !in remaining ==>
          SnapshotOf(managed, id) in snapshots
        invariant Distinct(snapshots)
        decreases remaining
      {
        var id :| id in remaining;
        ghost var before := snapshots;
        snapshots := snapshots + [SnapshotOf(managed, id)];
        remaining := remaining - {id};
        forall i | 0 <= i < |before| ensures snapshots[i].id.version != id.version {
          assert before[i] in before;
        }
      }
    }

    /** A load or unload of `id` makes its next step on an executor thread. */
    method CompleteStep(id: ServableId, ok: bool)
      requires id in managed && InFlight(managed[id].state)
      modifies this`managed
      ensures View() == SetState(old(View()), id, Advance(old(managed)[id].state, ok))
    {
      managed := managed[id := managed[id].(state := Advance(managed[id].state, ok))];
    }
  }

  ghost function Extend(r: Run, step: Step): Run
    requires IsRun(r) && Enabled(r.states[|r.steps|], step)
  {
    Run(r.states + [Apply(r.states[|r.steps|], step)], r.steps + [step])
  }

  /** `later` continues `r`. */
  ghost predicate Continues(later: Run, r: Run) {
    r.states <= later.states && r.steps <= later.steps
  }

  lemma ExtendIsRun(r: Run, step: Step)
    requires IsRun(r) && Enabled(r.states[|r.steps|], step)
    ensures IsRun(Extend(r, step))
  {
    var e := Extend(r, step);
    forall i: nat | i < |e.steps| ensures Follows(e, i) {
      if i < |r.steps| {
        assert Follows(r, i);
      }
    }
  }

  class AspiredVersionsManager {
    var pending: map<string, seq<Entry>>
    const basicManager: BasicManager
    ghost var requested: map<string, set<int>>
    ghost var run: Run

    ghost function View(): State
      reads this, basicManager
    {
      State(pending, basicManager.managed, requested, basicManager.calls)
    }

    ghost predicate Valid()
      reads this, basicManager
    {
      IsRun(run) && run.states[|run.steps|] == View()
    }

    constructor ()
      ensures Valid() && fresh(basicManager) && View() == INITIAL_STATE
    {
      pending, requested := map[], map[];
      basicManager := new BasicManager();
      run := Run([INITIAL_STATE], []);
    }

    /** The method has taken `step`: record it. */
    ghost method Record(step: Step)
      requires IsRun(run) && Enabled(run.states[|run.steps|], step)
      requires View() == Apply(run.states[|run.steps|], step)
      modifies this`run
      ensures Valid() && run == Extend(old(run), step) && Continues(run, old(run))
    {
      ExtendIsRun(run, step);
      run := Extend(run, step);
    }

    method EnqueueAspiredVersionsRequest(name: string, versions: seq<Entry>)
      requires Valid()
      modifies this
      ensures Valid() && View() == Enqueue(old(View()), name, versions)
      ensures run == Extend(old(run), EnqueueStep(name, versions))
    {
      if forall e :: e in versions ==> e.id.name == name {
        pending := pending[name := versions];
        requested := requested[name := VersionsOf(versions)];
      }
      Record(EnqueueStep(name, versions));
    }

    method ContainsAnyReaspiredVersions(name: string, versions: seq<Entry>) returns (found: bool)
      requires Valid()
      ensures found <==> ContainsAnyReaspired(View(), name, versions)
      ensures Conforms(name, versions) ==> (found <==>
        exists e :: e in versions && e.id in basicManager.managed && !basicManager.managed[e.id].isAspired)
    {
      if Conforms(name, versions) {
        ReaspiredIff(View(), name, versions);
      }
      var snapshots := basicManager.GetManagedServableStateSnapshots(name);
      var versionNumbers := VersionsOf(versions);
      for i := 0 to |snapshots|
        invariant forall j :: 0 <= j < i ==> snapshots[j].isAspired || snapshots[j].id.version !in versionNumbers
      {
        if !snapshots[i].isAspired && snapshots[i].id.version in versionNumbers {
          assert snapshots[i] in SetOf(snapshots);
          return true;
        }
      }
      forall id | id in basicManager.managed && id.name == name && !basicManager.managed[id].isAspired
        ensures id.version !in versionNumbers
      {
        var v := Snapshot(id, basicManager.managed[id].state, false);
        assert v in SetOf(snapshots);
      }
      return false;
    }

    /** First pass over the snapshots: collect the aspired versions, and clear the flags of omitted ones. */
    method UnaspireOmitted(name: string, next: set<int>) returns (current: set<int>)
      modifies basicManager`managed
      ensures View() == Unaspire(old(View()), name, next)
      ensures current == AspiredVersions(old(View()), name)
    {
      var snapshots := basicManager.GetManagedServableStateSnapshots(name);
      ghost var before := basicManager.managed;
      ghost var seen: set<ServableId> := {};
      current := {};
      for i := 0 to |snapshots|
        invariant seen == SetOf(Ids(snapshots[..i])) && seen <= before.Keys
        invariant AreUnaspired(before, basicManager.managed, seen, next)
        invariant AreCollected(before, seen, current)
      {
        var v := snapshots[i];
        assert v in SetOf(snapshots) && v == SnapshotOf(before, v.id);
        assert Ids(snapshots[..i + 1]) == Ids(snapshots[..i]) + [v.id];
        current := UnaspireVersion(v, next, current, before, seen);
        seen := seen + {v.id};
      }
      IdsOfStream(before, name, snapshots);
      assert snapshots[..|snapshots|] == snapshots;
      CollectedAreAspired(old(View()), name, seen, current);
    }

    method UnaspireVersion(
      v: Snapshot, next: set<int>, current: set<int>,
      ghost before: map<ServableId, Harness>, ghost seen: set<ServableId>)
      returns (collected: set<int>)
      requires v.id in before && v == SnapshotOf(before, v.id)
      requires AreUnaspired(before, basicManager.managed, seen, next) && AreCollected(before, seen, current)
      modifies basicManager`managed
      ensures AreUnaspired(before, basicManager.managed, seen + {v.id}, next)
      ensures AreCollected(before, seen + {v.id}, collected)
    {
      UnaspireNext(before, basicManager.managed, seen, next, v.id);
      CollectNext(before, seen, current, v.id);
      collected := if v.isAspired then current + {v.id.version} else current;
      if v.id.version !in next {
        GiveUp(v.id);
      }
    }

    method GiveUp(id: ServableId)
      requires id in basicManager.managed
      modifies basicManager`managed
      ensures basicManager.managed == old(basicManager.managed)[id := Unaspired(old(basicManager.managed)[id])]
    {
      basicManager.SetUnaspired(id);
      basicManager.CancelLoadServableRetry(id);
    }

    /** Assumes that no version in the request is managed but not aspired. */
    method ProcessAspiredVersionsRequest(name: string, versions: seq<Entry>)
      modifies basicManager
      ensures View() == ProcessRequest(old(View()), name, versions)
    {
      var next := VersionsOf(versions);
      var current := UnaspireOmitted(name, next);
      ghost var cleared := View();
      var additions := next - current;
      for i := 0 to |versions|
        invariant View() == ManageAdditions(cleared, versions[..i], additions)
      {
        assert versions[..i + 1][..i] == versions[..i];
        if versions[i].id.version in additions {
          var status := basicManager.ManageServable(versions[i]);
        }
      }
      assert versions[..|versions|] == versions;
    }

    method ProcessAndErase(name: string)
      requires Valid() && Enabled(View(), AbsorbStep(name))
      modifies this`pending, this`run, basicManager
      ensures Valid() && Continues(run, old(run))
      ensures View() == Absorb(old(View()), name)
    {
      ProcessAspiredVersionsRequest(name, pending[name]);
      pending := pending - {name};
      Record(AbsorbStep(name));
    }

    /**
      Processes every pending request that re-aspires nothing and leaves the others for later. The
      streams do not influence each other: which requests wait is decided by the state on entry.
     */
    method HandlePendingAspiredVersionsRequests()
      requires Valid()
      modifies this, basicManager
      ensures Valid() && Continues(run, old(run))
      ensures Handled(old(View()), View(), {})
      ensures ReaspiringWait(old(View()), View())
      ensures forall id: ServableId :: id.name in old(pending) && id.name !in pending ==>
        (Lists(old(pending)[id.name], id) <==> id in basicManager.managed && basicManager.managed[id].isAspired)
    {
      ghost var before := View();
      RunKeepsInv(run, |run.steps|);
      var names := pending.Keys;
      while names != {}
        invariant Valid() && Continues(run, old(run))
        invariant Handled(before, View(), names)
        decreases names
      {
        var name :| name in names;
        ghost var s := View();
        RunKeepsInv(run, |run.steps|);
        var reaspired := ContainsAnyReaspiredVersions(name, pending[name]);
        if !reaspired {
          ProcessAndErase(name);
        }
        HandleOne(before, s, View(), names, name);
        names := names - {name};
      }
      RunKeepsInv(run, |run.steps|);
      RequestsAreMet(before, View());
      RequestsThatWait(before, View());
    }

    /** Drops every unaspired version that was never loaded, is unloaded, or has failed; nothing else changes. */
    method FlushServables()
      requires Valid()
      modifies this`run, basicManager
      ensures Valid() && Continues(run, old(run)) && pending == old(pending)
      ensures IsFlushed(old(basicManager.managed), basicManager.managed)
    {
      ghost var before := basicManager.managed;
      var names := basicManager.GetManagedServableNames();
      while names != {}
        invariant Valid() && Continues(run, old(run)) && pending == old(pending) && requested == old(requested)
        invariant forall id :: id in basicManager.managed <==>
          id in before && (id.name in names || !Flushable(before[id]))
        invariant forall id :: id in basicManager.managed ==> basicManager.managed[id] == before[id]
        invariant forall id :: id in before && Flushable(before[id]) && id.name !in names ==>
          id !in basicManager.managed
        decreases names
      {
        var name :| name in names;
        FlushStream(name);
        names := names - {name};
      }
    }

    method FlushStream(name: string)
      requires Valid()
      modifies this`run, basicManager
      ensures Valid() && Continues(run, old(run))
      ensures basicManager.managed == map id | id in old(basicManager.managed)
                && !(id.name == name && Flushable(old(basicManager.managed)[id])) :: old(basicManager.managed)[id]
    {
      ghost var before := basicManager.managed;
      var snapshots := basicManager.GetManagedServableStateSnapshots(name);
      IdsOfStream(before, name, snapshots);
      assert snapshots[0..] == snapshots;
      for i := 0 to |snapshots|
        invariant Valid() && Continues(run, old(run))
        invariant AreFlushed(before, basicManager.managed, name, SetOf(Ids(snapshots[i..])))
      {
        var v := snapshots[i];
        assert v in SetOf(snapshots) && v == SnapshotOf(before, v.id);
        RemainingIds(snapshots, i);
        FlushOne(before, basicManager.managed, name, SetOf(Ids(snapshots[i..])), v.id);
        FlushVersion(v);
      }
    }

    method FlushVersion(v: Snapshot)
      requires Valid() && v.id in basicManager.managed && v == SnapshotOf(basicManager.managed, v.id)
      modifies this`run, basicManager
      ensures Valid() && Continues(run, old(run))
      ensures basicManager.managed ==
        if Flushable(old(basicManager.managed)[v.id]) then old(basicManager.managed) - {v.id}
        else old(basicManager.managed)
    {
      if v.state in {New, Disabled, Failed} && !v.isAspired {
        var status := basicManager.StopManagingServable(v.id);
        Record(FlushStep(v.id));
      }
    }

    /** Gathers every stream's proposal, sorts them, and returns the first. */
    method GetNextAction() returns (next: Option<Action>, ghost proposals: map<string, Option<Action>>)
      ensures AreProposals(basicManager.managed, proposals)
      ensures IsGlobalChoice(proposals.Values, next)
      ensures next.None? <==> forall name :: name in Names(basicManager.managed) ==>
        IsNextAction(StreamOf(basicManager.managed, name), None)
      ensures next.Some? ==> IsNextAction(StreamOf(basicManager.managed, next.value.id.name), next)
    {
      var actions: seq<Option<Action>> := [];
      proposals := map[];
      var names := basicManager.GetManagedServableNames();
      ghost var all := names;
      while names != {}
        invariant names <= all && proposals.Keys == all - names
        invariant ArePolicies(basicManager.managed, proposals) && SetOf(actions) == proposals.Values
        decreases names
      {
        var name :| name in names;
        var snapshots := basicManager.GetManagedServableStateSnapshots(name);
        var action := P.GetNextAction(snapshots);
        AddProposal(basicManager.managed, proposals, actions, name, action);
        actions, proposals := actions + [action], proposals[name := action];
        names := names - {name};
      }
      var sorted := SortActions(actions);
      HeadOfSorted(actions, sorted);
      next := if sorted == [] then None else sorted[0];
      ChoiceIsProposed(basicManager.managed, proposals, next);
    }

    /** One turn of the policy: acts on the first proposal, or does nothing when no stream proposes anything. */
    method InvokePolicyAndExecuteAction()
      requires Valid()
      modifies this`run, basicManager
      ensures Valid() && Continues(run, old(run)) && pending == old(pending)
      ensures run == old(run) ==> View() == old(View())
      ensures run == old(run) <==> IsIdle(old(basicManager.managed))
      ensures run != old(run) ==>
        exists action :: IsChoice(old(basicManager.managed), action) && View() == Perform(old(View()), action)
      ensures run != old(run) ==> exists step: Step ::
        && step.ActStep? && step.snapshot == old(basicManager.managed)
        && Enabled(old(View()), step) && run == Extend(old(run), step)
    {
      var next, proposals := GetNextAction();
      if next.None? {
        assert forall name :: name in proposals ==> proposals[name] in proposals.Values;
        return;
      }
      ghost var step := ActStep(basicManager.managed, proposals, next.value);
      PresentEnables(View(), proposals, next.value);
      StepIsChoice(View(), step);
      ExtendIsRun(run, step);
      PerformAction(next.value, Extend(run, step));
    }

    /** Performs the action, which takes the run to `next`. */
    method PerformAction(action: Action, ghost next: Run)
      requires IsRun(next) && next.states[|next.steps|] == Perform(View(), action)
      modifies this`run, basicManager
      ensures Valid() && run == next && View() == Perform(old(View()), action)
    {
      PerformOnManaged(View(), action);
      match action.kind {
        case Load => basicManager.LoadServable(action.id);
        case Unload => basicManager.UnloadServable(action.id);
      }
      run := next;
    }

    /**
      One turn of the control loop: flush, absorb, act. A turn that takes no step found none to take,
      so between requests only running loads and unloads can delay progress.
     */
    method ManageState() returns (ghost flushed: State, ghost absorbed: State)
      requires Valid()
      modifies this, basicManager
      ensures Valid() && Continues(run, old(run))
      ensures flushed.pending == old(pending) && IsFlushed(old(basicManager.managed), flushed.managed)
      ensures Handled(flushed, absorbed, {}) && ReaspiringWait(flushed, absorbed) && pending == absorbed.pending
      ensures if IsIdle(absorbed.managed) then View() == absorbed
              else exists action :: IsChoice(absorbed.managed, action) && View() == Perform(absorbed, action)
      ensures run == old(run) ==> forall step :: Enabled(View(), step) ==> step.EnqueueStep? || step.CompleteStep?
    {
      flushed := FlushAndAbsorb();
      absorbed := View();
      InvokePolicyAndExecuteAction();
      if run == old(run) {
        RunKeepsInv(run, |run.steps|);
        NothingToDo(View());
      }
    }

    method FlushAndAbsorb() returns (ghost flushed: State)
      requires Valid()
      modifies this, basicManager
      ensures Valid() && Continues(run, old(run))
      ensures flushed.pending == old(pending) && IsFlushed(old(basicManager.managed), flushed.managed)
      ensures Handled(flushed, View(), {}) && ReaspiringWait(flushed, View())
      ensures run == old(run) ==> flushed == old(View()) == View()
    {
      FlushServables();
      flushed := View();
      HandlePendingAspiredVersionsRequests();
    }

    /** An executor thread moves a load or unload one step further, at any time. */
    method CompleteOneStep(id: ServableId, ok: bool)
      requires Valid() && id in basicManager.managed && InFlight(basicManager.managed[id].state)
      modifies this`run, basicManager`managed
      ensures Valid() && run == Extend(old(run), CompleteStep(id, ok))
    {
      basicManager.CompleteStep(id, ok);
      Record(CompleteStep(id, ok));
    }
  }

  /** Exactly the unaspired versions that were never loaded, are unloaded, or have failed are gone. */
  ghost predicate IsFlushed(before: map<ServableId, Harness>, managed: map<ServableId, Harness>) {
    managed == map id | id in before && (before[id].isAspired || before[id].state !in {New, Disabled, Failed})
      :: before[id]
  }

  /** The requests that ask for a version which was managed but not aspired are left pending, and no others. */
  ghost predicate ReaspiringWait(before: State, s: State) {
    forall name :: name in before.pending ==>
      (name in s.pending <==>
        exists e :: e in before.pending[name] && e.id in before.managed && !before.managed[e.id].isAspired)
  }

  /** No stream proposes anything. */
  ghost predicate IsIdle(managed: map<ServableId, Harness>) {
    forall name :: name in Names(managed) ==> IsNextAction(StreamOf(managed, name), None)
  }

  /** Its own stream proposes the action; if that is a load, no stream proposes an unload. */
  ghost predicate IsChoice(managed: map<ServableId, Harness>, action: Action) {
    && IsNextAction(StreamOf(managed, action.id.name), Some(action))
    && (action.kind == Load ==>
          forall name, v :: name in Names(managed) ==> !CanSpare(StreamOf(managed, name), v))
  }

  /** Where there is nothing to flush, no request that can be absorbed, and no proposal, nothing is enabled. */
  lemma NothingToDo(s: State)
    requires IsFlushed(s.managed, s.managed) && ReaspiringWait(s, s) && IsIdle(s.managed) && Inv(s)
    ensures forall step :: Enabled(s, step) ==> step.EnqueueStep? || step.CompleteStep?
  {
    forall step | Enabled(s, step) ensures step.EnqueueStep? || step.CompleteStep? {
      if step.ActStep? {
        IdlePolicyStaysIdle(s, step);
      } else if step.AbsorbStep? {
        AbsorbEnabledIff(s, step.name);
      }
    }
  }

  lemma StepIsChoice(s: State, step: Step)
    requires step.ActStep? && Enabled(s, step)
    ensures IsChoice(step.snapshot, step.action)
  {
    ActionIsProposed(s, step);
    if step.action.kind == Load {
      forall name | name in Names(step.snapshot) ensures forall v :: !CanSpare(StreamOf(step.snapshot, name), v) {
        UnloadsGoFirst(s, step, name);
      }
    }
  }

  /** A global choice is some stream's own proposal, and none only if no stream has one. */
  lemma ChoiceIsProposed(
    managed: map<ServableId, Harness>, proposals: map<string, Option<Action>>, choice: Option<Action>)
    requires AreProposals(managed, proposals) && IsGlobalChoice(proposals.Values, choice)
    ensures choice.None? <==> forall name :: name in Names(managed) ==> IsNextAction(StreamOf(managed, name), None)
    ensures choice.Some? ==> IsNextAction(StreamOf(managed, choice.value.id.name), choice)
  {
    assert forall name :: name in proposals ==> proposals[name] in proposals.Values;
    if choice.Some? {
      var name :| name in proposals && proposals[name] == choice;
      assert IsNextAction(StreamOf(managed, name), choice);
      assert choice.value.id.name == name;
      assert !IsNextAction(StreamOf(managed, name), None);
    }
  }

  /** An action concerns the basic manager only. */
  lemma PerformOnManaged(s: State, action: Action)
    ensures Perform(s, action)
         == Perform(State(map[], s.managed, map[], s.calls), action).(pending := s.pending, requested := s.requested)
  {
    match action.kind
    case Load => LoadOnManaged(s, action.id);
    case Unload => UnloadOnManaged(s, action.id);
  }

  lemma LoadOnManaged(s: State, id: ServableId)
    ensures L.LoadServable(s, id)
         == L.LoadServable(State(map[], s.managed, map[], s.calls), id).(pending := s.pending, requested := s.requested)
  {}

  lemma UnloadOnManaged(s: State, id: ServableId)
    ensures L.UnloadServable(s, id)
         == L.UnloadServable(State(map[], s.managed, map[], s.calls), id)
              .(pending := s.pending, requested := s.requested)
  {}

  lemma PresentEnables(s: State, proposals: map<string, Option<Action>>, action: Action)
    requires AreProposals(s.managed, proposals) && IsGlobalChoice(proposals.Values, Some(action))
    ensures Enabled(s, ActStep(s.managed, proposals, action))
  {}

  /** The versions seen so far that `next` omits are given up; nothing else has changed. */
  ghost predicate AreUnaspired(
    before: map<ServableId, Harness>, managed: map<ServableId, Harness>, seen: set<ServableId>, next: set<int>)
  {
    managed.Keys == before.Keys && forall id :: id in before ==>
      managed[id] == if id in seen && id.version !in next then Unaspired(before[id]) else before[id]
  }

  lemma UnaspireNext(
    before: map<ServableId, Harness>, managed: map<ServableId, Harness>, seen: set<ServableId>, next: set<int>,
    id: ServableId)
    requires AreUnaspired(before, managed, seen, next) && id in before
    ensures AreUnaspired(before,
      if id.version !in next then managed[id := Unaspired(managed[id])] else managed, seen + {id}, next)
  {}

  /** The versions among those seen that are aspired. */
  ghost predicate AreCollected(before: map<ServableId, Harness>, seen: set<ServableId>, current: set<int>) {
    seen <= before.Keys && forall version :: version in current <==>
      exists id :: id in seen && before[id].isAspired && id.version == version
  }

  lemma CollectNext(before: map<ServableId, Harness>, seen: set<ServableId>, current: set<int>, id: ServableId)
    requires AreCollected(before, seen, current) && id in before
    ensures AreCollected(before, seen + {id}, if before[id].isAspired then current + {id.version} else current)
  {}

  lemma CollectedAreAspired(s: State, name: string, seen: set<ServableId>, current: set<int>)
    requires seen == (set id | id in s.managed && id.name == name) && AreCollected(s.managed, seen, current)
    ensures current == AspiredVersions(s, name)
  {
    forall version ensures version in current <==> version in AspiredVersions(s, name) {
      AspiredMember(s, name, version);
      if version in current {
        var id :| id in seen && s.managed[id].isAspired && id.version == version;
        assert id == ServableId(name, version);
      }
    }
  }

  /** Of the stream, the flushable versions outside `rest` are gone; nothing else has changed. */
  ghost predicate AreFlushed(
    before: map<ServableId, Harness>, managed: map<ServableId, Harness>, name: string, rest: set<ServableId>)
  {
    && (forall id :: id in managed <==> id in before && (id in rest || id.name != name || !Flushable(before[id])))
    && forall id :: id in managed ==> managed[id] == before[id]
  }

  lemma FlushOne(
    before: map<ServableId, Harness>, managed: map<ServableId, Harness>, name: string, rest: set<ServableId>,
    id: ServableId)
    requires AreFlushed(before, managed, name, rest) && id in before && id in rest && id.name == name
    ensures id in managed && managed[id] == before[id]
    ensures AreFlushed(before, if Flushable(before[id]) then managed - {id} else managed, name, rest - {id})
  {}

  /** Each is the policy's proposal for its stream. */
  ghost predicate ArePolicies(managed: map<ServableId, Harness>, proposals: map<string, Option<Action>>) {
    forall name :: name in proposals ==> IsNextAction(StreamOf(managed, name), proposals[name])
  }

  lemma AddProposal(
    managed: map<ServableId, Harness>, proposals: map<string, Option<Action>>, actions: seq<Option<Action>>,
    name: string, action: Option<Action>)
    requires ArePolicies(managed, proposals) && SetOf(actions) == proposals.Values
    requires name !in proposals && IsNextAction(StreamOf(managed, name), action)
    ensures ArePolicies(managed, proposals[name := action])
    ensures SetOf(actions + [action]) == proposals[name := action].Values
  {
    var more := proposals[name := action];
    assert name in more && more[name] == action && forall n :: n in proposals ==> n in more && more[n] == proposals[n];
    assert more.Values == proposals.Values + {action};
  }

  ghost predicate SameHarness(s: State, r: State, id: ServableId) {
    (id in s.managed <==> id in r.managed) && (id in s.managed ==> r.managed[id] == s.managed[id])
  }

  /** `id` keeps its loader and its state. */
  ghost predicate Untouched(s: State, r: State, id: ServableId)
    requires id in s.managed
  {
    id in r.managed && r.managed[id].loader == s.managed[id].loader && r.managed[id].state == s.managed[id].state
  }

  /**
    The pending requests outside `names` have been dealt with: one waits exactly if it re-aspired a
    version in the state on entry. No harness lost its loader or state.
   */
  ghost predicate Handled(before: State, s: State, names: set<string>) {
    && names <= s.pending.Keys <= before.pending.Keys && s.requested == before.requested
    && (forall name :: name in s.pending ==> s.pending[name] == before.pending[name])
    && (forall name :: name in before.pending && name !in names ==>
          (name in s.pending <==> ContainsAnyReaspired(before, name, before.pending[name])))
    && (forall id: ServableId :: id.name !in before.pending || id.name in s.pending ==> SameHarness(before, s, id))
    && (forall id :: id in before.managed ==> Untouched(before, s, id))
  }

  lemma HandleOne(before: State, s: State, r: State, names: set<string>, name: string)
    requires Handled(before, s, names) && name in names && Inv(s)
    requires r == if ContainsAnyReaspired(s, name, s.pending[name]) then s else Absorb(s, name)
    ensures Handled(before, r, names - {name})
  {
    assert forall id: ServableId :: id.name == name ==> SameHarness(before, s, id);
    assert ContainsAnyReaspired(s, name, s.pending[name]) <==> ContainsAnyReaspired(before, name, before.pending[name]);
    if !ContainsAnyReaspired(s, name, s.pending[name]) {
      AbsorbOne(before, s, names, name);
    }
  }

  lemma AbsorbOne(before: State, s: State, names: set<string>, name: string)
    requires Handled(before, s, names) && name in names && Inv(s)
    requires !ContainsAnyReaspired(s, name, s.pending[name])
    requires !ContainsAnyReaspired(before, name, before.pending[name])
    ensures Handled(before, Absorb(s, name), names - {name})
  {
    var r := Absorb(s, name);
    AbsorbIsExact(s, name);
    AbsorbKeepsOthers(s, name);
    forall id: ServableId | id.name !in before.pending || id.name in r.pending ensures SameHarness(before, r, id) {
      assert SameHarness(before, s, id) && SameHarness(s, r, id);
    }
    forall id | id in before.managed ensures Untouched(before, r, id) {
      assert Untouched(before, s, id);
    }
  }

  /** Other streams do not change. */
  lemma AbsorbKeepsOthers(s: State, name: string)
    requires Inv(s) && Enabled(s, AbsorbStep(name))
    ensures forall id: ServableId :: id.name != name ==> SameHarness(s, Absorb(s, name), id)
  {
    AbsorbIsExact(s, name);
    forall id: ServableId | id.name != name && id in s.managed ensures Absorb(s, name).managed[id] == s.managed[id] {
      assert IsAfterAbsorb(name, s.pending[name], id, s.managed[id], Absorb(s, name).managed[id]);
    }
  }

  lemma RequestsAreMet(s: State, r: State)
    requires TracksRequests(s) && TracksRequests(r) && r.requested == s.requested
    ensures forall id: ServableId :: id.name in s.pending && id.name !in r.pending ==>
      (Lists(s.pending[id.name], id) <==> id in r.managed && r.managed[id].isAspired)
  {
    forall id: ServableId | id.name in s.pending && id.name !in r.pending
      ensures Lists(s.pending[id.name], id) <==> id in r.managed && r.managed[id].isAspired
    {
      assert Wanted(r, id) <==> Wanted(s, id);
      VersionMember(s.pending[id.name], id.name, id.version);
      assert ServableId(id.name, id.version) == id;
    }
  }

  lemma RequestsThatWait(s: State, r: State)
    requires TracksRequests(s) && Handled(s, r, {})
    ensures ReaspiringWait(s, r)
  {
    forall name | name in s.pending
      ensures name in r.pending <==> exists e :: e in s.pending[name] && e.id in s.managed && !s.managed[e.id].isAspired
    {
      ReaspiredIff(s, name, s.pending[name]);
    }
  }
}
