/** Sums over the values of a finite map. */
module MapSum {

  ghost function Sum<K>(m: map<K, nat>): nat {
    if m == map[] then 0 else var k :| k in m; m[k] + Sum(m - {k})
  }

  lemma {:induction false} SumRemove<K>(m: map<K, nat>, k: K)
    requires k in m
    ensures Sum(m) == m[k] + Sum(m - {k})
  {
    var j :| j in m && Sum(m) == m[j] + Sum(m - {j});
    if j != k {
      SumRemove(m - {j}, k);
      SumRemove(m - {k}, j);
      assert m - {j} - {k} == m - {k} - {j};
    }
  }

  lemma SumUpdate<K>(m: map<K, nat>, k: K, v: nat)
    ensures Sum(m[k := v]) == Sum(m) + v - if k in m then m[k] else 0
  {
    SumRemove(m[k := v], k);
    if k in m {
      SumRemove(m, k);
      assert m[k := v] - {k} == m - {k};
    } else {
      assert m[k := v] - {k} == m;
    }
  }
}

/** Once requests stop, the control loop comes to rest, and where it rests. */
module Convergence {
  import opened Common
  import opened MapSum
  import opened VersionPolicy
  import opened VersionLifecycle
  import opened LifecycleInvariants

  // ---------- A bound on the remaining steps ----------

  ghost function Ranks(managed: map<ServableId, Harness>): map<ServableId, nat> {
    map id | id in managed :: Rank(managed[id].state)
  }

  ghost function Weights(pending: map<string, seq<Entry>>): map<string, nat> {
    map name | name in pending :: 1 + 10 * |pending[name]|
  }

  /** How many more steps can be taken without a new request, at most. */
  ghost function Measure(s: State): nat {
    Sum(Weights(s.pending)) + Sum(Ranks(s.managed))
  }

  lemma SetStateRank(s: State, id: ServableId, state: HarnessState)
    requires id in s.managed
    ensures Sum(Ranks(SetState(s, id, state).managed))
      == Sum(Ranks(s.managed)) + Rank(state) - Rank(s.managed[id].state)
  {
    assert Ranks(SetState(s, id, state).managed) == Ranks(s.managed)[id := Rank(state)];
    SumUpdate(Ranks(s.managed), id, Rank(state));
  }

  lemma {:induction false} AdditionsRank(s: State, request: seq<Entry>, additions: set<int>)
    ensures Sum(Ranks(ManageAdditions(s, request, additions).managed)) <= Sum(Ranks(s.managed)) + 10 * |request|
    ensures ManageAdditions(s, request, additions).pending == s.pending
  {
    if request != [] {
      var init, last := request[..|request| - 1], request[|request| - 1];
      var mid := ManageAdditions(s, init, additions);
      AdditionsRank(s, init, additions);
      ManageRank(mid, last);
    }
  }

  lemma ManageRank(s: State, e: Entry)
    ensures Sum(Ranks(ManageServable(s, e).managed)) <= Sum(Ranks(s.managed)) + 10
    ensures ManageServable(s, e).pending == s.pending
  {
    if e.id !in s.managed {
      var rank := Rank(if e.healthy then New else Failed);
      ManageIsExact(s, e);
      assert Ranks(ManageServable(s, e).managed) == Ranks(s.managed)[e.id := rank];
      SumUpdate(Ranks(s.managed), e.id, rank);
    }
  }

  lemma ProcessRank(s: State, name: string, request: seq<Entry>)
    ensures Sum(Ranks(ProcessRequest(s, name, request).managed)) <= Sum(Ranks(s.managed)) + 10 * |request|
    ensures ProcessRequest(s, name, request).pending == s.pending
  {
    var cleared := Unaspire(s, name, VersionsOf(request));
    assert Ranks(cleared.managed) == Ranks(s.managed);
    AdditionsRank(cleared, request, VersionsOf(request) - AspiredVersions(s, name));
  }

  lemma AbsorbDecreases(s: State, name: string)
    requires name in s.pending
    ensures Measure(Absorb(s, name)) < Measure(s)
  {
    ProcessRank(s, name, s.pending[name]);
    assert Weights(s.pending - {name}) == Weights(s.pending) - {name};
    SumRemove(Weights(s.pending), name);
  }

  lemma FlushDecreases(s: State, id: ServableId)
    requires Enabled(s, FlushStep(id))
    ensures Measure(StopManagingServable(s, id)) < Measure(s)
  {
    assert Ranks(StopManagingServable(s, id).managed) == Ranks(s.managed) - {id};
    SumRemove(Ranks(s.managed), id);
  }

  lemma LoadDecreases(s: State, id: ServableId)
    requires id in s.managed && s.managed[id].state.New?
    ensures Measure(LoadServable(s, id)) < Measure(s)
  {
    SetStateRank(s, id, LoadRequested);
  }

  lemma UnloadDecreases(s: State, id: ServableId)
    requires id in s.managed && s.managed[id].state.Ready?
    ensures Measure(UnloadServable(s, id)) < Measure(s)
  {
    SetStateRank(s, id, UnloadRequested);
  }

  lemma ActDecreases(s: State, step: Step)
    requires step.ActStep? && Enabled(s, step)
    ensures Measure(Perform(s, step.action)) < Measure(s)
  {
    ActionApplies(s, step);
    match step.action.kind
    case Load => LoadDecreases(s, step.action.id);
    case Unload => UnloadDecreases(s, step.action.id);
  }

  /** Every step but a new request makes progress. */
  lemma StepDecreases(s: State, step: Step)
    requires Enabled(s, step) && !step.EnqueueStep?
    ensures Measure(Apply(s, step)) < Measure(s)
  {
    match step
    case AbsorbStep(name) => AbsorbDecreases(s, name);
    case FlushStep(id) => FlushDecreases(s, id);
    case ActStep(_, _, _) => ActDecreases(s, step);
    case CompleteStep(id, ok) => CompleteDecreases(s, id, ok);
  }

  lemma AdvanceLowersRank(state: HarnessState, ok: bool)
    requires InFlight(state)
    ensures Rank(Advance(state, ok)) < Rank(state)
  {}

  lemma CompleteDecreases(s: State, id: ServableId, ok: bool)
    requires id in s.managed && InFlight(s.managed[id].state)
    ensures Measure(SetState(s, id, Advance(s.managed[id].state, ok))) < Measure(s)
  {
    AdvanceLowersRank(s.managed[id].state, ok);
    SetStateRank(s, id, Advance(s.managed[id].state, ok));
  }

  /** Between requests, a run takes at most `Measure` steps. */
  lemma {:induction false} QuietRunIsBounded(r: Run, i: nat, j: nat)
    requires IsRun(r) && i <= j < |r.states|
    requires forall k :: i <= k < j ==> !r.steps[k].EnqueueStep?
    ensures j - i + Measure(r.states[j]) <= Measure(r.states[i])
  {
    if i < j {
      QuietRunIsBounded(r, i, j - 1);
      RunKeepsInv(r, j - 1);
      StepDecreases(r.states[j - 1], r.steps[j - 1]);
    }
  }

  // ---------- Where the loop rests ----------

  /** Nothing but a new request can happen. */
  ghost predicate AtRest(s: State) {
    forall step :: Enabled(s, step) ==> step.EnqueueStep?
  }

  /** `id` is the last available version of a stream all of whose aspired versions failed to load. */
  ghost predicate LoneSurvivor(s: State, id: ServableId) {
    && id in s.managed && !s.managed[id].isAspired && s.managed[id].state.Ready?
    && HasAspired(s, id.name)
    && forall other :: other in s.managed && other.name == id.name && other != id ==>
         s.managed[other].isAspired && s.managed[other].state.Failed?
  }

  /** The shape of a state of rest: aspired versions ready or failed, lone survivors, and requests that wait for one. */
  ghost predicate Stalled(s: State) {
    && (forall id :: id in s.managed && s.managed[id].isAspired ==> s.managed[id].state in {Ready, Failed})
    && (forall id :: id in s.managed && !s.managed[id].isAspired ==> LoneSurvivor(s, id))
    && (forall name :: name in s.pending ==>
          exists e :: e in s.pending[name] && e.id in s.managed && !s.managed[e.id].isAspired)
  }

  /** A lone survivor's stream, as any snapshot shows it, gives the policy no reason to unload. */
  lemma SurvivorStays(s: State, id: ServableId, snapshot: map<ServableId, Harness>)
    requires LoneSurvivor(s, id) && Lagging(snapshot, s.managed)
    ensures !MayUnload(StreamOf(snapshot, id.name))
  {
    var stream := StreamOf(snapshot, id.name);
    var aspired :| aspired in s.managed && aspired.name == id.name && s.managed[aspired].isAspired;
    assert Snapshot(aspired, snapshot[aspired].state, true) in stream;
    forall v | v in stream ensures v.state.Ready? ==> v == Snapshot(id, Ready, false) {
      assert Reaches(snapshot[v.id].state, s.managed[v.id].state);
    }
  }

  lemma StalledIsAtRest(s: State, step: Step)
    requires Inv(s) && Stalled(s) && Enabled(s, step)
    ensures step.EnqueueStep?
  {
    if step.AbsorbStep? {
      AbsorbEnabledIff(s, step.name);
    } else if step.ActStep? {
      ActionApplies(s, step);
      ActionIsProposed(s, step);
      SurvivorStays(s, step.action.id, step.snapshot);
    }
  }

  ghost predicate HasProposal(managed: map<ServableId, Harness>, name: string) {
    exists a :: IsNextAction(StreamOf(managed, name), a)
  }

  lemma EveryStreamHasProposal(managed: map<ServableId, Harness>)
    ensures forall name :: HasProposal(managed, name)
  {
    forall name ensures HasProposal(managed, name) {
      var a := NextActionExists(StreamOf(managed, name));
    }
  }

  /** Each stream's proposal, as the policy would make it now. */
  ghost function Proposals(managed: map<ServableId, Harness>): (proposals: map<string, Option<Action>>)
    ensures AreProposals(managed, proposals)
  {
    EveryStreamHasProposal(managed);
    map name | name in Names(managed) ::
      assert HasProposal(managed, name);
      var a :| IsNextAction(StreamOf(managed, name), a); a
  }

  /** A proposal in any stream lets the manager act. */
  lemma ProposalEnablesAct(s: State, name: string) returns (step: Step)
    requires name in Names(s.managed) && Proposals(s.managed)[name].Some?
    ensures step.ActStep? && Enabled(s, step)
  {
    var proposals := Proposals(s.managed);
    var choice := SomeChoice(proposals.Values, proposals[name]);
    step := ActStep(s.managed, proposals, choice);
    assert forall id :: id in s.managed ==> Reaches(s.managed[id].state, s.managed[id].state);
  }

  lemma SomeChoice(proposals: set<Option<Action>>, some: Option<Action>) returns (choice: Action)
    requires some in proposals && some.Some?
    ensures IsGlobalChoice(proposals, Some(choice))
  {
    if p :| p in proposals && p.Some? && p.value.kind == Unload {
      choice := p.value;
    } else {
      choice := some.value;
    }
  }

  lemma RestingHarness(s: State, id: ServableId)
    requires Inv(s) && AtRest(s) && id in s.managed
    ensures s.managed[id].state.Ready? || (s.managed[id].isAspired && s.managed[id].state.Failed?)
    ensures IsNextAction(StreamOf(s.managed, id.name), None)
  {
    assert !Enabled(s, CompleteStep(id, true)) && !Enabled(s, FlushStep(id));
    RestingStream(s, id);
    RestMeansNotNew(s, id);
  }

  lemma RestingStream(s: State, id: ServableId)
    requires AtRest(s) && id in s.managed
    ensures IsNextAction(StreamOf(s.managed, id.name), None)
  {
    assert id.name in Names(s.managed);
    if Proposals(s.managed)[id.name].Some? {
      var step := ProposalEnablesAct(s, id.name);
      assert false;
    }
  }

  lemma RestMeansNotNew(s: State, id: ServableId)
    requires id in s.managed && IsNextAction(StreamOf(s.managed, id.name), None)
    ensures s.managed[id].isAspired ==> !s.managed[id].state.New?
  {
    assert Snapshot(id, New, true) !in AspiredNew(StreamOf(s.managed, id.name));
  }

  lemma RestingSurvivor(s: State, id: ServableId)
    requires Inv(s) && AtRest(s) && id in s.managed && !s.managed[id].isAspired
    ensures LoneSurvivor(s, id)
  {
    RestingHarness(s, id);
    var stream := StreamOf(s.managed, id.name);
    assert Snapshot(id, Ready, false) in UnaspiredReady(stream);
    assert !MayUnload(stream);
    var v :| v in stream && v.isAspired;
    assert v.id in s.managed;
    forall other | other in s.managed && other.name == id.name && other != id
      ensures s.managed[other].isAspired && s.managed[other].state.Failed?
    {
      RestingHarness(s, other);
      var w := Snapshot(other, s.managed[other].state, s.managed[other].isAspired);
      assert w in stream;
      assert !w.isAspired ==> w in UnaspiredReady(stream);
    }
  }

  /** The loop is at rest exactly in the stalled states. */
  lemma AtRestIffStalled(s: State)
    requires Inv(s)
    ensures AtRest(s) <==> Stalled(s)
  {
    if AtRest(s) {
      forall id | id in s.managed
        ensures if s.managed[id].isAspired then s.managed[id].state in {Ready, Failed} else LoneSurvivor(s, id)
      {
        RestingHarness(s, id);
        if !s.managed[id].isAspired {
          RestingSurvivor(s, id);
        }
      }
      forall name | name in s.pending
        ensures exists e :: e in s.pending[name] && e.id in s.managed && !s.managed[e.id].isAspired
      {
        assert !Enabled(s, AbsorbStep(name));
        AbsorbEnabledIff(s, name);
      }
    }
    if Stalled(s) {
      forall step | Enabled(s, step) ensures step.EnqueueStep? {
        StalledIsAtRest(s, step);
      }
    }
  }

  /** If no stream proposes anything now, none would from an older snapshot either. */
  lemma IdlePolicyStaysIdle(s: State, step: Step)
    requires forall name :: name in Names(s.managed) ==> IsNextAction(StreamOf(s.managed, name), None)
    requires step.ActStep?
    ensures !Enabled(s, step)
  {
    if Enabled(s, step) {
      var id := step.action.id;
      ActionApplies(s, step);
      ActionIsProposed(s, step);
      assert id.name in Names(s.managed);
      var earlier, now := StreamOf(step.snapshot, id.name), StreamOf(s.managed, id.name);
      RestMeansNotNew(s, id);
      assert Snapshot(id, s.managed[id].state, s.managed[id].isAspired) in now;
      assert step.action.kind == Unload && Snapshot(id, Ready, false) in UnaspiredReady(now);
      LagKeepsMayUnload(s, step.snapshot, id.name);
    }
  }

  lemma LagKeepsMayUnload(s: State, snapshot: map<ServableId, Harness>, name: string)
    requires Lagging(snapshot, s.managed) && MayUnload(StreamOf(snapshot, name))
    ensures MayUnload(StreamOf(s.managed, name))
  {
    var earlier, now := StreamOf(snapshot, name), StreamOf(s.managed, name);
    forall v | v in earlier && v.state.Ready? ensures v in now {
      assert Reaches(snapshot[v.id].state, s.managed[v.id].state);
    }
    if v :| v in now && v.isAspired {
      assert Snapshot(v.id, snapshot[v.id].state, true) in earlier;
      if v, w :| v in UnaspiredReady(earlier) && w in UnaspiredReady(earlier) && v != w {
        assert v in UnaspiredReady(now) && w in UnaspiredReady(now);
      }
    }
  }

  // ---------- Runs in which every load succeeds ----------

  ghost predicate Healthy(request: seq<Entry>) {
    forall e :: e in request ==> e.healthy
  }

  /** The step offers only healthy versions and completes without failure. */
  ghost predicate Succeeds(step: Step) {
    (step.EnqueueStep? ==> Healthy(step.request)) && (step.CompleteStep? ==> step.ok)
  }

  ghost predicate NoFailures(s: State) {
    && (forall id :: id in s.managed ==> !s.managed[id].state.Failed?)
    && (forall name :: name in s.pending ==> Healthy(s.pending[name]))
  }

  lemma StepKeepsNoFailures(s: State, step: Step)
    requires Inv(s) && NoFailures(s) && Enabled(s, step) && Succeeds(step)
    ensures NoFailures(Apply(s, step))
  {
    if step.AbsorbStep? {
      AbsorbIsExact(s, step.name);
    } else if step.ActStep? {
      ActKeepsNoFailures(s, step);
    }
  }

  lemma ActKeepsNoFailures(s: State, step: Step)
    requires NoFailures(s) && step.ActStep? && Enabled(s, step)
    ensures NoFailures(Perform(s, step.action))
  {
    ActionApplies(s, step);
    PerformKeepsNoFailures(s, step.action);
  }

  lemma PerformKeepsNoFailures(s: State, action: Action)
    requires NoFailures(s)
    ensures NoFailures(Perform(s, action))
  {}

  lemma {:induction false} RunKeepsNoFailures(r: Run, i: nat)
    requires IsRun(r) && i < |r.states|
    requires forall k :: 0 <= k < i ==> Succeeds(r.steps[k])
    ensures NoFailures(r.states[i])
  {
    if i > 0 {
      RunKeepsNoFailures(r, i - 1);
      RunKeepsInv(r, i - 1);
      StepKeepsNoFailures(r.states[i - 1], r.steps[i - 1]);
    }
  }

  /** Nothing pending; exactly the requested versions managed, all ready. */
  ghost predicate Settled(s: State) {
    && s.pending == map[]
    && forall id :: if Wanted(s, id) then id in s.managed && s.managed[id].isAspired && s.managed[id].state.Ready?
                    else id !in s.managed
  }

  lemma NoSurvivor(s: State, id: ServableId)
    requires NoFailures(s)
    ensures !LoneSurvivor(s, id)
  {}

  /**
    Convergence: if every load succeeds, the loop is at rest exactly when nothing is pending and each
    stream's managed versions are the last requested ones, all ready.
   */
  lemma AtRestIffSettled(r: Run, i: nat)
    requires IsRun(r) && i < |r.states|
    requires forall k :: 0 <= k < i ==> Succeeds(r.steps[k])
    ensures AtRest(r.states[i]) <==> Settled(r.states[i])
  {
    var s := r.states[i];
    RunKeepsInv(r, i);
    RunKeepsNoFailures(r, i);
    AtRestIffStalled(s);
    if Stalled(s) {
      forall id | id in s.managed ensures s.managed[id].isAspired {
        NoSurvivor(s, id);
      }
      assert s.pending == map[];
    }
  }

  /** The request still waits in `r.states[j]`, as it was enqueued, or has been absorbed as such since `i`. */
  ghost predicate IsTakenUp(r: Run, i: nat, j: nat, name: string, request: seq<Entry>)
    requires i < j < |r.states| && j <= |r.steps| < |r.states|
  {
    || (name in r.states[j].pending && r.states[j].pending[name] == request)
    || (name !in r.states[j].pending && exists k: nat :: i < k < j && AbsorbsAt(r, k, name, request))
  }

  ghost predicate AbsorbsAt(r: Run, k: nat, name: string, request: seq<Entry>) {
    && k < |r.steps| && k < |r.states| && r.steps[k] == AbsorbStep(name)
    && name in r.states[k].pending && r.states[k].pending[name] == request
  }

  /** The last conforming request of a stream is the one that counts, with the loaders that it offers. */
  lemma {:induction false} LastRequestCounts(r: Run, i: nat, j: nat, name: string, request: seq<Entry>)
    requires IsRun(r) && i < j < |r.states|
    requires r.steps[i] == EnqueueStep(name, request) && forall e :: e in request ==> e.id.name == name
    requires forall k :: i < k < j && r.steps[k].EnqueueStep? && r.steps[k].name == name ==>
      exists e :: e in r.steps[k].request && e.id.name != name
    ensures name in r.states[j].requested && r.states[j].requested[name] == set e | e in request :: e.id.version
    ensures IsTakenUp(r, i, j, name, request)
  {
    if i < j - 1 {
      LastRequestCounts(r, i, j - 1, name, request);
      RunStepKeepsRequested(r, j - 1, name);
      RunKeepsTakenUp(r, i, j - 1, name, request);
    } else {
      RunKeepsInv(r, i);
    }
  }

  lemma RunKeepsTakenUp(r: Run, i: nat, j: nat, name: string, request: seq<Entry>)
    requires IsRun(r) && i < j < |r.steps| && IsTakenUp(r, i, j, name, request)
    requires r.steps[j].EnqueueStep? && r.steps[j].name == name ==> !Conforms(name, r.steps[j].request)
    ensures IsTakenUp(r, i, j + 1, name, request)
  {
    RunKeepsInv(r, j);
    StepKeepsPending(r.states[j], r.steps[j], name);
    if name in r.states[j].pending && r.steps[j] == AbsorbStep(name) {
      assert AbsorbsAt(r, j, name, request);
    }
  }

  lemma StepKeepsPending(s: State, step: Step, name: string)
    requires Inv(s) && Enabled(s, step)
    requires step.EnqueueStep? && step.name == name ==> !Conforms(name, step.request)
    ensures name in Apply(s, step).pending <==> name in s.pending && step != AbsorbStep(name)
    ensures name in Apply(s, step).pending ==> Apply(s, step).pending[name] == s.pending[name]
  {
    if step.AbsorbStep? {
      AbsorbIsExact(s, step.name);
    } else if step.ActStep? {
      PerformKeepsRequested(s, step.action);
    }
  }

  lemma RunStepKeepsRequested(r: Run, k: nat, name: string)
    requires IsRun(r) && k < |r.steps| && name in r.states[k].requested
    requires r.steps[k].EnqueueStep? && r.steps[k].name == name ==> !Conforms(name, r.steps[k].request)
    ensures name in r.states[k + 1].requested && r.states[k + 1].requested[name] == r.states[k].requested[name]
  {
    RunKeepsInv(r, k);
    StepKeepsRequested(r.states[k], r.steps[k], name);
  }

  lemma StepKeepsRequested(s: State, step: Step, name: string)
    requires Inv(s) && Enabled(s, step) && name in s.requested
    requires step.EnqueueStep? && step.name == name ==> !Conforms(name, step.request)
    ensures name in Apply(s, step).requested && Apply(s, step).requested[name] == s.requested[name]
  {
    if step.AbsorbStep? {
      AbsorbIsExact(s, step.name);
    } else if step.ActStep? {
      PerformKeepsRequested(s, step.action);
    }
  }

  lemma PerformKeepsRequested(s: State, action: Action)
    ensures Perform(s, action).requested == s.requested && Perform(s, action).pending == s.pending
  {}
}
