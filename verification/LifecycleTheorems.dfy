/** Run-level guarantees of the aspired-versions manager. */
module LifecycleTheorems {
  import opened VersionPolicy
  import opened VersionLifecycle
  import opened LifecycleInvariants

  // ---------- Call order and single loaders ----------

  /** On every run the calls about each id keep the required order, and an aspired harness is never being unloaded. */
  lemma CallOrderHolds(r: Run, i: nat, id: ServableId)
    requires IsRun(r) && i < |r.states|
    ensures Track(CallsOf(r.states[i], id)) != Broken
    ensures Track(CallsOf(r.states[i], id)) == Absent <==> id !in r.states[i].managed
    ensures id in r.states[i].managed && r.states[i].managed[id].isAspired ==>
      && r.states[i].managed[id].state in {New, LoadRequested, LoadApproved, Loading, Ready, Failed}
      && !r.states[i].managed[id].retryCancelled
    ensures id in r.states[i].managed && !r.states[i].managed[id].isAspired ==>
      r.states[i].managed[id].retryCancelled || r.states[i].managed[id].state.Failed?
  {
    RunKeepsInv(r, i);
    assert PhaseMatches(r.states[i], id);
  }

  lemma {:induction false} PrefixNotBroken(calls: seq<Call>, k: nat)
    requires k <= |calls| && Track(calls) != Broken
    ensures Track(calls[..k]) != Broken
  {
    if k < |calls| {
      PrefixNotBroken(calls[..|calls| - 1], k);
      assert calls[..|calls| - 1][..k] == calls[..k];
    } else {
      assert calls[..k] == calls;
    }
  }

  lemma {:induction false} LoadedUntilNextCall(calls: seq<Call>, k: nat, m: nat, loader: nat)
    requires k < m <= |calls| && Track(calls[..m]) != Broken && calls[k] == LoadCall(loader)
    requires forall x :: k < x < m ==> calls[x] == Refused
    ensures Track(calls[..m]) == Loaded(loader)
  {
    assert calls[..m][..m - 1] == calls[..m - 1];
    if m > k + 1 {
      LoadedUntilNextCall(calls, k, m - 1, loader);
    }
  }

  /** Once a loader has been asked to load an id, the next call for that id goes to the same loader. */
  lemma SingleLoader(r: Run, i: nat, id: ServableId, k: nat, m: nat, loader: nat)
    requires IsRun(r) && i < |r.states|
    requires var calls := CallsOf(r.states[i], id);
      && k < m < |calls| && calls[k] == LoadCall(loader) && calls[m] != Refused
      && forall x :: k < x < m ==> calls[x] == Refused
    ensures CallsOf(r.states[i], id)[m] in {UnloadCall(loader), StopCall(loader)}
  {
    var calls := CallsOf(r.states[i], id);
    CallOrderHolds(r, i, id);
    PrefixNotBroken(calls, m);
    PrefixNotBroken(calls, m + 1);
    LoadedUntilNextCall(calls, k, m, loader);
    assert calls[..m + 1][..m] == calls[..m];
  }

  // ---------- Where harnesses come from, and how they move ----------

  /** The stream's pending request was enqueued, with these entries, before `r.states[i]`. */
  ghost predicate IsEnqueued(r: Run, i: nat, name: string, request: seq<Entry>) {
    exists k: nat :: k < i && k < |r.steps| && r.steps[k] == EnqueueStep(name, request)
  }

  /** A request enqueued before `r.states[i]` offers this loader for this id. */
  ghost predicate IsOffered(r: Run, i: nat, id: ServableId, loader: nat) {
    exists request, e: Entry :: IsEnqueued(r, i, id.name, request) && e in request && e.id == id && e.loader == loader
  }

  ghost predicate AllOffered(r: Run, i: nat)
    requires i < |r.states|
  {
    && (forall name :: name in r.states[i].pending ==> IsEnqueued(r, i, name, r.states[i].pending[name]))
    && (forall id :: id in r.states[i].managed ==> IsOffered(r, i, id, r.states[i].managed[id].loader))
  }

  lemma OfferedStays(r: Run, i: nat)
    ensures forall name, request :: IsEnqueued(r, i, name, request) ==> IsEnqueued(r, i + 1, name, request)
    ensures forall id, loader :: IsOffered(r, i, id, loader) ==> IsOffered(r, i + 1, id, loader)
  {
    forall id, loader | IsOffered(r, i, id, loader) ensures IsOffered(r, i + 1, id, loader) {
      var request, e: Entry :| IsEnqueued(r, i, id.name, request) && e in request && e.id == id && e.loader == loader;
      assert IsEnqueued(r, i + 1, id.name, request);
    }
  }

  /** What one step does to the loaders and the pending requests. */
  lemma LoadersOfStep(s: State, step: Step)
    requires Inv(s) && Enabled(s, step)
    ensures var t := Apply(s, step);
      && (forall name :: name in t.pending ==>
            || (name in s.pending && t.pending[name] == s.pending[name])
            || step == EnqueueStep(name, t.pending[name]))
      && (forall id :: id in t.managed ==>
            || (id in s.managed && t.managed[id].loader == s.managed[id].loader)
            || (step == AbsorbStep(id.name) && Offers(s.pending[id.name], id, t.managed[id])))
  {
    if step.AbsorbStep? {
      AbsorbIsExact(s, step.name);
    } else if step.ActStep? {
      ActKeepsLoaders(s, step);
    }
  }

  lemma ActKeepsLoaders(s: State, step: Step)
    requires step.ActStep? && Enabled(s, step)
    ensures var t := Perform(s, step.action);
      && t.pending == s.pending && t.managed.Keys == s.managed.Keys
      && forall id :: id in t.managed ==> t.managed[id].loader == s.managed[id].loader
  {
    ActionApplies(s, step);
  }

  lemma OfferIsOffered(r: Run, i: nat, id: ServableId, h: Harness, request: seq<Entry>)
    requires IsEnqueued(r, i, id.name, request) && Offers(request, id, h)
    ensures IsOffered(r, i, id, h.loader)
  {
    var k: nat :| OffersAt(request, k, id, h);
    assert request[k] in request;
  }

  /** Every harness has a loader that a request of its own stream offered for its own id. */
  lemma {:induction false} LoadersAreOffered(r: Run, i: nat)
    requires IsRun(r) && i < |r.states|
    ensures AllOffered(r, i)
  {
    if i > 0 {
      LoadersAreOffered(r, i - 1);
      RunKeepsInv(r, i - 1);
      OfferedStays(r, i - 1);
      var s, step, t := r.states[i - 1], r.steps[i - 1], r.states[i];
      LoadersOfStep(s, step);
      forall name | name in t.pending ensures IsEnqueued(r, i, name, t.pending[name]) {
        if step != EnqueueStep(name, t.pending[name]) {
          assert IsEnqueued(r, i - 1, name, s.pending[name]);
        }
      }
      forall id | id in t.managed ensures IsOffered(r, i, id, t.managed[id].loader) {
        if id in s.managed && t.managed[id].loader == s.managed[id].loader {
          assert IsOffered(r, i - 1, id, s.managed[id].loader);
        } else {
          OfferIsOffered(r, i - 1, id, t.managed[id], s.pending[id.name]);
        }
      }
    }
  }

  /** The ways from one harness state to another, with the call or completion that takes it there. */
  ghost predicate IsTransition(step: Step, id: ServableId, h: HarnessState, h': HarnessState) {
    match step
    case ActStep(_, _, action) =>
      && action.id == id
      && (if action.kind == Load then h == New && h' == LoadRequested else h == Ready && h' == UnloadRequested)
    case CompleteStep(other, ok) =>
      other == id &&
      if ok then
        (h, h') in {(LoadRequested, LoadApproved), (LoadApproved, Loading), (Loading, Ready),
          (UnloadRequested, Quiescing), (Quiescing, Quiesced), (Quiesced, Unloading), (Unloading, Disabled)}
      else
        (h, h') in {(LoadRequested, Failed), (LoadApproved, Loading), (Loading, Failed),
          (UnloadRequested, Quiescing), (Quiescing, Quiesced), (Quiesced, Unloading), (Unloading, Disabled)}
    case _ => false
  }

  /**
    The life of a harness, on every run. It changes its state only by the load or unload call for it and by
    its completions, in the loader's order; each such step does change it; it begins as new or failed, and
    goes only when it is unaspired and new, disabled or failed.
   */
  lemma HarnessesMoveInOrder(r: Run, k: nat, id: ServableId)
    requires IsRun(r) && k < |r.steps|
    ensures var s, step, t := r.states[k], r.steps[k], r.states[k + 1];
      && (id in s.managed && id in t.managed ==>
            if IsAbout(step, id) then IsTransition(step, id, s.managed[id].state, t.managed[id].state)
            else t.managed[id].state == s.managed[id].state)
      && (id in t.managed && id !in s.managed ==>
            step == AbsorbStep(id.name) && t.managed[id].state in {New, Failed} && t.managed[id].isAspired)
      && (id in s.managed && id !in t.managed ==>
            step == FlushStep(id) && !s.managed[id].isAspired && s.managed[id].state in {New, Disabled, Failed})
  {
    var s, step := r.states[k], r.steps[k];
    RunKeepsInv(r, k);
    if step.AbsorbStep? {
      AbsorbIsExact(s, step.name);
    } else if step.ActStep? {
      ActMovesOne(s, step, id);
    }
  }

  ghost predicate IsAbout(step: Step, id: ServableId) {
    (step.ActStep? && step.action.id == id) || (step.CompleteStep? && step.id == id)
  }

  lemma ActMovesOne(s: State, step: Step, id: ServableId)
    requires step.ActStep? && Enabled(s, step)
    ensures var t := Perform(s, step.action);
      && (id in s.managed <==> id in t.managed)
      && (id in s.managed && id != step.action.id ==> t.managed[id] == s.managed[id])
      && (id == step.action.id && id in s.managed ==>
            IsTransition(step, id, s.managed[id].state, t.managed[id].state))
  {
    ActionApplies(s, step);
    if id != step.action.id && id in s.managed {
      PerformKeepsOthers(s, step.action, id);
    }
  }

  /** A snapshot stays good while requests are enqueued and loads and unloads make progress. */
  lemma {:induction false} SnapshotsMayLag(r: Run, i: nat, j: nat)
    requires IsRun(r) && i <= j < |r.states|
    requires forall k :: i <= k < j ==> r.steps[k].EnqueueStep? || r.steps[k].CompleteStep?
    ensures Lagging(r.states[i].managed, r.states[j].managed)
  {
    if i < j {
      SnapshotsMayLag(r, i, j - 1);
      RunKeepsInv(r, j - 1);
      LagGrows(r.states[i].managed, r.states[j - 1], r.steps[j - 1]);
    } else {
      assert forall id :: id in r.states[i].managed ==>
        Reaches(r.states[i].managed[id].state, r.states[i].managed[id].state);
    }
  }

  lemma LagGrows(snapshot: map<ServableId, Harness>, s: State, step: Step)
    requires Lagging(snapshot, s.managed) && Enabled(s, step) && (step.EnqueueStep? || step.CompleteStep?)
    ensures Lagging(snapshot, Apply(s, step).managed)
  {
    if step.CompleteStep? {
      ReachesOn(snapshot[step.id].state, s.managed[step.id].state, step.ok);
    }
  }

  lemma ReachesOn(earlier: HarnessState, state: HarnessState, ok: bool)
    requires Reaches(earlier, state) && InFlight(state)
    ensures Reaches(earlier, Advance(state, ok))
  {}

  /** Unloads go first: a load is chosen only if no stream has a version that may go. */
  lemma UnloadsGoFirst(s: State, step: Step, name: string)
    requires Enabled(s, step) && step.ActStep? && step.action.kind == Load && name in Names(step.snapshot)
    ensures forall v :: !CanSpare(StreamOf(step.snapshot, name), v)
  {
    NextActionIs(StreamOf(step.snapshot, name), step.proposals[name]);
    assert step.proposals[name] in step.proposals.Values;
  }

  // ---------- No spontaneous unloading ----------

  /** `id` is managed and aspired, and a pending request for its stream still lists it. */
  ghost predicate Kept(s: State, id: ServableId) {
    id in s.managed && s.managed[id].isAspired && (id.name in s.pending ==> Lists(s.pending[id.name], id))
  }

  /** The step enqueues no request that omits `id` from its stream. */
  ghost predicate DoesNotOmit(step: Step, id: ServableId) {
    step.EnqueueStep? && step.name == id.name && Conforms(step.name, step.request) ==> Lists(step.request, id)
  }

  ghost predicate Removes(step: Step, id: ServableId) {
    || step == FlushStep(id)
    || (step.ActStep? && step.action == Action(Unload, id))
  }

  lemma StepKeeps(s: State, step: Step, id: ServableId)
    requires Inv(s) && Enabled(s, step) && Kept(s, id) && DoesNotOmit(step, id)
    ensures Kept(Apply(s, step), id) && Apply(s, step).managed[id].loader == s.managed[id].loader
    ensures !Removes(step, id)
  {
    if step.AbsorbStep? {
      AbsorbKeeps(s, step.name, id);
    } else if step.ActStep? {
      ActKeeps(s, step, id);
    }
  }

  lemma AbsorbKeeps(s: State, name: string, id: ServableId)
    requires Inv(s) && Enabled(s, AbsorbStep(name)) && Kept(s, id)
    ensures Kept(Absorb(s, name), id) && Absorb(s, name).managed[id].loader == s.managed[id].loader
  {
    AbsorbIsExact(s, name);
  }

  lemma ActKeeps(s: State, step: Step, id: ServableId)
    requires step.ActStep? && Enabled(s, step) && Kept(s, id)
    ensures Kept(Perform(s, step.action), id) && Perform(s, step.action).managed[id].loader == s.managed[id].loader
    ensures !Removes(step, id)
  {
    ActionApplies(s, step);
  }

  /**
    No spontaneous unloading: while every request enqueued for its stream lists it, an aspired version
    stays managed by the same loader and is neither chosen for unload nor flushed, however pending
    requests overwrite each other or are postponed.
   */
  lemma {:induction false} NoSpontaneousUnloading(r: Run, i: nat, j: nat, id: ServableId)
    requires IsRun(r) && i <= j < |r.states| && Kept(r.states[i], id)
    requires forall k :: i <= k < j ==> DoesNotOmit(r.steps[k], id)
    ensures Kept(r.states[j], id) && r.states[j].managed[id].loader == r.states[i].managed[id].loader
    ensures forall k :: i <= k < j ==> !Removes(r.steps[k], id)
  {
    if i < j {
      NoSpontaneousUnloading(r, i, j - 1, id);
      RunKeepsInv(r, j - 1);
      StepKeeps(r.states[j - 1], r.steps[j - 1], id);
    }
  }

  /** A version is kept from the moment a request adds it. */
  lemma AddedVersionIsKept(s: State, id: ServableId)
    requires Inv(s) && Enabled(s, AbsorbStep(id.name)) && Lists(s.pending[id.name], id)
    ensures Kept(Apply(s, AbsorbStep(id.name)), id)
  {
    AbsorbIsExact(s, id.name);
  }

  // ---------- Availability ----------

  lemma ActKeepsReady(s: State, step: Step, name: string)
    requires step.ActStep? && Enabled(s, step) && HasAspired(s, name) && HasReady(s, name)
    ensures HasReady(Perform(s, step.action), name)
  {
    var ready :| ready in s.managed && ready.name == name && s.managed[ready].state.Ready?;
    ActionApplies(s, step);
    if ready == step.action.id {
      UnloadKeepsReadyIff(s, step);
    } else {
      PerformKeepsOthers(s, step.action, ready);
    }
  }

  lemma PerformKeepsOthers(s: State, action: Action, other: ServableId)
    requires other in s.managed && other != action.id
    ensures other in Perform(s, action).managed && Perform(s, action).managed[other] == s.managed[other]
  {}

  lemma StepKeepsReady(s: State, step: Step, name: string)
    requires Inv(s) && Enabled(s, step) && HasAspired(s, name) && HasReady(s, name)
    ensures HasReady(Apply(s, step), name)
  {
    var r := Apply(s, step);
    if step.ActStep? {
      ActKeepsReady(s, step, name);
    } else {
      var id :| id in s.managed && id.name == name && s.managed[id].state.Ready?;
      if step.AbsorbStep? {
        AbsorbIsExact(s, step.name);
      }
      assert id in r.managed && r.managed[id].state.Ready?;
    }
  }

  /**
    Availability: while a stream has an aspired version in every state, a run in which it once had a
    ready version always has one, even though loads and unloads finish between snapshot and action.
   */
  lemma {:induction false} AvailabilityHolds(r: Run, i: nat, j: nat, name: string)
    requires IsRun(r) && i <= j < |r.states| && HasReady(r.states[i], name)
    requires forall k :: i <= k <= j ==> HasAspired(r.states[k], name)
    ensures HasReady(r.states[j], name)
  {
    if i < j {
      AvailabilityHolds(r, i, j - 1, name);
      RunStepKeepsReady(r, j - 1, name);
    }
  }

  lemma RunStepKeepsReady(r: Run, k: nat, name: string)
    requires IsRun(r) && k < |r.steps| && HasAspired(r.states[k], name) && HasReady(r.states[k], name)
    ensures HasReady(r.states[k + 1], name)
  {
    RunKeepsInv(r, k);
    StepKeepsReady(r.states[k], r.steps[k], name);
  }

  // ---------- Refused transfers ----------

  ghost predicate Uncontested(s: State) {
    forall id :: Refused !in CallsOf(s, id)
  }

  /** Among the versions to add, none is listed twice. */
  ghost predicate AddsDistinct(request: seq<Entry>, additions: set<int>) {
    forall i, j :: 0 <= i < j < |request| && request[i].id == request[j].id ==> request[i].id.version !in additions
  }

  lemma LogsRefusal(s: State, id: ServableId, call: Call)
    requires Uncontested(s)
    ensures Uncontested(Log(s, id, call)) <==> call != Refused
  {
    var r := Log(s, id, call);
    assert CallsOf(r, id) == CallsOf(s, id) + [call];
    forall other | other != id ensures CallsOf(r, other) == CallsOf(s, other) {}
  }

  lemma {:induction false} RefusedIffDuplicate(s: State, request: seq<Entry>, additions: set<int>)
    requires Uncontested(s)
    requires forall e :: e in request && e.id.version in additions ==> e.id !in s.managed
    ensures Uncontested(ManageAdditions(s, request, additions)) <==> AddsDistinct(request, additions)
  {
    if request != [] {
      var init, last := request[..|request| - 1], request[|request| - 1];
      var mid := ManageAdditions(s, init, additions);
      RefusedIffDuplicate(s, init, additions);
      AdditionsAreExact(s, init, additions);
      if Uncontested(mid) && last.id.version in additions {
        var call := if last.id in mid.managed then Refused else Manage(last.loader);
        LogsRefusal(mid, last.id, call);
        assert forall id :: CallsOf(ManageServable(mid, last), id) == CallsOf(Log(mid, last.id, call), id);
        DistinctSoFar(request, additions);
      } else if !Uncontested(mid) {
        DistinctSoFar(request, additions);
        StillContested(mid, last);
      } else {
        DistinctSoFar(request, additions);
      }
    }
  }

  lemma DistinctSoFar(request: seq<Entry>, additions: set<int>)
    requires request != []
    ensures var init, last := request[..|request| - 1], request[|request| - 1];
      AddsDistinct(request, additions) <==>
        (AddsDistinct(init, additions) && (last.id.version in additions ==> forall e :: e in init ==> e.id != last.id))
  {
    var init, last := request[..|request| - 1], request[|request| - 1];
    if AddsDistinct(request, additions) {
      forall i, j | 0 <= i < j < |init| && init[i].id == init[j].id ensures init[i].id.version !in additions {
        assert request[i].id == request[j].id;
      }
      forall e | e in init && last.id.version in additions ensures e.id != last.id {
        var i :| 0 <= i < |init| && init[i] == e;
        assert request[i] == e && request[|request| - 1] == last;
      }
    } else {
      var i, j :| 0 <= i < j < |request| && request[i].id == request[j].id && request[i].id.version in additions;
      assert request[i] == init[i];
      if j < |init| {
        assert init[i].id == init[j].id;
      }
    }
  }

  lemma StillContested(s: State, e: Entry)
    requires !Uncontested(s)
    ensures !Uncontested(ManageServable(s, e))
  {
    var id :| Refused in CallsOf(s, id);
    assert Refused in CallsOf(ManageServable(s, e), id);
  }

  /** The "unable to transfer" branch is reached exactly when a request lists a version to add twice. */
  lemma TransferFailsIffDuplicate(s: State, name: string)
    requires Inv(s) && Uncontested(s) && Enabled(s, AbsorbStep(name))
    ensures Uncontested(Absorb(s, name)) <==>
      AddsDistinct(s.pending[name], VersionsOf(s.pending[name]) - AspiredVersions(s, name))
  {
    var request := s.pending[name];
    var additions := VersionsOf(request) - AspiredVersions(s, name);
    var cleared := Unaspire(s, name, VersionsOf(request));
    assert forall id :: CallsOf(cleared, id) == CallsOf(s, id);
    assert forall id :: CallsOf(Absorb(s, name), id) == CallsOf(ProcessRequest(s, name, request), id);
    forall e | e in request && e.id.version in additions ensures e.id !in cleared.managed {
      AspiredMember(s, name, e.id.version);
      assert e.id == ServableId(name, e.id.version);
      assert !ContainsAnyReaspired(s, name, request);
    }
    RefusedIffDuplicate(cleared, request, additions);
  }

  lemma CallsDecide(s: State, r: State)
    requires r.calls == s.calls
    ensures Uncontested(r) <==> Uncontested(s)
  {
    assert forall id :: CallsOf(r, id) == CallsOf(s, id);
  }

  lemma ActionsAreNotRefused(s: State, step: Step)
    requires Uncontested(s) && step.ActStep? && Enabled(s, step)
    ensures Uncontested(Perform(s, step.action))
  {
    ActionApplies(s, step);
    match step.action.kind
    case Load => LoadIsNotRefused(s, step.action.id);
    case Unload => UnloadIsNotRefused(s, step.action.id);
  }

  lemma LoadIsNotRefused(s: State, id: ServableId)
    requires Uncontested(s) && id in s.managed && s.managed[id].state.New?
    ensures Uncontested(LoadServable(s, id))
  {
    var call := LoadCall(s.managed[id].loader);
    LogsRefusal(s, id, call);
    CallsDecide(Log(s, id, call), LoadServable(s, id));
  }

  lemma UnloadIsNotRefused(s: State, id: ServableId)
    requires Uncontested(s) && id in s.managed && s.managed[id].state.Ready?
    ensures Uncontested(UnloadServable(s, id))
  {
    var call := UnloadCall(s.managed[id].loader);
    LogsRefusal(s, id, call);
    CallsDecide(Log(s, id, call), UnloadServable(s, id));
  }

  /** Every other step makes calls that the basic manager accepts. */
  lemma OtherStepsAreNotRefused(s: State, step: Step)
    requires Uncontested(s) && Enabled(s, step) && !step.AbsorbStep?
    ensures Uncontested(Apply(s, step))
  {
    if step.ActStep? {
      ActionsAreNotRefused(s, step);
    } else if step.FlushStep? {
      var call := StopCall(s.managed[step.id].loader);
      LogsRefusal(s, step.id, call);
      CallsDecide(Log(s, step.id, call), Apply(s, step));
    } else {
      CallsDecide(s, Apply(s, step));
    }
  }
}
