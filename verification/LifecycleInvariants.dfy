/** What every step and every run of the aspired-versions manager keeps. */
module LifecycleInvariants {
  import opened Common
  import opened VersionPolicy
  import opened VersionLifecycle

  // ---------- The order of calls about one id ----------

  datatype Phase = Absent | Managed(loader: nat) | Loaded(loader: nat) | Unloaded(loader: nat) | Broken

  /** Manage, then at most one load, then at most one unload, then stop; all for one loader. */
  function Follow(phase: Phase, call: Call): Phase {
    match call
    case Manage(l) => if phase == Absent then Managed(l) else Broken
    case LoadCall(l) => if phase == Managed(l) then Loaded(l) else Broken
    case UnloadCall(l) => if phase == Loaded(l) then Unloaded(l) else Broken
    case StopCall(l) => if phase in {Managed(l), Loaded(l), Unloaded(l)} then Absent else Broken
    case Refused => phase
  }

  function Track(calls: seq<Call>): Phase {
    if calls == [] then Absent else Follow(Track(calls[..|calls| - 1]), calls[|calls| - 1])
  }

  /** Where the calls made so far have brought a harness. */
  ghost predicate InPhase(h: Harness, phase: Phase) {
    match phase
    case Absent => false
    case Managed(l) => h.loader == l && h.state in {New, Failed}
    case Loaded(l) => h.loader == l && h.state in {LoadRequested, LoadApproved, Loading, Ready, Failed}
    case Unloaded(l) => h.loader == l && h.state in {UnloadRequested, Quiescing, Quiesced, Unloading, Disabled}
    case Broken => false
  }

  ghost predicate PhaseMatches(s: State, id: ServableId) {
    if id in s.managed then InPhase(s.managed[id], Track(CallsOf(s, id))) else Track(CallsOf(s, id)) == Absent
  }

  ghost predicate CallOrder(s: State) {
    forall id :: PhaseMatches(s, id)
  }

  // ---------- The step invariant ----------

  /** An aspired harness is on its way to be ready, or failed; its load may be retried. */
  ghost predicate AspiredStatesAreLoading(s: State) {
    forall id :: id in s.managed && s.managed[id].isAspired ==>
      s.managed[id].state in {New, LoadRequested, LoadApproved, Loading, Ready, Failed} && !s.managed[id].retryCancelled
  }

  /** The load of a version that is no longer aspired is not tried again, unless it has failed for good. */
  ghost predicate OmittedAreNotRetried(s: State) {
    forall id :: id in s.managed && !s.managed[id].isAspired ==>
      s.managed[id].retryCancelled || s.managed[id].state.Failed?
  }

  ghost predicate Wanted(s: State, id: ServableId) {
    id.name in s.requested && id.version in s.requested[id.name]
  }

  /** What is pending is what was last requested; where nothing is pending, the aspired versions are. */
  ghost predicate TracksRequests(s: State) {
    && (forall name :: name in s.pending ==>
          && Conforms(name, s.pending[name])
          && name in s.requested && s.requested[name] == VersionsOf(s.pending[name]))
    && (forall id: ServableId :: id.name !in s.pending ==>
          (Wanted(s, id) <==> id in s.managed && s.managed[id].isAspired))
  }

  ghost predicate Inv(s: State) {
    CallOrder(s) && AspiredStatesAreLoading(s) && OmittedAreNotRetried(s) && TracksRequests(s)
  }

  // ---------- Absorbing a request ----------

  lemma TrackLog(s: State, id: ServableId, call: Call)
    ensures Track(CallsOf(Log(s, id, call), id)) == Follow(Track(CallsOf(s, id)), call)
    ensures forall other :: other != id ==> CallsOf(Log(s, id, call), other) == CallsOf(s, other)
  {
    var calls := CallsOf(s, id) + [call];
    assert calls[..|calls| - 1] == CallsOf(s, id);
  }

  lemma ManageKeepsCallOrder(s: State, e: Entry)
    requires CallOrder(s)
    ensures CallOrder(ManageServable(s, e))
  {
    var call := if e.id in s.managed then Refused else Manage(e.loader);
    TrackLog(s, e.id, call);
    assert PhaseMatches(s, e.id);
    OtherCallsUnaffected(s, ManageServable(s, e), e.id, call);
  }

  /** The first entry for `id` in the request is the `i`-th, and `h` is the harness it asks for. */
  ghost predicate OffersAt(request: seq<Entry>, i: nat, id: ServableId, h: Harness) {
    && i < |request| && request[i].id == id && (forall k :: 0 <= k < i ==> request[k].id != id)
    && h == Harness(request[i].loader, if request[i].healthy then New else Failed, true, false)
  }

  /** `h` is the harness of a version offered by `request`; where it is listed twice, the first entry counts. */
  ghost predicate Offers(request: seq<Entry>, id: ServableId, h: Harness) {
    exists i: nat :: OffersAt(request, i, id, h)
  }

  /** The request has an entry for `id`. */
  ghost predicate Lists(request: seq<Entry>, id: ServableId) {
    exists e :: e in request && e.id == id
  }

  /** Managing the additions touches no existing harness and adds exactly the offered additions, aspired. */
  lemma {:induction false} AdditionsAreExact(s: State, request: seq<Entry>, additions: set<int>)
    ensures var r := ManageAdditions(s, request, additions);
      && r.pending == s.pending && r.requested == s.requested
      && (CallOrder(s) ==> CallOrder(r))
      && (forall id :: id in r.managed <==>
            id in s.managed || (id.version in additions && exists e :: e in request && e.id == id))
      && (forall id :: id in s.managed ==> r.managed[id] == s.managed[id])
      && (forall id :: id in r.managed && id !in s.managed ==> Offers(request, id, r.managed[id]))
  {
    if request != [] {
      var init, last := request[..|request| - 1], request[|request| - 1];
      AdditionsAreExact(s, init, additions);
      assert request == init + [last];
      var mid := ManageAdditions(s, init, additions);
      OffersGrow(init, last);
      if last.id.version in additions {
        ManageIsExact(mid, last);
        if CallOrder(s) {
          ManageKeepsCallOrder(mid, last);
        }
      }
    }
  }

  lemma OffersGrow(init: seq<Entry>, last: Entry)
    ensures forall id, h :: Offers(init, id, h) ==> Offers(init + [last], id, h)
    ensures !Lists(init, last.id) ==>
      Offers(init + [last], last.id, Harness(last.loader, if last.healthy then New else Failed, true, false))
  {
    forall id, h | Offers(init, id, h) ensures Offers(init + [last], id, h) {
      var i: nat :| OffersAt(init, i, id, h);
      assert OffersAt(init + [last], i, id, h);
    }
    if !Lists(init, last.id) {
      assert OffersAt(init + [last], |init|, last.id,
        Harness(last.loader, if last.healthy then New else Failed, true, false));
    }
  }

  lemma ManageIsExact(s: State, e: Entry)
    ensures var r := ManageServable(s, e);
      && r.pending == s.pending && r.requested == s.requested && r.managed.Keys == s.managed.Keys + {e.id}
      && (forall id :: id in s.managed ==> r.managed[id] == s.managed[id])
      && (e.id !in s.managed ==> r.managed[e.id] == Harness(e.loader, if e.healthy then New else Failed, true, false))
  {}

  lemma UnaspireKeepsCallOrder(s: State, name: string, next: set<int>)
    requires CallOrder(s)
    ensures CallOrder(Unaspire(s, name, next))
  {
    var r := Unaspire(s, name, next);
    forall id ensures PhaseMatches(r, id) {
      assert PhaseMatches(s, id);
    }
  }

  lemma AspiredMember(s: State, name: string, version: int)
    ensures version in AspiredVersions(s, name) <==>
      var id := ServableId(name, version); id in s.managed && s.managed[id].isAspired
  {
    var id := ServableId(name, version);
    if version in AspiredVersions(s, name) {
      var other :| other in s.managed && other.name == name && s.managed[other].isAspired && other.version == version;
      assert other == id;
    }
  }

  lemma VersionMember(request: seq<Entry>, name: string, version: int)
    requires Conforms(name, request)
    ensures version in VersionsOf(request) <==> Lists(request, ServableId(name, version))
  {
    if e :| e in request && e.id.version == version {
      assert e.id == ServableId(name, version);
    }
  }

  /** A pending request can be absorbed exactly if it asks for no version that is managed but not aspired. */
  lemma AbsorbEnabledIff(s: State, name: string)
    requires Inv(s) && name in s.pending
    ensures Enabled(s, AbsorbStep(name)) <==>
      forall e :: e in s.pending[name] ==> e.id !in s.managed || s.managed[e.id].isAspired
  {
    ReaspiredIff(s, name, s.pending[name]);
  }

  lemma ReaspiredIff(s: State, name: string, request: seq<Entry>)
    requires Conforms(name, request)
    ensures ContainsAnyReaspired(s, name, request) <==>
      exists e :: e in request && e.id in s.managed && !s.managed[e.id].isAspired
  {
    if id :| id in s.managed && id.name == name && !s.managed[id].isAspired && id.version in VersionsOf(request) {
      VersionMember(request, name, id.version);
      assert ServableId(name, id.version) == id;
    }
  }

  /** What becomes of a harness when the request is absorbed: its loader and state stay. */
  ghost predicate IsAfterAbsorb(name: string, request: seq<Entry>, id: ServableId, h: Harness, h': Harness) {
    && h'.loader == h.loader && h'.state == h.state
    && (h'.isAspired <==> if id.name == name then Lists(request, id) else h.isAspired)
    && (h'.retryCancelled <==>
          h.retryCancelled || (id.name == name && !Lists(request, id) && !h.state.Failed?))
  }

  /**
    Absorbing a request is exact: afterwards the aspired versions of the stream are the requested ones,
    every earlier harness keeps its loader and state, those omitted are given up, other streams do not
    change, and a new harness is the one that the request offers first.
   */
  lemma AbsorbIsExact(s: State, name: string)
    requires Inv(s) && Enabled(s, AbsorbStep(name))
    ensures var request, r := s.pending[name], Absorb(s, name);
      && (forall id: ServableId :: id.name == name ==>
            (Lists(request, id) <==> id in r.managed && r.managed[id].isAspired))
      && (forall id :: id in s.managed ==>
            id in r.managed && IsAfterAbsorb(name, request, id, s.managed[id], r.managed[id]))
      && (forall id :: id in r.managed && id !in s.managed ==> id.name == name && Offers(request, id, r.managed[id]))
      && r.pending == s.pending - {name} && r.requested == s.requested && CallOrder(r)
  {
    var request := s.pending[name];
    var next := VersionsOf(request);
    var cleared := Unaspire(s, name, next);
    UnaspireKeepsCallOrder(s, name, next);
    AdditionsAreExact(cleared, request, next - AspiredVersions(s, name));
    var r := Absorb(s, name);
    ProcessedCallOrder(s, name);
    AbsorbEnabledIff(s, name);
    forall id: ServableId | id.name == name
      ensures Lists(request, id) <==> id in r.managed && r.managed[id].isAspired
      ensures id in s.managed ==> IsAfterAbsorb(name, request, id, s.managed[id], r.managed[id])
    {
      AspiredMember(s, name, id.version);
      VersionMember(request, name, id.version);
      assert ServableId(name, id.version) == id;
    }
  }

  lemma ProcessedCallOrder(s: State, name: string)
    requires name in s.pending && CallOrder(ProcessRequest(s, name, s.pending[name]))
    ensures CallOrder(Absorb(s, name))
  {
    var processed := ProcessRequest(s, name, s.pending[name]);
    forall id ensures PhaseMatches(Absorb(s, name), id) {
      assert PhaseMatches(processed, id) && CallsOf(Absorb(s, name), id) == CallsOf(processed, id);
    }
  }

  // ---------- The actions taken ----------

  ghost predicate HasAspired(s: State, name: string) {
    exists id :: id in s.managed && id.name == name && s.managed[id].isAspired
  }

  ghost predicate HasReady(s: State, name: string) {
    exists id :: id in s.managed && id.name == name && s.managed[id].state.Ready?
  }

  ghost predicate Targets(v: Snapshot, action: Action) {
    v.id == action.id && if action.kind == Load then v.isAspired && v.state.New? else !v.isAspired && v.state.Ready?
  }

  lemma ActionIsProposed(s: State, step: Step)
    requires step.ActStep? && Enabled(s, step)
    ensures IsNextAction(StreamOf(step.snapshot, step.action.id.name), Some(step.action))
    ensures exists v :: v in StreamOf(step.snapshot, step.action.id.name) && Targets(v, step.action)
  {
    assert Some(step.action) in step.proposals.Values;
    var name :| name in step.proposals && step.proposals[name] == Some(step.action);
    ActionIsSafe(StreamOf(step.snapshot, name), step.action);
  }

  /**
    Although loads and unloads may finish between the snapshot and the action, the chosen action still
    applies: a load finds a new, aspired harness, and an unload finds a ready, unaspired one.
   */
  lemma ActionApplies(s: State, step: Step)
    requires step.ActStep? && Enabled(s, step)
    ensures var id := step.action.id;
      && id in s.managed
      && (step.action.kind == Load ==> s.managed[id].state.New? && s.managed[id].isAspired)
      && (step.action.kind == Unload ==> s.managed[id].state.Ready? && !s.managed[id].isAspired)
  {
    ActionIsProposed(s, step);
  }

  /** In a stream with an aspired version, an unload leaves some other version ready. */
  lemma UnloadLeavesReady(s: State, step: Step)
    requires step.ActStep? && Enabled(s, step) && step.action.kind == Unload
    requires HasAspired(s, step.action.id.name)
    ensures exists other :: other in s.managed && other.name == step.action.id.name && other != step.action.id
                            && s.managed[other].state.Ready?
  {
    var stream := StreamOf(step.snapshot, step.action.id.name);
    ActionIsProposed(s, step);
    var id :| id in s.managed && id.name == step.action.id.name && s.managed[id].isAspired;
    assert Snapshot(id, step.snapshot[id].state, true) in stream;
    UnloadLeavesOther(stream, step.action.id);
    var w :| w in stream && w.id != step.action.id && w.state.Ready?;
    assert Reaches(step.snapshot[w.id].state, s.managed[w.id].state);
  }

  /** Two unaspired versions of the stream are ready. */
  ghost predicate HasSpare(s: State, name: string) {
    var ready := UnaspiredReady(StreamOf(s.managed, name));
    exists v, w :: v in ready && w in ready && v != w
  }

  /**
    An unload leaves its stream with a ready version exactly if the stream has an aspired version or a
    second unaspired ready one when the action is performed.
   */
  lemma UnloadKeepsReadyIff(s: State, step: Step)
    requires step.ActStep? && Enabled(s, step) && step.action.kind == Unload
    ensures var name := step.action.id.name;
      HasReady(Perform(s, step.action), name) <==> HasAspired(s, name) || HasSpare(s, name)
  {
    var id := step.action.id;
    ActionApplies(s, step);
    ReadyIffOther(s, id);
    if HasAspired(s, id.name) {
      UnloadLeavesReady(s, step);
    }
    OtherMeansReserve(s, id);
  }

  ghost predicate OtherIsReady(s: State, id: ServableId) {
    exists other :: other in s.managed && other.name == id.name && other != id && s.managed[other].state.Ready?
  }

  lemma ReadyIffOther(s: State, id: ServableId)
    requires id in s.managed && s.managed[id].state.Ready?
    ensures HasReady(UnloadServable(s, id), id.name) <==> OtherIsReady(s, id)
  {
    var r := UnloadServable(s, id);
    assert forall other :: other in s.managed && other != id ==>
      other in r.managed && r.managed[other] == s.managed[other];
    if other :| other in s.managed && other.name == id.name && other != id && s.managed[other].state.Ready? {
      assert other in r.managed && r.managed[other].state.Ready?;
    }
  }

  lemma OtherMeansReserve(s: State, id: ServableId)
    requires id in s.managed && s.managed[id].state.Ready? && !s.managed[id].isAspired
    ensures OtherIsReady(s, id) ==> HasAspired(s, id.name) || HasSpare(s, id.name)
    ensures HasSpare(s, id.name) ==> OtherIsReady(s, id)
  {
    var ready := UnaspiredReady(StreamOf(s.managed, id.name));
    assert Snapshot(id, Ready, false) in ready;
    if v, w :| v in ready && w in ready && v != w {
      var other := if v.id == id then w else v;
      assert other.id in s.managed && other.id != id;
    }
    if other :| other in s.managed && other.name == id.name && other != id && s.managed[other].state.Ready? {
      assert !s.managed[other].isAspired ==> Snapshot(other, Ready, false) in ready;
    }
  }

  // ---------- Every step keeps the invariant ----------

  /**
    A step that logs one call about `id` and changes nothing but its harness keeps the call order if that
    harness follows.
   */
  lemma OtherCallsUnaffected(s: State, r: State, id: ServableId, call: Call)
    requires CallOrder(s) && r.calls == Log(s, id, call).calls
    requires forall other :: other != id ==> (other in s.managed <==> other in r.managed)
    requires forall other :: other != id && other in s.managed ==> r.managed[other] == s.managed[other]
    requires PhaseMatches(r, id)
    ensures CallOrder(r)
  {
    forall other ensures PhaseMatches(r, other) {
      assert PhaseMatches(s, other);
      assert other != id ==> CallsOf(r, other) == CallsOf(s, other);
    }
  }

  lemma AbsorbKeepsInv(s: State, name: string)
    requires Inv(s) && Enabled(s, AbsorbStep(name))
    ensures Inv(Absorb(s, name))
  {
    var r := Absorb(s, name);
    AbsorbIsExact(s, name);
    forall id: ServableId | id.name !in r.pending
      ensures Wanted(r, id) <==> id in r.managed && r.managed[id].isAspired
    {
      if id.name == name {
        VersionMember(s.pending[name], name, id.version);
        assert ServableId(name, id.version) == id;
        assert s.requested[name] == VersionsOf(s.pending[name]);
      } else {
        assert Wanted(s, id) <==> id in s.managed && s.managed[id].isAspired;
      }
    }
  }

  lemma FlushKeepsInv(s: State, id: ServableId)
    requires Inv(s) && Enabled(s, FlushStep(id))
    ensures Inv(StopManagingServable(s, id))
  {
    var call := StopCall(s.managed[id].loader);
    TrackLog(s, id, call);
    assert PhaseMatches(s, id);
    OtherCallsUnaffected(s, StopManagingServable(s, id), id, call);
    assert forall other :: Wanted(StopManagingServable(s, id), other) == Wanted(s, other);
  }

  lemma LoadKeepsInv(s: State, id: ServableId)
    requires Inv(s) && id in s.managed && s.managed[id].state.New? && s.managed[id].isAspired
    ensures Inv(LoadServable(s, id))
  {
    var call := LoadCall(s.managed[id].loader);
    TrackLog(s, id, call);
    assert PhaseMatches(s, id);
    OtherCallsUnaffected(s, LoadServable(s, id), id, call);
    assert forall other :: Wanted(LoadServable(s, id), other) == Wanted(s, other);
  }

  lemma UnloadKeepsInv(s: State, id: ServableId)
    requires Inv(s) && id in s.managed && s.managed[id].state.Ready? && !s.managed[id].isAspired
    ensures Inv(UnloadServable(s, id))
  {
    var call := UnloadCall(s.managed[id].loader);
    TrackLog(s, id, call);
    assert PhaseMatches(s, id);
    OtherCallsUnaffected(s, UnloadServable(s, id), id, call);
    assert forall other :: Wanted(UnloadServable(s, id), other) == Wanted(s, other);
  }

  lemma ActKeepsInv(s: State, step: Step)
    requires Inv(s) && step.ActStep? && Enabled(s, step)
    ensures Inv(Perform(s, step.action))
  {
    ActionApplies(s, step);
    match step.action.kind
    case Load => LoadKeepsInv(s, step.action.id);
    case Unload => UnloadKeepsInv(s, step.action.id);
  }

  lemma CompleteKeepsInv(s: State, id: ServableId, ok: bool)
    requires Inv(s) && Enabled(s, CompleteStep(id, ok))
    ensures Inv(Apply(s, CompleteStep(id, ok)))
  {
    var r := Apply(s, CompleteStep(id, ok));
    forall other ensures PhaseMatches(r, other) {
      assert PhaseMatches(s, other);
    }
    assert forall other :: Wanted(r, other) == Wanted(s, other);
  }

  lemma EnqueueKeepsInv(s: State, name: string, request: seq<Entry>)
    requires Inv(s)
    ensures Inv(Enqueue(s, name, request))
  {
    var r := Enqueue(s, name, request);
    forall id ensures PhaseMatches(r, id) {
      assert PhaseMatches(s, id);
    }
    forall id: ServableId | id.name !in r.pending
      ensures Wanted(r, id) <==> id in r.managed && r.managed[id].isAspired
    {
      assert Wanted(s, id) <==> id in s.managed && s.managed[id].isAspired;
    }
  }

  lemma StepKeepsInv(s: State, step: Step)
    requires Inv(s) && Enabled(s, step)
    ensures Inv(Apply(s, step))
  {
    match step
    case EnqueueStep(name, request) => EnqueueKeepsInv(s, name, request);
    case AbsorbStep(name) => AbsorbKeepsInv(s, name);
    case FlushStep(id) => FlushKeepsInv(s, id);
    case ActStep(_, _, _) => ActKeepsInv(s, step);
    case CompleteStep(id, ok) => CompleteKeepsInv(s, id, ok);
  }

  lemma {:induction false} RunKeepsInv(r: Run, i: nat)
    requires IsRun(r) && i < |r.states|
    ensures Inv(r.states[i])
    ensures i < |r.steps| ==> Follows(r, i)
  {
    if i > 0 {
      RunKeepsInv(r, i - 1);
      StepKeepsInv(r.states[i - 1], r.steps[i - 1]);
    }
  }
}
