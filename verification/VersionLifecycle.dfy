/**
  The aspired-versions manager as a transition system: requests are enqueued, absorbed and flushed,
  policy actions are taken, and loads and unloads finish asynchronously in between.
 */
module VersionLifecycle {
  import opened Common
  import opened VersionPolicy

  /** One servable version offered by a source: its id, the identity of its loader, and whether it is healthy. */
  datatype Entry = Entry(id: ServableId, loader: nat, healthy: bool)

  /** `retryCancelled` says that a load that fails shall not be tried again. */
  datatype Harness = Harness(loader: nat, state: HarnessState, isAspired: bool, retryCancelled: bool)

  /** A call made to the basic manager about one id, with the loader it reaches; or one that it turns down. */
  datatype Call =
    Manage(loader: nat) | LoadCall(loader: nat) | UnloadCall(loader: nat) | StopCall(loader: nat) | Refused

  /** `requested` (the last versions asked of each stream) and `calls` (the calls about each id) are histories. */
  datatype State = State(
    pending: map<string, seq<Entry>>,
    managed: map<ServableId, Harness>,
    requested: map<string, set<int>>,
    calls: map<ServableId, seq<Call>>
  )

  const INITIAL_STATE := State(map[], map[], map[], map[])

  function CallsOf(s: State, id: ServableId): seq<Call> {
    if id in s.calls then s.calls[id] else []
  }

  function Log(s: State, id: ServableId, call: Call): State {
    s.(calls := s.calls[id := CallsOf(s, id) + [call]])
  }

  function SetState(s: State, id: ServableId, state: HarnessState): State
    requires id in s.managed
  {
    s.(managed := s.managed[id := s.managed[id].(state := state)])
  }

  function VersionsOf(request: seq<Entry>): set<int> {
    set e | e in request :: e.id.version
  }

  function AspiredVersions(s: State, name: string): set<int> {
    set id | id in s.managed && id.name == name && s.managed[id].isAspired :: id.version
  }

  // ---------- Calls to the basic manager ----------

  function ManageServable(s: State, e: Entry): State {
    if e.id in s.managed then Log(s, e.id, Refused)
    else
      var harness := Harness(e.loader, if e.healthy then New else Failed, true, false);
      Log(s.(managed := s.managed[e.id := harness]), e.id, Manage(e.loader))
  }

  function StopManagingServable(s: State, id: ServableId): State {
    if id in s.managed && s.managed[id].state in {New, Failed, Disabled} then
      Log(s.(managed := s.managed - {id}), id, StopCall(s.managed[id].loader))
    else Log(s, id, Refused)
  }

  function LoadServable(s: State, id: ServableId): State {
    if id in s.managed && s.managed[id].state.New? then
      Log(SetState(s, id, LoadRequested), id, LoadCall(s.managed[id].loader))
    else Log(s, id, Refused)
  }

  function UnloadServable(s: State, id: ServableId): State {
    if id in s.managed && s.managed[id].state.Ready? then
      Log(SetState(s, id, UnloadRequested), id, UnloadCall(s.managed[id].loader))
    else Log(s, id, Refused)
  }

  // ---------- The manager's own operations ----------

  predicate Conforms(name: string, request: seq<Entry>) {
    forall e :: e in request ==> e.id.name == name
  }

  /** A request with a foreign servable name is dropped; otherwise it replaces the stream's pending one. */
  function Enqueue(s: State, name: string, request: seq<Entry>): State {
    if !Conforms(name, request) then s
    else s.(pending := s.pending[name := request], requested := s.requested[name := VersionsOf(request)])
  }

  ghost predicate ContainsAnyReaspired(s: State, name: string, request: seq<Entry>) {
    exists id :: id in s.managed && id.name == name && !s.managed[id].isAspired && id.version in VersionsOf(request)
  }

  /** No longer aspired; a harness that has not failed is also told not to retry its load. */
  function Unaspired(h: Harness): Harness {
    h.(isAspired := false, retryCancelled := h.retryCancelled || !h.state.Failed?)
  }

  /** Marks every version of the stream that `next` omits as not aspired. */
  function Unaspire(s: State, name: string, next: set<int>): State {
    s.(managed := map id | id in s.managed ::
      if id.name == name && id.version !in next then Unaspired(s.managed[id]) else s.managed[id])
  }

  function ManageAdditions(s: State, request: seq<Entry>, additions: set<int>): State {
    if request == [] then s
    else
      var init, last := request[..|request| - 1], request[|request| - 1];
      var r := ManageAdditions(s, init, additions);
      if last.id.version in additions then ManageServable(r, last) else r
  }

  function ProcessRequest(s: State, name: string, request: seq<Entry>): State {
    var next := VersionsOf(request);
    ManageAdditions(Unaspire(s, name, next), request, next - AspiredVersions(s, name))
  }

  function Absorb(s: State, name: string): State
    requires name in s.pending
  {
    var r := ProcessRequest(s, name, s.pending[name]);
    r.(pending := r.pending - {name})
  }

  predicate Flushable(h: Harness) {
    !h.isAspired && h.state in {New, Disabled, Failed}
  }

  function Perform(s: State, action: Action): State {
    match action.kind
    case Load => LoadServable(s, action.id)
    case Unload => UnloadServable(s, action.id)
  }

  // ---------- Asynchronous completion ----------

  predicate InFlight(state: HarnessState) {
    state in {LoadRequested, LoadApproved, Loading, UnloadRequested, Quiescing, Quiesced, Unloading}
  }

  /** The next state of a harness whose load or unload is under way; only two steps can fail. */
  function Advance(state: HarnessState, ok: bool): HarnessState
    requires InFlight(state)
  {
    match state
    case LoadRequested => if ok then LoadApproved else Failed
    case LoadApproved => Loading
    case Loading => if ok then Ready else Failed
    case UnloadRequested => Quiescing
    case Quiescing => Quiesced
    case Quiesced => Unloading
    case Unloading => Disabled
  }

  function Rank(state: HarnessState): nat {
    match state
    case New => 10 case LoadRequested => 9 case LoadApproved => 8 case Loading => 7 case Ready => 6
    case UnloadRequested => 5 case Quiescing => 4 case Quiesced => 3 case Unloading => 2
    case Disabled => 1 case Failed => 1
  }

  /** `to` can follow `from` through asynchronous completions alone. */
  predicate Reaches(from: HarnessState, to: HarnessState) {
    from == to ||
    match from
    case LoadRequested => to.LoadApproved? || to.Loading? || to.Ready? || to.Failed?
    case LoadApproved => to.Loading? || to.Ready? || to.Failed?
    case Loading => to.Ready? || to.Failed?
    case UnloadRequested => to.Quiescing? || to.Quiesced? || to.Unloading? || to.Disabled?
    case Quiescing => to.Quiesced? || to.Unloading? || to.Disabled?
    case Quiesced => to.Unloading? || to.Disabled?
    case Unloading => to.Disabled?
    case _ => false
  }

  /** That is the closure of what one completion makes of a state. */
  lemma ReachesIsClosure(from: HarnessState, to: HarnessState)
    ensures Reaches(from, to) <==>
      from == to || (InFlight(from) && (Reaches(Advance(from, true), to) || Reaches(Advance(from, false), to)))
  {}

  /** A snapshot taken under the manager's lock: loads and unloads may have progressed since. */
  ghost predicate Lagging(snapshot: map<ServableId, Harness>, managed: map<ServableId, Harness>) {
    && snapshot.Keys == managed.Keys
    && forall id :: id in managed ==>
         && snapshot[id].isAspired == managed[id].isAspired
         && snapshot[id].loader == managed[id].loader
         && Reaches(snapshot[id].state, managed[id].state)
  }

  // ---------- Transitions ----------

  ghost function Names(managed: map<ServableId, Harness>): set<string> {
    set id | id in managed :: id.name
  }

  ghost function StreamOf(managed: map<ServableId, Harness>, name: string): set<Snapshot> {
    set id | id in managed && id.name == name :: Snapshot(id, managed[id].state, managed[id].isAspired)
  }

  /** One proposal per managed stream, as the policy would make it from `snapshot`. */
  ghost predicate AreProposals(snapshot: map<ServableId, Harness>, proposals: map<string, Option<Action>>) {
    && proposals.Keys == Names(snapshot)
    && forall name :: name in proposals ==> IsNextAction(StreamOf(snapshot, name), proposals[name])
  }

  datatype Step =
    | EnqueueStep(name: string, request: seq<Entry>)
    | AbsorbStep(name: string)
    | FlushStep(id: ServableId)
    | ActStep(snapshot: map<ServableId, Harness>, proposals: map<string, Option<Action>>, action: Action)
    | CompleteStep(id: ServableId, ok: bool)

  ghost predicate Enabled(s: State, step: Step) {
    match step
    case EnqueueStep(_, _) => true
    case AbsorbStep(name) => name in s.pending && !ContainsAnyReaspired(s, name, s.pending[name])
    case FlushStep(id) => id in s.managed && Flushable(s.managed[id])
    case ActStep(snapshot, proposals, action) =>
      && Lagging(snapshot, s.managed) && AreProposals(snapshot, proposals)
      && IsGlobalChoice(proposals.Values, Some(action))
    case CompleteStep(id, _) => id in s.managed && InFlight(s.managed[id].state)
  }

  ghost function Apply(s: State, step: Step): State
    requires Enabled(s, step)
  {
    match step
    case EnqueueStep(name, request) => Enqueue(s, name, request)
    case AbsorbStep(name) => Absorb(s, name)
    case FlushStep(id) => StopManagingServable(s, id)
    case ActStep(_, _, action) => Perform(s, action)
    case CompleteStep(id, ok) => SetState(s, id, Advance(s.managed[id].state, ok))
  }

  /** A run: `states[i + 1]` comes from `states[i]` by `steps[i]`. */
  datatype Run = Run(states: seq<State>, steps: seq<Step>)

  ghost predicate Follows(r: Run, i: nat)
    requires i < |r.steps| && |r.states| == |r.steps| + 1
  {
    Enabled(r.states[i], r.steps[i]) && r.states[i + 1] == Apply(r.states[i], r.steps[i])
  }

  ghost predicate IsRun(r: Run) {
    match r
    case Run(states, steps) =>
      && |states| == |steps| + 1 && states[0] == INITIAL_STATE
      && forall i: nat :: i < |steps| ==> Follows(r, i)
  }
}
