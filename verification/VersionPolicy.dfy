/** The availability-preserving version policy, and the manager's choice among the streams' proposals. */
module VersionPolicy {
  import opened Common

  datatype ServableId = ServableId(name: string, version: int)

  datatype HarnessState =
    | New | LoadRequested | LoadApproved | Loading | Ready
    | UnloadRequested | Quiescing | Quiesced | Unloading | Disabled | Failed

  datatype Snapshot = Snapshot(id: ServableId, state: HarnessState, isAspired: bool)

  datatype Kind = Load | Unload

  datatype Action = Action(kind: Kind, id: ServableId)

  // ---------- What the policy promises for one stream ----------

  ghost predicate Distinct(all: seq<Snapshot>) {
    forall i, j :: 0 <= i < j < |all| ==> all[i].id.version != all[j].id.version
  }

  ghost function UnaspiredReady(all: set<Snapshot>): set<Snapshot> {
    set v | v in all && !v.isAspired && v.state.Ready?
  }

  ghost function AspiredNew(all: set<Snapshot>): set<Snapshot> {
    set v | v in all && v.isAspired && v.state.New?
  }

  /** Unloading is allowed if nothing is aspired, or something stays available afterwards. */
  ghost predicate MayUnload(all: set<Snapshot>) {
    || (forall v :: v in all ==> !v.isAspired)
    || (exists v :: v in all && v.isAspired && v.state.Ready?)
    || (exists v, w :: v in UnaspiredReady(all) && w in UnaspiredReady(all) && v != w)
  }

  ghost predicate IsLowest(candidates: set<Snapshot>, id: ServableId) {
    exists v :: v in candidates && v.id == id && forall w :: w in candidates ==> v.id.version <= w.id.version
  }

  ghost predicate IsHighest(candidates: set<Snapshot>, id: ServableId) {
    exists v :: v in candidates && v.id == id && forall w :: w in candidates ==> w.id.version <= v.id.version
  }

  ghost predicate IsNextAction(all: set<Snapshot>, action: Option<Action>) {
    if MayUnload(all) && UnaspiredReady(all) != {} then
      action.Some? && action.value.kind == Unload && IsLowest(UnaspiredReady(all), action.value.id)
    else if AspiredNew(all) != {} then
      action.Some? && action.value.kind == Load && IsHighest(AspiredNew(all), action.value.id)
    else
      action == None
  }

  function LowestId(versions: seq<Snapshot>): (lowest: Option<ServableId>)
    ensures versions == [] <==> lowest == None
    ensures lowest.Some? ==> IsLowest(SetOf(versions), lowest.value)
  {
    if versions == [] then None
    else
      var init, last := versions[..|versions| - 1], versions[|versions| - 1];
      var lowest := LowestId(init);
      assert forall v :: v in versions <==> v in init || v == last;
      if lowest.Some? && lowest.value.version <= last.id.version then
        assert IsLowest(SetOf(init), lowest.value);
        var l := lowest.value;
        assert IsLowest(SetOf(versions), l) by {
          var v :| v in init && v.id == l && forall w :: w in init ==> v.id.version <= w.id.version;
          assert v in SetOf(versions);
        }
        lowest
      else
        assert last in SetOf(versions);
        Some(last.id)
  }

  method GetHighestAspiredNewServableId(all: seq<Snapshot>) returns (highest: Option<ServableId>)
    ensures highest == None <==> AspiredNew(SetOf(all)) == {}
    ensures highest.Some? ==> IsHighest(AspiredNew(SetOf(all)), highest.value)
  {
    highest := None;
    for i := 0 to |all|
      invariant highest == None <==> forall j :: 0 <= j < i ==> !(all[j].isAspired && all[j].state.New?)
      invariant highest.Some? ==>
        exists j :: 0 <= j < i && all[j].isAspired && all[j].state.New? && all[j].id == highest.value
      invariant highest.Some? ==>
        forall j :: 0 <= j < i && all[j].isAspired && all[j].state.New? ==> all[j].id.version <= highest.value.version
    {
      if all[i].isAspired && all[i].state.New? {
        if highest == None || all[i].id.version > highest.value.version {
          highest := Some(all[i].id);
        }
      }
    }
    ghost var candidates := AspiredNew(SetOf(all));
    if highest == None {
      assert candidates == {};
    } else {
      ghost var j :| 0 <= j < |all| && all[j].isAspired && all[j].state.New? && all[j].id == highest.value;
      assert all[j] in candidates;
    }
  }

  /** The policy: two flags and a list of candidates are gathered in one pass over the stream. */
  method GetNextAction(all: seq<Snapshot>) returns (action: Option<Action>)
    requires Distinct(all)
    ensures IsNextAction(SetOf(all), action)
  {
    var hasAspired, hasAspiredServing := false, false;
    var unaspiredServing: seq<Snapshot> := [];
    for i := 0 to |all|
      invariant hasAspired <==> exists j :: 0 <= j < i && all[j].isAspired
      invariant hasAspiredServing <==> exists j :: 0 <= j < i && all[j].isAspired && all[j].state.Ready?
      invariant forall v :: v in unaspiredServing <==> v in all[..i] && !v.isAspired && v.state.Ready?
      invariant Distinct(unaspiredServing)
    {
      if all[i].isAspired {
        hasAspired := true;
        if all[i].state.Ready? {
          hasAspiredServing := true;
        }
      } else if all[i].state.Ready? {
        unaspiredServing := unaspiredServing + [all[i]];
      }
    }
    ghost var stream := SetOf(all);
    assert all[..|all|] == all;
    assert UnaspiredReady(stream) == SetOf(unaspiredServing);
    FlagsMeanMayUnload(all, hasAspired, hasAspiredServing, unaspiredServing);
    if !hasAspired || hasAspiredServing || |unaspiredServing| > 1 {
      var versionToUnload := LowestId(unaspiredServing);
      if versionToUnload.Some? {
        return Some(Action(Unload, versionToUnload.value));
      }
    }
    var highest := GetHighestAspiredNewServableId(all);
    if highest.Some? {
      return Some(Action(Load, highest.value));
    }
    return None;
  }

  lemma FlagsMeanMayUnload(
    all: seq<Snapshot>, hasAspired: bool, hasAspiredServing: bool, unaspiredServing: seq<Snapshot>)
    requires hasAspired <==> exists j :: 0 <= j < |all| && all[j].isAspired
    requires hasAspiredServing <==> exists j :: 0 <= j < |all| && all[j].isAspired && all[j].state.Ready?
    requires UnaspiredReady(SetOf(all)) == SetOf(unaspiredServing)
    requires Distinct(unaspiredServing)
    ensures MayUnload(SetOf(all)) <==> !hasAspired || hasAspiredServing || |unaspiredServing| > 1
  {
    var stream := SetOf(all);
    if |unaspiredServing| > 1 {
      assert unaspiredServing[0] in UnaspiredReady(stream) && unaspiredServing[1] in UnaspiredReady(stream);
    } else {
      forall v, w | v in UnaspiredReady(stream) && w in UnaspiredReady(stream) ensures v == w {
        assert v in unaspiredServing && w in unaspiredServing;
      }
    }
    if hasAspired {
      var j :| 0 <= j < |all| && all[j].isAspired;
      assert all[j] in stream;
    }
  }

  /** Every stream has a next action: the policy is total. */
  lemma NextActionExists(all: set<Snapshot>) returns (action: Option<Action>)
    ensures IsNextAction(all, action)
  {
    if MayUnload(all) && UnaspiredReady(all) != {} {
      var v := LowestExists(UnaspiredReady(all));
      action := Some(Action(Unload, v.id));
    } else if AspiredNew(all) != {} {
      var v := HighestExists(AspiredNew(all));
      action := Some(Action(Load, v.id));
    } else {
      action := None;
    }
  }

  lemma LowestExists(candidates: set<Snapshot>) returns (v: Snapshot)
    requires candidates != {}
    ensures v in candidates && forall w :: w in candidates ==> v.id.version <= w.id.version
  {
    v :| v in candidates;
    if candidates != {v} {
      var w := LowestExists(candidates - {v});
      v := if w.id.version < v.id.version then w else v;
    }
  }

  lemma HighestExists(candidates: set<Snapshot>) returns (v: Snapshot)
    requires candidates != {}
    ensures v in candidates && forall w :: w in candidates ==> w.id.version <= v.id.version
  {
    v :| v in candidates;
    if candidates != {v} {
      var w := HighestExists(candidates - {v});
      v := if w.id.version > v.id.version then w else v;
    }
  }

  /**
    Why the policy preserves availability: it only ever unloads an unaspired, ready version, and in a
    stream with an aspired version some other version is ready at that moment. It loads only new,
    aspired versions.
   */
  lemma ActionIsSafe(all: set<Snapshot>, action: Action)
    requires IsNextAction(all, Some(action))
    ensures action.kind == Load ==> exists v :: v in all && v.id == action.id && v.isAspired && v.state.New?
    ensures action.kind == Unload ==> exists v :: v in all && v.id == action.id && !v.isAspired && v.state.Ready?
    ensures action.kind == Unload && (exists v :: v in all && v.isAspired) ==>
      exists w, v :: v in all && v.id == action.id && w in all && w != v && w.state.Ready?
  {
    if action.kind == Unload {
      var v :| v in UnaspiredReady(all) && v.id == action.id;
      if exists u :: u in all && u.isAspired {
        if w :| w in all && w.isAspired && w.state.Ready? {
          assert w != v;
        } else {
          var a, b :| a in UnaspiredReady(all) && b in UnaspiredReady(all) && a != b;
          var w := if a == v then b else a;
          assert w in all && w != v;
        }
      }
    } else {
      var v :| v in AspiredNew(all) && v.id == action.id;
    }
  }

  /** An unaspired ready version may go: nothing is aspired, or an aspired version or another unaspired one is ready. */
  ghost predicate CanSpare(all: set<Snapshot>, v: Snapshot) {
    && v in all && !v.isAspired && v.state.Ready?
    && ((forall w :: w in all ==> !w.isAspired) || exists w :: w in all && w != v && w.state.Ready?)
  }

  /**
    The policy in terms of the snapshots alone. It unloads the lowest unaspired ready version if that one may
    go; only if none may go it loads the highest aspired new version; and it does nothing only if there is
    neither.
   */
  lemma NextActionIs(all: set<Snapshot>, action: Option<Action>)
    requires IsNextAction(all, action)
    ensures action.Some? && action.value.kind == Unload <==> exists v :: CanSpare(all, v)
    ensures action.Some? && action.value.kind == Unload ==>
      (exists v :: CanSpare(all, v) && v.id == action.value.id) &&
      forall w :: w in all && !w.isAspired && w.state.Ready? ==> action.value.id.version <= w.id.version
    ensures action.Some? && action.value.kind == Load ==>
      (exists v :: v in all && v.id == action.value.id && v.isAspired && v.state.New?) &&
      forall w :: w in all && w.isAspired && w.state.New? ==> w.id.version <= action.value.id.version
    ensures action.None? ==> forall v :: v in all ==> !(v.isAspired && v.state.New?)
  {
    MayUnloadIff(all);
    assert forall v :: v in all && v.isAspired && v.state.New? ==> v in AspiredNew(all);
    if action.Some? && action.value.kind == Unload {
      var v :| v in UnaspiredReady(all) && v.id == action.value.id;
      assert CanSpare(all, v);
    }
  }

  /** If one unaspired ready version may go, then so may each. */
  lemma MayUnloadIff(all: set<Snapshot>)
    ensures MayUnload(all) && UnaspiredReady(all) != {} <==> exists v :: CanSpare(all, v)
    ensures MayUnload(all) ==> forall v :: v in UnaspiredReady(all) ==> CanSpare(all, v)
  {
    if MayUnload(all) {
      forall v | v in UnaspiredReady(all) ensures CanSpare(all, v) {
        if a, b :| a in UnaspiredReady(all) && b in UnaspiredReady(all) && a != b {
          assert a in all && b in all && a.state.Ready? && b.state.Ready?;
        }
      }
    }
    if v :| CanSpare(all, v) {
      assert v in UnaspiredReady(all);
      if w :| w in all && w != v && w.state.Ready? {
        assert !w.isAspired ==> w in UnaspiredReady(all);
      }
    }
  }

  ghost predicate UniqueIds(all: set<Snapshot>) {
    forall v, w :: v in all && w in all && v.id == w.id ==> v == w
  }

  /** Some version other than `id` is ready. */
  ghost predicate OtherReady(all: set<Snapshot>, id: ServableId) {
    exists w :: w in all && w.id != id && w.state.Ready?
  }

  /** What the description promises: the only loaded version is not unloaded. */
  ghost predicate KeepsLastReady(all: set<Snapshot>) {
    forall id :: IsNextAction(all, Some(Action(Unload, id))) ==> OtherReady(all, id)
  }

  /** Something is aspired, or there is nothing to unload, or there is more than that. */
  ghost predicate HasReserve(all: set<Snapshot>) {
    || (exists v :: v in all && v.isAspired)
    || UnaspiredReady(all) == {}
    || (exists v, w :: v in UnaspiredReady(all) && w in UnaspiredReady(all) && v != w)
  }

  /** A stream that breaks the promise: its only version is ready and no longer aspired. */
  lemma OnlyLoadedVersionIsUnloaded(id: ServableId)
    ensures var all := {Snapshot(id, Ready, false)};
      IsNextAction(all, Some(Action(Unload, id))) && UniqueIds(all) && !OtherReady(all, id)
  {
    var all := {Snapshot(id, Ready, false)};
    assert UnaspiredReady(all) == all;
  }

  /**
    The policy keeps the promise in a stream exactly if it has an aspired version, or not just one
    unaspired ready one.
   */
  lemma KeepsLastReadyIff(all: set<Snapshot>)
    requires UniqueIds(all)
    ensures KeepsLastReady(all) <==> HasReserve(all)
  {
    if HasReserve(all) {
      forall id | IsNextAction(all, Some(Action(Unload, id))) ensures OtherReady(all, id) {
        UnloadLeavesOther(all, id);
      }
    } else {
      var v :| v in UnaspiredReady(all);
      assert IsLowest(UnaspiredReady(all), v.id);
      assert IsNextAction(all, Some(Action(Unload, v.id)));
      forall w | w in all && w.state.Ready? ensures w == v {
        assert w in UnaspiredReady(all);
      }
    }
  }

  lemma UnloadLeavesOther(all: set<Snapshot>, id: ServableId)
    requires UniqueIds(all) && HasReserve(all) && IsNextAction(all, Some(Action(Unload, id)))
    ensures OtherReady(all, id)
  {
    ActionIsSafe(all, Action(Unload, id));
    if !exists v :: v in all && v.isAspired {
      var v, w :| v in UnaspiredReady(all) && w in UnaspiredReady(all) && v != w;
      assert v.id != w.id;
    }
  }

  // ---------- The choice among all streams ----------

  function OrderActions(lhs: Action, rhs: Action): Action {
    match lhs.kind
    case Unload => lhs
    case Load => if rhs.kind == Unload then rhs else lhs
  }

  /** The comparator handed to the sort: true when `lhs` goes first. */
  predicate Before(lhs: Option<Action>, rhs: Option<Action>) {
    if lhs.None? then false
    else if rhs.None? then true
    else OrderActions(lhs.value, rhs.value).kind != rhs.value.kind
  }

  /** The comparator is a strict weak ordering, which the sort requires. */
  lemma BeforeIsStrictWeakOrdering(a: Option<Action>, b: Option<Action>, c: Option<Action>)
    ensures !Before(a, a)
    ensures Before(a, b) ==> !Before(b, a)
    ensures Before(a, b) && Before(b, c) ==> Before(a, c)
    ensures !Before(a, b) && !Before(b, a) && !Before(b, c) && !Before(c, b) ==> !Before(a, c) && !Before(c, a)
  {}

  ghost predicate Sorted(actions: seq<Option<Action>>) {
    forall i, j :: 0 <= i < j < |actions| ==> !Before(actions[j], actions[i])
  }

  /** What the head of any sorted arrangement of `proposals` is. */
  ghost predicate IsGlobalChoice(proposals: set<Option<Action>>, choice: Option<Action>) {
    if proposals == {} then choice == None
    else choice in proposals && forall p :: p in proposals ==> !Before(p, choice)
  }

  /** The head of the sorted vector: an unload if anyone proposes one, else a load, else nothing. */
  lemma HeadOfSorted(proposals: seq<Option<Action>>, sorted: seq<Option<Action>>)
    requires multiset(proposals) == multiset(sorted) && Sorted(sorted)
    ensures var head := if sorted == [] then None else sorted[0];
      && IsGlobalChoice(SetOf(proposals), head)
      && ((exists p :: p in proposals && p.Some? && p.value.kind == Unload) <==>
        head.Some? && head.value.kind == Unload)
      && ((forall p :: p in proposals ==> p == None) <==> head == None)
  {
    assert forall p :: p in proposals <==> p in multiset(proposals);
    assert forall p :: p in sorted <==> p in multiset(sorted);
    if sorted != [] {
      var head := sorted[0];
      assert head in proposals && head in SetOf(proposals);
      forall p | p in proposals ensures !Before(p, head) {
        var i :| 0 <= i < |sorted| && sorted[i] == p;
      }
    } else {
      assert |multiset(proposals)| == |multiset(sorted)|;
    }
  }

  /** The library sort, by its contract: a sorted arrangement of the same elements. */
  function SortActions(actions: seq<Option<Action>>): (sorted: seq<Option<Action>>)
    ensures multiset(sorted) == multiset(actions) && Sorted(sorted)
  {
    if actions == [] then []
    else
      assert actions == [actions[0]] + actions[1..];
      InsertAction(actions[0], SortActions(actions[1..]))
  }

  function InsertAction(a: Option<Action>, sorted: seq<Option<Action>>): (r: seq<Option<Action>>)
    requires Sorted(sorted)
    ensures multiset(r) == multiset([a]) + multiset(sorted) && Sorted(r)
  {
    if sorted == [] || !Before(sorted[0], a) then
      assert forall x :: x in sorted ==> !Before(x, a);
      PrependKeepsSorted(a, sorted);
      [a] + sorted
    else
      var rest := InsertAction(a, sorted[1..]);
      assert sorted == [sorted[0]] + sorted[1..];
      assert forall x :: x in rest ==> x in multiset(rest);
      PrependKeepsSorted(sorted[0], rest);
      [sorted[0]] + rest
  }

  lemma PrependKeepsSorted(a: Option<Action>, sorted: seq<Option<Action>>)
    requires Sorted(sorted) && forall x :: x in sorted ==> !Before(x, a)
    ensures Sorted([a] + sorted)
  {}
}
