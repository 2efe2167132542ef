/** Runs that show where promises end: the limits of availability, and why convergence needs every load to succeed. */
module WitnessRuns {
  import opened VersionPolicy
  import opened VersionLifecycle
  import opened LifecycleInvariants
  import opened Convergence

  const OLD := ServableId("A", 1)
  const NEWER := ServableId("A", 2)

  ghost function Last(r: Run): State
    requires IsRun(r)
  {
    r.states[|r.steps|]
  }

  lemma Extend(r: Run, step: Step) returns (next: Run)
    requires IsRun(r) && Enabled(Last(r), step)
    ensures IsRun(next) && Last(next) == Apply(Last(r), step)
    ensures next.steps == r.steps + [step] && next.states == r.states + [Last(next)]
  {
    next := Run(r.states + [Apply(Last(r), step)], r.steps + [step]);
    forall i: nat | i < |next.steps| ensures Follows(next, i) {
      if i < |r.steps| {
        assert Follows(r, i);
      }
    }
  }

  /** Requests and absorbs a version that is not managed yet; the ones omitted stop being aspired. */
  lemma Request(r: Run, e: Entry) returns (next: Run)
    requires IsRun(r) && e.id.name == "A" && e.id !in Last(r).managed && Last(r).pending == map[]
    requires forall id :: id in Last(r).managed ==> id.name == "A"
    ensures IsRun(next) && Last(next).pending == map[]
    ensures next.steps == r.steps + [EnqueueStep("A", [e]), AbsorbStep("A")]
    ensures Last(next).managed ==
      (map id | id in Last(r).managed :: Unaspired(Last(r).managed[id]))
        [e.id := Harness(e.loader, if e.healthy then New else Failed, true, false)]
  {
    var s := Last(r);
    next := Extend(r, EnqueueStep("A", [e]));
    var t := Last(next);
    assert VersionsOf([e]) == {e.id.version} by { assert e in [e]; }
    assert t.pending == map["A" := [e]];
    forall id | id in s.managed ensures id.version != e.id.version {
      assert id == ServableId("A", id.version) && e.id == ServableId("A", e.id.version);
    }
    assert !ContainsAnyReaspired(t, "A", [e]);
    next := Extend(next, AbsorbStep("A"));
    AbsorbOne(t, e);
  }

  lemma AbsorbOne(s: State, e: Entry)
    requires s.pending == map["A" := [e]] && e.id.name == "A" && e.id !in s.managed
    requires forall id :: id in s.managed ==> id.name == "A" && id.version != e.id.version
    ensures Absorb(s, "A").pending == map[]
    ensures Absorb(s, "A").managed ==
      (map id | id in s.managed :: Unaspired(s.managed[id]))
        [e.id := Harness(e.loader, if e.healthy then New else Failed, true, false)]
  {
    var next := VersionsOf([e]);
    assert next == {e.id.version} by { assert e in [e]; }
    var cleared := Unaspire(s, "A", next);
    var additions := next - AspiredVersions(s, "A");
    assert additions == {e.id.version};
    assert ManageAdditions(cleared, [], additions) == cleared;
    assert [e][..0] == [];
    assert ManageAdditions(cleared, [e], additions) == ManageServable(cleared, e);
  }

  /** Loads the only managed version. */
  lemma LoadOnly(r: Run, loader: nat) returns (next: Run)
    requires IsRun(r) && Last(r).managed == map[OLD := Harness(loader, New, true, false)] && Last(r).pending == map[]
    ensures IsRun(next) && Last(next).pending == map[]
    ensures Last(next).managed == map[OLD := Harness(loader, Ready, true, false)]
    ensures r.steps <= next.steps && forall i :: |r.steps| <= i < |next.steps| ==> Succeeds(next.steps[i])
  {
    var step := OnlyCanLoad(Last(r), loader);
    next := Extend(r, step);
    next := FinishLoad(next, OLD, true);
    assert next.steps
        == r.steps + [step, CompleteStep(OLD, true), CompleteStep(OLD, true), CompleteStep(OLD, true)];
  }

  lemma OnlyCanLoad(s: State, loader: nat) returns (step: Step)
    requires s.managed == map[OLD := Harness(loader, New, true, false)]
    ensures step.ActStep? && Enabled(s, step) && step.action == Action(Load, OLD)
  {
    assert Snapshot(OLD, New, true) in AspiredNew(StreamOf(s.managed, "A"));
    assert UnaspiredReady(StreamOf(s.managed, "A")) == {};
    assert OLD.name in Names(s.managed);
    step := ProposalEnablesAct(s, "A");
    ActionApplies(s, step);
  }

  /** A requested load is approved, begins, and succeeds or fails. */
  lemma FinishLoad(r: Run, id: ServableId, ok: bool) returns (next: Run)
    requires IsRun(r) && id in Last(r).managed && Last(r).managed[id].state.LoadRequested?
    ensures IsRun(next) && Last(next).pending == Last(r).pending
    ensures Last(next).managed == Last(r).managed[id := Last(r).managed[id].(state := if ok then Ready else Failed)]
    ensures next.steps == r.steps + [CompleteStep(id, true), CompleteStep(id, true), CompleteStep(id, ok)]
  {
    next := Extend(r, CompleteStep(id, true));
    next := Extend(next, CompleteStep(id, true));
    next := Extend(next, CompleteStep(id, ok));
  }

  /** Version 1 is ready; version 2, which is to replace it, is managed, and could be loaded if it is healthy. */
  lemma Replace(healthy: bool) returns (r: Run)
    ensures IsRun(r) && Last(r).pending == map[]
    ensures Last(r).managed ==
      map[OLD := Harness(1, Ready, false, true), NEWER := Harness(2, if healthy then New else Failed, true, false)]
    ensures forall i :: 0 <= i < |r.steps| ==>
      (healthy ==> Succeeds(r.steps[i])) && (r.steps[i].CompleteStep? ==> r.steps[i].ok)
  {
    r := Run([INITIAL_STATE], []);
    r := Request(r, Entry(OLD, 1, true));
    assert Last(r).managed == map[OLD := Harness(1, New, true, false)];
    r := LoadOnly(r, 1);
    r := Request(r, Entry(NEWER, 2, healthy));
  }

  /** The last request asks for version 1 again, which can be absorbed only once it is unloaded and gone. */
  lemma AskAgain(r: Run) returns (next: Run)
    requires IsRun(r) && Last(r).pending == map[]
    requires Last(r).managed == map[OLD := Harness(1, Ready, false, true), NEWER := Harness(2, Failed, true, false)]
    ensures IsRun(next) && AtRest(Last(next)) && !Settled(Last(next)) && "A" in Last(next).pending
    ensures next.steps == r.steps + [EnqueueStep("A", [Entry(OLD, 3, true)])]
  {
    next := Extend(r, EnqueueStep("A", [Entry(OLD, 3, true)]));
    var s := Last(next);
    assert s.pending == map["A" := [Entry(OLD, 3, true)]];
    assert Entry(OLD, 3, true) in s.pending["A"];
    assert ContainsAnyReaspired(s, "A", s.pending["A"]);
    assert LoneSurvivor(s, OLD);
    RunKeepsInv(next, |next.steps|);
    AtRestIffStalled(s);
  }

  /** With version 2 still to be loaded, version 1 is needed. */
  lemma OldIsNeeded(managed: map<ServableId, Harness>)
    requires managed == map[OLD := Harness(1, Ready, false, true), NEWER := Harness(2, New, true, false)]
    ensures !MayUnload(StreamOf(managed, "A")) && AspiredNew(StreamOf(managed, "A")) != {}
  {
    var stream := StreamOf(managed, "A");
    assert stream == {Snapshot(OLD, Ready, false), Snapshot(NEWER, New, true)};
    assert UnaspiredReady(stream) == {Snapshot(OLD, Ready, false)};
    assert Snapshot(NEWER, New, true) in AspiredNew(stream);
  }

  lemma LoadsNewer(s: State, step: Step)
    requires s.managed == map[OLD := Harness(1, Ready, false, true), NEWER := Harness(2, New, true, false)]
    requires step.ActStep? && Enabled(s, step)
    ensures step.action == Action(Load, NEWER)
  {
    OldIsNeeded(s.managed);
    ActionApplies(s, step);
    ActionIsProposed(s, step);
    if MayUnload(StreamOf(step.snapshot, "A")) {
      LagKeepsMayUnload(s, step.snapshot, "A");
    }
  }

  /** The loading of version 2 begins, and fails. */
  lemma FailLoad(r: Run) returns (next: Run, step: Step)
    requires IsRun(r) && Last(r).pending == map[]
    requires Last(r).managed == map[OLD := Harness(1, Ready, false, true), NEWER := Harness(2, New, true, false)]
    ensures IsRun(next) && Last(next).pending == map[] && step.ActStep?
    ensures Last(next).managed == map[OLD := Harness(1, Ready, false, true), NEWER := Harness(2, Failed, true, false)]
    ensures next.steps
      == r.steps + [step, CompleteStep(NEWER, true), CompleteStep(NEWER, true), CompleteStep(NEWER, false)]
  {
    step := NewerCanLoad(Last(r));
    next := Extend(r, step);
    next := FinishLoad(next, NEWER, false);
  }

  lemma NewerCanLoad(s: State) returns (step: Step)
    requires s.managed == map[OLD := Harness(1, Ready, false, true), NEWER := Harness(2, New, true, false)]
    ensures step.ActStep? && Enabled(s, step) && step.action == Action(Load, NEWER)
  {
    OldIsNeeded(s.managed);
    assert OLD in s.managed && OLD.name in Names(s.managed);
    step := ProposalEnablesAct(s, "A");
    LoadsNewer(s, step);
  }

  /**
    One failing load is enough. All requests are healthy and only the `i`-th step fails, but version 1,
    asked for again, is the stream's only ready version: it is not unloaded, and the request waits for that.
   */
  lemma FailedLoadCanStall() returns (r: Run, i: nat)
    ensures IsRun(r) && AtRest(Last(r)) && !Settled(Last(r)) && "A" in Last(r).pending
    ensures i < |r.steps| && r.steps[i] == CompleteStep(NEWER, false)
    ensures forall j :: 0 <= j < |r.steps| && j != i ==> Succeeds(r.steps[j])
  {
    var ready := Replace(true);
    var failed, step := FailLoad(ready);
    r := AskAgain(failed);
    i := |ready.steps| + 3;
    var again := EnqueueStep("A", [Entry(OLD, 3, true)]);
    assert r.steps == ready.steps
      + [step, CompleteStep(NEWER, true), CompleteStep(NEWER, true), CompleteStep(NEWER, false), again];
    assert Healthy(again.request);
  }

  /** So is one version that is offered as unhealthy, without any completion that fails. */
  lemma UnhealthyVersionCanStall() returns (r: Run)
    ensures IsRun(r) && AtRest(Last(r)) && !Settled(Last(r)) && "A" in Last(r).pending
    ensures forall i :: 0 <= i < |r.steps| && r.steps[i].CompleteStep? ==> r.steps[i].ok
  {
    var failed := Replace(false);
    r := AskAgain(failed);
    assert forall j :: 0 <= j < |failed.steps| ==> r.steps[j] == failed.steps[j];
  }

  /** Version 1 is ready, and is no longer aspired, like everything else. */
  lemma DropAll() returns (r: Run)
    ensures IsRun(r) && Last(r).managed == map[OLD := Harness(1, Ready, false, true)] && Last(r).pending == map[]
  {
    r := Run([INITIAL_STATE], []);
    r := Request(r, Entry(OLD, 1, true));
    assert Last(r).managed == map[OLD := Harness(1, New, true, false)];
    r := LoadOnly(r, 1);
    r := Extend(r, EnqueueStep("A", []));
    assert VersionsOf([]) == {};
    r := Extend(r, AbsorbStep("A"));
  }

  /** A run in which the only ready version of a stream is unloaded, because nothing is aspired any more. */
  lemma AvailabilityCanEnd() returns (r: Run)
    ensures IsRun(r) && |r.steps| > 0 && r.steps[|r.steps| - 1].ActStep?
    ensures HasReady(r.states[|r.steps| - 1], "A") && !HasReady(Last(r), "A")
  {
    var ready := DropAll();
    var s := Last(ready);
    var stream := StreamOf(s.managed, "A");
    OnlyLoadedVersionIsUnloaded(OLD);
    assert stream == {Snapshot(OLD, Ready, false)};
    assert OLD in s.managed && OLD.name in Names(s.managed);
    var step := ProposalEnablesAct(s, "A");
    ActionApplies(s, step);
    r := Extend(ready, step);
    assert r.states[|r.steps| - 1] == s;
  }
}
