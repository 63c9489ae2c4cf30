/** Whole rolling upgrades: pods replaced under the partition, hooks and actions of any unit in any
    order, leader changes at any time, and no rollback. */
module UpgradeRollout {
  import opened UpgradeHandlers

  datatype Step =
    | Replace(unit: nat)
    | UpgradeCharm(unit: nat, supported: bool)
    | PebbleReady(unit: nat, started: bool, endpointReady: bool, healthy: bool, patched: bool)
    | RelationChanged(unit: nat)
    | PreCheck(unit: nat, passed: bool)
    | Resume(unit: nat, patched: bool)
    | Elect(unit: nat)

  /** Kubernetes replaces an old pod only at or above the partition; the replaced pod runs its
      upgrade-charm hook once; pre-upgrade-check on a failed cluster would be a rollback. */
  predicate Legal(s: Upgrade, st: Step) {
    && Shaped(s)
    && st.unit < |s.states|
    && (st.Replace? ==> s.pods[st.unit].Old? && s.partition <= st.unit)
    && (st.UpgradeCharm? ==> s.pods[st.unit].Replaced?)
    && (st.PreCheck? ==> !Lowest(s.states).Failed?)
  }

  function Next(s: Upgrade, st: Step): Upgrade
    requires Legal(s, st)
  {
    match st
    case Replace(u) => s.(pods := s.pods[u := Replaced])
    case UpgradeCharm(u, supported) => AfterUpgradeCharm(s.(pods := s.pods[u := Announced]), u, supported)
    case PebbleReady(u, started, endpointReady, healthy, patched) =>
      AfterPebbleReady(s, u, started, endpointReady, healthy, patched)
    case RelationChanged(u) => Changed(s, u)
    case PreCheck(u, passed) => AfterPreCheck(s, u, passed, [])
    case Resume(u, patched) => AfterResume(s, u, patched)
    case Elect(u) => s.(leader := u)
  }

  predicate LegalRun(s: Upgrade, steps: seq<Step>)
    decreases |steps|
  {
    steps == [] || (Legal(s, steps[0]) && LegalRun(Next(s, steps[0]), steps[1..]))
  }

  function Run(s: Upgrade, steps: seq<Step>): Upgrade
    requires LegalRun(s, steps)
    decreases |steps|
  {
    if steps == [] then s else Run(Next(s, steps[0]), steps[1..])
  }

  /** What a successful pre-upgrade-check leaves behind on an idle cluster. */
  predicate Start(s: Upgrade) {
    && Shaped(s)
    && s.stack == AllUnits(|s.states|)
    && s.partition == |s.states| - 1
    && forall i :: 0 <= i < |s.states| ==> s.states[i].Idle? && s.pods[i].Old?
  }

  /** Every unit has completed; some may have gone idle since. */
  predicate Done(s: Upgrade)
    requires Shaped(s)
  {
    forall i :: 0 <= i < |s.states| ==> s.pods[i].Announced? && (s.states[i].Completed? || s.states[i].Idle?)
  }

  predicate UnitOk(state: UnitState, pod: Pod) {
    && !state.Ready? && !state.Recovery?
    && (!pod.Announced? ==> state.Idle?)
  }

  /** Every unit above i has completed. */
  predicate AboveCompleted(s: Upgrade, i: int)
    requires Shaped(s)
  {
    forall j :: 0 <= j < |s.states| && i < j ==> s.states[j].Completed?
  }

  /** The one unit that may be missing from a stack of height k without being completed: the leader
      failed to patch the partition after its own completion had popped it. */
  predicate StackedOk(s: Upgrade, j: nat)
    requires Shaped(s) && j < |s.states|
  {
    s.states[j].Completed? || (j == |s.stack| && s.states[j].Failed? && 1 <= j < |s.states| - 1)
  }

  predicate Inv(s: Upgrade) {
    && Shaped(s)
    && (forall i :: 0 <= i < |s.states| ==> UnitOk(s.states[i], s.pods[i]))
    && |s.stack| <= |s.states| && s.stack == AllUnits(|s.stack|)
    && (s.stack == [] ==> Done(s))
    && (s.stack != [] ==> forall j :: |s.stack| <= j < |s.states| ==> StackedOk(s, j))
    && (Done(s) || (AboveCompleted(s, s.partition)
                    && forall i :: 0 <= i < |s.states| && !s.pods[i].Old? ==> AboveCompleted(s, i)))
  }

  lemma StartOk(s: Upgrade)
    requires Start(s)
    ensures Inv(s)
  {
  }

  /** A completed pre-upgrade-check makes an idle cluster of old pods ready to roll. */
  lemma PreCheckStarts(s: Upgrade)
    requires Shaped(s) && forall i :: 0 <= i < |s.states| ==> s.states[i].Idle? && s.pods[i].Old?
    ensures Legal(s, PreCheck(s.leader, true)) && Start(Next(s, PreCheck(s.leader, true)))
  {
    LowestIsFurthestBehind(s.states);
  }

  /** Nothing ever waits in "ready" on Kubernetes, so no chain grants an upgrade. */
  lemma NoGrant(s: Upgrade, u: nat, top: nat)
    requires Shaped(s) && u < |s.states| && top < |s.states|
    requires forall i :: 0 <= i < |s.states| ==> !s.states[i].Ready?
    ensures Grant(s, u, top) == s
  {
    LowestIsFurthestBehind(s.states);
  }

  lemma ChangedOk(s: Upgrade, u: nat)
    requires Inv(s) && u < |s.states|
    ensures Inv(Changed(s, u))
  {
    LowestIsFurthestBehind(s.states);
    if !Lowest(s.states).Failed? && s.stack != [] {
      if u != s.leader {
        NoGrant(s, u, s.stack[|s.stack| - 1]);
      } else {
        var left := WithoutCompleted(s.stack, s.states);
        PoppedOk(s, left);
        if left != [] {
          NoGrant(s.(stack := left), u, left[|left| - 1]);
        } else {
          SettleOk(s.(stack := left), u);
        }
      }
    } else if s.stack == [] {
      SettleOk(s, u);
    }
  }

  lemma PoppedOk(s: Upgrade, left: seq<nat>)
    requires Inv(s) && s.stack != [] && (forall i :: 0 <= i < |s.states| ==> !s.states[i].Failed?)
    requires left == WithoutCompleted(s.stack, s.states)
    ensures Inv(s.(stack := left))
  {
    var p := s.(stack := left);
    assert left == s.stack[..|left|] == AllUnits(|left|);
    forall j | |left| <= j < |s.states| ensures s.states[j].Completed? {
      if j < |s.stack| {
        assert s.stack[j] == j;
      } else {
        assert StackedOk(s, j);
      }
    }
    forall i | 0 <= i < |s.states| ensures UnitOk(s.states[i], s.pods[i]) {}
    if left == [] {
      assert forall i :: 0 <= i < |s.states| ==> s.states[i].Completed? && UnitOk(s.states[i], s.pods[i]);
      assert Done(p);
    }
    assert Done(s) ==> Done(p);
  }

  lemma SettleOk(s: Upgrade, u: nat)
    requires Inv(s) && s.stack == [] && u < |s.states|
    ensures Inv(Settle(s, u))
  {
    assert Done(Settle(s, u));
  }

  /** A unit that is neither old nor completed, in an upgrade that is not over, is the lowest one replaced. */
  lemma LowestReplaced(s: Upgrade, u: nat)
    requires Inv(s) && u < |s.states| && !Done(s) && !s.states[u].Completed?
    ensures forall i :: 0 <= i < u ==> s.pods[i].Old?
    ensures u <= s.partition
    ensures !s.pods[u].Old? ==> AboveCompleted(s, u)
  {
    forall i | 0 <= i < u ensures s.pods[i].Old? {
      assert !s.pods[i].Old? ==> AboveCompleted(s, i);
    }
  }

  /** Writing a new state into the lowest replaced unit. */
  lemma RestateOk(s: Upgrade, u: nat, state: UnitState)
    requires Inv(s) && u < |s.states| && s.stack != [] && !Done(s) && !s.states[u].Completed? && !s.pods[u].Old?
    requires state.Upgrading? || state.Failed? || state.Completed?
    requires u < |s.stack|
    ensures Inv(s.(states := s.states[u := state], pods := s.pods[u := Announced]))
  {
    LowestReplaced(s, u);
    var r := s.(states := s.states[u := state], pods := s.pods[u := Announced]);
    forall j | |r.stack| <= j < |r.states| ensures StackedOk(r, j) {
      assert StackedOk(s, j);
    }
    forall i | 0 <= i < |r.states| && !r.pods[i].Old? ensures AboveCompleted(r, i) {
      assert AboveCompleted(s, i);
    }
  }

  lemma StackedBelow(s: Upgrade, u: nat)
    requires Inv(s) && u < |s.states| && (s.states[u].Upgrading? || (s.states[u].Idle? && !Done(s)))
    ensures s.stack != [] && u < |s.stack| && !Done(s)
  {
    assert u >= |s.stack| && s.stack != [] ==> StackedOk(s, u);
  }

  lemma CompletionOk(s: Upgrade, u: nat, patched: bool)
    requires Inv(s) && u < |s.states| && s.states[u].Upgrading?
    ensures Inv(AfterCompletion(s, u, patched))
    ensures !patched && 0 < u < |s.states| - 1 && u == s.leader ==> AfterCompletion(s, u, patched).stack == AllUnits(u)
  {
    StackedBelow(s, u);
    assert UnitOk(s.states[u], s.pods[u]);
    LowestReplaced(s, u);
    RestateOk(s, u, Completed);
    var completed := s.(states := s.states[u := Completed]);
    assert s.pods[u := Announced] == s.pods;
    assert AboveCompleted(completed, u - 1);
    var updated := if u == s.leader then Changed(completed, u) else completed;
    if u == s.leader {
      ChangedOk(completed, u);
    }
    if 0 < u < |s.states| - 1 {
      assert s.pods[0].Old? && UnitOk(s.states[0], s.pods[0]);
      if u == s.leader {
        PopsToSelf(completed, u);
      }
      assert updated.states == completed.states && !Done(updated);
      if !patched {
        PatchFailureOk(updated, u);
      } else {
        assert AboveCompleted(updated, u - 1);
      }
    }
  }

  /** The chain of a leader that just completed in mid-upgrade pops everything down to itself. */
  lemma PopsToSelf(s: Upgrade, u: nat)
    requires Inv(s) && 0 < u < |s.states| && u == s.leader && u < |s.stack|
    requires AboveCompleted(s, u - 1) && forall i :: 0 <= i < u ==> s.pods[i].Old?
    ensures Changed(s, u) == s.(stack := AllUnits(u))
  {
    LowestIsFurthestBehind(s.states);
    assert forall i :: 0 <= i < u ==> UnitOk(s.states[i], s.pods[i]);
    assert forall i :: 0 <= i < |s.states| ==> s.states[i].Idle? || s.states[i].Completed?;
    var left := WithoutCompleted(s.stack, s.states);
    assert s.states[s.stack[u - 1]].Idle?;
    assert |left| == u;
    assert left == AllUnits(u);
    NoGrant(s.(stack := left), u, left[|left| - 1]);
  }

  lemma PatchFailureOk(s: Upgrade, u: nat)
    requires Inv(s) && 0 < u < |s.states| - 1 && !Done(s) && s.stack != []
    requires u <= |s.stack| && AboveCompleted(s, u - 1) && u <= s.partition
    requires forall i :: 0 <= i < u ==> s.pods[i].Old?
    ensures Inv(AfterFailure(s, u))
  {
    var r := AfterFailure(s, u);
    assert UnitOk(s.states[u], s.pods[u]);
    assert !Done(r);
    forall j | |r.stack| <= j < |r.states| ensures StackedOk(r, j) {
      assert StackedOk(s, j);
    }
    forall i | 0 <= i < |r.states| && !r.pods[i].Old? ensures AboveCompleted(r, i) {
      assert i >= u;
    }
  }

  lemma StepOk(s: Upgrade, st: Step)
    requires Inv(s) && Legal(s, st)
    ensures Inv(Next(s, st))
  {
    var u := st.unit;
    match st {
      case Replace(_) =>
        assert !Done(s);
        ReplaceOk(s, u);
      case UpgradeCharm(_, supported) =>
        assert UnitOk(s.states[u], s.pods[u]) && !Done(s);
        StackedBelow(s, u);
        RestateOk(s, u, if u == |s.states| - 1 && !supported then Failed else Upgrading);
      case PebbleReady(_, started, endpointReady, healthy, patched) =>
        assert UnitOk(s.states[u], s.pods[u]);
        if s.states[u].Upgrading? {
          CompletionOk(s, u, patched);
          StackedBelow(s, u);
          RestateOk(s, u, Failed);
          assert s.pods[u := Announced] == s.pods;
        }
      case RelationChanged(_) => ChangedOk(s, u);
      case PreCheck(_, passed) =>
        assert Done(s) ==> Done(Next(s, st));
      case Resume(_, patched) => ResumeOk(s, st);
      case Elect(_) =>
        assert Done(s) ==> Done(Next(s, st));
        forall j | |s.stack| <= j < |s.states| && s.stack != [] ensures StackedOk(Next(s, st), j) {
          assert StackedOk(s, j);
        }
    }
  }

  lemma ReplaceOk(s: Upgrade, u: nat)
    requires Inv(s) && u < |s.states| && s.pods[u].Old? && s.partition <= u
    ensures Inv(s.(pods := s.pods[u := Replaced]))
  {
    assert UnitOk(s.states[u], s.pods[u]) && !Done(s);
    LowestReplaced(s, u);
    var r := s.(pods := s.pods[u := Replaced]);
    forall j | |r.stack| <= j < |r.states| ensures StackedOk(r, j) {
      assert StackedOk(s, j);
    }
    forall i | 0 <= i < |r.states| && !r.pods[i].Old? ensures AboveCompleted(r, i) {
      if i != u {
        assert AboveCompleted(s, i);
      }
    }
  }

  lemma ResumeOk(s: Upgrade, st: Step)
    requires Inv(s) && Legal(s, st) && st.Resume?
    ensures Inv(Next(s, st))
  {
    var r := Next(s, st);
    if r != s {
      assert r.partition == |s.states| - 2;
      assert StackedOk(s, |s.states| - 1);
      assert Done(s) ==> Done(r);
    }
  }

  lemma {:induction false} RunOk(s: Upgrade, steps: seq<Step>)
    requires Inv(s) && LegalRun(s, steps)
    ensures Inv(Run(s, steps))
    decreases |steps|
  {
    if steps != [] {
      StepOk(s, steps[0]);
      RunOk(Next(s, steps[0]), steps[1..]);
    }
  }

  /** Order: when a pod is replaced, every higher-numbered unit has been replaced and has completed. */
  lemma HigherUnitsCompletedFirst(s: Upgrade, steps: seq<Step>, u: nat)
    requires Start(s) && LegalRun(s, steps) && Legal(Run(s, steps), Replace(u))
    ensures var e := Run(s, steps);
            forall j :: u < j < |e.states| ==> e.pods[j].Announced? && e.states[j].Completed?
  {
    StartOk(s);
    RunOk(s, steps);
    var e := Run(s, steps);
    assert !Done(e);
    forall j | u < j < |e.states| ensures e.pods[j].Announced? && e.states[j].Completed? {
      assert UnitOk(e.states[j], e.pods[j]);
    }
  }

  /** Replaced, but not yet completed. */
  predicate MidUpgrade(s: Upgrade, i: nat)
    requires Shaped(s) && i < |s.states|
  {
    s.pods[i].Replaced? || s.states[i].Upgrading? || s.states[i].Failed?
  }

  /** While one unit is mid-upgrade, all lower ones are untouched and all higher ones completed, so
      there is at most one. */
  lemma OneUnitMidUpgrade(s: Upgrade, steps: seq<Step>, i: nat)
    requires Start(s) && LegalRun(s, steps) && Shaped(Run(s, steps)) && i < |Run(s, steps).states|
    requires MidUpgrade(Run(s, steps), i)
    ensures var e := Run(s, steps);
            && (forall j :: 0 <= j < i ==> e.pods[j].Old? && e.states[j].Idle?)
            && (forall j :: i < j < |e.states| ==> e.pods[j].Announced? && e.states[j].Completed?)
  {
    StartOk(s);
    RunOk(s, steps);
    var e := Run(s, steps);
    assert UnitOk(e.states[i], e.pods[i]) && !Done(e);
    LowestReplaced(e, i);
    forall j | 0 <= j < |e.states| ensures UnitOk(e.states[j], e.pods[j]) {}
  }

  /** Without a rollback a failed unit stays failed and every lower unit stays at the old revision. */
  lemma {:induction false} FailureFreezesLowerUnits(s: Upgrade, steps: seq<Step>, i: nat)
    requires Inv(s) && LegalRun(s, steps) && i < |s.states| && s.states[i].Failed?
    ensures var e := Run(s, steps);
            && |e.states| == |s.states| == |e.pods| && e.states[i].Failed?
            && forall j :: 0 <= j < i ==> e.pods[j].Old?
    decreases |steps|
  {
    assert UnitOk(s.states[i], s.pods[i]) && !Done(s);
    LowestReplaced(s, i);
    if steps != [] {
      FailedStaysFailed(s, steps[0], i);
      StepOk(s, steps[0]);
      FailureFreezesLowerUnits(Next(s, steps[0]), steps[1..], i);
    }
  }

  lemma FailedStaysFailed(s: Upgrade, st: Step, i: nat)
    requires Inv(s) && Legal(s, st) && i < |s.states| && s.states[i].Failed?
    ensures |Next(s, st).states| == |s.states| && Next(s, st).states[i].Failed?
  {
    assert forall j :: 0 <= j < |s.states| ==> UnitOk(s.states[j], s.pods[j]);
    LowestIsFurthestBehind(s.states);
    LowestReplaced(s, i);
  }

  // ----- completion needs health -----

  /** The replaced unit's own verdict: its database has started and, for the leader, so has the primary endpoint. */
  predicate Verdict(s: Upgrade, st: Step) {
    && st.PebbleReady? && st.unit < |s.states| && st.started
    && (s.states[st.unit].Upgrading? || s.states[st.unit].Recovery?)
    && (st.unit == s.leader ==> st.endpointReady)
  }

  /** Without a verdict nothing changes. An unhealthy unit fails, and neither the partition, the stack, a pod nor
      another unit moves. */
  lemma UnhealthyOnlyFails(s: Upgrade, st: Step)
    requires Legal(s, st) && st.PebbleReady?
    ensures !Verdict(s, st) ==> Next(s, st) == s
    ensures Verdict(s, st) && !st.healthy ==> Next(s, st) == s.(states := s.states[st.unit := Failed])
  {
  }

  /** A healthy unit completes; an inner one moves the partition to the next lower unit, or fails when it cannot.
      A unit other than the leader leaves the stack alone. */
  lemma HealthyCompletes(s: Upgrade, st: Step)
    requires Legal(s, st) && Verdict(s, st) && st.healthy && st.unit != s.leader
    ensures var u, inner := st.unit, 0 < st.unit < |s.states| - 1;
            Next(s, st) == s.(states := s.states[u := if inner && !st.patched then Failed else Completed],
                              partition := if inner && st.patched then u - 1 else s.partition)
  {
  }

  /** The leader, besides, drops the completed suffix of the stack, its own unit included, unless some unit has
      failed; having emptied it, it may go idle at once. */
  lemma HealthyLeaderCompletes(s: Upgrade, st: Step, k: nat)
    requires Legal(s, st) && Verdict(s, st) && st.healthy && st.unit == s.leader
    requires var done := s.states[st.unit := Completed];
             && k <= |s.stack| && (forall i :: k <= i < |s.stack| ==> done[s.stack[i]].Completed?)
             && (k > 0 ==> !done[s.stack[k - 1]].Completed?)
    ensures var u, inner, d := st.unit, 0 < st.unit < |s.states| - 1, Next(s, st);
            && |d.states| == |s.states| && d.pods == s.pods && d.leader == s.leader
            && (forall v :: 0 <= v < |s.states| && v != u ==> d.states[v] == s.states[v])
            && (if inner && !st.patched then d.states[u].Failed?
                else d.states[u].Completed? || (d.states[u].Idle? && d.stack == []))
            && d.partition == (if inner && st.patched then u - 1 else s.partition)
            && d.stack == if Lowest(s.states[u := Completed]).Failed? then s.stack else s.stack[..k]
  {
    LeaderDropsLongestCompletedSuffix(s.(states := s.states[st.unit := Completed]), k);
  }

  /** After an unhealthy verdict no lower pod is ever replaced, whatever happens next. */
  lemma UnhealthyUnitFreezesLower(s: Upgrade, before: seq<Step>, st: Step, after: seq<Step>)
    requires Start(s) && LegalRun(s, before) && Legal(Run(s, before), st)
    requires Verdict(Run(s, before), st) && !st.healthy && LegalRun(Next(Run(s, before), st), after)
    ensures var d := Run(Next(Run(s, before), st), after);
            && st.unit < |d.states| == |d.pods| && d.states[st.unit].Failed?
            && forall j :: 0 <= j < st.unit ==> d.pods[j].Old?
  {
    StartOk(s);
    RunOk(s, before);
    StepOk(Run(s, before), st);
    UnhealthyOnlyFails(Run(s, before), st);
    FailureFreezesLowerUnits(Next(Run(s, before), st), after, st.unit);
  }

  /** The replaced pod's own hook: without a stack it only counts as run; otherwise the unit is upgrading, except the
      highest one when the upgrade is not supported, which fails. Nothing else moves. */
  lemma CharmHookReports(s: Upgrade, st: Step)
    requires Legal(s, st) && st.UpgradeCharm?
    ensures var u, unsupported := st.unit, st.unit == |s.states| - 1 && !st.supported;
            var reported := if s.stack == [] then s.states[u] else if unsupported then Failed else Upgrading;
            Next(s, st) == s.(pods := s.pods[u := Announced], states := s.states[u := reported])
  {
    var u := st.unit;
    assert s.states[u := s.states[u]] == s.states;
  }

  /** An unsupported upgrade stops at the highest unit: no other pod is ever replaced. */
  lemma UnsupportedUpgradeStops(s: Upgrade, before: seq<Step>, st: Step, after: seq<Step>)
    requires Start(s) && LegalRun(s, before) && Legal(Run(s, before), st)
    requires st.UpgradeCharm? && st.unit == |s.states| - 1 && !st.supported
    requires LegalRun(Next(Run(s, before), st), after)
    ensures var d := Run(Next(Run(s, before), st), after);
            && |d.states| == |s.states| == |d.pods| && d.states[st.unit].Failed?
            && forall j :: 0 <= j < |s.states| - 1 ==> d.pods[j].Old?
  {
    StartOk(s);
    RunOk(s, before);
    RunShape(s, before);
    var now := Run(s, before);
    StepOk(now, st);
    CharmHookReports(now, st);
    assert UnitOk(now.states[st.unit], now.pods[st.unit]) && !Done(now);
    FailureFreezesLowerUnits(Next(now, st), after, st.unit);
  }

  /** Step k of the run is a healthy verdict of unit j. */
  predicate HealthyAt(steps: seq<Step>, k: int, j: nat) {
    && 0 <= k < |steps| && steps[k].PebbleReady? && steps[k].unit == j
    && steps[k].started && steps[k].healthy
  }

  lemma ChangedCompletesNobody(s: Upgrade, u: nat, j: nat)
    requires Shaped(s) && u < |s.states| && j < |s.states| && !s.states[j].Completed?
    ensures !Changed(s, u).states[j].Completed?
  {
  }

  lemma StepCompletes(s: Upgrade, st: Step, j: nat)
    requires Legal(s, st) && j < |s.states| && !s.states[j].Completed?
    requires |Next(s, st).states| == |s.states| && Next(s, st).states[j].Completed?
    ensures st.PebbleReady? && st.unit == j && st.started && st.healthy
  {
    if st.RelationChanged? {
      ChangedCompletesNobody(s, st.unit, j);
    } else if st.PebbleReady? {
      UnhealthyOnlyFails(s, st);
      if Verdict(s, st) && st.healthy && st.unit != j {
        CompletionCompletesOne(s, st.unit, st.patched, j);
      }
    }
  }

  lemma CompletionCompletesOne(s: Upgrade, u: nat, patched: bool, j: nat)
    requires Shaped(s) && u < |s.states| && j < |s.states| && j != u && !s.states[j].Completed?
    ensures |AfterCompletion(s, u, patched).states| == |s.states|
    ensures !AfterCompletion(s, u, patched).states[j].Completed?
  {
    var completed := s.(states := s.states[u := Completed]);
    ChangedCompletesNobody(completed, u, j);
  }

  /** No unit completes without a healthy verdict of its own in the run. */
  lemma {:induction false} CompletedMeansHealthy(s: Upgrade, steps: seq<Step>, j: nat) returns (k: nat)
    requires LegalRun(s, steps) && j < |s.states| && !s.states[j].Completed?
    requires j < |Run(s, steps).states| && Run(s, steps).states[j].Completed?
    ensures HealthyAt(steps, k, j)
    decreases |steps|
  {
    var next := Next(s, steps[0]);
    StepShape(s, steps[0]);
    if next.states[j].Completed? {
      StepCompletes(s, steps[0], j);
      k := 0;
    } else {
      k := CompletedMeansHealthy(next, steps[1..], j);
      k := k + 1;
    }
  }

  lemma StepShape(s: Upgrade, st: Step)
    requires Legal(s, st)
    ensures |Next(s, st).states| == |s.states|
  {
  }

  /** So whenever a pod may be replaced, every higher unit has reported itself healthy during this upgrade. */
  lemma HigherUnitsReportedHealthy(s: Upgrade, steps: seq<Step>, u: nat, j: nat) returns (k: nat)
    requires Start(s) && LegalRun(s, steps) && Legal(Run(s, steps), Replace(u)) && u < j < |s.states|
    ensures HealthyAt(steps, k, j)
  {
    StartOk(s);
    RunShape(s, steps);
    HigherUnitsCompletedFirst(s, steps, u);
    k := CompletedMeansHealthy(s, steps, j);
  }

  lemma {:induction false} RunShape(s: Upgrade, steps: seq<Step>)
    requires LegalRun(s, steps)
    ensures |Run(s, steps).states| == |s.states|
    decreases |steps|
  {
    if steps != [] {
      StepShape(s, steps[0]);
      RunShape(Next(s, steps[0]), steps[1..]);
    }
  }

  // ----- the failed cluster -----

  /** The pre-upgrade-check on a failed cluster, run by the leader, only prepares the rollback: its own state becomes
      "recovery", and a stack that is neither empty nor of the right height is repaired. */
  lemma FailedClusterIsPrepared(s: Upgrade, passed: bool, appUnits: seq<nat>)
    requires Shaped(s) && Lowest(s.states).Failed?
    ensures var d := AfterPreCheck(s, s.leader, passed, appUnits);
            && d.states == s.states[s.leader := Recovery] && d.partition == s.partition && d.pods == s.pods
            && d.leader == s.leader
            && (d.stack != s.stack ==> s.stack != [] && |s.stack| != |appUnits|)
            && (s.stack != [] && |s.stack| != |appUnits| ==>
                  && d.stack != [] && d.stack[|d.stack| - 1] == s.stack[|s.stack| - 1]
                  && forall v :: v in d.stack <==> v in s.stack || v in appUnits)
    ensures forall u :: 0 <= u < |s.states| && u != s.leader ==> AfterPreCheck(s, u, passed, appUnits) == s
  {
    if s.stack != [] && |s.stack| != |appUnits| {
      AbsentIs(s.stack, appUnits);
      var n := |s.stack| - 1;
      assert s.stack == s.stack[..n] + [s.stack[n]];
      var r := Repaired(s.stack, appUnits);
      assert forall v :: v in r <==> v in s.stack[..n] || v in Absent(s.stack, appUnits) || v == s.stack[n];
    }
  }

  // ----- the stack -----

  /** Every unit that left the persisted stack has completed. */
  predicate StackCovers(s: Upgrade)
    requires Shaped(s)
  {
    s.stack != [] ==> forall j :: |s.stack| <= j < |s.states| ==> s.states[j].Completed?
  }

  /** A leader in the middle of the order completes, but cannot patch the partition. */
  predicate OwnPatchFails(s: Upgrade, st: Step)
    requires Legal(s, st)
  {
    && st.PebbleReady? && st.unit == s.leader && 0 < st.unit < |s.states| - 1
    && s.states[st.unit].Upgrading? && st.started && st.endpointReady && st.healthy && !st.patched
  }

  /** The only loose unit an invariant state can have is a failed one just above the stack. */
  predicate LooseFailure(s: Upgrade)
    requires Shaped(s)
  {
    s.stack != [] && |s.stack| < |s.states| && s.states[|s.stack|].Failed?
  }

  lemma CoversUnlessLooseFailure(s: Upgrade)
    requires Inv(s)
    ensures StackCovers(s) <==> !LooseFailure(s)
  {
    if !StackCovers(s) {
      var j :| |s.stack| <= j < |s.states| && !s.states[j].Completed?;
      assert StackedOk(s, j);
    }
  }

  lemma ChangedAddsNoFailure(s: Upgrade, u: nat)
    requires Inv(s) && u < |s.states| && !LooseFailure(s)
    ensures !LooseFailure(Changed(s, u))
  {
    LowestIsFurthestBehind(s.states);
    assert forall i :: 0 <= i < |s.states| ==> UnitOk(s.states[i], s.pods[i]);
    if !Lowest(s.states).Failed? {
      assert forall i :: 0 <= i < |s.states| ==> !s.states[i].Failed?;
    }
  }

  lemma PebbleReadyAddsNoFailure(s: Upgrade, st: Step)
    requires Inv(s) && Legal(s, st) && !LooseFailure(s) && !OwnPatchFails(s, st)
    requires st.PebbleReady? && s.states[st.unit].Upgrading?
    ensures |Next(s, st).states| == |s.states| && Shaped(Next(s, st)) && !LooseFailure(Next(s, st))
  {
    var u := st.unit;
    StackedBelow(s, u);
    LowestReplaced(s, u);
    assert UnitOk(s.states[u], s.pods[u]);
    RestateOk(s, u, Completed);
    var completed := s.(states := s.states[u := Completed]);
    assert s.pods[u := Announced] == s.pods;
    if u == s.leader {
      ChangedAddsNoFailure(completed, u);
    }
  }

  /** The stack is always 0 .. k-1, and the step that leaves a popped unit uncompleted is exactly the
      leader's own failed partition patch. */
  lemma StackCoversUnlessOwnPatchFails(s: Upgrade, st: Step)
    requires Inv(s) && Legal(s, st) && StackCovers(s)
    ensures Shaped(Next(s, st)) && Next(s, st).stack == AllUnits(|Next(s, st).stack|)
    ensures StackCovers(Next(s, st)) <==> !OwnPatchFails(s, st)
  {
    StepOk(s, st);
    CoversUnlessLooseFailure(s);
    CoversUnlessLooseFailure(Next(s, st));
    var u := st.unit;
    assert UnitOk(s.states[u], s.pods[u]);
    if OwnPatchFails(s, st) {
      CompletionOk(s, u, false);
    } else if st.PebbleReady? && s.states[u].Upgrading? {
      PebbleReadyAddsNoFailure(s, st);
    } else if st.RelationChanged? {
      ChangedAddsNoFailure(s, u);
    } else if st.UpgradeCharm? {
      assert !Done(s);
      StackedBelow(s, u);
    }
  }

  predicate NoOwnPatchFailure(s: Upgrade, steps: seq<Step>)
    requires LegalRun(s, steps)
    decreases |steps|
  {
    steps == [] || (!OwnPatchFails(s, steps[0]) && NoOwnPatchFailure(Next(s, steps[0]), steps[1..]))
  }

  /** Over a whole upgrade in which no leader fails to patch after its own completion. */
  lemma {:induction false} StackCoversRuns(s: Upgrade, steps: seq<Step>)
    requires Inv(s) && StackCovers(s) && LegalRun(s, steps) && NoOwnPatchFailure(s, steps)
    ensures Inv(Run(s, steps)) && StackCovers(Run(s, steps))
    decreases |steps|
  {
    if steps != [] {
      StackCoversUnlessOwnPatchFails(s, steps[0]);
      StepOk(s, steps[0]);
      StackCoversRuns(Next(s, steps[0]), steps[1..]);
    }
  }

  lemma {:induction false} RunAppend(s: Upgrade, steps: seq<Step>, st: Step)
    requires LegalRun(s, steps) && Legal(Run(s, steps), st)
    ensures LegalRun(s, steps + [st]) && Run(s, steps + [st]) == Next(Run(s, steps), st)
    decreases |steps|
  {
    if steps == [] {
      assert [] + [st] == [st] && [st][1..] == [];
    } else {
      assert (steps + [st])[1..] == steps[1..] + [st];
      RunAppend(Next(s, steps[0]), steps[1..], st);
    }
  }

  /** Three units led by unit 1: pod i at `pods[i]`, the stack of height k, one partition. */
  function Three(states: seq<UnitState>, k: nat, partition: nat, pods: seq<Pod>): Upgrade {
    Upgrade(states, AllUnits(k), partition, pods, 1)
  }

  lemma UnitTwoUpgrades(s: Upgrade) returns (steps: seq<Step>)
    requires s == Three([Idle, Idle, Idle], 3, 2, [Old, Old, Old])
    ensures LegalRun(s, steps) && Run(s, steps) == Three([Idle, Idle, Completed], 3, 2, [Old, Old, Announced])
  {
    steps := [];
    RunAppend(s, steps, Replace(2));
    steps := steps + [Replace(2)];
    assert Run(s, steps) == Three([Idle, Idle, Idle], 3, 2, [Old, Old, Replaced]);
    RunAppend(s, steps, UpgradeCharm(2, true));
    steps := steps + [UpgradeCharm(2, true)];
    assert Run(s, steps) == Three([Idle, Idle, Upgrading], 3, 2, [Old, Old, Announced]);
    RunAppend(s, steps, PebbleReady(2, true, true, true, true));
    steps := steps + [PebbleReady(2, true, true, true, true)];
  }

  lemma LeaderResumes(s: Upgrade, before: seq<Step>) returns (steps: seq<Step>)
    requires LegalRun(s, before)
    requires Run(s, before) == Three([Idle, Idle, Completed], 3, 2, [Old, Old, Announced])
    ensures LegalRun(s, steps) && Run(s, steps) == Three([Idle, Idle, Completed], 2, 1, [Old, Old, Announced])
  {
    var d := Three([Idle, Idle, Completed], 3, 2, [Old, Old, Announced]);
    assert AllUnits(3)[..2] == AllUnits(2);
    LeaderDropsLongestCompletedSuffix(d, 2);
    assert Lowest(d.states) == Idle;
    NoGrant(d.(stack := AllUnits(2)), 1, 1);
    RunAppend(s, before, RelationChanged(1));
    steps := before + [RelationChanged(1)];
    assert Run(s, steps) == Three([Idle, Idle, Completed], 2, 2, [Old, Old, Announced]);
    RunAppend(s, steps, Resume(1, true));
    steps := steps + [Resume(1, true)];
  }

  lemma UnitOneReplaced(s: Upgrade, before: seq<Step>) returns (steps: seq<Step>)
    requires LegalRun(s, before)
    requires Run(s, before) == Three([Idle, Idle, Completed], 2, 1, [Old, Old, Announced])
    ensures LegalRun(s, steps)
              && Run(s, steps) == Three([Idle, Upgrading, Completed], 2, 1, [Old, Announced, Announced])
  {
    RunAppend(s, before, Replace(1));
    steps := before + [Replace(1)];
    assert Run(s, steps) == Three([Idle, Idle, Completed], 2, 1, [Old, Replaced, Announced]);
    RunAppend(s, steps, UpgradeCharm(1, true));
    steps := steps + [UpgradeCharm(1, true)];
  }

  /** That failing step is reachable from a started upgrade: three units, led by unit 1. */
  lemma OwnPatchFailureHappens(s: Upgrade) returns (steps: seq<Step>, st: Step)
    requires s == Three([Idle, Idle, Idle], 3, 2, [Old, Old, Old])
    ensures Start(s) && LegalRun(s, steps) && Legal(Run(s, steps), st) && OwnPatchFails(Run(s, steps), st)
    ensures Shaped(Next(Run(s, steps), st)) && !StackCovers(Next(Run(s, steps), st))
  {
    steps := UnitTwoUpgrades(s);
    steps := LeaderResumes(s, steps);
    steps := UnitOneReplaced(s, steps);
    st := PebbleReady(1, true, true, true, false);
    StartOk(s);
    RunOk(s, steps);
    StackCoversUnlessOwnPatchFails(Run(s, steps), st);
  }

  // ----- the end of the upgrade -----

  lemma ChangedIdlesAtEnd(s: Upgrade, u: nat, j: nat)
    requires Inv(s) && u < |s.states| && j < |s.states| && !s.states[j].Idle? && Changed(s, u).states[j].Idle?
    ensures Changed(s, u).stack == []
  {
  }

  lemma CompletionIdlesAtEnd(s: Upgrade, u: nat, j: nat, patched: bool)
    requires Inv(s) && u < |s.states| && j < |s.states| && !s.states[j].Idle? && s.states[u].Upgrading?
    requires |AfterCompletion(s, u, patched).states| == |s.states| && AfterCompletion(s, u, patched).states[j].Idle?
    ensures AfterCompletion(s, u, patched).stack == []
  {
    StackedBelow(s, u);
    assert UnitOk(s.states[u], s.pods[u]);
    RestateOk(s, u, Completed);
    assert s.pods[u := Announced] == s.pods;
    var completed := s.(states := s.states[u := Completed]);
    assert Changed(completed, u).states[j].Idle?;
    ChangedIdlesAtEnd(completed, u, j);
  }

  /** No unit goes back to "idle" before every unit has completed. */
  lemma IdleOnlyWhenAllCompleted(s: Upgrade, st: Step, j: nat)
    requires Inv(s) && Legal(s, st) && j < |s.states| && !s.states[j].Idle?
    requires |Next(s, st).states| == |s.states| && Next(s, st).states[j].Idle?
    ensures Next(s, st).stack == [] && Done(Next(s, st))
  {
    StepOk(s, st);
    var u := st.unit;
    assert UnitOk(s.states[u], s.pods[u]);
    if st.RelationChanged? {
      ChangedIdlesAtEnd(s, u, j);
    } else if st.PebbleReady? && s.states[u].Upgrading? {
      CompletionIdlesAtEnd(s, u, j, st.patched);
    }
  }

  /** Once the stack is empty, and until pre-upgrade-check fills it again, states only move from
      completed to idle. */
  lemma EmptyStackOnlySettles(s: Upgrade, st: Step)
    requires Inv(s) && Legal(s, st) && s.stack == [] && !st.PreCheck?
    ensures Next(s, st).stack == [] && |Next(s, st).states| == |s.states|
    ensures forall j :: 0 <= j < |s.states| ==>
              Next(s, st).states[j] == s.states[j] || (s.states[j].Completed? && Next(s, st).states[j].Idle?)
  {
    LowestIsFurthestBehind(s.states);
  }

  function Sweep(s: Upgrade, order: seq<nat>): Upgrade
    requires Shaped(s) && forall i :: 0 <= i < |order| ==> order[i] < |s.states|
    decreases |order|
  {
    if order == [] then s else Sweep(Changed(s, order[0]), order[1..])
  }

  /** One relation-changed hook in each unit, in any order, then makes the whole cluster idle. */
  lemma {:induction false} SweepMakesIdle(s: Upgrade, order: seq<nat>)
    requires Inv(s) && s.stack == [] && forall i :: 0 <= i < |order| ==> order[i] < |s.states|
    ensures var e := Sweep(s, order);
            |e.states| == |s.states| && forall u :: 0 <= u < |s.states| && (u in order || s.states[u].Idle?) ==>
                e.states[u].Idle?
    decreases |order|
  {
    if order != [] {
      LowestIsFurthestBehind(s.states);
      ChangedOk(s, order[0]);
      SweepMakesIdle(Changed(s, order[0]), order[1..]);
    }
  }
}
