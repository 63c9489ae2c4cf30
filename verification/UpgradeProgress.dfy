/** When a rolling upgrade can still be finished: unless it rests between two units with the partition above
    the next one, which repeating pre-upgrade-check or resume-upgrade at the wrong moment brings about. */
module UpgradeProgress {
  import opened UpgradeHandlers
  import opened UpgradeRollout

  predicate NoneFailed(s: Upgrade) {
    forall i :: 0 <= i < |s.states| ==> !s.states[i].Failed?
  }

  /** Holds throughout an upgrade, failures included. */
  predicate Tidy(s: Upgrade) {
    && Inv(s) && s.partition < |s.states|
    && (Done(s) || forall i :: 0 <= i < |s.states| && s.pods[i].Announced? ==> !s.states[i].Idle?)
  }

  /** Units k and above have been upgraded, and no other one has been replaced. */
  predicate Resting(s: Upgrade, k: int) {
    && Tidy(s) && 1 <= k <= |s.states|
    && (forall i :: 0 <= i < k ==> s.pods[i].Old?)
    && (forall i :: k <= i < |s.states| ==> s.pods[i].Announced? && s.states[i].Completed?)
  }

  /** At least two units are upgraded, and the partition shuts out the next one. */
  predicate StuckAt(s: Upgrade, k: int) {
    Resting(s, k) && k + 2 <= |s.states| && k <= s.partition
  }

  ghost predicate Stuck(s: Upgrade) {
    exists k :: StuckAt(s, k)
  }

  lemma RestingIs(s: Upgrade, k: int)
    requires Resting(s, k)
    ensures !Done(s) && s.stack != [] && NoneFailed(s) && k <= |s.stack|
    ensures forall i :: 0 <= i < k ==> s.states[i].Idle?
    ensures forall i :: 0 <= i < |s.states| ==> s.states[i].Idle? || s.states[i].Completed?
  {
    assert s.pods[0].Old?;
    assert forall i :: 0 <= i < |s.states| ==> UnitOk(s.states[i], s.pods[i]);
    assert |s.stack| < k ==> StackedOk(s, k - 1);
  }

  // ----- tidiness -----

  lemma ChangedStates(s: Upgrade, u: nat)
    requires Inv(s) && u < |s.states|
    ensures var r := Changed(s, u);
            && r.pods == s.pods && r.partition == s.partition && r.leader == s.leader
            && (r.states == s.states || (s.states[u].Completed? && r.states == s.states[u := Idle] && r.stack == []))
  {
    LowestIsFurthestBehind(s.states);
    assert forall i :: 0 <= i < |s.states| ==> UnitOk(s.states[i], s.pods[i]);
    if s.stack != [] {
      NoGrant(s, u, s.stack[|s.stack| - 1]);
      var left := WithoutCompleted(s.stack, s.states);
      if left != [] {
        NoGrant(s.(stack := left), u, left[|left| - 1]);
      }
    }
  }

  lemma CompletionTidy(s: Upgrade, u: nat, patched: bool)
    requires Tidy(s) && u < |s.states| && s.states[u].Upgrading?
    ensures Tidy(AfterCompletion(s, u, patched))
  {
    CompletionOk(s, u, patched);
    StackedBelow(s, u);
    assert UnitOk(s.states[u], s.pods[u]);
    RestateOk(s, u, Completed);
    assert s.pods[u := Announced] == s.pods;
    ChangedStates(s.(states := s.states[u := Completed]), u);
  }

  lemma CharmStarts(s: Upgrade, u: nat, supported: bool)
    requires Inv(s) && Legal(s, UpgradeCharm(u, supported))
    ensures var t := Next(s, UpgradeCharm(u, supported));
            && |t.pods| == |s.pods| == |t.states| && t.pods == s.pods[u := Announced] && t.partition == s.partition
            && (t.states == s.states[u := Upgrading] || t.states == s.states[u := Failed])
            && t.pods[u].Announced? && !t.states[u].Completed?
  {
    assert !Done(s) && s.stack != [];
  }

  lemma StepTidy(s: Upgrade, st: Step)
    requires Tidy(s) && Legal(s, st)
    ensures Tidy(Next(s, st)) && |Next(s, st).states| == |s.states|
  {
    StepOk(s, st);
    assert forall i :: 0 <= i < |s.states| ==> UnitOk(s.states[i], s.pods[i]);
    match st {
      case PebbleReady(u, _, _, _, patched) =>
        if s.states[u].Upgrading? {
          CompletionTidy(s, u, patched);
        }
      case RelationChanged(u) => ChangedStates(s, u);
      case UpgradeCharm(u, supported) => CharmStarts(s, u, supported);
      case Replace(_) =>
      case PreCheck(_, _) =>
      case Resume(_, _) =>
      case Elect(_) =>
    }
  }

  lemma {:induction false} RunTidy(s: Upgrade, steps: seq<Step>)
    requires Tidy(s) && LegalRun(s, steps)
    ensures Tidy(Run(s, steps))
    decreases |steps|
  {
    if steps != [] {
      StepTidy(s, steps[0]);
      RunTidy(Next(s, steps[0]), steps[1..]);
    }
  }

  // ----- stuck for good -----

  lemma StuckStays(s: Upgrade, k: int, st: Step)
    requires StuckAt(s, k) && Legal(s, st)
    ensures StuckAt(Next(s, st), k)
  {
    RestingIs(s, k);
    StepTidy(s, st);
    LowestIsFurthestBehind(s.states);
    if st.RelationChanged? {
      ChangedStates(s, st.unit);
    }
  }

  lemma {:induction false} StuckForever(s: Upgrade, k: int, steps: seq<Step>)
    requires StuckAt(s, k) && LegalRun(s, steps)
    ensures StuckAt(Run(s, steps), k)
    decreases |steps|
  {
    if steps != [] {
      StuckStays(s, k, steps[0]);
      StuckForever(Next(s, steps[0]), k, steps[1..]);
    }
  }

  // ----- finishing -----

  /** These steps lead from s to e. */
  predicate Leads(s: Upgrade, steps: seq<Step>, e: Upgrade) {
    LegalRun(s, steps) && Run(s, steps) == e
  }

  lemma LeadsNext(s: Upgrade, steps: seq<Step>, e: Upgrade, st: Step) returns (more: seq<Step>)
    requires Leads(s, steps, e) && Legal(e, st)
    ensures Leads(s, more, Next(e, st))
  {
    RunAppend(s, steps, st);
    more := steps + [st];
  }

  /** Unit k has been replaced and is the only one under way. */
  predicate UnderWay(s: Upgrade, k: nat) {
    && Tidy(s) && NoneFailed(s) && !Done(s) && k < |s.states|
    && !s.pods[k].Old? && !s.states[k].Completed?
    && (forall i :: 0 <= i < k ==> s.pods[i].Old?)
    && (forall i :: k < i < |s.states| ==> s.pods[i].Announced? && s.states[i].Completed?)
  }

  lemma UnderWayIs(s: Upgrade, k: nat)
    requires UnderWay(s, k)
    ensures s.stack != [] && k < |s.stack|
    ensures if s.pods[k].Replaced? then s.states[k].Idle? else s.states[k].Upgrading?
  {
    assert UnitOk(s.states[k], s.pods[k]);
    assert |s.stack| <= k && s.stack != [] ==> StackedOk(s, k);
  }

  lemma Announces(s: Upgrade, k: nat)
    requires UnderWay(s, k) && s.pods[k].Replaced?
    ensures Legal(s, UpgradeCharm(k, true))
    ensures UnderWay(Next(s, UpgradeCharm(k, true)), k) && Next(s, UpgradeCharm(k, true)).pods[k].Announced?
    ensures Next(s, UpgradeCharm(k, true)).partition == s.partition
  {
    UnderWayIs(s, k);
    StepTidy(s, UpgradeCharm(k, true));
    var t := Next(s, UpgradeCharm(k, true));
    assert t.states[k].Upgrading? && !Done(t);
  }

  /** Where the partition stands once unit k has completed. */
  function PartitionAfter(s: Upgrade, k: nat): nat {
    if 0 < k && k + 1 < |s.states| then k - 1 else s.partition
  }

  lemma Completes(s: Upgrade, k: nat)
    requires UnderWay(s, k) && s.pods[k].Announced?
    ensures Legal(s, PebbleReady(k, true, true, true, true))
    ensures var t := Next(s, PebbleReady(k, true, true, true, true));
            && |t.states| == |s.states| && t.partition == PartitionAfter(s, k)
            && if k == 0 then Shaped(t) && Done(t) else Resting(t, k)
  {
    UnderWayIs(s, k);
    StepTidy(s, PebbleReady(k, true, true, true, true));
    RestateOk(s, k, Completed);
    assert s.pods[k := Announced] == s.pods;
    var completed := s.(states := s.states[k := Completed]);
    ChangedStates(completed, k);
    if k > 0 {
      assert UnitOk(s.states[0], s.pods[0]) && s.states[0].Idle?;
      PopsStopAbove(completed, k);
    }
  }

  /** The chain never settles while unit 0 is still to be upgraded. */
  lemma PopsStopAbove(s: Upgrade, u: nat)
    requires Inv(s) && u < |s.states| && s.states[0].Idle? && s.pods[0].Old?
    ensures Changed(s, u).states == s.states
  {
    ChangedOk(s, u);
    ChangedStates(s, u);
    assert Changed(s, u).pods[0].Old?;
  }

  lemma CompleteUnit(s: Upgrade, before: seq<Step>, t: Upgrade, k: nat) returns (steps: seq<Step>, e: Upgrade)
    requires Leads(s, before, t) && UnderWay(t, k)
    ensures Leads(s, steps, e) && |e.states| == |t.states| && e.partition == PartitionAfter(t, k)
    ensures if k == 0 then Shaped(e) && Done(e) else Resting(e, k)
  {
    steps, e := before, t;
    if e.pods[k].Replaced? {
      Announces(e, k);
      steps := LeadsNext(s, steps, e, UpgradeCharm(k, true));
      e := Next(e, UpgradeCharm(k, true));
    }
    UnderWayIs(e, k);
    Completes(e, k);
    steps := LeadsNext(s, steps, e, PebbleReady(k, true, true, true, true));
    e := Next(e, PebbleReady(k, true, true, true, true));
  }

  lemma Replaces(s: Upgrade, k: nat)
    requires Resting(s, k) && s.partition < k
    ensures Legal(s, Replace(k - 1)) && UnderWay(Next(s, Replace(k - 1)), k - 1)
  {
    RestingIs(s, k);
    StepTidy(s, Replace(k - 1));
    assert !Done(Next(s, Replace(k - 1))) by {
      assert Next(s, Replace(k - 1)).pods[k - 1].Replaced?;
    }
  }

  /** With only the highest unit upgraded, the leader updates the stack and resume-upgrade moves the partition. */
  lemma Resumes(s: Upgrade, before: seq<Step>, t: Upgrade) returns (steps: seq<Step>, e: Upgrade)
    requires Leads(s, before, t) && Resting(t, |t.states| - 1)
    ensures Leads(s, steps, e) && |e.states| == |t.states| && Resting(e, |e.states| - 1)
              && e.partition + 2 == |e.states|
  {
    var n := |t.states|;
    RestingIs(t, n - 1);
    LeaderPops(t);
    steps := LeadsNext(s, before, t, RelationChanged(t.leader));
    e := Next(t, RelationChanged(t.leader));
    StepTidy(t, RelationChanged(t.leader));
    StepTidy(e, Resume(e.leader, true));
    assert !Done(Next(e, Resume(e.leader, true)));
    steps := LeadsNext(s, steps, e, Resume(e.leader, true));
    e := Next(e, Resume(e.leader, true));
  }

  lemma LeaderPops(s: Upgrade)
    requires Resting(s, |s.states| - 1)
    ensures Changed(s, s.leader) == s.(stack := AllUnits(|s.states| - 1))
  {
    var n := |s.states|;
    RestingIs(s, n - 1);
    LowestIsFurthestBehind(s.states);
    assert s.states[n - 2].Idle?;
    assert s.stack[..n - 1] == AllUnits(n - 1);
    LeaderDropsLongestCompletedSuffix(s, n - 1);
    PopsStopAbove(s, s.leader);
    ChangedStates(s, s.leader);
  }

  lemma {:induction false} RollOut(s: Upgrade, before: seq<Step>, t: Upgrade, k: nat)
    returns (steps: seq<Step>, e: Upgrade)
    requires Leads(s, before, t) && Resting(t, k) && !StuckAt(t, k)
    ensures Leads(s, steps, e) && Shaped(e) && Done(e)
    decreases k
  {
    steps, e := before, t;
    if k + 1 == |t.states| {
      steps, e := Resumes(s, steps, e);
    }
    Replaces(e, k);
    steps := LeadsNext(s, steps, e, Replace(k - 1));
    e := Next(e, Replace(k - 1));
    steps, e := CompleteUnit(s, steps, e, k - 1);
    if k > 1 {
      steps, e := RollOut(s, steps, e, k - 1);
    }
  }

  /** How far an upgrade has come: where the old pods end. */
  lemma Frontier(s: Upgrade) returns (k: nat)
    requires Tidy(s) && NoneFailed(s) && !Done(s)
    ensures UnderWay(s, k) || Resting(s, k)
  {
    k := |s.states|;
    while k > 0 && !s.pods[k - 1].Old?
      invariant k <= |s.states|
      invariant forall i :: k <= i < |s.states| ==> !s.pods[i].Old?
    {
      k := k - 1;
    }
    forall i | 0 <= i < |s.states| ensures UnitOk(s.states[i], s.pods[i]) {}
    forall i | 0 <= i < k ensures s.pods[i].Old? {
      assert !s.pods[i].Old? ==> AboveCompleted(s, i);
    }
    if k < |s.states| {
      assert AboveCompleted(s, k);
    }
  }

  ghost predicate CanFinish(s: Upgrade) {
    exists steps :: LegalRun(s, steps) && Shaped(Run(s, steps)) && Done(Run(s, steps))
  }

  /** Without a failed unit, a rollout can still be finished if and only if it is not stuck. */
  lemma FinishesUnlessStuck(s: Upgrade)
    requires Tidy(s) && NoneFailed(s)
    ensures CanFinish(s) <==> !Stuck(s)
  {
    if k :| StuckAt(s, k) {
      forall steps | LegalRun(s, steps) && Shaped(Run(s, steps)) ensures !Done(Run(s, steps)) {
        StuckForever(s, k, steps);
        RestingIs(Run(s, steps), k);
      }
    } else {
      var none: seq<Step> := [];
      assert Leads(s, none, s);
      if !Done(s) {
        var k := Frontier(s);
        var steps, e := none, s;
        if UnderWay(s, k) {
          steps, e := CompleteUnit(s, steps, e, k);
          assert !StuckAt(e, k);
        }
        if k > 0 {
          steps, e := RollOut(s, steps, e, k);
        }
        assert LegalRun(s, steps);
      } else {
        assert LegalRun(s, none);
      }
    }
  }

  /** The same for every state an upgrade reaches. */
  lemma UpgradeFinishesUnlessStuck(s: Upgrade, steps: seq<Step>)
    requires Start(s) && LegalRun(s, steps) && NoneFailed(Run(s, steps))
    ensures CanFinish(Run(s, steps)) <==> !Stuck(Run(s, steps))
  {
    StartOk(s);
    RunTidy(s, steps);
    FinishesUnlessStuck(Run(s, steps));
  }

  // ----- how an upgrade gets stuck -----

  /** The check repeated, or resume-upgrade repeated before the leader has taken the second unit off the stack,
      while the upgrade rests with at least two units done and at least one to go. */
  ghost predicate Untimely(s: Upgrade, st: Step) {
    && (exists k :: Resting(s, k) && k + 2 <= |s.states|)
    && st.unit == s.leader
    && ((st.PreCheck? && st.passed) || (st.Resume? && st.patched && |s.stack| + 1 == |s.states|))
  }

  /** A step that fails nobody leaves a rollout stuck if and only if it is an untimely action. */
  lemma StuckByUntimelyActionOnly(s: Upgrade, st: Step)
    requires Tidy(s) && Legal(s, st) && !Stuck(s) && NoneFailed(Next(s, st))
    ensures Stuck(Next(s, st)) <==> Untimely(s, st)
  {
    StepTidy(s, st);
    if Untimely(s, st) {
      var k :| Resting(s, k) && k + 2 <= |s.states|;
      RestingIs(s, k);
      LowestIsFurthestBehind(s.states);
      assert StuckAt(Next(s, st), k);
    } else if k :| StuckAt(Next(s, st), k) {
      StuckHasCause(s, st, k);
      assert false;
    }
  }

  lemma StuckHasCause(s: Upgrade, st: Step, k: int)
    requires Tidy(s) && Legal(s, st) && StuckAt(Next(s, st), k)
    ensures StuckAt(s, k) || Untimely(s, st)
  {
    var t := Next(s, st);
    RestingIs(t, k);
    StepTidy(s, st);
    assert forall i :: 0 <= i < |s.states| ==> UnitOk(s.states[i], s.pods[i]);
    assert forall i :: 0 <= i < |t.states| ==>
        !t.pods[i].Replaced? && (t.pods[i].Announced? ==> t.states[i].Completed?);
    match st {
      case Replace(u) =>
      case UpgradeCharm(u, supported) =>
        CharmStarts(s, u, supported);
      case PebbleReady(u, _, _, _, patched) =>
        if s.states[u].Upgrading? && t != s {
          NotStuckByCompletion(s, st, k);
        }
      case RelationChanged(u) =>
        ChangedStates(s, u);
        assert t.pods[0].Old? && UnitOk(t.states[0], t.pods[0]);
        PopsStopAbove(s, u);
      case PreCheck(_, _) =>
        assert t != s ==> Resting(s, k);
      case Resume(_, _) =>
        assert Resting(s, k);
      case Elect(_) =>
        assert Resting(s, k);
    }
  }

  lemma SamePlace(s: Upgrade, k: int, u: nat)
    requires Resting(s, k) && u < |s.states| && s.pods[u].Announced? && forall i :: 0 <= i < u ==> s.pods[i].Old?
    ensures k == u
  {
    assert k <= u;
    assert s.pods[k].Announced?;
  }

  /** A completing unit opens the partition for the next one, unless it is the first or the last. */
  lemma NotStuckByCompletion(s: Upgrade, st: Step, k: int)
    requires Tidy(s) && Legal(s, st) && st.PebbleReady? && s.states[st.unit].Upgrading? && Next(s, st) != s
    ensures !StuckAt(Next(s, st), k)
  {
    var u, t := st.unit, Next(s, st);
    assert UnitOk(s.states[u], s.pods[u]);
    StackedBelow(s, u);
    LowestReplaced(s, u);
    RestateOk(s, u, Completed);
    assert s.pods[u := Announced] == s.pods;
    ChangedStates(s.(states := s.states[u := Completed]), u);
    assert t.pods[u].Announced? && forall i :: 0 <= i < u ==> t.pods[i].Old?;
    if Resting(t, k) {
      SamePlace(t, k, u);
    }
  }

  /** The second unit completes while another unit leads, so that the stack still holds two units. */
  lemma SecondUnitDone(s: Upgrade, before: seq<Step>, e: Upgrade) returns (steps: seq<Step>)
    requires Leads(s, before, Three([Idle, Upgrading, Completed], 2, 1, [Old, Announced, Announced]))
    requires e == Upgrade([Idle, Completed, Completed], AllUnits(2), 0, [Old, Announced, Announced], 0)
    ensures Leads(s, steps, e)
  {
    var t := Three([Idle, Upgrading, Completed], 2, 1, [Old, Announced, Announced]);
    steps := LeadsNext(s, before, t, Elect(0));
    t := t.(leader := 0);
    steps := LeadsNext(s, steps, t, PebbleReady(1, true, true, true, true));
    assert Next(t, PebbleReady(1, true, true, true, true)) == e;
  }

  lemma ActsUntimely(e: Upgrade, st: Step)
    requires e == Upgrade([Idle, Completed, Completed], AllUnits(2), 0, [Old, Announced, Announced], 0) && Tidy(e)
    requires st == PreCheck(0, true) || st == Resume(0, true)
    ensures Legal(e, st) && !Stuck(e) && NoneFailed(Next(e, st)) && Stuck(Next(e, st))
  {
    LowestIsFurthestBehind(e.states);
    assert Resting(e, 1) && forall k :: !StuckAt(e, k);
    assert Untimely(e, st);
    assert Legal(e, st) && NoneFailed(Next(e, st));
    StuckByUntimelyActionOnly(e, st);
  }

  /** Both ways are open to a started upgrade of three units: unit 2 and unit 1 are upgraded, and before unit 0 is
      replaced either the check is run again, or, with the leader still to update the stack, resume-upgrade. */
  lemma UntimelyActionsHappen(s: Upgrade, st: Step) returns (steps: seq<Step>)
    requires s == Three([Idle, Idle, Idle], 3, 2, [Old, Old, Old])
    requires st == PreCheck(0, true) || st == Resume(0, true)
    ensures Start(s) && LegalRun(s, steps) && Legal(Run(s, steps), st)
    ensures !Stuck(Run(s, steps)) && NoneFailed(Next(Run(s, steps), st)) && Stuck(Next(Run(s, steps), st))
  {
    var e := Upgrade([Idle, Completed, Completed], AllUnits(2), 0, [Old, Announced, Announced], 0);
    steps := UnitTwoUpgrades(s);
    steps := LeaderResumes(s, steps);
    steps := UnitOneReplaced(s, steps);
    steps := SecondUnitDone(s, steps, e);
    StartOk(s);
    RunTidy(s, steps);
    ActsUntimely(e, st);
  }
}
