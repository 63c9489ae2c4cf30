/** The rolling-upgrade handlers of a Kubernetes application with units 0 .. n-1. */
module UpgradeHandlers {
  import opened Databags
  import opened Sequences

  /** In the order of the STATES list: the state of the unit furthest behind comes first. */
  datatype UnitState = Recovery | Failed | Idle | Ready | Upgrading | Completed {
    function Rank(): nat {
      match this
      case Recovery => 0 case Failed => 1 case Idle => 2 case Ready => 3 case Upgrading => 4 case Completed => 5
    }
  }

  /** A pod still at the old revision, replaced but not yet through its upgrade-charm hook, or past it. */
  datatype Pod = Old | Replaced | Announced

  /** Unit states and persisted stack from the relation databags, the StatefulSet partition, the pods
      and the Juju leader. */
  datatype Upgrade = Upgrade(states: seq<UnitState>, stack: seq<nat>, partition: nat, pods: seq<Pod>, leader: nat)

  /** The state furthest behind. */
  function Lowest(states: seq<UnitState>): UnitState
    requires states != []
  {
    if |states| == 1 then states[0]
    else
      var rest := Lowest(states[1..]);
      if states[0].Rank() <= rest.Rank() then states[0] else rest
  }

  lemma {:induction false} LowestIsFurthestBehind(states: seq<UnitState>)
    requires states != []
    ensures Lowest(states) in states
    ensures forall i :: 0 <= i < |states| ==> Lowest(states).Rank() <= states[i].Rank()
  {
    if |states| > 1 {
      LowestIsFurthestBehind(states[1..]);
      assert forall i :: 1 <= i < |states| ==> states[i] == states[1..][i - 1];
    }
  }

  predicate Shaped(s: Upgrade) {
    && s.states != [] && |s.pods| == |s.states| && s.leader < |s.states|
    && forall i :: 0 <= i < |s.stack| ==> s.stack[i] < |s.states|
  }

  /** The stack without its longest suffix of completed units. */
  function WithoutCompleted(stack: seq<nat>, states: seq<UnitState>): (r: seq<nat>)
    requires forall i :: 0 <= i < |stack| ==> stack[i] < |states|
    ensures |r| <= |stack| && r == stack[..|r|]
    ensures r == [] || !states[r[|r| - 1]].Completed?
    ensures forall i :: |r| <= i < |stack| ==> states[stack[i]].Completed?
  {
    if stack == [] || !states[stack[|stack| - 1]].Completed? then stack
    else WithoutCompleted(stack[..|stack| - 1], states)
  }

  /** With nothing left to upgrade: a completed unit of a settled cluster goes idle. */
  function Settle(s: Upgrade, u: nat): Upgrade
    requires Shaped(s) && u < |s.states|
  {
    var lowest := Lowest(s.states);
    if s.states[u].Completed? && (lowest.Idle? || lowest.Completed?) then s.(states := s.states[u := Idle]) else s
  }

  /** The unit on top of the stack starts when the cluster is ready and no other unit is upgrading. */
  function Grant(s: Upgrade, u: nat, top: nat): Upgrade
    requires Shaped(s) && u < |s.states| && top < |s.states|
  {
    if u == top && (s.states[top].Ready? || s.states[top].Upgrading?) && Lowest(s.states).Ready?
       && (forall v :: 0 <= v < |s.states| && v != u ==> !s.states[v].Upgrading?)
    then s.(states := s.states[u := Upgrading])
    else s
  }

  /** One chain of upgrade-relation-changed in unit u, starting with nothing cached. */
  function Changed(s: Upgrade, u: nat): (r: Upgrade)
    requires Shaped(s) && u < |s.states|
    ensures Shaped(r) && |r.states| == |s.states|
  {
    if Lowest(s.states).Failed? then s
    else if s.stack == [] then Settle(s, u)
    else if u != s.leader then Grant(s, u, s.stack[|s.stack| - 1])
    else
      var left := WithoutCompleted(s.stack, s.states);
      var popped := s.(stack := left);
      if left == [] then Settle(popped, u) else Grant(popped, u, left[|left| - 1])
  }

  /** A leader that finds the top of the stack completed carries on as if it had never been there. */
  lemma PopOne(s: Upgrade, u: nat)
    requires Shaped(s) && u < |s.states| && u == s.leader && s.stack != [] && !Lowest(s.states).Failed?
    requires s.states[s.stack[|s.stack| - 1]].Completed?
    ensures Shaped(s.(stack := s.stack[..|s.stack| - 1]))
    ensures Changed(s, u) == Changed(s.(stack := s.stack[..|s.stack| - 1]), u)
  {
  }

  /** Otherwise the stack stays and only the unit on top may start. */
  lemma TopStays(s: Upgrade, u: nat)
    requires Shaped(s) && u < |s.states| && s.stack != [] && !Lowest(s.states).Failed?
    requires u != s.leader || !s.states[s.stack[|s.stack| - 1]].Completed?
    ensures Changed(s, u) == Grant(s, u, s.stack[|s.stack| - 1])
  {
  }

  function AfterFailure(s: Upgrade, u: nat): Upgrade
    requires Shaped(s) && u < |s.states|
  {
    s.(states := s.states[u := Failed])
  }

  /** A unit reports completion; the leader updates the stack, and all but the first and the last
      unit to be upgraded let the next one go. */
  function AfterCompletion(s: Upgrade, u: nat, patched: bool): Upgrade
    requires Shaped(s) && u < |s.states|
  {
    var completed := s.(states := s.states[u := Completed]);
    var updated := if u == s.leader then Changed(completed, u) else completed;
    if u == |s.states| - 1 || u == 0 then updated
    else if patched then updated.(partition := u - 1)
    else AfterFailure(updated, u)
  }

  function AfterPebbleReady(s: Upgrade, u: nat, started: bool, endpointReady: bool, healthy: bool,
                            patched: bool): Upgrade
    requires Shaped(s) && u < |s.states|
  {
    if !(s.states[u].Upgrading? || s.states[u].Recovery?) || !started || (u == s.leader && !endpointReady) then s
    else if healthy then AfterCompletion(s, u, patched)
    else AfterFailure(s, u)
  }

  function AfterUpgradeCharm(s: Upgrade, u: nat, supported: bool): Upgrade
    requires Shaped(s) && u < |s.states|
  {
    if s.stack == [] then s
    else if u == |s.states| - 1 && !supported then AfterFailure(s, u)
    else s.(states := s.states[u := Upgrading])
  }

  /** A leader's chain, unless the cluster has failed, leaves the persisted stack without its longest
      suffix of completed units, however the cached copy is popped on the way. */
  lemma LeaderDropsLongestCompletedSuffix(s: Upgrade, k: nat)
    requires Shaped(s) && k <= |s.stack|
    requires forall i :: k <= i < |s.stack| ==> s.states[s.stack[i]].Completed?
    requires k > 0 ==> !s.states[s.stack[k - 1]].Completed?
    ensures Changed(s, s.leader).stack == if Lowest(s.states).Failed? then s.stack else s.stack[..k]
  {
    WithoutCompletedIs(s.stack, s.states, k);
  }

  lemma LowestReadyIff(states: seq<UnitState>, u: nat)
    requires u < |states| && states[u].Ready?
    ensures Lowest(states).Ready? && (forall v :: 0 <= v < |states| && v != u ==> !states[v].Upgrading?)
            <==> forall v :: 0 <= v < |states| ==> states[v].Ready? || states[v].Completed?
  {
    LowestIsFurthestBehind(states);
    var i :| 0 <= i < |states| && states[i] == Lowest(states);
    if forall v :: 0 <= v < |states| ==> states[v].Ready? || states[v].Completed? {
      assert states[i].Rank() <= states[u].Rank();
    }
  }

  lemma GrantedOnTop(s: Upgrade, u: nat, top: nat)
    requires Shaped(s) && u < |s.states| && top < |s.states| && !s.states[u].Upgrading?
    ensures Grant(s, u, top).states[u].Upgrading?
            <==> u == top && s.states[u].Ready?
                 && forall v :: 0 <= v < |s.states| ==> s.states[v].Ready? || s.states[v].Completed?
  {
    if s.states[u].Ready? {
      LowestReadyIff(s.states, u);
    }
  }

  lemma WithoutCompletedIs(stack: seq<nat>, states: seq<UnitState>, k: nat)
    requires (forall i :: 0 <= i < |stack| ==> stack[i] < |states|) && k <= |stack|
    requires forall i :: k <= i < |stack| ==> states[stack[i]].Completed?
    requires k > 0 ==> !states[stack[k - 1]].Completed?
    ensures WithoutCompleted(stack, states) == stack[..k]
  {
    var r := WithoutCompleted(stack, states);
    assert r == [] || r[|r| - 1] == stack[|r| - 1];
  }

  /** The chain starts an upgrade in its own unit exactly when that unit waits in "ready" on top of what is left of
      the stack, and every other unit is ready or has completed. */
  lemma GrantedIff(s: Upgrade, u: nat, k: nat)
    requires Shaped(s) && u < |s.states| && k <= |s.stack| && !s.states[u].Upgrading?
    requires u != s.leader ==> k == |s.stack|
    requires forall i :: k <= i < |s.stack| ==> s.states[s.stack[i]].Completed?
    requires u == s.leader && k > 0 ==> !s.states[s.stack[k - 1]].Completed?
    ensures Changed(s, u).states[u].Upgrading?
            <==>
            && k > 0 && s.stack[k - 1] == u && s.states[u].Ready?
            && forall v :: 0 <= v < |s.states| ==> s.states[v].Ready? || s.states[v].Completed?
  {
    if s.states[u].Ready? {
      LowestReadyIff(s.states, u);
    }
    if u == s.leader {
      WithoutCompletedIs(s.stack, s.states, k);
    }
    if k > 0 {
      GrantedOnTop(s.(stack := s.stack[..k]), u, s.stack[k - 1]);
      assert u != s.leader ==> s.stack[..k] == s.stack;
    }
  }

  /** The chain touches no other unit, neither partition nor pods, and never completes or fails a unit. */
  lemma ChainTouchesOnlySelf(s: Upgrade, u: nat)
    requires Shaped(s) && u < |s.states|
    ensures var d := Changed(s, u);
            && d.partition == s.partition && d.pods == s.pods && d.leader == s.leader
            && (u != s.leader ==> d.stack == s.stack)
            && (forall v :: 0 <= v < |s.states| && v != u ==> d.states[v] == s.states[v])
            && (d.states[u] != s.states[u] ==>
                  || (s.states[u].Ready? && d.states[u].Upgrading?)
                  || (s.states[u].Completed? && d.states[u].Idle? && d.stack == []))
  {
  }

  function AllUnits(n: nat): seq<nat> {
    seq(n, i => i)
  }

  /** The stack after a possible repair by unit u, whose application units are iterated as given. */
  function AfterRepair(s: Upgrade, u: nat, appUnits: seq<nat>): seq<nat>
    requires Shaped(s)
  {
    if (Lowest(s.states).Failed? || Lowest(s.states).Recovery?) && s.stack != []
       && |s.stack| != |appUnits| && u == s.leader
    then Repaired(s.stack, appUnits) else s.stack
  }

  /** A stack is repaired only by the leader, only after a failure or in a rollback, and only when its height is not
      the number of the application's units. */
  lemma RepairedIff(s: Upgrade, u: nat, appUnits: seq<nat>)
    requires Shaped(s)
    ensures AfterRepair(s, u, appUnits) != s.stack
            <==>
            && u == s.leader && s.stack != [] && |s.stack| != |appUnits|
            && (exists v :: v in appUnits && v !in s.stack)
            && exists v :: 0 <= v < |s.states| && (s.states[v].Failed? || s.states[v].Recovery?)
  {
    LowestIsFurthestBehind(s.states);
    AbsentIs(s.stack, appUnits);
    if s.stack != [] {
      var a := Absent(s.stack, appUnits);
      assert s.stack == s.stack[..|s.stack| - 1] + [s.stack[|s.stack| - 1]];
      if a != [] {
        assert a[0] in a;
        assert |Repaired(s.stack, appUnits)| > |s.stack|;
      }
      if v :| v in appUnits && v !in s.stack {
        assert v in a;
      }
    }
  }

  /** The pre-upgrade-check action; `passed` covers the health checks and the first partition patch.
      After a failed upgrade it prepares the rollback instead. */
  function AfterPreCheck(s: Upgrade, u: nat, passed: bool, appUnits: seq<nat>): Upgrade
    requires Shaped(s) && u < |s.states|
  {
    if u != s.leader then s
    else if Lowest(s.states).Failed? then
      s.(stack := AfterRepair(s, u, appUnits), states := s.states[u := Recovery])
    else if !Lowest(s.states).Idle? || !passed then s
    else s.(stack := AllUnits(|s.states|), partition := |s.states| - 1)
  }

  function AfterResume(s: Upgrade, u: nat, patched: bool): Upgrade
    requires Shaped(s) && u < |s.states|
  {
    if u != s.leader || s.stack == [] || |s.stack| != |s.states| - 1 || !patched then s
    else s.(partition := s.stack[|s.stack| - 1])
  }

  /** The charm of one unit inside one hook: what it has cached and the databags it writes. */
  class DataUpgrade {
    const unit: nat
    const leader: nat
    var states: seq<UnitState>
    var stack: seq<nat>
    var partition: nat
    var pods: seq<Pod>
    /** The `_upgrade_stack` attribute: empty when the hook starts. */
    var cache: Option<seq<nat>>

    function State(): Upgrade
      reads this
    {
      Upgrade(states, stack, partition, pods, leader)
    }

    predicate Valid()
      reads this
    {
      Shaped(State()) && unit < |states|
    }

    /** Nothing cached, or exactly what is persisted. */
    predicate InStep()
      reads this
    {
      cache.None? || cache.value == stack
    }

    constructor (s: Upgrade, unit: nat)
      requires Shaped(s) && unit < |s.states|
      ensures Valid() && State() == s && this.unit == unit && cache.None?
    {
      this.unit, leader := unit, s.leader;
      states, stack, partition, pods := s.states, s.stack, s.partition, s.pods;
      cache := None;
    }

    /** The lazy-loading `upgrade_stack` property; an empty persisted stack is not cached. */
    method UpgradeStack() returns (current: seq<nat>)
      modifies this`cache
      ensures current == if old(cache).Some? then old(cache).value else stack
      ensures cache == if old(cache).Some? then old(cache) else if stack == [] then None else Some(stack)
    {
      if cache.None? && stack != [] {
        cache := Some(stack);
      }
      current := if cache.Some? then cache.value else [];
    }

    method SettleUnit()
      requires Valid()
      modifies this`states
      ensures Valid() && State() == Settle(old(State()), unit)
    {
      if states[unit].Completed? && (Lowest(states).Idle? || Lowest(states).Completed?) {
        states := states[unit := Idle];
      }
    }

    method GrantUnit(top: nat)
      requires Valid() && top < |states|
      modifies this`states
      ensures Valid() && State() == Grant(old(State()), unit, top)
    {
      if unit == top && (states[top].Ready? || states[top].Upgrading?) && Lowest(states).Ready?
         && forall v :: 0 <= v < |states| && v != unit ==> !states[v].Upgrading? {
        states := states[unit := Upgrading];
      }
    }

    /** The recursive handler. Popping mutates the cached list on every call; only a leader that pops
        a completed unit writes the result back, so the cache may end one element short. */
    method OnUpgradeChanged()
      requires Valid() && InStep()
      modifies this`states, this`stack, this`cache
      ensures Valid() && State() == Changed(old(State()), unit)
      ensures cache.Some? ==> cache.value == stack || (stack != [] && cache.value == stack[..|stack| - 1])
      decreases |stack|, 1
    {
      if Lowest(states).Failed? {
        return;
      }
      var current := UpgradeStack();
      if current == [] {
        SettleUnit();
        return;
      }
      var top := current[|current| - 1];
      cache := Some(current[..|current| - 1]);
      if unit == leader && states[top].Completed? {
        PersistPopped();
      } else {
        TopStays(State(), unit);
        GrantUnit(top);
      }
    }

    /** The leader writes the popped stack back and runs the handler again, so that the event is not lost. */
    method PersistPopped()
      requires Valid() && stack != [] && cache == Some(stack[..|stack| - 1])
      requires unit == leader && states[stack[|stack| - 1]].Completed? && !Lowest(states).Failed?
      modifies this`states, this`stack, this`cache
      ensures Valid() && State() == Changed(old(State()), unit)
      ensures cache.Some? ==> cache.value == stack || (stack != [] && cache.value == stack[..|stack| - 1])
      decreases |stack|, 0
    {
      PopOne(State(), unit);
      stack := stack[..|stack| - 1];
      OnUpgradeChanged();
    }

    method SetUnitFailed()
      requires Valid()
      modifies this`states, this`cache
      ensures Valid() && State() == AfterFailure(old(State()), unit)
    {
      if unit == leader {
        cache := None;
      }
      states := states[unit := Failed];
    }

    /** Completion and the upgrade-finished event it emits. */
    method SetUnitCompleted(patched: bool)
      requires Valid()
      modifies this
      ensures Valid() && State() == AfterCompletion(old(State()), unit, patched)
    {
      states := states[unit := Completed];
      if unit == leader {
        cache := None;
        OnUpgradeChanged();
      }
      if unit == |states| - 1 || unit == 0 {
        return;
      }
      if patched {
        partition := unit - 1;
      } else {
        SetUnitFailed();
      }
    }

    method OnPebbleReady(started: bool, endpointReady: bool, healthy: bool, patched: bool)
      requires Valid()
      modifies this
      ensures Valid() && State() == AfterPebbleReady(old(State()), unit, started, endpointReady, healthy, patched)
    {
      if !states[unit].Upgrading? && !states[unit].Recovery? {
        return;
      }
      if !started {
        return;
      }
      if unit == leader && !endpointReady {
        return;
      }
      if healthy {
        SetUnitCompleted(patched);
      } else {
        SetUnitFailed();
      }
    }

    method OnUpgradeCharm(supported: bool)
      requires Valid() && cache.None?
      modifies this
      ensures Valid() && State() == AfterUpgradeCharm(old(State()), unit, supported)
    {
      var current := UpgradeStack();
      if current == [] {
        return;
      }
      if unit == |states| - 1 && !supported {
        SetUnitFailed();
        return;
      }
      states := states[unit := Upgrading];
    }

    method OnPreUpgradeCheck(passed: bool, appUnits: seq<nat>)
      requires Valid() && cache.None?
      requires forall i :: 0 <= i < |appUnits| ==> appUnits[i] < |states|
      requires NoDuplicates(appUnits)
      modifies this
      ensures Valid() && State() == AfterPreCheck(old(State()), unit, passed, appUnits)
    {
      if unit != leader {
        return;
      }
      if Lowest(states).Failed? {
        RepairUpgradeStack(appUnits);
        states := states[unit := Recovery];
        return;
      }
      if !Lowest(states).Idle? || !passed {
        return;
      }
      partition := |states| - 1;
      stack := AllUnits(|states|);
      cache := Some(stack);
    }

    method OnResumeUpgrade(patched: bool)
      requires Valid() && cache.None?
      modifies this
      ensures Valid() && State() == AfterResume(old(State()), unit, patched)
    {
      if unit != leader {
        return;
      }
      var current := UpgradeStack();
      if current == [] || |current| != |states| - 1 || !patched {
        return;
      }
      partition := current[|current| - 1];
    }

    /** Before a rollback: the completed units that left the stack go back in, just under its top. */
    method RepairUpgradeStack(appUnits: seq<nat>)
      requires Valid() && InStep()
      requires forall i :: 0 <= i < |appUnits| ==> appUnits[i] < |states|
      requires NoDuplicates(appUnits)
      modifies this`stack, this`cache
      ensures Valid() && stack == AfterRepair(old(State()), unit, appUnits)
    {
      if !(Lowest(states).Failed? || Lowest(states).Recovery?) {
        return;
      }
      var newStack := UpgradeStack();
      if newStack == [] || |newStack| == |appUnits| || unit != leader {
        return;
      }
      for i := 0 to |appUnits|
        invariant newStack == Repaired(old(stack), appUnits[..i])
      {
        RepairStep(old(stack), appUnits, i);
        if appUnits[i] !in newStack {
          newStack := InsertUnderTop(newStack, appUnits[i]);
        }
      }
      assert appUnits[..|appUnits|] == appUnits;
      RepairedInRange(old(stack), appUnits, |states|);
      stack := newStack;
      cache := Some(newStack);
    }
  }

  // ----- the repaired stack -----

  /** The given units that are not on the stack, in the order given. */
  function Absent(stack: seq<nat>, units: seq<nat>): seq<nat> {
    if units == [] then []
    else
      var last := units[|units| - 1];
      Absent(stack, units[..|units| - 1]) + if last in stack then [] else [last]
  }

  /** Python's `insert(-1, id)`. */
  function InsertUnderTop(stack: seq<nat>, id: nat): seq<nat>
    requires stack != []
  {
    stack[..|stack| - 1] + [id] + stack[|stack| - 1..]
  }

  function Repaired(stack: seq<nat>, units: seq<nat>): (r: seq<nat>)
    requires stack != []
    ensures r != []
  {
    stack[..|stack| - 1] + Absent(stack, units) + [stack[|stack| - 1]]
  }

  lemma {:induction false} AbsentIs(stack: seq<nat>, units: seq<nat>)
    ensures forall v :: v in Absent(stack, units) <==> v in units && v !in stack
    ensures NoDuplicates(units) ==> NoDuplicates(Absent(stack, units))
  {
    if units != [] {
      var before, last := units[..|units| - 1], units[|units| - 1];
      AbsentIs(stack, before);
      assert units == before + [last];
    }
  }

  lemma RepairStep(stack: seq<nat>, units: seq<nat>, i: nat)
    requires stack != [] && i < |units| && NoDuplicates(units)
    ensures var r := Repaired(stack, units[..i]);
            Repaired(stack, units[..i + 1])
            == if units[i] in r then r else InsertUnderTop(r, units[i])
  {
    assert units[..i + 1][..i] == units[..i];
    AbsentIs(stack, units[..i]);
    var r := Repaired(stack, units[..i]);
    assert stack == stack[..|stack| - 1] + [stack[|stack| - 1]];
    assert units[i] in r <==> units[i] in stack;
  }

  lemma RepairedInRange(stack: seq<nat>, units: seq<nat>, n: nat)
    requires stack != []
    requires forall i :: 0 <= i < |stack| ==> stack[i] < n
    requires forall i :: 0 <= i < |units| ==> units[i] < n
    ensures forall i :: 0 <= i < |Repaired(stack, units)| ==> Repaired(stack, units)[i] < n
  {
    AbsentIs(stack, units);
    var a := Absent(stack, units);
    forall i | 0 <= i < |a| ensures a[i] < n {
      assert a[i] in units;
    }
  }

  /** Whatever the iteration order, the repaired stack is a duplicate-free list of exactly the
      application's units, with the old top on top and the ids already there in their old order. */
  lemma RepairedStackIsPermutation(stack: seq<nat>, units: seq<nat>)
    requires stack != [] && NoDuplicates(stack) && NoDuplicates(units) && forall v :: v in stack ==> v in units
    ensures var r := Repaired(stack, units);
            && NoDuplicates(r)
            && (forall v :: v in r <==> v in units)
            && r[|r| - 1] == stack[|stack| - 1]
            && |r| >= |stack| && r[..|stack| - 1] == stack[..|stack| - 1]
  {
    AbsentIs(stack, units);
    var a := Absent(stack, units);
    var low, top := stack[..|stack| - 1], stack[|stack| - 1];
    assert stack == low + [top];
    var r := Repaired(stack, units);
    assert forall v :: v in r <==> v in low || v in a || v == top;
    forall i, j | 0 <= i < j < |r| ensures r[i] != r[j] {
      assert i < |low| ==> r[i] == stack[i];
      assert |low| <= i < |low| + |a| ==> r[i] == a[i - |low|] && r[i] in a;
      assert |low| <= j < |low| + |a| ==> r[j] == a[j - |low|] && r[j] in a;
      assert j < |low| ==> r[j] == stack[j];
    }
  }
}
