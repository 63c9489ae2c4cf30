/** When a change of Juju leader is harmless: exactly when the new leader carries no "stopped" mark, or sees the
    other cluster as the primary while the cluster does not count as initialised. */
module DemotionElections {
  import opened Databags
  import opened CounterScan
  import opened Demotion
  import opened DemotionLife
  import DemotionCarryOver
  import DemotionRound
  import P = PromotionCounters

  /** A leader's run in which the restarted member is not up yet. */
  const NOT_UP := Env(true, true, true, true, false, false, false)
  /** The same, with the leader annotation to be fixed. */
  const ANNOTATION_FIX := Env(true, true, true, true, false, true, false)

  predicate NothingMissing(c: Cluster) {
    forall v :: v in c.units ==> !c.units[v].pgdata.Missing?
  }

  /** Every restart is safe in every continuation without further marked elections. */
  ghost predicate AlwaysSafe(me: P.Side, s: Life) {
    forall events, ev :: LegalRun(me, s, events) && Careful(me, s, events) && Legal(me, Run(me, s, events), ev)
                         ==> RestartSafe(me, Run(me, s, events), ev)
  }

  /** The flag comes back honestly in every such continuation. */
  ghost predicate AlwaysHonest(me: P.Side, s: Life) {
    forall events, ev :: LegalRun(me, s, events) && Careful(me, s, events) && Legal(me, Run(me, s, events), ev)
                         ==> FlagHonest(me, Run(me, s, events), ev)
  }

  // ----- harmless elections -----

  lemma InvIsForever(me: P.Side, s: Life, n: nat)
    requires Inv(me, s, n)
    ensures AlwaysSafe(me, s) && AlwaysHonest(me, s)
  {
    forall events, ev | LegalRun(me, s, events) && Careful(me, s, events) && Legal(me, Run(me, s, events), ev)
      ensures RestartSafe(me, Run(me, s, events), ev) && FlagHonest(me, Run(me, s, events), ev)
    {
      var m := RunOk(me, s, n, events);
      InvMakesSafe(me, Run(me, s, events), m, ev);
      InvMakesHonest(me, Run(me, s, events), m, ev);
    }
  }

  /** A unit without a data folder never stops and never follows the other cluster. */
  predicate NeverStops(r: Unit, n: nat, theirs: bool) {
    && r.pgdata.Missing? && !r.stopped && r.seen <= n
    && (r.counter.Some? ==> r.counter.value <= r.seen)
    && (theirs ==> !Following(r, n))
  }

  predicate Blocked(me: P.Side, s: Life, n: nat, w: nat) {
    P.Counted(s.pair, n) && w in s.cluster.units && NeverStops(s.cluster.units[w], n, TheirTurn(me, n))
  }

  /** What a unit can see, in a state after n promotions. */
  predicate SeenIn(v: View, n: nat, theirs: bool) {
    && v.highest <= n
    && (v.primary == Some(Ours) && theirs ==> v.highest < n)
    && (SeesTheirs(v) ==> theirs && v.highest == n)
  }

  /** With a unit that cannot stop, no run passes the barrier. */
  lemma BarrierStaysShut(c: Cluster, u: nat, n: nat, e: Env, w: nat)
    requires w in c.units && u in c.units && NeverStops(c.units[w], n, true)
    ensures var d := Stopped(c, u, n, e).0;
            w in d.units && NeverStops(d.units[w], n, true) && !BarrierOpen(d, n)
  {
    assert NeverStops(Stopped(c, u, n, e).0.units[w], n, true);
  }

  lemma BlockedHook(c: Cluster, u: nat, v: View, e: Env, n: nat, theirs: bool, w: nat)
    requires w in c.units && u in c.units && NeverStops(c.units[w], n, theirs)
    requires SeenIn(v, n, theirs) && c.units[u].seen <= v.highest
    ensures NeverStops(Handled(c, u, v, e).units[w], n, theirs)
    ensures forall at :: !IssuesStart(c, u, v, e, at)
  {
    if SeesTheirs(v) {
      BarrierStaysShut(Looked(c, u, v.highest), u, n, e, w);
    }
  }

  lemma BlockedStep(me: P.Side, s: Life, n: nat, w: nat, ev: Event) returns (m: nat)
    requires Blocked(me, s, n, w) && Legal(me, s, ev)
    ensures Blocked(me, Next(me, s, ev), m, w) && RestartSafe(me, s, ev)
  {
    m := n;
    match ev {
      case ClusterStep(st, e) =>
        P.StepCounts(s.pair, n, st);
        if P.Promotes(s.pair, st) {
          P.WhoPromotes(s.pair, n, st);
          m := n + 1;
          if st.who == me {
            assert ViewOf(st.remote, P.Of(P.Next(s.pair, st), me).peer) == View(m, Some(Ours));
            assert s.cluster.units[s.cluster.leader].seen <= m;
            BlockedHook(s.cluster, s.cluster.leader, View(m, Some(Ours)), e, m, TheirTurn(me, m), w);
          }
        }
      case UnitHook(u, remote, e) =>
        ViewCases(me, s, n, remote);
        BlockedHook(s.cluster, u, ViewOf(remote, Own(me, s)), e, n, TheirTurn(me, n), w);
      case Elect(_) =>
      case LeaderElected(_) =>
      case LeaderHook(remote, _) =>
        ViewCases(me, s, n, remote);
    }
  }

  lemma {:induction false} BlockedRun(me: P.Side, s: Life, n: nat, w: nat, events: seq<Event>) returns (m: nat)
    requires Blocked(me, s, n, w) && LegalRun(me, s, events)
    ensures Blocked(me, Run(me, s, events), m, w)
    decreases |events|
  {
    m := n;
    if events != [] {
      m := BlockedStep(me, s, n, w, events[0]);
      m := BlockedRun(me, Next(me, s, events[0]), m, w, events[1..]);
    }
  }

  lemma BlockedIsForever(me: P.Side, s: Life, n: nat, w: nat)
    requires Blocked(me, s, n, w)
    ensures AlwaysSafe(me, s)
  {
    forall events, ev | LegalRun(me, s, events) && Careful(me, s, events) && Legal(me, Run(me, s, events), ev)
      ensures RestartSafe(me, Run(me, s, events), ev)
    {
      var m := BlockedRun(me, s, n, w, events);
      m := BlockedStep(me, Run(me, s, events), m, w, ev);
    }
  }

  // ----- what a marked election leads to -----

  function Newest(me: P.Side, s: Life): Option<nat> {
    P.Latest(P.Of(s.pair, P.Other(me)))
  }

  /** Every unit can see the latest promotion of the other cluster. */
  lemma NewestView(me: P.Side, s: Life, n: nat)
    requires P.Counted(s.pair, n) && TheirTurn(me, n)
    ensures Newest(me, s) in P.Of(s.pair, P.Other(me)).published
    ensures ViewOf(Newest(me, s), Own(me, s)) == View(n, Some(Theirs(0)))
  {
    var published := P.Of(s.pair, P.Other(me)).published;
    assert published[|published| - 1] == Newest(me, s);
  }

  predicate UnitReady(r: Unit, n: nat) {
    !r.pgdata.Missing? && r.seen <= n && (r.counter.Some? ==> r.counter.value <= r.seen)
  }

  /** A demotion round with a leader marked "stopped" and every data folder in place. */
  predicate MarkedRound(me: P.Side, s: Life, n: nat) {
    && P.Counted(s.pair, n) && TheirTurn(me, n)
    && s.cluster.leader in s.cluster.units && s.cluster.units[s.cluster.leader].stopped
    && forall v :: v in s.cluster.units ==> UnitReady(s.cluster.units[v], n)
  }

  /** The flag is still set, and the leader's data folder is still empty. */
  predicate Exposed(me: P.Side, s: Life, n: nat) {
    MarkedRound(me, s, n) && s.cluster.initialised && s.cluster.units[s.cluster.leader].pgdata.Wiped?
  }

  /** What an election that is marked leaves behind once the flag is set. */
  predicate Elevated(me: P.Side, s: Life, n: nat) {
    && P.Counted(s.pair, n) && s.cluster.initialised && n > 0
    && s.cluster.leader in s.cluster.units && s.cluster.units[s.cluster.leader].stopped
    && s.cluster.units[s.cluster.leader].pgdata.Wiped?
    && forall v :: v in s.cluster.units ==> UnitReady(s.cluster.units[v], n)
  }

  lemma MarkedIsClean(me: P.Side, s: Life, n: nat, u: nat)
    requires Inv(me, s, n) && u in s.cluster.units && MarkedElection(me, s, Elect(u))
    ensures n > 0 && s.cluster.units[u].pgdata.Wiped?
  {
    var c := s.cluster;
    assert UnitOk(c.units[u], n, TheirTurn(me, n));
    if c.initialised && TheirTurn(me, n) {
      assert !AllFollow(c, n) && !LeaderReacted(c, n) && !BarrierOpen(c, n);
      assert c.units[u].pgdata != StartedFor(n);
    }
  }

  /** Some old value of the other side lets the new leader set the flag, if it is not set. */
  lemma FlagGetsSet(me: P.Side, s: Life, n: nat, u: nat, e: Life) returns (events: seq<Event>, t: Life)
    requires Inv(me, s, n) && NothingMissing(s.cluster) && None in P.Of(s.pair, P.Other(me)).published
    requires u in s.cluster.units && MarkedElection(me, s, Elect(u)) && e == s.(cluster := s.cluster.(leader := u))
    ensures Reaches(me, e, events, t) && Elevated(me, t, n)
  {
    MarkedIsClean(me, s, n, u);
    assert forall v :: v in s.cluster.units ==> UnitOk(s.cluster.units[v], n, TheirTurn(me, n));
    events, t := [], e;
    if !e.cluster.initialised {
      var ev := LeaderHook(None, true);
      FlagHook(me, e, n);
      ReachesNext(me, e, events, e, ev);
      events, t := events + [ev], Next(me, e, ev);
    }
  }

  /** A leader that looks at a value from before its own promotion. */
  lemma FlagHook(me: P.Side, s: Life, n: nat)
    requires P.Counted(s.pair, n) && s.cluster.leader in s.cluster.units && !s.cluster.initialised
    requires None in P.Of(s.pair, P.Other(me)).published
    requires s.cluster.units[s.cluster.leader].seen <= Value(Own(me, s))
    ensures Legal(me, s, LeaderHook(None, true))
    ensures Next(me, s, LeaderHook(None, true)).cluster
            == Looked(s.cluster, s.cluster.leader, Value(Own(me, s))).(initialised := true)
  {
  }

  lemma ElevatedIsExposed(me: P.Side, s: Life, before: seq<Event>, t: Life, n: nat)
    returns (events: seq<Event>, e: Life, m: nat)
    requires Reaches(me, s, before, t) && Elevated(me, t, n)
    ensures Reaches(me, s, events, e) && Exposed(me, e, m)
  {
    events, e, m := before, t, n;
    if !TheirTurn(me, n) {
      var st := P.SideBehindCanPromote(t.pair, n);
      P.StepCounts(t.pair, n, st);
      var ev := ClusterStep(st, NOT_UP);
      ReachesNext(me, s, before, t, ev);
      events, e, m := before + [ev], Next(me, t, ev), n + 1;
    }
  }

  lemma StopVisit(c: Cluster, n: nat, v: nat)
    requires c.leader in c.units && c.units[c.leader].stopped && v in c.units && UnitReady(c.units[v], n)
    ensures var d := Handled(c, v, View(n, Some(Theirs(0))), DemotionRound.ONLY_STOPS);
            && UnitReady(d.units[v], n) && Past(d.units[v], n) && d.initialised == c.initialised
            && (c.units[v].stopped ==> d.units[v] == c.units[v].(seen := n))
  {
    var looked := Looked(c, v, n);
    assert looked.units[v] == c.units[v].(seen := n);
  }

  lemma OneStops(me: P.Side, s: Life, n: nat, v: nat)
    requires MarkedRound(me, s, n) && v in s.cluster.units
    ensures Legal(me, s, UnitHook(v, Newest(me, s), DemotionRound.ONLY_STOPS))
    ensures var t := Next(me, s, UnitHook(v, Newest(me, s), DemotionRound.ONLY_STOPS));
            && MarkedRound(me, t, n) && SameLeader(s.cluster, t.cluster)
            && Past(t.cluster.units[v], n)
            && forall w :: w in s.cluster.units && Past(s.cluster.units[w], n) ==> Past(t.cluster.units[w], n)
  {
    NewestView(me, s, n);
    assert UnitReady(s.cluster.units[v], n);
    StopVisit(s.cluster, n, v);
  }

  predicate Past(r: Unit, n: nat) {
    r.stopped || Following(r, n)
  }

  /** Neither the leader, nor its data folder, nor the flag, nor the membership changed. */
  predicate SameLeader(c: Cluster, d: Cluster)
    requires c.leader in c.units
  {
    && d.leader == c.leader && d.units.Keys == c.units.Keys && d.initialised == c.initialised
    && d.units[c.leader].pgdata == c.units[c.leader].pgdata
  }

  lemma {:induction false} EveryoneStops(me: P.Side, s: Life, before: seq<Event>, t: Life, n: nat, todo: seq<nat>)
    returns (events: seq<Event>, e: Life)
    requires Reaches(me, s, before, t) && MarkedRound(me, t, n) && forall v :: v in todo ==> v in t.cluster.units
    ensures Reaches(me, s, events, e) && MarkedRound(me, e, n) && SameLeader(t.cluster, e.cluster)
    ensures forall v :: v in t.cluster.units && (v in todo || Past(t.cluster.units[v], n)) ==>
              Past(e.cluster.units[v], n)
    decreases |todo|
  {
    events, e := before, t;
    if todo != [] {
      OneStops(me, t, n, todo[0]);
      var ev := UnitHook(todo[0], Newest(me, t), DemotionRound.ONLY_STOPS);
      ReachesNext(me, s, before, t, ev);
      events, e := EveryoneStops(me, s, before + [ev], Next(me, t, ev), n, todo[1..]);
    }
  }

  lemma BarrierOpens(me: P.Side, s: Life, before: seq<Event>, t: Life, n: nat) returns (events: seq<Event>, e: Life)
    requires Reaches(me, s, before, t) && MarkedRound(me, t, n)
    ensures Reaches(me, s, events, e) && MarkedRound(me, e, n) && SameLeader(t.cluster, e.cluster)
    ensures BarrierOpen(e.cluster, n)
  {
    var todo := DemotionRound.Enumerate(t.cluster.units.Keys);
    events, e := EveryoneStops(me, s, before, t, n, todo);
    assert forall v :: v in e.cluster.units ==> Past(e.cluster.units[v], n);
  }

  /** The leader skips the wipe and the clearing of the flag, and starts a member that does not come up. */
  lemma LeaderStarts(me: P.Side, s: Life, before: seq<Event>, t: Life, n: nat) returns (events: seq<Event>, e: Life)
    requires Reaches(me, s, before, t) && Exposed(me, t, n) && BarrierOpen(t.cluster, n)
    ensures Reaches(me, s, events, e) && MarkedRound(me, e, n)
    ensures e.cluster.initialised && e.cluster.units[e.cluster.leader].pgdata == StartedFor(n)
  {
    NewestView(me, t, n);
    var ev := UnitHook(t.cluster.leader, Newest(me, t), NOT_UP);
    StartLingers(t.cluster, n);
    ReachesNext(me, s, before, t, ev);
    events, e := before + [ev], Next(me, t, ev);
  }

  lemma StartLingers(c: Cluster, n: nat)
    requires c.leader in c.units && c.units[c.leader].stopped && BarrierOpen(c, n)
    requires forall v :: v in c.units ==> UnitReady(c.units[v], n)
    ensures Handled(c, c.leader, View(n, Some(Theirs(0))), NOT_UP) == StartIssued(Looked(c, c.leader, n), c.leader, n)
    ensures forall v :: v in c.units ==> UnitReady(StartIssued(Looked(c, c.leader, n), c.leader, n).units[v], n)
  {
    assert BarrierOpen(Looked(c, c.leader, n), n);
    assert UnitReady(c.units[c.leader], n);
  }

  /** The cluster is promoted, its leader handling that at once. */
  lemma OwnPromotion(me: P.Side, s: Life, before: seq<Event>, t: Life, n: nat) returns (events: seq<Event>, e: Life)
    requires Reaches(me, s, before, t) && MarkedRound(me, t, n) && t.cluster.initialised
    ensures Reaches(me, s, events, e) && P.Counted(e.pair, n + 1) && SameLeader(t.cluster, e.cluster)
    ensures e.cluster.units[e.cluster.leader].stopped
    ensures forall v :: v in e.cluster.units ==> UnitReady(e.cluster.units[v], n + 1)
  {
    var st := P.SideBehindCanPromote(t.pair, n);
    P.StepCounts(t.pair, n, st);
    P.WhoPromotes(t.pair, n, st);
    var ev := ClusterStep(st, DemotionRound.ALL_GOES_WELL);
    assert ViewOf(st.remote, P.Of(P.Next(t.pair, st), me).peer) == View(n + 1, Some(Ours));
    assert UnitReady(t.cluster.units[t.cluster.leader], n);
    ReachesNext(me, s, before, t, ev);
    events, e := before + [ev], Next(me, t, ev);
    PromotedLeader(t.cluster, n);
  }

  lemma PromotedLeader(c: Cluster, n: nat)
    requires c.leader in c.units && forall v :: v in c.units ==> UnitReady(c.units[v], n)
    ensures var d := Handled(c, c.leader, View(n + 1, Some(Ours)), DemotionRound.ALL_GOES_WELL);
            && SameLeader(c, d) && d.units[c.leader].stopped == c.units[c.leader].stopped
            && forall v :: v in d.units ==> UnitReady(d.units[v], n + 1)
  {
    var d := Handled(c, c.leader, View(n + 1, Some(Ours)), DemotionRound.ALL_GOES_WELL);
    assert d.units == c.units[c.leader := c.units[c.leader].(seen := n + 1, counter := Some(n + 1))];
  }

  /** And demoted again. */
  lemma DemotedAgain(me: P.Side, s: Life, before: seq<Event>, t: Life, n: nat) returns (events: seq<Event>, e: Life)
    requires Reaches(me, s, before, t) && P.Counted(t.pair, n + 1) && TheirTurn(me, n)
    requires t.cluster.leader in t.cluster.units && t.cluster.units[t.cluster.leader].stopped
    requires forall v :: v in t.cluster.units ==> UnitReady(t.cluster.units[v], n + 1)
    ensures Reaches(me, s, events, e) && MarkedRound(me, e, n + 2) && e.cluster == t.cluster
  {
    var st := P.SideBehindCanPromote(t.pair, n + 1);
    P.StepCounts(t.pair, n + 1, st);
    var ev := ClusterStep(st, DemotionRound.ALL_GOES_WELL);
    ReachesNext(me, s, before, t, ev);
    events, e := before + [ev], Next(me, t, ev);
  }

  /** Everyone waits for promotion h, while the leader's database already ran for promotion k. */
  predicate Stale(me: P.Side, s: Life, k: nat, h: nat) {
    && MarkedRound(me, s, h) && BarrierOpen(s.cluster, h) && k < h
    && s.cluster.units[s.cluster.leader].pgdata == StartedFor(k)
  }

  lemma ExposedGoesStale(me: P.Side, s: Life, before: seq<Event>, t: Life, n: nat) returns (events: seq<Event>, e: Life)
    requires Reaches(me, s, before, t) && Exposed(me, t, n)
    ensures Reaches(me, s, events, e) && Stale(me, e, n, n + 2)
  {
    events, e := BarrierOpens(me, s, before, t, n);
    events, e := LeaderStarts(me, s, events, e, n);
    events, e := OwnPromotion(me, s, events, e, n);
    events, e := DemotedAgain(me, s, events, e, n);
    events, e := BarrierOpens(me, s, events, e, n + 2);
  }

  /** From any marked election to a leader with the data of promotion k, about to restart it for promotion h. */
  lemma ElectionGoesStale(me: P.Side, s: Life, n: nat, change: Event)
    returns (events: seq<Event>, e: Life, k: nat, h: nat)
    requires Inv(me, s, n) && NothingMissing(s.cluster) && None in P.Of(s.pair, P.Other(me)).published
    requires Legal(me, s, change) && MarkedElection(me, s, change)
    ensures Reaches(me, Next(me, s, change), events, e) && Stale(me, e, k, h)
  {
    var elected := Next(me, s, change);
    events, e := FlagGetsSet(me, s, n, change.unit, elected);
    events, e, k := ElevatedIsExposed(me, elected, events, e, n);
    events, e := ExposedGoesStale(me, elected, events, e, k);
    h := k + 2;
  }

  lemma StaleStart(me: P.Side, s: Life, k: nat, h: nat)
    requires Stale(me, s, k, h)
    ensures var ev := UnitHook(s.cluster.leader, Newest(me, s), NOT_UP);
            Legal(me, s, ev) && !RestartSafe(me, s, ev)
  {
    NewestView(me, s, h);
    var u := s.cluster.leader;
    var looked := Looked(s.cluster, u, h);
    assert UnitReady(s.cluster.units[u], h);
    assert BarrierOpen(looked, h);
    assert IssuesStart(s.cluster, u, View(h, Some(Theirs(0))), NOT_UP, looked);
    assert looked.units[u].pgdata == StartedFor(k);
  }

  // ----- the first condition -----

  lemma {:induction false} OldestStaysVisible(me: P.Side, s: Life, events: seq<Event>)
    requires LegalRun(me, s, events) && None in P.Of(s.pair, P.Other(me)).published
    ensures None in P.Of(Run(me, s, events).pair, P.Other(me)).published
    decreases |events|
  {
    if events != [] {
      if events[0].ClusterStep? {
        var st := events[0].step;
        P.AfterPublishes(P.Of(s.pair, st.who), st.who, st.action, st.remote, st.permitted);
      }
      OldestStaysVisible(me, Next(me, s, events[0]), events[1..]);
    }
  }

  lemma ReachedState(me: P.Side, s: Life, events: seq<Event>, end: Life) returns (n: nat)
    requires Start(s) && Reaches(me, s, events, end)
    ensures Inv(me, end, n) && None in P.Of(end.pair, P.Other(me)).published
  {
    StartOk(me, s);
    n := RunOk(me, s, 0, events);
    assert P.Of(s.pair, P.Other(me)).published[0] == None;
    OldestStaysVisible(me, s, events);
  }

  /** A change of leader keeps every later restart safe if and only if it is not a marked election, or some data
      folder is missing. */
  lemma RestartsStaySafeIff(me: P.Side, s: Life, events: seq<Event>, end: Life, change: Event)
    requires Start(s) && Reaches(me, s, events, end) && change.Elect? && Legal(me, end, change)
    ensures AlwaysSafe(me, Next(me, end, change)) <==> !(MarkedElection(me, end, change) && NothingMissing(end.cluster))
  {
    var n := ReachedState(me, s, events, end);
    if !MarkedElection(me, end, change) {
      var m := StepOk(me, end, n, change);
      InvIsForever(me, Next(me, end, change), m);
    } else if w :| w in end.cluster.units && end.cluster.units[w].pgdata.Missing? {
      MissingBlocks(me, end, n, w, change);
    } else {
      var more, e, k, h := ElectionGoesStale(me, end, n, change);
      StaleStart(me, e, k, h);
    }
  }

  lemma MissingBlocks(me: P.Side, s: Life, n: nat, w: nat, change: Event)
    requires Inv(me, s, n) && change.Elect? && Legal(me, s, change)
    requires w in s.cluster.units && s.cluster.units[w].pgdata.Missing?
    ensures AlwaysSafe(me, Next(me, s, change))
  {
    assert UnitOk(s.cluster.units[w], n, TheirTurn(me, n));
    BlockedIsForever(me, Next(me, s, change), n, w);
  }

  // ----- the flag after a marked election -----

  /** The flag is cleared, everyone is stopped or follows, and the leader is stopped on old data. */
  predicate Lagging(me: P.Side, s: Life, k: nat, h: nat) {
    && Stale(me, s, k, h) && !s.cluster.initialised
  }

  lemma LeaderClearsFlag(me: P.Side, s: Life, before: seq<Event>, t: Life, k: nat, h: nat)
    returns (events: seq<Event>, e: Life)
    requires Reaches(me, s, before, t) && Stale(me, t, k, h)
    ensures Reaches(me, s, events, e) && Lagging(me, e, k, h)
  {
    NewestView(me, t, h);
    var ev := UnitHook(t.cluster.leader, Newest(me, t), ANNOTATION_FIX);
    FixClearsFlag(t.cluster, h);
    ReachesNext(me, s, before, t, ev);
    events, e := before + [ev], Next(me, t, ev);
  }

  lemma FixClearsFlag(c: Cluster, h: nat)
    requires c.leader in c.units && c.units[c.leader].stopped && BarrierOpen(c, h)
    requires c.units[c.leader].pgdata.StartedFor? && forall v :: v in c.units ==> UnitReady(c.units[v], h)
    ensures var d := Handled(c, c.leader, View(h, Some(Theirs(0))), ANNOTATION_FIX);
            && !d.initialised && d.leader == c.leader && BarrierOpen(d, h)
            && d.units[c.leader].stopped && d.units[c.leader].pgdata == c.units[c.leader].pgdata
            && forall v :: v in d.units ==> UnitReady(d.units[v], h)
  {
    var looked := Looked(c, c.leader, h);
    assert BarrierOpen(looked, h);
    assert Handled(c, c.leader, View(h, Some(Theirs(0))), ANNOTATION_FIX)
        == StartIssued(looked, c.leader, h).(initialised := false);
    assert UnitReady(c.units[c.leader], h);
  }

  lemma FollowVisit(c: Cluster, h: nat, v: nat)
    requires v in c.units && v != c.leader && BarrierOpen(c, h) && UnitReady(c.units[v], h)
    ensures var d := Handled(c, v, View(h, Some(Theirs(0))), DemotionRound.ALL_GOES_WELL);
            UnitReady(d.units[v], h) && Following(d.units[v], h) && d.initialised == c.initialised
  {
    assert BarrierOpen(Looked(c, v, h), h);
  }

  lemma OneFollows(me: P.Side, s: Life, k: nat, h: nat, v: nat)
    requires Lagging(me, s, k, h) && v in s.cluster.units && v != s.cluster.leader
    ensures Legal(me, s, UnitHook(v, Newest(me, s), DemotionRound.ALL_GOES_WELL))
    ensures var t := Next(me, s, UnitHook(v, Newest(me, s), DemotionRound.ALL_GOES_WELL));
            && Lagging(me, t, k, h) && SameLeader(s.cluster, t.cluster)
            && Following(t.cluster.units[v], h)
            && forall w :: w in s.cluster.units && Following(s.cluster.units[w], h) ==> Following(t.cluster.units[w], h)
  {
    NewestView(me, s, h);
    assert UnitReady(s.cluster.units[v], h);
    FollowVisit(s.cluster, h, v);
  }

  lemma {:induction false} OthersFollow(me: P.Side, s: Life, before: seq<Event>, t: Life, k: nat, h: nat,
                                        todo: seq<nat>)
    returns (events: seq<Event>, e: Life)
    requires Reaches(me, s, before, t) && Lagging(me, t, k, h)
    requires forall v :: v in todo ==> v in t.cluster.units && v != t.cluster.leader
    ensures Reaches(me, s, events, e) && Lagging(me, e, k, h) && SameLeader(t.cluster, e.cluster)
    ensures forall v :: v in t.cluster.units && (v in todo || Following(t.cluster.units[v], h)) ==>
              Following(e.cluster.units[v], h)
    decreases |todo|
  {
    events, e := before, t;
    if todo != [] {
      OneFollows(me, t, k, h, todo[0]);
      var ev := UnitHook(todo[0], Newest(me, t), DemotionRound.ALL_GOES_WELL);
      ReachesNext(me, s, before, t, ev);
      events, e := OthersFollow(me, s, before + [ev], Next(me, t, ev), k, h, todo[1..]);
    }
  }

  lemma LaggingFlag(me: P.Side, s: Life, k: nat, h: nat)
    requires Lagging(me, s, k, h)
    requires forall v :: v in s.cluster.units && v != s.cluster.leader ==> Following(s.cluster.units[v], h)
    ensures var ev := UnitHook(s.cluster.leader, Newest(me, s), DemotionRound.ALL_GOES_WELL);
            Legal(me, s, ev) && Next(me, s, ev).cluster.initialised && !RoundEnded(me, s, ev)
  {
    NewestView(me, s, h);
    var c, u := s.cluster, s.cluster.leader;
    assert BarrierOpen(Looked(c, u, h), h) && UnitReady(c.units[u], h);
    var d := Handled(c, u, View(h, Some(Theirs(0))), DemotionRound.ALL_GOES_WELL);
    assert forall w :: w in c.units && w != u ==> d.units[w] == c.units[w];
    assert AllFollow(d, h) && d.initialised;
    assert d.units[u].pgdata == StartedFor(k);
  }

  lemma StaleLiftsFlag(me: P.Side, s: Life, before: seq<Event>, t: Life, k: nat, h: nat)
    returns (events: seq<Event>, e: Life, ev: Event)
    requires Reaches(me, s, before, t) && Stale(me, t, k, h)
    ensures Reaches(me, s, events, e) && Legal(me, e, ev) && ev.UnitHook?
    ensures !e.cluster.initialised && Next(me, e, ev).cluster.initialised && !RoundEnded(me, e, ev)
  {
    events, e := LeaderClearsFlag(me, s, before, t, k, h);
    var todo := DemotionRound.Enumerate(e.cluster.units.Keys - {e.cluster.leader});
    events, e := OthersFollow(me, s, events, e, k, h, todo);
    LaggingFlag(me, e, k, h);
    ev := UnitHook(e.cluster.leader, Newest(me, e), DemotionRound.ALL_GOES_WELL);
  }

  /** With all data folders present, a marked election even lets a round end, and the flag return, while the
      leader's database still holds the data of an earlier round. */
  lemma ElectionLiftsFlagOnOldData(me: P.Side, s: Life, events: seq<Event>, end: Life, change: Event)
    returns (more: seq<Event>, e: Life, ev: Event)
    requires Start(s) && Reaches(me, s, events, end) && Legal(me, end, change)
    requires MarkedElection(me, end, change) && NothingMissing(end.cluster)
    ensures Reaches(me, Next(me, end, change), more, e) && Legal(me, e, ev)
    ensures ev.UnitHook? && !e.cluster.initialised && Next(me, e, ev).cluster.initialised && !RoundEnded(me, e, ev)
  {
    var n := ReachedState(me, s, events, end);
    var k, h;
    more, e, k, h := ElectionGoesStale(me, end, n, change);
    more, e, ev := StaleLiftsFlag(me, Next(me, end, change), more, e, k, h);
  }

  /** A leader marked "stopped" that is not in a demotion it knows of: one leader-elected hook without annotation
      and one other hook bring the flag back. */
  lemma FlagInMarkedLeader(me: P.Side, s: Life, before: seq<Event>, t: Life, n: nat)
    requires Reaches(me, s, before, t) && P.Counted(t.pair, n) && None in P.Of(t.pair, P.Other(me)).published
    requires t.cluster.leader in t.cluster.units && t.cluster.units[t.cluster.leader].stopped
    requires t.cluster.units[t.cluster.leader].seen <= Value(Own(me, t))
    ensures !AlwaysHonest(me, s)
  {
    ReachesNext(me, s, before, t, LeaderElected(true));
    var e := Next(me, t, LeaderElected(true));
    FlagHook(me, e, n);
    assert !FlagHonest(me, e, LeaderHook(None, true));
  }

  /** A leader marked "stopped" with the flag set can promote its cluster. */
  lemma MarkedLeaderPromotes(me: P.Side, s: Life, n: nat) returns (ev: Event)
    requires P.Counted(s.pair, n) && TheirTurn(me, n) && s.cluster.leader in s.cluster.units && s.cluster.initialised
    requires s.cluster.units[s.cluster.leader].stopped && s.cluster.units[s.cluster.leader].seen <= n
    ensures Legal(me, s, ev) && !ev.Elect?
    ensures var t := Next(me, s, ev);
            && P.Counted(t.pair, n + 1) && t.cluster.leader == s.cluster.leader && t.cluster.leader in t.cluster.units
            && t.cluster.units[t.cluster.leader].stopped
            && t.cluster.units[t.cluster.leader].seen <= Value(Own(me, t))
  {
    var st := P.SideBehindCanPromote(s.pair, n);
    P.StepCounts(s.pair, n, st);
    P.WhoPromotes(s.pair, n, st);
    ev := ClusterStep(st, DemotionRound.ALL_GOES_WELL);
    assert ViewOf(st.remote, P.Of(P.Next(s.pair, st), me).peer) == View(n + 1, Some(Ours));
  }

  lemma MarkedElectionBreaksFlag(me: P.Side, s: Life, n: nat, u: nat, elected: Life)
    requires Inv(me, s, n) && None in P.Of(s.pair, P.Other(me)).published
    requires u in s.cluster.units && MarkedElection(me, s, Elect(u))
    requires elected == s.(cluster := s.cluster.(leader := u))
    ensures !AlwaysHonest(me, elected)
  {
    var none: seq<Event> := [];
    assert Reaches(me, elected, none, elected);
    assert UnitOk(s.cluster.units[u], n, TheirTurn(me, n));
    if s.cluster.units[u].seen <= Value(Own(me, s)) {
      FlagInMarkedLeader(me, elected, none, elected, n);
    } else {
      var ev := MarkedLeaderPromotes(me, elected, n);
      ReachesNext(me, elected, none, elected, ev);
      OldestStaysVisible(me, elected, none + [ev]);
      FlagInMarkedLeader(me, elected, none + [ev], Next(me, elected, ev), n + 1);
    }
  }

  /** A change of leader keeps the flag's meaning if and only if it is not a marked election. */
  lemma FlagStaysHonestIff(me: P.Side, s: Life, events: seq<Event>, end: Life, change: Event)
    requires Start(s) && Reaches(me, s, events, end) && change.Elect? && Legal(me, end, change)
    ensures AlwaysHonest(me, Next(me, end, change)) <==> !MarkedElection(me, end, change)
  {
    var n := ReachedState(me, s, events, end);
    if MarkedElection(me, end, change) {
      MarkedElectionBreaksFlag(me, end, n, change.unit, Next(me, end, change));
    } else {
      var m := StepOk(me, end, n, change);
      InvIsForever(me, Next(me, end, change), m);
    }
  }

  /** A marked election is reachable: two units, and unit 1 elected while the cluster led by unit 0 is the
      primary for the second time. */
  lemma MarkedElectionHappens(none: DemotionCarryOver.Published, o1: DemotionCarryOver.Published,
                              o3: DemotionCarryOver.Published, c2: DemotionCarryOver.Published, change: Event)
    returns (s: Life, events: seq<Event>, end: Life)
    requires none == [None] && o1 == none + [Some(1)] && o3 == o1 + [Some(3)] && c2 == none + [Some(2)]
    requires change == Elect(1)
    ensures Start(s) && Reaches(P.Offer, s, events, end) && Legal(P.Offer, end, change)
    ensures !AlwaysSafe(P.Offer, Next(P.Offer, end, change)) && !AlwaysHonest(P.Offer, Next(P.Offer, end, change))
  {
    s := DemotionCarryOver.TwoUnits(none, none, DemotionCarryOver.FRESH_UNIT);
    end := DemotionCarryOver.TwoUnits(o3, c2, DemotionCarryOver.STOPPED_AT_2);
    DemotionCarryOver.TwoUnitsStart(none);
    events := DemotionCarryOver.MarkStaysBehind(s, none, o1, o3, c2);
    assert end.cluster.units[1] == DemotionCarryOver.STOPPED_AT_2 && !end.cluster.units[0].pgdata.Missing?;
    RestartsStaySafeIff(P.Offer, s, events, end, change);
    FlagStaysHonestIff(P.Offer, s, events, end, change);
  }
}
