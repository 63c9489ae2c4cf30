/** One relation's whole life, seen from one of the two clusters: promotions on both sides
    interleaved with the hooks of this cluster's units and with changes of its Juju leader. */
module DemotionLife {
  import opened Databags
  import opened CounterScan
  import opened Demotion
  import P = PromotionCounters

  datatype Life = Life(pair: P.Clusters, cluster: Cluster)

  /** A promotion by this cluster re-emits the relation-changed event in the leader, within the same hook.
      Leader-elected, which also fires when a leader's lease is renewed late, clears the flag when it finds the
      leader annotation missing; the leader's other hooks set it outside demotions. */
  datatype Event =
    | ClusterStep(step: P.Step, env: Env)
    | UnitHook(unit: nat, remote: Option<nat>, env: Env)
    | Elect(unit: nat)
    | LeaderElected(annotationMissing: bool)
    | LeaderHook(remote: Option<nat>, endpointReady: bool)

  function Own(me: P.Side, s: Life): Option<nat> {
    P.Of(s.pair, me).peer
  }

  /** What unit u sees of the other side is something that side published, and never gets older. */
  predicate Visible(me: P.Side, s: Life, u: nat, remote: Option<nat>) {
    && u in s.cluster.units
    && remote in P.Of(s.pair, P.Other(me)).published
    && ViewOf(remote, Own(me, s)).highest >= s.cluster.units[u].seen
  }

  /** Actions run in the leader, and promotion needs an initialised cluster. */
  predicate Legal(me: P.Side, s: Life, ev: Event) {
    match ev
    case ClusterStep(st, _) =>
      && P.Legal(s.pair, st)
      && (st.who == me ==> Visible(me, s, s.cluster.leader, st.remote) && (st.permitted ==> s.cluster.initialised))
    case UnitHook(u, remote, _) => Visible(me, s, u, remote)
    case Elect(u) => u in s.cluster.units && u != s.cluster.leader
    case LeaderElected(_) => true
    case LeaderHook(remote, _) => Visible(me, s, s.cluster.leader, remote)
  }

  function Next(me: P.Side, s: Life, ev: Event): Life
    requires Legal(me, s, ev)
  {
    match ev
    case ClusterStep(st, e) =>
      var pair := P.Next(s.pair, st);
      if st.who == me && P.Promotes(s.pair, st)
      then Life(pair, Handled(s.cluster, s.cluster.leader, ViewOf(st.remote, P.Of(pair, me).peer), e))
      else s.(pair := pair)
    case UnitHook(u, remote, e) => s.(cluster := Handled(s.cluster, u, ViewOf(remote, Own(me, s)), e))
    case Elect(u) => s.(cluster := s.cluster.(leader := u))
    case LeaderElected(annotationMissing) =>
      s.(cluster := s.cluster.(initialised := s.cluster.initialised && !annotationMissing))
    case LeaderHook(remote, endpointReady) =>
      s.(cluster := LeaderInitialised(s.cluster, ViewOf(remote, Own(me, s)), endpointReady))
  }

  predicate LegalRun(me: P.Side, s: Life, events: seq<Event>)
    decreases |events|
  {
    events == [] || (Legal(me, s, events[0]) && LegalRun(me, Next(me, s, events[0]), events[1..]))
  }

  function Run(me: P.Side, s: Life, events: seq<Event>): (r: Life)
    requires LegalRun(me, s, events)
    ensures r.cluster.units.Keys == s.cluster.units.Keys
    decreases |events|
  {
    if events == [] then s else Run(me, Next(me, s, events[0]), events[1..])
  }

  /** Leadership goes to a unit marked "stopped", and the cluster still counts as initialised, or will do so
      because that unit does not see the other cluster as the primary yet. */
  predicate MarkedElection(me: P.Side, s: Life, ev: Event) {
    && ev.Elect? && ev.unit in s.cluster.units && s.cluster.units[ev.unit].stopped
    && (s.cluster.initialised || s.cluster.units[ev.unit].seen <= Value(Own(me, s)))
  }

  /** No election of the run is a marked one. */
  predicate Careful(me: P.Side, s: Life, events: seq<Event>)
    requires LegalRun(me, s, events)
    decreases |events|
  {
    events == [] || (!MarkedElection(me, s, events[0]) && Careful(me, Next(me, s, events[0]), events[1..]))
  }

  /** A fresh relation between two running clusters. */
  predicate Start(s: Life) {
    && P.Start(s.pair) && P.Fresh(s.pair.consumer)
    && s.cluster.leader in s.cluster.units
    && forall v :: v in s.cluster.units ==>
         var r := s.cluster.units[v];
         r == Unit(false, None, true, r.pgdata, 0, []) && (r.pgdata.Previous? || r.pgdata.Missing?)
  }

  /** After n promotions, the other cluster is the promoted one. */
  predicate TheirTurn(me: P.Side, n: nat) {
    n > 0 && (n % 2 == 1 <==> me.Consumer?)
  }

  /** Emptied since it last ran. */
  predicate Clean(r: Unit) {
    r.pgdata.Wiped? && !r.running
  }

  predicate UnitOk(r: Unit, n: nat, theirs: bool) {
    && r.seen <= n
    && (r.counter.Some? ==> r.counter.value <= r.seen)
    && (r.stopped ==> n > 0 && (Clean(r) || (theirs && r.pgdata == StartedFor(n))))
    && (theirs && Following(r, n) ==> !r.stopped && r.running && r.pgdata == StartedFor(n))
    && (r.pgdata.StartedFor? ==> r.pgdata.counter <= r.seen)
  }

  /** The leader has reacted to promotion n of the other cluster. */
  predicate LeaderReacted(c: Cluster, n: nat)
    requires c.leader in c.units
  {
    c.units[c.leader].stopped || Following(c.units[c.leader], n)
  }

  predicate Restarting(c: Cluster, n: nat) {
    exists v :: v in c.units && c.units[v].pgdata == StartedFor(n)
  }

  predicate ClusterOk(c: Cluster, n: nat, theirs: bool) {
    && c.leader in c.units
    && (forall v :: v in c.units ==> UnitOk(c.units[v], n, theirs))
    && (c.units[c.leader].stopped ==> theirs && c.units[c.leader].seen == n)
    && (theirs && Restarting(c, n) ==> BarrierOpen(c, n))
    && (theirs && c.initialised && LeaderReacted(c, n) ==> AllFollow(c, n))
  }

  predicate Inv(me: P.Side, s: Life, n: nat) {
    P.Counted(s.pair, n) && ClusterOk(s.cluster, n, TheirTurn(me, n))
  }

  /** However stale its view, a unit that finds the other cluster promoted has the latest counter. */
  lemma ViewCases(me: P.Side, s: Life, n: nat, remote: Option<nat>)
    requires P.Counted(s.pair, n) && remote in P.Of(s.pair, P.Other(me)).published
    ensures var v := ViewOf(remote, Own(me, s));
            && v.highest <= n
            && (v.primary == Some(Ours) && TheirTurn(me, n) ==> v.highest < n)
            && (v.primary.Some? && v.primary.value.Theirs? ==> TheirTurn(me, n) && v.highest == n)
            && (v.primary.None? ==> v.highest == 0)
  {
  }

  lemma StoppedOk(c: Cluster, u: nat, n: nat, e: Env)
    requires ClusterOk(c, n, true) && u in c.units && c.units[u].seen == n && n > 0
    ensures ClusterOk(Stopped(c, u, n, e).0, n, true)
  {
    var d := Stopped(c, u, n, e).0;
    assert forall v :: v in c.units && v != u ==> d.units[v] == c.units[v];
    if !c.units[u].stopped && !Following(c.units[u], n) {
      assert !BarrierOpen(c, n);
      assert forall v :: v in c.units ==> c.units[v].pgdata != StartedFor(n);
      if u != c.leader {
        assert LeaderReacted(c, n) <==> LeaderReacted(d, n);
        assert !AllFollow(c, n);
      }
    }
  }

  lemma StartedOk(c: Cluster, u: nat, n: nat, e: Env)
    requires ClusterOk(c, n, true) && u in c.units && c.units[u].seen == n && n > 0 && BarrierOpen(c, n)
    ensures ClusterOk(DatabaseStarted(StartIssued(c, u, n), u, n, e), n, true)
  {
    var d := DatabaseStarted(StartIssued(c, u, n), u, n, e);
    assert forall v :: v in c.units && v != u ==> d.units[v] == c.units[v];
    assert BarrierOpen(d, n);
    if c.initialised {
      assert LeaderReacted(c, n) && AllFollow(c, n);
    }
  }

  lemma LookedOk(c: Cluster, u: nat, h: nat, n: nat, theirs: bool)
    requires ClusterOk(c, n, theirs) && u in c.units && c.units[u].seen <= h <= n
    ensures ClusterOk(Looked(c, u, h), n, theirs)
  {
    var d := Looked(c, u, h);
    assert d.units.Keys == c.units.Keys && d.units[u] == c.units[u].(seen := h);
    assert forall w :: w in c.units ==>
        d.units[w].pgdata == c.units[w].pgdata && d.units[w].stopped == c.units[w].stopped
                                        && d.units[w].counter == c.units[w].counter;
    assert BarrierOpen(d, n) <==> BarrierOpen(c, n);
    assert Restarting(d, n) ==> Restarting(c, n);
    assert AllFollow(d, n) <==> AllFollow(c, n);
  }

  lemma HookLooks(me: P.Side, s: Life, n: nat, u: nat, remote: Option<nat>, e: Env)
    requires Inv(me, s, n) && Legal(me, s, UnitHook(u, remote, e))
    ensures ClusterOk(Looked(s.cluster, u, ViewOf(remote, Own(me, s)).highest), n, TheirTurn(me, n))
  {
    ViewCases(me, s, n, remote);
    LookedOk(s.cluster, u, ViewOf(remote, Own(me, s)).highest, n, TheirTurn(me, n));
  }

  lemma HookOk(me: P.Side, s: Life, n: nat, u: nat, remote: Option<nat>, e: Env)
    requires Inv(me, s, n) && Legal(me, s, UnitHook(u, remote, e))
    ensures Inv(me, Next(me, s, UnitHook(u, remote, e)), n)
  {
    var c, v := s.cluster, ViewOf(remote, Own(me, s));
    ViewCases(me, s, n, remote);
    HookLooks(me, s, n, u, remote, e);
    var looked := Looked(c, u, v.highest);
    if v.primary == Some(Ours) {
      OursOk(looked, u, n, TheirTurn(me, n), v.highest);
    } else if v.primary.Some? && (u == c.leader || !Following(c.units[u], v.highest)) {
      FollowedOk(looked, u, n, e);
    }
  }

  lemma FollowedOk(c: Cluster, u: nat, n: nat, e: Env)
    requires ClusterOk(c, n, true) && u in c.units && c.units[u].seen == n && n > 0
    ensures ClusterOk(Followed(c, u, n, e), n, true)
  {
    StoppedOk(c, u, n, e);
    var (reached, starts) := BeforeStart(c, u, n, e);
    if starts {
      StartedOk(reached, u, n, e);
    }
  }

  lemma OursOk(c: Cluster, u: nat, n: nat, theirs: bool, h: nat)
    requires ClusterOk(c, n, theirs) && u in c.units && c.units[u].seen == h <= n && (theirs ==> h < n)
    ensures ClusterOk(Put(c, u, c.units[u].(counter := Some(h))), n, theirs)
  {
    var d := Put(c, u, c.units[u].(counter := Some(h)));
    assert forall v :: v in c.units && v != u ==> d.units[v] == c.units[v];
    if theirs {
      assert !Following(c.units[u], n) && !Following(d.units[u], n);
      assert LeaderReacted(c, n) <==> LeaderReacted(d, n);
      assert BarrierOpen(c, n) <==> BarrierOpen(d, n);
      assert Restarting(d, n) ==> Restarting(c, n) by {
        assert forall w :: w in c.units ==> d.units[w].pgdata == c.units[w].pgdata;
      }
    }
  }

  /** A promotion starts a new round for the units; a cluster that promotes itself is not mid-demotion. */
  lemma PromotionOk(c: Cluster, n: nat, was: bool, theirs: bool)
    requires ClusterOk(c, n, was) && (!theirs ==> c.initialised) && !(was && theirs)
    ensures ClusterOk(c, n + 1, theirs)
  {
    assert was && LeaderReacted(c, n) ==> AllFollow(c, n);
    forall v | v in c.units ensures UnitOk(c.units[v], n + 1, theirs) && c.units[v].pgdata != StartedFor(n + 1) {
      assert UnitOk(c.units[v], n, was);
      if was && c.units[v].stopped {
        assert !AllFollow(c, n) && !BarrierOpen(c, n);
        assert c.units[v].pgdata != StartedFor(n);
      }
    }
  }

  /** Any other election keeps the invariant, even in the middle of a round. */
  lemma ElectionOk(c: Cluster, n: nat, theirs: bool, u: nat)
    requires ClusterOk(c, n, theirs) && u in c.units
    requires c.units[u].stopped ==> theirs && c.units[u].seen == n && !c.initialised
    ensures ClusterOk(c.(leader := u), n, theirs)
  {
    var d := c.(leader := u);
    assert UnitOk(c.units[u], n, theirs);
    assert Restarting(d, n) ==> Restarting(c, n);
    if theirs && d.initialised && LeaderReacted(d, n) {
      assert c.units[u].pgdata == StartedFor(n);
      assert BarrierOpen(c, n) && LeaderReacted(c, n);
    }
  }

  /** The flag may come back outside a round: then the leader has not reacted to the round yet. */
  lemma LeaderHookOk(c: Cluster, v: View, endpointReady: bool, n: nat, theirs: bool)
    requires ClusterOk(c, n, theirs) && c.units[c.leader].seen <= v.highest <= n
    requires theirs && !SeesTheirs(v) ==> v.highest < n
    ensures ClusterOk(LeaderInitialised(c, v, endpointReady), n, theirs)
  {
    LookedOk(c, c.leader, v.highest, n, theirs);
    var looked := Looked(c, c.leader, v.highest);
    assert UnitOk(looked.units[c.leader], n, theirs);
    var d := LeaderInitialised(c, v, endpointReady);
    assert Restarting(d, n) ==> Restarting(c, n) || Restarting(looked, n);
    if !c.initialised && d.initialised && theirs {
      assert !LeaderReacted(d, n);
    }
  }

  lemma ClusterStepOk(me: P.Side, s: Life, n: nat, st: P.Step, e: Env) returns (m: nat)
    requires Inv(me, s, n) && Legal(me, s, ClusterStep(st, e))
    ensures m == (if P.Promotes(s.pair, st) then n + 1 else n) && Inv(me, Next(me, s, ClusterStep(st, e)), m)
  {
    m := n;
    P.StepCounts(s.pair, n, st);
    if P.Promotes(s.pair, st) {
      P.WhoPromotes(s.pair, n, st);
      m := n + 1;
      PromotionOk(s.cluster, n, TheirTurn(me, n), TheirTurn(me, m));
      if st.who == me {
        ReemittedOk(s.cluster, m, e);
        assert ViewOf(st.remote, P.Of(P.Next(s.pair, st), me).peer) == View(m, Some(Ours));
      }
    }
  }

  lemma StepOk(me: P.Side, s: Life, n: nat, ev: Event) returns (m: nat)
    requires Inv(me, s, n) && Legal(me, s, ev) && !MarkedElection(me, s, ev)
    ensures n <= m && Inv(me, Next(me, s, ev), m)
    ensures m == if ev.ClusterStep? && P.Promotes(s.pair, ev.step) then n + 1 else n
  {
    m := n;
    match ev {
      case ClusterStep(st, e) =>
        m := ClusterStepOk(me, s, n, st, e);
      case UnitHook(u, remote, e) =>
        HookOk(me, s, n, u, remote, e);
      case Elect(u) =>
        assert UnitOk(s.cluster.units[u], n, TheirTurn(me, n));
        ElectionOk(s.cluster, n, TheirTurn(me, n), u);
      case LeaderElected(_) =>
        assert Restarting(Next(me, s, ev).cluster, n) ==> Restarting(s.cluster, n);
      case LeaderHook(remote, endpointReady) =>
        ViewCases(me, s, n, remote);
        LeaderHookOk(s.cluster, ViewOf(remote, Own(me, s)), endpointReady, n, TheirTurn(me, n));
    }
  }

  /** The leader's own run right after a promotion. */
  lemma ReemittedOk(c: Cluster, n: nat, e: Env)
    requires ClusterOk(c, n, false)
    ensures ClusterOk(Handled(c, c.leader, View(n, Some(Ours)), e), n, false)
  {
    var d := Handled(c, c.leader, View(n, Some(Ours)), e);
    assert forall v :: v in c.units && v != c.leader ==> d.units[v] == c.units[v];
  }

  lemma {:induction false} RunOk(me: P.Side, s: Life, n: nat, events: seq<Event>) returns (m: nat)
    requires Inv(me, s, n) && LegalRun(me, s, events) && Careful(me, s, events)
    ensures n <= m && Inv(me, Run(me, s, events), m)
    decreases |events|
  {
    m := n;
    if events != [] {
      m := StepOk(me, s, n, events[0]);
      m := RunOk(me, Next(me, s, events[0]), m, events[1..]);
    }
  }

  lemma StartOk(me: P.Side, s: Life)
    requires Start(s)
    ensures Inv(me, s, 0)
  {
  }

  /** These events, without a marked election among them, lead from s to e. */
  predicate Reaches(me: P.Side, s: Life, events: seq<Event>, e: Life) {
    LegalRun(me, s, events) && Careful(me, s, events) && Run(me, s, events) == e
  }

  lemma {:induction false} ReachesNext(me: P.Side, s: Life, events: seq<Event>, e: Life, ev: Event)
    requires Reaches(me, s, events, e) && Legal(me, e, ev) && !MarkedElection(me, e, ev)
    ensures Reaches(me, s, events + [ev], Next(me, e, ev))
    decreases |events|
  {
    if events == [] {
      assert [] + [ev] == [ev] && [ev][1..] == [];
    } else {
      assert (events + [ev])[1..] == events[1..] + [ev];
      ReachesNext(me, Next(me, s, events[0]), events[1..], e, ev);
    }
  }

  // ----- what every restart and every return of the flag promise -----

  /** Each unit is down with an emptied data folder, or was restarted for this very counter. */
  predicate AllFreshFor(c: Cluster, h: nat) {
    forall v :: v in c.units ==> Clean(c.units[v]) || c.units[v].pgdata == StartedFor(h)
  }

  /** If the event is a run that asks for the database start, it does so with every unit fresh. */
  predicate RestartSafe(me: P.Side, s: Life, ev: Event)
    requires Legal(me, s, ev)
  {
    ev.UnitHook? ==>
      var v := ViewOf(ev.remote, Own(me, s));
      var at := BeforeStart(Looked(s.cluster, ev.unit, v.highest), ev.unit, v.highest, ev.env).0;
      IssuesStart(s.cluster, ev.unit, v, ev.env, at) ==> AllFreshFor(at, v.highest)
  }

  /** If the event sets the cleared flag again, then either it ends a round in the leader, with every unit
      running on data restarted for the promoted counter and recording it, or the leader is not marked
      "stopped" and does not see the other cluster as the primary. */
  predicate FlagHonest(me: P.Side, s: Life, ev: Event)
    requires Legal(me, s, ev)
  {
    !s.cluster.initialised && Next(me, s, ev).cluster.initialised ==>
      || (ev.UnitHook? && ev.unit == s.cluster.leader && RoundEnded(me, s, ev))
      || (ev.LeaderHook? && !s.cluster.units[s.cluster.leader].stopped && !SeesTheirs(ViewOf(ev.remote, Own(me, s))))
  }

  predicate RoundEnded(me: P.Side, s: Life, ev: Event)
    requires Legal(me, s, ev) && ev.UnitHook?
  {
    var h := ViewOf(ev.remote, Own(me, s)).highest;
    forall v :: v in s.cluster.units ==>
      var r := Next(me, s, ev).cluster.units[v];
      Following(r, h) && !r.stopped && r.running && r.pgdata == StartedFor(h)
  }

  lemma InvMakesSafe(me: P.Side, s: Life, n: nat, ev: Event)
    requires Inv(me, s, n) && Legal(me, s, ev)
    ensures RestartSafe(me, s, ev)
  {
    if ev.UnitHook? {
      var u, v := ev.unit, ViewOf(ev.remote, Own(me, s));
      ViewCases(me, s, n, ev.remote);
      var looked := Looked(s.cluster, u, v.highest);
      var at := BeforeStart(looked, u, v.highest, ev.env).0;
      if IssuesStart(s.cluster, u, v, ev.env, at) {
        HookLooks(me, s, n, u, ev.remote, ev.env);
        StoppedOk(looked, u, n, ev.env);
        assert forall w :: w in at.units ==> UnitOk(at.units[w], n, true);
      }
    }
  }

  lemma InvMakesHonest(me: P.Side, s: Life, n: nat, ev: Event)
    requires Inv(me, s, n) && Legal(me, s, ev)
    ensures FlagHonest(me, s, ev)
  {
    var next := Next(me, s, ev);
    if !s.cluster.initialised && next.cluster.initialised {
      assert ev.UnitHook? || ev.LeaderHook?;
      ViewCases(me, s, n, ev.remote);
      if ev.UnitHook? {
        HookOk(me, s, n, ev.unit, ev.remote, ev.env);
        FlagNeedsAll(s.cluster, ev.unit, ViewOf(ev.remote, Own(me, s)), ev.env);
        assert forall w :: w in next.cluster.units ==> UnitOk(next.cluster.units[w], n, true);
      }
    }
  }

  /** Safety of every restart in a relation's life without marked elections. */
  lemma RestartsAreSafe(me: P.Side, s: Life, events: seq<Event>, ev: Event)
    requires Start(s) && LegalRun(me, s, events) && Careful(me, s, events) && Legal(me, Run(me, s, events), ev)
    ensures RestartSafe(me, Run(me, s, events), ev)
  {
    StartOk(me, s);
    var n := RunOk(me, s, 0, events);
    InvMakesSafe(me, Run(me, s, events), n, ev);
  }

  /** In such a life the "cluster_initialised" flag comes back only when every unit has restarted. */
  lemma FlagReturnsOnlyWhenAllRestarted(me: P.Side, s: Life, events: seq<Event>, ev: Event)
    requires Start(s) && LegalRun(me, s, events) && Careful(me, s, events) && Legal(me, Run(me, s, events), ev)
    ensures FlagHonest(me, Run(me, s, events), ev)
  {
    StartOk(me, s);
    var n := RunOk(me, s, 0, events);
    InvMakesHonest(me, Run(me, s, events), n, ev);
  }

  /** One run sets a cleared flag only in the leader, on the other cluster's promotion, with all following. */
  lemma FlagNeedsAll(c: Cluster, u: nat, v: View, e: Env)
    requires u in c.units && !c.initialised && Handled(c, u, v, e).initialised
    ensures u == c.leader && v.primary.Some? && v.primary.value.Theirs?
    ensures AllFollow(Handled(c, u, v, e), v.highest)
  {
  }

  // ----- wipes -----

  predicate Rising(wipes: seq<nat>) {
    forall i, j :: 0 <= i < j < |wipes| ==> wipes[i] < wipes[j]
  }

  predicate WipesOk(r: Unit) {
    && Rising(r.wipes)
    && (r.counter.Some? ==> r.counter.value <= r.seen)
    && (r.wipes != [] ==> r.wipes[|r.wipes| - 1] <= r.seen)
    && (r.wipes != [] && !r.stopped ==> r.counter.Some? && r.wipes[|r.wipes| - 1] <= r.counter.value)
  }

  lemma RisingOn(wipes: seq<nat>, h: nat)
    requires Rising(wipes) && (wipes != [] ==> wipes[|wipes| - 1] < h)
    ensures Rising(wipes + [h])
  {
    assert forall i :: 0 <= i < |wipes| ==> wipes[i] < h;
  }

  lemma StopKeepsWipes(c: Cluster, u: nat, h: nat, e: Env)
    requires u in c.units && WipesOk(c.units[u]) && c.units[u].seen == h
    ensures WipesOk(Stopped(c, u, h, e).0.units[u]) && Stopped(c, u, h, e).0.units[u].seen == h
  {
    var r := c.units[u];
    if !r.stopped && !Following(r, h) {
      RisingOn(r.wipes, h);
      var after := Stopped(c, u, h, e).0.units[u];
      var down := r.(running := false);
      assert after == r || after == down || after == down.(stopped := true, pgdata := Wiped, wipes := r.wipes + [h]);
    }
  }

  lemma FollowKeepsWipes(c: Cluster, u: nat, h: nat, e: Env)
    requires u in c.units && WipesOk(c.units[u]) && c.units[u].seen == h
    ensures WipesOk(Followed(c, u, h, e).units[u])
  {
    StopKeepsWipes(c, u, h, e);
    var reached := BeforeStart(c, u, h, e).0;
    assert Followed(c, u, h, e).units[u].wipes == reached.units[u].wipes;
  }

  lemma HookKeepsWipes(c: Cluster, u: nat, v: View, e: Env)
    requires u in c.units && WipesOk(c.units[u]) && c.units[u].seen <= v.highest
    ensures WipesOk(Handled(c, u, v, e).units[u])
  {
    var looked := Looked(c, u, v.highest);
    var r := c.units[u].(seen := v.highest);
    assert looked.units[u] == r && WipesOk(r);
    if v.primary == Some(Ours) {
      assert WipesOk(r.(counter := Some(v.highest)));
    } else if v.primary.Some? && (u == c.leader || !Following(c.units[u], v.highest)) {
      FollowKeepsWipes(looked, u, v.highest, e);
    }
  }

  lemma LookKeepsWipes(c: Cluster, u: nat, h: nat)
    requires u in c.units && WipesOk(c.units[u]) && c.units[u].seen <= h
    ensures WipesOk(Looked(c, u, h).units[u])
  {
  }

  /** A wipe happens only while the unit sees the other cluster as the primary, and is recorded. */
  lemma WipeNeedsDemotion(c: Cluster, u: nat, v: View, e: Env)
    requires u in c.units
    ensures var before, after := c.units[u], Handled(c, u, v, e).units[u];
            after.wipes != before.wipes ==>
              && v.primary.Some? && v.primary.value.Theirs?
              && !before.stopped && !Following(before, v.highest)
              && after.wipes == before.wipes + [v.highest]
  {
    if v.primary.Some? && v.primary.value.Theirs? && (u == c.leader || !Following(c.units[u], v.highest)) {
      StopWipes(Looked(c, u, v.highest), u, v.highest, e);
    }
  }

  lemma StopWipes(c: Cluster, u: nat, h: nat, e: Env)
    requires u in c.units
    ensures var before, after := c.units[u], Followed(c, u, h, e).units[u];
            after.wipes == before.wipes
            || (!before.stopped && !Following(before, h) && after.wipes == before.wipes + [h])
  {
    var stopped := Stopped(c, u, h, e).0;
    assert stopped.units[u].wipes == c.units[u].wipes || !c.units[u].stopped;
  }

  /** Whoever leads: every run keeps the counters at a unit's wipes rising. */
  lemma {:induction false} WipesRise(me: P.Side, s: Life, events: seq<Event>)
    requires LegalRun(me, s, events) && forall u :: u in s.cluster.units ==> WipesOk(s.cluster.units[u])
    ensures forall u :: u in s.cluster.units ==> WipesOk(Run(me, s, events).cluster.units[u])
    decreases |events|
  {
    if events != [] {
      match events[0] {
        case UnitHook(u, remote, e) =>
          HookKeepsWipes(s.cluster, u, ViewOf(remote, Own(me, s)), e);
        case ClusterStep(st, e) =>
          if st.who == me && P.Promotes(s.pair, st) {
            HookKeepsWipes(s.cluster, s.cluster.leader, ViewOf(st.remote, P.Of(P.Next(s.pair, st), me).peer), e);
          }
        case Elect(_) =>
        case LeaderElected(_) =>
        case LeaderHook(remote, _) =>
          LookKeepsWipes(s.cluster, s.cluster.leader, ViewOf(remote, Own(me, s)).highest);
      }
      WipesRise(me, Next(me, s, events[0]), events[1..]);
    }
  }

  /** At most one wipe per promotion: the counters a unit saw at its wipes strictly increase. */
  lemma OneWipePerPromotion(me: P.Side, s: Life, events: seq<Event>, u: nat)
    requires Start(s) && LegalRun(me, s, events) && u in s.cluster.units
    ensures Rising(Run(me, s, events).cluster.units[u].wipes)
  {
    WipesRise(me, s, events);
  }
}
