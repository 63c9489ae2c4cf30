/** One demotion round: every run of the handler sees the other cluster as primary with the same
    highest counter. The barrier holds whoever leads at each run; convergence is for one leader. */
module DemotionRound {
  import opened Databags
  import opened CounterScan
  import opened Demotion

  /** A run in one unit, and the Juju leader at that moment. */
  datatype Visit = Visit(unit: nat, leader: nat, env: Env)

  function Seen(h: nat): View {
    View(h, Some(Theirs(0)))
  }

  predicate Members(c: Cluster, visits: seq<Visit>) {
    forall i :: 0 <= i < |visits| ==> visits[i].unit in c.units && visits[i].leader in c.units
  }

  function LedBy(c: Cluster, leader: nat): Cluster {
    c.(leader := leader)
  }

  function AfterVisit(c: Cluster, h: nat, visit: Visit): (r: Cluster)
    requires visit.unit in c.units
    ensures r.units.Keys == c.units.Keys
  {
    Handled(LedBy(c, visit.leader), visit.unit, Seen(h), visit.env)
  }

  function After(c: Cluster, h: nat, visits: seq<Visit>): Cluster
    requires Members(c, visits)
    decreases |visits|
  {
    if visits == [] then c else After(AfterVisit(c, h, visits[0]), h, visits[1..])
  }

  /** The round begins: nobody has reacted to counter h yet, and every data folder exists. */
  predicate RoundStart(c: Cluster, h: nat) {
    && c.leader in c.units
    && forall v :: v in c.units ==>
         !Following(c.units[v], h) && h !in c.units[v].wipes && !c.units[v].pgdata.Missing?
  }

  predicate AllWiped(c: Cluster, h: nat) {
    forall v :: v in c.units ==> h in c.units[v].wipes
  }

  /** No run issues the database start before every unit was stopped and wiped in this round. */
  predicate StartsAfterWipes(c: Cluster, h: nat, visits: seq<Visit>)
    requires Members(c, visits)
    decreases |visits|
  {
    visits == [] ||
    (var now, u, e := LedBy(c, visits[0].leader), visits[0].unit, visits[0].env;
     var at := BeforeStart(Looked(now, u, h), u, h, e).0;
     && (IssuesStart(now, u, Seen(h), e, at) ==> AllWiped(at, h))
     && StartsAfterWipes(AfterVisit(c, h, visits[0]), h, visits[1..]))
  }

  // ----- barrier -----

  predicate PastMeansWiped(c: Cluster, h: nat) {
    forall v :: v in c.units && (c.units[v].stopped || Following(c.units[v], h)) ==> h in c.units[v].wipes
  }

  lemma StopKeepsWiped(c: Cluster, u: nat, h: nat, e: Env)
    requires u in c.units && PastMeansWiped(c, h)
    ensures PastMeansWiped(Stopped(c, u, h, e).0, h)
  {
    var r := c.units[u];
    assert (r.wipes + [h])[|r.wipes|] == h;
  }

  lemma StartKeepsWiped(c: Cluster, u: nat, h: nat, e: Env)
    requires u in c.units && PastMeansWiped(c, h) && BarrierOpen(c, h)
    ensures PastMeansWiped(DatabaseStarted(StartIssued(c, u, h), u, h, e), h)
  {
    assert h in c.units[u].wipes;
  }

  lemma StepKeepsWiped(c: Cluster, u: nat, h: nat, e: Env)
    requires u in c.units && PastMeansWiped(c, h)
    ensures PastMeansWiped(Handled(c, u, Seen(h), e), h)
    ensures PastMeansWiped(BeforeStart(Looked(c, u, h), u, h, e).0, h)
  {
    var looked := Looked(c, u, h);
    assert PastMeansWiped(looked, h);
    StopKeepsWiped(looked, u, h, e);
    var (reached, starts) := BeforeStart(looked, u, h, e);
    if starts {
      StartKeepsWiped(reached, u, h, e);
    }
  }

  lemma {:induction false} NoCarryOverIsSafe(c: Cluster, h: nat, visits: seq<Visit>)
    requires Members(c, visits) && PastMeansWiped(c, h)
    ensures StartsAfterWipes(c, h, visits)
    decreases |visits|
  {
    if visits != [] {
      var u, e := visits[0].unit, visits[0].env;
      assert PastMeansWiped(LedBy(c, visits[0].leader), h);
      StepKeepsWiped(LedBy(c, visits[0].leader), u, h, e);
      NoCarryOverIsSafe(AfterVisit(c, h, visits[0]), h, visits[1..]);
    }
  }

  lemma {:induction false} AfterConcat(c: Cluster, h: nat, a: seq<Visit>, b: seq<Visit>)
    requires Members(c, a) && Members(c, b)
    ensures Members(c, a + b) && Members(After(c, h, a), b)
    ensures After(c, h, a).units.Keys == c.units.Keys
    ensures After(c, h, a + b) == After(After(c, h, a), h, b)
    ensures StartsAfterWipes(c, h, a + b) ==> StartsAfterWipes(After(c, h, a), h, b)
    decreases |a|
  {
    if a == [] {
      assert a + b == b;
    } else {
      var next := AfterVisit(c, h, a[0]);
      assert (a + b)[0] == a[0] && (a + b)[1..] == a[1..] + b;
      AfterConcat(next, h, a[1..], b);
    }
  }

  /** A run that can only stop its unit. */
  const ONLY_STOPS := Env(true, true, false, false, false, false, false)
  const ALL_GOES_WELL := Env(true, true, true, true, true, false, false)

  function StopVisits(todo: seq<nat>, leader: nat): seq<Visit> {
    seq(|todo|, i requires 0 <= i < |todo| => Visit(todo[i], leader, ONLY_STOPS))
  }

  lemma StopVisit(c: Cluster, u: nat, h: nat)
    requires u in c.units && !Following(c.units[u], h) && !c.units[u].pgdata.Missing?
    ensures var d := Handled(c, u, Seen(h), ONLY_STOPS);
            && d.units[u].stopped && !Following(d.units[u], h) && !d.units[u].pgdata.Missing?
            && (c.units[u].stopped ==> d.units[u].wipes == c.units[u].wipes)
  {
  }

  /** One visit of the sweep that stops everyone and leaves the carrier unwiped. */
  lemma OneStops(c: Cluster, h: nat, u: nat, carrier: nat)
    requires RoundStartButWipes(c, h) && u in c.units
    requires carrier in c.units && c.units[carrier].stopped && h !in c.units[carrier].wipes
    ensures var d := AfterVisit(c, h, Visit(u, c.leader, ONLY_STOPS));
            && d.units.Keys == c.units.Keys && d.leader == c.leader && RoundStartButWipes(d, h)
            && (forall v :: v in c.units && (v == u || c.units[v].stopped) ==> d.units[v].stopped)
            && h !in d.units[carrier].wipes
  {
    assert LedBy(c, c.leader) == c;
    StopVisit(c, u, h);
  }

  lemma {:induction false} StopEveryone(c: Cluster, h: nat, todo: seq<nat>, carrier: nat)
    requires RoundStartButWipes(c, h) && (forall v :: v in todo ==> v in c.units)
    requires carrier in c.units && c.units[carrier].stopped && h !in c.units[carrier].wipes
    ensures Members(c, StopVisits(todo, c.leader))
    ensures var d := After(c, h, StopVisits(todo, c.leader));
            && d.units.Keys == c.units.Keys && d.leader == c.leader && RoundStartButWipes(d, h)
            && (forall v :: v in c.units && (v in todo || c.units[v].stopped) ==> d.units[v].stopped)
            && h !in d.units[carrier].wipes
    decreases |todo|
  {
    if todo != [] {
      OneStops(c, h, todo[0], carrier);
      assert StopVisits(todo, c.leader)[1..] == StopVisits(todo[1..], c.leader);
      StopEveryone(AfterVisit(c, h, Visit(todo[0], c.leader, ONLY_STOPS)), h, todo[1..], carrier);
    }
  }

  predicate RoundStartButWipes(c: Cluster, h: nat) {
    && c.leader in c.units
    && forall v :: v in c.units ==> !Following(c.units[v], h) && !c.units[v].pgdata.Missing?
  }

  lemma {:induction false} Enumerate(s: set<nat>) returns (order: seq<nat>)
    ensures forall v :: v in order <==> v in s
  {
    if s == {} {
      order := [];
    } else {
      var v :| v in s;
      var rest := Enumerate(s - {v});
      order := [v] + rest;
    }
  }

  lemma LeaderStartsUnwiped(c: Cluster, h: nat, carrier: nat, last: seq<Visit>)
    requires RoundStartButWipes(c, h) && (forall v :: v in c.units ==> c.units[v].stopped)
    requires carrier in c.units && h !in c.units[carrier].wipes && last == [Visit(c.leader, c.leader, ALL_GOES_WELL)]
    ensures !StartsAfterWipes(c, h, last)
  {
    var looked := Looked(c, c.leader, h);
    assert LedBy(c, c.leader) == c;
    assert BarrierOpen(looked, h) && looked.units[c.leader].stopped;
    assert IssuesStart(c, c.leader, Seen(h), ALL_GOES_WELL, looked);
    assert h !in looked.units[carrier].wipes;
  }

  lemma CarryOverBreaksBarrier(c: Cluster, h: nat, carrier: nat) returns (visits: seq<Visit>)
    requires RoundStart(c, h) && carrier in c.units && c.units[carrier].stopped
    ensures Members(c, visits) && !StartsAfterWipes(c, h, visits)
  {
    var todo := Enumerate(c.units.Keys);
    StopEveryone(c, h, todo, carrier);
    var last := [Visit(c.leader, c.leader, ALL_GOES_WELL)];
    LeaderStartsUnwiped(After(c, h, StopVisits(todo, c.leader)), h, carrier, last);
    AfterConcat(c, h, StopVisits(todo, c.leader), last);
    visits := StopVisits(todo, c.leader) + last;
  }

  /** The demotion barrier: in every run of a round all units are stopped and wiped in that round
      before any start, if and only if no unit entered the round already marked "stopped". */
  lemma BarrierHoldsIffNoCarryOver(c: Cluster, h: nat)
    requires RoundStart(c, h)
    ensures (forall visits :: Members(c, visits) ==> StartsAfterWipes(c, h, visits))
            <==> (forall v :: v in c.units ==> !c.units[v].stopped)
  {
    if forall v :: v in c.units ==> !c.units[v].stopped {
      forall visits | Members(c, visits) ensures StartsAfterWipes(c, h, visits) {
        NoCarryOverIsSafe(c, h, visits);
      }
    } else {
      var carrier :| carrier in c.units && c.units[carrier].stopped;
      var visits := CarryOverBreaksBarrier(c, h, carrier);
    }
  }

  /** Once open, the barrier stays open for every unit as long as the highest counter is h. */
  lemma {:induction false} BarrierStaysOpen(c: Cluster, h: nat, visits: seq<Visit>)
    requires Members(c, visits) && BarrierOpen(c, h)
    ensures BarrierOpen(After(c, h, visits), h)
    decreases |visits|
  {
    if visits != [] {
      BarrierStaysOpen(AfterVisit(c, h, visits[0]), h, visits[1..]);
    }
  }

  // ----- what one run may change -----

  /** While its own cluster is the primary, a unit only records the counter, the leader not before its promotion has
      gone through; and without any primary it only looks. */
  lemma PrimaryOnlyRecords(c: Cluster, u: nat, h: nat, e: Env)
    requires u in c.units
    ensures var r := c.units[u];
            var recorded := if u == c.leader && e.promotionPending then r.counter else Some(h);
            && Handled(c, u, View(h, Some(Ours)), e) == c.(units := c.units[u := r.(seen := h, counter := recorded)])
            && Handled(c, u, View(h, None), e) == c.(units := c.units[u := r.(seen := h)])
  {
    var r := c.units[u];
    assert c.units[u := r.(seen := h)][u := r.(seen := h, counter := Some(h))]
        == c.units[u := r.(seen := h, counter := Some(h))];
  }

  /** A unit that already follows is left alone, unless it is the leader, whose run may still move the flag. */
  lemma FollowerIsLeftAlone(c: Cluster, u: nat, h: nat, e: Env)
    requires u in c.units && c.units[u].counter == Some(h)
    ensures u != c.leader ==> Handled(c, u, Seen(h), e) == c.(units := c.units[u := c.units[u].(seen := h)])
    ensures c.units[u].running && !c.units[u].stopped && c.units[u].pgdata != Wiped ==>
              Handled(c, u, Seen(h), e).units == c.units[u := c.units[u].(seen := h)]
  {
  }

  /** The flag is cleared only by the leader: when it stops its database in this run, or finds that its member has
      not started and the annotation is gone. A leader that stops leaves it cleared unless all others follow. */
  lemma OnlyLeaderClearsFlag(c: Cluster, u: nat, h: nat, e: Env)
    requires u in c.units && c.initialised
    ensures var r, d := c.units[u], Handled(c, u, Seen(h), e);
            && (!d.initialised ==>
                  && u == c.leader
                  && ((!r.stopped && r.counter != Some(h)) || (!e.memberStarted && e.annotationMissing)))
            && (u == c.leader && !r.stopped && r.counter != Some(h) && e.secretFound && e.identifierRead
                && r.pgdata != Missing && (exists v :: v in c.units && v != u && c.units[v].counter != Some(h))
                ==> !d.initialised)
  {
  }

  /** A unit loses its mark and records the counter only in a run that has asked for the start and found the member
      started; the leader without its annotation clears the flag instead of waiting for the member. */
  lemma RecordsOnlyOnceStarted(c: Cluster, u: nat, h: nat, e: Env)
    requires u in c.units && c.units[u].counter != Some(h)
    ensures var r, d := c.units[u], Handled(c, u, Seen(h), e);
            && (d.units[u].counter != r.counter || (r.stopped && !d.units[u].stopped) ==>
                  e.memberStarted && e.containerReady && d.units[u].running && !d.units[u].stopped
                  && d.units[u].counter == Some(h))
            && (!c.initialised && d.initialised ==> u == c.leader && d.units[u].counter == Some(h))
            && (u == c.leader && r.stopped && !r.running && d.units[u].running && !e.memberStarted ==>
                  d.initialised == (c.initialised && !e.annotationMissing))
  {
  }

  // ----- who starts when -----

  lemma OthersArePast(c: Cluster, u: nat, h: nat, e: Env)
    requires u in c.units
    ensures var at := Stopped(c, u, h, e).0;
            BarrierOpen(at, h)
            <==> (at.units[u].stopped || at.units[u].counter == Some(h))
                 && forall v :: v in c.units && v != u ==> c.units[v].stopped || c.units[v].counter == Some(h)
  {
    var at := Stopped(c, u, h, e).0;
    assert at.units.Keys == c.units.Keys && forall v :: v in c.units && v != u ==> at.units[v] == c.units[v];
  }

  /** A unit that is down starts exactly when its own stop went through, every other unit is stopped or follows,
      the container answers, and a standby leader is up unless the unit is the Juju leader. */
  lemma DownUnitStartsIff(c: Cluster, u: nat, h: nat, e: Env)
    requires u in c.units && !c.units[u].running && (u == c.leader || c.units[u].counter != Some(h))
    ensures var r := c.units[u];
            Handled(c, u, Seen(h), e).units[u].running
            <==>
            && (r.stopped || r.counter == Some(h)
                || (r.pgdata != Missing && (u == c.leader ==> e.secretFound && e.identifierRead)))
            && (forall v :: v in c.units && v != u ==> c.units[v].stopped || c.units[v].counter == Some(h))
            && e.containerReady
            && (u == c.leader || e.standbyLeaderUp)
  {
    var looked := Looked(c, u, h);
    OthersArePast(looked, u, h, e);
    assert forall v :: v in c.units && v != u ==> looked.units[v] == c.units[v];
    RunsOnceStarted(looked, u, h, e);
  }

  lemma RunsOnceStarted(c: Cluster, u: nat, h: nat, e: Env)
    requires u in c.units && !c.units[u].running
    ensures Followed(c, u, h, e).units[u].running <==> BeforeStart(c, u, h, e).1
  {
  }

  /** Without a standby leader no other unit goes past its wipe: one that is down stays down and keeps its mark,
      and nothing is recorded. */
  lemma WaitsForStandbyLeader(c: Cluster, u: nat, h: nat, e: Env)
    requires u in c.units && u != c.leader && !e.standbyLeaderUp
    ensures var before, d := c.units[u], Handled(c, u, Seen(h), e);
            var after := d.units[u];
            && d.initialised == c.initialised
            && after.counter == before.counter
            && (!before.running ==> !after.running)
            && (before.stopped ==> after == before.(seen := h))
            && (after.pgdata == before.pgdata || (after.stopped && after.pgdata == Wiped && !after.running))
  {
  }

  predicate Restarted(r: Unit, h: nat) {
    r.running && r.pgdata == StartedFor(h)
  }

  /** One Juju leader throughout, and Patroni names a standby leader only while it runs on restarted data. */
  predicate StandbyLeaderIsLeader(c: Cluster, h: nat, visits: seq<Visit>)
    requires Members(c, visits)
    decreases |visits|
  {
    visits == [] ||
    (&& visits[0].leader == c.leader
     && (visits[0].env.standbyLeaderUp ==> Restarted(c.units[c.leader], h))
     && StandbyLeaderIsLeader(AfterVisit(c, h, visits[0]), h, visits[1..]))
  }

  /** No other unit has restarted for h, or recorded it, unless the leader runs on data restarted for h. */
  predicate LeaderIsFirst(c: Cluster, h: nat)
    requires c.leader in c.units
  {
    forall v :: v in c.units && v != c.leader
                && (c.units[v].pgdata == StartedFor(h) || c.units[v].counter == Some(h)) ==>
        Restarted(c.units[c.leader], h)
  }

  /** A leader on restarted data is past the barrier, so no later run wipes it. */
  predicate LeaderStays(c: Cluster, h: nat)
    requires c.leader in c.units
  {
    c.units[c.leader].pgdata == StartedFor(h) ==>
      c.units[c.leader].running && (c.units[c.leader].stopped || c.units[c.leader].counter == Some(h))
  }

  lemma LeaderVisitStays(c: Cluster, h: nat, e: Env)
    requires c.leader in c.units && LeaderStays(c, h)
    ensures LeaderStays(Handled(c, c.leader, Seen(h), e), h)
    ensures Restarted(c.units[c.leader], h) ==> Restarted(Handled(c, c.leader, Seen(h), e).units[c.leader], h)
  {
    var looked := Looked(c, c.leader, h);
    assert LeaderStays(looked, h);
    LeaderFollowStays(looked, h, e);
  }

  lemma LeaderFollowStays(c: Cluster, h: nat, e: Env)
    requires c.leader in c.units && LeaderStays(c, h)
    ensures LeaderStays(Followed(c, c.leader, h, e), h)
    ensures Restarted(c.units[c.leader], h) ==> Restarted(Followed(c, c.leader, h, e).units[c.leader], h)
  {
  }

  lemma VisitKeepsLeaderFirst(c: Cluster, h: nat, u: nat, e: Env)
    requires c.leader in c.units && u in c.units && LeaderIsFirst(c, h) && LeaderStays(c, h)
    requires e.standbyLeaderUp ==> Restarted(c.units[c.leader], h)
    ensures LeaderIsFirst(Handled(c, u, Seen(h), e), h) && LeaderStays(Handled(c, u, Seen(h), e), h)
  {
    var d := Handled(c, u, Seen(h), e);
    if u == c.leader {
      LeaderVisitStays(c, h, e);
      assert forall v :: v in c.units && v != u ==> d.units[v] == c.units[v];
    } else if !e.standbyLeaderUp {
      WaitsForStandbyLeader(c, u, h, e);
      assert forall v :: v in c.units && v != u ==> d.units[v] == c.units[v];
    }
  }

  lemma {:induction false} RunKeepsLeaderFirst(c: Cluster, h: nat, visits: seq<Visit>)
    requires Members(c, visits) && StandbyLeaderIsLeader(c, h, visits)
    requires c.leader in c.units && LeaderIsFirst(c, h) && LeaderStays(c, h)
    ensures var d := After(c, h, visits);
            d.leader == c.leader && d.units.Keys == c.units.Keys && LeaderIsFirst(d, h) && LeaderStays(d, h)
    decreases |visits|
  {
    if visits != [] {
      assert LedBy(c, visits[0].leader) == c;
      VisitKeepsLeaderFirst(c, h, visits[0].unit, visits[0].env);
      RunKeepsLeaderFirst(AfterVisit(c, h, visits[0]), h, visits[1..]);
    }
  }

  /** The leader is the first to restart: whatever the order of the runs in a round, another unit holds data
      restarted for h, or has recorded h, only while the leader runs on data restarted for h. */
  lemma LeaderRestartsFirst(c: Cluster, h: nat, visits: seq<Visit>, v: nat)
    requires RoundStart(c, h) && forall w :: w in c.units ==> c.units[w].pgdata != StartedFor(h)
    requires Members(c, visits) && StandbyLeaderIsLeader(c, h, visits) && v in c.units && v != c.leader
    ensures var d := After(c, h, visits);
            && c.leader in d.units && v in d.units
            && (d.units[v].pgdata == StartedFor(h) || d.units[v].counter == Some(h) ==>
                  d.units[c.leader].running && d.units[c.leader].pgdata == StartedFor(h))
  {
    RunKeepsLeaderFirst(c, h, visits);
  }

  // ----- convergence -----

  /** What a run meets when Patroni starts whenever it is asked to: the secret is there, the
      container answers, and a standby leader is up once the Juju leader has restarted. */
  function Cooperative(c: Cluster, h: nat): Env
    requires c.leader in c.units
  {
    var l := c.units[c.leader];
    Env(true, true, l.running && Following(l, h), true, true, false, false)
  }

  function Visited(c: Cluster, h: nat, u: nat): Cluster
    requires u in c.units && c.leader in c.units
  {
    Handled(c, u, Seen(h), Cooperative(c, h))
  }

  /** Holds from the start of a round on: following units are running on restarted data. */
  predicate InRound(c: Cluster, h: nat) {
    && c.leader in c.units
    && forall v :: v in c.units ==>
         RoundUnit(c.units[v], h)
  }

  predicate RoundUnit(r: Unit, h: nat) {
    && !r.pgdata.Missing?
    && (Following(r, h) ==> !r.stopped && r.running && !r.pgdata.Wiped?)
  }

  predicate Finished(c: Cluster, h: nat) {
    AllFollow(c, h) && c.initialised
  }

  function ToStop(c: Cluster, h: nat): set<nat> {
    set v | v in c.units && !c.units[v].stopped && !Following(c.units[v], h)
  }

  function ToStart(c: Cluster): set<nat> {
    set v | v in c.units && c.units[v].stopped
  }

  /** Strictly smaller in (units not yet stopped, units stopped, flag still to set). */
  predicate Closer(d: Cluster, c: Cluster, h: nat) {
    || |ToStop(d, h)| < |ToStop(c, h)|
    || (|ToStop(d, h)| == |ToStop(c, h)| && |ToStart(d)| < |ToStart(c)|)
    || (|ToStop(d, h)| == |ToStop(c, h)| && |ToStart(d)| == |ToStart(c)| && d.initialised && !c.initialised)
  }

  lemma StartIsInRound(c: Cluster, h: nat)
    requires RoundStart(c, h)
    ensures InRound(c, h)
  {
  }

  lemma VisitKeepsRound(c: Cluster, h: nat, u: nat)
    requires InRound(c, h) && u in c.units
    ensures InRound(Visited(c, h, u), h)
  {
    if u == c.leader || !Following(c.units[u], h) {
      FollowKeepsRound(Looked(c, u, h), u, h, Cooperative(c, h));
    }
  }

  lemma FollowKeepsRound(c: Cluster, u: nat, h: nat, e: Env)
    requires u in c.units && RoundUnit(c.units[u], h) && e.secretFound && e.identifierRead && e.memberStarted
    ensures RoundUnit(Followed(c, u, h, e).units[u], h)
  {
    assert RoundUnit(Stopped(c, u, h, e).0.units[u], h);
  }

  lemma Smaller(small: set<nat>, big: set<nat>, u: nat)
    requires u in big && u !in small && small <= big
    ensures |small| < |big|
  {
    assert |small + {u}| <= |big| by { Subset(small + {u}, big); }
  }

  lemma {:induction false} Subset(small: set<nat>, big: set<nat>)
    requires small <= big
    ensures |small| <= |big|
  {
    if small != {} {
      var v :| v in small;
      Subset(small - {v}, big - {v});
    }
  }

  lemma StoppingIsProgress(c: Cluster, h: nat, u: nat)
    requires InRound(c, h) && u in c.units && !c.units[u].stopped && !Following(c.units[u], h)
    ensures Closer(Visited(c, h, u), c, h)
  {
    Smaller(ToStop(Visited(c, h, u), h), ToStop(c, h), u);
  }

  lemma StartingIsProgress(c: Cluster, h: nat, u: nat)
    requires InRound(c, h) && u in c.units && c.units[u].stopped
    ensures Visited(c, h, u) == Looked(c, u, h)
              || (Closer(Visited(c, h, u), c, h) && !Visited(c, h, u).units[u].stopped)
  {
    var d := Visited(c, h, u);
    assert ToStop(d, h) == ToStop(c, h);
    if !d.units[u].stopped {
      Smaller(ToStart(d), ToStart(c), u);
    }
  }

  lemma FollowingStays(c: Cluster, h: nat, u: nat)
    requires InRound(c, h) && u in c.units && !c.units[u].stopped && Following(c.units[u], h)
    ensures Closer(Visited(c, h, u), c, h) || Visited(c, h, u) == Looked(c, u, h)
  {
    var d := Visited(c, h, u);
    assert d.units == Looked(c, u, h).units;
    assert ToStop(d, h) == ToStop(c, h) && ToStart(d) == ToStart(c);
  }

  /** No run undoes progress: the measure falls strictly, or nothing changed but what was looked at. */
  lemma VisitNeverUndoes(c: Cluster, h: nat, u: nat)
    requires InRound(c, h) && u in c.units
    ensures Closer(Visited(c, h, u), c, h) || Visited(c, h, u) == Looked(c, u, h)
  {
    if !c.units[u].stopped && !Following(c.units[u], h) {
      StoppingIsProgress(c, h, u);
    } else if c.units[u].stopped {
      StartingIsProgress(c, h, u);
    } else {
      FollowingStays(c, h, u);
    }
  }

  /** Every unfinished state has a unit whose run makes progress. */
  lemma SomeoneCanProgress(c: Cluster, h: nat) returns (u: nat)
    requires InRound(c, h) && !Finished(c, h)
    ensures u in c.units && Closer(Visited(c, h, u), c, h)
  {
    if v :| v in ToStop(c, h) {
      u := v;
      Smaller(ToStop(Visited(c, h, u), h), ToStop(c, h), u);
    } else if c.units[c.leader].stopped || AllFollow(c, h) {
      u := c.leader;
      assert BarrierOpen(Looked(c, u, h), h) by {
        assert forall w :: w in c.units ==> w !in ToStop(c, h);
      }
      VisitNeverUndoes(c, h, u);
    } else {
      var v :| v in c.units && !Following(c.units[v], h);
      u := v;
      assert c.leader !in ToStop(c, h) && v !in ToStop(c, h);
      assert BarrierOpen(Looked(c, u, h), h) by {
        assert forall w :: w in c.units ==> w !in ToStop(c, h);
      }
      VisitNeverUndoes(c, h, u);
    }
  }

  function Sweep(c: Cluster, h: nat, order: seq<nat>): Cluster
    requires c.leader in c.units && forall v :: v in order ==> v in c.units
    decreases |order|
  {
    if order == [] then c else Sweep(Visited(c, h, order[0]), h, order[1..])
  }

  /** The order in which hooks ran visits every unit at least once. */
  ghost predicate Covers(c: Cluster, order: seq<nat>) {
    forall v :: v in order <==> v in c.units
  }

  lemma {:induction false} SweepStops(c: Cluster, h: nat, order: seq<nat>)
    requires InRound(c, h) && forall v :: v in order ==> v in c.units
    ensures var d := Sweep(c, h, order);
            && InRound(d, h) && d.leader == c.leader && d.units.Keys == c.units.Keys
            && forall v :: v in c.units && (v in order || v !in ToStop(c, h)) ==> v !in ToStop(d, h)
    decreases |order|
  {
    if order != [] {
      VisitKeepsRound(c, h, order[0]);
      var d := Visited(c, h, order[0]);
      assert forall v :: v in c.units && (v == order[0] || v !in ToStop(c, h)) ==> v !in ToStop(d, h);
      SweepStops(d, h, order[1..]);
    }
  }

  /** Behind an open barrier a visit starts the leader, and any unit once the leader follows. */
  lemma VisitBehindBarrier(c: Cluster, h: nat, u: nat)
    requires InRound(c, h) && BarrierOpen(c, h) && u in c.units
    ensures var d := Visited(c, h, u);
            && InRound(d, h) && BarrierOpen(d, h) && d.leader == c.leader && d.units.Keys == c.units.Keys
            && (forall v :: v in c.units && Following(c.units[v], h) ==> Following(d.units[v], h))
            && (u == c.leader || Following(c.units[c.leader], h) ==> Following(d.units[u], h))
  {
    VisitKeepsRound(c, h, u);
    assert BarrierOpen(Looked(c, u, h), h);
  }

  lemma {:induction false} SweepStartsLeader(c: Cluster, h: nat, order: seq<nat>)
    requires InRound(c, h) && BarrierOpen(c, h) && forall v :: v in order ==> v in c.units
    ensures var d := Sweep(c, h, order);
            && d.leader == c.leader && d.units.Keys == c.units.Keys && BarrierOpen(d, h)
            && (c.leader in order || Following(c.units[c.leader], h) ==> Following(d.units[c.leader], h))
    decreases |order|
  {
    if order != [] {
      VisitBehindBarrier(c, h, order[0]);
      SweepStartsLeader(Visited(c, h, order[0]), h, order[1..]);
    }
  }

  lemma {:induction false} SweepStartsAll(c: Cluster, h: nat, order: seq<nat>)
    requires InRound(c, h) && BarrierOpen(c, h) && Following(c.units[c.leader], h)
    requires forall v :: v in order ==> v in c.units
    ensures var d := Sweep(c, h, order);
            && d.leader == c.leader && d.units.Keys == c.units.Keys
            && forall v :: v in c.units && (v in order || Following(c.units[v], h)) ==> Following(d.units[v], h)
    decreases |order|
  {
    if order != [] {
      VisitBehindBarrier(c, h, order[0]);
      SweepStartsAll(Visited(c, h, order[0]), h, order[1..]);
    }
  }

  lemma {:induction false} SweepSetsFlag(c: Cluster, h: nat, order: seq<nat>)
    requires InRound(c, h) && AllFollow(c, h) && forall v :: v in order ==> v in c.units
    ensures AllFollow(Sweep(c, h, order), h)
    ensures c.leader in order || c.initialised ==> Sweep(c, h, order).initialised
    decreases |order|
  {
    if order != [] {
      VisitKeepsRound(c, h, order[0]);
      SweepSetsFlag(Visited(c, h, order[0]), h, order[1..]);
    }
  }

  /** Convergence: whatever the order of the hooks, four passes over all the units finish the round,
      with every unit following and the cluster initialised again. */
  lemma FourSweepsFinish(c: Cluster, h: nat, first: seq<nat>, second: seq<nat>, third: seq<nat>, fourth: seq<nat>)
    requires RoundStart(c, h)
    requires Covers(c, first) && Covers(c, second) && Covers(c, third) && Covers(c, fourth)
    ensures var stopped := Sweep(c, h, first);
            && stopped.leader in stopped.units && Covers(stopped, second) &&
            var led := Sweep(stopped, h, second);
            && led.leader in led.units && Covers(led, third) &&
            var started := Sweep(led, h, third);
            && started.leader in started.units && Covers(started, fourth) &&
            Finished(Sweep(started, h, fourth), h)
  {
    StartIsInRound(c, h);
    SweepStops(c, h, first);
    var stopped := Sweep(c, h, first);
    assert BarrierOpen(stopped, h) by {
      assert forall v :: v in stopped.units ==> v !in ToStop(stopped, h);
    }
    SweepStops(stopped, h, second);
    SweepStartsLeader(stopped, h, second);
    var led := Sweep(stopped, h, second);
    SweepStops(led, h, third);
    SweepStartsAll(led, h, third);
    SweepSetsFlag(Sweep(led, h, third), h, fourth);
  }
}
