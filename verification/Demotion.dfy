/** The relation-changed handler of a cluster that may have been demoted: every unit stops, wipes
    its data, waits for the others, and restarts behind the standby leader. */
module Demotion {
  import opened Databags
  import opened CounterScan

  /** The data folder: absent, holding the data the unit already had, emptied, or emptied and then
      handed to a database started for the given counter. */
  datatype Pgdata = Missing | Previous | Wiped | StartedFor(counter: nat)

  /** A unit: its databag fields "stopped" and "unit-promoted-cluster-counter", its service and data
      folder, and for the statements below the highest counter it has seen and the one it saw at
      each wipe. */
  datatype Unit = Unit(stopped: bool, counter: Option<nat>, running: bool, pgdata: Pgdata, seen: nat, wipes: seq<nat>)

  /** The units, the Juju leader and the "cluster_initialised" flag. */
  datatype Cluster = Cluster(units: map<nat, Unit>, leader: nat, initialised: bool)

  /** Everything a hook run asks of Juju, Kubernetes, Patroni and Pebble. */
  datatype Env = Env(
    secretFound: bool, identifierRead: bool, standbyLeaderUp: bool, containerReady: bool,
    memberStarted: bool, annotationMissing: bool, promotionPending: bool)

  datatype Outcome = Proceed | Return | Raise

  predicate Following(r: Unit, highest: nat) {
    r.counter == Some(highest)
  }

  function Put(c: Cluster, u: nat, r: Unit): Cluster {
    c.(units := c.units[u := r])
  }

  /** Stopping a unit that is neither stopped nor following. A raised error makes Juju drop the
      databag writes of the hook, while the service stays down. */
  function Stopped(c: Cluster, u: nat, highest: nat, e: Env): (Cluster, Outcome)
    requires u in c.units
  {
    var r := c.units[u];
    var down := r.(running := false);
    var wiped := down.(stopped := true, pgdata := Wiped, wipes := r.wipes + [highest]);
    if r.stopped || Following(r, highest) then (c, Proceed)
    else if u != c.leader then if r.pgdata.Missing? then (c, Return) else (Put(c, u, wiped), Proceed)
    else if !e.secretFound then (Put(c, u, down).(initialised := false), Return)
    else if !e.identifierRead || r.pgdata.Missing? then (Put(c, u, down), Raise)
    else (Put(c, u, wiped).(initialised := false), Proceed)
  }

  /** The unit itself and all its peers are stopped or follow the promoted cluster. */
  predicate BarrierOpen(c: Cluster, highest: nat) {
    forall v :: v in c.units ==> c.units[v].stopped || Following(c.units[v], highest)
  }

  function StartIssued(c: Cluster, u: nat, highest: nat): Cluster
    requires u in c.units
  {
    var r := c.units[u];
    Put(c, u, r.(running := true, pgdata := if r.pgdata.Wiped? then StartedFor(highest) else r.pgdata))
  }

  predicate AllFollow(c: Cluster, highest: nat) {
    forall v :: v in c.units ==> Following(c.units[v], highest)
  }

  function DatabaseStarted(c: Cluster, u: nat, highest: nat, e: Env): Cluster
    requires u in c.units
  {
    if e.memberStarted then
      var marked := Put(c, u, c.units[u].(stopped := false, counter := Some(highest)));
      if u == c.leader && AllFollow(marked, highest) then marked.(initialised := true) else marked
    else if u == c.leader && e.annotationMissing then c.(initialised := false)
    else c
  }

  /** Stopping, and whether the database start comes next. */
  function BeforeStart(c: Cluster, u: nat, highest: nat, e: Env): (Cluster, bool)
    requires u in c.units
  {
    var (stopped, outcome) := Stopped(c, u, highest, e);
    (stopped, outcome.Proceed? && BarrierOpen(stopped, highest)
              && (u == c.leader || e.standbyLeaderUp) && e.containerReady)
  }

  function Followed(c: Cluster, u: nat, highest: nat, e: Env): (r: Cluster)
    requires u in c.units
    ensures r.leader == c.leader && r.units.Keys == c.units.Keys
    ensures forall w :: w in c.units && w != u ==> r.units[w] == c.units[w]
  {
    var (reached, starts) := BeforeStart(c, u, highest, e);
    if starts then DatabaseStarted(StartIssued(reached, u, highest), u, highest, e) else reached
  }

  function Looked(c: Cluster, u: nat, highest: nat): Cluster
    requires u in c.units
  {
    Put(c, u, c.units[u].(seen := highest))
  }

  /** One whole run of the handler. It never touches the record of another unit. */
  function Handled(c: Cluster, u: nat, v: View, e: Env): (r: Cluster)
    requires u in c.units
    ensures r.leader == c.leader && r.units.Keys == c.units.Keys
    ensures forall w :: w in c.units && w != u ==> r.units[w] == c.units[w]
  {
    var looked := Looked(c, u, v.highest);
    match v.primary
    case None => looked
    case Some(Ours) =>
      if u == c.leader && e.promotionPending then looked
      else Put(looked, u, looked.units[u].(counter := Some(v.highest)))
    case Some(Theirs(_)) =>
      if u != c.leader && Following(c.units[u], v.highest) then looked
      else Followed(looked, u, v.highest, e)
  }

  predicate SeesTheirs(v: View) {
    v.primary.Some? && v.primary.value.Theirs?
  }

  /** The leader's hook on a cluster that is not initialised: unless it sees the other cluster as the
      primary, it marks the cluster initialised as soon as the primary endpoint answers. */
  function LeaderInitialised(c: Cluster, v: View, endpointReady: bool): Cluster
    requires c.leader in c.units
  {
    if c.initialised then c
    else Looked(c, c.leader, v.highest).(initialised := endpointReady && !SeesTheirs(v))
  }

  /** The run goes past the barrier and asks for the database start, in state `at`. */
  predicate IssuesStart(c: Cluster, u: nat, v: View, e: Env, at: Cluster)
    requires u in c.units
  {
    && SeesTheirs(v)
    && (u == c.leader || !Following(c.units[u], v.highest))
    && BeforeStart(Looked(c, u, v.highest), u, v.highest, e) == (at, true)
  }

  /** The handler as it writes the shared databags, one field at a time. */
  class AsyncReplication {
    const leader: nat
    var peer: Option<nat>
    var units: map<nat, Unit>
    var initialised: bool

    function State(): Cluster
      reads this
    {
      Cluster(units, leader, initialised)
    }

    constructor (start: Cluster, peer: Option<nat>)
      ensures State() == start && this.peer == peer
    {
      this.leader := start.leader;
      this.peer := peer;
      units, initialised := start.units, start.initialised;
    }

    method ConfigurePrimaryCluster(u: nat, v: View, e: Env) returns (done: bool)
      requires u in units
      modifies this`units
      ensures done <==> v.primary == Some(Ours)
      ensures units == if done && !(u == leader && e.promotionPending)
                       then old(units)[u := old(units)[u].(counter := Some(v.highest))] else old(units)
    {
      if v.primary != Some(Ours) {
        return false;
      }
      if u == leader && e.promotionPending {
        return true;
      }
      units := units[u := units[u].(counter := Some(v.highest))];
      done := true;
    }

    method StopDatabase(u: nat, highest: nat, e: Env) returns (outcome: Outcome)
      requires u in units
      modifies this`units, this`initialised
      ensures var (c, o) := Stopped(old(State()), u, highest, e);
              outcome == o && units == c.units
              && initialised == if o.Raise? then false else c.initialised
    {
      if !units[u].stopped && !Following(units[u], highest) {
        if u != leader && units[u].pgdata.Missing? {
          return Return;
        }
        units := units[u := units[u].(running := false)];
        if u == leader {
          initialised := false;
          if !e.secretFound {
            return Return;
          }
          if !e.identifierRead || units[u].pgdata.Missing? {
            return Raise;
          }
        }
        units := units[u := units[u].(pgdata := Wiped, wipes := units[u].wipes + [highest])];
        units := units[u := units[u].(stopped := true)];
      }
      outcome := Proceed;
    }

    method HandleDatabaseStart(u: nat, highest: nat, e: Env)
      requires u in units
      modifies this`units, this`initialised
      ensures State() == DatabaseStarted(old(State()), u, highest, e)
    {
      if e.memberStarted {
        units := units[u := units[u].(stopped := false)];
        units := units[u := units[u].(counter := Some(highest))];
        assert units == old(units)[u := old(units)[u].(stopped := false, counter := Some(highest))];
        if u == leader && AllFollow(State(), highest) {
          initialised := true;
        }
      } else if u == leader && e.annotationMissing {
        initialised := false;
      }
    }

    method StartDatabase(u: nat, highest: nat, e: Env)
      requires u in units
      modifies this`units, this`initialised
      ensures State() == DatabaseStarted(StartIssued(old(State()), u, highest), u, highest, e)
    {
      var r := units[u];
      units := units[u := r.(running := true, pgdata := if r.pgdata.Wiped? then StartedFor(highest) else r.pgdata)];
      HandleDatabaseStart(u, highest, e);
    }

    /** The rest of the handler once the other cluster is known to be the primary. */
    method FollowPrimaryCluster(u: nat, highest: nat, e: Env)
      requires u in units
      modifies this`units, this`initialised
      ensures State() == Followed(old(State()), u, highest, e)
    {
      var committed := initialised;
      var outcome := StopDatabase(u, highest, e);
      if outcome == Raise {
        initialised := committed;
      }
      if outcome == Proceed && BarrierOpen(State(), highest) && (u == leader || e.standbyLeaderUp) && e.containerReady {
        StartDatabase(u, highest, e);
      }
    }

    method OnAsyncRelationChanged(u: nat, remote: Option<nat>, e: Env)
      requires u in units
      modifies this`units, this`initialised
      ensures State() == Handled(old(State()), u, ViewOf(remote, peer), e)
    {
      var primary := VisiblePrimary(remote, peer);
      var highest := VisibleHighest(remote, peer);
      units := units[u := units[u].(seen := highest)];
      if primary.None? {
        return;
      }
      var configured := ConfigurePrimaryCluster(u, View(highest, primary), e);
      if configured || (u != leader && Following(units[u], highest)) {
        return;
      }
      FollowPrimaryCluster(u, highest, e);
    }

    /** The leader's part of peer-relation-changed and of pebble-ready. */
    method OnPeerRelationChanged(remote: Option<nat>, endpointReady: bool)
      requires leader in units
      modifies this`units, this`initialised
      ensures State() == LeaderInitialised(old(State()), ViewOf(remote, peer), endpointReady)
    {
      if initialised {
        return;
      }
      var primary := VisiblePrimary(remote, peer);
      var highest := VisibleHighest(remote, peer);
      units := units[leader := units[leader].(seen := highest)];
      if primary.Some? && primary.value.Theirs? {
        return;
      }
      initialised := endpointReady;
    }
  }
}
