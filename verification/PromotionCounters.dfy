/** Two clusters joined by one async-replication relation, each publishing a promoted-cluster
    counter and seeing the other's counter late. */
module PromotionCounters {
  import opened Databags
  import opened CounterScan

  datatype Side = Offer | Consumer

  /** One cluster. `published` is every value its relation databag has held so far, the current
      one last; `status` is what the application status shows. */
  datatype Cluster = Cluster(peer: Option<nat>, published: seq<Option<nat>>, status: AppStatus)

  /** "Standalone read-only cluster", plain active, "Primary" and "Standby". */
  datatype AppStatus = ReadOnlyStatus | ActiveStatus | PrimaryStatus | StandbyStatus

  datatype Action = CreateReplication | PromoteToPrimary | RefreshStatus

  /** A hook run. `remote` is what the running cluster sees of the other one, `permitted` stands
      for the remaining checks (initialised, addresses published, system identifier, reachability). */
  datatype Step = Step(who: Side, action: Action, remote: Option<nat>, permitted: bool)

  datatype Clusters = Clusters(offer: Cluster, consumer: Cluster)

  function Advance(c: Cluster, remote: Option<nat>): Cluster {
    var next := Some(ViewOf(remote, c.peer).highest + 1);
    c.(peer := next, published := c.published + [next])
  }

  function StatusFor(peer: Option<nat>, remote: Option<nat>): AppStatus {
    if peer == Some(0) then ReadOnlyStatus
    else
      match ViewOf(remote, peer).primary
      case None => ActiveStatus
      case Some(Ours) => PrimaryStatus
      case Some(Theirs(_)) => StandbyStatus
  }

  function After(c: Cluster, side: Side, action: Action, remote: Option<nat>, permitted: bool): Cluster {
    var primary := ViewOf(remote, c.peer).primary;
    match action
    case CreateReplication =>
      if primary.Some? || side.Consumer? || !permitted then c else Advance(c, remote)
    case PromoteToPrimary =>
      if (!c.status.ReadOnlyStatus? && primary.None?) || primary == Some(Ours) || !permitted then c
      else Advance(c, remote)
    case RefreshStatus => c.(status := StatusFor(c.peer, remote))
  }

  /** The handlers of one cluster, writing its databags field by field. */
  class ReplicationSide {
    const side: Side
    var peer: Option<nat>
    var published: seq<Option<nat>>
    var status: AppStatus

    function State(): Cluster
      reads this
    {
      Cluster(peer, published, status)
    }

    constructor (side: Side, start: Cluster)
      ensures this.side == side && State() == start
    {
      this.side := side;
      peer, published, status := start.peer, start.published, start.status;
    }

    method CanPromoteCluster(remote: Option<nat>, permitted: bool) returns (can: bool)
      ensures can <==> permitted && ViewOf(remote, peer).primary != Some(Ours)
    {
      if !permitted {
        return false;
      }
      var primary := VisiblePrimary(remote, peer);
      can := primary != Some(Ours);
    }

    method HandleReplicationChange(remote: Option<nat>, permitted: bool) returns (changed: bool)
      modifies this
      ensures changed <==> permitted && ViewOf(remote, old(peer)).primary != Some(Ours)
      ensures State() == if changed then Advance(old(State()), remote) else old(State())
    {
      changed := CanPromoteCluster(remote, permitted);
      if changed {
        var highest := VisibleHighest(remote, peer);
        published := published + [Some(highest + 1)];
        peer := Some(highest + 1);
      }
    }

    method OnCreateReplication(remote: Option<nat>, permitted: bool)
      modifies this
      ensures State() == After(old(State()), side, CreateReplication, remote, permitted)
    {
      var primary := VisiblePrimary(remote, peer);
      if primary.Some? || side == Consumer {
        return;
      }
      var _ := HandleReplicationChange(remote, permitted);
    }

    method OnPromoteToPrimary(remote: Option<nat>, permitted: bool)
      modifies this
      ensures State() == After(old(State()), side, PromoteToPrimary, remote, permitted)
    {
      var primary := VisiblePrimary(remote, peer);
      if !status.ReadOnlyStatus? && primary.None? {
        return;
      }
      var _ := HandleReplicationChange(remote, permitted);
    }

    method SetAppStatus(remote: Option<nat>)
      modifies this`status
      ensures status == StatusFor(peer, remote)
    {
      if peer == Some(0) {
        status := ReadOnlyStatus;
        return;
      }
      var primary := VisiblePrimary(remote, peer);
      if primary.None? {
        status := ActiveStatus;
      } else {
        status := if primary == Some(Ours) then PrimaryStatus else StandbyStatus;
      }
    }
  }

  // ----- runs of the two clusters -----

  function Of(s: Clusters, side: Side): Cluster {
    if side.Offer? then s.offer else s.consumer
  }

  function Other(side: Side): Side {
    if side.Offer? then Consumer else Offer
  }

  /** A cluster may see any value the other one has published so far, however old. */
  predicate Legal(s: Clusters, st: Step) {
    st.remote in Of(s, Other(st.who)).published
  }

  function Next(s: Clusters, st: Step): Clusters {
    var c := After(Of(s, st.who), st.who, st.action, st.remote, st.permitted);
    if st.who.Offer? then s.(offer := c) else s.(consumer := c)
  }

  predicate LegalRun(s: Clusters, steps: seq<Step>)
    decreases |steps|
  {
    steps == [] || (Legal(s, steps[0]) && LegalRun(Next(s, steps[0]), steps[1..]))
  }

  function Run(s: Clusters, steps: seq<Step>): Clusters
    decreases |steps|
  {
    if steps == [] then s else Run(Next(s, steps[0]), steps[1..])
  }

  /** The step raised the counter of the cluster that ran it. */
  predicate Promotes(s: Clusters, st: Step) {
    Of(Next(s, st), st.who).published != Of(s, st.who).published
  }

  function Promotions(s: Clusters, steps: seq<Step>): nat
    decreases |steps|
  {
    if steps == [] then 0
    else (if Promotes(s, steps[0]) then 1 else 0) + Promotions(Next(s, steps[0]), steps[1..])
  }

  function Counter(c: Cluster): nat {
    Value(c.peer)
  }

  /** What the relation databag of the cluster holds now. */
  function Latest(c: Cluster): Option<nat> {
    if c.published == [] then None else c.published[|c.published| - 1]
  }

  predicate Tied(s: Clusters) {
    Counter(s.offer) == Counter(s.consumer) > 0
  }

  /** A cluster at the start of a relation: no counter, or standalone read-only with counter "0". */
  predicate Fresh(c: Cluster) {
    c == Cluster(None, [None], c.status) && !c.status.ReadOnlyStatus?
  }

  predicate ReadOnly(c: Cluster) {
    c == Cluster(Some(0), [None], ReadOnlyStatus)
  }

  predicate Start(s: Clusters) {
    (Fresh(s.offer) || ReadOnly(s.offer)) && (Fresh(s.consumer) || ReadOnly(s.consumer))
  }

  // ----- the counters after n promotions -----

  function OfferCounter(n: nat): nat {
    if n % 2 == 1 then n else if n == 0 then 0 else n - 1
  }

  function ConsumerCounter(n: nat): nat {
    if n % 2 == 0 then n else n - 1
  }

  /** After n promotions the offer side holds the latest odd number and the consumer side the
      latest even one, and so does everything they have published. */
  predicate Counted(s: Clusters, n: nat) {
    && Counter(s.offer) == OfferCounter(n)
    && Counter(s.consumer) == ConsumerCounter(n)
    && Value(Latest(s.offer)) == OfferCounter(n)
    && Value(Latest(s.consumer)) == ConsumerCounter(n)
    && (forall v :: v in s.offer.published ==> Value(v) <= OfferCounter(n) && (Value(v) == 0 || Value(v) % 2 == 1))
    && (forall v :: v in s.consumer.published ==> Value(v) <= ConsumerCounter(n) && Value(v) % 2 == 0)
    && !s.consumer.status.ReadOnlyStatus? && s.consumer.peer != Some(0)
  }

  /** Whose turn it is: only the cluster behind can promote, and only once it has seen the
      other's latest counter. */
  lemma WhoPromotes(s: Clusters, n: nat, st: Step)
    requires Counted(s, n) && Legal(s, st) && Promotes(s, st)
    ensures st.who == if n % 2 == 0 then Offer else Consumer
    ensures n > 0 ==> Value(st.remote) == n
    ensures Counter(Of(Next(s, st), st.who)) == n + 1
  {
  }

  lemma StepCounts(s: Clusters, n: nat, st: Step)
    requires Counted(s, n) && Legal(s, st)
    ensures Counted(Next(s, st), if Promotes(s, st) then n + 1 else n)
  {
    var c := Of(s, st.who);
    AfterPublishes(c, st.who, st.action, st.remote, st.permitted);
    if Promotes(s, st) {
      WhoPromotes(s, n, st);
    }
  }

  /** A handler either leaves the counter and what was published alone, or publishes the new one. */
  lemma AfterPublishes(c: Cluster, side: Side, action: Action, remote: Option<nat>, permitted: bool)
    ensures var d := After(c, side, action, remote, permitted);
            if d.published == c.published then d.peer == c.peer
            else
              && d.peer.Some? && Latest(d) == d.peer
              && (forall v :: v in d.published <==> v in c.published || v == d.peer)
    ensures c.status.ReadOnlyStatus? || c.peer == Some(0)
              || !After(c, side, action, remote, permitted).status.ReadOnlyStatus?
  {
    var next := Some(ViewOf(remote, c.peer).highest + 1);
    assert |c.published + [next]| != |c.published|;
  }

  /** The cluster behind can always promote with the other's latest counter in view. */
  lemma SideBehindCanPromote(s: Clusters, n: nat) returns (st: Step)
    requires Counted(s, n) && n > 0
    ensures st.who == (if n % 2 == 0 then Offer else Consumer) && st.permitted
    ensures Legal(s, st) && Promotes(s, st) && Value(st.remote) == n
  {
    var who := if n % 2 == 0 then Offer else Consumer;
    var other := Of(s, Other(who));
    st := Step(who, PromoteToPrimary, Latest(other), true);
    assert other.published[|other.published| - 1] == Latest(other);
    AfterPublishes(Of(s, who), who, PromoteToPrimary, st.remote, true);
    assert |Of(Next(s, st), who).published| == |Of(s, who).published| + 1;
  }

  lemma {:induction false} RunCounts(s: Clusters, n: nat, steps: seq<Step>)
    requires Counted(s, n) && LegalRun(s, steps)
    ensures Counted(Run(s, steps), n + Promotions(s, steps))
    decreases |steps|
  {
    if steps != [] {
      StepCounts(s, n, steps[0]);
      RunCounts(Next(s, steps[0]), if Promotes(s, steps[0]) then n + 1 else n, steps[1..]);
    }
  }

  /** From a fresh relation, after n promotions seen through any stale views, the counters are
      exactly n and n - 1: the offer side is ahead after odd n, the consumer side after even n. */
  lemma CountersAfterPromotions(s: Clusters, steps: seq<Step>)
    requires Start(s) && Fresh(s.consumer) && LegalRun(s, steps)
    ensures var n, e := Promotions(s, steps), Run(s, steps);
            n >= 1 ==>
              if n % 2 == 1 then Counter(e.offer) == n && Counter(e.consumer) == n - 1
              else Counter(e.consumer) == n && Counter(e.offer) == n - 1
  {
    RunCounts(s, 0, steps);
  }

  /** Some view of the other cluster lets this one promote. */
  ghost predicate MayPromote(s: Clusters, side: Side) {
    exists st: Step :: st.who == side && Legal(s, st) && Promotes(s, st)
  }

  /** At most one cluster is ever allowed to promote. */
  lemma OnlyOneMayPromote(s: Clusters, steps: seq<Step>)
    requires Start(s) && Fresh(s.consumer) && LegalRun(s, steps)
    ensures !(MayPromote(Run(s, steps), Offer) && MayPromote(Run(s, steps), Consumer))
  {
    var e := Run(s, steps);
    RunCounts(s, 0, steps);
    forall st: Step | Legal(e, st) && Promotes(e, st)
      ensures st.who == if Promotions(s, steps) % 2 == 0 then Offer else Consumer
    {
      WhoPromotes(e, Promotions(s, steps), st);
    }
  }

  /** A positive tie is impossible exactly when the consumer side does not start read-only. */
  lemma TiesNeedReadOnlyConsumer(s: Clusters)
    requires Start(s)
    ensures (forall steps :: LegalRun(s, steps) ==> !Tied(Run(s, steps))) <==> Fresh(s.consumer)
  {
    if Fresh(s.consumer) {
      forall steps | LegalRun(s, steps) ensures !Tied(Run(s, steps)) {
        RunCounts(s, 0, steps);
      }
    } else {
      var create := Step(Offer, CreateReplication, None, true);
      var promote := Step(Consumer, PromoteToPrimary, None, true);
      var afterCreate := Next(s, create);
      assert s.offer.published[0] in afterCreate.offer.published;
      var steps := [create, promote];
      assert steps[1..] == [promote] && [promote][1..] == [];
      assert Run(afterCreate, [promote]) == Next(afterCreate, promote);
      assert LegalRun(afterCreate, [promote]);
      assert LegalRun(s, steps) && Tied(Run(s, steps));
    }
  }

  /** With both latest counters seen, the two clusters name the same primary and show it. */
  lemma LatestViewsAgree(s: Clusters, steps: seq<Step>)
    requires Start(s) && Fresh(s.consumer) && LegalRun(s, steps)
    ensures var e := Run(s, steps);
            var fromOffer := ViewOf(Latest(e.consumer), e.offer.peer);
            var fromConsumer := ViewOf(Latest(e.offer), e.consumer.peer);
            && fromOffer.highest == fromConsumer.highest == Promotions(s, steps)
            && (fromOffer.primary.None? <==> fromConsumer.primary.None?)
            && (fromOffer.primary == Some(Ours) <==> fromConsumer.primary == Some(Theirs(0)))
            && (fromConsumer.primary == Some(Ours) <==> fromOffer.primary == Some(Theirs(0)))
    ensures var e := Run(s, steps);
            var shownByOffer := StatusFor(e.offer.peer, Latest(e.consumer));
            var shownByConsumer := StatusFor(e.consumer.peer, Latest(e.offer));
            && (shownByOffer.PrimaryStatus? <==> shownByConsumer.StandbyStatus?)
            && (shownByConsumer.PrimaryStatus? <==> shownByOffer.StandbyStatus?)
  {
    RunCounts(s, 0, steps);
  }

  /** What a cluster shows, from the two counters it sees: itself as the primary exactly when its own is the greater
      one, a standby when it is not ahead of a positive one, and read-only whenever its own is "0". */
  lemma StatusMeans(peer: Option<nat>, remote: Option<nat>)
    ensures StatusFor(peer, remote).PrimaryStatus? <==> Value(peer) > Value(remote)
    ensures StatusFor(peer, remote).ReadOnlyStatus? <==> peer == Some(0)
    ensures StatusFor(peer, remote).StandbyStatus?
            <==> peer != Some(0) && Value(remote) > 0 && Value(remote) >= Value(peer)
  {
  }

  /** So, with the latest counters in view, the side that shows itself as the primary is the one with the greater
      counter, and the other one shows itself as the standby. */
  lemma GreaterCounterShowsPrimary(s: Clusters, steps: seq<Step>, side: Side)
    requires Start(s) && Fresh(s.consumer) && LegalRun(s, steps)
    ensures var e := Run(s, steps);
            var mine, theirs := Of(e, side), Of(e, Other(side));
            && (StatusFor(mine.peer, Latest(theirs)).PrimaryStatus? <==> Counter(mine) > Counter(theirs))
            && (StatusFor(mine.peer, Latest(theirs)).StandbyStatus? <==> Counter(mine) < Counter(theirs))
  {
    RunCounts(s, 0, steps);
    var e := Run(s, steps);
    StatusMeans(Of(e, side).peer, Latest(Of(e, Other(side))));
  }

  /** If both clusters name themselves, the one with the smaller counter holds a stale view. */
  lemma TwoPrimariesMeansStaleView(s: Clusters, steps: seq<Step>, seenByOffer: Option<nat>, seenByConsumer: Option<nat>)
    requires Start(s) && Fresh(s.consumer) && LegalRun(s, steps)
    requires seenByOffer in Run(s, steps).consumer.published && seenByConsumer in Run(s, steps).offer.published
    requires ViewOf(seenByOffer, Run(s, steps).offer.peer).primary == Some(Ours)
    requires ViewOf(seenByConsumer, Run(s, steps).consumer.peer).primary == Some(Ours)
    ensures var e := Run(s, steps);
            if Counter(e.offer) < Counter(e.consumer)
            then Value(seenByOffer) < Counter(e.consumer)
            else Counter(e.consumer) < Counter(e.offer) && Value(seenByConsumer) < Counter(e.offer)
  {
    RunCounts(s, 0, steps);
  }
}
