/** A reachable round whose barrier opens on a "stopped" mark of an earlier round. */
module DemotionCarryOver {
  import opened Databags
  import opened CounterScan
  import opened Demotion
  import opened DemotionLife
  import DemotionRound
  import P = PromotionCounters

  type Published = p: seq<Option<nat>> | p != [] witness [None]

  const FRESH_UNIT := Unit(false, None, true, Previous, 0, [])
  const STOPPED_AT_2 := Unit(true, None, false, Wiped, 2, [2])

  /** The leader after it promoted its cluster with counter k. */
  function Led(k: nat): Unit {
    Unit(false, if k == 0 then None else Some(k), true, Previous, k, [])
  }

  function Last(p: Published): nat {
    Value(p[|p| - 1])
  }

  function Side(p: Published): P.Cluster {
    P.Cluster(p[|p| - 1], p, P.ActiveStatus)
  }

  /** The offer side has two units, led by unit 0. */
  function TwoUnits(offer: Published, consumer: Published, one: Unit): Life {
    Life(P.Clusters(Side(offer), Side(consumer)), Cluster(map[0 := Led(Last(offer)), 1 := one], 0, true))
  }

  /** One more promotion by the side that is behind; the leader of the offer side handles its own at once. */
  lemma OfferPromotes(s: Life, before: seq<Event>, offer: Published, consumer: Published, one: Unit, action: P.Action)
    returns (events: seq<Event>)
    requires Reaches(P.Offer, s, before, TwoUnits(offer, consumer, one))
    requires if action.CreateReplication? then Last(offer) == Last(consumer) == 0
             else action.PromoteToPrimary? && Last(offer) < Last(consumer)
    ensures Reaches(P.Offer, s, events, TwoUnits(offer + [Some(Last(consumer) + 1)], consumer, one))
  {
    var remote := consumer[|consumer| - 1];
    var ev := ClusterStep(P.Step(P.Offer, action, remote, true), DemotionRound.ALL_GOES_WELL);
    OfferSteps(offer, consumer, one, action, ev);
    ReachesNext(P.Offer, s, before, TwoUnits(offer, consumer, one), ev);
    events := before + [ev];
  }

  lemma OfferSteps(offer: Published, consumer: Published, one: Unit, action: P.Action, ev: Event)
    requires if action.CreateReplication? then Last(offer) == Last(consumer) == 0
             else action.PromoteToPrimary? && Last(offer) < Last(consumer)
    requires ev == ClusterStep(P.Step(P.Offer, action, consumer[|consumer| - 1], true), DemotionRound.ALL_GOES_WELL)
    ensures Legal(P.Offer, TwoUnits(offer, consumer, one), ev)
    ensures Next(P.Offer, TwoUnits(offer, consumer, one), ev)
              == TwoUnits(offer + [Some(Last(consumer) + 1)], consumer, one)
  {
    var now := TwoUnits(offer, consumer, one);
    var next := offer + [Some(Last(consumer) + 1)];
    assert now.cluster.units[0] == Led(Last(offer));
    assert next != offer && Last(next) == Last(consumer) + 1;
    PromotedBy(now.cluster, Last(next), one);
  }

  lemma PromotedBy(c: Cluster, h: nat, one: Unit)
    requires c.leader == 0 && c.initialised && h > 0 && c.units.Keys == {0, 1} && c.units[1] == one
    requires exists k :: c.units[0] == Led(k)
    ensures Handled(c, 0, View(h, Some(Ours)), DemotionRound.ALL_GOES_WELL)
              == Cluster(map[0 := Led(h), 1 := one], 0, true)
  {
  }

  lemma ConsumerPromotes(s: Life, before: seq<Event>, offer: Published, consumer: Published, one: Unit)
    returns (events: seq<Event>)
    requires Reaches(P.Offer, s, before, TwoUnits(offer, consumer, one)) && Last(consumer) < Last(offer)
    ensures Reaches(P.Offer, s, events, TwoUnits(offer, consumer + [Some(Last(offer) + 1)], one))
  {
    var remote := offer[|offer| - 1];
    var ev := ClusterStep(P.Step(P.Consumer, P.PromoteToPrimary, remote, true), DemotionRound.ALL_GOES_WELL);
    assert consumer + [Some(Last(offer) + 1)] != consumer;
    ReachesNext(P.Offer, s, before, TwoUnits(offer, consumer, one), ev);
    events := before + [ev];
  }

  /** Demoted at 2, unit 1 stops and waits at the barrier for the leader. */
  lemma StopsAndWaits(c: Cluster, v: View)
    requires c == Cluster(map[0 := Led(1), 1 := FRESH_UNIT], 0, true) && v == View(2, Some(Theirs(0)))
    ensures Handled(c, 1, v, DemotionRound.ALL_GOES_WELL) == Cluster(map[0 := Led(1), 1 := STOPPED_AT_2], 0, true)
  {
    assert c.units[0] == Led(1) && c.units[1] == FRESH_UNIT && [] + [2] == [2];
    var stopped := Stopped(Looked(c, 1, 2), 1, 2, DemotionRound.ALL_GOES_WELL).0;
    assert stopped.units == map[0 := Led(1), 1 := STOPPED_AT_2];
    assert 0 in stopped.units && stopped.units[0] == Led(1) && !Following(Led(1), 2);
  }

  /** The other unit runs its hook before the leader does. */
  lemma UnitOneStops(s: Life, before: seq<Event>, offer: Published, consumer: Published) returns (events: seq<Event>)
    requires Reaches(P.Offer, s, before, TwoUnits(offer, consumer, FRESH_UNIT))
    requires Last(offer) == 1 && Last(consumer) == 2
    ensures Reaches(P.Offer, s, events, TwoUnits(offer, consumer, STOPPED_AT_2))
  {
    var remote := consumer[|consumer| - 1];
    var ev := UnitHook(1, remote, DemotionRound.ALL_GOES_WELL);
    StopsAndWaits(TwoUnits(offer, consumer, FRESH_UNIT).cluster, View(2, Some(Theirs(0))));
    ReachesNext(P.Offer, s, before, TwoUnits(offer, consumer, FRESH_UNIT), ev);
    events := before + [ev];
  }

  lemma NoEvents(s: Life) returns (events: seq<Event>)
    ensures Reaches(P.Offer, s, events, s)
  {
    events := [];
  }

  lemma TwoUnitsStart(none: Published)
    requires none == [None]
    ensures Start(TwoUnits(none, none, FRESH_UNIT))
  {
    var c := TwoUnits(none, none, FRESH_UNIT).cluster;
    assert c.units[0] == FRESH_UNIT && c.units[1] == FRESH_UNIT;
  }

  lemma FirstPromotions(s: Life, none: Published, o1: Published, c2: Published) returns (events: seq<Event>)
    requires Last(none) == 0 && o1 == none + [Some(1)] && c2 == none + [Some(2)]
              && s == TwoUnits(none, none, FRESH_UNIT)
    ensures Reaches(P.Offer, s, events, TwoUnits(o1, c2, FRESH_UNIT))
  {
    events := NoEvents(s);
    events := OfferPromotes(s, events, none, none, FRESH_UNIT, P.CreateReplication);
    events := ConsumerPromotes(s, events, o1, none, FRESH_UNIT);
  }

  /** Unit 1 is demoted at 2 and stops; its leader promotes the cluster again before running the demotion
      hook itself. The mark stays behind while the cluster is the primary. */
  lemma MarkStaysBehind(s: Life, none: Published, o1: Published, o3: Published, c2: Published)
    returns (events: seq<Event>)
    requires Last(none) == 0 && s == TwoUnits(none, none, FRESH_UNIT)
    requires o1 == none + [Some(1)] && o3 == o1 + [Some(3)] && c2 == none + [Some(2)]
    ensures Reaches(P.Offer, s, events, TwoUnits(o3, c2, STOPPED_AT_2))
  {
    events := FirstPromotions(s, none, o1, c2);
    events := UnitOneStops(s, events, o1, c2);
    events := OfferPromotes(s, events, o1, c2, STOPPED_AT_2, P.PromoteToPrimary);
  }

  lemma MarkCarriedOver(s: Life, none: Published, o1: Published, o3: Published, c2: Published, c4: Published)
    returns (events: seq<Event>)
    requires Last(none) == 0 && s == TwoUnits(none, none, FRESH_UNIT)
    requires o1 == none + [Some(1)] && o3 == o1 + [Some(3)] && c2 == none + [Some(2)] && c4 == c2 + [Some(4)]
    ensures Reaches(P.Offer, s, events, TwoUnits(o3, c4, STOPPED_AT_2))
  {
    events := MarkStaysBehind(s, none, o1, o3, c2);
    events := ConsumerPromotes(s, events, o3, c2, STOPPED_AT_2);
  }

  lemma CarriedOverRound(c: Cluster)
    requires c == Cluster(map[0 := Led(3), 1 := STOPPED_AT_2], 0, true)
    ensures DemotionRound.RoundStart(c, 4)
    ensures exists visits :: DemotionRound.Members(c, visits) && !DemotionRound.StartsAfterWipes(c, 4, visits)
  {
    assert 1 in c.units && c.units[1] == STOPPED_AT_2;
    DemotionRound.BarrierHoldsIffNoCarryOver(c, 4);
  }

  /** The next demotion, at 4, finds the old mark: a reachable round in which a start precedes a wipe. */
  lemma CarryOverHappens(none: Published, o1: Published, o3: Published, c2: Published, c4: Published)
    returns (s: Life, events: seq<Event>, end: Life)
    requires none == [None] && o1 == none + [Some(1)] && o3 == o1 + [Some(3)] && c2 == none + [Some(2)]
              && c4 == c2 + [Some(4)]
    ensures Start(s) && Reaches(P.Offer, s, events, end)
    ensures ViewOf(P.Latest(end.pair.consumer), end.pair.offer.peer) == View(4, Some(Theirs(0)))
    ensures DemotionRound.RoundStart(end.cluster, 4)
    ensures exists visits :: DemotionRound.Members(end.cluster, visits)
                             && !DemotionRound.StartsAfterWipes(end.cluster, 4, visits)
  {
    s, end := TwoUnits(none, none, FRESH_UNIT), TwoUnits(o3, c4, STOPPED_AT_2);
    TwoUnitsStart(none);
    events := MarkCarriedOver(s, none, o1, o3, c2, c4);
    CarriedOverRound(end.cluster);
  }
}
