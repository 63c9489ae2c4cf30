/** The two scans over the promoted-cluster counters a unit can see. */
module CounterScan {
  import opened Databags

  datatype App = Ours | Theirs(id: nat)

  /** The remote application of an async-replication relation and its counter field. */
  datatype AsyncRelation = AsyncRelation(id: nat, counter: Option<nat>)

  /** One databag visited by a scan: whose it is and the counter it holds. */
  datatype Entry = Entry(app: App, counter: nat)

  /** What a unit concludes from one look at the counters. */
  datatype View = View(highest: nat, primary: Option<App>)

  /** A missing counter field reads as "0". */
  function Value(field: Option<nat>): nat {
    match field
    case None => 0
    case Some(n) => n
  }

  function TheirEntry(relation: AsyncRelation): Entry {
    Entry(Theirs(relation.id), Value(relation.counter))
  }

  function OurEntry(own: Option<nat>): Entry {
    Entry(Ours, Value(own))
  }

  /** The databags in the order in which both scans visit them. */
  function Entries(relations: seq<Option<AsyncRelation>>, own: Option<nat>): seq<Entry> {
    if relations == [] then []
    else
      var last := relations[|relations| - 1];
      var before := Entries(relations[..|relations| - 1], own);
      if last.None? then before else (before + [TheirEntry(last.value)]) + [OurEntry(own)]
  }

  /** One more databag: strictly greater counters take over. */
  function Raise(v: View, e: Entry): View {
    if e.counter > v.highest then View(e.counter, Some(e.app)) else v
  }

  /** Both running values after the given databags. */
  function Scan(entries: seq<Entry>): View {
    if entries == [] then View(0, None)
    else Raise(Scan(entries[..|entries| - 1]), entries[|entries| - 1])
  }

  /** Entry i holds the greatest counter and no earlier entry does. */
  predicate FirstGreatest(entries: seq<Entry>, i: int) {
    && 0 <= i < |entries|
    && (forall j :: 0 <= j < |entries| ==> entries[j].counter <= entries[i].counter)
    && (forall j :: 0 <= j < i ==> entries[j].counter < entries[i].counter)
  }

  /** The scan ends with the greatest visible counter, and names the owner of the first databag
      that holds it; it names nobody exactly when no positive counter is visible. */
  lemma {:induction false} ScanFindsGreatest(entries: seq<Entry>)
    ensures forall i :: 0 <= i < |entries| ==> entries[i].counter <= Scan(entries).highest
    ensures Scan(entries).primary.None? <==> Scan(entries).highest == 0
    ensures Scan(entries).primary.Some? ==>
              exists i :: FirstGreatest(entries, i)
                          && entries[i] == Entry(Scan(entries).primary.value, Scan(entries).highest)
  {
    if entries != [] {
      var before, last := entries[..|entries| - 1], entries[|entries| - 1];
      ScanFindsGreatest(before);
      assert forall i :: 0 <= i < |before| ==> entries[i] == before[i];
      if last.counter > Scan(before).highest {
        assert FirstGreatest(entries, |before|);
      } else if Scan(before).primary.Some? {
        var i :| FirstGreatest(before, i) && before[i] == Entry(Scan(before).primary.value, Scan(before).highest);
        assert FirstGreatest(entries, i);
      }
    }
  }

  lemma ScanStep(entries: seq<Entry>, e: Entry)
    ensures Scan(entries + [e]) == Raise(Scan(entries), e)
  {
    assert (entries + [e])[..|entries|] == entries;
  }

  lemma NextRelation(relations: seq<Option<AsyncRelation>>, own: Option<nat>, i: nat)
    requires i < |relations|
    ensures relations[i].None? ==> Entries(relations[..i + 1], own) == Entries(relations[..i], own)
    ensures relations[i].Some? ==>
              Entries(relations[..i + 1], own)
              == (Entries(relations[..i], own) + [TheirEntry(relations[i].value)]) + [OurEntry(own)]
  {
    assert relations[..i + 1][..i] == relations[..i];
  }

  /** The greatest counter in the app databags of every relation and of this cluster. */
  method HighestCounter(relations: seq<Option<AsyncRelation>>, own: Option<nat>) returns (highest: nat)
    ensures highest == Scan(Entries(relations, own)).highest
  {
    highest := 0;
    ghost var seen: seq<Entry> := [];
    for i := 0 to |relations|
      invariant seen == Entries(relations[..i], own)
      invariant highest == Scan(seen).highest
    {
      NextRelation(relations, own, i);
      if relations[i].Some? {
        var databags := [TheirEntry(relations[i].value), OurEntry(own)];
        ghost var before := seen;
        for j := 0 to 2
          invariant seen == if j == 0 then before
                            else if j == 1 then before + [databags[0]]
                            else (before + [databags[0]]) + [databags[1]]
          invariant highest == Scan(seen).highest
        {
          ScanStep(seen, databags[j]);
          seen := seen + [databags[j]];
          if databags[j].counter > highest {
            highest := databags[j].counter;
          }
        }
      }
    }
    assert relations[..|relations|] == relations;
  }

  /** The application that the visible counters name as the primary cluster. */
  method PrimaryCluster(relations: seq<Option<AsyncRelation>>, own: Option<nat>) returns (primary: Option<App>)
    ensures primary == Scan(Entries(relations, own)).primary
  {
    var highest := 0;
    primary := None;
    ghost var seen: seq<Entry> := [];
    for i := 0 to |relations|
      invariant seen == Entries(relations[..i], own)
      invariant View(highest, primary) == Scan(seen)
    {
      NextRelation(relations, own, i);
      if relations[i].Some? {
        var databags := [TheirEntry(relations[i].value), OurEntry(own)];
        ghost var before := seen;
        for j := 0 to 2
          invariant seen == if j == 0 then before
                            else if j == 1 then before + [databags[0]]
                            else (before + [databags[0]]) + [databags[1]]
          invariant View(highest, primary) == Scan(seen)
        {
          ScanStep(seen, databags[j]);
          seen := seen + [databags[j]];
          if databags[j].counter > highest {
            highest := databags[j].counter;
            primary := Some(databags[j].app);
          }
        }
      }
    }
    assert relations[..|relations|] == relations;
  }

  /** The relation list of a cluster that has exactly one async-replication relation. */
  function OneRelation(remote: Option<nat>): seq<Option<AsyncRelation>> {
    [Some(AsyncRelation(0, remote))]
  }

  /** What one relation shows: the greater counter wins, and the remote cluster wins a positive tie. */
  function ViewOf(remote: Option<nat>, own: Option<nat>): View {
    var r, o := Value(remote), Value(own);
    if r == 0 && o == 0 then View(0, None)
    else if o > r then View(o, Some(Ours))
    else View(r, Some(Theirs(0)))
  }

  lemma ScanOne(relations: seq<Option<AsyncRelation>>, own: Option<nat>)
    requires |relations| == 1 && relations[0].Some?
    ensures Scan(Entries(relations, own)) == Raise(Raise(View(0, None), TheirEntry(relations[0].value)), OurEntry(own))
  {
    NextRelation(relations, own, 0);
    assert relations[..1] == relations && relations[..0] == [];
    var none := Entries(relations[..0], own);
    ScanStep(none, TheirEntry(relations[0].value));
    ScanStep(none + [TheirEntry(relations[0].value)], OurEntry(own));
  }

  /** Both scans come to exactly that conclusion. */
  lemma ScanIsViewOf(remote: Option<nat>, own: Option<nat>)
    ensures Scan(Entries(OneRelation(remote), own)) == ViewOf(remote, own)
  {
    ScanOne(OneRelation(remote), own);
  }

  method VisiblePrimary(remote: Option<nat>, own: Option<nat>) returns (primary: Option<App>)
    ensures primary == ViewOf(remote, own).primary
  {
    ScanIsViewOf(remote, own);
    primary := PrimaryCluster(OneRelation(remote), own);
  }

  method VisibleHighest(remote: Option<nat>, own: Option<nat>) returns (highest: nat)
    ensures highest == ViewOf(remote, own).highest
  {
    ScanIsViewOf(remote, own);
    highest := HighestCounter(OneRelation(remote), own);
  }
}
