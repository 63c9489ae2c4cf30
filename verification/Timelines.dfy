/** The listing of backups by id, and the backup or timeline a point-in-time restore starts from. */
module Timelines {
  import opened Databags
  import opened Timestamps
  import opened BackupLabels
  import opened Sequences
  import opened Strings

  /** A stanza and the id of one of its timelines. */
  datatype Place = Place(stanza: string, timeline: string)

  function TrimZeros(s: string): (r: string)
    ensures r == "" || r[0] != '0'
  {
    if s != "" && s[0] == '0' then TrimZeros(s[1..]) else s
  }

  /** The timeline is the first eight digits of the first archived segment. */
  function PlaceOf(info: Info, stanza: string): Place {
    Place(stanza, TrimZeros(if |info.start| <= 8 then info.start else info.start[..8]))
  }

  /** The stanza is the repository's, and the timeline is what follows the leading zeros of the segment's first
      eight characters, so that no zero is left in front and nothing else is lost. */
  lemma PlaceHolds(info: Info, stanza: string) returns (zeros: nat)
    ensures PlaceOf(info, stanza).stanza == stanza
    ensures var timeline := PlaceOf(info, stanza).timeline;
            && (timeline == "" || timeline[0] != '0')
            && (|info.start| >= 8 ==> info.start[..8] == Zeros(zeros) + timeline)
            && (|info.start| < 8 ==> info.start == Zeros(zeros) + timeline)
  {
    zeros := TrimmedZeros(if |info.start| <= 8 then info.start else info.start[..8]);
  }

  lemma {:induction false} TrimmedZeros(s: string) returns (zeros: nat)
    ensures s == Zeros(zeros) + TrimZeros(s)
  {
    if s != "" && s[0] == '0' {
      zeros := TrimmedZeros(s[1..]);
      zeros := zeros + 1;
      assert s == "0" + s[1..];
      assert Zeros(zeros) == "0" + Zeros(zeros - 1);
    } else {
      zeros := 0;
    }
  }

  /** The listing by id; a label of unknown form is an error. */
  function Listed(infos: seq<Info>, stanza: string): Option<map<string, Place>> {
    if infos == [] then Some(map[])
    else
      var last := infos[|infos| - 1];
      match Listed(infos[..|infos| - 1], stanza)
      case None => None
      case Some(m) =>
        match ParseBackupId(last.name)
        case None => None
        case Some(id) => Some(m[id.0 := PlaceOf(last, stanza)])
  }

  /** The ids of these backups: their own start times. */
  function Ids(backups: seq<Backup>): seq<string> {
    seq(|backups|, i requires 0 <= i < |backups| => Iso(backups[i].own))
  }

  function Places(infos: seq<Info>, stanza: string): seq<Place> {
    seq(|infos|, i requires 0 <= i < |infos| => PlaceOf(infos[i], stanza))
  }

  /** The ids behind the labels, if they have one. */
  function LabelIds(infos: seq<Info>): seq<Option<string>> {
    seq(|infos|, i requires 0 <= i < |infos| => LabelId(infos[i].name))
  }

  function LabelId(name: string): Option<string> {
    match ParseBackupId(name)
    case None => None
    case Some(id) => Some(id.0)
  }

  /** The listing holds these ids and no others, each with the place of its last entry. */
  ghost predicate Indexes(m: map<string, Place>, ids: seq<Option<string>>, places: seq<Place>)
    requires |ids| == |places|
  {
    && (forall i :: 0 <= i < |ids| ==> ids[i].Some? && ids[i].value in m)
    && (forall id :: id in m ==> exists i :: LastOf(ids, i, id) && m[id] == places[i])
  }

  predicate LastOf(ids: seq<Option<string>>, i: int, id: string) {
    0 <= i < |ids| && ids[i] == Some(id) && forall j :: i < j < |ids| ==> ids[j] != Some(id)
  }

  lemma IndexesMore(m: map<string, Place>, ids: seq<Option<string>>, places: seq<Place>, id: string)
    requires |ids| == |places| > 0 && ids[|ids| - 1] == Some(id)
    requires Indexes(m, ids[..|ids| - 1], places[..|ids| - 1])
    ensures Indexes(m[id := places[|ids| - 1]], ids, places)
  {
    var n := |ids| - 1;
    var now := m[id := places[n]];
    forall k | k in now ensures exists i :: LastOf(ids, i, k) && now[k] == places[i] {
      if k == id {
        assert LastOf(ids, n, k);
      } else {
        var i :| LastOf(ids[..n], i, k) && m[k] == places[..n][i];
        assert LastOf(ids, i, k);
      }
    }
    forall i | 0 <= i < |ids| ensures ids[i].Some? && ids[i].value in now {
      if i < n {
        assert ids[..n][i] == ids[i];
      }
    }
  }

  /** The listing fails exactly when some label has an unknown form; otherwise it indexes the entries by their ids. */
  lemma {:induction false} ListedIs(infos: seq<Info>, stanza: string)
    ensures Listed(infos, stanza).None? <==> exists i :: 0 <= i < |infos| && LabelIds(infos)[i].None?
    ensures Listed(infos, stanza).Some?
            ==> Indexes(Listed(infos, stanza).value, LabelIds(infos), Places(infos, stanza))
  {
    if infos != [] {
      var n := |infos| - 1;
      var ids, places := LabelIds(infos), Places(infos, stanza);
      ListedIs(infos[..n], stanza);
      assert LabelIds(infos[..n]) == ids[..n] && Places(infos[..n], stanza) == places[..n];
      assert forall i :: 0 <= i < n ==> ids[..n][i] == ids[i];
      ListedStep(infos, stanza);
      if ids[n].Some? && Listed(infos[..n], stanza).Some? {
        IndexesMore(Listed(infos[..n], stanza).value, ids, places, ids[n].value);
      }
    }
  }

  lemma ListedStep(infos: seq<Info>, stanza: string)
    requires infos != []
    ensures var before, id := Listed(infos[..|infos| - 1], stanza), LabelIds(infos)[|infos| - 1];
            Listed(infos, stanza)
            == if before.None? || id.None? then None
               else Some(before.value[id.value := Places(infos, stanza)[|infos| - 1]])
  {
  }

  /** The map has exactly one entry per id. */
  ghost predicate Complete(m: map<string, Place>, ids: seq<string>, places: seq<Place>)
    requires |ids| == |places|
  {
    && (forall k :: k in m ==> k in ids)
    && (forall i :: 0 <= i < |ids| ==> ids[i] in m && m[ids[i]] == places[i])
  }

  /** No backup hides another one in the listing. */
  lemma ListingIsComplete(infos: seq<Info>, backups: seq<Backup>, stanza: string)
    requires Chronological(backups) && Describes(infos, backups)
    ensures Listed(infos, stanza).Some? && Complete(Listed(infos, stanza).value, Ids(backups), Places(infos, stanza))
  {
    forall i | 0 <= i < |infos| ensures LabelIds(infos)[i] == Some(Ids(backups)[i]) {
      LabelParses(backups[i]);
    }
    ListedIs(infos, stanza);
    IdsAreDistinct(backups);
    UniqueIds(Listed(infos, stanza).value, LabelIds(infos), Ids(backups), Places(infos, stanza));
  }

  lemma UniqueIds(m: map<string, Place>, found: seq<Option<string>>, ids: seq<string>, places: seq<Place>)
    requires |found| == |ids| == |places| && NoDuplicates(ids) && Indexes(m, found, places)
    requires forall i :: 0 <= i < |ids| ==> found[i] == Some(ids[i])
    ensures Complete(m, ids, places)
  {
    forall i | 0 <= i < |ids| ensures ids[i] in m && m[ids[i]] == places[i] {
      assert found[i].value in m;
      var j :| LastOf(found, j, ids[i]) && m[ids[i]] == places[j];
    }
    forall k | k in m ensures k in ids {
      var j :| LastOf(found, j, k) && m[k] == places[j];
    }
  }

  lemma IdsAreDistinct(backups: seq<Backup>)
    requires Chronological(backups)
    ensures NoDuplicates(Ids(backups))
  {
    forall i, j | 0 <= i < j < |backups| ensures Ids(backups)[i] != Ids(backups)[j] {
      ParseWritten(backups[i].own);
      ParseWritten(backups[j].own);
      EarlierTotal(backups[i].own.Values(), backups[j].own.Values());
    }
  }

  // ----- choosing where to start -----

  /** "latest", or a moment given up to microseconds. */
  datatype Target = Latest | Moment(at: DateTime, micros: nat)

  predicate AllDates(m: map<string, Place>) {
    forall k :: k in m ==> Parse(k, ISO).Some?
  }

  function When(k: string): DateTime
    requires Parse(k, ISO).Some?
  {
    Parse(k, ISO).value
  }

  predicate NotAfter(d: DateTime, e: DateTime) {
    d == e || d.Before(e)
  }

  predicate Eligible(d: DateTime, target: Target) {
    target.Latest? ||
    var mine, limit := d.Values() + [0], target.at.Values() + [target.micros];
    mine == limit || Earlier(mine, limit)
  }

  /** Backups carry whole seconds, so the fraction of the target never matters. */
  lemma FractionIsIgnored(d: DateTime, at: DateTime, micros: nat)
    ensures Eligible(d, Moment(at, micros)) <==> NotAfter(d, at)
  {
    var v, w := d.Values(), at.Values();
    EarlierExtended(v, w, 0, micros);
    assert d == at <==> v == w;
    assert (v + [0])[..6] == v && (w + [micros])[..6] == w;
  }

  lemma {:induction false} EarlierExtended(v: seq<nat>, w: seq<nat>, x: nat, y: nat)
    requires |v| == |w|
    ensures Earlier(v + [x], w + [y]) <==> Earlier(v, w) || (v == w && x < y)
  {
    if v != [] {
      EarlierExtended(v[1..], w[1..], x, y);
      assert (v + [x])[1..] == v[1..] + [x] && (w + [y])[1..] == w[1..] + [y];
      assert v == [v[0]] + v[1..] && w == [w[0]] + w[1..];
    }
  }

  /** Python's maximum over the items of a dictionary, whose keys all differ. */
  method MaxItem(items: map<string, Place>) returns (key: string)
    requires items != map[]
    ensures key in items && forall k :: k in items && k != key ==> !Less(key, k)
  {
    key :| key in items;
    var pending := items.Keys - {key};
    while pending != {}
      invariant key in items && pending <= items.Keys
      invariant forall k :: k in items && k !in pending && k != key ==> !Less(key, k)
      decreases pending
    {
      var k :| k in pending;
      if Less(key, k) {
        forall l | l in items && l !in pending && l != key && Less(k, l) ensures false {
          LessTransitive(key, k, l);
          assert false;
        }
        LessAsymmetric(key, k);
        key := k;
      }
      pending := pending - {k};
    }
  }

  lemma {:induction false} LessTransitive(a: string, b: string, c: string)
    requires Less(a, b) && Less(b, c)
    ensures Less(a, c)
  {
    if a != [] && a[0] == b[0] == c[0] {
      LessTransitive(a[1..], b[1..], c[1..]);
    }
  }

  lemma {:induction false} LessAsymmetric(a: string, b: string)
    requires Less(a, b)
    ensures !Less(b, a)
  {
    if a != [] && a[0] == b[0] {
      LessAsymmetric(a[1..], b[1..]);
    }
  }

  /** Every id in the listing is a date, whatever the backups. */
  lemma {:induction false} ListingHasDates(infos: seq<Info>, stanza: string)
    requires Listed(infos, stanza).Some?
    ensures AllDates(Listed(infos, stanza).value)
  {
    if infos != [] {
      ListingHasDates(infos[..|infos| - 1], stanza);
      IdIsDate(infos[|infos| - 1].name);
    }
  }

  lemma IdIsDate(name: string)
    requires ParseBackupId(name).Some?
    ensures Parse(ParseBackupId(name).value.0, ISO).Some?
  {
    var stamp := if name[|name| - 1] == 'F' then name else Split(name, '_')[1];
    WrittenParsed(stamp[..|stamp| - 1]);
    ParseWritten(Parse(stamp[..|stamp| - 1], COMPACT).value);
  }

  /** The chronologically last entry that is not after the target. */
  predicate IsNearest(all: map<string, Place>, target: Target, key: string)
    requires AllDates(all)
  {
    && key in all && Eligible(When(key), target)
    && forall k :: k in all && Eligible(When(k), target) ==> NotAfter(When(k), When(key))
  }

  /** The id of this backup is a date that is not after the target. */
  predicate InTime(info: Info, target: Target) {
    var id := LabelId(info.name);
    id.Some? && Parse(id.value, ISO).Some? && Eligible(When(id.value), target)
  }

  /** No timeline and no successful backup that is not after the target is later than this. */
  ghost predicate NoneIsLater(infos: seq<Info>, timelines: map<string, Place>, target: Target, d: DateTime)
    requires AllDates(timelines)
  {
    && (forall k :: k in timelines && Eligible(When(k), target) ==> NotAfter(When(k), d))
    && (forall i :: 0 <= i < |infos| && !infos[i].error && InTime(infos[i], target) ==>
          NotAfter(When(LabelId(infos[i].name).value), d))
  }

  /** This entry has no error and goes by this id. */
  predicate Behind(info: Info, id: string) {
    !info.error && LabelId(info.name) == Some(id)
  }

  /** The listing without failed backups fails exactly when a successful one has a label of unknown form. */
  lemma ShownFails(infos: seq<Info>, stanza: string)
    ensures Listed(Shown(infos, false), stanza).None?
            <==> exists i :: 0 <= i < |infos| && !infos[i].error && LabelId(infos[i].name).None?
  {
    var shown := Shown(infos, false);
    ShownHolds(infos);
    ListedIs(shown, stanza);
    assert forall i :: 0 <= i < |shown| ==> shown[i] in shown && LabelIds(shown)[i] == LabelId(shown[i].name);
    if i :| 0 <= i < |infos| && !infos[i].error && LabelId(infos[i].name).None? {
      assert infos[i] in shown;
    }
  }

  lemma ShownId(infos: seq<Info>, stanza: string, id: string) returns (i: int)
    requires Listed(Shown(infos, false), stanza).Some? && id in Listed(Shown(infos, false), stanza).value
    ensures 0 <= i < |infos| && Behind(infos[i], id)
    ensures Listed(Shown(infos, false), stanza).value[id] == PlaceOf(infos[i], stanza)
  {
    var shown := Shown(infos, false);
    var m := Listed(shown, stanza).value;
    ShownHolds(infos);
    ListedIs(shown, stanza);
    var j :| LastOf(LabelIds(shown), j, id) && m[id] == Places(shown, stanza)[j];
    assert shown[j] in shown;
    i :| 0 <= i < |infos| && infos[i] == shown[j];
  }

  lemma IdIsShown(infos: seq<Info>, stanza: string, i: nat, id: string)
    requires Listed(Shown(infos, false), stanza).Some? && i < |infos| && Behind(infos[i], id)
    ensures id in Listed(Shown(infos, false), stanza).value
  {
    var shown := Shown(infos, false);
    ShownHolds(infos);
    ListedIs(shown, stanza);
    assert infos[i] in shown;
    var j :| 0 <= j < |shown| && shown[j] == infos[i];
    assert LabelIds(shown)[j] == Some(id);
  }

  lemma NothingInTime(infos: seq<Info>, stanza: string, timelines: map<string, Place>, target: Target,
                      all: map<string, Place>)
    requires AllDates(timelines) && AllDates(all) && Listed(Shown(infos, false), stanza).Some?
    requires all == Listed(Shown(infos, false), stanza).value + timelines
    requires forall k :: k in all ==> !Eligible(When(k), target)
    ensures forall k :: k in timelines ==> !Eligible(When(k), target)
    ensures forall i :: 0 <= i < |infos| && !infos[i].error ==> !InTime(infos[i], target)
  {
    assert forall k :: k in timelines ==> k in all;
    forall i | 0 <= i < |infos| && !infos[i].error && LabelId(infos[i].name).Some?
      ensures LabelId(infos[i].name).value in all
    {
      IdIsShown(infos, stanza, i, LabelId(infos[i].name).value);
    }
  }

  lemma NearestIsSuccessful(infos: seq<Info>, stanza: string, timelines: map<string, Place>, target: Target,
                            all: map<string, Place>, key: string) returns (i: int)
    requires AllDates(timelines) && AllDates(all) && Listed(Shown(infos, false), stanza).Some?
    requires all == Listed(Shown(infos, false), stanza).value + timelines && IsNearest(all, target, key)
    ensures NoneIsLater(infos, timelines, target, When(key))
    ensures if key in timelines then all[key] == timelines[key]
            else 0 <= i < |infos| && Behind(infos[i], key) && all[key] == PlaceOf(infos[i], stanza)
  {
    forall k | k in timelines && Eligible(When(k), target) ensures NotAfter(When(k), When(key)) {
      assert k in all;
    }
    forall j | 0 <= j < |infos| && !infos[j].error && InTime(infos[j], target)
      ensures NotAfter(When(LabelId(infos[j].name).value), When(key))
    {
      IdIsShown(infos, stanza, j, LabelId(infos[j].name).value);
      assert LabelId(infos[j].name).value in all;
    }
    i := 0;
    if key !in timelines {
      i := ShownId(infos, stanza, key);
    }
  }

  datatype Nearest = BadLabel | NoMatch | StartFrom(place: Place)

  /** The chronologically last successful backup or timeline that is not after the target. */
  method NearestTimeline(infos: seq<Info>, stanza: string, timelines: map<string, Place>, target: Target)
    returns (r: Nearest)
    requires AllDates(timelines)
    ensures r.BadLabel? <==> Listed(Shown(infos, false), stanza).None?
    ensures !r.BadLabel? ==>
              var all := Listed(Shown(infos, false), stanza).value + timelines;
              && AllDates(all)
              && (r.NoMatch? <==> forall k :: k in all ==> !Eligible(When(k), target))
              && (r.StartFrom? ==> exists key :: IsNearest(all, target, key) && r.place == all[key])
    ensures r.BadLabel? <==> exists i :: 0 <= i < |infos| && !infos[i].error && LabelId(infos[i].name).None?
    ensures r.NoMatch? ==>
              && (forall k :: k in timelines ==> !Eligible(When(k), target))
              && (forall i :: 0 <= i < |infos| && !infos[i].error ==> !InTime(infos[i], target))
    ensures r.StartFrom? ==>
              || (exists k :: k in timelines && Eligible(When(k), target) && r.place == timelines[k]
                              && NoneIsLater(infos, timelines, target, When(k)))
              || (exists i :: 0 <= i < |infos| && !infos[i].error && InTime(infos[i], target)
                              && r.place == PlaceOf(infos[i], stanza)
                              && NoneIsLater(infos, timelines, target, When(LabelId(infos[i].name).value)))
  {
    var backups := Listed(Shown(infos, false), stanza);
    ShownFails(infos, stanza);
    if backups.None? {
      return BadLabel;
    }
    ListingHasDates(Shown(infos, false), stanza);
    var all := backups.value + timelines;
    var eligible := map k | k in all && Eligible(When(k), target) :: all[k];
    if eligible == map[] {
      forall k | k in all ensures !Eligible(When(k), target) {
        assert k !in eligible;
      }
      NothingInTime(infos, stanza, timelines, target, all);
      return NoMatch;
    }
    var key := MaxItem(eligible);
    forall l | l in all && Eligible(When(l), target) ensures NotAfter(When(l), When(key)) {
      assert l in eligible;
      KeyOrder(key, l);
    }
    assert IsNearest(all, target, key);
    ghost var i := NearestIsSuccessful(infos, stanza, timelines, target, all, key);
    r := StartFrom(all[key]);
  }

  function Starts(backups: seq<Backup>): seq<DateTime> {
    seq(|backups|, i requires 0 <= i < |backups| => backups[i].own)
  }

  predicate NoneLater(dates: seq<DateTime>, target: Target, d: DateTime) {
    forall i :: 0 <= i < |dates| && Eligible(dates[i], target) ==> NotAfter(dates[i], d)
  }

  predicate LastEligible(dates: seq<DateTime>, i: int, target: Target) {
    0 <= i < |dates| && Eligible(dates[i], target) && forall j :: i < j < |dates| ==> !Eligible(dates[j], target)
  }

  lemma LaterIsNotEligible(d: DateTime, e: DateTime, target: Target)
    requires d.Before(e) && (Eligible(e, target) ==> NotAfter(e, d))
    ensures !Eligible(e, target)
  {
    EarlierTotal(d.Values(), e.Values());
  }

  /** In terms of the backups themselves: a restore starts from a timeline that no eligible backup is later
      than, or from the last eligible backup, which no eligible timeline is later than. */
  lemma NearestIsLast(infos: seq<Info>, backups: seq<Backup>, stanza: string, timelines: map<string, Place>,
                      target: Target,
                      all: map<string, Place>, key: string) returns (i: int)
    requires Chronological(backups) && Describes(infos, backups) && AllDates(timelines) && AllDates(all)
    requires Listed(infos, stanza).Some? && all == Listed(infos, stanza).value + timelines
              && IsNearest(all, target, key)
    ensures if key in timelines then all[key] == timelines[key] && NoneLater(Starts(backups), target, When(key))
            else && LastEligible(Starts(backups), i, target) && all[key] == PlaceOf(infos[i], stanza)
                 && forall k :: k in timelines && Eligible(When(k), target) ==> NotAfter(When(k), backups[i].own)
  {
    ListingIsComplete(infos, backups, stanza);
    IdsLeadBack(backups, all);
    if key in timelines {
      i := 0;
      NoBackupIsLater(backups, all, target, key);
    } else {
      i :| 0 <= i < |backups| && key == Ids(backups)[i];
      NoLaterBackup(backups, all, target, key, i);
      assert all[key] == Places(infos, stanza)[i];
      assert forall k :: k in timelines ==> k in all;
    }
  }

  /** Every id is in the map and reads back as the start it was made from. */
  predicate Indexed(backups: seq<Backup>, all: map<string, Place>)
    requires AllDates(all)
  {
    forall j :: 0 <= j < |backups| ==> Ids(backups)[j] in all && When(Ids(backups)[j]) == backups[j].own
  }

  lemma IdsLeadBack(backups: seq<Backup>, all: map<string, Place>)
    requires Chronological(backups) && AllDates(all) && forall j :: 0 <= j < |backups| ==> Ids(backups)[j] in all
    ensures Indexed(backups, all)
  {
    forall j | 0 <= j < |backups| ensures When(Ids(backups)[j]) == backups[j].own {
      ParseWritten(backups[j].own);
    }
  }

  lemma NoLaterBackup(backups: seq<Backup>, all: map<string, Place>, target: Target, key: string, i: int)
    requires Chronological(backups) && AllDates(all) && IsNearest(all, target, key) && Indexed(backups, all)
    requires 0 <= i < |backups| && key == Ids(backups)[i]
    ensures LastEligible(Starts(backups), i, target) && When(key) == backups[i].own
  {
    forall j | i < j < |backups| ensures !Eligible(backups[j].own, target) {
      assert Ids(backups)[j] in all;
      LaterIsNotEligible(backups[i].own, backups[j].own, target);
    }
  }

  lemma NoBackupIsLater(backups: seq<Backup>, all: map<string, Place>, target: Target, key: string)
    requires AllDates(all) && IsNearest(all, target, key) && Indexed(backups, all)
    ensures NoneLater(Starts(backups), target, When(key))
  {
    forall j | 0 <= j < |backups| && Eligible(backups[j].own, target) ensures NotAfter(backups[j].own, When(key)) {
      assert Ids(backups)[j] in all;
    }
  }

  /** Among date keys, a key that is not smaller than another one is not earlier. */
  lemma KeyOrder(key: string, other: string)
    requires Parse(key, ISO).Some? && Parse(other, ISO).Some?
    requires key == other || !Less(key, other)
    ensures NotAfter(When(other), When(key))
  {
    WrittenParsed(key);
    WrittenParsed(other);
    StringOrderIsTimeOrder(When(key), When(other));
    EarlierTotal(When(key).Values(), When(other).Values());
  }
}
