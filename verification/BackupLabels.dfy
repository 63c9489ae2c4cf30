/** pgBackRest labels, the ids shown for them, and finding a label by its id. */
module BackupLabels {
  import opened Databags
  import opened Strings
  import opened Timestamps

  datatype Kind = FullKind | DifferentialKind | IncrementalKind

  /** A full backup, or one that depends on the full backup started at `base`. */
  datatype Backup = Full(own: DateTime) | Dependent(own: DateTime, base: DateTime, incremental: bool) {
    predicate Valid() {
      own.Valid() && (Dependent? ==> base.Valid() && base.Before(own))
    }

    function Kind(): Kind {
      if Full? then FullKind else if incremental then IncrementalKind else DifferentialKind
    }
  }

  function Label(b: Backup): string {
    match b
    case Full(own) => Compact(own) + "F"
    case Dependent(own, base, incremental) =>
      Compact(base) + "F" + "_" + (Compact(own) + if incremental then "I" else "D")
  }

  /** One entry of the repository listing. */
  datatype Info = Info(name: string, start: string, error: bool)

  function Shown(infos: seq<Info>, showFailed: bool): seq<Info> {
    if infos == [] then []
    else if showFailed || !infos[0].error then [infos[0]] + Shown(infos[1..], showFailed)
    else Shown(infos[1..], showFailed)
  }

  /** These positions, in increasing order, are exactly those of the entries without an error. */
  ghost predicate Successes(infos: seq<Info>, at: seq<nat>) {
    && (forall i, j :: 0 <= i < j < |at| ==> at[i] < at[j])
    && (forall p :: p in at <==> 0 <= p < |infos| && !infos[p].error)
  }

  /** A listing with the failed backups is the whole list. One without them holds exactly the entries that have no
      error, and so is the whole list when none has one. */
  lemma {:induction false} ShownHolds(infos: seq<Info>)
    ensures Shown(infos, true) == infos
    ensures forall x :: x in Shown(infos, false) <==> x in infos && !x.error
    ensures (forall i :: 0 <= i < |infos| ==> !infos[i].error) ==> Shown(infos, false) == infos
  {
    if infos != [] {
      assert infos == [infos[0]] + infos[1..];
      ShownHolds(infos[1..]);
    }
  }

  /** It holds each of them once, in the old order. */
  lemma {:induction false} ShownKeepsOrder(infos: seq<Info>) returns (at: seq<nat>)
    ensures Successes(infos, at) && |Shown(infos, false)| == |at|
    ensures forall i :: 0 <= i < |at| ==> at[i] < |infos| && Shown(infos, false)[i] == infos[at[i]]
  {
    if infos == [] {
      at := [];
    } else {
      var rest := ShownKeepsOrder(infos[1..]);
      var moved := Shifted(infos, rest);
      at := if infos[0].error then moved else [0] + moved;
      SuccessesAgain(infos, moved, at);
      OneMoreShown(infos, Shown(infos[1..], false), moved, at);
    }
  }

  lemma OneMoreShown(infos: seq<Info>, shown: seq<Info>, moved: seq<nat>, at: seq<nat>)
    requires infos != [] && at == if infos[0].error then moved else [0] + moved
    requires |moved| == |shown| && forall i :: 0 <= i < |moved| ==> moved[i] < |infos| && shown[i] == infos[moved[i]]
    ensures var now := if infos[0].error then shown else [infos[0]] + shown;
            |at| == |now| && forall i :: 0 <= i < |at| ==> at[i] < |infos| && now[i] == infos[at[i]]
  {
  }

  lemma Shifted(infos: seq<Info>, rest: seq<nat>) returns (moved: seq<nat>)
    requires infos != [] && Successes(infos[1..], rest)
    ensures |moved| == |rest|
    ensures forall i :: 0 <= i < |rest| ==> moved[i] == rest[i] + 1 < |infos| && infos[moved[i]] == infos[1..][rest[i]]
    ensures forall p :: p in moved <==> 1 <= p < |infos| && !infos[p].error
  {
    moved := seq(|rest|, i requires 0 <= i < |rest| => rest[i] + 1);
    forall i | 0 <= i < |rest| ensures moved[i] < |infos| {
      assert rest[i] in rest;
    }
    forall p | 1 <= p < |infos| && !infos[p].error ensures p in moved {
      assert p - 1 in rest;
      var i :| 0 <= i < |rest| && rest[i] == p - 1;
      assert moved[i] == p;
    }
    forall p | p in moved ensures 1 <= p < |infos| && !infos[p].error {
      var i :| 0 <= i < |moved| && moved[i] == p;
      assert rest[i] in rest;
    }
  }

  lemma SuccessesAgain(infos: seq<Info>, moved: seq<nat>, at: seq<nat>)
    requires infos != [] && at == if infos[0].error then moved else [0] + moved
    requires forall i, j :: 0 <= i < j < |moved| ==> moved[i] < moved[j]
    requires forall p :: p in moved <==> 1 <= p < |infos| && !infos[p].error
    ensures Successes(infos, at)
  {
    assert forall i :: 0 <= i < |moved| ==> moved[i] in moved;
    if !infos[0].error {
      assert forall p :: p in at <==> p == 0 || p in moved;
    }
  }

  // ----- from label to id -----

  /** The id and kind behind a label, unless the label has some other form. */
  function ParseBackupId(name: string): Option<(string, Kind)> {
    if name == "" then None
    else
      var last := name[|name| - 1];
      if last == 'F' then ParseStamp(name, FullKind)
      else
        var parts := Split(name, '_');
        if last !in {'D', 'I'} || |parts| < 2 then None
        else ParseStamp(parts[1], if last == 'D' then DifferentialKind else IncrementalKind)
  }

  function ParseStamp(stamp: string, kind: Kind): Option<(string, Kind)> {
    if stamp == "" then None
    else
      match Parse(stamp[..|stamp| - 1], COMPACT)
      case None => None
      case Some(d) => Some((Iso(d), kind))
  }

  function Zeros(n: nat): (s: string)
    ensures |s| == n && forall i :: 0 <= i < n ==> s[i] == '0'
  {
    if n == 0 then "" else "0" + Zeros(n - 1)
  }

  /** The text a layout gives, with a zero in the place of every digit. */
  function Mask(layout: seq<Part>): string {
    if layout == [] then "" else Zeros(layout[0].width) + layout[0].sep + Mask(layout[1..])
  }

  predicate Matches(s: string, mask: string) {
    |s| == |mask| && forall i :: 0 <= i < |s| ==> if mask[i] == '0' then '0' <= s[i] <= '9' else s[i] == mask[i]
  }

  lemma {:induction false} FormatMatches(v: seq<nat>, layout: seq<Part>)
    requires Fits(v, layout)
    ensures Matches(Format(v, layout), Mask(layout))
  {
    if layout != [] {
      NumberOfPad(v[0], layout[0].width);
      FormatMatches(v[1..], layout[1..]);
    }
  }

  /** The shape of a compact timestamp: digits around a single dash. */
  lemma CompactShape(d: DateTime)
    requires d.Valid()
    ensures |Compact(d)| == 15 && Compact(d)[8] == '-'
    ensures forall i :: 0 <= i < 15 && i != 8 ==> '0' <= Compact(d)[i] <= '9'
  {
    ValidFits(d);
    FormatMatches(d.Values(), COMPACT);
    assert Zeros(4) == "0000" && Zeros(2) == "00";
    assert Mask(COMPACT) == "00000000-000000";
  }

  lemma StampParses(d: DateTime, letter: char, kind: Kind)
    requires d.Valid()
    ensures ParseStamp(Compact(d) + [letter], kind) == Some((Iso(d), kind))
  {
    ParseWritten(d);
    CompactShape(d);
    assert (Compact(d) + [letter])[..15] == Compact(d);
  }

  /** A dependent label is its base's label and its own stamp around an underscore. */
  lemma LabelSplits(own: DateTime, base: DateTime, letter: char)
    requires own.Valid() && base.Valid() && letter != '_'
    ensures Split(Compact(base) + "F" + "_" + (Compact(own) + [letter]), '_')
            == [Compact(base) + "F", Compact(own) + [letter]]
  {
    CompactShape(own);
    CompactShape(base);
    var first, stamp := Compact(base) + "F", Compact(own) + [letter];
    assert '_' !in stamp && '_' !in first;
    SplitAt(first, stamp, '_');
    SplitWhole(first, '_');
    SplitWhole(stamp, '_');
  }

  /** The id of a label is its own timestamp, even when the label also holds the one of its base. */
  lemma LabelParses(b: Backup)
    requires b.Valid()
    ensures ParseBackupId(Label(b)) == Some((Iso(b.own), b.Kind()))
  {
    match b
    case Full(own) =>
      StampParses(own, 'F', FullKind);
    case Dependent(own, base, incremental) =>
      var letter := if incremental then 'I' else 'D';
      StampParses(own, letter, b.Kind());
      LabelSplits(own, base, letter);
      assert [letter] == if incremental then "I" else "D";
      assert Label(b)[|Label(b)| - 1] == letter;
  }

  // ----- from id back to label -----

  predicate At(s: string, t: string, i: nat) {
    i + |t| <= |s| && s[i..i + |t|] == t
  }

  predicate Contains(s: string, t: string) {
    exists i :: 0 <= i <= |s| && At(s, t, i)
  }

  /** A compact timestamp can only sit where a label has one. */
  lemma ContainsMeans(b: Backup, d: DateTime)
    requires b.Valid() && d.Valid()
    ensures Contains(Label(b), Compact(d)) <==> d == b.own || (b.Dependent? && d == b.base)
  {
    var s, t := Label(b), Compact(d);
    CompactShape(d);
    CompactShape(b.own);
    CompactInjective(d, b.own);
    match b
    case Full(own) =>
      assert s[0..15] == Compact(own);
      assert At(s, Compact(own), 0);
      forall i | 0 <= i <= |s| && At(s, t, i) ensures d == own {
        assert s[i + 8] == s[i..i + 15][8];
        assert i == 0;
      }
    case Dependent(own, base, incremental) =>
      CompactShape(base);
      CompactInjective(d, base);
      assert s[0..15] == Compact(base) && s[17..32] == Compact(own);
      assert At(s, Compact(base), 0) && At(s, Compact(own), 17);
      forall i | 0 <= i <= |s| && At(s, t, i) ensures d == own || d == base {
        assert s[i + 8] == s[i..i + 15][8];
        assert i == 0 || i == 17;
      }
  }

  lemma CompactInjective(d: DateTime, e: DateTime)
    requires d.Valid() && e.Valid()
    ensures Compact(d) == Compact(e) <==> d == e
  {
    ParseWritten(d);
    ParseWritten(e);
  }

  function FirstContaining(labels: seq<string>, stamp: string): Option<string> {
    if labels == [] then None
    else if Contains(labels[0], stamp) then Some(labels[0])
    else FirstContaining(labels[1..], stamp)
  }

  function Labels(infos: seq<Info>): seq<string> {
    seq(|infos|, i requires 0 <= i < |infos| => infos[i].name)
  }

  datatype Fetched = BadId | Missing | Found(name: string)

  /** No successful backup before position n has a label with this timestamp. */
  predicate NoneBefore(infos: seq<Info>, n: nat, stamp: string)
    requires n <= |infos|
  {
    forall i :: 0 <= i < n && !infos[i].error ==> !Contains(infos[i].name, stamp)
  }

  lemma {:induction false} FirstShown(infos: seq<Info>, stamp: string)
    ensures match FirstContaining(Labels(Shown(infos, false)), stamp)
            case None => NoneBefore(infos, |infos|, stamp)
            case Some(name) =>
              Contains(name, stamp)
              && exists i :: 0 <= i < |infos| && !infos[i].error && infos[i].name == name && NoneBefore(infos, i, stamp)
  {
    if infos != [] {
      var rest := infos[1..];
      FirstShown(rest, stamp);
      var labels := Labels(Shown(infos, false));
      if !infos[0].error {
        assert labels[0] == infos[0].name && labels[1..] == Labels(Shown(rest, false));
      }
      if !infos[0].error && Contains(infos[0].name, stamp) {
        assert NoneBefore(infos, 0, stamp);
      } else {
        assert FirstContaining(labels, stamp) == FirstContaining(Labels(Shown(rest, false)), stamp);
        assert forall i :: 0 < i < |infos| ==> infos[i] == rest[i - 1];
        if i :| FirstContaining(labels, stamp).Some? && 0 <= i < |rest| && !rest[i].error
                && rest[i].name == FirstContaining(labels, stamp).value && NoneBefore(rest, i, stamp) {
          assert infos[i + 1] == rest[i] && NoneBefore(infos, i + 1, stamp);
        }
      }
    }
  }

  /** Searches the successful backups for the first label that contains the id's timestamp. */
  method FetchBackupFromId(infos: seq<Info>, backupId: string) returns (r: Fetched)
    ensures r == match Parse(backupId, ISO)
                 case None => BadId
                 case Some(d) =>
                   match FirstContaining(Labels(Shown(infos, false)), Compact(d))
                   case None => Missing
                   case Some(name) => Found(name)
    ensures r.Missing? ==> NoneBefore(infos, |infos|, Compact(Parse(backupId, ISO).value))
    ensures r.Found? ==>
              var stamp := Compact(Parse(backupId, ISO).value);
              && Contains(r.name, stamp)
              && exists i :: 0 <= i < |infos| && !infos[i].error && infos[i].name == r.name
                             && NoneBefore(infos, i, stamp)
  {
    var d := Parse(backupId, ISO);
    if d.None? {
      return BadId;
    }
    var stamp := Compact(d.value);
    var labels := Labels(Shown(infos, false));
    FirstShown(infos, stamp);
    for i := 0 to |labels|
      invariant FirstContaining(labels, stamp) == FirstContaining(labels[i..], stamp)
    {
      assert labels[i..][1..] == labels[i + 1..];
      if Contains(labels[i], stamp) {
        return Found(labels[i]);
      }
    }
    assert labels[|labels|..] == [];
    return Missing;
  }

  // ----- the round trip -----

  function AllLabels(backups: seq<Backup>): seq<string> {
    seq(|backups|, i requires 0 <= i < |backups| => Label(backups[i]))
  }

  /** pgBackRest lists backups in the order in which they started, one at a time. */
  predicate Chronological(backups: seq<Backup>) {
    && (forall i :: 0 <= i < |backups| ==> backups[i].Valid())
    && (forall i, j :: 0 <= i < j < |backups| ==> backups[i].own.Before(backups[j].own))
  }

  predicate Mentions(b: Backup, d: DateTime) {
    d == b.own || (b.Dependent? && d == b.base)
  }

  /** The search finds the first backup that carries the timestamp as its own or as its base's. */
  lemma {:induction false} SearchFinds(backups: seq<Backup>, d: DateTime, i: nat)
    requires (forall j :: 0 <= j < |backups| ==> backups[j].Valid()) && d.Valid()
    requires i < |backups| && Mentions(backups[i], d) && forall j :: 0 <= j < i ==> !Mentions(backups[j], d)
    ensures FirstContaining(AllLabels(backups), Compact(d)) == Some(Label(backups[i]))
  {
    ContainsMeans(backups[0], d);
    if i > 0 {
      assert AllLabels(backups)[1..] == AllLabels(backups[1..]);
      SearchFinds(backups[1..], d, i - 1);
    }
  }

  lemma {:induction false} SearchMisses(backups: seq<Backup>, d: DateTime)
    requires (forall j :: 0 <= j < |backups| ==> backups[j].Valid()) && d.Valid()
    requires forall j :: 0 <= j < |backups| ==> !Mentions(backups[j], d)
    ensures FirstContaining(AllLabels(backups), Compact(d)) == None
  {
    if backups != [] {
      ContainsMeans(backups[0], d);
      assert AllLabels(backups)[1..] == AllLabels(backups[1..]);
      SearchMisses(backups[1..], d);
    }
  }

  /** The id of every listed label leads back to that label. */
  lemma LabelComesBack(backups: seq<Backup>, i: nat)
    requires Chronological(backups) && i < |backups|
    ensures ParseBackupId(Label(backups[i])) == Some((Iso(backups[i].own), backups[i].Kind()))
    ensures Parse(Iso(backups[i].own), ISO) == Some(backups[i].own)
    ensures FirstContaining(AllLabels(backups), Compact(backups[i].own)) == Some(Label(backups[i]))
  {
    var d := backups[i].own;
    LabelParses(backups[i]);
    ParseWritten(d);
    forall j | 0 <= j < i ensures !Mentions(backups[j], d) {
      var b := backups[j];
      EarlierTotal(b.own.Values(), d.Values());
      if b.Dependent? {
        EarlierTransitive(b.base.Values(), b.own.Values(), d.Values());
        EarlierTotal(b.base.Values(), d.Values());
      }
    }
    SearchFinds(backups, d, i);
  }

  /** These entries list these backups. */
  predicate Describes(infos: seq<Info>, backups: seq<Backup>) {
    |infos| == |backups| && forall i :: 0 <= i < |infos| ==> infos[i].name == Label(backups[i])
  }

  /** So the id shown for a successful backup fetches that backup's label from the listing. */
  lemma ListedIdIsFetched(infos: seq<Info>, backups: seq<Backup>, i: nat)
    requires Chronological(backups) && Describes(Shown(infos, false), backups) && i < |backups|
    ensures Parse(Iso(backups[i].own), ISO) == Some(backups[i].own)
    ensures FirstContaining(Labels(Shown(infos, false)), Compact(backups[i].own)) == Some(Label(backups[i]))
  {
    LabelComesBack(backups, i);
    assert Labels(Shown(infos, false)) == AllLabels(backups);
  }

  /** A search answers with another backup's label exactly when the id is not listed but is the base of a listed
      backup, as after a full backup with errors. */
  lemma WrongLabelWhenBaseHidden(backups: seq<Backup>, d: DateTime)
    requires Chronological(backups) && d.Valid()
    ensures var r := FirstContaining(AllLabels(backups), Compact(d));
            && (r.None? <==> forall i :: 0 <= i < |backups| ==> !Mentions(backups[i], d))
            && ((r.Some? && ParseBackupId(r.value).Some? && ParseBackupId(r.value).value.0 != Iso(d))
                <==> (forall i :: 0 <= i < |backups| ==> backups[i].own != d)
                     && (exists i :: 0 <= i < |backups| && Mentions(backups[i], d)))
  {
    if i :| 0 <= i < |backups| && backups[i].own == d {
      LabelComesBack(backups, i);
    } else if exists i :: 0 <= i < |backups| && Mentions(backups[i], d) {
      var i := FirstMention(backups, d);
      SearchFinds(backups, d, i);
      LabelParses(backups[i]);
      ParseWritten(d);
      ParseWritten(backups[i].own);
    } else {
      SearchMisses(backups, d);
    }
  }

  lemma {:induction false} FirstMention(backups: seq<Backup>, d: DateTime) returns (i: nat)
    requires exists j :: 0 <= j < |backups| && Mentions(backups[j], d)
    ensures i < |backups| && Mentions(backups[i], d) && forall j :: 0 <= j < i ==> !Mentions(backups[j], d)
  {
    if Mentions(backups[0], d) {
      i := 0;
    } else {
      var j :| 0 <= j < |backups| && Mentions(backups[j], d);
      assert backups[1..][j - 1] == backups[j];
      i := FirstMention(backups[1..], d);
      i := i + 1;
    }
  }
}
