/** The S3 initialisation handshake: the Juju leader asks through the application databag, the unit
    running the primary answers in its own databag, and the leader copies the answer over. */
module S3Handshake {
  import opened Databags

  /** "stanza", "s3-initialization-start", "s3-initialization-done", "s3-initialization-block-message". */
  datatype Field = Stanza | Start | Done | Block

  type Bag = map<Field, string>

  /** The peer relation: the stanza name of this cluster, the application databag, the unit databags. */
  datatype Peers = Peers(name: string, app: Bag, units: map<nat, Bag>)

  datatype Member = App | Unit(id: nat)

  /** How far the initialisation in the primary gets. */
  datatype Outcome =
    | Refused(message: string)       // bucket or repository cannot be used, or the stanza not created
    | StatusBlocked                  // deferred because of an unrelated blocked status
    | CheckFailed(message: string)   // stanza created, validation failed
    | Succeeded

  function WriteApp(s: Peers, changes: Bag): Peers {
    s.(app := Update(s.app, changes))
  }

  function WriteUnit(s: Peers, u: nat, changes: Bag): Peers
    requires u in s.units
  {
    s.(units := s.units[u := Update(s.units[u], changes)])
  }

  function SetFailure(s: Peers, u: nat, lead: bool, message: string): Peers
    requires u in s.units
  {
    if lead then WriteApp(s, map[Block := message, Start := "", Stanza := ""])
    else WriteUnit(s, u, map[Block := message, Done := "True", Stanza := ""])
  }

  function StanzaCreated(s: Peers, u: nat, lead: bool): Peers
    requires u in s.units
  {
    if lead then WriteApp(s, map[Stanza := s.name]) else WriteUnit(s, u, map[Stanza := s.name])
  }

  function StanzaChecked(s: Peers, u: nat, lead: bool): Peers
    requires u in s.units
  {
    if lead then WriteApp(s, map[Start := ""]) else WriteUnit(s, u, map[Done := "True"])
  }

  function Initialised(s: Peers, u: nat, lead: bool, o: Outcome): Peers
    requires u in s.units
  {
    match o
    case Refused(message) => SetFailure(s, u, lead, message)
    case StatusBlocked => s
    case CheckFailed(message) => SetFailure(StanzaCreated(s, u, lead), u, lead, message)
    case Succeeded => StanzaChecked(StanzaCreated(s, u, lead), u, lead)
  }

  function Requested(s: Peers, now: string): Peers {
    WriteApp(s, map[Block := "", Start := now, Stanza := "", Done := ""])
  }

  function CredentialsChanged(s: Peers, u: nat, lead: bool, primary: bool, ready: bool, now: string, o: Outcome): Peers
    requires u in s.units
  {
    if !ready then s
    else
      var asked := if lead then Requested(s, now) else s;
      if primary && Done !in asked.units[u] then Initialised(asked, u, lead, o) else asked
  }

  function BagOf(s: Peers, m: Member): Bag {
    match m
    case App => s.app
    case Unit(id) => if id in s.units then s.units[id] else map[]
  }

  function FieldOf(bag: Bag, f: Field): string {
    if f in bag then bag[f] else ""
  }

  function Adopted(s: Peers, bag: Bag): Peers {
    WriteApp(s, map[Stanza := FieldOf(bag, Stanza), Block := FieldOf(bag, Block), Start := "", Done := "True"])
  }

  /** The leader adopts the answer of the first databag, in iteration order, that is marked done. */
  function Coordinated(s: Peers, lead: bool, order: seq<Member>): Peers {
    if !lead || Start !in s.app then s else AdoptFirst(s, order)
  }

  function AdoptFirst(s: Peers, order: seq<Member>): (r: Peers)
    ensures r.units == s.units && r.name == s.name
  {
    if order == [] then s
    else if Done in BagOf(s, order[0]) then Adopted(s, BagOf(s, order[0]))
    else AdoptFirst(s, order[1..])
  }

  /** A finished restore whose repository cannot be used any more blocks S3 (only the leader may write). */
  function RestoreChecked(s: Peers, lead: bool, refusal: Option<string>): Peers {
    if lead && refusal.Some? then WriteApp(s, map[Stanza := "", Start := "", Done := "", Block := refusal.value]) else s
  }

  const NOTHING: Bag := map[Stanza := "", Block := "", Done := "", Start := ""]

  function PeerChanged(s: Peers, u: nat, lead: bool, primary: bool, refusal: Option<string>, order: seq<Member>,
                       o: Outcome): (r: Peers)
    requires u in s.units
    ensures r.units.Keys == s.units.Keys && r.name == s.name
  {
    var coordinated := Coordinated(RestoreChecked(s, lead, refusal), lead, order);
    var answers := Start in coordinated.app && Done !in coordinated.units[u] && primary;
    var answered := if answers then Initialised(coordinated, u, lead, o) else coordinated;
    if answers && !o.Succeeded? then answered
    else if Done in answered.app && !lead then WriteUnit(answered, u, NOTHING)
    else answered
  }

  function CredentialsGone(s: Peers, u: nat, lead: bool): Peers
    requires u in s.units
  {
    WriteUnit(if lead then WriteApp(s, NOTHING) else s, u, NOTHING)
  }

  /** The handlers, writing the databags in sequence. */
  class Backups {
    const unit: nat
    const name: string
    var app: Bag
    var units: map<nat, Bag>

    function State(): Peers
      reads this
    {
      Peers(name, app, units)
    }

    constructor (s: Peers, unit: nat)
      ensures State() == s && this.unit == unit
    {
      this.unit, name, app, units := unit, s.name, s.app, s.units;
    }

    method SetInitializationFailure(lead: bool, message: string)
      requires unit in units
      modifies this
      ensures State() == SetFailure(old(State()), unit, lead, message)
    {
      if lead {
        app := Update(app, map[Block := message, Start := "", Stanza := ""]);
      } else {
        units := units[unit := Update(units[unit], map[Block := message, Done := "True", Stanza := ""])];
      }
    }

    method InitialiseStanza(lead: bool, o: Outcome) returns (ok: bool)
      requires unit in units
      modifies this
      ensures ok <==> o.CheckFailed? || o.Succeeded?
      ensures State() == if ok then StanzaCreated(old(State()), unit, lead)
                         else if o.Refused? then SetFailure(old(State()), unit, lead, o.message) else old(State())
    {
      if o.StatusBlocked? {
        return false;
      }
      if o.Refused? {
        SetInitializationFailure(lead, o.message);
        return false;
      }
      if lead {
        app := Update(app, map[Stanza := name]);
      } else {
        units := units[unit := Update(units[unit], map[Stanza := name])];
      }
      ok := true;
    }

    method CheckStanza(lead: bool, o: Outcome) returns (ok: bool)
      requires unit in units && (o.CheckFailed? || o.Succeeded?)
      modifies this
      ensures ok <==> o.Succeeded?
      ensures State() == if ok then StanzaChecked(old(State()), unit, lead)
                         else SetFailure(old(State()), unit, lead, o.message)
    {
      if o.CheckFailed? {
        SetInitializationFailure(lead, o.message);
        return false;
      }
      if lead {
        app := Update(app, map[Start := ""]);
      } else {
        units := units[unit := Update(units[unit], map[Done := "True"])];
      }
      ok := true;
    }

    method OnCredentialChangedPrimary(lead: bool, o: Outcome) returns (ok: bool)
      requires unit in units
      modifies this
      ensures ok <==> o.Succeeded?
      ensures State() == Initialised(old(State()), unit, lead, o)
    {
      ok := InitialiseStanza(lead, o);
      if ok {
        ok := CheckStanza(lead, o);
      }
    }

    method OnCredentialChanged(lead: bool, primary: bool, ready: bool, now: string, o: Outcome)
      requires unit in units
      modifies this
      ensures State() == CredentialsChanged(old(State()), unit, lead, primary, ready, now, o)
    {
      if !ready {
        return;
      }
      if lead {
        app := Update(app, map[Block := "", Start := now, Stanza := "", Done := ""]);
      }
      if primary && Done !in units[unit] {
        var _ := OnCredentialChangedPrimary(lead, o);
      }
    }

    method CoordinateStanzaFields(lead: bool, order: seq<Member>)
      modifies this
      ensures State() == Coordinated(old(State()), lead, order)
    {
      if !lead || Start !in app {
        return;
      }
      for i := 0 to |order|
        invariant State() == old(State())
        invariant AdoptFirst(old(State()), order) == AdoptFirst(old(State()), order[i..])
      {
        var bag := BagOf(State(), order[i]);
        if Done in bag {
          app := Update(app, map[Stanza := FieldOf(bag, Stanza), Block := FieldOf(bag, Block),
                                 Start := "", Done := "True"]);
          return;
        }
      }
    }

    method OnPeerRelationChanged(lead: bool, primary: bool, refusal: Option<string>, order: seq<Member>, o: Outcome)
      requires unit in units
      modifies this
      ensures State() == PeerChanged(old(State()), unit, lead, primary, refusal, order, o)
    {
      if lead && refusal.Some? {
        app := Update(app, map[Stanza := "", Start := "", Done := "", Block := refusal.value]);
      }
      CoordinateStanzaFields(lead, order);
      if Start in app && Done !in units[unit] && primary {
        var ok := OnCredentialChangedPrimary(lead, o);
        if !ok {
          return;
        }
      }
      if Done in app && !lead {
        units := units[unit := Update(units[unit], NOTHING)];
      }
    }

    method OnCredentialGone(lead: bool)
      requires unit in units
      modifies this
      ensures State() == CredentialsGone(old(State()), unit, lead)
    {
      if lead {
        app := Update(app, NOTHING);
      }
      units := units[unit := Update(units[unit], NOTHING)];
    }
  }

  // ----- the invariant -----

  /** One hook in unit u, with the roles it has at that moment. */
  datatype Hook =
    | Credentials(u: nat, lead: bool, primary: bool, ready: bool, now: string, o: Outcome)
    | PeerRelation(u: nat, lead: bool, primary: bool, refusal: Option<string>, order: seq<Member>, o: Outcome)
    | UpdateStatus(u: nat, lead: bool, refusal: Option<string>, order: seq<Member>)
    | Gone(u: nat, lead: bool)
    | RestoreAction(u: nat)

  /** Block messages and timestamps are never empty. */
  predicate Legal(s: Peers, h: Hook) {
    && h.u in s.units
    && (h.Credentials? ==> h.now != "" && Worded(h.o))
    && (h.PeerRelation? ==> Worded(h.o) && (h.refusal.Some? ==> h.refusal.value != ""))
    && (h.UpdateStatus? ==> h.refusal.Some? ==> h.refusal.value != "")
  }

  predicate Worded(o: Outcome) {
    (o.Refused? || o.CheckFailed?) ==> o.message != ""
  }

  function Next(s: Peers, h: Hook): Peers
    requires Legal(s, h)
  {
    match h
    case Credentials(u, lead, primary, ready, now, o) => CredentialsChanged(s, u, lead, primary, ready, now, o)
    case PeerRelation(u, lead, primary, refusal, order, o) => PeerChanged(s, u, lead, primary, refusal, order, o)
    case UpdateStatus(u, lead, refusal, order) => Coordinated(RestoreChecked(s, lead, refusal), lead, order)
    case Gone(u, lead) => CredentialsGone(s, u, lead)
    case RestoreAction(_) => WriteApp(s, map[Block := ""])
  }

  predicate LegalRun(s: Peers, hooks: seq<Hook>)
    decreases |hooks|
  {
    hooks == [] || (Legal(s, hooks[0]) && LegalRun(Next(s, hooks[0]), hooks[1..]))
  }

  function Run(s: Peers, hooks: seq<Hook>): Peers
    requires LegalRun(s, hooks)
    decreases |hooks|
  {
    if hooks == [] then s else Run(Next(s, hooks[0]), hooks[1..])
  }

  /** Never both a stanza and a block message; a pending start never coexists with a result. */
  predicate AppOk(app: Bag) {
    && !(Stanza in app && Block in app)
    && (Start in app ==> Stanza !in app && Block !in app && Done !in app)
  }

  /** Done exactly when it holds exactly one of stanza and block message, and never both. */
  predicate UnitOk(bag: Bag) {
    && (Done in bag <==> (Stanza in bag) != (Block in bag))
    && !(Stanza in bag && Block in bag)
    && Start !in bag
  }

  predicate Nonempty(bag: Bag) {
    forall f :: f in bag ==> bag[f] != ""
  }

  predicate Inv(s: Peers) {
    && s.name != ""
    && AppOk(s.app) && Nonempty(s.app)
    && forall u :: u in s.units ==> UnitOk(s.units[u]) && Nonempty(s.units[u])
  }

  /** Nobody has written anything yet. */
  predicate Untouched(s: Peers) {
    s.name != "" && s.app == map[] && forall u :: u in s.units ==> s.units[u] == map[]
  }

  lemma FailureOk(s: Peers, u: nat, lead: bool, message: string)
    requires InvBut(s, u, lead) && message != ""
    ensures Inv(SetFailure(s, u, lead, message))
  {
  }

  lemma SuccessOk(s: Peers, u: nat, lead: bool)
    requires Inv(s) && u in s.units && Done !in s.units[u] && (lead ==> Start in s.app)
    ensures Inv(StanzaChecked(StanzaCreated(s, u, lead), u, lead))
  {
  }

  /** The invariant, except that the databag about to be answered may already hold a stanza. */
  predicate InvBut(s: Peers, u: nat, lead: bool) {
    && s.name != "" && u in s.units
    && Nonempty(s.app) && (if lead then Block !in s.app && Done !in s.app else AppOk(s.app))
    && (!lead ==> Block !in s.units[u] && Start !in s.units[u])
    && forall v :: v in s.units ==> Nonempty(s.units[v]) && ((v == u && !lead) || UnitOk(s.units[v]))
  }

  lemma CreatedBut(s: Peers, u: nat, lead: bool)
    requires Inv(s) && u in s.units && Done !in s.units[u] && (lead ==> Start in s.app)
    ensures InvBut(s, u, lead) && InvBut(StanzaCreated(s, u, lead), u, lead)
  {
  }

  lemma InitialisedOk(s: Peers, u: nat, lead: bool, o: Outcome)
    requires Inv(s) && u in s.units && Worded(o) && Done !in s.units[u]
    requires lead ==> Start in s.app
    ensures Inv(Initialised(s, u, lead, o))
  {
    CreatedBut(s, u, lead);
    match o {
      case Refused(message) => FailureOk(s, u, lead, message);
      case StatusBlocked =>
      case CheckFailed(message) => FailureOk(StanzaCreated(s, u, lead), u, lead, message);
      case Succeeded => SuccessOk(s, u, lead);
    }
  }

  lemma {:induction false} AdoptFirstOk(s: Peers, order: seq<Member>)
    requires Inv(s) && Start in s.app
    ensures Inv(AdoptFirst(s, order)) && AdoptFirst(s, order).units == s.units
  {
    if order != [] && Done !in BagOf(s, order[0]) {
      AdoptFirstOk(s, order[1..]);
    }
  }

  lemma CoordinatedOk(s: Peers, lead: bool, order: seq<Member>)
    requires Inv(s)
    ensures Inv(Coordinated(s, lead, order)) && Coordinated(s, lead, order).units == s.units
  {
    if lead && Start in s.app {
      AdoptFirstOk(s, order);
    }
  }

  lemma NothingLeft(bag: Bag)
    requires Stanza !in bag && Start !in bag && Done !in bag && Block !in bag
    ensures bag == map[]
  {
    forall f: Field ensures f !in bag {
      match f { case Stanza => case Start => case Done => case Block => }
    }
  }

  lemma Cleared(bag: Bag)
    ensures Update(bag, NOTHING) == map[]
  {
    NothingLeft(Update(bag, NOTHING));
  }

  lemma OnlyAsked(s: Peers, now: string)
    requires now != ""
    ensures Requested(s, now).app == map[Start := now]
  {
    var app := Requested(s, now).app;
    NothingLeft(app - {Start});
    assert app == (app - {Start})[Start := now];
  }

  lemma WriteUnitOk(s: Peers, u: nat)
    requires Inv(s) && u in s.units
    ensures Inv(WriteUnit(s, u, NOTHING)) && WriteUnit(s, u, NOTHING).units[u] == map[]
  {
    Cleared(s.units[u]);
  }

  lemma HookOk(s: Peers, h: Hook)
    requires Inv(s) && Legal(s, h)
    ensures Inv(Next(s, h))
  {
    match h {
      case Credentials(u, lead, primary, ready, now, o) =>
        var asked := if lead then Requested(s, now) else s;
        assert Inv(asked);
        if ready && primary && Done !in asked.units[u] {
          InitialisedOk(asked, u, lead, o);
        }
      case PeerRelation(u, lead, primary, refusal, order, o) =>
        var checked := RestoreChecked(s, lead, refusal);
        CoordinatedOk(checked, lead, order);
        var coordinated := Coordinated(checked, lead, order);
        if Start in coordinated.app && Done !in coordinated.units[u] && primary {
          InitialisedOk(coordinated, u, lead, o);
          WriteUnitOk(Initialised(coordinated, u, lead, o), u);
        } else {
          WriteUnitOk(coordinated, u);
        }
      case UpdateStatus(u, lead, refusal, order) =>
        CoordinatedOk(RestoreChecked(s, lead, refusal), lead, order);
      case Gone(u, lead) =>
        WriteUnitOk(if lead then WriteApp(s, NOTHING) else s, u);
      case RestoreAction(_) =>
    }
  }

  /** The handshake invariant, under any interleaving of hooks and any changes of leader and primary. */
  lemma {:induction false} HandshakeInvariant(s: Peers, hooks: seq<Hook>)
    requires Inv(s) && LegalRun(s, hooks)
    ensures Inv(Run(s, hooks))
    decreases |hooks|
  {
    if hooks != [] {
      HookOk(s, hooks[0]);
      HandshakeInvariant(Next(s, hooks[0]), hooks[1..]);
    }
  }

  /** In particular from a relation nobody has written to yet. */
  lemma HandshakeFromScratch(s: Peers, hooks: seq<Hook>)
    requires Untouched(s) && LegalRun(s, hooks)
    ensures Inv(Run(s, hooks))
  {
    HandshakeInvariant(s, hooks);
  }

  // ----- one handshake from end to end -----

  predicate NoLeftover(s: Peers) {
    forall u :: u in s.units ==> Done !in s.units[u]
  }

  ghost predicate Visits(s: Peers, order: seq<Member>) {
    && App in order
    && forall u :: u in s.units <==> Unit(u) in order
  }

  /** What a finished handshake puts into the application databag. */
  function Result(s: Peers, o: Outcome): Bag
    requires !o.StatusBlocked?
  {
    if o.Succeeded? then map[Stanza := s.name, Done := "True"] else map[Block := o.message, Done := "True"]
  }

  lemma {:induction false} FirstDoneIs(s: Peers, order: seq<Member>, p: nat)
    requires Done !in s.app && p in s.units && Done in s.units[p] && Unit(p) in order
    requires forall u :: u in s.units && u != p ==> Done !in s.units[u]
    ensures AdoptFirst(s, order) == Adopted(s, s.units[p])
  {
    if Done !in BagOf(s, order[0]) {
      FirstDoneIs(s, order[1..], p);
    }
  }

  lemma {:induction false} NoneDone(s: Peers, order: seq<Member>)
    requires Done !in s.app && NoLeftover(s)
    ensures AdoptFirst(s, order) == s
  {
    if order != [] {
      NoneDone(s, order[1..]);
    }
  }

  lemma AdoptedIs(s: Peers, o: Outcome)
    requires s.name != "" && Worded(o) && !o.StatusBlocked?
    requires Start in s.app && Stanza !in s.app && Block !in s.app && Done !in s.app
    ensures Adopted(s, Result(s, o)).app == Result(s, o)
  {
    var app := Adopted(s, Result(s, o)).app;
    forall f: Field ensures f in app <==> f in Result(s, o) {
      match f { case Stanza => case Start => case Done => case Block => }
    }
  }

  lemma AnswerBag(name: string, o: Outcome)
    requires name != "" && Worded(o) && !o.StatusBlocked?
    ensures Update(map[], map[Stanza := name]) == map[Stanza := name]
    ensures Update(map[Stanza := name], map[Done := "True"]) == map[Stanza := name, Done := "True"]
    ensures !o.Succeeded? ==>
              var failure, answer := map[Block := o.message, Done := "True", Stanza := ""],
                  map[Block := o.message, Done := "True"];
              Update(map[], failure) == answer && Update(map[Stanza := name], failure) == answer
  {
  }

  lemma AnswerIs(s: Peers, p: nat, o: Outcome)
    requires Inv(s) && p in s.units && Done !in s.units[p] && Worded(o) && !o.StatusBlocked?
    ensures Initialised(s, p, false, o) == s.(units := s.units[p := Result(s, o)])
  {
    NothingLeft(s.units[p]);
    AnswerBag(s.name, o);
    assert s.units[p := map[Stanza := s.name]][p := Result(s, o)] == s.units[p := Result(s, o)];
  }

  lemma PrimaryAnswers(s: Peers, p: nat, o: Outcome, order: seq<Member>)
    requires Inv(s) && Start in s.app && p in s.units && Done !in s.units[p] && Worded(o) && !o.StatusBlocked?
    ensures PeerChanged(s, p, false, true, None, order, o) == s.(units := s.units[p := Result(s, o)])
  {
    AnswerIs(s, p, o);
  }

  lemma LeaderAdopts(s: Peers, leader: nat, p: nat, o: Outcome, order: seq<Member>)
    requires Inv(s) && Start in s.app && leader in s.units && p in s.units && leader != p
    requires !o.StatusBlocked? && s.units[p] == Result(s, o) && Worded(o) && Visits(s, order)
    requires forall u :: u in s.units && u != p ==> Done !in s.units[u]
    ensures PeerChanged(s, leader, true, false, None, order, o) == s.(app := Result(s, o))
  {
    FirstDoneIs(s, order, p);
    AdoptedIs(s, o);
  }

  lemma PrimaryClears(s: Peers, p: nat, o: Outcome, order: seq<Member>)
    requires p in s.units && !o.StatusBlocked? && s.app == Result(s, o)
    ensures PeerChanged(s, p, false, true, None, order, o) == s.(units := s.units[p := map[]])
  {
    Cleared(s.units[p]);
  }

  /** From the request on: the primary answers, the leader adopts the answer, the primary clears its copy. */
  lemma RequestIsServed(asked: Peers, leader: nat, p: nat, o: Outcome, order: seq<Member>)
    requires Inv(asked) && Start in asked.app && NoLeftover(asked) && leader in asked.units && p in asked.units
              && leader != p
    requires Worded(o) && !o.StatusBlocked? && Visits(asked, order)
    ensures var answered := PeerChanged(asked, p, false, true, None, order, o);
            var adopted := PeerChanged(answered, leader, true, false, None, order, o);
            && answered == asked.(units := asked.units[p := Result(asked, o)])
            && adopted == answered.(app := Result(asked, o))
            && PeerChanged(adopted, p, false, true, None, order, o) == asked.(app := Result(asked, o))
  {
    PrimaryAnswers(asked, p, o, order);
    var answered := asked.(units := asked.units[p := Result(asked, o)]);
    AnswerOk(asked, p, o);
    LeaderAdopts(answered, leader, p, o, order);
    NothingLeft(asked.units[p]);
    var adopted := answered.(app := Result(asked, o));
    PrimaryClears(adopted, p, o, order);
    assert adopted.units[p := map[]] == asked.units;
  }

  /** The leader asks, the primary answers, the leader adopts exactly that answer, and the primary then
      clears its copy. */
  lemma HandshakeDelivers(s: Peers, leader: nat, p: nat, now: string, o: Outcome, order: seq<Member>)
    requires Inv(s) && NoLeftover(s) && leader in s.units && p in s.units && leader != p
    requires now != "" && Worded(o) && !o.StatusBlocked? && Visits(s, order)
    ensures var asked := CredentialsChanged(s, leader, true, false, true, now, o);
            var answered := PeerChanged(asked, p, false, true, None, order, o);
            var adopted := PeerChanged(answered, leader, true, false, None, order, o);
            && asked == s.(app := map[Start := now])
            && answered == asked.(units := s.units[p := Result(s, o)])
            && adopted == answered.(app := Result(s, o))
            && PeerChanged(adopted, p, false, true, None, order, o) == s.(app := Result(s, o))
  {
    OnlyAsked(s, now);
    var asked := CredentialsChanged(s, leader, true, false, true, now, o);
    assert asked == s.(app := map[Start := now]);
    RequestIsServed(asked, leader, p, o, order);
  }

  lemma AnswerOk(s: Peers, p: nat, o: Outcome)
    requires Inv(s) && p in s.units && Worded(o) && !o.StatusBlocked?
    ensures Inv(s.(units := s.units[p := Result(s, o)]))
  {
  }

  /** After asking, the leader adopts nothing until a new answer comes, if and only if no unit carries an old
      answer, or the leader is the primary itself and settles the request within the same hook. */
  lemma NothingOldIsAdoptedIff(s: Peers, leader: nat, primary: bool, now: string, o: Outcome, order: seq<Member>)
    requires Inv(s) && leader in s.units && now != "" && Worded(o) && Visits(s, order)
    ensures var asked := CredentialsChanged(s, leader, true, primary, true, now, o);
            Coordinated(asked, true, order) == asked
            <==> NoLeftover(s) || (primary && Done !in s.units[leader] && !o.StatusBlocked?)
  {
    var requested := Requested(s, now);
    OnlyAsked(s, now);
    var asked := CredentialsChanged(s, leader, true, primary, true, now, o);
    if primary && Done !in s.units[leader] && !o.StatusBlocked? {
      assert Start !in asked.app;
    } else {
      assert asked == requested;
      if NoLeftover(s) {
        NoneDone(asked, order);
      } else {
        var u :| u in s.units && Done in s.units[u];
        SomeoneDone(asked, order, u);
      }
    }
  }

  lemma {:induction false} SomeoneDone(s: Peers, order: seq<Member>, u: nat)
    requires u in s.units && Done in s.units[u] && Unit(u) in order
    ensures Start !in AdoptFirst(s, order).app
  {
    if Done !in BagOf(s, order[0]) {
      SomeoneDone(s, order[1..], u);
    }
  }

  /** An old answer can be left behind: unit 1 answers as primary, becomes leader before clearing its
      answer, and from then on its own new credentials are declared good without being tried. */
  lemma LeftoverIsAdopted(s: Peers, order: seq<Member>, before: string, now: string, o: Outcome)
    requires s.name != "" && before != "" && now != "" && s == Peers(s.name, map[], map[0 := map[], 1 := map[]])
    requires order == [App, Unit(0), Unit(1)]
    ensures var asked := CredentialsChanged(s, 0, true, false, true, before, Succeeded);
            var answered := PeerChanged(asked, 1, false, true, None, order, Succeeded);
            var promoted := PeerChanged(answered, 1, true, true, None, order, o);
            var askedAgain := CredentialsChanged(promoted, 1, true, true, true, now, o);
            && !NoLeftover(promoted)
            && askedAgain.app == map[Start := now]
            && PeerChanged(askedAgain, 1, true, true, None, order, o).app == map[Stanza := s.name, Done := "True"]
  {
    OnlyAsked(s, before);
    var asked := CredentialsChanged(s, 0, true, false, true, before, Succeeded);
    AnswerIs(asked, 1, Succeeded);
    var answered := PeerChanged(asked, 1, false, true, None, order, Succeeded);
    assert answered == asked.(units := s.units[1 := Result(s, Succeeded)]);
    FirstDoneIs(answered, order, 1);
    AdoptedIs(answered, Succeeded);
    var promoted := PeerChanged(answered, 1, true, true, None, order, o);
    assert promoted == answered.(app := Result(s, Succeeded));
    OnlyAsked(promoted, now);
    var askedAgain := CredentialsChanged(promoted, 1, true, true, true, now, o);
    assert askedAgain == promoted.(app := map[Start := now]);
    FirstDoneIs(askedAgain, order, 1);
    AdoptedIs(askedAgain, Succeeded);
  }

  /** Nobody needs to change roles for that: credentials changed a second time before the primary's clean-up
      hook get the answer to the first ones. */
  lemma SecondRequestGetsFirstAnswer(s: Peers, leader: nat, p: nat, before: string, now: string, o: Outcome,
                                     order: seq<Member>)
    requires Inv(s) && NoLeftover(s) && leader in s.units && p in s.units && leader != p
    requires before != "" && now != "" && Worded(o) && !o.StatusBlocked? && Visits(s, order)
    ensures var asked := CredentialsChanged(s, leader, true, false, true, before, o);
            var answered := PeerChanged(asked, p, false, true, None, order, o);
            var adopted := PeerChanged(answered, leader, true, false, None, order, o);
            var askedAgain := CredentialsChanged(adopted, leader, true, false, true, now, o);
            && askedAgain.app == map[Start := now]
            && Coordinated(askedAgain, true, order).app == Result(s, o)
  {
    HandshakeDelivers(s, leader, p, before, o, order);
    var answered := s.(app := map[Start := before], units := s.units[p := Result(s, o)]);
    var adopted := answered.(app := Result(s, o));
    OnlyAsked(adopted, now);
    var askedAgain := adopted.(app := map[Start := now]);
    FirstDoneIs(askedAgain, order, p);
    AdoptedIs(askedAgain, o);
  }

  // ----- every schedule of one request -----

  /** No other request, restore or removal: the hooks in which this request is asked for, answered and adopted,
      with one leader and one primary throughout. */
  predicate OneRequest(hooks: seq<Hook>, leader: nat, p: nat) {
    forall i :: 0 <= i < |hooks| ==>
      match hooks[i]
      case Credentials(u, lead, primary, _, _, _) => u != leader && !lead && primary == (u == p)
      case PeerRelation(u, lead, primary, refusal, _, _) => lead == (u == leader) && primary == (u == p)
          && refusal.None?
      case UpdateStatus(u, lead, refusal, _) => lead == (u == leader) && refusal.None?
      case Gone(_, _) => false
      case RestoreAction(_) => false
  }

  /** How the attempts of the primary went. */
  function Tried(hooks: seq<Hook>, p: nat): set<Outcome> {
    if hooks == [] then {}
    else
      var here := if hooks[0].u == p && (hooks[0].Credentials? || hooks[0].PeerRelation?) then {hooks[0].o} else {};
      here + Tried(hooks[1..], p)
  }

  /** What an attempt leaves in the application databag: a leader that is the primary writes it there directly. */
  function AppResult(name: string, o: Outcome, direct: bool): Bag
    requires !o.StatusBlocked?
  {
    var result := if o.Succeeded? then map[Stanza := name] else map[Block := o.message];
    if direct then result else result[Done := "True"]
  }

  predicate IsResult(bag: Bag, name: string, tried: set<Outcome>, direct: bool) {
    exists o :: o in tried && !o.StatusBlocked? && Worded(o) && bag == AppResult(name, o, direct)
  }

  /** The request is pending or settled by one of these attempts, and so is anything the primary has answered. */
  predicate Serving(s: Peers, leader: nat, p: nat, now: string, tried: set<Outcome>) {
    && Inv(s) && leader in s.units && p in s.units && now != ""
    && (s.app == map[Start := now] || IsResult(s.app, s.name, tried, leader == p))
    && (forall u :: u in s.units && (u != p || leader == p) ==> s.units[u] == map[])
    && (s.units[p] == map[] || IsResult(s.units[p], s.name, tried, false))
  }

  lemma {:induction false} AdoptsAtMost(s: Peers, order: seq<Member>, p: nat)
    requires Done !in s.app && p in s.units && forall u :: u in s.units && u != p ==> Done !in s.units[u]
    ensures AdoptFirst(s, order) == s || (Done in s.units[p] && AdoptFirst(s, order) == Adopted(s, s.units[p]))
  {
    if order != [] && Done !in BagOf(s, order[0]) {
      AdoptsAtMost(s, order[1..], p);
    }
  }

  lemma CoordinationServes(s: Peers, leader: nat, p: nat, now: string, tried: set<Outcome>, lead: bool,
                           order: seq<Member>)
    requires Serving(s, leader, p, now, tried)
    ensures Serving(Coordinated(s, lead, order), leader, p, now, tried) && Coordinated(s, lead, order).units == s.units
  {
    CoordinatedOk(s, lead, order);
    if lead && Start in s.app {
      AdoptsAtMost(s, order, p);
      if Done in s.units[p] {
        var o :| o in tried && !o.StatusBlocked? && Worded(o) && s.units[p] == AppResult(s.name, o, false);
        assert s.units[p] == Result(s, o);
        AdoptedIs(s, o);
      }
    }
  }

  lemma DirectResult(s: Peers, p: nat, o: Outcome, now: string)
    requires Inv(s) && p in s.units && Worded(o) && !o.StatusBlocked? && s.app == map[Start := now]
    ensures Initialised(s, p, true, o) == s.(app := AppResult(s.name, o, true))
  {
    var app := Initialised(s, p, true, o).app;
    forall f: Field ensures f in app <==> f in AppResult(s.name, o, true) {
      match f { case Stanza => case Start => case Done => case Block => }
    }
  }

  /** An attempt of the primary. */
  lemma AttemptServes(s: Peers, leader: nat, p: nat, now: string, tried: set<Outcome>, o: Outcome)
    requires Serving(s, leader, p, now, tried) && Done !in s.units[p] && Worded(o) && (leader == p ==> Start in s.app)
    ensures Serving(Initialised(s, p, leader == p, o), leader, p, now, tried + {o})
  {
    MoreTried(s, leader, p, now, tried, o);
    if !o.StatusBlocked? {
      InitialisedOk(s, p, leader == p, o);
      if leader == p {
        DirectResult(s, p, o, now);
      } else {
        AnswerIs(s, p, o);
        assert AppResult(s.name, o, false) == Result(s, o);
      }
      assert IsResult(AppResult(s.name, o, leader == p), s.name, tried + {o}, leader == p);
    }
  }

  lemma MoreTried(s: Peers, leader: nat, p: nat, now: string, tried: set<Outcome>, o: Outcome)
    requires Serving(s, leader, p, now, tried)
    ensures Serving(s, leader, p, now, tried + {o})
  {
    forall bag, direct | IsResult(bag, s.name, tried, direct) ensures IsResult(bag, s.name, tried + {o}, direct) {
      var q :| q in tried && !q.StatusBlocked? && Worded(q) && bag == AppResult(s.name, q, direct);
      assert q in tried + {o};
    }
  }

  lemma ClearingServes(s: Peers, leader: nat, p: nat, now: string, tried: set<Outcome>, u: nat)
    requires Serving(s, leader, p, now, tried) && u in s.units
    ensures Serving(WriteUnit(s, u, NOTHING), leader, p, now, tried)
  {
    WriteUnitOk(s, u);
  }

  lemma PeerHookServes(s: Peers, leader: nat, p: nat, now: string, tried: set<Outcome>, u: nat, order: seq<Member>,
                       o: Outcome)
    requires Serving(s, leader, p, now, tried) && u in s.units && Worded(o)
    ensures Serving(PeerChanged(s, u, u == leader, u == p, None, order, o), leader, p, now,
                    tried + if u == p then {o} else {})
  {
    var lead := u == leader;
    CoordinationServes(s, leader, p, now, tried, lead, order);
    var c := Coordinated(s, lead, order);
    assert RestoreChecked(s, lead, None) == s;
    if u != p {
      assert tried + {} == tried;
      ClearingServes(c, leader, p, now, tried, u);
    } else if Start in c.app && Done !in c.units[p] {
      AttemptServes(c, leader, p, now, tried, o);
      ClearingServes(Initialised(c, p, leader == p, o), leader, p, now, tried + {o}, u);
    } else {
      MoreTried(c, leader, p, now, tried, o);
      ClearingServes(c, leader, p, now, tried + {o}, u);
    }
  }

  lemma HookServes(s: Peers, leader: nat, p: nat, now: string, tried: set<Outcome>, h: Hook)
    requires Serving(s, leader, p, now, tried) && Legal(s, h) && OneRequest([h], leader, p)
    ensures Serving(Next(s, h), leader, p, now, tried + Tried([h], p))
  {
    assert [h][0] == h && [h][1..] == [];
    match h {
      case Credentials(u, lead, primary, ready, _, o) =>
        if u == p {
          MoreTried(s, leader, p, now, tried, o);
          if ready && Done !in s.units[p] {
            AttemptServes(s, leader, p, now, tried, o);
          }
        }
      case PeerRelation(u, lead, primary, refusal, order, o) =>
        PeerHookServes(s, leader, p, now, tried, u, order, o);
      case UpdateStatus(u, lead, refusal, order) =>
        assert RestoreChecked(s, lead, refusal) == s;
        CoordinationServes(s, leader, p, now, tried, lead, order);
    }
  }

  lemma {:induction false} RunServes(s: Peers, leader: nat, p: nat, now: string, tried: set<Outcome>, hooks: seq<Hook>)
    requires Serving(s, leader, p, now, tried) && LegalRun(s, hooks) && OneRequest(hooks, leader, p)
    ensures Serving(Run(s, hooks), leader, p, now, tried + Tried(hooks, p))
    decreases |hooks|
  {
    if hooks == [] {
      assert tried + Tried(hooks, p) == tried;
    } else {
      assert OneRequest([hooks[0]], leader, p);
      HookServes(s, leader, p, now, tried, hooks[0]);
      RunServes(Next(s, hooks[0]), leader, p, now, tried + Tried([hooks[0]], p), hooks[1..]);
      assert [hooks[0]][1..] == [];
      assert tried + Tried([hooks[0]], p) + Tried(hooks[1..], p) == tried + Tried(hooks, p);
    }
  }

  lemma AskedServes(s: Peers, leader: nat, p: nat, now: string, first: Outcome)
    requires Inv(s) && NoLeftover(s) && leader in s.units && p in s.units && now != "" && Worded(first)
    ensures Serving(CredentialsChanged(s, leader, true, leader == p, true, now, first), leader, p, now,
                    if leader == p then {first} else {})
  {
    OnlyAsked(s, now);
    var requested := s.(app := map[Start := now]);
    assert Requested(s, now) == requested;
    forall u | u in s.units ensures s.units[u] == map[] {
      NothingLeft(s.units[u]);
    }
    assert Serving(requested, leader, p, now, {});
    if leader == p {
      AttemptServes(requested, leader, p, now, {}, first);
      assert {} + {first} == {first};
    }
  }

  /** Whatever the order of the hooks, and whether or not the leader is the primary: with no old answer around,
      a request stays pending until the application databag holds the result of an attempt made after it. */
  lemma RequestGetsOwnResult(s: Peers, leader: nat, p: nat, now: string, first: Outcome, hooks: seq<Hook>)
    requires Inv(s) && NoLeftover(s) && leader in s.units && p in s.units && now != "" && Worded(first)
    requires var asked := CredentialsChanged(s, leader, true, leader == p, true, now, first);
             LegalRun(asked, hooks) && OneRequest(hooks, leader, p)
    ensures var asked := CredentialsChanged(s, leader, true, leader == p, true, now, first);
            var app := Run(asked, hooks).app;
            app == map[Start := now]
            || IsResult(app, s.name, Tried(hooks, p) + if leader == p then {first} else {}, leader == p)
  {
    AskedServes(s, leader, p, now, first);
    var asked := CredentialsChanged(s, leader, true, leader == p, true, now, first);
    var tried: set<Outcome> := if leader == p then {first} else {};
    RunServes(asked, leader, p, now, tried, hooks);
    RunKeepsName(asked, hooks);
    assert tried + Tried(hooks, p) == Tried(hooks, p) + tried;
  }

  // ----- delivery -----

  /** The primary's peer-relation-changed, with an attempt that comes to an end. */
  predicate Answers(h: Hook, p: nat) {
    h.PeerRelation? && h.u == p && !h.o.StatusBlocked?
  }

  /** A run of the leader that looks at the primary's databag. */
  predicate Collects(h: Hook, leader: nat, p: nat) {
    (h.PeerRelation? || h.UpdateStatus?) && h.u == leader && Unit(p) in h.order
  }

  predicate Settled(s: Peers) {
    Start !in s.app
  }

  lemma SettledStays(s: Peers, leader: nat, p: nat, h: Hook)
    requires Settled(s) && Legal(s, h) && OneRequest([h], leader, p)
    ensures Settled(Next(s, h))
  {
    assert [h][0] == h;
  }

  /** An answer stays until the leader has adopted one. */
  lemma AnswerStays(s: Peers, leader: nat, p: nat, now: string, tried: set<Outcome>, h: Hook)
    requires Serving(s, leader, p, now, tried) && Legal(s, h) && OneRequest([h], leader, p) && leader != p
    requires Start in s.app && Done in s.units[p]
    ensures Settled(Next(s, h)) || Done in Next(s, h).units[p]
    ensures Collects(h, leader, p) ==> Settled(Next(s, h))
  {
    assert [h][0] == h;
    if h.PeerRelation? || h.UpdateStatus? {
      assert RestoreChecked(s, h.lead, h.refusal) == s;
      CoordinationServes(s, leader, p, now, tried, h.lead, h.order);
      if Collects(h, leader, p) {
        SomeoneDone(s, h.order, p);
      }
    }
  }

  lemma AttemptAnswers(s: Peers, leader: nat, p: nat, now: string, tried: set<Outcome>, h: Hook)
    requires Serving(s, leader, p, now, tried) && Legal(s, h) && OneRequest([h], leader, p)
    requires Start in s.app && Done !in s.units[p] && Answers(h, p)
    ensures Settled(Next(s, h)) || (leader != p && Done in Next(s, h).units[p])
  {
    assert [h][0] == h;
    assert RestoreChecked(s, h.lead, h.refusal) == s;
    CoordinationServes(s, leader, p, now, tried, h.lead, h.order);
    var c := Coordinated(s, h.lead, h.order);
    if Start in c.app {
      if leader == p {
        DirectResult(c, p, h.o, now);
      } else {
        AnswerIs(c, p, h.o);
      }
    }
  }

  /** The request is settled, or the needed hooks are still to come: hook i of the primary, unless it has answered,
      and hook j of another leader after that. */
  predicate OnItsWay(s: Peers, leader: nat, p: nat, hooks: seq<Hook>, i: int, j: int) {
    || Settled(s)
    || (&& p in s.units
        && (if i < 0 then leader != p && Done in s.units[p] else i < |hooks| && Answers(hooks[i], p))
        && (leader == p || (i < j && 0 <= j < |hooks| && Collects(hooks[j], leader, p))))
  }

  lemma OneHookOnItsWay(s: Peers, leader: nat, p: nat, now: string, tried: set<Outcome>, hooks: seq<Hook>, i: int,
                        j: int)
    returns (k: int)
    requires Serving(s, leader, p, now, tried) && hooks != [] && Legal(s, hooks[0]) && OneRequest([hooks[0]], leader, p)
    requires OnItsWay(s, leader, p, hooks, i, j)
    ensures OnItsWay(Next(s, hooks[0]), leader, p, hooks[1..], k, j - 1)
  {
    var h := hooks[0];
    k := i - 1;
    HookServes(s, leader, p, now, tried, h);
    if Settled(s) {
      SettledStays(s, leader, p, h);
    } else if Done in s.units[p] {
      assert leader != p;
      AnswerStays(s, leader, p, now, tried, h);
      k := -1;
      if !Settled(Next(s, h)) {
        assert j > 0 && hooks[1..][j - 1] == hooks[j];
      }
    } else if i == 0 {
      AttemptAnswers(s, leader, p, now, tried, h);
      k := -1;
      if !Settled(Next(s, h)) {
        assert hooks[1..][j - 1] == hooks[j];
      }
    } else {
      assert hooks[1..][i - 1] == hooks[i];
      assert leader != p ==> hooks[1..][j - 1] == hooks[j];
    }
  }

  lemma {:induction false} Arrives(s: Peers, leader: nat, p: nat, now: string, tried: set<Outcome>, hooks: seq<Hook>,
                                   i: int, j: int)
    requires Serving(s, leader, p, now, tried) && LegalRun(s, hooks) && OneRequest(hooks, leader, p)
    requires OnItsWay(s, leader, p, hooks, i, j)
    ensures Settled(Run(s, hooks))
    decreases |hooks|
  {
    if hooks != [] {
      assert OneRequest([hooks[0]], leader, p);
      var k := OneHookOnItsWay(s, leader, p, now, tried, hooks, i, j);
      HookServes(s, leader, p, now, tried, hooks[0]);
      Arrives(Next(s, hooks[0]), leader, p, now, tried + Tried([hooks[0]], p), hooks[1..], k, j - 1);
    }
  }

  /** Delivery: any schedule in which the primary makes an attempt that comes to an end, and another leader looks at
      its databag later, settles the request with the result of an attempt made after it. */
  lemma RequestIsDelivered(s: Peers, leader: nat, p: nat, now: string, first: Outcome, hooks: seq<Hook>, i: int, j: int)
    requires Inv(s) && NoLeftover(s) && leader in s.units && p in s.units && now != "" && Worded(first)
    requires var asked := CredentialsChanged(s, leader, true, leader == p, true, now, first);
             LegalRun(asked, hooks) && OneRequest(hooks, leader, p)
    requires 0 <= i < |hooks| && Answers(hooks[i], p)
    requires leader == p || (i < j < |hooks| && Collects(hooks[j], leader, p))
    ensures var asked := CredentialsChanged(s, leader, true, leader == p, true, now, first);
            IsResult(Run(asked, hooks).app, s.name, Tried(hooks, p) + if leader == p then {first} else {}, leader == p)
  {
    var asked := CredentialsChanged(s, leader, true, leader == p, true, now, first);
    AskedServes(s, leader, p, now, first);
    Arrives(asked, leader, p, now, if leader == p then {first} else {}, hooks, i, j);
    RequestGetsOwnResult(s, leader, p, now, first, hooks);
  }

  lemma {:induction false} RunKeepsName(s: Peers, hooks: seq<Hook>)
    requires LegalRun(s, hooks)
    ensures Run(s, hooks).name == s.name
    decreases |hooks|
  {
    if hooks != [] {
      RunKeepsName(Next(s, hooks[0]), hooks[1..]);
    }
  }

  // ----- a restore that cannot use the repository -----

  /** A refused repository after a restore, found by the leader's status or peer hook, leaves nothing but the message
      in the application databag, the request included; the same finding in another unit changes nothing there. */
  lemma RefusalBlocks(s: Peers, h: Hook)
    requires Legal(s, h) && (h.UpdateStatus? || h.PeerRelation?) && h.refusal.Some?
    ensures h.lead ==> Next(s, h) == s.(app := map[Block := h.refusal.value])
    ensures !h.lead ==> Legal(s, h.(refusal := None)) && Next(s, h) == Next(s, h.(refusal := None))
  {
    if h.lead {
      var app := RestoreChecked(s, true, h.refusal).app;
      NothingLeft(app - {Block});
      assert app == (app - {Block})[Block := h.refusal.value];
    }
  }

  /** An attempt of another unit that fails leaves its message for the leader in the same hook, whatever the
      application databag holds besides the request. */
  lemma FailureWaitsForLeader(s: Peers, h: Hook)
    requires Legal(s, h) && h.PeerRelation? && !h.lead && h.primary && Start in s.app && Done !in s.units[h.u]
    requires h.o.Refused? || h.o.CheckFailed?
    ensures Next(s, h).app == s.app
    ensures var bag := Next(s, h).units[h.u];
            && Block in bag && bag[Block] == h.o.message && Done in bag && Stanza !in bag
    ensures forall v :: v in s.units && v != h.u ==> Next(s, h).units[v] == s.units[v]
  {
  }

  // ----- removing the credentials -----

  /** The hook that finds the credentials gone empties the databag of its unit and, in the leader, the one of the
      application, whatever they held, and touches no other unit. */
  lemma GoneClears(s: Peers, u: nat, lead: bool)
    requires u in s.units
    ensures var d := Next(s, Gone(u, lead));
            && d.name == s.name && d.units == s.units[u := map[]]
            && d.app == if lead then map[] else s.app
  {
    Cleared(s.units[u]);
    Cleared(s.app);
  }

  /** Every unit runs that hook, at least one of them as the leader, and no other hook comes in between. */
  predicate AllGone(s: Peers, hooks: seq<Hook>) {
    && (forall i :: 0 <= i < |hooks| ==> hooks[i].Gone? && hooks[i].u in s.units)
    && (forall u :: u in s.units ==> exists i :: 0 <= i < |hooks| && hooks[i].u == u)
    && (exists i :: 0 <= i < |hooks| && hooks[i].lead)
  }

  lemma {:induction false} GoneRun(s: Peers, hooks: seq<Hook>)
    requires forall i :: 0 <= i < |hooks| ==> hooks[i].Gone? && hooks[i].u in s.units
    ensures LegalRun(s, hooks)
    ensures var d := Run(s, hooks);
            && d.name == s.name && d.units.Keys == s.units.Keys
            && (forall u :: u in s.units ==>
                  d.units[u] == if exists i :: 0 <= i < |hooks| && hooks[i].u == u then map[] else s.units[u])
            && d.app == if exists i :: 0 <= i < |hooks| && hooks[i].lead then map[] else s.app
    decreases |hooks|
  {
    if hooks != [] {
      var h, rest := hooks[0], hooks[1..];
      GoneClears(s, h.u, h.lead);
      GoneRun(Next(s, h), rest);
      assert forall i :: 0 < i < |hooks| ==> hooks[i] == rest[i - 1];
    }
  }

  /** Then nothing is left of the old credentials. */
  lemma GoneLeavesNothing(s: Peers, hooks: seq<Hook>)
    requires s.name != "" && AllGone(s, hooks)
    ensures LegalRun(s, hooks) && Untouched(Run(s, hooks))
    ensures Run(s, hooks).name == s.name && Run(s, hooks).units.Keys == s.units.Keys
  {
    GoneRun(s, hooks);
  }

  /** So the next request never gets an old result, whatever state the removal found. */
  lemma RequestAfterRemoval(s: Peers, gone: seq<Hook>, leader: nat, p: nat, now: string, first: Outcome,
                            hooks: seq<Hook>)
    requires s.name != "" && AllGone(s, gone) && LegalRun(s, gone)
    requires leader in s.units && p in s.units && now != "" && Worded(first)
    requires leader in Run(s, gone).units
    requires var asked := CredentialsChanged(Run(s, gone), leader, true, leader == p, true, now, first);
             LegalRun(asked, hooks) && OneRequest(hooks, leader, p)
    ensures var asked := CredentialsChanged(Run(s, gone), leader, true, leader == p, true, now, first);
            var app := Run(asked, hooks).app;
            app == map[Start := now]
            || IsResult(app, s.name, Tried(hooks, p) + if leader == p then {first} else {}, leader == p)
  {
    GoneLeavesNothing(s, gone);
    RequestGetsOwnResult(Run(s, gone), leader, p, now, first, hooks);
  }
}
