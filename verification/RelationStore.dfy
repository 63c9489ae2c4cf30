/** Relation data of a secrets-owning application, split between a plain databag and one secret per
    group of fields, used as if it were one map. */
module RelationStore {
  import opened Databags
  import opened SecretCache
  import opened Sequences

  /** The assignment of fields to groups; every statement below holds for any of them. */
  type Labels = map<string, Group>
  type Secrets = map<Group, Content>

  /** Fields nobody assigned to a group live in the "extra" secret. */
  function GroupOf(labels: Labels, field: string): Group {
    if field in labels then labels[field] else Extra
  }

  function Groups(labels: Labels, fields: set<string>): set<Group> {
    set f | f in fields :: GroupOf(labels, f)
  }

  function Restrict(m: Content, fields: set<string>): Content {
    map k | k in m && k in fields :: m[k]
  }

  /** The pairs of `data` among the secret fields that belong to this group. */
  function ContentFor(labels: Labels, data: Content, secretFields: set<string>, g: Group): Content {
    map k | k in data && k in secretFields && GroupOf(labels, k) == g :: data[k]
  }

  /** Of all the secrets, exactly this one has the field, with this value. */
  predicate Holds(secrets: Secrets, home: Group, k: string, value: string) {
    && home in secrets && k in secrets[home] && secrets[home][k] == value
    && forall g :: g in secrets && g != home ==> k !in secrets[g]
  }

  predicate InSecret(labels: Labels, secrets: Secrets, k: string) {
    GroupOf(labels, k) in secrets && k in secrets[GroupOf(labels, k)]
  }

  /** Each secret is a nonempty selection of requested fields, each of them assigned to its group. */
  predicate Sorted(labels: Labels, requested: set<string>, secrets: Secrets) {
    forall g :: g in secrets ==> secrets[g] != map[] && forall k :: k in secrets[g] ==>
        k in requested && g == if k in labels then labels[k] else Extra
  }

  /** The one map that the two stores stand for. */
  function Together(labels: Labels, requested: set<string>, databag: Content, secrets: Secrets): Content {
    map k | k in databag.Keys + requested && (k in databag || InSecret(labels, secrets, k)) ::
      if k in databag then databag[k] else secrets[GroupOf(labels, k)][k]
  }

  /** Writing `data` into one plain map: an empty value deletes a field, unless it is a secret one. */
  function Override(m: Content, data: Content, secret: set<string>): Content {
    map k | k in m.Keys + data.Keys && (k in data && k !in secret ==> data[k] != "") ::
      if k in data then data[k] else m[k]
  }

  // ----- updates -----

  function Merged(secrets: Secrets, g: Group, content: Content): Content {
    if g in secrets then secrets[g] + content else content
  }

  /** The secrets after the given groups have taken their part of `data`. */
  function Updated(labels: Labels, secrets: Secrets, data: Content, secretFields: set<string>,
                   groups: set<Group>): Secrets {
    map g | g in secrets.Keys + groups ::
      if g in groups then Merged(secrets, g, ContentFor(labels, data, secretFields, g)) else secrets[g]
  }

  lemma UpdatedSorted(labels: Labels, requested: set<string>, secrets: Secrets,
                      data: Content, secretFields: set<string>, groups: set<Group>)
    requires Sorted(labels, requested, secrets) && secretFields <= requested && secretFields <= data.Keys
    requires groups <= Groups(labels, secretFields)
    ensures Sorted(labels, requested, Updated(labels, secrets, data, secretFields, groups))
  {
    var after := Updated(labels, secrets, data, secretFields, groups);
    forall g | g in after ensures after[g] != map[] {
      if g in groups {
        var f :| f in secretFields && GroupOf(labels, f) == g;
        assert f in after[g];
      }
    }
  }

  /** Where a secret field ends up once all groups have taken their part. */
  lemma UpdatedAt(labels: Labels, requested: set<string>, secrets: Secrets, data: Content, k: string)
    requires k in requested
    ensures var secretFields := data.Keys * requested;
            var after := Updated(labels, secrets, data, secretFields, Groups(labels, secretFields));
            && (InSecret(labels, after, k) <==> k in data || InSecret(labels, secrets, k))
            && (InSecret(labels, after, k) ==>
                  after[GroupOf(labels, k)][k] == if k in data then data[k] else secrets[GroupOf(labels, k)][k])
  {
    if k in data {
      assert GroupOf(labels, k) in Groups(labels, data.Keys * requested);
    }
  }

  /** Reading the two stores after an update that the groups have taken entirely. */
  lemma UpdateRefines(labels: Labels, requested: set<string>, databag: Content, secrets: Secrets, data: Content)
    requires forall k :: k in requested ==> k !in databag
    ensures var secretFields := data.Keys * requested;
            Together(labels, requested, Update(databag, Restrict(data, data.Keys - requested)),
                     Updated(labels, secrets, data, secretFields, Groups(labels, secretFields)))
            == Override(Together(labels, requested, databag, secrets), data, requested)
  {
    var secretFields := data.Keys * requested;
    var plain := Restrict(data, data.Keys - requested);
    var newBag := Update(databag, plain);
    var newSecrets := Updated(labels, secrets, data, secretFields, Groups(labels, secretFields));
    var after := Together(labels, requested, newBag, newSecrets);
    var before := Together(labels, requested, databag, secrets);
    var expected := Override(before, data, requested);
    forall k: string
      ensures k in after <==> k in expected
      ensures k in after ==> after[k] == expected[k]
    {
      if k in requested {
        UpdatedAt(labels, requested, secrets, data, k);
        assert k !in plain && k !in newBag;
      } else {
        assert k in plain <==> k in data;
      }
    }
  }

  lemma DatabagRefines(labels: Labels, requested: set<string>, databag: Content, data: Content)
    ensures Together(labels, requested, Update(databag, data), map[])
            == Override(Together(labels, requested, databag, map[]), data, {})
  {
  }

  /** One more group takes its part. */
  lemma UpdatedStep(labels: Labels, secrets: Secrets, data: Content, secretFields: set<string>, groups: set<Group>,
                    g: Group)
    requires g !in groups
    ensures var so := Updated(labels, secrets, data, secretFields, groups);
            so[g := Merged(so, g, ContentFor(labels, data, secretFields, g))]
            == Updated(labels, secrets, data, secretFields, groups + {g})
  {
    var so := Updated(labels, secrets, data, secretFields, groups);
    assert g in so <==> g in secrets;
    assert g in so ==> so[g] == secrets[g];
  }

  /** Every written field is where it belongs: a requested one in the secret of the group it is assigned to, or in
      "extra", and nowhere else; any other one in the databag, unless it was emptied. Other databag fields stay. */
  ghost predicate Filed(labels: Labels, requested: set<string>, before: Content, databag: Content, secrets: Secrets,
                        data: Content) {
    && (forall k :: k in data && k in requested ==>
          k !in databag && Holds(secrets, if k in labels then labels[k] else Extra, k, data[k]))
    && (forall k :: k in data && k !in requested ==>
          Lookup(databag, k) == if data[k] == "" then None else Some(data[k]))
    && (forall k :: k !in data ==> Lookup(databag, k) == Lookup(before, k))
  }

  /** The secrets keep everything that is not written. */
  ghost predicate KeepOthers(before: Secrets, after: Secrets, written: set<string>) {
    forall g, k :: k !in written ==> Holding(after, g, k) == Holding(before, g, k)
  }

  function Holding(secrets: Secrets, g: Group, k: string): Option<string> {
    if g in secrets then Lookup(secrets[g], k) else None
  }

  lemma UpdateReachesHome(labels: Labels, requested: set<string>, secrets: Secrets, data: Content, k: string)
    requires Sorted(labels, requested, secrets) && k in data && k in requested
    ensures var after := Updated(labels, secrets, data, data.Keys * requested, Groups(labels, data.Keys * requested));
            Holds(after, if k in labels then labels[k] else Extra, k, data[k])
  {
    var groups := Groups(labels, data.Keys * requested);
    assert k in data.Keys * requested && GroupOf(labels, k) in groups;
    UpdatedSorted(labels, requested, secrets, data, data.Keys * requested, groups);
    var after := Updated(labels, secrets, data, data.Keys * requested, groups);
    var home := GroupOf(labels, k);
    assert k in ContentFor(labels, data, data.Keys * requested, home);
    assert k in after[home] && after[home][k] == data[k];
  }

  lemma UpdateFiles(labels: Labels, requested: set<string>, databag: Content, secrets: Secrets, data: Content,
                    after: Secrets, nowBag: Content)
    requires Sorted(labels, requested, secrets) && forall k :: k in requested ==> k !in databag
    requires nowBag == Update(databag, Restrict(data, data.Keys - requested))
    requires forall k :: k in data && k in requested ==>
               Holds(after, if k in labels then labels[k] else Extra, k, data[k])
    ensures Filed(labels, requested, databag, nowBag, after, data)
  {
    var plain := Restrict(data, data.Keys - requested);
    assert forall k :: k in plain <==> k in data && k !in requested;
  }

  /** The references grow by exactly the groups of the written secret fields. */
  lemma UpdateRefers(labels: Labels, requested: set<string>, secrets: Secrets, data: Content)
    ensures var after := Updated(labels, secrets, data, data.Keys * requested, Groups(labels, data.Keys * requested));
            var homes := set k | k in data && k in requested :: if k in labels then labels[k] else Extra;
            after.Keys == secrets.Keys + homes && KeepOthers(secrets, after, data.Keys * requested)
  {
    var groups := Groups(labels, data.Keys * requested);
    var homes := set k | k in data && k in requested :: if k in labels then labels[k] else Extra;
    forall g ensures g in groups <==> g in homes {
      if g in groups {
        var k :| k in data.Keys * requested && GroupOf(labels, k) == g;
        assert k in data && k in requested;
      }
      if g in homes {
        var k :| k in data && k in requested && g == if k in labels then labels[k] else Extra;
        assert k in data.Keys * requested && GroupOf(labels, k) == g;
      }
    }
  }

  /** All of that about the two stores after an update. */
  lemma UpdateDone(labels: Labels, requested: set<string>, databag: Content, secrets: Secrets, data: Content,
                   nowBag: Content, now: Secrets)
    requires Sorted(labels, requested, secrets) && forall k :: k in requested ==> k !in databag
    requires nowBag == Update(databag, Restrict(data, data.Keys - requested))
    requires now == Updated(labels, secrets, data, data.Keys * requested, Groups(labels, data.Keys * requested))
    ensures Sorted(labels, requested, now) && forall k :: k in requested ==> k !in nowBag
    ensures Together(labels, requested, nowBag, now)
            == Override(Together(labels, requested, databag, secrets), data, requested)
    ensures Filed(labels, requested, databag, nowBag, now, data)
    ensures KeepOthers(secrets, now, data.Keys * requested)
    ensures now.Keys == secrets.Keys + set k | k in data && k in requested :: if k in labels then labels[k] else Extra
  {
    UpdateRefines(labels, requested, databag, secrets, data);
    UpdatedSorted(labels, requested, secrets, data, data.Keys * requested, Groups(labels, data.Keys * requested));
    forall k | k in data && k in requested
      ensures Holds(now, if k in labels then labels[k] else Extra, k, data[k])
    {
      UpdateReachesHome(labels, requested, secrets, data, k);
    }
    UpdateFiles(labels, requested, databag, secrets, data, now, nowBag);
    UpdateRefers(labels, requested, secrets, data);
  }

  lemma NoSecretsDone(labels: Labels, requested: set<string>, databag: Content, data: Content, nowBag: Content)
    requires requested == {} && nowBag == Update(databag, data)
    ensures Together(labels, requested, nowBag, map[])
            == Override(Together(labels, requested, databag, map[]), data, requested)
    ensures Filed(labels, requested, databag, nowBag, map[], data)
    ensures (set k | k in data && k in requested :: if k in labels then labels[k] else Extra) == {}
  {
    assert Restrict(data, data.Keys - requested) == data;
    UpdateDone(labels, requested, databag, map[], data, nowBag, map[]);
  }

  // ----- reads -----

  /** What the secrets of these groups say about `fields`. */
  function Found(labels: Labels, secrets: Secrets, fields: set<string>, groups: set<Group>): Content {
    map k | k in fields && GroupOf(labels, k) in groups && InSecret(labels, secrets, k) ::
        secrets[GroupOf(labels, k)][k]
  }

  /** One more group is read. */
  lemma FoundStep(labels: Labels, requested: set<string>, secrets: Secrets, fields: set<string>, groups: set<Group>,
                  g: Group)
    requires Sorted(labels, requested, secrets)
    ensures Found(labels, secrets, fields, groups + {g})
            == Found(labels, secrets, fields, groups) + if g in secrets then Restrict(secrets[g], fields) else map[]
  {
    var more := Found(labels, secrets, fields, groups + {g});
    var held: Content := if g in secrets then Restrict(secrets[g], fields) else map[];
    var both := Found(labels, secrets, fields, groups) + held;
    forall k: string
      ensures k in more <==> k in both
      ensures k in more ==> more[k] == both[k]
    {
      assert k in held <==> g in secrets && k in secrets[g] && k in fields;
      assert k in held ==> GroupOf(labels, k) == g;
    }
  }

  lemma FetchRefines(labels: Labels, requested: set<string>, databag: Content, secrets: Secrets, fields: set<string>,
                     left: set<string>)
    requires forall k :: k in requested ==> k !in databag
    requires forall k :: k in left ==> k in requested
    ensures var secretFields := fields * requested;
            Found(labels, secrets, secretFields, Groups(labels, secretFields))
            + Restrict(databag, fields - requested + left)
            == Restrict(Together(labels, requested, databag, secrets), fields)
  {
    var secretFields := fields * requested;
    forall k | k in secretFields ensures GroupOf(labels, k) in Groups(labels, secretFields) {}
  }

  // ----- deletions -----

  function Elements(fields: seq<string>): set<string> {
    set f | f in fields
  }

  /** The secret of this group exists and lets every listed field be popped in turn. */
  predicate Poppable(secrets: Secrets, g: Group, fields: seq<string>) {
    g in secrets && NoDuplicates(fields) && Elements(fields) <= secrets[g].Keys
  }

  function Popped(secrets: Secrets, g: Group, fields: seq<string>): Content
    requires g in secrets
  {
    if Poppable(secrets, g, fields) then secrets[g] - Elements(fields) else secrets[g]
  }

  /** The secrets after the given groups tried to drop `fields`; an emptied secret is gone. */
  function AfterPops(secrets: Secrets, groups: set<Group>, fields: seq<string>): Secrets {
    map g | g in secrets && (g in groups ==> Popped(secrets, g, fields) != map[]) ::
      if g in groups then Popped(secrets, g, fields) else secrets[g]
  }

  function Unpopped(labels: Labels, secrets: Secrets, groups: set<Group>, fields: seq<string>,
                    secretFields: set<string>): set<string> {
    set f | f in secretFields && GroupOf(labels, f) in groups && !Poppable(secrets, GroupOf(labels, f), fields)
  }

  /** All listed fields have a value in one and the same secret, and none is listed twice. */
  predicate OneSecret(labels: Labels, secrets: Secrets, fields: seq<string>) {
    fields != [] && Poppable(secrets, GroupOf(labels, fields[0]), fields)
  }

  /** The fields that a deletion really removes. */
  function Removed(labels: Labels, requested: set<string>, secrets: Secrets, fields: seq<string>): set<string> {
    if OneSecret(labels, secrets, fields) then Elements(fields) else Elements(fields) - requested
  }

  lemma PopStep(labels: Labels, secrets: Secrets, groups: set<Group>, fields: seq<string>, g: Group)
    requires g !in groups
    ensures var so := AfterPops(secrets, groups, fields);
            && (g in so <==> g in secrets) && (g in so ==> so[g] == secrets[g])
            && AfterPops(secrets, groups + {g}, fields)
               == if g !in secrets then so
                  else if Popped(secrets, g, fields) == map[] then so - {g} else so[g := Popped(secrets, g, fields)]
  {
  }

  /** With sorted secrets, only the group of the first listed field can be poppable. */
  lemma OnlyOneGroup(labels: Labels, requested: set<string>, secrets: Secrets, fields: seq<string>, g: Group)
    requires Sorted(labels, requested, secrets) && fields != [] && Poppable(secrets, g, fields)
    ensures OneSecret(labels, secrets, fields) && g == GroupOf(labels, fields[0]) && Elements(fields) <= requested
  {
    assert fields[0] in Elements(fields);
  }

  lemma PopsSorted(labels: Labels, requested: set<string>, secrets: Secrets, groups: set<Group>, fields: seq<string>)
    requires Sorted(labels, requested, secrets)
    ensures Sorted(labels, requested, AfterPops(secrets, groups, fields))
  {
  }

  /** Where one secret field stands after the deletion. */
  lemma PopsAt(labels: Labels, requested: set<string>, secrets: Secrets, fields: seq<string>, k: string)
    requires Sorted(labels, requested, secrets) && k in requested
    ensures var secretFields := Elements(fields) * requested;
            var after := AfterPops(secrets, Groups(labels, secretFields), fields);
            && (InSecret(labels, after, k)
                <==> InSecret(labels, secrets, k) && k !in Removed(labels, requested, secrets, fields))
            && (InSecret(labels, after, k) ==> after[GroupOf(labels, k)][k] == secrets[GroupOf(labels, k)][k])
  {
    var g := GroupOf(labels, k);
    var groups := Groups(labels, Elements(fields) * requested);
    if fields == [] {
    } else if g in secrets && Poppable(secrets, g, fields) {
      OnlyOneGroup(labels, requested, secrets, fields, g);
      assert fields[0] in Elements(fields) * requested;
      assert g in groups;
      assert k in secrets[g] && k !in Elements(fields) ==> k in Popped(secrets, g, fields);
    } else if OneSecret(labels, secrets, fields) {
      var only := GroupOf(labels, fields[0]);
      assert forall f :: f in Elements(fields) ==> f in secrets[only] && GroupOf(labels, f) == only;
      assert k !in Elements(fields);
    }
  }

  lemma DeleteRefines(labels: Labels, requested: set<string>, databag: Content, secrets: Secrets, fields: seq<string>)
    requires Sorted(labels, requested, secrets) && forall k :: k in requested ==> k !in databag
    ensures var secretFields := Elements(fields) * requested;
            var groups := Groups(labels, secretFields);
            Together(labels, requested,
                databag - (Elements(fields) - requested + Unpopped(labels, secrets, groups, fields, secretFields)),
                     AfterPops(secrets, groups, fields))
            == Together(labels, requested, databag, secrets) - Removed(labels, requested, secrets, fields)
  {
    var secretFields := Elements(fields) * requested;
    var groups := Groups(labels, secretFields);
    var newBag := databag - (Elements(fields) - requested + Unpopped(labels, secrets, groups, fields, secretFields));
    var after := Together(labels, requested, newBag, AfterPops(secrets, groups, fields));
    var expected := Together(labels, requested, databag, secrets) - Removed(labels, requested, secrets, fields);
    if fields != [] && OneSecret(labels, secrets, fields) {
      OnlyOneGroup(labels, requested, secrets, fields, GroupOf(labels, fields[0]));
    }
    forall k: string
      ensures k in after <==> k in expected
      ensures k in after ==> after[k] == expected[k]
    {
      if k in requested {
        PopsAt(labels, requested, secrets, fields, k);
      }
    }
  }

  lemma DeleteDone(labels: Labels, requested: set<string>, databag: Content, secrets: Secrets, fields: seq<string>,
                   left: set<string>, nowBag: Content, now: Secrets)
    requires Sorted(labels, requested, secrets) && forall k :: k in requested ==> k !in databag
    requires var groups := Groups(labels, Elements(fields) * requested);
             now == AfterPops(secrets, groups, fields)
             && left == Unpopped(labels, secrets, groups, fields, Elements(fields) * requested)
    requires nowBag == databag - (Elements(fields) - requested + left)
    ensures Sorted(labels, requested, now) && forall k :: k in requested ==> k !in nowBag
    ensures Together(labels, requested, nowBag, now)
            == Together(labels, requested, databag, secrets) - Removed(labels, requested, secrets, fields)
  {
    DeleteRefines(labels, requested, databag, secrets, fields);
    PopsSorted(labels, requested, secrets, Groups(labels, Elements(fields) * requested), fields);
  }

  lemma NoSecretsDeleted(labels: Labels, requested: set<string>, databag: Content, fields: seq<string>)
    ensures Together(labels, requested, databag - Elements(fields), map[])
            == Together(labels, requested, databag, map[]) - Elements(fields)
    ensures requested == {} ==> Removed(labels, requested, map[], fields) == Elements(fields)
  {
  }

  /** A deletion removes exactly the listed fields if and only if they all sit in one secret, each listed
      once, or none of the listed secret fields has a value. */
  lemma DeleteIsExact(labels: Labels, requested: set<string>, databag: Content, secrets: Secrets, fields: seq<string>)
    requires Sorted(labels, requested, secrets) && forall k :: k in requested ==> k !in databag
    ensures var view := Together(labels, requested, databag, secrets);
            view - Removed(labels, requested, secrets, fields) == view - Elements(fields)
            <==> OneSecret(labels, secrets, fields) || forall f :: f in fields && f in requested ==> f !in view
  {
    if !OneSecret(labels, secrets, fields) {
      KeepsRequested(Together(labels, requested, databag, secrets), requested, fields);
    }
  }

  /** Keeping the requested ones among the listed fields makes a difference exactly when one of them is there. */
  lemma KeepsRequested(view: Content, requested: set<string>, fields: seq<string>)
    ensures view - (Elements(fields) - requested) == view - Elements(fields)
            <==> forall f :: f in fields && f in requested ==> f !in view
  {
    var kept := view - (Elements(fields) - requested);
    if f :| f in fields && f in requested && f in view {
      assert f in kept && f !in view - Elements(fields);
    } else {
      assert kept == view - Elements(fields);
    }
  }

  /** The condition in terms of the secrets: nothing is listed twice and some secret has every listed field. A listed
      secret field is handed to the databag when, and only when, the condition fails. */
  lemma OneSecretMeans(labels: Labels, requested: set<string>, secrets: Secrets, fields: seq<string>)
    requires Sorted(labels, requested, secrets)
    ensures OneSecret(labels, secrets, fields)
            <==> && fields != [] && (forall i, j :: 0 <= i < j < |fields| ==> fields[i] != fields[j])
                 && exists g :: g in secrets && forall i :: 0 <= i < |fields| ==> fields[i] in secrets[g]
    ensures var secretFields := Elements(fields) * requested;
            Unpopped(labels, secrets, Groups(labels, secretFields), fields, secretFields)
            == if OneSecret(labels, secrets, fields) then {} else secretFields
  {
    var secretFields := Elements(fields) * requested;
    assert forall i :: 0 <= i < |fields| ==> fields[i] in Elements(fields);
    if fields != [] {
      forall g | Poppable(secrets, g, fields)
        ensures OneSecret(labels, secrets, fields) && g == GroupOf(labels, fields[0])
      {
        OnlyOneGroup(labels, requested, secrets, fields, g);
      }
      if OneSecret(labels, secrets, fields) {
        assert forall f :: f in secretFields ==> GroupOf(labels, f) == GroupOf(labels, fields[0]);
      } else if g :| NoDuplicates(fields) && g in secrets && forall i :: 0 <= i < |fields| ==> fields[i] in secrets[g] {
        assert Poppable(secrets, g, fields);
      }
    }
  }

  /** Deleting one field removes exactly that field. */
  lemma DeleteOne(labels: Labels, requested: set<string>, databag: Content, secrets: Secrets, f: string)
    requires Sorted(labels, requested, secrets) && forall k :: k in requested ==> k !in databag
    ensures var view := Together(labels, requested, databag, secrets);
            view - Removed(labels, requested, secrets, [f]) == view - {f}
  {
    DeleteIsExact(labels, requested, databag, secrets, [f]);
    assert Elements([f]) == {f};
    if f in requested && f in Together(labels, requested, databag, secrets) {
      assert InSecret(labels, secrets, f);
    }
  }

  /** A requested field of the one map sits in the secret of its group, and only there. */
  lemma SeenAtHome(labels: Labels, requested: set<string>, databag: Content, secrets: Secrets)
    requires Sorted(labels, requested, secrets) && forall k :: k in requested ==> k !in databag
    ensures var view := Together(labels, requested, databag, secrets);
            forall k :: k in view && k in requested ==>
                Holds(secrets, if k in labels then labels[k] else Extra, k, view[k])
  {
  }

  // ----- whole runs on the one map -----

  datatype Op = Write(data: Content) | Drop(field: string) | Hook

  function After(m: Content, secret: set<string>, op: Op): Content {
    match op
    case Write(data) => Override(m, data, secret)
    case Drop(field) => m - {field}
    case Hook => m
  }

  function AfterAll(m: Content, secret: set<string>, ops: seq<Op>): Content
    decreases |ops|
  {
    if ops == [] then m else After(AfterAll(m, secret, ops[..|ops| - 1]), secret, ops[|ops| - 1])
  }

  /** What the last operation that names `k` leaves there. */
  function LastWritten(ops: seq<Op>, secret: set<string>, k: string, initially: Option<string>): Option<string>
    decreases |ops|
  {
    if ops == [] then initially
    else
      var op := ops[|ops| - 1];
      if op.Write? && k in op.data then if op.data[k] == "" && k !in secret then None else Some(op.data[k])
      else if op.Drop? && op.field == k then None
      else LastWritten(ops[..|ops| - 1], secret, k, initially)
  }

  /** A field holds the last value written and not dropped since; fields no operation names keep theirs. */
  lemma {:induction false} LastWriteWins(m: Content, secret: set<string>, ops: seq<Op>, k: string)
    ensures Lookup(AfterAll(m, secret, ops), k) == LastWritten(ops, secret, k, Lookup(m, k))
    decreases |ops|
  {
    if ops != [] {
      LastWriteWins(m, secret, ops[..|ops| - 1], k);
    }
  }

  lemma KeepsSome(a: Content, b: Content)
    requires a != map[]
    ensures a + b != map[]
  {
    var k :| k in a;
    assert k in a + b;
  }

  /** Pops the fields one after the other, giving up at the first one missing. */
  method PopAll(content: Content, fields: seq<string>) returns (ok: bool, remaining: Content)
    ensures ok <==> NoDuplicates(fields) && Elements(fields) <= content.Keys
    ensures ok ==> remaining == content - Elements(fields)
  {
    remaining := content;
    for i := 0 to |fields|
      invariant NoDuplicates(fields[..i]) && Elements(fields[..i]) <= content.Keys
      invariant remaining == content - Elements(fields[..i])
    {
      assert fields[..i + 1] == fields[..i] + [fields[i]];
      if fields[i] !in remaining {
        if fields[i] in content {
          assert fields[i] in fields[..i];
        } else {
          assert fields[i] in Elements(fields);
        }
        return false, map[];
      }
      assert Elements(fields[..i + 1]) == Elements(fields[..i]) + {fields[i]};
      remaining := remaining - {fields[i]};
    }
    assert fields[..|fields|] == fields;
    ok := true;
  }

  class Store {
    const labels: Labels
    /** The fields the other side asked to keep in secrets. */
    const requested: set<string>
    const secrets: Cache
    /** The plain fields of the databag. */
    var databag: Content
    /** The "secret-<group>" references in the databag. */
    var uris: set<Group>

    predicate Valid()
      reads this, secrets
    {
      && secrets.Valid()
      && uris == secrets.juju.Keys
      && Sorted(labels, requested, secrets.juju)
      && (OnDatabag() ==> secrets.juju == map[])
    }

    /** The relation started before secrets were available: a requested field is in the databag. */
    predicate OnDatabag()
      reads this
    {
      exists k :: k in requested && k in databag
    }

    function View(): Content
      reads this, secrets
    {
      Together(labels, requested, databag, secrets.juju)
    }

    constructor (labels: Labels, requested: set<string>)
      ensures Valid() && View() == map[] && this.labels == labels && this.requested == requested
    {
      this.labels, this.requested := labels, requested;
      secrets := new Cache(map[]);
      databag := map[];
      uris := {};
    }

    method NewHook()
      requires Valid()
      modifies secrets`cached
      ensures Valid() && View() == old(View())
    {
      secrets.NewHook();
    }

    method AddOrUpdateSecret(g: Group, content: Content) returns (ok: bool)
      requires secrets.Valid() && uris == secrets.juju.Keys && content != map[]
      modifies this`uris, secrets
      ensures secrets.Valid() && uris == secrets.juju.Keys && ok
      ensures secrets.juju == old(secrets.juju)[g := Merged(old(secrets.juju), g, content)]
    {
      var found := secrets.Get(g);
      if found {
        var current := secrets.GetContent(g);
        KeepsSome(current, content);
        secrets.SetContent(g, current + content);
        return true;
      }
      if g in uris {
        return false;
      }
      ok := secrets.Add(g, content);
      uris := uris + {g};
    }

    /** Setting fields, secret or not, acts like overriding entries of the one map. */
    method UpdateRelationData(data: Content)
      requires Valid()
      modifies this`databag, this`uris, secrets
      ensures Valid() && (!old(OnDatabag()) ==> !OnDatabag())
      ensures View() == Override(old(View()), data, if old(OnDatabag()) then {} else requested)
      ensures old(OnDatabag()) ==>
                databag == Update(old(databag), data) && secrets.juju == old(secrets.juju) && uris == old(uris)
      ensures !old(OnDatabag()) ==>
                && Filed(labels, requested, old(databag), databag, secrets.juju, data)
                && KeepOthers(old(secrets.juju), secrets.juju, data.Keys * requested)
      ensures !old(OnDatabag()) ==>
                uris == old(uris) + set k | k in data && k in requested :: if k in labels then labels[k] else Extra
    {
      var normal := data.Keys;
      if requested == {} || exists k :: k in requested && k in databag {
        assert secrets.juju == map[];
        assert Restrict(data, data.Keys) == data;
        if requested == {} {
          NoSecretsDone(labels, requested, databag, data, Update(databag, data));
        } else {
          DatabagRefines(labels, requested, databag, data);
        }
      } else {
        normal := normal - requested;
        var left := UpdateSecrets(data, data.Keys * requested);
        normal := normal + left;
        assert normal == data.Keys - requested;
        UpdateDone(labels, requested, databag, old(secrets.juju), data, Update(databag, Restrict(data, normal)),
            secrets.juju);
      }
      databag := Update(databag, Restrict(data, normal));
    }

    /** Returns the fields that no secret took. */
    method UpdateSecrets(data: Content, secretFields: set<string>) returns (left: set<string>)
      requires secrets.Valid() && uris == secrets.juju.Keys && secretFields <= data.Keys
      modifies this`uris, secrets
      ensures secrets.Valid() && uris == secrets.juju.Keys
      ensures secrets.juju == Updated(labels, old(secrets.juju), data, secretFields, Groups(labels, secretFields))
      ensures left == {}
    {
      var groups := Groups(labels, secretFields);
      var pending := groups;
      left := {};
      ghost var start := secrets.juju;
      while pending != {}
        invariant secrets.Valid() && uris == secrets.juju.Keys && pending <= groups
        invariant secrets.juju == Updated(labels, start, data, secretFields, groups - pending) && left == {}
        decreases pending
      {
        var g :| g in pending;
        ghost var f :| f in secretFields && GroupOf(labels, f) == g;
        assert f in ContentFor(labels, data, secretFields, g);
        UpdatedStep(labels, start, data, secretFields, groups - pending, g);
        assert groups - (pending - {g}) == groups - pending + {g};
        var stored := AddOrUpdateSecret(g, ContentFor(labels, data, secretFields, g));
        if !stored {
          left := left + set f | f in secretFields && GroupOf(labels, f) == g;
        }
        pending := pending - {g};
      }
      assert groups - {} == groups;
    }

    method GroupContents(g: Group, fields: set<string>) returns (contents: Content)
      requires secrets.Valid()
      modifies secrets`cached
      ensures secrets.Valid()
      ensures contents == if g in secrets.juju then Restrict(secrets.juju[g], fields) else map[]
    {
      var found := secrets.Get(g);
      if !found {
        return map[];
      }
      var content := secrets.GetContent(g);
      contents := Restrict(content, fields);
    }

    /** Reading some fields, or all of them, is looking them up in the one map. */
    method FetchRelationData(fields: set<string>) returns (result: Content)
      requires Valid()
      modifies secrets`cached
      ensures Valid()
      ensures result == if fields == {} then View() else Restrict(View(), fields)
    {
      var wanted := if fields == {} then databag.Keys + requested else fields;
      var normal := wanted;
      result := map[];
      if requested == {} || exists k :: k in requested && k in databag {
        assert secrets.juju == map[];
      } else {
        var left;
        result, left := FetchSecrets(wanted * requested);
        normal := wanted - requested + left;
        FetchRefines(labels, requested, databag, secrets.juju, wanted, left);
      }
      result := result + Restrict(databag, normal);
      assert result == Restrict(View(), wanted);
    }

    /** The values the secrets hold, and the fields of the groups that held none of them. */
    method FetchSecrets(fields: set<string>) returns (found: Content, left: set<string>)
      requires secrets.Valid() && Sorted(labels, requested, secrets.juju)
      modifies secrets`cached
      ensures secrets.Valid()
      ensures found == Found(labels, secrets.juju, fields, Groups(labels, fields))
      ensures left <= fields
    {
      var groups := Groups(labels, fields);
      var pending := groups;
      found, left := map[], {};
      while pending != {}
        invariant secrets.Valid() && pending <= groups && left <= fields
        invariant found == Found(labels, secrets.juju, fields, groups - pending)
        decreases pending
      {
        var g :| g in pending;
        FoundStep(labels, requested, secrets.juju, fields, groups - pending, g);
        assert groups - (pending - {g}) == groups - pending + {g};
        var contents := GroupContents(g, fields);
        if contents != map[] {
          found := found + contents;
        } else {
          left := left + set f | f in fields && GroupOf(labels, f) == g;
        }
        pending := pending - {g};
      }
      assert groups - {} == groups;
    }

    /** Drops the listed fields from one secret, or leaves it alone when one of them is not there. */
    method DeleteFromSecret(g: Group, fields: seq<string>) returns (ok: bool)
      requires secrets.Valid() && uris == secrets.juju.Keys
      modifies this`uris, secrets
      ensures secrets.Valid() && uris == secrets.juju.Keys
      ensures ok <==> Poppable(old(secrets.juju), g, fields)
      ensures secrets.juju
              == if g !in old(secrets.juju) then old(secrets.juju)
                 else if Popped(old(secrets.juju), g, fields) == map[] then old(secrets.juju) - {g}
                 else old(secrets.juju)[g := Popped(old(secrets.juju), g, fields)]
    {
      var found := secrets.Get(g);
      if !found {
        return false;
      }
      var content := secrets.GetContent(g);
      assert secrets.juju == secrets.juju[g := content];
      var remaining;
      ok, remaining := PopAll(content, fields);
      if !ok {
        return;
      }
      if remaining == map[] {
        uris := uris - {g};
        secrets.Remove(g);
      } else {
        secrets.SetContent(g, remaining);
      }
    }

    /** Returns the fields of the groups whose secret was left alone. */
    method DeleteSecrets(fields: seq<string>, secretFields: set<string>) returns (left: set<string>)
      requires secrets.Valid() && uris == secrets.juju.Keys
      modifies this`uris, secrets
      ensures secrets.Valid() && uris == secrets.juju.Keys
      ensures secrets.juju == AfterPops(old(secrets.juju), Groups(labels, secretFields), fields)
      ensures left == Unpopped(labels, old(secrets.juju), Groups(labels, secretFields), fields, secretFields)
    {
      var groups := Groups(labels, secretFields);
      var pending := groups;
      left := {};
      ghost var start := secrets.juju;
      while pending != {}
        invariant secrets.Valid() && uris == secrets.juju.Keys && pending <= groups
        invariant secrets.juju == AfterPops(start, groups - pending, fields)
        invariant left == Unpopped(labels, start, groups - pending, fields, secretFields)
        decreases pending
      {
        var g :| g in pending;
        PopStep(labels, start, groups - pending, fields, g);
        assert groups - (pending - {g}) == groups - pending + {g};
        var ok := DeleteFromSecret(g, fields);
        if !ok {
          left := left + set f | f in secretFields && GroupOf(labels, f) == g;
        }
        pending := pending - {g};
      }
      assert groups - {} == groups;
    }

    /** Deleting fields removes them from the one map, unless some of them cannot be popped together. */
    method DeleteRelationData(fields: seq<string>)
      requires Valid()
      modifies this`databag, this`uris, secrets
      ensures Valid() && (!old(OnDatabag()) ==> !OnDatabag())
      ensures View() == old(View()) - if old(OnDatabag()) then Elements(fields)
                                      else Removed(labels, requested, old(secrets.juju), fields)
    {
      var normal := Elements(fields);
      if requested == {} || exists k :: k in requested && k in databag {
        assert secrets.juju == map[];
        NoSecretsDeleted(labels, requested, databag, fields);
      } else {
        var left := DeleteSecrets(fields, Elements(fields) * requested);
        normal := normal - requested + left;
        DeleteDone(labels, requested, databag, old(secrets.juju), fields, left, databag - normal, secrets.juju);
      }
      databag := databag - normal;
    }

    /** Any sequence of writes and single deletions, over any number of hooks, acts on the one map. */
    method Replay(ops: seq<Op>)
      requires Valid() && !OnDatabag()
      modifies this`databag, this`uris, secrets
      ensures Valid() && !OnDatabag()
      ensures View() == AfterAll(old(View()), requested, ops)
      ensures forall g, k :: g in secrets.juju && k in secrets.juju[g] ==>
                k in requested && g == if k in labels then labels[k] else Extra
      ensures forall k :: k in View() && k in requested ==>
                k !in databag && Holds(secrets.juju, if k in labels then labels[k] else Extra, k, View()[k])
      ensures uris == secrets.juju.Keys
    {
      for i := 0 to |ops|
        invariant Valid() && !OnDatabag()
        invariant View() == AfterAll(old(View()), requested, ops[..i])
      {
        assert ops[..i + 1][..i] == ops[..i];
        match ops[i] {
          case Write(data) => UpdateRelationData(data);
          case Drop(field) =>
            DeleteOne(labels, requested, databag, secrets.juju, field);
            DeleteRelationData([field]);
          case Hook => NewHook();
        }
      }
      assert ops[..|ops|] == ops;
      SeenAtHome(labels, requested, databag, secrets.juju);
    }
  }
}
