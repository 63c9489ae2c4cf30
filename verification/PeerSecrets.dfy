/** The charm's own secrets in its peer relation: named values behind a translated field name, kept in one
    Juju secret in which a removed field stays behind with a marker, and legacy plain copies in the databag. */
module PeerSecrets {
  import opened Databags
  import opened SecretCache

  const DELETED := "None"

  // ----- field names -----

  function Dashed(key: string): string {
    seq(|key|, i requires 0 <= i < |key| => if key[i] == '_' then '-' else key[i])
  }

  function StripLeft(s: string): (r: string)
    ensures r == [] || r[0] != '-'
    ensures (s == [] || s[0] != '-') ==> r == s
  {
    if s != [] && s[0] == '-' then StripLeft(s[1..]) else s
  }

  function StripRight(s: string): (r: string)
    ensures r == [] || r[|r| - 1] != '-'
    ensures r <= s
    ensures (s == [] || s[|s| - 1] != '-') ==> r == s
  {
    if s != [] && s[|s| - 1] == '-' then StripRight(s[..|s| - 1]) else s
  }

  function Translate(key: string): string {
    StripRight(StripLeft(Dashed(if key == "ca" then "cauth" else key)))
  }

  /** A key that already has the form of a secret field. */
  predicate Clean(key: string) {
    '_' !in key && (key != [] ==> key[0] != '-' && key[|key| - 1] != '-')
  }

  lemma {:induction false} StrippedLeft(s: string) returns (n: nat)
    ensures n <= |s| && StripLeft(s) == s[n..] && forall i :: 0 <= i < n ==> s[i] == '-'
  {
    n := 0;
    if s != [] && s[0] == '-' {
      n := StrippedLeft(s[1..]);
      n := n + 1;
      assert forall i :: 0 < i < n ==> s[i] == s[1..][i - 1];
    }
  }

  lemma {:induction false} StrippedRight(s: string)
    ensures var r := StripRight(s); forall i :: |r| <= i < |s| ==> s[i] == '-'
  {
    if s != [] && s[|s| - 1] == '-' {
      StrippedRight(s[..|s| - 1]);
    }
  }

  /** The field of a key: its characters with a dash for every underscore, without the dashes at both ends. */
  lemma TranslateIs(key: string) returns (front: nat)
    requires key != "ca"
    ensures var r := Translate(key);
            && Clean(r) && front + |r| <= |key|
            && (forall i :: 0 <= i < |r| ==> r[i] == if key[front + i] == '_' then '-' else key[front + i])
            && forall i :: 0 <= i < |key| && !(front <= i < front + |r|) ==> key[i] == '_' || key[i] == '-'
    ensures Translate("ca") == "cauth"
  {
    var dashed := Dashed(key);
    front := StrippedLeft(dashed);
    var left, r := StripLeft(dashed), Translate(key);
    StrippedRight(left);
    assert r == left[..|r|];
    assert forall i :: 0 <= i < |left| ==> left[i] == dashed[front + i];
    assert r != [] ==> r[0] == left[0];
    forall i | 0 <= i < |key| && !(front <= i < front + |r|) ensures key[i] == '_' || key[i] == '-' {
      if i >= front {
        assert left[i - front] == '-';
      }
      assert dashed[i] == '-';
    }
    assert Translate("ca") == "cauth" by {
      CleanIsFixed("cauth");
    }
  }

  /** The field of every key. */
  function Names(keys: set<string>): map<string, string> {
    map k | k in keys :: Translate(k)
  }

  /** No two keys share a field, no key is the field of another one, and no field names a secret group. */
  predicate NoClash(names: map<string, string>) {
    && (forall k :: k in names ==> '@' !in names[k])
    && (forall k, l :: k in names && l in names && k != l ==> names[k] != names[l] && names[k] != l)
  }

  lemma CleanIsFixed(key: string)
    requires Clean(key) && key != "ca"
    ensures Translate(key) == key
  {
    assert Dashed(key) == key;
  }

  /** Keys in field form never clash, even together with the overridden "ca". */
  lemma CleanKeysDoNotClash(keys: set<string>)
    requires forall k :: k in keys ==> Clean(k) && '@' !in k && k != "cauth"
    ensures NoClash(Names(keys))
  {
    CleanIsFixed("cauth");
    assert Translate("ca") == Translate("cauth");
    forall k | k in keys ensures Translate(k) == if k == "ca" then "cauth" else k {
      if k != "ca" {
        CleanIsFixed(k);
      }
    }
  }

  // ----- the plain map the users of these operations see -----

  datatype Op = Set(key: string, value: string) | Remove(key: string) | NewHook

  /** `legacy` lists the keys with an old plain copy; these copies win over the secret until set again. */
  datatype Visible = Visible(legacy: set<string>, values: map<string, string>)

  function Dropped(v: Visible, k: string): Visible {
    if k in v.legacy then v else v.(values := v.values - {k})
  }

  function After(v: Visible, op: Op): Visible {
    match op
    case Set(k, x) =>
      if x == "" then Dropped(v, k)
      else Visible(v.legacy - {k}, if x == DELETED then v.values - {k} else v.values[k := x])
    case Remove(k) => Dropped(v, k)
    case NewHook => v
  }

  function AfterAll(v: Visible, ops: seq<Op>): Visible
    decreases |ops|
  {
    if ops == [] then v else After(AfterAll(v, ops[..|ops| - 1]), ops[|ops| - 1])
  }

  predicate Touches(op: Op, k: string) {
    (op.Set? || op.Remove?) && op.key == k
  }

  /** What the last operation on `k` says it should hold now. */
  function LastSet(ops: seq<Op>, k: string, initially: Option<string>): Option<string>
    decreases |ops|
  {
    if ops == [] then initially
    else
      var op := ops[|ops| - 1];
      if !Touches(op, k) then LastSet(ops[..|ops| - 1], k, initially)
      else if op.Set? && op.value != "" && op.value != DELETED then Some(op.value)
      else None
  }

  /** Without a legacy copy, a key holds the last value set and not removed since. */
  lemma {:induction false} LastValueWins(v: Visible, ops: seq<Op>, k: string)
    requires k !in v.legacy
    ensures k !in AfterAll(v, ops).legacy
    ensures Lookup(AfterAll(v, ops).values, k) == LastSet(ops, k, Lookup(v.values, k))
    decreases |ops|
  {
    if ops != [] {
      LastValueWins(v, ops[..|ops| - 1], k);
    }
  }

  /** A legacy copy makes a difference exactly until the key is set for the first time: as long as no operation
      sets it, removing it has no effect. */
  lemma {:induction false} LegacyCopyStays(v: Visible, ops: seq<Op>, k: string)
    requires k in v.legacy
    ensures k in AfterAll(v, ops).legacy
            <==> forall i :: 0 <= i < |ops| ==> !(ops[i].Set? && ops[i].key == k && ops[i].value != "")
    ensures k in AfterAll(v, ops).legacy ==> Lookup(AfterAll(v, ops).values, k) == Lookup(v.values, k)
    decreases |ops|
  {
    if ops != [] {
      var init := ops[..|ops| - 1];
      LegacyCopyStays(v, init, k);
      assert forall i :: 0 <= i < |init| ==> init[i] == ops[i];
    }
  }

  // ----- the stores -----

  function WithoutMarker(content: Content): Content {
    map f | f in content && content[f] != DELETED :: content[f]
  }

  /** The secret holds nothing but fields of the keys, and no field has a plain copy. */
  predicate Fits(names: map<string, string>, databag: Content, content: Content, newSecrets: set<string>) {
    && NoClash(names)
    && (forall k :: k in names ==> names[k] !in databag && (k in databag ==> databag[k] != ""))
    && (forall f :: f in content ==> f in names.Values)
    && newSecrets <= content.Keys
  }

  function Seen(names: map<string, string>, databag: Content, content: Content): Visible {
    Visible(set k | k in names && k in databag,
            map k | k in names && (k in databag || names[k] in WithoutMarker(content)) ::
              if k in databag then databag[k] else content[names[k]])
  }

  /** What is seen of one key. */
  function SeenOf(key: string, field: string, databag: Content, content: Content): Option<string> {
    if key in databag then Some(databag[key]) else Lookup(WithoutMarker(content), field)
  }

  lemma LookupSeen(names: map<string, string>, databag: Content, content: Content, k: string)
    ensures Lookup(Seen(names, databag, content).values, k)
            == if k in names then SeenOf(k, names[k], databag, content) else None
  {
  }

  lemma SameLookups(m: map<string, string>, n: map<string, string>)
    requires forall k: string :: Lookup(m, k) == Lookup(n, k)
    ensures m == n
  {
    forall k: string ensures (k in m <==> k in n) && (k in m ==> m[k] == n[k]) {
      assert Lookup(m, k) == Lookup(n, k);
    }
  }

  function Written(values: map<string, string>, key: string, value: string): map<string, string> {
    if value == DELETED then values - {key} else values[key := value]
  }

  lemma SeenAfterWrite(names: map<string, string>, databag: Content, content: Content, key: string, value: string)
    requires NoClash(names) && key in names && names[key] !in databag
    ensures Seen(names, databag - {key} - {names[key]}, content[names[key] := value])
            == var v := Seen(names, databag, content); Visible(v.legacy - {key}, Written(v.values, key, value))
  {
    var bag, next := databag - {key} - {names[key]}, content[names[key] := value];
    assert bag == databag - {key};
    var v, after := Seen(names, databag, content), Seen(names, bag, next);
    assert after.legacy == v.legacy - {key};
    forall k: string ensures Lookup(after.values, k) == Lookup(Written(v.values, key, value), k) {
      LookupSeen(names, databag, content, k);
      LookupSeen(names, bag, next, k);
      if k in names && k != key {
        OtherField(names, content, key, value, k);
      }
    }
    SameLookups(after.values, Written(v.values, key, value));
  }

  lemma OtherField(names: map<string, string>, content: Content, key: string, value: string, k: string)
    requires NoClash(names) && key in names && k in names && k != key
    ensures names[k] in WithoutMarker(content[names[key] := value]) <==> names[k] in WithoutMarker(content)
    ensures names[k] in content ==> content[names[key] := value][names[k]] == content[names[k]]
  {
  }

  lemma SeenAfterMark(names: map<string, string>, databag: Content, content: Content, key: string)
    requires NoClash(names) && key in names
    ensures Seen(names, databag, content[names[key] := DELETED]) == Dropped(Seen(names, databag, content), key)
  {
    var next := content[names[key] := DELETED];
    var v, after := Seen(names, databag, content), Seen(names, databag, next);
    forall k: string ensures Lookup(after.values, k) == Lookup(Dropped(v, key).values, k) {
      LookupSeen(names, databag, content, k);
      LookupSeen(names, databag, next, k);
      if k in names && k != key {
        OtherField(names, content, key, DELETED, k);
      }
    }
    SameLookups(after.values, Dropped(v, key).values);
  }

  /** Marking a current field, or leaving the secret alone when the field is not current, drops the key. */
  lemma SeenAfterRemove(names: map<string, string>, databag: Content, content: Content, newSecrets: set<string>,
                        key: string)
    requires Fits(names, databag, content, newSecrets) && key in names
    ensures var current := WithoutMarker(content).Keys + newSecrets;
            var next := if names[key] in current then content[names[key] := DELETED] else content;
            && Fits(names, databag, next, newSecrets)
            && Seen(names, databag, next) == Dropped(Seen(names, databag, content), key)
  {
    if names[key] in WithoutMarker(content).Keys + newSecrets {
      SeenAfterMark(names, databag, content, key);
      FitsAfterWrite(names, databag, content, newSecrets, key, DELETED);
    } else {
      var v := Seen(names, databag, content);
      assert key !in databag ==> v.values - {key} == v.values;
    }
  }

  lemma FitsAfterWrite(names: map<string, string>, databag: Content, content: Content, newSecrets: set<string>,
                       key: string, value: string)
    requires Fits(names, databag, content, newSecrets) && key in names
    ensures Fits(names, databag - {key} - {names[key]}, content[names[key] := value], newSecrets)
    ensures Fits(names, databag - {key} - {names[key]}, content[names[key] := value], newSecrets + {names[key]})
    ensures Fits(names, databag, content[names[key] := value], newSecrets)
  {
    assert names[key] in names.Values;
  }

  /** Writing the field of a key, with both plain copies gone, is setting the key. */
  lemma SeenAfterSet(names: map<string, string>, databag: Content, content: Content, newSecrets: set<string>,
                     key: string, value: string,
                     nowBag: Content, nowContent: Content, nowNew: set<string>)
    requires Fits(names, databag, content, newSecrets) && key in names && value != ""
    requires nowBag == databag - {key} - {names[key]} && nowContent == content[names[key] := value]
    requires nowNew == newSecrets || nowNew == newSecrets + {names[key]}
    ensures Fits(names, nowBag, nowContent, nowNew)
    ensures Seen(names, nowBag, nowContent) == After(Seen(names, databag, content), Set(key, value))
  {
    FitsAfterWrite(names, databag, content, newSecrets, key, value);
    SeenAfterWrite(names, databag, content, key, value);
  }

  /** Why keys must not clash: setting one of two keys with the same field sets the other one too. */
  lemma SharedFieldLeaks(names: map<string, string>, databag: Content, content: Content, key: string, other: string,
                         value: string)
    requires key in names && other in names && names[key] == names[other] && other !in databag && value != DELETED
    ensures Lookup(Seen(names, databag - {key}, content[names[key] := value]).values, other) == Some(value)
  {
    assert names[other] in WithoutMarker(content[names[key] := value]);
  }

  /** The raw key and its field are two different lookups, of which only the field can be in the secret. */
  lemma RawKeyIsPlain(names: map<string, string>, databag: Content, content: Content, newSecrets: set<string>,
                      key: string)
    requires Fits(names, databag, content, newSecrets) && key in names
    ensures names[key] !in databag
    ensures key in content ==> key == names[key]
    ensures forall f :: f in content ==> f !in databag
  {
    if key in content {
      assert key in names.Values;
    }
  }

  /** One scope of the peer data as the unit that owns it uses it: the unit scope in any unit, the application
      scope in the leader only, since elsewhere its writes are dropped. */
  class Peer {
    const leader: bool
    /** The keys in use, each with its field. */
    ghost const names: map<string, string>
    const secrets: Cache
    var databag: Content
    /** Secret fields added by the running hook. */
    var newSecrets: set<string>

    ghost predicate Valid()
      reads this, secrets
    {
      Sound() && names == Names(names.Keys)
    }

    ghost predicate Sound()
      reads this, secrets
    {
      secrets.Valid() && secrets.juju.Keys <= {Extra} && Fits(names, databag, Content(), newSecrets)
    }

    function Content(): Content
      reads secrets
    {
      if Extra in secrets.juju then secrets.juju[Extra] else map[]
    }

    /** The field names that count as secret ones right now. */
    function Current(): set<string>
      reads this, secrets
    {
      WithoutMarker(Content()).Keys + newSecrets
    }

    ghost function View(): Visible
      reads this, secrets
    {
      Seen(names, databag, Content())
    }

    /** The content of the secret without deleted fields; no names at all mean every field. */
    method GroupContents(fields: set<string>) returns (contents: Content)
      requires secrets.Valid()
      modifies secrets`cached
      ensures secrets.Valid()
      ensures contents == map f | f in WithoutMarker(Content()) && (fields == {} || f in fields) :: Content()[f]
    {
      contents := map[];
      var found := secrets.Get(Extra);
      if found {
        var data := secrets.GetContent(Extra);
        contents := WithoutMarker(map f | f in data && (fields == {} || f in fields) :: data[f]);
      }
    }

    method CurrentFields() returns (fields: set<string>)
      requires secrets.Valid()
      modifies secrets`cached
      ensures secrets.Valid() && fields == Current()
    {
      var contents := GroupContents({});
      assert contents == WithoutMarker(Content());
      fields := contents.Keys + newSecrets;
    }

    predicate StaysOnDatabag(secretFields: set<string>)
      reads this
    {
      leader && exists f :: f in secretFields && f in databag
    }

    method FetchField(field: string) returns (value: Option<string>)
      requires secrets.Valid()
      modifies secrets`cached
      ensures secrets.Valid()
      ensures !StaysOnDatabag(Current()) && field in WithoutMarker(Content()) ==> value == Some(Content()[field])
      ensures StaysOnDatabag(Current()) || field !in WithoutMarker(Content()) ==> value == Lookup(databag, field)
    {
      var secretFields := CurrentFields();
      var result: Content := map[];
      var normal := {field};
      if secretFields != {} && !(leader && exists f :: f in secretFields && f in databag) {
        normal := normal - secretFields;
        if field in secretFields {
          var contents := GroupContents({field});
          if contents != map[] {
            result := contents;
          } else {
            normal := normal + {field};
          }
        }
      }
      if field in normal && field in databag {
        result := result[field := databag[field]];
      }
      value := if field in result then Some(result[field]) else None;
    }

    /** Writes into the secret, creating it when there is none. */
    method UpdateSecret(content: Content, mayAdd: bool) returns (ok: bool)
      requires secrets.Valid() && content != map[]
      modifies secrets
      ensures secrets.Valid()
      ensures ok <==> mayAdd || Extra in old(secrets.juju)
      ensures secrets.juju == if ok then old(secrets.juju)[Extra := old(Content()) + content] else old(secrets.juju)
    {
      var found := secrets.Get(Extra);
      if found {
        var data := secrets.GetContent(Extra);
        var f :| f in content;
        assert f in data + content;
        secrets.SetContent(Extra, data + content);
        ok := true;
      } else if mayAdd {
        assert map[] + content == content;
        ok := secrets.Add(Extra, content);
      } else {
        ok := false;
      }
    }

    /** Values move from the databag to the secret on the first write. */
    method DropPlainCopy(field: string)
      requires secrets.Valid()
      modifies this`databag, secrets`cached
      ensures secrets.Valid()
      ensures databag == if field in Current() then old(databag) - {field} else old(databag)
    {
      var secretFields := CurrentFields();
      if field in secretFields {
        databag := databag - {field};
      }
    }

    /** The update proper: secret fields go to the secret, everything else to the databag. */
    method StoreField(field: string, value: string)
      requires secrets.Valid() && '@' !in field
      modifies this`databag, secrets
      ensures secrets.Valid()
      ensures !old(StaysOnDatabag(Current())) && field in old(Current())
              ==> databag == old(databag) && secrets.juju == old(secrets.juju)[Extra := old(Content())[field := value]]
      ensures old(StaysOnDatabag(Current())) || field !in old(Current())
              ==> databag == Update(old(databag), map[field := value]) && secrets.juju == old(secrets.juju)
    {
      var secretFields := CurrentFields();
      var normal := {field};
      if secretFields != {} && !(leader && exists f :: f in secretFields && f in databag) {
        normal := normal - secretFields;
        if field in secretFields {
          assert field in map[field := value];
          assert Content() + map[field := value] == Content()[field := value];
          var stored := UpdateSecret(map[field := value], true);
          if !stored {
            normal := normal + {field};
          }
        }
      }
      if field in normal {
        databag := Update(databag, map[field := value]);
      }
    }

    method UpdateField(field: string, value: string)
      requires secrets.Valid() && '@' !in field
      modifies this`databag, secrets
      ensures secrets.Valid()
      ensures !old(StaysOnDatabag(Current() - {field})) && field in old(Current())
              ==> databag == old(databag) - {field}
                  && secrets.juju == old(secrets.juju)[Extra := old(Content())[field := value]]
      ensures old(StaysOnDatabag(Current() - {field})) || field !in old(Current())
              ==> databag == Update(old(databag) - if field in old(Current()) then {field} else {}, map[field := value])
                  && secrets.juju == old(secrets.juju)
    {
      DropPlainCopy(field);
      assert field in Current() ==> (StaysOnDatabag(Current()) <==> old(StaysOnDatabag(Current() - {field})));
      StoreField(field, value);
    }

    /** Secrets cannot lose fields, so a deleted one gets the marker as its value. */
    method DeleteField(field: string)
      requires secrets.Valid() && '@' !in field
      modifies this`databag, secrets
      ensures secrets.Valid()
      ensures !old(StaysOnDatabag(Current())) && field in old(Current()) && Extra in old(secrets.juju)
              ==> databag == old(databag)
                  && secrets.juju == old(secrets.juju)[Extra := old(Content())[field := DELETED]]
      ensures old(StaysOnDatabag(Current())) || field !in old(Current()) || Extra !in old(secrets.juju)
              ==> databag == old(databag) - {field} && secrets.juju == old(secrets.juju)
    {
      var secretFields := CurrentFields();
      var normal := {field};
      if secretFields != {} && !(leader && exists f :: f in secretFields && f in databag) {
        normal := normal - secretFields;
        if field in secretFields {
          assert field in map[field := DELETED];
          assert Content() + map[field := DELETED] == Content()[field := DELETED];
          var stored := UpdateSecret(map[field := DELETED], false);
          if !stored {
            normal := normal + {field};
          }
        }
      }
      if field in normal {
        databag := databag - {field};
      }
    }

    method SetPeerSecret(field: string, value: string)
      requires secrets.Valid() && '@' !in field
      modifies this, secrets
      ensures secrets.Valid()
      ensures newSecrets == if field in old(Current()) then old(newSecrets) else old(newSecrets) + {field}
      ensures !old(StaysOnDatabag(Current() - {field}))
              ==> databag == old(databag) - {field}
                  && secrets.juju == old(secrets.juju)[Extra := old(Content())[field := value]]
      ensures old(StaysOnDatabag(Current() - {field}))
              ==> databag == Update(old(databag) - {field}, map[field := value]) && secrets.juju == old(secrets.juju)
    {
      DropPlainCopy(field);
      var secretFields := CurrentFields();
      if field !in secretFields {
        newSecrets := newSecrets + {field};
      }
      assert Current() - {field} == old(Current()) - {field};
      UpdateField(field, value);
    }

    method GetPeerSecret(field: string) returns (value: Option<string>)
      requires secrets.Valid() && '@' !in field
      modifies secrets`cached
      ensures secrets.Valid()
      ensures value == if field !in Current() then None
                       else if !StaysOnDatabag(Current()) && field in WithoutMarker(Content())
                       then Some(Content()[field])
                       else Lookup(databag, field)
    {
      var secretFields := CurrentFields();
      if field !in secretFields {
        return None;
      }
      value := FetchField(field);
    }

    // ----- the charm's accessors -----

    constructor (leader: bool, ghost keys: set<string>, databag: Content)
      requires NoClash(Names(keys))
      requires forall k :: k in keys ==> Translate(k) !in databag && (k in databag ==> databag[k] != "")
      ensures Valid() && this.leader == leader && names.Keys == keys && this.databag == databag
      ensures Content() == map[] && newSecrets == {}
    {
      this.leader, this.databag := leader, databag;
      names := Names(keys);
      newSecrets := {};
      secrets := new Cache(map[]);
    }

    method StartHook()
      requires Valid()
      modifies this`newSecrets, secrets`cached
      ensures Valid() && View() == old(View())
    {
      newSecrets := {};
      secrets.NewHook();
    }

    lemma NothingStaysOnDatabag(key: string)
      requires Sound() && key in names
      ensures !StaysOnDatabag(Current())
      ensures key in Content() ==> key == names[key]
    {
      RawKeyIsPlain(names, databag, Content(), newSecrets, key);
    }

    /** The value seen for a key, the old plain copy first; the marker never shows. */
    method GetSecret(key: string) returns (value: Option<string>)
      requires Valid() && key in names
      modifies secrets`cached
      ensures Valid() && View() == old(View())
      ensures value == Lookup(View().values, key)
    {
      var field := Translate(key);
      value := ReadKey(key, field);
    }

    method ReadKey(key: string, field: string) returns (value: Option<string>)
      requires Sound() && key in names && names[key] == field
      modifies secrets`cached
      ensures Sound() && View() == old(View())
      ensures value == Lookup(View().values, key)
    {
      NothingStaysOnDatabag(key);
      var plain := FetchField(key);
      if plain.Some? && plain.value != "" {
        return plain;
      }
      NothingStaysOnDatabag(key);
      value := GetPeerSecret(field);
    }

    method SetSecret(key: string, value: string)
      requires Valid() && key in names
      modifies this, secrets
      ensures Valid()
      ensures View() == After(old(View()), Set(key, value))
    {
      if value == "" {
        RemoveSecret(key);
        return;
      }
      var field := Translate(key);
      WriteKey(key, field, value);
    }

    /** Drops the old plain copy and writes the secret. */
    method WriteKey(key: string, field: string, value: string)
      requires Sound() && key in names && names[key] == field && value != ""
      modifies this, secrets
      ensures Sound()
      ensures View() == After(old(View()), Set(key, value))
    {
      NothingStaysOnDatabag(key);
      databag := databag - {key};
      assert !StaysOnDatabag(Current() - {field});
      SetPeerSecret(field, value);
      assert Content() == old(Content())[field := value];
      SeenAfterSet(names, old(databag), old(Content()), old(newSecrets), key, value, databag, Content(), newSecrets);
    }

    method RemoveSecret(key: string)
      requires Valid() && key in names
      modifies this, secrets
      ensures Valid()
      ensures View() == After(old(View()), Remove(key))
    {
      var field := Translate(key);
      RemoveKey(key, field);
    }

    method RemoveKey(key: string, field: string)
      requires Sound() && key in names && names[key] == field
      modifies this`databag, secrets
      ensures Sound()
      ensures View() == After(old(View()), Remove(key))
    {
      NothingStaysOnDatabag(key);
      SeenAfterRemove(names, databag, Content(), newSecrets, key);
      ghost var content := if field in Current() then Content()[field := DELETED] else Content();
      DeleteField(field);
      assert Content() == content;
      assert databag == old(databag);
    }

    /** Any sequence of these operations acts on the plain map. */
    method Replay(ops: seq<Op>)
      requires Valid() && forall i :: 0 <= i < |ops| ==> ops[i].NewHook? || ops[i].key in names
      modifies this, secrets
      ensures Valid()
      ensures View() == AfterAll(old(View()), ops)
    {
      for i := 0 to |ops|
        invariant Valid()
        invariant View() == AfterAll(old(View()), ops[..i])
      {
        assert ops[..i + 1][..i] == ops[..i];
        match ops[i] {
          case Set(k, x) => SetSecret(k, x);
          case Remove(k) => RemoveSecret(k);
          case NewHook => StartHook();
        }
      }
      assert ops[..|ops|] == ops;
    }
  }
}
