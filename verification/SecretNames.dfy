/** Names that carry their meaning: labels of relation secrets, and internal names of peer secrets. */
module SecretNames {
  import opened Databags
  import opened Strings
  import opened SecretCache
  import opened Timestamps

  function GroupName(g: Group): string {
    match g
    case User => "user"
    case Tls => "tls"
    case Mtls => "mtls"
    case Entity => "entity"
    case Extra => "extra"
  }

  function GroupNamed(name: string): Option<Group> {
    if name == "user" then Some(User)
    else if name == "tls" then Some(Tls)
    else if name == "mtls" then Some(Mtls)
    else if name == "entity" then Some(Entity)
    else if name == "extra" then Some(Extra)
    else None
  }

  // ----- numbers -----

  function Decimal(n: nat): (s: string)
    ensures s != "" && AllDigits(s)
  {
    if n < 10 then ["0123456789"[n]] else Decimal(n / 10) + ["0123456789"[n % 10]]
  }

  lemma {:induction false} NumberOfDecimal(n: nat)
    ensures Number(Decimal(n)) == n
  {
    if n < 10 {
      AppendDigit("", n);
      assert "" + ["0123456789"[n]] == Decimal(n);
    } else {
      NumberOfDecimal(n / 10);
      AppendDigit(Decimal(n / 10), n % 10);
    }
  }

  // ----- labels of relation secrets -----

  function SecretLabel(relation: string, id: nat, g: Group): string {
    relation + "." + Decimal(id) + "." + GroupName(g) + ".secret"
  }

  /** The relation's name and id, unless the label has too few pieces or no number where the id belongs. */
  function RelationOf(name: string): Option<(string, nat)> {
    var parts := Split(name, '.');
    var n := |parts|;
    if n < 3 then None
    else if parts[n - 3] == "" || !AllDigits(parts[n - 3]) then None
    else Some((Join(parts[..n - 3], '.'), Number(parts[n - 3])))
  }

  lemma LabelPieces(relation: string, num: string, grp: string)
    requires '.' !in num && '.' !in grp
    ensures Split(relation + "." + num + "." + grp + ".secret", '.') == Split(relation, '.') + [num, grp, "secret"]
  {
    OneMorePiece(relation, num);
    OneMorePiece(relation + "." + num, grp);
    OneMorePiece(relation + "." + num + "." + grp, "secret");
    assert relation + "." + num + "." + grp + ".secret" == relation + "." + num + "." + grp + "." + "secret";
  }

  lemma OneMorePiece(s: string, piece: string)
    requires '.' !in piece
    ensures Split(s + "." + piece, '.') == Split(s, '.') + [piece]
  {
    SplitWhole(piece, '.');
    SplitAt(s, piece, '.');
  }

  /** Any text of at least three pieces with a number third from the end is read as a label, whatever the other two
      pieces are; with exactly three the relation has no name. */
  lemma LabelIsRead(relation: string, num: string, a: string, b: string)
    requires '.' !in num && '.' !in a && '.' !in b && num != "" && AllDigits(num)
    ensures RelationOf(relation + "." + num + "." + a + "." + b) == Some((relation, Number(num)))
    ensures RelationOf(num + "." + a + "." + b) == Some(("", Number(num)))
  {
    OneMorePiece(relation, num);
    OneMorePiece(relation + "." + num, a);
    OneMorePiece(relation + "." + num + "." + a, b);
    var parts := Split(relation + "." + num + "." + a + "." + b, '.');
    assert parts == Split(relation, '.') + [num, a, b];
    assert parts[..|parts| - 3] == Split(relation, '.');
    JoinSplit(relation, '.');
    SplitWhole(num, '.');
    OneMorePiece(num, a);
    OneMorePiece(num + "." + a, b);
    assert Split(num + "." + a + "." + b, '.') == [num, a, b];
  }

  lemma {:induction false} JoinOneMore(parts: seq<string>, piece: string, sep: char)
    requires parts != []
    ensures Join(parts + [piece], sep) == Join(parts, sep) + [sep] + piece
  {
    if |parts| > 1 {
      JoinOneMore(parts[1..], piece, sep);
      assert (parts + [piece])[1..] == parts[1..] + [piece];
    }
  }

  /** And nothing else is. */
  lemma OnlyLabelsAreRead(name: string) returns (num: string, a: string, b: string)
    requires RelationOf(name).Some?
    ensures num != "" && AllDigits(num) && RelationOf(name).value.1 == Number(num)
    ensures var relation := RelationOf(name).value.0;
            name == relation + "." + num + "." + a + "." + b || (relation == "" && name == num + "." + a + "." + b)
  {
    var parts := Split(name, '.');
    var n := |parts|;
    var init := parts[..n - 3];
    num, a, b := parts[n - 3], parts[n - 2], parts[n - 1];
    JoinSplit(name, '.');
    assert parts == init + [num] + [a] + [b];
    JoinOneMore(init + [num] + [a], b, '.');
    JoinOneMore(init + [num], a, '.');
    if init == [] {
      assert init + [num] == [num];
    } else {
      JoinOneMore(init, num, '.');
    }
  }

  lemma GroupNamedIff(name: string, g: Group)
    ensures GroupNamed(name) == Some(g) <==> name == GroupName(g)
  {
  }

  /** A generated label leads back to its relation, dots in the relation's name included. */
  lemma LabelLeadsBack(relation: string, id: nat, g: Group)
    ensures RelationOf(SecretLabel(relation, id, g)) == Some((relation, id))
  {
    LabelPieces(relation, Decimal(id), GroupName(g));
    var parts := Split(SecretLabel(relation, id, g), '.');
    assert parts[..|parts| - 3] == Split(relation, '.');
    JoinSplit(relation, '.');
    NumberOfDecimal(id);
  }

  /** Labels are equal only for the same relation and the same group. */
  lemma LabelsAreDistinct(relation: string, id: nat, g: Group, relation': string, id': nat, g': Group)
    ensures SecretLabel(relation, id, g) == SecretLabel(relation', id', g')
            <==> (relation == relation' && id == id' && g == g')
  {
    LabelLeadsBack(relation, id, g);
    LabelLeadsBack(relation', id', g');
    GroupLeadsBack(relation, id, g);
    GroupLeadsBack(relation', id', g');
  }

  lemma GroupLeadsBack(relation: string, id: nat, g: Group)
    ensures var parts := Split(SecretLabel(relation, id, g), '.');
            |parts| >= 2 && GroupNamed(parts[|parts| - 2]) == Some(g)
  {
    LabelPieces(relation, Decimal(id), GroupName(g));
  }

  // ----- internal names of peer secrets -----

  function InternalName(field: string, g: Group): string {
    if g == Extra then field else field + "@" + GroupName(g)
  }

  /** The field and group behind an internal name, unless it names an unknown group. */
  function FieldOf(name: string): Option<(string, Group)> {
    var parts := Split(name, '@');
    if |parts| <= 1 then Some((parts[0], Extra))
    else
      match GroupNamed(parts[1])
      case None => None
      case Some(g) => Some((parts[0], g))
  }

  /** An internal name leads back to its field and group exactly when the field is free of the separator. */
  lemma NameLeadsBack(field: string, g: Group)
    ensures FieldOf(InternalName(field, g)) == Some((field, g)) <==> '@' !in field
    ensures InternalName(field, g) == field <==> g == Extra
  {
    if '@' !in field {
      SplitWhole(field, '@');
      SplitWhole(GroupName(g), '@');
      SplitAt(field, GroupName(g), '@');
    } else {
      FirstPieceIsFree(InternalName(field, g), '@');
    }
  }

  lemma {:induction false} FirstPieceIsFree(s: string, sep: char)
    ensures sep !in Split(s, sep)[0]
  {
    if s != "" {
      FirstPieceIsFree(s[1..], sep);
    }
  }
}
