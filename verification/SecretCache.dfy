/** Juju secrets, one per group of fields, and the cache the charm reads them through. */
module SecretCache {
  import opened Databags

  datatype Group = User | Tls | Mtls | Entity | Extra

  type Content = map<string, string>

  /** The owner's view of its secrets within one relation; a label stands for its group. */
  class Cache {
    /** What Juju stores. Juju does not accept empty secrets. */
    var juju: map<Group, Content>
    /** The CachedSecret objects; an empty content has not been fetched yet. */
    var cached: map<Group, Content>

    predicate Valid()
      reads this
    {
      && (forall g :: g in juju ==> juju[g] != map[])
      && (forall g :: g in cached ==> g in juju && (cached[g] == map[] || cached[g] == juju[g]))
    }

    constructor (juju: map<Group, Content>)
      requires forall g :: g in juju ==> juju[g] != map[]
      ensures Valid() && this.juju == juju && cached == map[]
    {
      this.juju := juju;
      cached := map[];
    }

    /** Every hook starts with an empty cache. */
    method NewHook()
      requires Valid()
      modifies this`cached
      ensures Valid() && cached == map[]
    {
      cached := map[];
    }

    method Get(g: Group) returns (found: bool)
      requires Valid()
      modifies this`cached
      ensures Valid() && (found <==> g in juju) && (found <==> g in cached)
    {
      if g !in cached && g in juju {
        cached := cached[g := map[]];
      }
      found := g in cached;
    }

    method GetContent(g: Group) returns (content: Content)
      requires Valid() && g in cached
      modifies this`cached
      ensures Valid() && g in cached && g in juju && content == juju[g]
    {
      if cached[g] == map[] {
        cached := cached[g := juju[g]];
      }
      content := cached[g];
    }

    method Add(g: Group, content: Content) returns (added: bool)
      requires Valid() && content != map[]
      modifies this
      ensures Valid() && (added <==> g !in old(juju))
      ensures juju == if added then old(juju)[g := content] else old(juju)
    {
      if g in cached || g in juju {
        return false;
      }
      juju := juju[g := content];
      cached := cached[g := map[]];
      added := true;
    }

    /** Setting nothing at all drops the secret but leaves the cached copy behind. */
    method SetContent(g: Group, content: Content)
      requires Valid() && g in cached
      modifies this
      ensures content != map[] ==> Valid() && juju == old(juju)[g := content]
      ensures content == map[] ==> juju == old(juju) - {g} && g in cached
    {
      var current := GetContent(g);
      if content == current {
        assert juju == juju[g := content];
        return;
      }
      if content != map[] {
        juju := juju[g := content];
        cached := cached[g := content];
      } else {
        juju := juju - {g};
      }
    }

    method Remove(g: Group)
      requires Valid()
      modifies this
      ensures Valid() && juju == old(juju) - {g}
    {
      var found := Get(g);
      if found {
        juju := juju - {g};
        cached := cached - {g};
      }
    }
  }
}
