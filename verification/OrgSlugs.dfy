/** What every handler keeps about the slugs of organizations: they are distinct, and
    well formed unless the store lets an update blank them. */
module OrgSlugs {
  import opened OrgTables
  import opened OrgHandlers

  ghost predicate DistinctSlugs(orgs: map<Id, string>)
  {
    forall a, b :: a in orgs && b in orgs && orgs[a] == orgs[b] ==> a == b
  }

  ghost predicate SlugsOk(cfg: Config, orgs: map<Id, string>)
  {
    && DistinctSlugs(orgs)
    && forall org :: org in orgs ==> SlugOk(orgs[org]) || (orgs[org] == "" && !cfg.keepsSlug)
  }

  lemma PutSlugKeeps(cfg: Config, orgs: map<Id, string>, org: Id, slug: string)
    requires SlugsOk(cfg, orgs) && (SlugOk(slug) || (slug == "" && !cfg.keepsSlug))
    requires forall o :: o in orgs && orgs[o] == slug ==> o == org
    ensures SlugsOk(cfg, orgs[org := slug])
  {
  }

  lemma CreateKeepsSlugs(cfg: Config, t: Tables, user: Id, name: string, slug: string)
    requires SlugsOk(cfg, t.orgs)
    ensures SlugsOk(cfg, Create(cfg, t, user, name, slug).0.orgs)
  {
    if CheckCreate(cfg, t, user, name, slug).Done? {
      PutSlugKeeps(cfg, t.orgs, cfg.gen(t.next), cfg.lower(slug));
    }
  }

  lemma UpdateKeepsSlugs(cfg: Config, t: Tables, user: Id, org: Id, slug: string)
    requires SlugsOk(cfg, t.orgs)
    ensures SlugsOk(cfg, Update(cfg, t, user, org, slug).0.orgs)
  {
    if CheckUpdate(cfg, t, user, org, slug).Done? {
      PutSlugKeeps(cfg, t.orgs, org, NewSlug(cfg, t.orgs[org], slug));
    }
  }

  lemma DeleteKeepsSlugs(cfg: Config, t: Tables, user: Id, org: Id)
    requires SlugsOk(cfg, t.orgs)
    ensures SlugsOk(cfg, Delete(cfg, t, user, org).0.orgs)
  {
    assert SlugsOk(cfg, Dissolve(t, org).orgs);
  }

  /** An update blanks the slug exactly if it names none, the store takes that at its word,
      and no organization is without a slug yet; if one is, it is refused. */
  lemma UpdateMayBlankSlug(cfg: Config, t: Tables, user: Id, org: Id, slug: string)
    requires SlugsOk(cfg, t.orgs) && org != "" && org in t.orgs && t.orgs[org] != ""
    requires MayDo(cfg, t, org, user, Ask("organization", "update"))
    ensures var (t', reply) := Update(cfg, t, user, org, slug);
            && (t'.orgs[org] == "" <==> slug == "" && !cfg.keepsSlug && forall o :: o in t.orgs ==> t.orgs[o] != "")
            && (slug == "" ==> (reply.Refused? <==> !cfg.keepsSlug && exists o :: o in t.orgs && t.orgs[o] == ""))
  {
  }

}
