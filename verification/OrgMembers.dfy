/** What every handler keeps about members: one row for each organization and user,
    never more than the limit, and always somebody who holds the creator role. */
module OrgMembers {
  import opened Strings
  import opened RoleCodec
  import opened OrgTables
  import opened OrgHandlers

  ghost predicate MembersOk(cfg: Config, orgs: map<Id, string>, members: Members)
  {
    && (forall i, j :: i in members && j in members && members[i].org == members[j].org && members[i].user == members[j].user ==> i == j)
    && (forall org :: org in orgs ==> CreatorsOf(cfg, members, org) != {})
    && (forall org :: |MembersOf(members, org)| <= cfg.MembershipLimit())
  }

  /** No row outlives its organization. */
  ghost predicate AtHome(orgs: map<Id, string>, members: Members)
  {
    forall id :: id in members ==> members[id].org in orgs
  }

  lemma JoinSets(cfg: Config, members: Members, id: Id, m: Member, org: Id)
    requires id !in members
    ensures MembersOf(members[id := m], org) == MembersOf(members, org) + if org == m.org then {id} else {}
    ensures CreatorsOf(cfg, members[id := m], org) == CreatorsOf(cfg, members, org) + if org == m.org && IsCreator(cfg, m) then {id} else {}
  {
  }

  lemma LeaveSets(cfg: Config, members: Members, id: Id, org: Id)
    ensures MembersOf(members - {id}, org) == MembersOf(members, org) - {id}
    ensures CreatorsOf(cfg, members - {id}, org) == CreatorsOf(cfg, members, org) - {id}
  {
  }

  lemma RecastSets(cfg: Config, members: Members, id: Id, role: string, org: Id)
    requires id in members
    ensures var changed := members[id := members[id].(role := role)];
            && MembersOf(changed, org) == MembersOf(members, org)
            && CreatorsOf(cfg, changed, org) ==
               CreatorsOf(cfg, members, org) - {id} + if members[id].org == org && HasRole(role, cfg.CreatorRole()) then {id} else {}
  {
  }

  lemma JoinKeeps(cfg: Config, orgs: map<Id, string>, members: Members, id: Id, m: Member)
    requires MembersOk(cfg, orgs, members) && id !in members
    requires FindMember(members, m.org, m.user).None? && !MembersFull(cfg, members, m.org)
    ensures MembersOk(cfg, orgs, members[id := m])
  {
    var more := members[id := m];
    forall org ensures |MembersOf(more, org)| <= cfg.MembershipLimit() {
      JoinSets(cfg, members, id, m, org);
    }
    forall org | org in orgs ensures CreatorsOf(cfg, more, org) != {} {
      JoinSets(cfg, members, id, m, org);
    }
    forall i | i in members ensures !(members[i].org == m.org && members[i].user == m.user) {
      assert !IsMember(members, i, m.org, m.user);
    }
  }

  lemma FoundSets(cfg: Config, members: Members, org: Id, id: Id, user: Id, o: Id)
    requires id !in members && MembersOf(members, org) == {}
    requires HasRole(cfg.CreatorRole(), cfg.CreatorRole())
    ensures var more := members[id := Member(org, user, cfg.CreatorRole())];
            && MembersOf(more, o) == (if o == org then {id} else MembersOf(members, o))
            && CreatorsOf(cfg, more, o) == (if o == org then {id} else CreatorsOf(cfg, members, o))
  {
    JoinSets(cfg, members, id, Member(org, user, cfg.CreatorRole()), o);
    assert CreatorsOf(cfg, members, org) <= MembersOf(members, org);
  }

  lemma FoundKeeps(cfg: Config, orgs: map<Id, string>, members: Members, org: Id, slug: string, id: Id, user: Id)
    requires MembersOk(cfg, orgs, members) && AtHome(orgs, members) && org !in orgs && id !in members
    requires HasRole(cfg.CreatorRole(), cfg.CreatorRole())
    ensures MembersOk(cfg, orgs[org := slug], members[id := Member(org, user, cfg.CreatorRole())])
  {
    var more := members[id := Member(org, user, cfg.CreatorRole())];
    assert MembersOf(members, org) == {};
    forall o ensures |MembersOf(more, o)| <= cfg.MembershipLimit() {
      FoundSets(cfg, members, org, id, user, o);
    }
    var orgs' := orgs[org := slug];
    forall o | o in orgs' ensures CreatorsOf(cfg, more, o) != {} {
      FoundSets(cfg, members, org, id, user, o);
    }
  }

  lemma LeaveKeeps(cfg: Config, orgs: map<Id, string>, members: Members, id: Id)
    requires MembersOk(cfg, orgs, members) && id in members
    requires IsCreator(cfg, members[id]) ==> |CreatorsOf(cfg, members, members[id].org)| > 1
    ensures MembersOk(cfg, orgs, members - {id})
  {
    var fewer := members - {id};
    forall org ensures |MembersOf(fewer, org)| <= cfg.MembershipLimit() {
      LeaveSets(cfg, members, id, org);
    }
    forall org | org in orgs ensures CreatorsOf(cfg, fewer, org) != {} {
      LeaveSets(cfg, members, id, org);
      if id in CreatorsOf(cfg, members, org) {
        var other := AnotherOne(CreatorsOf(cfg, members, org), id);
      }
    }
  }

  lemma RecastLeavesCreator(cfg: Config, members: Members, id: Id, role: string, other: Id, org: Id)
    requires id in members && CreatorsOf(cfg, members, org) != {}
    requires IsCreator(cfg, members[id]) && !HasRole(role, cfg.CreatorRole()) ==>
               other != id && other in CreatorsOf(cfg, members, members[id].org)
    ensures CreatorsOf(cfg, members[id := members[id].(role := role)], org) != {}
  {
    RecastSets(cfg, members, id, role, org);
    var creators := CreatorsOf(cfg, members, org);
    if id in creators && !HasRole(role, cfg.CreatorRole()) {
      assert other in creators - {id};
    } else {
      var c :| c in creators;
    }
  }

  lemma RecastKeeps(cfg: Config, orgs: map<Id, string>, members: Members, id: Id, role: string, other: Id)
    requires MembersOk(cfg, orgs, members) && id in members
    requires IsCreator(cfg, members[id]) && !HasRole(role, cfg.CreatorRole()) ==>
               other != id && other in CreatorsOf(cfg, members, members[id].org)
    ensures MembersOk(cfg, orgs, members[id := members[id].(role := role)])
  {
    var changed := members[id := members[id].(role := role)];
    forall org ensures |MembersOf(changed, org)| <= cfg.MembershipLimit() {
      RecastSets(cfg, members, id, role, org);
    }
    forall org | org in orgs ensures CreatorsOf(cfg, changed, org) != {} {
      RecastLeavesCreator(cfg, members, id, role, other, org);
    }
  }

  lemma DissolveSets(cfg: Config, t: Tables, org: Id, o: Id)
    ensures var members := Dissolve(t, org).members;
            && MembersOf(members, o) == (if o == org then {} else MembersOf(t.members, o))
            && CreatorsOf(cfg, members, o) == (if o == org then {} else CreatorsOf(cfg, t.members, o))
  {
  }

  lemma DissolveKeeps(cfg: Config, t: Tables, org: Id)
    requires MembersOk(cfg, t.orgs, t.members)
    ensures MembersOk(cfg, Dissolve(t, org).orgs, Dissolve(t, org).members)
  {
    var t' := Dissolve(t, org);
    forall o ensures |MembersOf(t'.members, o)| <= cfg.MembershipLimit() {
      DissolveSets(cfg, t, org, o);
    }
    forall o | o in t'.orgs ensures CreatorsOf(cfg, t'.members, o) != {} {
      DissolveSets(cfg, t, org, o);
    }
  }

  lemma CreateKeepsMembers(cfg: Config, t: Tables, user: Id, name: string, slug: string)
    requires MembersOk(cfg, t.orgs, t.members) && AtHome(t.orgs, t.members)
    requires cfg.gen(t.next) !in t.orgs && cfg.gen(t.next + 1) !in t.members
    requires HasRole(cfg.CreatorRole(), cfg.CreatorRole())
    ensures var t' := Create(cfg, t, user, name, slug).0; MembersOk(cfg, t'.orgs, t'.members)
  {
    FoundKeeps(cfg, t.orgs, t.members, cfg.gen(t.next), cfg.lower(slug), cfg.gen(t.next + 1), user);
  }

  lemma AcceptKeepsMembers(cfg: Config, t: Tables, caller: Caller, id: Id, fault: Fault, now: int)
    requires MembersOk(cfg, t.orgs, t.members) && cfg.gen(t.next) !in t.members
    ensures var t' := Accept(cfg, t, caller, id, fault, now).0; MembersOk(cfg, t'.orgs, t'.members)
  {
    if CheckAccept(cfg, t, caller, id, now).Done? {
      var inv := t.invitations[id];
      JoinKeeps(cfg, t.orgs, t.members, cfg.gen(t.next), Member(inv.org, caller.user, inv.role));
    }
  }

  lemma AddMemberKeepsMembers(cfg: Config, env: Env, t: Tables, user: Id, roles: seq<string>, org: Id, team: Id)
    requires MembersOk(cfg, t.orgs, t.members) && cfg.gen(t.next) !in t.members
    ensures var t' := AddMember(cfg, env, t, user, roles, org, team).0; MembersOk(cfg, t'.orgs, t'.members)
  {
    if CheckAddMember(cfg, env, t, user, roles, org, team).Done? {
      JoinKeeps(cfg, t.orgs, t.members, cfg.gen(t.next), Member(org, user, ParseRole(roles).value));
    }
  }

  lemma RemoveMemberKeepsMembers(cfg: Config, env: Env, t: Tables, user: Id, org: Id, key: string)
    requires MembersOk(cfg, t.orgs, t.members)
    ensures var t' := RemoveMember(cfg, env, t, user, org, key).0; MembersOk(cfg, t'.orgs, t'.members)
  {
    var check := CheckRemoveMember(cfg, env, t, user, org, key);
    if check.Hit? {
      LeaveKeeps(cfg, t.orgs, t.members, check.id);
    }
  }

  /** Even a creator who demotes another creator leaves one: itself. */
  lemma UpdateRoleKeepsMembers(cfg: Config, env: Env, t: Tables, user: Id, org: Id, id: Id, roles: seq<string>)
    requires MembersOk(cfg, t.orgs, t.members)
    ensures var t' := UpdateRole(cfg, env, t, user, org, id, roles).0; MembersOk(cfg, t'.orgs, t'.members)
  {
    if CheckUpdateRole(cfg, env, t, user, org, id, roles).Done? {
      var role, updater := ParseRole(roles).value, FindMember(t.members, org, user).value;
      var other := updater;
      if IsCreator(cfg, t.members[id]) && !HasRole(role, cfg.CreatorRole()) && updater == id {
        var creators := CreatorsOf(cfg, t.members, org);
        assert id in creators && |creators| > 1;
        other := AnotherOne(creators, id);
      }
      RecastKeeps(cfg, t.orgs, t.members, id, role, other);
    }
  }

  lemma AnotherOne(ids: set<Id>, one: Id) returns (other: Id)
    requires one in ids && |ids| > 1
    ensures other in ids && other != one
  {
    assert |ids - {one}| == |ids| - 1;
    other :| other in ids - {one};
  }

  lemma LeaveHandlerKeepsMembers(cfg: Config, t: Tables, user: Id, org: Id)
    requires MembersOk(cfg, t.orgs, t.members)
    ensures var t' := Leave(cfg, t, user, org).0; MembersOk(cfg, t'.orgs, t'.members)
  {
    if CheckLeave(cfg, t, user, org).Done? {
      LeaveKeeps(cfg, t.orgs, t.members, FindMember(t.members, org, user).value);
    }
  }

  lemma DeleteKeepsMembers(cfg: Config, t: Tables, user: Id, org: Id)
    requires MembersOk(cfg, t.orgs, t.members)
    ensures var t' := Delete(cfg, t, user, org).0; MembersOk(cfg, t'.orgs, t'.members)
  {
    DissolveKeeps(cfg, t, org);
  }

  /** A new organization has a creator exactly if the configured creator role is
      trimmed and has no comma; otherwise its only member does not count as one. */
  lemma FoundedHasCreator(cfg: Config, t: Tables, user: Id, slug: string)
    requires AtHome(t.orgs, t.members) && cfg.gen(t.next) !in t.orgs
    ensures CreatorsOf(cfg, Found(cfg, t, user, slug).members, cfg.gen(t.next)) != {} <==>
            Trimmed(cfg.CreatorRole()) && ',' !in cfg.CreatorRole()
  {
    NameNamesItself(cfg.CreatorRole());
    var org, id := cfg.gen(t.next), cfg.gen(t.next + 1);
    var members := Found(cfg, t, user, slug).members;
    assert members[id] == Member(org, user, cfg.CreatorRole());
    assert forall i :: i in CreatorsOf(cfg, members, org) ==> i == id;
    assert HasRole(cfg.CreatorRole(), cfg.CreatorRole()) ==> id in CreatorsOf(cfg, members, org);
  }

}
