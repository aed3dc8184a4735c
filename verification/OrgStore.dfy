/** The lookups and checks of the organization plugin as it runs them, with loops over
    the rows of its store. */
module OrgStore {
  import opened Common
  import opened Strings
  import opened RoleCodec
  import opened Access
  import opened OrgTables
  import opened OrgInvitations

  ghost predicate OneRowEach(members: Members)
  {
    forall i, j, org, user :: IsMember(members, i, org, user) && IsMember(members, j, org, user) ==> i == j
  }

  /** `FindMemberByOrgAndUser` of the stores. */
  method FindMemberByOrgAndUser(members: Members, org: Id, user: Id) returns (r: Option<Id>)
    requires OneRowEach(members)
    ensures r == FindMember(members, org, user)
  {
    var left := members.Keys;
    while left != {}
      invariant left <= members.Keys
      invariant forall id :: IsMember(members, id, org, user) ==> id in left
    {
      var id :| id in left;
      if members[id].org == org && members[id].user == user {
        assert IsMember(members, id, org, user);
        return Some(id);
      }
      left := left - {id};
    }
    return None;
  }

  method CountMembers(members: Members, org: Id) returns (n: nat)
    ensures n == |MembersOf(members, org)|
  {
    n := 0;
    var left := members.Keys;
    ghost var seen: set<Id> := {};
    while left != {}
      invariant left <= members.Keys
      invariant seen == set id | id in members && id !in left && members[id].org == org
      invariant n == |seen|
    {
      var id :| id in left;
      left := left - {id};
      if members[id].org == org {
        seen := seen + {id};
        n := n + 1;
      }
    }
    assert seen == MembersOf(members, org);
  }

  method CountMemberships(members: Members, user: Id) returns (n: nat)
    ensures n == |MembershipsOf(members, user)|
  {
    n := 0;
    var left := members.Keys;
    ghost var seen: set<Id> := {};
    while left != {}
      invariant left <= members.Keys
      invariant seen == set id | id in members && id !in left && members[id].user == user
      invariant n == |seen|
    {
      var id :| id in left;
      left := left - {id};
      if members[id].user == user {
        seen := seen + {id};
        n := n + 1;
      }
    }
    assert seen == MembershipsOf(members, user);
  }

  /** `memberRoleCount` over the members of an organization. */
  method CountCreators(cfg: Config, members: Members, org: Id) returns (n: nat)
    ensures n == |CreatorsOf(cfg, members, org)|
  {
    n := 0;
    var left := members.Keys;
    ghost var seen: set<Id> := {};
    while left != {}
      invariant left <= members.Keys
      invariant seen == set id | id in members && id !in left && members[id].org == org && IsCreator(cfg, members[id])
      invariant n == |seen|
    {
      var id :| id in left;
      left := left - {id};
      if members[id].org == org {
        var creator := MemberHasRole(members[id].role, cfg.CreatorRole());
        if creator {
          seen := seen + {id};
          n := n + 1;
        }
      }
    }
    assert seen == CreatorsOf(cfg, members, org);
  }

  ghost predicate DistinctNames(roles: Roles)
  {
    forall i, j, org, name :: IsRole(roles, i, org, name) && IsRole(roles, j, org, name) ==> i == j
  }

  /** `FindOrganizationRoleByOrgAndRole` of the stores. */
  method FindRoleByOrgAndName(roles: Roles, org: Id, name: string) returns (r: Option<Id>)
    requires DistinctNames(roles)
    ensures r == FindRole(roles, org, name)
  {
    var left := roles.Keys;
    while left != {}
      invariant left <= roles.Keys
      invariant forall id :: IsRole(roles, id, org, name) ==> id in left
    {
      var id :| id in left;
      if roles[id].org == org && roles[id].name == name {
        assert IsRole(roles, id, org, name);
        return Some(id);
      }
      left := left - {id};
    }
    return None;
  }

  method CountRoles(roles: Roles, org: Id) returns (n: nat)
    ensures n == |RolesOf(roles, org)|
  {
    n := 0;
    var left := roles.Keys;
    ghost var seen: set<Id> := {};
    while left != {}
      invariant left <= roles.Keys
      invariant seen == set id | id in roles && id !in left && roles[id].org == org
      invariant n == |seen|
    {
      var id :| id in left;
      left := left - {id};
      if roles[id].org == org {
        seen := seen + {id};
        n := n + 1;
      }
    }
    assert seen == RolesOf(roles, org);
  }

  /** `organizationMemberHasPermissions`: the first role that grants the request decides. */
  method HasPermissions(cfg: Config, roles: Roles, org: Id, role: string, request: Statements) returns (ok: bool)
    requires DistinctNames(roles)
    ensures ok <==> Permitted(cfg, roles, org, role, request)
  {
    var pieces := Split(role, ',');
    CleanedContents(pieces);
    for i := 0 to |pieces|
      invariant forall j :: 0 <= j < i && TrimSpace(pieces[j]) != "" ==> !NameGrants(cfg, roles, org, TrimSpace(pieces[j]), request)
    {
      var name := TrimSpace(pieces[i]);
      if name == "" {
        continue;
      }
      assert pieces[i] in pieces && name in Pieces(role);
      if name in cfg.staticRoles {
        var allowed := PermissionAllows(cfg.staticRoles[name], request);
        if allowed {
          return true;
        }
      }
      var custom := FindRoleByOrgAndName(roles, org, name);
      if custom.Some? {
        var allowed := PermissionAllows(roles[custom.value].permission, request);
        if allowed {
          return true;
        }
      }
    }
    return false;
  }

  /** `organizationRoleExists`. */
  method AllRolesExist(cfg: Config, roles: Roles, org: Id, role: string) returns (ok: bool)
    requires DistinctNames(roles)
    ensures ok <==> RoleExists(cfg, roles, org, role)
  {
    var pieces := Split(role, ',');
    CleanedContents(pieces);
    for i := 0 to |pieces|
      invariant forall j :: 0 <= j < i && TrimSpace(pieces[j]) != "" ==> NameExists(cfg, roles, org, TrimSpace(pieces[j]))
    {
      var name := TrimSpace(pieces[i]);
      if name == "" || name in cfg.staticRoles {
        continue;
      }
      assert pieces[i] in pieces && name in Pieces(role);
      if !cfg.dynamicRoles {
        return false;
      }
      var custom := FindRoleByOrgAndName(roles, org, name);
      if custom.None? {
        return false;
      }
    }
    return true;
  }

  /** The search of `pendingInvitationForEmailOrg`. */
  method FindLiveInvitation(cfg: Config, invitations: Invitations, org: Id, email: string, now: int) returns (r: Option<Id>)
    requires NoRivals(cfg, invitations, now)
    ensures r == FindLive(cfg, invitations, org, email, now)
  {
    var left := invitations.Keys;
    while left != {}
      invariant left <= invitations.Keys
      invariant forall id :: IsLive(cfg, invitations, id, org, email, now) ==> id in left
    {
      var id :| id in left;
      var inv := invitations[id];
      if inv.org == org && cfg.lower(inv.email) == cfg.lower(email) && inv.status == Pending && now < inv.expiresAt {
        var found := FindLive(cfg, invitations, org, email, now);
        assert IsLive(cfg, invitations, id, org, email, now);
        assert !Rivals(cfg, invitations, id, found.value, now);
        return Some(id);
      }
      left := left - {id};
    }
    return None;
  }

  /** The count of `organizationInvitationLimitReached`. */
  method CountLive(invitations: Invitations, org: Id, now: int) returns (n: nat)
    ensures n == |LiveOf(invitations, org, now)|
  {
    n := 0;
    var left := invitations.Keys;
    ghost var seen: set<Id> := {};
    while left != {}
      invariant left <= invitations.Keys
      invariant seen == set id | id in invitations && id !in left && invitations[id].org == org && Live(invitations[id], now)
      invariant n == |seen|
    {
      var id :| id in left;
      left := left - {id};
      if invitations[id].org == org && invitations[id].status == Pending && now < invitations[id].expiresAt {
        seen := seen + {id};
        n := n + 1;
      }
    }
    assert seen == LiveOf(invitations, org, now);
  }

  method CountTeams(teams: map<Id, Id>, org: Id) returns (n: nat)
    ensures n == |TeamsOf(teams, org)|
  {
    n := 0;
    var left := teams.Keys;
    ghost var seen: set<Id> := {};
    while left != {}
      invariant left <= teams.Keys
      invariant seen == set id | id in teams && id !in left && teams[id] == org
      invariant n == |seen|
    {
      var id :| id in left;
      left := left - {id};
      if teams[id] == org {
        seen := seen + {id};
        n := n + 1;
      }
    }
    assert seen == TeamsOf(teams, org);
  }

  /** `FindTeamMember`: whether there is one. */
  method SeatExists(seats: Seats, team: Id, user: Id) returns (found: bool)
    ensures found <==> HasSeat(seats, team, user)
  {
    var left := seats.Keys;
    while left != {}
      invariant left <= seats.Keys
      invariant forall id :: IsSeat(seats, id, team, user) ==> id in left
    {
      var id :| id in left;
      if seats[id].team == team && seats[id].user == user {
        assert IsSeat(seats, id, team, user);
        return true;
      }
      left := left - {id};
    }
    return false;
  }

  method CountSeats(seats: Seats, team: Id) returns (n: nat)
    ensures n == |SeatsOf(seats, team)|
  {
    n := 0;
    var left := seats.Keys;
    ghost var seen: set<Id> := {};
    while left != {}
      invariant left <= seats.Keys
      invariant seen == set id | id in seats && id !in left && seats[id].team == team
      invariant n == |seen|
    {
      var id :| id in left;
      left := left - {id};
      if seats[id].team == team {
        seen := seen + {id};
        n := n + 1;
      }
    }
    assert seen == SeatsOf(seats, team);
  }

  /** `teamMemberLimitReached`. */
  method TeamLimitReached(cfg: Config, seats: Seats, team: Id, user: Id) returns (full: bool)
    ensures full <==> TeamFull(cfg, seats, team, user)
  {
    var limit := cfg.SeatLimit();
    if limit <= 0 {
      return false;
    }
    if user != "" {
      var seated := SeatExists(seats, team, user);
      if seated {
        return false;
      }
    }
    var n := CountSeats(seats, team);
    return n >= limit;
  }

  /** `anyTeamMemberLimitReached`. */
  method AnyTeamLimitReached(cfg: Config, seats: Seats, teams: seq<Id>, user: Id) returns (full: bool)
    ensures full <==> AnyTeamFull(cfg, seats, teams, user)
  {
    for i := 0 to |teams|
      invariant forall j :: 0 <= j < i ==> !TeamFull(cfg, seats, teams[j], user)
    {
      var reached := TeamLimitReached(cfg, seats, teams[i], user);
      if reached {
        return true;
      }
    }
    return false;
  }

  /** `invitationTeamsBelongToOrg`. */
  method AllTeamsBelong(teams: map<Id, Id>, org: Id, ids: seq<Id>) returns (ok: bool)
    ensures ok <==> TeamsBelong(teams, org, ids)
  {
    for i := 0 to |ids|
      invariant forall j :: 0 <= j < i ==> ids[j] in teams && teams[ids[j]] == org
    {
      if ids[i] !in teams || teams[ids[i]] != org {
        return false;
      }
    }
    return true;
  }

  /** `FindOrganizationBySlug` finds one. */
  method SlugTaken(orgs: map<Id, string>, slug: string) returns (taken: bool)
    ensures taken <==> exists o :: o in orgs && orgs[o] == slug
  {
    var left := orgs.Keys;
    while left != {}
      invariant left <= orgs.Keys
      invariant forall o :: o in orgs && orgs[o] == slug ==> o in left
    {
      var o :| o in left;
      if orgs[o] == slug {
        return true;
      }
      left := left - {o};
    }
    return false;
  }

  /** Whether some member of the organization has the role: the loop of `delete-role`. */
  method RoleInUse(members: Members, org: Id, name: string) returns (used: bool)
    ensures used <==> exists m :: m in MembersOf(members, org) && HasRole(members[m].role, name)
  {
    var left := members.Keys;
    while left != {}
      invariant left <= members.Keys
      invariant forall m :: m in MembersOf(members, org) && HasRole(members[m].role, name) ==> m in left
    {
      var m :| m in left;
      left := left - {m};
      if members[m].org == org {
        var has := MemberHasRole(members[m].role, name);
        if has {
          assert m in MembersOf(members, org);
          return true;
        }
      }
    }
    return false;
  }

}
