/** What every handler keeps about the roles that an organization defines itself, and
    what that means for permissions. */
module OrgRoles {
  import opened Common
  import opened RoleCodec
  import opened Access
  import opened OrgTables
  import opened OrgHandlers

  /** Own roles never shadow a built-in or configured one, and have distinct names. */
  ghost predicate RolesOk(cfg: Config, roles: Roles)
  {
    && (forall id :: id in roles ==> roles[id].name !in cfg.staticRoles)
    && (forall i, j :: i in roles && j in roles && roles[i].org == roles[j].org && roles[i].name == roles[j].name ==> i == j)
  }

  ghost predicate RolesWithinLimit(cfg: Config, roles: Roles)
  {
    cfg.RoleLimit() > 0 ==> forall org :: |RolesOf(roles, org)| <= cfg.RoleLimit()
  }

  lemma PutRoleSets(roles: Roles, id: Id, role: Role, org: Id)
    requires id in roles ==> roles[id].org == role.org
    ensures RolesOf(roles[id := role], org) == RolesOf(roles, org) + if org == role.org then {id} else {}
  {
  }

  lemma CreateRoleKeepsLimit(cfg: Config, t: Tables, user: Id, org: Id, role: string, permission: Statements)
    requires RolesWithinLimit(cfg, t.roles) && cfg.gen(t.next) !in t.roles
    ensures RolesWithinLimit(cfg, CreateRole(cfg, t, user, org, role, permission).0.roles)
  {
    if CheckCreateRole(cfg, t, user, org, role, permission).Done? && cfg.RoleLimit() > 0 {
      var t' := CreateRole(cfg, t, user, org, role, permission).0;
      forall o ensures |RolesOf(t'.roles, o)| <= cfg.RoleLimit() {
        PutRoleSets(t.roles, cfg.gen(t.next), Role(org, RoleName(cfg, role), permission), o);
      }
    }
  }

  lemma ChangeRoleKeepsLimit(cfg: Config, t: Tables, user: Id, org: Id, id: Id, name: string, newName: string, permission: Statements)
    requires RolesWithinLimit(cfg, t.roles)
    ensures RolesWithinLimit(cfg, ChangeRole(cfg, t, user, org, id, name, newName, permission).0.roles)
  {
    if CheckRename(cfg, t, user, org, id, name, newName).Done? && cfg.RoleLimit() > 0 {
      var t', found := ChangeRole(cfg, t, user, org, id, name, newName, permission).0, RequestedRole(cfg, t.roles, org, id, name).value;
      forall o ensures |RolesOf(t'.roles, o)| <= cfg.RoleLimit() {
        PutRoleSets(t.roles, found, t'.roles[found], o);
        assert RolesOf(t'.roles, o) == RolesOf(t.roles, o);
      }
    }
  }

  lemma FewerRolesKeepLimit(cfg: Config, roles: Roles, fewer: Roles)
    requires RolesWithinLimit(cfg, roles) && forall id :: id in fewer ==> id in roles && fewer[id] == roles[id]
    ensures RolesWithinLimit(cfg, fewer)
  {
    if cfg.RoleLimit() > 0 {
      forall org ensures |RolesOf(fewer, org)| <= cfg.RoleLimit() {
        SubsetSize(RolesOf(fewer, org), RolesOf(roles, org));
      }
    }
  }

  lemma PutRoleKeeps(cfg: Config, roles: Roles, id: Id, role: Role)
    requires RolesOk(cfg, roles) && role.name !in cfg.staticRoles
    requires forall i :: IsRole(roles, i, role.org, role.name) ==> i == id
    ensures RolesOk(cfg, roles[id := role])
  {
    forall i | i in roles && i != id ensures !(roles[i].org == role.org && roles[i].name == role.name) {
      assert !IsRole(roles, i, role.org, role.name);
    }
  }

  lemma CreateRoleKeepsRoles(cfg: Config, t: Tables, user: Id, org: Id, role: string, permission: Statements)
    requires RolesOk(cfg, t.roles)
    ensures RolesOk(cfg, CreateRole(cfg, t, user, org, role, permission).0.roles)
  {
    if CheckCreateRole(cfg, t, user, org, role, permission).Done? {
      PutRoleKeeps(cfg, t.roles, cfg.gen(t.next), Role(org, RoleName(cfg, role), permission));
    }
  }

  lemma ChangeRoleKeepsRoles(cfg: Config, t: Tables, user: Id, org: Id, id: Id, name: string, newName: string, permission: Statements)
    requires RolesOk(cfg, t.roles)
    ensures RolesOk(cfg, ChangeRole(cfg, t, user, org, id, name, newName, permission).0.roles)
  {
    if CheckRename(cfg, t, user, org, id, name, newName).Done? {
      var found := RequestedRole(cfg, t.roles, org, id, name).value;
      PutRoleKeeps(cfg, t.roles, found, ChangeRole(cfg, t, user, org, id, name, newName, permission).0.roles[found]);
    }
  }

  lemma RemovalsKeepRoles(cfg: Config, t: Tables, user: Id, org: Id, id: Id, name: string)
    requires RolesOk(cfg, t.roles)
    ensures RolesOk(cfg, DeleteRole(cfg, t, user, org, id, name).0.roles)
    ensures RolesOk(cfg, Delete(cfg, t, user, org).0.roles)
  {
    assert RolesOk(cfg, Dissolve(t, org).roles);
  }

  /** Whatever roles an organization creates, renames or deletes in between, a member
      whose roles are all built in or configured keeps exactly the same permissions. */
  lemma StaticPermissionsStand(cfg: Config, before: Roles, after: Roles, org: Id, role: string, request: Statements)
    requires RolesOk(cfg, before) && RolesOk(cfg, after)
    requires forall name :: name in Pieces(role) ==> name in cfg.staticRoles
    ensures Permitted(cfg, before, org, role, request) <==> Permitted(cfg, after, org, role, request)
  {
    forall name | name in Pieces(role)
      ensures NameGrants(cfg, before, org, name, request) <==> NameGrants(cfg, after, org, name, request)
    {
      assert FindRole(before, org, name).None? && FindRole(after, org, name).None?;
    }
  }

  /** A longer role list grants what either part grants, and nothing more. */
  lemma PermissionsOfLists(cfg: Config, roles: Roles, org: Id, a: string, b: string, request: Statements)
    ensures Permitted(cfg, roles, org, a + [','] + b, request) <==>
            Permitted(cfg, roles, org, a, request) || Permitted(cfg, roles, org, b, request)
  {
    PiecesOfConcat(a, b);
    assert forall name :: name in Pieces(a + [','] + b) <==> name in Pieces(a) || name in Pieces(b);
  }

  /** Roles in use are not deleted: what a member's role value names still exists. */
  lemma DeletedRoleWasUnused(cfg: Config, t: Tables, user: Id, org: Id, id: Id, name: string, m: Id)
    requires RolesOk(cfg, t.roles) && m in MembersOf(t.members, org) && RoleExists(cfg, t.roles, org, t.members[m].role)
    ensures RoleExists(cfg, DeleteRole(cfg, t, user, org, id, name).0.roles, org, t.members[m].role)
  {
    if CheckDeleteRole(cfg, t, user, org, id, name).Done? {
      var gone := RequestedRole(cfg, t.roles, org, id, name).value;
      var rest, role := t.roles - {gone}, t.members[m].role;
      PiecesAreClean(role);
      forall p | p in Pieces(role) ensures NameExists(cfg, rest, org, p) {
        HasRoleIsAPiece(role, p);
        assert NameExists(cfg, t.roles, org, p);
        if p !in cfg.staticRoles {
          var r := FindRole(t.roles, org, p).value;
          assert r != gone;
          assert IsRole(rest, r, org, p);
        }
      }
    }
  }

}
