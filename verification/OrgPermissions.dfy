/** Which request needs which permission, and that no request does without it: neither
    succeeds nor changes what belongs to an organization. */
module OrgPermissions {
  import opened Common
  import opened RoleCodec
  import opened Access
  import opened OrgTables
  import opened OrgHandlers
  import opened OrgStore
  import opened OrgRuns
  import opened OrgCreators

  // -------------------------------------------------------------- grants

  /** A static role of this name lists the action. */
  predicate StaticGrants(cfg: Config, name: string, resource: string, action: string)
  {
    name in cfg.staticRoles && resource in cfg.staticRoles[name] && action in cfg.staticRoles[name][resource]
  }

  /** A role that the organization has defined under this name lists the action. */
  ghost predicate OwnGrants(roles: Roles, org: Id, name: string, resource: string, action: string)
  {
    exists r :: IsRole(roles, r, org, name) && resource in roles[r].permission && action in roles[r].permission[resource]
  }

  /** The member row names a role that lists the action. */
  ghost predicate RowGrants(cfg: Config, t: Tables, org: Id, m: Id, resource: string, action: string)
    requires m in t.members
  {
    exists name :: name in Pieces(t.members[m].role)
      && (StaticGrants(cfg, name, resource, action) || OwnGrants(t.roles, org, name, resource, action))
  }

  /** The user is a member of the organization with a role that lists the action. */
  ghost predicate Granted(cfg: Config, t: Tables, org: Id, user: Id, resource: string, action: string)
  {
    exists m :: IsMember(t.members, m, org, user) && RowGrants(cfg, t, org, m, resource, action)
  }

  lemma NameGrantsIsListed(cfg: Config, roles: Roles, org: Id, name: string, resource: string, action: string)
    ensures NameGrants(cfg, roles, org, name, Ask(resource, action)) ==>
              StaticGrants(cfg, name, resource, action) || OwnGrants(roles, org, name, resource, action)
    ensures DistinctNames(roles) && (StaticGrants(cfg, name, resource, action) || OwnGrants(roles, org, name, resource, action)) ==>
              NameGrants(cfg, roles, org, name, Ask(resource, action))
  {
    assert action in Ask(resource, action)[resource];
    var found := FindRole(roles, org, name);
    if found.Some? && Allows(roles[found.value].permission, Ask(resource, action)) {
      assert IsRole(roles, found.value, org, name);
    }
    if DistinctNames(roles) && OwnGrants(roles, org, name, resource, action) {
      var r :| IsRole(roles, r, org, name) && resource in roles[r].permission && action in roles[r].permission[resource];
      assert found.value == r;
    }
  }

  /** The handlers' own check asks for exactly this, where a lookup has one answer. */
  lemma MayDoIsGranted(cfg: Config, t: Tables, org: Id, user: Id, resource: string, action: string)
    ensures MayDo(cfg, t, org, user, Ask(resource, action)) ==> Granted(cfg, t, org, user, resource, action)
    ensures OneRowEach(t.members) && DistinctNames(t.roles) && Granted(cfg, t, org, user, resource, action) ==>
              MayDo(cfg, t, org, user, Ask(resource, action))
  {
    forall name {
      NameGrantsIsListed(cfg, t.roles, org, name, resource, action);
    }
    var found := FindMember(t.members, org, user);
    if MayDo(cfg, t, org, user, Ask(resource, action)) {
      assert IsMember(t.members, found.value, org, user) && RowGrants(cfg, t, org, found.value, resource, action);
    }
    if OneRowEach(t.members) && DistinctNames(t.roles) && Granted(cfg, t, org, user, resource, action) {
      var m :| IsMember(t.members, m, org, user) && RowGrants(cfg, t, org, m, resource, action);
      assert found.value == m;
    }
  }

  // -------------------------------------------------------------- the table

  /** The caller of a request must hold the action on the resource in the organization;
      some requests are open to everybody whom they concern, and one to creators too.
      Strangers are told that there is no such organization, or that it is forbidden. */
  datatype Need = Open | Needs(org: Id, user: Id, resource: string, action: string, orCreator: bool, stranger: Code)

  function OrgNeed(a: OrgAction): Need
  {
    match a
    case DoCreate(_, _, _) => Open
    case DoUpdate(user, org, _) => Needs(org, user, "organization", "update", false, OrgNotFound)
    case DoDelete(user, org) => Needs(org, user, "organization", "delete", false, OrgNotFound)
  }

  function InvitationNeed(t: Tables, a: InvitationAction): Need
  {
    match a
    case DoInvite(user, request) => Needs(request.org, user, "invitation", "create", false, Forbidden)
    case DoAccept(_, _, _) => Open
    case DoReject(_, _) => Open
    case DoCancel(user, id) => Needs(InvitedTo(t, id), user, "invitation", "cancel", false, OrgNotFound)
  }

  function InvitedTo(t: Tables, id: Id): Id
  {
    if id in t.invitations then t.invitations[id].org else ""
  }

  function MemberNeed(a: MemberAction): Need
  {
    match a
    case DoAddMember(_, _, _, _) => Open
    case DoRemoveMember(user, org, _) => Needs(org, user, "member", "delete", false, OrgNotFound)
    case DoUpdateRole(user, org, _, _) => Needs(org, user, "member", "update", true, OrgNotFound)
    case DoLeave(_, _) => Open
  }

  function TeamNeed(a: TeamAction): Need
  {
    match a
    case DoCreateTeam(user, org, _) => Needs(org, user, "team", "create", false, Forbidden)
    case DoRemoveTeam(user, org, _, _) => Needs(org, user, "team", "delete", false, Forbidden)
    case DoAddTeamMember(user, org, _, _) => Needs(org, user, "member", "update", false, Forbidden)
    case DoRemoveTeamMember(user, org, _, _, _) => Needs(org, user, "member", "delete", false, Forbidden)
  }

  function RoleNeed(a: RoleAction): Need
  {
    match a
    case DoCreateRole(user, org, _, _) => Needs(org, user, "ac", "create", false, Forbidden)
    case DoChangeRole(user, org, _, _, _, _) => Needs(org, user, "ac", "update", false, Forbidden)
    case DoDeleteRole(user, org, _, _) => Needs(org, user, "ac", "delete", false, Forbidden)
  }

  function NeedOf(t: Tables, a: Action): Need
  {
    match a
    case OnOrg(a) => OrgNeed(a)
    case OnInvitation(a) => InvitationNeed(t, a)
    case OnMember(a) => MemberNeed(a)
    case OnTeam(a) => TeamNeed(a)
    case OnRole(a) => RoleNeed(a)
  }

  ghost predicate Met(cfg: Config, t: Tables, need: Need)
  {
    match need
    case Open => true
    case Needs(org, user, resource, action, orCreator, _) =>
      Granted(cfg, t, org, user, resource, action) || (orCreator && HoldsCreator(cfg, t, org, user))
  }

  /** The built-in roles: an owner meets every need in the table, an admin all but that for
      deleting the organization, and a plain member none. */
  lemma BuiltInRoles(cfg: Config, t: Tables, a: Action)
    requires cfg.staticRoles == RoleTable(map[]) && NeedOf(t, a).Needs?
    ensures var need := NeedOf(t, a);
            && StaticGrants(cfg, "owner", need.resource, need.action)
            && (StaticGrants(cfg, "admin", need.resource, need.action) <==> !(a.OnOrg? && a.org.DoDelete?))
            && !StaticGrants(cfg, "member", need.resource, need.action)
  {
    assert cfg.staticRoles == DefaultRoles();
  }

  // -------------------------------------------------------------- no success without it

  lemma OrgNeeds(cfg: Config, t: Tables, a: OrgAction)
    ensures DoOrg(cfg, t, a).1.Done? || DoOrg(cfg, t, a).0 != t ==> Met(cfg, t, OrgNeed(a))
  {
    match a
    case DoCreate(user, name, slug) =>
    case DoUpdate(user, org, slug) => MayDoIsGranted(cfg, t, org, user, "organization", "update");
    case DoDelete(user, org) => MayDoIsGranted(cfg, t, org, user, "organization", "delete");
  }

  lemma InvitationNeeds(cfg: Config, env: Env, t: Tables, a: InvitationAction, now: int)
    ensures DoInvitation(cfg, env, t, a, now).1.Done? || DoInvitation(cfg, env, t, a, now).0 != t ==> Met(cfg, t, InvitationNeed(t, a))
  {
    match a
    case DoInvite(user, request) => MayDoIsGranted(cfg, t, request.org, user, "invitation", "create");
    case DoCancel(user, id) =>
      if id in t.invitations {
        MayDoIsGranted(cfg, t, t.invitations[id].org, user, "invitation", "cancel");
      }
    case _ =>
  }

  lemma MemberNeeds(cfg: Config, env: Env, t: Tables, a: MemberAction)
    ensures DoMember(cfg, env, t, a).1.Done? || DoMember(cfg, env, t, a).0 != t ==> Met(cfg, t, MemberNeed(a))
  {
    match a
    case DoRemoveMember(user, org, key) => MayDoIsGranted(cfg, t, org, user, "member", "delete");
    case DoUpdateRole(user, org, id, roles) =>
      MayDoIsGranted(cfg, t, org, user, "member", "update");
      if CheckUpdateRole(cfg, env, t, user, org, id, roles).Done? {
        assert IsMember(t.members, FindMember(t.members, org, user).value, org, user);
      }
    case _ =>
  }

  lemma TeamNeeds(cfg: Config, env: Env, t: Tables, a: TeamAction)
    ensures DoTeam(cfg, env, t, a).1.Done? || DoTeam(cfg, env, t, a).0 != t ==> Met(cfg, t, TeamNeed(a))
  {
    match a
    case DoCreateTeam(user, org, name) => MayDoIsGranted(cfg, t, org, user, "team", "create");
    case DoRemoveTeam(user, org, team, active) => MayDoIsGranted(cfg, t, org, user, "team", "delete");
    case DoAddTeamMember(user, org, team, target) => MayDoIsGranted(cfg, t, org, user, "member", "update");
    case DoRemoveTeamMember(user, org, seat, team, target) => MayDoIsGranted(cfg, t, org, user, "member", "delete");
  }

  lemma CreateRoleNeeds(cfg: Config, t: Tables, user: Id, org: Id, role: string, permission: Statements)
    ensures var r := CreateRole(cfg, t, user, org, role, permission);
            r.1.Done? || r.0 != t ==> Granted(cfg, t, org, user, "ac", "create")
  {
    MayDoIsGranted(cfg, t, org, user, "ac", "create");
  }

  lemma ChangeRoleNeeds(cfg: Config, t: Tables, user: Id, org: Id, id: Id, name: string, newName: string, permission: Statements)
    ensures var r := ChangeRole(cfg, t, user, org, id, name, newName, permission);
            r.1.Done? || r.0 != t ==> Granted(cfg, t, org, user, "ac", "update")
  {
    MayDoIsGranted(cfg, t, org, user, "ac", "update");
  }

  lemma DeleteRoleNeeds(cfg: Config, t: Tables, user: Id, org: Id, id: Id, name: string)
    ensures var r := DeleteRole(cfg, t, user, org, id, name);
            r.1.Done? || r.0 != t ==> Granted(cfg, t, org, user, "ac", "delete")
  {
    MayDoIsGranted(cfg, t, org, user, "ac", "delete");
  }

  lemma RoleNeeds(cfg: Config, t: Tables, a: RoleAction)
    ensures DoRole(cfg, t, a).1.Done? || DoRole(cfg, t, a).0 != t ==> Met(cfg, t, RoleNeed(a))
  {
    match a
    case DoCreateRole(user, org, role, permission) => CreateRoleNeeds(cfg, t, user, org, role, permission);
    case DoChangeRole(user, org, id, name, newName, permission) => ChangeRoleNeeds(cfg, t, user, org, id, name, newName, permission);
    case DoDeleteRole(user, org, id, name) => DeleteRoleNeeds(cfg, t, user, org, id, name);
  }

  /** Whatever the tables: a request that succeeds, and even one that changes anything at
      all, has the permission that the table lists for it. */
  lemma NothingWithoutPermission(cfg: Config, t: Tables, s: Step)
    ensures Do(cfg, t, s).1.Done? || Do(cfg, t, s).0 != t ==> Met(cfg, t, NeedOf(t, s.action))
  {
    match s.action
    case OnOrg(a) => OrgNeeds(cfg, t, a);
    case OnInvitation(a) => InvitationNeeds(cfg, s.env, t, a, s.now);
    case OnMember(a) => MemberNeeds(cfg, s.env, t, a);
    case OnTeam(a) => TeamNeeds(cfg, s.env, t, a);
    case OnRole(a) => RoleNeeds(cfg, t, a);
  }

  // -------------------------------------------------------------- nothing beyond the organization

  // The organization that a request is about.

  function OrgScope(cfg: Config, t: Tables, a: OrgAction): Id
  {
    if a.DoCreate? then cfg.gen(t.next) else a.org
  }

  function InvitationScope(t: Tables, a: InvitationAction): Id
  {
    if a.DoInvite? then a.request.org else InvitedTo(t, a.id)
  }

  function ScopeOf(cfg: Config, t: Tables, a: Action): Id
  {
    match a
    case OnOrg(a) => OrgScope(cfg, t, a)
    case OnInvitation(a) => InvitationScope(t, a)
    case OnMember(a) => a.org
    case OnTeam(a) => a.org
    case OnRole(a) => a.org
  }

  // The tables with the same rows apart from rows that are the organization's.

  ghost predicate OrgsBut(a: map<Id, string>, b: map<Id, string>, org: Id)
  {
    forall o :: o != org ==> (o in a <==> o in b) && (o in a ==> b[o] == a[o])
  }

  ghost predicate MembersBut(a: Members, b: Members, org: Id)
  {
    && (forall id :: id in a && a[id].org != org ==> id in b && b[id] == a[id])
    && (forall id :: id in b && b[id].org != org ==> id in a && a[id] == b[id])
  }

  ghost predicate InvitationsBut(a: Invitations, b: Invitations, org: Id)
  {
    && (forall id :: id in a && a[id].org != org ==> id in b && b[id] == a[id])
    && (forall id :: id in b && b[id].org != org ==> id in a && a[id] == b[id])
  }

  ghost predicate TeamsBut(a: map<Id, Id>, b: map<Id, Id>, org: Id)
  {
    && (forall id :: id in a && a[id] != org ==> id in b && b[id] == a[id])
    && (forall id :: id in b && b[id] != org ==> id in a && a[id] == b[id])
  }

  ghost predicate RolesBut(a: Roles, b: Roles, org: Id)
  {
    && (forall id :: id in a && a[id].org != org ==> id in b && b[id] == a[id])
    && (forall id :: id in b && b[id].org != org ==> id in a && a[id] == b[id])
  }

  /** Seats may differ in teams that are or become the organization's. */
  ghost predicate SeatsBut(t: Tables, t': Tables, org: Id)
  {
    && (forall id :: id in t.seats && !TeamOf(t, t.seats[id].team, org) ==> id in t'.seats && t'.seats[id] == t.seats[id])
    && (forall id :: id in t'.seats && !TeamOf(t', t'.seats[id].team, org) && !TeamOf(t, t'.seats[id].team, org) ==>
          id in t.seats && t.seats[id] == t'.seats[id])
  }

  predicate TeamOf(t: Tables, team: Id, org: Id)
  {
    team in t.teams && t.teams[team] == org
  }

  /** Rows, and the slug, of every other organization are as before. */
  ghost predicate Confined(t: Tables, t': Tables, org: Id)
  {
    && OrgsBut(t.orgs, t'.orgs, org) && MembersBut(t.members, t'.members, org)
    && InvitationsBut(t.invitations, t'.invitations, org) && TeamsBut(t.teams, t'.teams, org)
    && RolesBut(t.roles, t'.roles, org) && SeatsBut(t, t', org)
  }

  lemma OnlyMembersDiffer(t: Tables, members: Members, org: Id)
    requires MembersBut(t.members, members, org)
    ensures Confined(t, t.(members := members), org)
  {
  }

  lemma OnlyInvitationsDiffer(t: Tables, invitations: Invitations, next: nat, org: Id)
    requires InvitationsBut(t.invitations, invitations, org)
    ensures Confined(t, t.(invitations := invitations, next := next), org)
  {
  }

  lemma OnlyTeamsDiffer(t: Tables, teams: map<Id, Id>, seats: Seats, next: nat, org: Id)
    requires TeamsBut(t.teams, teams, org) && SeatsBut(t, t.(teams := teams, seats := seats), org)
    ensures Confined(t, t.(teams := teams, seats := seats, next := next), org)
  {
  }

  lemma OnlyRolesDiffer(t: Tables, roles: Roles, next: nat, org: Id)
    requires RolesBut(t.roles, roles, org)
    ensures Confined(t, t.(roles := roles, next := next), org)
  {
  }

  lemma OneMoreMember(members: Members, id: Id, m: Member)
    requires id !in members
    ensures MembersBut(members, members[id := m], m.org)
  {
  }

  lemma OneMoreSeatIn(t: Tables, t': Tables, id: Id, seat: Seat, org: Id)
    requires id !in t.seats && t'.seats == t.seats[id := seat] && TeamOf(t', seat.team, org)
    ensures SeatsBut(t, t', org)
  {
  }

  lemma DefaultTeamConfined(cfg: Config, t: Tables, user: Id, slug: string)
    requires cfg.FreshIds() && IdsAhead(cfg, t)
    ensures var t' := Found(cfg, t, user, slug);
            TeamsBut(t.teams, t'.teams, cfg.gen(t.next)) && SeatsBut(t, t', cfg.gen(t.next))
  {
    if cfg.DefaultTeam() {
      assert cfg.gen(t.next + 2) !in t.teams;
      OneMoreSeatIn(t, Found(cfg, t, user, slug), cfg.gen(t.next + 3), Seat(cfg.gen(t.next + 2), user), cfg.gen(t.next));
    }
  }

  lemma CreateConfined(cfg: Config, t: Tables, user: Id, slug: string)
    requires cfg.FreshIds() && IdsAhead(cfg, t)
    ensures Confined(t, Found(cfg, t, user, slug), cfg.gen(t.next))
  {
    DefaultTeamConfined(cfg, t, user, slug);
    OneMoreMember(t.members, cfg.gen(t.next + 1), Member(cfg.gen(t.next), user, cfg.CreatorRole()));
  }

  lemma DeleteConfined(t: Tables, org: Id)
    ensures Confined(t, Dissolve(t, org), org)
  {
  }

  lemma OrgConfined(cfg: Config, t: Tables, a: OrgAction)
    requires cfg.FreshIds() && IdsAhead(cfg, t)
    ensures Confined(t, DoOrg(cfg, t, a).0, OrgScope(cfg, t, a))
  {
    match a
    case DoCreate(user, name, slug) => CreateConfined(cfg, t, user, slug);
    case DoUpdate(user, org, slug) =>
    case DoDelete(user, org) => DeleteConfined(t, org);
  }

  lemma InviteAnewConfined(cfg: Config, t: Tables, rows: Invitations, r: InviteRequest, now: int)
    requires ParseRole(r.roles).Roles? && InvitationsBut(t.invitations, rows, r.org)
    requires cfg.gen(t.next) !in t.invitations && cfg.gen(t.next) !in rows
    ensures InvitationsBut(t.invitations, InviteAnew(cfg, t, rows, r, now).0.invitations, r.org)
  {
  }

  lemma InviteConfined(cfg: Config, env: Env, t: Tables, user: Id, r: InviteRequest, now: int)
    requires cfg.gen(t.next) !in t.invitations
    ensures InvitationsBut(t.invitations, Invite(cfg, env, t, user, r, now).0.invitations, r.org)
  {
    if CheckInvite(cfg, env, t, user, r).Done? {
      var earlier := FindLive(cfg, t.invitations, r.org, NormalizeEmail(cfg, r.email), now);
      if earlier.None? {
        InviteAnewConfined(cfg, t, t.invitations, r, now);
      } else if !r.resend && cfg.cancelOnReInvite {
        InviteAnewConfined(cfg, t, WithStatus(t.invitations, earlier.value, Canceled), r, now);
      }
    }
  }

  lemma NewSeatsIn(t: Tables, t': Tables, teams: seq<Id>, org: Id)
    requires t'.teams == t.teams && TeamsBelong(t.teams, org, teams)
    requires forall s :: s in t.seats ==> s in t'.seats && t'.seats[s] == t.seats[s]
    requires forall s :: s in t'.seats ==> s in t.seats || t'.seats[s].team in teams
    ensures SeatsBut(t, t', org)
  {
  }

  lemma AdmissionConfined(cfg: Config, t: Tables, t': Tables, user: Id, id: Id)
    requires id in t.invitations && cfg.gen(t.next) !in t.members && SeatsBut(t, t', t.invitations[id].org)
    requires t' == t.(members := t'.members, invitations := t'.invitations, seats := t'.seats, next := t'.next)
    requires (t'.members == t.members && t'.invitations == t.invitations) || Admitted(cfg, t, t', user, id)
    ensures Confined(t, t', t.invitations[id].org)
  {
    OneMoreMember(t.members, cfg.gen(t.next), Member(t.invitations[id].org, user, t.invitations[id].role));
  }

  lemma EnterConfined(cfg: Config, t: Tables, user: Id, id: Id, teams: seq<Id>, fault: Fault)
    requires cfg.FreshIds() && IdsAhead(cfg, t) && id in t.invitations && TeamsBelong(t.teams, t.invitations[id].org, teams)
    ensures Confined(t, Enter(cfg, t, user, id, teams, fault).0, t.invitations[id].org)
  {
    var t' := Enter(cfg, t, user, id, teams, fault).0;
    EnterSeats(cfg, t, user, id, teams, fault);
    NewSeatsIn(t, t', teams, t.invitations[id].org);
    EnterEffect(cfg, t, user, id, teams, fault);
    AdmissionConfined(cfg, t, t', user, id);
  }

  lemma SettlingConfined(cfg: Config, t: Tables, id: Id, status: Status)
    requires id in t.invitations
    ensures Confined(t, t.(invitations := WithStatus(t.invitations, id, status)), t.invitations[id].org)
  {
    OnlyInvitationsDiffer(t, WithStatus(t.invitations, id, status), t.next, t.invitations[id].org);
  }

  lemma RefusedConfined(t: Tables, org: Id)
    ensures Confined(t, t, org)
  {
  }

  lemma InvitationConfined(cfg: Config, env: Env, t: Tables, a: InvitationAction, now: int)
    requires cfg.FreshIds() && IdsAhead(cfg, t)
    ensures Confined(t, DoInvitation(cfg, env, t, a, now).0, InvitationScope(t, a))
  {
    RefusedConfined(t, InvitationScope(t, a));
    match a
    case DoInvite(user, request) =>
      InviteConfined(cfg, env, t, user, request, now);
      var t' := Invite(cfg, env, t, user, request, now).0;
      OnlyInvitationsDiffer(t, t'.invitations, t'.next, request.org);
    case DoAccept(caller, id, fault) =>
      if CheckAccept(cfg, t, caller, id, now).Done? {
        EnterConfined(cfg, t, caller.user, id, Pieces(t.invitations[id].teamIds), fault);
      }
    case DoReject(caller, id) =>
      if CheckReject(cfg, t, caller, id, now).Done? {
        SettlingConfined(cfg, t, id, Rejected);
      }
    case DoCancel(user, id) =>
      if CheckCancel(cfg, t, user, id).Done? {
        SettlingConfined(cfg, t, id, Canceled);
      }
  }

  lemma AddMemberConfined(cfg: Config, env: Env, t: Tables, user: Id, roles: seq<string>, org: Id, team: Id)
    requires cfg.FreshIds() && IdsAhead(cfg, t)
    ensures Confined(t, AddMember(cfg, env, t, user, roles, org, team).0, org)
  {
    if CheckAddMember(cfg, env, t, user, roles, org, team).Done? {
      OneMoreMember(t.members, cfg.gen(t.next), Member(org, user, ParseRole(roles).value));
      if team != "" {
        OneMoreSeatIn(t, AddMember(cfg, env, t, user, roles, org, team).0, cfg.gen(t.next + 1), Seat(team, user), org);
      }
    }
  }

  lemma RemoveMemberConfined(cfg: Config, env: Env, t: Tables, user: Id, org: Id, key: string)
    ensures Confined(t, RemoveMember(cfg, env, t, user, org, key).0, org)
  {
    OnlyMembersDiffer(t, RemoveMember(cfg, env, t, user, org, key).0.members, org);
  }

  lemma UpdateRoleConfined(cfg: Config, env: Env, t: Tables, user: Id, org: Id, id: Id, roles: seq<string>)
    ensures Confined(t, UpdateRole(cfg, env, t, user, org, id, roles).0, org)
  {
    OnlyMembersDiffer(t, UpdateRole(cfg, env, t, user, org, id, roles).0.members, org);
  }

  lemma LeaveConfined(cfg: Config, t: Tables, user: Id, org: Id)
    ensures Confined(t, Leave(cfg, t, user, org).0, org)
  {
    OnlyMembersDiffer(t, Leave(cfg, t, user, org).0.members, org);
  }

  lemma MemberConfined(cfg: Config, env: Env, t: Tables, a: MemberAction)
    requires cfg.FreshIds() && IdsAhead(cfg, t)
    ensures Confined(t, DoMember(cfg, env, t, a).0, a.org)
  {
    match a
    case DoAddMember(user, roles, org, team) => AddMemberConfined(cfg, env, t, user, roles, org, team);
    case DoRemoveMember(user, org, key) => RemoveMemberConfined(cfg, env, t, user, org, key);
    case DoUpdateRole(user, org, id, roles) => UpdateRoleConfined(cfg, env, t, user, org, id, roles);
    case DoLeave(user, org) => LeaveConfined(cfg, t, user, org);
  }

  lemma CreateTeamConfined(cfg: Config, t: Tables, user: Id, org: Id, name: string)
    requires cfg.gen(t.next) !in t.teams
    ensures Confined(t, CreateTeam(cfg, t, user, org, name).0, org)
  {
    var t' := CreateTeam(cfg, t, user, org, name).0;
    OnlyTeamsDiffer(t, t'.teams, t.seats, t'.next, org);
  }

  lemma RemoveTeamConfined(cfg: Config, t: Tables, user: Id, org: Id, team: Id, active: Option<Id>)
    ensures Confined(t, RemoveTeam(cfg, t, user, org, team, active).0, org)
  {
    var t' := RemoveTeam(cfg, t, user, org, team, active).0;
    OnlyTeamsDiffer(t, t'.teams, t'.seats, t.next, org);
  }

  lemma AddTeamMemberConfined(cfg: Config, env: Env, t: Tables, user: Id, org: Id, team: Id, target: Id)
    requires cfg.gen(t.next) !in t.seats
    ensures Confined(t, AddTeamMember(cfg, env, t, user, org, team, target).0, org)
  {
    var t' := AddTeamMember(cfg, env, t, user, org, team, target).0;
    OnlyTeamsDiffer(t, t.teams, t'.seats, t'.next, org);
  }

  lemma RemoveTeamMemberConfined(cfg: Config, env: Env, t: Tables, user: Id, org: Id, seat: Id, team: Id, target: Id)
    ensures Confined(t, RemoveTeamMember(cfg, env, t, user, org, seat, team, target).0, org)
  {
    var t' := RemoveTeamMember(cfg, env, t, user, org, seat, team, target).0;
    OnlyTeamsDiffer(t, t.teams, t'.seats, t.next, org);
  }

  lemma TeamConfined(cfg: Config, env: Env, t: Tables, a: TeamAction)
    requires cfg.FreshIds() && IdsAhead(cfg, t)
    ensures Confined(t, DoTeam(cfg, env, t, a).0, a.org)
  {
    match a
    case DoCreateTeam(user, org, name) => CreateTeamConfined(cfg, t, user, org, name);
    case DoRemoveTeam(user, org, team, active) => RemoveTeamConfined(cfg, t, user, org, team, active);
    case DoAddTeamMember(user, org, team, target) => AddTeamMemberConfined(cfg, env, t, user, org, team, target);
    case DoRemoveTeamMember(user, org, seat, team, target) => RemoveTeamMemberConfined(cfg, env, t, user, org, seat, team, target);
  }

  lemma CreateRoleConfined(cfg: Config, t: Tables, user: Id, org: Id, role: string, permission: Statements)
    requires cfg.gen(t.next) !in t.roles
    ensures Confined(t, CreateRole(cfg, t, user, org, role, permission).0, org)
  {
    var t' := CreateRole(cfg, t, user, org, role, permission).0;
    OnlyRolesDiffer(t, t'.roles, t'.next, org);
  }

  lemma ChangeRoleConfined(cfg: Config, t: Tables, user: Id, org: Id, id: Id, name: string, newName: string, permission: Statements)
    ensures Confined(t, ChangeRole(cfg, t, user, org, id, name, newName, permission).0, org)
  {
    OnlyRolesDiffer(t, ChangeRole(cfg, t, user, org, id, name, newName, permission).0.roles, t.next, org);
  }

  lemma DeleteRoleConfined(cfg: Config, t: Tables, user: Id, org: Id, id: Id, name: string)
    ensures Confined(t, DeleteRole(cfg, t, user, org, id, name).0, org)
  {
    OnlyRolesDiffer(t, DeleteRole(cfg, t, user, org, id, name).0.roles, t.next, org);
  }

  lemma RoleConfined(cfg: Config, t: Tables, a: RoleAction)
    requires cfg.FreshIds() && IdsAhead(cfg, t)
    ensures Confined(t, DoRole(cfg, t, a).0, a.org)
  {
    match a
    case DoCreateRole(user, org, role, permission) => CreateRoleConfined(cfg, t, user, org, role, permission);
    case DoChangeRole(user, org, id, name, newName, permission) => ChangeRoleConfined(cfg, t, user, org, id, name, newName, permission);
    case DoDeleteRole(user, org, id, name) => DeleteRoleConfined(cfg, t, user, org, id, name);
  }

  /** No request touches what belongs to another organization than the one it is about. */
  lemma NothingBeyondTheOrganization(cfg: Config, t: Tables, s: Step)
    requires cfg.FreshIds() && IdsAhead(cfg, t)
    ensures Confined(t, Do(cfg, t, s).0, ScopeOf(cfg, t, s.action))
  {
    match s.action
    case OnOrg(a) => OrgConfined(cfg, t, a);
    case OnInvitation(a) => InvitationConfined(cfg, s.env, t, a, s.now);
    case OnMember(a) => MemberConfined(cfg, s.env, t, a);
    case OnTeam(a) => TeamConfined(cfg, s.env, t, a);
    case OnRole(a) => RoleConfined(cfg, t, a);
  }

}
