/** The tables of the organization plugin, its options, and the lookups, limits and
    permission checks that its handlers share. */
module OrgTables {
  import opened Common
  import opened Strings
  import opened RoleCodec
  import opened Access

  type Id = string

  datatype Member = Member(org: Id, user: Id, role: string)

  datatype Status = Pending | Accepted | Rejected | Canceled

  datatype Invitation = Invitation(org: Id, email: string, role: string, status: Status, teamIds: string, expiresAt: int)

  datatype Seat = Seat(team: Id, user: Id)

  datatype Role = Role(org: Id, name: string, permission: Statements)

  type Members = map<Id, Member>
  type Invitations = map<Id, Invitation>
  type Seats = map<Id, Seat>
  type Roles = map<Id, Role>

  /** Organizations by id with their slug, teams by id with their organization,
      and the number of ids drawn so far. */
  datatype Tables = Tables(
    orgs: map<Id, string>,
    members: Members,
    invitations: Invitations,
    teams: map<Id, Id>,
    seats: Seats,
    roles: Roles,
    next: nat)

  /** The options of the plugin, the source of fresh ids (the n-th id drawn), what the
      platform means by lower case and by a valid e-mail address, and whether an update
      without a slug keeps the old one, as in the SQL store, or not, as in memory. */
  datatype Config = Config(
    gen: nat -> Id,
    lower: string -> string,
    validEmail: string -> bool,
    allowCreate: bool,
    creatorRoleOption: string,
    organizationLimit: int,
    membershipLimitOption: int,
    invitationExpiresInOption: int,
    invitationLimitOption: int,
    cancelOnReInvite: bool,
    requireVerifiedEmail: bool,
    deletionDisabled: bool,
    staticRoles: map<string, Statements>,
    dynamicRoles: bool,
    maximumRoles: int,
    teamsEnabled: bool,
    defaultTeamOption: bool,
    maximumTeamsOption: int,
    maximumMembersPerTeam: int,
    allowRemovingAllTeamsOption: bool,
    keepsSlug: bool)
  {
    function CreatorRole(): (r: string)
      ensures r != ""
    {
      if creatorRoleOption == "" then "owner" else creatorRoleOption
    }

    function MembershipLimit(): (n: int)
      ensures n >= 1
    {
      if membershipLimitOption <= 0 then 100 else membershipLimitOption
    }

    function InvitationLimit(): (n: int)
      ensures n >= 1
    {
      if invitationLimitOption <= 0 then 100 else invitationLimitOption
    }

    /** In milliseconds. */
    function InvitationExpiresIn(): (n: int)
      ensures n >= 1
    {
      if invitationExpiresInOption <= 0 then 48 * 3_600_000 else invitationExpiresInOption
    }

    predicate DefaultTeam()
    {
      teamsEnabled && defaultTeamOption
    }

    function MaximumTeams(): int
    {
      if teamsEnabled then maximumTeamsOption else 0
    }

    function SeatLimit(): int
    {
      if teamsEnabled then maximumMembersPerTeam else 0
    }

    predicate AllowRemovingAllTeams()
    {
      teamsEnabled && allowRemovingAllTeamsOption
    }

    function RoleLimit(): int
    {
      if dynamicRoles then maximumRoles else 0
    }

    /** Drawn ids are never drawn again. */
    ghost predicate FreshIds()
    {
      forall i, j :: gen(i) == gen(j) ==> i == j
    }
  }

  /** `defaultOrganizationRolePermissions`. */
  function DefaultRoles(): map<string, Statements>
  {
    map[
      "owner" := map[
        "organization" := ["update", "delete"],
        "member" := ["create", "update", "delete"],
        "invitation" := ["create", "cancel"],
        "team" := ["create", "update", "delete"],
        "ac" := ["create", "read", "update", "delete"]],
      "admin" := map[
        "organization" := ["update"],
        "invitation" := ["create", "cancel"],
        "member" := ["create", "update", "delete"],
        "team" := ["create", "update", "delete"],
        "ac" := ["create", "read", "update", "delete"]],
      "member" := map["ac" := ["read"]]]
  }

  /** `organizationRolePermissions`: configured roles override the built-in ones.
      `Config.staticRoles` is such a table, but nothing below depends on its contents. */
  function RoleTable(custom: map<string, Statements>): (roles: map<string, Statements>)
    ensures "owner" in roles && "admin" in roles && "member" in roles
    ensures forall name :: name in roles <==> name in custom || name in {"owner", "admin", "member"}
    ensures forall name :: name in custom ==> roles[name] == custom[name]
  {
    DefaultRoles() + custom
  }

  /** Unless they are set: the creator is an owner, an organization has a hundred members and
      a hundred live invitations at most, and an invitation is good for two days. The
      limits on teams and on own roles are in force only with those features. */
  lemma OptionDefaults(cfg: Config)
    ensures cfg.creatorRoleOption == "" ==> cfg.CreatorRole() == "owner"
    ensures cfg.creatorRoleOption != "" ==> cfg.CreatorRole() == cfg.creatorRoleOption
    ensures cfg.MembershipLimit() == if cfg.membershipLimitOption > 0 then cfg.membershipLimitOption else 100
    ensures cfg.InvitationLimit() == if cfg.invitationLimitOption > 0 then cfg.invitationLimitOption else 100
    ensures cfg.InvitationExpiresIn() == if cfg.invitationExpiresInOption > 0 then cfg.invitationExpiresInOption else 172_800_000
    ensures !cfg.teamsEnabled ==> cfg.MaximumTeams() == cfg.SeatLimit() == 0
    ensures cfg.teamsEnabled ==> cfg.MaximumTeams() == cfg.maximumTeamsOption && cfg.SeatLimit() == cfg.maximumMembersPerTeam
    ensures cfg.RoleLimit() == if cfg.dynamicRoles then cfg.maximumRoles else 0
  {
  }

  function Ask(resource: string, action: string): Statements
  {
    map[resource := [action]]
  }

  /** The core store as a handler sees it: the users, and their ids by e-mail. */
  datatype Env = Env(users: set<Id>, byEmail: map<string, Id>)

  datatype Caller = Caller(user: Id, email: string, verified: bool)

  /** Ids from the `next`-th on have not been given to a row of the table. */
  ghost predicate Free<V>(cfg: Config, table: map<Id, V>, next: nat)
  {
    forall n: nat :: n >= next ==> cfg.gen(n) !in table
  }

  // -------------------------------------------------------------- members

  predicate IsMember(members: Members, id: Id, org: Id, user: Id)
  {
    id in members && members[id].org == org && members[id].user == user
  }

  /** `FindMemberByOrgAndUser`. */
  ghost function FindMember(members: Members, org: Id, user: Id): (r: Option<Id>)
    ensures r.Some? ==> IsMember(members, r.value, org, user)
    ensures r.None? ==> forall id :: !IsMember(members, id, org, user)
  {
    if exists id :: IsMember(members, id, org, user) then
      var id :| IsMember(members, id, org, user);
      Some(id)
    else None
  }

  ghost function MembersOf(members: Members, org: Id): set<Id>
  {
    set id | id in members && members[id].org == org
  }

  ghost function MembershipsOf(members: Members, user: Id): set<Id>
  {
    set id | id in members && members[id].user == user
  }

  /** `organizationMembershipLimitReached`. */
  ghost predicate MembersFull(cfg: Config, members: Members, org: Id)
  {
    |MembersOf(members, org)| >= cfg.MembershipLimit()
  }

  ghost predicate IsCreator(cfg: Config, m: Member)
  {
    HasRole(m.role, cfg.CreatorRole())
  }

  ghost function CreatorsOf(cfg: Config, members: Members, org: Id): set<Id>
  {
    set id | id in members && members[id].org == org && IsCreator(cfg, members[id])
  }

  // -------------------------------------------------------------- roles

  predicate IsRole(roles: Roles, id: Id, org: Id, name: string)
  {
    id in roles && roles[id].org == org && roles[id].name == name
  }

  /** `FindOrganizationRoleByOrgAndRole`. */
  ghost function FindRole(roles: Roles, org: Id, name: string): (r: Option<Id>)
    ensures r.Some? ==> IsRole(roles, r.value, org, name)
    ensures r.None? ==> forall id :: !IsRole(roles, id, org, name)
  {
    if exists id :: IsRole(roles, id, org, name) then
      var id :| IsRole(roles, id, org, name);
      Some(id)
    else None
  }

  ghost function RolesOf(roles: Roles, org: Id): set<Id>
  {
    set id | id in roles && roles[id].org == org
  }

  /** One role name grants the request, from the static table or from a role of
      the organization. */
  ghost predicate NameGrants(cfg: Config, roles: Roles, org: Id, name: string, request: Statements)
  {
    || (name in cfg.staticRoles && Allows(cfg.staticRoles[name], request))
    || (FindRole(roles, org, name).Some? && Allows(roles[FindRole(roles, org, name).value].permission, request))
  }

  /** `organizationMemberHasPermissions`. */
  ghost predicate Permitted(cfg: Config, roles: Roles, org: Id, role: string, request: Statements)
  {
    exists name :: name in Pieces(role) && NameGrants(cfg, roles, org, name, request)
  }

  ghost predicate NameExists(cfg: Config, roles: Roles, org: Id, name: string)
  {
    name in cfg.staticRoles || (cfg.dynamicRoles && FindRole(roles, org, name).Some?)
  }

  /** `organizationRoleExists`. */
  ghost predicate RoleExists(cfg: Config, roles: Roles, org: Id, role: string)
  {
    forall name :: name in Pieces(role) ==> NameExists(cfg, roles, org, name)
  }

  /** The caller is a member of the organization and may do what is asked. */
  ghost predicate MayDo(cfg: Config, t: Tables, org: Id, user: Id, request: Statements)
  {
    var m := FindMember(t.members, org, user);
    m.Some? && Permitted(cfg, t.roles, org, t.members[m.value].role, request)
  }

  /** `parseMemberRole` after the request body is decoded. */
  function ParseRole(values: seq<string>): Normalized
  {
    if AllPieces(values) == [] then NoRole else Roles(Join(AllPieces(values), ','))
  }

  // -------------------------------------------------------------- invitations

  predicate Live(inv: Invitation, now: int)
  {
    inv.status == Pending && now < inv.expiresAt
  }

  predicate IsLive(cfg: Config, invitations: Invitations, id: Id, org: Id, email: string, now: int)
  {
    && id in invitations && invitations[id].org == org && cfg.lower(invitations[id].email) == cfg.lower(email)
    && Live(invitations[id], now)
  }

  /** `pendingInvitationForEmailOrg`. */
  ghost function FindLive(cfg: Config, invitations: Invitations, org: Id, email: string, now: int): (r: Option<Id>)
    ensures r.Some? ==> IsLive(cfg, invitations, r.value, org, email, now)
    ensures r.None? ==> forall id :: !IsLive(cfg, invitations, id, org, email, now)
  {
    if exists id :: IsLive(cfg, invitations, id, org, email, now) then
      var id :| IsLive(cfg, invitations, id, org, email, now);
      Some(id)
    else None
  }

  ghost function LiveOf(invitations: Invitations, org: Id, now: int): set<Id>
  {
    set id | id in invitations && invitations[id].org == org && Live(invitations[id], now)
  }

  // -------------------------------------------------------------- teams

  ghost function TeamsOf(teams: map<Id, Id>, org: Id): set<Id>
  {
    set id | id in teams && teams[id] == org
  }

  predicate IsSeat(seats: Seats, id: Id, team: Id, user: Id)
  {
    id in seats && seats[id] == Seat(team, user)
  }

  /** `FindTeamMember` succeeds. */
  ghost predicate HasSeat(seats: Seats, team: Id, user: Id)
  {
    exists id :: IsSeat(seats, id, team, user)
  }

  ghost function SeatsOf(seats: Seats, team: Id): set<Id>
  {
    set id | id in seats && seats[id].team == team
  }

  /** The users that hold a seat in the team. */
  ghost function Occupants(seats: Seats, team: Id): set<Id>
  {
    set id | id in seats && seats[id].team == team :: seats[id].user
  }

  /** `teamMemberLimitReached`: rows are counted, but a user with a seat is let in;
      no user (the empty id) is let in at invitation time. */
  ghost predicate TeamFull(cfg: Config, seats: Seats, team: Id, user: Id)
  {
    cfg.SeatLimit() > 0 && !(user != "" && HasSeat(seats, team, user)) && |SeatsOf(seats, team)| >= cfg.SeatLimit()
  }

  /** `invitationTeamsBelongToOrg`. */
  predicate TeamsBelong(teams: map<Id, Id>, org: Id, ids: seq<Id>)
  {
    forall id :: id in ids ==> id in teams && teams[id] == org
  }

  /** `anyTeamMemberLimitReached`. */
  ghost predicate AnyTeamFull(cfg: Config, seats: Seats, ids: seq<Id>, user: Id)
  {
    exists id :: id in ids && TeamFull(cfg, seats, id, user)
  }

  /** `parseInvitationTeamIDs` after the request body is decoded. */
  ghost function ParseTeams(values: seq<string>): TeamList
  {
    if exists v :: v in values && ',' in TrimSpace(v) then BadTeam else Teams(Distinct(Cleaned(values)))
  }

}
