/** The handlers of the organization plugin as steps on its tables: the same checks
    in the same order, the same writes, the same error codes. */
module OrgHandlers {
  import opened Common
  import opened Strings
  import opened RoleCodec
  import opened Access
  import opened OrgTables

  datatype Code =
    | Forbidden | InvalidRequest | InvalidOrganization | InvalidSlug | SlugExists
    | OrgNotFound | InvitationNotFound

  datatype Reply = Done | Refused(code: Code)

  predicate SlugOk(slug: string)
  {
    slug != "" && forall i :: 0 <= i < |slug| ==>
      'a' <= slug[i] <= 'z' || '0' <= slug[i] <= '9' || slug[i] == '-'
  }

  function NormalizeEmail(cfg: Config, email: string): string
  {
    cfg.lower(TrimSpace(email))
  }

  /** `normalizeOrganizationRoleName`. */
  function RoleName(cfg: Config, role: string): string
  {
    cfg.lower(TrimSpace(role))
  }

  // -------------------------------------------------------------- organizations

  ghost function CheckCreate(cfg: Config, t: Tables, user: Id, name: string, slug: string): Reply
  {
    if name == "" || slug == "" then Refused(InvalidOrganization)
    else if !cfg.allowCreate then Refused(Forbidden)
    else if cfg.organizationLimit > 0 && |MembershipsOf(t.members, user)| >= cfg.organizationLimit then Refused(Forbidden)
    else if !SlugOk(cfg.lower(slug)) then Refused(InvalidSlug)
    else if exists o :: o in t.orgs && t.orgs[o] == cfg.lower(slug) then Refused(SlugExists)
    else Done
  }

  /** `organization/create` with its creator and, if enabled, its default team. */
  function Found(cfg: Config, t: Tables, user: Id, slug: string): Tables
  {
    var org, member := cfg.gen(t.next), cfg.gen(t.next + 1);
    var t' := t.(orgs := t.orgs[org := cfg.lower(slug)],
                 members := t.members[member := Member(org, user, cfg.CreatorRole())],
                 next := t.next + 2);
    if !cfg.DefaultTeam() then t'
    else
      var team, seat := cfg.gen(t.next + 2), cfg.gen(t.next + 3);
      t'.(teams := t.teams[team := org], seats := t.seats[seat := Seat(team, user)], next := t.next + 4)
  }

  ghost function Create(cfg: Config, t: Tables, user: Id, name: string, slug: string): (r: (Tables, Reply))
    ensures r.0 == t.(orgs := r.0.orgs, members := r.0.members, teams := r.0.teams, seats := r.0.seats, next := r.0.next)
    ensures r.1.Refused? ==> r.0 == t
  {
    var check := CheckCreate(cfg, t, user, name, slug);
    if check.Done? then (Found(cfg, t, user, slug), Done) else (t, check)
  }

  /** The slug after an update of the organization. */
  function NewSlug(cfg: Config, current: string, slug: string): string
  {
    if slug != "" then cfg.lower(slug) else if cfg.keepsSlug then current else ""
  }

  ghost function CheckUpdate(cfg: Config, t: Tables, user: Id, org: Id, slug: string): Reply
  {
    if org == "" then Refused(InvalidOrganization)
    else if FindMember(t.members, org, user).None? then Refused(OrgNotFound)
    else if !MayDo(cfg, t, org, user, Ask("organization", "update")) then Refused(Forbidden)
    else if slug != "" && !SlugOk(cfg.lower(slug)) then Refused(InvalidSlug)
    else if org !in t.orgs then Refused(OrgNotFound)
    else
      var slug' := NewSlug(cfg, t.orgs[org], slug);
      if slug' != t.orgs[org] && exists o :: o in t.orgs && t.orgs[o] == slug' then Refused(OrgNotFound)
      else Done
  }

  /** `organization/update`, as far as the slug goes. */
  ghost function Update(cfg: Config, t: Tables, user: Id, org: Id, slug: string): (r: (Tables, Reply))
    ensures r.0 == t.(orgs := r.0.orgs) && r.0.orgs.Keys == t.orgs.Keys
    ensures r.1.Refused? ==> r.0 == t
  {
    var check := CheckUpdate(cfg, t, user, org, slug);
    if check.Done? then (t.(orgs := t.orgs[org := NewSlug(cfg, t.orgs[org], slug)]), Done) else (t, check)
  }

  ghost function CheckDelete(cfg: Config, t: Tables, user: Id, org: Id): Reply
  {
    if cfg.deletionDisabled then Refused(OrgNotFound)
    else if org == "" then Refused(InvalidRequest)
    else if FindMember(t.members, org, user).None? then Refused(OrgNotFound)
    else if !MayDo(cfg, t, org, user, Ask("organization", "delete")) then Refused(Forbidden)
    else if org !in t.orgs then Refused(OrgNotFound)
    else Done
  }

  /** `DeleteOrganization` of the stores: the seats of its teams stay behind. */
  function Dissolve(t: Tables, org: Id): Tables
  {
    t.(orgs := t.orgs - {org},
       members := map id | id in t.members && t.members[id].org != org :: t.members[id],
       invitations := map id | id in t.invitations && t.invitations[id].org != org :: t.invitations[id],
       teams := map id | id in t.teams && t.teams[id] != org :: t.teams[id],
       roles := map id | id in t.roles && t.roles[id].org != org :: t.roles[id])
  }

  ghost function Delete(cfg: Config, t: Tables, user: Id, org: Id): (r: (Tables, Reply))
    ensures r.0 == t.(orgs := r.0.orgs, members := r.0.members, invitations := r.0.invitations, teams := r.0.teams, roles := r.0.roles)
    ensures r.1.Refused? ==> r.0 == t
  {
    var check := CheckDelete(cfg, t, user, org);
    if check.Done? then (Dissolve(t, org), Done) else (t, check)
  }

  // -------------------------------------------------------------- invitations

  datatype InviteRequest = InviteRequest(org: Id, email: string, roles: seq<string>, resend: bool, teams: seq<string>)

  /** What `invite-member` checks before it looks for an earlier invitation. */
  ghost function CheckInvite(cfg: Config, env: Env, t: Tables, user: Id, r: InviteRequest): Reply
  {
    var role, email := ParseRole(r.roles), NormalizeEmail(cfg, r.email);
    if r.org == "" || role.NoRole? || !cfg.validEmail(email) then Refused(InvalidRequest)
    else if !MayDo(cfg, t, r.org, user, Ask("invitation", "create")) then Refused(Forbidden)
    else if !RoleExists(cfg, t.roles, r.org, role.value) then Refused(InvalidRequest)
    else if HasRole(role.value, cfg.CreatorRole())
            && !IsCreator(cfg, t.members[FindMember(t.members, r.org, user).value]) then Refused(Forbidden)
    else if r.org !in t.orgs then Refused(OrgNotFound)
    else if email in env.byEmail && FindMember(t.members, r.org, env.byEmail[email]).Some? then Refused(InvalidRequest)
    else Done
  }

  function WithStatus(invitations: Invitations, id: Id, status: Status): Invitations
    requires id in invitations
  {
    invitations[id := invitations[id].(status := status)]
  }

  /** What it checks once an earlier invitation is out of the way. */
  ghost function CheckNewInvitation(cfg: Config, t: Tables, invitations: Invitations, r: InviteRequest, now: int): Reply
  {
    var teams := ParseTeams(r.teams);
    if |LiveOf(invitations, r.org, now)| >= cfg.InvitationLimit() then Refused(Forbidden)
    else if teams.BadTeam? then Refused(InvalidRequest)
    else if teams.ids != [] && !cfg.teamsEnabled then Refused(InvalidRequest)
    else if !TeamsBelong(t.teams, r.org, teams.ids) then Refused(InvalidRequest)
    else if AnyTeamFull(cfg, t.seats, teams.ids, "") then Refused(Forbidden)
    else Done
  }

  ghost function NewInvitation(cfg: Config, r: InviteRequest, now: int): Invitation
    requires ParseRole(r.roles).Roles? && ParseTeams(r.teams).Teams?
  {
    Invitation(r.org, NormalizeEmail(cfg, r.email), ParseRole(r.roles).value, Pending,
               Join(ParseTeams(r.teams).ids, ','), now + cfg.InvitationExpiresIn())
  }

  /** The new invitation, on rows in which the recipient has no live one. */
  ghost function InviteAnew(cfg: Config, t: Tables, rows: Invitations, r: InviteRequest, now: int): (res: (Tables, Reply))
    requires ParseRole(r.roles).Roles?
    ensures res.0 == t.(invitations := res.0.invitations, next := res.0.next)
  {
    var check := CheckNewInvitation(cfg, t, rows, r, now);
    if !check.Done? then (t.(invitations := rows), check)
    else (t.(invitations := rows[cfg.gen(t.next) := NewInvitation(cfg, r, now)], next := t.next + 1), Done)
  }

  function Prolong(cfg: Config, invitations: Invitations, id: Id, now: int): Invitations
    requires id in invitations
  {
    invitations[id := invitations[id].(expiresAt := now + cfg.InvitationExpiresIn())]
  }

  /** `invite-member`. An earlier live invitation is prolonged, or refused, or
      cancelled; when it is cancelled it stays so even if the new one then fails
      (`OrgInvitations.RefusedInviteMayCancel` says exactly when). */
  ghost function Invite(cfg: Config, env: Env, t: Tables, user: Id, r: InviteRequest, now: int): (res: (Tables, Reply))
    ensures res.0 == t.(invitations := res.0.invitations, next := res.0.next)
  {
    var check := CheckInvite(cfg, env, t, user, r);
    var earlier := FindLive(cfg, t.invitations, r.org, NormalizeEmail(cfg, r.email), now);
    if !check.Done? then (t, check)
    else if earlier.None? then InviteAnew(cfg, t, t.invitations, r, now)
    else if r.resend then (t.(invitations := Prolong(cfg, t.invitations, earlier.value, now)), Done)
    else if !cfg.cancelOnReInvite then (t, Refused(InvalidRequest))
    else InviteAnew(cfg, t, WithStatus(t.invitations, earlier.value, Canceled), r, now)
  }

  ghost function CheckAccept(cfg: Config, t: Tables, caller: Caller, id: Id, now: int): Reply
  {
    if id == "" then Refused(InvalidRequest)
    else if id !in t.invitations || !Live(t.invitations[id], now) then Refused(InvitationNotFound)
    else
      var inv := t.invitations[id];
      if cfg.lower(inv.email) != cfg.lower(caller.email) then Refused(Forbidden)
      else if cfg.requireVerifiedEmail && !caller.verified then Refused(Forbidden)
      else if inv.org !in t.orgs then Refused(OrgNotFound)
      else if FindMember(t.members, inv.org, caller.user).Some? then Refused(InvalidRequest)
      else if MembersFull(cfg, t.members, inv.org) then Refused(Forbidden)
      else
        var teams := Pieces(inv.teamIds);
        if teams != [] && !cfg.teamsEnabled then Refused(InvalidRequest)
        else if !TeamsBelong(t.teams, inv.org, teams) then Refused(InvalidRequest)
        else if AnyTeamFull(cfg, t.seats, teams, caller.user) then Refused(Forbidden)
        else Done
  }

  /** `createInvitationTeamMemberships`: one seat for each team in which the user has
      none. With `fails` set to n the write of the (n+1)-st new seat fails. */
  ghost function JoinTeams(cfg: Config, seats: Seats, next: nat, teams: seq<Id>, user: Id, fails: Option<nat>): (Seats, nat, bool)
    decreases teams
  {
    if teams == [] then (seats, next, true)
    else if HasSeat(seats, teams[0], user) then JoinTeams(cfg, seats, next, teams[1..], user, fails)
    else if fails == Some(0) then (seats, next + 1, false)
    else
      JoinTeams(cfg, seats[cfg.gen(next) := Seat(teams[0], user)], next + 1, teams[1..], user,
                if fails.Some? then Some(fails.value - 1) else None)
  }

  /** Which write of `accept-invitation` fails, if any. */
  datatype Fault = NoFault | MemberWrite | SeatWrite(n: nat)

  function FailingSeat(fault: Fault): Option<nat>
  {
    if fault.SeatWrite? then Some(fault.n) else None
  }

  /** The writes of `accept-invitation`. When a later one fails the member is removed
      and the invitation is pending again, but seats already taken stay
      (`OrgTeams.RefusedAcceptMayLeaveSeats` says exactly which). */
  ghost function Enter(cfg: Config, t: Tables, user: Id, id: Id, teams: seq<Id>, fault: Fault): (r: (Tables, Reply))
    requires id in t.invitations
    ensures r.0 == t.(members := r.0.members, invitations := r.0.invitations, seats := r.0.seats, next := r.0.next)
  {
    var inv := t.invitations[id];
    if fault.MemberWrite? then (t.(next := t.next + 1), Refused(InvalidRequest))
    else
      var joined := JoinTeams(cfg, t.seats, t.next + 1, teams, user, FailingSeat(fault));
      if !joined.2 then (t.(seats := joined.0, next := joined.1), Refused(InvalidRequest))
      else
        (t.(members := t.members[cfg.gen(t.next) := Member(inv.org, user, inv.role)],
            invitations := WithStatus(t.invitations, id, Accepted),
            seats := joined.0, next := joined.1), Done)
  }

  ghost function Accept(cfg: Config, t: Tables, caller: Caller, id: Id, fault: Fault, now: int): (r: (Tables, Reply))
    ensures r.0 == t.(members := r.0.members, invitations := r.0.invitations, seats := r.0.seats, next := r.0.next)
  {
    var check := CheckAccept(cfg, t, caller, id, now);
    if check.Done? then Enter(cfg, t, caller.user, id, Pieces(t.invitations[id].teamIds), fault) else (t, check)
  }

  ghost function CheckReject(cfg: Config, t: Tables, caller: Caller, id: Id, now: int): Reply
  {
    if id == "" then Refused(InvalidRequest)
    else if id !in t.invitations || !Live(t.invitations[id], now) then Refused(InvitationNotFound)
    else if cfg.lower(t.invitations[id].email) != cfg.lower(caller.email) then Refused(Forbidden)
    else if cfg.requireVerifiedEmail && !caller.verified then Refused(Forbidden)
    else if t.invitations[id].org !in t.orgs then Refused(OrgNotFound)
    else Done
  }

  ghost function Reject(cfg: Config, t: Tables, caller: Caller, id: Id, now: int): (r: (Tables, Reply))
    ensures r.0 == t.(invitations := r.0.invitations)
    ensures r.1.Refused? ==> r.0 == t
  {
    var check := CheckReject(cfg, t, caller, id, now);
    if check.Done? then (t.(invitations := WithStatus(t.invitations, id, Rejected)), Done) else (t, check)
  }

  /** `cancel-invitation` does not ask for the status of the invitation. */
  ghost function CheckCancel(cfg: Config, t: Tables, user: Id, id: Id): Reply
  {
    if id == "" then Refused(InvalidRequest)
    else if id !in t.invitations then Refused(InvitationNotFound)
    else
      var org := t.invitations[id].org;
      if FindMember(t.members, org, user).None? then Refused(OrgNotFound)
      else if !MayDo(cfg, t, org, user, Ask("invitation", "cancel")) then Refused(Forbidden)
      else if org !in t.orgs then Refused(OrgNotFound)
      else Done
  }

  ghost function Cancel(cfg: Config, t: Tables, user: Id, id: Id): (r: (Tables, Reply))
    ensures r.0 == t.(invitations := r.0.invitations)
    ensures r.1.Refused? ==> r.0 == t
  {
    var check := CheckCancel(cfg, t, user, id);
    if check.Done? then (t.(invitations := WithStatus(t.invitations, id, Canceled)), Done) else (t, check)
  }

  // -------------------------------------------------------------- members

  ghost function CheckAddMember(cfg: Config, env: Env, t: Tables, user: Id, roles: seq<string>, org: Id, team: Id): Reply
  {
    if user == "" || ParseRole(roles).NoRole? then Refused(InvalidRequest)
    else if org == "" then Refused(InvalidOrganization)
    else if user !in env.users then Refused(InvalidRequest)
    else if FindMember(t.members, org, user).Some? then Refused(InvalidRequest)
    else if org !in t.orgs then Refused(OrgNotFound)
    else if MembersFull(cfg, t.members, org) then Refused(Forbidden)
    else if team == "" then Done
    else if !cfg.teamsEnabled then Refused(InvalidRequest)
    else if team !in t.teams || t.teams[team] != org then Refused(InvalidRequest)
    else if TeamFull(cfg, t.seats, team, user) then Refused(Forbidden)
    else Done
  }

  /** `add-member`, the server-side call: it asks neither for a session nor whether
      the role exists, and adds a seat even if the user has one. */
  ghost function AddMember(cfg: Config, env: Env, t: Tables, user: Id, roles: seq<string>, org: Id, team: Id): (r: (Tables, Reply))
    ensures r.0 == t.(members := r.0.members, seats := r.0.seats, next := r.0.next)
    ensures r.1.Refused? ==> r.0 == t
  {
    var check := CheckAddMember(cfg, env, t, user, roles, org, team);
    if !check.Done? then (t, check)
    else
      var t' := t.(members := t.members[cfg.gen(t.next) := Member(org, user, ParseRole(roles).value)], next := t.next + 1);
      if team == "" then (t', Done)
      else (t'.(seats := t.seats[cfg.gen(t.next + 1) := Seat(team, user)], next := t.next + 2), Done)
  }

  datatype Search = Hit(id: Id) | Miss(code: Code)

  /** `findRemovableMember`: by e-mail if the key looks like one, else by id. */
  ghost function FindRemovable(cfg: Config, env: Env, members: Members, org: Id, key: string): (r: Search)
    ensures r.Hit? ==> r.id in members && members[r.id].org == org
  {
    if key == "" then Miss(InvalidRequest)
    else if '@' in key then
      var email := NormalizeEmail(cfg, key);
      if email !in env.byEmail then Miss(OrgNotFound)
      else
        var m := FindMember(members, org, env.byEmail[email]);
        if m.None? then Miss(OrgNotFound) else Hit(m.value)
    else if key !in members || members[key].org != org then Miss(OrgNotFound)
    else Hit(key)
  }

  ghost function CheckRemoveMember(cfg: Config, env: Env, t: Tables, user: Id, org: Id, key: string): Search
  {
    var updater := FindMember(t.members, org, user);
    if org == "" then Miss(InvalidOrganization)
    else if updater.None? then Miss(OrgNotFound)
    else if !MayDo(cfg, t, org, user, Ask("member", "delete")) then Miss(Forbidden)
    else
      var found := FindRemovable(cfg, env, t.members, org, key);
      if found.Miss? then found
      else
        var target := t.members[found.id];
        if IsCreator(cfg, target) && !IsCreator(cfg, t.members[updater.value]) then Miss(InvalidRequest)
        else if IsCreator(cfg, target) && |CreatorsOf(cfg, t.members, org)| <= 1 then Miss(InvalidRequest)
        else if target.user !in env.users then Miss(InvalidRequest)
        else if org !in t.orgs then Miss(OrgNotFound)
        else found
  }

  ghost function RemoveMember(cfg: Config, env: Env, t: Tables, user: Id, org: Id, key: string): (r: (Tables, Reply))
    ensures r.0 == t.(members := r.0.members)
    ensures r.1.Refused? ==> r.0 == t
  {
    var check := CheckRemoveMember(cfg, env, t, user, org, key);
    if check.Miss? then (t, Refused(check.code)) else (t.(members := t.members - {check.id}), Done)
  }

  ghost function CheckUpdateRole(cfg: Config, env: Env, t: Tables, user: Id, org: Id, id: Id, roles: seq<string>): Reply
  {
    var role, updater := ParseRole(roles), FindMember(t.members, org, user);
    if role.NoRole? || id == "" then Refused(InvalidRequest)
    else if org == "" then Refused(InvalidOrganization)
    else if updater.None? || id !in t.members then Refused(OrgNotFound)
    else
      var me, target := t.members[updater.value], t.members[id];
      if target.org != org then Refused(Forbidden)
      else if !RoleExists(cfg, t.roles, org, role.value) then Refused(InvalidRequest)
      else if !IsCreator(cfg, me) && !MayDo(cfg, t, org, user, Ask("member", "update")) then Refused(Forbidden)
      else
        var wasCreator, becomesCreator := IsCreator(cfg, target), HasRole(role.value, cfg.CreatorRole());
        if (wasCreator || becomesCreator) && !IsCreator(cfg, me) then Refused(Forbidden)
        else if updater.value == id && wasCreator && !becomesCreator && |CreatorsOf(cfg, t.members, org)| <= 1 then
          Refused(InvalidRequest)
        else if target.user !in env.users then Refused(InvalidRequest)
        else if org !in t.orgs then Refused(OrgNotFound)
        else Done
  }

  ghost function UpdateRole(cfg: Config, env: Env, t: Tables, user: Id, org: Id, id: Id, roles: seq<string>): (r: (Tables, Reply))
    ensures r.0 == t.(members := r.0.members)
    ensures r.1.Refused? ==> r.0 == t
  {
    var check := CheckUpdateRole(cfg, env, t, user, org, id, roles);
    if check.Done? then (t.(members := t.members[id := t.members[id].(role := ParseRole(roles).value)]), Done) else (t, check)
  }

  ghost function CheckLeave(cfg: Config, t: Tables, user: Id, org: Id): Reply
  {
    var m := FindMember(t.members, org, user);
    if org == "" then Refused(InvalidRequest)
    else if m.None? then Refused(OrgNotFound)
    else if IsCreator(cfg, t.members[m.value]) && |CreatorsOf(cfg, t.members, org)| <= 1 then Refused(InvalidRequest)
    else Done
  }

  ghost function Leave(cfg: Config, t: Tables, user: Id, org: Id): (r: (Tables, Reply))
    ensures r.0 == t.(members := r.0.members)
    ensures r.1.Refused? ==> r.0 == t
  {
    var check := CheckLeave(cfg, t, user, org);
    if check.Done? then (t.(members := t.members - {FindMember(t.members, org, user).value}), Done) else (t, check)
  }

  // -------------------------------------------------------------- teams

  ghost function CheckCreateTeam(cfg: Config, t: Tables, user: Id, org: Id, name: string): Reply
  {
    if name == "" then Refused(InvalidRequest)
    else if org == "" then Refused(InvalidOrganization)
    else if org !in t.orgs then Refused(OrgNotFound)
    else if !MayDo(cfg, t, org, user, Ask("team", "create")) then Refused(Forbidden)
    else if cfg.MaximumTeams() > 0 && |TeamsOf(t.teams, org)| >= cfg.MaximumTeams() then Refused(InvalidRequest)
    else Done
  }

  ghost function CreateTeam(cfg: Config, t: Tables, user: Id, org: Id, name: string): (r: (Tables, Reply))
    ensures r.0 == t.(teams := r.0.teams, next := r.0.next)
    ensures r.1.Refused? ==> r.0 == t
  {
    var check := CheckCreateTeam(cfg, t, user, org, name);
    if check.Done? then (t.(teams := t.teams[cfg.gen(t.next) := org], next := t.next + 1), Done) else (t, check)
  }

  /** `active` is the team selected in the caller's session. */
  ghost function CheckRemoveTeam(cfg: Config, t: Tables, user: Id, org: Id, team: Id, active: Option<Id>): Reply
  {
    if team == "" then Refused(InvalidRequest)
    else if org == "" then Refused(InvalidOrganization)
    else if !MayDo(cfg, t, org, user, Ask("team", "delete")) || active == Some(team) then Refused(Forbidden)
    else if team !in t.teams || t.teams[team] != org then Refused(InvalidRequest)
    else if org !in t.orgs then Refused(OrgNotFound)
    else if |TeamsOf(t.teams, org)| <= 1 && !cfg.AllowRemovingAllTeams() then Refused(InvalidRequest)
    else Done
  }

  ghost function RemoveTeam(cfg: Config, t: Tables, user: Id, org: Id, team: Id, active: Option<Id>): (r: (Tables, Reply))
    ensures r.0 == t.(teams := r.0.teams, seats := r.0.seats)
    ensures r.1.Refused? ==> r.0 == t
  {
    var check := CheckRemoveTeam(cfg, t, user, org, team, active);
    if check.Done? then
      (t.(teams := t.teams - {team}, seats := map id | id in t.seats && t.seats[id].team != team :: t.seats[id]), Done)
    else (t, check)
  }

  ghost function CheckAddTeamMember(cfg: Config, env: Env, t: Tables, user: Id, org: Id, team: Id, target: Id): Reply
  {
    if team == "" || target == "" then Refused(InvalidRequest)
    else if org == "" then Refused(InvalidOrganization)
    else if !MayDo(cfg, t, org, user, Ask("member", "update")) then Refused(Forbidden)
    else if FindMember(t.members, org, target).None? then Refused(InvalidRequest)
    else if team !in t.teams || t.teams[team] != org then Refused(InvalidRequest)
    else if org !in t.orgs then Refused(OrgNotFound)
    else if target !in env.users then Refused(InvalidRequest)
    else if HasSeat(t.seats, team, target) then Done
    else if TeamFull(cfg, t.seats, team, target) then Refused(Forbidden)
    else Done
  }

  ghost function AddTeamMember(cfg: Config, env: Env, t: Tables, user: Id, org: Id, team: Id, target: Id): (r: (Tables, Reply))
    ensures r.0 == t.(seats := r.0.seats, next := r.0.next)
    ensures r.1.Refused? ==> r.0 == t
  {
    var check := CheckAddTeamMember(cfg, env, t, user, org, team, target);
    if !check.Done? || HasSeat(t.seats, team, target) then (t, check)
    else (t.(seats := t.seats[cfg.gen(t.next) := Seat(team, target)], next := t.next + 1), Done)
  }

  /** The seat that `remove-team-member` is about: named by team and user, or by its
      own id within the teams of the organization. */
  function NamedSeat(t: Tables, org: Id, seat: Id, team: Id, target: Id): Seat
  {
    if team != "" && target != "" then Seat(team, target)
    else if seat != "" && seat in t.seats && t.seats[seat].team in t.teams && t.teams[t.seats[seat].team] == org then
      t.seats[seat]
    else Seat(team, target)
  }

  ghost function CheckRemoveTeamMember(cfg: Config, env: Env, t: Tables, user: Id, org: Id, seat: Id, team: Id, target: Id): Reply
  {
    var named := NamedSeat(t, org, seat, team, target);
    if org == "" then Refused(InvalidOrganization)
    else if !MayDo(cfg, t, org, user, Ask("member", "delete")) then Refused(Forbidden)
    else if named.team == "" || named.user == "" then Refused(InvalidRequest)
    else if FindMember(t.members, org, named.user).None? then Refused(InvalidRequest)
    else if named.team !in t.teams || t.teams[named.team] != org then Refused(InvalidRequest)
    else if !HasSeat(t.seats, named.team, named.user) then Refused(InvalidRequest)
    else if org !in t.orgs then Refused(OrgNotFound)
    else if named.user !in env.users then Refused(InvalidRequest)
    else Done
  }

  /** `remove-team-member`: every seat of the user in the team goes. */
  ghost function RemoveTeamMember(cfg: Config, env: Env, t: Tables, user: Id, org: Id, seat: Id, team: Id, target: Id): (r: (Tables, Reply))
    ensures r.0 == t.(seats := r.0.seats)
    ensures r.1.Refused? ==> r.0 == t
  {
    var check := CheckRemoveTeamMember(cfg, env, t, user, org, seat, team, target);
    var named := NamedSeat(t, org, seat, team, target);
    if check.Done? then (t.(seats := map id | id in t.seats && t.seats[id] != named :: t.seats[id]), Done) else (t, check)
  }

  // -------------------------------------------------------------- dynamic roles

  ghost function CheckCreateRole(cfg: Config, t: Tables, user: Id, org: Id, role: string, permission: Statements): Reply
  {
    var name := RoleName(cfg, role);
    if role == "" || permission == map[] then Refused(InvalidRequest)
    else if org == "" || !MayDo(cfg, t, org, user, Ask("ac", "create")) then Refused(Forbidden)
    else if name in cfg.staticRoles then Refused(InvalidRequest)
    else if cfg.RoleLimit() > 0 && |RolesOf(t.roles, org)| >= cfg.RoleLimit() then Refused(InvalidRequest)
    else if FindRole(t.roles, org, name).Some? then Refused(InvalidRequest)
    else Done
  }

  ghost function CreateRole(cfg: Config, t: Tables, user: Id, org: Id, role: string, permission: Statements): (r: (Tables, Reply))
    ensures r.0 == t.(roles := r.0.roles, next := r.0.next)
    ensures r.1.Refused? ==> r.0 == t
  {
    var check := CheckCreateRole(cfg, t, user, org, role, permission);
    if check.Done? then
      (t.(roles := t.roles[cfg.gen(t.next) := Role(org, RoleName(cfg, role), permission)], next := t.next + 1), Done)
    else (t, check)
  }

  /** `findOrganizationRoleByRequest`. */
  ghost function RequestedRole(cfg: Config, roles: Roles, org: Id, id: Id, name: string): (r: Option<Id>)
    ensures r.Some? ==> r.value in roles && roles[r.value].org == org
  {
    if id != "" then (if id in roles && roles[id].org == org then Some(id) else None)
    else if name == "" then None
    else FindRole(roles, org, RoleName(cfg, name))
  }

  ghost function CheckRename(cfg: Config, t: Tables, user: Id, org: Id, id: Id, name: string, newName: string): Reply
  {
    var found := RequestedRole(cfg, t.roles, org, id, name);
    if id == "" && name == "" then Refused(InvalidRequest)
    else if org == "" || !MayDo(cfg, t, org, user, Ask("ac", "update")) then Refused(Forbidden)
    else if found.None? then Refused(InvalidRequest)
    else if newName == "" then Done
    else if RoleName(cfg, newName) in cfg.staticRoles then Refused(InvalidRequest)
    else if RoleName(cfg, newName) != t.roles[found.value].name && FindRole(t.roles, org, RoleName(cfg, newName)).Some? then
      Refused(InvalidRequest)
    else Done
  }

  /** `update-role`. */
  ghost function ChangeRole(cfg: Config, t: Tables, user: Id, org: Id, id: Id, name: string, newName: string, permission: Statements): (r: (Tables, Reply))
    ensures r.0 == t.(roles := r.0.roles)
    ensures r.1.Refused? ==> r.0 == t
  {
    var check, found := CheckRename(cfg, t, user, org, id, name, newName), RequestedRole(cfg, t.roles, org, id, name);
    if !check.Done? then (t, check)
    else
      var previous := t.roles[found.value];
      var role := Role(previous.org, if newName == "" then previous.name else RoleName(cfg, newName),
                       if permission == map[] then previous.permission else permission);
      (t.(roles := t.roles[found.value := role]), Done)
  }

  ghost function CheckDeleteRole(cfg: Config, t: Tables, user: Id, org: Id, id: Id, name: string): Reply
  {
    var found := RequestedRole(cfg, t.roles, org, id, name);
    if id == "" && name == "" then Refused(InvalidRequest)
    else if org == "" || !MayDo(cfg, t, org, user, Ask("ac", "delete")) then Refused(Forbidden)
    else if name != "" && RoleName(cfg, name) in cfg.staticRoles then Refused(InvalidRequest)
    else if found.None? then Refused(InvalidRequest)
    else if exists m :: m in MembersOf(t.members, org) && HasRole(t.members[m].role, t.roles[found.value].name) then Refused(InvalidRequest)
    else Done
  }

  ghost function DeleteRole(cfg: Config, t: Tables, user: Id, org: Id, id: Id, name: string): (r: (Tables, Reply))
    ensures r.0 == t.(roles := r.0.roles)
    ensures r.1.Refused? ==> r.0 == t
  {
    var check := CheckDeleteRole(cfg, t, user, org, id, name);
    if check.Done? then (t.(roles := t.roles - {RequestedRole(cfg, t.roles, org, id, name).value}), Done) else (t, check)
  }

}
