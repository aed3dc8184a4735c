/** The organization plugin over its store. Every handler is one atomic step that does
    what `OrgHandlers` says; the route table dispatches to them and, request after
    request, the store keeps every invariant of `OrgRuns`. */
module OrgPlugin {
  import opened Common
  import opened Strings
  import opened RoleCodec
  import opened Access
  import opened OrgTables
  import opened OrgHandlers
  import opened OrgInvitations
  import opened OrgRuns
  import opened OrgStore

  /** In tables that keep the invariants a lookup has at most one answer. */
  lemma LookupsAreUnique(cfg: Config, t: Tables, clock: int, now: int)
    requires TablesOk(cfg, t, clock) && clock <= now
    ensures OneRowEach(t.members) && DistinctNames(t.roles) && NoRivals(cfg, t.invitations, now)
  {
    TimePasses(cfg, t.invitations, clock, now);
  }

  class Plugin {
    const cfg: Config
    var orgs: map<Id, string>
    var members: Members
    var invitations: Invitations
    var teams: map<Id, Id>
    var seats: Seats
    var roles: Roles
    var next: nat
    /** The time of the latest request. */
    ghost var clock: int

    ghost function T(): Tables
      reads this
    {
      Tables(orgs, members, invitations, teams, seats, roles, next)
    }

    ghost predicate Valid()
      reads this
    {
      Sound(cfg) && TablesOk(cfg, T(), clock)
    }

    /** What the handlers need of the rows: lookups have at most one answer. */
    ghost predicate Unambiguous()
      reads this
    {
      OneRowEach(members) && DistinctNames(roles)
    }

    constructor (cfg: Config)
      requires Sound(cfg)
      ensures Valid() && this.cfg == cfg && T() == Empty()
    {
      this.cfg := cfg;
      orgs, members, invitations, teams, seats, roles, next := map[], map[], map[], map[], map[], map[], 0;
      clock := 0;
      new;
      EmptyOk(cfg, 0);
    }

    /** `id.Generate`. */
    method Generate() returns (id: Id)
      modifies this`next
      ensures id == cfg.gen(old(next)) && next == old(next) + 1
    {
      id := cfg.gen(next);
      next := next + 1;
    }

    /** The membership and permission check at the head of the handlers. */
    method Allowed(org: Id, user: Id, resource: string, action: string) returns (ok: bool)
      requires Unambiguous()
      ensures ok <==> MayDo(cfg, T(), org, user, Ask(resource, action))
    {
      var m := FindMemberByOrgAndUser(members, org, user);
      if m.None? {
        return false;
      }
      ok := HasPermissions(cfg, roles, org, members[m.value].role, Ask(resource, action));
    }

    // ------------------------------------------------------------ organizations

    /** The checks of `organization/create`. */
    method ScreenCreate(user: Id, name: string, slug: string) returns (r: Reply)
      ensures r == CheckCreate(cfg, T(), user, name, slug)
    {
      if name == "" || slug == "" {
        return Refused(InvalidOrganization);
      }
      if !cfg.allowCreate {
        return Refused(Forbidden);
      }
      if cfg.organizationLimit > 0 {
        var n := CountMemberships(members, user);
        if n >= cfg.organizationLimit {
          return Refused(Forbidden);
        }
      }
      if !SlugOk(cfg.lower(slug)) {
        return Refused(InvalidSlug);
      }
      var taken := SlugTaken(orgs, cfg.lower(slug));
      return if taken then Refused(SlugExists) else Done;
    }

    /** `createDefaultOrganizationTeam`. */
    method CreateDefaultTeam(orgId: Id, user: Id)
      modifies this`teams, this`seats, this`next
      ensures teams == old(teams)[cfg.gen(old(next)) := orgId]
      ensures seats == old(seats)[cfg.gen(old(next) + 1) := Seat(cfg.gen(old(next)), user)]
      ensures next == old(next) + 2
    {
      var teamId := Generate();
      teams := teams[teamId := orgId];
      var seatId := Generate();
      seats := seats[seatId := Seat(teamId, user)];
    }

    method HandleCreate(user: Id, name: string, slug: string) returns (r: Reply)
      modifies this`orgs, this`members, this`teams, this`seats, this`next
      ensures (T(), r) == Create(cfg, old(T()), user, name, slug)
    {
      r := ScreenCreate(user, name, slug);
      if r.Refused? {
        return;
      }
      var orgId := Generate();
      orgs := orgs[orgId := cfg.lower(slug)];
      var memberId := Generate();
      members := members[memberId := Member(orgId, user, cfg.CreatorRole())];
      if cfg.DefaultTeam() {
        CreateDefaultTeam(orgId, user);
      }
    }

    /** `organization/update`; the store looks the new slug up. */
    method HandleUpdate(user: Id, org: Id, slug: string) returns (r: Reply)
      requires Unambiguous()
      modifies this`orgs
      ensures (T(), r) == Update(cfg, old(T()), user, org, slug)
    {
      if org == "" {
        return Refused(InvalidOrganization);
      }
      var m := FindMemberByOrgAndUser(members, org, user);
      if m.None? {
        return Refused(OrgNotFound);
      }
      var permitted := Allowed(org, user, "organization", "update");
      if !permitted {
        return Refused(Forbidden);
      }
      if slug != "" && !SlugOk(cfg.lower(slug)) {
        return Refused(InvalidSlug);
      }
      if org !in orgs {
        return Refused(OrgNotFound);
      }
      var slug' := NewSlug(cfg, orgs[org], slug);
      if slug' != orgs[org] {
        var taken := SlugTaken(orgs, slug');
        if taken {
          return Refused(OrgNotFound);
        }
      }
      orgs := orgs[org := slug'];
      return Done;
    }

    method ScreenDelete(user: Id, org: Id) returns (r: Reply)
      requires Unambiguous()
      ensures r == CheckDelete(cfg, T(), user, org)
    {
      if cfg.deletionDisabled {
        return Refused(OrgNotFound);
      }
      if org == "" {
        return Refused(InvalidRequest);
      }
      var m := FindMemberByOrgAndUser(members, org, user);
      if m.None? {
        return Refused(OrgNotFound);
      }
      var permitted := HasPermissions(cfg, roles, org, members[m.value].role, Ask("organization", "delete"));
      if !permitted {
        return Refused(Forbidden);
      }
      return if org in orgs then Done else Refused(OrgNotFound);
    }

    method HandleDelete(user: Id, org: Id) returns (r: Reply)
      requires Unambiguous()
      modifies this`orgs, this`members, this`invitations, this`teams, this`roles
      ensures (T(), r) == Delete(cfg, old(T()), user, org)
    {
      r := ScreenDelete(user, org);
      if r.Done? {
        orgs := orgs - {org};
        members := map id | id in members && members[id].org != org :: members[id];
        invitations := map id | id in invitations && invitations[id].org != org :: invitations[id];
        teams := map id | id in teams && teams[id] != org :: teams[id];
        roles := map id | id in roles && roles[id].org != org :: roles[id];
      }
    }

    // ------------------------------------------------------------ invitations

    /** The checks of `invite-member` up to the search for an earlier invitation. */
    method ScreenInvite(env: Env, user: Id, q: InviteRequest) returns (r: Reply, role: string)
      requires Unambiguous()
      ensures r == CheckInvite(cfg, env, T(), user, q)
      ensures r.Done? ==> ParseRole(q.roles) == Roles(role)
    {
      role := "";
      var email := NormalizeEmail(cfg, q.email);
      var parsed := NormalizeMemberRoles(q.roles);
      if q.org == "" || parsed.NoRole? || !cfg.validEmail(email) {
        return Refused(InvalidRequest), role;
      }
      role := parsed.value;
      var member := FindMemberByOrgAndUser(members, q.org, user);
      var permitted := Allowed(q.org, user, "invitation", "create");
      if member.None? || !permitted {
        return Refused(Forbidden), role;
      }
      var exist := AllRolesExist(cfg, roles, q.org, role);
      if !exist {
        return Refused(InvalidRequest), role;
      }
      var offersCreator := MemberHasRole(role, cfg.CreatorRole());
      var isCreator := MemberHasRole(members[member.value].role, cfg.CreatorRole());
      if offersCreator && !isCreator {
        return Refused(Forbidden), role;
      }
      if q.org !in orgs {
        return Refused(OrgNotFound), role;
      }
      if email in env.byEmail {
        var already := FindMemberByOrgAndUser(members, q.org, env.byEmail[email]);
        if already.Some? {
          return Refused(InvalidRequest), role;
        }
      }
      return Done, role;
    }

    /** The checks on the limits and teams of a new invitation. */
    method ScreenNewInvitation(q: InviteRequest, now: int) returns (r: Reply, ids: seq<Id>)
      ensures r == CheckNewInvitation(cfg, T(), invitations, q, now)
      ensures r.Done? ==> ParseTeams(q.teams) == Teams(ids)
    {
      ids := [];
      var n := CountLive(invitations, q.org, now);
      if n >= cfg.InvitationLimit() {
        return Refused(Forbidden), ids;
      }
      var parsed := NormalizeTeamIds(q.teams);
      if parsed.BadTeam? {
        return Refused(InvalidRequest), ids;
      }
      ids := parsed.ids;
      if |ids| > 0 && !cfg.teamsEnabled {
        return Refused(InvalidRequest), ids;
      }
      var belong := AllTeamsBelong(teams, q.org, ids);
      if !belong {
        return Refused(InvalidRequest), ids;
      }
      var full := AnyTeamLimitReached(cfg, seats, ids, "");
      return if full then Refused(Forbidden) else Done, ids;
    }

    /** The rest of `invite-member`, when the recipient has no live invitation. */
    method CreateInvitation(q: InviteRequest, role: string, now: int) returns (r: Reply)
      requires ParseRole(q.roles) == Roles(role)
      modifies this`invitations, this`next
      ensures (T(), r) == InviteAnew(cfg, old(T()), old(invitations), q, now)
    {
      var check, ids := ScreenNewInvitation(q, now);
      if check.Refused? {
        return check;
      }
      var id := Generate();
      invitations := invitations[id := Invitation(q.org, NormalizeEmail(cfg, q.email), role, Pending,
                                                  Join(ids, ','), now + cfg.InvitationExpiresIn())];
      return Done;
    }

    /** The checks for a new invitation look at the passed rows only. */
    static lemma AnewLooksAtRows(cfg: Config, t: Tables, rows: Invitations, q: InviteRequest, now: int)
      requires ParseRole(q.roles).Roles?
      ensures InviteAnew(cfg, t.(invitations := rows), rows, q, now) == InviteAnew(cfg, t, rows, q, now)
    {
    }

    method HandleInvite(env: Env, user: Id, q: InviteRequest, now: int) returns (r: Reply)
      requires Unambiguous() && NoRivals(cfg, invitations, now)
      modifies this`invitations, this`next
      ensures (T(), r) == Invite(cfg, env, old(T()), user, q, now)
    {
      var check, role := ScreenInvite(env, user, q);
      if check.Refused? {
        return check;
      }
      var pending := FindLiveInvitation(cfg, invitations, q.org, NormalizeEmail(cfg, q.email), now);
      if pending.Some? {
        var inv := invitations[pending.value];
        if q.resend {
          invitations := invitations[pending.value := inv.(expiresAt := now + cfg.InvitationExpiresIn())];
          return Done;
        }
        if !cfg.cancelOnReInvite {
          return Refused(InvalidRequest);
        }
        invitations := invitations[pending.value := inv.(status := Canceled)];
      }
      AnewLooksAtRows(cfg, old(T()), invitations, q, now);
      r := CreateInvitation(q, role, now);
    }

    /** The checks of `accept-invitation`. */
    method ScreenAccept(caller: Caller, id: Id, now: int) returns (r: Reply)
      requires Unambiguous()
      ensures r == CheckAccept(cfg, T(), caller, id, now)
    {
      if id == "" {
        return Refused(InvalidRequest);
      }
      if id !in invitations || invitations[id].status != Pending || now >= invitations[id].expiresAt {
        return Refused(InvitationNotFound);
      }
      var inv := invitations[id];
      if cfg.lower(inv.email) != cfg.lower(caller.email) {
        return Refused(Forbidden);
      }
      if cfg.requireVerifiedEmail && !caller.verified {
        return Refused(Forbidden);
      }
      if inv.org !in orgs {
        return Refused(OrgNotFound);
      }
      var already := FindMemberByOrgAndUser(members, inv.org, caller.user);
      if already.Some? {
        return Refused(InvalidRequest);
      }
      var n := CountMembers(members, inv.org);
      if n >= cfg.MembershipLimit() {
        return Refused(Forbidden);
      }
      var ids := InvitationTeamIds(inv.teamIds);
      if |ids| > 0 && !cfg.teamsEnabled {
        return Refused(InvalidRequest);
      }
      var belong := AllTeamsBelong(teams, inv.org, ids);
      if !belong {
        return Refused(InvalidRequest);
      }
      var full := AnyTeamLimitReached(cfg, seats, ids, caller.user);
      if full {
        return Refused(Forbidden);
      }
      return Done;
    }

    /** `createInvitationTeamMemberships`; the write number `fails`, if any, fails. */
    method CreateTeamMemberships(ids: seq<Id>, user: Id, fails: Option<nat>) returns (ok: bool)
      modifies this`seats, this`next
      ensures (seats, next, ok) == JoinTeams(cfg, old(seats), old(next), ids, user, fails)
    {
      var left := fails;
      for i := 0 to |ids|
        invariant JoinTeams(cfg, old(seats), old(next), ids, user, fails) == JoinTeams(cfg, seats, next, ids[i..], user, left)
      {
        assert ids[i..][1..] == ids[i + 1..];
        var seated := SeatExists(seats, ids[i], user);
        if seated {
          continue;
        }
        var id := Generate();
        if left == Some(0) {
          return false;
        }
        seats := seats[id := Seat(ids[i], user)];
        left := if left.Some? then Some(left.value - 1) else None;
      }
      return true;
    }

    /** The writes of `accept-invitation`: the status first, then the member, then the
        seats; a failure takes the member and the status back. */
    method AdmitMember(user: Id, id: Id, fault: Fault) returns (r: Reply)
      requires id in invitations && invitations[id].status == Pending && cfg.gen(next) !in members
      modifies this`members, this`invitations, this`seats, this`next
      ensures (T(), r) == Enter(cfg, old(T()), user, id, Pieces(old(invitations)[id].teamIds), fault)
    {
      var inv := invitations[id];
      ghost var pendingRows, membersBefore := invitations, members;
      var ids := InvitationTeamIds(inv.teamIds);
      var memberId := Generate();
      invitations := invitations[id := inv.(status := Accepted)];
      if fault.MemberWrite? {
        invitations := invitations[id := invitations[id].(status := Pending)];
        assert invitations == pendingRows;
        return Refused(InvalidRequest);
      }
      members := members[memberId := Member(inv.org, user, inv.role)];
      var joined := CreateTeamMemberships(ids, user, FailingSeat(fault));
      if !joined {
        TakeBack(id, memberId);
        assert members == membersBefore && invitations == pendingRows;
      }
      return if joined then Done else Refused(InvalidRequest);
    }

    method TakeBack(id: Id, memberId: Id)
      requires id in invitations
      modifies this`members, this`invitations
      ensures members == old(members) - {memberId}
      ensures invitations == old(invitations)[id := old(invitations)[id].(status := Pending)]
    {
      members := members - {memberId};
      invitations := invitations[id := invitations[id].(status := Pending)];
    }

    method HandleAccept(caller: Caller, id: Id, fault: Fault, now: int) returns (r: Reply)
      requires Unambiguous() && cfg.gen(next) !in members
      modifies this`members, this`invitations, this`seats, this`next
      ensures (T(), r) == Accept(cfg, old(T()), caller, id, fault, now)
    {
      r := ScreenAccept(caller, id, now);
      if r.Done? {
        r := AdmitMember(caller.user, id, fault);
      }
    }

    method HandleReject(caller: Caller, id: Id, now: int) returns (r: Reply)
      modifies this`invitations
      ensures (T(), r) == Reject(cfg, old(T()), caller, id, now)
    {
      if id == "" {
        return Refused(InvalidRequest);
      }
      if id !in invitations || invitations[id].status != Pending || now >= invitations[id].expiresAt {
        return Refused(InvitationNotFound);
      }
      var inv := invitations[id];
      if cfg.lower(inv.email) != cfg.lower(caller.email) {
        return Refused(Forbidden);
      }
      if cfg.requireVerifiedEmail && !caller.verified {
        return Refused(Forbidden);
      }
      if inv.org !in orgs {
        return Refused(OrgNotFound);
      }
      invitations := invitations[id := inv.(status := Rejected)];
      return Done;
    }

    method HandleCancel(user: Id, id: Id) returns (r: Reply)
      requires Unambiguous()
      modifies this`invitations
      ensures (T(), r) == Cancel(cfg, old(T()), user, id)
    {
      if id == "" {
        return Refused(InvalidRequest);
      }
      if id !in invitations {
        return Refused(InvitationNotFound);
      }
      var inv := invitations[id];
      var m := FindMemberByOrgAndUser(members, inv.org, user);
      if m.None? {
        return Refused(OrgNotFound);
      }
      var permitted := Allowed(inv.org, user, "invitation", "cancel");
      if !permitted {
        return Refused(Forbidden);
      }
      if inv.org !in orgs {
        return Refused(OrgNotFound);
      }
      invitations := invitations[id := inv.(status := Canceled)];
      return Done;
    }

    // ------------------------------------------------------------ members

    /** The checks of `add-member`. */
    method ScreenAddMember(env: Env, user: Id, values: seq<string>, org: Id, team: Id) returns (r: Reply, role: string)
      requires Unambiguous()
      ensures r == CheckAddMember(cfg, env, T(), user, values, org, team)
      ensures r.Done? ==> ParseRole(values) == Roles(role)
    {
      role := "";
      var parsed := NormalizeMemberRoles(values);
      if user == "" || parsed.NoRole? {
        return Refused(InvalidRequest), role;
      }
      role := parsed.value;
      if org == "" {
        return Refused(InvalidOrganization), role;
      }
      if user !in env.users {
        return Refused(InvalidRequest), role;
      }
      var already := FindMemberByOrgAndUser(members, org, user);
      if already.Some? {
        return Refused(InvalidRequest), role;
      }
      if org !in orgs {
        return Refused(OrgNotFound), role;
      }
      var n := CountMembers(members, org);
      if n >= cfg.MembershipLimit() {
        return Refused(Forbidden), role;
      }
      if team != "" {
        if !cfg.teamsEnabled || team !in teams || teams[team] != org {
          return Refused(InvalidRequest), role;
        }
        var full := TeamLimitReached(cfg, seats, team, user);
        if full {
          return Refused(Forbidden), role;
        }
      }
      return Done, role;
    }

    method HandleAddMember(env: Env, user: Id, values: seq<string>, org: Id, team: Id) returns (r: Reply)
      requires Unambiguous()
      modifies this`members, this`seats, this`next
      ensures (T(), r) == AddMember(cfg, env, old(T()), user, values, org, team)
    {
      var check, role := ScreenAddMember(env, user, values, org, team);
      if check.Refused? {
        return check;
      }
      var memberId := Generate();
      if team != "" {
        var seatId := Generate();
        seats := seats[seatId := Seat(team, user)];
      }
      members := members[memberId := Member(org, user, role)];
      return Done;
    }

    /** `findRemovableMember`. */
    method FindRemovableMember(env: Env, org: Id, key: string) returns (r: Search)
      requires Unambiguous()
      ensures r == FindRemovable(cfg, env, members, org, key)
    {
      if key == "" {
        return Miss(InvalidRequest);
      }
      if Contains(key, '@') {
        var email := NormalizeEmail(cfg, key);
        if email !in env.byEmail {
          return Miss(OrgNotFound);
        }
        var m := FindMemberByOrgAndUser(members, org, env.byEmail[email]);
        return if m.None? then Miss(OrgNotFound) else Hit(m.value);
      }
      if key !in members || members[key].org != org {
        return Miss(OrgNotFound);
      }
      return Hit(key);
    }

    method HandleRemoveMember(env: Env, user: Id, org: Id, key: string) returns (r: Reply)
      requires Unambiguous()
      modifies this`members
      ensures (T(), r) == RemoveMember(cfg, env, old(T()), user, org, key)
    {
      if org == "" {
        return Refused(InvalidOrganization);
      }
      var updater := FindMemberByOrgAndUser(members, org, user);
      if updater.None? {
        return Refused(OrgNotFound);
      }
      var updaterIsCreator := MemberHasRole(members[updater.value].role, cfg.CreatorRole());
      var permitted := Allowed(org, user, "member", "delete");
      if !permitted {
        return Refused(Forbidden);
      }
      var found := FindRemovableMember(env, org, key);
      if found.Miss? {
        return Refused(found.code);
      }
      var target := members[found.id];
      var targetIsCreator := MemberHasRole(target.role, cfg.CreatorRole());
      if targetIsCreator && !updaterIsCreator {
        return Refused(InvalidRequest);
      }
      if targetIsCreator {
        var n := CountCreators(cfg, members, org);
        if n <= 1 {
          return Refused(InvalidRequest);
        }
      }
      if target.user !in env.users {
        return Refused(InvalidRequest);
      }
      if org !in orgs {
        return Refused(OrgNotFound);
      }
      members := members - {found.id};
      return Done;
    }

    method ScreenUpdateRole(env: Env, user: Id, org: Id, id: Id, role: Normalized, ghost values: seq<string>) returns (r: Reply)
      requires Unambiguous() && role == ParseRole(values)
      ensures r == CheckUpdateRole(cfg, env, T(), user, org, id, values)
    {
      if role.NoRole? || id == "" {
        return Refused(InvalidRequest);
      }
      if org == "" {
        return Refused(InvalidOrganization);
      }
      var updater := FindMemberByOrgAndUser(members, org, user);
      if updater.None? || id !in members {
        return Refused(OrgNotFound);
      }
      var target := members[id];
      if target.org != org {
        return Refused(Forbidden);
      }
      var exist := AllRolesExist(cfg, roles, org, role.value);
      if !exist {
        return Refused(InvalidRequest);
      }
      var updaterIsCreator := MemberHasRole(members[updater.value].role, cfg.CreatorRole());
      var permitted := Allowed(org, user, "member", "update");
      if !updaterIsCreator && !permitted {
        return Refused(Forbidden);
      }
      var targetIsCreator := MemberHasRole(target.role, cfg.CreatorRole());
      var settingCreator := MemberHasRole(role.value, cfg.CreatorRole());
      if (targetIsCreator || settingCreator) && !updaterIsCreator {
        return Refused(Forbidden);
      }
      if updater.value == id && targetIsCreator && !settingCreator {
        var n := CountCreators(cfg, members, org);
        if n <= 1 {
          return Refused(InvalidRequest);
        }
      }
      if target.user !in env.users {
        return Refused(InvalidRequest);
      }
      return if org in orgs then Done else Refused(OrgNotFound);
    }

    method HandleUpdateRole(env: Env, user: Id, org: Id, id: Id, values: seq<string>) returns (r: Reply)
      requires Unambiguous()
      modifies this`members
      ensures (T(), r) == UpdateRole(cfg, env, old(T()), user, org, id, values)
    {
      var role := NormalizeMemberRoles(values);
      r := ScreenUpdateRole(env, user, org, id, role, values);
      if r.Done? {
        members := members[id := members[id].(role := role.value)];
      }
    }

    method HandleLeave(user: Id, org: Id) returns (r: Reply)
      requires Unambiguous()
      modifies this`members
      ensures (T(), r) == Leave(cfg, old(T()), user, org)
    {
      if org == "" {
        return Refused(InvalidRequest);
      }
      var m := FindMemberByOrgAndUser(members, org, user);
      if m.None? {
        return Refused(OrgNotFound);
      }
      var creator := MemberHasRole(members[m.value].role, cfg.CreatorRole());
      if creator {
        var n := CountCreators(cfg, members, org);
        if n <= 1 {
          return Refused(InvalidRequest);
        }
      }
      members := members - {m.value};
      return Done;
    }

    // ------------------------------------------------------------ teams

    method ScreenCreateTeam(user: Id, org: Id, name: string) returns (r: Reply)
      requires Unambiguous()
      ensures r == CheckCreateTeam(cfg, T(), user, org, name)
    {
      if name == "" {
        return Refused(InvalidRequest);
      }
      if org == "" {
        return Refused(InvalidOrganization);
      }
      if org !in orgs {
        return Refused(OrgNotFound);
      }
      var permitted := Allowed(org, user, "team", "create");
      if !permitted {
        return Refused(Forbidden);
      }
      if cfg.MaximumTeams() > 0 {
        var n := CountTeams(teams, org);
        if n >= cfg.MaximumTeams() {
          return Refused(InvalidRequest);
        }
      }
      return Done;
    }

    method HandleCreateTeam(user: Id, org: Id, name: string) returns (r: Reply)
      requires Unambiguous()
      modifies this`teams, this`next
      ensures (T(), r) == CreateTeam(cfg, old(T()), user, org, name)
    {
      r := ScreenCreateTeam(user, org, name);
      if r.Done? {
        var id := Generate();
        teams := teams[id := org];
      }
    }

    method HandleRemoveTeam(user: Id, org: Id, team: Id, active: Option<Id>) returns (r: Reply)
      requires Unambiguous()
      modifies this`teams, this`seats
      ensures (T(), r) == RemoveTeam(cfg, old(T()), user, org, team, active)
    {
      if team == "" {
        return Refused(InvalidRequest);
      }
      if org == "" {
        return Refused(InvalidOrganization);
      }
      var permitted := Allowed(org, user, "team", "delete");
      if !permitted || active == Some(team) {
        return Refused(Forbidden);
      }
      if team !in teams || teams[team] != org {
        return Refused(InvalidRequest);
      }
      if org !in orgs {
        return Refused(OrgNotFound);
      }
      var n := CountTeams(teams, org);
      if n <= 1 && !cfg.AllowRemovingAllTeams() {
        return Refused(InvalidRequest);
      }
      teams := teams - {team};
      seats := map id | id in seats && seats[id].team != team :: seats[id];
      return Done;
    }

    /** The checks of `add-team-member`; `seated` if there is nothing left to do. */
    method ScreenAddTeamMember(env: Env, user: Id, org: Id, team: Id, target: Id) returns (r: Reply, seated: bool)
      requires Unambiguous()
      ensures r == CheckAddTeamMember(cfg, env, T(), user, org, team, target)
      ensures r.Done? ==> (seated <==> HasSeat(seats, team, target))
    {
      seated := false;
      if team == "" || target == "" {
        return Refused(InvalidRequest), seated;
      }
      if org == "" {
        return Refused(InvalidOrganization), seated;
      }
      var permitted := Allowed(org, user, "member", "update");
      if !permitted {
        return Refused(Forbidden), seated;
      }
      var m := FindMemberByOrgAndUser(members, org, target);
      if m.None? || team !in teams || teams[team] != org {
        return Refused(InvalidRequest), seated;
      }
      if org !in orgs {
        return Refused(OrgNotFound), seated;
      }
      if target !in env.users {
        return Refused(InvalidRequest), seated;
      }
      seated := SeatExists(seats, team, target);
      if seated {
        return Done, seated;
      }
      var full := TeamLimitReached(cfg, seats, team, target);
      return if full then Refused(Forbidden) else Done, seated;
    }

    method HandleAddTeamMember(env: Env, user: Id, org: Id, team: Id, target: Id) returns (r: Reply)
      requires Unambiguous()
      modifies this`seats, this`next
      ensures (T(), r) == AddTeamMember(cfg, env, old(T()), user, org, team, target)
    {
      var check, seated := ScreenAddTeamMember(env, user, org, team, target);
      if check.Refused? || seated {
        return check;
      }
      var id := Generate();
      seats := seats[id := Seat(team, target)];
      return Done;
    }

    method ScreenRemoveTeamMember(env: Env, user: Id, org: Id, seat: Id, team: Id, target: Id) returns (r: Reply, teamId: Id, userId: Id)
      requires Unambiguous()
      ensures r == CheckRemoveTeamMember(cfg, env, T(), user, org, seat, team, target)
      ensures r.Done? ==> Seat(teamId, userId) == NamedSeat(T(), org, seat, team, target)
    {
      teamId, userId := team, target;
      if org == "" {
        return Refused(InvalidOrganization), teamId, userId;
      }
      var permitted := Allowed(org, user, "member", "delete");
      if !permitted {
        return Refused(Forbidden), teamId, userId;
      }
      if team == "" || target == "" {
        if seat == "" {
          return Refused(InvalidRequest), teamId, userId;
        }
        if seat in seats && seats[seat].team in teams && teams[seats[seat].team] == org {
          teamId, userId := seats[seat].team, seats[seat].user;
        }
      }
      if teamId == "" || userId == "" {
        return Refused(InvalidRequest), teamId, userId;
      }
      var m := FindMemberByOrgAndUser(members, org, userId);
      if m.None? || teamId !in teams || teams[teamId] != org {
        return Refused(InvalidRequest), teamId, userId;
      }
      var seated := SeatExists(seats, teamId, userId);
      if !seated {
        return Refused(InvalidRequest), teamId, userId;
      }
      if org !in orgs {
        return Refused(OrgNotFound), teamId, userId;
      }
      return if userId in env.users then Done else Refused(InvalidRequest), teamId, userId;
    }

    method HandleRemoveTeamMember(env: Env, user: Id, org: Id, seat: Id, team: Id, target: Id) returns (r: Reply)
      requires Unambiguous()
      modifies this`seats
      ensures (T(), r) == RemoveTeamMember(cfg, env, old(T()), user, org, seat, team, target)
    {
      var teamId, userId;
      r, teamId, userId := ScreenRemoveTeamMember(env, user, org, seat, team, target);
      if r.Done? {
        seats := map id | id in seats && !(seats[id].team == teamId && seats[id].user == userId) :: seats[id];
        assert seats == map id | id in old(seats) && old(seats)[id] != Seat(teamId, userId) :: old(seats)[id];
      }
    }

    // ------------------------------------------------------------ dynamic roles

    method ScreenCreateRole(user: Id, org: Id, role: string, permission: Statements) returns (r: Reply)
      requires Unambiguous()
      ensures r == CheckCreateRole(cfg, T(), user, org, role, permission)
    {
      if role == "" || permission == map[] {
        return Refused(InvalidRequest);
      }
      if org == "" {
        return Refused(Forbidden);
      }
      var permitted := Allowed(org, user, "ac", "create");
      if !permitted {
        return Refused(Forbidden);
      }
      var name := RoleName(cfg, role);
      if name in cfg.staticRoles {
        return Refused(InvalidRequest);
      }
      if cfg.RoleLimit() > 0 {
        var n := CountRoles(roles, org);
        if n >= cfg.RoleLimit() {
          return Refused(InvalidRequest);
        }
      }
      var existing := FindRoleByOrgAndName(roles, org, name);
      return if existing.None? then Done else Refused(InvalidRequest);
    }

    method HandleCreateRole(user: Id, org: Id, role: string, permission: Statements) returns (r: Reply)
      requires Unambiguous()
      modifies this`roles, this`next
      ensures (T(), r) == CreateRole(cfg, old(T()), user, org, role, permission)
    {
      r := ScreenCreateRole(user, org, role, permission);
      assert r == CheckCreateRole(cfg, old(T()), user, org, role, permission);
      if r.Done? {
        var id := Generate();
        roles := roles[id := Role(org, RoleName(cfg, role), permission)];
      }
    }

    /** `findOrganizationRoleByRequest`. */
    method FindRoleByRequest(org: Id, id: Id, name: string) returns (r: Option<Id>)
      requires Unambiguous()
      ensures r == RequestedRole(cfg, roles, org, id, name)
    {
      if id != "" {
        return if id in roles && roles[id].org == org then Some(id) else None;
      }
      if name == "" {
        return None;
      }
      r := FindRoleByOrgAndName(roles, org, RoleName(cfg, name));
    }

    method HandleChangeRole(user: Id, org: Id, id: Id, name: string, newName: string, permission: Statements) returns (r: Reply)
      requires Unambiguous()
      modifies this`roles
      ensures (T(), r) == ChangeRole(cfg, old(T()), user, org, id, name, newName, permission)
    {
      if id == "" && name == "" {
        return Refused(InvalidRequest);
      }
      if org == "" {
        return Refused(Forbidden);
      }
      var permitted := Allowed(org, user, "ac", "update");
      if !permitted {
        return Refused(Forbidden);
      }
      var found := FindRoleByRequest(org, id, name);
      if found.None? {
        return Refused(InvalidRequest);
      }
      var role := roles[found.value];
      var nextName := role.name;
      if newName != "" {
        nextName := RoleName(cfg, newName);
        if nextName in cfg.staticRoles {
          return Refused(InvalidRequest);
        }
        if nextName != role.name {
          var existing := FindRoleByOrgAndName(roles, org, nextName);
          if existing.Some? {
            return Refused(InvalidRequest);
          }
        }
      }
      var nextPermission := role.permission;
      if permission != map[] {
        nextPermission := permission;
      }
      roles := roles[found.value := Role(role.org, nextName, nextPermission)];
      return Done;
    }

    method HandleDeleteRole(user: Id, org: Id, id: Id, name: string) returns (r: Reply)
      requires Unambiguous()
      modifies this`roles
      ensures (T(), r) == DeleteRole(cfg, old(T()), user, org, id, name)
    {
      if id == "" && name == "" {
        return Refused(InvalidRequest);
      }
      if org == "" {
        return Refused(Forbidden);
      }
      var permitted := Allowed(org, user, "ac", "delete");
      if !permitted {
        return Refused(Forbidden);
      }
      if name != "" && RoleName(cfg, name) in cfg.staticRoles {
        return Refused(InvalidRequest);
      }
      var found := FindRoleByRequest(org, id, name);
      if found.None? {
        return Refused(InvalidRequest);
      }
      var used := RoleInUse(members, org, roles[found.value].name);
      if used {
        return Refused(InvalidRequest);
      }
      roles := roles - {found.value};
      return Done;
    }

    // ------------------------------------------------------------ routes

    method RouteOrg(a: OrgAction) returns (r: Reply)
      requires Unambiguous()
      modifies this`orgs, this`members, this`invitations, this`teams, this`seats, this`roles, this`next
      ensures (T(), r) == DoOrg(cfg, old(T()), a)
    {
      match a {
        case DoCreate(user, name, slug) => r := HandleCreate(user, name, slug);
        case DoUpdate(user, org, slug) => r := HandleUpdate(user, org, slug);
        case DoDelete(user, org) => r := HandleDelete(user, org);
      }
    }

    method RouteInvitation(env: Env, a: InvitationAction, now: int) returns (r: Reply)
      requires Unambiguous() && NoRivals(cfg, invitations, now) && cfg.gen(next) !in members
      modifies this`members, this`invitations, this`seats, this`next
      ensures (T(), r) == DoInvitation(cfg, env, old(T()), a, now)
    {
      match a {
        case DoInvite(user, request) => r := HandleInvite(env, user, request, now);
        case DoAccept(caller, id, fault) => r := HandleAccept(caller, id, fault, now);
        case DoReject(caller, id) => r := HandleReject(caller, id, now);
        case DoCancel(user, id) => r := HandleCancel(user, id);
      }
    }

    method RouteMember(env: Env, a: MemberAction) returns (r: Reply)
      requires Unambiguous()
      modifies this`members, this`seats, this`next
      ensures (T(), r) == DoMember(cfg, env, old(T()), a)
    {
      match a {
        case DoAddMember(user, values, org, team) => r := HandleAddMember(env, user, values, org, team);
        case DoRemoveMember(user, org, key) => r := HandleRemoveMember(env, user, org, key);
        case DoUpdateRole(user, org, id, values) => r := HandleUpdateRole(env, user, org, id, values);
        case DoLeave(user, org) => r := HandleLeave(user, org);
      }
    }

    method RouteTeam(env: Env, a: TeamAction) returns (r: Reply)
      requires Unambiguous()
      modifies this`teams, this`seats, this`next
      ensures (T(), r) == DoTeam(cfg, env, old(T()), a)
    {
      match a {
        case DoCreateTeam(user, org, name) => r := HandleCreateTeam(user, org, name);
        case DoRemoveTeam(user, org, team, active) => r := HandleRemoveTeam(user, org, team, active);
        case DoAddTeamMember(user, org, team, target) => r := HandleAddTeamMember(env, user, org, team, target);
        case DoRemoveTeamMember(user, org, seat, team, target) => r := HandleRemoveTeamMember(env, user, org, seat, team, target);
      }
    }

    method RouteRole(a: RoleAction) returns (r: Reply)
      requires Unambiguous()
      modifies this`roles, this`next
      ensures (T(), r) == DoRole(cfg, old(T()), a)
    {
      match a {
        case DoCreateRole(user, org, role, permission) => r := HandleCreateRole(user, org, role, permission);
        case DoChangeRole(user, org, id, name, newName, permission) => r := HandleChangeRole(user, org, id, name, newName, permission);
        case DoDeleteRole(user, org, id, name) => r := HandleDeleteRole(user, org, id, name);
      }
    }

    method Dispatch(s: Step) returns (r: Reply)
      requires Unambiguous() && NoRivals(cfg, invitations, s.now) && cfg.gen(next) !in members
      modifies this`orgs, this`members, this`invitations, this`teams, this`seats, this`roles, this`next
      ensures (T(), r) == Do(cfg, old(T()), s)
    {
      match s.action {
        case OnOrg(a) => r := RouteOrg(a);
        case OnInvitation(a) => r := RouteInvitation(s.env, a, s.now);
        case OnMember(a) => r := RouteMember(s.env, a);
        case OnTeam(a) => r := RouteTeam(s.env, a);
        case OnRole(a) => r := RouteRole(a);
      }
    }

    /** Any request: it does exactly its step, and the store stays as it must be. */
    method Route(s: Step) returns (r: Reply)
      requires Valid() && clock <= s.now
      modifies this
      ensures Valid() && clock == s.now
      ensures (T(), r) == Do(cfg, old(T()), s)
    {
      LookupsAreUnique(cfg, T(), clock, s.now);
      StepKeeps(cfg, T(), clock, s);
      r := Dispatch(s);
      clock := s.now;
    }
  }

}
