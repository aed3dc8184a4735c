/** Runs of the organization plugin: every invariant at once, over every sequence of
    requests. */
module OrgRuns {
  import opened Common
  import opened Strings
  import opened RoleCodec
  import opened Access
  import opened OrgTables
  import opened OrgHandlers
  import opened OrgSlugs
  import opened OrgMembers
  import opened OrgInvitations
  import opened OrgTeams
  import opened OrgRoles

  datatype OrgAction =
    | DoCreate(user: Id, name: string, slug: string)
    | DoUpdate(user: Id, org: Id, slug: string)
    | DoDelete(user: Id, org: Id)

  datatype InvitationAction =
    | DoInvite(user: Id, request: InviteRequest)
    | DoAccept(caller: Caller, id: Id, fault: Fault)
    | DoReject(caller: Caller, id: Id)
    | DoCancel(user: Id, id: Id)

  datatype MemberAction =
    | DoAddMember(user: Id, roles: seq<string>, org: Id, team: Id)
    | DoRemoveMember(user: Id, org: Id, key: string)
    | DoUpdateRole(user: Id, org: Id, id: Id, roles: seq<string>)
    | DoLeave(user: Id, org: Id)

  datatype TeamAction =
    | DoCreateTeam(user: Id, org: Id, name: string)
    | DoRemoveTeam(user: Id, org: Id, team: Id, active: Option<Id>)
    | DoAddTeamMember(user: Id, org: Id, team: Id, target: Id)
    | DoRemoveTeamMember(user: Id, org: Id, seat: Id, team: Id, target: Id)

  datatype RoleAction =
    | DoCreateRole(user: Id, org: Id, role: string, permission: Statements)
    | DoChangeRole(user: Id, org: Id, id: Id, name: string, newName: string, permission: Statements)
    | DoDeleteRole(user: Id, org: Id, id: Id, name: string)

  datatype Action =
    | OnOrg(org: OrgAction) | OnInvitation(invitation: InvitationAction) | OnMember(member: MemberAction)
    | OnTeam(team: TeamAction) | OnRole(role: RoleAction)

  /** One request, at a time and with the core store as it is then: users may come,
      go and change their e-mail between requests. */
  datatype Step = Step(now: int, env: Env, action: Action)

  ghost function DoOrg(cfg: Config, t: Tables, a: OrgAction): (Tables, Reply)
  {
    match a
    case DoCreate(user, name, slug) => Create(cfg, t, user, name, slug)
    case DoUpdate(user, org, slug) => Update(cfg, t, user, org, slug)
    case DoDelete(user, org) => Delete(cfg, t, user, org)
  }

  ghost function DoInvitation(cfg: Config, env: Env, t: Tables, a: InvitationAction, now: int): (r: (Tables, Reply))
    ensures r.0 == t.(members := r.0.members, invitations := r.0.invitations, seats := r.0.seats, next := r.0.next)
  {
    match a
    case DoInvite(user, request) => Invite(cfg, env, t, user, request, now)
    case DoAccept(caller, id, fault) => Accept(cfg, t, caller, id, fault, now)
    case DoReject(caller, id) => Reject(cfg, t, caller, id, now)
    case DoCancel(user, id) => Cancel(cfg, t, user, id)
  }

  ghost function DoMember(cfg: Config, env: Env, t: Tables, a: MemberAction): (r: (Tables, Reply))
    ensures r.0 == t.(members := r.0.members, seats := r.0.seats, next := r.0.next)
    ensures r.0.next >= t.next
  {
    match a
    case DoAddMember(user, roles, org, team) => AddMember(cfg, env, t, user, roles, org, team)
    case DoRemoveMember(user, org, key) => RemoveMember(cfg, env, t, user, org, key)
    case DoUpdateRole(user, org, id, roles) => UpdateRole(cfg, env, t, user, org, id, roles)
    case DoLeave(user, org) => Leave(cfg, t, user, org)
  }

  ghost function DoTeam(cfg: Config, env: Env, t: Tables, a: TeamAction): (r: (Tables, Reply))
    ensures r.0 == t.(teams := r.0.teams, seats := r.0.seats, next := r.0.next)
    ensures r.0.next >= t.next
  {
    match a
    case DoCreateTeam(user, org, name) => CreateTeam(cfg, t, user, org, name)
    case DoRemoveTeam(user, org, team, active) => RemoveTeam(cfg, t, user, org, team, active)
    case DoAddTeamMember(user, org, team, target) => AddTeamMember(cfg, env, t, user, org, team, target)
    case DoRemoveTeamMember(user, org, seat, team, target) => RemoveTeamMember(cfg, env, t, user, org, seat, team, target)
  }

  ghost function DoRole(cfg: Config, t: Tables, a: RoleAction): (r: (Tables, Reply))
    ensures r.0 == t.(roles := r.0.roles, next := r.0.next)
    ensures r.0.next >= t.next
  {
    match a
    case DoCreateRole(user, org, role, permission) => CreateRole(cfg, t, user, org, role, permission)
    case DoChangeRole(user, org, id, name, newName, permission) => ChangeRole(cfg, t, user, org, id, name, newName, permission)
    case DoDeleteRole(user, org, id, name) => DeleteRole(cfg, t, user, org, id, name)
  }

  ghost function Do(cfg: Config, t: Tables, s: Step): (Tables, Reply)
  {
    match s.action
    case OnOrg(a) => DoOrg(cfg, t, a)
    case OnInvitation(a) => DoInvitation(cfg, s.env, t, a, s.now)
    case OnMember(a) => DoMember(cfg, s.env, t, a)
    case OnTeam(a) => DoTeam(cfg, s.env, t, a)
    case OnRole(a) => DoRole(cfg, t, a)
  }

  ghost function After(cfg: Config, t: Tables, run: seq<Step>): Tables
    decreases run
  {
    if run == [] then t else After(cfg, Do(cfg, t, run[0]).0, run[1..])
  }

  lemma {:induction false} AfterOneMore(cfg: Config, t: Tables, run: seq<Step>, s: Step)
    ensures After(cfg, t, run + [s]) == Do(cfg, After(cfg, t, run), s).0
    decreases run
  {
    if run == [] {
      assert ([s])[1..] == [];
    } else {
      assert (run + [s])[1..] == run[1..] + [s];
      AfterOneMore(cfg, Do(cfg, t, run[0]).0, run[1..], s);
    }
  }

  ghost predicate InOrder(run: seq<Step>, from: int)
  {
    && (forall i :: 0 <= i < |run| ==> from <= run[i].now)
    && (forall i, j :: 0 <= i <= j < |run| ==> run[i].now <= run[j].now)
  }

  // -------------------------------------------------------------- ids

  ghost predicate SeatTeamsFree(cfg: Config, seats: Seats, next: nat)
  {
    forall n: nat, s :: n >= next && s in seats ==> seats[s].team != cfg.gen(n)
  }

  /** No table knows an id that is still to be drawn. */
  ghost predicate IdsAhead(cfg: Config, t: Tables)
  {
    && Free(cfg, t.orgs, t.next) && Free(cfg, t.members, t.next) && Free(cfg, t.invitations, t.next)
    && Free(cfg, t.teams, t.next) && Free(cfg, t.seats, t.next) && Free(cfg, t.roles, t.next)
    && SeatTeamsFree(cfg, t.seats, t.next)
  }

  lemma IdsStayAhead(cfg: Config, t: Tables, later: nat)
    requires IdsAhead(cfg, t) && later >= t.next
    ensures IdsAhead(cfg, t.(next := later))
  {
  }

  lemma PutFree<V>(cfg: Config, table: map<Id, V>, from: nat, k: nat, v: V, next: nat)
    requires cfg.FreshIds() && Free(cfg, table, from) && from <= k < next
    ensures Free(cfg, table[cfg.gen(k) := v], next)
  {
  }

  lemma FewerFree<V>(cfg: Config, table: map<Id, V>, fewer: map<Id, V>, next: nat)
    requires Free(cfg, table, next) && fewer.Keys <= table.Keys
    ensures Free(cfg, fewer, next)
  {
  }

  ghost predicate InvitationsAtHome(orgs: map<Id, string>, invitations: Invitations)
  {
    forall id :: id in invitations ==> invitations[id].org in orgs
  }

  ghost predicate RolesAtHome(orgs: map<Id, string>, roles: Roles)
  {
    forall id :: id in roles ==> roles[id].org in orgs
  }

  /** Every row belongs to an organization that exists. */
  ghost predicate RowsAtHome(t: Tables)
  {
    AtHome(t.orgs, t.members) && TeamsAtHome(t.orgs, t.teams) && InvitationsAtHome(t.orgs, t.invitations) && RolesAtHome(t.orgs, t.roles)
  }

  ghost predicate TablesOk(cfg: Config, t: Tables, now: int)
  {
    && IdsAhead(cfg, t)
    && RowsAtHome(t)
    && MembersOk(cfg, t.orgs, t.members)
    && InvitationsOk(cfg, t.invitations, now)
    && TeamsOk(cfg, t.orgs, t.teams)
    && SeatsOk(cfg, t.seats)
    && RolesOk(cfg, t.roles) && RolesWithinLimit(cfg, t.roles)
    && SlugsOk(cfg, t.orgs)
  }

  /** Ids are fresh, and the creator role is trimmed and has no comma. */
  ghost predicate Sound(cfg: Config)
  {
    cfg.FreshIds() && Trimmed(cfg.CreatorRole()) && ',' !in cfg.CreatorRole()
  }

  lemma FoundIds(cfg: Config, t: Tables, user: Id, slug: string)
    requires cfg.FreshIds() && IdsAhead(cfg, t)
    ensures IdsAhead(cfg, Found(cfg, t, user, slug))
  {
    var t' := Found(cfg, t, user, slug);
    IdsStayAhead(cfg, t, t'.next);
    PutFree(cfg, t.orgs, t.next, t.next, cfg.lower(slug), t'.next);
    PutFree(cfg, t.members, t.next, t.next + 1, Member(cfg.gen(t.next), user, cfg.CreatorRole()), t'.next);
    if cfg.DefaultTeam() {
      PutFree(cfg, t.teams, t.next, t.next + 2, cfg.gen(t.next), t'.next);
      PutFree(cfg, t.seats, t.next, t.next + 3, Seat(cfg.gen(t.next + 2), user), t'.next);
    }
  }

  lemma DissolveIds(cfg: Config, t: Tables, org: Id)
    requires IdsAhead(cfg, t)
    ensures IdsAhead(cfg, Dissolve(t, org))
  {
    var t' := Dissolve(t, org);
    FewerFree(cfg, t.orgs, t'.orgs, t.next);
    FewerFree(cfg, t.members, t'.members, t.next);
    FewerFree(cfg, t.invitations, t'.invitations, t.next);
    FewerFree(cfg, t.teams, t'.teams, t.next);
    FewerFree(cfg, t.roles, t'.roles, t.next);
  }

  /** Rows are settled or prolonged in place, or one with the next id comes in. */
  ghost predicate InvitationsGrow(cfg: Config, t: Tables, t': Tables, org: Id)
  {
    && t.next <= t'.next <= t.next + 1
    && t'.invitations.Keys <= t.invitations.Keys + (if t'.next > t.next then {cfg.gen(t.next)} else {})
    && (forall id :: id in t'.invitations ==>
          t'.invitations[id].org == if id in t.invitations then t.invitations[id].org else org)
  }

  /** The same rows with the same organizations. */
  ghost predicate SameHomes(a: Invitations, b: Invitations)
  {
    a.Keys == b.Keys && forall id :: id in a ==> b[id].org == a[id].org
  }

  lemma AddedGrows(cfg: Config, t: Tables, rows: Invitations, inv: Invitation)
    requires SameHomes(t.invitations, rows) && cfg.gen(t.next) !in t.invitations
    ensures InvitationsGrow(cfg, t, t.(invitations := rows), inv.org)
    ensures InvitationsGrow(cfg, t, t.(invitations := rows[cfg.gen(t.next) := inv], next := t.next + 1), inv.org)
  {
  }

  lemma InviteAnewGrows(cfg: Config, t: Tables, rows: Invitations, r: InviteRequest, now: int)
    requires ParseRole(r.roles).Roles? && cfg.gen(t.next) !in t.invitations && SameHomes(t.invitations, rows)
    ensures InvitationsGrow(cfg, t, InviteAnew(cfg, t, rows, r, now).0, r.org)
  {
    if CheckNewInvitation(cfg, t, rows, r, now).Done? {
      AddedGrows(cfg, t, rows, NewInvitation(cfg, r, now));
    } else {
      AddedGrows(cfg, t, rows, Invitation(r.org, "", "", Pending, "", 0));
    }
  }

  lemma InviteNeedsOrg(cfg: Config, env: Env, t: Tables, user: Id, r: InviteRequest, now: int)
    ensures r.org in t.orgs || Invite(cfg, env, t, user, r, now).0 == t
  {
  }

  lemma InviteGrows(cfg: Config, env: Env, t: Tables, user: Id, r: InviteRequest, now: int)
    requires cfg.gen(t.next) !in t.invitations
    ensures InvitationsGrow(cfg, t, Invite(cfg, env, t, user, r, now).0, r.org)
  {
    if CheckInvite(cfg, env, t, user, r).Done? {
      var earlier := FindLive(cfg, t.invitations, r.org, NormalizeEmail(cfg, r.email), now);
      if earlier.None? {
        InviteAnewGrows(cfg, t, t.invitations, r, now);
      } else if r.resend {
        AddedGrows(cfg, t, Prolong(cfg, t.invitations, earlier.value, now), t.invitations[earlier.value]);
      } else if cfg.cancelOnReInvite {
        InviteAnewGrows(cfg, t, WithStatus(t.invitations, earlier.value, Canceled), r, now);
      }
    }
  }

  lemma InviteIds(cfg: Config, env: Env, t: Tables, user: Id, r: InviteRequest, now: int)
    requires cfg.FreshIds() && IdsAhead(cfg, t)
    ensures IdsAhead(cfg, Invite(cfg, env, t, user, r, now).0)
  {
    InviteGrows(cfg, env, t, user, r, now);
    GrownIds(cfg, t, Invite(cfg, env, t, user, r, now).0, r.org);
  }

  lemma GrownIds(cfg: Config, t: Tables, t': Tables, org: Id)
    requires cfg.FreshIds() && IdsAhead(cfg, t) && InvitationsGrow(cfg, t, t', org)
    requires t' == t.(invitations := t'.invitations, next := t'.next)
    ensures IdsAhead(cfg, t')
  {
    IdsStayAhead(cfg, t, t'.next);
  }

  lemma SeatsAddedIds(cfg: Config, t: Tables, seats: Seats, next: nat)
    requires IdsAhead(cfg, t) && next >= t.next && Free(cfg, seats, next)
    requires forall s :: s in seats ==> (s in t.seats && seats[s] == t.seats[s]) || seats[s].team in t.teams
    ensures IdsAhead(cfg, t.(seats := seats, next := next))
  {
    IdsStayAhead(cfg, t, next);
    forall n: nat, s | n >= next && s in seats ensures seats[s].team != cfg.gen(n) {
      assert cfg.gen(n) !in t.teams;
    }
  }

  /** Entering draws an id for the member and then one for each new seat. */
  lemma EnterSeats(cfg: Config, t: Tables, user: Id, id: Id, teams: seq<Id>, fault: Fault)
    requires cfg.FreshIds() && Free(cfg, t.seats, t.next) && id in t.invitations
    ensures var t' := Enter(cfg, t, user, id, teams, fault).0;
            SeatsGrow(cfg, t.seats, t.next + 1, t'.seats, t'.next, teams)
  {
    var t' := Enter(cfg, t, user, id, teams, fault).0;
    assert Free(cfg, t.seats, t.next + 1);
    if fault.MemberWrite? {
      assert t'.seats == t.seats && t'.next == t.next + 1;
      return;
    }
    var joined := JoinTeams(cfg, t.seats, t.next + 1, teams, user, FailingSeat(fault));
    assert t'.seats == joined.0 && t'.next == joined.1;
    JoinTeamsRows(cfg, t.seats, t.next + 1, teams, user, FailingSeat(fault));
  }

  /** It adds the member and settles the invitation, or leaves both tables alone. */
  ghost predicate Admitted(cfg: Config, t: Tables, t': Tables, user: Id, id: Id)
    requires id in t.invitations
  {
    && t'.members == t.members[cfg.gen(t.next) := Member(t.invitations[id].org, user, t.invitations[id].role)]
    && t'.invitations == WithStatus(t.invitations, id, Accepted)
  }

  lemma EnterEffect(cfg: Config, t: Tables, user: Id, id: Id, teams: seq<Id>, fault: Fault)
    requires id in t.invitations
    ensures var (t', reply) := Enter(cfg, t, user, id, teams, fault);
            if reply.Done? then Admitted(cfg, t, t', user, id)
            else t'.members == t.members && t'.invitations == t.invitations
  {
  }

  lemma AdmittedIds(cfg: Config, t: Tables, t': Tables, user: Id, id: Id)
    requires cfg.FreshIds() && IdsAhead(cfg, t) && t'.next > t.next && Free(cfg, t'.seats, t'.next) && id in t.invitations
    requires forall s :: s in t'.seats ==> (s in t.seats && t'.seats[s] == t.seats[s]) || t'.seats[s].team in t.teams
    requires t' == t.(members := t'.members, invitations := t'.invitations, seats := t'.seats, next := t'.next)
    requires (t'.members == t.members && t'.invitations == t.invitations) || Admitted(cfg, t, t', user, id)
    ensures IdsAhead(cfg, t')
  {
    SeatsAddedIds(cfg, t, t'.seats, t'.next);
    if t'.members != t.members {
      PutFree(cfg, t.members, t.next, t.next, t'.members[cfg.gen(t.next)], t'.next);
    }
  }

  lemma EnterIds(cfg: Config, t: Tables, user: Id, id: Id, teams: seq<Id>, fault: Fault)
    requires cfg.FreshIds() && IdsAhead(cfg, t) && id in t.invitations
    requires forall team :: team in teams ==> team in t.teams
    ensures IdsAhead(cfg, Enter(cfg, t, user, id, teams, fault).0)
  {
    EnterSeats(cfg, t, user, id, teams, fault);
    EnterEffect(cfg, t, user, id, teams, fault);
    AdmittedIds(cfg, t, Enter(cfg, t, user, id, teams, fault).0, user, id);
  }

  lemma AcceptIds(cfg: Config, t: Tables, caller: Caller, id: Id, fault: Fault, now: int)
    requires cfg.FreshIds() && IdsAhead(cfg, t)
    ensures IdsAhead(cfg, Accept(cfg, t, caller, id, fault, now).0)
  {
    if CheckAccept(cfg, t, caller, id, now).Done? {
      EnterIds(cfg, t, caller.user, id, Pieces(t.invitations[id].teamIds), fault);
    }
  }

  lemma AcceptHome(cfg: Config, t: Tables, caller: Caller, id: Id, fault: Fault, now: int)
    requires RowsAtHome(t)
    ensures RowsAtHome(Accept(cfg, t, caller, id, fault, now).0)
  {
    if CheckAccept(cfg, t, caller, id, now).Done? {
      EnterEffect(cfg, t, caller.user, id, Pieces(t.invitations[id].teamIds), fault);
    }
  }

  lemma AddMemberIds(cfg: Config, env: Env, t: Tables, user: Id, roles: seq<string>, org: Id, team: Id)
    requires cfg.FreshIds() && IdsAhead(cfg, t)
    ensures IdsAhead(cfg, AddMember(cfg, env, t, user, roles, org, team).0)
  {
    var t' := AddMember(cfg, env, t, user, roles, org, team).0;
    if CheckAddMember(cfg, env, t, user, roles, org, team).Done? {
      PutFree(cfg, t.members, t.next, t.next, Member(org, user, ParseRole(roles).value), t'.next);
      if team != "" {
        PutFree(cfg, t.seats, t.next, t.next + 1, Seat(team, user), t'.next);
        SeatsAddedIds(cfg, t, t'.seats, t'.next);
      } else {
        IdsStayAhead(cfg, t, t'.next);
      }
    }
  }

  lemma AddTeamMemberIds(cfg: Config, env: Env, t: Tables, user: Id, org: Id, team: Id, target: Id)
    requires cfg.FreshIds() && IdsAhead(cfg, t)
    ensures IdsAhead(cfg, AddTeamMember(cfg, env, t, user, org, team, target).0)
  {
    if CheckAddTeamMember(cfg, env, t, user, org, team, target).Done? && !HasSeat(t.seats, team, target) {
      PutFree(cfg, t.seats, t.next, t.next, Seat(team, target), t.next + 1);
      SeatsAddedIds(cfg, t, t.seats[cfg.gen(t.next) := Seat(team, target)], t.next + 1);
    }
  }

  lemma CreateTeamIds(cfg: Config, t: Tables, user: Id, org: Id, name: string)
    requires cfg.FreshIds() && IdsAhead(cfg, t)
    ensures IdsAhead(cfg, CreateTeam(cfg, t, user, org, name).0)
  {
    IdsStayAhead(cfg, t, t.next + 1);
    PutFree(cfg, t.teams, t.next, t.next, org, t.next + 1);
  }

  lemma CreateRoleIds(cfg: Config, t: Tables, user: Id, org: Id, role: string, permission: Statements)
    requires cfg.FreshIds() && IdsAhead(cfg, t)
    ensures IdsAhead(cfg, CreateRole(cfg, t, user, org, role, permission).0)
  {
    IdsStayAhead(cfg, t, t.next + 1);
    PutFree(cfg, t.roles, t.next, t.next, Role(org, RoleName(cfg, role), permission), t.next + 1);
  }

  lemma RemovalIds(cfg: Config, t: Tables, t': Tables)
    requires IdsAhead(cfg, t) && t'.next == t.next && t'.orgs == t.orgs && t'.invitations.Keys <= t.invitations.Keys
    requires t'.members.Keys <= t.members.Keys && t'.teams.Keys <= t.teams.Keys && t'.roles.Keys <= t.roles.Keys
    requires forall s :: s in t'.seats ==> s in t.seats && t'.seats[s] == t.seats[s]
    ensures IdsAhead(cfg, t')
  {
  }

  lemma OrgKeepsIds(cfg: Config, t: Tables, a: OrgAction)
    requires cfg.FreshIds() && IdsAhead(cfg, t)
    ensures IdsAhead(cfg, DoOrg(cfg, t, a).0)
  {
    match a
    case DoCreate(user, name, slug) => FoundIds(cfg, t, user, slug);
    case DoUpdate(user, org, slug) =>
    case DoDelete(user, org) => DissolveIds(cfg, t, org);
  }

  lemma InvitationKeepsIds(cfg: Config, env: Env, t: Tables, a: InvitationAction, now: int)
    requires cfg.FreshIds() && IdsAhead(cfg, t)
    ensures IdsAhead(cfg, DoInvitation(cfg, env, t, a, now).0)
  {
    match a
    case DoInvite(user, request) => InviteIds(cfg, env, t, user, request, now);
    case DoAccept(caller, id, fault) => AcceptIds(cfg, t, caller, id, fault, now);
    case DoReject(caller, id) => RemovalIds(cfg, t, Reject(cfg, t, caller, id, now).0);
    case DoCancel(user, id) => RemovalIds(cfg, t, Cancel(cfg, t, user, id).0);
  }

  lemma MemberKeepsIds(cfg: Config, env: Env, t: Tables, a: MemberAction)
    requires cfg.FreshIds() && IdsAhead(cfg, t)
    ensures IdsAhead(cfg, DoMember(cfg, env, t, a).0)
  {
    match a
    case DoAddMember(user, roles, org, team) => AddMemberIds(cfg, env, t, user, roles, org, team);
    case DoRemoveMember(user, org, key) => RemovalIds(cfg, t, RemoveMember(cfg, env, t, user, org, key).0);
    case DoUpdateRole(user, org, id, roles) => RemovalIds(cfg, t, UpdateRole(cfg, env, t, user, org, id, roles).0);
    case DoLeave(user, org) => RemovalIds(cfg, t, Leave(cfg, t, user, org).0);
  }

  lemma TeamKeepsIds(cfg: Config, env: Env, t: Tables, a: TeamAction)
    requires cfg.FreshIds() && IdsAhead(cfg, t)
    ensures IdsAhead(cfg, DoTeam(cfg, env, t, a).0)
  {
    match a
    case DoCreateTeam(user, org, name) => CreateTeamIds(cfg, t, user, org, name);
    case DoRemoveTeam(user, org, team, active) => RemovalIds(cfg, t, RemoveTeam(cfg, t, user, org, team, active).0);
    case DoAddTeamMember(user, org, team, target) => AddTeamMemberIds(cfg, env, t, user, org, team, target);
    case DoRemoveTeamMember(user, org, seat, team, target) =>
      RemovalIds(cfg, t, RemoveTeamMember(cfg, env, t, user, org, seat, team, target).0);
  }

  lemma RoleKeepsIds(cfg: Config, t: Tables, a: RoleAction)
    requires cfg.FreshIds() && IdsAhead(cfg, t)
    ensures IdsAhead(cfg, DoRole(cfg, t, a).0)
  {
    match a
    case DoCreateRole(user, org, role, permission) => CreateRoleIds(cfg, t, user, org, role, permission);
    case DoChangeRole(user, org, id, name, newName, permission) =>
      RemovalIds(cfg, t, ChangeRole(cfg, t, user, org, id, name, newName, permission).0);
    case DoDeleteRole(user, org, id, name) => RemovalIds(cfg, t, DeleteRole(cfg, t, user, org, id, name).0);
  }

  /** Drawn ids stay ahead of every table. */
  lemma StepKeepsIds(cfg: Config, t: Tables, s: Step)
    requires cfg.FreshIds() && IdsAhead(cfg, t)
    ensures IdsAhead(cfg, Do(cfg, t, s).0)
  {
    match s.action
    case OnOrg(a) => OrgKeepsIds(cfg, t, a);
    case OnInvitation(a) => InvitationKeepsIds(cfg, s.env, t, a, s.now);
    case OnMember(a) => MemberKeepsIds(cfg, s.env, t, a);
    case OnTeam(a) => TeamKeepsIds(cfg, s.env, t, a);
    case OnRole(a) => RoleKeepsIds(cfg, t, a);
  }

  // -------------------------------------------------------------- homes

  lemma MayDoNeedsOrg(cfg: Config, t: Tables, org: Id, user: Id, request: Statements)
    requires RowsAtHome(t) && MayDo(cfg, t, org, user, request)
    ensures org in t.orgs
  {
  }

  lemma OrgKeepsHomes(cfg: Config, t: Tables, a: OrgAction)
    requires RowsAtHome(t)
    ensures RowsAtHome(DoOrg(cfg, t, a).0)
  {
    match a
    case DoCreate(user, name, slug) => assert RowsAtHome(Found(cfg, t, user, slug));
    case DoUpdate(user, org, slug) =>
    case DoDelete(user, org) => assert RowsAtHome(Dissolve(t, org));
  }

  lemma InvitationKeepsHomes(cfg: Config, env: Env, t: Tables, a: InvitationAction, now: int)
    requires cfg.FreshIds() && IdsAhead(cfg, t) && RowsAtHome(t)
    ensures RowsAtHome(DoInvitation(cfg, env, t, a, now).0)
  {
    match a
    case DoInvite(user, request) =>
      InviteGrows(cfg, env, t, user, request, now);
      InviteNeedsOrg(cfg, env, t, user, request, now);
    case DoAccept(caller, id, fault) => AcceptHome(cfg, t, caller, id, fault, now);
    case _ =>
  }

  lemma MemberKeepsHomes(cfg: Config, env: Env, t: Tables, a: MemberAction)
    requires RowsAtHome(t)
    ensures RowsAtHome(DoMember(cfg, env, t, a).0)
  {
  }

  lemma TeamKeepsHomes(cfg: Config, env: Env, t: Tables, a: TeamAction)
    requires RowsAtHome(t)
    ensures RowsAtHome(DoTeam(cfg, env, t, a).0)
  {
  }

  lemma RoleKeepsHomes(cfg: Config, t: Tables, a: RoleAction)
    requires RowsAtHome(t)
    ensures RowsAtHome(DoRole(cfg, t, a).0)
  {
    if a.DoCreateRole? && CheckCreateRole(cfg, t, a.user, a.org, a.role, a.permission).Done? {
      MayDoNeedsOrg(cfg, t, a.org, a.user, Ask("ac", "create"));
    }
  }

  lemma StepKeepsHomes(cfg: Config, t: Tables, s: Step)
    requires cfg.FreshIds() && IdsAhead(cfg, t) && RowsAtHome(t)
    ensures RowsAtHome(Do(cfg, t, s).0)
  {
    match s.action
    case OnOrg(a) => OrgKeepsHomes(cfg, t, a);
    case OnInvitation(a) => InvitationKeepsHomes(cfg, s.env, t, a, s.now);
    case OnMember(a) => MemberKeepsHomes(cfg, s.env, t, a);
    case OnTeam(a) => TeamKeepsHomes(cfg, s.env, t, a);
    case OnRole(a) => RoleKeepsHomes(cfg, t, a);
  }

  // -------------------------------------------------------------- the invariants, one by one

  lemma OrgKeepsMembers(cfg: Config, t: Tables, a: OrgAction)
    requires Sound(cfg) && IdsAhead(cfg, t) && AtHome(t.orgs, t.members) && MembersOk(cfg, t.orgs, t.members)
    ensures var t' := DoOrg(cfg, t, a).0; MembersOk(cfg, t'.orgs, t'.members)
  {
    NameNamesItself(cfg.CreatorRole());
    match a
    case DoCreate(user, name, slug) => CreateKeepsMembers(cfg, t, user, name, slug);
    case DoUpdate(user, org, slug) =>
    case DoDelete(user, org) => DeleteKeepsMembers(cfg, t, user, org);
  }

  lemma InvitationKeepsMembers(cfg: Config, env: Env, t: Tables, a: InvitationAction, now: int)
    requires Free(cfg, t.members, t.next) && MembersOk(cfg, t.orgs, t.members)
    ensures var t' := DoInvitation(cfg, env, t, a, now).0; MembersOk(cfg, t'.orgs, t'.members)
  {
    match a
    case DoAccept(caller, id, fault) => AcceptKeepsMembers(cfg, t, caller, id, fault, now);
    case _ =>
  }

  lemma MemberKeepsMembers(cfg: Config, env: Env, t: Tables, a: MemberAction)
    requires Free(cfg, t.members, t.next) && MembersOk(cfg, t.orgs, t.members)
    ensures var t' := DoMember(cfg, env, t, a).0; MembersOk(cfg, t'.orgs, t'.members)
  {
    match a
    case DoAddMember(user, roles, org, team) => AddMemberKeepsMembers(cfg, env, t, user, roles, org, team);
    case DoRemoveMember(user, org, key) => RemoveMemberKeepsMembers(cfg, env, t, user, org, key);
    case DoUpdateRole(user, org, id, roles) => UpdateRoleKeepsMembers(cfg, env, t, user, org, id, roles);
    case DoLeave(user, org) => LeaveHandlerKeepsMembers(cfg, t, user, org);
  }

  lemma StepKeepsMembers(cfg: Config, t: Tables, s: Step)
    requires Sound(cfg) && IdsAhead(cfg, t) && AtHome(t.orgs, t.members) && MembersOk(cfg, t.orgs, t.members)
    ensures var t' := Do(cfg, t, s).0; MembersOk(cfg, t'.orgs, t'.members)
  {
    match s.action
    case OnOrg(a) => OrgKeepsMembers(cfg, t, a);
    case OnInvitation(a) => InvitationKeepsMembers(cfg, s.env, t, a, s.now);
    case OnMember(a) => MemberKeepsMembers(cfg, s.env, t, a);
    case _ =>
  }

  lemma InvitationKeepsInvitations(cfg: Config, env: Env, t: Tables, a: InvitationAction, now: int)
    requires Free(cfg, t.invitations, t.next) && InvitationsOk(cfg, t.invitations, now)
    ensures var t' := DoInvitation(cfg, env, t, a, now).0;
            InvitationsOk(cfg, t'.invitations, now) && Settles(t.invitations, t'.invitations)
  {
    match a
    case DoInvite(user, request) => InviteKeepsInvitations(cfg, env, t, user, request, now);
    case DoAccept(caller, id, fault) => AcceptKeepsInvitations(cfg, t, caller, id, fault, now);
    case DoReject(caller, id) => RejectKeepsInvitations(cfg, t, caller, id, now);
    case DoCancel(user, id) => CancelKeepsInvitations(cfg, t, user, id, now);
  }

  lemma OrgKeepsInvitations(cfg: Config, t: Tables, a: OrgAction, now: int)
    requires InvitationsOk(cfg, t.invitations, now)
    ensures var t' := DoOrg(cfg, t, a).0;
            InvitationsOk(cfg, t'.invitations, now) && Settles(t.invitations, t'.invitations)
  {
    match a
    case DoDelete(user, org) => DeleteKeepsInvitations(cfg, t, user, org, now);
    case _ => assert DoOrg(cfg, t, a).0.invitations == t.invitations;
  }

  /** No request makes a recipient's second invitation live, exceeds the limit, changes
      what an invitation offers, or makes a settled one pending again. */
  lemma StepKeepsInvitations(cfg: Config, t: Tables, s: Step)
    requires Free(cfg, t.invitations, t.next) && InvitationsOk(cfg, t.invitations, s.now)
    ensures var t' := Do(cfg, t, s).0;
            InvitationsOk(cfg, t'.invitations, s.now) && Settles(t.invitations, t'.invitations)
  {
    match s.action
    case OnOrg(a) => OrgKeepsInvitations(cfg, t, a, s.now);
    case OnInvitation(a) => InvitationKeepsInvitations(cfg, s.env, t, a, s.now);
    case _ => assert Do(cfg, t, s).0.invitations == t.invitations;
  }

  lemma OrgKeepsTeams(cfg: Config, t: Tables, a: OrgAction)
    requires IdsAhead(cfg, t) && TeamsAtHome(t.orgs, t.teams) && TeamsOk(cfg, t.orgs, t.teams)
    ensures var t' := DoOrg(cfg, t, a).0; TeamsOk(cfg, t'.orgs, t'.teams)
  {
    match a
    case DoCreate(user, name, slug) => CreateKeepsTeams(cfg, t, user, name, slug);
    case DoUpdate(user, org, slug) =>
    case DoDelete(user, org) => DeleteKeepsTeams(cfg, t, user, org);
  }

  lemma TeamKeepsTeams(cfg: Config, env: Env, t: Tables, a: TeamAction)
    requires Free(cfg, t.teams, t.next) && TeamsOk(cfg, t.orgs, t.teams)
    ensures var t' := DoTeam(cfg, env, t, a).0; TeamsOk(cfg, t'.orgs, t'.teams)
  {
    match a
    case DoCreateTeam(user, org, name) => CreateTeamKeepsTeams(cfg, t, user, org, name);
    case DoRemoveTeam(user, org, team, active) => RemoveTeamKeepsTeams(cfg, t, user, org, team, active);
    case _ =>
  }

  lemma StepKeepsTeams(cfg: Config, t: Tables, s: Step)
    requires IdsAhead(cfg, t) && TeamsAtHome(t.orgs, t.teams) && TeamsOk(cfg, t.orgs, t.teams)
    ensures var t' := Do(cfg, t, s).0; TeamsOk(cfg, t'.orgs, t'.teams)
  {
    match s.action
    case OnOrg(a) => OrgKeepsTeams(cfg, t, a);
    case OnTeam(a) => TeamKeepsTeams(cfg, s.env, t, a);
    case _ =>
  }

  lemma OrgKeepsSeats(cfg: Config, t: Tables, a: OrgAction)
    requires IdsAhead(cfg, t) && SeatsOk(cfg, t.seats)
    ensures SeatsOk(cfg, DoOrg(cfg, t, a).0.seats)
  {
    assert SeatsOf(t.seats, cfg.gen(t.next + 2)) == {};
    if a.DoCreate? {
      CreateKeepsSeats(cfg, t, a.user, a.name, a.slug);
    }
  }

  lemma TeamKeepsSeats(cfg: Config, env: Env, t: Tables, a: TeamAction)
    requires Free(cfg, t.seats, t.next) && SeatsOk(cfg, t.seats)
    ensures SeatsOk(cfg, DoTeam(cfg, env, t, a).0.seats)
  {
    match a
    case DoRemoveTeam(user, org, team, active) => RemovalsKeepSeats(cfg, env, t, user, org, "", team, "", active);
    case DoAddTeamMember(user, org, team, target) => AddTeamMemberKeepsSeats(cfg, env, t, user, org, team, target);
    case DoRemoveTeamMember(user, org, seat, team, target) => RemovalsKeepSeats(cfg, env, t, user, org, seat, team, target, None);
    case _ =>
  }

  lemma StepKeepsSeats(cfg: Config, t: Tables, s: Step)
    requires cfg.FreshIds() && IdsAhead(cfg, t) && SeatsOk(cfg, t.seats)
    ensures SeatsOk(cfg, Do(cfg, t, s).0.seats)
  {
    match s.action
    case OnOrg(a) => OrgKeepsSeats(cfg, t, a);
    case OnInvitation(a) =>
      if a.DoAccept? {
        AcceptKeepsSeats(cfg, t, a.caller, a.id, a.fault, s.now);
      }
    case OnMember(a) =>
      if a.DoAddMember? {
        AddMemberKeepsSeats(cfg, s.env, t, a.user, a.roles, a.org, a.team);
      }
    case OnTeam(a) => TeamKeepsSeats(cfg, s.env, t, a);
    case OnRole(a) =>
  }

  lemma RoleKeepsRoles(cfg: Config, t: Tables, a: RoleAction)
    requires RolesOk(cfg, t.roles)
    ensures RolesOk(cfg, DoRole(cfg, t, a).0.roles)
  {
    match a
    case DoCreateRole(user, org, role, permission) => CreateRoleKeepsRoles(cfg, t, user, org, role, permission);
    case DoChangeRole(user, org, id, name, newName, permission) => ChangeRoleKeepsRoles(cfg, t, user, org, id, name, newName, permission);
    case DoDeleteRole(user, org, id, name) => RemovalsKeepRoles(cfg, t, user, org, id, name);
  }

  lemma StepKeepsRoles(cfg: Config, t: Tables, s: Step)
    requires RolesOk(cfg, t.roles)
    ensures RolesOk(cfg, Do(cfg, t, s).0.roles)
  {
    match s.action
    case OnOrg(a) =>
      if a.DoDelete? {
        RemovalsKeepRoles(cfg, t, a.user, a.org, "", "");
      }
    case OnRole(a) => RoleKeepsRoles(cfg, t, a);
    case _ =>
  }

  lemma StepKeepsRoleLimit(cfg: Config, t: Tables, s: Step)
    requires RolesWithinLimit(cfg, t.roles) && Free(cfg, t.roles, t.next)
    ensures RolesWithinLimit(cfg, Do(cfg, t, s).0.roles)
  {
    match s.action
    case OnOrg(a) =>
      if a.DoDelete? {
        FewerRolesKeepLimit(cfg, t.roles, Dissolve(t, a.org).roles);
      }
    case OnRole(a) => RoleKeepsLimit(cfg, t, a);
    case _ =>
  }

  lemma RoleKeepsLimit(cfg: Config, t: Tables, a: RoleAction)
    requires RolesWithinLimit(cfg, t.roles) && Free(cfg, t.roles, t.next)
    ensures RolesWithinLimit(cfg, DoRole(cfg, t, a).0.roles)
  {
    match a
    case DoCreateRole(user, org, role, permission) => CreateRoleKeepsLimit(cfg, t, user, org, role, permission);
    case DoChangeRole(user, org, id, name, newName, permission) => ChangeRoleKeepsLimit(cfg, t, user, org, id, name, newName, permission);
    case DoDeleteRole(user, org, id, name) => FewerRolesKeepLimit(cfg, t.roles, DeleteRole(cfg, t, user, org, id, name).0.roles);
  }

  lemma OrgKeepsSlugs(cfg: Config, t: Tables, a: OrgAction)
    requires SlugsOk(cfg, t.orgs)
    ensures SlugsOk(cfg, DoOrg(cfg, t, a).0.orgs)
  {
    match a
    case DoCreate(user, name, slug) => CreateKeepsSlugs(cfg, t, user, name, slug);
    case DoUpdate(user, org, slug) => UpdateKeepsSlugs(cfg, t, user, org, slug);
    case DoDelete(user, org) => DeleteKeepsSlugs(cfg, t, user, org);
  }

  lemma StepKeepsSlugs(cfg: Config, t: Tables, s: Step)
    requires SlugsOk(cfg, t.orgs)
    ensures SlugsOk(cfg, Do(cfg, t, s).0.orgs)
  {
    match s.action
    case OnOrg(a) => OrgKeepsSlugs(cfg, t, a);
    case _ =>
  }

  /** Every request keeps every invariant. */
  lemma StepKeeps(cfg: Config, t: Tables, clock: int, s: Step)
    requires Sound(cfg) && TablesOk(cfg, t, clock) && clock <= s.now
    ensures TablesOk(cfg, Do(cfg, t, s).0, s.now)
  {
    TimePasses(cfg, t.invitations, clock, s.now);
    StepKeepsIds(cfg, t, s);
    StepKeepsHomes(cfg, t, s);
    StepKeepsMembers(cfg, t, s);
    StepKeepsInvitations(cfg, t, s);
    StepKeepsTeams(cfg, t, s);
    StepKeepsSeats(cfg, t, s);
    StepKeepsRoles(cfg, t, s);
    StepKeepsRoleLimit(cfg, t, s);
    StepKeepsSlugs(cfg, t, s);
  }

  function Empty(): Tables
  {
    Tables(map[], map[], map[], map[], map[], map[], 0)
  }

  lemma EmptyOk(cfg: Config, now: int)
    ensures TablesOk(cfg, Empty(), now)
  {
    var t := Empty();
    assert forall org :: MembersOf(t.members, org) == {} && LiveOf(t.invitations, org, now) == {};
    assert forall team :: Occupants(t.seats, team) == {};
    assert forall org :: RolesOf(t.roles, org) == {};
  }

  lemma {:induction false} RunKeeps(cfg: Config, t: Tables, clock: int, run: seq<Step>, later: int)
    requires Sound(cfg) && TablesOk(cfg, t, clock) && InOrder(run, clock)
    requires clock <= later && (run != [] ==> run[|run| - 1].now <= later)
    ensures TablesOk(cfg, After(cfg, t, run), later)
    decreases run
  {
    if run == [] {
      TimePasses(cfg, t.invitations, clock, later);
    } else {
      StepKeeps(cfg, t, clock, run[0]);
      assert InOrder(run[1..], run[0].now);
      RunKeeps(cfg, Do(cfg, t, run[0]).0, run[0].now, run[1..], later);
    }
  }

  /** Whatever requests come, in whatever order, from an empty start: at every later
      time every organization has somebody with the creator role, one row for each
      member and no more than the limit; no recipient has two live invitations and no
      organization too many; the number of teams, the users of each team and the own
      roles, in number and by name, are within their bounds; and slugs are distinct. */
  lemma EveryRunIsSafe(cfg: Config, run: seq<Step>, start: int, later: int)
    requires Sound(cfg) && InOrder(run, start) && start <= later && (run != [] ==> run[|run| - 1].now <= later)
    ensures var t := After(cfg, Empty(), run);
            && (forall org :: org in t.orgs ==> CreatorsOf(cfg, t.members, org) != {})
            && (forall org :: |MembersOf(t.members, org)| <= cfg.MembershipLimit())
            && (forall i, j, org, user :: IsMember(t.members, i, org, user) && IsMember(t.members, j, org, user) ==> i == j)
            && NoRivals(cfg, t.invitations, later)
            && (forall org :: |LiveOf(t.invitations, org, later)| <= cfg.InvitationLimit())
            && (TeamsBounded(cfg) ==> forall org :: org in t.orgs ==> 1 <= |TeamsOf(t.teams, org)| <= cfg.MaximumTeams())
            && (cfg.SeatLimit() > 0 ==> forall team :: |Occupants(t.seats, team)| <= cfg.SeatLimit())
            && RolesOk(cfg, t.roles)
            && (cfg.RoleLimit() > 0 ==> forall org :: |RolesOf(t.roles, org)| <= cfg.RoleLimit())
            && DistinctSlugs(t.orgs)
  {
    EmptyOk(cfg, start);
    RunKeeps(cfg, Empty(), start, run, later);
  }

}
