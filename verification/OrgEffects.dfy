/** What every request of the organization plugin that succeeds leaves in the tables. */
module OrgEffects {
  import opened Strings
  import opened RoleCodec
  import opened Access
  import opened OrgTables
  import opened OrgHandlers
  import opened OrgStore
  import opened OrgInvitations
  import opened OrgTeams
  import opened OrgRuns
  import opened OrgPermissions
  import opened OrgAnswers

  /** There is one row more, and the others are as before. */
  ghost predicate Added<V>(before: map<Id, V>, after: map<Id, V>, row: V)
  {
    exists id :: id !in before && after == before[id := row]
  }

  /** The rows of these ids are gone, and the others are as before. */
  ghost predicate Without<V>(before: map<Id, V>, after: map<Id, V>, gone: set<Id>)
  {
    after.Keys == before.Keys - gone && forall id :: id in after ==> after[id] == before[id]
  }

  ghost function InvitationsOf(invitations: Invitations, org: Id): set<Id>
  {
    set id | id in invitations && invitations[id].org == org
  }

  // -------------------------------------------------------------- organizations

  /** A new organization with its slug, its creator, and the default team with a seat. */
  ghost predicate CreateLeaves(cfg: Config, t: Tables, t': Tables, user: Id, slug: string)
  {
    exists org :: org !in t.orgs
      && t'.orgs == t.orgs[org := cfg.lower(slug)]
      && Added(t.members, t'.members, Member(org, user, cfg.CreatorRole()))
      && t'.invitations == t.invitations && t'.roles == t.roles
      && if cfg.teamsEnabled && cfg.defaultTeamOption then
           exists team :: team !in t.teams && t'.teams == t.teams[team := org] && Added(t.seats, t'.seats, Seat(team, user))
         else t'.teams == t.teams && t'.seats == t.seats
  }

  ghost predicate UpdateLeaves(cfg: Config, t: Tables, t': Tables, org: Id, slug: string)
  {
    && t' == t.(orgs := t'.orgs) && t'.orgs.Keys == t.orgs.Keys && org in t.orgs
    && (forall o :: o in t.orgs && o != org ==> t'.orgs[o] == t.orgs[o])
    && (slug != "" ==> t'.orgs[org] == cfg.lower(slug))
    && (slug == "" ==> t'.orgs[org] == if cfg.keepsSlug then t.orgs[org] else "")
  }

  /** The organization is gone with all its rows, but for the seats in its teams. */
  ghost predicate DeleteLeaves(t: Tables, t': Tables, org: Id)
  {
    && Without(t.orgs, t'.orgs, {org}) && Without(t.members, t'.members, MembersOf(t.members, org))
    && Without(t.invitations, t'.invitations, InvitationsOf(t.invitations, org))
    && Without(t.teams, t'.teams, TeamsOf(t.teams, org)) && Without(t.roles, t'.roles, RolesOf(t.roles, org))
    && t'.seats == t.seats
  }

  ghost predicate OrgLeaves(cfg: Config, t: Tables, t': Tables, a: OrgAction)
  {
    match a
    case DoCreate(user, _, slug) => CreateLeaves(cfg, t, t', user, slug)
    case DoUpdate(_, org, slug) => UpdateLeaves(cfg, t, t', org, slug)
    case DoDelete(_, org) => DeleteLeaves(t, t', org)
  }

  lemma FoundingLeaves(cfg: Config, t: Tables, user: Id, slug: string)
    requires cfg.FreshIds() && IdsAhead(cfg, t)
    ensures CreateLeaves(cfg, t, Found(cfg, t, user, slug), user, slug)
  {
    assert cfg.gen(t.next) !in t.orgs && cfg.gen(t.next + 1) !in t.members;
    if cfg.DefaultTeam() {
      assert cfg.gen(t.next + 2) !in t.teams && cfg.gen(t.next + 3) !in t.seats;
    }
  }

  lemma UpdatingLeaves(cfg: Config, t: Tables, user: Id, org: Id, slug: string)
    requires Update(cfg, t, user, org, slug).1.Done?
    ensures UpdateLeaves(cfg, t, Update(cfg, t, user, org, slug).0, org, slug)
  {
  }

  lemma DissolvingLeaves(t: Tables, org: Id)
    ensures DeleteLeaves(t, Dissolve(t, org), org)
  {
    var t' := Dissolve(t, org);
    assert Without(t.members, t'.members, MembersOf(t.members, org));
    assert Without(t.invitations, t'.invitations, InvitationsOf(t.invitations, org));
    assert Without(t.teams, t'.teams, TeamsOf(t.teams, org));
    assert Without(t.roles, t'.roles, RolesOf(t.roles, org));
  }

  lemma OrgRequestLeaves(cfg: Config, t: Tables, a: OrgAction)
    requires cfg.FreshIds() && IdsAhead(cfg, t) && DoOrg(cfg, t, a).1.Done?
    ensures OrgLeaves(cfg, t, DoOrg(cfg, t, a).0, a)
  {
    match a
    case DoCreate(user, name, slug) => FoundingLeaves(cfg, t, user, slug);
    case DoUpdate(user, org, slug) => UpdatingLeaves(cfg, t, user, org, slug);
    case DoDelete(user, org) => DissolvingLeaves(t, org);
  }

  // -------------------------------------------------------------- invitations

  /** The invitation offers just what was requested. */
  ghost predicate Offers(cfg: Config, r: InviteRequest, now: int, inv: Invitation)
  {
    && inv.org == r.org && inv.email == cfg.lower(TrimSpace(r.email))
    && Pieces(inv.role) == AllPieces(r.roles) && Pieces(inv.teamIds) == Distinct(Cleaned(r.teams))
    && inv.status == Pending && inv.expiresAt == now + cfg.InvitationExpiresIn()
  }

  /** The live invitation of the recipient, if any, is cancelled, and no other is touched. */
  ghost predicate EarlierCancelled(cfg: Config, before: Invitations, after: Invitations, org: Id, email: string, now: int)
  {
    forall id :: id in before ==>
      id in after && after[id] == if IsLive(cfg, before, id, org, email, now) then before[id].(status := Canceled) else before[id]
  }

  /** There is one invitation more, just as requested. */
  ghost predicate Invites(cfg: Config, t: Tables, t': Tables, r: InviteRequest, now: int)
  {
    && t' == t.(invitations := t'.invitations, next := t'.next)
    && exists id :: id !in t.invitations && t'.invitations.Keys == t.invitations.Keys + {id}
         && Offers(cfg, r, now, t'.invitations[id])
  }

  ghost predicate Prolongs(cfg: Config, t: Tables, t': Tables, id: Id, now: int)
    requires id in t.invitations
  {
    t' == t.(invitations := t.invitations[id := t.invitations[id].(expiresAt := now + cfg.InvitationExpiresIn())])
  }

  /** An earlier live invitation of the recipient is prolonged if that was asked for; if
      not, it is cancelled and there is a new one. */
  ghost predicate InviteLeaves(cfg: Config, t: Tables, t': Tables, r: InviteRequest, now: int)
  {
    var email := cfg.lower(TrimSpace(r.email));
    if r.resend && Invited(cfg, t, r.org, email, now) then
      exists id :: IsLive(cfg, t.invitations, id, r.org, email, now) && Prolongs(cfg, t, t', id, now)
    else Invites(cfg, t, t', r, now) && EarlierCancelled(cfg, t.invitations, t'.invitations, r.org, email, now)
  }

  /** The caller is a member with the offered role and has a seat in each of the teams. */
  ghost predicate AcceptLeaves(t: Tables, t': Tables, user: Id, id: Id)
  {
    && id in t.invitations
    && t' == t.(members := t'.members, invitations := t'.invitations, seats := t'.seats, next := t'.next)
    && Added(t.members, t'.members, Member(t.invitations[id].org, user, t.invitations[id].role))
    && t'.invitations == t.invitations[id := t.invitations[id].(status := Accepted)]
    && forall team :: Occupants(t'.seats, team) ==
         Occupants(t.seats, team) + if team in Pieces(t.invitations[id].teamIds) then {user} else {}
  }

  ghost predicate SettleLeaves(t: Tables, t': Tables, id: Id, status: Status)
  {
    id in t.invitations && t' == t.(invitations := t.invitations[id := t.invitations[id].(status := status)])
  }

  ghost predicate InvitationLeaves(cfg: Config, t: Tables, t': Tables, a: InvitationAction, now: int)
  {
    match a
    case DoInvite(_, r) => InviteLeaves(cfg, t, t', r, now)
    case DoAccept(caller, id, _) => AcceptLeaves(t, t', caller.user, id)
    case DoReject(_, id) => SettleLeaves(t, t', id, Rejected)
    case DoCancel(_, id) => SettleLeaves(t, t', id, Canceled)
  }

  lemma NewInvitationOffers(cfg: Config, r: InviteRequest, now: int)
    requires ParseRole(r.roles).Roles? && ParseTeams(r.teams).Teams?
    ensures Offers(cfg, r, now, NewInvitation(cfg, r, now))
  {
    AllPiecesAreClean(r.roles);
    PiecesOfJoin(AllPieces(r.roles));
    TeamIdsRoundTrip(r.teams);
  }

  lemma AnewLeaves(cfg: Config, t: Tables, rows: Invitations, r: InviteRequest, email: string, now: int)
    requires ParseRole(r.roles).Roles? && InviteAnew(cfg, t, rows, r, now).1.Done?
    requires cfg.gen(t.next) !in t.invitations && rows.Keys == t.invitations.Keys
    requires EarlierCancelled(cfg, t.invitations, rows, r.org, email, now)
    ensures var t' := InviteAnew(cfg, t, rows, r, now).0;
            Invites(cfg, t, t', r, now) && EarlierCancelled(cfg, t.invitations, t'.invitations, r.org, email, now)
  {
    NewInvitationOffers(cfg, r, now);
    var id, t' := cfg.gen(t.next), InviteAnew(cfg, t, rows, r, now).0;
    assert t'.invitations == rows[id := NewInvitation(cfg, r, now)];
    assert t'.invitations.Keys == t.invitations.Keys + {id};
  }

  lemma OnlyEarlierCancelled(cfg: Config, t: Tables, earlier: Id, org: Id, email: string, now: int)
    requires NoRivals(cfg, t.invitations, now) && IsLive(cfg, t.invitations, earlier, org, email, now)
    ensures EarlierCancelled(cfg, t.invitations, WithStatus(t.invitations, earlier, Canceled), org, email, now)
  {
    forall id | IsLive(cfg, t.invitations, id, org, email, now) ensures id == earlier {
      assert !Rivals(cfg, t.invitations, id, earlier, now);
    }
  }

  lemma InvitingLeaves(cfg: Config, env: Env, t: Tables, user: Id, r: InviteRequest, now: int)
    requires cfg.gen(t.next) !in t.invitations && NoRivals(cfg, t.invitations, now) && Invite(cfg, env, t, user, r, now).1.Done?
    ensures InviteLeaves(cfg, t, Invite(cfg, env, t, user, r, now).0, r, now)
  {
    var email := NormalizeEmail(cfg, r.email);
    var earlier := FindLive(cfg, t.invitations, r.org, email, now);
    if earlier.None? {
      AnewLeaves(cfg, t, t.invitations, r, email, now);
    } else if r.resend {
      assert Prolongs(cfg, t, Invite(cfg, env, t, user, r, now).0, earlier.value, now);
    } else {
      OnlyEarlierCancelled(cfg, t, earlier.value, r.org, email, now);
      AnewLeaves(cfg, t, WithStatus(t.invitations, earlier.value, Canceled), r, email, now);
    }
  }

  lemma EnterTakesSeats(cfg: Config, t: Tables, user: Id, id: Id, teams: seq<Id>, fault: Fault, team: Id)
    requires cfg.FreshIds() && Free(cfg, t.seats, t.next) && id in t.invitations && Enter(cfg, t, user, id, teams, fault).1.Done?
    ensures Occupants(Enter(cfg, t, user, id, teams, fault).0.seats, team) ==
            Occupants(t.seats, team) + if team in teams then {user} else {}
  {
    assert Free(cfg, t.seats, t.next + 1);
    JoinTeamsSeats(cfg, t.seats, t.next + 1, teams, user, FailingSeat(fault), team);
  }

  lemma AcceptingLeaves(cfg: Config, t: Tables, caller: Caller, id: Id, fault: Fault, now: int)
    requires cfg.FreshIds() && IdsAhead(cfg, t) && Accept(cfg, t, caller, id, fault, now).1.Done?
    ensures AcceptLeaves(t, Accept(cfg, t, caller, id, fault, now).0, caller.user, id)
  {
    var teams := Pieces(t.invitations[id].teamIds);
    var t' := Enter(cfg, t, caller.user, id, teams, fault).0;
    EnterEffect(cfg, t, caller.user, id, teams, fault);
    assert cfg.gen(t.next) !in t.members;
    forall team {
      EnterTakesSeats(cfg, t, caller.user, id, teams, fault, team);
    }
  }

  lemma InvitationRequestLeaves(cfg: Config, env: Env, t: Tables, a: InvitationAction, now: int)
    requires cfg.FreshIds() && IdsAhead(cfg, t) && NoRivals(cfg, t.invitations, now) && DoInvitation(cfg, env, t, a, now).1.Done?
    ensures InvitationLeaves(cfg, t, DoInvitation(cfg, env, t, a, now).0, a, now)
  {
    match a
    case DoInvite(user, r) => InvitingLeaves(cfg, env, t, user, r, now);
    case DoAccept(caller, id, fault) => AcceptingLeaves(cfg, t, caller, id, fault, now);
    case DoReject(caller, id) =>
    case DoCancel(user, id) =>
  }

  // -------------------------------------------------------------- members

  ghost predicate AddLeaves(t: Tables, t': Tables, user: Id, roles: seq<string>, org: Id, team: Id)
  {
    && t' == t.(members := t'.members, seats := t'.seats, next := t'.next)
    && Added(t.members, t'.members, Member(org, user, Join(AllPieces(roles), ',')))
    && (team == "" ==> t'.seats == t.seats)
    && (team != "" ==> Added(t.seats, t'.seats, Seat(team, user)))
  }

  ghost predicate RemoveLeaves(cfg: Config, env: Env, t: Tables, t': Tables, org: Id, key: string)
  {
    exists m :: Named(cfg, env, t, org, key, m) && t' == t.(members := t.members - {m})
  }

  /** The row names just the requested roles, and no other has changed. */
  ghost predicate RecastLeaves(t: Tables, t': Tables, id: Id, roles: seq<string>)
  {
    && id in t.members && t' == t.(members := t.members[id := t.members[id].(role := Join(AllPieces(roles), ','))])
    && Pieces(t'.members[id].role) == AllPieces(roles)
  }

  ghost predicate LeaveLeaves(t: Tables, t': Tables, user: Id, org: Id)
  {
    exists m :: IsMember(t.members, m, org, user) && t' == t.(members := t.members - {m})
  }

  ghost predicate MemberLeaves(cfg: Config, env: Env, t: Tables, t': Tables, a: MemberAction)
  {
    match a
    case DoAddMember(user, roles, org, team) => AddLeaves(t, t', user, roles, org, team)
    case DoRemoveMember(_, org, key) => RemoveLeaves(cfg, env, t, t', org, key)
    case DoUpdateRole(_, _, id, roles) => RecastLeaves(t, t', id, roles)
    case DoLeave(user, org) => LeaveLeaves(t, t', user, org)
  }

  lemma AddingLeaves(cfg: Config, env: Env, t: Tables, user: Id, roles: seq<string>, org: Id, team: Id)
    requires cfg.gen(t.next) !in t.members && cfg.gen(t.next + 1) !in t.seats && AddMember(cfg, env, t, user, roles, org, team).1.Done?
    ensures AddLeaves(t, AddMember(cfg, env, t, user, roles, org, team).0, user, roles, org, team)
  {
    if team != "" {
      AddMemberSeats(cfg, env, t, user, roles, org, team);
    }
  }

  lemma RemovingLeaves(cfg: Config, env: Env, t: Tables, user: Id, org: Id, key: string)
    requires OneRowEach(t.members) && RemoveMember(cfg, env, t, user, org, key).1.Done?
    ensures RemoveLeaves(cfg, env, t, RemoveMember(cfg, env, t, user, org, key).0, org, key)
  {
    FoundIsNamed(cfg, env, t, org, key);
  }

  lemma RecastingLeaves(cfg: Config, env: Env, t: Tables, user: Id, org: Id, id: Id, roles: seq<string>)
    requires UpdateRole(cfg, env, t, user, org, id, roles).1.Done?
    ensures RecastLeaves(t, UpdateRole(cfg, env, t, user, org, id, roles).0, id, roles)
  {
    AskedNames(cfg, t, org, roles);
  }

  lemma MemberRequestLeaves(cfg: Config, env: Env, t: Tables, a: MemberAction)
    requires IdsAhead(cfg, t) && OneRowEach(t.members) && DoMember(cfg, env, t, a).1.Done?
    ensures MemberLeaves(cfg, env, t, DoMember(cfg, env, t, a).0, a)
  {
    match a
    case DoAddMember(user, roles, org, team) => AddingLeaves(cfg, env, t, user, roles, org, team);
    case DoRemoveMember(user, org, key) => RemovingLeaves(cfg, env, t, user, org, key);
    case DoUpdateRole(user, org, id, roles) => RecastingLeaves(cfg, env, t, user, org, id, roles);
    case DoLeave(user, org) =>
  }

  // -------------------------------------------------------------- teams

  ghost predicate NewTeamLeaves(t: Tables, t': Tables, org: Id)
  {
    t' == t.(teams := t'.teams, next := t'.next) && Added(t.teams, t'.teams, org)
  }

  ghost predicate DropTeamLeaves(t: Tables, t': Tables, team: Id)
  {
    && t' == t.(teams := t'.teams, seats := t'.seats)
    && Without(t.teams, t'.teams, {team}) && Without(t.seats, t'.seats, SeatsOf(t.seats, team))
  }

  ghost predicate NewSeatLeaves(t: Tables, t': Tables, team: Id, target: Id)
  {
    && t' == t.(seats := t'.seats, next := t'.next)
    && (HasSeat(t.seats, team, target) ==> t' == t)
    && (!HasSeat(t.seats, team, target) ==> Added(t.seats, t'.seats, Seat(team, target)))
  }

  /** All seats of the user in the team are gone. */
  ghost predicate DropSeatLeaves(t: Tables, t': Tables, seat: Id, team: Id, target: Id)
  {
    && t' == t.(seats := t'.seats)
    && exists named :: NamesSeat(t, seat, team, target, named)
         && Without(t.seats, t'.seats, set id | id in t.seats && t.seats[id] == named)
  }

  ghost predicate TeamLeaves(t: Tables, t': Tables, a: TeamAction)
  {
    match a
    case DoCreateTeam(_, org, _) => NewTeamLeaves(t, t', org)
    case DoRemoveTeam(_, _, team, _) => DropTeamLeaves(t, t', team)
    case DoAddTeamMember(_, _, team, target) => NewSeatLeaves(t, t', team, target)
    case DoRemoveTeamMember(_, _, seat, team, target) => DropSeatLeaves(t, t', seat, team, target)
  }

  lemma SeatDroppingLeaves(cfg: Config, env: Env, t: Tables, user: Id, org: Id, seat: Id, team: Id, target: Id)
    requires RemoveTeamMember(cfg, env, t, user, org, seat, team, target).1.Done?
    ensures DropSeatLeaves(t, RemoveTeamMember(cfg, env, t, user, org, seat, team, target).0, seat, team, target)
  {
    var t', named := RemoveTeamMember(cfg, env, t, user, org, seat, team, target).0, NamedSeat(t, org, seat, team, target);
    assert NamesSeat(t, seat, team, target, named);
    assert Without(t.seats, t'.seats, set id | id in t.seats && t.seats[id] == named);
  }

  lemma TeamRequestLeaves(cfg: Config, env: Env, t: Tables, a: TeamAction)
    requires IdsAhead(cfg, t) && DoTeam(cfg, env, t, a).1.Done?
    ensures TeamLeaves(t, DoTeam(cfg, env, t, a).0, a)
  {
    match a
    case DoCreateTeam(user, org, name) =>
      assert cfg.gen(t.next) !in t.teams;
    case DoRemoveTeam(user, org, team, active) =>
    case DoAddTeamMember(user, org, team, target) =>
      assert cfg.gen(t.next) !in t.seats;
    case DoRemoveTeamMember(user, org, seat, team, target) => SeatDroppingLeaves(cfg, env, t, user, org, seat, team, target);
  }

  // -------------------------------------------------------------- dynamic roles

  ghost predicate NewRoleLeaves(cfg: Config, t: Tables, t': Tables, org: Id, role: string, permission: Statements)
  {
    && t' == t.(roles := t'.roles, next := t'.next)
    && Added(t.roles, t'.roles, Role(org, cfg.lower(TrimSpace(role)), permission))
  }

  /** Name and permissions change as far as they are given. */
  ghost predicate ChangeRoleLeaves(cfg: Config, t: Tables, t': Tables, org: Id, id: Id, name: string, newName: string, permission: Statements)
  {
    exists r :: NamesRole(cfg, t, org, id, name, r) && t'.roles.Keys == t.roles.Keys
      && t' == t.(roles := t.roles[r := t'.roles[r]]) && t'.roles[r].org == org
      && t'.roles[r].name == (if newName == "" then t.roles[r].name else cfg.lower(TrimSpace(newName)))
      && t'.roles[r].permission == (if permission == map[] then t.roles[r].permission else permission)
  }

  ghost predicate DropRoleLeaves(cfg: Config, t: Tables, t': Tables, org: Id, id: Id, name: string)
  {
    exists r :: NamesRole(cfg, t, org, id, name, r) && t' == t.(roles := t.roles - {r})
  }

  ghost predicate RoleLeaves(cfg: Config, t: Tables, t': Tables, a: RoleAction)
  {
    match a
    case DoCreateRole(_, org, role, permission) => NewRoleLeaves(cfg, t, t', org, role, permission)
    case DoChangeRole(_, org, id, name, newName, permission) => ChangeRoleLeaves(cfg, t, t', org, id, name, newName, permission)
    case DoDeleteRole(_, org, id, name) => DropRoleLeaves(cfg, t, t', org, id, name)
  }

  lemma ChangingRoleLeaves(cfg: Config, t: Tables, user: Id, org: Id, id: Id, name: string, newName: string, permission: Statements)
    requires DistinctNames(t.roles) && ChangeRole(cfg, t, user, org, id, name, newName, permission).1.Done?
    ensures ChangeRoleLeaves(cfg, t, ChangeRole(cfg, t, user, org, id, name, newName, permission).0, org, id, name, newName, permission)
  {
    RequestedIsNamed(cfg, t, org, id, name);
  }

  lemma DroppingRoleLeaves(cfg: Config, t: Tables, user: Id, org: Id, id: Id, name: string)
    requires DistinctNames(t.roles) && DeleteRole(cfg, t, user, org, id, name).1.Done?
    ensures DropRoleLeaves(cfg, t, DeleteRole(cfg, t, user, org, id, name).0, org, id, name)
  {
    RequestedIsNamed(cfg, t, org, id, name);
  }

  lemma RoleRequestLeaves(cfg: Config, t: Tables, a: RoleAction)
    requires IdsAhead(cfg, t) && DistinctNames(t.roles) && DoRole(cfg, t, a).1.Done?
    ensures RoleLeaves(cfg, t, DoRole(cfg, t, a).0, a)
  {
    match a
    case DoCreateRole(user, org, role, permission) =>
      assert cfg.gen(t.next) !in t.roles;
    case DoChangeRole(user, org, id, name, newName, permission) => ChangingRoleLeaves(cfg, t, user, org, id, name, newName, permission);
    case DoDeleteRole(user, org, id, name) => DroppingRoleLeaves(cfg, t, user, org, id, name);
  }

  // -------------------------------------------------------------- every request

  ghost predicate Leaves(cfg: Config, t: Tables, t': Tables, s: Step)
  {
    match s.action
    case OnOrg(a) => OrgLeaves(cfg, t, t', a)
    case OnInvitation(a) => InvitationLeaves(cfg, t, t', a, s.now)
    case OnMember(a) => MemberLeaves(cfg, s.env, t, t', a)
    case OnTeam(a) => TeamLeaves(t, t', a)
    case OnRole(a) => RoleLeaves(cfg, t, t', a)
  }

  /** In every state that a run can reach, a request that succeeds leaves just this. */
  lemma RequestLeaves(cfg: Config, t: Tables, s: Step)
    requires cfg.FreshIds() && IdsAhead(cfg, t) && Unambiguous(cfg, t, s.now) && Do(cfg, t, s).1.Done?
    ensures Leaves(cfg, t, Do(cfg, t, s).0, s)
  {
    match s.action
    case OnOrg(a) => OrgRequestLeaves(cfg, t, a);
    case OnInvitation(a) => InvitationRequestLeaves(cfg, s.env, t, a, s.now);
    case OnMember(a) => MemberRequestLeaves(cfg, s.env, t, a);
    case OnTeam(a) => TeamRequestLeaves(cfg, s.env, t, a);
    case OnRole(a) => RoleRequestLeaves(cfg, t, a);
  }

  /** After every run from the empty tables: a request succeeds exactly with the permission
      and all else in order, and then leaves just what it is for. */
  lemma EveryRequest(cfg: Config, run: seq<Step>, start: int, s: Step)
    requires Sound(cfg) && InOrder(run, start) && start <= s.now && (run != [] ==> run[|run| - 1].now <= s.now)
    ensures var t := After(cfg, Empty(), run);
            && Answers(cfg, t, NeedOf(t, s.action), Proper(cfg, t, s), Do(cfg, t, s).1)
            && (Do(cfg, t, s).1.Done? ==> Leaves(cfg, t, Do(cfg, t, s).0, s))
  {
    var t := After(cfg, Empty(), run);
    EmptyOk(cfg, start);
    RunKeeps(cfg, Empty(), start, run, s.now);
    ReachableIsUnambiguous(cfg, t, s.now);
    RequestAnswers(cfg, t, s);
    if Do(cfg, t, s).1.Done? {
      RequestLeaves(cfg, t, s);
    }
  }

}
