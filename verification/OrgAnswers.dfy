/** Which requests of the organization plugin succeed: exactly those that have the
    permission and are otherwise in order, said of the rows of the tables. */
module OrgAnswers {
  import opened Common
  import opened Strings
  import opened RoleCodec
  import opened Access
  import opened OrgTables
  import opened OrgHandlers
  import opened OrgStore
  import opened OrgSlugs
  import opened OrgInvitations
  import opened OrgTeams
  import opened OrgRuns
  import opened OrgCreators
  import opened OrgPermissions

  /** No lookup has two answers, as in every state that a run can reach. */
  ghost predicate Unambiguous(cfg: Config, t: Tables, now: int)
  {
    OneRowEach(t.members) && DistinctNames(t.roles) && NoRivals(cfg, t.invitations, now) && DistinctSlugs(t.orgs)
  }

  lemma ReachableIsUnambiguous(cfg: Config, t: Tables, now: int)
    requires TablesOk(cfg, t, now)
    ensures Unambiguous(cfg, t, now)
  {
  }

  /** The reply is a success exactly with the permission and all else in order. A member
      whose request lacks only the permission is told that it is forbidden, and a stranger
      what strangers are told. */
  ghost predicate Answers(cfg: Config, t: Tables, need: Need, proper: bool, reply: Reply)
  {
    && (reply.Done? <==> Met(cfg, t, need) && proper)
    && (proper && !Met(cfg, t, need) ==>
          reply == Refused(if Belongs(t, need.org, need.user) then Forbidden else need.stranger))
  }

  ghost predicate Belongs(t: Tables, org: Id, user: Id)
  {
    exists m :: IsMember(t.members, m, org, user)
  }

  /** The team has room for the user, or for anybody who is still to come (the empty id). */
  ghost predicate RoomIn(cfg: Config, t: Tables, team: Id, user: Id)
  {
    cfg.SeatLimit() <= 0 || (user != "" && HasSeat(t.seats, team, user)) || |SeatsOf(t.seats, team)| < cfg.SeatLimit()
  }

  /** The role exists, as a static one or as one that the organization has defined. */
  ghost predicate Known(cfg: Config, t: Tables, org: Id, name: string)
  {
    name in cfg.staticRoles || (cfg.dynamicRoles && exists r :: IsRole(t.roles, r, org, name))
  }

  ghost predicate AllKnown(cfg: Config, t: Tables, org: Id, names: seq<string>)
  {
    forall name :: name in names ==> Known(cfg, t, org, name)
  }

  /** Another member of the organization holds the creator role. */
  ghost predicate AnotherCreator(cfg: Config, t: Tables, org: Id, m: Id)
  {
    exists other :: other != m && other in t.members && t.members[other].org == org && IsCreator(cfg, t.members[other])
  }

  // -------------------------------------------------------------- roles in requests

  /** The requested names are those of the role value that a handler makes of them. */
  lemma AskedNames(cfg: Config, t: Tables, org: Id, roles: seq<string>)
    requires AllPieces(roles) != []
    ensures Pieces(ParseRole(roles).value) == AllPieces(roles)
    ensures RoleExists(cfg, t.roles, org, ParseRole(roles).value) <==> AllKnown(cfg, t, org, AllPieces(roles))
    ensures HasRole(ParseRole(roles).value, cfg.CreatorRole()) <==> cfg.CreatorRole() in AllPieces(roles)
  {
    AllPiecesAreClean(roles);
    PiecesOfJoin(AllPieces(roles));
    HasRoleIsAPiece(ParseRole(roles).value, cfg.CreatorRole());
  }

  lemma CallerIsCreator(cfg: Config, t: Tables, org: Id, user: Id)
    requires OneRowEach(t.members) && Belongs(t, org, user)
    ensures FindMember(t.members, org, user).Some?
    ensures IsCreator(cfg, t.members[FindMember(t.members, org, user).value]) <==> HoldsCreator(cfg, t, org, user)
  {
    var m := FindMember(t.members, org, user).value;
    assert IsMember(t.members, m, org, user);
  }

  lemma LastCreator(cfg: Config, t: Tables, org: Id, m: Id)
    requires m in t.members && t.members[m].org == org && IsCreator(cfg, t.members[m])
    ensures |CreatorsOf(cfg, t.members, org)| <= 1 <==> !AnotherCreator(cfg, t, org, m)
  {
    var creators := CreatorsOf(cfg, t.members, org);
    if AnotherCreator(cfg, t, org, m) {
      var other :| other != m && other in t.members && t.members[other].org == org && IsCreator(cfg, t.members[other]);
      SubsetSize({m, other}, creators);
    } else {
      assert creators == {m};
    }
  }

  lemma GrantedBelongs(cfg: Config, t: Tables, org: Id, user: Id, resource: string, action: string)
    ensures Granted(cfg, t, org, user, resource, action) ==> Belongs(t, org, user)
    ensures HoldsCreator(cfg, t, org, user) ==> Belongs(t, org, user)
  {
  }

  // -------------------------------------------------------------- organizations

  ghost predicate CreateProper(cfg: Config, t: Tables, user: Id, name: string, slug: string)
  {
    && name != "" && slug != "" && cfg.allowCreate
    && (cfg.organizationLimit <= 0 || |MembershipsOf(t.members, user)| < cfg.organizationLimit)
    && SlugOk(cfg.lower(slug)) && forall o :: o in t.orgs ==> t.orgs[o] != cfg.lower(slug)
  }

  /** A slug is given and well formed, or not given; no other organization may have it,
      nor may two be without one. */
  ghost predicate UpdateProper(cfg: Config, t: Tables, org: Id, slug: string)
  {
    && org != "" && org in t.orgs
    && (slug != "" ==> SlugOk(cfg.lower(slug)) && forall o :: o in t.orgs && o != org ==> t.orgs[o] != cfg.lower(slug))
    && (slug == "" && !cfg.keepsSlug ==> forall o :: o in t.orgs && o != org ==> t.orgs[o] != "")
  }

  predicate DeleteProper(cfg: Config, t: Tables, org: Id)
  {
    !cfg.deletionDisabled && org != "" && org in t.orgs
  }

  ghost predicate OrgProper(cfg: Config, t: Tables, a: OrgAction)
  {
    match a
    case DoCreate(user, name, slug) => CreateProper(cfg, t, user, name, slug)
    case DoUpdate(_, org, slug) => UpdateProper(cfg, t, org, slug)
    case DoDelete(_, org) => DeleteProper(cfg, t, org)
  }

  lemma UpdateAnswers(cfg: Config, t: Tables, user: Id, org: Id, slug: string)
    requires OneRowEach(t.members) && DistinctNames(t.roles) && DistinctSlugs(t.orgs)
    ensures Answers(cfg, t, Needs(org, user, "organization", "update", false, OrgNotFound), UpdateProper(cfg, t, org, slug),
                    Update(cfg, t, user, org, slug).1)
  {
    MayDoIsGranted(cfg, t, org, user, "organization", "update");
  }

  lemma DeleteAnswers(cfg: Config, t: Tables, user: Id, org: Id)
    requires OneRowEach(t.members) && DistinctNames(t.roles)
    ensures Answers(cfg, t, Needs(org, user, "organization", "delete", false, OrgNotFound), DeleteProper(cfg, t, org),
                    Delete(cfg, t, user, org).1)
  {
    MayDoIsGranted(cfg, t, org, user, "organization", "delete");
  }

  lemma OrgRequestAnswers(cfg: Config, t: Tables, a: OrgAction)
    requires OneRowEach(t.members) && DistinctNames(t.roles) && DistinctSlugs(t.orgs)
    ensures Answers(cfg, t, OrgNeed(a), OrgProper(cfg, t, a), DoOrg(cfg, t, a).1)
  {
    match a
    case DoCreate(user, name, slug) =>
    case DoUpdate(user, org, slug) => UpdateAnswers(cfg, t, user, org, slug);
    case DoDelete(user, org) => DeleteAnswers(cfg, t, user, org);
  }

  // -------------------------------------------------------------- invitations

  /** The teams that a request names, or an invitation does, are the organization's and
      have room. */
  ghost predicate TeamsReady(cfg: Config, t: Tables, org: Id, teams: seq<Id>, user: Id)
  {
    forall team :: team in teams ==> cfg.teamsEnabled && TeamOf(t, team, org) && RoomIn(cfg, t, team, user)
  }

  /** No id has a comma, and the trimmed ids that are not empty are ready. */
  ghost predicate AskedTeamsReady(cfg: Config, t: Tables, org: Id, values: seq<string>)
  {
    forall v :: v in values ==>
      && ',' !in TrimSpace(v)
      && (TrimSpace(v) != "" ==> cfg.teamsEnabled && TeamOf(t, TrimSpace(v), org) && RoomIn(cfg, t, TrimSpace(v), ""))
  }

  ghost predicate Invited(cfg: Config, t: Tables, org: Id, email: string, now: int)
  {
    exists id :: IsLive(cfg, t.invitations, id, org, email, now)
  }

  /** What an invitation needs besides room for it. */
  ghost predicate InvitableNames(cfg: Config, env: Env, t: Tables, user: Id, r: InviteRequest)
  {
    var email := cfg.lower(TrimSpace(r.email));
    && r.org != "" && r.org in t.orgs && AllPieces(r.roles) != [] && cfg.validEmail(email)
    && AllKnown(cfg, t, r.org, AllPieces(r.roles))
    && (cfg.CreatorRole() in AllPieces(r.roles) ==> HoldsCreator(cfg, t, r.org, user))
    && (email in env.byEmail ==> !Belongs(t, r.org, env.byEmail[email]))
  }

  /** There is room for a new invitation once the earlier one, if any, is cancelled. */
  ghost predicate RoomForInvitation(cfg: Config, t: Tables, r: InviteRequest, again: bool, now: int)
  {
    && |LiveOf(t.invitations, r.org, now)| - (if again then 1 else 0) < cfg.InvitationLimit()
    && AskedTeamsReady(cfg, t, r.org, r.teams)
  }

  ghost predicate InviteProper(cfg: Config, env: Env, t: Tables, user: Id, r: InviteRequest, now: int)
  {
    var again := Invited(cfg, t, r.org, cfg.lower(TrimSpace(r.email)), now);
    && InvitableNames(cfg, env, t, user, r)
    && if again then r.resend || (cfg.cancelOnReInvite && RoomForInvitation(cfg, t, r, true, now))
       else RoomForInvitation(cfg, t, r, false, now)
  }

  /** The invitation is pending and in time, and it is the caller's. */
  ghost predicate Addressed(cfg: Config, t: Tables, caller: Caller, id: Id, now: int)
  {
    && id != "" && id in t.invitations
    && t.invitations[id].status == Pending && now < t.invitations[id].expiresAt
    && cfg.lower(t.invitations[id].email) == cfg.lower(caller.email)
    && (cfg.requireVerifiedEmail ==> caller.verified)
    && t.invitations[id].org in t.orgs
  }

  ghost predicate Acceptable(cfg: Config, t: Tables, caller: Caller, id: Id, now: int)
  {
    && Addressed(cfg, t, caller, id, now)
    && !Belongs(t, t.invitations[id].org, caller.user)
    && |MembersOf(t.members, t.invitations[id].org)| < cfg.MembershipLimit()
    && TeamsReady(cfg, t, t.invitations[id].org, Pieces(t.invitations[id].teamIds), caller.user)
  }

  /** All writes of the acceptance succeed. */
  ghost predicate WritesSucceed(t: Tables, id: Id, user: Id, fault: Fault)
  {
    !fault.MemberWrite? && (fault.SeatWrite? ==> fault.n >= |VacantTeamsOf(t, id, user)|)
  }

  ghost predicate InvitationProper(cfg: Config, env: Env, t: Tables, a: InvitationAction, now: int)
  {
    match a
    case DoInvite(user, r) => InviteProper(cfg, env, t, user, r, now)
    case DoAccept(caller, id, fault) => Acceptable(cfg, t, caller, id, now) && WritesSucceed(t, id, caller.user, fault)
    case DoReject(caller, id) => Addressed(cfg, t, caller, id, now)
    case DoCancel(user, id) => id != "" && id in t.invitations && t.invitations[id].org in t.orgs
  }

  lemma CheckInviteAnswers(cfg: Config, env: Env, t: Tables, user: Id, r: InviteRequest)
    requires OneRowEach(t.members) && DistinctNames(t.roles)
    ensures Answers(cfg, t, Needs(r.org, user, "invitation", "create", false, Forbidden), InvitableNames(cfg, env, t, user, r),
                    CheckInvite(cfg, env, t, user, r))
  {
    MayDoIsGranted(cfg, t, r.org, user, "invitation", "create");
    GrantedBelongs(cfg, t, r.org, user, "invitation", "create");
    if AllPieces(r.roles) != [] {
      AskedNames(cfg, t, r.org, r.roles);
    }
    if Belongs(t, r.org, user) {
      CallerIsCreator(cfg, t, r.org, user);
    }
  }

  lemma TeamsAnswer(cfg: Config, t: Tables, org: Id, teams: seq<Id>, user: Id)
    ensures TeamsReady(cfg, t, org, teams, user) <==>
              (teams != [] ==> cfg.teamsEnabled) && TeamsBelong(t.teams, org, teams) && !AnyTeamFull(cfg, t.seats, teams, user)
  {
    assert teams != [] ==> teams[0] in teams;
    assert forall team :: TeamFull(cfg, t.seats, team, user) <==> !RoomIn(cfg, t, team, user);
  }

  lemma AskedTeamsAnswer(cfg: Config, t: Tables, org: Id, values: seq<string>)
    ensures AskedTeamsReady(cfg, t, org, values) <==>
              ParseTeams(values).Teams? && TeamsReady(cfg, t, org, ParseTeams(values).ids, "")
  {
    if ParseTeams(values).Teams? {
      TeamIdsRoundTrip(values);
      var ids := ParseTeams(values).ids;
      assert forall v :: v in values && TrimSpace(v) != "" ==> TrimSpace(v) in ids;
      if AskedTeamsReady(cfg, t, org, values) {
        forall team | team in ids ensures cfg.teamsEnabled && TeamOf(t, team, org) && RoomIn(cfg, t, team, "") {
          var v :| v in values && TrimSpace(v) == team;
        }
      }
    }
  }

  lemma NewInvitationAnswers(cfg: Config, t: Tables, rows: Invitations, r: InviteRequest, now: int)
    ensures CheckNewInvitation(cfg, t, rows, r, now).Done? <==>
              |LiveOf(rows, r.org, now)| < cfg.InvitationLimit() && AskedTeamsReady(cfg, t, r.org, r.teams)
  {
    AskedTeamsAnswer(cfg, t, r.org, r.teams);
    if ParseTeams(r.teams).Teams? {
      TeamsAnswer(cfg, t, r.org, ParseTeams(r.teams).ids, "");
    }
  }

  lemma OneLiveLess(t: Tables, id: Id, org: Id, now: int)
    requires id in t.invitations && t.invitations[id].org == org && Live(t.invitations[id], now)
    ensures |LiveOf(WithStatus(t.invitations, id, Canceled), org, now)| == |LiveOf(t.invitations, org, now)| - 1
  {
    assert LiveOf(WithStatus(t.invitations, id, Canceled), org, now) == LiveOf(t.invitations, org, now) - {id};
  }

  lemma InviteAnswers(cfg: Config, env: Env, t: Tables, user: Id, r: InviteRequest, now: int)
    requires OneRowEach(t.members) && DistinctNames(t.roles)
    ensures Answers(cfg, t, Needs(r.org, user, "invitation", "create", false, Forbidden), InviteProper(cfg, env, t, user, r, now),
                    Invite(cfg, env, t, user, r, now).1)
  {
    CheckInviteAnswers(cfg, env, t, user, r);
    if CheckInvite(cfg, env, t, user, r).Done? {
      var earlier := FindLive(cfg, t.invitations, r.org, cfg.lower(TrimSpace(r.email)), now);
      if earlier.None? {
        NewInvitationAnswers(cfg, t, t.invitations, r, now);
      } else {
        OneLiveLess(t, earlier.value, r.org, now);
        NewInvitationAnswers(cfg, t, WithStatus(t.invitations, earlier.value, Canceled), r, now);
      }
    }
  }

  lemma CheckAcceptAnswers(cfg: Config, t: Tables, caller: Caller, id: Id, now: int)
    ensures CheckAccept(cfg, t, caller, id, now).Done? <==> Acceptable(cfg, t, caller, id, now)
  {
    if id in t.invitations {
      TeamsAnswer(cfg, t, t.invitations[id].org, Pieces(t.invitations[id].teamIds), caller.user);
    }
  }

  lemma AcceptAnswers(cfg: Config, t: Tables, caller: Caller, id: Id, fault: Fault, now: int)
    requires cfg.FreshIds() && Free(cfg, t.seats, t.next)
    ensures Accept(cfg, t, caller, id, fault, now).1.Done? <==>
              Acceptable(cfg, t, caller, id, now) && WritesSucceed(t, id, caller.user, fault)
  {
    CheckAcceptAnswers(cfg, t, caller, id, now);
    RefusedAcceptMayLeaveSeats(cfg, t, caller, id, fault, now, "");
  }

  lemma CancelAnswers(cfg: Config, t: Tables, user: Id, id: Id)
    requires OneRowEach(t.members) && DistinctNames(t.roles)
    ensures Answers(cfg, t, Needs(InvitedTo(t, id), user, "invitation", "cancel", false, OrgNotFound),
                    id != "" && id in t.invitations && t.invitations[id].org in t.orgs, Cancel(cfg, t, user, id).1)
  {
    MayDoIsGranted(cfg, t, InvitedTo(t, id), user, "invitation", "cancel");
  }

  lemma InvitationRequestAnswers(cfg: Config, env: Env, t: Tables, a: InvitationAction, now: int)
    requires cfg.FreshIds() && Free(cfg, t.seats, t.next) && OneRowEach(t.members) && DistinctNames(t.roles)
    ensures Answers(cfg, t, InvitationNeed(t, a), InvitationProper(cfg, env, t, a, now), DoInvitation(cfg, env, t, a, now).1)
  {
    match a
    case DoInvite(user, r) => InviteAnswers(cfg, env, t, user, r, now);
    case DoAccept(caller, id, fault) => AcceptAnswers(cfg, t, caller, id, fault, now);
    case DoReject(caller, id) =>
    case DoCancel(user, id) => CancelAnswers(cfg, t, user, id);
  }

  // -------------------------------------------------------------- members

  ghost predicate AddProper(cfg: Config, env: Env, t: Tables, user: Id, roles: seq<string>, org: Id, team: Id)
  {
    && user != "" && user in env.users && AllPieces(roles) != [] && org != "" && org in t.orgs
    && !Belongs(t, org, user) && |MembersOf(t.members, org)| < cfg.MembershipLimit()
    && (team != "" ==> cfg.teamsEnabled && TeamOf(t, team, org) && RoomIn(cfg, t, team, user))
  }

  /** The member of the organization that the key names: by e-mail if it looks like one,
      else by the id of the row. */
  predicate Named(cfg: Config, env: Env, t: Tables, org: Id, key: string, m: Id)
  {
    && key != "" && m in t.members && t.members[m].org == org
    && if '@' in key then
         cfg.lower(TrimSpace(key)) in env.byEmail && t.members[m].user == env.byEmail[cfg.lower(TrimSpace(key))]
       else m == key
  }

  /** Only a creator may remove a creator, and nobody the last one. */
  ghost predicate Removable(cfg: Config, env: Env, t: Tables, user: Id, org: Id, m: Id)
    requires m in t.members
  {
    && t.members[m].user in env.users
    && (IsCreator(cfg, t.members[m]) ==> HoldsCreator(cfg, t, org, user) && AnotherCreator(cfg, t, org, m))
  }

  ghost predicate RemoveProper(cfg: Config, env: Env, t: Tables, user: Id, org: Id, key: string)
  {
    && org != "" && org in t.orgs
    && exists m :: Named(cfg, env, t, org, key, m) && Removable(cfg, env, t, user, org, m)
  }

  /** Only a creator may give or take the creator role, and the last one may not drop it. */
  ghost predicate RecastProper(cfg: Config, env: Env, t: Tables, user: Id, org: Id, id: Id, roles: seq<string>)
  {
    && org != "" && org in t.orgs && id != "" && id in t.members && t.members[id].org == org
    && t.members[id].user in env.users && AllPieces(roles) != [] && AllKnown(cfg, t, org, AllPieces(roles))
    && (IsCreator(cfg, t.members[id]) || cfg.CreatorRole() in AllPieces(roles) ==> HoldsCreator(cfg, t, org, user))
    && (t.members[id].user == user && IsCreator(cfg, t.members[id]) && cfg.CreatorRole() !in AllPieces(roles) ==>
          AnotherCreator(cfg, t, org, id))
  }

  ghost predicate LeaveProper(cfg: Config, t: Tables, user: Id, org: Id)
  {
    && org != ""
    && exists m :: IsMember(t.members, m, org, user) && (IsCreator(cfg, t.members[m]) ==> AnotherCreator(cfg, t, org, m))
  }

  ghost predicate MemberProper(cfg: Config, env: Env, t: Tables, a: MemberAction)
  {
    match a
    case DoAddMember(user, roles, org, team) => AddProper(cfg, env, t, user, roles, org, team)
    case DoRemoveMember(user, org, key) => RemoveProper(cfg, env, t, user, org, key)
    case DoUpdateRole(user, org, id, roles) => RecastProper(cfg, env, t, user, org, id, roles)
    case DoLeave(user, org) => LeaveProper(cfg, t, user, org)
  }

  /** The lookup by key finds the named member. */
  lemma FoundIsNamed(cfg: Config, env: Env, t: Tables, org: Id, key: string)
    requires OneRowEach(t.members)
    ensures forall m :: Named(cfg, env, t, org, key, m) <==> FindRemovable(cfg, env, t.members, org, key) == Hit(m)
  {
    if '@' in key && cfg.lower(TrimSpace(key)) in env.byEmail {
      var user := env.byEmail[cfg.lower(TrimSpace(key))];
      forall m ensures Named(cfg, env, t, org, key, m) <==> IsMember(t.members, m, org, user) {
      }
    }
  }

  lemma RemoveMemberAnswers(cfg: Config, env: Env, t: Tables, user: Id, org: Id, key: string)
    requires OneRowEach(t.members) && DistinctNames(t.roles)
    ensures Answers(cfg, t, Needs(org, user, "member", "delete", false, OrgNotFound), RemoveProper(cfg, env, t, user, org, key),
                    RemoveMember(cfg, env, t, user, org, key).1)
  {
    MayDoIsGranted(cfg, t, org, user, "member", "delete");
    GrantedBelongs(cfg, t, org, user, "member", "delete");
    FoundIsNamed(cfg, env, t, org, key);
    if Belongs(t, org, user) {
      CallerIsCreator(cfg, t, org, user);
      var found := FindRemovable(cfg, env, t.members, org, key);
      if found.Hit? && IsCreator(cfg, t.members[found.id]) {
        LastCreator(cfg, t, org, found.id);
      }
    }
  }

  lemma UpdateRoleAnswers(cfg: Config, env: Env, t: Tables, user: Id, org: Id, id: Id, roles: seq<string>)
    requires OneRowEach(t.members) && DistinctNames(t.roles)
    ensures Answers(cfg, t, Needs(org, user, "member", "update", true, OrgNotFound), RecastProper(cfg, env, t, user, org, id, roles),
                    UpdateRole(cfg, env, t, user, org, id, roles).1)
  {
    GrantedBelongs(cfg, t, org, user, "member", "update");
    if AllPieces(roles) != [] && Belongs(t, org, user) && id in t.members && t.members[id].org == org {
      MayDoIsGranted(cfg, t, org, user, "member", "update");
      AskedNames(cfg, t, org, roles);
      CallerIsCreator(cfg, t, org, user);
      if IsCreator(cfg, t.members[id]) {
        LastCreator(cfg, t, org, id);
      }
      assert IsMember(t.members, id, org, user) <==> t.members[id].user == user;
    }
  }

  lemma LeaveAnswers(cfg: Config, t: Tables, user: Id, org: Id)
    requires OneRowEach(t.members)
    ensures Leave(cfg, t, user, org).1.Done? <==> LeaveProper(cfg, t, user, org)
  {
    var m := FindMember(t.members, org, user);
    if m.Some? && IsCreator(cfg, t.members[m.value]) {
      LastCreator(cfg, t, org, m.value);
    }
  }

  lemma MemberRequestAnswers(cfg: Config, env: Env, t: Tables, a: MemberAction)
    requires OneRowEach(t.members) && DistinctNames(t.roles)
    ensures Answers(cfg, t, MemberNeed(a), MemberProper(cfg, env, t, a), DoMember(cfg, env, t, a).1)
  {
    match a
    case DoAddMember(user, roles, org, team) =>
    case DoRemoveMember(user, org, key) => RemoveMemberAnswers(cfg, env, t, user, org, key);
    case DoUpdateRole(user, org, id, roles) => UpdateRoleAnswers(cfg, env, t, user, org, id, roles);
    case DoLeave(user, org) => LeaveAnswers(cfg, t, user, org);
  }

  // -------------------------------------------------------------- teams

  ghost predicate NewTeamProper(cfg: Config, t: Tables, org: Id, name: string)
  {
    && name != "" && org != "" && org in t.orgs
    && (cfg.MaximumTeams() <= 0 || |TeamsOf(t.teams, org)| < cfg.MaximumTeams())
  }

  /** The caller does not have the team selected, and it is not the last one. */
  ghost predicate DropTeamProper(cfg: Config, t: Tables, org: Id, team: Id, active: Option<Id>)
  {
    && org != "" && org in t.orgs && team != "" && TeamOf(t, team, org) && active != Some(team)
    && (cfg.AllowRemovingAllTeams() || exists other :: other != team && TeamOf(t, other, org))
  }

  ghost predicate NewSeatProper(cfg: Config, env: Env, t: Tables, org: Id, team: Id, target: Id)
  {
    && org != "" && org in t.orgs && team != "" && target != ""
    && Belongs(t, org, target) && target in env.users && TeamOf(t, team, org) && RoomIn(cfg, t, team, target)
  }

  /** The seat is named by team and user, or else by its own id. */
  predicate NamesSeat(t: Tables, seat: Id, team: Id, target: Id, named: Seat)
  {
    if team != "" && target != "" then named == Seat(team, target)
    else seat != "" && seat in t.seats && named == t.seats[seat]
  }

  ghost predicate Unseatable(env: Env, t: Tables, org: Id, named: Seat)
  {
    && named.team != "" && named.user != "" && TeamOf(t, named.team, org) && Belongs(t, org, named.user)
    && HasSeat(t.seats, named.team, named.user) && named.user in env.users
  }

  ghost predicate DropSeatProper(env: Env, t: Tables, org: Id, seat: Id, team: Id, target: Id)
  {
    && org != "" && org in t.orgs
    && exists named :: NamesSeat(t, seat, team, target, named) && Unseatable(env, t, org, named)
  }

  ghost predicate TeamProper(cfg: Config, env: Env, t: Tables, a: TeamAction)
  {
    match a
    case DoCreateTeam(_, org, name) => NewTeamProper(cfg, t, org, name)
    case DoRemoveTeam(_, org, team, active) => DropTeamProper(cfg, t, org, team, active)
    case DoAddTeamMember(_, org, team, target) => NewSeatProper(cfg, env, t, org, team, target)
    case DoRemoveTeamMember(_, org, seat, team, target) => DropSeatProper(env, t, org, seat, team, target)
  }

  lemma CreateTeamAnswers(cfg: Config, t: Tables, user: Id, org: Id, name: string)
    requires OneRowEach(t.members) && DistinctNames(t.roles)
    ensures Answers(cfg, t, Needs(org, user, "team", "create", false, Forbidden), NewTeamProper(cfg, t, org, name),
                    CreateTeam(cfg, t, user, org, name).1)
  {
    MayDoIsGranted(cfg, t, org, user, "team", "create");
  }

  lemma LastTeam(t: Tables, org: Id, team: Id)
    requires TeamOf(t, team, org)
    ensures |TeamsOf(t.teams, org)| <= 1 <==> !exists other :: other != team && TeamOf(t, other, org)
  {
    var teams := TeamsOf(t.teams, org);
    if other :| other != team && TeamOf(t, other, org) {
      SubsetSize({team, other}, teams);
    } else {
      assert forall other :: other in teams ==> TeamOf(t, other, org);
      assert teams == {team};
    }
  }

  lemma RemoveTeamAnswers(cfg: Config, t: Tables, user: Id, org: Id, team: Id, active: Option<Id>)
    requires OneRowEach(t.members) && DistinctNames(t.roles)
    ensures Answers(cfg, t, Needs(org, user, "team", "delete", false, Forbidden), DropTeamProper(cfg, t, org, team, active),
                    RemoveTeam(cfg, t, user, org, team, active).1)
  {
    MayDoIsGranted(cfg, t, org, user, "team", "delete");
    if TeamOf(t, team, org) {
      LastTeam(t, org, team);
    }
  }

  lemma AddTeamMemberAnswers(cfg: Config, env: Env, t: Tables, user: Id, org: Id, team: Id, target: Id)
    requires OneRowEach(t.members) && DistinctNames(t.roles)
    ensures Answers(cfg, t, Needs(org, user, "member", "update", false, Forbidden), NewSeatProper(cfg, env, t, org, team, target),
                    AddTeamMember(cfg, env, t, user, org, team, target).1)
  {
    MayDoIsGranted(cfg, t, org, user, "member", "update");
  }

  lemma RemoveTeamMemberAnswers(cfg: Config, env: Env, t: Tables, user: Id, org: Id, seat: Id, team: Id, target: Id)
    requires OneRowEach(t.members) && DistinctNames(t.roles)
    ensures Answers(cfg, t, Needs(org, user, "member", "delete", false, Forbidden), DropSeatProper(env, t, org, seat, team, target),
                    RemoveTeamMember(cfg, env, t, user, org, seat, team, target).1)
  {
    MayDoIsGranted(cfg, t, org, user, "member", "delete");
    var named := NamedSeat(t, org, seat, team, target);
    assert Unseatable(env, t, org, named) ==> NamesSeat(t, seat, team, target, named);
    forall other | NamesSeat(t, seat, team, target, other) && Unseatable(env, t, org, other) ensures other == named {
    }
  }

  lemma TeamRequestAnswers(cfg: Config, env: Env, t: Tables, a: TeamAction)
    requires OneRowEach(t.members) && DistinctNames(t.roles)
    ensures Answers(cfg, t, TeamNeed(a), TeamProper(cfg, env, t, a), DoTeam(cfg, env, t, a).1)
  {
    match a
    case DoCreateTeam(user, org, name) => CreateTeamAnswers(cfg, t, user, org, name);
    case DoRemoveTeam(user, org, team, active) => RemoveTeamAnswers(cfg, t, user, org, team, active);
    case DoAddTeamMember(user, org, team, target) => AddTeamMemberAnswers(cfg, env, t, user, org, team, target);
    case DoRemoveTeamMember(user, org, seat, team, target) => RemoveTeamMemberAnswers(cfg, env, t, user, org, seat, team, target);
  }

  // -------------------------------------------------------------- dynamic roles

  ghost predicate NewRoleProper(cfg: Config, t: Tables, org: Id, role: string, permission: Statements)
  {
    && role != "" && permission != map[] && org != "" && cfg.lower(TrimSpace(role)) !in cfg.staticRoles
    && (cfg.RoleLimit() <= 0 || |RolesOf(t.roles, org)| < cfg.RoleLimit())
    && forall r :: !IsRole(t.roles, r, org, cfg.lower(TrimSpace(role)))
  }

  /** The role of the organization that the request names, by id or else by name. */
  ghost predicate NamesRole(cfg: Config, t: Tables, org: Id, id: Id, name: string, r: Id)
  {
    if id != "" then r == id && r in t.roles && t.roles[r].org == org
    else name != "" && IsRole(t.roles, r, org, cfg.lower(TrimSpace(name)))
  }

  /** The new name, if any, is free. */
  ghost predicate Renameable(cfg: Config, t: Tables, org: Id, r: Id, newName: string)
  {
    newName != "" ==>
      && cfg.lower(TrimSpace(newName)) !in cfg.staticRoles
      && forall other :: other != r ==> !IsRole(t.roles, other, org, cfg.lower(TrimSpace(newName)))
  }

  ghost predicate ChangeRoleProper(cfg: Config, t: Tables, org: Id, id: Id, name: string, newName: string)
  {
    org != "" && exists r :: NamesRole(cfg, t, org, id, name, r) && Renameable(cfg, t, org, r, newName)
  }

  ghost predicate UnusedRole(t: Tables, org: Id, r: Id)
    requires r in t.roles
  {
    forall m :: m in t.members && t.members[m].org == org ==> !HasRole(t.members[m].role, t.roles[r].name)
  }

  ghost predicate DropRoleProper(cfg: Config, t: Tables, org: Id, id: Id, name: string)
  {
    && org != "" && (name != "" ==> cfg.lower(TrimSpace(name)) !in cfg.staticRoles)
    && exists r :: NamesRole(cfg, t, org, id, name, r) && UnusedRole(t, org, r)
  }

  ghost predicate RoleProper(cfg: Config, t: Tables, a: RoleAction)
  {
    match a
    case DoCreateRole(_, org, role, permission) => NewRoleProper(cfg, t, org, role, permission)
    case DoChangeRole(_, org, id, name, newName, _) => ChangeRoleProper(cfg, t, org, id, name, newName)
    case DoDeleteRole(_, org, id, name) => DropRoleProper(cfg, t, org, id, name)
  }

  lemma RequestedIsNamed(cfg: Config, t: Tables, org: Id, id: Id, name: string)
    requires DistinctNames(t.roles)
    ensures forall r :: NamesRole(cfg, t, org, id, name, r) <==> RequestedRole(cfg, t.roles, org, id, name) == Some(r)
  {
  }

  lemma CreateRoleAnswers(cfg: Config, t: Tables, user: Id, org: Id, role: string, permission: Statements)
    requires OneRowEach(t.members) && DistinctNames(t.roles)
    ensures Answers(cfg, t, Needs(org, user, "ac", "create", false, Forbidden), NewRoleProper(cfg, t, org, role, permission),
                    CreateRole(cfg, t, user, org, role, permission).1)
  {
    MayDoIsGranted(cfg, t, org, user, "ac", "create");
  }

  lemma ChangeRoleAnswers(cfg: Config, t: Tables, user: Id, org: Id, id: Id, name: string, newName: string, permission: Statements)
    requires OneRowEach(t.members) && DistinctNames(t.roles)
    ensures Answers(cfg, t, Needs(org, user, "ac", "update", false, Forbidden), ChangeRoleProper(cfg, t, org, id, name, newName),
                    ChangeRole(cfg, t, user, org, id, name, newName, permission).1)
  {
    MayDoIsGranted(cfg, t, org, user, "ac", "update");
    RequestedIsNamed(cfg, t, org, id, name);
    var found := RequestedRole(cfg, t.roles, org, id, name);
    if found.Some? {
      assert IsRole(t.roles, found.value, org, t.roles[found.value].name);
    }
  }

  lemma DeleteRoleAnswers(cfg: Config, t: Tables, user: Id, org: Id, id: Id, name: string)
    requires OneRowEach(t.members) && DistinctNames(t.roles)
    ensures Answers(cfg, t, Needs(org, user, "ac", "delete", false, Forbidden), DropRoleProper(cfg, t, org, id, name),
                    DeleteRole(cfg, t, user, org, id, name).1)
  {
    MayDoIsGranted(cfg, t, org, user, "ac", "delete");
    RequestedIsNamed(cfg, t, org, id, name);
  }

  lemma RoleRequestAnswers(cfg: Config, t: Tables, a: RoleAction)
    requires OneRowEach(t.members) && DistinctNames(t.roles)
    ensures Answers(cfg, t, RoleNeed(a), RoleProper(cfg, t, a), DoRole(cfg, t, a).1)
  {
    match a
    case DoCreateRole(user, org, role, permission) => CreateRoleAnswers(cfg, t, user, org, role, permission);
    case DoChangeRole(user, org, id, name, newName, permission) => ChangeRoleAnswers(cfg, t, user, org, id, name, newName, permission);
    case DoDeleteRole(user, org, id, name) => DeleteRoleAnswers(cfg, t, user, org, id, name);
  }

  // -------------------------------------------------------------- every request

  ghost predicate Proper(cfg: Config, t: Tables, s: Step)
  {
    match s.action
    case OnOrg(a) => OrgProper(cfg, t, a)
    case OnInvitation(a) => InvitationProper(cfg, s.env, t, a, s.now)
    case OnMember(a) => MemberProper(cfg, s.env, t, a)
    case OnTeam(a) => TeamProper(cfg, s.env, t, a)
    case OnRole(a) => RoleProper(cfg, t, a)
  }

  /** In every state that a run can reach, a request succeeds exactly if its caller has
      the permission and it is otherwise in order. */
  lemma RequestAnswers(cfg: Config, t: Tables, s: Step)
    requires cfg.FreshIds() && IdsAhead(cfg, t) && Unambiguous(cfg, t, s.now)
    ensures Answers(cfg, t, NeedOf(t, s.action), Proper(cfg, t, s), Do(cfg, t, s).1)
  {
    match s.action
    case OnOrg(a) => OrgRequestAnswers(cfg, t, a);
    case OnInvitation(a) => InvitationRequestAnswers(cfg, s.env, t, a, s.now);
    case OnMember(a) => MemberRequestAnswers(cfg, s.env, t, a);
    case OnTeam(a) => TeamRequestAnswers(cfg, s.env, t, a);
    case OnRole(a) => RoleRequestAnswers(cfg, t, a);
  }

}
