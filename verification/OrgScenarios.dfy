/** Short runs from the empty start that show where the limits of the theorems are:
    what a refused request can leave behind, how a team gets more rows than users, and
    what can still happen to an accepted invitation. */
module OrgScenarios {
  import opened Common
  import opened Strings
  import opened RoleCodec
  import opened Access
  import opened OrgTables
  import opened OrgHandlers
  import opened OrgStore
  import opened OrgTeams
  import opened OrgRuns
  import opened OrgPermissions
  import opened OrgAnswers

  function Nth(n: nat): (id: Id)
    ensures |id| == n + 1 && Clean(id)
  {
    seq(n + 1, i => 'x')
  }

  /** Defaults throughout, with teams, a default team, `seats` users per team, and the
      cancelling of earlier invitations. */
  function Sample(seats: int): Config
  {
    Config(Nth, s => s, s => true, true, "", 0, 0, 0, 0, true, false, false, RoleTable(map[]), false, 0,
           true, true, 0, seats, false, true)
  }

  lemma SampleIsSound(seats: int)
    ensures Sound(Sample(seats))
  {
  }

  function Everybody(): Env
  {
    Env({"ann", "bob"}, map["ann@x" := "ann", "bob@x" := "bob"])
  }

  lemma OneName(name: string)
    requires Clean(name)
    ensures Pieces(name) == [name] && AllPieces([name]) == [name] && ParseRole([name]) == Roles(name) && HasRole(name, name)
  {
    PiecesOfJoin([name]);
    NameNamesItself(name);
    assert [name][..0] == [];
  }

  // -------------------------------------------------------------- the first organization

  const ORG := Nth(0)
  const TEAM := Nth(2)

  function Foundation(): Step
  {
    Step(0, Everybody(), OnOrg(DoCreate("ann", "First", "first")))
  }

  /** Ann's organization with its default team. */
  function Start(): Tables
  {
    Tables(map[ORG := "first"], map[Nth(1) := Member(ORG, "ann", "owner")], map[],
           map[TEAM := ORG], map[Nth(3) := Seat(TEAM, "ann")], map[], 4)
  }

  lemma Founding(seats: int)
    ensures Do(Sample(seats), Empty(), Foundation()) == (Start(), Done)
  {
    assert CheckCreate(Sample(seats), Empty(), "ann", "First", "first").Done?;
    var t := Found(Sample(seats), Empty(), "ann", "first");
    assert t.orgs == Start().orgs && t.members == Start().members;
    assert t.teams == Start().teams && t.seats == Start().seats;
  }

  lemma OnlyMember(members: Members, id: Id, org: Id, user: Id, role: string, other: Id)
    requires members == map[id := Member(org, user, role)] && other != user
    ensures FindMember(members, org, user) == Some(id) && FindMember(members, org, other).None? && |MembersOf(members, org)| == 1
  {
    assert IsMember(members, id, org, user);
    assert MembersOf(members, org) == {id};
  }

  function Joined(cfg: Config, t: Tables, user: Id, role: string, org: Id, team: Id): Tables
  {
    var t' := t.(members := t.members[cfg.gen(t.next) := Member(org, user, role)], next := t.next + 1);
    if team == "" then t' else t'.(seats := t.seats[cfg.gen(t.next + 1) := Seat(team, user)], next := t.next + 2)
  }

  lemma Adds(cfg: Config, env: Env, t: Tables, user: Id, role: string, org: Id, team: Id)
    requires Clean(role) && user != "" && user in env.users && org != "" && org in t.orgs
    requires FindMember(t.members, org, user).None? && |MembersOf(t.members, org)| < cfg.MembershipLimit()
    requires team != "" ==> cfg.teamsEnabled && team in t.teams && t.teams[team] == org && !TeamFull(cfg, t.seats, team, user)
    ensures AddMember(cfg, env, t, user, [role], org, team) == (Joined(cfg, t, user, role, org, team), Done)
  {
    OneName(role);
    assert CheckAddMember(cfg, env, t, user, [role], org, team).Done?;
  }

  lemma DoMembers(cfg: Config, t: Tables, now: int, env: Env, a: MemberAction)
    ensures Do(cfg, t, Step(now, env, OnMember(a))) == DoMember(cfg, env, t, a)
  {
  }

  lemma DoInvites(cfg: Config, t: Tables, now: int, env: Env, a: InvitationAction)
    ensures Do(cfg, t, Step(now, env, OnInvitation(a))) == DoInvitation(cfg, env, t, a, now)
  {
  }

  lemma DoTeams(cfg: Config, t: Tables, now: int, env: Env, a: TeamAction)
    ensures Do(cfg, t, Step(now, env, OnTeam(a))) == DoTeam(cfg, env, t, a)
  {
  }

  lemma AfterTwo(cfg: Config, t: Tables, t1: Tables, a: Step, b: Step)
    requires Do(cfg, t, a).0 == t1
    ensures After(cfg, t, [a, b]) == Do(cfg, t1, b).0
  {
    AfterOneMore(cfg, t, [], a);
    AfterOneMore(cfg, t, [a], b);
    assert [a, b] == [a] + [b] && [a] == [] + [a];
  }

  lemma AfterThree(cfg: Config, t: Tables, t1: Tables, t2: Tables, a: Step, b: Step, c: Step)
    requires Do(cfg, t, a).0 == t1 && Do(cfg, t1, b).0 == t2
    ensures After(cfg, t, [a, b, c]) == Do(cfg, t2, c).0
  {
    AfterTwo(cfg, t, t1, a, b);
    AfterOneMore(cfg, t, [a, b], c);
    assert [a, b, c] == [a, b] + [c];
  }

  lemma AfterFour(cfg: Config, t: Tables, t1: Tables, t2: Tables, t3: Tables, a: Step, b: Step, c: Step, d: Step)
    requires Do(cfg, t, a).0 == t1 && Do(cfg, t1, b).0 == t2 && Do(cfg, t2, c).0 == t3
    ensures After(cfg, t, [a, b, c, d]) == Do(cfg, t3, d).0
  {
    AfterThree(cfg, t, t1, t2, a, b, c);
    AfterOneMore(cfg, t, [a, b, c], d);
    assert [a, b, c, d] == [a, b, c] + [d];
  }

  // -------------------------------------------------------------- more rows than users

  function BobIsAdded(): Step
  {
    Step(1, Everybody(), OnMember(DoAddMember("bob", ["owner"], ORG, "")))
  }

  function WithBob(): Tables
  {
    Start().(members := Start().members[Nth(4) := Member(ORG, "bob", "owner")], next := 5)
  }

  lemma BobJoins()
    ensures AddMember(Sample(1), Everybody(), Start(), "bob", ["owner"], ORG, "") == (WithBob(), Done)
  {
    OnlyMember(Start().members, Nth(1), ORG, "ann", "owner", "bob");
    Adds(Sample(1), Everybody(), Start(), "bob", "owner", ORG, "");
  }

  lemma AddBob()
    ensures Do(Sample(1), Start(), BobIsAdded()) == (WithBob(), Done)
  {
    DoMembers(Sample(1), Start(), 1, Everybody(), DoAddMember("bob", ["owner"], ORG, ""));
    BobJoins();
  }

  function AnnLeaves(): Step
  {
    Step(2, Everybody(), OnMember(DoLeave("ann", ORG)))
  }

  /** Ann keeps her seat. */
  function WithoutAnn(): Tables
  {
    WithBob().(members := map[Nth(4) := Member(ORG, "bob", "owner")])
  }

  lemma TwoCreators(cfg: Config, members: Members, org: Id, a: Id, user: Id, b: Id, other: Id)
    requires a != b && Clean(cfg.CreatorRole())
    requires members == map[a := Member(org, user, cfg.CreatorRole()), b := Member(org, other, cfg.CreatorRole())]
    ensures CreatorsOf(cfg, members, org) == {a, b}
  {
    OneName(cfg.CreatorRole());
    assert IsCreator(cfg, members[a]) && IsCreator(cfg, members[b]);
  }

  lemma FirstOfTwo(members: Members, org: Id, a: Id, user: Id, b: Id, other: Id, role: string)
    requires a != b && user != other && members == map[a := Member(org, user, role), b := Member(org, other, role)]
    ensures FindMember(members, org, user) == Some(a)
  {
    assert IsMember(members, a, org, user);
  }

  /** One of two creators leaves. */
  lemma Leaves(cfg: Config, t: Tables, org: Id, a: Id, user: Id, b: Id, other: Id)
    requires a != b && user != other && org != "" && Clean(cfg.CreatorRole())
    requires t.members == map[a := Member(org, user, cfg.CreatorRole()), b := Member(org, other, cfg.CreatorRole())]
    ensures Leave(cfg, t, user, org) == (t.(members := map[b := t.members[b]]), Done)
  {
    TwoCreators(cfg, t.members, org, a, user, b, other);
    FirstOfTwo(t.members, org, a, user, b, other, cfg.CreatorRole());
    assert |{a, b}| == 2;
    assert CheckLeave(cfg, t, user, org).Done?;
    assert t.members - {a} == map[b := t.members[b]];
  }

  lemma AnnMayLeave()
    ensures Leave(Sample(1), WithBob(), "ann", ORG) == (WithoutAnn(), Done)
  {
    Leaves(Sample(1), WithBob(), ORG, Nth(1), "ann", Nth(4), "bob");
  }

  lemma RemoveAnn()
    ensures Do(Sample(1), WithBob(), AnnLeaves()) == (WithoutAnn(), Done)
  {
    DoMembers(Sample(1), WithBob(), 2, Everybody(), DoLeave("ann", ORG));
    AnnMayLeave();
  }

  function AnnIsAdded(): Step
  {
    Step(3, Everybody(), OnMember(DoAddMember("ann", ["owner"], ORG, TEAM)))
  }

  function AnnTwice(): Seats
  {
    map[Nth(3) := Seat(TEAM, "ann"), Nth(6) := Seat(TEAM, "ann")]
  }

  lemma AnnJoinsAgain()
    ensures AddMember(Sample(1), Everybody(), WithoutAnn(), "ann", ["owner"], ORG, TEAM).0.seats == AnnTwice()
  {
    OnlyMember(WithoutAnn().members, Nth(4), ORG, "bob", "owner", "ann");
    assert IsSeat(WithoutAnn().seats, Nth(3), TEAM, "ann");
    Adds(Sample(1), Everybody(), WithoutAnn(), "ann", "owner", ORG, TEAM);
  }

  lemma AddAnn()
    ensures Do(Sample(1), WithoutAnn(), AnnIsAdded()).0.seats == AnnTwice()
  {
    DoMembers(Sample(1), WithoutAnn(), 3, Everybody(), DoAddMember("ann", ["owner"], ORG, TEAM));
    AnnJoinsAgain();
  }

  lemma TwoRows(seats: Seats, a: Id, b: Id, team: Id, user: Id)
    requires a != b && seats == map[a := Seat(team, user), b := Seat(team, user)]
    ensures |SeatsOf(seats, team)| == 2
  {
    assert SeatsOf(seats, team) == {a, b};
  }

  /** A team for one user ends up with two rows: Ann founds the organization and with it
      fills the team, leaves, and is added again. */
  lemma RowsCanExceedTheLimit()
    ensures Sound(Sample(1))
    ensures |SeatsOf(After(Sample(1), Empty(), [Foundation(), BobIsAdded(), AnnLeaves(), AnnIsAdded()]).seats, TEAM)| == 2
    ensures Sample(1).SeatLimit() == 1
  {
    SampleIsSound(1);
    Founding(1);
    AddBob();
    RemoveAnn();
    AddAnn();
    AfterFour(Sample(1), Empty(), Start(), WithBob(), WithoutAnn(), Foundation(), BobIsAdded(), AnnLeaves(), AnnIsAdded());
    TwoRows(AnnTwice(), Nth(3), Nth(6), TEAM, "ann");
  }

  // -------------------------------------------------------------- invitations

  /** What Ann does here, and any owner may do. */
  predicate OwnersTask(resource: string, action: string)
  {
    (resource == "invitation" && action in ["create", "cancel"]) || (resource == "team" && action == "create")
  }

  lemma OwnerAllows(resource: string, action: string)
    requires OwnersTask(resource, action)
    ensures Allows(RoleTable(map[])["owner"], Ask(resource, action))
  {
    assert RoleTable(map[])["owner"] == DefaultRoles()["owner"];
    assert DefaultRoles()["owner"]["invitation"] == ["create", "cancel"];
    assert "create" in DefaultRoles()["owner"]["team"];
  }

  lemma OwnerMay(seats: int, roles: Roles, org: Id, resource: string, action: string)
    requires OwnersTask(resource, action)
    ensures Permitted(Sample(seats), roles, org, "owner", Ask(resource, action))
  {
    OneName("owner");
    OwnerAllows(resource, action);
    assert NameGrants(Sample(seats), roles, org, "owner", Ask(resource, action));
  }

  /** Bob is invited as an ordinary member. */
  function Offer(teams: seq<Id>): InviteRequest
  {
    InviteRequest(ORG, "bob@x", ["member"], false, teams)
  }

  function Invited(teams: string, status: Status): Invitation
  {
    Invitation(ORG, "bob@x", "member", status, teams, 172_800_001)
  }

  lemma BobsAddress(seats: int)
    ensures NormalizeEmail(Sample(seats), "bob@x") == "bob@x"
  {
    TrimSpaceProperties("bob@x");
  }

  lemma MemberIsNoCreator()
    ensures Clean("member") && ParseRole(["member"]) == Roles("member") && !HasRole("member", "owner")
  {
    OneName("member");
    HasRoleIsAPiece("member", "owner");
  }

  lemma MayInvite(cfg: Config, env: Env, t: Tables, user: Id, r: InviteRequest, role: string)
    requires r.roles == [role] && Clean(role) && role in cfg.staticRoles && !HasRole(role, cfg.CreatorRole())
    requires r.org != "" && r.org in t.orgs && MayDo(cfg, t, r.org, user, Ask("invitation", "create"))
    requires var email := NormalizeEmail(cfg, r.email);
             cfg.validEmail(email) && (email in env.byEmail ==> FindMember(t.members, r.org, env.byEmail[email]).None?)
    ensures CheckInvite(cfg, env, t, user, r).Done?
  {
    OneName(role);
    assert RoleExists(cfg, t.roles, r.org, role);
  }

  lemma AnnMay(seats: int, t: Tables, resource: string, action: string)
    requires IsMember(t.members, Nth(1), ORG, "ann") && t.members[Nth(1)].role == "owner" && OwnersTask(resource, action)
    requires forall id :: IsMember(t.members, id, ORG, "ann") ==> id == Nth(1)
    ensures MayDo(Sample(seats), t, ORG, "ann", Ask(resource, action))
  {
    OwnerMay(seats, t.roles, ORG, resource, action);
  }

  lemma BobIsNoMember(t: Tables)
    requires t.members == Start().members
    ensures "bob@x" in Everybody().byEmail && FindMember(t.members, ORG, Everybody().byEmail["bob@x"]).None?
  {
    OnlyMember(t.members, Nth(1), ORG, "ann", "owner", "bob");
  }

  lemma BobMayBeInvited(seats: int, t: Tables, teams: seq<Id>)
    requires t.members == Start().members && t.orgs == Start().orgs
    ensures CheckInvite(Sample(seats), Everybody(), t, "ann", Offer(teams)).Done?
  {
    AnnMay(seats, t, "invitation", "create");
    MemberIsNoCreator();
    BobsAddress(seats);
    BobIsNoMember(t);
    MayInvite(Sample(seats), Everybody(), t, "ann", Offer(teams), "member");
  }

  lemma NoInvitation(cfg: Config, org: Id, email: string, now: int)
    ensures FindLive(cfg, map[], org, email, now).None? && |LiveOf(map[], org, now)| == 0
  {
    assert LiveOf(map[], org, now) == {};
  }

  lemma NewInvitationPasses(cfg: Config, t: Tables, r: InviteRequest, now: int, ids: seq<Id>)
    requires ParseTeams(r.teams) == Teams(ids) && TeamsBelong(t.teams, r.org, ids)
    requires ids != [] ==> cfg.teamsEnabled && cfg.SeatLimit() == 0
    ensures CheckNewInvitation(cfg, t, map[], r, now).Done?
  {
    NoInvitation(cfg, r.org, "", now);
    assert !AnyTeamFull(cfg, t.seats, ids, "");
  }

  /** A first invitation goes through. */
  lemma FirstInvitation(cfg: Config, env: Env, t: Tables, user: Id, r: InviteRequest, now: int)
    requires CheckInvite(cfg, env, t, user, r).Done? && t.invitations == map[] && ParseTeams(r.teams).Teams?
    requires CheckNewInvitation(cfg, t, map[], r, now).Done?
    ensures Invite(cfg, env, t, user, r, now) ==
            (t.(invitations := map[cfg.gen(t.next) := NewInvitation(cfg, r, now)], next := t.next + 1), Done)
  {
    NoInvitation(cfg, r.org, NormalizeEmail(cfg, r.email), now);
  }

  lemma NoTeams()
    ensures ParseTeams([]) == Teams([]) && Join([], ',') == "" && Pieces("") == []
  {
    PiecesOfJoin([]);
  }

  lemma InviteBob(seats: int, t: Tables, teams: seq<Id>)
    requires t.members == Start().members && t.orgs == Start().orgs && t.invitations == map[]
    requires ParseTeams(teams) == Teams(teams) && TeamsBelong(t.teams, ORG, teams) && (teams != [] ==> seats == 0)
    ensures Invite(Sample(seats), Everybody(), t, "ann", Offer(teams), 1) ==
            (t.(invitations := map[Nth(t.next) := Invited(Join(teams, ','), Pending)], next := t.next + 1), Done)
  {
    BobMayBeInvited(seats, t, teams);
    NewInvitationPasses(Sample(seats), t, Offer(teams), 1, teams);
    FirstInvitation(Sample(seats), Everybody(), t, "ann", Offer(teams), 1);
    BobsAddress(seats);
    MemberIsNoCreator();
  }

  // -------------------------------------------------------------- a refused re-invitation

  function BobIsInvited(teams: seq<Id>): Step
  {
    Step(1, Everybody(), OnInvitation(DoInvite("ann", Offer(teams))))
  }

  function WithInvitation(status: Status): Tables
  {
    Start().(invitations := map[Nth(4) := Invited("", status)], next := 5)
  }

  lemma InviteBobFirst()
    ensures Do(Sample(1), Start(), BobIsInvited([])) == (WithInvitation(Pending), Done)
  {
    NoTeams();
    InviteBob(1, Start(), []);
  }

  /** The second time to a team that does not exist. */
  function BobIsInvitedAgain(): Step
  {
    Step(2, Everybody(), OnInvitation(DoInvite("ann", Offer(["nowhere"]))))
  }

  lemma OneTeam(a: string)
    requires Clean(a)
    ensures ParseTeams([a]) == Teams([a])
  {
    CleanedOfClean([a]);
    TrimSpaceProperties(a);
    assert [a][..0] == [];
    assert Distinct([a]) == [a];
  }

  lemma NowhereIsNoTeam()
    ensures ParseTeams(["nowhere"]) == Teams(["nowhere"]) && !TeamsBelong(Start().teams, ORG, ["nowhere"])
  {
    OneTeam("nowhere");
    assert "nowhere" in ["nowhere"] && "nowhere" !in Start().teams;
  }

  lemma OnlyInvitation(cfg: Config, invitations: Invitations, id: Id, inv: Invitation, org: Id, email: string, now: int)
    requires invitations == map[id := inv] && IsLive(cfg, invitations, id, org, email, now)
    ensures FindLive(cfg, invitations, org, email, now) == Some(id)
    ensures var rows := WithStatus(invitations, id, Canceled);
            rows == map[id := inv.(status := Canceled)] && LiveOf(rows, org, now) == {}
  {
  }

  /** A re-invitation to other teams replaces the earlier invitation, but if it is
      refused for its teams, only the cancellation is left. */
  lemma Reinvitation(cfg: Config, env: Env, t: Tables, user: Id, r: InviteRequest, now: int, id: Id, inv: Invitation)
    requires CheckInvite(cfg, env, t, user, r).Done? && !r.resend && cfg.cancelOnReInvite
    requires t.invitations == map[id := inv] && IsLive(cfg, t.invitations, id, r.org, NormalizeEmail(cfg, r.email), now)
    requires ParseTeams(r.teams).Teams? && cfg.teamsEnabled && !TeamsBelong(t.teams, r.org, ParseTeams(r.teams).ids)
    ensures Invite(cfg, env, t, user, r, now) == (t.(invitations := map[id := inv.(status := Canceled)]), Refused(InvalidRequest))
  {
    OnlyInvitation(cfg, t.invitations, id, inv, r.org, NormalizeEmail(cfg, r.email), now);
  }

  lemma InviteBobAgain()
    ensures Do(Sample(1), WithInvitation(Pending), BobIsInvitedAgain()) == (WithInvitation(Canceled), Refused(InvalidRequest))
  {
    NowhereIsNoTeam();
    BobsAddress(1);
    BobMayBeInvited(1, WithInvitation(Pending), ["nowhere"]);
    Reinvitation(Sample(1), Everybody(), WithInvitation(Pending), "ann", Offer(["nowhere"]), 2, Nth(4), Invited("", Pending));
  }

  /** Ann invites Bob and invites him again to a team that does not exist: the second
      request is refused, and yet the first invitation is cancelled by it. */
  lemma RefusedInviteCanCancel()
    ensures Sound(Sample(1))
    ensures var t := After(Sample(1), Empty(), [Foundation(), BobIsInvited([])]);
            var (t', reply) := Do(Sample(1), t, BobIsInvitedAgain());
            && reply.Refused? && t'.invitations.Keys == t.invitations.Keys == {Nth(4)}
            && t.invitations[Nth(4)].status == Pending && t'.invitations[Nth(4)].status == Canceled
  {
    SampleIsSound(1);
    Founding(1);
    InviteBobFirst();
    AfterTwo(Sample(1), Empty(), Start(), Foundation(), BobIsInvited([]));
    InviteBobAgain();
  }

  // -------------------------------------------------------------- cancelled after acceptance

  function Bob(): Caller
  {
    Caller("bob", "bob@x", true)
  }

  function BobAccepts(): Step
  {
    Step(2, Everybody(), OnInvitation(DoAccept(Bob(), Nth(4), NoFault)))
  }

  lemma Accepting(cfg: Config, t: Tables, caller: Caller, id: Id, inv: Invitation, now: int)
    requires t.invitations == map[id := inv] && id != "" && Live(inv, now) && inv.email == caller.email
    requires caller.verified && inv.org in t.orgs && Pieces(inv.teamIds) == []
    requires FindMember(t.members, inv.org, caller.user).None? && |MembersOf(t.members, inv.org)| < cfg.MembershipLimit()
    ensures Accept(cfg, t, caller, id, NoFault, now) ==
            (t.(members := t.members[cfg.gen(t.next) := Member(inv.org, caller.user, inv.role)],
                invitations := map[id := inv.(status := Accepted)], next := t.next + 1), Done)
  {
    assert CheckAccept(cfg, t, caller, id, now).Done?;
    assert WithStatus(t.invitations, id, Accepted) == map[id := inv.(status := Accepted)];
  }

  function BobIn(status: Status): Tables
  {
    WithInvitation(status).(members := Start().members[Nth(5) := Member(ORG, "bob", "member")], next := 6)
  }

  lemma BobAcceptsFirst()
    ensures Do(Sample(1), WithInvitation(Pending), BobAccepts()) == (BobIn(Accepted), Done)
  {
    NoTeams();
    OnlyMember(Start().members, Nth(1), ORG, "ann", "owner", "bob");
    Accepting(Sample(1), WithInvitation(Pending), Bob(), Nth(4), Invited("", Pending), 2);
    DoInvites(Sample(1), WithInvitation(Pending), 2, Everybody(), DoAccept(Bob(), Nth(4), NoFault));
  }

  function AnnCancels(): Step
  {
    Step(3, Everybody(), OnInvitation(DoCancel("ann", Nth(4))))
  }

  lemma Cancelling(cfg: Config, t: Tables, user: Id, id: Id, inv: Invitation)
    requires t.invitations == map[id := inv] && id != "" && inv.org in t.orgs
    requires MayDo(cfg, t, inv.org, user, Ask("invitation", "cancel"))
    ensures Cancel(cfg, t, user, id) == (t.(invitations := map[id := inv.(status := Canceled)]), Done)
  {
    assert WithStatus(t.invitations, id, Canceled) == map[id := inv.(status := Canceled)];
  }

  lemma AnnCancelsLast()
    ensures Do(Sample(1), BobIn(Accepted), AnnCancels()) == (BobIn(Canceled), Done)
  {
    AnnMay(1, BobIn(Accepted), "invitation", "cancel");
    Cancelling(Sample(1), BobIn(Accepted), "ann", Nth(4), Invited("", Accepted));
    DoInvites(Sample(1), BobIn(Accepted), 3, Everybody(), DoCancel("ann", Nth(4)));
  }

  /** Bob is invited and accepts, and Ann cancels the invitation afterwards: it ends as
      cancelled, while Bob stays a member. */
  lemma AcceptedInvitationCanBeCancelled()
    ensures Sound(Sample(1))
    ensures After(Sample(1), Empty(), [Foundation(), BobIsInvited([]), BobAccepts()]) == BobIn(Accepted)
    ensures After(Sample(1), Empty(), [Foundation(), BobIsInvited([]), BobAccepts(), AnnCancels()]) == BobIn(Canceled)
    ensures BobIn(Accepted).invitations[Nth(4)].status == Accepted && BobIn(Canceled).invitations[Nth(4)].status == Canceled
    ensures IsMember(BobIn(Canceled).members, Nth(5), ORG, "bob")
  {
    SampleIsSound(1);
    Founding(1);
    InviteBobFirst();
    BobAcceptsFirst();
    AnnCancelsLast();
    AfterThree(Sample(1), Empty(), Start(), WithInvitation(Pending), Foundation(), BobIsInvited([]), BobAccepts());
    AfterFour(Sample(1), Empty(), Start(), WithInvitation(Pending), BobIn(Accepted),
              Foundation(), BobIsInvited([]), BobAccepts(), AnnCancels());
  }

  // -------------------------------------------------------------- deleting the organization

  lemma GrantedByRow(cfg: Config, t: Tables, org: Id, m: Id, user: Id, name: string, resource: string, action: string)
    requires OneRowEach(t.members) && t.roles == map[] && Clean(name)
    requires IsMember(t.members, m, org, user) && t.members[m].role == name
    ensures Granted(cfg, t, org, user, resource, action) <==> StaticGrants(cfg, name, resource, action)
  {
    OneName(name);
    assert RowGrants(cfg, t, org, m, resource, action) <==> StaticGrants(cfg, name, resource, action) by {
      assert name in Pieces(t.members[m].role);
      assert forall r, other :: !IsRole(t.roles, r, org, other);
    }
  }

  lemma OnlyOwnerDeletes(cfg: Config, t: Tables, org: Id, a: Id, user: Id, b: Id, other: Id)
    requires StaticGrants(cfg, "owner", "organization", "delete") && !StaticGrants(cfg, "member", "organization", "delete")
    requires DeleteProper(cfg, t, org) && t.roles == map[]
    requires OneRowEach(t.members) && IsMember(t.members, a, org, user) && IsMember(t.members, b, org, other)
    requires t.members[a].role == "owner" && t.members[b].role == "member"
    ensures Delete(cfg, t, user, org).1 == Done && Delete(cfg, t, other, org).1 == Refused(Forbidden)
  {
    MemberIsNoCreator();
    OneName("owner");
    GrantedByRow(cfg, t, org, a, user, "owner", "organization", "delete");
    GrantedByRow(cfg, t, org, b, other, "member", "organization", "delete");
    DeleteAnswers(cfg, t, user, org);
    DeleteAnswers(cfg, t, other, org);
  }

  lemma OwnersDelete(seats: int)
    ensures StaticGrants(Sample(seats), "owner", "organization", "delete")
    ensures !StaticGrants(Sample(seats), "member", "organization", "delete")
  {
    BuiltInRoles(Sample(seats), Empty(), OnOrg(DoDelete("ann", ORG)));
  }

  lemma BobsRows()
    ensures var t := BobIn(Accepted);
            && OneRowEach(t.members) && IsMember(t.members, Nth(1), ORG, "ann") && IsMember(t.members, Nth(5), ORG, "bob")
            && t.members[Nth(1)].role == "owner" && t.members[Nth(5)].role == "member"
  {
    assert |Nth(1)| != |Nth(5)|;
  }

  lemma NothingIsLeft()
    ensures Dissolve(BobIn(Accepted), ORG) == Tables(map[], map[], map[], map[], map[Nth(3) := Seat(TEAM, "ann")], map[], 6)
  {
    var t := Dissolve(BobIn(Accepted), ORG);
    assert t.orgs == map[] && t.members == map[] && t.invitations == map[] && t.teams == map[];
  }

  /** Bob, a plain member, asks in vain for the organization to be deleted. Ann, who owns
      it, deletes it: of all its rows only her seat in its team stays behind. */
  lemma OnlyTheOwnerDeletes()
    ensures After(Sample(1), Empty(), [Foundation(), BobIsInvited([]), BobAccepts()]) == BobIn(Accepted)
    ensures Delete(Sample(1), BobIn(Accepted), "bob", ORG) == (BobIn(Accepted), Refused(Forbidden))
    ensures Delete(Sample(1), BobIn(Accepted), "ann", ORG) ==
            (Tables(map[], map[], map[], map[], map[Nth(3) := Seat(TEAM, "ann")], map[], 6), Done)
  {
    AcceptedInvitationCanBeCancelled();
    BobsRows();
    NothingIsLeft();
    OwnersDelete(1);
    OnlyOwnerDeletes(Sample(1), BobIn(Accepted), ORG, Nth(1), "ann", Nth(5), "bob");
  }

  // -------------------------------------------------------------- a seat without a membership

  function SecondTeam(): Step
  {
    Step(0, Everybody(), OnTeam(DoCreateTeam("ann", ORG, "Second")))
  }

  function TwoTeams(): Tables
  {
    Start().(teams := map[TEAM := ORG, Nth(4) := ORG], next := 5)
  }

  lemma AddsTeam(cfg: Config, t: Tables, user: Id, org: Id, name: string)
    requires name != "" && org != "" && org in t.orgs && cfg.MaximumTeams() == 0 && MayDo(cfg, t, org, user, Ask("team", "create"))
    ensures CreateTeam(cfg, t, user, org, name) == (t.(teams := t.teams[cfg.gen(t.next) := org], next := t.next + 1), Done)
  {
    assert CheckCreateTeam(cfg, t, user, org, name).Done?;
  }

  lemma AnnAddsTeam()
    ensures CreateTeam(Sample(0), Start(), "ann", ORG, "Second") == (TwoTeams(), Done)
  {
    AnnMay(0, Start(), "team", "create");
    AddsTeam(Sample(0), Start(), "ann", ORG, "Second");
    assert Start().teams[Nth(4) := ORG] == TwoTeams().teams;
  }

  lemma AddSecondTeam()
    ensures Do(Sample(0), Start(), SecondTeam()) == (TwoTeams(), Done)
  {
    DoTeams(Sample(0), Start(), 0, Everybody(), DoCreateTeam("ann", ORG, "Second"));
    AnnAddsTeam();
  }

  function Both(): seq<Id>
  {
    [TEAM, Nth(4)]
  }

  function OfferedBoth(): Tables
  {
    TwoTeams().(invitations := map[Nth(5) := Invited(Join(Both(), ','), Pending)], next := 6)
  }

  lemma TwoNames(a: string, b: string)
    requires Clean(a) && Clean(b) && a != b
    ensures ParseTeams([a, b]) == Teams([a, b]) && Pieces(Join([a, b], ',')) == [a, b]
  {
    CleanedOfClean([a, b]);
    PiecesOfJoin([a, b]);
    TrimSpaceProperties(a);
    TrimSpaceProperties(b);
    assert [a, b][..1] == [a] && [a][..0] == [];
    assert Distinct([a]) == [a];
  }

  lemma BothBelong()
    ensures ParseTeams(Both()) == Teams(Both()) && TeamsBelong(TwoTeams().teams, ORG, Both())
  {
    TwoNames(TEAM, Nth(4));
    assert forall id :: id in Both() ==> id == TEAM || id == Nth(4);
  }

  lemma AnnInvitesBobToBoth()
    ensures Invite(Sample(0), Everybody(), TwoTeams(), "ann", Offer(Both()), 1) == (OfferedBoth(), Done)
  {
    BothBelong();
    InviteBob(0, TwoTeams(), Both());
  }

  lemma InviteBobToBoth()
    ensures Do(Sample(0), TwoTeams(), BobIsInvited(Both())) == (OfferedBoth(), Done)
  {
    DoInvites(Sample(0), TwoTeams(), 1, Everybody(), DoInvite("ann", Offer(Both())));
    AnnInvitesBobToBoth();
  }

  /** The write of the second seat fails. */
  function BobFails(): Step
  {
    Step(2, Everybody(), OnInvitation(DoAccept(Bob(), Nth(5), SeatWrite(1))))
  }

  lemma MayAccept(cfg: Config, t: Tables, caller: Caller, id: Id, inv: Invitation, now: int)
    requires t.invitations == map[id := inv] && id != "" && Live(inv, now) && inv.email == caller.email
    requires caller.verified && inv.org in t.orgs && cfg.teamsEnabled && cfg.SeatLimit() == 0
    requires TeamsBelong(t.teams, inv.org, Pieces(inv.teamIds))
    requires FindMember(t.members, inv.org, caller.user).None? && |MembersOf(t.members, inv.org)| < cfg.MembershipLimit()
    ensures CheckAccept(cfg, t, caller, id, now).Done?
  {
  }

  lemma VacantBoth(seats: Seats, id: Id, seat: Seat, user: Id, a: Id, b: Id)
    requires seats == map[id := seat] && seat.user != user && a != b
    ensures Vacant([a, b], TeamsWith(seats, user)) == [a, b]
  {
    var none: set<Id> := {};
    assert TeamsWith(seats, user) == none;
    assert [a, b][1..] == [b] && [b][1..] == [];
    assert Vacant([b], none + {a}) == [b] + Vacant([], none + {a} + {b});
  }

  lemma FailsAtSecond(cfg: Config, t: Tables, caller: Caller, id: Id, now: int, a: Id, b: Id)
    requires cfg.FreshIds() && Free(cfg, t.seats, t.next)
    requires CheckAccept(cfg, t, caller, id, now).Done? && VacantTeamsOf(t, id, caller.user) == [a, b]
    ensures var (t', reply) := Accept(cfg, t, caller, id, SeatWrite(1), now);
            reply.Refused? && t' == t.(seats := t'.seats, next := t'.next) && caller.user in Occupants(t'.seats, a)
  {
    RefusedAcceptMayLeaveSeats(cfg, t, caller, id, SeatWrite(1), now, a);
    assert [a, b][..1] == [a];
  }

  lemma BobMayAcceptBoth()
    ensures CheckAccept(Sample(0), OfferedBoth(), Bob(), Nth(5), 2).Done?
    ensures VacantTeamsOf(OfferedBoth(), Nth(5), "bob") == Both()
    ensures Free(Sample(0), OfferedBoth().seats, OfferedBoth().next)
  {
    TwoNames(TEAM, Nth(4));
    OnlyMember(Start().members, Nth(1), ORG, "ann", "owner", "bob");
    MayAccept(Sample(0), OfferedBoth(), Bob(), Nth(5), Invited(Join(Both(), ','), Pending), 2);
    VacantBoth(OfferedBoth().seats, Nth(3), Seat(TEAM, "ann"), "bob", TEAM, Nth(4));
  }

  lemma BobFailsLate()
    ensures var (t', reply) := Do(Sample(0), OfferedBoth(), BobFails());
            && reply.Refused? && t' == OfferedBoth().(seats := t'.seats, next := t'.next)
            && "bob" in Occupants(t'.seats, TEAM)
  {
    SampleIsSound(0);
    BobMayAcceptBoth();
    FailsAtSecond(Sample(0), OfferedBoth(), Bob(), Nth(5), 2, TEAM, Nth(4));
    DoInvites(Sample(0), OfferedBoth(), 2, Everybody(), DoAccept(Bob(), Nth(5), SeatWrite(1)));
  }

  /** Bob is invited to two teams, and the write of the second seat fails: the acceptance
      is refused and taken back, and yet he sits in the first team without being a member. */
  lemma RefusedAcceptCanLeaveSeats()
    ensures Sound(Sample(0))
    ensures var t := After(Sample(0), Empty(), [Foundation(), SecondTeam(), BobIsInvited(Both())]);
            var (t', reply) := Do(Sample(0), t, BobFails());
            && reply.Refused? && t'.invitations == t.invitations
            && "bob" in Occupants(t'.seats, TEAM) && FindMember(t'.members, ORG, "bob").None?
  {
    SampleIsSound(0);
    Founding(0);
    AddSecondTeam();
    InviteBobToBoth();
    AfterThree(Sample(0), Empty(), Start(), TwoTeams(), Foundation(), SecondTeam(), BobIsInvited(Both()));
    BobFailsLate();
    OnlyMember(Start().members, Nth(1), ORG, "ann", "owner", "bob");
  }

}
