/** Consequences over runs: an invitation is used once and for the teams it was issued
    for, teams have one row for each user unless the server adds a second, and static
    roles mean the same throughout. */
module OrgFacts {
  import opened Strings
  import opened RoleCodec
  import opened Access
  import opened OrgTables
  import opened OrgHandlers
  import opened OrgInvitations
  import opened OrgTeams
  import opened OrgRoles
  import opened OrgRuns

  // -------------------------------------------------------------- one use

  /** The invariants that the life of an invitation depends on. */
  ghost predicate Ready(cfg: Config, t: Tables, clock: int)
  {
    cfg.FreshIds() && IdsAhead(cfg, t) && InvitationsOk(cfg, t.invitations, clock)
  }

  lemma StepKeepsReady(cfg: Config, t: Tables, clock: int, s: Step)
    requires Ready(cfg, t, clock) && clock <= s.now
    ensures Ready(cfg, t, s.now) && Ready(cfg, Do(cfg, t, s).0, s.now)
  {
    TimePasses(cfg, t.invitations, clock, s.now);
    StepKeepsIds(cfg, t, s);
    StepKeepsInvitations(cfg, t, s);
  }

  /** The step is a successful acceptance of the invitation. */
  ghost predicate Accepts(cfg: Config, t: Tables, s: Step, id: Id)
  {
    && s.action.OnInvitation? && s.action.invitation.DoAccept? && s.action.invitation.id == id
    && Do(cfg, t, s).1.Done?
  }

  ghost function AcceptCount(cfg: Config, t: Tables, run: seq<Step>, id: Id): nat
    decreases run
  {
    if run == [] then 0
    else (if Accepts(cfg, t, run[0], id) then 1 else 0) + AcceptCount(cfg, Do(cfg, t, run[0]).0, run[1..], id)
  }

  /** The id is not one that is still to be drawn. */
  ghost predicate Drawn(cfg: Config, next: nat, id: Id)
  {
    forall n: nat :: n >= next ==> cfg.gen(n) != id
  }

  /** The id has been drawn, and the invitation, if it is still there, is settled. */
  ghost predicate Spent(cfg: Config, t: Tables, id: Id)
  {
    Drawn(cfg, t.next, id) && (id in t.invitations ==> t.invitations[id].status != Pending)
  }

  /** A row that a step adds to the invitations has the next id; ids are only drawn. */
  lemma OnlyNextIdAppears(cfg: Config, t: Tables, s: Step, id: Id)
    requires cfg.FreshIds() && IdsAhead(cfg, t)
    ensures var t' := Do(cfg, t, s).0;
            t'.next >= t.next && (id in t'.invitations ==> id in t.invitations || id == cfg.gen(t.next))
  {
    match s.action
    case OnOrg(a) => OrgDraws(cfg, t, a, id);
    case OnInvitation(a) => InvitationDraws(cfg, s.env, t, a, s.now, id);
    case _ =>
  }

  lemma OrgDraws(cfg: Config, t: Tables, a: OrgAction, id: Id)
    ensures var t' := DoOrg(cfg, t, a).0; t'.next >= t.next && (id in t'.invitations ==> id in t.invitations)
  {
  }

  lemma InvitationDraws(cfg: Config, env: Env, t: Tables, a: InvitationAction, now: int, id: Id)
    requires cfg.FreshIds() && IdsAhead(cfg, t)
    ensures var t' := DoInvitation(cfg, env, t, a, now).0;
            t'.next >= t.next && (id in t'.invitations ==> id in t.invitations || id == cfg.gen(t.next))
  {
    match a
    case DoInvite(user, request) => InviteGrows(cfg, env, t, user, request, now);
    case DoAccept(caller, inv, fault) =>
      if CheckAccept(cfg, t, caller, inv, now).Done? {
        EnterSeats(cfg, t, caller.user, inv, Pieces(t.invitations[inv].teamIds), fault);
        EnterEffect(cfg, t, caller.user, inv, Pieces(t.invitations[inv].teamIds), fault);
      }
    case _ =>
  }

  lemma SpentStays(cfg: Config, t: Tables, s: Step, id: Id)
    requires Ready(cfg, t, s.now) && Spent(cfg, t, id)
    ensures Spent(cfg, Do(cfg, t, s).0, id)
  {
    OnlyNextIdAppears(cfg, t, s, id);
    StepKeepsInvitations(cfg, t, s);
  }

  lemma AcceptanceSpends(cfg: Config, t: Tables, s: Step, id: Id)
    requires Ready(cfg, t, s.now) && Accepts(cfg, t, s, id)
    ensures Spent(cfg, Do(cfg, t, s).0, id) && !Spent(cfg, t, id)
  {
    OnlyNextIdAppears(cfg, t, s, id);
    var a := s.action.invitation;
    AcceptKeepsInvitations(cfg, t, a.caller, id, a.fault, s.now);
  }

  /** Over every run each invitation is accepted at most once, whatever is rejected,
      cancelled, sent again or rolled back meanwhile. */
  lemma {:induction false} AcceptedAtMostOnce(cfg: Config, t: Tables, clock: int, run: seq<Step>, id: Id)
    requires Ready(cfg, t, clock) && InOrder(run, clock)
    ensures AcceptCount(cfg, t, run, id) <= if Spent(cfg, t, id) then 0 else 1
    decreases run
  {
    if run != [] {
      var s, t' := run[0], Do(cfg, t, run[0]).0;
      StepKeepsReady(cfg, t, clock, s);
      AcceptedAtMostOnce(cfg, t', s.now, run[1..], id);
      if Accepts(cfg, t, s, id) {
        AcceptanceSpends(cfg, t, s, id);
      }
      if Spent(cfg, t, id) {
        SpentStays(cfg, t, s, id);
      }
    }
  }

  /** An acceptance brings in exactly one member, with the role that was offered. */
  lemma AcceptanceAddsOneMember(cfg: Config, t: Tables, caller: Caller, id: Id, fault: Fault, now: int)
    requires Accept(cfg, t, caller, id, fault, now).1.Done? && Free(cfg, t.members, t.next)
    ensures id in t.invitations
    ensures Accept(cfg, t, caller, id, fault, now).0.members ==
            t.members[cfg.gen(t.next) := Member(t.invitations[id].org, caller.user, t.invitations[id].role)]
    ensures cfg.gen(t.next) !in t.members
  {
    EnterEffect(cfg, t, caller.user, id, Pieces(t.invitations[id].teamIds), fault);
  }

  // -------------------------------------------------------------- the offer of an invitation

  /** The invitation, if it is there afterwards, was there before with the same offer, and
      its status has moved on at most. */
  ghost predicate StillOffers(before: Invitations, after: Invitations, id: Id)
  {
    id in after ==>
      && id in before && SameOffer(before[id], after[id])
      && MayBecome(before[id].status, after[id].status)
  }

  lemma StillOffersTrans(a: Invitations, b: Invitations, c: Invitations, id: Id)
    requires StillOffers(a, b, id) && StillOffers(b, c, id)
    ensures StillOffers(a, c, id)
  {
  }

  /** What one request can do to an invitation whose id has been drawn. */
  lemma OfferStep(cfg: Config, t: Tables, s: Step, id: Id)
    requires Ready(cfg, t, s.now) && Drawn(cfg, t.next, id)
    ensures var t' := Do(cfg, t, s).0; Drawn(cfg, t'.next, id) && StillOffers(t.invitations, t'.invitations, id)
  {
    OnlyNextIdAppears(cfg, t, s, id);
    StepKeepsInvitations(cfg, t, s);
  }

  /** An invitation that is gone does not come back. One that is not gone still makes the
      same offer, and its status has only moved on: never back to pending, and once
      accepted, to cancelled at most. */
  lemma {:induction false} OfferStands(cfg: Config, t: Tables, clock: int, run: seq<Step>, id: Id)
    requires Ready(cfg, t, clock) && InOrder(run, clock) && Drawn(cfg, t.next, id)
    ensures StillOffers(t.invitations, After(cfg, t, run).invitations, id)
    decreases run
  {
    if run != [] {
      var t' := Do(cfg, t, run[0]).0;
      StepKeepsReady(cfg, t, clock, run[0]);
      OfferStep(cfg, t, run[0], id);
      OfferStands(cfg, t', run[0].now, run[1..], id);
      StillOffersTrans(t.invitations, t'.invitations, After(cfg, t, run).invitations, id);
    }
  }

  // -------------------------------------------------------------- when an acceptance is final

  ghost predicate IsAccepted(t: Tables, id: Id)
  {
    id in t.invitations && t.invitations[id].status == Accepted
  }

  /** The step is a permitted cancellation of the invitation. */
  ghost predicate Cancels(cfg: Config, t: Tables, s: Step, id: Id)
  {
    && s.action.OnInvitation? && s.action.invitation.DoCancel? && s.action.invitation.id == id
    && CheckCancel(cfg, t, s.action.invitation.user, id).Done?
  }

  lemma InvitingKeepsAccepted(cfg: Config, env: Env, t: Tables, user: Id, r: InviteRequest, now: int, id: Id)
    requires IsAccepted(t, id) && cfg.gen(t.next) !in t.invitations
    ensures IsAccepted(Invite(cfg, env, t, user, r, now).0, id)
  {
    var earlier := FindLive(cfg, t.invitations, r.org, NormalizeEmail(cfg, r.email), now);
    assert earlier.Some? ==> earlier.value != id;
  }

  lemma AcceptingKeepsAccepted(cfg: Config, t: Tables, caller: Caller, other: Id, fault: Fault, now: int, id: Id)
    requires IsAccepted(t, id)
    ensures IsAccepted(Accept(cfg, t, caller, other, fault, now).0, id)
  {
    if CheckAccept(cfg, t, caller, other, now).Done? {
      EnterEffect(cfg, t, caller.user, other, Pieces(t.invitations[other].teamIds), fault);
    }
  }

  lemma RejectingKeepsAccepted(cfg: Config, t: Tables, caller: Caller, other: Id, now: int, id: Id)
    requires IsAccepted(t, id)
    ensures IsAccepted(Reject(cfg, t, caller, other, now).0, id)
  {
  }

  lemma CancellingChangesAccepted(cfg: Config, t: Tables, user: Id, other: Id, id: Id)
    requires IsAccepted(t, id)
    ensures IsAccepted(Cancel(cfg, t, user, other).0, id) <==> !(other == id && CheckCancel(cfg, t, user, id).Done?)
  {
  }

  /** A request changes the status of an accepted invitation exactly if it is a permitted
      cancellation of it; sending another invitation to the recipient does not. */
  lemma InvitationRequestKeepsAccepted(cfg: Config, env: Env, t: Tables, a: InvitationAction, now: int, id: Id)
    requires IsAccepted(t, id) && cfg.gen(t.next) !in t.invitations
    ensures IsAccepted(DoInvitation(cfg, env, t, a, now).0, id) <==>
            !(a.DoCancel? && a.id == id && CheckCancel(cfg, t, a.user, id).Done?)
  {
    match a
    case DoInvite(user, request) => InvitingKeepsAccepted(cfg, env, t, user, request, now, id);
    case DoAccept(caller, other, fault) => AcceptingKeepsAccepted(cfg, t, caller, other, fault, now, id);
    case DoReject(caller, other) => RejectingKeepsAccepted(cfg, t, caller, other, now, id);
    case DoCancel(user, other) => CancellingChangesAccepted(cfg, t, user, other, id);
  }

  lemma OrgRequestKeepsAccepted(cfg: Config, t: Tables, a: OrgAction, id: Id)
    requires IsAccepted(t, id)
    ensures id in DoOrg(cfg, t, a).0.invitations ==> IsAccepted(DoOrg(cfg, t, a).0, id)
  {
  }

  lemma StepKeepsAccepted(cfg: Config, t: Tables, s: Step, id: Id)
    requires IsAccepted(t, id) && cfg.gen(t.next) !in t.invitations
    ensures id in Do(cfg, t, s).0.invitations ==>
              Do(cfg, t, s).0.invitations[id].status == if Cancels(cfg, t, s, id) then Canceled else Accepted
  {
    match s.action
    case OnOrg(a) => OrgRequestKeepsAccepted(cfg, t, a, id);
    case OnInvitation(a) => InvitationRequestKeepsAccepted(cfg, s.env, t, a, s.now, id);
    case _ =>
  }

  /** Somewhere along the run the invitation is cancelled. */
  ghost predicate EverCancels(cfg: Config, t: Tables, run: seq<Step>, id: Id)
    decreases run
  {
    run != [] && (Cancels(cfg, t, run[0], id) || EverCancels(cfg, Do(cfg, t, run[0]).0, run[1..], id))
  }

  lemma DrawnIfThere(cfg: Config, t: Tables, id: Id)
    requires Free(cfg, t.invitations, t.next) && id in t.invitations
    ensures Drawn(cfg, t.next, id)
  {
  }

  /** What the first step leaves of it stands for the rest of the run. */
  lemma RestOfRun(cfg: Config, t: Tables, clock: int, run: seq<Step>, id: Id)
    requires Ready(cfg, t, clock) && run != [] && InOrder(run, clock) && id in t.invitations
    ensures StillOffers(Do(cfg, t, run[0]).0.invitations, After(cfg, t, run).invitations, id)
  {
    DrawnIfThere(cfg, t, id);
    StepKeepsReady(cfg, t, clock, run[0]);
    OfferStep(cfg, t, run[0], id);
    OfferStands(cfg, Do(cfg, t, run[0]).0, run[0].now, run[1..], id);
  }

  /** Over every run, an accepted invitation that is not deleted with its organization is
      still accepted exactly if nobody with the permission has cancelled it. */
  lemma {:induction false} AcceptedUnlessCancelled(cfg: Config, t: Tables, clock: int, run: seq<Step>, id: Id)
    requires Ready(cfg, t, clock) && InOrder(run, clock)
    requires IsAccepted(t, id) && id in After(cfg, t, run).invitations
    ensures IsAccepted(After(cfg, t, run), id) <==> !EverCancels(cfg, t, run, id)
    decreases run
  {
    if run != [] {
      RestOfRun(cfg, t, clock, run, id);
      StepKeepsAccepted(cfg, t, run[0], id);
      if !Cancels(cfg, t, run[0], id) {
        StepKeepsReady(cfg, t, clock, run[0]);
        AcceptedUnlessCancelled(cfg, Do(cfg, t, run[0]).0, run[0].now, run[1..], id);
      }
    }
  }

  // -------------------------------------------------------------- the teams of an invitation

  /** The teams that were asked for when the invitation was made. */
  ghost predicate AskedFor(r: InviteRequest, team: Id)
  {
    team != "" && exists v :: v in r.teams && TrimSpace(v) == team
  }

  lemma NewInvitationTeams(cfg: Config, r: InviteRequest, now: int, team: Id)
    requires ParseRole(r.roles).Roles? && ParseTeams(r.teams).Teams?
    ensures team in Pieces(NewInvitation(cfg, r, now).teamIds) <==> AskedFor(r, team)
  {
    TeamIdsRoundTrip(r.teams);
  }

  lemma EnterJoins(cfg: Config, t: Tables, user: Id, id: Id, teams: seq<Id>, fault: Fault, team: Id)
    requires cfg.FreshIds() && Free(cfg, t.seats, t.next) && id in t.invitations
    requires Enter(cfg, t, user, id, teams, fault).1.Done?
    ensures Occupants(Enter(cfg, t, user, id, teams, fault).0.seats, team) ==
            Occupants(t.seats, team) + if team in teams then {user} else {}
  {
    assert Free(cfg, t.seats, t.next + 1);
    var joined := JoinTeams(cfg, t.seats, t.next + 1, teams, user, FailingSeat(fault));
    assert Enter(cfg, t, user, id, teams, fault).0.seats == joined.0 && joined.2;
    JoinTeamsSeats(cfg, t.seats, t.next + 1, teams, user, FailingSeat(fault), team);
  }

  /** The one row that an invitation request can add, whether or not an earlier
      invitation of the recipient was cancelled to make way for it. */
  lemma IssuedRow(cfg: Config, env: Env, t: Tables, user: Id, r: InviteRequest, now: int, id: Id)
    requires cfg.gen(t.next) !in t.invitations && id !in t.invitations
    requires id in Invite(cfg, env, t, user, r, now).0.invitations
    ensures CheckInvite(cfg, env, t, user, r).Done? && ParseRole(r.roles).Roles? && ParseTeams(r.teams).Teams?
    ensures var invited := Invite(cfg, env, t, user, r, now).0;
            id == cfg.gen(t.next) && invited.next == t.next + 1 && invited.invitations[id] == NewInvitation(cfg, r, now)
  {
    var earlier := FindLive(cfg, t.invitations, r.org, NormalizeEmail(cfg, r.email), now);
    var rows := if earlier.Some? then WithStatus(t.invitations, earlier.value, Canceled) else t.invitations;
    assert CheckInvite(cfg, env, t, user, r).Done?;
    assert Invite(cfg, env, t, user, r, now) == InviteAnew(cfg, t, rows, r, now);
  }

  /** Whatever happens after the invitation, as long as it is there it offers the same. */
  lemma OfferAfterRun(cfg: Config, env: Env, t: Tables, user: Id, r: InviteRequest, invitedAt: int, id: Id, run: seq<Step>)
    requires Sound(cfg) && TablesOk(cfg, t, invitedAt) && InOrder(run, invitedAt)
    requires id !in t.invitations && id in Invite(cfg, env, t, user, r, invitedAt).0.invitations
    ensures ParseRole(r.roles).Roles? && ParseTeams(r.teams).Teams?
    ensures var later := After(cfg, Invite(cfg, env, t, user, r, invitedAt).0, run);
            && (id in later.invitations ==> SameOffer(NewInvitation(cfg, r, invitedAt), later.invitations[id]))
            && Free(cfg, later.seats, later.next)
  {
    var s := Step(invitedAt, env, OnInvitation(DoInvite(user, r)));
    var invited := Do(cfg, t, s).0;
    IssuedRow(cfg, env, t, user, r, invitedAt, id);
    StepKeeps(cfg, t, invitedAt, s);
    OfferStands(cfg, invited, invitedAt, run, id);
    RunKeeps(cfg, invited, invitedAt, run, if run == [] then invitedAt else run[|run| - 1].now);
  }

  /** From the invitation through any run to its acceptance: the new member gets a seat
      in exactly the teams that were asked for when it was invited. The invitation may be
      a second one, in place of an earlier one that it cancelled. */
  lemma AcceptJoinsInvitedTeams(cfg: Config, env: Env, t: Tables, user: Id, r: InviteRequest, invitedAt: int, id: Id,
                                run: seq<Step>, caller: Caller, fault: Fault, now: int, team: Id)
    requires Sound(cfg) && TablesOk(cfg, t, invitedAt) && InOrder(run, invitedAt)
    requires id !in t.invitations && id in Invite(cfg, env, t, user, r, invitedAt).0.invitations
    ensures var later := After(cfg, Invite(cfg, env, t, user, r, invitedAt).0, run);
            var (end, reply) := Accept(cfg, later, caller, id, fault, now);
            reply.Done? ==>
              Occupants(end.seats, team) == Occupants(later.seats, team) + if AskedFor(r, team) then {caller.user} else {}
  {
    var later := After(cfg, Invite(cfg, env, t, user, r, invitedAt).0, run);
    OfferAfterRun(cfg, env, t, user, r, invitedAt, id, run);
    if Accept(cfg, later, caller, id, fault, now).1.Done? {
      EnterJoins(cfg, later, caller.user, id, Pieces(later.invitations[id].teamIds), fault, team);
      NewInvitationTeams(cfg, r, invitedAt, team);
    }
  }

  // -------------------------------------------------------------- rows of a team

  /** The step gives a user a second row in a team. */
  ghost predicate Doubles(cfg: Config, t: Tables, s: Step)
  {
    && s.action.OnMember? && s.action.member.DoAddMember?
    && SeatsAgain(cfg, s.env, t, s.action.member.user, s.action.member.roles, s.action.member.org, s.action.member.team)
  }

  lemma TeamKeepsSingleSeats(cfg: Config, env: Env, t: Tables, a: TeamAction)
    requires Free(cfg, t.seats, t.next) && SingleSeats(t.seats)
    ensures SingleSeats(DoTeam(cfg, env, t, a).0.seats)
  {
    if a.DoAddTeamMember? {
      OneMoreSeat(t.seats, cfg.gen(t.next), a.team, a.target);
    }
  }

  lemma OrgKeepsSingleSeats(cfg: Config, t: Tables, a: OrgAction)
    requires IdsAhead(cfg, t) && SingleSeats(t.seats)
    ensures SingleSeats(DoOrg(cfg, t, a).0.seats)
  {
    if a.DoCreate? {
      OneMoreSeat(t.seats, cfg.gen(t.next + 3), cfg.gen(t.next + 2), a.user);
    }
  }

  lemma StepKeepsSingleSeats(cfg: Config, t: Tables, s: Step)
    requires cfg.FreshIds() && IdsAhead(cfg, t) && SingleSeats(t.seats)
    ensures SingleSeats(Do(cfg, t, s).0.seats) <==> !Doubles(cfg, t, s)
  {
    match s.action
    case OnOrg(a) => OrgKeepsSingleSeats(cfg, t, a);
    case OnInvitation(a) =>
      if a.DoAccept? {
        AcceptSingle(cfg, t, a.caller, a.id, a.fault, s.now);
      }
    case OnMember(a) =>
      if a.DoAddMember? {
        AddMemberSingle(cfg, s.env, t, a.user, a.roles, a.org, a.team);
      }
    case OnTeam(a) => TeamKeepsSingleSeats(cfg, s.env, t, a);
    case OnRole(a) =>
  }

  ghost predicate NeverDoubles(cfg: Config, t: Tables, run: seq<Step>)
    decreases run
  {
    run == [] || (!Doubles(cfg, t, run[0]) && NeverDoubles(cfg, Do(cfg, t, run[0]).0, run[1..]))
  }

  /** Over every run in which the server does not add a user to a team where it has a
      seat already, the limit of users in a team is a limit on its rows. */
  lemma {:induction false} RowsStayWithinLimit(cfg: Config, t: Tables, clock: int, run: seq<Step>, team: Id)
    requires Sound(cfg) && TablesOk(cfg, t, clock) && InOrder(run, clock) && SingleSeats(t.seats)
    requires NeverDoubles(cfg, t, run) && cfg.SeatLimit() > 0
    ensures |SeatsOf(After(cfg, t, run).seats, team)| <= cfg.SeatLimit()
    decreases run
  {
    if run == [] {
      RowsAreUsers(cfg, t.seats, team);
    } else {
      StepKeeps(cfg, t, clock, run[0]);
      StepKeepsSingleSeats(cfg, t, run[0]);
      assert InOrder(run[1..], run[0].now);
      RowsStayWithinLimit(cfg, Do(cfg, t, run[0]).0, run[0].now, run[1..], team);
    }
  }

  // -------------------------------------------------------------- permissions of static roles

  lemma {:induction false} RunKeepsRoles(cfg: Config, t: Tables, run: seq<Step>)
    requires RolesOk(cfg, t.roles)
    ensures RolesOk(cfg, After(cfg, t, run).roles)
    decreases run
  {
    if run != [] {
      StepKeepsRoles(cfg, t, run[0]);
      RunKeepsRoles(cfg, Do(cfg, t, run[0]).0, run[1..]);
    }
  }

  /** Whatever roles are created, renamed, redefined or deleted on the way, a role value
      that names built-in and configured roles only permits the same after every run. */
  lemma StaticRolesKeepTheirMeaning(cfg: Config, t: Tables, run: seq<Step>, org: Id, role: string, request: Statements)
    requires RolesOk(cfg, t.roles) && forall name :: name in Pieces(role) ==> name in cfg.staticRoles
    ensures Permitted(cfg, After(cfg, t, run).roles, org, role, request) <==> Permitted(cfg, t.roles, org, role, request)
  {
    RunKeepsRoles(cfg, t, run);
    StaticPermissionsStand(cfg, t.roles, After(cfg, t, run).roles, org, role, request);
  }

}
