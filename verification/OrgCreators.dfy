/** Where the creator role comes from, over whole runs: it is handed down from the
    founder, or from somebody whom the server added, by holders only. */
module OrgCreators {
  import opened RoleCodec
  import opened OrgTables
  import opened OrgHandlers
  import opened OrgInvitations
  import opened OrgRuns
  import opened OrgFacts

  /** The user holds the creator role in the organization. */
  ghost predicate HoldsCreator(cfg: Config, t: Tables, org: Id, user: Id)
  {
    exists id :: IsMember(t.members, id, org, user) && IsCreator(cfg, t.members[id])
  }

  // -------------------------------------------------------------- one step

  ghost predicate NewCreator(cfg: Config, before: Members, after: Members, id: Id)
  {
    id in after && IsCreator(cfg, after[id]) && !(id in before && before[id].org == after[id].org && IsCreator(cfg, before[id]))
  }

  lemma InviteNeedsCreator(cfg: Config, env: Env, t: Tables, user: Id, r: InviteRequest)
    requires CheckInvite(cfg, env, t, user, r).Done? && HasRole(ParseRole(r.roles).value, cfg.CreatorRole())
    ensures HoldsCreator(cfg, t, r.org, user)
  {
    assert IsMember(t.members, FindMember(t.members, r.org, user).value, r.org, user);
  }

  /** The role is given to a member of the organization by a request of a holder. */
  ghost predicate GivesRole(cfg: Config, t: Tables, giver: Id, org: Id, id: Id, roles: seq<string>)
  {
    && id in t.members && t.members[id].org == org && HoldsCreator(cfg, t, org, giver)
    && ParseRole(roles).Roles? && HasRole(ParseRole(roles).value, cfg.CreatorRole())
  }

  lemma UpdateRoleNeedsCreator(cfg: Config, env: Env, t: Tables, user: Id, org: Id, target: Id, roles: seq<string>, id: Id)
    requires NewCreator(cfg, t.members, UpdateRole(cfg, env, t, user, org, target, roles).0.members, id)
    ensures id == target && UpdateRole(cfg, env, t, user, org, target, roles).1.Done?
    ensures GivesRole(cfg, t, user, org, target, roles)
  {
    assert CheckUpdateRole(cfg, env, t, user, org, target, roles).Done?;
    assert id == target;
    assert IsMember(t.members, FindMember(t.members, org, user).value, org, user);
  }

  /** Where a new row with the creator role comes from: its user founded the
      organization, or accepted an invitation that carries the role, or was added by the
      server, or was given the role by a holder. */
  lemma CreatorsComeFromCreators(cfg: Config, t: Tables, s: Step, id: Id)
    ensures NewCreator(cfg, t.members, Do(cfg, t, s).0.members, id) ==>
      var m := Do(cfg, t, s).0.members[id];
      && Do(cfg, t, s).1.Done?
      && match s.action
         case OnOrg(a) => a.DoCreate? && m == Member(cfg.gen(t.next), a.user, cfg.CreatorRole())
         case OnInvitation(a) =>
           && a.DoAccept? && a.id in t.invitations && Live(t.invitations[a.id], s.now)
           && m == Member(t.invitations[a.id].org, a.caller.user, t.invitations[a.id].role)
         case OnMember(a) =>
           || (a.DoAddMember? && ParseRole(a.roles).Roles? && m == Member(a.org, a.user, ParseRole(a.roles).value))
           || (a.DoUpdateRole? && id == a.id && m.org == a.org
               && GivesRole(cfg, t, a.user, a.org, id, a.roles) && m.user == t.members[id].user)
         case OnTeam(a) => false
         case OnRole(a) => false
  {
    if NewCreator(cfg, t.members, Do(cfg, t, s).0.members, id) {
      match s.action
      case OnOrg(a) => CreatorFromOrg(cfg, t, a, id);
      case OnInvitation(a) => CreatorFromInvitation(cfg, s.env, t, a, s.now, id);
      case OnMember(a) => CreatorFromMember(cfg, s.env, t, a, id);
      case _ =>
    }
  }

  lemma DissolvingMakesNoCreator(cfg: Config, t: Tables, org: Id, id: Id)
    ensures !NewCreator(cfg, t.members, Dissolve(t, org).members, id)
  {
  }

  lemma CreatorFromOrg(cfg: Config, t: Tables, a: OrgAction, id: Id)
    requires NewCreator(cfg, t.members, DoOrg(cfg, t, a).0.members, id)
    ensures a.DoCreate? && DoOrg(cfg, t, a).1.Done? && DoOrg(cfg, t, a).0.members[id] == Member(cfg.gen(t.next), a.user, cfg.CreatorRole())
  {
    match a
    case DoCreate(user, name, slug) => assert id == cfg.gen(t.next + 1);
    case DoUpdate(user, org, slug) =>
    case DoDelete(user, org) => DissolvingMakesNoCreator(cfg, t, org, id);
  }

  lemma CreatorFromInvitation(cfg: Config, env: Env, t: Tables, a: InvitationAction, now: int, id: Id)
    requires NewCreator(cfg, t.members, DoInvitation(cfg, env, t, a, now).0.members, id)
    ensures a.DoAccept? && DoInvitation(cfg, env, t, a, now).1.Done? && a.id in t.invitations && Live(t.invitations[a.id], now)
    ensures var inv := t.invitations[a.id];
            DoInvitation(cfg, env, t, a, now).0.members[id] == Member(inv.org, a.caller.user, inv.role)
  {
    if a.DoAccept? && CheckAccept(cfg, t, a.caller, a.id, now).Done? {
      EnterEffect(cfg, t, a.caller.user, a.id, Pieces(t.invitations[a.id].teamIds), a.fault);
    }
  }

  lemma CreatorFromMember(cfg: Config, env: Env, t: Tables, a: MemberAction, id: Id)
    requires NewCreator(cfg, t.members, DoMember(cfg, env, t, a).0.members, id)
    ensures var m := DoMember(cfg, env, t, a).0.members[id];
            && DoMember(cfg, env, t, a).1.Done?
            && (|| (a.DoAddMember? && ParseRole(a.roles).Roles? && m == Member(a.org, a.user, ParseRole(a.roles).value))
                || (a.DoUpdateRole? && id == a.id && m.org == a.org
                    && GivesRole(cfg, t, a.user, a.org, id, a.roles) && m.user == t.members[id].user))
  {
    match a
    case DoAddMember(user, roles, org, team) => assert id == cfg.gen(t.next);
    case DoUpdateRole(user, org, target, roles) => UpdateRoleNeedsCreator(cfg, env, t, user, org, target, roles, id);
    case _ =>
  }

  // -------------------------------------------------------------- the states of a run

  /** The tables after the first `n` requests from the empty start. */
  ghost function At(cfg: Config, run: seq<Step>, n: nat): Tables
    requires n <= |run|
  {
    After(cfg, Empty(), run[..n])
  }

  lemma AtNext(cfg: Config, run: seq<Step>, n: nat)
    requires n < |run|
    ensures At(cfg, run, n + 1) == Do(cfg, At(cfg, run, n), run[n]).0
  {
    assert run[..n + 1] == run[..n] + [run[n]];
    AfterOneMore(cfg, Empty(), run[..n], run[n]);
  }

  lemma AtOk(cfg: Config, run: seq<Step>, start: int, n: nat)
    requires Sound(cfg) && InOrder(run, start) && n < |run|
    ensures TablesOk(cfg, At(cfg, run, n), run[n].now)
  {
    EmptyOk(cfg, start);
    RunKeeps(cfg, Empty(), start, run[..n], run[n].now);
  }

  // -------------------------------------------------------------- issuing an invitation

  /** The `j`-th request is an invitation request by the issuer, and issues the invitation. */
  ghost predicate IssuedBy(cfg: Config, run: seq<Step>, j: nat, issuer: Id, id: Id)
    requires j < |run|
  {
    && run[j].action.OnInvitation? && run[j].action.invitation.DoInvite? && run[j].action.invitation.user == issuer
    && id !in At(cfg, run, j).invitations && id in At(cfg, run, j + 1).invitations
  }

  /** Before the `n`-th request a holder of the creator role issued the invitation for
      the organization. */
  ghost predicate IssuedByCreator(cfg: Config, run: seq<Step>, n: nat, org: Id, id: Id)
    requires n <= |run|
  {
    exists j: nat, issuer :: j < n && IssuedBy(cfg, run, j, issuer, id) && HoldsCreator(cfg, At(cfg, run, j), org, issuer)
  }

  lemma OnlyInvitingAdds(cfg: Config, t: Tables, s: Step, id: Id)
    requires cfg.FreshIds() && IdsAhead(cfg, t) && id !in t.invitations && id in Do(cfg, t, s).0.invitations
    ensures s.action.OnInvitation? && s.action.invitation.DoInvite?
  {
    match s.action
    case OnOrg(a) => OrgDraws(cfg, t, a, id);
    case OnInvitation(a) =>
      if a.DoAccept? && CheckAccept(cfg, t, a.caller, a.id, s.now).Done? {
        EnterEffect(cfg, t, a.caller.user, a.id, Pieces(t.invitations[a.id].teamIds), a.fault);
      }
    case _ =>
  }

  lemma IssuingNeedsCreator(cfg: Config, t: Tables, s: Step, id: Id)
    requires cfg.FreshIds() && IdsAhead(cfg, t) && id !in t.invitations && id in Do(cfg, t, s).0.invitations
    requires HasRole(Do(cfg, t, s).0.invitations[id].role, cfg.CreatorRole())
    ensures s.action.OnInvitation? && s.action.invitation.DoInvite?
    ensures HoldsCreator(cfg, t, Do(cfg, t, s).0.invitations[id].org, s.action.invitation.user)
  {
    OnlyInvitingAdds(cfg, t, s, id);
    var a := s.action.invitation;
    IssuedRow(cfg, s.env, t, a.user, a.request, s.now, id);
    InviteNeedsCreator(cfg, s.env, t, a.user, a.request);
  }

  lemma IssuedNow(cfg: Config, run: seq<Step>, start: int, i: nat, id: Id)
    requires Sound(cfg) && InOrder(run, start) && i < |run|
    requires id !in At(cfg, run, i).invitations && id in At(cfg, run, i + 1).invitations
    requires HasRole(At(cfg, run, i + 1).invitations[id].role, cfg.CreatorRole())
    ensures IssuedByCreator(cfg, run, i + 1, At(cfg, run, i + 1).invitations[id].org, id)
  {
    AtNext(cfg, run, i);
    AtOk(cfg, run, start, i);
    IssuingNeedsCreator(cfg, At(cfg, run, i), run[i], id);
    assert IssuedBy(cfg, run, i, run[i].action.invitation.user, id);
  }

  lemma OfferKept(cfg: Config, run: seq<Step>, start: int, i: nat, id: Id)
    requires Sound(cfg) && InOrder(run, start) && i < |run|
    requires id in At(cfg, run, i).invitations && id in At(cfg, run, i + 1).invitations
    ensures SameOffer(At(cfg, run, i).invitations[id], At(cfg, run, i + 1).invitations[id])
  {
    AtNext(cfg, run, i);
    AtOk(cfg, run, start, i);
    StepKeepsInvitations(cfg, At(cfg, run, i), run[i]);
  }

  lemma IssuedBefore(cfg: Config, run: seq<Step>, n: nat, org: Id, id: Id)
    requires n < |run| && IssuedByCreator(cfg, run, n, org, id)
    ensures IssuedByCreator(cfg, run, n + 1, org, id)
  {
  }

  /** Over every run, an invitation that carries the creator role was issued by a user
      who held that role in the organization at that moment. */
  lemma {:induction false} CreatorInvitationsAreIssuedByCreators(cfg: Config, run: seq<Step>, start: int, n: nat, id: Id)
    requires Sound(cfg) && InOrder(run, start) && n <= |run| && id in At(cfg, run, n).invitations
    requires HasRole(At(cfg, run, n).invitations[id].role, cfg.CreatorRole())
    ensures IssuedByCreator(cfg, run, n, At(cfg, run, n).invitations[id].org, id)
    decreases n
  {
    if n > 0 {
      var i: nat := n - 1;
      if id in At(cfg, run, i).invitations {
        OfferKept(cfg, run, start, i, id);
        CreatorInvitationsAreIssuedByCreators(cfg, run, start, i, id);
        IssuedBefore(cfg, run, i, At(cfg, run, n).invitations[id].org, id);
      } else {
        IssuedNow(cfg, run, start, i, id);
      }
    }
  }

  // -------------------------------------------------------------- handing down

  /** The `i`-th request makes the user a holder: it founds the organization, or the
      server adds the user with the role, or somebody to whom the role was handed down and
      who held it at the time gives it, at once or by an invitation that is accepted now. */
  ghost predicate HandedOver(cfg: Config, run: seq<Step>, i: nat, org: Id, user: Id)
    requires i < |run|
    decreases i, 1
  {
    var t := At(cfg, run, i);
    && Do(cfg, t, run[i]).1.Done?
    && match run[i].action
       case OnOrg(a) => a.DoCreate? && a.user == user && org == cfg.gen(t.next)
       case OnMember(a) =>
         || (a.DoAddMember? && a.org == org && a.user == user
             && ParseRole(a.roles).Roles? && HasRole(ParseRole(a.roles).value, cfg.CreatorRole()))
         || (a.DoUpdateRole? && a.org == org && GivesRole(cfg, t, a.user, org, a.id, a.roles)
             && t.members[a.id].user == user && HandedDown(cfg, run, i, org, a.user))
       case OnInvitation(a) =>
         && a.DoAccept? && a.caller.user == user
         && a.id in t.invitations && t.invitations[a.id].org == org && HasRole(t.invitations[a.id].role, cfg.CreatorRole())
         && exists j: nat, issuer :: j < i && IssuedBy(cfg, run, j, issuer, a.id)
              && HoldsCreator(cfg, At(cfg, run, j), org, issuer) && HandedDown(cfg, run, j, org, issuer)
       case _ => false
  }

  /** Before the `n`-th request the user was made a holder in this way. */
  ghost predicate HandedDown(cfg: Config, run: seq<Step>, n: nat, org: Id, user: Id)
    requires n <= |run|
    decreases n, 0
  {
    exists i: nat :: i < n && HandedOver(cfg, run, i, org, user)
  }

  lemma FoundingHolds(cfg: Config, t: Tables, a: OrgAction)
    requires Sound(cfg) && a.DoCreate? && DoOrg(cfg, t, a).1.Done?
    ensures HoldsCreator(cfg, DoOrg(cfg, t, a).0, cfg.gen(t.next), a.user)
  {
    NameNamesItself(cfg.CreatorRole());
    assert IsMember(DoOrg(cfg, t, a).0.members, cfg.gen(t.next + 1), cfg.gen(t.next), a.user);
  }

  lemma AcceptingHolds(cfg: Config, t: Tables, caller: Caller, id: Id, fault: Fault, now: int)
    requires Accept(cfg, t, caller, id, fault, now).1.Done?
    requires id in t.invitations && HasRole(t.invitations[id].role, cfg.CreatorRole())
    ensures HoldsCreator(cfg, Accept(cfg, t, caller, id, fault, now).0, t.invitations[id].org, caller.user)
  {
    EnterEffect(cfg, t, caller.user, id, Pieces(t.invitations[id].teamIds), fault);
    assert IsMember(Accept(cfg, t, caller, id, fault, now).0.members, cfg.gen(t.next), t.invitations[id].org, caller.user);
  }

  lemma AddingHolds(cfg: Config, env: Env, t: Tables, user: Id, roles: seq<string>, org: Id, team: Id)
    requires AddMember(cfg, env, t, user, roles, org, team).1.Done?
    requires ParseRole(roles).Roles? && HasRole(ParseRole(roles).value, cfg.CreatorRole())
    ensures HoldsCreator(cfg, AddMember(cfg, env, t, user, roles, org, team).0, org, user)
  {
    assert IsMember(AddMember(cfg, env, t, user, roles, org, team).0.members, cfg.gen(t.next), org, user);
  }

  lemma GivingHolds(cfg: Config, env: Env, t: Tables, user: Id, org: Id, id: Id, roles: seq<string>)
    requires UpdateRole(cfg, env, t, user, org, id, roles).1.Done? && GivesRole(cfg, t, user, org, id, roles)
    ensures HoldsCreator(cfg, UpdateRole(cfg, env, t, user, org, id, roles).0, org, t.members[id].user)
  {
    assert IsMember(UpdateRole(cfg, env, t, user, org, id, roles).0.members, id, org, t.members[id].user);
  }

  /** Such a request does make the user a holder. */
  lemma HandedOverHolds(cfg: Config, run: seq<Step>, i: nat, org: Id, user: Id)
    requires Sound(cfg) && i < |run| && HandedOver(cfg, run, i, org, user)
    ensures HoldsCreator(cfg, At(cfg, run, i + 1), org, user)
  {
    var t, s := At(cfg, run, i), run[i];
    AtNext(cfg, run, i);
    match s.action
    case OnOrg(a) => FoundingHolds(cfg, t, a);
    case OnInvitation(a) => AcceptingHolds(cfg, t, a.caller, a.id, a.fault, s.now);
    case OnMember(a) =>
      if a.DoAddMember? {
        AddingHolds(cfg, s.env, t, a.user, a.roles, a.org, a.team);
      } else {
        GivingHolds(cfg, s.env, t, a.user, a.org, a.id, a.roles);
      }
  }

  /** Rows that are there before and after are for the same organization and user. */
  ghost predicate SameUsers(a: Members, b: Members)
  {
    forall id :: id in a && id in b ==> b[id].org == a[id].org && b[id].user == a[id].user
  }

  lemma InvitationKeepsUsers(cfg: Config, env: Env, t: Tables, a: InvitationAction, now: int)
    requires Free(cfg, t.members, t.next)
    ensures SameUsers(t.members, DoInvitation(cfg, env, t, a, now).0.members)
  {
    if a.DoAccept? && CheckAccept(cfg, t, a.caller, a.id, now).Done? {
      EnterEffect(cfg, t, a.caller.user, a.id, Pieces(t.invitations[a.id].teamIds), a.fault);
    }
  }

  lemma MemberKeepsUsers(cfg: Config, env: Env, t: Tables, a: MemberAction)
    requires Free(cfg, t.members, t.next)
    ensures SameUsers(t.members, DoMember(cfg, env, t, a).0.members)
  {
  }

  lemma OrgKeepsUsers(cfg: Config, t: Tables, a: OrgAction)
    requires Free(cfg, t.members, t.next)
    ensures SameUsers(t.members, DoOrg(cfg, t, a).0.members)
  {
    assert SameUsers(t.members, Dissolve(t, if a.DoDelete? then a.org else "").members);
  }

  lemma StepKeepsUsers(cfg: Config, t: Tables, s: Step)
    requires Free(cfg, t.members, t.next)
    ensures SameUsers(t.members, Do(cfg, t, s).0.members)
  {
    match s.action
    case OnOrg(a) => OrgKeepsUsers(cfg, t, a);
    case OnInvitation(a) => InvitationKeepsUsers(cfg, s.env, t, a, s.now);
    case OnMember(a) => MemberKeepsUsers(cfg, s.env, t, a);
    case _ =>
  }

  lemma NewCreatorIsHandedOver(cfg: Config, run: seq<Step>, start: int, i: nat, id: Id)
    requires Sound(cfg) && InOrder(run, start) && i < |run|
    requires NewCreator(cfg, At(cfg, run, i).members, At(cfg, run, i + 1).members, id)
    requires forall j: nat, org, user :: j <= i && HoldsCreator(cfg, At(cfg, run, j), org, user) ==> HandedDown(cfg, run, j, org, user)
    ensures var m := At(cfg, run, i + 1).members[id]; HandedOver(cfg, run, i, m.org, m.user)
  {
    var t, m := At(cfg, run, i), At(cfg, run, i + 1).members[id];
    AtNext(cfg, run, i);
    CreatorsComeFromCreators(cfg, t, run[i], id);
    if run[i].action.OnInvitation? {
      var a := run[i].action.invitation;
      CreatorInvitationsAreIssuedByCreators(cfg, run, start, i, a.id);
      var j: nat, issuer :| j < i && IssuedBy(cfg, run, j, issuer, a.id) && HoldsCreator(cfg, At(cfg, run, j), m.org, issuer);
      assert HandedDown(cfg, run, j, m.org, issuer);
    }
  }

  /** Over every run, whoever holds the creator role of an organization got it down a
      chain of users who held it when they handed it on, and the chain starts with the
      founder or with a user whom the server added. */
  lemma {:induction false} CreatorRoleIsHandedDown(cfg: Config, run: seq<Step>, start: int, n: nat, org: Id, user: Id)
    requires Sound(cfg) && InOrder(run, start) && n <= |run| && HoldsCreator(cfg, At(cfg, run, n), org, user)
    ensures HandedDown(cfg, run, n, org, user)
    decreases n
  {
    if n > 0 {
      var i: nat := n - 1;
      var t, t' := At(cfg, run, i), At(cfg, run, n);
      AtNext(cfg, run, i);
      AtOk(cfg, run, start, i);
      var id :| IsMember(t'.members, id, org, user) && IsCreator(cfg, t'.members[id]);
      if NewCreator(cfg, t.members, t'.members, id) {
        forall j: nat, o, u | j <= i && HoldsCreator(cfg, At(cfg, run, j), o, u) ensures HandedDown(cfg, run, j, o, u) {
          CreatorRoleIsHandedDown(cfg, run, start, j, o, u);
        }
        NewCreatorIsHandedOver(cfg, run, start, i, id);
      } else {
        StepKeepsUsers(cfg, t, run[i]);
        assert IsMember(t.members, id, org, user);
        CreatorRoleIsHandedDown(cfg, run, start, i, org, user);
      }
    }
  }

}
