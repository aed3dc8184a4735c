/** What every handler keeps about invitations: at most one is live for each
    organization and e-mail, no more than the limit are live in an organization,
    and one that has been settled is never pending again. */
module OrgInvitations {
  import opened Common
  import opened OrgTables
  import opened OrgHandlers

  ghost predicate SameRecipient(cfg: Config, a: Invitation, b: Invitation)
  {
    a.org == b.org && cfg.lower(a.email) == cfg.lower(b.email)
  }

  /** Two invitations of the same recipient that are both live. */
  ghost predicate Rivals(cfg: Config, invitations: Invitations, i: Id, j: Id, now: int)
  {
    && i != j && i in invitations && j in invitations
    && Live(invitations[i], now) && Live(invitations[j], now)
    && SameRecipient(cfg, invitations[i], invitations[j])
  }

  ghost predicate NoRivals(cfg: Config, invitations: Invitations, now: int)
  {
    forall i, j :: !Rivals(cfg, invitations, i, j, now)
  }

  ghost predicate LiveWithinLimit(cfg: Config, invitations: Invitations, now: int)
  {
    forall org :: |LiveOf(invitations, org, now)| <= cfg.InvitationLimit()
  }

  ghost predicate InvitationsOk(cfg: Config, invitations: Invitations, now: int)
  {
    NoRivals(cfg, invitations, now) && LiveWithinLimit(cfg, invitations, now)
  }

  /** Rows may change as long as no other row is live afterwards. */
  lemma FewerLive(cfg: Config, before: Invitations, after: Invitations, earlier: int, now: int)
    requires InvitationsOk(cfg, before, earlier)
    requires forall id :: id in after && Live(after[id], now) ==>
               id in before && Live(before[id], earlier) && SameRecipient(cfg, before[id], after[id])
    ensures InvitationsOk(cfg, after, now)
  {
    forall i, j ensures !Rivals(cfg, after, i, j, now) {
      assert !Rivals(cfg, before, i, j, earlier);
    }
    forall org ensures |LiveOf(after, org, now)| <= cfg.InvitationLimit() {
      SubsetSize(LiveOf(after, org, now), LiveOf(before, org, earlier));
    }
  }

  lemma TimePasses(cfg: Config, invitations: Invitations, earlier: int, now: int)
    requires InvitationsOk(cfg, invitations, earlier) && earlier <= now
    ensures InvitationsOk(cfg, invitations, now)
  {
    FewerLive(cfg, invitations, invitations, earlier, now);
  }

  lemma AddHasNoRivals(cfg: Config, invitations: Invitations, id: Id, inv: Invitation, now: int)
    requires NoRivals(cfg, invitations, now) && id !in invitations
    requires forall i :: !IsLive(cfg, invitations, i, inv.org, inv.email, now)
    ensures NoRivals(cfg, invitations[id := inv], now)
  {
    var more := invitations[id := inv];
    forall i, j ensures !Rivals(cfg, more, i, j, now) {
      assert !Rivals(cfg, invitations, i, j, now);
      assert !IsLive(cfg, invitations, i, inv.org, inv.email, now);
      assert !IsLive(cfg, invitations, j, inv.org, inv.email, now);
    }
  }

  lemma LiveAfterAdd(invitations: Invitations, id: Id, inv: Invitation, org: Id, now: int)
    requires id !in invitations
    ensures LiveOf(invitations[id := inv], org, now) ==
            LiveOf(invitations, org, now) + if org == inv.org && Live(inv, now) then {id} else {}
  {
  }

  lemma AddStaysWithinLimit(cfg: Config, invitations: Invitations, id: Id, inv: Invitation, now: int)
    requires LiveWithinLimit(cfg, invitations, now) && id !in invitations
    requires |LiveOf(invitations, inv.org, now)| < cfg.InvitationLimit()
    ensures LiveWithinLimit(cfg, invitations[id := inv], now)
  {
    var more := invitations[id := inv];
    forall org ensures |LiveOf(more, org, now)| <= cfg.InvitationLimit() {
      LiveAfterAdd(invitations, id, inv, org, now);
    }
  }

  /** The statuses an invitation can go through: from pending to any other, and from
      accepted or rejected to cancelled, as cancelling does not ask for the status. */
  predicate MayBecome(before: Status, after: Status)
  {
    before == after || before == Pending || after == Canceled
  }

  /** What an invitation keeps for life, and that it is settled for good. */
  ghost predicate Settles(before: Invitations, after: Invitations)
  {
    forall id :: id in before && id in after ==>
      && SameOffer(before[id], after[id])
      && MayBecome(before[id].status, after[id].status)
  }

  predicate SameOffer(a: Invitation, b: Invitation)
  {
    a.org == b.org && a.email == b.email && a.role == b.role && a.teamIds == b.teamIds
  }

  lemma SettleKeeps(cfg: Config, invitations: Invitations, id: Id, status: Status, now: int)
    requires InvitationsOk(cfg, invitations, now) && id in invitations && status != Pending
    requires MayBecome(invitations[id].status, status)
    ensures InvitationsOk(cfg, WithStatus(invitations, id, status), now)
    ensures Settles(invitations, WithStatus(invitations, id, status))
  {
    FewerLive(cfg, invitations, WithStatus(invitations, id, status), now, now);
  }

  lemma ProlongKeeps(cfg: Config, invitations: Invitations, id: Id, now: int)
    requires InvitationsOk(cfg, invitations, now) && id in invitations && Live(invitations[id], now)
    ensures InvitationsOk(cfg, Prolong(cfg, invitations, id, now), now)
    ensures Settles(invitations, Prolong(cfg, invitations, id, now))
  {
    FewerLive(cfg, invitations, Prolong(cfg, invitations, id, now), now, now);
  }

  lemma CancelEarlier(cfg: Config, invitations: Invitations, id: Id, org: Id, email: string, now: int)
    requires InvitationsOk(cfg, invitations, now) && IsLive(cfg, invitations, id, org, email, now)
    ensures var rows := WithStatus(invitations, id, Canceled);
            InvitationsOk(cfg, rows, now) && forall i :: !IsLive(cfg, rows, i, org, email, now)
  {
    var rows := WithStatus(invitations, id, Canceled);
    SettleKeeps(cfg, invitations, id, Canceled, now);
    forall i ensures !IsLive(cfg, rows, i, org, email, now) {
      assert !Rivals(cfg, invitations, i, id, now);
    }
  }

  lemma InviteAnewKeeps(cfg: Config, t: Tables, rows: Invitations, r: InviteRequest, now: int)
    requires ParseRole(r.roles).Roles? && InvitationsOk(cfg, rows, now) && cfg.gen(t.next) !in rows
    requires forall i :: !IsLive(cfg, rows, i, r.org, NormalizeEmail(cfg, r.email), now)
    ensures InvitationsOk(cfg, InviteAnew(cfg, t, rows, r, now).0.invitations, now)
    ensures Settles(rows, InviteAnew(cfg, t, rows, r, now).0.invitations)
    ensures rows.Keys <= InviteAnew(cfg, t, rows, r, now).0.invitations.Keys
  {
    if CheckNewInvitation(cfg, t, rows, r, now).Done? {
      AddHasNoRivals(cfg, rows, cfg.gen(t.next), NewInvitation(cfg, r, now), now);
      AddStaysWithinLimit(cfg, rows, cfg.gen(t.next), NewInvitation(cfg, r, now), now);
    }
  }

  lemma SettlesTrans(a: Invitations, b: Invitations, c: Invitations)
    requires Settles(a, b) && Settles(b, c) && a.Keys <= b.Keys
    ensures Settles(a, c)
  {
  }

  lemma InviteKeepsInvitations(cfg: Config, env: Env, t: Tables, user: Id, r: InviteRequest, now: int)
    requires InvitationsOk(cfg, t.invitations, now) && cfg.gen(t.next) !in t.invitations
    ensures var t' := Invite(cfg, env, t, user, r, now).0;
            InvitationsOk(cfg, t'.invitations, now) && Settles(t.invitations, t'.invitations)
  {
    var earlier := FindLive(cfg, t.invitations, r.org, NormalizeEmail(cfg, r.email), now);
    var (t', _) := Invite(cfg, env, t, user, r, now);
    if !CheckInvite(cfg, env, t, user, r).Done? {
      assert t' == t;
    } else if earlier.None? {
      InviteAnewKeeps(cfg, t, t.invitations, r, now);
    } else if r.resend {
      ProlongKeeps(cfg, t.invitations, earlier.value, now);
    } else if cfg.cancelOnReInvite {
      ReinviteKeeps(cfg, t, r, earlier.value, now);
    } else {
      assert t' == t;
    }
  }

  lemma ReinviteKeeps(cfg: Config, t: Tables, r: InviteRequest, earlier: Id, now: int)
    requires ParseRole(r.roles).Roles? && InvitationsOk(cfg, t.invitations, now) && cfg.gen(t.next) !in t.invitations
    requires IsLive(cfg, t.invitations, earlier, r.org, NormalizeEmail(cfg, r.email), now)
    ensures var rows := InviteAnew(cfg, t, WithStatus(t.invitations, earlier, Canceled), r, now).0.invitations;
            InvitationsOk(cfg, rows, now) && Settles(t.invitations, rows)
  {
    CancelEarlier(cfg, t.invitations, earlier, r.org, NormalizeEmail(cfg, r.email), now);
    SettleKeeps(cfg, t.invitations, earlier, Canceled, now);
    var cancelled := WithStatus(t.invitations, earlier, Canceled);
    InviteAnewKeeps(cfg, t, cancelled, r, now);
    SettlesTrans(t.invitations, cancelled, InviteAnew(cfg, t, cancelled, r, now).0.invitations);
  }

  lemma AcceptKeepsInvitations(cfg: Config, t: Tables, caller: Caller, id: Id, fault: Fault, now: int)
    requires InvitationsOk(cfg, t.invitations, now)
    ensures var (t', reply) := Accept(cfg, t, caller, id, fault, now);
            && InvitationsOk(cfg, t'.invitations, now)
            && Settles(t.invitations, t'.invitations)
            && (reply.Done? ==> id in t.invitations && Live(t.invitations[id], now) && t'.invitations[id].status == Accepted)
  {
    var (t', reply) := Accept(cfg, t, caller, id, fault, now);
    if reply.Done? {
      SettleKeeps(cfg, t.invitations, id, Accepted, now);
    } else {
      assert t'.invitations == t.invitations;
    }
  }

  lemma RejectKeepsInvitations(cfg: Config, t: Tables, caller: Caller, id: Id, now: int)
    requires InvitationsOk(cfg, t.invitations, now)
    ensures var t' := Reject(cfg, t, caller, id, now).0;
            InvitationsOk(cfg, t'.invitations, now) && Settles(t.invitations, t'.invitations)
  {
    if CheckReject(cfg, t, caller, id, now).Done? {
      SettleKeeps(cfg, t.invitations, id, Rejected, now);
    }
  }

  lemma CancelKeepsInvitations(cfg: Config, t: Tables, user: Id, id: Id, now: int)
    requires InvitationsOk(cfg, t.invitations, now)
    ensures var t' := Cancel(cfg, t, user, id).0;
            InvitationsOk(cfg, t'.invitations, now) && Settles(t.invitations, t'.invitations)
  {
    if CheckCancel(cfg, t, user, id).Done? {
      SettleKeeps(cfg, t.invitations, id, Canceled, now);
    }
  }

  lemma DeleteKeepsInvitations(cfg: Config, t: Tables, user: Id, org: Id, now: int)
    requires InvitationsOk(cfg, t.invitations, now)
    ensures var t' := Delete(cfg, t, user, org).0;
            InvitationsOk(cfg, t'.invitations, now) && Settles(t.invitations, t'.invitations)
  {
    FewerLive(cfg, t.invitations, Dissolve(t, org).invitations, now, now);
  }

  /** A refused invitation leaves the tables alone, unless a live one has been cancelled
      to make way for it: exactly then it changes them, and only by that. */
  lemma RefusedInviteMayCancel(cfg: Config, env: Env, t: Tables, user: Id, r: InviteRequest, now: int)
    requires Invite(cfg, env, t, user, r, now).1.Refused?
    ensures var t', earlier := Invite(cfg, env, t, user, r, now).0, FindLive(cfg, t.invitations, r.org, NormalizeEmail(cfg, r.email), now);
            && (t' == t <==> !(CheckInvite(cfg, env, t, user, r).Done? && earlier.Some? && !r.resend && cfg.cancelOnReInvite))
            && (t' != t ==> earlier.Some? && t' == t.(invitations := WithStatus(t.invitations, earlier.value, Canceled)))
  {
    var earlier := FindLive(cfg, t.invitations, r.org, NormalizeEmail(cfg, r.email), now);
    if earlier.Some? {
      assert WithStatus(t.invitations, earlier.value, Canceled)[earlier.value].status != t.invitations[earlier.value].status;
    }
  }

}
