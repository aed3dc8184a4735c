/** What every run of the two-factor plugin keeps: the lockout bound, the limits
    of each challenge and of each sent code, and the count of backup codes. */
module TwoFactorSafety {
  import opened Decimal
  import opened Spacing
  import opened TwoFactor

  /** One request, or a change to the user table made elsewhere. Enrolling, leaving
      and renewing codes stand for requests whose session and password were accepted. */
  datatype Action =
    | Begin(user: string, remember: bool, id: string)
    | Send(caller: Caller, code: string)
    | Totp(caller: Caller, check: Comparison)
    | Otp(caller: Caller, guess: string)
    | Backup(caller: Caller, guess: string)
    | Enroll(user: string, secret: string, codes: seq<string>)
    | Leave(user: string)
    | Renew(user: string, codes: seq<string>)
    | AddUser(user: string)
    | DropUser(user: string)

  datatype Timed = Timed(now: int, action: Action)

  function Do(cfg: Config, st: State, t: Timed): (State, Outcome)
  {
    match t.action
    case Begin(user, remember, id) => (Start(st, user, remember, id, t.now), Refused)
    case Send(caller, code) => (SendOtp(cfg, st, caller, code, t.now), Refused)
    case Totp(caller, check) => VerifyTotp(cfg, st, caller, check, t.now)
    case Otp(caller, guess) => VerifyOtp(cfg, st, caller, guess, t.now)
    case Backup(caller, guess) => VerifyBackupCode(cfg, st, caller, guess, t.now)
    case Enroll(user, secret, codes) => (Enable(cfg, st, user, secret, codes), Refused)
    case Leave(user) => (st.(records := st.records - {user}), Refused)
    case Renew(user, codes) => (Regenerate(st, user, codes), Refused)
    case AddUser(user) => (st.(users := st.users + {user}), Refused)
    case DropUser(user) => (st.(users := st.users - {user}), Refused)
  }

  ghost function After(cfg: Config, st: State, run: seq<Timed>): State
    decreases run
  {
    if run == [] then st else After(cfg, Do(cfg, st, run[0]).0, run[1..])
  }

  ghost predicate InOrder(run: seq<Timed>, from: int)
  {
    && (forall i :: 0 <= i < |run| ==> from <= run[i].now)
    && (forall i, j :: 0 <= i <= j < |run| ==> run[i].now <= run[j].now)
  }

  predicate IsAnswer(a: Action)
  {
    a.Totp? || a.Otp? || a.Backup?
  }

  /** The caller answers a pending challenge of the user. */
  predicate AnswersFor(st: State, caller: Caller, user: string)
  {
    caller.Cookie? && caller.id in st.pending && st.pending[caller.id].user == user
  }

  /** A wrong code was compared on a pending challenge of the user. */
  predicate WrongOnPending(cfg: Config, st: State, t: Timed, user: string)
  {
    IsAnswer(t.action) && AnswersFor(st, t.action.caller, user) && Do(cfg, st, t).1 == Wrong
  }

  // ---------------------------------------------------------------- lockout

  ghost predicate RecordOk(l: Lockout, rec: Record)
  {
    0 <= rec.failed <= l.max && (rec.failed == l.max <==> rec.lock.Until?)
  }

  ghost predicate AllOk(l: Lockout, st: State)
  {
    forall u :: u in st.records ==> RecordOk(l, st.records[u])
  }

  predicate SameCount(a: Record, b: Record)
  {
    a.failed == b.failed && a.lock == b.lock
  }

  /** How one step may move a failure count, from record `a` to record `b`. */
  ghost predicate CountMoves(l: Lockout, a: Record, b: Record, now: int, wrong: bool, success: bool)
  {
    var (thawed, free) := Thaw(l, a, now);
    if wrong then free && SameCount(b, Fail(l, thawed, now))
    else SameCount(b, a) || (free && SameCount(b, thawed)) || (success && SameCount(b, Forgive(l, a)))
  }

  /** The record of the user before and after an answer with outcome `o`. */
  ghost predicate AnswerMovesCount(cfg: Config, st: State, st': State, caller: Caller, o: Outcome, now: int, user: string)
  {
    if user !in st.records then user !in st'.records && !(AnswersFor(st, caller, user) && o == Wrong)
    else
      && user in st'.records
      && CountMoves(cfg.lockout, st.records[user], st'.records[user], now,
                    AnswersFor(st, caller, user) && o == Wrong, o.Issued? && o.user == user)
  }

  lemma TotpMovesCount(cfg: Config, st: State, caller: Caller, check: Comparison, now: int, user: string)
    ensures var (st', o) := VerifyTotp(cfg, st, caller, check, now); AnswerMovesCount(cfg, st, st', caller, o, now, user)
  {
    var (st0, ch) := Resolve(st, caller, now);
    if ch.Awaiting? && ch.user in st0.records && st0.records[ch.user].verified {
      var (st1, admitted) := Admit(cfg, st0, ch.user, ch.id, now);
      assert admitted && check.Matches? ==> VerifyTotp(cfg, st, caller, check, now).1.Issued?;
    }
  }

  lemma OtpMovesCount(cfg: Config, st: State, caller: Caller, guess: string, now: int, user: string)
    ensures var (st', o) := VerifyOtp(cfg, st, caller, guess, now); AnswerMovesCount(cfg, st, st', caller, o, now, user)
  {
    var (st0, ch) := Resolve(st, caller, now);
    if ch.Awaiting? && ch.user in st0.records && Thaw(cfg.lockout, st0.records[ch.user], now).1 {
      var verdict := OneTimeCode.Check(OneTimeCode.SlotAt(st0.otps, ch.id), guess, cfg.allowed, true, now).0;
      assert guess != "" && verdict.Accepted? ==> VerifyOtp(cfg, st, caller, guess, now).1.Issued?;
    }
  }

  lemma BackupMovesCount(cfg: Config, st: State, caller: Caller, guess: string, now: int, user: string)
    ensures var (st', o) := VerifyBackupCode(cfg, st, caller, guess, now); AnswerMovesCount(cfg, st, st', caller, o, now, user)
  {
    var (st0, ch) := Resolve(st, caller, now);
    if ch.Awaiting? && ch.user in st0.records {
      var (st1, admitted) := Admit(cfg, st0, ch.user, ch.id, now);
      assert admitted && guess in st1.records[ch.user].codes ==> VerifyBackupCode(cfg, st, caller, guess, now).1.Issued?;
    }
  }

  lemma StepMovesCount(cfg: Config, st: State, t: Timed, user: string)
    requires !(t.action.Enroll? && t.action.user == user)
    ensures var (st', o) := Do(cfg, st, t);
            if user in st'.records then
              && user in st.records
              && CountMoves(cfg.lockout, st.records[user], st'.records[user], t.now,
                            WrongOnPending(cfg, st, t, user), o.Issued? && o.user == user)
            else !WrongOnPending(cfg, st, t, user)
  {
    match t.action
    case Totp(caller, check) => TotpMovesCount(cfg, st, caller, check, t.now, user);
    case Otp(caller, guess) => OtpMovesCount(cfg, st, caller, guess, t.now, user);
    case Backup(caller, guess) => BackupMovesCount(cfg, st, caller, guess, t.now, user);
    case _ =>
  }

  /** In every reachable state each record counts at most `max` failures, and
      exactly `max` when it is locked. */
  lemma CountsStayBounded(cfg: Config, st: State, t: Timed)
    requires AllOk(cfg.lockout, st) && cfg.lockout.max >= 1
    ensures AllOk(cfg.lockout, Do(cfg, st, t).0)
  {
    var st' := Do(cfg, st, t).0;
    forall u | u in st'.records ensures RecordOk(cfg.lockout, st'.records[u]) {
      if !(t.action.Enroll? && t.action.user == u) {
        StepMovesCount(cfg, st, t, u);
      }
    }
  }

  lemma {:induction false} CountsStayBoundedOverRuns(cfg: Config, st: State, run: seq<Timed>)
    requires AllOk(cfg.lockout, st) && cfg.lockout.max >= 1
    ensures AllOk(cfg.lockout, After(cfg, st, run))
    decreases run
  {
    if run != [] {
      CountsStayBounded(cfg, st, run[0]);
      CountsStayBoundedOverRuns(cfg, Do(cfg, st, run[0]).0, run[1..]);
    }
  }

  /** The times at which wrong codes were compared on pending challenges of the user. */
  ghost function Failures(cfg: Config, st: State, run: seq<Timed>, user: string): seq<int>
    decreases run
  {
    if run == [] then []
    else
      (if WrongOnPending(cfg, st, run[0], user) then [run[0].now] else [])
      + Failures(cfg, Do(cfg, st, run[0]).0, run[1..], user)
  }

  /** Along the run the user neither enrols anew nor completes a challenge. */
  ghost predicate NoFreshStart(cfg: Config, st: State, run: seq<Timed>, user: string)
    decreases run
  {
    run != [] ==>
      && !(run[0].action.Enroll? && run[0].action.user == user)
      && !(Do(cfg, st, run[0]).1.Issued? && Do(cfg, st, run[0]).1.user == user)
      && NoFreshStart(cfg, Do(cfg, st, run[0]).0, run[1..], user)
  }

  ghost predicate LogOk(l: Lockout, ts: seq<int>, clock: int)
  {
    l.max >= 1 && Nondecreasing(ts) && Spaced(ts, l.max, l.duration) && forall i :: 0 <= i < |ts| ==> ts[i] <= clock
  }

  /** The record remembers enough: before its last `failed` failures, and while it
      is locked even before the next one, lies a full lock. */
  ghost predicate Remembers(l: Lockout, rec: Record, ts: seq<int>, clock: int)
  {
    match rec.lock
    case Unlocked => 0 <= rec.failed < |ts| ==> ts[|ts| - rec.failed - 1] + l.duration <= clock
    case Until(time) => ts != [] ==> ts[|ts| - 1] + l.duration <= time
  }

  lemma ThawRemembers(l: Lockout, rec: Record, ts: seq<int>, clock: int, now: int)
    requires RecordOk(l, rec) && Remembers(l, rec, ts, clock) && clock <= now && l.enabled && l.max >= 1
    requires Thaw(l, rec, now).1
    ensures var thawed := Thaw(l, rec, now).0;
            thawed.lock.Unlocked? && 0 <= thawed.failed < l.max && Remembers(l, thawed, ts, now)
  {
  }

  lemma FailRemembers(l: Lockout, rec: Record, ts: seq<int>, clock: int, now: int)
    requires l.enabled && rec.lock.Unlocked? && 0 <= rec.failed < l.max
    requires LogOk(l, ts, clock) && clock <= now && Remembers(l, rec, ts, now)
    ensures LogOk(l, ts + [now], now) && Remembers(l, Fail(l, rec, now), ts + [now], now)
  {
    var longer := ts + [now];
    forall i, j | 0 <= i && i + l.max <= j < |longer| ensures longer[i] + l.duration <= longer[j] {
      if j == |ts| {
        assert ts[i] <= ts[|ts| - rec.failed - 1];
      }
    }
  }

  lemma FailuresUnfold(cfg: Config, st: State, run: seq<Timed>, user: string, ts: seq<int>)
    requires run != []
    ensures var here := if WrongOnPending(cfg, st, run[0], user) then [run[0].now] else [];
            ts + Failures(cfg, st, run, user) == (ts + here) + Failures(cfg, Do(cfg, st, run[0]).0, run[1..], user)
  {
  }

  lemma {:induction false} FailuresAreSpaced(cfg: Config, st: State, run: seq<Timed>, user: string, ts: seq<int>, clock: int)
    requires cfg.lockout.enabled && cfg.lockout.max >= 1 && AllOk(cfg.lockout, st)
    requires InOrder(run, clock) && NoFreshStart(cfg, st, run, user)
    requires LogOk(cfg.lockout, ts, clock)
    requires user in st.records ==> Remembers(cfg.lockout, st.records[user], ts, clock)
    ensures var all := ts + Failures(cfg, st, run, user);
            Nondecreasing(all) && Spaced(all, cfg.lockout.max, cfg.lockout.duration)
    decreases run
  {
    if run == [] {
      assert ts + Failures(cfg, st, run, user) == ts;
    } else {
      var t, st' := run[0], Do(cfg, st, run[0]).0;
      var ts' := FailuresStep(cfg, st, t, user, ts, clock);
      CountsStayBounded(cfg, st, t);
      assert InOrder(run[1..], t.now);
      FailuresAreSpaced(cfg, st', run[1..], user, ts', t.now);
      FailuresUnfold(cfg, st, run, user, ts);
    }
  }

  lemma FailuresStep(cfg: Config, st: State, t: Timed, user: string, ts: seq<int>, clock: int) returns (ts': seq<int>)
    requires cfg.lockout.enabled && AllOk(cfg.lockout, st) && clock <= t.now
    requires !(t.action.Enroll? && t.action.user == user)
    requires !(Do(cfg, st, t).1.Issued? && Do(cfg, st, t).1.user == user)
    requires LogOk(cfg.lockout, ts, clock)
    requires user in st.records ==> Remembers(cfg.lockout, st.records[user], ts, clock)
    ensures ts' == ts + if WrongOnPending(cfg, st, t, user) then [t.now] else []
    ensures LogOk(cfg.lockout, ts', t.now)
    ensures user in Do(cfg, st, t).0.records ==> Remembers(cfg.lockout, Do(cfg, st, t).0.records[user], ts', t.now)
  {
    var st' := Do(cfg, st, t).0;
    ts' := ts + [];
    assert ts' == ts;
    StepMovesCount(cfg, st, t, user);
    if user in st'.records {
      var rec := st.records[user];
      if Thaw(cfg.lockout, rec, t.now).1 {
        ThawRemembers(cfg.lockout, rec, ts, clock, t.now);
        if WrongOnPending(cfg, st, t, user) {
          FailRemembers(cfg.lockout, Thaw(cfg.lockout, rec, t.now).0, ts, clock, t.now);
          ts' := ts + [t.now];
        }
      }
    }
  }

  /** Across all challenges and all three kinds of code, a window of length `span`
      sees at most max * (span / duration + 1) wrong codes of a user who has no
      success and does not enrol anew. */
  lemma LockoutBound(cfg: Config, st: State, run: seq<Timed>, user: string, from: int, span: nat)
    requires cfg.lockout.enabled && cfg.lockout.max >= 1 && cfg.lockout.duration >= 1
    requires AllOk(cfg.lockout, st) && NoFreshStart(cfg, st, run, user)
    requires run != [] ==> InOrder(run, run[0].now)
    ensures CountWithin(Failures(cfg, st, run, user), from, from + span) <= Quota(cfg.lockout.max, cfg.lockout.duration, span)
  {
    var clock := if run == [] then 0 else run[0].now;
    FailuresAreSpaced(cfg, st, run, user, [], clock);
    var ts := Failures(cfg, st, run, user);
    assert [] + ts == ts;
    WindowBound(ts, cfg.lockout.max, cfg.lockout.duration, from, span);
  }

  // ------------------------------------------------------- one challenge

  /** The challenge `id`, if it is still there, is the one that began as `p`, with `n` tries used. */
  ghost predicate Standing(st: State, id: string, p: Pending, n: int)
  {
    id in st.pending ==>
      && st.pending[id] == p
      && id in st.attempts
      && st.attempts[id] == OneTimeCode.Verification(Itoa(n), p.expiresAt)
  }

  predicate AnswerTo(t: Timed, id: string)
  {
    IsAnswer(t.action) && t.action.caller == Cookie(id)
  }

  /** A wrong TOTP or backup code on the challenge. */
  predicate WrongTry(cfg: Config, st: State, t: Timed, id: string)
  {
    AnswerTo(t, id) && !t.action.Otp? && Do(cfg, st, t).1 == Wrong
  }

  predicate Completes(cfg: Config, st: State, t: Timed, id: string)
  {
    AnswerTo(t, id) && Do(cfg, st, t).1.Issued?
  }

  ghost function WrongTries(cfg: Config, st: State, run: seq<Timed>, id: string): nat
    decreases run
  {
    if run == [] then 0
    else
      (if WrongTry(cfg, st, run[0], id) then 1 else 0) + WrongTries(cfg, Do(cfg, st, run[0]).0, run[1..], id)
  }

  ghost function Completions(cfg: Config, st: State, run: seq<Timed>, id: string): nat
    decreases run
  {
    if run == [] then 0
    else
      (if Completes(cfg, st, run[0], id) then 1 else 0) + Completions(cfg, Do(cfg, st, run[0]).0, run[1..], id)
  }

  /** Every completion in the run is in time and for the user, and with the choice,
      that the challenge was made for. */
  ghost predicate CompletedProperly(cfg: Config, st: State, run: seq<Timed>, id: string, p: Pending)
    decreases run
  {
    run != [] ==>
      && (Completes(cfg, st, run[0], id) ==>
            run[0].now <= p.expiresAt && Do(cfg, st, run[0]).1 == Issued(p.user, p.remember))
      && CompletedProperly(cfg, Do(cfg, st, run[0]).0, run[1..], id, p)
  }

  ghost predicate NeverBegun(run: seq<Timed>, id: string)
  {
    forall i :: 0 <= i < |run| ==> !(run[i].action.Begin? && run[i].action.id == id)
  }

  /** How an answer may move the challenge. */
  ghost predicate ChallengeMoves(cfg: Config, st: State, t: Timed, id: string, p: Pending, n: nat)
  {
    var (st', o) := Do(cfg, st, t);
    && Standing(st', id, p, if WrongTry(cfg, st, t, id) then n + 1 else n)
    && (WrongTry(cfg, st, t, id) ==> id in st.pending && n < cfg.allowed)
    && (o.Issued? ==> id in st.pending && id !in st'.pending && t.now <= p.expiresAt && o == Issued(p.user, p.remember))
    && (id in st'.pending ==> id in st.pending)
  }

  lemma TotpMovesChallenge(cfg: Config, st: State, t: Timed, id: string, p: Pending, n: nat)
    requires Standing(st, id, p, n) && IsInt64(n) && AnswerTo(t, id) && t.action.Totp?
    ensures ChallengeMoves(cfg, st, t, id, p, n)
  {
    AtoiItoa(n);
    var (caller, check, now) := (t.action.caller, t.action.check, t.now);
    var (st0, ch) := Resolve(st, caller, now);
    if ch.Awaiting? && ch.user in st0.records && st0.records[ch.user].verified {
      var (st1, admitted) := Admit(cfg, st0, ch.user, ch.id, now);
      assert admitted && check.Matches? ==> VerifyTotp(cfg, st, caller, check, now).1.Issued?;
    }
  }

  lemma OtpMovesChallenge(cfg: Config, st: State, t: Timed, id: string, p: Pending, n: nat)
    requires Standing(st, id, p, n) && AnswerTo(t, id) && t.action.Otp?
    ensures ChallengeMoves(cfg, st, t, id, p, n)
  {
  }

  lemma BackupMovesChallenge(cfg: Config, st: State, t: Timed, id: string, p: Pending, n: nat)
    requires Standing(st, id, p, n) && IsInt64(n) && AnswerTo(t, id) && t.action.Backup?
    ensures ChallengeMoves(cfg, st, t, id, p, n)
  {
    AtoiItoa(n);
    var (caller, guess, now) := (t.action.caller, t.action.guess, t.now);
    var (st0, ch) := Resolve(st, caller, now);
    if ch.Awaiting? && ch.user in st0.records {
      var (st1, admitted) := Admit(cfg, st0, ch.user, ch.id, now);
      assert admitted && guess in st1.records[ch.user].codes ==> VerifyBackupCode(cfg, st, caller, guess, now).1.Issued?;
    }
  }

  lemma AnswerMovesChallenge(cfg: Config, st: State, t: Timed, id: string, p: Pending, n: nat)
    requires Standing(st, id, p, n) && IsInt64(n) && AnswerTo(t, id)
    ensures ChallengeMoves(cfg, st, t, id, p, n)
  {
    match t.action
    case Totp(_, _) => TotpMovesChallenge(cfg, st, t, id, p, n);
    case Otp(_, _) => OtpMovesChallenge(cfg, st, t, id, p, n);
    case Backup(_, _) => BackupMovesChallenge(cfg, st, t, id, p, n);
  }

  /** The row of the challenge and its tries are as before, or the challenge is gone. */
  predicate SameChallenge(a: State, b: State, id: string)
  {
    id in b.pending ==>
      && id in a.pending && b.pending[id] == a.pending[id]
      && (id in a.attempts ==> id in b.attempts && b.attempts[id] == a.attempts[id])
  }

  lemma TotpKeepsOthers(cfg: Config, st: State, caller: Caller, check: Comparison, now: int, id: string)
    requires caller != Cookie(id)
    ensures SameChallenge(st, VerifyTotp(cfg, st, caller, check, now).0, id)
  {
    var (st0, ch) := Resolve(st, caller, now);
    if ch.Awaiting? && ch.user in st0.records && st0.records[ch.user].verified {
      var (st1, admitted) := Admit(cfg, st0, ch.user, ch.id, now);
      assert admitted && check.Matches? ==> VerifyTotp(cfg, st, caller, check, now).1.Issued?;
    }
  }

  lemma OtpKeepsOthers(cfg: Config, st: State, caller: Caller, guess: string, now: int, id: string)
    requires caller != Cookie(id)
    ensures SameChallenge(st, VerifyOtp(cfg, st, caller, guess, now).0, id)
  {
    var (st0, ch) := Resolve(st, caller, now);
    if ch.Awaiting? && ch.user in st0.records && Thaw(cfg.lockout, st0.records[ch.user], now).1 {
      var verdict := OneTimeCode.Check(OneTimeCode.SlotAt(st0.otps, ch.id), guess, cfg.allowed, true, now).0;
      assert guess != "" && verdict.Accepted? ==> VerifyOtp(cfg, st, caller, guess, now).1.Issued?;
    }
  }

  lemma BackupKeepsOthers(cfg: Config, st: State, caller: Caller, guess: string, now: int, id: string)
    requires caller != Cookie(id)
    ensures SameChallenge(st, VerifyBackupCode(cfg, st, caller, guess, now).0, id)
  {
    var (st0, ch) := Resolve(st, caller, now);
    if ch.Awaiting? && ch.user in st0.records {
      var (st1, admitted) := Admit(cfg, st0, ch.user, ch.id, now);
      assert admitted && guess in st1.records[ch.user].codes ==> VerifyBackupCode(cfg, st, caller, guess, now).1.Issued?;
    }
  }

  lemma OthersKeepChallenge(cfg: Config, st: State, t: Timed, id: string)
    requires !AnswerTo(t, id) && !(t.action.Begin? && t.action.id == id)
    ensures SameChallenge(st, Do(cfg, st, t).0, id)
  {
    match t.action
    case Totp(caller, check) => TotpKeepsOthers(cfg, st, caller, check, t.now, id);
    case Otp(caller, guess) => OtpKeepsOthers(cfg, st, caller, guess, t.now, id);
    case Backup(caller, guess) => BackupKeepsOthers(cfg, st, caller, guess, t.now, id);
    case _ =>
  }

  lemma {:induction false} LifeOfAChallenge(cfg: Config, st: State, run: seq<Timed>, id: string, p: Pending, n: nat)
    requires Standing(st, id, p, n) && IsInt64(cfg.allowed) && IsInt64(n) && NeverBegun(run, id)
    requires n <= cfg.allowed || n == 0
    ensures WrongTries(cfg, st, run, id) <= if id in st.pending && n < cfg.allowed then cfg.allowed - n else 0
    ensures Completions(cfg, st, run, id) <= if id in st.pending then 1 else 0
    ensures CompletedProperly(cfg, st, run, id, p)
    decreases run
  {
    if run != [] {
      var t, st' := run[0], Do(cfg, st, run[0]).0;
      if AnswerTo(t, id) {
        AnswerMovesChallenge(cfg, st, t, id, p, n);
        var n' := if WrongTry(cfg, st, t, id) then n + 1 else n;
        LifeOfAChallenge(cfg, st', run[1..], id, p, n');
      } else {
        OthersKeepChallenge(cfg, st, t, id);
        LifeOfAChallenge(cfg, st', run[1..], id, p, n);
      }
    }
  }

  /** Of one challenge: at most `allowed` wrong TOTP or backup codes, at most one
      completion, and that one in time, for the user it was made for. */
  lemma ChallengeSafety(cfg: Config, st: State, run: seq<Timed>, user: string, remember: bool, id: string, startedAt: int)
    requires IsInt64(cfg.allowed) && NeverBegun(run, id)
    ensures var begun := Do(cfg, st, Timed(startedAt, Begin(user, remember, id))).0;
            && WrongTries(cfg, begun, run, id) <= (if cfg.allowed > 0 then cfg.allowed else 0)
            && Completions(cfg, begun, run, id) <= 1
            && CompletedProperly(cfg, begun, run, id, Pending(user, remember, startedAt + CHALLENGE_EXPIRES))
  {
    var begun := Do(cfg, st, Timed(startedAt, Begin(user, remember, id))).0;
    LifeOfAChallenge(cfg, begun, run, id, Pending(user, remember, startedAt + CHALLENGE_EXPIRES), 0);
  }

  /** A challenge that was cancelled, completed or found expired is over for good. */
  lemma GoneChallengeStaysGone(cfg: Config, st: State, run: seq<Timed>, id: string)
    requires id !in st.pending && IsInt64(cfg.allowed) && NeverBegun(run, id)
    ensures WrongTries(cfg, st, run, id) == 0 && Completions(cfg, st, run, id) == 0
  {
    LifeOfAChallenge(cfg, st, run, id, Pending("", false, 0), 0);
  }

  // ------------------------------------------------------- one sent code

  /** A guess was compared with the code sent under `key`. */
  predicate Compared(cfg: Config, st: State, t: Timed, key: string)
  {
    t.action.Otp? && t.action.guess != "" &&
    var ch := Resolve(st, t.action.caller, t.now).1;
    && !ch.Nobody? && ChallengeKey(ch) == key
    && (ch.Awaiting? ==> ch.user in st.records && Thaw(cfg.lockout, st.records[ch.user], t.now).1)
  }

  predicate Resent(st: State, t: Timed, key: string)
  {
    t.action.Send? &&
    var ch := Resolve(st, t.action.caller, t.now).1;
    !ch.Nobody? && ChallengeKey(ch) == key
  }

  ghost predicate NeverResent(cfg: Config, st: State, run: seq<Timed>, key: string)
    decreases run
  {
    run != [] ==> !Resent(st, run[0], key) && NeverResent(cfg, Do(cfg, st, run[0]).0, run[1..], key)
  }

  /** On the row of `key` the step is a step of the one-time-code protocol. */
  ghost predicate CodeMoves(cfg: Config, st: State, t: Timed, key: string, c: OneTimeCode.Code)
  {
    var (st', o) := Do(cfg, st, t);
    if Compared(cfg, st, t, key) then
      var (verdict, c') := OneTimeCode.CheckRecord(c, t.action.guess, cfg.allowed, true, t.now);
      && OneTimeCode.Represents(OneTimeCode.SlotAt(st'.otps, key), c')
      && (o == Wrong <==> verdict.Mismatch?)
      && (o.Passed? || o.Issued? <==> verdict.Accepted?)
    else OneTimeCode.Represents(OneTimeCode.SlotAt(st'.otps, key), c)
  }

  /** What the handler does with the row it compares with, apart from the record. */
  lemma ComparisonIsCheck(cfg: Config, st: State, caller: Caller, guess: string, now: int)
    requires var ch := Resolve(st, caller, now).1;
             && guess != "" && !ch.Nobody?
             && (ch.Awaiting? ==> ch.user in st.records && Thaw(cfg.lockout, st.records[ch.user], now).1)
    ensures var key, (st', o) := ChallengeKey(Resolve(st, caller, now).1), VerifyOtp(cfg, st, caller, guess, now);
            var (verdict, slot) := OneTimeCode.Check(OneTimeCode.SlotAt(st.otps, key), guess, cfg.allowed, true, now);
            && st'.otps == OneTimeCode.Put(st.otps, key, slot)
            && (o == Wrong <==> verdict.Mismatch?)
            && (o.Passed? || o.Issued? <==> verdict.Accepted?)
  {
  }

  lemma TotpKeepsOtps(cfg: Config, st: State, caller: Caller, check: Comparison, now: int)
    ensures VerifyTotp(cfg, st, caller, check, now).0.otps == st.otps
  {
    var (st0, ch) := Resolve(st, caller, now);
    if ch.Awaiting? && ch.user in st0.records && st0.records[ch.user].verified {
      var (st1, admitted) := Admit(cfg, st0, ch.user, ch.id, now);
      assert admitted && check.Matches? ==> VerifyTotp(cfg, st, caller, check, now).1.Issued?;
    }
  }

  lemma BackupKeepsOtps(cfg: Config, st: State, caller: Caller, guess: string, now: int)
    ensures VerifyBackupCode(cfg, st, caller, guess, now).0.otps == st.otps
  {
    var (st0, ch) := Resolve(st, caller, now);
    if ch.Awaiting? && ch.user in st0.records {
      var (st1, admitted) := Admit(cfg, st0, ch.user, ch.id, now);
      assert admitted && guess in st1.records[ch.user].codes ==> VerifyBackupCode(cfg, st, caller, guess, now).1.Issued?;
    }
  }

  lemma OtpKeepsOtps(cfg: Config, st: State, caller: Caller, guess: string, now: int, key: string)
    requires !Compared(cfg, st, Timed(now, Otp(caller, guess)), key)
    ensures OneTimeCode.SlotAt(VerifyOtp(cfg, st, caller, guess, now).0.otps, key) == OneTimeCode.SlotAt(st.otps, key)
  {
    var (st0, ch) := Resolve(st, caller, now);
    if ch.Awaiting? && ch.user in st0.records && Thaw(cfg.lockout, st0.records[ch.user], now).1 {
      var verdict := OneTimeCode.Check(OneTimeCode.SlotAt(st0.otps, ch.id), guess, cfg.allowed, true, now).0;
      assert guess != "" && verdict.Accepted? ==> VerifyOtp(cfg, st, caller, guess, now).1.Issued?;
    }
  }

  lemma OtherStepsKeepCode(cfg: Config, st: State, t: Timed, key: string)
    requires !Compared(cfg, st, t, key) && !Resent(st, t, key)
    ensures OneTimeCode.SlotAt(Do(cfg, st, t).0.otps, key) == OneTimeCode.SlotAt(st.otps, key)
  {
    match t.action
    case Totp(caller, check) => TotpKeepsOtps(cfg, st, caller, check, t.now);
    case Backup(caller, guess) => BackupKeepsOtps(cfg, st, caller, guess, t.now);
    case Otp(caller, guess) => OtpKeepsOtps(cfg, st, caller, guess, t.now, key);
    case _ =>
  }

  lemma CodeRowMoves(cfg: Config, st: State, t: Timed, key: string, c: OneTimeCode.Code)
    requires OneTimeCode.Represents(OneTimeCode.SlotAt(st.otps, key), c) && !Resent(st, t, key) && IsInt64(cfg.allowed)
    ensures CodeMoves(cfg, st, t, key, c)
  {
    if Compared(cfg, st, t, key) {
      ComparisonIsCheck(cfg, st, t.action.caller, t.action.guess, t.now);
      OneTimeCode.CheckRefines(OneTimeCode.SlotAt(st.otps, key), c, t.action.guess, cfg.allowed, true, t.now);
    } else {
      OtherStepsKeepCode(cfg, st, t, key);
    }
  }

  ghost function WrongCodes(cfg: Config, st: State, run: seq<Timed>, key: string): nat
    decreases run
  {
    if run == [] then 0
    else
      (if Compared(cfg, st, run[0], key) && Do(cfg, st, run[0]).1 == Wrong then 1 else 0)
      + WrongCodes(cfg, Do(cfg, st, run[0]).0, run[1..], key)
  }

  predicate CodeAccepted(cfg: Config, st: State, t: Timed, key: string)
  {
    Compared(cfg, st, t, key) && (Do(cfg, st, t).1.Passed? || Do(cfg, st, t).1.Issued?)
  }

  ghost function Acceptances(cfg: Config, st: State, run: seq<Timed>, key: string): nat
    decreases run
  {
    if run == [] then 0
    else
      (if CodeAccepted(cfg, st, run[0], key) then 1 else 0) + Acceptances(cfg, Do(cfg, st, run[0]).0, run[1..], key)
  }

  /** Only the code that was sent is accepted, and only in time. */
  ghost predicate AcceptedProperly(cfg: Config, st: State, run: seq<Timed>, key: string, code: string, expiresAt: int)
    decreases run
  {
    run != [] ==>
      && (CodeAccepted(cfg, st, run[0], key) ==> run[0].now <= expiresAt && run[0].action.guess == code)
      && AcceptedProperly(cfg, Do(cfg, st, run[0]).0, run[1..], key, code, expiresAt)
  }

  lemma {:induction false} LifeOfASentCode(cfg: Config, st: State, run: seq<Timed>, key: string, c: OneTimeCode.Code, code: string, expiresAt: int)
    requires OneTimeCode.Represents(OneTimeCode.SlotAt(st.otps, key), c) && IsInt64(cfg.allowed)
    requires NeverResent(cfg, st, run, key)
    requires c.Live? ==> c.code == code && c.expiresAt == expiresAt
    ensures WrongCodes(cfg, st, run, key) <= if c.Live? && c.tries < cfg.allowed then cfg.allowed - c.tries else 0
    ensures Acceptances(cfg, st, run, key) <= if c.Live? then 1 else 0
    ensures AcceptedProperly(cfg, st, run, key, code, expiresAt)
    decreases run
  {
    if run != [] {
      var t, st' := run[0], Do(cfg, st, run[0]).0;
      CodeRowMoves(cfg, st, t, key, c);
      var c' := if Compared(cfg, st, t, key) then OneTimeCode.CheckRecord(c, t.action.guess, cfg.allowed, true, t.now).1 else c;
      LifeOfASentCode(cfg, st', run[1..], key, c', code, expiresAt);
    }
  }

  /** Of one code sent to a session or a challenge: at most `allowed` wrong guesses,
      at most one acceptance, none late and none of another code. */
  lemma SentCodeSafety(cfg: Config, st: State, run: seq<Timed>, caller: Caller, code: string, sentAt: int)
    requires ':' !in code && IsInt64(cfg.allowed) && !Resolve(st, caller, sentAt).1.Nobody?
    requires NeverResent(cfg, SendOtp(cfg, st, caller, code, sentAt), run, ChallengeKey(Resolve(st, caller, sentAt).1))
    ensures var sent, key := SendOtp(cfg, st, caller, code, sentAt), ChallengeKey(Resolve(st, caller, sentAt).1);
            && WrongCodes(cfg, sent, run, key) <= (if cfg.allowed > 0 then cfg.allowed else 0)
            && Acceptances(cfg, sent, run, key) <= 1
            && AcceptedProperly(cfg, sent, run, key, code, sentAt + cfg.otpExpires)
  {
    var sent, key := SendOtp(cfg, st, caller, code, sentAt), ChallengeKey(Resolve(st, caller, sentAt).1);
    var live := OneTimeCode.Live(code, 0, sentAt + cfg.otpExpires);
    LifeOfASentCode(cfg, sent, run, key, live, code, sentAt + cfg.otpExpires);
  }

  // ------------------------------------------------------- backup codes

  /** The backup code of the user that the step accepted, if it did. */
  function Used(cfg: Config, st: State, t: Timed, user: string): (codes: multiset<string>)
  {
    if t.action.Backup? && (Do(cfg, st, t).1.Passed? || Do(cfg, st, t).1.Issued?)
       && Resolve(st, t.action.caller, t.now).1.user == user then
      multiset{t.action.guess}
    else multiset{}
  }

  ghost function AllUsed(cfg: Config, st: State, run: seq<Timed>, user: string): multiset<string>
    decreases run
  {
    if run == [] then multiset{} else Used(cfg, st, run[0], user) + AllUsed(cfg, Do(cfg, st, run[0]).0, run[1..], user)
  }

  ghost predicate CodesNotReplaced(run: seq<Timed>, user: string)
  {
    forall i :: 0 <= i < |run| ==>
      !((run[i].action.Enroll? || run[i].action.Leave? || run[i].action.Renew?) && run[i].action.user == user)
  }

  ghost predicate CodesMove(cfg: Config, st: State, t: Timed, user: string)
    requires user in st.records
  {
    var st' := Do(cfg, st, t).0;
    && user in st'.records
    && Used(cfg, st, t, user) + multiset(st'.records[user].codes) == multiset(st.records[user].codes)
  }

  /** Every record is still there with the same codes. */
  predicate SameCodes(a: State, b: State, user: string)
  {
    user in a.records ==> user in b.records && b.records[user].codes == a.records[user].codes
  }

  lemma TotpKeepsCodes(cfg: Config, st: State, caller: Caller, check: Comparison, now: int, user: string)
    ensures SameCodes(st, VerifyTotp(cfg, st, caller, check, now).0, user)
  {
    var (st0, ch) := Resolve(st, caller, now);
    if ch.Awaiting? && ch.user in st0.records && st0.records[ch.user].verified {
      var (st1, admitted) := Admit(cfg, st0, ch.user, ch.id, now);
      assert admitted && check.Matches? ==> VerifyTotp(cfg, st, caller, check, now).1.Issued?;
    }
  }

  lemma OtpKeepsCodes(cfg: Config, st: State, caller: Caller, guess: string, now: int, user: string)
    ensures SameCodes(st, VerifyOtp(cfg, st, caller, guess, now).0, user)
  {
    var (st0, ch) := Resolve(st, caller, now);
    if ch.Awaiting? && ch.user in st0.records && Thaw(cfg.lockout, st0.records[ch.user], now).1 {
      var verdict := OneTimeCode.Check(OneTimeCode.SlotAt(st0.otps, ch.id), guess, cfg.allowed, true, now).0;
      assert guess != "" && verdict.Accepted? ==> VerifyOtp(cfg, st, caller, guess, now).1.Issued?;
    }
  }

  /** The codes after a backup-code request, for the user it is about and for others. */
  lemma BackupTakesCode(cfg: Config, st: State, caller: Caller, guess: string, now: int, user: string)
    requires user in st.records
    ensures var (st', o) := VerifyBackupCode(cfg, st, caller, guess, now);
            && user in st'.records
            && if (o.Passed? || o.Issued?) && Resolve(st, caller, now).1.user == user then
                 guess in st.records[user].codes && st'.records[user].codes == WithoutFirst(st.records[user].codes, guess)
               else st'.records[user].codes == st.records[user].codes
  {
    var (st0, ch) := Resolve(st, caller, now);
    if !ch.Nobody? && ch.user in st0.records {
      if ch.Awaiting? {
        var (st1, admitted) := Admit(cfg, st0, ch.user, ch.id, now);
        assert user in st1.records && st1.records[user].codes == st.records[user].codes;
        if admitted && guess in st1.records[ch.user].codes {
          assert VerifyBackupCode(cfg, st, caller, guess, now).1.Issued?;
        }
      }
    }
  }

  lemma OthersKeepCodes(cfg: Config, st: State, t: Timed, user: string)
    requires !IsAnswer(t.action) && user in st.records
    requires !((t.action.Enroll? || t.action.Leave? || t.action.Renew?) && t.action.user == user)
    ensures CodesMove(cfg, st, t, user)
  {
    assert SameCodes(st, Do(cfg, st, t).0, user);
  }

  lemma StepUsesCodes(cfg: Config, st: State, t: Timed, user: string)
    requires CodesNotReplaced([t], user) && user in st.records
    ensures CodesMove(cfg, st, t, user)
  {
    assert t == [t][0];
    if !IsAnswer(t.action) {
      OthersKeepCodes(cfg, st, t, user);
      return;
    }
    match t.action
    case Totp(caller, check) => TotpKeepsCodes(cfg, st, caller, check, t.now, user);
    case Otp(caller, guess) => OtpKeepsCodes(cfg, st, caller, guess, t.now, user);
    case Backup(caller, guess) => BackupTakesCode(cfg, st, caller, guess, t.now, user);
    case _ =>
  }

  /** Until codes are generated anew, the accepted and the remaining backup codes
      are together exactly the ones the user started with. */
  lemma {:induction false} BackupCodesConserved(cfg: Config, st: State, run: seq<Timed>, user: string)
    requires CodesNotReplaced(run, user) && user in st.records
    ensures user in After(cfg, st, run).records
    ensures AllUsed(cfg, st, run, user) + multiset(After(cfg, st, run).records[user].codes) == multiset(st.records[user].codes)
    decreases run
  {
    if run != [] {
      StepUsesCodes(cfg, st, run[0], user);
      BackupCodesConserved(cfg, Do(cfg, st, run[0]).0, run[1..], user);
    }
  }

}
