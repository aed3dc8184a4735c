/** What the second factor demands and what it leaves behind: the answers of the handlers
    in terms of the rows, the code that comes in and the time. */
module TwoFactorAnswers {
  import opened Common
  import opened Decimal
  import opened TwoFactor
  import OneTimeCode

  /** The challenge is pending for the user, in time, and the user exists. */
  predicate Open(st: State, id: string, user: string, now: int)
  {
    id in st.pending && st.pending[id].user == user && now <= st.pending[id].expiresAt && user in st.users
  }

  /** No lock of the account is in force. */
  predicate NotLocked(l: Lockout, rec: Record, now: int)
  {
    l.enabled && rec.lock.Until? ==> rec.lock.time <= now
  }

  /** The challenge has used `n` of its tries, in time and readably, and may use another. */
  predicate HasTry(st: State, id: string, allowed: int, now: int, n: int)
  {
    && id in st.attempts && now <= st.attempts[id].expiresAt
    && Atoi(st.attempts[id].value) == Number(n) && 0 <= n < allowed
  }

  /** How many failures count at `now`: none from before a lock that is over. */
  function CountedFailures(l: Lockout, rec: Record, now: int): int
  {
    if l.enabled && rec.lock.Until? && rec.lock.time <= now then 0 else rec.failed
  }

  /** The record with this count of failures and this lock, if failures are counted. */
  function Recount(l: Lockout, rec: Record, failed: int, lock: Lock): Record
  {
    if l.enabled then Record(rec.secret, rec.codes, rec.verified, failed, lock) else rec
  }

  /** The record after one more failure. */
  function Failed(l: Lockout, rec: Record, now: int): Record
  {
    var n := CountedFailures(l, rec, now) + 1;
    Recount(l, rec, n, if n < l.max then Unlocked else Until(now + l.duration))
  }

  /** The record when an answer is looked at but not compared: a lock that is over is lifted. */
  function Lifted(l: Lockout, rec: Record, now: int): Record
  {
    if l.enabled && rec.lock.Until? && rec.lock.time <= now then Recount(l, rec, 0, Unlocked) else rec
  }

  /** All that an answer with a TOTP or a backup code needs besides the code itself. */
  predicate MayAnswer(cfg: Config, st: State, id: string, user: string, now: int, n: int)
  {
    && Open(st, id, user, now) && user in st.records && NotLocked(cfg.lockout, st.records[user], now)
    && HasTry(st, id, cfg.allowed, now, n)
  }

  /** The challenge is over and its session is issued. */
  function Completed(st: State, id: string, user: string, rec: Record): State
  {
    State(st.users, st.pending - {id}, st.attempts - {id}, st.otps, st.records[user := rec])
  }

  /** One more try of the challenge and one more failure of the account. */
  function Counted(cfg: Config, st: State, id: string, user: string, now: int, n: int): State
    requires id in st.attempts && user in st.records
  {
    State(st.users, st.pending, st.attempts[id := OneTimeCode.Verification(Itoa(n + 1), st.attempts[id].expiresAt)], st.otps,
          st.records[user := Failed(cfg.lockout, st.records[user], now)])
  }

  lemma PutTwice<V>(m: map<string, V>, k: string, a: V, b: V)
    ensures m[k := a][k := b] == m[k := b]
  {
  }

  /** The two writes that an answer may make to the record come to one. */
  lemma RecordWrites(cfg: Config, st: State, user: string, now: int, b: Record)
    requires user in st.records
    ensures WithRecord(WithRecord(st, user, Thaw(cfg.lockout, st.records[user], now).0), user, b) == WithRecord(st, user, b)
  {
    PutTwice(st.records, user, Thaw(cfg.lockout, st.records[user], now).0, b);
  }

  /** What the admitted answer finds: the challenge, and the account with an old lock lifted. */
  lemma AdmittedAnswer(cfg: Config, st: State, id: string, user: string, now: int, n: int)
    requires MayAnswer(cfg, st, id, user, now, n)
    ensures Resolve(st, Cookie(id), now) == (st, Awaiting(user, id, st.pending[id].remember))
    ensures Admit(cfg, st, user, id, now) == (WithRecord(st, user, Lifted(cfg.lockout, st.records[user], now)), true)
    ensures Thaw(cfg.lockout, st.records[user], now) == (Lifted(cfg.lockout, st.records[user], now), true)
  {
  }

  lemma CountedOnce(cfg: Config, st: State, id: string, user: string, now: int, n: int)
    requires MayAnswer(cfg, st, id, user, now, n)
    ensures CountFailure(cfg, WithRecord(st, user, Lifted(cfg.lockout, st.records[user], now)), user, id, now) ==
            Counted(cfg, st, id, user, now, n)
  {
    var lifted := Lifted(cfg.lockout, st.records[user], now);
    PutTwice(st.records, user, lifted, Fail(cfg.lockout, lifted, now));
  }

  // -------------------------------------------------------- TOTP

  /** A pending challenge that may be answered: a matching code, and it alone, issues the
      session and ends the challenge; a differing one costs a try and counts as a failure;
      and a comparison that fails costs nothing. */
  lemma TotpAnswers(cfg: Config, st: State, id: string, check: Comparison, now: int, user: string, n: int)
    requires MayAnswer(cfg, st, id, user, now, n) && st.records[user].verified
    ensures var rec, remember := st.records[user], st.pending[id].remember;
            VerifyTotp(cfg, st, Cookie(id), check, now) ==
            match check
            case Matches => (Completed(st, id, user, Recount(cfg.lockout, rec, 0, Unlocked)), Issued(user, remember))
            case Differs => (Counted(cfg, st, id, user, now, n), Wrong)
            case Fails => (st.(records := st.records[user := Lifted(cfg.lockout, rec, now)]), Refused)
  {
    var lifted := Lifted(cfg.lockout, st.records[user], now);
    AdmittedAnswer(cfg, st, id, user, now, n);
    CountedOnce(cfg, st, id, user, now, n);
    PutTwice(st.records, user, lifted, Forgive(cfg.lockout, lifted));
  }

  /** Nothing else is ever compared on a challenge: without any one of these conditions the
      answer is refused, whatever the code. */
  lemma TotpRefuses(cfg: Config, st: State, id: string, check: Comparison, now: int)
    requires forall user, n :: !(MayAnswer(cfg, st, id, user, now, n) && st.records[user].verified)
    ensures VerifyTotp(cfg, st, Cookie(id), check, now).1 == Refused
  {
    if id in st.pending && AttemptAvailable(st, id, cfg.allowed, now) {
      var user, n := st.pending[id].user, Atoi(st.attempts[id].value).value;
      assert !(MayAnswer(cfg, st, id, user, now, n) && st.records[user].verified);
    }
  }

  /** Whatever is answered to a challenge that is over removes what is left of it. */
  lemma DeadChallengeGoes(cfg: Config, st: State, id: string, check: Comparison, guess: string, now: int)
    requires forall user :: !Open(st, id, user, now)
    ensures VerifyTotp(cfg, st, Cookie(id), check, now) == (st.(pending := st.pending - {id}), Refused)
    ensures VerifyBackupCode(cfg, st, Cookie(id), guess, now) == (st.(pending := st.pending - {id}), Refused)
  {
    if id in st.pending {
      assert !Open(st, id, st.pending[id].user, now);
    }
  }

  /** While the account is locked nothing is compared and nothing changes. */
  lemma LockedIsUntouched(cfg: Config, st: State, id: string, user: string, check: Comparison, guess: string, now: int)
    requires Open(st, id, user, now) && user in st.records && !NotLocked(cfg.lockout, st.records[user], now)
    ensures VerifyTotp(cfg, st, Cookie(id), check, now) == (st, Refused)
    ensures VerifyBackupCode(cfg, st, Cookie(id), guess, now) == (st, Refused)
    ensures VerifyOtp(cfg, st, Cookie(id), guess, now) == (st, Refused)
  {
    assert st.records[user := st.records[user]] == st.records;
  }

  lemma AvailableMeansTry(st: State, id: string, allowed: int, now: int)
    ensures AttemptAvailable(st, id, allowed, now) <==> exists n :: HasTry(st, id, allowed, now, n)
  {
    if AttemptAvailable(st, id, allowed, now) {
      assert HasTry(st, id, allowed, now, Atoi(st.attempts[id].value).value);
    }
  }

  /** A challenge without tries left is cancelled by the next answer. */
  lemma ExhaustedGoes(cfg: Config, st: State, id: string, user: string, check: Comparison, guess: string, now: int)
    requires Open(st, id, user, now) && user in st.records && NotLocked(cfg.lockout, st.records[user], now)
    requires forall n :: !HasTry(st, id, cfg.allowed, now, n)
    ensures var st' := State(st.users, st.pending - {id}, st.attempts - {id}, st.otps,
                             st.records[user := Lifted(cfg.lockout, st.records[user], now)]);
            && VerifyBackupCode(cfg, st, Cookie(id), guess, now) == (st', Refused)
            && (st.records[user].verified ==> VerifyTotp(cfg, st, Cookie(id), check, now) == (st', Refused))
  {
    AvailableMeansTry(st, id, cfg.allowed, now);
  }

  /** A signed-in caller passes with a matching code and no other, and a match is all that
      ever confirms the second factor. */
  lemma TotpOfSignedIn(cfg: Config, st: State, user: string, session: string, check: Comparison, now: int)
    ensures var (st', o) := VerifyTotp(cfg, st, SignedIn(user, session), check, now);
            && (o == Passed <==> user in st.records && check == Matches)
            && (o == Wrong <==> user in st.records && check == Differs)
            && (o == Refused <==> user !in st.records || check == Fails)
            && st' == if o == Passed then st.(records := st.records[user := st.records[user].(verified := true)]) else st
  {
  }

  lemma StrangersAreRefused(cfg: Config, st: State, check: Comparison, guess: string, code: string, now: int)
    ensures VerifyTotp(cfg, st, Anonymous, check, now) == (st, Refused)
    ensures VerifyBackupCode(cfg, st, Anonymous, guess, now) == (st, Refused)
    ensures VerifyOtp(cfg, st, Anonymous, guess, now) == (st, Refused)
    ensures SendOtp(cfg, st, Anonymous, code, now) == st
  {
  }

  // -------------------------------------------------------- backup codes

  /** The same for backup codes: one of the user's codes issues the session and is used up,
      any other text costs a try and counts as a failure. */
  lemma BackupCodeAnswers(cfg: Config, st: State, id: string, guess: string, now: int, user: string, n: int)
    requires MayAnswer(cfg, st, id, user, now, n)
    ensures var rec, remember := st.records[user], st.pending[id].remember;
            VerifyBackupCode(cfg, st, Cookie(id), guess, now) ==
            if guess in rec.codes then
              (Completed(st, id, user, Recount(cfg.lockout, rec, 0, Unlocked).(codes := WithoutFirst(rec.codes, guess))), Issued(user, remember))
            else (Counted(cfg, st, id, user, now, n), Wrong)
  {
    var lifted := Lifted(cfg.lockout, st.records[user], now);
    AdmittedAnswer(cfg, st, id, user, now, n);
    CountedOnce(cfg, st, id, user, now, n);
    PutTwice(st.records, user, lifted, Spend(Forgive(cfg.lockout, lifted), guess));
  }

  lemma BackupCodeRefuses(cfg: Config, st: State, id: string, guess: string, now: int)
    requires forall user, n :: !MayAnswer(cfg, st, id, user, now, n)
    ensures VerifyBackupCode(cfg, st, Cookie(id), guess, now).1 == Refused
  {
    if id in st.pending && AttemptAvailable(st, id, cfg.allowed, now) {
      assert !MayAnswer(cfg, st, id, st.pending[id].user, now, Atoi(st.attempts[id].value).value);
    }
  }

  lemma BackupCodeOfSignedIn(cfg: Config, st: State, user: string, session: string, guess: string, now: int)
    ensures var (st', o) := VerifyBackupCode(cfg, st, SignedIn(user, session), guess, now);
            && (o == Passed <==> user in st.records && guess in st.records[user].codes)
            && (o == Wrong <==> user in st.records && guess !in st.records[user].codes)
            && (o == Refused <==> user !in st.records)
            && st' == if o == Passed then st.(records := st.records[user := st.records[user].(codes := WithoutFirst(st.records[user].codes, guess))])
                      else st
  {
  }

  /** Using up a code takes its first occurrence and keeps the others in order. */
  lemma {:induction false} FirstIsUsed(front: seq<string>, code: string, rest: seq<string>)
    requires code !in front
    ensures WithoutFirst(front + [code] + rest, code) == front + rest
  {
    var codes := front + [code] + rest;
    if front == [] {
      assert codes[1..] == rest;
    } else {
      assert codes[0] == front[0] && codes[1..] == front[1..] + [code] + rest;
      FirstIsUsed(front[1..], code, rest);
      AppendAssociates([front[0]], front[1..], rest);
      assert front == [front[0]] + front[1..];
    }
  }

  // -------------------------------------------------------- sent codes

  /** A code is sent to the key of a signed-in caller or of a pending challenge in time,
      and replaces the one sent before; a dead challenge is removed instead. */
  lemma SendingLeaves(cfg: Config, st: State, id: string, user: string, session: string, code: string, now: int)
    ensures SendOtp(cfg, st, SignedIn(user, session), code, now) ==
            st.(otps := st.otps[user + "!" + session := OneTimeCode.Verification(OneTimeCode.Encode(code, 0), now + cfg.otpExpires)])
    ensures SendOtp(cfg, st, Cookie(id), code, now) ==
            if exists u :: Open(st, id, u, now) then
              st.(otps := st.otps[id := OneTimeCode.Verification(OneTimeCode.Encode(code, 0), now + cfg.otpExpires)])
            else st.(pending := st.pending - {id})
  {
    if id in st.pending {
      assert Open(st, id, st.pending[id].user, now) || forall u :: !Open(st, id, u, now);
    }
  }

  /** A row with this code is there for the key, with `tries` used. */
  predicate Sent(st: State, key: string, code: string, tries: int, expiresAt: int)
  {
    && key in st.otps && st.otps[key] == OneTimeCode.Verification(OneTimeCode.Encode(code, tries), expiresAt)
    && ':' !in code && IsInt64(tries)
  }

  /** All that an answer with a sent code needs besides the code itself. */
  predicate MayGuess(cfg: Config, st: State, id: string, user: string, now: int)
  {
    Open(st, id, user, now) && user in st.records && NotLocked(cfg.lockout, st.records[user], now)
  }

  lemma DeadCode(cfg: Config, st: State, id: string, guess: string, now: int, user: string, code: string, tries: int, expiresAt: int)
    requires MayGuess(cfg, st, id, user, now) && Sent(st, id, code, tries, expiresAt) && guess != ""
    requires now > expiresAt || tries >= cfg.allowed
    ensures VerifyOtp(cfg, st, Cookie(id), guess, now) ==
            (st.(otps := st.otps - {id}, records := st.records[user := Lifted(cfg.lockout, st.records[user], now)]), Refused)
  {
    OneTimeCode.CheckAnswers(code, tries, expiresAt, guess, cfg.allowed, true, now);
  }

  lemma WrongCode(cfg: Config, st: State, id: string, guess: string, now: int, user: string, code: string, tries: int, expiresAt: int)
    requires MayGuess(cfg, st, id, user, now) && Sent(st, id, code, tries, expiresAt) && guess != ""
    requires now <= expiresAt && tries < cfg.allowed && guess != code
    ensures VerifyOtp(cfg, st, Cookie(id), guess, now) ==
            (st.(otps := st.otps[id := OneTimeCode.Verification(OneTimeCode.Encode(code, tries + 1), expiresAt)],
                 records := st.records[user := Failed(cfg.lockout, st.records[user], now)]), Wrong)
  {
    OneTimeCode.CheckAnswers(code, tries, expiresAt, guess, cfg.allowed, true, now);
    var lifted := Lifted(cfg.lockout, st.records[user], now);
    PutTwice(st.records, user, lifted, Fail(cfg.lockout, lifted, now));
  }

  /** The three writes that an accepted code makes to the record come to one. */
  lemma AcceptedWrites(cfg: Config, st: State, id: string, user: string, now: int)
    requires user in st.records && NotLocked(cfg.lockout, st.records[user], now)
    ensures var st1 := WithRecord(st, user, Thaw(cfg.lockout, st.records[user], now).0);
            var st2 := st1.(otps := OneTimeCode.Put(st1.otps, id, OneTimeCode.Empty));
            var st3 := WithRecord(st2, user, Forgive(cfg.lockout, st2.records[user]));
            WithRecord(st3, user, st3.records[user].(verified := true)) ==
            st.(otps := st.otps - {id}, records := st.records[user := Recount(cfg.lockout, st.records[user], 0, Unlocked).(verified := true)])
  {
    var lifted := Lifted(cfg.lockout, st.records[user], now);
    var forgiven := Forgive(cfg.lockout, lifted);
    PutTwice(st.records, user, lifted, forgiven);
    PutTwice(st.records, user, forgiven, forgiven.(verified := true));
  }

  lemma RightCodeCompletes(cfg: Config, st: State, id: string, now: int, user: string, code: string, tries: int, expiresAt: int)
    requires MayGuess(cfg, st, id, user, now) && Sent(st, id, code, tries, expiresAt) && code != ""
    requires now <= expiresAt && tries < cfg.allowed
    ensures var rec := Recount(cfg.lockout, st.records[user], 0, Unlocked).(verified := true);
            VerifyOtp(cfg, st, Cookie(id), code, now) ==
            Complete(st.(otps := st.otps - {id}, records := st.records[user := rec]), Awaiting(user, id, st.pending[id].remember), now)
  {
    OneTimeCode.CheckAnswers(code, tries, expiresAt, code, cfg.allowed, true, now);
    assert Resolve(st, Cookie(id), now) == (st, Awaiting(user, id, st.pending[id].remember));
    assert OneTimeCode.Check(OneTimeCode.SlotAt(st.otps, id), code, cfg.allowed, true, now) == (OneTimeCode.Accepted, OneTimeCode.Empty);
    AcceptedWrites(cfg, st, id, user, now);
  }

  lemma RightCode(cfg: Config, st: State, id: string, now: int, user: string, code: string, tries: int, expiresAt: int)
    requires MayGuess(cfg, st, id, user, now) && Sent(st, id, code, tries, expiresAt) && code != ""
    requires now <= expiresAt && tries < cfg.allowed
    ensures var rec := Recount(cfg.lockout, st.records[user], 0, Unlocked).(verified := true);
            VerifyOtp(cfg, st, Cookie(id), code, now) ==
            (Completed(st, id, user, rec).(otps := st.otps - {id}), Issued(user, st.pending[id].remember))
  {
    RightCodeCompletes(cfg, st, id, now, user, code, tries, expiresAt);
  }

  /** A sent code answers a pending challenge exactly if it is guessed in time and with
      tries left: then the code is used up, the second factor confirmed and the session
      issued. A wrong guess costs the code a try and counts as a failure. */
  lemma SentCodeAnswers(cfg: Config, st: State, id: string, guess: string, now: int, user: string, code: string, tries: int, expiresAt: int)
    requires MayGuess(cfg, st, id, user, now) && Sent(st, id, code, tries, expiresAt) && guess != ""
    ensures var rec := st.records[user];
            VerifyOtp(cfg, st, Cookie(id), guess, now) ==
            if now > expiresAt || tries >= cfg.allowed then
              (st.(otps := st.otps - {id}, records := st.records[user := Lifted(cfg.lockout, rec, now)]), Refused)
            else if guess != code then
              (st.(otps := st.otps[id := OneTimeCode.Verification(OneTimeCode.Encode(code, tries + 1), expiresAt)],
                   records := st.records[user := Failed(cfg.lockout, rec, now)]), Wrong)
            else
              (Completed(st, id, user, Recount(cfg.lockout, rec, 0, Unlocked).(verified := true)).(otps := st.otps - {id}),
               Issued(user, st.pending[id].remember))
  {
    if now > expiresAt || tries >= cfg.allowed {
      DeadCode(cfg, st, id, guess, now, user, code, tries, expiresAt);
    } else if guess != code {
      WrongCode(cfg, st, id, guess, now, user, code, tries, expiresAt);
    } else {
      RightCode(cfg, st, id, now, user, code, tries, expiresAt);
    }
  }

  /** Nothing else issues a session by a sent code. */
  lemma SentCodeRefuses(cfg: Config, st: State, id: string, guess: string, now: int)
    requires guess == "" || id !in st.otps
             || (forall user :: !MayGuess(cfg, st, id, user, now))
    ensures VerifyOtp(cfg, st, Cookie(id), guess, now).1 == Refused
  {
    if id in st.pending {
      assert id in st.otps && guess != "" ==> !MayGuess(cfg, st, id, st.pending[id].user, now);
    }
  }

  /** For a signed-in caller nothing is counted against the account. */
  lemma SentCodeOfSignedIn(cfg: Config, st: State, user: string, session: string, guess: string, now: int, code: string, tries: int, expiresAt: int)
    requires Sent(st, user + "!" + session, code, tries, expiresAt) && guess != ""
    ensures var key := user + "!" + session;
            VerifyOtp(cfg, st, SignedIn(user, session), guess, now) ==
            if now > expiresAt || tries >= cfg.allowed then (st.(otps := st.otps - {key}), Refused)
            else if guess != code then
              (st.(otps := st.otps[key := OneTimeCode.Verification(OneTimeCode.Encode(code, tries + 1), expiresAt)]), Wrong)
            else
              (st.(otps := st.otps - {key},
                   records := if user in st.records then st.records[user := st.records[user].(verified := true)] else st.records), Passed)
  {
    OneTimeCode.CheckAnswers(code, tries, expiresAt, guess, cfg.allowed, true, now);
  }

  // -------------------------------------------------------- challenges and records

  /** A challenge lasts ten minutes and starts with no tries used; other rows stay. */
  lemma BeginningLeaves(st: State, user: string, remember: bool, id: string, now: int, allowed: int)
    ensures var st' := Start(st, user, remember, id, now);
            && st'.pending == st.pending[id := Pending(user, remember, now + 600_000)]
            && st' == st.(pending := st'.pending, attempts := st'.attempts)
            && (forall other :: other != id ==>
                  (other in st'.attempts <==> other in st.attempts)
                  && (other in st.attempts ==> st'.attempts[other] == st.attempts[other]))
            && (allowed > 0 ==> HasTry(st', id, allowed, now + 600_000, 0) && !HasTry(st', id, allowed, now + 600_001, 0))
  {
    AtoiItoa(0);
  }

  /** Enrolling replaces the record, with a clean slate, and confirms nothing by itself. */
  lemma EnrollingLeaves(cfg: Config, st: State, user: string, secret: string, codes: seq<string>)
    ensures var st' := Enable(cfg, st, user, secret, codes);
            && st' == st.(records := st.records[user := st'.records[user]])
            && st'.records[user].secret == secret && st'.records[user].codes == codes
            && st'.records[user].failed == 0 && st'.records[user].lock == Unlocked
            && (st'.records[user].verified <==> cfg.skipVerification || (user in st.records && st.records[user].verified))
  {
  }

  lemma RenewingLeaves(st: State, user: string, codes: seq<string>)
    ensures Regenerate(st, user, codes).(records := st.records) == st
    ensures user !in st.records ==> Regenerate(st, user, codes) == st
    ensures user in st.records ==> Regenerate(st, user, codes).records == st.records[user := st.records[user].(codes := codes)]
  {
  }

  /** Ten failures lock an account for fifteen minutes unless it is set otherwise. */
  lemma LockoutDefaults(max: int, duration: int)
    ensures ResolveLockout(NoOptions) == ResolveLockout(Options(NotSet, 0, 0)) == Lockout(true, 10, 900_000)
    ensures max > 0 && duration > 0 ==> ResolveLockout(Options(NotSet, max, duration)) == Lockout(true, max, duration)
    ensures forall on :: ResolveLockout(Options(Set(on), max, duration)).enabled == on
  {
  }

}
