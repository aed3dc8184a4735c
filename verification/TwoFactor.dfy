/** The second factor at sign-in: pending challenges with a limited number of
    tries, an account-wide lockout, and the three ways to answer a challenge. */
module TwoFactor {
  import opened Decimal
  import OneTimeCode

  datatype Lockout = Lockout(enabled: bool, max: int, duration: int)

  datatype LockoutOptions = NoOptions | Options(enabled: EnabledOption, max: int, duration: int)

  datatype EnabledOption = NotSet | Set(value: bool)

  /** `resolveTwoFactorAccountLockout`, in milliseconds. */
  function ResolveLockout(opts: LockoutOptions): (l: Lockout)
    ensures l.max >= 1 && l.duration >= 1
    ensures !l.enabled ==> opts.Options? && opts.enabled == Set(false)
  {
    match opts
    case NoOptions => Lockout(true, 10, 15 * 60_000)
    case Options(enabled, max, duration) =>
      Lockout(if enabled.Set? then enabled.value else true,
              if max > 0 then max else 10,
              if duration > 0 then duration else 15 * 60_000)
  }

  datatype Config = Config(lockout: Lockout, allowed: int, otpExpires: int, skipVerification: bool)

  const CHALLENGE_EXPIRES := 10 * 60_000

  datatype Lock = Unlocked | Until(time: int)

  datatype Record = Record(secret: string, codes: seq<string>, verified: bool, failed: int, lock: Lock)

  datatype Pending = Pending(user: string, remember: bool, expiresAt: int)

  /** The verification rows of the plugin, one table for each kind of identifier
      (`IdentifiersApart` says that the kinds cannot collide), and the two-factor
      record of each enrolled user. */
  datatype State = State(
    users: set<string>,
    pending: map<string, Pending>,
    attempts: map<string, OneTimeCode.Verification>,
    otps: OneTimeCode.Rows,
    records: map<string, Record>)

  /** Who calls: with a session, with a signed two-factor cookie, or with neither. */
  datatype Caller = SignedIn(user: string, session: string) | Cookie(id: string) | Anonymous

  datatype Challenge = Nobody | Active(user: string, session: string) | Awaiting(user: string, id: string, remember: bool)

  datatype Outcome = Refused | Wrong | Passed | Issued(user: string, remember: bool)

  function ChallengeId(token: string): string
  {
    "2fa-" + token
  }

  function AttemptsId(id: string): string
  {
    "2fa-attempts-" + id
  }

  function OtpId(key: string): string
  {
    "2fa-otp-" + key
  }

  /** The characters of generated identifiers. */
  predicate IsIdChar(c: char)
  {
    'a' <= c <= 'z' || 'A' <= c <= 'Z' || '0' <= c <= '9'
  }

  /** The three kinds of verification identifiers never meet in the shared table,
      and neither do the code rows of sessions and of pending challenges. */
  lemma IdentifiersApart(token: string, id: string, key: string, user: string, session: string)
    requires forall i :: 0 <= i < |token| ==> IsIdChar(token[i])
    ensures ChallengeId(token) != AttemptsId(id)
    ensures ChallengeId(token) != OtpId(key)
    ensures AttemptsId(id) != OtpId(key)
    ensures OtpId(ChallengeId(token)) != OtpId(user + "!" + session)
  {
    assert AttemptsId(id)[12] == '-' && (|token| > 8 ==> ChallengeId(token)[12] == token[8]);
    assert OtpId(key)[7] == '-' && (|token| > 3 ==> ChallengeId(token)[7] == token[3]);
    assert AttemptsId(id)[4] != OtpId(key)[4];
    var pending, active := OtpId(ChallengeId(token)), OtpId(user + "!" + session);
    var bang := 8 + |user|;
    assert active[bang] == '!';
    assert 12 <= bang < |pending| ==> pending[bang] == token[bang - 12];
    assert pending[8..12] == "2fa-";
  }

  function ChallengeKey(ch: Challenge): string
    requires !ch.Nobody?
  {
    if ch.Awaiting? then ch.id else ch.user + "!" + ch.session
  }

  /** `createTwoFactorChallenge`. */
  function Start(st: State, user: string, remember: bool, id: string, now: int): State
  {
    st.(pending := st.pending[id := Pending(user, remember, now + CHALLENGE_EXPIRES)],
        attempts := st.attempts[id := OneTimeCode.Verification(Itoa(0), now + CHALLENGE_EXPIRES)])
  }

  /** `ResolveTwoFactorChallenge`. */
  function Resolve(st: State, caller: Caller, now: int): (State, Challenge)
  {
    match caller
    case SignedIn(user, session) => (st, Active(user, session))
    case Anonymous => (st, Nobody)
    case Cookie(id) =>
      if id in st.pending && now <= st.pending[id].expiresAt && st.pending[id].user in st.users then
        (st, Awaiting(st.pending[id].user, id, st.pending[id].remember))
      else
        (st.(pending := st.pending - {id}), Nobody)
  }

  /** `CompleteTwoFactorChallenge`. */
  function Complete(st: State, ch: Challenge, now: int): (State, Outcome)
  {
    match ch
    case Nobody => (st, Refused)
    case Active(_, _) => (st, Passed)
    case Awaiting(user, id, _) =>
      if id !in st.pending then (st, Refused)
      else
        var p := st.pending[id];
        var st' := st.(pending := st.pending - {id});
        if now > p.expiresAt || p.user != user then (st', Refused)
        else (st'.(attempts := st.attempts - {id}), Issued(user, p.remember))
  }

  /** `assertTwoFactorNotLocked` on the record: let through, and a lock that is
      over is lifted. */
  function Thaw(l: Lockout, rec: Record, now: int): (Record, bool)
  {
    if !l.enabled || rec.lock.Unlocked? then (rec, true)
    else if rec.lock.time > now then (rec, false)
    else (rec.(failed := 0, lock := Unlocked), true)
  }

  /** `recordTwoFactorFailure` on the record. */
  function Fail(l: Lockout, rec: Record, now: int): Record
  {
    if !l.enabled then rec
    else
      var count := rec.failed + 1;
      rec.(failed := count, lock := if count >= l.max then Until(now + l.duration) else Unlocked)
  }

  /** `resetTwoFactorFailures` on the record. */
  function Forgive(l: Lockout, rec: Record): Record
  {
    if !l.enabled then rec else rec.(failed := 0, lock := Unlocked)
  }

  function WithRecord(st: State, user: string, rec: Record): State
  {
    st.(records := st.records[user := rec])
  }

  /** `assertTwoFactorChallengeAttemptAvailable`: an unreadable or negative count
      is as bad as a full one. */
  predicate AttemptAvailable(st: State, id: string, allowed: int, now: int)
  {
    && id in st.attempts
    && now <= st.attempts[id].expiresAt
    && match Atoi(st.attempts[id].value)
       case Malformed => false
       case Number(n) => 0 <= n < allowed
  }

  /** `recordTwoFactorChallengeAttempt`: an unreadable or negative count restarts at one. */
  function CountAttempt(st: State, id: string): State
  {
    if id !in st.attempts then Cancel(st, id)
    else
      var n := match Atoi(st.attempts[id].value) case Malformed => 0 case Number(k) => if k < 0 then 0 else k;
      st.(attempts := st.attempts[id := st.attempts[id].(value := Itoa(n + 1))])
  }

  /** `cancelTwoFactorChallenge`. */
  function Cancel(st: State, id: string): State
  {
    st.(pending := st.pending - {id}, attempts := st.attempts - {id})
  }

  /** What the TOTP and the backup-code handler check before they compare:
      neither account nor challenge has used up its tries. */
  function Admit(cfg: Config, st: State, user: string, id: string, now: int): (State, bool)
    requires user in st.records
  {
    var (rec, free) := Thaw(cfg.lockout, st.records[user], now);
    var st' := WithRecord(st, user, rec);
    if !free then (st', false)
    else if !AttemptAvailable(st', id, cfg.allowed, now) then (Cancel(st', id), false)
    else (st', true)
  }

  function CountFailure(cfg: Config, st: State, user: string, id: string, now: int): State
    requires user in st.records
  {
    var st' := CountAttempt(st, id);
    WithRecord(st', user, Fail(cfg.lockout, st'.records[user], now))
  }

  /** How the TOTP library answers: it fails on a code of the wrong length, say. */
  datatype Comparison = Matches | Differs | Fails

  /** `verify-totp`; a failing comparison counts as no try at all. */
  function VerifyTotp(cfg: Config, st: State, caller: Caller, check: Comparison, now: int): (State, Outcome)
  {
    var (st0, ch) := Resolve(st, caller, now);
    if ch.Nobody? || ch.user !in st0.records || (ch.Awaiting? && !st0.records[ch.user].verified) then (st0, Refused)
    else if ch.Active? then
      match check
      case Fails => (st0, Refused)
      case Differs => (st0, Wrong)
      case Matches => (WithRecord(st0, ch.user, st0.records[ch.user].(verified := true)), Passed)
    else
      var (st1, admitted) := Admit(cfg, st0, ch.user, ch.id, now);
      if !admitted || check.Fails? then (st1, Refused)
      else if check.Differs? then (CountFailure(cfg, st1, ch.user, ch.id, now), Wrong)
      else Complete(WithRecord(st1, ch.user, Forgive(cfg.lockout, st1.records[ch.user])), ch, now)
  }

  /** `send-otp`. */
  function SendOtp(cfg: Config, st: State, caller: Caller, code: string, now: int): State
  {
    var (st0, ch) := Resolve(st, caller, now);
    if ch.Nobody? then st0
    else st0.(otps := st0.otps[ChallengeKey(ch) := OneTimeCode.Verification(OneTimeCode.Encode(code, 0), now + cfg.otpExpires)])
  }

  /** `verify-otp`. The stored code has its own limit, so the tries of the
      challenge are not counted here; only a mismatch counts for the account. */
  function VerifyOtp(cfg: Config, st: State, caller: Caller, guess: string, now: int): (State, Outcome)
  {
    var (st0, ch) := Resolve(st, caller, now);
    if ch.Nobody? || guess == "" || (ch.Awaiting? && ch.user !in st0.records) then (st0, Refused)
    else
      var free := ch.Awaiting? ==> Thaw(cfg.lockout, st0.records[ch.user], now).1;
      var st1 := if ch.Awaiting? then WithRecord(st0, ch.user, Thaw(cfg.lockout, st0.records[ch.user], now).0) else st0;
      if !free then (st1, Refused)
      else
        var key := ChallengeKey(ch);
        var (verdict, slot) := OneTimeCode.Check(OneTimeCode.SlotAt(st1.otps, key), guess, cfg.allowed, true, now);
        var st2 := st1.(otps := OneTimeCode.Put(st1.otps, key, slot));
        if verdict.Mismatch? then
          (if ch.Awaiting? then WithRecord(st2, ch.user, Fail(cfg.lockout, st2.records[ch.user], now)) else st2, Wrong)
        else if !verdict.Accepted? then (st2, Refused)
        else
          var st3 := if ch.Awaiting? then WithRecord(st2, ch.user, Forgive(cfg.lockout, st2.records[ch.user])) else st2;
          var st4 := if ch.user in st3.records then WithRecord(st3, ch.user, st3.records[ch.user].(verified := true)) else st3;
          Complete(st4, ch, now)
  }

  /** The list without the first occurrence of `code`. */
  function WithoutFirst(codes: seq<string>, code: string): (rest: seq<string>)
    ensures code !in codes ==> rest == codes
    ensures code in codes ==> multiset(rest) + multiset{code} == multiset(codes)
  {
    if codes == [] then []
    else
      assert codes == [codes[0]] + codes[1..];
      if codes[0] == code then codes[1..] else [codes[0]] + WithoutFirst(codes[1..], code)
  }

  /** What the loop over the codes still has to copy at index `i`. */
  ghost function Rest(codes: seq<string>, code: string, i: nat, found: bool): seq<string>
    requires i <= |codes|
  {
    if found then codes[i..] else WithoutFirst(codes[i..], code)
  }

  lemma RestStep(codes: seq<string>, code: string, i: nat, found: bool, taken: seq<string>)
    requires i < |codes|
    ensures code in codes[..i + 1] <==> code in codes[..i] || code == codes[i]
    ensures if !found && codes[i] == code then Rest(codes, code, i, found) == Rest(codes, code, i + 1, true)
            else taken + Rest(codes, code, i, found) == (taken + [codes[i]]) + Rest(codes, code, i + 1, found)
  {
    assert codes[..i + 1] == codes[..i] + [codes[i]];
    assert codes[i..] == [codes[i]] + codes[i + 1..];
    assert codes[i..][1..] == codes[i + 1..];
    var rest := Rest(codes, code, i + 1, found);
    assert taken + ([codes[i]] + rest) == (taken + [codes[i]]) + rest;
  }

  /** `verify-backup-code`. */
  function VerifyBackupCode(cfg: Config, st: State, caller: Caller, guess: string, now: int): (State, Outcome)
  {
    var (st0, ch) := Resolve(st, caller, now);
    if ch.Nobody? || ch.user !in st0.records then (st0, Refused)
    else if ch.Active? then
      if guess !in st0.records[ch.user].codes then (st0, Wrong)
      else (WithRecord(st0, ch.user, Spend(st0.records[ch.user], guess)), Passed)
    else
      var (st1, admitted) := Admit(cfg, st0, ch.user, ch.id, now);
      if !admitted then (st1, Refused)
      else if guess !in st1.records[ch.user].codes then (CountFailure(cfg, st1, ch.user, ch.id, now), Wrong)
      else Complete(WithRecord(st1, ch.user, Spend(Forgive(cfg.lockout, st1.records[ch.user]), guess)), ch, now)
  }

  function Spend(rec: Record, code: string): Record
  {
    rec.(codes := WithoutFirst(rec.codes, code))
  }

  /** `enable`: a new record replaces the old one, with a clean slate. */
  function Enable(cfg: Config, st: State, user: string, secret: string, codes: seq<string>): State
  {
    var verified := cfg.skipVerification || (user in st.records && st.records[user].verified);
    WithRecord(st, user, Record(secret, codes, verified, 0, Unlocked))
  }

  /** `generate-backup-codes`. */
  function Regenerate(st: State, user: string, codes: seq<string>): State
  {
    if user in st.records then WithRecord(st, user, st.records[user].(codes := codes)) else st
  }

  /** The plugin over its store. Every handler is one step; `now` is the time of
      the request. */
  class Plugin {
    const cfg: Config
    var users: set<string>
    var pending: map<string, Pending>
    var attempts: map<string, OneTimeCode.Verification>
    var otps: OneTimeCode.Rows
    var records: map<string, Record>

    ghost function Now(): State
      reads this
    {
      State(users, pending, attempts, otps, records)
    }

    constructor (cfg: Config)
      ensures this.cfg == cfg && Now() == State({}, map[], map[], map[], map[])
    {
      this.cfg := cfg;
      users, pending, attempts, otps, records := {}, map[], map[], map[], map[];
    }

    method CreateChallenge(user: string, remember: bool, token: string, now: int) returns (id: string)
      modifies this
      ensures id == ChallengeId(token) && Now() == Start(old(Now()), user, remember, id, now)
    {
      id := "2fa-" + token;
      pending := pending[id := Pending(user, remember, now + CHALLENGE_EXPIRES)];
      assert Itoa(0) == "0";
      attempts := attempts[id := OneTimeCode.Verification("0", now + CHALLENGE_EXPIRES)];
    }

    method ResolveChallenge(caller: Caller, now: int) returns (ch: Challenge)
      modifies this
      ensures (Now(), ch) == Resolve(old(Now()), caller, now)
    {
      match caller {
        case SignedIn(user, session) => ch := Active(user, session);
        case Anonymous => ch := Nobody;
        case Cookie(id) =>
          if id !in pending || now > pending[id].expiresAt {
            pending := pending - {id};
            return Nobody;
          }
          var value := pending[id];
          if value.user !in users {
            pending := pending - {id};
            return Nobody;
          }
          ch := Awaiting(value.user, id, value.remember);
      }
    }

    /** `ConsumeVerification` followed by the new session. */
    method CompleteChallenge(ch: Challenge, now: int) returns (r: Outcome)
      requires !ch.Nobody?
      modifies this
      ensures (Now(), r) == Complete(old(Now()), ch, now)
    {
      if ch.Active? {
        return Passed;
      }
      if ch.id !in pending {
        return Refused;
      }
      var v := pending[ch.id];
      pending := pending - {ch.id};
      if now > v.expiresAt || v.user != ch.user {
        return Refused;
      }
      attempts := attempts - {ch.id};
      return Issued(ch.user, v.remember);
    }

    method AssertNotLocked(user: string, now: int) returns (free: bool)
      requires user in records
      modifies this
      ensures var (rec, open) := Thaw(cfg.lockout, old(records)[user], now);
              free == open && Now() == WithRecord(old(Now()), user, rec)
    {
      var rec := records[user];
      assert records == records[user := rec];
      if !cfg.lockout.enabled || rec.lock.Unlocked? {
        return true;
      }
      if rec.lock.time > now {
        return false;
      }
      records := records[user := rec.(failed := 0, lock := Unlocked)];
      return true;
    }

    method RecordFailure(user: string, now: int)
      requires user in records
      modifies this
      ensures Now() == WithRecord(old(Now()), user, Fail(cfg.lockout, old(records)[user], now))
    {
      var rec := records[user];
      assert records == records[user := rec];
      if !cfg.lockout.enabled {
        return;
      }
      var count := rec.failed + 1;
      var lock := Unlocked;
      if count >= cfg.lockout.max {
        lock := Until(now + cfg.lockout.duration);
      }
      records := records[user := rec.(failed := count, lock := lock)];
    }

    method ResetFailures(user: string)
      requires user in records
      modifies this
      ensures Now() == WithRecord(old(Now()), user, Forgive(cfg.lockout, old(records)[user]))
    {
      assert records == records[user := records[user]];
      if cfg.lockout.enabled {
        records := records[user := records[user].(failed := 0, lock := Unlocked)];
      }
    }

    method AssertAttemptAvailable(id: string, now: int) returns (available: bool)
      modifies this
      ensures available == AttemptAvailable(old(Now()), id, cfg.allowed, now)
      ensures Now() == if available then old(Now()) else Cancel(old(Now()), id)
    {
      if id !in attempts || now > attempts[id].expiresAt {
        CancelChallenge(id);
        return false;
      }
      var parsed := Atoi(attempts[id].value);
      var n := if parsed.Number? && parsed.value >= 0 then parsed.value else cfg.allowed;
      if n >= cfg.allowed {
        CancelChallenge(id);
        return false;
      }
      return true;
    }

    method RecordAttempt(id: string)
      modifies this
      ensures Now() == CountAttempt(old(Now()), id)
    {
      if id !in attempts {
        CancelChallenge(id);
        return;
      }
      var v := attempts[id];
      var parsed := Atoi(v.value);
      var n := if parsed.Number? && parsed.value >= 0 then parsed.value else 0;
      attempts := attempts[id := v.(value := Itoa(n + 1))];
    }

    method CancelChallenge(id: string)
      modifies this
      ensures Now() == Cancel(old(Now()), id)
    {
      pending := pending - {id};
      attempts := attempts - {id};
    }

    method HandleVerifyTotp(caller: Caller, check: Comparison, now: int) returns (r: Outcome)
      modifies this
      ensures (Now(), r) == VerifyTotp(cfg, old(Now()), caller, check, now)
    {
      var ch := ResolveChallenge(caller, now);
      if ch.Nobody? || ch.user !in records || (ch.Awaiting? && !records[ch.user].verified) {
        return Refused;
      }
      if ch.Awaiting? {
        var free := AssertNotLocked(ch.user, now);
        if !free {
          return Refused;
        }
        var available := AssertAttemptAvailable(ch.id, now);
        if !available {
          return Refused;
        }
      }
      if check.Fails? {
        return Refused;
      }
      if check.Differs? {
        if ch.Awaiting? {
          RecordAttempt(ch.id);
          RecordFailure(ch.user, now);
        }
        return Wrong;
      }
      if ch.Awaiting? {
        ResetFailures(ch.user);
      }
      assert records[ch.user].verified ==> records == records[ch.user := records[ch.user].(verified := true)];
      if !records[ch.user].verified {
        records := records[ch.user := records[ch.user].(verified := true)];
      }
      r := CompleteChallenge(ch, now);
    }

    method HandleSendOtp(caller: Caller, code: string, now: int)
      modifies this
      ensures Now() == SendOtp(cfg, old(Now()), caller, code, now)
    {
      var ch := ResolveChallenge(caller, now);
      if ch.Nobody? {
        return;
      }
      assert Itoa(0) == "0" && code + ":" + "0" == code + ":0";
      otps := otps[ChallengeKey(ch) := OneTimeCode.Verification(code + ":0", now + cfg.otpExpires)];
    }

    method HandleVerifyOtp(caller: Caller, guess: string, now: int) returns (r: Outcome)
      modifies this
      ensures (Now(), r) == VerifyOtp(cfg, old(Now()), caller, guess, now)
    {
      var ch := ResolveChallenge(caller, now);
      if ch.Nobody? || guess == "" || (ch.Awaiting? && ch.user !in records) {
        return Refused;
      }
      if ch.Awaiting? {
        var free := AssertNotLocked(ch.user, now);
        if !free {
          return Refused;
        }
      }
      var key := ChallengeKey(ch);
      var (verdict, slot) := OneTimeCode.Check(OneTimeCode.SlotAt(otps, key), guess, cfg.allowed, true, now);
      otps := OneTimeCode.Put(otps, key, slot);
      if verdict.Mismatch? {
        if ch.Awaiting? {
          RecordFailure(ch.user, now);
        }
        return Wrong;
      }
      if !verdict.Accepted? {
        return Refused;
      }
      if ch.Awaiting? {
        ResetFailures(ch.user);
      }
      if ch.user in records {
        assert records[ch.user].verified ==> records == records[ch.user := records[ch.user].(verified := true)];
        if !records[ch.user].verified {
          records := records[ch.user := records[ch.user].(verified := true)];
        }
      }
      r := CompleteChallenge(ch, now);
    }

    /** The loop of `verify-backup-code`: drops the first match, keeps the rest in order. */
    static method TakeCode(codes: seq<string>, guess: string) returns (found: bool, remaining: seq<string>)
      ensures found <==> guess in codes
      ensures remaining == WithoutFirst(codes, guess)
    {
      found, remaining := false, [];
      ghost var goal := WithoutFirst(codes, guess);
      assert codes[0..] == codes && [] + goal == goal;
      for i := 0 to |codes|
        invariant found <==> guess in codes[..i]
        invariant goal == remaining + Rest(codes, guess, i, found)
      {
        RestStep(codes, guess, i, found, remaining);
        if !found && codes[i] == guess {
          found := true;
        } else {
          remaining := remaining + [codes[i]];
        }
      }
      assert codes[..|codes|] == codes;
      assert remaining + [] == remaining;
    }

    method HandleVerifyBackupCode(caller: Caller, guess: string, now: int) returns (r: Outcome)
      modifies this
      ensures (Now(), r) == VerifyBackupCode(cfg, old(Now()), caller, guess, now)
    {
      var ch := ResolveChallenge(caller, now);
      if ch.Nobody? || ch.user !in records {
        return Refused;
      }
      if ch.Awaiting? {
        var free := AssertNotLocked(ch.user, now);
        if !free {
          return Refused;
        }
        var available := AssertAttemptAvailable(ch.id, now);
        if !available {
          return Refused;
        }
      }
      var found, remaining := TakeCode(records[ch.user].codes, guess);
      if !found {
        if ch.Awaiting? {
          RecordAttempt(ch.id);
          RecordFailure(ch.user, now);
        }
        return Wrong;
      }
      ghost var before := records;
      if ch.Awaiting? {
        ResetFailures(ch.user);
      }
      ghost var spent := Spend(records[ch.user], guess);
      records := records[ch.user := records[ch.user].(codes := remaining)];
      assert records == before[ch.user := spent];
      r := CompleteChallenge(ch, now);
    }

    method HandleEnable(user: string, secret: string, codes: seq<string>)
      modifies this
      ensures Now() == Enable(cfg, old(Now()), user, secret, codes)
    {
      var verified := cfg.skipVerification;
      if user in records && records[user].verified {
        verified := true;
      }
      records := records[user := Record(secret, codes, verified, 0, Unlocked)];
    }

    method HandleDisable(user: string)
      modifies this
      ensures Now() == old(Now()).(records := old(records) - {user})
    {
      records := records - {user};
    }

    method HandleGenerateBackupCodes(user: string, codes: seq<string>) returns (ok: bool)
      modifies this
      ensures ok <==> user in old(records)
      ensures Now() == Regenerate(old(Now()), user, codes)
    {
      if user !in records {
        return false;
      }
      records := records[user := records[user].(codes := codes)];
      return true;
    }
  }

}
