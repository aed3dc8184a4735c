/** The lockout bound is attained: a run with as many wrong codes as it allows. */
module TwoFactorTight {
  import opened Common
  import opened Decimal
  import opened Spacing
  import opened TwoFactor
  import opened TwoFactorSafety

  /** A challenge is begun and answered with a wrong TOTP code. */
  function Try(user: string, id: string, now: int): seq<Timed>
  {
    [Timed(now, Begin(user, false, id)), Timed(now, Totp(Cookie(id), Differs))]
  }

  /** `n` such tries at one time, on the challenges from the `k`-th on. */
  ghost function Tries(user: string, ids: nat -> string, k: nat, now: int, n: nat): seq<Timed>
    decreases n
  {
    if n == 0 then [] else Try(user, ids(k), now) + Tries(user, ids, k + 1, now, n - 1)
  }

  /** As many tries as lock the account, and again as soon as each lock is over. */
  ghost function Rounds(l: Lockout, user: string, ids: nat -> string, k: nat, now: int, n: nat): seq<Timed>
    requires l.max >= 1
    decreases n
  {
    if n == 0 then [] else Tries(user, ids, k, now, l.max) + Rounds(l, user, ids, k + l.max, now + l.duration, n - 1)
  }

  // -------------------------------------------------------- runs in segments

  /** The run leads from one state to the other, without a fresh start of the user, and
      with wrong codes at these times. */
  ghost predicate Leads(cfg: Config, st: State, run: seq<Timed>, user: string, st': State, ts: seq<int>)
  {
    After(cfg, st, run) == st' && Failures(cfg, st, run, user) == ts && NoFreshStart(cfg, st, run, user)
  }

  lemma {:induction false} AfterBoth(cfg: Config, st: State, first: seq<Timed>, second: seq<Timed>)
    ensures After(cfg, st, first + second) == After(cfg, After(cfg, st, first), second)
    decreases first
  {
    if first == [] {
      assert first + second == second;
    } else {
      assert (first + second)[0] == first[0] && (first + second)[1..] == first[1..] + second;
      AfterBoth(cfg, Do(cfg, st, first[0]).0, first[1..], second);
    }
  }

  lemma {:induction false} FailuresOfBoth(cfg: Config, st: State, first: seq<Timed>, second: seq<Timed>, user: string, ts: seq<int>, us: seq<int>)
    requires Failures(cfg, st, first, user) == ts && Failures(cfg, After(cfg, st, first), second, user) == us
    ensures Failures(cfg, st, first + second, user) == ts + us
    decreases first
  {
    if first == [] {
      assert first + second == second && ts + us == us;
    } else {
      var st' := Do(cfg, st, first[0]).0;
      var here := if WrongOnPending(cfg, st, first[0], user) then [first[0].now] else [];
      var later := Failures(cfg, st', first[1..], user);
      assert (first + second)[0] == first[0] && (first + second)[1..] == first[1..] + second;
      FailuresOfBoth(cfg, st', first[1..], second, user, later, us);
      AppendAssociates(here, later, us);
    }
  }

  lemma {:induction false} NoFreshStartInBoth(cfg: Config, st: State, first: seq<Timed>, second: seq<Timed>, user: string)
    requires NoFreshStart(cfg, st, first, user) && NoFreshStart(cfg, After(cfg, st, first), second, user)
    ensures NoFreshStart(cfg, st, first + second, user)
    decreases first
  {
    if first == [] {
      assert first + second == second;
    } else {
      assert (first + second)[0] == first[0] && (first + second)[1..] == first[1..] + second;
      NoFreshStartInBoth(cfg, Do(cfg, st, first[0]).0, first[1..], second, user);
    }
  }

  lemma LeadsOn(cfg: Config, a: State, first: seq<Timed>, user: string, b: State, ts: seq<int>,
                second: seq<Timed>, c: State, us: seq<int>)
    requires Leads(cfg, a, first, user, b, ts) && Leads(cfg, b, second, user, c, us)
    ensures Leads(cfg, a, first + second, user, c, ts + us)
  {
    AfterBoth(cfg, a, first, second);
    FailuresOfBoth(cfg, a, first, second, user, ts, us);
    NoFreshStartInBoth(cfg, a, first, second, user);
  }

  lemma LeadsOne(cfg: Config, st: State, t: Timed, user: string)
    requires !(t.action.Enroll? && t.action.user == user) && !Do(cfg, st, t).1.Issued?
    ensures Leads(cfg, st, [t], user, Do(cfg, st, t).0, if WrongOnPending(cfg, st, t, user) then [t.now] else [])
  {
    var st' := Do(cfg, st, t).0;
    assert [t][1..] == [];
    assert After(cfg, st', []) == st' && Failures(cfg, st', [], user) == [] && NoFreshStart(cfg, st', [], user);
    assert Failures(cfg, st, [t], user) == (if WrongOnPending(cfg, st, t, user) then [t.now] else []) + [];
  }

  // -------------------------------------------------------- tries and rounds

  /** The user has a confirmed second factor, is not locked at `now`, and has `f`
      failures that still count then. */
  ghost predicate Counts(cfg: Config, st: State, user: string, now: int, f: int)
  {
    && user in st.users && user in st.records && st.records[user].verified
    && var (rec, free) := Thaw(cfg.lockout, st.records[user], now); free && rec.lock.Unlocked? && rec.failed == f
  }

  lemma BeginKeepsCounts(cfg: Config, st: State, user: string, id: string, now: int, f: int)
    requires Counts(cfg, st, user, now, f) && cfg.allowed >= 1
    ensures var st' := Start(st, user, false, id, now);
            && Counts(cfg, st', user, now, f) && AnswersFor(st', Cookie(id), user)
            && st'.pending[id].expiresAt >= now && AttemptAvailable(st', id, cfg.allowed, now)
  {
    AtoiItoa(0);
  }

  lemma WrongTotp(cfg: Config, st: State, user: string, id: string, now: int, f: int)
    requires cfg.lockout.enabled && Counts(cfg, st, user, now, f) && AnswersFor(st, Cookie(id), user)
    requires st.pending[id].expiresAt >= now && AttemptAvailable(st, id, cfg.allowed, now)
    ensures var (st', o) := VerifyTotp(cfg, st, Cookie(id), Differs, now);
            && o == Wrong && user in st'.users && user in st'.records && st'.records[user].verified
            && st'.records[user].failed == f + 1
            && st'.records[user].lock == if f + 1 >= cfg.lockout.max then Until(now + cfg.lockout.duration) else Unlocked
  {
  }

  /** One wrong code more, and the lock if it is the last one allowed. */
  lemma OneTry(cfg: Config, st: State, user: string, id: string, now: int, f: int) returns (st': State)
    requires cfg.lockout.enabled && cfg.allowed >= 1 && Counts(cfg, st, user, now, f)
    ensures Leads(cfg, st, Try(user, id, now), user, st', [now])
    ensures if f + 1 >= cfg.lockout.max then Counts(cfg, st', user, now + cfg.lockout.duration, 0)
            else Counts(cfg, st', user, now, f + 1)
  {
    var begin, answer := Timed(now, Begin(user, false, id)), Timed(now, Totp(Cookie(id), Differs));
    var begun := Start(st, user, false, id, now);
    BeginKeepsCounts(cfg, st, user, id, now, f);
    WrongTotp(cfg, begun, user, id, now, f);
    st' := VerifyTotp(cfg, begun, Cookie(id), Differs, now).0;
    LeadsOne(cfg, st, begin, user);
    LeadsOne(cfg, begun, answer, user);
    LeadsOn(cfg, st, [begin], user, begun, [], [answer], st', [now]);
    assert [begin] + [answer] == Try(user, id, now) && [] + [now] == [now];
  }

  /** The times of `n` tries at once. */
  ghost function Same(now: int, n: nat): seq<int>
  {
    if n == 0 then [] else [now] + Same(now, n - 1)
  }

  /** The times of the tries of `n` rounds. */
  ghost function RoundTimes(l: Lockout, now: int, n: nat): seq<int>
    requires l.max >= 1
    decreases n
  {
    if n == 0 then [] else Same(now, l.max) + RoundTimes(l, now + l.duration, n - 1)
  }

  lemma {:induction false} AllTries(cfg: Config, st: State, user: string, ids: nat -> string, k: nat, now: int, n: nat) returns (st': State)
    requires cfg.lockout.enabled && cfg.allowed >= 1 && 1 <= n <= cfg.lockout.max
    requires Counts(cfg, st, user, now, cfg.lockout.max - n)
    ensures Leads(cfg, st, Tries(user, ids, k, now, n), user, st', Same(now, n))
    ensures Counts(cfg, st', user, now + cfg.lockout.duration, 0)
    decreases n
  {
    st' := OneTry(cfg, st, user, ids(k), now, cfg.lockout.max - n);
    if n == 1 {
      assert Tries(user, ids, k, now, n) == Try(user, ids(k), now);
    } else {
      var st1 := st';
      st' := AllTries(cfg, st1, user, ids, k + 1, now, n - 1);
      LeadsOn(cfg, st, Try(user, ids(k), now), user, st1, [now], Tries(user, ids, k + 1, now, n - 1), st', Same(now, n - 1));
    }
  }

  lemma {:induction false} AllRounds(cfg: Config, st: State, user: string, ids: nat -> string, k: nat, now: int, n: nat) returns (st': State)
    requires cfg.lockout.enabled && cfg.allowed >= 1 && cfg.lockout.max >= 1 && Counts(cfg, st, user, now, 0)
    ensures Leads(cfg, st, Rounds(cfg.lockout, user, ids, k, now, n), user, st', RoundTimes(cfg.lockout, now, n))
    decreases n
  {
    if n == 0 {
      st' := st;
    } else {
      var l := cfg.lockout;
      var first, rest := Tries(user, ids, k, now, l.max), Rounds(l, user, ids, k + l.max, now + l.duration, n - 1);
      var ts, us := Same(now, l.max), RoundTimes(l, now + l.duration, n - 1);
      var st1 := AllTries(cfg, st, user, ids, k, now, l.max);
      st' := AllRounds(cfg, st1, user, ids, k + l.max, now + l.duration, n - 1);
      assert Rounds(l, user, ids, k, now, n) == first + rest;
      assert RoundTimes(l, now, n) == ts + us;
      LeadsOn(cfg, st, first, user, st1, ts, rest, st', us);
    }
  }

  ghost predicate Within(ts: seq<int>, from: int, last: int)
  {
    forall i :: 0 <= i < |ts| ==> from <= ts[i] <= last
  }

  lemma {:induction false} SameTimes(now: int, n: nat)
    ensures |Same(now, n)| == n && Within(Same(now, n), now, now)
  {
    if n > 0 {
      SameTimes(now, n - 1);
    }
  }

  lemma OneMore(m: int, n: int)
    requires m >= 1
    ensures m * n == m + m * (n - 1) && (n >= 0 ==> m * n >= 0)
  {
  }

  lemma {:induction false} TimesOfRounds(l: Lockout, now: int, n: nat)
    requires l.max >= 1 && l.duration >= 1
    ensures |RoundTimes(l, now, n)| == l.max * n
    ensures Within(RoundTimes(l, now, n), now, now + l.duration * (n - 1))
    decreases n
  {
    if n > 0 {
      SameTimes(now, l.max);
      TimesOfRounds(l, now + l.duration, n - 1);
      OneMore(l.max, n);
      OneMore(l.duration, n - 1);
    }
  }

  // -------------------------------------------------------- order and count

  ghost predicate Sorted(run: seq<Timed>, from: int, last: int)
  {
    InOrder(run, from) && forall i :: 0 <= i < |run| ==> run[i].now <= last
  }

  lemma SortedOn(first: seq<Timed>, second: seq<Timed>, from: int, mid: int, mid': int, last: int)
    requires Sorted(first, from, mid) && Sorted(second, mid', last) && from <= mid <= mid' <= last
    ensures Sorted(first + second, from, last)
  {
    var run := first + second;
    forall i, j | 0 <= i <= j < |run| ensures run[i].now <= run[j].now {
      if i < |first| <= j {
        assert first[i].now <= mid <= mid' <= second[j - |first|].now;
      }
    }
  }

  lemma {:induction false} TriesAreSorted(user: string, ids: nat -> string, k: nat, now: int, n: nat)
    ensures Sorted(Tries(user, ids, k, now, n), now, now)
    decreases n
  {
    if n > 0 {
      TriesAreSorted(user, ids, k + 1, now, n - 1);
      SortedOn(Try(user, ids(k), now), Tries(user, ids, k + 1, now, n - 1), now, now, now, now);
    }
  }

  lemma {:induction false} RoundsAreSorted(l: Lockout, user: string, ids: nat -> string, k: nat, now: int, n: nat) returns (end: int)
    requires l.max >= 1 && l.duration >= 1
    ensures end >= now && Sorted(Rounds(l, user, ids, k, now, n), now, end)
    decreases n
  {
    end := now;
    if n > 0 {
      end := RoundsAreSorted(l, user, ids, k + l.max, now + l.duration, n - 1);
      TriesAreSorted(user, ids, k, now, l.max);
      SortedOn(Tries(user, ids, k, now, l.max), Rounds(l, user, ids, k + l.max, now + l.duration, n - 1),
               now, now, now + l.duration, end);
    }
  }

  lemma {:induction false} CountAll(ts: seq<int>, from: int, last: int)
    requires Within(ts, from, last)
    ensures CountWithin(ts, from, last) == |ts|
    decreases |ts|
  {
    if ts != [] {
      CountAll(ts[..|ts| - 1], from, last);
    }
  }

  lemma RoundsFit(l: Lockout, span: nat)
    requires l.duration >= 1 && l.max >= 1
    ensures l.duration * (span / l.duration) <= span
    ensures l.max * (span / l.duration + 1) == Quota(l.max, l.duration, span)
  {
    assert span == l.duration * (span / l.duration) + span % l.duration;
  }

  lemma TimesFill(l: Lockout, from: int, span: nat)
    requires l.duration >= 1 && l.max >= 1
    ensures CountWithin(RoundTimes(l, from, span / l.duration + 1), from, from + span) == Quota(l.max, l.duration, span)
  {
    RoundsFit(l, span);
    TimesOfRounds(l, from, span / l.duration + 1);
    CountAll(RoundTimes(l, from, span / l.duration + 1), from, from + span);
  }

  lemma LeadsToCount(cfg: Config, st: State, run: seq<Timed>, user: string, st': State, ts: seq<int>, from: int, last: int)
    requires Leads(cfg, st, run, user, st', ts)
    ensures NoFreshStart(cfg, st, run, user) && CountWithin(Failures(cfg, st, run, user), from, last) == CountWithin(ts, from, last)
  {
  }

  lemma StartsInOrder(run: seq<Timed>, from: int, last: int)
    requires Sorted(run, from, last) && run != []
    ensures InOrder(run, run[0].now)
  {
  }

  lemma RoundsAreInOrder(l: Lockout, user: string, ids: nat -> string, now: int, n: nat)
    requires l.max >= 1 && l.duration >= 1 && n >= 1
    ensures var run := Rounds(l, user, ids, 0, now, n); run != [] && InOrder(run, run[0].now)
  {
    var end := RoundsAreSorted(l, user, ids, 0, now, n);
    StartsInOrder(Rounds(l, user, ids, 0, now, n), now, end);
  }

  /** Whatever the lockout settings, if a challenge allows a single try, a user can get
      exactly as many codes wrong in a window of length `span` as `LockoutBound` allows,
      with a new challenge for each. */
  lemma LockoutBoundIsMet(cfg: Config, user: string, ids: nat -> string, from: int, span: nat) returns (st: State, run: seq<Timed>)
    requires cfg.lockout.enabled && cfg.lockout.max >= 1 && cfg.lockout.duration >= 1 && cfg.allowed >= 1
    ensures AllOk(cfg.lockout, st) && NoFreshStart(cfg, st, run, user) && run != [] && InOrder(run, run[0].now)
    ensures CountWithin(Failures(cfg, st, run, user), from, from + span) == Quota(cfg.lockout.max, cfg.lockout.duration, span)
  {
    var n := span / cfg.lockout.duration + 1;
    st := State({user}, map[], map[], map[], map[user := Record("", [], true, 0, Unlocked)]);
    run := Rounds(cfg.lockout, user, ids, 0, from, n);
    RoundsAreInOrder(cfg.lockout, user, ids, from, n);
    var st' := AllRounds(cfg, st, user, ids, 0, from, n);
    LeadsToCount(cfg, st, run, user, st', RoundTimes(cfg.lockout, from, n), from, from + span);
    TimesFill(cfg.lockout, from, span);
  }

}
