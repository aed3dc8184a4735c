/** Safety of session resolution over every run, with clients that replay any
    cache cookie they were ever given. */
module SessionSafety {
  import opened Common
  import opened Sessions
  import opened Spacing

  datatype Action =
    | SignIn(user: string, newToken: string, meta: string, remember: bool, dontRememberCookie: bool)
    | Read(r: Request)
    | UpdateMeta(r: Request, meta: string)
    | RevokeOne(r: Request, target: string)
    | RevokeAll(r: Request, others: bool)
    | SyncUser(r: Request)
    | Drop(tokens: set<string>)
    | AddUser(user: string)
    | DropUser(user: string)

  datatype Timed = Timed(now: int, action: Action)

  /** One request. `Drop` stands for every other deletion of session rows: signing
      out, a changed password, a deleted user. */
  function Do(cfg: Config, st: State, t: Timed): State
  {
    match t.action
    case SignIn(user, token, meta, remember, dontRemember) => Create(cfg, st, user, token, meta, remember, dontRemember, t.now)
    case Read(r) => Resolve(cfg, st, r, t.now).0
    case UpdateMeta(r, meta) => Update(cfg, st, r, meta, t.now).0
    case RevokeOne(r, target) => Revoke(cfg, st, r, target, t.now).0
    case RevokeAll(r, others) => RevokeMany(cfg, st, r, others, t.now).0
    case SyncUser(r) => Sync(cfg, st, r, t.now).0
    case Drop(tokens) => st.(store := st.store - tokens)
    case AddUser(user) => st.(users := st.users + {user})
    case DropUser(user) => st.(users := st.users - {user})
  }

  ghost function After(cfg: Config, st: State, run: seq<Timed>): State
    decreases run
  {
    if run == [] then st else After(cfg, Do(cfg, st, run[0]), run[1..])
  }

  /** The state at its fullest during a step: when the caller's session has been
      resolved, and perhaps refreshed, but no row has been deleted on its behalf. */
  function Peak(cfg: Config, st: State, t: Timed): State
  {
    match t.action
    case RevokeOne(r, _) => Resolve(cfg, st, Uncached(r), t.now).0
    case RevokeAll(r, _) => Resolve(cfg, st, Uncached(r), t.now).0
    case _ => Do(cfg, st, t)
  }

  // -------------------------------------------- a session was held by the store

  predicate Holds(st: State, token: string, expiresAt: int)
  {
    token in st.store && st.store[token].expiresAt == expiresAt
  }

  /** The store held a row for the token with this expiry, here or later in the run. */
  ghost predicate Held(cfg: Config, st: State, run: seq<Timed>, token: string, expiresAt: int)
    decreases run
  {
    || Holds(st, token, expiresAt)
    || (run != [] && (Holds(Peak(cfg, st, run[0]), token, expiresAt)
                      || Held(cfg, Do(cfg, st, run[0]), run[1..], token, expiresAt)))
  }

  /** What is known of the past: which token was held with which expiry. */
  type Past = iset<(string, int)>

  /** Every cookie out there was once the row of its token. */
  ghost predicate Traced(st: State, past: Past)
  {
    && Keyed(st)
    && (forall t :: t in st.store ==> (t, st.store[t].expiresAt) in past)
    && (forall c :: c in st.issued ==> (c.session.token, c.session.expiresAt) in past)
  }

  ghost function Present(st: State): Past
  {
    iset k: string, e: int | Holds(st, k, e) :: (k, e)
  }

  lemma PresentHolds(st: State, token: string)
    requires token in st.store
    ensures (token, st.store[token].expiresAt) in Present(st)
  {
    assert Holds(st, token, st.store[token].expiresAt);
  }

  lemma CacheIsTraced(cfg: Config, st: State, s: Session, dontRemember: bool, now: int, past: Past)
    requires Traced(st, past) && (s.token, s.expiresAt) in past
    ensures Traced(Cache(cfg, st, s, dontRemember, now), past)
  {
  }

  lemma ResolveIsTraced(cfg: Config, st: State, r: Request, now: int, past: Past)
    requires Traced(st, past)
    ensures var (st', res) := Resolve(cfg, st, r, now);
            && Traced(st', past + Present(st'))
            && (res.Resolved? ==> (res.session.token, res.session.expiresAt) in past + Present(st'))
  {
    var (st', res) := Resolve(cfg, st, r, now);
    forall t | t in st'.store ensures (t, st'.store[t].expiresAt) in past + Present(st') {
      PresentHolds(st', t);
    }
    if res.Resolved? {
      var s := res.session;
      if ServedFromCache(cfg, st, r, now) {
        assert (s.token, s.expiresAt) in past;
      } else {
        assert s == st'.store[s.token];
      }
    }
  }

  lemma CreateIsTraced(cfg: Config, st: State, t: Timed, past: Past)
    requires Traced(st, past) && t.action.SignIn?
    ensures Traced(Do(cfg, st, t), past + Present(Do(cfg, st, t)))
  {
    var st' := Do(cfg, st, t);
    forall k | k in st'.store ensures (k, st'.store[k].expiresAt) in past + Present(st') {
      PresentHolds(st', k);
    }
    assert st'.store[t.action.newToken].expiresAt == t.now + if t.action.remember then cfg.expires else cfg.dontRememberAge;
  }

  lemma UpdateIsTraced(cfg: Config, st: State, r: Request, meta: string, now: int, past: Past)
    requires Traced(st, past)
    ensures var st' := Update(cfg, st, r, meta, now).0; Traced(st', past + Present(st'))
  {
    ResolveIsTraced(cfg, st, r, now, past);
    var (mid, res) := Resolve(cfg, st, r, now);
    var st' := Update(cfg, st, r, meta, now).0;
    SamePresent(mid, st');
    if res.Resolved? && res.session.token in mid.store {
      var s := mid.store[res.session.token].(meta := meta);
      PresentHolds(mid, s.token);
      CacheIsTraced(cfg, mid.(store := mid.store[s.token := s]), s, r.dontRemember, now, past + Present(mid));
    }
  }

  lemma SamePresent(a: State, b: State)
    requires a.store.Keys == b.store.Keys && forall k :: k in a.store ==> a.store[k].expiresAt == b.store[k].expiresAt
    ensures Present(a) == Present(b)
  {
    assert forall k, e :: Holds(a, k, e) <==> Holds(b, k, e);
  }

  /** After every step all cookies are still accounted for, by the past or by the
      rows that the step itself held. */
  lemma StepIsTraced(cfg: Config, st: State, t: Timed, past: Past)
    requires Traced(st, past)
    ensures Traced(Do(cfg, st, t), past + Present(Peak(cfg, st, t)))
  {
    match t.action
    case SignIn(_, _, _, _, _) => CreateIsTraced(cfg, st, t, past);
    case Read(r) => ResolveIsTraced(cfg, st, r, t.now, past);
    case UpdateMeta(r, meta) => UpdateIsTraced(cfg, st, r, meta, t.now, past);
    case RevokeOne(r, _) => ResolveIsTraced(cfg, st, Uncached(r), t.now, past);
    case RevokeAll(r, _) => ResolveIsTraced(cfg, st, Uncached(r), t.now, past);
    case SyncUser(r) => SyncIsTraced(cfg, st, r, t.now, past);
    case _ =>
  }

  lemma SyncIsTraced(cfg: Config, st: State, r: Request, now: int, past: Past)
    requires Traced(st, past)
    ensures var st' := Sync(cfg, st, r, now).0; Traced(st', past + Present(st'))
  {
    ResolveIsTraced(cfg, st, r, now, past);
    var (mid, res) := Resolve(cfg, st, r, now);
    SamePresent(mid, Sync(cfg, st, r, now).0);
    if res.Resolved? {
      CacheIsTraced(cfg, mid, res.session, r.dontRemember, now, past + Present(mid));
    }
  }

  lemma {:induction false} RunIsTraced(cfg: Config, st: State, run: seq<Timed>, past: Past) returns (later: Past)
    requires Traced(st, past)
    ensures Traced(After(cfg, st, run), later)
    ensures forall k, e :: (k, e) in later ==> (k, e) in past || Held(cfg, st, run, k, e)
    decreases run
  {
    if run == [] {
      return past;
    }
    StepIsTraced(cfg, st, run[0], past);
    later := RunIsTraced(cfg, Do(cfg, st, run[0]), run[1..], past + Present(Peak(cfg, st, run[0])));
  }

  /** Over every run from an empty start, a session that is resolved has not expired,
      unless it was refreshed just now under a negative session age, and its token was held
      by the store with the very expiry it is resolved with: no replayed cookie stretches a
      session beyond what the store once granted. */
  lemma ResolvedWasHeld(cfg: Config, users: set<string>, run: seq<Timed>, r: Request, now: int)
    ensures var st := After(cfg, State(users, map[], {}), run);
            var res := Resolve(cfg, st, r, now).1;
            res.Resolved? ==>
              && (now <= res.session.expiresAt || (cfg.expires < 0 && res.session.expiresAt == now + cfg.expires))
              && Held(cfg, State(users, map[], {}), run + [Timed(now, Read(r))], res.session.token, res.session.expiresAt)
  {
    var start := State(users, map[], {});
    var all := run + [Timed(now, Read(r))];
    var past := RunIsTraced(cfg, start, run, iset{});
    var st := After(cfg, start, run);
    var (st', res) := Resolve(cfg, st, r, now);
    ResolveIsTraced(cfg, st, r, now, past);
    if res.Resolved? {
      var k, e := res.session.token, res.session.expiresAt;
      if (k, e) in past {
        HeldInLongerRun(cfg, start, run, Timed(now, Read(r)), k, e);
      } else {
        assert Holds(st', k, e);
        HeldAtTheEnd(cfg, start, run, Timed(now, Read(r)), k, e);
      }
    }
  }

  lemma {:induction false} HeldInLongerRun(cfg: Config, st: State, run: seq<Timed>, t: Timed, token: string, expiresAt: int)
    requires Held(cfg, st, run, token, expiresAt)
    ensures Held(cfg, st, run + [t], token, expiresAt)
    decreases run
  {
    if run != [] && !Holds(st, token, expiresAt) && !Holds(Peak(cfg, st, run[0]), token, expiresAt) {
      HeldInLongerRun(cfg, Do(cfg, st, run[0]), run[1..], t, token, expiresAt);
      assert (run + [t])[1..] == run[1..] + [t];
    }
    assert run != [] ==> (run + [t])[0] == run[0];
  }

  lemma {:induction false} HeldAtTheEnd(cfg: Config, st: State, run: seq<Timed>, t: Timed, token: string, expiresAt: int)
    requires Holds(Peak(cfg, After(cfg, st, run), t), token, expiresAt)
    ensures Held(cfg, st, run + [t], token, expiresAt)
    decreases run
  {
    if run == [] {
      assert (run + [t])[0] == t;
    } else {
      HeldAtTheEnd(cfg, Do(cfg, st, run[0]), run[1..], t, token, expiresAt);
      assert (run + [t])[0] == run[0] && (run + [t])[1..] == run[1..] + [t];
    }
  }

  // -------------------------------------------- how a row may change

  /** The request, if any, with which the step resolves its caller. */
  function CallerOf(a: Action): Option<Request>
  {
    match a
    case Read(r) => Some(r)
    case UpdateMeta(r, _) => Some(r)
    case RevokeOne(r, _) => Some(Uncached(r))
    case RevokeAll(r, _) => Some(Uncached(r))
    case SyncUser(r) => Some(r)
    case _ => None
  }

  predicate RefreshesToken(cfg: Config, st: State, t: Timed, token: string)
  {
    var r := CallerOf(t.action);
    r.Some? && RefreshesRow(cfg, st, r.value, t.now, token)
  }

  predicate RefreshesRow(cfg: Config, st: State, r: Request, now: int, token: string)
  {
    r.token == Some(token) && Refreshes(cfg, st, r, now)
  }

  /** Between the two states no row appeared, and the expiry of the token moved only
      if it was refreshed. */
  ghost predicate ExpiryMoves(cfg: Config, st: State, st': State, token: string, refreshed: bool, now: int)
  {
    && Keyed(st')
    && (token in st'.store ==>
          && token in st.store
          && st'.store[token].expiresAt == if refreshed then now + cfg.expires else st.store[token].expiresAt)
  }

  lemma ResolveMovesExpiry(cfg: Config, st: State, r: Request, now: int, token: string)
    requires Keyed(st)
    ensures ExpiryMoves(cfg, st, Resolve(cfg, st, r, now).0, token, RefreshesRow(cfg, st, r, now, token), now)
  {
  }

  lemma UpdateMovesExpiry(cfg: Config, st: State, r: Request, meta: string, now: int, token: string)
    requires Keyed(st)
    ensures ExpiryMoves(cfg, st, Update(cfg, st, r, meta, now).0, token, RefreshesRow(cfg, st, r, now, token), now)
  {
    ResolveMovesExpiry(cfg, st, r, now, token);
    var (mid, res) := Resolve(cfg, st, r, now);
    if res.Resolved? && res.session.token in mid.store {
      assert Keyed(Update(cfg, st, r, meta, now).0);
    }
  }

  /** A refresh is due `updateAge` after the last; it sets the expiry to `expires`
      from now, and nothing else moves the expiry of an existing row. */
  lemma StepMovesExpiry(cfg: Config, st: State, t: Timed, token: string)
    requires Keyed(st) && !(t.action.SignIn? && t.action.newToken == token)
    ensures RefreshesToken(cfg, st, t, token) ==>
              token in st.store && t.now >= st.store[token].expiresAt - cfg.expires + cfg.updateAge
    ensures ExpiryMoves(cfg, st, Do(cfg, st, t), token, RefreshesToken(cfg, st, t, token), t.now)
  {
    match t.action
    case Read(r) => ResolveMovesExpiry(cfg, st, r, t.now, token);
    case UpdateMeta(r, meta) => UpdateMovesExpiry(cfg, st, r, meta, t.now, token);
    case RevokeOne(r, _) => ResolveMovesExpiry(cfg, st, Uncached(r), t.now, token);
    case RevokeAll(r, _) => ResolveMovesExpiry(cfg, st, Uncached(r), t.now, token);
    case SyncUser(r) => ResolveMovesExpiry(cfg, st, r, t.now, token);
    case _ =>
  }

  // -------------------------------------------- a deleted session

  ghost predicate NeverCreated(run: seq<Timed>, token: string)
  {
    forall i :: 0 <= i < |run| ==> !(run[i].action.SignIn? && run[i].action.newToken == token)
  }

  /** No step but signing in with the token brings it into the store. */
  lemma OnlySignInCreates(cfg: Config, st: State, t: Timed, token: string)
    requires Keyed(st) && token !in st.store && !(t.action.SignIn? && t.action.newToken == token)
    ensures Keyed(Do(cfg, st, t)) && token !in Do(cfg, st, t).store && token !in Peak(cfg, st, t).store
  {
    StepMovesExpiry(cfg, st, t, token);
    if t.action.RevokeOne? || t.action.RevokeAll? {
      ResolveMovesExpiry(cfg, st, Uncached(t.action.r), t.now, token);
    }
  }

  /** A token once deleted, and its random value never drawn again, is held no more. */
  lemma {:induction false} DeletedIsNotHeld(cfg: Config, st: State, run: seq<Timed>, token: string, expiresAt: int)
    requires Keyed(st) && token !in st.store && NeverCreated(run, token)
    ensures !Held(cfg, st, run, token, expiresAt)
    ensures Keyed(After(cfg, st, run)) && token !in After(cfg, st, run).store
    decreases run
  {
    if run != [] {
      OnlySignInCreates(cfg, st, run[0], token);
      DeletedIsNotHeld(cfg, Do(cfg, st, run[0]), run[1..], token, expiresAt);
    }
  }

  /** The last moment at which a replayed cookie with this expiry can still serve
      the request. */
  function LastHit(cfg: Config, r: Request, expiresAt: int): int
  {
    if Deferred(cfg, r) || cfg.disableRefresh || r.disableRefresh || r.dontRemember then expiresAt
    else
      var refreshDue := expiresAt - cfg.expires + cfg.updateAge;
      if refreshDue - 1 < expiresAt then refreshDue - 1 else expiresAt
  }

  /** After deletion only replayed cookies can resolve the token, with an expiry held
      before the deletion (`past`), and for requests that would refresh not even
      until then. Requests that bypass the cookie never resolve it. */
  lemma DeletedSessionDies(cfg: Config, st: State, run: seq<Timed>, r: Request, now: int, token: string, past: Past)
    requires Traced(st, past) && token !in st.store && NeverCreated(run, token)
    ensures var res := Resolve(cfg, After(cfg, st, run), r, now).1;
            res.Resolved? && res.session.token == token ==>
              && (token, res.session.expiresAt) in past
              && now <= LastHit(cfg, r, res.session.expiresAt)
              && !r.disableCache && cfg.cacheEnabled
  {
    var later := RunIsTraced(cfg, st, run, past);
    var end := After(cfg, st, run);
    var res := Resolve(cfg, end, r, now).1;
    if res.Resolved? && res.session.token == token {
      DeletedIsNotHeld(cfg, st, run, token, res.session.expiresAt);
      assert ServedFromCache(cfg, end, r, now);
    }
  }

  /** What a client that holds nothing but a cache cookie asks. */
  function CookieOnly(c: CacheCookie, post: bool, disableRefresh: bool): Request
  {
    Request(None, Some(c), false, post, false, disableRefresh)
  }

  /** Reads at the given times, each with the cookie that the visit before it handed
      out; `previous` is the time of that visit. */
  ghost function Visits(cfg: Config, s: Session, previous: int, times: seq<int>, post: bool, disableRefresh: bool): seq<Timed>
    decreases times
  {
    if times == [] then []
    else
      [Timed(times[0], Read(CookieOnly(CacheCookie(s, previous + cfg.cacheMaxAge), post, disableRefresh)))]
      + Visits(cfg, s, times[0], times[1..], post, disableRefresh)
  }

  /** Every visit comes before the cookie of the one before it runs out. */
  ghost predicate Frequent(cfg: Config, previous: int, times: seq<int>)
    decreases times
  {
    times != [] ==> previous <= times[0] <= previous + cfg.cacheMaxAge && Frequent(cfg, times[0], times[1..])
  }

  /** Each read of the run resolves the session. */
  ghost predicate AllResolve(cfg: Config, st: State, run: seq<Timed>, s: Session)
    decreases run
  {
    run != [] ==>
      && run[0].action.Read?
      && Resolve(cfg, st, run[0].action.r, run[0].now).1.Resolved?
      && Resolve(cfg, st, run[0].action.r, run[0].now).1.session == s
      && AllResolve(cfg, Do(cfg, st, run[0]), run[1..], s)
  }

  /** One visit in time resolves the session, hands out the next cookie and writes nothing. */
  lemma VisitResolves(cfg: Config, st: State, c: CacheCookie, post: bool, disableRefresh: bool, now: int)
    requires cfg.cacheEnabled && cfg.compact && c in st.issued
    requires now <= c.expiresAt && now <= LastHit(cfg, CookieOnly(c, post, disableRefresh), c.session.expiresAt)
    ensures var (st', res) := Resolve(cfg, st, CookieOnly(c, post, disableRefresh), now);
            && res.Resolved? && res.session == c.session && st'.store == st.store
            && CacheCookie(c.session, now + cfg.cacheMaxAge) in st'.issued
  {
    var r := CookieOnly(c, post, disableRefresh);
    assert ServedFromCache(cfg, st, r, now);
  }

  lemma {:induction false} VisitsResolve(cfg: Config, st: State, s: Session, previous: int, times: seq<int>, post: bool, disableRefresh: bool)
    requires cfg.cacheEnabled && cfg.compact && Frequent(cfg, previous, times)
    requires CacheCookie(s, previous + cfg.cacheMaxAge) in st.issued && s.token !in st.store
    requires forall i :: 0 <= i < |times| ==> times[i] <= LastHit(cfg, CookieOnly(CacheCookie(s, 0), post, disableRefresh), s.expiresAt)
    ensures AllResolve(cfg, st, Visits(cfg, s, previous, times, post, disableRefresh), s)
    ensures s.token !in After(cfg, st, Visits(cfg, s, previous, times, post, disableRefresh)).store
    decreases times
  {
    if times != [] {
      var c := CacheCookie(s, previous + cfg.cacheMaxAge);
      var run := Visits(cfg, s, previous, times, post, disableRefresh);
      VisitResolves(cfg, st, c, post, disableRefresh, times[0]);
      VisitsResolve(cfg, Do(cfg, st, run[0]), s, times[0], times[1..], post, disableRefresh);
      assert run[1..] == Visits(cfg, s, times[0], times[1..], post, disableRefresh);
    }
  }

  /** A user signs in, the session is deleted, and a client that comes back often enough
      is still resolved on every visit up to the last moment that `DeletedSessionDies`
      allows, although the row is gone all the while. */
  lemma DeletedSessionLingers(cfg: Config, st: State, user: string, token: string, meta: string, remember: bool,
                              signedInAt: int, deletedAt: int, times: seq<int>, post: bool, disableRefresh: bool)
    requires cfg.cacheEnabled && cfg.compact && user in st.users
    requires Frequent(cfg, signedInAt, times) && signedInAt <= deletedAt && (times != [] ==> deletedAt <= times[0])
    ensures var signedIn := Do(cfg, st, Timed(signedInAt, SignIn(user, token, meta, remember, false)));
            var deleted := Do(cfg, signedIn, Timed(deletedAt, Drop({token})));
            var s := signedIn.store[token];
            var visits := Visits(cfg, s, signedInAt, times, post, disableRefresh);
            var last := LastHit(cfg, CookieOnly(CacheCookie(s, 0), post, disableRefresh), s.expiresAt);
            (forall i :: 0 <= i < |times| ==> times[i] <= last) ==>
              AllResolve(cfg, deleted, visits, s) && token !in After(cfg, deleted, visits).store
  {
    var signedIn := Do(cfg, st, Timed(signedInAt, SignIn(user, token, meta, remember, false)));
    var deleted := Do(cfg, signedIn, Timed(deletedAt, Drop({token})));
    var s := signedIn.store[token];
    var last := LastHit(cfg, CookieOnly(CacheCookie(s, 0), post, disableRefresh), s.expiresAt);
    if forall i :: 0 <= i < |times| ==> times[i] <= last {
      VisitsResolve(cfg, deleted, s, signedInAt, times, post, disableRefresh);
    }
  }

  ghost function EveryMoment(from: int, last: int): (times: seq<int>)
    ensures forall i :: 0 <= i < |times| ==> from < times[i] <= last
    ensures from < last ==> times != [] && times[|times| - 1] == last
    decreases last - from
  {
    if from >= last then [] else [from + 1] + EveryMoment(from + 1, last)
  }

  lemma {:induction false} EveryMomentIsFrequent(cfg: Config, from: int, last: int)
    requires cfg.cacheMaxAge >= 1
    ensures Frequent(cfg, from, EveryMoment(from, last))
    decreases last - from
  {
    if from < last {
      EveryMomentIsFrequent(cfg, from + 1, last);
      assert EveryMoment(from, last)[1..] == EveryMoment(from + 1, last);
    }
  }

  /** The bound is met, whether refreshing is deferred or not: a session that is deleted
      as soon as it is made can be resolved at the very last moment. */
  lemma LastMomentIsReached(cfg: Config, st: State, user: string, token: string, meta: string, remember: bool,
                            signedInAt: int, post: bool, disableRefresh: bool)
    returns (times: seq<int>)
    requires cfg.cacheEnabled && cfg.compact && cfg.cacheMaxAge >= 1 && user in st.users
    ensures var signedIn := Do(cfg, st, Timed(signedInAt, SignIn(user, token, meta, remember, false)));
            var deleted := Do(cfg, signedIn, Timed(signedInAt, Drop({token})));
            var s := signedIn.store[token];
            var visits := Visits(cfg, s, signedInAt, times, post, disableRefresh);
            var last := LastHit(cfg, CookieOnly(CacheCookie(s, 0), post, disableRefresh), s.expiresAt);
            signedInAt < last ==>
              && times != [] && times[|times| - 1] == last
              && AllResolve(cfg, deleted, visits, s) && token !in After(cfg, deleted, visits).store
  {
    var signedIn := Do(cfg, st, Timed(signedInAt, SignIn(user, token, meta, remember, false)));
    var s := signedIn.store[token];
    var last := LastHit(cfg, CookieOnly(CacheCookie(s, 0), post, disableRefresh), s.expiresAt);
    times := EveryMoment(signedInAt, last);
    EveryMomentIsFrequent(cfg, signedInAt, last);
    DeletedSessionLingers(cfg, st, user, token, meta, remember, signedInAt, signedInAt, times, post, disableRefresh);
  }

  // -------------------------------------------- how often a session is refreshed

  /** When the row of the token was rewritten with a later expiry. */
  ghost function Refreshed(cfg: Config, st: State, run: seq<Timed>, token: string): seq<int>
    decreases run
  {
    if run == [] then []
    else
      (if RefreshesToken(cfg, st, run[0], token) then [run[0].now] else []) + Refreshed(cfg, Do(cfg, st, run[0]), run[1..], token)
  }

  ghost predicate InOrder(run: seq<Timed>, from: int)
  {
    && (forall i :: 0 <= i < |run| ==> from <= run[i].now)
    && (forall i, j :: 0 <= i <= j < |run| ==> run[i].now <= run[j].now)
  }

  ghost predicate LogOk(cfg: Config, st: State, token: string, ts: seq<int>, clock: int)
  {
    && Nondecreasing(ts) && Spaced(ts, 1, cfg.updateAge)
    && (forall i :: 0 <= i < |ts| ==> ts[i] <= clock)
    && (ts != [] && token in st.store ==> st.store[token].expiresAt == ts[|ts| - 1] + cfg.expires)
  }

  lemma RefreshedUnfold(cfg: Config, st: State, run: seq<Timed>, token: string, ts: seq<int>)
    requires run != []
    ensures var here := if RefreshesToken(cfg, st, run[0], token) then [run[0].now] else [];
            ts + Refreshed(cfg, st, run, token) == (ts + here) + Refreshed(cfg, Do(cfg, st, run[0]), run[1..], token)
  {
  }

  lemma LogStep(cfg: Config, st: State, t: Timed, token: string, ts: seq<int>, clock: int) returns (ts': seq<int>)
    requires Keyed(st) && !(t.action.SignIn? && t.action.newToken == token)
    requires cfg.updateAge >= 0 && clock <= t.now && LogOk(cfg, st, token, ts, clock)
    ensures ts' == ts + if RefreshesToken(cfg, st, t, token) then [t.now] else []
    ensures LogOk(cfg, Do(cfg, st, t), token, ts', t.now)
  {
    StepMovesExpiry(cfg, st, t, token);
    if RefreshesToken(cfg, st, t, token) {
      ts' := ts + [t.now];
      assert ts != [] ==> ts[|ts| - 1] + cfg.updateAge <= t.now;
    } else {
      ts' := ts + [];
      assert ts' == ts;
    }
  }

  lemma {:induction false} RefreshesAreSpaced(cfg: Config, st: State, run: seq<Timed>, token: string, ts: seq<int>, clock: int)
    requires Keyed(st) && cfg.updateAge >= 0 && InOrder(run, clock) && NeverCreated(run, token)
    requires LogOk(cfg, st, token, ts, clock)
    ensures var all := ts + Refreshed(cfg, st, run, token);
            Nondecreasing(all) && Spaced(all, 1, cfg.updateAge)
    decreases run
  {
    if run == [] {
      assert ts + Refreshed(cfg, st, run, token) == ts;
    } else {
      StepMovesExpiry(cfg, st, run[0], token);
      var ts' := LogStep(cfg, st, run[0], token, ts, clock);
      assert InOrder(run[1..], run[0].now);
      RefreshesAreSpaced(cfg, Do(cfg, st, run[0]), run[1..], token, ts', run[0].now);
      RefreshedUnfold(cfg, st, run, token, ts);
    }
  }

  /** Refreshes of one session lie `updateAge` apart, so that a window of length
      `span` sees at most span / updateAge + 1 of them. */
  lemma RefreshBound(cfg: Config, st: State, run: seq<Timed>, token: string, from: int, span: nat)
    requires Keyed(st) && cfg.updateAge >= 1 && NeverCreated(run, token)
    requires run != [] ==> InOrder(run, run[0].now)
    ensures Spaced(Refreshed(cfg, st, run, token), 1, cfg.updateAge)
    ensures CountWithin(Refreshed(cfg, st, run, token), from, from + span) <= span / cfg.updateAge + 1
  {
    var clock := if run == [] then 0 else run[0].now;
    RefreshesAreSpaced(cfg, st, run, token, [], clock);
    var ts := Refreshed(cfg, st, run, token);
    assert [] + ts == ts;
    WindowBound(ts, 1, cfg.updateAge, from, span);
  }

}
