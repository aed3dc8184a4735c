/** Sign-in sessions: the stored row, its refresh, and the signed cookie that
    caches it at the client. Times are in milliseconds. */
module Sessions {
  import opened Common

  datatype Session = Session(token: string, user: string, expiresAt: int, meta: string)

  /** A cache cookie that the server has signed. */
  datatype CacheCookie = CacheCookie(session: Session, expiresAt: int)

  datatype Config = Config(
    expires: int, updateAge: int, dontRememberAge: int,
    cacheEnabled: bool, compact: bool, cacheMaxAge: int,
    deferRefresh: bool, disableRefresh: bool)

  /** `issued` holds every cache cookie ever handed out: a cookie decodes exactly
      if it is one of these, and a client may present any of them at any time. */
  datatype State = State(users: set<string>, store: map<string, Session>, issued: set<CacheCookie>)

  datatype Request = Request(
    token: Option<string>, cookie: Option<CacheCookie>, dontRemember: bool, post: bool,
    disableCache: bool, disableRefresh: bool)

  datatype Resolved = Unauthorized | Resolved(session: Session, needsRefresh: bool)

  /** `setSessionCache`. */
  function Cache(cfg: Config, st: State, s: Session, dontRemember: bool, now: int): State
  {
    if !cfg.cacheEnabled || !cfg.compact then st
    else st.(issued := st.issued + {CacheCookie(s, now + if dontRemember then 0 else cfg.cacheMaxAge)})
  }

  /** `sessionFromCache`. */
  predicate CacheHit(cfg: Config, st: State, r: Request, now: int)
  {
    && cfg.cacheEnabled && cfg.compact && !r.disableCache
    && r.cookie.Some? && r.cookie.value in st.issued
    && now <= r.cookie.value.expiresAt && now <= r.cookie.value.session.expiresAt
  }

  /** `shouldRefresh`. */
  predicate ShouldRefresh(cfg: Config, r: Request, s: Session, now: int)
  {
    !cfg.disableRefresh && !r.disableRefresh && !r.dontRemember && now >= s.expiresAt - cfg.expires + cfg.updateAge
  }

  /** Refreshing is put off: a read in deferred mode only reports that it is due. */
  predicate Deferred(cfg: Config, r: Request)
  {
    cfg.deferRefresh && !r.post
  }

  predicate ServedFromCache(cfg: Config, st: State, r: Request, now: int)
  {
    CacheHit(cfg, st, r, now) && (Deferred(cfg, r) || !ShouldRefresh(cfg, r, r.cookie.value.session, now))
  }

  /** The store row of the presented token, if its user exists (`FindSessionByToken`). */
  predicate Found(st: State, r: Request)
  {
    r.token.Some? && r.token.value in st.store && st.store[r.token.value].user in st.users
  }

  /** The request rewrites the row of its token with a later expiry. */
  predicate Refreshes(cfg: Config, st: State, r: Request, now: int)
  {
    && !ServedFromCache(cfg, st, r, now) && Found(st, r)
    && var s := st.store[r.token.value];
    now <= s.expiresAt && !Deferred(cfg, r) && ShouldRefresh(cfg, r, s, now)
  }

  /** `resolveSession` for a request without an injected session. */
  function Resolve(cfg: Config, st: State, r: Request, now: int): (State, Resolved)
  {
    if ServedFromCache(cfg, st, r, now) then
      var s := r.cookie.value.session;
      (Cache(cfg, st, s, r.dontRemember, now), Resolved(s, ShouldRefresh(cfg, r, s, now)))
    else if !Found(st, r) then (st, Unauthorized)
    else
      var s := st.store[r.token.value];
      if now > s.expiresAt then
        (if Deferred(cfg, r) then st else st.(store := st.store - {s.token}), Unauthorized)
      else if Deferred(cfg, r) then
        (Cache(cfg, st, s, r.dontRemember, now), Resolved(s, ShouldRefresh(cfg, r, s, now)))
      else if ShouldRefresh(cfg, r, s, now) then
        var later := s.(expiresAt := now + cfg.expires);
        (Cache(cfg, st.(store := st.store[s.token := later]), later, r.dontRemember, now), Resolved(later, false))
      else
        (Cache(cfg, st, s, r.dontRemember, now), Resolved(s, false))
  }

  /** `createSession`; `token` is freshly generated. */
  function Create(cfg: Config, st: State, user: string, token: string, meta: string, remember: bool, dontRememberCookie: bool, now: int): State
  {
    var s := Session(token, user, now + if remember then cfg.expires else cfg.dontRememberAge, meta);
    var st' := st.(store := st.store[token := s]);
    if user in st.users then Cache(cfg, st', s, dontRememberCookie, now) else st'
  }

  /** `handleUpdateSession`: the row gets new client data but keeps its expiry. */
  function Update(cfg: Config, st: State, r: Request, meta: string, now: int): (State, bool)
  {
    var (st', res) := Resolve(cfg, st, r, now);
    if res.Unauthorized? || res.session.token !in st'.store then (st', false)
    else
      var s := st'.store[res.session.token].(meta := meta);
      (Cache(cfg, st'.(store := st'.store[s.token := s]), s, r.dontRemember, now), true)
  }

  /** The authenticated caller of the revoke handlers, which ignore the cache. */
  function Uncached(r: Request): Request
  {
    r.(disableCache := true)
  }

  /** `handleRevokeSession`. */
  function Revoke(cfg: Config, st: State, r: Request, target: string, now: int): (State, bool)
  {
    var (st', res) := Resolve(cfg, st, Uncached(r), now);
    if res.Unauthorized? then (st', false)
    else if target in st'.store && st'.store[target].user in st'.users && st'.store[target].user == res.session.user then
      (st'.(store := st'.store - {target}), true)
    else (st', true)
  }

  /** The sessions of the user, apart from the spared tokens. */
  function TokensOfUser(store: map<string, Session>, user: string, spared: set<string>): set<string>
  {
    set t | t in store && store[t].user == user && t !in spared
  }

  /** `handleRevokeSessions` (`others` false) and `handleRevokeOtherSessions`. */
  function RevokeMany(cfg: Config, st: State, r: Request, others: bool, now: int): (State, bool)
  {
    var (st', res) := Resolve(cfg, st, Uncached(r), now);
    if res.Unauthorized? then (st', false)
    else
      var spared := if others then {res.session.token} else {};
      (st'.(store := st'.store - TokensOfUser(st'.store, res.session.user, spared)), true)
  }

  /** A handler that changes the caller's own user row and caches it again
      (`SyncUserSession` after `RequireSession`). */
  function Sync(cfg: Config, st: State, r: Request, now: int): (State, bool)
  {
    var (st', res) := Resolve(cfg, st, r, now);
    if res.Unauthorized? then (st', false) else (Cache(cfg, st', res.session, r.dontRemember, now), true)
  }

  /** Answers of `handleGetSession`. */
  datatype Answer = MethodNotAllowed | NoSession | Current(session: Session, needsRefresh: bool)

  /** `Valid`: a row is stored under its own token. */
  ghost predicate Keyed(st: State)
  {
    forall t :: t in st.store ==> st.store[t].token == t
  }

  /** Only a read in deferred mode is ever told that a refresh is due, so the
      refreshing branch of a POST to `get-session` cannot be reached. */
  lemma OnlyDeferredReadsNeedRefresh(cfg: Config, st: State, r: Request, now: int)
    ensures var res := Resolve(cfg, st, r, now).1; res.Resolved? && res.needsRefresh ==> Deferred(cfg, r) && !r.post
  {
  }

  /** A deferred read leaves the store as it is, even the row of an expired session. */
  lemma DeferredReadsLeaveStore(cfg: Config, st: State, r: Request, now: int)
    requires Deferred(cfg, r)
    ensures Resolve(cfg, st, r, now).0.store == st.store
  {
  }

  class Auth {
    const cfg: Config
    var users: set<string>
    var store: map<string, Session>
    var issued: set<CacheCookie>
    /** How many refreshes have been written to the store. */
    ghost var writes: nat

    ghost function Now(): State
      reads this
    {
      State(users, store, issued)
    }

    ghost predicate Valid()
      reads this
    {
      Keyed(Now())
    }

    constructor (cfg: Config)
      ensures Valid() && this.cfg == cfg && Now() == State({}, map[], {}) && writes == 0
    {
      this.cfg := cfg;
      users, store, issued, writes := {}, map[], {}, 0;
    }

    method SetSessionCache(s: Session, dontRemember: bool, now: int)
      modifies this`issued
      ensures Now() == Cache(cfg, old(Now()), s, dontRemember, now)
    {
      if !cfg.cacheEnabled || !cfg.compact {
        return;
      }
      var maxAge := cfg.cacheMaxAge;
      if dontRemember {
        maxAge := 0;
      }
      issued := issued + {CacheCookie(s, now + maxAge)};
    }

    method SessionFromCache(r: Request, now: int) returns (cached: Option<Session>)
      ensures cached == if CacheHit(cfg, Now(), r, now) then Some(r.cookie.value.session) else None
    {
      if !cfg.cacheEnabled || r.disableCache || !cfg.compact || r.cookie.None? {
        return None;
      }
      var c := r.cookie.value;
      if c !in issued || c.expiresAt < now || c.session.expiresAt < now {
        return None;
      }
      return Some(c.session);
    }

    method RefreshSession(s: Session, now: int) returns (updated: Session)
      requires Valid() && s.token in store && store[s.token] == s
      modifies this`store, this`writes
      ensures Valid() && writes == old(writes) + 1
      ensures updated == s.(expiresAt := now + cfg.expires)
      ensures Now() == old(Now()).(store := old(store)[s.token := updated])
    {
      updated := store[s.token].(expiresAt := now + cfg.expires);
      store := store[s.token := updated];
      writes := writes + 1;
    }

    method ResolveSession(r: Request, now: int) returns (res: Resolved)
      requires Valid()
      modifies this
      ensures Valid()
      ensures (Now(), res) == Resolve(cfg, old(Now()), r, now)
      ensures writes == old(writes) + if Refreshes(cfg, old(Now()), r, now) then 1 else 0
    {
      var cached := SessionFromCache(r, now);
      if cached.Some? {
        var needsRefresh := ShouldRefresh(cfg, r, cached.value, now);
        if cfg.deferRefresh && !r.post {
          SetSessionCache(cached.value, r.dontRemember, now);
          return Resolved(cached.value, needsRefresh);
        }
        if !needsRefresh {
          SetSessionCache(cached.value, r.dontRemember, now);
          return Resolved(cached.value, false);
        }
      }
      if r.token.None? || r.token.value !in store || store[r.token.value].user !in users {
        return Unauthorized;
      }
      var s := store[r.token.value];
      if now > s.expiresAt {
        if !cfg.deferRefresh || r.post {
          store := store - {s.token};
        }
        return Unauthorized;
      }
      var needsRefresh := ShouldRefresh(cfg, r, s, now);
      if cfg.deferRefresh && !r.post {
        SetSessionCache(s, r.dontRemember, now);
        return Resolved(s, needsRefresh);
      }
      if needsRefresh {
        s := RefreshSession(s, now);
      }
      SetSessionCache(s, r.dontRemember, now);
      return Resolved(s, false);
    }

    /** `handleGetSession`, with the branch that would refresh once more. */
    method HandleGetSession(r: Request, now: int) returns (a: Answer)
      requires Valid()
      modifies this
      ensures Valid() && writes <= old(writes) + 1
      ensures if r.post && !cfg.deferRefresh then a == MethodNotAllowed && Now() == old(Now())
              else
                var (st, res) := Resolve(cfg, old(Now()), r, now);
                Now() == st && a == if res.Unauthorized? then NoSession else Current(res.session, res.needsRefresh)
    {
      if r.post && !cfg.deferRefresh {
        return MethodNotAllowed;
      }
      OnlyDeferredReadsNeedRefresh(cfg, Now(), r, now);
      var res := ResolveSession(r, now);
      if res.Unauthorized? {
        return NoSession;
      }
      var s, needsRefresh := res.session, res.needsRefresh;
      if r.post && needsRefresh && ShouldRefresh(cfg, r, s, now) {
        assert false;
      }
      return Current(s, needsRefresh);
    }

    method CreateSession(user: string, token: string, meta: string, remember: bool, dontRememberCookie: bool, now: int)
      requires Valid()
      modifies this
      ensures Valid() && writes == old(writes)
      ensures Now() == Create(cfg, old(Now()), user, token, meta, remember, dontRememberCookie, now)
    {
      var expiresAt := now + cfg.expires;
      if !remember {
        expiresAt := now + cfg.dontRememberAge;
      }
      var s := Session(token, user, expiresAt, meta);
      store := store[token := s];
      if user in users {
        SetSessionCache(s, dontRememberCookie, now);
      }
    }

    method HandleUpdateSession(r: Request, meta: string, now: int) returns (ok: bool)
      requires Valid()
      modifies this
      ensures Valid() && writes <= old(writes) + 1
      ensures (Now(), ok) == Update(cfg, old(Now()), r, meta, now)
    {
      var res := ResolveSession(r, now);
      if res.Unauthorized? || res.session.token !in store {
        return false;
      }
      var updated := store[res.session.token].(meta := meta);
      store := store[res.session.token := updated];
      SetSessionCache(updated, r.dontRemember, now);
      return true;
    }

    method HandleRevokeSession(r: Request, target: string, now: int) returns (ok: bool)
      requires Valid()
      modifies this
      ensures Valid() && writes <= old(writes) + 1
      ensures (Now(), ok) == Revoke(cfg, old(Now()), r, target, now)
    {
      var res := ResolveSession(r.(disableCache := true), now);
      if res.Unauthorized? {
        return false;
      }
      if target in store && store[target].user in users && store[target].user == res.session.user {
        store := store - {target};
      }
      return true;
    }

    method HandleRevokeSessions(r: Request, now: int) returns (ok: bool)
      requires Valid()
      modifies this
      ensures Valid() && writes <= old(writes) + 1
      ensures (Now(), ok) == RevokeMany(cfg, old(Now()), r, false, now)
    {
      var res := ResolveSession(r.(disableCache := true), now);
      if res.Unauthorized? {
        return false;
      }
      store := store - TokensOfUser(store, res.session.user, {});
      return true;
    }

    method HandleRevokeOtherSessions(r: Request, now: int) returns (ok: bool)
      requires Valid()
      modifies this
      ensures Valid() && writes <= old(writes) + 1
      ensures (Now(), ok) == RevokeMany(cfg, old(Now()), r, true, now)
    {
      var res := ResolveSession(r.(disableCache := true), now);
      if res.Unauthorized? {
        return false;
      }
      store := store - TokensOfUser(store, res.session.user, {res.session.token});
      return true;
    }
  }

}
