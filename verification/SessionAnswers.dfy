/** What the session handlers answer and leave behind, in terms of the stored rows and of
    the presented cookie, and how long a session lasts. */
module SessionAnswers {
  import opened Common
  import opened Sessions
  import opened SessionSafety

  /** The token of the request has a row, its user exists, and it has not expired. */
  predicate Good(st: State, r: Request, now: int)
  {
    && r.token.Some? && r.token.value in st.store && st.store[r.token.value].user in st.users
    && now <= st.store[r.token.value].expiresAt
  }

  /** A refresh of a session with this expiry is due and wanted. */
  predicate Due(cfg: Config, r: Request, expiresAt: int, now: int)
  {
    && !cfg.disableRefresh && !r.disableRefresh && !r.dontRemember
    && now - (expiresAt - cfg.expires) >= cfg.updateAge
  }

  /** The cookie of the request may be used: it was issued, neither it nor its session has
      expired, and no refresh has to be written first. */
  predicate Usable(cfg: Config, st: State, r: Request, now: int)
  {
    && cfg.cacheEnabled && cfg.compact && !r.disableCache && r.cookie.Some?
    && r.cookie.value in st.issued
    && now <= r.cookie.value.expiresAt && now <= r.cookie.value.session.expiresAt
    && (Due(cfg, r, r.cookie.value.session.expiresAt, now) ==> cfg.deferRefresh && !r.post)
  }

  /** A cookie for the session, if cookies are on: for the length of the cache window, or
      for no time at all for a client that is not to be remembered. */
  function NewCookies(cfg: Config, s: Session, dontRemember: bool, now: int): set<CacheCookie>
  {
    if cfg.cacheEnabled && cfg.compact then {CacheCookie(s, if dontRemember then now else now + cfg.cacheMaxAge)} else {}
  }

  /** Who is resolved: exactly who presents a usable cookie or the token of a good row. */
  lemma WhoIsResolved(cfg: Config, st: State, r: Request, now: int)
    ensures Resolve(cfg, st, r, now).1.Resolved? <==> Usable(cfg, st, r, now) || Good(st, r, now)
  {
  }

  /** A usable cookie answers with its session, reports whether a refresh is due, leaves
      the rows alone and is renewed. */
  lemma CookieAnswers(cfg: Config, st: State, r: Request, now: int)
    requires Usable(cfg, st, r, now)
    ensures var s := r.cookie.value.session;
            Resolve(cfg, st, r, now) ==
            (st.(issued := st.issued + NewCookies(cfg, s, r.dontRemember, now)), Resolved(s, Due(cfg, r, s.expiresAt, now)))
  {
  }

  /** A cookie that is not usable is as good as none. */
  lemma UselessCookie(cfg: Config, st: State, r: Request, now: int)
    requires !Usable(cfg, st, r, now)
    ensures Resolve(cfg, st, r, now) == Resolve(cfg, st, r.(cookie := None), now)
  {
  }

  /** Without a usable cookie a good row answers. The session is the row, with its expiry
      moved if a refresh is due and not put off; that, and a cookie, is all that changes. */
  lemma RowAnswers(cfg: Config, st: State, r: Request, now: int)
    requires Keyed(st) && Good(st, r, now) && !Usable(cfg, st, r, now)
    ensures var row := st.store[r.token.value];
            var due, deferred := Due(cfg, r, row.expiresAt, now), cfg.deferRefresh && !r.post;
            var (st', res) := Resolve(cfg, st, r, now);
            && res.Resolved? && (res.needsRefresh <==> due && deferred)
            && res.session.token == r.token.value && res.session.user == row.user && res.session.meta == row.meta
            && res.session.expiresAt == (if due && !deferred then now + cfg.expires else row.expiresAt)
            && st'.store == st.store[r.token.value := res.session]
            && st'.issued == st.issued + NewCookies(cfg, res.session, r.dontRemember, now)
            && st'.users == st.users
  {
  }

  /** Whoever is not resolved changes nothing, except that an expired row goes unless the
      request is a read in deferred mode. */
  lemma RefusalLeaves(cfg: Config, st: State, r: Request, now: int)
    requires Keyed(st) && !Usable(cfg, st, r, now) && !Good(st, r, now)
    ensures var (st', res) := Resolve(cfg, st, r, now);
            var expired := r.token.Some? && r.token.value in st.store && st.store[r.token.value].user in st.users;
            && res == Unauthorized && st'.issued == st.issued && st'.users == st.users
            && st'.store == if expired && (!cfg.deferRefresh || r.post) then st.store - {r.token.value} else st.store
  {
  }

  /** A new session lasts for the session age, or for the shorter age of clients that are
      not to be remembered, and is cached if its user exists. */
  lemma SignInLeaves(cfg: Config, st: State, user: string, token: string, meta: string, remember: bool, dontRemember: bool, now: int)
    ensures var s := Session(token, user, if remember then now + cfg.expires else now + cfg.dontRememberAge, meta);
            var st' := Create(cfg, st, user, token, meta, remember, dontRemember, now);
            && st'.store == st.store[token := s] && st'.users == st.users
            && st'.issued == st.issued + if user in st.users then NewCookies(cfg, s, dontRemember, now) else {}
  {
  }

  /** Updating succeeds exactly for a caller whose session has a row afterwards; then the
      row says what was asked, with the same expiry, and no other row changes. */
  lemma UpdateAnswers(cfg: Config, st: State, r: Request, meta: string, now: int)
    requires Keyed(st)
    ensures var (mid, res) := Resolve(cfg, st, r, now);
            var (st', ok) := Update(cfg, st, r, meta, now);
            && (ok <==> res.Resolved? && res.session.token in mid.store)
            && (!ok ==> st' == mid)
            && (ok ==>
                  var row := mid.store[res.session.token];
                  && st'.store == mid.store[res.session.token := Session(row.token, row.user, row.expiresAt, meta)]
                  && st'.issued == mid.issued + NewCookies(cfg, st'.store[res.session.token], r.dontRemember, now)
                  && st'.users == mid.users)
  {
  }

  /** Synchronizing succeeds exactly for a resolved caller, and issues a cookie. */
  lemma SyncAnswers(cfg: Config, st: State, r: Request, now: int)
    ensures var (mid, res) := Resolve(cfg, st, r, now);
            var (st', ok) := Sync(cfg, st, r, now);
            && (ok <==> res.Resolved?)
            && st' == if ok then mid.(issued := mid.issued + NewCookies(cfg, res.session, r.dontRemember, now)) else mid
  {
  }

  // -------------------------------------------- revoking

  /** Revoking never trusts a cookie. */
  lemma RevokingNeedsRow(cfg: Config, st: State, r: Request, now: int)
    requires Keyed(st)
    ensures !Usable(cfg, st, Uncached(r), now)
    ensures Good(st, Uncached(r), now) <==> Good(st, r, now)
  {
  }

  /** One session is revoked exactly if the caller has a good row and the session is the
      caller's own user's; every other row stays, refreshed at most. */
  lemma RevokeAnswers(cfg: Config, st: State, r: Request, target: string, now: int)
    requires Keyed(st) && Good(st, r, now)
    ensures var (st', ok) := Revoke(cfg, st, r, target, now);
            && ok
            && (forall t :: t in st'.store <==>
                  t in st.store && !(t == target && st.store[t].user == st.store[r.token.value].user))
            && (forall t :: t in st'.store && t != r.token.value ==> st'.store[t] == st.store[t])
  {
    RevokingNeedsRow(cfg, st, r, now);
    RowAnswers(cfg, st, Uncached(r), now);
  }

  /** All sessions of the caller's user go, or all but the caller's own. */
  lemma RevokeManyAnswers(cfg: Config, st: State, r: Request, others: bool, now: int)
    requires Keyed(st) && Good(st, r, now)
    ensures var (st', ok) := RevokeMany(cfg, st, r, others, now);
            && ok
            && (forall t :: t in st'.store <==>
                  t in st.store && (st.store[t].user == st.store[r.token.value].user ==> others && t == r.token.value))
            && (forall t :: t in st'.store && t != r.token.value ==> st'.store[t] == st.store[t])
  {
    RevokingNeedsRow(cfg, st, r, now);
    RowAnswers(cfg, st, Uncached(r), now);
  }

  /** Without a good row nothing is revoked. */
  lemma StrangersRevokeNothing(cfg: Config, st: State, r: Request, target: string, others: bool, now: int)
    requires Keyed(st) && !Good(st, r, now)
    ensures Revoke(cfg, st, r, target, now) == (Resolve(cfg, st, Uncached(r), now).0, false)
    ensures RevokeMany(cfg, st, r, others, now) == (Resolve(cfg, st, Uncached(r), now).0, false)
  {
    RevokingNeedsRow(cfg, st, r, now);
    RefusalLeaves(cfg, st, Uncached(r), now);
  }

  // -------------------------------------------- how long a session lasts

  /** The step takes the session away: it is dropped or revoked, by name or with the other
      sessions of its user, or its user goes, or the token is given out again. */
  predicate Ends(st: State, t: Timed, token: string)
    requires token in st.store
  {
    match t.action
    case SignIn(_, newToken, _, _, _) => newToken == token
    case RevokeOne(_, target) => target == token
    case RevokeAll(r, others) =>
      && r.token.Some? && r.token.value in st.store && st.store[r.token.value].user == st.store[token].user
      && !(others && r.token.value == token)
    case Drop(tokens) => token in tokens
    case DropUser(user) => user == st.store[token].user
    case _ => false
  }

  /** The session has a row of the user, good until `deadline` at least. */
  predicate Alive(st: State, token: string, user: string, deadline: int)
  {
    token in st.store && st.store[token].user == user && user in st.users && deadline <= st.store[token].expiresAt
  }

  lemma ResolvingKeepsAlive(cfg: Config, st: State, r: Request, now: int, token: string, user: string, deadline: int)
    requires Keyed(st) && Alive(st, token, user, deadline) && now <= deadline && cfg.updateAge >= 0
    ensures Alive(Resolve(cfg, st, r, now).0, token, user, deadline) && Keyed(Resolve(cfg, st, r, now).0)
  {
    if Usable(cfg, st, r, now) {
      CookieAnswers(cfg, st, r, now);
    } else if Good(st, r, now) {
      RowAnswers(cfg, st, r, now);
    } else {
      RefusalLeaves(cfg, st, r, now);
    }
  }

  lemma RevokingKeepsAlive(cfg: Config, st: State, t: Timed, token: string, user: string, deadline: int)
    requires Keyed(st) && Alive(st, token, user, deadline) && t.now <= deadline && cfg.updateAge >= 0
    requires (t.action.RevokeOne? || t.action.RevokeAll?) && !Ends(st, t, token)
    ensures Alive(Do(cfg, st, t), token, user, deadline) && Keyed(Do(cfg, st, t))
  {
    var r := t.action.r;
    ResolvingKeepsAlive(cfg, st, Uncached(r), t.now, token, user, deadline);
    if Good(st, r, t.now) {
      match t.action
      case RevokeOne(_, target) => RevokeAnswers(cfg, st, r, target, t.now);
      case RevokeAll(_, others) => RevokeManyAnswers(cfg, st, r, others, t.now);
    } else {
      StrangersRevokeNothing(cfg, st, r, "", true, t.now);
      StrangersRevokeNothing(cfg, st, r, "", false, t.now);
      if t.action.RevokeOne? {
        StrangersRevokeNothing(cfg, st, r, t.action.target, true, t.now);
      }
    }
  }

  lemma StepKeepsAlive(cfg: Config, st: State, t: Timed, token: string, user: string, deadline: int)
    requires Keyed(st) && Alive(st, token, user, deadline) && t.now <= deadline && cfg.updateAge >= 0
    requires !Ends(st, t, token)
    ensures Alive(Do(cfg, st, t), token, user, deadline) && Keyed(Do(cfg, st, t))
  {
    match t.action
    case Read(r) => ResolvingKeepsAlive(cfg, st, r, t.now, token, user, deadline);
    case UpdateMeta(r, meta) => ResolvingKeepsAlive(cfg, st, r, t.now, token, user, deadline);
    case SyncUser(r) => ResolvingKeepsAlive(cfg, st, r, t.now, token, user, deadline);
    case RevokeOne(r, _) => RevokingKeepsAlive(cfg, st, t, token, user, deadline);
    case RevokeAll(r, _) => RevokingKeepsAlive(cfg, st, t, token, user, deadline);
    case _ =>
  }

  /** No step of the run takes the session away, and none is later than the deadline. */
  ghost predicate Spares(cfg: Config, st: State, run: seq<Timed>, token: string, deadline: int)
    decreases run
  {
    run == [] || (run[0].now <= deadline && (token in st.store ==> !Ends(st, run[0], token))
                  && Spares(cfg, Do(cfg, st, run[0]), run[1..], token, deadline))
  }

  lemma {:induction false} RunKeepsAlive(cfg: Config, st: State, run: seq<Timed>, token: string, user: string, deadline: int)
    requires Keyed(st) && Alive(st, token, user, deadline) && cfg.updateAge >= 0 && Spares(cfg, st, run, token, deadline)
    ensures Alive(After(cfg, st, run), token, user, deadline) && Keyed(After(cfg, st, run))
    decreases run
  {
    if run != [] {
      StepKeepsAlive(cfg, st, run[0], token, user, deadline);
      RunKeepsAlive(cfg, Do(cfg, st, run[0]), run[1..], token, user, deadline);
    }
  }

  /** From sign-in through any run that does not take it away, a session resolves for
      whoever presents its token, until the age it was given at sign-in has passed:
      refreshing, deferring, updating and the revoking of other sessions do not cut it
      short. */
  lemma SessionLasts(cfg: Config, st: State, user: string, token: string, meta: string, remember: bool, signedInAt: int,
                     run: seq<Timed>, r: Request, now: int)
    requires Keyed(st) && user in st.users && cfg.updateAge >= 0 && r.token == Some(token) && r.cookie.None?
    requires var deadline := signedInAt + if remember then cfg.expires else cfg.dontRememberAge;
             && now <= deadline
             && Spares(cfg, Do(cfg, st, Timed(signedInAt, SignIn(user, token, meta, remember, false))), run, token, deadline)
    ensures var res := Resolve(cfg, After(cfg, Do(cfg, st, Timed(signedInAt, SignIn(user, token, meta, remember, false))), run), r, now).1;
            res.Resolved? && res.session.token == token && res.session.user == user
  {
    var deadline := signedInAt + if remember then cfg.expires else cfg.dontRememberAge;
    var signedIn := Do(cfg, st, Timed(signedInAt, SignIn(user, token, meta, remember, false)));
    SignInLeaves(cfg, st, user, token, meta, remember, false, signedInAt);
    RunKeepsAlive(cfg, signedIn, run, token, user, deadline);
    RowAnswers(cfg, After(cfg, signedIn, run), r, now);
  }

}
