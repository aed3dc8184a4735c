/** The store wrapper that calls user hooks around session deletion. Bulk
    deletion becomes a loop over the user's sessions, and each row may be
    vetoed or stopped by an error on the way. */
module HookedStore {
  import opened Common

  datatype Session = Session(token: string, userId: string)

  type Sessions = map<string, Session>

  /** What the hooks see, in the order in which they see it. */
  datatype Event = BeforeDelete(s: Session) | AfterDelete(s: Session)

  datatype Answer = Proceed | Veto | Fail

  /** User hooks and store failures. All may depend on everything the hooks have
      seen so far, but they do not touch the store themselves. */
  datatype Hooks = Hooks(
    hasBefore: bool, before: (seq<Event>, Session) -> Answer,
    hasAfter: bool, afterFails: (seq<Event>, Session) -> bool,
    deleteFails: (seq<Event>, string) -> bool)

  datatype State = State(sessions: Sessions, log: seq<Event>)

  /** What became of one row: deleted, kept by a veto, or the loop stopped there
      with an error, after or before the row was deleted. */
  datatype RowResult = Deleted | Vetoed | Stopped(deleted: bool)

  /** The hooks run for a session only if it is found together with its user. */
  predicate Found(sessions: Sessions, users: set<string>, token: string)
  {
    token in sessions && sessions[token].userId in users
  }

  function BeforeEvents(h: Hooks, users: set<string>, st: State, token: string): seq<Event>
  {
    if h.hasBefore && Found(st.sessions, users, token) then [BeforeDelete(st.sessions[token])] else []
  }

  function AfterEvents(h: Hooks, users: set<string>, st: State, token: string): seq<Event>
  {
    if h.hasAfter && Found(st.sessions, users, token) then [AfterDelete(st.sessions[token])] else []
  }

  function Judge(h: Hooks, users: set<string>, st: State, token: string): RowResult
  {
    var asked := BeforeEvents(h, users, st, token);
    if asked != [] && h.before(st.log, asked[0].s) == Fail then Stopped(false)
    else if asked != [] && h.before(st.log, asked[0].s) == Veto then Vetoed
    else if h.deleteFails(st.log + asked, token) then Stopped(false)
    else
      var told := AfterEvents(h, users, st, token);
      if told != [] && h.afterFails(st.log + asked, told[0].s) then Stopped(true) else Deleted
  }

  predicate RowGone(r: RowResult)
  {
    r.Deleted? || (r.Stopped? && r.deleted)
  }

  /** One deletion: the before-hook always hears of the row, the after-hook only
      of a row that is gone. */
  function DeleteOne(h: Hooks, users: set<string>, st: State, token: string): State
  {
    var r := Judge(h, users, st, token);
    State(if RowGone(r) then st.sessions - {token} else st.sessions,
          st.log + BeforeEvents(h, users, st, token)
          + if RowGone(r) then AfterEvents(h, users, st, token) else [])
  }

  /** The rows one after the other, up to and including the first that stops. */
  function DeleteRows(h: Hooks, users: set<string>, st: State, rows: seq<string>): State
    decreases rows
  {
    if rows == [] then st
    else
      var next := DeleteOne(h, users, st, rows[0]);
      if Judge(h, users, st, rows[0]).Stopped? then next else DeleteRows(h, users, next, rows[1..])
  }

  function Results(h: Hooks, users: set<string>, st: State, rows: seq<string>): (rs: seq<RowResult>)
    ensures |rs| <= |rows|
    ensures forall i :: 0 <= i < |rs| - 1 ==> !rs[i].Stopped?
    ensures |rs| == |rows| || (rs != [] && rs[|rs| - 1].Stopped?)
    decreases rows
  {
    if rows == [] then []
    else
      var r := Judge(h, users, st, rows[0]);
      if r.Stopped? then [r] else [r] + Results(h, users, DeleteOne(h, users, st, rows[0]), rows[1..])
  }

  predicate NoError(rs: seq<RowResult>)
  {
    rs == [] || !rs[|rs| - 1].Stopped?
  }

  ghost predicate DistinctRows(rows: seq<string>)
  {
    forall i, j :: 0 <= i < j < |rows| ==> rows[i] != rows[j]
  }

  /** The tokens whose rows are gone according to the results. */
  ghost function Gone(rows: seq<string>, rs: seq<RowResult>): set<string>
    requires |rs| <= |rows|
  {
    set i | 0 <= i < |rs| && RowGone(rs[i]) :: rows[i]
  }

  /** What the hooks must have heard, judging by the results and the store as it
      was before the loop. */
  ghost function Heard(h: Hooks, users: set<string>, st: State, rows: seq<string>, rs: seq<RowResult>): seq<Event>
    requires |rs| <= |rows|
  {
    if rs == [] then []
    else
      RowEvents(h, users, st, rows[0], rs[0]) + Heard(h, users, st, rows[1..], rs[1..])
  }

  lemma {:induction false} HeardIgnoresOtherRows(h: Hooks, users: set<string>, a: State, b: State, rows: seq<string>, rs: seq<RowResult>)
    requires |rs| <= |rows|
    requires forall i :: 0 <= i < |rows| ==> rows[i] in a.sessions && rows[i] in b.sessions && a.sessions[rows[i]] == b.sessions[rows[i]]
    ensures Heard(h, users, a, rows, rs) == Heard(h, users, b, rows, rs)
  {
    if rs != [] {
      HeardIgnoresOtherRows(h, users, a, b, rows[1..], rs[1..]);
    }
  }

  lemma {:induction false} LoopSessions(h: Hooks, users: set<string>, st: State, rows: seq<string>)
    ensures DeleteRows(h, users, st, rows).sessions == st.sessions - Gone(rows, Results(h, users, st, rows))
    decreases rows
  {
    var rs := Results(h, users, st, rows);
    if rows != [] {
      GoneUnfolds(rows, rs);
      var next := DeleteOne(h, users, st, rows[0]);
      if !rs[0].Stopped? {
        LoopSessions(h, users, next, rows[1..]);
        assert rs[1..] == Results(h, users, next, rows[1..]);
      } else {
        assert rs[1..] == [] && Gone(rows[1..], rs[1..]) == {};
      }
    }
  }

  /** What the hooks hear of one row. */
  function RowEvents(h: Hooks, users: set<string>, st: State, token: string, r: RowResult): seq<Event>
  {
    BeforeEvents(h, users, st, token) + if RowGone(r) then AfterEvents(h, users, st, token) else []
  }

  lemma DeleteOneLog(h: Hooks, users: set<string>, st: State, token: string)
    ensures DeleteOne(h, users, st, token).log == st.log + RowEvents(h, users, st, token, Judge(h, users, st, token))
  {
    AppendAssociates(st.log, BeforeEvents(h, users, st, token),
                     if RowGone(Judge(h, users, st, token)) then AfterEvents(h, users, st, token) else []);
  }

  lemma {:induction false} LoopLog(h: Hooks, users: set<string>, st: State, rows: seq<string>)
    requires DistinctRows(rows) && forall t :: t in rows ==> t in st.sessions
    ensures DeleteRows(h, users, st, rows).log == st.log + Heard(h, users, st, rows, Results(h, users, st, rows))
    decreases rows
  {
    if rows != [] {
      LoopLogStep(h, users, st, rows);
    } else {
      assert st.log + [] == st.log;
    }
  }

  lemma {:induction false} LoopLogStep(h: Hooks, users: set<string>, st: State, rows: seq<string>)
    requires rows != [] && DistinctRows(rows) && forall t :: t in rows ==> t in st.sessions
    ensures DeleteRows(h, users, st, rows).log == st.log + Heard(h, users, st, rows, Results(h, users, st, rows))
    decreases rows, 0
  {
    var r, next, rest := Judge(h, users, st, rows[0]), DeleteOne(h, users, st, rows[0]), rows[1..];
    DeleteOneLog(h, users, st, rows[0]);
    var first := RowEvents(h, users, st, rows[0], r);
    if r.Stopped? {
      var rs := [r];
      assert rs[1..] == [];
      assert Heard(h, users, st, rows, rs) == first + [];
    } else {
      var later := Results(h, users, next, rest);
      var rs := [r] + later;
      assert rs[1..] == later;
      LoopLog(h, users, next, rest);
      HeardIgnoresOtherRows(h, users, st, next, rest, later);
      AppendAssociates(st.log, first, Heard(h, users, st, rest, later));
      assert Heard(h, users, st, rows, rs) == first + Heard(h, users, st, rest, later);
    }
  }

  /** The loop over rows in full: exactly the rows with a deleting result are
      gone, every other session is as before, and the hooks heard of the rows in
      order, before and then after, once each. An error ends the loop with the
      rows before it done and the rows after it untouched. */
  lemma LoopEffect(h: Hooks, users: set<string>, st: State, rows: seq<string>)
    requires DistinctRows(rows) && forall t :: t in rows ==> t in st.sessions
    ensures var rs, end := Results(h, users, st, rows), DeleteRows(h, users, st, rows);
            && end.sessions == st.sessions - Gone(rows, rs)
            && end.log == st.log + Heard(h, users, st, rows, rs)
            && (forall t :: t in end.sessions ==> end.sessions[t] == st.sessions[t])
  {
    LoopSessions(h, users, st, rows);
    LoopLog(h, users, st, rows);
  }

  lemma GoneUnfolds(rows: seq<string>, rs: seq<RowResult>)
    requires 1 <= |rs| <= |rows|
    ensures Gone(rows, rs) == (if RowGone(rs[0]) then {rows[0]} else {}) + Gone(rows[1..], rs[1..])
  {
    var rest := Gone(rows[1..], rs[1..]);
    forall t | t in Gone(rows, rs) ensures t in (if RowGone(rs[0]) then {rows[0]} else {}) + rest {
      var i :| 0 <= i < |rs| && RowGone(rs[i]) && rows[i] == t;
      if i > 0 {
        assert RowGone(rs[1..][i - 1]) && rows[1..][i - 1] == t;
      }
    }
    forall t | t in rest ensures t in Gone(rows, rs) {
      var i :| 0 <= i < |rs| - 1 && RowGone(rs[1..][i]) && rows[1..][i] == t;
      assert RowGone(rs[i + 1]) && rows[i + 1] == t;
    }
  }

  /** The sessions of a user other than the excepted one. */
  ghost predicate Target(s: Session, userId: string, except: string)
  {
    s.userId == userId && s.token != except
  }

  /** What the base store's bulk call leaves. */
  ghost function BulkDelete(sessions: Sessions, userId: string, except: string): Sessions
  {
    map t | t in sessions && !Target(sessions[t], userId, except) :: sessions[t]
  }

  ghost predicate Keyed(sessions: Sessions)
  {
    forall t :: t in sessions ==> sessions[t].token == t
  }

  /** Without vetoes and errors the loop is the bulk call. */
  lemma LoopIsBulk(h: Hooks, users: set<string>, st: State, rows: seq<string>, userId: string, except: string)
    requires Keyed(st.sessions) && DistinctRows(rows)
    requires forall t :: t in rows <==> t in st.sessions && Target(st.sessions[t], userId, except)
    requires forall i :: 0 <= i < |Results(h, users, st, rows)| ==> Results(h, users, st, rows)[i] == Deleted
    ensures DeleteRows(h, users, st, rows).sessions == BulkDelete(st.sessions, userId, except)
  {
    LoopEffect(h, users, st, rows);
    var rs := Results(h, users, st, rows);
    assert |rs| == |rows|;
    forall t | t in rows ensures t in Gone(rows, rs) {
      var i :| 0 <= i < |rows| && rows[i] == t;
      assert RowGone(rs[i]);
    }
  }

  /** Finishing the loop from `now` over `rest` is what the loop from `start` over
      all the rows does. */
  ghost predicate Continues(h: Hooks, users: set<string>, start: State, rows: seq<string>, now: State, rest: seq<string>)
  {
    && DeleteRows(h, users, start, rows) == DeleteRows(h, users, now, rest)
    && (NoError(Results(h, users, start, rows)) <==> NoError(Results(h, users, now, rest)))
  }

  lemma ContinuesStep(h: Hooks, users: set<string>, start: State, rows: seq<string>, now: State, token: string, rest: seq<string>)
    requires Continues(h, users, start, rows, now, [token] + rest)
    ensures var next := DeleteOne(h, users, now, token);
            if Judge(h, users, now, token).Stopped? then
              DeleteRows(h, users, start, rows) == next && !NoError(Results(h, users, start, rows))
            else
              Continues(h, users, start, rows, next, rest)
  {
    assert ([token] + rest)[1..] == rest;
  }

  lemma ContinuesEnd(h: Hooks, users: set<string>, start: State, rows: seq<string>, now: State)
    requires Continues(h, users, start, rows, now, [])
    ensures DeleteRows(h, users, start, rows) == now && NoError(Results(h, users, start, rows))
  {
  }

  class Store {
    const hooks: Hooks
    var users: set<string>
    var sessions: Sessions
    var log: seq<Event>

    ghost predicate Valid()
      reads this
    {
      Keyed(sessions)
    }

    ghost function Now(): State
      reads this
    {
      State(sessions, log)
    }

    constructor (hooks: Hooks)
      ensures Valid() && this.hooks == hooks && sessions == map[] && log == [] && users == {}
    {
      this.hooks := hooks;
      users, sessions, log := {}, map[], [];
    }

    predicate DeleteHooksActive()
    {
      hooks.hasBefore || hooks.hasAfter
    }

    /** `ListSessionsByUserID` of the base store: any order, each session once. */
    method ListSessions(userId: string) returns (rows: seq<Session>)
      requires Valid()
      ensures forall s :: s in rows <==> s.token in sessions && sessions[s.token] == s && s.userId == userId
      ensures forall i, j :: 0 <= i < j < |rows| ==> rows[i].token != rows[j].token
    {
      rows := [];
      var left := sessions.Keys;
      while left != {}
        invariant left <= sessions.Keys
        invariant forall s :: s in rows <==>
          s.token in sessions && s.token !in left && sessions[s.token] == s && s.userId == userId
        invariant forall i :: 0 <= i < |rows| ==> rows[i] in rows
        invariant forall i, j :: 0 <= i < j < |rows| ==> rows[i].token != rows[j].token
      {
        var t :| t in left;
        left := left - {t};
        if sessions[t].userId == userId {
          rows := rows + [sessions[t]];
        }
      }
    }

    /** `deleteSessionWithHooks`. */
    method DeleteSessionWithHooks(token: string) returns (ok: bool)
      requires Valid()
      modifies this`sessions, this`log
      ensures Valid()
      ensures Now() == DeleteOne(hooks, users, old(Now()), token)
      ensures ok <==> !Judge(hooks, users, old(Now()), token).Stopped?
    {
      var found := DeleteHooksActive() && token in sessions && sessions[token].userId in users;
      ghost var start := log;
      if hooks.hasBefore && found {
        var s := sessions[token];
        var answer := hooks.before(log, s);
        log := log + [BeforeDelete(s)];
        if answer == Fail {
          return false;
        }
        if answer == Veto {
          return true;
        }
      }
      assert log == start + BeforeEvents(hooks, users, old(Now()), token);
      if hooks.deleteFails(log, token) {
        return false;
      }
      ghost var heard := log;
      if found {
        var s := sessions[token];
        sessions := sessions - {token};
        if hooks.hasAfter {
          var failed := hooks.afterFails(log, s);
          log := log + [AfterDelete(s)];
          return !failed;
        }
        return true;
      }
      sessions := sessions - {token};
      return true;
    }

    /** The base store's own bulk deletion. */
    method BulkDeleteSessions(userId: string, exceptToken: string)
      requires Valid()
      modifies this`sessions
      ensures Valid() && sessions == BulkDelete(old(sessions), userId, exceptToken)
    {
      sessions := map t | t in sessions && !(sessions[t].userId == userId && sessions[t].token != exceptToken) :: sessions[t];
    }

    method BulkDeleteAllSessions(userId: string)
      requires Valid()
      modifies this`sessions
      ensures Valid() && sessions == map t | t in old(sessions) && old(sessions)[t].userId != userId :: old(sessions)[t]
    {
      sessions := map t | t in sessions && sessions[t].userId != userId :: sessions[t];
    }

    /** `DeleteSessionsByUserID`: either the base store's bulk call, or a loop
        over the listed rows (`listed`, in the order the store gave them). */
    method DeleteSessionsByUserId(userId: string, exceptToken: string) returns (ok: bool, ghost listed: seq<string>)
      requires Valid()
      modifies this`sessions, this`log
      ensures Valid()
      ensures !DeleteHooksActive() ==>
                ok && sessions == BulkDelete(old(sessions), userId, exceptToken) && log == old(log)
      ensures DeleteHooksActive() ==>
                && DistinctRows(listed)
                && (forall t :: t in listed <==> t in old(sessions) && Target(old(sessions)[t], userId, exceptToken))
                && Now() == DeleteRows(hooks, users, old(Now()), listed)
                && (ok <==> NoError(Results(hooks, users, old(Now()), listed)))
    {
      if !DeleteHooksActive() {
        BulkDeleteSessions(userId, exceptToken);
        return true, [];
      }
      var rows := ListSessions(userId);
      ghost var start, skip := Now(), {exceptToken};
      listed := TokensOf(rows, skip);
      ListedTokens(sessions, rows, userId, skip);
      assert rows[0..] == rows;
      for i := 0 to |rows|
        invariant Valid()
        invariant Continues(hooks, users, start, listed, Now(), TokensOf(rows[i..], skip))
      {
        TokensUnfold(rows, i, skip);
        if rows[i].token == exceptToken {
          continue;
        }
        ContinuesStep(hooks, users, start, listed, Now(), rows[i].token, TokensOf(rows[i + 1..], skip));
        var done := DeleteSessionWithHooks(rows[i].token);
        if !done {
          return false, listed;
        }
      }
      ContinuesEnd(hooks, users, start, listed, Now());
      return true, listed;
    }

    /** `DeleteAllSessionsByUserID`: the same loop without an exception. */
    method DeleteAllSessionsByUserId(userId: string) returns (ok: bool, ghost listed: seq<string>)
      requires Valid()
      modifies this`sessions, this`log
      ensures Valid()
      ensures !DeleteHooksActive() ==>
                ok && log == old(log) && sessions == map t | t in old(sessions) && old(sessions)[t].userId != userId :: old(sessions)[t]
      ensures DeleteHooksActive() ==>
                && DistinctRows(listed)
                && (forall t :: t in listed <==> t in old(sessions) && old(sessions)[t].userId == userId)
                && Now() == DeleteRows(hooks, users, old(Now()), listed)
                && (ok <==> NoError(Results(hooks, users, old(Now()), listed)))
    {
      if !DeleteHooksActive() {
        BulkDeleteAllSessions(userId);
        return true, [];
      }
      var rows := ListSessions(userId);
      ghost var start := Now();
      listed := TokensOf(rows, {});
      ListedTokens(sessions, rows, userId, {});
      assert rows[0..] == rows;
      for i := 0 to |rows|
        invariant Valid()
        invariant Continues(hooks, users, start, listed, Now(), TokensOf(rows[i..], {}))
      {
        TokensUnfold(rows, i, {});
        ContinuesStep(hooks, users, start, listed, Now(), rows[i].token, TokensOf(rows[i + 1..], {}));
        var done := DeleteSessionWithHooks(rows[i].token);
        if !done {
          return false, listed;
        }
      }
      ContinuesEnd(hooks, users, start, listed, Now());
      return true, listed;
    }
  }

  /** The tokens of the listed rows, in order, less the skipped ones. */
  ghost function TokensOf(rows: seq<Session>, skip: set<string>): seq<string>
  {
    if rows == [] then []
    else (if rows[0].token in skip then [] else [rows[0].token]) + TokensOf(rows[1..], skip)
  }

  lemma TokensUnfold(rows: seq<Session>, i: nat, skip: set<string>)
    requires i < |rows|
    ensures rows[i].token in skip ==> TokensOf(rows[i..], skip) == TokensOf(rows[i + 1..], skip)
    ensures rows[i].token !in skip ==> TokensOf(rows[i..], skip) == [rows[i].token] + TokensOf(rows[i + 1..], skip)
  {
    assert rows[i..][1..] == rows[i + 1..];
    assert [] + TokensOf(rows[i + 1..], skip) == TokensOf(rows[i + 1..], skip);
  }

  lemma {:induction false} TokensOfRows(rows: seq<Session>, skip: set<string>, t: string)
    ensures t in TokensOf(rows, skip) <==> t !in skip && exists s :: s in rows && s.token == t
  {
    if rows != [] {
      TokensOfRows(rows[1..], skip, t);
      assert forall s :: s in rows <==> s == rows[0] || s in rows[1..];
    }
  }

  lemma DistinctFirst(first: string, rest: seq<string>)
    requires DistinctRows(rest) && first !in rest
    ensures DistinctRows([first] + rest)
  {
    assert forall i :: 0 <= i < |rest| ==> rest[i] in rest;
  }

  lemma {:induction false} TokensAreDistinct(rows: seq<Session>, skip: set<string>)
    requires forall i, j :: 0 <= i < j < |rows| ==> rows[i].token != rows[j].token
    ensures DistinctRows(TokensOf(rows, skip))
  {
    if rows != [] {
      var t, rest := rows[0].token, TokensOf(rows[1..], skip);
      TokensAreDistinct(rows[1..], skip);
      TokensOfRows(rows[1..], skip, t);
      assert t !in rest by {
        assert forall s :: s in rows[1..] ==> s.token != t;
      }
      DistinctFirst(t, rest);
      assert [] + rest == rest;
    }
  }

  lemma ListedTokens(sessions: Sessions, rows: seq<Session>, userId: string, skip: set<string>)
    requires Keyed(sessions)
    requires forall s :: s in rows <==> s.token in sessions && sessions[s.token] == s && s.userId == userId
    requires forall i, j :: 0 <= i < j < |rows| ==> rows[i].token != rows[j].token
    ensures DistinctRows(TokensOf(rows, skip))
    ensures forall t :: t in TokensOf(rows, skip) <==> t in sessions && sessions[t].userId == userId && t !in skip
  {
    TokensAreDistinct(rows, skip);
    forall t ensures t in TokensOf(rows, skip) <==> t in sessions && sessions[t].userId == userId && t !in skip {
      TokensOfRows(rows, skip, t);
      if t in sessions && sessions[t].userId == userId {
        assert sessions[t] in rows;
      }
    }
  }

}
