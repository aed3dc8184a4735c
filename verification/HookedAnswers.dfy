/** What becomes of each session in terms of what the hooks and the store say about it:
    nothing here goes through the results of the loop. */
module HookedAnswers {
  import opened HookedStore

  /** The before-hook hears of the session: there is one, and the session and its user exist. */
  predicate Asked(h: Hooks, users: set<string>, sessions: Sessions, token: string)
  {
    h.hasBefore && token in sessions && sessions[token].userId in users
  }

  /** The log once the before-hook has heard of the session, if it does. */
  function Told(h: Hooks, users: set<string>, sessions: Sessions, log: seq<Event>, token: string): seq<Event>
  {
    if Asked(h, users, sessions, token) then log + [BeforeDelete(sessions[token])] else log
  }

  /** The session stays: its hook did not say to proceed, or the store failed. */
  predicate Kept(h: Hooks, users: set<string>, sessions: Sessions, log: seq<Event>, token: string)
  {
    || (Asked(h, users, sessions, token) && h.before(log, sessions[token]) != Proceed)
    || h.deleteFails(Told(h, users, sessions, log, token), token)
  }

  /** The after-hook hears of the session. */
  predicate Followed(h: Hooks, users: set<string>, sessions: Sessions, log: seq<Event>, token: string)
  {
    h.hasAfter && token in sessions && sessions[token].userId in users && !Kept(h, users, sessions, log, token)
  }

  /** The deletion ends in an error: the before-hook fails, or the store does although the
      hook said to proceed, or the after-hook fails. */
  predicate Errs(h: Hooks, users: set<string>, sessions: Sessions, log: seq<Event>, token: string)
  {
    if Asked(h, users, sessions, token) && h.before(log, sessions[token]) != Proceed then
      h.before(log, sessions[token]) == Fail
    else
      var told := Told(h, users, sessions, log, token);
      || h.deleteFails(told, token)
      || (Followed(h, users, sessions, log, token) && h.afterFails(told, sessions[token]))
  }

  /** The log after the deletion. */
  function Logged(h: Hooks, users: set<string>, sessions: Sessions, log: seq<Event>, token: string): seq<Event>
  {
    Told(h, users, sessions, log, token)
    + if Followed(h, users, sessions, log, token) then [AfterDelete(sessions[token])] else []
  }

  /** One deletion, in these terms. */
  lemma OneDecided(h: Hooks, users: set<string>, st: State, token: string)
    ensures var end := DeleteOne(h, users, st, token);
            && end.sessions == (if Kept(h, users, st.sessions, st.log, token) then st.sessions else st.sessions - {token})
            && end.log == Logged(h, users, st.sessions, st.log, token)
    ensures Judge(h, users, st, token).Stopped? <==> Errs(h, users, st.sessions, st.log, token)
  {
    assert st.log + [] == st.log;
    var told := Told(h, users, st.sessions, st.log, token);
    assert told + [] == told;
  }

  /** The logs that the hooks have when the loop comes to each row. It comes to no row
      after an error. */
  function LogsOf(h: Hooks, users: set<string>, sessions: Sessions, log: seq<Event>, rows: seq<string>): (logs: seq<seq<Event>>)
    ensures |logs| <= |rows|
    decreases rows
  {
    if rows == [] then []
    else
      [log] + if Errs(h, users, sessions, log, rows[0]) then []
              else LogsOf(h, users, sessions, Logged(h, users, sessions, log, rows[0]), rows[1..])
  }

  /** The loop comes to the `i`-th row, and there an error ends it. */
  predicate EndsAt(h: Hooks, users: set<string>, sessions: Sessions, log: seq<Event>, rows: seq<string>, i: nat)
  {
    i < |LogsOf(h, users, sessions, log, rows)| && Errs(h, users, sessions, LogsOf(h, users, sessions, log, rows)[i], rows[i])
  }

  /** The loop comes to the row of the token, and the row does not stay. */
  ghost predicate Removed(h: Hooks, users: set<string>, sessions: Sessions, log: seq<Event>, rows: seq<string>, token: string)
  {
    exists i :: 0 <= i < |LogsOf(h, users, sessions, log, rows)| && rows[i] == token
      && !Kept(h, users, sessions, LogsOf(h, users, sessions, log, rows)[i], token)
  }

  lemma OtherRowsDecideAlike(h: Hooks, users: set<string>, a: Sessions, b: Sessions, log: seq<Event>, token: string)
    requires token in a && token in b && a[token] == b[token]
    ensures Kept(h, users, a, log, token) == Kept(h, users, b, log, token)
    ensures Errs(h, users, a, log, token) == Errs(h, users, b, log, token)
    ensures Logged(h, users, a, log, token) == Logged(h, users, b, log, token)
  {
  }

  lemma {:induction false} LogsIgnoreOtherRows(h: Hooks, users: set<string>, a: Sessions, b: Sessions, log: seq<Event>, rows: seq<string>)
    requires forall t :: t in rows ==> t in a && t in b && a[t] == b[t]
    ensures LogsOf(h, users, a, log, rows) == LogsOf(h, users, b, log, rows)
    decreases rows
  {
    if rows != [] {
      OtherRowsDecideAlike(h, users, a, b, log, rows[0]);
      LogsIgnoreOtherRows(h, users, a, b, Logged(h, users, a, log, rows[0]), rows[1..]);
    }
  }

  lemma RemovedIgnoresOtherRows(h: Hooks, users: set<string>, a: Sessions, b: Sessions, log: seq<Event>, rows: seq<string>, token: string)
    requires forall t :: t in rows ==> t in a && t in b && a[t] == b[t]
    ensures Removed(h, users, a, log, rows, token) <==> Removed(h, users, b, log, rows, token)
  {
    LogsIgnoreOtherRows(h, users, a, b, log, rows);
    var logs := LogsOf(h, users, a, log, rows);
    forall i | 0 <= i < |logs| ensures Kept(h, users, a, logs[i], rows[i]) == Kept(h, users, b, logs[i], rows[i]) {
      OtherRowsDecideAlike(h, users, a, b, logs[i], rows[i]);
    }
  }

  lemma RemovedUnfolds(h: Hooks, users: set<string>, sessions: Sessions, log: seq<Event>, rows: seq<string>, token: string)
    requires rows != []
    ensures Removed(h, users, sessions, log, rows, token) <==>
            || (rows[0] == token && !Kept(h, users, sessions, log, token))
            || (!Errs(h, users, sessions, log, rows[0])
                && Removed(h, users, sessions, Logged(h, users, sessions, log, rows[0]), rows[1..], token))
  {
    var logs := LogsOf(h, users, sessions, log, rows);
    assert logs[0] == log;
    if !Errs(h, users, sessions, log, rows[0]) {
      var later := LogsOf(h, users, sessions, Logged(h, users, sessions, log, rows[0]), rows[1..]);
      assert logs == [log] + later;
      forall i | 0 <= i < |later| ensures logs[i + 1] == later[i] && rows[i + 1] == rows[1..][i] {
      }
    }
  }

  /** After the loop exactly those sessions are there that were there and were not removed. */
  lemma {:induction false} LoopRemoves(h: Hooks, users: set<string>, st: State, rows: seq<string>, token: string)
    requires DistinctRows(rows) && forall t :: t in rows ==> t in st.sessions
    ensures token in DeleteRows(h, users, st, rows).sessions <==>
            token in st.sessions && !Removed(h, users, st.sessions, st.log, rows, token)
    decreases rows
  {
    if rows != [] {
      var next := DeleteOne(h, users, st, rows[0]);
      OneDecided(h, users, st, rows[0]);
      RemovedUnfolds(h, users, st.sessions, st.log, rows, token);
      if !Errs(h, users, st.sessions, st.log, rows[0]) {
        LoopRemoves(h, users, next, rows[1..], token);
        RemovedIgnoresOtherRows(h, users, st.sessions, next.sessions, next.log, rows[1..], token);
      }
    }
  }

  lemma EndsLater(h: Hooks, users: set<string>, st: State, rows: seq<string>, next: State)
    requires DistinctRows(rows) && (forall t :: t in rows ==> t in st.sessions) && rows != []
    requires next == DeleteOne(h, users, st, rows[0]) && !Errs(h, users, st.sessions, st.log, rows[0])
    ensures (forall i: nat :: !EndsAt(h, users, st.sessions, st.log, rows, i)) <==>
            (forall i: nat :: !EndsAt(h, users, next.sessions, next.log, rows[1..], i))
  {
    OneDecided(h, users, st, rows[0]);
    LogsIgnoreOtherRows(h, users, st.sessions, next.sessions, next.log, rows[1..]);
    var later := LogsOf(h, users, next.sessions, next.log, rows[1..]);
    var logs := LogsOf(h, users, st.sessions, st.log, rows);
    assert logs == [st.log] + later;
    forall i: nat
      ensures EndsAt(h, users, st.sessions, st.log, rows, i + 1) <==> EndsAt(h, users, next.sessions, next.log, rows[1..], i)
    {
      if i < |later| {
        OtherRowsDecideAlike(h, users, st.sessions, next.sessions, later[i], rows[i + 1]);
      }
    }
    assert !EndsAt(h, users, st.sessions, st.log, rows, 0);
    forall i: nat | EndsAt(h, users, st.sessions, st.log, rows, i) ensures i > 0 && EndsAt(h, users, next.sessions, next.log, rows[1..], i - 1) {
      assert i == (i - 1) + 1;
    }
  }

  lemma NoErrorFirst(r: RowResult, rest: seq<RowResult>)
    ensures !r.Stopped? ==> (NoError([r] + rest) <==> NoError(rest))
    ensures NoError([r]) <==> !r.Stopped?
  {
    if rest != [] {
      assert ([r] + rest)[|rest|] == rest[|rest| - 1];
    }
  }

  lemma NoErrorUnfolds(h: Hooks, users: set<string>, st: State, rows: seq<string>)
    requires rows != []
    ensures NoError(Results(h, users, st, rows)) <==>
            && !Errs(h, users, st.sessions, st.log, rows[0])
            && NoError(Results(h, users, DeleteOne(h, users, st, rows[0]), rows[1..]))
  {
    OneDecided(h, users, st, rows[0]);
    NoErrorFirst(Judge(h, users, st, rows[0]), Results(h, users, DeleteOne(h, users, st, rows[0]), rows[1..]));
  }

  lemma LogsUnfold(h: Hooks, users: set<string>, st: State, rows: seq<string>)
    requires rows != [] && DistinctRows(rows) && forall t :: t in rows ==> t in st.sessions
    requires !Errs(h, users, st.sessions, st.log, rows[0])
    ensures var next := DeleteOne(h, users, st, rows[0]);
            |LogsOf(h, users, st.sessions, st.log, rows)| == 1 + |LogsOf(h, users, next.sessions, next.log, rows[1..])|
  {
    var next := DeleteOne(h, users, st, rows[0]);
    OneDecided(h, users, st, rows[0]);
    LogsIgnoreOtherRows(h, users, st.sessions, next.sessions, next.log, rows[1..]);
  }

  /** The loop ends well exactly if no row that it comes to is in error. */
  lemma {:induction false} LoopEnds(h: Hooks, users: set<string>, st: State, rows: seq<string>)
    requires DistinctRows(rows) && forall t :: t in rows ==> t in st.sessions
    ensures NoError(Results(h, users, st, rows)) <==> forall i: nat :: !EndsAt(h, users, st.sessions, st.log, rows, i)
    ensures NoError(Results(h, users, st, rows)) ==> |LogsOf(h, users, st.sessions, st.log, rows)| == |rows|
    decreases rows
  {
    if rows != [] {
      NoErrorUnfolds(h, users, st, rows);
      if Errs(h, users, st.sessions, st.log, rows[0]) {
        assert EndsAt(h, users, st.sessions, st.log, rows, 0);
      } else {
        var next := DeleteOne(h, users, st, rows[0]);
        OneDecided(h, users, st, rows[0]);
        LoopEnds(h, users, next, rows[1..]);
        LogsUnfold(h, users, st, rows);
        EndsLater(h, users, st, rows, next);
      }
    }
  }

  lemma RemovedAt(h: Hooks, users: set<string>, sessions: Sessions, log: seq<Event>, rows: seq<string>, i: nat)
    requires DistinctRows(rows) && i < |LogsOf(h, users, sessions, log, rows)|
    ensures Removed(h, users, sessions, log, rows, rows[i]) <==> !Kept(h, users, sessions, LogsOf(h, users, sessions, log, rows)[i], rows[i])
  {
  }

  lemma VetoKeeps(h: Hooks, users: set<string>, st: State, rows: seq<string>, i: nat)
    requires DistinctRows(rows) && forall t :: t in rows ==> t in st.sessions
    requires i < |rows| == |LogsOf(h, users, st.sessions, st.log, rows)| && !EndsAt(h, users, st.sessions, st.log, rows, i)
    ensures var log := LogsOf(h, users, st.sessions, st.log, rows)[i];
            rows[i] in DeleteRows(h, users, st, rows).sessions <==>
            Asked(h, users, st.sessions, rows[i]) && h.before(log, st.sessions[rows[i]]) == Veto
  {
    LoopRemoves(h, users, st, rows, rows[i]);
    RemovedAt(h, users, st.sessions, st.log, rows, i);
    assert rows[i] in rows;
  }

  /** Deleting the sessions of a user without an error leaves the start store less the
      user's sessions, other than the excepted one, for which no hook was asked or the
      hook did not veto. */
  lemma OnlyVetoesKeep(h: Hooks, users: set<string>, st: State, rows: seq<string>, userId: string, except: string)
    requires Keyed(st.sessions) && DistinctRows(rows)
    requires forall t :: t in rows <==> t in st.sessions && Target(st.sessions[t], userId, except)
    requires NoError(Results(h, users, st, rows))
    ensures var end, logs := DeleteRows(h, users, st, rows).sessions, LogsOf(h, users, st.sessions, st.log, rows);
            && |logs| == |rows|
            && (forall t :: t in end ==> t in st.sessions && end[t] == st.sessions[t])
            && (forall t :: t in st.sessions && !Target(st.sessions[t], userId, except) ==> t in end)
            && (forall i :: 0 <= i < |rows| ==>
                  (rows[i] in end <==> Asked(h, users, st.sessions, rows[i]) && h.before(logs[i], st.sessions[rows[i]]) == Veto))
  {
    var end, logs := DeleteRows(h, users, st, rows).sessions, LogsOf(h, users, st.sessions, st.log, rows);
    LoopEffect(h, users, st, rows);
    LoopEnds(h, users, st, rows);
    forall t | t in st.sessions && !Target(st.sessions[t], userId, except) ensures t in end {
      LoopRemoves(h, users, st, rows, t);
    }
    forall i | 0 <= i < |rows|
      ensures rows[i] in end <==> Asked(h, users, st.sessions, rows[i]) && h.before(logs[i], st.sessions[rows[i]]) == Veto
    {
      VetoKeeps(h, users, st, rows, i);
    }
  }

}
