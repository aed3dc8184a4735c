/** What every handler keeps about teams: how many an organization has, and how many
    users hold a seat in each. */
module OrgTeams {
  import opened Common
  import opened RoleCodec
  import opened OrgTables
  import opened OrgHandlers

  // -------------------------------------------------------------- number of teams

  /** The options under which the number of teams is bounded from both sides. */
  predicate TeamsBounded(cfg: Config)
  {
    cfg.DefaultTeam() && !cfg.AllowRemovingAllTeams() && cfg.MaximumTeams() > 0
  }

  ghost predicate TeamsOk(cfg: Config, orgs: map<Id, string>, teams: map<Id, Id>)
  {
    TeamsBounded(cfg) ==> forall org :: org in orgs ==> 1 <= |TeamsOf(teams, org)| <= cfg.MaximumTeams()
  }

  ghost predicate TeamsAtHome(orgs: map<Id, string>, teams: map<Id, Id>)
  {
    forall id :: id in teams ==> teams[id] in orgs
  }

  lemma NewTeamSet(teams: map<Id, Id>, id: Id, home: Id, org: Id)
    requires id !in teams
    ensures TeamsOf(teams[id := home], org) == TeamsOf(teams, org) + if org == home then {id} else {}
  {
  }

  lemma CreateKeepsTeams(cfg: Config, t: Tables, user: Id, name: string, slug: string)
    requires TeamsOk(cfg, t.orgs, t.teams) && TeamsAtHome(t.orgs, t.teams)
    requires cfg.gen(t.next) !in t.orgs && cfg.gen(t.next + 2) !in t.teams
    ensures var t' := Create(cfg, t, user, name, slug).0; TeamsOk(cfg, t'.orgs, t'.teams)
  {
    var t' := Found(cfg, t, user, slug);
    if TeamsBounded(cfg) {
      forall org | org in t'.orgs ensures 1 <= |TeamsOf(t'.teams, org)| <= cfg.MaximumTeams() {
        NewTeamSet(t.teams, cfg.gen(t.next + 2), cfg.gen(t.next), org);
        assert org == cfg.gen(t.next) ==> TeamsOf(t.teams, org) == {};
      }
    }
  }

  lemma CreateTeamKeepsTeams(cfg: Config, t: Tables, user: Id, org: Id, name: string)
    requires TeamsOk(cfg, t.orgs, t.teams) && cfg.gen(t.next) !in t.teams
    ensures var t' := CreateTeam(cfg, t, user, org, name).0; TeamsOk(cfg, t'.orgs, t'.teams)
  {
    if CheckCreateTeam(cfg, t, user, org, name).Done? && TeamsBounded(cfg) {
      var more := t.teams[cfg.gen(t.next) := org];
      forall o | o in t.orgs ensures 1 <= |TeamsOf(more, o)| <= cfg.MaximumTeams() {
        NewTeamSet(t.teams, cfg.gen(t.next), org, o);
      }
    }
  }

  lemma RemoveTeamKeepsTeams(cfg: Config, t: Tables, user: Id, org: Id, team: Id, active: Option<Id>)
    requires TeamsOk(cfg, t.orgs, t.teams)
    ensures var t' := RemoveTeam(cfg, t, user, org, team, active).0; TeamsOk(cfg, t'.orgs, t'.teams)
  {
    if CheckRemoveTeam(cfg, t, user, org, team, active).Done? && TeamsBounded(cfg) {
      var fewer := t.teams - {team};
      forall o | o in t.orgs ensures 1 <= |TeamsOf(fewer, o)| <= cfg.MaximumTeams() {
        assert TeamsOf(fewer, o) == TeamsOf(t.teams, o) - {team};
      }
    }
  }

  lemma DeleteKeepsTeams(cfg: Config, t: Tables, user: Id, org: Id)
    requires TeamsOk(cfg, t.orgs, t.teams)
    ensures var t' := Delete(cfg, t, user, org).0; TeamsOk(cfg, t'.orgs, t'.teams)
  {
    var t' := Dissolve(t, org);
    if TeamsBounded(cfg) {
      forall o | o in t'.orgs ensures 1 <= |TeamsOf(t'.teams, o)| <= cfg.MaximumTeams() {
        assert TeamsOf(t'.teams, o) == TeamsOf(t.teams, o);
      }
    }
  }

  // -------------------------------------------------------------- seats

  /** No team has more users than allowed, however many rows it has. */
  ghost predicate SeatsOk(cfg: Config, seats: Seats)
  {
    cfg.SeatLimit() > 0 ==> forall team :: |Occupants(seats, team)| <= cfg.SeatLimit()
  }

  lemma {:induction false} ImageSize(seats: Seats, ids: set<Id>)
    requires ids <= seats.Keys
    ensures |set id | id in ids :: seats[id].user| <= |ids|
  {
    if ids != {} {
      var x :| x in ids;
      ImageSize(seats, ids - {x});
      assert (set id | id in ids :: seats[id].user) == (set id | id in ids - {x} :: seats[id].user) + {seats[x].user};
    }
  }

  lemma FewerUsersThanRows(seats: Seats, team: Id)
    ensures |Occupants(seats, team)| <= |SeatsOf(seats, team)|
  {
    ImageSize(seats, SeatsOf(seats, team));
    assert Occupants(seats, team) == set id | id in SeatsOf(seats, team) :: seats[id].user;
  }

  lemma TakenSeat(seats: Seats, id: Id, team: Id, user: Id, other: Id)
    requires id !in seats
    ensures Occupants(seats[id := Seat(team, user)], other) == Occupants(seats, other) + if other == team then {user} else {}
    ensures SeatsOf(seats[id := Seat(team, user)], other) == SeatsOf(seats, other) + if other == team then {id} else {}
  {
    var more := seats[id := Seat(team, user)];
    assert forall i :: i in more && more[i].team == other <==> (i in seats && seats[i].team == other) || (i == id && other == team);
    forall u | u in Occupants(seats, other) ensures u in Occupants(more, other) {
      var i :| i in seats && seats[i].team == other && seats[i].user == u;
      assert more[i] == seats[i];
    }
    assert other == team ==> more[id].user == user;
  }

  lemma OccupantHasSeat(seats: Seats, team: Id, user: Id)
    ensures user in Occupants(seats, team) <==> HasSeat(seats, team, user)
  {
    if user in Occupants(seats, team) {
      var id :| id in seats && seats[id].team == team && seats[id].user == user;
      assert IsSeat(seats, id, team, user);
    }
    if HasSeat(seats, team, user) {
      var id :| IsSeat(seats, id, team, user);
      assert seats[id].team == team && seats[id].user == user;
    }
  }

  /** The user may take a seat: it has one already, or there is room. */
  ghost predicate Welcome(cfg: Config, seats: Seats, team: Id, user: Id)
  {
    cfg.SeatLimit() > 0 ==> HasSeat(seats, team, user) || |SeatsOf(seats, team)| < cfg.SeatLimit()
  }

  lemma TakeSeatKeeps(cfg: Config, seats: Seats, id: Id, team: Id, user: Id)
    requires SeatsOk(cfg, seats) && id !in seats && Welcome(cfg, seats, team, user)
    ensures SeatsOk(cfg, seats[id := Seat(team, user)])
  {
    var more := seats[id := Seat(team, user)];
    if cfg.SeatLimit() > 0 {
      forall other ensures |Occupants(more, other)| <= cfg.SeatLimit() {
        TakenSeat(seats, id, team, user, other);
        OccupantHasSeat(seats, team, user);
        FewerUsersThanRows(seats, team);
      }
    }
  }

  lemma FewerSeatsKeep(cfg: Config, seats: Seats, fewer: Seats)
    requires SeatsOk(cfg, seats) && forall id :: id in fewer ==> id in seats && fewer[id] == seats[id]
    ensures SeatsOk(cfg, fewer)
  {
    if cfg.SeatLimit() > 0 {
      forall team ensures |Occupants(fewer, team)| <= cfg.SeatLimit() {
        SubsetSize(Occupants(fewer, team), Occupants(seats, team));
      }
    }
  }

  lemma WelcomeStays(cfg: Config, seats: Seats, id: Id, team: Id, user: Id, other: Id)
    requires id !in seats && Welcome(cfg, seats, other, user)
    ensures Welcome(cfg, seats[id := Seat(team, user)], other, user)
  {
    var more := seats[id := Seat(team, user)];
    TakenSeat(seats, id, team, user, other);
    OccupantHasSeat(seats, other, user);
    OccupantHasSeat(more, other, user);
  }

  lemma {:induction false} JoinTeamsKeeps(cfg: Config, seats: Seats, next: nat, teams: seq<Id>, user: Id, fails: Option<nat>)
    requires cfg.FreshIds() && SeatsOk(cfg, seats) && Free(cfg, seats, next)
    requires forall team :: team in teams ==> Welcome(cfg, seats, team, user)
    ensures SeatsOk(cfg, JoinTeams(cfg, seats, next, teams, user, fails).0)
    decreases teams
  {
    if teams != [] {
      if HasSeat(seats, teams[0], user) {
        JoinTeamsKeeps(cfg, seats, next, teams[1..], user, fails);
      } else if fails != Some(0) {
        var id := cfg.gen(next);
        TakeSeatKeeps(cfg, seats, id, teams[0], user);
        forall team | team in teams[1..] ensures Welcome(cfg, seats[id := Seat(teams[0], user)], team, user) {
          WelcomeStays(cfg, seats, id, teams[0], user, team);
        }
        JoinTeamsKeeps(cfg, seats[id := Seat(teams[0], user)], next + 1, teams[1..], user,
                       if fails.Some? then Some(fails.value - 1) else None);
      }
    }
  }

  /** Old rows are there as before, new ones are in the listed teams, and the ids drawn
      for them are behind `next'`. */
  ghost predicate SeatsGrow(cfg: Config, seats: Seats, next: nat, seats': Seats, next': nat, teams: seq<Id>)
  {
    && next' >= next && Free(cfg, seats', next')
    && (forall s :: s in seats ==> s in seats' && seats'[s] == seats[s])
    && (forall s :: s in seats' ==> s in seats || seats'[s].team in teams)
  }

  lemma {:induction false} JoinTeamsRows(cfg: Config, seats: Seats, next: nat, teams: seq<Id>, user: Id, fails: Option<nat>)
    requires cfg.FreshIds() && Free(cfg, seats, next)
    ensures var joined := JoinTeams(cfg, seats, next, teams, user, fails);
            SeatsGrow(cfg, seats, next, joined.0, joined.1, teams)
    decreases teams
  {
    if teams != [] {
      if HasSeat(seats, teams[0], user) {
        JoinTeamsRows(cfg, seats, next, teams[1..], user, fails);
      } else if fails != Some(0) {
        JoinTeamsRows(cfg, seats[cfg.gen(next) := Seat(teams[0], user)], next + 1, teams[1..], user,
                      if fails.Some? then Some(fails.value - 1) else None);
      }
    }
  }

  /** The teams in which the user has a seat. */
  ghost function TeamsWith(seats: Seats, user: Id): set<Id>
  {
    set id | id in seats && seats[id].user == user :: seats[id].team
  }

  lemma TeamsWithSeat(seats: Seats, user: Id, team: Id)
    ensures team in TeamsWith(seats, user) <==> HasSeat(seats, team, user)
  {
    if team in TeamsWith(seats, user) {
      var id :| id in seats && seats[id].user == user && seats[id].team == team;
      assert IsSeat(seats, id, team, user);
    }
    if HasSeat(seats, team, user) {
      var id :| IsSeat(seats, id, team, user);
      assert seats[id].user == user && seats[id].team == team;
    }
  }

  lemma TeamsWithOneMore(seats: Seats, id: Id, team: Id, user: Id)
    requires id !in seats
    ensures TeamsWith(seats[id := Seat(team, user)], user) == TeamsWith(seats, user) + {team}
  {
    var more := seats[id := Seat(team, user)];
    forall other ensures other in TeamsWith(more, user) <==> other in TeamsWith(seats, user) + {team} {
      TakenSeat(seats, id, team, user, other);
      OccupantHasSeat(more, other, user);
      OccupantHasSeat(seats, other, user);
      TeamsWithSeat(more, user, other);
      TeamsWithSeat(seats, user, other);
    }
  }

  /** The listed teams that are not among `taken`, in order, each once. */
  function Vacant(teams: seq<Id>, taken: set<Id>): seq<Id>
  {
    if teams == [] then []
    else if teams[0] in taken then Vacant(teams[1..], taken)
    else [teams[0]] + Vacant(teams[1..], taken + {teams[0]})
  }

  lemma {:induction false} VacantTeams(teams: seq<Id>, taken: set<Id>)
    ensures forall team :: team in Vacant(teams, taken) <==> team in teams && team !in taken
    ensures forall i, j :: 0 <= i < j < |Vacant(teams, taken)| ==> Vacant(teams, taken)[i] != Vacant(teams, taken)[j]
  {
    if teams != [] {
      VacantTeams(teams[1..], if teams[0] in taken then taken else taken + {teams[0]});
    }
  }

  /** How many seats are written when the write after `fails` of them does not succeed. */
  function Written(vacant: seq<Id>, fails: Option<nat>): (n: nat)
    ensures n <= |vacant|
  {
    if fails.Some? && fails.value < |vacant| then fails.value else |vacant|
  }

  /** What taking the vacant teams in order, up to a failing write, does to the rows,
      to the users of one team and to the outcome. */
  ghost predicate Taken(seats: Seats, seats': Seats, ok: bool, vacant: seq<Id>, fails: Option<nat>, user: Id, team: Id)
  {
    && (ok <==> fails.None? || fails.value >= |vacant|)
    && |seats'| == |seats| + Written(vacant, fails)
    && Occupants(seats', team) == Occupants(seats, team) + if team in vacant[..Written(vacant, fails)] then {user} else {}
  }

  function OneLess(fails: Option<nat>): Option<nat>
    requires fails != Some(0)
  {
    if fails.Some? then Some(fails.value - 1) else None
  }

  lemma WrittenFirst(first: Id, rest: seq<Id>, fails: Option<nat>)
    requires fails != Some(0)
    ensures var vacant, left := [first] + rest, OneLess(fails);
            && Written(vacant, fails) == Written(rest, left) + 1
            && vacant[..Written(vacant, fails)] == [first] + rest[..Written(rest, left)]
  {
  }

  lemma TakenFirst(seats: Seats, id: Id, seats': Seats, ok: bool, first: Id, rest: seq<Id>, fails: Option<nat>, user: Id, team: Id)
    requires id !in seats && fails != Some(0)
    requires Taken(seats[id := Seat(first, user)], seats', ok, rest, OneLess(fails), user, team)
    ensures Taken(seats, seats', ok, [first] + rest, fails, user, team)
  {
    TakenSeat(seats, id, first, user, team);
    WrittenFirst(first, rest, fails);
  }

  /** The writes go through exactly if none of the missing seats is the failing one;
      otherwise the seats before it stay, and they alone. */
  lemma {:induction false} JoinTeamsStops(cfg: Config, seats: Seats, next: nat, teams: seq<Id>, user: Id, fails: Option<nat>, team: Id)
    requires cfg.FreshIds() && Free(cfg, seats, next)
    ensures var (seats', _, ok) := JoinTeams(cfg, seats, next, teams, user, fails);
            Taken(seats, seats', ok, Vacant(teams, TeamsWith(seats, user)), fails, user, team)
    decreases teams
  {
    if teams != [] {
      TeamsWithSeat(seats, user, teams[0]);
      if HasSeat(seats, teams[0], user) {
        JoinTeamsStops(cfg, seats, next, teams[1..], user, fails, team);
      } else if fails != Some(0) {
        var id := cfg.gen(next);
        TeamsWithOneMore(seats, id, teams[0], user);
        var more := seats[id := Seat(teams[0], user)];
        var joined := JoinTeams(cfg, more, next + 1, teams[1..], user, OneLess(fails));
        var rest := Vacant(teams[1..], TeamsWith(more, user));
        assert Free(cfg, more, next + 1);
        assert joined == JoinTeams(cfg, seats, next, teams, user, fails);
        assert Vacant(teams, TeamsWith(seats, user)) == [teams[0]] + rest;
        JoinTeamsStops(cfg, more, next + 1, teams[1..], user, OneLess(fails), team);
        TakenFirst(seats, id, joined.0, joined.2, teams[0], rest, fails, user, team);
      }
    }
  }

  /** Afterwards the user has, besides what was there, a seat in every listed team,
      and nothing else has changed. */
  lemma JoinTeamsSeats(cfg: Config, seats: Seats, next: nat, teams: seq<Id>, user: Id, fails: Option<nat>, team: Id)
    requires cfg.FreshIds() && Free(cfg, seats, next)
    ensures var (seats', _, ok) := JoinTeams(cfg, seats, next, teams, user, fails);
            ok ==> Occupants(seats', team) == Occupants(seats, team) + if team in teams then {user} else {}
  {
    var vacant := Vacant(teams, TeamsWith(seats, user));
    JoinTeamsStops(cfg, seats, next, teams, user, fails, team);
    VacantTeams(teams, TeamsWith(seats, user));
    TeamsWithSeat(seats, user, team);
    OccupantHasSeat(seats, team, user);
    assert vacant[..|vacant|] == vacant;
  }

  lemma EnterKeepsSeats(cfg: Config, t: Tables, user: Id, id: Id, teams: seq<Id>, fault: Fault)
    requires cfg.FreshIds() && SeatsOk(cfg, t.seats) && Free(cfg, t.seats, t.next) && id in t.invitations
    requires forall team :: team in teams ==> Welcome(cfg, t.seats, team, user)
    ensures SeatsOk(cfg, Enter(cfg, t, user, id, teams, fault).0.seats)
  {
    assert Free(cfg, t.seats, t.next + 1);
    JoinTeamsKeeps(cfg, t.seats, t.next + 1, teams, user, FailingSeat(fault));
  }

  /** Even if one invitation names several teams, and even if a write fails on the way. */
  lemma AcceptKeepsSeats(cfg: Config, t: Tables, caller: Caller, id: Id, fault: Fault, now: int)
    requires cfg.FreshIds() && SeatsOk(cfg, t.seats) && Free(cfg, t.seats, t.next)
    ensures SeatsOk(cfg, Accept(cfg, t, caller, id, fault, now).0.seats)
  {
    if CheckAccept(cfg, t, caller, id, now).Done? {
      var teams := Pieces(t.invitations[id].teamIds);
      forall team | team in teams ensures Welcome(cfg, t.seats, team, caller.user) {
        assert !TeamFull(cfg, t.seats, team, caller.user);
      }
      EnterKeepsSeats(cfg, t, caller.user, id, teams, fault);
    }
  }

  lemma CreateKeepsSeats(cfg: Config, t: Tables, user: Id, name: string, slug: string)
    requires SeatsOk(cfg, t.seats) && Free(cfg, t.seats, t.next)
    requires SeatsOf(t.seats, cfg.gen(t.next + 2)) == {}
    ensures SeatsOk(cfg, Create(cfg, t, user, name, slug).0.seats)
  {
    if cfg.DefaultTeam() {
      TakeSeatKeeps(cfg, t.seats, cfg.gen(t.next + 3), cfg.gen(t.next + 2), user);
    }
  }

  lemma AddMemberKeepsSeats(cfg: Config, env: Env, t: Tables, user: Id, roles: seq<string>, org: Id, team: Id)
    requires SeatsOk(cfg, t.seats) && Free(cfg, t.seats, t.next)
    ensures SeatsOk(cfg, AddMember(cfg, env, t, user, roles, org, team).0.seats)
  {
    if CheckAddMember(cfg, env, t, user, roles, org, team).Done? && team != "" {
      TakeSeatKeeps(cfg, t.seats, cfg.gen(t.next + 1), team, user);
    }
  }

  lemma AddTeamMemberKeepsSeats(cfg: Config, env: Env, t: Tables, user: Id, org: Id, team: Id, target: Id)
    requires SeatsOk(cfg, t.seats) && Free(cfg, t.seats, t.next)
    ensures SeatsOk(cfg, AddTeamMember(cfg, env, t, user, org, team, target).0.seats)
  {
    if CheckAddTeamMember(cfg, env, t, user, org, team, target).Done? && !HasSeat(t.seats, team, target) {
      TakeSeatKeeps(cfg, t.seats, cfg.gen(t.next), team, target);
    }
  }

  lemma RemovalsKeepSeats(cfg: Config, env: Env, t: Tables, user: Id, org: Id, seat: Id, team: Id, target: Id, active: Option<Id>)
    requires SeatsOk(cfg, t.seats)
    ensures SeatsOk(cfg, RemoveTeamMember(cfg, env, t, user, org, seat, team, target).0.seats)
    ensures SeatsOk(cfg, RemoveTeam(cfg, t, user, org, team, active).0.seats)
  {
    var named := NamedSeat(t, org, seat, team, target);
    FewerSeatsKeep(cfg, t.seats, map id | id in t.seats && t.seats[id] != named :: t.seats[id]);
    FewerSeatsKeep(cfg, t.seats, map id | id in t.seats && t.seats[id].team != team :: t.seats[id]);
  }

  // -------------------------------------------------------------- a failed acceptance

  /** The teams that an invitation would still have to seat the user in. */
  ghost function VacantTeamsOf(t: Tables, id: Id, user: Id): seq<Id>
  {
    if id in t.invitations then Vacant(Pieces(t.invitations[id].teamIds), TeamsWith(t.seats, user)) else []
  }

  lemma {:induction false} NothingWritten(cfg: Config, seats: Seats, next: nat, teams: seq<Id>, user: Id)
    ensures JoinTeams(cfg, seats, next, teams, user, Some(0)).0 == seats
    decreases teams
  {
    if teams != [] && HasSeat(seats, teams[0], user) {
      NothingWritten(cfg, seats, next, teams[1..], user);
    }
  }

  /** The writes are refused, and what then is left of them. */
  ghost predicate Stopped(t: Tables, r: (Tables, Reply), vacant: seq<Id>, fault: Fault, user: Id, team: Id)
  {
    && (r.1.Refused? <==> fault.MemberWrite? || (fault.SeatWrite? && fault.n < |vacant|))
    && (r.1.Refused? ==>
          && (r.0.seats == t.seats <==> !(fault.SeatWrite? && fault.n > 0))
          && (fault.SeatWrite? ==>
                Occupants(r.0.seats, team) == Occupants(t.seats, team) + if team in vacant[..fault.n] then {user} else {}))
  }

  lemma EnterStops(cfg: Config, t: Tables, user: Id, id: Id, teams: seq<Id>, fault: Fault, team: Id)
    requires cfg.FreshIds() && Free(cfg, t.seats, t.next) && id in t.invitations
    ensures Stopped(t, Enter(cfg, t, user, id, teams, fault), Vacant(teams, TeamsWith(t.seats, user)), fault, user, team)
  {
    if !fault.MemberWrite? {
      assert Free(cfg, t.seats, t.next + 1);
      var joined := JoinTeams(cfg, t.seats, t.next + 1, teams, user, FailingSeat(fault));
      assert Enter(cfg, t, user, id, teams, fault).1.Done? == joined.2;
      assert Enter(cfg, t, user, id, teams, fault).0.seats == joined.0;
      JoinTeamsStops(cfg, t.seats, t.next + 1, teams, user, FailingSeat(fault), team);
      if fault == SeatWrite(0) {
        NothingWritten(cfg, t.seats, t.next + 1, teams, user);
      }
    }
  }

  /** With all checks passed, an acceptance is refused exactly if the member cannot be
      written or one of the missing seats cannot. It then takes back the member and the
      status, but the seats before the failing one stay: the tables differ exactly if
      there are such seats, and exactly by them. */
  lemma RefusedAcceptMayLeaveSeats(cfg: Config, t: Tables, caller: Caller, id: Id, fault: Fault, now: int, team: Id)
    requires cfg.FreshIds() && Free(cfg, t.seats, t.next)
    ensures var check, vacant := CheckAccept(cfg, t, caller, id, now), VacantTeamsOf(t, id, caller.user);
            var (t', reply) := Accept(cfg, t, caller, id, fault, now);
            && (reply.Refused? <==> !check.Done? || fault.MemberWrite? || (fault.SeatWrite? && fault.n < |vacant|))
            && (reply.Refused? ==>
                  && t' == t.(seats := t'.seats, next := t'.next)
                  && (t'.seats == t.seats <==> !(check.Done? && fault.SeatWrite? && fault.n > 0))
                  && (check.Done? && fault.SeatWrite? ==>
                        Occupants(t'.seats, team) == Occupants(t.seats, team) + if team in vacant[..fault.n] then {caller.user} else {}))
  {
    if CheckAccept(cfg, t, caller, id, now).Done? {
      var teams := Pieces(t.invitations[id].teamIds);
      EnterStops(cfg, t, caller.user, id, teams, fault, team);
      var r := Enter(cfg, t, caller.user, id, teams, fault);
      assert r.1.Refused? ==> r.0 == t.(seats := r.0.seats, next := r.0.next);
      assert Accept(cfg, t, caller, id, fault, now) == r;
    } else {
      assert Accept(cfg, t, caller, id, fault, now).0 == t;
    }
  }

  // -------------------------------------------------------------- rows

  /** One row for each user and team. */
  ghost predicate SingleSeats(seats: Seats)
  {
    forall i, j :: i in seats && j in seats && seats[i] == seats[j] ==> i == j
  }

  lemma {:induction false} SingleImage(seats: Seats, ids: set<Id>, team: Id)
    requires SingleSeats(seats) && ids <= SeatsOf(seats, team)
    ensures |set id | id in ids :: seats[id].user| == |ids|
  {
    if ids != {} {
      var x :| x in ids;
      SingleImage(seats, ids - {x}, team);
      var users := set id | id in ids - {x} :: seats[id].user;
      assert (set id | id in ids :: seats[id].user) == users + {seats[x].user};
      forall id | id in ids - {x} ensures seats[id].user != seats[x].user {
        assert seats[id] == Seat(team, seats[id].user) && seats[x] == Seat(team, seats[x].user);
      }
    }
  }

  /** Then the limit on users is a limit on rows. */
  lemma RowsAreUsers(cfg: Config, seats: Seats, team: Id)
    requires SingleSeats(seats) && SeatsOk(cfg, seats) && cfg.SeatLimit() > 0
    ensures |SeatsOf(seats, team)| <= cfg.SeatLimit()
  {
    SingleImage(seats, SeatsOf(seats, team), team);
    assert Occupants(seats, team) == set id | id in SeatsOf(seats, team) :: seats[id].user;
  }

  lemma OneMoreSeat(seats: Seats, id: Id, team: Id, user: Id)
    requires SingleSeats(seats) && id !in seats
    ensures SingleSeats(seats[id := Seat(team, user)]) <==> !HasSeat(seats, team, user)
  {
    var more := seats[id := Seat(team, user)];
    if HasSeat(seats, team, user) {
      var other :| IsSeat(seats, other, team, user);
      assert more[id] == more[other];
    } else {
      forall i | i in seats ensures seats[i] != Seat(team, user) {
        assert !IsSeat(seats, i, team, user);
      }
    }
  }

  lemma {:induction false} JoinTeamsSingle(cfg: Config, seats: Seats, next: nat, teams: seq<Id>, user: Id, fails: Option<nat>)
    requires cfg.FreshIds() && Free(cfg, seats, next) && SingleSeats(seats)
    ensures SingleSeats(JoinTeams(cfg, seats, next, teams, user, fails).0)
    decreases teams
  {
    if teams != [] {
      if HasSeat(seats, teams[0], user) {
        JoinTeamsSingle(cfg, seats, next, teams[1..], user, fails);
      } else if fails != Some(0) {
        OneMoreSeat(seats, cfg.gen(next), teams[0], user);
        JoinTeamsSingle(cfg, seats[cfg.gen(next) := Seat(teams[0], user)], next + 1, teams[1..], user, OneLess(fails));
      }
    }
  }

  lemma EnterSingle(cfg: Config, t: Tables, user: Id, id: Id, teams: seq<Id>, fault: Fault)
    requires cfg.FreshIds() && Free(cfg, t.seats, t.next) && SingleSeats(t.seats) && id in t.invitations
    ensures SingleSeats(Enter(cfg, t, user, id, teams, fault).0.seats)
  {
    assert Free(cfg, t.seats, t.next + 1);
    JoinTeamsSingle(cfg, t.seats, t.next + 1, teams, user, FailingSeat(fault));
  }

  lemma AcceptSingle(cfg: Config, t: Tables, caller: Caller, id: Id, fault: Fault, now: int)
    requires cfg.FreshIds() && Free(cfg, t.seats, t.next) && SingleSeats(t.seats)
    ensures SingleSeats(Accept(cfg, t, caller, id, fault, now).0.seats)
  {
    if CheckAccept(cfg, t, caller, id, now).Done? {
      var teams := Pieces(t.invitations[id].teamIds);
      EnterSingle(cfg, t, caller.user, id, teams, fault);
    }
  }

  /** The call adds a second row: it names a team in which the user has a seat already. */
  ghost predicate SeatsAgain(cfg: Config, env: Env, t: Tables, user: Id, roles: seq<string>, org: Id, team: Id)
  {
    CheckAddMember(cfg, env, t, user, roles, org, team).Done? && team != "" && HasSeat(t.seats, team, user)
  }

  lemma AddMemberSingle(cfg: Config, env: Env, t: Tables, user: Id, roles: seq<string>, org: Id, team: Id)
    requires Free(cfg, t.seats, t.next) && SingleSeats(t.seats)
    ensures SingleSeats(AddMember(cfg, env, t, user, roles, org, team).0.seats) <==> !SeatsAgain(cfg, env, t, user, roles, org, team)
  {
    OneMoreSeat(t.seats, cfg.gen(t.next + 1), team, user);
  }

  lemma AddMemberSeats(cfg: Config, env: Env, t: Tables, user: Id, roles: seq<string>, org: Id, team: Id)
    requires team != "" && CheckAddMember(cfg, env, t, user, roles, org, team).Done?
    ensures AddMember(cfg, env, t, user, roles, org, team).0.seats == t.seats[cfg.gen(t.next + 1) := Seat(team, user)]
  {
    var t' := t.(members := t.members[cfg.gen(t.next) := Member(org, user, ParseRole(roles).value)], next := t.next + 1);
    assert AddMember(cfg, env, t, user, roles, org, team).0 == t'.(seats := t.seats[cfg.gen(t.next + 1) := Seat(team, user)], next := t.next + 2);
  }

  lemma AddMemberFindsRoom(cfg: Config, env: Env, t: Tables, user: Id, roles: seq<string>, org: Id, team: Id)
    requires team != "" && CheckAddMember(cfg, env, t, user, roles, org, team).Done?
    ensures !TeamFull(cfg, t.seats, team, user) && user != ""
  {
  }

  /** A permitted call that names a team adds one row to it, for a user who left the
      organization and kept the seat a second one. It takes the team over the limit
      exactly if the user has a seat there and the team is full. */
  lemma AddMemberMayDoubleRows(cfg: Config, env: Env, t: Tables, user: Id, roles: seq<string>, org: Id, team: Id)
    requires Free(cfg, t.seats, t.next) && cfg.SeatLimit() > 0 && team != ""
    requires CheckAddMember(cfg, env, t, user, roles, org, team).Done?
    ensures var rows := |SeatsOf(AddMember(cfg, env, t, user, roles, org, team).0.seats, team)|;
            && rows == |SeatsOf(t.seats, team)| + 1
            && (rows > cfg.SeatLimit() <==> HasSeat(t.seats, team, user) && |SeatsOf(t.seats, team)| >= cfg.SeatLimit())
  {
    AddMemberSeats(cfg, env, t, user, roles, org, team);
    AddMemberFindsRoom(cfg, env, t, user, roles, org, team);
    TakenSeat(t.seats, cfg.gen(t.next + 1), team, user, team);
  }

}
