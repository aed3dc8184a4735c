/** The comma-separated encodings of member roles and invitation teams. */
module RoleCodec {
  import opened Common
  import opened Strings

  /** What is left of one piece: nothing, or the piece without outer spaces. */
  function Kept(piece: string): seq<string>
  {
    var p := TrimSpace(piece);
    if p == "" then [] else [p]
  }

  /** The non-empty pieces, trimmed, in order. */
  function Cleaned(pieces: seq<string>): seq<string>
  {
    if pieces == [] then [] else Kept(pieces[0]) + Cleaned(pieces[1..])
  }

  /** The role names written in a role value. */
  function Pieces(value: string): seq<string>
  {
    Cleaned(Split(value, ','))
  }

  /** The role names written in any of several values. */
  function AllPieces(values: seq<string>): seq<string>
  {
    if values == [] then [] else AllPieces(values[..|values| - 1]) + Pieces(values[|values| - 1])
  }

  lemma {:induction false} CleanedAppend(a: seq<string>, b: seq<string>)
    ensures Cleaned(a + b) == Cleaned(a) + Cleaned(b)
  {
    if a == [] {
      assert a + b == b;
    } else {
      CleanedAppend(a[1..], b);
      assert (a + b)[1..] == a[1..] + b && (a + b)[0] == a[0];
      AppendAssociates(Kept(a[0]), Cleaned(a[1..]), Cleaned(b));
    }
  }

  predicate Clean(piece: string)
  {
    piece != "" && Trimmed(piece) && ',' !in piece
  }

  lemma {:induction false} CleanedContents(pieces: seq<string>)
    ensures forall e :: e in Cleaned(pieces) <==> e != "" && exists p :: p in pieces && TrimSpace(p) == e
  {
    if pieces != [] {
      CleanedContents(pieces[1..]);
      assert forall p :: p in pieces <==> p == pieces[0] || p in pieces[1..];
    }
  }

  lemma PiecesAreClean(value: string)
    ensures forall p :: p in Pieces(value) ==> Clean(p)
  {
    CleanedContents(Split(value, ','));
    SplitPiecesLackSeparator(value, ',');
    forall e | e in Pieces(value) ensures Clean(e) {
      var p :| p in Split(value, ',') && TrimSpace(p) == e;
      TrimSpaceProperties(p);
    }
  }

  lemma {:induction false} AllPiecesAreClean(values: seq<string>)
    ensures forall p :: p in AllPieces(values) ==> Clean(p)
  {
    if values != [] {
      PiecesAreClean(values[|values| - 1]);
      AllPiecesAreClean(values[..|values| - 1]);
    }
  }

  lemma {:induction false} CleanedOfClean(pieces: seq<string>)
    requires forall p :: p in pieces ==> Clean(p)
    ensures Cleaned(pieces) == pieces
  {
    if pieces != [] {
      assert pieces[0] in pieces;
      TrimSpaceProperties(pieces[0]);
      CleanedOfClean(pieces[1..]);
      assert Kept(pieces[0]) == [pieces[0]];
      assert pieces == [pieces[0]] + pieces[1..];
    }
  }

  /** Joining clean names and reading them back loses nothing. */
  lemma PiecesOfJoin(names: seq<string>)
    requires forall p :: p in names ==> Clean(p)
    ensures Pieces(Join(names, ',')) == names
  {
    if names == [] {
      assert Split("", ',') == [""];
    } else {
      SplitJoin(names, ',');
      CleanedOfClean(names);
    }
  }

  lemma PiecesOfConcat(a: string, b: string)
    ensures Pieces(a + [','] + b) == Pieces(a) + Pieces(b)
  {
    SplitConcat(a, ',', b);
    CleanedAppend(Split(a, ','), Split(b, ','));
  }

  datatype Normalized = Roles(value: string) | NoRole

  /** The inner loop of `normalizeMemberRoles`: the names in one value are added. */
  method AppendPieces(before: seq<string>, value: string) returns (roles: seq<string>)
    ensures roles == before + Pieces(value)
  {
    roles := before;
    var pieces := Split(value, ',');
    for j := 0 to |pieces|
      invariant roles == before + Cleaned(pieces[..j])
    {
      var role := TrimSpace(pieces[j]);
      if role != "" {
        roles := roles + [role];
      }
      CleanedAppend(pieces[..j], [pieces[j]]);
      assert Cleaned([pieces[j]]) == Kept(pieces[j]);
      assert pieces[..j + 1] == pieces[..j] + [pieces[j]];
    }
    assert pieces[..|pieces|] == pieces;
  }

  /** `normalizeMemberRoles`. */
  method NormalizeMemberRoles(values: seq<string>) returns (r: Normalized)
    ensures r == if AllPieces(values) == [] then NoRole else Roles(Join(AllPieces(values), ','))
  {
    var roles: seq<string> := [];
    for i := 0 to |values|
      invariant roles == AllPieces(values[..i])
    {
      roles := AppendPieces(roles, values[i]);
      assert values[..i + 1][..i] == values[..i];
    }
    assert values[..|values|] == values;
    if |roles| == 0 {
      return NoRole;
    }
    return Roles(Join(roles, ','));
  }

  /** Whether a role value names a role. */
  ghost predicate HasRole(value: string, expected: string)
  {
    exists p :: p in Split(value, ',') && TrimSpace(p) == expected
  }

  /** `memberHasRole`. */
  method MemberHasRole(value: string, expected: string) returns (has: bool)
    ensures has <==> HasRole(value, expected)
  {
    var pieces := Split(value, ',');
    for i := 0 to |pieces|
      invariant forall j :: 0 <= j < i ==> TrimSpace(pieces[j]) != expected
    {
      if TrimSpace(pieces[i]) == expected {
        return true;
      }
    }
    return false;
  }

  lemma HasRoleIsAPiece(value: string, expected: string)
    requires expected != ""
    ensures HasRole(value, expected) <==> expected in Pieces(value)
  {
    CleanedContents(Split(value, ','));
  }

  /** A normalized role value names exactly the non-empty trimmed pieces of what
      was asked for, and normalizing it once more changes nothing. */
  lemma NormalizationIsFaithful(values: seq<string>, expected: string)
    requires AllPieces(values) != []
    ensures var value := Join(AllPieces(values), ',');
            && (HasRole(value, expected) <==>
                  expected != "" && exists v :: v in values && HasRole(v, expected))
            && AllPieces([value]) == AllPieces(values)
  {
    var names := AllPieces(values);
    var value := Join(names, ',');
    AllPiecesAreClean(values);
    PiecesOfJoin(names);
    assert [value][..0] == [];
    SplitJoin(names, ',');
    CleanedOfClean(names);
    forall p | p in names ensures TrimSpace(p) == p {
      TrimSpaceProperties(p);
    }
    assert HasRole(value, expected) <==> expected in names;
    AllPiecesContents(values, expected);
  }

  lemma {:induction false} AllPiecesContents(values: seq<string>, e: string)
    ensures e in AllPieces(values) <==>
            e != "" && exists v :: v in values && HasRole(v, e)
  {
    if e == "" {
      AllPiecesAreClean(values);
    } else if values != [] {
      var front, last := values[..|values| - 1], values[|values| - 1];
      AllPiecesContents(front, e);
      HasRoleIsAPiece(last, e);
      forall v | v in values ensures v in front || v == last {
        assert values == front + [last];
      }
    }
  }

  /** A single role name is held by the member it is given to as a role value
      exactly when it is trimmed and has no comma. */
  lemma NameNamesItself(name: string)
    ensures HasRole(name, name) <==> Trimmed(name) && ',' !in name
  {
    if ',' !in name {
      SplitOfWhole(name, ',');
      TrimSpaceProperties(name);
    } else {
      SplitPiecesLackSeparator(name, ',');
      forall p | p in Split(name, ',') ensures TrimSpace(p) != name {
        TrimSpaceProperties(p);
      }
    }
  }

  /** Keeps the first occurrence of every id. */
  function Distinct(ids: seq<string>): seq<string>
  {
    if ids == [] then []
    else
      var front := Distinct(ids[..|ids| - 1]);
      if ids[|ids| - 1] in front then front else front + [ids[|ids| - 1]]
  }

  lemma DistinctStep(ids: seq<string>, id: string)
    ensures Distinct(ids + [id]) == if id in Distinct(ids) then Distinct(ids) else Distinct(ids) + [id]
  {
    assert (ids + [id])[..|ids|] == ids;
  }

  lemma {:induction false} DistinctProperties(ids: seq<string>)
    ensures forall e :: e in Distinct(ids) <==> e in ids
    ensures forall i, j :: 0 <= i < j < |Distinct(ids)| ==> Distinct(ids)[i] != Distinct(ids)[j]
  {
    if ids != [] {
      DistinctProperties(ids[..|ids| - 1]);
      assert ids == ids[..|ids| - 1] + [ids[|ids| - 1]];
    }
  }

  datatype TeamList = Teams(ids: seq<string>) | BadTeam

  /** `normalizeInvitationTeamIDs`: trimmed, without empties or repetitions; an
      id with a comma is refused. */
  method NormalizeTeamIds(values: seq<string>) returns (r: TeamList)
    ensures r == if exists v :: v in values && ',' in TrimSpace(v) then BadTeam
                 else Teams(Distinct(Cleaned(values)))
  {
    var teamIds: seq<string> := [];
    for i := 0 to |values|
      invariant forall v :: v in values[..i] ==> ',' !in TrimSpace(v)
      invariant teamIds == Distinct(Cleaned(values[..i]))
    {
      assert values[..i + 1] == values[..i] + [values[i]];
      CleanedAppend(values[..i], [values[i]]);
      assert Cleaned([values[i]]) == Kept(values[i]);
      var value := TrimSpace(values[i]);
      if value == "" {
        assert Cleaned(values[..i + 1]) == Cleaned(values[..i]);
        continue;
      }
      if Contains(value, ',') {
        assert values[i] in values;
        return BadTeam;
      }
      DistinctStep(Cleaned(values[..i]), value);
      if value !in teamIds {
        teamIds := teamIds + [value];
      }
    }
    assert values[..|values|] == values;
    return Teams(teamIds);
  }

  /** `invitationTeamIDs`. */
  method InvitationTeamIds(value: string) returns (ids: seq<string>)
    ensures ids == Pieces(value)
  {
    if value == "" {
      assert Split("", ',') == [""];
      return [];
    }
    var pieces := Split(value, ',');
    ids := [];
    for i := 0 to |pieces|
      invariant ids == Cleaned(pieces[..i])
    {
      var id := TrimSpace(pieces[i]);
      if id != "" {
        ids := ids + [id];
      }
      CleanedAppend(pieces[..i], [pieces[i]]);
      assert Cleaned([pieces[i]]) == Kept(pieces[i]);
      assert pieces[..i + 1] == pieces[..i] + [pieces[i]];
    }
    assert pieces[..|pieces|] == pieces;
  }

  /** Reading back the stored team list of an invitation gives the very list
      that was requested: its trimmed, non-empty ids, each once. */
  lemma TeamIdsRoundTrip(values: seq<string>)
    requires forall v :: v in values ==> ',' !in TrimSpace(v)
    ensures var ids := Distinct(Cleaned(values));
            && Pieces(Join(ids, ',')) == ids
            && (forall e :: e in ids <==> e != "" && exists v :: v in values && TrimSpace(v) == e)
            && (forall i, j :: 0 <= i < j < |ids| ==> ids[i] != ids[j])
  {
    var ids := Distinct(Cleaned(values));
    DistinctProperties(Cleaned(values));
    CleanedContents(values);
    forall p | p in ids ensures Clean(p) {
      var v :| v in values && TrimSpace(v) == p;
      TrimSpaceProperties(v);
    }
    PiecesOfJoin(ids);
  }

}
