/** What every formation keeps, whatever its mode. */
module TeamFormationTheorems {
  import opened Common
  import opened TeamFormation

  function UserIds(players: seq<Player>): (r: seq<int>)
    ensures |r| == |players|
  {
    seq(|players|, i requires 0 <= i < |players| => players[i].userId)
  }

  function RolesOf(a: seq<RoleAssignment>): (r: seq<Role>)
    ensures |r| == |a|
  {
    seq(|a|, i requires 0 <= i < |a| => a[i].role)
  }

  /** An assignment that reports its player's own preference and strength. */
  ghost predicate Honest(roster: seq<Player>, a: RoleAssignment) {
    exists p :: p in roster && a == RoleAssignment(p.userId, a.role, PreferenceOf(p, a.role), Strength(p))
  }

  ghost predicate TeamOf(roster: seq<Player>, team: FormedTeam) {
    && Distinct(RolesOf(team.assignments))
    && (forall a :: a in team.assignments ==> Honest(roster, a))
    && team.captainId in AssignedIds(team.assignments)
  }

  /** Equal teams, every player on exactly one of them, different roles within a
      team, a captain on each. */
  ghost predicate SeatsEveryone(roster: seq<Player>, r: FormationResult) {
    && |r.blue.assignments| == |r.red.assignments|
    && multiset(AssignedIds(r.blue.assignments)) + multiset(AssignedIds(r.red.assignments)) == multiset(UserIds(roster))
    && TeamOf(roster, r.blue) && TeamOf(roster, r.red)
  }

  lemma {:induction false} SameIds(a: seq<Player>, b: seq<Player>)
    requires multiset(a) == multiset(b)
    ensures multiset(UserIds(a)) == multiset(UserIds(b))
    decreases |a|
  {
    hide UserIds;
    SameLength(a, b);
    if a != [] {
      var i := Among(a, b);
      var restA, restB := a[..0] + a[1..], b[..i] + b[i + 1..];
      RestIs(a, 0);
      RestIs(b, i);
      SameIds(restA, restB);
      IdsWithout(a, 0);
      IdsWithout(b, i);
    }
  }

  lemma SameLength(a: seq<Player>, b: seq<Player>)
    requires multiset(a) == multiset(b)
    ensures |a| == |b| && (a == [] ==> b == [])
  {
    assert |multiset(a)| == |a| && |multiset(b)| == |b|;
  }

  lemma Among(a: seq<Player>, b: seq<Player>) returns (i: nat)
    requires multiset(a) == multiset(b) && a != []
    ensures i < |b| && b[i] == a[0]
  {
    assert a[0] in multiset(b);
    i :| 0 <= i < |b| && b[i] == a[0];
  }

  lemma RestIs(players: seq<Player>, i: nat)
    requires i < |players|
    ensures multiset(players[..i] + players[i + 1..]) == multiset(players) - multiset{players[i]}
  {
    RemoveAt(players, i);
  }

  lemma IdsWithout(players: seq<Player>, i: nat)
    requires i < |players|
    ensures multiset(UserIds(players)) == multiset(UserIds(players[..i] + players[i + 1..])) + multiset{players[i].userId}
  {
    RemoveAt(UserIds(players), i);
    assert UserIds(players)[..i] + UserIds(players)[i + 1..] == UserIds(players[..i] + players[i + 1..]);
  }

  lemma {:induction false} FirstVolunteerIsMember(players: seq<Player>, default: int)
    ensures FirstVolunteer(players, default) == default || exists p :: p in players && p.captain && p.userId == FirstVolunteer(players, default)
  {
    if players != [] {
      if players[0].captain { assert players[0] in players; } else { FirstVolunteerIsMember(players[1..], default); }
    }
  }

  /** The team BestTeam makes of some members of the roster. */
  lemma BestTeamSeats(roster: seq<Player>, members: seq<Player>, captainId: Option<int>)
    requires 1 <= |members| <= 5 && forall p :: p in members ==> p in roster
    requires captainId.Some? ==> captainId.value in UserIds(members)
    ensures var team := BestTeam(members, captainId);
            && |team.assignments| == |members|
            && multiset(AssignedIds(team.assignments)) == multiset(UserIds(members))
            && TeamOf(roster, team)
  {
    hide BestRoles;
    var players := SortBy(members, IdKey);
    var team := BestTeam(members, captainId);
    var a := team.assignments;
    SameIds(players, members);
    assert AssignedIds(a) == UserIds(players);
    assert RolesOf(a) == BestRoles(players);
    forall i | 0 <= i < |players| ensures players[i] in roster && Honest(roster, a[i]) {
      assert players[i] in multiset(members);
    }
    FirstVolunteerIsMember(players, players[0].userId);
    assert players[0].userId == AssignedIds(a)[0];
    if captainId.Some? && captainId.value != 0 {
      assert captainId.value in multiset(UserIds(members));
    } else if team.captainId != players[0].userId {
      var p :| p in players && p.captain && p.userId == team.captainId;
      var i :| 0 <= i < |players| && players[i] == p;
      assert AssignedIds(a)[i] == team.captainId;
    }
  }

  lemma UserIdsCons(p: Player, rest: seq<Player>)
    ensures multiset(UserIds([p] + rest)) == multiset{p.userId} + multiset(UserIds(rest))
  {
    assert UserIds([p] + rest) == [p.userId] + UserIds(rest);
  }

  lemma {:induction false} MembersPartition(roster: seq<Player>, ids: set<int>, others: set<int>)
    requires forall p :: p in roster ==> (p.userId in others <==> p.userId !in ids)
    ensures multiset(UserIds(Members(roster, ids))) + multiset(UserIds(Members(roster, others))) == multiset(UserIds(roster))
  {
    if roster != [] {
      var tail := roster[1..];
      MembersPartition(tail, ids, others);
      assert roster == [roster[0]] + tail;
      UserIdsCons(roster[0], tail);
      if roster[0].userId in ids {
        UserIdsCons(roster[0], Members(tail, ids));
      } else {
        UserIdsCons(roster[0], Members(tail, others));
      }
    }
  }

  lemma SplitSeatsEveryone(roster: seq<Player>, mode: Mode)
    requires ValidRoster(roster)
    ensures SeatsEveryone(roster, OptimizedSplit(roster, mode))
  {
    var halves := Halves(roster);
    var all := CandidatesFrom(roster, halves);
    CandidatesExist(roster);
    var best := BestSplit(roster);
    assert best in all;
    var half := CandidateOrigin(roster, halves, best);
    HalvesSplit(roster, half);
    var rest := Members(roster, PlayerIds(roster) - PlayerIds(half));
    BestTeamSeats(roster, half, None);
    BestTeamSeats(roster, rest, None);
    MembersPartition(roster, PlayerIds(half), PlayerIds(roster) - PlayerIds(half));
  }

  // ---- The snake draft ------------------------------------------------------

  /** The roles somebody on the side prefers. */
  function Preferred(side: seq<Player>): set<Role> {
    set r | r in {Solo, Jungle, Mid, Support, Adc} && exists p :: p in side && (p.primary == Some(r) || p.secondary == Some(r))
  }

  /** Nobody who waits would bring the side more preferred roles, on a tie a
      smaller gap in strength, and with both the same a smaller ID. */
  ghost predicate BestPick(side: seq<Player>, other: seq<Player>, waiting: seq<Player>, choice: Player) {
    forall p :: p in waiting ==> NoBetterPick(side, other, choice, p)
  }

  predicate NoBetterPick(side: seq<Player>, other: seq<Player>, choice: Player, p: Player) {
    var mine, theirs := |Preferred(side + [choice])|, |Preferred(side + [p])|;
    var gap, gapThen := Abs(SumStrength(side) + Strength(choice) - SumStrength(other)), Abs(SumStrength(side) + Strength(p) - SumStrength(other));
    mine > theirs || (mine == theirs && gap < gapThen) || (mine == theirs && gap == gapThen && choice.userId <= p.userId)
  }

  lemma {:induction false} PreferredIs(side: seq<Player>)
    ensures PreferredRoles(side) == Preferred(side)
  {
    if side != [] {
      PreferredIs(side[1..]);
      assert side == [side[0]] + side[1..];
      forall r ensures r in PreferredRoles(side) <==> r in Preferred(side) { PreferredFirst(side[0], side[1..], r); }
    }
  }

  lemma PreferredFirst(p: Player, rest: seq<Player>, r: Role)
    ensures r in Preferred([p] + rest) <==> p.primary == Some(r) || p.secondary == Some(r) || r in Preferred(rest)
  {
    assert p in [p] + rest;
  }

  lemma {:induction false} SumAppends(side: seq<Player>, p: Player)
    ensures SumStrength(side + [p]) == SumStrength(side) + Strength(p)
  {
    if side == [] {
      assert [] + [p] == [p];
    } else {
      assert (side + [p])[1..] == side[1..] + [p];
      SumAppends(side[1..], p);
    }
  }

  lemma LeastKeyIsBestPick(side: seq<Player>, other: seq<Player>, choice: Player, p: Player)
    requires LexLeq(PickKey(side, other, choice), PickKey(side, other, p))
    ensures NoBetterPick(side, other, choice, p)
  {
    var k, l := PickKey(side, other, choice), PickKey(side, other, p);
    PreferredIs(side + [choice]);
    PreferredIs(side + [p]);
    SumAppends(side, choice);
    SumAppends(side, p);
    hide PreferredRoles, Preferred, SumStrength, Strength;
    assert k == [k[0]] + k[1..] && l == [l[0]] + l[1..];
    LexPair(k[1], k[2], l[1], l[2]);
    assert k[1..] == [k[1], k[2]] && l[1..] == [l[1], l[2]];
  }

  /** The order is a snake draft of these players: at every turn the side whose
      turn it is takes a best pick, until nobody waits. */
  ghost predicate IsSnakeDraft(turn: nat, blue: seq<Player>, red: seq<Player>, remaining: seq<Player>, order: seq<int>)
    decreases |order|
  {
    if order == [] then remaining == []
    else exists i :: 0 <= i < |remaining| && SnakeTurn(turn, blue, red, remaining, order, i)
  }

  ghost predicate SnakeTurn(turn: nat, blue: seq<Player>, red: seq<Player>, remaining: seq<Player>, order: seq<int>, i: nat)
    requires order != [] && i < |remaining|
    decreases |order|, 0
  {
    var choice, rest := remaining[i], remaining[..i] + remaining[i + 1..];
    && choice.userId == order[0]
    && if BluePicks(turn)
       then BestPick(blue, red, remaining, choice)
            && IsSnakeDraft(turn + 1, blue + [choice], red, rest, order[1..])
       else BestPick(red, blue, remaining, choice)
            && IsSnakeDraft(turn + 1, blue, red + [choice], rest, order[1..])
  }

  function PickOrderFrom(turn: nat, d: Draft): seq<int>
    decreases |d.remaining|
  {
    if d.remaining == [] || turn >= 8 then []
    else
      var e := DraftTurn(turn, d);
      [e.order[|d.order|]] + PickOrderFrom(turn + 1, e)
  }

  lemma {:induction false} DraftOrderGrows(turn: nat, d: Draft)
    ensures DraftFrom(turn, d).order == d.order + PickOrderFrom(turn, d)
    decreases |d.remaining|
  {
    hide NextPick;
    if d.remaining != [] && turn < 8 {
      var e := DraftTurn(turn, d);
      DraftOrderGrows(turn + 1, e);
      assert e.order == d.order + [e.order[|d.order|]];
    }
  }

  lemma {:induction false} DraftFromIsSnake(turn: nat, d: Draft)
    requires InStep(turn, d)
    ensures IsSnakeDraft(turn, d.blue, d.red, d.remaining, PickOrderFrom(turn, d))
    decreases |d.remaining|
  {
    hide DraftTurn;
    if d.remaining != [] && turn < 8 {
      var e := DraftTurn(turn, d);
      TurnKeepsStep(turn, d);
      DraftFromIsSnake(turn + 1, e);
      TurnIsSnake(turn, d, PickOrderFrom(turn, d));
    }
  }

  lemma TurnIsSnake(turn: nat, d: Draft, order: seq<int>)
    requires d.remaining != [] && order != []
    requires var e := DraftTurn(turn, d);
             |e.order| > |d.order| && order[0] == e.order[|d.order|] && IsSnakeDraft(turn + 1, e.blue, e.red, e.remaining, order[1..])
    ensures IsSnakeDraft(turn, d.blue, d.red, d.remaining, order)
  {
    hide NextPick, BestPick;
    var side, other := if BluePicks(turn) then d.blue else d.red, if BluePicks(turn) then d.red else d.blue;
    PickIsBest(side, other, d.remaining);
    assert SnakeTurn(turn, d.blue, d.red, d.remaining, order, NextPick(side, other, d.remaining));
  }

  lemma PickIsBest(side: seq<Player>, other: seq<Player>, remaining: seq<Player>)
    requires remaining != []
    ensures BestPick(side, other, remaining, remaining[NextPick(side, other, remaining)])
  {
    hide PickKey, NoBetterPick;
    MinIndexLeast(remaining, PickOrder(side, other));
    var choice := remaining[NextPick(side, other, remaining)];
    forall p | p in remaining ensures NoBetterPick(side, other, choice, p) {
      var j :| 0 <= j < |remaining| && remaining[j] == p;
      assert LexLeq(PickOrder(side, other)(choice), PickOrder(side, other)(remaining[j]));
      LeastKeyIsBestPick(side, other, choice, p);
    }
  }

  // ---- Who is named captain -----------------------------------------------------

  lemma {:induction false} FirstVolunteerIsLeast(players: seq<Player>, default: int)
    requires forall i, j :: 0 <= i < j < |players| ==> players[i].userId <= players[j].userId
    requires exists p :: p in players && p.captain
    ensures exists v :: v in players && v.captain && v.userId == FirstVolunteer(players, default)
    ensures forall v :: v in players && v.captain ==> FirstVolunteer(players, default) <= v.userId
  {
    if players[0].captain {
      assert players[0] in players;
    } else {
      var rest := players[1..];
      forall p | p in players && p.captain ensures p in rest { assert p in [players[0]] + rest; }
      FirstVolunteerIsLeast(rest, default);
    }
  }

  lemma SortedById(members: seq<Player>)
    ensures var players := SortBy(members, IdKey);
            (forall i, j :: 0 <= i < j < |players| ==> players[i].userId <= players[j].userId) && forall p :: p in players <==> p in members
  {
    var players := SortBy(members, IdKey);
    forall i, j | 0 <= i < j < |players| ensures players[i].userId <= players[j].userId {
      LexSingle(players[i].userId, players[j].userId);
      assert LexLeq(IdKey(players[i]), IdKey(players[j]));
    }
    forall p ensures p in players <==> p in members { assert p in multiset(players) <==> p in multiset(members); }
  }

  /** A chosen volunteer is named captain exactly when their ID is not zero or no
      volunteer of the side has a smaller ID. */
  lemma ChosenIsNamedWhen(members: seq<Player>, chosen: Player)
    requires 1 <= |members| <= 5 && chosen in members && chosen.captain
    ensures BestTeam(members, Some(chosen.userId)).captainId == chosen.userId <==>
              chosen.userId != 0 || forall v :: v in members && v.captain ==> v.userId >= chosen.userId
  {
    hide SortBy, BestRoles, Assign;
    var players := SortBy(members, IdKey);
    SortedById(members);
    FirstVolunteerIsLeast(players, players[0].userId);
  }

  /** With IDs that are not negative, as Discord's are, it always is. */
  lemma ChosenIsNamed(members: seq<Player>, chosen: Player)
    requires 1 <= |members| <= 5 && chosen in members && chosen.captain && forall p :: p in members ==> p.userId >= 0
    ensures BestTeam(members, Some(chosen.userId)).captainId == chosen.userId
  {
    hide BestTeam;
    ChosenIsNamedWhen(members, chosen);
  }

  /** The volunteer with ID 0 beside one with ID -1: the other is named. */
  lemma ZeroIsPassedOver(zero: Player, below: Player)
    requires zero.userId == 0 && zero.captain && below.userId == -1 && below.captain
    ensures BestTeam([zero, below], Some(0)).captainId == -1
  {
    var members := [zero, below];
    hide SortBy, BestRoles, Assign;
    var players := SortBy(members, IdKey);
    SortedById(members);
    assert below in members;
    FirstVolunteerIsLeast(players, players[0].userId);
  }

  /** The volunteers of a side, known by the IDs seated on it. */
  ghost predicate NoSmallerVolunteer(roster: seq<Player>, side: seq<RoleAssignment>, chosen: Player) {
    forall v :: v in roster && v.captain && v.userId in AssignedIds(side) ==> v.userId >= chosen.userId
  }

  lemma NamedOnSide(roster: seq<Player>, side: seq<Player>, chosen: Player)
    requires Ascending(roster) && 1 <= |side| <= 5 && (forall p :: p in side ==> p in roster) && side[0] == chosen && chosen.captain
    ensures var team := BestTeam(side, Some(chosen.userId));
            team.captainId == chosen.userId <==> chosen.userId != 0 || NoSmallerVolunteer(roster, team.assignments, chosen)
  {
    FirstIsSeated(roster, side);
    assert chosen in side;
    ChosenIsNamedWhen(side, chosen);
    var team := BestTeam(side, Some(chosen.userId));
    hide BestTeam;
    forall v | v in roster ensures v in side <==> v.userId in AssignedIds(team.assignments) {
      assert v.userId in multiset(AssignedIds(team.assignments)) <==> v.userId in multiset(UserIds(side));
      if v in side {
        var i :| 0 <= i < |side| && side[i] == v;
        assert UserIds(side)[i] == v.userId;
      }
      if v.userId in UserIds(side) {
        var i :| 0 <= i < |side| && UserIds(side)[i] == v.userId;
        assert side[i] in roster;
        SameIdSamePlayer(roster, side[i], v);
      }
    }
  }

  lemma SameIdSamePlayer(roster: seq<Player>, p: Player, q: Player)
    requires Ascending(roster) && p in roster && q in roster && p.userId == q.userId
    ensures p == q
  {
    var i :| 0 <= i < |roster| && roster[i] == p;
    var j :| 0 <= j < |roster| && roster[j] == q;
  }

  lemma CaptainsNamed(roster: seq<Player>, end: Draft, first: Player, second: Player)
    requires Ascending(roster) && multiset(end.blue) + multiset(end.red) == multiset(roster) && |end.blue| == |end.red|
    requires 1 <= |end.blue| <= 5 && end.blue[0] == first && end.red[0] == second && first.captain && second.captain
    ensures var r := ResultOf(Captains, BestTeam(end.blue, Some(first.userId)), BestTeam(end.red, Some(second.userId)), end.order);
            && (r.blue.captainId == first.userId <==> first.userId != 0 || NoSmallerVolunteer(roster, r.blue.assignments, first))
            && (r.red.captainId == second.userId <==> second.userId != 0 || NoSmallerVolunteer(roster, r.red.assignments, second))
  {
    TwoSidesIds(roster, end.blue, end.red);
    NamedOnSide(roster, end.blue, first);
    NamedOnSide(roster, end.red, second);
  }

  /** Captain mode: the strongest volunteer leads blue, the second strongest red,
      and everyone else is drafted in snake order. A captain is named by their own
      side, unless the ID is zero and the side has a volunteer with a smaller one. */
  lemma CaptainDraftIsSnake(roster: seq<Player>) returns (first: Player, second: Player)
    requires ValidRoster(roster) && |Volunteers(roster)| >= 2
    ensures CaptainDraft(roster).Ok?
    ensures first in roster && first.captain && second in roster && second.captain && first != second
    ensures Outranks(first, second)
    ensures forall v :: v in roster && v.captain && v != first && v != second ==> Outranks(second, v)
    ensures var r := CaptainDraft(roster).value;
            && first.userId in AssignedIds(r.blue.assignments) && second.userId in AssignedIds(r.red.assignments)
            && (r.blue.captainId == first.userId <==> first.userId != 0 || NoSmallerVolunteer(roster, r.blue.assignments, first))
            && (r.red.captainId == second.userId <==> second.userId != 0 || NoSmallerVolunteer(roster, r.red.assignments, second))
            && ((forall p :: p in roster ==> p.userId >= 0) ==> r.blue.captainId == first.userId && r.red.captainId == second.userId)
            && IsSnakeDraft(0, [first], [second], Without(roster, [first, second]), r.draftOrder)
            && SeatsEveryone(roster, r)
  {
    var d := OpeningDraft(roster);
    first, second := d.blue[0], d.red[0];
    StrongestVolunteers(roster);
    assert [first, second] == SortBy(Volunteers(roster), CaptainKey)[..2];
    assert d == Draft([first], [second], Without(roster, [first, second]), []);
    DraftIsFair(roster);
    OpeningIsFair(roster);
    OpeningInStep(roster, d);
    DraftFromIsSnake(0, d);
    DraftOrderGrows(0, d);
    var end := DraftFrom(0, d);
    assert end.order == PickOrderFrom(0, d);
    CaptainsStay(0, d);
    CaptainsSeat(roster, end, first, second);
    CaptainsNamed(roster, end, first, second);
  }

  lemma OpeningInStep(roster: seq<Player>, d: Draft)
    requires 2 <= |roster| <= 10 && |roster| % 2 == 0
    requires |d.remaining| == |roster| - 2 && |d.blue| == |d.red|
    ensures InStep(0, d)
  {
  }

  lemma {:induction false} CaptainsStay(turn: nat, d: Draft)
    requires d.blue != [] && d.red != []
    ensures var end := DraftFrom(turn, d);
            end.blue != [] && end.red != [] && end.blue[0] == d.blue[0] && end.red[0] == d.red[0]
    decreases |d.remaining|
  {
    hide NextPick;
    if d.remaining != [] && turn < 8 { CaptainsStay(turn + 1, DraftTurn(turn, d)); }
  }

  lemma TwoSidesIds(roster: seq<Player>, blue: seq<Player>, red: seq<Player>)
    requires multiset(blue) + multiset(red) == multiset(roster)
    ensures multiset(UserIds(blue)) + multiset(UserIds(red)) == multiset(UserIds(roster))
    ensures forall p :: p in blue || p in red ==> p in roster
  {
    assert multiset(blue + red) == multiset(roster);
    SameIds(blue + red, roster);
    assert UserIds(blue + red) == UserIds(blue) + UserIds(red);
    forall p | p in blue || p in red ensures p in roster {
      assert p in multiset(blue + red);
      assert p in multiset(roster);
    }
  }

  lemma FirstIsSeated(roster: seq<Player>, side: seq<Player>)
    requires 1 <= |side| <= 5 && forall p :: p in side ==> p in roster
    ensures var team := BestTeam(side, Some(side[0].userId));
            && side[0].userId in AssignedIds(team.assignments) && TeamOf(roster, team)
            && |team.assignments| == |side|
            && multiset(AssignedIds(team.assignments)) == multiset(UserIds(side))
  {
    assert UserIds(side)[0] == side[0].userId;
    BestTeamSeats(roster, side, Some(side[0].userId));
    assert side[0].userId in multiset(UserIds(side));
  }

  lemma CaptainsSeat(roster: seq<Player>, end: Draft, first: Player, second: Player)
    requires multiset(end.blue) + multiset(end.red) == multiset(roster) && |end.blue| == |end.red|
    requires 1 <= |end.blue| <= 5 && end.blue[0] == first && end.red[0] == second
    ensures var r := ResultOf(Captains, BestTeam(end.blue, Some(first.userId)), BestTeam(end.red, Some(second.userId)), end.order);
            && SeatsEveryone(roster, r)
            && first.userId in AssignedIds(r.blue.assignments) && second.userId in AssignedIds(r.red.assignments)
  {
    TwoSidesIds(roster, end.blue, end.red);
    FirstIsSeated(roster, end.blue);
    FirstIsSeated(roster, end.red);
  }

  // ---- Every mode -------------------------------------------------------------

  function Repeats(players: seq<Player>): bool {
    |PlayerIds(players)| != |players|
  }

  lemma SameIdSet(a: seq<Player>, b: seq<Player>)
    requires multiset(a) == multiset(b)
    ensures PlayerIds(a) == PlayerIds(b) && |a| == |b|
  {
    assert |multiset(a)| == |multiset(b)|;
    IdsFromMultiset(a, b);
    IdsFromMultiset(b, a);
  }

  lemma IdsFromMultiset(a: seq<Player>, b: seq<Player>)
    requires multiset(a) == multiset(b)
    ensures PlayerIds(a) <= PlayerIds(b)
  {
    forall id | id in PlayerIds(a) ensures id in PlayerIds(b) {
      var i := IdSource(a, id);
      assert a[i] in multiset(b);
    }
  }

  lemma {:induction false} VolunteerIds(roster: seq<Player>)
    requires Ascending(roster)
    ensures |CaptainIds(roster)| == |Volunteers(roster)|
  {
    var v := Volunteers(roster);
    VolunteersAscend(roster);
    RosterIds(v);
    forall id ensures id in PlayerIds(v) <==> id in CaptainIds(roster) {
      if id in PlayerIds(v) { var i := IdSource(v, id); assert v[i] in v; }
    }
    assert PlayerIds(v) == CaptainIds(roster);
  }

  lemma VolunteersAscend(roster: seq<Player>)
    requires Ascending(roster)
    ensures Ascending(Volunteers(roster))
  {
    if roster != [] {
      VolunteersAscend(roster[1..]);
      var rest := Volunteers(roster[1..]);
      forall p | p in rest ensures roster[0].userId < p.userId {
        var i :| 0 <= i < |roster| - 1 && roster[i + 1] == p;
      }
    }
  }

  lemma RosterFormsWhen(roster: seq<Player>, mode: Mode)
    requires Sorted(roster, IdKey)
    ensures FormRoster(roster, mode).Ok? <==>
              && 2 <= |roster| <= 10 && |roster| % 2 == 0
              && !Repeats(roster)
              && (mode == Captains ==> |CaptainIds(roster)| >= 2)
  {
    if 2 <= |roster| <= 10 && |roster| % 2 == 0 && !Repeats(roster) {
      SortedDistinctAscends(roster);
      VolunteerIds(roster);
      if mode == Captains { assert FormRoster(roster, mode) == CaptainDraft(roster); }
    }
  }

  /** What is reported when formation fails. */
  function Failure(players: seq<Player>): FormationError {
    if |players| % 2 != 0 then OddRoster
    else if players == [] || |players| > 10 then RosterSize
    else if Repeats(players) then DuplicateIds
    else TooFewCaptains
  }

  /** Formation fails exactly on odd, empty or oversized rosters, on a repeated
      player, and in captain mode without two volunteers. */
  lemma FormationFailsWhen(players: seq<Player>, mode: Mode)
    ensures FormSmiteTeams(players, mode).Ok? <==>
              && 2 <= |players| <= 10 && |players| % 2 == 0
              && !Repeats(players)
              && (mode == Captains ==> |CaptainIds(players)| >= 2)
    ensures FormSmiteTeams(players, mode).Err? ==> FormSmiteTeams(players, mode).error == Failure(players)
  {
    var roster := SortBy(players, IdKey);
    SameIdSet(roster, players);
    SameCaptains(roster, players);
    RosterFormsWhen(roster, mode);
  }

  lemma SortedSame(p: seq<Player>, q: seq<Player>)
    requires multiset(p) == multiset(q) && !Repeats(p)
    ensures SortBy(p, IdKey) == SortBy(q, IdKey)
  {
    var a, b := SortBy(p, IdKey), SortBy(q, IdKey);
    SameIdSet(a, p);
    SortedDistinctAscends(a);
    SortedById(a);
    SortedUnique(a, b, IdKey);
  }

  lemma RepeatsFail(a: seq<Player>, b: seq<Player>, mode: Mode)
    requires |a| == |b| && Repeats(a) && Repeats(b) && Sorted(a, IdKey) && Sorted(b, IdKey)
    ensures FormRoster(a, mode) == FormRoster(b, mode)
  {
  }

  /** The order in which the players are handed in never matters, in any mode,
      not even to which error is raised. */
  lemma InputOrderDoesNotMatter(p: seq<Player>, q: seq<Player>, mode: Mode)
    requires multiset(p) == multiset(q)
    ensures FormSmiteTeams(p, mode) == FormSmiteTeams(q, mode)
  {
    if Repeats(p) {
      SameIdSet(SortBy(p, IdKey), p);
      SameIdSet(SortBy(q, IdKey), q);
      SameIdSet(p, q);
      RepeatsFail(SortBy(p, IdKey), SortBy(q, IdKey), mode);
    } else {
      SortedSame(p, q);
    }
  }

  lemma FormationSeatsEveryone(players: seq<Player>, mode: Mode)
    requires FormSmiteTeams(players, mode).Ok?
    ensures SeatsEveryone(players, FormSmiteTeams(players, mode).value)
  {
    var roster := SortBy(players, IdKey);
    SortedDistinctAscends(roster);
    var r := FormSmiteTeams(players, mode).value;
    if mode == Captains { var _, _ := CaptainDraftIsSnake(roster); } else { SplitSeatsEveryone(roster, mode); }
    SameIds(roster, players);
    forall p | p in roster ensures p in players { assert p in multiset(players); }
    assert TeamOf(players, r.blue) && TeamOf(players, r.red);
  }

  /** The two modes that optimise return a match no equal split with any
      different roles on either team can beat. */
  lemma FormationIsGloballyOptimal(players: seq<Player>, mode: Mode, blueIds: set<int>, blueRoles: seq<Role>, redRoles: seq<Role>)
    requires mode != Captains && FormSmiteTeams(players, mode).Ok?
    requires blueIds <= PlayerIds(players) && 2 * |blueIds| == |players|
    requires IsRoleChoice(blueRoles, |blueIds|) && IsRoleChoice(redRoles, |blueIds|)
    ensures var r := FormSmiteTeams(players, mode).value;
            var roster := SortBy(players, IdKey);
            LexLeq(MatchKey(players, r.blue.assignments, r.red.assignments),
                   MatchKey(players,
                            Assign(Members(roster, blueIds), blueRoles),
                            Assign(Members(roster, PlayerIds(players) - blueIds), redRoles)))
  {
    var roster := SortBy(players, IdKey);
    SortedDistinctAscends(roster);
    SameIdSet(roster, players);
    OptimizedSplitIsGloballyOptimal(roster, mode, blueIds, blueRoles, redRoles);
    SameCaptains(roster, players);
  }

  lemma SameCaptains(a: seq<Player>, b: seq<Player>)
    requires multiset(a) == multiset(b)
    ensures CaptainIds(a) == CaptainIds(b)
  {
    forall p ensures p in a <==> p in b { assert p in multiset(a) <==> p in multiset(b); }
  }

  // ---- The counts reported -----------------------------------------------------

  lemma {:induction false} PreferencesCoverTeam(a: seq<RoleAssignment>)
    ensures CountPreference(a, First) + CountPreference(a, Second) + CountPreference(a, Fill) == |a|
  {
    if a != [] { PreferencesCoverTeam(a[1..]); }
  }

  lemma ResultCounts(mode: Mode, blue: FormedTeam, red: FormedTeam, order: seq<int>)
    ensures var r := ResultOf(mode, blue, red, order);
            var everyone := blue.assignments + red.assignments;
            && r.firstChoices == CountPreference(everyone, First)
            && r.secondChoices == 0 - CountPreference(everyone, Second)
            && r.fills == CountPreference(everyone, Fill)
            && r.firstChoices - r.secondChoices + r.fills == |everyone|
  {
    var a, b := blue.assignments, red.assignments;
    CountSplits(a, b, First);
    CountSplits(a, b, Second);
    CountSplits(a, b, Fill);
    PreferencesCoverTeam(a);
    PreferencesCoverTeam(b);
  }

  /** The first choices and fills are reported as they are; the second choices
      with the opposite sign. With that sign turned the three add up to the players. */
  lemma ReportedCounts(players: seq<Player>, mode: Mode)
    requires FormSmiteTeams(players, mode).Ok?
    ensures var r := FormSmiteTeams(players, mode).value;
            var everyone := r.blue.assignments + r.red.assignments;
            && r.firstChoices == CountPreference(everyone, First)
            && r.secondChoices == 0 - CountPreference(everyone, Second)
            && r.fills == CountPreference(everyone, Fill)
            && r.firstChoices - r.secondChoices + r.fills == |players|
  {
    var r := FormSmiteTeams(players, mode).value;
    ResultCounts(mode, r.blue, r.red, r.draftOrder);
    assert r == ResultOf(mode, r.blue, r.red, r.draftOrder);
    FormationSeatsEveryone(players, mode);
    assert |multiset(AssignedIds(r.blue.assignments)) + multiset(AssignedIds(r.red.assignments))| == |multiset(UserIds(players))|;
  }

  lemma {:induction false} CountSplits(a: seq<RoleAssignment>, b: seq<RoleAssignment>, p: Preference)
    ensures CountPreference(a + b, p) == CountPreference(a, p) + CountPreference(b, p)
  {
    if a == [] { assert a + b == b; }
    else {
      assert (a + b)[1..] == a[1..] + b;
      CountSplits(a[1..], b, p);
    }
  }
}
