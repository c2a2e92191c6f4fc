/** The loops of utils/team_formation.py, proved to compute the functions of TeamFormation. */
module TeamFormationLoops {
  import opened Common
  import opened TeamFormation

  /** The loop over all permutations, with `min` of the candidates. */
  method LeastRoles(players: seq<Player>) returns (roles: seq<Role>)
    requires 1 <= |players| <= 5
    ensures roles == BestRoles(players)
  {
    var all := Permutations(SMITE_ROLES, |players|);
    PermutationsExist(SMITE_ROLES, |players|);
    var best := LeastCandidate(all, AssignmentOrder(players));
    roles := all[best];
  }

  method LeastCandidate<T>(candidates: seq<T>, key: T -> seq<int>) returns (best: nat)
    requires candidates != []
    ensures best < |candidates| && best == MinIndex(candidates, key)
  {
    best := 0;
    for i := 1 to |candidates|
      invariant best < i && best == MinIndex(candidates[..i], key)
    {
      assert candidates[..i + 1][..i] == candidates[..i];
      if LexLess(key(candidates[i]), key(candidates[best])) { best := i; }
    }
    assert candidates[..|candidates|] == candidates;
  }

  method FindVolunteer(players: seq<Player>) returns (captain: int)
    requires players != []
    ensures captain == DefaultCaptain(players)
  {
    var i := 0;
    while i < |players| && !players[i].captain
      invariant i <= |players|
      invariant FirstVolunteer(players[i..], players[0].userId) == DefaultCaptain(players)
    {
      i := i + 1;
    }
    captain := if i < |players| then players[i].userId else players[0].userId;
  }

  method BestRoleAssignment(members: seq<Player>, captainId: Option<int>) returns (team: FormedTeam)
    requires 1 <= |members| <= 5
    ensures team == BestTeam(members, captainId)
  {
    var players := SortBy(members, IdKey);
    var roles := LeastRoles(players);
    var captain: int;
    if captainId.Some? && captainId.value != 0 {
      captain := captainId.value;
    } else {
      captain := FindVolunteer(players);
    }
    team := FormedTeam(captain, Assign(players, roles));
  }

  /** The dictionary holds the best team of each of these halves. */
  ghost predicate Tabled(halves: seq<seq<Player>>, table: map<set<int>, FormedTeam>) {
    forall h :: h in halves ==> Entered(h, table)
  }

  ghost predicate Entered(half: seq<Player>, table: map<set<int>, FormedTeam>) {
    1 <= |half| <= 5 && PlayerIds(half) in table && table[PlayerIds(half)] == BestTeam(half, None)
  }

  method TabulateTeams(roster: seq<Player>) returns (table: map<set<int>, FormedTeam>)
    requires ValidRoster(roster)
    ensures Tabled(Halves(roster), table)
  {
    var halves := Halves(roster);
    table := map[];
    for i := 0 to |halves|
      invariant Tabled(halves[..i], table)
    {
      assert halves[..i + 1] == halves[..i] + [halves[i]];
      table := EnterHalf(roster, halves[..i], halves[i], table);
    }
    assert halves[..|halves|] == halves;
  }

  method EnterHalf(roster: seq<Player>, ghost done: seq<seq<Player>>, half: seq<Player>, table: map<set<int>, FormedTeam>)
    returns (grown: map<set<int>, FormedTeam>)
    requires ValidRoster(roster) && half in Halves(roster) && forall h :: h in done ==> h in Halves(roster)
    requires Tabled(done, table)
    ensures Tabled(done + [half], grown)
  {
    hide BestTeam, Combinations, PlayerIds, Halves, ValidRoster, Tabled;
    HalvesSplit(roster, half);
    var team := BestRoleAssignment(half, None);
    grown := table[PlayerIds(half) := team];
    TableGrows(roster, done, half, table, team);
  }

  lemma TableGrows(roster: seq<Player>, done: seq<seq<Player>>, half: seq<Player>, table: map<set<int>, FormedTeam>, team: FormedTeam)
    requires ValidRoster(roster) && half in Halves(roster) && forall h :: h in done ==> h in Halves(roster)
    requires Tabled(done, table) && Entered(half, table[PlayerIds(half) := team])
    ensures Tabled(done + [half], table[PlayerIds(half) := team])
  {
    hide BestTeam, Combinations, PlayerIds, Members, ValidRoster, Entered, Halves;
    forall h | h in done ensures Entered(h, table[PlayerIds(half) := team]) {
      if PlayerIds(h) == PlayerIds(half) {
        SameIdsSameHalf(roster, h, half);
      } else {
        StillEntered(h, table, PlayerIds(half), team);
      }
    }
  }

  lemma StillEntered(half: seq<Player>, table: map<set<int>, FormedTeam>, ids: set<int>, team: FormedTeam)
    requires Entered(half, table) && PlayerIds(half) != ids
    ensures Entered(half, table[ids := team])
  {
  }

  lemma SameIdsSameHalf(roster: seq<Player>, g: seq<Player>, h: seq<Player>)
    requires ValidRoster(roster) && g in Halves(roster) && h in Halves(roster) && PlayerIds(g) == PlayerIds(h)
    ensures g == h
  {
    hide Combinations, PlayerIds, Members, Halves;
    HalvesSplit(roster, g);
    HalvesSplit(roster, h);
  }

  method ListSplits(roster: seq<Player>, table: map<set<int>, FormedTeam>) returns (candidates: seq<(FormedTeam, FormedTeam)>)
    requires ValidRoster(roster) && Tabled(Halves(roster), table)
    ensures candidates == CandidatesFrom(roster, Halves(roster))
  {
    hide SplitOf, Combinations, PlayerIds, Tabled, Ascending;
    var halves := Halves(roster);
    candidates := [];
    for i := 0 to |halves|
      invariant forall h :: h in halves[..i] ==> h in halves
      invariant candidates == CandidatesFrom(roster, halves[..i])
    {
      assert halves[..i + 1][..i] == halves[..i];
      var blueIds := PlayerIds(halves[i]);
      if roster[0].userId in blueIds {
        LookUp(roster, table, halves[i]);
        candidates := candidates + [(table[blueIds], table[PlayerIds(roster) - blueIds])];
      }
    }
    assert halves[..|halves|] == halves;
  }

  lemma LookUp(roster: seq<Player>, table: map<set<int>, FormedTeam>, half: seq<Player>)
    requires ValidRoster(roster) && Tabled(Halves(roster), table) && half in Halves(roster)
    ensures PlayerIds(half) in table && PlayerIds(roster) - PlayerIds(half) in table
    ensures SplitOf(roster, half) == (table[PlayerIds(half)], table[PlayerIds(roster) - PlayerIds(half)])
  {
    hide BestTeam, Combinations, PlayerIds, Members, Ascending, Halves;
    HalvesSplit(roster, half);
    var rest := Members(roster, PlayerIds(roster) - PlayerIds(half));
    assert Entered(half, table) && Entered(rest, table);
  }

  /** _optimized_split: fill the table of best teams, then compare the splits
      whose blue half holds the smallest ID. */
  method OptimizeSplit(roster: seq<Player>, mode: Mode) returns (r: FormationResult)
    requires ValidRoster(roster)
    ensures r == OptimizedSplit(roster, mode)
  {
    var assignments := TabulateTeams(roster);
    var candidates := ListSplits(roster, assignments);
    CandidatesExist(roster);
    var best := LeastCandidate(candidates, CandidateOrder(roster));
    r := ResultOf(mode, candidates[best].0, candidates[best].1, []);
  }

  /** One turn: the side to pick appends its choice, which leaves the waiting list. */
  method TakeTurn(turn: nat, blue: seq<Player>, red: seq<Player>, remaining: seq<Player>, order: seq<int>)
    returns (blue': seq<Player>, red': seq<Player>, remaining': seq<Player>, order': seq<int>)
    requires remaining != []
    ensures Draft(blue', red', remaining', order') == DraftTurn(turn, Draft(blue, red, remaining, order))
  {
    var side, other := if BluePicks(turn) then blue else red, if BluePicks(turn) then red else blue;
    var i := LeastCandidate(remaining, PickOrder(side, other));
    blue', red' := blue, red;
    if BluePicks(turn) { blue' := blue + [remaining[i]]; } else { red' := red + [remaining[i]]; }
    remaining' := remaining[..i] + remaining[i + 1..];
    order' := order + [remaining[i].userId];
  }

  /** The snake loop of _captain_draft: the lists of both sides and of those
      remaining change turn by turn. */
  method RunSnake(first: Player, second: Player, waiting: seq<Player>) returns (end: Draft)
    ensures end == DraftFrom(0, Draft([first], [second], waiting, []))
  {
    hide DraftTurn;
    var blue, red, remaining, order := [first], [second], waiting, [];
    var turn := 0;
    while turn < 8 && remaining != []
      invariant turn <= 8
      invariant DraftFrom(turn, Draft(blue, red, remaining, order)) == DraftFrom(0, Draft([first], [second], waiting, []))
    {
      blue, red, remaining, order := TakeTurn(turn, blue, red, remaining, order);
      turn := turn + 1;
    }
    end := Draft(blue, red, remaining, order);
  }

  method DraftCaptains(roster: seq<Player>) returns (r: Result<FormationResult, FormationError>)
    requires ValidRoster(roster)
    ensures r == CaptainDraft(roster)
  {
    var eligible := Volunteers(roster);
    if |eligible| < 2 { return Err(TooFewCaptains); }
    var captains := SortBy(eligible, CaptainKey)[..2];
    var end := RunSnake(captains[0], captains[1], Without(roster, captains));
    DraftIsFair(roster);
    assert end == DraftFrom(0, OpeningDraft(roster));
    var blueTeam := BestRoleAssignment(end.blue, Some(captains[0].userId));
    var redTeam := BestRoleAssignment(end.red, Some(captains[1].userId));
    r := Ok(ResultOf(Captains, blueTeam, redTeam, end.order));
  }

  method FormTeams(players: seq<Player>, mode: Mode) returns (r: Result<FormationResult, FormationError>)
    ensures r == FormSmiteTeams(players, mode)
  {
    var roster := SortBy(players, IdKey);
    if |roster| % 2 != 0 { return Err(OddRoster); }
    if |roster| < 2 || |roster| > 10 { return Err(RosterSize); }
    if |PlayerIds(roster)| != |roster| { return Err(DuplicateIds); }
    SortedDistinctAscends(roster);
    if mode == Captains {
      r := DraftCaptains(roster);
    } else {
      var split := OptimizeSplit(roster, mode);
      r := Ok(split);
    }
  }
}
