/** What a continuity decision says: when it waits, is refused or is ready, and the
    seats, roles and captains of the teams it names. */
module MatchDecisions {
  import opened Common
  import opened MatchRecords
  import opened MatchContinuity
  import opened MatchTeamsTheorems
  import PQ = PartyQueue
  import TF = TeamFormation
  import TFT = TeamFormationTheorems
  import TFQ = TeamFormationQuality
  import TFN = TeamFormationTies

  // ---- Seats ------------------------------------------------------------------------------

  predicate PlaysAs(players: seq<MatchPlayer>, id: int, role: string) { exists p :: p in players && p.userId == id && p.role == role }

  /** Two teams that share nobody and name nobody twice. */
  ghost predicate Apart(one: MatchTeam, two: MatchTeam) {
    && Distinct(PlayerIds(one.players)) && Distinct(PlayerIds(two.players))
    && forall id :: !(HasId(one.players, id) && HasId(two.players, id))
  }

  /** Where a player of two teams sits: team one or two, and the role there. */
  ghost predicate Sits(one: MatchTeam, two: MatchTeam, id: int, team: Option<int>, role: string) {
    if HasId(one.players, id) then team == Some(1) && PlaysAs(one.players, id, role)
    else if HasId(two.players, id) then team == Some(2) && PlaysAs(two.players, id, role)
    else team == None && role == ""
  }

  lemma {:induction false} SeatAllIs(players: seq<MatchPlayer>, team: int, seats: Seats, id: int)
    requires Distinct(PlayerIds(players))
    ensures var r := SeatAll(players, team, seats);
            if HasId(players, id) then id in r && r[id].0 == team && PlaysAs(players, id, r[id].1) else AgreeAt(r, seats, id)
    decreases |players|
  {
    hide Distinct;
    if players != [] {
      var p, rest := players[0], players[1..];
      PlayerIdsCons(p, rest);
      assert players == [p] + rest;
      TailDistinct(PlayerIds(players));
      SeatAllIs(rest, team, seats[p.userId := (team, p.role)], id);
    }
  }

  lemma SeatsAre(one: MatchTeam, two: MatchTeam, id: int)
    requires Apart(one, two)
    ensures var seats := SeatsOf(one, two); Sits(one, two, id, TeamAt(seats, id), RoleAt(seats, id))
  {
    SeatAllIs(one.players, 1, map[], id);
    SeatAllIs(two.players, 2, SeatAll(one.players, 1, map[]), id);
  }

  /** A change tells where its player sat and where they sit, and that differs. */
  ghost predicate Tells(c: AssignmentChange, one: MatchTeam, two: MatchTeam, nextOne: MatchTeam, nextTwo: MatchTeam) {
    && Sits(one, two, c.userId, c.previousTeam, c.previousRole) && Sits(nextOne, nextTwo, c.userId, c.nextTeam, c.nextRole)
    && (c.previousTeam != c.nextTeam || c.previousRole != c.nextRole)
  }

  lemma {:induction false} ChangesForTell(ids: seq<int>, before: Seats, after: Seats, c: AssignmentChange)
    requires c in ChangesFor(ids, before, after)
    ensures c == AssignmentChange(c.userId, TeamAt(before, c.userId), TeamAt(after, c.userId), RoleAt(before, c.userId), RoleAt(after, c.userId))
    ensures c.previousTeam != c.nextTeam || c.previousRole != c.nextRole
    decreases |ids|
  {
    if ids != [] {
      var id, rest := ids[0], ChangesFor(ids[1..], before, after);
      var same := (id in before) == (id in after) && (id in before ==> before[id] == after[id]);
      if c in rest { ChangesForTell(ids[1..], before, after, c); }
    }
  }

  /** Every change of a decision tells the seats before and after it. */
  lemma ChangesTell(one: MatchTeam, two: MatchTeam, nextOne: MatchTeam, nextTwo: MatchTeam, c: AssignmentChange)
    requires Apart(one, two) && Apart(nextOne, nextTwo) && c in Changes(SeatsOf(one, two), SeatsOf(nextOne, nextTwo))
    ensures Tells(c, one, two, nextOne, nextTwo)
  {
    var before, after := SeatsOf(one, two), SeatsOf(nextOne, nextTwo);
    ChangesForTell(InOrder(before.Keys + after.Keys), before, after, c);
    hide Apart, SeatsOf, TeamAt, RoleAt;
    SeatsAre(one, two, c.userId);
    SeatsAre(nextOne, nextTwo, c.userId);
  }

  lemma {:induction false} VacatedTells(ids: seq<int>, before: Seats, c: AssignmentChange)
    requires (forall id :: id in ids ==> id in before) && c in Vacated(ids, before)
    ensures c.userId in ids && c == AssignmentChange(c.userId, TeamAt(before, c.userId), None, RoleAt(before, c.userId), "")
    decreases |ids|
  {
    if ids != [] {
      var id, rest := ids[0], ids[1..];
      assert id in ids && ids == [id] + rest;
      if c in Vacated(rest, before) { VacatedTells(rest, before, c); }
    }
  }

  // ---- The decision -----------------------------------------------------------------------

  predicate HadASeat(record: MatchRecord, id: int) { HasId(record.teamOne.players, id) || HasId(record.teamTwo.players, id) }

  /** A score, or a draft reference that begins with "series:" in either case. */
  predicate InASeries(record: MatchRecord) {
    || record.score.Some?
    || (record.draftReference.Some? && |record.draftReference.value| >= 7
        && forall i :: 0 <= i < 7 ==> record.draftReference.value[i] in {"series:"[i], "SERIES:"[i]})
  }

  lemma SeriesContextIs(record: MatchRecord)
    ensures HasSeriesContext(record) <==> InASeries(record)
  {
    if record.draftReference.Some? && |record.draftReference.value| >= 7 {
      var text := record.draftReference.value;
      forall i | 0 <= i < 7 ensures Lower(text[i]) == "series:"[i] <==> text[i] in {"series:"[i], "SERIES:"[i]} { }
    }
  }

  lemma RecordIsApart(record: MatchRecord)
    requires ValidRecord(record)
    ensures Apart(record.teamOne, record.teamTwo)
  {
    ParticipantsDistinct(record);
  }

  /** A decision, by the size of the next roster: a return to the queue names no
      teams; a short roster waits, unless a departure is of nobody in the match; a
      full one is refused a series it has not, or is what the teams make of it. */
  lemma DecidesWhen(record: MatchRecord, lobbyId: string, queue: PQ.Queue, action: ContinuityAction, departures: set<int>, roster: seq<MatchPlayer>)
    requires ValidRecord(record) && NextRoster(record, queue, departures) == Ok(roster)
    ensures var r := BuildResult(record, lobbyId, queue, action, departures);
            if action == ReturnToQueue then r.Ok? && r.value.status == Queued && r.value.teamOne == None && r.value.teamTwo == None && r.value.next == None
                                            && r.value.changes == [] && r.value.promoted == []
            else if |roster| < 10 then
              if forall id :: id in departures ==> HadASeat(record, id)
              then r.Ok? && r.value.status == AwaitingSubstitutes && r.value.teamOne == None && r.value.teamTwo == None && r.value.next == None
              else r == Err(UnknownDeparture)
            else if action == ContinueSeries && !InASeries(record) then r == Err(NoSeries)
            else match Teams(record, roster, action == ShuffleTeams)
                 case Err(e) => r == Err(e)
                 case Ok((one, two)) => r.Ok? && r.value.status == Ready && r.value.teamOne == Some(one) && r.value.teamTwo == Some(two)
                                        && r.value.next == Some(Continued(record.guildId, record.matchId, action))
  {
    hide NextRoster, Teams, Changes, HasSeriesContext, InASeries, ValidRecord, InOrder, Apart, SeatsOf;
    SeriesContextIs(record);
    RecordIsApart(record);
    forall id ensures id in SeatsOf(record.teamOne, record.teamTwo) <==> HadASeat(record, id) { SeatedWhen(record.teamOne, record.teamTwo, id); }
    InOrderIs(departures);
  }

  lemma SeatedWhen(one: MatchTeam, two: MatchTeam, id: int)
    requires Apart(one, two)
    ensures id in SeatsOf(one, two) <==> HasId(one.players, id) || HasId(two.players, id)
  {
    hide Apart, SeatsOf, PlaysAs, HasId;
    SeatsAre(one, two, id);
  }

  /** What a waiting decision says of each departure: the seat it leaves, and no
      seat in its place. */
  lemma WaitingTells(record: MatchRecord, lobbyId: string, queue: PQ.Queue, action: ContinuityAction, departures: set<int>, c: AssignmentChange)
    requires ValidRecord(record) && BuildResult(record, lobbyId, queue, action, departures).Ok?
    requires BuildResult(record, lobbyId, queue, action, departures).value.status == AwaitingSubstitutes
    requires c in BuildResult(record, lobbyId, queue, action, departures).value.changes
    ensures c.userId in departures && c.nextTeam == None && c.nextRole == ""
    ensures Sits(record.teamOne, record.teamTwo, c.userId, c.previousTeam, c.previousRole)
  {
    hide NextRoster, SeatsOf, InOrder, Teams, ValidRecord, Sits;
    InOrderIs(departures);
    var before := SeatsOf(record.teamOne, record.teamTwo);
    var changes := BuildResult(record, lobbyId, queue, action, departures).value.changes;
    assert forall id :: id in departures ==> id in before;
    assert changes == Vacated(InOrder(departures), before);
    VacatedTells(InOrder(departures), before, c);
    RecordIsApart(record);
    SeatsAre(record.teamOne, record.teamTwo, c.userId);
  }

  // ---- The same sides ---------------------------------------------------------------------

  /** The sides of a continuation are Blue and Red in the places of the old teams;
      everybody keeps the role of the roster; a side whose captain departed is led
      by its first player. */
  lemma SidesAreNamed(record: MatchRecord, roster: seq<MatchPlayer>)
    requires FiveOnFive(record) && Distinct(PlayerIds(roster)) && |roster| == 10
    ensures Teams(record, roster, false).Ok?
    ensures var (one, two) := Teams(record, roster, false).value;
            && one.name == "Blue" && two.name == "Red" && |one.players| == 5 && |two.players| == 5
            && (forall p :: p in one.players || p in two.players ==> p in roster)
            && (!HasId(roster, record.teamOne.captainId) ==> one.captainId == one.players[0].userId)
            && (!HasId(roster, record.teamTwo.captainId) ==> two.captainId == two.players[0].userId)
  {
    var (a, b) := SameSides(record, roster);
    SidesHold(record, roster);
    SidesOfFive(record, roster);
    RostersRows(record, roster);
    hide SameSides, Distinct, FiveOnFive, HasId;
    NamedSide("Blue", record.teamOne.captainId, a);
    NamedSide("Red", record.teamTwo.captainId, b);
  }

  lemma NamedSide(name: string, captainId: int, players: seq<MatchPlayer>)
    requires name != "" && players != [] && Distinct(PlayerIds(players))
    ensures Captained(name, captainId, players).Ok?
    ensures var t := Captained(name, captainId, players).value;
            t.name == name && t.players == players && (!HasId(players, captainId) ==> t.captainId == players[0].userId)
  {
    CaptainedIs(name, captainId, players);
  }

  lemma SidesOfFive(record: MatchRecord, roster: seq<MatchPlayer>)
    requires FiveOnFive(record) && Distinct(PlayerIds(roster)) && |roster| == 10
    ensures var (a, b) := SameSides(record, roster); |a| == 5 && |b| == 5
  {
    NewcomersAre(roster, PlayerIds(Participants(record)));
    SidesAreFiveExactlyWhenDistinct(record, roster);
  }

  lemma RostersRows(record: MatchRecord, roster: seq<MatchPlayer>)
    requires FiveOnFive(record)
    ensures var (a, b) := SameSides(record, roster); forall p :: p in a || p in b ==> p in roster
  {
    ParticipantsDistinct(record);
    KeptIs(record.teamOne.players, roster);
    KeptIs(record.teamTwo.players, roster);
    NewcomersOf(roster, PlayerIds(Participants(record)));
    PlacedIs(Kept(record.teamOne.players, roster), Kept(record.teamTwo.players, roster), Newcomers(roster, PlayerIds(Participants(record))));
  }

  lemma {:induction false} NewcomersOf(roster: seq<MatchPlayer>, known: seq<int>)
    ensures forall p :: p in Newcomers(roster, known) ==> p in roster
  {
    if roster != [] {
      NewcomersOf(roster[1..], known);
      assert roster == [roster[0]] + roster[1..];
    }
  }

  // ---- A shuffle --------------------------------------------------------------------------

  /** The five roles have the names of the role list, and nothing else names one. */
  lemma NamesNameRoles(role: TF.Role, name: string)
    ensures RoleName(role) == TFN.NameOf(role)
    ensures RoleNamed(name) == Some(role) <==> name == TFN.NameOf(role)
  {
  }

  predicate KnownRole(name: string) { name in {"", "solo", "jungle", "mid", "support", "adc"} }

  function AsPlayers(record: MatchRecord, roster: seq<MatchPlayer>): seq<TF.Player> {
    FormationPlayers(roster, {record.teamOne.captainId, record.teamTwo.captainId})
  }

  /** A side of a shuffled match is a side of the formation: its players in its
      roles, by name, under its captain. */
  ghost predicate SideOf(t: MatchTeam, name: string, f: TF.FormedTeam) {
    && t.name == name && t.captainId == f.captainId && |t.players| == |f.assignments|
    && forall i :: 0 <= i < |t.players| ==> t.players[i] == MatchPlayer(f.assignments[i].userId, TFN.NameOf(f.assignments[i].role))
  }

  /** A shuffle succeeds exactly for an even roster of two to ten different players
      in known roles, and seats the balanced formation of that roster, on the sides
      that give Blue other players than it had. */
  lemma ShufflesWhen(record: MatchRecord, roster: seq<MatchPlayer>)
    ensures Shuffled(record, roster).Ok? <==>
              && (forall p :: p in roster ==> KnownRole(p.role)) && 2 <= |roster| <= 10 && |roster| % 2 == 0 && Distinct(PlayerIds(roster))
    ensures Shuffled(record, roster).Ok? ==>
              && TF.FormSmiteTeams(AsPlayers(record, roster), TF.Balanced).Ok?
              && var (f, (one, two)) := (TF.FormSmiteTeams(AsPlayers(record, roster), TF.Balanced).value, Shuffled(record, roster).value);
              if IdSet(Seated(f.blue.assignments)) == IdSet(record.teamOne.players) then SideOf(one, "Blue", f.red) && SideOf(two, "Red", f.blue)
              else SideOf(one, "Blue", f.blue) && SideOf(two, "Red", f.red)
  {
    RolesKnownIs(roster);
    FormsWhen(record, roster);
    var players := AsPlayers(record, roster);
    hide RolesKnown, KnownRole, FormationPlayers, IdSet, TF.FormSmiteTeams, Seated, MakeTeam, SideOf, Distinct;
    if TF.FormSmiteTeams(players, TF.Balanced).Ok? {
      var f := TF.FormSmiteTeams(players, TF.Balanced).value;
      MakesSides(players, f, "Blue", "Red");
      MakesSides(players, f, "Red", "Blue");
    }
  }

  lemma RolesKnownIs(roster: seq<MatchPlayer>)
    ensures RolesKnown(roster) <==> forall p :: p in roster ==> KnownRole(p.role)
  {
  }

  lemma FormsWhen(record: MatchRecord, roster: seq<MatchPlayer>)
    ensures TF.FormSmiteTeams(AsPlayers(record, roster), TF.Balanced).Ok? <==>
              2 <= |roster| <= 10 && |roster| % 2 == 0 && Distinct(PlayerIds(roster))
  {
    var players := AsPlayers(record, roster);
    TFT.FormationFailsWhen(players, TF.Balanced);
    var ids := PlayerIds(roster);
    assert forall i :: 0 <= i < |ids| ==> players[i].userId == ids[i];
    hide TF.FormSmiteTeams;
    if !Distinct(ids) {
      var i, j :| 0 <= i < j < |ids| && ids[i] == ids[j];
      TF.RepeatedId(players, i, j);
    } else {
      DifferentIds(players);
    }
  }

  lemma {:induction false} DifferentIds(players: seq<TF.Player>)
    requires forall i, j :: 0 <= i < j < |players| ==> players[i].userId != players[j].userId
    ensures |TF.PlayerIds(players)| == |players|
    decreases |players|
  {
    if players != [] {
      DifferentIds(players[1..]);
      NotAmong(players[1..], players[0].userId);
    }
  }

  lemma {:induction false} NotAmong(players: seq<TF.Player>, id: int)
    requires forall i :: 0 <= i < |players| ==> players[i].userId != id
    ensures id !in TF.PlayerIds(players)
    decreases |players|
  {
    if players != [] { NotAmong(players[1..], id); }
  }

  /** The team constructor takes the sides of a formation. */
  lemma MakesSides(players: seq<TF.Player>, f: TF.FormationResult, blueName: string, redName: string)
    requires TF.FormSmiteTeams(players, TF.Balanced) == Ok(f) && blueName != "" && redName != ""
    ensures var b := MakeTeam(blueName, f.blue.captainId, Seated(f.blue.assignments)); b.Ok? && SideOf(b.value, blueName, f.blue)
    ensures var r := MakeTeam(redName, f.red.captainId, Seated(f.red.assignments)); r.Ok? && SideOf(r.value, redName, f.red)
  {
    hide TF.FormSmiteTeams;
    TFT.FormationSeatsEveryone(players, TF.Balanced);
    FormationSplits(players, f, TFT.UserIds(players));
    OneSideIsValid(blueName, f.blue, Seated(f.red.assignments), TFT.UserIds(players));
    OneSideIsValid(redName, f.red, Seated(f.blue.assignments), TFT.UserIds(players));
  }

  lemma OneSideIsValid(name: string, t: TF.FormedTeam, other: seq<MatchPlayer>, ids: seq<int>)
    requires name != "" && t.captainId in TF.AssignedIds(t.assignments) && Distinct(ids)
    requires multiset(PlayerIds(Seated(t.assignments))) + multiset(PlayerIds(other)) == multiset(ids)
    ensures var r := MakeTeam(name, t.captainId, Seated(t.assignments)); r.Ok? && SideOf(r.value, name, t)
  {
    var players := Seated(t.assignments);
    assert PlayerIds(players) == TF.AssignedIds(t.assignments);
    forall i, j | 0 <= i < j < |players| ensures PlayerIds(players)[i] != PlayerIds(players)[j] {
      PartOfDistinct(PlayerIds(players), PlayerIds(other), ids, i, j);
    }
    forall i | 0 <= i < |players| ensures players[i] == MatchPlayer(t.assignments[i].userId, TFN.NameOf(t.assignments[i].role)) {
      NamesNameRoles(t.assignments[i].role, "");
    }
  }

  lemma PartOfDistinct(a: seq<int>, b: seq<int>, ids: seq<int>, i: nat, j: nat)
    requires Distinct(ids) && multiset(a) + multiset(b) == multiset(ids) && i < j < |a|
    ensures a[i] != a[j]
  {
    DistinctCount(ids, a[i]);
    assert a == a[..i] + [a[i]] + a[i + 1..j] + [a[j]] + a[j + 1..];
  }

  // ---- Old captains -----------------------------------------------------------------------

  /** An old captain sits on this side. */
  predicate OldCaptainOn(record: MatchRecord, side: seq<TFQ.Seat>) {
    record.teamOne.captainId in TFQ.Ids(side) || record.teamTwo.captainId in TFQ.Ids(side)
  }

  lemma VolunteersAreOldCaptains(record: MatchRecord, roster: seq<MatchPlayer>, side: seq<TFQ.Seat>)
    requires forall id :: id in TFQ.Ids(side) ==> HasId(roster, id)
    ensures TFQ.HasVolunteer(AsPlayers(record, roster), side) <==> OldCaptainOn(record, side)
  {
    var players, ids := AsPlayers(record, roster), PlayerIds(roster);
    if OldCaptainOn(record, side) {
      var id := if record.teamOne.captainId in TFQ.Ids(side) then record.teamOne.captainId else record.teamTwo.captainId;
      assert id in ids;
      var i :| 0 <= i < |ids| && ids[i] == id;
      assert players[i] in players && players[i].userId == id && players[i].captain;
    }
  }

  /** When a side of a shuffled match has neither old captain, every legal line-up
      with one on each side is a worse fit for the roles the players play. */
  lemma OldCaptainsAreKeptApart(record: MatchRecord, roster: seq<MatchPlayer>, blue: seq<TFQ.Seat>, red: seq<TFQ.Seat>)
    requires TF.FormSmiteTeams(AsPlayers(record, roster), TF.Balanced).Ok? && TFQ.LineUp(AsPlayers(record, roster), blue, red)
    requires OldCaptainOn(record, blue) && OldCaptainOn(record, red)
    requires var f := TF.FormSmiteTeams(AsPlayers(record, roster), TF.Balanced).value;
             !OldCaptainOn(record, TFQ.SeatsOf(f.blue.assignments)) || !OldCaptainOn(record, TFQ.SeatsOf(f.red.assignments))
    ensures var f, players := TF.FormSmiteTeams(AsPlayers(record, roster), TF.Balanced).value, AsPlayers(record, roster);
            TFQ.FitsBetter(TFQ.WorthOf(players, TFQ.SeatsOf(f.blue.assignments), TFQ.SeatsOf(f.red.assignments)), TFQ.WorthOf(players, blue, red))
  {
    var players := AsPlayers(record, roster);
    var f := TF.FormSmiteTeams(players, TF.Balanced).value;
    FormationPlays(record, roster, f);
    hide TF.FormSmiteTeams, AsPlayers, TFQ.WorthOf, OldCaptainOn;
    LineUpPlays(record, roster, blue, red);
    VolunteersAreOldCaptains(record, roster, blue);
    VolunteersAreOldCaptains(record, roster, red);
    VolunteersAreOldCaptains(record, roster, TFQ.SeatsOf(f.blue.assignments));
    VolunteersAreOldCaptains(record, roster, TFQ.SeatsOf(f.red.assignments));
    TFQ.VolunteersAreKeptApart(players, TF.Balanced, blue, red);
  }

  lemma LineUpPlays(record: MatchRecord, roster: seq<MatchPlayer>, blue: seq<TFQ.Seat>, red: seq<TFQ.Seat>)
    requires TFQ.LineUp(AsPlayers(record, roster), blue, red)
    ensures forall id :: id in TFQ.Ids(blue) || id in TFQ.Ids(red) ==> HasId(roster, id)
  {
    var players := AsPlayers(record, roster);
    assert TFT.UserIds(players) == PlayerIds(roster);
    forall id | id in TFQ.Ids(blue) || id in TFQ.Ids(red) ensures HasId(roster, id) {
      assert id in multiset(TFQ.Ids(blue)) + multiset(TFQ.Ids(red));
      assert id in multiset(PlayerIds(roster));
    }
  }

  lemma FormationPlays(record: MatchRecord, roster: seq<MatchPlayer>, f: TF.FormationResult)
    requires TF.FormSmiteTeams(AsPlayers(record, roster), TF.Balanced) == Ok(f)
    ensures forall id :: id in TFQ.Ids(TFQ.SeatsOf(f.blue.assignments)) || id in TFQ.Ids(TFQ.SeatsOf(f.red.assignments)) ==> HasId(roster, id)
  {
    hide TF.FormSmiteTeams;
    var players := AsPlayers(record, roster);
    TFT.FormationSeatsEveryone(players, TF.Balanced);
    assert TFT.UserIds(players) == PlayerIds(roster);
    var blue, red := TF.AssignedIds(f.blue.assignments), TF.AssignedIds(f.red.assignments);
    assert TFQ.Ids(TFQ.SeatsOf(f.blue.assignments)) == blue && TFQ.Ids(TFQ.SeatsOf(f.red.assignments)) == red;
    forall id | id in blue || id in red ensures HasId(roster, id) {
      assert id in multiset(blue) + multiset(red);
      assert id in multiset(PlayerIds(roster));
    }
  }
}
