/** utils/match_continuity.py: the decision taken after a match, and its
    projection on the queue, the rooms and the next match. */
module MatchContinuity {
  import opened Common
  import opened MatchRecords
  import PartyQueue
  import TF = TeamFormation

  datatype ContinuityStatus = Ready | Queued | AwaitingSubstitutes

  datatype AssignmentChange = AssignmentChange(
    userId: int, previousTeam: Option<int>, nextTeam: Option<int>, previousRole: string, nextRole: string)

  datatype Decision = Decision(
    source: MatchId,
    next: Option<MatchId>,
    lobbyId: string,
    action: ContinuityAction,
    status: ContinuityStatus,
    teamOne: Option<MatchTeam>,
    teamTwo: Option<MatchTeam>,
    changes: seq<AssignmentChange>,
    promoted: seq<int>,
    reusedRooms: bool,
    queueProjected: bool,
    roomsProjected: bool,
    draftProjected: bool)

  datatype Error =
    | NoWinner | AlreadySelected | NoQueue | BadPlayer | UnknownDeparture | NoSeries | EmptyTeam | BadTeam
    | CannotForm | NoDecision | OperationReused | NextIdTaken | MatchTaken | QueueFailed(error: PartyQueue.QueueError)

  // ---- The next roster --------------------------------------------------------

  function RolesIn(roster: seq<MatchPlayer>): set<string> {
    if roster == [] then {}
    else RolesIn(roster[..|roster| - 1]) + (if roster[|roster| - 1].role != "" then {roster[|roster| - 1].role} else {})
  }

  /** Most roles the roster lacks first, then the earliest to join, then the ID. */
  function SubstituteOrder(roster: seq<MatchPlayer>): PartyQueue.Member -> seq<int> {
    (m: PartyQueue.Member) => [0 - PartyQueue.CountMissing(m.roles, RolesIn(roster)), m.joinedSequence, m.userId]
  }

  function PreferredRole(m: PartyQueue.Member, departed: Option<MatchPlayer>): string {
    if departed.Some? && departed.value.role in m.roles then departed.value.role
    else if m.roles != [] then m.roles[0]
    else if departed.Some? then departed.value.role
    else ""
  }

  function FirstDeparted(participants: seq<MatchPlayer>, departures: set<int>): Option<MatchPlayer> {
    if participants == [] then None
    else if participants[0].userId in departures then Some(participants[0])
    else FirstDeparted(participants[1..], departures)
  }

  function Staying(participants: seq<MatchPlayer>, departures: set<int>): seq<MatchPlayer> {
    if participants == [] then []
    else (if participants[0].userId in departures then [] else [participants[0]]) + Staying(participants[1..], departures)
  }

  /** Take the best substitute while the roster is short and somebody waits. The
      least key picks the first of equal members, which is the one removed. */
  function WithSubstitutes(roster: seq<MatchPlayer>, waiting: seq<PartyQueue.Member>, departed: Option<MatchPlayer>, size: nat): Result<seq<MatchPlayer>, Error>
    decreases |waiting|
  {
    if |roster| >= size || waiting == [] then Ok(roster)
    else
      var i := MinIndex(waiting, SubstituteOrder(roster));
      if waiting[i].userId <= 0 then Err(BadPlayer)
      else WithSubstitutes(roster + [MatchPlayer(waiting[i].userId, PreferredRole(waiting[i], departed))],
                           waiting[..i] + waiting[i + 1..], departed, size)
  }

  function NextRoster(record: MatchRecord, queue: PartyQueue.Queue, departures: set<int>): Result<seq<MatchPlayer>, Error> {
    WithSubstitutes(Staying(Participants(record), departures), queue.waitlist,
                    FirstDeparted(Participants(record), departures), |Participants(record)|)
  }

  // ---- The next teams ---------------------------------------------------------

  /** The MatchTeam constructor, which refuses repeated players. */
  function MakeTeam(name: string, captainId: int, players: seq<MatchPlayer>): Result<MatchTeam, Error> {
    if ValidTeam(MatchTeam(name, captainId, players)) then Ok(MatchTeam(name, captainId, players)) else Err(BadTeam)
  }

  /** by_id: the roster's last entry for a user. */
  function LastEntry(roster: seq<MatchPlayer>, userId: int): Option<MatchPlayer> {
    if roster == [] then None
    else if roster[|roster| - 1].userId == userId then Some(roster[|roster| - 1])
    else LastEntry(roster[..|roster| - 1], userId)
  }

  function Kept(players: seq<MatchPlayer>, roster: seq<MatchPlayer>): seq<MatchPlayer> {
    if players == [] then []
    else
      var entry := LastEntry(roster, players[0].userId);
      (if entry.Some? then [entry.value] else []) + Kept(players[1..], roster)
  }

  function Newcomers(roster: seq<MatchPlayer>, known: seq<int>): seq<MatchPlayer> {
    if roster == [] then []
    else (if roster[0].userId in known then [] else [roster[0]]) + Newcomers(roster[1..], known)
  }

  /** Newcomers fill the first side up to five, then the second. */
  function Placed(first: seq<MatchPlayer>, second: seq<MatchPlayer>, newcomers: seq<MatchPlayer>): (seq<MatchPlayer>, seq<MatchPlayer>)
    decreases |newcomers|
  {
    if newcomers == [] then (first, second)
    else if |first| < 5 then Placed(first + [newcomers[0]], second, newcomers[1..])
    else Placed(first, second + [newcomers[0]], newcomers[1..])
  }

  function Captained(name: string, captainId: int, players: seq<MatchPlayer>): Result<MatchTeam, Error> {
    if captainId in PlayerIds(players) then MakeTeam(name, captainId, players)
    else if players == [] then Err(EmptyTeam)
    else MakeTeam(name, players[0].userId, players)
  }

  function SameSides(record: MatchRecord, roster: seq<MatchPlayer>): (seq<MatchPlayer>, seq<MatchPlayer>) {
    Placed(Kept(record.teamOne.players, roster), Kept(record.teamTwo.players, roster),
           Newcomers(roster, PlayerIds(Participants(record))))
  }

  function BothTeams(one: Result<MatchTeam, Error>, two: Result<MatchTeam, Error>): Result<(MatchTeam, MatchTeam), Error> {
    if one.Err? then Err(one.error) else if two.Err? then Err(two.error) else Ok((one.value, two.value))
  }

  function RoleNamed(name: string): Option<TF.Role> {
    if name == "solo" then Some(TF.Solo)
    else if name == "jungle" then Some(TF.Jungle)
    else if name == "mid" then Some(TF.Mid)
    else if name == "support" then Some(TF.Support)
    else if name == "adc" then Some(TF.Adc)
    else None
  }

  function RoleName(role: TF.Role): string {
    match role
    case Solo => "solo"
    case Jungle => "jungle"
    case Mid => "mid"
    case Support => "support"
    case Adc => "adc"
  }

  function FormationPlayer(p: MatchPlayer, captains: set<int>): TF.Player {
    TF.Player(p.userId, RoleNamed(p.role), None, true, p.userId in captains, TF.Unlisted, 0, 0)
  }

  function FormationPlayers(roster: seq<MatchPlayer>, captains: set<int>): (r: seq<TF.Player>)
    ensures |r| == |roster|
  {
    seq(|roster|, i requires 0 <= i < |roster| => FormationPlayer(roster[i], captains))
  }

  function Seated(assignments: seq<TF.RoleAssignment>): (r: seq<MatchPlayer>)
    ensures |r| == |assignments|
  {
    seq(|assignments|, i requires 0 <= i < |assignments| => MatchPlayer(assignments[i].userId, RoleName(assignments[i].role)))
  }

  function IdSet(players: seq<MatchPlayer>): set<int> { set id | id in PlayerIds(players) }

  /** A role that is not one of the five cannot be formed with. */
  predicate RolesKnown(roster: seq<MatchPlayer>) {
    forall p :: p in roster ==> p.role == "" || RoleNamed(p.role).Some?
  }

  function Shuffled(record: MatchRecord, roster: seq<MatchPlayer>): Result<(MatchTeam, MatchTeam), Error> {
    if !RolesKnown(roster) then Err(CannotForm)
    else
      match TF.FormSmiteTeams(FormationPlayers(roster, {record.teamOne.captainId, record.teamTwo.captainId}), TF.Balanced)
      case Err(_) => Err(CannotForm)
      case Ok(f) =>
        var blue, red := Seated(f.blue.assignments), Seated(f.red.assignments);
        var made := BothTeams(MakeTeam("Blue", f.blue.captainId, blue), MakeTeam("Red", f.red.captainId, red));
        if made.Err? || IdSet(blue) != IdSet(record.teamOne.players) then made
        else BothTeams(MakeTeam("Blue", f.red.captainId, red), MakeTeam("Red", f.blue.captainId, blue))
  }

  function Teams(record: MatchRecord, roster: seq<MatchPlayer>, shuffle: bool): Result<(MatchTeam, MatchTeam), Error> {
    if shuffle then Shuffled(record, roster)
    else
      var (first, second) := SameSides(record, roster);
      BothTeams(Captained("Blue", record.teamOne.captainId, first), Captained("Red", record.teamTwo.captainId, second))
  }

  // ---- What changes -----------------------------------------------------------

  type Seats = map<int, (int, string)>

  function SeatAll(players: seq<MatchPlayer>, team: int, seats: Seats): Seats {
    if players == [] then seats
    else SeatAll(players[1..], team, seats[players[0].userId := (team, players[0].role)])
  }

  function SeatsOf(one: MatchTeam, two: MatchTeam): Seats {
    SeatAll(two.players, 2, SeatAll(one.players, 1, map[]))
  }

  predicate IsLeast(m: int, s: set<int>) { m in s && forall x :: x in s ==> m <= x }

  lemma LeastExists(s: set<int>)
    requires s != {}
    ensures exists m :: IsLeast(m, s)
  {
    NonEmpty(s);
    var x :| x in s;
    var rest := s - {x};
    if rest == {} {
      assert s == {x};
      assert IsLeast(x, s);
    } else {
      LeastExists(rest);
      var m :| IsLeast(m, rest);
      forall y | y in s ensures Min(x, m) <= y { assert y == x || y in rest; }
      assert IsLeast(Min(x, m), s);
    }
  }

  function Least(s: set<int>): (m: int)
    requires s != {}
    ensures IsLeast(m, s)
  {
    LeastExists(s);
    var m :| IsLeast(m, s);
    m
  }

  /** Python's sorted(s). */
  function InOrder(s: set<int>): seq<int> {
    if s == {} then [] else [Least(s)] + InOrder(s - {Least(s)})
  }

  function TeamAt(seats: Seats, id: int): Option<int> { if id in seats then Some(seats[id].0) else None }

  function RoleAt(seats: Seats, id: int): string { if id in seats then seats[id].1 else "" }

  function ChangesFor(ids: seq<int>, before: Seats, after: Seats): seq<AssignmentChange> {
    if ids == [] then []
    else
      var id := ids[0];
      var same := (id in before) == (id in after) && (id in before ==> before[id] == after[id]);
      (if same then [] else [AssignmentChange(id, TeamAt(before, id), TeamAt(after, id), RoleAt(before, id), RoleAt(after, id))])
      + ChangesFor(ids[1..], before, after)
  }

  function Changes(before: Seats, after: Seats): seq<AssignmentChange> {
    ChangesFor(InOrder(before.Keys + after.Keys), before, after)
  }

  /** The changes of a decision that waits: every departure leaves its seat. */
  function Vacated(ids: seq<int>, before: Seats): seq<AssignmentChange>
    requires forall id :: id in ids ==> id in before
  {
    if ids == [] then []
    else
      var id := ids[0];
      assert id in ids;
      [AssignmentChange(id, Some(before[id].0), None, before[id].1, "")] + Vacated(ids[1..], before)
  }

  predicate IsDeparture(c: AssignmentChange) { c.previousTeam.Some? && c.nextTeam.None? }

  /** The users whose change is a departure, in the order of the changes. */
  function Departing(changes: seq<AssignmentChange>): seq<int> {
    if changes == [] then []
    else (if IsDeparture(changes[0]) then [changes[0].userId] else []) + Departing(changes[1..])
  }

  // ---- Deciding ---------------------------------------------------------------

  function Lower(c: char): char { if 'A' <= c <= 'Z' then c - 'A' + 'a' else c }

  predicate StartsWith(text: string, lower: string) {
    |text| >= |lower| && forall i :: 0 <= i < |lower| ==> Lower(text[i]) == lower[i]
  }

  predicate HasSeriesContext(record: MatchRecord) {
    record.score.Some? || (record.draftReference.Some? && StartsWith(record.draftReference.value, "series:"))
  }

  function PromotedIn(roster: seq<MatchPlayer>, staying: nat): seq<int>
    requires staying <= |roster|
  {
    PlayerIds(roster[staying..])
  }

  lemma {:induction false} SubstitutesFollow(roster: seq<MatchPlayer>, waiting: seq<PartyQueue.Member>, departed: Option<MatchPlayer>, size: nat)
    ensures var r := WithSubstitutes(roster, waiting, departed, size);
            r.Ok? ==> |roster| <= |r.value| && r.value[..|roster|] == roster
    decreases |waiting|
  {
    if |roster| < size && waiting != [] {
      var i := MinIndex(waiting, SubstituteOrder(roster));
      var more := roster + [MatchPlayer(waiting[i].userId, PreferredRole(waiting[i], departed))];
      SubstitutesFollow(more, waiting[..i] + waiting[i + 1..], departed, size);
      assert more[..|roster|] == roster;
    }
  }

  function BuildResult(record: MatchRecord, lobbyId: string, queue: PartyQueue.Queue, action: ContinuityAction, departures: set<int>): Result<Decision, Error> {
    var roster := NextRoster(record, queue, departures);
    if roster.Err? then Err(roster.error)
    else
      var staying := Staying(Participants(record), departures);
      SubstitutesFollow(staying, queue.waitlist, FirstDeparted(Participants(record), departures), |Participants(record)|);
      var promoted := PromotedIn(roster.value, |staying|);
      var before := SeatsOf(record.teamOne, record.teamTwo);
      if action == ReturnToQueue then
        Ok(Decision(record.matchId, None, lobbyId, action, Queued, None, None, [], [], false, false, false, false))
      else if |roster.value| < 10 then
        if exists id :: id in departures && id !in before then Err(UnknownDeparture)
        else
          InOrderIs(departures);
          Ok(Decision(record.matchId, None, lobbyId, action, AwaitingSubstitutes, None, None,
                      Vacated(InOrder(departures), before), promoted, false, false, false, false))
      else if action == ContinueSeries && !HasSeriesContext(record) then Err(NoSeries)
      else
        match Teams(record, roster.value, action == ShuffleTeams)
        case Err(e) => Err(e)
        case Ok((one, two)) =>
          Ok(Decision(record.matchId, Some(Continued(record.guildId, record.matchId, action)), lobbyId, action, Ready,
                      Some(one), Some(two), Changes(before, SeatsOf(one, two)), promoted, false, false, false, false))
  }

  lemma {:induction false} InOrderIs(s: set<int>)
    ensures |InOrder(s)| == |s| && forall id :: id in InOrder(s) <==> id in s
    ensures forall i, j :: 0 <= i < j < |InOrder(s)| ==> InOrder(s)[i] < InOrder(s)[j]
    decreases |s|
  {
    if s != {} {
      var m := Least(s);
      InOrderIs(s - {m});
      assert s == {m} + (s - {m});
      forall j | 0 < j < |InOrder(s)| ensures m < InOrder(s)[j] {
        assert InOrder(s)[j] == InOrder(s - {m})[j - 1];
        assert InOrder(s - {m})[j - 1] in s - {m};
      }
    }
  }
}
