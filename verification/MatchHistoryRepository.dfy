/** MatchHistoryRepository of utils/match_history.py: one transaction a command,
    and a player's recreational statistics. */
module MatchHistoryRepositories {
  import opened Common
  import opened MatchRecords
  import opened MatchHistory

  function RecordOf(r: Result<(Store, MatchRecord), Error>): Result<MatchRecord, Error> {
    if r.Ok? then Ok(r.value.1) else Err(r.error)
  }

  class MatchHistoryRepository {
    var matches: map<Key, MatchRecord>
    var confirmations: map<Key, map<int, MatchOutcome>>
    var operations: map<string, Fingerprint>

    constructor ()
      ensures Contents() == EMPTY_STORE
    {
      matches := map[];
      confirmations := map[];
      operations := map[];
    }

    function Contents(): Store
      reads this
    {
      Store(matches, confirmations, operations)
    }

    /** _operation, and the current record when the operation is recorded. */
    method Prior(c: Command) returns (found: bool, r: Result<MatchRecord, Error>)
      ensures found <==> c.op in operations
      ensures found ==> r == if operations[c.op] != MarkOf(c) then Err(OperationConflict)
                             else if KeyOf(c) !in matches then Err(MatchNotFound) else Ok(matches[KeyOf(c)])
    {
      found, r := c.op in operations, Err(MatchNotFound);
      if !found { return; }
      if operations[c.op] != MarkOf(c) { return true, Err(OperationConflict); }
      if KeyOf(c) in matches { r := Ok(matches[KeyOf(c)]); }
    }

    method CreateMatch(guildId: int, organizerId: int, teamOne: MatchTeam, teamTwo: MatchTeam, op: string,
        draft: Option<string>, given: Option<MatchId>, now: int) returns (r: Result<MatchRecord, Error>)
      modifies this
      ensures var c := Create(guildId, organizerId, teamOne, teamTwo, op, draft, given);
              Contents() == After(old(Contents()), c, now) && r == RecordOf(Exec(old(Contents()), c, now))
    {
      var c := Create(guildId, organizerId, teamOne, teamTwo, op, draft, given);
      var found, prior := Prior(c);
      if found { return prior; }
      var id := if given.Some? && given.value != Named("") then given.value else FromOperation(guildId, op);
      var record := MatchRecord(id, guildId, organizerId, teamOne, teamTwo, draft, Pending, None, now, now, None);
      if !ValidRecord(record) || (id.Named? && IsBlank(id.text)) { return Err(BadRecord); }
      if (guildId, id) in matches { return Err(DuplicateMatch); }
      matches := matches[(guildId, id) := record];
      operations := operations[op := MarkOf(c)];
      r := Ok(record);
    }

    /** The report is written before the score is checked; a mismatch rolls it back. */
    method ReportWinner(guildId: int, matchId: MatchId, captainId: int, winner: MatchOutcome, op: string,
        score: Option<SeriesScore>, now: int) returns (r: Result<MatchRecord, Error>)
      modifies this
      ensures var c := Report(guildId, matchId, captainId, winner, op, score);
              Contents() == After(old(Contents()), c, now) && r == RecordOf(Exec(old(Contents()), c, now))
    {
      hide Decided;
      var c := Report(guildId, matchId, captainId, winner, op, score);
      var key := (guildId, matchId);
      if score.Some? && !ValidScore(score.value) { return Err(BadScore); }
      if !IsWin(winner) { return Err(BadWinner); }
      var found, prior := Prior(c);
      if found { return prior; }
      if key !in matches { return Err(MatchNotFound); }
      var record := matches[key];
      if IsTerminal(record.outcome) { return Err(AlreadyTerminal); }
      if record.outcome == Disputed { return Err(NeedsOrganizer); }
      if captainId != record.teamOne.captainId && captainId != record.teamTwo.captainId { return Err(NotCaptain); }
      var before := confirmations;
      var reports := (if key in confirmations then confirmations[key] else map[])[captainId := winner];
      confirmations := confirmations[key := reports];
      var outcome := Decided(reports);
      var kept: Option<SeriesScore> := None;
      if IsWin(outcome) && score.Some? {
        kept := score;
        if !ScoreFits(outcome, score.value) {
          confirmations := before;
          return Err(ScoreMismatch);
        }
      }
      matches := matches[key := record.(outcome := outcome, score := kept, updatedAt := now)];
      operations := operations[op := MarkOf(c)];
      r := Ok(matches[key]);
    }

    method ResolveMatch(guildId: int, matchId: MatchId, organizerId: int, outcome: MatchOutcome, op: string,
        score: Option<SeriesScore>, now: int) returns (r: Result<MatchRecord, Error>)
      modifies this
      ensures var c := Resolve(guildId, matchId, organizerId, outcome, op, score);
              Contents() == After(old(Contents()), c, now) && r == RecordOf(Exec(old(Contents()), c, now))
    {
      var c := Resolve(guildId, matchId, organizerId, outcome, op, score);
      var key := (guildId, matchId);
      if score.Some? && !ValidScore(score.value) { return Err(BadScore); }
      if !IsTerminal(outcome) { return Err(BadOutcome); }
      var found, prior := Prior(c);
      if found { return prior; }
      if key !in matches { return Err(MatchNotFound); }
      var record := matches[key];
      if record.organizerId != organizerId { return Err(NotOrganizer); }
      if IsTerminal(record.outcome) { return Err(AlreadyTerminal); }
      if IsWin(outcome) && record.outcome != Disputed { return Err(NeedsDispute); }
      if IsWin(outcome) {
        if score.Some? && !ScoreFits(outcome, score.value) { return Err(ScoreMismatch); }
      } else if score.Some? {
        return Err(ScoreWithoutWinner);
      }
      matches := matches[key := record.(outcome := outcome, score := score, updatedAt := now, resolvedBy := Some(organizerId))];
      operations := operations[op := MarkOf(c)];
      r := Ok(matches[key]);
    }
  }

  // ---- player_stats -----------------------------------------------------------------------

  datatype PlayerGameNightStats = PlayerGameNightStats(userId: int, appearances: nat, wins: nat, currentStreak: nat,
                                                       roleFrequency: map<string, nat>, teammateFrequency: map<int, nat>)

  predicate OnOne(r: MatchRecord, userId: int) { userId in PlayerIds(r.teamOne.players) }

  function SideOf(r: MatchRecord, userId: int): MatchTeam { if OnOne(r, userId) then r.teamOne else r.teamTwo }

  predicate Won(r: MatchRecord, userId: int) { if OnOne(r, userId) then r.outcome == TeamOne else r.outcome == TeamTwo }

  predicate Appears(r: MatchRecord, userId: int) { userId in PlayerIds(SideOf(r, userId).players) }

  function WithWinner(rows: seq<MatchRecord>): (d: seq<MatchRecord>)
    ensures forall r :: r in d <==> r in rows && IsWin(r.outcome)
  {
    if rows == [] then []
    else
      var before := WithWinner(rows[..|rows| - 1]);
      if IsWin(rows[|rows| - 1].outcome) then before + [rows[|rows| - 1]] else before
  }

  function WinCount(d: seq<MatchRecord>, userId: int): nat {
    if d == [] then 0 else WinCount(d[..|d| - 1], userId) + (if Won(d[|d| - 1], userId) then 1 else 0)
  }

  function PlayerIn(players: seq<MatchPlayer>, userId: int): MatchPlayer
    requires userId in PlayerIds(players)
  {
    if players[0].userId == userId then players[0] else assert PlayerIds(players)[1..] == PlayerIds(players[1..]); PlayerIn(players[1..], userId)
  }

  function RoleOf(r: MatchRecord, userId: int): string
    requires Appears(r, userId)
  {
    PlayerIn(SideOf(r, userId).players, userId).role
  }

  ghost predicate AllAppear(rows: seq<MatchRecord>, userId: int) { forall r :: r in rows ==> Appears(r, userId) && ValidRecord(r) }

  function RoleCount(d: seq<MatchRecord>, userId: int, role: string): nat {
    if d == [] then 0
    else
      var r := d[|d| - 1];
      RoleCount(d[..|d| - 1], userId, role) + (if Appears(r, userId) && RoleOf(r, userId) == role then 1 else 0)
  }

  function TeammateCount(d: seq<MatchRecord>, userId: int, other: int): nat {
    if d == [] then 0
    else
      var r := d[|d| - 1];
      TeammateCount(d[..|d| - 1], userId, other) + (if other != userId && other in PlayerIds(SideOf(r, userId).players) then 1 else 0)
  }

  function Get<K>(m: map<K, nat>, k: K): nat { if k in m then m[k] else 0 }

  function Bump<K(!new)>(m: map<K, nat>, k: K): (r: map<K, nat>)
    ensures forall j :: Get(r, j) == Get(m, j) + (if j == k then 1 else 0)
  {
    m[k := Get(m, k) + 1]
  }

  /** The streak is the run of wins that the newest matches start with. */
  ghost predicate IsStreak(d: seq<MatchRecord>, userId: int, streak: nat) {
    streak <= |d| && (forall i :: 0 <= i < streak ==> Won(d[i], userId)) && (streak < |d| ==> !Won(d[streak], userId))
  }

  /** player_stats over the rows of the query, newest first. */
  method PlayerStats(rows: seq<MatchRecord>, userId: int) returns (stats: PlayerGameNightStats)
    requires AllAppear(rows, userId)
    ensures stats.userId == userId && stats.appearances == |WithWinner(rows)| && stats.wins == WinCount(WithWinner(rows), userId)
    ensures IsStreak(WithWinner(rows), userId, stats.currentStreak)
    ensures forall role :: Get(stats.roleFrequency, role) == if role == "" then 0 else RoleCount(WithWinner(rows), userId, role)
    ensures forall other :: Get(stats.teammateFrequency, other) == TeammateCount(WithWinner(rows), userId, other)
  {
    hide ValidRecord, Bump, WinCount, RoleCount, TeammateCount, WithWinner, PlayerIn, PlayerIds;
    var matches := WithWinner(rows);
    var wins, streak, streakOpen := 0, 0, true;
    var roles: map<string, nat>, teammates: map<int, nat> := map[], map[];
    CountsNothing(userId);
    for i := 0 to |matches|
      invariant wins == WinCount(matches[..i], userId)
      invariant streak <= i && (forall j :: 0 <= j < streak ==> Won(matches[j], userId))
      invariant streakOpen ==> streak == i
      invariant !streakOpen ==> streak < i && !Won(matches[streak], userId)
      invariant forall role :: Get(roles, role) == if role == "" then 0 else RoleCount(matches[..i], userId, role)
      invariant forall other :: Get(teammates, other) == TeammateCount(matches[..i], userId, other)
    {
      var record := matches[i];
      assert record in rows;
      CountsOneMore(matches, i, userId);
      var onOne := OnOne(record, userId);
      var won := (onOne && record.outcome == TeamOne) || (!onOne && record.outcome == TeamTwo);
      wins := wins + (if won then 1 else 0);
      if streakOpen && won { streak := streak + 1; } else { streakOpen := false; }
      var team := if onOne then record.teamOne else record.teamTwo;
      var player := PlayerIn(team.players, userId);
      if player.role != "" { roles := Bump(roles, player.role); }
      assert player.role == RoleOf(record, userId);
      TeamOf(record, userId);
      teammates := AddTeammates(teammates, team.players, userId);
    }
    assert matches[..|matches|] == matches;
    stats := PlayerGameNightStats(userId, |matches|, wins, streak, roles, teammates);
  }

  lemma CountsNothing(userId: int)
    ensures WinCount([], userId) == 0
    ensures forall role :: RoleCount([], userId, role) == 0
    ensures forall other :: TeammateCount([], userId, other) == 0
  {
  }

  lemma CountsOneMore(d: seq<MatchRecord>, i: nat, userId: int)
    requires i < |d| && Appears(d[i], userId)
    ensures WinCount(d[..i + 1], userId) == WinCount(d[..i], userId) + (if Won(d[i], userId) then 1 else 0)
    ensures forall role :: RoleCount(d[..i + 1], userId, role) == RoleCount(d[..i], userId, role) + (if RoleOf(d[i], userId) == role then 1 else 0)
    ensures forall other :: TeammateCount(d[..i + 1], userId, other) == TeammateCount(d[..i], userId, other)
                            + (if other != userId && other in PlayerIds(SideOf(d[i], userId).players) then 1 else 0)
  {
    hide PlayerIn, PlayerIds;
    assert d[..i + 1][..i] == d[..i];
  }

  method AddTeammates(start: map<int, nat>, players: seq<MatchPlayer>, userId: int) returns (counts: map<int, nat>)
    requires Distinct(PlayerIds(players))
    ensures forall other :: Get(counts, other) == Get(start, other) + (if other != userId && other in PlayerIds(players) then 1 else 0)
  {
    counts := start;
    for k := 0 to |players|
      invariant forall other :: Get(counts, other) == Get(start, other) + (if other != userId && other in PlayerIds(players)[..k] then 1 else 0)
    {
      var teammate := players[k].userId;
      assert PlayerIds(players)[..k + 1] == PlayerIds(players)[..k] + [PlayerIds(players)[k]];
      if teammate != userId { counts := Bump(counts, teammate); }
    }
    assert PlayerIds(players)[..|players|] == PlayerIds(players);
  }

  lemma TeamOf(r: MatchRecord, userId: int)
    requires ValidRecord(r)
    ensures Distinct(PlayerIds(SideOf(r, userId).players))
  {
  }

  /** A streak is made of wins. */
  lemma {:induction false} StreakWithinWins(d: seq<MatchRecord>, userId: int, streak: nat)
    requires IsStreak(d, userId, streak)
    ensures streak <= WinCount(d, userId) <= |d|
    ensures streak == |d| <==> WinCount(d, userId) == |d|
  {
    if d != [] {
      var before := d[..|d| - 1];
      if streak == |d| {
        StreakWithinWins(before, userId, streak - 1);
      } else {
        StreakWithinWins(before, userId, streak);
      }
    }
  }

  /** Two players who share their matches count each other equally often. */
  lemma {:induction false} TeammatesAreMutual(d: seq<MatchRecord>, a: int, b: int)
    requires AllAppear(d, a) && AllAppear(d, b)
    ensures TeammateCount(d, a, b) == TeammateCount(d, b, a)
  {
    hide ValidTeam;
    if d != [] {
      assert d[|d| - 1] in d;
      TeammatesAreMutual(d[..|d| - 1], a, b);
    }
  }
}
