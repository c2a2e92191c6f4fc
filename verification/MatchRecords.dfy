/** The records of utils/match_history.py that other components read, and the
    actions of utils/match_continuity.py that derive the next match's ID. */
module MatchRecords {
  import opened Common

  datatype ContinuityAction = RunItBack | ShuffleTeams | ReturnToQueue | InviteSubstitutes | ContinueSeries

  /** A name-based UUID is a value built from the name it hashes. */
  datatype MatchId =
    | Named(text: string)
    | FromOperation(guildId: int, operationId: string)
    | Continued(guildId: int, source: MatchId, action: ContinuityAction)

  datatype MatchOutcome = Pending | Disputed | TeamOne | TeamTwo | Cancelled | NoContest

  datatype MatchPlayer = MatchPlayer(userId: int, role: string)

  datatype MatchTeam = MatchTeam(name: string, captainId: int, players: seq<MatchPlayer>)

  datatype SeriesScore = SeriesScore(one: int, two: int)

  datatype MatchRecord = MatchRecord(
    matchId: MatchId,
    guildId: int,
    organizerId: int,
    teamOne: MatchTeam,
    teamTwo: MatchTeam,
    draftReference: Option<string>,
    outcome: MatchOutcome,
    score: Option<SeriesScore>,
    createdAt: int,
    updatedAt: int,
    resolvedBy: Option<int>)

  function PlayerIds(players: seq<MatchPlayer>): (r: seq<int>)
    ensures |r| == |players|
  {
    seq(|players|, i requires 0 <= i < |players| => players[i].userId)
  }

  function Participants(r: MatchRecord): seq<MatchPlayer> { r.teamOne.players + r.teamTwo.players }

  /** The checks of the MatchTeam constructor. */
  predicate ValidTeam(t: MatchTeam) {
    var ids := PlayerIds(t.players);
    t.name != "" && t.captainId in ids && forall i, j :: 0 <= i < j < |ids| ==> ids[i] != ids[j]
  }

  predicate ValidScore(s: SeriesScore) { s.one >= 0 && s.two >= 0 && s.one != s.two }

  /** The checks of the MatchRecord constructor and those of its parts. */
  predicate ValidRecord(r: MatchRecord) {
    && ValidTeam(r.teamOne) && ValidTeam(r.teamTwo)
    && (forall id :: id in PlayerIds(r.teamOne.players) ==> id !in PlayerIds(r.teamTwo.players))
    && (forall p :: p in Participants(r) ==> p.userId > 0)
    && (r.score.Some? ==> ValidScore(r.score.value))
  }

  predicate IsTerminal(outcome: MatchOutcome) {
    outcome == TeamOne || outcome == TeamTwo || outcome == Cancelled || outcome == NoContest
  }

  predicate IsWin(outcome: MatchOutcome) { outcome == TeamOne || outcome == TeamTwo }
}
