/** Match results of utils/match_history.py: two captains confirm a winner, or the
    organizer resolves. */
module MatchHistory {
  import opened Common
  import opened MatchRecords

  type Key = (int, MatchId)

  datatype Command =
    | Create(guildId: int, organizerId: int, teamOne: MatchTeam, teamTwo: MatchTeam, op: string,
             draft: Option<string>, given: Option<MatchId>)
    | Report(guildId: int, matchId: MatchId, captainId: int, winner: MatchOutcome, op: string, score: Option<SeriesScore>)
    | Resolve(guildId: int, matchId: MatchId, organizerId: int, outcome: MatchOutcome, op: string, score: Option<SeriesScore>)

  /** What an operation ID is bound to. */
  datatype Fingerprint =
    | Creation(guildId: int, matchId: MatchId, organizerId: int, teamOne: MatchTeam, teamTwo: MatchTeam, draft: string)
    | Reporting(guildId: int, matchId: MatchId, captainId: int, winner: MatchOutcome, score: Option<SeriesScore>)
    | Resolving(guildId: int, matchId: MatchId, organizerId: int, outcome: MatchOutcome, score: Option<SeriesScore>)

  datatype Error =
    | BadWinner | BadOutcome | BadScore | OperationConflict | MatchNotFound | DuplicateMatch | BadRecord
    | AlreadyTerminal | NeedsOrganizer | NotCaptain | NotOrganizer | NeedsDispute | ScoreMismatch | ScoreWithoutWinner

  /** The match table, the captains' stored reports, and the recorded operations. */
  datatype Store = Store(matches: map<Key, MatchRecord>, reports: map<Key, map<int, MatchOutcome>>, operations: map<string, Fingerprint>)

  const EMPTY_STORE := Store(map[], map[], map[])

  function IdOf(c: Command): MatchId {
    if !c.Create? then c.matchId
    else if c.given.Some? && c.given.value != Named("") then c.given.value
    else FromOperation(c.guildId, c.op)
  }

  function KeyOf(c: Command): Key { (c.guildId, IdOf(c)) }

  function MarkOf(c: Command): Fingerprint {
    match c
    case Create(guildId, organizerId, one, two, _, draft, _) =>
      Creation(guildId, IdOf(c), organizerId, one, two, if draft.Some? then draft.value else "")
    case Report(guildId, id, captainId, winner, _, score) => Reporting(guildId, id, captainId, winner, score)
    case Resolve(guildId, id, organizerId, outcome, _, score) => Resolving(guildId, id, organizerId, outcome, score)
  }

  predicate IsBlank(text: string) { forall i :: 0 <= i < |text| ==> text[i] in " \t\n\r" }

  /** Checked before the transaction starts. */
  function Malformed(c: Command): Option<Error> {
    match c
    case Create(_, _, _, _, _, _, _) => None
    case Report(_, _, _, winner, _, score) =>
      if score.Some? && !ValidScore(score.value) then Some(BadScore) else if !IsWin(winner) then Some(BadWinner) else None
    case Resolve(_, _, _, outcome, _, score) =>
      if score.Some? && !ValidScore(score.value) then Some(BadScore) else if !IsTerminal(outcome) then Some(BadOutcome) else None
  }

  predicate ScoreFits(outcome: MatchOutcome, s: SeriesScore) {
    (outcome == TeamOne ==> s.one > s.two) && (outcome == TeamTwo ==> s.two > s.one)
  }

  function ReportsOf(store: Store, key: Key): map<int, MatchOutcome> {
    if key in store.reports then store.reports[key] else map[]
  }

  predicate IsCaptain(r: MatchRecord, userId: int) { userId == r.teamOne.captainId || userId == r.teamTwo.captainId }

  predicate AllReport(reports: map<int, MatchOutcome>, winner: MatchOutcome) {
    forall id :: id in reports ==> reports[id] == winner
  }

  /** What the stored reports decide: two of them agree on a winner, or differ. */
  function Decided(reports: map<int, MatchOutcome>): MatchOutcome {
    if |reports| != 2 then Pending
    else if AllReport(reports, TeamOne) then TeamOne
    else if AllReport(reports, TeamTwo) then TeamTwo
    else Disputed
  }

  // ---- Commands ---------------------------------------------------------------------------

  function Created(store: Store, c: Command, now: int): Result<Store, Error>
    requires c.Create?
  {
    var key := KeyOf(c);
    var r := MatchRecord(IdOf(c), c.guildId, c.organizerId, c.teamOne, c.teamTwo, c.draft, Pending, None, now, now, None);
    if !ValidRecord(r) || (IdOf(c).Named? && IsBlank(IdOf(c).text)) then Err(BadRecord)
    else if key in store.matches then Err(DuplicateMatch)
    else Ok(store.(matches := store.matches[key := r]))
  }

  function Reported(store: Store, c: Command, now: int): Result<Store, Error>
    requires c.Report? && Malformed(c).None?
  {
    var key := KeyOf(c);
    if key !in store.matches then Err(MatchNotFound)
    else
      var r := store.matches[key];
      if IsTerminal(r.outcome) then Err(AlreadyTerminal)
      else if r.outcome == Disputed then Err(NeedsOrganizer)
      else if !IsCaptain(r, c.captainId) then Err(NotCaptain)
      else
        var reports := ReportsOf(store, key)[c.captainId := c.winner];
        var outcome := Decided(reports);
        if IsWin(outcome) && c.score.Some? && !ScoreFits(outcome, c.score.value) then Err(ScoreMismatch)
        else
          var score := if IsWin(outcome) then c.score else None;
          Ok(store.(matches := store.matches[key := r.(outcome := outcome, score := score, updatedAt := now)],
                    reports := store.reports[key := reports]))
  }

  function Resolved(store: Store, c: Command, now: int): Result<Store, Error>
    requires c.Resolve? && Malformed(c).None?
  {
    var key := KeyOf(c);
    if key !in store.matches then Err(MatchNotFound)
    else
      var r := store.matches[key];
      if r.organizerId != c.organizerId then Err(NotOrganizer)
      else if IsTerminal(r.outcome) then Err(AlreadyTerminal)
      else if IsWin(c.outcome) && r.outcome != Disputed then Err(NeedsDispute)
      else if IsWin(c.outcome) && c.score.Some? && !ScoreFits(c.outcome, c.score.value) then Err(ScoreMismatch)
      else if !IsWin(c.outcome) && c.score.Some? then Err(ScoreWithoutWinner)
      else
        var changed := r.(outcome := c.outcome, score := c.score, updatedAt := now, resolvedBy := Some(c.organizerId));
        Ok(store.(matches := store.matches[key := changed]))
  }

  function Changed(store: Store, c: Command, now: int): Result<Store, Error>
    requires Malformed(c).None?
  {
    match c
    case Create(_, _, _, _, _, _, _) => Created(store, c, now)
    case Report(_, _, _, _, _, _) => Reported(store, c, now)
    case Resolve(_, _, _, _, _, _) => Resolved(store, c, now)
  }

  /** One call: a recorded operation answers without a change. */
  function Exec(store: Store, c: Command, now: int): Result<(Store, MatchRecord), Error> {
    var key := KeyOf(c);
    if Malformed(c).Some? then Err(Malformed(c).value)
    else if c.op in store.operations then
      (if store.operations[c.op] != MarkOf(c) then Err(OperationConflict)
       else if key !in store.matches then Err(MatchNotFound)
       else Ok((store, store.matches[key])))
    else
      match Changed(store, c, now)
      case Err(e) => Err(e)
      case Ok(next) =>
        if key !in next.matches then Err(MatchNotFound)
        else Ok((next.(operations := store.operations[c.op := MarkOf(c)]), next.matches[key]))
  }

  function After(store: Store, c: Command, now: int): Store {
    match Exec(store, c, now) case Ok((next, _)) => next case Err(_) => store
  }

  datatype Timed = Timed(command: Command, now: int)

  function RunAll(run: seq<Timed>): Store {
    if run == [] then EMPTY_STORE
    else After(RunAll(run[..|run| - 1]), run[|run| - 1].command, run[|run| - 1].now)
  }

  // ---- What every run keeps -----------------------------------------------------------------

  /** The reference: nothing until both captains have reported, then what they
      agree on, or a dispute. */
  function Verdict(r: MatchRecord, reports: map<int, MatchOutcome>): MatchOutcome {
    var one, two := r.teamOne.captainId, r.teamTwo.captainId;
    if one !in reports || two !in reports then Pending
    else if reports[one] == reports[two] then reports[one]
    else Disputed
  }

  ghost predicate CaptainsReport(r: MatchRecord, reports: map<int, MatchOutcome>) {
    forall id :: id in reports ==> IsCaptain(r, id) && IsWin(reports[id])
  }

  /** Unresolved, the outcome is the captains' verdict; resolved, it is terminal,
      and a winner was named over conflicting reports. */
  ghost predicate Confirmed(r: MatchRecord, reports: map<int, MatchOutcome>) {
    if r.resolvedBy.None? then r.outcome == Verdict(r, reports)
    else r.resolvedBy == Some(r.organizerId) && IsTerminal(r.outcome) && (IsWin(r.outcome) ==> Verdict(r, reports) == Disputed)
  }

  ghost predicate GoodMatch(r: MatchRecord, reports: map<int, MatchOutcome>) {
    && ValidRecord(r) && CaptainsReport(r, reports) && Confirmed(r, reports)
    && (r.score.Some? ==> IsWin(r.outcome) && ScoreFits(r.outcome, r.score.value))
  }

  ghost predicate GoodHistory(store: Store) {
    && (forall key :: key in store.matches ==> GoodMatch(store.matches[key], ReportsOf(store, key)))
    && (forall key :: key in store.reports ==> key in store.matches)
  }

  lemma TwoCaptains(r: MatchRecord)
    requires ValidRecord(r)
    ensures r.teamOne.captainId != r.teamTwo.captainId
  {
  }

  /** Counting stored reports and their values comes to the verdict. */
  lemma DecidedIsVerdict(r: MatchRecord, reports: map<int, MatchOutcome>)
    requires ValidRecord(r) && CaptainsReport(r, reports)
    ensures Decided(reports) == Verdict(r, reports)
  {
    TwoCaptains(r);
    var one, two := r.teamOne.captainId, r.teamTwo.captainId;
    if one in reports && two in reports {
      SameSet(reports.Keys, {one, two});
    } else {
      OneKey(reports.Keys, if one in reports then one else two);
    }
  }

  lemma OneKey(keys: set<int>, k: int)
    requires forall j :: j in keys ==> j == k
    ensures |keys| <= 1
  {
    SameSet(keys, if k in keys then {k} else {});
  }
}
