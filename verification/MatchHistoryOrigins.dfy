/** Where each part of a stored match comes from, over every run: its teams from
    the command that created it, its outcome from the command that last changed it,
    each report from its captain's last. */
module MatchHistoryOrigins {
  import opened Common
  import opened MatchRecords
  import opened MatchHistory
  import T = MatchHistoryTheorems

  /** The command is accepted, and is not a repetition of a recorded one. */
  predicate Takes(store: Store, c: Command, now: int) { c.op !in store.operations && Exec(store, c, now).Ok? }

  predicate TakenAt(run: seq<Timed>, i: nat)
    requires i < |run|
  {
    Takes(RunAll(run[..i]), run[i].command, run[i].now)
  }

  lemma TakenBefore(run: seq<Timed>, i: nat)
    requires i < |run| - 1
    ensures TakenAt(run[..|run| - 1], i) <==> TakenAt(run, i)
    ensures run[..|run| - 1][i] == run[i]
  {
    assert run[..|run| - 1][..i] == run[..i];
  }

  // ---- The creation -----------------------------------------------------------------------

  /** The record's fixed parts are what this creation names. */
  predicate AsCreated(r: MatchRecord, c: Command, key: Key, at: int) {
    && c.Create? && KeyOf(c) == key && r.guildId == c.guildId && r.matchId == key.1 && r.organizerId == c.organizerId
    && r.teamOne == c.teamOne && r.teamTwo == c.teamTwo && r.draftReference == c.draft && r.createdAt == at
  }

  /** A record comes from a creation or from a record with the same fixed parts. */
  lemma CommandRecords(store: Store, c: Command, now: int, key: Key)
    requires key in After(store, c, now).matches
    ensures var r := After(store, c, now).matches[key];
            if key in store.matches then
              var s := store.matches[key];
              && r.matchId == s.matchId && r.guildId == s.guildId && r.organizerId == s.organizerId && r.teamOne == s.teamOne && r.teamTwo == s.teamTwo
              && r.draftReference == s.draftReference && r.createdAt == s.createdAt
            else
              && Takes(store, c, now) && AsCreated(r, c, key, now) && r.outcome == Pending && r.resolvedBy == None && r.score == None
              && r.updatedAt == now
  {
    hide ValidRecord, Decided, ScoreFits, IsBlank;
  }

  ghost predicate CreatedAt(run: seq<Timed>, key: Key, i: nat)
    requires i < |run| && key in RunAll(run).matches
  {
    TakenAt(run, i) && key !in RunAll(run[..i]).matches && AsCreated(RunAll(run).matches[key], run[i].command, key, run[i].now)
  }

  /** In every run a stored match has the teams, the organizer and the draft that
      its one creation named. */
  lemma {:induction false} MatchesAreAsCreated(run: seq<Timed>, key: Key)
    requires key in RunAll(run).matches
    ensures exists i :: 0 <= i < |run| && CreatedAt(run, key, i)
    decreases |run|
  {
    hide After, Takes;
    if run != [] {
      var n := |run| - 1;
      var before, last := run[..n], run[n];
      CommandRecords(RunAll(before), last.command, last.now, key);
      if key in RunAll(before).matches {
        MatchesAreAsCreated(before, key);
        var i :| 0 <= i < n && CreatedAt(before, key, i);
        TakenBefore(run, i);
        assert before[..i] == run[..i];
        assert CreatedAt(run, key, i);
      } else {
        assert CreatedAt(run, key, n);
      }
    }
  }

  // ---- The last change --------------------------------------------------------------------

  /** What the command leaves in the record it is about. */
  ghost predicate LeftBy(r: MatchRecord, c: Command, at: int) {
    && r.updatedAt == at
    && (c.Create? ==> r.outcome == Pending)
    && (c.Resolve? ==> r.outcome == c.outcome && r.score == c.score && r.resolvedBy == Some(c.organizerId))
    && (c.Report? ==> r.resolvedBy == None && r.outcome in {Pending, Disputed, c.winner} && r.score == if IsWin(r.outcome) then c.score else None)
  }

  lemma CommandLeaves(store: Store, c: Command, now: int, key: Key)
    requires GoodHistory(store) && key in After(store, c, now).matches
    ensures var next := After(store, c, now);
            if Takes(store, c, now) && KeyOf(c) == key then LeftBy(next.matches[key], c, now)
            else key in store.matches && next.matches[key] == store.matches[key] && ReportsOf(next, key) == ReportsOf(store, key)
  {
    hide ScoreFits, IsBlank, ValidRecord, Decided, Verdict;
    if c.Report? && KeyOf(c) in store.matches {
      assert GoodMatch(store.matches[KeyOf(c)], ReportsOf(store, KeyOf(c)));
      if Malformed(c).None? && IsCaptain(store.matches[KeyOf(c)], c.captainId) { ReportDecides(store, c); }
    }
  }

  /** A report leaves its match open, disputed, or won by the side it names. */
  lemma ReportDecides(store: Store, c: Command)
    requires GoodHistory(store) && c.Report? && Malformed(c).None? && KeyOf(c) in store.matches && IsCaptain(store.matches[KeyOf(c)], c.captainId)
    ensures Decided(ReportsOf(store, KeyOf(c))[c.captainId := c.winner]) in {Pending, Disputed, c.winner}
  {
    hide ValidTeam, Decided;
    var r, reports := store.matches[KeyOf(c)], ReportsOf(store, KeyOf(c));
    assert GoodMatch(r, reports);
    T.DecidedIsVerdictAfter(r, reports, c.captainId, c.winner);
  }

  ghost predicate LastChangedAt(run: seq<Timed>, key: Key, i: nat)
    requires i < |run| && key in RunAll(run).matches
  {
    && TakenAt(run, i) && KeyOf(run[i].command) == key && LeftBy(RunAll(run).matches[key], run[i].command, run[i].now)
    && forall j :: i < j < |run| ==> !(TakenAt(run, j) && KeyOf(run[j].command) == key)
  }

  /** In every run a stored match is as its last accepted command left it: the
      outcome, the score, who resolved it and when. */
  lemma {:induction false} OutcomesAreAsLastGiven(run: seq<Timed>, key: Key)
    requires key in RunAll(run).matches
    ensures exists i :: 0 <= i < |run| && LastChangedAt(run, key, i)
    decreases |run|
  {
    hide After, Takes, LeftBy, GoodHistory;
    if run != [] {
      var n := |run| - 1;
      var before, last := run[..n], run[n];
      T.EveryRunIsGood(before);
      CommandLeaves(RunAll(before), last.command, last.now, key);
      if TakenAt(run, n) && KeyOf(last.command) == key {
        assert LastChangedAt(run, key, n);
      } else {
        OutcomesAreAsLastGiven(before, key);
        var i :| 0 <= i < n && LastChangedAt(before, key, i);
        StillLastChanged(run, key, i);
      }
    }
  }

  lemma StillLastChanged(run: seq<Timed>, key: Key, i: nat)
    requires i < |run| - 1 && key in RunAll(run[..|run| - 1]).matches && key in RunAll(run).matches && LastChangedAt(run[..|run| - 1], key, i)
    requires RunAll(run).matches[key] == RunAll(run[..|run| - 1]).matches[key] && !(TakenAt(run, |run| - 1) && KeyOf(run[|run| - 1].command) == key)
    ensures LastChangedAt(run, key, i)
  {
    hide RunAll, TakenAt, LeftBy, KeyOf;
    var n := |run| - 1;
    forall j | i <= j < n ensures run[..n][j] == run[j] && TakenAt(run[..n], j) == TakenAt(run, j) { TakenBefore(run, j); }
  }

  // ---- The reports ------------------------------------------------------------------------

  /** The step is an accepted report of this captain on this match. */
  ghost predicate ReportedAt(run: seq<Timed>, key: Key, id: int, i: nat)
    requires i < |run|
  {
    TakenAt(run, i) && run[i].command.Report? && KeyOf(run[i].command) == key && run[i].command.captainId == id
  }

  lemma CommandReports(store: Store, c: Command, now: int, key: Key, id: int)
    requires id in ReportsOf(After(store, c, now), key)
    ensures var before, after := ReportsOf(store, key), ReportsOf(After(store, c, now), key);
            if Takes(store, c, now) && c.Report? && KeyOf(c) == key && c.captainId == id then after[id] == c.winner
            else id in before && after[id] == before[id]
  {
    hide ValidRecord, Decided, ScoreFits, IsBlank;
  }

  ghost predicate LastReport(run: seq<Timed>, key: Key, id: int, i: nat)
    requires i < |run|
  {
    && ReportedAt(run, key, id, i) && id in ReportsOf(RunAll(run), key) && run[i].command.winner == ReportsOf(RunAll(run), key)[id]
    && forall j :: i < j < |run| ==> !ReportedAt(run, key, id, j)
  }

  /** A stored report is its captain's last accepted one: who changes his mind in
      time is counted as he then says. */
  lemma {:induction false} StoredReportsAreTheLast(run: seq<Timed>, key: Key, id: int)
    requires id in ReportsOf(RunAll(run), key)
    ensures exists i :: 0 <= i < |run| && LastReport(run, key, id, i)
    decreases |run|
  {
    hide After, Takes;
    if run != [] {
      var n := |run| - 1;
      var before, last := run[..n], run[n];
      CommandReports(RunAll(before), last.command, last.now, key, id);
      if ReportedAt(run, key, id, n) {
        assert LastReport(run, key, id, n);
      } else {
        StoredReportsAreTheLast(before, key, id);
        var i :| 0 <= i < n && LastReport(before, key, id, i);
        forall j | i <= j < |run| ensures ReportedAt(run, key, id, j) <==> j < n && ReportedAt(before, key, id, j) {
          if j < n { TakenBefore(run, j); }
        }
        assert run[i] == before[i];
        assert LastReport(run, key, id, i);
      }
    }
  }

  // ---- The winner -------------------------------------------------------------------------

  function Winner(r: MatchRecord): MatchTeam
    requires IsWin(r.outcome)
  {
    if r.outcome == TeamOne then r.teamOne else r.teamTwo
  }

  function SideNamed(c: Command, side: MatchOutcome): MatchTeam
    requires c.Create? && IsWin(side)
  {
    if side == TeamOne then c.teamOne else c.teamTwo
  }

  /** The winner of a decided match is the side its creator named; the two captains
      the creator named both reported that side last, or they differed and the
      organizer the creator named settled on it. */
  lemma WinnersAreAsNamed(run: seq<Timed>, key: Key)
    requires key in RunAll(run).matches && IsWin(RunAll(run).matches[key].outcome)
    ensures var r := RunAll(run).matches[key];
            exists i :: 0 <= i < |run| && CreatedAt(run, key, i) && Winner(r) == SideNamed(run[i].command, r.outcome)
              && if r.resolvedBy.None? then CaptainsAgreed(run, key, run[i].command.teamOne.captainId, run[i].command.teamTwo.captainId, r.outcome)
                 else OrganizerSettled(run, key, run[i].command.organizerId, r.outcome)
  {
    hide ValidTeam, TakenAt, RunAll;
    MatchesAreAsCreated(run, key);
    var r := RunAll(run).matches[key];
    var i :| 0 <= i < |run| && CreatedAt(run, key, i);
    T.OutcomesAreConfirmed(run, key);
    if r.resolvedBy.None? {
      StoredReportsAreTheLast(run, key, r.teamOne.captainId);
      StoredReportsAreTheLast(run, key, r.teamTwo.captainId);
    } else {
      OutcomesAreAsLastGiven(run, key);
      var k :| 0 <= k < |run| && LastChangedAt(run, key, k);
      assert Settles(run[k].command, key, r.organizerId, r.outcome);
    }
  }

  ghost predicate CaptainsAgreed(run: seq<Timed>, key: Key, one: int, two: int, side: MatchOutcome) {
    && (exists i :: 0 <= i < |run| && LastReport(run, key, one, i) && run[i].command.winner == side)
    && (exists i :: 0 <= i < |run| && LastReport(run, key, two, i) && run[i].command.winner == side)
  }

  predicate Settles(c: Command, key: Key, organizerId: int, side: MatchOutcome) {
    c.Resolve? && KeyOf(c) == key && c.organizerId == organizerId && c.outcome == side
  }

  ghost predicate OrganizerSettled(run: seq<Timed>, key: Key, organizerId: int, side: MatchOutcome)
    requires key in RunAll(run).matches
  {
    exists i :: 0 <= i < |run| && LastChangedAt(run, key, i) && Settles(run[i].command, key, organizerId, side)
  }

  // ---- When a match is created --------------------------------------------------------------

  /** A team with a name, nobody in it twice, its captain among its players. */
  ghost predicate Manned(t: MatchTeam) {
    && t.name != "" && (exists p :: p in t.players && p.userId == t.captainId)
    && forall i, j :: 0 <= i < j < |t.players| ==> t.players[i].userId != t.players[j].userId
  }

  /** Two such teams that share nobody, of users with positive IDs. */
  ghost predicate Opposed(one: MatchTeam, two: MatchTeam) {
    && Manned(one) && Manned(two)
    && (forall p, q :: p in one.players && q in two.players ==> p.userId != q.userId)
    && (forall p :: p in one.players || p in two.players ==> p.userId > 0)
  }

  lemma IdIs(players: seq<MatchPlayer>, id: int)
    ensures id in PlayerIds(players) <==> exists p :: p in players && p.userId == id
  {
    var ids := PlayerIds(players);
    if id in ids {
      var i :| 0 <= i < |ids| && ids[i] == id;
      assert players[i] in players;
    }
    if p :| p in players && p.userId == id {
      var i :| 0 <= i < |players| && players[i] == p;
      assert ids[i] == id;
    }
  }

  lemma MannedIsValid(t: MatchTeam)
    ensures ValidTeam(t) <==> Manned(t)
  {
    IdIs(t.players, t.captainId);
    assert forall i :: 0 <= i < |t.players| ==> PlayerIds(t.players)[i] == t.players[i].userId;
  }

  lemma OpposedIsValid(r: MatchRecord)
    requires r.score.None?
    ensures ValidRecord(r) <==> Opposed(r.teamOne, r.teamTwo)
  {
    MannedIsValid(r.teamOne);
    MannedIsValid(r.teamTwo);
    ApartIs(r.teamOne.players, r.teamTwo.players);
    hide ValidTeam, Manned, PlayerIds;
    assert forall p :: p in Participants(r) <==> p in r.teamOne.players || p in r.teamTwo.players;
  }

  lemma ApartIs(a: seq<MatchPlayer>, b: seq<MatchPlayer>)
    ensures (forall id :: id in PlayerIds(a) ==> id !in PlayerIds(b)) <==> forall p, q :: p in a && q in b ==> p.userId != q.userId
  {
    forall p | p in a ensures p.userId in PlayerIds(a) { IdIs(a, p.userId); }
    forall q | q in b ensures q.userId in PlayerIds(b) { IdIs(b, q.userId); }
    hide PlayerIds;
    if forall p, q :: p in a && q in b ==> p.userId != q.userId {
      forall id | id in PlayerIds(a) ensures id !in PlayerIds(b) {
        IdIs(a, id);
        IdIs(b, id);
      }
    }
  }

  predicate AllSpace(text: string) { forall i :: 0 <= i < |text| ==> text[i] == ' ' || text[i] == '\t' || text[i] == '\n' || text[i] == '\r' }

  /** A match is created exactly under a new operation, with two proper teams, under
      an ID (the one given, or with none or an empty one the derived) that is not
      blank and not taken in the guild. */
  lemma CreatesWhen(store: Store, c: Command, now: int)
    requires c.Create?
    ensures var id := if c.given in {None, Some(Named(""))} then FromOperation(c.guildId, c.op) else c.given.value;
            After(store, c, now) != store <==>
              && c.op !in store.operations && Opposed(c.teamOne, c.teamTwo) && (c.guildId, id) !in store.matches
              && !(id.Named? && AllSpace(id.text))
  {
    var r := MatchRecord(IdOf(c), c.guildId, c.organizerId, c.teamOne, c.teamTwo, c.draft, Pending, None, now, now, None);
    OpposedIsValid(r);
    GivenIs(c);
    if IdOf(c).Named? { BlankIs(IdOf(c).text); }
    hide ValidRecord, Opposed, IsBlank, AllSpace, IdOf;
  }

  lemma GivenIs(c: Command)
    requires c.Create?
    ensures IdOf(c) == if c.given in {None, Some(Named(""))} then FromOperation(c.guildId, c.op) else c.given.value
  {
  }

  lemma BlankIs(text: string)
    ensures IsBlank(text) <==> AllSpace(text)
  {
  }

  /** A draft reference that is absent counts as empty. */
  function TextOf(draft: Option<string>): string { if draft.Some? then draft.value else "" }

  /** Two commands that a recorded operation cannot tell apart: all that is given
      counts. */
  predicate SameRequest(c: Command, d: Command) {
    && c.guildId == d.guildId && IdOf(c) == IdOf(d)
    && (c.Create? || d.Create? ==>
          && c.Create? && d.Create? && c.organizerId == d.organizerId && c.teamOne == d.teamOne && c.teamTwo == d.teamTwo
          && TextOf(c.draft) == TextOf(d.draft))
    && (c.Report? || d.Report? ==> c.Report? && d.Report? && c.captainId == d.captainId && c.winner == d.winner && c.score == d.score)
    && (c.Resolve? || d.Resolve? ==> c.Resolve? && d.Resolve? && c.organizerId == d.organizerId && c.outcome == d.outcome && c.score == d.score)
  }

  lemma MarksAreRequests(c: Command, d: Command)
    ensures MarkOf(c) == MarkOf(d) <==> SameRequest(c, d)
  {
  }

  // ---- Reports and resolutions ------------------------------------------------------------

  /** Nobody scores below zero, and it is not tied. */
  predicate ProperScore(score: Option<SeriesScore>) {
    score.Some? ==> score.value.one >= 0 && score.value.two >= 0 && score.value.one != score.value.two
  }

  /** The winner scored more. */
  predicate WonBy(score: Option<SeriesScore>, winner: MatchOutcome) {
    score.Some? ==> if winner == TeamOne then score.value.one > score.value.two else score.value.two > score.value.one
  }

  /** The other captain's stored report names this winner. */
  predicate OtherAgrees(store: Store, key: Key, captainId: int, winner: MatchOutcome)
    requires key in store.matches
  {
    var r, reports := store.matches[key], ReportsOf(store, key);
    var other := if captainId == r.teamOne.captainId then r.teamTwo.captainId else r.teamOne.captainId;
    other in reports && reports[other] == winner
  }

  /** A report counts exactly under a new operation, of a winner, with a score that
      is none or proper, by a captain of a pending match, and when the other captain
      agrees with a score that the winner won. */
  lemma ReportsWhen(store: Store, c: Command, now: int)
    requires GoodHistory(store) && c.Report?
    ensures After(store, c, now) != store <==>
              && c.op !in store.operations && c.winner in {TeamOne, TeamTwo} && ProperScore(c.score)
              && (c.guildId, c.matchId) in store.matches
              && var r := store.matches[(c.guildId, c.matchId)];
              && r.outcome == Pending && c.captainId in {r.teamOne.captainId, r.teamTwo.captainId}
              && (OtherAgrees(store, (c.guildId, c.matchId), c.captainId, c.winner) ==> WonBy(c.score, c.winner))
  {
    hide GoodHistory, Decided;
    var key := KeyOf(c);
    if key in store.matches && IsCaptain(store.matches[key], c.captainId) && IsWin(c.winner) {
      GoodThere(store, key);
      AgreesWhen(store, key, c.captainId, c.winner);
    }
  }

  lemma GoodThere(store: Store, key: Key)
    requires GoodHistory(store) && key in store.matches
    ensures ValidRecord(store.matches[key]) && CaptainsReport(store.matches[key], ReportsOf(store, key))
  {
  }

  lemma AgreesWhen(store: Store, key: Key, captainId: int, winner: MatchOutcome)
    requires key in store.matches && ValidRecord(store.matches[key]) && CaptainsReport(store.matches[key], ReportsOf(store, key))
    requires IsCaptain(store.matches[key], captainId) && IsWin(winner)
    ensures var outcome := Decided(ReportsOf(store, key)[captainId := winner]);
            && (IsWin(outcome) <==> OtherAgrees(store, key, captainId, winner)) && (IsWin(outcome) ==> outcome == winner)
  {
    var r, reports := store.matches[key], ReportsOf(store, key)[captainId := winner];
    TwoCaptains(r);
    DecidedIsVerdict(r, reports);
    hide Decided, ValidRecord;
  }

  /** A resolution counts exactly under a new operation, with a final outcome and a
      score that is none or proper, by the organizer of an open match; a winner only
      over a dispute and with a score that the winner won, no winner without score. */
  lemma ResolvesWhen(store: Store, c: Command, now: int)
    requires c.Resolve?
    ensures After(store, c, now) != store <==>
              && c.op !in store.operations && c.outcome in {TeamOne, TeamTwo, Cancelled, NoContest} && ProperScore(c.score)
              && (c.guildId, c.matchId) in store.matches
              && var r := store.matches[(c.guildId, c.matchId)];
              && r.organizerId == c.organizerId && r.outcome in {Pending, Disputed}
              && if c.outcome in {TeamOne, TeamTwo} then r.outcome == Disputed && WonBy(c.score, c.outcome) else c.score == None
  {
  }
}
