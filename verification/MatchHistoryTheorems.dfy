/** Every history of match results. */
module MatchHistoryTheorems {
  import opened Common
  import opened MatchRecords
  import opened MatchHistory

  // ---- The invariant ----------------------------------------------------------------------

  lemma OthersStayGood(store: Store, next: Store, key: Key)
    requires GoodHistory(store) && key in next.matches && GoodMatch(next.matches[key], ReportsOf(next, key))
    requires forall k :: k != key ==> (k in next.matches <==> k in store.matches) && (k in next.reports <==> k in store.reports)
    requires forall k :: k != key && k in store.matches ==> next.matches[k] == store.matches[k]
    requires forall k :: k != key && k in store.reports ==> next.reports[k] == store.reports[k]
    ensures GoodHistory(next)
  {
    hide GoodMatch;
    forall k | k in next.matches ensures GoodMatch(next.matches[k], ReportsOf(next, k)) {
      if k != key { assert GoodMatch(store.matches[k], ReportsOf(store, k)) && ReportsOf(next, k) == ReportsOf(store, k); }
    }
  }

  lemma CreateKeeps(store: Store, c: Command, now: int)
    requires GoodHistory(store) && c.Create? && Created(store, c, now).Ok?
    ensures GoodHistory(Created(store, c, now).value)
  {
    hide ValidRecord;
    var next := Created(store, c, now).value;
    assert KeyOf(c) !in store.reports;
    OthersStayGood(store, next, KeyOf(c));
  }

  lemma ReportKeeps(store: Store, c: Command, now: int)
    requires GoodHistory(store) && c.Report? && Malformed(c).None? && Reported(store, c, now).Ok?
    ensures GoodHistory(Reported(store, c, now).value)
  {
    hide ValidTeam, Decided;
    var key := KeyOf(c);
    var next := Reported(store, c, now).value;
    var r := store.matches[key];
    assert GoodMatch(r, ReportsOf(store, key));
    DecidedIsVerdict(r, ReportsOf(next, key));
    assert Participants(next.matches[key]) == Participants(r);
    OthersStayGood(store, next, key);
  }

  lemma ResolveKeeps(store: Store, c: Command, now: int)
    requires GoodHistory(store) && c.Resolve? && Malformed(c).None? && Resolved(store, c, now).Ok?
    ensures GoodHistory(Resolved(store, c, now).value)
  {
    hide ValidTeam;
    var key := KeyOf(c);
    var next := Resolved(store, c, now).value;
    var r := store.matches[key];
    assert GoodMatch(r, ReportsOf(store, key));
    assert Participants(next.matches[key]) == Participants(r);
    OthersStayGood(store, next, key);
  }

  lemma RecordingKeeps(store: Store, operations: map<string, Fingerprint>)
    requires GoodHistory(store)
    ensures GoodHistory(store.(operations := operations))
  {
    hide GoodMatch;
    var next := store.(operations := operations);
    forall k | k in next.matches ensures GoodMatch(next.matches[k], ReportsOf(next, k)) { assert ReportsOf(next, k) == ReportsOf(store, k); }
  }

  lemma CommandKeeps(store: Store, c: Command, now: int)
    requires GoodHistory(store)
    ensures GoodHistory(After(store, c, now))
  {
    hide GoodHistory, Created, Reported, Resolved;
    if Malformed(c).None? && c.op !in store.operations && Changed(store, c, now).Ok? {
      match c {
        case Create(_, _, _, _, _, _, _) => CreateKeeps(store, c, now);
        case Report(_, _, _, _, _, _) => ReportKeeps(store, c, now);
        case Resolve(_, _, _, _, _, _) => ResolveKeeps(store, c, now);
      }
      RecordingKeeps(Changed(store, c, now).value, store.operations[c.op := MarkOf(c)]);
    }
  }

  lemma {:induction false} EveryRunIsGood(run: seq<Timed>)
    ensures GoodHistory(RunAll(run))
  {
    hide GoodHistory, After;
    if run == [] {
      EmptyIsGood();
    } else {
      EveryRunIsGood(run[..|run| - 1]);
      CommandKeeps(RunAll(run[..|run| - 1]), run[|run| - 1].command, run[|run| - 1].now);
    }
  }

  lemma EmptyIsGood()
    ensures GoodHistory(EMPTY_STORE)
  {
  }

  ghost predicate BothReport(reports: map<int, MatchOutcome>, one: int, two: int, winner: MatchOutcome) {
    one in reports && two in reports && reports[one] == winner && reports[two] == winner
  }

  ghost predicate TheyDiffer(reports: map<int, MatchOutcome>, one: int, two: int) {
    one in reports && two in reports && reports[one] != reports[two]
  }

  /** In every run an unresolved match has the outcome its captains' stored reports
      decide, and a resolved one names a winner only over a dispute. */
  lemma OutcomesAreConfirmed(run: seq<Timed>, key: Key)
    requires key in RunAll(run).matches
    ensures var r, reports := RunAll(run).matches[key], ReportsOf(RunAll(run), key);
            var one, two := r.teamOne.captainId, r.teamTwo.captainId;
            && (r.resolvedBy.None? && IsWin(r.outcome) ==> one != two && BothReport(reports, one, two, r.outcome))
            && (r.outcome == Disputed ==> TheyDiffer(reports, one, two))
            && (r.resolvedBy.Some? ==> r.resolvedBy.value == r.organizerId && IsTerminal(r.outcome))
            && (r.resolvedBy.Some? && IsWin(r.outcome) ==> TheyDiffer(reports, one, two))
            && (r.resolvedBy.None? && IsTerminal(r.outcome) ==> IsWin(r.outcome))
            && (r.score.Some? ==> IsWin(r.outcome) && (r.outcome == TeamOne <==> r.score.value.one > r.score.value.two))
  {
    EveryRunIsGood(run);
    hide RunAll, ValidTeam;
    var r, reports := RunAll(run).matches[key], ReportsOf(RunAll(run), key);
    assert GoodMatch(r, reports);
    TwoCaptains(r);
  }

  // ---- Steps ------------------------------------------------------------------------------

  /** A terminal match never changes again, nor do the reports on it. */
  lemma TerminalMatchesStay(store: Store, c: Command, now: int, key: Key)
    requires key in store.matches && IsTerminal(store.matches[key].outcome)
    ensures var next := After(store, c, now);
            key in next.matches && next.matches[key] == store.matches[key] && ReportsOf(next, key) == ReportsOf(store, key)
  {
    hide ValidRecord, Decided, ScoreFits;
  }

  /** However it goes on, a run keeps its terminal matches. */
  lemma {:induction false} TerminalForever(run: seq<Timed>, more: seq<Timed>, key: Key)
    requires key in RunAll(run).matches && IsTerminal(RunAll(run).matches[key].outcome)
    ensures key in RunAll(run + more).matches && RunAll(run + more).matches[key] == RunAll(run).matches[key]
    decreases |more|
  {
    hide After;
    if more == [] {
      assert run + more == run;
    } else {
      var last := more[|more| - 1];
      assert (run + more)[..|run + more| - 1] == run + more[..|more| - 1];
      TerminalForever(run, more[..|more| - 1], key);
      TerminalMatchesStay(RunAll(run + more[..|more| - 1]), last.command, last.now, key);
    }
  }

  /** A winner comes about in two ways: a captain confirms what the other has
      reported, or the organizer settles a dispute. */
  lemma HowAWinnerComesAbout(store: Store, c: Command, now: int, key: Key)
    requires GoodHistory(store) && key in store.matches && !IsTerminal(store.matches[key].outcome)
    requires key in After(store, c, now).matches && IsWin(After(store, c, now).matches[key].outcome)
    ensures KeyOf(c) == key
    ensures var before, after := store.matches[key], After(store, c, now).matches[key];
            var one, two := before.teamOne.captainId, before.teamTwo.captainId;
            || (c.Report? && before.outcome == Pending && c.winner == after.outcome && after.resolvedBy.None?
                && ((c.captainId == one && two in ReportsOf(store, key) && ReportsOf(store, key)[two] == c.winner)
                    || (c.captainId == two && one in ReportsOf(store, key) && ReportsOf(store, key)[one] == c.winner)))
            || (c.Resolve? && before.outcome == Disputed && c.organizerId == before.organizerId
                && c.outcome == after.outcome && after.resolvedBy == Some(before.organizerId))
  {
    hide ValidTeam, Decided, ScoreFits;
    assert GoodMatch(store.matches[key], ReportsOf(store, key));
    TwoCaptains(store.matches[key]);
    if KeyOf(c) == key && c.Report? && Malformed(c).None? {
      DecidedIsVerdictAfter(store.matches[key], ReportsOf(store, key), c.captainId, c.winner);
    }
  }

  lemma DecidedIsVerdictAfter(r: MatchRecord, reports: map<int, MatchOutcome>, captainId: int, winner: MatchOutcome)
    requires ValidRecord(r) && CaptainsReport(r, reports) && IsWin(winner)
    ensures IsCaptain(r, captainId) ==> Decided(reports[captainId := winner]) == Verdict(r, reports[captainId := winner])
  {
    if IsCaptain(r, captainId) { DecidedIsVerdict(r, reports[captainId := winner]); }
  }

  // ---- Operations ---------------------------------------------------------------------------

  /** A command that changes the store records its operation, which was new. */
  lemma EveryChangeIsRecorded(store: Store, c: Command, now: int)
    ensures var next := After(store, c, now);
            next != store ==> c.op !in store.operations && next.operations == store.operations[c.op := MarkOf(c)]
    ensures forall op :: op in store.operations ==> op in After(store, c, now).operations && After(store, c, now).operations[op] == store.operations[op]
  {
    hide ValidRecord, Decided, ScoreFits;
  }

  lemma {:induction false} OperationsStay(run: seq<Timed>, more: seq<Timed>, op: string)
    requires op in RunAll(run).operations
    ensures op in RunAll(run + more).operations && RunAll(run + more).operations[op] == RunAll(run).operations[op]
    decreases |more|
  {
    hide After;
    if more == [] {
      assert run + more == run;
    } else {
      var last := more[|more| - 1];
      assert (run + more)[..|run + more| - 1] == run + more[..|more| - 1];
      OperationsStay(run, more[..|more| - 1], op);
      EveryChangeIsRecorded(RunAll(run + more[..|more| - 1]), last.command, last.now);
    }
  }

  lemma {:induction false} MatchesStay(run: seq<Timed>, more: seq<Timed>, key: Key)
    requires key in RunAll(run).matches
    ensures key in RunAll(run + more).matches
    decreases |more|
  {
    hide After;
    if more == [] {
      assert run + more == run;
    } else {
      var last := more[|more| - 1];
      assert (run + more)[..|run + more| - 1] == run + more[..|more| - 1];
      MatchesStay(run, more[..|more| - 1], key);
      MatchStays(RunAll(run + more[..|more| - 1]), last.command, last.now, key);
    }
  }

  lemma MatchStays(store: Store, c: Command, now: int, key: Key)
    requires key in store.matches
    ensures key in After(store, c, now).matches
  {
    hide ValidRecord, Decided, ScoreFits;
  }

  /** Exactly once: however a run goes on after a command that succeeded, the same
      command changes nothing and answers with the match as it then is, and its ID
      never serves another command. */
  lemma ExactlyOnce(run: seq<Timed>, c: Command, now: int, more: seq<Timed>, again: Command, later: int)
    requires Exec(RunAll(run), c, now).Ok? && again.op == c.op
    ensures var store := RunAll(run + [Timed(c, now)] + more);
            && KeyOf(c) in store.matches
            && (MarkOf(again) == MarkOf(c) && Malformed(again).None? ==> Exec(store, again, later) == Ok((store, store.matches[KeyOf(c)])))
            && (MarkOf(again) != MarkOf(c) ==> Exec(store, again, later).Err?)
            && After(store, again, later) == store
  {
    var once := run + [Timed(c, now)];
    assert once[..|once| - 1] == run && once[|once| - 1] == Timed(c, now);
    Recorded(RunAll(run), c, now);
    OperationsStay(once, more, c.op);
    MatchesStay(once, more, KeyOf(c));
    SameMarkSameMatch(again, c);
    hide RunAll;
  }

  lemma Recorded(store: Store, c: Command, now: int)
    requires Exec(store, c, now).Ok?
    ensures var next := After(store, c, now); c.op in next.operations && next.operations[c.op] == MarkOf(c) && KeyOf(c) in next.matches
  {
    hide Changed;
  }

  lemma SameMarkSameMatch(a: Command, b: Command)
    ensures MarkOf(a) == MarkOf(b) ==> KeyOf(a) == KeyOf(b)
  {
  }

  // ---- Where reports come from ------------------------------------------------------------

  ghost predicate Sent(run: seq<Timed>, key: Key, captainId: int, winner: MatchOutcome) {
    exists i :: 0 <= i < |run| && IsReport(run[i].command, key, captainId, winner)
  }

  predicate IsReport(c: Command, key: Key, captainId: int, winner: MatchOutcome) {
    c.Report? && KeyOf(c) == key && c.captainId == captainId && c.winner == winner
  }

  lemma SentBefore(run: seq<Timed>, key: Key, captainId: int, winner: MatchOutcome)
    requires run != [] && Sent(run[..|run| - 1], key, captainId, winner)
    ensures Sent(run, key, captainId, winner)
  {
    var i :| 0 <= i < |run| - 1 && IsReport(run[..|run| - 1][i].command, key, captainId, winner);
    assert run[i] == run[..|run| - 1][i];
  }

  /** A stored report is one its captain sent. */
  lemma {:induction false} ReportsWereSent(run: seq<Timed>, key: Key, id: int)
    ensures id in ReportsOf(RunAll(run), key) ==> Sent(run, key, id, ReportsOf(RunAll(run), key)[id])
  {
    hide After;
    if run != [] {
      var before, last := run[..|run| - 1], run[|run| - 1];
      ReportsWereSent(before, key, id);
      NewReport(RunAll(before), last.command, last.now, key, id);
      var reports := ReportsOf(RunAll(run), key);
      if id in reports {
        if IsReport(last.command, key, id, reports[id]) { assert IsReport(run[|run| - 1].command, key, id, reports[id]); }
        else { SentBefore(run, key, id, reports[id]); }
      }
    }
  }

  lemma NewReport(store: Store, c: Command, now: int, key: Key, id: int)
    ensures var before, after := ReportsOf(store, key), ReportsOf(After(store, c, now), key);
            id in after ==> IsReport(c, key, id, after[id]) || (id in before && before[id] == after[id])
  {
    hide ValidRecord, Decided, ScoreFits;
  }

  /** No winner without the organizer unless each captain sent that very winner. */
  lemma WinnersWereReportedTwice(run: seq<Timed>, key: Key)
    requires key in RunAll(run).matches
    requires var r := RunAll(run).matches[key]; IsWin(r.outcome) && r.resolvedBy.None?
    ensures var r := RunAll(run).matches[key];
            && r.teamOne.captainId != r.teamTwo.captainId
            && Sent(run, key, r.teamOne.captainId, r.outcome) && Sent(run, key, r.teamTwo.captainId, r.outcome)
  {
    OutcomesAreConfirmed(run, key);
    var r := RunAll(run).matches[key];
    ReportsWereSent(run, key, r.teamOne.captainId);
    ReportsWereSent(run, key, r.teamTwo.captainId);
  }
}
