/** What commands leave of teams and challenges: which are accepted, and over every
    run where a team's data and a challenge's terms come from. */
module ScrimsEffects {
  import opened Common
  import opened Scrims
  import SR = ScrimsRosters

  // ---- Acceptance -------------------------------------------------------------------------

  /** The operation ID is new, or was recorded for this very request. */
  predicate OpFits(store: Store, op: string, entity: string, mark: Mark) {
    op !in store.operations || (store.operations[op].entity == entity && store.operations[op].mark == mark)
  }

  ghost function Users(ids: seq<int>): set<int> { set u | u in ids }

  lemma {:induction false} UniqueCount(ids: seq<int>)
    ensures Distinct(ids) ==> |Users(ids)| == |ids|
  {
    if ids != [] {
      var n := |ids| - 1;
      UniqueCount(ids[..n]);
      assert ids == ids[..n] + [ids[n]];
      forall u ensures u in Users(ids) <==> u in Users(ids[..n]) + {ids[n]} { }
      SameSet(Users(ids), Users(ids[..n]) + {ids[n]});
    }
  }

  /** A team needs its three texts, two to ten players with the captain among them,
      none of them also a substitute, and only its captain or a manager changes it. */
  lemma SavesWhen(store: Store, c: Command, now: int, names: Names)
    requires c.SaveTeam?
    ensures Exec(store, c, now, names).Ok? <==>
              && c.name != "" && c.region != "" && c.availability != ""
              && c.captainId in c.roster && 2 <= |Users(c.roster)| <= 10 && (forall u :: u in c.roster ==> u !in c.substitutes)
              && (forall u :: u in c.roster || u in c.substitutes ==> u > 0)
              && (var id := names.teamId(c.guildId, c.name);
                  && (id in store.teams ==> store.teams[id].captainId == c.captainId || c.override)
                  && OpFits(store, c.op, id, TeamMarkOf(c)))
  {
    var roster, substitutes := Unique(c.roster), Unique(c.substitutes);
    hide Unique;
    SameSet(Users(roster), Users(c.roster));
    UniqueCount(roster);
    forall u ensures u in roster + substitutes <==> u in c.roster || u in c.substitutes { }
  }

  /** A challenge needs a time to come, two different teams of one guild, and the
      captain of the one that challenges. */
  lemma IssuesWhen(store: Store, c: Command, now: int, names: Names)
    requires c.Issue?
    ensures Exec(store, c, now, names).Ok? <==>
              && c.startsAt > now && c.challenger != c.recipient && c.challenger in store.teams && c.recipient in store.teams
              && store.teams[c.challenger].guildId == store.teams[c.recipient].guildId && store.teams[c.challenger].captainId == c.actorId
              && OpFits(store, c.op, names.challengeId(store.teams[c.challenger].guildId, c.op),
                        IssueMark(c.challenger, c.recipient, c.actorId, c.startsAt, c.zone))
  {
  }

  /** Only the challenged captain answers, and a proposal of another time needs one
      to come, while the challenge is open. */
  lemma RespondsWhen(store: Store, c: Command, now: int, names: Names)
    requires c.Respond?
    ensures Exec(store, c, now, names).Ok? <==>
              && c.challengeId in store.challenges && store.challenges[c.challengeId].recipient in store.teams
              && store.teams[store.challenges[c.challengeId].recipient].captainId == c.actorId
              && (store.challenges[c.challengeId].state == Proposed && c.response == Propose ==> c.proposedAt.Some? && c.proposedAt.value > now)
              && OpFits(store, c.op, c.challengeId, RespondMark(c.actorId, c.response, c.proposedAt))
  {
  }

  /** A captain of one of the two teams checks in to an accepted challenge; a
      recorded check-in answers at once. */
  lemma ChecksInWhen(store: Store, c: Command, now: int, names: Names)
    requires c.CheckIn?
    ensures Exec(store, c, now, names).Ok? <==>
              && c.challengeId in store.challenges && OpFits(store, c.op, c.challengeId, CheckInMark(c.actorId))
              && (c.op in store.operations || var ch := store.challenges[c.challengeId];
                  && ch.state in {Accepted, CheckedIn} && ch.challenger in store.teams && ch.recipient in store.teams
                  && c.actorId in {store.teams[ch.challenger].captainId, store.teams[ch.recipient].captainId})
  {
  }

  /** The organizer, or an override, locks once both teams are checked in. */
  lemma LocksWhen(store: Store, c: Command, now: int, names: Names)
    requires c.LockRosters?
    ensures Exec(store, c, now, names).Ok? <==>
              && c.challengeId in store.challenges && OpFits(store, c.op, c.challengeId, LockMark(c.actorId, c.override))
              && (c.op in store.operations || var ch := store.challenges[c.challengeId];
                  && ch.state == CheckedIn && (c.actorId == ch.organizerId || c.override) && ch.challenger in store.teams && ch.recipient in store.teams)
  {
  }

  /** A locked challenge is launched, and a launched one only into the same lobby. */
  lemma LaunchesWhen(store: Store, c: Command, now: int, names: Names)
    requires c.MarkLaunched?
    ensures Exec(store, c, now, names).Ok? <==>
              && c.challengeId in store.challenges && OpFits(store, c.op, c.challengeId, LaunchMark(c.eventId, c.lobbyId))
              && (var ch := store.challenges[c.challengeId];
                  ch.state in {Locked, Launched} && (ch.lobbyId.Some? && ch.lobbyId.value != "" ==> ch.lobbyId.value == c.lobbyId))
  {
  }

  // ---- Teams ------------------------------------------------------------------------------

  /** `a` is named before `b` is. */
  ghost predicate Before(ids: seq<int>, a: int, b: int) { exists p :: 0 <= p < |ids| && ids[p] == a && b !in ids[..p + 1] }

  /** Each user once, in the order in which they are first named. */
  ghost predicate EachOnce(ids: seq<int>, r: seq<int>) {
    Distinct(r) && (forall u :: u in r <==> u in ids) && forall i, j :: 0 <= i < j < |r| ==> Before(ids, r[i], r[j])
  }

  lemma {:induction false} UniqueIs(ids: seq<int>)
    ensures EachOnce(ids, Unique(ids))
  {
    var r := Unique(ids);
    if ids != [] {
      var n := |ids| - 1;
      var s := Unique(ids[..n]);
      UniqueIs(ids[..n]);
      forall i, j | 0 <= i < j < |r| ensures Before(ids, r[i], r[j]) {
        if j < |s| { BeforeStays(ids, r[i], r[j]); } else { BeforeLast(ids, r[i]); }
      }
    }
  }

  lemma BeforeStays(ids: seq<int>, a: int, b: int)
    requires ids != [] && Before(ids[..|ids| - 1], a, b)
    ensures Before(ids, a, b)
  {
    var less := ids[..|ids| - 1];
    var p :| 0 <= p < |less| && less[p] == a && b !in less[..p + 1];
    assert ids[..p + 1] == less[..p + 1] && ids[p] == a;
  }

  lemma BeforeLast(ids: seq<int>, a: int)
    requires ids != [] && a in ids[..|ids| - 1] && ids[|ids| - 1] !in ids[..|ids| - 1]
    ensures Before(ids, a, ids[|ids| - 1])
  {
    var less := ids[..|ids| - 1];
    var p :| 0 <= p < |less| && less[p] == a;
    assert less[..p + 1] == ids[..p + 1] && forall u :: u in less[..p + 1] ==> u in less;
  }

  /** What a save decides of a team. */
  ghost predicate DataAsGiven(t: Team, c: Command) {
    && c.SaveTeam? && t.captainId == c.captainId && t.region == c.region && t.availability == c.availability
    && EachOnce(c.roster, t.roster) && EachOnce(c.substitutes, t.substitutes)
  }

  /** What the first save decides for good. */
  predicate NamedAsGiven(t: Team, c: Command) { c.SaveTeam? && t.guildId == c.guildId && t.name == c.name }

  /** The command is an accepted save of this team. */
  predicate SavesTeam(store: Store, c: Command, now: int, names: Names, t: string) {
    c.SaveTeam? && SR.SavedTeam(c, names) == t && Exec(store, c, now, names).Ok?
  }

  lemma CommandTeams(store: Store, c: Command, now: int, names: Names, t: string)
    requires t in After(store, c, now, names).teams
    ensures var team := After(store, c, now, names).teams[t];
            if !SavesTeam(store, c, now, names, t) then t in store.teams && team == store.teams[t]
            else DataAsGiven(team, c) && team.teamId == t
                 && if t in store.teams then team.guildId == store.teams[t].guildId && team.name == store.teams[t].name else NamedAsGiven(team, c)
  {
    if c.SaveTeam? {
      UniqueIs(c.roster);
      UniqueIs(c.substitutes);
    }
    hide Unique, EachOnce;
  }

  ghost predicate SavedLast(run: seq<Timed>, names: Names, t: string, i: nat)
    requires i < |run|
  {
    && SavesTeam(RunAll(run[..i], names), run[i].command, run[i].now, names, t)
    && forall j :: i < j < |run| ==> !SavesTeam(RunAll(run[..j], names), run[j].command, run[j].now, names, t)
  }

  ghost predicate SavedFirst(run: seq<Timed>, names: Names, t: string, i: nat)
    requires i < |run|
  {
    SavesTeam(RunAll(run[..i], names), run[i].command, run[i].now, names, t) && t !in RunAll(run[..i], names).teams
  }

  lemma SaveIsLast(run: seq<Timed>, names: Names, t: string, i: nat)
    requires i < |run|
    requires var n := |run| - 1; var yes := SavesTeam(RunAll(run[..n], names), run[n].command, run[n].now, names, t);
             if yes then i == n else i < n && SavedLast(run[..n], names, t, i)
    ensures SavedLast(run, names, t, i)
  {
    hide RunAll, SavesTeam;
    var n := |run| - 1;
    forall j | 0 <= j < n ensures run[..n][..j] == run[..j] && run[..n][j] == run[j] { }
  }

  lemma SaveIsFirst(run: seq<Timed>, names: Names, t: string, i: nat)
    requires i < |run|
    requires i < |run| - 1 && SavedFirst(run[..|run| - 1], names, t, i)
    ensures SavedFirst(run, names, t, i)
  {
    hide RunAll, SavesTeam;
    assert run[..|run| - 1][..i] == run[..i];
  }

  lemma NoTeams(names: Names)
    ensures RunAll([], names).teams == map[] && RunAll([], names).challenges == map[]
  {
  }

  /** In every run a team has the captain, rosters and texts of its last accepted
      save, and the guild and name of its first. */
  lemma {:induction false} TeamsAreAsLastSaved(run: seq<Timed>, names: Names, t: string)
    requires t in RunAll(run, names).teams
    ensures exists i :: 0 <= i < |run| && SavedLast(run, names, t, i) && DataAsGiven(RunAll(run, names).teams[t], run[i].command)
    ensures exists i :: 0 <= i < |run| && SavedFirst(run, names, t, i) && NamedAsGiven(RunAll(run, names).teams[t], run[i].command)
    decreases |run|
  {
    hide After, SavesTeam, DataAsGiven, SavedLast;
    if run == [] {
      NoTeams(names);
    } else {
      var n := |run| - 1;
      var before, last := run[..n], run[n];
      CommandTeams(RunAll(before, names), last.command, last.now, names, t);
      if t in RunAll(before, names).teams { TeamsAreAsLastSaved(before, names, t); }
      SavedFor(run, names, t);
      NamedFor(run, names, t);
    }
  }

  lemma SavedFor(run: seq<Timed>, names: Names, t: string)
    requires run != [] && t in RunAll(run, names).teams
    requires var n := |run| - 1; var before, team := RunAll(run[..n], names), RunAll(run, names).teams[t];
             if SavesTeam(before, run[n].command, run[n].now, names, t) then DataAsGiven(team, run[n].command)
             else t in before.teams && team == before.teams[t]
                  && exists i :: 0 <= i < n && SavedLast(run[..n], names, t, i) && DataAsGiven(before.teams[t], run[..n][i].command)
    ensures exists i :: 0 <= i < |run| && SavedLast(run, names, t, i) && DataAsGiven(RunAll(run, names).teams[t], run[i].command)
  {
    hide RunAll, SavesTeam, DataAsGiven, SavedLast;
    var n := |run| - 1;
    var before := RunAll(run[..n], names);
    if SavesTeam(before, run[n].command, run[n].now, names, t) {
      SaveIsLast(run, names, t, n);
    } else {
      var i :| 0 <= i < n && SavedLast(run[..n], names, t, i) && DataAsGiven(before.teams[t], run[..n][i].command);
      SaveIsLast(run, names, t, i);
      assert run[..n][i] == run[i];
    }
  }

  lemma NamedFor(run: seq<Timed>, names: Names, t: string)
    requires run != [] && t in RunAll(run, names).teams
    requires var n := |run| - 1; var before, team := RunAll(run[..n], names), RunAll(run, names).teams[t];
             if t !in before.teams then SavesTeam(before, run[n].command, run[n].now, names, t) && NamedAsGiven(team, run[n].command)
             else team.guildId == before.teams[t].guildId && team.name == before.teams[t].name
                  && exists i :: 0 <= i < n && SavedFirst(run[..n], names, t, i) && NamedAsGiven(before.teams[t], run[..n][i].command)
    ensures exists i :: 0 <= i < |run| && SavedFirst(run, names, t, i) && NamedAsGiven(RunAll(run, names).teams[t], run[i].command)
  {
    hide RunAll, SavesTeam;
    var n := |run| - 1;
    var before := RunAll(run[..n], names);
    if t !in before.teams {
      assert SavedFirst(run, names, t, n);
    } else {
      var i :| 0 <= i < n && SavedFirst(run[..n], names, t, i) && NamedAsGiven(before.teams[t], run[..n][i].command);
      SaveIsFirst(run, names, t, i);
      assert run[..n][i] == run[i];
    }
  }

  // ---- Terms of a challenge ---------------------------------------------------------------

  /** The command is an accepted counter-proposal to this open challenge. */
  predicate Counters(store: Store, c: Command, now: int, names: Names, id: string) {
    && c.Respond? && c.challengeId == id && c.response == Propose && Exec(store, c, now, names).Ok?
    && id in store.challenges && store.challenges[id].state == Proposed
  }

  /** The command is an accepted challenge, the first under this ID. */
  predicate IssuesFirst(store: Store, c: Command, now: int, names: Names, id: string) {
    && c.Issue? && id !in store.challenges && Exec(store, c, now, names).Ok?
    && c.challenger in store.teams && names.challengeId(store.teams[c.challenger].guildId, c.op) == id
  }

  predicate Proposes(store: Store, c: Command, now: int, names: Names, id: string) {
    Counters(store, c, now, names, id) || IssuesFirst(store, c, now, names, id)
  }

  /** The time, the organizer and the challenging team are those of this proposal,
      made for a time to come by the captain of that team. */
  predicate TermsAsProposed(ch: Challenge, store: Store, c: Command, now: int) {
    && (c.Issue? || (c.Respond? && c.proposedAt.Some?)) && ch.organizerId == c.actorId
    && ch.startsAt == (if c.Issue? then c.startsAt else c.proposedAt.value) && ch.startsAt > now
    && ch.challenger in store.teams && store.teams[ch.challenger].captainId == c.actorId
  }

  /** The two teams, of one guild, and the zone are those of this challenge. */
  predicate AsIssued(ch: Challenge, store: Store, c: Command) {
    && c.Issue? && {ch.challenger, ch.recipient} == {c.challenger, c.recipient} && c.challenger != c.recipient && ch.zone == c.zone
    && c.challenger in store.teams && c.recipient in store.teams
    && store.teams[c.challenger].guildId == ch.guildId && store.teams[c.recipient].guildId == ch.guildId
  }

  ghost predicate SameTerms(a: Challenge, b: Challenge) {
    && a.challengeId == b.challengeId && a.guildId == b.guildId && a.challenger == b.challenger && a.recipient == b.recipient
    && a.startsAt == b.startsAt && a.zone == b.zone && a.organizerId == b.organizerId
  }

  lemma CommandTerms(store: Store, c: Command, now: int, names: Names, id: string)
    requires id in After(store, c, now, names).challenges
    ensures var ch := After(store, c, now, names).challenges[id];
            && (id in store.challenges || IssuesFirst(store, c, now, names, id))
            && (Proposes(store, c, now, names, id) ==> TermsAsProposed(ch, store, c, now))
            && (IssuesFirst(store, c, now, names, id) ==> AsIssued(ch, store, c))
            && (id in store.challenges ==>
                  var was := store.challenges[id];
                  && (!Counters(store, c, now, names, id) ==> SameTerms(was, ch))
                  && (Counters(store, c, now, names, id) ==>
                        ch.challengeId == was.challengeId && ch.guildId == was.guildId && ch.zone == was.zone
                        && ch.challenger == was.recipient && ch.recipient == was.challenger))
  {
    hide Unique, TeamProblem, TeamAfter, TeamMarkOf;
  }

  ghost predicate ProposedLast(run: seq<Timed>, names: Names, id: string, i: nat)
    requires i < |run|
  {
    && Proposes(RunAll(run[..i], names), run[i].command, run[i].now, names, id)
    && forall j :: i < j < |run| ==> !Proposes(RunAll(run[..j], names), run[j].command, run[j].now, names, id)
  }

  lemma ProposalIsLast(run: seq<Timed>, names: Names, id: string, i: nat)
    requires i < |run|
    requires var n := |run| - 1; var yes := Proposes(RunAll(run[..n], names), run[n].command, run[n].now, names, id);
             if yes then i == n else i < n && ProposedLast(run[..n], names, id, i)
    ensures ProposedLast(run, names, id, i)
  {
    hide RunAll, Proposes;
    var n := |run| - 1;
    forall j | 0 <= j < n ensures run[..n][..j] == run[..j] && run[..n][j] == run[j] { }
  }

  /** In every run a challenge has the time and organizer of its last accepted
      proposal, made for a time to come by the captain of the team that challenges. */
  lemma {:induction false} TermsAreAsLastProposed(run: seq<Timed>, names: Names, id: string)
    requires id in RunAll(run, names).challenges
    ensures exists i :: 0 <= i < |run| && ProposedLast(run, names, id, i)
              && TermsAsProposed(RunAll(run, names).challenges[id], RunAll(run[..i], names), run[i].command, run[i].now)
    decreases |run|
  {
    hide After, Proposes, Counters, IssuesFirst, TermsAsProposed, AsIssued, ProposedLast, SameTerms;
    if run == [] {
      NoTeams(names);
    } else {
      var n := |run| - 1;
      var before, last := run[..n], run[n];
      CommandTerms(RunAll(before, names), last.command, last.now, names, id);
      ProposesIs(RunAll(before, names), last.command, last.now, names, id);
      if !Proposes(RunAll(before, names), last.command, last.now, names, id) { TermsAreAsLastProposed(before, names, id); }
      TermsFor(run, names, id);
    }
  }

  lemma ProposesIs(store: Store, c: Command, now: int, names: Names, id: string)
    ensures Proposes(store, c, now, names, id) <==> Counters(store, c, now, names, id) || IssuesFirst(store, c, now, names, id)
  {
  }

  lemma TermsFor(run: seq<Timed>, names: Names, id: string)
    requires run != [] && id in RunAll(run, names).challenges
    requires var n := |run| - 1; var before, ch := RunAll(run[..n], names), RunAll(run, names).challenges[id];
             if Proposes(before, run[n].command, run[n].now, names, id) then TermsAsProposed(ch, before, run[n].command, run[n].now)
             else id in before.challenges && SameTerms(before.challenges[id], ch)
                  && exists i :: 0 <= i < n && ProposedLast(run[..n], names, id, i)
                       && TermsAsProposed(before.challenges[id], RunAll(run[..n][..i], names), run[..n][i].command, run[..n][i].now)
    ensures exists i :: 0 <= i < |run| && ProposedLast(run, names, id, i)
              && TermsAsProposed(RunAll(run, names).challenges[id], RunAll(run[..i], names), run[i].command, run[i].now)
  {
    hide RunAll, Proposes, TermsAsProposed, ProposedLast, SameTerms;
    var n := |run| - 1;
    var before, ch := RunAll(run[..n], names), RunAll(run, names).challenges[id];
    if Proposes(before, run[n].command, run[n].now, names, id) {
      ProposalIsLast(run, names, id, n);
    } else {
      var i :| 0 <= i < n && ProposedLast(run[..n], names, id, i)
               && TermsAsProposed(before.challenges[id], RunAll(run[..n][..i], names), run[..n][i].command, run[..n][i].now);
      ProposalIsLast(run, names, id, i);
      assert run[..n][..i] == run[..i] && run[..n][i] == run[i];
      TermsStay(before.challenges[id], ch, RunAll(run[..i], names), run[i].command, run[i].now);
    }
  }

  lemma TermsStay(was: Challenge, ch: Challenge, store: Store, c: Command, now: int)
    requires SameTerms(was, ch) && TermsAsProposed(was, store, c, now)
    ensures TermsAsProposed(ch, store, c, now)
  {
  }

  ghost predicate IssuedAt(run: seq<Timed>, names: Names, id: string, i: nat)
    requires i < |run|
  {
    IssuesFirst(RunAll(run[..i], names), run[i].command, run[i].now, names, id)
  }

  /** In every run a challenge stays between the two teams it was issued between,
      which were of its guild. */
  lemma {:induction false} TeamsAreAsIssued(run: seq<Timed>, names: Names, id: string)
    requires id in RunAll(run, names).challenges
    ensures exists i :: 0 <= i < |run| && IssuedAt(run, names, id, i)
              && AsIssued(RunAll(run, names).challenges[id], RunAll(run[..i], names), run[i].command)
    decreases |run|
  {
    hide After, Counters, IssuesFirst, TermsAsProposed, AsIssued;
    if run != [] {
      var n := |run| - 1;
      var before, last := run[..n], run[n];
      CommandTerms(RunAll(before, names), last.command, last.now, names, id);
      var ch := RunAll(run, names).challenges[id];
      if id !in RunAll(before, names).challenges {
        assert IssuedAt(run, names, id, n);
      } else {
        TeamsAreAsIssued(before, names, id);
        var was := RunAll(before, names).challenges[id];
        var i :| 0 <= i < n && IssuedAt(before, names, id, i) && AsIssued(was, RunAll(before[..i], names), before[i].command);
        assert before[..i] == run[..i] && before[i] == run[i];
        IssueStays(was, ch, RunAll(run[..i], names), run[i].command);
        assert IssuedAt(run, names, id, i);
      }
    }
  }

  lemma IssueStays(was: Challenge, ch: Challenge, store: Store, c: Command)
    requires was.guildId == ch.guildId && was.zone == ch.zone && AsIssued(was, store, c)
    requires (was.challenger == ch.challenger && was.recipient == ch.recipient) || (was.challenger == ch.recipient && was.recipient == ch.challenger)
    ensures AsIssued(ch, store, c)
  {
  }
}
