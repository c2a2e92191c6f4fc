/** Which rosters a scrim locks, and that the draft of two unedited teams goes
    ahead with them. */
module ScrimsRosters {
  import opened Common
  import opened Scrims
  import opened ScrimLaunch
  import L = ScrimLaunchTheorems
  import PD = PartyDraft
  import PS = PartyStore
  import PLB = PartyLobby
  import ST = ScrimsTheorems

  // ---- The lock ---------------------------------------------------------------------------

  /** The command locks this challenge of two checked-in teams, for its organizer
      or by override, and each team's locked roster is the one it then has. */
  ghost predicate LocksAsTheyAre(store: Store, c: Command, id: string, after: Challenge) {
    && c.LockRosters? && c.challengeId == id && id in store.challenges && store.challenges[id].state == CheckedIn
    && (c.actorId == store.challenges[id].organizerId || c.override)
    && after.challenger == store.challenges[id].challenger && after.recipient == store.challenges[id].recipient
    && after.challenger in store.teams && after.recipient in store.teams
    && LockedRoster(after, after.challenger) == store.teams[after.challenger].roster
    && LockedRoster(after, after.recipient) == store.teams[after.recipient].roster
  }

  ghost predicate LockedAt(run: seq<Timed>, names: Names, id: string, i: nat)
    requires i < |run| && id in RunAll(run, names).challenges
  {
    LocksAsTheyAre(RunAll(run[..i], names), run[i].command, id, RunAll(run, names).challenges[id])
  }

  lemma LockIsNew(store: Store, c: Command, now: int, names: Names, id: string)
    requires GoodScrims(store)
    requires id in After(store, c, now, names).challenges && After(store, c, now, names).challenges[id].state in {Locked, Launched}
    ensures (id in store.challenges && store.challenges[id].state in {Locked, Launched})
            || LocksAsTheyAre(store, c, id, After(store, c, now, names).challenges[id])
  {
    hide Unique, TeamProblem, TeamAfter, GoodTeam;
    if id in store.challenges { assert GoodChallenge(store, id); }
  }

  /** In every run, a challenge that is locked, or launched, was locked at one step,
      and each team's locked roster is the roster that very team had before it. */
  lemma {:induction false} LockedAsTheyWere(run: seq<Timed>, names: Names, id: string)
    requires id in RunAll(run, names).challenges && RunAll(run, names).challenges[id].state in {Locked, Launched}
    ensures exists i :: 0 <= i < |run| && LockedAt(run, names, id, i)
    decreases |run|
  {
    hide After, GoodScrims, LocksAsTheyAre;
    if run != [] {
      var n := |run| - 1;
      var before, last := run[..n], run[n];
      ST.EveryRunIsGood(before, names);
      LockIsNew(RunAll(before, names), last.command, last.now, names, id);
      if LocksAsTheyAre(RunAll(before, names), last.command, id, RunAll(run, names).challenges[id]) {
        assert LockedAt(run, names, id, n);
      } else {
        LockedAsTheyWere(before, names, id);
        var i :| 0 <= i < n && LockedAt(before, names, id, i);
        ST.LockedRostersStay(RunAll(before, names), last.command, last.now, names, id);
        SameLock(RunAll(run[..i], names), run[i].command, id, RunAll(before, names).challenges[id], RunAll(run, names).challenges[id]);
        assert before[..i] == run[..i] && before[i] == run[i];
        assert LockedAt(run, names, id, i);
      }
    }
  }

  lemma SameLock(store: Store, c: Command, id: string, was: Challenge, now: Challenge)
    requires now.locked == was.locked && now.challenger == was.challenger && now.recipient == was.recipient
    ensures LocksAsTheyAre(store, c, id, was) ==> LocksAsTheyAre(store, c, id, now)
  {
  }

  // ---- The draft of unedited teams --------------------------------------------------------

  /** Nothing after this step saves either of the two teams. */
  ghost predicate Unedited(run: seq<Timed>, names: Names, from: nat, a: string, b: string) {
    forall j :: from < j < |run| && run[j].command.SaveTeam? ==> SavedTeam(run[j].command, names) !in {a, b}
  }

  function SavedTeam(c: Command, names: Names): string
    requires c.SaveTeam?
  {
    names.teamId(c.guildId, c.name)
  }

  lemma TeamStays(store: Store, c: Command, now: int, names: Names, t: string)
    requires t in store.teams && (c.SaveTeam? ==> SavedTeam(c, names) != t)
    ensures var next := After(store, c, now, names); t in next.teams && next.teams[t] == store.teams[t]
  {
    hide Unique, TeamProblem, TeamAfter;
  }

  lemma {:induction false} TeamsStay(run: seq<Timed>, names: Names, from: nat, a: string, b: string, t: string)
    requires from < |run| && run[from].command.LockRosters? && Unedited(run, names, from, a, b) && t in {a, b} && t in RunAll(run[..from], names).teams
    ensures var later := RunAll(run, names).teams; t in later && later[t] == RunAll(run[..from], names).teams[t]
    decreases |run|
  {
    hide After, SavedTeam;
    var n := |run| - 1;
    var before, last := run[..n], run[n];
    if from < n {
      assert before[from] == run[from];
      assert before[..from] == run[..from];
      forall j | from < j < |before| && before[j].command.SaveTeam? ensures SavedTeam(before[j].command, names) !in {a, b} { assert before[j] == run[j]; }
      TeamsStay(before, names, from, a, b, t);
    }
    TeamStays(RunAll(before, names), last.command, last.now, names, t);
  }

  /** With neither team saved since the lock, each team's present captain is on its
      locked roster. */
  lemma CaptainsAreOnTheirRosters(run: seq<Timed>, names: Names, id: string, i: nat)
    requires i < |run| && id in RunAll(run, names).challenges && LockedAt(run, names, id, i)
    requires Unedited(run, names, i, RunAll(run, names).challenges[id].challenger, RunAll(run, names).challenges[id].recipient)
    ensures var store, ch := RunAll(run, names), RunAll(run, names).challenges[id];
            && ch.challenger in store.teams && store.teams[ch.challenger].captainId in LockedRoster(ch, ch.challenger)
            && ch.recipient in store.teams && store.teams[ch.recipient].captainId in LockedRoster(ch, ch.recipient)
  {
    hide RunAll, Unedited;
    var ch, atLock := RunAll(run, names).challenges[id], RunAll(run[..i], names);
    ST.EveryRunIsGood(run[..i], names);
    TeamsStay(run, names, i, ch.challenger, ch.recipient, ch.challenger);
    TeamsStay(run, names, i, ch.challenger, ch.recipient, ch.recipient);
    assert GoodTeam(atLock.teams[ch.challenger]) && GoodTeam(atLock.teams[ch.recipient]);
  }

  lemma LockedStill(run: seq<Timed>, more: seq<Timed>, names: Names, id: string, i: nat)
    requires i < |run| && id in RunAll(run, names).challenges && RunAll(run, names).challenges[id].state in {Locked, Launched} && LockedAt(run, names, id, i)
    ensures id in RunAll(run + more, names).challenges && LockedAt(run + more, names, id, i)
  {
    hide RunAll, LocksAsTheyAre;
    ST.LockedForever(run, more, names, id);
    SameLock(RunAll(run[..i], names), run[i].command, id, RunAll(run, names).challenges[id], RunAll(run + more, names).challenges[id]);
    assert (run + more)[..i] == run[..i] && (run + more)[i] == run[i];
  }

  /** A launched scrim whose ten players answer Ready in time is drafted, on the
      rosters its teams had at the lock, when neither team is saved after the lock. */
  lemma UneditedScrimIsDrafted(x: Services, ch: Challenge, lobby: PS.Lobby, lobbyId: string, answers: seq<(PLB.Env, int)>,
                               run: seq<Timed>, more: seq<Timed>, names: Names, i: nat, automatic: Option<PD.Sides>)
    requires L.TwoFives(ch) && L.Launched(x, ch, lobby, lobbyId) && x.scrims == RunAll(run, names)
    requires forall a :: a in answers ==> L.OnTime(x.party, lobbyId, a)
    requires forall u :: u in LockedPlayers(ch) ==> exists k :: 0 <= k < |answers| && answers[k].1 == u
    requires i < |run| && LockedAt(run, names, ch.challengeId, i) && Unedited(run + more, names, i, ch.challenger, ch.recipient)
    ensures var v, atLock, later := L.AnswerAll(x.party, lobbyId, answers), RunAll(run[..i], names), RunAll(run + more, names);
            && lobbyId in v.store.lobbies && ch.challengeId in later.challenges && ch.challenger in atLock.teams && ch.recipient in atLock.teams
            && var sides := FixedDraftTeams(later, later.challenges[ch.challengeId]);
            && sides.Some? && PD.FormTeams(v.store.lobbies[lobbyId], automatic, sides) == Ok(sides.value)
            && sides.value.blue.captainId == atLock.teams[ch.challenger].captainId && sides.value.blue.participantIds == atLock.teams[ch.challenger].roster
            && sides.value.red.captainId == atLock.teams[ch.recipient].captainId && sides.value.red.participantIds == atLock.teams[ch.recipient].roster
  {
    hide RunAll, Unedited, L.AnswerAll, PD.FormTeams, L.OnTime;
    var id, later := ch.challengeId, RunAll(run + more, names);
    L.LaunchedScrimIsDrafted(x, ch, lobby, lobbyId, answers, run, more, names, automatic);
    LockedStill(run, more, names, id, i);
    ST.LockedForever(run, more, names, id);
    CaptainsAreOnTheirRosters(run + more, names, id, i);
    assert (run + more)[..i] == run[..i] && (run + more)[i] == run[i];
    TeamsStay(run + more, names, i, ch.challenger, ch.recipient, ch.challenger);
    TeamsStay(run + more, names, i, ch.challenger, ch.recipient, ch.recipient);
  }
}
