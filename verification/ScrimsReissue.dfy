/** Re-issuing a recorded scrim operation: when it changes nothing, and when not. */
module ScrimsReissue {
  import opened Common
  import opened Scrims
  import opened ScrimsTheorems

  function EntityOf(store: Store, c: Command, names: Names): string {
    match c
    case SaveTeam(guildId, _, name, _, _, _, _, _, _) => names.teamId(guildId, name)
    case Issue(challenger, _, _, _, _, op) => if challenger in store.teams then names.challengeId(store.teams[challenger].guildId, op) else ""
    case _ => c.challengeId
  }

  function MarkOf(c: Command): Mark {
    match c
    case SaveTeam(_, _, _, _, _, _, _, _, _) => TeamMarkOf(c)
    case Issue(challenger, recipient, actorId, startsAt, zone, _) => IssueMark(challenger, recipient, actorId, startsAt, zone)
    case Respond(_, actorId, response, _, proposedAt) => RespondMark(actorId, response, proposedAt)
    case CheckIn(_, actorId, _) => CheckInMark(actorId)
    case LockRosters(_, actorId, _, override) => LockMark(actorId, override)
    case MarkLaunched(_, eventId, lobbyId, _) => LaunchMark(eventId, lobbyId)
  }

  /** An answer that was recorded has been given; an issued challenge exists. */
  ghost predicate Done(store: Store, what: Operation) {
    && (what.mark.IssueMark? ==> what.entity in store.challenges)
    && (what.mark.RespondMark? && what.mark.response != Propose ==>
          what.entity in store.challenges && store.challenges[what.entity].state != Proposed)
  }

  ghost predicate AllDone(store: Store) { forall op :: op in store.operations ==> Done(store, store.operations[op]) }

  lemma RespondIsDone(store: Store, c: Command, now: int)
    requires AllDone(store) && c.Respond? && Responds(store, c, now).Ok?
    ensures AllDone(Responds(store, c, now).value)
  {
    var next := Responds(store, c, now).value;
    forall op | op in next.operations ensures Done(next, next.operations[op]) {
      if op in store.operations { assert Done(store, store.operations[op]); }
    }
  }

  /** What a command that succeeds records. */
  lemma RecordsItself(store: Store, c: Command, now: int, names: Names)
    requires !c.Respond? && Exec(store, c, now, names).Ok?
    ensures var next, what := After(store, c, now, names), Operation(EntityOf(store, c, names), MarkOf(c));
            && next.operations == (if c.op in store.operations then store.operations else store.operations[c.op := what])
            && (c.Issue? ==> what.entity in next.challenges)
  {
    hide Unique, TeamProblem, TeamAfter;
  }

  lemma OthersAreDone(store: Store, c: Command, now: int, names: Names)
    requires AllDone(store) && GoodScrims(store) && !c.Respond? && Exec(store, c, now, names).Ok?
    ensures AllDone(After(store, c, now, names))
  {
    hide After, Exec, GoodScrims;
    var next := After(store, c, now, names);
    RecordsItself(store, c, now, names);
    forall op | op in next.operations ensures Done(next, next.operations[op]) {
      if op in store.operations {
        var what := store.operations[op];
        assert Done(store, what);
        StepsByOne(store, c, now, names, what.entity);
      } else {
        assert op == c.op;
      }
    }
  }

  lemma {:induction false} RecordedIsDone(run: seq<Timed>, names: Names)
    ensures AllDone(RunAll(run, names))
  {
    hide AllDone, Saves, Issues, Responds, ChecksIn, Locks, Launches, GoodScrims;
    if run == [] {
      assert AllDone(EMPTY_STORE) by { NothingDone(); }
    } else {
      var before, last := run[..|run| - 1], run[|run| - 1];
      RecordedIsDone(before, names);
      EveryRunIsGood(before, names);
      if Exec(RunAll(before, names), last.command, last.now, names).Ok? {
        if last.command.Respond? { RespondIsDone(RunAll(before, names), last.command, last.now); }
        else { OthersAreDone(RunAll(before, names), last.command, last.now, names); }
      }
    }
  }

  lemma NothingDone()
    ensures AllDone(EMPTY_STORE)
  {
  }

  /** When a recorded command, issued again, still does something: a team saved over
      later data, a proposal that is the recipient's to make again, a launch under
      another event. */
  predicate StillApplies(store: Store, c: Command, now: int, names: Names) {
    match c
    case SaveTeam(guildId, captainId, name, _, _, _, _, _, override) =>
      var id := names.teamId(guildId, name);
      && TeamProblem(c).None? && (id in store.teams && store.teams[id].captainId != captainId ==> override)
      && (id !in store.teams || store.teams[id] != TeamAfter(store, c, id))
    case Respond(id, actorId, response, _, proposedAt) =>
      && response == Propose && IsOfRecipient(store, c, id) && store.challenges[id].state == Proposed
      && proposedAt.Some? && proposedAt.value > now
    case MarkLaunched(id, eventId, lobbyId, _) =>
      && id in store.challenges && store.challenges[id].state in {Locked, Launched}
      && (store.challenges[id].lobbyId.Some? && store.challenges[id].lobbyId.value != "" ==> store.challenges[id].lobbyId.value == lobbyId)
      && (store.challenges[id].state, store.challenges[id].eventId, store.challenges[id].lobbyId) != (Launched, Some(eventId), Some(lobbyId))
    case _ => false
  }

  /** In every run, issuing a recorded command again changes the store exactly when
      it still applies; another command under its ID changes nothing. */
  lemma ReissueChangesWhen(run: seq<Timed>, names: Names, c: Command, now: int)
    requires c.op in RunAll(run, names).operations
    ensures var store := RunAll(run, names);
            After(store, c, now, names) != store <==>
              store.operations[c.op] == Operation(EntityOf(store, c, names), MarkOf(c)) && StillApplies(store, c, now, names)
  {
    EveryRunIsGood(run, names);
    RecordedIsDone(run, names);
    hide RunAll;
    Reissued(RunAll(run, names), names, c, now);
  }

  lemma Reissued(store: Store, names: Names, c: Command, now: int)
    requires GoodScrims(store) && AllDone(store) && c.op in store.operations
    ensures After(store, c, now, names) != store <==>
              store.operations[c.op] == Operation(EntityOf(store, c, names), MarkOf(c)) && StillApplies(store, c, now, names)
  {
    assert Done(store, store.operations[c.op]);
    hide GoodScrims, AllDone, Unique, TeamProblem;
    match c {
      case SaveTeam(_, _, _, _, _, _, _, _, _) => SaveReissued(store, names, c, now);
      case Issue(_, _, _, _, _, _) =>
      case Respond(_, _, _, _, _) => RespondReissued(store, names, c, now);
      case CheckIn(_, _, _) =>
      case LockRosters(_, _, _, _) =>
      case MarkLaunched(_, _, _, _) => LaunchReissued(store, names, c, now);
    }
  }

  lemma SaveReissued(store: Store, names: Names, c: Command, now: int)
    requires c.SaveTeam? && c.op in store.operations
    ensures After(store, c, now, names) != store <==>
              store.operations[c.op] == Operation(EntityOf(store, c, names), MarkOf(c)) && StillApplies(store, c, now, names)
  {
    hide Unique, TeamProblem, TeamAfter;
    var id := names.teamId(c.guildId, c.name);
    var team := TeamAfter(store, c, id);
    if id in store.teams && store.teams[id] == team { assert store.teams[id := team] == store.teams; }
    assert store.teams[id := team][id] == team;
  }

  lemma RespondReissued(store: Store, names: Names, c: Command, now: int)
    requires GoodScrims(store) && c.Respond? && c.op in store.operations && Done(store, store.operations[c.op])
    ensures After(store, c, now, names) != store <==>
              store.operations[c.op] == Operation(EntityOf(store, c, names), MarkOf(c)) && StillApplies(store, c, now, names)
  {
    if c.challengeId in store.challenges { assert GoodChallenge(store, c.challengeId); }
    hide GoodTeam, GoodScrims;
    if StillApplies(store, c, now, names) && Responds(store, c, now).Ok? {
      var ch := store.challenges[c.challengeId];
      assert Responds(store, c, now).value.challenges[c.challengeId].challenger == ch.recipient != ch.challenger;
    }
  }

  lemma LaunchReissued(store: Store, names: Names, c: Command, now: int)
    requires GoodScrims(store) && c.MarkLaunched? && c.op in store.operations
    ensures After(store, c, now, names) != store <==>
              store.operations[c.op] == Operation(EntityOf(store, c, names), MarkOf(c)) && StillApplies(store, c, now, names)
  {
    hide GoodTeam, GoodScrims;
    if c.challengeId in store.challenges {
      var ch := store.challenges[c.challengeId];
      var changed := ch.(state := Launched, eventId := Some(c.eventId), lobbyId := Some(c.lobbyId));
      if changed == ch { assert store.challenges[c.challengeId := changed] == store.challenges; }
      assert store.challenges[c.challengeId := changed][c.challengeId] == changed;
    }
  }

  // ---- What that means --------------------------------------------------------------------

  /** A team edit delivered a second time undoes the edit made in between. */
  lemma ReplayedSaveUndoesTheEdit(store: Store, a: Command, b: Command, now: int, names: Names)
    requires a.SaveTeam? && b.SaveTeam? && a.op != b.op && a.captainId == b.captainId
    requires names.teamId(a.guildId, a.name) == names.teamId(b.guildId, b.name)
    requires Exec(store, a, now, names).Ok? && Exec(After(store, a, now, names), b, now, names).Ok?
    ensures var id, edited := names.teamId(a.guildId, a.name), After(After(store, a, now, names), b, now, names);
            && edited.teams[id].roster == Unique(b.roster)
            && After(edited, a, now, names).teams[id].roster == Unique(a.roster)
  {
    hide Unique, TeamProblem;
  }

  /** An earlier proposal delivered again takes the place of the counter-proposal,
      while its time is still to come. */
  lemma ReplayedProposalComesBack(store: Store, id: string, first: int, second: int, op: string, other: string, now: int, names: Names)
    requires GoodScrims(store) && id in store.challenges && store.challenges[id].state == Proposed
    requires op != other && op !in store.operations && other !in store.operations && first > now && second > now
    ensures var ch := store.challenges[id];
            var his, hers := store.teams[ch.recipient].captainId, store.teams[ch.challenger].captainId;
            var proposed := After(store, Respond(id, his, Propose, op, Some(first)), now, names);
            var countered := After(proposed, Respond(id, hers, Propose, other, Some(second)), now, names);
            && countered.challenges[id].startsAt == second
            && After(countered, Respond(id, his, Propose, op, Some(first)), now, names).challenges[id].startsAt == first
  {
    assert GoodChallenge(store, id);
    hide GoodScrims, GoodTeam, Handshake;
  }
}
