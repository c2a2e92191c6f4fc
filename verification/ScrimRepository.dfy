/** ScrimRepository of utils/scrims.py: one transaction a method. */
module ScrimRepositories {
  import opened Common
  import opened Scrims

  function StoredChallenge(store: Store, id: string): Result<Challenge, Error> {
    if id in store.challenges then Ok(store.challenges[id]) else Err(ChallengeNotFound)
  }

  /** The challenge a command answers with, or its error. */
  function Answered(r: Result<Store, Error>, id: string): Result<Challenge, Error> {
    if r.Ok? then StoredChallenge(r.value, id) else Err(r.error)
  }

  class ScrimRepository {
    const names: Names
    var teams: map<string, Team>
    var challenges: map<string, Challenge>
    var operations: map<string, Operation>

    constructor (names: Names)
      ensures this.names == names && Contents() == EMPTY_STORE
    {
      this.names := names;
      teams := map[];
      challenges := map[];
      operations := map[];
    }

    function Contents(): Store
      reads this
    {
      Store(teams, challenges, operations)
    }

    /** _record_operation: whether it was there already. */
    method RecordOperation(op: string, what: Operation) returns (replayed: bool, failed: Option<Error>)
      modifies this
      ensures failed == (if Conflicts(old(Contents()), op, what) then Some(OperationConflict) else None)
      ensures replayed <==> op in old(operations)
      ensures Contents() == if failed.None? then Recorded(old(Contents()), op, what) else old(Contents())
    {
      replayed := op in operations;
      if replayed && operations[op] != what { return replayed, Some(OperationConflict); }
      if !replayed { operations := operations[op := what]; }
      failed := None;
    }

    method SaveTeam(guildId: int, captainId: int, name: string, roster: seq<int>, substitutes: seq<int>, region: string,
        availability: string, op: string, override: bool, now: int) returns (r: Result<Team, Error>)
      modifies this
      ensures var c := Command.SaveTeam(guildId, captainId, name, roster, substitutes, region, availability, op, override);
              var id := names.teamId(guildId, name);
              && Contents() == After(old(Contents()), c, now, names)
              && match Exec(old(Contents()), c, now, names)
                 case Ok(_) => id in teams && r == Ok(teams[id])
                 case Err(e) => r == Err(e)
    {
      hide TeamProblem, Unique;
      var c := Command.SaveTeam(guildId, captainId, name, roster, substitutes, region, availability, op, override);
      var problem := TeamProblem(c);
      if problem.Some? { return Err(problem.value); }
      var id := names.teamId(guildId, name);
      if id in teams && teams[id].captainId != captainId && !override { return Err(NotCaptain); }
      var what := Operation(id, TeamMarkOf(c));
      if op in operations && operations[op] != what { return Err(OperationConflict); }
      teams := teams[id := TeamAfter(Contents(), c, id)];
      if op !in operations { operations := operations[op := what]; }
      r := Ok(teams[id]);
    }

    method IssueChallenge(challenger: string, recipient: string, actorId: int, startsAt: int, zone: string, op: string, now: int)
      returns (r: Result<Challenge, Error>)
      modifies this
      ensures var c := Issue(challenger, recipient, actorId, startsAt, zone, op);
              && Contents() == After(old(Contents()), c, now, names)
              && match Exec(old(Contents()), c, now, names)
                 case Ok(next) => challenger in teams && r == StoredChallenge(next, names.challengeId(teams[challenger].guildId, op))
                 case Err(e) => r == Err(e)
    {
      if startsAt <= now { return Err(NotInFuture); }
      if challenger !in teams || recipient !in teams { return Err(TeamNotFound); }
      if teams[challenger].guildId != teams[recipient].guildId { return Err(OtherGuild); }
      if challenger == recipient { return Err(SelfChallenge); }
      if teams[challenger].captainId != actorId { return Err(NotCaptain); }
      var id := names.challengeId(teams[challenger].guildId, op);
      var replayed, failed := RecordOperation(op, Operation(id, IssueMark(challenger, recipient, actorId, startsAt, zone)));
      if failed.Some? { return Err(failed.value); }
      if id !in challenges {
        challenges := challenges[id := Challenge(id, teams[challenger].guildId, challenger, recipient, startsAt, zone, actorId, Proposed, {}, None, None, None)];
      }
      r := Ok(challenges[id]);
    }

    /** A refusal after the operation was recorded takes the record back. */
    method RespondToChallenge(id: string, actorId: int, response: Response, op: string, proposedAt: Option<int>, now: int)
      returns (r: Result<Challenge, Error>)
      modifies this
      ensures var c := Respond(id, actorId, response, op, proposedAt);
              Contents() == After(old(Contents()), c, now, names) && r == Answered(Exec(old(Contents()), c, now, names), id)
    {
      if id !in challenges { return Err(ChallengeNotFound); }
      var ch, before := challenges[id], operations;
      var replayed, failed := RecordOperation(op, Operation(id, RespondMark(actorId, response, proposedAt)));
      if failed.Some? { return Err(failed.value); }
      if ch.recipient !in teams { operations := before; return Err(TeamNotFound); }
      if teams[ch.recipient].captainId != actorId { operations := before; return Err(NotCaptain); }
      if ch.state == Proposed {
        if response == Propose {
          if proposedAt.None? || proposedAt.value <= now { operations := before; return Err(NotInFuture); }
          ch := ch.(startsAt := proposedAt.value, challenger := ch.recipient, recipient := ch.challenger, organizerId := actorId);
        } else {
          ch := ch.(state := if response == Accept then Accepted else Rejected);
        }
        challenges := challenges[id := ch];
      }
      r := Ok(challenges[id]);
    }

    method CheckInTeam(id: string, actorId: int, op: string, now: int) returns (r: Result<Challenge, Error>)
      modifies this
      ensures var c := CheckIn(id, actorId, op);
              Contents() == After(old(Contents()), c, now, names) && r == Answered(Exec(old(Contents()), c, now, names), id)
    {
      if id !in challenges { return Err(ChallengeNotFound); }
      var ch, before := challenges[id], operations;
      var replayed, failed := RecordOperation(op, Operation(id, CheckInMark(actorId)));
      if failed.Some? { return Err(failed.value); }
      if replayed { return Ok(ch); }
      if ch.state != Accepted && ch.state != CheckedIn { operations := before; return Err(NotAccepted); }
      if ch.challenger !in teams || ch.recipient !in teams { operations := before; return Err(TeamNotFound); }
      var team;
      if teams[ch.challenger].captainId == actorId {
        team := ch.challenger;
      } else if teams[ch.recipient].captainId == actorId {
        team := ch.recipient;
      } else {
        operations := before;
        return Err(NotCaptain);
      }
      var checked := ch.checkedIn + {team};
      challenges := challenges[id := ch.(checkedIn := checked, state := if |checked| == 2 then CheckedIn else Accepted)];
      r := Ok(challenges[id]);
    }

    method Lock(id: string, actorId: int, op: string, override: bool, now: int) returns (r: Result<Challenge, Error>)
      modifies this
      ensures var c := LockRosters(id, actorId, op, override);
              Contents() == After(old(Contents()), c, now, names) && r == Answered(Exec(old(Contents()), c, now, names), id)
    {
      if id !in challenges { return Err(ChallengeNotFound); }
      var ch, before := challenges[id], operations;
      var replayed, failed := RecordOperation(op, Operation(id, LockMark(actorId, override)));
      if failed.Some? { return Err(failed.value); }
      if replayed { return Ok(ch); }
      if ch.state != CheckedIn { operations := before; return Err(NotCheckedIn); }
      if actorId != ch.organizerId && !override { operations := before; return Err(NotOrganizer); }
      if ch.challenger !in teams || ch.recipient !in teams { operations := before; return Err(TeamNotFound); }
      var snapshot := map[ch.challenger := teams[ch.challenger].roster, ch.recipient := teams[ch.recipient].roster];
      challenges := challenges[id := ch.(locked := Some(snapshot), state := Locked)];
      r := Ok(challenges[id]);
    }

    method Launch(id: string, eventId: string, lobbyId: string, op: string, now: int) returns (r: Result<Challenge, Error>)
      modifies this
      ensures var c := MarkLaunched(id, eventId, lobbyId, op);
              Contents() == After(old(Contents()), c, now, names) && r == Answered(Exec(old(Contents()), c, now, names), id)
    {
      if id !in challenges { return Err(ChallengeNotFound); }
      var ch, before := challenges[id], operations;
      var replayed, failed := RecordOperation(op, Operation(id, LaunchMark(eventId, lobbyId)));
      if failed.Some? { return Err(failed.value); }
      if ch.state != Locked && ch.state != Launched { operations := before; return Err(NotLocked); }
      if ch.lobbyId.Some? && ch.lobbyId.value != "" && ch.lobbyId.value != lobbyId { operations := before; return Err(LaunchedElsewhere); }
      challenges := challenges[id := ch.(state := Launched, eventId := Some(eventId), lobbyId := Some(lobbyId))];
      r := Ok(challenges[id]);
    }
  }
}
