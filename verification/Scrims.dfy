/** Premade teams and scrim challenges of utils/scrims.py. */
module Scrims {
  import opened Common

  datatype ChallengeState = Proposed | Accepted | Rejected | CheckedIn | Locked | Launched

  datatype Team = Team(teamId: string, guildId: int, captainId: int, name: string, roster: seq<int>, substitutes: seq<int>,
                       region: string, availability: string)

  datatype Challenge = Challenge(
    challengeId: string, guildId: int, challenger: string, recipient: string, startsAt: int, zone: string, organizerId: int,
    state: ChallengeState, checkedIn: set<string>, locked: Option<map<string, seq<int>>>, eventId: Option<string>, lobbyId: Option<string>)

  datatype Response = Accept | Reject | Propose

  datatype Command =
    | SaveTeam(guildId: int, captainId: int, name: string, roster: seq<int>, substitutes: seq<int>, region: string,
               availability: string, op: string, override: bool)
    | Issue(challenger: string, recipient: string, actorId: int, startsAt: int, zone: string, op: string)
    | Respond(challengeId: string, actorId: int, response: Response, op: string, proposedAt: Option<int>)
    | CheckIn(challengeId: string, actorId: int, op: string)
    | LockRosters(challengeId: string, actorId: int, op: string, override: bool)
    | MarkLaunched(challengeId: string, eventId: string, lobbyId: string, op: string)

  /** What an operation ID stands for: its kind and fingerprint, about an entity. */
  datatype Mark =
    | TeamMark(guildId: int, captainId: int, name: string, roster: seq<int>, substitutes: seq<int>, region: string, availability: string)
    | IssueMark(challenger: string, recipient: string, actorId: int, startsAt: int, zone: string)
    | RespondMark(actorId: int, response: Response, proposedAt: Option<int>)
    | CheckInMark(actorId: int)
    | LockMark(actorId: int, override: bool)
    | LaunchMark(eventId: string, lobbyId: string)

  datatype Operation = Operation(entity: string, mark: Mark)

  datatype Store = Store(teams: map<string, Team>, challenges: map<string, Challenge>, operations: map<string, Operation>)

  const EMPTY_STORE := Store(map[], map[], map[])

  datatype Error =
    | MissingText | CaptainNotActive | BadRosterSize | ActiveSubstitute | BadUser | NotCaptain | OperationConflict
    | NotInFuture | TeamNotFound | OtherGuild | SelfChallenge | ChallengeNotFound | NotAccepted | NotCheckedIn | NotOrganizer
    | NotLocked | LaunchedElsewhere

  /** What is derived by hashing: a team's ID from its folded name, a challenge's
      from its operation. */
  datatype Names = Names(teamId: (int, string) -> string, challengeId: (int, string) -> string)

  /** dict.fromkeys: each user once, at the first place. */
  function Unique(ids: seq<int>): (r: seq<int>)
    ensures Distinct(r) && forall x :: x in r <==> x in ids
  {
    if ids == [] then []
    else
      var n := |ids| - 1;
      assert ids == ids[..n] + [ids[n]];
      if ids[n] in Unique(ids[..n]) then Unique(ids[..n]) else Unique(ids[..n]) + [ids[n]]
  }

  // ---- Teams ------------------------------------------------------------------------------

  function TeamProblem(c: Command): Option<Error>
    requires c.SaveTeam?
  {
    var roster, substitutes := Unique(c.roster), Unique(c.substitutes);
    if c.name == "" || c.region == "" || c.availability == "" then Some(MissingText)
    else if c.captainId !in roster then Some(CaptainNotActive)
    else if |roster| < 2 || |roster| > 10 then Some(BadRosterSize)
    else if exists u :: u in roster && u in substitutes then Some(ActiveSubstitute)
    else if exists u :: u in roster + substitutes && u <= 0 then Some(BadUser)
    else None
  }

  function TeamMarkOf(c: Command): Mark
    requires c.SaveTeam?
  {
    TeamMark(c.guildId, c.captainId, c.name, Unique(c.roster), Unique(c.substitutes), c.region, c.availability)
  }

  /** A new team, or the stored one with new data; its name and guild stay. */
  function TeamAfter(store: Store, c: Command, id: string): Team
    requires c.SaveTeam?
  {
    var made := Team(id, c.guildId, c.captainId, c.name, Unique(c.roster), Unique(c.substitutes), c.region, c.availability);
    if id in store.teams then made.(guildId := store.teams[id].guildId, name := store.teams[id].name) else made
  }

  /** save_team writes even when its operation is already recorded. */
  function Saves(store: Store, c: Command, names: Names): Result<Store, Error>
    requires c.SaveTeam?
  {
    var id := names.teamId(c.guildId, c.name);
    if TeamProblem(c).Some? then Err(TeamProblem(c).value)
    else if id in store.teams && store.teams[id].captainId != c.captainId && !c.override then Err(NotCaptain)
    else if c.op in store.operations && store.operations[c.op] != Operation(id, TeamMarkOf(c)) then Err(OperationConflict)
    else Ok(Recorded(store.(teams := store.teams[id := TeamAfter(store, c, id)]), c.op, Operation(id, TeamMarkOf(c))))
  }

  // ---- Operations -------------------------------------------------------------------------

  /** INSERT OR IGNORE. */
  function Recorded(store: Store, op: string, what: Operation): Store {
    if op in store.operations then store else store.(operations := store.operations[op := what])
  }

  predicate Conflicts(store: Store, op: string, what: Operation) { op in store.operations && store.operations[op] != what }

  // ---- Challenges -------------------------------------------------------------------------

  function Issues(store: Store, c: Command, now: int, names: Names): Result<Store, Error>
    requires c.Issue?
  {
    if c.startsAt <= now then Err(NotInFuture)
    else if c.challenger !in store.teams || c.recipient !in store.teams then Err(TeamNotFound)
    else
      var challenger, recipient := store.teams[c.challenger], store.teams[c.recipient];
      var id := names.challengeId(challenger.guildId, c.op);
      var what := Operation(id, IssueMark(c.challenger, c.recipient, c.actorId, c.startsAt, c.zone));
      if challenger.guildId != recipient.guildId then Err(OtherGuild)
      else if c.challenger == c.recipient then Err(SelfChallenge)
      else if challenger.captainId != c.actorId then Err(NotCaptain)
      else if Conflicts(store, c.op, what) then Err(OperationConflict)
      else
        var recorded := Recorded(store, c.op, what);
        if id in store.challenges then Ok(recorded)
        else Ok(recorded.(challenges := recorded.challenges[id :=
          Challenge(id, challenger.guildId, c.challenger, c.recipient, c.startsAt, c.zone, c.actorId, Proposed, {}, None, None, None)]))
  }

  function WithChallenge(store: Store, id: string, changed: Challenge): Store {
    store.(challenges := store.challenges[id := changed])
  }

  function Responds(store: Store, c: Command, now: int): Result<Store, Error>
    requires c.Respond?
  {
    var what := Operation(c.challengeId, RespondMark(c.actorId, c.response, c.proposedAt));
    if c.challengeId !in store.challenges then Err(ChallengeNotFound)
    else if Conflicts(store, c.op, what) then Err(OperationConflict)
    else
      var recorded, ch := Recorded(store, c.op, what), store.challenges[c.challengeId];
      if ch.recipient !in store.teams then Err(TeamNotFound)
      else if store.teams[ch.recipient].captainId != c.actorId then Err(NotCaptain)
      else if ch.state != Proposed then Ok(recorded)
      else
        match c.response
        case Accept => Ok(WithChallenge(recorded, c.challengeId, ch.(state := Accepted)))
        case Reject => Ok(WithChallenge(recorded, c.challengeId, ch.(state := Rejected)))
        case Propose =>
          if c.proposedAt.None? || c.proposedAt.value <= now then Err(NotInFuture)
          else Ok(WithChallenge(recorded, c.challengeId,
                                ch.(startsAt := c.proposedAt.value, challenger := ch.recipient, recipient := ch.challenger, organizerId := c.actorId)))
  }

  /** The first of the two teams this user is captain of. */
  function TeamOfCaptain(store: Store, ch: Challenge, actorId: int): Option<string> {
    if ch.challenger in store.teams && store.teams[ch.challenger].captainId == actorId then Some(ch.challenger)
    else if ch.recipient in store.teams && store.teams[ch.recipient].captainId == actorId then Some(ch.recipient)
    else None
  }

  function ChecksIn(store: Store, c: Command): Result<Store, Error>
    requires c.CheckIn?
  {
    var what := Operation(c.challengeId, CheckInMark(c.actorId));
    if c.challengeId !in store.challenges then Err(ChallengeNotFound)
    else if Conflicts(store, c.op, what) then Err(OperationConflict)
    else if c.op in store.operations then Ok(store)
    else
      var recorded, ch := Recorded(store, c.op, what), store.challenges[c.challengeId];
      if ch.state != Accepted && ch.state != CheckedIn then Err(NotAccepted)
      else if ch.challenger !in store.teams || ch.recipient !in store.teams then Err(TeamNotFound)
      else
        match TeamOfCaptain(store, ch, c.actorId)
        case None => Err(NotCaptain)
        case Some(team) =>
          var checked := ch.checkedIn + {team};
          Ok(WithChallenge(recorded, c.challengeId, ch.(checkedIn := checked, state := if |checked| == 2 then CheckedIn else Accepted)))
  }

  function Locks(store: Store, c: Command): Result<Store, Error>
    requires c.LockRosters?
  {
    var what := Operation(c.challengeId, LockMark(c.actorId, c.override));
    if c.challengeId !in store.challenges then Err(ChallengeNotFound)
    else if Conflicts(store, c.op, what) then Err(OperationConflict)
    else if c.op in store.operations then Ok(store)
    else
      var recorded, ch := Recorded(store, c.op, what), store.challenges[c.challengeId];
      if ch.state != CheckedIn then Err(NotCheckedIn)
      else if c.actorId != ch.organizerId && !c.override then Err(NotOrganizer)
      else if ch.challenger !in store.teams || ch.recipient !in store.teams then Err(TeamNotFound)
      else
        var snapshot := map[ch.challenger := store.teams[ch.challenger].roster, ch.recipient := store.teams[ch.recipient].roster];
        Ok(WithChallenge(recorded, c.challengeId, ch.(locked := Some(snapshot), state := Locked)))
  }

  function Launches(store: Store, c: Command): Result<Store, Error>
    requires c.MarkLaunched?
  {
    var what := Operation(c.challengeId, LaunchMark(c.eventId, c.lobbyId));
    if c.challengeId !in store.challenges then Err(ChallengeNotFound)
    else if Conflicts(store, c.op, what) then Err(OperationConflict)
    else
      var recorded, ch := Recorded(store, c.op, what), store.challenges[c.challengeId];
      if ch.state != Locked && ch.state != Launched then Err(NotLocked)
      else if ch.lobbyId.Some? && ch.lobbyId.value != "" && ch.lobbyId.value != c.lobbyId then Err(LaunchedElsewhere)
      else Ok(WithChallenge(recorded, c.challengeId, ch.(state := Launched, eventId := Some(c.eventId), lobbyId := Some(c.lobbyId))))
  }

  function Exec(store: Store, c: Command, now: int, names: Names): Result<Store, Error> {
    match c
    case SaveTeam(_, _, _, _, _, _, _, _, _) => Saves(store, c, names)
    case Issue(_, _, _, _, _, _) => Issues(store, c, now, names)
    case Respond(_, _, _, _, _) => Responds(store, c, now)
    case CheckIn(_, _, _) => ChecksIn(store, c)
    case LockRosters(_, _, _, _) => Locks(store, c)
    case MarkLaunched(_, _, _, _) => Launches(store, c)
  }

  function After(store: Store, c: Command, now: int, names: Names): Store {
    match Exec(store, c, now, names) case Ok(next) => next case Err(_) => store
  }

  datatype Timed = Timed(command: Command, now: int)

  function RunAll(run: seq<Timed>, names: Names): Store {
    if run == [] then EMPTY_STORE
    else After(RunAll(run[..|run| - 1], names), run[|run| - 1].command, run[|run| - 1].now, names)
  }

  // ---- What every run keeps -----------------------------------------------------------------

  ghost predicate GoodTeam(t: Team) {
    && Distinct(t.roster) && 2 <= |t.roster| <= 10 && t.captainId in t.roster
    && forall u :: u in t.roster ==> u !in t.substitutes && u > 0
  }

  ghost predicate LockedBoth(ch: Challenge) {
    && ch.locked.Some? && ch.locked.value.Keys == {ch.challenger, ch.recipient}
    && forall t :: t in ch.locked.value ==> Distinct(ch.locked.value[t]) && 2 <= |ch.locked.value[t]| <= 10
  }

  /** How far the handshake is. */
  ghost predicate Handshake(ch: Challenge) {
    match ch.state
    case Proposed => ch.checkedIn == {} && ch.locked.None?
    case Rejected => ch.checkedIn == {} && ch.locked.None?
    case Accepted => ch.checkedIn < {ch.challenger, ch.recipient} && ch.locked.None?
    case CheckedIn => ch.checkedIn == {ch.challenger, ch.recipient} && ch.locked.None?
    case Locked => ch.checkedIn == {ch.challenger, ch.recipient} && LockedBoth(ch)
    case Launched => ch.checkedIn == {ch.challenger, ch.recipient} && LockedBoth(ch)
  }

  ghost predicate GoodChallenge(store: Store, id: string)
    requires id in store.challenges
  {
    var ch := store.challenges[id];
    && ch.challenger in store.teams && ch.recipient in store.teams && ch.challenger != ch.recipient && Handshake(ch)
    && (ch.state == Launched <==> ch.lobbyId.Some?) && (ch.state == Launched <==> ch.eventId.Some?)
  }

  ghost predicate GoodScrims(store: Store) {
    && (forall id :: id in store.teams ==> GoodTeam(store.teams[id]))
    && (forall id :: id in store.challenges ==> GoodChallenge(store, id))
  }
}
