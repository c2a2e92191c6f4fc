/** Teams for a draft, and its durable launch, of utils/party_draft.py. */
module PartyDraft {
  import opened Common
  import PS = PartyStore

  datatype DraftTeam = DraftTeam(captainId: int, participantIds: seq<int>, roles: seq<(int, string)>)

  datatype Sides = Sides(blue: DraftTeam, red: DraftTeam)

  datatype Error = NotForming | NotAPartition | FormationFailed | UsedByAnotherLobby | NotReserved

  function Members(t: DraftTeam): set<int> { set u | u in t.participantIds }

  function Roster(lobby: PS.Lobby): set<int> { set u | u in PS.UserIds(lobby.participants) }

  /** The guard on premade teams. */
  predicate FixedTeamsFit(lobby: PS.Lobby, sides: Sides) {
    var blue, red := Members(sides.blue), Members(sides.red);
    && |blue| == 5 && |red| == 5 && blue * red == {} && blue + red == Roster(lobby)
    && sides.blue.captainId in blue && sides.red.captainId in red
  }

  /** form_teams_with_result; `automatic` is what form_smite_teams makes of the
      lobby's profiles. */
  function FormTeams(lobby: PS.Lobby, automatic: Option<Sides>, fixed: Option<Sides>): Result<Sides, Error> {
    if lobby.state != PS.Forming then Err(NotForming)
    else if fixed.Some? then (if FixedTeamsFit(lobby, fixed.value) then Ok(fixed.value) else Err(NotAPartition))
    else if automatic.Some? then Ok(automatic.value) else Err(FormationFailed)
  }

  // ---- Launches ---------------------------------------------------------------------------

  datatype Status = Pending | Active | Failed

  datatype Launch = Launch(lobbyId: string, guildId: int, op: string, status: Status, matchId: string, channelId: int, sides: Sides, error: string)

  type Store = map<string, Launch>

  /** `other` is the row that a query by lobby or operation ID gives when it is not
      the lobby's own. */
  datatype Command =
    | Begin(lobby: PS.Lobby, op: string, channelId: int, matchId: string, automatic: Option<Sides>, fixed: Option<Sides>, ownFirst: bool)
    | MarkActive(lobbyId: string, given: Option<string>)
    | MarkFailed(lobbyId: string, error: string)

  datatype Answer = Answer(launch: Launch, shouldStart: bool)

  predicate OpElsewhere(store: Store, lobbyId: string, op: string) {
    exists id :: id in store && id != lobbyId && store[id].op == op
  }

  /** begin: a pending or active launch is answered with, a failed one replaced. */
  function Begins(store: Store, c: Command): Result<(Store, Answer), Error>
    requires c.Begin?
  {
    match FormTeams(c.lobby, c.automatic, c.fixed)
    case Err(e) => Err(e)
    case Ok(sides) =>
      var id := c.lobby.lobbyId;
      if OpElsewhere(store, id, c.op) && !(c.ownFirst && id in store && store[id].status != Failed) then Err(UsedByAnotherLobby)
      else if id in store && store[id].status != Failed then Ok((store, Answer(store[id], false)))
      else
        var guildId := if id in store then store[id].guildId else c.lobby.guildId;
        var launch := Launch(id, guildId, c.op, Pending, c.matchId, c.channelId, sides, "");
        Ok((store[id := launch], Answer(launch, true)))
  }

  /** The first 500 characters. */
  function Clipped(text: string): string { if |text| > 500 then text[..500] else text }

  function Exec(store: Store, c: Command): Result<(Store, Answer), Error> {
    match c
    case Begin(_, _, _, _, _, _, _) => Begins(store, c)
    case MarkActive(id, matchId) =>
      if id !in store then Err(NotReserved)
      else
        var launch := store[id].(status := Active, matchId := if matchId.Some? then matchId.value else store[id].matchId, error := "");
        Ok((store[id := launch], Answer(launch, false)))
    case MarkFailed(id, error) =>
      if id !in store then Err(NotReserved)
      else if store[id].status != Pending then Ok((store, Answer(store[id], false)))
      else
        var launch := store[id].(status := Failed, error := Clipped(error));
        Ok((store[id := launch], Answer(launch, false)))
  }

  function After(store: Store, c: Command): Store {
    match Exec(store, c) case Ok((next, _)) => next case Err(_) => store
  }

  function RunAll(run: seq<Command>): Store {
    if run == [] then map[] else After(RunAll(run[..|run| - 1]), run[|run| - 1])
  }

  /** Step i of a run is told to start a draft for this lobby. */
  ghost predicate Starts(run: seq<Command>, i: nat, lobbyId: string)
    requires i < |run|
  {
    run[i].Begin? && run[i].lobby.lobbyId == lobbyId && Exec(RunAll(run[..i]), run[i]).Ok? && Exec(RunAll(run[..i]), run[i]).value.1.shouldStart
  }

  // ---- One start unless it failed ---------------------------------------------------------

  /** An active launch stays active, with its teams. */
  lemma ActiveStays(store: Store, c: Command, id: string)
    requires id in store && store[id].status == Active
    ensures var next := After(store, c); id in next && next[id].status == Active && next[id].sides == store[id].sides && next[id].op == store[id].op
  {
    hide FormTeams, OpElsewhere;
  }

  /** A reserved launch keeps its teams and match until it fails, and only a failure
      or a second ID from outside changes that. */
  lemma ReservedStays(store: Store, c: Command, id: string)
    requires id in store && store[id].status != Failed
    ensures var next := After(store, c);
            && id in next && next[id].sides == store[id].sides && next[id].op == store[id].op && next[id].channelId == store[id].channelId
            && (next[id].matchId == store[id].matchId || (c.MarkActive? && c.given == Some(next[id].matchId)))
            && (next[id].status == Failed ==> c.MarkFailed? && c.lobbyId == id && store[id].status == Pending)
  {
    hide FormTeams, OpElsewhere;
  }

  ghost predicate FailsBetween(run: seq<Command>, i: nat, j: nat, id: string)
    requires j <= |run|
  {
    exists k :: i < k < j && run[k].MarkFailed? && run[k].lobbyId == id
  }

  lemma {:induction false} ReservedUntilFailure(run: seq<Command>, i: nat, j: nat, id: string)
    requires i < j <= |run| && Starts(run, i, id)
    ensures id in RunAll(run[..j]) && (RunAll(run[..j])[id].status != Failed || FailsBetween(run, i, j, id))
    decreases j
  {
    hide FormTeams, OpElsewhere;
    var step := run[..j];
    assert step[..j - 1] == run[..j - 1] && step[j - 1] == run[j - 1];
    if j == i + 1 {
    } else {
      ReservedUntilFailure(run, i, j - 1, id);
      var before := RunAll(run[..j - 1]);
      if before[id].status == Failed {
        var k :| i < k < j - 1 && run[k].MarkFailed? && run[k].lobbyId == id;
        assert FailsBetween(run, i, j, id);
        LaunchStays(before, run[j - 1], id);
      } else {
        ReservedStays(before, run[j - 1], id);
        if RunAll(run[..j])[id].status == Failed { assert run[j - 1].MarkFailed? && run[j - 1].lobbyId == id; }
      }
    }
  }

  lemma LaunchStays(store: Store, c: Command, id: string)
    requires id in store
    ensures id in After(store, c)
  {
    hide FormTeams, OpElsewhere;
  }

  /** Over any run two starts of one lobby's draft have a failure between them. */
  lemma StartsOnceUnlessFailed(run: seq<Command>, i: nat, j: nat, id: string)
    requires i < j < |run| && Starts(run, i, id) && Starts(run, j, id)
    ensures FailsBetween(run, i, j, id)
  {
    ReservedUntilFailure(run, i, j, id);
    hide FormTeams, OpElsewhere;
  }
}

/** PartyDraftLaunchRepository. */
module PartyDraftLaunches {
  import opened Common
  import opened PartyDraft
  import PS = PartyStore

  class PartyDraftLaunchRepository {
    var launches: map<string, Launch>

    constructor ()
      ensures launches == map[]
    {
      launches := map[];
    }

    method BeginLaunch(lobby: PS.Lobby, op: string, channelId: int, matchId: string, automatic: Option<Sides>, fixed: Option<Sides>, ownFirst: bool)
      returns (r: Result<Answer, Error>)
      modifies this
      ensures var c := Begin(lobby, op, channelId, matchId, automatic, fixed, ownFirst);
              && launches == After(old(launches), c)
              && match Exec(old(launches), c) case Ok((_, answer)) => r == Ok(answer) case Err(e) => r == Err(e)
    {
      hide FormTeams;
      var formed := FormTeams(lobby, automatic, fixed);
      if formed.Err? { return Err(formed.error); }
      var id := lobby.lobbyId;
      if OpElsewhere(launches, id, op) && !(ownFirst && id in launches && launches[id].status != Failed) { return Err(UsedByAnotherLobby); }
      if id in launches && launches[id].status != Failed { return Ok(Answer(launches[id], false)); }
      var guildId := if id in launches then launches[id].guildId else lobby.guildId;
      launches := launches[id := Launch(id, guildId, op, Pending, matchId, channelId, formed.value, "")];
      r := Ok(Answer(launches[id], true));
    }

    method MarkLaunchActive(lobbyId: string, matchId: Option<string>) returns (r: Result<Launch, Error>)
      modifies this
      ensures launches == After(old(launches), MarkActive(lobbyId, matchId))
      ensures r == if lobbyId in old(launches) then Ok(launches[lobbyId]) else Err(NotReserved)
    {
      if lobbyId !in launches { return Err(NotReserved); }
      var launch := launches[lobbyId];
      launch := launch.(status := Active, error := "");
      if matchId.Some? { launch := launch.(matchId := matchId.value); }
      launches := launches[lobbyId := launch];
      r := Ok(launch);
    }

    method MarkLaunchFailed(lobbyId: string, error: string) returns (r: Result<Launch, Error>)
      modifies this
      ensures launches == After(old(launches), MarkFailed(lobbyId, error))
      ensures r == if lobbyId in old(launches) then Ok(launches[lobbyId]) else Err(NotReserved)
    {
      if lobbyId !in launches { return Err(NotReserved); }
      if launches[lobbyId].status == Pending {
        launches := launches[lobbyId := launches[lobbyId].(status := Failed, error := Clipped(error))];
      }
      r := Ok(launches[lobbyId]);
    }
  }
}
