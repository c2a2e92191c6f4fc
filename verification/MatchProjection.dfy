/** Reserving a continuity decision and projecting it, step by durable step, with
    a crash allowed before any step. */
module MatchProjection {
  import opened Common
  import opened MatchRecords
  import opened MatchContinuity
  import PQ = PartyQueue

  datatype Row = Row(decision: Decision, operationId: string)

  type Key = (int, MatchId)

  /** Everything durable the protocol touches. A lobby without rooms has no entry
      in `rooms`; `matches` holds the teams of the next matches created. */
  datatype World = World(
    queues: map<string, PQ.Queue>,
    rows: map<Key, Row>,
    rooms: map<string, seq<int>>,
    matches: map<Key, (MatchTeam, MatchTeam)>)

  datatype Call = Call(record: MatchRecord, lobbyId: string, action: ContinuityAction, operationId: string, departing: set<int>)

  function KeyOf(c: Call): Key { (c.record.guildId, c.record.matchId) }

  // ---- Repository -------------------------------------------------------------

  predicate OperationUsed(rows: map<Key, Row>, operationId: string) {
    exists k :: k in rows && rows[k].operationId == operationId
  }

  predicate NextIdUsed(rows: map<Key, Row>, guildId: int, next: Option<MatchId>, except: set<Key>) {
    next.Some? && exists k :: k in rows && k !in except && k.0 == guildId && rows[k].decision.next == next
  }

  /** The first decision for a match is kept; another action is refused. */
  function Reserve(rows: map<Key, Row>, guildId: int, d: Decision, operationId: string): Result<(map<Key, Row>, Decision), Error> {
    var key := (guildId, d.source);
    if key in rows then
      if rows[key].decision.action != d.action then Err(AlreadySelected) else Ok((rows, rows[key].decision))
    else if OperationUsed(rows, operationId) then Err(OperationReused)
    else if NextIdUsed(rows, guildId, d.next, {}) then Err(NextIdTaken)
    else Ok((rows[key := Row(d, operationId)], d))
  }

  function CompleteSubstitutes(rows: map<Key, Row>, guildId: int, d: Decision): Result<(map<Key, Row>, Decision), Error> {
    var key := (guildId, d.source);
    if key !in rows then Err(NoDecision)
    else
      var prior := rows[key].decision;
      if prior.status != AwaitingSubstitutes then Ok((rows, prior))
      else if NextIdUsed(rows, guildId, d.next, {key}) then Err(NextIdTaken)
      else
        var completed := prior.(status := d.status, next := d.next, teamOne := d.teamOne, teamTwo := d.teamTwo,
                              changes := d.changes, promoted := d.promoted);
        Ok((rows[key := rows[key].(decision := completed)], completed))
  }

  // ---- Projection -------------------------------------------------------------

  datatype Effect =
    | LeaveQueue(userId: int)
    | ResetQueue(activeIds: Option<seq<int>>)
    | MarkQueue
    | SyncRooms(ids: seq<int>)
    | MarkRooms
    | StartMatch
    | MarkDraft

  function ActiveIds(d: Decision): seq<int>
    requires d.teamOne.Some? && d.teamTwo.Some?
  {
    PlayerIds(d.teamOne.value.players) + PlayerIds(d.teamTwo.value.players)
  }

  predicate Complete(d: Decision) { d.status == Ready ==> d.teamOne.Some? && d.teamTwo.Some? && d.next.Some? }

  function Leaves(ids: seq<int>): seq<Effect> {
    if ids == [] then [] else [LeaveQueue(ids[0])] + Leaves(ids[1..])
  }

  function QueueEffects(d: Decision): seq<Effect>
    requires Complete(d)
  {
    match d.status
    case Queued => [ResetQueue(None)]
    case Ready => Leaves(Departing(d.changes)) + [ResetQueue(Some(ActiveIds(d)))]
    case AwaitingSubstitutes => []
  }

  function RoomEffects(d: Decision): seq<Effect>
    requires Complete(d)
  {
    if d.status == Ready then [SyncRooms(ActiveIds(d))] else []
  }

  function DraftEffects(d: Decision): seq<Effect> {
    if d.status == Ready then [StartMatch] else []
  }

  function QueuePart(d: Decision): seq<Effect>
    requires Complete(d)
  {
    if d.queueProjected then [] else QueueEffects(d) + [MarkQueue]
  }

  function RoomPart(d: Decision): seq<Effect>
    requires Complete(d)
  {
    if d.roomsProjected then [] else RoomEffects(d) + [MarkRooms]
  }

  function DraftPart(d: Decision): seq<Effect> { if d.draftProjected then [] else DraftEffects(d) + [MarkDraft] }

  /** The steps an attempt takes, from the flags it finds. */
  function Plan(d: Decision): seq<Effect>
    requires Complete(d)
  {
    QueuePart(d) + (RoomPart(d) + DraftPart(d))
  }

  function Dedup(ids: seq<int>): seq<int> {
    if ids == [] then []
    else
      var before := Dedup(ids[..|ids| - 1]);
      if ids[|ids| - 1] in before then before else before + [ids[|ids| - 1]]
  }

  /** A running attempt knows, besides the world, whether it reused rooms. */
  datatype Process = Process(world: World, reused: bool)

  function Mark(w: World, key: Key, d: Decision): World
    requires key in w.rows
  {
    w.(rows := w.rows[key := w.rows[key].(decision := d)])
  }

  function WithQueue(w: World, lobbyId: string, q: PQ.Queue): World { w.(queues := w.queues[lobbyId := q]) }

  /** One step for the decision `d` of the match `key`. */
  function Step(p: Process, key: Key, d: Decision, e: Effect): Result<Process, Error> {
    var w := p.world;
    match e
    case LeaveQueue(user) =>
      if d.lobbyId !in w.queues then Err(QueueFailed(PQ.DoesNotExist))
      else Ok(p.(world := WithQueue(w, d.lobbyId, PQ.Left(w.queues[d.lobbyId], user).0)))
    case ResetQueue(ids) =>
      if d.lobbyId !in w.queues then Err(QueueFailed(PQ.DoesNotExist))
      else
        (match PQ.RosterReset(w.queues[d.lobbyId], ids)
         case Err(error) => Err(QueueFailed(error))
         case Ok(q) => Ok(p.(world := WithQueue(w, d.lobbyId, q))))
    case SyncRooms(ids) =>
      if d.lobbyId !in w.rooms then Ok(p.(reused := false))
      else Ok(Process(w.(rooms := w.rooms[d.lobbyId := Dedup(ids)]), true))
    case StartMatch =>
      if d.next.None? || d.teamOne.None? || d.teamTwo.None? then Err(NoDecision)
      else
        var next := (key.0, d.next.value);
        if next in w.matches then
          if w.matches[next] == (d.teamOne.value, d.teamTwo.value) then Ok(p) else Err(MatchTaken)
        else Ok(p.(world := w.(matches := w.matches[next := (d.teamOne.value, d.teamTwo.value)])))
    case MarkQueue =>
      if key !in w.rows then Err(NoDecision)
      else Ok(p.(world := Mark(w, key, w.rows[key].decision.(queueProjected := true))))
    case MarkRooms =>
      if key !in w.rows then Err(NoDecision)
      else Ok(p.(world := Mark(w, key, w.rows[key].decision.(roomsProjected := true, reusedRooms := p.reused))))
    case MarkDraft =>
      if key !in w.rows then Err(NoDecision)
      else Ok(p.(world := Mark(w, key, w.rows[key].decision.(draftProjected := true))))
  }

  datatype Outcome = Finished(decision: Decision) | Failed(error: Error) | Crashed

  /** Take the steps in order: stop at the first that fails, and crash when
      `life` steps have been taken and one remains. */
  function Take(p: Process, key: Key, d: Decision, effects: seq<Effect>, life: nat): (Process, Option<Outcome>)
    decreases |effects|
  {
    if effects == [] then (p, None)
    else if life == 0 then (p, Some(Crashed))
    else
      match Step(p, key, d, effects[0])
      case Err(error) => (p, Some(Failed(error)))
      case Ok(next) => Take(next, key, d, effects[1..], life - 1)
  }

  /** _project, when the process lives for `life` more steps. */
  function Project(w: World, key: Key, life: nat): (World, Outcome)
    requires key in w.rows && Complete(w.rows[key].decision)
  {
    var d := w.rows[key].decision;
    var (p, stopped) := Take(Process(w, false), key, d, Plan(d), life);
    if stopped.Some? then (p.world, stopped.value)
    else (p.world, Finished(if key in p.world.rows then p.world.rows[key].decision else d))
  }

  // ---- continue_match ---------------------------------------------------------

  /** Everything before the projection: the decision is found, resumed or made. */
  function Decide(w: World, c: Call): Result<(World, Decision), Error> {
    var key := KeyOf(c);
    if !IsWin(c.record.outcome) then Err(NoWinner)
    else if key in w.rows then
      var prior := w.rows[key].decision;
      if prior.action != c.action then Err(AlreadySelected)
      else if prior.status == AwaitingSubstitutes then Resume(w, c, prior)
      else Ok((w, prior))
    else if c.lobbyId !in w.queues then Err(NoQueue)
    else
      match BuildResult(c.record, c.lobbyId, w.queues[c.lobbyId], c.action, c.departing)
      case Err(error) => Err(error)
      case Ok(d) =>
        (match Reserve(w.rows, key.0, d, c.operationId)
         case Err(error) => Err(error)
         case Ok((rows, reserved)) => Ok((w.(rows := rows), reserved)))
  }

  /** Build the result again, for the departures the waiting decision recorded. */
  function Resume(w: World, c: Call, prior: Decision): Result<(World, Decision), Error> {
    if c.lobbyId !in w.queues then Err(NoQueue)
    else
      var departures := set id | id in Departing(prior.changes);
      match BuildResult(c.record, c.lobbyId, w.queues[c.lobbyId], c.action, departures)
      case Err(error) => Err(error)
      case Ok(d) =>
        if d.status == AwaitingSubstitutes then Ok((w, prior))
        else
          match CompleteSubstitutes(w.rows, c.record.guildId, d)
          case Err(error) => Err(error)
          case Ok((rows, completed)) => Ok((w.(rows := rows), completed))
  }

  /** Every stored decision is for its own match; a waiting one has projected
      nothing; a ready one has its teams; later stages follow earlier ones. */
  predicate Orderly(w: World) {
    forall k :: k in w.rows ==> OrderlyRow(k, w.rows[k].decision)
  }

  predicate OrderlyRow(k: Key, d: Decision) {
    && d.source == k.1 && Complete(d)
    && (d.next.Some? ==> d.next == Some(Continued(k.0, k.1, d.action)))
    && (d.status == AwaitingSubstitutes ==> !d.queueProjected)
    && (d.draftProjected ==> d.roomsProjected) && (d.roomsProjected ==> d.queueProjected)
  }

  /** continue_match, when the process lives for `life` steps: the decision is
      one of them. */
  function Attempt(w: World, c: Call, life: nat): (World, Outcome)
    requires Orderly(w)
  {
    if life == 0 then (w, Crashed)
    else
      match Decide(w, c)
      case Err(error) => (w, Failed(error))
      case Ok((decided, d)) =>
        if d.status == AwaitingSubstitutes then (decided, Finished(d))
        else
          DecideKeepsOrder(w, c);
          Project(decided, KeyOf(c), life - 1)
  }

  lemma BuildsOrderly(record: MatchRecord, lobbyId: string, queue: PQ.Queue, action: ContinuityAction, departures: set<int>)
    requires BuildResult(record, lobbyId, queue, action, departures).Ok?
    ensures var d := BuildResult(record, lobbyId, queue, action, departures).value;
            && OrderlyRow((record.guildId, record.matchId), d) && d.action == action && d.lobbyId == lobbyId
            && !d.queueProjected && !d.roomsProjected && !d.draftProjected
  {
  }

  lemma DecideKeepsOrder(w: World, c: Call)
    requires Orderly(w) && Decide(w, c).Ok?
    ensures var (decided, d) := Decide(w, c).value;
            Orderly(decided) && KeyOf(c) in decided.rows && decided.rows[KeyOf(c)].decision == d
  {
    hide BuildResult;
    var key := KeyOf(c);
    if key in w.rows {
      var prior := w.rows[key].decision;
      if prior.status == AwaitingSubstitutes {
        var departures := set id | id in Departing(prior.changes);
        BuildsOrderly(c.record, c.lobbyId, w.queues[c.lobbyId], c.action, departures);
      }
    } else {
      BuildsOrderly(c.record, c.lobbyId, w.queues[c.lobbyId], c.action, c.departing);
    }
  }
}
