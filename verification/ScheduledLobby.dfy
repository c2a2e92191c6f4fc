/** convert_to_lobby of utils/party_schedule.py: the line of a night becomes the
    roster and the queue of a lobby. */
module ScheduledLobby {
  import opened Common
  import opened PartyStore
  import opened PartyLobby
  import PQ = PartyQueue
  import S = PartySchedule
  import ST = PartyScheduleTheorems

  datatype Trouble = InLobby(failure: Failure) | InSchedule(error: S.Error) | NotConfirmed | NotFound

  /** The night as `get` decodes it. */
  datatype Booking = Booking(night: S.Night, seated: seq<S.Row>, waiting: seq<S.Row>)

  function BookingOf(s: S.Store, eventId: string): Option<Booking> {
    if eventId !in s.nights then None
    else Some(Booking(s.nights[eventId], ST.SeatedRows(S.RowsOf(s, eventId)), ST.WaitingRows(S.RowsOf(s, eventId))))
  }

  function LobbyIdOf(night: S.Night): string {
    if night.lobbyId.Some? && night.lobbyId.value != "" then night.lobbyId.value else "scheduled-" + night.eventId
  }

  function SeatOf(row: S.Row): Participant {
    Participant(row.userId, row.preferences.primary, row.preferences.secondary, row.preferences.fill, row.preferences.captain,
                false, row.joinedAt)
  }

  function NotesOf(night: S.Night): string {
    night.title + " - " + (if night.recurrence == S.Weekly then "weekly" else "once")
  }

  function CreateCommand(night: S.Night): Command {
    Create(night.guildId, night.organizerId, night.capacity, Some(night.startsAt + 240), Some(LobbyIdOf(night)),
           NightOp(night.eventId, "lobby", 0), NO_DELIVERY, Metadata("custom", "", "scheduled night", false, "", NotesOf(night)), "")
  }

  function SaveCommand(night: S.Night, row: S.Row): Command {
    SaveParticipant(night.guildId, LobbyIdOf(night), SeatOf(row), NightOp(night.eventId, "participant", row.userId))
  }

  function MoveCommand(night: S.Night, target: LobbyState, step: string): Command {
    Transition(night.guildId, LobbyIdOf(night), target, NightOp(night.eventId, step, 0), None)
  }

  function Enqueue(w: World, lobbyId: string, userId: int, roles: seq<string>): (World, Option<Failure>) {
    if lobbyId !in w.queues then (w, Some(QueueFailed(PQ.DoesNotExist)))
    else
      match PQ.Joined(w.queues[lobbyId], userId, roles)
      case Err(e) => (w, Some(QueueFailed(e)))
      case Ok((q, _)) => (WithQueue(w, lobbyId, q), None)
  }

  function SeatRow(w: World, env: Env, night: S.Night, row: S.Row): (World, Option<Failure>) {
    var (saved, r) := Do(w, SaveCommand(night, row), env);
    if r.Err? then (saved, Some(r.error)) else Enqueue(saved, LobbyIdOf(night), row.userId, RolesOf(SeatOf(row)))
  }

  /** The seated rows, from the first on. */
  function SeatRows(w: World, env: Env, night: S.Night, rows: seq<S.Row>): (World, Option<Failure>) {
    if rows == [] then (w, None)
    else
      var n := |rows| - 1;
      var (before, failed) := SeatRows(w, env, night, rows[..n]);
      if failed.Some? then (before, failed) else SeatRow(before, env, night, rows[n])
  }

  function QueueRows(w: World, night: S.Night, rows: seq<S.Row>): (World, Option<Failure>) {
    if rows == [] then (w, None)
    else
      var n := |rows| - 1;
      var (before, failed) := QueueRows(w, night, rows[..n]);
      if failed.Some? then (before, failed) else Enqueue(before, LobbyIdOf(night), rows[n].userId, RoleList(rows[n].preferences))
  }

  /** A failure ends the loop. */
  lemma {:induction false} StopsAt(w: World, env: Env, night: S.Night, rows: seq<S.Row>, i: nat)
    requires i < |rows| && SeatRows(w, env, night, rows[..i + 1]).1.Some?
    ensures SeatRows(w, env, night, rows) == SeatRows(w, env, night, rows[..i + 1])
    decreases |rows|
  {
    hide SeatRow;
    var n := |rows| - 1;
    if i == n {
      assert rows[..i + 1] == rows;
    } else {
      assert rows[..n][..i + 1] == rows[..i + 1];
      StopsAt(w, env, night, rows[..n], i);
    }
  }

  lemma {:induction false} QueueStopsAt(w: World, night: S.Night, rows: seq<S.Row>, i: nat)
    requires i < |rows| && QueueRows(w, night, rows[..i + 1]).1.Some?
    ensures QueueRows(w, night, rows) == QueueRows(w, night, rows[..i + 1])
    decreases |rows|
  {
    hide Enqueue;
    var n := |rows| - 1;
    if i == n {
      assert rows[..i + 1] == rows;
    } else {
      assert rows[..n][..i + 1] == rows[..i + 1];
      QueueStopsAt(w, night, rows[..n], i);
    }
  }

  /** A full roster starts its ready check. */
  function StartFull(w: World, env: Env, night: S.Night, lobby: Lobby): (World, Option<Failure>) {
    var id := LobbyIdOf(night);
    if id !in w.queues || |w.queues[id].active| != w.queues[id].capacity then (w, None)
    else
      var (full, r) := if lobby.state == Open then Do(w, MoveCommand(night, Full, "full"), env) else (w, Ok(lobby));
      if r.Err? then (full, Some(r.error))
      else
        var (started, failed) := if w.queues[id].status == PQ.Open then StartCheck(full, env, id, w.queues[id]) else (full, None);
        if failed.Some? || r.value.state != Full then (started, failed)
        else
          var (ready, t) := Do(started, MoveCommand(night, ReadyCheck, "ready-check"), env);
          (ready, if t.Err? then Some(t.error) else None)
  }

  function StartCheck(w: World, env: Env, id: string, q: PQ.Queue): (World, Option<Failure>) {
    match PQ.ReadyCheckStarted(q, env.now, env.config)
    case Err(e) => (w, Some(QueueFailed(e)))
    case Ok(started) => (WithQueue(w, id, started), None)
  }

  function MadeLobby(w: World, env: Env, night: S.Night): (World, Option<Failure>) {
    var (made, r) := Do(w, CreateCommand(night), env);
    if r.Err? then (made, Some(r.error))
    else if LobbyIdOf(night) in made.queues then (made, None)
    else if night.capacity < 1 then (made, Some(QueueFailed(PQ.BadCapacity)))
    else (WithQueue(made, LobbyIdOf(night), PQ.NewQueue(night.capacity)), None)
  }

  function Filled(w: World, env: Env, b: Booking): (World, Option<Failure>) {
    var (made, m) := MadeLobby(w, env, b.night);
    if m.Some? then (made, m)
    else
      var (seated, s) := SeatRows(made, env, b.night, b.seated);
      if s.Some? then (seated, s)
      else
        var (queued, q) := QueueRows(seated, b.night, b.waiting);
        var lobby := Find(queued.store, b.night.guildId, LobbyIdOf(b.night));
        if q.Some? || lobby.None? then (queued, if q.Some? then q else Some(NotHere))
        else StartFull(queued, env, b.night, lobby.value)
  }

  function ConvertToLobby(w: World, s: S.Store, env: Env, names: S.Names, b: Booking): (World, S.Store, Result<Lobby, Trouble>) {
    var id := LobbyIdOf(b.night);
    if b.night.state != S.Scheduled && b.night.state != S.Converted then (w, s, Err(NotConfirmed))
    else
      var (filled, failed) := Filled(w, env, b);
      if failed.Some? then (filled, s, Err(InLobby(failed.value)))
      else
        match S.Convert(s, b.night.eventId, id, names)
        case Err(e) => (filled, s, Err(InSchedule(e)))
        case Ok(converted) =>
          var lobby := Find(filled.store, b.night.guildId, id);
          (filled, converted, if lobby.Some? then Ok(lobby.value) else Err(NotFound))
  }
}
