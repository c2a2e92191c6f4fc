/** The handlers of utils/party_lobby.py that change lobbies, each a sequence of
    steps on the lobby store and on the queue service. */
module PartyLobby {
  import opened Common
  import opened PartyStore
  import PQ = PartyQueue

  datatype Preferences = Preferences(primary: Option<string>, secondary: Option<string>, fill: bool, captain: bool)

  const NO_PREFERENCES := Preferences(None, None, false, false)

  datatype World = World(store: Store, queues: map<string, PQ.Queue>, preferences: map<(int, int), Preferences>)

  /** One call of a handler: the guild, its interaction ID, the time, the order in
      which the table gives rows to a sweep, and the fixed parts. */
  datatype Env = Env(guildId: int, interaction: int, now: int, rows: seq<string>, naming: Naming, config: PQ.Config)

  datatype Failure = StoreFailed(error: Error) | QueueFailed(failed: PQ.QueueError) | NotHere | Refused

  type Answer = Result<Lobby, Failure>

  function Text(role: Option<string>): seq<string> { if role.Some? then [role.value] else [] }

  function RoleList(p: Preferences): seq<string> { Text(p.primary) + Text(p.secondary) }

  function PreferencesOf(w: World, guildId: int, userId: int): Preferences {
    if (guildId, userId) in w.preferences then w.preferences[(guildId, userId)] else NO_PREFERENCES
  }

  function Seat(userId: int, p: Preferences, now: int): Participant {
    Participant(userId, p.primary, p.secondary, p.fill, p.captain, false, now)
  }

  function WithQueue(w: World, lobbyId: string, q: PQ.Queue): World { w.(queues := w.queues[lobbyId := q]) }

  predicate AboutOneLobby(c: Command) { !c.ExpireDue? && !c.RecordPrompt? }

  /** One store command; an exception leaves what was done before. */
  function Do(w: World, c: Command, env: Env): (World, Answer)
    requires AboutOneLobby(c)
  {
    match Exec(w.store, c, env.naming, env.now)
    case Err(e) => (w, Err(StoreFailed(e)))
    case Ok((store, reply)) => (w.(store := store), if reply.One? then Ok(reply.lobby) else Err(NotHere))
  }

  function Save(w: World, env: Env, lobbyId: string, userId: int, p: Preferences, op: OperationId): (World, Answer) {
    Do(w, SaveParticipant(env.guildId, lobbyId, Seat(userId, p, env.now), op), env)
  }

  function Move(w: World, env: Env, lobbyId: string, target: LobbyState, step: string): (World, Answer) {
    Do(w, Transition(env.guildId, lobbyId, target, Discord(env.interaction, step, 0), None), env)
  }

  /** recover_active's side effect. */
  function Swept(w: World, env: Env, inGuild: Option<int>): (World, Option<Failure>) {
    match Exec(w.store, ExpireDue(inGuild, env.rows), env.naming, env.now)
    case Err(e) => (w, Some(StoreFailed(e)))
    case Ok((store, _)) => (w.(store := store), None)
  }

  // ---- ensure_party_queue -----------------------------------------------------------

  /** The players a change of capacity promoted, seated one by one. */
  function SeatAll(w: World, env: Env, lobby: Lobby, promoted: seq<int>): (World, Option<Failure>)
    decreases |promoted|
  {
    if promoted == [] then (w, None)
    else
      var id := promoted[0];
      var (next, r) := Save(w, env.(guildId := lobby.guildId), lobby.lobbyId, id, PreferencesOf(w, lobby.guildId, id),
                            CapacitySync(lobby.lobbyId, lobby.version, id));
      if r.Err? then (next, Some(r.error)) else SeatAll(next, env, lobby, promoted[1..])
  }

  /** Participants the queue does not know join it. */
  function JoinMissing(q: PQ.Queue, participants: seq<Participant>, known: PQ.Queue): Result<PQ.Queue, PQ.QueueError>
    decreases |participants|
  {
    if participants == [] then Ok(q)
    else if PQ.Has(PQ.Everyone(known), participants[0].userId) then JoinMissing(q, participants[1..], known)
    else
      match PQ.Joined(q, participants[0].userId, RolesOf(participants[0]))
      case Err(e) => Err(e)
      case Ok((next, _)) => JoinMissing(next, participants[1..], known)
  }

  function Resize(w: World, env: Env, lobby: Lobby): (World, Option<Failure>)
    requires lobby.lobbyId in w.queues
  {
    var q := w.queues[lobby.lobbyId];
    if q.capacity == lobby.capacity then (w, None)
    else
      match PQ.Resized(q, lobby.capacity)
      case Err(e) => (w, Some(QueueFailed(e)))
      case Ok((resized, promoted)) => SeatAll(WithQueue(w, lobby.lobbyId, resized), env, lobby, promoted)
  }

  lemma {:induction false} SeatAllKeepsQueues(w: World, env: Env, lobby: Lobby, promoted: seq<int>)
    ensures SeatAll(w, env, lobby, promoted).0.queues == w.queues
    decreases |promoted|
  {
    if promoted != [] {
      var id := promoted[0];
      var (next, r) := Save(w, env.(guildId := lobby.guildId), lobby.lobbyId, id, PreferencesOf(w, lobby.guildId, id),
                            CapacitySync(lobby.lobbyId, lobby.version, id));
      hide Exec;
      if r.Ok? { SeatAllKeepsQueues(next, env, lobby, promoted[1..]); }
    }
  }

  function QueueThere(w: World, lobby: Lobby): World {
    if lobby.lobbyId in w.queues then w else WithQueue(w, lobby.lobbyId, PQ.NewQueue(lobby.capacity))
  }

  /** Create the queue unless it is there, follow a change of capacity, and let
      participants the queue does not know join. */
  function EnsureQueue(w: World, env: Env, lobby: Lobby): (World, Result<PQ.Queue, Failure>) {
    var there := QueueThere(w, lobby);
    var (resized, failed) := Resize(there, env, lobby);
    SeatAllOrNot(there, env, lobby);
    if failed.Some? then (resized, Err(failed.value))
    else
      var q := resized.queues[lobby.lobbyId];
      match JoinMissing(q, lobby.participants, q)
      case Err(e) => (resized, Err(QueueFailed(e)))
      case Ok(all) => (WithQueue(resized, lobby.lobbyId, all), Ok(all))
  }

  lemma SeatAllOrNot(w: World, env: Env, lobby: Lobby)
    requires lobby.lobbyId in w.queues
    ensures lobby.lobbyId in Resize(w, env, lobby).0.queues
  {
    hide SeatAll;
    var r := PQ.Resized(w.queues[lobby.lobbyId], lobby.capacity);
    if r.Ok? { SeatAllKeepsQueues(WithQueue(w, lobby.lobbyId, r.value.0), env, lobby, r.value.1); }
  }

  // ---- Booking ------------------------------------------------------------------------

  /** On the roster of this lobby, or in its queue. */
  predicate BelongsTo(w: World, lobbyId: string, userId: int)
    requires lobbyId in w.store.lobbies
  {
    HasParticipant(w.store.lobbies[lobbyId], userId)
    || (lobbyId in w.queues && PQ.Has(PQ.Everyone(w.queues[lobbyId]), userId))
  }

  /** find_active_queue_for_player, once the sweep has run. */
  predicate Booked(w: World, guildId: int, userId: int, except: Option<string>) {
    exists id :: id in w.store.lobbies && BookedIn(w, id, guildId, userId, except)
  }

  predicate BookedIn(w: World, id: string, guildId: int, userId: int, except: Option<string>)
    requires id in w.store.lobbies
  {
    && w.store.lobbies[id].guildId == guildId && !IsTerminal(w.store.lobbies[id].state)
    && Some(id) != except && BelongsTo(w, id, userId)
  }

  // ---- Creating and joining -------------------------------------------------------------

  predicate GoodSize(capacity: int) { capacity == 2 || capacity == 4 || capacity == 6 || capacity == 8 || capacity == 10 }

  /** handle_create_lobby_submission. */
  function CreateLobby(w: World, env: Env, userId: int, capacity: int, metadata: Metadata, name: string, minutes: int): (World, Answer) {
    if !GoodSize(capacity) then (w, Err(Refused))
    else
      var (swept, failed) := Swept(w, env, Some(env.guildId));
      if failed.Some? then (swept, Err(failed.value))
      else if Booked(swept, env.guildId, userId, None) then (swept, Err(Refused))
      else
        var (created, r) := Do(swept, Create(env.guildId, userId, capacity, Some(env.now + minutes), None,
                                             Discord(env.interaction, "create", 0), NO_DELIVERY, metadata, name), env);
        if r.Err? then (created, r)
        else
          var (seated, s) := Save(created, env, r.value.lobbyId, userId, PreferencesOf(created, env.guildId, userId),
                                  Discord(env.interaction, "organizer", 0));
          if s.Err? then (seated, s)
          else
            var (ensured, q) := EnsureQueue(seated, env, s.value);
            (ensured, if q.Err? then Err(q.error) else s)
  }

  /** _touch_recruiting_activity, when the lobby at hand recruits. */
  function Touched(w: World, env: Env, lobby: Lobby): (World, Answer) {
    if IsRecruiting(lobby.state)
    then Do(w, Touch(env.guildId, lobby.lobbyId, Discord(env.interaction, "touch", 0), 60), env)
    else (w, Ok(lobby))
  }

  /** A full roster starts its ready check at once. */
  function StartWhenFull(w: World, env: Env, lobbyId: string, q: PQ.Queue, lobby: Lobby): (World, Answer) {
    if |q.active| != q.capacity || q.status != PQ.Open then (w, Ok(lobby))
    else
      match PQ.ReadyCheckStarted(q, env.now, env.config)
      case Err(e) => (w, Err(QueueFailed(e)))
      case Ok(started) => ToReadyCheck(WithQueue(w, lobbyId, started), env, lobby)
  }

  function ToReadyCheck(w: World, env: Env, lobby: Lobby): (World, Answer) {
    var (full, r) := if lobby.state == Open then Move(w, env, lobby.lobbyId, Full, "full") else (w, Ok(lobby));
    if r.Err? || r.value.state != Full then (full, r) else Move(full, env, lobby.lobbyId, ReadyCheck, "ready-check")
  }

  /** join_lobby_from_preferences; the lobby is read before the sweep. */
  function JoinLobby(w: World, env: Env, lobbyId: string, userId: int, profile: Preferences): (World, Answer) {
    var found := Find(w.store, env.guildId, lobbyId);
    if found.None? then (w, Err(NotHere))
    else
      var (swept, failed) := Swept(w, env, Some(env.guildId));
      if failed.Some? then (swept, Err(failed.value))
      else if Booked(swept, env.guildId, userId, Some(lobbyId)) then (swept, Err(Refused))
      else
        var told := swept.(preferences := swept.preferences[(env.guildId, userId) := profile]);
        var (ensured, q) := EnsureQueue(told, env, found.value);
        if q.Err? then (ensured, Err(q.error))
        else JoinQueue(ensured, env, found.value, q.value, userId, profile)
  }

  /** The second half of a join: the queue, the roster, the clock, the ready check. */
  function JoinQueue(w: World, env: Env, lobby: Lobby, q: PQ.Queue, userId: int, profile: Preferences): (World, Answer) {
    match PQ.Joined(q, userId, RoleList(profile))
    case Err(e) => (w, Err(QueueFailed(e)))
    case Ok((joined, to)) =>
      var queued := WithQueue(w, lobby.lobbyId, joined);
      var (saved, r) :=
        if to == PQ.ToWaitlist then (queued, Ok(lobby))
        else Save(queued, env, lobby.lobbyId, userId, profile, Discord(env.interaction, "join", 0));
      if r.Err? then (saved, r)
      else
        var (touched, t) := Touched(saved, env, r.value);
        if t.Err? then (touched, t) else StartWhenFull(touched, env, lobby.lobbyId, joined, t.value)
  }

  // ---- Leaving ----------------------------------------------------------------------------

  function JoinedKey(p: Participant): seq<int> { [p.joinedAt] }

  /** _apply_organizer_succession: the longest-tenured player, or the end. */
  function Succession(w: World, env: Env, lobby: Lobby, departed: int): (World, Answer) {
    if lobby.organizerId != departed || IsTerminal(lobby.state) then (w, Ok(lobby))
    else if lobby.participants != [] then
      var heir := lobby.participants[MinIndex(lobby.participants, JoinedKey)].userId;
      Do(w, TransferOrganizer(env.guildId, lobby.lobbyId, heir, Discord(env.interaction, "auto-transfer", 0), departed), env)
    else Move(w, env, lobby.lobbyId, Cancelled, "auto-cancel-empty")
  }

  /** The roster follows the queue: the player off, a promoted one on. */
  function FollowDeparture(w: World, env: Env, lobbyId: string, userId: int, promoted: Option<int>, off: string, on: string): (World, Answer) {
    var (gone, r) := Do(w, RemoveParticipant(env.guildId, lobbyId, userId, Discord(env.interaction, off, 0)), env);
    if r.Err? || promoted.None? then (gone, r)
    else Save(gone, env, lobbyId, promoted.value, PreferencesOf(gone, env.guildId, promoted.value),
              Discord(env.interaction, on, promoted.value))
  }

  function Reopen(w: World, env: Env, lobby: Lobby): (World, Answer) {
    if lobby.state == ReadyCheck then Move(w, env, lobby.lobbyId, Open, "reopen") else (w, Ok(lobby))
  }

  /** What the queue makes of a departure: dropping out of a ready check in
      progress, or leaving. */
  function Departed(q: PQ.Queue, userId: int, dropping: bool, env: Env): Result<(PQ.Queue, Option<int>), PQ.QueueError> {
    if dropping then PQ.Responded(q, userId, PQ.Drop, env.now, env.config) else Ok(PQ.Left(q, userId))
  }

  /** _process_leave. */
  function LeaveLobby(w: World, env: Env, lobbyId: string, userId: int): (World, Answer) {
    var found := Find(w.store, env.guildId, lobbyId);
    if found.None? then (w, Err(NotHere))
    else
      var (ensured, q) := EnsureQueue(w, env, found.value);
      if q.Err? then (ensured, Err(q.error))
      else
        var dropping := found.value.state == ReadyCheck && PQ.Has(q.value.active, userId);
        match Departed(q.value, userId, dropping, env)
        case Err(e) => (ensured, Err(QueueFailed(e)))
        case Ok((rest, promoted)) =>
          var (followed, r) := FollowDeparture(WithQueue(ensured, lobbyId, rest), env, lobbyId, userId, promoted, "leave", "promote");
          if r.Err? then (followed, r) else AfterLeave(followed, env, r.value, userId, dropping)
  }

  function AfterLeave(w: World, env: Env, lobby: Lobby, userId: int, dropping: bool): (World, Answer) {
    var (reopened, o) := if dropping then Reopen(w, env, lobby) else (w, Ok(lobby));
    if o.Err? then (reopened, o)
    else
      var (succeeded, s) := Succession(reopened, env, o.value, userId);
      if s.Err? then (succeeded, s) else Touched(succeeded, env, s.value)
  }

  /** The store side of a drop in handle_ready_check_action. */
  function AfterDrop(w: World, env: Env, lobby: Lobby, userId: int): (World, Answer) {
    var (succeeded, s) := Succession(w, env, lobby, userId);
    if s.Err? then (succeeded, s)
    else
      var (reopened, o) := Reopen(succeeded, env, s.value);
      if o.Err? then (reopened, o) else Touched(reopened, env, o.value)
  }

  predicate EveryoneReady(q: PQ.Queue) {
    q.active != [] && forall m :: m in q.active ==> m.userId in q.ready && q.ready[m.userId] == PQ.Ready
  }

  /** handle_ready_check_action, with the rooms of a complete check provided. */
  function AnswerReadyCheck(w: World, env: Env, lobbyId: string, userId: int, status: PQ.ReadyStatus): (World, Answer) {
    if lobbyId !in w.queues then (w, Err(QueueFailed(PQ.DoesNotExist)))
    else
      match PQ.Responded(w.queues[lobbyId], userId, status, env.now, env.config)
      case Err(e) => (w, Err(QueueFailed(e)))
      case Ok((q, promoted)) =>
        var answered := WithQueue(w, lobbyId, q);
        if status == PQ.Drop then
          var (followed, r) := FollowDeparture(answered, env, lobbyId, userId, promoted, "ready-drop", "ready-promote");
          if r.Err? then (followed, r) else AfterDrop(followed, env, r.value, userId)
        else if EveryoneReady(q) && |q.active| % 2 == 0 && 2 <= |q.active| <= 10 then ToForming(answered, env, lobbyId)
        else (answered, Err(NotHere))
  }

  function ToForming(w: World, env: Env, lobbyId: string): (World, Answer) {
    var found := Find(w.store, env.guildId, lobbyId);
    if found.None? then (w, Err(NotHere))
    else if found.value.state != ReadyCheck then (w, Ok(found.value))
    else Move(w, env, lobbyId, Forming, "forming")
  }

  // ---- Organizer actions ------------------------------------------------------------------

  function EditLobby(w: World, env: Env, lobbyId: string, userId: int, metadata: Metadata, capacity: int): (World, Answer) {
    var (edited, r) := Do(w, UpdateMetadata(env.guildId, lobbyId, Discord(env.interaction, "edit", 0), userId, metadata, capacity), env);
    if r.Err? then (edited, r) else Touched(edited, env, r.value)
  }

  function StartReadyCheck(w: World, env: Env, lobbyId: string, userId: int): (World, Answer) {
    var found := Find(w.store, env.guildId, lobbyId);
    if found.None? then (w, Err(NotHere))
    else if userId != found.value.organizerId || !IsRecruiting(found.value.state) then (w, Err(Refused))
    else
      var (ensured, q) := EnsureQueue(w, env, found.value);
      if q.Err? then (ensured, Err(q.error))
      else if q.value.status != PQ.Open || |q.value.active| < 2 || |q.value.active| % 2 == 1 then (ensured, Err(Refused))
      else
        match PQ.ReadyCheckStarted(q.value, env.now, env.config)
        case Err(e) => (ensured, Err(QueueFailed(e)))
        case Ok(started) => ReadyFrom(WithQueue(ensured, lobbyId, started), env, found.value, |started.active|)
  }

  function ReadyFrom(w: World, env: Env, lobby: Lobby, active: nat): (World, Answer) {
    var (full, r) := if lobby.state == Open && active == lobby.capacity then Move(w, env, lobby.lobbyId, Full, "full") else (w, Ok(lobby));
    if r.Err? || !IsRecruiting(r.value.state) then (full, r) else Move(full, env, lobby.lobbyId, ReadyCheck, "ready-check")
  }

  function CancelLobby(w: World, env: Env, lobbyId: string, userId: int): (World, Answer) {
    var found := Find(w.store, env.guildId, lobbyId);
    if found.None? then (w, Err(NotHere))
    else if userId != found.value.organizerId then (w, Err(Refused))
    else Move(w, env, lobbyId, Cancelled, "cancel")
  }

  function TransferLobby(w: World, env: Env, lobbyId: string, userId: int, heir: int): (World, Answer) {
    Do(w, TransferOrganizer(env.guildId, lobbyId, heir, Discord(env.interaction, "transfer", 0), userId), env)
  }

  // ---- expire_ready_checks ------------------------------------------------------------------

  /** The recruiting sweep, then the ready checks of the lobbies in `order`. */
  function Tick(w: World, env: Env, order: seq<string>): (World, Option<Failure>) {
    var (swept, failed) := Swept(w, env, None);
    if failed.Some? then (swept, failed) else TimeOut(swept, env, order)
  }

  function TimeOut(w: World, env: Env, order: seq<string>): (World, Option<Failure>)
    decreases |order|
  {
    if order == [] then (w, None)
    else if order[0] !in w.store.lobbies || w.store.lobbies[order[0]].state != ReadyCheck then TimeOut(w, env, order[1..])
    else
      var (next, failed) := TimeOutOne(w, env, w.store.lobbies[order[0]]);
      if failed.Some? then (next, failed) else TimeOut(next, env, order[1..])
  }

  function TimeOutOne(w: World, env: Env, lobby: Lobby): (World, Option<Failure>) {
    if lobby.lobbyId !in w.queues then (w, Some(QueueFailed(PQ.DoesNotExist)))
    else
      var (q, late) := PQ.Expired(w.queues[lobby.lobbyId], env.now, env.config);
      var expired := WithQueue(w, lobby.lobbyId, q);
      if late == [] || q.status != PQ.Cancelled then (expired, None)
      else
        var (next, r) := Do(expired, Transition(lobby.guildId, lobby.lobbyId, Cancelled, ReadyTimeout(lobby.lobbyId, q.deadline), None), env);
        (next, if r.Err? then Some(r.error) else None)
  }
}
