/** utils/party.py and utils/party_store.py: lobbies, their lifecycle, the audit
    log and every transaction of the repository. */
module PartyStore {
  import opened Common

  // ---- Lobbies (utils/party.py) -----------------------------------------------

  datatype LobbyState = Open | Full | ReadyCheck | Forming | Active | Completed | Cancelled | Expired

  predicate IsTerminal(s: LobbyState) { s == Completed || s == Cancelled || s == Expired }

  predicate IsRecruiting(s: LobbyState) { s == Open || s == Full }

  /** ALLOWED_TRANSITIONS. */
  function AllowedFrom(s: LobbyState): set<LobbyState> {
    match s
    case Open => {Full, ReadyCheck, Cancelled, Expired}
    case Full => {Open, ReadyCheck, Cancelled, Expired}
    case ReadyCheck => {Open, Full, Forming, Cancelled, Expired}
    case Forming => {ReadyCheck, Active, Cancelled}
    case Active => {Completed, Cancelled}
    case Completed => {}
    case Cancelled => {}
    case Expired => {}
  }

  /** validate_transition: staying is always valid. */
  predicate MayTransition(current: LobbyState, target: LobbyState) {
    current == target || target in AllowedFrom(current)
  }

  datatype Participant = Participant(
    userId: int, primary: Option<string>, secondary: Option<string>, fill: bool, captain: bool, ready: bool, joinedAt: int)

  function RolesOf(p: Participant): seq<string> {
    (if p.primary.Some? then [p.primary.value] else []) + (if p.secondary.Some? then [p.secondary.value] else [])
  }

  /** Discord references are opaque numbers; `rooms` stands for the voice, team,
      match and formation references. */
  datatype Delivery = Delivery(
    panelChannel: Option<int>,
    panelMessage: Option<int>,
    readyChannel: Option<int>,
    readyMessage: Option<int>,
    matchReadyNotified: bool,
    promptChannel: Option<int>,
    promptMessage: Option<int>,
    rooms: seq<int>)

  const NO_DELIVERY := Delivery(None, None, None, None, false, None, None, [])

  datatype Metadata = Metadata(mode: string, region: string, format: string, voiceRequired: bool, skillBand: string, notes: string)

  datatype Lobby = Lobby(
    lobbyId: string,
    guildId: int,
    organizerId: int,
    capacity: int,
    state: LobbyState,
    participants: seq<Participant>,
    delivery: Delivery,
    createdAt: int,
    updatedAt: int,
    expiresAt: Option<int>,
    version: int,
    metadata: Metadata,
    queueCode: string,
    displayName: string)

  function UserIds(participants: seq<Participant>): (r: seq<int>)
    ensures |r| == |participants|
  {
    seq(|participants|, i requires 0 <= i < |participants| => participants[i].userId)
  }

  predicate HasParticipant(lobby: Lobby, userId: int) { userId in UserIds(lobby.participants) }

  /** The checks of the PartyLobby constructor. */
  ghost predicate ValidLobby(lobby: Lobby) {
    && lobby.capacity >= 2
    && Distinct(UserIds(lobby.participants))
    && |lobby.participants| <= lobby.capacity
  }

  function IsSpace(text: string): bool { forall i :: 0 <= i < |text| ==> text[i] in " \t\n\r" }

  // ---- The store ----------------------------------------------------------------

  /** Operation IDs by what they are built from: free text, the expiry of a sweep,
      a step of a Discord interaction about a user, the seating of a player after a
      change of capacity, the end of a ready check. */
  datatype OperationId =
    | Op(text: string)
    | ExpiryOp(guildId: int, lobbyId: string, expiresAt: int)
    | Discord(interaction: int, step: string, about: int)
    | CapacitySync(lobbyId: string, version: int, userId: int)
    | ReadyTimeout(lobbyId: string, deadline: Option<int>)
    | NightOp(eventId: string, step: string, about: int)

  predicate IsBlank(op: OperationId) { op.Op? && IsSpace(op.text) }

  /** What a recorded command was; the source compares it as one string. */
  datatype Fingerprint =
    | CreateMark(guildId: int, lobbyId: string)
    | MetadataMark(guildId: int, lobbyId: string, metadata: Metadata, capacity: int)
    | OrganizerMark(guildId: int, lobbyId: string, actorId: int, newOrganizerId: int)
    | RenameMark(guildId: int, lobbyId: string, name: string)
    | TouchMark(guildId: int, lobbyId: string)
    | TransitionMark(guildId: int, lobbyId: string, target: LobbyState)
    | ParticipantMark(guildId: int, lobbyId: string, userId: int, roles: seq<string>, ready: bool)
    | RemoveMark(guildId: int, lobbyId: string, userId: int)
    | DeliveryMark(guildId: int, lobbyId: string, delivery: Delivery)
    | PromptMark(guildId: int, lobbyId: string, channelId: int, messageId: int)

  datatype EventKind =
    | Created | MetadataUpdated | OrganizerTransferred | Renamed | Touched | TransitionNoop | Transitioned
    | ParticipantSaved | ParticipantRemoved | RemoveNoop | DeliveryUpdated | PromptSent | ExpiredByClock

  datatype Event = Event(
    lobbyId: string, guildId: int, operation: OperationId, fingerprint: Fingerprint, kind: EventKind,
    fromState: Option<LobbyState>, toState: LobbyState, at: int)

  datatype Store = Store(lobbies: map<string, Lobby>, audit: seq<Event>)

  const EMPTY_STORE := Store(map[], [])

  datatype Error =
    | BlankOperation | OperationConflict | LobbyNotFound | NotOrganizer | TerminalLobby | BelowRoster | BadCapacity
    | NotParticipant | NotRecruiting | BadTransition | LobbyFull | DuplicateLobby | NoQueueCode | BlankLobbyId

  /** What the repository derives by hashing: a lobby's ID, and its queue codes. */
  datatype Naming = Naming(lobbyId: (int, OperationId) -> string, code: (string, nat) -> string)

  datatype Command =
    | Create(guildId: int, organizerId: int, capacity: int, expires: Option<int>, newId: Option<string>, op: OperationId,
             refs: Delivery, metadata: Metadata, name: string)
    | UpdateMetadata(guildId: int, lobbyId: string, op: OperationId, actorId: int, metadata: Metadata, capacity: int)
    | TransferOrganizer(guildId: int, lobbyId: string, newOrganizerId: int, op: OperationId, actorId: int)
    | Rename(guildId: int, lobbyId: string, name: string, op: OperationId, actorId: int)
    | Touch(guildId: int, lobbyId: string, op: OperationId, minutes: int)
    | Transition(guildId: int, lobbyId: string, target: LobbyState, op: OperationId, changedAt: Option<int>)
    | SaveParticipant(guildId: int, lobbyId: string, participant: Participant, op: OperationId)
    | RemoveParticipant(guildId: int, lobbyId: string, userId: int, op: OperationId)
    | SetDelivery(guildId: int, lobbyId: string, refs: Delivery, op: OperationId)
    | RecordPrompt(guildId: int, lobbyId: string, channelId: int, messageId: int, op: OperationId, expected: Option<int>, grace: int)
    | ExpireDue(inGuild: Option<int>, rows: seq<string>)

  function Find(store: Store, guildId: int, lobbyId: string): Option<Lobby> {
    if lobbyId in store.lobbies && store.lobbies[lobbyId].guildId == guildId then Some(store.lobbies[lobbyId]) else None
  }

  function IndexOf(audit: seq<Event>, op: OperationId): (i: nat)
    ensures i <= |audit|
    ensures i < |audit| ==> audit[i].operation == op
    ensures forall j :: 0 <= j < i ==> audit[j].operation != op
  {
    if audit == [] then 0
    else if audit[0].operation == op then 0
    else 1 + IndexOf(audit[1..], op)
  }

  predicate Used(store: Store, op: OperationId) { IndexOf(store.audit, op) < |store.audit| }

  /** _operation: whether this very command was recorded before. */
  function Recorded(store: Store, op: OperationId, mark: Fingerprint): Result<bool, Error> {
    if IsBlank(op) then Err(BlankOperation)
    else if !Used(store, op) then Ok(false)
    else if store.audit[IndexOf(store.audit, op)].fingerprint != mark then Err(OperationConflict)
    else Ok(true)
  }

  function Commit(store: Store, lobby: Lobby, op: OperationId, mark: Fingerprint, kind: EventKind, from: Option<LobbyState>, now: int): Store {
    Store(store.lobbies[lobby.lobbyId := lobby],
          store.audit + [Event(lobby.lobbyId, lobby.guildId, op, mark, kind, from, lobby.state, now)])
  }

  // ---- Creating -------------------------------------------------------------------

  predicate CodeInUse(store: Store, guildId: int, code: string) {
    exists id :: id in store.lobbies && store.lobbies[id].guildId == guildId && store.lobbies[id].queueCode == code
      && !IsTerminal(store.lobbies[id].state)
  }

  const SALTS := 50

  /** _unique_queue_code: the first salted code no active lobby of the guild has. */
  function FreeCode(store: Store, guildId: int, lobbyId: string, naming: Naming, salt: nat): Option<string>
    requires salt <= SALTS
    decreases SALTS - salt
  {
    if salt == SALTS then None
    else if !CodeInUse(store, guildId, naming.code(lobbyId, salt)) then Some(naming.code(lobbyId, salt))
    else FreeCode(store, guildId, lobbyId, naming, salt + 1)
  }

  function NewId(c: Command, naming: Naming): string
    requires c.Create?
  {
    if c.newId.Some? && c.newId.value != "" then c.newId.value else naming.lobbyId(c.guildId, c.op)
  }

  function NewLobby(c: Command, lobbyId: string, code: string, now: int): Lobby
    requires c.Create?
  {
    Lobby(lobbyId, c.guildId, c.organizerId, c.capacity, Open, [], c.refs, now, now, c.expires, 1, c.metadata, code, c.name)
  }

  function MakeLobby(store: Store, c: Command, naming: Naming, now: int): Result<(Store, Lobby), Error>
    requires c.Create?
  {
    var lobbyId := NewId(c, naming);
    var mark := CreateMark(c.guildId, lobbyId);
    match Recorded(store, c.op, mark)
    case Err(e) => Err(e)
    case Ok(true) =>
      (match Find(store, c.guildId, store.audit[IndexOf(store.audit, c.op)].lobbyId)
       case None => Err(LobbyNotFound)
       case Some(lobby) => Ok((store, lobby)))
    case Ok(false) =>
      var code := FreeCode(store, c.guildId, lobbyId, naming, 0);
      if code.None? then Err(NoQueueCode)
      else if IsSpace(lobbyId) then Err(BlankLobbyId)
      else if c.capacity < 2 then Err(BadCapacity)
      else if lobbyId in store.lobbies then Err(DuplicateLobby)
      else
        var lobby := NewLobby(c, lobbyId, code.value, now);
        Ok((Commit(store, lobby, c.op, mark, Created, None, now), lobby))
  }

  // ---- Changing one lobby -----------------------------------------------------------

  function MarkOf(c: Command): Fingerprint
    requires !c.Create? && !c.ExpireDue?
  {
    match c
    case UpdateMetadata(g, l, _, _, metadata, capacity) => MetadataMark(g, l, metadata, capacity)
    case TransferOrganizer(g, l, id, _, actor) => OrganizerMark(g, l, actor, id)
    case Rename(g, l, name, _, _) => RenameMark(g, l, name)
    case Touch(g, l, _, _) => TouchMark(g, l)
    case Transition(g, l, target, _, _) => TransitionMark(g, l, target)
    case SaveParticipant(g, l, p, _) => ParticipantMark(g, l, p.userId, RolesOf(p), p.ready)
    case RemoveParticipant(g, l, user, _) => RemoveMark(g, l, user)
    case SetDelivery(g, l, refs, _) => DeliveryMark(g, l, refs)
    case RecordPrompt(g, l, channel, message, _, _, _) => PromptMark(g, l, channel, message)
  }

  function SeatKey(p: Participant): seq<int> { [p.joinedAt, p.userId] }

  function Position(participants: seq<Participant>, userId: int): (i: nat)
    ensures i <= |participants|
    ensures i < |participants| ==> participants[i].userId == userId
    ensures forall j :: 0 <= j < i ==> participants[j].userId != userId
  {
    if participants == [] then 0
    else if participants[0].userId == userId then 0
    else 1 + Position(participants[1..], userId)
  }

  /** The row of a participant who is there keeps its joining time; rows are read
      in the order of joining, then of ID. */
  function Saved(participants: seq<Participant>, p: Participant): seq<Participant> {
    var i := Position(participants, p.userId);
    if i < |participants| then participants[i := p.(joinedAt := participants[i].joinedAt)]
    else Insert(participants, p, SeatKey)
  }

  function Removed(participants: seq<Participant>, userId: int): seq<Participant> {
    var i := Position(participants, userId);
    if i < |participants| then participants[..i] + participants[i + 1..] else participants
  }

  function NextVersion(lobby: Lobby, now: int): Lobby { lobby.(updatedAt := now, version := lobby.version + 1) }

  /** The lobby after a command that is not a repetition, and the event recorded;
      nothing when the command leaves the lobby alone without recording it. */
  function Edited(lobby: Lobby, c: Command, now: int): Result<Option<(Lobby, EventKind)>, Error>
    requires !c.Create? && !c.ExpireDue?
  {
    match c
    case UpdateMetadata(_, _, _, actor, metadata, capacity) =>
      if lobby.organizerId != actor then Err(NotOrganizer)
      else if IsTerminal(lobby.state) then Err(TerminalLobby)
      else if capacity < |lobby.participants| then Err(BelowRoster)
      else if capacity < 2 then Err(BadCapacity)
      else Ok(Some((NextVersion(lobby.(metadata := metadata, capacity := capacity), now), MetadataUpdated)))
    case TransferOrganizer(_, _, id, _, actor) =>
      if lobby.organizerId != actor then Err(NotOrganizer)
      else if !HasParticipant(lobby, id) then Err(NotParticipant)
      else if IsTerminal(lobby.state) then Err(TerminalLobby)
      else Ok(Some((NextVersion(lobby.(organizerId := id), now), OrganizerTransferred)))
    case Rename(_, _, name, _, actor) =>
      if lobby.organizerId != actor then Err(NotOrganizer)
      else if !IsRecruiting(lobby.state) then Err(NotRecruiting)
      else Ok(Some((NextVersion(lobby.(displayName := name), now), Renamed)))
    case Touch(_, _, _, minutes) =>
      if !IsRecruiting(lobby.state) then Ok(None)
      else Ok(Some((lobby.(expiresAt := Some(now + minutes), delivery := lobby.delivery.(promptChannel := None, promptMessage := None)), Touched)))
    case Transition(_, _, target, _, changedAt) =>
      if !MayTransition(lobby.state, target) then Err(BadTransition)
      else if lobby.state == target then Ok(Some((lobby, TransitionNoop)))
      else Ok(Some((NextVersion(lobby.(state := target), if changedAt.Some? then changedAt.value else now), Transitioned)))
    case SaveParticipant(_, _, p, _) =>
      if IsTerminal(lobby.state) then Err(TerminalLobby)
      else if !HasParticipant(lobby, p.userId) && |lobby.participants| >= lobby.capacity then Err(LobbyFull)
      else Ok(Some((NextVersion(lobby.(participants := Saved(lobby.participants, p)), now), ParticipantSaved)))
    case RemoveParticipant(_, _, user, _) =>
      if IsTerminal(lobby.state) then Err(TerminalLobby)
      else if !HasParticipant(lobby, user) then Ok(Some((lobby, RemoveNoop)))
      else Ok(Some((NextVersion(lobby.(participants := Removed(lobby.participants, user)), now), ParticipantRemoved)))
    case SetDelivery(_, _, refs, _) => Ok(Some((NextVersion(lobby.(delivery := refs), now), DeliveryUpdated)))
    case RecordPrompt(_, _, channel, message, _, expected, grace) =>
      if !IsRecruiting(lobby.state) || lobby.delivery.promptMessage.Some? || lobby.expiresAt != expected then Ok(None)
      else Ok(Some((lobby.(expiresAt := Some(now + grace),
                           delivery := lobby.delivery.(promptChannel := Some(channel), promptMessage := Some(message))), PromptSent)))
  }

  datatype Reply = One(lobby: Lobby) | Nothing | Many(lobbies: seq<Lobby>)

  function Answer(store: Store, lobby: Lobby, c: Command, now: int): Result<(Store, Reply), Error>
    requires !c.Create? && !c.ExpireDue?
  {
    match Edited(lobby, c, now)
    case Err(e) => Err(e)
    case Ok(None) => Ok((store, if c.RecordPrompt? then Nothing else One(lobby)))
    case Ok(Some((changed, kind))) => Ok((Commit(store, changed, c.op, MarkOf(c), kind, Some(lobby.state), now), One(changed)))
  }

  /** Every mutator asks first whether the operation was recorded, except the
      activity touch, which first looks at the lobby's state. */
  function Changed(store: Store, c: Command, now: int): Result<(Store, Reply), Error>
    requires !c.Create? && !c.ExpireDue?
  {
    var found := Find(store, c.guildId, c.lobbyId);
    if c.Touch? && found.None? then Err(LobbyNotFound)
    else if c.Touch? && !IsRecruiting(found.value.state) then Ok((store, One(found.value)))
    else
      match Recorded(store, c.op, MarkOf(c))
      case Err(e) => Err(e)
      case Ok(recorded) =>
        if found.None? then Err(LobbyNotFound)
        else if recorded then Ok((store, One(found.value)))
        else Answer(store, found.value, c, now)
  }

  // ---- Expiring -------------------------------------------------------------------

  /** due_for_inactivity_prompt: the first clock has run out and no prompt is up. */
  predicate DueForPrompt(lobby: Lobby, now: int) {
    IsRecruiting(lobby.state) && lobby.expiresAt.Some? && lobby.expiresAt.value <= now && lobby.delivery.promptMessage.None?
  }

  /** The second clock has run out: a prompt is up and its deadline has passed. */
  predicate DueToExpire(lobby: Lobby, now: int) {
    IsRecruiting(lobby.state) && lobby.expiresAt.Some? && lobby.expiresAt.value <= now && lobby.delivery.promptMessage.Some?
  }

  function ExpiredLobby(lobby: Lobby, now: int): Lobby { NextVersion(lobby.(state := Expired), now) }

  function ExpireOne(store: Store, lobby: Lobby, now: int): Result<(Store, seq<Lobby>), Error>
    requires lobby.expiresAt.Some?
  {
    var op := ExpiryOp(lobby.guildId, lobby.lobbyId, lobby.expiresAt.value);
    var mark := TransitionMark(lobby.guildId, lobby.lobbyId, Expired);
    match Recorded(store, op, mark)
    case Err(e) => Err(e)
    case Ok(true) => Ok((store, []))
    case Ok(false) =>
      Ok((Commit(store, ExpiredLobby(lobby, now), op, mark, ExpiredByClock, Some(lobby.state), now), [ExpiredLobby(lobby, now)]))
  }

  predicate Selected(store: Store, lobbyId: string, inGuild: Option<int>, now: int) {
    && lobbyId in store.lobbies && DueToExpire(store.lobbies[lobbyId], now)
    && (inGuild.Some? ==> store.lobbies[lobbyId].guildId == inGuild.value)
  }

  /** expire_due_recruitment: one transaction over the due rows, in whatever order
      `rows` the table gives them. */
  function ExpireRows(store: Store, rows: seq<string>, inGuild: Option<int>, now: int): Result<(Store, seq<Lobby>), Error>
    decreases |rows|
  {
    if rows == [] then Ok((store, []))
    else if !Selected(store, rows[0], inGuild, now) then ExpireRows(store, rows[1..], inGuild, now)
    else
      match ExpireOne(store, store.lobbies[rows[0]], now)
      case Err(e) => Err(e)
      case Ok((next, closed)) =>
        match ExpireRows(next, rows[1..], inGuild, now)
        case Err(e) => Err(e)
        case Ok((last, more)) => Ok((last, closed + more))
  }

  // ---- Any command ------------------------------------------------------------------

  function Exec(store: Store, c: Command, naming: Naming, now: int): Result<(Store, Reply), Error> {
    match c
    case Create(_, _, _, _, _, _, _, _, _) =>
      (match MakeLobby(store, c, naming, now) case Ok((next, lobby)) => Ok((next, One(lobby))) case Err(e) => Err(e))
    case ExpireDue(inGuild, rows) =>
      (match ExpireRows(store, rows, inGuild, now) case Ok((next, closed)) => Ok((next, Many(closed))) case Err(e) => Err(e))
    case _ => Changed(store, c, now)
  }

  /** The store after a command: an error rolls the transaction back. */
  function After(store: Store, c: Command, naming: Naming, now: int): Store {
    match Exec(store, c, naming, now) case Ok((next, _)) => next case Err(_) => store
  }

  datatype Timed = Timed(command: Command, now: int)

  function RunAll(store: Store, run: seq<Timed>, naming: Naming): Store {
    if run == [] then store
    else
      var n := |run| - 1;
      After(RunAll(store, run[..n], naming), run[n].command, naming, run[n].now)
  }
}
