/** SQLitePartyRepository of utils/party_store.py: every mutator is one
    transaction on the lobby table and the audit log. */
module PartyRepositories {
  import opened Common
  import opened PartyStore

  /** The lobby a command answered with. */
  function LobbyOf(r: Result<(Store, Reply), Error>): Result<Lobby, Error>
    requires r.Ok? ==> r.value.1.One?
  {
    if r.Ok? then Ok(r.value.1.lobby) else Err(r.error)
  }

  class SQLitePartyRepository {
    const naming: Naming
    var lobbies: map<string, Lobby>
    var audit: seq<Event>

    constructor (naming: Naming)
      ensures this.naming == naming && Contents() == EMPTY_STORE
    {
      this.naming := naming;
      lobbies := map[];
      audit := [];
    }

    function Contents(): Store
      reads this
    {
      Store(lobbies, audit)
    }

    /** _operation: the event recorded under this ID, if it was this command. */
    method Operation(op: OperationId, mark: Fingerprint) returns (r: Result<Option<Event>, Error>)
      ensures match Recorded(Contents(), op, mark)
              case Err(e) => r == Err(e)
              case Ok(true) => r == Ok(Some(audit[IndexOf(audit, op)])) && IndexOf(audit, op) < |audit|
              case Ok(false) => r == Ok(None)
    {
      if IsBlank(op) { return Err(BlankOperation); }
      for i := 0 to |audit|
        invariant forall j :: 0 <= j < i ==> audit[j].operation != op
      {
        if audit[i].operation == op {
          assert IndexOf(audit, op) == i;
          if audit[i].fingerprint != mark { return Err(OperationConflict); }
          return Ok(Some(audit[i]));
        }
      }
      assert IndexOf(audit, op) == |audit|;
      return Ok(None);
    }

    /** The write of a mutator and its audit event. */
    method Write(changed: Lobby, op: OperationId, mark: Fingerprint, kind: EventKind, from: Option<LobbyState>, now: int)
      modifies this
      ensures Contents() == Commit(old(Contents()), changed, op, mark, kind, from, now)
    {
      lobbies := lobbies[changed.lobbyId := changed];
      audit := audit + [Event(changed.lobbyId, changed.guildId, op, mark, kind, from, changed.state, now)];
    }

    /** _unique_queue_code. */
    method UniqueQueueCode(guildId: int, lobbyId: string) returns (code: Option<string>)
      ensures code == FreeCode(Contents(), guildId, lobbyId, naming, 0)
    {
      for salt := 0 to SALTS
        invariant FreeCode(Contents(), guildId, lobbyId, naming, 0) == FreeCode(Contents(), guildId, lobbyId, naming, salt)
      {
        var candidate := naming.code(lobbyId, salt);
        if !CodeInUse(Contents(), guildId, candidate) { return Some(candidate); }
      }
      return None;
    }

    method CreateLobby(guildId: int, organizerId: int, capacity: int, expiresAt: Option<int>, newId: Option<string>,
        op: OperationId, delivery: Delivery, metadata: Metadata, displayName: string, now: int) returns (r: Result<Lobby, Error>)
      modifies this
      ensures var c := Create(guildId, organizerId, capacity, expiresAt, newId, op, delivery, metadata, displayName);
              && Contents() == After(old(Contents()), c, naming, now)
              && r == LobbyOf(Exec(old(Contents()), c, naming, now))
    {
      hide FreeCode, IndexOf;
      ghost var c := Create(guildId, organizerId, capacity, expiresAt, newId, op, delivery, metadata, displayName);
      var lobbyId := if newId.Some? && newId.value != "" then newId.value else naming.lobbyId(guildId, op);
      var mark := CreateMark(guildId, lobbyId);
      var prior := Operation(op, mark);
      if prior.Err? { return Err(prior.error); }
      if prior.value.Some? {
        var lobby := Find(Contents(), guildId, prior.value.value.lobbyId);
        return if lobby.Some? then Ok(lobby.value) else Err(LobbyNotFound);
      }
      var code := UniqueQueueCode(guildId, lobbyId);
      if code.None? { return Err(NoQueueCode); }
      if IsSpace(lobbyId) { return Err(BlankLobbyId); }
      if capacity < 2 { return Err(BadCapacity); }
      if lobbyId in lobbies { return Err(DuplicateLobby); }
      var lobby := Lobby(lobbyId, guildId, organizerId, capacity, Open, [], delivery, now, now, expiresAt, 1, metadata, code.value, displayName);
      Write(lobby, op, mark, Created, None, now);
      r := Ok(lobby);
    }

    /** The start of most mutators: the operation, then the lobby. A recorded
        operation answers with the lobby as it is. */
    method Begin(c: Command) returns (r: Result<Lobby, Error>, repeated: bool)
      requires !c.Create? && !c.ExpireDue?
      ensures match Recorded(Contents(), c.op, MarkOf(c))
              case Err(e) => r == Err(e)
              case Ok(recorded) =>
                var found := Find(Contents(), c.guildId, c.lobbyId);
                r == (if found.None? then Err(LobbyNotFound) else Ok(found.value)) && (r.Ok? ==> repeated == recorded)
    {
      repeated := false;
      var prior := Operation(c.op, MarkOf(c));
      if prior.Err? { return Err(prior.error), false; }
      var found := Find(Contents(), c.guildId, c.lobbyId);
      if found.None? { return Err(LobbyNotFound), false; }
      return Ok(found.value), prior.value.Some?;
    }

    method UpdateMetadata(guildId: int, lobbyId: string, op: OperationId, actorId: int, metadata: Metadata, capacity: int, now: int)
      returns (r: Result<Lobby, Error>)
      modifies this
      ensures var c := Command.UpdateMetadata(guildId, lobbyId, op, actorId, metadata, capacity);
              && Contents() == After(old(Contents()), c, naming, now) && r == LobbyOf(Exec(old(Contents()), c, naming, now))
    {
      hide Recorded;
      var c := Command.UpdateMetadata(guildId, lobbyId, op, actorId, metadata, capacity);
      var begun, repeated := Begin(c);
      if begun.Err? || repeated { return begun; }
      var lobby := begun.value;
      if lobby.organizerId != actorId { return Err(NotOrganizer); }
      if IsTerminal(lobby.state) { return Err(TerminalLobby); }
      if capacity < |lobby.participants| { return Err(BelowRoster); }
      if capacity < 2 { return Err(BadCapacity); }
      var changed := lobby.(metadata := metadata, capacity := capacity, updatedAt := now, version := lobby.version + 1);
      Write(changed, op, MarkOf(c), MetadataUpdated, Some(lobby.state), now);
      r := Ok(changed);
    }

    method TransferOrganizer(guildId: int, lobbyId: string, newOrganizerId: int, op: OperationId, actorId: int, now: int)
      returns (r: Result<Lobby, Error>)
      modifies this
      ensures var c := Command.TransferOrganizer(guildId, lobbyId, newOrganizerId, op, actorId);
              && Contents() == After(old(Contents()), c, naming, now) && r == LobbyOf(Exec(old(Contents()), c, naming, now))
    {
      hide Recorded;
      var c := Command.TransferOrganizer(guildId, lobbyId, newOrganizerId, op, actorId);
      var begun, repeated := Begin(c);
      if begun.Err? || repeated { return begun; }
      var lobby := begun.value;
      if lobby.organizerId != actorId { return Err(NotOrganizer); }
      if !HasParticipant(lobby, newOrganizerId) { return Err(NotParticipant); }
      if IsTerminal(lobby.state) { return Err(TerminalLobby); }
      var changed := lobby.(organizerId := newOrganizerId, updatedAt := now, version := lobby.version + 1);
      Write(changed, op, MarkOf(c), OrganizerTransferred, Some(lobby.state), now);
      r := Ok(changed);
    }

    method Rename(guildId: int, lobbyId: string, name: string, op: OperationId, actorId: int, now: int) returns (r: Result<Lobby, Error>)
      modifies this
      ensures var c := Command.Rename(guildId, lobbyId, name, op, actorId);
              && Contents() == After(old(Contents()), c, naming, now) && r == LobbyOf(Exec(old(Contents()), c, naming, now))
    {
      hide Recorded;
      var c := Command.Rename(guildId, lobbyId, name, op, actorId);
      var begun, repeated := Begin(c);
      if begun.Err? || repeated { return begun; }
      var lobby := begun.value;
      if lobby.organizerId != actorId { return Err(NotOrganizer); }
      if !IsRecruiting(lobby.state) { return Err(NotRecruiting); }
      var changed := lobby.(displayName := name, updatedAt := now, version := lobby.version + 1);
      Write(changed, op, MarkOf(c), Renamed, Some(lobby.state), now);
      r := Ok(changed);
    }

    /** Outside recruiting, a touch is a no-op before its operation is looked up. */
    method TouchRecruitingActivity(guildId: int, lobbyId: string, op: OperationId, minutes: int, now: int) returns (r: Result<Lobby, Error>)
      modifies this
      ensures var c := Touch(guildId, lobbyId, op, minutes);
              && Contents() == After(old(Contents()), c, naming, now) && r == LobbyOf(Exec(old(Contents()), c, naming, now))
    {
      hide Recorded;
      var c := Touch(guildId, lobbyId, op, minutes);
      var found := Find(Contents(), guildId, lobbyId);
      if found.None? { return Err(LobbyNotFound); }
      var lobby := found.value;
      if !IsRecruiting(lobby.state) { return Ok(lobby); }
      var prior := Operation(op, MarkOf(c));
      if prior.Err? { return Err(prior.error); }
      if prior.value.Some? { return Ok(lobby); }
      var cleared := lobby.delivery.(promptChannel := None, promptMessage := None);
      var changed := lobby.(expiresAt := Some(now + minutes), delivery := cleared);
      Write(changed, op, MarkOf(c), Touched, Some(lobby.state), now);
      r := Ok(changed);
    }

    method Transition(guildId: int, lobbyId: string, target: LobbyState, op: OperationId, changedAt: Option<int>, now: int)
      returns (r: Result<Lobby, Error>)
      modifies this
      ensures var c := Command.Transition(guildId, lobbyId, target, op, changedAt);
              && Contents() == After(old(Contents()), c, naming, now) && r == LobbyOf(Exec(old(Contents()), c, naming, now))
    {
      hide Recorded, AllowedFrom;
      var c := Command.Transition(guildId, lobbyId, target, op, changedAt);
      var begun, repeated := Begin(c);
      if begun.Err? || repeated { return begun; }
      var lobby := begun.value;
      if !MayTransition(lobby.state, target) { return Err(BadTransition); }
      if lobby.state == target {
        Write(lobby, op, MarkOf(c), TransitionNoop, Some(lobby.state), now);
        return Ok(lobby);
      }
      var at := if changedAt.Some? then changedAt.value else now;
      var changed := lobby.(state := target, updatedAt := at, version := lobby.version + 1);
      Write(changed, op, MarkOf(c), Transitioned, Some(lobby.state), now);
      r := Ok(changed);
    }

    method SaveParticipant(guildId: int, lobbyId: string, participant: Participant, op: OperationId, now: int) returns (r: Result<Lobby, Error>)
      modifies this
      ensures var c := Command.SaveParticipant(guildId, lobbyId, participant, op);
              && Contents() == After(old(Contents()), c, naming, now) && r == LobbyOf(Exec(old(Contents()), c, naming, now))
    {
      hide Recorded, Saved;
      var c := Command.SaveParticipant(guildId, lobbyId, participant, op);
      var begun, repeated := Begin(c);
      if begun.Err? || repeated { return begun; }
      var lobby := begun.value;
      if IsTerminal(lobby.state) { return Err(TerminalLobby); }
      var existing := HasParticipant(lobby, participant.userId);
      if !existing && |lobby.participants| >= lobby.capacity { return Err(LobbyFull); }
      var changed := lobby.(participants := Saved(lobby.participants, participant));
      changed := changed.(updatedAt := now, version := lobby.version + 1);
      Write(changed, op, MarkOf(c), ParticipantSaved, Some(lobby.state), now);
      r := Ok(changed);
    }

    method RemoveParticipant(guildId: int, lobbyId: string, userId: int, op: OperationId, now: int) returns (r: Result<Lobby, Error>)
      modifies this
      ensures var c := Command.RemoveParticipant(guildId, lobbyId, userId, op);
              && Contents() == After(old(Contents()), c, naming, now) && r == LobbyOf(Exec(old(Contents()), c, naming, now))
    {
      hide Recorded, Removed;
      var c := Command.RemoveParticipant(guildId, lobbyId, userId, op);
      var begun, repeated := Begin(c);
      if begun.Err? || repeated { return begun; }
      var lobby := begun.value;
      if IsTerminal(lobby.state) { return Err(TerminalLobby); }
      var kind := RemoveNoop;
      var changed := lobby;
      if HasParticipant(lobby, userId) {
        kind := ParticipantRemoved;
        changed := changed.(participants := Removed(lobby.participants, userId));
        changed := changed.(updatedAt := now, version := lobby.version + 1);
      }
      Write(changed, op, MarkOf(c), kind, Some(lobby.state), now);
      r := Ok(changed);
    }

    method SetDelivery(guildId: int, lobbyId: string, delivery: Delivery, op: OperationId, now: int) returns (r: Result<Lobby, Error>)
      modifies this
      ensures var c := Command.SetDelivery(guildId, lobbyId, delivery, op);
              && Contents() == After(old(Contents()), c, naming, now) && r == LobbyOf(Exec(old(Contents()), c, naming, now))
    {
      hide Recorded;
      var c := Command.SetDelivery(guildId, lobbyId, delivery, op);
      var begun, repeated := Begin(c);
      if begun.Err? || repeated { return begun; }
      var lobby := begun.value;
      var changed := lobby.(delivery := delivery, updatedAt := now, version := lobby.version + 1);
      Write(changed, op, MarkOf(c), DeliveryUpdated, Some(lobby.state), now);
      r := Ok(changed);
    }

    /** None when the clock is no longer the one the caller saw. */
    method RecordInactivityPromptSent(guildId: int, lobbyId: string, channelId: int, messageId: int, op: OperationId,
        expected: Option<int>, grace: int, now: int) returns (r: Result<Option<Lobby>, Error>)
      modifies this
      ensures var c := RecordPrompt(guildId, lobbyId, channelId, messageId, op, expected, grace);
              && Contents() == After(old(Contents()), c, naming, now)
              && match Exec(old(Contents()), c, naming, now)
                 case Err(e) => r == Err(e)
                 case Ok((_, One(lobby))) => r == Ok(Some(lobby))
                 case Ok((_, _)) => r == Ok(None)
    {
      hide Recorded;
      var c := RecordPrompt(guildId, lobbyId, channelId, messageId, op, expected, grace);
      var begun, repeated := Begin(c);
      if begun.Err? { return Err(begun.error); }
      var lobby := begun.value;
      if repeated { return Ok(Some(lobby)); }
      if !IsRecruiting(lobby.state) || lobby.delivery.promptMessage.Some? || lobby.expiresAt != expected { return Ok(None); }
      var prompted := lobby.delivery.(promptChannel := Some(channelId), promptMessage := Some(messageId));
      var changed := lobby.(expiresAt := Some(now + grace), delivery := prompted);
      Write(changed, op, MarkOf(c), PromptSent, Some(lobby.state), now);
      r := Ok(Some(changed));
    }

    /** The rows of the query, one by one; a conflict rolls all of them back. */
    method ExpireDueRecruitment(inGuild: Option<int>, rows: seq<string>, now: int) returns (r: Result<seq<Lobby>, Error>)
      modifies this
      ensures Contents() == After(old(Contents()), ExpireDue(inGuild, rows), naming, now)
      ensures match ExpireRows(old(Contents()), rows, inGuild, now) case Ok((_, closed)) => r == Ok(closed) case Err(e) => r == Err(e)
    {
      hide ExpireOne;
      var store := Contents();
      var closed: seq<Lobby> := [];
      ghost var whole := ExpireRows(store, rows, inGuild, now);
      assert rows[0..] == rows;
      assert Joined([], ExpireRows(store, rows, inGuild, now)) == whole by { JoinedNothing(whole); }
      for i := 0 to |rows|
        invariant Contents() == old(Contents())
        invariant Joined(closed, ExpireRows(store, rows[i..], inGuild, now)) == whole
      {
        assert rows[i..][0] == rows[i] && rows[i..][1..] == rows[i + 1..];
        if Selected(store, rows[i], inGuild, now) {
          var one := ExpireOne(store, store.lobbies[rows[i]], now);
          if one.Err? { return Err(one.error); }
          JoinedTwice(closed, one.value.1, ExpireRows(one.value.0, rows[i + 1..], inGuild, now));
          store, closed := one.value.0, closed + one.value.1;
        }
      }
      assert closed + [] == closed;
      lobbies, audit := store.lobbies, store.audit;
      r := Ok(closed);
    }
  }

  function Joined(closed: seq<Lobby>, r: Result<(Store, seq<Lobby>), Error>): Result<(Store, seq<Lobby>), Error> {
    if r.Ok? then Ok((r.value.0, closed + r.value.1)) else r
  }

  lemma JoinedNothing(r: Result<(Store, seq<Lobby>), Error>)
    ensures Joined([], r) == r
  {
    if r.Ok? { assert [] + r.value.1 == r.value.1; }
  }

  lemma JoinedTwice(a: seq<Lobby>, b: seq<Lobby>, r: Result<(Store, seq<Lobby>), Error>)
    ensures Joined(a, Joined(b, r)) == Joined(a + b, r)
  {
    if r.Ok? { assert a + (b + r.value.1) == a + b + r.value.1; }
  }
}
