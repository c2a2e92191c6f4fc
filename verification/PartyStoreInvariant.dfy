/** What every run of store commands keeps: one audit path for each lobby, unique
    operations, valid lobbies, distinct queue codes. */
module PartyStoreInvariant {
  import opened Common
  import opened PartyStore

  function EventsOf(audit: seq<Event>, lobbyId: string): seq<Event> {
    if audit == [] then []
    else
      var n := |audit| - 1;
      EventsOf(audit[..n], lobbyId) + (if audit[n].lobbyId == lobbyId then [audit[n]] else [])
  }

  ghost predicate Legal(e: Event, from: LobbyState) {
    e.fromState == Some(from) && MayTransition(from, e.toState)
  }

  /** One connected path from the creation, in OPEN, to this state, each step
      staying or following an allowed transition. */
  ghost predicate IsPath(events: seq<Event>, end: LobbyState)
    decreases |events|
  {
    events != [] &&
    var n := |events| - 1;
    && events[n].toState == end
    && if n == 0 then events[0].fromState == None && events[0].toState == Open && events[0].kind == Created
       else exists from :: Legal(events[n], from) && IsPath(events[..n], from)
  }

  ghost predicate OperationsDiffer(audit: seq<Event>) {
    forall i, j :: 0 <= i < j < |audit| ==> audit[i].operation != audit[j].operation
  }

  /** An event's lobby exists in its guild, and its command was about that lobby. */
  ghost predicate AboutItsLobby(store: Store, e: Event) {
    && e.lobbyId in store.lobbies && store.lobbies[e.lobbyId].guildId == e.guildId
    && e.fingerprint.lobbyId == e.lobbyId && e.fingerprint.guildId == e.guildId
    && !IsBlank(e.operation)
  }

  ghost predicate LobbyInOrder(store: Store, id: string)
    requires id in store.lobbies
  {
    && store.lobbies[id].lobbyId == id && ValidLobby(store.lobbies[id])
    && IsPath(EventsOf(store.audit, id), store.lobbies[id].state)
  }

  ghost predicate SharesCode(a: Lobby, b: Lobby) {
    a.guildId == b.guildId && a.queueCode == b.queueCode && !IsTerminal(a.state) && !IsTerminal(b.state)
  }

  /** No two active lobbies of a guild have the same queue code. */
  ghost predicate CodesDiffer(store: Store) {
    forall a, b :: a in store.lobbies && b in store.lobbies && a != b ==> !SharesCode(store.lobbies[a], store.lobbies[b])
  }

  ghost predicate LobbiesInOrder(store: Store) {
    forall id :: id in store.lobbies ==> LobbyInOrder(store, id)
  }

  ghost predicate EventsInOrder(store: Store) {
    forall i :: 0 <= i < |store.audit| ==> AboutItsLobby(store, store.audit[i])
  }

  ghost predicate Ordered(store: Store) {
    LobbiesInOrder(store) && EventsInOrder(store) && OperationsDiffer(store.audit) && CodesDiffer(store)
  }

  // ---- A commit keeps it ----------------------------------------------------------

  lemma UsedOperation(audit: seq<Event>, op: OperationId)
    ensures IndexOf(audit, op) < |audit| <==> exists i :: 0 <= i < |audit| && audit[i].operation == op
  {
    if i :| 0 <= i < |audit| && audit[i].operation == op {
    }
  }

  lemma EventsOfAppend(audit: seq<Event>, e: Event, id: string)
    ensures EventsOf(audit + [e], id) == EventsOf(audit, id) + (if e.lobbyId == id then [e] else [])
  {
    assert (audit + [e])[..|audit|] == audit;
  }

  /** What a change to one lobby must respect. */
  ghost predicate ProperChange(before: Lobby, after: Lobby) {
    && after.lobbyId == before.lobbyId && after.guildId == before.guildId && after.queueCode == before.queueCode
    && MayTransition(before.state, after.state) && ValidLobby(after)
  }

  lemma LobbiesStay(store: Store, lobby: Lobby, e: Event)
    requires LobbiesInOrder(store) && e.lobbyId == lobby.lobbyId && ValidLobby(lobby)
    requires IsPath(EventsOf(store.audit, lobby.lobbyId) + [e], lobby.state)
    ensures LobbiesInOrder(Store(store.lobbies[lobby.lobbyId := lobby], store.audit + [e]))
  {
    var next := Store(store.lobbies[lobby.lobbyId := lobby], store.audit + [e]);
    hide EventsOf, IsPath, ValidLobby;
    forall id | id in next.lobbies ensures LobbyInOrder(next, id) {
      EventsOfAppend(store.audit, e, id);
      if id != lobby.lobbyId {
        assert LobbyInOrder(store, id);
        assert EventsOf(store.audit, id) + [] == EventsOf(store.audit, id);
      }
    }
  }

  lemma EventsStay(store: Store, lobby: Lobby, e: Event)
    requires EventsInOrder(store) && (lobby.lobbyId in store.lobbies ==> store.lobbies[lobby.lobbyId].guildId == lobby.guildId)
    requires AboutItsLobby(Store(store.lobbies[lobby.lobbyId := lobby], store.audit + [e]), e)
    ensures EventsInOrder(Store(store.lobbies[lobby.lobbyId := lobby], store.audit + [e]))
  {
    var next := Store(store.lobbies[lobby.lobbyId := lobby], store.audit + [e]);
    forall i | 0 <= i < |next.audit| ensures AboutItsLobby(next, next.audit[i]) {
      if i < |store.audit| { assert AboutItsLobby(store, store.audit[i]); }
    }
  }

  lemma OperationsStay(audit: seq<Event>, e: Event)
    requires OperationsDiffer(audit) && IndexOf(audit, e.operation) == |audit|
    ensures OperationsDiffer(audit + [e])
  {
  }

  lemma CommitKeeps(store: Store, changed: Lobby, op: OperationId, mark: Fingerprint, kind: EventKind, now: int)
    requires Ordered(store) && changed.lobbyId in store.lobbies && ProperChange(store.lobbies[changed.lobbyId], changed)
    requires !Used(store, op) && !IsBlank(op) && mark.lobbyId == changed.lobbyId && mark.guildId == changed.guildId
    ensures Ordered(Commit(store, changed, op, mark, kind, Some(store.lobbies[changed.lobbyId].state), now))
  {
    var id := changed.lobbyId;
    var before := store.lobbies[id];
    var next := Commit(store, changed, op, mark, kind, Some(before.state), now);
    var e := Event(id, changed.guildId, op, mark, kind, Some(before.state), changed.state, now);
    assert LobbyInOrder(store, id);
    CodesStay(store, changed);
    hide EventsOf, IndexOf, LobbiesInOrder, EventsInOrder, OperationsDiffer, CodesDiffer, IsPath;
    PathGrows(EventsOf(store.audit, id), before.state, e);
    LobbiesStay(store, changed, e);
    EventsStay(store, changed, e);
    OperationsStay(store.audit, e);
    CodesIgnoreAudit(store.(lobbies := next.lobbies), next);
  }

  lemma CodesIgnoreAudit(a: Store, b: Store)
    requires CodesDiffer(a) && a.lobbies == b.lobbies
    ensures CodesDiffer(b)
  {
  }

  lemma PathGrows(events: seq<Event>, from: LobbyState, e: Event)
    requires IsPath(events, from) && Legal(e, from)
    ensures IsPath(events + [e], e.toState)
  {
    assert (events + [e])[..|events|] == events;
  }

  lemma CodesStay(store: Store, changed: Lobby)
    requires CodesDiffer(store) && changed.lobbyId in store.lobbies && ProperChange(store.lobbies[changed.lobbyId], changed)
    ensures CodesDiffer(store.(lobbies := store.lobbies[changed.lobbyId := changed]))
  {
    var next := store.(lobbies := store.lobbies[changed.lobbyId := changed]);
    forall a, b | a in next.lobbies && b in next.lobbies && a != b ensures !SharesCode(next.lobbies[a], next.lobbies[b]) {
      assert !SharesCode(store.lobbies[a], store.lobbies[b]);
    }
  }

  // ---- Participants stay valid ------------------------------------------------------

  lemma PositionIs(participants: seq<Participant>, userId: int)
    ensures Position(participants, userId) < |participants| <==> userId in UserIds(participants)
  {
    var ids := UserIds(participants);
    var i := Position(participants, userId);
    if i < |participants| { assert ids[i] == userId; }
    if j :| 0 <= j < |ids| && ids[j] == userId {
    }
  }

  lemma SavedIs(participants: seq<Participant>, p: Participant)
    requires Distinct(UserIds(participants))
    ensures var r := Saved(participants, p);
            && Distinct(UserIds(r)) && (forall id :: id in UserIds(r) <==> id in UserIds(participants) || id == p.userId)
            && |r| == |participants| + (if p.userId in UserIds(participants) then 0 else 1)
  {
    var i := Position(participants, p.userId);
    PositionIs(participants, p.userId);
    if i < |participants| {
      assert UserIds(Saved(participants, p)) == UserIds(participants);
    } else {
      InsertIds(participants, p);
    }
  }

  lemma {:induction false} InsertIds(participants: seq<Participant>, p: Participant)
    requires Distinct(UserIds(participants)) && p.userId !in UserIds(participants)
    ensures var r := Insert(participants, p, SeatKey);
            && Distinct(UserIds(r)) && (forall id :: id in UserIds(r) <==> id in UserIds(participants) || id == p.userId)
            && |r| == |participants| + 1
  {
    var n := |participants| - 1;
    if participants != [] && LexLess(SeatKey(p), SeatKey(participants[n])) {
      var front, last := participants[..n], participants[n];
      assert participants == front + [last];
      assert UserIds(participants) == UserIds(front) + [last.userId];
      SnocDistinct(UserIds(front), last.userId);
      InsertIds(front, p);
      var r := Insert(front, p, SeatKey);
      assert UserIds(r + [last]) == UserIds(r) + [last.userId];
      SnocDistinct(UserIds(r), last.userId);
    } else {
      assert UserIds(participants + [p]) == UserIds(participants) + [p.userId];
      SnocDistinct(UserIds(participants), p.userId);
    }
  }

  lemma SnocDistinct(ids: seq<int>, id: int)
    ensures Distinct(ids + [id]) <==> Distinct(ids) && id !in ids
  {
    var all := ids + [id];
    if Distinct(all) {
      assert forall i :: 0 <= i < |ids| ==> all[i] == ids[i];
      assert all[|ids|] == id;
    }
  }

  lemma RemovedIs(participants: seq<Participant>, userId: int)
    requires Distinct(UserIds(participants))
    ensures var r := Removed(participants, userId);
            && Distinct(UserIds(r)) && (forall id :: id in UserIds(r) <==> id in UserIds(participants) && id != userId)
            && |r| == |participants| - (if userId in UserIds(participants) then 1 else 0)
  {
    var ids, i := UserIds(participants), Position(participants, userId);
    PositionIs(participants, userId);
    var r := Removed(participants, userId);
    if i < |participants| {
      assert UserIds(r) == ids[..i] + ids[i + 1..];
      assert ids == ids[..i] + [ids[i]] + ids[i + 1..];
    }
  }

  // ---- Every command keeps it -----------------------------------------------------

  lemma EditIsProper(lobby: Lobby, c: Command, now: int)
    requires !c.Create? && !c.ExpireDue? && ValidLobby(lobby)
    requires Edited(lobby, c, now).Ok? && Edited(lobby, c, now).value.Some?
    ensures ProperChange(lobby, Edited(lobby, c, now).value.value.0)
  {
    match c
    case SaveParticipant(_, _, p, _) => SavedIs(lobby.participants, p);
    case RemoveParticipant(_, _, user, _) => RemovedIs(lobby.participants, user);
    case _ =>
  }

  lemma ChangedKeeps(store: Store, c: Command, now: int)
    requires Ordered(store) && !c.Create? && !c.ExpireDue? && Changed(store, c, now).Ok?
    ensures Ordered(Changed(store, c, now).value.0)
  {
    hide Edited, Commit, Ordered, IsPath;
    var found := Find(store, c.guildId, c.lobbyId);
    var next := Changed(store, c, now).value.0;
    if next != store {
      var lobby := found.value;
      assert LobbyInOrder(store, c.lobbyId) by { InOrderThere(store, c.lobbyId); }
      EditIsProper(lobby, c, now);
      var (changed, kind) := Edited(lobby, c, now).value.value;
      CommitKeeps(store, changed, c.op, MarkOf(c), kind, now);
    }
  }

  lemma InOrderThere(store: Store, id: string)
    requires Ordered(store) && id in store.lobbies
    ensures LobbyInOrder(store, id)
  {
  }

  lemma {:induction false} FreeCodeIsFree(store: Store, guildId: int, lobbyId: string, naming: Naming, salt: nat)
    requires salt <= SALTS
    ensures var r := FreeCode(store, guildId, lobbyId, naming, salt);
            r.Some? ==> !CodeInUse(store, guildId, r.value) && exists k :: salt <= k < SALTS && r.value == naming.code(lobbyId, k)
    decreases SALTS - salt
  {
    if salt < SALTS && CodeInUse(store, guildId, naming.code(lobbyId, salt)) {
      FreeCodeIsFree(store, guildId, lobbyId, naming, salt + 1);
    }
  }

  lemma CreateKeeps(store: Store, c: Command, naming: Naming, now: int)
    requires Ordered(store) && c.Create? && MakeLobby(store, c, naming, now).Ok?
    ensures Ordered(MakeLobby(store, c, naming, now).value.0)
  {
    hide Ordered, Commit, FreeCode, IndexOf, CodeInUse, ValidLobby;
    var id := NewId(c, naming);
    var (next, lobby) := MakeLobby(store, c, naming, now).value;
    if next != store {
      FreeCodeIsFree(store, c.guildId, id, naming, 0);
      NewLobbyIsValid(c, id, lobby.queueCode, now);
      NewLobbyKeeps(store, lobby, c.op, CreateMark(c.guildId, id), now);
    }
  }

  lemma NewLobbyIsValid(c: Command, id: string, code: string, now: int)
    requires c.Create? && c.capacity >= 2
    ensures ValidLobby(NewLobby(c, id, code, now))
  {
    assert UserIds([]) == [];
  }

  lemma NewLobbyKeeps(store: Store, lobby: Lobby, op: OperationId, mark: Fingerprint, now: int)
    requires Ordered(store) && lobby.lobbyId !in store.lobbies && ValidLobby(lobby) && lobby.state == Open
    requires !Used(store, op) && !IsBlank(op) && mark.lobbyId == lobby.lobbyId && mark.guildId == lobby.guildId
    requires !CodeInUse(store, lobby.guildId, lobby.queueCode)
    ensures Ordered(Commit(store, lobby, op, mark, Created, None, now))
  {
    var id := lobby.lobbyId;
    var next := Commit(store, lobby, op, mark, Created, None, now);
    var e := Event(id, lobby.guildId, op, mark, Created, None, Open, now);
    NoEventsYet(store, id);
    NewCodeDiffers(store, lobby);
    assert IsPath([] + [e], Open);
    hide EventsOf, IndexOf, LobbiesInOrder, EventsInOrder, OperationsDiffer, CodesDiffer, IsPath, CodeInUse, ValidLobby;
    LobbiesStay(store, lobby, e);
    EventsStay(store, lobby, e);
    OperationsStay(store.audit, e);
    CodesIgnoreAudit(store.(lobbies := next.lobbies), next);
  }

  lemma NoEventsYet(store: Store, id: string)
    requires Ordered(store) && id !in store.lobbies
    ensures EventsOf(store.audit, id) == []
  {
    forall i | 0 <= i < |store.audit| ensures store.audit[i].lobbyId != id {
      assert AboutItsLobby(store, store.audit[i]);
    }
    NoEvents(store.audit, id);
  }

  lemma {:induction false} NoEvents(audit: seq<Event>, id: string)
    requires forall i :: 0 <= i < |audit| ==> audit[i].lobbyId != id
    ensures EventsOf(audit, id) == []
  {
    if audit != [] { NoEvents(audit[..|audit| - 1], id); }
  }

  lemma NewCodeDiffers(store: Store, lobby: Lobby)
    requires CodesDiffer(store) && lobby.lobbyId !in store.lobbies && !CodeInUse(store, lobby.guildId, lobby.queueCode)
    ensures CodesDiffer(store.(lobbies := store.lobbies[lobby.lobbyId := lobby]))
  {
    var next := store.(lobbies := store.lobbies[lobby.lobbyId := lobby]);
    forall a, b | a in next.lobbies && b in next.lobbies && a != b ensures !SharesCode(next.lobbies[a], next.lobbies[b]) {
      if a != lobby.lobbyId && b != lobby.lobbyId { assert !SharesCode(store.lobbies[a], store.lobbies[b]); }
    }
  }

  lemma ExpireOneKeeps(store: Store, id: string, now: int)
    requires Ordered(store) && id in store.lobbies && DueToExpire(store.lobbies[id], now)
    requires ExpireOne(store, store.lobbies[id], now).Ok?
    ensures Ordered(ExpireOne(store, store.lobbies[id], now).value.0)
  {
    var lobby := store.lobbies[id];
    assert LobbyInOrder(store, id);
    hide Commit, Ordered, IsPath;
    if ExpireOne(store, lobby, now).value.0 != store {
      CommitKeeps(store, ExpiredLobby(lobby, now), ExpiryOp(lobby.guildId, lobby.lobbyId, lobby.expiresAt.value),
                  TransitionMark(lobby.guildId, lobby.lobbyId, Expired), ExpiredByClock, now);
    }
  }

  lemma {:induction false} ExpireKeeps(store: Store, rows: seq<string>, inGuild: Option<int>, now: int)
    requires Ordered(store) && ExpireRows(store, rows, inGuild, now).Ok?
    ensures Ordered(ExpireRows(store, rows, inGuild, now).value.0)
    decreases |rows|
  {
    hide ExpireOne, Ordered;
    if rows != [] {
      if !Selected(store, rows[0], inGuild, now) {
        ExpireKeeps(store, rows[1..], inGuild, now);
      } else {
        ExpireOneKeeps(store, rows[0], now);
        ExpireKeeps(ExpireOne(store, store.lobbies[rows[0]], now).value.0, rows[1..], inGuild, now);
      }
    }
  }

  lemma CommandKeepsOrder(store: Store, c: Command, naming: Naming, now: int)
    requires Ordered(store)
    ensures Ordered(After(store, c, naming, now))
  {
    hide Ordered, MakeLobby, ExpireRows, Changed;
    if Exec(store, c, naming, now).Ok? {
      if c.Create? { CreateKeeps(store, c, naming, now); }
      else if c.ExpireDue? { ExpireKeeps(store, c.rows, c.inGuild, now); }
      else { ChangedKeeps(store, c, now); }
    }
  }

  /** In every run from the empty store, each lobby's audit log is one connected
      path from OPEN to its stored state, operation IDs are recorded once, and the
      active lobbies of a guild have different queue codes. */
  lemma {:induction false} EveryRunIsOrdered(run: seq<Timed>, naming: Naming)
    ensures Ordered(RunAll(EMPTY_STORE, run, naming))
  {
    hide After;
    if run != [] {
      var n := |run| - 1;
      EveryRunIsOrdered(run[..n], naming);
      CommandKeepsOrder(RunAll(EMPTY_STORE, run[..n], naming), run[n].command, naming, run[n].now);
    }
  }
}
