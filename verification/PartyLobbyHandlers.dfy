/** Every handler keeps rosters and queues in agreement. */
module PartyLobbyHandlers {
  import opened Common
  import opened PartyStore
  import opened PartyStoreInvariant
  import opened PartyStoreTheorems
  import opened PartyLobby
  import opened PartyLobbySteps
  import opened PartyLobbyRoster
  import opened PartyLobbyStages
  import PQ = PartyQueue
  import PQI = PartyQueueInvariant

  // ---- ensure_party_queue on a live lobby -----------------------------------------------

  /** The same players are in the queue. */
  ghost predicate SamePlayers(q: PQ.Queue, p: PQ.Queue) {
    forall u :: PQ.Has(PQ.Everyone(p), u) <==> PQ.Has(PQ.Everyone(q), u)
  }

  lemma SameMembersSamePlayers(q: PQ.Queue, p: PQ.Queue)
    requires multiset(PQ.Everyone(p)) == multiset(PQ.Everyone(q))
    ensures SamePlayers(q, p)
  {
    forall u ensures PQ.Has(PQ.Everyone(p), u) <==> PQ.Has(PQ.Everyone(q), u) {
      PQI.HasMember(PQ.Everyone(p), u);
      PQI.HasMember(PQ.Everyone(q), u);
      forall m ensures m in PQ.Everyone(p) <==> m in PQ.Everyone(q) {
        assert m in multiset(PQ.Everyone(p)) <==> m in multiset(PQ.Everyone(q));
      }
    }
  }

  lemma ActiveIsInQueue(q: PQ.Queue, u: int)
    requires PQ.Has(q.active, u)
    ensures PQ.Has(PQ.Everyone(q), u)
  {
    PQI.HasMember(q.active, u);
    PQI.HasMember(PQ.Everyone(q), u);
  }

  /** After a resize within capacity, the roster lacks exactly the promoted. */
  lemma ResizedLacks(lobby: Lobby, q: PQ.Queue)
    requires PQ.Sound(q) && ValidLobby(lobby) && SameRoster(lobby, q)
    ensures PQ.Resized(q, lobby.capacity).Ok?
    ensures var (p, promoted) := PQ.Resized(q, lobby.capacity).value;
            && PQ.Sound(p) && p.capacity == lobby.capacity && SamePlayers(q, p) && Lacks(lobby, p, promoted)
  {
    PQI.ResizeKeeps(q, lobby.capacity);
    var (p, promoted) := PQ.Resized(q, lobby.capacity).value;
    SameMembersSamePlayers(q, p);
    PQI.FillSeatsPromotes(q.(capacity := lobby.capacity));
    RosterSize(lobby, q);
    ActiveDistinct(p);
    hide PQ.Resized, PQ.FillSeats, PQ.Sound;
    LacksPromoted(lobby, q.active, p.active, promoted);
  }

  lemma LacksPromoted(lobby: Lobby, before: seq<PQ.Member>, after: seq<PQ.Member>, promoted: seq<int>)
    requires PQ.Ids(after) == PQ.Ids(before) + promoted && Distinct(PQ.Ids(after)) && |after| <= lobby.capacity
    requires |lobby.participants| == |before| && forall u :: HasParticipant(lobby, u) <==> PQ.Has(before, u)
    ensures forall u :: PQ.Has(after, u) <==> HasParticipant(lobby, u) || u in promoted
    ensures forall u :: u in promoted ==> !HasParticipant(lobby, u)
    ensures Distinct(promoted) && |lobby.participants| + |promoted| <= lobby.capacity
  {
    var a, all := PQ.Ids(before), PQ.Ids(after);
    forall u ensures PQ.Has(after, u) <==> HasParticipant(lobby, u) || u in promoted {
      HasIsInIds(before, u);
      HasIsInIds(after, u);
    }
    assert forall i :: 0 <= i < |promoted| ==> promoted[i] == all[|a| + i];
    forall u | u in promoted ensures !HasParticipant(lobby, u) {
      var j :| 0 <= j < |promoted| && promoted[j] == u;
      HasIsInIds(before, u);
      assert all[|a| + j] == u;
      assert forall i :: 0 <= i < |a| ==> a[i] == all[i];
    }
    assert |all| == |a| + |promoted|;
  }

  lemma {:induction false} NobodyMissing(q: PQ.Queue, participants: seq<Participant>)
    requires forall p :: p in participants ==> PQ.Has(PQ.Everyone(q), p.userId)
    ensures JoinMissing(q, participants, q) == Ok(q)
    decreases |participants|
  {
    hide PQ.Has, PQ.Joined;
    if participants != [] {
      var p := participants[0];
      assert p in participants;
      NobodyMissing(q, participants[1..]);
    }
  }

  lemma RosterIsKnown(lobby: Lobby, q: PQ.Queue)
    requires forall u :: HasParticipant(lobby, u) ==> PQ.Has(PQ.Everyone(q), u)
    ensures JoinMissing(q, lobby.participants, q) == Ok(q)
  {
    forall p | p in lobby.participants ensures PQ.Has(PQ.Everyone(q), p.userId) {
      var i :| 0 <= i < |lobby.participants| && lobby.participants[i] == p;
      assert UserIds(lobby.participants)[i] == p.userId;
      assert HasParticipant(lobby, p.userId);
    }
    NobodyMissing(q, lobby.participants);
  }

  /** The queue is there, sized as the lobby, with its roster on the lobby's. */
  ghost predicate Ensured(w: World, v: World, env: Env, id: string, interaction: int, done: set<string>) {
    && OthersOk(v, id, interaction, done) && OnlyAt(w, v, id) && v.preferences == w.preferences && LiveAt(v, env, id)
    && id in w.store.lobbies && id in w.queues && SameOtherwise(w.store.lobbies[id], v.store.lobbies[id])
    && SameRoster(v.store.lobbies[id], v.queues[id]) && Led(v.store.lobbies[id])
    && v.queues[id].capacity == v.store.lobbies[id].capacity && SamePlayers(w.queues[id], v.queues[id])
  }

  lemma RosterInQueue(lobby: Lobby, q: PQ.Queue, p: PQ.Queue)
    requires SameRoster(lobby, q) && SamePlayers(q, p)
    ensures forall u :: HasParticipant(lobby, u) ==> PQ.Has(PQ.Everyone(p), u)
  {
    forall u | HasParticipant(lobby, u) ensures PQ.Has(PQ.Everyone(p), u) {
      ActiveIsInQueue(q, u);
    }
  }

  /** On a live lobby the bootstrap cannot fail: neither the resize nor the seating
      of promoted players meets a guard. */
  lemma EnsuresLive(w: World, env: Env, id: string, done: set<string>)
    requires OthersOk(w, id, env.interaction, done) && LiveAt(w, env, id)
    requires SameRoster(w.store.lobbies[id], w.queues[id]) && Led(w.store.lobbies[id])
    ensures var (v, r) := EnsureQueue(w, env, w.store.lobbies[id]);
            Ensured(w, v, env, id, env.interaction, done) && r == Ok(v.queues[id])
  {
    hide StoreOk, OthersOk, LiveAt, OnlyAt, PQ.Sound, PQ.Has, Lacks, SameRoster, Led, SamePlayers, SeatAll, HasParticipant, PQ.Resized, Settled, Distinct;
    LiveIs(w, env, id);
    var lobby, q := w.store.lobbies[id], w.queues[id];
    ResizedLacks(lobby, q);
    var there := QueueThere(w, lobby);
    assert there == w;
    var (resized, failed) := Resize(w, env, lobby);
    if q.capacity == lobby.capacity {
      SamePlayersItself(q);
      StageNothing(w, lobby, env, id, done, done);
      GrownSelf(w, env, id, done);
    } else {
      var (p, promoted) := PQ.Resized(q, lobby.capacity).value;
      QueueReplaced(w, env, id, p, done);
      UnseenAtFirst(w, id, env.interaction, done, promoted);
      SeatsAll(WithQueue(w, id, p), env, lobby, id, promoted, done);
      LiveIs(resized, env, id);
      GrownAfter(w, resized, env, id, p, done);
    }
    GrownIs(w, resized, env, id, done);
    RosterInQueue(lobby, q, resized.queues[id]);
    RosterIsKnown(lobby, resized.queues[id]);
    QueueAsIs(resized, id);
  }

  lemma SamePlayersItself(q: PQ.Queue)
    ensures SamePlayers(q, q)
  {
  }

  lemma QueueAsIs(w: World, id: string)
    requires id in w.queues
    ensures WithQueue(w, id, w.queues[id]) == w
  {
  }

  lemma UnseenAtFirst(w: World, id: string, interaction: int, done: set<string>, users: seq<int>)
    requires OthersOk(w, id, interaction, done)
    ensures UnseenSync(w.store, id, w.store.lobbies[id].version, users)
  {
    SyncIsNew(w.store, id, users);
  }

  /** Replacing the queue of the lobby being changed. */
  lemma QueueReplaced(w: World, env: Env, id: string, q: PQ.Queue, done: set<string>)
    requires OthersOk(w, id, env.interaction, done) && LiveAt(w, env, id) && PQ.Sound(q)
    ensures var v := WithQueue(w, id, q);
            OthersOk(v, id, env.interaction, done) && LiveAt(v, env, id) && OnlyAt(w, v, id)
  {
    hide StoreOk, PQ.Sound;
    OnlyAtQueue(w, id, q);
    OthersStay(w, WithQueue(w, id, q), id, env.interaction, done, done);
  }

  lemma GrownAfter(w: World, v: World, env: Env, id: string, q: PQ.Queue, done: set<string>)
    requires id in w.store.lobbies && LiveAt(v, env, id) && Grown(WithQueue(w, id, q), v, env, id, env.interaction, done)
    ensures OthersOk(v, id, env.interaction, done) && OnlyAt(w, v, id) && v.queues[id] == q && v.preferences == w.preferences
    ensures SameOtherwise(w.store.lobbies[id], v.store.lobbies[id])
  {
    hide OthersOk;
    OnlyAtQueue(w, id, q);
    OnlyAtTransitive(w, WithQueue(w, id, q), v, id);
  }

  lemma GrownIs(w: World, v: World, env: Env, id: string, done: set<string>)
    requires LiveAt(v, env, id)
    ensures id in v.store.lobbies && id in v.queues
  {
  }

  // ---- ensure_party_queue on a terminal lobby -------------------------------------------

  lemma DeadSave(w: World, env: Env, lobby: Lobby, userId: int, p: Preferences, op: OperationId)
    requires Ordered(w.store) && lobby.lobbyId in w.store.lobbies && IsTerminal(w.store.lobbies[lobby.lobbyId].state)
    ensures Save(w, env, lobby.lobbyId, userId, p, op).0 == w
  {
    var c := SaveParticipant(env.guildId, lobby.lobbyId, Seat(userId, p, env.now), op);
    if Used(w.store, op) {
      IdleAgain(w.store, c, env.naming, env.now);
      hide Exec;
    } else {
      DeadStep(w, c, env);
    }
  }

  lemma {:induction false} DeadSeats(w: World, env: Env, lobby: Lobby, users: seq<int>)
    requires Ordered(w.store) && lobby.lobbyId in w.store.lobbies && IsTerminal(w.store.lobbies[lobby.lobbyId].state)
    ensures SeatAll(w, env, lobby, users).0 == w
    decreases |users|
  {
    hide Save, Ordered;
    if users != [] {
      var id := users[0];
      DeadSave(w, env.(guildId := lobby.guildId), lobby, id, PreferencesOf(w, lobby.guildId, id), CapacitySync(lobby.lobbyId, lobby.version, id));
      DeadSeats(w, env, lobby, users[1..]);
    }
  }

  lemma {:induction false} JoinsStaySound(q: PQ.Queue, participants: seq<Participant>, known: PQ.Queue)
    requires PQ.Sound(q) && JoinMissing(q, participants, known).Ok?
    ensures PQ.Sound(JoinMissing(q, participants, known).value)
    decreases |participants|
  {
    hide PQ.Sound, PQ.Joined, PQ.Has;
    if participants != [] {
      if PQ.Has(PQ.Everyone(known), participants[0].userId) {
        JoinsStaySound(q, participants[1..], known);
      } else {
        PQI.JoinKeeps(q, participants[0].userId, RolesOf(participants[0]));
        JoinsStaySound(PQ.Joined(q, participants[0].userId, RolesOf(participants[0])).value.0, participants[1..], known);
      }
    }
  }

  /** A terminal lobby: only its queue can change, and stays sound. */
  ghost predicate DeadAt(w: World, id: string) {
    id in w.store.lobbies && IsTerminal(w.store.lobbies[id].state)
  }

  lemma DeadQueue(w: World, id: string, q: PQ.Queue, interaction: int, done: set<string>)
    requires WorldOk(w, interaction, done) && DeadAt(w, id) && PQ.Sound(q)
    ensures var v := WithQueue(w, id, q);
            WorldOk(v, interaction, done) && OnlyAt(w, v, id) && DeadAt(v, id)
  {
    hide StoreOk, PQ.Sound;
    OnlyAtQueue(w, id, q);
    SettledDead(WithQueue(w, id, q), id);
    SettledAgain(w, WithQueue(w, id, q), id, interaction, done);
  }

  lemma EnsuresDead(w: World, env: Env, lobby: Lobby, done: set<string>)
    requires WorldOk(w, env.interaction, done) && DeadAt(w, lobby.lobbyId) && ValidLobby(lobby)
    ensures var (v, r) := EnsureQueue(w, env, lobby);
            && WorldOk(v, env.interaction, done) && OnlyAt(w, v, lobby.lobbyId) && DeadAt(v, lobby.lobbyId)
            && (r.Ok? ==> lobby.lobbyId in v.queues && v.queues[lobby.lobbyId] == r.value && PQ.Sound(r.value))
  {
    var id := lobby.lobbyId;
    var there := QueueThere(w, lobby);
    NewQueueSound(lobby.capacity);
    OrderedOf(w, env.interaction, done);
    hide WorldOk, PQ.Sound, OnlyAt, SeatAll, JoinMissing, PQ.Resized, Ordered;
    if id in w.queues {
      SoundThere(w, id, env.interaction, done);
      OnlyAtSelf(w, id);
    } else {
      DeadQueue(w, id, PQ.NewQueue(lobby.capacity), env.interaction, done);
    }
    var q := there.queues[id];
    var (resized, failed) := Resize(there, env, lobby);
    ResizesDead(there, env, lobby, done);
    OnlyAtTransitive(w, there, resized, id);
    if failed.None? {
      var known := resized.queues[id];
      if JoinMissing(known, lobby.participants, known).Ok? {
        JoinsStaySound(known, lobby.participants, known);
        var all := JoinMissing(known, lobby.participants, known).value;
        DeadQueue(resized, id, all, env.interaction, done);
        OnlyAtTransitive(w, resized, WithQueue(resized, id, all), id);
      }
    }
  }

  lemma NewQueueSound(capacity: int)
    ensures capacity >= 2 ==> PQ.Sound(PQ.NewQueue(capacity))
  {
    if capacity >= 2 { PQI.NewQueueIsSound(PQ.Config(1, 1, 0, true), capacity, 0); }
  }

  lemma OrderedOf(w: World, interaction: int, done: set<string>)
    requires WorldOk(w, interaction, done)
    ensures Ordered(w.store)
  {
  }

  lemma SoundThere(w: World, id: string, interaction: int, done: set<string>)
    requires WorldOk(w, interaction, done) && id in w.queues
    ensures PQ.Sound(w.queues[id])
  {
  }

  lemma ResizesDead(w: World, env: Env, lobby: Lobby, done: set<string>)
    requires WorldOk(w, env.interaction, done) && DeadAt(w, lobby.lobbyId) && lobby.lobbyId in w.queues && PQ.Sound(w.queues[lobby.lobbyId])
    ensures var (v, failed) := Resize(w, env, lobby);
            && WorldOk(v, env.interaction, done) && OnlyAt(w, v, lobby.lobbyId) && DeadAt(v, lobby.lobbyId)
            && lobby.lobbyId in v.queues && PQ.Sound(v.queues[lobby.lobbyId])
  {
    var id := lobby.lobbyId;
    var q := w.queues[id];
    OrderedOf(w, env.interaction, done);
    OnlyAtSelf(w, id);
    hide WorldOk, PQ.Sound, OnlyAt, SeatAll, PQ.Resized, Ordered;
    if q.capacity != lobby.capacity && PQ.Resized(q, lobby.capacity).Ok? {
      PQI.ResizeKeeps(q, lobby.capacity);
      var (p, promoted) := PQ.Resized(q, lobby.capacity).value;
      DeadQueue(w, id, p, env.interaction, done);
      DeadSeats(WithQueue(w, id, p), env, lobby, promoted);
    }
  }

  // ---- Leaving and dropping ---------------------------------------------------------------

  lemma TouchMakes(lobby: Lobby, c: Command, now: int) returns (changed: Lobby)
    requires c.Touch? && IsRecruiting(lobby.state)
    ensures Makes(lobby, c, now, changed, Touched) && changed.participants == lobby.participants && changed.organizerId == lobby.organizerId
    ensures changed.state == lobby.state && changed.capacity == lobby.capacity && changed.lobbyId == lobby.lobbyId
  {
    changed := Edited(lobby, c, now).value.value.0;
  }

  lemma SameRosterSame(lobby: Lobby, after: Lobby, q: PQ.Queue)
    requires SameRoster(lobby, q) && Led(lobby)
    requires after.participants == lobby.participants && after.organizerId == lobby.organizerId && after.capacity == lobby.capacity
    ensures SameRoster(after, q) && Led(after)
  {
  }

  lemma OthersThere(w: World, id: string, interaction: int, done: set<string>)
    requires OthersOk(w, id, interaction, done)
    ensures id in w.store.lobbies && w.store.lobbies[id].lobbyId == id && Ordered(w.store) && QueuesSound(w)
  {
    ValidThere(w, id, interaction, done);
  }

  /** Touching the clock cannot fail, and leaves the lobby settled. */
  lemma Touches(w: World, env: Env, id: string, done: set<string>)
    requires OthersOk(w, id, env.interaction, done) && Settled(w, id) && "touch" !in done
    requires !IsTerminal(w.store.lobbies[id].state) ==> LiveAt(w, env, id)
    ensures var (v, r) := PartyLobby.Touched(w, env, w.store.lobbies[id]);
            && StageDone(w, v, r, id, env.interaction, done + {"touch"}) && Settled(v, id)
            && SamePeople(w.store.lobbies[id], r.value) && r.value.state == w.store.lobbies[id].state
  {
    hide Do, StoreOk, OthersOk, LiveAt, OnlyAt, StageDone, SameRoster, Led, Makes, Used;
    OthersThere(w, id, env.interaction, done);
    var lobby := w.store.lobbies[id];
    if !IsRecruiting(lobby.state) {
      StageNothing(w, lobby, env, id, done, done + {"touch"});
    } else {
      LiveIs(w, env, id);
      var c := Touch(env.guildId, id, Discord(env.interaction, "touch", 0), 60);
      var changed := TouchMakes(lobby, c, env.now);
      StageStepIsNew(w, id, env.interaction, done, "touch", 0);
      StageMakes(w, c, env, changed, EventKind.Touched, done, done + {"touch"});
      var (v, r) := Do(w, c, env);
      StageIs(w, v, r, id, env.interaction, done + {"touch"});
      SameRosterSame(lobby, changed, w.queues[id]);
    }
  }

  const TAIL := SUCCESSION + {"reopen", "touch"}

  /** After the roster has followed a departure, nothing can fail any more, and the
      lobby ends led, or cancelled. */
  lemma AfterLeaveDone(w: World, env: Env, id: string, userId: int, dropping: bool, done: set<string>)
    requires OthersOk(w, id, env.interaction, done) && LiveAt(w, env, id) && FitsBut(w, id, userId) && TAIL !! done
    ensures var (v, r) := AfterLeave(w, env, w.store.lobbies[id], userId, dropping);
            && StageDone(w, v, r, id, env.interaction, done + TAIL) && Settled(v, id)
            && HandsOn(w.store.lobbies[id].organizerId, r.value, userId)
  {
    hide Do, Move, StoreOk, OthersOk, LiveAt, OnlyAt, StageDone, FitsBut, Settled, Reopen, Succession, PartyLobby.Touched, HandsOn;
    LiveIs(w, env, id);
    var lobby := w.store.lobbies[id];
    var d1 := done + {"reopen"};
    var (v1, r1) := if dropping then Reopen(w, env, lobby) else (w, Ok(lobby));
    if dropping { Reopens(w, env, id, userId, done); } else { StageNothing(w, lobby, env, id, done, d1); }
    StageIs(w, v1, r1, id, env.interaction, d1);
    Succeeds(v1, env, id, userId, d1);
    var (v2, r2) := Succession(v1, env, r1.value, userId);
    var d2 := d1 + SUCCESSION;
    StageIs(v1, v2, r2, id, env.interaction, d2);
    Touches(v2, env, id, d2);
    var (v3, r3) := PartyLobby.Touched(v2, env, r2.value);
    assert d2 + {"touch"} == done + TAIL;
    StageThen(w, v1, v2, r1, r2, id, env.interaction, d1, d2);
    StageThen(w, v2, v3, r2, r3, id, env.interaction, d2, done + TAIL);
    StageIs(v2, v3, r3, id, env.interaction, done + TAIL);
    HandsOnStill(lobby.organizerId, r2.value, r3.value, userId);
  }

  lemma AfterDropDone(w: World, env: Env, id: string, userId: int, done: set<string>)
    requires OthersOk(w, id, env.interaction, done) && LiveAt(w, env, id) && FitsBut(w, id, userId) && TAIL !! done
    ensures var (v, r) := AfterDrop(w, env, w.store.lobbies[id], userId);
            && StageDone(w, v, r, id, env.interaction, done + TAIL) && Settled(v, id)
            && HandsOn(w.store.lobbies[id].organizerId, r.value, userId)
  {
    hide Do, Move, StoreOk, OthersOk, LiveAt, OnlyAt, StageDone, FitsBut, Settled, Reopen, Succession, PartyLobby.Touched, IsTerminal, HandsOn;
    LiveIs(w, env, id);
    var d1 := done + SUCCESSION;
    Succeeds(w, env, id, userId, done);
    var (v1, r1) := Succession(w, env, w.store.lobbies[id], userId);
    StageIs(w, v1, r1, id, env.interaction, d1);
    var d2 := d1 + {"reopen"};
    var (v2, r2) := Reopen(v1, env, r1.value);
    ReopensSettled(v1, env, id, userId, d1);
    StageIs(v1, v2, r2, id, env.interaction, d2);
    Touches(v2, env, id, d2);
    var (v3, r3) := PartyLobby.Touched(v2, env, r2.value);
    assert d2 + {"touch"} == done + TAIL;
    StageThen(w, v1, v2, r1, r2, id, env.interaction, d1, d2);
    StageThen(w, v2, v3, r2, r3, id, env.interaction, d2, done + TAIL);
    var organizer := w.store.lobbies[id].organizerId;
    HandsOnStill(organizer, r1.value, r2.value, userId);
    StageIs(v2, v3, r3, id, env.interaction, done + TAIL);
    HandsOnStill(organizer, r2.value, r3.value, userId);
  }

  lemma ReopensSettled(w: World, env: Env, id: string, userId: int, done: set<string>)
    requires OthersOk(w, id, env.interaction, done) && Settled(w, id) && "reopen" !in done
    requires !IsTerminal(w.store.lobbies[id].state) ==> LiveAt(w, env, id)
    ensures var (v, r) := Reopen(w, env, w.store.lobbies[id]);
            && StageDone(w, v, r, id, env.interaction, done + {"reopen"}) && Settled(v, id)
            && SamePeople(w.store.lobbies[id], r.value) && (w.store.lobbies[id].state == Cancelled ==> r.value.state == Cancelled)
            && (!IsTerminal(v.store.lobbies[id].state) ==> LiveAt(v, env, id))
  {
    hide Do, Move, StoreOk, OthersOk, LiveAt, OnlyAt, StageDone, SameRoster, Led;
    OthersThere(w, id, env.interaction, done);
    var lobby := w.store.lobbies[id];
    if IsTerminal(lobby.state) || lobby.state != ReadyCheck {
      StageNothing(w, lobby, env, id, done, done + {"reopen"});
    } else {
      LiveIs(w, env, id);
      Moves(w, env, id, Open, "reopen", done);
      var (v, r) := Move(w, env, id, Open, "reopen");
      StageIs(w, v, r, id, env.interaction, done + {"reopen"});
      MovedFits(lobby, r.value, Open, w.queues[id]);
    }
  }
}
