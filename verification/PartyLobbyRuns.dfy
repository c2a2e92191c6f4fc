/** Every run of handler calls: rosters agree with queues, lobbies are led, and
    no player is in two live lobbies of a guild. */
module PartyLobbyRuns {
  import opened Common
  import opened PartyStore
  import opened PartyStoreInvariant
  import opened PartyLobby
  import opened PartyLobbySteps
  import opened PartyLobbyRoster
  import opened PartyLobbyStages
  import opened PartyLobbyHandlers
  import opened PartyLobbyCalls
  import opened PartyLobbyEntry
  import PQ = PartyQueue

  // ---- One lobby for each player ----------------------------------------------------------

  ghost predicate Live(w: World, id: string) { id in w.store.lobbies && !IsTerminal(w.store.lobbies[id].state) }

  ghost predicate InQueue(w: World, id: string, u: int) { id in w.queues && PQ.Has(PQ.Everyone(w.queues[id]), u) }

  ghost predicate Neighbours(w: World, a: string, b: string) {
    Live(w, a) && Live(w, b) && a != b && w.store.lobbies[a].guildId == w.store.lobbies[b].guildId
  }

  /** No player waits or plays in two live lobbies of one guild. */
  ghost predicate Solo(w: World) {
    forall a, b, u :: Neighbours(w, a, b) && InQueue(w, a, u) ==> !InQueue(w, b, u)
  }

  ghost predicate NotElsewhere(w: World, id: string, u: int) {
    forall k :: Neighbours(w, id, k) ==> !InQueue(w, k, u)
  }

  lemma LiveBefore(w: World, v: World, id: string, k: string)
    requires OnlyAt(w, v, id) && Live(v, k)
    ensures Live(w, k) && v.store.lobbies[k].guildId == w.store.lobbies[k].guildId
  {
  }

  lemma QueueBefore(w: World, v: World, id: string, k: string, extra: Option<int>, u: int)
    requires OnlyAt(w, v, id) && PlayersFrom(w, v, id, extra) && Live(v, k)
    ensures InQueue(v, k, u) ==> InQueue(w, k, u) || (k == id && extra == Some(u))
  {
    hide PQ.Has;
    if k != id { OtherQueue(w, v, id, k); }
  }

  lemma KeptSolo(w: World, v: World, id: string, interaction: int, extra: Option<int>)
    requires Solo(w) && Kept(w, v, id, interaction, extra) && (extra.Some? ==> NotElsewhere(w, id, extra.value))
    ensures Solo(v)
  {
    hide WorldOk, InQueue, Live, OnlyAt, PlayersFrom;
    if v.store == w.store && v.queues == w.queues {
      SoloSame(w, v);
    } else {
      forall a, b, u | Neighbours(v, a, b) && InQueue(v, a, u) ensures !InQueue(v, b, u) {
        LiveBefore(w, v, id, a);
        LiveBefore(w, v, id, b);
        assert Neighbours(w, a, b) && Neighbours(w, b, a);
        QueueBefore(w, v, id, a, extra, u);
        QueueBefore(w, v, id, b, extra, u);
      }
    }
  }

  lemma SoloSame(w: World, v: World)
    requires Solo(w) && v.store == w.store && v.queues == w.queues
    ensures Solo(v)
  {
    hide PQ.Has;
    forall a, b, u | Neighbours(v, a, b) && InQueue(v, a, u) ensures !InQueue(v, b, u) {
      assert Neighbours(w, a, b) && InQueue(w, a, u);
      assert InQueue(v, b, u) <==> InQueue(w, b, u);
    }
  }

  lemma SweptSolo(w: World, v: World)
    requires Solo(w) && SweptFrom(w.store, v.store) && v.queues == w.queues
    ensures Solo(v)
  {
    hide PQ.Has;
    forall a, b, u | Neighbours(v, a, b) && InQueue(v, a, u) ensures !InQueue(v, b, u) {
      assert SameOrExpired(w.store.lobbies[a], v.store.lobbies[a]) && SameOrExpired(w.store.lobbies[b], v.store.lobbies[b]);
      assert Neighbours(w, a, b) && InQueue(w, a, u);
      assert InQueue(v, b, u) <==> InQueue(w, b, u);
    }
  }

  /** The booking check covers rosters and queues, waitlists included. */
  lemma NotBookedElsewhere(w: World, guildId: int, id: string, u: int)
    requires !Booked(w, guildId, u, Some(id)) && (id in w.store.lobbies ==> w.store.lobbies[id].guildId == guildId)
    ensures NotElsewhere(w, id, u)
  {
    hide PQ.Has;
    forall k | Neighbours(w, id, k) ensures !InQueue(w, k, u) {
      assert !BookedIn(w, k, guildId, u, Some(id));
    }
  }

  // ---- Joining ------------------------------------------------------------------------------

  lemma PreferencesKeep(w: World, p: map<(int, int), Preferences>, interaction: int, done: set<string>)
    requires WorldOk(w, interaction, done)
    ensures WorldOk(w.(preferences := p), interaction, done)
  {
    hide StoreOk, PQ.Sound;
    var v := w.(preferences := p);
    forall id | id in v.store.lobbies ensures Settled(v, id) { assert Settled(w, id); }
  }

  lemma EnsuredJoining(w: World, v: World, env: Env, id: string, lobby: Lobby)
    requires Ensured(w, v, env, id, env.interaction, {}) && lobby.lobbyId == id && PQ.Sound(v.queues[id])
    ensures Joining(v, env, id, v.queues[id], lobby)
  {
  }

  lemma JoinOnLive(w: World, env: Env, id: string, userId: int, profile: Preferences, lobby: Lobby)
    requires WorldOk(w, env.interaction, {}) && Live(w, id) && lobby == w.store.lobbies[id] && lobby.guildId == env.guildId
    ensures var (e, q) := EnsureQueue(w, env, lobby);
            q.Ok? && Kept(w, JoinQueue(e, env, lobby, q.value, userId, profile).0, id, env.interaction, Some(userId))
  {
    hide StoreOk, OthersOk, LiveAt, OnlyAt, PQ.Sound, PQ.Has, SameRoster, Led, EnsureQueue, JoinQueue, WorldOk, Kept, SamePlayers, Joining, PlayersFrom, Ensured;
    LiveThere(w, env, id, {});
    EnsuresLive(w, env, id, {});
    var (e, q) := EnsureQueue(w, env, lobby);
    EnsuredIs(w, e, env, id);
    EnsuredJoining(w, e, env, id, lobby);
    JoinsLive(e, env, id, q.value, lobby, userId, profile);
    var v := JoinQueue(e, env, lobby, q.value, userId, profile).0;
    OnlyAtTransitive(w, e, v, id);
    PlayersThrough(w, e, v, env, id, userId);
    KeptAt(w, v, id, env.interaction, {"join"} + FINISH, Some(userId));
  }

  lemma EnsuredIs(w: World, v: World, env: Env, id: string)
    requires Ensured(w, v, env, id, env.interaction, {})
    ensures OnlyAt(w, v, id) && id in v.queues && id in v.store.lobbies && PQ.Sound(v.queues[id]) && v.store.lobbies[id].lobbyId == id
  {
  }

  lemma PlayersThrough(w: World, e: World, v: World, env: Env, id: string, userId: int)
    requires Ensured(w, e, env, id, env.interaction, {}) && PlayersFrom(e, v, id, Some(userId))
    ensures PlayersFrom(w, v, id, Some(userId))
  {
    hide PQ.Has, OthersOk, OnlyAt;
  }

  lemma JoinOnDead(w: World, env: Env, lobby: Lobby, userId: int, profile: Preferences)
    requires WorldOk(w, env.interaction, {}) && DeadAt(w, lobby.lobbyId) && ValidLobby(lobby)
    ensures var (e, q) := EnsureQueue(w, env, lobby);
            if q.Err? then Kept(w, e, lobby.lobbyId, env.interaction, Some(userId))
            else Kept(w, JoinQueue(e, env, lobby, q.value, userId, profile).0, lobby.lobbyId, env.interaction, Some(userId))
  {
    hide OnlyAt, PQ.Sound, PQ.Has, EnsureQueue, WorldOk, Kept, PQ.Joined, Do, StartWhenFull, PartyLobby.Touched;
    var id := lobby.lobbyId;
    EnsuresDead(w, env, lobby, {});
    var (e, q) := EnsureQueue(w, env, lobby);
    if q.Err? || PQ.Joined(q.value, userId, RoleList(profile)).Err? {
      DeadKept(w, e, id, env.interaction, {}, Some(userId));
    } else {
      JoinedIs(q.value, userId, RoleList(profile));
      var (p, to) := PQ.Joined(q.value, userId, RoleList(profile)).value;
      DeadQueue(e, id, p, env.interaction, {});
      var m := WithQueue(e, id, p);
      OnlyAtTransitive(w, e, m, id);
      if to == PQ.ToWaitlist {
        EndsDead(w, m, env, lobby, p, userId);
      } else {
        WorldStepIsNew(m, env.interaction, {}, "join", 0);
        DeadStep(m, SaveParticipant(env.guildId, id, Seat(userId, profile, env.now), Discord(env.interaction, "join", 0)), env);
        DeadKept(w, m, id, env.interaction, {}, Some(userId));
      }
    }
  }

  lemma EndsDead(w: World, m: World, env: Env, lobby: Lobby, p: PQ.Queue, userId: int)
    requires WorldOk(m, env.interaction, {}) && OnlyAt(w, m, lobby.lobbyId) && DeadAt(m, lobby.lobbyId)
    requires lobby.lobbyId in m.queues && m.queues[lobby.lobbyId] == p
    ensures var (touched, t) := PartyLobby.Touched(m, env, lobby);
            var u := if t.Err? then touched else StartWhenFull(touched, env, lobby.lobbyId, p, t.value).0;
            Kept(w, u, lobby.lobbyId, env.interaction, Some(userId))
  {
    hide WorldOk, PQ.Has, StartWhenFull, PartyLobby.Touched, Kept;
    FinishKeeps(m, env, lobby.lobbyId, lobby, {});
    var (touched, t) := PartyLobby.Touched(m, env, lobby);
    var u := if t.Err? then touched else StartWhenFull(touched, env, lobby.lobbyId, p, t.value).0;
    OnlyAtTransitive(w, m, u, lobby.lobbyId);
    assert DeadAt(u, lobby.lobbyId);
    DeadKept(w, u, lobby.lobbyId, env.interaction, {} + FINISH, Some(userId));
  }

  /** Joining keeps rosters in agreement and never books a player twice. */
  lemma JoinKeepsWorld(w: World, env: Env, id: string, userId: int, profile: Preferences)
    requires WorldOk(w, env.interaction, {}) && Solo(w)
    ensures var v := JoinLobby(w, env, id, userId, profile).0; WorldOk(v, env.interaction, STEPS) && Solo(v)
  {
    hide WorldOk, Solo, EnsureQueue, JoinQueue, Swept, Booked, Kept, ValidLobby, SweptFrom, NotElsewhere;
    var found := Find(w.store, env.guildId, id);
    WorldMore(w, env.interaction, {}, STEPS);
    if found.Some? {
      ValidDead(w, id, env.interaction, {});
      SweptKeeps(w, env, Some(env.guildId), {});
      var (s, failed) := Swept(w, env, Some(env.guildId));
      SweptSolo(w, s);
      WorldMore(s, env.interaction, {}, STEPS);
      if failed.None? && !Booked(s, env.guildId, userId, Some(id)) {
        SweptLobby(w, s, id);
        NotBookedElsewhere(s, env.guildId, id, userId);
        var told := s.(preferences := s.preferences[(env.guildId, userId) := profile]);
        PreferencesKeep(s, told.preferences, env.interaction, {});
        SoloSame(s, told);
        ElsewhereSame(s, told, id, userId);
        var (e, q) := EnsureQueue(told, env, found.value);
        var v := JoinLobby(w, env, id, userId, profile).0;
        if DeadAt(told, id) { JoinOnDead(told, env, found.value, userId, profile); }
        else { JoinOnLive(told, env, id, userId, profile, found.value); }
        KeptSolo(told, v, id, env.interaction, Some(userId));
        KeptWorld(told, v, id, env.interaction, Some(userId));
      }
    }
  }

  lemma ElsewhereSame(w: World, v: World, id: string, u: int)
    requires NotElsewhere(w, id, u) && v.store == w.store && v.queues == w.queues
    ensures NotElsewhere(v, id, u)
  {
    hide PQ.Has;
    forall k | Neighbours(v, id, k) ensures !InQueue(v, k, u) {
      assert Neighbours(w, id, k);
      assert InQueue(v, k, u) <==> InQueue(w, k, u);
    }
  }

  lemma KeptWorld(w: World, v: World, id: string, interaction: int, extra: Option<int>)
    requires Kept(w, v, id, interaction, extra)
    ensures WorldOk(v, interaction, STEPS)
  {
  }

  /** The lobby read before the sweep is the stored one, or has just expired. */
  lemma SweptLobby(w: World, s: World, id: string)
    requires SweptFrom(w.store, s.store) && id in w.store.lobbies
    ensures id in s.store.lobbies && s.store.lobbies[id].guildId == w.store.lobbies[id].guildId
    ensures DeadAt(s, id) || (Live(s, id) && s.store.lobbies[id] == w.store.lobbies[id])
  {
    assert SameOrExpired(w.store.lobbies[id], s.store.lobbies[id]);
  }

  /** A queue sized as its lobby is left alone by the bootstrap. */
  lemma EnsureIsIdle(w: World, env: Env, id: string)
    requires WorldOk(w, env.interaction, {}) && Live(w, id) && id in w.queues && w.queues[id].capacity == w.store.lobbies[id].capacity
    ensures EnsureQueue(w, env, w.store.lobbies[id]) == (w, Ok(w.queues[id]))
  {
    hide WorldOk, PQ.Has, JoinMissing;
    ValidDead(w, id, env.interaction, {});
    SettledThere(w, id, env.interaction);
    RosterInQueue(w.store.lobbies[id], w.queues[id], w.queues[id]) by { SamePlayersItself(w.queues[id]); }
    RosterIsKnown(w.store.lobbies[id], w.queues[id]);
    QueueAsIs(w, id);
  }

  lemma SettledThere(w: World, id: string, interaction: int)
    requires WorldOk(w, interaction, {}) && Live(w, id)
    ensures id in w.queues && SameRoster(w.store.lobbies[id], w.queues[id])
  {
    assert Settled(w, id);
  }

  /** The lobby is there, survives the sweep, and the player is booked nowhere else. */
  ghost predicate MayJoin(w: World, env: Env, id: string, userId: int) {
    && id in w.store.lobbies && w.store.lobbies[id].guildId == env.guildId
    && var (s, failed) := Swept(w, env, Some(env.guildId)); failed.None? && Live(s, id) && !Booked(s, env.guildId, userId, Some(id))
  }

  /** The queue a join finds, after the sweep and the bootstrap. */
  function QueueFound(w: World, env: Env, id: string, userId: int, profile: Preferences): Result<PQ.Queue, Failure>
    requires id in w.store.lobbies
  {
    var s := Swept(w, env, Some(env.guildId)).0;
    EnsureQueue(s.(preferences := s.preferences[(env.guildId, userId) := profile]), env, w.store.lobbies[id]).1
  }

  /** Joining again while waiting ends in the store's refusal of a full lobby, and
      nobody but a waiting player meets it. Waiting is waiting before the call when
      the queue has the lobby's capacity. */
  lemma RejoiningFromTheWaitlistFails(w: World, env: Env, id: string, userId: int, profile: Preferences)
    requires WorldOk(w, env.interaction, {}) && MayJoin(w, env, id, userId)
    ensures var q := QueueFound(w, env, id, userId, profile);
            && q.Ok? && id in w.queues
            && (JoinLobby(w, env, id, userId, profile).1 == Err(StoreFailed(LobbyFull)) <==>
                  q.value.status != PQ.Cancelled && PQ.Has(q.value.waitlist, userId) && |q.value.active| == q.value.capacity)
            && (w.queues[id].capacity == w.store.lobbies[id].capacity ==> q.value == w.queues[id])
  {
    hide WorldOk, EnsureQueue, JoinQueue, Swept, Booked, SweptFrom, PQ.Has, Joining, Ensured;
    SweptKeeps(w, env, Some(env.guildId), {});
    var s := Swept(w, env, Some(env.guildId)).0;
    SweptLobby(w, s, id);
    var told := s.(preferences := s.preferences[(env.guildId, userId) := profile]);
    PreferencesKeep(s, told.preferences, env.interaction, {});
    ValidDead(told, id, env.interaction, {});
    SettledThere(told, id, env.interaction);
    LiveThere(told, env, id, {});
    EnsuresLive(told, env, id, {});
    var (e, q) := EnsureQueue(told, env, w.store.lobbies[id]);
    EnsuredIs(told, e, env, id);
    EnsuredJoining(told, e, env, id, w.store.lobbies[id]);
    WaitersAreRefused(e, env, id, q.value, w.store.lobbies[id], userId, profile);
    if w.queues[id].capacity == w.store.lobbies[id].capacity { EnsureIsIdle(told, env, id); }
  }

  // ---- Creating -----------------------------------------------------------------------------

  lemma CreatedStore(store: Store, c: Command, env: Env)
    requires StoreOk(store, env.interaction, {}) && c.Create? && c.op == Discord(env.interaction, "create", 0)
    requires Exec(store, c, env.naming, env.now).Ok?
    ensures var (next, reply) := Exec(store, c, env.naming, env.now).value;
            var id := NewId(c, env.naming);
            && id !in store.lobbies && c.capacity >= 2 && reply.One? && next.lobbies == store.lobbies[id := reply.lobby]
            && (exists code :: reply.lobby == NewLobby(c, id, code, env.now)) && StoreOk(next, env.interaction, {} + {"create"})
  {
    hide Ordered, Used, FreeCode, CodeInUse, IndexOf, OperationsPast, OnlySteps, IsSpace, ValidLobby;
    StepIsNew(store, env.interaction, {}, "create", 0);
    CreateKeeps(store, c, env.naming, env.now);
    var id := NewId(c, env.naming);
    var (next, lobby) := MakeLobby(store, c, env.naming, env.now).value;
    assert next.lobbies == store.lobbies[id := lobby];
    var e := next.audit[|store.audit|];
    assert next.audit == store.audit + [e] && e.operation == c.op;
    CreatedPast(store, next, id, lobby, e);
    StepsStay(store.audit, e, env.interaction, {}, {} + {"create"});
  }

  lemma CreatedPast(store: Store, next: Store, id: string, lobby: Lobby, e: Event)
    requires OperationsPast(store) && id !in store.lobbies && next.lobbies == store.lobbies[id := lobby]
    requires next.audit == store.audit + [e] && e.operation.Discord?
    ensures OperationsPast(next)
  {
    forall i | 0 <= i < |next.audit| ensures OldSync(next, next.audit[i].operation) && TimedOut(next, next.audit[i].operation) {
      if i < |store.audit| {
        assert OldSync(store, store.audit[i].operation) && TimedOut(store, store.audit[i].operation);
      }
    }
  }

  /** A new lobby with its organizer seated, and no queue yet. */
  ghost predicate Founded(w: World, v: World, id: string, userId: int, guildId: int, interaction: int, done: set<string>) {
    && id !in w.store.lobbies && id !in w.queues && id in v.store.lobbies && v == w.(store := v.store)
    && v.store.lobbies == w.store.lobbies[id := v.store.lobbies[id]] && StoreOk(v.store, interaction, done)
    && var lobby := v.store.lobbies[id];
    && lobby.lobbyId == id && lobby.guildId == guildId && lobby.organizerId == userId && lobby.capacity >= 2 && lobby.state == Open
    && |lobby.participants| == 1 && lobby.participants[0].userId == userId
  }

  lemma EmptyLobbyIsValid(c: Command, id: string, code: string, now: int)
    requires c.Create? && c.capacity >= 2
    ensures var lobby := NewLobby(c, id, code, now);
            ValidLobby(lobby) && !IsTerminal(lobby.state) && |lobby.participants| < lobby.capacity && lobby.guildId == c.guildId
  {
    assert UserIds([]) == [];
  }

  lemma SeatedAlone(lobby: Lobby, after: Lobby, userId: int)
    requires Seated(lobby, after, userId) && lobby.participants == []
    ensures |after.participants| == 1 && after.participants[0].userId == userId
  {
    assert HasParticipant(after, UserIds(after.participants)[0]);
    assert UserIds(lobby.participants) == [];
  }

  /** What a creation that succeeds makes of the world. */
  lemma CreatedWorld(w: World, env: Env, c: Command)
    requires WorldOk(w, env.interaction, {}) && c.Create? && c.op == Discord(env.interaction, "create", 0) && c.guildId == env.guildId
    requires Do(w, c, env).1.Ok?
    ensures var (v, r) := Do(w, c, env);
            var id := r.value.lobbyId;
            && v == w.(store := v.store) && id !in w.store.lobbies && id !in w.queues
            && v.store.lobbies == w.store.lobbies[id := r.value] && StoreOk(v.store, env.interaction, {} + {"create"})
            && r.value.organizerId == c.organizerId && r.value.guildId == env.guildId && r.value.state == Open
            && r.value.capacity >= 2 && r.value.participants == [] && ValidLobby(r.value)
  {
    CreatedStore(w.store, c, env);
    hide Exec, StoreOk, PQ.Sound;
    var (v, r) := Do(w, c, env);
    var id := NewId(c, env.naming);
    var code :| r.value == NewLobby(c, id, code, env.now);
    EmptyLobbyIsValid(c, id, code, env.now);
  }

  /** The organizer's seat cannot be refused. */
  lemma Founds(w: World, env: Env, c: Command, p: Participant)
    requires WorldOk(w, env.interaction, {}) && c.Create? && c.op == Discord(env.interaction, "create", 0) && c.guildId == env.guildId
    requires Do(w, c, env).1.Ok? && p.userId == c.organizerId
    ensures var (created, r) := Do(w, c, env);
            var id := r.value.lobbyId;
            var (v, s) := Do(created, SaveParticipant(env.guildId, id, p, Discord(env.interaction, "organizer", 0)), env);
            && s.Ok? && Founded(w, v, id, c.organizerId, env.guildId, env.interaction, {} + {"create"} + {"organizer"})
            && s.value == v.store.lobbies[id]
  {
    hide Do, StoreOk, WorldOk, Edited, Makes, Used, ValidLobby, Seated, HasParticipant, OnlyAt;
    var d1 := {} + {"create"};
    CreatedWorld(w, env, c);
    var (created, r) := Do(w, c, env);
    var id := r.value.lobbyId;
    var save := SaveParticipant(env.guildId, id, p, Discord(env.interaction, "organizer", 0));
    var changed, kind := SaveMakes(r.value, save, env.now);
    StoreStepIsNew(created.store, env.interaction, d1, "organizer", 0);
    DoMakes(created, save, env, changed, kind, d1, d1 + {"organizer"});
    SeatedAlone(r.value, changed, c.organizerId);
    SeatedLives(r.value, changed, c.organizerId);
    assert w.store.lobbies[id := r.value][id := changed] == w.store.lobbies[id := changed];
  }

  lemma FoundedThere(w: World, v: World, id: string, userId: int, guildId: int, interaction: int, done: set<string>)
    requires Founded(w, v, id, userId, guildId, interaction, done)
    ensures id in v.store.lobbies
  {
  }

  lemma StoreStepIsNew(store: Store, interaction: int, done: set<string>, step: string, about: int)
    requires StoreOk(store, interaction, done) && step !in done
    ensures !Used(store, Discord(interaction, step, about))
  {
    StepIsNew(store, interaction, done, step, about);
  }

  /** The queue of a new lobby: the organizer, active. */
  lemma FirstQueue(lobby: Lobby)
    requires lobby.capacity >= 2 && |lobby.participants| == 1
    ensures var q := PQ.NewQueue(lobby.capacity);
            var r := JoinMissing(q, lobby.participants, q);
            && r.Ok? && PQ.Sound(r.value) && r.value.capacity == lobby.capacity
            && (forall u :: PQ.Has(r.value.active, u) <==> u == lobby.participants[0].userId)
            && (forall u :: PQ.Has(PQ.Everyone(r.value), u) <==> u == lobby.participants[0].userId)
  {
    var q := PQ.NewQueue(lobby.capacity);
    var p := lobby.participants[0];
    NewQueueSound(lobby.capacity);
    assert PQ.Everyone(q) == [] && !PQ.Has(PQ.Everyone(q), p.userId);
    JoinedIs(q, p.userId, RolesOf(p));
    assert JoinMissing(q, lobby.participants, q) == JoinMissing(PQ.Joined(q, p.userId, RolesOf(p)).value.0, lobby.participants[1..], q);
    assert lobby.participants[1..] == [];
    assert forall u :: !PQ.Has(PQ.Everyone(q), u) && !PQ.Has(q.active, u);
  }

  /** The new lobby's queue agrees with its roster of one. */
  lemma FoundedFits(lobby: Lobby, q: PQ.Queue, userId: int)
    requires |lobby.participants| == 1 && lobby.participants[0].userId == userId && lobby.organizerId == userId && lobby.capacity >= 2
    requires PQ.Sound(q) && q.capacity == lobby.capacity && forall u :: PQ.Has(q.active, u) <==> u == userId
    ensures SameRoster(lobby, q) && Led(lobby)
  {
    assert UserIds(lobby.participants) == [userId];
  }

  lemma FoundedOk(w: World, v: World, id: string, userId: int, guildId: int, interaction: int, done: set<string>, q: PQ.Queue)
    requires WorldOk(w, interaction, {}) && Solo(w) && Founded(w, v, id, userId, guildId, interaction, done) && done <= STEPS
    requires !Booked(w, guildId, userId, None)
    requires PQ.Sound(q) && SameRoster(v.store.lobbies[id], q) && Led(v.store.lobbies[id])
    requires forall u :: PQ.Has(PQ.Everyone(q), u) <==> u == userId
    ensures var u := WithQueue(v, id, q); WorldOk(u, interaction, STEPS) && Solo(u)
  {
    hide StoreOk, PQ.Sound, PQ.Has, SameRoster, Led;
    var u := WithQueue(v, id, q);
    MoreDone(v.store, interaction, done, STEPS);
    forall k | k in u.store.lobbies ensures Settled(u, k) {
      if k != id { assert Settled(w, k); }
    }
    forall a, b, x | Neighbours(u, a, b) && InQueue(u, a, x) ensures !InQueue(u, b, x) {
      if a != id && b != id {
        assert Neighbours(w, a, b) && InQueue(w, a, x);
        assert InQueue(u, b, x) <==> InQueue(w, b, x);
      } else if a == id {
        assert x == userId && !BookedIn(w, b, guildId, userId, None);
      } else {
        assert !BookedIn(w, a, guildId, userId, None);
      }
    }
  }

  /** Creating seats the organizer in a new lobby and its new queue. */
  lemma CreateKeepsWorld(w: World, env: Env, userId: int, capacity: int, metadata: Metadata, name: string, minutes: int)
    requires WorldOk(w, env.interaction, {}) && Solo(w)
    ensures var v := CreateLobby(w, env, userId, capacity, metadata, name, minutes).0; WorldOk(v, env.interaction, STEPS) && Solo(v)
  {
    hide WorldOk, Solo, Swept, Booked, SweptFrom, Do, Founded, EnsureQueue, STEPS;
    AllSteps(w, env.interaction);
    if GoodSize(capacity) {
      SweptKeeps(w, env, Some(env.guildId), {});
      var (s, failed) := Swept(w, env, Some(env.guildId));
      SweptSolo(w, s);
      AllSteps(s, env.interaction);
      if failed.None? && !Booked(s, env.guildId, userId, None) {
        var c := Create(env.guildId, userId, capacity, Some(env.now + minutes), None, Discord(env.interaction, "create", 0), NO_DELIVERY, metadata, name);
        if Do(s, c, env).1.Err? {
          CreateFails(s, c, env);
        } else {
          var created := Do(s, c, env).0;
          var p := Seat(userId, PreferencesOf(created, env.guildId, userId), env.now);
          Founds(s, env, c, p);
          FoundedThere(s, Do(created, SaveParticipant(env.guildId, Do(s, c, env).1.value.lobbyId, p, Discord(env.interaction, "organizer", 0)), env).0,
                       Do(s, c, env).1.value.lobbyId, userId, env.guildId, env.interaction, {} + {"create"} + {"organizer"});
          FoundedEnds(s, env, created, Do(s, c, env).1.value.lobbyId, userId, p);
        }
      }
    }
  }

  lemma AllSteps(w: World, interaction: int)
    requires WorldOk(w, interaction, {})
    ensures WorldOk(w, interaction, STEPS)
  {
    WorldMore(w, interaction, {}, STEPS);
  }

  lemma CreateFails(w: World, c: Command, env: Env)
    requires c.Create? && Do(w, c, env).1.Err?
    ensures Do(w, c, env).0 == w
  {
    hide MakeLobby;
  }

  lemma FoundedEnds(s: World, env: Env, created: World, id: string, userId: int, p: Participant)
    requires WorldOk(s, env.interaction, {}) && Solo(s) && !Booked(s, env.guildId, userId, None)
    requires var (v, r) := Do(created, SaveParticipant(env.guildId, id, p, Discord(env.interaction, "organizer", 0)), env);
             && r.Ok? && id in v.store.lobbies && r.value == v.store.lobbies[id]
             && Founded(s, v, id, userId, env.guildId, env.interaction, {} + {"create"} + {"organizer"})
    ensures var (v, r) := Do(created, SaveParticipant(env.guildId, id, p, Discord(env.interaction, "organizer", 0)), env);
            var u := EnsureQueue(v, env, r.value).0; WorldOk(u, env.interaction, STEPS) && Solo(u)
  {
    hide WorldOk, Solo, Booked, Do, StoreOk, PQ.Sound, PQ.Has, JoinMissing, SeatAll, SameRoster, Led;
    var (v, r) := Do(created, SaveParticipant(env.guildId, id, p, Discord(env.interaction, "organizer", 0)), env);
    FirstQueue(r.value);
    var q := JoinMissing(PQ.NewQueue(r.value.capacity), r.value.participants, PQ.NewQueue(r.value.capacity)).value;
    FoundedFits(r.value, q, userId);
    FoundedOk(s, v, id, userId, env.guildId, env.interaction, {} + {"create"} + {"organizer"}, q);
    var there := QueueThere(v, r.value);
    assert there == WithQueue(v, id, PQ.NewQueue(r.value.capacity));
    assert Resize(there, env, r.value) == (there, None);
    assert WithQueue(there, id, q) == WithQueue(v, id, q);
  }
}
