/** Sweeps, creating and joining: the calls that look at every lobby of a guild. */
module PartyLobbyEntry {
  import opened Common
  import opened PartyStore
  import opened PartyStoreInvariant
  import opened PartyLobby
  import opened PartyLobbySteps
  import opened PartyLobbyRoster
  import opened PartyLobbyStages
  import opened PartyLobbyHandlers
  import opened PartyLobbyCalls
  import PQ = PartyQueue
  import PQI = PartyQueueInvariant

  // ---- The recruiting sweep -----------------------------------------------------------------

  /** A lobby is as it was, or a recruiting one has expired. */
  ghost predicate SameOrExpired(before: Lobby, after: Lobby) {
    after == before
    || (IsTerminal(after.state) && IsRecruiting(before.state) && after.guildId == before.guildId && after.version >= before.version)
  }

  ghost predicate SweptFrom(store: Store, next: Store) {
    && next.lobbies.Keys == store.lobbies.Keys
    && forall id :: id in store.lobbies ==> SameOrExpired(store.lobbies[id], next.lobbies[id])
  }

  lemma ExpireOneIs(store: Store, id: string, now: int)
    requires Ordered(store) && id in store.lobbies && DueToExpire(store.lobbies[id], now) && ExpireOne(store, store.lobbies[id], now).Ok?
    ensures var next := ExpireOne(store, store.lobbies[id], now).value.0;
            || next == store
            || (next.lobbies == store.lobbies[id := ExpiredLobby(store.lobbies[id], now)]
                && exists e :: next.audit == store.audit + [e] && e.operation.ExpiryOp?)
  {
    InOrderThere(store, id);
    hide Ordered, Recorded;
    var lobby := store.lobbies[id];
    var next := ExpireOne(store, lobby, now).value.0;
    if next != store {
      var e := Event(id, lobby.guildId, ExpiryOp(lobby.guildId, id, lobby.expiresAt.value),
                     TransitionMark(lobby.guildId, id, Expired), ExpiredByClock, Some(lobby.state), Expired, now);
      assert next.audit == store.audit + [e];
    }
  }

  lemma SweepOneOk(store: Store, id: string, now: int, interaction: int, done: set<string>)
    requires StoreOk(store, interaction, done) && id in store.lobbies && DueToExpire(store.lobbies[id], now)
    requires ExpireOne(store, store.lobbies[id], now).Ok?
    ensures var next := ExpireOne(store, store.lobbies[id], now).value.0;
            StoreOk(next, interaction, done) && SweptFrom(store, next)
  {
    hide Ordered, ExpireOne, OperationsPast, OnlySteps, ExpiredLobby, SweptFrom, SameOrExpired, EventsInOrder;
    ExpireOneKeeps(store, id, now);
    ExpireOneIs(store, id, now);
    var next := ExpireOne(store, store.lobbies[id], now).value.0;
    if next != store {
      var e :| next.audit == store.audit + [e] && e.operation.ExpiryOp?;
      PastSwept(store, next, id, e, now);
      StepsStay(store.audit, e, interaction, done, done);
      ExpiredIs(store.lobbies[id], now);
      SweptOne(store, next, id, ExpiredLobby(store.lobbies[id], now));
    } else {
      SweptNone(store);
    }
  }

  lemma SweptOne(store: Store, next: Store, id: string, lobby: Lobby)
    requires id in store.lobbies && next.lobbies == store.lobbies[id := lobby] && SameOrExpired(store.lobbies[id], lobby)
    ensures SweptFrom(store, next)
  {
  }

  lemma SweptNone(store: Store)
    ensures SweptFrom(store, store)
  {
  }

  lemma ExpiredIs(lobby: Lobby, now: int)
    requires IsRecruiting(lobby.state)
    ensures SameOrExpired(lobby, ExpiredLobby(lobby, now)) && ExpiredLobby(lobby, now).version >= lobby.version
    ensures IsTerminal(ExpiredLobby(lobby, now).state)
  {
  }

  lemma PastSwept(store: Store, next: Store, id: string, e: Event, now: int)
    requires OperationsPast(store) && id in store.lobbies && next.lobbies == store.lobbies[id := ExpiredLobby(store.lobbies[id], now)]
    requires next.audit == store.audit + [e] && e.operation.ExpiryOp?
    ensures OperationsPast(next)
  {
    forall i | 0 <= i < |next.audit| ensures OldSync(next, next.audit[i].operation) && TimedOut(next, next.audit[i].operation) {
      if i < |store.audit| {
        assert OldSync(store, store.audit[i].operation) && TimedOut(store, store.audit[i].operation);
      }
    }
  }

  lemma {:induction false} SweepOk(store: Store, rows: seq<string>, inGuild: Option<int>, now: int, interaction: int, done: set<string>)
    requires StoreOk(store, interaction, done) && ExpireRows(store, rows, inGuild, now).Ok?
    ensures var next := ExpireRows(store, rows, inGuild, now).value.0;
            StoreOk(next, interaction, done) && SweptFrom(store, next)
    decreases |rows|
  {
    hide StoreOk, ExpireOne;
    if rows != [] {
      if Selected(store, rows[0], inGuild, now) {
        SweepOneOk(store, rows[0], now, interaction, done);
        SweepOk(ExpireOne(store, store.lobbies[rows[0]], now).value.0, rows[1..], inGuild, now, interaction, done);
      } else {
        SweepOk(store, rows[1..], inGuild, now, interaction, done);
      }
    }
  }

  /** A sweep keeps the invariant; queues do not change. */
  lemma SweptKeeps(w: World, env: Env, inGuild: Option<int>, done: set<string>)
    requires WorldOk(w, env.interaction, done)
    ensures var (v, failed) := Swept(w, env, inGuild);
            WorldOk(v, env.interaction, done) && v == w.(store := v.store) && SweptFrom(w.store, v.store) && (failed.Some? ==> v == w)
  {
    hide StoreOk, ExpireRows, PQ.Sound;
    var v := Swept(w, env, inGuild).0;
    if ExpireRows(w.store, env.rows, inGuild, env.now).Ok? {
      SweepOk(w.store, env.rows, inGuild, env.now, env.interaction, done);
      forall id | id in v.store.lobbies ensures Settled(v, id) {
        assert Settled(w, id);
        assert SameOrExpired(w.store.lobbies[id], v.store.lobbies[id]);
      }
    }
  }

  // ---- Finishing a join -----------------------------------------------------------------------

  /** The queue holds the same members, whatever its status. */
  ghost predicate SameMembers(w: World, v: World, id: string) {
    id in w.queues && id in v.queues && PQ.Everyone(v.queues[id]) == PQ.Everyone(w.queues[id])
  }

  ghost predicate Finished(w: World, v: World, id: string, interaction: int, done: set<string>) {
    WorldOk(v, interaction, done) && OnlyAt(w, v, id) && SameMembers(w, v, id)
  }

  lemma FinishedOn(w: World, v: World, u: World, id: string, interaction: int, done: set<string>, more: set<string>)
    requires Finished(w, v, id, interaction, done) && WorldOk(u, interaction, more)
    requires u == v || (OnlyAt(v, u, id) && u == v.(store := u.store))
    ensures Finished(w, u, id, interaction, more)
  {
    hide WorldOk;
    if u != v { OnlyAtTransitive(w, v, u, id); }
  }

  lemma StartedIsSound(q: PQ.Queue, now: int, c: PQ.Config)
    requires PQ.Sound(q) && PQ.ReadyCheckStarted(q, now, c).Ok?
    ensures var p := PQ.ReadyCheckStarted(q, now, c).value; PQ.Sound(p) && p.active == q.active && PQ.Everyone(p) == PQ.Everyone(q)
  {
    PQI.CommandKeepsSound(c, q, PQI.DoStart(now));
  }

  lemma FinishedSelf(w: World, id: string, interaction: int, done: set<string>)
    requires WorldOk(w, interaction, done) && id in w.queues
    ensures Finished(w, w, id, interaction, done)
  {
    KnownQueue(w, id, interaction, done);
    OnlyAtSelf(w, id);
  }

  lemma StartsCheck(w: World, env: Env, id: string, done: set<string>)
    requires WorldOk(w, env.interaction, done) && id in w.queues && PQ.ReadyCheckStarted(w.queues[id], env.now, env.config).Ok?
    ensures var v := WithQueue(w, id, PQ.ReadyCheckStarted(w.queues[id], env.now, env.config).value);
            Finished(w, v, id, env.interaction, done)
  {
    hide WorldOk, OnlyAt, PQ.Sound, PQ.ReadyCheckStarted;
    KnownQueue(w, id, env.interaction, done);
    StartedIsSound(w.queues[id], env.now, env.config);
    SameActive(w, id, PQ.ReadyCheckStarted(w.queues[id], env.now, env.config).value, env.interaction, done);
  }

  lemma ToReadyCheckKeeps(w: World, env: Env, lobby: Lobby, done: set<string>)
    requires WorldOk(w, env.interaction, done) && lobby.lobbyId in w.queues && {"full", "ready-check"} !! done
    ensures Finished(w, ToReadyCheck(w, env, lobby).0, lobby.lobbyId, env.interaction, done + {"full", "ready-check"})
  {
    hide WorldOk, OnlyAt, Move, SameMembers;
    var id := lobby.lobbyId;
    var more := done + {"full", "ready-check"};
    FinishedSelf(w, id, env.interaction, done);
    MoveKeeps(w, env, id, Full, "full", done);
    var (full, r) := if lobby.state == Open then Move(w, env, id, Full, "full") else (w, Ok(lobby));
    WorldMore(w, env.interaction, done, done + {"full"});
    FinishedOn(w, w, full, id, env.interaction, done, done + {"full"});
    MoveKeeps(full, env, id, ReadyCheck, "ready-check", done + {"full"});
    WorldMore(full, env.interaction, done + {"full"}, more);
    assert done + {"full"} + {"ready-check"} == more;
    var v := ToReadyCheck(w, env, lobby).0;
    StateIsThere(w, full, id, r, lobby, env.interaction, done + {"full"});
    FinishedOn(w, full, v, id, env.interaction, done + {"full"}, more);
  }

  /** The lobby a move answers with is this one. */
  lemma StateIsThere(w: World, v: World, id: string, r: Answer, lobby: Lobby, interaction: int, done: set<string>)
    requires WorldOk(v, interaction, done) && lobby.lobbyId == id
    requires r.Ok? ==> r.value == lobby || (id in v.store.lobbies && r.value == v.store.lobbies[id])
    ensures r.Ok? ==> r.value.lobbyId == id
  {
    if r.Ok? && r.value != lobby { ValidDead(v, id, interaction, done); }
  }

  const FINISH := {"touch", "full", "ready-check"}

  /** The end of a join: the clock, and the ready check of a full roster. */
  lemma FinishKeeps(w: World, env: Env, id: string, lobby: Lobby, done: set<string>)
    requires WorldOk(w, env.interaction, done) && id in w.queues && lobby.lobbyId == id && FINISH !! done
    ensures var (touched, t) := PartyLobby.Touched(w, env, lobby);
            var v := if t.Err? then touched else StartWhenFull(touched, env, id, w.queues[id], t.value).0;
            Finished(w, v, id, env.interaction, done + FINISH)
  {
    hide WorldOk, OnlyAt, Do, ToReadyCheck, SameMembers, PQ.ReadyCheckStarted, Finished;
    var d1 := done + {"touch"};
    FinishedSelf(w, id, env.interaction, done);
    var c := Touch(env.guildId, id, Discord(env.interaction, "touch", 0), 60);
    QuietStep(w, c, env, "touch", 0, done);
    WorldMore(w, env.interaction, done, d1);
    var (touched, t) := PartyLobby.Touched(w, env, lobby);
    FinishedOn(w, w, touched, id, env.interaction, done, d1);
    StateIsThere(w, touched, id, t, lobby, env.interaction, d1);
    WorldMore(touched, env.interaction, d1, done + FINISH);
    FinishedOn(w, touched, touched, id, env.interaction, d1, done + FINISH);
    if t.Ok? {
      var q := w.queues[id];
      if |q.active| == q.capacity && q.status == PQ.Open && PQ.ReadyCheckStarted(q, env.now, env.config).Ok? {
        StartsCheck(touched, env, id, d1);
        var started := WithQueue(touched, id, PQ.ReadyCheckStarted(q, env.now, env.config).value);
        FinishedWorld(touched, started, id, env.interaction, d1);
        ToReadyCheckKeeps(started, env, t.value, d1);
        assert d1 + {"full", "ready-check"} == done + FINISH;
        var v := ToReadyCheck(started, env, t.value).0;
        FinishedThen(w, touched, started, id, env.interaction, d1, d1);
        FinishedThen(w, started, v, id, env.interaction, d1, done + FINISH);
      }
    }
  }

  lemma FinishedWorld(w: World, v: World, id: string, interaction: int, done: set<string>)
    requires Finished(w, v, id, interaction, done)
    ensures WorldOk(v, interaction, done) && id in v.queues
  {
  }

  lemma FinishedThen(w: World, v: World, u: World, id: string, interaction: int, done: set<string>, more: set<string>)
    requires Finished(w, v, id, interaction, done) && Finished(v, u, id, interaction, more)
    ensures Finished(w, u, id, interaction, more)
  {
    hide WorldOk;
    OnlyAtTransitive(w, v, u, id);
  }

  // ---- Joining ----------------------------------------------------------------------------------

  lemma JoinedIs(q: PQ.Queue, userId: int, roles: seq<string>)
    requires PQ.Sound(q) && PQ.Joined(q, userId, roles).Ok?
    ensures var (p, to) := PQ.Joined(q, userId, roles).value;
            && PQ.Sound(p) && p.capacity == q.capacity
            && (forall u :: PQ.Has(PQ.Everyone(p), u) <==> PQ.Has(PQ.Everyone(q), u) || u == userId)
            && match to
               case ToActive => |q.active| < q.capacity && |p.active| == |q.active| + 1 && !PQ.Has(q.active, userId)
                                && (forall u :: PQ.Has(p.active, u) <==> PQ.Has(q.active, u) || u == userId)
               case ToWaitlist => p.active == q.active
               case Unchanged => p == q && PQ.Has(PQ.Everyone(q), userId) && (!PQ.Has(q.active, userId) ==> |q.active| == q.capacity)
  {
    PQI.JoinKeeps(q, userId, roles);
    var (p, to) := PQ.Joined(q, userId, roles).value;
    if to == PQ.ToActive {
      var m := p.active[|q.active|];
      assert PQ.Ids(p.active) == PQ.Ids(q.active) + [userId];
      HasAppended(q.active, p.active, userId);
      if PQ.Has(q.active, userId) { ActiveIsInQueue(q, userId); }
    }
    if to == PQ.Unchanged && !PQ.Has(q.active, userId) {
      PQI.HasMember(PQ.Everyone(q), userId);
      PQI.HasMember(q.active, userId);
      assert q.waitlist != [];
    }
  }

  /** The roster half of a join that reached the queue. */
  ghost predicate Joining(w: World, env: Env, id: string, q: PQ.Queue, lobby: Lobby) {
    && OthersOk(w, id, env.interaction, {}) && LiveAt(w, env, id) && id in w.queues && w.queues[id] == q
    && SameRoster(w.store.lobbies[id], q) && Led(w.store.lobbies[id]) && q.capacity == w.store.lobbies[id].capacity
    && lobby.lobbyId == id && PQ.Sound(q)
  }

  lemma NewSeatFits(lobby: Lobby, after: Lobby, q: PQ.Queue, p: PQ.Queue, userId: int)
    requires SameRoster(lobby, q) && Seated(lobby, after, userId) && Led(lobby)
    requires forall u :: PQ.Has(p.active, u) <==> PQ.Has(q.active, u) || u == userId
    requires |p.active| <= after.capacity
    ensures SameRoster(after, p) && Led(after)
  {
    hide PQ.Has, HasParticipant;
  }

  /** A seat in the queue is a seat on the roster: the saving cannot fail. */
  lemma SeatsJoined(w: World, env: Env, id: string, q: PQ.Queue, p: PQ.Queue, lobby: Lobby, userId: int, profile: Preferences)
    requires Joining(w, env, id, q, lobby) && PQ.Sound(p) && p.capacity == q.capacity
    requires forall u :: PQ.Has(p.active, u) <==> PQ.Has(q.active, u) || u == userId
    requires PQ.Has(q.active, userId) || |q.active| < q.capacity
    ensures var m := WithQueue(w, id, p);
            var (v, r) := Save(m, env, id, userId, profile, Discord(env.interaction, "join", 0));
            && r.Ok? && id in v.store.lobbies && r.value == v.store.lobbies[id] && v == m.(store := v.store)
            && WorldOk(v, env.interaction, {} + {"join"}) && OnlyAt(w, v, id)
  {
    hide StoreOk, OthersOk, LiveAt, OnlyAt, PQ.Sound, PQ.Has, SameRoster, Led, Do, StageDone, Seated, WorldOk, HasParticipant, Used;
    LiveIs(w, env, id);
    var before := w.store.lobbies[id];
    RosterSize(before, q);
    RosterHas(before, q, userId);
    QueueReplaced(w, env, id, p, {});
    var m := WithQueue(w, id, p);
    var op := Discord(env.interaction, "join", 0);
    StageStepIsNew(m, id, env.interaction, {}, "join", 0);
    PutsOn(m, env, id, Seat(userId, profile, env.now), op, {}, {} + {"join"});
    var (v, r) := Save(m, env, id, userId, profile, op);
    StageIs(m, v, r, id, env.interaction, {} + {"join"});
    StageFrame(m, v, r, id, env.interaction, {} + {"join"});
    SeatedLives(before, r.value, userId);
    SoundSize(p);
    NewSeatFits(before, r.value, q, p, userId);
    SettledBy(v, id);
    OthersAndThis(v, id, env.interaction, {} + {"join"});
    OnlyAtTransitive(w, m, v, id);
  }

  lemma RosterHas(lobby: Lobby, q: PQ.Queue, u: int)
    requires SameRoster(lobby, q)
    ensures HasParticipant(lobby, u) <==> PQ.Has(q.active, u)
  {
  }

  lemma SoundSize(q: PQ.Queue)
    requires PQ.Sound(q)
    ensures |q.active| <= q.capacity
  {
  }

  lemma StageFrame(w: World, v: World, r: Answer, id: string, interaction: int, done: set<string>)
    requires StageDone(w, v, r, id, interaction, done)
    ensures v == w.(store := v.store) && OnlyAt(w, v, id)
  {
  }

  /** Whatever a join meets on a live lobby, the invariant holds after it. */
  lemma JoinsLive(w: World, env: Env, id: string, q: PQ.Queue, lobby: Lobby, userId: int, profile: Preferences)
    requires Joining(w, env, id, q, lobby)
    ensures var v := JoinQueue(w, env, lobby, q, userId, profile).0;
            && WorldOk(v, env.interaction, {"join"} + FINISH) && OnlyAt(w, v, id) && PlayersFrom(w, v, id, Some(userId))
  {
    hide StoreOk, OthersOk, LiveAt, OnlyAt, PQ.Sound, PQ.Has, Led, PQ.Joined, StartWhenFull, Save, WorldOk, PartyLobby.Touched, Finished,
      SameRoster, HasParticipant, PlayersFrom;
    JoiningIsSettled(w, env, id, q, lobby);
    if PQ.Joined(q, userId, RoleList(profile)).Err? {
      WorldMore(w, env.interaction, {}, {"join"} + FINISH);
      OnlyAtSelf(w, id);
      PlayersSame(w, w, id, Some(userId));
    } else {
      JoinedIs(q, userId, RoleList(profile));
      var (p, to) := PQ.Joined(q, userId, RoleList(profile)).value;
      var m := WithQueue(w, id, p);
      if to == PQ.ToWaitlist {
        SameActive(w, id, p, env.interaction, {});
        WorldMore(m, env.interaction, {}, {} + {"join"});
        EndsJoin(w, m, env, id, q, p, lobby, userId);
      } else if to == PQ.Unchanged && !PQ.Has(q.active, userId) {
        QueueAsIs(w, id);
        WaiterIsRefused(w, env, id, q, lobby, userId, profile);
        WorldMore(w, env.interaction, {}, {"join"} + FINISH);
        OnlyAtSelf(w, id);
        PlayersSame(w, w, id, Some(userId));
      } else {
        SeatsJoined(w, env, id, q, p, lobby, userId, profile);
        var (v, r) := Save(m, env, id, userId, profile, Discord(env.interaction, "join", 0));
        ValidDead(v, id, env.interaction, {} + {"join"});
        EndsJoin(w, v, env, id, q, p, r.value, userId);
      }
    }
  }

  lemma JoiningIsSettled(w: World, env: Env, id: string, q: PQ.Queue, lobby: Lobby)
    requires Joining(w, env, id, q, lobby)
    ensures WorldOk(w, env.interaction, {}) && id in w.store.lobbies
  {
    SettledBy(w, id);
    OthersAndThis(w, id, env.interaction, {});
  }

  lemma PlayersSame(w: World, v: World, id: string, extra: Option<int>)
    requires id in v.queues ==> id in w.queues && PQ.Everyone(v.queues[id]) == PQ.Everyone(w.queues[id])
    ensures PlayersFrom(w, v, id, extra)
  {
  }

  /** The end of a join, from where the player is in the queue. */
  lemma EndsJoin(w: World, v: World, env: Env, id: string, q: PQ.Queue, p: PQ.Queue, lobby: Lobby, userId: int)
    requires WorldOk(v, env.interaction, {} + {"join"}) && OnlyAt(w, v, id) && id in w.queues && w.queues[id] == q
    requires id in v.queues && v.queues[id] == p && lobby.lobbyId == id
    requires forall u :: PQ.Has(PQ.Everyone(p), u) <==> PQ.Has(PQ.Everyone(q), u) || u == userId
    ensures var (touched, t) := PartyLobby.Touched(v, env, lobby);
            var u := if t.Err? then touched else StartWhenFull(touched, env, id, p, t.value).0;
            && WorldOk(u, env.interaction, {"join"} + FINISH) && OnlyAt(w, u, id) && PlayersFrom(w, u, id, Some(userId))
  {
    hide WorldOk, OnlyAt, PQ.Has, StartWhenFull, PartyLobby.Touched;
    FinishKeeps(v, env, id, lobby, {} + {"join"});
    assert {} + {"join"} + FINISH == {"join"} + FINISH;
    var (touched, t) := PartyLobby.Touched(v, env, lobby);
    var u := if t.Err? then touched else StartWhenFull(touched, env, id, p, t.value).0;
    OnlyAtTransitive(w, v, u, id);
  }

  /** Joining again from the waitlist of a full lobby ends in the store's refusal:
      the lobby is full for a player who is not on its roster. */
  lemma WaiterIsRefused(w: World, env: Env, id: string, q: PQ.Queue, lobby: Lobby, userId: int, profile: Preferences)
    requires Joining(w, env, id, q, lobby) && PQ.Has(PQ.Everyone(q), userId) && !PQ.Has(q.active, userId) && |q.active| == q.capacity
    ensures Save(w, env, id, userId, profile, Discord(env.interaction, "join", 0)) == (w, Err(StoreFailed(LobbyFull)))
  {
    hide OthersOk, PQ.Sound, LiveAt, Do, SameRoster, Used;
    LiveIs(w, env, id);
    var before := w.store.lobbies[id];
    RosterSize(before, q);
    RosterHas(before, q, userId);
    StageStepIsNew(w, id, env.interaction, {}, "join", 0);
    var c := SaveParticipant(env.guildId, id, Seat(userId, profile, env.now), Discord(env.interaction, "join", 0));
    assert Edited(before, c, env.now) == Err(LobbyFull);
    hide Edited;
    DoRefuses(w, c, env, LobbyFull);
  }

  /** Only the seating can find a lobby full. */
  lemma NeverFull(w: World, c: Command, env: Env)
    requires c.Touch? || c.Transition?
    ensures Do(w, c, env).1 != Err(StoreFailed(LobbyFull))
  {
    hide IndexOf, MarkOf;
  }

  lemma FinishNeverFull(w: World, env: Env, id: string, q: PQ.Queue, lobby: Lobby)
    ensures var (touched, t) := PartyLobby.Touched(w, env, lobby);
            t != Err(StoreFailed(LobbyFull)) && (t.Ok? ==> StartWhenFull(touched, env, id, q, t.value).1 != Err(StoreFailed(LobbyFull)))
  {
    hide Do;
    NeverFull(w, Touch(env.guildId, lobby.lobbyId, Discord(env.interaction, "touch", 0), 60), env);
    var (touched, t) := PartyLobby.Touched(w, env, lobby);
    if t.Ok? && PQ.ReadyCheckStarted(q, env.now, env.config).Ok? {
      var started := WithQueue(touched, id, PQ.ReadyCheckStarted(q, env.now, env.config).value);
      var full := Transition(env.guildId, t.value.lobbyId, Full, Discord(env.interaction, "full", 0), None);
      var ready := Transition(env.guildId, t.value.lobbyId, ReadyCheck, Discord(env.interaction, "ready-check", 0), None);
      NeverFull(started, full, env);
      NeverFull(started, ready, env);
      NeverFull(Do(started, full, env).0, ready, env);
    }
  }

  /** The second half of a join ends in that refusal for waiting players, and for
      nobody else. */
  lemma WaitersAreRefused(w: World, env: Env, id: string, q: PQ.Queue, lobby: Lobby, userId: int, profile: Preferences)
    requires Joining(w, env, id, q, lobby)
    ensures JoinQueue(w, env, lobby, q, userId, profile).1 == Err(StoreFailed(LobbyFull)) <==>
              q.status != PQ.Cancelled && PQ.Has(q.waitlist, userId) && |q.active| == q.capacity
  {
    hide OthersOk, LiveAt, PQ.Sound, PQ.Has, Led, StartWhenFull, Save, WorldOk, PartyLobby.Touched, SameRoster, HasParticipant, OnlyAt;
    JoiningIsSound(w, env, id, q, lobby);
    WaitsOrPlays(q, userId);
    if q.status != PQ.Cancelled {
      JoinedIs(q, userId, RoleList(profile));
      var (p, to) := PQ.Joined(q, userId, RoleList(profile)).value;
      var m := WithQueue(w, id, p);
      if to == PQ.ToWaitlist {
        FinishNeverFull(m, env, id, p, lobby);
      } else if to == PQ.Unchanged && !PQ.Has(q.active, userId) {
        QueueAsIs(w, id);
        WaiterIsRefused(w, env, id, q, lobby, userId, profile);
      } else {
        SeatsJoined(w, env, id, q, p, lobby, userId, profile);
        var (v, r) := Save(m, env, id, userId, profile, Discord(env.interaction, "join", 0));
        FinishNeverFull(v, env, id, p, r.value);
      }
    }
  }

  lemma JoiningIsSound(w: World, env: Env, id: string, q: PQ.Queue, lobby: Lobby)
    requires Joining(w, env, id, q, lobby)
    ensures PQ.Sound(q) && lobby.lobbyId == id && id in w.queues && w.queues[id] == q
  {
  }

  /** In the queue means to play or to wait, and never both. */
  lemma WaitsOrPlays(q: PQ.Queue, u: int)
    requires PQ.Sound(q)
    ensures PQ.Has(PQ.Everyone(q), u) <==> PQ.Has(q.active, u) || PQ.Has(q.waitlist, u)
    ensures PQ.Has(q.waitlist, u) ==> !PQ.Has(q.active, u) && |q.active| == q.capacity
  {
    PQI.HasMember(PQ.Everyone(q), u);
    PQI.HasMember(q.active, u);
    PQI.HasMember(q.waitlist, u);
    hide PQ.Has;
    if PQ.Has(q.waitlist, u) { WaiterIsNotActive(q, u); }
  }

  lemma DoRefuses(w: World, c: Command, env: Env, e: Error)
    requires AboutOneLobby(c) && !c.Create? && !c.Touch? && !Used(w.store, c.op) && !IsBlank(c.op)
    requires Find(w.store, c.guildId, c.lobbyId).Some? && Edited(Find(w.store, c.guildId, c.lobbyId).value, c, env.now) == Err(e)
    ensures Do(w, c, env) == (w, Err(StoreFailed(e)))
  {
    hide Edited, IndexOf, MarkOf;
  }
}
