/** The organizer's actions, the periodic pass, and every run. */
module PartyLobbyTheorems {
  import opened Common
  import opened PartyStore
  import opened PartyStoreInvariant
  import opened PartyLobby
  import opened PartyLobbySteps
  import opened PartyLobbyRoster
  import opened PartyLobbyStages
  import opened PartyLobbyHandlers
  import opened PartyLobbyCalls
  import opened PartyLobbyEntry
  import opened PartyLobbyRuns
  import PQ = PartyQueue
  import PQI = PartyQueueInvariant

  // ---- The organizer's actions ------------------------------------------------------------

  /** A step that seats nobody, under the invariant. */
  lemma QuietKept(w: World, c: Command, env: Env, step: string, done: set<string>)
    requires WorldOk(w, env.interaction, done) && IsQuiet(c) && c.op == Discord(env.interaction, step, 0)
    requires step !in done && step in STEPS && done <= STEPS
    ensures var (v, r) := Do(w, c, env);
            && Kept(w, v, c.lobbyId, env.interaction, None) && WorldOk(v, env.interaction, done + {step}) && v.queues == w.queues
            && (r.Ok? ==> c.lobbyId in v.store.lobbies && r.value == v.store.lobbies[c.lobbyId])
  {
    hide WorldOk, Do, OnlyAt, Kept, STEPS, PlayersFrom;
    QuietStep(w, c, env, step, 0, done);
    var v := Do(w, c, env).0;
    if v == w {
      KeptSame(w, v, c.lobbyId, env.interaction, done, None);
    } else {
      PlayersSame(w, v, c.lobbyId, None);
      KeptAt(w, v, c.lobbyId, env.interaction, done + {step}, None);
    }
  }

  lemma KeptThen(w: World, v: World, u: World, id: string, interaction: int)
    requires Kept(w, v, id, interaction, None) && Kept(v, u, id, interaction, None)
    ensures Kept(w, u, id, interaction, None)
  {
    hide WorldOk, PQ.Has;
    if (v.store == w.store && v.queues == w.queues) || (u.store == v.store && u.queues == v.queues) {
    } else {
      OnlyAtTransitive(w, v, u, id);
    }
  }

  /** The guild's own lobby: a touch after a change is of the same lobby. */
  lemma TouchedKept(w: World, env: Env, lobby: Lobby, done: set<string>)
    requires WorldOk(w, env.interaction, done) && "touch" !in done && done <= STEPS
    ensures Kept(w, PartyLobby.Touched(w, env, lobby).0, lobby.lobbyId, env.interaction, None)
  {
    hide WorldOk, Do, Kept;
    KeptSame(w, w, lobby.lobbyId, env.interaction, done, None);
    QuietKept(w, Touch(env.guildId, lobby.lobbyId, Discord(env.interaction, "touch", 0), 60), env, "touch", done);
  }

  lemma EditKeeps(w: World, env: Env, id: string, userId: int, metadata: Metadata, capacity: int)
    requires WorldOk(w, env.interaction, {})
    ensures Kept(w, EditLobby(w, env, id, userId, metadata, capacity).0, id, env.interaction, None)
  {
    hide WorldOk, Do, Kept, PartyLobby.Touched;
    QuietKept(w, UpdateMetadata(env.guildId, id, Discord(env.interaction, "edit", 0), userId, metadata, capacity), env, "edit", {});
    var (edited, r) := Do(w, UpdateMetadata(env.guildId, id, Discord(env.interaction, "edit", 0), userId, metadata, capacity), env);
    if r.Ok? {
      ValidDead(edited, id, env.interaction, {} + {"edit"});
      TouchedKept(edited, env, r.value, {} + {"edit"});
      KeptThen(w, edited, PartyLobby.Touched(edited, env, r.value).0, id, env.interaction);
    }
  }

  lemma CancelKeeps(w: World, env: Env, id: string, userId: int)
    requires WorldOk(w, env.interaction, {})
    ensures Kept(w, CancelLobby(w, env, id, userId).0, id, env.interaction, None)
  {
    hide WorldOk, Do, Kept;
    KeptSame(w, w, id, env.interaction, {}, None);
    QuietKept(w, Transition(env.guildId, id, Cancelled, Discord(env.interaction, "cancel", 0), None), env, "cancel", {});
  }

  lemma TransferKeeps(w: World, env: Env, id: string, userId: int, heir: int)
    requires WorldOk(w, env.interaction, {})
    ensures Kept(w, TransferLobby(w, env, id, userId, heir).0, id, env.interaction, None)
  {
    hide WorldOk, Do, Kept;
    QuietKept(w, TransferOrganizer(env.guildId, id, heir, Discord(env.interaction, "transfer", 0), userId), env, "transfer", {});
  }

  lemma ReadyFromKept(w: World, env: Env, lobby: Lobby, active: nat)
    requires WorldOk(w, env.interaction, {})
    ensures Kept(w, ReadyFrom(w, env, lobby, active).0, lobby.lobbyId, env.interaction, None)
  {
    hide WorldOk, Do, Kept;
    var id := lobby.lobbyId;
    KeptSame(w, w, id, env.interaction, {}, None);
    QuietKept(w, Transition(env.guildId, id, Full, Discord(env.interaction, "full", 0), None), env, "full", {});
    var (full, r) := if lobby.state == Open && active == lobby.capacity then Move(w, env, id, Full, "full") else (w, Ok(lobby));
    WorldMore(w, env.interaction, {}, {} + {"full"});
    StateIsThere(w, full, id, r, lobby, env.interaction, {} + {"full"});
    QuietKept(full, Transition(env.guildId, id, ReadyCheck, Discord(env.interaction, "ready-check", 0), None), env, "ready-check", {} + {"full"});
    KeptThen(w, full, ReadyFrom(w, env, lobby, active).0, id, env.interaction) by { KeptSame(full, full, id, env.interaction, {} + {"full"}, None); }
  }

  lemma StartKeeps(w: World, env: Env, id: string, userId: int)
    requires WorldOk(w, env.interaction, {})
    ensures Kept(w, StartReadyCheck(w, env, id, userId).0, id, env.interaction, None)
  {
    hide WorldOk, Do, Kept, EnsureQueue, ReadyFrom, PQ.ReadyCheckStarted, PQ.Sound, OnlyAt, Ensured, LiveAt, OthersOk, SameRoster, Led, SameMembers;
    KeptSame(w, w, id, env.interaction, {}, None);
    var found := Find(w.store, env.guildId, id);
    if found.Some? && userId == found.value.organizerId && IsRecruiting(found.value.state) {
      LiveThere(w, env, id, {});
      EnsuresLive(w, env, id, {});
      var (e, q) := EnsureQueue(w, env, found.value);
      EnsuredWorld(w, e, env, id);
      if q.value.status == PQ.Open && |q.value.active| >= 2 && |q.value.active| % 2 == 0 && PQ.ReadyCheckStarted(q.value, env.now, env.config).Ok? {
        StartsCheck(e, env, id, {});
        var started := WithQueue(e, id, PQ.ReadyCheckStarted(q.value, env.now, env.config).value);
        FinishedKept(e, started, id, env.interaction);
        ReadyFromKept(started, env, found.value, |PQ.ReadyCheckStarted(q.value, env.now, env.config).value.active|);
        ValidDead(w, id, env.interaction, {});
        KeptThen(w, e, started, id, env.interaction);
        KeptThen(w, started, StartReadyCheck(w, env, id, userId).0, id, env.interaction);
      }
    }
  }

  lemma EnsuredWorld(w: World, v: World, env: Env, id: string)
    requires Ensured(w, v, env, id, env.interaction, {})
    ensures WorldOk(v, env.interaction, {}) && Kept(w, v, id, env.interaction, None) && id in v.queues
  {
    hide StoreOk;
    SettledBy(v, id);
    OthersAndThis(v, id, env.interaction, {});
    EnsuredKept(w, v, env, id, {});
  }

  lemma FinishedKept(w: World, v: World, id: string, interaction: int)
    requires Finished(w, v, id, interaction, {})
    ensures Kept(w, v, id, interaction, None) && WorldOk(v, interaction, {})
  {
    hide WorldOk, OnlyAt, PlayersFrom;
    PlayersSame(w, v, id, None);
    KeptAt(w, v, id, interaction, {}, None);
  }

  /** When a player leaves a live lobby, or drops out of its ready check, the
      organizer stays unless it is they who go; then the longest-tenured of those
      who remain is the organizer, and with nobody left the lobby is cancelled. */
  lemma DeparturesHandOn(w: World, env: Env, id: string, userId: int)
    requires WorldOk(w, env.interaction, {}) && Live(w, id) && w.store.lobbies[id].guildId == env.guildId
    ensures var (v, r) := LeaveLobby(w, env, id, userId);
            r.Ok? ==> id in v.store.lobbies && v.store.lobbies[id] == r.value && HandsOn(w.store.lobbies[id].organizerId, r.value, userId)
    ensures var (v, r) := AnswerReadyCheck(w, env, id, userId, PQ.Drop);
            r.Ok? ==> id in v.store.lobbies && v.store.lobbies[id] == r.value && HandsOn(w.store.lobbies[id].organizerId, r.value, userId)
  {
    hide LeaveLobby, WorldOk, HandsOn, PQ.Responded, FollowDeparture, AfterDrop, EveryoneReady, Kept, SameRoster, LiveAt, OthersOk;
    LiveThere(w, env, id, {});
    LeavesLive(w, env, id, userId);
    if id in w.queues && PQ.Responded(w.queues[id], userId, PQ.Drop, env.now, env.config).Ok? { DropsLive(w, env, id, userId); }
  }

  // ---- Ready checks that run out --------------------------------------------------------------

  /** With the default configuration a check that runs out with players not ready
      cancels the queue and, in the same pass, its lobby. */
  lemma TimeOutOneKeeps(w: World, env: Env, id: string)
    requires WorldOk(w, env.interaction, {}) && env.config.cancelOnTimeout && Live(w, id)
    ensures var v := TimeOutOne(w, env, w.store.lobbies[id]).0; WorldOk(v, env.interaction, {}) && OnlyAt(w, v, id) && PlayersFrom(w, v, id, None)
  {
    hide PQ.Expired, PQ.Sound, Do, PQ.Has, OnlyAt;
    ValidDead(w, id, env.interaction, {});
    var lobby := w.store.lobbies[id];
    if id !in w.queues {
      OnlyAtSelf(w, id);
    } else {
      KnownQueue(w, id, env.interaction, {});
      PQI.ExpireKeeps(w.queues[id], env.now, env.config);
      var (q, late) := PQ.Expired(w.queues[id], env.now, env.config);
      hide WorldOk;
      SameActive(w, id, q, env.interaction, {});
      var m := WithQueue(w, id, q);
      var v := TimeOutOne(w, env, lobby).0;
      if late != [] && q.status == PQ.Cancelled {
        ChecksTimeOut(m, env, id, q.deadline);
        OnlyAtTransitive(w, m, v, id);
      }
      PlayersSame(w, v, id, None);
    }
  }

  lemma ChecksTimeOut(w: World, env: Env, id: string, deadline: Option<int>)
    requires WorldOk(w, env.interaction, {}) && Live(w, id)
    ensures var (v, r) := Do(w, Transition(w.store.lobbies[id].guildId, id, Cancelled, ReadyTimeout(id, deadline), None), env);
            WorldOk(v, env.interaction, {}) && OnlyAt(w, v, id) && v == w.(store := v.store) && r.Ok?
            && id in v.store.lobbies && r.value == v.store.lobbies[id] && r.value.state == Cancelled
  {
    hide WorldOk, Do, StoreOk, Used, OnlyAt, OthersOk, PQ.Sound, Edited, Makes, ValidLobby, SameRoster;
    var lobby := w.store.lobbies[id];
    var c := Transition(lobby.guildId, id, Cancelled, ReadyTimeout(id, deadline), None);
    var changed := NextVersion(lobby.(state := Cancelled), env.now);
    OthersOf(w, id, env.interaction, {});
    PastOf(w, id, env.interaction, {});
    TimeoutIsNew(w.store, id, deadline);
    ValidThere(w, id, env.interaction, {});
    MoveMakes(lobby, c, changed, env.now);
    DoMakesOthers(w, c, env, changed, id);
    var v := Do(w, c, env).0;
    SettledDead(v, id);
    OthersAndThis(v, id, env.interaction, {});
  }

  lemma PastOf(w: World, id: string, interaction: int, done: set<string>)
    requires WorldOk(w, interaction, done)
    ensures OperationsPast(w.store) && QueuesSound(w) && AllSettled(w)
  {
    hide Ordered, OnlySteps, OldSync, TimedOut, PQ.Sound, Settled;
  }

  lemma DoMakesOthers(w: World, c: Command, env: Env, changed: Lobby, id: string)
    requires c.Transition? && c.lobbyId == id && c.op.ReadyTimeout? && c.op.lobbyId == id && OthersOk(w, id, env.interaction, {})
    requires c.guildId == w.store.lobbies[id].guildId && !Used(w.store, c.op) && Makes(w.store.lobbies[id], c, env.now, changed, Transitioned)
    requires IsTerminal(changed.state) && (id in w.queues ==> PQ.Sound(w.queues[id]))
    ensures var (v, r) := Do(w, c, env);
            r == Ok(changed) && OthersOk(v, id, env.interaction, {}) && OnlyAt(w, v, id) && v == w.(store := v.store)
            && id in v.store.lobbies && v.store.lobbies[id] == changed
  {
    hide Do, StoreOk, Edited, Makes, Used, PQ.Sound;
    DoMakes(w, c, env, changed, Transitioned, {}, {});
    OthersStay(w, Do(w, c, env).0, id, env.interaction, {}, {});
  }

  lemma TimeoutIsNew(store: Store, id: string, deadline: Option<int>)
    requires OperationsPast(store) && id in store.lobbies && !IsTerminal(store.lobbies[id].state)
    ensures !Used(store, ReadyTimeout(id, deadline))
  {
    UsedOperation(store.audit, ReadyTimeout(id, deadline));
    forall i | 0 <= i < |store.audit| ensures store.audit[i].operation != ReadyTimeout(id, deadline) {
      assert TimedOut(store, store.audit[i].operation);
    }
  }

  lemma {:induction false} TimeOutKeeps(w: World, env: Env, order: seq<string>)
    requires WorldOk(w, env.interaction, {}) && Solo(w) && env.config.cancelOnTimeout
    ensures var v := TimeOut(w, env, order).0; WorldOk(v, env.interaction, {}) && Solo(v)
    decreases |order|
  {
    hide WorldOk, Solo, TimeOutOne, OnlyAt, PlayersFrom, Kept;
    if order != [] {
      var id := order[0];
      if id !in w.store.lobbies || w.store.lobbies[id].state != ReadyCheck {
        TimeOutKeeps(w, env, order[1..]);
      } else {
        TimeOutOneKeeps(w, env, id);
        var (next, failed) := TimeOutOne(w, env, w.store.lobbies[id]);
        KeptAt(w, next, id, env.interaction, {}, None);
        KeptSolo(w, next, id, env.interaction, None);
        if failed.None? { TimeOutKeeps(next, env, order[1..]); }
      }
    }
  }

  lemma TickKeeps(w: World, env: Env, order: seq<string>)
    requires WorldOk(w, env.interaction, {}) && Solo(w) && env.config.cancelOnTimeout
    ensures var v := Tick(w, env, order).0; WorldOk(v, env.interaction, STEPS) && Solo(v)
  {
    hide WorldOk, Solo, Swept, TimeOut, SweptFrom, STEPS;
    SweptKeeps(w, env, None, {});
    var (s, failed) := Swept(w, env, None);
    SweptSolo(w, s);
    AllSteps(s, env.interaction);
    if failed.None? {
      TimeOutKeeps(s, env, order);
      AllSteps(TimeOut(s, env, order).0, env.interaction);
    }
  }

  ghost predicate Overdue(w: World, id: string, now: int) {
    && Live(w, id) && id in w.queues && w.queues[id].status == PQ.ReadyCheck
    && w.queues[id].deadline.Some? && now >= w.queues[id].deadline.value
  }

  ghost predicate AllAnsweredReady(q: PQ.Queue) {
    forall m :: m in q.active ==> m.userId in q.ready && q.ready[m.userId] == PQ.Ready
  }

  lemma {:induction false} NobodyIsLate(q: PQ.Queue, members: seq<PQ.Member>)
    ensures PQ.NotReady(q, members) == [] <==> forall m :: m in members ==> m.userId in q.ready && q.ready[m.userId] == PQ.Ready
  {
    if members != [] {
      NobodyIsLate(q, members[1..]);
      assert members[0] in members && forall m :: m in members <==> m == members[0] || m in members[1..];
    }
  }

  /** Without cancellation on timeout the roster does not follow the queue: they
      still agree after the pass exactly when everybody had answered Ready. */
  lemma TimeoutWithoutCancelling(w: World, env: Env, id: string)
    requires WorldOk(w, env.interaction, {}) && Overdue(w, id, env.now) && !env.config.cancelOnTimeout
    ensures var v := TimeOutOne(w, env, w.store.lobbies[id]).0;
            && id in v.queues && v.store == w.store
            && (SameRoster(w.store.lobbies[id], v.queues[id]) <==> AllAnsweredReady(w.queues[id]))
  {
    hide WorldOk, Do, StoreOk, PQ.Sound, PQ.Expired, PQ.Has, PQ.NotReady;
    PastOf(w, id, env.interaction, {});
    assert Settled(w, id);
    ValidDead(w, id, env.interaction, {});
    KnownQueue(w, id, env.interaction, {});
    var lobby, q := w.store.lobbies[id], w.queues[id];
    var (p, late) := PQ.Expired(q, env.now, env.config);
    PQI.ExpireKeeps(q, env.now, env.config);
    RunsOutOpen(q, env.now, env.config);
    NobodyIsLate(q, q.active);
    assert late == PQ.NotReady(q, q.active) by { LateAre(q, env.now, env.config); }
    if late == [] {
      NobodyLate(q, env.now, env.config);
    } else {
      LateLeft(q, p, late);
      assert HasParticipant(lobby, late[0]) <==> PQ.Has(q.active, late[0]);
    }
  }

  lemma LateAre(q: PQ.Queue, now: int, c: PQ.Config)
    requires q.status == PQ.ReadyCheck && q.deadline.Some? && now >= q.deadline.value
    ensures PQ.Expired(q, now, c).1 == PQ.NotReady(q, q.active)
  {
    hide PQ.NotReady;
  }

  lemma RunsOutOpen(q: PQ.Queue, now: int, c: PQ.Config)
    requires q.status == PQ.ReadyCheck && q.deadline.Some? && now >= q.deadline.value && !c.cancelOnTimeout
    ensures PQ.Expired(q, now, c).0.status == PQ.Open
  {
  }

  lemma LateLeft(q: PQ.Queue, p: PQ.Queue, late: seq<int>)
    requires late != [] && (forall id :: id in late ==> PQ.Has(q.active, id))
    requires forall m :: m in PQ.Everyone(p) <==> m in PQ.Everyone(q) && m.userId !in late
    ensures PQ.Has(q.active, late[0]) && !PQ.Has(p.active, late[0])
  {
    var u := late[0];
    assert u in late;
    PQI.HasMember(p.active, u);
    forall m | m in p.active ensures m.userId != u { assert m in PQ.Everyone(p); }
  }

  lemma NobodyLate(q: PQ.Queue, now: int, c: PQ.Config)
    requires PQ.Sound(q) && !c.cancelOnTimeout && PQ.Expired(q, now, c).1 == []
    ensures PQ.Expired(q, now, c).0.active == q.active
  {
    assert PQ.ForgetReady(q.ready, []) == q.ready;
    var kept := q.(active := PQ.RemoveAll(q.active, []), ready := PQ.ForgetReady(q.ready, []));
    assert kept == q;
  }
}
