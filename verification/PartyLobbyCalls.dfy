/** Each handler call keeps the invariant, and which players it can bring in. */
module PartyLobbyCalls {
  import opened Common
  import opened PartyStore
  import opened PartyLobby
  import opened PartyLobbySteps
  import opened PartyLobbyRoster
  import opened PartyLobbyStages
  import opened PartyLobbyHandlers
  import PQ = PartyQueue
  import PQI = PartyQueueInvariant

  const STEPS := TAIL + {"create", "organizer", "join", "full", "ready-check", "leave", "promote", "ready-drop",
    "ready-promote", "edit", "cancel", "transfer", "forming"}

  /** Players of a live lobby's queue were in it before, but for this one. */
  ghost predicate PlayersFrom(w: World, v: World, id: string, extra: Option<int>) {
    id in v.store.lobbies && !IsTerminal(v.store.lobbies[id].state) && id in v.queues ==>
      forall u :: PQ.Has(PQ.Everyone(v.queues[id]), u) ==> (id in w.queues && PQ.Has(PQ.Everyone(w.queues[id]), u)) || Some(u) == extra
  }

  /** A call changed nothing, or this lobby and its queue. */
  ghost predicate Kept(w: World, v: World, id: string, interaction: int, extra: Option<int>) {
    && WorldOk(v, interaction, STEPS)
    && ((v.store == w.store && v.queues == w.queues) || (OnlyAt(w, v, id) && PlayersFrom(w, v, id, extra)))
  }

  lemma KeptSame(w: World, v: World, id: string, interaction: int, done: set<string>, extra: Option<int>)
    requires WorldOk(w, interaction, done) && done <= STEPS && v.store == w.store && v.queues == w.queues
    ensures Kept(w, v, id, interaction, extra)
  {
    hide StoreOk;
    MoreDone(w.store, interaction, done, STEPS);
    forall k | k in v.store.lobbies ensures Settled(v, k) { assert Settled(w, k); }
  }

  lemma KeptAt(w: World, v: World, id: string, interaction: int, done: set<string>, extra: Option<int>)
    requires WorldOk(v, interaction, done) && done <= STEPS && OnlyAt(w, v, id) && PlayersFrom(w, v, id, extra)
    ensures Kept(w, v, id, interaction, extra)
  {
    hide StoreOk, OnlyAt, PlayersFrom;
    MoreDone(v.store, interaction, done, STEPS);
  }

  lemma LiveThere(w: World, env: Env, id: string, done: set<string>)
    requires WorldOk(w, env.interaction, done) && id in w.store.lobbies
    requires w.store.lobbies[id].guildId == env.guildId && !IsTerminal(w.store.lobbies[id].state)
    ensures OthersOk(w, id, env.interaction, done) && LiveAt(w, env, id)
    ensures SameRoster(w.store.lobbies[id], w.queues[id]) && Led(w.store.lobbies[id])
  {
    OthersOf(w, id, env.interaction, done);
    ValidThere(w, id, env.interaction, done);
  }

  // ---- Leaving ------------------------------------------------------------------------------

  /** What keeps a player from dropping out of a ready check. */
  function DropProblem(q: PQ.Queue, now: int): Option<PQ.QueueError> {
    if q.status != PQ.ReadyCheck then Some(PQ.NotReadyChecking)
    else if q.deadline.Some? && now >= q.deadline.value then Some(PQ.CheckExpired)
    else None
  }

  lemma DepartsWhen(q: PQ.Queue, userId: int, dropping: bool, env: Env)
    requires dropping ==> PQ.Has(q.active, userId)
    ensures Departed(q, userId, dropping, env).Err? <==> dropping && DropProblem(q, env.now).Some?
    ensures Departed(q, userId, dropping, env).Err? ==> Departed(q, userId, dropping, env).error == DropProblem(q, env.now).value
  {
    hide PQ.Has;
  }

  /** The queue lets the player go, the roster follows, the organizer is followed:
      no guard of bootstrap, roster or transfer is met. A leave fails exactly for a
      seated player of a lobby in READY_CHECK whose queue runs no ready check, or one
      whose deadline has passed. */
  lemma LeavesLive(w: World, env: Env, id: string, userId: int)
    requires OthersOk(w, id, env.interaction, {}) && LiveAt(w, env, id)
    requires SameRoster(w.store.lobbies[id], w.queues[id]) && Led(w.store.lobbies[id])
    ensures var (v, r) := LeaveLobby(w, env, id, userId);
            var q := EnsureQueue(w, env, w.store.lobbies[id]).1;
            && Kept(w, v, id, env.interaction, None) && q.Ok?
            && (r.Err? <==> w.store.lobbies[id].state == ReadyCheck && PQ.Has(q.value.active, userId) && DropProblem(q.value, env.now).Some?)
            && (r.Err? ==> r.error == QueueFailed(DropProblem(q.value, env.now).value))
            && (r.Ok? ==> id in v.store.lobbies && v.store.lobbies[id] == r.value && HandsOn(w.store.lobbies[id].organizerId, r.value, userId))
  {
    hide StoreOk, OthersOk, LiveAt, OnlyAt, PQ.Sound, PQ.Has, SameRoster, Led, EnsureQueue, FollowDeparture, AfterLeave, Without, StageDone,
      FitsBut, Settled, PQ.Left, PQ.Responded, Kept, SamePlayers, WorldOk, SameOtherwise, DropProblem, HandsOn, Ensured;
    LiveIs(w, env, id);
    EnsuresLive(w, env, id, {});
    var lobby := w.store.lobbies[id];
    var (e, q) := EnsureQueue(w, env, lobby);
    EnsuredSame(w, e, env, id, {});
    LiveIs(e, env, id);
    var dropping := lobby.state == ReadyCheck && PQ.Has(q.value.active, userId);
    DepartsWhen(q.value, userId, dropping, env);
    match Departed(q.value, userId, dropping, env) {
      case Err(_) =>
        SettledBy(e, id);
        EnsuredKept(w, e, env, id, {});
      case Ok((rest, promoted)) =>
        DepartedWithout(q.value, userId, dropping, env);
        WithoutSound(q.value, rest, userId, promoted);
        QueueReplaced(e, env, id, rest, {});
        var m := WithQueue(e, id, rest);
        Follows(m, env, id, userId, promoted, "leave", "promote", q.value, {});
        var (f, fr) := FollowDeparture(m, env, id, userId, promoted, "leave", "promote");
        var d1 := {} + {"leave"} + {"promote"};
        StageIs(m, f, fr, id, env.interaction, d1);
        AfterLeaveDone(f, env, id, userId, dropping, d1);
        var (v, r) := AfterLeave(f, env, fr.value, userId, dropping);
        StageIs(f, v, r, id, env.interaction, d1 + TAIL);
        SameOrganizer(e.store.lobbies[id], fr.value);
        StageThen(m, f, v, fr, r, id, env.interaction, d1, d1 + TAIL);
        DepartureKept(w, e, m, v, r, env, id, userId, promoted, rest, d1 + TAIL);
    }
  }

  lemma EnsuredSame(w: World, v: World, env: Env, id: string, done: set<string>)
    requires Ensured(w, v, env, id, env.interaction, done)
    ensures OthersOk(v, id, env.interaction, done) && LiveAt(v, env, id) && id in w.store.lobbies && id in v.store.lobbies && id in v.queues
    ensures SameRoster(v.store.lobbies[id], v.queues[id]) && Led(v.store.lobbies[id])
    ensures v.store.lobbies[id].organizerId == w.store.lobbies[id].organizerId
  {
  }

  lemma SameOrganizer(lobby: Lobby, after: Lobby)
    requires SameOtherwise(lobby, after)
    ensures after.organizerId == lobby.organizerId
  {
  }

  lemma EnsuredKept(w: World, v: World, env: Env, id: string, done: set<string>)
    requires Ensured(w, v, env, id, env.interaction, done) && Settled(v, id) && done <= STEPS
    ensures Kept(w, v, id, env.interaction, None)
  {
    hide OthersOk, OnlyAt, WorldOk, PQ.Has;
    OthersAndThis(v, id, env.interaction, done);
    KeptAt(w, v, id, env.interaction, done, None);
  }

  lemma DepartedWithout(q: PQ.Queue, userId: int, dropping: bool, env: Env)
    requires PQ.Sound(q) && Departed(q, userId, dropping, env).Ok?
    ensures var (rest, promoted) := Departed(q, userId, dropping, env).value; Without(q, rest, userId, promoted)
  {
    hide PQ.Sound, Without;
    if dropping { DroppedWithout(q, userId, env.now, env.config); } else { LeftWithout(q, userId); }
  }

  lemma WithoutSound(q: PQ.Queue, p: PQ.Queue, userId: int, promoted: Option<int>)
    requires Without(q, p, userId, promoted)
    ensures PQ.Sound(p) && forall u :: PQ.Has(PQ.Everyone(p), u) ==> PQ.Has(PQ.Everyone(q), u)
  {
  }

  lemma DepartureKept(w: World, e: World, m: World, v: World, r: Answer, env: Env, id: string, userId: int, promoted: Option<int>, rest: PQ.Queue, done: set<string>)
    requires Ensured(w, e, env, id, env.interaction, {}) && OnlyAt(e, m, id) && m == WithQueue(e, id, rest) && done <= STEPS
    requires StageDone(m, v, r, id, env.interaction, done) && Settled(v, id) && Without(e.queues[id], rest, userId, promoted)
    ensures Kept(w, v, id, env.interaction, None)
  {
    hide OthersOk, WorldOk, PQ.Has, PQ.Sound, Settled, LiveAt;
    OthersAndThis(v, id, env.interaction, done);
    OnlyAtTransitive(w, e, m, id);
    OnlyAtTransitive(w, m, v, id);
    hide OnlyAt;
    assert v.queues[id] == rest;
    KeptAt(w, v, id, env.interaction, done, None);
  }

  lemma LeavesDead(w: World, env: Env, id: string, userId: int)
    requires WorldOk(w, env.interaction, {}) && DeadAt(w, id) && w.store.lobbies[id].guildId == env.guildId
    ensures Kept(w, LeaveLobby(w, env, id, userId).0, id, env.interaction, None)
  {
    hide OnlyAt, PQ.Sound, EnsureQueue, PQ.Left, PQ.Responded, Kept, WorldOk, FollowDeparture, AfterLeave, ValidLobby;
    ValidDead(w, id, env.interaction, {});
    var lobby := w.store.lobbies[id];
    EnsuresDead(w, env, lobby, {});
    var (e, q) := EnsureQueue(w, env, lobby);
    if q.Err? {
      DeadKept(w, e, id, env.interaction, {}, None);
    } else {
      FollowsDead(e, env, id, userId, q.value);
      var m := WithQueue(e, id, PQ.Left(q.value, userId).0);
      OnlyAtTransitive(w, e, m, id);
      DeadKept(w, m, id, env.interaction, {}, None);
    }
  }

  lemma ValidDead(w: World, id: string, interaction: int, done: set<string>)
    requires WorldOk(w, interaction, done) && id in w.store.lobbies
    ensures w.store.lobbies[id].lobbyId == id && ValidLobby(w.store.lobbies[id])
  {
    OthersOf(w, id, interaction, done);
    ValidThere(w, id, interaction, done);
  }

  /** On a terminal lobby the roster does not follow: the handler stops there. */
  lemma FollowsDead(w: World, env: Env, id: string, userId: int, q: PQ.Queue)
    requires WorldOk(w, env.interaction, {}) && DeadAt(w, id) && PQ.Sound(q)
    ensures var (rest, promoted) := PQ.Left(q, userId);
            var m := WithQueue(w, id, rest);
            && WorldOk(m, env.interaction, {}) && OnlyAt(w, m, id) && DeadAt(m, id)
            && FollowDeparture(m, env, id, userId, promoted, "leave", "promote").0 == m
            && FollowDeparture(m, env, id, userId, promoted, "leave", "promote").1.Err?
  {
    hide OnlyAt, PQ.Sound, PQ.Has, PQ.Left, WorldOk, Do;
    LeftWithout(q, userId);
    var (rest, promoted) := PQ.Left(q, userId);
    WithoutSound(q, rest, userId, promoted);
    DeadQueue(w, id, rest, env.interaction, {});
    var m := WithQueue(w, id, rest);
    WorldStepIsNew(m, env.interaction, {}, "leave", 0);
    DeadStep(m, RemoveParticipant(env.guildId, id, userId, Discord(env.interaction, "leave", 0)), env);
  }

  lemma WorldStepIsNew(w: World, interaction: int, done: set<string>, step: string, about: int)
    requires WorldOk(w, interaction, done) && step !in done
    ensures !Used(w.store, Discord(interaction, step, about))
  {
    StepIsNew(w.store, interaction, done, step, about);
  }

  lemma DeadKept(w: World, v: World, id: string, interaction: int, done: set<string>, extra: Option<int>)
    requires WorldOk(v, interaction, done) && OnlyAt(w, v, id) && DeadAt(v, id) && done <= STEPS
    ensures Kept(w, v, id, interaction, extra)
  {
    hide WorldOk, OnlyAt;
    KeptAt(w, v, id, interaction, done, extra);
  }

  lemma LeaveKeeps(w: World, env: Env, id: string, userId: int)
    requires WorldOk(w, env.interaction, {})
    ensures Kept(w, LeaveLobby(w, env, id, userId).0, id, env.interaction, None)
  {
    hide WorldOk, Kept, EnsureQueue, FollowDeparture, AfterLeave, Departed;
    var found := Find(w.store, env.guildId, id);
    if found.None? {
      KeptSame(w, w, id, env.interaction, {}, None);
    } else if IsTerminal(found.value.state) {
      LeavesDead(w, env, id, userId);
    } else {
      LiveThere(w, env, id, {});
      LeavesLive(w, env, id, userId);
    }
  }

  // ---- Answering a ready check ----------------------------------------------------------------

  lemma DropsLive(w: World, env: Env, id: string, userId: int)
    requires OthersOk(w, id, env.interaction, {}) && LiveAt(w, env, id)
    requires SameRoster(w.store.lobbies[id], w.queues[id]) && Led(w.store.lobbies[id])
    requires PQ.Responded(w.queues[id], userId, PQ.Drop, env.now, env.config).Ok?
    ensures var (v, r) := AnswerReadyCheck(w, env, id, userId, PQ.Drop);
            && Kept(w, v, id, env.interaction, None) && r.Ok?
            && id in v.store.lobbies && v.store.lobbies[id] == r.value && HandsOn(w.store.lobbies[id].organizerId, r.value, userId)
  {
    hide StoreOk, OthersOk, LiveAt, OnlyAt, PQ.Sound, PQ.Has, SameRoster, Led, FollowDeparture, AfterDrop, Without, StageDone,
      FitsBut, Settled, PQ.Responded, Kept, WorldOk, SameOtherwise, EveryoneReady, HandsOn;
    LiveIs(w, env, id);
    var q := w.queues[id];
    var (rest, promoted) := PQ.Responded(q, userId, PQ.Drop, env.now, env.config).value;
    DroppedWithout(q, userId, env.now, env.config);
    WithoutSound(q, rest, userId, promoted);
    QueueReplaced(w, env, id, rest, {});
    var m := WithQueue(w, id, rest);
    Follows(m, env, id, userId, promoted, "ready-drop", "ready-promote", q, {});
    var (f, fr) := FollowDeparture(m, env, id, userId, promoted, "ready-drop", "ready-promote");
    var d1 := {} + {"ready-drop"} + {"ready-promote"};
    StageIs(m, f, fr, id, env.interaction, d1);
    AfterDropDone(f, env, id, userId, d1);
    var (v, r) := AfterDrop(f, env, fr.value, userId);
    StageIs(f, v, r, id, env.interaction, d1 + TAIL);
    SameOrganizer(w.store.lobbies[id], fr.value);
    StageThen(m, f, v, fr, r, id, env.interaction, d1, d1 + TAIL);
    DropKept(w, m, v, r, env, id, rest, d1 + TAIL);
  }

  lemma DropKept(w: World, m: World, v: World, r: Answer, env: Env, id: string, rest: PQ.Queue, done: set<string>)
    requires OnlyAt(w, m, id) && m == WithQueue(w, id, rest) && done <= STEPS && id in w.queues
    requires StageDone(m, v, r, id, env.interaction, done) && Settled(v, id)
    requires forall u :: PQ.Has(PQ.Everyone(rest), u) ==> PQ.Has(PQ.Everyone(w.queues[id]), u)
    ensures Kept(w, v, id, env.interaction, None)
  {
    hide OthersOk, WorldOk, PQ.Has, Settled;
    OthersAndThis(v, id, env.interaction, done);
    OnlyAtTransitive(w, m, v, id);
    hide OnlyAt;
    KeptAt(w, v, id, env.interaction, done, None);
  }

  /** A queue with the same active list and the same players. */
  lemma SameActive(w: World, id: string, q: PQ.Queue, interaction: int, done: set<string>)
    requires WorldOk(w, interaction, done) && id in w.queues && PQ.Sound(q) && q.active == w.queues[id].active
    ensures id in w.store.lobbies
    ensures var v := WithQueue(w, id, q); WorldOk(v, interaction, done) && OnlyAt(w, v, id)
  {
    hide StoreOk, PQ.Sound, PQ.Has, Led;
    assert Settled(w, id);
    OnlyAtQueue(w, id, q);
    SettledAgain(w, WithQueue(w, id, q), id, interaction, done);
  }

  /** One transition, whatever it answers, under the invariant. */
  lemma MoveKeeps(w: World, env: Env, id: string, target: LobbyState, step: string, done: set<string>)
    requires WorldOk(w, env.interaction, done) && step !in done
    ensures var (v, r) := Move(w, env, id, target, step);
            && WorldOk(v, env.interaction, done + {step}) && v == w.(store := v.store) && (v == w || OnlyAt(w, v, id))
            && (r.Ok? ==> id in v.store.lobbies && r.value == v.store.lobbies[id])
  {
    hide WorldOk, Do, OnlyAt;
    QuietStep(w, Transition(env.guildId, id, target, Discord(env.interaction, step, 0), None), env, step, 0, done);
  }

  lemma WorldMore(w: World, interaction: int, done: set<string>, more: set<string>)
    requires WorldOk(w, interaction, done) && done <= more
    ensures WorldOk(w, interaction, more)
  {
    hide StoreOk;
    MoreDone(w.store, interaction, done, more);
  }

  lemma AnswersKeep(w: World, env: Env, id: string, userId: int, status: PQ.ReadyStatus)
    requires WorldOk(w, env.interaction, {}) && id in w.queues && status != PQ.Drop
    requires PQ.Responded(w.queues[id], userId, status, env.now, env.config).Ok?
    ensures Kept(w, AnswerReadyCheck(w, env, id, userId, status).0, id, env.interaction, None)
  {
    hide WorldOk, OnlyAt, PQ.Sound, PQ.Has, PQ.Responded, Kept, EveryoneReady, Move;
    SoundThere(w, id, env.interaction, {});
    PQI.AnswerKeeps(w.queues[id], userId, status, env.now, env.config);
    var q := PQ.Responded(w.queues[id], userId, status, env.now, env.config).value.0;
    SameActive(w, id, q, env.interaction, {});
    var m := WithQueue(w, id, q);
    MoveKeeps(m, env, id, Forming, "forming", {});
    WorldMore(m, env.interaction, {}, {} + {"forming"});
    var v := AnswerReadyCheck(w, env, id, userId, status).0;
    if v != m { OnlyAtTransitive(w, m, v, id); }
    KeptAt(w, v, id, env.interaction, {} + {"forming"}, None);
  }

  /** The card of a ready check is in its lobby's guild. */
  ghost predicate InItsGuild(w: World, env: Env, id: string) {
    id in w.store.lobbies ==> w.store.lobbies[id].guildId == env.guildId
  }

  lemma AnswerReadyKeeps(w: World, env: Env, id: string, userId: int, status: PQ.ReadyStatus)
    requires WorldOk(w, env.interaction, {}) && InItsGuild(w, env, id)
    ensures Kept(w, AnswerReadyCheck(w, env, id, userId, status).0, id, env.interaction, None)
  {
    hide WorldOk, OnlyAt, PQ.Sound, PQ.Has, PQ.Responded, Kept, EveryoneReady, FollowDeparture, AfterDrop, ToForming;
    if id !in w.queues || PQ.Responded(w.queues[id], userId, status, env.now, env.config).Err? {
      KeptSame(w, w, id, env.interaction, {}, None);
    } else if status != PQ.Drop {
      AnswersKeep(w, env, id, userId, status);
    } else {
      KnownQueue(w, id, env.interaction, {});
      if IsTerminal(w.store.lobbies[id].state) { DropsDead(w, env, id, userId); }
      else {
        LiveThere(w, env, id, {});
        DropsLive(w, env, id, userId);
      }
    }
  }

  lemma KnownQueue(w: World, id: string, interaction: int, done: set<string>)
    requires WorldOk(w, interaction, done) && id in w.queues
    ensures id in w.store.lobbies && PQ.Sound(w.queues[id])
  {
  }

  lemma DropsDead(w: World, env: Env, id: string, userId: int)
    requires WorldOk(w, env.interaction, {}) && id in w.queues && DeadAt(w, id)
    requires PQ.Responded(w.queues[id], userId, PQ.Drop, env.now, env.config).Ok?
    ensures Kept(w, AnswerReadyCheck(w, env, id, userId, PQ.Drop).0, id, env.interaction, None)
  {
    hide WorldOk, OnlyAt, PQ.Sound, PQ.Has, PQ.Responded, Kept, Do, AfterDrop;
    KnownQueue(w, id, env.interaction, {});
    DroppedWithout(w.queues[id], userId, env.now, env.config);
    var (rest, promoted) := PQ.Responded(w.queues[id], userId, PQ.Drop, env.now, env.config).value;
    WithoutSound(w.queues[id], rest, userId, promoted);
    DeadQueue(w, id, rest, env.interaction, {});
    var m := WithQueue(w, id, rest);
    WorldStepIsNew(m, env.interaction, {}, "ready-drop", 0);
    DeadStep(m, RemoveParticipant(env.guildId, id, userId, Discord(env.interaction, "ready-drop", 0)), env);
    DeadKept(w, m, id, env.interaction, {}, None);
  }
}
