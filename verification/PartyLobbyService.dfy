/** PartyLobbyService of utils/party_lobby.py: the handlers run step by step on the
    lobby repository and on the queue service. */
module PartyLobbyServices {
  import opened Common
  import opened PartyStore
  import opened PartyStoreInvariant
  import opened PartyRepositories
  import opened PartyQueueServices
  import opened PartyLobby
  import PQ = PartyQueue

  /** A store's answer, as a handler passes it on. */
  function Told(r: Result<Lobby, Error>): Answer {
    if r.Ok? then Ok(r.value) else Err(StoreFailed(r.error))
  }

  lemma DoTells(w: World, c: Command, env: Env)
    requires AboutOneLobby(c)
    ensures Exec(w.store, c, env.naming, env.now).Ok? ==> Exec(w.store, c, env.naming, env.now).value.1.One?
    ensures Do(w, c, env) == (w.(store := After(w.store, c, env.naming, env.now)), Told(LobbyOf(Exec(w.store, c, env.naming, env.now))))
  {
    hide MakeLobby, ExpireRows, Edited, Recorded, Commit;
  }

  class PartyLobbyService {
    const repository: SQLitePartyRepository
    const queueService: PartyQueueService
    var preferences: map<(int, int), Preferences>

    constructor (repository: SQLitePartyRepository, queueService: PartyQueueService)
      ensures this.repository == repository && this.queueService == queueService && preferences == map[]
    {
      this.repository := repository;
      this.queueService := queueService;
      this.preferences := map[];
    }

    function Seen(): World
      reads this, repository, queueService
    {
      World(repository.Contents(), queueService.queues, preferences)
    }

    /** The fixed parts of the environment are this service's own. */
    ghost predicate Of(env: Env) { env.naming == repository.naming && env.config == queueService.config }

    // ---- Store steps ------------------------------------------------------------------

    method SaveSeat(env: Env, lobbyId: string, userId: int, profile: Preferences, op: OperationId) returns (r: Answer)
      requires Of(env)
      modifies repository
      ensures (Seen(), r) == Save(old(Seen()), env, lobbyId, userId, profile, op)
    {
      hide Exec, After, LobbyOf;
      DoTells(Seen(), SaveParticipant(env.guildId, lobbyId, Seat(userId, profile, env.now), op), env);
      var saved := repository.SaveParticipant(env.guildId, lobbyId, Seat(userId, profile, env.now), op, env.now);
      r := Told(saved);
    }

    method MoveTo(env: Env, lobbyId: string, target: LobbyState, step: string) returns (r: Answer)
      requires Of(env)
      modifies repository
      ensures (Seen(), r) == Move(old(Seen()), env, lobbyId, target, step)
    {
      hide Exec, After, LobbyOf;
      DoTells(Seen(), Transition(env.guildId, lobbyId, target, Discord(env.interaction, step, 0), None), env);
      var moved := repository.Transition(env.guildId, lobbyId, target, Discord(env.interaction, step, 0), None, env.now);
      r := Told(moved);
    }

    method TakeOff(env: Env, lobbyId: string, userId: int, step: string) returns (r: Answer)
      requires Of(env)
      modifies repository
      ensures (Seen(), r) == Do(old(Seen()), RemoveParticipant(env.guildId, lobbyId, userId, Discord(env.interaction, step, 0)), env)
    {
      hide Exec, After, LobbyOf;
      DoTells(Seen(), RemoveParticipant(env.guildId, lobbyId, userId, Discord(env.interaction, step, 0)), env);
      var removed := repository.RemoveParticipant(env.guildId, lobbyId, userId, Discord(env.interaction, step, 0), env.now);
      r := Told(removed);
    }

    method TransferTo(env: Env, lobbyId: string, heir: int, step: string, actorId: int) returns (r: Answer)
      requires Of(env)
      modifies repository
      ensures (Seen(), r) == Do(old(Seen()), TransferOrganizer(env.guildId, lobbyId, heir, Discord(env.interaction, step, 0), actorId), env)
    {
      hide Exec, After, LobbyOf;
      DoTells(Seen(), TransferOrganizer(env.guildId, lobbyId, heir, Discord(env.interaction, step, 0), actorId), env);
      var given := repository.TransferOrganizer(env.guildId, lobbyId, heir, Discord(env.interaction, step, 0), actorId, env.now);
      r := Told(given);
    }

    /** _touch_recruiting_activity, behind its callers' test of the state. */
    method TouchRecruitingActivity(env: Env, lobby: Lobby) returns (r: Answer)
      requires Of(env)
      modifies repository
      ensures (Seen(), r) == PartyLobby.Touched(old(Seen()), env, lobby)
    {
      hide Exec, After, LobbyOf;
      if !IsRecruiting(lobby.state) { return Ok(lobby); }
      DoTells(Seen(), Touch(env.guildId, lobby.lobbyId, Discord(env.interaction, "touch", 0), 60), env);
      var touched := repository.TouchRecruitingActivity(env.guildId, lobby.lobbyId, Discord(env.interaction, "touch", 0), 60, env.now);
      r := Told(touched);
    }

    method Sweep(env: Env, inGuild: Option<int>) returns (failed: Option<Failure>)
      requires Of(env)
      modifies repository
      ensures (Seen(), failed) == Swept(old(Seen()), env, inGuild)
    {
      hide ExpireRows;
      var closed := repository.ExpireDueRecruitment(inGuild, env.rows, env.now);
      failed := if closed.Err? then Some(StoreFailed(closed.error)) else None;
    }

    // ---- ensure_party_queue -----------------------------------------------------------

    method SeatPromoted(env: Env, lobby: Lobby, promoted: seq<int>) returns (failed: Option<Failure>)
      requires Of(env)
      modifies repository
      ensures (Seen(), failed) == SeatAll(old(Seen()), env, lobby, promoted)
    {
      hide Save;
      assert promoted[0..] == promoted;
      for i := 0 to |promoted|
        invariant SeatAll(old(Seen()), env, lobby, promoted) == SeatAll(Seen(), env, lobby, promoted[i..])
      {
        assert promoted[i..][1..] == promoted[i + 1..];
        var r := SaveSeat(env.(guildId := lobby.guildId), lobby.lobbyId, promoted[i],
                          PreferencesOf(Seen(), lobby.guildId, promoted[i]),
                          CapacitySync(lobby.lobbyId, lobby.version, promoted[i]));
        if r.Err? { return Some(r.error); }
      }
      failed := None;
    }

    /** Only a cancelled queue refuses to be joined, and then at once. */
    method JoinUnknown(lobby: Lobby, start: PQ.Queue) returns (r: Result<PQ.Queue, PQ.QueueError>)
      requires lobby.lobbyId in queueService.queues && queueService.queues[lobby.lobbyId] == start
      modifies queueService
      ensures r == JoinMissing(start, lobby.participants, start)
      ensures queueService.queues == if r.Ok? then old(queueService.queues)[lobby.lobbyId := r.value] else old(queueService.queues)
    {
      hide PQ.Joined, PQ.Has;
      var queue := start;
      var ps := lobby.participants;
      assert ps[0..] == ps;
      assert queueService.queues[lobby.lobbyId := queue] == queueService.queues;
      for i := 0 to |ps|
        invariant queueService.queues == old(queueService.queues)[lobby.lobbyId := queue]
        invariant JoinMissing(start, ps, start) == JoinMissing(queue, ps[i..], start)
        invariant queue == start || queue.status != PQ.Cancelled
      {
        assert ps[i..][1..] == ps[i + 1..];
        if !PQ.Has(PQ.Everyone(start), ps[i].userId) {
          RefusedIsCancelled(queue, ps[i].userId, RolesOf(ps[i]));
          var joined := queueService.Join(lobby.lobbyId, ps[i].userId, RolesOf(ps[i]));
          if joined.Err? { return Err(joined.error); }
          queue := joined.value.0;
        }
      }
      r := Ok(queue);
    }

    method EnsurePartyQueue(env: Env, lobby: Lobby) returns (r: Result<PQ.Queue, Failure>)
      requires Of(env) && lobby.capacity >= 1
      modifies repository, queueService
      ensures (Seen(), r) == EnsureQueue(old(Seen()), env, lobby)
      ensures r.Ok? ==> lobby.lobbyId in queueService.queues && queueService.queues[lobby.lobbyId] == r.value
    {
      hide SeatAll, JoinMissing, PQ.Resized;
      var id := lobby.lobbyId;
      var created := queueService.Create(id, lobby.capacity);
      assert Seen() == QueueThere(old(Seen()), lobby);
      SeatAllOrNot(Seen(), env, lobby);
      var queue := queueService.queues[id];
      if queue.capacity != lobby.capacity {
        var resized := queueService.Resize(id, lobby.capacity);
        if resized.Err? { return Err(QueueFailed(resized.error)); }
        queue := resized.value.0;
        SeatAllKeepsQueues(Seen(), env, lobby, resized.value.1);
        var failed := SeatPromoted(env, lobby, resized.value.1);
        if failed.Some? { return Err(failed.value); }
      }
      var joined := JoinUnknown(lobby, queue);
      r := if joined.Err? then Err(QueueFailed(joined.error)) else Ok(joined.value);
    }

    // ---- Creating and joining -----------------------------------------------------------

    /** handle_create_lobby_submission. */
    method HandleCreateLobbySubmission(env: Env, userId: int, capacity: int, metadata: Metadata, name: string, minutes: int) returns (r: Answer)
      requires Of(env) && Ordered(repository.Contents())
      modifies repository, queueService
      ensures (Seen(), r) == CreateLobby(old(Seen()), env, userId, capacity, metadata, name, minutes)
    {
      hide Exec, After, LobbyOf, EnsureQueue, Swept, Booked, Ordered;
      if !GoodSize(capacity) { return Err(Refused); }
      var failed := Sweep(env, Some(env.guildId));
      if failed.Some? { return Err(failed.value); }
      ghost var swept := Seen();
      if Booked(Seen(), env.guildId, userId, None) { return Err(Refused); }
      var op := Discord(env.interaction, "create", 0);
      DoTells(Seen(), Create(env.guildId, userId, capacity, Some(env.now + minutes), None, op, NO_DELIVERY, metadata, name), env);
      var created := repository.CreateLobby(env.guildId, userId, capacity, Some(env.now + minutes), None, op, NO_DELIVERY, metadata, name, env.now);
      if created.Err? { return Told(created); }
      ghost var seat := Command.SaveParticipant(env.guildId, created.value.lobbyId,
        Seat(userId, PreferencesOf(Seen(), env.guildId, userId), env.now), Discord(env.interaction, "organizer", 0));
      SweptOrdered(old(Seen()), env, Some(env.guildId));
      CommandKeepsOrder(swept.store, Create(env.guildId, userId, capacity, Some(env.now + minutes), None, op, NO_DELIVERY, metadata, name), env.naming, env.now);
      SavedSize(Seen(), seat, env);
      r := SaveSeat(env, created.value.lobbyId, userId, PreferencesOf(Seen(), env.guildId, userId), Discord(env.interaction, "organizer", 0));
      if r.Err? { return; }
      var queue := EnsurePartyQueue(env, r.value);
      if queue.Err? { r := Err(queue.error); }
    }

    /** join_lobby_from_preferences. */
    method JoinLobbyFromPreferences(env: Env, lobbyId: string, userId: int, profile: Preferences) returns (r: Answer)
      requires Of(env) && Ordered(repository.Contents())
      modifies this, repository, queueService
      ensures (Seen(), r) == JoinLobby(old(Seen()), env, lobbyId, userId, profile)
    {
      hide Exec, EnsureQueue, Swept, Booked, Ordered, Save, PartyLobby.Touched, StartWhenFull, PQ.Joined;
      var lobby := Find(repository.Contents(), env.guildId, lobbyId);
      if lobby.None? { return Err(NotHere); }
      FoundIsValid(repository.Contents(), env.guildId, lobbyId);
      var failed := Sweep(env, Some(env.guildId));
      if failed.Some? { return Err(failed.value); }
      if Booked(Seen(), env.guildId, userId, Some(lobbyId)) { return Err(Refused); }
      preferences := preferences[(env.guildId, userId) := profile];
      var ensured := EnsurePartyQueue(env, lobby.value);
      if ensured.Err? { return Err(ensured.error); }
      var joined := queueService.Join(lobbyId, userId, RoleList(profile));
      if joined.Err? { return Err(QueueFailed(joined.error)); }
      var (queue, destination) := joined.value;
      r := Ok(lobby.value);
      if destination != PQ.ToWaitlist {
        r := SaveSeat(env, lobbyId, userId, profile, Discord(env.interaction, "join", 0));
        if r.Err? { return; }
      }
      r := TouchRecruitingActivity(env, r.value);
      if r.Err? { return; }
      r := StartCheckWhenFull(env, lobbyId, queue, r.value);
    }

    method StartCheckWhenFull(env: Env, lobbyId: string, queue: PQ.Queue, lobby: Lobby) returns (r: Answer)
      requires Of(env) && lobbyId in queueService.queues && queueService.queues[lobbyId] == queue
      modifies repository, queueService
      ensures (Seen(), r) == StartWhenFull(old(Seen()), env, lobbyId, queue, lobby)
    {
      hide Move, PQ.ReadyCheckStarted;
      if |queue.active| != queue.capacity || queue.status != PQ.Open { return Ok(lobby); }
      var started := queueService.StartReadyCheck(lobbyId, env.now);
      if started.Err? { return Err(QueueFailed(started.error)); }
      r := Ok(lobby);
      if lobby.state == Open {
        r := MoveTo(env, lobby.lobbyId, Full, "full");
        if r.Err? { return; }
      }
      if r.value.state == Full { r := MoveTo(env, lobby.lobbyId, PartyStore.ReadyCheck, "ready-check"); }
    }

    // ---- Leaving --------------------------------------------------------------------------

    /** _apply_organizer_succession. */
    method ApplyOrganizerSuccession(env: Env, lobby: Lobby, departed: int) returns (r: Answer)
      requires Of(env)
      modifies repository
      ensures (Seen(), r) == Succession(old(Seen()), env, lobby, departed)
    {
      hide Do, Move;
      if lobby.organizerId != departed || IsTerminal(lobby.state) { return Ok(lobby); }
      if lobby.participants != [] {
        var heir := lobby.participants[MinIndex(lobby.participants, JoinedKey)];
        r := TransferTo(env, lobby.lobbyId, heir.userId, "auto-transfer", departed);
      } else {
        r := MoveTo(env, lobby.lobbyId, Cancelled, "auto-cancel-empty");
      }
    }

    method SeatAfterDeparture(env: Env, lobbyId: string, userId: int, promoted: Option<int>, off: string, on: string) returns (r: Answer)
      requires Of(env)
      modifies repository
      ensures (Seen(), r) == FollowDeparture(old(Seen()), env, lobbyId, userId, promoted, off, on)
    {
      hide Do, Save;
      r := TakeOff(env, lobbyId, userId, off);
      if r.Ok? && promoted.Some? {
        r := SaveSeat(env, lobbyId, promoted.value, PreferencesOf(Seen(), env.guildId, promoted.value),
                      Discord(env.interaction, on, promoted.value));
      }
    }

    /** _process_leave. */
    method ProcessLeave(env: Env, lobbyId: string, userId: int) returns (r: Answer)
      requires Of(env) && Ordered(repository.Contents())
      modifies repository, queueService
      ensures (Seen(), r) == LeaveLobby(old(Seen()), env, lobbyId, userId)
    {
      hide Ordered, EnsureQueue, PQ.Responded, PQ.Left, PQ.Has, FollowDeparture, Succession, PartyLobby.Touched, Move;
      var lobby := Find(repository.Contents(), env.guildId, lobbyId);
      if lobby.None? { return Err(NotHere); }
      FoundIsValid(repository.Contents(), env.guildId, lobbyId);
      var ensured := EnsurePartyQueue(env, lobby.value);
      if ensured.Err? { return Err(ensured.error); }
      var dropping := lobby.value.state == PartyStore.ReadyCheck && PQ.Has(ensured.value.active, userId);
      var left;
      if dropping {
        left := queueService.Respond(lobbyId, userId, PQ.Drop, env.now);
      } else {
        left := queueService.Leave(lobbyId, userId);
      }
      if left.Err? { return Err(QueueFailed(left.error)); }
      r := SeatAfterDeparture(env, lobbyId, userId, left.value.1, "leave", "promote");
      if r.Err? { return; }
      if dropping && r.value.state == PartyStore.ReadyCheck {
        r := MoveTo(env, r.value.lobbyId, Open, "reopen");
        if r.Err? { return; }
      }
      r := ApplyOrganizerSuccession(env, r.value, userId);
      if r.Err? { return; }
      r := TouchRecruitingActivity(env, r.value);
    }

    // ---- Ready checks ---------------------------------------------------------------------

    /** handle_ready_check_action. */
    method HandleReadyCheckAction(env: Env, lobbyId: string, userId: int, status: PQ.ReadyStatus) returns (r: Answer)
      requires Of(env)
      modifies repository, queueService
      ensures (Seen(), r) == AnswerReadyCheck(old(Seen()), env, lobbyId, userId, status)
    {
      hide PQ.Responded, EveryoneReady, FollowDeparture, Succession, PartyLobby.Touched, Move;
      var answered := queueService.Respond(lobbyId, userId, status, env.now);
      if answered.Err? { return Err(QueueFailed(answered.error)); }
      var (queue, promoted) := answered.value;
      if status == PQ.Drop {
        r := SeatAfterDeparture(env, lobbyId, userId, promoted, "ready-drop", "ready-promote");
        if r.Err? { return; }
        r := ApplyOrganizerSuccession(env, r.value, userId);
        if r.Err? { return; }
        if r.value.state == PartyStore.ReadyCheck {
          r := MoveTo(env, r.value.lobbyId, Open, "reopen");
          if r.Err? { return; }
        }
        r := TouchRecruitingActivity(env, r.value);
      } else if EveryoneReady(queue) && |queue.active| % 2 == 0 && 2 <= |queue.active| <= 10 {
        var lobby := Find(repository.Contents(), env.guildId, lobbyId);
        if lobby.None? { return Err(NotHere); }
        if lobby.value.state != PartyStore.ReadyCheck { return Ok(lobby.value); }
        r := MoveTo(env, lobbyId, Forming, "forming");
      } else {
        r := Err(NotHere);
      }
    }

    /** expire_ready_checks, once the prompts are sent. */
    method ExpireReadyChecks(env: Env, order: seq<string>) returns (failed: Option<Failure>)
      requires Of(env)
      modifies repository, queueService
      ensures (Seen(), failed) == Tick(old(Seen()), env, order)
    {
      hide Swept, TimeOutOne;
      failed := Sweep(env, None);
      if failed.Some? { return; }
      assert order[0..] == order;
      for i := 0 to |order|
        invariant Tick(old(Seen()), env, order) == TimeOut(Seen(), env, order[i..])
      {
        assert order[i..][1..] == order[i + 1..];
        if order[i] in repository.lobbies && repository.lobbies[order[i]].state == PartyStore.ReadyCheck {
          failed := ExpireReadyCheck(env, repository.lobbies[order[i]]);
          if failed.Some? { return; }
        }
      }
      failed := None;
    }

    method ExpireReadyCheck(env: Env, lobby: Lobby) returns (failed: Option<Failure>)
      requires Of(env)
      modifies repository, queueService
      ensures (Seen(), failed) == TimeOutOne(old(Seen()), env, lobby)
    {
      hide Exec, After, LobbyOf, PQ.Expired;
      var expired := queueService.Expire(lobby.lobbyId, env.now);
      if expired.Err? { return Some(QueueFailed(expired.error)); }
      var (queue, late) := expired.value;
      if late == [] || queue.status != PQ.Cancelled { return None; }
      var op := ReadyTimeout(lobby.lobbyId, queue.deadline);
      DoTells(Seen(), Transition(lobby.guildId, lobby.lobbyId, Cancelled, op, None), env);
      var moved := repository.Transition(lobby.guildId, lobby.lobbyId, Cancelled, op, None, env.now);
      failed := if moved.Err? then Some(StoreFailed(moved.error)) else None;
    }
  }

  lemma FoundIsValid(store: Store, guildId: int, lobbyId: string)
    requires Ordered(store)
    ensures var found := Find(store, guildId, lobbyId); found.Some? ==> found.value.lobbyId == lobbyId && found.value.capacity >= 2
  {
  }

  lemma SweptOrdered(w: World, env: Env, inGuild: Option<int>)
    requires Ordered(w.store)
    ensures Ordered(Swept(w, env, inGuild).0.store)
  {
    hide Ordered, Exec;
    CommandKeepsOrder(w.store, ExpireDue(inGuild, env.rows), env.naming, env.now);
  }

  lemma SavedSize(w: World, c: Command, env: Env)
    requires c.SaveParticipant? && Ordered(w.store)
    ensures Do(w, c, env).1.Ok? ==> Do(w, c, env).1.value.capacity >= 2
  {
    FoundIsValid(w.store, c.guildId, c.lobbyId);
    hide Ordered, Recorded, Commit, Saved;
  }

  lemma RefusedIsCancelled(q: PQ.Queue, userId: int, roles: seq<string>)
    ensures PQ.Joined(q, userId, roles).Err? <==> q.status == PQ.Cancelled
    ensures PQ.Joined(q, userId, roles).Ok? ==> PQ.Joined(q, userId, roles).value.0.status == q.status
  {
  }
}
