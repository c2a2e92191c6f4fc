/** A lobby forms its teams only when every seated player's last response to its
    ready check was Ready. */
module PartyLobbyForming {
  import opened Common
  import opened PartyStore
  import opened PartyStoreInvariant
  import opened PartyStoreTheorems
  import opened PartyLobby
  import opened PartyLobbySteps
  import opened PartyLobbyRoster
  import opened PartyLobbyStages
  import opened PartyLobbyHandlers
  import opened PartyLobbyCalls
  import opened PartyLobbyRuns
  import opened PartyLobbyHistory
  import PQ = PartyQueue
  import PQA = PartyQueueAnswers
  import PQI = PartyQueueInvariant

  // ---- One answer ---------------------------------------------------------------------------

  /** Everybody seated but this player has answered Ready. */
  ghost predicate OthersReady(q: PQ.Queue, userId: int) {
    forall m :: m in q.active && m.userId != userId ==> PQA.AnswerOf(q, m.userId) == Some(PQ.Ready)
  }

  /** A response brings a lobby from READY_CHECK to FORMING exactly when it is an
      accepted Ready, everybody else seated is ready, and they are two to ten and
      even in number. */
  lemma FormsWhen(w: World, env: Env, id: string, userId: int, status: PQ.ReadyStatus)
    requires WorldOk(w, env.interaction, {}) && Live(w, id) && w.store.lobbies[id].guildId == env.guildId
    requires w.store.lobbies[id].state == ReadyCheck && status != PQ.Drop
    ensures var v := AnswerReadyCheck(w, env, id, userId, status).0;
            && id in w.queues && id in v.store.lobbies
            && (v.store.lobbies[id].state == Forming <==>
                  && PQA.Refusal(w.queues[id], userId, status, env.now, env.config).None? && status == PQ.Ready && OthersReady(w.queues[id], userId)
                  && |w.queues[id].active| % 2 == 0 && 2 <= |w.queues[id].active| <= 10)
            && (v.store.lobbies[id].state != Forming ==> v.store.lobbies[id].state == ReadyCheck)
  {
    hide WorldOk, Move, PQ.Responded, PQA.Refusal, EveryoneReady, PQ.Has, FollowDeparture, AfterDrop, LiveAt, OthersOk, SameRoster, StageDone, MovedTo;
    LiveThere(w, env, id, {});
    LiveIs(w, env, id);
    var q := w.queues[id];
    PQA.RespondsWhen(q, userId, status, env.now, env.config);
    if PQ.Responded(q, userId, status, env.now, env.config).Ok? {
      PQA.AnswerRecords(q, userId, status, env.now, env.config);
      PQI.AnswerKeeps(q, userId, status, env.now, env.config);
      var p := PQ.Responded(q, userId, status, env.now, env.config).value.0;
      AllReadyWhen(q, p, userId, status, env.now, env.config);
      QueueReplaced(w, env, id, p, {});
      var m := WithQueue(w, id, p);
      Moves(m, env, id, Forming, "forming", {});
      var (v, r) := Move(m, env, id, Forming, "forming");
      StageIs(m, v, r, id, env.interaction, {} + {"forming"});
      MovedState(w.store.lobbies[id], r.value, Forming);
    }
  }

  lemma MovedState(lobby: Lobby, after: Lobby, target: LobbyState)
    requires MovedTo(lobby, after, target)
    ensures after.state == target
  {
  }

  lemma AllReadyWhen(q: PQ.Queue, p: PQ.Queue, userId: int, status: PQ.ReadyStatus, now: int, c: PQ.Config)
    requires PQ.Responded(q, userId, status, now, c).Ok? && status != PQ.Drop && p == PQ.Responded(q, userId, status, now, c).value.0
    ensures EveryoneReady(p) <==> status == PQ.Ready && OthersReady(q, userId)
  {
    PQA.AnswerRecords(q, userId, status, now, c);
    PQI.HasMember(q.active, userId);
    var m :| m in q.active && m.userId == userId;
    hide PQ.Responded, PQ.Has;
    assert PQA.AnswerOf(p, userId) == Some(status);
    if EveryoneReady(p) {
      forall n | n in q.active && n.userId != userId ensures PQA.AnswerOf(q, n.userId) == Some(PQ.Ready) {
        assert PQA.AnswerOf(p, n.userId) == Some(PQ.Ready);
      }
    }
    if status == PQ.Ready && OthersReady(q, userId) {
      forall n | n in p.active ensures n.userId in p.ready && p.ready[n.userId] == PQ.Ready {
        assert PQA.AnswerOf(p, n.userId) == Some(PQ.Ready);
      }
    }
  }

  // ---- What other calls do to answers ---------------------------------------------------------

  /** Every answer was there before, and no lobby came to form its teams. */
  ghost predicate Quiet(w: World, v: World) {
    && AnswersWere(w.queues, v.queues)
    && (Ordered(w.store) ==> Ordered(v.store) && FormingWas(w.store, v.store))
  }

  ghost predicate AnswersWere(before: map<string, PQ.Queue>, after: map<string, PQ.Queue>) {
    forall id :: id in after ==> QueueAnswersWere(before, after[id], id)
  }

  ghost predicate QueueAnswersWere(before: map<string, PQ.Queue>, q: PQ.Queue, id: string) {
    forall u :: u in q.ready ==> id in before && PQA.AnswerOf(before[id], u) == PQA.AnswerOf(q, u)
  }

  ghost predicate FormingWas(before: Store, after: Store) {
    forall id :: id in after.lobbies && after.lobbies[id].state == Forming ==> id in before.lobbies && before.lobbies[id].state == Forming
  }

  lemma QuietSelf(w: World)
    ensures Quiet(w, w)
  {
  }

  lemma QuietThen(w: World, v: World, u: World)
    requires Quiet(w, v) && Quiet(v, u)
    ensures Quiet(w, u)
  {
    hide Ordered;
    forall id | id in u.queues ensures QueueAnswersWere(w.queues, u.queues[id], id) {
      assert QueueAnswersWere(v.queues, u.queues[id], id);
      if id in v.queues { assert QueueAnswersWere(w.queues, v.queues[id], id); }
    }
  }

  lemma QuietQueue(w: World, id: string, q: PQ.Queue)
    requires QueueAnswersWere(w.queues, q, id)
    ensures Quiet(w, WithQueue(w, id, q))
  {
    hide Ordered;
    var v := WithQueue(w, id, q);
    forall k | k in v.queues ensures QueueAnswersWere(w.queues, v.queues[k], k) { }
  }

  /** A command that is not the transition to FORMING. */
  predicate NotToForming(c: Command) { c.Transition? ==> c.target != Forming }

  lemma DoQuiet(w: World, c: Command, env: Env)
    requires AboutOneLobby(c) && NotToForming(c)
    ensures Quiet(w, Do(w, c, env).0)
  {
    DoIs(w, c, env);
    hide Do;
    var next := After(w.store, c, env.naming, env.now);
    if Ordered(w.store) {
      CommandKeepsOrder(w.store, c, env.naming, env.now);
      if c.Create? { CreateIsCreation(w.store, c, env.naming, env.now); } else { ChangeIsCommit(w.store, c, env.naming, env.now); }
      hide Ordered, After;
      if next != w.store {
        if c.Create? { CreationForms(w.store, next, c, env.naming, env.now); } else { CommitForms(w.store, next, c, env.now); }
      }
    }
  }

  lemma DoIs(w: World, c: Command, env: Env)
    requires AboutOneLobby(c)
    ensures Do(w, c, env).0 == w.(store := After(w.store, c, env.naming, env.now))
  {
    hide Exec;
  }

  lemma CommitForms(store: Store, next: Store, c: Command, now: int)
    requires !c.Create? && !c.ExpireDue? && NotToForming(c) && IsCommit(store, next, c, now)
    ensures FormingWas(store, next)
  {
    var lobby := store.lobbies[c.lobbyId];
    EditStates(lobby, c, now);
    hide Edited;
  }

  lemma EditStates(lobby: Lobby, c: Command, now: int)
    requires !c.Create? && !c.ExpireDue? && NotToForming(c) && Edited(lobby, c, now).Ok? && Edited(lobby, c, now).value.Some?
    ensures Edited(lobby, c, now).value.value.0.state == Forming ==> lobby.state == Forming
  {
  }

  lemma CreationForms(store: Store, next: Store, c: Command, naming: Naming, now: int)
    requires c.Create? && IsCreation(store, next, c, naming, now)
    ensures FormingWas(store, next)
  {
    var code :| next == Commit(store, NewLobby(c, NewId(c, naming), code, now), c.op, CreateMark(c.guildId, NewId(c, naming)), Created, None, now);
  }

  lemma SweptQuiet(w: World, env: Env, inGuild: Option<int>)
    ensures Quiet(w, Swept(w, env, inGuild).0)
  {
    hide ExpireRows;
    if ExpireRows(w.store, env.rows, inGuild, env.now).Ok? && Ordered(w.store) {
      RowsQuiet(w.store, env.rows, inGuild, env.now);
    }
  }

  lemma {:induction false} RowsQuiet(store: Store, rows: seq<string>, inGuild: Option<int>, now: int)
    requires Ordered(store) && ExpireRows(store, rows, inGuild, now).Ok?
    ensures var next := ExpireRows(store, rows, inGuild, now).value.0; Ordered(next) && FormingWas(store, next)
    decreases |rows|
  {
    hide Ordered, ExpireOne;
    if rows != [] {
      if Selected(store, rows[0], inGuild, now) {
        ExpireOneKeeps(store, rows[0], now);
        ExpireOneShape(store, rows[0], now);
        var next := ExpireOne(store, store.lobbies[rows[0]], now).value.0;
        RowsQuiet(next, rows[1..], inGuild, now);
      } else {
        RowsQuiet(store, rows[1..], inGuild, now);
      }
    }
  }

  // ---- The steps of handlers ------------------------------------------------------------------

  lemma MoveQuiet(w: World, env: Env, id: string, target: LobbyState, step: string)
    requires target != Forming
    ensures Quiet(w, Move(w, env, id, target, step).0)
  {
    hide Do;
    DoQuiet(w, Transition(env.guildId, id, target, Discord(env.interaction, step, 0), None), env);
  }

  lemma SaveQuiet(w: World, env: Env, id: string, userId: int, p: Preferences, op: OperationId)
    ensures Quiet(w, Save(w, env, id, userId, p, op).0)
  {
    hide Do;
    DoQuiet(w, SaveParticipant(env.guildId, id, Seat(userId, p, env.now), op), env);
  }

  lemma {:induction false} SeatAllQuiet(w: World, env: Env, lobby: Lobby, promoted: seq<int>)
    ensures Quiet(w, SeatAll(w, env, lobby, promoted).0)
    decreases |promoted|
  {
    hide Save, Quiet;
    QuietSelf(w);
    if promoted != [] {
      var id := promoted[0];
      var op := CapacitySync(lobby.lobbyId, lobby.version, id);
      var p := PreferencesOf(w, lobby.guildId, id);
      SaveQuiet(w, env.(guildId := lobby.guildId), lobby.lobbyId, id, p, op);
      var (next, r) := Save(w, env.(guildId := lobby.guildId), lobby.lobbyId, id, p, op);
      if r.Ok? {
        SeatAllQuiet(next, env, lobby, promoted[1..]);
        QuietThen(w, next, SeatAll(next, env, lobby, promoted[1..]).0);
      }
    }
  }

  lemma {:induction false} JoinMissingAnswers(q: PQ.Queue, participants: seq<Participant>, known: PQ.Queue)
    ensures JoinMissing(q, participants, known).Ok? ==> JoinMissing(q, participants, known).value.ready == q.ready
    decreases |participants|
  {
    hide PQ.Has;
    if participants != [] {
      var p := participants[0];
      if PQ.Has(PQ.Everyone(known), p.userId) {
        JoinMissingAnswers(q, participants[1..], known);
      } else if PQ.Joined(q, p.userId, RolesOf(p)).Ok? {
        JoinMissingAnswers(PQ.Joined(q, p.userId, RolesOf(p)).value.0, participants[1..], known);
      }
    }
  }

  lemma SameAnswers(before: map<string, PQ.Queue>, q: PQ.Queue, id: string)
    requires q.ready == map[] || (id in before && q.ready == before[id].ready)
    ensures QueueAnswersWere(before, q, id)
  {
  }

  lemma ResizeQuiet(w: World, env: Env, lobby: Lobby)
    requires lobby.lobbyId in w.queues
    ensures Quiet(w, Resize(w, env, lobby).0)
  {
    hide Quiet, SeatAll, QueueAnswersWere, PQ.FillSeats;
    QuietSelf(w);
    var id, q := lobby.lobbyId, w.queues[lobby.lobbyId];
    if q.capacity != lobby.capacity && PQ.Resized(q, lobby.capacity).Ok? {
      var (p, promoted) := PQ.Resized(q, lobby.capacity).value;
      PQA.FillKeepsAnswers(q.(capacity := lobby.capacity));
      SameAnswers(w.queues, p, id);
      QuietQueue(w, id, p);
      SeatAllQuiet(WithQueue(w, id, p), env, lobby, promoted);
      QuietThen(w, WithQueue(w, id, p), Resize(w, env, lobby).0);
    }
  }

  lemma EnsureQuiet(w: World, env: Env, lobby: Lobby)
    ensures Quiet(w, EnsureQueue(w, env, lobby).0)
    ensures var (v, r) := EnsureQueue(w, env, lobby); r.Ok? ==> lobby.lobbyId in v.queues && v.queues[lobby.lobbyId] == r.value
  {
    hide Quiet, Resize, JoinMissing, QueueAnswersWere;
    var id, there := lobby.lobbyId, QueueThere(w, lobby);
    QuietSelf(w);
    if id !in w.queues {
      SameAnswers(w.queues, PQ.NewQueue(lobby.capacity), id);
      QuietQueue(w, id, PQ.NewQueue(lobby.capacity));
    }
    ResizeQuiet(there, env, lobby);
    SeatAllOrNot(there, env, lobby);
    var (resized, failed) := Resize(there, env, lobby);
    QuietThen(w, there, resized);
    if failed.None? {
      var q := resized.queues[id];
      JoinMissingAnswers(q, lobby.participants, q);
      if JoinMissing(q, lobby.participants, q).Ok? {
        var all := JoinMissing(q, lobby.participants, q).value;
        SameAnswers(resized.queues, all, id);
        QuietQueue(resized, id, all);
        QuietThen(w, resized, WithQueue(resized, id, all));
      }
    }
  }

  lemma TouchedQuiet(w: World, env: Env, lobby: Lobby)
    ensures Quiet(w, PartyLobby.Touched(w, env, lobby).0)
  {
    hide Do, Quiet;
    QuietSelf(w);
    DoQuiet(w, Touch(env.guildId, lobby.lobbyId, Discord(env.interaction, "touch", 0), 60), env);
  }

  lemma ToReadyCheckQuiet(w: World, env: Env, lobby: Lobby)
    ensures Quiet(w, ToReadyCheck(w, env, lobby).0)
  {
    hide Move, Quiet;
    QuietSelf(w);
    MoveQuiet(w, env, lobby.lobbyId, Full, "full");
    var (full, r) := if lobby.state == Open then Move(w, env, lobby.lobbyId, Full, "full") else (w, Ok(lobby));
    MoveQuiet(full, env, lobby.lobbyId, ReadyCheck, "ready-check");
    QuietThen(w, full, Move(full, env, lobby.lobbyId, ReadyCheck, "ready-check").0);
  }

  lemma StartQuiet(w: World, env: Env, lobbyId: string, q: PQ.Queue, lobby: Lobby)
    ensures Quiet(w, StartWhenFull(w, env, lobbyId, q, lobby).0)
  {
    hide ToReadyCheck, Quiet, QueueAnswersWere;
    QuietSelf(w);
    if |q.active| == q.capacity && q.status == PQ.Open && PQ.ReadyCheckStarted(q, env.now, env.config).Ok? {
      var started := PQ.ReadyCheckStarted(q, env.now, env.config).value;
      SameAnswers(w.queues, started, lobbyId);
      QuietQueue(w, lobbyId, started);
      ToReadyCheckQuiet(WithQueue(w, lobbyId, started), env, lobby);
      QuietThen(w, WithQueue(w, lobbyId, started), ToReadyCheck(WithQueue(w, lobbyId, started), env, lobby).0);
    }
  }

  lemma JoinQueueQuiet(w: World, env: Env, lobby: Lobby, q: PQ.Queue, userId: int, profile: Preferences)
    requires lobby.lobbyId in w.queues && w.queues[lobby.lobbyId] == q
    ensures Quiet(w, JoinQueue(w, env, lobby, q, userId, profile).0)
  {
    hide Quiet, Save, PartyLobby.Touched, StartWhenFull, QueueAnswersWere, PQ.Has;
    QuietSelf(w);
    if PQ.Joined(q, userId, RoleList(profile)).Ok? {
      var (joined, to) := PQ.Joined(q, userId, RoleList(profile)).value;
      SameAnswers(w.queues, joined, lobby.lobbyId);
      QuietQueue(w, lobby.lobbyId, joined);
      var m := WithQueue(w, lobby.lobbyId, joined);
      var op := Discord(env.interaction, "join", 0);
      SaveQuiet(m, env, lobby.lobbyId, userId, profile, op);
      QuietSelf(m);
      var (saved, r) := if to == PQ.ToWaitlist then (m, Ok(lobby)) else Save(m, env, lobby.lobbyId, userId, profile, op);
      QuietThen(w, m, saved);
      if r.Ok? {
        TouchedQuiet(saved, env, r.value);
        var (touched, t) := PartyLobby.Touched(saved, env, r.value);
        QuietThen(w, saved, touched);
        if t.Ok? {
          StartQuiet(touched, env, lobby.lobbyId, joined, t.value);
          QuietThen(w, touched, StartWhenFull(touched, env, lobby.lobbyId, joined, t.value).0);
        }
      }
    }
  }

  lemma SuccessionQuiet(w: World, env: Env, lobby: Lobby, departed: int)
    ensures Quiet(w, Succession(w, env, lobby, departed).0)
  {
    hide Do, Move, Quiet;
    QuietSelf(w);
    if lobby.organizerId == departed && !IsTerminal(lobby.state) {
      if lobby.participants != [] {
        var heir := lobby.participants[MinIndex(lobby.participants, JoinedKey)].userId;
        DoQuiet(w, TransferOrganizer(env.guildId, lobby.lobbyId, heir, Discord(env.interaction, "auto-transfer", 0), departed), env);
      } else {
        MoveQuiet(w, env, lobby.lobbyId, Cancelled, "auto-cancel-empty");
      }
    }
  }

  lemma ReopenQuiet(w: World, env: Env, lobby: Lobby)
    ensures Quiet(w, Reopen(w, env, lobby).0)
  {
    hide Move, Quiet;
    QuietSelf(w);
    MoveQuiet(w, env, lobby.lobbyId, Open, "reopen");
  }

  lemma FollowQuiet(w: World, env: Env, id: string, userId: int, promoted: Option<int>, off: string, on: string)
    ensures Quiet(w, FollowDeparture(w, env, id, userId, promoted, off, on).0)
  {
    hide Do, Save, Quiet;
    var c := RemoveParticipant(env.guildId, id, userId, Discord(env.interaction, off, 0));
    DoQuiet(w, c, env);
    var (gone, r) := Do(w, c, env);
    if r.Ok? && promoted.Some? {
      SaveQuiet(gone, env, id, promoted.value, PreferencesOf(gone, env.guildId, promoted.value), Discord(env.interaction, on, promoted.value));
      QuietThen(w, gone, FollowDeparture(w, env, id, userId, promoted, off, on).0);
    }
  }

  lemma AfterLeaveQuiet(w: World, env: Env, lobby: Lobby, userId: int, dropping: bool)
    ensures Quiet(w, AfterLeave(w, env, lobby, userId, dropping).0)
  {
    hide Quiet, Reopen, Succession, PartyLobby.Touched;
    QuietSelf(w);
    ReopenQuiet(w, env, lobby);
    var (a, o) := if dropping then Reopen(w, env, lobby) else (w, Ok(lobby));
    if o.Ok? {
      SuccessionQuiet(a, env, o.value, userId);
      var (b, s) := Succession(a, env, o.value, userId);
      QuietThen(w, a, b);
      if s.Ok? {
        TouchedQuiet(b, env, s.value);
        QuietThen(w, b, PartyLobby.Touched(b, env, s.value).0);
      }
    }
  }

  lemma AfterDropQuiet(w: World, env: Env, lobby: Lobby, userId: int)
    ensures Quiet(w, AfterDrop(w, env, lobby, userId).0)
  {
    hide Quiet, Reopen, Succession, PartyLobby.Touched;
    SuccessionQuiet(w, env, lobby, userId);
    var (a, s) := Succession(w, env, lobby, userId);
    if s.Ok? {
      ReopenQuiet(a, env, s.value);
      var (b, o) := Reopen(a, env, s.value);
      QuietThen(w, a, b);
      if o.Ok? {
        TouchedQuiet(b, env, o.value);
        QuietThen(w, b, PartyLobby.Touched(b, env, o.value).0);
      }
    }
  }

  // ---- The calls --------------------------------------------------------------------------------

  lemma LeaveQuiet(w: World, env: Env, id: string, userId: int)
    requires Ordered(w.store)
    ensures Quiet(w, LeaveLobby(w, env, id, userId).0)
  {
    FoundHere(w, env, id);
    hide Quiet, EnsureQueue, Departed, FollowDeparture, AfterLeave, QueueAnswersWere, Ordered;
    QuietSelf(w);
    var found := Find(w.store, env.guildId, id);
    if found.Some? {
      EnsureQuiet(w, env, found.value);
      var (e, q) := EnsureQueue(w, env, found.value);
      if q.Ok? {
        var dropping := found.value.state == ReadyCheck && PQ.Has(q.value.active, userId);
        if Departed(q.value, userId, dropping, env).Ok? {
          DepartedAnswers(e.queues, q.value, id, userId, dropping, env);
          var (rest, promoted) := Departed(q.value, userId, dropping, env).value;
          QuietQueue(e, id, rest);
          var m := WithQueue(e, id, rest);
          QuietThen(w, e, m);
          FollowQuiet(m, env, id, userId, promoted, "leave", "promote");
          var (f, r) := FollowDeparture(m, env, id, userId, promoted, "leave", "promote");
          QuietThen(w, m, f);
          if r.Ok? {
            AfterLeaveQuiet(f, env, r.value, userId, dropping);
            QuietThen(w, f, AfterLeave(f, env, r.value, userId, dropping).0);
          }
        }
      }
    }
  }

  lemma FoundHere(w: World, env: Env, id: string)
    requires Ordered(w.store)
    ensures Find(w.store, env.guildId, id).Some? ==> Find(w.store, env.guildId, id).value.lobbyId == id
  {
    if id in w.store.lobbies { InOrderThere(w.store, id); }
  }

  lemma DepartedAnswers(queues: map<string, PQ.Queue>, q: PQ.Queue, id: string, userId: int, dropping: bool, env: Env)
    requires id in queues && queues[id] == q && Departed(q, userId, dropping, env).Ok?
    ensures QueueAnswersWere(queues, Departed(q, userId, dropping, env).value.0, id)
  {
    hide PQ.Has, PQ.Remove;
  }

  lemma ReadyFromQuiet(w: World, env: Env, lobby: Lobby, active: nat)
    ensures Quiet(w, ReadyFrom(w, env, lobby, active).0)
  {
    hide Quiet, Move;
    var id := lobby.lobbyId;
    QuietSelf(w);
    MoveQuiet(w, env, id, Full, "full");
    var (full, r) := if lobby.state == Open && active == lobby.capacity then Move(w, env, id, Full, "full") else (w, Ok(lobby));
    MoveQuiet(full, env, id, ReadyCheck, "ready-check");
    QuietThen(w, full, Move(full, env, id, ReadyCheck, "ready-check").0);
  }

  lemma StartCheckQuiet(w: World, env: Env, id: string, userId: int)
    requires Ordered(w.store)
    ensures Quiet(w, StartReadyCheck(w, env, id, userId).0)
  {
    FoundHere(w, env, id);
    hide Quiet, EnsureQueue, ReadyFrom, QueueAnswersWere, Ordered;
    QuietSelf(w);
    var found := Find(w.store, env.guildId, id);
    if found.Some? {
      EnsureQuiet(w, env, found.value);
      var (e, q) := EnsureQueue(w, env, found.value);
      if q.Ok? && PQ.ReadyCheckStarted(q.value, env.now, env.config).Ok? {
        var started := PQ.ReadyCheckStarted(q.value, env.now, env.config).value;
        SameAnswers(e.queues, started, id);
        QuietQueue(e, id, started);
        var m := WithQueue(e, id, started);
        QuietThen(w, e, m);
        ReadyFromQuiet(m, env, found.value, |started.active|);
        QuietThen(w, m, ReadyFrom(m, env, found.value, |started.active|).0);
      }
    }
  }

  lemma CreateQuiet(w: World, env: Env, userId: int, capacity: int, metadata: Metadata, name: string, minutes: int)
    ensures Quiet(w, CreateLobby(w, env, userId, capacity, metadata, name, minutes).0)
  {
    hide Quiet, Swept, Do, Save, EnsureQueue, Booked;
    QuietSelf(w);
    SweptQuiet(w, env, Some(env.guildId));
    var (s, failed) := Swept(w, env, Some(env.guildId));
    var c := Create(env.guildId, userId, capacity, Some(env.now + minutes), None, Discord(env.interaction, "create", 0), NO_DELIVERY, metadata, name);
    DoQuiet(s, c, env);
    var (created, r) := Do(s, c, env);
    QuietThen(w, s, created);
    if r.Ok? {
      var p, op := PreferencesOf(created, env.guildId, userId), Discord(env.interaction, "organizer", 0);
      SaveQuiet(created, env, r.value.lobbyId, userId, p, op);
      var (seated, t) := Save(created, env, r.value.lobbyId, userId, p, op);
      QuietThen(w, created, seated);
      if t.Ok? {
        EnsureQuiet(seated, env, t.value);
        QuietThen(w, seated, EnsureQueue(seated, env, t.value).0);
      }
    }
  }

  lemma JoinQuiet(w: World, env: Env, id: string, userId: int, profile: Preferences)
    ensures Quiet(w, JoinLobby(w, env, id, userId, profile).0)
  {
    hide Quiet, Swept, EnsureQueue, Booked, JoinQueue;
    QuietSelf(w);
    SweptQuiet(w, env, Some(env.guildId));
    var (s, failed) := Swept(w, env, Some(env.guildId));
    var told := s.(preferences := s.preferences[(env.guildId, userId) := profile]);
    PreferencesQuiet(s, told);
    QuietThen(w, s, told);
    var found := Find(w.store, env.guildId, id);
    if found.Some? {
      EnsureQuiet(told, env, found.value);
      var (e, q) := EnsureQueue(told, env, found.value);
      QuietThen(w, told, e);
      if q.Ok? {
        JoinQueueQuiet(e, env, found.value, q.value, userId, profile);
        QuietThen(w, e, JoinQueue(e, env, found.value, q.value, userId, profile).0);
      }
    }
  }

  lemma PreferencesQuiet(w: World, v: World)
    requires v == w.(preferences := v.preferences)
    ensures Quiet(w, v)
  {
  }

  lemma TickQuiet(w: World, env: Env, order: seq<string>)
    ensures Quiet(w, Tick(w, env, order).0)
  {
    hide Quiet, Swept, TimeOut;
    SweptQuiet(w, env, None);
    var s := Swept(w, env, None).0;
    TimeOutQuiet(s, env, order);
    QuietThen(w, s, TimeOut(s, env, order).0);
  }

  lemma {:induction false} TimeOutQuiet(w: World, env: Env, order: seq<string>)
    ensures Quiet(w, TimeOut(w, env, order).0)
    decreases |order|
  {
    hide Quiet, TimeOutOne;
    QuietSelf(w);
    if order != [] {
      if order[0] in w.store.lobbies && w.store.lobbies[order[0]].state == ReadyCheck {
        TimeOutOneQuiet(w, env, w.store.lobbies[order[0]]);
        var next := TimeOutOne(w, env, w.store.lobbies[order[0]]).0;
        TimeOutQuiet(next, env, order[1..]);
        QuietThen(w, next, TimeOut(next, env, order[1..]).0);
      } else {
        TimeOutQuiet(w, env, order[1..]);
      }
    }
  }

  lemma TimeOutOneQuiet(w: World, env: Env, lobby: Lobby)
    ensures Quiet(w, TimeOutOne(w, env, lobby).0)
  {
    hide Quiet, Do, QueueAnswersWere, PQ.Expired;
    QuietSelf(w);
    var id := lobby.lobbyId;
    if id in w.queues {
      ExpiredAnswers(w.queues, id, env.now, env.config);
      var q := PQ.Expired(w.queues[id], env.now, env.config).0;
      QuietQueue(w, id, q);
      var m, c := WithQueue(w, id, q), Transition(lobby.guildId, id, Cancelled, ReadyTimeout(id, q.deadline), None);
      DoQuiet(m, c, env);
      QuietThen(w, m, Do(m, c, env).0);
    }
  }

  lemma ExpiredAnswers(queues: map<string, PQ.Queue>, id: string, now: int, c: PQ.Config)
    requires id in queues
    ensures QueueAnswersWere(queues, PQ.Expired(queues[id], now, c).0, id)
  {
    hide PQ.FillSeats, PQ.RemoveAll, PQ.NotReady;
    var q := queues[id];
    var late := PQ.NotReady(q, q.active);
    PQA.FillKeepsAnswers(q.(active := PQ.RemoveAll(q.active, late), ready := PQ.ForgetReady(q.ready, late)));
  }

  /** Every call but an answer to a ready check. */
  lemma CallQuiet(w: World, env: Env, a: Action)
    requires Ordered(w.store) && !a.Answers?
    ensures Quiet(w, Handle(w, env, a))
  {
    hide Quiet, CreateLobby, JoinLobby, LeaveLobby, StartReadyCheck, Tick, Do, Move, PartyLobby.Touched;
    QuietSelf(w);
    match a
    case Creates(userId, size, about, name, minutes) => CreateQuiet(w, env, userId, size, about, name, minutes);
    case Joins(id, userId, profile) => JoinQuiet(w, env, id, userId, profile);
    case Leaves(id, userId) => LeaveQuiet(w, env, id, userId);
    case Edits(id, userId, about, size) =>
      var c := UpdateMetadata(env.guildId, id, Discord(env.interaction, "edit", 0), userId, about, size);
      DoQuiet(w, c, env);
      var (edited, r) := Do(w, c, env);
      if r.Ok? {
        TouchedQuiet(edited, env, r.value);
        QuietThen(w, edited, PartyLobby.Touched(edited, env, r.value).0);
      }
    case Starts(id, userId) => StartCheckQuiet(w, env, id, userId);
    case Cancels(id, userId) => MoveQuiet(w, env, id, Cancelled, "cancel");
    case HandsOver(id, userId, heir) => DoQuiet(w, TransferOrganizer(env.guildId, id, heir, Discord(env.interaction, "transfer", 0), userId), env);
    case TimePasses(order) => TickQuiet(w, env, order);
  }

  // ---- Answers ----------------------------------------------------------------------------------

  function StoredAnswer(w: World, id: string, u: int): Option<PQ.ReadyStatus> {
    if id in w.queues then PQA.AnswerOf(w.queues[id], u) else None
  }

  /** The call is this player's answer to this lobby's check, and is accepted. */
  predicate Answered(w: World, env: Env, a: Action, id: string, u: int) {
    && a.Answers? && a.lobbyId == id && a.userId == u && id in w.queues
    && PQ.Responded(w.queues[id], u, a.status, env.now, env.config).Ok?
  }

  /** An answer there after a call was given by it, or was there before. */
  ghost predicate AnswerFrom(w: World, env: Env, a: Action, v: World, id: string, u: int) {
    StoredAnswer(v, id, u).Some? ==>
      if Answered(w, env, a, id, u) then a.status != PQ.Drop && StoredAnswer(v, id, u) == Some(a.status)
      else StoredAnswer(v, id, u) == StoredAnswer(w, id, u)
  }

  lemma QuietAnswer(w: World, v: World, env: Env, a: Action, id: string, u: int)
    requires Quiet(w, v) && !Answered(w, env, a, id, u)
    ensures AnswerFrom(w, env, a, v, id, u)
  {
    hide PQ.Responded, Ordered;
    if id in v.queues { assert QueueAnswersWere(w.queues, v.queues[id], id); }
  }

  lemma CallAnswers(w: World, env: Env, a: Action, id: string, u: int)
    requires Ordered(w.store)
    ensures AnswerFrom(w, env, a, Handle(w, env, a), id, u)
  {
    hide Quiet, Handle, AnswerFrom, Ordered, PQ.Responded;
    if !a.Answers? {
      CallQuiet(w, env, a);
      QuietAnswer(w, Handle(w, env, a), env, a, id, u);
    } else {
      HandlesAnswer(w, env, a);
      if a.lobbyId !in w.queues || PQ.Responded(w.queues[a.lobbyId], a.userId, a.status, env.now, env.config).Err? {
        RefusedAnswer(w, env, a.lobbyId, a.userId, a.status);
        QuietSelf(w);
        QuietAnswer(w, w, env, a, id, u);
      } else if a.status == PQ.Drop {
        DropAnswers(w, env, a, id, u);
      } else {
        RecordAnswers(w, env, a, id, u);
      }
    }
  }

  lemma HandlesAnswer(w: World, env: Env, a: Action)
    requires a.Answers?
    ensures Handle(w, env, a) == AnswerReadyCheck(w, env, a.lobbyId, a.userId, a.status).0
  {
    hide AnswerReadyCheck;
  }

  lemma RefusedAnswer(w: World, env: Env, id: string, userId: int, status: PQ.ReadyStatus)
    requires id !in w.queues || PQ.Responded(w.queues[id], userId, status, env.now, env.config).Err?
    ensures AnswerReadyCheck(w, env, id, userId, status).0 == w
  {
    hide PQ.Responded, FollowDeparture, AfterDrop, ToForming;
  }

  /** After a drop nobody's answer is left. */
  lemma DropAnswers(w: World, env: Env, a: Action, id: string, u: int)
    requires Ordered(w.store) && a.Answers? && a.status == PQ.Drop && Answered(w, env, a, a.lobbyId, a.userId)
    ensures AnswerFrom(w, env, a, Handle(w, env, a), id, u)
  {
    hide Quiet, Handle, Ordered, PQ.Responded, AnswerReadyCheck;
    HandlesAnswer(w, env, a);
    var (q, promoted) := PQ.Responded(w.queues[a.lobbyId], a.userId, PQ.Drop, env.now, env.config).value;
    ForgetsAll(w.queues[a.lobbyId], a.userId, env.now, env.config);
    var m := WithQueue(w, a.lobbyId, q);
    var v := Handle(w, env, a);
    AfterTheDrop(w, env, a.lobbyId, a.userId);
    QuietAnswers(m, v, id, u);
  }

  lemma ForgetsAll(q: PQ.Queue, userId: int, now: int, c: PQ.Config)
    requires PQ.Responded(q, userId, PQ.Drop, now, c).Ok?
    ensures PQ.Responded(q, userId, PQ.Drop, now, c).value.0.ready == map[]
  {
    hide PQ.Has, PQ.Remove, PQ.Promote;
  }

  lemma QuietAnswers(w: World, v: World, id: string, u: int)
    requires Quiet(w, v)
    ensures StoredAnswer(v, id, u).Some? ==> StoredAnswer(v, id, u) == StoredAnswer(w, id, u)
  {
    hide Ordered;
    if id in v.queues { assert QueueAnswersWere(w.queues, v.queues[id], id); }
  }

  lemma AfterTheDrop(w: World, env: Env, id: string, userId: int)
    requires id in w.queues && PQ.Responded(w.queues[id], userId, PQ.Drop, env.now, env.config).Ok?
    ensures var q := PQ.Responded(w.queues[id], userId, PQ.Drop, env.now, env.config).value.0;
            Quiet(WithQueue(w, id, q), AnswerReadyCheck(w, env, id, userId, PQ.Drop).0)
  {
    hide Quiet, PQ.Responded, FollowDeparture, AfterDrop, ToForming;
    var (q, promoted) := PQ.Responded(w.queues[id], userId, PQ.Drop, env.now, env.config).value;
    var m := WithQueue(w, id, q);
    FollowQuiet(m, env, id, userId, promoted, "ready-drop", "ready-promote");
    var (f, r) := FollowDeparture(m, env, id, userId, promoted, "ready-drop", "ready-promote");
    if r.Ok? {
      AfterDropQuiet(f, env, r.value, userId);
      QuietThen(m, f, AfterDrop(f, env, r.value, userId).0);
    }
  }

  /** An accepted Ready or Need5 stores that answer and touches no other. */
  lemma RecordAnswers(w: World, env: Env, a: Action, id: string, u: int)
    requires a.Answers? && a.status != PQ.Drop && Answered(w, env, a, a.lobbyId, a.userId)
    ensures AnswerFrom(w, env, a, Handle(w, env, a), id, u)
  {
    hide Handle, PQ.Responded, AnswerReadyCheck;
    HandlesAnswer(w, env, a);
    OnlyTheQueue(w, env, a.lobbyId, a.userId, a.status);
    PQA.AnswerRecords(w.queues[a.lobbyId], a.userId, a.status, env.now, env.config);
  }

  lemma OnlyTheQueue(w: World, env: Env, id: string, userId: int, status: PQ.ReadyStatus)
    requires id in w.queues && status != PQ.Drop && PQ.Responded(w.queues[id], userId, status, env.now, env.config).Ok?
    ensures var q := PQ.Responded(w.queues[id], userId, status, env.now, env.config).value.0;
            AnswerReadyCheck(w, env, id, userId, status).0.queues == w.queues[id := q]
  {
    hide Exec, PQ.Responded, EveryoneReady, FollowDeparture, AfterDrop;
  }

  // ---- Over a run ---------------------------------------------------------------------------------

  /** The call with this index is the player's last accepted answer, it was Ready,
      and it has been stored ever since. */
  ghost predicate LastIsReady(calls: seq<Call>, k: nat, id: string, u: int)
    requires k < |calls|
  {
    && Answered(Play(calls[..k]), calls[k].env, calls[k].action, id, u) && calls[k].action.status == PQ.Ready
    && (forall j :: k < j < |calls| ==> !Answered(Play(calls[..j]), calls[j].env, calls[j].action, id, u))
    && (forall j :: k < j <= |calls| ==> StoredAnswer(Play(calls[..j]), id, u) == Some(PQ.Ready))
  }

  lemma {:induction false} StoredReadyIsLast(calls: seq<Call>, id: string, u: int)
    requires GoodRun(calls) && StoredAnswer(Play(calls), id, u) == Some(PQ.Ready)
    ensures exists k :: 0 <= k < |calls| && LastIsReady(calls, k, id, u)
    decreases |calls|
  {
    hide Agreed, MayCall, Handle, Answered;
    if calls != [] {
      var n := |calls| - 1;
      var before, last := calls[..n], calls[n];
      assert calls[..|calls|] == calls;
      OrderedAfter(before);
      CallAnswers(Play(before), last.env, last.action, id, u);
      if Answered(Play(before), last.env, last.action, id, u) {
        assert LastIsReady(calls, n, id, u);
      } else {
        StoredReadyIsLast(before, id, u);
        var k :| 0 <= k < n && LastIsReady(before, k, id, u);
        StillLast(calls, k, id, u);
      }
    }
  }

  lemma OrderedAfter(calls: seq<Call>)
    requires GoodRun(calls)
    ensures Ordered(Play(calls).store)
  {
    hide GoodRun, Play, Ordered, OperationsPast, QueuesSound, AllSettled, Solo;
    RunsAgree(calls);
  }

  lemma StillLast(calls: seq<Call>, k: nat, id: string, u: int)
    requires k < |calls| - 1 && LastIsReady(calls[..|calls| - 1], k, id, u) && StoredAnswer(Play(calls), id, u) == Some(PQ.Ready)
    requires !Answered(Play(calls[..|calls| - 1]), calls[|calls| - 1].env, calls[|calls| - 1].action, id, u)
    ensures LastIsReady(calls, k, id, u)
  {
    hide Play, Answered, StoredAnswer;
    var n := |calls| - 1;
    var before := calls[..n];
    assert calls[..|calls|] == calls;
    forall j | 0 <= j <= n ensures before[..j] == calls[..j] { }
    assert before[k] == calls[k];
    forall j | k < j < |calls| ensures !Answered(Play(calls[..j]), calls[j].env, calls[j].action, id, u) {
      if j < n { assert before[..j] == calls[..j] && before[j] == calls[j]; }
    }
    forall j | k < j <= |calls| ensures StoredAnswer(Play(calls[..j]), id, u) == Some(PQ.Ready) {
      if j <= n { assert before[..j] == calls[..j]; }
    }
  }

  /** A lobby that a call brings to FORMING was answered for by that call, and
      everybody in its queue's active list is then ready. */
  lemma FormingNeedsReady(w: World, env: Env, a: Action, id: string)
    requires Ordered(w.store)
    ensures var v := Handle(w, env, a);
            id in v.store.lobbies && v.store.lobbies[id].state == Forming && !(id in w.store.lobbies && w.store.lobbies[id].state == Forming)
            ==> && a.Answers? && a.lobbyId == id && a.status == PQ.Ready && Answered(w, env, a, id, a.userId)
                && id in w.store.lobbies && w.store.lobbies[id].state == ReadyCheck && id in v.queues
                && |v.queues[id].active| % 2 == 0 && 2 <= |v.queues[id].active| <= 10
                && forall m :: m in v.queues[id].active ==> StoredAnswer(v, id, m.userId) == Some(PQ.Ready)
  {
    hide Quiet, Handle, Ordered, PQ.Responded, AnswerReadyCheck;
    var v := Handle(w, env, a);
    if !a.Answers? {
      CallQuiet(w, env, a);
      NoNewForming(w, v, id);
    } else {
      HandlesAnswer(w, env, a);
      if !Answered(w, env, a, a.lobbyId, a.userId) {
        RefusedAnswer(w, env, a.lobbyId, a.userId, a.status);
      } else if a.status == PQ.Drop {
        AfterTheDrop(w, env, a.lobbyId, a.userId);
        NoNewForming(WithQueue(w, a.lobbyId, PQ.Responded(w.queues[a.lobbyId], a.userId, PQ.Drop, env.now, env.config).value.0), v, id);
      } else {
        AnswerForms(w, env, a.lobbyId, a.userId, a.status, id);
      }
    }
  }

  lemma NoNewForming(w: World, v: World, id: string)
    requires Quiet(w, v) && Ordered(w.store)
    ensures id in v.store.lobbies && v.store.lobbies[id].state == Forming ==> id in w.store.lobbies && w.store.lobbies[id].state == Forming
  {
    hide Ordered, AnswersWere;
  }

  lemma AnswerForms(w: World, env: Env, lobbyId: string, userId: int, status: PQ.ReadyStatus, id: string)
    requires Ordered(w.store) && status != PQ.Drop && lobbyId in w.queues
    requires PQ.Responded(w.queues[lobbyId], userId, status, env.now, env.config).Ok?
    ensures var v := AnswerReadyCheck(w, env, lobbyId, userId, status).0;
            id in v.store.lobbies && v.store.lobbies[id].state == Forming && !(id in w.store.lobbies && w.store.lobbies[id].state == Forming)
            ==> && lobbyId == id && status == PQ.Ready
                && id in w.store.lobbies && w.store.lobbies[id].state == ReadyCheck && id in v.queues
                && |v.queues[id].active| % 2 == 0 && 2 <= |v.queues[id].active| <= 10
                && forall m :: m in v.queues[id].active ==> StoredAnswer(v, id, m.userId) == Some(PQ.Ready)
  {
    OnlyTheQueue(w, env, lobbyId, userId, status);
    AllReadyWhen(w.queues[lobbyId], PQ.Responded(w.queues[lobbyId], userId, status, env.now, env.config).value.0, userId, status, env.now, env.config);
    hide PQ.Responded, FollowDeparture, AfterDrop, Ordered, Move, OthersReady;
    var q := PQ.Responded(w.queues[lobbyId], userId, status, env.now, env.config).value.0;
    var m := WithQueue(w, lobbyId, q);
    FoundHere(m, env, lobbyId);
    OnlyItMoves(m, env, lobbyId, id);
  }

  lemma OnlyItMoves(w: World, env: Env, lobbyId: string, id: string)
    requires Ordered(w.store)
    ensures var v := Move(w, env, lobbyId, Forming, "forming").0;
            id != lobbyId && id in v.store.lobbies ==> id in w.store.lobbies && v.store.lobbies[id] == w.store.lobbies[id]
  {
    var c := Transition(env.guildId, lobbyId, Forming, Discord(env.interaction, "forming", 0), None);
    DoIs(w, c, env);
    hide Do, Edited;
    ChangeIsCommit(w.store, c, env.naming, env.now);
    hide After;
    var next := After(w.store, c, env.naming, env.now);
    if next != w.store && id != lobbyId { CommitAtOne(w.store, next, c, env.now, id); }
  }

  lemma CommitAtOne(store: Store, next: Store, c: Command, now: int, id: string)
    requires !c.Create? && !c.ExpireDue? && IsCommit(store, next, c, now) && id != c.lobbyId
    ensures id in next.lobbies ==> id in store.lobbies && next.lobbies[id] == store.lobbies[id]
  {
    hide Edited;
  }

  /** In every run, a lobby goes to FORMING only out of READY_CHECK, by a Ready, when
      every seated player's last accepted answer was Ready and has stood since. */
  lemma FormsOnceEveryoneIsReady(calls: seq<Call>, id: string, u: int)
    requires calls != [] && GoodRun(calls)
    requires id in Play(calls).store.lobbies && Play(calls).store.lobbies[id].state == Forming
    requires var w := Play(calls[..|calls| - 1]); !(id in w.store.lobbies && w.store.lobbies[id].state == Forming)
    ensures var w, v, last := Play(calls[..|calls| - 1]), Play(calls), calls[|calls| - 1].action;
            && id in w.store.lobbies && w.store.lobbies[id].state == ReadyCheck && last.Answers? && last.lobbyId == id && last.status == PQ.Ready
            && |v.store.lobbies[id].participants| % 2 == 0 && 2 <= |v.store.lobbies[id].participants| <= 10
            && (HasParticipant(v.store.lobbies[id], u) ==> exists k :: 0 <= k < |calls| && LastIsReady(calls, k, id, u))
  {
    hide Handle, MayCall, Answered, PQ.Has, Ordered, HasParticipant;
    var n := |calls| - 1;
    OrderedAfter(calls[..n]);
    FormingNeedsReady(Play(calls[..n]), calls[n].env, calls[n].action, id);
    RostersFollowQueues(calls, id);
    if HasParticipant(Play(calls).store.lobbies[id], u) {
      PQI.HasMember(Play(calls).queues[id].active, u);
      StoredReadyIsLast(calls, id, u);
    }
  }
}
