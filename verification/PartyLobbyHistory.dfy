/** Runs of the lobby handlers from the empty store, and the ready check that
    runs out with nobody late. */
module PartyLobbyHistory {
  import opened Common
  import opened PartyStore
  import opened PartyStoreInvariant
  import opened PartyLobby
  import opened PartyLobbySteps
  import opened PartyLobbyRoster
  import opened PartyLobbyCalls
  import opened PartyLobbyEntry
  import opened PartyLobbyRuns
  import opened PartyLobbyTheorems
  import PQ = PartyQueue
  import PQI = PartyQueueInvariant

  datatype Action =
    | Creates(userId: int, size: int, about: Metadata, name: string, minutes: int)
    | Joins(lobbyId: string, userId: int, profile: Preferences)
    | Leaves(lobbyId: string, userId: int)
    | Answers(lobbyId: string, userId: int, status: PQ.ReadyStatus)
    | Edits(lobbyId: string, userId: int, about: Metadata, size: int)
    | Starts(lobbyId: string, userId: int)
    | Cancels(lobbyId: string, userId: int)
    | HandsOver(lobbyId: string, userId: int, heir: int)
    | TimePasses(order: seq<string>)

  datatype Call = Call(env: Env, action: Action)

  const EMPTY_WORLD := World(EMPTY_STORE, map[], map[])

  /** One call to its end, or to the exception that stopped it. */
  function Handle(w: World, env: Env, a: Action): World {
    match a
    case Creates(userId, size, about, name, minutes) => CreateLobby(w, env, userId, size, about, name, minutes).0
    case Joins(id, userId, profile) => JoinLobby(w, env, id, userId, profile).0
    case Leaves(id, userId) => LeaveLobby(w, env, id, userId).0
    case Answers(id, userId, status) => AnswerReadyCheck(w, env, id, userId, status).0
    case Edits(id, userId, about, size) => EditLobby(w, env, id, userId, about, size).0
    case Starts(id, userId) => StartReadyCheck(w, env, id, userId).0
    case Cancels(id, userId) => CancelLobby(w, env, id, userId).0
    case HandsOver(id, userId, heir) => TransferLobby(w, env, id, userId, heir).0
    case TimePasses(order) => Tick(w, env, order).0
  }

  function Play(calls: seq<Call>): World {
    if calls == [] then EMPTY_WORLD
    else
      var last := calls[|calls| - 1];
      Handle(Play(calls[..|calls| - 1]), last.env, last.action)
  }

  /** What Discord and the bot's configuration give: an interaction ID not seen
      before, a ready-check card in its own guild, cancellation on timeout. */
  ghost predicate MayCall(w: World, env: Env, a: Action) {
    && OnlySteps(w.store.audit, env.interaction, {})
    && (a.Answers? ==> InItsGuild(w, env, a.lobbyId))
    && (a.TimePasses? ==> env.config.cancelOnTimeout)
  }

  ghost predicate GoodRun(calls: seq<Call>) {
    calls == [] ||
    (GoodRun(calls[..|calls| - 1])
     && MayCall(Play(calls[..|calls| - 1]), calls[|calls| - 1].env, calls[|calls| - 1].action))
  }

  /** What holds between calls. */
  ghost predicate Agreed(w: World) {
    Ordered(w.store) && OperationsPast(w.store) && QueuesSound(w) && AllSettled(w) && Solo(w)
  }

  lemma AgreedIsOk(w: World, interaction: int)
    requires Agreed(w) && OnlySteps(w.store.audit, interaction, {})
    ensures WorldOk(w, interaction, {}) && Solo(w)
  {
    hide Ordered, OperationsPast, QueuesSound, AllSettled, Solo;
  }

  lemma OkIsAgreed(w: World, interaction: int, done: set<string>)
    requires WorldOk(w, interaction, done) && Solo(w)
    ensures Agreed(w)
  {
    hide Ordered, OperationsPast, QueuesSound, AllSettled, Solo;
  }

  lemma KeptIsAgreed(w: World, v: World, id: string, interaction: int)
    requires Solo(w) && Kept(w, v, id, interaction, None)
    ensures Agreed(v)
  {
    hide WorldOk, Solo, Kept;
    KeptSolo(w, v, id, interaction, None);
    KeptWorld(w, v, id, interaction, None);
    OkIsAgreed(v, interaction, STEPS);
  }

  lemma CallKeeps(w: World, env: Env, a: Action)
    requires Agreed(w) && MayCall(w, env, a)
    ensures Agreed(Handle(w, env, a))
  {
    hide WorldOk, Solo, Agreed, OnlySteps, STEPS, CreateLobby, JoinLobby, LeaveLobby, AnswerReadyCheck, EditLobby, StartReadyCheck, CancelLobby, TransferLobby, Tick;
    AgreedIsOk(w, env.interaction);
    var v := Handle(w, env, a);
    match a {
      case Creates(userId, size, about, name, minutes) =>
        CreateKeepsWorld(w, env, userId, size, about, name, minutes);
        OkIsAgreed(v, env.interaction, STEPS);
      case Joins(id, userId, profile) =>
        JoinKeepsWorld(w, env, id, userId, profile);
        OkIsAgreed(v, env.interaction, STEPS);
      case Leaves(id, userId) => LeaveKeeps(w, env, id, userId); KeptIsAgreed(w, v, id, env.interaction);
      case Answers(id, userId, status) => AnswerReadyKeeps(w, env, id, userId, status); KeptIsAgreed(w, v, id, env.interaction);
      case Edits(id, userId, about, size) => EditKeeps(w, env, id, userId, about, size); KeptIsAgreed(w, v, id, env.interaction);
      case Starts(id, userId) => StartKeeps(w, env, id, userId); KeptIsAgreed(w, v, id, env.interaction);
      case Cancels(id, userId) => CancelKeeps(w, env, id, userId); KeptIsAgreed(w, v, id, env.interaction);
      case HandsOver(id, userId, heir) => TransferKeeps(w, env, id, userId, heir); KeptIsAgreed(w, v, id, env.interaction);
      case TimePasses(order) =>
        TickKeeps(w, env, order);
        OkIsAgreed(v, env.interaction, STEPS);
    }
  }

  lemma {:induction false} RunsAgree(calls: seq<Call>)
    requires GoodRun(calls)
    ensures Agreed(Play(calls))
  {
    hide Agreed, MayCall, Handle;
    if calls == [] {
      EmptyAgrees();
    } else {
      var before := calls[..|calls| - 1];
      RunsAgree(before);
      CallKeeps(Play(before), calls[|calls| - 1].env, calls[|calls| - 1].action);
    }
  }

  lemma EmptyAgrees()
    ensures Agreed(EMPTY_WORLD)
  {
  }

  /** In every run, the roster of a live lobby is its queue's active list, within
      both capacities, and its organizer is on it. */
  lemma RostersFollowQueues(calls: seq<Call>, id: string)
    requires GoodRun(calls) && Live(Play(calls), id)
    ensures var w := Play(calls);
            && id in w.queues && PQ.Sound(w.queues[id])
            && (forall u :: HasParticipant(w.store.lobbies[id], u) <==> PQ.Has(w.queues[id].active, u))
            && |w.store.lobbies[id].participants| == |w.queues[id].active| <= w.store.lobbies[id].capacity
            && HasParticipant(w.store.lobbies[id], w.store.lobbies[id].organizerId)
  {
    RunsAgree(calls);
    hide Play, GoodRun, PQ.Sound, Ordered, OperationsPast, Solo, PQ.Has;
    var w := Play(calls);
    assert Settled(w, id);
    ValidInStore(w.store, id);
    RosterSize(w.store.lobbies[id], w.queues[id]);
  }

  lemma ValidInStore(store: Store, id: string)
    requires Ordered(store) && id in store.lobbies
    ensures ValidLobby(store.lobbies[id])
  {
  }

  /** In every run no player is on the roster, in the line or on the waitlist of
      two live lobbies of one guild. */
  lemma NobodyIsBookedTwice(calls: seq<Call>, a: string, b: string, u: int)
    requires GoodRun(calls) && Neighbours(Play(calls), a, b)
    ensures var w := Play(calls); !(BelongsTo(w, a, u) && BelongsTo(w, b, u))
  {
    RunsAgree(calls);
    hide Play, GoodRun;
    var w := Play(calls);
    assert Settled(w, a) && Settled(w, b);
    OnRosterInQueue(w, a, u);
    OnRosterInQueue(w, b, u);
    hide PQ.Has, PQ.Sound, Ordered, OperationsPast, QueuesSound, AllSettled, Settled;
    if InQueue(w, a, u) { assert !InQueue(w, b, u); }
  }

  lemma OnRosterInQueue(w: World, id: string, u: int)
    requires id in w.store.lobbies && Settled(w, id) && !IsTerminal(w.store.lobbies[id].state)
    ensures BelongsTo(w, id, u) ==> InQueue(w, id, u)
  {
    var q := w.queues[id];
    assert HasParticipant(w.store.lobbies[id], u) <==> PQ.Has(q.active, u);
    HasSubset(q.active, PQ.Everyone(q));
  }

  // ---- A ready check nobody is late for ---------------------------------------------------

  /** A ready check past its deadline always cancels the queue; it closes the lobby
      too exactly when somebody has not answered Ready. */
  lemma TimeoutClosesWhenSomebodyIsLate(w: World, env: Env, id: string)
    requires WorldOk(w, env.interaction, {}) && env.config.cancelOnTimeout && Overdue(w, id, env.now)
    ensures var v := TimeOutOne(w, env, w.store.lobbies[id]).0;
            && id in v.queues && v.queues[id].status == PQ.Cancelled && v.queues[id].active == w.queues[id].active && id in v.store.lobbies
            && (v.store.lobbies[id].state == Cancelled <==> !AllAnsweredReady(w.queues[id]))
            && (AllAnsweredReady(w.queues[id]) ==> v.store == w.store)
  {
    hide WorldOk, Do, OnlyAt, PQ.Sound, PQ.NotReady;
    ValidDead(w, id, env.interaction, {});
    KnownQueue(w, id, env.interaction, {});
    NobodyIsLate(w.queues[id], w.queues[id].active);
    var (q, late) := PQ.Expired(w.queues[id], env.now, env.config);
    PQI.ExpireKeeps(w.queues[id], env.now, env.config);
    SameActive(w, id, q, env.interaction, {});
    if late != [] {
      var m := WithQueue(w, id, q);
      ChecksTimeOut(m, env, id, q.deadline);
    }
  }

  /** A live lobby left behind in READY_CHECK by its cancelled queue. */
  ghost predicate Stranded(w: World, id: string, guildId: int) {
    && Live(w, id) && w.store.lobbies[id].state == ReadyCheck && w.store.lobbies[id].guildId == guildId
    && id in w.queues && w.queues[id].status == PQ.Cancelled && w.queues[id].capacity == w.store.lobbies[id].capacity
  }

  /** Nobody can then leave, answer, or join as a new player. */
  lemma StrandedLobbyIsStuck(w: World, env: Env, id: string, u: int, status: PQ.ReadyStatus, profile: Preferences)
    requires WorldOk(w, env.interaction, {}) && Stranded(w, id, env.guildId)
    ensures HasParticipant(w.store.lobbies[id], u) ==> LeaveLobby(w, env, id, u) == (w, Err(QueueFailed(PQ.NotReadyChecking)))
    ensures AnswerReadyCheck(w, env, id, u, status) == (w, Err(QueueFailed(PQ.NotReadyChecking)))
    ensures JoinLobby(w, env, id, u, profile).1.Err?
  {
    hide WorldOk, Do, PQ.Sound, StoreOk, Swept, Booked, JoinMissing, Resize;
    ValidDead(w, id, env.interaction, {});
    PastOf(w, id, env.interaction, {});
    assert Settled(w, id);
    EnsureIsIdle(w, env, id);
    StrandedJoin(w, env, id, u, profile);
  }

  /** The lobby read before the sweep is in READY_CHECK, so the sweep spares it. */
  lemma StrandedJoin(w: World, env: Env, id: string, u: int, profile: Preferences)
    requires WorldOk(w, env.interaction, {}) && Stranded(w, id, env.guildId)
    ensures JoinLobby(w, env, id, u, profile).1.Err?
  {
    hide WorldOk, Do, PQ.Sound, Swept, Booked, SweptFrom, EnsureQueue;
    ValidDead(w, id, env.interaction, {});
    SweptKeeps(w, env, Some(env.guildId), {});
    var (s, failed) := Swept(w, env, Some(env.guildId));
    if failed.None? && !Booked(s, env.guildId, u, Some(id)) {
      SparedByTheSweep(w, s, id);
      var told := s.(preferences := s.preferences[(env.guildId, u) := profile]);
      PreferencesKeep(s, told.preferences, env.interaction, {});
      EnsureIsIdle(told, env, id);
    }
  }

  lemma SparedByTheSweep(w: World, s: World, id: string)
    requires SweptFrom(w.store, s.store) && id in w.store.lobbies && w.store.lobbies[id].state == ReadyCheck
    ensures id in s.store.lobbies && s.store.lobbies[id] == w.store.lobbies[id]
  {
    assert SameOrExpired(w.store.lobbies[id], s.store.lobbies[id]);
  }
}
