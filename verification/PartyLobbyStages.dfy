/** The stages of the handlers: departures, succession, the bootstrap of a queue. */
module PartyLobbyStages {
  import opened Common
  import opened PartyStore
  import opened PartyStoreInvariant
  import opened PartyLobby
  import opened PartyLobbySteps
  import opened PartyLobbyRoster
  import PQ = PartyQueue

  /** The invariant everywhere but at this lobby, which a handler is changing. */
  ghost predicate OthersOk(w: World, id: string, interaction: int, done: set<string>) {
    && id in w.store.lobbies && StoreOk(w.store, interaction, done) && QueuesSound(w)
    && forall k :: k in w.store.lobbies && k != id ==> Settled(w, k)
  }

  lemma OthersStay(w: World, v: World, id: string, interaction: int, done: set<string>, more: set<string>)
    requires OthersOk(w, id, interaction, done) && OnlyAt(w, v, id) && StoreOk(v.store, interaction, more)
    requires id in v.queues ==> PQ.Sound(v.queues[id])
    ensures OthersOk(v, id, interaction, more)
  {
    hide StoreOk, PQ.Sound;
    forall k | k in v.queues ensures k in v.store.lobbies && PQ.Sound(v.queues[k]) {
      if k != id { OtherQueue(w, v, id, k); }
    }
    forall k | k in v.store.lobbies && k != id ensures Settled(v, k) {
      assert Settled(w, k);
      OtherQueue(w, v, id, k);
    }
  }

  lemma OthersAndThis(w: World, id: string, interaction: int, done: set<string>)
    requires OthersOk(w, id, interaction, done) && Settled(w, id)
    ensures WorldOk(w, interaction, done)
  {
    hide StoreOk, QueuesSound;
    forall k | k in w.store.lobbies ensures Settled(w, k) { }
  }

  lemma OthersOf(w: World, id: string, interaction: int, done: set<string>)
    requires WorldOk(w, interaction, done) && id in w.store.lobbies
    ensures OthersOk(w, id, interaction, done) && Settled(w, id)
  {
  }

  /** A live lobby of the call's guild, with its queue. */
  ghost predicate LiveAt(w: World, env: Env, id: string) {
    && id in w.store.lobbies && id in w.queues && PQ.Sound(w.queues[id])
    && w.store.lobbies[id].lobbyId == id && ValidLobby(w.store.lobbies[id])
    && w.store.lobbies[id].guildId == env.guildId && !IsTerminal(w.store.lobbies[id].state)
  }

  lemma ValidThere(w: World, id: string, interaction: int, done: set<string>)
    requires OthersOk(w, id, interaction, done)
    ensures w.store.lobbies[id].lobbyId == id && ValidLobby(w.store.lobbies[id])
    ensures id in w.queues ==> PQ.Sound(w.queues[id])
  {
    InOrderThere(w.store, id);
  }

  // ---- A departure reaches the roster -----------------------------------------------------

  /** What a stage promises: it succeeds, answers with the lobby as stored, and
      touches this lobby only. */
  ghost predicate StageDone(w: World, v: World, r: Answer, id: string, interaction: int, done: set<string>) {
    && OthersOk(v, id, interaction, done) && OnlyAt(w, v, id) && v == w.(store := v.store)
    && r.Ok? && r.value == v.store.lobbies[id]
  }

  ghost predicate SameOtherwise(lobby: Lobby, after: Lobby) {
    && after.lobbyId == lobby.lobbyId && after.guildId == lobby.guildId && after.organizerId == lobby.organizerId
    && after.state == lobby.state && after.capacity == lobby.capacity && after.version >= lobby.version
  }

  /** The lobby with this player off its roster. */
  ghost predicate Unseated(lobby: Lobby, after: Lobby, userId: int) {
    && SameOtherwise(lobby, after)
    && (forall u :: HasParticipant(after, u) <==> HasParticipant(lobby, u) && u != userId)
    && |after.participants| == |lobby.participants| - (if HasParticipant(lobby, userId) then 1 else 0)
  }

  /** The lobby with this player on its roster. */
  ghost predicate Seated(lobby: Lobby, after: Lobby, userId: int) {
    && SameOtherwise(lobby, after)
    && (forall u :: HasParticipant(after, u) <==> HasParticipant(lobby, u) || u == userId)
    && |after.participants| == |lobby.participants| + (if HasParticipant(lobby, userId) then 0 else 1)
  }

  lemma RemoveMakes(lobby: Lobby, c: Command, now: int) returns (changed: Lobby, kind: EventKind)
    requires c.RemoveParticipant? && ValidLobby(lobby) && !IsTerminal(lobby.state)
    ensures Makes(lobby, c, now, changed, kind) && Unseated(lobby, changed, c.userId)
  {
    RemovedIs(lobby.participants, c.userId);
    changed, kind := Edited(lobby, c, now).value.value.0, Edited(lobby, c, now).value.value.1;
  }

  lemma SaveMakes(lobby: Lobby, c: Command, now: int) returns (changed: Lobby, kind: EventKind)
    requires c.SaveParticipant? && ValidLobby(lobby) && !IsTerminal(lobby.state)
    requires HasParticipant(lobby, c.participant.userId) || |lobby.participants| < lobby.capacity
    ensures Makes(lobby, c, now, changed, kind) && Seated(lobby, changed, c.participant.userId) && changed.version > lobby.version
  {
    SavedIs(lobby.participants, c.participant);
    changed, kind := Edited(lobby, c, now).value.value.0, Edited(lobby, c, now).value.value.1;
  }

  /** Taking the player off the roster. */
  lemma TakesOff(w: World, env: Env, id: string, userId: int, step: string, done: set<string>)
    requires OthersOk(w, id, env.interaction, done) && LiveAt(w, env, id) && step !in done
    ensures var (v, r) := Do(w, RemoveParticipant(env.guildId, id, userId, Discord(env.interaction, step, 0)), env);
            && StageDone(w, v, r, id, env.interaction, done + {step}) && LiveAt(v, env, id)
            && Unseated(w.store.lobbies[id], r.value, userId)
  {
    var c := RemoveParticipant(env.guildId, id, userId, Discord(env.interaction, step, 0));
    StepIsNew(w.store, env.interaction, done, step, 0);
    hide Do, StoreOk, Edited, Makes, Unseated, Used;
    var changed, kind := RemoveMakes(w.store.lobbies[id], c, env.now);
    StageMakes(w, c, env, changed, kind, done, done + {step});
    UnseatedLives(w.store.lobbies[id], changed, userId);
  }

  lemma UnseatedLives(lobby: Lobby, after: Lobby, userId: int)
    requires Unseated(lobby, after, userId)
    ensures SameOtherwise(lobby, after)
  {
  }

  lemma SeatedLives(lobby: Lobby, after: Lobby, userId: int)
    requires Seated(lobby, after, userId)
    ensures SameOtherwise(lobby, after)
  {
  }

  /** Any step that makes a change to the live lobby. */
  lemma StageMakes(w: World, c: Command, env: Env, changed: Lobby, kind: EventKind, done: set<string>, more: set<string>)
    requires AboutOneLobby(c) && !c.Create? && c.guildId == env.guildId && done <= more
    requires OthersOk(w, c.lobbyId, env.interaction, done) && LiveAt(w, env, c.lobbyId)
    requires !IsBlank(c.op) && !Used(w.store, c.op) && Makes(w.store.lobbies[c.lobbyId], c, env.now, changed, kind)
    requires GoodOperation(w.store, c, changed, env.interaction, more)
    ensures var (v, r) := Do(w, c, env);
            && StageDone(w, v, r, c.lobbyId, env.interaction, more) && r == Ok(changed)
            && (!IsTerminal(changed.state) ==> LiveAt(v, env, c.lobbyId))
  {
    hide Do, StoreOk, Edited, Makes, Used, GoodOperation, IsBlank;
    DoMakes(w, c, env, changed, kind, done, more);
    var (v, r) := Do(w, c, env);
    OthersStay(w, v, c.lobbyId, env.interaction, done, more);
    ValidThere(v, c.lobbyId, env.interaction, more);
  }

  /** Putting a player on the roster. */
  lemma PutsOn(w: World, env: Env, id: string, p: Participant, op: OperationId, done: set<string>, more: set<string>)
    requires OthersOk(w, id, env.interaction, done) && LiveAt(w, env, id) && done <= more
    requires !Used(w.store, op)
    requires (op.Discord? && op.interaction == env.interaction && op.step in more)
             || (op.CapacitySync? && op.lobbyId == id && op.version <= w.store.lobbies[id].version)
    requires HasParticipant(w.store.lobbies[id], p.userId) || |w.store.lobbies[id].participants| < w.store.lobbies[id].capacity
    ensures var (v, r) := Do(w, SaveParticipant(env.guildId, id, p, op), env);
            && StageDone(w, v, r, id, env.interaction, more) && LiveAt(v, env, id)
            && Seated(w.store.lobbies[id], r.value, p.userId) && AddsEvent(w, v, op)
  {
    var c := SaveParticipant(env.guildId, id, p, op);
    hide Do, StoreOk, Edited, Makes, Seated, Used;
    var changed, kind := SaveMakes(w.store.lobbies[id], c, env.now);
    StageMakes(w, c, env, changed, kind, done, more);
    SeatedLives(w.store.lobbies[id], changed, p.userId);
    StoreIsOrdered(w.store, env.interaction, done);
    SaveRecords(w, c, env, changed, kind);
  }

  lemma StoreIsOrdered(store: Store, interaction: int, done: set<string>)
    requires StoreOk(store, interaction, done)
    ensures Ordered(store)
  {
  }

  ghost predicate AddsEvent(w: World, v: World, op: OperationId) {
    exists e :: v.store.audit == w.store.audit + [e] && e.operation == op
  }

  lemma SaveRecords(w: World, c: Command, env: Env, changed: Lobby, kind: EventKind)
    requires c.SaveParticipant? && Ordered(w.store) && MayStep(w.store, c)
    requires Makes(w.store.lobbies[c.lobbyId], c, env.now, changed, kind)
    ensures AddsEvent(w, Do(w, c, env).0, c.op)
  {
    StepCommits(w.store, c, env.naming, env.now, changed, kind);
    hide Exec, Edited, Ordered;
    var next := Do(w, c, env).0.store;
    assert next.audit == w.store.audit + [next.audit[|w.store.audit|]];
  }

  /** The roster, led or about to be: the only player who may be missing from it
      is the organizer who departs. */
  ghost predicate FitsBut(w: World, id: string, departed: int) {
    && id in w.store.lobbies && id in w.queues && SameRoster(w.store.lobbies[id], w.queues[id])
    && (Led(w.store.lobbies[id]) || w.store.lobbies[id].organizerId == departed)
  }

  lemma StageThen(w: World, v: World, u: World, r: Answer, s: Answer, id: string, interaction: int, done: set<string>, more: set<string>)
    requires StageDone(w, v, r, id, interaction, done) && StageDone(v, u, s, id, interaction, more)
    ensures StageDone(w, u, s, id, interaction, more)
  {
    hide OthersOk;
    OnlyAtTransitive(w, v, u, id);
  }

  /** The queue has let the player go; the roster follows, and the stage cannot
      fail: the seat of a promoted player is free. */
  lemma Follows(w: World, env: Env, id: string, userId: int, promoted: Option<int>, off: string, on: string, q: PQ.Queue, done: set<string>)
    requires OthersOk(w, id, env.interaction, done) && LiveAt(w, env, id) && off !in done && on !in done && off != on
    requires PQ.Sound(q) && SameRoster(w.store.lobbies[id], q) && Led(w.store.lobbies[id]) && Without(q, w.queues[id], userId, promoted)
    ensures var (v, r) := FollowDeparture(w, env, id, userId, promoted, off, on);
            && StageDone(w, v, r, id, env.interaction, done + {off} + {on}) && LiveAt(v, env, id) && FitsBut(v, id, userId)
            && SameOtherwise(w.store.lobbies[id], r.value)
  {
    hide Do, StoreOk, OthersOk, PQ.Sound, LiveAt, OnlyAt, PQ.Has, HasParticipant, StageDone, Unseated, SameRoster, Seated, SameOtherwise, Led, Without;
    LiveIs(w, env, id);
    var lobby := w.store.lobbies[id];
    RosterSize(lobby, q);
    PromotedLeft(q, w.queues[id], userId, promoted);
    TakesOff(w, env, id, userId, off, done);
    var (gone, r) := Do(w, RemoveParticipant(env.guildId, id, userId, Discord(env.interaction, off, 0)), env);
    StageIs(w, gone, r, id, env.interaction, done + {off});
    if promoted.None? {
      StageMore(w, gone, r, id, env.interaction, done + {off}, on);
      RosterFollows(lobby, r.value, r.value, q, w.queues[id], userId, promoted);
    } else {
      SeatsPromoted(w, gone, env, id, userId, promoted.value, on, q, done + {off});
      var p := Seat(promoted.value, PreferencesOf(gone, env.guildId, promoted.value), env.now);
      var (v, s) := Do(gone, SaveParticipant(env.guildId, id, p, Discord(env.interaction, on, promoted.value)), env);
      StageIs(gone, v, s, id, env.interaction, done + {off} + {on});
      RosterFollows(lobby, r.value, s.value, q, w.queues[id], userId, promoted);
      StageThen(w, gone, v, r, s, id, env.interaction, done + {off}, done + {off} + {on});
    }
  }

  lemma LiveIs(w: World, env: Env, id: string)
    requires LiveAt(w, env, id)
    ensures id in w.store.lobbies && id in w.queues && PQ.Sound(w.queues[id]) && w.store.lobbies[id].lobbyId == id
    ensures ValidLobby(w.store.lobbies[id]) && w.store.lobbies[id].guildId == env.guildId && !IsTerminal(w.store.lobbies[id].state)
  {
  }

  lemma PromotedLeft(q: PQ.Queue, p: PQ.Queue, userId: int, promoted: Option<int>)
    requires Without(q, p, userId, promoted)
    ensures promoted.Some? ==> PQ.Has(q.active, userId)
  {
  }

  lemma StageIs(w: World, v: World, r: Answer, id: string, interaction: int, done: set<string>)
    requires StageDone(w, v, r, id, interaction, done)
    ensures r.Ok? && id in v.store.lobbies && r.value == v.store.lobbies[id] && v.queues == w.queues && OthersOk(v, id, interaction, done)
  {
  }

  lemma SeatsPromoted(w: World, gone: World, env: Env, id: string, userId: int, user: int, on: string, q: PQ.Queue, done: set<string>)
    requires OthersOk(gone, id, env.interaction, done) && LiveAt(gone, env, id) && on !in done && id in w.store.lobbies
    requires Unseated(w.store.lobbies[id], gone.store.lobbies[id], userId) && |w.store.lobbies[id].participants| == |q.active|
    requires SameRoster(w.store.lobbies[id], q) && PQ.Has(q.active, userId)
    ensures var p := Seat(user, PreferencesOf(gone, env.guildId, user), env.now);
            var (v, s) := Do(gone, SaveParticipant(env.guildId, id, p, Discord(env.interaction, on, user)), env);
            && StageDone(gone, v, s, id, env.interaction, done + {on}) && LiveAt(v, env, id)
            && Seated(gone.store.lobbies[id], s.value, user)
  {
    StageStepIsNew(gone, id, env.interaction, done, on, user);
    RoomForPromoted(w.store.lobbies[id], gone.store.lobbies[id], q, userId, user);
    hide Do, StoreOk, OthersOk, LiveAt, OnlyAt, PQ.Has, HasParticipant, Used;
    PutsOn(gone, env, id, Seat(user, PreferencesOf(gone, env.guildId, user), env.now), Discord(env.interaction, on, user), done, done + {on});
  }

  /** The roster after a departure is the active list after it. */
  lemma RosterFollows(lobby: Lobby, gone: Lobby, after: Lobby, q: PQ.Queue, p: PQ.Queue, userId: int, promoted: Option<int>)
    requires SameRoster(lobby, q) && Led(lobby) && Without(q, p, userId, promoted) && Unseated(lobby, gone, userId)
    requires if promoted.Some? then Seated(gone, after, promoted.value) else after == gone
    ensures SameRoster(after, p) && SameOtherwise(lobby, after) && (Led(after) || after.organizerId == userId)
  {
    hide PQ.Has, PQ.Sound, HasParticipant;
    forall u ensures HasParticipant(after, u) <==> PQ.Has(p.active, u) {
      assert HasParticipant(gone, u) <==> HasParticipant(lobby, u) && u != userId;
      assert HasParticipant(lobby, u) <==> PQ.Has(q.active, u);
    }
  }

  lemma RoomForPromoted(lobby: Lobby, gone: Lobby, q: PQ.Queue, userId: int, user: int)
    requires Unseated(lobby, gone, userId) && |lobby.participants| == |q.active| && SameRoster(lobby, q) && PQ.Has(q.active, userId)
    ensures |gone.participants| < gone.capacity
  {
  }

  lemma StageStepIsNew(w: World, id: string, interaction: int, done: set<string>, step: string, about: int)
    requires OthersOk(w, id, interaction, done) && step !in done
    ensures !Used(w.store, Discord(interaction, step, about))
  {
    StepIsNew(w.store, interaction, done, step, about);
  }

  lemma StageMore(w: World, v: World, r: Answer, id: string, interaction: int, done: set<string>, step: string)
    requires StageDone(w, v, r, id, interaction, done)
    ensures StageDone(w, v, r, id, interaction, done + {step})
  {
    MoreSteps(v.store, interaction, done, step);
  }

  // ---- Succession ---------------------------------------------------------------------------

  const SUCCESSION := {"auto-transfer", "auto-cancel-empty"}

  /** On the roster before everybody else, by the row that comes first on a tie. */
  ghost predicate LongestTenured(lobby: Lobby, userId: int) {
    exists k :: 0 <= k < |lobby.participants| && lobby.participants[k].userId == userId && FirstToJoin(lobby.participants, k)
  }

  ghost predicate FirstToJoin(ps: seq<Participant>, k: nat)
    requires k < |ps|
  {
    (forall j :: 0 <= j < |ps| ==> ps[k].joinedAt <= ps[j].joinedAt) && (forall j :: 0 <= j < k ==> ps[k].joinedAt < ps[j].joinedAt)
  }

  /** What a departure means for the organizer of a live lobby: another's departure
      nothing; the organizer's own, that the longest-tenured of those who remain
      takes over, or that the lobby is cancelled when nobody remains. */
  ghost predicate HandsOn(organizerId: int, after: Lobby, departed: int) {
    if organizerId != departed then after.organizerId == organizerId && !IsTerminal(after.state)
    else if after.participants == [] then after.state == Cancelled
    else LongestTenured(after, after.organizerId) && !IsTerminal(after.state)
  }

  ghost predicate SamePeople(lobby: Lobby, after: Lobby) {
    after.participants == lobby.participants && after.organizerId == lobby.organizerId && (IsTerminal(after.state) <==> IsTerminal(lobby.state))
  }

  lemma HandsOnStill(organizerId: int, lobby: Lobby, after: Lobby, departed: int)
    requires HandsOn(organizerId, lobby, departed) && SamePeople(lobby, after) && (lobby.state == Cancelled ==> after.state == Cancelled)
    ensures HandsOn(organizerId, after, departed)
  {
    hide FirstToJoin;
  }

  /** Only the state, the version and the time are new. */
  ghost predicate MovedTo(lobby: Lobby, after: Lobby, target: LobbyState) {
    after == lobby.(state := target, version := after.version, updatedAt := after.updatedAt)
  }

  /** An allowed transition of the live lobby cannot fail. */
  lemma Moves(w: World, env: Env, id: string, target: LobbyState, step: string, done: set<string>)
    requires OthersOk(w, id, env.interaction, done) && LiveAt(w, env, id) && step !in done
    requires w.store.lobbies[id].state != target && MayTransition(w.store.lobbies[id].state, target)
    ensures var (v, r) := Move(w, env, id, target, step);
            && StageDone(w, v, r, id, env.interaction, done + {step}) && MovedTo(w.store.lobbies[id], r.value, target)
            && (!IsTerminal(target) ==> LiveAt(v, env, id))
  {
    hide Do, StoreOk, Edited, Makes, Used, OthersOk, MayTransition, LiveAt, MovedTo, StageDone;
    LiveIs(w, env, id);
    var lobby := w.store.lobbies[id];
    var c := Transition(env.guildId, id, target, Discord(env.interaction, step, 0), None);
    var changed := NextVersion(lobby.(state := target), env.now);
    MoveMakes(lobby, c, changed, env.now);
    StageStepIsNew(w, id, env.interaction, done, step, 0);
    StageMakes(w, c, env, changed, Transitioned, done, done + {step});
  }

  lemma MoveMakes(lobby: Lobby, c: Command, changed: Lobby, now: int)
    requires c.Transition? && c.changedAt.None? && lobby.state != c.target && MayTransition(lobby.state, c.target)
    requires changed == NextVersion(lobby.(state := c.target), now)
    ensures Makes(lobby, c, now, changed, Transitioned) && MovedTo(lobby, changed, c.target)
  {
  }

  lemma MovedFits(lobby: Lobby, after: Lobby, target: LobbyState, q: PQ.Queue)
    requires MovedTo(lobby, after, target) && SameRoster(lobby, q)
    ensures SameRoster(after, q) && (Led(lobby) ==> Led(after)) && after.organizerId == lobby.organizerId
  {
  }

  lemma Transfers(w: World, env: Env, id: string, departed: int, heir: int, done: set<string>)
    requires OthersOk(w, id, env.interaction, done) && LiveAt(w, env, id) && "auto-transfer" !in done
    requires w.store.lobbies[id].organizerId == departed && HasParticipant(w.store.lobbies[id], heir)
    ensures var (v, r) := Do(w, TransferOrganizer(env.guildId, id, heir, Discord(env.interaction, "auto-transfer", 0), departed), env);
            && StageDone(w, v, r, id, env.interaction, done + {"auto-transfer"}) && LiveAt(v, env, id)
            && r.value.participants == w.store.lobbies[id].participants && r.value.organizerId == heir
            && r.value.state == w.store.lobbies[id].state && r.value.capacity == w.store.lobbies[id].capacity
  {
    hide Do, StoreOk, Edited, Makes, Used, OthersOk, LiveAt, StageDone, HasParticipant;
    LiveIs(w, env, id);
    var lobby := w.store.lobbies[id];
    var c := TransferOrganizer(env.guildId, id, heir, Discord(env.interaction, "auto-transfer", 0), departed);
    var changed := NextVersion(lobby.(organizerId := heir), env.now);
    TransferMakes(lobby, c, changed, env.now);
    StageStepIsNew(w, id, env.interaction, done, "auto-transfer", 0);
    StageMakes(w, c, env, changed, OrganizerTransferred, done, done + {"auto-transfer"});
    StageIs(w, Do(w, c, env).0, Do(w, c, env).1, id, env.interaction, done + {"auto-transfer"});
  }

  lemma TransferMakes(lobby: Lobby, c: Command, changed: Lobby, now: int)
    requires c.TransferOrganizer? && lobby.organizerId == c.actorId && HasParticipant(lobby, c.newOrganizerId) && !IsTerminal(lobby.state)
    requires changed == NextVersion(lobby.(organizerId := c.newOrganizerId), now)
    ensures Makes(lobby, c, now, changed, OrganizerTransferred)
  {
  }

  lemma SettledBy(w: World, id: string)
    requires id in w.store.lobbies && id in w.queues
    requires IsTerminal(w.store.lobbies[id].state) || (SameRoster(w.store.lobbies[id], w.queues[id]) && Led(w.store.lobbies[id]))
    ensures Settled(w, id)
  {
  }

  lemma SettledDead(w: World, id: string)
    requires id in w.store.lobbies && IsTerminal(w.store.lobbies[id].state)
    ensures Settled(w, id)
  {
  }

  lemma TransferFits(lobby: Lobby, after: Lobby, heir: int, q: PQ.Queue)
    requires SameRoster(lobby, q) && HasParticipant(lobby, heir)
    requires after.participants == lobby.participants && after.organizerId == heir && after.capacity == lobby.capacity
    ensures SameRoster(after, q) && Led(after)
  {
  }

  /** A lobby is never left without an organizer: the stage cannot fail, and ends
      with the lobby led or cancelled. */
  lemma Succeeds(w: World, env: Env, id: string, departed: int, done: set<string>)
    requires OthersOk(w, id, env.interaction, done) && LiveAt(w, env, id) && FitsBut(w, id, departed) && SUCCESSION !! done
    ensures var (v, r) := Succession(w, env, w.store.lobbies[id], departed);
            && StageDone(w, v, r, id, env.interaction, done + SUCCESSION) && Settled(v, id)
            && (r.value.state == w.store.lobbies[id].state || IsTerminal(r.value.state))
            && (!IsTerminal(r.value.state) ==> LiveAt(v, env, id))
            && HandsOn(w.store.lobbies[id].organizerId, r.value, departed)
  {
    var lobby := w.store.lobbies[id];
    assert !IsTerminal(lobby.state) && lobby.lobbyId == id && id in w.queues && SameRoster(lobby, w.queues[id]);
    hide Do, StoreOk, PQ.Sound, OnlyAt, Move, OthersOk, LiveAt, SameRoster, Led, StageDone, Settled, HasParticipant, IsTerminal, LongestTenured;
    if lobby.organizerId != departed {
      StageNothing(w, lobby, env, id, done, done + SUCCESSION);
      assert Led(lobby);
      SettledBy(w, id);
    } else if lobby.participants != [] {
      HeirTakesOver(w, env, id, departed, done);
    } else {
      Closes(w, env, id, done);
    }
  }

  lemma StageNothing(w: World, lobby: Lobby, env: Env, id: string, done: set<string>, more: set<string>)
    requires OthersOk(w, id, env.interaction, done) && done <= more && lobby == w.store.lobbies[id]
    ensures StageDone(w, w, Ok(lobby), id, env.interaction, more)
  {
    OnlyAtSelf(w, id);
    MoreDone(w.store, env.interaction, done, more);
  }

  lemma HeirTakesOver(w: World, env: Env, id: string, departed: int, done: set<string>)
    requires OthersOk(w, id, env.interaction, done) && LiveAt(w, env, id) && SUCCESSION !! done
    requires SameRoster(w.store.lobbies[id], w.queues[id]) && w.store.lobbies[id].organizerId == departed && w.store.lobbies[id].participants != []
    ensures var (v, r) := Succession(w, env, w.store.lobbies[id], departed);
            && StageDone(w, v, r, id, env.interaction, done + SUCCESSION) && Settled(v, id) && LiveAt(v, env, id)
            && r.value.state == w.store.lobbies[id].state
            && r.value.participants == w.store.lobbies[id].participants && LongestTenured(r.value, r.value.organizerId)
  {
    var lobby := w.store.lobbies[id];
    var i := MinIndex(lobby.participants, JoinedKey);
    var heir := lobby.participants[i].userId;
    LeastJoinedFirst(lobby.participants);
    assert UserIds(lobby.participants)[i] == heir;
    hide Do, StoreOk, PQ.Sound, OnlyAt, OthersOk, SameRoster, Led;
    Transfers(w, env, id, departed, heir, done);
    var (v, r) := Succession(w, env, lobby, departed);
    TransferFits(lobby, r.value, heir, w.queues[id]);
    StageGrows(w, v, r, id, env.interaction, done + {"auto-transfer"}, done + SUCCESSION);
    SettledBy(v, id);
  }

  lemma LeastJoinedFirst(ps: seq<Participant>)
    requires ps != []
    ensures FirstToJoin(ps, MinIndex(ps, JoinedKey))
  {
    var i := MinIndex(ps, JoinedKey);
    MinIndexLeast(ps, JoinedKey);
    forall j | 0 <= j < |ps| ensures ps[i].joinedAt <= ps[j].joinedAt && (j < i ==> ps[i].joinedAt < ps[j].joinedAt) {
      LexSingle(ps[i].joinedAt, ps[j].joinedAt);
      assert LexLeq(JoinedKey(ps[i]), JoinedKey(ps[j]));
      assert ps[i].joinedAt == ps[j].joinedAt ==> JoinedKey(ps[j]) == JoinedKey(ps[i]);
    }
  }

  lemma Closes(w: World, env: Env, id: string, done: set<string>)
    requires OthersOk(w, id, env.interaction, done) && LiveAt(w, env, id) && SUCCESSION !! done
    ensures var (v, r) := Move(w, env, id, Cancelled, "auto-cancel-empty");
            && StageDone(w, v, r, id, env.interaction, done + SUCCESSION) && Settled(v, id) && IsTerminal(r.value.state)
            && r.value.state == Cancelled && r.value.participants == w.store.lobbies[id].participants
  {
    hide Do, StoreOk, PQ.Sound, OnlyAt, OthersOk, SameRoster, Led, Move;
    Moves(w, env, id, Cancelled, "auto-cancel-empty", done);
    var (v, r) := Move(w, env, id, Cancelled, "auto-cancel-empty");
    StageGrows(w, v, r, id, env.interaction, done + {"auto-cancel-empty"}, done + SUCCESSION);
    StageIs(w, v, r, id, env.interaction, done + SUCCESSION);
    SettledDead(v, id);
  }

  lemma StageGrows(w: World, v: World, r: Answer, id: string, interaction: int, done: set<string>, more: set<string>)
    requires StageDone(w, v, r, id, interaction, done) && done <= more
    ensures StageDone(w, v, r, id, interaction, more)
  {
    MoreDone(v.store, interaction, done, more);
  }

  lemma MoreDone(store: Store, interaction: int, done: set<string>, more: set<string>)
    requires StoreOk(store, interaction, done) && done <= more
    ensures StoreOk(store, interaction, more)
  {
    hide Ordered, OperationsPast;
  }

  /** Reopening recruitment after a drop: the stage cannot fail. */
  lemma Reopens(w: World, env: Env, id: string, departed: int, done: set<string>)
    requires OthersOk(w, id, env.interaction, done) && LiveAt(w, env, id) && FitsBut(w, id, departed) && "reopen" !in done
    ensures var (v, r) := Reopen(w, env, w.store.lobbies[id]);
            && StageDone(w, v, r, id, env.interaction, done + {"reopen"}) && LiveAt(v, env, id) && FitsBut(v, id, departed)
            && SamePeople(w.store.lobbies[id], r.value)
  {
    hide StoreOk, PQ.Sound, SameRoster, Led, OnlyAt, Move, OthersOk, LiveAt, StageDone;
    LiveIs(w, env, id);
    var lobby := w.store.lobbies[id];
    if lobby.state != ReadyCheck {
      StageNothing(w, lobby, env, id, done, done + {"reopen"});
    } else {
      Moves(w, env, id, Open, "reopen", done);
      var (v, r) := Move(w, env, id, Open, "reopen");
      StageIs(w, v, r, id, env.interaction, done + {"reopen"});
      MovedFits(lobby, r.value, Open, w.queues[id]);
    }
  }

  // ---- The bootstrap of a queue -------------------------------------------------------------

  /** No seating of these players was recorded under this version. */
  ghost predicate UnseenSync(store: Store, id: string, version: int, users: seq<int>) {
    forall u :: u in users ==> !Used(store, CapacitySync(id, version, u))
  }

  lemma SyncIsNew(store: Store, id: string, users: seq<int>)
    requires OperationsPast(store) && id in store.lobbies
    ensures UnseenSync(store, id, store.lobbies[id].version, users)
  {
    forall u | u in users ensures !Used(store, CapacitySync(id, store.lobbies[id].version, u)) {
      var op := CapacitySync(id, store.lobbies[id].version, u);
      UsedOperation(store.audit, op);
      forall i | 0 <= i < |store.audit| ensures store.audit[i].operation != op {
        assert OldSync(store, store.audit[i].operation);
      }
    }
  }

  lemma SyncStaysNew(w: World, v: World, id: string, version: int, user: int, rest: seq<int>)
    requires UnseenSync(w.store, id, version, rest) && user !in rest && AddsEvent(w, v, CapacitySync(id, version, user))
    ensures UnseenSync(v.store, id, version, rest)
  {
    forall u | u in rest ensures !Used(v.store, CapacitySync(id, version, u)) {
      UsedOperation(w.store.audit, CapacitySync(id, version, u));
      UsedOperation(v.store.audit, CapacitySync(id, version, u));
    }
  }

  /** The roster lacks exactly these players of the queue's active list. */
  ghost predicate Lacks(lobby: Lobby, q: PQ.Queue, users: seq<int>) {
    && (forall u :: PQ.Has(q.active, u) <==> HasParticipant(lobby, u) || u in users)
    && (forall u :: u in users ==> !HasParticipant(lobby, u))
    && Distinct(users) && |lobby.participants| + |users| <= lobby.capacity && |q.active| <= lobby.capacity
  }

  lemma LacksFewer(lobby: Lobby, after: Lobby, q: PQ.Queue, users: seq<int>)
    requires users != [] && Lacks(lobby, q, users) && Seated(lobby, after, users[0])
    ensures Lacks(after, q, users[1..]) && users[0] !in users[1..] && (Led(lobby) ==> Led(after))
  {
    assert users == [users[0]] + users[1..];
    var first := users[0];
    assert first in users;
  }

  /** What a stage that changes only the roster leaves. */
  ghost predicate Grown(w: World, v: World, env: Env, id: string, interaction: int, done: set<string>) {
    && OthersOk(v, id, interaction, done) && OnlyAt(w, v, id) && v == w.(store := v.store) && LiveAt(v, env, id)
    && id in w.store.lobbies && SameOtherwise(w.store.lobbies[id], v.store.lobbies[id])
  }

  /** Seating promoted players cannot fail: each seat is free and each operation new. */
  lemma {:induction false} SeatsAll(w: World, env: Env, lobby: Lobby, id: string, users: seq<int>, done: set<string>)
    requires OthersOk(w, id, env.interaction, done) && LiveAt(w, env, id)
    requires lobby.lobbyId == id && lobby.guildId == env.guildId && lobby.version <= w.store.lobbies[id].version
    requires Lacks(w.store.lobbies[id], w.queues[id], users) && Led(w.store.lobbies[id])
    requires UnseenSync(w.store, id, lobby.version, users)
    ensures var (v, failed) := SeatAll(w, env, lobby, users);
            && failed == None && Grown(w, v, env, id, env.interaction, done)
            && SameRoster(v.store.lobbies[id], w.queues[id]) && Led(v.store.lobbies[id])
    decreases |users|
  {
    hide Do, StoreOk, OthersOk, LiveAt, PQ.Has, PQ.Sound, HasParticipant, OnlyAt, UnseenSync, Used, Led, Seated;
    LiveIs(w, env, id);
    if users == [] {
      LacksNobody(w.store.lobbies[id], w.queues[id]);
      StageNothing(w, w.store.lobbies[id], env, id, done, done);
      GrownSelf(w, env, id, done);
    } else {
      var user := users[0];
      var op := CapacitySync(id, lobby.version, user);
      var p := Seat(user, PreferencesOf(w, lobby.guildId, user), env.now);
      assert user in users;
      FirstUnseen(w.store, id, lobby.version, users);
      assert |users| >= 1;
      hide Lacks;
      LacksRoom(w.store.lobbies[id], w.queues[id], users);
      assert env.(guildId := lobby.guildId) == env;
      PutsOn(w, env, id, p, op, done, done);
      var (next, r) := Do(w, SaveParticipant(env.guildId, id, p, op), env);
      StageIs(w, next, r, id, env.interaction, done);
      LacksFewer(w.store.lobbies[id], r.value, w.queues[id], users);
      SeatedLives(w.store.lobbies[id], r.value, user);
      SyncStaysNew(w, next, id, lobby.version, user, users[1..]);
      SeatsAll(next, env, lobby, id, users[1..], done);
      GrownOn(w, next, SeatAll(next, env, lobby, users[1..]).0, env, id, r, done);
    }
  }

  lemma LacksNobody(lobby: Lobby, q: PQ.Queue)
    requires Lacks(lobby, q, [])
    ensures SameRoster(lobby, q)
  {
  }

  lemma LacksRoom(lobby: Lobby, q: PQ.Queue, users: seq<int>)
    requires Lacks(lobby, q, users) && users != []
    ensures |lobby.participants| < lobby.capacity
  {
  }

  lemma FirstUnseen(store: Store, id: string, version: int, users: seq<int>)
    requires UnseenSync(store, id, version, users) && users != []
    ensures !Used(store, CapacitySync(id, version, users[0])) && UnseenSync(store, id, version, users[1..])
  {
    var u := users[0];
    assert u in users;
  }

  lemma GrownSelf(w: World, env: Env, id: string, done: set<string>)
    requires OthersOk(w, id, env.interaction, done) && LiveAt(w, env, id)
    ensures Grown(w, w, env, id, env.interaction, done)
  {
    OnlyAtSelf(w, id);
  }

  lemma GrownOn(w: World, v: World, u: World, env: Env, id: string, r: Answer, done: set<string>)
    requires id in w.store.lobbies && StageDone(w, v, r, id, env.interaction, done) && SameOtherwise(w.store.lobbies[id], r.value)
    requires Grown(v, u, env, id, env.interaction, done)
    ensures Grown(w, u, env, id, env.interaction, done)
  {
    hide OthersOk, LiveAt;
    OnlyAtTransitive(w, v, u, id);
  }
}
