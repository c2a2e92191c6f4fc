/** What a handler that succeeds leaves behind: in the lobby, the queue and the
    stored preferences. */
module PartyLobbyEffects {
  import opened Common
  import opened PartyStore
  import opened PartyStoreInvariant
  import opened PartyStoreEffects
  import opened PartyLobby
  import opened PartyLobbySteps
  import opened PartyLobbyRoster
  import opened PartyLobbyStages
  import opened PartyLobbyHandlers
  import opened PartyLobbyCalls
  import opened PartyLobbyEntry
  import opened PartyLobbyRuns
  import PQ = PartyQueue

  // ---- One step ---------------------------------------------------------------------------

  lemma OkMayEdit(w: World, c: Command, env: Env)
    requires AboutOneLobby(c) && !c.Create? && !Used(w.store, c.op) && Do(w, c, env).1.Ok?
    ensures Find(w.store, c.guildId, c.lobbyId).Some? && MayEdit(Find(w.store, c.guildId, c.lobbyId).value, c)
  {
    var found := Find(w.store, c.guildId, c.lobbyId);
    if found.Some? { EditsWhen(found.value, c, env.now); }
    hide Edited, MayEdit, Used, MarkOf, IsBlank;
  }

  /** A step of the interaction that succeeds was allowed, and gives the parts it sets. */
  lemma StepGives(w: World, c: Command, env: Env, step: string, about: int, done: set<string>, part: Part)
    requires AboutOneLobby(c) && !c.Create? && StoreOk(w.store, env.interaction, done)
    requires c.op == Discord(env.interaction, step, about) && step !in done && Do(w, c, env).1.Ok?
    ensures var (v, r) := Do(w, c, env);
            && StoreOk(v.store, env.interaction, done + {step}) && v == w.(store := v.store)
            && c.lobbyId in w.store.lobbies && c.lobbyId in v.store.lobbies && r.value == v.store.lobbies[c.lobbyId]
            && w.store.lobbies[c.lobbyId].guildId == c.guildId && MayEdit(w.store.lobbies[c.lobbyId], c)
            && if ClockRuns(w.store.lobbies[c.lobbyId], c) && Sets(c, w.store.lobbies[c.lobbyId], part) then Gives(r.value, c, env.now, part)
               else SamePart(w.store.lobbies[c.lobbyId], r.value, part)
  {
    hide Do, StoreOk, Used, MayEdit, Gives, SamePart, Sets, Makes, OnlyAt;
    StepNew(w, env, step, about, done);
    DoAny(w, c, env, step, about, done);
    OkMayEdit(w, c, env);
    StoreIsOrdered(w.store, env.interaction, done);
    DoIsAfter(w, c, env);
    TakesEffectWhen(w.store, c, env.naming, env.now);
    CommandGives(w.store, c, env.naming, env.now, c.lobbyId, part);
  }

  lemma StepNew(w: World, env: Env, step: string, about: int, done: set<string>)
    requires StoreOk(w.store, env.interaction, done) && step !in done
    ensures !Used(w.store, Discord(env.interaction, step, about))
  {
    StepIsNew(w.store, env.interaction, done, step, about);
  }

  lemma DoIsAfter(w: World, c: Command, env: Env)
    requires AboutOneLobby(c)
    ensures Do(w, c, env).0 == w.(store := After(w.store, c, env.naming, env.now))
  {
    hide Exec;
  }

  lemma SameThen(a: Lobby, b: Lobby, c: Lobby, part: Part)
    requires SamePart(a, b, part) && SamePart(b, c, part)
    ensures SamePart(a, c, part)
  {
  }

  // ---- The organizer's actions --------------------------------------------------------------

  /** The clock of a recruiting lobby after a call of somebody: an hour from now,
      and no prompt up. */
  predicate ClockAnew(lobby: Lobby, now: int) {
    lobby.expiresAt == Some(now + 60) && lobby.delivery.promptChannel == None && lobby.delivery.promptMessage == None
  }

  /** A lobby read earlier, when it was in the state it still is in. */
  ghost predicate Reads(w: World, lobby: Lobby) {
    lobby.lobbyId in w.store.lobbies && w.store.lobbies[lobby.lobbyId].state == lobby.state
  }

  lemma TouchGives(w: World, env: Env, lobby: Lobby, done: set<string>, part: Part)
    requires StoreOk(w.store, env.interaction, done) && "touch" !in done && PartyLobby.Touched(w, env, lobby).1.Ok? && Reads(w, lobby)
    ensures var (v, r) := PartyLobby.Touched(w, env, lobby);
            && StoreOk(v.store, env.interaction, done + {"touch"}) && v == w.(store := v.store)
            && r.value.lobbyId == lobby.lobbyId && r.value.state == lobby.state && Reads(v, r.value)
            && (lobby == w.store.lobbies[lobby.lobbyId] ==> r.value == v.store.lobbies[lobby.lobbyId])
            && (part != TheClock && part != ThePrompt ==> SamePart(w.store.lobbies[lobby.lobbyId], v.store.lobbies[lobby.lobbyId], part))
            && (IsRecruiting(lobby.state) ==> ClockAnew(v.store.lobbies[lobby.lobbyId], env.now))
  {
    hide Do, StoreOk, MayEdit;
    var id := lobby.lobbyId;
    SameItself(w.store.lobbies[id], part);
    MoreThan(w.store, env.interaction, done, done + {"touch"});
    if IsRecruiting(lobby.state) {
      var c := Touch(env.guildId, id, Discord(env.interaction, "touch", 0), 60);
      StepGives(w, c, env, "touch", 0, done, part);
      StepGives(w, c, env, "touch", 0, done, TheClock);
      StepGives(w, c, env, "touch", 0, done, ThePrompt);
      StepGives(w, c, env, "touch", 0, done, TheState);
      InOrder(PartyLobby.Touched(w, env, lobby).0, env, id, done + {"touch"});
    }
  }

  lemma MoreThan(store: Store, interaction: int, done: set<string>, more: set<string>)
    requires StoreOk(store, interaction, done) && done <= more
    ensures StoreOk(store, interaction, more)
  {
    MoreDone(store, interaction, done, more);
  }

  /** An edit that succeeds was the organizer's, and leaves what was asked for. */
  lemma EditsTake(w: World, env: Env, id: string, userId: int, metadata: Metadata, capacity: int)
    requires StoreOk(w.store, env.interaction, {}) && EditLobby(w, env, id, userId, metadata, capacity).1.Ok?
    ensures var (v, r) := EditLobby(w, env, id, userId, metadata, capacity);
            && id in w.store.lobbies && id in v.store.lobbies && r.value == v.store.lobbies[id]
            && w.store.lobbies[id].organizerId == userId && !IsTerminal(w.store.lobbies[id].state)
            && r.value.metadata == metadata && r.value.capacity == capacity && r.value.state == w.store.lobbies[id].state
            && (IsRecruiting(r.value.state) ==> ClockAnew(r.value, env.now))
  {
    hide Do, StoreOk, PartyLobby.Touched;
    var c := UpdateMetadata(env.guildId, id, Discord(env.interaction, "edit", 0), userId, metadata, capacity);
    var (edited, t) := Do(w, c, env);
    StepGives(w, c, env, "edit", 0, {}, TheTerms);
    StepGives(w, c, env, "edit", 0, {}, TheState);
    InOrder(edited, env, id, {} + {"edit"});
    TouchGives(edited, env, t.value, {} + {"edit"}, TheTerms);
    TouchGives(edited, env, t.value, {} + {"edit"}, TheState);
  }

  lemma InOrder(w: World, env: Env, id: string, done: set<string>)
    requires StoreOk(w.store, env.interaction, done) && id in w.store.lobbies
    ensures w.store.lobbies[id].lobbyId == id
  {
    InOrderThere(w.store, id);
  }

  /** A transition that succeeds leaves the lobby in that state. */
  lemma MoveGives(w: World, env: Env, id: string, target: LobbyState, step: string, done: set<string>, part: Part)
    requires StoreOk(w.store, env.interaction, done) && step !in done && Move(w, env, id, target, step).1.Ok?
    ensures var (v, r) := Move(w, env, id, target, step);
            && StoreOk(v.store, env.interaction, done + {step}) && v == w.(store := v.store)
            && id in w.store.lobbies && id in v.store.lobbies && r.value == v.store.lobbies[id] && r.value.state == target
            && w.store.lobbies[id].guildId == env.guildId && MayTransition(w.store.lobbies[id].state, target)
            && (part !in {TheState, TheStamp} ==> SamePart(w.store.lobbies[id], r.value, part))
  {
    hide Do, StoreOk;
    var c := Transition(env.guildId, id, target, Discord(env.interaction, step, 0), None);
    StepGives(w, c, env, step, 0, done, part);
    StepGives(w, c, env, step, 0, done, TheState);
  }

  /** A lobby is cancelled from its card by its organizer only. */
  lemma CancelsForTheOrganizer(w: World, env: Env, id: string, userId: int)
    requires StoreOk(w.store, env.interaction, {})
    ensures var (v, r) := CancelLobby(w, env, id, userId);
            && (r.Ok? ==> id in w.store.lobbies && w.store.lobbies[id].organizerId == userId && id in v.store.lobbies
                          && r.value == v.store.lobbies[id] && r.value.state == Cancelled)
            && (id in w.store.lobbies && w.store.lobbies[id].organizerId != userId ==> r.Err? && v == w)
  {
    hide StoreOk, Move;
    if CancelLobby(w, env, id, userId).1.Ok? { MoveGives(w, env, id, Cancelled, "cancel", {}, TheName); }
  }

  /** A lobby is handed over by its organizer, to one who is on its roster. */
  lemma HandsOver(w: World, env: Env, id: string, userId: int, heir: int)
    requires StoreOk(w.store, env.interaction, {}) && TransferLobby(w, env, id, userId, heir).1.Ok?
    ensures var (v, r) := TransferLobby(w, env, id, userId, heir);
            && id in w.store.lobbies && w.store.lobbies[id].organizerId == userId && HasParticipant(w.store.lobbies[id], heir)
            && id in v.store.lobbies && r.value == v.store.lobbies[id] && r.value.organizerId == heir
  {
    hide StoreOk, Do;
    StepGives(w, TransferOrganizer(env.guildId, id, heir, Discord(env.interaction, "transfer", 0), userId), env, "transfer", 0, {}, TheOrganizer);
  }

  // ---- Ready checks -------------------------------------------------------------------------

  /** The check has just begun. */
  predicate JustBegun(q: PQ.Queue, now: int, c: PQ.Config) {
    q.status == PQ.ReadyCheck && q.ready == map[] && q.extensionsUsed == 0 && q.deadline == Some(now + c.timeout)
  }

  lemma ReadyFromGives(w: World, env: Env, lobby: Lobby, active: nat)
    requires StoreOk(w.store, env.interaction, {}) && ReadyFrom(w, env, lobby, active).1.Ok? && IsRecruiting(lobby.state)
    ensures var (v, r) := ReadyFrom(w, env, lobby, active);
            v == w.(store := v.store) && lobby.lobbyId in v.store.lobbies && r.value == v.store.lobbies[lobby.lobbyId] && r.value.state == ReadyCheck
  {
    hide StoreOk, Move;
    var id := lobby.lobbyId;
    MoreThan(w.store, env.interaction, {}, {} + {"full"});
    if lobby.state == Open && active == lobby.capacity {
      MoveGives(w, env, id, Full, "full", {}, TheName);
    }
    var (full, r) := if lobby.state == Open && active == lobby.capacity then Move(w, env, id, Full, "full") else (w, Ok(lobby));
    MoveGives(full, env, id, ReadyCheck, "ready-check", {} + {"full"}, TheName);
  }

  /** A check started by hand is the organizer's, of a live lobby recruiting an even
      number of two or more, and has just begun in queue and lobby. */
  lemma StartsForTheOrganizer(w: World, env: Env, id: string, userId: int)
    requires WorldOk(w, env.interaction, {}) && StartReadyCheck(w, env, id, userId).1.Ok?
    ensures var (v, r) := StartReadyCheck(w, env, id, userId);
            && id in w.store.lobbies && w.store.lobbies[id].organizerId == userId && IsRecruiting(w.store.lobbies[id].state)
            && id in v.store.lobbies && r.value == v.store.lobbies[id] && r.value.state == ReadyCheck
            && id in v.queues && JustBegun(v.queues[id], env.now, env.config) && |v.queues[id].active| >= 2 && |v.queues[id].active| % 2 == 0
  {
    hide WorldOk, EnsureQueue, ReadyFrom, StoreOk, Ensured;
    LiveThere(w, env, id, {});
    EnsuresLive(w, env, id, {});
    var (e, q) := EnsureQueue(w, env, w.store.lobbies[id]);
    EnsuredStore(w, e, env, id);
    ValidDead(w, id, env.interaction, {});
    var started := PQ.ReadyCheckStarted(q.value, env.now, env.config).value;
    ReadyFromGives(WithQueue(e, id, started), env, w.store.lobbies[id], |started.active|);
  }

  lemma EnsuredStore(w: World, v: World, env: Env, id: string)
    requires Ensured(w, v, env, id, env.interaction, {})
    ensures StoreOk(v.store, env.interaction, {}) && id in v.store.lobbies && id in w.store.lobbies
  {
    hide StoreOk;
  }

  // ---- Creating -----------------------------------------------------------------------------

  /** A player's row as their preferences say, and not ready. */
  predicate RowSays(r: Participant, userId: int, p: Preferences) {
    r.userId == userId && r.primary == p.primary && r.secondary == p.secondary && r.fill == p.fill && r.captain == p.captain && !r.ready
  }

  /** Sizes are even, two to ten; others are refused at once. */
  lemma OddSizesAreRefused(w: World, env: Env, userId: int, capacity: int, metadata: Metadata, name: string, minutes: int)
    requires !(2 <= capacity <= 10 && capacity % 2 == 0)
    ensures !GoodSize(capacity) && CreateLobby(w, env, userId, capacity, metadata, name, minutes) == (w, Err(Refused))
  {
    assert !GoodSize(capacity);
    hide GoodSize, Swept, Booked, Do, EnsureQueue;
  }

  /** On the roster of this lobby, active in its queue, or waiting there. */
  ghost predicate PlaysIn(w: World, id: string, u: int) {
    && id in w.store.lobbies
    && ((exists p :: p in w.store.lobbies[id].participants && p.userId == u)
        || (id in w.queues && exists m :: (m in w.queues[id].active || m in w.queues[id].waitlist) && m.userId == u))
  }

  /** A place in another lobby of the guild that is not over. */
  ghost predicate PlaysElsewhere(w: World, guildId: int, u: int, except: Option<string>) {
    exists id :: PlaysIn(w, id, u) && w.store.lobbies[id].guildId == guildId && Some(id) != except
                 && w.store.lobbies[id].state !in {Completed, PartyStore.Cancelled, Expired}
  }

  lemma BelongsIs(w: World, id: string, u: int)
    requires id in w.store.lobbies
    ensures BelongsTo(w, id, u) <==> PlaysIn(w, id, u)
  {
    SeatThere(w.store.lobbies[id], u);
    hide HasParticipant, PQ.Has;
    if id in w.queues { PlaceThere(w.queues[id], u); }
  }

  lemma SeatThere(lobby: Lobby, u: int)
    ensures HasParticipant(lobby, u) <==> exists p :: p in lobby.participants && p.userId == u
  {
    RowThere(lobby, u);
    hide HasParticipant;
    if r :| IsRow(lobby, r, u) { assert r in lobby.participants && r.userId == u; }
    if p :| p in lobby.participants && p.userId == u { assert IsRow(lobby, p, u); }
  }

  lemma PlaceThere(q: PQ.Queue, u: int)
    ensures PQ.Has(PQ.Everyone(q), u) <==> exists m :: (m in q.active || m in q.waitlist) && m.userId == u
  {
    var all := PQ.Everyone(q);
    MemberThere(all, u);
    hide PQ.Has;
    assert forall m :: m in all <==> m in q.active || m in q.waitlist;
    if m :| m in all && m.userId == u { assert m in q.active || m in q.waitlist; }
    if m :| (m in q.active || m in q.waitlist) && m.userId == u { assert m in all; }
  }

  lemma MemberThere(members: seq<PQ.Member>, u: int)
    ensures PQ.Has(members, u) <==> exists m :: m in members && m.userId == u
  {
    var i := PQ.Find(members, u);
    if i < |members| { assert members[i] in members; }
    if m :| m in members && m.userId == u {
      var k :| 0 <= k < |members| && members[k] == m;
    }
  }

  lemma BookedIs(w: World, guildId: int, u: int, except: Option<string>)
    ensures Booked(w, guildId, u, except) <==> PlaysElsewhere(w, guildId, u, except)
  {
    forall id | id in w.store.lobbies ensures BelongsTo(w, id, u) <==> PlaysIn(w, id, u) { BelongsIs(w, id, u); }
    hide BelongsTo, PlaysIn;
  }

  /** A creation is refused exactly for its size, or for a place the organizer has,
      once the sweep has run, in a live lobby of the guild. */
  lemma CreatingIsRefusedWhen(w: World, env: Env, userId: int, capacity: int, metadata: Metadata, name: string, minutes: int)
    ensures CreateLobby(w, env, userId, capacity, metadata, name, minutes).1 == Err(Refused) <==>
              || !(2 <= capacity <= 10 && capacity % 2 == 0)
              || (var (s, failed) := Swept(w, env, Some(env.guildId)); failed.None? && PlaysElsewhere(s, env.guildId, userId, None))
  {
    BookedIs(Swept(w, env, Some(env.guildId)).0, env.guildId, userId, None);
    hide Swept, Booked, PlaysElsewhere, EnsureQueue, Do, Save;
    SweepFails(w, env, Some(env.guildId));
    var s := Swept(w, env, Some(env.guildId)).0;
    var c := Create(env.guildId, userId, capacity, Some(env.now + minutes), None, Discord(env.interaction, "create", 0), NO_DELIVERY, metadata, name);
    DoIsNotRefused(s, c, env);
    var (created, r) := Do(s, c, env);
    if r.Ok? {
      var p := PreferencesOf(created, env.guildId, userId);
      SaveIsNotRefused(created, env, r.value.lobbyId, userId, p, Discord(env.interaction, "organizer", 0));
      var (seated, t) := Save(created, env, r.value.lobbyId, userId, p, Discord(env.interaction, "organizer", 0));
      if t.Ok? { EnsureIsNotRefused(seated, env, t.value); }
    }
  }

  /** A join is refused exactly for a place in another live lobby of the guild. */
  lemma JoiningIsRefusedWhen(w: World, env: Env, id: string, userId: int, profile: Preferences)
    ensures JoinLobby(w, env, id, userId, profile).1 == Err(Refused) <==>
              && Find(w.store, env.guildId, id).Some?
              && (var (s, failed) := Swept(w, env, Some(env.guildId)); failed.None? && PlaysElsewhere(s, env.guildId, userId, Some(id)))
  {
    BookedIs(Swept(w, env, Some(env.guildId)).0, env.guildId, userId, Some(id));
    hide Swept, Booked, PlaysElsewhere, EnsureQueue, Do, Save, Find, JoinQueue;
    SweepFails(w, env, Some(env.guildId));
    var found := Find(w.store, env.guildId, id);
    if found.Some? {
      var s := Swept(w, env, Some(env.guildId)).0;
      var told := s.(preferences := s.preferences[(env.guildId, userId) := profile]);
      EnsureIsNotRefused(told, env, found.value);
      var (e, q) := EnsureQueue(told, env, found.value);
      if q.Ok? { JoinQueueIsNotRefused(e, env, found.value, q.value, userId, profile); }
    }
  }

  lemma SweepFails(w: World, env: Env, inGuild: Option<int>)
    ensures Swept(w, env, inGuild).1 != Some(Refused)
  {
  }

  lemma DoIsNotRefused(w: World, c: Command, env: Env)
    requires AboutOneLobby(c)
    ensures Do(w, c, env).1 != Err(Refused)
  {
    hide Exec;
  }

  lemma SaveIsNotRefused(w: World, env: Env, id: string, u: int, p: Preferences, op: OperationId)
    ensures Save(w, env, id, u, p, op).1 != Err(Refused)
  {
    hide Exec;
  }

  lemma {:induction false} SeatingIsNotRefused(w: World, env: Env, lobby: Lobby, promoted: seq<int>)
    ensures SeatAll(w, env, lobby, promoted).1 != Some(Refused)
    decreases |promoted|
  {
    hide Save;
    if promoted != [] {
      var op := CapacitySync(lobby.lobbyId, lobby.version, promoted[0]);
      var p := PreferencesOf(w, lobby.guildId, promoted[0]);
      SaveIsNotRefused(w, env.(guildId := lobby.guildId), lobby.lobbyId, promoted[0], p, op);
      SeatingIsNotRefused(Save(w, env.(guildId := lobby.guildId), lobby.lobbyId, promoted[0], p, op).0, env, lobby, promoted[1..]);
    }
  }

  lemma EnsureIsNotRefused(w: World, env: Env, lobby: Lobby)
    ensures EnsureQueue(w, env, lobby).1 != Err(Refused)
  {
    hide SeatAll, JoinMissing, PQ.Resized;
    var there := QueueThere(w, lobby);
    var r := PQ.Resized(there.queues[lobby.lobbyId], lobby.capacity);
    if r.Ok? { SeatingIsNotRefused(WithQueue(there, lobby.lobbyId, r.value.0), env, lobby, r.value.1); }
  }

  lemma JoinQueueIsNotRefused(w: World, env: Env, lobby: Lobby, q: PQ.Queue, u: int, profile: Preferences)
    ensures JoinQueue(w, env, lobby, q, u, profile).1 != Err(Refused)
  {
    hide Exec, PQ.Joined, PQ.ReadyCheckStarted;
  }

  /** A new lobby, open, as the command says, with its organizer the one player. */
  ghost predicate AsCommanded(lobby: Lobby, c: Command, p: Preferences, now: int)
    requires c.Create?
  {
    && lobby.guildId == c.guildId && lobby.organizerId == c.organizerId && lobby.capacity == c.capacity && lobby.state == Open
    && lobby.metadata == c.metadata && lobby.displayName == c.name && lobby.createdAt == now && lobby.expiresAt == c.expires && lobby.delivery == c.refs
    && |lobby.participants| == 1 && RowSays(lobby.participants[0], c.organizerId, p) && lobby.participants[0].joinedAt == now
  }

  lemma FoundsAsCommanded(s: World, env: Env, c: Command)
    requires WorldOk(s, env.interaction, {}) && c.Create? && c.op == Discord(env.interaction, "create", 0) && c.guildId == env.guildId
    requires Do(s, c, env).1.Ok?
    ensures var (created, r) := Do(s, c, env);
            var id, p := r.value.lobbyId, PreferencesOf(created, env.guildId, c.organizerId);
            var (seated, t) := Save(created, env, id, c.organizerId, p, Discord(env.interaction, "organizer", 0));
            && p == PreferencesOf(s, env.guildId, c.organizerId) && t.Ok? && t.value.lobbyId == id && seated == s.(store := seated.store)
            && id !in s.store.lobbies && id !in s.queues && id in seated.store.lobbies && seated.store.lobbies[id] == t.value
            && AsCommanded(t.value, c, p, env.now) && c.capacity >= 2
  {
    hide WorldOk, Do, Founded, StoreOk, ValidLobby, OnlyAt;
    var (created, r) := Do(s, c, env);
    DoIsAfter(s, c, env);
    var id, p := r.value.lobbyId, Seat(c.organizerId, PreferencesOf(created, env.guildId, c.organizerId), env.now);
    Founds(s, env, c, p);
    CreatedWorld(s, env, c);
    NewLobbyIs(s, env, c);
    var save := SaveParticipant(env.guildId, id, p, Discord(env.interaction, "organizer", 0));
    FounderGives(created, env, save);
    DoIsAfter(created, save, env);
    FoundedThere(s, Do(created, save, env).0, id, c.organizerId, env.guildId, env.interaction, {} + {"create"} + {"organizer"});
  }

  /** A lobby that is created is a new one, open, as asked for, with its organizer as
      its one player, in the lobby and in its queue. */
  lemma CreatesAsAsked(w: World, env: Env, userId: int, capacity: int, metadata: Metadata, name: string, minutes: int)
    requires WorldOk(w, env.interaction, {}) && CreateLobby(w, env, userId, capacity, metadata, name, minutes).1.Ok?
    ensures var (v, r) := CreateLobby(w, env, userId, capacity, metadata, name, minutes);
            var id := r.value.lobbyId;
            && 2 <= capacity <= 10 && capacity % 2 == 0 && id !in w.store.lobbies && id in v.store.lobbies && v.store.lobbies[id] == r.value
            && AsCommanded(r.value, Create(env.guildId, userId, capacity, Some(env.now + minutes), None, Discord(env.interaction, "create", 0),
                                           NO_DELIVERY, metadata, name), PreferencesOf(w, env.guildId, userId), env.now)
            && id in v.queues && v.queues[id].capacity == capacity && v.queues[id].waitlist == []
            && PQ.Ids(v.queues[id].active) == [userId]
  {
    hide WorldOk, Swept, Booked, SweptFrom, Do, EnsureQueue, GoodSize, AsCommanded, Save;
    if GoodSize(capacity) { SizeIs(capacity); }
    SweptKeeps(w, env, Some(env.guildId), {});
    var s := Swept(w, env, Some(env.guildId)).0;
    var c := Create(env.guildId, userId, capacity, Some(env.now + minutes), None, Discord(env.interaction, "create", 0), NO_DELIVERY, metadata, name);
    FoundsAsCommanded(s, env, c);
    var (created, r) := Do(s, c, env);
    var id := r.value.lobbyId;
    var (seated, t) := Save(created, env, id, userId, PreferencesOf(created, env.guildId, userId), Discord(env.interaction, "organizer", 0));
    CommandedIs(t.value, c, PreferencesOf(s, env.guildId, userId), env.now);
    FoundedQueue(s, seated, env, t.value, userId);
    SweptNames(w, s, id);
  }

  lemma CommandedIs(lobby: Lobby, c: Command, p: Preferences, now: int)
    requires c.Create? && AsCommanded(lobby, c, p, now)
    ensures |lobby.participants| == 1 && lobby.participants[0].userId == c.organizerId && lobby.capacity == c.capacity
  {
  }

  lemma SizeIs(capacity: int)
    requires GoodSize(capacity)
    ensures 2 <= capacity <= 10 && capacity % 2 == 0
  {
  }

  lemma SweptNames(w: World, s: World, id: string)
    requires SweptFrom(w.store, s.store)
    ensures id in w.store.lobbies <==> id in s.store.lobbies
  {
  }

  lemma NewLobbyIs(w: World, env: Env, c: Command)
    requires WorldOk(w, env.interaction, {}) && c.Create? && c.op == Discord(env.interaction, "create", 0) && Do(w, c, env).1.Ok?
    ensures var lobby := Do(w, c, env).1.value;
            && lobby.metadata == c.metadata && lobby.displayName == c.name && lobby.capacity == c.capacity && lobby.expiresAt == c.expires
            && lobby.createdAt == env.now && lobby.delivery == c.refs
  {
    CreatedStore(w.store, c, env);
    hide Exec, StoreOk;
  }

  /** The first save leaves all but the roster. */
  lemma FounderGives(w: World, env: Env, c: Command)
    requires StoreOk(w.store, env.interaction, {} + {"create"}) && c.SaveParticipant? && c.op == Discord(env.interaction, "organizer", 0)
    requires Do(w, c, env).1.Ok? && c.lobbyId in w.store.lobbies && w.store.lobbies[c.lobbyId].participants == []
    ensures var (v, r) := Do(w, c, env);
            r.value == w.store.lobbies[c.lobbyId].(participants := [c.participant], version := r.value.version, updatedAt := r.value.updatedAt)
  {
    hide Do, StoreOk, MayEdit, Gives, SamePart;
    StepNew(w, env, "organizer", 0, {} + {"create"});
    DoAny(w, c, env, "organizer", 0, {} + {"create"});
    OkMayEdit(w, c, env);
    SavedAlone(c.participant);
    SaveIs(w, c, env);
  }

  lemma SavedAlone(p: Participant)
    ensures Saved([], p) == [p]
  {
  }

  lemma SaveIs(w: World, c: Command, env: Env)
    requires c.SaveParticipant? && !Used(w.store, c.op) && Do(w, c, env).1.Ok? && c.lobbyId in w.store.lobbies
    ensures var lobby, r := w.store.lobbies[c.lobbyId], Do(w, c, env).1.value;
            r == lobby.(participants := Saved(lobby.participants, c.participant), version := r.version, updatedAt := r.updatedAt)
  {
    hide Saved, HasParticipant, IndexOf;
  }

  lemma FoundedQueue(s: World, v: World, env: Env, lobby: Lobby, userId: int)
    requires lobby.lobbyId !in v.queues && |lobby.participants| == 1 && lobby.participants[0].userId == userId && lobby.capacity >= 2
    ensures var (u, q) := EnsureQueue(v, env, lobby);
            && q.Ok? && u.store == v.store && lobby.lobbyId in u.queues && u.queues[lobby.lobbyId].capacity == lobby.capacity
            && u.queues[lobby.lobbyId].waitlist == [] && PQ.Ids(u.queues[lobby.lobbyId].active) == [userId]
  {
    hide SeatAll, PQ.Has, PQ.DistinctRoles;
    var start, p := PQ.NewQueue(lobby.capacity), lobby.participants[0];
    assert PQ.Everyone(start) == [] && !PQ.Has(PQ.Everyone(start), userId) by { NobodyThere(start, userId); }
    assert lobby.participants[1..] == [];
    var there := QueueThere(v, lobby);
    assert Resize(there, env, lobby) == (there, None);
    assert JoinMissing(start, lobby.participants, start) == JoinMissing(PQ.Joined(start, userId, RolesOf(p)).value.0, [], start);
  }

  lemma NobodyThere(q: PQ.Queue, userId: int)
    requires q.active == [] && q.waitlist == []
    ensures !PQ.Has(PQ.Everyone(q), userId)
  {
    assert PQ.Everyone(q) == [];
  }

  // ---- Joining ------------------------------------------------------------------------------

  /** The roster half of a join: another's row stays; the player's own says what the
      profile says, from now on unless they were there. */
  ghost predicate SeatedWith(before: Lobby, after: Lobby, userId: int, p: Preferences, now: int) {
    && HasParticipant(after, userId)
    && (forall r :: IsRow(after, r, userId) ==> RowSays(r, userId, p) && (!HasParticipant(before, userId) ==> r.joinedAt == now))
  }

  lemma SaveSeats(w: World, env: Env, id: string, userId: int, p: Preferences, step: string, about: int, done: set<string>, part: Part)
    requires StoreOk(w.store, env.interaction, done) && step !in done && Save(w, env, id, userId, p, Discord(env.interaction, step, about)).1.Ok?
    ensures var (v, r) := Save(w, env, id, userId, p, Discord(env.interaction, step, about));
            && StoreOk(v.store, env.interaction, done + {step}) && v == w.(store := v.store)
            && id in w.store.lobbies && id in v.store.lobbies && r.value == v.store.lobbies[id]
            && SeatedWith(w.store.lobbies[id], r.value, userId, p, env.now)
            && (part !in {TheRow(userId), TheTenure(userId), TheStamp} ==> SamePart(w.store.lobbies[id], r.value, part))
  {
    hide Do, StoreOk, MayEdit;
    var c := SaveParticipant(env.guildId, id, Seat(userId, p, env.now), Discord(env.interaction, step, about));
    StepGives(w, c, env, step, about, done, part);
    StepGives(w, c, env, step, about, done, TheRow(userId));
    StepGives(w, c, env, step, about, done, TheTenure(userId));
  }

  /** A full, recruiting lobby goes on to its ready check; anything else of it stays. */
  lemma ToReadyCheckGives(w: World, env: Env, lobby: Lobby, done: set<string>, part: Part)
    requires StoreOk(w.store, env.interaction, done) && {"full", "ready-check"} !! done && Reads(w, lobby) && ToReadyCheck(w, env, lobby).1.Ok?
    ensures var (v, r) := ToReadyCheck(w, env, lobby);
            && v == w.(store := v.store) && lobby.lobbyId in v.store.lobbies
            && v.store.lobbies[lobby.lobbyId].state == (if IsRecruiting(lobby.state) then ReadyCheck else lobby.state)
            && (part !in {TheState, TheStamp} ==> SamePart(w.store.lobbies[lobby.lobbyId], v.store.lobbies[lobby.lobbyId], part))
  {
    hide StoreOk, Move, SamePart;
    var id := lobby.lobbyId;
    SameItself(w.store.lobbies[id], part);
    MoreThan(w.store, env.interaction, done, done + {"full"});
    if lobby.state == Open { MoveGives(w, env, id, Full, "full", done, part); }
    var (full, r) := if lobby.state == Open then Move(w, env, id, Full, "full") else (w, Ok(lobby));
    InOrderOr(full, env, lobby, r.value, done + {"full"});
    if r.value.state == Full {
      MoveGives(full, env, id, ReadyCheck, "ready-check", done + {"full"}, part);
      if part !in {TheState, TheStamp} { SameThen(w.store.lobbies[id], full.store.lobbies[id], ToReadyCheck(w, env, lobby).0.store.lobbies[id], part); }
    }
  }

  lemma InOrderOr(w: World, env: Env, lobby: Lobby, read: Lobby, done: set<string>)
    requires StoreOk(w.store, env.interaction, done) && (read == lobby || (lobby.lobbyId in w.store.lobbies && read == w.store.lobbies[lobby.lobbyId]))
    ensures read.lobbyId == lobby.lobbyId
  {
    if read != lobby { InOrder(w, env, lobby.lobbyId, done); }
  }

  /** Whether the join that leaves this queue starts its ready check. */
  predicate FillsUp(q: PQ.Queue) { |q.active| == q.capacity && q.status == PQ.Open }

  /** The end of a join, from the queue as joined. */
  lemma JoinEnds(w: World, env: Env, lobby: Lobby, q: PQ.Queue, done: set<string>, part: Part)
    requires StoreOk(w.store, env.interaction, done) && FINISH !! done && Reads(w, lobby) && lobby.lobbyId in w.queues && w.queues[lobby.lobbyId] == q
    requires var (touched, t) := PartyLobby.Touched(w, env, lobby); t.Ok? && StartWhenFull(touched, env, lobby.lobbyId, q, t.value).1.Ok?
    ensures var (touched, t) := PartyLobby.Touched(w, env, lobby);
            var v, id := StartWhenFull(touched, env, lobby.lobbyId, q, t.value).0, lobby.lobbyId;
            && v.preferences == w.preferences && id in v.store.lobbies && id in v.queues
            && (part !in {TheClock, ThePrompt, TheState, TheStamp} ==> SamePart(w.store.lobbies[id], v.store.lobbies[id], part))
            && (IsRecruiting(lobby.state) ==> ClockAnew(v.store.lobbies[id], env.now))
            && v.store.lobbies[id].state == (if FillsUp(q) && IsRecruiting(lobby.state) then ReadyCheck else lobby.state)
            && (if FillsUp(q) then JustBegun(v.queues[id], env.now, env.config) && PQ.Everyone(v.queues[id]) == PQ.Everyone(q) && v.queues[id].active == q.active else v.queues[id] == q)
  {
    hide StoreOk, PartyLobby.Touched, ToReadyCheck, SamePart, ClockAnew;
    var id := lobby.lobbyId;
    TouchGives(w, env, lobby, done, part);
    var (touched, t) := PartyLobby.Touched(w, env, lobby);
    if FillsUp(q) {
      var m := WithQueue(touched, id, PQ.ReadyCheckStarted(q, env.now, env.config).value);
      ToReadyCheckGives(m, env, t.value, done + {"touch"}, part);
      ToReadyCheckGives(m, env, t.value, done + {"touch"}, TheClock);
      ToReadyCheckGives(m, env, t.value, done + {"touch"}, ThePrompt);
      var v := ToReadyCheck(m, env, t.value).0;
      if IsRecruiting(lobby.state) { ClockStays(touched.store.lobbies[id], v.store.lobbies[id], env.now); }
      if part !in {TheClock, ThePrompt, TheState, TheStamp} {
        SameThen(w.store.lobbies[id], touched.store.lobbies[id], v.store.lobbies[id], part);
      }
    }
  }

  lemma ClockStays(a: Lobby, b: Lobby, now: int)
    requires ClockAnew(a, now) && SamePart(a, b, TheClock) && SamePart(a, b, ThePrompt)
    ensures ClockAnew(b, now)
  {
  }

  /** The player has a seat, or one is free. */
  predicate Plays(q: PQ.Queue, userId: int) { PQ.Has(q.active, userId) || |q.active| < q.capacity }

  /** The roles a profile names, the primary first, each once. */
  predicate Named(p: Preferences, roles: seq<string>) {
    match (p.primary, p.secondary)
    case (None, None) => roles == []
    case (Some(a), None) => roles == [a]
    case (None, Some(b)) => roles == [b]
    case (Some(a), Some(b)) => roles == if a == b then [a] else [a, b]
  }

  lemma ProfileNames(p: Preferences)
    ensures Named(p, PQ.DistinctRoles(RoleList(p)))
  {
    var roles := RoleList(p);
    assert PQ.DistinctRoles([]) == [];
    if |roles| == 1 {
      assert roles[..0] == [];
    } else if |roles| == 2 {
      assert roles[..1] == [roles[0]] && roles[..1][..0] == [];
      assert PQ.DistinctRoles(roles[..1]) == [roles[0]];
    }
  }

  /** Who is new in the queue has the roles the profile names. */
  ghost predicate NewcomersNamed(q: PQ.Queue, p: PQ.Queue, userId: int, profile: Preferences) {
    forall m :: m in PQ.Everyone(p) && m !in PQ.Everyone(q) ==> m.userId == userId && Named(profile, m.roles)
  }

  /** What a join leaves: with a seat, the player's row as the profile says; without
      one, no row; a clock anew while recruiting; and a check begun when the seats
      are full and the queue recruits. */
  ghost predicate JoinedAs(before: Lobby, after: Lobby, q: PQ.Queue, p: PQ.Queue, userId: int, profile: Preferences, env: Env) {
    && (if Plays(q, userId) then SeatedWith(before, after, userId, profile, env.now) else !HasParticipant(after, userId))
    && NewcomersNamed(q, p, userId, profile) && (IsRecruiting(before.state) ==> ClockAnew(after, env.now))
    && (if |p.active| == q.capacity && q.status == PQ.Open then JustBegun(p, env.now, env.config)
        else p.status == q.status && p.deadline == q.deadline && p.ready == q.ready)
    && after.state == (if |p.active| == q.capacity && q.status == PQ.Open && IsRecruiting(before.state) then ReadyCheck else before.state)
  }

  lemma JoinQueueSteps(w: World, env: Env, lobby: Lobby, q: PQ.Queue, userId: int, profile: Preferences)
    requires JoinQueue(w, env, lobby, q, userId, profile).1.Ok?
    ensures PQ.Joined(q, userId, RoleList(profile)).Ok?
    ensures var (p, to) := PQ.Joined(q, userId, RoleList(profile)).value;
            var m := WithQueue(w, lobby.lobbyId, p);
            var (saved, r) := if to == PQ.ToWaitlist then (m, Ok(lobby)) else Save(m, env, lobby.lobbyId, userId, profile, Discord(env.interaction, "join", 0));
            && r.Ok? && PartyLobby.Touched(saved, env, r.value).1.Ok?
            && var (touched, t) := PartyLobby.Touched(saved, env, r.value);
            JoinQueue(w, env, lobby, q, userId, profile) == StartWhenFull(touched, env, lobby.lobbyId, p, t.value)
  {
    hide StartWhenFull, Save, PartyLobby.Touched, PQ.Joined;
    var (p, to) := PQ.Joined(q, userId, RoleList(profile)).value;
    var m := WithQueue(w, lobby.lobbyId, p);
    hide WithQueue;
    if to == PQ.ToWaitlist {
      assert PartyLobby.Touched(m, env, lobby).1.Ok?;
    } else {
      assert Save(m, env, lobby.lobbyId, userId, profile, Discord(env.interaction, "join", 0)).1.Ok?;
    }
  }

  lemma JoinQueueGives(w: World, env: Env, id: string, q: PQ.Queue, lobby: Lobby, userId: int, profile: Preferences, part: Part)
    requires Joining(w, env, id, q, lobby) && lobby.state == w.store.lobbies[id].state && JoinQueue(w, env, lobby, q, userId, profile).1.Ok?
    ensures var v := JoinQueue(w, env, lobby, q, userId, profile).0;
            && id in w.store.lobbies && id in v.store.lobbies && id in v.queues && v.preferences == w.preferences
            && JoinedAs(w.store.lobbies[id], v.store.lobbies[id], q, v.queues[id], userId, profile, env)
            && (part !in {TheClock, ThePrompt, TheState, TheStamp, TheRow(userId), TheTenure(userId)} ==> SamePart(w.store.lobbies[id], v.store.lobbies[id], part))
  {
    hide Joining, PQ.Sound, StoreOk, JoinQueue, PQ.Joined, JoinedAs, SamePart;
    JoiningStore(w, env, id, q, lobby);
    JoinQueueSteps(w, env, lobby, q, userId, profile);
    if PQ.Joined(q, userId, RoleList(profile)).value.1 == PQ.ToWaitlist { JoinWaits(w, env, id, q, lobby, userId, profile, part); }
    else { JoinPlays(w, env, id, q, lobby, userId, profile, part); }
  }

  lemma JoinWaits(w: World, env: Env, id: string, q: PQ.Queue, lobby: Lobby, userId: int, profile: Preferences, part: Part)
    requires Joining(w, env, id, q, lobby) && lobby.state == w.store.lobbies[id].state && JoinQueue(w, env, lobby, q, userId, profile).1.Ok?
    requires PQ.Joined(q, userId, RoleList(profile)).Ok? && PQ.Joined(q, userId, RoleList(profile)).value.1 == PQ.ToWaitlist
    ensures var v := JoinQueue(w, env, lobby, q, userId, profile).0;
            && id in w.store.lobbies && id in v.store.lobbies && id in v.queues && v.preferences == w.preferences
            && JoinedAs(w.store.lobbies[id], v.store.lobbies[id], q, v.queues[id], userId, profile, env)
            && (part !in {TheClock, ThePrompt, TheState, TheStamp, TheRow(userId), TheTenure(userId)} ==> SamePart(w.store.lobbies[id], v.store.lobbies[id], part))
  {
    hide StoreOk, OthersOk, LiveAt, PQ.Sound, PQ.Has, Led, StartWhenFull, Save, PartyLobby.Touched, HasParticipant, SamePart, ClockAnew,
      SeatedWith, SameRoster, JoinQueue, PQ.Joined, JoinedAs, NewcomersNamed;
    JoiningStore(w, env, id, q, lobby);
    JoinQueueSteps(w, env, lobby, q, userId, profile);
    JoinedIs(q, userId, RoleList(profile));
    JoinedFields(q, userId, RoleList(profile));
    JoinedRoles(q, userId, profile);
    var (p, to) := PQ.Joined(q, userId, RoleList(profile)).value;
    var m, v := WithQueue(w, id, p), JoinQueue(w, env, lobby, q, userId, profile).0;
    MoreThan(w.store, env.interaction, {}, {} + {"join"});
    JoinEnds(m, env, lobby, p, {} + {"join"}, part);
    JoinEnds(m, env, lobby, p, {} + {"join"}, TheRow(userId));
    OffTheRoster(w, env, id, q, lobby, v.store.lobbies[id], userId);
    JoinedBy(w.store.lobbies[id], v.store.lobbies[id], q, p, v.queues[id], userId, profile, env);
  }

  lemma JoinPlays(w: World, env: Env, id: string, q: PQ.Queue, lobby: Lobby, userId: int, profile: Preferences, part: Part)
    requires Joining(w, env, id, q, lobby) && lobby.state == w.store.lobbies[id].state && JoinQueue(w, env, lobby, q, userId, profile).1.Ok?
    requires PQ.Joined(q, userId, RoleList(profile)).Ok? && PQ.Joined(q, userId, RoleList(profile)).value.1 != PQ.ToWaitlist
    ensures var v := JoinQueue(w, env, lobby, q, userId, profile).0;
            && id in w.store.lobbies && id in v.store.lobbies && id in v.queues && v.preferences == w.preferences
            && JoinedAs(w.store.lobbies[id], v.store.lobbies[id], q, v.queues[id], userId, profile, env)
            && (part !in {TheClock, ThePrompt, TheState, TheStamp, TheRow(userId), TheTenure(userId)} ==> SamePart(w.store.lobbies[id], v.store.lobbies[id], part))
  {
    hide StoreOk, OthersOk, LiveAt, PQ.Sound, PQ.Has, Led, StartWhenFull, Save, PartyLobby.Touched, HasParticipant, SamePart, ClockAnew,
      SeatedWith, SameRoster, JoinQueue, PQ.Joined, JoinedAs, NewcomersNamed;
    JoiningStore(w, env, id, q, lobby);
    JoinQueueSteps(w, env, lobby, q, userId, profile);
    JoinedIs(q, userId, RoleList(profile));
    JoinedFields(q, userId, RoleList(profile));
    JoinedRoles(q, userId, profile);
    var (p, to) := PQ.Joined(q, userId, RoleList(profile)).value;
    var m, v := WithQueue(w, id, p), JoinQueue(w, env, lobby, q, userId, profile).0;
    SaveSeats(m, env, id, userId, profile, "join", 0, {}, part);
    SaveSeats(m, env, id, userId, profile, "join", 0, {}, TheState);
    if to == PQ.Unchanged && !PQ.Has(q.active, userId) { WaiterIsRefusedHere(w, env, id, q, lobby, userId, profile); }
    var (saved, r) := Save(m, env, id, userId, profile, Discord(env.interaction, "join", 0));
    InOrder(saved, env, id, {} + {"join"});
    SameStateIs(m.store.lobbies[id], saved.store.lobbies[id]);
    JoinEnds(saved, env, r.value, p, {} + {"join"}, part);
    JoinEnds(saved, env, r.value, p, {} + {"join"}, TheRow(userId));
    RowStays(w.store.lobbies[id], saved.store.lobbies[id], v.store.lobbies[id], userId, profile, env.now);
    JoinedBy(w.store.lobbies[id], v.store.lobbies[id], q, p, v.queues[id], userId, profile, env);
    if part !in {TheClock, ThePrompt, TheState, TheStamp, TheRow(userId), TheTenure(userId)} {
      SameThen(w.store.lobbies[id], saved.store.lobbies[id], v.store.lobbies[id], part);
    }
  }

  lemma SameStateIs(a: Lobby, b: Lobby)
    requires SamePart(a, b, TheState)
    ensures a.state == b.state
  {
  }

  lemma JoinedBy(before: Lobby, after: Lobby, q: PQ.Queue, joined: PQ.Queue, p: PQ.Queue, userId: int, profile: Preferences, env: Env)
    requires if Plays(q, userId) then SeatedWith(before, after, userId, profile, env.now) else !HasParticipant(after, userId)
    requires IsRecruiting(before.state) ==> ClockAnew(after, env.now)
    requires joined.status == q.status && joined.deadline == q.deadline && joined.ready == q.ready && joined.capacity == q.capacity
    requires if FillsUp(joined) then JustBegun(p, env.now, env.config) && PQ.Everyone(p) == PQ.Everyone(joined) && p.active == joined.active else p == joined
    requires NewcomersNamed(q, joined, userId, profile)
    requires after.state == if FillsUp(joined) && IsRecruiting(before.state) then ReadyCheck else before.state
    ensures JoinedAs(before, after, q, p, userId, profile, env)
  {
    hide PQ.Has, HasParticipant, SeatedWith, Named;
  }

  lemma JoiningStore(w: World, env: Env, id: string, q: PQ.Queue, lobby: Lobby)
    requires Joining(w, env, id, q, lobby)
    ensures StoreOk(w.store, env.interaction, {}) && id in w.store.lobbies && PQ.Sound(q)
    ensures w.store.lobbies[id].lobbyId == id
  {
    LiveIs(w, env, id);
  }

  lemma JoinedFields(q: PQ.Queue, userId: int, roles: seq<string>)
    requires PQ.Joined(q, userId, roles).Ok?
    ensures var (p, to) := PQ.Joined(q, userId, roles).value;
            && p.status == q.status && p.deadline == q.deadline && p.ready == q.ready
            && (to == PQ.ToWaitlist ==> |q.active| >= q.capacity && !PQ.Has(PQ.Everyone(q), userId))
  {
    hide PQ.Has, PQ.DistinctRoles;
  }

  lemma JoinedRoles(q: PQ.Queue, userId: int, profile: Preferences)
    requires PQ.Joined(q, userId, RoleList(profile)).Ok?
    ensures NewcomersNamed(q, PQ.Joined(q, userId, RoleList(profile)).value.0, userId, profile)
  {
    hide PQ.Has, PQ.DistinctRoles, Named, RoleList;
    ProfileNames(profile);
  }

  lemma OffTheRoster(w: World, env: Env, id: string, q: PQ.Queue, lobby: Lobby, after: Lobby, userId: int)
    requires Joining(w, env, id, q, lobby) && !PQ.Has(PQ.Everyone(q), userId) && SamePart(w.store.lobbies[id], after, TheRow(userId))
    ensures !HasParticipant(after, userId) && !PQ.Has(q.active, userId)
  {
    if PQ.Has(q.active, userId) { ActiveIsInQueue(q, userId); }
  }

  lemma RowStays(before: Lobby, saved: Lobby, after: Lobby, userId: int, p: Preferences, now: int)
    requires SeatedWith(before, saved, userId, p, now) && SamePart(saved, after, TheRow(userId))
    ensures SeatedWith(before, after, userId, p, now)
  {
    hide HasParticipant;
  }

  lemma WaiterIsRefusedHere(w: World, env: Env, id: string, q: PQ.Queue, lobby: Lobby, userId: int, profile: Preferences)
    requires Joining(w, env, id, q, lobby) && PQ.Has(PQ.Everyone(q), userId) && !PQ.Has(q.active, userId) && |q.active| == q.capacity
    ensures Save(WithQueue(w, id, q), env, id, userId, profile, Discord(env.interaction, "join", 0)).1.Err?
  {
    hide Joining, PQ.Has, Save;
    QueueAgain(w, env, id, q, lobby);
    WaiterIsRefused(w, env, id, q, lobby, userId, profile);
  }

  lemma QueueAgain(w: World, env: Env, id: string, q: PQ.Queue, lobby: Lobby)
    requires Joining(w, env, id, q, lobby)
    ensures WithQueue(w, id, q) == w
  {
    QueueAsIs(w, id);
  }

  /** The world a join finds: swept, the profile stored, the queue bootstrapped. */
  function BeforeJoining(w: World, env: Env, id: string, userId: int, profile: Preferences): World
    requires id in w.store.lobbies
  {
    var s := Swept(w, env, Some(env.guildId)).0;
    EnsureQueue(s.(preferences := s.preferences[(env.guildId, userId) := profile]), env, w.store.lobbies[id]).0
  }

  /** What a join of a live lobby that succeeds leaves, profile and lobby and queue. */
  lemma JoinsAsAsked(w: World, env: Env, id: string, userId: int, profile: Preferences, part: Part)
    requires WorldOk(w, env.interaction, {}) && MayJoin(w, env, id, userId) && JoinLobby(w, env, id, userId, profile).1.Ok?
    ensures var v, e := JoinLobby(w, env, id, userId, profile).0, BeforeJoining(w, env, id, userId, profile);
            && v.preferences == w.preferences[(env.guildId, userId) := profile]
            && id in e.store.lobbies && id in v.store.lobbies && id in e.queues && id in v.queues
            && e.store.lobbies[id].state == w.store.lobbies[id].state
            && JoinedAs(e.store.lobbies[id], v.store.lobbies[id], e.queues[id], v.queues[id], userId, profile, env)
            && (part !in {TheClock, ThePrompt, TheState, TheStamp, TheRow(userId), TheTenure(userId)} ==> SamePart(e.store.lobbies[id], v.store.lobbies[id], part))
  {
    hide WorldOk, EnsureQueue, JoinQueue, Swept, Booked, SweptFrom, PQ.Has, Joining, Ensured, JoinedAs, SamePart;
    SweptKeeps(w, env, Some(env.guildId), {});
    var s := Swept(w, env, Some(env.guildId)).0;
    SweptLobby(w, s, id);
    var told := s.(preferences := s.preferences[(env.guildId, userId) := profile]);
    PreferencesKeep(s, told.preferences, env.interaction, {});
    ValidDead(told, id, env.interaction, {});
    LiveThere(told, env, id, {});
    EnsuresLive(told, env, id, {});
    var (e, q) := EnsureQueue(told, env, w.store.lobbies[id]);
    EnsuredIs(told, e, env, id);
    EnsuredJoining(told, e, env, id, w.store.lobbies[id]);
    EnsuredState(told, e, env, id);
    EnsuredQueue(told, env, w.store.lobbies[id]);
    JoinQueueGives(e, env, id, q.value, w.store.lobbies[id], userId, profile, part);
  }

  lemma EnsuredState(w: World, v: World, env: Env, id: string)
    requires Ensured(w, v, env, id, env.interaction, {})
    ensures id in v.store.lobbies && id in w.store.lobbies && v.store.lobbies[id].state == w.store.lobbies[id].state
    ensures v.preferences == w.preferences
  {
    hide StoreOk;
  }

  lemma EnsuredQueue(w: World, env: Env, lobby: Lobby)
    ensures var (v, q) := EnsureQueue(w, env, lobby); q.Ok? ==> lobby.lobbyId in v.queues && v.queues[lobby.lobbyId] == q.value
  {
    hide Resize, JoinMissing;
  }

  // ---- Departures -----------------------------------------------------------------------------

  /** The promoted player's row says what their stored preferences say. */
  lemma FollowGives(w: World, env: Env, id: string, userId: int, promoted: Option<int>, off: string, on: string, done: set<string>, part: Part)
    requires StoreOk(w.store, env.interaction, done) && off !in done && on !in done && off != on
    requires FollowDeparture(w, env, id, userId, promoted, off, on).1.Ok? && id in w.store.lobbies
    ensures var (v, r) := FollowDeparture(w, env, id, userId, promoted, off, on);
            && StoreOk(v.store, env.interaction, done + {off} + {on}) && v == w.(store := v.store) && id in v.store.lobbies && r.value == v.store.lobbies[id]
            && (promoted != Some(userId) ==> !HasParticipant(r.value, userId))
            && (promoted.Some? && promoted.value != userId ==>
                  SeatedWith(w.store.lobbies[id], r.value, promoted.value, PreferencesOf(w, env.guildId, promoted.value), env.now))
            && (part !in {TheRow(userId), TheTenure(userId), TheStamp} && (promoted.Some? ==> part !in {TheRow(promoted.value), TheTenure(promoted.value)})
                ==> SamePart(w.store.lobbies[id], r.value, part))
  {
    hide Do, StoreOk, Save, SeatedWith, SamePart, HasParticipant;
    UnseatGives(w, env, id, userId, off, done, part);
    var (gone, r) := Do(w, RemoveParticipant(env.guildId, id, userId, Discord(env.interaction, off, 0)), env);
    MoreThan(gone.store, env.interaction, done + {off}, done + {off} + {on});
    if promoted.Some? {
      var u := promoted.value;
      UnseatGives(w, env, id, userId, off, done, TheRow(u));
      SaveSeats(gone, env, id, u, PreferencesOf(gone, env.guildId, u), on, u, done + {off}, part);
      SaveSeats(gone, env, id, u, PreferencesOf(gone, env.guildId, u), on, u, done + {off}, TheRow(userId));
      var v := FollowDeparture(w, env, id, userId, promoted, off, on).0;
      if u != userId {
        SeatedFrom(w.store.lobbies[id], gone.store.lobbies[id], v.store.lobbies[id], u, PreferencesOf(w, env.guildId, u), env.now);
        StillGone(gone.store.lobbies[id], v.store.lobbies[id], userId);
      }
      FollowedPart(w.store.lobbies[id], gone.store.lobbies[id], v.store.lobbies[id], userId, u, part);
    }
  }

  lemma UnseatGives(w: World, env: Env, id: string, userId: int, off: string, done: set<string>, part: Part)
    requires StoreOk(w.store, env.interaction, done) && off !in done
    requires Do(w, RemoveParticipant(env.guildId, id, userId, Discord(env.interaction, off, 0)), env).1.Ok?
    ensures var (v, r) := Do(w, RemoveParticipant(env.guildId, id, userId, Discord(env.interaction, off, 0)), env);
            && StoreOk(v.store, env.interaction, done + {off}) && v == w.(store := v.store)
            && id in w.store.lobbies && id in v.store.lobbies && r.value == v.store.lobbies[id] && !HasParticipant(r.value, userId)
            && (part !in {TheRow(userId), TheTenure(userId), TheStamp} ==> SamePart(w.store.lobbies[id], r.value, part))
  {
    hide Do, StoreOk, MayEdit, HasParticipant;
    var c := RemoveParticipant(env.guildId, id, userId, Discord(env.interaction, off, 0));
    StepGives(w, c, env, off, 0, done, part);
    StepGives(w, c, env, off, 0, done, TheRow(userId));
  }

  lemma StillGone(a: Lobby, b: Lobby, u: int)
    requires !HasParticipant(a, u) && SamePart(a, b, TheRow(u))
    ensures !HasParticipant(b, u)
  {
    hide HasParticipant;
  }

  lemma SeatedFrom(before: Lobby, gone: Lobby, after: Lobby, u: int, p: Preferences, now: int)
    requires SeatedWith(gone, after, u, p, now) && SamePart(before, gone, TheRow(u))
    ensures SeatedWith(before, after, u, p, now)
  {
  }

  lemma FollowedPart(before: Lobby, gone: Lobby, after: Lobby, userId: int, u: int, part: Part)
    requires part !in {TheRow(userId), TheTenure(userId), TheStamp} ==> SamePart(before, gone, part)
    requires part !in {TheRow(u), TheTenure(u), TheStamp} ==> SamePart(gone, after, part)
    ensures part !in {TheRow(userId), TheTenure(userId), TheRow(u), TheTenure(u), TheStamp} ==> SamePart(before, after, part)
  {
    hide SamePart;
    if part !in {TheRow(userId), TheTenure(userId), TheRow(u), TheTenure(u), TheStamp} { SameThen(before, gone, after, part); }
  }

  /** Succession touches the organizer, or cancels. */
  lemma SuccessionGives(w: World, env: Env, lobby: Lobby, departed: int, done: set<string>, part: Part)
    requires StoreOk(w.store, env.interaction, done) && SUCCESSION !! done && Succession(w, env, lobby, departed).1.Ok?
    requires lobby.lobbyId in w.store.lobbies && lobby == w.store.lobbies[lobby.lobbyId]
    ensures var (v, r) := Succession(w, env, lobby, departed);
            && StoreOk(v.store, env.interaction, done + SUCCESSION) && v == w.(store := v.store) && r.value.lobbyId == lobby.lobbyId
            && lobby.lobbyId in v.store.lobbies && r.value == v.store.lobbies[lobby.lobbyId]
            && (r.value.state == lobby.state || r.value.state == Cancelled)
            && (part !in {TheOrganizer, TheState, TheStamp} ==> SamePart(lobby, r.value, part))
  {
    hide Do, StoreOk, MayEdit, Move, SamePart;
    var id := lobby.lobbyId;
    SameItself(lobby, part);
    MoreThan(w.store, env.interaction, done, done + SUCCESSION);
    var (v, r) := Succession(w, env, lobby, departed);
    if lobby.organizerId == departed && !IsTerminal(lobby.state) {
      if lobby.participants != [] {
        var heir := lobby.participants[MinIndex(lobby.participants, JoinedKey)].userId;
        var c := TransferOrganizer(env.guildId, id, heir, Discord(env.interaction, "auto-transfer", 0), departed);
        StepGives(w, c, env, "auto-transfer", 0, done, part);
        StepGives(w, c, env, "auto-transfer", 0, done, TheState);
        SameStateIs(lobby, r.value);
        MoreThan(v.store, env.interaction, done + {"auto-transfer"}, done + SUCCESSION);
      } else {
        MoveGives(w, env, id, Cancelled, "auto-cancel-empty", done, part);
        MoreThan(v.store, env.interaction, done + {"auto-cancel-empty"}, done + SUCCESSION);
      }
    }
    InOrder(v, env, id, done + SUCCESSION);
  }

  lemma ReopenGives(w: World, env: Env, lobby: Lobby, done: set<string>, part: Part)
    requires StoreOk(w.store, env.interaction, done) && "reopen" !in done && Reopen(w, env, lobby).1.Ok?
    requires lobby.lobbyId in w.store.lobbies && lobby == w.store.lobbies[lobby.lobbyId]
    ensures var (v, r) := Reopen(w, env, lobby);
            && StoreOk(v.store, env.interaction, done + {"reopen"}) && v == w.(store := v.store) && r.value.lobbyId == lobby.lobbyId
            && lobby.lobbyId in v.store.lobbies && r.value == v.store.lobbies[lobby.lobbyId]
            && r.value.state == (if lobby.state == ReadyCheck then Open else lobby.state)
            && (part !in {TheState, TheStamp} ==> SamePart(lobby, r.value, part))
  {
    hide StoreOk, Move, SamePart;
    SameItself(lobby, part);
    MoreThan(w.store, env.interaction, done, done + {"reopen"});
    if lobby.state == ReadyCheck { MoveGives(w, env, lobby.lobbyId, Open, "reopen", done, part); }
    InOrder(Reopen(w, env, lobby).0, env, lobby.lobbyId, done + {"reopen"});
  }

  /** The end of a departure: the state it leads to unless the lobby is cancelled,
      and a clock anew while the lobby recruits. */
  ghost predicate Departs(before: Lobby, after: Lobby, reopens: bool, now: int) {
    && (after.state == Cancelled || after.state == if reopens && before.state == ReadyCheck then Open else before.state)
    && (IsRecruiting(after.state) ==> ClockAnew(after, now))
  }

  const MOVED := {TheOrganizer, TheState, TheStamp, TheClock, ThePrompt}

  lemma SameTwice(a: Lobby, b: Lobby, c: Lobby, d: Lobby, part: Part)
    requires SamePart(a, b, part) && SamePart(b, c, part) && SamePart(c, d, part)
    ensures SamePart(a, d, part)
  {
    hide SamePart;
    SameThen(a, b, c, part);
    SameThen(a, c, d, part);
  }

  lemma AfterLeaveGives(w: World, env: Env, lobby: Lobby, userId: int, dropping: bool, done: set<string>, part: Part)
    requires StoreOk(w.store, env.interaction, done) && TAIL !! done && AfterLeave(w, env, lobby, userId, dropping).1.Ok?
    requires lobby.lobbyId in w.store.lobbies && lobby == w.store.lobbies[lobby.lobbyId]
    ensures var (v, r) := AfterLeave(w, env, lobby, userId, dropping);
            && lobby.lobbyId in v.store.lobbies && r.value == v.store.lobbies[lobby.lobbyId] && v == w.(store := v.store)
            && Departs(lobby, r.value, dropping, env.now) && (part !in MOVED ==> SamePart(lobby, r.value, part))
  {
    hide StoreOk, Reopen, Succession, PartyLobby.Touched, SamePart, ClockAnew;
    SameItself(lobby, part);
    MoreThan(w.store, env.interaction, done, done + {"reopen"});
    if dropping { ReopenGives(w, env, lobby, done, part); }
    var (a, o) := if dropping then Reopen(w, env, lobby) else (w, Ok(lobby));
    SuccessionGives(a, env, o.value, userId, done + {"reopen"}, part);
    var (b, s) := Succession(a, env, o.value, userId);
    TouchGives(b, env, s.value, done + {"reopen"} + SUCCESSION, part);
    if part !in MOVED { SameTwice(lobby, o.value, s.value, AfterLeave(w, env, lobby, userId, dropping).1.value, part); }
  }

  lemma AfterDropGives(w: World, env: Env, lobby: Lobby, userId: int, done: set<string>, part: Part)
    requires StoreOk(w.store, env.interaction, done) && TAIL !! done && AfterDrop(w, env, lobby, userId).1.Ok?
    requires lobby.lobbyId in w.store.lobbies && lobby == w.store.lobbies[lobby.lobbyId]
    ensures var (v, r) := AfterDrop(w, env, lobby, userId);
            && lobby.lobbyId in v.store.lobbies && r.value == v.store.lobbies[lobby.lobbyId] && v == w.(store := v.store)
            && Departs(lobby, r.value, true, env.now) && (part !in MOVED ==> SamePart(lobby, r.value, part))
  {
    hide StoreOk, Reopen, Succession, PartyLobby.Touched, SamePart, ClockAnew;
    SuccessionGives(w, env, lobby, userId, done, part);
    var (a, s) := Succession(w, env, lobby, userId);
    ReopenGives(a, env, s.value, done + SUCCESSION, part);
    var (b, o) := Reopen(a, env, s.value);
    TouchGives(b, env, o.value, done + SUCCESSION + {"reopen"}, part);
    if part !in MOVED { SameTwice(lobby, s.value, o.value, AfterDrop(w, env, lobby, userId).1.value, part); }
  }

  /** What a departure leaves of one player's row and of one other part. */
  ghost predicate DepartedAs(before: Lobby, after: Lobby, w: World, env: Env, userId: int, reopens: bool, u: int, part: Part) {
    && !HasParticipant(after, userId) && Departs(before, after, reopens, env.now)
    && (u != userId && HasParticipant(before, u) ==> SamePart(before, after, TheRow(u)) && SamePart(before, after, TheTenure(u)))
    && (HasParticipant(after, u) && !HasParticipant(before, u) ==> SeatedWith(before, after, u, PreferencesOf(w, env.guildId, u), env.now))
    && (part !in MOVED && !part.TheRow? && !part.TheTenure? ==> SamePart(before, after, part))
  }

  /** What the queue's departure and the roster's following make, as the tail leaves it. */
  lemma DepartedBy(before: Lobby, gone: Lobby, after: Lobby, w: World, env: Env, userId: int, promoted: Option<int>, reopens: bool, u: int, part: Part)
    requires promoted != Some(userId) && (promoted.Some? ==> !HasParticipant(before, promoted.value)) && !HasParticipant(gone, userId)
    requires promoted.Some? ==> SeatedWith(before, gone, promoted.value, PreferencesOf(w, env.guildId, promoted.value), env.now)
    requires u != userId && promoted != Some(u) ==> SamePart(before, gone, TheRow(u)) && SamePart(before, gone, TheTenure(u))
    requires SamePart(before, gone, TheState) && (part != TheStamp && !part.TheRow? && !part.TheTenure? ==> SamePart(before, gone, part))
    requires SamePart(gone, after, TheRow(userId)) && SamePart(gone, after, TheRow(u)) && SamePart(gone, after, TheTenure(u))
    requires part !in MOVED ==> SamePart(gone, after, part)
    requires Departs(gone, after, reopens, env.now)
    ensures DepartedAs(before, after, w, env, userId, reopens, u, part)
  {
    hide ClockAnew, HasParticipant, PreferencesOf, WithoutPrompt;
    if promoted == Some(u) { RowStays(before, gone, after, u, PreferencesOf(w, env.guildId, u), env.now); }
  }

  lemma PromotedIsNew(lobby: Lobby, q: PQ.Queue, p: PQ.Queue, userId: int, promoted: Option<int>)
    requires SameRoster(lobby, q) && Without(q, p, userId, promoted)
    ensures promoted != Some(userId) && (promoted.Some? ==> !HasParticipant(lobby, promoted.value))
  {
    hide PQ.Has, PQ.Sound, HasParticipant;
  }

  /** What a player who leaves a live lobby leaves behind: no row of theirs; the row
      of one who is promoted, as the stored preferences say; every other row, and the
      rest, as it was; an open lobby in place of a ready check they were in. The
      lobby before is as the bootstrap of its queue leaves it. */
  lemma LeavesAsAsked(w: World, env: Env, id: string, userId: int, u: int, part: Part)
    requires WorldOk(w, env.interaction, {}) && Live(w, id) && w.store.lobbies[id].guildId == env.guildId
    requires LeaveLobby(w, env, id, userId).1.Ok?
    ensures var v, (e, q) := LeaveLobby(w, env, id, userId).0, EnsureQueue(w, env, w.store.lobbies[id]);
            && q.Ok? && id in e.store.lobbies && id in v.store.lobbies && v.preferences == w.preferences
            && DepartedAs(e.store.lobbies[id], v.store.lobbies[id], w, env, userId,
                          w.store.lobbies[id].state == ReadyCheck && PQ.Has(q.value.active, userId), u, part)
  {
    hide WorldOk, EnsureQueue, Departed, FollowDeparture, AfterLeave, PQ.Has, Ensured, DepartedAs, SamePart, Departs, SeatedWith, HasParticipant,
      StoreOk, OthersOk, LiveAt, OnlyAt, SameRoster, Led, Without, PQ.Sound;
    LiveThere(w, env, id, {});
    EnsuresLive(w, env, id, {});
    var lobby := w.store.lobbies[id];
    var (e, q) := EnsureQueue(w, env, lobby);
    EnsuredSame(w, e, env, id, {});
    EnsuredStore(w, e, env, id);
    EnsuredState(w, e, env, id);
    EnsuredQueue(w, env, lobby);
    LiveIs(w, env, id);
    LiveIs(e, env, id);
    var dropping := lobby.state == ReadyCheck && PQ.Has(q.value.active, userId);
    var (rest, promoted) := Departed(q.value, userId, dropping, env).value;
    DepartedWithout(q.value, userId, dropping, env);
    var before, m := e.store.lobbies[id], WithQueue(e, id, rest);
    PromotedIsNew(before, q.value, rest, userId, promoted);
    var gone := FollowsAllThrough(m, env, id, userId, promoted, "leave", "promote", u, part);
    var (f, fr) := FollowDeparture(m, env, id, userId, promoted, "leave", "promote");
    InOrder(f, env, id, {} + {"leave"} + {"promote"});
    LeaveEnds(f, env, gone, userId, dropping, {} + {"leave"} + {"promote"}, u, part);
    DepartedBy(before, gone, AfterLeave(f, env, gone, userId, dropping).1.value, w, env, userId, promoted, dropping, u, part);
  }

  lemma FollowsAllThrough(m: World, env: Env, id: string, userId: int, promoted: Option<int>, off: string, on: string, u: int, part: Part) returns (gone: Lobby)
    requires StoreOk(m.store, env.interaction, {}) && off != on && FollowDeparture(m, env, id, userId, promoted, off, on).1.Ok? && id in m.store.lobbies
    requires promoted != Some(userId)
    ensures var (v, r) := FollowDeparture(m, env, id, userId, promoted, off, on);
            && gone == r.value && StoreOk(v.store, env.interaction, {} + {off} + {on}) && v == m.(store := v.store)
            && id in v.store.lobbies && v.store.lobbies[id] == gone && !HasParticipant(gone, userId)
    ensures promoted.Some? ==> SeatedWith(m.store.lobbies[id], gone, promoted.value, PreferencesOf(m, env.guildId, promoted.value), env.now)
    ensures u != userId && promoted != Some(u) ==> SamePart(m.store.lobbies[id], gone, TheRow(u)) && SamePart(m.store.lobbies[id], gone, TheTenure(u))
    ensures SamePart(m.store.lobbies[id], gone, TheState) && (part != TheStamp && !part.TheRow? && !part.TheTenure? ==> SamePart(m.store.lobbies[id], gone, part))
  {
    hide StoreOk, FollowDeparture, SamePart, SeatedWith, HasParticipant;
    FollowGives(m, env, id, userId, promoted, off, on, {}, TheRow(u));
    FollowGives(m, env, id, userId, promoted, off, on, {}, TheTenure(u));
    FollowGives(m, env, id, userId, promoted, off, on, {}, TheState);
    FollowGives(m, env, id, userId, promoted, off, on, {}, part);
    gone := FollowDeparture(m, env, id, userId, promoted, off, on).1.value;
  }

  lemma LeaveEnds(f: World, env: Env, gone: Lobby, userId: int, dropping: bool, done: set<string>, u: int, part: Part)
    requires StoreOk(f.store, env.interaction, done) && TAIL !! done && AfterLeave(f, env, gone, userId, dropping).1.Ok?
    requires gone.lobbyId in f.store.lobbies && gone == f.store.lobbies[gone.lobbyId]
    ensures var (v, r) := AfterLeave(f, env, gone, userId, dropping);
            && gone.lobbyId in v.store.lobbies && r.value == v.store.lobbies[gone.lobbyId] && v == f.(store := v.store)
            && Departs(gone, r.value, dropping, env.now) && (part !in MOVED ==> SamePart(gone, r.value, part))
            && SamePart(gone, r.value, TheRow(userId)) && SamePart(gone, r.value, TheRow(u)) && SamePart(gone, r.value, TheTenure(u))
  {
    hide StoreOk, AfterLeave, SamePart, Departs;
    AfterLeaveGives(f, env, gone, userId, dropping, done, TheRow(userId));
    AfterLeaveGives(f, env, gone, userId, dropping, done, TheRow(u));
    AfterLeaveGives(f, env, gone, userId, dropping, done, TheTenure(u));
    AfterLeaveGives(f, env, gone, userId, dropping, done, part);
  }

  lemma DropEnds(f: World, env: Env, gone: Lobby, userId: int, done: set<string>, u: int, part: Part)
    requires StoreOk(f.store, env.interaction, done) && TAIL !! done && AfterDrop(f, env, gone, userId).1.Ok?
    requires gone.lobbyId in f.store.lobbies && gone == f.store.lobbies[gone.lobbyId]
    ensures var (v, r) := AfterDrop(f, env, gone, userId);
            && gone.lobbyId in v.store.lobbies && r.value == v.store.lobbies[gone.lobbyId] && v == f.(store := v.store)
            && Departs(gone, r.value, true, env.now) && (part !in MOVED ==> SamePart(gone, r.value, part))
            && SamePart(gone, r.value, TheRow(userId)) && SamePart(gone, r.value, TheRow(u)) && SamePart(gone, r.value, TheTenure(u))
  {
    hide StoreOk, AfterDrop, SamePart, Departs;
    AfterDropGives(f, env, gone, userId, done, TheRow(userId));
    AfterDropGives(f, env, gone, userId, done, TheRow(u));
    AfterDropGives(f, env, gone, userId, done, TheTenure(u));
    AfterDropGives(f, env, gone, userId, done, part);
  }

  /** The same for a player who drops out of a live lobby's ready check. */
  lemma DropsAsAsked(w: World, env: Env, id: string, userId: int, u: int, part: Part)
    requires WorldOk(w, env.interaction, {}) && Live(w, id) && w.store.lobbies[id].guildId == env.guildId
    requires AnswerReadyCheck(w, env, id, userId, PQ.Drop).1.Ok?
    ensures var v := AnswerReadyCheck(w, env, id, userId, PQ.Drop).0;
            && id in v.store.lobbies && v.preferences == w.preferences
            && DepartedAs(w.store.lobbies[id], v.store.lobbies[id], w, env, userId, true, u, part)
  {
    hide WorldOk, FollowDeparture, AfterDrop, PQ.Has, DepartedAs, SamePart, Departs, SeatedWith, HasParticipant, EveryoneReady, ToForming, PQ.Responded,
      OthersOk, LiveAt, OnlyAt, SameRoster, Led, Without, PQ.Sound, StoreOk;
    LiveThere(w, env, id, {});
    LiveIs(w, env, id);
    OthersStore(w, id, env.interaction, {});
    var q, before := w.queues[id], w.store.lobbies[id];
    var (rest, promoted) := PQ.Responded(q, userId, PQ.Drop, env.now, env.config).value;
    DroppedWithout(q, userId, env.now, env.config);
    PromotedIsNew(before, q, rest, userId, promoted);
    var m := WithQueue(w, id, rest);
    var gone := FollowsAllThrough(m, env, id, userId, promoted, "ready-drop", "ready-promote", u, part);
    var (f, fr) := FollowDeparture(m, env, id, userId, promoted, "ready-drop", "ready-promote");
    InOrder(f, env, id, {} + {"ready-drop"} + {"ready-promote"});
    DropEnds(f, env, gone, userId, {} + {"ready-drop"} + {"ready-promote"}, u, part);
    DepartedBy(before, gone, AfterDrop(f, env, gone, userId).1.value, w, env, userId, promoted, true, u, part);
  }

  lemma OthersStore(w: World, id: string, interaction: int, done: set<string>)
    requires OthersOk(w, id, interaction, done)
    ensures StoreOk(w.store, interaction, done) && id in w.store.lobbies
  {
  }
}
