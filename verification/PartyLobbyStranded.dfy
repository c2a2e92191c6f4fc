/** A run in which nobody is late and the lobby is left behind: capacity four, a
    ready check with two, a third player joins, all three answer Ready. */
module PartyLobbyStranded {
  import opened Common
  import opened PartyStore
  import opened PartyStoreInvariant
  import opened PartyLobby
  import opened PartyLobbySteps
  import opened PartyLobbyRoster
  import opened PartyLobbyStages
  import opened PartyLobbyHandlers
  import opened PartyLobbyCalls
  import opened PartyLobbyRuns
  import opened PartyLobbyTheorems
  import opened PartyLobbyHistory
  import PQ = PartyQueue

  const NAMING := Naming((guildId, op) => "L", (lobbyId, salt) => "C")

  const CONFIG := PQ.Config(300, 60, 1, true)

  const CARD := Metadata("custom", "", "", false, "", "")

  function At(interaction: int, now: int): Env { Env(7, interaction, now, [], NAMING, CONFIG) }

  const RUN := [
    Call(At(1, 0), Creates(1, 4, CARD, "", 60)), Call(At(2, 0), Joins("L", 2, NO_PREFERENCES)), Call(At(3, 0), Starts("L", 1)),
    Call(At(4, 0), Joins("L", 3, NO_PREFERENCES)), Call(At(5, 0), Answers("L", 1, PQ.Ready)), Call(At(6, 0), Answers("L", 2, PQ.Ready)),
    Call(At(7, 0), Answers("L", 3, PQ.Ready)), Call(At(8, 300), TimePasses(["L"]))]

  // ---- The scene --------------------------------------------------------------------------

  /** Only earlier interactions have recorded anything. */
  ghost predicate Fresh(audit: seq<Event>, k: int) {
    forall i :: 0 <= i < |audit| && audit[i].operation.Discord? ==> audit[i].operation.interaction < k
  }

  ghost predicate LobbyIs(lobby: Lobby, state: LobbyState) {
    lobby.lobbyId == "L" && lobby.guildId == 7 && lobby.organizerId == 1 && lobby.capacity == 4 && lobby.state == state
  }

  ghost predicate QueueIs(q: PQ.Queue, checking: bool, users: seq<int>, ready: map<int, PQ.ReadyStatus>) {
    && q.capacity == 4 && PQ.Ids(q.active) == users && q.waitlist == [] && q.ready == ready
    && (if checking then q.status == PQ.ReadyCheck && q.deadline == Some(300) else q.status == PQ.Open)
  }

  /** The one lobby there is, before call `k`. */
  ghost predicate Scene(w: World, k: int, checking: bool, users: seq<int>, ready: map<int, PQ.ReadyStatus>) {
    && Fresh(w.store.audit, k) && (forall id :: id in w.store.lobbies <==> id == "L") && "L" in w.queues
    && LobbyIs(w.store.lobbies["L"], if checking then ReadyCheck else Open) && QueueIs(w.queues["L"], checking, users, ready)
  }

  lemma FreshOk(w: World, k: int)
    requires Agreed(w) && Fresh(w.store.audit, k)
    ensures WorldOk(w, k, {})
  {
    hide Ordered, OperationsPast, QueuesSound, AllSettled, Solo;
  }

  /** Every command records at most its own operation. */
  lemma FreshStays(w: World, c: Command, env: Env, k: int)
    requires AboutOneLobby(c) && c.op.Discord? && c.op.interaction < k && Fresh(w.store.audit, k)
    ensures Fresh(Do(w, c, env).0.store.audit, k)
  {
    hide Edited, MarkOf, IndexOf, FreeCode, NewLobby;
  }

  lemma SweepsNothing(w: World, env: Env, inGuild: Option<int>)
    requires env.rows == []
    ensures Swept(w, env, inGuild) == (w, None)
  {
  }

  // ---- The calls --------------------------------------------------------------------------

  lemma JoinsQueue(q: PQ.Queue, checking: bool, users: seq<int>, ready: map<int, PQ.ReadyStatus>, u: int)
    requires QueueIs(q, checking, users, ready) && u !in users && |users| < 4
    ensures PQ.Joined(q, u, []).Ok? && PQ.Joined(q, u, []).value.1 == PQ.ToActive
    ensures QueueIs(PQ.Joined(q, u, []).value.0, checking, users + [u], ready)
  {
    assert PQ.Everyone(q) == q.active;
    HasIsInIds(q.active, u);
    var p := PQ.Joined(q, u, []).value.0;
    assert PQ.Ids(p.active) == PQ.Ids(q.active) + [u];
  }

  lemma JoinScene(w: World, k: int, checking: bool, users: seq<int>, ready: map<int, PQ.ReadyStatus>, u: int)
    requires Agreed(w) && Scene(w, k, checking, users, ready) && u !in users && |users| < 3
    ensures Scene(Handle(w, At(k, 0), Joins("L", u, NO_PREFERENCES)), k + 1, checking, users + [u], ready)
  {
    hide Agreed, WorldOk, EnsureQueue, JoinQueue, Swept, Fresh, QueueIs;
    var env := At(k, 0);
    FreshOk(w, k);
    SweepsNothing(w, env, Some(7));
    assert !Booked(w, 7, u, Some("L"));
    var told := w.(preferences := w.preferences[(7, u) := NO_PREFERENCES]);
    PreferencesKeep(w, told.preferences, k, {});
    SceneCapacity(w, k, checking, users, ready);
    EnsureIsIdle(told, env, "L");
    JoinsOn(told, k, checking, users, ready, u);
  }

  lemma SceneCapacity(w: World, k: int, checking: bool, users: seq<int>, ready: map<int, PQ.ReadyStatus>)
    requires Scene(w, k, checking, users, ready)
    ensures "L" in w.queues && "L" in w.store.lobbies && w.queues["L"].capacity == w.store.lobbies["L"].capacity == 4 && Live(w, "L")
  {
  }

  lemma JoinsOn(w: World, k: int, checking: bool, users: seq<int>, ready: map<int, PQ.ReadyStatus>, u: int)
    requires WorldOk(w, k, {}) && Scene(w, k, checking, users, ready) && u !in users && |users| < 3
    ensures Scene(JoinQueue(w, At(k, 0), w.store.lobbies["L"], w.queues["L"], u, NO_PREFERENCES).0, k + 1, checking, users + [u], ready)
  {
    hide WorldOk, Fresh, QueueIs, StoreOk, Makes, Edited, Do, PQ.Joined, Seated, OnlyAt, PartyLobby.Touched, Used;
    var env, lobby, q := At(k, 0), w.store.lobbies["L"], w.queues["L"];
    SeatsFree(w, k, checking, users, ready);
    JoinsQueue(q, checking, users, ready, u);
    var p := PQ.Joined(q, u, []).value.0;
    var m := WithQueue(w, "L", p);
    var c := SaveParticipant(7, "L", Seat(u, NO_PREFERENCES, 0), Discord(k, "join", 0));
    var changed, kind := SaveMakes(lobby, c, 0);
    StoreStepIsNew(w.store, k, {}, "join", 0);
    DoMakes(m, c, env, changed, kind, {}, {"join"});
    FreshLater(w.store.audit, k);
    FreshStays(m, c, env, k + 1);
    SeatedLives(lobby, changed, u);
    var v := Do(m, c, env).0;
    TouchScene(v, k, checking, {"join"});
    NotFullYet(p, checking, users + [u], ready);
    assert RoleList(NO_PREFERENCES) == [];
    assert Save(m, env, "L", u, NO_PREFERENCES, c.op) == (v, Ok(changed));
    var (t, r) := PartyLobby.Touched(v, env, changed);
    assert JoinQueue(w, env, lobby, q, u, NO_PREFERENCES).0 == t;
    assert t.queues == m.queues;
    assert forall id :: id in t.store.lobbies <==> id in t.store.lobbies.Keys;
  }

  lemma FreshLater(audit: seq<Event>, k: int)
    requires Fresh(audit, k)
    ensures Fresh(audit, k + 1)
  {
  }

  lemma NotFullYet(q: PQ.Queue, checking: bool, users: seq<int>, ready: map<int, PQ.ReadyStatus>)
    requires QueueIs(q, checking, users, ready) && |users| < 4
    ensures |q.active| != q.capacity && |q.active| == |users|
  {
    assert |PQ.Ids(q.active)| == |q.active|;
  }

  /** Three seats at most are taken on the roster, and its operations are new. */
  lemma SeatsFree(w: World, k: int, checking: bool, users: seq<int>, ready: map<int, PQ.ReadyStatus>)
    requires WorldOk(w, k, {}) && Scene(w, k, checking, users, ready) && |users| < 4
    ensures StoreOk(w.store, k, {}) && ValidLobby(w.store.lobbies["L"]) && |w.store.lobbies["L"].participants| < 4
  {
    hide StoreOk, Fresh;
    ValidDead(w, "L", k, {});
    SettledThere(w, "L", k);
    SoundThere(w, "L", k, {});
    RosterSize(w.store.lobbies["L"], w.queues["L"]);
    NotFullYet(w.queues["L"], checking, users, ready);
  }

  /** The activity clock moves, or is left alone in a ready check. */
  lemma TouchScene(w: World, k: int, checking: bool, done: set<string>)
    requires StoreOk(w.store, k, done) && "touch" !in done && "L" in w.store.lobbies && Fresh(w.store.audit, k + 1)
    requires LobbyIs(w.store.lobbies["L"], if checking then ReadyCheck else Open)
    ensures var (v, r) := PartyLobby.Touched(w, At(k, 0), w.store.lobbies["L"]);
            && v == w.(store := v.store) && v.store.lobbies.Keys == w.store.lobbies.Keys && Fresh(v.store.audit, k + 1)
            && r.Ok? && LobbyIs(v.store.lobbies["L"], if checking then ReadyCheck else Open) && r.value == v.store.lobbies["L"]
  {
    hide StoreOk, Makes, Edited, Do, OnlyAt, Fresh, Used;
    var env, c := At(k, 0), Touch(7, "L", Discord(k, "touch", 0), 60);
    if !checking {
      var changed := TouchIs(w.store.lobbies["L"], c);
      StoreStepIsNew(w.store, k, done, "touch", 0);
      DoMakes(w, c, env, changed, EventKind.Touched, done, done + {"touch"});
      FreshStays(w, c, env, k + 1);
      assert w.store.lobbies["L" := changed].Keys == w.store.lobbies.Keys;
    }
  }

  lemma TouchIs(lobby: Lobby, c: Command) returns (changed: Lobby)
    requires LobbyIs(lobby, Open) && c.Touch?
    ensures Makes(lobby, c, 0, changed, EventKind.Touched) && LobbyIs(changed, Open)
  {
    changed := Edited(lobby, c, 0).value.value.0;
  }

  lemma StartScene(w: World, k: int, users: seq<int>)
    requires Agreed(w) && Scene(w, k, false, users, map[]) && |users| == 2
    ensures Scene(Handle(w, At(k, 0), Starts("L", 1)), k + 1, true, users, map[])
  {
    hide Agreed, WorldOk, EnsureQueue, Fresh, StoreOk, Makes, Edited, Do, OnlyAt, Used;
    var env, lobby, q := At(k, 0), w.store.lobbies["L"], w.queues["L"];
    FreshOk(w, k);
    SceneCapacity(w, k, false, users, map[]);
    EnsureIsIdle(w, env, "L");
    NotFullYet(q, false, users, map[]);
    SeatsFree(w, k, false, users, map[]);
    var m := WithQueue(w, "L", PQ.ReadyCheckStarted(q, 0, CONFIG).value);
    var c := Transition(7, "L", ReadyCheck, Discord(k, "ready-check", 0), None);
    var changed := NextVersion(lobby.(state := ReadyCheck), 0);
    MoveMakes(lobby, c, changed, 0);
    StoreStepIsNew(w.store, k, {}, "ready-check", 0);
    DoMakes(m, c, env, changed, Transitioned, {}, {"ready-check"});
    FreshLater(w.store.audit, k);
    FreshStays(m, c, env, k + 1);
    assert Handle(w, env, Starts("L", 1)) == Do(m, c, env).0;
  }

  /** One more player is ready, and the roster is odd or somebody is not. */
  lemma AnswerScene(w: World, k: int, users: seq<int>, ready: map<int, PQ.ReadyStatus>, u: int)
    requires Scene(w, k, true, users, ready) && u in users && |users| == 3
    ensures Scene(Handle(w, At(k, 0), Answers("L", u, PQ.Ready)), k + 1, true, users, ready[u := PQ.Ready])
  {
    hide Fresh, EveryoneReady, PQ.Has;
    var q := w.queues["L"];
    HasIsInIds(q.active, u);
    FreshLater(w.store.audit, k);
    NotFullYet(q, true, users, ready);
    var p := PQ.Responded(q, u, PQ.Ready, 0, CONFIG).value.0;
    assert Handle(w, At(k, 0), Answers("L", u, PQ.Ready)) == WithQueue(w, "L", p);
  }

  lemma CodeIsFree()
    ensures FreeCode(EMPTY_STORE, 7, "L", NAMING, 0) == Some("C") && !IsSpace("L")
  {
    assert !CodeInUse(EMPTY_STORE, 7, "C");
    assert "L"[0] !in " \t\n\r";
  }

  function FirstLobby(): Lobby { Lobby("L", 7, 1, 4, Open, [], NO_DELIVERY, 0, 0, Some(60), 1, CARD, "C", "") }

  lemma Created()
    ensures var c := Create(7, 1, 4, Some(60), None, Discord(1, "create", 0), NO_DELIVERY, CARD, "");
            var (w, r) := Do(EMPTY_WORLD, c, At(1, 0));
            && r == Ok(FirstLobby()) && w.store.lobbies == map["L" := FirstLobby()] && w.queues == map[] && w.preferences == map[]
            && Fresh(w.store.audit, 2) && Ordered(w.store) && OnlySteps(w.store.audit, 1, {"create"}) && OperationsPast(w.store)
  {
    hide CodeInUse, FreeCode, IsSpace, Ordered;
    CodeIsFree();
    var c := Create(7, 1, 4, Some(60), None, Discord(1, "create", 0), NO_DELIVERY, CARD, "");
    CreateKeeps(EMPTY_STORE, c, NAMING, 0) by { EmptyOrdered(); }
  }

  lemma EmptyOrdered()
    ensures Ordered(EMPTY_STORE)
  {
  }

  lemma CreateScene()
    ensures Scene(Handle(EMPTY_WORLD, At(1, 0), Creates(1, 4, CARD, "", 60)), 2, false, [1], map[])
  {
    hide Fresh, Do, Makes, Edited, Ordered, OnlySteps, OperationsPast, OnlyAt, Used;
    var env := At(1, 0);
    SweepsNothing(EMPTY_WORLD, env, Some(7));
    Created();
    var created := Do(EMPTY_WORLD, Create(7, 1, 4, Some(60), None, Discord(1, "create", 0), NO_DELIVERY, CARD, ""), env).0;
    var c := SaveParticipant(7, "L", Seat(1, NO_PREFERENCES, 0), Discord(1, "organizer", 0));
    assert UserIds([]) == [];
    var changed, kind := SaveMakes(FirstLobby(), c, 0);
    StoreStepIsNew(created.store, 1, {"create"}, "organizer", 0);
    DoMakes(created, c, env, changed, kind, {"create"}, {"create", "organizer"});
    FreshStays(created, c, env, 2);
    OneSeat(changed);
    assert !Booked(EMPTY_WORLD, 7, 1, None);
    FirstJoins(changed);
  }

  lemma OneSeat(lobby: Lobby)
    requires Seated(FirstLobby(), lobby, 1)
    ensures |lobby.participants| == 1 && lobby.participants[0].userId == 1 && LobbyIs(lobby, Open)
  {
    assert UserIds([]) == [] && UserIds(lobby.participants)[0] == lobby.participants[0].userId;
    assert HasParticipant(lobby, lobby.participants[0].userId);
  }

  lemma FirstJoins(lobby: Lobby)
    requires |lobby.participants| == 1 && lobby.participants[0].userId == 1
    ensures var q := JoinMissing(PQ.NewQueue(4), lobby.participants, PQ.NewQueue(4));
            q.Ok? && QueueIs(q.value, false, [1], map[])
  {
    assert lobby.participants[1..] == [];
    assert PQ.Everyone(PQ.NewQueue(4)) == [];
  }

  // ---- The run ----------------------------------------------------------------------------

  lemma Longer(n: nat)
    requires n < |RUN| && GoodRun(RUN[..n]) && MayCall(Play(RUN[..n]), RUN[n].env, RUN[n].action)
    ensures GoodRun(RUN[..n + 1]) && Play(RUN[..n + 1]) == Handle(Play(RUN[..n]), RUN[n].env, RUN[n].action)
  {
    hide MayCall, Handle;
    assert RUN[..n + 1][..n] == RUN[..n];
  }

  lemma SceneMayCall(w: World, k: int, checking: bool, users: seq<int>, ready: map<int, PQ.ReadyStatus>, a: Action)
    requires Scene(w, k, checking, users, ready)
    ensures MayCall(w, At(k, 0), a) && MayCall(w, At(k, 300), a)
  {
  }

  /** After three calls the check runs with two players. */
  lemma CheckBegins()
    ensures GoodRun(RUN[..3]) && Scene(Play(RUN[..3]), 4, true, [1] + [2], map[])
  {
    hide Scene, Handle, MayCall, Agreed, GoodRun, Play;
    NothingYet();
    Longer(0);
    CreateScene();
    SceneMayCall(Play(RUN[..1]), 2, false, [1], map[], RUN[1].action);
    Longer(1);
    RunsAgree(RUN[..1]);
    JoinScene(Play(RUN[..1]), 2, false, [1], map[], 2);
    SceneMayCall(Play(RUN[..2]), 3, false, [1] + [2], map[], RUN[2].action);
    Longer(2);
    RunsAgree(RUN[..2]);
    StartScene(Play(RUN[..2]), 3, [1] + [2]);
  }

  lemma NothingYet()
    ensures GoodRun(RUN[..0]) && Play(RUN[..0]) == EMPTY_WORLD && MayCall(EMPTY_WORLD, RUN[0].env, RUN[0].action)
  {
  }

  const ALL_READY: map<int, PQ.ReadyStatus> := map[][1 := PQ.Ready][2 := PQ.Ready][3 := PQ.Ready]

  /** A third player joins the check, and the three answer. */
  lemma AllAnswer()
    ensures GoodRun(RUN[..7]) && Scene(Play(RUN[..7]), 8, true, [1] + [2] + [3], ALL_READY)
  {
    hide Scene, Handle, MayCall, Agreed, GoodRun, Play;
    CheckBegins();
    var none: map<int, PQ.ReadyStatus> := map[];
    var users := [1] + [2] + [3];
    SceneMayCall(Play(RUN[..3]), 4, true, [1] + [2], none, RUN[3].action);
    Longer(3);
    RunsAgree(RUN[..3]);
    JoinScene(Play(RUN[..3]), 4, true, [1] + [2], none, 3);
    SceneMayCall(Play(RUN[..4]), 5, true, users, none, RUN[4].action);
    Longer(4);
    AnswerScene(Play(RUN[..4]), 5, users, none, 1);
    SceneMayCall(Play(RUN[..5]), 6, true, users, none[1 := PQ.Ready], RUN[5].action);
    Longer(5);
    AnswerScene(Play(RUN[..5]), 6, users, none[1 := PQ.Ready], 2);
    SceneMayCall(Play(RUN[..6]), 7, true, users, none[1 := PQ.Ready][2 := PQ.Ready], RUN[6].action);
    Longer(6);
    AnswerScene(Play(RUN[..6]), 7, users, none[1 := PQ.Ready][2 := PQ.Ready], 3);
  }

  lemma EverybodyAnswered(w: World)
    requires Scene(w, 8, true, [1] + [2] + [3], ALL_READY)
    ensures Overdue(w, "L", 300) && AllAnsweredReady(w.queues["L"])
  {
    var q := w.queues["L"];
    forall m | m in q.active ensures m.userId in q.ready && q.ready[m.userId] == PQ.Ready {
      var i :| 0 <= i < |q.active| && q.active[i] == m;
      assert PQ.Ids(q.active)[i] == m.userId;
    }
  }

  lemma TimePassesScene(w: World)
    requires Agreed(w) && Scene(w, 8, true, [1] + [2] + [3], ALL_READY)
    ensures Stranded(Handle(w, At(8, 300), TimePasses(["L"])), "L", 7)
  {
    hide Agreed, WorldOk, TimeOutOne, Fresh, QueueIs, PQ.Expired;
    var env := At(8, 300);
    FreshOk(w, 8);
    SweepsNothing(w, env, None);
    EverybodyAnswered(w);
    TimeoutClosesWhenSomebodyIsLate(w, env, "L");
    TimedOutIs(w, env);
    var v, failed := TimeOutOne(w, env, w.store.lobbies["L"]).0, TimeOutOne(w, env, w.store.lobbies["L"]).1;
    assert ["L"][1..] == [];
    assert TimeOut(w, env, ["L"]).0 == v;
  }

  lemma TimedOutIs(w: World, env: Env)
    requires Scene(w, 8, true, [1] + [2] + [3], ALL_READY) && env == At(8, 300)
    ensures "L" in TimeOutOne(w, env, w.store.lobbies["L"]).0.queues && TimeOutOne(w, env, w.store.lobbies["L"]).0.queues["L"].capacity == 4
  {
    hide Exec, PQ.NotReady;
  }

  /** The run ends with the lobby live in READY_CHECK and its queue cancelled, though
      everybody had answered Ready before the deadline. */
  lemma AReadyRosterIsStranded()
    ensures GoodRun(RUN) && Stranded(Play(RUN), "L", 7)
    ensures GoodRun(RUN[..7]) && Overdue(Play(RUN[..7]), "L", 300) && AllAnsweredReady(Play(RUN[..7]).queues["L"])
  {
    hide Scene, Handle, MayCall, Agreed, GoodRun, Play, Overdue, AllAnsweredReady, Stranded;
    AllAnswer();
    var w := Play(RUN[..7]);
    EverybodyAnswered(w);
    SceneMayCall(w, 8, true, [1] + [2] + [3], ALL_READY, RUN[7].action);
    Longer(7);
    RunsAgree(RUN[..7]);
    TimePassesScene(w);
    assert RUN[..8] == RUN;
  }
}
