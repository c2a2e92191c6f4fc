/** A night becomes a lobby: its roster is the seated line, its queue the whole
    line; and a conversion cut short anywhere is taken up where it ended. */
module ScheduledLobbyTheorems {
  import opened Common
  import opened PartyStore
  import opened PartyStoreInvariant
  import opened PartyLobby
  import opened PartyLobbySteps
  import opened PartyLobbyStages
  import opened ScheduledLobby
  import PQ = PartyQueue
  import R = PartyLobbyRoster
  import S = PartySchedule
  import ST = PartyScheduleTheorems
  import SL = PartyScheduleLine

  // ---- What the log says of a night -------------------------------------------------------

  /** No operation of this night is recorded. */
  ghost predicate NoNightOps(audit: seq<Event>, eventId: string) {
    forall i :: 0 <= i < |audit| && audit[i].operation.NightOp? ==> audit[i].operation.eventId != eventId
  }

  /** The command's operation is free, or recorded for this very command. */
  ghost predicate Logged(store: Store, c: Command, yes: bool)
    requires !c.Create? && !c.ExpireDue?
  {
    Recorded(store, c.op, MarkOf(c)) == Ok(yes)
  }

  ghost predicate CreateLogged(store: Store, night: S.Night) {
    var op := CreateCommand(night).op;
    && Recorded(store, op, CreateMark(night.guildId, LobbyIdOf(night))) == Ok(true)
    && store.audit[IndexOf(store.audit, op)].lobbyId == LobbyIdOf(night)
  }

  /** The lobby is recorded, the first `a` seats are, and the moves up to `state`. */
  ghost predicate LogIs(store: Store, b: Booking, a: nat, state: LobbyState) {
    && CreateLogged(store, b.night)
    && (forall i :: 0 <= i < |b.seated| ==> Logged(store, SaveCommand(b.night, b.seated[i]), i < a))
    && Logged(store, MoveCommand(b.night, Full, "full"), state != Open)
    && Logged(store, MoveCommand(b.night, ReadyCheck, "ready-check"), state == ReadyCheck)
  }

  lemma IndexAppends(audit: seq<Event>, e: Event, op: OperationId)
    ensures IndexOf(audit + [e], op) ==
              if IndexOf(audit, op) < |audit| then IndexOf(audit, op) else if e.operation == op then |audit| else |audit| + 1
  {
    var i, k := IndexOf(audit, op), IndexOf(audit + [e], op);
    var all := audit + [e];
    assert i < |audit| ==> all[i].operation == op;
    assert k < |audit| ==> audit[k].operation == op;
    assert forall j :: 0 <= j < |audit| ==> all[j] == audit[j];
    assert all[|audit|] == e;
  }

  /** One command, and no other, was recorded between the two stores. */
  ghost predicate OneMore(before: Store, after: Store, c: Command)
    requires !c.Create? && !c.ExpireDue?
  {
    Logged(before, c, false) && exists e :: after.audit == before.audit + [e] && e.operation == c.op && e.fingerprint == MarkOf(c)
  }

  lemma OneMoreLogs(before: Store, after: Store, c: Command, d: Command, yes: bool)
    requires !c.Create? && !c.ExpireDue? && OneMore(before, after, c) && !d.Create? && !d.ExpireDue?
    ensures Logged(after, c, true)
    ensures c.op != d.op && Logged(before, d, yes) ==> Logged(after, d, yes)
  {
    hide IndexOf, MarkOf, IsBlank;
    var e :| after.audit == before.audit + [e] && e.operation == c.op && e.fingerprint == MarkOf(c);
    IndexAppends(before.audit, e, c.op);
    IndexAppends(before.audit, e, d.op);
    assert after.audit[|before.audit|] == e;
  }

  lemma CreateStaysLogged(before: Store, after: Store, c: Command, night: S.Night)
    requires !c.Create? && !c.ExpireDue? && OneMore(before, after, c) && CreateLogged(before, night)
    ensures CreateLogged(after, night)
  {
    hide IndexOf, MarkOf, IsBlank, LobbyIdOf;
    var e :| after.audit == before.audit + [e] && e.operation == c.op && e.fingerprint == MarkOf(c);
    IndexAppends(before.audit, e, CreateCommand(night).op);
  }

  lemma SaveLogs(before: Store, after: Store, b: Booking, a: nat, state: LobbyState)
    requires a < |b.seated| && Distinct(S.Users(b.seated)) && LogIs(before, b, a, state)
    requires OneMore(before, after, SaveCommand(b.night, b.seated[a]))
    ensures LogIs(after, b, a + 1, state)
  {
    hide CreateLogged, Logged, OneMore, LobbyIdOf;
    var c := SaveCommand(b.night, b.seated[a]);
    CreateStaysLogged(before, after, c, b.night);
    OneMoreLogs(before, after, c, MoveCommand(b.night, Full, "full"), state != Open);
    OneMoreLogs(before, after, c, MoveCommand(b.night, ReadyCheck, "ready-check"), state == ReadyCheck);
    forall i | 0 <= i < |b.seated| ensures Logged(after, SaveCommand(b.night, b.seated[i]), i < a + 1) {
      assert i != a ==> S.Users(b.seated)[i] != S.Users(b.seated)[a];
      OneMoreLogs(before, after, c, SaveCommand(b.night, b.seated[i]), i < a);
    }
  }

  lemma MoveLogs(before: Store, after: Store, b: Booking, a: nat, full: bool)
    requires LogIs(before, b, a, if full then Full else Open)
    requires OneMore(before, after, if full then MoveCommand(b.night, ReadyCheck, "ready-check") else MoveCommand(b.night, Full, "full"))
    ensures LogIs(after, b, a, if full then ReadyCheck else Full)
  {
    hide CreateLogged, Logged, OneMore, LobbyIdOf;
    var f, r := MoveCommand(b.night, Full, "full"), MoveCommand(b.night, ReadyCheck, "ready-check");
    var c := if full then r else f;
    CreateStaysLogged(before, after, c, b.night);
    OneMoreLogs(before, after, c, f, full);
    OneMoreLogs(before, after, c, r, false);
    forall i | 0 <= i < |b.seated| ensures Logged(after, SaveCommand(b.night, b.seated[i]), i < a) {
      OneMoreLogs(before, after, c, SaveCommand(b.night, b.seated[i]), i < a);
    }
  }

  // ---- A conversion half done -------------------------------------------------------------

  ghost predicate RosterIs(lobby: Lobby, night: S.Night, users: seq<int>) {
    && lobby.lobbyId == LobbyIdOf(night) && lobby.guildId == night.guildId && lobby.organizerId == night.organizerId
    && lobby.capacity == night.capacity && ValidLobby(lobby) && !IsTerminal(lobby.state)
    && |lobby.participants| == |users| && (forall u :: HasParticipant(lobby, u) <==> u in users)
  }

  ghost predicate QueueIs(q: PQ.Queue, night: S.Night, users: seq<int>, waiting: seq<int>) {
    q.capacity == night.capacity && PQ.Ids(q.active) == users && PQ.Ids(q.waitlist) == waiting
  }

  /** The first `a` of the seated are on the lobby's roster. */
  ghost predicate StoreHalf(store: Store, b: Booking, a: nat, state: LobbyState) {
    && a <= |b.seated| && Ordered(store) && LobbyIdOf(b.night) in store.lobbies && LogIs(store, b, a, state)
    && RosterIs(store.lobbies[LobbyIdOf(b.night)], b.night, S.Users(b.seated)[..a]) && store.lobbies[LobbyIdOf(b.night)].state == state
  }

  /** The first `j` of the seated are active in the queue, the first `c` of the
      waiting wait. */
  ghost predicate QueueHalf(queues: map<string, PQ.Queue>, b: Booking, j: nat, c: nat, status: PQ.QueueStatus) {
    && j <= |b.seated| && c <= |b.waiting| && LobbyIdOf(b.night) in queues && queues[LobbyIdOf(b.night)].status == status
    && QueueIs(queues[LobbyIdOf(b.night)], b.night, S.Users(b.seated)[..j], S.Users(b.waiting)[..c])
  }

  ghost predicate Half(w: World, b: Booking, a: nat, j: nat, c: nat, state: LobbyState, status: PQ.QueueStatus) {
    StoreHalf(w.store, b, a, state) && QueueHalf(w.queues, b, j, c, status)
  }

  /** A line decoded: nobody twice, and nobody waits while a seat is free. */
  ghost predicate GoodBooking(b: Booking) {
    && Distinct(S.Users(b.seated) + S.Users(b.waiting)) && |b.seated| <= b.night.capacity && b.night.capacity >= 2
    && (b.waiting != [] ==> |b.seated| == b.night.capacity)
  }

  lemma SeatedApart(b: Booking)
    requires GoodBooking(b)
    ensures Distinct(S.Users(b.seated))
  {
    var all, s := S.Users(b.seated) + S.Users(b.waiting), S.Users(b.seated);
    forall i, j | 0 <= i < j < |s| ensures s[i] != s[j] { assert all[i] != all[j]; }
  }

  /** A command of the night that is recorded is only answered. */
  lemma Replays(w: World, env: Env, b: Booking, a: nat, state: LobbyState, c: Command)
    requires StoreHalf(w.store, b, a, state) && (c.SaveParticipant? || c.Transition?)
    requires c.guildId == b.night.guildId && c.lobbyId == LobbyIdOf(b.night) && Logged(w.store, c, true)
    ensures Do(w, c, env) == (w, Ok(w.store.lobbies[LobbyIdOf(b.night)]))
  {
    hide Ordered, LogIs, IndexOf, MarkOf, LobbyIdOf;
  }

  /** A command of the night that is not recorded makes its change. */
  lemma NightStep(w: World, env: Env, b: Booking, a: nat, state: LobbyState, c: Command, changed: Lobby, kind: EventKind)
    requires StoreHalf(w.store, b, a, state) && (c.SaveParticipant? || c.Transition?)
    requires c.guildId == b.night.guildId && c.lobbyId == LobbyIdOf(b.night) && Logged(w.store, c, false)
    requires Makes(w.store.lobbies[LobbyIdOf(b.night)], c, env.now, changed, kind)
    ensures var (v, r) := Do(w, c, env);
            && r == Ok(changed) && v == w.(store := v.store) && v.store.lobbies == w.store.lobbies[c.lobbyId := changed]
            && Ordered(v.store) && OneMore(w.store, v.store, c)
  {
    hide Ordered, LogIs, Edited, Makes, Exec, QueueIs, LobbyIdOf, MarkOf, IndexOf;
    var lobby := w.store.lobbies[c.lobbyId];
    EditGrows(lobby, c, env.now, changed, kind);
    StepCommits(w.store, c, env.naming, env.now, changed, kind);
    var next := Commit(w.store, changed, c.op, MarkOf(c), kind, Some(lobby.state), env.now);
    assert next.audit == w.store.audit + [next.audit[|w.store.audit|]];
  }

  // ---- Seating ----------------------------------------------------------------------------

  lemma EnqueueAdds(w: World, night: S.Night, q: PQ.Queue, users: seq<int>, waiting: seq<int>, u: int, roles: seq<string>)
    requires QueueIs(q, night, users, waiting) && q.status != PQ.Cancelled && u !in users && u !in waiting
    requires LobbyIdOf(night) in w.queues && w.queues[LobbyIdOf(night)] == q
    ensures var (v, failed) := Enqueue(w, LobbyIdOf(night), u, roles);
            && failed == None && v == w.(queues := v.queues) && LobbyIdOf(night) in v.queues && v.queues[LobbyIdOf(night)].status == q.status
            && QueueIs(v.queues[LobbyIdOf(night)], night, if |users| < night.capacity then users + [u] else users,
                       if |users| < night.capacity then waiting else waiting + [u])
  {
    R.HasIsInIds(PQ.Everyone(q), u);
    IdsOfBoth(q.active, q.waitlist);
    var m := PQ.Member(u, PQ.DistinctRoles(roles), q.nextSequence);
    IdsOfBoth(q.active, [m]);
    IdsOfBoth(q.waitlist, [m]);
  }

  lemma IdsOfBoth(a: seq<PQ.Member>, b: seq<PQ.Member>)
    ensures PQ.Ids(a + b) == PQ.Ids(a) + PQ.Ids(b)
  {
  }

  lemma RosterGrows(lobby: Lobby, after: Lobby, night: S.Night, users: seq<int>, u: int)
    requires RosterIs(lobby, night, users) && Seated(lobby, after, u) && u !in users && |users| < night.capacity && Distinct(UserIds(after.participants))
    ensures RosterIs(after, night, users + [u])
  {
    hide HasParticipant;
    forall v ensures HasParticipant(after, v) <==> v in users + [u] { assert HasParticipant(lobby, v) <==> v in users; }
  }

  lemma ValidInStore(store: Store, id: string)
    requires Ordered(store) && id in store.lobbies
    ensures ValidLobby(store.lobbies[id])
  {
  }

  // ---- Seating, from wherever it stopped --------------------------------------------------

  lemma SaveIsLogged(store: Store, b: Booking, a: nat, state: LobbyState, i: nat)
    requires LogIs(store, b, a, state) && i < |b.seated|
    ensures Logged(store, SaveCommand(b.night, b.seated[i]), i < a)
  {
  }

  /** The next player takes a seat. */
  lemma Saves(w: World, env: Env, b: Booking, a: nat)
    requires GoodBooking(b) && StoreHalf(w.store, b, a, Open) && a < |b.seated|
    ensures var (v, r) := Do(w, SaveCommand(b.night, b.seated[a]), env);
            r.Ok? && v == w.(store := v.store) && StoreHalf(v.store, b, a + 1, Open)
  {
    hide Ordered, LogIs, Logged, OneMore, Edited, Makes, Do, LobbyIdOf, GoodBooking;
    var id, c, users := LobbyIdOf(b.night), SaveCommand(b.night, b.seated[a]), S.Users(b.seated);
    SeatedApart(b);
    SeatedFits(b);
    var lobby := w.store.lobbies[id];
    NextIsNew(users, a);
    assert HasParticipant(lobby, users[a]) <==> users[a] in users[..a];
    var changed, kind := SaveMakes(lobby, c, env.now);
    SaveIsLogged(w.store, b, a, Open, a);
    NightStep(w, env, b, a, Open, c, changed, kind);
    var v := Do(w, c, env).0;
    SaveLogs(w.store, v.store, b, a, Open);
    ValidInStore(v.store, id);
    RosterGrows(lobby, changed, b.night, users[..a], users[a]);
  }

  lemma SeatedFits(b: Booking)
    requires GoodBooking(b)
    ensures |b.seated| <= b.night.capacity && b.night.capacity >= 2
  {
  }

  lemma NextIsNew(users: seq<int>, a: nat)
    requires Distinct(users) && a < |users|
    ensures users[a] !in users[..a] && users[..a] + [users[a]] == users[..a + 1]
  {
    forall i | 0 <= i < a ensures users[..a][i] != users[a] { assert users[i] != users[a]; }
  }

  /** A player who is in the queue stays there. */
  lemma EnqueueStays(w: World, night: S.Night, users: seq<int>, waiting: seq<int>, u: int, roles: seq<string>)
    requires LobbyIdOf(night) in w.queues && QueueIs(w.queues[LobbyIdOf(night)], night, users, waiting)
    requires w.queues[LobbyIdOf(night)].status != PQ.Cancelled && (u in users || u in waiting)
    ensures Enqueue(w, LobbyIdOf(night), u, roles) == (w, None)
  {
    var id, q := LobbyIdOf(night), w.queues[LobbyIdOf(night)];
    IdsOfBoth(q.active, q.waitlist);
    R.HasIsInIds(PQ.Everyone(q), u);
    assert w.queues[id := q] == w.queues;
  }

  /** The next of the seated joins the queue. */
  lemma Joins(w: World, b: Booking, j: nat, roles: seq<string>)
    requires GoodBooking(b) && QueueHalf(w.queues, b, j, 0, PQ.Open) && j < |b.seated|
    ensures var (v, failed) := Enqueue(w, LobbyIdOf(b.night), b.seated[j].userId, roles);
            failed == None && v == w.(queues := v.queues) && QueueHalf(v.queues, b, j + 1, 0, PQ.Open)
  {
    hide LobbyIdOf, GoodBooking, Enqueue, QueueIs;
    var users := S.Users(b.seated);
    SeatedApart(b);
    SeatedFits(b);
    NextIsNew(users, j);
    EnqueueAdds(w, b.night, w.queues[LobbyIdOf(b.night)], users[..j], [], users[j], roles);
    assert S.Users(b.waiting)[..0] == [];
  }

  /** Row `i` again, or for the first time. */
  lemma SeatsRow(w: World, env: Env, b: Booking, i: nat, a: nat, j: nat, c: nat, state: LobbyState, status: PQ.QueueStatus)
    requires GoodBooking(b) && Half(w, b, a, j, c, state, status) && status != PQ.Cancelled && i < |b.seated| && i <= j <= a <= j + 1
    requires a <= i ==> state == Open
    requires j <= i ==> status == PQ.Open && c == 0
    ensures var (v, failed) := SeatRow(w, env, b.night, b.seated[i]);
            && failed == None && Half(v, b, Max(a, i + 1), Max(j, i + 1), c, state, status) && (i < j ==> v == w)
  {
    hide StoreHalf, Do, Enqueue, LobbyIdOf, GoodBooking, QueueIs, Logged;
    var row := b.seated[i];
    var command := SaveCommand(b.night, row);
    var (v, r) := Do(w, command, env);
    if i < a {
      LoggedHalf(w.store, b, a, state, i);
      Replays(w, env, b, a, state, command);
    } else {
      Saves(w, env, b, a);
    }
    if i < j {
      assert S.Users(b.seated)[..j][i] == row.userId;
      EnqueueStays(v, b.night, S.Users(b.seated)[..j], S.Users(b.waiting)[..c], row.userId, RolesOf(SeatOf(row)));
    } else {
      Joins(v, b, j, RolesOf(SeatOf(row)));
    }
  }

  lemma LoggedHalf(store: Store, b: Booking, a: nat, state: LobbyState, i: nat)
    requires StoreHalf(store, b, a, state) && i < |b.seated|
    ensures Logged(store, SaveCommand(b.night, b.seated[i]), i < a)
  {
  }

  /** The first `n` rows, from a conversion half done. */
  lemma {:induction false} SeatsRows(w: World, env: Env, b: Booking, n: nat, a: nat, j: nat, c: nat, state: LobbyState, status: PQ.QueueStatus)
    requires GoodBooking(b) && Half(w, b, a, j, c, state, status) && status != PQ.Cancelled && n <= |b.seated| && j <= a <= j + 1
    requires a < n ==> state == Open
    requires j < n ==> status == PQ.Open && c == 0
    ensures var (v, failed) := SeatRows(w, env, b.night, b.seated[..n]);
            && failed == None && Half(v, b, Max(a, n), Max(j, n), c, state, status) && (n <= j ==> v == w)
  {
    hide Half, SeatRow, GoodBooking;
    if n > 0 {
      assert b.seated[..n][..n - 1] == b.seated[..n - 1];
      SeatsRows(w, env, b, n - 1, a, j, c, state, status);
      var v := SeatRows(w, env, b.night, b.seated[..n - 1]).0;
      SeatsRow(v, env, b, n - 1, Max(a, n - 1), Max(j, n - 1), c, state, status);
    }
  }

  // ---- The waitlist -----------------------------------------------------------------------

  lemma WaitsRow(w: World, b: Booking, i: nat, c: nat, status: PQ.QueueStatus)
    requires GoodBooking(b) && QueueHalf(w.queues, b, |b.seated|, c, status) && status != PQ.Cancelled && i < |b.waiting| && i <= c
    ensures var (v, failed) := Enqueue(w, LobbyIdOf(b.night), b.waiting[i].userId, RoleList(b.waiting[i].preferences));
            && failed == None && v == w.(queues := v.queues) && QueueHalf(v.queues, b, |b.seated|, Max(c, i + 1), status) && (i < c ==> v == w)
  {
    hide LobbyIdOf, Enqueue, QueueIs;
    var users, waiting := S.Users(b.seated), S.Users(b.waiting);
    var u, roles := b.waiting[i].userId, RoleList(b.waiting[i].preferences);
    assert users[..|b.seated|] == users;
    if i < c {
      assert waiting[..c][i] == u;
      EnqueueStays(w, b.night, users, waiting[..c], u, roles);
    } else {
      assert (users + waiting)[..|users| + c] == users + waiting[..c];
      FrontDistinct(users + waiting, |users| + c + 1);
      assert (users + waiting)[..|users| + c + 1] == users + waiting[..c] + [u];
      LastIsNew(users + waiting[..c] + [u], users, waiting[..c], u);
      EnqueueAdds(w, b.night, w.queues[LobbyIdOf(b.night)], users, waiting[..c], u, roles);
      assert waiting[..c] + [u] == waiting[..c + 1];
    }
  }

  lemma FrontDistinct(all: seq<int>, n: nat)
    requires Distinct(all) && n <= |all|
    ensures Distinct(all[..n])
  {
  }

  lemma LastIsNew(all: seq<int>, a: seq<int>, b: seq<int>, u: int)
    requires Distinct(all) && all == a + b + [u]
    ensures u !in a && u !in b && Distinct(a + b)
  {
    forall i | 0 <= i < |a + b| ensures (a + b)[i] != u { assert all[i] != all[|a + b|]; }
    forall i | 0 <= i < |a| ensures a[i] != u { assert (a + b)[i] == a[i]; }
    forall i | 0 <= i < |b| ensures b[i] != u { assert (a + b)[|a| + i] == b[i]; }
    forall i, j | 0 <= i < j < |a + b| ensures (a + b)[i] != (a + b)[j] { assert all[i] != all[j]; }
  }

  lemma {:induction false} WaitsRows(w: World, b: Booking, n: nat, c: nat, status: PQ.QueueStatus)
    requires GoodBooking(b) && QueueHalf(w.queues, b, |b.seated|, c, status) && status != PQ.Cancelled && n <= |b.waiting|
    ensures var (v, failed) := QueueRows(w, b.night, b.waiting[..n]);
            && failed == None && v == w.(queues := v.queues) && QueueHalf(v.queues, b, |b.seated|, Max(c, n), status) && (n <= c ==> v == w)
  {
    hide QueueHalf, Enqueue, GoodBooking;
    if n > 0 {
      assert b.waiting[..n][..n - 1] == b.waiting[..n - 1];
      WaitsRows(w, b, n - 1, c, status);
      WaitsRow(QueueRows(w, b.night, b.waiting[..n - 1]).0, b, n - 1, Max(c, n - 1), status);
    }
  }

  // ---- A full roster ----------------------------------------------------------------------

  /** Every seat of the line is taken, everybody else waits. */
  ghost predicate AllIn(w: World, b: Booking, state: LobbyState, status: PQ.QueueStatus) {
    Half(w, b, |b.seated|, |b.seated|, |b.waiting|, state, status)
  }

  lemma MarksFull(w: World, env: Env, b: Booking, status: PQ.QueueStatus)
    requires AllIn(w, b, Open, status)
    ensures var (v, r) := Do(w, MoveCommand(b.night, Full, "full"), env);
            r.Ok? && r.value.state == Full && v == w.(store := v.store) && AllIn(v, b, Full, status)
  {
    hide Ordered, LogIs, Logged, OneMore, Edited, Makes, Do, LobbyIdOf, QueueIs, NextVersion;
    var id, n, c := LobbyIdOf(b.night), |b.seated|, MoveCommand(b.night, Full, "full");
    var lobby := w.store.lobbies[id];
    var full := NextVersion(lobby.(state := Full), env.now);
    MoveMakes(lobby, c, full, env.now);
    MovesAreLogged(w.store, b, n, Open);
    NightStep(w, env, b, n, Open, c, full, Transitioned);
    MoveLogs(w.store, Do(w, c, env).0.store, b, n, false);
    MovedRoster(lobby, Full, env.now, b.night, S.Users(b.seated)[..n]);
  }

  lemma MovesAreLogged(store: Store, b: Booking, a: nat, state: LobbyState)
    requires LogIs(store, b, a, state)
    ensures Logged(store, MoveCommand(b.night, Full, "full"), state != Open)
    ensures Logged(store, MoveCommand(b.night, ReadyCheck, "ready-check"), state == ReadyCheck)
  {
  }

  lemma MovedRoster(lobby: Lobby, target: LobbyState, now: int, night: S.Night, users: seq<int>)
    requires RosterIs(lobby, night, users) && !IsTerminal(target)
    ensures RosterIs(NextVersion(lobby.(state := target), now), night, users) && NextVersion(lobby.(state := target), now).state == target
  {
  }

  lemma MarksReady(w: World, env: Env, b: Booking, status: PQ.QueueStatus)
    requires AllIn(w, b, Full, status)
    ensures var (v, r) := Do(w, MoveCommand(b.night, ReadyCheck, "ready-check"), env);
            r.Ok? && v == w.(store := v.store) && AllIn(v, b, ReadyCheck, status)
  {
    hide Ordered, LogIs, Logged, OneMore, Edited, Makes, Do, LobbyIdOf, QueueIs, NextVersion;
    var id, n, c := LobbyIdOf(b.night), |b.seated|, MoveCommand(b.night, ReadyCheck, "ready-check");
    var lobby := w.store.lobbies[id];
    var ready := NextVersion(lobby.(state := ReadyCheck), env.now);
    MoveMakes(lobby, c, ready, env.now);
    MovesAreLogged(w.store, b, n, Full);
    NightStep(w, env, b, n, Full, c, ready, Transitioned);
    MoveLogs(w.store, Do(w, c, env).0.store, b, n, true);
    MovedRoster(lobby, ReadyCheck, env.now, b.night, S.Users(b.seated)[..n]);
  }

  lemma StartsCheck(w: World, env: Env, b: Booking, state: LobbyState)
    requires AllIn(w, b, state, PQ.Open) && b.seated != []
    ensures var (v, failed) := StartCheck(w, env, LobbyIdOf(b.night), w.queues[LobbyIdOf(b.night)]);
            failed == None && AllIn(v, b, state, PQ.ReadyCheck)
  {
    hide StoreHalf, LobbyIdOf;
    assert PQ.Ids(w.queues[LobbyIdOf(b.night)].active) == S.Users(b.seated)[..|b.seated|];
  }

  /** The states of lobby and queue say how far the ready check got. */
  ghost predicate Reached(state: LobbyState, status: PQ.QueueStatus) {
    (state == Open && status == PQ.Open) || (state == Full && status != PQ.Cancelled) || (state == ReadyCheck && status == PQ.ReadyCheck)
  }

  lemma StartsFull(w: World, env: Env, b: Booking, state: LobbyState, status: PQ.QueueStatus)
    requires GoodBooking(b) && AllIn(w, b, state, status) && Reached(state, status)
    requires |b.seated| < b.night.capacity ==> state == Open
    ensures var (v, failed) := StartFull(w, env, b.night, w.store.lobbies[LobbyIdOf(b.night)]);
            && failed == None && (|b.seated| == b.night.capacity ==> AllIn(v, b, ReadyCheck, PQ.ReadyCheck))
            && (|b.seated| < b.night.capacity || state == ReadyCheck ==> v == w)
  {
    hide StoreHalf, Do, LobbyIdOf, StartCheck, AllIn;
    AllInIs(w, b, state, status);
    if |b.seated| == b.night.capacity && state != ReadyCheck {
      var (full, r) := if state == Open then Do(w, MoveCommand(b.night, Full, "full"), env) else (w, Ok(w.store.lobbies[LobbyIdOf(b.night)]));
      if state == Open { MarksFull(w, env, b, status); }
      var started := full;
      if status == PQ.Open {
        StartsCheck(full, env, b, Full);
        started := StartCheck(full, env, LobbyIdOf(b.night), full.queues[LobbyIdOf(b.night)]).0;
      }
      MarksReady(started, env, b, PQ.ReadyCheck);
    }
  }

  lemma AllInIs(w: World, b: Booking, state: LobbyState, status: PQ.QueueStatus)
    requires AllIn(w, b, state, status)
    ensures var id := LobbyIdOf(b.night);
            && id in w.store.lobbies && id in w.queues && w.store.lobbies[id].state == state && w.queues[id].status == status
            && w.queues[id].capacity == b.night.capacity && |w.queues[id].active| == |b.seated| && w.store.lobbies[id].guildId == b.night.guildId
  {
    assert |PQ.Ids(w.queues[LobbyIdOf(b.night)].active)| == |b.seated|;
  }

  // ---- The lobby and its queue ------------------------------------------------------------

  /** Nothing of this night's lobby exists yet. */
  ghost predicate NotYetMade(w: World, night: S.Night) {
    && Ordered(w.store) && NoNightOps(w.store.audit, night.eventId)
    && night.lobbyId == None && LobbyIdOf(night) !in w.store.lobbies && LobbyIdOf(night) !in w.queues && night.capacity >= 2
  }

  lemma NewLobbyIs(c: Command, id: string, code: string, night: S.Night, now: int)
    requires c == CreateCommand(night) && id == LobbyIdOf(night) && night.capacity >= 2
    ensures RosterIs(NewLobby(c, id, code, now), night, []) && NewLobby(c, id, code, now).state == Open
  {
    assert UserIds([]) == [];
  }

  lemma NightIdIsNotBlank(night: S.Night)
    ensures LobbyIdOf(night) != "" && (night.lobbyId == None ==> !IsSpace(LobbyIdOf(night)))
  {
    assert night.lobbyId == None ==> LobbyIdOf(night)[0] == 's';
  }

  lemma NightOpIsNew(store: Store, eventId: string, step: string, about: int)
    requires NoNightOps(store.audit, eventId)
    ensures !Used(store, NightOp(eventId, step, about))
  {
    UsedOperation(store.audit, NightOp(eventId, step, about));
  }

  lemma FirstLog(store: Store, next: Store, e: Event, b: Booking)
    requires NoNightOps(store.audit, b.night.eventId) && next.audit == store.audit + [e] && e.lobbyId == LobbyIdOf(b.night)
    requires e.operation == CreateCommand(b.night).op && e.fingerprint == CreateMark(b.night.guildId, LobbyIdOf(b.night))
    ensures LogIs(next, b, 0, Open)
  {
    hide IndexOf, LobbyIdOf;
    var eventId := b.night.eventId;
    NightOpIsNew(store, eventId, "lobby", 0);
    IndexAppends(store.audit, e, e.operation);
    assert next.audit[|store.audit|] == e;
    forall step, about | step != "lobby" ensures !Used(next, NightOp(eventId, step, about)) {
      NightOpIsNew(store, eventId, step, about);
      IndexAppends(store.audit, e, NightOp(eventId, step, about));
    }
    assert forall i :: 0 <= i < |b.seated| ==> !Used(next, SaveCommand(b.night, b.seated[i]).op);
  }

  /** The lobby is made exactly when a queue code is free. */
  lemma Creates(w: World, env: Env, b: Booking)
    requires NotYetMade(w, b.night)
    ensures var (v, r) := Do(w, CreateCommand(b.night), env);
            && (r.Ok? <==> FreeCode(w.store, b.night.guildId, LobbyIdOf(b.night), env.naming, 0).Some?)
            && (r.Ok? ==> v == w.(store := v.store) && StoreHalf(v.store, b, 0, Open))
  {
    hide Ordered, NoNightOps, FreeCode, IndexOf, RosterIs, NewLobby, IsSpace, LogIs, LobbyIdOf;
    var id, c := LobbyIdOf(b.night), CreateCommand(b.night);
    NightIdIsNotBlank(b.night);
    NightOpIsNew(w.store, b.night.eventId, "lobby", 0);
    if FreeCode(w.store, b.night.guildId, id, env.naming, 0).Some? {
      var code := FreeCode(w.store, b.night.guildId, id, env.naming, 0).value;
      var next := MakeLobby(w.store, c, env.naming, env.now).value.0;
      CreateKeeps(w.store, c, env.naming, env.now);
      NewLobbyIs(c, id, code, b.night, env.now);
      CreatedId(c, id, code, env.now);
      FirstLog(w.store, next, next.audit[|w.store.audit|], b);
      assert S.Users(b.seated)[..0] == [];
    } else {
      assert MakeLobby(w.store, c, env.naming, env.now).Err?;
    }
  }

  lemma CreatedId(c: Command, id: string, code: string, now: int)
    requires c.Create?
    ensures NewLobby(c, id, code, now).lobbyId == id && NewLobby(c, id, code, now).guildId == c.guildId
  {
  }

  /** A lobby that is there is not made again; its queue is, if it is missing. */
  lemma MakesAgain(w: World, env: Env, b: Booking, a: nat, state: LobbyState)
    requires StoreHalf(w.store, b, a, state) && b.night.capacity >= 2
    ensures Do(w, CreateCommand(b.night), env) == (w, Ok(w.store.lobbies[LobbyIdOf(b.night)]))
    ensures MadeLobby(w, env, b.night) == (QueueMade(w, b), None)
  {
    hide Ordered, IndexOf, LobbyIdOf;
    NightIdIsNotBlank(b.night);
  }

  function QueueMade(w: World, b: Booking): World {
    if LobbyIdOf(b.night) in w.queues then w else WithQueue(w, LobbyIdOf(b.night), PQ.NewQueue(b.night.capacity))
  }

  lemma EmptyQueue(w: World, b: Booking)
    requires LobbyIdOf(b.night) !in w.queues
    ensures QueueHalf(QueueMade(w, b).queues, b, 0, 0, PQ.Open)
  {
    hide LobbyIdOf;
    assert S.Users(b.seated)[..0] == [] && S.Users(b.waiting)[..0] == [];
  }

  // ---- From half done to done -------------------------------------------------------------

  /** How far a conversion came: seats on the roster, seats in the queue, places
      on its waitlist, the lobby's state and the queue's status. */
  datatype Progress = Progress(saved: nat, joined: nat, waiting: nat, state: LobbyState, status: PQ.QueueStatus)

  /** What one conversion after the other passes through. */
  ghost predicate OnItsWay(b: Booking, p: Progress) {
    && p.joined <= p.saved <= p.joined + 1 && Reached(p.state, p.status)
    && (p.saved < |b.seated| || |b.seated| < b.night.capacity ==> p.state == Open)
    && (p.joined < |b.seated| ==> p.status == PQ.Open && p.waiting == 0)
  }

  ghost predicate Underway(w: World, b: Booking, p: Progress) {
    OnItsWay(b, p) && Half(w, b, p.saved, p.joined, p.waiting, p.state, p.status)
  }

  ghost predicate AllDone(w: World, b: Booking) {
    if |b.seated| == b.night.capacity then AllIn(w, b, ReadyCheck, PQ.ReadyCheck) else AllIn(w, b, Open, PQ.Open)
  }

  /** Whatever is half done, the rest is done, and nothing twice. */
  lemma Continues(w: World, made: World, env: Env, b: Booking, p: Progress)
    requires GoodBooking(b) && MadeLobby(w, env, b.night) == (made, None) && Underway(made, b, p)
    ensures var (v, failed) := Filled(w, env, b);
            failed == None && AllDone(v, b) && (AllDone(made, b) ==> v == made)
  {
    hide MadeLobby, SeatRows, QueueRows, StartFull, StoreHalf, QueueHalf, GoodBooking, LobbyIdOf;
    var n, m := |b.seated|, |b.waiting|;
    assert b.seated[..n] == b.seated && b.waiting[..m] == b.waiting;
    HalfWithin(made, b, p);
    SeatsRows(made, env, b, n, p.saved, p.joined, p.waiting, p.state, p.status);
    var seated := SeatRows(made, env, b.night, b.seated).0;
    WaitsRows(seated, b, m, p.waiting, p.status);
    var queued := QueueRows(seated, b.night, b.waiting).0;
    AllInIs(queued, b, p.state, p.status);
    SeatedFits(b);
    StartsFull(queued, env, b, p.state, p.status);
    if AllDone(made, b) { DoneIs(made, b, p); }
  }

  lemma HalfWithin(w: World, b: Booking, p: Progress)
    requires Half(w, b, p.saved, p.joined, p.waiting, p.state, p.status)
    ensures p.saved <= |b.seated| && p.joined <= |b.seated| && p.waiting <= |b.waiting|
  {
  }

  lemma DoneIs(w: World, b: Booking, p: Progress)
    requires Underway(w, b, p) && AllDone(w, b)
    ensures p.joined == |b.seated| && p.waiting == |b.waiting| && (|b.seated| == b.night.capacity ==> p.state == ReadyCheck)
  {
    var q := w.queues[LobbyIdOf(b.night)];
    hide StoreHalf;
    assert |PQ.Ids(q.active)| == |S.Users(b.seated)[..p.joined]| == p.joined;
    assert |PQ.Ids(q.waitlist)| == |S.Users(b.waiting)[..p.waiting]| == p.waiting;
    StateIs(w, b, p);
  }

  lemma StateIs(w: World, b: Booking, p: Progress)
    requires Underway(w, b, p) && AllDone(w, b)
    ensures |b.seated| == b.night.capacity ==> p.state == ReadyCheck
  {
  }


  // ---- Cut short --------------------------------------------------------------------------

  /** Where a conversion may be cut short: between any two of its transactions. */
  datatype Cut = Untouched | LobbyMade | SeatSaved(k: nat) | SeatsTaken(k: nat) | WaitersQueued(k: nat) | FullMarked | CheckStarted | ReadyMarked | Marked

  ghost predicate Cuts(b: Booking, cut: Cut) {
    match cut
    case SeatSaved(k) => k < |b.seated|
    case SeatsTaken(k) => k <= |b.seated|
    case WaitersQueued(k) => k <= |b.waiting|
    case FullMarked => |b.seated| == b.night.capacity
    case CheckStarted => |b.seated| == b.night.capacity
    case _ => true
  }

  /** The lobby store and the queues at that moment. */
  function CutAt(w: World, env: Env, b: Booking, cut: Cut): World
    requires Cuts(b, cut)
  {
    var id, made := LobbyIdOf(b.night), MadeLobby(w, env, b.night).0;
    match cut
    case Untouched => w
    case LobbyMade => Do(w, CreateCommand(b.night), env).0
    case SeatSaved(k) => Do(SeatRows(made, env, b.night, b.seated[..k]).0, SaveCommand(b.night, b.seated[k]), env).0
    case SeatsTaken(k) => SeatRows(made, env, b.night, b.seated[..k]).0
    case WaitersQueued(k) => QueueRows(SeatRows(made, env, b.night, b.seated).0, b.night, b.waiting[..k]).0
    case FullMarked => Do(QueueRows(SeatRows(made, env, b.night, b.seated).0, b.night, b.waiting).0, MoveCommand(b.night, Full, "full"), env).0
    case CheckStarted =>
      var full := Do(QueueRows(SeatRows(made, env, b.night, b.seated).0, b.night, b.waiting).0, MoveCommand(b.night, Full, "full"), env).0;
      if id in full.queues then StartCheck(full, env, id, full.queues[id]).0 else full
    case ReadyMarked => Filled(w, env, b).0
    case Marked => Filled(w, env, b).0
  }

  function CutShort(w: World, s: S.Store, env: Env, names: S.Names, b: Booking, cut: Cut): (World, S.Store)
    requires Cuts(b, cut)
  {
    (CutAt(w, env, b, cut), if cut == Marked then ConvertToLobby(w, s, env, names, b).1 else s)
  }

  ghost predicate MadeFirst(w: World, env: Env, b: Booking) {
    NotYetMade(w, b.night) && FreeCode(w.store, b.night.guildId, LobbyIdOf(b.night), env.naming, 0).Some?
  }

  lemma StartsEmpty(w: World, env: Env, b: Booking)
    requires MadeFirst(w, env, b)
    ensures Do(w, CreateCommand(b.night), env).1.Ok? && StoreHalf(Do(w, CreateCommand(b.night), env).0.store, b, 0, Open)
    ensures var made := MadeLobby(w, env, b.night); made.1 == None && Half(made.0, b, 0, 0, 0, Open, PQ.Open)
    ensures LobbyIdOf(b.night) !in Do(w, CreateCommand(b.night), env).0.queues
  {
    hide Ordered, NoNightOps, FreeCode, Do, LobbyIdOf, StoreHalf, QueueHalf;
    Creates(w, env, b);
    EmptyQueue(Do(w, CreateCommand(b.night), env).0, b);
  }

  /** A conversion cut short after its lobby was made is half done. */
  lemma CutsAreUnderway(w: World, env: Env, b: Booking, cut: Cut) returns (p: Progress)
    requires GoodBooking(b) && MadeFirst(w, env, b) && Cuts(b, cut) && !cut.Untouched? && !cut.LobbyMade?
    ensures Underway(CutAt(w, env, b, cut), b, p) && (cut.ReadyMarked? || cut.Marked? ==> AllDone(CutAt(w, env, b, cut), b))
  {
    hide MadeFirst, MadeLobby, SeatRows, QueueRows, StartCheck, StoreHalf, QueueHalf, GoodBooking, LobbyIdOf, Do, Filled;
    StartsEmpty(w, env, b);
    var n, m := |b.seated|, |b.waiting|;
    var made := MadeLobby(w, env, b.night).0;
    assert b.seated[..n] == b.seated && b.waiting[..m] == b.waiting;
    SeatedFits(b);
    match cut
    case SeatSaved(k) =>
      SeatsRows(made, env, b, k, 0, 0, 0, Open, PQ.Open);
      Saves(SeatRows(made, env, b.night, b.seated[..k]).0, env, b, k);
      p := Progress(k + 1, k, 0, Open, PQ.Open);
    case SeatsTaken(k) =>
      SeatsRows(made, env, b, k, 0, 0, 0, Open, PQ.Open);
      p := Progress(k, k, 0, Open, PQ.Open);
    case WaitersQueued(k) =>
      SeatsRows(made, env, b, n, 0, 0, 0, Open, PQ.Open);
      WaitsRows(SeatRows(made, env, b.night, b.seated).0, b, k, 0, PQ.Open);
      p := Progress(n, n, k, Open, PQ.Open);
    case FullMarked =>
      QueuedAll(w, made, env, b);
      MarksFull(QueueRows(SeatRows(made, env, b.night, b.seated).0, b.night, b.waiting).0, env, b, PQ.Open);
      p := Progress(n, n, m, Full, PQ.Open);
    case CheckStarted =>
      QueuedAll(w, made, env, b);
      var queued := QueueRows(SeatRows(made, env, b.night, b.seated).0, b.night, b.waiting).0;
      MarksFull(queued, env, b, PQ.Open);
      var full := Do(queued, MoveCommand(b.night, Full, "full"), env).0;
      StartsCheck(full, env, b, Full);
      AllInIs(full, b, Full, PQ.Open);
      p := Progress(n, n, m, Full, PQ.ReadyCheck);
    case ReadyMarked =>
      p := FillsAll(w, made, env, b);
    case Marked =>
      p := FillsAll(w, made, env, b);
  }

  lemma FillsAll(w: World, made: World, env: Env, b: Booking) returns (p: Progress)
    requires GoodBooking(b) && MadeLobby(w, env, b.night) == (made, None) && Half(made, b, 0, 0, 0, Open, PQ.Open)
    ensures Underway(Filled(w, env, b).0, b, p) && AllDone(Filled(w, env, b).0, b)
  {
    hide MadeLobby, StoreHalf, QueueHalf, GoodBooking, LobbyIdOf, Filled;
    var n, m := |b.seated|, |b.waiting|;
    SeatedFits(b);
    Continues(w, made, env, b, Progress(0, 0, 0, Open, PQ.Open));
    p := if n == b.night.capacity then Progress(n, n, m, ReadyCheck, PQ.ReadyCheck) else Progress(n, n, m, Open, PQ.Open);
  }

  lemma QueuedAll(w: World, made: World, env: Env, b: Booking)
    requires GoodBooking(b) && MadeLobby(w, env, b.night) == (made, None) && Half(made, b, 0, 0, 0, Open, PQ.Open)
    ensures AllIn(QueueRows(SeatRows(made, env, b.night, b.seated).0, b.night, b.waiting).0, b, Open, PQ.Open)
  {
    hide MadeLobby, SeatRows, QueueRows, StoreHalf, QueueHalf, GoodBooking, LobbyIdOf;
    var n, m := |b.seated|, |b.waiting|;
    assert b.seated[..n] == b.seated && b.waiting[..m] == b.waiting;
    SeatsRows(made, env, b, n, 0, 0, 0, Open, PQ.Open);
    WaitsRows(SeatRows(made, env, b.night, b.seated).0, b, m, 0, PQ.Open);
  }

  /** Filling from any cut ends the same way, and a lobby that was filled is left alone. */
  lemma FillsFromAnyCut(w: World, env: Env, again: Env, b: Booking, cut: Cut)
    requires GoodBooking(b) && Cuts(b, cut) && (cut.Untouched? ==> MadeFirst(w, again, b)) && (!cut.Untouched? ==> MadeFirst(w, env, b))
    ensures var (v, failed) := Filled(CutAt(w, env, b, cut), again, b);
            failed == None && AllDone(v, b) && (cut.ReadyMarked? || cut.Marked? ==> v == CutAt(w, env, b, cut))
  {
    hide MadeFirst, MadeLobby, StoreHalf, QueueHalf, GoodBooking, LobbyIdOf, Do, Filled, CutAt;
    var at := CutAt(w, env, b, cut);
    SeatedFits(b);
    if cut.Untouched? {
      UntouchedIs(w, env, b);
      StartsEmpty(w, again, b);
      Continues(w, MadeLobby(w, again, b.night).0, again, b, Progress(0, 0, 0, Open, PQ.Open));
    } else if cut.LobbyMade? {
      LobbyMadeIs(w, env, b);
      StartsEmpty(w, env, b);
      MakesAgain(at, again, b, 0, Open);
      EmptyQueue(at, b);
      HalfFrom(at, b);
      Continues(at, QueueMade(at, b), again, b, Progress(0, 0, 0, Open, PQ.Open));
    } else {
      var p := CutsAreUnderway(w, env, b, cut);
      MakesAgain(at, again, b, p.saved, p.state);
      QueueIsThere(at, b, p);
      Continues(at, at, again, b, p);
    }
  }

  lemma UntouchedIs(w: World, env: Env, b: Booking)
    ensures Cuts(b, Untouched) && CutAt(w, env, b, Untouched) == w
  {
  }

  lemma LobbyMadeIs(w: World, env: Env, b: Booking)
    ensures CutAt(w, env, b, LobbyMade) == Do(w, CreateCommand(b.night), env).0
  {
  }

  lemma HalfFrom(w: World, b: Booking)
    requires StoreHalf(w.store, b, 0, Open) && QueueHalf(QueueMade(w, b).queues, b, 0, 0, PQ.Open)
    ensures Half(QueueMade(w, b), b, 0, 0, 0, Open, PQ.Open)
  {
    hide StoreHalf, QueueHalf;
  }

  lemma QueueIsThere(w: World, b: Booking, p: Progress)
    requires Underway(w, b, p)
    ensures QueueMade(w, b) == w
  {
    hide StoreHalf;
  }

  // ---- A conversion from start to end -----------------------------------------------------

  /** What a filled lobby looks like, from the line of the night. */
  ghost predicate FromLine(w: World, night: S.Night, line: seq<int>) {
    var id, seats := LobbyIdOf(night), Min(night.capacity, |line|);
    && night.capacity >= 0 && Ordered(w.store) && id in w.store.lobbies && id in w.queues
    && RosterIs(w.store.lobbies[id], night, line[..seats]) && QueueIs(w.queues[id], night, line[..seats], line[seats..])
    && w.store.lobbies[id].state == (if seats == night.capacity then ReadyCheck else Open)
    && w.queues[id].status == (if seats == night.capacity then PQ.ReadyCheck else PQ.Open)
  }

  lemma DoneIsFromLine(w: World, b: Booking, line: seq<int>)
    requires AllDone(w, b) && GoodBooking(b) && line == S.Users(b.seated) + S.Users(b.waiting)
    ensures FromLine(w, b.night, line)
  {
    var n, m, seats := |b.seated|, |b.waiting|, Min(b.night.capacity, |line|);
    assert S.Users(b.seated)[..n] == S.Users(b.seated) && S.Users(b.waiting)[..m] == S.Users(b.waiting);
    assert seats == n && line[..seats] == S.Users(b.seated) && line[seats..] == S.Users(b.waiting);
    hide Ordered, LogIs, RosterIs, LobbyIdOf;
  }

  lemma BookingIs(s: S.Store, eventId: string)
    requires eventId in s.nights && s.nights[eventId].capacity >= 2
    requires SL.Keeps(S.RowsOf(s, eventId), S.LineOf(S.RowsOf(s, eventId)), s.nights[eventId].capacity)
    ensures var b, line := BookingOf(s, eventId).value, S.LineOf(S.RowsOf(s, eventId));
            GoodBooking(b) && line == S.Users(b.seated) + S.Users(b.waiting)
  {
    hide S.LineOf, ST.SeatedRows, ST.WaitingRows;
    var rows, line, capacity := S.RowsOf(s, eventId), S.LineOf(S.RowsOf(s, eventId)), s.nights[eventId].capacity;
    ST.SeatsGoDownTheLine(rows, line, capacity);
    hide SL.Keeps;
    LineApart(rows, line, capacity);
    var seats := Min(capacity, |line|);
    assert line[..seats] + line[seats..] == line;
  }

  lemma LineApart(rows: seq<S.Row>, line: seq<int>, capacity: int)
    requires SL.Keeps(rows, line, capacity)
    ensures Distinct(line)
  {
  }

  // ---- The mark on the night --------------------------------------------------------------

  /** The week after a weekly night has its local time. */
  ghost predicate GoesOn(night: S.Night, names: S.Names) {
    night.recurrence == S.Once || S.InWeek(names.zone(night.zone), night.startsAt, 1).Some?
  }

  /** What a conversion reads of a night. */
  ghost predicate SameLobby(n: S.Night, m: S.Night) {
    && LobbyIdOf(n) == LobbyIdOf(m) && n.eventId == m.eventId && n.guildId == m.guildId && n.organizerId == m.organizerId
    && n.capacity == m.capacity && n.startsAt == m.startsAt && n.title == m.title && n.recurrence == m.recurrence
  }

  lemma Marks(s: S.Store, eventId: string, names: S.Names)
    requires eventId in s.nights && s.nights[eventId].lobbyId == None && s.nights[eventId].eventId == eventId
    ensures var night, id := s.nights[eventId], LobbyIdOf(s.nights[eventId]);
            var r := S.Convert(s, eventId, id, names);
            && (r.Ok? <==> GoesOn(night, names))
            && (r.Ok? ==> eventId in r.value.nights && r.value.rsvps == s.rsvps && SameLobby(night, r.value.nights[eventId])
                          && r.value.nights[eventId].state == S.Converted && r.value.nights[eventId].lobbyId == Some(id)
                          && S.Convert(r.value, eventId, id, names) == Ok(r.value))
  {
    hide S.InWeek;
    var id := LobbyIdOf(s.nights[eventId]);
    assert id[0] == 's';
    if S.Convert(s, eventId, id, names).Ok? {
      var t := S.Convert(s, eventId, id, names).value;
      assert t.nights[eventId := t.nights[eventId]] == t.nights;
    }
  }

  lemma {:induction false} SeatRowsSame(w: World, env: Env, n: S.Night, m: S.Night, rows: seq<S.Row>)
    requires SameLobby(n, m)
    ensures SeatRows(w, env, n, rows) == SeatRows(w, env, m, rows)
    decreases |rows|
  {
    hide Do, Enqueue, LobbyIdOf;
    if rows != [] { SeatRowsSame(w, env, n, m, rows[..|rows| - 1]); }
  }

  lemma {:induction false} QueueRowsSame(w: World, n: S.Night, m: S.Night, rows: seq<S.Row>)
    requires SameLobby(n, m)
    ensures QueueRows(w, n, rows) == QueueRows(w, m, rows)
    decreases |rows|
  {
    hide Enqueue, LobbyIdOf;
    if rows != [] { QueueRowsSame(w, n, m, rows[..|rows| - 1]); }
  }

  lemma FilledSame(w: World, env: Env, b: Booking, d: Booking)
    requires SameLobby(b.night, d.night) && b.seated == d.seated && b.waiting == d.waiting
    ensures Filled(w, env, b) == Filled(w, env, d)
  {
    hide Do, LobbyIdOf, SeatRows, QueueRows, StartCheck;
    SeatRowsSame(MadeLobby(w, env, b.night).0, env, b.night, d.night, b.seated);
    QueueRowsSame(SeatRows(MadeLobby(w, env, b.night).0, env, b.night, b.seated).0, b.night, d.night, b.waiting);
  }

  // ---- The theorems -----------------------------------------------------------------------

  /** A scheduled night of which no lobby exists, its rows in line. */
  ghost predicate ReadyToOpen(w: World, s: S.Store, eventId: string) {
    && eventId in s.nights && s.nights[eventId].eventId == eventId && s.nights[eventId].state == S.Scheduled
    && NotYetMade(w, s.nights[eventId])
    && SL.Keeps(S.RowsOf(s, eventId), S.LineOf(S.RowsOf(s, eventId)), s.nights[eventId].capacity)
  }

  ghost predicate OpenedAs(v: World, after: S.Store, r: Result<Lobby, Trouble>, s: S.Store, eventId: string)
    requires eventId in s.nights
  {
    var night, id := s.nights[eventId], LobbyIdOf(s.nights[eventId]);
    && FromLine(v, night, S.LineOf(S.RowsOf(s, eventId))) && r == Ok(v.store.lobbies[id])
    && eventId in after.nights && after.nights[eventId].state == S.Converted && after.nights[eventId].lobbyId == Some(id)
  }

  /** Wherever a conversion was cut short, the next call seats the same line, whose
      seats and operations were never taken twice; after the end it changes nothing. */
  lemma ConversionRestarts(w: World, s: S.Store, env: Env, again: Env, names: S.Names, eventId: string, cut: Cut)
    requires ReadyToOpen(w, s, eventId) && again.naming == env.naming
    requires FreeCode(w.store, s.nights[eventId].guildId, LobbyIdOf(s.nights[eventId]), env.naming, 0).Some?
    requires Cuts(BookingOf(s, eventId).value, cut) && (cut.Marked? ==> GoesOn(s.nights[eventId], names))
    ensures var (at, there) := CutShort(w, s, env, names, BookingOf(s, eventId).value, cut);
            && eventId in there.nights
            && var (v, after, r) := ConvertToLobby(at, there, again, names, BookingOf(there, eventId).value);
            && (r.Ok? <==> GoesOn(s.nights[eventId], names)) && (r.Ok? ==> OpenedAs(v, after, r, s, eventId))
            && (cut.ReadyMarked? || cut.Marked? ==> v == at) && (cut.Marked? ==> after == there)
            && (if cut.Marked? then there.nights[eventId].state == S.Converted && SameLobby(s.nights[eventId], there.nights[eventId]) else there == s)
  {
    hide Ordered, NoNightOps, FreeCode, Filled, S.LineOf, S.Convert, SL.Keeps, ST.SeatedRows, ST.WaitingRows, S.InWeek, GoodBooking,
      AllDone, CutAt, FromLine, GoesOn, Cuts, SameLobby;
    var b, id := BookingOf(s, eventId).value, LobbyIdOf(s.nights[eventId]);
    BookingIs(s, eventId);
    Marks(s, eventId, names);
    FillsFromAnyCut(w, env, again, b, cut);
    var at := CutAt(w, env, b, cut);
    var v := Filled(at, again, b).0;
    DoneIsFromLine(v, b, S.LineOf(S.RowsOf(s, eventId)));
    FromLineThere(v, b.night, S.LineOf(S.RowsOf(s, eventId)));
    if cut.Marked? {
      MarkedIs(w, s, env, names, b);
      UntouchedIs(w, env, b);
      FillsFromAnyCut(w, env, env, b, Untouched);
      var first := Filled(w, env, b).0;
      DoneIsFromLine(first, b, S.LineOf(S.RowsOf(s, eventId)));
      FromLineThere(first, b.night, S.LineOf(S.RowsOf(s, eventId)));
      var there := S.Convert(s, eventId, id, names).value;
      FilledSame(at, again, b, BookingOf(there, eventId).value);
      SameLobbyId(b.night, there.nights[eventId]);
    }
  }

  lemma SameLobbyId(n: S.Night, m: S.Night)
    requires SameLobby(n, m)
    ensures LobbyIdOf(n) == LobbyIdOf(m) && n.eventId == m.eventId && n.guildId == m.guildId
  {
  }

  lemma MarkedIs(w: World, s: S.Store, env: Env, names: S.Names, b: Booking)
    ensures CutAt(w, env, b, Marked) == Filled(w, env, b).0
  {
  }

  lemma FromLineThere(w: World, night: S.Night, line: seq<int>)
    requires FromLine(w, night, line)
    ensures LobbyIdOf(night) in w.store.lobbies && Find(w.store, night.guildId, LobbyIdOf(night)) == Some(w.store.lobbies[LobbyIdOf(night)])
  {
  }

  /** A conversion nobody interrupts succeeds exactly when a queue code is free and
      the next week has this local time; then the seated line is the lobby's roster,
      the whole line its queue, and a full roster is in its ready check. */
  lemma ConversionSeatsTheLine(w: World, s: S.Store, env: Env, names: S.Names, eventId: string)
    requires ReadyToOpen(w, s, eventId)
    ensures var (v, after, r) := ConvertToLobby(w, s, env, names, BookingOf(s, eventId).value);
            var night, id := s.nights[eventId], LobbyIdOf(s.nights[eventId]);
            && (r.Ok? <==> FreeCode(w.store, night.guildId, id, env.naming, 0).Some? && GoesOn(night, names))
            && (r.Ok? ==> OpenedAs(v, after, r, s, eventId))
  {
    hide Ordered, NoNightOps, FreeCode, S.LineOf, S.Convert, SL.Keeps, ST.SeatedRows, ST.WaitingRows, S.InWeek, FromLine, GoesOn, OpenedAs, Filled;
    var night := s.nights[eventId];
    if FreeCode(w.store, night.guildId, LobbyIdOf(night), env.naming, 0).Some? {
      ConversionRestarts(w, s, env, env, names, eventId, Untouched);
    } else {
      NothingFilled(w, env, BookingOf(s, eventId).value);
    }
  }

  lemma NothingFilled(w: World, env: Env, b: Booking)
    requires NotYetMade(w, b.night) && !FreeCode(w.store, b.night.guildId, LobbyIdOf(b.night), env.naming, 0).Some?
    ensures Filled(w, env, b).1.Some?
  {
    hide NotYetMade, FreeCode, Do, SeatRows, QueueRows, StartFull;
    Creates(w, env, b);
    var (v, r) := Do(w, CreateCommand(b.night), env);
    assert r.Err?;
  }
}
