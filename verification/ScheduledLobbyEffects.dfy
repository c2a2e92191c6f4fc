/** What the lobby of a night says: its clock, its notes, and each player's row as
    the player answered; after a conversion cut short anywhere, too. */
module ScheduledLobbyEffects {
  import opened Common
  import opened PartyStore
  import opened PartyStoreInvariant
  import opened PartyLobby
  import opened ScheduledLobby
  import opened ScheduledLobbyTheorems
  import PE = PartyStoreEffects
  import S = PartySchedule
  import SL = PartyScheduleLine
  import ST = PartyScheduleTheorems

  /** The row has the preferences and the time of the player's answer. */
  ghost predicate SeatSays(p: Participant, row: S.Row) {
    && p.userId == row.userId && p.primary == row.preferences.primary && p.secondary == row.preferences.secondary
    && p.fill == row.preferences.fill && p.captain == row.preferences.captain && !p.ready && p.joinedAt == row.joinedAt
  }

  ghost predicate Answered(p: Participant, rows: seq<S.Row>) { exists i :: 0 <= i < |rows| && SeatSays(p, rows[i]) }

  /** The lobby closes four hours after the night begins, and says which night it is. */
  ghost predicate LobbySays(lobby: Lobby, night: S.Night, rows: seq<S.Row>) {
    && lobby.expiresAt == Some(night.startsAt + 4 * 60) && lobby.delivery == NO_DELIVERY && lobby.displayName == ""
    && lobby.metadata.mode == "custom" && lobby.metadata.format == "scheduled night"
    && lobby.metadata.notes == night.title + (if night.recurrence == S.Weekly then " - weekly" else " - once")
    && forall p :: p in lobby.participants ==> Answered(p, rows)
  }

  ghost predicate Bears(store: Store, b: Booking) {
    Ordered(store) && (LobbyIdOf(b.night) in store.lobbies ==> LobbySays(store.lobbies[LobbyIdOf(b.night)], b.night, b.seated))
  }

  // ---- One transaction --------------------------------------------------------------------

  lemma MakingBears(w: World, env: Env, b: Booking)
    requires Bears(w.store, b)
    ensures Bears(Do(w, CreateCommand(b.night), env).0.store, b)
  {
    hide Ordered, FreeCode, IndexOf, IsBlank, IsSpace, Answered;
    NightIdIsNotBlank(b.night);
    var c := CreateCommand(b.night);
    if MakeLobby(w.store, c, env.naming, env.now).Ok? { CreateKeeps(w.store, c, env.naming, env.now); }
    assert " - " + "weekly" == " - weekly" && " - " + "once" == " - once";
  }

  lemma MovingBears(w: World, env: Env, b: Booking, target: LobbyState, step: string)
    requires Bears(w.store, b)
    ensures Bears(Do(w, MoveCommand(b.night, target, step), env).0.store, b)
  {
    hide Ordered, IndexOf, IsBlank, Answered, MayTransition;
    var c := MoveCommand(b.night, target, step);
    if Changed(w.store, c, env.now).Ok? { ChangedKeeps(w.store, c, env.now); }
  }

  lemma SavingBears(w: World, env: Env, b: Booking, i: nat)
    requires Bears(w.store, b) && i < |b.seated| && Distinct(S.Users(b.seated))
    ensures Bears(Do(w, SaveCommand(b.night, b.seated[i]), env).0.store, b)
  {
    hide Ordered, IndexOf, IsBlank, LobbySays, Saved, LobbyIdOf, SeatOf;
    var id, c := LobbyIdOf(b.night), SaveCommand(b.night, b.seated[i]);
    if Changed(w.store, c, env.now).Ok? {
      ChangedKeeps(w.store, c, env.now);
      ValidInStore(w.store, id);
      SavedSays(w.store.lobbies[id], b, i);
      SameSays(w.store.lobbies[id].(participants := Saved(w.store.lobbies[id].participants, SeatOf(b.seated[i]))), env.now, b);
    }
  }

  lemma SameSays(lobby: Lobby, now: int, b: Booking)
    requires LobbySays(lobby, b.night, b.seated)
    ensures LobbySays(NextVersion(lobby, now), b.night, b.seated)
  {
  }

  lemma SavedSays(lobby: Lobby, b: Booking, i: nat)
    requires LobbySays(lobby, b.night, b.seated) && i < |b.seated| && Distinct(S.Users(b.seated)) && Distinct(UserIds(lobby.participants))
    ensures LobbySays(lobby.(participants := Saved(lobby.participants, SeatOf(b.seated[i]))), b.night, b.seated)
  {
    hide Saved;
    var p := SeatOf(b.seated[i]);
    forall r | r in Saved(lobby.participants, p) ensures Answered(r, b.seated) {
      PE.SavedRows(lobby.participants, p, r);
      if r.userId == p.userId {
        if p.userId in UserIds(lobby.participants) {
          var s :| s in lobby.participants && s.userId == p.userId && r == p.(joinedAt := s.joinedAt);
          var k :| 0 <= k < |b.seated| && SeatSays(s, b.seated[k]);
          assert S.Users(b.seated)[k] == S.Users(b.seated)[i];
        }
        assert SeatSays(r, b.seated[i]);
      }
    }
  }

  // ---- The loops --------------------------------------------------------------------------

  lemma EnqueueLeavesStore(w: World, lobbyId: string, userId: int, roles: seq<string>)
    ensures Enqueue(w, lobbyId, userId, roles).0.store == w.store
  {
  }

  lemma {:induction false} SeatingBears(w: World, env: Env, b: Booking, n: nat)
    requires Bears(w.store, b) && n <= |b.seated| && Distinct(S.Users(b.seated))
    ensures Bears(SeatRows(w, env, b.night, b.seated[..n]).0.store, b)
  {
    hide Bears, Do, Enqueue, LobbyIdOf;
    if n > 0 {
      assert b.seated[..n][..n - 1] == b.seated[..n - 1];
      SeatingBears(w, env, b, n - 1);
      var v := SeatRows(w, env, b.night, b.seated[..n - 1]).0;
      SavingBears(v, env, b, n - 1);
      EnqueueLeavesStore(Do(v, SaveCommand(b.night, b.seated[n - 1]), env).0, LobbyIdOf(b.night), b.seated[n - 1].userId, RolesOf(SeatOf(b.seated[n - 1])));
    }
  }

  lemma {:induction false} QueueingLeavesStore(w: World, night: S.Night, rows: seq<S.Row>)
    ensures QueueRows(w, night, rows).0.store == w.store
    decreases |rows|
  {
    hide Enqueue, LobbyIdOf;
    if rows != [] {
      var n := |rows| - 1;
      QueueingLeavesStore(w, night, rows[..n]);
      EnqueueLeavesStore(QueueRows(w, night, rows[..n]).0, LobbyIdOf(night), rows[n].userId, RoleList(rows[n].preferences));
    }
  }

  lemma StartingBears(w: World, env: Env, b: Booking, lobby: Lobby)
    requires Bears(w.store, b)
    ensures Bears(StartFull(w, env, b.night, lobby).0.store, b)
  {
    hide Bears, Do, LobbyIdOf;
    MovingBears(w, env, b, Full, "full");
    var full := if lobby.state == Open then Do(w, MoveCommand(b.night, Full, "full"), env).0 else w;
    MovingBears(full, env, b, ReadyCheck, "ready-check");
    if LobbyIdOf(b.night) in w.queues {
      var started := StartCheck(full, env, LobbyIdOf(b.night), w.queues[LobbyIdOf(b.night)]).0;
      assert started.store == full.store;
      MovingBears(started, env, b, ReadyCheck, "ready-check");
    }
  }

  lemma MadeBears(w: World, env: Env, b: Booking)
    requires Bears(w.store, b)
    ensures Bears(MadeLobby(w, env, b.night).0.store, b)
  {
    hide Bears, Do, LobbyIdOf;
    MakingBears(w, env, b);
  }

  lemma FilledBears(w: World, env: Env, b: Booking)
    requires Bears(w.store, b) && Distinct(S.Users(b.seated))
    ensures Bears(Filled(w, env, b).0.store, b)
  {
    hide Bears, Do, LobbyIdOf, MadeLobby, StartFull, QueueRows, SeatRows;
    MadeBears(w, env, b);
    var made := MadeLobby(w, env, b.night).0;
    assert b.seated[..|b.seated|] == b.seated;
    SeatingBears(made, env, b, |b.seated|);
    var seated := SeatRows(made, env, b.night, b.seated).0;
    QueueingLeavesStore(seated, b.night, b.waiting);
    var queued := QueueRows(seated, b.night, b.waiting).0;
    var lobby := Find(queued.store, b.night.guildId, LobbyIdOf(b.night));
    if lobby.Some? { StartingBears(queued, env, b, lobby.value); }
  }

  lemma CutBears(w: World, env: Env, b: Booking, cut: Cut)
    requires Bears(w.store, b) && Cuts(b, cut) && Distinct(S.Users(b.seated))
    ensures Bears(CutAt(w, env, b, cut).store, b)
  {
    hide Bears, Do, LobbyIdOf, MadeLobby, StartFull, QueueRows, SeatRows, Filled;
    MakingBears(w, env, b);
    MadeBears(w, env, b);
    FilledBears(w, env, b);
    var made := MadeLobby(w, env, b.night).0;
    assert b.seated[..|b.seated|] == b.seated;
    SeatingBears(made, env, b, |b.seated|);
    var seated := SeatRows(made, env, b.night, b.seated).0;
    match cut {
      case SeatSaved(k) =>
        SeatingBears(made, env, b, k);
        SavingBears(SeatRows(made, env, b.night, b.seated[..k]).0, env, b, k);
      case SeatsTaken(k) => SeatingBears(made, env, b, k);
      case WaitersQueued(k) => QueueingLeavesStore(seated, b.night, b.waiting[..k]);
      case _ =>
        QueueingLeavesStore(seated, b.night, b.waiting);
        MovingBears(QueueRows(seated, b.night, b.waiting).0, env, b, Full, "full");
    }
  }

  // ---- The theorem ------------------------------------------------------------------------

  lemma {:induction false} SeatedAreRows(rows: seq<S.Row>)
    ensures forall r :: r in ST.SeatedRows(rows) ==> r in rows
  {
    var sorted := SortBy(rows, S.ByPosition);
    ST.OnSideIsOrdered(sorted, false);
    hide ST.OnSide;
    forall r | r in sorted ensures r in rows { assert r in multiset(sorted) && r in multiset(rows); }
  }

  lemma AnsweredAmong(p: Participant, seated: seq<S.Row>, rows: seq<S.Row>)
    requires Answered(p, seated) && forall r :: r in seated ==> r in rows
    ensures Answered(p, rows)
  {
    var i :| 0 <= i < |seated| && SeatSays(p, seated[i]);
    assert seated[i] in rows;
    var k :| 0 <= k < |rows| && rows[k] == seated[i];
  }

  lemma SaysAmong(lobby: Lobby, night: S.Night, seated: seq<S.Row>, rows: seq<S.Row>)
    requires LobbySays(lobby, night, seated) && forall r :: r in seated ==> r in rows
    ensures LobbySays(lobby, night, rows)
  {
    hide Answered;
    forall p | p in lobby.participants ensures Answered(p, rows) { AnsweredAmong(p, seated, rows); }
  }

  /** Whether or not a conversion was cut short before, the lobby it answers with
      closes four hours after the night begins, names the night, and has every
      player's row as that player answered. */
  lemma ConvertedLobbySays(w: World, s: S.Store, env: Env, again: Env, names: S.Names, eventId: string, cut: Cut)
    requires ReadyToOpen(w, s, eventId) && again.naming == env.naming
    requires FreeCode(w.store, s.nights[eventId].guildId, LobbyIdOf(s.nights[eventId]), env.naming, 0).Some?
    requires Cuts(BookingOf(s, eventId).value, cut) && !cut.Marked? && GoesOn(s.nights[eventId], names)
    ensures var (at, there) := CutShort(w, s, env, names, BookingOf(s, eventId).value, cut);
            && eventId in there.nights
            && var (v, after, r) := ConvertToLobby(at, there, again, names, BookingOf(there, eventId).value);
            && r.Ok? && LobbySays(r.value, s.nights[eventId], S.RowsOf(s, eventId))
  {
    hide Ordered, NoNightOps, FreeCode, Filled, S.LineOf, S.Convert, SL.Keeps, ST.SeatedRows, ST.WaitingRows, S.InWeek, GoodBooking,
      CutAt, FromLine, GoesOn, Cuts, SameLobby, LobbySays, IsSpace;
    var b := BookingOf(s, eventId).value;
    BookingIs(s, eventId);
    SeatedApart(b);
    ConversionRestarts(w, s, env, again, names, eventId, cut);
    CutBears(w, env, b, cut);
    FilledBears(CutAt(w, env, b, cut), again, b);
    var v := Filled(CutAt(w, env, b, cut), again, b).0;
    SeatedAreRows(S.RowsOf(s, eventId));
    FoundIs(v.store, b.night);
    if LobbyIdOf(b.night) in v.store.lobbies { SaysAmong(v.store.lobbies[LobbyIdOf(b.night)], b.night, b.seated, S.RowsOf(s, eventId)); }
  }

  lemma FoundIs(store: Store, night: S.Night)
    ensures var f := Find(store, night.guildId, LobbyIdOf(night)); f.Some? ==> LobbyIdOf(night) in store.lobbies && f.value == store.lobbies[LobbyIdOf(night)]
  {
  }
}
