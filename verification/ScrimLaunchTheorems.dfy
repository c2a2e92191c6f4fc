/** A scrim from its locked rosters to the two sides of its draft. */
module ScrimLaunchTheorems {
  import opened Common
  import opened PartyStore
  import opened PartyStoreInvariant
  import opened PartyLobby
  import opened ScrimLaunch
  import SC = Scrims
  import ST = ScrimsTheorems
  import S = PartySchedule
  import L = PartyScheduleLine
  import LT = PartyScheduleTheorems
  import SL = ScheduledLobby
  import SLT = ScheduledLobbyTheorems
  import PD = PartyDraft
  import PLS = PartyLobbySteps
  import PLG = PartyLobbyStages
  import PQ = PartyQueue
  import R = PartyLobbyRoster

  // ---- The night --------------------------------------------------------------------------

  ghost predicate Plain(rows: seq<S.Row>) { forall r :: r in rows ==> r.preferences == NO_PREFERENCES }

  /** The scrim's night, not converted, whose line these players are. */
  ghost predicate NightWith(s: S.Store, id: string, ch: SC.Challenge, players: seq<int>, state: S.EventState) {
    && id in s.nights && s.nights[id].eventId == id && s.nights[id].state == state && s.nights[id].lobbyId == None
    && s.nights[id].guildId == ch.guildId && s.nights[id].organizerId == ch.organizerId && s.nights[id].recurrence == S.Once
    && s.nights[id].capacity == |LockedPlayers(ch)| && InLine(S.RowsOf(s, id), players, s.nights[id].capacity)
  }

  ghost predicate InLine(rows: seq<S.Row>, players: seq<int>, capacity: int) { L.Keeps(rows, players, capacity) && Plain(rows) }

  lemma AnswerMoves(rows: seq<S.Row>, players: seq<int>, capacity: int, u: int, now: int)
    requires InLine(rows, players, capacity)
    ensures InLine(S.RsvpRows(rows, capacity, u, NO_PREFERENCES, now), L.JoinLine(players, u), capacity)
    ensures u in players ==> S.RsvpRows(rows, capacity, u, NO_PREFERENCES, now) == rows
  {
    L.RsvpKeeps(rows, players, capacity, u, NO_PREFERENCES, now);
    hide L.InOrder, L.GoodRow;
    var i, after := S.RowOf(rows, u), S.RsvpRows(rows, capacity, u, NO_PREFERENCES, now);
    assert i < |rows| ==> rows[i] in rows;
    assert u in players ==> S.IsGoing(rows, u);
    hide L.Keeps;
    forall r | r in after ensures r.preferences == NO_PREFERENCES {
      var k :| 0 <= k < |after| && after[k] == r;
      if k < |rows| && k != i { assert rows[k] in rows; }
    }
  }

  /** One player answers: at the back of the line, or nothing changes. */
  lemma AnswersOnce(s: S.Store, id: string, ch: SC.Challenge, line: seq<int>, u: int, now: int, names: S.Names)
    requires NightWith(s, id, ch, line, S.Scheduled)
    ensures var r := S.Exec(s, S.Rsvp(id, u, NO_PREFERENCES), now, names);
            r.Ok? && NightWith(r.value, id, ch, L.JoinLine(line, u), S.Scheduled) && (u in line ==> r.value == s)
  {
    hide InLine, S.RsvpRows, LockedPlayers, L.JoinLine;
    AnswerMoves(S.RowsOf(s, id), line, s.nights[id].capacity, u, now);
    if u in line {
      RowsAreThere(s, id, line, s.nights[id].capacity);
      assert S.WithRows(s, id, S.RowsOf(s, id)).rsvps == s.rsvps;
    }
  }

  /** The first `n` players answer, when `k` of them already have. */
  lemma {:induction false} Answers(s: S.Store, id: string, ch: SC.Challenge, players: seq<int>, k: nat, n: nat, now: int, names: S.Names)
    requires k <= |players| && n <= |players| && Distinct(players) && NightWith(s, id, ch, players[..k], S.Scheduled)
    ensures var (after, failed) := RsvpAll(s, id, players[..n], now, names);
            failed == None && NightWith(after, id, ch, players[..Max(k, n)], S.Scheduled) && (n <= k ==> after == s)
    decreases n
  {
    hide NightWith, S.Exec, L.JoinLine;
    if n > 0 {
      Answers(s, id, ch, players, k, n - 1, now, names);
      assert players[..n][..n - 1] == players[..n - 1];
      var before := RsvpAll(s, id, players[..n - 1], now, names).0;
      Joining(players, k, n);
      AnswersOnce(before, id, ch, players[..Max(k, n - 1)], players[n - 1], now, names);
    }
  }

  lemma Joining(players: seq<int>, k: nat, n: nat)
    requires 0 < n <= |players| && k <= |players| && Distinct(players)
    ensures L.JoinLine(players[..Max(k, n - 1)], players[n - 1]) == players[..Max(k, n)]
    ensures n <= k ==> players[n - 1] in players[..Max(k, n - 1)]
  {
    var line, u := players[..Max(k, n - 1)], players[n - 1];
    if n <= k {
      assert line[n - 1] == u;
    } else {
      assert forall i :: 0 <= i < n - 1 ==> players[i] != players[n - 1];
      assert line + [u] == players[..n];
    }
  }

  lemma RowsAreThere(s: S.Store, id: string, line: seq<int>, capacity: int)
    requires InLine(S.RowsOf(s, id), line, capacity) && line != []
    ensures id in s.rsvps
  {
    assert L.GoingAre(S.RowsOf(s, id), line);
    var u := line[0];
    assert u in line && S.IsGoing(S.RowsOf(s, id), u);
  }

  lemma EmptyNightKeeps(capacity: int)
    ensures InLine([], [], capacity)
  {
  }

  function ConfirmedNight(s: S.Store, ch: SC.Challenge, title: string, now: int, names: S.Names): S.Store {
    S.After(S.After(s, NightCommand(ch, title), now, names), S.Confirm(EventIdOf(ch, names), ch.organizerId), now, names)
  }

  /** With nothing of the night there yet, it is made, and confirmed. */
  lemma MakesNight(s: S.Store, ch: SC.Challenge, title: string, now: int, names: S.Names)
    requires EventIdOf(ch, names) !in s.nights && EventIdOf(ch, names) !in s.rsvps && |LockedPlayers(ch)| == 10
    ensures NightWith(S.After(s, NightCommand(ch, title), now, names), EventIdOf(ch, names), ch, [], S.PendingConfirmation)
    ensures NightWith(ConfirmedNight(s, ch, title, now, names), EventIdOf(ch, names), ch, [], S.Scheduled)
  {
    hide InLine, S.Leads, LockedPlayers;
    EmptyNightKeeps(10);
  }

  /** A night that is there is found again, and the answers go on. */
  lemma PreparesAgain(s: S.Store, ch: SC.Challenge, title: string, now: int, names: S.Names, k: nat, state: S.EventState)
    requires |LockedPlayers(ch)| == 10 && Distinct(LockedPlayers(ch)) && k <= 10
    requires NightWith(s, EventIdOf(ch, names), ch, LockedPlayers(ch)[..k], state) && (state == S.Scheduled || state == S.PendingConfirmation)
    ensures var (after, failed) := PreparedNight(s, ch, title, now, names);
            && failed == None && NightWith(after, EventIdOf(ch, names), ch, LockedPlayers(ch), S.Scheduled)
            && (k == 10 && state == S.Scheduled ==> after == s)
  {
    hide InLine, S.Leads, LockedPlayers, RsvpAll;
    var id, players := EventIdOf(ch, names), LockedPlayers(ch);
    var confirmed := S.Exec(s, S.Confirm(id, ch.organizerId), now, names).value;
    Answers(confirmed, id, ch, players, k, 10, now, names);
    assert players[..10] == players;
  }

  lemma Prepares(s: S.Store, ch: SC.Challenge, title: string, now: int, names: S.Names)
    requires EventIdOf(ch, names) !in s.nights && EventIdOf(ch, names) !in s.rsvps
    requires |LockedPlayers(ch)| == 10 && Distinct(LockedPlayers(ch))
    ensures var (after, failed) := PreparedNight(s, ch, title, now, names);
            failed == None && NightWith(after, EventIdOf(ch, names), ch, LockedPlayers(ch), S.Scheduled)
  {
    hide InLine, S.Leads, LockedPlayers, RsvpAll;
    var id, players, confirmed := EventIdOf(ch, names), LockedPlayers(ch), ConfirmedNight(s, ch, title, now, names);
    MakesNight(s, ch, title, now, names);
    assert players[..0] == [] && players[..10] == players;
    Answers(confirmed, id, ch, players, 0, 10, now, names);
  }

  /** Ten players can answer exactly when the night, if it is there, is this
      organizer's and neither converted nor cancelled. */
  lemma PreparesWhen(s: S.Store, ch: SC.Challenge, title: string, now: int, names: S.Names)
    requires |LockedPlayers(ch)| == 10
    ensures var id := EventIdOf(ch, names);
            PreparedNight(s, ch, title, now, names).1 == None <==>
              (id in s.nights ==> s.nights[id].organizerId == ch.organizerId && s.nights[id].state in {S.PendingConfirmation, S.Scheduled})
  {
    hide S.Leads, LockedPlayers, RsvpAll, EventIdOf;
    EventIdIs(ch, title, names);
    var id, made := EventIdOf(ch, names), S.Exec(s, NightCommand(ch, title), now, names).value;
    if made.nights[id].organizerId == ch.organizerId {
      var confirmed := S.Exec(made, S.Confirm(id, ch.organizerId), now, names).value;
      if confirmed.nights[id].state == S.Scheduled {
        AllMayAnswer(confirmed, id, LockedPlayers(ch), now, names);
      } else {
        FirstAnswerFails(confirmed, id, LockedPlayers(ch), now, names);
      }
    }
  }

  lemma {:induction false} AllMayAnswer(s: S.Store, id: string, players: seq<int>, now: int, names: S.Names)
    requires id in s.nights && s.nights[id].state == S.Scheduled
    ensures var (after, failed) := RsvpAll(s, id, players, now, names); failed == None && after.nights == s.nights
    decreases |players|
  {
    hide S.RsvpRows;
    if players != [] { AllMayAnswer(s, id, players[..|players| - 1], now, names); }
  }

  lemma EventIdIs(ch: SC.Challenge, title: string, names: S.Names)
    ensures names.eventId(NightCommand(ch, title).guildId, NightCommand(ch, title).op) == EventIdOf(ch, names)
  {
  }

  lemma {:induction false} FirstAnswerFails(s: S.Store, eventId: string, players: seq<int>, now: int, names: S.Names)
    requires eventId in s.nights && s.nights[eventId].state != S.Scheduled && players != []
    ensures RsvpAll(s, eventId, players, now, names) == (s, Some(S.NotConfirmed))
    decreases |players|
  {
    if |players| > 1 { FirstAnswerFails(s, eventId, players[..|players| - 1], now, names); }
  }

  // ---- The lobby --------------------------------------------------------------------------

  ghost predicate NoLobbyYet(w: World, eventId: string) {
    && Ordered(w.store) && SLT.NoNightOps(w.store.audit, eventId)
    && "scheduled-" + eventId !in w.store.lobbies && "scheduled-" + eventId !in w.queues
  }

  /** Nothing of the scrim's night and lobby exists yet. */
  ghost predicate NothingLaunched(x: Services, ch: SC.Challenge, names: S.Names) {
    var eventId := EventIdOf(ch, names);
    eventId !in x.schedule.nights && eventId !in x.schedule.rsvps && NoLobbyYet(x.party, eventId)
  }

  lemma IsReadyToOpen(w: World, s: S.Store, id: string, ch: SC.Challenge, names: S.Names)
    requires NightWith(s, id, ch, LockedPlayers(ch), S.Scheduled) && |LockedPlayers(ch)| == 10 && NoLobbyYet(w, id)
    ensures SLT.ReadyToOpen(w, s, id) && SL.LobbyIdOf(s.nights[id]) == "scheduled-" + id && SLT.GoesOn(s.nights[id], names)
    ensures S.LineOf(S.RowsOf(s, id)) == LockedPlayers(ch)
  {
    hide Ordered, SLT.NoNightOps, L.Keeps, LockedPlayers, S.LineOf;
    LT.KeepsIsItsLine(S.RowsOf(s, id), LockedPlayers(ch), s.nights[id].capacity);
  }

  /** A conversion that opened this night's lobby, marked on the challenge. */
  lemma HandsOff(x: Services, s: S.Store, env: Env, names: S.Names, ch: SC.Challenge, op: string)
    requires NightWith(s, EventIdOf(ch, names), ch, LockedPlayers(ch), S.Scheduled) && |LockedPlayers(ch)| == 10
    requires ch.challengeId in x.scrims.challenges && x.scrims.challenges[ch.challengeId] == ch && ch.state == SC.Locked && ch.lobbyId == None
    requires op !in x.scrims.operations && SL.BookingOf(x.schedule, EventIdOf(ch, names)).Some?
    requires S.LineOf(S.RowsOf(s, EventIdOf(ch, names))) == LockedPlayers(ch)
    requires var (party, schedule, r) := SL.ConvertToLobby(x.party, x.schedule, env, names, SL.BookingOf(x.schedule, EventIdOf(ch, names)).value);
             r.Ok? ==> SLT.OpenedAs(party, schedule, r, s, EventIdOf(ch, names))
    ensures var converted := SL.ConvertToLobby(x.party, x.schedule, env, names, SL.BookingOf(x.schedule, EventIdOf(ch, names)).value).2;
            var (after, r) := Handoff(x, env, names, ch, op);
            && (r.Ok? <==> converted.Ok?) && (r.Ok? ==> Launched(after, ch, r.value, "scheduled-" + EventIdOf(ch, names)))
  {
    hide InLine, LockedPlayers, SL.ConvertToLobby, SLT.FromLine, S.LineOf, SC.Launches, EventIdOf, SL.BookingOf;
    var eventId := EventIdOf(ch, names);
    var (party, schedule, r) := SL.ConvertToLobby(x.party, x.schedule, env, names, SL.BookingOf(x.schedule, eventId).value);
    if r.Ok? {
      SeatedTen(party, s.nights[eventId], LockedPlayers(ch));
      MarksLaunched(x.scrims, ch, eventId, r.value.lobbyId, op);
    }
  }

  lemma MarksLaunched(store: SC.Store, ch: SC.Challenge, eventId: string, lobbyId: string, op: string)
    requires ch.challengeId in store.challenges && store.challenges[ch.challengeId] == ch && ch.state == SC.Locked && ch.lobbyId == None
    requires op !in store.operations
    ensures var r := SC.Launches(store, SC.MarkLaunched(ch.challengeId, eventId, lobbyId, op));
            && r.Ok? && ch.challengeId in r.value.challenges
            && r.value.challenges[ch.challengeId] == ch.(state := SC.Launched, eventId := Some(eventId), lobbyId := Some(lobbyId))
  {
  }

  lemma SeatedTen(w: World, night: S.Night, players: seq<int>)
    requires SLT.FromLine(w, night, players) && night.capacity == |players| == 10
    ensures var id := SL.LobbyIdOf(night);
            && id in w.store.lobbies && id in w.queues && |w.store.lobbies[id].participants| == 10
            && (forall u :: HasParticipant(w.store.lobbies[id], u) <==> u in players)
            && w.store.lobbies[id].state == ReadyCheck && w.store.lobbies[id].lobbyId == id && w.store.lobbies[id].guildId == night.guildId
            && PQ.Ids(w.queues[id].active) == players && w.queues[id].waitlist == [] && w.queues[id].status == PQ.ReadyCheck && Ordered(w.store)
  {
    assert players[..10] == players && players[10..] == [];
    var id := SL.LobbyIdOf(night);
    assert |PQ.Ids(w.queues[id].waitlist)| == 0;
  }

  /** The scrim has launched into this lobby: the two locked rosters, and nobody else. */
  ghost predicate Launched(x: Services, ch: SC.Challenge, lobby: Lobby, id: string) {
    && id in x.party.store.lobbies && x.party.store.lobbies[id] == lobby && lobby.lobbyId == id && lobby.guildId == ch.guildId
    && lobby.state == ReadyCheck && |lobby.participants| == 10 && (forall u :: HasParticipant(lobby, u) <==> u in LockedPlayers(ch))
    && id in x.party.queues && PQ.Ids(x.party.queues[id].active) == LockedPlayers(ch) && x.party.queues[id].waitlist == []
    && x.party.queues[id].status == PQ.ReadyCheck && Ordered(x.party.store)
    && ch.challengeId in x.scrims.challenges && x.scrims.challenges[ch.challengeId].state == SC.Launched
    && x.scrims.challenges[ch.challengeId].lobbyId == Some(id) && x.scrims.challenges[ch.challengeId].locked == ch.locked
    && x.scrims.challenges[ch.challengeId].challenger == ch.challenger && x.scrims.challenges[ch.challengeId].recipient == ch.recipient
  }

  // ---- Launching --------------------------------------------------------------------------

  /** A launch of this locked challenge begins with a free operation ID. */
  ghost predicate MayLaunch(x: Services, id: string, op: string) {
    && SC.GoodScrims(x.scrims) && id in x.scrims.challenges && x.scrims.challenges[id].challengeId == id
    && x.scrims.challenges[id].state == SC.Locked && op !in x.scrims.operations
  }

  ghost predicate TwoFives(ch: SC.Challenge) {
    |LockedRoster(ch, ch.challenger)| == 5 && |LockedRoster(ch, ch.recipient)| == 5 && Distinct(LockedPlayers(ch))
  }

  lemma LockedIs(store: SC.Store, id: string)
    requires SC.GoodScrims(store) && id in store.challenges && store.challenges[id].state == SC.Locked
    ensures var ch := store.challenges[id];
            ch.challenger in store.teams && ch.recipient in store.teams && ch.lobbyId == None && ch.eventId == None
  {
    assert SC.GoodChallenge(store, id);
  }

  /** Two times five different players answer, and their night is handed off. */
  lemma LaunchIs(x: Services, env: Env, names: S.Names, id: string, op: string)
    requires MayLaunch(x, id, op)
    ensures var ch := x.scrims.challenges[id];
            && ch.challenger in x.scrims.teams && ch.recipient in x.scrims.teams && ch.lobbyId == None
            && var (after, r) := LaunchScrim(x, env, names, id, op);
               var (night, failed) := PreparedNight(x.schedule, ch, TitleOf(x.scrims, ch), env.now, names);
               && (!TwoFives(ch) ==> r.Err?)
               && (TwoFives(ch) ==> (after, r) == if failed.Some? then (x.(schedule := night), Err(InSchedule(failed.value)))
                                                  else Handoff(x.(schedule := night), env, names, ch, op))
  {
    hide SC.GoodScrims, PreparedNight, Handoff, LockedRoster, TitleOf;
    LockedIs(x.scrims, id);
  }

  /** A launch nobody interrupts succeeds exactly when the locked rosters are two
      times five different players and a queue code is free; the lobby then has these
      ten players, its ready check runs, and the challenge is LAUNCHED into it. */
  lemma UninterruptedLaunch(x: Services, env: Env, names: S.Names, id: string, op: string)
    requires MayLaunch(x, id, op) && NothingLaunched(x, x.scrims.challenges[id], names)
    ensures var ch := x.scrims.challenges[id];
            var (after, r) := LaunchScrim(x, env, names, id, op);
            var lobbyId := "scheduled-" + EventIdOf(ch, names);
            && (r.Ok? <==> TwoFives(ch) && FreeCode(x.party.store, ch.guildId, lobbyId, env.naming, 0).Some?)
            && (r.Ok? ==> Launched(after, ch, r.value, lobbyId))
  {
    hide SC.GoodScrims, NoLobbyYet, FreeCode, PreparedNight, LaunchScrim, Handoff, Launched, LockedRoster, EventIdOf, InLine,
      SL.ConvertToLobby, SLT.ReadyToOpen, SLT.OpenedAs, S.LineOf, TitleOf, LockedPlayers;
    var ch, eventId := x.scrims.challenges[id], EventIdOf(x.scrims.challenges[id], names);
    LaunchIs(x, env, names, id, op);
    if TwoFives(ch) {
      TenPlayers(ch);
      Prepares(x.schedule, ch, TitleOf(x.scrims, ch), env.now, names);
      var night := PreparedNight(x.schedule, ch, TitleOf(x.scrims, ch), env.now, names).0;
      IsReadyToOpen(x.party, night, eventId, ch, names);
      SLT.ConversionSeatsTheLine(x.party, night, env, names, eventId);
      HandsOff(x.(schedule := night), night, env, names, ch, op);
    }
  }

  lemma TenPlayers(ch: SC.Challenge)
    requires TwoFives(ch)
    ensures |LockedPlayers(ch)| == 10
  {
  }

  // ---- A launch cut short -----------------------------------------------------------------

  /** Where a launch may be cut short before its challenge is marked. */
  datatype Stage = NothingDone | NightMade | Answered(k: nat) | InConversion(cut: SLT.Cut)

  ghost predicate Stages(x: Services, env: Env, names: S.Names, ch: SC.Challenge, stage: Stage)
    requires ch.challenger in x.scrims.teams && ch.recipient in x.scrims.teams
  {
    match stage
    case Answered(k) => k <= |LockedPlayers(ch)|
    case InConversion(cut) =>
      var b := SL.BookingOf(PreparedNight(x.schedule, ch, TitleOf(x.scrims, ch), env.now, names).0, EventIdOf(ch, names));
      b.Some? && SLT.Cuts(b.value, cut)
    case _ => true
  }

  function LaunchCut(x: Services, env: Env, names: S.Names, ch: SC.Challenge, stage: Stage): Services
    requires ch.challenger in x.scrims.teams && ch.recipient in x.scrims.teams && Stages(x, env, names, ch, stage)
  {
    var id, title := EventIdOf(ch, names), TitleOf(x.scrims, ch);
    match stage
    case NothingDone => x
    case NightMade => x.(schedule := S.After(x.schedule, NightCommand(ch, title), env.now, names))
    case Answered(k) =>
      x.(schedule := RsvpAll(ConfirmedNight(x.schedule, ch, title, env.now, names), id, LockedPlayers(ch)[..k], env.now, names).0)
    case InConversion(cut) =>
      var night := PreparedNight(x.schedule, ch, title, env.now, names).0;
      var (party, schedule) := SLT.CutShort(x.party, night, env, names, SL.BookingOf(night, id).value, cut);
      x.(party := party, schedule := schedule)
  }

  /** Before the conversion, the lobby store is untouched and the night is on its way. */
  lemma CutBeforeConverting(x: Services, env: Env, names: S.Names, ch: SC.Challenge, stage: Stage) returns (k: nat, state: S.EventState)
    requires ch.challenger in x.scrims.teams && ch.recipient in x.scrims.teams && Stages(x, env, names, ch, stage)
    requires NothingLaunched(x, ch, names) && |LockedPlayers(ch)| == 10 && Distinct(LockedPlayers(ch)) && (stage.NightMade? || stage.Answered?)
    ensures var at := LaunchCut(x, env, names, ch, stage);
            && at == x.(schedule := at.schedule) && k <= 10 && (state == S.Scheduled || state == S.PendingConfirmation)
            && NightWith(at.schedule, EventIdOf(ch, names), ch, LockedPlayers(ch)[..k], state)
  {
    hide NoLobbyYet, InLine, S.After, RsvpAll, LockedPlayers, EventIdOf, TitleOf, PreparedNight;
    var id, title, players := EventIdOf(ch, names), TitleOf(x.scrims, ch), LockedPlayers(ch);
    MakesNight(x.schedule, ch, title, env.now, names);
    assert players[..0] == [];
    if stage.NightMade? {
      k, state := 0, S.PendingConfirmation;
    } else {
      k, state := stage.k, S.Scheduled;
      Answers(ConfirmedNight(x.schedule, ch, title, env.now, names), id, ch, players, 0, k, env.now, names);
    }
  }

  /** A launch cut short before its night was converted is taken up where it ended.
      One cut short between that and the mark on the challenge is not: the converted
      night takes no answers, and every later launch fails like this one. */
  lemma InterruptedLaunch(x: Services, env: Env, again: Env, names: S.Names, id: string, op: string, stage: Stage)
    requires MayLaunch(x, id, op) && NothingLaunched(x, x.scrims.challenges[id], names) && TwoFives(x.scrims.challenges[id])
    requires x.scrims.challenges[id].challenger in x.scrims.teams && x.scrims.challenges[id].recipient in x.scrims.teams
    requires again.naming == env.naming && Stages(x, env, names, x.scrims.challenges[id], stage)
    requires FreeCode(x.party.store, x.scrims.challenges[id].guildId, "scheduled-" + EventIdOf(x.scrims.challenges[id], names), env.naming, 0).Some?
    ensures var ch := x.scrims.challenges[id];
            var at := LaunchCut(x, env, names, ch, stage);
            var (after, r) := LaunchScrim(at, again, names, id, op);
            && (r.Ok? <==> stage != InConversion(SLT.Marked))
            && (r.Ok? ==> Launched(after, ch, r.value, "scheduled-" + EventIdOf(ch, names)))
            && (r.Err? ==> after == at && r.error == InSchedule(S.NotConfirmed))
  {
    hide SC.GoodScrims, NothingLaunched, FreeCode, PreparedNight, LaunchScrim, Handoff, Launched, LaunchCut, Stages, EventIdOf, TitleOf, TwoFives;
    if stage.NothingDone? {
      UninterruptedLaunch(x, again, names, id, op);
      NothingIs(x, env, names, x.scrims.challenges[id]);
    } else if stage.InConversion? {
      RelaunchConverting(x, env, again, names, id, op, stage.cut);
    } else {
      RelaunchPreparing(x, env, again, names, id, op, stage);
    }
  }

  lemma NothingIs(x: Services, env: Env, names: S.Names, ch: SC.Challenge)
    requires ch.challenger in x.scrims.teams && ch.recipient in x.scrims.teams
    ensures Stages(x, env, names, ch, NothingDone) && LaunchCut(x, env, names, ch, NothingDone) == x
  {
  }

  lemma RelaunchPreparing(x: Services, env: Env, again: Env, names: S.Names, id: string, op: string, stage: Stage)
    requires MayLaunch(x, id, op) && NothingLaunched(x, x.scrims.challenges[id], names) && TwoFives(x.scrims.challenges[id])
    requires x.scrims.challenges[id].challenger in x.scrims.teams && x.scrims.challenges[id].recipient in x.scrims.teams
    requires Stages(x, env, names, x.scrims.challenges[id], stage) && (stage.NightMade? || stage.Answered?)
    requires FreeCode(x.party.store, x.scrims.challenges[id].guildId, "scheduled-" + EventIdOf(x.scrims.challenges[id], names), again.naming, 0).Some?
    ensures var ch := x.scrims.challenges[id];
            var (after, r) := LaunchScrim(LaunchCut(x, env, names, ch, stage), again, names, id, op);
            r.Ok? && Launched(after, ch, r.value, "scheduled-" + EventIdOf(ch, names))
  {
    hide SC.GoodScrims, NoLobbyYet, FreeCode, PreparedNight, LaunchScrim, Handoff, Launched, LaunchCut, Stages, EventIdOf, TitleOf,
      LockedPlayers, InLine, SL.ConvertToLobby, SLT.ReadyToOpen, SLT.OpenedAs, S.LineOf;
    var ch, eventId := x.scrims.challenges[id], EventIdOf(x.scrims.challenges[id], names);
    TenPlayers(ch);
    var k, state := CutBeforeConverting(x, env, names, ch, stage);
    var at := LaunchCut(x, env, names, ch, stage);
    LaunchIs(at, again, names, id, op);
    PreparesAgain(at.schedule, ch, TitleOf(x.scrims, ch), again.now, names, k, state);
    var night := PreparedNight(at.schedule, ch, TitleOf(x.scrims, ch), again.now, names).0;
    IsReadyToOpen(x.party, night, eventId, ch, names);
    SLT.ConversionSeatsTheLine(x.party, night, again, names, eventId);
    HandsOff(at.(schedule := night), night, again, names, ch, op);
  }

  lemma ConvertingIs(x: Services, env: Env, names: S.Names, ch: SC.Challenge, cut: SLT.Cut)
    requires ch.challenger in x.scrims.teams && ch.recipient in x.scrims.teams && Stages(x, env, names, ch, InConversion(cut))
    ensures var night := PreparedNight(x.schedule, ch, TitleOf(x.scrims, ch), env.now, names).0;
            && SL.BookingOf(night, EventIdOf(ch, names)).Some? && SLT.Cuts(SL.BookingOf(night, EventIdOf(ch, names)).value, cut)
            && var (party, schedule) := SLT.CutShort(x.party, night, env, names, SL.BookingOf(night, EventIdOf(ch, names)).value, cut);
               LaunchCut(x, env, names, ch, InConversion(cut)) == x.(party := party, schedule := schedule)
  {
    hide PreparedNight, EventIdOf, TitleOf, SLT.CutShort, SL.BookingOf;
  }

  lemma RelaunchConverting(x: Services, env: Env, again: Env, names: S.Names, id: string, op: string, cut: SLT.Cut)
    requires MayLaunch(x, id, op) && NothingLaunched(x, x.scrims.challenges[id], names) && TwoFives(x.scrims.challenges[id])
    requires x.scrims.challenges[id].challenger in x.scrims.teams && x.scrims.challenges[id].recipient in x.scrims.teams
    requires again.naming == env.naming && Stages(x, env, names, x.scrims.challenges[id], InConversion(cut))
    requires FreeCode(x.party.store, x.scrims.challenges[id].guildId, "scheduled-" + EventIdOf(x.scrims.challenges[id], names), env.naming, 0).Some?
    ensures var ch := x.scrims.challenges[id];
            var at := LaunchCut(x, env, names, ch, InConversion(cut));
            var (after, r) := LaunchScrim(at, again, names, id, op);
            && (cut != SLT.Marked ==> r.Ok? && Launched(after, ch, r.value, "scheduled-" + EventIdOf(ch, names)))
            && (cut == SLT.Marked ==> after == at && r == Err(InSchedule(S.NotConfirmed)))
  {
    hide SC.GoodScrims, NoLobbyYet, FreeCode, PreparedNight, LaunchScrim, Handoff, Launched, LaunchCut, Stages, EventIdOf, TitleOf,
      LockedPlayers, LockedRoster, InLine, SL.ConvertToLobby, SLT.CutShort, SLT.ReadyToOpen, SLT.OpenedAs, SLT.GoesOn, S.LineOf;
    var ch, eventId, title := x.scrims.challenges[id], EventIdOf(x.scrims.challenges[id], names), TitleOf(x.scrims, x.scrims.challenges[id]);
    var at := LaunchCut(x, env, names, ch, InConversion(cut));
    TenPlayers(ch);
    ConvertingIs(x, env, names, ch, cut);
    Prepares(x.schedule, ch, title, env.now, names);
    var night := PreparedNight(x.schedule, ch, title, env.now, names).0;
    IsReadyToOpen(x.party, night, eventId, ch, names);
    SLT.ConversionRestarts(x.party, night, env, again, names, eventId, cut);
    if cut != SLT.Marked {
      assert LockedPlayers(ch)[..10] == LockedPlayers(ch);
      PreparesAgain(night, ch, title, again.now, names, 10, S.Scheduled);
      LaunchIs(at, again, names, id, op);
      HandsOff(at, night, again, names, ch, op);
    } else {
      ConvertedLaunchIsStuck(at, again, names, id, op);
    }
  }

  /** A launch interrupted after its night was converted cannot be taken up again:
      the converted night takes no answers. */
  lemma ConvertedLaunchIsStuck(x: Services, env: Env, names: S.Names, id: string, op: string)
    requires SC.GoodScrims(x.scrims) && id in x.scrims.challenges && x.scrims.challenges[id].state == SC.Locked
    requires var ch := x.scrims.challenges[id];
             && TwoFives(ch)
             && EventIdOf(ch, names) in x.schedule.nights && x.schedule.nights[EventIdOf(ch, names)].state == S.Converted
             && x.schedule.nights[EventIdOf(ch, names)].organizerId == ch.organizerId
    ensures LaunchScrim(x, env, names, id, op) == (x, Err(InSchedule(S.NotConfirmed)))
  {
    hide SC.GoodScrims, SC.Handshake, S.Leads, LockedRoster, Handoff, RsvpAll, EventIdOf, TitleOf;
    var ch := x.scrims.challenges[id];
    LockedIs(x.scrims, id);
    var eventId, players := EventIdOf(ch, names), LockedPlayers(ch);
    EventIdIs(ch, TitleOf(x.scrims, ch), names);
    FirstAnswerFails(x.schedule, eventId, players, env.now, names);
  }

  // ---- The ready check --------------------------------------------------------------------

  /** Everybody's button presses, one after the other. */
  function AnswerAll(w: World, id: string, answers: seq<(Env, int)>): World {
    if answers == [] then w
    else
      var n := |answers| - 1;
      AnswerReadyCheck(AnswerAll(w, id, answers[..n]), answers[n].0, id, answers[n].1, PQ.Ready).0
  }

  /** A seated player presses Ready before the deadline, in an interaction of their own. */
  ghost predicate OnTime(w: World, id: string, a: (Env, int))
    requires id in w.store.lobbies && id in w.queues
  {
    && a.1 in PQ.Ids(w.queues[id].active) && a.0.guildId == w.store.lobbies[id].guildId
    && (w.queues[id].deadline.Some? ==> a.0.now < w.queues[id].deadline.value) && !Used(w.store, Discord(a.0.interaction, "forming", 0))
  }

  ghost predicate Gathered(w: World, id: string) {
    && Ordered(w.store) && id in w.store.lobbies && w.store.lobbies[id].state == ReadyCheck && id in w.queues
    && w.queues[id].status == PQ.ReadyCheck && |w.queues[id].active| % 2 == 0 && 2 <= |w.queues[id].active| <= 10
  }

  ghost predicate Answered(ready: map<int, PQ.ReadyStatus>, answers: seq<(Env, int)>) {
    forall i :: 0 <= i < |answers| ==> answers[i].1 in ready && ready[answers[i].1] == PQ.Ready
  }

  /** The lobby while its players answer: in its ready check until all are ready. */
  ghost predicate Gathering(w: World, v: World, id: string, answers: seq<(Env, int)>)
    requires id in w.store.lobbies && id in w.queues
  {
    && id in v.queues && v.queues[id] == w.queues[id].(ready := v.queues[id].ready) && Answered(v.queues[id].ready, answers)
    && id in v.store.lobbies
    && ((v.store == w.store && (answers != [] ==> !EveryoneReady(v.queues[id])))
        || (v.store.lobbies[id].state == Forming && v.store.lobbies[id].participants == w.store.lobbies[id].participants
            && v.store.lobbies[id].guildId == w.store.lobbies[id].guildId))
  }

  lemma {:induction false} PlayersAnswer(w: World, id: string, answers: seq<(Env, int)>)
    requires Gathered(w, id) && forall a :: a in answers ==> OnTime(w, id, a)
    ensures Gathering(w, AnswerAll(w, id, answers), id, answers)
    decreases |answers|
  {
    hide Gathered, Gathering, OnTime, AnswerReadyCheck;
    GatheredThere(w, id);
    if answers != [] {
      var n := |answers| - 1;
      var v, a := AnswerAll(w, id, answers[..n]), answers[n];
      PlayersAnswer(w, id, answers[..n]);
      assert a in answers && OnTime(w, id, a);
      PlayerAnswers(w, v, id, answers[..n], a);
      assert answers[..n] + [a] == answers;
    }
  }

  lemma GatheredThere(w: World, id: string)
    requires Gathered(w, id)
    ensures id in w.store.lobbies && id in w.queues && Gathering(w, w, id, [])
  {
    hide Ordered, EveryoneReady;
    assert w.queues[id] == w.queues[id].(ready := w.queues[id].ready);
  }

  lemma PlayerAnswers(w: World, v: World, id: string, answers: seq<(Env, int)>, a: (Env, int))
    requires Gathered(w, id) && Gathering(w, v, id, answers) && OnTime(w, id, a)
    ensures Gathering(w, AnswerReadyCheck(v, a.0, id, a.1, PQ.Ready).0, id, answers + [a])
  {
    hide Ordered, Move, EveryoneReady, FollowDeparture, AfterDrop, Used;
    var q := v.queues[id];
    R.HasIsInIds(q.active, a.1);
    var (p, promoted) := PQ.Responded(q, a.1, PQ.Ready, a.0.now, a.0.config).value;
    assert p == w.queues[id].(ready := p.ready);
    AnsweredMore(q.ready, answers, a);
    if EveryoneReady(p) && v.store == w.store {
      Forms(w, WithQueue(v, id, p), a.0, id);
    }
  }

  lemma AnsweredMore(ready: map<int, PQ.ReadyStatus>, answers: seq<(Env, int)>, a: (Env, int))
    requires Answered(ready, answers)
    ensures Answered(ready[a.1 := PQ.Ready], answers + [a])
  {
  }

  lemma Forms(w: World, v: World, env: Env, id: string)
    requires Gathered(w, id) && v.store == w.store && env.guildId == w.store.lobbies[id].guildId && !Used(w.store, Discord(env.interaction, "forming", 0))
    ensures var (u, r) := Move(v, env, id, Forming, "forming");
            && u == v.(store := u.store) && id in u.store.lobbies && u.store.lobbies[id].state == Forming
            && u.store.lobbies[id].participants == w.store.lobbies[id].participants && u.store.lobbies[id].guildId == w.store.lobbies[id].guildId
  {
    hide Ordered, Used, PLS.Makes, Exec;
    var c, lobby := Transition(env.guildId, id, Forming, Discord(env.interaction, "forming", 0), None), w.store.lobbies[id];
    var changed := NextVersion(lobby.(state := Forming), env.now);
    PLG.MoveMakes(lobby, c, changed, env.now);
    InOrderThere(w.store, id);
    PLS.StepCommits(w.store, c, env.naming, env.now, changed, Transitioned);
  }

  /** When every seated player has answered Ready in time, in whatever order and
      however often, the lobby forms its teams, with the same players. */
  lemma AllReadyForms(w: World, id: string, answers: seq<(Env, int)>)
    requires Gathered(w, id) && forall a :: a in answers ==> OnTime(w, id, a)
    requires forall u :: u in PQ.Ids(w.queues[id].active) ==> exists i :: 0 <= i < |answers| && answers[i].1 == u
    ensures var v := AnswerAll(w, id, answers);
            && id in v.store.lobbies && v.store.lobbies[id].state == Forming
            && v.store.lobbies[id].participants == w.store.lobbies[id].participants
  {
    hide Ordered, AnswerAll, OnTime;
    PlayersAnswer(w, id, answers);
    var q := AnswerAll(w, id, answers).queues[id];
    forall m | m in q.active ensures m.userId in q.ready && q.ready[m.userId] == PQ.Ready {
      var k :| 0 <= k < |q.active| && q.active[k] == m;
      assert PQ.Ids(q.active)[k] == m.userId;
      assert m.userId in PQ.Ids(w.queues[id].active);
      var i :| 0 <= i < |answers| && answers[i].1 == m.userId;
    }
    assert EveryoneReady(q);
    assert q.active[0].userId in PQ.Ids(w.queues[id].active) by { assert PQ.Ids(w.queues[id].active)[0] == q.active[0].userId; }
  }

  // ---- The draft --------------------------------------------------------------------------

  lemma {:induction false} FiveMembers(ids: seq<int>)
    requires Distinct(ids)
    ensures |set u | u in ids| == |ids|
  {
    var s := set u | u in ids;
    if ids != [] {
      var n := |ids| - 1;
      FiveMembers(ids[..n]);
      var rest := set u | u in ids[..n];
      assert ids == ids[..n] + [ids[n]];
      forall u ensures u in s <==> u in rest + {ids[n]} { }
      SameSet(s, rest + {ids[n]});
    }
  }

  /** However teams are edited after a launch, the draft takes exactly the locked
      rosters as its sides, when the lobby still has these ten players and is forming
      teams; it refuses them exactly when a team's present captain is not on its
      locked roster. */
  lemma DraftTakesTheLockedRosters(run: seq<SC.Timed>, more: seq<SC.Timed>, names: SC.Names, id: string, lobby: Lobby, automatic: Option<PD.Sides>)
    requires id in SC.RunAll(run, names).challenges && SC.RunAll(run, names).challenges[id].state in {SC.Locked, SC.Launched}
    requires var ch := SC.RunAll(run, names).challenges[id];
             && |LockedRoster(ch, ch.challenger)| == 5 && |LockedRoster(ch, ch.recipient)| == 5 && Distinct(LockedPlayers(ch))
             && (forall u :: HasParticipant(lobby, u) <==> u in LockedPlayers(ch)) && lobby.state == Forming
    ensures var ch, later := SC.RunAll(run, names).challenges[id], SC.RunAll(run + more, names);
            && id in later.challenges && ch.challenger in later.teams && ch.recipient in later.teams
            && FixedDraftTeams(later, later.challenges[id]).Some?
            && var sides := FixedDraftTeams(later, later.challenges[id]).value;
            && sides.blue.participantIds == LockedRoster(ch, ch.challenger) && sides.red.participantIds == LockedRoster(ch, ch.recipient)
            && PD.FormTeams(lobby, automatic, Some(sides)) ==
                 if later.teams[ch.challenger].captainId in LockedRoster(ch, ch.challenger) && later.teams[ch.recipient].captainId in LockedRoster(ch, ch.recipient)
                 then Ok(sides) else Err(PD.NotAPartition)
  {
    ST.LockedForever(run, more, names, id);
    ST.EveryRunIsGood(run + more, names);
    var ch, later := SC.RunAll(run, names).challenges[id], SC.RunAll(run + more, names);
    assert SC.GoodChallenge(later, id);
    hide SC.RunAll, SC.GoodScrims;
    var sides := FixedDraftTeams(later, later.challenges[id]).value;
    SidesPartition(lobby, sides, ch);
  }

  /** From the launch to the draft: when the ten players of a launched scrim have
      answered Ready in time, the draft's sides are the locked rosters, whatever
      became of the teams since; only a captain off the locked roster stops it. */
  lemma LaunchedScrimIsDrafted(x: Services, ch: SC.Challenge, lobby: Lobby, id: string, answers: seq<(Env, int)>,
                               run: seq<SC.Timed>, more: seq<SC.Timed>, names: SC.Names, automatic: Option<PD.Sides>)
    requires TwoFives(ch) && Launched(x, ch, lobby, id) && x.scrims == SC.RunAll(run, names)
    requires forall a :: a in answers ==> OnTime(x.party, id, a)
    requires forall u :: u in LockedPlayers(ch) ==> exists i :: 0 <= i < |answers| && answers[i].1 == u
    ensures var v, later, blue, red := AnswerAll(x.party, id, answers), SC.RunAll(run + more, names), LockedRoster(ch, ch.challenger), LockedRoster(ch, ch.recipient);
            && id in v.store.lobbies && ch.challengeId in later.challenges && ch.challenger in later.teams && ch.recipient in later.teams
            && var sides := FixedDraftTeams(later, later.challenges[ch.challengeId]);
            && sides.Some? && sides.value.blue.participantIds == blue && sides.value.red.participantIds == red
            && PD.FormTeams(v.store.lobbies[id], automatic, sides) ==
                 if later.teams[ch.challenger].captainId in blue && later.teams[ch.recipient].captainId in red
                 then Ok(sides.value) else Err(PD.NotAPartition)
  {
    hide Ordered, AnswerAll, OnTime, SC.RunAll, FixedDraftTeams, PD.FormTeams;
    var q := x.party.queues[id];
    TenPlayers(ch);
    assert |PQ.Ids(q.active)| == |q.active|;
    AllReadyForms(x.party, id, answers);
    var formed := AnswerAll(x.party, id, answers).store.lobbies[id];
    assert forall u :: HasParticipant(formed, u) <==> HasParticipant(lobby, u);
    var there := x.scrims.challenges[ch.challengeId];
    assert LockedRoster(there, there.challenger) == LockedRoster(ch, ch.challenger) && LockedRoster(there, there.recipient) == LockedRoster(ch, ch.recipient);
    DraftTakesTheLockedRosters(run, more, names, ch.challengeId, formed, automatic);
  }

  lemma SidesPartition(lobby: Lobby, sides: PD.Sides, ch: SC.Challenge)
    requires sides.blue.participantIds == LockedRoster(ch, ch.challenger) && sides.red.participantIds == LockedRoster(ch, ch.recipient)
    requires |LockedRoster(ch, ch.challenger)| == 5 && |LockedRoster(ch, ch.recipient)| == 5 && Distinct(LockedPlayers(ch))
    requires forall u :: HasParticipant(lobby, u) <==> u in LockedPlayers(ch)
    ensures PD.FixedTeamsFit(lobby, sides) <==>
              sides.blue.captainId in LockedRoster(ch, ch.challenger) && sides.red.captainId in LockedRoster(ch, ch.recipient)
  {
    var a, b := LockedRoster(ch, ch.challenger), LockedRoster(ch, ch.recipient);
    hide LockedRoster;
    var all := a + b;
    forall i, j | 0 <= i < j < |a| ensures a[i] != a[j] { assert all[i] != all[j]; }
    forall i, j | 0 <= i < j < |b| ensures b[i] != b[j] { assert all[|a| + i] != all[|a| + j]; }
    FiveMembers(a);
    FiveMembers(b);
    var blue, red := PD.Members(sides.blue), PD.Members(sides.red);
    forall u | u in a ensures u !in b { DistinctParts(a, b, u); }
    var none: set<int> := {};
    forall u ensures u in blue * red <==> u in none { assert u in a ==> u !in b; }
    SameSet(blue * red, none);
    forall u ensures u in blue + red <==> u in PD.Roster(lobby) { assert HasParticipant(lobby, u) <==> u in all; }
    SameSet(blue + red, PD.Roster(lobby));
  }

  lemma DistinctParts(a: seq<int>, b: seq<int>, u: int)
    requires Distinct(a + b) && u in a
    ensures u !in b
  {
    var i :| 0 <= i < |a| && a[i] == u;
    forall j | 0 <= j < |b| ensures b[j] != u { assert (a + b)[i] != (a + b)[|a| + j]; }
  }
}
