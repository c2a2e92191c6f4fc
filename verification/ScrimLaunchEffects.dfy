/** What a launched scrim leaves: the night it was played as, what its lobby says,
    the answer to another launch, and the roles its sides draft with. */
module ScrimLaunchEffects {
  import opened Common
  import opened PartyStore
  import opened PartyStoreInvariant
  import opened PartyLobby
  import opened ScrimLaunch
  import opened ScrimLaunchTheorems
  import SC = Scrims
  import S = PartySchedule
  import SL = ScheduledLobby
  import SLT = ScheduledLobbyTheorems
  import SE = ScheduledLobbyEffects
  import PD = PartyDraft

  // ---- The night --------------------------------------------------------------------------

  /** A night once, at the challenge's time and in its zone, for ten, called by the
      names of the two teams, with reminders an hour and a quarter of an hour before. */
  ghost predicate ScrimNight(night: S.Night, ch: SC.Challenge, teams: map<string, SC.Team>) {
    && ch.challenger in teams && ch.recipient in teams && night.title == teams[ch.challenger].name + " vs " + teams[ch.recipient].name
    && night.startsAt == ch.startsAt && night.zone == ch.zone && night.guildId == ch.guildId && night.organizerId == ch.organizerId
    && night.recurrence == S.Once && night.capacity == 10 && night.reminders == [60, 15] && night.predecessor == None
  }

  lemma TwoLeads()
    ensures S.Leads([60, 15]) == [60, 15]
  {
    LexSingle(-60, -15);
    assert [60, 15][..1] == [60] && [60][..0] == [];
    assert S.Leads([]) == [];
    assert S.Leads([60]) == [60];
    LeadsOfTwo();
  }

  lemma LeadsOfTwo()
    ensures SortBy([60, 15], S.MoreFirst) == [60, 15]
  {
    hide S.Leads;
    assert [60, 15][..1] == [60] && [60][..0] == [];
    LexSingle(-60, -15);
    LexSingle(-15, -60);
  }

  lemma {:induction false} AnswersKeepNights(s: S.Store, id: string, players: seq<int>, now: int, names: S.Names)
    ensures RsvpAll(s, id, players, now, names).0.nights == s.nights
    decreases |players|
  {
    hide S.RsvpRows;
    if players != [] { AnswersKeepNights(s, id, players[..|players| - 1], now, names); }
  }

  lemma PreparedIs(s: S.Store, ch: SC.Challenge, teams: map<string, SC.Team>, title: string, now: int, names: S.Names)
    requires EventIdOf(ch, names) !in s.nights && |LockedPlayers(ch)| == 10 && ch.challenger in teams && ch.recipient in teams
    requires title == teams[ch.challenger].name + " vs " + teams[ch.recipient].name
    ensures var after := PreparedNight(s, ch, title, now, names).0;
            EventIdOf(ch, names) in after.nights && ScrimNight(after.nights[EventIdOf(ch, names)], ch, teams)
  {
    hide LockedPlayers, RsvpAll, S.Leads;
    TwoLeads();
    var id := EventIdOf(ch, names);
    var made := S.After(s, NightCommand(ch, title), now, names);
    assert id in made.nights && ScrimNight(made.nights[id], ch, teams);
    AnswersKeepNights(S.After(made, S.Confirm(id, ch.organizerId), now, names), id, LockedPlayers(ch), now, names);
  }

  // ---- The lobby --------------------------------------------------------------------------

  /** A player who was seated without having said anything. */
  predicate PlainSeat(p: Participant) { p.primary == None && p.secondary == None && !p.fill && !p.captain && !p.ready }

  lemma PlainSeats(lobby: Lobby, night: S.Night, rows: seq<S.Row>)
    requires SE.LobbySays(lobby, night, rows) && Plain(rows)
    ensures forall p :: p in lobby.participants ==> PlainSeat(p)
  {
    forall p | p in lobby.participants ensures PlainSeat(p) {
      assert SE.Answered(p, rows);
      var i :| 0 <= i < |rows| && SE.SeatSays(p, rows[i]);
      assert rows[i] in rows;
    }
  }

  lemma NightIsPlain(s: S.Store, id: string, ch: SC.Challenge)
    requires NightWith(s, id, ch, LockedPlayers(ch), S.Scheduled)
    ensures Plain(S.RowsOf(s, id))
  {
  }

  lemma HandoffIs(x: Services, env: Env, names: S.Names, ch: SC.Challenge, op: string)
    requires Handoff(x, env, names, ch, op).1.Ok?
    ensures var b := SL.BookingOf(x.schedule, EventIdOf(ch, names));
            && b.Some? && var (party, schedule, r) := SL.ConvertToLobby(x.party, x.schedule, env, names, b.value);
            && r.Ok? && Handoff(x, env, names, ch, op).1 == Ok(r.value) && Handoff(x, env, names, ch, op).0.schedule == schedule
  {
    hide SL.ConvertToLobby, SC.Launches, SL.BookingOf, EventIdOf;
    var eventId := EventIdOf(ch, names);
    var b := SL.BookingOf(x.schedule, eventId).value;
    var (party, schedule, r) := SL.ConvertToLobby(x.party, x.schedule, env, names, b);
    assert r.Ok?;
    assert SC.Launches(x.scrims, SC.MarkLaunched(ch.challengeId, eventId, r.value.lobbyId, op)).Ok?;
  }

  lemma ConvertedNight(w: World, s: S.Store, env: Env, names: S.Names, b: SL.Booking)
    requires SL.ConvertToLobby(w, s, env, names, b).2.Ok? && b.night.eventId in s.nights && s.nights[b.night.eventId].recurrence == S.Once
    ensures var after := SL.ConvertToLobby(w, s, env, names, b).1;
            b.night.eventId in after.nights
            && after.nights[b.night.eventId] == s.nights[b.night.eventId].(state := S.Converted, lobbyId := Some(SL.LobbyIdOf(b.night)))
  {
    hide SL.Filled, SL.LobbyIdOf;
  }

  lemma NotCut(w: World, env: Env, s: S.Store, names: S.Names, b: SL.Booking)
    ensures SLT.CutShort(w, s, env, names, b, SLT.Untouched) == (w, s)
  {
  }

  /** A launched scrim is a converted night of its two teams, and its lobby says so:
      open until four hours after, ten players seated without preferences. */
  lemma LaunchedNightSays(x: Services, env: Env, names: S.Names, id: string, op: string)
    requires MayLaunch(x, id, op) && NothingLaunched(x, x.scrims.challenges[id], names) && LaunchScrim(x, env, names, id, op).1.Ok?
    ensures var ch, eventId := x.scrims.challenges[id], EventIdOf(x.scrims.challenges[id], names);
            var (after, r) := LaunchScrim(x, env, names, id, op);
            && eventId in after.schedule.nights && ScrimNight(after.schedule.nights[eventId], ch, x.scrims.teams)
            && after.schedule.nights[eventId].state == S.Converted && after.schedule.nights[eventId].lobbyId == Some(r.value.lobbyId)
            && ch.challenger in x.scrims.teams && ch.recipient in x.scrims.teams
            && r.value.expiresAt == Some(ch.startsAt + 4 * 60) && r.value.metadata.format == "scheduled night"
            && r.value.metadata.notes == x.scrims.teams[ch.challenger].name + " vs " + x.scrims.teams[ch.recipient].name + " - once"
            && forall p :: p in r.value.participants ==> PlainSeat(p)
  {
    hide SC.GoodScrims, NoLobbyYet, FreeCode, PreparedNight, LaunchScrim, Handoff, Launched, LockedRoster, EventIdOf, InLine,
      SL.ConvertToLobby, SLT.ReadyToOpen, SLT.OpenedAs, S.LineOf, LockedPlayers, SE.LobbySays, SL.BookingOf, SLT.GoesOn;
    var ch, eventId := x.scrims.challenges[id], EventIdOf(x.scrims.challenges[id], names);
    LaunchIs(x, env, names, id, op);
    UninterruptedLaunch(x, env, names, id, op);
    TenPlayers(ch);
    var title := TitleOf(x.scrims, ch);
    Prepares(x.schedule, ch, title, env.now, names);
    PreparedIs(x.schedule, ch, x.scrims.teams, title, env.now, names);
    var night := PreparedNight(x.schedule, ch, title, env.now, names).0;
    IsReadyToOpen(x.party, night, eventId, ch, names);
    HandoffIs(x.(schedule := night), env, names, ch, op);
    Converts(x, night, env, names, eventId);
    NightIsPlain(night, eventId, ch);
    PlainSeats(SL.ConvertToLobby(x.party, night, env, names, SL.BookingOf(night, eventId).value).2.value, night.nights[eventId], S.RowsOf(night, eventId));
    SaysNotes(SL.ConvertToLobby(x.party, night, env, names, SL.BookingOf(night, eventId).value).2.value, night.nights[eventId], S.RowsOf(night, eventId));
  }

  lemma SaysNotes(lobby: Lobby, night: S.Night, rows: seq<S.Row>)
    requires SE.LobbySays(lobby, night, rows)
    ensures lobby.expiresAt == Some(night.startsAt + 4 * 60) && lobby.metadata.format == "scheduled night"
    ensures night.recurrence == S.Once ==> lobby.metadata.notes == night.title + " - once"
  {
  }

  lemma Converts(x: Services, night: S.Store, env: Env, names: S.Names, eventId: string)
    requires SLT.ReadyToOpen(x.party, night, eventId) && eventId in night.nights && SLT.GoesOn(night.nights[eventId], names)
    requires night.nights[eventId].recurrence == S.Once && night.nights[eventId].eventId == eventId
    requires SL.BookingOf(night, eventId).Some? && SL.ConvertToLobby(x.party, night, env, names, SL.BookingOf(night, eventId).value).2.Ok?
    ensures var (party, schedule, r) := SL.ConvertToLobby(x.party, night, env, names, SL.BookingOf(night, eventId).value);
            && SE.LobbySays(r.value, night.nights[eventId], S.RowsOf(night, eventId))
            && eventId in schedule.nights && schedule.nights[eventId] == night.nights[eventId].(state := S.Converted, lobbyId := Some(r.value.lobbyId))
  {
    hide SLT.ReadyToOpen, FreeCode, SL.ConvertToLobby, SE.LobbySays, SLT.GoesOn, SLT.FromLine, SLT.CutAt;
    var b := SL.BookingOf(night, eventId).value;
    SLT.ConversionSeatsTheLine(x.party, night, env, names, eventId);
    NotCut(x.party, env, night, names, b);
    SE.ConvertedLobbySays(x.party, night, env, env, names, eventId, SLT.Untouched);
    ConvertedNight(x.party, night, env, names, b);
    LobbyIdThere(SL.ConvertToLobby(x.party, night, env, names, b).0, night.nights[eventId], S.LineOf(S.RowsOf(night, eventId)));
  }

  lemma LobbyIdThere(w: World, night: S.Night, line: seq<int>)
    requires SLT.FromLine(w, night, line)
    ensures SL.LobbyIdOf(night) in w.store.lobbies && w.store.lobbies[SL.LobbyIdOf(night)].lobbyId == SL.LobbyIdOf(night)
  {
  }

  // ---- Launching again --------------------------------------------------------------------

  lemma LaunchedGuild(x: Services, env: Env, names: S.Names, id: string, op: string)
    requires MayLaunch(x, id, op) && LaunchScrim(x, env, names, id, op).1.Ok?
    ensures var after := LaunchScrim(x, env, names, id, op).0;
            id in after.scrims.challenges && after.scrims.challenges[id].guildId == x.scrims.challenges[id].guildId
  {
    hide SC.GoodScrims, PreparedNight, SL.ConvertToLobby, SL.BookingOf, LockedRoster, TitleOf, EventIdOf;
    LockedIs(x.scrims, id);
  }

  /** A launched scrim launched again, by anybody's operation, is answered with its
      lobby, and nothing changes. */
  lemma LaunchingAgainAnswers(x: Services, env: Env, again: Env, names: S.Names, id: string, op: string, other: string)
    requires MayLaunch(x, id, op) && NothingLaunched(x, x.scrims.challenges[id], names) && LaunchScrim(x, env, names, id, op).1.Ok?
    ensures var (after, r) := LaunchScrim(x, env, names, id, op); LaunchScrim(after, again, names, id, other) == (after, r)
  {
    UninterruptedLaunch(x, env, names, id, op);
    LaunchedGuild(x, env, names, id, op);
    var (after, r) := LaunchScrim(x, env, names, id, op);
    LaunchedAnswers(after, x.scrims.challenges[id], r.value, "scheduled-" + EventIdOf(x.scrims.challenges[id], names), again, names, id, other);
    hide LaunchScrim, Launched, NothingLaunched, MayLaunch, EventIdOf;
  }

  lemma LaunchedAnswers(x: Services, ch: SC.Challenge, lobby: Lobby, lobbyId: string, env: Env, names: S.Names, id: string, op: string)
    requires Launched(x, ch, lobby, lobbyId) && ch.challengeId == id && x.scrims.challenges[id].guildId == ch.guildId
    ensures LaunchScrim(x, env, names, id, op) == (x, Ok(lobby))
  {
    hide PreparedNight, Handoff, LockedPlayers, Ordered;
  }

  // ---- The sides --------------------------------------------------------------------------

  /** Five players in the order of the locked roster: solo, jungle, mid, support, adc. */
  ghost predicate InRoleOrder(t: PD.DraftTeam, ids: seq<int>) {
    |ids| == 5 && t.participantIds == ids
    && t.roles == [(ids[0], "solo"), (ids[1], "jungle"), (ids[2], "mid"), (ids[3], "support"), (ids[4], "adc")]
  }

  /** A locked scrim of two fives has sides: the challenger's Blue, the other's Red,
      each under its present captain, in the order of its locked roster. */
  lemma SidesAre(store: SC.Store, ch: SC.Challenge)
    ensures FixedDraftTeams(store, ch).Some? <==>
              && ch.challenger in store.teams && ch.recipient in store.teams && ch.locked.Some?
              && |LockedRoster(ch, ch.challenger)| == 5 && |LockedRoster(ch, ch.recipient)| == 5
    ensures FixedDraftTeams(store, ch).Some? ==>
              var sides := FixedDraftTeams(store, ch).value;
              && sides.blue.captainId == store.teams[ch.challenger].captainId && InRoleOrder(sides.blue, LockedRoster(ch, ch.challenger))
              && sides.red.captainId == store.teams[ch.recipient].captainId && InRoleOrder(sides.red, LockedRoster(ch, ch.recipient))
  {
    hide LockedRoster;
    if FixedDraftTeams(store, ch).Some? {
      InOrder(LockedRoster(ch, ch.challenger));
      InOrder(LockedRoster(ch, ch.recipient));
    }
  }

  lemma InOrder(ids: seq<int>)
    requires |ids| == 5
    ensures Roles(ids) == [(ids[0], "solo"), (ids[1], "jungle"), (ids[2], "mid"), (ids[3], "support"), (ids[4], "adc")]
  {
  }
}
