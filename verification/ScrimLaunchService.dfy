/** convert_to_lobby and launch_scrim as they run, step by step on the repositories. */
module ScrimLaunchServices {
  import opened Common
  import opened PartyStore
  import opened PartyRepositories
  import opened PartyQueueServices
  import opened PartyLobby
  import opened PartyLobbyServices
  import opened ScheduleRepositories
  import opened ScrimRepositories
  import SL = ScheduledLobby
  import L = ScrimLaunch
  import S = PartySchedule
  import SC = Scrims
  import PQ = PartyQueue

  class LobbyLauncher {
    const parties: SQLitePartyRepository
    const queues: PartyQueueService
    const schedules: ScheduleRepository
    const scrims: ScrimRepository
    ghost const preferences: map<(int, int), Preferences>

    constructor (parties: SQLitePartyRepository, queues: PartyQueueService, schedules: ScheduleRepository, scrims: ScrimRepository,
        ghost preferences: map<(int, int), Preferences>)
      ensures this.parties == parties && this.queues == queues && this.schedules == schedules && this.scrims == scrims
      ensures this.preferences == preferences
    {
      this.parties := parties;
      this.queues := queues;
      this.schedules := schedules;
      this.scrims := scrims;
      this.preferences := preferences;
    }

    ghost function Seen(): World
      reads parties, queues
    {
      World(parties.Contents(), queues.queues, preferences)
    }

    ghost predicate Of(env: Env) { env.naming == parties.naming && env.config == queues.config }

    method MoveOn(env: Env, night: S.Night, target: LobbyState, step: string) returns (r: Answer)
      requires Of(env)
      modifies parties
      ensures (Seen(), r) == Do(old(Seen()), SL.MoveCommand(night, target, step), env)
    {
      hide Exec, After, LobbyOf;
      DoTells(Seen(), SL.MoveCommand(night, target, step), env);
      var moved := parties.Transition(night.guildId, SL.LobbyIdOf(night), target, NightOp(night.eventId, step, 0), None, env.now);
      r := Told(moved);
    }

    method JoinQueue(lobbyId: string, userId: int, roles: seq<string>) returns (failed: Option<Failure>)
      modifies queues
      ensures (Seen(), failed) == SL.Enqueue(old(Seen()), lobbyId, userId, roles)
    {
      hide PQ.Joined;
      var joined := queues.Join(lobbyId, userId, roles);
      failed := if joined.Err? then Some(QueueFailed(joined.error)) else None;
    }

    method Bootstrap(env: Env, night: S.Night) returns (failed: Option<Failure>)
      requires Of(env)
      modifies parties, queues
      ensures (Seen(), failed) == SL.MadeLobby(old(Seen()), env, night)
    {
      hide Exec, After, LobbyOf;
      var c := SL.CreateCommand(night);
      DoTells(Seen(), c, env);
      var made := parties.CreateLobby(c.guildId, c.organizerId, c.capacity, c.expires, c.newId, c.op, c.refs, c.metadata, c.name, env.now);
      if made.Err? { return Some(StoreFailed(made.error)); }
      if SL.LobbyIdOf(night) !in queues.queues {
        var created := queues.Create(SL.LobbyIdOf(night), night.capacity);
        if created.Err? { return Some(QueueFailed(created.error)); }
      }
      failed := None;
    }

    method SeatPlayers(env: Env, night: S.Night, rows: seq<S.Row>) returns (failed: Option<Failure>)
      requires Of(env)
      modifies parties, queues
      ensures (Seen(), failed) == SL.SeatRows(old(Seen()), env, night, rows)
    {
      hide Exec, After, LobbyOf, SL.Enqueue;
      ghost var start := Seen();
      for i := 0 to |rows|
        invariant (Seen(), None) == SL.SeatRows(start, env, night, rows[..i])
      {
        assert rows[..i + 1][..i] == rows[..i];
        ghost var before := Seen();
        DoTells(Seen(), SL.SaveCommand(night, rows[i]), env);
        var saved := parties.SaveParticipant(night.guildId, SL.LobbyIdOf(night), SL.SeatOf(rows[i]),
                                             NightOp(night.eventId, "participant", rows[i].userId), env.now);
        if saved.Err? {
          assert (Seen(), Some(StoreFailed(saved.error))) == SL.SeatRow(before, env, night, rows[i]);
          SL.StopsAt(start, env, night, rows, i);
          return Some(StoreFailed(saved.error));
        }
        failed := JoinQueue(SL.LobbyIdOf(night), rows[i].userId, RolesOf(SL.SeatOf(rows[i])));
        if failed.Some? {
          SL.StopsAt(start, env, night, rows, i);
          return;
        }
      }
      assert rows[..|rows|] == rows;
      failed := None;
    }

    method QueuePlayers(night: S.Night, rows: seq<S.Row>) returns (failed: Option<Failure>)
      modifies queues
      ensures (Seen(), failed) == SL.QueueRows(old(Seen()), night, rows)
    {
      hide SL.Enqueue;
      ghost var start := Seen();
      for i := 0 to |rows|
        invariant (Seen(), None) == SL.QueueRows(start, night, rows[..i])
      {
        assert rows[..i + 1][..i] == rows[..i];
        failed := JoinQueue(SL.LobbyIdOf(night), rows[i].userId, RoleList(rows[i].preferences));
        if failed.Some? {
          SL.QueueStopsAt(start, night, rows, i);
          return;
        }
      }
      assert rows[..|rows|] == rows;
      failed := None;
    }

    method StartWhenFull(env: Env, night: S.Night, lobby: Lobby) returns (failed: Option<Failure>)
      requires Of(env)
      modifies parties, queues
      ensures (Seen(), failed) == SL.StartFull(old(Seen()), env, night, lobby)
    {
      hide Do, PQ.ReadyCheckStarted;
      var id := SL.LobbyIdOf(night);
      if id !in queues.queues || |queues.queues[id].active| != queues.queues[id].capacity { return None; }
      var queue, r := queues.queues[id], Ok(lobby);
      if lobby.state == Open {
        r := MoveOn(env, night, Full, "full");
        if r.Err? { return Some(r.error); }
      }
      if queue.status == PQ.Open {
        var started := queues.StartReadyCheck(id, env.now);
        if started.Err? { return Some(QueueFailed(started.error)); }
      }
      if r.value.state == Full {
        r := MoveOn(env, night, PartyStore.ReadyCheck, "ready-check");
        if r.Err? { return Some(r.error); }
      }
      failed := None;
    }

    method FillLobby(env: Env, b: SL.Booking) returns (failed: Option<Failure>)
      requires Of(env)
      modifies parties, queues
      ensures (Seen(), failed) == SL.Filled(old(Seen()), env, b)
    {
      hide SL.MadeLobby, SL.SeatRows, SL.QueueRows, SL.StartFull;
      failed := Bootstrap(env, b.night);
      if failed.Some? { return; }
      failed := SeatPlayers(env, b.night, b.seated);
      if failed.Some? { return; }
      failed := QueuePlayers(b.night, b.waiting);
      if failed.Some? { return; }
      var lobby := Find(parties.Contents(), b.night.guildId, SL.LobbyIdOf(b.night));
      if lobby.None? { return Some(NotHere); }
      failed := StartWhenFull(env, b.night, lobby.value);
    }

    /** convert_to_lobby. */
    method ConvertToLobby(env: Env, b: SL.Booking) returns (r: Result<Lobby, SL.Trouble>)
      requires Of(env)
      modifies parties, queues, schedules
      ensures (Seen(), schedules.Contents(), r) == SL.ConvertToLobby(old(Seen()), old(schedules.Contents()), env, schedules.names, b)
    {
      hide SL.Filled, S.Convert;
      if b.night.state != S.Scheduled && b.night.state != S.Converted { return Err(SL.NotConfirmed); }
      var failed := FillLobby(env, b);
      if failed.Some? { return Err(SL.InLobby(failed.value)); }
      var marked := schedules.ConvertNight(b.night.eventId, SL.LobbyIdOf(b.night), env.now);
      if marked.Err? { return Err(SL.InSchedule(marked.error)); }
      var lobby := Find(parties.Contents(), b.night.guildId, SL.LobbyIdOf(b.night));
      r := if lobby.Some? then Ok(lobby.value) else Err(SL.NotFound);
    }

    // ---- launch_scrim ---------------------------------------------------------------------

    ghost function All(): L.Services
      reads parties, queues, schedules, scrims
    {
      L.Services(scrims.Contents(), schedules.Contents(), Seen())
    }

    method AnswerForAll(eventId: string, players: seq<int>, now: int) returns (failed: Option<S.Error>)
      modifies schedules
      ensures (schedules.Contents(), failed) == L.RsvpAll(old(schedules.Contents()), eventId, players, now, schedules.names)
    {
      hide S.RsvpChange;
      ghost var start := schedules.Contents();
      for i := 0 to |players|
        invariant (schedules.Contents(), None) == L.RsvpAll(start, eventId, players[..i], now, schedules.names)
      {
        assert players[..i + 1][..i] == players[..i];
        var answered := schedules.RsvpGoing(eventId, players[i], NO_PREFERENCES, now);
        if answered.Err? {
          L.RsvpStopsAt(start, eventId, players, i, now, schedules.names);
          return Some(answered.error);
        }
      }
      assert players[..|players|] == players;
      failed := None;
    }

    method PrepareNight(ch: SC.Challenge, title: string, now: int) returns (failed: Option<S.Error>)
      modifies schedules
      ensures (schedules.Contents(), failed) == L.PreparedNight(old(schedules.Contents()), ch, title, now, schedules.names)
    {
      hide S.CreateNight, S.ConfirmNight, L.RsvpAll;
      var c := L.NightCommand(ch, title);
      var made := schedules.CreateNight(c.guildId, c.organizerId, c.title, c.startsAt, c.zone, c.recurrence, c.capacity, c.reminders, c.op, now);
      if made.Err? { return Some(made.error); }
      var confirmed := schedules.ConfirmNight(made.value, ch.organizerId, now);
      if confirmed.Err? { return Some(confirmed.error); }
      failed := AnswerForAll(made.value, L.LockedPlayers(ch), now);
    }

    /** launch_scrim. */
    method LaunchScrim(env: Env, id: string, op: string) returns (r: Result<Lobby, L.Trouble>)
      requires Of(env)
      modifies parties, queues, schedules, scrims
      ensures (All(), r) == L.LaunchScrim(old(All()), env, schedules.names, id, op)
    {
      hide L.PreparedNight, SL.ConvertToLobby, SC.Exec, SC.Launches, L.LockedRoster, L.LockedPlayers;
      if id !in scrims.challenges { return Err(L.NoChallenge); }
      var ch := scrims.challenges[id];
      if ch.state == SC.Launched {
        var there := if ch.lobbyId.Some? then Find(parties.Contents(), ch.guildId, ch.lobbyId.value) else None;
        return if there.Some? then Ok(there.value) else Err(L.NoLobby);
      }
      if ch.state != SC.Locked { return Err(L.NotLocked); }
      if ch.challenger !in scrims.teams || ch.recipient !in scrims.teams { return Err(L.TeamGone); }
      if |L.LockedRoster(ch, ch.challenger)| != 5 || |L.LockedRoster(ch, ch.recipient)| != 5 { return Err(L.NotFive); }
      var players := L.LockedPlayers(ch);
      if exists i, j :: 0 <= i < j < |players| && players[i] == players[j] { return Err(L.Overlap); }
      var title := scrims.teams[ch.challenger].name + " vs " + scrims.teams[ch.recipient].name;
      var failed := PrepareNight(ch, title, env.now);
      if failed.Some? { return Err(L.InSchedule(failed.value)); }
      r := HandOff(env, ch, op);
    }

    method HandOff(env: Env, ch: SC.Challenge, op: string) returns (r: Result<Lobby, L.Trouble>)
      requires Of(env)
      modifies parties, queues, schedules, scrims
      ensures (All(), r) == L.Handoff(old(All()), env, schedules.names, ch, op)
    {
      hide SL.ConvertToLobby, SL.BookingOf;
      var eventId := L.EventIdOf(ch, schedules.names);
      var booking := SL.BookingOf(schedules.Contents(), eventId);
      if booking.None? { return Err(L.InSchedule(S.NightNotFound)); }
      var converted := ConvertToLobby(env, booking.value);
      if converted.Err? { return Err(L.Converting(converted.error)); }
      var launched := scrims.Launch(ch.challengeId, eventId, converted.value.lobbyId, op, env.now);
      r := if launched.Err? then Err(L.InScrims(launched.error)) else Ok(converted.value);
    }
  }
}
