/** launch_scrim of utils/scrims.py: a locked challenge becomes a night, and the
    night a lobby. */
module ScrimLaunch {
  import opened Common
  import opened PartyStore
  import opened PartyLobby
  import SC = Scrims
  import S = PartySchedule
  import SL = ScheduledLobby
  import PD = PartyDraft

  datatype Services = Services(scrims: SC.Store, schedule: S.Store, party: World)

  datatype Trouble =
    | NoChallenge | NotLocked | TeamGone | NotFive | Overlap | NoLobby
    | InScrims(error: SC.Error) | InSchedule(failed: S.Error) | Converting(trouble: SL.Trouble)

  const SMITE_ROLES := ["solo", "jungle", "mid", "support", "adc"]

  function LockedRoster(ch: SC.Challenge, team: string): seq<int> {
    if ch.locked.Some? && team in ch.locked.value then ch.locked.value[team] else []
  }

  function LockedPlayers(ch: SC.Challenge): seq<int> { LockedRoster(ch, ch.challenger) + LockedRoster(ch, ch.recipient) }

  function EventIdOf(ch: SC.Challenge, names: S.Names): string {
    names.eventId(ch.guildId, "scrim:" + ch.challengeId + ":schedule")
  }

  function TitleOf(store: SC.Store, ch: SC.Challenge): string
    requires ch.challenger in store.teams && ch.recipient in store.teams
  {
    store.teams[ch.challenger].name + " vs " + store.teams[ch.recipient].name
  }

  function NightCommand(ch: SC.Challenge, title: string): S.Command {
    S.Create(ch.guildId, ch.organizerId, title, ch.startsAt, ch.zone, S.Once, |LockedPlayers(ch)|, [60, 15],
             "scrim:" + ch.challengeId + ":schedule")
  }

  /** The players answer one by one; each answer is its own transaction. */
  function RsvpAll(s: S.Store, eventId: string, players: seq<int>, now: int, names: S.Names): (S.Store, Option<S.Error>) {
    if players == [] then (s, None)
    else
      var n := |players| - 1;
      var (before, failed) := RsvpAll(s, eventId, players[..n], now, names);
      if failed.Some? then (before, failed)
      else
        match S.Exec(before, S.Rsvp(eventId, players[n], NO_PREFERENCES), now, names)
        case Err(e) => (before, Some(e))
        case Ok(next) => (next, None)
  }

  lemma {:induction false} RsvpStopsAt(s: S.Store, eventId: string, players: seq<int>, i: nat, now: int, names: S.Names)
    requires i < |players| && RsvpAll(s, eventId, players[..i + 1], now, names).1.Some?
    ensures RsvpAll(s, eventId, players, now, names) == RsvpAll(s, eventId, players[..i + 1], now, names)
    decreases |players|
  {
    hide S.Exec;
    var n := |players| - 1;
    if i == n {
      assert players[..i + 1] == players;
    } else {
      assert players[..n][..i + 1] == players[..i + 1];
      RsvpStopsAt(s, eventId, players[..n], i, now, names);
    }
  }

  function PreparedNight(s: S.Store, ch: SC.Challenge, title: string, now: int, names: S.Names): (S.Store, Option<S.Error>) {
    var id := EventIdOf(ch, names);
    match S.Exec(s, NightCommand(ch, title), now, names)
    case Err(e) => (s, Some(e))
    case Ok(made) =>
      match S.Exec(made, S.Confirm(id, ch.organizerId), now, names)
      case Err(e) => (made, Some(e))
      case Ok(confirmed) => RsvpAll(confirmed, id, LockedPlayers(ch), now, names)
  }

  function LaunchScrim(x: Services, env: Env, names: S.Names, id: string, op: string): (Services, Result<Lobby, Trouble>) {
    if id !in x.scrims.challenges then (x, Err(NoChallenge))
    else
      var ch := x.scrims.challenges[id];
      if ch.state == SC.Launched then
        var there := if ch.lobbyId.Some? then Find(x.party.store, ch.guildId, ch.lobbyId.value) else None;
        (x, if there.Some? then Ok(there.value) else Err(NoLobby))
      else if ch.state != SC.Locked then (x, Err(NotLocked))
      else if ch.challenger !in x.scrims.teams || ch.recipient !in x.scrims.teams then (x, Err(TeamGone))
      else if |LockedRoster(ch, ch.challenger)| != 5 || |LockedRoster(ch, ch.recipient)| != 5 then (x, Err(NotFive))
      else if exists i, j :: 0 <= i < j < |LockedPlayers(ch)| && LockedPlayers(ch)[i] == LockedPlayers(ch)[j] then (x, Err(Overlap))
      else
        var (night, failed) := PreparedNight(x.schedule, ch, TitleOf(x.scrims, ch), env.now, names);
        if failed.Some? then (x.(schedule := night), Err(InSchedule(failed.value)))
        else Handoff(x.(schedule := night), env, names, ch, op)
  }

  /** The conversion, and the mark on the challenge. */
  function Handoff(x: Services, env: Env, names: S.Names, ch: SC.Challenge, op: string): (Services, Result<Lobby, Trouble>) {
    var eventId := EventIdOf(ch, names);
    var b := SL.BookingOf(x.schedule, eventId);
    if b.None? then (x, Err(InSchedule(S.NightNotFound)))
    else
      var (party, schedule, r) := SL.ConvertToLobby(x.party, x.schedule, env, names, b.value);
      var converted := x.(party := party, schedule := schedule);
      if r.Err? then (converted, Err(Converting(r.error)))
      else
        match SC.Launches(x.scrims, SC.MarkLaunched(ch.challengeId, eventId, r.value.lobbyId, op))
        case Err(e) => (converted, Err(InScrims(e)))
        case Ok(scrims) => (converted.(scrims := scrims), Ok(r.value))
  }

  // ---- The draft's sides ------------------------------------------------------------------

  function Roles(ids: seq<int>): seq<(int, string)>
    requires |ids| == 5
  {
    seq(5, i requires 0 <= i < 5 => (ids[i], SMITE_ROLES[i]))
  }

  /** fixed_draft_teams: the locked rosters under the teams' present captains. */
  function FixedDraftTeams(store: SC.Store, ch: SC.Challenge): Option<PD.Sides> {
    if ch.locked.None? || ch.challenger !in store.teams || ch.recipient !in store.teams then None
    else
      var blue, red := LockedRoster(ch, ch.challenger), LockedRoster(ch, ch.recipient);
      if |blue| != 5 || |red| != 5 then None
      else Some(PD.Sides(PD.DraftTeam(store.teams[ch.challenger].captainId, blue, Roles(blue)),
                         PD.DraftTeam(store.teams[ch.recipient].captainId, red, Roles(red))))
  }
}
