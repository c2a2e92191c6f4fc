/** MatchContinuityRepository and MatchContinuityService of
    utils/match_continuity.py: the rows and the stepwise projection, with the
    rooms and the next match of its two callbacks (utils/match_actions.py). */
module MatchContinuityServices {
  import opened Common
  import opened MatchRecords
  import opened MatchContinuity
  import opened MatchProjection
  import opened MatchReplay
  import opened MatchDelivery
  import opened MatchReplayTheorems
  import opened PartyQueueServices
  import PQ = PartyQueue

  class MatchContinuityRepository {
    var rows: map<Key, Row>

    constructor ()
      ensures rows == map[]
    {
      rows := map[];
    }

    method Get(guildId: int, source: MatchId) returns (r: Option<Decision>)
      ensures r == if (guildId, source) in rows then Some(rows[(guildId, source)].decision) else None
    {
      if (guildId, source) in rows { return Some(rows[(guildId, source)].decision); }
      r := None;
    }

    method Reserve(guildId: int, d: Decision, operationId: string) returns (r: Result<Decision, Error>)
      modifies this
      ensures match MatchProjection.Reserve(old(rows), guildId, d, operationId)
              case Ok((after, reserved)) => rows == after && r == Ok(reserved)
              case Err(error) => rows == old(rows) && r == Err(error)
    {
      var key := (guildId, d.source);
      if key in rows {
        if rows[key].decision.action != d.action { return Err(AlreadySelected); }
        return Ok(rows[key].decision);
      }
      if OperationUsed(rows, operationId) { return Err(OperationReused); }
      if NextIdUsed(rows, guildId, d.next, {}) { return Err(NextIdTaken); }
      rows := rows[key := Row(d, operationId)];
      r := Ok(d);
    }

    /** mark_projection: one flag, and whether rooms were reused with the second. */
    method MarkProjection(key: Key, mark: Effect, reused: bool) returns (d: Decision)
      requires key in rows && IsMark(mark)
      modifies this
      ensures d == Marked(old(rows)[key].decision, mark, reused)
      ensures rows == old(rows)[key := old(rows)[key].(decision := d)]
    {
      d := rows[key].decision;
      match mark {
        case MarkQueue => d := d.(queueProjected := true);
        case MarkRooms => d := d.(roomsProjected := true, reusedRooms := reused);
        case MarkDraft => d := d.(draftProjected := true);
      }
      rows := rows[key := rows[key].(decision := d)];
    }

    method CompleteSubstitutes(guildId: int, d: Decision) returns (r: Result<Decision, Error>)
      modifies this
      ensures match MatchProjection.CompleteSubstitutes(old(rows), guildId, d)
              case Ok((after, completed)) => rows == after && r == Ok(completed)
              case Err(error) => rows == old(rows) && r == Err(error)
    {
      var key := (guildId, d.source);
      if key !in rows { return Err(NoDecision); }
      var current := rows[key].decision;
      if current.status != AwaitingSubstitutes { return Ok(current); }
      if NextIdUsed(rows, guildId, d.next, {key}) { return Err(NextIdTaken); }
      var completed := current.(status := d.status, next := d.next);
      completed := completed.(teamOne := d.teamOne, teamTwo := d.teamTwo);
      completed := completed.(changes := d.changes, promoted := d.promoted);
      rows := rows[key := rows[key].(decision := completed)];
      r := Ok(completed);
    }
  }

  /** The loop of _teams that seats the newcomers. */
  method SeatNewcomers(kept: seq<MatchPlayer>, others: seq<MatchPlayer>, newcomers: seq<MatchPlayer>)
    returns (first: seq<MatchPlayer>, second: seq<MatchPlayer>)
    ensures (first, second) == Placed(kept, others, newcomers)
  {
    first, second := kept, others;
    assert newcomers[0..] == newcomers;
    for i := 0 to |newcomers|
      invariant Placed(first, second, newcomers[i..]) == Placed(kept, others, newcomers)
    {
      assert newcomers[i..][1..] == newcomers[i + 1..];
      if |first| < 5 { first := first + [newcomers[i]]; } else { second := second + [newcomers[i]]; }
    }
  }

  /** The loop of _build_result that fills the roster from the waitlist. */
  method FillRoster(staying: seq<MatchPlayer>, waitlist: seq<PQ.Member>, departed: Option<MatchPlayer>, size: nat)
    returns (r: Result<(seq<MatchPlayer>, seq<int>), Error>)
    ensures match WithSubstitutes(staying, waitlist, departed, size)
            case Ok(roster) => r.Ok? && r.value.0 == roster && |staying| <= |roster| && r.value.1 == PromotedIn(roster, |staying|)
            case Err(error) => r == Err(error)
  {
    var roster, waiting, promoted := staying, waitlist, [];
    assert roster[|staying|..] == [];
    while |roster| < size && waiting != []
      invariant WithSubstitutes(roster, waiting, departed, size) == WithSubstitutes(staying, waitlist, departed, size)
      invariant |staying| <= |roster| && promoted == PromotedIn(roster, |staying|)
      decreases |waiting|
    {
      var i := MinIndex(waiting, SubstituteOrder(roster));
      var substitute := waiting[i];
      waiting := waiting[..i] + waiting[i + 1..];
      if substitute.userId <= 0 { return Err(BadPlayer); }
      var p := MatchPlayer(substitute.userId, PreferredRole(substitute, departed));
      PromotedGrow(roster, p, |staying|);
      roster := roster + [p];
      promoted := promoted + [substitute.userId];
    }
    r := Ok((roster, promoted));
  }

  lemma PromotedGrow(roster: seq<MatchPlayer>, p: MatchPlayer, staying: nat)
    requires staying <= |roster|
    ensures PromotedIn(roster + [p], staying) == PromotedIn(roster, staying) + [p.userId]
  {
    assert (roster + [p])[staying..] == roster[staying..] + [p];
  }

  /** _teams without a shuffle: kept players on their sides, newcomers after them. */
  method ChooseTeams(record: MatchRecord, roster: seq<MatchPlayer>, shuffle: bool) returns (r: Result<(MatchTeam, MatchTeam), Error>)
    ensures r == Teams(record, roster, shuffle)
  {
    if shuffle { return Shuffled(record, roster); }
    var first, second := SeatNewcomers(Kept(record.teamOne.players, roster), Kept(record.teamTwo.players, roster),
                                       Newcomers(roster, PlayerIds(Participants(record))));
    r := BothTeams(Captained("Blue", record.teamOne.captainId, first), Captained("Red", record.teamTwo.captainId, second));
  }

  /** _build_result. */
  method Build(record: MatchRecord, lobbyId: string, queue: PQ.Queue, action: ContinuityAction, departures: set<int>)
    returns (r: Result<Decision, Error>)
    ensures r == BuildResult(record, lobbyId, queue, action, departures)
  {
    hide WithSubstitutes, Staying, FirstDeparted, SeatsOf, Teams, Changes, InOrder, PromotedIn;
    var all := Participants(record);
    var filled := FillRoster(Staying(all, departures), queue.waitlist, FirstDeparted(all, departures), |all|);
    if filled.Err? { return Err(filled.error); }
    var (roster, promoted) := filled.value;
    var before := SeatsOf(record.teamOne, record.teamTwo);
    if action == ReturnToQueue {
      return Ok(Decision(record.matchId, None, lobbyId, action, Queued, None, None, [], [], false, false, false, false));
    }
    if |roster| < 10 {
      if exists id :: id in departures && id !in before { return Err(UnknownDeparture); }
      InOrderIs(departures);
      return Ok(Decision(record.matchId, None, lobbyId, action, AwaitingSubstitutes, None, None,
                         Vacated(InOrder(departures), before), promoted, false, false, false, false));
    }
    if action == ContinueSeries && !HasSeriesContext(record) { return Err(NoSeries); }
    var teams := ChooseTeams(record, roster, action == ShuffleTeams);
    if teams.Err? { return Err(teams.error); }
    var (one, two) := teams.value;
    r := Ok(Decision(record.matchId, Some(Continued(record.guildId, record.matchId, action)), lobbyId, action, Ready,
                     Some(one), Some(two), Changes(before, SeatsOf(one, two)), promoted, false, false, false, false));
  }

  class MatchContinuityService {
    const repository: MatchContinuityRepository
    const queueService: PartyQueueService
    var rooms: map<string, seq<int>>
    var matches: map<Key, (MatchTeam, MatchTeam)>

    constructor (repository: MatchContinuityRepository, queueService: PartyQueueService)
      ensures this.repository == repository && this.queueService == queueService && rooms == map[] && matches == map[]
    {
      this.repository := repository;
      this.queueService := queueService;
      rooms := map[];
      matches := map[];
    }

    function State(): World
      reads this, repository, queueService
    {
      World(queueService.queues, repository.rows, rooms, matches)
    }

    /** The room reconciler: without rooms it does nothing and answers false. */
    method ReconcileRooms(lobbyId: string, ids: seq<int>) returns (reused: bool)
      modifies `rooms
      ensures reused == (lobbyId in old(rooms))
      ensures rooms == if reused then old(rooms)[lobbyId := Dedup(ids)] else old(rooms)
    {
      if lobbyId !in rooms { return false; }
      rooms := rooms[lobbyId := Dedup(ids)];
      reused := true;
    }

    /** The draft starter: creating the same match again returns it. */
    method CreateNextMatch(guildId: int, d: Decision) returns (error: Option<Error>)
      requires Complete(d) && d.status == Ready
      modifies `matches
      ensures var next := (guildId, d.next.value);
              var teams := (d.teamOne.value, d.teamTwo.value);
              if next in old(matches)
              then matches == old(matches) && error == (if old(matches)[next] == teams then None else Some(MatchTaken))
              else matches == old(matches)[next := teams] && error == None
    {
      var next := (guildId, d.next.value);
      var teams := (d.teamOne.value, d.teamTwo.value);
      if next in matches {
        return if matches[next] == teams then None else Some(MatchTaken);
      }
      matches := matches[next := teams];
      error := None;
    }

    ghost predicate Separate() {
      queueService as object != repository as object && queueService as object != this && repository as object != this
    }

    /** The departures, one call of the queue service each. */
    method LeaveAll(d: Decision, ids: seq<int>, ghost key: Key) returns (error: Option<Error>)
      requires Separate()
      modifies queueService
      ensures var (p, stopped) := All(Process(old(State()), false), key, d, Leaves(ids));
              State() == p.world && stopped == (if error.Some? then Some(Failed(error.value)) else None) && !p.reused
    {
      hide All, Step;
      ghost var start := Process(State(), false);
      ghost var p := start;
      assert ids[0..] == ids;
      for i := 0 to |ids|
        invariant p == Process(State(), false)
        invariant repository.rows == old(repository.rows) && rooms == old(rooms) && matches == old(matches)
        invariant All(start, key, d, Leaves(ids)) == All(p, key, d, Leaves(ids[i..]))
      {
        TakeHead(p, key, d, Leaves(ids[i..]));
        assert Leaves(ids[i..])[1..] == Leaves(ids[i..][1..]) && ids[i..][1..] == ids[i + 1..];
        LeaveStep(p, key, d, ids[i]);
        var r := queueService.Leave(d.lobbyId, ids[i]);
        if r.Err? { return Some(QueueFailed(r.error)); }
        p := Process(State(), false);
      }
      NothingLeft(p, key, d);
      error := None;
    }

    /** The queue, and its checkpoint. */
    method ProjectQueue(key: Key, d: Decision) returns (error: Option<Error>)
      requires Separate() && key in repository.rows && repository.rows[key].decision == d && Complete(d) && !d.queueProjected
      modifies repository, queueService
      ensures PartIsDone(old(State()), key, State(), error)
    {
      hide All, Step, Leaves;
      ghost var p0 := Process(State(), false);
      ghost var part := PartOf(d);
      var ids: Option<seq<int>> := None;
      match d.status {
        case Queued =>
          TakeHead(p0, key, d, part);
        case Ready =>
          var departing := Departing(d.changes);
          var r := LeaveAll(d, departing, key);
          ids := Some(ActiveIds(d));
          assert part == Leaves(departing) + [ResetQueue(ids), MarkQueue];
          AllSplits(p0, key, d, Leaves(departing), [ResetQueue(ids), MarkQueue]);
          if r.Some? { return r; }
          TakeHead(Process(State(), false), key, d, [ResetQueue(ids), MarkQueue]);
        case AwaitingSubstitutes =>
          assert part == [MarkQueue];
          MarkAlone(p0, key, d, MarkQueue);
          var _ := repository.MarkProjection(key, MarkQueue, false);
          return None;
      }
      ghost var p1 := Process(State(), false);
      ResetStep(p1, key, d, ids);
      var reset := queueService.ResetRoster(d.lobbyId, ids);
      if reset.Err? { return Some(QueueFailed(reset.error)); }
      MarkAlone(Process(State(), false), key, d, MarkQueue);
      var _ := repository.MarkProjection(key, MarkQueue, false);
      error := None;
    }

    /** The rooms, and their checkpoint. */
    method ProjectRooms(key: Key, d: Decision)
      requires Separate() && key in repository.rows && repository.rows[key].decision == d && Complete(d) && d.queueProjected && !d.roomsProjected
      modifies repository, `rooms
      ensures PartIsDone(old(State()), key, State(), None)
    {
      hide All, Step;
      ghost var p0 := Process(State(), false);
      ghost var part := PartOf(d);
      assert part == RoomEffects(d) + [MarkRooms];
      assert if d.status == Ready then part[1..] == [MarkRooms] else part == [MarkRooms];
      var reused := false;
      if d.status == Ready {
        var ids := ActiveIds(d);
        TakeHead(p0, key, d, part);
        SyncStep(p0, key, d, ids);
        reused := ReconcileRooms(d.lobbyId, ids);
      }
      MarkAlone(Process(State(), reused), key, d, MarkRooms);
      var _ := repository.MarkProjection(key, MarkRooms, reused);
    }

    /** The next match, and its checkpoint. */
    method ProjectDraft(key: Key, d: Decision) returns (error: Option<Error>)
      requires Separate() && key in repository.rows && repository.rows[key].decision == d && Complete(d)
      requires d.queueProjected && d.roomsProjected && !d.draftProjected
      modifies repository, `matches
      ensures PartIsDone(old(State()), key, State(), error)
    {
      hide All, Step;
      ghost var p0 := Process(State(), false);
      ghost var part := PartOf(d);
      assert part == DraftEffects(d) + [MarkDraft];
      assert if d.status == Ready then part[1..] == [MarkDraft] else part == [MarkDraft];
      if d.status == Ready {
        TakeHead(p0, key, d, part);
        StartStep(p0, key, d);
        error := CreateNextMatch(key.0, d);
        if error.Some? { return; }
      }
      MarkAlone(Process(State(), false), key, d, MarkDraft);
      var _ := repository.MarkProjection(key, MarkDraft, false);
      error := None;
    }

    /** _project: each stage whose checkpoint is missing, in order. */
    method Project(key: Key, found: Decision) returns (r: Result<Decision, Error>)
      requires Separate() && key in repository.rows && repository.rows[key].decision == found && Complete(found) && InStages(found)
      modifies this, repository, queueService
      ensures Ended(old(State()), key) == (State(), match r case Ok(d) => Finished(d) case Err(error) => Failed(error))
    {
      hide Ended, All;
      var d := found;
      if !d.queueProjected {
        EndedByFirst(State(), key);
        var error := ProjectQueue(key, d);
        if error.Some? { return Err(error.value); }
        d := repository.rows[key].decision;
      }
      if !d.roomsProjected {
        EndedByFirst(State(), key);
        ProjectRooms(key, d);
        d := repository.rows[key].decision;
      }
      if !d.draftProjected {
        EndedByFirst(State(), key);
        var error := ProjectDraft(key, d);
        if error.Some? { return Err(error.value); }
        d := repository.rows[key].decision;
      }
      EndsWhenAllSet(State(), key);
      r := Ok(d);
    }

    /** continue_match, when the process is not killed. */
    method ContinueMatch(c: Call) returns (r: Result<Decision, Error>)
      requires Separate() && Orderly(State())
      modifies this, repository, queueService
      ensures match Decide(old(State()), c)
              case Err(error) => r == Err(error) && State() == old(State())
              case Ok((decided, d)) =>
                if d.status == AwaitingSubstitutes then r == Ok(d) && State() == decided
                else KeyOf(c) in decided.rows && Complete(decided.rows[KeyOf(c)].decision)
                     && Ended(decided, KeyOf(c)) == (State(), match r case Ok(e) => Finished(e) case Err(error) => Failed(error))
    {
      var decided := FindDecision(c);
      if decided.Err? { return decided; }
      if decided.value.status == AwaitingSubstitutes { return decided; }
      r := Project(KeyOf(c), decided.value);
    }

    /** The first half of continue_match: find, resume or make the decision. */
    method FindDecision(c: Call) returns (r: Result<Decision, Error>)
      requires Separate() && Orderly(State())
      modifies repository
      ensures match Decide(old(State()), c)
              case Err(error) => r == Err(error) && State() == old(State())
              case Ok((decided, d)) =>
                && r == Ok(d) && State() == decided && KeyOf(c) in repository.rows && repository.rows[KeyOf(c)].decision == d
                && Complete(d) && InStages(d)
    {
      hide BuildResult, MatchProjection.Reserve, MatchProjection.CompleteSubstitutes;
      if Decide(State(), c).Ok? {
        DecideKeepsOrder(State(), c);
        OrderlyIsInStages(Decide(State(), c).value.0, KeyOf(c));
      }
      if !IsWin(c.record.outcome) { return Err(NoWinner); }
      var prior := repository.Get(c.record.guildId, c.record.matchId);
      if prior.Some? {
        if prior.value.action != c.action { return Err(AlreadySelected); }
        if prior.value.status != AwaitingSubstitutes { return Ok(prior.value); }
        if c.lobbyId !in queueService.queues { return Err(NoQueue); }
        var departures := set id | id in Departing(prior.value.changes);
        var resumed := Build(c.record, c.lobbyId, queueService.queues[c.lobbyId], c.action, departures);
        if resumed.Err? { return resumed; }
        if resumed.value.status == AwaitingSubstitutes { return Ok(prior.value); }
        r := repository.CompleteSubstitutes(c.record.guildId, resumed.value);
        return;
      }
      if c.lobbyId !in queueService.queues { return Err(NoQueue); }
      var built := Build(c.record, c.lobbyId, queueService.queues[c.lobbyId], c.action, c.departing);
      if built.Err? { return built; }
      r := repository.Reserve(c.record.guildId, built.value, c.operationId);
    }
  }

  /** The first part of the projection is done, or has failed. */
  ghost predicate PartIsDone(w: World, key: Key, v: World, error: Option<Error>)
    requires key in w.rows && Complete(w.rows[key].decision) && FirstPart(w.rows[key].decision).Some?
  {
    var (p, stopped) := FirstDone(w, key);
    && p.world == v && stopped == (if error.Some? then Some(Failed(error.value)) else None)
    && (error.None? ==> key in v.rows && exists reused :: v.rows[key].decision == Marked(w.rows[key].decision, FirstPart(w.rows[key].decision).value.mark, reused))
  }

  lemma EndsWhenAllSet(w: World, key: Key)
    requires key in w.rows && Complete(w.rows[key].decision) && AllSet(w.rows[key].decision)
    ensures Ended(w, key) == (w, Finished(w.rows[key].decision))
  {
    PlanFromFirst(w.rows[key].decision);
  }

  lemma AllSplits(p: Process, key: Key, d: Decision, a: seq<Effect>, b: seq<Effect>)
    ensures var (q, stopped) := All(p, key, d, a);
            All(p, key, d, a + b) == if stopped.Some? then (q, stopped) else All(q, key, d, b)
  {
    hide Take;
    TakeSplits(p, key, d, a, b, |a + b|);
    TakeLives(p, key, d, a, |a + b|);
  }

  lemma MarkAlone(p: Process, key: Key, d: Decision, mark: Effect)
    requires IsMark(mark) && key in p.world.rows
    ensures All(p, key, d, [mark]) == (p.(world := Mark(p.world, key, Marked(p.world.rows[key].decision, mark, p.reused))), None)
  {
    hide Take, Step;
    TakeOne(p, key, d, mark);
    MarkStep(p, key, d, mark);
  }

  lemma ResetStep(p: Process, key: Key, d: Decision, ids: Option<seq<int>>)
    ensures Step(p, key, d, ResetQueue(ids)) ==
              if d.lobbyId !in p.world.queues then Err(QueueFailed(PQ.DoesNotExist))
              else match PQ.RosterReset(p.world.queues[d.lobbyId], ids)
                   case Err(error) => Err(QueueFailed(error))
                   case Ok(q) => Ok(p.(world := p.world.(queues := p.world.queues[d.lobbyId := q])))
  {
    hide PQ.RosterReset;
  }

  lemma SyncStep(p: Process, key: Key, d: Decision, ids: seq<int>)
    ensures Step(p, key, d, SyncRooms(ids)) ==
              if d.lobbyId !in p.world.rooms then Ok(p.(reused := false))
              else Ok(Process(p.world.(rooms := p.world.rooms[d.lobbyId := Dedup(ids)]), true))
  {
  }

  lemma StartStep(p: Process, key: Key, d: Decision)
    requires Complete(d) && d.status == Ready
    ensures var next := (key.0, d.next.value);
            var teams := (d.teamOne.value, d.teamTwo.value);
            Step(p, key, d, StartMatch) ==
              if next in p.world.matches then (if p.world.matches[next] == teams then Ok(p) else Err(MatchTaken))
              else Ok(p.(world := p.world.(matches := p.world.matches[next := teams])))
  {
  }

  lemma LeaveStep(p: Process, key: Key, d: Decision, userId: int)
    ensures Step(p, key, d, LeaveQueue(userId)) ==
              if d.lobbyId !in p.world.queues then Err(QueueFailed(PQ.DoesNotExist))
              else Ok(p.(world := p.world.(queues := p.world.queues[d.lobbyId := PQ.Left(p.world.queues[d.lobbyId], userId).0])))
  {
    hide PQ.Left;
  }
}
