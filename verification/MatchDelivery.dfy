/** What a projection that finishes has done, exactly. */
module MatchDelivery {
  import opened Common
  import opened MatchRecords
  import opened MatchContinuity
  import opened MatchProjection
  import opened MatchReplay
  import opened PartyQueueReplay
  import PQ = PartyQueue
  import PQI = PartyQueueInvariant

  lemma TakeHead(p: Process, key: Key, d: Decision, effects: seq<Effect>)
    requires effects != []
    ensures All(p, key, d, effects) == match Step(p, key, d, effects[0])
                                       case Err(error) => (p, Some(Failed(error)))
                                       case Ok(next) => All(next, key, d, effects[1..])
  {
    hide Step;
  }

  function AfterQueue(d: Decision): seq<Effect>
    requires Complete(d) && d.status == Ready
  {
    [MarkQueue, SyncRooms(ActiveIds(d)), MarkRooms, StartMatch, MarkDraft]
  }

  predicate MayStart(w: World, key: Key, d: Decision)
    requires Complete(d) && d.status == Ready
  {
    var next := (key.0, d.next.value);
    next in w.matches ==> w.matches[next] == (d.teamOne.value, d.teamTwo.value)
  }

  function SyncedRooms(w: World, d: Decision): map<string, seq<int>>
    requires Complete(d) && d.status == Ready
  {
    if d.lobbyId in w.rooms then w.rooms[d.lobbyId := Dedup(ActiveIds(d))] else w.rooms
  }

  function WithMatch(w: World, key: Key, d: Decision): map<Key, (MatchTeam, MatchTeam)>
    requires Complete(d) && d.status == Ready
  {
    w.matches[(key.0, d.next.value) := (d.teamOne.value, d.teamTwo.value)]
  }

  function AllMarked(w: World, key: Key, d: Decision): Row
    requires key in w.rows
  {
    w.rows[key].(decision := w.rows[key].decision.(queueProjected := true, roomsProjected := true, draftProjected := true,
                                                   reusedRooms := d.lobbyId in w.rooms))
  }

  /** Once the queue is settled, rooms and the next match follow; only a match of
      other teams under the next match's ID can stop it. */
  lemma RestIsTaken(p: Process, key: Key, d: Decision)
    requires Complete(d) && d.status == Ready && key in p.world.rows && !p.reused
    ensures var w := p.world;
            var (r, stopped) := All(p, key, d, AfterQueue(d));
            if MayStart(w, key, d)
            then stopped.None? && r.world == w.(rows := w.rows[key := AllMarked(w, key, d)], rooms := SyncedRooms(w, d), matches := WithMatch(w, key, d))
            else stopped == Some(Failed(MatchTaken))
  {
    hide All, Dedup;
    var w, effects := p.world, AfterQueue(d);
    TakeHead(p, key, d, effects);
    var p1 := Step(p, key, d, MarkQueue).value;
    TakeHead(p1, key, d, effects[1..]);
    var p2 := Step(p1, key, d, SyncRooms(ActiveIds(d))).value;
    assert p2.world.rooms == SyncedRooms(w, d) && p2.reused == (d.lobbyId in w.rooms);
    TakeHead(p2, key, d, effects[2..]);
    assert effects[1..][1..] == effects[2..] && effects[2..][1..] == effects[3..] && effects[3..][1..] == effects[4..] && effects[4..][1..] == [];
    var p3 := Step(p2, key, d, MarkRooms).value;
    StartsOrStops(p3, key, d);
    TakeHead(p3, key, d, effects[3..]);
    if MayStart(w, key, d) {
      var p4 := Step(p3, key, d, StartMatch).value;
      TakeHead(p4, key, d, effects[4..]);
      var p5 := Step(p4, key, d, MarkDraft).value;
      NothingLeft(p5, key, d);
      assert p5.world.rows == w.rows[key := AllMarked(w, key, d)];
    }
  }

  lemma NothingLeft(p: Process, key: Key, d: Decision)
    ensures All(p, key, d, []) == (p, None)
  {
  }

  lemma StartsOrStops(p: Process, key: Key, d: Decision)
    requires Complete(d) && d.status == Ready
    ensures Step(p, key, d, StartMatch) ==
              if MayStart(p.world, key, d) then Ok(p.(world := p.world.(matches := WithMatch(p.world, key, d)))) else Err(MatchTaken)
  {
    var next := (key.0, d.next.value);
    if next in p.world.matches && MayStart(p.world, key, d) {
      assert p.world.matches[next := (d.teamOne.value, d.teamTwo.value)] == p.world.matches;
    }
  }

  lemma ReadyPlan(d: Decision)
    requires Complete(d) && d.status == Ready && Unset(d) == 3
    ensures Plan(d) == Settling(Departing(d.changes), Some(ActiveIds(d))) + AfterQueue(d)
  {
    hide Departing, ActiveIds, Leaves;
  }

  /** The roster is in the queue, in the rooms and in the next match, and every
      checkpoint is set. */
  ghost predicate Delivered(w: World, key: Key, d: Decision, v: World)
    requires Complete(d) && d.status == Ready
  {
    && key in v.rows && AllSet(v.rows[key].decision)
    && d.lobbyId in v.queues && PQ.Ids(v.queues[d.lobbyId].active) == PlayerIds(d.teamOne.value.players) + PlayerIds(d.teamTwo.value.players)
    && v.queues == w.queues[d.lobbyId := v.queues[d.lobbyId]]
    && v.rooms == SyncedRooms(w, d) && v.matches == WithMatch(w, key, d)
  }

  /** A ready decision, projected without interruption, finishes exactly when the
      departures and the new roster are accepted by the lobby's queue and no other
      teams hold the next match's ID. Then the roster is the two teams in order,
      the rooms hold the same players, the match exists with these teams and every
      checkpoint is set. */
  lemma ReadyDecisionDelivers(w: World, key: Key)
    requires key in w.rows && Complete(w.rows[key].decision)
    requires w.rows[key].decision.status == Ready && Unset(w.rows[key].decision) == 3
    requires QueueApart(w, w.rows[key].decision)
    ensures var d := w.rows[key].decision;
            var ids := ActiveIds(d);
            var accepted := d.lobbyId in w.queues && Settled(w.queues[d.lobbyId], Departing(d.changes), Some(ids)).Ok?;
            && (Ended(w, key).1.Finished? <==> accepted && MayStart(w, key, d))
            && (Ended(w, key).1.Finished? ==> Delivered(w, key, d, Ended(w, key).0))
  {
    var d := w.rows[key].decision;
    var p := Process(w, false);
    var departing, roster := Departing(d.changes), Some(ActiveIds(d));
    ReadyPlan(d);
    hide Plan, Settling, Take, AfterQueue, Complete, Apart, Settled, MayStart, SyncedRooms, WithMatch;
    var plan := Settling(departing, roster) + AfterQueue(d);
    TakeSplits(p, key, d, Settling(departing, roster), AfterQueue(d), |plan|);
    TakeLives(p, key, d, Settling(departing, roster), |plan|);
    TakeNeverFinishes(p, key, d, plan, |plan|);
    if d.lobbyId !in w.queues {
      NoQueueFails(p, key, d, departing, roster);
    } else {
      TakeSettling(p, key, d, departing, roster);
      var q := w.queues[d.lobbyId];
      if Settled(q, departing, roster).Ok? {
        var settled := Settled(q, departing, roster).value;
        SettledRoster(q, departing, ActiveIds(d));
        var next := p.(world := WithQueue(w, d.lobbyId, settled));
        WithQueueFrame(w, d.lobbyId, settled, key, d);
        RestIsTaken(next, key, d);
        TakeLives(next, key, d, AfterQueue(d), |plan| - |Settling(departing, roster)|);
      }
    }
  }

  lemma WithQueueFrame(w: World, lobbyId: string, q: PQ.Queue, key: Key, d: Decision)
    requires Complete(d) && d.status == Ready
    ensures var v := WithQueue(w, lobbyId, q);
            && (MayStart(v, key, d) <==> MayStart(w, key, d)) && SyncedRooms(v, d) == SyncedRooms(w, d) && WithMatch(v, key, d) == WithMatch(w, key, d)
            && v.rows == w.rows && v.rooms == w.rooms && v.queues == w.queues[lobbyId := q]
  {
  }

  lemma NoQueueFails(p: Process, key: Key, d: Decision, ids: seq<int>, roster: Option<seq<int>>)
    requires d.lobbyId !in p.world.queues
    ensures All(p, key, d, Settling(ids, roster)).1 == Some(Failed(QueueFailed(PQ.DoesNotExist)))
  {
    if ids == [] {
      assert Settling(ids, roster) == [ResetQueue(roster)];
    } else {
      assert Settling(ids, roster)[0] == LeaveQueue(ids[0]);
    }
  }

  lemma SettledRoster(q: PQ.Queue, departing: seq<int>, ids: seq<int>)
    requires Apart(q) && Settled(q, departing, Some(ids)).Ok?
    ensures PQ.Ids(Settled(q, departing, Some(ids)).value.active) == ids
  {
    LeftAllApart(q, departing);
    PQI.ResetSeats(LeftAll(q, departing), ids);
  }

  /** The queue accepts a roster without repeats exactly when every player of it
      is in the lobby, active or waiting. */
  lemma RosterAcceptedWhen(q: PQ.Queue, departing: seq<int>, ids: seq<int>)
    requires Apart(q) && Distinct(ids) && forall id :: id in departing ==> id !in ids
    ensures Settled(q, departing, Some(ids)).Ok? <==> forall id :: id in ids ==> PQ.Has(PQ.Everyone(q), id)
  {
    LeftAllApart(q, departing);
    var away := PQ.Everyone(LeftAll(q, departing));
    forall id | id in ids ensures PQ.Has(away, id) <==> PQ.Has(PQ.Everyone(q), id) {
      PQI.HasMember(away, id);
      PQI.HasMember(PQ.Everyone(q), id);
      assert id !in departing;
    }
    assert !PQ.Repeats(ids);
  }
}
