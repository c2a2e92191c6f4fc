/** PartyQueueService of utils/party_queue.py: every method loads a copy, changes
    it step by step and saves it. */
module PartyQueueServices {
  import opened Common
  import opened PartyQueue

  /** _remove_member. */
  method RemoveMember(members: seq<Member>, userId: int) returns (rest: seq<Member>, found: bool)
    ensures rest == Remove(members, userId) && found == Has(members, userId)
  {
    var index := 0;
    while index < |members|
      invariant index <= |members|
      invariant Find(members, userId) == index + Find(members[index..], userId)
    {
      if members[index].userId == userId {
        return members[..index] + members[index + 1..], true;
      }
      index := index + 1;
    }
    return members, false;
  }

  lemma PromoteShortens(q: Queue)
    requires |q.active| < q.capacity && q.waitlist != []
    ensures Promote(q).1.Some? && |Promote(q).0.waitlist| < |q.waitlist|
  {
  }

  class PartyQueueService {
    const config: Config
    var queues: map<string, Queue>

    constructor (config: Config)
      requires ValidConfig(config)
      ensures this.config == config && queues == map[]
    {
      this.config := config;
      this.queues := map[];
    }

    method Create(lobbyId: string, capacity: int) returns (r: Result<Queue, QueueError>)
      modifies this
      ensures r == if capacity < 1 then Err(BadCapacity)
                   else if lobbyId in old(queues) then Err(AlreadyExists) else Ok(NewQueue(capacity))
      ensures queues == if r.Ok? then old(queues)[lobbyId := NewQueue(capacity)] else old(queues)
    {
      if capacity < 1 { return Err(BadCapacity); }
      if lobbyId in queues { return Err(AlreadyExists); }
      var queue := NewQueue(capacity);
      queues := queues[lobbyId := queue];
      r := Ok(queue);
    }

    method Resize(lobbyId: string, capacity: int) returns (r: Result<(Queue, seq<int>), QueueError>)
      modifies this
      ensures lobbyId !in old(queues) ==> r == Err(if capacity < 1 then BadCapacity else DoesNotExist)
      ensures lobbyId in old(queues) ==> r == Resized(old(queues)[lobbyId], capacity)
      ensures queues == if r.Ok? then old(queues)[lobbyId := r.value.0] else old(queues)
    {
      if capacity < 1 { return Err(BadCapacity); }
      if lobbyId !in queues { return Err(DoesNotExist); }
      var queue := queues[lobbyId];
      if capacity < |queue.active| { return Err(BelowRoster); }
      queue := queue.(capacity := capacity);
      var promoted: seq<int>;
      queue, promoted := PromoteWhileFree(queue);
      queues := queues[lobbyId := queue];
      r := Ok((queue, promoted));
    }

    method PromoteWhileFree(start: Queue) returns (queue: Queue, promoted: seq<int>)
      ensures (queue, promoted) == FillSeats(start)
    {
      hide Promote;
      queue, promoted := start, [];
      assert [] + FillSeats(start).1 == FillSeats(start).1;
      while |queue.active| < queue.capacity && queue.waitlist != []
        invariant FillSeats(start) == (FillSeats(queue).0, promoted + FillSeats(queue).1)
        decreases |queue.waitlist|
      {
        PromoteShortens(queue);
        var (next, id) := Promote(queue);
        assert promoted + ([id.value] + FillSeats(next).1) == promoted + [id.value] + FillSeats(next).1;
        queue, promoted := next, promoted + [id.value];
      }
      assert promoted + [] == promoted;
    }

    method ResetRoster(lobbyId: string, activeIds: Option<seq<int>>) returns (r: Result<Queue, QueueError>)
      modifies this
      ensures lobbyId !in old(queues) ==> r == Err(DoesNotExist)
      ensures lobbyId in old(queues) ==> r == RosterReset(old(queues)[lobbyId], activeIds)
      ensures queues == if r.Ok? then old(queues)[lobbyId := r.value] else old(queues)
    {
      if lobbyId !in queues { return Err(DoesNotExist); }
      var queue := queues[lobbyId];
      var members := queue.active + queue.waitlist;
      if activeIds.Some? {
        if Repeats(activeIds.value) { return Err(DuplicatePlayers); }
        if exists id :: id in activeIds.value && !Has(members, id) { return Err(UnknownPlayers); }
        queue := queue.(active := Pick(members, activeIds.value));
        queue := queue.(waitlist := SortBy(NotIn(members, activeIds.value), SequenceKey));
      }
      queue := queue.(status := Open);
      queue := queue.(ready := map[]);
      queue := queue.(deadline := None);
      queue := queue.(extensionsUsed := 0);
      queues := queues[lobbyId := queue];
      r := Ok(queue);
    }

    method Join(lobbyId: string, userId: int, roles: seq<string>) returns (r: Result<(Queue, Destination), QueueError>)
      modifies this
      ensures lobbyId !in old(queues) ==> r == Err(DoesNotExist)
      ensures lobbyId in old(queues) ==> r == Joined(old(queues)[lobbyId], userId, roles)
      ensures queues == if r.Ok? then old(queues)[lobbyId := r.value.0] else old(queues)
    {
      if lobbyId !in queues { return Err(DoesNotExist); }
      var queue := queues[lobbyId];
      if queue.status == Cancelled { return Err(QueueIsCancelled); }
      if Has(queue.active + queue.waitlist, userId) {
        assert queues[lobbyId := queue] == queues;
        return Ok((queue, Unchanged));
      }
      var member := Member(userId, DistinctRoles(roles), queue.nextSequence);
      queue := queue.(nextSequence := queue.nextSequence + 1);
      var destination;
      if |queue.active| < queue.capacity {
        destination := ToActive;
        queue := queue.(active := queue.active + [member]);
      } else {
        destination := ToWaitlist;
        queue := queue.(waitlist := queue.waitlist + [member]);
      }
      queues := queues[lobbyId := queue];
      r := Ok((queue, destination));
    }

    method Leave(lobbyId: string, userId: int) returns (r: Result<(Queue, Option<int>), QueueError>)
      modifies this
      ensures lobbyId !in old(queues) ==> r == Err(DoesNotExist)
      ensures lobbyId in old(queues) ==> r == Ok(Left(old(queues)[lobbyId], userId))
      ensures queues == if r.Ok? then old(queues)[lobbyId := r.value.0] else old(queues)
    {
      if lobbyId !in queues { return Err(DoesNotExist); }
      var queue := queues[lobbyId];
      var active, wasActive := RemoveMember(queue.active, userId);
      var waitlist, wasWaitlisted := RemoveMember(queue.waitlist, userId);
      if !wasActive && !wasWaitlisted {
        assert queues[lobbyId := queue] == queues;
        return Ok((queue, None));
      }
      queue := queue.(active := active, waitlist := waitlist);
      queue := queue.(ready := ForgetReady(queue.ready, [userId]));
      var promoted: Option<int> := None;
      if wasActive {
        var (next, id) := Promote(queue);
        queue, promoted := next, id;
      }
      queues := queues[lobbyId := queue];
      r := Ok((queue, promoted));
    }

    method StartReadyCheck(lobbyId: string, now: int) returns (r: Result<Queue, QueueError>)
      modifies this
      ensures lobbyId !in old(queues) ==> r == Err(DoesNotExist)
      ensures lobbyId in old(queues) ==> r == ReadyCheckStarted(old(queues)[lobbyId], now, config)
      ensures queues == if r.Ok? then old(queues)[lobbyId := r.value] else old(queues)
    {
      if lobbyId !in queues { return Err(DoesNotExist); }
      var queue := queues[lobbyId];
      if queue.active == [] { return Err(EmptyLobby); }
      queue := queue.(status := ReadyCheck);
      queue := queue.(ready := map[]);
      queue := queue.(extensionsUsed := 0);
      queue := queue.(deadline := Some(now + config.timeout));
      queues := queues[lobbyId := queue];
      r := Ok(queue);
    }

    method Respond(lobbyId: string, userId: int, status: ReadyStatus, now: int) returns (r: Result<(Queue, Option<int>), QueueError>)
      modifies this
      ensures lobbyId !in old(queues) ==> r == Err(DoesNotExist)
      ensures lobbyId in old(queues) ==> r == Responded(old(queues)[lobbyId], userId, status, now, config)
      ensures queues == if r.Ok? then old(queues)[lobbyId := r.value.0] else old(queues)
    {
      if lobbyId !in queues { return Err(DoesNotExist); }
      var queue := queues[lobbyId];
      if queue.status != ReadyCheck { return Err(NotReadyChecking); }
      if queue.deadline.Some? && now >= queue.deadline.value { return Err(CheckExpired); }
      if !Has(queue.active, userId) { return Err(NotActive); }
      var promotedId: Option<int> := None;
      match status {
        case Drop =>
          var active, _ := RemoveMember(queue.active, userId);
          queue := queue.(active := active);
          var (next, id) := Promote(queue);
          queue, promotedId := next, id;
          queue := queue.(status := Open);
          queue := queue.(ready := map[]);
          queue := queue.(deadline := None);
        case Need5 =>
          if queue.extensionsUsed >= config.maxExtensions { return Err(ExtensionLimit); }
          if queue.deadline.None? { return Err(NoDeadline); }
          queue := queue.(extensionsUsed := queue.extensionsUsed + 1);
          queue := queue.(deadline := Some(queue.deadline.value + config.extension));
          queue := queue.(ready := queue.ready[userId := Need5]);
        case Ready =>
          queue := queue.(ready := queue.ready[userId := Ready]);
      }
      queues := queues[lobbyId := queue];
      r := Ok((queue, promotedId));
    }

    method Expire(lobbyId: string, now: int) returns (r: Result<(Queue, seq<int>), QueueError>)
      modifies this
      ensures lobbyId !in old(queues) ==> r == Err(DoesNotExist)
      ensures lobbyId in old(queues) ==> r == Ok(Expired(old(queues)[lobbyId], now, config))
      ensures queues == if r.Ok? then old(queues)[lobbyId := r.value.0] else old(queues)
    {
      if lobbyId !in queues { return Err(DoesNotExist); }
      var queue := queues[lobbyId];
      if queue.status != ReadyCheck || queue.deadline.None? || now < queue.deadline.value {
        assert queues[lobbyId := queue] == queues;
        return Ok((queue, []));
      }
      var nonReady := NotReady(queue, queue.active);
      if config.cancelOnTimeout {
        queue := queue.(status := Cancelled);
      } else {
        queue := SendAway(queue, nonReady);
        var promoted;
        queue, promoted := PromoteWhileFree(queue);
        queue := queue.(status := Open);
        queue := queue.(deadline := None);
      }
      queues := queues[lobbyId := queue];
      r := Ok((queue, nonReady));
    }

    method SendAway(start: Queue, ids: seq<int>) returns (queue: Queue)
      ensures queue == start.(active := RemoveAll(start.active, ids), ready := ForgetReady(start.ready, ids))
    {
      var active, ready := start.active, start.ready;
      assert ForgetReady(ready, []) == ready;
      for i := 0 to |ids|
        invariant ready == ForgetReady(start.ready, ids[..i])
        invariant RemoveAll(start.active, ids) == RemoveAll(active, ids[i..])
      {
        assert ids[i..][1..] == ids[i + 1..];
        ForgetOneMore(start.ready, ids, i);
        active, ready := Remove(active, ids[i]), ForgetReady(ready, [ids[i]]);
      }
      assert ids[..|ids|] == ids;
      queue := start.(active := active, ready := ready);
    }
  }

  lemma ForgetOneMore(ready: map<int, ReadyStatus>, ids: seq<int>, i: nat)
    requires i < |ids|
    ensures ForgetReady(ForgetReady(ready, ids[..i]), [ids[i]]) == ForgetReady(ready, ids[..i + 1])
  {
    assert ids[..i + 1] == ids[..i] + [ids[i]];
  }
}
