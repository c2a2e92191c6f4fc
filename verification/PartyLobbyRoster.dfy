/** Agreement between a lobby's roster and its queue, and the stages of handlers
    that change both. */
module PartyLobbyRoster {
  import opened Common
  import opened PartyStore
  import opened PartyStoreInvariant
  import opened PartyLobby
  import opened PartyLobbySteps
  import PQ = PartyQueue
  import PQI = PartyQueueInvariant

  // ---- Agreement ------------------------------------------------------------------------

  /** The roster is the queue's active list, within the lobby's capacity. */
  ghost predicate SameRoster(lobby: Lobby, q: PQ.Queue) {
    && (forall u :: HasParticipant(lobby, u) <==> PQ.Has(q.active, u))
    && |q.active| <= lobby.capacity
  }

  /** The organizer is on the roster. */
  ghost predicate Led(lobby: Lobby) { HasParticipant(lobby, lobby.organizerId) }

  ghost predicate Settled(w: World, id: string)
    requires id in w.store.lobbies
  {
    !IsTerminal(w.store.lobbies[id].state) ==>
      id in w.queues && SameRoster(w.store.lobbies[id], w.queues[id]) && Led(w.store.lobbies[id])
  }

  ghost predicate QueuesSound(w: World) {
    forall id :: id in w.queues ==> id in w.store.lobbies && PQ.Sound(w.queues[id])
  }

  ghost predicate AllSettled(w: World) {
    forall id :: id in w.store.lobbies ==> Settled(w, id)
  }

  /** The invariant between handler calls; `done` is what the running interaction
      has recorded. */
  ghost predicate WorldOk(w: World, interaction: int, done: set<string>) {
    StoreOk(w.store, interaction, done) && QueuesSound(w) && AllSettled(w)
  }

  /** A change at one lobby that leaves it settled keeps the invariant. */
  lemma SettledAgain(w: World, v: World, id: string, interaction: int, done: set<string>)
    requires QueuesSound(w) && AllSettled(w) && OnlyAt(w, v, id)
    requires StoreOk(v.store, interaction, done) && Settled(v, id) && (id in v.queues ==> PQ.Sound(v.queues[id]))
    ensures WorldOk(v, interaction, done)
  {
    hide StoreOk, PQ.Sound;
    forall k | k in v.queues ensures k in v.store.lobbies && PQ.Sound(v.queues[k]) {
      if k != id { OtherQueue(w, v, id, k); }
    }
    forall k | k in v.store.lobbies ensures Settled(v, k) {
      if k != id {
        assert Settled(w, k);
        OtherQueue(w, v, id, k);
      }
    }
  }

  lemma OtherQueue(w: World, v: World, id: string, k: string)
    requires OnlyAt(w, v, id) && k != id
    ensures k in v.queues <==> k in w.queues
    ensures k in v.queues ==> v.queues[k] == w.queues[k]
  {
    assert k in v.queues <==> k in v.queues - {id};
    assert k in w.queues <==> k in w.queues - {id};
    if k in v.queues { assert (v.queues - {id})[k] == v.queues[k] && (w.queues - {id})[k] == w.queues[k]; }
  }

  // ---- Sizes ----------------------------------------------------------------------------

  lemma HasIsInIds(members: seq<PQ.Member>, u: int)
    ensures PQ.Has(members, u) <==> u in PQ.Ids(members)
  {
    var ids, i := PQ.Ids(members), PQ.Find(members, u);
    if i < |members| { assert ids[i] == u; }
    if u in ids {
      var j :| 0 <= j < |ids| && ids[j] == u;
      assert members[j].userId == u;
    }
  }

  lemma {:induction false} SameElements(a: seq<int>, b: seq<int>)
    requires Distinct(a) && Distinct(b) && forall x :: x in a <==> x in b
    ensures |a| == |b|
    decreases |a|
  {
    if a == [] {
      SomeElement(b);
    } else {
      var x := a[0];
      assert x in a;
      var j :| 0 <= j < |b| && b[j] == x;
      var rest := b[..j] + b[j + 1..];
      forall y ensures y in a[1..] <==> y in rest {
        assert a == [x] + a[1..] && b == b[..j] + [x] + b[j + 1..];
        assert x !in a[1..] && x !in rest;
        assert y in a <==> y == x || y in a[1..];
        assert y in b <==> y == x || y in rest;
      }
      SameElements(a[1..], rest);
    }
  }

  lemma SomeElement(b: seq<int>)
    ensures b != [] ==> exists x :: x in b
  {
    if b != [] {
      var x := b[0];
      assert x in b;
    }
  }

  lemma ActiveDistinct(q: PQ.Queue)
    requires PQ.Tidy(q)
    ensures Distinct(PQ.Ids(q.active))
  {
    var ids := PQ.Ids(q.active);
    forall i, j | 0 <= i < j < |ids| ensures ids[i] != ids[j] {
      assert !PQ.Clash(PQ.Everyone(q)[i], PQ.Everyone(q)[j]);
    }
  }

  lemma RosterSize(lobby: Lobby, q: PQ.Queue)
    requires ValidLobby(lobby) && PQ.Sound(q) && SameRoster(lobby, q)
    ensures |lobby.participants| == |q.active|
  {
    ActiveDistinct(q);
    hide Distinct, PQ.Sound;
    var a, b := UserIds(lobby.participants), PQ.Ids(q.active);
    forall u ensures u in a <==> u in b {
      HasIsInIds(q.active, u);
      assert HasParticipant(lobby, u) <==> PQ.Has(q.active, u);
    }
    SameElements(a, b);
  }

  // ---- Steps that leave the roster alone --------------------------------------------------

  /** The commands of a handler that do not seat or unseat anybody. */
  predicate IsQuiet(c: Command) { c.Touch? || c.Transition? || c.UpdateMetadata? || c.TransferOrganizer? }

  lemma QuietEdit(lobby: Lobby, c: Command, now: int, changed: Lobby, kind: EventKind, q: PQ.Queue)
    requires IsQuiet(c) && Makes(lobby, c, now, changed, kind) && ValidLobby(lobby) && PQ.Sound(q) && SameRoster(lobby, q)
    ensures SameRoster(changed, q) && changed.participants == lobby.participants
    ensures Led(lobby) ==> Led(changed)
    ensures !c.Transition? ==> changed.state == lobby.state
    ensures c.Touch? || c.Transition? ==> changed.organizerId == lobby.organizerId && changed.capacity == lobby.capacity
  {
    RosterSize(lobby, q);
  }

  /** Such a step, whatever it answers, keeps the invariant. */
  lemma QuietStep(w: World, c: Command, env: Env, step: string, about: int, done: set<string>)
    requires WorldOk(w, env.interaction, done) && IsQuiet(c) && c.op == Discord(env.interaction, step, about) && step !in done
    ensures var (v, r) := Do(w, c, env);
            && WorldOk(v, env.interaction, done + {step}) && v == w.(store := v.store)
            && (v == w || (c.lobbyId in w.store.lobbies && OnlyAt(w, v, c.lobbyId)))
            && (r.Ok? ==> c.lobbyId in v.store.lobbies && r.value == v.store.lobbies[c.lobbyId])
  {
    DoAny(w, c, env, step, about, done);
    var (v, r) := Do(w, c, env);
    if v != w {
      var id := c.lobbyId;
      var kind :| Makes(w.store.lobbies[id], c, env.now, v.store.lobbies[id], kind);
      assert Settled(w, id);
      assert LobbyInOrder(w.store, id) by { InOrderThere(w.store, id); }
      hide Do, StoreOk, Ordered, Makes;
      if id in w.queues && !IsTerminal(w.store.lobbies[id].state) {
        QuietEdit(w.store.lobbies[id], c, env.now, v.store.lobbies[id], kind, w.queues[id]);
      }
      SettledAgain(w, v, id, env.interaction, done + {step});
    }
  }

  /** A step on a terminal lobby that seats or unseats fails and changes nothing. */
  lemma DeadStep(w: World, c: Command, env: Env)
    requires (c.SaveParticipant? || c.RemoveParticipant?) && c.lobbyId in w.store.lobbies && !Used(w.store, c.op)
    requires IsTerminal(w.store.lobbies[c.lobbyId].state)
    ensures Do(w, c, env).0 == w && Do(w, c, env).1.Err?
  {
    EditErrs(w.store.lobbies[c.lobbyId], c, env.now);
    hide Edited;
    DoErrs(w, c, env);
  }

  lemma EditErrs(lobby: Lobby, c: Command, now: int)
    requires (c.SaveParticipant? || c.RemoveParticipant?) && IsTerminal(lobby.state)
    ensures Edited(lobby, c, now).Err?
  {
  }

  lemma DoErrs(w: World, c: Command, env: Env)
    requires AboutOneLobby(c) && !c.Create? && !c.Touch? && !Used(w.store, c.op)
    requires var found := Find(w.store, c.guildId, c.lobbyId); found.Some? ==> Edited(found.value, c, env.now).Err?
    ensures Do(w, c, env).0 == w && Do(w, c, env).1.Err?
  {
    hide Edited, IndexOf, MarkOf;
  }

  // ---- Departures -------------------------------------------------------------------------

  /** The queue without this player, a waiting one promoted into the seat, if any. */
  ghost predicate Without(q: PQ.Queue, p: PQ.Queue, userId: int, promoted: Option<int>) {
    && PQ.Sound(p) && p.capacity == q.capacity && |p.active| <= |q.active|
    && (forall u :: PQ.Has(p.active, u) <==> (PQ.Has(q.active, u) && u != userId) || promoted == Some(u))
    && (promoted.Some? ==> PQ.Has(q.active, userId) && !PQ.Has(q.active, promoted.value))
    && (forall u :: PQ.Has(PQ.Everyone(p), u) ==> PQ.Has(PQ.Everyone(q), u))
  }

  lemma HasRemoved(members: seq<PQ.Member>, userId: int)
    requires PQ.AllApart(members)
    ensures forall u :: PQ.Has(PQ.Remove(members, userId), u) <==> PQ.Has(members, u) && u != userId
  {
    PQI.RemoveIsExact(members, userId);
    forall u ensures PQ.Has(PQ.Remove(members, userId), u) <==> PQ.Has(members, u) && u != userId {
      PQI.HasMember(members, u);
      PQI.HasMember(PQ.Remove(members, userId), u);
    }
  }

  lemma HasAppended(a: seq<PQ.Member>, b: seq<PQ.Member>, id: int)
    requires PQ.Ids(b) == PQ.Ids(a) + [id]
    ensures forall u :: PQ.Has(b, u) <==> PQ.Has(a, u) || u == id
  {
    forall u ensures PQ.Has(b, u) <==> PQ.Has(a, u) || u == id {
      HasIsInIds(a, u);
      HasIsInIds(b, u);
    }
  }

  lemma HasSubset(a: seq<PQ.Member>, b: seq<PQ.Member>)
    requires forall m :: m in a ==> m in b
    ensures forall u :: PQ.Has(a, u) ==> PQ.Has(b, u)
  {
    forall u | PQ.Has(a, u) ensures PQ.Has(b, u) {
      PQI.HasMember(a, u);
      PQI.HasMember(b, u);
    }
  }

  /** Promotion, seen from the active list. */
  lemma PromotedActive(q: PQ.Queue)
    requires PQ.Tidy(q)
    ensures var (p, promoted) := PQ.Promote(q);
            && |p.active| == |q.active| + (if promoted.Some? then 1 else 0) && (promoted.Some? ==> |q.active| < q.capacity && q.waitlist != [])
            && (forall u :: PQ.Has(p.active, u) <==> PQ.Has(q.active, u) || promoted == Some(u))
            && (promoted.Some? ==> !PQ.Has(q.active, promoted.value) && PQ.Has(q.waitlist, promoted.value))
  {
    if |q.active| < q.capacity && q.waitlist != [] {
      PQI.PromoteAppends(q);
      var (p, promoted) := PQ.Promote(q);
      HasAppended(q.active, p.active, promoted.value);
      var i := MinIndex(q.waitlist, PQ.Rank(q.active));
      assert promoted.value == q.waitlist[i].userId && q.waitlist[i] in q.waitlist;
      PQI.HasMember(q.waitlist, promoted.value);
      WaiterIsNotActive(q, promoted.value);
    }
  }

  lemma WaiterIsNotActive(q: PQ.Queue, id: int)
    requires PQ.Tidy(q) && PQ.Has(q.waitlist, id)
    ensures !PQ.Has(q.active, id)
  {
    forall i | 0 <= i < |q.active| ensures q.active[i].userId != id {
      assert !PQ.Clash(PQ.Everyone(q)[i], PQ.Everyone(q)[|q.active| + PQ.Find(q.waitlist, id)]);
    }
  }

  lemma LeftWithout(q: PQ.Queue, userId: int)
    requires PQ.Sound(q)
    ensures var (p, promoted) := PQ.Left(q, userId); Without(q, p, userId, promoted)
  {
    hide PQ.Promote, PQ.Remove, PQ.ForgetReady, PQ.Tidy, PQ.Has;
    var out := q.(active := PQ.Remove(q.active, userId), waitlist := PQ.Remove(q.waitlist, userId),
                  ready := PQ.ForgetReady(q.ready, [userId]));
    var (p, promoted) := PQ.Left(q, userId);
    PQI.LeaveKeeps(q, userId);
    HasSubset(PQ.Everyone(p), PQ.Everyone(q));
    PQI.DropTidy(q, userId);
    PQI.LanesApart(q);
    HasRemoved(q.active, userId);
    if PQ.Has(q.active, userId) {
      PromotedActive(out);
      WaitersWere(q, userId);
      if promoted.Some? { WaiterIsNotActive(q, promoted.value); }
    }
  }

  lemma WaitersWere(q: PQ.Queue, userId: int)
    requires PQ.Tidy(q)
    ensures forall u :: PQ.Has(PQ.Remove(q.waitlist, userId), u) ==> PQ.Has(q.waitlist, u)
  {
    PQI.LanesApart(q);
    HasRemoved(q.waitlist, userId);
  }

  lemma DroppedWithout(q: PQ.Queue, userId: int, now: int, c: PQ.Config)
    requires PQ.Sound(q) && PQ.Responded(q, userId, PQ.Drop, now, c).Ok?
    ensures var (p, promoted) := PQ.Responded(q, userId, PQ.Drop, now, c).value; Without(q, p, userId, promoted)
  {
    var out := q.(active := PQ.Remove(q.active, userId), waitlist := PQ.Remove(q.waitlist, userId),
                  ready := PQ.ForgetReady(q.ready, [userId]));
    var gone := q.(active := PQ.Remove(q.active, userId));
    var (p, promoted) := PQ.Responded(q, userId, PQ.Drop, now, c).value;
    PQI.DropKeeps(q, userId, now, c);
    PQI.DropTidy(q, userId);
    PQI.LaneOf(q, userId);
    PQI.LanesApart(q);
    HasRemoved(q.active, userId);
    PQI.PromoteFrame(gone, out);
    PromotedActive(out);
    if promoted.Some? { WaiterIsNotActive(q, promoted.value); }
    HasSubset(PQ.Everyone(p), PQ.Everyone(q));
    hide PQ.Promote, PQ.Remove, PQ.ForgetReady, PQ.Tidy, PQ.Find;
  }
}
