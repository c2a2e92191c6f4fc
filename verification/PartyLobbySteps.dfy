/** One store step of a handler: what it does, and what the steps so far keep. */
module PartyLobbySteps {
  import opened Common
  import opened PartyStore
  import opened PartyStoreInvariant
  import opened PartyLobby
  import PQ = PartyQueue

  // ---- Operation IDs ------------------------------------------------------------------

  /** The interaction has recorded nothing but these steps. */
  ghost predicate OnlySteps(audit: seq<Event>, interaction: int, done: set<string>) {
    forall i :: 0 <= i < |audit| && audit[i].operation.Discord? && audit[i].operation.interaction == interaction ==>
      audit[i].operation.step in done
  }

  /** A seating after a change of capacity is recorded under a version now past. */
  ghost predicate OldSync(store: Store, op: OperationId) {
    op.CapacitySync? ==> op.lobbyId in store.lobbies && op.version < store.lobbies[op.lobbyId].version
  }

  /** A ready check times out once: its lobby is then terminal. */
  ghost predicate TimedOut(store: Store, op: OperationId) {
    op.ReadyTimeout? ==> op.lobbyId in store.lobbies && IsTerminal(store.lobbies[op.lobbyId].state)
  }

  ghost predicate OperationsPast(store: Store) {
    forall i :: 0 <= i < |store.audit| ==> OldSync(store, store.audit[i].operation) && TimedOut(store, store.audit[i].operation)
  }

  ghost predicate StoreOk(store: Store, interaction: int, done: set<string>) {
    Ordered(store) && OperationsPast(store) && OnlySteps(store.audit, interaction, done)
  }

  lemma StepIsNew(store: Store, interaction: int, done: set<string>, step: string, about: int)
    requires OnlySteps(store.audit, interaction, done) && step !in done
    ensures !Used(store, Discord(interaction, step, about))
  {
    UsedOperation(store.audit, Discord(interaction, step, about));
  }

  // ---- One step -------------------------------------------------------------------------

  /** The change a command makes to a lobby when it is not a repetition. */
  ghost predicate Makes(lobby: Lobby, c: Command, now: int, changed: Lobby, kind: EventKind)
    requires !c.Create? && !c.ExpireDue?
  {
    Edited(lobby, c, now) == Ok(Some((changed, kind)))
  }

  /** Versions only grow, and a terminal lobby stays terminal. */
  lemma EditGrows(lobby: Lobby, c: Command, now: int, changed: Lobby, kind: EventKind)
    requires !c.Create? && !c.ExpireDue? && Makes(lobby, c, now, changed, kind)
    ensures changed.version >= lobby.version && changed.lobbyId == lobby.lobbyId && changed.guildId == lobby.guildId
    ensures IsTerminal(lobby.state) ==> IsTerminal(changed.state)
    ensures c.SaveParticipant? ==> changed.version > lobby.version
  {
  }

  ghost predicate MayStep(store: Store, c: Command)
    requires !c.Create? && !c.ExpireDue?
  {
    && c.lobbyId in store.lobbies && store.lobbies[c.lobbyId].guildId == c.guildId
    && !IsBlank(c.op) && !Used(store, c.op)
  }

  /** A new operation on a lobby of the guild is committed. */
  lemma StepCommits(store: Store, c: Command, naming: Naming, now: int, changed: Lobby, kind: EventKind)
    requires Ordered(store) && !c.Create? && !c.ExpireDue? && MayStep(store, c)
    requires Makes(store.lobbies[c.lobbyId], c, now, changed, kind)
    ensures var next := Commit(store, changed, c.op, MarkOf(c), kind, Some(store.lobbies[c.lobbyId].state), now);
            Exec(store, c, naming, now) == Ok((next, One(changed))) && Ordered(next)
  {
    hide Edited, IndexOf, MarkOf, Ordered, Commit, ProperChange, ValidLobby, IsSpace;
    var lobby := store.lobbies[c.lobbyId];
    ProperStep(store, c, now, changed, kind);
    TouchNeedsRecruiting(lobby, c, now);
    MarkIsAbout(c);
    CommitKeeps(store, changed, c.op, MarkOf(c), kind, now);
  }

  lemma ProperStep(store: Store, c: Command, now: int, changed: Lobby, kind: EventKind)
    requires Ordered(store) && !c.Create? && !c.ExpireDue? && MayStep(store, c)
    requires Makes(store.lobbies[c.lobbyId], c, now, changed, kind)
    ensures ProperChange(store.lobbies[c.lobbyId], changed) && changed.lobbyId == c.lobbyId && changed.guildId == c.guildId
  {
    hide Edited, Ordered;
    InOrderThere(store, c.lobbyId);
    EditIsProper(store.lobbies[c.lobbyId], c, now);
  }

  lemma TouchNeedsRecruiting(lobby: Lobby, c: Command, now: int)
    requires !c.Create? && !c.ExpireDue?
    ensures c.Touch? && Edited(lobby, c, now).Ok? && Edited(lobby, c, now).value.Some? ==> IsRecruiting(lobby.state)
  {
  }

  lemma MarkIsAbout(c: Command)
    requires !c.Create? && !c.ExpireDue?
    ensures MarkOf(c).lobbyId == c.lobbyId && MarkOf(c).guildId == c.guildId
  {
  }

  /** What an operation may be, for its steps to stay in order. */
  ghost predicate GoodOperation(store: Store, c: Command, changed: Lobby, interaction: int, done: set<string>)
    requires !c.Create? && !c.ExpireDue?
  {
    match c.op
    case Discord(i, step, _) => i == interaction && step in done
    case CapacitySync(id, version, _) => id == c.lobbyId && version < changed.version
    case ReadyTimeout(id, _) => id == c.lobbyId && IsTerminal(changed.state)
    case _ => false
  }

  lemma StepKeepsPast(store: Store, c: Command, naming: Naming, now: int, changed: Lobby, kind: EventKind, interaction: int, done: set<string>, more: set<string>)
    requires StoreOk(store, interaction, done) && done <= more && !c.Create? && !c.ExpireDue? && MayStep(store, c)
    requires Makes(store.lobbies[c.lobbyId], c, now, changed, kind) && GoodOperation(store, c, changed, interaction, more)
    ensures Exec(store, c, naming, now).Ok?
    ensures var (next, reply) := Exec(store, c, naming, now).value;
            reply == One(changed) && next.lobbies == store.lobbies[c.lobbyId := changed] && StoreOk(next, interaction, more)
  {
    InOrderThere(store, c.lobbyId);
    StepCommits(store, c, naming, now, changed, kind);
    EditGrows(store.lobbies[c.lobbyId], c, now, changed, kind);
    var lobby := store.lobbies[c.lobbyId];
    var e := Event(changed.lobbyId, changed.guildId, c.op, MarkOf(c), kind, Some(lobby.state), changed.state, now);
    var next := Commit(store, changed, c.op, MarkOf(c), kind, Some(lobby.state), now);
    assert next.audit == store.audit + [e] && next.lobbies == store.lobbies[c.lobbyId := changed];
    hide Edited, IndexOf, MarkOf, Ordered, Exec, Makes, OperationsPast, OnlySteps, Commit;
    PastStays(store, next, c, changed, interaction, more);
    StepsStay(store.audit, e, interaction, done, more);
  }

  lemma StepsStay(audit: seq<Event>, e: Event, interaction: int, done: set<string>, more: set<string>)
    requires OnlySteps(audit, interaction, done) && done <= more
    requires e.operation.Discord? && e.operation.interaction == interaction ==> e.operation.step in more
    ensures OnlySteps(audit + [e], interaction, more)
  {
  }

  lemma PastStays(store: Store, next: Store, c: Command, changed: Lobby, interaction: int, more: set<string>)
    requires OperationsPast(store) && !c.Create? && !c.ExpireDue? && c.lobbyId in store.lobbies
    requires next.lobbies == store.lobbies[c.lobbyId := changed] && changed.version >= store.lobbies[c.lobbyId].version
    requires IsTerminal(store.lobbies[c.lobbyId].state) ==> IsTerminal(changed.state)
    requires exists e :: next.audit == store.audit + [e] && e.operation == c.op
    requires GoodOperation(store, c, changed, interaction, more)
    ensures OperationsPast(next)
  {
    forall i | 0 <= i < |next.audit| ensures OldSync(next, next.audit[i].operation) && TimedOut(next, next.audit[i].operation) {
      if i < |store.audit| {
        assert next.audit[i] == store.audit[i];
        assert OldSync(store, store.audit[i].operation) && TimedOut(store, store.audit[i].operation);
      }
    }
  }

  // ---- A step of the world ----------------------------------------------------------------

  /** The second world differs from the first at this lobby only, which stays in
      its guild and, once terminal, terminal. */
  ghost predicate OnlyAt(w: World, v: World, id: string) {
    && id in w.store.lobbies && id in v.store.lobbies && v.store.lobbies == w.store.lobbies[id := v.store.lobbies[id]]
    && v.store.lobbies[id].guildId == w.store.lobbies[id].guildId
    && (IsTerminal(w.store.lobbies[id].state) ==> IsTerminal(v.store.lobbies[id].state))
    && v.queues - {id} == w.queues - {id}
  }

  lemma OnlyAtTransitive(w: World, v: World, u: World, id: string)
    requires OnlyAt(w, v, id) && OnlyAt(v, u, id)
    ensures OnlyAt(w, u, id)
  {
  }

  lemma OnlyAtSelf(w: World, id: string)
    requires id in w.store.lobbies
    ensures OnlyAt(w, w, id)
  {
    assert w.store.lobbies == w.store.lobbies[id := w.store.lobbies[id]];
  }

  lemma OnlyAtQueue(w: World, id: string, q: PQ.Queue)
    requires id in w.store.lobbies
    ensures OnlyAt(w, WithQueue(w, id, q), id)
  {
    OnlyAtSelf(w, id);
    assert w.queues[id := q] - {id} == w.queues - {id};
  }

  /** A step that changes the lobby as the command says. */
  lemma DoMakes(w: World, c: Command, env: Env, changed: Lobby, kind: EventKind, done: set<string>, more: set<string>)
    requires AboutOneLobby(c) && !c.Create? && StoreOk(w.store, env.interaction, done) && done <= more
    requires MayStep(w.store, c) && Makes(w.store.lobbies[c.lobbyId], c, env.now, changed, kind)
    requires GoodOperation(w.store, c, changed, env.interaction, more)
    ensures var (v, r) := Do(w, c, env);
            && r == Ok(changed) && v == w.(store := v.store) && v.store.lobbies == w.store.lobbies[c.lobbyId := changed]
            && StoreOk(v.store, env.interaction, more) && OnlyAt(w, v, c.lobbyId)
  {
    hide Exec, StoreOk, Makes, GoodOperation, MayStep;
    StepKeepsPast(w.store, c, env.naming, env.now, changed, kind, env.interaction, done, more);
    assert c.lobbyId in w.store.lobbies && w.store.lobbies[c.lobbyId].guildId == c.guildId by { MayStepThere(w.store, c); }
    EditGrows(w.store.lobbies[c.lobbyId], c, env.now, changed, kind);
  }

  lemma MayStepThere(store: Store, c: Command)
    requires !c.Create? && !c.ExpireDue? && MayStep(store, c)
    ensures c.lobbyId in store.lobbies && store.lobbies[c.lobbyId].guildId == c.guildId
  {
  }

  /** A step under this interaction changes nothing, or the lobby as it says. */
  lemma DoAny(w: World, c: Command, env: Env, step: string, about: int, done: set<string>)
    requires AboutOneLobby(c) && !c.Create? && StoreOk(w.store, env.interaction, done)
    requires c.op == Discord(env.interaction, step, about) && step !in done
    ensures var (v, r) := Do(w, c, env);
            && StoreOk(v.store, env.interaction, done + {step})
            && (r.Ok? ==> c.lobbyId in v.store.lobbies && r.value == v.store.lobbies[c.lobbyId])
            && (v == w || (c.lobbyId in w.store.lobbies && OnlyAt(w, v, c.lobbyId) && v == w.(store := v.store)
                           && exists kind :: Makes(w.store.lobbies[c.lobbyId], c, env.now, v.store.lobbies[c.lobbyId], kind)))
  {
    StepIsNew(w.store, env.interaction, done, step, about);
    MoreSteps(w.store, env.interaction, done, step);
    var found := Find(w.store, c.guildId, c.lobbyId);
    if found.Some? && Edited(found.value, c, env.now).Ok? && Edited(found.value, c, env.now).value.Some? {
      var (changed, kind) := Edited(found.value, c, env.now).value.value;
      DoMakes(w, c, env, changed, kind, done, done + {step});
    } else {
      NoChange(w, c, env);
    }
  }

  lemma MoreSteps(store: Store, interaction: int, done: set<string>, step: string)
    requires StoreOk(store, interaction, done)
    ensures StoreOk(store, interaction, done + {step})
  {
    hide Ordered, OperationsPast;
  }

  lemma NoChange(w: World, c: Command, env: Env)
    requires AboutOneLobby(c) && !c.Create? && !Used(w.store, c.op)
    requires var found := Find(w.store, c.guildId, c.lobbyId);
             found.Some? ==> Edited(found.value, c, env.now).Err? || Edited(found.value, c, env.now).value.None?
    ensures var (v, r) := Do(w, c, env);
            v == w && (r.Ok? ==> c.lobbyId in w.store.lobbies && r.value == w.store.lobbies[c.lobbyId])
  {
    hide Edited, IndexOf, MarkOf;
  }
}
