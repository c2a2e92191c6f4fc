/** Exactly-once effects, frozen terminal lobbies, and the two-stage expiry. */
module PartyStoreTheorems {
  import opened Common
  import opened PartyStore
  import opened PartyStoreInvariant

  // ---- Exactly once -----------------------------------------------------------------

  function MarkFor(c: Command, naming: Naming): Fingerprint
    requires !c.ExpireDue?
  {
    if c.Create? then CreateMark(c.guildId, NewId(c, naming)) else MarkOf(c)
  }

  /** This very command is in the audit log. */
  ghost predicate Remembers(store: Store, c: Command, naming: Naming)
    requires !c.ExpireDue?
  {
    exists i :: 0 <= i < |store.audit| && store.audit[i].operation == c.op && store.audit[i].fingerprint == MarkFor(c, naming)
  }

  lemma RememberedAt(store: Store, c: Command, naming: Naming, i: nat)
    requires Ordered(store) && !c.ExpireDue? && i < |store.audit| && store.audit[i].operation == c.op
    ensures IndexOf(store.audit, c.op) == i && Used(store, c.op)
  {
    assert forall k :: 0 <= k < i ==> store.audit[k].operation != store.audit[i].operation;
  }

  /** What the look-up of an operation answers. */
  lemma RecordedIs(store: Store, c: Command, naming: Naming)
    requires Ordered(store) && !c.ExpireDue?
    ensures Recorded(store, c.op, MarkFor(c, naming)) ==
              if Remembers(store, c, naming) then Ok(true)
              else if IsBlank(c.op) then Err(BlankOperation)
              else if Used(store, c.op) then Err(OperationConflict)
              else Ok(false)
    ensures Remembers(store, c, naming) ==>
              var e := store.audit[IndexOf(store.audit, c.op)];
              && Used(store, c.op) && e.lobbyId == MarkFor(c, naming).lobbyId && AboutItsLobby(store, e)
              && e.guildId == MarkFor(c, naming).guildId
    ensures Used(store, c.op) ==> !IsBlank(c.op)
  {
    if Remembers(store, c, naming) {
      var i :| 0 <= i < |store.audit| && store.audit[i].operation == c.op && store.audit[i].fingerprint == MarkFor(c, naming);
      RememberedAt(store, c, naming, i);
    }
    if Used(store, c.op) { assert AboutItsLobby(store, store.audit[IndexOf(store.audit, c.op)]); }
  }

  /** A recorded command, issued again at any time, answers with the lobby as it
      is and leaves the store as it is. */
  lemma RepeatedCommandIsIdle(store: Store, c: Command, naming: Naming, now: int)
    requires Ordered(store) && !c.ExpireDue? && Remembers(store, c, naming)
    ensures var id := MarkFor(c, naming).lobbyId;
            id in store.lobbies && Exec(store, c, naming, now) == Ok((store, One(store.lobbies[id])))
  {
    RecordedIs(store, c, naming);
    hide Answer, FreeCode, Ordered, IndexOf, Recorded, Remembers, AboutItsLobby, MarkOf;
    if c.Create? { CreatedAlready(store, c, naming, now); } else { ChangedAlready(store, c, now); }
  }

  lemma CreatedAlready(store: Store, c: Command, naming: Naming, now: int)
    requires c.Create? && Recorded(store, c.op, MarkFor(c, naming)) == Ok(true)
    requires var e := store.audit[IndexOf(store.audit, c.op)];
             && e.lobbyId == MarkFor(c, naming).lobbyId && e.lobbyId in store.lobbies && store.lobbies[e.lobbyId].guildId == c.guildId
    ensures MakeLobby(store, c, naming, now) == Ok((store, store.lobbies[MarkFor(c, naming).lobbyId]))
  {
    hide Recorded, IndexOf, FreeCode;
  }

  lemma ChangedAlready(store: Store, c: Command, now: int)
    requires !c.Create? && !c.ExpireDue? && Recorded(store, c.op, MarkOf(c)) == Ok(true)
    requires c.lobbyId in store.lobbies && store.lobbies[c.lobbyId].guildId == c.guildId
    ensures Changed(store, c, now) == Ok((store, One(store.lobbies[c.lobbyId])))
  {
    hide Recorded, Answer, MarkOf;
  }

  /** An operation ID that was recorded for another command changes nothing. */
  lemma ReusedOperationIsIdle(store: Store, c: Command, naming: Naming, now: int)
    requires Ordered(store) && !c.ExpireDue? && Used(store, c.op) && !Remembers(store, c, naming)
    ensures After(store, c, naming, now) == store
    ensures !c.Touch? ==> Exec(store, c, naming, now) == Err(OperationConflict)
  {
    RecordedIs(store, c, naming);
    hide Answer, FreeCode, Ordered, IndexOf, Recorded, Remembers;
  }

  /** One event more, of this command, and one lobby changed at most. */
  ghost predicate RecordsOnce(store: Store, next: Store, c: Command, naming: Naming)
    requires !c.ExpireDue?
  {
    && |next.audit| == |store.audit| + 1 && next.audit[..|store.audit|] == store.audit
    && var e := next.audit[|store.audit|];
    && e.operation == c.op && e.fingerprint == MarkFor(c, naming) && e.lobbyId == MarkFor(c, naming).lobbyId
    && e.lobbyId in next.lobbies && next.lobbies == store.lobbies[e.lobbyId := next.lobbies[e.lobbyId]]
  }

  lemma EditedSameId(lobby: Lobby, c: Command, now: int)
    requires !c.Create? && !c.ExpireDue? && Edited(lobby, c, now).Ok? && Edited(lobby, c, now).value.Some?
    ensures Edited(lobby, c, now).value.value.0.lobbyId == lobby.lobbyId
  {
  }

  /** The shape of every change to an existing lobby: one commit of one edit. */
  ghost predicate IsCommit(store: Store, next: Store, c: Command, now: int)
    requires !c.Create? && !c.ExpireDue?
  {
    && c.lobbyId in store.lobbies && store.lobbies[c.lobbyId].lobbyId == c.lobbyId && store.lobbies[c.lobbyId].guildId == c.guildId
    && var lobby := store.lobbies[c.lobbyId];
    && Edited(lobby, c, now).Ok? && Edited(lobby, c, now).value.Some?
    && var (changed, kind) := Edited(lobby, c, now).value.value;
    && changed.lobbyId == c.lobbyId
    && next == Commit(store, changed, c.op, MarkOf(c), kind, Some(lobby.state), now)
  }

  lemma ChangedShape(store: Store, c: Command, now: int)
    requires !c.Create? && !c.ExpireDue? && Changed(store, c, now).Ok? && Changed(store, c, now).value.0 != store
    ensures var found := Find(store, c.guildId, c.lobbyId);
            && found.Some? && Recorded(store, c.op, MarkOf(c)) == Ok(false)
            && Edited(found.value, c, now).Ok? && Edited(found.value, c, now).value.Some?
            && var (changed, kind) := Edited(found.value, c, now).value.value;
            Changed(store, c, now).value.0 == Commit(store, changed, c.op, MarkOf(c), kind, Some(found.value.state), now)
  {
    hide Edited, Recorded, Commit, Find, MarkOf;
  }

  lemma AfterChanged(store: Store, c: Command, naming: Naming, now: int)
    requires !c.Create? && !c.ExpireDue?
    ensures After(store, c, naming, now) == if Changed(store, c, now).Ok? then Changed(store, c, now).value.0 else store
  {
    hide Changed;
  }

  lemma ChangeIsCommit(store: Store, c: Command, naming: Naming, now: int)
    requires Ordered(store) && !c.Create? && !c.ExpireDue?
    ensures var next := After(store, c, naming, now);
            next != store ==> !Used(store, c.op) && IsCommit(store, next, c, now)
  {
    AfterChanged(store, c, naming, now);
    hide After, Changed, Commit, Edited, MarkOf, IndexOf;
    if Changed(store, c, now).Ok? && Changed(store, c, now).value.0 != store {
      ChangedShape(store, c, now);
      InOrderThere(store, c.lobbyId);
      hide Ordered;
      EditedSameId(store.lobbies[c.lobbyId], c, now);
    }
  }

  /** A creation that succeeds anew adds one lobby and its first event. */
  ghost predicate IsCreation(store: Store, next: Store, c: Command, naming: Naming, now: int)
    requires c.Create?
  {
    && NewId(c, naming) !in store.lobbies && c.capacity >= 2
    && exists code ::
         next == Commit(store, NewLobby(c, NewId(c, naming), code, now), c.op, CreateMark(c.guildId, NewId(c, naming)), Created, None, now)
  }

  lemma CreateIsCreation(store: Store, c: Command, naming: Naming, now: int)
    requires Ordered(store) && c.Create?
    ensures var next := After(store, c, naming, now);
            next != store ==> !Used(store, c.op) && IsCreation(store, next, c, naming, now)
  {
    RecordedIs(store, c, naming);
    hide IndexOf, Remembers, Recorded, Commit, Used, FreeCode, Ordered, NewLobby;
  }

  /** Every command that changes the store records its operation in the same
      transaction, and had not recorded it before. */
  lemma EveryChangeIsRecorded(store: Store, c: Command, naming: Naming, now: int)
    requires Ordered(store) && !c.ExpireDue? && After(store, c, naming, now) != store
    ensures !Used(store, c.op) && RecordsOnce(store, After(store, c, naming, now), c, naming)
  {
    if c.Create? { CreateIsCreation(store, c, naming, now); } else { ChangeIsCommit(store, c, naming, now); }
    hide After, Ordered, Edited, Used;
  }

  // ---- The log only grows -------------------------------------------------------------

  ghost predicate Extends(a: Store, b: Store) {
    |a.audit| <= |b.audit| && b.audit[..|a.audit|] == a.audit
  }

  lemma {:induction false} ExpireExtends(store: Store, rows: seq<string>, inGuild: Option<int>, now: int)
    requires ExpireRows(store, rows, inGuild, now).Ok?
    ensures Extends(store, ExpireRows(store, rows, inGuild, now).value.0)
    decreases |rows|
  {
    if rows != [] {
      if Selected(store, rows[0], inGuild, now) {
        var next := ExpireOne(store, store.lobbies[rows[0]], now).value.0;
        assert Extends(store, next);
        ExpireExtends(next, rows[1..], inGuild, now);
      } else {
        ExpireExtends(store, rows[1..], inGuild, now);
      }
    }
  }

  lemma CommandExtends(store: Store, c: Command, naming: Naming, now: int)
    requires Ordered(store)
    ensures Extends(store, After(store, c, naming, now))
  {
    hide Ordered, MakeLobby, Changed, ExpireRows;
    if c.ExpireDue? {
      if ExpireRows(store, c.rows, c.inGuild, now).Ok? { ExpireExtends(store, c.rows, c.inGuild, now); }
    } else if After(store, c, naming, now) != store {
      EveryChangeIsRecorded(store, c, naming, now);
    }
  }

  lemma {:induction false} RunExtends(store: Store, run: seq<Timed>, naming: Naming)
    requires Ordered(store)
    ensures Ordered(RunAll(store, run, naming)) && Extends(store, RunAll(store, run, naming))
  {
    hide After, Ordered;
    if run != [] {
      var n := |run| - 1;
      RunExtends(store, run[..n], naming);
      var mid := RunAll(store, run[..n], naming);
      CommandKeepsOrder(mid, run[n].command, naming, run[n].now);
      CommandExtends(mid, run[n].command, naming, run[n].now);
      ExtendsTransitive(store, mid, RunAll(store, run, naming));
    }
  }

  lemma ExtendsTransitive(a: Store, b: Store, c: Store)
    requires Extends(a, b) && Extends(b, c)
    ensures Extends(a, c)
  {
    assert c.audit[..|b.audit|][..|a.audit|] == c.audit[..|a.audit|];
  }

  /** A command takes effect once. After it has changed the store, and after any
      further run, issuing it again changes nothing; nor does any other command
      with its operation ID. */
  lemma ExactlyOnce(store: Store, c: Command, naming: Naming, now: int, run: seq<Timed>, other: Command, later: int)
    requires Ordered(store) && !c.ExpireDue? && After(store, c, naming, now) != store
    requires !other.ExpireDue? && other.op == c.op
    ensures var s := RunAll(After(store, c, naming, now), run, naming);
            After(s, c, naming, later) == s && After(s, other, naming, later) == s
  {
    hide After, Ordered, Exec;
    EveryChangeIsRecorded(store, c, naming, now);
    var first := After(store, c, naming, now);
    CommandKeepsOrder(store, c, naming, now);
    RunExtends(first, run, naming);
    var s := RunAll(first, run, naming);
    var i := |store.audit|;
    assert s.audit[i] == first.audit[i];
    assert s.audit[i].operation == c.op && s.audit[i].fingerprint == MarkFor(c, naming);
    RememberedAt(s, c, naming, i);
    assert Remembers(s, c, naming);
    IdleAgain(s, c, naming, later);
    IdleAgain(s, other, naming, later);
  }

  lemma IdleAgain(store: Store, c: Command, naming: Naming, now: int)
    requires Ordered(store) && !c.ExpireDue? && Used(store, c.op)
    ensures After(store, c, naming, now) == store
  {
    hide Ordered, MakeLobby, Changed;
    if Remembers(store, c, naming) { RepeatedCommandIsIdle(store, c, naming, now); } else { ReusedOperationIsIdle(store, c, naming, now); }
  }

  // ---- Terminal lobbies ---------------------------------------------------------------

  /** Nothing changed but the delivery references, the version and the time. */
  ghost predicate Frozen(a: Lobby, b: Lobby) {
    b == a.(delivery := b.delivery, version := b.version, updatedAt := b.updatedAt)
  }

  lemma EditFreezes(lobby: Lobby, c: Command, now: int)
    requires !c.Create? && !c.ExpireDue? && IsTerminal(lobby.state)
    requires Edited(lobby, c, now).Ok? && Edited(lobby, c, now).value.Some?
    ensures Frozen(lobby, Edited(lobby, c, now).value.value.0)
  {
  }

  lemma {:induction false} SweepSkips(store: Store, rows: seq<string>, inGuild: Option<int>, now: int, id: string)
    requires Ordered(store) && ExpireRows(store, rows, inGuild, now).Ok?
    requires id in store.lobbies && !IsRecruiting(store.lobbies[id].state)
    ensures var next := ExpireRows(store, rows, inGuild, now).value.0; id in next.lobbies && next.lobbies[id] == store.lobbies[id]
    decreases |rows|
  {
    hide Ordered;
    if rows != [] {
      if Selected(store, rows[0], inGuild, now) {
        InOrderThere(store, rows[0]);
        ExpireOneKeeps(store, rows[0], now);
        var next := ExpireOne(store, store.lobbies[rows[0]], now).value.0;
        assert id in next.lobbies && next.lobbies[id] == store.lobbies[id];
        SweepSkips(next, rows[1..], inGuild, now, id);
      } else {
        SweepSkips(store, rows[1..], inGuild, now, id);
      }
    }
  }

  lemma CommandFreezes(store: Store, c: Command, naming: Naming, now: int, id: string)
    requires Ordered(store) && id in store.lobbies && IsTerminal(store.lobbies[id].state)
    ensures var next := After(store, c, naming, now);
            id in next.lobbies && Frozen(store.lobbies[id], next.lobbies[id])
  {
    hide After, Ordered, Edited, Frozen, Used, ExpireRows;
    FrozenItself(store.lobbies[id]);
    if c.ExpireDue? {
      AfterSweep(store, c, naming, now);
      if ExpireRows(store, c.rows, c.inGuild, now).Ok? { SweepSkips(store, c.rows, c.inGuild, now, id); }
    } else {
      if After(store, c, naming, now) != store {
        if c.Create? {
          CreateIsCreation(store, c, naming, now);
        } else {
          ChangeIsCommit(store, c, naming, now);
          if c.lobbyId == id { EditFreezes(store.lobbies[id], c, now); }
        }
      }
    }
  }

  lemma AfterSweep(store: Store, c: Command, naming: Naming, now: int)
    requires c.ExpireDue?
    ensures var r := ExpireRows(store, c.rows, c.inGuild, now);
            After(store, c, naming, now) == if r.Ok? then r.value.0 else store
  {
    hide ExpireRows;
  }

  lemma FrozenItself(lobby: Lobby)
    ensures Frozen(lobby, lobby)
  {
  }

  /** A terminal lobby never changes again but for its delivery references,
      version and update time. */
  lemma {:induction false} TerminalLobbiesStay(store: Store, run: seq<Timed>, naming: Naming, id: string)
    requires Ordered(store) && id in store.lobbies && IsTerminal(store.lobbies[id].state)
    ensures var next := RunAll(store, run, naming); id in next.lobbies && Frozen(store.lobbies[id], next.lobbies[id])
  {
    hide After, Ordered;
    if run != [] {
      var n := |run| - 1;
      RunExtends(store, run[..n], naming);
      TerminalLobbiesStay(store, run[..n], naming, id);
      CommandFreezes(RunAll(store, run[..n], naming), run[n].command, naming, run[n].now, id);
    }
  }

  // ---- The two-stage expiry -------------------------------------------------------------

  ghost predicate IsPromptOf(e: Event, id: string) { e.lobbyId == id && e.kind == PromptSent }

  ghost predicate IsTouchOf(e: Event, id: string) { e.lobbyId == id && e.kind == Touched }

  /** A prompt for this lobby was recorded at event `i`, at least `grace` before
      `deadline`, and nothing touched the lobby after it. */
  ghost predicate PromptedAt(audit: seq<Event>, id: string, i: nat, grace: int, deadline: int) {
    && i < |audit| && IsPromptOf(audit[i], id) && audit[i].at + grace <= deadline
    && forall j :: i < j < |audit| ==> !IsTouchOf(audit[j], id)
  }

  ghost predicate Prompted(audit: seq<Event>, id: string, grace: int, deadline: int) {
    exists i :: PromptedAt(audit, id, i, grace, deadline)
  }

  /** Whenever a prompt is up, it was recorded, and the clock leaves it its grace. */
  ghost predicate PromptsStand(store: Store, grace: int) {
    forall id :: id in store.lobbies && store.lobbies[id].delivery.promptMessage.Some? && store.lobbies[id].expiresAt.Some? ==>
      Prompted(store.audit, id, grace, store.lobbies[id].expiresAt.value)
  }

  /** What the callers keep to: a new lobby has no prompt, delivery updates never
      put one up, and a prompt is given at least this grace. */
  ghost predicate Gentle(store: Store, c: Command, grace: int) {
    && (c.Create? ==> c.refs.promptMessage.None?)
    && (c.SetDelivery? && c.refs.promptMessage.Some? ==>
          c.lobbyId in store.lobbies && store.lobbies[c.lobbyId].delivery.promptMessage.Some?)
    && (c.RecordPrompt? ==> c.grace >= grace)
  }

  lemma PromptSurvives(audit: seq<Event>, e: Event, id: string, grace: int, deadline: int)
    requires Prompted(audit, id, grace, deadline) && !IsTouchOf(e, id)
    ensures Prompted(audit + [e], id, grace, deadline)
  {
    var i :| PromptedAt(audit, id, i, grace, deadline);
    assert PromptedAt(audit + [e], id, i, grace, deadline);
  }

  /** What an edit does to a lobby's clock and prompt. */
  lemma EditAndPrompt(store: Store, c: Command, now: int, grace: int)
    requires !c.Create? && !c.ExpireDue? && c.lobbyId in store.lobbies && Gentle(store, c, grace)
    requires Edited(store.lobbies[c.lobbyId], c, now).Ok? && Edited(store.lobbies[c.lobbyId], c, now).value.Some?
    ensures var lobby := store.lobbies[c.lobbyId];
            var (changed, kind) := Edited(lobby, c, now).value.value;
            && (kind == Touched ==> changed.delivery.promptMessage.None?)
            && (kind == PromptSent ==> changed.expiresAt.Some? && now + grace <= changed.expiresAt.value)
            && (kind != Touched && kind != PromptSent ==>
                  changed.expiresAt == lobby.expiresAt && (changed.delivery.promptMessage.Some? ==> lobby.delivery.promptMessage.Some?))
  {
  }

  lemma ChangeKeepsPrompts(store: Store, next: Store, c: Command, now: int, grace: int)
    requires PromptsStand(store, grace) && !c.Create? && !c.ExpireDue? && Gentle(store, c, grace) && IsCommit(store, next, c, now)
    ensures PromptsStand(next, grace)
  {
    EditAndPrompt(store, c, now, grace);
    hide Edited;
    var lobby := store.lobbies[c.lobbyId];
    var (changed, kind) := Edited(lobby, c, now).value.value;
    var e := Event(changed.lobbyId, changed.guildId, c.op, MarkOf(c), kind, Some(lobby.state), changed.state, now);
    assert next.audit == store.audit + [e];
    hide MarkOf, Prompted;
    forall id | id in next.lobbies && next.lobbies[id].delivery.promptMessage.Some? && next.lobbies[id].expiresAt.Some?
      ensures Prompted(next.audit, id, grace, next.lobbies[id].expiresAt.value)
    {
      if id == c.lobbyId && kind == PromptSent {
        NewPrompt(store.audit, e, id, grace, changed.expiresAt.value);
      } else {
        PromptSurvives(store.audit, e, id, grace, store.lobbies[id].expiresAt.value);
      }
    }
  }

  lemma NewPrompt(audit: seq<Event>, e: Event, id: string, grace: int, deadline: int)
    requires IsPromptOf(e, id) && e.at + grace <= deadline
    ensures Prompted(audit + [e], id, grace, deadline)
  {
    assert PromptedAt(audit + [e], id, |audit|, grace, deadline);
  }

  lemma CreateKeepsPrompts(store: Store, next: Store, c: Command, naming: Naming, now: int, grace: int)
    requires PromptsStand(store, grace) && c.Create? && Gentle(store, c, grace) && IsCreation(store, next, c, naming, now)
    ensures PromptsStand(next, grace)
  {
    var id := NewId(c, naming);
    var code :| next == Commit(store, NewLobby(c, id, code, now), c.op, CreateMark(c.guildId, id), Created, None, now);
    var e := Event(id, c.guildId, c.op, CreateMark(c.guildId, id), Created, None, Open, now);
    assert next.audit == store.audit + [e];
    hide Prompted;
    forall other | other in next.lobbies && next.lobbies[other].delivery.promptMessage.Some? && next.lobbies[other].expiresAt.Some?
      ensures Prompted(next.audit, other, grace, next.lobbies[other].expiresAt.value)
    {
      PromptSurvives(store.audit, e, other, grace, store.lobbies[other].expiresAt.value);
    }
  }

  /** Closing a lobby by its clock: a prompt stood for the whole grace period. */
  ghost predicate ClosedAfterPrompt(store: Store, next: Store, id: string, grace: int, now: int)
    requires id in store.lobbies && id in next.lobbies
  {
    next.lobbies[id] != store.lobbies[id] ==>
      && IsRecruiting(store.lobbies[id].state) && next.lobbies[id].state == Expired
      && Prompted(next.audit, id, grace, now)
  }

  lemma ExpireOneShape(store: Store, id: string, now: int)
    requires Ordered(store) && id in store.lobbies && DueToExpire(store.lobbies[id], now)
    requires ExpireOne(store, store.lobbies[id], now).Ok?
    ensures var next := ExpireOne(store, store.lobbies[id], now).value.0;
            || next == store
            || (next.lobbies == store.lobbies[id := ExpiredLobby(store.lobbies[id], now)]
                && exists e :: next.audit == store.audit + [e] && e.kind == ExpiredByClock)
  {
    InOrderThere(store, id);
    hide Ordered, Recorded;
    var lobby := store.lobbies[id];
    var next := ExpireOne(store, lobby, now).value.0;
    if next != store {
      var e := Event(id, lobby.guildId, ExpiryOp(lobby.guildId, id, lobby.expiresAt.value),
                     TransitionMark(lobby.guildId, id, Expired), ExpiredByClock, Some(lobby.state), Expired, now);
      assert next.audit == store.audit + [e];
    }
  }

  lemma SweepOne(store: Store, id: string, now: int, grace: int)
    requires Ordered(store) && PromptsStand(store, grace) && id in store.lobbies && DueToExpire(store.lobbies[id], now)
    requires ExpireOne(store, store.lobbies[id], now).Ok?
    ensures var next := ExpireOne(store, store.lobbies[id], now).value.0;
            && PromptsStand(next, grace) && store.lobbies.Keys == next.lobbies.Keys
            && next.lobbies == store.lobbies[id := next.lobbies[id]]
            && (next != store ==> next.lobbies[id].state == Expired)
            && ClosedAfterPrompt(store, next, id, grace, now)
  {
    var lobby := store.lobbies[id];
    var next := ExpireOne(store, lobby, now).value.0;
    assert Prompted(store.audit, id, grace, lobby.expiresAt.value);
    ExpireOneShape(store, id, now);
    hide Ordered, Prompted, ExpireOne;
    if next != store {
      var e :| next.audit == store.audit + [e] && e.kind == ExpiredByClock;
      forall other | other in next.lobbies && next.lobbies[other].delivery.promptMessage.Some? && next.lobbies[other].expiresAt.Some?
        ensures Prompted(next.audit, other, grace, next.lobbies[other].expiresAt.value)
      {
        PromptSurvives(store.audit, e, other, grace, store.lobbies[other].expiresAt.value);
      }
      PromptSurvives(store.audit, e, id, grace, lobby.expiresAt.value);
      LaterDeadline(next.audit, id, grace, lobby.expiresAt.value, now);
    } else {
      assert store.lobbies[id := store.lobbies[id]] == store.lobbies;
    }
  }

  lemma LaterDeadline(audit: seq<Event>, id: string, grace: int, deadline: int, later: int)
    requires Prompted(audit, id, grace, deadline) && deadline <= later
    ensures Prompted(audit, id, grace, later)
  {
    var i :| PromptedAt(audit, id, i, grace, deadline);
    assert PromptedAt(audit, id, i, grace, later);
  }

  /** Every lobby a sweep closes had a prompt recorded for it at least the grace
      period before, and no activity touched it since. */
  lemma {:induction false} SweepClosesAfterPrompt(store: Store, rows: seq<string>, inGuild: Option<int>, now: int, grace: int)
    requires Ordered(store) && PromptsStand(store, grace) && ExpireRows(store, rows, inGuild, now).Ok?
    ensures var next := ExpireRows(store, rows, inGuild, now).value.0;
            && PromptsStand(next, grace) && next.lobbies.Keys == store.lobbies.Keys
            && forall id :: id in store.lobbies ==> ClosedAfterPrompt(store, next, id, grace, now)
    decreases |rows|
  {
    hide Ordered, PromptsStand, ExpireOne, Prompted;
    if rows != [] {
      if Selected(store, rows[0], inGuild, now) {
        SweepOne(store, rows[0], now, grace);
        ExpireOneKeeps(store, rows[0], now);
        var mid := ExpireOne(store, store.lobbies[rows[0]], now).value.0;
        SweepClosesAfterPrompt(mid, rows[1..], inGuild, now, grace);
        var next := ExpireRows(mid, rows[1..], inGuild, now).value.0;
        forall id | id in store.lobbies ensures ClosedAfterPrompt(store, next, id, grace, now) {
          assert ClosedAfterPrompt(mid, next, id, grace, now);
          if id == rows[0] && mid != store {
            SweepSkips(mid, rows[1..], inGuild, now, id);
            SweepIsQuiet(mid, rows[1..], inGuild, now, id, grace);
          }
        }
      } else {
        SweepClosesAfterPrompt(store, rows[1..], inGuild, now, grace);
      }
    }
  }

  /** A sweep touches nobody, so prompts stay what they were. */
  lemma {:induction false} SweepIsQuiet(store: Store, rows: seq<string>, inGuild: Option<int>, now: int, id: string, grace: int)
    requires ExpireRows(store, rows, inGuild, now).Ok?
    ensures Prompted(store.audit, id, grace, now) ==> Prompted(ExpireRows(store, rows, inGuild, now).value.0.audit, id, grace, now)
    decreases |rows|
  {
    hide Prompted;
    if rows != [] {
      if Selected(store, rows[0], inGuild, now) {
        var lobby := store.lobbies[rows[0]];
        var next := ExpireOne(store, lobby, now).value.0;
        if next != store && Prompted(store.audit, id, grace, now) {
          PromptSurvives(store.audit, next.audit[|store.audit|], id, grace, now);
        }
        SweepIsQuiet(next, rows[1..], inGuild, now, id, grace);
      } else {
        SweepIsQuiet(store, rows[1..], inGuild, now, id, grace);
      }
    }
  }

  lemma CommandKeepsPrompts(store: Store, c: Command, naming: Naming, now: int, grace: int)
    requires Ordered(store) && PromptsStand(store, grace) && Gentle(store, c, grace)
    ensures PromptsStand(After(store, c, naming, now), grace)
  {
    hide After, Ordered, PromptsStand, ExpireRows, Used, IsCommit, IsCreation, Gentle;
    var next := After(store, c, naming, now);
    if c.ExpireDue? {
      AfterSweep(store, c, naming, now);
      if ExpireRows(store, c.rows, c.inGuild, now).Ok? { SweepClosesAfterPrompt(store, c.rows, c.inGuild, now, grace); }
    } else if next != store {
      if c.Create? {
        CreateIsCreation(store, c, naming, now);
        CreateKeepsPrompts(store, next, c, naming, now, grace);
      } else {
        ChangeIsCommit(store, c, naming, now);
        ChangeKeepsPrompts(store, next, c, now, grace);
      }
    }
  }

  ghost predicate GentleRun(run: seq<Timed>, naming: Naming, grace: int) {
    forall k :: 0 <= k < |run| ==> Gentle(RunAll(EMPTY_STORE, run[..k], naming), run[k].command, grace)
  }

  lemma {:induction false} GentleRunsKeepPrompts(run: seq<Timed>, naming: Naming, grace: int)
    requires GentleRun(run, naming, grace)
    ensures PromptsStand(RunAll(EMPTY_STORE, run, naming), grace)
  {
    hide After, Gentle;
    if run != [] {
      var n := |run| - 1;
      assert forall k :: 0 <= k < n ==> run[..n][..k] == run[..k];
      GentleRunsKeepPrompts(run[..n], naming, grace);
      EveryRunIsOrdered(run[..n], naming);
      assert Gentle(RunAll(EMPTY_STORE, run[..n], naming), run[n].command, grace);
      CommandKeepsPrompts(RunAll(EMPTY_STORE, run[..n], naming), run[n].command, naming, run[n].now, grace);
    }
  }

  /** After any run whose callers keep to the prompts, a sweep closes a lobby only
      when a prompt was recorded for it at least the grace period earlier and no
      activity touched it in between. */
  lemma ExpiryHasTwoStages(run: seq<Timed>, naming: Naming, grace: int, rows: seq<string>, inGuild: Option<int>, now: int, id: string)
    requires GentleRun(run, naming, grace)
    requires id in RunAll(EMPTY_STORE, run, naming).lobbies
    ensures var store := RunAll(EMPTY_STORE, run, naming);
            var next := After(store, ExpireDue(inGuild, rows), naming, now);
            id in next.lobbies && ClosedAfterPrompt(store, next, id, grace, now)
  {
    hide Prompted, ExpireRows;
    GentleRunsKeepPrompts(run, naming, grace);
    EveryRunIsOrdered(run, naming);
    var store := RunAll(EMPTY_STORE, run, naming);
    AfterSweep(store, ExpireDue(inGuild, rows), naming, now);
    if ExpireRows(store, rows, inGuild, now).Ok? { SweepClosesAfterPrompt(store, rows, inGuild, now, grace); }
  }
}
