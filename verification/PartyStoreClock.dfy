/** The recruiting clock: a late prompt never shortens a clock that was reset in
    between, and a sweep closes what is due. */
module PartyStoreClock {
  import opened Common
  import opened PartyStore
  import opened PartyStoreInvariant
  import opened PartyStoreTheorems

  /** No touch and no prompt of this lobby since the log had `since` events. */
  ghost predicate Quiet(audit: seq<Event>, since: nat, id: string) {
    forall i :: since <= i < |audit| ==> !IsTouchOf(audit[i], id) && !IsPromptOf(audit[i], id)
  }

  /** The clock is still the one that was seen, or it was set anew, to later. */
  ghost predicate ClockSince(store: Store, since: nat, id: string, seen: int, seenAt: int) {
    && id in store.lobbies && store.lobbies[id].expiresAt.Some?
    && ((store.lobbies[id].expiresAt.value == seen && Quiet(store.audit, since, id)) || store.lobbies[id].expiresAt.value > seenAt)
  }

  /** Touches and prompts set the clock forward. */
  predicate SetsForward(c: Command) {
    (c.Touch? ==> c.minutes > 0) && (c.RecordPrompt? ==> c.grace > 0)
  }

  lemma EditAndClock(store: Store, c: Command, now: int)
    requires !c.Create? && !c.ExpireDue? && c.lobbyId in store.lobbies && SetsForward(c)
    requires Edited(store.lobbies[c.lobbyId], c, now).Ok? && Edited(store.lobbies[c.lobbyId], c, now).value.Some?
    ensures var lobby := store.lobbies[c.lobbyId];
            var (changed, kind) := Edited(lobby, c, now).value.value;
            if kind == Touched || kind == PromptSent then changed.expiresAt.Some? && changed.expiresAt.value > now
            else changed.expiresAt == lobby.expiresAt
  {
  }

  lemma CommandKeepsClock(store: Store, c: Command, naming: Naming, now: int, since: nat, id: string, seen: int, seenAt: int)
    requires Ordered(store) && since <= |store.audit| && ClockSince(store, since, id, seen, seenAt)
    requires SetsForward(c) && now >= seenAt
    ensures ClockSince(After(store, c, naming, now), since, id, seen, seenAt)
  {
    hide After, Ordered, Used, Edited, ExpireRows;
    var next := After(store, c, naming, now);
    if c.ExpireDue? {
      AfterSweep(store, c, naming, now);
      if ExpireRows(store, c.rows, c.inGuild, now).Ok? { SweepKeepsClocks(store, c.rows, c.inGuild, now, since, id); }
    } else if next != store {
      if c.Create? {
        CreateIsCreation(store, c, naming, now);
      } else {
        ChangeIsCommit(store, c, naming, now);
        EditAndClock(store, c, now);
      }
    }
  }

  lemma {:induction false} SweepKeepsClocks(store: Store, rows: seq<string>, inGuild: Option<int>, now: int, since: nat, id: string)
    requires Ordered(store) && ExpireRows(store, rows, inGuild, now).Ok? && id in store.lobbies && since <= |store.audit|
    ensures var next := ExpireRows(store, rows, inGuild, now).value.0;
            && id in next.lobbies && next.lobbies[id].expiresAt == store.lobbies[id].expiresAt
            && (Quiet(store.audit, since, id) ==> Quiet(next.audit, since, id))
    decreases |rows|
  {
    hide Ordered, ExpireOne;
    if rows != [] {
      if Selected(store, rows[0], inGuild, now) {
        ExpireOneKeeps(store, rows[0], now);
        ExpireOneShape(store, rows[0], now);
        SweepKeepsClocks(ExpireOne(store, store.lobbies[rows[0]], now).value.0, rows[1..], inGuild, now, since, id);
      } else {
        SweepKeepsClocks(store, rows[1..], inGuild, now, since, id);
      }
    }
  }

  ghost predicate LaterRun(run: seq<Timed>, from: int) {
    forall k :: 0 <= k < |run| ==> run[k].now >= from && SetsForward(run[k].command)
  }

  lemma {:induction false} RunKeepsClock(store: Store, run: seq<Timed>, naming: Naming, id: string, seen: int, seenAt: int)
    requires Ordered(store) && id in store.lobbies && store.lobbies[id].expiresAt == Some(seen) && LaterRun(run, seenAt)
    ensures ClockSince(RunAll(store, run, naming), |store.audit|, id, seen, seenAt)
  {
    hide After, Ordered;
    if run != [] {
      var n := |run| - 1;
      RunKeepsClock(store, run[..n], naming, id, seen, seenAt);
      RunExtends(store, run[..n], naming);
      CommandKeepsClock(RunAll(store, run[..n], naming), run[n].command, naming, run[n].now, |store.audit|, id, seen, seenAt);
    }
  }

  /** An open or full lobby is due from the minute its clock runs out, for its prompt
      or, with one up, for the end; no other lobby is due for either. */
  lemma DueForOneThing(lobby: Lobby, now: int)
    ensures DueForPrompt(lobby, now) || DueToExpire(lobby, now) <==>
              lobby.state in {Open, Full} && lobby.expiresAt.Some? && lobby.expiresAt.value <= now
    ensures DueToExpire(lobby, now) ==> lobby.delivery.promptMessage.Some?
    ensures DueForPrompt(lobby, now) ==> lobby.delivery.promptMessage.None?
  {
  }

  /** A sweep sees a lobby due for its prompt, posts the message, and records it
      later, expecting the clock it saw. Whatever ran in between, the prompt is
      recorded only if no activity and no other prompt touched that clock: a late
      prompt never shortens a clock reset in the meantime. */
  lemma LatePromptIsRefused(store: Store, id: string, seenAt: int, run: seq<Timed>, naming: Naming, prompt: Command, now: int)
    requires Ordered(store) && id in store.lobbies && DueForPrompt(store.lobbies[id], seenAt) && LaterRun(run, seenAt)
    requires prompt.RecordPrompt? && prompt.lobbyId == id && prompt.expected == store.lobbies[id].expiresAt
    ensures var s := RunAll(store, run, naming);
            After(s, prompt, naming, now) != s ==>
              Quiet(s.audit, |store.audit|, id) && s.lobbies[id].expiresAt == store.lobbies[id].expiresAt
  {
    hide After, Ordered, Used;
    RunKeepsClock(store, run, naming, id, store.lobbies[id].expiresAt.value, seenAt);
    RunExtends(store, run, naming);
    var s := RunAll(store, run, naming);
    if After(s, prompt, naming, now) != s { ChangeIsCommit(s, prompt, naming, now); }
  }

  /** A delivery update that puts a prompt up by itself would let a sweep close a
      lobby for which no prompt was ever recorded. */
  lemma ForgedPromptExpires(naming: Naming)
    requires naming.code("L", 0) == "CODE"
    ensures var meta := Metadata("standard", "", "5v5", false, "", "");
            var run := [Timed(Create(1, 7, 2, Some(60), Some("L"), Op("a"), NO_DELIVERY, meta, ""), 0),
                        Timed(SetDelivery(1, "L", NO_DELIVERY.(promptMessage := Some(5)), Op("b")), 10)];
            var store := RunAll(EMPTY_STORE, run, naming);
            var next := After(store, ExpireDue(None, ["L"]), naming, 60);
            "L" in store.lobbies && "L" in next.lobbies && !ClosedAfterPrompt(store, next, "L", 0, 60)
  {
    var meta := Metadata("standard", "", "5v5", false, "", "");
    var create := Create(1, 7, 2, Some(60), Some("L"), Op("a"), NO_DELIVERY, meta, "");
    var forge := SetDelivery(1, "L", NO_DELIVERY.(promptMessage := Some(5)), Op("b"));
    var run := [Timed(create, 0), Timed(forge, 10)];
    var lobby := NewLobby(create, "L", "CODE", 0);
    var s1 := CreatedAlone(create, naming);
    var s2 := ForgedNext(s1, lobby, forge, naming);
    hide After;
    assert run[..1] == [Timed(create, 0)] && run[..1][..0] == [];
    assert RunAll(EMPTY_STORE, [], naming) == EMPTY_STORE;
    assert RunAll(EMPTY_STORE, run[..1], naming) == s1;
    assert RunAll(EMPTY_STORE, run, naming) == s2;
    SweepForged(s2, NextVersion(lobby.(delivery := forge.refs), 10), naming);
  }

  lemma NotBlank(text: string)
    requires text == "L" || text == "a" || text == "b"
    ensures !IsSpace(text)
  {
    assert text[0] !in " \t\n\r";
  }

  lemma CreatedAlone(create: Command, naming: Naming) returns (s: Store)
    requires create.Create? && create.guildId == 1 && create.capacity == 2 && create.newId == Some("L") && create.op == Op("a")
    requires naming.code("L", 0) == "CODE"
    ensures s == After(EMPTY_STORE, create, naming, 0)
    ensures s == Store(map["L" := NewLobby(create, "L", "CODE", 0)], [Event("L", 1, Op("a"), CreateMark(1, "L"), Created, None, Open, 0)])
  {
    NotBlank("L");
    NotBlank("a");
    s := After(EMPTY_STORE, create, naming, 0);
    assert FreeCode(EMPTY_STORE, 1, "L", naming, 0) == Some("CODE");
    assert IndexOf([], Op("a")) == 0;
  }

  lemma ForgedNext(store: Store, lobby: Lobby, forge: Command, naming: Naming) returns (s: Store)
    requires forge.SetDelivery? && forge.guildId == 1 && forge.lobbyId == "L" && forge.op == Op("b")
    requires lobby.lobbyId == "L" && lobby.guildId == 1 && lobby.state == Open
    requires store == Store(map["L" := lobby], [Event("L", 1, Op("a"), CreateMark(1, "L"), Created, None, Open, 0)])
    ensures s == After(store, forge, naming, 10)
    ensures s.lobbies == map["L" := NextVersion(lobby.(delivery := forge.refs), 10)]
    ensures s.audit == store.audit + [Event("L", 1, Op("b"), MarkOf(forge), DeliveryUpdated, Some(Open), Open, 10)]
  {
    NotBlank("b");
    UsedOperation(store.audit, Op("b"));
    s := After(store, forge, naming, 10);
  }

  lemma SweepForged(store: Store, forged: Lobby, naming: Naming)
    requires store.lobbies == map["L" := forged] && DueToExpire(forged, 60) && forged.lobbyId == "L" && forged.guildId == 1
    requires |store.audit| == 2 && forall i :: 0 <= i < 2 ==> store.audit[i].operation.Op? && store.audit[i].kind != PromptSent
    ensures var next := After(store, ExpireDue(None, ["L"]), naming, 60);
            "L" in next.lobbies && !ClosedAfterPrompt(store, next, "L", 0, 60)
  {
    var r := ExpireOne(store, forged, 60);
    assert r.Ok? && r.value.0.lobbies == map["L" := ExpiredLobby(forged, 60)];
    assert ["L"][1..] == [];
    assert ExpireRows(r.value.0, [], None, 60) == Ok((r.value.0, []));
    var next := After(store, ExpireDue(None, ["L"]), naming, 60);
    assert next == r.value.0;
    assert forall i :: 0 <= i < |next.audit| ==> next.audit[i].kind != PromptSent;
    assert next.lobbies["L"].state == Expired;
  }

  /** A sweep closes every due lobby among its rows. */
  lemma {:induction false} SweepClosesWhatIsDue(store: Store, rows: seq<string>, inGuild: Option<int>, now: int, id: string)
    requires Ordered(store) && ExpireRows(store, rows, inGuild, now).Ok? && id in rows && Selected(store, id, inGuild, now)
    requires !Used(store, ExpiryOp(store.lobbies[id].guildId, id, store.lobbies[id].expiresAt.value))
    ensures var (next, closed) := ExpireRows(store, rows, inGuild, now).value;
            id in next.lobbies && next.lobbies[id] == ExpiredLobby(store.lobbies[id], now) && next.lobbies[id] in closed
    decreases |rows|
  {
    if rows[0] == id {
      FirstIsClosed(store, rows, inGuild, now);
    } else {
      assert id in rows[1..];
      if Selected(store, rows[0], inGuild, now) {
        ExpireOneKeeps(store, rows[0], now);
        InOrderThere(store, rows[0]);
        OtherExpiryUnused(store, rows[0], id, now);
        hide Ordered, Used, ExpireOne;
        SweepClosesWhatIsDue(ExpireOne(store, store.lobbies[rows[0]], now).value.0, rows[1..], inGuild, now, id);
      } else {
        hide Ordered, Used, ExpireOne;
        SweepClosesWhatIsDue(store, rows[1..], inGuild, now, id);
      }
    }
  }

  /** A lobby that is not selected, not among the rows, or whose expiry is recorded
      already, is spared. */
  lemma {:induction false} SweepSpares(store: Store, rows: seq<string>, inGuild: Option<int>, now: int, id: string)
    requires Ordered(store) && ExpireRows(store, rows, inGuild, now).Ok? && id in store.lobbies
    requires id in rows && Selected(store, id, inGuild, now) ==> Used(store, ExpiryOp(store.lobbies[id].guildId, id, store.lobbies[id].expiresAt.value))
    ensures var next := ExpireRows(store, rows, inGuild, now).value.0; id in next.lobbies && next.lobbies[id] == store.lobbies[id]
    decreases |rows|
  {
    hide Ordered, ExpireOne, Used;
    if rows != [] {
      assert id in rows[1..] ==> id in rows;
      if Selected(store, rows[0], inGuild, now) {
        ExpireOneKeeps(store, rows[0], now);
        var u := rows[0];
        assert u in rows;
        ExpireOneSpares(store, u, id, now);
        SweepSpares(ExpireOne(store, store.lobbies[rows[0]], now).value.0, rows[1..], inGuild, now, id);
      } else {
        SweepSpares(store, rows[1..], inGuild, now, id);
      }
    }
  }

  lemma ExpireOneSpares(store: Store, other: string, id: string, now: int)
    requires Ordered(store) && other in store.lobbies && DueToExpire(store.lobbies[other], now) && ExpireOne(store, store.lobbies[other], now).Ok?
    requires id in store.lobbies && (other == id ==> Used(store, ExpiryOp(store.lobbies[id].guildId, id, store.lobbies[id].expiresAt.value)))
    ensures var next := ExpireOne(store, store.lobbies[other], now).value.0;
            && id in next.lobbies && next.lobbies[id] == store.lobbies[id]
            && forall op :: Used(store, op) ==> Used(next, op)
  {
    InOrderThere(store, other);
    hide Ordered, IsPath, IndexOf, ExpiredLobby;
    var next := ExpireOne(store, store.lobbies[other], now).value.0;
    assert store.audit <= next.audit;
    hide ExpireOne, LobbyInOrder;
    forall op | Used(store, op) ensures Used(next, op) { UsedStays(store, next, op); }
  }

  lemma UsedStays(store: Store, next: Store, op: OperationId)
    requires store.audit <= next.audit && Used(store, op)
    ensures Used(next, op)
  {
    var i := IndexOf(store.audit, op);
    assert next.audit[i] == store.audit[i];
    UsedOperation(next.audit, op);
  }

  /** A sweep closes a lobby exactly when it is among the rows, recruiting in the
      guild, with a prompt up and its deadline passed, and not swept at it before;
      it leaves every other lobby alone. */
  lemma SweepClosesExactlyWhatIsDue(store: Store, rows: seq<string>, inGuild: Option<int>, now: int, id: string)
    requires Ordered(store) && ExpireRows(store, rows, inGuild, now).Ok? && id in store.lobbies
    ensures var next := ExpireRows(store, rows, inGuild, now).value.0;
            && id in next.lobbies
            && next.lobbies[id] == if id in rows && Selected(store, id, inGuild, now)
                                      && !Used(store, ExpiryOp(store.lobbies[id].guildId, id, store.lobbies[id].expiresAt.value))
                                   then ExpiredLobby(store.lobbies[id], now) else store.lobbies[id]
  {
    hide Ordered, ExpireRows, Used, ExpiredLobby;
    if id in rows && Selected(store, id, inGuild, now) && !Used(store, ExpiryOp(store.lobbies[id].guildId, id, store.lobbies[id].expiresAt.value)) {
      SweepClosesWhatIsDue(store, rows, inGuild, now, id);
    } else {
      SweepSpares(store, rows, inGuild, now, id);
    }
  }

  lemma FirstIsClosed(store: Store, rows: seq<string>, inGuild: Option<int>, now: int)
    requires Ordered(store) && rows != [] && Selected(store, rows[0], inGuild, now) && ExpireRows(store, rows, inGuild, now).Ok?
    requires !Used(store, ExpiryOp(store.lobbies[rows[0]].guildId, rows[0], store.lobbies[rows[0]].expiresAt.value))
    ensures var (next, closed) := ExpireRows(store, rows, inGuild, now).value;
            rows[0] in next.lobbies && next.lobbies[rows[0]] == ExpiredLobby(store.lobbies[rows[0]], now) && next.lobbies[rows[0]] in closed
  {
    var id := rows[0];
    FreshExpiry(store, id, now);
    ExpireOneKeeps(store, id, now);
    hide Ordered, ExpireOne, Used, ExpiredLobby, Selected;
    var (next, closed) := ExpireOne(store, store.lobbies[id], now).value;
    var (last, more) := ExpireRows(next, rows[1..], inGuild, now).value;
    SweepSkips(next, rows[1..], inGuild, now, id);
    assert (closed + more)[0] == closed[0];
  }

  lemma FreshExpiry(store: Store, id: string, now: int)
    requires Ordered(store) && id in store.lobbies && DueToExpire(store.lobbies[id], now)
    requires !Used(store, ExpiryOp(store.lobbies[id].guildId, id, store.lobbies[id].expiresAt.value))
    ensures ExpireOne(store, store.lobbies[id], now).Ok?
    ensures var (next, closed) := ExpireOne(store, store.lobbies[id], now).value;
            && id in next.lobbies && next.lobbies[id] == ExpiredLobby(store.lobbies[id], now) && closed == [next.lobbies[id]]
            && !IsRecruiting(next.lobbies[id].state)
  {
    InOrderThere(store, id);
    hide Ordered, Used;
  }

  lemma OtherExpiryUnused(store: Store, other: string, id: string, now: int)
    requires other in store.lobbies && store.lobbies[other].lobbyId == other && DueToExpire(store.lobbies[other], now)
    requires id in store.lobbies && other != id && store.lobbies[id].expiresAt.Some?
    requires ExpireOne(store, store.lobbies[other], now).Ok?
    requires !Used(store, ExpiryOp(store.lobbies[id].guildId, id, store.lobbies[id].expiresAt.value))
    ensures var next := ExpireOne(store, store.lobbies[other], now).value.0;
            && id in next.lobbies && next.lobbies[id] == store.lobbies[id]
            && !Used(next, ExpiryOp(store.lobbies[id].guildId, id, store.lobbies[id].expiresAt.value))
  {
    var op := ExpiryOp(store.lobbies[id].guildId, id, store.lobbies[id].expiresAt.value);
    var next := ExpireOne(store, store.lobbies[other], now).value.0;
    UsedOperation(store.audit, op);
    UsedOperation(next.audit, op);
  }

  // ---- A delivery written late ------------------------------------------------------------

  /** This command's operation is new, and its lobby is there. */
  ghost predicate IsNew(store: Store, c: Command, id: string)
    requires !c.Create? && !c.ExpireDue?
  {
    && id in store.lobbies && c.lobbyId == id && c.guildId == store.lobbies[id].guildId
    && !IsBlank(c.op) && !c.op.ExpiryOp? && !Used(store, c.op)
  }

  lemma NewCommandCommits(store: Store, c: Command, naming: Naming, now: int, id: string, changed: Lobby, kind: EventKind)
    requires !c.Create? && !c.ExpireDue? && IsNew(store, c, id) && (c.Touch? ==> IsRecruiting(store.lobbies[id].state))
    requires Edited(store.lobbies[id], c, now) == Ok(Some((changed, kind)))
    ensures After(store, c, naming, now) == Commit(store, changed, c.op, MarkOf(c), kind, Some(store.lobbies[id].state), now)
  {
    hide Edited, IndexOf, MarkOf, Commit, IsBlank;
  }

  lemma NewCommandIs(store: Store, c: Command, naming: Naming, now: int, id: string)
    requires Ordered(store) && !c.Create? && !c.ExpireDue? && IsNew(store, c, id) && (c.Touch? ==> IsRecruiting(store.lobbies[id].state))
    requires Edited(store.lobbies[id], c, now).Ok? && Edited(store.lobbies[id], c, now).value.Some?
    ensures var next := After(store, c, naming, now);
            && Ordered(next) && next.lobbies == store.lobbies[id := Edited(store.lobbies[id], c, now).value.value.0]
            && forall op :: op != c.op && !Used(store, op) ==> !Used(next, op)
  {
    hide Edited, IndexOf, MarkOf, Ordered, After, LobbyInOrder, IsNew;
    CommandKeepsOrder(store, c, naming, now);
    IdThere(store, c, id);
    EditKeepsId(store.lobbies[id], c, now);
    var (changed, kind) := Edited(store.lobbies[id], c, now).value.value;
    NewCommandCommits(store, c, naming, now, id, changed, kind);
    var e := Event(changed.lobbyId, changed.guildId, c.op, MarkOf(c), kind, Some(store.lobbies[id].state), changed.state, now);
    var next := After(store, c, naming, now);
    assert next.audit == store.audit + [e];
    forall op | op != c.op && !Used(store, op) ensures !Used(next, op) { StaysUnused(store, next, e, op); }
  }

  lemma IdThere(store: Store, c: Command, id: string)
    requires Ordered(store) && !c.Create? && !c.ExpireDue? && IsNew(store, c, id)
    ensures id in store.lobbies && store.lobbies[id].lobbyId == id
  {
    InOrderThere(store, id);
  }

  lemma StaysUnused(store: Store, next: Store, e: Event, op: OperationId)
    requires next.audit == store.audit + [e] && e.operation != op && !Used(store, op)
    ensures !Used(next, op)
  {
    UsedOperation(store.audit, op);
    UsedOperation(next.audit, op);
  }

  lemma EditKeepsId(lobby: Lobby, c: Command, now: int)
    requires !c.Create? && !c.ExpireDue? && Edited(lobby, c, now).Ok? && Edited(lobby, c, now).value.Some?
    ensures Edited(lobby, c, now).value.value.0.lobbyId == lobby.lobbyId
  {
  }

  lemma SweepOfOne(store: Store, naming: Naming, now: int, id: string)
    requires Ordered(store) && id in store.lobbies
    requires store.lobbies[id].expiresAt.Some? && !Used(store, ExpiryOp(store.lobbies[id].guildId, id, store.lobbies[id].expiresAt.value))
    ensures var next := After(store, ExpireDue(None, [id]), naming, now);
            && id in next.lobbies
            && (DueToExpire(store.lobbies[id], now) ==> next.lobbies[id].state == Expired)
            && (!DueToExpire(store.lobbies[id], now) ==> next == store)
  {
    InOrderThere(store, id);
    hide Ordered, IndexOf, IsPath, ValidLobby;
    assert [id][1..] == [];
    if DueToExpire(store.lobbies[id], now) {
      FreshExpiry(store, id, now);
      var (next, closed) := ExpireOne(store, store.lobbies[id], now).value;
      assert ExpireRows(next, [], None, now) == Ok((next, []));
    } else {
      assert ExpireRows(store, [], None, now) == Ok((store, []));
    }
  }

  /** A handler reads the delivery of a lobby whose prompt is up, and writes it back,
      with its own message in it, after a player has touched the lobby: the prompt
      the touch took down is up again. When the new clock runs out, the sweep closes
      the lobby, which it had spared without the late write. */
  lemma StaleDeliveryExpires(store: Store, id: string, touch: Command, stale: Command, naming: Naming, at: int, later: int, now: int)
    requires Ordered(store) && id in store.lobbies && IsRecruiting(store.lobbies[id].state) && store.lobbies[id].delivery.promptMessage.Some?
    requires touch.Touch? && IsNew(store, touch, id) && stale.SetDelivery? && IsNew(store, stale, id) && stale.op != touch.op
    requires stale.refs.promptMessage == store.lobbies[id].delivery.promptMessage && now >= at + touch.minutes
    requires !Used(store, ExpiryOp(store.lobbies[id].guildId, id, at + touch.minutes))
    ensures var touched := After(store, touch, naming, at);
            var written := After(touched, stale, naming, later);
            var closed := After(written, ExpireDue(None, [id]), naming, now);
            && After(touched, ExpireDue(None, [id]), naming, now) == touched
            && id in closed.lobbies && closed.lobbies[id].state == Expired
  {
    hide Ordered, Used, After, NextVersion;
    TouchSets(store.lobbies[id], touch, at);
    NewCommandIs(store, touch, naming, at, id);
    var touched := After(store, touch, naming, at);
    DeliverySets(touched.lobbies[id], stale, later);
    assert IsNew(touched, stale, id);
    NewCommandIs(touched, stale, naming, later, id);
    hide IsNew, Edited;
    SweepOfOne(touched, naming, now, id);
    SweepOfOne(After(touched, stale, naming, later), naming, now, id);
  }

  lemma TouchSets(lobby: Lobby, c: Command, now: int)
    requires c.Touch? && IsRecruiting(lobby.state)
    ensures Edited(lobby, c, now).Ok? && Edited(lobby, c, now).value.Some?
    ensures var after := Edited(lobby, c, now).value.value.0;
            && after.state == lobby.state && after.guildId == lobby.guildId
            && after.expiresAt == Some(now + c.minutes) && after.delivery.promptMessage == None
  {
  }

  lemma DeliverySets(lobby: Lobby, c: Command, now: int)
    requires c.SetDelivery?
    ensures Edited(lobby, c, now).Ok? && Edited(lobby, c, now).value.Some?
    ensures var after := Edited(lobby, c, now).value.value.0;
            && after.state == lobby.state && after.guildId == lobby.guildId && after.expiresAt == lobby.expiresAt && after.delivery == c.refs
  {
  }
}
