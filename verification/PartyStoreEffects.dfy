/** What commands leave in a lobby: when one takes effect, and over every run, that
    each part of a stored lobby is what the last command that sets it gave. */
module PartyStoreEffects {
  import opened Common
  import opened PartyStore
  import opened PartyStoreInvariant
  import opened PartyStoreTheorems

  // ---- When a command takes effect --------------------------------------------------------

  /** Who may do what to a lobby: the organizer alone edits, hands over and renames;
      a terminal lobby takes no edit; a roster fits its capacity. */
  predicate MayEdit(lobby: Lobby, c: Command)
    requires !c.Create? && !c.ExpireDue?
  {
    && (c.UpdateMetadata? || c.TransferOrganizer? || c.Rename? ==> c.actorId == lobby.organizerId)
    && (IsTerminal(lobby.state) ==> c.SetDelivery? || c.Touch? || c.RecordPrompt? || (c.Transition? && c.target == lobby.state))
    && (c.Rename? ==> IsRecruiting(lobby.state))
    && (c.UpdateMetadata? ==> 2 <= c.capacity && |lobby.participants| <= c.capacity)
    && (c.TransferOrganizer? ==> HasParticipant(lobby, c.newOrganizerId))
    && (c.Transition? ==> c.target == lobby.state || c.target in AllowedFrom(lobby.state))
    && (c.SaveParticipant? ==> HasParticipant(lobby, c.participant.userId) || |lobby.participants| < lobby.capacity)
  }

  /** Clocks run only while a lobby recruits; a prompt needs the clock it was due by. */
  predicate ClockRuns(lobby: Lobby, c: Command) {
    && (c.Touch? || c.RecordPrompt? ==> IsRecruiting(lobby.state))
    && (c.RecordPrompt? ==> lobby.delivery.promptMessage.None? && lobby.expiresAt == c.expected)
  }

  lemma EditsWhen(lobby: Lobby, c: Command, now: int)
    requires !c.Create? && !c.ExpireDue?
    ensures Edited(lobby, c, now).Ok? <==> MayEdit(lobby, c)
    ensures Edited(lobby, c, now).Ok? ==> (Edited(lobby, c, now).value.Some? <==> ClockRuns(lobby, c))
  {
    hide HasParticipant, Saved, Removed;
  }

  /** A command changes the store exactly when it names a lobby of its guild, under
      an operation not yet recorded, and may do so. */
  lemma TakesEffectWhen(store: Store, c: Command, naming: Naming, now: int)
    requires Ordered(store) && !c.Create? && !c.ExpireDue?
    ensures After(store, c, naming, now) != store <==>
              && c.lobbyId in store.lobbies && store.lobbies[c.lobbyId].guildId == c.guildId
              && !IsBlank(c.op) && !Used(store, c.op) && MayEdit(store.lobbies[c.lobbyId], c) && ClockRuns(store.lobbies[c.lobbyId], c)
  {
    hide After, Changed, Edited, MayEdit, Used, Ordered, IsBlank;
    AfterChanged(store, c, naming, now);
    ChangesWhen(store, c, now);
    if c.lobbyId in store.lobbies { EditsWhen(store.lobbies[c.lobbyId], c, now); }
  }

  lemma ChangesWhen(store: Store, c: Command, now: int)
    requires !c.Create? && !c.ExpireDue?
    ensures Changed(store, c, now).Ok? && Changed(store, c, now).value.0 != store <==>
              && Find(store, c.guildId, c.lobbyId).Some? && (c.Touch? ==> IsRecruiting(Find(store, c.guildId, c.lobbyId).value.state))
              && !IsBlank(c.op) && !Used(store, c.op)
              && Edited(Find(store, c.guildId, c.lobbyId).value, c, now).Ok? && Edited(Find(store, c.guildId, c.lobbyId).value, c, now).value.Some?
  {
    hide Edited, IndexOf, MarkOf, IsBlank, Find;
  }

  /** No lobby of the guild that is not over has this code. */
  ghost predicate CodeIsFree(store: Store, guildId: int, code: string) {
    forall id :: id in store.lobbies && store.lobbies[id].guildId == guildId && store.lobbies[id].queueCode == code ==>
      store.lobbies[id].state in {Completed, Cancelled, Expired}
  }

  /** One of the fifty salted codes is free among the guild's active lobbies. */
  ghost predicate SomeCodeFree(store: Store, guildId: int, id: string, naming: Naming) {
    exists k: nat :: k < 50 && CodeIsFree(store, guildId, naming.code(id, k))
  }

  lemma FreeIs(store: Store, guildId: int, code: string)
    ensures CodeIsFree(store, guildId, code) <==> !CodeInUse(store, guildId, code)
  {
  }

  lemma {:induction false} CodeFoundWhen(store: Store, guildId: int, id: string, naming: Naming, salt: nat)
    requires salt <= SALTS
    ensures FreeCode(store, guildId, id, naming, salt).Some? <==> exists k: nat :: salt <= k < 50 && CodeIsFree(store, guildId, naming.code(id, k))
    decreases SALTS - salt
  {
    hide CodeInUse, CodeIsFree;
    if salt < SALTS {
      assert SALTS == 50;
      FreeIs(store, guildId, naming.code(id, salt));
      if CodeInUse(store, guildId, naming.code(id, salt)) { CodeFoundWhen(store, guildId, id, naming, salt + 1); }
    }
  }

  /** A creation makes a lobby exactly when its operation is new, its ID (the one
      given, or with none or an empty one the derived) is free and not blank, it has
      two seats or more, and one of fifty queue codes is free. */
  lemma CreatesWhen(store: Store, c: Command, naming: Naming, now: int)
    requires Ordered(store) && c.Create?
    ensures var id := if c.newId in {None, Some("")} then naming.lobbyId(c.guildId, c.op) else c.newId.value;
            && (After(store, c, naming, now) != store <==>
                  && !IsBlank(c.op) && !Used(store, c.op) && !IsSpace(id) && id !in store.lobbies && c.capacity >= 2
                  && SomeCodeFree(store, c.guildId, id, naming))
            && (After(store, c, naming, now) != store ==> id in After(store, c, naming, now).lobbies)
  {
    MakesWhen(store, c, naming, now);
    IdIs(c, naming);
    if After(store, c, naming, now) != store { CreationIs(store, c, naming, now); }
    hide After, FreeCode, CodeIsFree, Used, Ordered, IsSpace, IsBlank, NewId;
    CodeFree(store, c.guildId, NewId(c, naming), naming);
  }

  lemma IdIs(c: Command, naming: Naming)
    requires c.Create?
    ensures NewId(c, naming) == if c.newId in {None, Some("")} then naming.lobbyId(c.guildId, c.op) else c.newId.value
  {
  }

  lemma CodeFree(store: Store, guildId: int, id: string, naming: Naming)
    ensures SomeCodeFree(store, guildId, id, naming) <==> FreeCode(store, guildId, id, naming, 0).Some?
  {
    CodeFoundWhen(store, guildId, id, naming, 0);
  }

  lemma MakesWhen(store: Store, c: Command, naming: Naming, now: int)
    requires c.Create?
    ensures After(store, c, naming, now) != store <==>
              && !IsBlank(c.op) && !Used(store, c.op) && FreeCode(store, c.guildId, NewId(c, naming), naming, 0).Some?
              && !IsSpace(NewId(c, naming)) && c.capacity >= 2 && NewId(c, naming) !in store.lobbies
  {
    hide FreeCode, IndexOf, IsBlank, IsSpace, NewId, NewLobby;
  }

  lemma CreationIs(store: Store, c: Command, naming: Naming, now: int)
    requires Ordered(store) && c.Create? && After(store, c, naming, now) != store
    ensures NewId(c, naming) in After(store, c, naming, now).lobbies
  {
    hide After, Ordered, Used;
    CreateIsCreation(store, c, naming, now);
  }

  /** Two commands that a recorded operation cannot tell apart: of one kind, about one
      lobby, for the same change. Who asks counts for a transfer only. */
  predicate SameRequest(c: Command, d: Command, naming: Naming)
    requires !c.ExpireDue? && !d.ExpireDue?
  {
    && c.guildId == d.guildId
    && (if c.Create? || d.Create? then c.Create? && d.Create? && NewId(c, naming) == NewId(d, naming) else c.lobbyId == d.lobbyId)
    && (c.UpdateMetadata? || d.UpdateMetadata? ==> c.UpdateMetadata? && d.UpdateMetadata? && c.metadata == d.metadata && c.capacity == d.capacity)
    && (c.TransferOrganizer? || d.TransferOrganizer? ==>
          c.TransferOrganizer? && d.TransferOrganizer? && c.newOrganizerId == d.newOrganizerId && c.actorId == d.actorId)
    && (c.Rename? || d.Rename? ==> c.Rename? && d.Rename? && c.name == d.name)
    && (c.Touch? <==> d.Touch?)
    && (c.Transition? || d.Transition? ==> c.Transition? && d.Transition? && c.target == d.target)
    && (c.SaveParticipant? || d.SaveParticipant? ==>
          && c.SaveParticipant? && d.SaveParticipant? && c.participant.userId == d.participant.userId
          && RolesOf(c.participant) == RolesOf(d.participant) && c.participant.ready == d.participant.ready)
    && (c.RemoveParticipant? || d.RemoveParticipant? ==> c.RemoveParticipant? && d.RemoveParticipant? && c.userId == d.userId)
    && (c.SetDelivery? || d.SetDelivery? ==> c.SetDelivery? && d.SetDelivery? && c.refs == d.refs)
    && (c.RecordPrompt? || d.RecordPrompt? ==> c.RecordPrompt? && d.RecordPrompt? && c.channelId == d.channelId && c.messageId == d.messageId)
  }

  lemma MarksAreRequests(c: Command, d: Command, naming: Naming)
    requires !c.ExpireDue? && !d.ExpireDue?
    ensures MarkFor(c, naming) == MarkFor(d, naming) <==> SameRequest(c, d, naming)
  {
    hide RolesOf, NewId;
  }

  // ---- Rows -------------------------------------------------------------------------------

  ghost predicate IsRow(lobby: Lobby, r: Participant, u: int) { r in lobby.participants && r.userId == u }

  lemma RowThere(lobby: Lobby, u: int)
    ensures HasParticipant(lobby, u) <==> exists r :: IsRow(lobby, r, u)
  {
    var ids := UserIds(lobby.participants);
    if u in ids {
      var i :| 0 <= i < |ids| && ids[i] == u;
      assert IsRow(lobby, lobby.participants[i], u);
    }
    if r :| IsRow(lobby, r, u) {
      var i :| 0 <= i < |lobby.participants| && lobby.participants[i] == r;
      assert ids[i] == u;
    }
  }

  /** A save leaves everybody else's row, and keeps the joining time of its own. */
  lemma SavedRows(ps: seq<Participant>, p: Participant, r: Participant)
    requires Distinct(UserIds(ps))
    ensures r.userId != p.userId ==> (r in Saved(ps, p) <==> r in ps)
    ensures r.userId == p.userId && r in Saved(ps, p) ==>
              if p.userId in UserIds(ps) then exists s :: s in ps && s.userId == p.userId && r == p.(joinedAt := s.joinedAt) else r == p
  {
    var i, ids := Position(ps, p.userId), UserIds(ps);
    PositionIs(ps, p.userId);
    if i < |ps| {
      var q := p.(joinedAt := ps[i].joinedAt);
      var all := ps[i := q];
      if r in all {
        var k :| 0 <= k < |all| && all[k] == r;
        if k == i { assert ps[i] in ps; } else { assert ids[k] != ids[i]; }
      }
      if r in ps && r.userId != p.userId {
        var k :| 0 <= k < |ps| && ps[k] == r;
        assert all[k] == r;
      }
    } else {
      assert r in Insert(ps, p, SeatKey) <==> r in multiset(Insert(ps, p, SeatKey));
      assert r in ps <==> r in multiset(ps);
      if r in ps {
        var k :| 0 <= k < |ps| && ps[k] == r;
        assert ids[k] == r.userId;
      }
    }
  }

  lemma RemovedRows(ps: seq<Participant>, u: int, r: Participant)
    requires Distinct(UserIds(ps))
    ensures r in Removed(ps, u) <==> r in ps && r.userId != u
  {
    PositionIs(ps, u);
    var i := Position(ps, u);
    hide Position;
    if i < |ps| {
      WithoutOne(ps, i, r);
    } else if r in ps {
      var k :| 0 <= k < |ps| && ps[k] == r;
      assert UserIds(ps)[k] == r.userId;
    }
  }

  lemma WithoutOne(ps: seq<Participant>, i: nat, r: Participant)
    requires Distinct(UserIds(ps)) && i < |ps|
    ensures r in ps[..i] + ps[i + 1..] <==> r in ps && r.userId != ps[i].userId
  {
    var ids := UserIds(ps);
    assert ps == ps[..i] + [ps[i]] + ps[i + 1..];
    forall k | 0 <= k < |ps| && k != i ensures ps[k].userId != ps[i].userId { assert ids[k] != ids[i]; }
  }

  // ---- Parts ------------------------------------------------------------------------------

  /** The parts of a lobby: the terms are its metadata and capacity, the references
      its delivery but for the prompt, the stamp the time of its last change, a tenure
      the time a seated player joined. */
  datatype Part = TheOrigin | TheName | TheOrganizer | TheTerms | TheState | TheClock | ThePrompt | TheReferences | TheStamp | TheRow(id: int) | TheTenure(id: int)

  function WithoutPrompt(d: Delivery): Delivery { d.(promptChannel := None, promptMessage := None) }

  /** The kinds of command that set a part; a save sets a player's tenure only when
      it seats them anew. */
  ghost predicate Sets(c: Command, before: Lobby, part: Part)
    requires !c.Create? && !c.ExpireDue?
  {
    match part
    case TheOrigin => false
    case TheName => c.Rename?
    case TheOrganizer => c.TransferOrganizer?
    case TheTerms => c.UpdateMetadata?
    case TheState => c.Transition?
    case TheClock => c.Touch? || c.RecordPrompt?
    case ThePrompt => c.Touch? || c.RecordPrompt? || c.SetDelivery?
    case TheReferences => c.SetDelivery?
    case TheStamp =>
      || c.UpdateMetadata? || c.TransferOrganizer? || c.Rename? || c.SaveParticipant? || c.SetDelivery?
      || (c.Transition? && c.target != before.state) || (c.RemoveParticipant? && HasParticipant(before, c.userId))
    case TheRow(u) => (c.SaveParticipant? && c.participant.userId == u) || (c.RemoveParticipant? && c.userId == u)
    case TheTenure(u) => (c.SaveParticipant? && c.participant.userId == u && !HasParticipant(before, u)) || (c.RemoveParticipant? && c.userId == u)
  }

  /** The part of the lobby is what this command, at this time, says. */
  ghost predicate Gives(lobby: Lobby, c: Command, at: int, part: Part) {
    match part
    case TheOrigin => c.Create? && lobby.guildId == c.guildId && lobby.createdAt == at
    case TheName => (c.Create? || c.Rename?) && lobby.displayName == c.name
    case TheOrganizer => (c.Create? && lobby.organizerId == c.organizerId) || (c.TransferOrganizer? && lobby.organizerId == c.newOrganizerId)
    case TheTerms => (c.Create? || c.UpdateMetadata?) && lobby.metadata == c.metadata && lobby.capacity == c.capacity
    case TheState => (c.Create? && lobby.state == Open) || (c.Transition? && lobby.state == c.target) || (c.ExpireDue? && lobby.state == Expired)
    case TheClock =>
      || (c.Create? && lobby.expiresAt == c.expires)
      || (c.Touch? && lobby.expiresAt == Some(at + c.minutes)) || (c.RecordPrompt? && lobby.expiresAt == Some(at + c.grace))
    case ThePrompt =>
      var d := lobby.delivery;
      || ((c.Create? || c.SetDelivery?) && d.promptChannel == c.refs.promptChannel && d.promptMessage == c.refs.promptMessage)
      || (c.Touch? && d.promptChannel == None && d.promptMessage == None)
      || (c.RecordPrompt? && d.promptChannel == Some(c.channelId) && d.promptMessage == Some(c.messageId))
    case TheReferences => (c.Create? || c.SetDelivery?) && WithoutPrompt(lobby.delivery) == WithoutPrompt(c.refs)
    case TheStamp => lobby.updatedAt == if c.Transition? && c.changedAt.Some? then c.changedAt.value else at
    case TheRow(u) =>
      || ((c.Create? || c.RemoveParticipant?) && !HasParticipant(lobby, u))
      || (c.SaveParticipant? && HasParticipant(lobby, u) && forall r :: IsRow(lobby, r, u) ==> r == c.participant.(joinedAt := r.joinedAt))
    case TheTenure(u) =>
      || ((c.Create? || c.RemoveParticipant?) && !HasParticipant(lobby, u))
      || (c.SaveParticipant? && HasParticipant(lobby, u) && forall r :: IsRow(lobby, r, u) ==> r.joinedAt == c.participant.joinedAt)
  }

  ghost predicate SamePart(a: Lobby, b: Lobby, part: Part) {
    match part
    case TheOrigin => a.guildId == b.guildId && a.createdAt == b.createdAt
    case TheName => a.displayName == b.displayName
    case TheOrganizer => a.organizerId == b.organizerId
    case TheTerms => a.metadata == b.metadata && a.capacity == b.capacity
    case TheState => a.state == b.state
    case TheClock => a.expiresAt == b.expiresAt
    case ThePrompt => a.delivery.promptChannel == b.delivery.promptChannel && a.delivery.promptMessage == b.delivery.promptMessage
    case TheReferences => WithoutPrompt(a.delivery) == WithoutPrompt(b.delivery)
    case TheStamp => a.updatedAt == b.updatedAt
    case TheRow(u) => (HasParticipant(a, u) <==> HasParticipant(b, u)) && forall r :: IsRow(b, r, u) ==> IsRow(a, r, u)
    case TheTenure(u) =>
      && (HasParticipant(a, u) <==> HasParticipant(b, u))
      && forall r :: IsRow(b, r, u) ==> exists s :: IsRow(a, s, u) && s.joinedAt == r.joinedAt
  }

  lemma StillGives(a: Lobby, b: Lobby, c: Command, at: int, part: Part)
    requires Gives(a, c, at, part) && SamePart(a, b, part)
    ensures Gives(b, c, at, part)
  {
  }

  lemma SameItself(a: Lobby, part: Part)
    ensures SamePart(a, a, part)
  {
  }

  // ---- One command ------------------------------------------------------------------------

  /** An edit gives the parts it sets, and leaves every other. */
  lemma EditGives(lobby: Lobby, c: Command, now: int, part: Part)
    requires !c.Create? && !c.ExpireDue? && Distinct(UserIds(lobby.participants))
    requires Edited(lobby, c, now).Ok? && Edited(lobby, c, now).value.Some?
    ensures var after := Edited(lobby, c, now).value.value.0;
            if Sets(c, lobby, part) then Gives(after, c, now, part) else SamePart(lobby, after, part)
  {
    match part
    case TheRow(u) => EditedRows(lobby, c, now, u);
    case TheTenure(u) => EditedRows(lobby, c, now, u);
    case TheOrigin =>
    case TheName =>
    case TheOrganizer =>
    case TheTerms =>
    case TheState =>
    case TheClock =>
    case ThePrompt =>
    case TheReferences =>
    case TheStamp =>
  }

  lemma EditedRows(lobby: Lobby, c: Command, now: int, u: int)
    requires !c.Create? && !c.ExpireDue? && Distinct(UserIds(lobby.participants))
    requires Edited(lobby, c, now).Ok? && Edited(lobby, c, now).value.Some?
    ensures var after := Edited(lobby, c, now).value.value.0;
            && (if Sets(c, lobby, TheRow(u)) then Gives(after, c, now, TheRow(u)) else SamePart(lobby, after, TheRow(u)))
            && (if Sets(c, lobby, TheTenure(u)) then Gives(after, c, now, TheTenure(u)) else SamePart(lobby, after, TheTenure(u)))
  {
    var after := Edited(lobby, c, now).value.value.0;
    RosterAfter(lobby, c, now);
    hide Edited, HasParticipant, Saved, Removed, Gives, SamePart, Sets;
    if c.SaveParticipant? {
      SaveGives(lobby, after, c, now, u);
    } else if c.RemoveParticipant? {
      RemoveGives(lobby, after, c, now, u);
    } else {
      SameRows(lobby, after, u);
      NoRows(lobby, c, u);
    }
  }

  lemma RosterAfter(lobby: Lobby, c: Command, now: int)
    requires !c.Create? && !c.ExpireDue? && Edited(lobby, c, now).Ok? && Edited(lobby, c, now).value.Some?
    ensures var after := Edited(lobby, c, now).value.value.0;
            after.participants == if c.SaveParticipant? then Saved(lobby.participants, c.participant)
                                  else if c.RemoveParticipant? && HasParticipant(lobby, c.userId) then Removed(lobby.participants, c.userId)
                                  else lobby.participants
  {
    hide Saved, Removed, HasParticipant;
  }

  lemma NoRows(lobby: Lobby, c: Command, u: int)
    requires !c.Create? && !c.ExpireDue? && !c.SaveParticipant? && !c.RemoveParticipant?
    ensures !Sets(c, lobby, TheRow(u)) && !Sets(c, lobby, TheTenure(u))
  {
  }

  lemma SameRows(a: Lobby, b: Lobby, u: int)
    requires a.participants == b.participants
    ensures SamePart(a, b, TheRow(u)) && SamePart(a, b, TheTenure(u))
  {
  }

  lemma SaveGives(lobby: Lobby, after: Lobby, c: Command, now: int, u: int)
    requires c.SaveParticipant? && Distinct(UserIds(lobby.participants)) && after.participants == Saved(lobby.participants, c.participant)
    ensures if Sets(c, lobby, TheRow(u)) then Gives(after, c, now, TheRow(u)) else SamePart(lobby, after, TheRow(u))
    ensures if Sets(c, lobby, TheTenure(u)) then Gives(after, c, now, TheTenure(u)) else SamePart(lobby, after, TheTenure(u))
  {
    hide Saved;
    SavedIs(lobby.participants, c.participant);
    RowThere(lobby, u);
    RowThere(after, u);
    forall r: Participant ensures r.userId != c.participant.userId ==> (IsRow(after, r, r.userId) <==> IsRow(lobby, r, r.userId)) {
      SavedRows(lobby.participants, c.participant, r);
    }
    forall r: Participant | IsRow(after, r, c.participant.userId)
      ensures r == c.participant.(joinedAt := r.joinedAt)
      ensures HasParticipant(lobby, r.userId) ==> exists s :: IsRow(lobby, s, r.userId) && s.joinedAt == r.joinedAt
      ensures !HasParticipant(lobby, r.userId) ==> r == c.participant
    {
      SavedRows(lobby.participants, c.participant, r);
      if HasParticipant(lobby, r.userId) {
        var s :| s in lobby.participants && s.userId == c.participant.userId && r == c.participant.(joinedAt := s.joinedAt);
        assert IsRow(lobby, s, r.userId);
      }
    }
  }

  lemma RemoveGives(lobby: Lobby, after: Lobby, c: Command, now: int, u: int)
    requires c.RemoveParticipant? && Distinct(UserIds(lobby.participants))
    requires after.participants == if HasParticipant(lobby, c.userId) then Removed(lobby.participants, c.userId) else lobby.participants
    ensures if Sets(c, lobby, TheRow(u)) then Gives(after, c, now, TheRow(u)) else SamePart(lobby, after, TheRow(u))
    ensures if Sets(c, lobby, TheTenure(u)) then Gives(after, c, now, TheTenure(u)) else SamePart(lobby, after, TheTenure(u))
  {
    hide Removed;
    RowThere(lobby, u);
    RowThere(after, u);
    if HasParticipant(lobby, c.userId) {
      RemovedIs(lobby.participants, c.userId);
      forall r: Participant ensures IsRow(after, r, r.userId) <==> IsRow(lobby, r, r.userId) && r.userId != c.userId { RemovedRows(lobby.participants, c.userId, r); }
    }
  }

  /** The command, in its transaction, sets this part of the lobby. */
  ghost predicate SetIn(store: Store, next: Store, c: Command, naming: Naming, id: string, part: Part) {
    if c.ExpireDue? then part in {TheState, TheStamp} && id in store.lobbies && id in next.lobbies && next.lobbies[id].state != store.lobbies[id].state
    else if next == store then false
    else if c.Create? then NewId(c, naming) == id
    else c.lobbyId == id && id in store.lobbies && Sets(c, store.lobbies[id], part)
  }

  lemma CommandGives(store: Store, c: Command, naming: Naming, now: int, id: string, part: Part)
    requires Ordered(store) && id in After(store, c, naming, now).lobbies
    ensures var next := After(store, c, naming, now);
            if SetIn(store, next, c, naming, id, part) then Gives(next.lobbies[id], c, now, part)
            else id in store.lobbies && SamePart(store.lobbies[id], next.lobbies[id], part)
  {
    hide After, Ordered, Gives, SamePart, Sets, ExpireRows, IsCommit, IsCreation;
    var next := After(store, c, naming, now);
    if c.ExpireDue? {
      AfterSweep(store, c, naming, now);
      if ExpireRows(store, c.rows, c.inGuild, now).Ok? {
        SweepGives(store, c.rows, c.inGuild, now, id);
        SweptParts(store.lobbies[id], next.lobbies[id], c, now, part);
      } else {
        SameItself(store.lobbies[id], part);
      }
    } else if next == store {
      SameItself(store.lobbies[id], part);
    } else if c.Create? {
      CreateIsCreation(store, c, naming, now);
      CreationGives(store, next, c, naming, now, id, part);
      if NewId(c, naming) != id { SameItself(store.lobbies[id], part); }
    } else {
      ChangeIsCommit(store, c, naming, now);
      CommitGives(store, next, c, now, id, part);
    }
  }

  lemma CommitGives(store: Store, next: Store, c: Command, now: int, id: string, part: Part)
    requires Ordered(store) && !c.Create? && !c.ExpireDue? && IsCommit(store, next, c, now) && id in next.lobbies
    ensures id in store.lobbies
    ensures if c.lobbyId == id && Sets(c, store.lobbies[id], part) then Gives(next.lobbies[id], c, now, part)
            else SamePart(store.lobbies[id], next.lobbies[id], part)
  {
    hide Ordered, Gives, SamePart, Sets, Edited, MarkOf;
    if c.lobbyId == id {
      DistinctThere(store, id);
      EditGives(store.lobbies[id], c, now, part);
    } else {
      SameItself(store.lobbies[id], part);
    }
  }

  lemma DistinctThere(store: Store, id: string)
    requires Ordered(store) && id in store.lobbies
    ensures Distinct(UserIds(store.lobbies[id].participants))
  {
  }

  lemma CreationGives(store: Store, next: Store, c: Command, naming: Naming, now: int, id: string, part: Part)
    requires c.Create? && IsCreation(store, next, c, naming, now) && id in next.lobbies
    ensures if NewId(c, naming) == id then Gives(next.lobbies[id], c, now, part) else id in store.lobbies && next.lobbies[id] == store.lobbies[id]
  {
    var code :| next == Commit(store, NewLobby(c, NewId(c, naming), code, now), c.op, CreateMark(c.guildId, NewId(c, naming)), Created, None, now);
  }

  /** A sweep closes a lobby or leaves it; either way the rest of it stays. */
  ghost predicate SweptTo(a: Lobby, b: Lobby, now: int) {
    b == a || (b == a.(state := Expired, updatedAt := now, version := b.version) && a.state != Expired)
  }

  lemma {:induction false} SweepGives(store: Store, rows: seq<string>, inGuild: Option<int>, now: int, id: string)
    requires Ordered(store) && ExpireRows(store, rows, inGuild, now).Ok? && id in ExpireRows(store, rows, inGuild, now).value.0.lobbies
    ensures id in store.lobbies && SweptTo(store.lobbies[id], ExpireRows(store, rows, inGuild, now).value.0.lobbies[id], now)
    decreases |rows|
  {
    hide Ordered, ExpireOne;
    if rows != [] {
      if Selected(store, rows[0], inGuild, now) {
        ExpireOneKeeps(store, rows[0], now);
        ExpireOneShape(store, rows[0], now);
        var next := ExpireOne(store, store.lobbies[rows[0]], now).value.0;
        SweepGives(next, rows[1..], inGuild, now, id);
      } else {
        SweepGives(store, rows[1..], inGuild, now, id);
      }
    }
  }

  lemma SweptParts(a: Lobby, b: Lobby, c: Command, now: int, part: Part)
    requires c.ExpireDue? && SweptTo(a, b, now)
    ensures if part in {TheState, TheStamp} && b.state != a.state then Gives(b, c, now, part) else SamePart(a, b, part)
  {
  }

  // ---- Over a run -------------------------------------------------------------------------

  /** This step sets the part to what is now stored, and no later one sets it. */
  ghost predicate LastSetAt(run: seq<Timed>, naming: Naming, id: string, part: Part, i: nat)
    requires i < |run| && id in RunAll(EMPTY_STORE, run, naming).lobbies
  {
    && SetAt(run, naming, id, part, i) && Gives(RunAll(EMPTY_STORE, run, naming).lobbies[id], run[i].command, run[i].now, part)
    && forall j :: i < j < |run| ==> !SetAt(run, naming, id, part, j)
  }

  ghost predicate SetAt(run: seq<Timed>, naming: Naming, id: string, part: Part, i: nat)
    requires i < |run|
  {
    SetIn(RunAll(EMPTY_STORE, run[..i], naming), RunAll(EMPTY_STORE, run[..i + 1], naming), run[i].command, naming, id, part)
  }

  lemma SetBefore(run: seq<Timed>, naming: Naming, id: string, part: Part, i: nat)
    requires i < |run| - 1
    ensures SetAt(run[..|run| - 1], naming, id, part, i) <==> SetAt(run, naming, id, part, i)
    ensures run[..|run| - 1][i] == run[i]
  {
    assert run[..|run| - 1][..i] == run[..i] && run[..|run| - 1][..i + 1] == run[..i + 1];
  }

  /** In every run each part of a stored lobby is what the last accepted command of
      the kinds that set it gave, and was set by its creation otherwise. */
  lemma {:induction false} PartsAreAsLastGiven(run: seq<Timed>, naming: Naming, id: string, part: Part)
    requires id in RunAll(EMPTY_STORE, run, naming).lobbies
    ensures exists i :: 0 <= i < |run| && LastSetAt(run, naming, id, part, i)
    decreases |run|
  {
    hide After, SetIn, Gives, SamePart, Ordered;
    if run != [] {
      var n := |run| - 1;
      var before, last := run[..n], run[n];
      assert run[..n + 1] == run;
      EveryRunIsOrdered(before, naming);
      CommandGives(RunAll(EMPTY_STORE, before, naming), last.command, naming, last.now, id, part);
      if SetAt(run, naming, id, part, n) {
        assert LastSetAt(run, naming, id, part, n);
      } else {
        PartsAreAsLastGiven(before, naming, id, part);
        var i :| 0 <= i < n && LastSetAt(before, naming, id, part, i);
        StillLastSet(run, naming, id, part, i);
      }
    }
  }

  lemma StillLastSet(run: seq<Timed>, naming: Naming, id: string, part: Part, i: nat)
    requires i < |run| - 1 && id in RunAll(EMPTY_STORE, run[..|run| - 1], naming).lobbies && id in RunAll(EMPTY_STORE, run, naming).lobbies
    requires LastSetAt(run[..|run| - 1], naming, id, part, i) && !SetAt(run, naming, id, part, |run| - 1)
    requires SamePart(RunAll(EMPTY_STORE, run[..|run| - 1], naming).lobbies[id], RunAll(EMPTY_STORE, run, naming).lobbies[id], part)
    ensures LastSetAt(run, naming, id, part, i)
  {
    hide RunAll, SetAt, Gives, SamePart;
    var n := |run| - 1;
    forall j | i <= j < n ensures SetAt(run[..n], naming, id, part, j) == SetAt(run, naming, id, part, j) { SetBefore(run, naming, id, part, j); }
    SetBefore(run, naming, id, part, i);
    StillGives(RunAll(EMPTY_STORE, run[..n], naming).lobbies[id], RunAll(EMPTY_STORE, run, naming).lobbies[id], run[i].command, run[i].now, part);
  }

  // ---- The order of rows ------------------------------------------------------------------

  /** The roster is read by time of joining, then by ID. */
  ghost predicate InSeatOrder(ps: seq<Participant>) {
    forall i, j :: 0 <= i < j < |ps| ==> ps[i].joinedAt < ps[j].joinedAt || (ps[i].joinedAt == ps[j].joinedAt && ps[i].userId < ps[j].userId)
  }

  lemma SeatOrderIsSorted(ps: seq<Participant>)
    ensures Distinct(UserIds(ps)) ==> (Sorted(ps, SeatKey) <==> InSeatOrder(ps))
  {
    if Distinct(UserIds(ps)) {
      forall i, j | 0 <= i < j < |ps|
        ensures LexLeq(SeatKey(ps[i]), SeatKey(ps[j]))
                <==> ps[i].joinedAt < ps[j].joinedAt || (ps[i].joinedAt == ps[j].joinedAt && ps[i].userId < ps[j].userId)
      {
        LexPair(ps[i].joinedAt, ps[i].userId, ps[j].joinedAt, ps[j].userId);
        assert UserIds(ps)[i] != UserIds(ps)[j];
      }
    }
  }

  lemma SavedInOrder(ps: seq<Participant>, p: Participant)
    requires Distinct(UserIds(ps)) && InSeatOrder(ps)
    ensures InSeatOrder(Saved(ps, p))
  {
    SavedIs(ps, p);
    SeatOrderIsSorted(ps);
    SeatOrderIsSorted(Saved(ps, p));
    var i := Position(ps, p.userId);
    if i < |ps| {
      var q := p.(joinedAt := ps[i].joinedAt);
      assert SeatKey(q) == SeatKey(ps[i]);
      hide LexLeq, SeatKey, Distinct;
    } else {
      InsertSorted(ps, p, SeatKey);
    }
  }

  lemma RemovedInOrder(ps: seq<Participant>, u: int)
    requires InSeatOrder(ps)
    ensures InSeatOrder(Removed(ps, u))
  {
    var i, r := Position(ps, u), Removed(ps, u);
    forall j, k | 0 <= j < k < |r|
      ensures r[j].joinedAt < r[k].joinedAt || (r[j].joinedAt == r[k].joinedAt && r[j].userId < r[k].userId)
    {
      if i < |ps| { assert r[j] == ps[if j < i then j else j + 1] && r[k] == ps[if k < i then k else k + 1]; }
    }
  }

  lemma EditInOrder(lobby: Lobby, c: Command, now: int)
    requires !c.Create? && !c.ExpireDue? && Distinct(UserIds(lobby.participants)) && InSeatOrder(lobby.participants)
    requires Edited(lobby, c, now).Ok? && Edited(lobby, c, now).value.Some?
    ensures InSeatOrder(Edited(lobby, c, now).value.value.0.participants)
  {
    hide Saved, Removed, InSeatOrder;
    if c.SaveParticipant? { SavedInOrder(lobby.participants, c.participant); }
    if c.RemoveParticipant? { RemovedInOrder(lobby.participants, c.userId); }
  }

  lemma CommandInOrder(store: Store, c: Command, naming: Naming, now: int, id: string)
    requires Ordered(store) && id in After(store, c, naming, now).lobbies
    requires id in store.lobbies ==> InSeatOrder(store.lobbies[id].participants)
    ensures InSeatOrder(After(store, c, naming, now).lobbies[id].participants)
  {
    hide After, Ordered, ExpireRows, Edited, InSeatOrder;
    var next := After(store, c, naming, now);
    if c.ExpireDue? {
      AfterSweep(store, c, naming, now);
      if ExpireRows(store, c.rows, c.inGuild, now).Ok? { SweepGives(store, c.rows, c.inGuild, now, id); }
    } else if next != store {
      if c.Create? {
        CreateIsCreation(store, c, naming, now);
        NobodyInOrder(store, next, c, naming, now, id);
      } else {
        ChangeIsCommit(store, c, naming, now);
        if c.lobbyId == id {
          DistinctThere(store, id);
          EditInOrder(store.lobbies[id], c, now);
        }
      }
    }
  }

  lemma NobodyInOrder(store: Store, next: Store, c: Command, naming: Naming, now: int, id: string)
    requires c.Create? && IsCreation(store, next, c, naming, now) && id in next.lobbies
    requires id in store.lobbies ==> InSeatOrder(store.lobbies[id].participants)
    ensures InSeatOrder(next.lobbies[id].participants)
  {
    var code :| next == Commit(store, NewLobby(c, NewId(c, naming), code, now), c.op, CreateMark(c.guildId, NewId(c, naming)), Created, None, now);
  }

  /** In every run a roster is in the order of joining, ties by ID. */
  lemma {:induction false} RostersAreInOrder(run: seq<Timed>, naming: Naming, id: string)
    requires id in RunAll(EMPTY_STORE, run, naming).lobbies
    ensures InSeatOrder(RunAll(EMPTY_STORE, run, naming).lobbies[id].participants)
    decreases |run|
  {
    hide After, Ordered, InSeatOrder;
    if run != [] {
      var n := |run| - 1;
      var before := run[..n];
      EveryRunIsOrdered(before, naming);
      if id in RunAll(EMPTY_STORE, before, naming).lobbies { RostersAreInOrder(before, naming, id); }
      CommandInOrder(RunAll(EMPTY_STORE, before, naming), run[n].command, naming, run[n].now, id);
    }
  }
}
