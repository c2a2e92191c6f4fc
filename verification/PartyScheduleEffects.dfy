/** What commands leave of scheduled nights: which are accepted, and over every run
    where a night's card and a player's row come from. */
module PartyScheduleEffects {
  import opened Common
  import opened PartySchedule
  import opened PartyScheduleLine
  import PST = PartyScheduleTheorems
  import PL = PartyLobby

  // ---- Acceptance -------------------------------------------------------------------------

  /** Two to twenty seats, and at least one reminder, none later than five minutes
      or earlier than a week before. */
  lemma CreatesWhen(store: Store, c: Command, now: int, names: Names)
    requires c.Create?
    ensures Exec(store, c, now, names).Ok? <==>
              2 <= c.capacity <= 20 && c.reminders != [] && forall m :: m in c.reminders ==> 5 <= m <= 7 * 24 * 60
  {
  }

  /** Responses need a scheduled night; withdrawing needs only the night. */
  lemma RespondsWhen(store: Store, c: Command, now: int, names: Names)
    requires c.Rsvp? || c.RsvpMaybe? || c.CancelRsvp?
    ensures Exec(store, c, now, names).Ok? <==> c.eventId in store.nights && (c.CancelRsvp? || store.nights[c.eventId].state == Scheduled)
  {
    hide RsvpRows, MaybeRows, CancelRows, RowOf;
  }

  /** Only the organizer confirms. */
  lemma ConfirmsWhen(store: Store, id: string, organizerId: int, now: int, names: Names)
    ensures Exec(store, Confirm(id, organizerId), now, names).Ok? <==> id in store.nights && store.nights[id].organizerId == organizerId
  {
  }

  // ---- Nights -----------------------------------------------------------------------------

  /** Longest lead first, each once. */
  ghost predicate LongestFirst(leads: seq<int>) { forall i, j :: 0 <= i < j < |leads| ==> leads[i] > leads[j] }

  lemma {:induction false} LeadsAre(minutes: seq<int>)
    ensures LongestFirst(Leads(minutes)) && forall m :: m in Leads(minutes) <==> m in minutes
    decreases |minutes|
  {
    if minutes != [] {
      var n := |minutes| - 1;
      var before, m := Leads(minutes[..n]), minutes[n];
      LeadsAre(minutes[..n]);
      assert minutes == minutes[..n] + [m];
      if m !in before {
        DifferentLeads(before, m);
        SortedLeads(before + [m], SortBy(before + [m], MoreFirst));
      }
    }
  }

  lemma SortedLeads(all: seq<int>, sorted: seq<int>)
    requires Distinct(all) && multiset(all) == multiset(sorted) && Sorted(sorted, MoreFirst)
    ensures LongestFirst(sorted) && forall m :: m in sorted <==> m in all
  {
    SameMultisetDistinct(all, sorted);
    forall m ensures m in sorted <==> m in all { assert m in multiset(sorted) <==> m in multiset(all); }
    forall i, j | 0 <= i < j < |sorted| ensures sorted[i] > sorted[j] {
      LexSingle(-sorted[i], -sorted[j]);
      assert LexLeq(MoreFirst(sorted[i]), MoreFirst(sorted[j]));
    }
  }

  lemma DifferentLeads(leads: seq<int>, m: int)
    requires LongestFirst(leads) && m !in leads
    ensures Distinct(leads + [m])
  {
  }

  /** The card of a night: who holds it, what, for how many, how often, reminders. */
  ghost predicate SameCard(a: Night, b: Night) {
    && a.guildId == b.guildId && a.organizerId == b.organizerId && a.title == b.title && a.zone == b.zone && a.recurrence == b.recurrence
    && a.capacity == b.capacity && a.reminders == b.reminders
  }

  /** The card is the one this creation asks for. */
  ghost predicate CardOf(n: Night, c: Command) {
    && c.Create? && n.guildId == c.guildId && n.organizerId == c.organizerId && n.title == c.title && n.zone == c.zone
    && n.recurrence == c.recurrence && n.capacity == c.capacity
    && LongestFirst(n.reminders) && forall m :: m in n.reminders <==> m in c.reminders
  }

  /** What a command does to one night that was there. */
  ghost predicate NightAfter(c: Command, before: Night, after: Night) {
    && SameCard(before, after) && after.eventId == before.eventId && after.startsAt == before.startsAt && after.predecessor == before.predecessor
    && after.state == (if c.Confirm? && before.state == PendingConfirmation then Scheduled else if c.MarkConverted? then Converted else before.state)
    && after.lobbyId == (if c.MarkConverted? then Some(c.lobbyId) else before.lobbyId)
    && after.delivery == (if c.SetDelivery? then c.delivery else if c.MarkConverted? && before.recurrence == Weekly then None else before.delivery)
  }

  /** A night that a command adds: a creation's, waiting for confirmation; or the
      next of a series, scheduled, with the card of the one that is converted. */
  ghost predicate NightAdded(store: Store, c: Command, names: Names, id: string, n: Night) {
    || (c.Create? && id == names.eventId(c.guildId, c.op) && CardOf(n, c) && n.startsAt == c.startsAt && n.eventId == id
        && n.state == PendingConfirmation && n.lobbyId == None && n.delivery == None && n.predecessor == None)
    || (c.MarkConverted? && c.eventId in store.nights && store.nights[c.eventId].recurrence == Weekly && SameCard(store.nights[c.eventId], n)
        && InWeek(names.zone(n.zone), store.nights[c.eventId].startsAt, 1) == Some(n.startsAt) && id == names.nextId(c.eventId, n.startsAt)
        && n.eventId == id && n.state == Scheduled && n.lobbyId == None && n.predecessor == Some(c.eventId) && n.delivery == store.nights[c.eventId].delivery)
  }

  /** The command is about this night, and is accepted. */
  predicate About(store: Store, c: Command, now: int, names: Names, id: string) {
    (c.Confirm? || c.MarkConverted? || c.SetDelivery?) && c.eventId == id && Exec(store, c, now, names).Ok?
  }

  /** A conversion never overwrites the night it converts with the next. */
  ghost predicate NamesApart(c: Command, names: Names) { c.MarkConverted? ==> forall t :: names.nextId(c.eventId, t) != c.eventId }

  lemma CommandNights(store: Store, c: Command, now: int, names: Names, id: string)
    requires id in After(store, c, now, names).nights && NamesApart(c, names)
    ensures var n := After(store, c, now, names).nights[id];
            if id !in store.nights then NightAdded(store, c, names, id, n)
            else if About(store, c, now, names, id) then NightAfter(c, store.nights[id], n)
            else n == store.nights[id]
  {
    hide InWeek, Claim, RsvpRows, MaybeRows, CancelRows, Leads;
    if c.Create? { LeadsAre(c.reminders); }
  }

  /** The night, or one its series began with, was made by this step, a creation
      that asked for its card. */
  ghost predicate BegunAt(run: seq<Timed>, names: Names, n: Night, i: nat)
    requires i < |run|
  {
    CardOf(n, run[i].command) && names.eventId(run[i].command.guildId, run[i].command.op) !in RunAll(run[..i], names).nights
  }

  ghost predicate Begun(run: seq<Timed>, names: Names, n: Night) { exists i :: 0 <= i < |run| && BegunAt(run, names, n, i) }

  /** In every run each night has the card that some creation of the run asked for:
      its own, or that of the first night of its series. */
  lemma {:induction false} CardsAreAsCreated(run: seq<Timed>, names: Names, id: string)
    requires (forall k :: 0 <= k < |run| ==> NamesApart(run[k].command, names)) && id in RunAll(run, names).nights
    ensures Begun(run, names, RunAll(run, names).nights[id])
    decreases |run|
  {
    hide After, CardOf, NightAfter, About, NamesApart, SameCard;
    if run != [] {
      var n := |run| - 1;
      var before, last := run[..n], run[n];
      forall k | 0 <= k < n ensures NamesApart(before[k].command, names) { assert before[k] == run[k]; }
      CommandNights(RunAll(before, names), last.command, last.now, names, id);
      var night := RunAll(run, names).nights[id];
      if id in RunAll(before, names).nights {
        CardsAreAsCreated(before, names, id);
        KeepsCard(RunAll(before, names), last.command, last.now, names, id);
        BegunBefore(run, names, RunAll(before, names).nights[id], night);
      } else if last.command.Create? {
        AddedIs(RunAll(before, names), last.command, names, id, night);
        assert BegunAt(run, names, night, n);
      } else {
        AddedIs(RunAll(before, names), last.command, names, id, night);
        CardsAreAsCreated(before, names, last.command.eventId);
        BegunBefore(run, names, RunAll(before, names).nights[last.command.eventId], night);
      }
    }
  }

  lemma AddedIs(store: Store, c: Command, names: Names, id: string, n: Night)
    requires NightAdded(store, c, names, id, n)
    ensures c.Create? ==> CardOf(n, c) && id == names.eventId(c.guildId, c.op)
    ensures !c.Create? ==> c.MarkConverted? && c.eventId in store.nights && SameCard(store.nights[c.eventId], n)
  {
  }

  lemma KeepsCard(store: Store, c: Command, now: int, names: Names, id: string)
    requires id in store.nights && id in After(store, c, now, names).nights && NamesApart(c, names)
    ensures SameCard(store.nights[id], After(store, c, now, names).nights[id])
  {
    hide After, About;
    CommandNights(store, c, now, names, id);
  }

  lemma BegunBefore(run: seq<Timed>, names: Names, a: Night, b: Night)
    requires run != [] && SameCard(a, b) && Begun(run[..|run| - 1], names, a)
    ensures Begun(run, names, b)
  {
    hide RunAll;
    var before := run[..|run| - 1];
    var i :| 0 <= i < |run| - 1 && BegunAt(before, names, a, i);
    assert before[i] == run[i] && before[..i] == run[..i];
    assert BegunAt(run, names, b, i);
  }

  // ---- Answers ------------------------------------------------------------------------------

  /** What a player's row says: going or maybe, their preferences, since when. */
  datatype Given = Given(going: bool, preferences: PL.Preferences, since: int)

  function AnswerOf(rows: seq<Row>, u: int): Option<Given> {
    var i := RowOf(rows, u);
    if i < |rows| then Some(Given(rows[i].going, rows[i].preferences, rows[i].joinedAt)) else None
  }

  function AnswerIn(store: Store, id: string, u: int): Option<Given> { AnswerOf(RowsOf(store, id), u) }

  lemma DeletedAnswers(rows: seq<Row>, u: int, v: int)
    requires OneRowEach(rows)
    ensures AnswerOf(Deleted(rows, u), v) == if v == u then None else AnswerOf(rows, v)
  {
    hide RowOf, Deleted;
    if v == u { DeletedGone(rows, u); } else { DeletedRow(rows, u, v); }
  }

  lemma ReindexedAnswers(rows: seq<Row>, u: int, capacity: int, v: int)
    requires OneRowEach(rows)
    ensures AnswerOf(Reindexed(rows, u, capacity), v) == if v == u then None else AnswerOf(rows, v)
  {
    var rest := Deleted(rows, u);
    DeletedAnswers(rows, u, v);
    RenumberedUsers(rest, LineOf(rest), capacity, v);
    hide RowOf, Deleted, LineOf;
  }

  lemma ReplacedAnswers(rows: seq<Row>, i: nat, r: Row, v: int)
    requires i < |rows| && r.userId == rows[i].userId && OneRowEach(rows)
    ensures AnswerOf(rows[i := r], v) == if v == r.userId then Some(Given(r.going, r.preferences, r.joinedAt)) else AnswerOf(rows, v)
  {
    SameRow(rows, rows[i := r], v);
    RowIs(rows, i);
    hide RowOf;
  }

  lemma AppendedAnswers(rows: seq<Row>, r: Row, v: int)
    requires RowOf(rows, r.userId) == |rows|
    ensures AnswerOf(rows + [r], v) == if v == r.userId then Some(Given(r.going, r.preferences, r.joinedAt)) else AnswerOf(rows, v)
  {
    var i, more := RowOf(rows, v), rows + [r];
    hide RowOf;
    assert forall j :: 0 <= j < |rows| ==> more[j] == rows[j];
    RowFirst(more, v, if i < |rows| then i else if v == r.userId then |rows| else |more|);
  }

  lemma RowFirst(rows: seq<Row>, v: int, i: nat)
    requires i <= |rows| && (i < |rows| ==> rows[i].userId == v) && forall j :: 0 <= j < i ==> rows[j].userId != v
    ensures RowOf(rows, v) == i
  {
    var k := RowOf(rows, v);
    hide RowOf;
    assert forall j :: 0 <= j < |rows| && rows[j].userId == v ==> i <= j && k <= j;
  }

  /** A response says what it says from then on, since the first of the player's. */
  lemma RsvpAnswers(rows: seq<Row>, capacity: int, u: int, p: PL.Preferences, now: int, v: int)
    requires OneRowEach(rows)
    ensures AnswerOf(RsvpRows(rows, capacity, u, p, now), v) ==
              if v == u then Some(Given(true, p, if AnswerOf(rows, u).Some? then AnswerOf(rows, u).value.since else now)) else AnswerOf(rows, v)
  {
    var i := RowOf(rows, u);
    var count := |GoingRows(rows)|;
    hide RowOf, AnswerOf, GoingRows;
    OldAnswer(rows, u);
    if i < |rows| {
      var r := if IsGoing(rows, u) then rows[i].(preferences := p)
               else rows[i].(going := true, position := count + 1, waitlisted := count >= capacity, preferences := p);
      ReplacedAnswers(rows, i, r, v);
    } else {
      AppendedAnswers(rows, Row(u, count + 1, count >= capacity, true, p, now), v);
    }
  }

  lemma OldAnswer(rows: seq<Row>, u: int)
    ensures AnswerOf(rows, u).Some? <==> RowOf(rows, u) < |rows|
    ensures RowOf(rows, u) < |rows| ==> AnswerOf(rows, u).value.since == rows[RowOf(rows, u)].joinedAt
  {
  }

  lemma MaybeAnswers(rows: seq<Row>, capacity: int, u: int, p: PL.Preferences, now: int, v: int)
    requires OneRowEach(rows) && OneRowEach(Reindexed(rows, u, capacity))
    ensures AnswerOf(MaybeRows(rows, capacity, u, p, now), v) ==
              if v == u then Some(Given(false, p, if AnswerOf(rows, u).Some? && !IsGoing(rows, u) then AnswerOf(rows, u).value.since else now))
              else AnswerOf(rows, v)
  {
    var before := if IsGoing(rows, u) then Reindexed(rows, u, capacity) else rows;
    ReindexedAnswers(rows, u, capacity, u);
    ReindexedAnswers(rows, u, capacity, v);
    var i := RowOf(before, u);
    hide RowOf, AnswerOf, Reindexed;
    OldAnswer(before, u);
    OldAnswer(rows, u);
    if i < |before| {
      ReplacedAnswers(before, i, before[i].(going := false, position := 0, waitlisted := false, preferences := p), v);
    } else {
      AppendedAnswers(before, Row(u, 0, false, false, p, now), v);
    }
  }

  lemma CancelAnswers(rows: seq<Row>, capacity: int, u: int, v: int)
    requires OneRowEach(rows)
    ensures AnswerOf(CancelRows(rows, capacity, u), v) == if v == u then None else AnswerOf(rows, v)
  {
    hide RowOf, AnswerOf, Reindexed, Deleted;
    DeletedAnswers(rows, u, v);
    ReindexedAnswers(rows, u, capacity, v);
  }

  /** The command is an accepted response, or a withdrawal, of this player. */
  predicate Answers(store: Store, c: Command, now: int, names: Names, id: string, u: int) {
    (c.Rsvp? || c.RsvpMaybe? || c.CancelRsvp?) && c.eventId == id && c.userId == u && Exec(store, c, now, names).Ok?
  }

  /** Since when a response counts: a new one, or a Maybe in place of Going, from now
      on; another in place of the player's earlier one, as long as that. */
  function SinceWhen(before: Option<Given>, c: Command, now: int): int {
    if before.None? || (c.RsvpMaybe? && before.value.going) then now else before.value.since
  }

  lemma CommandAnswers(store: Store, c: Command, now: int, names: Names, id: string, u: int)
    requires PST.AllInLine(store)
    ensures var before, after := AnswerIn(store, id, u), AnswerIn(After(store, c, now, names), id, u);
            if !Answers(store, c, now, names, id, u) then after == before
            else if c.CancelRsvp? then after == None
            else after == Some(Given(c.Rsvp?, c.preferences, SinceWhen(before, c, now)))
  {
    hide RowOf, InWeek, Claim, RsvpRows, MaybeRows, CancelRows, PST.AllInLine, Leads, AnswerOf;
    if (c.Rsvp? || c.RsvpMaybe? || c.CancelRsvp?) && c.eventId == id && c.eventId in store.nights {
      ApartIn(store, id);
      var rows, capacity := RowsOf(store, id), store.nights[id].capacity;
      OldAnswer(rows, u);
      OldAnswer(rows, c.userId);
      GoingIs(rows, c.userId);
      if c.Rsvp? { RsvpAnswers(rows, capacity, c.userId, c.preferences, now, u); }
      if c.RsvpMaybe? {
        ReindexedApart(rows, c.userId, capacity);
        MaybeAnswers(rows, capacity, c.userId, c.preferences, now, u);
      }
      if c.CancelRsvp? { CancelAnswers(rows, capacity, c.userId, u); }
    }
  }

  /** This step answered for the player, and no later one did. */
  ghost predicate AnsweredLast(run: seq<Timed>, names: Names, id: string, u: int, i: nat)
    requires i < |run|
  {
    && Answers(RunAll(run[..i], names), run[i].command, run[i].now, names, id, u)
    && forall j :: i < j < |run| ==> !Answers(RunAll(run[..j], names), run[j].command, run[j].now, names, id, u)
  }

  /** What a row says is what this step asked for. */
  predicate Said(run: seq<Timed>, i: nat, a: Given)
    requires i < |run|
  {
    var c := run[i].command;
    (c.Rsvp? || c.RsvpMaybe?) && a.going == c.Rsvp? && a.preferences == c.preferences
  }

  /** In every run a player's row says what the last answer of the player said; a
      player without a row has never answered, or withdrew last. */
  lemma {:induction false} AnswersAreTheLast(run: seq<Timed>, names: Names, id: string, u: int)
    ensures var a := AnswerIn(RunAll(run, names), id, u);
            && (a.Some? ==> exists i :: 0 <= i < |run| && AnsweredLast(run, names, id, u, i) && Said(run, i, a.value))
            && (a.None? ==> forall i :: 0 <= i < |run| && AnsweredLast(run, names, id, u, i) ==> run[i].command.CancelRsvp?)
    decreases |run|
  {
    hide After, Answers, AnswerIn, PST.AllInLine;
    if run == [] {
      NoAnswers(id, u);
    } else {
      var n := |run| - 1;
      var before, last := run[..n], run[n];
      PST.RunsAreInLine(before, names);
      CommandAnswers(RunAll(before, names), last.command, last.now, names, id, u);
      AnswersAreTheLast(before, names, id, u);
      forall j | 0 <= j < n ensures before[..j] == run[..j] && before[j] == run[j] { }
      var a := AnswerIn(RunAll(run, names), id, u);
      if Answers(RunAll(before, names), last.command, last.now, names, id, u) {
        AnswersSay(RunAll(before, names), last.command, last.now, names, id, u);
        assert AnsweredLast(run, names, id, u, n);
        assert a.Some? ==> Said(run, n, a.value);
      } else {
        forall i | 0 <= i < n ensures AnsweredLast(before, names, id, u, i) <==> AnsweredLast(run, names, id, u, i) { }
        if a.Some? {
          var i :| 0 <= i < n && AnsweredLast(before, names, id, u, i) && Said(before, i, a.value);
          assert AnsweredLast(run, names, id, u, i) && Said(run, i, a.value);
        }
      }
    }
  }

  lemma NoAnswers(id: string, u: int)
    ensures AnswerIn(EMPTY_STORE, id, u) == None
  {
  }

  lemma AnswersSay(store: Store, c: Command, now: int, names: Names, id: string, u: int)
    requires Answers(store, c, now, names, id, u)
    ensures c.Rsvp? || c.RsvpMaybe? || c.CancelRsvp?
  {
  }

  lemma GoingIs(rows: seq<Row>, u: int)
    ensures IsGoing(rows, u) <==> AnswerOf(rows, u).Some? && AnswerOf(rows, u).value.going
  {
  }

  lemma ReindexedApart(rows: seq<Row>, u: int, capacity: int)
    requires OneRowEach(rows)
    ensures OneRowEach(Reindexed(rows, u, capacity))
  {
    DeletedGone(rows, u);
    hide Deleted, LineOf;
  }

  lemma ApartIn(store: Store, id: string)
    requires PST.AllInLine(store) && id in store.nights
    ensures OneRowEach(RowsOf(store, id))
  {
    assert PST.NightInLine(store, id);
  }
}
