/** ScheduleRepository of utils/party_schedule.py: one transaction a method. */
module ScheduleRepositories {
  import opened Common
  import opened PartySchedule
  import opened PartyScheduleLine
  import opened PartyScheduleTheorems
  import PL = PartyLobby

  class ScheduleRepository {
    const names: Names
    var nights: map<string, Night>
    var rsvps: map<string, seq<Row>>
    var reminders: set<Reminder>

    constructor (names: Names)
      ensures this.names == names && Contents() == EMPTY_STORE
    {
      this.names := names;
      nights := map[];
      rsvps := map[];
      reminders := {};
    }

    function Contents(): Store
      reads this
    {
      Store(nights, rsvps, reminders)
    }

    /** INSERT OR IGNORE: the same operation gives the same night again. */
    method CreateNight(guildId: int, organizerId: int, title: string, startsAt: int, zone: string, recurrence: Recurrence,
        capacity: int, leads: seq<int>, op: string, now: int) returns (r: Result<string, Error>)
      modifies this
      ensures var c := Create(guildId, organizerId, title, startsAt, zone, recurrence, capacity, leads, op);
              && Contents() == After(old(Contents()), c, now, names)
              && match Exec(old(Contents()), c, now, names)
                 case Ok(_) => r == Ok(names.eventId(guildId, op)) && r.value in nights
                 case Err(e) => r == Err(e)
    {
      if capacity < 2 || capacity > 20 { return Err(BadCapacity); }
      if leads == [] || exists m :: m in leads && (m < 5 || m > 10080) { return Err(BadReminders); }
      var id := names.eventId(guildId, op);
      if id !in nights {
        nights := nights[id := Night(id, guildId, organizerId, title, startsAt, zone, recurrence, capacity, Leads(leads),
                                     PendingConfirmation, None, None, None)];
      }
      r := Ok(id);
    }

    method ConfirmNight(eventId: string, organizerId: int, now: int) returns (r: Result<Night, Error>)
      modifies this
      ensures var c := Confirm(eventId, organizerId);
              && Contents() == After(old(Contents()), c, now, names)
              && match Exec(old(Contents()), c, now, names)
                 case Ok(_) => eventId in nights && r == Ok(nights[eventId])
                 case Err(e) => r == Err(e)
    {
      if eventId !in nights { return Err(NightNotFound); }
      if nights[eventId].organizerId != organizerId { return Err(NotOrganizer); }
      if nights[eventId].state == PendingConfirmation {
        nights := nights[eventId := nights[eventId].(state := Scheduled)];
      }
      r := Ok(nights[eventId]);
    }

    method RsvpGoing(eventId: string, userId: int, p: PL.Preferences, now: int) returns (r: Result<Night, Error>)
      modifies this
      ensures var c := Rsvp(eventId, userId, p);
              && Contents() == After(old(Contents()), c, now, names)
              && match Exec(old(Contents()), c, now, names)
                 case Ok(_) => eventId in nights && r == Ok(nights[eventId])
                 case Err(e) => r == Err(e)
    {
      if eventId !in nights { return Err(NightNotFound); }
      var night := nights[eventId];
      if night.state != Scheduled { return Err(NotConfirmed); }
      var rows := RowsOf(Contents(), eventId);
      var i := RowOf(rows, userId);
      if i < |rows| && rows[i].going {
        rows := rows[i := rows[i].(preferences := p)];
      } else {
        var count := |GoingRows(rows)|;
        var position, waitlisted := count + 1, count >= night.capacity;
        if i == |rows| {
          rows := rows + [Row(userId, position, waitlisted, true, p, now)];
        } else {
          rows := rows[i := rows[i].(going := true, position := position, waitlisted := waitlisted, preferences := p)];
        }
      }
      rsvps := rsvps[eventId := rows];
      r := Ok(night);
    }

    method MarkMaybe(eventId: string, userId: int, p: PL.Preferences, now: int) returns (r: Result<Night, Error>)
      requires OneRowEach(RowsOf(Contents(), eventId))
      modifies this
      ensures var c := RsvpMaybe(eventId, userId, p);
              && Contents() == After(old(Contents()), c, now, names)
              && match Exec(old(Contents()), c, now, names)
                 case Ok(_) => eventId in nights && r == Ok(nights[eventId])
                 case Err(e) => r == Err(e)
    {
      if eventId !in nights { return Err(NightNotFound); }
      var night := nights[eventId];
      if night.state != Scheduled { return Err(NotConfirmed); }
      var rows := RowsOf(Contents(), eventId);
      if IsGoing(rows, userId) { rows := RemoveGoingAndReindex(rows, userId, night.capacity); }
      var i := RowOf(rows, userId);
      if i == |rows| {
        rows := rows + [Row(userId, 0, false, false, p, now)];
      } else {
        rows := rows[i := rows[i].(going := false, position := 0, waitlisted := false, preferences := p)];
      }
      rsvps := rsvps[eventId := rows];
      r := Ok(night);
    }

    method Cancel(eventId: string, userId: int, now: int) returns (r: Result<Night, Error>)
      requires OneRowEach(RowsOf(Contents(), eventId))
      modifies this
      ensures var c := CancelRsvp(eventId, userId);
              && Contents() == After(old(Contents()), c, now, names)
              && match Exec(old(Contents()), c, now, names)
                 case Ok(_) => eventId in nights && r == Ok(nights[eventId])
                 case Err(e) => r == Err(e)
    {
      if eventId !in nights { return Err(NightNotFound); }
      var rows := RowsOf(Contents(), eventId);
      if RowOf(rows, userId) == |rows| { return Ok(nights[eventId]); }
      if IsGoing(rows, userId) {
        rows := RemoveGoingAndReindex(rows, userId, nights[eventId].capacity);
      } else {
        rows := Deleted(rows, userId);
      }
      rsvps := rsvps[eventId := rows];
      r := Ok(nights[eventId]);
    }

    method ConvertNight(eventId: string, lobbyId: string, now: int) returns (r: Result<Night, Error>)
      modifies this
      ensures var c := MarkConverted(eventId, lobbyId);
              && Contents() == After(old(Contents()), c, now, names)
              && match Exec(old(Contents()), c, now, names)
                 case Ok(_) => eventId in nights && r == Ok(nights[eventId])
                 case Err(e) => r == Err(e)
    {
      hide InWeek;
      if eventId !in nights { return Err(NightNotFound); }
      var night := nights[eventId];
      if night.lobbyId.Some? && night.lobbyId.value != "" && night.lobbyId.value != lobbyId { return Err(ConvertedElsewhere); }
      if night.recurrence == Weekly {
        var next := InWeek(names.zone(night.zone), night.startsAt, 1);
        if next.None? { return Err(NoSuchLocalTime); }
        var nextId := names.nextId(eventId, next.value);
        if nextId !in nights { nights := nights[nextId := Successor(night, eventId, nextId, next.value)]; }
        nights := nights[eventId := nights[eventId].(state := Converted, lobbyId := Some(lobbyId), delivery := None)];
      } else {
        nights := nights[eventId := night.(state := Converted, lobbyId := Some(lobbyId))];
      }
      r := Ok(nights[eventId]);
    }

    /** A failing night rolls the whole sweep back. */
    method ClaimDueReminders(order: seq<string>, now: int) returns (r: Result<seq<Reminder>, Error>)
      modifies this
      ensures Contents() == After(old(Contents()), ClaimReminders(order), now, names)
      ensures match Claim(old(Contents()), order, now, names) case Ok((_, due)) => r == Ok(due) case Err(e) => r == Err(e)
    {
      hide ClaimLeads, Occurrence;
      var claimed, due := reminders, [];
      ghost var whole := Claim(Contents(), order, now, names);
      assert order[0..] == order && Contents().(reminders := claimed) == Contents();
      assert Handed(due, whole) == whole by { HandedNothing(whole); }
      for i := 0 to |order|
        invariant Contents() == old(Contents())
        invariant Handed(due, Claim(Contents().(reminders := claimed), order[i..], now, names)) == whole
      {
        ghost var store := Contents().(reminders := claimed);
        assert order[i..][0] == order[i] && order[i..][1..] == order[i + 1..];
        if order[i] in nights && nights[order[i]].state == Scheduled {
          var night := nights[order[i]];
          var occurrence := Occurrence(night, now, names);
          if occurrence.None? { return Err(NoSuchLocalTime); }
          var (after, more) := ClaimLeads(claimed, order[i], occurrence.value, night.reminders, now);
          HandedTwice(due, more, Claim(store.(reminders := after), order[i + 1..], now, names));
          claimed, due := after, due + more;
        }
      }
      assert due + [] == due;
      reminders := claimed;
      r := Ok(due);
    }
  }

  function Handed(due: seq<Reminder>, r: Result<(set<Reminder>, seq<Reminder>), Error>): Result<(set<Reminder>, seq<Reminder>), Error> {
    if r.Ok? then Ok((r.value.0, due + r.value.1)) else r
  }

  lemma HandedNothing(r: Result<(set<Reminder>, seq<Reminder>), Error>)
    ensures Handed([], r) == r
  {
    if r.Ok? { assert [] + r.value.1 == r.value.1; }
  }

  lemma HandedTwice(a: seq<Reminder>, b: seq<Reminder>, r: Result<(set<Reminder>, seq<Reminder>), Error>)
    ensures Handed(a, Handed(b, r)) == Handed(a + b, r)
  {
    if r.Ok? { assert a + (b + r.value.1) == a + b + r.value.1; }
  }

  /** _remove_going_and_reindex: one UPDATE for each player behind. */
  method RemoveGoingAndReindex(rows: seq<Row>, userId: int, capacity: int) returns (r: seq<Row>)
    requires OneRowEach(rows)
    ensures r == Reindexed(rows, userId, capacity)
  {
    DeletedGone(rows, userId);
    var rest := Deleted(rows, userId);
    var line := LineOf(rest);
    LineOfApart(rest);
    hide LineOf, Deleted;
    r := rest;
    assert Renumbered(rest, [], capacity) == rest;
    for index := 0 to |line|
      invariant r == Renumbered(rest, line[..index], capacity)
    {
      r := Placed(r, line[index], index, capacity);
      PlacedNext(rest, line, index, capacity);
    }
    assert line[..|line|] == line;
  }

  function Placed(rows: seq<Row>, userId: int, index: nat, capacity: int): (r: seq<Row>)
    ensures |r| == |rows|
  {
    seq(|rows|, i requires 0 <= i < |rows| =>
      if rows[i].userId == userId then rows[i].(position := index + 1, waitlisted := index >= capacity) else rows[i])
  }

  lemma PlacedNext(rest: seq<Row>, line: seq<int>, index: nat, capacity: int)
    requires Distinct(line) && index < |line|
    ensures Placed(Renumbered(rest, line[..index], capacity), line[index], index, capacity) == Renumbered(rest, line[..index + 1], capacity)
  {
    var a, b := Placed(Renumbered(rest, line[..index], capacity), line[index], index, capacity), Renumbered(rest, line[..index + 1], capacity);
    forall i | 0 <= i < |rest| ensures a[i] == b[i] { IndexGrows(line, index, rest[i].userId); }
    assert a == b;
  }

  lemma IndexGrows(line: seq<int>, n: nat, u: int)
    requires n < |line|
    ensures IndexIn(line[..n], u) < n ==> IndexIn(line[..n + 1], u) == IndexIn(line[..n], u)
    ensures IndexIn(line[..n], u) == n ==> u !in line[..n] && IndexIn(line[..n + 1], u) == if line[n] == u then n else n + 1
  {
    var i, j := IndexIn(line[..n], u), IndexIn(line[..n + 1], u);
    assert line[..n + 1] == line[..n] + [line[n]];
  }

  /** With one row a user, nobody is in line twice. */
  lemma LineOfApart(rows: seq<Row>)
    requires OneRowEach(rows)
    ensures Distinct(LineOf(rows))
  {
    var g, s := GoingRows(rows), SortBy(GoingRows(rows), ByPosition);
    GoingApart(rows);
    forall i, j | 0 <= i < j < |s| ensures s[i].userId != s[j].userId {
      assert s[i] in multiset(g) && s[j] in multiset(g);
      if s[i] == s[j] {
        DistinctCount(g, s[i]);
        CountsTwice(s, i, j);
      }
      var a :| 0 <= a < |rows| && rows[a] == s[i];
      var b :| 0 <= b < |rows| && rows[b] == s[j];
    }
  }
}
