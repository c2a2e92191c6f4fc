/** Weekly series and reminders: the next local time, and one claim for each lead. */
module PartyScheduleSeries {
  import opened Common
  import opened PartySchedule

  // ---- Weekly occurrences -----------------------------------------------------------------

  /** Around an unambiguous wall time the local date follows the instant. */
  ghost predicate DatesFollow(z: Zone) {
    forall day, clock, at :: StrictLocalTime(z, day, clock).Some? ==> DateFollows(z, day, StrictLocalTime(z, day, clock).value, at)
  }

  ghost predicate DateFollows(z: Zone, day: int, time: int, at: int) {
    (z.local(at).0 > day ==> at > time) && (z.local(at).0 < day ==> at < time)
  }

  ghost predicate SeriesTime(z: Zone, startsAt: int, week: int, time: int) { InWeek(z, startsAt, week) == Some(time) }

  /** Series times come in the order of their weeks. */
  lemma WeeksInOrder(z: Zone, startsAt: int, a: int, b: int)
    requires DatesFollow(z) && a < b && InWeek(z, startsAt, a).Some? && InWeek(z, startsAt, b).Some?
    ensures InWeek(z, startsAt, a).value < InWeek(z, startsAt, b).value
  {
    var first := InWeek(z, startsAt, a).value;
    var day, clock := z.local(startsAt).0 + 7 * b, z.local(startsAt).1;
    assert DateFollows(z, day, StrictLocalTime(z, day, clock).value, first);
  }

  /** The occurrence found is the least series time at or after `at`. */
  lemma WeeklyIsLeast(z: Zone, startsAt: int, at: int)
    requires DatesFollow(z) && WeeklyOccurrence(z, startsAt, at).Some?
    ensures var time := WeeklyOccurrence(z, startsAt, at).value;
            && time >= at && (exists week :: week >= 0 && SeriesTime(z, startsAt, week, time))
            && (forall week, other :: week >= 0 && SeriesTime(z, startsAt, week, other) && other >= at ==> other >= time)
  {
    var weeks, day, clock := ElapsedWeeks(z, startsAt, at), z.local(startsAt).0, z.local(startsAt).1;
    var time := WeeklyOccurrence(z, startsAt, at).value;
    var found := if InWeek(z, startsAt, weeks).value < at then weeks + 1 else weeks;
    assert SeriesTime(z, startsAt, found, time);
    WeekOf(z, startsAt, at);
    if found == weeks + 1 { assert DateFollows(z, day + 7 * found, time, at); }
    forall week, other | 0 <= week < found && SeriesTime(z, startsAt, week, other) ensures other < at {
      if week < weeks { assert DateFollows(z, day + 7 * week, other, at); }
    }
    forall week, other | week > found && SeriesTime(z, startsAt, week, other) ensures other > time {
      WeeksInOrder(z, startsAt, found, week);
    }
  }

  lemma WeekOf(z: Zone, startsAt: int, at: int)
    ensures var weeks, day := ElapsedWeeks(z, startsAt, at), z.local(startsAt).0;
            weeks >= 0 && z.local(at).0 < day + 7 * (weeks + 1) && (weeks > 0 ==> day + 7 * weeks <= z.local(at).0)
  {
  }

  // ---- Reminders --------------------------------------------------------------------------

  ghost predicate Apart(due: seq<Reminder>) { forall i, j :: 0 <= i < j < |due| ==> due[i] != due[j] }

  /** What a sweep does to the claims: new ones, each once and each in its window. */
  ghost predicate Sweeps(before: set<Reminder>, after: set<Reminder>, due: seq<Reminder>, at: int) {
    && Apart(due) && (forall r :: r in due ==> r !in before && InWindow(r.occurrence, r.minutes, at))
    && (forall r :: r in after <==> r in before || r in due)
  }

  lemma SweepsThen(a: set<Reminder>, b: set<Reminder>, c: set<Reminder>, due: seq<Reminder>, more: seq<Reminder>, at: int)
    requires Sweeps(a, b, due, at) && Sweeps(b, c, more, at)
    ensures Sweeps(a, c, due + more, at)
  {
    var all := due + more;
    forall i, j | 0 <= i < j < |all| ensures all[i] != all[j] {
      if i < |due| {
        var r := due[i];
        assert r in due && r in b;
        if j >= |due| { var q := more[j - |due|]; assert q in more; }
      }
    }
  }

  lemma SweepsNothing(a: set<Reminder>, at: int)
    ensures Sweeps(a, a, [], at)
  {
  }

  lemma SweepsOne(a: set<Reminder>, r: Reminder, at: int)
    requires r !in a && InWindow(r.occurrence, r.minutes, at)
    ensures Sweeps(a, a + {r}, [r], at)
  {
  }

  lemma {:induction false} LeadsSweep(claimed: set<Reminder>, id: string, occurrence: int, leads: seq<int>, at: int)
    ensures var (after, due) := ClaimLeads(claimed, id, occurrence, leads, at);
            && Sweeps(claimed, after, due, at)
            && (forall m :: m in leads && InWindow(occurrence, m, at) ==> Reminder(id, occurrence, m) in after)
    decreases |leads|
  {
    hide Sweeps;
    if leads == [] {
      SweepsNothing(claimed, at);
    } else {
      var r := Reminder(id, occurrence, leads[0]);
      if !InWindow(occurrence, leads[0], at) || r in claimed {
        LeadsSweep(claimed, id, occurrence, leads[1..], at);
        StillClaimed(claimed, ClaimLeads(claimed, id, occurrence, leads[1..], at).0, ClaimLeads(claimed, id, occurrence, leads[1..], at).1, at);
      } else {
        LeadsSweep(claimed + {r}, id, occurrence, leads[1..], at);
        var (after, due) := ClaimLeads(claimed + {r}, id, occurrence, leads[1..], at);
        StillClaimed(claimed + {r}, after, due, at);
        SweepsOne(claimed, r, at);
        SweepsThen(claimed, claimed + {r}, after, [r], due, at);
      }
    }
  }

  lemma StillClaimed(before: set<Reminder>, after: set<Reminder>, due: seq<Reminder>, at: int)
    requires Sweeps(before, after, due, at)
    ensures before <= after
  {
  }

  /** Every lead of every scheduled night in the sweep that is in its window has
      been claimed when the sweep is over. */
  ghost predicate CoversDue(store: Store, order: seq<string>, at: int, names: Names, claimed: set<Reminder>) {
    forall id, m :: id in order && id in store.nights && store.nights[id].state == Scheduled && m in store.nights[id].reminders ==>
      Occurrence(store.nights[id], at, names).Some?
      && var occurrence := Occurrence(store.nights[id], at, names).value;
      (occurrence - m <= at < occurrence ==> Reminder(id, occurrence, m) in claimed)
  }

  /** Reminders lead up to the start of a night that is held once or has not begun;
      of a series that has begun, to its first time at or after the sweep. */
  lemma NextTimeIs(night: Night, at: int, names: Names)
    ensures night.recurrence == Once || at <= night.startsAt ==> Occurrence(night, at, names) == Some(night.startsAt)
    ensures var z := names.zone(night.zone);
            night.recurrence == Weekly && night.startsAt < at && DatesFollow(z) && Occurrence(night, at, names).Some? ==>
              var time := Occurrence(night, at, names).value;
              && time >= at && (exists week :: week >= 0 && SeriesTime(z, night.startsAt, week, time))
              && (forall week, other :: week >= 0 && SeriesTime(z, night.startsAt, week, other) && other >= at ==> other >= time)
  {
    var z := names.zone(night.zone);
    if night.recurrence == Weekly && night.startsAt < at && DatesFollow(z) && Occurrence(night, at, names).Some? {
      WeeklyIsLeast(z, night.startsAt, at);
    }
  }

  lemma {:induction false} ClaimSweeps(store: Store, order: seq<string>, at: int, names: Names)
    requires Claim(store, order, at, names).Ok?
    ensures var (after, due) := Claim(store, order, at, names).value;
            Sweeps(store.reminders, after, due, at) && CoversDue(store, order, at, names, after)
    decreases |order|
  {
    hide Sweeps, Occurrence, ClaimLeads;
    if order == [] {
      SweepsNothing(store.reminders, at);
    } else if order[0] !in store.nights || store.nights[order[0]].state != Scheduled {
      ClaimSweeps(store, order[1..], at, names);
    } else {
      var night := store.nights[order[0]];
      var occurrence := Occurrence(night, at, names).value;
      LeadsSweep(store.reminders, order[0], occurrence, night.reminders, at);
      var (claimed, due) := ClaimLeads(store.reminders, order[0], occurrence, night.reminders, at);
      ClaimSweeps(store.(reminders := claimed), order[1..], at, names);
      var (after, more) := Claim(store.(reminders := claimed), order[1..], at, names).value;
      SweepsThen(store.reminders, claimed, after, due, more, at);
      StillClaimed(claimed, after, more, at);
    }
  }

  /** A sweep fails exactly when the time of one scheduled night in it does not
      exist or is ambiguous, and then it claims nothing for any night. */
  lemma {:induction false} SweepFailsWhen(store: Store, order: seq<string>, at: int, names: Names)
    ensures Claim(store, order, at, names).Err? <==>
              exists id :: id in order && id in store.nights && store.nights[id].state == Scheduled && Occurrence(store.nights[id], at, names).None?
    ensures Claim(store, order, at, names).Err? ==> After(store, ClaimReminders(order), at, names) == store
    decreases |order|
  {
    hide Occurrence, ClaimLeads;
    if order != [] {
      if order[0] !in store.nights || store.nights[order[0]].state != Scheduled {
        SweepFailsWhen(store, order[1..], at, names);
      } else {
        var night := store.nights[order[0]];
        if Occurrence(night, at, names).Some? {
          var claimed := ClaimLeads(store.reminders, order[0], Occurrence(night, at, names).value, night.reminders, at).0;
          SweepFailsWhen(store.(reminders := claimed), order[1..], at, names);
        } else {
          assert order[0] in order;
        }
      }
    }
  }

  /** What a command hands out to be sent. */
  function DueBy(store: Store, c: Command, now: int, names: Names): seq<Reminder> {
    if c.ClaimReminders? && Claim(store, c.order, now, names).Ok? then Claim(store, c.order, now, names).value.1 else []
  }

  lemma RemindersGrow(store: Store, c: Command, now: int, names: Names)
    ensures Sweeps(store.reminders, After(store, c, now, names).reminders, DueBy(store, c, now, names), now)
  {
    hide Sweeps, InWeek, Claim;
    SweepsNothing(store.reminders, now);
    if c.ClaimReminders? && Claim(store, c.order, now, names).Ok? { ClaimSweeps(store, c.order, now, names); }
  }

  lemma {:induction false} ClaimsStay(run: seq<Timed>, n: nat, names: Names)
    requires n <= |run|
    ensures RunAll(run[..n], names).reminders <= RunAll(run, names).reminders
    decreases |run|
  {
    hide After;
    if n == |run| {
      assert run[..n] == run;
    } else {
      var before, last := run[..|run| - 1], run[|run| - 1];
      assert before[..n] == run[..n];
      ClaimsStay(before, n, names);
      RemindersGrow(RunAll(before, names), last.command, last.now, names);
      StillClaimed(RunAll(before, names).reminders, RunAll(run, names).reminders, DueBy(RunAll(before, names), last.command, last.now, names), last.now);
    }
  }

  /** What step i of a run hands out. */
  function DueAt(run: seq<Timed>, i: nat, names: Names): seq<Reminder>
    requires i < |run|
  {
    DueBy(RunAll(run[..i], names), run[i].command, run[i].now, names)
  }

  /** Over any run of a schedule a reminder is handed out at most once, and only
      between its lead and the start. */
  lemma RemindersOnce(run: seq<Timed>, names: Names, i: nat, j: nat, a: nat, b: nat)
    requires i < |run| && j < |run| && a < |DueAt(run, i, names)| && b < |DueAt(run, j, names)|
    requires DueAt(run, i, names)[a] == DueAt(run, j, names)[b]
    ensures i == j && a == b
    ensures var r := DueAt(run, i, names)[a]; r.occurrence - r.minutes <= run[i].now < r.occurrence
  {
    if i > j {
      RemindersOnce(run, names, j, i, b, a);
    } else {
      var r := DueAt(run, i, names)[a];
      assert r in DueAt(run, i, names) && r in DueAt(run, j, names);
      RemindersGrow(RunAll(run[..i], names), run[i].command, run[i].now, names);
      RemindersGrow(RunAll(run[..j], names), run[j].command, run[j].now, names);
      if i < j {
        Handed(run, names, i, r);
        assert run[..j][..i + 1] == run[..i + 1];
        ClaimsStay(run[..j], i + 1, names);
      }
    }
  }

  lemma Handed(run: seq<Timed>, names: Names, i: nat, r: Reminder)
    requires i < |run| && r in DueAt(run, i, names)
    ensures r in RunAll(run[..i + 1], names).reminders
  {
    RemindersGrow(RunAll(run[..i], names), run[i].command, run[i].now, names);
    var step := run[..i + 1];
    assert step[..|step| - 1] == run[..i] && step[|step| - 1] == run[i];
  }

  // ---- One night can stop every reminder --------------------------------------------------

  /** A zone that is UTC until an hour is skipped just before 3:00 on day 7. */
  function SkippingZone(): Zone {
    Zone(t => if t < 7 * 1440 + 120 then (t / 1440, t % 1440) else ((t + 60) / 1440, (t + 60) % 1440),
         (day, clock, fold) => day * 1440 + clock - (if fold == 0 then 0 else 60))
  }

  lemma OneLead(none: set<Reminder>, id: string, occurrence: int, minutes: int, at: int)
    requires InWindow(occurrence, minutes, at) && none == {}
    ensures var r := Reminder(id, occurrence, minutes); ClaimLeads(none, id, occurrence, [minutes], at) == ({r}, [r])
  {
    var r, leads := Reminder(id, occurrence, minutes), [minutes];
    assert leads[0] == minutes && leads[1..] == [] && r !in none;
    var (rest, due) := ClaimLeads(none + {r}, id, occurrence, leads[1..], at);
    assert rest == {r} && due == [];
    assert [r] + due == [r] && ClaimLeads(none, id, occurrence, leads, at) == (rest, [r] + due);
  }

  const WEEKLY_NIGHT := Night("w", 1, 1, "weekly", 150, "America/New_York", Weekly, 10, [60], Scheduled, None, None, None)

  const SINGLE_NIGHT := Night("o", 2, 2, "once", 3363, "America/New_York", Once, 10, [60], Scheduled, None, None, None)

  const TWO_NIGHTS := Store(map["w" := WEEKLY_NIGHT, "o" := SINGLE_NIGHT], map[], {})

  lemma NextWeekIsSkipped()
    ensures WeeklyOccurrence(SkippingZone(), 150, 3333) == None
  {
    var z := SkippingZone();
    assert z.local(150) == (0, 150) && z.local(3333) == (2, 453);
    assert z.reading(7, 150, 0) == 10230 && z.local(10230) == (7, 210);
    assert z.reading(7, 150, 1) == 10170 && z.local(10170) == (7, 90);
    assert !Reads(z, 7, 150, 0) && !Reads(z, 7, 150, 1);
    assert StrictLocalTime(z, 7, 150) == None;
    assert InWeek(z, 150, 0) == Some(150);
    assert z.local(150).0 + 7 * 1 == 7;
  }

  /** A weekly night at 2:30 whose next date skips that hour raises; another
      guild's one-time night in its window then gets no reminder. */
  lemma OneNightStopsAllReminders(names: Names)
    requires names.zone("America/New_York") == SkippingZone()
    ensures After(TWO_NIGHTS, ClaimReminders(["o", "w"]), 3333, names) == TWO_NIGHTS
    ensures Claim(TWO_NIGHTS, ["o"], 3333, names) == Ok(({Reminder("o", 3363, 60)}, [Reminder("o", 3363, 60)]))
  {
    NextWeekIsSkipped();
    hide WeeklyOccurrence, SkippingZone, ClaimLeads;
    assert "w" in ["o", "w"] && TWO_NIGHTS.nights["w"] == WEEKLY_NIGHT && TWO_NIGHTS.nights["o"] == SINGLE_NIGHT;
    assert Occurrence(WEEKLY_NIGHT, 3333, names).None?;
    SweepFailsWhen(TWO_NIGHTS, ["o", "w"], 3333, names);
    assert Claim(TWO_NIGHTS, ["o", "w"], 3333, names).Err?;
    OneLead({}, "o", 3363, 60, 3333);
    var r := Reminder("o", 3363, 60);
    assert ["o"][1..] == [] && [r] + [] == [r];
    assert Claim(TWO_NIGHTS.(reminders := {r}), ["o"][1..], 3333, names) == Ok(({r}, []));
  }

  // ---- Conversion -------------------------------------------------------------------------

  /** Converting again, for the same lobby, changes nothing. */
  lemma ConvertingTwiceIsOnce(store: Store, id: string, lobbyId: string, now: int, later: int, names: Names)
    requires Convert(store, id, lobbyId, names).Ok? && (forall t :: names.nextId(id, t) != id)
    ensures var next := After(store, MarkConverted(id, lobbyId), now, names);
            After(next, MarkConverted(id, lobbyId), later, names) == next && Convert(next, id, lobbyId, names).Ok?
  {
    hide InWeek;
    var next := Convert(store, id, lobbyId, names).value;
    assert next.nights[id := next.nights[id]] == next.nights;
  }

  /** The next night of a series: a week later by the local calendar, at the same
      local time, with the card; the converted one no longer has it. */
  lemma SuccessorKeepsLocalTime(store: Store, id: string, lobbyId: string, names: Names)
    requires Convert(store, id, lobbyId, names).Ok? && store.nights[id].recurrence == Weekly && (forall t :: names.nextId(id, t) != id)
    ensures var night, next := store.nights[id], Convert(store, id, lobbyId, names).value;
            var z := names.zone(night.zone);
            && InWeek(z, night.startsAt, 1).Some?
            && (var nextId := names.nextId(id, InWeek(z, night.startsAt, 1).value);
            && nextId in next.nights && next.nights[id].state == Converted && next.nights[id].delivery == None
            && (nextId !in store.nights ==>
                  && z.local(next.nights[nextId].startsAt) == (z.local(night.startsAt).0 + 7, z.local(night.startsAt).1)
                  && next.nights[nextId].state == Scheduled && next.nights[nextId].delivery == night.delivery
                  && next.nights[nextId].predecessor == Some(id) && RowsOf(next, nextId) == RowsOf(store, nextId)))
  {
    var night := store.nights[id];
    var next := InWeek(names.zone(night.zone), night.startsAt, 1);
    hide InWeek;
    assert names.nextId(id, next.value) != id;
  }

  /** A night that has a lobby keeps it. */
  lemma LobbyStays(store: Store, c: Command, now: int, names: Names, id: string)
    requires id in store.nights && store.nights[id].lobbyId.Some? && store.nights[id].lobbyId.value != ""
    ensures var next := After(store, c, now, names); id in next.nights && next.nights[id].lobbyId == store.nights[id].lobbyId
  {
    hide InWeek, Claim, RsvpRows, MaybeRows, CancelRows;
  }

  lemma {:induction false} ConvertedOnce(run: seq<Timed>, more: seq<Timed>, names: Names, id: string)
    requires id in RunAll(run, names).nights && RunAll(run, names).nights[id].lobbyId.Some? && RunAll(run, names).nights[id].lobbyId.value != ""
    ensures id in RunAll(run + more, names).nights && RunAll(run + more, names).nights[id].lobbyId == RunAll(run, names).nights[id].lobbyId
    decreases |more|
  {
    hide After;
    if more == [] {
      assert run + more == run;
    } else {
      var last := more[|more| - 1];
      assert (run + more)[..|run + more| - 1] == run + more[..|more| - 1];
      ConvertedOnce(run, more[..|more| - 1], names, id);
      LobbyStays(RunAll(run + more[..|more| - 1], names), last.command, last.now, names, id);
    }
  }
}
