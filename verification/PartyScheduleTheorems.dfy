/** Every run of a schedule: the line of a night, and a series that moves on. */
module PartyScheduleTheorems {
  import opened Common
  import opened PartySchedule
  import opened PartyScheduleLine

  // ---- The line of every night ------------------------------------------------------------

  ghost predicate NightInLine(store: Store, id: string) {
    id in store.nights && Keeps(RowsOf(store, id), LineOf(RowsOf(store, id)), store.nights[id].capacity)
  }

  ghost predicate AllInLine(store: Store) {
    && (forall id :: id in store.nights ==> NightInLine(store, id))
    && (forall id :: id in store.rsvps ==> id in store.nights)
  }

  lemma KeepsIsItsLine(rows: seq<Row>, line: seq<int>, capacity: int)
    requires Keeps(rows, line, capacity)
    ensures LineOf(rows) == line
  {
    LineIs(rows, line);
  }

  /** The line after a command: the reference of a night. */
  function LineAfter(line: seq<int>, c: Command, id: string): seq<int> {
    match c
    case Rsvp(e, u, _) => if e == id then JoinLine(line, u) else line
    case RsvpMaybe(e, u, _) => if e == id then LeaveLine(line, u) else line
    case CancelRsvp(e, u) => if e == id then LeaveLine(line, u) else line
    case _ => line
  }

  /** The store is as it was about this night's rows and capacity. */
  lemma SameInLine(store: Store, next: Store, id: string)
    requires NightInLine(store, id) && id in next.nights && next.nights[id].capacity == store.nights[id].capacity
    requires RowsOf(next, id) == RowsOf(store, id)
    ensures NightInLine(next, id)
  {
  }

  lemma RsvpMoves(store: Store, c: Command, now: int)
    requires (c.Rsvp? || c.RsvpMaybe? || c.CancelRsvp?) && RsvpChange(store, c, now).Ok? && NightInLine(store, c.eventId)
    ensures var next := RsvpChange(store, c, now).value;
            && next == store.(rsvps := next.rsvps) && next.rsvps - {c.eventId} == store.rsvps - {c.eventId}
            && Keeps(RowsOf(next, c.eventId), LineAfter(LineOf(RowsOf(store, c.eventId)), c, c.eventId), store.nights[c.eventId].capacity)
  {
    hide Keeps, RsvpRows, MaybeRows, CancelRows, LineOf;
    var rows, capacity := RowsOf(store, c.eventId), store.nights[c.eventId].capacity;
    var line := LineOf(rows);
    match c {
      case Rsvp(_, u, p) => RsvpKeeps(rows, line, capacity, u, p, now);
      case RsvpMaybe(_, u, p) => MaybeKeeps(rows, line, capacity, u, p, now);
      case CancelRsvp(_, u) =>
        CancelKeeps(rows, line, capacity, u);
        if RowOf(rows, u) == |rows| { AbsentIsNotInLine(rows, line, capacity, u); }
    }
    RowsOfOthers(store, RsvpChange(store, c, now).value, c.eventId);
  }

  lemma AbsentIsNotInLine(rows: seq<Row>, line: seq<int>, capacity: int, u: int)
    requires Keeps(rows, line, capacity) && RowOf(rows, u) == |rows|
    ensures LeaveLine(line, u) == line
  {
    assert u in line <==> IsGoing(rows, u);
    IndexInside(line, u);
  }

  lemma RowsOfOthers(store: Store, next: Store, id: string)
    requires next.rsvps == store.rsvps || (id in next.rsvps && next.rsvps == store.rsvps[id := next.rsvps[id]])
    ensures next.rsvps - {id} == store.rsvps - {id}
    ensures forall k :: k != id ==> RowsOf(next, k) == RowsOf(store, k)
  {
  }

  lemma NightsStay(store: Store, c: Command, now: int, names: Names)
    requires !(c.Rsvp? || c.RsvpMaybe? || c.CancelRsvp?)
    ensures var next := After(store, c, now, names);
            next.rsvps == store.rsvps && forall id :: id in store.nights ==> id in next.nights && next.nights[id].capacity == store.nights[id].capacity
  {
    hide Claim, WeeklyOccurrence, InWeek;
  }

  /** A night that appears has nobody in its line. */
  lemma NewNightInLine(store: Store, id: string)
    requires id in store.nights && id !in store.rsvps
    ensures NightInLine(store, id)
  {
    assert LineOf([]) == [];
  }

  lemma OtherNight(store: Store, next: Store, id: string, k: string)
    requires next.rsvps - {id} == store.rsvps - {id} && k != id
    ensures RowsOf(next, k) == RowsOf(store, k) && (k in next.rsvps <==> k in store.rsvps)
  {
    assert k in next.rsvps <==> k in next.rsvps - {id};
    assert k in store.rsvps <==> k in store.rsvps - {id};
    if k in next.rsvps { assert (next.rsvps - {id})[k] == next.rsvps[k] && (store.rsvps - {id})[k] == store.rsvps[k]; }
  }

  /** One command moves the lines of the nights as the reference does, when it is
      accepted, and not at all otherwise. */
  lemma LinesMove(store: Store, c: Command, now: int, names: Names)
    requires AllInLine(store)
    ensures AllInLine(After(store, c, now, names))
    ensures forall id :: id in store.nights ==>
              LineOf(RowsOf(After(store, c, now, names), id)) ==
                if Exec(store, c, now, names).Ok? then LineAfter(LineOf(RowsOf(store, id)), c, id) else LineOf(RowsOf(store, id))
  {
    hide Keeps, LineOf, NightInLine;
    var next := After(store, c, now, names);
    if (c.Rsvp? || c.RsvpMaybe? || c.CancelRsvp?) {
      hide After;
      if RsvpChange(store, c, now).Ok? {
        assert NightInLine(store, c.eventId);
        RsvpMoves(store, c, now);
        assert next == RsvpChange(store, c, now).value by { AfterRsvp(store, c, now, names); }
        KeepsIsItsLine(RowsOf(next, c.eventId), LineAfter(LineOf(RowsOf(store, c.eventId)), c, c.eventId), store.nights[c.eventId].capacity);
        forall id | id in next.nights ensures NightInLine(next, id) {
          if id != c.eventId { OtherNight(store, next, c.eventId, id); SameInLine(store, next, id); }
          else { assert NightInLine(next, id) by { NightIs(next, id); } }
        }
        forall id | id in store.nights && id != c.eventId ensures RowsOf(next, id) == RowsOf(store, id) { OtherNight(store, next, c.eventId, id); }
        forall id | id in next.rsvps ensures id in next.nights { if id != c.eventId { OtherNight(store, next, c.eventId, id); } }
      } else {
        AfterRsvp(store, c, now, names);
      }
    } else {
      NightsStay(store, c, now, names);
      forall id | id in next.nights ensures NightInLine(next, id) {
        if id in store.nights { SameInLine(store, next, id); } else { NewNightInLine(next, id); }
      }
    }
  }

  lemma NightIs(store: Store, id: string)
    requires id in store.nights && Keeps(RowsOf(store, id), LineOf(RowsOf(store, id)), store.nights[id].capacity)
    ensures NightInLine(store, id)
  {
  }

  lemma AfterRsvp(store: Store, c: Command, now: int, names: Names)
    requires c.Rsvp? || c.RsvpMaybe? || c.CancelRsvp?
    ensures After(store, c, now, names) == if RsvpChange(store, c, now).Ok? then RsvpChange(store, c, now).value else store
    ensures Exec(store, c, now, names).Ok? <==> RsvpChange(store, c, now).Ok?
  {
  }

  lemma {:induction false} RunsAreInLine(run: seq<Timed>, names: Names)
    ensures AllInLine(RunAll(run, names))
  {
    hide After, AllInLine;
    if run == [] {
      EmptyInLine();
    } else {
      RunsAreInLine(run[..|run| - 1], names);
      LinesMove(RunAll(run[..|run| - 1], names), run[|run| - 1].command, run[|run| - 1].now, names);
    }
  }

  lemma EmptyInLine()
    ensures AllInLine(EMPTY_STORE)
  {
  }

  /** In every run the going positions of a night are exactly 1..n, a going player
      is waitlisted exactly behind the capacity, and a Maybe holds no position. */
  lemma PositionsAreTheLine(run: seq<Timed>, names: Names, id: string)
    requires id in RunAll(run, names).nights
    ensures var rows, capacity := RowsOf(RunAll(run, names), id), RunAll(run, names).nights[id].capacity;
            var line := LineOf(rows);
            && OneRowEach(rows) && Distinct(line)
            && (forall i :: 0 <= i < |line| ==> IsGoing(rows, line[i]) && PositionOf(rows, line[i]) == i + 1)
            && (forall r :: r in rows && r.going ==> r.userId in line && (r.waitlisted <==> r.position > capacity))
            && (forall r :: r in rows && !r.going ==> r.position == 0 && !r.waitlisted)
  {
    RunsAreInLine(run, names);
    hide RunAll, LineOf;
    var rows, capacity := RowsOf(RunAll(run, names), id), RunAll(run, names).nights[id].capacity;
    var line := LineOf(rows);
    assert NightInLine(RunAll(run, names), id);
    forall i | 0 <= i < |line| ensures IsGoing(rows, line[i]) && PositionOf(rows, line[i]) == i + 1 {
      var u := line[i];
      assert u in line;
      PlaceInLine(rows, line, capacity, i);
    }
    forall r | r in rows && r.going ensures r.userId in line { assert GoodRow(r, line, capacity) && line[r.position - 1] == r.userId; }
  }

  // ---- Nobody falls back ------------------------------------------------------------------

  predicate TakesAway(c: Command, id: string, u: int) { (c.RsvpMaybe? || c.CancelRsvp?) && c.eventId == id && c.userId == u }

  /** A place in line never grows by what others do, and two players keep their order. */
  lemma PlacesOnlyShrink(line: seq<int>, c: Command, id: string, u: int)
    requires Distinct(line) && u in line && !TakesAway(c, id, u)
    ensures var after := LineAfter(line, c, id);
            && Distinct(after) && u in after && IndexIn(after, u) <= IndexIn(line, u)
            && forall v :: v in line && !TakesAway(c, id, v) && IndexIn(line, u) < IndexIn(line, v) ==>
                 v in after && IndexIn(after, u) < IndexIn(after, v)
  {
    var after := LineAfter(line, c, id);
    IndexInside(line, u);
    if after != line {
      if c.Rsvp? { JoinedPlaces(line, c.userId); }
      else {
        LeaveIs(line, c.userId);
        LeftPlace(line, c.userId, u);
        forall v | v in line && !TakesAway(c, id, v) ensures v in after && IndexIn(after, v) == IndexIn(line, v) - (if IndexIn(line, v) > IndexIn(line, c.userId) then 1 else 0) {
          LeftPlace(line, c.userId, v);
        }
      }
    }
  }

  lemma JoinedPlaces(line: seq<int>, x: int)
    requires Distinct(line)
    ensures Distinct(JoinLine(line, x)) && forall v :: v in line ==> v in JoinLine(line, x) && IndexIn(JoinLine(line, x), v) == IndexIn(line, v)
  {
    forall v | v in line ensures v in JoinLine(line, x) && IndexIn(JoinLine(line, x), v) == IndexIn(line, v) {
      IndexInside(line, v);
      assert JoinLine(line, x)[IndexIn(line, v)] == v;
      if x !in line { DistinctMore(line, x); }
      IndexIs(JoinLine(line, x), IndexIn(line, v));
    }
    if x !in line { DistinctMore(line, x); }
  }

  lemma DistinctMore(line: seq<int>, x: int)
    requires Distinct(line) && x !in line
    ensures Distinct(line + [x])
  {
  }

  lemma LeftPlace(line: seq<int>, x: int, v: int)
    requires Distinct(line) && v in line && v != x
    ensures v in LeaveLine(line, x)
    ensures IndexIn(LeaveLine(line, x), v) == IndexIn(line, v) - (if IndexIn(line, v) > IndexIn(line, x) then 1 else 0)
  {
    LeaveIs(line, x);
    IndexInside(line, v);
    var i, k, rest := IndexIn(line, v), IndexIn(line, x), LeaveLine(line, x);
    if k < |line| { assert i != k; }
    var j := if i > k then i - 1 else i;
    assert rest[j] == v;
    IndexIs(rest, j);
  }

  /** Whatever happens to a schedule, a player who stays in line keeps a place that
      never grows. */
  lemma {:induction false} NobodyFallsBack(run: seq<Timed>, more: seq<Timed>, names: Names, id: string, u: int)
    requires id in RunAll(run, names).nights && u in LineOf(RowsOf(RunAll(run, names), id))
    requires forall i :: 0 <= i < |more| ==> !TakesAway(more[i].command, id, u)
    ensures id in RunAll(run + more, names).nights && u in LineOf(RowsOf(RunAll(run + more, names), id))
    ensures IndexIn(LineOf(RowsOf(RunAll(run + more, names), id)), u) <= IndexIn(LineOf(RowsOf(RunAll(run, names), id)), u)
    decreases |more|
  {
    hide After, LineOf, IndexIn, AllInLine;
    if more == [] {
      assert run + more == run;
    } else {
      var last := more[|more| - 1];
      var before := run + more[..|more| - 1];
      assert (run + more)[..|run + more| - 1] == before;
      NobodyFallsBack(run, more[..|more| - 1], names, id, u);
      RunsAreInLine(before, names);
      LinesMove(RunAll(before, names), last.command, last.now, names);
      NightsNeverGo(RunAll(before, names), last.command, last.now, names, id);
      LineApart(RunAll(before, names), id);
      PlacesOnlyShrink(LineOf(RowsOf(RunAll(before, names), id)), last.command, id, u);
    }
  }

  lemma LineApart(store: Store, id: string)
    requires AllInLine(store) && id in store.nights
    ensures Distinct(LineOf(RowsOf(store, id)))
  {
    hide LineOf;
    assert NightInLine(store, id);
  }

  lemma NightsNeverGo(store: Store, c: Command, now: int, names: Names, id: string)
    requires id in store.nights
    ensures id in After(store, c, now, names).nights
  {
    hide Claim, InWeek, RsvpRows, MaybeRows, CancelRows;
  }

  // ---- Seats ------------------------------------------------------------------------------

  /** _decode's two lists: the going rows on this side of the waitlist, by position. */
  function OnSide(sorted: seq<Row>, waitlisted: bool): seq<Row> {
    if sorted == [] then []
    else
      var n := |sorted| - 1;
      if sorted[n].going && sorted[n].waitlisted == waitlisted then OnSide(sorted[..n], waitlisted) + [sorted[n]]
      else OnSide(sorted[..n], waitlisted)
  }

  function SeatedRows(rows: seq<Row>): seq<Row> { OnSide(SortBy(rows, ByPosition), false) }

  function WaitingRows(rows: seq<Row>): seq<Row> { OnSide(SortBy(rows, ByPosition), true) }

  lemma {:induction false} OnSideIsOrdered(sorted: seq<Row>, side: bool)
    requires Sorted(sorted, ByPosition)
    ensures Sorted(OnSide(sorted, side), ByPosition)
    ensures forall x :: x in OnSide(sorted, side) <==> x in sorted && x.going && x.waitlisted == side
    ensures (forall i, j :: 0 <= i < j < |sorted| ==> sorted[i] != sorted[j]) ==>
              forall i, j :: 0 <= i < j < |OnSide(sorted, side)| ==> OnSide(sorted, side)[i] != OnSide(sorted, side)[j]
  {
    hide LexLeq;
    if sorted != [] {
      var n := |sorted| - 1;
      OnSideIsOrdered(sorted[..n], side);
      assert sorted == sorted[..n] + [sorted[n]];
      var r := OnSide(sorted[..n], side);
      forall i | 0 <= i < |r| ensures LexLeq(ByPosition(r[i]), ByPosition(sorted[n])) {
        var x := r[i];
        assert x in r;
        var k :| 0 <= k < n && sorted[k] == x;
      }
    }
  }

  /** The first players in line, up to the capacity, are seated; the others wait,
      in the line's order. */
  lemma SeatsGoDownTheLine(rows: seq<Row>, line: seq<int>, capacity: int)
    requires Keeps(rows, line, capacity) && capacity >= 0
    ensures var seats := Min(capacity, |line|);
            Users(SeatedRows(rows)) == line[..seats] && Users(WaitingRows(rows)) == line[seats..]
  {
    var seats := Min(capacity, |line|);
    SideIs(rows, line, line[..seats], capacity, false);
    SideIs(rows, line, line[seats..], capacity, true);
  }

  lemma SideIs(rows: seq<Row>, line: seq<int>, part: seq<int>, capacity: int, side: bool)
    requires Keeps(rows, line, capacity) && capacity >= 0 && part == if side then line[Min(capacity, |line|)..] else line[..Min(capacity, |line|)]
    ensures Users(OnSide(SortBy(rows, ByPosition), side)) == part
  {
    hide SortBy;
    var sorted := SortBy(rows, ByPosition);
    var b := OnSide(sorted, side);
    var seats := Min(capacity, |line|);
    var lo, hi := if side then seats else 0, if side then |line| else seats;
    SortedApart(rows, sorted);
    OnSideIsOrdered(sorted, side);
    assert GoingAre(rows, line);
    var a := Stretch(rows, line, lo, hi);
    StretchIs(rows, line, capacity, lo, hi);
    ByPositions(a, lo);
    forall x ensures x in a <==> x in b {
      assert (x in sorted <==> x in multiset(sorted)) && (x in rows <==> x in multiset(rows));
      if x in rows && x.going {
        GoodPlace(rows, line, capacity, x);
        if lo < x.position <= hi { StretchHas(rows, line, capacity, lo, hi, x); }
      }
    }
    hide Keeps, OnSide, Stretch, LexLess;
    SameRows(a, b);
    SortedUnique(a, b, ByPosition);
  }

  lemma SameRows(a: seq<Row>, b: seq<Row>)
    requires (forall i, j :: 0 <= i < j < |a| ==> a[i] != a[j]) && (forall i, j :: 0 <= i < j < |b| ==> b[i] != b[j])
    requires forall x :: x in a <==> x in b
    ensures multiset(a) == multiset(b)
  {
    forall x ensures multiset(a)[x] == multiset(b)[x] {
      DistinctCount(a, x);
      DistinctCount(b, x);
    }
  }

  lemma SortedApart(rows: seq<Row>, sorted: seq<Row>)
    requires OneRowEach(rows) && multiset(sorted) == multiset(rows)
    ensures forall i, j :: 0 <= i < j < |sorted| ==> sorted[i] != sorted[j]
  {
    forall i, j | 0 <= i < j < |sorted| ensures sorted[i] != sorted[j] {
      DistinctCount(rows, sorted[i]);
      if sorted[i] == sorted[j] { CountsTwice(sorted, i, j); }
    }
  }

  lemma GoodPlace(rows: seq<Row>, line: seq<int>, capacity: int, x: Row)
    requires Keeps(rows, line, capacity) && x in rows && x.going
    ensures 1 <= x.position <= |line| && line[x.position - 1] == x.userId && (x.waitlisted <==> x.position > capacity)
  {
    assert GoodRow(x, line, capacity);
  }

  lemma ByPositions(a: seq<Row>, from: int)
    requires forall i :: 0 <= i < |a| ==> a[i].position == from + i + 1
    ensures StrictlySorted(a, ByPosition) && forall i, j :: 0 <= i < j < |a| ==> a[i] != a[j]
  {
    forall i, j | 0 <= i < j < |a| ensures LexLess(ByPosition(a[i]), ByPosition(a[j])) { LexSingle(a[i].position, a[j].position); }
  }

  lemma CountsTwice<T>(s: seq<T>, i: nat, j: nat)
    requires i < j < |s| && s[i] == s[j]
    ensures multiset(s)[s[i]] >= 2
  {
    assert s == s[..j] + ([s[j]] + s[j + 1..]);
    assert s[..j][i] == s[i];
    assert s[i] in s[..j];
  }

  /** The rows of a stretch of the line, in its order. */
  function Stretch(rows: seq<Row>, line: seq<int>, lo: nat, hi: nat): (r: seq<Row>)
    requires (forall u :: u in line ==> IsGoing(rows, u)) && lo <= hi <= |line|
    ensures |r| == hi - lo && forall i :: 0 <= i < |r| ==> r[i] == RowAt(rows, line, lo + i)
  {
    seq(hi - lo, i requires 0 <= i < hi - lo => RowAt(rows, line, lo + i))
  }

  lemma StretchIs(rows: seq<Row>, line: seq<int>, capacity: int, lo: nat, hi: nat)
    requires Keeps(rows, line, capacity) && lo <= hi <= |line|
    ensures var a := Stretch(rows, line, lo, hi);
            && Users(a) == line[lo..hi] && (forall i :: 0 <= i < |a| ==> a[i].position == lo + i + 1)
            && forall x :: x in a ==> x in rows && x.going && lo < x.position <= hi
  {
    var a := Stretch(rows, line, lo, hi);
    forall i | 0 <= i < |a| ensures a[i].position == lo + i + 1 && a[i] in rows && a[i].going && a[i].userId == line[lo + i] {
      PlaceInLine(rows, line, capacity, lo + i);
      assert a[i] == RowAt(rows, line, lo + i);
    }
  }

  lemma StretchHas(rows: seq<Row>, line: seq<int>, capacity: int, lo: nat, hi: nat, x: Row)
    requires Keeps(rows, line, capacity) && lo <= hi <= |line| && x in rows && x.going && lo < x.position <= hi
    ensures x in Stretch(rows, line, lo, hi)
  {
    GoodPlace(rows, line, capacity, x);
    var k :| 0 <= k < |rows| && rows[k] == x;
    RowIs(rows, k);
    hide Keeps, GoodRow;
    assert Stretch(rows, line, lo, hi)[x.position - 1 - lo] == x;
  }
}
