/** The RSVP rows of a night refine one line: first come, first served. */
module PartyScheduleLine {
  import opened Common
  import opened PartySchedule
  import PL = PartyLobby

  // ---- The reference: a line of users -----------------------------------------------------

  function JoinLine(line: seq<int>, userId: int): seq<int> { if userId in line then line else line + [userId] }

  function LeaveLine(line: seq<int>, userId: int): seq<int> {
    var i := IndexIn(line, userId);
    if i < |line| then line[..i] + line[i + 1..] else line
  }

  // ---- Rows that spell a line -------------------------------------------------------------

  ghost predicate OneRowEach(rows: seq<Row>) { forall i, j :: 0 <= i < j < |rows| ==> rows[i].userId != rows[j].userId }

  ghost predicate GoingAre(rows: seq<Row>, line: seq<int>) { forall u :: u in line <==> IsGoing(rows, u) }

  function PositionOf(rows: seq<Row>, u: int): int { if RowOf(rows, u) < |rows| then rows[RowOf(rows, u)].position else 0 }

  ghost predicate InOrder(rows: seq<Row>, line: seq<int>) {
    forall i, j :: 0 <= i < j < |line| ==> PositionOf(rows, line[i]) < PositionOf(rows, line[j])
  }

  /** The going users, by position, are the line. */
  ghost predicate Spells(rows: seq<Row>, line: seq<int>) {
    OneRowEach(rows) && Distinct(line) && GoingAre(rows, line) && InOrder(rows, line)
  }

  ghost predicate GoodRow(r: Row, line: seq<int>, capacity: int) {
    if r.going then 1 <= r.position <= |line| && line[r.position - 1] == r.userId && (r.waitlisted <==> r.position > capacity)
    else r.position == 0 && !r.waitlisted
  }

  /** Positions are 1..n along the line, the waitlist starts behind the capacity,
      and a Maybe holds neither. */
  ghost predicate Keeps(rows: seq<Row>, line: seq<int>, capacity: int) {
    Spells(rows, line) && forall r :: r in rows ==> GoodRow(r, line, capacity)
  }

  lemma RowIs(rows: seq<Row>, i: nat)
    requires OneRowEach(rows) && i < |rows|
    ensures RowOf(rows, rows[i].userId) == i
  {
  }

  lemma IndexIs(line: seq<int>, i: nat)
    requires Distinct(line) && i < |line|
    ensures IndexIn(line, line[i]) == i
  {
  }

  lemma IndexInside(line: seq<int>, u: int)
    ensures u in line <==> IndexIn(line, u) < |line|
  {
  }

  // ---- Reading a line back ----------------------------------------------------------------

  lemma {:induction false} GoingApart(rows: seq<Row>)
    requires OneRowEach(rows)
    ensures forall i, j :: 0 <= i < j < |GoingRows(rows)| ==> GoingRows(rows)[i] != GoingRows(rows)[j]
  {
    if rows != [] {
      GoingApart(rows[1..]);
      var g := GoingRows(rows);
      if rows[0].going {
        forall i, j | 0 <= i < j < |g| ensures g[i] != g[j] {
          if i == 0 {
            var m := g[j];
            assert m in GoingRows(rows[1..]) && m in rows[1..];
            var k :| 0 <= k < |rows[1..]| && rows[1..][k] == m;
            assert rows[k + 1].userId != rows[0].userId;
          }
        }
      }
    }
  }

  function RowAt(rows: seq<Row>, line: seq<int>, i: nat): (r: Row)
    requires forall u :: u in line ==> IsGoing(rows, u)
    requires i < |line|
    ensures r.userId == line[i] && r in rows && r.going && r.position == PositionOf(rows, line[i])
  {
    var u := line[i];
    assert u in line && IsGoing(rows, u);
    rows[RowOf(rows, u)]
  }

  function InLine(rows: seq<Row>, line: seq<int>): (r: seq<Row>)
    requires forall u :: u in line ==> IsGoing(rows, u)
    ensures |r| == |line| && forall i :: 0 <= i < |line| ==> r[i] == RowAt(rows, line, i)
  {
    seq(|line|, i requires 0 <= i < |line| => RowAt(rows, line, i))
  }

  lemma InLineAre(rows: seq<Row>, line: seq<int>)
    requires Spells(rows, line)
    ensures forall x :: x in InLine(rows, line) <==> x in GoingRows(rows)
  {
    var a := InLine(rows, line);
    forall x ensures x in a <==> x in GoingRows(rows) {
      if x in a {
        var i :| 0 <= i < |a| && a[i] == x;
        var u := line[i];
        assert u in line && IsGoing(rows, u);
      }
      if x in GoingRows(rows) {
        var i :| 0 <= i < |rows| && rows[i] == x;
        RowIs(rows, i);
        assert IsGoing(rows, x.userId);
        var k :| 0 <= k < |line| && line[k] == x.userId;
        assert a[k] == x;
      }
    }
  }

  /** Sorting the going rows by position gives the line they spell, and nothing else. */
  lemma LineIs(rows: seq<Row>, line: seq<int>)
    requires Spells(rows, line)
    ensures LineOf(rows) == line && |GoingRows(rows)| == |line|
  {
    var a, g := InLine(rows, line), GoingRows(rows);
    InLineAre(rows, line);
    GoingApart(rows);
    forall i, j | 0 <= i < j < |a| ensures a[i] != a[j] && LexLess(ByPosition(a[i]), ByPosition(a[j])) {
      assert PositionOf(rows, line[i]) < PositionOf(rows, line[j]);
      LexSingle(a[i].position, a[j].position);
    }
    forall x ensures multiset(a)[x] == multiset(g)[x] {
      DistinctCount(a, x);
      DistinctCount(g, x);
    }
    assert multiset(a) == multiset(g);
    assert |a| == |multiset(a)| && |g| == |multiset(g)|;
    SortedUnique(a, SortBy(g, ByPosition), ByPosition);
    assert Users(a) == line;
  }

  // ---- Leaving the line -------------------------------------------------------------------

  lemma LeaveIs(line: seq<int>, u: int)
    requires Distinct(line)
    ensures Distinct(LeaveLine(line, u))
    ensures forall v :: v in LeaveLine(line, u) <==> v in line && v != u
  {
    var i, rest := IndexIn(line, u), LeaveLine(line, u);
    if i < |line| {
      forall v ensures v in rest <==> v in line && v != u {
        assert line == line[..i] + [u] + line[i + 1..];
        assert u !in line[..i] && u !in line[i + 1..];
      }
    } else {
      IndexInside(line, u);
    }
  }

  lemma DeletedRow(rows: seq<Row>, u: int, v: int)
    requires OneRowEach(rows) && v != u
    ensures var rest := Deleted(rows, u);
            && (RowOf(rest, v) < |rest| <==> RowOf(rows, v) < |rows|)
            && (RowOf(rows, v) < |rows| ==> rest[RowOf(rest, v)] == rows[RowOf(rows, v)])
  {
    var i, j, rest := RowOf(rows, u), RowOf(rows, v), Deleted(rows, u);
    if i < |rows| {
      OneRowLeft(rows, i);
      if j < |rows| {
        var k := if j < i then j else j - 1;
        assert rest[k] == rows[j];
        RowIs(rest, k);
      } else {
        forall k | 0 <= k < |rest| ensures rest[k].userId != v { assert rest[k] == if k < i then rows[k] else rows[k + 1]; }
      }
    }
  }

  lemma OneRowLeft(rows: seq<Row>, i: nat)
    requires OneRowEach(rows) && i < |rows|
    ensures OneRowEach(rows[..i] + rows[i + 1..])
  {
    var rest := rows[..i] + rows[i + 1..];
    forall a, b | 0 <= a < b < |rest| ensures rest[a].userId != rest[b].userId {
      assert rest[a] == (if a < i then rows[a] else rows[a + 1]) && rest[b] == if b < i then rows[b] else rows[b + 1];
    }
  }

  lemma DeletedGone(rows: seq<Row>, u: int)
    requires OneRowEach(rows)
    ensures OneRowEach(Deleted(rows, u)) && RowOf(Deleted(rows, u), u) == |Deleted(rows, u)|
    ensures forall r :: r in Deleted(rows, u) ==> r in rows && r.userId != u
  {
    var i, rest := RowOf(rows, u), Deleted(rows, u);
    if i < |rows| {
      OneRowLeft(rows, i);
      forall k | 0 <= k < |rest| ensures rest[k].userId != u && rest[k] in rows {
        assert rest[k] == if k < i then rows[k] else rows[k + 1];
      }
    }
  }

  lemma DeletedSpells(rows: seq<Row>, line: seq<int>, u: int)
    requires Spells(rows, line)
    ensures Spells(Deleted(rows, u), LeaveLine(line, u))
  {
    var rest, left := Deleted(rows, u), LeaveLine(line, u);
    LeaveIs(line, u);
    DeletedGone(rows, u);
    forall v ensures v in left <==> IsGoing(rest, v) { if v != u { DeletedRow(rows, u, v); } }
    forall i, j | 0 <= i < j < |left| ensures PositionOf(rest, left[i]) < PositionOf(rest, left[j]) {
      LeftBehind(line, u, i);
      LeftBehind(line, u, j);
      DeletedRow(rows, u, left[i]);
      DeletedRow(rows, u, left[j]);
    }
  }

  /** Where the one at place i of the shorter line was before. */
  lemma LeftBehind(line: seq<int>, u: int, i: nat)
    requires Distinct(line) && i < |LeaveLine(line, u)|
    ensures var was := if i < IndexIn(line, u) then i else i + 1;
            was < |line| && line[was] == LeaveLine(line, u)[i] && line[was] != u
  {
    var k := IndexIn(line, u);
    if k < |line| && i >= k { assert line[k] != line[i + 1]; }
  }

  lemma RenumberedKeeps(rows: seq<Row>, line: seq<int>, capacity: int)
    requires Spells(rows, line) && forall r :: r in rows && !r.going ==> r.position == 0 && !r.waitlisted
    ensures Keeps(Renumbered(rows, line, capacity), line, capacity)
  {
    var after := Renumbered(rows, line, capacity);
    forall i | 0 <= i < |rows| ensures after[i].userId == rows[i].userId && after[i].going == rows[i].going && GoodRow(after[i], line, capacity) {
      RowIs(rows, i);
      assert rows[i] in rows;
      IndexInside(line, rows[i].userId);
      assert rows[i].userId in line <==> IsGoing(rows, rows[i].userId);
    }
    forall v ensures RowOf(after, v) == RowOf(rows, v) { SameRow(rows, after, v); }
    forall v ensures v in line <==> IsGoing(after, v) { assert v in line <==> IsGoing(rows, v); }
    forall i, j | 0 <= i < j < |line| ensures PositionOf(after, line[i]) < PositionOf(after, line[j]) {
      PlaceInLine(after, line, capacity, i);
      PlaceInLine(after, line, capacity, j);
    }
  }

  lemma {:induction false} SameRow(rows: seq<Row>, after: seq<Row>, v: int)
    requires |after| == |rows| && forall i :: 0 <= i < |rows| ==> after[i].userId == rows[i].userId
    ensures RowOf(after, v) == RowOf(rows, v)
  {
    if rows != [] && rows[0].userId != v { SameRow(rows[1..], after[1..], v); }
  }

  lemma PlaceInLine(rows: seq<Row>, line: seq<int>, capacity: int, i: nat)
    requires Distinct(line) && GoingAre(rows, line) && i < |line| && forall r :: r in rows ==> GoodRow(r, line, capacity)
    ensures PositionOf(rows, line[i]) == i + 1
  {
    var u := line[i];
    assert u in line && IsGoing(rows, u);
    var r := rows[RowOf(rows, u)];
    assert r in rows && line[r.position - 1] == u;
    IndexIs(line, i);
    IndexIs(line, r.position - 1);
  }

  lemma ReindexKeeps(rows: seq<Row>, line: seq<int>, capacity: int, u: int)
    requires Keeps(rows, line, capacity)
    ensures Keeps(Reindexed(rows, u, capacity), LeaveLine(line, u), capacity) && RowOf(Reindexed(rows, u, capacity), u) == |Reindexed(rows, u, capacity)|
  {
    hide Spells, Renumbered, LineOf;
    var rest := Deleted(rows, u);
    assert OneRowEach(rows) by { SpellsIs(rows, line); }
    DeletedSpells(rows, line, u);
    DeletedGone(rows, u);
    LineIs(rest, LeaveLine(line, u));
    forall r | r in rest && !r.going ensures r.position == 0 && !r.waitlisted { assert GoodRow(r, line, capacity); }
    RenumberedKeeps(rest, LeaveLine(line, u), capacity);
    RenumberedUsers(rest, LeaveLine(line, u), capacity, u);
  }

  lemma SpellsIs(rows: seq<Row>, line: seq<int>)
    requires Spells(rows, line)
    ensures OneRowEach(rows) && Distinct(line) && GoingAre(rows, line)
  {
  }

  lemma RenumberedUsers(rows: seq<Row>, line: seq<int>, capacity: int, u: int)
    ensures RowOf(Renumbered(rows, line, capacity), u) == RowOf(rows, u)
  {
    SameRow(rows, Renumbered(rows, line, capacity), u);
  }

  // ---- The three answers ------------------------------------------------------------------

  /** Going: at the back of the line, or the same place with new preferences. */
  lemma RsvpKeeps(rows: seq<Row>, line: seq<int>, capacity: int, u: int, p: PL.Preferences, now: int)
    requires Keeps(rows, line, capacity)
    ensures Keeps(RsvpRows(rows, capacity, u, p, now), JoinLine(line, u), capacity)
  {
    LineIs(rows, line);
    var i, after := RowOf(rows, u), RsvpRows(rows, capacity, u, p, now);
    assert u in line <==> IsGoing(rows, u);
    if IsGoing(rows, u) {
      assert rows[i] in rows;
      ChangedKeeps(rows, after, line, line, capacity, u);
    } else if i == |rows| {
      AppendedKeeps(rows, line, capacity, after[i]);
    } else {
      assert rows[i] in rows;
      ChangedKeeps(rows, after, line, line + [u], capacity, u);
    }
  }

  lemma GoodRowLonger(r: Row, line: seq<int>, u: int, capacity: int)
    requires GoodRow(r, line, capacity)
    ensures GoodRow(r, line + [u], capacity)
  {
  }

  lemma AppendedKeeps(rows: seq<Row>, line: seq<int>, capacity: int, r: Row)
    requires Keeps(rows, line, capacity) && RowOf(rows, r.userId) == |rows|
    requires r.going && r.position == |line| + 1 && (r.waitlisted <==> |line| >= capacity)
    ensures Keeps(rows + [r], line + [r.userId], capacity)
  {
    var after, more := rows + [r], line + [r.userId];
    forall v ensures RowOf(after, v) == (if v == r.userId then |rows| else if RowOf(rows, v) < |rows| then RowOf(rows, v) else |after|) {
      var k := RowOf(after, v);
      if k < |rows| { assert after[k] == rows[k]; }
      if RowOf(rows, v) < |rows| { assert after[RowOf(rows, v)] == rows[RowOf(rows, v)]; }
      if v == r.userId { assert after[|rows|] == r; }
    }
    assert r.userId in line <==> IsGoing(rows, r.userId);
    forall v ensures v in more <==> IsGoing(after, v) { assert v in line <==> IsGoing(rows, v); }
    forall x | x in after ensures GoodRow(x, more, capacity) { if x in rows { GoodRowLonger(x, line, r.userId, capacity); } }
    MakesKeeps(after, more, capacity);
  }

  /** Good rows for a line without repetitions keep it. */
  lemma MakesKeeps(rows: seq<Row>, line: seq<int>, capacity: int)
    requires OneRowEach(rows) && Distinct(line) && GoingAre(rows, line) && forall r :: r in rows ==> GoodRow(r, line, capacity)
    ensures Keeps(rows, line, capacity)
  {
    forall i, j | 0 <= i < j < |line| ensures PositionOf(rows, line[i]) < PositionOf(rows, line[j]) {
      PlaceInLine(rows, line, capacity, i);
      PlaceInLine(rows, line, capacity, j);
    }
  }

  /** One row changed in place. */
  lemma ChangedKeeps(rows: seq<Row>, after: seq<Row>, line: seq<int>, more: seq<int>, capacity: int, u: int)
    requires Keeps(rows, line, capacity) && RowOf(rows, u) < |rows| && (more == line || (more == line + [u] && u !in line))
    requires var i := RowOf(rows, u);
             |after| == |rows| && after == rows[i := after[i]] && after[i].userId == u && GoodRow(after[i], more, capacity) && (after[i].going <==> u in more)
    ensures Keeps(after, more, capacity)
  {
    var i := RowOf(rows, u);
    forall v ensures RowOf(after, v) == RowOf(rows, v) { SameRow(rows, after, v); }
    forall v ensures v in more <==> IsGoing(after, v) {
      assert v in line <==> IsGoing(rows, v);
      if v != u { assert v in more <==> v in line; }
    }
    forall x | x in after ensures GoodRow(x, more, capacity) {
      var k :| 0 <= k < |after| && after[k] == x;
      if k != i {
        assert rows[k] in rows;
        if more != line { GoodRowLonger(x, line, u, capacity); }
      }
    }
    MakesKeeps(after, more, capacity);
  }

  /** Maybe: out of the line. */
  lemma MaybeKeeps(rows: seq<Row>, line: seq<int>, capacity: int, u: int, p: PL.Preferences, now: int)
    requires Keeps(rows, line, capacity)
    ensures Keeps(MaybeRows(rows, capacity, u, p, now), LeaveLine(line, u), capacity)
  {
    assert u in line <==> IsGoing(rows, u);
    IndexInside(line, u);
    if IsGoing(rows, u) {
      ReindexKeeps(rows, line, capacity, u);
      LeaveIs(line, u);
      hide Reindexed;
      AppendedMaybe(Reindexed(rows, u, capacity), LeaveLine(line, u), capacity, Row(u, 0, false, false, p, now));
    } else if RowOf(rows, u) == |rows| {
      AppendedMaybe(rows, line, capacity, Row(u, 0, false, false, p, now));
    } else {
      assert rows[RowOf(rows, u)] in rows;
      ChangedKeeps(rows, MaybeRows(rows, capacity, u, p, now), line, line, capacity, u);
    }
  }

  lemma AppendedMaybe(rows: seq<Row>, line: seq<int>, capacity: int, r: Row)
    requires Keeps(rows, line, capacity) && RowOf(rows, r.userId) == |rows| && !r.going && r.position == 0 && !r.waitlisted
    ensures Keeps(rows + [r], line, capacity)
  {
    var after := rows + [r];
    forall v ensures RowOf(after, v) == (if v == r.userId then |rows| else if RowOf(rows, v) < |rows| then RowOf(rows, v) else |after|) {
      var k := RowOf(after, v);
      if k < |rows| { assert after[k] == rows[k]; }
      if RowOf(rows, v) < |rows| { assert after[RowOf(rows, v)] == rows[RowOf(rows, v)]; }
      if v == r.userId { assert after[|rows|] == r; }
    }
    forall v ensures v in line <==> IsGoing(after, v) { assert v in line <==> IsGoing(rows, v); }
    MakesKeeps(after, line, capacity);
  }

  lemma CancelKeeps(rows: seq<Row>, line: seq<int>, capacity: int, u: int)
    requires Keeps(rows, line, capacity)
    ensures Keeps(CancelRows(rows, capacity, u), LeaveLine(line, u), capacity)
  {
    assert u in line <==> IsGoing(rows, u);
    IndexInside(line, u);
    if IsGoing(rows, u) {
      ReindexKeeps(rows, line, capacity, u);
    } else {
      DeletedSpells(rows, line, u);
      DeletedGone(rows, u);
    }
  }
}
