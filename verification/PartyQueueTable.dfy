/** SQLitePartyQueueRepository of utils/party_queue.py: a queue as one state row
    and one row per member. */
module PartyQueueTable {
  import opened Common
  import opened PartyQueue
  import opened PartyQueueInvariant

  datatype StateRow = StateRow(capacity: int, status: QueueStatus, deadline: Option<int>, extensionsUsed: int, nextSequence: int)

  /** lane 0 is the active lane; lanes sort before positions. */
  datatype MemberRow = MemberRow(lane: int, position: int, member: Member, answer: Option<ReadyStatus>)

  datatype Tables = Tables(state: StateRow, members: seq<MemberRow>)

  function RowKey(r: MemberRow): seq<int> { [r.lane, r.position] }

  function LaneRows(q: Queue, lane: int, members: seq<Member>): (r: seq<MemberRow>)
    ensures |r| == |members|
  {
    seq(|members|, i requires 0 <= i < |members| =>
      MemberRow(lane, i, members[i], if members[i].userId in q.ready then Some(q.ready[members[i].userId]) else None))
  }

  /** save: the rows written. A repeated member violates the primary key. */
  function Save(q: Queue): Result<Tables, QueueError> {
    if Repeats(Ids(Everyone(q))) then Err(DuplicatePlayers)
    else Ok(Tables(StateRow(q.capacity, q.status, q.deadline, q.extensionsUsed, q.nextSequence),
                   LaneRows(q, 0, q.active) + LaneRows(q, 1, q.waitlist)))
  }

  function LaneMembers(rows: seq<MemberRow>, lane: int): seq<Member> {
    if rows == [] then []
    else if rows[0].lane == lane then [rows[0].member] + LaneMembers(rows[1..], lane)
    else LaneMembers(rows[1..], lane)
  }

  function Answers(rows: seq<MemberRow>): map<int, ReadyStatus> {
    if rows == [] then map[]
    else
      var n := |rows| - 1;
      var before := Answers(rows[..n]);
      if rows[n].answer.Some? then before[rows[n].member.userId := rows[n].answer.value] else before
  }

  /** load: the rows of the table, ordered by lane and position. */
  function Load(t: Tables): Queue {
    var rows := SortBy(t.members, RowKey);
    Queue(t.state.capacity, LaneMembers(rows, 0), LaneMembers(rows, 1), Answers(rows),
          t.state.status, t.state.deadline, t.state.extensionsUsed, t.state.nextSequence)
  }

  // ---- Save, then load ------------------------------------------------------

  lemma RowsInOrder(q: Queue)
    ensures StrictlySorted(LaneRows(q, 0, q.active) + LaneRows(q, 1, q.waitlist), RowKey)
  {
    var rows := LaneRows(q, 0, q.active) + LaneRows(q, 1, q.waitlist);
    forall i, j | 0 <= i < j < |rows| ensures LexLess(RowKey(rows[i]), RowKey(rows[j])) {
      LexPair(rows[i].lane, rows[i].position, rows[j].lane, rows[j].position);
      assert RowKey(rows[i])[1] == rows[i].position && RowKey(rows[j])[1] == rows[j].position;
      assert RowKey(rows[i])[0] == rows[i].lane && RowKey(rows[j])[0] == rows[j].lane;
    }
  }

  lemma {:induction false} LaneMembersOf(q: Queue, lane: int, members: seq<Member>, from: nat)
    requires from <= |members|
    ensures LaneMembers(LaneRows(q, lane, members)[from..], lane) == members[from..]
    ensures forall other :: other != lane ==> LaneMembers(LaneRows(q, lane, members)[from..], other) == []
    decreases |members| - from
  {
    if from < |members| {
      LaneMembersOf(q, lane, members, from + 1);
      assert LaneRows(q, lane, members)[from..][1..] == LaneRows(q, lane, members)[from + 1..];
    }
  }

  lemma {:induction false} LaneMembersAppend(a: seq<MemberRow>, b: seq<MemberRow>, lane: int)
    ensures LaneMembers(a + b, lane) == LaneMembers(a, lane) + LaneMembers(b, lane)
  {
    if a == [] { assert a + b == b; }
    else {
      assert (a + b)[1..] == a[1..] + b;
      LaneMembersAppend(a[1..], b, lane);
    }
  }

  ghost predicate AnswersFrom(rows: seq<MemberRow>, ready: map<int, ReadyStatus>) {
    forall r :: r in rows ==> r.answer == if r.member.userId in ready then Some(ready[r.member.userId]) else None
  }

  lemma {:induction false} AnswersRead(rows: seq<MemberRow>, ready: map<int, ReadyStatus>)
    requires AnswersFrom(rows, ready)
    ensures Answers(rows) == map id | id in ready && exists r :: r in rows && r.member.userId == id :: ready[id]
  {
    if rows != [] {
      var n := |rows| - 1;
      assert rows == rows[..n] + [rows[n]];
      assert rows[n] in rows;
      AnswersRead(rows[..n], ready);
    }
  }

  function SavedRows(q: Queue): seq<MemberRow> { LaneRows(q, 0, q.active) + LaneRows(q, 1, q.waitlist) }

  lemma LanesRead(q: Queue)
    ensures LaneMembers(SavedRows(q), 0) == q.active && LaneMembers(SavedRows(q), 1) == q.waitlist
  {
    var a, w := LaneRows(q, 0, q.active), LaneRows(q, 1, q.waitlist);
    LaneMembersOf(q, 0, q.active, 0);
    LaneMembersOf(q, 1, q.waitlist, 0);
    assert a[0..] == a && w[0..] == w && q.active[0..] == q.active && q.waitlist[0..] == q.waitlist;
    LaneMembersAppend(a, w, 0);
    LaneMembersAppend(a, w, 1);
    hide LaneMembers, LaneRows;
    assert LaneMembers(a, 0) == q.active && LaneMembers(w, 0) == [] && LaneMembers(a, 1) == [] && LaneMembers(w, 1) == q.waitlist;
  }

  /** The answers read back are those of the queue's own members. */
  lemma AnswersOfMembers(q: Queue)
    ensures Answers(SavedRows(q)) == map id | id in q.ready && Has(Everyone(q), id) :: q.ready[id]
  {
    hide Answers;
    AnswersRead(SavedRows(q), q.ready);
    forall id ensures Has(Everyone(q), id) <==> exists r :: r in SavedRows(q) && r.member.userId == id {
      RowOf(q, id);
    }
  }

  /** Whatever order the table hands its rows back in, loading what was saved
      gives the queue back exactly when nobody outside it has an answer. */
  lemma SaveThenLoad(q: Queue, rows: seq<MemberRow>)
    requires Save(q).Ok? && multiset(rows) == multiset(Save(q).value.members)
    ensures Load(Save(q).value.(members := rows)) == q <==> forall id :: id in q.ready ==> Has(Everyone(q), id)
  {
    hide SortBy, RowKey, LaneMembers, Answers, Has, LaneRows;
    var saved := SavedRows(q);
    RowsInOrder(q);
    SortedUnique(saved, SortBy(rows, RowKey), RowKey);
    LanesRead(q);
    AnswersOfMembers(q);
    var p := Load(Save(q).value.(members := rows));
    assert p == q.(ready := p.ready);
    assert p.ready == map id | id in q.ready && Has(Everyone(q), id) :: q.ready[id];
    if p == q {
      forall id | id in q.ready ensures Has(Everyone(q), id) { assert id in p.ready; }
    }
  }

  lemma RowOf(q: Queue, id: int)
    ensures var saved := LaneRows(q, 0, q.active) + LaneRows(q, 1, q.waitlist);
            Has(Everyone(q), id) <==> exists r :: r in saved && r.member.userId == id
  {
    var saved := LaneRows(q, 0, q.active) + LaneRows(q, 1, q.waitlist);
    assert |saved| == |Everyone(q)| && forall i :: 0 <= i < |saved| ==> saved[i].member == Everyone(q)[i];
    HasMember(Everyone(q), id);
    if m :| m in Everyone(q) && m.userId == id {
      var i :| 0 <= i < |Everyone(q)| && Everyone(q)[i] == m;
      assert saved[i] in saved;
    }
    if r :| r in saved && r.member.userId == id {
      var i :| 0 <= i < |saved| && saved[i] == r;
      assert Everyone(q)[i] in Everyone(q);
    }
  }

  /** So for every queue a run can reach, saving and loading is the identity. */
  lemma ReachableQueuesPersist(c: Config, capacity: int, run: seq<Command>, rows: seq<MemberRow>)
    requires ValidConfig(c) && capacity >= 1 && FillingRun(c, NewQueue(capacity), run)
    ensures var q := AfterAll(c, NewQueue(capacity), run);
            Save(q).Ok? && (multiset(rows) == multiset(Save(q).value.members) ==> Load(Save(q).value.(members := rows)) == q)
  {
    var q := AfterAll(c, NewQueue(capacity), run);
    RunsFromNewQueue(c, capacity, run);
    forall i, j | 0 <= i < j < |Everyone(q)| ensures Ids(Everyone(q))[i] != Ids(Everyone(q))[j] {
      assert !Clash(Everyone(q)[i], Everyone(q)[j]);
    }
    forall id | id in q.ready ensures Has(Everyone(q), id) {
      HasMember(q.active, id);
      HasMember(Everyone(q), id);
    }
    if multiset(rows) == multiset(Save(q).value.members) { SaveThenLoad(q, rows); }
  }
}
