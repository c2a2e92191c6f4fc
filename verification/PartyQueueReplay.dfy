/** Queue operations that can safely be repeated: departures and roster resets. */
module PartyQueueReplay {
  import opened Common
  import opened PartyQueue
  import opened PartyQueueInvariant

  /** No user or sequence number is in the queue twice. */
  ghost predicate Apart(q: Queue) { AllApart(Everyone(q)) }

  function LeftAll(q: Queue, ids: seq<int>): Queue
    decreases |ids|
  {
    if ids == [] then q else LeftAll(Left(q, ids[0]).0, ids[1..])
  }

  lemma PromoteMoves(q: Queue)
    ensures multiset(Everyone(Promote(q).0)) == multiset(Everyone(q))
  {
    if |q.active| < q.capacity && q.waitlist != [] {
      var i := MinIndex(q.waitlist, Rank(q.active));
      assert q.waitlist == q.waitlist[..i] + [q.waitlist[i]] + q.waitlist[i + 1..];
    }
  }

  lemma LeftAbsent(q: Queue, userId: int)
    requires !Has(Everyone(q), userId)
    ensures Left(q, userId).0 == q
  {
    HasMember(Everyone(q), userId);
    HasMember(q.active, userId);
    HasMember(q.waitlist, userId);
  }

  /** A departure keeps members apart and takes exactly that user away. */
  lemma LeftApart(q: Queue, userId: int)
    requires Apart(q)
    ensures var p := Left(q, userId).0;
            && Apart(p) && forall m :: m in Everyone(p) <==> m in Everyone(q) && m.userId != userId
  {
    var out := q.(active := Remove(q.active, userId), waitlist := Remove(q.waitlist, userId),
                  ready := ForgetReady(q.ready, [userId]));
    var p := Left(q, userId).0;
    ApartSub(Everyone(q), q.active);
    ApartSub(Everyone(q), q.waitlist);
    RemoveIsExact(q.active, userId);
    RemoveIsExact(q.waitlist, userId);
    RemoveTakesOne(q.active, userId);
    RemoveTakesOne(q.waitlist, userId);
    PromoteMoves(out);
    HasMember(q.active, userId);
    HasMember(q.waitlist, userId);
    hide Promote, AllApart, Remove, Find;
    assert multiset(Everyone(out)) == multiset(out.active) + multiset(out.waitlist);
    assert multiset(Everyone(q)) == multiset(q.active) + multiset(q.waitlist);
    assert p == q || multiset(Everyone(p)) == multiset(Everyone(out));
    ApartSub(Everyone(q), Everyone(p));
    forall m ensures m in Everyone(p) <==> m in Everyone(q) && m.userId != userId {
      assert m in multiset(Everyone(p)) <==> m in Everyone(p);
      assert m in multiset(Everyone(out)) <==> m in Everyone(out);
    }
  }

  lemma {:induction false} LeftAllApart(q: Queue, ids: seq<int>)
    requires Apart(q)
    ensures var p := LeftAll(q, ids);
            && Apart(p) && forall m :: m in Everyone(p) <==> m in Everyone(q) && m.userId !in ids
    decreases |ids|
  {
    hide Left, Apart, Everyone;
    if ids != [] {
      LeftApart(q, ids[0]);
      LeftAllApart(Left(q, ids[0]).0, ids[1..]);
      assert ids == [ids[0]] + ids[1..];
    }
  }

  lemma {:induction false} LeftAllAbsent(q: Queue, ids: seq<int>)
    requires forall id :: id in ids ==> !Has(Everyone(q), id)
    ensures LeftAll(q, ids) == q
    decreases |ids|
  {
    if ids != [] {
      var id := ids[0];
      assert id in ids;
      LeftAbsent(q, id);
      LeftAllAbsent(q, ids[1..]);
    }
  }

  lemma {:induction false} LeftAllSplits(q: Queue, a: seq<int>, b: seq<int>)
    ensures LeftAll(q, a + b) == LeftAll(LeftAll(q, a), b)
    decreases |a|
  {
    if a == [] {
      assert a + b == b;
    } else {
      assert (a + b)[1..] == a[1..] + b;
      LeftAllSplits(Left(q, a[0]).0, a[1..], b);
    }
  }

  lemma GoneAfter(q: Queue, ids: seq<int>)
    requires Apart(q)
    ensures forall id :: id in ids ==> !Has(Everyone(LeftAll(q, ids)), id)
  {
    LeftAllApart(q, ids);
    forall id | id in ids ensures !Has(Everyone(LeftAll(q, ids)), id) {
      HasMember(Everyone(LeftAll(q, ids)), id);
    }
  }

  /** Departures that were cut short and start over end the same. */
  lemma DeparturesRestart(q: Queue, ids: seq<int>, n: nat)
    requires Apart(q) && n <= |ids|
    ensures LeftAll(LeftAll(q, ids[..n]), ids) == LeftAll(q, ids)
  {
    assert ids == ids[..n] + ids[n..];
    var p := LeftAll(q, ids[..n]);
    GoneAfter(q, ids[..n]);
    LeftAllAbsent(p, ids[..n]);
    LeftAllSplits(p, ids[..n], ids[n..]);
    LeftAllSplits(q, ids[..n], ids[n..]);
  }

  lemma {:induction false} NotInAppend(a: seq<Member>, b: seq<Member>, ids: seq<int>)
    ensures NotIn(a + b, ids) == NotIn(a, ids) + NotIn(b, ids)
  {
    if a == [] { assert a + b == b; }
    else {
      assert (a + b)[1..] == a[1..] + b;
      NotInAppend(a[1..], b, ids);
    }
  }

  lemma {:induction false} NotInAllOf(a: seq<Member>, ids: seq<int>)
    requires forall m :: m in a ==> m.userId in ids
    ensures NotIn(a, ids) == []
  {
    if a != [] {
      var m := a[0];
      assert m in a;
      NotInAllOf(a[1..], ids);
    }
  }

  lemma {:induction false} NotInNoneOf(a: seq<Member>, ids: seq<int>)
    requires forall m :: m in a ==> m.userId !in ids
    ensures NotIn(a, ids) == a
  {
    if a != [] {
      var m := a[0];
      assert m in a;
      NotInNoneOf(a[1..], ids);
      assert a == [a[0]] + a[1..];
    }
  }

  lemma JoinOrderIsStrict(w: seq<Member>)
    requires InJoinOrder(w)
    ensures StrictlySorted(w, SequenceKey)
  {
    forall i, j | 0 <= i < j < |w| ensures LexLess(SequenceKey(w[i]), SequenceKey(w[j])) {
      LexSingle(w[i].joinedSequence, w[j].joinedSequence);
      assert SequenceKey(w[i])[0] != SequenceKey(w[j])[0];
    }
  }

  /** A roster already in place stays in place. */
  lemma ResetInPlace(p: Queue)
    requires Apart(p) && InJoinOrder(p.waitlist) && p == Reopened(p)
    ensures RosterReset(p, Some(Ids(p.active))) == Ok(p)
  {
    var ids := Ids(p.active);
    var all := Everyone(p);
    forall i | 0 <= i < |ids| ensures Find(all, ids[i]) == i && Has(all, ids[i]) {
      FindInFront(p, i);
    }
    forall i, j | 0 <= i < j < |ids| ensures ids[i] != ids[j] { assert !Clash(all[i], all[j]); }
    assert Pick(all, ids) == p.active;
    WaitersAreNotIn(p);
    JoinOrderIsStrict(p.waitlist);
    SortOfSorted(p.waitlist, SequenceKey);
  }

  lemma FindInFront(p: Queue, i: nat)
    requires Apart(p) && i < |p.active|
    ensures Find(Everyone(p), p.active[i].userId) == i
  {
    var all := Everyone(p);
    assert all[i] == p.active[i];
    forall j | 0 <= j < |all| && j != i ensures all[j].userId != all[i].userId {
      if j < i { assert !Clash(all[j], all[i]); } else { assert !Clash(all[i], all[j]); }
    }
    var f := Find(all, p.active[i].userId);
  }

  lemma WaitersAreNotIn(p: Queue)
    requires Apart(p)
    ensures NotIn(Everyone(p), Ids(p.active)) == p.waitlist
  {
    var ids := Ids(p.active);
    forall m | m in p.active ensures m.userId in ids {
      var i :| 0 <= i < |p.active| && p.active[i] == m;
      assert ids[i] == m.userId;
    }
    forall m | m in p.waitlist ensures m.userId !in ids {
      var j :| 0 <= j < |p.waitlist| && p.waitlist[j] == m;
      forall i | 0 <= i < |ids| ensures ids[i] != m.userId {
        assert !Clash(Everyone(p)[i], Everyone(p)[|p.active| + j]);
      }
    }
    NotInAppend(p.active, p.waitlist, ids);
    NotInAllOf(p.active, ids);
    NotInNoneOf(p.waitlist, ids);
  }

  /** A roster reset repeated changes nothing more. */
  lemma ResetTwice(q: Queue, ids: Option<seq<int>>)
    requires Apart(q) && RosterReset(q, ids).Ok?
    ensures var p := RosterReset(q, ids).value;
            Apart(p) && RosterReset(p, ids) == Ok(p) && forall m :: m in Everyone(p) <==> m in Everyone(q)
  {
    if ids.Some? {
      ResetSeats(q, ids.value);
      ResetInPlace(RosterReset(q, ids).value);
    } else {
      assert Everyone(Reopened(q)) == Everyone(q);
    }
  }

  /** Departures and a reset, cut short anywhere and started over, end the same,
      whether the reset is accepted or refused. */
  lemma SettlingRestarts(q: Queue, ids: seq<int>, roster: Option<seq<int>>)
    requires Apart(q) && RosterReset(LeftAll(q, ids), roster).Ok?
    ensures var p := RosterReset(LeftAll(q, ids), roster).value;
            LeftAll(p, ids) == p && RosterReset(p, roster) == Ok(p)
  {
    var away := LeftAll(q, ids);
    LeftAllApart(q, ids);
    ResetTwice(away, roster);
    var p := RosterReset(away, roster).value;
    GoneAfter(q, ids);
    forall id | id in ids ensures !Has(Everyone(p), id) {
      HasMember(Everyone(p), id);
      HasMember(Everyone(away), id);
    }
    LeftAllAbsent(p, ids);
  }
}
