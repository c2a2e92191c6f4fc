/** What every operation of a party queue keeps, and every run of them. */
module PartyQueueInvariant {
  import opened Common
  import opened PartyQueue

  // ---- Members that are apart -------------------------------------------------

  lemma {:induction false} ApartOnce(a: seq<Member>, m: Member)
    requires AllApart(a)
    ensures multiset(a)[m] <= 1
  {
    if a != [] {
      assert a == [a[0]] + a[1..];
      ApartOnce(a[1..], m);
      if m in a[1..] {
        var j :| 0 <= j < |a| - 1 && a[1..][j] == m;
        assert !Clash(a[0], a[j + 1]);
      }
    }
  }

  /** Fewer members, or the same ones in another order, are still apart. */
  lemma ApartSub(a: seq<Member>, b: seq<Member>)
    requires AllApart(a) && multiset(b) <= multiset(a)
    ensures AllApart(b)
  {
    forall i, j | 0 <= i < j < |b| ensures !Clash(b[i], b[j]) {
      assert b[i] in multiset(a) && b[j] in multiset(a);
      ApartOnce(a, b[i]);
      assert b == b[..i] + [b[i]] + b[i + 1..j] + [b[j]] + b[j + 1..];
      assert b[i] != b[j];
      var k :| 0 <= k < |a| && a[k] == b[i];
      var l :| 0 <= l < |a| && a[l] == b[j];
      if k < l { assert !Clash(a[k], a[l]); } else { assert !Clash(a[l], a[k]); }
    }
  }

  lemma HasMember(members: seq<Member>, userId: int)
    ensures Has(members, userId) <==> exists m :: m in members && m.userId == userId
  {
    var i := Find(members, userId);
    if i < |members| { assert members[i] in members; }
    if m :| m in members && m.userId == userId {
      var j :| 0 <= j < |members| && members[j] == m;
    }
  }

  lemma RemoveTakesOne(members: seq<Member>, userId: int)
    ensures multiset(Remove(members, userId)) <= multiset(members)
    ensures |Remove(members, userId)| == |members| - (if Has(members, userId) then 1 else 0)
  {
    var i := Find(members, userId);
    if i < |members| { CutOneOut(members, i); }
  }

  lemma CutOneOut(members: seq<Member>, i: nat)
    requires i < |members|
    ensures multiset(members[..i] + members[i + 1..]) <= multiset(members)
  {
    assert members == members[..i] + [members[i]] + members[i + 1..];
  }

  /** With the members apart, the removed user is gone and everybody else stays. */
  lemma RemoveIsExact(members: seq<Member>, userId: int)
    requires AllApart(members)
    ensures forall m :: m in Remove(members, userId) <==> m in members && m.userId != userId
  {
    var i := Find(members, userId);
    if i < |members| {
      var r := members[..i] + members[i + 1..];
      forall m | m in members && m.userId != userId ensures m in r {
        var j :| 0 <= j < |members| && members[j] == m;
        if j < i { assert r[j] == m; } else { assert r[j - 1] == m; }
      }
      forall m | m in r ensures m in members && m.userId != userId {
        var j :| 0 <= j < |r| && r[j] == m;
        if j < i { assert !Clash(members[j], members[i]); } else { assert r[j] == members[j + 1]; assert !Clash(members[i], members[j + 1]); }
      }
    }
  }

  lemma OrderWithout(w: seq<Member>, i: nat)
    requires InJoinOrder(w) && i < |w|
    ensures InJoinOrder(w[..i] + w[i + 1..])
  {
  }

  lemma RemoveKeepsOrder(w: seq<Member>, userId: int)
    requires InJoinOrder(w)
    ensures InJoinOrder(Remove(w, userId))
  {
    if Has(w, userId) { OrderWithout(w, Find(w, userId)); }
  }

  // ---- Promotion ----------------------------------------------------------------

  /** The roles a player prefers and nobody active does. */
  function NewRoles(active: seq<Member>, m: Member): set<string> {
    set r | r in m.roles && forall a :: a in active ==> r !in a.roles
  }

  /** Nobody names a role twice. */
  ghost predicate RolesOnce(members: seq<Member>) { forall m :: m in members ==> Distinct(m.roles) }

  lemma CoveredAre(active: seq<Member>, r: string)
    ensures r in CoveredRoles(active) <==> exists a :: a in active && r in a.roles
  {
    if a :| a in active && r in a.roles {
      var i :| 0 <= i < |active| && active[i] == a;
      var j :| 0 <= j < |a.roles| && a.roles[j] == r;
      assert active[i].roles[j] == r;
    }
  }

  lemma {:induction false} CountsMissing(roles: seq<string>, covered: set<string>)
    requires Distinct(roles)
    ensures CountMissing(roles, covered) == |set r | r in roles && r !in covered|
  {
    var s := set r | r in roles && r !in covered;
    if roles != [] {
      var rest := roles[1..];
      var t := set r | r in rest && r !in covered;
      CountsMissing(rest, covered);
      assert roles == [roles[0]] + rest;
      assert roles[0] !in rest;
      assert s == if roles[0] in covered then t else t + {roles[0]};
    }
  }

  lemma MissingAreNew(active: seq<Member>, m: Member)
    requires Distinct(m.roles)
    ensures Missing(active, m) == |NewRoles(active, m)|
  {
    CountsMissing(m.roles, CoveredRoles(active));
    forall r ensures r in NewRoles(active, m) <==> r in m.roles && r !in CoveredRoles(active) { CoveredAre(active, r); }
    hide CoveredRoles;
    assert NewRoles(active, m) == set r | r in m.roles && r !in CoveredRoles(active);
  }

  /** The promoted player is one of those waiting who bring the most roles nobody
      active prefers, the earliest of them; they take the last seat, and the others
      wait in the order they had. */
  lemma PromotedIsBest(q: Queue)
    requires |q.active| < q.capacity && q.waitlist != [] && RolesOnce(q.waitlist)
    ensures var (p, id) := Promote(q);
            exists i :: 0 <= i < |q.waitlist|
              && id == Some(q.waitlist[i].userId)
              && p == q.(active := q.active + [q.waitlist[i]], waitlist := q.waitlist[..i] + q.waitlist[i + 1..])
              && forall m :: m in q.waitlist ==> NoBetterWaiter(q.active, q.waitlist[i], m)
  {
    hide Missing, NewRoles;
    var i := MinIndex(q.waitlist, Rank(q.active));
    MinIndexLeast(q.waitlist, Rank(q.active));
    forall m | m in q.waitlist ensures NoBetterWaiter(q.active, q.waitlist[i], m) {
      var j :| 0 <= j < |q.waitlist| && q.waitlist[j] == m;
      assert LexLeq(Rank(q.active)(q.waitlist[i]), Rank(q.active)(q.waitlist[j]));
      LexPair(-Missing(q.active, q.waitlist[i]), q.waitlist[i].joinedSequence, -Missing(q.active, m), m.joinedSequence);
      MissingAreNew(q.active, m);
      MissingAreNew(q.active, q.waitlist[i]);
    }
  }

  ghost predicate NoBetterWaiter(active: seq<Member>, chosen: Member, m: Member) {
    || |NewRoles(active, m)| < |NewRoles(active, chosen)|
    || (|NewRoles(active, m)| == |NewRoles(active, chosen)| && chosen.joinedSequence <= m.joinedSequence)
  }

  lemma PromoteKeeps(q: Queue)
    requires Tidy(q)
    ensures var p := Promote(q).0;
            && Tidy(p) && multiset(Everyone(p)) == multiset(Everyone(q))
            && p == q.(active := p.active, waitlist := p.waitlist)
            && (if |q.active| < q.capacity && q.waitlist != []
                then |p.active| == |q.active| + 1 && |p.waitlist| == |q.waitlist| - 1 else p == q)
  {
    if |q.active| < q.capacity && q.waitlist != [] {
      var i := MinIndex(q.waitlist, Rank(q.active));
      MoveKeeps(q, i);
    }
  }

  lemma MoveKeeps(q: Queue, i: nat)
    requires Tidy(q) && |q.active| < q.capacity && i < |q.waitlist|
    ensures var p := q.(active := q.active + [q.waitlist[i]], waitlist := q.waitlist[..i] + q.waitlist[i + 1..]);
            Tidy(p) && multiset(Everyone(p)) == multiset(Everyone(q))
  {
    var p := q.(active := q.active + [q.waitlist[i]], waitlist := q.waitlist[..i] + q.waitlist[i + 1..]);
    assert q.waitlist == q.waitlist[..i] + [q.waitlist[i]] + q.waitlist[i + 1..];
    assert multiset(Everyone(p)) == multiset(Everyone(q));
    ApartSub(Everyone(q), Everyone(p));
    OrderWithout(q.waitlist, i);
    forall m | m in Everyone(p) ensures m.joinedSequence < p.nextSequence {
      assert m in multiset(Everyone(q));
    }
    forall id | id in p.ready ensures Has(p.active, id) {
      HasMember(q.active, id);
      HasMember(p.active, id);
    }
  }

  lemma {:induction false} FillSeatsKeeps(q: Queue)
    requires Tidy(q)
    ensures var p := FillSeats(q).0;
            && Sound(p) && multiset(Everyone(p)) == multiset(Everyone(q))
            && p == q.(active := p.active, waitlist := p.waitlist)
    decreases |q.waitlist|
  {
    PromoteKeeps(q);
    if |q.active| < q.capacity && q.waitlist != [] {
      FillSeatsKeeps(Promote(q).0);
    }
  }

  // ---- Each operation -------------------------------------------------------------

  lemma ResizeKeeps(q: Queue, capacity: int)
    requires Sound(q)
    ensures Resized(q, capacity).Ok? <==> 1 <= capacity && |q.active| <= capacity
    ensures Resized(q, capacity).Ok? ==>
              var p := Resized(q, capacity).value.0;
              && Sound(p) && p.capacity == capacity && multiset(Everyone(p)) == multiset(Everyone(q))
              && p == q.(capacity := capacity, active := p.active, waitlist := p.waitlist)
  {
    if Resized(q, capacity).Ok? {
      var r := q.(capacity := capacity);
      assert Everyone(r) == Everyone(q);
      FillSeatsKeeps(r);
    }
  }

  /** The promoted players, in order, are those now at the end of the roster. */
  lemma {:induction false} FillSeatsPromotes(q: Queue)
    ensures var (p, ids) := FillSeats(q);
            Ids(p.active) == Ids(q.active) + ids
    decreases |q.waitlist|
  {
    if |q.active| < q.capacity && q.waitlist != [] {
      PromoteAppends(q);
      FillSeatsPromotes(Promote(q).0);
    }
  }

  lemma PromoteAppends(q: Queue)
    requires |q.active| < q.capacity && q.waitlist != []
    ensures var (p, id) := Promote(q);
            id.Some? && Ids(p.active) == Ids(q.active) + [id.value]
  {
  }

  lemma JoinKeeps(q: Queue, userId: int, roles: seq<string>)
    requires Sound(q)
    ensures Joined(q, userId, roles).Err? <==> q.status == Cancelled
    ensures Joined(q, userId, roles).Ok? ==>
              var (p, to) := Joined(q, userId, roles).value;
              && Sound(p) && SameBut(q, p, userId)
              && (to == Unchanged <==> Has(Everyone(q), userId)) && (to == Unchanged ==> p == q)
              && (to == ToActive ==> |q.active| < q.capacity && p.waitlist == q.waitlist)
              && (to == ToWaitlist ==> |q.active| == q.capacity && p.active == q.active)
  {
    if Joined(q, userId, roles).Ok? {
      if !Has(Everyone(q), userId) {
        var m := Member(userId, DistinctRoles(roles), q.nextSequence);
        NewMemberKeeps(q, m);
      }
    }
  }

  /** The second queue holds the members of the first and this user. */
  ghost predicate SameBut(q: Queue, p: Queue, userId: int) {
    forall id :: Has(Everyone(p), id) <==> Has(Everyone(q), id) || id == userId
  }

  function WithNew(q: Queue, m: Member): Queue {
    var next := q.(nextSequence := q.nextSequence + 1);
    if |q.active| < q.capacity then next.(active := q.active + [m]) else next.(waitlist := q.waitlist + [m])
  }

  lemma EveryoneAndOne(q: Queue, m: Member)
    ensures multiset(Everyone(WithNew(q, m))) == multiset(Everyone(q) + [m])
    ensures forall n :: n in Everyone(WithNew(q, m)) <==> n in Everyone(q) || n == m
  {
    var p := WithNew(q, m);
    assert multiset(Everyone(p)) == multiset(Everyone(q) + [m]);
    forall n ensures n in Everyone(p) <==> n in Everyone(q) || n == m {
      assert n in multiset(Everyone(p)) <==> n in multiset(Everyone(q) + [m]);
    }
  }

  lemma StillActive(q: Queue, m: Member)
    requires forall id :: id in q.ready ==> Has(q.active, id)
    ensures forall id :: id in q.ready ==> Has(WithNew(q, m).active, id)
  {
    hide Has;
    forall id | id in q.ready ensures Has(WithNew(q, m).active, id) {
      HasMember(q.active, id);
      HasMember(WithNew(q, m).active, id);
    }
  }

  lemma NewMemberKeeps(q: Queue, m: Member)
    requires Sound(q) && !Has(Everyone(q), m.userId) && m.joinedSequence == q.nextSequence
    ensures Sound(WithNew(q, m)) && SameBut(q, WithNew(q, m), m.userId)
  {
    hide Has, AllApart;
    var p := WithNew(q, m);
    JoinApart(q, m);
    WaitsBehind(q);
    EveryoneAndOne(q, m);
    ApartSub(Everyone(q) + [m], Everyone(p));
    SameButNew(Everyone(q), Everyone(p), m);
    StillActive(q, m);
  }

  lemma SameButNew(a: seq<Member>, b: seq<Member>, m: Member)
    requires forall n :: n in b <==> n in a || n == m
    ensures forall id :: Has(b, id) <==> Has(a, id) || id == m.userId
  {
    forall id ensures Has(b, id) <==> Has(a, id) || id == m.userId {
      HasMember(a, id);
      HasMember(b, id);
      assert m in b;
    }
  }

  lemma WaitsBehind(q: Queue)
    requires Tidy(q)
    ensures forall m :: m in q.waitlist ==> m.joinedSequence < q.nextSequence
  {
    forall m | m in q.waitlist ensures m.joinedSequence < q.nextSequence {
      assert m in Everyone(q);
    }
  }

  lemma JoinApart(q: Queue, m: Member)
    requires Tidy(q) && !Has(Everyone(q), m.userId) && m.joinedSequence == q.nextSequence
    ensures AllApart(Everyone(q) + [m])
  {
    forall i | 0 <= i < |Everyone(q)| ensures !Clash(Everyone(q)[i], m) {
      assert Everyone(q)[i] in Everyone(q);
      HasMember(Everyone(q), m.userId);
    }
  }

  /** A departure removes exactly that player, keeps every other one, and a freed
      seat goes to somebody who waited. */
  lemma LeaveKeeps(q: Queue, userId: int)
    requires Sound(q)
    ensures var (p, promoted) := Left(q, userId);
            && Sound(p)
            && (forall m :: m in Everyone(p) <==> m in Everyone(q) && m.userId != userId)
            && (promoted.Some? <==> Has(q.active, userId) && q.waitlist != [])
            && p.status == q.status && p.deadline == q.deadline && p.extensionsUsed == q.extensionsUsed && p.capacity == q.capacity
  {
    var out := q.(active := Remove(q.active, userId), waitlist := Remove(q.waitlist, userId),
                  ready := ForgetReady(q.ready, [userId]));
    DropTidy(q, userId);
    PromoteKeeps(out);
    var p := Left(q, userId).0;
    forall m ensures m in Everyone(p) <==> m in Everyone(q) && m.userId != userId {
      assert m in multiset(Everyone(Promote(out).0)) <==> m in multiset(Everyone(out));
      assert m in Everyone(out) <==> m in Everyone(q) && m.userId != userId;
      if !Has(q.active, userId) && !Has(q.waitlist, userId) {
        HasMember(q.active, userId);
        HasMember(q.waitlist, userId);
      }
    }
  }

  /** Removing a user from both lanes, with their answer. */
  lemma DropTidy(q: Queue, userId: int)
    requires Sound(q)
    ensures var out := q.(active := Remove(q.active, userId), waitlist := Remove(q.waitlist, userId),
                          ready := ForgetReady(q.ready, [userId]));
            && Tidy(out)
            && (forall m :: m in Everyone(out) <==> m in Everyone(q) && m.userId != userId)
            && |out.active| == |q.active| - (if Has(q.active, userId) then 1 else 0)
            && |out.waitlist| == |q.waitlist| - (if Has(q.waitlist, userId) then 1 else 0)
            && !(Has(q.active, userId) && Has(q.waitlist, userId))
            && (!Has(q.waitlist, userId) ==> out.waitlist == q.waitlist)
  {
    var out := q.(active := Remove(q.active, userId), waitlist := Remove(q.waitlist, userId),
                  ready := ForgetReady(q.ready, [userId]));
    LanesApart(q);
    RemoveTakesOne(q.active, userId);
    RemoveTakesOne(q.waitlist, userId);
    RemoveIsExact(q.active, userId);
    RemoveIsExact(q.waitlist, userId);
    assert multiset(Everyone(out)) == multiset(out.active) + multiset(out.waitlist);
    assert multiset(Everyone(q)) == multiset(q.active) + multiset(q.waitlist);
    ApartSub(Everyone(q), Everyone(out));
    RemoveKeepsOrder(q.waitlist, userId);
    forall id | id in out.ready ensures Has(out.active, id) {
      HasMember(q.active, id);
      HasMember(out.active, id);
    }
    if Has(q.active, userId) { LaneOf(q, userId); }
  }

  lemma LanesApart(q: Queue)
    requires Tidy(q)
    ensures AllApart(q.active) && AllApart(q.waitlist)
  {
    ApartSub(Everyone(q), q.active);
    ApartSub(Everyone(q), q.waitlist);
  }

  lemma PromoteFrame(q: Queue, r: Queue)
    requires q.active == r.active && q.waitlist == r.waitlist && q.capacity == r.capacity
    ensures Promote(q).1 == Promote(r).1
    ensures Promote(q).0 == q.(active := Promote(r).0.active, waitlist := Promote(r).0.waitlist)
  {
  }

  /** Dropping out of a ready check ends the check for everybody: the player is
      gone, the seat goes to somebody who waited, and all answers are cleared. */
  lemma DropKeeps(q: Queue, userId: int, now: int, c: Config)
    requires Sound(q) && Responded(q, userId, Drop, now, c).Ok?
    ensures var (p, promoted) := Responded(q, userId, Drop, now, c).value;
            && Sound(p) && p.status == Open && p.ready == map[] && p.deadline == None && p.capacity == q.capacity
            && (forall m :: m in Everyone(p) <==> m in Everyone(q) && m.userId != userId)
            && (promoted.Some? <==> q.waitlist != [])
  {
    var out := q.(active := Remove(q.active, userId), waitlist := Remove(q.waitlist, userId),
                  ready := ForgetReady(q.ready, [userId]));
    DropTidy(q, userId);
    PromoteKeeps(out);
    var gone := q.(active := Remove(q.active, userId));
    PromoteFrame(gone, out);
    DropWhoWaits(q, userId);
    hide Promote, Remove, Tidy, Find, ForgetReady;
    var t := Promote(out).0;
    var p := Responded(q, userId, Drop, now, c).value.0;
    assert p == t.(ready := map[], status := Open, deadline := None, extensionsUsed := q.extensionsUsed);
    TidyWhenCleared(t, p);
    forall m ensures m in Everyone(p) <==> m in Everyone(out) {
      assert m in multiset(Everyone(t)) <==> m in multiset(Everyone(out));
    }
  }

  lemma TidyWhenCleared(q: Queue, p: Queue)
    requires Tidy(q) && p == q.(ready := map[], status := p.status, deadline := p.deadline, extensionsUsed := p.extensionsUsed)
    ensures Tidy(p) && Everyone(p) == Everyone(q)
  {
  }

  lemma DropWhoWaits(q: Queue, userId: int)
    requires Sound(q) && Has(q.active, userId)
    ensures !Has(q.waitlist, userId)
    ensures Promote(q.(active := Remove(q.active, userId))).1.Some? <==> q.waitlist != []
  {
    LaneOf(q, userId);
    RemoveTakesOne(q.active, userId);
  }

  lemma AnswerKeeps(q: Queue, userId: int, status: ReadyStatus, now: int, c: Config)
    requires Sound(q) && status != Drop && Responded(q, userId, status, now, c).Ok?
    ensures var (p, promoted) := Responded(q, userId, status, now, c).value;
            Sound(p) && promoted == None && Everyone(p) == Everyone(q) && p.active == q.active && p.status == q.status
  {
    var p := Responded(q, userId, status, now, c).value.0;
    assert Everyone(p) == Everyone(q);
  }

  lemma {:induction false} NotReadyAre(q: Queue, members: seq<Member>)
    ensures forall id :: id in NotReady(q, members) <==> Has(members, id) && !(id in q.ready && q.ready[id] == Ready)
  {
    if members != [] {
      NotReadyAre(q, members[1..]);
      forall id ensures Has(members, id) <==> members[0].userId == id || Has(members[1..], id) { }
    }
  }

  /** The second list holds the members of the first whose users are not named. */
  ghost predicate WithoutIds(a: seq<Member>, b: seq<Member>, ids: seq<int>) {
    forall m :: m in b <==> m in a && m.userId !in ids
  }

  lemma WithoutBoth(a: seq<Member>, b: seq<Member>, d: seq<Member>, ids: seq<int>)
    requires ids != [] && WithoutIds(a, b, [ids[0]]) && WithoutIds(b, d, ids[1..])
    ensures WithoutIds(a, d, ids)
  {
    assert ids == [ids[0]] + ids[1..];
  }

  /** Sending active players away, whether or not somebody waits. */
  lemma {:induction false} SendAwayTidy(q: Queue, ids: seq<int>)
    requires Tidy(q) && forall id :: id in ids ==> !Has(q.waitlist, id)
    ensures var p := q.(active := RemoveAll(q.active, ids), ready := ForgetReady(q.ready, ids));
            Tidy(p) && WithoutIds(Everyone(q), Everyone(p), ids)
    decreases |ids|
  {
    hide Tidy;
    if ids == [] {
      assert ForgetReady(q.ready, ids) == q.ready;
    } else {
      var id := ids[0];
      var one := q.(active := Remove(q.active, id), ready := ForgetReady(q.ready, [id]));
      assert id in ids;
      SendOneAwayTidy(q, id);
      SendAwayTidy(one, ids[1..]);
      var p := q.(active := RemoveAll(q.active, ids), ready := ForgetReady(q.ready, ids));
      ForgetBoth(q.ready, ids);
      assert p == one.(active := RemoveAll(one.active, ids[1..]), ready := ForgetReady(one.ready, ids[1..]));
      WithoutBoth(Everyone(q), Everyone(one), Everyone(p), ids);
    }
  }

  lemma ForgetBoth(ready: map<int, ReadyStatus>, ids: seq<int>)
    requires ids != []
    ensures ForgetReady(ForgetReady(ready, [ids[0]]), ids[1..]) == ForgetReady(ready, ids)
  {
    assert ids == [ids[0]] + ids[1..];
  }

  lemma SendOneAwayTidy(q: Queue, id: int)
    requires Tidy(q) && !Has(q.waitlist, id)
    ensures var p := q.(active := Remove(q.active, id), ready := ForgetReady(q.ready, [id]));
            Tidy(p) && WithoutIds(Everyone(q), Everyone(p), [id])
  {
    hide Has, AllApart, Remove;
    var p := q.(active := Remove(q.active, id), ready := ForgetReady(q.ready, [id]));
    LanesApart(q);
    RemoveTakesOne(q.active, id);
    RemoveIsExact(q.active, id);
    HasMember(q.waitlist, id);
    assert multiset(Everyone(p)) == multiset(p.active) + multiset(q.waitlist);
    assert multiset(Everyone(q)) == multiset(q.active) + multiset(q.waitlist);
    ApartSub(Everyone(q), Everyone(p));
    forall other | other in p.ready ensures Has(p.active, other) {
      HasMember(q.active, other);
      HasMember(p.active, other);
    }
  }

  /** A check that times out with cancellation off sends away exactly the active
      players who were not ready, and fills their seats. */
  lemma ExpireKeeps(q: Queue, now: int, c: Config)
    requires Sound(q)
    ensures var (p, late) := Expired(q, now, c);
            && Sound(p) && p.capacity == q.capacity
            && (late != [] ==> q.status == ReadyCheck && q.deadline.Some? && now >= q.deadline.value)
            && (forall id :: id in late ==> Has(q.active, id) && !(id in q.ready && q.ready[id] == Ready))
            && (c.cancelOnTimeout ==> Everyone(p) == Everyone(q) && p.active == q.active)
            && (!c.cancelOnTimeout ==> forall m :: m in Everyone(p) <==> m in Everyone(q) && m.userId !in late)
            && (p.status == ReadyCheck ==> p == q)
  {
    if q.status == ReadyCheck && q.deadline.Some? && now >= q.deadline.value {
      var late := NotReady(q, q.active);
      NotReadyAre(q, q.active);
      if c.cancelOnTimeout {
        assert Everyone(q.(status := Cancelled)) == Everyone(q);
      } else {
        forall id | id in late ensures !Has(q.waitlist, id) { LaneOf(q, id); }
        SendAwayTidy(q, late);
        var kept := q.(active := RemoveAll(q.active, late), ready := ForgetReady(q.ready, late));
        FillSeatsKeeps(kept);
        var p := Expired(q, now, c).0;
        assert Everyone(p) == Everyone(FillSeats(kept).0);
        forall m ensures m in Everyone(p) <==> m in Everyone(kept) {
          assert m in multiset(Everyone(p)) <==> m in multiset(Everyone(kept));
        }
      }
    }
  }

  lemma LaneOf(q: Queue, id: int)
    requires Tidy(q) && Has(q.active, id)
    ensures !Has(q.waitlist, id)
  {
    forall j | 0 <= j < |q.waitlist| ensures q.waitlist[j].userId != id {
      assert !Clash(Everyone(q)[Find(q.active, id)], Everyone(q)[|q.active| + j]);
    }
  }

  // ---- Resetting the roster -----------------------------------------------------

  lemma ApartFrom(a: seq<Member>, b: seq<Member>)
    requires AllApart(a) && (forall m :: m in b ==> m in a) && Distinct(b)
    ensures AllApart(b)
  {
    forall i, j | 0 <= i < j < |b| ensures !Clash(b[i], b[j]) {
      assert b[i] in a && b[j] in a && b[i] != b[j];
      var k :| 0 <= k < |a| && a[k] == b[i];
      var l :| 0 <= l < |a| && a[l] == b[j];
      if k < l { assert !Clash(a[k], a[l]); } else { assert !Clash(a[l], a[k]); }
    }
  }

  lemma ApartDistinct(a: seq<Member>)
    requires AllApart(a)
    ensures Distinct(a)
  {
    forall i, j | 0 <= i < j < |a| ensures a[i] != a[j] {
      assert !Clash(a[i], a[j]);
    }
  }

  lemma {:induction false} NotInDistinct(a: seq<Member>, ids: seq<int>)
    requires Distinct(a)
    ensures Distinct(NotIn(a, ids))
  {
    if a != [] {
      NotInDistinct(a[1..], ids);
      assert a[0] !in a[1..];
    }
  }

  /** Leaving these users out leaves the rest, so the sizes add up. */
  lemma {:induction false} NotInSize(a: seq<Member>, ids: seq<int>)
    requires AllApart(a) && Distinct(ids) && forall id :: id in ids ==> Has(a, id)
    ensures |NotIn(a, ids)| + |ids| == |a|
    decreases |ids|
  {
    if ids == [] {
      NotInNone(a);
    } else {
      var id, rest := ids[0], Remove(a, ids[0]);
      RemoveIsExact(a, id);
      RemoveTakesOne(a, id);
      ApartSub(a, rest);
      forall x | x in ids[1..] ensures Has(rest, x) {
        HasMember(a, x);
        HasMember(rest, x);
        assert x in ids && x != id;
      }
      assert id in ids;
      NotInSize(rest, ids[1..]);
      NotInAfterRemove(a, id, ids[1..]);
      assert ids == [id] + ids[1..];
    }
  }

  lemma {:induction false} NotInNone(a: seq<Member>)
    ensures NotIn(a, []) == a
  {
    if a != [] { NotInNone(a[1..]); }
  }

  lemma {:induction false} NotInAfterRemove(a: seq<Member>, id: int, rest: seq<int>)
    requires AllApart(a)
    ensures NotIn(Remove(a, id), rest) == NotIn(a, [id] + rest)
  {
    if a != [] {
      ApartTail(a);
      if a[0].userId == id {
        assert Remove(a, id) == a[1..];
        NotInAgree(a[1..], rest, [id] + rest);
      } else {
        NotInAfterRemove(a[1..], id, rest);
        RemoveFromTail(a, id);
        assert a[0].userId in [id] + rest <==> a[0].userId in rest;
      }
    }
  }

  lemma RemoveFromTail(a: seq<Member>, id: int)
    requires a != [] && a[0].userId != id
    ensures Remove(a, id) == [a[0]] + Remove(a[1..], id)
  {
    var i := Find(a[1..], id);
    assert Find(a, id) == i + 1;
    if i < |a| - 1 {
      assert a[1..][..i] == a[1..i + 1] && a[1..][i + 1..] == a[i + 2..];
      assert a[..i + 1] == [a[0]] + a[1..i + 1];
    } else {
      assert a == [a[0]] + a[1..];
    }
  }

  lemma ApartTail(a: seq<Member>)
    requires AllApart(a) && a != []
    ensures AllApart(a[1..]) && forall m :: m in a[1..] ==> m.userId != a[0].userId
  {
    forall m | m in a[1..] ensures m.userId != a[0].userId {
      var j :| 0 <= j < |a| - 1 && a[1..][j] == m;
      assert !Clash(a[0], a[j + 1]);
    }
  }

  lemma {:induction false} NotInAgree(a: seq<Member>, x: seq<int>, y: seq<int>)
    requires forall m :: m in a ==> (m.userId in x <==> m.userId in y)
    ensures NotIn(a, x) == NotIn(a, y)
  {
    if a != [] { NotInAgree(a[1..], x, y); }
  }

  lemma PickIsMembers(a: seq<Member>, ids: seq<int>)
    requires !Repeats(ids) && forall id :: id in ids ==> Has(a, id)
    ensures var p := Pick(a, ids);
            && Distinct(p) && Ids(p) == ids
            && (forall m :: m in p ==> m in a && m.userId in ids)
  {
    var p := Pick(a, ids);
    forall i | 0 <= i < |ids| ensures p[i].userId == ids[i] && p[i] in a {
      assert ids[i] in ids && Has(a, ids[i]);
    }
    forall i, j | 0 <= i < j < |p| ensures p[i] != p[j] {
      assert p[i].userId == ids[i] && p[j].userId == ids[j];
    }
  }

  /** Nothing is left of a ready check; capacity and count of joins stay. */
  ghost predicate CheckCleared(q: Queue, p: Queue) {
    && p.status == Open && p.ready == map[] && p.deadline == None && p.extensionsUsed == 0
    && p.capacity == q.capacity && p.nextSequence == q.nextSequence
  }

  /** A reset without a roster is always accepted, and only clears the check. */
  lemma ResetWithoutRoster(q: Queue)
    ensures RosterReset(q, None).Ok?
    ensures var p := RosterReset(q, None).value; CheckCleared(q, p) && p.active == q.active && p.waitlist == q.waitlist
  {
  }

  /** A roster that is accepted becomes the active list, in its own order; the
      others wait in the order they joined, and the check is cleared. */
  lemma ResetSeats(q: Queue, ids: seq<int>)
    requires AllApart(Everyone(q)) && RosterReset(q, Some(ids)).Ok?
    ensures var p := RosterReset(q, Some(ids)).value;
            && Ids(p.active) == ids && AllApart(Everyone(p)) && InJoinOrder(p.waitlist)
            && |p.active| + |p.waitlist| == |Everyone(q)|
            && (forall m :: m in Everyone(p) <==> m in Everyone(q))
            && CheckCleared(q, p)
  {
    var a := Everyone(q);
    var p := RosterReset(q, Some(ids)).value;
    var active, rest := Pick(a, ids), NotIn(a, ids);
    PickIsMembers(a, ids);
    ApartDistinct(a);
    NotInDistinct(a, ids);
    assert Distinct(ids);
    NotInSize(a, ids);
    SameMultisetDistinct(rest, p.waitlist);
    forall m ensures m in p.waitlist <==> m in rest { assert m in multiset(p.waitlist) <==> m in multiset(rest); }
    BothDistinct(active, p.waitlist, ids);
    ApartFrom(a, Everyone(p));
    forall m | m in a ensures m in Everyone(p) {
      if m.userId in ids { PickHas(a, ids, m); } else { assert m in rest; }
    }
    WaitlistSorted(p.waitlist, rest, a);
  }

  lemma BothDistinct(active: seq<Member>, waitlist: seq<Member>, ids: seq<int>)
    requires Distinct(active) && Distinct(waitlist)
    requires (forall m :: m in active ==> m.userId in ids) && (forall m :: m in waitlist ==> m.userId !in ids)
    ensures Distinct(active + waitlist)
  {
    var all := active + waitlist;
    forall i, j | 0 <= i < j < |all| ensures all[i] != all[j] {
      if i < |active| <= j { assert all[i] in active && all[j] in waitlist; }
    }
  }

  lemma PickHas(a: seq<Member>, ids: seq<int>, m: Member)
    requires AllApart(a) && m in a && m.userId in ids && forall id :: id in ids ==> Has(a, id)
    ensures m in Pick(a, ids)
  {
    var i :| 0 <= i < |ids| && ids[i] == m.userId;
    var k :| 0 <= k < |a| && a[k] == m;
    var f := Find(a, ids[i]);
    forall j | 0 <= j < k ensures a[j].userId != m.userId { assert !Clash(a[j], a[k]); }
    assert Pick(a, ids)[i] == m;
  }

  lemma WaitlistSorted(w: seq<Member>, rest: seq<Member>, a: seq<Member>)
    requires w == SortBy(rest, SequenceKey) && AllApart(a) && Distinct(w) && forall m :: m in w ==> m in a
    ensures InJoinOrder(w)
  {
    ApartFrom(a, w);
    forall i, j | 0 <= i < j < |w| ensures w[i].joinedSequence < w[j].joinedSequence {
      assert LexLeq(SequenceKey(w[i]), SequenceKey(w[j]));
      LexSingle(w[i].joinedSequence, w[j].joinedSequence);
      assert !Clash(w[i], w[j]);
    }
  }

  /** Resetting checks for repeated and unknown players only; it keeps the queue
      sound exactly when the new roster fills the seats that can be filled. */
  lemma ResetKeepsExactlyWhenItFills(q: Queue, ids: seq<int>)
    requires Sound(q) && RosterReset(q, Some(ids)).Ok?
    ensures Sound(RosterReset(q, Some(ids)).value) <==> |ids| == Min(q.capacity, |Everyone(q)|)
  {
    ResetSeats(q, ids);
    hide Pick, NotIn, SortBy, Has, RosterReset, AllApart, InJoinOrder;
    var p := RosterReset(q, Some(ids)).value;
    assert |p.active| == |ids| && |Everyone(q)| == |q.active| + |q.waitlist|;
  }

  /** A roster of one in a lobby of two strands the player who waits. */
  lemma ResetCanStrandAPlayer()
    ensures var q := Queue(2, [Member(1, [], 1), Member(2, [], 2)], [], map[], Open, None, 0, 3);
            Sound(q) && RosterReset(q, Some([1])).Ok? && !Sound(RosterReset(q, Some([1])).value)
  {
    var q := Queue(2, [Member(1, [], 1), Member(2, [], 2)], [], map[], Open, None, 0, 3);
    assert Everyone(q) == [Member(1, [], 1), Member(2, [], 2)];
    HasMember(Everyone(q), 1);
    assert Everyone(q)[0].userId == 1;
    ResetKeepsExactlyWhenItFills(q, [1]);
  }

  // ---- Every run ------------------------------------------------------------------

  datatype Command =
    | DoResize(capacity: int)
    | DoReset(activeIds: Option<seq<int>>)
    | DoJoin(joiner: int, roles: seq<string>)
    | DoLeave(leaver: int)
    | DoStart(startedAt: int)
    | DoRespond(responder: int, answer: ReadyStatus, respondedAt: int)
    | DoExpire(expiredAt: int)

  /** The queue the repository holds after a command: an error saves nothing. */
  function After(c: Config, q: Queue, command: Command): Queue {
    match command
    case DoResize(capacity) => (match Resized(q, capacity) case Ok(r) => r.0 case Err(_) => q)
    case DoReset(ids) => (match RosterReset(q, ids) case Ok(r) => r case Err(_) => q)
    case DoJoin(user, roles) => (match Joined(q, user, roles) case Ok(r) => r.0 case Err(_) => q)
    case DoLeave(user) => Left(q, user).0
    case DoStart(now) => (match ReadyCheckStarted(q, now, c) case Ok(r) => r case Err(_) => q)
    case DoRespond(user, status, now) => (match Responded(q, user, status, now, c) case Ok(r) => r.0 case Err(_) => q)
    case DoExpire(now) => Expired(q, now, c).0
  }

  /** When the ready check in progress began. */
  function Began(c: Config, q: Queue, begun: int, command: Command): int {
    if command.DoStart? && ReadyCheckStarted(q, command.startedAt, c).Ok? then command.startedAt else begun
  }

  ghost predicate FillsSeats(q: Queue, command: Command) {
    command.DoReset? && command.activeIds.Some? && RosterReset(q, command.activeIds).Ok? ==>
      |command.activeIds.value| == Min(q.capacity, |Everyone(q)|)
  }

  /** Every roster reset of the run fills the seats. */
  ghost predicate FillingRun(c: Config, q: Queue, run: seq<Command>)
    decreases |run|
  {
    run == [] || (FillsSeats(q, run[0]) && FillingRun(c, After(c, q, run[0]), run[1..]))
  }

  function AfterAll(c: Config, q: Queue, run: seq<Command>): Queue
    decreases |run|
  {
    if run == [] then q else AfterAll(c, After(c, q, run[0]), run[1..])
  }

  function BeganAll(c: Config, q: Queue, begun: int, run: seq<Command>): int
    decreases |run|
  {
    if run == [] then begun else BeganAll(c, After(c, q, run[0]), Began(c, q, begun, run[0]), run[1..])
  }

  lemma CommandKeepsSound(c: Config, q: Queue, command: Command)
    requires Sound(q)
    ensures Sound(After(c, q, command)) <==> FillsSeats(q, command)
  {
    match command
    case DoResize(capacity) => ResizeKeeps(q, capacity);
    case DoReset(ids) =>
      if ids.Some? && RosterReset(q, ids).Ok? {
        ResetKeepsExactlyWhenItFills(q, ids.value);
      } else {
        assert Everyone(Reopened(q)) == Everyone(q);
      }
    case DoJoin(user, roles) => JoinKeeps(q, user, roles);
    case DoLeave(user) => LeaveKeeps(q, user);
    case DoStart(now) =>
      if q.active != [] { assert Everyone(After(c, q, command)) == Everyone(q); }
    case DoRespond(user, status, now) =>
      if Responded(q, user, status, now, c).Ok? {
        if status == Drop { DropKeeps(q, user, now, c); } else { AnswerKeeps(q, user, status, now, c); }
      }
    case DoExpire(now) => ExpireKeeps(q, now, c);
  }

  lemma CommandKeepsTime(c: Config, q: Queue, begun: int, command: Command)
    requires ValidConfig(c) && Sound(q) && OnTime(q, begun, c)
    ensures OnTime(After(c, q, command), Began(c, q, begun, command), c)
  {
    hide Has, Sound, Remove, FillSeats, SortBy, DistinctRoles;
    match command
    case DoResize(capacity) => ResizeKeeps(q, capacity);
    case DoReset(ids) =>
    case DoJoin(user, roles) =>
    case DoLeave(user) => LeaveKeeps(q, user);
    case DoStart(now) =>
    case DoRespond(user, status, now) =>
      if status == Need5 && Responded(q, user, status, now, c).Ok? {
        assert (q.extensionsUsed + 1) * c.extension == q.extensionsUsed * c.extension + c.extension;
      }
    case DoExpire(now) => ExpireKeeps(q, now, c);
  }

  /** In every run from a new queue: no player in two places, no empty seat while
      somebody waits, a waitlist in the order of joining, answers only from
      active players, and a deadline that is the start of the check plus its
      timeout plus the extensions granted, at most the budget of them. */
  lemma {:induction false} EveryRunIsSound(c: Config, q: Queue, begun: int, run: seq<Command>)
    requires ValidConfig(c) && Sound(q) && OnTime(q, begun, c) && FillingRun(c, q, run)
    ensures Sound(AfterAll(c, q, run)) && OnTime(AfterAll(c, q, run), BeganAll(c, q, begun, run), c)
    decreases |run|
  {
    if run != [] {
      CommandKeepsSound(c, q, run[0]);
      CommandKeepsTime(c, q, begun, run[0]);
      EveryRunIsSound(c, After(c, q, run[0]), Began(c, q, begun, run[0]), run[1..]);
    }
  }

  lemma NewQueueIsSound(c: Config, capacity: int, begun: int)
    requires capacity >= 1
    ensures Sound(NewQueue(capacity)) && OnTime(NewQueue(capacity), begun, c)
  {
    assert Everyone(NewQueue(capacity)) == [];
  }

  lemma RunsFromNewQueue(c: Config, capacity: int, run: seq<Command>)
    requires ValidConfig(c) && capacity >= 1 && FillingRun(c, NewQueue(capacity), run)
    ensures Sound(AfterAll(c, NewQueue(capacity), run))
    ensures OnTime(AfterAll(c, NewQueue(capacity), run), BeganAll(c, NewQueue(capacity), 0, run), c)
  {
    NewQueueIsSound(c, capacity, 0);
    EveryRunIsSound(c, NewQueue(capacity), 0, run);
  }

  // ---- What a member prefers ------------------------------------------------------

  lemma {:induction false} DistinctRolesAre(roles: seq<string>)
    ensures Distinct(DistinctRoles(roles)) && forall r :: r in DistinctRoles(roles) <==> r in roles
    ensures roles != [] ==> DistinctRoles(roles) != [] && DistinctRoles(roles)[0] == roles[0]
  {
    if roles != [] {
      var n := |roles| - 1;
      DistinctRolesAre(roles[..n]);
      assert roles == roles[..n] + [roles[n]];
    }
  }

  /** A new player keeps the roles they gave, each once and the first one first,
      behind everybody who is in the queue, in the line they were told. */
  lemma JoinRecords(q: Queue, userId: int, roles: seq<string>)
    requires Joined(q, userId, roles).Ok? && !Has(Everyone(q), userId)
    ensures var (p, to) := Joined(q, userId, roles).value;
            exists m: Member :: m.userId == userId && m.joinedSequence == q.nextSequence && Distinct(m.roles)
              && (forall r :: r in m.roles <==> r in roles) && (roles != [] ==> m.roles != [] && m.roles[0] == roles[0])
              && if |q.active| < q.capacity then to == ToActive && p == q.(active := q.active + [m], nextSequence := q.nextSequence + 1)
                 else to == ToWaitlist && p == q.(waitlist := q.waitlist + [m], nextSequence := q.nextSequence + 1)
  {
    DistinctRolesAre(roles);
    var m := Member(userId, DistinctRoles(roles), q.nextSequence);
    hide DistinctRoles, Has;
    assert m.userId == userId;
  }

  lemma RolesStay(a: seq<Member>, b: seq<Member>)
    requires RolesOnce(a) && forall m :: m in b ==> m in a
    ensures RolesOnce(b)
  {
  }

  lemma SameMembers(a: seq<Member>, b: seq<Member>)
    requires multiset(a) == multiset(b)
    ensures forall m :: m in b <==> m in a
  {
    forall m ensures m in b <==> m in a { assert m in multiset(b) <==> m in multiset(a); }
  }

  lemma CommandKeepsRoles(c: Config, q: Queue, command: Command)
    requires Sound(q) && RolesOnce(Everyone(q))
    ensures RolesOnce(Everyone(After(c, q, command)))
  {
    hide Sound, Tidy, Has, RolesOnce, Promote, FillSeats, Remove, ForgetReady, DistinctRoles, Pick, NotIn;
    var p := After(c, q, command);
    match command
    case DoResize(capacity) =>
      ResizeKeeps(q, capacity);
      SameMembers(Everyone(q), Everyone(p));
      RolesStay(Everyone(q), Everyone(p));
    case DoReset(ids) =>
      SoundApart(q);
      if ids.Some? && RosterReset(q, ids).Ok? { ResetSeats(q, ids.value); }
      if ids.None? { assert Everyone(p) == Everyone(q); }
      RolesStay(Everyone(q), Everyone(p));
    case DoJoin(user, roles) => JoinKeepsRoles(q, user, roles);
    case DoLeave(user) =>
      LeaveKeeps(q, user);
      RolesStay(Everyone(q), Everyone(p));
    case DoStart(now) => assert Everyone(p) == Everyone(q);
    case DoRespond(user, status, now) =>
      if Responded(q, user, status, now, c).Ok? {
        if status == Drop { DropKeeps(q, user, now, c); } else { AnswerKeeps(q, user, status, now, c); }
      }
      RolesStay(Everyone(q), Everyone(p));
    case DoExpire(now) =>
      ExpireKeeps(q, now, c);
      RolesStay(Everyone(q), Everyone(p));
  }

  lemma SoundApart(q: Queue)
    requires Sound(q)
    ensures AllApart(Everyone(q))
  {
  }

  lemma JoinKeepsRoles(q: Queue, userId: int, roles: seq<string>)
    requires RolesOnce(Everyone(q))
    ensures Joined(q, userId, roles).Ok? ==> RolesOnce(Everyone(Joined(q, userId, roles).value.0))
  {
    hide Has, DistinctRoles;
    if Joined(q, userId, roles).Ok? && !Has(Everyone(q), userId) {
      DistinctRolesAre(roles);
      EveryoneAndOne(q, Member(userId, DistinctRoles(roles), q.nextSequence));
    }
  }

  /** In every such run each member's roles are given once. */
  lemma {:induction false} EveryRunKeepsRoles(c: Config, q: Queue, begun: int, run: seq<Command>)
    requires ValidConfig(c) && Sound(q) && OnTime(q, begun, c) && FillingRun(c, q, run) && RolesOnce(Everyone(q))
    ensures RolesOnce(Everyone(AfterAll(c, q, run)))
    decreases |run|
  {
    hide Sound, OnTime, RolesOnce, After, Everyone;
    if run != [] {
      CommandKeepsSound(c, q, run[0]);
      CommandKeepsTime(c, q, begun, run[0]);
      CommandKeepsRoles(c, q, run[0]);
      EveryRunKeepsRoles(c, After(c, q, run[0]), Began(c, q, begun, run[0]), run[1..]);
    }
  }
}
