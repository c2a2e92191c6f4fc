/** A player of the last match who waits in the queue: what a 5v5 continuation
    makes of it, told from its inputs. */
module MatchOverlap {
  import opened Common
  import opened MatchRecords
  import opened MatchContinuity
  import opened MatchTeamsTheorems
  import PQ = PartyQueue
  import PQI = PartyQueueInvariant
  import PQR = PartyQueueReplay

  /** A 5v5 with enough players for the next match. */
  ghost predicate CanContinue(record: MatchRecord, queue: PQ.Queue, departures: set<int>) {
    && FiveOnFive(record) && PQR.Apart(queue) && (forall m :: m in queue.waitlist ==> m.userId > 0)
    && |Staying(Participants(record), departures)| + |queue.waitlist| >= 10
  }

  predicate Stays(record: MatchRecord, departures: set<int>, id: int) { HasId(Participants(record), id) && id !in departures }

  ghost predicate StayerWaits(record: MatchRecord, queue: PQ.Queue, departures: set<int>) {
    exists id :: id in MemberIds(queue.waitlist) && Stays(record, departures, id)
  }

  function Others(record: MatchRecord, departures: set<int>, ids: seq<int>): seq<int> {
    if ids == [] then []
    else (if Stays(record, departures, ids[0]) then [] else [ids[0]]) + Others(record, departures, ids[1..])
  }

  ghost predicate FiveEach(record: MatchRecord, roster: seq<MatchPlayer>) {
    var (a, b) := SameSides(record, roster); |a| == 5 && |b| == 5
  }

  // ---- The roster is found ----------------------------------------------------------------

  lemma {:induction false} SubstitutesAreFound(roster: seq<MatchPlayer>, waiting: seq<PQ.Member>, departed: Option<MatchPlayer>, size: nat)
    requires forall m :: m in waiting ==> m.userId > 0
    ensures WithSubstitutes(roster, waiting, departed, size).Ok?
    decreases |waiting|
  {
    if |roster| < size && waiting != [] {
      var i := MinIndex(waiting, SubstituteOrder(roster));
      assert waiting[i] in waiting;
      hide SubstituteOrder, PreferredRole, MinIndex;
      SubstitutesAreFound(roster + [MatchPlayer(waiting[i].userId, PreferredRole(waiting[i], departed))],
                          waiting[..i] + waiting[i + 1..], departed, size);
    }
  }

  lemma Continuing(record: MatchRecord, queue: PQ.Queue, departures: set<int>) returns (staying: seq<MatchPlayer>, promoted: seq<MatchPlayer>)
    requires CanContinue(record, queue, departures)
    ensures Continues(record, queue, departures, staying, promoted) && |staying| + |promoted| == 10
  {
    hide WithSubstitutes, Distinct, Staying, PQR.Apart, HasId, MemberIds;
    var all := Participants(record);
    staying := Staying(all, departures);
    StayingIs(all, departures);
    WaitlistDistinct(queue);
    SubstitutesAreFound(staying, queue.waitlist, FirstDeparted(all, departures), |all|);
    SubstitutesAreWaiting(staying, queue.waitlist, FirstDeparted(all, departures), |all|);
    var roster := NextRoster(record, queue, departures).value;
    promoted := roster[|staying|..];
    assert roster == staying + promoted;
  }

  // ---- Told from the inputs ---------------------------------------------------------------

  /** When no player who stays is on the waitlist, the next match has five on each
      side, everybody keeping theirs. */
  lemma FiveEachWhenNoStayerWaits(record: MatchRecord, queue: PQ.Queue, departures: set<int>)
    requires CanContinue(record, queue, departures) && !StayerWaits(record, queue, departures)
    ensures NextRoster(record, queue, departures).Ok?
    ensures var roster := NextRoster(record, queue, departures).value;
            && FiveEach(record, roster) && Teams(record, roster, false).Ok?
            && var (one, two) := Teams(record, roster, false).value;
            && |one.players| == 5 && |two.players| == 5
            && (forall id :: HasId(record.teamOne.players, id) && id !in departures ==> HasId(one.players, id))
            && (forall id :: HasId(record.teamTwo.players, id) && id !in departures ==> HasId(two.players, id))
            && (forall id :: !(HasId(one.players, id) && HasId(two.players, id)))
  {
    var staying, promoted := Continuing(record, queue, departures);
    ContinuingRoster(record, queue, departures, staying, promoted);
    hide Continues, Distinct, Teams, SameSides, Newcomers, MemberIds, FiveOnFive;
    forall p | p in promoted ensures !HasId(staying, p.userId) {
      assert p.userId in MemberIds(queue.waitlist);
      assert HasId(staying, p.userId) ==> Stays(record, departures, p.userId);
    }
    RosterIs(record, queue, departures, staying, promoted);
    ContinuationKeepsSides(record, queue, departures, staying, promoted);
    FiveExactlyWithoutOverlap(record, queue, departures, staying, promoted);
  }

  lemma RosterIs(record: MatchRecord, queue: PQ.Queue, departures: set<int>, staying: seq<MatchPlayer>, promoted: seq<MatchPlayer>)
    requires Continues(record, queue, departures, staying, promoted)
    ensures NextRoster(record, queue, departures) == Ok(staying + promoted)
  {
  }

  /** When fewer others wait than seats are free, a player who stays is promoted
      too, and the next match does not have five on each side. */
  lemma NotFiveEachWhenOthersAreTooFew(record: MatchRecord, queue: PQ.Queue, departures: set<int>)
    requires CanContinue(record, queue, departures)
    requires |Staying(Participants(record), departures)| + |Others(record, departures, MemberIds(queue.waitlist))| < 10
    ensures NextRoster(record, queue, departures).Ok? && !FiveEach(record, NextRoster(record, queue, departures).value)
  {
    var staying, promoted := Continuing(record, queue, departures);
    ContinuingRoster(record, queue, departures, staying, promoted);
    FiveExactlyWithoutOverlap(record, queue, departures, staying, promoted);
    RosterIs(record, queue, departures, staying, promoted);
    StayingOf(record, queue, departures, staying, promoted);
    hide Continues, Distinct, Teams, SameSides, Newcomers, MemberIds, FiveOnFive, Staying;
    if NoOverlap(staying, promoted) {
      forall id | id in PlayerIds(promoted) ensures id in Others(record, departures, MemberIds(queue.waitlist)) {
        var i :| 0 <= i < |promoted| && PlayerIds(promoted)[i] == id;
        assert promoted[i] in promoted;
        OthersAre(record, departures, MemberIds(queue.waitlist), id);
      }
      NotLonger(PlayerIds(promoted), Others(record, departures, MemberIds(queue.waitlist)));
    }
  }

  lemma {:induction false} FewerOthers(record: MatchRecord, departures: set<int>, ids: seq<int>)
    ensures |Others(record, departures, ids)| <= |ids|
    ensures (exists id :: id in ids && Stays(record, departures, id)) ==> |Others(record, departures, ids)| < |ids|
  {
    hide Stays;
    if ids != [] {
      FewerOthers(record, departures, ids[1..]);
      assert forall id :: id in ids <==> id == ids[0] || id in ids[1..];
    }
  }

  /** When everybody who waits is needed, the next match has five on each side
      exactly when none of them stays. */
  lemma FiveEachExactlyWhenNoStayerWaits(record: MatchRecord, queue: PQ.Queue, departures: set<int>)
    requires CanContinue(record, queue, departures) && |Staying(Participants(record), departures)| + |queue.waitlist| == 10
    ensures NextRoster(record, queue, departures).Ok?
    ensures FiveEach(record, NextRoster(record, queue, departures).value) <==> !StayerWaits(record, queue, departures)
  {
    hide FiveEach, NextRoster, Staying, Teams, Stays;
    if StayerWaits(record, queue, departures) {
      FewerOthers(record, departures, MemberIds(queue.waitlist));
      NotFiveEachWhenOthersAreTooFew(record, queue, departures);
    } else {
      FiveEachWhenNoStayerWaits(record, queue, departures);
    }
  }

  lemma StayingOf(record: MatchRecord, queue: PQ.Queue, departures: set<int>, staying: seq<MatchPlayer>, promoted: seq<MatchPlayer>)
    requires Continues(record, queue, departures, staying, promoted)
    ensures staying == Staying(Participants(record), departures)
  {
  }

  lemma {:induction false} OthersAre(record: MatchRecord, departures: set<int>, ids: seq<int>, id: int)
    ensures id in Others(record, departures, ids) <==> id in ids && !Stays(record, departures, id)
  {
    hide Stays;
    if ids != [] {
      assert ids == [ids[0]] + ids[1..];
      OthersAre(record, departures, ids[1..], id);
    }
  }

  /** Different elements of a list are not more than the list. */
  lemma {:induction false} NotLonger(a: seq<int>, b: seq<int>)
    requires Distinct(a) && forall x :: x in a ==> x in b
    ensures |a| <= |b|
    decreases |a|
  {
    if a != [] {
      var x := a[0];
      assert x in a;
      var j :| 0 <= j < |b| && b[j] == x;
      var rest := b[..j] + b[j + 1..];
      forall y | y in a[1..] ensures y in rest {
        var i :| 0 <= i < |a[1..]| && a[1..][i] == y;
        assert a[i + 1] == y && y in a;
        assert b == b[..j] + [x] + b[j + 1..];
      }
      NotLonger(a[1..], rest);
    }
  }

  // ---- A player who left the queue and waits again ----------------------------------------

  function Players(from: int, n: nat): (r: seq<MatchPlayer>)
    ensures |r| == n && forall i :: 0 <= i < n ==> r[i] == MatchPlayer(from + i, "")
  {
    seq(n, i => MatchPlayer(from + i, ""))
  }

  function Seats(from: int, n: nat): (r: seq<PQ.Member>)
    ensures |r| == n && forall i :: 0 <= i < n ==> r[i] == PQ.Member(from + i, [], from + i)
  {
    seq(n, i => PQ.Member(from + i, [], from + i))
  }

  /** Players 1 to 5 against 6 to 10, the organizer being 1. */
  const PLAYED := MatchRecord(Named("m"), 7, 1, MatchTeam("Blue", 1, Players(1, 5)), MatchTeam("Red", 6, Players(6, 5)),
                              None, TeamOne, None, 0, 0, None)

  /** Their queue, with player 11 waiting. */
  const QUEUE := PQ.Queue(10, Seats(1, 10), [PQ.Member(11, [], 11)], map[], PQ.Open, None, 0, 12)

  /** Player 1 leaves, 11 takes the seat, and player 1 joins again, to wait. */
  function Rejoined(): Result<PQ.Queue, PQ.QueueError> {
    match PQ.Joined(PQ.Left(QUEUE, 1).0, 1, [])
    case Ok((q, _)) => Ok(q)
    case Err(e) => Err(e)
  }

  /** The first in a full queue leaves, and the one who waits takes the seat. */
  lemma FirstLeaves(q: PQ.Queue, m: PQ.Member, rest: seq<PQ.Member>, waiter: PQ.Member)
    requires q.active == [m] + rest && q.waitlist == [waiter] && waiter.userId != m.userId && q.ready == map[] && |rest| < q.capacity
    ensures PQ.Left(q, m.userId).0 == q.(active := rest + [waiter], waitlist := [])
  {
    var u := m.userId;
    assert q.active[0] == m && q.active[..0] + q.active[1..] == rest;
    assert PQ.Remove(q.active, u) == rest && PQ.Has(q.active, u);
    assert q.waitlist[1..] == [] && PQ.Remove(q.waitlist, u) == q.waitlist;
    assert PQ.ForgetReady(q.ready, [u]) == q.ready;
    var out := q.(active := rest);
    assert MinIndex(out.waitlist, PQ.Rank(out.active)) == 0;
    assert out.waitlist[..0] + out.waitlist[1..] == [];
  }

  /** Joining a full queue nobody waits for is waiting alone. */
  lemma JoinsBehind(q: PQ.Queue, u: int)
    requires q.status == PQ.Open && q.waitlist == [] && |q.active| == q.capacity && forall p :: p in q.active ==> p.userId != u
    ensures PQ.Joined(q, u, []) == Ok((q.(waitlist := [PQ.Member(u, [], q.nextSequence)], nextSequence := q.nextSequence + 1), PQ.ToWaitlist))
  {
    assert PQ.Everyone(q) == q.active;
    PQI.HasMember(PQ.Everyone(q), u);
    assert PQ.DistinctRoles([]) == [];
    var m := PQ.Member(u, [], q.nextSequence);
    assert [] + [m] == [m];
  }

  lemma RejoinedIs()
    ensures Rejoined() == Ok(PQ.Queue(10, Seats(2, 10), [PQ.Member(1, [], 12)], map[], PQ.Open, None, 0, 13))
  {
    hide PQ.Left, PQ.Joined;
    assert Seats(1, 10) == [PQ.Member(1, [], 1)] + Seats(2, 9);
    FirstLeaves(QUEUE, PQ.Member(1, [], 1), Seats(2, 9), PQ.Member(11, [], 11));
    assert Seats(2, 9) + [PQ.Member(11, [], 11)] == Seats(2, 10);
    JoinsBehind(QUEUE.(active := Seats(2, 10), waitlist := []), 1);
  }

  lemma RejoinedIsApart(q: PQ.Queue)
    requires q.active == Seats(2, 10) && q.waitlist == [PQ.Member(1, [], 12)]
    ensures PQR.Apart(q) && MemberIds(q.waitlist) == [1]
  {
    var all := PQ.Everyone(q);
    assert forall i :: 0 <= i < |all| ==> all[i] == if i < 10 then PQ.Member(2 + i, [], 2 + i) else PQ.Member(1, [], 12);
  }

  lemma {:induction false} AllStay(ps: seq<MatchPlayer>, departures: set<int>)
    requires forall p :: p in ps ==> p.userId !in departures
    ensures Staying(ps, departures) == ps
  {
    if ps != [] {
      assert ps[0] in ps && ps == [ps[0]] + ps[1..];
      AllStay(ps[1..], departures);
    }
  }

  lemma {:induction false} StayingAppend(a: seq<MatchPlayer>, b: seq<MatchPlayer>, departures: set<int>)
    ensures Staying(a + b, departures) == Staying(a, departures) + Staying(b, departures)
  {
    if a == [] {
      assert a + b == b;
    } else {
      assert (a + b)[0] == a[0] && (a + b)[1..] == a[1..] + b;
      StayingAppend(a[1..], b, departures);
    }
  }

  lemma NineStay()
    ensures Staying(Participants(PLAYED), {10}) == Players(1, 9)
  {
    assert Participants(PLAYED) == Players(1, 9) + [MatchPlayer(10, "")];
    StayingAppend(Players(1, 9), [MatchPlayer(10, "")], {10});
    AllStay(Players(1, 9), {10});
    assert [MatchPlayer(10, "")][1..] == [];
  }

  lemma PlayedIsValid()
    ensures FiveOnFive(PLAYED)
  {
    assert PlayerIds(PLAYED.teamOne.players)[0] == 1 && PlayerIds(PLAYED.teamTwo.players)[0] == 6;
  }

  lemma FirstPlayed()
    ensures HasId(Participants(PLAYED), 1)
  {
    assert PlayerIds(Participants(PLAYED))[0] == 1;
  }

  /** The match of ten goes on without player 10; player 1, who stayed, is the only
      one waiting: the next match does not have five on each side. */
  lemma ARejoinedPlayerIsSeatedTwice()
    ensures Rejoined().Ok? && CanContinue(PLAYED, Rejoined().value, {10}) && StayerWaits(PLAYED, Rejoined().value, {10})
    ensures NextRoster(PLAYED, Rejoined().value, {10}).Ok?
    ensures !FiveEach(PLAYED, NextRoster(PLAYED, Rejoined().value, {10}).value)
  {
    RejoinedIs();
    NineStay();
    PlayedIsValid();
    var q := Rejoined().value;
    RejoinedIsApart(q);
    hide FiveOnFive, Staying, Rejoined, NextRoster, SameSides, PQR.Apart, Seats, MemberIds, Players;
    assert Stays(PLAYED, {10}, 1) by { FirstPlayed(); }
    assert [1][1..] == [];
    assert Others(PLAYED, {10}, [1]) == [];
    NotFiveEachWhenOthersAreTooFew(PLAYED, q, {10});
  }
}
