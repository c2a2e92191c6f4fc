/** Who a continuity decision promotes, and for which role: in turn, a waiting
    player who brings the most roles nobody plays yet. */
module MatchSubstitutes {
  import opened Common
  import opened MatchRecords
  import opened MatchContinuity
  import MT = MatchTeamsTheorems
  import PQ = PartyQueue
  import PQI = PartyQueueInvariant

  /** The roles a waiting player prefers and nobody on the roster plays. */
  function Brings(roster: seq<MatchPlayer>, m: PQ.Member): set<string> {
    set r | r in m.roles && !Played(roster, r)
  }

  predicate Played(roster: seq<MatchPlayer>, role: string) { role != "" && exists p :: p in roster && p.role == role }

  /** Nobody waiting brings more, with as much has joined earlier, or with both the
      same has a smaller ID. */
  ghost predicate BestOf(roster: seq<MatchPlayer>, waiting: seq<PQ.Member>, chosen: PQ.Member) {
    forall m :: m in waiting ==> NoBetter(roster, chosen, m)
  }

  predicate NoBetter(roster: seq<MatchPlayer>, chosen: PQ.Member, m: PQ.Member) {
    var mine, theirs := |Brings(roster, chosen)|, |Brings(roster, m)|;
    || mine > theirs
    || (mine == theirs && chosen.joinedSequence < m.joinedSequence)
    || (mine == theirs && chosen.joinedSequence == m.joinedSequence && chosen.userId <= m.userId)
  }

  /** The departed player's role if the substitute prefers it, else the substitute's
      first, else the departed player's all the same. */
  ghost predicate PlaysFor(m: PQ.Member, departed: Option<MatchPlayer>, role: string) {
    if departed.Some? && departed.value.role in m.roles then role == departed.value.role
    else if m.roles != [] then role == m.roles[0]
    else role == if departed.Some? then departed.value.role else ""
  }

  /** These substitutes are taken one after the other from those waiting, each the
      best for the roster so far. */
  ghost predicate TakenInTurn(roster: seq<MatchPlayer>, waiting: seq<PQ.Member>, departed: Option<MatchPlayer>, taken: seq<MatchPlayer>)
    decreases |taken|
  {
    taken == [] || exists i :: 0 <= i < |waiting| && TakenNext(roster, waiting, departed, taken, i)
  }

  ghost predicate TakenNext(roster: seq<MatchPlayer>, waiting: seq<PQ.Member>, departed: Option<MatchPlayer>, taken: seq<MatchPlayer>, i: nat)
    requires taken != [] && i < |waiting|
    decreases |taken|, 0
  {
    && taken[0].userId == waiting[i].userId && BestOf(roster, waiting, waiting[i]) && PlaysFor(waiting[i], departed, taken[0].role)
    && TakenInTurn(roster + [taken[0]], waiting[..i] + waiting[i + 1..], departed, taken[1..])
  }

  /** The first participant who departs, if one does. */
  ghost predicate FirstGone(participants: seq<MatchPlayer>, departures: set<int>, departed: Option<MatchPlayer>) {
    if departed.None? then forall p :: p in participants ==> p.userId !in departures
    else exists k :: 0 <= k < |participants| && participants[k] == departed.value && departed.value.userId in departures
                     && forall j :: 0 <= j < k ==> participants[j].userId !in departures
  }

  // ---- The order of substitutes -------------------------------------------------------------

  lemma {:induction false} RolesInAre(roster: seq<MatchPlayer>, role: string)
    ensures role in RolesIn(roster) <==> Played(roster, role)
  {
    if roster != [] {
      var n := |roster| - 1;
      RolesInAre(roster[..n], role);
      assert roster == roster[..n] + [roster[n]];
    }
  }

  lemma MissingIsBrought(roster: seq<MatchPlayer>, m: PQ.Member)
    requires Distinct(m.roles)
    ensures PQ.CountMissing(m.roles, RolesIn(roster)) == |Brings(roster, m)|
  {
    PQI.CountsMissing(m.roles, RolesIn(roster));
    forall r ensures r in RolesIn(roster) <==> Played(roster, r) { RolesInAre(roster, r); }
    hide RolesIn, Played;
    assert Brings(roster, m) == set r | r in m.roles && r !in RolesIn(roster);
  }

  lemma LeastIsBest(roster: seq<MatchPlayer>, waiting: seq<PQ.Member>)
    requires waiting != [] && PQI.RolesOnce(waiting)
    ensures BestOf(roster, waiting, waiting[MinIndex(waiting, SubstituteOrder(roster))])
  {
    hide Brings, RolesIn;
    var i := MinIndex(waiting, SubstituteOrder(roster));
    MinIndexLeast(waiting, SubstituteOrder(roster));
    var chosen := waiting[i];
    assert chosen in waiting;
    forall m | m in waiting ensures NoBetter(roster, chosen, m) {
      var j :| 0 <= j < |waiting| && waiting[j] == m;
      assert LexLeq(SubstituteOrder(roster)(waiting[i]), SubstituteOrder(roster)(waiting[j]));
      MissingIsBrought(roster, chosen);
      MissingIsBrought(roster, m);
      LexThree(-(|Brings(roster, chosen)| as int), chosen.joinedSequence, chosen.userId, -(|Brings(roster, m)| as int), m.joinedSequence, m.userId);
    }
  }

  lemma LexThree(a: int, b: int, c: int, x: int, y: int, z: int)
    ensures LexLeq([a, b, c], [x, y, z]) <==> a < x || (a == x && (b < y || (b == y && c <= z)))
  {
    assert [a, b, c][1..] == [b, c] && [x, y, z][1..] == [y, z];
    LexPair(b, c, y, z);
  }

  lemma {:induction false} FirstDepartedIs(participants: seq<MatchPlayer>, departures: set<int>)
    ensures FirstGone(participants, departures, FirstDeparted(participants, departures))
  {
    if participants != [] && participants[0].userId !in departures {
      var rest := participants[1..];
      FirstDepartedIs(rest, departures);
      var d := FirstDeparted(rest, departures);
      if d.Some? {
        var k :| 0 <= k < |rest| && rest[k] == d.value && d.value.userId in departures && forall j :: 0 <= j < k ==> rest[j].userId !in departures;
        assert participants[k + 1] == d.value;
        assert forall j :: 0 < j < k + 1 ==> participants[j] == rest[j - 1];
      } else {
        forall p | p in participants ensures p.userId !in departures { assert p in [participants[0]] + rest; }
      }
    }
  }

  lemma NobodyTaken(roster: seq<MatchPlayer>, waiting: seq<PQ.Member>, departed: Option<MatchPlayer>, size: nat)
    requires |roster| >= size || waiting == []
    ensures WithSubstitutes(roster, waiting, departed, size) == Ok(roster)
  {
  }

  lemma {:induction false} SubstitutesAreTaken(roster: seq<MatchPlayer>, waiting: seq<PQ.Member>, departed: Option<MatchPlayer>, size: nat)
    requires PQI.RolesOnce(waiting) && WithSubstitutes(roster, waiting, departed, size).Ok?
    ensures var r := WithSubstitutes(roster, waiting, departed, size).value;
            |roster| <= |r| && r[..|roster|] == roster && TakenInTurn(roster, waiting, departed, r[|roster|..])
    decreases |waiting|
  {
    hide WithSubstitutes, MinIndex, SubstituteOrder, BestOf, PlaysFor, PreferredRole;
    SubstitutesFollow(roster, waiting, departed, size);
    if |roster| < size && waiting != [] {
      var i := MinIndex(waiting, SubstituteOrder(roster));
      LeastIsBest(roster, waiting);
      MT.OneSubstitute(roster, waiting, departed, size);
      var p := MatchPlayer(waiting[i].userId, PreferredRole(waiting[i], departed));
      var rest := waiting[..i] + waiting[i + 1..];
      forall m | m in rest ensures m in waiting { }
      SubstitutesAreTaken(roster + [p], rest, departed, size);
      PreferredIsPlayed(waiting[i], departed);
      NextIsTaken(roster, waiting, departed, WithSubstitutes(roster, waiting, departed, size).value, p, i);
    } else {
      NobodyTaken(roster, waiting, departed, size);
      assert roster[|roster|..] == [];
    }
  }

  lemma PreferredIsPlayed(m: PQ.Member, departed: Option<MatchPlayer>)
    ensures PlaysFor(m, departed, PreferredRole(m, departed))
  {
  }

  lemma NextIsTaken(roster: seq<MatchPlayer>, waiting: seq<PQ.Member>, departed: Option<MatchPlayer>, r: seq<MatchPlayer>, p: MatchPlayer, i: nat)
    requires i < |waiting| && |roster| < |r| && r[..|roster| + 1] == roster + [p]
    requires p.userId == waiting[i].userId && BestOf(roster, waiting, waiting[i]) && PlaysFor(waiting[i], departed, p.role)
    requires TakenInTurn(roster + [p], waiting[..i] + waiting[i + 1..], departed, r[|roster| + 1..])
    ensures TakenInTurn(roster, waiting, departed, r[|roster|..])
  {
    var taken := r[|roster|..];
    assert r[|roster|] == r[..|roster| + 1][|roster|] == p;
    assert taken[0] == p && taken[1..] == r[|roster| + 1..];
    assert TakenNext(roster, waiting, departed, taken, i);
  }

  /** Those taken are users. */
  ghost predicate UsersAfter(r: Result<seq<MatchPlayer>, Error>, from: nat) {
    r.Ok? ==> from <= |r.value| && forall k :: from <= k < |r.value| ==> r.value[k].userId > 0
  }

  lemma {:induction false} TakenAreUsers(roster: seq<MatchPlayer>, waiting: seq<PQ.Member>, departed: Option<MatchPlayer>, size: nat)
    ensures UsersAfter(WithSubstitutes(roster, waiting, departed, size), |roster|)
    ensures (forall m :: m in waiting ==> m.userId > 0) ==> WithSubstitutes(roster, waiting, departed, size).Ok?
    decreases |waiting|
  {
    if |roster| < size && waiting != [] {
      var i := MinIndex(waiting, SubstituteOrder(roster));
      var p := MatchPlayer(waiting[i].userId, PreferredRole(waiting[i], departed));
      var rest := waiting[..i] + waiting[i + 1..];
      MT.OneSubstitute(roster, waiting, departed, size);
      hide WithSubstitutes, PreferredRole, SubstituteOrder, MinIndex, UsersAfter;
      assert waiting[i] in waiting;
      TakenAreUsers(roster + [p], rest, departed, size);
      SubstitutesFollow(roster + [p], rest, departed, size);
      if waiting[i].userId > 0 {
        MoreUsers(WithSubstitutes(roster + [p], rest, departed, size), roster, p);
      } else {
        NoUsers(WithSubstitutes(roster, waiting, departed, size), |roster|);
      }
      forall m | m in rest ensures m in waiting { }
    } else {
      NobodyTaken(roster, waiting, departed, size);
      Unchanged(roster);
    }
  }

  lemma MoreUsers(r: Result<seq<MatchPlayer>, Error>, roster: seq<MatchPlayer>, p: MatchPlayer)
    requires p.userId > 0 && UsersAfter(r, |roster| + 1) && (r.Ok? ==> |roster| + 1 <= |r.value| && r.value[..|roster| + 1] == roster + [p])
    ensures UsersAfter(r, |roster|)
  {
    if r.Ok? { assert r.value[|roster|] == r.value[..|roster| + 1][|roster|] == p; }
  }

  lemma Unchanged(roster: seq<MatchPlayer>)
    ensures UsersAfter(Ok(roster), |roster|)
  {
  }

  lemma NoUsers(r: Result<seq<MatchPlayer>, Error>, from: nat)
    requires r.Err?
    ensures UsersAfter(r, from)
  {
  }

  /** A decision seats no substitute whose ID is not positive, and is refused for
      such an ID only when one waits. */
  lemma SubstitutesAreUsers(record: MatchRecord, queue: PQ.Queue, departures: set<int>)
    ensures var r, staying := NextRoster(record, queue, departures), Staying(Participants(record), departures);
            && (r.Ok? ==> |staying| <= |r.value| && forall k :: |staying| <= k < |r.value| ==> r.value[k].userId > 0)
            && ((forall m :: m in queue.waitlist ==> m.userId > 0) ==> r.Ok?)
  {
    TakenAreUsers(Staying(Participants(record), departures), queue.waitlist, FirstDeparted(Participants(record), departures), |Participants(record)|);
    hide WithSubstitutes;
  }

  // ---- What a decision promotes -------------------------------------------------------------

  /** Those promoted by a decision are, in turn, the waiting players who bring the
      most roles nobody plays yet, the earliest to join on a tie; each plays the
      role of the player first to depart if they prefer it, and else their own. */
  lemma PromotedInTurn(record: MatchRecord, lobbyId: string, queue: PQ.Queue, action: ContinuityAction, departures: set<int>)
      returns (departed: Option<MatchPlayer>, taken: seq<MatchPlayer>)
    requires PQI.RolesOnce(queue.waitlist) && NextRoster(record, queue, departures).Ok?
    ensures NextRoster(record, queue, departures).value == Staying(Participants(record), departures) + taken
    ensures FirstGone(Participants(record), departures, departed)
    ensures TakenInTurn(Staying(Participants(record), departures), queue.waitlist, departed, taken)
    ensures var r := BuildResult(record, lobbyId, queue, action, departures);
            r.Ok? ==> r.value.promoted == if action == ReturnToQueue then [] else PlayerIds(taken)
  {
    hide WithSubstitutes, TakenInTurn, Staying, PQI.RolesOnce, Teams, Changes, SeatsOf;
    var participants := Participants(record);
    var staying := Staying(participants, departures);
    departed := FirstDeparted(participants, departures);
    FirstDepartedIs(participants, departures);
    SubstitutesAreTaken(staying, queue.waitlist, departed, |participants|);
    taken := NextRoster(record, queue, departures).value[|staying|..];
  }

  /** Nobody who brings no role is taken while somebody waits who brings one. */
  lemma NoRoleIsPassedOver(roster: seq<MatchPlayer>, waiting: seq<PQ.Member>, chosen: PQ.Member, m: PQ.Member)
    requires BestOf(roster, waiting, chosen) && m in waiting && Brings(roster, m) != {}
    ensures Brings(roster, chosen) != {}
  {
    hide Brings;
    assert NoBetter(roster, chosen, m);
    assert |Brings(roster, m)| == 0 ==> Brings(roster, m) == {};
  }
}
