/** The teams and changes of a continuity decision. */
module MatchTeamsTheorems {
  import opened Common
  import opened MatchRecords
  import opened MatchContinuity
  import PQ = PartyQueue
  import PQR = PartyQueueReplay
  import TF = TeamFormation
  import TFT = TeamFormationTheorems

  // ---- Changes ------------------------------------------------------------------

  /** Making the changes to a seating. */
  function Applied(seats: Seats, changes: seq<AssignmentChange>): Seats
    decreases |changes|
  {
    if changes == [] then seats
    else
      var c := changes[0];
      Applied(if c.nextTeam.None? then seats - {c.userId} else seats[c.userId := (c.nextTeam.value, c.nextRole)], changes[1..])
  }

  ghost predicate AgreeAt(a: Seats, b: Seats, id: int) {
    (id in a <==> id in b) && (id in a ==> a[id] == b[id])
  }

  lemma {:induction false} AppliedSeats(seats: Seats, ids: seq<int>, before: Seats, after: Seats)
    requires forall i, j :: 0 <= i < j < |ids| ==> ids[i] < ids[j]
    requires forall id :: id in ids ==> AgreeAt(seats, before, id)
    ensures var r := Applied(seats, ChangesFor(ids, before, after));
            forall id :: if id in ids then AgreeAt(r, after, id) else AgreeAt(r, seats, id)
    decreases |ids|
  {
    if ids != [] {
      var id := ids[0];
      assert id in ids;
      var rest := ids[1..];
      var same := (id in before) == (id in after) && (id in before ==> before[id] == after[id]);
      var next := if same then seats
                  else if id in after then seats[id := after[id]] else seats - {id};
      forall other | other in rest ensures AgreeAt(next, before, other) && other != id {
        assert other in ids;
        var k :| 0 <= k < |rest| && rest[k] == other;
        assert ids[k + 1] == other;
      }
      AppliedSeats(next, rest, before, after);
      AppliedFirst(seats, ids, before, after);
      assert AgreeAt(next, after, id);
      assert id !in rest;
      var r := Applied(next, ChangesFor(rest, before, after));
      forall other ensures if other in ids then AgreeAt(r, after, other) else AgreeAt(r, seats, other) {
        assert ids == [id] + rest;
        if other !in ids { assert AgreeAt(next, seats, other); }
      }
    }
  }

  lemma AppliedFirst(seats: Seats, ids: seq<int>, before: Seats, after: Seats)
    requires ids != [] && AgreeAt(seats, before, ids[0])
    ensures var id := ids[0];
            var same := (id in before) == (id in after) && (id in before ==> before[id] == after[id]);
            var next := if same then seats
                        else if id in after then seats[id := after[id]] else seats - {id};
            Applied(seats, ChangesFor(ids, before, after)) == Applied(next, ChangesFor(ids[1..], before, after))
  {
    var id := ids[0];
    var tail := ChangesFor(ids[1..], before, after);
    var same := (id in before) == (id in after) && (id in before ==> before[id] == after[id]);
    if !same {
      var c := AssignmentChange(id, TeamAt(before, id), TeamAt(after, id), RoleAt(before, id), RoleAt(after, id));
      assert ([c] + tail)[1..] == tail;
      if id in after { assert (TeamAt(after, id).value, RoleAt(after, id)) == after[id]; }
    } else {
      assert [] + tail == tail;
    }
  }

  /** The changes turn the old assignment into exactly the new one. */
  lemma ChangesLeadToTheNewTeams(before: Seats, after: Seats)
    ensures Applied(before, Changes(before, after)) == after
  {
    var ids := InOrder(before.Keys + after.Keys);
    InOrderIs(before.Keys + after.Keys);
    AppliedSeats(before, ids, before, after);
    var r := Applied(before, Changes(before, after));
    forall id ensures AgreeAt(r, after, id) {
      if id !in ids { assert AgreeAt(r, before, id); }
    }
    AgreeEverywhere(r, after);
  }

  lemma AgreeEverywhere(a: Seats, b: Seats)
    requires forall id :: AgreeAt(a, b, id)
    ensures a == b
  {
    forall id | id in a ensures id in b && a[id] == b[id] { assert AgreeAt(a, b, id); }
    forall id | id in b ensures id in a { assert AgreeAt(a, b, id); }
  }

  /** The departures among the changes are exactly those who lost their seat. */
  lemma {:induction false} DepartingFrom(ids: seq<int>, before: Seats, after: Seats)
    ensures forall id :: id in Departing(ChangesFor(ids, before, after)) <==> id in ids && id in before && id !in after
  {
    if ids != [] {
      var id, rest := ids[0], ids[1..];
      DepartingFrom(rest, before, after);
      var tail := ChangesFor(rest, before, after);
      var same := (id in before) == (id in after) && (id in before ==> before[id] == after[id]);
      var c := AssignmentChange(id, TeamAt(before, id), TeamAt(after, id), RoleAt(before, id), RoleAt(after, id));
      assert ids == [id] + rest;
      if same {
        assert ChangesFor(ids, before, after) == tail;
      } else {
        assert ChangesFor(ids, before, after) == [c] + tail;
        assert ([c] + tail)[1..] == tail;
        assert IsDeparture(c) <==> id in before && id !in after;
      }
    }
  }

  lemma DepartingLostTheirSeat(before: Seats, after: Seats)
    ensures forall id :: id in Departing(Changes(before, after)) <==> id in before && id !in after
  {
    InOrderIs(before.Keys + after.Keys);
    DepartingFrom(InOrder(before.Keys + after.Keys), before, after);
  }

  lemma {:induction false} DepartingVacated(ids: seq<int>, before: Seats)
    requires forall id :: id in ids ==> id in before
    ensures Departing(Vacated(ids, before)) == ids
  {
    if ids != [] {
      var id, rest := ids[0], ids[1..];
      assert id in ids && ids == [id] + rest;
      DepartingVacated(rest, before);
      var c := AssignmentChange(id, Some(before[id].0), None, before[id].1, "");
      assert ([c] + Vacated(rest, before))[1..] == Vacated(rest, before);
    }
  }

  /** A decision that waits for substitutes remembers exactly who left, so a
      resumed attempt asks for the same departures. */
  lemma DeparturesAreRecovered(record: MatchRecord, lobbyId: string, queue: PQ.Queue, action: ContinuityAction, departures: set<int>)
    requires BuildResult(record, lobbyId, queue, action, departures).Ok?
    requires BuildResult(record, lobbyId, queue, action, departures).value.status == AwaitingSubstitutes
    ensures (set id | id in Departing(BuildResult(record, lobbyId, queue, action, departures).value.changes)) == departures
  {
    InOrderIs(departures);
    hide NextRoster, SeatsOf, InOrder, Teams;
    var before := SeatsOf(record.teamOne, record.teamTwo);
    assert forall id :: id in departures ==> id in before;
    DepartingVacated(InOrder(departures), before);
    var changes := BuildResult(record, lobbyId, queue, action, departures).value.changes;
    assert changes == Vacated(InOrder(departures), before);
    var recovered := set id | id in Departing(changes);
    assert forall id :: id in recovered <==> id in departures;
  }

  // ---- Who is on the roster -----------------------------------------------------

  predicate HasId(players: seq<MatchPlayer>, id: int) { id in PlayerIds(players) }

  lemma {:induction false} LastEntryIs(roster: seq<MatchPlayer>, id: int)
    ensures LastEntry(roster, id).Some? <==> HasId(roster, id)
    ensures LastEntry(roster, id).Some? ==> LastEntry(roster, id).value in roster && LastEntry(roster, id).value.userId == id
  {
    if roster != [] {
      var n := |roster| - 1;
      LastEntryIs(roster[..n], id);
      assert PlayerIds(roster) == PlayerIds(roster[..n]) + [roster[n].userId];
    }
  }

  /** Those of the players who are on the roster, each once. */
  lemma {:induction false} KeptIs(players: seq<MatchPlayer>, roster: seq<MatchPlayer>)
    requires Distinct(PlayerIds(players))
    ensures forall id :: HasId(Kept(players, roster), id) <==> HasId(players, id) && HasId(roster, id)
    ensures Distinct(PlayerIds(Kept(players, roster))) && |Kept(players, roster)| <= |players|
    ensures forall p :: p in Kept(players, roster) ==> p in roster
  {
    hide Distinct, LastEntry;
    if players == [] {
      NobodyIsDistinct();
    } else {
      var p, rest := players[0], players[1..];
      PlayerIdsCons(p, rest);
      assert players == [p] + rest;
      TailDistinct(PlayerIds(players));
      KeptIs(rest, roster);
      LastEntryIs(roster, p.userId);
      var entry := LastEntry(roster, p.userId);
      if entry.Some? {
        PlayerIdsCons(entry.value, Kept(rest, roster));
        ConsDistinct(p.userId, PlayerIds(Kept(rest, roster)));
      } else {
        assert [] + Kept(rest, roster) == Kept(rest, roster);
      }
    }
  }

  lemma NobodyIsDistinct()
    ensures Distinct<int>([])
  {
  }

  lemma PlayerIdsCons(p: MatchPlayer, rest: seq<MatchPlayer>)
    ensures PlayerIds([p] + rest) == [p.userId] + PlayerIds(rest)
    ensures forall id :: HasId([p] + rest, id) <==> id == p.userId || HasId(rest, id)
  {
    assert PlayerIds([p] + rest) == [p.userId] + PlayerIds(rest);
  }

  lemma ConsDistinct(id: int, ids: seq<int>)
    requires Distinct(ids) && id !in ids
    ensures Distinct([id] + ids)
  {
  }

  lemma TailDistinct(ids: seq<int>)
    requires Distinct(ids) && ids != []
    ensures Distinct(ids[1..]) && ids[0] !in ids[1..]
  {
  }

  lemma {:induction false} NewcomersAre(roster: seq<MatchPlayer>, known: seq<int>)
    ensures forall id :: HasId(Newcomers(roster, known), id) <==> HasId(roster, id) && id !in known
    ensures Distinct(PlayerIds(roster)) ==> Distinct(PlayerIds(Newcomers(roster, known)))
  {
    hide Distinct;
    if roster == [] {
    } else {
      var p, rest := roster[0], roster[1..];
      NewcomersAre(rest, known);
      PlayerIdsCons(p, rest);
      assert roster == [p] + rest;
      if Distinct(PlayerIds(roster)) { TailDistinct(PlayerIds(roster)); }
      if p.userId !in known {
        PlayerIdsCons(p, Newcomers(rest, known));
        if Distinct(PlayerIds(roster)) { ConsDistinct(p.userId, PlayerIds(Newcomers(rest, known))); }
      } else {
        assert [] + Newcomers(rest, known) == Newcomers(rest, known);
      }
    }
  }

  /** Knowing one more user takes their entries from the newcomers. */
  lemma {:induction false} OneMoreKnown(roster: seq<MatchPlayer>, id: int, known: seq<int>)
    requires id !in known
    ensures |Newcomers(roster, [id] + known)| <= |Newcomers(roster, known)| - (if HasId(roster, id) then 1 else 0)
    ensures Distinct(PlayerIds(roster)) ==>
              |Newcomers(roster, [id] + known)| == |Newcomers(roster, known)| - (if HasId(roster, id) then 1 else 0)
  {
    if roster != [] {
      var p, rest := roster[0], roster[1..];
      OneMoreKnown(rest, id, known);
      assert PlayerIds(roster) == [p.userId] + PlayerIds(rest);
      if Distinct(PlayerIds(roster)) { TailDistinct(PlayerIds(roster)); }
      assert p.userId in [id] + known <==> p.userId == id || p.userId in known;
    }
  }

  /** Kept players and newcomers together are at most the roster, and all of it
      when the roster names nobody twice. */
  lemma {:induction false} KeptAndNew(players: seq<MatchPlayer>, roster: seq<MatchPlayer>)
    requires Distinct(PlayerIds(players))
    ensures |Kept(players, roster)| + |Newcomers(roster, PlayerIds(players))| <= |roster|
    ensures Distinct(PlayerIds(roster)) ==> |Kept(players, roster)| + |Newcomers(roster, PlayerIds(players))| == |roster|
  {
    if players == [] {
      AllAreNew(roster);
    } else {
      var p, rest := players[0], players[1..];
      assert PlayerIds(players) == [p.userId] + PlayerIds(rest);
      TailDistinct(PlayerIds(players));
      KeptAndNew(rest, roster);
      OneMoreKnown(roster, p.userId, PlayerIds(rest));
      LastEntryIs(roster, p.userId);
    }
  }

  lemma {:induction false} AllAreNew(roster: seq<MatchPlayer>)
    ensures Newcomers(roster, []) == roster
  {
    if roster != [] {
      AllAreNew(roster[1..]);
      assert roster == [roster[0]] + roster[1..];
    }
  }

  // ---- Filling the two sides ----------------------------------------------------

  /** The first side is filled up to five, the rest goes to the second. */
  lemma {:induction false} PlacedIs(first: seq<MatchPlayer>, second: seq<MatchPlayer>, newcomers: seq<MatchPlayer>)
    requires |first| <= 5
    ensures var (a, b) := Placed(first, second, newcomers);
            var n := Min(5 - |first|, |newcomers|);
            a == first + newcomers[..n] && b == second + newcomers[n..]
    decreases |newcomers|
  {
    if newcomers == [] {
      assert first + [] == first && second + [] == second;
    } else if |first| < 5 {
      PlacedIs(first + [newcomers[0]], second, newcomers[1..]);
      MoveFront(first, newcomers, Min(5 - |first|, |newcomers|));
    } else {
      PlacedIs(first, second + [newcomers[0]], newcomers[1..]);
      assert newcomers[..0] == [] && newcomers[0..] == newcomers && newcomers[1..][..0] == [] && newcomers[1..][0..] == newcomers[1..];
      MoveFront(second, newcomers, |newcomers|);
      assert newcomers[..|newcomers|] == newcomers && newcomers[1..][..|newcomers| - 1] == newcomers[1..];
    }
  }

  lemma MoveFront(side: seq<MatchPlayer>, newcomers: seq<MatchPlayer>, n: nat)
    requires 1 <= n <= |newcomers|
    ensures side + newcomers[..n] == (side + [newcomers[0]]) + newcomers[1..][..n - 1]
    ensures newcomers[n..] == newcomers[1..][n - 1..]
  {
    assert newcomers[..n] == [newcomers[0]] + newcomers[1..][..n - 1];
  }

  ghost predicate FiveOnFive(record: MatchRecord) {
    ValidRecord(record) && |record.teamOne.players| == 5 && |record.teamTwo.players| == 5
  }

  lemma ParticipantsDistinct(record: MatchRecord)
    requires ValidRecord(record)
    ensures Distinct(PlayerIds(Participants(record)))
    ensures PlayerIds(Participants(record)) == PlayerIds(record.teamOne.players) + PlayerIds(record.teamTwo.players)
    ensures Distinct(PlayerIds(record.teamOne.players)) && Distinct(PlayerIds(record.teamTwo.players))
  {
    var a, b := PlayerIds(record.teamOne.players), PlayerIds(record.teamTwo.players);
    var all := PlayerIds(Participants(record));
    assert all == a + b;
    forall i, j | 0 <= i < j < |all| ensures all[i] != all[j] {
      if i < |a| <= j { assert all[i] in a && all[j] in b; }
    }
  }

  lemma {:induction false} KeptAppend(a: seq<MatchPlayer>, b: seq<MatchPlayer>, roster: seq<MatchPlayer>)
    ensures Kept(a + b, roster) == Kept(a, roster) + Kept(b, roster)
  {
    hide LastEntry;
    if a == [] {
      assert a + b == b;
    } else {
      assert (a + b)[1..] == a[1..] + b && (a + b)[0] == a[0];
      KeptAppend(a[1..], b, roster);
      var first := if LastEntry(roster, a[0].userId).Some? then [LastEntry(roster, a[0].userId).value] else [];
      assert Kept(a, roster) == first + Kept(a[1..], roster) && Kept(a + b, roster) == first + Kept(a[1..] + b, roster);
    }
  }

  /** With ten on the roster, both sides have five exactly when nobody is on it
      twice. */
  lemma SidesAreFiveExactlyWhenDistinct(record: MatchRecord, roster: seq<MatchPlayer>)
    requires FiveOnFive(record) && |roster| == 10
    requires Distinct(PlayerIds(Newcomers(roster, PlayerIds(Participants(record)))))
    ensures var (a, b) := SameSides(record, roster);
            |a| == 5 && |b| == 5 <==> Distinct(PlayerIds(roster))
  {
    var all := Participants(record);
    var one, two := Kept(record.teamOne.players, roster), Kept(record.teamTwo.players, roster);
    var newcomers := Newcomers(roster, PlayerIds(all));
    ParticipantsDistinct(record);
    KeptIs(record.teamOne.players, roster);
    KeptIs(record.teamTwo.players, roster);
    KeptAppend(record.teamOne.players, record.teamTwo.players, roster);
    KeptAndNew(all, roster);
    PlacedIs(one, two, newcomers);
    if !Distinct(PlayerIds(roster)) { RepeatedMeansFewer(all, roster); }
  }

  /** Somebody listed twice, and not as a newcomer, is seated once. */
  lemma RepeatedMeansFewer(players: seq<MatchPlayer>, roster: seq<MatchPlayer>)
    requires Distinct(PlayerIds(players)) && !Distinct(PlayerIds(roster))
    requires Distinct(PlayerIds(Newcomers(roster, PlayerIds(players))))
    ensures |Kept(players, roster)| + |Newcomers(roster, PlayerIds(players))| < |roster|
  {
    var ids := PlayerIds(roster);
    var i, j :| 0 <= i < j < |ids| && ids[i] == ids[j];
    var x, a, b := roster[j], roster[..j], roster[j + 1..];
    assert roster == a + [x] + b && a[i] == roster[i];
    hide Distinct, Kept, Newcomers;
    if x.userId !in PlayerIds(players) {
      RepeatedNewcomer(a, x, b, PlayerIds(players), i);
    } else {
      WithoutRepeat(players, a, x, b, i);
      KeptAndNew(players, a + b);
    }
  }

  lemma WithoutRepeat(players: seq<MatchPlayer>, a: seq<MatchPlayer>, x: MatchPlayer, b: seq<MatchPlayer>, i: nat)
    requires i < |a| && a[i].userId == x.userId && x.userId in PlayerIds(players)
    ensures Newcomers(a + [x] + b, PlayerIds(players)) == Newcomers(a + b, PlayerIds(players))
    ensures |Kept(players, a + [x] + b)| == |Kept(players, a + b)|
  {
    var known := PlayerIds(players);
    assert Newcomers([x], known) == [];
    assert PlayerIds(a)[i] == x.userId;
    hide Kept, Newcomers;
    NewcomersAppend(a + [x], b, known);
    NewcomersAppend(a, [x], known);
    NewcomersAppend(a, b, known);
    assert Newcomers(a, known) + [] == Newcomers(a, known);
    SameIdsWithout(a, x, b);
    KeptSameIds(players, a + [x] + b, a + b);
  }

  lemma SameIdsWithout(a: seq<MatchPlayer>, x: MatchPlayer, b: seq<MatchPlayer>)
    requires HasId(a, x.userId)
    ensures forall id :: HasId(a + [x] + b, id) <==> HasId(a + b, id)
  {
    assert PlayerIds(a + [x] + b) == PlayerIds(a) + [x.userId] + PlayerIds(b);
    assert PlayerIds(a + b) == PlayerIds(a) + PlayerIds(b);
  }

  lemma RepeatedNewcomer(a: seq<MatchPlayer>, x: MatchPlayer, b: seq<MatchPlayer>, known: seq<int>, i: nat)
    requires i < |a| && a[i].userId == x.userId && x.userId !in known
    ensures !Distinct(PlayerIds(Newcomers(a + [x] + b, known)))
  {
    NewcomersAppend(a + [x], b, known);
    NewcomersAppend(a, [x], known);
    NewcomersAre(a, known);
    var n := Newcomers(a, known);
    assert PlayerIds(a)[i] == x.userId;
    assert HasId(n, x.userId);
    var k :| 0 <= k < |n| && PlayerIds(n)[k] == x.userId;
    assert Newcomers([x], known) == [x];
    var all := PlayerIds(Newcomers(a + [x] + b, known));
    assert all[k] == all[|n|];
  }

  lemma {:induction false} NewcomersAppend(a: seq<MatchPlayer>, b: seq<MatchPlayer>, known: seq<int>)
    ensures Newcomers(a + b, known) == Newcomers(a, known) + Newcomers(b, known)
  {
    if a == [] {
      assert a + b == b;
    } else {
      assert (a + b)[1..] == a[1..] + b && (a + b)[0] == a[0];
      NewcomersAppend(a[1..], b, known);
    }
  }

  lemma {:induction false} KeptSameIds(players: seq<MatchPlayer>, a: seq<MatchPlayer>, b: seq<MatchPlayer>)
    requires forall id :: HasId(a, id) <==> HasId(b, id)
    ensures |Kept(players, a)| == |Kept(players, b)|
  {
    if players != [] {
      KeptSameIds(players[1..], a, b);
      LastEntryIs(a, players[0].userId);
      LastEntryIs(b, players[0].userId);
    }
  }

  // ---- Substitutes --------------------------------------------------------------

  function MemberIds(members: seq<PQ.Member>): seq<int> { PQ.Ids(members) }

  /** The substitutes are different waiting players, as many as fit or wait. */
  lemma {:induction false} SubstitutesAreWaiting(roster: seq<MatchPlayer>, waiting: seq<PQ.Member>, departed: Option<MatchPlayer>, size: nat)
    requires Distinct(MemberIds(waiting)) && WithSubstitutes(roster, waiting, departed, size).Ok?
    ensures var r := WithSubstitutes(roster, waiting, departed, size).value;
            && |r| == (if |roster| >= size then |roster| else Min(size, |roster| + |waiting|))
            && r[..|roster|] == roster
            && Distinct(PlayerIds(r[|roster|..]))
            && forall p :: p in r[|roster|..] ==> p.userId in MemberIds(waiting)
    decreases |waiting|
  {
    if |roster| < size && waiting != [] {
      var i := MinIndex(waiting, SubstituteOrder(roster));
      var m := waiting[i];
      var p := MatchPlayer(m.userId, PreferredRole(m, departed));
      var more, rest := roster + [p], waiting[..i] + waiting[i + 1..];
      WaitingWithout(waiting, i);
      hide SubstituteOrder, PreferredRole, MinIndex, Distinct, WithSubstitutes, MemberIds;
      assert WithSubstitutes(roster, waiting, departed, size) == WithSubstitutes(more, rest, departed, size) by {
        OneSubstitute(roster, waiting, departed, size);
      }
      SubstitutesAreWaiting(more, rest, departed, size);
      var r := WithSubstitutes(more, rest, departed, size).value;
      forall q | q in r[|more|..] ensures q.userId != m.userId { assert q.userId in MemberIds(rest); }
      FirstSubstitute(roster, p, r);
    } else {
      assert roster[..|roster|] == roster && roster[|roster|..] == [];
      NobodyIsDistinct();
    }
  }

  lemma OneSubstitute(roster: seq<MatchPlayer>, waiting: seq<PQ.Member>, departed: Option<MatchPlayer>, size: nat)
    requires |roster| < size && waiting != []
    ensures var i := MinIndex(waiting, SubstituteOrder(roster));
            WithSubstitutes(roster, waiting, departed, size) ==
              if waiting[i].userId <= 0 then Err(BadPlayer)
              else WithSubstitutes(roster + [MatchPlayer(waiting[i].userId, PreferredRole(waiting[i], departed))],
                                   waiting[..i] + waiting[i + 1..], departed, size)
  {
    hide MinIndex, SubstituteOrder, PreferredRole;
  }

  lemma FirstSubstitute(roster: seq<MatchPlayer>, p: MatchPlayer, r: seq<MatchPlayer>)
    requires |roster| < |r| && r[..|roster| + 1] == roster + [p]
    requires Distinct(PlayerIds(r[|roster| + 1..])) && forall q :: q in r[|roster| + 1..] ==> q.userId != p.userId
    ensures r[..|roster|] == roster && r[|roster|..] == [p] + r[|roster| + 1..]
    ensures Distinct(PlayerIds(r[|roster|..])) && forall q :: q in r[|roster|..] <==> q == p || q in r[|roster| + 1..]
  {
    var more := roster + [p];
    assert r[|roster|] == r[..|roster| + 1][|roster|] == p;
    assert r[|roster|..] == [p] + r[|roster| + 1..];
    assert r[..|roster|] == more[..|roster|] == roster;
    ConsDistinctPlayers(p, r[|roster| + 1..]);
  }

  lemma ConsDistinctPlayers(p: MatchPlayer, rest: seq<MatchPlayer>)
    requires Distinct(PlayerIds(rest)) && forall q :: q in rest ==> q.userId != p.userId
    ensures Distinct(PlayerIds([p] + rest))
  {
    PlayerIdsCons(p, rest);
    forall id | id in PlayerIds(rest) ensures id != p.userId {
      var k :| 0 <= k < |rest| && PlayerIds(rest)[k] == id;
      assert rest[k] in rest;
    }
    ConsDistinct(p.userId, PlayerIds(rest));
  }

  lemma WaitingWithout(waiting: seq<PQ.Member>, i: nat)
    requires Distinct(MemberIds(waiting)) && i < |waiting|
    ensures var rest := waiting[..i] + waiting[i + 1..];
            Distinct(MemberIds(rest)) && waiting[i].userId in MemberIds(waiting)
            && forall id :: id in MemberIds(rest) ==> id in MemberIds(waiting) && id != waiting[i].userId
  {
    var ids, rest := MemberIds(waiting), waiting[..i] + waiting[i + 1..];
    assert ids[i] == waiting[i].userId;
    assert MemberIds(rest) == ids[..i] + ids[i + 1..];
  }

  lemma {:induction false} StayingIs(participants: seq<MatchPlayer>, departures: set<int>)
    ensures forall id :: HasId(Staying(participants, departures), id) <==> HasId(participants, id) && id !in departures
    ensures Distinct(PlayerIds(participants)) ==> Distinct(PlayerIds(Staying(participants, departures)))
    ensures |Staying(participants, departures)| <= |participants|
  {
    hide Distinct;
    if participants != [] {
      var p, rest := participants[0], participants[1..];
      StayingIs(rest, departures);
      PlayerIdsCons(p, rest);
      assert participants == [p] + rest;
      if Distinct(PlayerIds(participants)) { TailDistinct(PlayerIds(participants)); }
      var kept := Staying(rest, departures);
      if p.userId !in departures {
        PlayerIdsCons(p, kept);
        if Distinct(PlayerIds(participants)) { ConsDistinct(p.userId, PlayerIds(kept)); }
      } else {
        assert [] + kept == kept;
      }
    }
  }

  // ---- Five against five --------------------------------------------------------

  /** Nobody promoted from the waitlist also stayed from the last match. */
  ghost predicate NoOverlap(staying: seq<MatchPlayer>, promoted: seq<MatchPlayer>) {
    forall p :: p in promoted ==> !HasId(staying, p.userId)
  }

  lemma RosterDistinct(staying: seq<MatchPlayer>, promoted: seq<MatchPlayer>)
    requires Distinct(PlayerIds(staying)) && Distinct(PlayerIds(promoted))
    ensures Distinct(PlayerIds(staying + promoted)) <==> NoOverlap(staying, promoted)
  {
    var a, b := PlayerIds(staying), PlayerIds(promoted);
    var all := PlayerIds(staying + promoted);
    assert all == a + b;
    if Distinct(all) {
      forall p | p in promoted ensures p.userId !in a {
        var j :| 0 <= j < |promoted| && promoted[j] == p;
        assert b[j] == p.userId && all[|a| + j] == b[j];
        assert forall i :: 0 <= i < |a| ==> all[i] == a[i];
      }
    }
    if NoOverlap(staying, promoted) {
      forall i, j | 0 <= i < j < |all| ensures all[i] != all[j] {
        if i < |a| <= j {
          assert promoted[j - |a|] in promoted && all[j] == promoted[j - |a|].userId && all[i] == a[i];
          assert a[i] in a;
        }
      }
    }
  }

  /** What a ready 5v5 continuation without a shuffle starts from. */
  ghost predicate Continues(record: MatchRecord, queue: PQ.Queue, departures: set<int>, staying: seq<MatchPlayer>, promoted: seq<MatchPlayer>) {
    && FiveOnFive(record) && PQR.Apart(queue)
    && staying == Staying(Participants(record), departures)
    && NextRoster(record, queue, departures) == Ok(staying + promoted) && |staying + promoted| >= 10
  }

  lemma WaitlistDistinct(queue: PQ.Queue)
    requires PQR.Apart(queue)
    ensures Distinct(MemberIds(queue.waitlist))
  {
    var ids := MemberIds(queue.waitlist);
    forall i, j | 0 <= i < j < |ids| ensures ids[i] != ids[j] {
      assert !PQ.Clash(PQ.Everyone(queue)[|queue.active| + i], PQ.Everyone(queue)[|queue.active| + j]);
    }
  }

  lemma ContinuingRoster(record: MatchRecord, queue: PQ.Queue, departures: set<int>, staying: seq<MatchPlayer>, promoted: seq<MatchPlayer>)
    requires Continues(record, queue, departures, staying, promoted)
    ensures |staying + promoted| == 10
    ensures Distinct(PlayerIds(staying)) && Distinct(PlayerIds(promoted))
    ensures forall id :: HasId(staying, id) <==> HasId(Participants(record), id) && id !in departures
    ensures forall p :: p in promoted ==> p.userId in MemberIds(queue.waitlist)
    ensures Distinct(PlayerIds(Newcomers(staying + promoted, PlayerIds(Participants(record)))))
  {
    var all := Participants(record);
    ParticipantsDistinct(record);
    StayingIs(all, departures);
    WaitlistDistinct(queue);
    SubstitutesAreWaiting(staying, queue.waitlist, FirstDeparted(all, departures), |all|);
    var roster := staying + promoted;
    assert roster[|staying|..] == promoted;
    hide Distinct, NextRoster, WithSubstitutes;
    NewcomersAppend(staying, promoted, PlayerIds(all));
    NoneAreNew(staying, PlayerIds(all));
    NewcomersAre(promoted, PlayerIds(all));
    assert [] + Newcomers(promoted, PlayerIds(all)) == Newcomers(promoted, PlayerIds(all));
  }

  lemma {:induction false} NoneAreNew(roster: seq<MatchPlayer>, known: seq<int>)
    requires forall id :: HasId(roster, id) ==> id in known
    ensures Newcomers(roster, known) == []
  {
    if roster != [] {
      var p, rest := roster[0], roster[1..];
      PlayerIdsCons(p, rest);
      assert roster == [p] + rest;
      assert HasId(roster, p.userId);
      NoneAreNew(rest, known);
    }
  }

  /** The two sides have five players each exactly when nobody who was promoted
      had stayed; a player both on the last match and on the waitlist breaks it. */
  lemma FiveExactlyWithoutOverlap(record: MatchRecord, queue: PQ.Queue, departures: set<int>, staying: seq<MatchPlayer>, promoted: seq<MatchPlayer>)
    requires Continues(record, queue, departures, staying, promoted)
    ensures var (a, b) := SameSides(record, staying + promoted);
            |a| == 5 && |b| == 5 <==> NoOverlap(staying, promoted)
  {
    ContinuingRoster(record, queue, departures, staying, promoted);
    RosterDistinct(staying, promoted);
    SidesAreFiveExactlyWhenDistinct(record, staying + promoted);
  }

  /** Then the teams are accepted: five on each side, survivors on the side they
      were on, every survivor and substitute seated once, and a captain on each
      side, the old one wherever they stayed. */
  lemma ContinuationKeepsSides(record: MatchRecord, queue: PQ.Queue, departures: set<int>, staying: seq<MatchPlayer>, promoted: seq<MatchPlayer>)
    requires Continues(record, queue, departures, staying, promoted) && NoOverlap(staying, promoted)
    ensures Teams(record, staying + promoted, false).Ok?
    ensures var (one, two) := Teams(record, staying + promoted, false).value;
            && |one.players| == 5 && |two.players| == 5 && ValidTeam(one) && ValidTeam(two)
            && (forall id :: HasId(record.teamOne.players, id) && id !in departures ==> HasId(one.players, id))
            && (forall id :: HasId(record.teamTwo.players, id) && id !in departures ==> HasId(two.players, id))
            && (forall id :: HasId(one.players, id) || HasId(two.players, id) <==> HasId(staying, id) || HasId(promoted, id))
            && (forall id :: !(HasId(one.players, id) && HasId(two.players, id)))
            && (record.teamOne.captainId !in departures ==> one.captainId == record.teamOne.captainId)
            && (record.teamTwo.captainId !in departures ==> two.captainId == record.teamTwo.captainId)
  {
    var roster := staying + promoted;
    ContinuingRoster(record, queue, departures, staying, promoted);
    RosterDistinct(staying, promoted);
    FiveExactlyWithoutOverlap(record, queue, departures, staying, promoted);
    ParticipantsDistinct(record);
    SidesHold(record, roster);
    IdsAppend(staying, promoted);
    IdsAppend(record.teamOne.players, record.teamTwo.players);
    var (a, b) := SameSides(record, roster);
    hide Continues, SameSides, Distinct;
    CaptainedIs("Blue", record.teamOne.captainId, a);
    CaptainedIs("Red", record.teamTwo.captainId, b);
  }

  lemma IdsAppend(a: seq<MatchPlayer>, b: seq<MatchPlayer>)
    ensures PlayerIds(a + b) == PlayerIds(a) + PlayerIds(b)
    ensures forall id :: HasId(a + b, id) <==> HasId(a, id) || HasId(b, id)
  {
    assert PlayerIds(a + b) == PlayerIds(a) + PlayerIds(b);
  }

  lemma CaptainedIs(name: string, captainId: int, players: seq<MatchPlayer>)
    requires name != "" && players != [] && Distinct(PlayerIds(players))
    ensures Captained(name, captainId, players).Ok?
    ensures var t := Captained(name, captainId, players).value;
            ValidTeam(t) && t.players == players && (HasId(players, captainId) ==> t.captainId == captainId)
  {
    var first := players[0].userId;
    assert PlayerIds(players)[0] == first;
  }

  /** Both sides hold the roster, each player once, kept players on their side. */
  lemma SidesHold(record: MatchRecord, roster: seq<MatchPlayer>)
    requires FiveOnFive(record) && Distinct(PlayerIds(roster))
    ensures var (a, b) := SameSides(record, roster);
            && Distinct(PlayerIds(a)) && Distinct(PlayerIds(b))
            && (forall id :: HasId(a, id) || HasId(b, id) <==> HasId(roster, id))
            && (forall id :: !(HasId(a, id) && HasId(b, id)))
            && (forall id :: HasId(record.teamOne.players, id) && HasId(roster, id) ==> HasId(a, id))
            && (forall id :: HasId(record.teamTwo.players, id) && HasId(roster, id) ==> HasId(b, id))
  {
    var all := Participants(record);
    var one, two := Kept(record.teamOne.players, roster), Kept(record.teamTwo.players, roster);
    var newcomers := Newcomers(roster, PlayerIds(all));
    ParticipantsDistinct(record);
    KeptIs(record.teamOne.players, roster);
    KeptIs(record.teamTwo.players, roster);
    NewcomersAre(roster, PlayerIds(all));
    PlacedIs(one, two, newcomers);
    IdsAppend(record.teamOne.players, record.teamTwo.players);
    var n := Min(5 - |one|, |newcomers|);
    hide Distinct, Kept, Newcomers, Placed, PlayerIds, FiveOnFive;
    assert newcomers == newcomers[..n] + newcomers[n..];
    IdsAppend(newcomers[..n], newcomers[n..]);
    IdsAppend(one, newcomers[..n]);
    IdsAppend(two, newcomers[n..]);
    DistinctHalves(PlayerIds(newcomers[..n]), PlayerIds(newcomers[n..]));
    forall id | HasId(one, id) ensures !HasId(newcomers, id) && !HasId(two, id) {
      assert HasId(record.teamOne.players, id);
      OnOneSide(record, id);
    }
    forall id | HasId(two, id) ensures !HasId(newcomers, id) {
      assert HasId(record.teamTwo.players, id);
    }
    PartsAddDistinct(one, two, newcomers, n);
  }

  lemma PartsAddDistinct(one: seq<MatchPlayer>, two: seq<MatchPlayer>, newcomers: seq<MatchPlayer>, n: nat)
    requires n <= |newcomers| && Distinct(PlayerIds(newcomers)) && Distinct(PlayerIds(one)) && Distinct(PlayerIds(two))
    requires forall id :: HasId(one, id) || HasId(two, id) ==> !HasId(newcomers, id)
    ensures Distinct(PlayerIds(one + newcomers[..n])) && Distinct(PlayerIds(two + newcomers[n..]))
  {
    var front, back := newcomers[..n], newcomers[n..];
    assert newcomers == front + back;
    IdsAppend(front, back);
    IdsAppend(one, front);
    IdsAppend(two, back);
    DistinctHalves(PlayerIds(front), PlayerIds(back));
    forall id | id in PlayerIds(one) ensures id !in PlayerIds(front) {
      assert HasId(one, id);
      assert HasId(front, id) ==> HasId(newcomers, id);
    }
    forall id | id in PlayerIds(two) ensures id !in PlayerIds(back) {
      assert HasId(two, id);
      assert HasId(back, id) ==> HasId(newcomers, id);
    }
    BothDistinct(PlayerIds(one), PlayerIds(front));
    BothDistinct(PlayerIds(two), PlayerIds(back));
  }

  lemma OnOneSide(record: MatchRecord, id: int)
    requires ValidRecord(record)
    ensures !(HasId(record.teamOne.players, id) && HasId(record.teamTwo.players, id))
  {
  }

  lemma DistinctHalves(a: seq<int>, b: seq<int>)
    requires Distinct(a + b)
    ensures Distinct(a) && Distinct(b) && forall id :: id in a ==> id !in b
  {
    var all := a + b;
    assert forall i :: 0 <= i < |a| ==> a[i] == all[i];
    assert forall i :: 0 <= i < |b| ==> b[i] == all[|a| + i];
  }

  lemma BothDistinct(a: seq<int>, b: seq<int>)
    requires Distinct(a) && Distinct(b) && forall id :: id in a ==> id !in b
    ensures Distinct(a + b)
  {
    var all := a + b;
    forall i, j | 0 <= i < j < |all| ensures all[i] != all[j] {
      if i < |a| <= j { assert all[i] in a && all[j] in b; }
    }
  }

  // ---- Shuffling ----------------------------------------------------------------

  /** A shuffle seats the roster on two equal teams, each player once, and never
      gives Blue the players it had. */
  lemma ShuffleChangesBlue(record: MatchRecord, roster: seq<MatchPlayer>)
    requires Shuffled(record, roster).Ok?
    ensures var (one, two) := Shuffled(record, roster).value;
            && |one.players| == |two.players| && ValidTeam(one) && ValidTeam(two)
            && multiset(PlayerIds(one.players)) + multiset(PlayerIds(two.players)) == multiset(PlayerIds(roster))
            && IdSet(one.players) != IdSet(record.teamOne.players)
  {
    var players := FormationPlayers(roster, {record.teamOne.captainId, record.teamTwo.captainId});
    var f := TF.FormSmiteTeams(players, TF.Balanced).value;
    var blue, red := Seated(f.blue.assignments), Seated(f.red.assignments);
    FormationSplits(players, f, PlayerIds(roster));
    hide TF.FormSmiteTeams, TFT.UserIds, RolesKnown, FormationPlayers, Seated, PlayerIds, IdSet, Distinct;
    SidesDiffer(blue, red, PlayerIds(roster));
  }

  lemma FormationSplits(players: seq<TF.Player>, f: TF.FormationResult, ids: seq<int>)
    requires TF.FormSmiteTeams(players, TF.Balanced) == Ok(f) && TFT.UserIds(players) == ids
    ensures var blue, red := Seated(f.blue.assignments), Seated(f.red.assignments);
            && multiset(PlayerIds(blue)) + multiset(PlayerIds(red)) == multiset(ids)
            && |blue| == |red| && Distinct(ids) && ids != []
  {
    hide TF.FormSmiteTeams;
    TFT.FormationSeatsEveryone(players, TF.Balanced);
    TFT.FormationFailsWhen(players, TF.Balanced);
    var blue, red := Seated(f.blue.assignments), Seated(f.red.assignments);
    assert PlayerIds(blue) == TF.AssignedIds(f.blue.assignments) && PlayerIds(red) == TF.AssignedIds(f.red.assignments);
    forall i, j | 0 <= i < j < |ids| ensures ids[i] != ids[j] {
      assert players[i].userId == ids[i] && players[j].userId == ids[j];
      if ids[i] == ids[j] { TF.RepeatedId(players, i, j); }
    }
  }

  /** Two sides that share a roster without repeats are different sides. */
  lemma SidesDiffer(blue: seq<MatchPlayer>, red: seq<MatchPlayer>, ids: seq<int>)
    requires multiset(PlayerIds(blue)) + multiset(PlayerIds(red)) == multiset(ids)
    requires Distinct(ids) && |blue| == |red| && ids != []
    ensures IdSet(blue) != IdSet(red)
  {
    assert |multiset(ids)| == |ids|;
    var b, r := PlayerIds(blue), PlayerIds(red);
    assert |multiset(b)| == |b| && |multiset(r)| == |r|;
    var id := b[0];
    assert id in b && id in IdSet(blue);
    DistinctCount(ids, id);
    assert multiset(ids)[id] == multiset(b)[id] + multiset(r)[id];
    assert multiset(r)[id] == 0;
    assert id !in IdSet(red);
  }
}
