/** What a formed match is worth, told seat by seat and without the keys that find
    it: no legal line-up is better, and the volunteers are kept apart. */
module TeamFormationQuality {
  import opened Common
  import opened TeamFormation
  import opened TeamFormationTheorems

  /** A player in a role. */
  type Seat = (int, Role)

  function SeatsOf(a: seq<RoleAssignment>): (r: seq<Seat>)
    ensures |r| == |a|
  {
    seq(|a|, i requires 0 <= i < |a| => (a[i].userId, a[i].role))
  }

  function Ids(side: seq<Seat>): (r: seq<int>)
    ensures |r| == |side|
  {
    seq(|side|, i requires 0 <= i < |side| => side[i].0)
  }

  function RolesIn(side: seq<Seat>): (r: seq<Role>)
    ensures |r| == |side|
  {
    seq(|side|, i requires 0 <= i < |side| => side[i].1)
  }

  /** Two equal sides, every player on exactly one of them, no role twice on a side. */
  ghost predicate LineUp(players: seq<Player>, blue: seq<Seat>, red: seq<Seat>) {
    && |blue| == |red| && multiset(Ids(blue)) + multiset(Ids(red)) == multiset(UserIds(players))
    && Distinct(RolesIn(blue)) && Distinct(RolesIn(red))
  }

  // ---- What a line-up is worth ------------------------------------------------------------

  function Marks(side: seq<Seat>, f: Seat -> bool): (r: seq<bool>)
    ensures |r| == |side|
  {
    seq(|side|, i requires 0 <= i < |side| => f(side[i]))
  }

  /** How many seats are so. */
  function Count(side: seq<Seat>, f: Seat -> bool): nat { multiset(Marks(side, f))[true] }

  predicate PlaysFirst(players: seq<Player>, s: Seat) {
    exists p :: p in players && p.userId == s.0 && p.primary == Some(s.1)
  }

  predicate PlaysSecond(players: seq<Player>, s: Seat) {
    exists p :: p in players && p.userId == s.0 && p.primary != Some(s.1) && p.secondary == Some(s.1)
  }

  predicate IsTank(s: Seat) { s.1 == Solo || s.1 == Support }

  /** One tank on a side of two or three, two on a side of four or five. */
  function OffTarget(side: seq<Seat>): int {
    if |side| == 2 || |side| == 3 then Abs(Count(side, IsTank) - 1)
    else if |side| == 4 || |side| == 5 then Abs(Count(side, IsTank) - 2)
    else 0
  }

  predicate HasVolunteer(players: seq<Player>, side: seq<Seat>) {
    exists p :: p in players && p.captain && p.userId in Ids(side)
  }

  function SideStrength(players: seq<Player>, side: seq<Seat>): int {
    if players == [] then 0
    else (if players[0].userId in Ids(side) then Strength(players[0]) else 0) + SideStrength(players[1..], side)
  }

  datatype Worth = Worth(offTarget: int, first: int, second: int, apart: bool, gap: int)

  function WorthOf(players: seq<Player>, blue: seq<Seat>, red: seq<Seat>): Worth {
    Worth(OffTarget(blue) + OffTarget(red),
          Count(blue, s => PlaysFirst(players, s)) + Count(red, s => PlaysFirst(players, s)),
          Count(blue, s => PlaysSecond(players, s)) + Count(red, s => PlaysSecond(players, s)),
          HasVolunteer(players, blue) && HasVolunteer(players, red),
          Abs(SideStrength(players, blue) - SideStrength(players, red)))
  }

  /** Composition first, then first and second choices. */
  predicate FitsBetter(a: Worth, b: Worth) {
    || a.offTarget < b.offTarget
    || (a.offTarget == b.offTarget && a.first > b.first)
    || (a.offTarget == b.offTarget && a.first == b.first && a.second > b.second)
  }

  predicate FitsEqually(a: Worth, b: Worth) { a.offTarget == b.offTarget && a.first == b.first && a.second == b.second }

  /** Then volunteers on both sides, then the smaller gap in strength. */
  predicate Better(a: Worth, b: Worth) {
    || FitsBetter(a, b)
    || (FitsEqually(a, b) && a.apart && !b.apart)
    || (FitsEqually(a, b) && a.apart == b.apart && a.gap < b.gap)
  }

  // ---- Strength -----------------------------------------------------------------------------

  /** The skill bands from the bottom; who names none counts as intermediate. */
  predicate Above(a: SkillBand, b: SkillBand) {
    match a
    case New => false
    case Beginner => false
    case Casual => b in {New, Beginner}
    case Intermediate => b in {New, Beginner, Casual}
    case Unlisted => b in {New, Beginner, Casual}
    case Experienced => b in {New, Beginner, Casual, Intermediate, Unlisted}
    case Competitive => b != Competitive
  }

  /** Between players with the same adjustment, experience decides within a band, up
      to a hundred matches; a band higher is never outweighed by it, and is equalled
      only by a hundred matches against none. An adjustment counts in full. */
  lemma {:induction false} StrengthFollowsBands(p: Player, q: Player, adjustment: int)
    ensures Strength(p.(recentAdjustment := adjustment)) - Strength(p) == adjustment - p.recentAdjustment
    ensures p.recentAdjustment == q.recentAdjustment ==>
              && (Above(p.band, q.band) ==> Strength(p) >= Strength(q) && (Strength(p) == Strength(q) ==> p.experience == 0 && q.experience >= 100))
              && (!Above(p.band, q.band) && !Above(q.band, p.band) ==>
                    (Strength(p) > Strength(q) <==> p.experience > q.experience && q.experience < 100))
  {
  }

  // ---- Counting -----------------------------------------------------------------------------

  lemma {:induction false} CountCons(s: Seat, rest: seq<Seat>, f: Seat -> bool)
    ensures Count([s] + rest, f) == (if f(s) then 1 else 0) + Count(rest, f)
  {
    assert Marks([s] + rest, f) == [f(s)] + Marks(rest, f);
  }

  lemma {:induction false} CountSame(a: seq<Seat>, b: seq<Seat>, f: Seat -> bool)
    requires multiset(a) == multiset(b)
    ensures Count(a, f) == Count(b, f)
  {
    if a == [] {
      assert |multiset(b)| == 0;
    } else {
      assert a[0] in multiset(b);
      var i :| 0 <= i < |b| && b[i] == a[0];
      var rest := b[..i] + b[i + 1..];
      RemoveAt(b, i);
      assert a == [a[0]] + a[1..];
      assert multiset(a[1..]) == multiset(a) - multiset{a[0]};
      CountSame(a[1..], rest, f);
      CountCons(a[0], a[1..], f);
      assert Marks(rest, f) == Marks(b, f)[..i] + Marks(b, f)[i + 1..];
      RemoveAt(Marks(b, f), i);
    }
  }

  // ---- The key says the same ----------------------------------------------------------------

  /** An assignment of members of the roster. */
  ghost predicate OfMembers(roster: seq<Player>, a: seq<RoleAssignment>) {
    forall i :: 0 <= i < |a| ==> Honest(roster, a[i])
  }

  lemma {:induction false} PreferenceIs(roster: seq<Player>, a: RoleAssignment)
    requires Ascending(roster) && Honest(roster, a)
    ensures a.preference == First <==> PlaysFirst(roster, (a.userId, a.role))
    ensures a.preference == Second <==> PlaysSecond(roster, (a.userId, a.role))
  {
    var p :| p in roster && a == RoleAssignment(p.userId, a.role, PreferenceOf(p, a.role), Strength(p));
    forall q | q in roster && q.userId == a.userId ensures q == p { SameIdSamePlayer(roster, p, q); }
  }

  lemma {:induction false} CountsAre(roster: seq<Player>, a: seq<RoleAssignment>)
    requires Ascending(roster) && OfMembers(roster, a)
    ensures CountPreference(a, First) == Count(SeatsOf(a), s => PlaysFirst(roster, s))
    ensures CountPreference(a, Second) == Count(SeatsOf(a), s => PlaysSecond(roster, s))
    ensures CountTanks(a) == Count(SeatsOf(a), IsTank)
  {
    hide PlaysFirst, PlaysSecond, Honest;
    if a != [] {
      var s, rest := (a[0].userId, a[0].role), a[1..];
      assert SeatsOf(a) == [s] + SeatsOf(rest);
      PreferenceIs(roster, a[0]);
      CountsAre(roster, rest);
      CountCons(s, SeatsOf(rest), s => PlaysFirst(roster, s));
      CountCons(s, SeatsOf(rest), s => PlaysSecond(roster, s));
      CountCons(s, SeatsOf(rest), IsTank);
    }
  }

  lemma {:induction false} StrengthIs(roster: seq<Player>, ids: set<int>, side: seq<Seat>)
    requires forall p :: p in roster ==> (p.userId in ids <==> p.userId in Ids(side))
    ensures SumStrength(Members(roster, ids)) == SideStrength(roster, side)
  {
    hide Strength, Ids;
    if roster != [] {
      assert roster[0] in roster;
      StrengthIs(roster[1..], ids, side);
    }
  }

  /** Members of the roster with these IDs, in these roles. */
  ghost predicate Seated(roster: seq<Player>, ids: set<int>, roles: seq<Role>, a: seq<RoleAssignment>) {
    Ascending(roster) && ids <= PlayerIds(roster) && |roles| == |Members(roster, ids)| && a == Assign(Members(roster, ids), roles)
  }

  lemma {:induction false} SeatedIs(roster: seq<Player>, ids: set<int>, roles: seq<Role>, a: seq<RoleAssignment>)
    requires Seated(roster, ids, roles, a)
    ensures OfMembers(roster, a) && |a| == |ids| && RolesIn(SeatsOf(a)) == roles
    ensures forall id :: id in Ids(SeatsOf(a)) <==> id in ids
    ensures TeamStrength(a) == SideStrength(roster, SeatsOf(a))
    ensures (set id | id in AssignedIds(a)) == ids
  {
    var members := Members(roster, ids);
    MembersSize(roster, ids);
    RolesDoNotMatter(members, roles);
    assert AssignedIds(a) == Ids(SeatsOf(a));
    forall id ensures id in Ids(SeatsOf(a)) <==> id in ids {
      assert id in AssignedIds(a) <==> id in PlayerIds(members);
    }
    forall i | 0 <= i < |a| ensures Honest(roster, a[i]) { assert members[i] in members; }
    StrengthIs(roster, ids, SeatsOf(a));
  }

  lemma {:induction false} TwoOrMore(roster: seq<Player>, blueIds: set<int>, redIds: set<int>, blue: seq<Seat>, red: seq<Seat>)
    requires (forall id :: id in Ids(blue) <==> id in blueIds) && (forall id :: id in Ids(red) <==> id in redIds) && blueIds !! redIds
    ensures HasVolunteer(roster, blue) <==> CaptainIds(roster) * blueIds != {}
    ensures HasVolunteer(roster, red) <==> CaptainIds(roster) * redIds != {}
    ensures HasVolunteer(roster, blue) && HasVolunteer(roster, red) ==> |CaptainIds(roster)| >= 2
  {
    var captains := CaptainIds(roster);
    VolunteerOn(roster, blueIds, blue);
    VolunteerOn(roster, redIds, red);
    if HasVolunteer(roster, blue) && HasVolunteer(roster, red) {
      NonEmpty(captains * blueIds);
      NonEmpty(captains * redIds);
      var x :| x in captains * blueIds;
      var y :| y in captains * redIds;
      TwoOf(captains, x, y);
    }
  }

  lemma {:induction false} TwoOf(s: set<int>, x: int, y: int)
    requires x in s && y in s && x != y
    ensures |s| >= 2
  {
    assert {x, y} <= s;
    var rest := s - {x};
    assert y in rest && |rest| == |s| - 1;
  }

  lemma {:induction false} VolunteerOn(roster: seq<Player>, ids: set<int>, side: seq<Seat>)
    requires forall id :: id in Ids(side) <==> id in ids
    ensures HasVolunteer(roster, side) <==> CaptainIds(roster) * ids != {}
  {
    hide Ids;
    if HasVolunteer(roster, side) {
      var p :| p in roster && p.captain && p.userId in Ids(side);
      assert p.userId in CaptainIds(roster) * ids;
    }
    NonEmpty(CaptainIds(roster) * ids);
    if CaptainIds(roster) * ids != {} {
      var id :| id in CaptainIds(roster) * ids;
      var p :| p in roster && p.captain && p.userId == id;
    }
  }

  lemma {:induction false} LexCons(x: int, s: seq<int>, y: int, t: seq<int>)
    ensures LexLeq([x] + s, [y] + t) <==> x < y || (x == y && LexLeq(s, t))
  {
    assert ([x] + s)[1..] == s && ([y] + t)[1..] == t;
  }

  lemma {:induction false} LexSix(a: seq<int>, b: seq<int>)
    requires |a| == |b| == 6 && LexLeq(a, b)
    ensures || a[0] < b[0] || (a[0] == b[0] && a[1] < b[1]) || (a[..2] == b[..2] && a[2] < b[2]) || (a[..3] == b[..3] && a[3] < b[3])
            || (a[..4] == b[..4] && a[4] < b[4]) || (a[..5] == b[..5] && a[5] <= b[5])
  {
    var x, y := a, b;
    var k := 0;
    while k < 5 && a[k] == b[k]
      invariant 0 <= k <= 5 && a[..k] == b[..k] && LexLeq(a[k..], b[k..])
    {
      assert a[k..] == [a[k]] + a[k + 1..] && b[k..] == [b[k]] + b[k + 1..];
      LexCons(a[k], a[k + 1..], b[k], b[k + 1..]);
      k := k + 1;
    }
    assert a[k..] == [a[k]] + a[k + 1..] && b[k..] == [b[k]] + b[k + 1..];
    LexCons(a[k], a[k + 1..], b[k], b[k + 1..]);
  }

  lemma {:induction false} TeamKeyIs(roster: seq<Player>, a: seq<RoleAssignment>)
    requires Ascending(roster) && OfMembers(roster, a) && |a| <= 5
    ensures var first: int, second: int := Count(SeatsOf(a), s => PlaysFirst(roster, s)), Count(SeatsOf(a), s => PlaysSecond(roster, s));
            TeamKey(a) == [OffTarget(SeatsOf(a)), -first, -second, |a| - first - second]
  {
    CountsAre(roster, a);
    hide Count, CountPreference, CountTanks, Honest;
    assert ArchetypePenalty(a) == OffTarget(SeatsOf(a));
  }

  lemma {:induction false} PenaltyIs(roster: seq<Player>, blueIds: set<int>, redIds: set<int>, blue: seq<RoleAssignment>, red: seq<RoleAssignment>)
    requires (set id | id in AssignedIds(blue)) == blueIds && (set id | id in AssignedIds(red)) == redIds && blueIds !! redIds
    requires (forall id :: id in Ids(SeatsOf(blue)) <==> id in blueIds) && (forall id :: id in Ids(SeatsOf(red)) <==> id in redIds)
    ensures var apart := HasVolunteer(roster, SeatsOf(blue)) && HasVolunteer(roster, SeatsOf(red));
            && CaptainPenalty(roster, blueIds, redIds) == (if |CaptainIds(roster)| >= 2 && !apart then 1 else 0)
            && (apart ==> |CaptainIds(roster)| >= 2)
  {
    TwoOrMore(roster, blueIds, redIds, SeatsOf(blue), SeatsOf(red));
    hide HasVolunteer, CaptainIds, Ids, AssignedIds;
  }

  /** The parts of a match key, in the terms of the worth. */
  lemma {:induction false} KeyIs(roster: seq<Player>, blueIds: set<int>, redIds: set<int>, blueRoles: seq<Role>, redRoles: seq<Role>,
              blue: seq<RoleAssignment>, red: seq<RoleAssignment>)
    requires Seated(roster, blueIds, blueRoles, blue) && Seated(roster, redIds, redRoles, red) && blueIds !! redIds && |blue| == |red| <= 5
    ensures var w, k := WorthOf(roster, SeatsOf(blue), SeatsOf(red)), MatchKey(roster, blue, red);
            && k[0] == w.offTarget && k[1] == -w.first && k[2] == -w.second && k[3] == 2 * |blue| - w.first - w.second
            && k[4] == (if |CaptainIds(roster)| >= 2 && !w.apart then 1 else 0) && k[5] == w.gap
            && (w.apart ==> |CaptainIds(roster)| >= 2)
  {
    hide Count, TeamKey, OffTarget, OfMembers, HasVolunteer, SideStrength, TeamStrength, CaptainIds, CaptainPenalty, Members, Assign, Ids, SeatsOf, AssignedIds;
    SeatedIs(roster, blueIds, blueRoles, blue);
    SeatedIs(roster, redIds, redRoles, red);
    TeamKeyIs(roster, blue);
    TeamKeyIs(roster, red);
    PenaltyIs(roster, blueIds, redIds, blue, red);
  }

  lemma {:induction false} LeastIsNotBeaten(roster: seq<Player>, a: seq<RoleAssignment>, b: seq<RoleAssignment>, c: seq<RoleAssignment>, d: seq<RoleAssignment>,
                         aIds: set<int>, bIds: set<int>, cIds: set<int>, dIds: set<int>,
                         aRoles: seq<Role>, bRoles: seq<Role>, cRoles: seq<Role>, dRoles: seq<Role>)
    requires Seated(roster, aIds, aRoles, a) && Seated(roster, bIds, bRoles, b) && aIds !! bIds && |a| == |b| <= 5
    requires Seated(roster, cIds, cRoles, c) && Seated(roster, dIds, dRoles, d) && cIds !! dIds && |c| == |d| == |a|
    requires LexLeq(MatchKey(roster, a, b), MatchKey(roster, c, d))
    ensures !Better(WorthOf(roster, SeatsOf(c), SeatsOf(d)), WorthOf(roster, SeatsOf(a), SeatsOf(b)))
  {
    hide WorthOf, Seated, MatchKey;
    KeyIs(roster, aIds, bIds, aRoles, bRoles, a, b);
    KeyIs(roster, cIds, dIds, cRoles, dRoles, c, d);
    var k, l := MatchKey(roster, a, b), MatchKey(roster, c, d);
    LexSix(k, l);
    Prefixes(k, l);
  }

  lemma {:induction false} Prefixes(k: seq<int>, l: seq<int>)
    requires |k| == |l| == 6
    ensures forall n, i :: 0 <= i < n <= 6 && k[..n] == l[..n] ==> k[i] == l[i]
  {
    forall n, i | 0 <= i < n <= 6 && k[..n] == l[..n] ensures k[i] == l[i] { assert k[..n][i] == l[..n][i]; }
  }

  // ---- Every line-up is such a seating ------------------------------------------------------

  function RoleIn(side: seq<Seat>, id: int): (r: Role)
    requires id in Ids(side)
    ensures (id, r) in side
  {
    if side[0].0 == id then side[0].1
    else
      assert Ids(side) == [side[0].0] + Ids(side[1..]);
      RoleIn(side[1..], id)
  }

  lemma {:induction false} OneSeat(side: seq<Seat>, s: Seat, t: Seat)
    requires Distinct(Ids(side)) && s in side && t in side && s.0 == t.0
    ensures s == t
  {
    var i :| 0 <= i < |side| && side[i] == s;
    var j :| 0 <= j < |side| && side[j] == t;
    assert Ids(side)[i] == Ids(side)[j];
  }

  lemma {:induction false} DistinctSeats(side: seq<Seat>)
    requires Distinct(Ids(side))
    ensures Distinct(side)
  {
    forall i, j | 0 <= i < j < |side| ensures side[i] != side[j] { assert Ids(side)[i] != Ids(side)[j]; }
  }

  lemma {:induction false} SameSeats(a: seq<Seat>, b: seq<Seat>)
    requires Distinct(a) && Distinct(b) && forall s :: s in a <==> s in b
    ensures multiset(a) == multiset(b)
  {
    forall s ensures multiset(a)[s] == multiset(b)[s] {
      DistinctCount(a, s);
      DistinctCount(b, s);
    }
  }

  lemma {:induction false} MemberIdsApart(roster: seq<Player>, ids: set<int>)
    requires Ascending(roster)
    ensures Distinct(UserIds(Members(roster, ids)))
  {
    MembersSorted(roster, ids);
  }

  /** The members with a side's IDs, each in the role it has there. */
  lemma {:induction false} SideIsSeated(roster: seq<Player>, side: seq<Seat>, ids: set<int>) returns (roles: seq<Role>, a: seq<RoleAssignment>)
    requires Ascending(roster) && Distinct(Ids(side)) && Distinct(RolesIn(side)) && ids <= PlayerIds(roster) && forall id :: id in ids <==> id in Ids(side)
    ensures Seated(roster, ids, roles, a) && Distinct(roles) && multiset(SeatsOf(a)) == multiset(side) && |a| == |side|
  {
    var members := Members(roster, ids);
    MembersSize(roster, ids);
    MemberIdsApart(roster, ids);
    forall i | 0 <= i < |members| ensures members[i].userId in Ids(side) { assert members[i] in members; }
    roles := seq(|members|, i requires 0 <= i < |members| => RoleIn(side, members[i].userId));
    a := Assign(members, roles);
    var seats := SeatsOf(a);
    assert Ids(seats) == UserIds(members);
    DistinctSeats(seats);
    DistinctSeats(side);
    forall s ensures s in seats <==> s in side {
      if s in seats {
        var i :| 0 <= i < |seats| && seats[i] == s;
        assert s == (members[i].userId, RoleIn(side, members[i].userId));
      }
      if s in side {
        var j :| 0 <= j < |side| && side[j] == s;
        assert Ids(side)[j] == s.0;
        var i := IdSource(members, s.0);
        OneSeat(side, s, (s.0, RoleIn(side, s.0)));
        assert seats[i] == s;
      }
    }
    SameSeats(seats, side);
    assert |multiset(seats)| == |multiset(side)|;
    RolesApart(side, members, roles);
  }

  lemma {:induction false} RolesApart(side: seq<Seat>, members: seq<Player>, roles: seq<Role>)
    requires Distinct(RolesIn(side)) && Distinct(UserIds(members)) && |roles| == |members|
    requires forall i :: 0 <= i < |members| ==> (members[i].userId, roles[i]) in side
    ensures Distinct(roles)
  {
    forall i, j | 0 <= i < j < |roles| ensures roles[i] != roles[j] {
      var m :| 0 <= m < |side| && side[m] == (members[i].userId, roles[i]);
      var n :| 0 <= n < |side| && side[n] == (members[j].userId, roles[j]);
      assert UserIds(members)[i] != UserIds(members)[j];
      assert RolesIn(side)[m] == roles[i] && RolesIn(side)[n] == roles[j];
    }
  }

  lemma {:induction false} IdsSame(a: seq<Seat>, b: seq<Seat>)
    requires multiset(a) == multiset(b)
    ensures forall id :: id in Ids(a) <==> id in Ids(b)
  {
    forall id | id in Ids(a) ensures id in Ids(b) { IdsThere(a, b, id); }
    forall id | id in Ids(b) ensures id in Ids(a) { IdsThere(b, a, id); }
  }

  lemma {:induction false} IdsThere(a: seq<Seat>, b: seq<Seat>, id: int)
    requires multiset(a) == multiset(b) && id in Ids(a)
    ensures id in Ids(b)
  {
    var i :| 0 <= i < |a| && Ids(a)[i] == id;
    assert a[i] in multiset(b);
    var j :| 0 <= j < |b| && b[j] == a[i];
    assert Ids(b)[j] == id;
  }

  lemma {:induction false} StrengthSame(players: seq<Player>, a: seq<Seat>, b: seq<Seat>)
    requires forall p :: p in players ==> (p.userId in Ids(a) <==> p.userId in Ids(b))
    ensures SideStrength(players, a) == SideStrength(players, b)
  {
    hide Ids, Strength;
    if players != [] {
      assert players[0] in players;
      StrengthSame(players[1..], a, b);
    }
  }

  lemma {:induction false} WorthSame(players: seq<Player>, a: seq<Seat>, b: seq<Seat>, c: seq<Seat>, d: seq<Seat>)
    requires multiset(a) == multiset(c) && multiset(b) == multiset(d)
    ensures WorthOf(players, a, b) == WorthOf(players, c, d)
  {
    assert |multiset(a)| == |multiset(c)| && |multiset(b)| == |multiset(d)|;
    CountSame(a, c, IsTank);
    CountSame(b, d, IsTank);
    CountSame(a, c, s => PlaysFirst(players, s));
    CountSame(b, d, s => PlaysFirst(players, s));
    CountSame(a, c, s => PlaysSecond(players, s));
    CountSame(b, d, s => PlaysSecond(players, s));
    IdsSame(a, c);
    IdsSame(b, d);
    StrengthSame(players, a, c);
    StrengthSame(players, b, d);
    hide Count, Ids, SideStrength;
  }

  lemma {:induction false} SidesApart(roster: seq<Player>, blue: seq<Seat>, red: seq<Seat>)
    requires Ascending(roster) && LineUp(roster, blue, red)
    ensures Distinct(Ids(blue)) && Distinct(Ids(red)) && 2 * |blue| == |roster|
    ensures forall id :: id in PlayerIds(roster) <==> id in Ids(blue) || id in Ids(red)
    ensures forall id :: !(id in Ids(blue) && id in Ids(red))
  {
    var x, y, z := Ids(blue), Ids(red), UserIds(roster);
    assert multiset(x + y) == multiset(z);
    SameMultisetDistinct(z, x + y);
    forall i, j | 0 <= i < j < |x| ensures x[i] != x[j] { assert (x + y)[i] != (x + y)[j]; }
    forall i, j | 0 <= i < j < |y| ensures y[i] != y[j] { assert (x + y)[|x| + i] != (x + y)[|x| + j]; }
    forall id ensures id in PlayerIds(roster) <==> id in x + y {
      assert id in multiset(x + y) <==> id in multiset(z);
      if id in PlayerIds(roster) { var i := IdSource(roster, id); assert z[i] == id; }
      if id in z { var i :| 0 <= i < |z| && z[i] == id; assert roster[i] in roster; }
    }
    forall i, j | 0 <= i < |x| && 0 <= j < |y| ensures x[i] != y[j] { assert (x + y)[i] != (x + y)[|x| + j]; }
  }

  // ---- The formed match ---------------------------------------------------------------------

  lemma {:induction false} FormedIsSeated(roster: seq<Player>, mode: Mode) returns (blueIds: set<int>, redIds: set<int>, blueRoles: seq<Role>, redRoles: seq<Role>)
    requires ValidRoster(roster)
    ensures var r := OptimizedSplit(roster, mode);
            && Seated(roster, blueIds, blueRoles, r.blue.assignments) && Seated(roster, redIds, redRoles, r.red.assignments)
            && blueIds !! redIds && |r.blue.assignments| == |r.red.assignments| == |roster| / 2 && roster[0].userId in blueIds
  {
    var halves := Halves(roster);
    CandidatesExist(roster);
    var best := BestSplit(roster);
    var half := CandidateOrigin(roster, halves, best);
    HalvesSplit(roster, half);
    blueIds, redIds := PlayerIds(half), PlayerIds(roster) - PlayerIds(half);
    var rest := Members(roster, redIds);
    MembersSorted(roster, blueIds);
    MembersSorted(roster, redIds);
    SortOfSorted(half, IdKey) by { TeamFormation.SortedById(half); }
    SortOfSorted(rest, IdKey) by { TeamFormation.SortedById(rest); }
    blueRoles, redRoles := BestRoles(half), BestRoles(rest);
  }

  lemma {:induction false} NoLineUpOfTheRosterIsBetter(roster: seq<Player>, mode: Mode, blue: seq<Seat>, red: seq<Seat>)
    requires ValidRoster(roster) && LineUp(roster, blue, red)
    ensures var r := OptimizedSplit(roster, mode);
            !Better(WorthOf(roster, blue, red), WorthOf(roster, SeatsOf(r.blue.assignments), SeatsOf(r.red.assignments)))
  {
    hide Seated, WorthOf, Better, MatchKey, OptimizedSplit;
    var r := OptimizedSplit(roster, mode);
    SidesApart(roster, blue, red);
    var blueIds := set id | id in Ids(blue);
    var redIds := PlayerIds(roster) - blueIds;
    var blueRoles, b := SideIsSeated(roster, blue, blueIds);
    var redRoles, c := SideIsSeated(roster, red, redIds);
    WorthSame(roster, blue, red, SeatsOf(b), SeatsOf(c));
    var bestBlue, bestRed, bestBlueRoles, bestRedRoles := FormedIsSeated(roster, mode);
    SeatedSize(roster, blueIds, blueRoles, b);
    SeatedSize(roster, redIds, redRoles, c);
    OptimizedSplitIsGloballyOptimal(roster, mode, blueIds, blueRoles, redRoles);
    LeastIsNotBeaten(roster, r.blue.assignments, r.red.assignments, b, c, bestBlue, bestRed, blueIds, redIds,
                     bestBlueRoles, bestRedRoles, blueRoles, redRoles);
  }

  lemma {:induction false} SeatedSize(roster: seq<Player>, ids: set<int>, roles: seq<Role>, a: seq<RoleAssignment>)
    requires Seated(roster, ids, roles, a)
    ensures |roles| == |a| == |ids| && a == Assign(Members(roster, ids), roles)
  {
    MembersSize(roster, ids);
  }

  // ---- From the players handed in -----------------------------------------------------------

  lemma {:induction false} StrengthOfPlayers(a: seq<Player>, b: seq<Player>, side: seq<Seat>)
    requires multiset(a) == multiset(b)
    ensures SideStrength(a, side) == SideStrength(b, side)
  {
    hide Ids, Strength;
    if a == [] {
      assert |multiset(b)| == 0;
    } else {
      assert a[0] in multiset(b);
      var i :| 0 <= i < |b| && b[i] == a[0];
      RemoveAt(b, i);
      assert a == [a[0]] + a[1..];
      assert multiset(a[1..]) == multiset(a) - multiset{a[0]};
      StrengthOfPlayers(a[1..], b[..i] + b[i + 1..], side);
      StrengthWithout(b, i, side);
    }
  }

  lemma {:induction false} StrengthWithout(b: seq<Player>, i: nat, side: seq<Seat>)
    requires i < |b|
    ensures SideStrength(b, side) == (if b[i].userId in Ids(side) then Strength(b[i]) else 0) + SideStrength(b[..i] + b[i + 1..], side)
  {
    hide Ids, Strength;
    if i == 0 {
      assert b[..0] + b[1..] == b[1..];
    } else {
      StrengthWithout(b[1..], i - 1, side);
      assert (b[..i] + b[i + 1..])[1..] == b[1..][..i - 1] + b[1..][i..];
    }
  }

  lemma {:induction false} WorthOfPlayers(a: seq<Player>, b: seq<Player>, blue: seq<Seat>, red: seq<Seat>)
    requires multiset(a) == multiset(b)
    ensures WorthOf(a, blue, red) == WorthOf(b, blue, red)
    ensures HasVolunteer(a, blue) == HasVolunteer(b, blue) && HasVolunteer(a, red) == HasVolunteer(b, red)
  {
    forall p ensures p in a <==> p in b { assert p in multiset(a) <==> p in multiset(b); }
    StrengthOfPlayers(a, b, blue);
    StrengthOfPlayers(a, b, red);
    MarksAgree(a, b, blue);
    MarksAgree(a, b, red);
  }

  lemma {:induction false} MarksAgree(a: seq<Player>, b: seq<Player>, side: seq<Seat>)
    requires forall p :: p in a <==> p in b
    ensures Marks(side, s => PlaysFirst(a, s)) == Marks(side, s => PlaysFirst(b, s))
    ensures Marks(side, s => PlaysSecond(a, s)) == Marks(side, s => PlaysSecond(b, s))
  {
    forall s ensures PlaysFirst(a, s) == PlaysFirst(b, s) && PlaysSecond(a, s) == PlaysSecond(b, s) { }
  }

  /** In the two optimising modes no legal line-up of the players is better than
      the match formed: none composes the sides better, none gives more first
      choices, then second choices, none parts the volunteers where it does not,
      none brings the sides closer in strength. */
  lemma {:induction false} NoLineUpIsBetter(players: seq<Player>, mode: Mode, blue: seq<Seat>, red: seq<Seat>)
    requires mode != Captains && FormSmiteTeams(players, mode).Ok? && LineUp(players, blue, red)
    ensures var r := FormSmiteTeams(players, mode).value;
            !Better(WorthOf(players, blue, red), WorthOf(players, SeatsOf(r.blue.assignments), SeatsOf(r.red.assignments)))
  {
    hide WorthOf, Better;
    var roster := SortBy(players, IdKey);
    SortedDistinctAscends(roster);
    SameIds(roster, players);
    NoLineUpOfTheRosterIsBetter(roster, mode, blue, red);
    var r := OptimizedSplit(roster, mode);
    WorthOfPlayers(players, roster, blue, red);
    WorthOfPlayers(players, roster, SeatsOf(r.blue.assignments), SeatsOf(r.red.assignments));
  }

  /** When a side of the match formed has no volunteer to be captain, every legal
      line-up with a volunteer on each side has a worse composition, or the same
      with fewer first choices, or with these the same, fewer second choices. */
  lemma {:induction false} VolunteersAreKeptApart(players: seq<Player>, mode: Mode, blue: seq<Seat>, red: seq<Seat>)
    requires mode != Captains && FormSmiteTeams(players, mode).Ok? && LineUp(players, blue, red)
    requires HasVolunteer(players, blue) && HasVolunteer(players, red)
    requires var r := FormSmiteTeams(players, mode).value;
             !HasVolunteer(players, SeatsOf(r.blue.assignments)) || !HasVolunteer(players, SeatsOf(r.red.assignments))
    ensures var r := FormSmiteTeams(players, mode).value;
            FitsBetter(WorthOf(players, SeatsOf(r.blue.assignments), SeatsOf(r.red.assignments)), WorthOf(players, blue, red))
  {
    NoLineUpIsBetter(players, mode, blue, red);
    hide Count, SideStrength, HasVolunteer, OffTarget, FormSmiteTeams;
  }

  // ---- What is reported ---------------------------------------------------------------------

  lemma {:induction false} AddsStrength(players: seq<Player>, p: Player, s: Seat, rest: seq<Seat>)
    requires Distinct(UserIds(players)) && p in players && s.0 == p.userId && s.0 !in Ids(rest)
    ensures SideStrength(players, [s] + rest) == Strength(p) + SideStrength(players, rest)
  {
    hide Strength;
    assert Ids([s] + rest) == [s.0] + Ids(rest);
    var tail := players[1..];
    assert UserIds(players) == [players[0].userId] + UserIds(tail);
    forall q | q in tail ensures q.userId != players[0].userId {
      var i :| 0 <= i < |tail| && tail[i] == q;
      assert UserIds(players)[0] != UserIds(players)[i + 1];
    }
    hide Ids;
    if players[0] == p {
      StrengthSame(tail, [s] + rest, rest);
    } else {
      assert p in tail;
      forall i, j | 0 <= i < j < |tail| ensures UserIds(tail)[i] != UserIds(tail)[j] { assert UserIds(players)[i + 1] != UserIds(players)[j + 1]; }
      AddsStrength(tail, p, s, rest);
    }
  }

  lemma {:induction false} TeamStrengthIs(players: seq<Player>, a: seq<RoleAssignment>)
    requires Distinct(UserIds(players)) && OfMembers(players, a) && Distinct(AssignedIds(a))
    ensures TeamStrength(a) == SideStrength(players, SeatsOf(a))
  {
    if a == [] {
      NobodyIsStrong(players);
    } else {
      var rest, s := a[1..], (a[0].userId, a[0].role);
      assert AssignedIds(a) == [a[0].userId] + AssignedIds(rest);
      forall i, j | 0 <= i < j < |rest| ensures AssignedIds(rest)[i] != AssignedIds(rest)[j] { assert AssignedIds(a)[i + 1] != AssignedIds(a)[j + 1]; }
      TeamStrengthIs(players, rest);
      var p :| p in players && a[0] == RoleAssignment(p.userId, a[0].role, PreferenceOf(p, a[0].role), Strength(p));
      assert SeatsOf(a) == [s] + SeatsOf(rest);
      forall i | 0 <= i < |rest| ensures Ids(SeatsOf(rest))[i] != s.0 { assert AssignedIds(a)[0] != AssignedIds(a)[i + 1]; }
      AddsStrength(players, p, s, SeatsOf(rest));
    }
  }

  lemma {:induction false} NobodyIsStrong(players: seq<Player>)
    ensures SideStrength(players, []) == 0
  {
    if players != [] { NobodyIsStrong(players[1..]); }
  }

  /** In every mode the strength difference reported is the gap between the sides,
      and the mode is the one asked for. */
  lemma {:induction false} ReportedGap(players: seq<Player>, mode: Mode)
    requires FormSmiteTeams(players, mode).Ok?
    ensures var r := FormSmiteTeams(players, mode).value;
            && r.strengthDifference == Abs(SideStrength(players, SeatsOf(r.blue.assignments)) - SideStrength(players, SeatsOf(r.red.assignments)))
            && r.mode == mode && (mode != Captains ==> r.draftOrder == [])
  {
    hide FormSmiteTeams, SideStrength, TeamStrength, Honest, SeatsOf, CaptainIds;
    var r := FormSmiteTeams(players, mode).value;
    FormationSeatsEveryone(players, mode);
    FormationFailsWhen(players, mode);
    ReportIs(players, mode);
    UsersApart(players);
    var a, b := AssignedIds(r.blue.assignments), AssignedIds(r.red.assignments);
    assert multiset(a + b) == multiset(UserIds(players));
    SameMultisetDistinct(UserIds(players), a + b);
    HalvesApart(a, b);
    forall i | 0 <= i < |r.blue.assignments| ensures Honest(players, r.blue.assignments[i]) { assert r.blue.assignments[i] in r.blue.assignments; }
    forall i | 0 <= i < |r.red.assignments| ensures Honest(players, r.red.assignments[i]) { assert r.red.assignments[i] in r.red.assignments; }
    TeamStrengthIs(players, r.blue.assignments);
    TeamStrengthIs(players, r.red.assignments);
  }

  lemma {:induction false} ReportIs(players: seq<Player>, mode: Mode)
    requires FormSmiteTeams(players, mode).Ok?
    ensures var r := FormSmiteTeams(players, mode).value;
            && r.strengthDifference == Abs(TeamStrength(r.blue.assignments) - TeamStrength(r.red.assignments))
            && r.mode == mode && (mode != Captains ==> r.draftOrder == [])
  {
    hide OptimizedSplit, CaptainDraft;
    var roster := SortBy(players, IdKey);
    SortedDistinctAscends(roster);
    if mode == Captains { CaptainReport(roster); } else { SplitReport(roster, mode); }
  }

  lemma {:induction false} SplitReport(roster: seq<Player>, mode: Mode)
    requires ValidRoster(roster)
    ensures var r := OptimizedSplit(roster, mode);
            && r.strengthDifference == Abs(TeamStrength(r.blue.assignments) - TeamStrength(r.red.assignments)) && r.mode == mode && r.draftOrder == []
  {
    hide BestSplit, TeamStrength, FitTotals;
  }

  lemma {:induction false} CaptainReport(roster: seq<Player>)
    requires ValidRoster(roster) && CaptainDraft(roster).Ok?
    ensures var r := CaptainDraft(roster).value;
            r.strengthDifference == Abs(TeamStrength(r.blue.assignments) - TeamStrength(r.red.assignments)) && r.mode == Captains
  {
    hide OpeningDraft, DraftFrom, BestTeam, TeamStrength, FitTotals;
    DraftIsFair(roster);
  }

  lemma {:induction false} UsersApart(players: seq<Player>)
    requires !Repeats(players)
    ensures Distinct(UserIds(players))
  {
    forall i, j | 0 <= i < j < |players| ensures UserIds(players)[i] != UserIds(players)[j] {
      if players[i].userId == players[j].userId { RepeatedId(players, i, j); }
    }
  }

  lemma {:induction false} HalvesApart(a: seq<int>, b: seq<int>)
    requires Distinct(a + b)
    ensures Distinct(a) && Distinct(b)
  {
    forall i, j | 0 <= i < j < |a| ensures a[i] != a[j] { assert (a + b)[i] != (a + b)[j]; }
    forall i, j | 0 <= i < j < |b| ensures b[i] != b[j] { assert (a + b)[|a| + i] != (a + b)[|a| + j]; }
  }

  // ---- Who leads -----------------------------------------------------------------------------

  /** The side's volunteer with the least ID, or without one its player with the least ID. */
  ghost predicate LedBy(players: seq<Player>, side: seq<Seat>, captainId: int) {
    && captainId in Ids(side)
    && if HasVolunteer(players, side)
       then (exists v :: v in players && v.captain && v.userId == captainId)
            && forall v :: v in players && v.captain && v.userId in Ids(side) ==> captainId <= v.userId
       else forall id :: id in Ids(side) ==> captainId <= id
  }

  lemma {:induction false} OnTheSide(roster: seq<Player>, members: seq<Player>, side: seq<Seat>)
    requires Ascending(roster) && (forall p :: p in members ==> p in roster) && Ids(side) == UserIds(members)
    ensures forall v :: v in roster ==> (v in members <==> v.userId in Ids(side))
  {
    forall v | v in roster ensures v in members <==> v.userId in Ids(side) {
      if v in members { var i :| 0 <= i < |members| && members[i] == v; assert Ids(side)[i] == v.userId; }
      if v.userId in Ids(side) {
        var i :| 0 <= i < |members| && UserIds(members)[i] == v.userId;
        assert members[i] in members;
        SameIdSamePlayer(roster, v, members[i]);
      }
    }
  }

  lemma {:induction false} FirstLeads(roster: seq<Player>, members: seq<Player>, side: seq<Seat>)
    requires Ascending(roster) && Ascending(members) && members != [] && (forall p :: p in members ==> p in roster) && Ids(side) == UserIds(members)
    ensures LedBy(roster, side, FirstVolunteer(members, members[0].userId))
  {
    OnTheSide(roster, members, side);
    var first := members[0].userId;
    assert Ids(side)[0] == first;
    if HasVolunteer(roster, side) {
      var v :| v in roster && v.captain && v.userId in Ids(side);
      assert v in members;
      FirstVolunteerIsLeast(members, first);
    } else {
      NobodyVolunteers(members, first);
      forall id | id in Ids(side) ensures first <= id {
        var i :| 0 <= i < |members| && UserIds(members)[i] == id;
      }
    }
  }

  lemma {:induction false} NobodyVolunteers(members: seq<Player>, default: int)
    requires forall p :: p in members ==> !p.captain
    ensures FirstVolunteer(members, default) == default
  {
    if members != [] {
      assert members[0] in members;
      NobodyVolunteers(members[1..], default);
    }
  }

  lemma {:induction false} BestTeamIsLed(roster: seq<Player>, ids: set<int>)
    requires Ascending(roster) && 1 <= |Members(roster, ids)| <= 5
    ensures var t := BestTeam(Members(roster, ids), None); LedBy(roster, SeatsOf(t.assignments), t.captainId)
  {
    hide BestTeam, Members, LedBy, Ids, SeatsOf;
    var members := Members(roster, ids);
    MembersSorted(roster, ids);
    TeamOfSorted(members);
    FirstLeads(roster, members, SeatsOf(BestTeam(members, None).assignments));
  }

  lemma {:induction false} TeamOfSorted(members: seq<Player>)
    requires Ascending(members) && 1 <= |members| <= 5
    ensures var t := BestTeam(members, None);
            Ids(SeatsOf(t.assignments)) == UserIds(members) && t.captainId == FirstVolunteer(members, members[0].userId)
  {
    hide BestRoles, FirstVolunteer;
    TeamFormation.SortedById(members);
  }

  lemma {:induction false} LedSame(a: seq<Player>, b: seq<Player>, side: seq<Seat>, captainId: int)
    requires (forall p :: p in a <==> p in b) && LedBy(a, side, captainId)
    ensures LedBy(b, side, captainId)
  {
    hide Ids;
  }

  /** Each side of an optimised match is led by its volunteer of least ID, or by
      its player of least ID when nobody volunteers; the least ID of all is blue. */
  lemma {:induction false} SidesAreLed(players: seq<Player>, mode: Mode)
    requires mode != Captains && FormSmiteTeams(players, mode).Ok?
    ensures var r := FormSmiteTeams(players, mode).value;
            && LedBy(players, SeatsOf(r.blue.assignments), r.blue.captainId) && LedBy(players, SeatsOf(r.red.assignments), r.red.captainId)
            && exists id :: id in Ids(SeatsOf(r.blue.assignments)) && forall p :: p in players ==> id <= p.userId
  {
    var roster := SortBy(players, IdKey);
    SortedDistinctAscends(roster);
    forall p ensures p in roster <==> p in players { assert p in multiset(roster) <==> p in multiset(players); }
    hide LedBy, BestSplit, BestTeam, Halves, Ids;
    var best := BestSplit(roster);
    var half := BestHalf(roster);
    BestTeamIsLed(roster, PlayerIds(half));
    BestTeamIsLed(roster, PlayerIds(roster) - PlayerIds(half));
    LedSame(roster, players, SeatsOf(best.0.assignments), best.0.captainId);
    LedSame(roster, players, SeatsOf(best.1.assignments), best.1.captainId);
    LeastIsBlue(roster, half, best.0);
  }

  lemma {:induction false} BestHalf(roster: seq<Player>) returns (half: seq<Player>)
    requires ValidRoster(roster)
    ensures half in Halves(roster) && 1 <= |half| <= 5 && roster[0].userId in PlayerIds(half)
    ensures var rest := Members(roster, PlayerIds(roster) - PlayerIds(half));
            && half == Members(roster, PlayerIds(half)) && |rest| == |half|
            && BestSplit(roster) == (BestTeam(half, None), BestTeam(rest, None))
  {
    hide BestTeam, Halves;
    CandidatesExist(roster);
    half := CandidateOrigin(roster, Halves(roster), BestSplit(roster));
    HalvesSplit(roster, half);
  }

  lemma {:induction false} LeastIsBlue(roster: seq<Player>, half: seq<Player>, t: FormedTeam)
    requires ValidRoster(roster) && half in Halves(roster) && 1 <= |half| <= 5 && roster[0].userId in PlayerIds(half) && t == BestTeam(half, None)
    ensures roster[0].userId in Ids(SeatsOf(t.assignments)) && forall p :: p in roster ==> roster[0].userId <= p.userId
  {
    hide BestRoles;
    var sorted := SortBy(half, IdKey);
    var i := IdSource(half, roster[0].userId);
    assert half[i] in multiset(sorted);
    var j :| 0 <= j < |sorted| && sorted[j] == half[i];
    assert Ids(SeatsOf(t.assignments))[j] == roster[0].userId;
    forall p | p in roster ensures roster[0].userId <= p.userId {
      var k :| 0 <= k < |roster| && roster[k] == p;
    }
  }
}
