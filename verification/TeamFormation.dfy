/** utils/team_formation.py: role assignment, the optimised split and the snake draft. */
module TeamFormation {
  import opened Common

  datatype Role = Solo | Jungle | Mid | Support | Adc

  const SMITE_ROLES: seq<Role> := [Solo, Jungle, Mid, Support, Adc]

  /** Role names compare alphabetically: adc, jungle, mid, solo, support. */
  function RoleRank(role: Role): int {
    match role
    case Adc => 0
    case Jungle => 1
    case Mid => 2
    case Solo => 3
    case Support => 4
  }

  datatype SkillBand = New | Beginner | Casual | Intermediate | Experienced | Competitive | Unlisted

  function BandStrength(band: SkillBand): int {
    match band
    case New => 1
    case Beginner => 1
    case Casual => 2
    case Intermediate => 3
    case Experienced => 4
    case Competitive => 5
    case Unlisted => 3
  }

  /** A secondary role equal to the primary one is dropped by the source; no
      function below can tell the difference. */
  datatype Player = Player(
    userId: int,
    primary: Option<Role>,
    secondary: Option<Role>,
    fill: bool,
    captain: bool,
    band: SkillBand,
    experience: nat,
    recentAdjustment: int)

  function Strength(p: Player): int {
    BandStrength(p.band) * 100 + Min(p.experience, 100) + p.recentAdjustment
  }

  datatype Preference = First | Second | Fill

  function PreferenceOf(p: Player, role: Role): Preference {
    if p.primary == Some(role) then First
    else if p.secondary == Some(role) then Second
    else Fill
  }

  datatype RoleAssignment = RoleAssignment(userId: int, role: Role, preference: Preference, strength: int)

  datatype FormedTeam = FormedTeam(captainId: int, assignments: seq<RoleAssignment>)

  datatype Mode = RoleFit | Balanced | Captains

  datatype FormationResult = FormationResult(
    mode: Mode,
    blue: FormedTeam,
    red: FormedTeam,
    firstChoices: int,
    secondChoices: int,
    fills: int,
    strengthDifference: int,
    draftOrder: seq<int>)

  datatype FormationError = OddRoster | RosterSize | DuplicateIds | TooFewCaptains

  // ---- Scores of one team ------------------------------------------------

  /** Python's `zip`: one assignment per player that has a role left. */
  function Assign(players: seq<Player>, roles: seq<Role>): (r: seq<RoleAssignment>)
    ensures |r| == Min(|players|, |roles|)
  {
    seq(Min(|players|, |roles|), i requires 0 <= i < Min(|players|, |roles|) =>
      RoleAssignment(players[i].userId, roles[i], PreferenceOf(players[i], roles[i]), Strength(players[i])))
  }

  function CountPreference(a: seq<RoleAssignment>, p: Preference): (n: nat)
    ensures n <= |a|
  {
    if a == [] then 0 else (if a[0].preference == p then 1 else 0) + CountPreference(a[1..], p)
  }

  function CountTanks(a: seq<RoleAssignment>): nat {
    if a == [] then 0 else (if a[0].role in {Solo, Support} then 1 else 0) + CountTanks(a[1..])
  }

  function TeamStrength(a: seq<RoleAssignment>): int {
    if a == [] then 0 else a[0].strength + TeamStrength(a[1..])
  }

  function ArchetypePenalty(a: seq<RoleAssignment>): int {
    if |a| <= 1 then 0
    else Abs(CountTanks(a) - (if |a| <= 3 then 1 else 2))
  }

  /** (-first, -second, fills). */
  function FitTotals(a: seq<RoleAssignment>): (r: seq<int>)
    ensures |r| == 3
  {
    var first: int, second: int := CountPreference(a, First), CountPreference(a, Second);
    [-first, -second, |a| - first - second]
  }

  function TeamKey(a: seq<RoleAssignment>): (r: seq<int>)
    ensures |r| == 4
  {
    [ArchetypePenalty(a)] + FitTotals(a)
  }

  function RoleRanks(roles: seq<Role>): (r: seq<int>)
    ensures |r| == |roles|
  {
    seq(|roles|, i requires 0 <= i < |roles| => RoleRank(roles[i]))
  }

  /** The candidate tuple of one permutation. The source compares (user, role)
      pairs last; the users are the same at each place, so the roles decide. */
  function AssignmentKey(players: seq<Player>, roles: seq<Role>): seq<int> {
    TeamKey(Assign(players, roles)) + RoleRanks(roles)
  }

  // ---- Permutations and combinations (itertools) -------------------------

  function PrependAll<T>(x: T, ss: seq<seq<T>>): (r: seq<seq<T>>)
    ensures |r| == |ss| && forall i :: 0 <= i < |ss| ==> r[i] == [x] + ss[i]
  {
    if ss == [] then [] else [[x] + ss[0]] + PrependAll(x, ss[1..])
  }

  function Permutations<T>(s: seq<T>, k: nat): seq<seq<T>>
    decreases |s|, |s| + 1
  {
    if k == 0 then [[]] else PermutationsFrom(s, k, 0)
  }

  /** The permutations that begin with the element at position i or later. */
  function PermutationsFrom<T>(s: seq<T>, k: nat, i: nat): seq<seq<T>>
    requires k > 0 && i <= |s|
    decreases |s|, |s| - i
  {
    if i == |s| then []
    else PrependAll(s[i], Permutations(s[..i] + s[i + 1..], k - 1)) + PermutationsFrom(s, k, i + 1)
  }

  function Combinations<T>(s: seq<T>, k: nat): seq<seq<T>> {
    if k == 0 then [[]]
    else if |s| < k then []
    else PrependAll(s[0], Combinations(s[1..], k - 1)) + Combinations(s[1..], k)
  }

  // ---- The best roles of one team ----------------------------------------

  function IdKey(p: Player): seq<int> { [p.userId] }

  function PlayerIds(players: seq<Player>): (ids: set<int>)
    ensures forall p :: p in players ==> p.userId in ids
  {
    if players == [] then {} else {players[0].userId} + PlayerIds(players[1..])
  }

  lemma {:induction false} IdSource(players: seq<Player>, id: int) returns (i: nat)
    requires id in PlayerIds(players)
    ensures i < |players| && players[i].userId == id
  {
    if players[0].userId == id { i := 0; } else { i := IdSource(players[1..], id); i := i + 1; }
  }

  function AssignedIds(a: seq<RoleAssignment>): seq<int> {
    seq(|a|, i requires 0 <= i < |a| => a[i].userId)
  }

  /** Whether this many seats get this many different roles. */
  ghost predicate IsRoleChoice(roles: seq<Role>, size: nat) {
    |roles| == size && Distinct(roles)
  }

  function AssignmentOrder(players: seq<Player>): seq<Role> -> seq<int> {
    roles => AssignmentKey(players, roles)
  }

  function RoleChoices(size: nat): (all: seq<seq<Role>>)
    requires size <= 5
    ensures all != [] && forall roles :: roles in all ==> IsRoleChoice(roles, size)
  {
    ChoicesAreSound(size);
    Permutations(SMITE_ROLES, size)
  }

  lemma ChoicesAreSound(size: nat)
    requires size <= 5
    ensures var all := Permutations(SMITE_ROLES, size); all != [] && forall roles :: roles in all ==> IsRoleChoice(roles, size)
  {
    hide Permutations;
    PermutationsExist(SMITE_ROLES, size);
    forall roles | roles in Permutations(SMITE_ROLES, size) ensures IsRoleChoice(roles, size) {
      PermutationsSound(SMITE_ROLES, size, roles);
    }
  }

  function BestRoles(players: seq<Player>): (best: seq<Role>)
    requires 1 <= |players| <= 5
    ensures IsRoleChoice(best, |players|)
  {
    var all := RoleChoices(|players|);
    var best := all[MinIndex(all, AssignmentOrder(players))];
    assert best in all;
    best
  }

  /** No choice of different roles has a smaller key. */
  lemma BestRolesLeast(players: seq<Player>, roles: seq<Role>)
    requires 1 <= |players| <= 5 && IsRoleChoice(roles, |players|)
    ensures LexLeq(AssignmentKey(players, BestRoles(players)), AssignmentKey(players, roles))
  {
    forall x | x in roles ensures x in SMITE_ROLES { EveryRole(x); }
    PermutationsComplete(SMITE_ROLES, |players|, roles);
    var all := Permutations(SMITE_ROLES, |players|);
    MinIndexLeast(all, AssignmentOrder(players));
    var j :| 0 <= j < |all| && all[j] == roles;
  }

  /** The captain a team names when none is given: the first volunteer, else the first player. */
  function DefaultCaptain(players: seq<Player>): int
    requires players != []
  {
    FirstVolunteer(players, players[0].userId)
  }

  function FirstVolunteer(players: seq<Player>, default: int): int {
    if players == [] then default
    else if players[0].captain then players[0].userId
    else FirstVolunteer(players[1..], default)
  }

  /** `captain_id or ...`: an ID of zero counts as absent. */
  function BestTeam(members: seq<Player>, captainId: Option<int>): FormedTeam
    requires 1 <= |members| <= 5
  {
    var players := SortBy(members, IdKey);
    var captain := if captainId.Some? && captainId.value != 0 then captainId.value else DefaultCaptain(players);
    FormedTeam(captain, Assign(players, BestRoles(players)))
  }

  // ---- The optimised split -----------------------------------------------

  function Members(roster: seq<Player>, ids: set<int>): (r: seq<Player>)
    ensures forall p :: p in r <==> p in roster && p.userId in ids
  {
    if roster == [] then []
    else if roster[0].userId in ids then [roster[0]] + Members(roster[1..], ids)
    else Members(roster[1..], ids)
  }

  function CaptainIds(roster: seq<Player>): set<int> {
    set p | p in roster && p.captain :: p.userId
  }

  function CaptainPenalty(roster: seq<Player>, blueIds: set<int>, redIds: set<int>): int {
    var captains := CaptainIds(roster);
    if |captains| >= 2 && (captains * blueIds == {} || captains * redIds == {}) then 1 else 0
  }

  /** Archetype penalty, fit, captain penalty and strength gap of a whole match. */
  function MatchKey(roster: seq<Player>, blue: seq<RoleAssignment>, red: seq<RoleAssignment>): (r: seq<int>)
    ensures |r| == 6
  {
    Plus(TeamKey(blue), TeamKey(red))
    + [CaptainPenalty(roster, set id | id in AssignedIds(blue), set id | id in AssignedIds(red)),
       Abs(TeamStrength(blue) - TeamStrength(red))]
  }

  /** The source nests the tuple; every part has the same length in every
      candidate, so comparing the flat sequence is the same comparison. */
  function CandidateKey(roster: seq<Player>, c: (FormedTeam, FormedTeam)): seq<int> {
    MatchKey(roster, c.0.assignments, c.1.assignments)
    + AssignedIds(c.0.assignments) + AssignedIds(c.1.assignments)
  }

  ghost predicate Ascending(roster: seq<Player>) {
    forall i, j :: 0 <= i < j < |roster| ==> roster[i].userId < roster[j].userId
  }

  ghost predicate ValidRoster(roster: seq<Player>) {
    2 <= |roster| <= 10 && |roster| % 2 == 0 && Ascending(roster)
  }

  function Halves(roster: seq<Player>): seq<seq<Player>> {
    Combinations(roster, |roster| / 2)
  }

  /** One half of the roster against the rest, both with their best roles. */
  function SplitOf(roster: seq<Player>, half: seq<Player>): (FormedTeam, FormedTeam)
    requires ValidRoster(roster) && half in Halves(roster)
  {
    HalvesSplit(roster, half);
    (BestTeam(half, None), BestTeam(Members(roster, PlayerIds(roster) - PlayerIds(half)), None))
  }

  /** The splits tried: only those whose blue half holds the smallest ID. */
  function CandidatesFrom(roster: seq<Player>, halves: seq<seq<Player>>): (r: seq<(FormedTeam, FormedTeam)>)
    requires ValidRoster(roster)
    requires forall h :: h in halves ==> h in Halves(roster)
  {
    if halves == [] then []
    else
      var n := |halves| - 1;
      var before := CandidatesFrom(roster, halves[..n]);
      if roster[0].userId in PlayerIds(halves[n]) then before + [SplitOf(roster, halves[n])] else before
  }

  function ResultOf(mode: Mode, blue: FormedTeam, red: FormedTeam, draftOrder: seq<int>): FormationResult {
    var fit := Plus(FitTotals(blue.assignments), FitTotals(red.assignments));
    // The second count is forwarded with the sign it has in the key.
    FormationResult(mode, blue, red, -fit[0], fit[1], fit[2],
      Abs(TeamStrength(blue.assignments) - TeamStrength(red.assignments)), draftOrder)
  }

  function CandidateOrder(roster: seq<Player>): ((FormedTeam, FormedTeam)) -> seq<int> {
    c => CandidateKey(roster, c)
  }

  function BestSplit(roster: seq<Player>): (best: (FormedTeam, FormedTeam))
    requires ValidRoster(roster)
  {
    var all := CandidatesFrom(roster, Halves(roster));
    CandidatesExist(roster);
    all[MinIndex(all, CandidateOrder(roster))]
  }

  function OptimizedSplit(roster: seq<Player>, mode: Mode): FormationResult
    requires ValidRoster(roster)
  {
    var c := BestSplit(roster);
    ResultOf(mode, c.0, c.1, [])
  }

  // ---- The snake draft -----------------------------------------------------

  function Volunteers(roster: seq<Player>): (r: seq<Player>)
    ensures forall p :: p in r <==> p in roster && p.captain
  {
    if roster == [] then []
    else if roster[0].captain then [roster[0]] + Volunteers(roster[1..])
    else Volunteers(roster[1..])
  }

  /** Strongest first, then the smaller ID. */
  function CaptainKey(p: Player): seq<int> { [-Strength(p), p.userId] }

  function Without(players: seq<Player>, gone: seq<Player>): seq<Player> {
    if players == [] then []
    else if players[0] in gone then Without(players[1..], gone)
    else [players[0]] + Without(players[1..], gone)
  }

  function PreferredRoles(players: seq<Player>): set<Role> {
    if players == [] then {}
    else
      (if players[0].primary.Some? then {players[0].primary.value} else {})
      + (if players[0].secondary.Some? then {players[0].secondary.value} else {})
      + PreferredRoles(players[1..])
  }

  function SumStrength(players: seq<Player>): int {
    if players == [] then 0 else Strength(players[0]) + SumStrength(players[1..])
  }

  function PickKey(side: seq<Player>, other: seq<Player>, candidate: Player): seq<int> {
    var projected := side + [candidate];
    [-|PreferredRoles(projected)|, Abs(SumStrength(projected) - SumStrength(other)), candidate.userId]
  }

  /** B, R, R, B repeating. */
  predicate BluePicks(turn: nat) { turn % 4 == 0 || turn % 4 == 3 }

  function PickOrder(side: seq<Player>, other: seq<Player>): Player -> seq<int> {
    p => PickKey(side, other, p)
  }

  function NextPick(side: seq<Player>, other: seq<Player>, remaining: seq<Player>): (i: nat)
    requires remaining != []
    ensures i < |remaining|
  {
    MinIndex(remaining, PickOrder(side, other))
  }

  datatype Draft = Draft(blue: seq<Player>, red: seq<Player>, remaining: seq<Player>, order: seq<int>)

  function DraftTurn(turn: nat, d: Draft): (e: Draft)
    requires d.remaining != []
    ensures |e.remaining| == |d.remaining| - 1 && |e.order| == |d.order| + 1
  {
    var side, other := if BluePicks(turn) then d.blue else d.red, if BluePicks(turn) then d.red else d.blue;
    var i := NextPick(side, other, d.remaining);
    var choice := d.remaining[i];
    var rest := d.remaining[..i] + d.remaining[i + 1..];
    if BluePicks(turn)
    then Draft(d.blue + [choice], d.red, rest, d.order + [choice.userId])
    else Draft(d.blue, d.red + [choice], rest, d.order + [choice.userId])
  }

  /** Eight turns at most, stopping when nobody is left. */
  function DraftFrom(turn: nat, d: Draft): Draft
    decreases |d.remaining|
  {
    if d.remaining == [] || turn >= 8 then d else DraftFrom(turn + 1, DraftTurn(turn, d))
  }

  function OpeningDraft(roster: seq<Player>): Draft
    requires |Volunteers(roster)| >= 2
  {
    var captains := SortBy(Volunteers(roster), CaptainKey)[..2];
    Draft([captains[0]], [captains[1]], Without(roster, captains), [])
  }

  function CaptainDraft(roster: seq<Player>): Result<FormationResult, FormationError>
    requires ValidRoster(roster)
  {
    if |Volunteers(roster)| < 2 then Err(TooFewCaptains)
    else
      var start := OpeningDraft(roster);
      var end := DraftFrom(0, start);
      DraftIsFair(roster);
      Ok(ResultOf(Captains,
                  BestTeam(end.blue, Some(start.blue[0].userId)),
                  BestTeam(end.red, Some(start.red[0].userId)),
                  end.order))
  }

  function FormRoster(roster: seq<Player>, mode: Mode): Result<FormationResult, FormationError>
    requires Sorted(roster, IdKey)
  {
    if |roster| % 2 != 0 then Err(OddRoster)
    else if |roster| < 2 || |roster| > 10 then Err(RosterSize)
    else if |PlayerIds(roster)| != |roster| then Err(DuplicateIds)
    else
      SortedDistinctAscends(roster);
      if mode == Captains then CaptainDraft(roster) else Ok(OptimizedSplit(roster, mode))
  }

  function FormSmiteTeams(players: seq<Player>, mode: Mode): Result<FormationResult, FormationError> {
    FormRoster(SortBy(players, IdKey), mode)
  }

  // ---- Facts the functions above rest on ---------------------------------

  lemma {:induction false} PermutationsSound<T>(s: seq<T>, k: nat, r: seq<T>)
    requires Distinct(s) && r in Permutations(s, k)
    ensures |r| == k && Distinct(r) && forall x :: x in r ==> x in s
    decreases |s|, |s| + 1
  {
    if k > 0 { PermutationsFromSound(s, k, 0, r); }
  }

  lemma {:induction false} PermutationsFromSound<T>(s: seq<T>, k: nat, i: nat, r: seq<T>)
    requires Distinct(s) && k > 0 && i <= |s| && r in PermutationsFrom(s, k, i)
    ensures |r| == k && Distinct(r) && forall x :: x in r ==> x in s
    decreases |s|, |s| - i
  {
    var rest := s[..i] + s[i + 1..];
    var heads := Permutations(rest, k - 1);
    if r in PrependAll(s[i], heads) {
      var j :| 0 <= j < |heads| && PrependAll(s[i], heads)[j] == r;
      assert r == [s[i]] + heads[j];
      PermutationsSound(rest, k - 1, heads[j]);
      assert s[i] !in rest;
    } else {
      PermutationsFromSound(s, k, i + 1, r);
    }
  }

  lemma {:induction false} PermutationsComplete<T>(s: seq<T>, k: nat, r: seq<T>)
    requires |r| == k && Distinct(r) && forall x :: x in r ==> x in s
    ensures r in Permutations(s, k)
    decreases k
  {
    if k > 0 {
      assert r[0] in r;
      var i :| 0 <= i < |s| && s[i] == r[0];
      var rest := s[..i] + s[i + 1..];
      forall x | x in r[1..] ensures x in rest {
        assert x in r;
        var n :| 0 <= n < |s| && s[n] == x;
        assert n != i;
        if n < i { assert rest[n] == x; } else { assert rest[n - 1] == x; }
      }
      PermutationsComplete(rest, k - 1, r[1..]);
      var heads := Permutations(rest, k - 1);
      var j :| 0 <= j < |heads| && heads[j] == r[1..];
      assert r == [s[i]] + heads[j];
      assert r == PrependAll(s[i], heads)[j];
      PermutationsFromReach(s, k, 0, i, r);
    }
  }

  lemma {:induction false} PermutationsFromReach<T>(s: seq<T>, k: nat, from: nat, i: nat, r: seq<T>)
    requires k > 0 && from <= i < |s|
    requires r in PrependAll(s[i], Permutations(s[..i] + s[i + 1..], k - 1))
    ensures r in PermutationsFrom(s, k, from)
    decreases i - from
  {
    if from < i { PermutationsFromReach(s, k, from + 1, i, r); }
  }

  lemma PermutationsExist<T>(s: seq<T>, k: nat)
    requires k <= |s|
    ensures Permutations(s, k) != []
    decreases k
  {
    if k > 0 { PermutationsExist(s[..0] + s[1..], k - 1); }
  }

  lemma HeadApart(roster: seq<Player>)
    requires Ascending(roster) && roster != []
    ensures Ascending(roster[1..]) && roster[0].userId !in PlayerIds(roster[1..])
    ensures PlayerIds(roster) == {roster[0].userId} + PlayerIds(roster[1..])
  {
    if roster[0].userId in PlayerIds(roster[1..]) {
      var i := IdSource(roster[1..], roster[0].userId);
      assert false;
    }
  }

  lemma {:induction false} CombinationsSound(roster: seq<Player>, k: nat, c: seq<Player>)
    requires Ascending(roster) && c in Combinations(roster, k)
    ensures |c| == k && c == Members(roster, PlayerIds(c)) && PlayerIds(c) <= PlayerIds(roster)
  {
    hide Members, PlayerIds, Ascending;
    if k == 0 {
      NobodyIsNone(roster, c);
    } else {
      var head, tail := roster[0], roster[1..];
      HeadApart(roster);
      var heads := Combinations(tail, k - 1);
      if c in PrependAll(head, heads) {
        var j :| 0 <= j < |heads| && PrependAll(head, heads)[j] == c;
        CombinationsSound(tail, k - 1, heads[j]);
        assert c == [head] + heads[j] && c[1..] == heads[j];
        HeadedMembers(roster, c);
      } else {
        CombinationsSound(tail, k, c);
        HeadlessMembers(roster, c);
      }
    }
  }

  lemma NobodyIsNone(roster: seq<Player>, c: seq<Player>)
    requires c == []
    ensures c == Members(roster, PlayerIds(c)) && PlayerIds(c) <= PlayerIds(roster)
  {
    MembersNone(roster, PlayerIds(c));
  }

  lemma HeadlessMembers(roster: seq<Player>, c: seq<Player>)
    requires Ascending(roster) && roster != []
    requires c == Members(roster[1..], PlayerIds(c)) && PlayerIds(c) <= PlayerIds(roster[1..])
    ensures c == Members(roster, PlayerIds(c)) && PlayerIds(c) <= PlayerIds(roster)
  {
    HeadApart(roster);
  }

  lemma HeadedMembers(roster: seq<Player>, c: seq<Player>)
    requires Ascending(roster) && roster != [] && c != [] && c[0] == roster[0]
    requires c[1..] == Members(roster[1..], PlayerIds(c[1..])) && PlayerIds(c[1..]) <= PlayerIds(roster[1..])
    ensures c == Members(roster, PlayerIds(c)) && PlayerIds(c) <= PlayerIds(roster)
  {
    HeadApart(roster);
    MembersAgree(roster[1..], PlayerIds(c), PlayerIds(c[1..]));
  }

  lemma {:induction false} MembersNone(roster: seq<Player>, ids: set<int>)
    requires ids !! PlayerIds(roster)
    ensures Members(roster, ids) == []
  {
    if roster != [] {
      assert roster[0] in roster;
      assert PlayerIds(roster[1..]) <= PlayerIds(roster);
      MembersNone(roster[1..], ids);
    }
  }

  lemma {:induction false} MembersAgree(roster: seq<Player>, a: set<int>, b: set<int>)
    requires forall p :: p in roster ==> (p.userId in a <==> p.userId in b)
    ensures Members(roster, a) == Members(roster, b)
  {
    if roster != [] { MembersAgree(roster[1..], a, b); }
  }

  lemma {:induction false} MembersAreCombination(roster: seq<Player>, ids: set<int>)
    ensures Members(roster, ids) in Combinations(roster, |Members(roster, ids)|)
  {
    if roster != [] {
      var below := Members(roster[1..], ids);
      MembersAreCombination(roster[1..], ids);
      if roster[0].userId in ids {
        CombinationsTakeHead(roster, |below|, below);
      } else {
        assert Combinations(roster, 0)[0] == [];
        CombinationsSize(roster[1..], |below|);
      }
    }
  }

  lemma {:induction false} MembersSize(roster: seq<Player>, ids: set<int>)
    requires Ascending(roster) && ids <= PlayerIds(roster)
    ensures |Members(roster, ids)| == |ids| && PlayerIds(Members(roster, ids)) == ids
  {
    if roster == [] {
      assert ids == {};
    } else {
      var head, tail, below := roster[0], roster[1..], ids - {roster[0].userId};
      HeadApart(roster);
      MembersSize(tail, below);
      MembersAgree(tail, ids, below);
      if head.userId in ids { assert ids == below + {head.userId}; } else { assert ids == below; }
    }
  }

  lemma CombinationsComplete(roster: seq<Player>, ids: set<int>)
    requires Ascending(roster) && ids <= PlayerIds(roster)
    ensures var c := Members(roster, ids);
            c in Combinations(roster, |ids|) && PlayerIds(c) == ids && |c| == |ids|
  {
    MembersAreCombination(roster, ids);
    MembersSize(roster, ids);
  }

  lemma CombinationsTakeHead<T>(s: seq<T>, k: nat, c: seq<T>)
    requires s != [] && c in Combinations(s[1..], k)
    ensures [s[0]] + c in Combinations(s, k + 1)
  {
    CombinationsSize(s[1..], k);
    var heads := Combinations(s[1..], k);
    var j :| 0 <= j < |heads| && heads[j] == c;
    assert PrependAll(s[0], heads)[j] == [s[0]] + c;
  }

  lemma CombinationsSize<T>(s: seq<T>, k: nat)
    requires Combinations(s, k) != []
    ensures k <= |s|
  {
  }

  lemma EveryRole(role: Role)
    ensures role in SMITE_ROLES
  {
    match role
    case Solo => assert SMITE_ROLES[0] == role;
    case Jungle => assert SMITE_ROLES[1] == role;
    case Mid => assert SMITE_ROLES[2] == role;
    case Support => assert SMITE_ROLES[3] == role;
    case Adc => assert SMITE_ROLES[4] == role;
  }

  lemma {:induction false} MembersAll(roster: seq<Player>, ids: set<int>)
    requires PlayerIds(roster) <= ids
    ensures Members(roster, ids) == roster
  {
    if roster != [] {
      assert roster[0] in roster;
      assert PlayerIds(roster[1..]) <= PlayerIds(roster);
      MembersAll(roster[1..], ids);
    }
  }

  lemma RosterIds(roster: seq<Player>)
    requires Ascending(roster)
    ensures |PlayerIds(roster)| == |roster|
  {
    CombinationsComplete(roster, PlayerIds(roster));
    MembersAll(roster, PlayerIds(roster));
  }

  /** A half and its complement are both halves of the roster. */
  lemma HalvesSplit(roster: seq<Player>, half: seq<Player>)
    requires ValidRoster(roster) && half in Halves(roster)
    ensures |half| == |roster| / 2 && 1 <= |half| <= 5
    ensures PlayerIds(half) <= PlayerIds(roster) && |PlayerIds(half)| == |half|
    ensures half == Members(roster, PlayerIds(half))
    ensures var rest := Members(roster, PlayerIds(roster) - PlayerIds(half));
            |rest| == |half| && rest in Halves(roster) && PlayerIds(rest) == PlayerIds(roster) - PlayerIds(half)
  {
    CombinationsSound(roster, |roster| / 2, half);
    CombinationsComplete(roster, PlayerIds(half));
    RosterIds(roster);
    CombinationsComplete(roster, PlayerIds(roster) - PlayerIds(half));
  }

  lemma {:induction false} CombinationsExist<T>(s: seq<T>, k: nat)
    requires k <= |s|
    ensures Combinations(s, k) != []
  {
    if k > 0 {
      CombinationsExist(s[1..], k - 1);
      assert |PrependAll(s[0], Combinations(s[1..], k - 1))| > 0;
    }
  }

  lemma {:induction false} CandidateListed(roster: seq<Player>, halves: seq<seq<Player>>, half: seq<Player>)
    requires ValidRoster(roster)
    requires forall h :: h in halves ==> h in Halves(roster)
    requires half in halves && roster[0].userId in PlayerIds(half)
    ensures SplitOf(roster, half) in CandidatesFrom(roster, halves)
  {
    var n := |halves| - 1;
    if halves[n] != half { CandidateListed(roster, halves[..n], half); }
  }

  lemma CandidatesExist(roster: seq<Player>)
    requires ValidRoster(roster)
    ensures CandidatesFrom(roster, Halves(roster)) != []
  {
    hide Combinations, SplitOf, ValidRoster;
    var half := HalfWithFirst(roster);
    CandidateListed(roster, Halves(roster), half);
    hide CandidatesFrom;
    assert CandidatesFrom(roster, Halves(roster)) != [];
  }

  lemma HalfWithFirst(roster: seq<Player>) returns (half: seq<Player>)
    requires ValidRoster(roster)
    ensures half in Halves(roster) && roster[0].userId in PlayerIds(half)
  {
    var k := |roster| / 2;
    var heads := Combinations(roster[1..], k - 1);
    CombinationsExist(roster[1..], k - 1);
    half := PrependAll(roster[0], heads)[0];
    assert half == [roster[0]] + heads[0];
    assert half in Halves(roster);
    assert half[0] in half;
  }

  lemma {:induction false} CandidateOrigin(roster: seq<Player>, halves: seq<seq<Player>>, c: (FormedTeam, FormedTeam)) returns (half: seq<Player>)
    requires ValidRoster(roster)
    requires forall h :: h in halves ==> h in Halves(roster)
    requires c in CandidatesFrom(roster, halves)
    ensures half in halves && roster[0].userId in PlayerIds(half) && c == SplitOf(roster, half)
  {
    var n := |halves| - 1;
    if c in CandidatesFrom(roster, halves[..n]) {
      half := CandidateOrigin(roster, halves[..n], c);
    } else {
      half := halves[n];
    }
  }

  // ---- Global optimality --------------------------------------------------

  /** Who plays, and how strong they are together, does not depend on the roles. */
  lemma {:induction false} RolesDoNotMatter(players: seq<Player>, roles: seq<Role>)
    requires |roles| == |players|
    ensures (set id | id in AssignedIds(Assign(players, roles))) == PlayerIds(players)
    ensures TeamStrength(Assign(players, roles)) == SumStrength(players)
  {
    var a := Assign(players, roles);
    forall id | id in PlayerIds(players) ensures id in AssignedIds(a) {
      var i := IdSource(players, id);
      assert AssignedIds(a)[i] == id;
    }
    forall id | id in AssignedIds(a) ensures id in PlayerIds(players) {
      var i :| 0 <= i < |a| && AssignedIds(a)[i] == id;
      assert players[i] in players;
    }
    if players != [] {
      RolesDoNotMatter(players[1..], roles[1..]);
      assert a[1..] == Assign(players[1..], roles[1..]);
    }
  }

  lemma SortedById(players: seq<Player>)
    requires Ascending(players)
    ensures StrictlySorted(players, IdKey) && SortBy(players, IdKey) == players
  {
    SortOfSorted(players, IdKey);
  }

  /** Within one team the roles of BestTeam have the least archetype penalty and fit. */
  lemma BestTeamIsBest(members: seq<Player>, roles: seq<Role>)
    requires Ascending(members) && 1 <= |members| <= 5
    requires IsRoleChoice(roles, |members|)
    ensures var team := BestTeam(members, None).assignments;
            team == Assign(members, BestRoles(members))
            && LexLeq(TeamKey(team), TeamKey(Assign(members, roles)))
  {
    SortedById(members);
    var best := BestRoles(members);
    BestRolesLeast(members, roles);
    LexPrefix(TeamKey(Assign(members, best)), TeamKey(Assign(members, roles)), RoleRanks(best), RoleRanks(roles));
  }

  lemma MembersSorted(roster: seq<Player>, ids: set<int>)
    requires Ascending(roster)
    ensures Ascending(Members(roster, ids))
  {
    if roster != [] {
      MembersSorted(roster[1..], ids);
      var rest := Members(roster[1..], ids);
      forall p | p in rest ensures roster[0].userId < p.userId {
        var i :| 0 <= i < |roster| - 1 && roster[i + 1] == p;
      }
    }
  }

  /** Same players on each side, no worse a key on either: no worse a match. */
  lemma BetterTeamsBetterMatch(roster: seq<Player>, b: seq<RoleAssignment>, r: seq<RoleAssignment>, b': seq<RoleAssignment>, r': seq<RoleAssignment>)
    requires (set id | id in AssignedIds(b)) == (set id | id in AssignedIds(b'))
    requires (set id | id in AssignedIds(r)) == (set id | id in AssignedIds(r'))
    requires TeamStrength(b) == TeamStrength(b') && TeamStrength(r) == TeamStrength(r')
    requires LexLeq(TeamKey(b), TeamKey(b')) && LexLeq(TeamKey(r), TeamKey(r'))
    ensures LexLeq(MatchKey(roster, b, r), MatchKey(roster, b', r'))
  {
    LexPlusMonotone(TeamKey(b), TeamKey(b'), TeamKey(r), TeamKey(r'));
    var shared := [CaptainPenalty(roster, set id | id in AssignedIds(b), set id | id in AssignedIds(r)),
                   Abs(TeamStrength(b) - TeamStrength(r))];
    LexExtend(Plus(TeamKey(b), TeamKey(r)), Plus(TeamKey(b'), TeamKey(r')), shared);
  }

  /** Optimising each team's roles separately optimises the match of one split. */
  lemma SeparateRolesSuffice(roster: seq<Player>, blue: seq<Player>, red: seq<Player>, blueRoles: seq<Role>, redRoles: seq<Role>)
    requires Ascending(blue) && 1 <= |blue| <= 5 && IsRoleChoice(blueRoles, |blue|)
    requires Ascending(red) && 1 <= |red| <= 5 && IsRoleChoice(redRoles, |red|)
    ensures LexLeq(MatchKey(roster, BestTeam(blue, None).assignments, BestTeam(red, None).assignments),
                   MatchKey(roster, Assign(blue, blueRoles), Assign(red, redRoles)))
  {
    BestTeamIsBest(blue, blueRoles);
    BestTeamIsBest(red, redRoles);
    RolesDoNotMatter(blue, BestRoles(blue));
    RolesDoNotMatter(blue, blueRoles);
    RolesDoNotMatter(red, BestRoles(red));
    RolesDoNotMatter(red, redRoles);
    BetterTeamsBetterMatch(roster, BestTeam(blue, None).assignments, BestTeam(red, None).assignments,
                           Assign(blue, blueRoles), Assign(red, redRoles));
  }

  /** The key does not change when the two sides are exchanged. */
  lemma MirrorSymmetry(roster: seq<Player>, a: seq<RoleAssignment>, b: seq<RoleAssignment>)
    ensures MatchKey(roster, a, b) == MatchKey(roster, b, a)
  {
    assert Plus(TeamKey(a), TeamKey(b)) == Plus(TeamKey(b), TeamKey(a));
  }

  /** No equal split of the roster, with any different roles on either team, has
      a smaller key than the match the source returns, although the source
      optimises each team alone and tries only the splits with the smallest ID in blue. */
  lemma OptimizedSplitIsGloballyOptimal(roster: seq<Player>, mode: Mode, blueIds: set<int>, blueRoles: seq<Role>, redRoles: seq<Role>)
    requires ValidRoster(roster)
    requires blueIds <= PlayerIds(roster) && 2 * |blueIds| == |roster|
    requires IsRoleChoice(blueRoles, |blueIds|) && IsRoleChoice(redRoles, |blueIds|)
    ensures var r := OptimizedSplit(roster, mode);
            LexLeq(MatchKey(roster, r.blue.assignments, r.red.assignments),
                   MatchKey(roster,
                            Assign(Members(roster, blueIds), blueRoles),
                            Assign(Members(roster, PlayerIds(roster) - blueIds), redRoles)))
  {
    RosterIds(roster);
    var redIds := PlayerIds(roster) - blueIds;
    assert |redIds| == |blueIds|;
    CombinationsComplete(roster, blueIds);
    CombinationsComplete(roster, redIds);
    MembersSorted(roster, blueIds);
    MembersSorted(roster, redIds);
    assert roster[0] in roster;
    assert PlayerIds(roster) - redIds == blueIds;
    if roster[0].userId in blueIds {
      BeatsSplit(roster, mode, blueIds, blueRoles, redRoles);
    } else {
      BeatsSplit(roster, mode, redIds, redRoles, blueRoles);
      MirrorSymmetry(roster, Assign(Members(roster, blueIds), blueRoles), Assign(Members(roster, redIds), redRoles));
    }
  }

  lemma {:induction false} BeatsSplit(roster: seq<Player>, mode: Mode, ids: set<int>, firstRoles: seq<Role>, secondRoles: seq<Role>)
    requires ValidRoster(roster) && roster[0].userId in ids && ids <= PlayerIds(roster)
    requires 2 * |ids| == |roster| && IsRoleChoice(firstRoles, |ids|) && IsRoleChoice(secondRoles, |ids|)
    ensures var r := OptimizedSplit(roster, mode);
            LexLeq(MatchKey(roster, r.blue.assignments, r.red.assignments),
                   MatchKey(roster, Assign(Members(roster, ids), firstRoles),
                            Assign(Members(roster, PlayerIds(roster) - ids), secondRoles)))
  {
    CombinationsComplete(roster, ids);
    MembersSorted(roster, ids);
    MembersSorted(roster, PlayerIds(roster) - ids);
    var first, second := Members(roster, ids), Members(roster, PlayerIds(roster) - ids);
    HalvesSplit(roster, first);
    var best, mine := BestSplit(roster), SplitOf(roster, first);
    BestSplitLeast(roster, first);
    SmallerKeySmallerMatch(roster, best, mine);
    SeparateRolesSuffice(roster, first, second, firstRoles, secondRoles);
    LexTransitive(MatchKey(roster, best.0.assignments, best.1.assignments),
                  MatchKey(roster, mine.0.assignments, mine.1.assignments),
                  MatchKey(roster, Assign(first, firstRoles), Assign(second, secondRoles)));
  }

  lemma BestSplitLeast(roster: seq<Player>, half: seq<Player>)
    requires ValidRoster(roster) && half in Halves(roster) && roster[0].userId in PlayerIds(half)
    ensures LexLeq(CandidateKey(roster, BestSplit(roster)), CandidateKey(roster, SplitOf(roster, half)))
  {
    var all := CandidatesFrom(roster, Halves(roster));
    CandidateListed(roster, Halves(roster), half);
    MinIndexLeast(all, CandidateOrder(roster));
    var j :| 0 <= j < |all| && all[j] == SplitOf(roster, half);
  }

  lemma SmallerKeySmallerMatch(roster: seq<Player>, c: (FormedTeam, FormedTeam), d: (FormedTeam, FormedTeam))
    requires LexLeq(CandidateKey(roster, c), CandidateKey(roster, d))
    ensures LexLeq(MatchKey(roster, c.0.assignments, c.1.assignments), MatchKey(roster, d.0.assignments, d.1.assignments))
  {
    var mine, theirs := MatchKey(roster, c.0.assignments, c.1.assignments), MatchKey(roster, d.0.assignments, d.1.assignments);
    var myIds := AssignedIds(c.0.assignments) + AssignedIds(c.1.assignments);
    var theirIds := AssignedIds(d.0.assignments) + AssignedIds(d.1.assignments);
    assert CandidateKey(roster, c) == mine + myIds && CandidateKey(roster, d) == theirs + theirIds;
    LexPrefix(mine, theirs, myIds, theirIds);
  }

  // ---- The snake draft is fair ---------------------------------------------

  lemma SortedDistinctAscends(roster: seq<Player>)
    requires Sorted(roster, IdKey) && |PlayerIds(roster)| == |roster|
    ensures Ascending(roster)
  {
    forall i, j | 0 <= i < j < |roster| ensures roster[i].userId < roster[j].userId {
      assert LexLeq(IdKey(roster[i]), IdKey(roster[j]));
      if roster[i].userId == roster[j].userId { RepeatedId(roster, i, j); }
    }
  }

  lemma {:induction false} RepeatedId(players: seq<Player>, i: nat, j: nat)
    requires i < j < |players| && players[i].userId == players[j].userId
    ensures |PlayerIds(players)| < |players|
  {
    if i == 0 {
      assert players[1..][j - 1] in players[1..];
      assert PlayerIds(players) == PlayerIds(players[1..]);
      IdsAtMost(players[1..]);
    } else {
      RepeatedId(players[1..], i - 1, j - 1);
    }
  }

  lemma {:induction false} IdsAtMost(players: seq<Player>)
    ensures |PlayerIds(players)| <= |players|
  {
    if players != [] { IdsAtMost(players[1..]); }
  }

  lemma {:induction false} WithoutSplits(players: seq<Player>, gone: seq<Player>)
    requires Distinct(players) && Distinct(gone) && forall p :: p in gone ==> p in players
    ensures multiset(Without(players, gone)) + multiset(gone) == multiset(players)
    ensures forall p :: p in Without(players, gone) <==> p in players && p !in gone
    decreases players
  {
    WithoutMembers(players, gone);
    forall p ensures (multiset(Without(players, gone)) + multiset(gone))[p] == multiset(players)[p] {
      DistinctCount(players, p);
      DistinctCount(gone, p);
      DistinctCount(Without(players, gone), p);
    }
  }

  lemma {:induction false} WithoutMembers(players: seq<Player>, gone: seq<Player>)
    requires Distinct(players)
    ensures Distinct(Without(players, gone))
    ensures forall p :: p in Without(players, gone) <==> p in players && p !in gone
  {
    if players != [] { WithoutMembers(players[1..], gone); }
  }

  /** Everyone a draft holds, seated or waiting. */
  function Everyone(d: Draft): multiset<Player> {
    multiset(d.blue) + multiset(d.red) + multiset(d.remaining)
  }

  /** The sides grow in step, and eight turns are enough. */
  predicate InStep(turn: nat, d: Draft) {
    EvenSides(turn, |d.blue|, |d.red|, |d.remaining|)
  }

  predicate EvenSides(turn: nat, blue: nat, red: nat, remaining: nat) {
    && blue == red + (if turn % 4 == 1 then 1 else if turn % 4 == 3 then -1 else 0)
    && remaining + turn <= 8 && (remaining + turn) % 2 == 0
  }

  lemma RemoveAt<T>(s: seq<T>, i: nat)
    requires i < |s|
    ensures multiset(s[..i] + s[i + 1..]) + multiset{s[i]} == multiset(s)
  {
    assert s == s[..i] + [s[i]] + s[i + 1..];
  }

  lemma TurnLosesNobody(turn: nat, d: Draft)
    requires d.remaining != []
    ensures Everyone(DraftTurn(turn, d)) == Everyone(d)
  {
    hide NextPick;
    var side, other := if BluePicks(turn) then d.blue else d.red, if BluePicks(turn) then d.red else d.blue;
    var i := NextPick(side, other, d.remaining);
    RemoveAt(d.remaining, i);
    MoveOne(d.blue, d.red, d.remaining[i], d.remaining[..i] + d.remaining[i + 1..]);
  }

  lemma MoveOne<T>(a: seq<T>, b: seq<T>, x: T, rest: seq<T>)
    ensures multiset(a + [x]) + multiset(b) + multiset(rest) == multiset(a) + multiset(b) + (multiset(rest) + multiset{x})
    ensures multiset(a) + multiset(b + [x]) + multiset(rest) == multiset(a) + multiset(b) + (multiset(rest) + multiset{x})
  {
  }

  lemma TurnKeepsStep(turn: nat, d: Draft)
    requires d.remaining != [] && InStep(turn, d)
    ensures InStep(turn + 1, DraftTurn(turn, d))
  {
    TurnSizes(turn, d);
    StepArithmetic(turn, |d.blue|, |d.red|, |d.remaining|);
  }

  lemma TurnSizes(turn: nat, d: Draft)
    requires d.remaining != []
    ensures var e := DraftTurn(turn, d);
            && |e.remaining| == |d.remaining| - 1
            && |e.blue| == |d.blue| + (if BluePicks(turn) then 1 else 0)
            && |e.red| == |d.red| + (if BluePicks(turn) then 0 else 1)
  {
    hide NextPick;
  }

  lemma StepArithmetic(turn: nat, blue: nat, red: nat, remaining: nat)
    requires remaining > 0 && EvenSides(turn, blue, red, remaining)
    ensures EvenSides(turn + 1, blue + (if BluePicks(turn) then 1 else 0), red + (if BluePicks(turn) then 0 else 1), remaining - 1)
  {
  }

  lemma {:induction false} DraftLosesNobody(turn: nat, d: Draft)
    ensures Everyone(DraftFrom(turn, d)) == Everyone(d)
    decreases |d.remaining|
  {
    hide DraftTurn;
    if d.remaining != [] && turn < 8 {
      TurnLosesNobody(turn, d);
      DraftLosesNobody(turn + 1, DraftTurn(turn, d));
    }
  }

  lemma {:induction false} DraftEndsEven(turn: nat, d: Draft)
    requires InStep(turn, d)
    ensures var end := DraftFrom(turn, d);
            end.remaining == [] && |end.blue| == |end.red|
    decreases |d.remaining|
  {
    hide DraftTurn;
    if d.remaining != [] && turn < 8 {
      TurnKeepsStep(turn, d);
      DraftEndsEven(turn + 1, DraftTurn(turn, d));
    }
  }

  /** Stronger, or as strong and with the smaller ID. */
  predicate Outranks(p: Player, q: Player) {
    Strength(p) > Strength(q) || (Strength(p) == Strength(q) && p.userId <= q.userId)
  }

  lemma CaptainsRank(p: Player, q: Player)
    ensures LexLeq(CaptainKey(p), CaptainKey(q)) <==> Outranks(p, q)
  {
    LexPair(-Strength(p), p.userId, -Strength(q), q.userId);
  }

  lemma RankedByCaptains(s: seq<Player>, i: nat, j: nat)
    requires i < j < |s| && Sorted(s, CaptainKey)
    ensures Outranks(s[i], s[j])
  {
    hide Outranks, LexLeq, CaptainKey;
    CaptainsRank(s[i], s[j]);
  }

  /** The two captains are the strongest volunteers, in order. */
  lemma StrongestVolunteers(roster: seq<Player>)
    requires Distinct(roster) && |Volunteers(roster)| >= 2
    ensures var d := OpeningDraft(roster);
            var first, second := d.blue[0], d.red[0];
            && first != second && first in roster && first.captain && second in roster && second.captain
            && Outranks(first, second)
            && forall v :: v in roster && v.captain && v != first && v != second ==> Outranks(second, v)
  {
    VolunteersDistinct(roster);
    RankedFirst(Volunteers(roster), SortBy(Volunteers(roster), CaptainKey));
    hide Volunteers, Without, Outranks, SortBy, Distinct;
    var d := OpeningDraft(roster);
    assert d.blue[0] in Volunteers(roster) && d.red[0] in Volunteers(roster);
  }

  lemma RankedFirst(volunteers: seq<Player>, ranked: seq<Player>)
    requires Distinct(volunteers) && |volunteers| >= 2 && multiset(ranked) == multiset(volunteers) && Sorted(ranked, CaptainKey)
    ensures |ranked| == |volunteers| && ranked[0] != ranked[1] && ranked[0] in volunteers && ranked[1] in volunteers
    ensures Outranks(ranked[0], ranked[1])
    ensures forall v :: v in volunteers && v != ranked[0] && v != ranked[1] ==> Outranks(ranked[1], v)
  {
    hide Outranks, CaptainKey, Sorted;
    SameMultisetDistinct(volunteers, ranked);
    assert ranked[0] in multiset(volunteers) && ranked[1] in multiset(volunteers);
    RankedByCaptains(ranked, 0, 1);
    hide Distinct;
    forall k | 2 <= k < |ranked| ensures Outranks(ranked[1], ranked[k]) { RankedByCaptains(ranked, 1, k); }
    forall v | v in volunteers && v != ranked[0] && v != ranked[1] ensures Outranks(ranked[1], v) {
      assert v in multiset(ranked);
    }
  }

  lemma {:induction false} VolunteersDistinct(roster: seq<Player>)
    requires Distinct(roster)
    ensures Distinct(Volunteers(roster))
  {
    if roster != [] { VolunteersDistinct(roster[1..]); }
  }

  lemma OpeningIsFair(roster: seq<Player>)
    requires ValidRoster(roster) && |Volunteers(roster)| >= 2
    ensures Everyone(OpeningDraft(roster)) == multiset(roster)
    ensures |OpeningDraft(roster).remaining| == |roster| - 2
  {
    var d := OpeningDraft(roster);
    StrongestVolunteers(roster);
    var captains := [d.blue[0], d.red[0]];
    assert captains == SortBy(Volunteers(roster), CaptainKey)[..2];
    WithoutSplits(roster, captains);
    assert multiset(captains) == multiset(d.blue) + multiset(d.red);
    assert |multiset(d.remaining) + multiset(captains)| == |roster|;
  }

  lemma DraftIsFair(roster: seq<Player>)
    requires ValidRoster(roster) && |Volunteers(roster)| >= 2
    ensures var end := DraftFrom(0, OpeningDraft(roster));
            && multiset(end.blue) + multiset(end.red) == multiset(roster)
            && |end.blue| == |end.red| == |roster| / 2 && 1 <= |end.blue| <= 5
  {
    OpeningIsFair(roster);
    FairFromOpening(roster, OpeningDraft(roster));
  }

  lemma FairFromOpening(roster: seq<Player>, d: Draft)
    requires 2 <= |roster| <= 10 && |roster| % 2 == 0
    requires Everyone(d) == multiset(roster) && |d.remaining| == |roster| - 2 && |d.blue| == |d.red|
    ensures var end := DraftFrom(0, d);
            && multiset(end.blue) + multiset(end.red) == multiset(roster)
            && |end.blue| == |end.red| == |roster| / 2 && 1 <= |end.blue| <= 5
  {
    hide DraftTurn;
    assert EvenSides(0, |d.blue|, |d.red|, |d.remaining|);
    DraftLosesNobody(0, d);
    DraftEndsEven(0, d);
    SidesOf(roster, DraftFrom(0, d));
  }

  lemma SidesOf(roster: seq<Player>, end: Draft)
    requires Everyone(end) == multiset(roster) && end.remaining == [] && |end.blue| == |end.red|
    ensures multiset(end.blue) + multiset(end.red) == multiset(roster)
    ensures |roster| == 2 * |end.blue|
  {
    assert multiset(end.remaining) == multiset{};
    assert |multiset(roster)| == |roster|;
    assert |multiset(end.blue) + multiset(end.red)| == |end.blue| + |end.red|;
  }
}
