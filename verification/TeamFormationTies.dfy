/** Ties between role choices go by the names of the roles. */
module TeamFormationTies {
  import opened Common
  import opened TeamFormation

  function NameOf(role: Role): string {
    match role
    case Solo => "solo"
    case Jungle => "jungle"
    case Mid => "mid"
    case Support => "support"
    case Adc => "adc"
  }

  /** Before in the dictionary. */
  predicate Earlier(a: string, b: string) {
    if b == "" then false
    else if a == "" then true
    else a[0] < b[0] || (a[0] == b[0] && Earlier(a[1..], b[1..]))
  }

  lemma {:induction false} RanksAreAlphabetical(a: Role, b: Role)
    ensures RoleRank(a) < RoleRank(b) <==> Earlier(NameOf(a), NameOf(b))
  {
    var x, y := NameOf(a), NameOf(b);
    if a != b && x[0] == y[0] {
      assert "solo"[1..] == "olo" && "support"[1..] == "upport";
    }
    if a == b { Irreflexive(x); }
  }

  lemma {:induction false} Irreflexive(a: string)
    ensures !Earlier(a, a)
  {
    if a != "" { Irreflexive(a[1..]); }
  }

  lemma {:induction false} FirstDifference(a: seq<int>, b: seq<int>) returns (i: nat)
    requires LexLeq(a, b) && a != b && |a| == |b|
    ensures i < |a| && a[..i] == b[..i] && a[i] < b[i]
    decreases |a|
  {
    if a[0] < b[0] {
      i := 0;
    } else {
      assert a == [a[0]] + a[1..] && b == [b[0]] + b[1..];
      var j := FirstDifference(a[1..], b[1..]);
      i := j + 1;
      assert a[..i] == [a[0]] + a[1..][..j] && b[..i] == [b[0]] + b[1..][..j];
    }
  }

  lemma {:induction false} LexTail(s: seq<int>, a: seq<int>, b: seq<int>)
    requires LexLeq(s + a, s + b)
    ensures LexLeq(a, b)
    decreases |s|
  {
    if s == [] {
      assert s + a == a && s + b == b;
    } else {
      assert (s + a)[1..] == s[1..] + a && (s + b)[1..] == s[1..] + b;
      LexTail(s[1..], a, b);
    }
  }

  lemma {:induction false} RanksTell(a: seq<Role>, b: seq<Role>, i: nat)
    requires i <= |a| && i <= |b| && RoleRanks(a)[..i] == RoleRanks(b)[..i]
    ensures a[..i] == b[..i]
  {
    forall k | 0 <= k < i ensures a[k] == b[k] {
      assert RoleRanks(a)[..i][k] == RoleRank(a[k]) && RoleRanks(b)[..i][k] == RoleRank(b[k]);
    }
  }

  lemma {:induction false} SameRanks(a: seq<Role>, b: seq<Role>)
    requires RoleRanks(a) == RoleRanks(b)
    ensures a == b
  {
    assert |RoleRanks(a)| == |RoleRanks(b)|;
    RanksTell(a, b, |a|);
    assert a == a[..|a|] && b == b[..|b|];
  }

  /** Any other roles for the same team that are as good in composition and fit
      differ first, by place, in a role whose name comes later. */
  lemma {:induction false} TiesGoByName(players: seq<Player>, roles: seq<Role>) returns (i: nat)
    requires 1 <= |players| <= 5 && IsRoleChoice(roles, |players|) && roles != BestRoles(players)
    requires TeamKey(Assign(players, roles)) == TeamKey(Assign(players, BestRoles(players)))
    ensures i < |players| && BestRoles(players)[..i] == roles[..i] && Earlier(NameOf(BestRoles(players)[i]), NameOf(roles[i]))
  {
    hide TeamKey, BestRoles;
    var best := BestRoles(players);
    BestRolesLeast(players, roles);
    LexTail(TeamKey(Assign(players, best)), RoleRanks(best), RoleRanks(roles));
    if RoleRanks(best) == RoleRanks(roles) { SameRanks(best, roles); }
    i := FirstDifference(RoleRanks(best), RoleRanks(roles));
    RanksTell(best, roles, i);
    RanksAreAlphabetical(best[i], roles[i]);
  }
}
