/** The board follows the turn table, and the fearless rule holds in every run. */
module DraftFearless {
  import opened Common
  import opened Draft
  import opened DraftUndo

  // ---- The board is the gods called, dealt out by the turn table ---------------

  /** The gods called on this turn's side and action, in order. */
  function Dealt(called: seq<string>, turn: Turn): seq<string>
    requires |called| <= |TURN_SEQUENCE|
  {
    if called == [] then []
    else
      var n := |called| - 1;
      Dealt(called[..n], turn) + (if TURN_SEQUENCE[n] == turn then [called[n]] else [])
  }

  ghost predicate IsBoardOf(g: Game, called: seq<string>) {
    && |called| == g.step <= |TURN_SEQUENCE|
    && forall turn :: ListOf(g, turn) == Dealt(called, turn)
  }

  /** The gods called since the last game advance in effect. */
  function CalledIn(ops: seq<Op>): seq<string> {
    if ops == [] then []
    else
      var n := |ops| - 1;
      match ops[n]
      case OpStep(god) => CalledIn(ops[..n]) + [god]
      case OpClaim(_, _, _) => CalledIn(ops[..n])
      case OpNext => []
  }

  lemma StepDeals(g: Game, called: seq<string>, god: string)
    requires IsBoardOf(g, called) && Executed(g, god).Some?
    ensures IsBoardOf(Executed(g, god).value, called + [god])
  {
    var turn := TURN_SEQUENCE[g.step];
    var more := called + [god];
    assert more[..|called|] == called;
    var h := Executed(g, god).value;
    WithListBack(g, turn, ListOf(g, turn) + [god]);
    forall other ensures ListOf(h, other) == Dealt(more, other) {
      if other != turn { assert Dealt(called, other) + [] == Dealt(called, other); }
    }
  }

  lemma NewBoard(number: int)
    ensures IsBoardOf(NewGame(number), [])
  {
    forall turn ensures ListOf(NewGame(number), turn) == Dealt([], turn) { }
  }

  /** Whatever was claimed, undone or replayed before, each list on the board is
      the gods called in this game at that side's turns of the table. */
  lemma {:induction false} BoardIsDealt(start: Draft, ops: seq<Op>)
    requires start.current == NewGame(start.current.number) && Succeeds(start, ops)
    ensures IsBoardOf(Replay(start, ops).current, CalledIn(ops))
  {
    if ops == [] {
      NewBoard(start.current.number);
    } else {
      var n := |ops| - 1;
      BoardIsDealt(start, ops[..n]);
      var d := Replay(start, ops[..n]);
      match ops[n]
      case OpStep(god) => StepDeals(d.current, CalledIn(ops[..n]), god);
      case OpClaim(team, god, who) =>
        forall turn ensures ListOf(ClaimedBy(d.current, team, god, who), turn) == ListOf(d.current, turn) { }
      case OpNext =>
        NewBoard(d.current.number + 1);
    }
  }

  /** How many of the first turns of the table are this one. */
  function TurnsBefore(turn: Turn, step: nat): nat
    requires step <= |TURN_SEQUENCE|
  {
    if step == 0 then 0 else TurnsBefore(turn, step - 1) + (if TURN_SEQUENCE[step - 1] == turn then 1 else 0)
  }

  lemma {:induction false} DealtSize(called: seq<string>, turn: Turn)
    requires |called| <= |TURN_SEQUENCE|
    ensures |Dealt(called, turn)| == TurnsBefore(turn, |called|)
  {
    if called != [] { DealtSize(called[..|called| - 1], turn); }
  }

  lemma FirstBans(turn: Turn)
    ensures TurnsBefore(turn, 6) == if turn.action == Ban then 3 else 0
  {
    assert TurnsBefore(turn, 0) == 0;
    match turn
    case Turn(Blue, Ban) =>
      assert TurnsBefore(turn, 1) == 1 && TurnsBefore(turn, 2) == 1 && TurnsBefore(turn, 3) == 2 && TurnsBefore(turn, 4) == 2 && TurnsBefore(turn, 5) == 3;
    case Turn(Red, Ban) =>
      assert TurnsBefore(turn, 1) == 0 && TurnsBefore(turn, 2) == 1 && TurnsBefore(turn, 3) == 1 && TurnsBefore(turn, 4) == 2 && TurnsBefore(turn, 5) == 2;
    case Turn(Blue, Pick) =>
      assert TurnsBefore(turn, 1) == 0 && TurnsBefore(turn, 2) == 0 && TurnsBefore(turn, 3) == 0 && TurnsBefore(turn, 4) == 0 && TurnsBefore(turn, 5) == 0;
    case Turn(Red, Pick) =>
      assert TurnsBefore(turn, 1) == 0 && TurnsBefore(turn, 2) == 0 && TurnsBefore(turn, 3) == 0 && TurnsBefore(turn, 4) == 0 && TurnsBefore(turn, 5) == 0;
  }

  lemma FirstPicks(turn: Turn)
    ensures TurnsBefore(turn, 12) == 3
  {
    FirstBans(turn);
    match turn
    case Turn(Blue, Ban) =>
      assert TurnsBefore(turn, 7) == 3 && TurnsBefore(turn, 8) == 3 && TurnsBefore(turn, 9) == 3 && TurnsBefore(turn, 10) == 3 && TurnsBefore(turn, 11) == 3;
    case Turn(Red, Ban) =>
      assert TurnsBefore(turn, 7) == 3 && TurnsBefore(turn, 8) == 3 && TurnsBefore(turn, 9) == 3 && TurnsBefore(turn, 10) == 3 && TurnsBefore(turn, 11) == 3;
    case Turn(Blue, Pick) =>
      assert TurnsBefore(turn, 7) == 1 && TurnsBefore(turn, 8) == 1 && TurnsBefore(turn, 9) == 1 && TurnsBefore(turn, 10) == 2 && TurnsBefore(turn, 11) == 3;
    case Turn(Red, Pick) =>
      assert TurnsBefore(turn, 7) == 0 && TurnsBefore(turn, 8) == 1 && TurnsBefore(turn, 9) == 2 && TurnsBefore(turn, 10) == 2 && TurnsBefore(turn, 11) == 2;
  }

  lemma SecondBans(turn: Turn)
    ensures TurnsBefore(turn, 16) == if turn.action == Ban then 5 else 3
  {
    FirstPicks(turn);
    match turn
    case Turn(Blue, Ban) =>
      assert TurnsBefore(turn, 13) == 3 && TurnsBefore(turn, 14) == 4 && TurnsBefore(turn, 15) == 4;
    case Turn(Red, Ban) =>
      assert TurnsBefore(turn, 13) == 4 && TurnsBefore(turn, 14) == 4 && TurnsBefore(turn, 15) == 5;
    case Turn(Blue, Pick) =>
      assert TurnsBefore(turn, 13) == 3 && TurnsBefore(turn, 14) == 3 && TurnsBefore(turn, 15) == 3;
    case Turn(Red, Pick) =>
      assert TurnsBefore(turn, 13) == 3 && TurnsBefore(turn, 14) == 3 && TurnsBefore(turn, 15) == 3;
  }

  /** Over the whole table, five bans and five picks a side. */
  lemma SecondPicks(turn: Turn)
    ensures TurnsBefore(turn, |TURN_SEQUENCE|) == 5
  {
    SecondBans(turn);
    match turn
    case Turn(Blue, Ban) =>
      assert TurnsBefore(turn, 17) == 5 && TurnsBefore(turn, 18) == 5 && TurnsBefore(turn, 19) == 5;
    case Turn(Red, Ban) =>
      assert TurnsBefore(turn, 17) == 5 && TurnsBefore(turn, 18) == 5 && TurnsBefore(turn, 19) == 5;
    case Turn(Blue, Pick) =>
      assert TurnsBefore(turn, 17) == 3 && TurnsBefore(turn, 18) == 4 && TurnsBefore(turn, 19) == 5;
    case Turn(Red, Pick) =>
      assert TurnsBefore(turn, 17) == 4 && TurnsBefore(turn, 18) == 4 && TurnsBefore(turn, 19) == 4;
  }

  /** A complete game has five bans and five picks on each side. */
  lemma CompleteBoard(g: Game, called: seq<string>, turn: Turn)
    requires IsBoardOf(g, called) && IsComplete(g)
    ensures |ListOf(g, turn)| == 5
  {
    DealtSize(called, turn);
    SecondPicks(turn);
  }

  // ---- No god twice in a game ---------------------------------------------------

  function GodList(g: Game): seq<string> { g.bans.blue + g.bans.red + g.picks.blue + g.picks.red }

  lemma InsertDistinct(a: seq<string>, x: string, b: seq<string>)
    requires Distinct(a + b) && x !in a + b
    ensures Distinct(a + [x] + b)
  {
    var r, s := a + [x] + b, a + b;
    forall i, j | 0 <= i < j < |r| ensures r[i] != r[j] {
      var k, l := if i <= |a| then i else i - 1, if j <= |a| then j else j - 1;
      if i != |a| { assert r[i] == s[k]; }
      if j != |a| { assert r[j] == s[l]; }
    }
  }

  lemma StepAddsOne(g: Game, god: string)
    requires Executed(g, god).Some? && Distinct(GodList(g)) && god !in AllGods(g)
    ensures Distinct(GodList(Executed(g, god).value))
    ensures AllGods(Executed(g, god).value) == AllGods(g) + {god}
  {
    GrowsByOne(g, TURN_SEQUENCE[g.step], god);
  }

  lemma GrowsByOne(g: Game, turn: Turn, god: string)
    requires Distinct(GodList(g)) && god !in AllGods(g)
    ensures var h := WithList(g, turn, ListOf(g, turn) + [god]);
            Distinct(GodList(h)) && AllGods(h) == AllGods(g) + {god}
  {
    var bb, br, pb, pr := g.bans.blue, g.bans.red, g.picks.blue, g.picks.red;
    var h := WithList(g, turn, ListOf(g, turn) + [god]);
    var a, b;
    match turn {
      case Turn(Blue, Ban) => a, b := bb, br + pb + pr;
      case Turn(Red, Ban) => a, b := bb + br, pb + pr;
      case Turn(Blue, Pick) => a, b := bb + br + pb, pr;
      case Turn(Red, Pick) => a, b := bb + br + pb + pr, [];
    }
    assert a + b == GodList(g) && GodList(h) == a + [god] + b;
    hide GodList, Distinct, ListOf, WithList;
    InsertDistinct(a, god, b);
    forall x ensures x in AllGods(h) <==> x in AllGods(g) || x == god {
      assert x in a + [god] + b <==> x in a + b || x == god;
      GodsAre(g, x);
      GodsAre(h, x);
    }
  }

  lemma GodsAre(g: Game, x: string)
    ensures x in AllGods(g) <==> x in GodList(g)
  {
  }

  // ---- The fearless rule ----------------------------------------------------------

  /** Every completed game is full, and its picks are on no later board. */
  ghost predicate Series(completed: seq<Game>) {
    && (forall i :: 0 <= i < |completed| ==> FullGame(completed[i]))
    && (forall i, j :: 0 <= i < j < |completed| ==> PickSet(completed[i]) !! AllGods(completed[j]))
  }

  /** None of these gods was picked in a completed game. */
  ghost predicate Unused(completed: seq<Game>, gods: set<string>) {
    forall i :: 0 <= i < |completed| ==> PickSet(completed[i]) !! gods
  }

  /** The pool is the picks of the completed games, ten for each. */
  ghost predicate PoolOf(pool: set<string>, completed: seq<Game>) {
    && (forall god :: god in pool <==> exists i :: 0 <= i < |completed| && god in PickSet(completed[i]))
    && |pool| == 10 * |completed|
  }

  ghost predicate FearlessOver(d: Draft) {
    && Series(d.completed)
    && Unused(d.completed, AllGods(d.current))
    && PoolOf(d.fearless, d.completed)
    && Distinct(GodList(d.current))
  }

  /** Five bans and five picks a side, all different, and every pick claimed. */
  ghost predicate FullGame(g: Game) {
    && IsComplete(g) && Distinct(GodList(g))
    && (forall turn :: |ListOf(g, turn)| == 5)
    && (forall team :: EveryPickClaimed(g, team))
  }

  ghost predicate EveryPickClaimed(g: Game, team: Team) {
    ClaimsInPicks(g, team) && forall god :: god in At(g.picks, team) ==> god in At(g.claims, team)
  }

  /** Claims are of this side's picks, each by another user. */
  ghost predicate ClaimsInPicks(g: Game, team: Team) {
    && (forall god :: god in At(g.claims, team) ==> god in At(g.picks, team))
    && (forall x, y :: x in At(g.claims, team) && y in At(g.claims, team) && x != y ==>
          At(g.claims, team)[x].userId != At(g.claims, team)[y].userId)
  }

  lemma {:induction false} SetSize(s: seq<string>, t: set<string>)
    requires Distinct(s) && forall god :: god in t <==> god in s
    ensures |t| == |s|
  {
    if s == [] {
      assert t == {};
    } else {
      var n := |s| - 1;
      SetSize(s[..n], t - {s[n]});
    }
  }

  lemma SubsetOfSize(a: set<string>, b: set<string>)
    requires a <= b && |a| >= |b|
    ensures a == b
  {
    forall x | x in b ensures x in a {
      if x !in a {
        assert |b - {x}| == |b| - 1;
        SmallerSet(a, b - {x});
      }
    }
  }

  lemma {:induction false} SmallerSet(a: set<string>, b: set<string>)
    requires a <= b
    ensures |a| <= |b|
  {
    if x :| x in a { SmallerSet(a - {x}, b - {x}); }
  }

  /** With five claims a side, all on picks, every pick is claimed. */
  lemma AllPicksClaimed(g: Game, team: Team)
    requires ClaimsInPicks(g, team) && Distinct(At(g.picks, team)) && |At(g.claims, team)| >= |At(g.picks, team)|
    ensures EveryPickClaimed(g, team)
  {
    var picked := set god | god in At(g.picks, team);
    SetSize(At(g.picks, team), picked);
    SubsetOfSize(At(g.claims, team).Keys, picked);
  }

  lemma PicksDistinct(g: Game)
    requires Distinct(GodList(g))
    ensures Distinct(g.picks.blue + g.picks.red) && Distinct(g.picks.blue) && Distinct(g.picks.red)
    ensures PickSet(g) <= AllGods(g) && |PickSet(g)| == |g.picks.blue| + |g.picks.red|
  {
    var n := |g.bans.blue| + |g.bans.red|;
    var picks := g.picks.blue + g.picks.red;
    assert forall i :: 0 <= i < |picks| ==> picks[i] == GodList(g)[n + i];
    assert forall i :: 0 <= i < |g.picks.blue| ==> g.picks.blue[i] == picks[i];
    assert forall i :: 0 <= i < |g.picks.red| ==> g.picks.red[i] == picks[|g.picks.blue| + i];
    SetSize(picks, PickSet(g));
  }

  /** The whole invariant: the fearless rule, with the claims in order. */
  ghost predicate Fair(d: Draft) {
    FearlessOver(d) && forall team :: ClaimsInPicks(d.current, team)
  }

  lemma StepKeepsFair(d: Draft, god: string)
    requires Fair(d) && Perform(d, OpStep(god)).Ok? && Allowed(d, OpStep(god))
    ensures Fair(Perform(d, OpStep(god)).value)
  {
    hide PoolOf, Series, Unused, GodList, AllGods, Executed, ClaimsInPicks;
    StepAddsOne(d.current, god);
    StepKeepsClaims(d.current, god);
    UnusedWith(d.completed, d.fearless, AllGods(d.current), god);
  }

  lemma UnusedWith(completed: seq<Game>, pool: set<string>, gods: set<string>, god: string)
    requires PoolOf(pool, completed) && Unused(completed, gods) && god !in pool
    ensures Unused(completed, gods + {god})
  {
  }

  lemma StepKeepsClaims(g: Game, god: string)
    requires Executed(g, god).Some? && forall team :: ClaimsInPicks(g, team)
    ensures forall team :: ClaimsInPicks(Executed(g, god).value, team)
  {
    var h := Executed(g, god).value;
    forall team ensures ClaimsInPicks(h, team) {
      assert ClaimsInPicks(g, team);
      assert At(h.claims, team) == At(g.claims, team);
      assert forall x :: x in At(g.picks, team) ==> x in At(h.picks, team);
    }
  }

  lemma ClaimKeepsFair(d: Draft, team: Team, god: string, who: Claimant)
    requires Fair(d) && Perform(d, OpClaim(team, god, who)).Ok?
    ensures Fair(Perform(d, OpClaim(team, god, who)).value)
  {
    var e := Perform(d, OpClaim(team, god, who)).value;
    assert AllGods(e.current) == AllGods(d.current);
    forall side ensures ClaimsInPicks(e.current, side) {
      assert ClaimsInPicks(d.current, side);
      var before, after := At(d.current.claims, side), At(e.current.claims, side);
      assert At(e.current.picks, side) == At(d.current.picks, side);
      if side == team { assert after == before[god := who]; } else { assert after == before; }
    }
  }

  lemma NextKeepsFair(d: Draft, called: seq<string>)
    requires Fair(d) && IsBoardOf(d.current, called) && Perform(d, OpNext).Ok?
    ensures Fair(Perform(d, OpNext).value)
  {
    hide PoolOf, Series, Unused, GodList, AllGods, PickSet, ClaimsInPicks, FullGame, IsBoardOf;
    ClaimedGameIsFull(d.current, called);
    NewGameIsEmpty(d.current.number + 1);
    SeriesWith(d.completed, d.fearless, d.current);
  }

  lemma SeriesWith(completed: seq<Game>, pool: set<string>, g: Game)
    requires Series(completed) && Unused(completed, AllGods(g)) && PoolOf(pool, completed) && FullGame(g)
    ensures Series(completed + [g]) && PoolOf(pool + PickSet(g), completed + [g]) && Unused(completed + [g], {})
  {
    PicksDistinct(g);
    assert |ListOf(g, Turn(Blue, Pick))| == 5 && |ListOf(g, Turn(Red, Pick))| == 5;
    hide AllGods, PickSet, FullGame, GodList;
    assert Series(completed + [g]) by { hide PoolOf; }
    assert Unused(completed + [g], {}) by { hide PoolOf; }
    PoolWith(pool, g, completed);
  }

  lemma PoolWith(pool: set<string>, g: Game, completed: seq<Game>)
    requires PoolOf(pool, completed) && Unused(completed, PickSet(g)) && |PickSet(g)| == 10
    ensures PoolOf(pool + PickSet(g), completed + [g])
  {
    var more := completed + [g];
    hide PickSet;
    forall god ensures god in pool + PickSet(g) <==> exists i :: 0 <= i < |more| && god in PickSet(more[i]) {
      if god in pool {
        var i :| 0 <= i < |completed| && god in PickSet(completed[i]);
        assert more[i] == completed[i];
      }
      if god in PickSet(g) { assert more[|completed|] == g; }
    }
    assert pool !! PickSet(g);
  }

  lemma ClaimedGameIsFull(g: Game, called: seq<string>)
    requires IsBoardOf(g, called) && IsFullyClaimed(g) && Distinct(GodList(g)) && forall team :: ClaimsInPicks(g, team)
    ensures FullGame(g)
  {
    PicksDistinct(g);
    forall turn ensures |ListOf(g, turn)| == 5 { CompleteBoard(g, called, turn); }
    forall team ensures EveryPickClaimed(g, team) { AllPicksClaimed(g, team); }
  }

  lemma NewGameIsEmpty(number: int)
    ensures AllGods(NewGame(number)) == {} && Distinct(GodList(NewGame(number)))
    ensures forall team :: ClaimsInPicks(NewGame(number), team)
  {
    forall team ensures ClaimsInPicks(NewGame(number), team) { assert At(NewGame(number).claims, team) == map[]; }
  }

  /** In every draft that operations on available gods can reach, the pool is
      the picks of the completed games, ten for each; no god is twice in a game;
      and none picked in a completed game is banned or picked in a later one. */
  lemma {:induction false} LegalDraftsAreFair(captains: Sides<int>, number: int, ops: seq<Op>)
    requires Legal(NewDraft(captains, number), ops)
    ensures Fair(Replay(NewDraft(captains, number), ops))
  {
    var start := NewDraft(captains, number);
    if ops == [] {
      NewGameIsEmpty(number);
    } else {
      var n := |ops| - 1;
      var d := Replay(start, ops[..n]);
      LegalDraftsAreFair(captains, number, ops[..n]);
      LegalSucceeds(start, ops[..n]);
      BoardIsDealt(start, ops[..n]);
      match ops[n]
      case OpStep(god) => StepKeepsFair(d, god);
      case OpClaim(team, god, who) => ClaimKeepsFair(d, team, god, who);
      case OpNext => NextKeepsFair(d, CalledIn(ops[..n]));
    }
  }

  /** The same after every run of commands, undos included. */
  lemma EveryRunIsFair(captains: Sides<int>, number: int, run: seq<Command>)
    ensures Fair(HandledAll(NewDraft(captains, number), run))
  {
    var start := NewDraft(captains, number);
    EveryRunReplays(start, run);
    LegalDraftsAreFair(captains, number, Net(start, run));
    FairIsPlain(HandledAll(start, run), Replay(start, Net(start, run)));
  }

  lemma FairIsPlain(d: Draft, e: Draft)
    requires Plain(d) == Plain(e) && Fair(e)
    ensures Fair(d)
  {
    assert d.current == e.current && d.completed == e.completed && d.fearless == e.fearless;
  }
}
