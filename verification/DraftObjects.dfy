/** GameState and DraftState of utils/draft.py as objects. The undo stack, the
    list of completed games and the current game share GameState objects; each
    method changes the draft's value as the operations on values say. */
module DraftObjects {
  import opened Common
  import opened Draft

  class GameState {
    var number: int
    var bans: Sides<seq<string>>
    var picks: Sides<seq<string>>
    var step: nat
    var claims: Sides<map<string, Claimant>>

    constructor (number: int)
      ensures Value() == NewGame(number)
    {
      this.number := number;
      bans := Sides([], []);
      picks := Sides([], []);
      step := 0;
      claims := Sides(map[], map[]);
    }

    function Value(): Game
      reads this
    {
      Game(number, bans, picks, step, claims)
    }

    method Claim(team: Team, god: string, userId: int, name: string) returns (claimed: bool)
      modifies this
      ensures claimed == MayClaim(old(Value()), team, god, userId)
      ensures Value() == if claimed then ClaimedBy(old(Value()), team, god, Claimant(userId, name)) else old(Value())
    {
      if god !in At(picks, team) { return false; }
      if god in At(claims, team) { return false; }
      var unseen := At(claims, team).Keys;
      while unseen != {}
        invariant unseen <= At(claims, team).Keys
        invariant forall other :: other in At(claims, team).Keys - unseen ==> At(claims, team)[other].userId != userId
      {
        var other :| other in unseen;
        if At(claims, team)[other].userId == userId { return false; }
        unseen := unseen - {other};
      }
      claims := With(claims, team, At(claims, team)[god := Claimant(userId, name)]);
      claimed := true;
    }

    method Unclaim(team: Team, god: string) returns (info: Option<Claimant>)
      modifies this
      ensures info == if god in At(old(claims), team) then Some(At(old(claims), team)[god]) else None
      ensures Value() == if info.Some? then Unclaimed(old(Value()), team, god) else old(Value())
    {
      if god !in At(claims, team) { return None; }
      info := Some(At(claims, team)[god]);
      claims := With(claims, team, At(claims, team) - {god});
    }

    method Execute(god: string) returns (turn: Option<Turn>)
      modifies this
      ensures turn == CurrentTurn(old(Value()))
      ensures Value() == if turn.Some? then Executed(old(Value()), god).value else old(Value())
    {
      if step >= |TURN_SEQUENCE| { return None; }
      var t := TURN_SEQUENCE[step];
      if t.action == Ban {
        bans := With(bans, t.team, At(bans, t.team) + [god]);
      } else {
        picks := With(picks, t.team, At(picks, t.team) + [god]);
      }
      step := step + 1;
      turn := Some(t);
    }

    method UndoStep() returns (r: GameUndo)
      modifies this
      ensures r == GameUndone(old(Value()))
      ensures Value() == match r case NoStep => old(Value()) case Raised(left) => left case TookBack(g, _, _) => g
    {
      if step <= 0 { return NoStep; }
      step := step - 1;
      if step >= |TURN_SEQUENCE| { return Raised(Value()); }
      var t := TURN_SEQUENCE[step];
      var gods := if t.action == Ban then At(bans, t.team) else At(picks, t.team);
      if gods == [] { return Raised(Value()); }
      if t.action == Ban {
        bans := With(bans, t.team, gods[..|gods| - 1]);
      } else {
        picks := With(picks, t.team, gods[..|gods| - 1]);
      }
      r := TookBack(Value(), t, gods[|gods| - 1]);
    }
  }

  datatype UndoEntry =
    | StepEntry(turn: Turn, god: string)
    | ClaimEntry(team: Team, claimed: string)
    | NextEntry(previousGame: GameState, previousFearless: set<string>)

  function Values(games: seq<GameState>): (r: seq<Game>)
    reads games
    ensures |r| == |games|
  {
    if games == [] then [] else Values(games[..|games| - 1]) + [games[|games| - 1].Value()]
  }

  function HeldBy(e: UndoEntry): seq<GameState> { if e.NextEntry? then [e.previousGame] else [] }

  /** The game objects the stack refers to, oldest first. */
  function Held(stack: seq<UndoEntry>): seq<GameState> {
    if stack == [] then [] else Held(stack[..|stack| - 1]) + HeldBy(stack[|stack| - 1])
  }

  /** The value of an entry, given the value of the game it holds, if any. */
  function MoveOf(e: UndoEntry, game: Game): Move {
    match e
    case StepEntry(turn, god) => MoveStep(turn, god)
    case ClaimEntry(team, god) => MoveClaim(team, god)
    case NextEntry(_, fearless) => MoveNext(game, fearless)
  }

  /** The stack's value, given the values of the games it holds. */
  function Moves(stack: seq<UndoEntry>, held: seq<Game>): (r: seq<Move>)
    requires |Held(stack)| == |held|
    ensures |r| == |stack|
  {
    if stack == [] then []
    else
      var n, m := |stack| - 1, |held| - 1;
      if stack[n].NextEntry? then Moves(stack[..n], held[..m]) + [MoveOf(stack[n], held[m])]
      else Moves(stack[..n], held) + [MoveOf(stack[n], NewGame(0))]
  }

  lemma Pushed(stack: seq<UndoEntry>, e: UndoEntry, held: seq<Game>, game: Game)
    requires |Held(stack)| == |held|
    ensures Held(stack + [e]) == Held(stack) + HeldBy(e)
    ensures Moves(stack + [e], if e.NextEntry? then held + [game] else held) == Moves(stack, held) + [MoveOf(e, game)]
  {
    assert (stack + [e])[..|stack|] == stack && (held + [game])[..|held|] == held;
  }

  lemma Popped(stack: seq<UndoEntry>, held: seq<Game>)
    requires stack != [] && |Held(stack)| == |held|
    ensures var n := |stack| - 1;
            && Held(stack) == Held(stack[..n]) + HeldBy(stack[n])
            && (if stack[n].NextEntry?
                then Moves(stack, held) == Moves(stack[..n], held[..|held| - 1]) + [MoveOf(stack[n], held[|held| - 1])]
                else Moves(stack, held) == Moves(stack[..n], held) + [MoveOf(stack[n], NewGame(0))])
  {
  }

  lemma Completed(games: seq<GameState>, game: GameState)
    requires Distinct(games) && game !in games
    ensures Distinct(games + [game])
    ensures Values(games + [game]) == Values(games) + [game.Value()]
  {
    assert (games + [game])[..|games|] == games;
  }

  class DraftState {
    const captains: Sides<int>
    var fearless: set<string>
    var completed: seq<GameState>
    var current: GameState
    var undoStack: seq<UndoEntry>
    var claimMessages: Sides<Option<int>>

    constructor (captains: Sides<int>, gameNumber: int)
      ensures Valid() && fresh(current)
      ensures Value() == NewDraft(captains, gameNumber)
    {
      this.captains := captains;
      fearless := {};
      completed := [];
      current := new GameState(gameNumber);
      undoStack := [];
      claimMessages := Sides(None, None);
    }

    /** The stack holds exactly the completed games, in their order, and the
        current game is a different object from each of them. */
    ghost predicate Valid()
      reads this
    {
      && Held(undoStack) == completed
      && current !in completed
      && Distinct(completed)
    }

    ghost function Value(): Draft
      requires Valid()
      reads this, current, completed
    {
      Draft(captains, fearless, Values(completed), current.Value(), Moves(undoStack, Values(completed)), claimMessages)
    }

    method ExecuteStep(god: string) returns (turn: Option<Turn>)
      requires Valid()
      modifies this, current
      ensures Valid() && current == old(current) && completed == old(completed)
      ensures turn == CurrentTurn(old(Value()).current)
      ensures Value() == if turn.Some? then Perform(old(Value()), OpStep(god)).value else old(Value())
    {
      hide Values, Moves, Held, Executed;
      turn := current.Execute(god);
      if turn.None? { return; }
      Pushed(undoStack, StepEntry(turn.value, god), Values(completed), current.Value());
      undoStack := undoStack + [StepEntry(turn.value, god)];
      ExecutedUnless(old(Value()).current, god);
    }

    method ClaimGod(team: Team, god: string, userId: int, name: string) returns (claimed: bool)
      requires Valid()
      modifies this, current
      ensures Valid() && current == old(current) && completed == old(completed)
      ensures claimed == Perform(old(Value()), OpClaim(team, god, Claimant(userId, name))).Ok?
      ensures Value() == if claimed then Perform(old(Value()), OpClaim(team, god, Claimant(userId, name))).value else old(Value())
    {
      hide Values, Moves, Held, MayClaim, ClaimedBy;
      claimed := current.Claim(team, god, userId, name);
      if !claimed { return; }
      Pushed(undoStack, ClaimEntry(team, god), Values(completed), current.Value());
      undoStack := undoStack + [ClaimEntry(team, god)];
    }

    method AdvanceGame() returns (refusal: Option<Refusal>)
      requires Valid()
      modifies this
      ensures Valid() && (refusal.None? ==> fresh(current)) && (refusal.Some? ==> unchanged(this))
      ensures refusal.Some? ==> Perform(old(Value()), OpNext) == Err(refusal.value)
      ensures refusal.None? ==> Perform(old(Value()), OpNext) == Ok(Value())
    {
      hide Values, Moves, Held, Distinct, Perform, PickSet;
      NextPerformed(Value());
      if current.step < |TURN_SEQUENCE| { return Some(NotComplete); }
      if |current.claims.blue| < |current.picks.blue| || |current.claims.red| < |current.picks.red| {
        return Some(NotClaimed);
      }
      Pushed(undoStack, NextEntry(current, fearless), Values(completed), current.Value());
      Completed(completed, current);
      undoStack := undoStack + [NextEntry(current, fearless)];
      fearless := fearless + (set god | god in current.picks.blue);
      fearless := fearless + (set god | god in current.picks.red);
      completed := completed + [current];
      current := new GameState(current.number + 1);
      claimMessages := Sides(None, None);
      refusal := None;
    }

    method Announce(side: Team, messageId: int)
      requires Valid()
      modifies `claimMessages
      ensures Valid() && Value() == Handled(old(Value()), Command.Announce(side, messageId))
    {
      hide Values, Moves, Held, With;
      claimMessages := With(claimMessages, side, Some(messageId));
    }

    method Undo() returns (outcome: Outcome)
      requires Valid()
      modifies this, current
      ensures Valid() && (current == old(current) || current in old(completed))
      ensures (Value(), outcome) == Undone(old(Value()))
    {
      if undoStack == [] { return NothingUndone; }
      match undoStack[|undoStack| - 1] {
        case StepEntry(_, _) => outcome := TakeBackStep();
        case ClaimEntry(_, _) => outcome := TakeBackClaim();
        case NextEntry(_, _) => outcome := TakeBackNext();
      }
    }

    method TakeBackStep() returns (outcome: Outcome)
      requires Valid() && undoStack != [] && undoStack[|undoStack| - 1].StepEntry?
      modifies this, current
      ensures Valid() && current == old(current)
      ensures (Value(), outcome) == Undone(old(Value()))
    {
      hide Values, Moves, Held, GameUndone, Undone, Distinct;
      var n := |undoStack| - 1;
      Popped(undoStack, Values(completed));
      UndoneStep(Value(), undoStack[n].turn, undoStack[n].god);
      undoStack := undoStack[..n];
      var r := current.UndoStep();
      match r {
        case NoStep => outcome := NothingUndone;
        case Raised(_) => outcome := Crashed;
        case TookBack(_, turn, god) => outcome := Undid(UndidStep(turn, god));
      }
    }

    method TakeBackClaim() returns (outcome: Outcome)
      requires Valid() && undoStack != [] && undoStack[|undoStack| - 1].ClaimEntry?
      modifies this, current
      ensures Valid() && current == old(current)
      ensures (Value(), outcome) == Undone(old(Value()))
    {
      hide Values, Moves, Held, Unclaimed, Undone, Distinct;
      var n := |undoStack| - 1;
      var entry := undoStack[n];
      Popped(undoStack, Values(completed));
      UndoneClaim(Value(), entry.team, entry.claimed);
      undoStack := undoStack[..n];
      var info := current.Unclaim(entry.team, entry.claimed);
      if info.None? { return NothingUndone; }
      outcome := Undid(UndidClaim(entry.team, entry.claimed, info.value.name));
    }

    /** The game object the stack shares with the completed games is current again. */
    method TakeBackNext() returns (outcome: Outcome)
      requires Valid() && undoStack != [] && undoStack[|undoStack| - 1].NextEntry?
      modifies this
      ensures Valid() && current in old(completed)
      ensures (Value(), outcome) == Undone(old(Value()))
    {
      hide Values, Moves, Held, Undone, Distinct;
      var n := |undoStack| - 1;
      var entry := undoStack[n];
      Popped(undoStack, Values(completed));
      LastCompleted(completed);
      UndoneNext(Value(), entry.previousGame.Value(), entry.previousFearless);
      undoStack := undoStack[..n];
      completed := completed[..|completed| - 1];
      current := entry.previousGame;
      fearless := entry.previousFearless;
      outcome := Undid(UndidNext(current.number));
    }
  }

  lemma UndoneStep(d: Draft, turn: Turn, god: string)
    requires d.undoStack != [] && d.undoStack[|d.undoStack| - 1] == MoveStep(turn, god)
    ensures Undone(d) == match GameUndone(d.current)
                         case NoStep => (d.(undoStack := d.undoStack[..|d.undoStack| - 1]), NothingUndone)
                         case Raised(g) => (d.(undoStack := d.undoStack[..|d.undoStack| - 1], current := g), Crashed)
                         case TookBack(g, t, taken) => (d.(undoStack := d.undoStack[..|d.undoStack| - 1], current := g), Undid(UndidStep(t, taken)))
  {
  }

  lemma UndoneClaim(d: Draft, team: Team, god: string)
    requires d.undoStack != [] && d.undoStack[|d.undoStack| - 1] == MoveClaim(team, god)
    ensures Undone(d) == var popped := d.(undoStack := d.undoStack[..|d.undoStack| - 1]);
                         if god !in At(d.current.claims, team) then (popped, NothingUndone)
                         else (popped.(current := Unclaimed(d.current, team, god)),
                               Undid(UndidClaim(team, god, At(d.current.claims, team)[god].name)))
  {
  }

  lemma UndoneNext(d: Draft, game: Game, fearless: set<string>)
    requires d.undoStack != [] && d.undoStack[|d.undoStack| - 1] == MoveNext(game, fearless) && d.completed != []
    ensures Undone(d) == (d.(undoStack := d.undoStack[..|d.undoStack| - 1], completed := d.completed[..|d.completed| - 1],
                             current := game, fearless := fearless), Undid(UndidNext(game.number)))
  {
  }

  lemma LastCompleted(games: seq<GameState>)
    requires Distinct(games)
    ensures games == [] ==> Values(games) == []
    ensures games != [] ==> Distinct(games[..|games| - 1]) && games[|games| - 1] !in games[..|games| - 1]
    ensures games != [] ==> Values(games) == Values(games[..|games| - 1]) + [games[|games| - 1].Value()]
  {
  }

  lemma NextPerformed(d: Draft)
    ensures Perform(d, OpNext) ==
              if d.current.step < |TURN_SEQUENCE| then Err(NotComplete)
              else if |d.current.claims.blue| < |d.current.picks.blue| || |d.current.claims.red| < |d.current.picks.red|
              then Err(NotClaimed)
              else Ok(d.(undoStack := d.undoStack + [MoveNext(d.current, d.fearless)],
                         fearless := d.fearless + (set god | god in d.current.picks.blue) + (set god | god in d.current.picks.red),
                         completed := d.completed + [d.current],
                         current := NewGame(d.current.number + 1),
                         claimMessages := Sides(None, None)))
  {
    assert d.fearless + PickSet(d.current)
      == d.fearless + (set god | god in d.current.picks.blue) + (set god | god in d.current.picks.red);
    if IsComplete(d.current) { ClaimedBothSides(d.current); }
  }

  lemma ClaimedBothSides(g: Game)
    requires IsComplete(g)
    ensures IsFullyClaimed(g) <==> |g.claims.blue| >= |g.picks.blue| && |g.claims.red| >= |g.picks.red|
  {
    assert At(g.claims, Blue) == g.claims.blue && At(g.claims, Red) == g.claims.red;
    assert At(g.picks, Blue) == g.picks.blue && At(g.picks, Red) == g.picks.red;
    if IsFullyClaimed(g) {
      assert |At(g.claims, Blue)| >= |At(g.picks, Blue)| && |At(g.claims, Red)| >= |At(g.picks, Red)|;
    }
  }

  lemma ExecutedUnless(g: Game, god: string)
    ensures Executed(g, god).Some? <==> CurrentTurn(g).Some?
  {
  }
}
