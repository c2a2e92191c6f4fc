/** utils/draft.py: turn order, claims, game advances and the undo stack. Team
    captains and their commands follow utils/draft_coordinator.py. */
module Draft {
  import opened Common

  datatype Team = Blue | Red

  datatype Action = Ban | Pick

  datatype Turn = Turn(team: Team, action: Action)

  const TURN_SEQUENCE: seq<Turn> := [
    Turn(Blue, Ban), Turn(Red, Ban), Turn(Blue, Ban), Turn(Red, Ban), Turn(Blue, Ban), Turn(Red, Ban),
    Turn(Blue, Pick), Turn(Red, Pick), Turn(Red, Pick), Turn(Blue, Pick), Turn(Blue, Pick), Turn(Red, Pick),
    Turn(Red, Ban), Turn(Blue, Ban), Turn(Red, Ban), Turn(Blue, Ban),
    Turn(Red, Pick), Turn(Blue, Pick), Turn(Blue, Pick), Turn(Red, Pick)]

  /** One value for each side: the dictionaries keyed "blue" and "red". */
  datatype Sides<+T> = Sides(blue: T, red: T)

  function At<T>(s: Sides<T>, team: Team): T { if team == Blue then s.blue else s.red }

  function With<T>(s: Sides<T>, team: Team, v: T): Sides<T> {
    if team == Blue then s.(blue := v) else s.(red := v)
  }

  datatype Claimant = Claimant(userId: int, name: string)

  // ---- One game -------------------------------------------------------------

  datatype Game = Game(
    number: int,
    bans: Sides<seq<string>>,
    picks: Sides<seq<string>>,
    step: nat,
    claims: Sides<map<string, Claimant>>)

  function NewGame(number: int): Game {
    Game(number, Sides([], []), Sides([], []), 0, Sides(map[], map[]))
  }

  predicate IsComplete(g: Game) { g.step >= |TURN_SEQUENCE| }

  predicate IsFullyClaimed(g: Game) {
    && (forall team: Team :: |At(g.claims, team)| >= |At(g.picks, team)|)
    && IsComplete(g)
  }

  function CurrentTurn(g: Game): Option<Turn> {
    if IsComplete(g) then None else Some(TURN_SEQUENCE[g.step])
  }

  function AllGods(g: Game): set<string> {
    set god | god in g.bans.blue + g.bans.red + g.picks.blue + g.picks.red
  }

  function ListOf(g: Game, turn: Turn): seq<string> {
    if turn.action == Ban then At(g.bans, turn.team) else At(g.picks, turn.team)
  }

  function WithList(g: Game, turn: Turn, gods: seq<string>): Game {
    if turn.action == Ban then g.(bans := With(g.bans, turn.team, gods))
    else g.(picks := With(g.picks, turn.team, gods))
  }

  /** Past the end of the table the lookup raises. */
  function Executed(g: Game, god: string): Option<Game> {
    if IsComplete(g) then None
    else
      var turn := TURN_SEQUENCE[g.step];
      Some(WithList(g, turn, ListOf(g, turn) + [god]).(step := g.step + 1))
  }

  predicate MayClaim(g: Game, team: Team, god: string, userId: int) {
    && god in At(g.picks, team)
    && god !in At(g.claims, team)
    && forall other :: other in At(g.claims, team) ==> At(g.claims, team)[other].userId != userId
  }

  function ClaimedBy(g: Game, team: Team, god: string, who: Claimant): Game {
    g.(claims := With(g.claims, team, At(g.claims, team)[god := who]))
  }

  function Unclaimed(g: Game, team: Team, god: string): Game {
    g.(claims := With(g.claims, team, At(g.claims, team) - {god}))
  }

  /** Taking back the last step of a game: nothing to take back, or popping from
      an empty list, or the god called. */
  datatype GameUndo = NoStep | Raised(left: Game) | TookBack(game: Game, turn: Turn, god: string)

  function GameUndone(g: Game): GameUndo {
    if g.step == 0 then NoStep
    else
      var back := g.(step := g.step - 1);
      if IsComplete(back) then Raised(back)
      else
        var turn := TURN_SEQUENCE[back.step];
        var gods := ListOf(back, turn);
        if gods == [] then Raised(back)
        else TookBack(WithList(back, turn, gods[..|gods| - 1]), turn, gods[|gods| - 1])
  }

  // ---- A set of games ---------------------------------------------------------

  datatype Move =
    | MoveStep(turn: Turn, god: string)
    | MoveClaim(team: Team, claimed: string)
    | MoveNext(previousGame: Game, previousFearless: set<string>)

  datatype Draft = Draft(
    captains: Sides<int>,
    fearless: set<string>,
    completed: seq<Game>,
    current: Game,
    undoStack: seq<Move>,
    claimMessages: Sides<Option<int>>)

  function NewDraft(captains: Sides<int>, gameNumber: int): Draft {
    Draft(captains, {}, [], NewGame(gameNumber), [], Sides(None, None))
  }

  function PickSet(g: Game): set<string> { set god | god in g.picks.blue + g.picks.red }

  function Unavailable(d: Draft): set<string> { d.fearless + AllGods(d.current) }

  datatype Op =
    | OpStep(god: string)
    | OpClaim(team: Team, claimed: string, who: Claimant)
    | OpNext

  datatype Refusal = OutOfTurns | ClaimRefused | NotComplete | NotClaimed

  /** execute_step, claim_god and advance_game. */
  function Perform(d: Draft, op: Op): Result<Draft, Refusal> {
    match op
    case OpStep(god) =>
      (match Executed(d.current, god)
       case None => Err(OutOfTurns)
       case Some(g) => Ok(d.(current := g, undoStack := d.undoStack + [MoveStep(TURN_SEQUENCE[d.current.step], god)])))
    case OpClaim(team, god, who) =>
      if !MayClaim(d.current, team, god, who.userId) then Err(ClaimRefused)
      else Ok(d.(current := ClaimedBy(d.current, team, god, who), undoStack := d.undoStack + [MoveClaim(team, god)]))
    case OpNext =>
      if !IsComplete(d.current) then Err(NotComplete)
      else if !IsFullyClaimed(d.current) then Err(NotClaimed)
      else Ok(d.(undoStack := d.undoStack + [MoveNext(d.current, d.fearless)],
                 fearless := d.fearless + PickSet(d.current),
                 completed := d.completed + [d.current],
                 current := NewGame(d.current.number + 1),
                 claimMessages := Sides(None, None)))
  }

  datatype Report =
    | UndidStep(turn: Turn, god: string)
    | UndidClaim(team: Team, claimed: string, name: string)
    | UndidNext(gameNumber: int)

  datatype Outcome = NothingUndone | Crashed | Undid(report: Report)

  function Undone(d: Draft): (Draft, Outcome) {
    if d.undoStack == [] then (d, NothingUndone)
    else
      var n := |d.undoStack| - 1;
      var popped := d.(undoStack := d.undoStack[..n]);
      match d.undoStack[n]
      case MoveStep(_, _) =>
        (match GameUndone(d.current)
         case NoStep => (popped, NothingUndone)
         case Raised(g) => (popped.(current := g), Crashed)
         case TookBack(g, turn, god) => (popped.(current := g), Undid(UndidStep(turn, god))))
      case MoveClaim(team, god) =>
        if god !in At(d.current.claims, team) then (popped, NothingUndone)
        else (popped.(current := Unclaimed(d.current, team, god)),
              Undid(UndidClaim(team, god, At(d.current.claims, team)[god].name)))
      case MoveNext(game, fearless) =>
        if d.completed == [] then (popped, Crashed)
        else (popped.(completed := d.completed[..|d.completed| - 1], current := game, fearless := fearless),
              Undid(UndidNext(game.number)))
  }

  // ---- Commands -----------------------------------------------------------------

  /** What reaches a draft: a captain's message, a web request, a claim reaction,
      the advance and undo commands, and the posting of a claim message. */
  datatype Command =
    | Call(author: int, action: Action, god: string)
    | WebCall(requested: Option<Action>, god: string)
    | React(team: Team, claimed: string, who: Claimant)
    | Next
    | UndoLast
    | Announce(side: Team, messageId: int)

  /** The operation a command leads to, when its guards let it through. */
  function Accepted(d: Draft, c: Command): Option<Op> {
    match c
    case Call(author, action, god) =>
      var turn := CurrentTurn(d.current);
      if IsComplete(d.current) && !IsFullyClaimed(d.current) then None
      else if turn.None? then None
      else if action != turn.value.action then None
      else if author != At(d.captains, turn.value.team) then None
      else if god in Unavailable(d) then None
      else Some(OpStep(god))
    case WebCall(requested, god) =>
      var turn := CurrentTurn(d.current);
      if turn.None? then None
      else if requested.Some? && requested.value != turn.value.action then None
      else if god in Unavailable(d) then None
      else Some(OpStep(god))
    case React(team, god, who) => Some(OpClaim(team, god, who))
    case Next => Some(OpNext)
    case UndoLast => None
    case Announce(_, _) => None
  }

  function Handled(d: Draft, c: Command): Draft {
    match c
    case UndoLast => Undone(d).0
    case Announce(side, messageId) => d.(claimMessages := With(d.claimMessages, side, Some(messageId)))
    case _ => Attempted(d, Accepted(d, c))
  }

  function Attempted(d: Draft, op: Option<Op>): Draft {
    if op.Some? && Perform(d, op.value).Ok? then Perform(d, op.value).value else d
  }

  function HandledAll(d: Draft, run: seq<Command>): Draft {
    if run == [] then d
    else
      var n := |run| - 1;
      Handled(HandledAll(d, run[..n]), run[n])
  }
}
