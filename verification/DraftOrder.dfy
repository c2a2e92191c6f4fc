/** Whose turn it is: the four phases of a game, and that no side gets ahead. */
module DraftOrder {
  import opened Common
  import opened Draft
  import opened DraftUndo
  import opened DraftFearless

  // ---- The phases -------------------------------------------------------------------------

  /** Six bans, six picks, four bans, four picks. */
  predicate InBans(step: nat) { step < 6 || 12 <= step < 16 }

  /** Blue opens the first half of a game, Red the second. */
  function Opener(step: nat): Team { if step < 12 then Blue else Red }

  /** How far into its phase a step is. */
  function Place(step: nat): nat {
    if step < 6 then step else if step < 12 then step - 6 else if step < 16 then step - 12 else step - 16
  }

  /** Bans alternate; picks go one to the opener, then two and two in a snake. */
  predicate OpenersTurn(step: nat) {
    if InBans(step) then Place(step) % 2 == 0 else Place(step) % 4 == 0 || Place(step) % 4 == 3
  }

  function Other(team: Team): Team { if team == Blue then Red else Blue }

  function ToMove(step: nat): Team { if OpenersTurn(step) then Opener(step) else Other(Opener(step)) }

  /** The turn table is exactly these phases. */
  lemma TableIsThePhases(step: nat)
    ensures |TURN_SEQUENCE| == 20
    ensures step < 20 ==> TURN_SEQUENCE[step].team == ToMove(step) && (TURN_SEQUENCE[step].action == Ban <==> InBans(step))
  {
  }

  // ---- Calls ------------------------------------------------------------------------------

  /** The game after a god is called on this side: one list longer by this god, one
      step further, nothing else changed. */
  ghost predicate CalledOn(g: Game, h: Game, team: Team, action: Action, god: string) {
    && h.step == g.step + 1 && h.number == g.number && h.claims == g.claims
    && (action == Ban ==> At(h.bans, team) == At(g.bans, team) + [god] && At(h.bans, Other(team)) == At(g.bans, Other(team)) && h.picks == g.picks)
    && (action == Pick ==> At(h.picks, team) == At(g.picks, team) + [god] && At(h.picks, Other(team)) == At(g.picks, Other(team)) && h.bans == g.bans)
  }

  /** A captain's call is taken exactly when the game is on, his side is to move,
      the phase is of this action and the god is free; it then lands on his side. */
  lemma CallsAreInTurn(d: Draft, author: int, action: Action, god: string)
    ensures var e, side := Handled(d, Call(author, action, god)), ToMove(d.current.step);
            if d.current.step < 20 && author == At(d.captains, side) && (action == Ban <==> InBans(d.current.step))
               && god !in d.fearless && god !in AllGods(d.current)
            then CalledOn(d.current, e.current, side, action, god) && e == d.(current := e.current, undoStack := d.undoStack + [MoveStep(Turn(side, action), god)])
            else e == d
  {
    TableIsThePhases(d.current.step);
  }

  /** A web request needs no captain: it lands on the side to move, in the action
      of the phase, and is refused when it names the other action. */
  lemma WebCallsAreInTurn(d: Draft, requested: Option<Action>, god: string)
    ensures var e, side, action := Handled(d, WebCall(requested, god)), ToMove(d.current.step), if InBans(d.current.step) then Ban else Pick;
            if d.current.step < 20 && requested in {None, Some(action)} && god !in d.fearless && god !in AllGods(d.current)
            then CalledOn(d.current, e.current, side, action, god) && e == d.(current := e.current, undoStack := d.undoStack + [MoveStep(Turn(side, action), god)])
            else e == d
  {
    TableIsThePhases(d.current.step);
  }

  // ---- No side gets ahead -----------------------------------------------------------------

  /** How many more calls of this action Blue has had than Red: none but in a phase
      of this action, where the opener is one ahead at first, and behind after the
      other side's pair of picks. */
  function Lead(action: Action, step: nat): int {
    var ahead := if Opener(step) == Blue then 1 else -1;
    if (action == Ban) != InBans(step) || Place(step) % 2 == 0 then 0
    else if action == Ban || Place(step) % 4 == 1 then ahead
    else -ahead
  }

  lemma {:induction false} TurnsLead(action: Action, step: nat)
    requires step <= |TURN_SEQUENCE|
    ensures TurnsBefore(Turn(Blue, action), step) - TurnsBefore(Turn(Red, action), step) == Lead(action, step)
  {
    hide TurnsBefore, Lead, ToMove;
    if step == 0 {
      NoTurns(action);
    } else {
      TurnsLead(action, step - 1);
      OneTurn(Turn(Blue, action), step - 1);
      OneTurn(Turn(Red, action), step - 1);
      LeadMoves(action, step - 1);
    }
  }

  lemma NoTurns(action: Action)
    ensures TurnsBefore(Turn(Blue, action), 0) == 0 && TurnsBefore(Turn(Red, action), 0) == 0 && Lead(action, 0) == 0
  {
  }

  lemma OneTurn(turn: Turn, step: nat)
    requires step < |TURN_SEQUENCE|
    ensures TurnsBefore(turn, step + 1) == TurnsBefore(turn, step) + (if turn.team == ToMove(step) && (turn.action == Ban <==> InBans(step)) then 1 else 0)
  {
    TableIsThePhases(step);
  }

  lemma LeadMoves(action: Action, step: nat)
    requires step < 20
    ensures Lead(action, step + 1) == Lead(action, step) +
              if (action == Ban) != InBans(step) then 0 else if ToMove(step) == Blue then 1 else -1
  {
  }

  lemma {:induction false} TurnsAdd(step: nat)
    requires step <= |TURN_SEQUENCE|
    ensures TurnsBefore(Turn(Blue, Ban), step) + TurnsBefore(Turn(Red, Ban), step)
            + TurnsBefore(Turn(Blue, Pick), step) + TurnsBefore(Turn(Red, Pick), step) == step
  {
    if step > 0 { TurnsAdd(step - 1); }
  }

  /** In every run, undos included, the current game has as many calls as steps, and
      Blue's lead over Red is what the phases say: never more than one. */
  lemma NoSideGetsAhead(captains: Sides<int>, number: int, run: seq<Command>)
    ensures var g := HandledAll(NewDraft(captains, number), run).current;
            && |g.bans.blue| - |g.bans.red| == Lead(Ban, g.step) && |g.picks.blue| - |g.picks.red| == Lead(Pick, g.step)
            && |g.bans.blue| + |g.bans.red| + |g.picks.blue| + |g.picks.red| == g.step <= 20
  {
    var start := NewDraft(captains, number);
    EveryRunReplays(start, run);
    var ops := Net(start, run);
    LegalSucceeds(start, ops);
    BoardIsDealt(start, ops);
    var g, called := Replay(start, ops).current, CalledIn(ops);
    hide Replay, CalledIn, HandledAll, Net, Lead;
    BoardSizes(g, called);
    TableIsThePhases(g.step);
    TurnsLead(Ban, g.step);
    TurnsLead(Pick, g.step);
    TurnsAdd(g.step);
  }

  lemma BoardSizes(g: Game, called: seq<string>)
    requires IsBoardOf(g, called)
    ensures |g.bans.blue| == TurnsBefore(Turn(Blue, Ban), g.step) && |g.bans.red| == TurnsBefore(Turn(Red, Ban), g.step)
    ensures |g.picks.blue| == TurnsBefore(Turn(Blue, Pick), g.step) && |g.picks.red| == TurnsBefore(Turn(Red, Pick), g.step)
  {
    hide Dealt, TurnsBefore;
    DealtSize(called, Turn(Blue, Ban));
    DealtSize(called, Turn(Red, Ban));
    DealtSize(called, Turn(Blue, Pick));
    DealtSize(called, Turn(Red, Pick));
    assert ListOf(g, Turn(Blue, Ban)) == Dealt(called, Turn(Blue, Ban)) && ListOf(g, Turn(Red, Ban)) == Dealt(called, Turn(Red, Ban));
    assert ListOf(g, Turn(Blue, Pick)) == Dealt(called, Turn(Blue, Pick)) && ListOf(g, Turn(Red, Pick)) == Dealt(called, Turn(Red, Pick));
  }

  // ---- Claim messages -----------------------------------------------------------------------

  /** The command advances to the next game. */
  predicate Advances(d: Draft, c: Command) { c.Next? && Perform(d, OpNext).Ok? }

  /** A posted claim message is kept for its side until another is posted for it or
      the next game begins. */
  lemma CommandMessages(d: Draft, c: Command, side: Team)
    ensures At(Handled(d, c).claimMessages, side) ==
              if c.Announce? && c.side == side then Some(c.messageId) else if Advances(d, c) then None else At(d.claimMessages, side)
  {
  }

  ghost predicate LastPosted(start: Draft, run: seq<Command>, i: nat, side: Team, messageId: int)
    requires i < |run|
  {
    && run[i] == Announce(side, messageId)
    && forall j :: i < j < |run| ==> !(run[j].Announce? && run[j].side == side) && !Advances(HandledAll(start, run[..j]), run[j])
  }

  /** In every run, undos included, the message a draft knows for a side is the last
      one posted for it in the current game. */
  lemma {:induction false} MessagesAreTheLastPosted(captains: Sides<int>, number: int, run: seq<Command>, side: Team)
    requires At(HandledAll(NewDraft(captains, number), run).claimMessages, side).Some?
    ensures var start := NewDraft(captains, number);
            exists i :: 0 <= i < |run| && LastPosted(start, run, i, side, At(HandledAll(start, run).claimMessages, side).value)
    decreases |run|
  {
    hide Handled, Advances;
    var start := NewDraft(captains, number);
    if run != [] {
      var n := |run| - 1;
      var before, last := run[..n], run[n];
      CommandMessages(HandledAll(start, before), last, side);
      var messageId := At(HandledAll(start, run).claimMessages, side).value;
      if last.Announce? && last.side == side {
        assert LastPosted(start, run, n, side, messageId);
      } else {
        MessagesAreTheLastPosted(captains, number, before, side);
        var i :| 0 <= i < n && LastPosted(start, before, i, side, messageId);
        forall j | 0 <= j < n ensures before[j] == run[j] && before[..j] == run[..j] { }
        assert LastPosted(start, run, i, side, messageId);
      }
    }
  }
}
