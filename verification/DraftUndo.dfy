/** Undo is an exact inverse, over whole runs. */
module DraftUndo {
  import opened Common
  import opened Draft

  function ReportOf(d: Draft, op: Op): Report
    requires Perform(d, op).Ok?
  {
    match op
    case OpStep(god) => UndidStep(CurrentTurn(d.current).value, god)
    case OpClaim(team, god, who) => UndidClaim(team, god, who.name)
    case OpNext => UndidNext(d.current.number)
  }

  /** Undoing an operation that just succeeded reports that operation and
      restores the whole draft, but for the claim messages an advance forgets. */
  lemma UndoInverts(d: Draft, op: Op)
    requires Perform(d, op).Ok?
    ensures Undone(Perform(d, op).value) ==
              (if op.OpNext? then d.(claimMessages := Sides(None, None)) else d, Undid(ReportOf(d, op)))
  {
    var e := Perform(d, op).value;
    assert e.undoStack[..|e.undoStack| - 1] == d.undoStack;
    match op
    case OpStep(god) =>
      var turn := TURN_SEQUENCE[d.current.step];
      var gods := ListOf(d.current, turn);
      assert (gods + [god])[..|gods|] == gods;
      WithListBack(d.current, turn, gods + [god]);
    case OpClaim(team, god, who) =>
      var claims := At(d.current.claims, team);
      assert claims[god := who] - {god} == claims;
    case OpNext =>
      assert (d.completed + [d.current])[..|d.completed|] == d.completed;
  }

  lemma WithListBack(g: Game, turn: Turn, gods: seq<string>)
    ensures ListOf(WithList(g, turn, gods), turn) == gods
    ensures WithList(WithList(g, turn, gods), turn, ListOf(g, turn)) == g
    ensures forall other :: other != turn ==> ListOf(WithList(g, turn, gods), other) == ListOf(g, other)
  {
  }

  /** So an advance taken back is fully restored exactly when no claim message
      was posted before it. */
  lemma AdvanceForgetsMessages(d: Draft)
    requires Perform(d, OpNext).Ok?
    ensures Undone(Perform(d, OpNext).value).0 == d <==> d.claimMessages == Sides(None, None)
  {
    UndoInverts(d, OpNext);
  }

  lemma UndoInvertsPlain(d: Draft, op: Op)
    requires Perform(d, op).Ok?
    ensures Plain(Undone(Perform(d, op).value).0) == Plain(d)
  {
    UndoInverts(d, op);
  }

  // ---- Replaying operations ---------------------------------------------------

  /** The draft up to the claim messages. */
  function Plain(d: Draft): Draft { d.(claimMessages := Sides(None, None)) }

  lemma PlainPerform(d: Draft, op: Op)
    ensures Perform(Plain(d), op).Ok? == Perform(d, op).Ok?
    ensures Perform(d, op).Ok? ==> Plain(Perform(Plain(d), op).value) == Plain(Perform(d, op).value)
  {
  }

  lemma PlainUndone(d: Draft)
    ensures Plain(Undone(d).0) == Plain(Undone(Plain(d)).0) && Undone(d).1 == Undone(Plain(d)).1
  {
  }

  /** What callers are allowed to call: a god that is still available. */
  ghost predicate Allowed(d: Draft, op: Op) { op.OpStep? ==> op.god !in Unavailable(d) }

  /** The operations, in order, all succeed. */
  ghost predicate Succeeds(start: Draft, ops: seq<Op>) {
    ops == [] ||
    var n := |ops| - 1;
    Succeeds(start, ops[..n]) && Perform(Replay(start, ops[..n]), ops[n]).Ok?
  }

  function Replay(start: Draft, ops: seq<Op>): Draft {
    if ops == [] then start
    else
      var n := |ops| - 1;
      var d := Replay(start, ops[..n]);
      if Perform(d, ops[n]).Ok? then Perform(d, ops[n]).value else d
  }

  function UndoneTimes(d: Draft, n: nat): Draft
    decreases n
  {
    if n == 0 then d else UndoneTimes(Undone(d).0, n - 1)
  }

  lemma {:induction false} PlainUndoneTimes(d: Draft, n: nat)
    ensures Plain(UndoneTimes(d, n)) == Plain(UndoneTimes(Plain(d), n))
    decreases n
  {
    if n > 0 {
      PlainUndone(d);
      PlainUndoneTimes(Undone(d).0, n - 1);
      PlainUndoneTimes(Undone(Plain(d)).0, n - 1);
    }
  }

  /** After any interleaving of successful steps, claims and game advances, n
      undos lead back to where the draft was n operations ago: current game,
      completed games, fearless pool, claims and the stack itself. */
  lemma {:induction false} UndosRestore(start: Draft, ops: seq<Op>, n: nat)
    requires Succeeds(start, ops) && n <= |ops|
    ensures Plain(UndoneTimes(Replay(start, ops), n)) == Plain(Replay(start, ops[..|ops| - n]))
    decreases n
  {
    hide Perform, Undone, Plain;
    if n == 0 {
      assert ops[..|ops|] == ops;
    } else {
      var m := |ops| - 1;
      var before := Replay(start, ops[..m]);
      UndoInvertsPlain(before, ops[m]);
      var back := Undone(Replay(start, ops)).0;
      PlainUndoneTimes(back, n - 1);
      PlainUndoneTimes(before, n - 1);
      UndosRestore(start, ops[..m], n - 1);
      assert ops[..m][..m - (n - 1)] == ops[..|ops| - n];
    }
  }

  // ---- Every run, undos included ----------------------------------------------

  /** The operations still in effect: an undo takes back the last of them. */
  function NetAfter(d: Draft, ops: seq<Op>, c: Command): seq<Op> {
    if c.UndoLast? then (if ops == [] then [] else ops[..|ops| - 1])
    else
      var op := Accepted(d, c);
      if op.Some? && Perform(d, op.value).Ok? then ops + [op.value] else ops
  }

  function Net(start: Draft, run: seq<Command>): seq<Op> {
    if run == [] then []
    else
      var n := |run| - 1;
      NetAfter(HandledAll(start, run[..n]), Net(start, run[..n]), run[n])
  }

  /** Every operation succeeded, on a god that was then available. */
  ghost predicate Legal(start: Draft, ops: seq<Op>) {
    ops == [] ||
    var n := |ops| - 1;
    && Legal(start, ops[..n])
    && Perform(Replay(start, ops[..n]), ops[n]).Ok?
    && Allowed(Replay(start, ops[..n]), ops[n])
  }

  lemma {:induction false} LegalSucceeds(start: Draft, ops: seq<Op>)
    requires Legal(start, ops)
    ensures Succeeds(start, ops)
  {
    if ops != [] { LegalSucceeds(start, ops[..|ops| - 1]); }
  }

  lemma {:induction false} StackGrows(start: Draft, ops: seq<Op>)
    requires Succeeds(start, ops)
    ensures |Replay(start, ops).undoStack| == |start.undoStack| + |ops|
  {
    if ops != [] { StackGrows(start, ops[..|ops| - 1]); }
  }

  /** A draft is what the operations in effect make of the new draft. */
  ghost predicate Traces(start: Draft, d: Draft, ops: seq<Op>) {
    Legal(start, ops) && Plain(d) == Plain(Replay(start, ops))
  }

  lemma AcceptedIsAllowed(d: Draft, c: Command)
    requires Accepted(d, c).Some?
    ensures Allowed(d, Accepted(d, c).value)
  {
  }

  /** An undo finds something to take back exactly when an operation is in
      effect, reports that operation, and never pops an empty list. */
  lemma UndoReportsTheLast(start: Draft, d: Draft, ops: seq<Op>)
    requires start.undoStack == [] && Traces(start, d, ops)
    ensures Undone(d).1 == if ops == [] then NothingUndone
                           else Undid(ReportOf(Replay(start, ops[..|ops| - 1]), ops[|ops| - 1]))
    ensures Traces(start, Undone(d).0, if ops == [] then [] else ops[..|ops| - 1])
  {
    PlainUndone(d);
    PlainUndone(Replay(start, ops));
    LegalSucceeds(start, ops);
    StackGrows(start, ops);
    if ops != [] {
      UndoInverts(Replay(start, ops[..|ops| - 1]), ops[|ops| - 1]);
    }
  }

  lemma TraceStep(start: Draft, d: Draft, ops: seq<Op>, c: Command)
    requires start.undoStack == [] && Traces(start, d, ops)
    ensures Traces(start, Handled(d, c), NetAfter(d, ops, c))
  {
    if c.UndoLast? {
      UndoReportsTheLast(start, d, ops);
    } else if Accepted(d, c).Some? && Perform(d, Accepted(d, c).value).Ok? {
      var op := Accepted(d, c).value;
      var r := Replay(start, ops);
      AcceptedIsAllowed(d, c);
      assert Unavailable(d) == Unavailable(r);
      PlainPerform(d, op);
      PlainPerform(r, op);
      assert (ops + [op])[..|ops|] == ops;
    }
  }

  /** Every run of captains' calls, web calls, claims, advances and undos leaves
      the draft as the operations still in effect, replayed, leave it. */
  lemma {:induction false} EveryRunReplays(start: Draft, run: seq<Command>)
    requires start.undoStack == []
    ensures Traces(start, HandledAll(start, run), Net(start, run))
  {
    if run != [] {
      var n := |run| - 1;
      EveryRunReplays(start, run[..n]);
      TraceStep(start, HandledAll(start, run[..n]), Net(start, run[..n]), run[n]);
    }
  }

  /** And so in every run no undo crashes, and it reports nothing only when
      nothing is in effect. */
  lemma UndoNeverCrashes(start: Draft, run: seq<Command>)
    requires start.undoStack == []
    ensures Undone(HandledAll(start, run)).1 != Crashed
    ensures Undone(HandledAll(start, run)).1 == NothingUndone <==> Net(start, run) == []
  {
    EveryRunReplays(start, run);
    UndoReportsTheLast(start, HandledAll(start, run), Net(start, run));
  }
}
