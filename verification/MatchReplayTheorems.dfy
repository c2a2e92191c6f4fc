/** Runs of continue_match with crashes: one action for each match, checkpoints in
    order, and the same end as without a crash. */
module MatchReplayTheorems {
  import opened Common
  import opened MatchRecords
  import opened MatchContinuity
  import opened MatchProjection
  import opened MatchReplay
  import opened PartyQueueReplay
  import PQ = PartyQueue

  // ---- One projection, restarted ------------------------------------------------

  lemma FirstPartRestarts(w: World, key: Key, life: nat)
    requires key in w.rows && Complete(w.rows[key].decision) && FirstPart(w.rows[key].decision).Some?
    requires !w.rows[key].decision.queueProjected ==> QueueApart(w, w.rows[key].decision)
    ensures var d := w.rows[key].decision;
            var part := FirstPart(d).value.effects + [FirstPart(d).value.mark];
            var (q, stopped) := Take(Process(w, false), key, d, part, life);
            stopped.Some? ==> q.world.rows == w.rows && All(Restarted(q), key, d, part) == All(Process(w, false), key, d, part)
  {
    var d := w.rows[key].decision;
    var f := FirstPart(d).value;
    var p := Process(w, false);
    assert Restarts(p, key, d, f.effects, life) by {
      if !d.queueProjected { QueueRestarts(p, key, d, life); }
      else if !d.roomsProjected { RoomsRestart(p, key, d, life); }
      else { DraftRestarts(p, key, d, life); }
    }
    PhaseRestarts(p, key, d, f.effects, f.mark, life);
  }

  function PartOf(d: Decision): seq<Effect>
    requires Complete(d) && FirstPart(d).Some?
  {
    FirstPart(d).value.effects + [FirstPart(d).value.mark]
  }

  /** The first part of a projection, never interrupted. */
  function FirstDone(w: World, key: Key): (Process, Option<Outcome>)
    requires key in w.rows && Complete(w.rows[key].decision) && FirstPart(w.rows[key].decision).Some?
  {
    All(Process(w, false), key, w.rows[key].decision, PartOf(w.rows[key].decision))
  }

  /** An uninterrupted projection ends where its first part stops, or as the
      projection that goes on from there. */
  lemma EndedByFirst(w: World, key: Key)
    requires key in w.rows && Complete(w.rows[key].decision) && InStages(w.rows[key].decision) && FirstPart(w.rows[key].decision).Some?
    ensures var (q, stopped) := FirstDone(w, key);
            if stopped.Some? then Ended(w, key) == (q.world, stopped.value)
            else GoesOn(w, q.world, key) && Ended(w, key) == Ended(q.world, key)
  {
    var d := w.rows[key].decision;
    var n := |Plan(d)|;
    FirstPartTaken(w, key, n);
    PlanFromFirst(d);
    TakeLives(Process(w, false), key, d, PartOf(d), n);
    var (q, stopped) := FirstDone(w, key);
    if stopped.None? {
      var e := q.world.rows[key].decision;
      var reused :| e == Marked(d, FirstPart(d).value.mark, reused);
      MarkProgresses(d, e, reused);
      hide Take, Project, Plan, FirstPart, Complete, Marked, InStages;
      assert Plan(d) == PartOf(d) + FirstPart(d).value.rest;
    }
  }

  ghost predicate GoesOn(w: World, v: World, key: Key)
    requires key in w.rows
  {
    && key in v.rows && Complete(v.rows[key].decision) && InStages(v.rows[key].decision)
    && Unset(v.rows[key].decision) < Unset(w.rows[key].decision)
    && v.rows[key].decision.queueProjected
  }

  lemma CutByFirst(w: World, key: Key, life: nat)
    requires key in w.rows && Complete(w.rows[key].decision) && InStages(w.rows[key].decision) && FirstPart(w.rows[key].decision).Some?
    ensures var d := w.rows[key].decision;
            var (q, stopped) := Take(Process(w, false), key, d, PartOf(d), life);
            if stopped.Some? then Project(w, key, life).0 == q.world && q.world.rows == w.rows
            else GoesOn(w, q.world, key) && FirstDone(w, key) == (q, None) && life >= |PartOf(d)|
                 && Project(w, key, life) == Project(q.world, key, life - |PartOf(d)|)
  {
    var d := w.rows[key].decision;
    FirstPartTaken(w, key, life);
    TakeLives(Process(w, false), key, d, PartOf(d), life);
    var (q, stopped) := Take(Process(w, false), key, d, PartOf(d), life);
    if stopped.None? {
      var e := q.world.rows[key].decision;
      var reused :| e == Marked(d, FirstPart(d).value.mark, reused);
      MarkProgresses(d, e, reused);
    }
  }

  /** The projection of a decision, killed after any number of steps or refused by
      a step, and then run again, ends in the world and with the outcome of one
      run that is never interrupted. */
  lemma {:induction false} ProjectionRestarts(w: World, key: Key, life: nat)
    requires key in w.rows && Complete(w.rows[key].decision) && InStages(w.rows[key].decision)
    requires !w.rows[key].decision.queueProjected ==> QueueApart(w, w.rows[key].decision)
    ensures var v := Project(w, key, life).0;
            key in v.rows && Complete(v.rows[key].decision) && Ended(v, key) == Ended(w, key)
    decreases Unset(w.rows[key].decision)
  {
    var d := w.rows[key].decision;
    if FirstPart(d).None? {
      PlanFromFirst(d);
    } else {
      CutByFirst(w, key, life);
      EndedByFirst(w, key);
      FirstPartRestarts(w, key, life);
      var (q, stopped) := Take(Process(w, false), key, d, PartOf(d), life);
      hide Take, Plan, FirstPart, Complete, QueueApart, Project, InStages, Unset;
      if stopped.Some? {
        EndedByFirst(q.world, key);
        assert FirstDone(q.world, key) == FirstDone(w, key);
      } else {
        ProjectionRestarts(q.world, key, life - |PartOf(d)|);
      }
    }
  }

  // ---- Members stay apart -------------------------------------------------------

  lemma StepKeepsApart(p: Process, key: Key, d: Decision, e: Effect)
    requires Step(p, key, d, e).Ok? && QueueApart(p.world, d)
    ensures QueueApart(Step(p, key, d, e).value.world, d)
  {
    hide PQ.Left, PQ.RosterReset, Apart;
    if d.lobbyId in p.world.queues {
      var q := p.world.queues[d.lobbyId];
      match e
      case LeaveQueue(user) => LeftApart(q, user);
      case ResetQueue(ids) => ResetTwice(q, ids);
      case _ =>
    }
  }

  lemma {:induction false} TakeKeepsApart(p: Process, key: Key, d: Decision, effects: seq<Effect>, life: nat)
    requires QueueApart(p.world, d)
    ensures QueueApart(Take(p, key, d, effects, life).0.world, d)
    decreases |effects|
  {
    hide Step, QueueApart;
    if effects != [] && life > 0 && Step(p, key, d, effects[0]).Ok? {
      StepKeepsApart(p, key, d, effects[0]);
      TakeKeepsApart(Step(p, key, d, effects[0]).value, key, d, effects[1..], life - 1);
    }
  }

  // ---- Runs of attempts -----------------------------------------------------------

  lemma ProjectKeepsApart(w: World, key: Key, life: nat)
    requires key in w.rows && Complete(w.rows[key].decision) && QueueApart(w, w.rows[key].decision)
    ensures QueueApart(Project(w, key, life).0, w.rows[key].decision)
  {
    hide Take, Plan, QueueApart;
    var d := w.rows[key].decision;
    TakeKeepsApart(Process(w, false), key, d, Plan(d), life);
  }

  /** The second world keeps every decision of the first: the action always, and
      all but the flags once the decision is no longer waiting. */
  ghost predicate KeepsDecisions(w: World, v: World) {
    forall k :: k in w.rows ==> k in v.rows && KeepsDecision(w.rows[k].decision, v.rows[k].decision)
  }

  ghost predicate KeepsDecision(d: Decision, e: Decision) {
    && e.action == d.action && e.lobbyId == d.lobbyId
    && (d.status != AwaitingSubstitutes ==> Progressed(d, e))
  }

  lemma OrderlyIsInStages(w: World, key: Key)
    requires Orderly(w) && key in w.rows
    ensures Complete(w.rows[key].decision) && InStages(w.rows[key].decision)
  {
    assert OrderlyRow(key, w.rows[key].decision);
  }

  lemma DecideKeepsDecisions(w: World, c: Call)
    requires Orderly(w) && Decide(w, c).Ok?
    ensures KeepsDecisions(w, Decide(w, c).value.0)
  {
    hide BuildResult, OrderlyRow;
    var key := KeyOf(c);
    if key in w.rows && w.rows[key].decision.status == AwaitingSubstitutes {
      var departures := set id | id in Departing(w.rows[key].decision.changes);
      BuildsOrderly(c.record, c.lobbyId, w.queues[c.lobbyId], c.action, departures);
    } else if key !in w.rows {
      BuildsOrderly(c.record, c.lobbyId, w.queues[c.lobbyId], c.action, c.departing);
    }
  }

  /** Every attempt, of any match and any action, crashing or not, keeps the
      checkpoints in order and every action already chosen. */
  lemma AttemptKeeps(w: World, c: Call, life: nat)
    requires Orderly(w)
    ensures Orderly(Attempt(w, c, life).0) && KeepsDecisions(w, Attempt(w, c, life).0)
  {
    if life > 0 && Decide(w, c).Ok? {
      DecideKeepsOrder(w, c);
      DecideKeepsDecisions(w, c);
      var (v, d) := Decide(w, c).value;
      var key := KeyOf(c);
      if d.status != AwaitingSubstitutes {
        OrderlyIsInStages(v, key);
        ProjectionRows(v, key, life - 1);
        var (u, outcome) := Project(v, key, life - 1);
        assert OrderlyRow(key, v.rows[key].decision);
        hide Decide, Project, KeepsDecisions;
        ProgressKeeps(v, key, u, outcome);
        KeepsTransitive(w, v, u);
      }
    }
  }

  lemma ProgressKeeps(w: World, key: Key, v: World, outcome: Outcome)
    requires Orderly(w) && key in w.rows && RowsAfter(w, key, v, outcome) && w.rows[key].decision.status != AwaitingSubstitutes
    ensures Orderly(v) && KeepsDecisions(w, v)
  {
    assert OrderlyRow(key, w.rows[key].decision);
  }

  lemma KeepsTransitive(w: World, v: World, u: World)
    requires KeepsDecisions(w, v) && KeepsDecisions(v, u)
    ensures KeepsDecisions(w, u)
  {
    forall k | k in w.rows ensures k in u.rows && KeepsDecision(w.rows[k].decision, u.rows[k].decision) {
      assert KeepsDecision(w.rows[k].decision, v.rows[k].decision) && KeepsDecision(v.rows[k].decision, u.rows[k].decision);
      if w.rows[k].decision.status != AwaitingSubstitutes { ProgressOn(w.rows[k].decision, v.rows[k].decision, u.rows[k].decision); }
    }
  }

  datatype Try = Try(call: Call, life: nat)

  function AttemptAll(w: World, tries: seq<Try>): (v: World)
    requires Orderly(w)
    ensures Orderly(v)
    decreases |tries|
  {
    if tries == [] then w
    else
      AttemptKeeps(w, tries[0].call, tries[0].life);
      AttemptAll(Attempt(w, tries[0].call, tries[0].life).0, tries[1..])
  }

  /** So over any run at most one action is ever chosen for a match. */
  lemma {:induction false} EveryRunKeepsDecisions(w: World, tries: seq<Try>)
    requires Orderly(w)
    ensures Orderly(AttemptAll(w, tries)) && KeepsDecisions(w, AttemptAll(w, tries))
    decreases |tries|
  {
    hide Attempt, Orderly, KeepsDecisions;
    if tries == [] {
      KeepsItself(w);
    } else {
      AttemptKeeps(w, tries[0].call, tries[0].life);
      var v := Attempt(w, tries[0].call, tries[0].life).0;
      EveryRunKeepsDecisions(v, tries[1..]);
      KeepsTransitive(w, v, AttemptAll(v, tries[1..]));
    }
  }

  lemma KeepsItself(w: World)
    ensures KeepsDecisions(w, w)
  {
  }

  /** A decision that has been made and is not waiting for substitutes. */
  ghost predicate Made(w: World, key: Key) {
    && key in w.rows && w.rows[key].decision.status != AwaitingSubstitutes
    && QueueApart(w, w.rows[key].decision)
  }

  lemma AttemptOnMade(w: World, c: Call, life: nat)
    requires Orderly(w) && Made(w, KeyOf(c)) && life > 0
    ensures OrderlyRow(KeyOf(c), w.rows[KeyOf(c)].decision)
    ensures Attempt(w, c, life) ==
              if !IsWin(c.record.outcome) then (w, Failed(NoWinner))
              else if w.rows[KeyOf(c)].decision.action != c.action then (w, Failed(AlreadySelected))
              else Project(w, KeyOf(c), life - 1)
  {
    hide BuildResult, Project;
  }

  /** One more attempt at a decided match, crashing or not, changes nothing about
      how the projection will end. */
  lemma AttemptRestarts(w: World, c: Call, life: nat)
    requires Orderly(w) && Made(w, KeyOf(c))
    ensures var v := Attempt(w, c, life).0;
            OrderlyRow(KeyOf(c), w.rows[KeyOf(c)].decision)
            && Made(v, KeyOf(c)) && Complete(v.rows[KeyOf(c)].decision) && Ended(v, KeyOf(c)) == Ended(w, KeyOf(c))
            && v.rows[KeyOf(c)].decision.action == w.rows[KeyOf(c)].decision.action
  {
    var key := KeyOf(c);
    OrderlyIsInStages(w, key);
    assert OrderlyRow(key, w.rows[key].decision);
    if life > 0 {
      AttemptOnMade(w, c, life);
      ProjectionRows(w, key, life - 1);
      ProjectionRestarts(w, key, life - 1);
      ProjectKeepsApart(w, key, life - 1);
      hide Project, Attempt;
    }
  }

  lemma {:induction false} AttemptsRestart(w: World, key: Key, tries: seq<Try>)
    requires Orderly(w) && Made(w, key) && forall t :: t in tries ==> KeyOf(t.call) == key
    ensures OrderlyRow(key, w.rows[key].decision)
    ensures var v := AttemptAll(w, tries);
            && Orderly(v) && Made(v, key) && Complete(v.rows[key].decision) && Ended(v, key) == Ended(w, key)
            && v.rows[key].decision.action == w.rows[key].decision.action
    decreases |tries|
  {
    assert OrderlyRow(key, w.rows[key].decision);
    if tries != [] {
      var first := tries[0];
      assert first in tries;
      AttemptKeeps(w, first.call, first.life);
      AttemptRestarts(w, first.call, first.life);
      hide Attempt, Orderly, Made, Ended, OrderlyRow;
      var v := Attempt(w, first.call, first.life).0;
      assert AttemptAll(w, tries) == AttemptAll(v, tries[1..]);
      AttemptsRestart(v, key, tries[1..]);
    }
  }

  lemma {:induction false} TakeUntilDone(p: Process, key: Key, d: Decision, effects: seq<Effect>, life: nat)
    requires Take(p, key, d, effects, life).1 != Some(Crashed)
    ensures Take(p, key, d, effects, life) == All(p, key, d, effects)
    decreases |effects|
  {
    hide Step;
    if effects != [] && life > 0 && Step(p, key, d, effects[0]).Ok? {
      TakeUntilDone(Step(p, key, d, effects[0]).value, key, d, effects[1..], life - 1);
    }
  }

  /** The main result. Once a decision is made, take any sequence of attempts at
      the match, with any operation IDs, departures and actions, each crashing
      before any step it likes or refused on the way. The next attempt of the
      chosen action that does not crash leaves the world, and answers, as a
      single attempt without a crash would have. */
  lemma CrashesDoNotMatter(w: World, tries: seq<Try>, c: Call, life: nat)
    requires Orderly(w) && Made(w, KeyOf(c)) && forall t :: t in tries ==> KeyOf(t.call) == KeyOf(c)
    requires IsWin(c.record.outcome) && c.action == w.rows[KeyOf(c)].decision.action
    requires Attempt(AttemptAll(w, tries), c, life).1 != Crashed
    ensures OrderlyRow(KeyOf(c), w.rows[KeyOf(c)].decision)
    ensures Attempt(AttemptAll(w, tries), c, life) == Ended(w, KeyOf(c))
  {
    hide Attempt, Orderly, Made, Ended, OrderlyRow, Complete, AttemptAll;
    AttemptsRestart(w, KeyOf(c), tries);
    LastAttempt(AttemptAll(w, tries), c, life);
  }

  lemma LastAttempt(w: World, c: Call, life: nat)
    requires Orderly(w) && Made(w, KeyOf(c)) && Attempt(w, c, life).1 != Crashed
    requires IsWin(c.record.outcome) && c.action == w.rows[KeyOf(c)].decision.action
    ensures OrderlyRow(KeyOf(c), w.rows[KeyOf(c)].decision) && Attempt(w, c, life) == Ended(w, KeyOf(c))
  {
    assert life > 0;
    AttemptOnMade(w, c, life);
    hide Attempt, Orderly, Project, Ended, Made;
    ProjectUntilDone(w, KeyOf(c), life - 1);
  }

  lemma ProjectUntilDone(w: World, key: Key, life: nat)
    requires key in w.rows && Complete(w.rows[key].decision) && Project(w, key, life).1 != Crashed
    ensures Project(w, key, life) == Ended(w, key)
  {
    hide Take, Plan;
    var d := w.rows[key].decision;
    TakeUntilDone(Process(w, false), key, d, Plan(d), life);
  }

  /** The unique index on the next match's ID never refuses a decision: the ID is
      built from the match it continues. */
  lemma NextIdsNeverClash(w: World, guildId: int, d: Decision)
    requires Orderly(w) && OrderlyRow((guildId, d.source), d)
    ensures !NextIdUsed(w.rows, guildId, d.next, {(guildId, d.source)})
    ensures (guildId, d.source) !in w.rows ==> !NextIdUsed(w.rows, guildId, d.next, {})
  {
    forall k | k in w.rows && k.0 == guildId && d.next.Some? && w.rows[k].decision.next == d.next ensures k == (guildId, d.source) {
      assert OrderlyRow(k, w.rows[k].decision);
    }
  }
}
