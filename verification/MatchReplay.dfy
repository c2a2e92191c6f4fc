/** Crash and retry: a projection cut short anywhere and started over ends as one
    that was never interrupted. */
module MatchReplay {
  import opened Common
  import opened MatchContinuity
  import opened MatchProjection
  import opened PartyQueueReplay
  import PQ = PartyQueue

  // ---- Taking steps -----------------------------------------------------------

  lemma {:induction false} TakeSplits(p: Process, key: Key, d: Decision, a: seq<Effect>, b: seq<Effect>, life: nat)
    ensures var (q, stopped) := Take(p, key, d, a, life);
            Take(p, key, d, a + b, life) ==
              if stopped.Some? then (q, stopped) else if life < |a| then (q, Some(Crashed)) else Take(q, key, d, b, life - |a|)
    decreases |a|
  {
    hide Step;
    if a == [] {
      assert a + b == b;
    } else {
      assert (a + b)[0] == a[0] && (a + b)[1..] == a[1..] + b;
      if life > 0 && Step(p, key, d, a[0]).Ok? {
        TakeSplits(Step(p, key, d, a[0]).value, key, d, a[1..], b, life - 1);
      }
    }
  }

  lemma {:induction false} TakeLives(p: Process, key: Key, d: Decision, effects: seq<Effect>, life: nat)
    ensures Take(p, key, d, effects, life).1 == None ==> life >= |effects|
    ensures life >= |effects| ==> Take(p, key, d, effects, life).1 != Some(Crashed)
    ensures life >= |effects| ==> Take(p, key, d, effects, life) == Take(p, key, d, effects, |effects|)
    decreases |effects|
  {
    hide Step;
    if effects != [] && life > 0 && Step(p, key, d, effects[0]).Ok? {
      TakeLives(Step(p, key, d, effects[0]).value, key, d, effects[1..], life - 1);
    }
  }

  /** An attempt that is never interrupted. */
  function All(p: Process, key: Key, d: Decision, effects: seq<Effect>): (Process, Option<Outcome>) {
    Take(p, key, d, effects, |effects|)
  }

  // ---- The queue phase ----------------------------------------------------------

  function Settled(q: PQ.Queue, ids: seq<int>, roster: Option<seq<int>>): Result<PQ.Queue, PQ.QueueError> {
    PQ.RosterReset(LeftAll(q, ids), roster)
  }

  function Settling(ids: seq<int>, roster: Option<seq<int>>): seq<Effect> { Leaves(ids) + [ResetQueue(roster)] }

  lemma {:induction false} LeavesSize(ids: seq<int>)
    ensures |Leaves(ids)| == |ids|
  {
    if ids != [] { LeavesSize(ids[1..]); }
  }

  /** Taking departures changes the lobby's queue and nothing else. */
  lemma {:induction false} TakeLeaves(p: Process, key: Key, d: Decision, ids: seq<int>, life: nat)
    requires d.lobbyId in p.world.queues
    ensures var n := Min(life, |ids|);
            Take(p, key, d, Leaves(ids), life) ==
              (p.(world := WithQueue(p.world, d.lobbyId, LeftAll(p.world.queues[d.lobbyId], ids[..n]))),
               if life < |ids| then Some(Crashed) else None)
    decreases |ids|
  {
    hide PQ.Left, Step, WithQueue;
    var w, q := p.world, p.world.queues[d.lobbyId];
    var n := Min(life, |ids|);
    WithSameQueue(w, d.lobbyId);
    if ids != [] && life > 0 {
      var left := PQ.Left(q, ids[0]).0;
      var next := p.(world := WithQueue(w, d.lobbyId, left));
      StepLeave(p, key, d, ids[0]);
      TakeLeaves(next, key, d, ids[1..], life - 1);
      assert ids[..n][1..] == ids[1..][..n - 1];
      WithQueueTwice(w, d.lobbyId, left, LeftAll(left, ids[1..][..n - 1]));
    }
  }

  lemma WithSameQueue(w: World, lobbyId: string)
    requires lobbyId in w.queues
    ensures WithQueue(w, lobbyId, w.queues[lobbyId]) == w
  {
  }

  lemma StepLeave(p: Process, key: Key, d: Decision, userId: int)
    requires d.lobbyId in p.world.queues
    ensures var left := PQ.Left(p.world.queues[d.lobbyId], userId).0;
            var next := WithQueue(p.world, d.lobbyId, left);
            Step(p, key, d, LeaveQueue(userId)) == Ok(p.(world := next)) && d.lobbyId in next.queues && next.queues[d.lobbyId] == left
  {
    hide PQ.Left;
  }

  /** The whole queue phase at once. */
  lemma TakeSettling(p: Process, key: Key, d: Decision, ids: seq<int>, roster: Option<seq<int>>)
    requires d.lobbyId in p.world.queues
    ensures var q := p.world.queues[d.lobbyId];
            All(p, key, d, Settling(ids, roster)) ==
              match Settled(q, ids, roster)
              case Ok(r) => (p.(world := WithQueue(p.world, d.lobbyId, r)), None)
              case Err(e) => (p.(world := WithQueue(p.world, d.lobbyId, LeftAll(q, ids))), Some(Failed(QueueFailed(e))))
  {
    hide LeftAll, PQ.RosterReset, Leaves;
    var q := p.world.queues[d.lobbyId];
    LeavesSize(ids);
    TakeSplits(p, key, d, Leaves(ids), [ResetQueue(roster)], |ids| + 1);
    TakeLeaves(p, key, d, ids, |ids| + 1);
    assert ids[..|ids|] == ids;
    var away := p.(world := WithQueue(p.world, d.lobbyId, LeftAll(q, ids)));
    TakeOne(away, key, d, ResetQueue(roster));
    if Settled(q, ids, roster).Ok? { WithQueueTwice(p.world, d.lobbyId, LeftAll(q, ids), Settled(q, ids, roster).value); }
  }

  lemma WithQueueTwice(w: World, lobbyId: string, a: PQ.Queue, b: PQ.Queue)
    ensures WithQueue(WithQueue(w, lobbyId, a), lobbyId, b) == WithQueue(w, lobbyId, b)
  {
  }

  lemma TakeOne(p: Process, key: Key, d: Decision, e: Effect)
    ensures Take(p, key, d, [e], 1) == match Step(p, key, d, e)
                                       case Err(error) => (p, Some(Failed(error)))
                                       case Ok(next) => (next, None)
  {
    hide Step;
    assert [e][1..] == [];
  }

  /** What a cut-short queue phase leaves: some departures made, or all of them
      and the reset. */
  lemma SettlingLeaves(p: Process, key: Key, d: Decision, ids: seq<int>, roster: Option<seq<int>>, life: nat) returns (n: nat)
    requires d.lobbyId in p.world.queues
    ensures n <= |ids|
    ensures var q := p.world.queues[d.lobbyId];
            var r := Take(p, key, d, Settling(ids, roster), life).0;
            || r == p.(world := WithQueue(p.world, d.lobbyId, LeftAll(q, ids[..n])))
            || (Settled(q, ids, roster).Ok? && r == p.(world := WithQueue(p.world, d.lobbyId, Settled(q, ids, roster).value)))
  {
    hide LeftAll, PQ.RosterReset, Leaves, Take;
    LeavesSize(ids);
    n := Min(life, |ids|);
    TakeLeaves(p, key, d, ids, life);
    TakeSplits(p, key, d, Leaves(ids), [ResetQueue(roster)], life);
    if life > |ids| {
      TakeSettling(p, key, d, ids, roster);
      TakeLives(p, key, d, Settling(ids, roster), life);
      assert ids[..|ids|] == ids;
    } else if life == |ids| {
      TakeNone(Take(p, key, d, Leaves(ids), life).0, key, d, [ResetQueue(roster)]);
    }
  }

  lemma TakeNone(p: Process, key: Key, d: Decision, effects: seq<Effect>)
    ensures Take(p, key, d, effects, 0) == (p, if effects == [] then None else Some(Crashed))
  {
  }

  /** The queue phase, cut short anywhere and started over, ends the same: the
      same queue, or the same refusal. */
  lemma QueuePhaseRestarts(p: Process, key: Key, d: Decision, ids: seq<int>, roster: Option<seq<int>>, life: nat)
    requires d.lobbyId in p.world.queues ==> Apart(p.world.queues[d.lobbyId])
    ensures All(Take(p, key, d, Settling(ids, roster), life).0, key, d, Settling(ids, roster)) == All(p, key, d, Settling(ids, roster))
  {
    hide LeftAll, PQ.RosterReset, Leaves, Apart;
    if d.lobbyId !in p.world.queues {
      NoQueueNoStep(p, key, d, ids, roster, life);
    } else {
      hide Take;
      var n := SettlingLeaves(p, key, d, ids, roster, life);
      var q := p.world.queues[d.lobbyId];
      var r := Take(p, key, d, Settling(ids, roster), life).0;
      var mid := r.world.queues[d.lobbyId];
      assert r == p.(world := WithQueue(p.world, d.lobbyId, mid));
      TakeSettling(p, key, d, ids, roster);
      TakeSettling(r, key, d, ids, roster);
      WithQueueTwice(p.world, d.lobbyId, mid, LeftAll(mid, ids));
      if Settled(mid, ids, roster).Ok? { WithQueueTwice(p.world, d.lobbyId, mid, Settled(mid, ids, roster).value); }
      DeparturesRestart(q, ids, n);
      if Settled(q, ids, roster).Ok? { SettlingRestarts(q, ids, roster); }
      hide WithQueue, Settling;
    }
  }

  lemma NoQueueNoStep(p: Process, key: Key, d: Decision, ids: seq<int>, roster: Option<seq<int>>, life: nat)
    requires d.lobbyId !in p.world.queues
    ensures Take(p, key, d, Settling(ids, roster), life).0 == p
  {
    if ids == [] {
      assert Settling(ids, roster) == [ResetQueue(roster)];
    } else {
      assert Settling(ids, roster)[0] == LeaveQueue(ids[0]);
    }
  }

  // ---- One phase and its mark ---------------------------------------------------

  /** The same process after a restart: the world stays, memory is lost. */
  function Restarted(p: Process): Process { Process(p.world, false) }

  /** These steps, cut short anywhere and started over, end the same, and never
      touch the stored decisions. */
  ghost predicate Restarts(p: Process, key: Key, d: Decision, effects: seq<Effect>, life: nat) {
    var q := Take(p, key, d, effects, life).0;
    q.world.rows == p.world.rows && All(Restarted(q), key, d, effects) == All(p, key, d, effects)
  }

  lemma {:induction false} SettlingKeepsRows(p: Process, key: Key, d: Decision, ids: seq<int>, roster: Option<seq<int>>, life: nat)
    ensures var q := Take(p, key, d, Settling(ids, roster), life).0;
            q == p.(world := p.world.(queues := q.world.queues))
  {
    hide LeftAll, PQ.RosterReset, Leaves, Take, Settling;
    if d.lobbyId in p.world.queues {
      var _ := SettlingLeaves(p, key, d, ids, roster, life);
    } else {
      NoQueueNoStep(p, key, d, ids, roster, life);
    }
  }

  lemma QueueRestarts(p: Process, key: Key, d: Decision, life: nat)
    requires Complete(d) && !p.reused && (d.lobbyId in p.world.queues ==> Apart(p.world.queues[d.lobbyId]))
    ensures Restarts(p, key, d, QueueEffects(d), life)
  {
    hide Take, Leaves, Apart;
    match d.status
    case Queued =>
      assert QueueEffects(d) == Settling([], None) by { assert Leaves([]) == [] by { LeavesSize([]); } }
      QueuePhaseRestarts(p, key, d, [], None, life);
      SettlingKeepsRows(p, key, d, [], None, life);
    case Ready =>
      var ids, roster := Departing(d.changes), Some(ActiveIds(d));
      assert QueueEffects(d) == Settling(ids, roster);
      QueuePhaseRestarts(p, key, d, ids, roster, life);
      SettlingKeepsRows(p, key, d, ids, roster, life);
    case AwaitingSubstitutes =>
      NothingRestarts(p, key, d, life);
  }

  lemma NothingRestarts(p: Process, key: Key, d: Decision, life: nat)
    requires !p.reused
    ensures Restarts(p, key, d, [], life)
  {
  }

  /** A single step that may be repeated restarts. */
  lemma OneRestarts(p: Process, key: Key, d: Decision, e: Effect, life: nat)
    requires !p.reused
    requires Step(p, key, d, e).Ok? ==>
               var q := Step(p, key, d, e).value;
               q.world.rows == p.world.rows && Step(Restarted(q), key, d, e) == Ok(q)
    ensures Restarts(p, key, d, [e], life)
  {
    hide Step;
    TakeOne(p, key, d, e);
    TakeLives(p, key, d, [e], life);
    if life == 0 { TakeNone(p, key, d, [e]); }
    if Step(p, key, d, e).Ok? { TakeOne(Restarted(Step(p, key, d, e).value), key, d, e); }
  }

  lemma RoomsRestart(p: Process, key: Key, d: Decision, life: nat)
    requires Complete(d) && !p.reused
    ensures Restarts(p, key, d, RoomEffects(d), life)
  {
    hide Take;
    if d.status == Ready {
      var ids := ActiveIds(d);
      var rooms := p.world.rooms;
      assert rooms[d.lobbyId := Dedup(ids)][d.lobbyId := Dedup(ids)] == rooms[d.lobbyId := Dedup(ids)];
      OneRestarts(p, key, d, SyncRooms(ids), life);
    } else {
      NothingRestarts(p, key, d, life);
    }
  }

  lemma DraftRestarts(p: Process, key: Key, d: Decision, life: nat)
    requires !p.reused
    ensures Restarts(p, key, d, DraftEffects(d), life)
  {
    hide Take;
    if d.status == Ready { OneRestarts(p, key, d, StartMatch, life); } else { NothingRestarts(p, key, d, life); }
  }

  predicate IsMark(e: Effect) { e == MarkQueue || e == MarkRooms || e == MarkDraft }

  lemma MarkSucceeds(p: Process, key: Key, d: Decision, mark: Effect)
    requires IsMark(mark) && key in p.world.rows
    ensures Step(p, key, d, mark).Ok?
  {
  }

  /** A phase with its mark, when it stops before the mark, starts over as if it
      had not been tried. */
  lemma PhaseRestarts(p: Process, key: Key, d: Decision, effects: seq<Effect>, mark: Effect, life: nat)
    requires IsMark(mark) && key in p.world.rows && Restarts(p, key, d, effects, life)
    ensures var (q, stopped) := Take(p, key, d, effects + [mark], life);
            stopped.Some? ==>
              q.world.rows == p.world.rows && All(Restarted(q), key, d, effects + [mark]) == All(p, key, d, effects + [mark])
  {
    hide Take, Step;
    var (q, stopped) := Take(p, key, d, effects + [mark], life);
    var (r, early) := Take(p, key, d, effects, life);
    TakeSplits(p, key, d, effects, [mark], life);
    TakeLives(p, key, d, effects, life);
    if early.None? {
      MarkSucceeds(r, key, d, mark);
      TakeOne(r, key, d, mark);
      TakeLives(r, key, d, [mark], life - |effects|);
      if life == |effects| { TakeNone(r, key, d, [mark]); }
    }
    if stopped.Some? {
      assert q == r;
      TakeSplits(Restarted(q), key, d, effects, [mark], |effects| + 1);
      TakeSplits(p, key, d, effects, [mark], |effects| + 1);
      TakeLives(Restarted(q), key, d, effects, |effects| + 1);
      TakeLives(p, key, d, effects, |effects| + 1);
    }
  }

  // ---- The whole projection ---------------------------------------------------

  /** A projection that is never interrupted. */
  function Ended(w: World, key: Key): (World, Outcome)
    requires key in w.rows && Complete(w.rows[key].decision)
  {
    Project(w, key, |Plan(w.rows[key].decision)|)
  }

  ghost predicate QueueApart(w: World, d: Decision) { d.lobbyId in w.queues ==> Apart(w.queues[d.lobbyId]) }

  /** The parts of a decision the steps read. */
  predicate SameTask(d: Decision, e: Decision) {
    d.lobbyId == e.lobbyId && d.next == e.next && d.teamOne == e.teamOne && d.teamTwo == e.teamTwo
  }

  lemma StepSameTask(p: Process, key: Key, d: Decision, e: Decision, effect: Effect)
    requires SameTask(d, e)
    ensures Step(p, key, d, effect) == Step(p, key, e, effect)
  {
    hide PQ.Left, PQ.RosterReset;
  }

  lemma {:induction false} TakeSameTask(p: Process, key: Key, d: Decision, e: Decision, effects: seq<Effect>, life: nat)
    requires SameTask(d, e)
    ensures Take(p, key, d, effects, life) == Take(p, key, e, effects, life)
    decreases |effects|
  {
    hide Step;
    if effects != [] && life > 0 {
      StepSameTask(p, key, d, e, effects[0]);
      if Step(p, key, d, effects[0]).Ok? { TakeSameTask(Step(p, key, d, effects[0]).value, key, d, e, effects[1..], life - 1); }
    }
  }

  /** Steps that do not record it go the same way whatever was reused. */
  lemma {:induction false} TakeSameWorld(p: Process, q: Process, key: Key, d: Decision, effects: seq<Effect>, life: nat)
    requires p.world == q.world && MarkRooms !in effects
    ensures Take(p, key, d, effects, life).0.world == Take(q, key, d, effects, life).0.world
    ensures Take(p, key, d, effects, life).1 == Take(q, key, d, effects, life).1
    decreases |effects|
  {
    if effects != [] && life > 0 {
      StepSameWorld(p, q, key, d, effects[0]);
      hide Step;
      if Step(p, key, d, effects[0]).Ok? {
        TakeSameWorld(Step(p, key, d, effects[0]).value, Step(q, key, d, effects[0]).value, key, d, effects[1..], life - 1);
      }
    }
  }

  lemma StepSameWorld(p: Process, q: Process, key: Key, d: Decision, e: Effect)
    requires p.world == q.world && e != MarkRooms
    ensures match (Step(p, key, d, e), Step(q, key, d, e))
            case (Ok(a), Ok(b)) => a.world == b.world
            case (Err(a), Err(b)) => a == b
            case _ => false
  {
    hide PQ.Left, PQ.RosterReset;
  }

  /** Once a part of the plan and its mark are done, what is left is the
      projection from there on. */
  lemma PartDone(w: World, key: Key, part: seq<Effect>, rest: seq<Effect>, life: nat)
    requires key in w.rows && Complete(w.rows[key].decision) && Plan(w.rows[key].decision) == part + rest
    requires var d := w.rows[key].decision;
             var (p, stopped) := Take(Process(w, false), key, d, part, life);
             && stopped.None? && life >= |part| && key in p.world.rows && (p.reused ==> MarkRooms !in rest)
             && var e := p.world.rows[key].decision; SameTask(d, e) && Complete(e) && Plan(e) == rest
    ensures var d := w.rows[key].decision;
            var p := Take(Process(w, false), key, d, part, life).0;
            Project(w, key, life) == Project(p.world, key, life - |part|)
  {
    hide Plan, SameTask, Complete, Step, Take;
    var d := w.rows[key].decision;
    var p := Take(Process(w, false), key, d, part, life).0;
    var e := p.world.rows[key].decision;
    TakeSplits(Process(w, false), key, d, part, rest, life);
    TakeSameTask(p, key, d, e, rest, life - |part|);
    if p.reused { TakeSameWorld(p, Restarted(p), key, e, rest, life - |part|); } else { assert p == Restarted(p); }
    KeepsRow(p, key, e, rest, life - |part|);
    KeepsRow(Restarted(p), key, e, rest, life - |part|);
  }

  lemma {:induction false} KeepsRow(p: Process, key: Key, d: Decision, effects: seq<Effect>, life: nat)
    requires key in p.world.rows
    ensures key in Take(p, key, d, effects, life).0.world.rows
    decreases |effects|
  {
    if effects != [] && life > 0 && Step(p, key, d, effects[0]).Ok? {
      StepKeepsRow(p, key, d, effects[0]);
      hide Step;
      KeepsRow(Step(p, key, d, effects[0]).value, key, d, effects[1..], life - 1);
    }
  }

  lemma StepKeepsRow(p: Process, key: Key, d: Decision, e: Effect)
    requires Step(p, key, d, e).Ok? && key in p.world.rows
    ensures key in Step(p, key, d, e).value.world.rows
  {
    hide PQ.Left, PQ.RosterReset;
  }

  lemma {:induction false} EffectsKeepRows(p: Process, key: Key, d: Decision, effects: seq<Effect>, life: nat)
    requires forall e :: e in effects ==> !IsMark(e)
    ensures Take(p, key, d, effects, life).0.world.rows == p.world.rows
    decreases |effects|
  {
    if effects != [] && life > 0 && Step(p, key, d, effects[0]).Ok? {
      var first := effects[0];
      assert first in effects;
      StepKeepsRows(p, key, d, first);
      hide Step;
      EffectsKeepRows(Step(p, key, d, first).value, key, d, effects[1..], life - 1);
    }
  }

  lemma StepKeepsRows(p: Process, key: Key, d: Decision, e: Effect)
    requires Step(p, key, d, e).Ok? && !IsMark(e)
    ensures Step(p, key, d, e).value.world.rows == p.world.rows
  {
    hide PQ.Left, PQ.RosterReset;
  }

  lemma {:induction false} LeavesAreNoMarks(ids: seq<int>)
    ensures forall e :: e in Leaves(ids) ==> !IsMark(e)
  {
    if ids != [] { LeavesAreNoMarks(ids[1..]); }
  }

  lemma NoMarksBefore(d: Decision)
    requires Complete(d)
    ensures forall e :: e in QueueEffects(d) || e in RoomEffects(d) || e in DraftEffects(d) ==> !IsMark(e)
  {
    LeavesAreNoMarks(Departing(d.changes));
  }

  function Marked(d: Decision, mark: Effect, reused: bool): Decision {
    match mark
    case MarkQueue => d.(queueProjected := true)
    case MarkRooms => d.(roomsProjected := true, reusedRooms := reused)
    case MarkDraft => d.(draftProjected := true)
    case _ => d
  }

  /** A part of the plan leaves the decisions alone until its mark. */
  lemma PartRows(p: Process, key: Key, d: Decision, effects: seq<Effect>, mark: Effect, life: nat)
    requires key in p.world.rows && IsMark(mark) && forall e :: e in effects ==> !IsMark(e)
    ensures var (q, stopped) := Take(p, key, d, effects + [mark], life);
            if stopped.Some? then q.world.rows == p.world.rows
            else life > |effects| && exists reused :: q.world.rows == Mark(p.world, key, Marked(p.world.rows[key].decision, mark, reused)).rows
  {
    hide Take, Step;
    var (r, early) := Take(p, key, d, effects, life);
    TakeSplits(p, key, d, effects, [mark], life);
    TakeLives(p, key, d, effects, life);
    EffectsKeepRows(p, key, d, effects, life);
    if early.None? {
      if life == |effects| {
        TakeNone(r, key, d, [mark]);
      } else {
        TakeOne(r, key, d, mark);
        TakeLives(r, key, d, [mark], life - |effects|);
        MarkStep(r, key, d, mark);
        assert Mark(r.world, key, Marked(r.world.rows[key].decision, mark, r.reused)).rows
          == Mark(p.world, key, Marked(p.world.rows[key].decision, mark, r.reused)).rows;
      }
    }
  }

  lemma MarkStep(p: Process, key: Key, d: Decision, mark: Effect)
    requires IsMark(mark) && key in p.world.rows
    ensures Step(p, key, d, mark) == Ok(p.(world := Mark(p.world, key, Marked(p.world.rows[key].decision, mark, p.reused))))
  {
  }

  /** The first part of the plan still to do. */
  datatype Part = Part(effects: seq<Effect>, mark: Effect, rest: seq<Effect>)

  function FirstPart(d: Decision): Option<Part>
    requires Complete(d)
  {
    if !d.queueProjected then Some(Part(QueueEffects(d), MarkQueue, RoomPart(d) + DraftPart(d)))
    else if !d.roomsProjected then Some(Part(RoomEffects(d), MarkRooms, DraftPart(d)))
    else if !d.draftProjected then Some(Part(DraftEffects(d), MarkDraft, []))
    else None
  }

  lemma PlanFromFirst(d: Decision)
    requires Complete(d)
    ensures FirstPart(d) == None ==> Plan(d) == []
    ensures FirstPart(d).Some? ==> var f := FirstPart(d).value; Plan(d) == f.effects + [f.mark] + f.rest && IsMark(f.mark) && forall e :: e in f.effects ==> !IsMark(e)
    ensures forall reused :: FirstPart(d).Some? && FirstPart(d).value.mark == MarkQueue ==> Plan(Marked(d, MarkQueue, reused)) == FirstPart(d).value.rest
    ensures forall reused :: FirstPart(d).Some? && FirstPart(d).value.mark == MarkRooms ==> Plan(Marked(d, MarkRooms, reused)) == FirstPart(d).value.rest
    ensures forall reused :: FirstPart(d).Some? && FirstPart(d).value.mark == MarkDraft ==> Plan(Marked(d, MarkDraft, reused)) == FirstPart(d).value.rest
  {
    NoMarksBefore(d);
    hide QueueEffects, RoomEffects, DraftEffects;
  }

  /** How many flags are still unset. */
  function Unset(d: Decision): nat {
    (if d.queueProjected then 0 else 1) + (if d.roomsProjected then 0 else 1) + (if d.draftProjected then 0 else 1)
  }

  /** Where a projection stops in its first part, or else goes on from its mark. */
  lemma FirstPartTaken(w: World, key: Key, life: nat)
    requires key in w.rows && Complete(w.rows[key].decision) && FirstPart(w.rows[key].decision).Some?
    ensures var d := w.rows[key].decision;
            var f := FirstPart(d).value;
            var (q, stopped) := Take(Process(w, false), key, d, f.effects + [f.mark], life);
            if stopped.Some? then Project(w, key, life) == (q.world, stopped.value) && q.world.rows == w.rows
            else && life > |f.effects| && key in q.world.rows
                 && (exists reused :: q.world.rows[key].decision == Marked(d, f.mark, reused))
                 && q.world.rows == w.rows[key := q.world.rows[key]]
                 && q.world.rows[key].operationId == w.rows[key].operationId
                 && Project(w, key, life) == Project(q.world, key, life - |f.effects| - 1)
  {
    var d := w.rows[key].decision;
    var f := FirstPart(d).value;
    PlanFromFirst(d);
    PartRows(Process(w, false), key, d, f.effects, f.mark, life);
    var (q, stopped) := Take(Process(w, false), key, d, f.effects + [f.mark], life);
    hide Take, Step, Plan, FirstPart, Project, Complete;
    if stopped.Some? {
      PartStops(w, key, f.effects + [f.mark], f.rest, life);
    } else {
      var reused :| q.world.rows == Mark(w, key, Marked(d, f.mark, reused)).rows;
      assert q.world.rows[key].decision == Marked(d, f.mark, reused);
      PartGoesOn(w, key, reused, life);
    }
  }

  lemma PartStops(w: World, key: Key, part: seq<Effect>, rest: seq<Effect>, life: nat)
    requires key in w.rows && Complete(w.rows[key].decision) && Plan(w.rows[key].decision) == part + rest
    requires Take(Process(w, false), key, w.rows[key].decision, part, life).1.Some?
    ensures var (q, stopped) := Take(Process(w, false), key, w.rows[key].decision, part, life);
            Project(w, key, life) == (q.world, stopped.value)
  {
    hide Take, Step, Plan;
    TakeSplits(Process(w, false), key, w.rows[key].decision, part, rest, life);
  }

  lemma PartGoesOn(w: World, key: Key, reused: bool, life: nat)
    requires key in w.rows && Complete(w.rows[key].decision) && FirstPart(w.rows[key].decision).Some?
    requires var d := w.rows[key].decision;
             var f := FirstPart(d).value;
             var (q, stopped) := Take(Process(w, false), key, d, f.effects + [f.mark], life);
             stopped.None? && key in q.world.rows && q.world.rows[key].decision == Marked(d, f.mark, reused)
    ensures var d := w.rows[key].decision;
            var f := FirstPart(d).value;
            var q := Take(Process(w, false), key, d, f.effects + [f.mark], life).0;
            life > |f.effects| && Project(w, key, life) == Project(q.world, key, life - |f.effects| - 1)
  {
    var d := w.rows[key].decision;
    var f := FirstPart(d).value;
    PlanFromFirst(d);
    RoomsMarkedLast(Process(w, false), key, d, life);
    hide Take, Step, Plan, FirstPart;
    TakeLives(Process(w, false), key, d, f.effects + [f.mark], life);
    PartDone(w, key, f.effects + [f.mark], f.rest, life);
  }

  lemma RoomsMarkedLast(p: Process, key: Key, d: Decision, life: nat)
    requires Complete(d) && FirstPart(d).Some? && !p.reused
    ensures var f := FirstPart(d).value;
            Take(p, key, d, f.effects + [f.mark], life).0.reused ==> MarkRooms !in f.rest
  {
    var f := FirstPart(d).value;
    if f.mark == MarkQueue {
      NoMarksBefore(d);
      NoSyncBefore(d);
      KeepsReused(p, key, d, f.effects + [f.mark], life);
    } else {
      assert MarkRooms !in DraftPart(d);
    }
  }

  predicate Syncs(e: Effect) { e.SyncRooms? }

  lemma NoSyncBefore(d: Decision)
    requires Complete(d)
    ensures forall e :: e in QueueEffects(d) + [MarkQueue] ==> !Syncs(e)
  {
    LeavesDoNotSync(Departing(d.changes));
  }

  lemma {:induction false} LeavesDoNotSync(ids: seq<int>)
    ensures forall e :: e in Leaves(ids) ==> !Syncs(e)
  {
    if ids != [] { LeavesDoNotSync(ids[1..]); }
  }

  lemma {:induction false} KeepsReused(p: Process, key: Key, d: Decision, effects: seq<Effect>, life: nat)
    requires forall e :: e in effects ==> !Syncs(e)
    ensures Take(p, key, d, effects, life).0.reused == p.reused
    decreases |effects|
  {
    if effects != [] && life > 0 && Step(p, key, d, effects[0]).Ok? {
      var first := effects[0];
      assert first in effects;
      StepKeepsReused(p, key, d, first);
      hide Step;
      KeepsReused(Step(p, key, d, first).value, key, d, effects[1..], life - 1);
    }
  }

  lemma StepKeepsReused(p: Process, key: Key, d: Decision, e: Effect)
    requires Step(p, key, d, e).Ok? && !Syncs(e)
    ensures Step(p, key, d, e).value.reused == p.reused
  {
    hide PQ.Left, PQ.RosterReset;
  }

  /** However far it gets, a projection only sets flags, in their order, and it
      is finished exactly when all are set. */
  ghost predicate Progressed(d: Decision, e: Decision) {
    && e == d.(queueProjected := e.queueProjected, roomsProjected := e.roomsProjected, draftProjected := e.draftProjected,
               reusedRooms := e.reusedRooms)
    && (d.queueProjected ==> e.queueProjected) && (d.roomsProjected ==> e.roomsProjected && e.reusedRooms == d.reusedRooms)
    && (d.draftProjected ==> e.draftProjected)
  }

  ghost predicate InStages(d: Decision) {
    (d.draftProjected ==> d.roomsProjected) && (d.roomsProjected ==> d.queueProjected)
  }

  predicate AllSet(d: Decision) { d.queueProjected && d.roomsProjected && d.draftProjected }

  lemma MarkProgresses(d: Decision, e: Decision, reused: bool)
    requires Complete(d) && InStages(d) && FirstPart(d).Some? && e == Marked(d, FirstPart(d).value.mark, reused)
    ensures Progressed(d, e) && InStages(e) && Complete(e) && Unset(e) < Unset(d)
  {
  }

  lemma ProgressOn(d: Decision, e: Decision, f: Decision)
    requires Progressed(d, e) && Progressed(e, f)
    ensures Progressed(d, f)
  {
  }

  /** What a projection does to the stored decisions. */
  ghost predicate RowsAfter(w: World, key: Key, v: World, outcome: Outcome)
    requires key in w.rows
  {
    && key in v.rows && v.rows == w.rows[key := v.rows[key]] && v.rows[key].operationId == w.rows[key].operationId
    && Progressed(w.rows[key].decision, v.rows[key].decision) && InStages(v.rows[key].decision)
    && (outcome.Finished? <==> AllSet(v.rows[key].decision))
    && (outcome.Finished? ==> outcome.decision == v.rows[key].decision)
  }

  lemma RowsUnmoved(w: World, key: Key, v: World, outcome: Outcome)
    requires key in w.rows && v.rows == w.rows && InStages(w.rows[key].decision)
    requires outcome.Finished? <==> AllSet(w.rows[key].decision)
    requires outcome.Finished? ==> outcome.decision == w.rows[key].decision
    ensures RowsAfter(w, key, v, outcome)
  {
    assert w.rows[key := w.rows[key]] == w.rows;
  }

  lemma RowsMoved(w: World, key: Key, u: World, v: World, outcome: Outcome)
    requires key in w.rows && key in u.rows && RowsAfter(u, key, v, outcome)
    requires u.rows == w.rows[key := u.rows[key]] && u.rows[key].operationId == w.rows[key].operationId
    requires Progressed(w.rows[key].decision, u.rows[key].decision)
    ensures RowsAfter(w, key, v, outcome)
  {
    ProgressOn(w.rows[key].decision, u.rows[key].decision, v.rows[key].decision);
    assert w.rows[key := u.rows[key]][key := v.rows[key]] == w.rows[key := v.rows[key]];
  }

  lemma {:induction false} ProjectionRows(w: World, key: Key, life: nat)
    requires key in w.rows && Complete(w.rows[key].decision) && InStages(w.rows[key].decision)
    ensures RowsAfter(w, key, Project(w, key, life).0, Project(w, key, life).1)
    decreases Unset(w.rows[key].decision)
  {
    var d := w.rows[key].decision;
    if FirstPart(d).None? {
      PlanFromFirst(d);
      RowsUnmoved(w, key, w, Finished(d));
    } else {
      FirstPartTaken(w, key, life);
      var f := FirstPart(d).value;
      var (q, stopped) := Take(Process(w, false), key, d, f.effects + [f.mark], life);
      hide Project, RowsAfter, Take, Plan;
      if stopped.Some? {
        TakeNeverFinishes(Process(w, false), key, d, f.effects + [f.mark], life);
        RowsUnmoved(w, key, q.world, stopped.value);
      } else {
        var e := q.world.rows[key].decision;
        var reused :| e == Marked(d, f.mark, reused);
        MarkProgresses(d, e, reused);
        hide FirstPart, Complete, Marked, Progressed, InStages, Unset;
        ProjectionRows(q.world, key, life - |f.effects| - 1);
        var (v, outcome) := Project(q.world, key, life - |f.effects| - 1);
        RowsMoved(w, key, q.world, v, outcome);
      }
    }
  }

  lemma {:induction false} TakeNeverFinishes(p: Process, key: Key, d: Decision, effects: seq<Effect>, life: nat)
    ensures var stopped := Take(p, key, d, effects, life).1; stopped.Some? ==> !stopped.value.Finished?
    decreases |effects|
  {
    hide Step;
    if effects != [] && life > 0 && Step(p, key, d, effects[0]).Ok? {
      TakeNeverFinishes(Step(p, key, d, effects[0]).value, key, d, effects[1..], life - 1);
    }
  }
}
