/** Reserving a decision: the answer, what a resumed decision stores, and that no
    operation ID ever serves two matches. */
module MatchReservations {
  import opened Common
  import opened MatchContinuity
  import opened MatchProjection
  import opened MatchReplay
  import opened MatchReplayTheorems

  /** This decision is then stored for the match; other matches' rows stay. */
  ghost predicate Answers(rows: map<Key, Row>, next: map<Key, Row>, key: Key, answer: Decision) {
    key in next && next[key].decision == answer && next.Keys == rows.Keys + {key} && forall k :: k in rows ==> next[k] == rows[k]
  }

  /** A reservation answers with the decision then stored for the match, which is of
      the action asked for: the first one made, or the given one when there is none. */
  lemma ReservesTheFirst(rows: map<Key, Row>, guildId: int, d: Decision, operationId: string)
    ensures var r, key := Reserve(rows, guildId, d, operationId), (guildId, d.source);
            && (r.Ok? ==> Answers(rows, r.value.0, key, r.value.1) && r.value.1.action == d.action)
            && (r.Ok? && key !in rows ==> r.value.0[key] == Row(d, operationId))
            && (r.Err? <==> if key in rows then rows[key].decision.action != d.action
                            else (exists k :: k in rows && rows[k].operationId == operationId)
                                 || (d.next.Some? && exists k :: k in rows && k.0 == guildId && rows[k].decision.next == d.next))
  {
  }

  /** A waiting decision that is resumed and then ready stores the new teams, changes
      and substitutes, for the departures it recorded, under its old lobby. */
  lemma ResumeStoresTheBuilt(w: World, c: Call)
    requires Orderly(w) && KeyOf(c) in w.rows && w.rows[KeyOf(c)].decision.status == AwaitingSubstitutes && Decide(w, c).Ok?
    ensures var prior, (v, d) := w.rows[KeyOf(c)].decision, Decide(w, c).value;
            && c.lobbyId in w.queues
            && var built := BuildResult(c.record, c.lobbyId, w.queues[c.lobbyId], c.action, set id | id in Departing(prior.changes));
            && built.Ok? && KeyOf(c) in v.rows && v.rows[KeyOf(c)].decision == d
            && if built.value.status == AwaitingSubstitutes then v == w && d == prior
               else d == built.value.(lobbyId := prior.lobbyId, reusedRooms := prior.reusedRooms)
  {
    hide BuildResult, Departing;
    var key := KeyOf(c);
    var prior := w.rows[key].decision;
    assert OrderlyRow(key, prior);
    var departures := set id | id in Departing(prior.changes);
    if c.lobbyId in w.queues && BuildResult(c.record, c.lobbyId, w.queues[c.lobbyId], c.action, departures).Ok? {
      BuildsOrderly(c.record, c.lobbyId, w.queues[c.lobbyId], c.action, departures);
    }
  }

  // ---- Operation IDs ----------------------------------------------------------------------

  ghost predicate OperationsApart(rows: map<Key, Row>) {
    forall j, k :: j in rows && k in rows && j != k ==> rows[j].operationId != rows[k].operationId
  }

  /** Every row keeps its operation ID, and a new row's was not there. */
  ghost predicate KeepsOperations(rows: map<Key, Row>, next: map<Key, Row>) {
    && (forall k :: k in rows ==> k in next && next[k].operationId == rows[k].operationId)
    && (forall j, k :: j in next && j !in rows && k in next && k != j ==> next[k].operationId != next[j].operationId)
  }

  lemma StillApart(rows: map<Key, Row>, next: map<Key, Row>)
    requires OperationsApart(rows) && KeepsOperations(rows, next)
    ensures OperationsApart(next)
  {
    forall j, k | j in next && k in next && j != k ensures next[j].operationId != next[k].operationId {
      if j in rows && k in rows { assert rows[j].operationId != rows[k].operationId; }
    }
  }

  lemma DecideKeepsOperations(w: World, c: Call)
    requires Decide(w, c).Ok?
    ensures KeepsOperations(w.rows, Decide(w, c).value.0.rows)
  {
    hide BuildResult, Departing;
  }

  lemma AttemptKeepsOperations(w: World, c: Call, life: nat)
    requires Orderly(w) && OperationsApart(w.rows)
    ensures OperationsApart(Attempt(w, c, life).0.rows)
  {
    if life > 0 && Decide(w, c).Ok? {
      DecideKeepsOrder(w, c);
      DecideKeepsOperations(w, c);
      var (v, d) := Decide(w, c).value;
      var key := KeyOf(c);
      StillApart(w.rows, v.rows);
      if d.status != AwaitingSubstitutes {
        OrderlyIsInStages(v, key);
        ProjectionRows(v, key, life - 1);
        var (u, outcome) := Project(v, key, life - 1);
        hide Decide, Project, Orderly;
        ProjectedOperations(v, key, u, outcome);
        StillApart(v.rows, u.rows);
      }
    }
  }

  lemma ProjectedOperations(w: World, key: Key, v: World, outcome: Outcome)
    requires key in w.rows && RowsAfter(w, key, v, outcome)
    ensures KeepsOperations(w.rows, v.rows)
  {
  }

  /** Over any run of attempts, crashing or not, no operation ID is recorded for the
      decisions of two matches. */
  lemma {:induction false} EveryRunKeepsOperations(w: World, tries: seq<Try>)
    requires Orderly(w) && OperationsApart(w.rows)
    ensures OperationsApart(AttemptAll(w, tries).rows)
    decreases |tries|
  {
    hide Attempt, Orderly, OperationsApart;
    if tries != [] {
      AttemptKeeps(w, tries[0].call, tries[0].life);
      AttemptKeepsOperations(w, tries[0].call, tries[0].life);
      EveryRunKeepsOperations(Attempt(w, tries[0].call, tries[0].life).0, tries[1..]);
    }
  }
}
