/** The lifecycle of a lobby, told from where each state is entered, and the stages
    that every match goes through. */
module PartyLifecycle {
  import opened PartyStore
  import opened PartyStoreInvariant

  /** The states a state is entered from. */
  predicate Precedes(from: LobbyState, state: LobbyState) {
    match state
    case Open => from in {Full, ReadyCheck}
    case Full => from in {Open, ReadyCheck}
    case ReadyCheck => from in {Open, Full, Forming}
    case Forming => from == ReadyCheck
    case Active => from == Forming
    case Completed => from == Active
    case Cancelled => from !in {Completed, Cancelled, Expired}
    case Expired => from in {Open, Full, ReadyCheck}
  }

  /** A transition is allowed exactly when it stays, or enters a state from one of
      the states that precede it. */
  lemma TransitionsEnter(from: LobbyState, state: LobbyState)
    ensures MayTransition(from, state) <==> from == state || Precedes(from, state)
  {
  }

  /** An event of the log that enters this state. */
  ghost predicate EnteredAt(events: seq<Event>, i: int, state: LobbyState) { 0 <= i < |events| && events[i].toState == state }

  lemma {:induction false} EntersAfter(events: seq<Event>, end: LobbyState, before: LobbyState) returns (i: nat)
    requires IsPath(events, end) && end != Open && forall from :: Precedes(from, end) ==> from == before
    ensures EnteredAt(events, i, before) && i < |events| - 1 && IsPath(events[..i + 1], before)
    decreases |events|
  {
    var n := |events| - 1;
    var from :| Legal(events[n], from) && IsPath(events[..n], from);
    TransitionsEnter(from, end);
    if from == end {
      i := EntersAfter(events[..n], end, before);
      assert events[..n][..i + 1] == events[..i + 1];
    } else {
      i := n - 1;
      assert events[..n][n - 1] == events[i];
    }
  }

  /** The log shows these states entered one after the other. */
  ghost predicate WentThrough(log: seq<Event>, one: LobbyState, two: LobbyState, three: LobbyState) {
    exists i, j, k :: i < j < k && EnteredAt(log, i, one) && EnteredAt(log, j, two) && EnteredAt(log, k, three)
  }

  /** In every run a completed lobby came through a ready check, forming teams and
      being active, in this order, as its log shows; an active one through the first
      two, a forming one through a ready check. */
  lemma StagesInOrder(run: seq<Timed>, naming: Naming, id: string)
    requires id in RunAll(EMPTY_STORE, run, naming).lobbies
    ensures var store := RunAll(EMPTY_STORE, run, naming);
            LogOf(store.lobbies[id].state, EventsOf(store.audit, id))
  {
    EveryRunIsOrdered(run, naming);
    var store := RunAll(EMPTY_STORE, run, naming);
    InOrderThere(store, id);
    StagesOfPath(EventsOf(store.audit, id), store.lobbies[id].state);
  }

  ghost predicate LogOf(state: LobbyState, log: seq<Event>) {
    && (state == Forming ==> exists i :: EnteredAt(log, i, ReadyCheck))
    && (state == Active ==> exists i, j :: i < j && EnteredAt(log, i, ReadyCheck) && EnteredAt(log, j, Forming))
    && (state == Completed ==> WentThrough(log, ReadyCheck, Forming, Active))
  }

  lemma StagesOfPath(log: seq<Event>, state: LobbyState)
    requires IsPath(log, state)
    ensures LogOf(state, log)
  {
    hide IsPath;
    if state == Forming {
      var i := EntersAfter(log, Forming, ReadyCheck);
    } else if state == Active {
      var j := EntersAfter(log, Active, Forming);
      var i := EntersAfter(log[..j + 1], Forming, ReadyCheck);
      assert log[..j + 1][i] == log[i];
      assert EnteredAt(log, i, ReadyCheck) && EnteredAt(log, j, Forming);
    } else if state == Completed {
      var k := EntersAfter(log, Completed, Active);
      var j := EntersAfter(log[..k + 1], Active, Forming);
      assert log[..k + 1][..j + 1] == log[..j + 1] && log[..k + 1][j] == log[j];
      var i := EntersAfter(log[..j + 1], Forming, ReadyCheck);
      assert log[..j + 1][i] == log[i];
      assert EnteredAt(log, i, ReadyCheck) && EnteredAt(log, j, Forming) && EnteredAt(log, k, Active);
    }
  }
}
