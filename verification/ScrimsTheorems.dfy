/** Every run of challenges: the handshake, its causes, and locked rosters. */
module ScrimsTheorems {
  import opened Common
  import opened Scrims

  lemma SavesKeeps(store: Store, c: Command, names: Names)
    requires GoodScrims(store) && c.SaveTeam? && Saves(store, c, names).Ok?
    ensures GoodScrims(Saves(store, c, names).value)
  {
    hide Handshake;
    var next, id := Saves(store, c, names).value, names.teamId(c.guildId, c.name);
    forall t | t in next.teams ensures GoodTeam(next.teams[t]) {
      if t == id { SavedIsGood(store, c, id); }
    }
    forall k | k in next.challenges ensures GoodChallenge(next, k) { assert GoodChallenge(store, k); }
  }

  lemma SavedIsGood(store: Store, c: Command, id: string)
    requires c.SaveTeam? && TeamProblem(c).None?
    ensures GoodTeam(TeamAfter(store, c, id))
  {
    var roster, substitutes := Unique(c.roster), Unique(c.substitutes);
    forall u | u in roster ensures u !in substitutes && u > 0 { assert u in roster + substitutes; }
  }

  /** A change of one challenge that is good itself. */
  lemma OneKeeps(store: Store, next: Store, id: string)
    requires GoodScrims(store) && next.teams == store.teams && id in next.challenges && GoodChallenge(next, id)
    requires forall k :: k != id ==> (k in next.challenges <==> k in store.challenges) && (k in store.challenges ==> next.challenges[k] == store.challenges[k])
    ensures GoodScrims(next)
  {
    hide Handshake, GoodTeam;
    forall k | k in next.challenges ensures GoodChallenge(next, k) {
      if k != id { assert GoodChallenge(store, k); }
    }
  }

  lemma SameChallenges(store: Store, next: Store)
    requires GoodScrims(store) && next.teams == store.teams && next.challenges == store.challenges
    ensures GoodScrims(next)
  {
    hide Handshake, GoodTeam;
    forall k | k in next.challenges ensures GoodChallenge(next, k) { assert GoodChallenge(store, k); }
  }

  lemma TwoOfTwo(s: set<string>, a: string, b: string)
    requires a != b && s <= {a, b}
    ensures |s| == 2 <==> s == {a, b}
  {
    if s != {a, b} {
      if a in s { assert s == {a}; } else if b in s { assert s == {b}; } else { assert s == {}; }
    }
  }

  lemma CheckInKeeps(store: Store, c: Command)
    requires GoodScrims(store) && c.CheckIn? && ChecksIn(store, c).Ok?
    ensures GoodScrims(ChecksIn(store, c).value)
  {
    hide GoodTeam;
    var next, id := ChecksIn(store, c).value, c.challengeId;
    var ch := store.challenges[id];
    assert GoodChallenge(store, id);
    if next != store {
      TwoOfTwo(next.challenges[id].checkedIn, ch.challenger, ch.recipient);
      OneKeeps(store, next, id);
    }
  }

  lemma LockKeeps(store: Store, c: Command)
    requires GoodScrims(store) && c.LockRosters? && Locks(store, c).Ok?
    ensures GoodScrims(Locks(store, c).value)
  {
    var next, id := Locks(store, c).value, c.challengeId;
    var ch := store.challenges[id];
    assert GoodChallenge(store, id);
    if next != store {
      assert GoodTeam(store.teams[ch.challenger]) && GoodTeam(store.teams[ch.recipient]);
      hide GoodTeam;
      var snapshot := next.challenges[id].locked.value;
      assert snapshot.Keys == {ch.challenger, ch.recipient};
      OneKeeps(store, next, id);
    }
  }

  lemma RespondKeeps(store: Store, c: Command, now: int)
    requires GoodScrims(store) && c.Respond? && Responds(store, c, now).Ok?
    ensures GoodScrims(Responds(store, c, now).value)
  {
    hide GoodTeam;
    var next, id := Responds(store, c, now).value, c.challengeId;
    assert GoodChallenge(store, id);
    if next.challenges == store.challenges { SameChallenges(store, next); } else { OneKeeps(store, next, id); }
  }

  lemma LaunchKeeps(store: Store, c: Command)
    requires GoodScrims(store) && c.MarkLaunched? && Launches(store, c).Ok?
    ensures GoodScrims(Launches(store, c).value)
  {
    hide GoodTeam;
    assert GoodChallenge(store, c.challengeId);
    OneKeeps(store, Launches(store, c).value, c.challengeId);
  }

  lemma IssueKeeps(store: Store, c: Command, now: int, names: Names)
    requires GoodScrims(store) && c.Issue? && Issues(store, c, now, names).Ok?
    ensures GoodScrims(Issues(store, c, now, names).value)
  {
    hide GoodTeam;
    var next := Issues(store, c, now, names).value;
    if next.challenges == store.challenges { SameChallenges(store, next); }
    else { OneKeeps(store, next, names.challengeId(store.teams[c.challenger].guildId, c.op)); }
  }

  lemma CommandKeeps(store: Store, c: Command, now: int, names: Names)
    requires GoodScrims(store)
    ensures GoodScrims(After(store, c, now, names))
  {
    hide GoodScrims, Saves, Issues, Responds, ChecksIn, Locks, Launches;
    if Exec(store, c, now, names).Ok? {
      match c {
        case SaveTeam(_, _, _, _, _, _, _, _, _) => SavesKeeps(store, c, names);
        case Issue(_, _, _, _, _, _) => IssueKeeps(store, c, now, names);
        case Respond(_, _, _, _, _) => RespondKeeps(store, c, now);
        case CheckIn(_, _, _) => CheckInKeeps(store, c);
        case LockRosters(_, _, _, _) => LockKeeps(store, c);
        case MarkLaunched(_, _, _, _) => LaunchKeeps(store, c);
      }
    }
  }

  /** In every run each challenge is exactly as far as its check-ins, locked rosters
      and lobby say. */
  lemma {:induction false} EveryRunIsGood(run: seq<Timed>, names: Names)
    ensures GoodScrims(RunAll(run, names))
  {
    hide GoodScrims, After;
    if run == [] {
      EmptyIsGood();
    } else {
      EveryRunIsGood(run[..|run| - 1], names);
      CommandKeeps(RunAll(run[..|run| - 1], names), run[|run| - 1].command, run[|run| - 1].now, names);
    }
  }

  lemma EmptyIsGood()
    ensures GoodScrims(EMPTY_STORE)
  {
  }

  // ---- How a challenge got where it is ----------------------------------------------------

  /** Changes of state so far: none for a challenge that does not exist. */
  function Rank(store: Store, id: string): nat {
    if id !in store.challenges then 0
    else match store.challenges[id].state
      case Proposed => 1
      case Accepted => 2
      case Rejected => 2
      case CheckedIn => 3
      case Locked => 4
      case Launched => 5
  }

  /** The commands that make the k-th change of state. */
  predicate MakesChange(k: nat, store: Store, c: Command, id: string, names: Names) {
    match k
    case 0 => c.Issue? && c.challenger in store.teams && id == names.challengeId(store.teams[c.challenger].guildId, c.op)
              && store.teams[c.challenger].captainId == c.actorId
    case 1 => IsOfRecipient(store, c, id) && c.response != Propose
    case 2 => c.CheckIn? && c.challengeId == id
    case 3 => c.LockRosters? && c.challengeId == id && id in store.challenges && (c.actorId == store.challenges[id].organizerId || c.override)
    case 4 => c.MarkLaunched? && c.challengeId == id
    case _ => false
  }

  predicate IsOfRecipient(store: Store, c: Command, id: string) {
    && c.Respond? && c.challengeId == id && id in store.challenges && store.challenges[id].recipient in store.teams
    && store.teams[store.challenges[id].recipient].captainId == c.actorId
  }

  /** At most one change, of the right kind; a rejection is final. */
  ghost predicate ByOne(store: Store, next: Store, c: Command, id: string, names: Names) {
    && (Rank(next, id) == Rank(store, id) || (Rank(next, id) == Rank(store, id) + 1 && MakesChange(Rank(store, id), store, c, id, names)))
    && (id in store.challenges ==> id in next.challenges)
    && (id in store.challenges && (store.challenges[id].state == Rejected || Rank(next, id) == Rank(store, id)) ==>
          next.challenges[id].state == store.challenges[id].state)
    && (Rank(store, id) == 1 && Rank(next, id) == 2 ==> c.Respond? && (c.response == Accept <==> next.challenges[id].state == Accepted))
  }

  lemma SameIsByOne(store: Store, next: Store, c: Command, id: string, names: Names)
    requires next.challenges == store.challenges
    ensures ByOne(store, next, c, id, names)
  {
  }

  lemma CheckInStep(store: Store, c: Command, names: Names, id: string)
    requires GoodScrims(store) && c.CheckIn? && ChecksIn(store, c).Ok?
    ensures ByOne(store, ChecksIn(store, c).value, c, id, names)
  {
    hide GoodTeam;
    if id in store.challenges {
      assert GoodChallenge(store, id);
      TwoOfTwoAfter(store, c, id);
    }
  }

  lemma RespondStep(store: Store, c: Command, now: int, names: Names, id: string)
    requires c.Respond? && Responds(store, c, now).Ok?
    ensures ByOne(store, Responds(store, c, now).value, c, id, names)
  {
  }

  lemma OtherStep(store: Store, c: Command, now: int, names: Names, id: string)
    requires (c.Issue? || c.LockRosters? || c.MarkLaunched?) && Exec(store, c, now, names).Ok?
    ensures ByOne(store, Exec(store, c, now, names).value, c, id, names)
  {
  }

  /** One command moves a challenge by at most one change, of the right kind; a
      rejected one never moves again. */
  lemma StepsByOne(store: Store, c: Command, now: int, names: Names, id: string)
    requires GoodScrims(store)
    ensures ByOne(store, After(store, c, now, names), c, id, names)
  {
    hide GoodScrims, ByOne, Issues, Responds, ChecksIn, Locks, Launches, Unique, TeamProblem, TeamAfter;
    SameIsByOne(store, store, c, id, names);
    if Exec(store, c, now, names).Ok? {
      match c {
        case SaveTeam(_, _, _, _, _, _, _, _, _) => SameIsByOne(store, After(store, c, now, names), c, id, names);
        case Issue(_, _, _, _, _, _) => OtherStep(store, c, now, names, id);
        case Respond(_, _, _, _, _) => RespondStep(store, c, now, names, id);
        case CheckIn(_, _, _) => CheckInStep(store, c, names, id);
        case LockRosters(_, _, _, _) => OtherStep(store, c, now, names, id);
        case MarkLaunched(_, _, _, _) => OtherStep(store, c, now, names, id);
      }
    }
  }

  lemma TwoOfTwoAfter(store: Store, c: Command, id: string)
    requires id in store.challenges && GoodChallenge(store, id) && c.CheckIn?
    ensures var ch, team := store.challenges[id], TeamOfCaptain(store, store.challenges[id], c.actorId);
            team.Some? && ch.state == CheckedIn ==> |ch.checkedIn + {team.value}| == 2
  {
    var ch, team := store.challenges[id], TeamOfCaptain(store, store.challenges[id], c.actorId);
    if team.Some? && ch.state == CheckedIn { TwoOfTwo(ch.checkedIn + {team.value}, ch.challenger, ch.recipient); }
  }

  /** The steps of a run at which a challenge changed its state. */
  function Changes(run: seq<Timed>, names: Names, id: string): seq<nat> {
    if run == [] then []
    else
      var n := |run| - 1;
      var before := Changes(run[..n], names, id);
      if Rank(RunAll(run, names), id) != Rank(RunAll(run[..n], names), id) then before + [n] else before
  }

  ghost predicate IsHistory(run: seq<Timed>, names: Names, id: string, changes: seq<nat>) {
    && |changes| == Rank(RunAll(run, names), id)
    && (forall k :: 0 <= k < |changes| ==> changes[k] < |run|)
    && (forall k :: 0 <= k < |changes| ==> MakesChange(k, RunAll(run[..changes[k]], names), run[changes[k]].command, id, names))
    && (forall j, k :: 0 <= j < k < |changes| ==> changes[j] < changes[k])
    && (|changes| >= 2 ==> WasAnswered(run[changes[1]].command, RunAll(run, names), id))
  }

  /** The answer in a challenge's history: a rejected one was rejected, any other
      that is further than PROPOSED was accepted. */
  predicate WasAnswered(c: Command, store: Store, id: string) {
    c.Respond? && id in store.challenges && c.response == if store.challenges[id].state == Rejected then Reject else Accept
  }

  /** A challenge that has reached LAUNCHED was issued by a captain, accepted by the
      challenged captain, checked in, locked and launched, in this order; any other
      has this history as far as it goes, or was rejected in place of accepted. */
  lemma {:induction false} HandshakeCameFirst(run: seq<Timed>, names: Names, id: string)
    ensures IsHistory(run, names, id, Changes(run, names, id))
  {
    hide After, MakesChange, IsHistory;
    if run == [] {
      NoHistory(names, id);
    } else {
      var n := |run| - 1;
      var before, last := run[..n], run[n];
      HandshakeCameFirst(before, names, id);
      EveryRunIsGood(before, names);
      StepsByOne(RunAll(before, names), last.command, last.now, names, id);
      HistoryLength(before, names, id, Changes(before, names, id));
      AnswerStays(RunAll(before, names), RunAll(run, names), last.command, id, names);
      HistoryGrows(run, names, id, Changes(before, names, id), Changes(run, names, id));
    }
  }

  /** The answer a challenge was given never changes. */
  lemma AnswerStays(store: Store, next: Store, c: Command, id: string, names: Names)
    requires ByOne(store, next, c, id, names)
    ensures Rank(store, id) >= 2 ==> forall b :: WasAnswered(b, store, id) ==> WasAnswered(b, next, id)
    ensures Rank(store, id) == 1 && Rank(next, id) == 2 ==> WasAnswered(c, next, id)
  {
  }

  lemma HistoryLength(run: seq<Timed>, names: Names, id: string, changes: seq<nat>)
    requires IsHistory(run, names, id, changes)
    ensures |changes| == Rank(RunAll(run, names), id)
  {
  }

  lemma NoHistory(names: Names, id: string)
    ensures IsHistory([], names, id, [])
  {
  }

  lemma HistoryGrows(run: seq<Timed>, names: Names, id: string, before: seq<nat>, changes: seq<nat>)
    requires run != [] && IsHistory(run[..|run| - 1], names, id, before)
    requires var r, s := Rank(RunAll(run[..|run| - 1], names), id), Rank(RunAll(run, names), id);
             if r == s then changes == before
             else s == r + 1 && changes == before + [|run| - 1]
                  && MakesChange(r, RunAll(run[..|run| - 1], names), run[|run| - 1].command, id, names)
    requires |before| >= 2 ==> forall c :: WasAnswered(c, RunAll(run[..|run| - 1], names), id) ==> WasAnswered(c, RunAll(run, names), id)
    requires |before| == 1 && |changes| == 2 ==> WasAnswered(run[|run| - 1].command, RunAll(run, names), id)
    ensures IsHistory(run, names, id, changes)
  {
    hide WasAnswered, Rank, MakesChange, RunAll;
    var n := |run| - 1;
    forall k | 0 <= k < |changes| ensures MakesChange(k, RunAll(run[..changes[k]], names), run[changes[k]].command, id, names) {
      if k < |before| {
        assert run[..n][..before[k]] == run[..before[k]] && run[..n][before[k]] == run[before[k]];
      }
    }
  }

  // ---- Both captains --------------------------------------------------------------------------

  ghost predicate CaptainCheckedIn(run: seq<Timed>, names: Names, id: string, team: string) {
    exists i :: 0 <= i < |run| && IsCheckIn(RunAll(run[..i], names), run[i].command, id, team)
  }

  predicate IsCheckIn(store: Store, c: Command, id: string, team: string) {
    c.CheckIn? && c.challengeId == id && team in store.teams && store.teams[team].captainId == c.actorId
  }

  /** A team is checked in only by the captain it then had. */
  lemma {:induction false} CheckInsAreTheCaptains(run: seq<Timed>, names: Names, id: string, team: string)
    requires id in RunAll(run, names).challenges && team in RunAll(run, names).challenges[id].checkedIn
    ensures CaptainCheckedIn(run, names, id, team)
  {
    hide After;
    if run != [] {
      var n := |run| - 1;
      var before, last := run[..n], run[n];
      NewCheckIn(RunAll(before, names), last.command, last.now, names, id, team);
      if IsCheckIn(RunAll(before, names), last.command, id, team) {
        assert run[..n] == before;
      } else {
        CheckInsAreTheCaptains(before, names, id, team);
        var i :| 0 <= i < |before| && IsCheckIn(RunAll(before[..i], names), before[i].command, id, team);
        assert run[..i] == before[..i] && run[i] == before[i];
      }
    }
  }

  lemma NewCheckIn(store: Store, c: Command, now: int, names: Names, id: string, team: string)
    requires id in After(store, c, now, names).challenges && team in After(store, c, now, names).challenges[id].checkedIn
    ensures IsCheckIn(store, c, id, team) || (id in store.challenges && team in store.challenges[id].checkedIn)
  {
    hide Unique, TeamProblem, TeamAfter;
  }

  /** A launched challenge: both teams' captains checked in, and the locked rosters
      are two rosters without repetitions. */
  lemma LaunchedAfterBothCheckIns(run: seq<Timed>, names: Names, id: string)
    requires id in RunAll(run, names).challenges && RunAll(run, names).challenges[id].state in {Locked, Launched}
    ensures var ch := RunAll(run, names).challenges[id];
            && CaptainCheckedIn(run, names, id, ch.challenger) && CaptainCheckedIn(run, names, id, ch.recipient)
            && ch.challenger != ch.recipient && LockedBoth(ch)
  {
    EveryRunIsGood(run, names);
    hide RunAll, CaptainCheckedIn;
    var ch := RunAll(run, names).challenges[id];
    assert GoodChallenge(RunAll(run, names), id);
    CheckInsAreTheCaptains(run, names, id, ch.challenger);
    CheckInsAreTheCaptains(run, names, id, ch.recipient);
  }

  /** A new check-in completes the pair exactly when the recipient's side is in and
      the challenger's captain comes, or the challenger's side is in and the
      recipient's captain comes who is not the challenger's too. */
  lemma CheckInCompletesWhen(store: Store, id: string, actorId: int, op: string, now: int, names: Names)
    requires GoodScrims(store) && id in store.challenges && store.challenges[id].state == Accepted && op !in store.operations
    ensures var ch := store.challenges[id];
            var challenger, recipient := store.teams[ch.challenger].captainId, store.teams[ch.recipient].captainId;
            After(store, CheckIn(id, actorId, op), now, names).challenges[id].state == CheckedIn <==>
              || (ch.checkedIn == {ch.recipient} && actorId == challenger)
              || (ch.checkedIn == {ch.challenger} && actorId == recipient && actorId != challenger)
  {
    assert GoodChallenge(store, id);
    hide GoodTeam, GoodScrims;
    var ch := store.challenges[id];
    var team := TeamOfCaptain(store, ch, actorId);
    hide GoodChallenge;
    if team.Some? {
      var other := if team.value == ch.challenger then ch.recipient else ch.challenger;
      PairWith(ch.checkedIn, team.value, other);
      assert {ch.challenger, ch.recipient} == {team.value, other};
    }
  }

  /** Part of a pair, with this one added, has two elements exactly when it was
      the other one alone. */
  lemma PairWith(s: set<string>, a: string, b: string)
    requires s < {a, b} && a != b
    ensures |s + {a}| == 2 <==> s == {b}
    ensures s == {b} ==> s != {a}
  {
    assert a in s && b in s ==> {a, b} <= s;
    if b in s {
      assert s == {b};
      assert s + {a} == {a, b};
    } else {
      assert s + {a} == {a};
    }
  }

  const FOLDED := Names((guildId, name) => name, (guildId, op) => "c")

  /** User 1 is the captain of two teams, challenges one with the other, accepts,
      and checks in twice. */
  const ALONE := [
    Timed(SaveTeam(7, 1, "a", [1, 2], [], "EU", "any", "o1", false), 0), Timed(SaveTeam(7, 1, "b", [1, 3], [], "EU", "any", "o2", false), 0),
    Timed(Issue("a", "b", 1, 10, "UTC", "o3"), 0), Timed(Respond("c", 1, Accept, "o4", None), 0),
    Timed(CheckIn("c", 1, "o5"), 0), Timed(CheckIn("c", 1, "o6"), 0)]

  lemma Next(run: seq<Timed>, n: nat, names: Names)
    requires n < |run|
    ensures RunAll(run[..n + 1], names) == After(RunAll(run[..n], names), run[n].command, run[n].now, names)
  {
    assert run[..n + 1][..n] == run[..n];
  }

  lemma Pairs(a: int, b: int)
    requires a != b
    ensures Unique([a, b]) == [a, b] && Unique([]) == []
  {
    assert [a][..0] == [] && Unique([a]) == [a];
    assert [a, b][..1] == [a];
  }

  ghost predicate BothAreOnes(store: Store) {
    && store.teams.Keys == {"a", "b"} && store.teams["a"].captainId == 1 && store.teams["b"].captainId == 1
    && store.teams["a"].guildId == 7 && store.teams["b"].guildId == 7
  }

  lemma SavesFirst()
    ensures var store := After(EMPTY_STORE, SaveTeam(7, 1, "a", [1, 2], [], "EU", "any", "o1", false), 0, FOLDED);
            store.teams == map["a" := Team("a", 7, 1, "a", [1, 2], [], "EU", "any")] && store.challenges == map[] && store.operations.Keys == {"o1"}
  {
    Pairs(1, 2);
    hide Unique;
  }

  lemma SavesSecond(store: Store)
    requires store.teams == map["a" := Team("a", 7, 1, "a", [1, 2], [], "EU", "any")] && store.challenges == map[] && store.operations.Keys == {"o1"}
    ensures var next := After(store, SaveTeam(7, 1, "b", [1, 3], [], "EU", "any", "o2", false), 0, FOLDED);
            BothAreOnes(next) && next.challenges == map[] && next.operations.Keys == {"o1", "o2"}
  {
    Pairs(1, 3);
    hide Unique;
  }

  lemma TeamsAreSaved()
    ensures BothAreOnes(RunAll(ALONE[..2], FOLDED)) && RunAll(ALONE[..2], FOLDED).operations.Keys == {"o1", "o2"}
    ensures RunAll(ALONE[..2], FOLDED).challenges == map[]
  {
    hide RunAll, After, BothAreOnes;
    NothingRun();
    assert ALONE[..0] == [];
    SavesFirst();
    Next(ALONE, 0, FOLDED);
    SavesSecond(RunAll(ALONE[..1], FOLDED));
    Next(ALONE, 1, FOLDED);
  }

  lemma NothingRun()
    ensures RunAll([], FOLDED) == EMPTY_STORE
  {
  }

  /** The challenge of the two teams, so far, and the operations still free. */
  ghost predicate AloneAt(store: Store, state: ChallengeState, checkedIn: set<string>, free: set<string>) {
    && BothAreOnes(store) && (forall op :: op in free ==> op !in store.operations)
    && "c" in store.challenges && store.challenges["c"] == Challenge("c", 7, "a", "b", 10, "UTC", 1, state, checkedIn, None, None, None)
  }

  lemma Issued(store: Store)
    requires BothAreOnes(store) && store.operations.Keys == {"o1", "o2"} && store.challenges == map[]
    ensures AloneAt(After(store, Issue("a", "b", 1, 10, "UTC", "o3"), 0, FOLDED), Proposed, {}, {"o4", "o5", "o6"})
  {
  }

  lemma AcceptedAlone(store: Store)
    requires AloneAt(store, Proposed, {}, {"o4", "o5", "o6"})
    ensures AloneAt(After(store, Respond("c", 1, Accept, "o4", None), 0, FOLDED), Accepted, {}, {"o5", "o6"})
  {
  }

  lemma ChecksInAlone(store: Store, checkedIn: set<string>, op: string, free: set<string>)
    requires AloneAt(store, Accepted, checkedIn, free) && op in free && checkedIn <= {"a"}
    ensures AloneAt(After(store, CheckIn("c", 1, op), 0, FOLDED), Accepted, {"a"}, free - {op})
  {
    assert checkedIn + {"a"} == {"a"};
  }

  /** Team "a" is checked in, and the challenge waits for its second side for good:
      no check-in of its one captain completes it. */
  lemma OneCaptainNeverChecksInBoth(op: string, now: int)
    ensures var store := RunAll(ALONE, FOLDED);
            && "c" in store.challenges && store.challenges["c"].state == Accepted && store.challenges["c"].checkedIn == {"a"}
            && BothAreOnes(store) && store.challenges["c"].challenger == "a" && store.challenges["c"].recipient == "b"
            && (op !in store.operations ==> After(store, CheckIn("c", 1, op), now, FOLDED).challenges["c"].state != CheckedIn)
  {
    hide RunAll, After, BothAreOnes;
    TeamsAreSaved();
    Issued(RunAll(ALONE[..2], FOLDED));
    Next(ALONE, 2, FOLDED);
    AcceptedAlone(RunAll(ALONE[..3], FOLDED));
    Next(ALONE, 3, FOLDED);
    ChecksInAlone(RunAll(ALONE[..4], FOLDED), {}, "o5", {"o5", "o6"});
    Next(ALONE, 4, FOLDED);
    assert {"o5", "o6"} - {"o5"} == {"o6"};
    ChecksInAlone(RunAll(ALONE[..5], FOLDED), {"a"}, "o6", {"o6"});
    Next(ALONE, 5, FOLDED);
    assert ALONE[..6] == ALONE;
    EveryRunIsGood(ALONE, FOLDED);
    if op !in RunAll(ALONE, FOLDED).operations { StaysAlone(RunAll(ALONE, FOLDED), op, now); }
  }

  lemma StaysAlone(store: Store, op: string, now: int)
    requires GoodScrims(store) && BothAreOnes(store) && "c" in store.challenges && op !in store.operations
    requires var ch := store.challenges["c"]; ch.state == Accepted && ch.checkedIn == {"a"} && ch.challenger == "a" && ch.recipient == "b"
    ensures After(store, CheckIn("c", 1, op), now, FOLDED).challenges["c"].state != CheckedIn
  {
    hide GoodScrims, After;
    CheckInCompletesWhen(store, "c", 1, op, now, FOLDED);
  }

  // ---- Locked rosters -------------------------------------------------------------------------

  /** Neither team edits nor anything else changes a locked roster, its sides, or a
      launched challenge's lobby. */
  lemma LockedRostersStay(store: Store, c: Command, now: int, names: Names, id: string)
    requires id in store.challenges && store.challenges[id].state in {Locked, Launched}
    ensures var next := After(store, c, now, names);
            && id in next.challenges && next.challenges[id].locked == store.challenges[id].locked
            && next.challenges[id].challenger == store.challenges[id].challenger && next.challenges[id].recipient == store.challenges[id].recipient
            && next.challenges[id].state in {Locked, Launched} && (store.challenges[id].state == Launched ==> next.challenges[id].state == Launched)
            && (store.challenges[id].lobbyId.Some? && store.challenges[id].lobbyId.value != "" ==> next.challenges[id].lobbyId == store.challenges[id].lobbyId)
  {
    hide Unique, TeamProblem, TeamAfter;
  }

  lemma {:induction false} LockedForever(run: seq<Timed>, more: seq<Timed>, names: Names, id: string)
    requires id in RunAll(run, names).challenges && RunAll(run, names).challenges[id].state in {Locked, Launched}
    ensures var before, after := RunAll(run, names).challenges[id], RunAll(run + more, names);
            && id in after.challenges && after.challenges[id].locked == before.locked && after.challenges[id].state in {Locked, Launched}
            && after.challenges[id].challenger == before.challenger && after.challenges[id].recipient == before.recipient
            && (before.lobbyId.Some? && before.lobbyId.value != "" ==> after.challenges[id].lobbyId == before.lobbyId)
    decreases |more|
  {
    hide After;
    if more == [] {
      assert run + more == run;
    } else {
      var last := more[|more| - 1];
      assert (run + more)[..|run + more| - 1] == run + more[..|more| - 1];
      LockedForever(run, more[..|more| - 1], names, id);
      LockedRostersStay(RunAll(run + more[..|more| - 1], names), last.command, last.now, names, id);
    }
  }
}
