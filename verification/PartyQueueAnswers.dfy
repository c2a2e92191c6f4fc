/** The answers of a ready check: which are accepted, what they leave in the queue,
    and over a run, that each one stored is its player's last. */
module PartyQueueAnswers {
  import opened Common
  import opened PartyQueue
  import opened PartyQueueInvariant

  function AnswerOf(q: Queue, id: int): Option<ReadyStatus> { if id in q.ready then Some(q.ready[id]) else None }

  /** Why a response is refused, if it is. */
  function Refusal(q: Queue, userId: int, status: ReadyStatus, now: int, c: Config): Option<QueueError> {
    if q.status != ReadyCheck then Some(NotReadyChecking)
    else if q.deadline.Some? && q.deadline.value <= now then Some(CheckExpired)
    else if forall m :: m in q.active ==> m.userId != userId then Some(NotActive)
    else if status == Need5 && q.extensionsUsed >= c.maxExtensions then Some(ExtensionLimit)
    else if status == Need5 && q.deadline.None? then Some(NoDeadline)
    else None
  }

  lemma RespondsWhen(q: Queue, userId: int, status: ReadyStatus, now: int, c: Config)
    ensures Responded(q, userId, status, now, c).Err? <==> Refusal(q, userId, status, now, c).Some?
    ensures Responded(q, userId, status, now, c).Err? ==> Responded(q, userId, status, now, c).error == Refusal(q, userId, status, now, c).value
  {
    HasMember(q.active, userId);
    hide Has;
  }

  /** An accepted Ready or Need5 replaces this player's answer and no other; a Need5
      moves the deadline by one extension, out of the budget. */
  lemma AnswerRecords(q: Queue, userId: int, status: ReadyStatus, now: int, c: Config)
    requires Responded(q, userId, status, now, c).Ok? && status != Drop
    ensures var (p, promoted) := Responded(q, userId, status, now, c).value;
            && promoted == None && AnswerOf(p, userId) == Some(status) && (forall id :: id != userId ==> AnswerOf(p, id) == AnswerOf(q, id))
            && p.active == q.active && p.waitlist == q.waitlist && p.capacity == q.capacity && p.status == q.status && p.nextSequence == q.nextSequence
            && (status == Ready ==> p.deadline == q.deadline && p.extensionsUsed == q.extensionsUsed)
            && (status == Need5 ==> q.deadline.Some? && p.deadline == Some(q.deadline.value + c.extension) && p.extensionsUsed == q.extensionsUsed + 1)
  {
    hide Has;
  }

  // ---- Over a run -----------------------------------------------------------------

  /** The command is a response of this player, and was accepted. */
  predicate Responds(c: Config, q: Queue, command: Command, id: int) {
    command.DoRespond? && command.responder == id && Responded(q, id, command.answer, command.respondedAt, c).Ok?
  }

  predicate Starts(c: Config, q: Queue, command: Command) { command.DoStart? && ReadyCheckStarted(q, command.startedAt, c).Ok? }

  /** An answer there after a command was given by it, or was there before it and
      the command neither answers for that player nor starts a check. */
  lemma AnswersStay(c: Config, q: Queue, command: Command, id: int)
    requires AnswerOf(After(c, q, command), id).Some?
    ensures var s := AnswerOf(After(c, q, command), id);
            || (Responds(c, q, command, id) && s == Some(command.answer) && command.answer != Drop)
            || (AnswerOf(q, id) == s && !Responds(c, q, command, id) && !Starts(c, q, command))
  {
    hide Has, Remove, Pick, NotIn, DistinctRoles, NotReady;
    match command
    case DoResize(capacity) => FillKeepsAnswers(q.(capacity := capacity));
    case DoReset(ids) =>
    case DoJoin(user, roles) =>
    case DoLeave(user) =>
    case DoStart(now) =>
    case DoRespond(user, status, now) =>
    case DoExpire(now) =>
      var late := NotReady(q, q.active);
      FillKeepsAnswers(q.(active := RemoveAll(q.active, late), ready := ForgetReady(q.ready, late)));
  }

  lemma {:induction false} FillKeepsAnswers(q: Queue)
    ensures FillSeats(q).0.ready == q.ready
    decreases |q.waitlist|
  {
    if |q.active| < q.capacity && q.waitlist != [] { FillKeepsAnswers(Promote(q).0); }
  }

  lemma {:induction false} AfterAllSnoc(c: Config, q: Queue, run: seq<Command>)
    requires run != []
    ensures AfterAll(c, q, run) == After(c, AfterAll(c, q, run[..|run| - 1]), run[|run| - 1])
    decreases |run|
  {
    hide After;
    var n := |run| - 1;
    if n > 0 {
      AfterAllSnoc(c, After(c, q, run[0]), run[1..]);
      assert run[..n][1..] == run[1..][..n - 1];
    } else {
      assert run[..0] == [] && run[1..] == [];
    }
  }

  /** This command of the run gave the answer, and no later one answered for the
      player or started a check. */
  ghost predicate LastAnswer(c: Config, q: Queue, run: seq<Command>, i: nat, id: int, s: ReadyStatus)
    requires i < |run|
  {
    && Responds(c, AfterAll(c, q, run[..i]), run[i], id) && run[i].answer == s && s != Drop
    && forall j :: i < j < |run| ==> !Responds(c, AfterAll(c, q, run[..j]), run[j], id) && !Starts(c, AfterAll(c, q, run[..j]), run[j])
  }

  /** In every run from a queue without answers, an answer stored as Ready, or as
      asking for time, was that player's last response since the check began. */
  lemma {:induction false} StoredAnswersAreTheLast(c: Config, q: Queue, run: seq<Command>, id: int)
    requires q.ready == map[] && AnswerOf(AfterAll(c, q, run), id).Some?
    ensures exists i :: 0 <= i < |run| && LastAnswer(c, q, run, i, id, AnswerOf(AfterAll(c, q, run), id).value)
    decreases |run|
  {
    hide After, Responded, ReadyCheckStarted;
    if run != [] {
      var n := |run| - 1;
      var before, last := run[..n], run[n];
      AfterAllSnoc(c, q, run);
      AnswersStay(c, AfterAll(c, q, before), last, id);
      var s := AnswerOf(AfterAll(c, q, run), id).value;
      if Responds(c, AfterAll(c, q, before), last, id) && last.answer == s && s != Drop {
        assert LastAnswer(c, q, run, n, id, s);
      } else {
        StoredAnswersAreTheLast(c, q, before, id);
        var i :| 0 <= i < n && LastAnswer(c, q, before, i, id, s);
        forall j | 0 <= j < n ensures before[..j] == run[..j] && before[j] == run[j] { }
        assert LastAnswer(c, q, run, i, id, s);
      }
    }
  }
}
