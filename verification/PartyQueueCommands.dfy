/** What each command leaves of a queue but its seats: capacity, status, deadline,
    extensions, answers. */
module PartyQueueCommands {
  import opened Common
  import opened PartyQueue
  import opened PartyQueueInvariant
  import opened PartyQueueAnswers

  /** A check begins. */
  predicate Begins(q: Queue, command: Command) { command.DoStart? && q.active != [] }

  predicate IsReset(q: Queue, command: Command) { command.DoReset? && RosterReset(q, command.activeIds).Ok? }

  /** The check is given up: by a reset of the queue, or by one who drops out. */
  predicate GivenUp(c: Config, q: Queue, command: Command) {
    IsReset(q, command) || (command.DoRespond? && command.answer == Drop && Responds(c, q, command, command.responder))
  }

  predicate Extends(c: Config, q: Queue, command: Command) {
    command.DoRespond? && command.answer == Need5 && Responds(c, q, command, command.responder)
  }

  /** The check is past its deadline, and somebody looks. */
  predicate RunsOut(q: Queue, command: Command) {
    command.DoExpire? && q.status == ReadyCheck && q.deadline.Some? && q.deadline.value <= command.expiredAt
  }

  predicate Seated(members: seq<Member>, id: int) { exists m :: m in members && m.userId == id }

  predicate NewPlayer(q: Queue, command: Command) {
    command.DoJoin? && q.status != Cancelled && !Seated(q.active + q.waitlist, command.joiner)
  }

  function CapacityAfter(q: Queue, command: Command): int {
    if command.DoResize? && 1 <= command.capacity && |q.active| <= command.capacity then command.capacity else q.capacity
  }

  function StatusAfter(c: Config, q: Queue, command: Command): QueueStatus {
    if Begins(q, command) then ReadyCheck
    else if GivenUp(c, q, command) then Open
    else if RunsOut(q, command) then (if c.cancelOnTimeout then Cancelled else Open)
    else q.status
  }

  function DeadlineAfter(c: Config, q: Queue, command: Command): Option<int> {
    if Begins(q, command) then Some(command.startedAt + c.timeout)
    else if GivenUp(c, q, command) || (RunsOut(q, command) && !c.cancelOnTimeout) then None
    else if Extends(c, q, command) && q.deadline.Some? then Some(q.deadline.value + c.extension)
    else q.deadline
  }

  function ExtensionsAfter(c: Config, q: Queue, command: Command): int {
    if Begins(q, command) || IsReset(q, command) then 0 else if Extends(c, q, command) then q.extensionsUsed + 1 else q.extensionsUsed
  }

  /** A departure takes the player's own answer along; without cancellation a check
      that runs out takes those of the players it sends away. */
  function AnswerAfter(c: Config, q: Queue, command: Command, id: int): Option<ReadyStatus> {
    if Begins(q, command) || GivenUp(c, q, command) then None
    else if Responds(c, q, command, id) then Some(command.answer)
    else if command.DoLeave? && command.leaver == id && Seated(q.active + q.waitlist, id) then None
    else if RunsOut(q, command) && !c.cancelOnTimeout && Seated(q.active, id) && AnswerOf(q, id) != Some(Ready) then None
    else AnswerOf(q, id)
  }

  /** Everything of a queue but its members, after any command. */
  ghost predicate LeftSo(c: Config, q: Queue, command: Command, p: Queue) {
    && p.capacity == CapacityAfter(q, command) && p.status == StatusAfter(c, q, command)
    && p.deadline == DeadlineAfter(c, q, command) && p.extensionsUsed == ExtensionsAfter(c, q, command)
    && p.nextSequence == q.nextSequence + (if NewPlayer(q, command) then 1 else 0)
    && forall id :: AnswerOf(p, id) == AnswerAfter(c, q, command, id)
  }

  lemma SeatedIs(members: seq<Member>, id: int)
    ensures Seated(members, id) <==> Has(members, id)
  {
    HasMember(members, id);
  }

  lemma PromoteFields(q: Queue)
    ensures var p := Promote(q).0; p == q.(active := p.active, waitlist := p.waitlist)
  {
  }

  lemma {:induction false} FillFields(q: Queue)
    ensures var p := FillSeats(q).0; p == q.(active := p.active, waitlist := p.waitlist)
    decreases |q.waitlist|
  {
    if |q.active| < q.capacity && q.waitlist != [] { FillFields(Promote(q).0); }
  }

  lemma LeavesSo(c: Config, q: Queue, id: int)
    ensures LeftSo(c, q, DoLeave(id), Left(q, id).0)
  {
    hide Has, Remove, Promote;
    var all := Everyone(q);
    HasMember(q.active, id);
    HasMember(q.waitlist, id);
    SeatedIs(all, id);
    HasMember(all, id);
    PromoteFields(q.(active := Remove(q.active, id), waitlist := Remove(q.waitlist, id), ready := ForgetReady(q.ready, [id])));
  }

  lemma RespondsSo(c: Config, q: Queue, id: int, status: ReadyStatus, now: int)
    requires Responded(q, id, status, now, c).Ok?
    ensures LeftSo(c, q, DoRespond(id, status, now), Responded(q, id, status, now, c).value.0)
  {
    hide Has, Remove, Promote;
    PromoteFields(q.(active := Remove(q.active, id)));
  }

  lemma ExpiresSo(c: Config, q: Queue, now: int)
    ensures LeftSo(c, q, DoExpire(now), Expired(q, now, c).0)
  {
    hide Has, RemoveAll, FillSeats, NotReady;
    var late := NotReady(q, q.active);
    NotReadyAre(q, q.active);
    forall id ensures Seated(q.active, id) <==> Has(q.active, id) { SeatedIs(q.active, id); }
    FillFields(q.(active := RemoveAll(q.active, late), ready := ForgetReady(q.ready, late)));
  }

  lemma JoinsSo(c: Config, q: Queue, id: int, roles: seq<string>)
    ensures LeftSo(c, q, DoJoin(id, roles), After(c, q, DoJoin(id, roles)))
  {
    hide Has, DistinctRoles;
    SeatedIs(Everyone(q), id);
  }

  lemma ResetsSo(c: Config, q: Queue, ids: Option<seq<int>>)
    ensures LeftSo(c, q, DoReset(ids), After(c, q, DoReset(ids)))
  {
    hide Has, Pick, NotIn, Repeats;
  }

  /** Every command, accepted or refused, leaves a queue's capacity, status,
      deadline, extensions and every single answer so. */
  lemma EveryCommandLeavesSo(c: Config, q: Queue, command: Command)
    ensures LeftSo(c, q, command, After(c, q, command))
  {
    match command
    case DoResize(capacity) =>
      hide FillSeats;
      FillFields(q.(capacity := capacity));
    case DoReset(ids) => ResetsSo(c, q, ids);
    case DoJoin(id, roles) => JoinsSo(c, q, id, roles);
    case DoLeave(id) => LeavesSo(c, q, id);
    case DoStart(now) =>
    case DoRespond(id, status, now) =>
      hide LeftSo, Responded;
      if Responded(q, id, status, now, c).Ok? { RespondsSo(c, q, id, status, now); } else { RefusedSo(c, q, id, status, now); }
    case DoExpire(now) => ExpiresSo(c, q, now);
  }

  lemma RefusedSo(c: Config, q: Queue, id: int, status: ReadyStatus, now: int)
    requires Responded(q, id, status, now, c).Err?
    ensures LeftSo(c, q, DoRespond(id, status, now), q)
  {
    hide Responded;
  }
}
