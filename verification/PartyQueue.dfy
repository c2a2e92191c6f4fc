/** utils/party_queue.py: capacity, waitlist, role-aware promotion and ready checks. */
module PartyQueue {
  import opened Common

  datatype ReadyStatus = Ready | Need5 | Drop

  datatype QueueStatus = Open | ReadyCheck | Cancelled

  datatype Member = Member(userId: int, roles: seq<string>, joinedSequence: int)

  /** Instants and durations are integers on one clock. */
  datatype Queue = Queue(
    capacity: int,
    active: seq<Member>,
    waitlist: seq<Member>,
    ready: map<int, ReadyStatus>,
    status: QueueStatus,
    deadline: Option<int>,
    extensionsUsed: int,
    nextSequence: int)

  datatype Config = Config(timeout: int, extension: int, maxExtensions: int, cancelOnTimeout: bool)

  ghost predicate ValidConfig(c: Config) {
    c.timeout > 0 && c.extension > 0 && c.maxExtensions >= 0
  }

  datatype QueueError =
    | BadCapacity | AlreadyExists | DoesNotExist | BelowRoster | DuplicatePlayers | UnknownPlayers
    | QueueIsCancelled | EmptyLobby | NotReadyChecking | CheckExpired | NotActive | ExtensionLimit | NoDeadline

  datatype Destination = ToActive | ToWaitlist | Unchanged

  function NewQueue(capacity: int): Queue {
    Queue(capacity, [], [], map[], Open, None, 0, 1)
  }

  // ---- Member lists ---------------------------------------------------------

  function Ids(members: seq<Member>): (r: seq<int>)
    ensures |r| == |members|
  {
    seq(|members|, i requires 0 <= i < |members| => members[i].userId)
  }

  /** The place of the user's first entry, or the length. */
  function Find(members: seq<Member>, userId: int): (i: nat)
    ensures i <= |members|
    ensures i < |members| ==> members[i].userId == userId
    ensures forall j :: 0 <= j < i ==> members[j].userId != userId
  {
    if members == [] then 0
    else if members[0].userId == userId then 0
    else 1 + Find(members[1..], userId)
  }

  predicate Has(members: seq<Member>, userId: int) { Find(members, userId) < |members| }

  /** _remove_member: the list without the user's first entry. */
  function Remove(members: seq<Member>, userId: int): seq<Member> {
    var i := Find(members, userId);
    if i < |members| then members[..i] + members[i + 1..] else members
  }

  function RemoveAll(members: seq<Member>, ids: seq<int>): seq<Member> {
    if ids == [] then members else RemoveAll(Remove(members, ids[0]), ids[1..])
  }

  function ForgetReady(ready: map<int, ReadyStatus>, ids: seq<int>): map<int, ReadyStatus> {
    map id | id in ready && id !in ids :: ready[id]
  }

  function Everyone(q: Queue): seq<Member> { q.active + q.waitlist }

  function DistinctRoles(roles: seq<string>): seq<string> {
    if roles == [] then []
    else
      var n := |roles| - 1;
      var before := DistinctRoles(roles[..n]);
      if roles[n] in before then before else before + [roles[n]]
  }

  // ---- Promotion ------------------------------------------------------------

  function CoveredRoles(active: seq<Member>): set<string> {
    set i, j | 0 <= i < |active| && 0 <= j < |active[i].roles| :: active[i].roles[j]
  }

  function CountMissing(roles: seq<string>, covered: set<string>): nat {
    if roles == [] then 0 else (if roles[0] in covered then 0 else 1) + CountMissing(roles[1..], covered)
  }

  function Missing(active: seq<Member>, m: Member): int {
    CountMissing(m.roles, CoveredRoles(active))
  }

  /** Most roles the active players lack first, then the earliest to join. */
  function Rank(active: seq<Member>): Member -> seq<int> {
    m => [-Missing(active, m), m.joinedSequence]
  }

  function Promote(q: Queue): (r: (Queue, Option<int>)) {
    if |q.active| >= q.capacity || q.waitlist == [] then (q, None)
    else
      var i := MinIndex(q.waitlist, Rank(q.active));
      (q.(active := q.active + [q.waitlist[i]], waitlist := q.waitlist[..i] + q.waitlist[i + 1..]),
       Some(q.waitlist[i].userId))
  }

  /** Promote while a seat is free and somebody waits. */
  function FillSeats(q: Queue): (Queue, seq<int>)
    decreases |q.waitlist|
  {
    if |q.active| >= q.capacity || q.waitlist == [] then (q, [])
    else
      var (p, id) := Promote(q);
      var (r, ids) := FillSeats(p);
      (r, [id.value] + ids)
  }

  // ---- Operations -----------------------------------------------------------

  function Resized(q: Queue, capacity: int): Result<(Queue, seq<int>), QueueError> {
    if capacity < 1 then Err(BadCapacity)
    else if capacity < |q.active| then Err(BelowRoster)
    else Ok(FillSeats(q.(capacity := capacity)))
  }

  function Pick(members: seq<Member>, ids: seq<int>): (r: seq<Member>)
    requires forall id :: id in ids ==> Has(members, id)
    ensures |r| == |ids|
  {
    seq(|ids|, i requires 0 <= i < |ids| => var id := ids[i]; assert id in ids && Has(members, id); members[Find(members, id)])
  }

  function NotIn(members: seq<Member>, ids: seq<int>): (r: seq<Member>)
    ensures forall m :: m in r <==> m in members && m.userId !in ids
  {
    if members == [] then []
    else if members[0].userId in ids then NotIn(members[1..], ids)
    else [members[0]] + NotIn(members[1..], ids)
  }

  function SequenceKey(m: Member): seq<int> { [m.joinedSequence] }

  predicate Repeats(ids: seq<int>) { exists i, j :: 0 <= i < j < |ids| && ids[i] == ids[j] }

  function Reopened(q: Queue): Queue {
    q.(status := Open, ready := map[], deadline := None, extensionsUsed := 0)
  }

  function RosterReset(q: Queue, activeIds: Option<seq<int>>): Result<Queue, QueueError> {
    if activeIds.None? then Ok(Reopened(q))
    else if Repeats(activeIds.value) then Err(DuplicatePlayers)
    else if exists id :: id in activeIds.value && !Has(Everyone(q), id) then Err(UnknownPlayers)
    else Ok(Reopened(q.(active := Pick(Everyone(q), activeIds.value),
                        waitlist := SortBy(NotIn(Everyone(q), activeIds.value), SequenceKey))))
  }

  function Joined(q: Queue, userId: int, roles: seq<string>): Result<(Queue, Destination), QueueError> {
    if q.status == Cancelled then Err(QueueIsCancelled)
    else if Has(Everyone(q), userId) then Ok((q, Unchanged))
    else
      var m := Member(userId, DistinctRoles(roles), q.nextSequence);
      var next := q.(nextSequence := q.nextSequence + 1);
      if |q.active| < q.capacity then Ok((next.(active := q.active + [m]), ToActive))
      else Ok((next.(waitlist := q.waitlist + [m]), ToWaitlist))
  }

  function Left(q: Queue, userId: int): (Queue, Option<int>) {
    var out := q.(active := Remove(q.active, userId), waitlist := Remove(q.waitlist, userId),
                  ready := ForgetReady(q.ready, [userId]));
    if Has(q.active, userId) then Promote(out)
    else if Has(q.waitlist, userId) then (out, None)
    else (q, None)
  }

  function ReadyCheckStarted(q: Queue, now: int, c: Config): Result<Queue, QueueError> {
    if q.active == [] then Err(EmptyLobby)
    else Ok(q.(status := ReadyCheck, ready := map[], extensionsUsed := 0, deadline := Some(now + c.timeout)))
  }

  function Responded(q: Queue, userId: int, status: ReadyStatus, now: int, c: Config): Result<(Queue, Option<int>), QueueError> {
    if q.status != ReadyCheck then Err(NotReadyChecking)
    else if q.deadline.Some? && now >= q.deadline.value then Err(CheckExpired)
    else if !Has(q.active, userId) then Err(NotActive)
    else match status
      case Drop =>
        var (p, promoted) := Promote(q.(active := Remove(q.active, userId)));
        Ok((p.(status := Open, ready := map[], deadline := None), promoted))
      case Need5 =>
        if q.extensionsUsed >= c.maxExtensions then Err(ExtensionLimit)
        else if q.deadline.None? then Err(NoDeadline)
        else Ok((q.(extensionsUsed := q.extensionsUsed + 1, deadline := Some(q.deadline.value + c.extension),
                    ready := q.ready[userId := Need5]), None))
      case Ready =>
        Ok((q.(ready := q.ready[userId := Ready]), None))
  }

  function NotReady(q: Queue, members: seq<Member>): seq<int> {
    if members == [] then []
    else
      var id := members[0].userId;
      (if id in q.ready && q.ready[id] == Ready then [] else [id]) + NotReady(q, members[1..])
  }

  function Expired(q: Queue, now: int, c: Config): (Queue, seq<int>) {
    if q.status != ReadyCheck || q.deadline.None? || now < q.deadline.value then (q, [])
    else
      var late := NotReady(q, q.active);
      if c.cancelOnTimeout then (q.(status := Cancelled), late)
      else
        var kept := q.(active := RemoveAll(q.active, late), ready := ForgetReady(q.ready, late));
        (FillSeats(kept).0.(status := Open, deadline := None), late)
  }

  // ---- The invariant --------------------------------------------------------

  predicate Clash(m: Member, n: Member) {
    m.userId == n.userId || m.joinedSequence == n.joinedSequence
  }

  ghost predicate AllApart(members: seq<Member>) {
    forall i, j :: 0 <= i < j < |members| ==> !Clash(members[i], members[j])
  }

  ghost predicate InJoinOrder(members: seq<Member>) {
    forall i, j :: 0 <= i < j < |members| ==> members[i].joinedSequence < members[j].joinedSequence
  }

  ghost predicate Tidy(q: Queue) {
    && q.capacity >= 1 && |q.active| <= q.capacity
    && AllApart(Everyone(q))
    && (forall m :: m in Everyone(q) ==> m.joinedSequence < q.nextSequence)
    && InJoinOrder(q.waitlist)
    && (forall id :: id in q.ready ==> Has(q.active, id))
  }

  /** Tidy, and nobody waits while a seat is free. */
  ghost predicate Sound(q: Queue) {
    Tidy(q) && (q.waitlist != [] ==> |q.active| == q.capacity)
  }

  /** A ready check that began at `start` ends when its extensions say. */
  ghost predicate OnTime(q: Queue, start: int, c: Config) {
    q.status == ReadyCheck ==>
      && 0 <= q.extensionsUsed <= c.maxExtensions
      && q.deadline == Some(start + c.timeout + q.extensionsUsed * c.extension)
  }
}
