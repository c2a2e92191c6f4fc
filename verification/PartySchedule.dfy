/** Scheduled nights of utils/party_schedule.py: RSVPs, reminders, and a weekly
    series that keeps its local time. */
module PartySchedule {
  import opened Common
  import PL = PartyLobby

  datatype Recurrence = Once | Weekly

  datatype EventState = PendingConfirmation | Scheduled | Converted | CancelledNight

  datatype Night = Night(
    eventId: string, guildId: int, organizerId: int, title: string, startsAt: int, zone: string, recurrence: Recurrence,
    capacity: int, reminders: seq<int>, state: EventState, lobbyId: Option<string>, delivery: Option<(int, int)>,
    predecessor: Option<string>)

  /** A row of scheduled_rsvps; Maybe is a row that is not going. */
  datatype Row = Row(userId: int, position: int, waitlisted: bool, going: bool, preferences: PL.Preferences, joinedAt: int)

  /** A reminder that was claimed: the night, the occurrence, the lead in minutes. */
  datatype Reminder = Reminder(eventId: string, occurrence: int, minutes: int)

  datatype Store = Store(nights: map<string, Night>, rsvps: map<string, seq<Row>>, reminders: set<Reminder>)

  const EMPTY_STORE := Store(map[], map[], {})

  datatype Error =
    | BadCapacity | BadReminders | NightNotFound | NotOrganizer | NotConfirmed | ConvertedElsewhere | NoSuchLocalTime

  // ---- Local time -------------------------------------------------------------------------

  /** A time zone: the local day and clock of an instant, and the instant each of
      the two readings (fold 0 and 1) of a wall time stands for. */
  datatype Zone = Zone(local: int -> (int, int), reading: (int, int, int) -> int)

  predicate Reads(z: Zone, day: int, clock: int, fold: int) { z.local(z.reading(day, clock, fold)) == (day, clock) }

  /** _strict_local_time: no instant for a wall time that does not exist or that
      stands for two instants. */
  function StrictLocalTime(z: Zone, day: int, clock: int): (r: Option<int>)
    ensures r.Some? ==> z.local(r.value) == (day, clock)
  {
    var first, second := z.reading(day, clock, 0), z.reading(day, clock, 1);
    if !Reads(z, day, clock, 0) && !Reads(z, day, clock, 1) then None
    else if Reads(z, day, clock, 0) && Reads(z, day, clock, 1) && first != second then None
    else if Reads(z, day, clock, 0) then Some(first) else Some(second)
  }

  /** The series' time in week `week`. */
  function InWeek(z: Zone, startsAt: int, week: int): Option<int> {
    StrictLocalTime(z, z.local(startsAt).0 + 7 * week, z.local(startsAt).1)
  }

  /** Whole weeks by the local calendar, never negative. */
  function ElapsedWeeks(z: Zone, startsAt: int, at: int): int {
    var weeks := (z.local(at).0 - z.local(startsAt).0) / 7;
    if weeks < 0 then 0 else weeks
  }

  /** _weekly_occurrence_at_or_after. */
  function WeeklyOccurrence(z: Zone, startsAt: int, at: int): Option<int> {
    var weeks := ElapsedWeeks(z, startsAt, at);
    var occurrence := InWeek(z, startsAt, weeks);
    if occurrence.None? then None
    else if occurrence.value < at then InWeek(z, startsAt, weeks + 1)
    else occurrence
  }

  // ---- RSVP rows --------------------------------------------------------------------------

  function RowOf(rows: seq<Row>, userId: int): (i: nat)
    ensures i <= |rows|
    ensures i < |rows| ==> rows[i].userId == userId
    ensures forall j :: 0 <= j < i ==> rows[j].userId != userId
  {
    if rows == [] || rows[0].userId == userId then 0 else 1 + RowOf(rows[1..], userId)
  }

  predicate IsGoing(rows: seq<Row>, userId: int) {
    var i := RowOf(rows, userId); i < |rows| && rows[i].going
  }

  function GoingRows(rows: seq<Row>): (r: seq<Row>)
    ensures forall x :: x in r <==> x in rows && x.going
  {
    if rows == [] then []
    else if rows[0].going then [rows[0]] + GoingRows(rows[1..])
    else GoingRows(rows[1..])
  }

  function ByPosition(r: Row): seq<int> { [r.position] }

  function Users(rows: seq<Row>): (r: seq<int>)
    ensures |r| == |rows| && forall i :: 0 <= i < |r| ==> r[i] == rows[i].userId
  {
    seq(|rows|, i requires 0 <= i < |rows| => rows[i].userId)
  }

  /** The users of `SELECT ... WHERE response='going' ORDER BY position`. */
  function LineOf(rows: seq<Row>): seq<int> { Users(SortBy(GoingRows(rows), ByPosition)) }

  function IndexIn(line: seq<int>, userId: int): (i: nat)
    ensures i <= |line|
    ensures i < |line| ==> line[i] == userId
    ensures forall j :: 0 <= j < i ==> line[j] != userId
  {
    if line == [] || line[0] == userId then 0 else 1 + IndexIn(line[1..], userId)
  }

  function Renumbered(rows: seq<Row>, line: seq<int>, capacity: int): (r: seq<Row>)
    ensures |r| == |rows|
  {
    seq(|rows|, i requires 0 <= i < |rows| =>
      var k := IndexIn(line, rows[i].userId);
      if k < |line| then rows[i].(position := k + 1, waitlisted := k >= capacity) else rows[i])
  }

  /** Delete the row a user has. */
  function Deleted(rows: seq<Row>, userId: int): seq<Row> {
    var i := RowOf(rows, userId);
    if i < |rows| then rows[..i] + rows[i + 1..] else rows
  }

  /** _remove_going_and_reindex, for a user who is going. */
  function Reindexed(rows: seq<Row>, userId: int, capacity: int): seq<Row> {
    var rest := Deleted(rows, userId);
    Renumbered(rest, LineOf(rest), capacity)
  }

  function RsvpRows(rows: seq<Row>, capacity: int, userId: int, p: PL.Preferences, now: int): seq<Row> {
    var i := RowOf(rows, userId);
    var count := |GoingRows(rows)|;
    if IsGoing(rows, userId) then rows[i := rows[i].(preferences := p)]
    else if i == |rows| then rows + [Row(userId, count + 1, count >= capacity, true, p, now)]
    else rows[i := rows[i].(going := true, position := count + 1, waitlisted := count >= capacity, preferences := p)]
  }

  function MaybeRows(rows: seq<Row>, capacity: int, userId: int, p: PL.Preferences, now: int): seq<Row> {
    var before := if IsGoing(rows, userId) then Reindexed(rows, userId, capacity) else rows;
    var i := RowOf(before, userId);
    if i == |before| then before + [Row(userId, 0, false, false, p, now)]
    else before[i := before[i].(going := false, position := 0, waitlisted := false, preferences := p)]
  }

  function CancelRows(rows: seq<Row>, capacity: int, userId: int): seq<Row> {
    if IsGoing(rows, userId) then Reindexed(rows, userId, capacity) else Deleted(rows, userId)
  }

  // ---- Commands ---------------------------------------------------------------------------

  /** What is derived by hashing, and the zone table. */
  datatype Names = Names(eventId: (int, string) -> string, nextId: (string, int) -> string, zone: string -> Zone)

  datatype Command =
    | Create(guildId: int, organizerId: int, title: string, startsAt: int, zone: string, recurrence: Recurrence, capacity: int,
             reminders: seq<int>, op: string)
    | Confirm(eventId: string, organizerId: int)
    | Rsvp(eventId: string, userId: int, preferences: PL.Preferences)
    | RsvpMaybe(eventId: string, userId: int, preferences: PL.Preferences)
    | CancelRsvp(eventId: string, userId: int)
    | MarkConverted(eventId: string, lobbyId: string)
    | SetDelivery(eventId: string, delivery: Option<(int, int)>)
    | ClaimReminders(order: seq<string>)

  function MoreFirst(minutes: int): seq<int> { [-minutes] }

  /** The distinct leads, the longest first. */
  function Leads(minutes: seq<int>): seq<int> {
    if minutes == [] then []
    else
      var n := |minutes| - 1;
      var before := Leads(minutes[..n]);
      if minutes[n] in before then before else SortBy(before + [minutes[n]], MoreFirst)
  }

  function RowsOf(store: Store, eventId: string): seq<Row> {
    if eventId in store.rsvps then store.rsvps[eventId] else []
  }

  function WithRows(store: Store, eventId: string, rows: seq<Row>): Store {
    store.(rsvps := store.rsvps[eventId := rows])
  }

  function CreateNight(store: Store, c: Command, names: Names): Result<Store, Error>
    requires c.Create?
  {
    var id := names.eventId(c.guildId, c.op);
    if c.capacity < 2 || c.capacity > 20 then Err(BadCapacity)
    else if c.reminders == [] || exists m :: m in c.reminders && (m < 5 || m > 10080) then Err(BadReminders)
    else if id in store.nights then Ok(store)
    else Ok(store.(nights := store.nights[id := Night(id, c.guildId, c.organizerId, c.title, c.startsAt, c.zone, c.recurrence,
                                                      c.capacity, Leads(c.reminders), PendingConfirmation, None, None, None)]))
  }

  function ConfirmNight(store: Store, eventId: string, organizerId: int): Result<Store, Error> {
    if eventId !in store.nights then Err(NightNotFound)
    else if store.nights[eventId].organizerId != organizerId then Err(NotOrganizer)
    else if store.nights[eventId].state == PendingConfirmation then
      Ok(store.(nights := store.nights[eventId := store.nights[eventId].(state := Scheduled)]))
    else Ok(store)
  }

  /** The row a weekly conversion adds for the next week. */
  function Successor(night: Night, eventId: string, nextId: string, nextStart: int): Night {
    night.(eventId := nextId, startsAt := nextStart, state := Scheduled, lobbyId := None, predecessor := Some(eventId))
  }

  function Convert(store: Store, eventId: string, lobbyId: string, names: Names): Result<Store, Error> {
    if eventId !in store.nights then Err(NightNotFound)
    else
      var night := store.nights[eventId];
      if night.lobbyId.Some? && night.lobbyId.value != "" && night.lobbyId.value != lobbyId then Err(ConvertedElsewhere)
      else if night.recurrence == Once then
        Ok(store.(nights := store.nights[eventId := night.(state := Converted, lobbyId := Some(lobbyId))]))
      else
        var next := InWeek(names.zone(night.zone), night.startsAt, 1);
        if next.None? then Err(NoSuchLocalTime)
        else
          var nextId := names.nextId(eventId, next.value);
          var nights := if nextId in store.nights then store.nights
                        else store.nights[nextId := Successor(night, eventId, nextId, next.value)];
          Ok(store.(nights := nights[eventId := nights[eventId].(state := Converted, lobbyId := Some(lobbyId), delivery := None)]))
  }

  function Occurrence(night: Night, at: int, names: Names): Option<int> {
    if night.recurrence == Weekly && night.startsAt < at then WeeklyOccurrence(names.zone(night.zone), night.startsAt, at)
    else Some(night.startsAt)
  }

  /** Times are in minutes. */
  predicate InWindow(occurrence: int, minutes: int, at: int) { occurrence - minutes <= at < occurrence }

  /** The leads of one night: claimed now, unless claimed before. */
  function ClaimLeads(claimed: set<Reminder>, eventId: string, occurrence: int, leads: seq<int>, at: int): (set<Reminder>, seq<Reminder>)
    decreases |leads|
  {
    if leads == [] then (claimed, [])
    else
      var r := Reminder(eventId, occurrence, leads[0]);
      if !InWindow(occurrence, leads[0], at) || r in claimed then ClaimLeads(claimed, eventId, occurrence, leads[1..], at)
      else
        var (rest, due) := ClaimLeads(claimed + {r}, eventId, occurrence, leads[1..], at);
        (rest, [r] + due)
  }

  /** claim_due_reminders over the scheduled nights in `order`. */
  function Claim(store: Store, order: seq<string>, at: int, names: Names): Result<(set<Reminder>, seq<Reminder>), Error>
    decreases |order|
  {
    if order == [] then Ok((store.reminders, []))
    else if order[0] !in store.nights || store.nights[order[0]].state != Scheduled then Claim(store, order[1..], at, names)
    else
      var night := store.nights[order[0]];
      match Occurrence(night, at, names)
      case None => Err(NoSuchLocalTime)
      case Some(occurrence) =>
        var (claimed, due) := ClaimLeads(store.reminders, order[0], occurrence, night.reminders, at);
        match Claim(store.(reminders := claimed), order[1..], at, names)
        case Err(e) => Err(e)
        case Ok((all, more)) => Ok((all, due + more))
  }

  function RsvpChange(store: Store, c: Command, now: int): Result<Store, Error>
    requires c.Rsvp? || c.RsvpMaybe? || c.CancelRsvp?
  {
    if c.eventId !in store.nights then Err(NightNotFound)
    else
      var night, rows := store.nights[c.eventId], RowsOf(store, c.eventId);
      if !c.CancelRsvp? && night.state != Scheduled then Err(NotConfirmed)
      else
        match c
        case Rsvp(id, userId, p) => Ok(WithRows(store, id, RsvpRows(rows, night.capacity, userId, p, now)))
        case RsvpMaybe(id, userId, p) => Ok(WithRows(store, id, MaybeRows(rows, night.capacity, userId, p, now)))
        case CancelRsvp(id, userId) =>
          if RowOf(rows, userId) == |rows| then Ok(store) else Ok(WithRows(store, id, CancelRows(rows, night.capacity, userId)))
  }

  function Exec(store: Store, c: Command, now: int, names: Names): Result<Store, Error> {
    match c
    case Create(_, _, _, _, _, _, _, _, _) => CreateNight(store, c, names)
    case Confirm(id, organizerId) => ConfirmNight(store, id, organizerId)
    case MarkConverted(id, lobbyId) => Convert(store, id, lobbyId, names)
    case SetDelivery(id, delivery) =>
      if id !in store.nights then Err(NightNotFound)
      else Ok(store.(nights := store.nights[id := store.nights[id].(delivery := delivery)]))
    case ClaimReminders(order) =>
      (match Claim(store, order, now, names) case Ok((claimed, _)) => Ok(store.(reminders := claimed)) case Err(e) => Err(e))
    case _ => RsvpChange(store, c, now)
  }

  function After(store: Store, c: Command, now: int, names: Names): Store {
    match Exec(store, c, now, names) case Ok(next) => next case Err(_) => store
  }

  datatype Timed = Timed(command: Command, now: int)

  function RunAll(run: seq<Timed>, names: Names): Store {
    if run == [] then EMPTY_STORE
    else After(RunAll(run[..|run| - 1], names), run[|run| - 1].command, run[|run| - 1].now, names)
  }
}
