/** The operations as concurrent requests. Each reads the database once, keeps local copies,
    and commits later, possibly after others have committed. A commit is atomic and fails as
    a whole when it meets a key that is already there; the webhook also locks its booking's
    row from its read to its first commit. */
module Interleaving {
  import opened Model
  import opened Operations

  type Pid = nat

  /** Where a request stands: finished, or with what it has read and means to write. */
  datatype Phase =
    | Done(outcome: Outcome)
    | InsertHold(room: RoomId, hold: Hold)
    | DropHold(room: RoomId)
    | InsertBooking(row: Booking)
    | ConfirmAtDesk(id: BookingId, seen: Booking, payment: Payment)
    | MoveStay(id: BookingId, status: Status, answer: Answer, room: RoomId, seenRoom: Room, newRoom: Room)
    | WriteRoom(room: RoomId, seenRoom: Room, newRoom: Room, answer: Answer)
    | WriteRate(name: string, rate: Option<real>, capacity: Option<int>)
    | RemoveHolds(rooms: set<RoomId>)
    | CancelBookings(ids: set<BookingId>, holds: set<RoomId>)
    | AwaitProvider(id: BookingId)
    // the webhook
    | AwaitLock(ev: PaymentEvent)
    | RecordEvent(ev: PaymentEvent, outcome: Outcome)
    | LockedRecord(ev: PaymentEvent, id: BookingId)
    | LockedCancel(ev: PaymentEvent, id: BookingId)
    | LockedConfirm(ev: PaymentEvent, id: BookingId, seen: Booking)

  datatype System = System(db: State, procs: map<Pid, Phase>, locks: map<BookingId, Pid>)

  datatype Action =
    | Begin(pid: Pid, step: Step)
    | Advance(pid: Pid)
    | Elapse(time: nat)

  // ---------------------------------------------------------------- read phase

  /** What a request has in hand after its reads: the decision the operation takes on the
      database as it is now, without any of its writes. */
  function Read(db: State, step: Step): Phase {
    match step
    case PlaceHold(room, guest) =>
      var r := HoldRoom(db, room, guest);
      if r.outcome.Ok? then InsertHold(room, r.state.holds[room]) else Done(r.outcome)
    case Book(client, req) =>
      var r := CreateBooking(db, client, req);
      if r.outcome.Ok? then InsertBooking(r.state.bookings[db.nextId])
      else if r.outcome == Raised(HoldExpired) then DropHold(req.room)
      else Done(r.outcome)
    case PayOffline(id, staff, amount, currency) =>
      var r := RecordOfflinePayment(db, id, staff, amount, currency);
      if r.outcome.Ok? || r.outcome == Raised(KeyClash) then
        ConfirmAtDesk(id, db.bookings[id], Payment(amount, currency, Offline, None, Some(staff)))
      else Done(r.outcome)
    case Deliver(ev) =>
      if ev.id in db.events then Done(Ok(Duplicate))
      else if ev.kind != SUCCEEDED then RecordEvent(ev, Ok(Ignored))
      else AwaitLock(ev)
    case PayOnline(id, guest, _) =>
      if id !in db.bookings then Done(Raised(BookingMissing))
      else if db.bookings[id].guest != guest then Done(Raised(NotYours))
      else if db.bookings[id].status.Confirmed? then Done(Ok(AlreadyPaid))
      else if !db.bookings[id].status.Processing? then Done(Raised(NotProcessing))
      else AwaitProvider(id)
    case Arrive(id) =>
      var r := CheckInGuest(db, id);
      if r.outcome == Ok(GuestIn) then
        var room := db.bookings[id].room;
        MoveStay(id, CheckedIn, GuestIn, room, db.rooms[room], r.state.rooms[room])
      else Done(r.outcome)
    case Depart(id) =>
      var r := CheckOutGuest(db, id);
      if r.outcome == Ok(GuestOut) then
        var room := db.bookings[id].room;
        MoveStay(id, Completed, GuestOut, room, db.rooms[room], r.state.rooms[room])
      else Done(r.outcome)
    case CleanRoom(room) =>
      var r := MarkRoomClean(db, room);
      if r.outcome.Ok? then WriteRoom(room, db.rooms[room], r.state.rooms[room], r.outcome.answer) else Done(r.outcome)
    case Reprice(name, rate, capacity) =>
      var r := UpdateRoomType(db, name, rate, capacity);
      if r.outcome.Ok? then WriteRate(name, rate, capacity) else Done(r.outcome)
    case SweepHolds => RemoveHolds(DeadHolds(db))
    case SweepBookings(grace) => CancelBookings(StaleIds(db, grace), OwnHolds(db, StaleIds(db, grace)))
    case Tick(_) => Done(Ok(Ticked))
  }

  /** What the webhook decides once it has the lock and has read booking, hold and room. */
  function ReadUnderLock(db: State, ev: PaymentEvent, id: BookingId): Phase
    requires id in db.bookings
  {
    var b := db.bookings[id];
    if !b.status.Processing? then LockedRecord(ev, id)
    else if !RightAmount(ev.amount, ev.currency, b) then Done(Raised(AmountMismatch))
    else if !HoldBacks(db, b) then LockedCancel(ev, id)
    else if b.room !in db.rooms then Done(Raised(AmountMismatch))
    else LockedConfirm(ev, id, b)
  }

  // -------------------------------------------------------------- commit phase

  /** An UPDATE only sends the columns that differ from what was read. */
  function Merge(current: Room, seen: Room, new_: Room): Room {
    current.(isAvailable := if new_.isAvailable != seen.isAvailable then new_.isAvailable else current.isAvailable,
             state := if new_.state != seen.state then new_.state else current.state)
  }

  datatype Next = Next(db: State, phase: Phase, locks: map<BookingId, Pid>)

  function ConfirmSeen(db: State, id: BookingId, seen: Booking, payment: Payment): State
    requires id in db.bookings
  {
    db.(bookings := WithStatus(db.bookings, id, Confirmed),
        nights := db.nights + NightRows(id, seen),
        payments := db.payments[id := payment])
  }

  /** The next commit of a request. A request that would write a locked row waits. */
  function Commit(db: State, locks: map<BookingId, Pid>, pid: Pid, phase: Phase): Next {
    match phase
    case Done(_) => Next(db, phase, locks)
    case InsertHold(room, hold) =>
      if room in db.holds then Next(db, Done(Raised(RoomAlreadyHeld)), locks)
      else Next(db.(holds := db.holds[room := hold]), Done(Ok(Held)), locks)
    case DropHold(room) => Next(db.(holds := db.holds - {room}), Done(Raised(HoldExpired)), locks)
    case InsertBooking(row) =>
      Next(db.(bookings := db.bookings[db.nextId := row], nextId := db.nextId + 1), Done(Ok(Booked(db.nextId))), locks)
    case ConfirmAtDesk(id, seen, payment) => CommitAtDesk(db, locks, phase)
    case MoveStay(id, status, answer, room, seenRoom, newRoom) =>
      if id in locks then Next(db, phase, locks)
      else if id !in db.bookings || room !in db.rooms then Next(db, Done(Raised(RoomMissing)), locks)
      else Next(db.(bookings := WithStatus(db.bookings, id, status),
                    rooms := db.rooms[room := Merge(db.rooms[room], seenRoom, newRoom)]), Done(Ok(answer)), locks)
    case WriteRoom(room, seenRoom, newRoom, answer) =>
      if room !in db.rooms then Next(db, Done(Raised(RoomNotFound)), locks)
      else Next(db.(rooms := db.rooms[room := Merge(db.rooms[room], seenRoom, newRoom)]), Done(Ok(answer)), locks)
    case WriteRate(name, rate, capacity) =>
      var r := UpdateRoomType(db, name, rate, capacity);
      Next(r.state, Done(r.outcome), locks)
    case RemoveHolds(rooms) => Next(db.(holds := db.holds - rooms), Done(Ok(Swept(|rooms|))), locks)
    case CancelBookings(ids, holds) =>
      if exists id <- ids :: id in locks then Next(db, phase, locks)
      else Next(db.(bookings := CancelAll(db.bookings, ids), holds := db.holds - holds), Done(Ok(Swept(|ids|))), locks)
    case AwaitProvider(id) =>
      Next(db, Done(if id !in db.bookings then Raised(PaymentNotConfirmed)
                    else if db.bookings[id].status.Cancelled? then Raised(HoldGone)
                    else if !db.bookings[id].status.Confirmed? then Raised(PaymentNotConfirmed)
                    else Ok(PaymentDone(id))), locks)
    case AwaitLock(ev) => TakeLock(db, locks, pid, phase)
    case RecordEvent(ev, outcome) =>
      if ev.id in db.events then Next(db, Done(Ok(Duplicate)), locks) else Next(Logged(db, ev), Done(outcome), locks)
    case LockedRecord(ev, id) =>
      Next(if ev.id in db.events then db else Logged(db, ev), Done(Ok(Duplicate)), locks - {id})
    case LockedCancel(ev, id) =>
      if id !in db.bookings then Next(db, Done(Raised(BookingMissing)), locks - {id})
      else Next(db.(bookings := WithStatus(db.bookings, id, Cancelled)), RecordEvent(ev, Raised(HoldGone)), locks - {id})
    case LockedConfirm(ev, id, seen) => CommitOnline(db, locks, phase)
  }

  /** The desk confirms from what it has read: it does not look at the status again. */
  function CommitAtDesk(db: State, locks: map<BookingId, Pid>, phase: Phase): Next
    requires phase.ConfirmAtDesk?
  {
    var ConfirmAtDesk(id, seen, payment) := phase;
    if id in locks then Next(db, phase, locks)
    else if id !in db.bookings then Next(db, Done(Raised(BookingMissing)), locks)
    else if PaymentClash(db.payments, id, payment) || NightClash(db.nights, seen) then
      Next(db, Done(Raised(KeyClash)), locks)
    else Next(ConfirmSeen(db, id, seen, payment), Done(Ok(PaidOffline(id))), locks)
  }

  function TakeLock(db: State, locks: map<BookingId, Pid>, pid: Pid, phase: Phase): Next
    requires phase.AwaitLock?
  {
    var found := FindByRef(db.bookings, phase.ev.reference);
    if found.None? then Next(db, RecordEvent(phase.ev, Ok(Orphan)), locks)
    else if found.value in locks then Next(db, phase, locks)
    else
      var next := ReadUnderLock(db, phase.ev, found.value);
      Next(db, next, if next.Done? then locks else locks[found.value := pid])
  }

  function CommitOnline(db: State, locks: map<BookingId, Pid>, phase: Phase): Next
    requires phase.LockedConfirm?
  {
    var LockedConfirm(ev, id, seen) := phase;
    if id !in db.bookings then Next(db, Done(Raised(BookingMissing)), locks - {id})
    else if ev.id in db.events || PaymentClash(db.payments, id, OnlinePayment(ev)) || NightClash(db.nights, seen) then
      Next(db, Done(Raised(KeyClash)), locks - {id})
    else
      Next(ConfirmSeen(Logged(db, ev), id, seen, OnlinePayment(ev)).(holds := db.holds - {seen.room}),
           Done(Ok(PaidOnline(id))), locks - {id})
  }

  // ------------------------------------------------------------------ schedules

  function Perform(sys: System, action: Action): System {
    match action
    case Begin(pid, step) =>
      if pid in sys.procs then sys else sys.(procs := sys.procs[pid := Read(sys.db, step)])
    case Advance(pid) =>
      if pid !in sys.procs then sys
      else
        var next := Commit(sys.db, sys.locks, pid, sys.procs[pid]);
        System(next.db, sys.procs[pid := next.phase], next.locks)
    case Elapse(time) => sys.(db := sys.db.(now := sys.db.now + time))
  }

  function Start(db: State): System { System(db, map[], map[]) }

  /** The system after any interleaving of reads, commits and clock ticks. */
  function Schedule(sys: System, actions: seq<Action>): System {
    if actions == [] then sys
    else Perform(Schedule(sys, actions[..|actions| - 1]), actions[|actions| - 1])
  }

  lemma {:induction false} ScheduleInTwo(sys: System, first: seq<Action>, then_: seq<Action>)
    ensures Schedule(sys, first + then_) == Schedule(Schedule(sys, first), then_)
  {
    hide Perform;
    if then_ == [] {
      assert first + then_ == first;
    } else {
      var n := |then_| - 1;
      assert (first + then_)[..|first + then_| - 1] == first + then_[..n];
      ScheduleInTwo(sys, first, then_[..n]);
    }
  }

  lemma OneAction(sys: System, action: Action)
    ensures Schedule(sys, [action]) == Perform(sys, action)
  {
    hide Perform;
    assert [action][..0] == [];
    assert Schedule(sys, []) == sys;
  }

  lemma ThreeActions(sys: System, a: Action, b: Action, c: Action)
    ensures Schedule(sys, [a, b, c]) == Perform(Perform(Perform(sys, a), b), c)
  {
    hide Perform;
    assert [a, b, c][..2] == [a, b] && [a, b][..1] == [a];
    OneAction(sys, a);
    assert Schedule(sys, [a, b]) == Perform(Perform(sys, a), b);
  }

  lemma FourActions(sys: System, a: Action, b: Action, c: Action, d: Action)
    ensures Schedule(sys, [a, b, c, d]) == Perform(Perform(Perform(Perform(sys, a), b), c), d)
  {
    hide Perform;
    assert [a, b, c, d][..3] == [a, b, c];
    ThreeActions(sys, a, b, c);
  }

  // ------------------------------------------- undisturbed requests are serial

  function Alone(db: State, step: Step): System {
    Schedule(Start(db), [Begin(0, step), Advance(0), Advance(0), Advance(0)])
  }
}
