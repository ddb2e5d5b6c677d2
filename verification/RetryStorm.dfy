/** Any number of identical deliveries of one provider event, racing each other while the rest
    of the hotel goes on: one of them confirms the booking, every other one is told that it is
    a duplicate, none is stuck. */
module RetryStorm {
  import opened Model
  import opened Operations
  import opened Interleaving
  import opened Concurrency

  /** A single delivery of the event, now, would confirm the booking. */
  predicate WouldConfirm(db: State, ev: PaymentEvent, id: BookingId) {
    ProcessPaymentEvent(db, ev).outcome == Ok(PaidOnline(id))
  }

  // ------------------------------------------------------------- bystanders

  /** A commit that leaves alone what the deliveries are about: the booking's row, its payment,
      its nights, the hold of its room, and the row of the event. */
  predicate Elsewhere(phase: Phase, ev: PaymentEvent, id: BookingId, row: Booking) {
    match phase
    case InsertHold(room, _) => room != row.room
    case DropHold(room) => room != row.room
    case RemoveHolds(rooms) => row.room !in rooms
    case CancelBookings(ids, holds) => id !in ids && row.room !in holds
    case MoveStay(i, _, _, _, _, _) => i != id
    case ConfirmAtDesk(i, seen, payment) => i != id && NightKeys(seen) !! NightKeys(row) && payment.event != Some(ev.id)
    case AwaitLock(e) => e.id != ev.id && e.reference != ev.reference
    case RecordEvent(e, _) => e.id != ev.id
    case LockedRecord(e, i) => e.id != ev.id && i != id
    case LockedCancel(e, i) => e.id != ev.id && i != id
    case LockedConfirm(e, i, seen) => e.id != ev.id && i != id && seen.room != row.room
    case _ => true
  }

  /** The processes in ours deliver the event, nobody else does, and nobody else's commit
      touches what they are about. Everything else may happen. */
  predicate Aside(sys: System, action: Action, ours: set<Pid>, ev: PaymentEvent, id: BookingId, row: Booking) {
    match action
    case Begin(pid, step) => pid in ours <==> step == Deliver(ev)
    case Advance(pid) => pid in ours || pid !in sys.procs || Elsewhere(sys.procs[pid], ev, id, row)
    case Elapse(_) => true
  }

  predicate OthersStayAside(db0: State, actions: seq<Action>, ours: set<Pid>, ev: PaymentEvent, id: BookingId)
    requires id in db0.bookings
  {
    actions == [] ||
    var before := actions[..|actions| - 1];
    OthersStayAside(db0, before, ours, ev, id)
    && Aside(Schedule(Start(db0), before), actions[|actions| - 1], ours, ev, id, db0.bookings[id])
  }

  // ------------------------------------------------------------ the rows

  /** As before the first delivery. */
  predicate Untouched(db0: State, ev: PaymentEvent, id: BookingId, db: State)
    requires id in db0.bookings
  {
    var row := db0.bookings[id];
    && id in db.bookings && db.bookings[id] == row
    && id !in db.payments && ev.id !in db.events && (forall other <- db.payments :: db.payments[other].event != Some(ev.id))
    && !NightClash(db.nights, row)
    && row.room in db.rooms
    && row.room in db.holds && row.room in db0.holds && db.holds[row.room] == db0.holds[row.room]
  }

  /** As one delivery leaves them. */
  predicate Settled(db0: State, ev: PaymentEvent, id: BookingId, db: State)
    requires id in db0.bookings
  {
    var row := db0.bookings[id];
    && id in db.bookings && db.bookings[id] == row.(status := Confirmed)
    && id in db.payments && db.payments[id] == OnlinePayment(ev)
    && ev.id in db.events && db.events[ev.id] == Row(ev)
    && (forall n <- NightKeys(row) :: n in db.nights && db.nights[n] == id)
    && row.room !in db.holds
  }

  predicate Rows(db0: State, ev: PaymentEvent, id: BookingId, db: State, winner: Option<Pid>)
    requires id in db0.bookings
  {
    id < db.nextId && if winner.None? then Untouched(db0, ev, id, db) else Settled(db0, ev, id, db)
  }

  lemma ConfirmingOutcome(db: State, ev: PaymentEvent, id: BookingId)
    requires WouldConfirm(db, ev, id)
    ensures id in db.bookings && ev.id !in db.events && ev.kind == SUCCEEDED && ev.reference == Ref(id)
    ensures FindByRef(db.bookings, ev.reference) == Some(id) && SettleBooking(db, ev, id).outcome == Ok(PaidOnline(id))
  {
    hide PaymentClash, NightClash, RightAmount, HoldBacks, Confirm, Ref;
  }

  /** The two pictures are right: the first is the start, the second what a single delivery does. */
  lemma BeforeAndAfterOne(db: State, ev: PaymentEvent, id: BookingId)
    requires WouldConfirm(db, ev, id)
    ensures id in db.bookings && Untouched(db, ev, id, db) && Settled(db, ev, id, ProcessPaymentEvent(db, ev).state)
    ensures db.bookings[id].status.Processing? && RightAmount(ev.amount, ev.currency, db.bookings[id])
    ensures HoldBacks(db, db.bookings[id])
  {
    ConfirmingOutcome(db, ev, id);
    hide RightAmount, Ref, FindByRef;
  }

  // ------------------------------------------------------- others pass by

  /** Same value, or equally absent. */
  predicate SameAt<K, V(==)>(k: K, before: map<K, V>, after: map<K, V>) {
    (k in after <==> k in before) && (k in before ==> after[k] == before[k])
  }

  ghost predicate SamePayments(id: BookingId, event: EventId, before: map<BookingId, Payment>, after: map<BookingId, Payment>) {
    && SameAt(id, before, after)
    && forall other <- after :: after[other].event == Some(event) ==> SameAt(other, before, after)
  }

  ghost predicate SameNights(row: Booking, before: map<Night, BookingId>, after: map<Night, BookingId>) {
    forall n <- NightKeys(row) :: SameAt(n, before, after)
  }

  /** The rows the deliveries are about are the same in both. */
  ghost predicate SameRows(ev: PaymentEvent, id: BookingId, row: Booking, db: State, db': State) {
    && db.nextId <= db'.nextId
    && SameAt(id, db.bookings, db'.bookings)
    && SamePayments(id, ev.id, db.payments, db'.payments)
    && SameAt(ev.id, db.events, db'.events)
    && SameNights(row, db.nights, db'.nights)
    && (row.room in db.rooms ==> row.room in db'.rooms)
    && SameAt(row.room, db.holds, db'.holds)
  }

  lemma SameRowsSamePicture(db0: State, ev: PaymentEvent, id: BookingId, db: State, db': State, winner: Option<Pid>)
    requires id in db0.bookings && Rows(db0, ev, id, db, winner) && SameRows(ev, id, db0.bookings[id], db, db')
    ensures Rows(db0, ev, id, db', winner)
  {
    hide NightKeys;
  }

  lemma NothingWritten(ev: PaymentEvent, id: BookingId, row: Booking, db: State)
    ensures SameRows(ev, id, row, db, db)
    ensures SamePayments(id, ev.id, db.payments, db.payments) && SameNights(row, db.nights, db.nights)
  {}

  lemma OneAfterTheOther(ev: PaymentEvent, id: BookingId, row: Booking, db: State, db': State, db'': State)
    requires SameRows(ev, id, row, db, db') && SameRows(ev, id, row, db', db'')
    ensures SameRows(ev, id, row, db, db'')
  {
    hide NightKeys;
    forall other | other in db''.payments && db''.payments[other].event == Some(ev.id)
      ensures SameAt(other, db.payments, db''.payments)
    {
      assert SameAt(other, db'.payments, db''.payments);
    }
  }

  lemma HoldsWritten(ev: PaymentEvent, id: BookingId, row: Booking, db: State, holds: map<RoomId, Hold>)
    requires SameAt(row.room, db.holds, holds)
    ensures SameRows(ev, id, row, db, db.(holds := holds))
  {
    hide SamePayments, SameNights;
    NothingWritten(ev, id, row, db);
  }

  lemma EventsWritten(ev: PaymentEvent, id: BookingId, row: Booking, db: State, e: PaymentEvent)
    requires e.id != ev.id
    ensures SameRows(ev, id, row, db, Logged(db, e))
  {
    hide SamePayments, SameNights;
    NothingWritten(ev, id, row, db);
  }

  lemma BookingsWritten(ev: PaymentEvent, id: BookingId, row: Booking, db: State,
                        bookings: map<BookingId, Booking>, nextId: BookingId, rooms: map<RoomId, Room>)
    requires SameAt(id, db.bookings, bookings) && db.nextId <= nextId && db.rooms.Keys <= rooms.Keys
    ensures SameRows(ev, id, row, db, db.(bookings := bookings, nextId := nextId, rooms := rooms))
  {
    hide SamePayments, SameNights;
    NothingWritten(ev, id, row, db);
  }

  lemma OtherRoomsNights(seen: Booking, row: Booking)
    requires seen.room != row.room
    ensures NightKeys(seen) !! NightKeys(row)
  {
    forall n | n in NightKeys(seen) ensures n !in NightKeys(row) {
      NightKeysAre(seen, n);
      NightKeysAre(row, n);
    }
  }

  /** Somebody else's booking is confirmed. */
  lemma OtherConfirmed(ev: PaymentEvent, id: BookingId, row: Booking, db: State, i: BookingId, seen: Booking, payment: Payment)
    requires i in db.bookings && i != id && payment.event != Some(ev.id) && NightKeys(seen) !! NightKeys(row)
    ensures SameRows(ev, id, row, db, ConfirmSeen(db, i, seen, payment))
  {
    assert SameNights(row, db.nights, db.nights + NightRows(i, seen));
    hide SameNights, NightRows, NightKeys;
  }

  lemma DeskPassesBy(db: State, ev: PaymentEvent, id: BookingId, row: Booking, locks: map<BookingId, Pid>, phase: Phase)
    requires phase.ConfirmAtDesk? && Elsewhere(phase, ev, id, row)
    ensures SameRows(ev, id, row, db, CommitAtDesk(db, locks, phase).db)
  {
    hide SameRows, NightClash, NightKeys, PaymentClash, ConfirmSeen;
    NothingWritten(ev, id, row, db);
    if phase.id in db.bookings { OtherConfirmed(ev, id, row, db, phase.id, phase.seen, phase.payment); }
  }

  lemma WebhookPassesBy(db: State, ev: PaymentEvent, id: BookingId, row: Booking, locks: map<BookingId, Pid>, phase: Phase)
    requires phase.LockedConfirm? && Elsewhere(phase, ev, id, row)
    ensures SameRows(ev, id, row, db, CommitOnline(db, locks, phase).db)
  {
    hide SameRows, NightClash, NightKeys, PaymentClash, ConfirmSeen, Logged;
    NothingWritten(ev, id, row, db);
    OtherRoomsNights(phase.seen, row);
    if CommitOnline(db, locks, phase).phase == Done(Ok(PaidOnline(phase.id))) {
      var logged := Logged(db, phase.ev);
      EventsWritten(ev, id, row, db, phase.ev);
      LoggingKeepsBookings(db, phase.ev);
      var confirmed := ConfirmSeen(logged, phase.id, phase.seen, OnlinePayment(phase.ev));
      OtherConfirmed(ev, id, row, logged, phase.id, phase.seen, OnlinePayment(phase.ev));
      HoldsWritten(ev, id, row, confirmed, confirmed.holds - {phase.seen.room});
      ConfirmingKeepsHolds(logged, phase.id, phase.seen, OnlinePayment(phase.ev));
      OneAfterTheOther(ev, id, row, db, logged, confirmed);
      OneAfterTheOther(ev, id, row, db, confirmed, confirmed.(holds := confirmed.holds - {phase.seen.room}));
    }
  }

  lemma LoggingKeepsBookings(db: State, e: PaymentEvent)
    ensures Logged(db, e).bookings == db.bookings && Logged(db, e).holds == db.holds
  {}

  lemma ConfirmingKeepsHolds(db: State, i: BookingId, seen: Booking, payment: Payment)
    requires i in db.bookings
    ensures ConfirmSeen(db, i, seen, payment).holds == db.holds
  {}

  lemma RatesAreElsewhere(ev: PaymentEvent, id: BookingId, row: Booking, db: State,
                          name: string, rate: Option<real>, capacity: Option<int>)
    ensures SameRows(ev, id, row, db, UpdateRoomType(db, name, rate, capacity).state)
  {
    hide SamePayments, SameNights;
    NothingWritten(ev, id, row, db);
  }

  lemma TakingALockWritesNothing(db: State, locks: map<BookingId, Pid>, pid: Pid, phase: Phase)
    requires phase.AwaitLock?
    ensures TakeLock(db, locks, pid, phase).db == db
  {}

  lemma SweepPassesBy(ev: PaymentEvent, id: BookingId, row: Booking, db: State, locks: map<BookingId, Pid>, pid: Pid, phase: Phase)
    requires phase.CancelBookings? && Elsewhere(phase, ev, id, row)
    ensures SameRows(ev, id, row, db, Commit(db, locks, pid, phase).db)
  {
    hide SameRows;
    NothingWritten(ev, id, row, db);
    var cancelled := db.(bookings := CancelAll(db.bookings, phase.ids));
    BookingsWritten(ev, id, row, db, cancelled.bookings, db.nextId, db.rooms);
    HoldsWritten(ev, id, row, cancelled, db.holds - phase.holds);
    OneAfterTheOther(ev, id, row, db, cancelled, cancelled.(holds := db.holds - phase.holds));
  }

  lemma HoldWritersPassBy(ev: PaymentEvent, id: BookingId, row: Booking, db: State, locks: map<BookingId, Pid>, pid: Pid, phase: Phase)
    requires (phase.InsertHold? || phase.DropHold? || phase.RemoveHolds?) && Elsewhere(phase, ev, id, row)
    ensures SameRows(ev, id, row, db, Commit(db, locks, pid, phase).db)
  {
    hide SameRows;
    NothingWritten(ev, id, row, db);
    HoldsWritten(ev, id, row, db, Commit(db, locks, pid, phase).db.holds);
  }

  lemma OtherStatus(bookings: map<BookingId, Booking>, id: BookingId)
    ensures forall i, status | i in bookings && i != id :: SameAt(id, bookings, WithStatus(bookings, i, status))
  {}

  lemma InsertsPassBy(ev: PaymentEvent, id: BookingId, row: Booking, db: State, locks: map<BookingId, Pid>, pid: Pid, phase: Phase)
    requires id < db.nextId && phase.InsertBooking?
    ensures SameRows(ev, id, row, db, Commit(db, locks, pid, phase).db)
  {
    hide SameRows, NightKeys, Ref;
    BookingsWritten(ev, id, row, db, db.bookings[db.nextId := phase.row], db.nextId + 1, db.rooms);
  }

  lemma RoomsPassBy(ev: PaymentEvent, id: BookingId, row: Booking, db: State, locks: map<BookingId, Pid>, pid: Pid, phase: Phase)
    requires phase.WriteRoom?
    ensures SameRows(ev, id, row, db, Commit(db, locks, pid, phase).db)
  {
    hide SameRows, Merge, NightKeys, Ref;
    NothingWritten(ev, id, row, db);
    if phase.room in db.rooms {
      var rooms := db.rooms[phase.room := Merge(db.rooms[phase.room], phase.seenRoom, phase.newRoom)];
      BookingsWritten(ev, id, row, db, db.bookings, db.nextId, rooms);
    }
  }

  lemma MovesPassBy(ev: PaymentEvent, id: BookingId, row: Booking, db: State, locks: map<BookingId, Pid>, pid: Pid, phase: Phase)
    requires phase.MoveStay? && Elsewhere(phase, ev, id, row)
    ensures SameRows(ev, id, row, db, Commit(db, locks, pid, phase).db)
  {
    hide SameRows, Merge, WithStatus, NightKeys, Ref;
    NothingWritten(ev, id, row, db);
    OtherStatus(db.bookings, id);
    if Commit(db, locks, pid, phase).db != db {
      var after := Commit(db, locks, pid, phase).db;
      BookingsWritten(ev, id, row, db, after.bookings, after.nextId, after.rooms);
    }
  }

  lemma CancelsPassBy(ev: PaymentEvent, id: BookingId, row: Booking, db: State, locks: map<BookingId, Pid>, pid: Pid, phase: Phase)
    requires phase.LockedCancel? && Elsewhere(phase, ev, id, row)
    ensures SameRows(ev, id, row, db, Commit(db, locks, pid, phase).db)
  {
    hide SameRows, WithStatus, NightKeys, Ref;
    NothingWritten(ev, id, row, db);
    OtherStatus(db.bookings, id);
    if phase.id in db.bookings {
      BookingsWritten(ev, id, row, db, WithStatus(db.bookings, phase.id, Cancelled), db.nextId, db.rooms);
    }
  }

  /** Whatever is committed elsewhere leaves these rows as they were. */
  lemma OthersPassBy(db: State, ev: PaymentEvent, id: BookingId, row: Booking, locks: map<BookingId, Pid>, pid: Pid, phase: Phase)
    requires id < db.nextId && Elsewhere(phase, ev, id, row)
    ensures SameRows(ev, id, row, db, Commit(db, locks, pid, phase).db)
  {
    NothingWritten(ev, id, row, db);
    if phase.InsertHold? || phase.DropHold? || phase.RemoveHolds? {
      HoldWritersPassBy(ev, id, row, db, locks, pid, phase);
      hide *;
    } else if phase.InsertBooking? {
      InsertsPassBy(ev, id, row, db, locks, pid, phase);
      hide *;
    } else if phase.WriteRoom? {
      RoomsPassBy(ev, id, row, db, locks, pid, phase);
      hide *;
    } else if phase.MoveStay? {
      MovesPassBy(ev, id, row, db, locks, pid, phase);
      hide *;
    } else if phase.LockedCancel? {
      CancelsPassBy(ev, id, row, db, locks, pid, phase);
      hide *;
    } else {
      hide SameRows, CommitAtDesk, CommitOnline, TakeLock, Ref, NightKeys, UpdateRoomType, Logged, Merge, CancelAll, WithStatus;
      match phase
      case CancelBookings(_, _) => SweepPassesBy(ev, id, row, db, locks, pid, phase);
      case ConfirmAtDesk(_, _, _) => DeskPassesBy(db, ev, id, row, locks, phase);
      case LockedConfirm(_, _, _) => WebhookPassesBy(db, ev, id, row, locks, phase);
      case RecordEvent(e, _) => EventsWritten(ev, id, row, db, e);
      case LockedRecord(e, _) => EventsWritten(ev, id, row, db, e);
      case AwaitLock(_) => TakingALockWritesNothing(db, locks, pid, phase);
      case WriteRate(name, rate, capacity) => RatesAreElsewhere(ev, id, row, db, name, rate, capacity);
      case _ =>
    }
  }

  /** Others neither take nor give up the lock on the booking's row. */
  lemma OthersLeaveTheLock(db: State, ev: PaymentEvent, id: BookingId, row: Booking, locks: map<BookingId, Pid>, pid: Pid, phase: Phase)
    requires Elsewhere(phase, ev, id, row) && ev.reference == Ref(id)
    ensures SameAt(id, locks, Commit(db, locks, pid, phase).locks)
  {
    hide RightAmount, HoldBacks, PaymentClash, NightClash, NightRows, NightKeys, Merge, CancelAll, UpdateRoomType, Ref;
  }

  /** Ordinary business is aside: while the hold is live and the booking waits, the holds sweep,
      any booking request, any cleaning or repricing, a hold on another room, a payment or a stay
      of another booking in another room, and a delivery for another reference. */
  lemma OrdinaryBusinessIsAside(db: State, step: Step, ev: PaymentEvent, id: BookingId, row: Booking)
    requires id in db.bookings && db.bookings[id] == row && HoldBacks(db, row) && ev.reference == Ref(id)
    requires match step
             case PlaceHold(room, _) => room != row.room
             case PayOffline(i, _, _, _) => i in db.bookings ==> i != id && db.bookings[i].room != row.room
             case Deliver(e) => e.id != ev.id && e.reference != ev.reference
             case Arrive(i) => i != id
             case Depart(i) => i != id
             case SweepBookings(grace) => forall i <- db.bookings | db.bookings[i].room == row.room :: !Stale(db.bookings[i], db.now, grace)
             case _ => true
    ensures Elsewhere(Read(db, step), ev, id, row)
  {
    hide NightKeys, NightRows, NightClash, PaymentClash, RightAmount, BlockedByBooking, NightsTaken, Ref, NewBooking;
    if step.PayOffline? && step.id in db.bookings { OtherRoomsNights(db.bookings[step.id], row); }
  }

  // --------------------------------------------------------- the deliveries

  /** What a delivery may be doing, before and after one of them has won. */
  predicate Stage(phase: Phase, pid: Pid, ev: PaymentEvent, id: BookingId, row: Booking,
                  locks: map<BookingId, Pid>, winner: Option<Pid>) {
    match phase
    case AwaitLock(e) => e == ev
    case LockedConfirm(e, i, seen) => winner.None? && e == ev && i == id && seen == row && HasLock(locks, id, pid)
    case LockedRecord(e, i) => winner.Some? && e == ev && i == id && HasLock(locks, id, pid)
    case Done(outcome) => winner.Some? && outcome == Ok(if winner == Some(pid) then PaidOnline(id) else Duplicate)
    case _ => false
  }

  predicate Locked(phase: Phase) { phase.LockedConfirm? || phase.LockedRecord? }

  /** The lock on the booking's row is free, or held by a delivery between its two commits. */
  predicate LockOk(procs: map<Pid, Phase>, ours: set<Pid>, id: BookingId, locks: map<BookingId, Pid>) {
    id in locks ==> locks[id] in ours && locks[id] in procs && Locked(procs[locks[id]])
  }

  predicate Stages(procs: map<Pid, Phase>, ours: set<Pid>, ev: PaymentEvent, id: BookingId, row: Booking,
                   locks: map<BookingId, Pid>, winner: Option<Pid>) {
    && (forall p <- procs | p in ours :: Stage(procs[p], p, ev, id, row, locks, winner))
    && (winner.Some? ==> winner.value in procs && winner.value in ours && procs[winner.value].Done?)
    && LockOk(procs, ours, id, locks)
  }

  predicate Storm(db0: State, ours: set<Pid>, ev: PaymentEvent, id: BookingId, sys: System, winner: Option<Pid>)
    requires id in db0.bookings
  {
    Rows(db0, ev, id, sys.db, winner) && Stages(sys.procs, ours, ev, id, db0.bookings[id], sys.locks, winner)
  }

  function Finished(procs: map<Pid, Phase>, ours: set<Pid>): set<Pid> { set p <- procs | p in ours && procs[p].Done? }

  /** The action is the first read under the lock: it finds the lock free and nobody done. */
  predicate FirstRead(sys: System, action: Action, ours: set<Pid>, id: BookingId) {
    && action.Advance? && action.pid in ours && action.pid in sys.procs && sys.procs[action.pid].AwaitLock?
    && id !in sys.locks && Finished(sys.procs, ours) == {}
  }

  /** The hold that backs the booking is still live at that moment. */
  predicate InTime(db0: State, id: BookingId, now: Instant) {
    id in db0.bookings && HoldBacks(db0.(now := now), db0.bookings[id])
  }

  /** An arrival: it waits for the lock, or learns at once that somebody has won. */
  lemma Arrival(db0: State, ev: PaymentEvent, id: BookingId, db: State, winner: Option<Pid>)
    requires WouldConfirm(db0, ev, id) && id in db0.bookings && Rows(db0, ev, id, db, winner)
    ensures Read(db, Deliver(ev)) == if winner.None? then AwaitLock(ev) else Done(Ok(Duplicate))
  {
    hide WouldConfirm, NightClash, NightKeys;
    ConfirmingOutcome(db0, ev, id);
  }

  /** The lock is free, so the delivery takes it and reads. */
  lemma Locking(db0: State, ev: PaymentEvent, id: BookingId, db: State, locks: map<BookingId, Pid>, winner: Option<Pid>, pid: Pid)
    requires WouldConfirm(db0, ev, id) && id in db0.bookings && Rows(db0, ev, id, db, winner) && id !in locks
    requires winner.None? ==> InTime(db0, id, db.now)
    ensures TakeLock(db, locks, pid, AwaitLock(ev))
            == Next(db, if winner.None? then LockedConfirm(ev, id, db0.bookings[id]) else LockedRecord(ev, id), locks[id := pid])
  {
    hide WouldConfirm, NightClash, NightKeys, RightAmount, Ref, FindByRef;
    ConfirmingOutcome(db0, ev, id);
    BeforeAndAfterOne(db0, ev, id);
    FindsItsBooking(db.bookings, id);
  }

  /** The delivery that holds the lock commits: status, nights, payment and event, or nothing new. */
  lemma Winning(db0: State, ev: PaymentEvent, id: BookingId, db: State, locks: map<BookingId, Pid>, pid: Pid)
    requires WouldConfirm(db0, ev, id) && id in db0.bookings && Rows(db0, ev, id, db, None)
    ensures var next := CommitOnline(db, locks, LockedConfirm(ev, id, db0.bookings[id]));
            Rows(db0, ev, id, next.db, Some(pid)) && next.phase == Done(Ok(PaidOnline(id))) && next.locks == locks - {id}
  {
    hide WouldConfirm, RightAmount, Ref, FindByRef;
    ConfirmingOutcome(db0, ev, id);
    BeforeAndAfterOne(db0, ev, id);
  }

  lemma Losing(db0: State, ev: PaymentEvent, id: BookingId, db: State, locks: map<BookingId, Pid>, pid: Pid, winner: Pid)
    requires id in db0.bookings && Rows(db0, ev, id, db, Some(winner))
    ensures Commit(db, locks, pid, LockedRecord(ev, id)) == Next(db, Done(Ok(Duplicate)), locks - {id})
  {
    hide NightKeys;
  }

  // ---------------------------------------------------------- stages move on

  lemma ArrivingKeepsStages(procs: map<Pid, Phase>, ours: set<Pid>, ev: PaymentEvent, id: BookingId, row: Booking,
                            locks: map<BookingId, Pid>, winner: Option<Pid>, pid: Pid, phase: Phase)
    requires Stages(procs, ours, ev, id, row, locks, winner) && pid !in procs
    requires pid in ours ==> phase == if winner.None? then AwaitLock(ev) else Done(Ok(Duplicate))
    ensures Stages(procs[pid := phase], ours, ev, id, row, locks, winner)
  {}

  lemma OthersKeepStages(procs: map<Pid, Phase>, ours: set<Pid>, ev: PaymentEvent, id: BookingId, row: Booking,
                         locks: map<BookingId, Pid>, winner: Option<Pid>, pid: Pid, phase: Phase, locks': map<BookingId, Pid>)
    requires Stages(procs, ours, ev, id, row, locks, winner) && pid in procs && pid !in ours && SameAt(id, locks, locks')
    ensures Stages(procs[pid := phase], ours, ev, id, row, locks', winner)
  {}

  lemma LockingKeepsStages(procs: map<Pid, Phase>, ours: set<Pid>, ev: PaymentEvent, id: BookingId, row: Booking,
                           locks: map<BookingId, Pid>, winner: Option<Pid>, pid: Pid, phase: Phase)
    requires Stages(procs, ours, ev, id, row, locks, winner) && id !in locks && pid in procs && pid in ours && procs[pid].AwaitLock?
    requires phase == if winner.None? then LockedConfirm(ev, id, row) else LockedRecord(ev, id)
    ensures Stages(procs[pid := phase], ours, ev, id, row, locks[id := pid], winner)
  {}

  lemma ReleasingKeepsStages(procs: map<Pid, Phase>, ours: set<Pid>, ev: PaymentEvent, id: BookingId, row: Booking,
                             locks: map<BookingId, Pid>, winner: Option<Pid>, pid: Pid)
    requires Stages(procs, ours, ev, id, row, locks, winner) && pid in procs && pid in ours && Locked(procs[pid])
    ensures var won := procs[pid].LockedConfirm?;
            Stages(procs[pid := Done(Ok(if won then PaidOnline(id) else Duplicate))], ours, ev, id, row, locks - {id},
                   if won then Some(pid) else winner)
  {
    assert Stage(procs[pid], pid, ev, id, row, locks, winner);
    var won := procs[pid].LockedConfirm?;
    var after := procs[pid := Done(Ok(if won then PaidOnline(id) else Duplicate))];
    forall p | p in after && p in ours ensures Stage(after[p], p, ev, id, row, locks - {id}, if won then Some(pid) else winner) {
      if p != pid { assert Stage(procs[p], p, ev, id, row, locks, winner); }
    }
  }

  // ------------------------------------------------------------- one action

  /** The delivery about to commit the confirmation becomes the winner. */
  function NextWinner(sys: System, action: Action, ours: set<Pid>, winner: Option<Pid>): Option<Pid> {
    if action.Advance? && action.pid in sys.procs && action.pid in ours && sys.procs[action.pid].LockedConfirm?
    then Some(action.pid) else winner
  }

  /** A waiting delivery either stays where it is or takes the free lock. */
  lemma WaitingMoves(db0: State, ours: set<Pid>, ev: PaymentEvent, id: BookingId, sys: System, winner: Option<Pid>, pid: Pid)
    requires WouldConfirm(db0, ev, id) && id in db0.bookings && Storm(db0, ours, ev, id, sys, winner)
    requires pid in sys.procs && pid in ours && sys.procs[pid].AwaitLock?
    requires winner.None? && id !in sys.locks ==> InTime(db0, id, sys.db.now)
    ensures Commit(sys.db, sys.locks, pid, sys.procs[pid])
            == if id in sys.locks then Next(sys.db, sys.procs[pid], sys.locks)
               else Next(sys.db, if winner.None? then LockedConfirm(ev, id, db0.bookings[id]) else LockedRecord(ev, id),
                         sys.locks[id := pid])
  {
    hide WouldConfirm, HoldBacks, ReadUnderLock, NightClash, NightKeys, LockOk, Ref, FindByRef;
    assert Stage(sys.procs[pid], pid, ev, id, db0.bookings[id], sys.locks, winner);
    ConfirmingOutcome(db0, ev, id);
    FindsItsBooking(sys.db.bookings, id);
    if id !in sys.locks { Locking(db0, ev, id, sys.db, sys.locks, winner, pid); }
  }

  /** The delivery that holds the lock finishes and gives it up. */
  lemma HolderMoves(db0: State, ours: set<Pid>, ev: PaymentEvent, id: BookingId, sys: System, winner: Option<Pid>, pid: Pid)
    requires WouldConfirm(db0, ev, id) && id in db0.bookings && Storm(db0, ours, ev, id, sys, winner)
    requires pid in sys.procs && pid in ours && Locked(sys.procs[pid])
    ensures var next := Commit(sys.db, sys.locks, pid, sys.procs[pid]);
            var won := sys.procs[pid].LockedConfirm?;
            && next.phase == Done(Ok(if won then PaidOnline(id) else Duplicate)) && next.locks == sys.locks - {id}
            && Rows(db0, ev, id, next.db, if won then Some(pid) else winner)
  {
    hide WouldConfirm, CommitOnline, Rows, LockOk;
    assert Stage(sys.procs[pid], pid, ev, id, db0.bookings[id], sys.locks, winner);
    if sys.procs[pid].LockedConfirm? {
      Winning(db0, ev, id, sys.db, sys.locks, pid);
    } else {
      Losing(db0, ev, id, sys.db, sys.locks, pid, winner.value);
    }
  }

  /** A delivery waits, holds the lock, or is done. */
  lemma OursIs(procs: map<Pid, Phase>, ours: set<Pid>, ev: PaymentEvent, id: BookingId, row: Booking,
               locks: map<BookingId, Pid>, winner: Option<Pid>, pid: Pid)
    requires Stages(procs, ours, ev, id, row, locks, winner) && pid in procs && pid in ours
    ensures procs[pid].AwaitLock? || Locked(procs[pid]) || procs[pid].Done?
    ensures procs[pid := procs[pid]] == procs
  {
    assert Stage(procs[pid], pid, ev, id, row, locks, winner);
  }

  lemma DoneStays(db: State, locks: map<BookingId, Pid>, pid: Pid, phase: Phase)
    requires phase.Done?
    ensures Commit(db, locks, pid, phase) == Next(db, phase, locks)
  {}

  lemma OurAdvance(db0: State, ours: set<Pid>, ev: PaymentEvent, id: BookingId, sys: System, winner: Option<Pid>, pid: Pid)
    requires WouldConfirm(db0, ev, id) && id in db0.bookings && Storm(db0, ours, ev, id, sys, winner)
    requires pid in sys.procs && pid in ours
    requires sys.procs[pid].AwaitLock? && winner.None? && id !in sys.locks ==> InTime(db0, id, sys.db.now)
    ensures Storm(db0, ours, ev, id, Perform(sys, Advance(pid)), NextWinner(sys, Advance(pid), ours, winner))
  {
    hide WouldConfirm, HoldBacks, Commit, Rows, Stages;
    var phase, row := sys.procs[pid], db0.bookings[id];
    OursIs(sys.procs, ours, ev, id, row, sys.locks, winner, pid);
    if phase.AwaitLock? {
      WaitingMoves(db0, ours, ev, id, sys, winner, pid);
      if id !in sys.locks {
        LockingKeepsStages(sys.procs, ours, ev, id, row, sys.locks, winner, pid, Commit(sys.db, sys.locks, pid, phase).phase);
      }
    } else if Locked(phase) {
      HolderMoves(db0, ours, ev, id, sys, winner, pid);
      ReleasingKeepsStages(sys.procs, ours, ev, id, row, sys.locks, winner, pid);
    } else {
      DoneStays(sys.db, sys.locks, pid, phase);
    }
  }

  lemma OtherAdvance(db0: State, ours: set<Pid>, ev: PaymentEvent, id: BookingId, sys: System, winner: Option<Pid>, pid: Pid)
    requires WouldConfirm(db0, ev, id) && id in db0.bookings && Storm(db0, ours, ev, id, sys, winner)
    requires pid in sys.procs && pid !in ours && Elsewhere(sys.procs[pid], ev, id, db0.bookings[id])
    ensures Storm(db0, ours, ev, id, Perform(sys, Advance(pid)), winner)
  {
    hide WouldConfirm, Commit, Elsewhere, Stages, Untouched, Settled, SameRows, SameAt;
    var phase, row := sys.procs[pid], db0.bookings[id];
    var next := Commit(sys.db, sys.locks, pid, phase);
    ConfirmingOutcome(db0, ev, id);
    OthersPassBy(sys.db, ev, id, row, sys.locks, pid, phase);
    SameRowsSamePicture(db0, ev, id, sys.db, next.db, winner);
    OthersLeaveTheLock(sys.db, ev, id, row, sys.locks, pid, phase);
    OthersKeepStages(sys.procs, ours, ev, id, row, sys.locks, winner, pid, next.phase, next.locks);
  }

  function Winners(procs: map<Pid, Phase>, ours: set<Pid>, id: BookingId): set<Pid> {
    set p <- procs | p in ours && procs[p] == Done(Ok(PaidOnline(id)))
  }

  lemma OneWinner(db0: State, ours: set<Pid>, ev: PaymentEvent, id: BookingId, sys: System, winner: Option<Pid>)
    requires id in db0.bookings && Storm(db0, ours, ev, id, sys, winner)
    ensures Winners(sys.procs, ours, id) == if winner.None? then {} else {winner.value}
    ensures Finished(sys.procs, ours) == {} <==> winner.None?
    ensures forall p <- Finished(sys.procs, ours) - Winners(sys.procs, ours, id) :: sys.procs[p] == Done(Ok(Duplicate))
  {
    hide Rows, LockOk;
    var winners, finished := Winners(sys.procs, ours, id), Finished(sys.procs, ours);
    forall p | p in sys.procs && p in ours ensures (p in winners <==> winner == Some(p)) && (p in finished ==> winner.Some?) {
      assert Stage(sys.procs[p], p, ev, id, db0.bookings[id], sys.locks, winner);
      if winner == Some(p) { assert sys.procs[p].Done?; }
    }
    assert winner.Some? ==> winner.value in finished;
  }

  lemma StormStep(db0: State, ours: set<Pid>, ev: PaymentEvent, id: BookingId, sys: System, winner: Option<Pid>, action: Action)
    requires WouldConfirm(db0, ev, id) && id in db0.bookings && Storm(db0, ours, ev, id, sys, winner)
    requires Aside(sys, action, ours, ev, id, db0.bookings[id])
    requires FirstRead(sys, action, ours, id) ==> InTime(db0, id, sys.db.now)
    ensures Storm(db0, ours, ev, id, Perform(sys, action), NextWinner(sys, action, ours, winner))
  {
    hide WouldConfirm, HoldBacks, InTime, Commit, Read, Elsewhere, Stages, NightClash, NightKeys, Winners, Finished;
    match action
    case Begin(pid, step) =>
      if pid !in sys.procs {
        if pid in ours { Arrival(db0, ev, id, sys.db, winner); }
        ArrivingKeepsStages(sys.procs, ours, ev, id, db0.bookings[id], sys.locks, winner, pid, Read(sys.db, step));
      }
    case Advance(pid) =>
      if pid in sys.procs {
        if pid in ours {
          OneWinner(db0, ours, ev, id, sys, winner);
          OurAdvance(db0, ours, ev, id, sys, winner, pid);
        } else {
          OtherAdvance(db0, ours, ev, id, sys, winner, pid);
        }
      }
    case Elapse(_) =>
  }

  /** Commits happen at an instant; only the clock moves the clock. */
  lemma CommitKeepsTime(db: State, locks: map<BookingId, Pid>, pid: Pid, phase: Phase)
    ensures Commit(db, locks, pid, phase).db.now == db.now
  {
    hide RightAmount, HoldBacks, PaymentClash, NightClash, NightRows, Ref, CancelAll, Merge;
  }

  // ------------------------------------------------------------- every storm

  lemma StormRises(db0: State, ours: set<Pid>, ev: PaymentEvent, id: BookingId)
    requires WouldConfirm(db0, ev, id) && id in db0.bookings && id < db0.nextId
    ensures Storm(db0, ours, ev, id, Start(db0), None)
  {
    hide WouldConfirm, NightClash, NightKeys;
    BeforeAndAfterOne(db0, ev, id);
  }

  /** The hold is live when the first of the deliveries reads it under the lock. After that it
      may run out, and deliveries may go on arriving for as long as they like. */
  predicate FirstReadInTime(db0: State, actions: seq<Action>, ours: set<Pid>, id: BookingId) {
    actions == [] ||
    var before := actions[..|actions| - 1];
    var sys := Schedule(Start(db0), before);
    FirstReadInTime(db0, before, ours, id) && (FirstRead(sys, actions[|actions| - 1], ours, id) ==> InTime(db0, id, sys.db.now))
  }

  ghost predicate Storming(db0: State, ours: set<Pid>, ev: PaymentEvent, id: BookingId, sys: System)
    requires id in db0.bookings
  {
    exists winner :: Storm(db0, ours, ev, id, sys, winner)
  }

  lemma {:induction false} EveryStorm(db0: State, actions: seq<Action>, ours: set<Pid>, ev: PaymentEvent, id: BookingId)
    requires WouldConfirm(db0, ev, id) && id in db0.bookings && id < db0.nextId
    requires OthersStayAside(db0, actions, ours, ev, id) && FirstReadInTime(db0, actions, ours, id)
    ensures Storming(db0, ours, ev, id, Schedule(Start(db0), actions))
  {
    hide WouldConfirm, Perform, Storm, Aside, FirstRead, InTime;
    if actions == [] {
      StormRises(db0, ours, ev, id);
    } else {
      var before, last := actions[..|actions| - 1], actions[|actions| - 1];
      var sys := Schedule(Start(db0), before);
      EveryStorm(db0, before, ours, ev, id);
      var winner :| Storm(db0, ours, ev, id, sys, winner);
      StormStep(db0, ours, ev, id, sys, winner, last);
    }
  }

  /** However the deliveries of one event interleave with each other and with everything that
      goes on elsewhere, if the hold is live at the first read under the lock: until one of them finishes their rows are
      untouched, and once any has, exactly one was told that it confirmed the booking, every
      other finished one that it was a duplicate, and the rows are as one delivery leaves them. */
  lemma DeliveriesConfirmOnce(db0: State, actions: seq<Action>, ours: set<Pid>, ev: PaymentEvent, id: BookingId)
    requires WouldConfirm(db0, ev, id) && id in db0.bookings && id < db0.nextId
    requires OthersStayAside(db0, actions, ours, ev, id) && FirstReadInTime(db0, actions, ours, id)
    ensures var end := Schedule(Start(db0), actions);
            var finished, winners := Finished(end.procs, ours), Winners(end.procs, ours, id);
            && |winners| == (if finished == {} then 0 else 1)
            && (forall p <- finished - winners :: end.procs[p] == Done(Ok(Duplicate)))
            && (if finished == {} then Untouched(db0, ev, id, end.db) else Settled(db0, ev, id, end.db))
  {
    hide WouldConfirm, Schedule, Stages, FirstReadInTime, Winners, Finished, Untouched, Settled, OthersStayAside;
    EveryStorm(db0, actions, ours, ev, id);
    var winner :| Storm(db0, ours, ev, id, Schedule(Start(db0), actions), winner);
    OneWinner(db0, ours, ev, id, Schedule(Start(db0), actions), winner);
  }

  /** The condition is exact: the first read under the lock leads to the confirmation if the hold
      is still live then, and to the cancellation of the booking if it is not. */
  lemma FirstReadDecides(db0: State, ours: set<Pid>, ev: PaymentEvent, id: BookingId, sys: System, winner: Option<Pid>, pid: Pid)
    requires WouldConfirm(db0, ev, id) && id in db0.bookings && Storm(db0, ours, ev, id, sys, winner)
    requires FirstRead(sys, Advance(pid), ours, id)
    ensures var after := Perform(sys, Advance(pid));
            pid in after.procs
            && after.procs[pid] == if InTime(db0, id, sys.db.now) then LockedConfirm(ev, id, db0.bookings[id]) else LockedCancel(ev, id)
  {
    hide WouldConfirm, NightClash, NightKeys, RightAmount, Ref, FindByRef, LockOk;
    assert Stage(sys.procs[pid], pid, ev, id, db0.bookings[id], sys.locks, winner);
    OneWinner(db0, ours, ev, id, sys, winner);
    ConfirmingOutcome(db0, ev, id);
    BeforeAndAfterOne(db0, ev, id);
    FindsItsBooking(sys.db.bookings, id);
  }

  // ---------------------------------------------------------- nobody is stuck

  function Waiting(procs: map<Pid, Phase>, ours: set<Pid>): set<Pid> { set p <- procs | p in ours && procs[p].AwaitLock? }

  function Holding(procs: map<Pid, Phase>, ours: set<Pid>): set<Pid> { set p <- procs | p in ours && Locked(procs[p]) }

  function Arrived(procs: map<Pid, Phase>, ours: set<Pid>): set<Pid> { set p <- procs | p in ours }

  /** How many commits the deliveries still need. */
  function Work(procs: map<Pid, Phase>, ours: set<Pid>): nat { 2 * |Waiting(procs, ours)| + |Holding(procs, ours)| }

  /** Unless all are done, somebody can take the lock or give it up. */
  lemma SomebodyMoves(db0: State, ours: set<Pid>, ev: PaymentEvent, id: BookingId, sys: System, winner: Option<Pid>) returns (pid: Pid)
    requires WouldConfirm(db0, ev, id) && id in db0.bookings && Storm(db0, ours, ev, id, sys, winner)
    requires winner.None? && id !in sys.locks ==> InTime(db0, id, sys.db.now)
    requires Finished(sys.procs, ours) != Arrived(sys.procs, ours)
    ensures pid in sys.procs && pid in ours && Work(Perform(sys, Advance(pid)).procs, ours) == Work(sys.procs, ours) - 1
    ensures id in Perform(sys, Advance(pid)).locks || NextWinner(sys, Advance(pid), ours, winner).Some?
  {
    hide WouldConfirm, Commit, Work, HoldBacks, Rows;
    if id in sys.locks {
      pid := sys.locks[id];
      HolderMoves(db0, ours, ev, id, sys, winner, pid);
      LessHolding(sys.procs, ours, pid, Commit(sys.db, sys.locks, pid, sys.procs[pid]).phase);
    } else {
      pid :| pid in sys.procs && pid in ours && !sys.procs[pid].Done?;
      assert Stage(sys.procs[pid], pid, ev, id, db0.bookings[id], sys.locks, winner);
      WaitingMoves(db0, ours, ev, id, sys, winner, pid);
      LessWaiting(sys.procs, ours, pid, Commit(sys.db, sys.locks, pid, sys.procs[pid]).phase);
    }
  }

  lemma LessHolding(procs: map<Pid, Phase>, ours: set<Pid>, pid: Pid, phase: Phase)
    requires pid in procs && pid in ours && Locked(procs[pid]) && phase.Done?
    ensures Work(procs[pid := phase], ours) == Work(procs, ours) - 1
  {
    var after := procs[pid := phase];
    assert Holding(after, ours) == Holding(procs, ours) - {pid};
    assert Waiting(after, ours) == Waiting(procs, ours);
  }

  lemma LessWaiting(procs: map<Pid, Phase>, ours: set<Pid>, pid: Pid, phase: Phase)
    requires pid in procs && pid in ours && procs[pid].AwaitLock? && Locked(phase)
    ensures Work(procs[pid := phase], ours) == Work(procs, ours) - 1
  {
    var after := procs[pid := phase];
    assert Waiting(after, ours) == Waiting(procs, ours) - {pid};
    assert Holding(after, ours) == Holding(procs, ours) + {pid};
  }

  predicate OnlyAdvance(actions: seq<Action>, ours: set<Pid>) { forall a <- actions :: a.Advance? && a.pid in ours }

  lemma AdvanceKeepsArrived(sys: System, pid: Pid, ours: set<Pid>)
    requires pid in sys.procs
    ensures Arrived(Perform(sys, Advance(pid)).procs, ours) == Arrived(sys.procs, ours)
  {
    hide Commit;
  }

  lemma {:induction false} WorkGetsDone(db0: State, ours: set<Pid>, ev: PaymentEvent, id: BookingId, sys: System, winner: Option<Pid>)
    returns (more: seq<Action>, last: Option<Pid>)
    requires WouldConfirm(db0, ev, id) && id in db0.bookings && Storm(db0, ours, ev, id, sys, winner)
    requires winner.None? && id !in sys.locks ==> InTime(db0, id, sys.db.now)
    ensures OnlyAdvance(more, ours) && |more| <= Work(sys.procs, ours)
    ensures var end := Schedule(sys, more);
            Finished(end.procs, ours) == Arrived(end.procs, ours) == Arrived(sys.procs, ours)
            && Storm(db0, ours, ev, id, end, last)
    decreases Work(sys.procs, ours)
  {
    hide WouldConfirm, Perform, Work, InTime, Storm, Arrived, Finished, NextWinner;
    more, last := [], winner;
    if Finished(sys.procs, ours) != Arrived(sys.procs, ours) {
      var pid := SomebodyMoves(db0, ours, ev, id, sys, winner);
      OurAdvance(db0, ours, ev, id, sys, winner, pid);
      AdvanceKeepsArrived(sys, pid, ours);
      var rest, end := WorkGetsDone(db0, ours, ev, id, Perform(sys, Advance(pid)), NextWinner(sys, Advance(pid), ours, winner));
      more, last := [Advance(pid)] + rest, end;
      OneAction(sys, Advance(pid));
      ScheduleInTwo(sys, [Advance(pid)], rest);
    }
  }

  /** With these further commits every delivery has its answer, and one of them is the winner. */
  predicate AllAnswered(db0: State, actions: seq<Action>, more: seq<Action>, ours: set<Pid>, ev: PaymentEvent, id: BookingId)
    requires id in db0.bookings
  {
    var arrived, end := Arrived(Schedule(Start(db0), actions).procs, ours), Schedule(Start(db0), actions + more);
    && |more| <= 2 * |arrived|
    && Finished(end.procs, ours) == Arrived(end.procs, ours) == arrived
    && |Winners(end.procs, ours, id)| == (if arrived == {} then 0 else 1)
    && (forall p <- arrived :: p in end.procs && (end.procs[p] == Done(Ok(PaidOnline(id))) || end.procs[p] == Done(Ok(Duplicate))))
    && (if arrived == {} then Untouched(db0, ev, id, end.db) else Settled(db0, ev, id, end.db))
  }

  /** And none is stuck: at any point of such a storm the deliveries that have arrived can all
      be finished, within two commits each, and then there is exactly one confirmation. Only if
      nobody has read under the lock yet must the hold still be live at that point. */
  lemma DeliveriesAllFinish(db0: State, actions: seq<Action>, ours: set<Pid>, ev: PaymentEvent, id: BookingId)
    requires WouldConfirm(db0, ev, id) && id in db0.bookings && id < db0.nextId
    requires OthersStayAside(db0, actions, ours, ev, id) && FirstReadInTime(db0, actions, ours, id)
    requires var now := Schedule(Start(db0), actions);
             Finished(now.procs, ours) == {} && id !in now.locks ==> InTime(db0, id, now.db.now)
    ensures exists more :: OnlyAdvance(more, ours) && AllAnswered(db0, actions, more, ours, ev, id)
  {
    hide WouldConfirm, Schedule, Stages, InTime, Work, Untouched, Settled, OthersStayAside, FirstReadInTime;
    EveryStorm(db0, actions, ours, ev, id);
    var sys := Schedule(Start(db0), actions);
    var winner :| Storm(db0, ours, ev, id, sys, winner);
    OneWinner(db0, ours, ev, id, sys, winner);
    var more, last := WorkGetsDone(db0, ours, ev, id, sys, winner);
    ScheduleInTwo(Start(db0), actions, more);
    OneWinner(db0, ours, ev, id, Schedule(sys, more), last);
    WorkIsBounded(sys.procs, ours);
    assert AllAnswered(db0, actions, more, ours, ev, id);
  }

  lemma WorkIsBounded(procs: map<Pid, Phase>, ours: set<Pid>)
    ensures Work(procs, ours) <= 2 * |Arrived(procs, ours)|
  {
    var busy := Waiting(procs, ours) + Holding(procs, ours);
    assert Arrived(procs, ours) == busy + (Arrived(procs, ours) - busy);
  }
}
