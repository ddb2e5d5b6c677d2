/** Several bookings under one hold, paid online at the same time. */
module SharedHold {
  import opened Model
  import opened Operations
  import opened Invariant
  import opened Housekeeping
  import opened Interleaving
  import opened Concurrency
  import opened RetryStorm

  /** Process q delivers the right money for a waiting booking: it has either not read anything
      under the row lock yet, or has read, the hold included, and is about to commit. */
  predicate Delivering(sys: System, q: Pid, ev: PaymentEvent, id: BookingId) {
    && q in sys.procs && ev.kind == SUCCEEDED && ev.reference == Ref(id) && ev.id !in sys.db.events
    && id in sys.db.bookings && sys.db.bookings[id].status.Processing?
    && RightAmount(ev.amount, ev.currency, sys.db.bookings[id])
    && (sys.procs[q] == LockedConfirm(ev, id, sys.db.bookings[id]) || (sys.procs[q] == AwaitLock(ev) && id !in sys.locks))
  }

  /** The first webhook commits and takes the hold of the room with it. */
  lemma FirstCommits(sys: System, sold: set<BookingId>, p: Pid, ev: PaymentEvent, a: BookingId, b: BookingId)
    requires SystemSafe(sys, sold) && p in sys.procs && a in sys.db.bookings && sys.procs[p] == LockedConfirm(ev, a, sys.db.bookings[a])
    requires b in sys.db.bookings && a != b && Apart(sys.db.bookings[a], sys.db.bookings[b])
    requires !sys.db.bookings[a].status.Cancelled? && !sys.db.bookings[b].status.Cancelled?
    requires Perform(sys, Advance(p)).procs[p] == Done(Ok(PaidOnline(a)))
    ensures var after := Perform(sys, Advance(p));
            && after.db.bookings == WithStatus(sys.db.bookings, a, Confirmed)
            && after.db.holds == sys.db.holds - {sys.db.bookings[a].room}
            && after.db.events == Logged(sys.db, ev).events
            && after.locks == sys.locks - {a}
            && (NightClash(after.db.nights, sys.db.bookings[b]) ==> NightClash(sys.db.nights, sys.db.bookings[b]))
  {
    hide SystemSafe, RightAmount, PaymentClash, NightClash, NightRows, WithStatus;
    DifferentNights(sys.db.nights, a, sys.db.bookings[a], sys.db.bookings[b]);
  }

  lemma DifferentNights(nights: map<Night, BookingId>, a: BookingId, mine: Booking, other: Booking)
    requires Apart(mine, other) && !mine.status.Cancelled? && !other.status.Cancelled?
    ensures NightClash(nights + NightRows(a, mine), other) ==> NightClash(nights, other)
  {
    if n :| n in NightKeys(other) && n in nights + NightRows(a, mine) {
      NightKeysAre(other, n);
      NightKeysAre(mine, n);
    }
  }

  lemma FreshEventIsUnused(db: State, ev: PaymentEvent)
    requires PaymentsSafe(db.bookings, db.payments, db.events) && ev.id !in db.events
    ensures forall other <- db.payments :: db.payments[other].event != Some(ev.id)
  {
    forall other | other in db.payments ensures db.payments[other].event != Some(ev.id) {
      assert PaymentOk(db.payments[other], other, db.bookings[other], db.events);
    }
  }

  /** The second webhook is where it was, but the hold is gone. */
  lemma SecondStillDelivers(sys: System, sold: set<BookingId>, p: Pid, first: PaymentEvent, a: BookingId,
                            q: Pid, second: PaymentEvent, b: BookingId)
    requires SystemSafe(sys, sold) && Delivering(sys, p, first, a) && sys.procs[p].LockedConfirm?
    requires Perform(sys, Advance(p)).procs[p] == Done(Ok(PaidOnline(a)))
    requires Delivering(sys, q, second, b) && a != b && p != q && first.id != second.id
    requires Apart(sys.db.bookings[a], sys.db.bookings[b]) && sys.db.bookings[a].room == sys.db.bookings[b].room
    requires !NightClash(sys.db.nights, sys.db.bookings[b])
    ensures var after := Perform(sys, Advance(p));
            && Delivering(after, q, second, b) && after.procs[q] == sys.procs[q]
            && after.db.bookings[b] == sys.db.bookings[b] && !NightClash(after.db.nights, after.db.bookings[b])
            && after.db.bookings[b].room !in after.db.holds
  {
    hide SystemSafe, RightAmount, Ref, NightClash, Commit, Apart;
    FirstCommits(sys, sold, p, first, a, b);
  }

  // ------------------------------------------------ the second webhook's course

  /** Nothing but the hold stands between the booking and its payment. */
  predicate Unpaid(db: State, ev: PaymentEvent, b: BookingId, row: Booking) {
    && b < db.nextId && b in db.bookings && db.bookings[b] == row && ev.id !in db.events
    && b !in db.payments && (forall other <- db.payments :: db.payments[other].event != Some(ev.id))
    && !NightClash(db.nights, row)
  }

  predicate CancelledRow(db: State, b: BookingId, row: Booking) {
    b < db.nextId && b in db.bookings && db.bookings[b] == row.(status := Cancelled)
  }

  /** Where the webhook may be, if it has read the hold in time, and if it has not. */
  predicate OnCourse(sys: System, q: Pid, ev: PaymentEvent, b: BookingId, row: Booking, read: bool) {
    q in sys.procs &&
    if read then
      || (sys.procs[q] == LockedConfirm(ev, b, row) && Unpaid(sys.db, ev, b, row))
      || (sys.procs[q] == Done(Ok(PaidOnline(b))) && b < sys.db.nextId && b in sys.db.bookings)
    else
      || (sys.procs[q] == AwaitLock(ev) && b !in sys.locks && Unpaid(sys.db, ev, b, row) && row.room !in sys.db.holds)
      || (sys.procs[q] == LockedCancel(ev, b) && Unpaid(sys.db, ev, b, row))
      || (sys.procs[q] == RecordEvent(ev, Raised(HoldGone)) && CancelledRow(sys.db, b, row) && ev.id !in sys.db.events)
      || (sys.procs[q] == Done(Raised(HoldGone)) && CancelledRow(sys.db, b, row))
  }

  predicate FitsRow(ev: PaymentEvent, b: BookingId, row: Booking) {
    ev.kind == SUCCEEDED && ev.reference == Ref(b) && row.status.Processing? && RightAmount(ev.amount, ev.currency, row)
  }

  /** Steps until the webhook has its answer. */
  function Left(phase: Phase): nat {
    if phase.AwaitLock? then 3 else if phase.LockedCancel? then 2 else if phase.RecordEvent? || phase.LockedConfirm? then 1 else 0
  }

  lemma ReaderConfirms(db: State, locks: map<BookingId, Pid>, ev: PaymentEvent, b: BookingId, row: Booking)
    requires Unpaid(db, ev, b, row)
    ensures var next := CommitOnline(db, locks, LockedConfirm(ev, b, row));
            next.phase == Done(Ok(PaidOnline(b))) && b < next.db.nextId && b in next.db.bookings
  {
    hide NightClash, NightRows;
  }

  lemma LateReaderFindsNoHold(db: State, locks: map<BookingId, Pid>, q: Pid, ev: PaymentEvent, b: BookingId, row: Booking)
    requires FitsRow(ev, b, row) && Unpaid(db, ev, b, row) && row.room !in db.holds && b !in locks
    ensures TakeLock(db, locks, q, AwaitLock(ev)) == Next(db, LockedCancel(ev, b), locks[b := q])
  {
    hide NightClash, RightAmount, Ref, FindByRef;
    FindsItsBooking(db.bookings, b);
  }

  lemma OwnAdvance(sys: System, q: Pid, ev: PaymentEvent, b: BookingId, row: Booking, read: bool)
    requires FitsRow(ev, b, row) && OnCourse(sys, q, ev, b, row, read)
    ensures var after := Perform(sys, Advance(q));
            OnCourse(after, q, ev, b, row, read)
            && Left(after.procs[q]) == if Left(sys.procs[q]) == 0 then 0 else Left(sys.procs[q]) - 1
  {
    hide FitsRow, NightClash, TakeLock, CommitOnline;
    if sys.procs[q].AwaitLock? {
      LateReaderFindsNoHold(sys.db, sys.locks, q, ev, b, row);
    } else if sys.procs[q].LockedConfirm? {
      ReaderConfirms(sys.db, sys.locks, ev, b, row);
    }
  }

  /** The others stay away from the booking's rows and from the hold of its room. */
  predicate OthersAside(sys: System, actions: seq<Action>, q: Pid, ev: PaymentEvent, b: BookingId, row: Booking) {
    actions == [] ||
    var before, last := actions[..|actions| - 1], actions[|actions| - 1];
    var now := Schedule(sys, before);
    OthersAside(sys, before, q, ev, b, row)
    && (last.Advance? && last.pid != q && last.pid in now.procs ==> Elsewhere(now.procs[last.pid], ev, b, row))
  }

  lemma SameRowsUnpaid(db: State, db': State, ev: PaymentEvent, b: BookingId, row: Booking)
    requires SameRows(ev, b, row, db, db')
    ensures Unpaid(db, ev, b, row) ==> Unpaid(db', ev, b, row)
    ensures CancelledRow(db, b, row) ==> CancelledRow(db', b, row)
  {
    hide NightKeys;
  }

  lemma OtherAdvances(sys: System, q: Pid, ev: PaymentEvent, b: BookingId, row: Booking, read: bool, pid: Pid)
    requires FitsRow(ev, b, row) && OnCourse(sys, q, ev, b, row, read)
    requires pid in sys.procs && pid != q && Elsewhere(sys.procs[pid], ev, b, row)
    ensures OnCourse(Perform(sys, Advance(pid)), q, ev, b, row, read)
  {
    hide Commit, Elsewhere, Unpaid, CancelledRow, SamePayments, SameNights, RightAmount;
    KnownId(sys, q, ev, b, row, read);
    var next := Commit(sys.db, sys.locks, pid, sys.procs[pid]);
    OthersPassBy(sys.db, ev, b, row, sys.locks, pid, sys.procs[pid]);
    OthersLeaveTheLock(sys.db, ev, b, row, sys.locks, pid, sys.procs[pid]);
    SameRowsUnpaid(sys.db, next.db, ev, b, row);
  }

  lemma KnownId(sys: System, q: Pid, ev: PaymentEvent, b: BookingId, row: Booking, read: bool)
    requires OnCourse(sys, q, ev, b, row, read)
    ensures b < sys.db.nextId
  {
    hide NightClash;
  }

  lemma BeginsAreHarmless(sys: System, q: Pid, ev: PaymentEvent, b: BookingId, row: Booking, read: bool, action: Action)
    requires OnCourse(sys, q, ev, b, row, read) && !action.Advance?
    ensures OnCourse(Perform(sys, action), q, ev, b, row, read)
  {
    hide Read, NightClash;
  }

  lemma {:induction false} StaysOnCourse(sys: System, more: seq<Action>, q: Pid, ev: PaymentEvent, b: BookingId, row: Booking, read: bool)
    requires FitsRow(ev, b, row) && OnCourse(sys, q, ev, b, row, read) && OthersAside(sys, more, q, ev, b, row)
    ensures OnCourse(Schedule(sys, more), q, ev, b, row, read)
  {
    hide Perform, OnCourse, Elsewhere, FitsRow;
    if more != [] {
      var before, last := more[..|more| - 1], more[|more| - 1];
      var now := Schedule(sys, before);
      StaysOnCourse(sys, before, q, ev, b, row, read);
      if last.Advance? {
        if last.pid == q {
          OwnAdvance(now, q, ev, b, row, read);
        } else if last.pid in now.procs {
          OtherAdvances(now, q, ev, b, row, read, last.pid);
        } else {
          UnknownIsIdle(now, last.pid);
        }
      } else {
        BeginsAreHarmless(now, q, ev, b, row, read, last);
      }
    }
  }

  lemma UnknownIsIdle(sys: System, pid: Pid)
    requires pid !in sys.procs
    ensures Perform(sys, Advance(pid)) == sys
  {}

  lemma CourseEnds(sys: System, q: Pid, ev: PaymentEvent, b: BookingId, row: Booking, read: bool)
    requires FitsRow(ev, b, row) && OnCourse(sys, q, ev, b, row, read)
    ensures var end := Schedule(sys, [Advance(q), Advance(q), Advance(q)]);
            && q in end.procs && end.procs[q] == Done(if read then Ok(PaidOnline(b)) else Raised(HoldGone))
            && b in end.db.bookings && (!read ==> end.db.bookings[b].status.Cancelled?)
  {
    hide Perform, Schedule, FitsRow, Unpaid;
    ThreeActions(sys, Advance(q), Advance(q), Advance(q));
    var one := Perform(sys, Advance(q));
    var two := Perform(one, Advance(q));
    OwnAdvance(sys, q, ev, b, row, read);
    OwnAdvance(one, q, ev, b, row, read);
    OwnAdvance(two, q, ev, b, row, read);
  }

  lemma CourseBegins(sys: System, sold: set<BookingId>, q: Pid, ev: PaymentEvent, b: BookingId)
    requires SystemSafe(sys, sold) && Delivering(sys, q, ev, b) && !NightClash(sys.db.nights, sys.db.bookings[b])
    requires sys.db.bookings[b].room !in sys.db.holds
    ensures FitsRow(ev, b, sys.db.bookings[b])
    ensures OnCourse(sys, q, ev, b, sys.db.bookings[b], sys.procs[q].LockedConfirm?)
  {
    hide StatusBacked, NightsBacked, NightsComplete, PhasesOk, Ledger, NightClash, RightAmount, Ref, PaymentOk;
    FreshEventIsUnused(sys.db, ev);
  }

  /** In every schedule: when a webhook confirms booking a, another one that is delivering the
      right money for booking b of the same room, and so under the same hold, is paid too exactly
      if it has read the hold before that commit. Whatever happens afterwards, as long as the
      others stay away from b's rows and nobody puts a new hold on the room, this is the answer
      it gets; if it reads late, b is cancelled. */
  lemma SecondIsPaidIffItHasRead(db: State, actions: seq<Action>, p: Pid, first: PaymentEvent, a: BookingId,
                                 q: Pid, second: PaymentEvent, b: BookingId, more: seq<Action>)
    requires DbSafe(db)
    requires var sys := Schedule(Start(db), actions);
             && Delivering(sys, p, first, a) && sys.procs[p].LockedConfirm?
             && Perform(sys, Advance(p)).procs[p] == Done(Ok(PaidOnline(a)))
             && Delivering(sys, q, second, b) && a != b && p != q && first.id != second.id
             && sys.db.bookings[a].room == sys.db.bookings[b].room
             && !Overlaps(sys.db.bookings[a], sys.db.bookings[b].checkIn, sys.db.bookings[b].checkOut)
             && !NightClash(sys.db.nights, sys.db.bookings[b])
             && OthersAside(Perform(sys, Advance(p)), more, q, second, b, sys.db.bookings[b])
    ensures var sys := Schedule(Start(db), actions);
            var end := Schedule(Perform(sys, Advance(p)), more + [Advance(q), Advance(q), Advance(q)]);
            && q in end.procs && b in end.db.bookings
            && end.procs[q] == Done(if sys.procs[q].LockedConfirm? then Ok(PaidOnline(b)) else Raised(HoldGone))
            && (sys.procs[q].AwaitLock? ==> end.db.bookings[b].status.Cancelled?)
  {
    hide Perform, Schedule, DbSafe, RightAmount, Ref, OthersAside, OnCourse;
    EveryScheduleIsSafe(db, actions);
    var sys, sold := Schedule(Start(db), actions), db.payments.Keys;
    ActionIsSafe(sys, sold, Advance(p));
    var after, row := Perform(sys, Advance(p)), sys.db.bookings[b];
    SecondStillDelivers(sys, sold, p, first, a, q, second, b);
    hide SystemSafe;
    CourseBegins(after, sold, q, second, b);
    StaysOnCourse(after, more, q, second, b, row, sys.procs[q].LockedConfirm?);
    CourseEnds(Schedule(after, more), q, second, b, row, sys.procs[q].LockedConfirm?);
    ScheduleInTwo(after, more, [Advance(q), Advance(q), Advance(q)]);
  }

  // ------------------------------------------------ both are paid: an example

  const FIRST_EVENT: PaymentEvent := PaymentEvent("evt_1", SUCCEEDED, Ref(1), 35000.0, NAIRA)
  const SECOND_EVENT: PaymentEvent := PaymentEvent("evt_2", SUCCEEDED, Ref(2), 35000.0, NAIRA)

  /** Two deliveries that have both read, each under the lock on its own booking. */
  const BOTH_READ: seq<Action> := [Begin(0, Deliver(FIRST_EVENT)), Begin(1, Deliver(SECOND_EVENT)), Advance(0), Advance(1)]

  function BothLocked(): System {
    System(TwoStays(), map[0 := LockedConfirm(FIRST_EVENT, 1, StayRow(0, Processing)),
                           1 := LockedConfirm(SECOND_EVENT, 2, StayRow(1, Processing))], map[1 := 0, 2 := 1])
  }

  lemma DeliveriesRead()
    ensures Schedule(Start(TwoStays()), BOTH_READ) == BothLocked()
  {
    hide Schedule, Ref, FindByRef;
    FindsItsBooking(TwoStays().bookings, 1);
    FindsItsBooking(TwoStays().bookings, 2);
    FourActions(Start(TwoStays()), BOTH_READ[0], BOTH_READ[1], BOTH_READ[2], BOTH_READ[3]);
    var one: map<BookingId, Pid> := map[1 := 0];
    assert one[2 := 1] == map[1 := 0, 2 := 1];
  }

  lemma FirstIsPaid()
    ensures 0 in Perform(BothLocked(), Advance(0)).procs && Perform(BothLocked(), Advance(0)).procs[0] == Done(Ok(PaidOnline(1)))
  {
    hide Ref;
    OneNightRow(1, StayRow(0, Processing));
  }

  /** From a fresh database: one hold pays online for two bookings, which it never does serially. */
  lemma OneHoldPaysTwice()
    ensures Reachable(TwoStays())
    ensures var end := Schedule(Perform(Schedule(Start(TwoStays()), BOTH_READ), Advance(0)), [Advance(1), Advance(1), Advance(1)]);
            1 in end.procs && end.procs[1] == Done(Ok(PaidOnline(2)))
    ensures var paid := Perform(Schedule(Start(TwoStays()), BOTH_READ), Advance(0));
            0 in paid.procs && paid.procs[0] == Done(Ok(PaidOnline(1)))
  {
    hide Reachable, Schedule, Perform, DbSafe, Ref;
    TwoStaysAreReachable();
    ReachableIsConsistent(TwoStays());
    ConsistentIsSafe(TwoStays());
    hide Inv;
    DeliveriesRead();
    FirstIsPaid();
    var rest: seq<Action> := [Advance(1), Advance(1), Advance(1)];
    assert [] + rest == rest;
    SecondIsPaidIffItHasRead(TwoStays(), BOTH_READ, 0, FIRST_EVENT, 1, 1, SECOND_EVENT, 2, []);
  }
}
