/** Where concurrent requests behave as serial ones do, and the one place where they do not. */
module Races {
  import opened Model
  import opened Operations
  import opened Invariant
  import opened Sweeps
  import opened Interleaving
  import opened Concurrency

  // --------------------------------------- an undisturbed request is serial

  /** Process 0 on its own, in a given phase. */
  function Solo(next: Next): System { System(next.db, map[0 := next.phase], next.locks) }

  lemma AdvanceSolo(next: Next)
    ensures Perform(Solo(next), Advance(0)) == Solo(Commit(next.db, next.locks, 0, next.phase))
  {
    hide Commit;
    var after := Commit(next.db, next.locks, 0, next.phase);
    assert map[0 := next.phase][0 := after.phase] == map[0 := after.phase];
  }

  /** Two chances to commit. */
  function Twice(db: State, locks: map<BookingId, Pid>, phase: Phase): Next {
    var next := Commit(db, locks, 0, phase);
    Commit(next.db, next.locks, 0, next.phase)
  }

  /** A request alone in the system: one read and three chances to commit. */
  lemma AloneIs(db: State, step: Step)
    ensures var n1 := Commit(db, map[], 0, Read(db, step));
            Alone(db, step) == Solo(Twice(n1.db, n1.locks, n1.phase))
  {
    hide Commit, Read, Solo, Schedule, Perform;
    var n0 := Next(db, Read(db, step), map[]);
    assert Perform(Start(db), Begin(0, step)) == Solo(n0) by { BeginSolo(db, step); }
    var n1 := Commit(n0.db, n0.locks, 0, n0.phase);
    var n2 := Commit(n1.db, n1.locks, 0, n1.phase);
    AdvanceSolo(n0);
    AdvanceSolo(n1);
    AdvanceSolo(n2);
    FourActions(Start(db), Begin(0, step), Advance(0), Advance(0), Advance(0));
  }

  lemma BeginSolo(db: State, step: Step)
    ensures Perform(Start(db), Begin(0, step)) == Solo(Next(db, Read(db, step), map[]))
  {
    hide Read;
  }

  /** The answer a serial operation gives, as the end of a request. */
  function Ended(r: Reply): Next { Next(r.state, Done(r.outcome), map[]) }

  lemma HoldCommits(db: State, room: RoomId, guest: Email)
    ensures Commit(db, map[], 0, Read(db, PlaceHold(room, guest))) == Ended(HoldRoom(db, room, guest))
  {}

  lemma BookingCommits(db: State, client: User, req: BookingRequest)
    ensures Commit(db, map[], 0, Read(db, Book(client, req))) == Ended(CreateBooking(db, client, req))
  {
    hide BlockedByBooking, NightsTaken, Live, Today, NewBooking;
  }

  lemma DeskCommits(db: State, id: BookingId, staff: Email, amount: real, currency: string)
    ensures Commit(db, map[], 0, Read(db, PayOffline(id, staff, amount, currency)))
            == Ended(RecordOfflinePayment(db, id, staff, amount, currency))
  {
    hide RightAmount, PaymentClash, NightClash, NightRows;
  }

  lemma MovesCommit(db: State, id: BookingId)
    ensures Commit(db, map[], 0, Read(db, Arrive(id))) == Ended(CheckInGuest(db, id))
    ensures Commit(db, map[], 0, Read(db, Depart(id))) == Ended(CheckOutGuest(db, id))
  {}

  lemma RoomWritesCommit(db: State, room: RoomId, name: string, rate: Option<real>, capacity: Option<int>)
    ensures Commit(db, map[], 0, Read(db, CleanRoom(room))) == Ended(MarkRoomClean(db, room))
    ensures Commit(db, map[], 0, Read(db, Reprice(name, rate, capacity))) == Ended(UpdateRoomType(db, name, rate, capacity))
  {}

  lemma SweepsCommit(db: State, grace: int)
    ensures Commit(db, map[], 0, Read(db, SweepHolds)) == Ended(DeleteExpiredHolds(db))
    ensures Commit(db, map[], 0, Read(db, SweepBookings(grace))) == Ended(CancelStaleProcessing(db, grace))
  {
    hide Stale, Live;
  }

  lemma LockedWebhookEnds(db: State, ev: PaymentEvent, id: BookingId)
    requires id in db.bookings && ev.id !in db.events
    ensures var phase := ReadUnderLock(db, ev, id);
            if phase.Done? then Ended(SettleBooking(db, ev, id)) == Next(db, phase, map[])
            else Twice(db, map[id := 0], phase) == Ended(SettleBooking(db, ev, id))
  {
    hide RightAmount, HoldBacks, PaymentClash, NightClash, NightRows, Ref, FindByRef, CommitOnline;
    var free: map<BookingId, Pid> := map[];
    assert map[id := 0] - {id} == free;
    if ReadUnderLock(db, ev, id).LockedConfirm? { LockedConfirmEnds(db, ev, id); }
  }

  lemma LockedConfirmEnds(db: State, ev: PaymentEvent, id: BookingId)
    requires id in db.bookings && ev.id !in db.events && ReadUnderLock(db, ev, id).LockedConfirm?
    ensures CommitOnline(db, map[id := 0], ReadUnderLock(db, ev, id)) == Ended(SettleBooking(db, ev, id))
  {
    hide RightAmount, HoldBacks, PaymentClash, NightClash, NightRows, Ref, FindByRef;
    var free: map<BookingId, Pid> := map[];
    assert map[id := 0] - {id} == free;
  }

  lemma WebhookEnds(db: State, ev: PaymentEvent)
    ensures var n := Commit(db, map[], 0, Read(db, Deliver(ev)));
            Twice(n.db, n.locks, n.phase) == Ended(ProcessPaymentEvent(db, ev))
  {
    hide SettleBooking, ReadUnderLock, Ref, CommitOnline, CommitAtDesk;
    var found := FindByRef(db.bookings, ev.reference);
    if ev.id !in db.events && ev.kind == SUCCEEDED && found.Some? {
      LockedWebhookEnds(db, ev, found.value);
      var free: map<BookingId, Pid> := map[];
      assert free[found.value := 0] == map[found.value := 0];
    }
  }

  lemma EndedTwice(r: Reply)
    ensures Twice(Ended(r).db, Ended(r).locks, Ended(r).phase) == Ended(r)
  {}

  /** Refinement: alone in the system, the reads and commits of a request add up to the
      serial operation: same database, same answer, every lock released. */
  lemma AloneIsSerial(db: State, step: Step)
    requires !step.PayOnline? && !step.Tick?
    ensures Alone(db, step) == Solo(Ended(Exec(db, step)))
  {
    hide Commit, Read, Alone, Solo, Ended, HoldRoom, CreateBooking, RecordOfflinePayment, ProcessPaymentEvent, CheckInGuest,
      CheckOutGuest, MarkRoomClean, UpdateRoomType, DeleteExpiredHolds, CancelStaleProcessing;
    hide Twice;
    AloneIs(db, step);
    var r := Exec(db, step);
    if step.Deliver? {
      WebhookEnds(db, step.ev);
    } else {
      FirstCommit(db, step);
      EndedTwice(r);
    }
  }

  lemma FirstCommit(db: State, step: Step)
    requires !step.PayOnline? && !step.Tick? && !step.Deliver?
    ensures Commit(db, map[], 0, Read(db, step)) == Ended(Exec(db, step))
  {
    hide Commit, Read, Ended, HoldRoom, CreateBooking, RecordOfflinePayment, CheckInGuest, CheckOutGuest, MarkRoomClean,
      UpdateRoomType, DeleteExpiredHolds, CancelStaleProcessing;
    match step
    case PlaceHold(room, guest) => HoldCommits(db, room, guest);
    case Book(client, req) => BookingCommits(db, client, req);
    case PayOffline(id, staff, amount, currency) => DeskCommits(db, id, staff, amount, currency);
    case Arrive(id) => MovesCommit(db, id);
    case Depart(id) => MovesCommit(db, id);
    case CleanRoom(room) => RoomWritesCommit(db, room, "", None, None);
    case Reprice(name, rate, capacity) => RoomWritesCommit(db, 0, name, rate, capacity);
    case SweepHolds => SweepsCommit(db, 0);
    case SweepBookings(grace) => SweepsCommit(db, grace);
  }

  /** Process 1 waits while process 0 is served. */
  function Beside(next: Next, waiting: Phase): System { System(next.db, map[0 := next.phase, 1 := waiting], next.locks) }

  lemma AdvanceBeside(next: Next, waiting: Phase)
    ensures Perform(Beside(next, waiting), Advance(0)) == Beside(Commit(next.db, next.locks, 0, next.phase), waiting)
  {
    hide Commit;
    var after := Commit(next.db, next.locks, 0, next.phase);
    assert map[0 := next.phase, 1 := waiting][0 := after.phase] == map[0 := after.phase, 1 := waiting];
  }

  lemma BeginBeside(db: State, step: Step, waiting: Phase)
    ensures Perform(System(db, map[1 := waiting], map[]), Begin(0, step)) == Beside(Next(db, Read(db, step), map[]), waiting)
  {
    hide Read;
    assert map[1 := waiting][0 := Read(db, step)] == map[0 := Read(db, step), 1 := waiting];
  }

  /** A delivery served while somebody waits for it. */
  lemma ServedBeside(db: State, ev: PaymentEvent, waiting: Phase)
    ensures Schedule(System(db, map[1 := waiting], map[]), [Begin(0, Deliver(ev)), Advance(0), Advance(0), Advance(0)])
            == Beside(Ended(ProcessPaymentEvent(db, ev)), waiting)
  {
    hide Commit, Read, Beside, Perform, Schedule, Ended, ProcessPaymentEvent;
    var n0 := Next(db, Read(db, Deliver(ev)), map[]);
    var n1 := Commit(n0.db, n0.locks, 0, n0.phase);
    var n2 := Commit(n1.db, n1.locks, 0, n1.phase);
    BeginBeside(db, Deliver(ev), waiting);
    AdvanceBeside(n0, waiting);
    AdvanceBeside(n1, waiting);
    AdvanceBeside(n2, waiting);
    WebhookEnds(db, ev);
    FourActions(System(db, map[1 := waiting], map[]), Begin(0, Deliver(ev)), Advance(0), Advance(0), Advance(0));
  }

  /** Paying online is a request that waits for another one, the provider's delivery of a
      positive amount, and then looks at the booking again. Served back to back, the two
      requests are the serial operation. */
  lemma PayingIsWaitingForTheWebhook(db: State, id: BookingId, guest: Email, eventId: EventId)
    requires Read(db, PayOnline(id, guest, eventId)).AwaitProvider?
    requires ProviderEvent(id, db.bookings[id], eventId).amount > 0.0
    ensures var ev := ProviderEvent(id, db.bookings[id], eventId);
            var waiting := Perform(Start(db), Begin(1, PayOnline(id, guest, eventId)));
            var served := Schedule(waiting, [Begin(0, Deliver(ev)), Advance(0), Advance(0), Advance(0)]);
            var r := PayBooking(db, id, guest, eventId);
            var end := Perform(served, Advance(1));
            end.db == r.state && 1 in end.procs && end.procs[1] == Done(r.outcome)
  {
    hide Schedule, ProcessPaymentEvent, Ref;
    var step := PayOnline(id, guest, eventId);
    var empty: map<Pid, Phase> := map[];
    assert empty[1 := Read(db, step)] == map[1 := Read(db, step)];
    ServedBeside(db, ProviderEvent(id, db.bookings[id], eventId), AwaitProvider(id));
  }

  // --------------------------------------------- a payment outlives the race

  /** Whoever has paid is confirmed, in house or departed. */
  ghost predicate PaidStays(db: State) {
    forall id <- db.payments :: id in db.bookings && Paid(db.bookings[id].status)
  }

  /** The booking sweep, about to commit what it has read, would cancel a booking paid since. */
  predicate Undercuts(sys: System, action: Action) {
    && action.Advance? && action.pid in sys.procs
    && var phase := sys.procs[action.pid];
    && phase.CancelBookings?
    && (forall id <- phase.ids :: id !in sys.locks)
    && exists id <- phase.ids :: id in sys.db.payments
  }

  lemma CommitKeepsPaid(db: State, locks: map<BookingId, Pid>, pid: Pid, phase: Phase)
    requires DbSafe(db) && PaidStays(db) && PhaseOk(phase, pid, db.bookings, db.payments, locks) && !phase.CancelBookings?
    ensures PaidStays(Commit(db, locks, pid, phase).db)
  {
    hide StatusBacked, NightsBacked, NightsComplete, NightRows, NightClash, PaymentClash, RightAmount, HoldBacks, Ref, SameStay, PaymentOk;
  }

  /** Exactly: the sweep breaks the agreement of money and status when, and only when, one of
      the bookings it read as abandoned has been paid before it commits. */
  lemma SweepKeepsPaid(db: State, locks: map<BookingId, Pid>, pid: Pid, phase: Phase)
    requires PaidStays(db) && phase.CancelBookings?
    ensures PaidStays(Commit(db, locks, pid, phase).db)
            <==> !((forall id <- phase.ids :: id !in locks) && exists id <- phase.ids :: id in db.payments)
  {
    var after := Commit(db, locks, pid, phase).db;
    if forall id <- phase.ids :: id !in locks {
      if id :| id in phase.ids && id in db.payments {
        assert after.bookings[id].status == Cancelled;
      }
    }
  }

  lemma ActionKeepsPaid(sys: System, sold: set<BookingId>, action: Action)
    requires SystemSafe(sys, sold) && PaidStays(sys.db)
    ensures PaidStays(Perform(sys, action).db) <==> !Undercuts(sys, action)
  {
    hide Commit, Read, DbSafe, PhaseOk, Ledger;
    if action.Advance? && action.pid in sys.procs {
      var phase := sys.procs[action.pid];
      assert PhaseOk(phase, action.pid, sys.db.bookings, sys.db.payments, sys.locks);
      if phase.CancelBookings? {
        SweepKeepsPaid(sys.db, sys.locks, action.pid, phase);
      } else {
        CommitKeepsPaid(sys.db, sys.locks, action.pid, phase);
      }
    }
  }

  /** In every interleaving, from every safe start: as long as money and status agree, the
      next action leaves them in agreement exactly when it is not such a sweep. */
  lemma OnlyTheSweepLosesPayments(db: State, actions: seq<Action>, action: Action)
    requires DbSafe(db) && PaidStays(Schedule(Start(db), actions).db)
    ensures PaidStays(Perform(Schedule(Start(db), actions), action).db) <==> !Undercuts(Schedule(Start(db), actions), action)
  {
    hide Schedule, Perform, DbSafe, SystemSafe, Undercuts, PaidStays;
    EveryScheduleIsSafe(db, actions);
    ActionKeepsPaid(Schedule(Start(db), actions), db.payments.Keys, action);
  }

  predicate SweepFree(actions: seq<Action>) { forall a <- actions :: a.Begin? ==> !a.step.SweepBookings? }

  lemma NobodySweeps(sys: System, action: Action)
    requires (forall p <- sys.procs :: !sys.procs[p].CancelBookings?) && (action.Begin? ==> !action.step.SweepBookings?)
    ensures forall p <- Perform(sys, action).procs :: !Perform(sys, action).procs[p].CancelBookings?
  {
    hide HoldRoom, CreateBooking, RecordOfflinePayment, CheckInGuest, CheckOutGuest, MarkRoomClean, UpdateRoomType, RightAmount,
      HoldBacks, PaymentClash, NightClash, NightRows, Merge, CancelAll, Ref, DeadHolds;
  }

  /** While the booking sweep does not run, every interleaving keeps every booking that has a
      payment confirmed, in house or departed. */
  lemma {:induction false} WithoutTheSweepPaidStaysPaid(db: State, actions: seq<Action>)
    requires DbSafe(db) && PaidStays(db) && SweepFree(actions)
    ensures PaidStays(Schedule(Start(db), actions).db)
    ensures var sys := Schedule(Start(db), actions); forall p <- sys.procs :: !sys.procs[p].CancelBookings?
  {
    hide Perform, DbSafe, PaidStays;
    if actions != [] {
      var before, last := actions[..|actions| - 1], actions[|actions| - 1];
      WithoutTheSweepPaidStaysPaid(db, before);
      NobodySweeps(Schedule(Start(db), before), last);
      OnlyTheSweepLosesPayments(db, before, last);
    }
  }

  // ------------------------------------------------------- the lost payment

  /** The booking after the desk has taken the money, and after the sweep has cancelled it. */
  function LatePaid(status: Status): State {
    LateBooking().(bookings := map[1 := LATE_ROW.(status := status)], nights := map[Night(1, 0) := 1],
                   payments := map[1 := Payment(35000.0, NAIRA, Offline, None, Some("desk"))])
  }

  lemma DeskTakesLateMoney()
    ensures var payment := Payment(35000.0, NAIRA, Offline, None, Some("desk"));
            && Read(LateBooking(), PayOffline(1, "desk", 35000.0, NAIRA)) == ConfirmAtDesk(1, LATE_ROW, payment)
            && Commit(LateBooking(), map[], 1, ConfirmAtDesk(1, LATE_ROW, payment))
               == Next(LatePaid(Confirmed), Done(Ok(PaidOffline(1))), map[])
  {
    assert NightKeys(LATE_ROW) == {Night(1, 0)} by {
      forall n ensures n in NightKeys(LATE_ROW) <==> n in {Night(1, 0)} { NightKeysAre(LATE_ROW, n); }
    }
    assert NightRows(1, LATE_ROW) == map[Night(1, 0) := 1];
  }

  lemma SweepFindsLateBooking()
    ensures Read(LateBooking(), SweepBookings(GRACE_MINUTES)) == CancelBookings({1}, {1})
  {
    assert StaleIds(LateBooking(), GRACE_MINUTES) == {1};
    assert OwnHolds(LateBooking(), {1}) == {1};
  }

  lemma SweepCancelsLateMoney()
    ensures Commit(LatePaid(Confirmed), map[], 0, CancelBookings({1}, {1}))
            == Next(LatePaid(Cancelled).(holds := map[]), Done(Ok(Swept(1))), map[])
  {
    var rows := LatePaid(Confirmed).bookings;
    assert CancelAll(rows, {1}) == map[1 := LATE_ROW.(status := Cancelled)];
    var holds := LateBooking().holds;
    assert holds - {1} == map[];
  }

  /** The hypothesis is needed: from a reachable database, a sweep that has read the booking as
      abandoned while the desk takes the money ends with a payment, sold nights and a
      cancelled booking. */
  lemma SweepLosesThePayment()
    ensures Reachable(LateBooking())
    ensures Schedule(Start(LateBooking()), [Begin(0, SweepBookings(GRACE_MINUTES)), Begin(1, PayOffline(1, "desk", 35000.0, NAIRA)),
                                            Advance(1), Advance(0)])
            == System(LatePaid(Cancelled).(holds := map[]), map[0 := Done(Ok(Swept(1))), 1 := Done(Ok(PaidOffline(1)))], map[])
    ensures !PaidStays(LatePaid(Cancelled))
  {
    hide Reachable, Read, Commit, Schedule, LateBooking, LatePaid;
    LateBookingIsReachable();
    DeskTakesLateMoney();
    SweepFindsLateBooking();
    SweepCancelsLateMoney();
    FourActions(Start(LateBooking()), Begin(0, SweepBookings(GRACE_MINUTES)), Begin(1, PayOffline(1, "desk", 35000.0, NAIRA)),
                Advance(1), Advance(0));
    LostRow();
  }

  lemma LostRow()
    ensures !PaidStays(LatePaid(Cancelled))
  {
    assert 1 in LatePaid(Cancelled).payments;
  }

  // ----------------------------------------------------------- a missed day

  /** Not arrived on the day of arrival, or not left on the day of departure. */
  predicate MissedDay(b: Booking, now: Instant) {
    (b.status.Confirmed? && b.checkIn < Today(now)) || (b.status.CheckedIn? && b.checkOut < Today(now))
  }

  /** The commit of a sweep that read the booking while it waited for money, or of a check-in or
      check-out that read it before the day was over. */
  predicate RewritesMissed(sys: System, action: Action, id: BookingId) {
    action.Advance? && action.pid in sys.procs && id in sys.db.bookings &&
    match sys.procs[action.pid]
    case CancelBookings(ids, _) => id in ids && forall i <- ids :: i !in sys.locks
    case MoveStay(i, status, _, room, _, _) => i == id && id !in sys.locks && room in sys.db.rooms && sys.db.bookings[id].status != status
    case _ => false
  }

  lemma OthersKeepPaidRow(db: State, locks: map<BookingId, Pid>, pid: Pid, phase: Phase, id: BookingId)
    requires IdsOk(db.bookings, db.nextId) && PhaseOk(phase, pid, db.bookings, db.payments, locks)
    requires id in db.bookings && id in db.payments && !db.bookings[id].status.Processing?
    requires !phase.CancelBookings? && !phase.MoveStay?
    ensures var after := Commit(db, locks, pid, phase).db.bookings; id in after && after[id] == db.bookings[id]
  {
    hide NightClash, NightRows, RightAmount, HoldBacks, Ref, FindByRef, Merge, CancelAll, PaymentOk, SameStay;
  }

  lemma SweepChangesIff(sys: System, pid: Pid, id: BookingId)
    requires pid in sys.procs && sys.procs[pid].CancelBookings? && id in sys.db.bookings && !sys.db.bookings[id].status.Cancelled?
    ensures var after := Commit(sys.db, sys.locks, pid, sys.procs[pid]).db.bookings;
            id in after && (after[id] != sys.db.bookings[id] <==> RewritesMissed(sys, Advance(pid), id))
  {
    assert sys.db.bookings[id].(status := Cancelled) != sys.db.bookings[id];
  }

  lemma MoveChangesIff(sys: System, pid: Pid, id: BookingId)
    requires pid in sys.procs && sys.procs[pid].MoveStay? && id in sys.db.bookings
    ensures var after := Commit(sys.db, sys.locks, pid, sys.procs[pid]).db.bookings;
            id in after && (after[id] != sys.db.bookings[id] <==> RewritesMissed(sys, Advance(pid), id))
  {
    hide Merge, WithStatus;
    OneStatusWritten(sys.db.bookings, sys.procs[pid].id, sys.procs[pid].status, id);
  }

  lemma OneStatusWritten(bookings: Bookings, i: BookingId, status: Status, id: BookingId)
    requires id in bookings
    ensures i in bookings ==>
      id in WithStatus(bookings, i, status)
      && (WithStatus(bookings, i, status)[id] != bookings[id] <==> i == id && bookings[id].status != status)
  {}

  lemma PaidRowChangesIff(sys: System, sold: set<BookingId>, action: Action, id: BookingId)
    requires SystemSafe(sys, sold) && id in sys.db.bookings
    requires sys.db.bookings[id].status.Confirmed? || sys.db.bookings[id].status.CheckedIn?
    ensures id in Perform(sys, action).db.bookings
    ensures Perform(sys, action).db.bookings[id] != sys.db.bookings[id] <==> RewritesMissed(sys, action, id)
  {
    hide Commit, Read, Ledger, PaymentsSafe, NightsBacked, NightsComplete;
    if action.Advance? && action.pid in sys.procs {
      var phase := sys.procs[action.pid];
      assert PhaseOk(phase, action.pid, sys.db.bookings, sys.db.payments, sys.locks);
      hide PhaseOk;
      if phase.CancelBookings? {
        SweepChangesIff(sys, action.pid, id);
      } else if phase.MoveStay? {
        MoveChangesIff(sys, action.pid, id);
      } else {
        OthersKeepPaidRow(sys.db, sys.locks, action.pid, phase, id);
      }
    }
  }

  /** Serially a missed day is final. In a schedule the row of such a booking is changed by the
      next action exactly if that is such a commit. */
  lemma MissedDayChangesIff(db: State, actions: seq<Action>, action: Action, id: BookingId)
    requires DbSafe(db)
    requires var now := Schedule(Start(db), actions).db; id in now.bookings && MissedDay(now.bookings[id], now.now)
    ensures var sys := Schedule(Start(db), actions);
            && id in Perform(sys, action).db.bookings
            && (Perform(sys, action).db.bookings[id] != sys.db.bookings[id] <==> RewritesMissed(sys, action, id))
  {
    hide Schedule, Perform, DbSafe, SystemSafe, RewritesMissed;
    EveryScheduleIsSafe(db, actions);
    PaidRowChangesIff(Schedule(Start(db), actions), db.payments.Keys, action, id);
  }

  /** And such a commit has read earlier: nothing that reads the booking now will change it. */
  lemma MissedDayIsReadAsFinal(sys: System, pid: Pid, step: Step, id: BookingId)
    requires pid !in sys.procs && id in sys.db.bookings && MissedDay(sys.db.bookings[id], sys.db.now)
    ensures !RewritesMissed(Perform(sys, Begin(pid, step)), Advance(pid), id)
  {
    hide CreateBooking, RecordOfflinePayment, MarkRoomClean, UpdateRoomType, HoldRoom, DeadHolds, OwnHolds;
  }

  /** It happens: the booking of SweepLosesThePayment is a missed arrival when it is cancelled. */
  lemma MissedArrivalCancelled()
    ensures MissedDay(LatePaid(Confirmed).bookings[1], LatePaid(Confirmed).now)
    ensures var sys := System(LatePaid(Confirmed), map[0 := CancelBookings({1}, {1})], map[]);
            RewritesMissed(sys, Advance(0), 1) && Perform(sys, Advance(0)).db == LatePaid(Cancelled).(holds := map[])
  {
    SweepCancelsLateMoney();
    hide Commit, Today, LatePaid;
    LateIsMissed();
  }

  lemma LateIsMissed()
    ensures 1 in LatePaid(Confirmed).bookings && MissedDay(LatePaid(Confirmed).bookings[1], LatePaid(Confirmed).now)
  {}

  // ------------------------------------------------------- one hold per room

  lemma DeskKeepsHolds(db: State, locks: map<BookingId, Pid>, phase: Phase)
    requires phase.ConfirmAtDesk?
    ensures CommitAtDesk(db, locks, phase).db.holds == db.holds
  {
    hide NightClash, NightRows, PaymentClash, WithStatus;
  }

  lemma WebhookDropsOneHold(db: State, locks: map<BookingId, Pid>, phase: Phase)
    requires phase.LockedConfirm?
    ensures CommitOnline(db, locks, phase).db.holds in {db.holds, db.holds - {phase.seen.room}}
  {
    hide NightClash, NightRows, PaymentClash, WithStatus;
  }

  lemma LockingKeepsHolds(db: State, locks: map<BookingId, Pid>, pid: Pid, phase: Phase)
    requires phase.AwaitLock?
    ensures TakeLock(db, locks, pid, phase).db == db
  {}

  lemma CommitKeepsHold(db: State, locks: map<BookingId, Pid>, pid: Pid, phase: Phase, room: RoomId)
    requires room in db.holds && room in Commit(db, locks, pid, phase).db.holds
    ensures Commit(db, locks, pid, phase).db.holds[room] == db.holds[room]
  {
    hide CommitAtDesk, CommitOnline, TakeLock, Merge, CancelAll, WithStatus;
    match phase
    case ConfirmAtDesk(_, _, _) => DeskKeepsHolds(db, locks, phase);
    case LockedConfirm(_, _, _) => WebhookDropsOneHold(db, locks, phase);
    case AwaitLock(_) => LockingKeepsHolds(db, locks, pid, phase);
    case _ =>
  }

  /** In no interleaving is a hold overwritten: whatever the next action is, a hold that was there
      is afterwards the same or gone. */
  lemma HoldsAreNeverOverwritten(sys: System, action: Action, room: RoomId)
    requires room in sys.db.holds && room in Perform(sys, action).db.holds
    ensures Perform(sys, action).db.holds[room] == sys.db.holds[room]
  {
    hide Read, Commit;
    if action.Advance? && action.pid in sys.procs {
      CommitKeepsHold(sys.db, sys.locks, action.pid, sys.procs[action.pid], room);
    }
  }

  /** A request that is told that it holds the room has just inserted its hold, into a room with
      none; every other request for the room that comes to its commit before the hold is gone is
      refused. */
  lemma OneHoldWins(sys: System, pid: Pid)
    requires pid in sys.procs && sys.procs[pid].InsertHold?
    ensures var phase, after := sys.procs[pid], Perform(sys, Advance(pid));
            && pid in after.procs
            && (if phase.room in sys.db.holds then
                  after.procs[pid] == Done(Raised(RoomAlreadyHeld)) && after.db == sys.db
                else
                  after.procs[pid] == Done(Ok(Held)) && after.db == sys.db.(holds := sys.db.holds[phase.room := phase.hold]))
  {}
}
