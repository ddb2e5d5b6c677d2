/** What survives every interleaving: the facts guarded by keys and by the row lock. */
module Concurrency {
  import opened Model
  import opened Operations
  import opened Invariant
  import opened Interleaving

  // ------------------------------------------------------------ the database

  /** Payments are right, belong to bookings, and took them out of PROCESSING for good. */
  ghost predicate PaymentsSafe(bookings: Bookings, payments: map<BookingId, Payment>, events: map<EventId, EventRow>) {
    forall id <- payments ::
      id in bookings && !bookings[id].status.Processing? && PaymentOk(payments[id], id, bookings[id], events)
  }

  /** Nobody is confirmed, in house or departed without a payment. */
  ghost predicate StatusBacked(bookings: Bookings, payments: map<BookingId, Payment>) {
    forall id <- bookings :: Paid(bookings[id].status) ==> id in payments
  }

  /** Every sold night lies in the stay of a booking with a payment. */
  ghost predicate NightsBacked(bookings: Bookings, payments: map<BookingId, Payment>, nights: map<Night, BookingId>) {
    forall n <- nights ::
      nights[n] in payments && nights[n] in bookings && n.room == bookings[nights[n]].room && InStay(bookings[nights[n]], n.day)
  }

  /** Every booking with a payment owns all its nights. */
  ghost predicate NightsComplete(bookings: Bookings, payments: map<BookingId, Payment>, nights: map<Night, BookingId>) {
    forall id <- payments :: id in bookings && Owns(id, bookings[id], nights)
  }

  ghost predicate IdsOk(bookings: Bookings, nextId: BookingId) { forall id <- bookings :: id < nextId }

  ghost predicate DbSafe(db: State) {
    && IdsOk(db.bookings, db.nextId)
    && PaymentsSafe(db.bookings, db.payments, db.events)
    && StatusBacked(db.bookings, db.payments)
    && NightsBacked(db.bookings, db.payments, db.nights)
    && NightsComplete(db.bookings, db.payments, db.nights)
  }

  /** Every serially reachable state is a safe start. */
  lemma ConsistentIsSafe(s: State)
    requires Inv(s)
    ensures DbSafe(s)
  {
    forall n | n in s.nights
      ensures s.nights[n] in s.payments && n.room == s.bookings[s.nights[n]].room && InStay(s.bookings[s.nights[n]], n.day)
    {
      assert NightOk(n, s.bookings[s.nights[n]]);
    }
    hide HoldsOk, RoomsOk, Disjoint;
  }

  /** Rows may be added and statuses changed, but never back to PROCESSING. */
  ghost predicate Keeps(before: Bookings, after: Bookings) {
    forall id <- before ::
      id in after && SameStay(before[id], after[id]) && (after[id].status.Processing? ==> before[id].status.Processing?)
  }

  lemma NewStatusesAreSafe(db: State, after: Bookings, nextId: BookingId)
    requires DbSafe(db) && Keeps(db.bookings, after) && IdsOk(after, nextId) && StatusBacked(after, db.payments)
    ensures DbSafe(db.(bookings := after, nextId := nextId))
  {
    forall id | id in db.payments ensures Owns(id, after[id], db.nights) {
      assert Owns(id, db.bookings[id], db.nights);
      assert forall d | InStay(after[id], d) :: InStay(db.bookings[id], d);
    }
    assert PaymentsSafe(after, db.payments, db.events);
  }

  lemma LoggingIsSafe(db: State, ev: PaymentEvent)
    requires DbSafe(db) && ev.id !in db.events
    ensures DbSafe(Logged(db, ev))
  {}

  /** The confirming commit: nights and payment are inserted together or not at all. */
  lemma ConfirmingKeepsNights(db: State, id: BookingId, seen: Booking, payment: Payment)
    requires NightsBacked(db.bookings, db.payments, db.nights) && NightsComplete(db.bookings, db.payments, db.nights)
    requires id in db.bookings && SameStay(seen, db.bookings[id]) && !NightClash(db.nights, seen)
    ensures var after := ConfirmSeen(db, id, seen, payment);
            NightsBacked(after.bookings, after.payments, after.nights) && NightsComplete(after.bookings, after.payments, after.nights)
  {
    var after := ConfirmSeen(db, id, seen, payment);
    forall n ensures n in NightRows(id, seen) <==> n.room == seen.room && InStay(seen, n.day) { NightKeysAre(seen, n); }
    forall k | k in after.payments ensures k in after.bookings && Owns(k, after.bookings[k], after.nights) {
      var b := after.bookings[k];
      assert k != id ==> Owns(k, db.bookings[k], db.nights);
      forall d | InStay(b, d) ensures Night(b.room, d) in after.nights && after.nights[Night(b.room, d)] == k {
        if k == id {
          assert InStay(seen, d);
        } else {
          assert InStay(db.bookings[k], d) && Night(b.room, d) in db.nights;
          assert Night(b.room, d) !in NightRows(id, seen);
        }
      }
    }
  }

  lemma ConfirmingIsSafe(db: State, id: BookingId, seen: Booking, payment: Payment)
    requires DbSafe(db) && id in db.bookings && SameStay(seen, db.bookings[id])
    requires !NightClash(db.nights, seen) && PaymentOk(payment, id, seen, db.events)
    ensures DbSafe(ConfirmSeen(db, id, seen, payment))
    ensures Keeps(db.bookings, ConfirmSeen(db, id, seen, payment).bookings)
  {
    hide NightsBacked, NightsComplete, PaymentsSafe, StatusBacked, NightRows, NightClash;
    ConfirmingKeepsNights(db, id, seen, payment);
    ConfirmingKeepsPayments(db, id, seen, payment);
  }

  lemma ConfirmingKeepsPayments(db: State, id: BookingId, seen: Booking, payment: Payment)
    requires PaymentsSafe(db.bookings, db.payments, db.events) && StatusBacked(db.bookings, db.payments)
    requires id in db.bookings && SameStay(seen, db.bookings[id]) && PaymentOk(payment, id, seen, db.events)
    ensures var after := ConfirmSeen(db, id, seen, payment);
            PaymentsSafe(after.bookings, after.payments, after.events) && StatusBacked(after.bookings, after.payments)
  {
    hide NightRows;
  }

  // ------------------------------------------------------------ the requests

  predicate HasLock(locks: map<BookingId, Pid>, id: BookingId, pid: Pid) { id in locks && locks[id] == pid }

  /** The booking for which a finished request has just taken money. */
  function Won(phase: Phase): Option<BookingId> {
    if phase.Done? && phase.outcome.Ok? && phase.outcome.answer.PaidOffline? then Some(phase.outcome.answer.id)
    else if phase.Done? && phase.outcome.Ok? && phase.outcome.answer.PaidOnline? then Some(phase.outcome.answer.id)
    else None
  }

  predicate Quiet(outcome: Outcome) { Won(Done(outcome)).None? }

  /** What a request may rely on while it waits to commit: stays never change, payments never
      vanish, and nobody touches a row it has locked. */
  ghost predicate PhaseOk(phase: Phase, pid: Pid, bookings: Bookings, payments: map<BookingId, Payment>,
                          locks: map<BookingId, Pid>) {
    match phase
    case InsertBooking(row) => row.status.Processing?
    case ConfirmAtDesk(id, seen, payment) =>
      id in bookings && SameStay(seen, bookings[id]) && PaymentOk(payment, id, seen, map[])
    case MoveStay(id, status, answer, _, _, _) => id in payments && Paid(status) && Quiet(Ok(answer))
    case WriteRoom(_, _, _, answer) => Quiet(Ok(answer))
    case RecordEvent(_, outcome) => Quiet(outcome)
    case AwaitLock(ev) => ev.kind == SUCCEEDED
    case LockedRecord(_, id) => HasLock(locks, id, pid)
    case LockedCancel(_, id) => HasLock(locks, id, pid) && id in bookings && bookings[id].status.Processing?
    case LockedConfirm(ev, id, seen) =>
      HasLock(locks, id, pid) && id in bookings && bookings[id] == seen && seen.status.Processing?
      && RightAmount(ev.amount, ev.currency, seen) && ev.reference == Ref(id) && ev.kind == SUCCEEDED
    case _ => true
  }

  /** What another request may have done in the meantime. */
  ghost predicate Disturbs(db: State, locks: map<BookingId, Pid>, actor: Pid, db': State, locks': map<BookingId, Pid>) {
    && Keeps(db.bookings, db'.bookings)
    && db.payments.Keys <= db'.payments.Keys
    && forall id <- locks | locks[id] != actor ::
         HasLock(locks', id, locks[id]) && (id in db.bookings ==> id in db'.bookings && db'.bookings[id] == db.bookings[id])
  }

  lemma PhasesAreStable(phase: Phase, pid: Pid, actor: Pid, db: State, locks: map<BookingId, Pid>,
                        db': State, locks': map<BookingId, Pid>)
    requires PhaseOk(phase, pid, db.bookings, db.payments, locks) && Disturbs(db, locks, actor, db', locks') && pid != actor
    ensures PhaseOk(phase, pid, db'.bookings, db'.payments, locks')
  {}

  // --------------------------------------------------------- reads and commits

  /** A good commit: safe database, grounded request, nobody else disturbed beyond bounds. */
  ghost predicate Good(db: State, locks: map<BookingId, Pid>, pid: Pid, next: Next) {
    && DbSafe(next.db)
    && PhaseOk(next.phase, pid, next.db.bookings, next.db.payments, next.locks)
    && Disturbs(db, locks, pid, next.db, next.locks)
  }

  lemma IdleIsGood(db: State, locks: map<BookingId, Pid>, pid: Pid, phase: Phase)
    requires DbSafe(db) && PhaseOk(phase, pid, db.bookings, db.payments, locks)
    ensures Good(db, locks, pid, Next(db, phase, locks))
  {
    hide DbSafe, PhaseOk;
  }

  /** Changes outside bookings, payments, nights and events. */
  lemma ElsewhereIsGood(db: State, locks: map<BookingId, Pid>, pid: Pid, db': State, outcome: Outcome)
    requires DbSafe(db)
    requires db'.bookings == db.bookings && db'.payments == db.payments && db'.nights == db.nights && db'.events == db.events
    requires db'.nextId == db.nextId
    ensures Good(db, locks, pid, Next(db', Done(outcome), locks))
  {
    hide IdsOk, PaymentsSafe, StatusBacked, NightsBacked, NightsComplete;
  }

  /** Whatever the webhook records, as long as it is the lock it holds that it gives up. */
  lemma RecordingIsGood(db: State, locks: map<BookingId, Pid>, pid: Pid, ev: PaymentEvent, outcome: Outcome, locks': map<BookingId, Pid>)
    requires DbSafe(db)
    requires locks' == locks || exists id :: HasLock(locks, id, pid) && locks' == locks - {id}
    ensures Good(db, locks, pid, Next(if ev.id in db.events then db else Logged(db, ev), Done(outcome), locks'))
  {
    if ev.id !in db.events { LoggingIsSafe(db, ev); }
    hide DbSafe;
  }

  lemma InsertBookingIsGood(db: State, locks: map<BookingId, Pid>, pid: Pid, phase: Phase)
    requires DbSafe(db) && phase.InsertBooking? && PhaseOk(phase, pid, db.bookings, db.payments, locks)
    ensures Good(db, locks, pid, Commit(db, locks, pid, phase))
  {
    var after := db.bookings[db.nextId := phase.row];
    assert db.nextId !in db.bookings;
    NewStatusesAreSafe(db, after, db.nextId + 1);
    hide PaymentsSafe, NightsBacked, NightsComplete;
  }

  lemma MoveStayIsGood(db: State, locks: map<BookingId, Pid>, pid: Pid, phase: Phase)
    requires DbSafe(db) && phase.MoveStay? && PhaseOk(phase, pid, db.bookings, db.payments, locks)
    ensures Good(db, locks, pid, Commit(db, locks, pid, phase))
  {
    hide PaymentsSafe, NightsBacked, NightsComplete;
    var next := Commit(db, locks, pid, phase);
    if next.phase != phase && phase.id in db.bookings && phase.room in db.rooms {
      NewStatusesAreSafe(db, WithStatus(db.bookings, phase.id, phase.status), db.nextId);
    }
  }

  lemma CancellingKeeps(db: State, ids: set<BookingId>)
    requires IdsOk(db.bookings, db.nextId) && StatusBacked(db.bookings, db.payments)
    ensures var after := CancelAll(db.bookings, ids);
            Keeps(db.bookings, after) && IdsOk(after, db.nextId) && StatusBacked(after, db.payments)
  {}

  lemma CancelBookingsIsGood(db: State, locks: map<BookingId, Pid>, pid: Pid, phase: Phase)
    requires DbSafe(db) && phase.CancelBookings?
    ensures Good(db, locks, pid, Commit(db, locks, pid, phase))
  {
    hide IdsOk, StatusBacked, PaymentsSafe, NightsBacked, NightsComplete, Keeps, CancelAll;
    CancellingKeeps(db, phase.ids);
    NewStatusesAreSafe(db, CancelAll(db.bookings, phase.ids), db.nextId);
    NothingLostKeeps(db.bookings);
    if forall id <- phase.ids :: id !in locks { CancellingSparesLocked(db.bookings, phase.ids, locks); }
  }

  lemma CancellingSparesLocked(bookings: Bookings, ids: set<BookingId>, locks: map<BookingId, Pid>)
    requires forall id <- ids :: id !in locks
    ensures forall id <- locks :: id in bookings ==> id in CancelAll(bookings, ids) && CancelAll(bookings, ids)[id] == bookings[id]
  {}

  lemma NothingLostKeeps(bookings: Bookings)
    ensures Keeps(bookings, bookings)
  {}

  lemma LockedCancelIsGood(db: State, locks: map<BookingId, Pid>, pid: Pid, phase: Phase)
    requires DbSafe(db) && phase.LockedCancel? && PhaseOk(phase, pid, db.bookings, db.payments, locks)
    ensures Good(db, locks, pid, Commit(db, locks, pid, phase))
  {
    hide PaymentsSafe, NightsBacked, NightsComplete;
    NewStatusesAreSafe(db, WithStatus(db.bookings, phase.id, Cancelled), db.nextId);
  }

  lemma RecordEventIsGood(db: State, locks: map<BookingId, Pid>, pid: Pid, phase: Phase)
    requires DbSafe(db) && (phase.RecordEvent? || phase.LockedRecord?) && PhaseOk(phase, pid, db.bookings, db.payments, locks)
    ensures Good(db, locks, pid, Commit(db, locks, pid, phase))
  {
    hide DbSafe, Good, Logged;
    var outcome := if phase.LockedRecord? || phase.ev.id in db.events then Ok(Duplicate) else phase.outcome;
    RecordingIsGood(db, locks, pid, phase.ev, outcome, if phase.LockedRecord? then locks - {phase.id} else locks);
  }

  lemma DeskIsGood(db: State, locks: map<BookingId, Pid>, pid: Pid, phase: Phase)
    requires DbSafe(db) && phase.ConfirmAtDesk? && PhaseOk(phase, pid, db.bookings, db.payments, locks)
    ensures Good(db, locks, pid, CommitAtDesk(db, locks, phase))
  {
    hide DbSafe, NightClash, PaymentClash, NightRows;
    if CommitAtDesk(db, locks, phase).phase == Done(Ok(PaidOffline(phase.id))) {
      ConfirmingIsSafe(db, phase.id, phase.seen, phase.payment);
    }
  }

  /** Writing the row one has locked, and giving the lock up, disturbs nobody. */
  lemma ReleasingDisturbsNobody(db: State, locks: map<BookingId, Pid>, pid: Pid, id: BookingId, db': State)
    requires HasLock(locks, id, pid) && Keeps(db.bookings, db'.bookings) && db.payments.Keys <= db'.payments.Keys
    requires forall other <- db.bookings | other != id :: other in db'.bookings && db'.bookings[other] == db.bookings[other]
    ensures Disturbs(db, locks, pid, db', locks - {id})
  {}

  lemma OnlineIsGood(db: State, locks: map<BookingId, Pid>, pid: Pid, phase: Phase)
    requires DbSafe(db) && phase.LockedConfirm? && PhaseOk(phase, pid, db.bookings, db.payments, locks)
    ensures Good(db, locks, pid, CommitOnline(db, locks, phase))
  {
    hide IdsOk, PaymentsSafe, StatusBacked, NightsBacked, NightsComplete, NightClash, PaymentClash, NightRows, RightAmount,
      Ref, Keeps, Disturbs;
    var next := CommitOnline(db, locks, phase);
    NothingLostKeeps(db.bookings);
    if next.phase == Done(Ok(PaidOnline(phase.id))) {
      LoggingIsSafe(db, phase.ev);
      ConfirmingIsSafe(Logged(db, phase.ev), phase.id, phase.seen, OnlinePayment(phase.ev));
    }
    ReleasingDisturbsNobody(db, locks, pid, phase.id, next.db);
  }

  lemma TakeLockIsGood(db: State, locks: map<BookingId, Pid>, pid: Pid, phase: Phase)
    requires DbSafe(db) && phase.AwaitLock? && PhaseOk(phase, pid, db.bookings, db.payments, locks)
    ensures Good(db, locks, pid, TakeLock(db, locks, pid, phase))
  {
    hide DbSafe, HoldBacks;
  }

  /** Every commit of every request is good. */
  lemma CommitIsGood(db: State, locks: map<BookingId, Pid>, pid: Pid, phase: Phase)
    requires DbSafe(db) && PhaseOk(phase, pid, db.bookings, db.payments, locks)
    ensures Good(db, locks, pid, Commit(db, locks, pid, phase))
  {
    hide DbSafe, PhaseOk, Good, CommitAtDesk, CommitOnline, TakeLock, UpdateRoomType, Merge, CancelAll, WithStatus, Logged;
    match phase
    case InsertBooking(_) => InsertBookingIsGood(db, locks, pid, phase);
    case MoveStay(_, _, _, _, _, _) => MoveStayIsGood(db, locks, pid, phase);
    case CancelBookings(_, _) => CancelBookingsIsGood(db, locks, pid, phase);
    case LockedCancel(_, _) => LockedCancelIsGood(db, locks, pid, phase);
    case ConfirmAtDesk(_, _, _) => DeskIsGood(db, locks, pid, phase);
    case LockedConfirm(_, _, _) => OnlineIsGood(db, locks, pid, phase);
    case AwaitLock(_) => TakeLockIsGood(db, locks, pid, phase);
    case RecordEvent(_, _) => RecordEventIsGood(db, locks, pid, phase);
    case LockedRecord(_, _) => RecordEventIsGood(db, locks, pid, phase);
    case WriteRate(name, rate, capacity) => RateIsGood(db, locks, pid, name, rate, capacity);
    case Done(_) => IdleIsGood(db, locks, pid, phase);
    case _ => var next := Commit(db, locks, pid, phase); ElsewhereIsGood(db, locks, pid, next.db, next.phase.outcome);
  }

  lemma RateIsGood(db: State, locks: map<BookingId, Pid>, pid: Pid, name: string, rate: Option<real>, capacity: Option<int>)
    requires DbSafe(db)
    ensures var r := UpdateRoomType(db, name, rate, capacity); Good(db, locks, pid, Next(r.state, Done(r.outcome), locks))
  {
    hide DbSafe, Good;
    var r := UpdateRoomType(db, name, rate, capacity);
    ElsewhereIsGood(db, locks, pid, r.state, r.outcome);
  }

  /** What a request has read is grounded in the database it has read. */
  lemma ReadIsGrounded(db: State, step: Step, pid: Pid, locks: map<BookingId, Pid>)
    requires DbSafe(db)
    ensures PhaseOk(Read(db, step), pid, db.bookings, db.payments, locks) && Won(Read(db, step)).None?
  {
    hide IdsOk, PaymentsSafe, NightsBacked, NightsComplete, BlockedByBooking, NightsTaken, ResolveGuest, PaymentClash, NightClash;
  }

  // -------------------------------------------------------------- the ledger

  /** The commit has added a payment exactly when it says so. */
  predicate MoneyTaken(db: State, next: Next) {
    if Won(next.phase).None? then next.db.payments == db.payments
    else Won(next.phase).value !in db.payments && next.db.payments.Keys == db.payments.Keys + {Won(next.phase).value}
  }

  lemma DeskTakesMoneyOnce(db: State, locks: map<BookingId, Pid>, phase: Phase)
    requires phase.ConfirmAtDesk?
    ensures MoneyTaken(db, CommitAtDesk(db, locks, phase))
  {
    hide NightClash, NightRows, WithStatus;
  }

  lemma WebhookTakesMoneyOnce(db: State, locks: map<BookingId, Pid>, phase: Phase)
    requires phase.LockedConfirm?
    ensures MoneyTaken(db, CommitOnline(db, locks, phase))
  {
    hide NightClash, NightRows, WithStatus;
  }

  lemma LockTakesNoMoney(db: State, locks: map<BookingId, Pid>, pid: Pid, phase: Phase)
    requires phase.AwaitLock?
    ensures MoneyTaken(db, TakeLock(db, locks, pid, phase))
  {
    hide FindByRef, RightAmount, HoldBacks;
  }

  /** Money is taken by exactly one commit, the one that answers that it was taken. */
  lemma CommitTakesMoneyOnce(db: State, locks: map<BookingId, Pid>, pid: Pid, phase: Phase)
    requires PhaseOk(phase, pid, db.bookings, db.payments, locks) && !phase.Done?
    ensures MoneyTaken(db, Commit(db, locks, pid, phase))
  {
    hide CommitAtDesk, CommitOnline, TakeLock, RightAmount, Ref, PaymentOk, SameStay, CancelAll, WithStatus, Merge;
    match phase
    case ConfirmAtDesk(_, _, _) => DeskTakesMoneyOnce(db, locks, phase);
    case LockedConfirm(_, _, _) => WebhookTakesMoneyOnce(db, locks, phase);
    case AwaitLock(_) => LockTakesNoMoney(db, locks, pid, phase);
    case _ =>
  }

  /** paid: bookings with a payment; sold: those that had one from the start. Every other
      payment has exactly one winner. */
  ghost predicate Ledger(procs: map<Pid, Phase>, paid: set<BookingId>, sold: set<BookingId>) {
    && sold <= paid
    && (forall p <- procs :: Won(procs[p]).Some? ==> Won(procs[p]).value in paid && Won(procs[p]).value !in sold)
    && (forall p, q | p in procs && q in procs && p != q :: Won(procs[p]).None? || Won(procs[p]) != Won(procs[q]))
    && (forall id <- paid :: id in sold || exists p <- procs :: Won(procs[p]) == Some(id))
  }

  lemma LedgerKept(procs: map<Pid, Phase>, paid: set<BookingId>, sold: set<BookingId>, pid: Pid, phase: Phase, paid': set<BookingId>)
    requires Ledger(procs, paid, sold) && (pid in procs ==> Won(procs[pid]).None?)
    requires if Won(phase).None? then paid' == paid else Won(phase).value !in paid && paid' == paid + {Won(phase).value}
    ensures Ledger(procs[pid := phase], paid', sold)
  {
    var after := procs[pid := phase];
    forall id | id in paid' && id !in sold ensures exists p <- after :: Won(after[p]) == Some(id) {
      if id in paid {
        var p :| p in procs && Won(procs[p]) == Some(id);
        assert p in after && Won(after[p]) == Some(id);
      } else {
        assert pid in after && Won(after[pid]) == Some(id);
      }
    }
  }

  // ----------------------------------------------------------- all schedules

  ghost predicate PhasesOk(sys: System) {
    forall pid <- sys.procs :: PhaseOk(sys.procs[pid], pid, sys.db.bookings, sys.db.payments, sys.locks)
  }

  ghost predicate SystemSafe(sys: System, sold: set<BookingId>) {
    DbSafe(sys.db) && PhasesOk(sys) && Ledger(sys.procs, sys.db.payments.Keys, sold)
  }

  lemma BeginIsSafe(sys: System, sold: set<BookingId>, pid: Pid, step: Step)
    requires SystemSafe(sys, sold) && pid !in sys.procs
    ensures SystemSafe(Perform(sys, Begin(pid, step)), sold)
  {
    hide Read, DbSafe, PhaseOk, Ledger;
    ReadIsGrounded(sys.db, step, pid, sys.locks);
    LedgerKept(sys.procs, sys.db.payments.Keys, sold, pid, Read(sys.db, step), sys.db.payments.Keys);
  }

  lemma AdvanceIsSafe(sys: System, sold: set<BookingId>, pid: Pid)
    requires SystemSafe(sys, sold) && pid in sys.procs && !sys.procs[pid].Done?
    ensures SystemSafe(Perform(sys, Advance(pid)), sold)
  {
    hide Commit, DbSafe, PhaseOk, Ledger, Disturbs;
    var phase := sys.procs[pid];
    var next := Commit(sys.db, sys.locks, pid, phase);
    CommitIsGood(sys.db, sys.locks, pid, phase);
    CommitTakesMoneyOnce(sys.db, sys.locks, pid, phase);
    LedgerKept(sys.procs, sys.db.payments.Keys, sold, pid, next.phase, next.db.payments.Keys);
    forall other | other in sys.procs && other != pid
      ensures PhaseOk(sys.procs[other], other, next.db.bookings, next.db.payments, next.locks)
    {
      PhasesAreStable(sys.procs[other], other, pid, sys.db, sys.locks, next.db, next.locks);
    }
  }

  lemma ActionIsSafe(sys: System, sold: set<BookingId>, action: Action)
    requires SystemSafe(sys, sold)
    ensures SystemSafe(Perform(sys, action), sold)
  {
    hide Read, PhaseOk, Ledger, IdsOk, PaymentsSafe, StatusBacked, NightsBacked, NightsComplete, CommitAtDesk, CommitOnline, TakeLock;
    match action
    case Begin(pid, step) => if pid !in sys.procs { BeginIsSafe(sys, sold, pid, step); }
    case Advance(pid) =>
      if pid in sys.procs {
        if sys.procs[pid].Done? { assert sys.procs[pid := sys.procs[pid]] == sys.procs; } else { AdvanceIsSafe(sys, sold, pid); }
      }
    case Elapse(_) =>
  }

  /** The safety of every interleaving, from any safe database. */
  lemma {:induction false} EveryScheduleIsSafe(db: State, actions: seq<Action>)
    requires DbSafe(db)
    ensures SystemSafe(Schedule(Start(db), actions), db.payments.Keys)
  {
    hide Perform, DbSafe;
    if actions != [] {
      EveryScheduleIsSafe(db, actions[..|actions| - 1]);
      ActionIsSafe(Schedule(Start(db), actions[..|actions| - 1]), db.payments.Keys, actions[|actions| - 1]);
    }
  }

  /** No night is sold twice: two bookings of one room that both have a payment never share
      a night, whatever was interleaved with what. */
  lemma NoDoubleSale(db: State, actions: seq<Action>, a: BookingId, b: BookingId, day: Day)
    requires DbSafe(db) && a != b
    ensures var end := Schedule(Start(db), actions).db;
            a in end.payments && b in end.payments ==>
              a in end.bookings && b in end.bookings
              && !(end.bookings[a].room == end.bookings[b].room && InStay(end.bookings[a], day) && InStay(end.bookings[b], day))
  {
    EveryScheduleIsSafe(db, actions);
    hide Schedule;
    var end := Schedule(Start(db), actions).db;
    if a in end.payments && b in end.payments {
      assert Owns(a, end.bookings[a], end.nights) && Owns(b, end.bookings[b], end.nights);
    }
  }

  /** And the money: in every interleaving a booking that was unpaid at the start has a
      payment at the end exactly when one request, and only one, was told that it paid. */
  lemma OnePaymentSucceeds(db: State, actions: seq<Action>, id: BookingId)
    requires DbSafe(db) && id !in db.payments
    ensures var end := Schedule(Start(db), actions);
            && (id in end.db.payments <==> exists p <- end.procs :: Won(end.procs[p]) == Some(id))
            && (forall p, q | p in end.procs && q in end.procs :: Won(end.procs[p]) == Some(id) == Won(end.procs[q]) ==> p == q)
  {
    EveryScheduleIsSafe(db, actions);
    hide Schedule, DbSafe, PhasesOk;
  }

  lemma PendingIsUnpaid(sys: System, sold: set<BookingId>, pid: Pid)
    requires SystemSafe(sys, sold) && pid in sys.procs && sys.procs[pid].LockedConfirm?
    ensures var phase := sys.procs[pid];
            phase.id in sys.db.bookings && phase.id !in sys.db.payments && sys.db.bookings[phase.id] == phase.seen
  {
    hide Ledger, IdsOk, StatusBacked, NightsBacked, NightsComplete, PaymentOk, RightAmount, Ref;
    assert PhaseOk(sys.procs[pid], pid, sys.db.bookings, sys.db.payments, sys.locks);
  }

  /** Under the row lock the payment key is never the one that fails: a webhook that saw the
      booking waiting for money still finds it unpaid when it commits. */
  lemma LockProtectsThePayment(db: State, actions: seq<Action>, pid: Pid)
    requires DbSafe(db)
    ensures var sys := Schedule(Start(db), actions);
            pid in sys.procs && sys.procs[pid].LockedConfirm? ==>
              sys.procs[pid].id in sys.db.bookings && sys.procs[pid].id !in sys.db.payments
              && sys.db.bookings[sys.procs[pid].id] == sys.procs[pid].seen
  {
    EveryScheduleIsSafe(db, actions);
    hide Schedule, Ledger, IdsOk, StatusBacked, NightsBacked, NightsComplete, PaymentOk, RightAmount, Ref, DbSafe;
    var sys := Schedule(Start(db), actions);
    if pid in sys.procs && sys.procs[pid].LockedConfirm? { PendingIsUnpaid(sys, db.payments.Keys, pid); }
  }
}
