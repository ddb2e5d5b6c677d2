/** Overlapping bookings under concurrency: which commits can bring them about, exactly. */
module Overlap {
  import opened Model
  import opened Operations
  import opened Invariant
  import opened Sweeps
  import opened Housekeeping
  import opened Interleaving
  import opened Concurrency
  import opened Races

  /** Another stay, not cancelled, needs the room on some of the same nights. */
  predicate InTheWay(bookings: Bookings, id: BookingId, row: Booking) {
    exists other <- bookings ::
      other != id && !bookings[other].status.Cancelled? && bookings[other].room == row.room
      && Overlaps(bookings[other], row.checkIn, row.checkOut)
  }

  /** The commits that make bookings overlap: a new booking whose nights have been booked since
      it looked; or a payment at the desk, a check-in or a check-out for a booking that has been
      cancelled since, and whose nights have been booked again. */
  predicate Collides(sys: System, action: Action) {
    action.Advance? && action.pid in sys.procs &&
    var db := sys.db;
    match sys.procs[action.pid]
    case InsertBooking(row) => InTheWay(db.bookings, db.nextId, row)
    case ConfirmAtDesk(id, seen, payment) =>
      id !in sys.locks && Revives(db.bookings, id) && !PaymentClash(db.payments, id, payment) && !NightClash(db.nights, seen)
    case MoveStay(id, _, _, room, _, _) => id !in sys.locks && Revives(db.bookings, id) && room in db.rooms
    case _ => false
  }

  predicate Revives(bookings: Bookings, id: BookingId) {
    id in bookings && bookings[id].status.Cancelled? && InTheWay(bookings, id, bookings[id])
  }

  // -------------------------------------------------------------- one change

  lemma NewRowKeepsApartIff(bookings: Bookings, id: BookingId, row: Booking)
    requires Disjoint(bookings) && id !in bookings && !row.status.Cancelled?
    ensures Disjoint(bookings[id := row]) <==> !InTheWay(bookings, id, row)
  {
    var after := bookings[id := row];
    if other :| other in bookings && !bookings[other].status.Cancelled? && bookings[other].room == row.room
                && Overlaps(bookings[other], row.checkIn, row.checkOut) {
      assert !Apart(after[other], after[id]);
    } else {
      forall x, y | x in after && y in after && x != y ensures Apart(after[x], after[y]) {
        assert x in bookings && y in bookings ==> Apart(bookings[x], bookings[y]);
      }
    }
  }

  lemma NewStatusKeepsApartIff(bookings: Bookings, id: BookingId, status: Status)
    requires Disjoint(bookings) && id in bookings && !status.Cancelled?
    ensures Disjoint(WithStatus(bookings, id, status)) <==> !Revives(bookings, id)
  {
    var after := WithStatus(bookings, id, status);
    if other :| other in bookings && other != id && !bookings[other].status.Cancelled?
                && bookings[other].room == bookings[id].room
                && Overlaps(bookings[other], bookings[id].checkIn, bookings[id].checkOut) {
      assert !Apart(after[other], after[id]);
      assert Apart(bookings[other], bookings[id]);
    } else {
      forall x, y | x in after && y in after && x != y ensures Apart(after[x], after[y]) {
        assert Apart(bookings[x], bookings[y]);
      }
    }
  }

  lemma CancellingKeepsApart(bookings: Bookings, ids: set<BookingId>)
    requires Disjoint(bookings)
    ensures Disjoint(CancelAll(bookings, ids))
    ensures forall id <- bookings :: Disjoint(WithStatus(bookings, id, Cancelled))
  {
    forall id | id in bookings ensures Disjoint(WithStatus(bookings, id, Cancelled)) {
      var after := WithStatus(bookings, id, Cancelled);
      forall x, y | x in after && y in after && x != y ensures Apart(after[x], after[y]) {
        assert Apart(bookings[x], bookings[y]);
      }
    }
    RestatedStaysDisjoint(bookings, CancelAll(bookings, ids));
  }

  // ------------------------------------------------------------- one commit

  lemma InsertKeepsApartIff(sys: System, pid: Pid)
    requires pid in sys.procs && sys.procs[pid].InsertBooking? && sys.procs[pid].row.status.Processing?
    requires IdsOk(sys.db.bookings, sys.db.nextId) && Disjoint(sys.db.bookings)
    ensures Disjoint(Perform(sys, Advance(pid)).db.bookings) <==> !Collides(sys, Advance(pid))
  {
    hide Disjoint, InTheWay;
    assert sys.db.nextId !in sys.db.bookings;
    NewRowKeepsApartIff(sys.db.bookings, sys.db.nextId, sys.procs[pid].row);
  }

  lemma DeskKeepsApartIff(sys: System, pid: Pid)
    requires pid in sys.procs && sys.procs[pid].ConfirmAtDesk? && Disjoint(sys.db.bookings)
    ensures Disjoint(Perform(sys, Advance(pid)).db.bookings) <==> !Collides(sys, Advance(pid))
  {
    hide Disjoint, Revives, NightClash, PaymentClash, NightRows, WithStatus;
    var id := sys.procs[pid].id;
    if id in sys.db.bookings { NewStatusKeepsApartIff(sys.db.bookings, id, Confirmed); } else { UnknownIsNotRevived(sys.db.bookings, id); }
  }

  lemma UnknownIsNotRevived(bookings: Bookings, id: BookingId)
    requires id !in bookings
    ensures !Revives(bookings, id)
  {}

  lemma MoveKeepsApartIff(sys: System, pid: Pid)
    requires pid in sys.procs && sys.procs[pid].MoveStay? && Paid(sys.procs[pid].status) && Disjoint(sys.db.bookings)
    ensures Disjoint(Perform(sys, Advance(pid)).db.bookings) <==> !Collides(sys, Advance(pid))
  {
    hide Disjoint, Revives, WithStatus, Merge;
    var id := sys.procs[pid].id;
    if id in sys.db.bookings {
      NewStatusKeepsApartIff(sys.db.bookings, id, sys.procs[pid].status);
    } else {
      UnknownIsNotRevived(sys.db.bookings, id);
    }
  }

  /** A webhook confirms the booking it has locked while it still waits for money. */
  lemma OnlineKeepsApart(db: State, locks: map<BookingId, Pid>, pid: Pid, phase: Phase)
    requires phase.LockedConfirm? && PhaseOk(phase, pid, db.bookings, db.payments, locks) && Disjoint(db.bookings)
    ensures Disjoint(CommitOnline(db, locks, phase).db.bookings)
  {
    hide Disjoint, InTheWay, NightClash, PaymentClash, NightRows, WithStatus, RightAmount, Ref;
    NewStatusKeepsApartIff(db.bookings, phase.id, Confirmed);
  }

  lemma OthersKeepApart(db: State, locks: map<BookingId, Pid>, pid: Pid, phase: Phase)
    requires PhaseOk(phase, pid, db.bookings, db.payments, locks) && Disjoint(db.bookings)
    requires !phase.InsertBooking? && !phase.ConfirmAtDesk? && !phase.MoveStay?
    ensures Disjoint(Commit(db, locks, pid, phase).db.bookings)
  {
    hide Disjoint, CommitOnline, WithStatus, CancelAll, RightAmount, HoldBacks, Ref, Merge;
    if phase.CancelBookings? {
      CancellingKeepsApart(db.bookings, phase.ids);
    } else if phase.LockedCancel? {
      CancellingKeepsApart(db.bookings, {});
    } else if phase.LockedConfirm? {
      OnlineKeepsApart(db, locks, pid, phase);
    }
  }

  lemma ActionKeepsApartIff(sys: System, sold: set<BookingId>, action: Action)
    requires SystemSafe(sys, sold) && Disjoint(sys.db.bookings)
    ensures Disjoint(Perform(sys, action).db.bookings) <==> !Collides(sys, action)
  {
    hide Commit, Read, Ledger, Disjoint, PaymentsSafe, StatusBacked, NightsBacked, NightsComplete, InTheWay, Revives;
    if action.Advance? && action.pid in sys.procs {
      var pid, phase := action.pid, sys.procs[action.pid];
      assert PhaseOk(phase, pid, sys.db.bookings, sys.db.payments, sys.locks);
      if phase.InsertBooking? {
        InsertKeepsApartIff(sys, pid);
      } else if phase.ConfirmAtDesk? {
        DeskKeepsApartIff(sys, pid);
      } else if phase.MoveStay? {
        MoveKeepsApartIff(sys, pid);
      } else {
        OthersKeepApart(sys.db, sys.locks, pid, phase);
      }
    }
  }

  // ---------------------------------------------------------- every schedule

  /** In every interleaving, from every safe start: as long as the uncancelled bookings of each
      room are disjoint, the next action keeps them so exactly when it is not such a commit. */
  lemma OnlyTheseCommitsOverlap(db: State, actions: seq<Action>, action: Action)
    requires DbSafe(db) && Disjoint(Schedule(Start(db), actions).db.bookings)
    ensures Disjoint(Perform(Schedule(Start(db), actions), action).db.bookings) <==> !Collides(Schedule(Start(db), actions), action)
  {
    hide Schedule, Perform, DbSafe, SystemSafe, Disjoint, Collides;
    EveryScheduleIsSafe(db, actions);
    ActionKeepsApartIff(Schedule(Start(db), actions), db.payments.Keys, action);
  }

  /** None of the actions, at its moment, is such a commit. */
  predicate NeverCollides(db: State, actions: seq<Action>) {
    actions == [] ||
    var before := actions[..|actions| - 1];
    NeverCollides(db, before) && !Collides(Schedule(Start(db), before), actions[|actions| - 1])
  }

  /** So whole schedules without such commits keep what serial runs keep. */
  lemma {:induction false} DisjointUnlessCollision(db: State, actions: seq<Action>)
    requires DbSafe(db) && Disjoint(db.bookings) && NeverCollides(db, actions)
    ensures Disjoint(Schedule(Start(db), actions).db.bookings)
  {
    hide Perform, DbSafe, Disjoint, Collides;
    if actions != [] {
      DisjointUnlessCollision(db, actions[..|actions| - 1]);
      OnlyTheseCommitsOverlap(db, actions[..|actions| - 1], actions[|actions| - 1]);
    }
  }

  // ------------------------------------------------- between read and insert

  /** Some uncancelled stay needs the room on some of these nights. */
  predicate Taken(bookings: Bookings, row: Booking) {
    exists other <- bookings ::
      !bookings[other].status.Cancelled? && bookings[other].room == row.room && Overlaps(bookings[other], row.checkIn, row.checkOut)
  }

  /** Nobody stays for no night at all. */
  ghost predicate StaysOk(bookings: Bookings) { forall id <- bookings :: bookings[id].checkIn < bookings[id].checkOut }

  ghost predicate RequestsOk(sys: System) {
    StaysOk(sys.db.bookings)
    && forall p <- sys.procs :: sys.procs[p].InsertBooking? ==> sys.procs[p].row.checkIn < sys.procs[p].row.checkOut
  }

  /** A request that has found the room free for its nights has found it free: its two queries
      together miss no uncancelled stay. */
  lemma ReadRowIsFree(db: State, step: Step)
    requires DbSafe(db) && StaysOk(db.bookings) && Read(db, step).InsertBooking?
    ensures !Taken(db.bookings, Read(db, step).row) && Read(db, step).row.checkIn < Read(db, step).row.checkOut
  {
    hide IdsOk, PaymentsSafe, NightsBacked, ResolveGuest, Live, HoldRoom, RecordOfflinePayment, CheckInGuest, CheckOutGuest,
      MarkRoomClean, UpdateRoomType;
    var row := Read(db, step).row;
    BookingReadsItself(db, step);
    forall other | other in db.bookings && !db.bookings[other].status.Cancelled? && db.bookings[other].room == row.room
      ensures !Overlaps(db.bookings[other], row.checkIn, row.checkOut)
    {
      FoundFree(db, row, other);
    }
  }

  lemma BookingReadsItself(db: State, step: Step)
    requires Read(db, step).InsertBooking?
    ensures var row := Read(db, step).row;
            && row.checkIn < row.checkOut && !BlockedByBooking(db, row.room, row.checkIn, row.checkOut)
            && NightsTaken(db, row.room, row.checkIn, row.checkOut) == {}
  {
    hide BlockedByBooking, NightsTaken, Live, Today;
  }

  lemma FoundFree(db: State, row: Booking, other: BookingId)
    requires StatusBacked(db.bookings, db.payments) && NightsComplete(db.bookings, db.payments, db.nights) && StaysOk(db.bookings)
    requires row.checkIn < row.checkOut && !BlockedByBooking(db, row.room, row.checkIn, row.checkOut)
    requires NightsTaken(db, row.room, row.checkIn, row.checkOut) == {}
    requires other in db.bookings && !db.bookings[other].status.Cancelled? && db.bookings[other].room == row.room
    ensures !Overlaps(db.bookings[other], row.checkIn, row.checkOut)
  {
    var b := db.bookings[other];
    assert !Blocks(b, row.room, row.checkIn, row.checkOut);
    if b.status.Completed? {
      assert Owns(other, b, db.nights);
      forall d | InStay(b, d) ensures !(row.checkIn <= d < row.checkOut) {
        assert Night(b.room, d) in db.nights;
        assert Night(b.room, d).day !in NightsTaken(db, row.room, row.checkIn, row.checkOut);
      }
      OverlapIsSharedNight(b, row.checkIn, row.checkOut);
    }
  }

  lemma RequestsStayOk(sys: System, sold: set<BookingId>, action: Action)
    requires SystemSafe(sys, sold) && RequestsOk(sys)
    ensures RequestsOk(Perform(sys, action))
  {
    hide Read, Commit, DbSafe, Ledger, PhaseOk;
    match action
    case Begin(pid, step) => if pid !in sys.procs && Read(sys.db, step).InsertBooking? { BookingReadsItself(sys.db, step); }
    case Advance(pid) =>
      if pid in sys.procs {
        var phase := sys.procs[pid];
        assert PhaseOk(phase, pid, sys.db.bookings, sys.db.payments, sys.locks);
        CommitKeepsStays(sys.db, sys.locks, pid, phase);
      }
    case Elapse(_) =>
  }

  lemma CommitKeepsStays(db: State, locks: map<BookingId, Pid>, pid: Pid, phase: Phase)
    requires StaysOk(db.bookings) && (phase.InsertBooking? ==> phase.row.checkIn < phase.row.checkOut)
    ensures StaysOk(Commit(db, locks, pid, phase).db.bookings) && !Commit(db, locks, pid, phase).phase.InsertBooking?
  {
    hide RightAmount, HoldBacks, PaymentClash, NightClash, NightRows, Ref, FindByRef, Merge;
  }

  /** The commits that take nights which were free: a new booking, or one that is revived. */
  predicate Takes(sys: System, action: Action, row: Booking) {
    action.Advance? && action.pid in sys.procs &&
    match sys.procs[action.pid]
    case InsertBooking(other) => other.room == row.room && Overlaps(other, row.checkIn, row.checkOut)
    case ConfirmAtDesk(id, _, _) => CancelledOn(sys.db.bookings, id, row)
    case MoveStay(id, _, _, _, _, _) => CancelledOn(sys.db.bookings, id, row)
    case _ => false
  }

  predicate CancelledOn(bookings: Bookings, id: BookingId, row: Booking) {
    id in bookings && bookings[id].status.Cancelled? && bookings[id].room == row.room
    && Overlaps(bookings[id], row.checkIn, row.checkOut)
  }

  lemma StatusTakes(bookings: Bookings, id: BookingId, status: Status, row: Booking)
    requires id in bookings && !Taken(bookings, row) && !CancelledOn(bookings, id, row)
    ensures !Taken(WithStatus(bookings, id, status), row)
  {
    var after := WithStatus(bookings, id, status);
    forall other | other in after && !after[other].status.Cancelled? && after[other].room == row.room
      ensures !Overlaps(after[other], row.checkIn, row.checkOut) {}
  }

  lemma CommitTakes(db: State, locks: map<BookingId, Pid>, pid: Pid, phase: Phase, row: Booking)
    requires PhaseOk(phase, pid, db.bookings, db.payments, locks) && !Taken(db.bookings, row)
    requires phase.InsertBooking? ==> !(phase.row.room == row.room && Overlaps(phase.row, row.checkIn, row.checkOut))
    requires phase.ConfirmAtDesk? || phase.MoveStay? ==> !CancelledOn(db.bookings, phase.id, row)
    ensures !Taken(Commit(db, locks, pid, phase).db.bookings, row)
  {
    hide Taken, CancelledOn, RightAmount, HoldBacks, PaymentClash, NightClash, NightRows, Ref, FindByRef, Merge, WithStatus, CancelAll, PaymentOk;
    match phase
    case InsertBooking(new_) => InsertTakes(db.bookings, db.nextId, new_, row);
    case ConfirmAtDesk(id, _, _) => if id in db.bookings { StatusTakes(db.bookings, id, Confirmed, row); }
    case MoveStay(id, status, _, _, _, _) => if id in db.bookings { StatusTakes(db.bookings, id, status, row); }
    case CancelBookings(ids, _) => CancelTakesNothing(db.bookings, ids, row);
    case LockedCancel(_, id) => WaitingIsNotCancelled(db.bookings, id, row); StatusTakes(db.bookings, id, Cancelled, row);
    case LockedConfirm(_, id, _) => WaitingIsNotCancelled(db.bookings, id, row); StatusTakes(db.bookings, id, Confirmed, row);
    case _ =>
  }

  lemma WaitingIsNotCancelled(bookings: Bookings, id: BookingId, row: Booking)
    requires id in bookings && bookings[id].status.Processing?
    ensures !CancelledOn(bookings, id, row)
  {}

  lemma InsertTakes(bookings: Bookings, id: BookingId, new_: Booking, row: Booking)
    requires !Taken(bookings, row) && !(new_.room == row.room && Overlaps(new_, row.checkIn, row.checkOut))
    ensures !Taken(bookings[id := new_], row)
  {}

  lemma CancelTakesNothing(bookings: Bookings, ids: set<BookingId>, row: Booking)
    requires !Taken(bookings, row)
    ensures !Taken(CancelAll(bookings, ids), row)
  {}

  lemma ActionTakes(sys: System, sold: set<BookingId>, action: Action, row: Booking)
    requires SystemSafe(sys, sold) && !Taken(sys.db.bookings, row) && !Takes(sys, action, row)
    ensures !Taken(Perform(sys, action).db.bookings, row)
  {
    hide Read, Commit, DbSafe, Ledger, PhaseOk, Taken, CancelledOn;
    if action.Advance? && action.pid in sys.procs {
      CommitTakes(sys.db, sys.locks, action.pid, sys.procs[action.pid], row);
    }
  }

  /** One of these actions took nights of the row. */
  ghost predicate SomebodyTook(db: State, before: seq<Action>, between: seq<Action>, row: Booking) {
    exists k :: 0 <= k < |between| && Takes(Schedule(Start(db), before + between[..k]), between[k], row)
  }

  lemma {:induction false} TakenBetween(db: State, before: seq<Action>, between: seq<Action>, row: Booking)
    requires DbSafe(db) && !Taken(Schedule(Start(db), before).db.bookings, row)
    requires Taken(Schedule(Start(db), before + between).db.bookings, row)
    ensures SomebodyTook(db, before, between, row)
  {
    hide Perform, DbSafe, Taken, Takes, SystemSafe;
    assert between == [] ==> before + between == before;
    if between != [] {
      var n := |between| - 1;
      var sys := Schedule(Start(db), before + between[..n]);
      assert (before + between)[..|before + between| - 1] == before + between[..n];
      EveryScheduleIsSafe(db, before + between[..n]);
      if !Taken(sys.db.bookings, row) {
        if !Takes(sys, between[n], row) { ActionTakes(sys, db.payments.Keys, between[n], row); }
      } else {
        TakenBetween(db, before, between[..n], row);
        var k :| 0 <= k < n && Takes(Schedule(Start(db), before + between[..n][..k]), between[..n][k], row);
        assert between[..n][..k] == between[..k];
      }
    }
  }

  lemma {:induction false} EveryScheduleHasStays(db: State, actions: seq<Action>)
    requires DbSafe(db) && StaysOk(db.bookings)
    ensures RequestsOk(Schedule(Start(db), actions))
  {
    hide Perform, DbSafe, SystemSafe;
    if actions != [] {
      var before := actions[..|actions| - 1];
      EveryScheduleHasStays(db, before);
      EveryScheduleIsSafe(db, before);
      RequestsStayOk(Schedule(Start(db), before), db.payments.Keys, actions[|actions| - 1]);
    }
  }

  /** So a new booking collides only if its nights were taken after it looked: between the read
      of the request and its insert lies a commit of somebody else that took some of them, by
      booking them or by reviving a cancelled booking. */
  lemma CollisionHasACause(db: State, before: seq<Action>, pid: Pid, step: Step, between: seq<Action>)
    requires DbSafe(db) && StaysOk(db.bookings) && pid !in Schedule(Start(db), before).procs
    requires var row := Read(Schedule(Start(db), before).db, step);
             var sys := Schedule(Start(db), before + [Begin(pid, step)] + between);
             row.InsertBooking? && pid in sys.procs && sys.procs[pid] == row && Collides(sys, Advance(pid))
    ensures SomebodyTook(db, before + [Begin(pid, step)], between, Read(Schedule(Start(db), before).db, step).row)
  {
    hide Schedule, Read, DbSafe, Taken, SystemSafe;
    var read := before + [Begin(pid, step)];
    EveryScheduleIsSafe(db, before);
    EveryScheduleHasStays(db, before);
    EveryScheduleIsSafe(db, read + between);
    SafeIsDbSafe(Schedule(Start(db), before), db.payments.Keys);
    ReadRowIsFree(Schedule(Start(db), before).db, step);
    ScheduleInTwo(Start(db), before, [Begin(pid, step)]);
    OneAction(Schedule(Start(db), before), Begin(pid, step));
    var row := Read(Schedule(Start(db), before).db, step).row;
    InTheWayIsTaken(Schedule(Start(db), read + between).db.bookings, Schedule(Start(db), read + between).db.nextId, row);
    TakenBetween(db, read, between, row);
  }

  lemma SafeIsDbSafe(sys: System, sold: set<BookingId>)
    requires SystemSafe(sys, sold)
    ensures DbSafe(sys.db)
  {}

  lemma InTheWayIsTaken(bookings: Bookings, id: BookingId, row: Booking)
    requires InTheWay(bookings, id, row)
    ensures Taken(bookings, row)
  {}

  // ---------------------------------------------------- a new booking collides

  /** Five minutes before midnight, with the room held by ada. */
  function HeldLate(): State {
    OneRoom(35000.0).(now := DAY - 5 * MINUTE, holds := map[1 := Hold("ada", DAY + 5 * MINUTE, false)])
  }

  lemma HeldLateIsReachable()
    ensures Reachable(HeldLate())
  {
    var s0 := OneRoom(35000.0);
    assert Exec(s0, LATE[0]).state == s0.(now := DAY - 5 * MINUTE);
    assert Exec(Exec(s0, LATE[0]).state, LATE[1]).state == HeldLate();
    hide Exec, Reachable, HeldLate;
    InitialIsReachable(s0);
    StepIsReachable(s0, LATE[0]);
    StepIsReachable(Exec(s0, LATE[0]).state, LATE[1]);
  }

  lemma ReadsLateRow()
    ensures Read(HeldLate(), LATE[2]) == InsertBooking(LATE_ROW)
  {
    assert NewBooking(HeldLate(), "ada", LATE[2].req) == LATE_ROW;
  }

  /** It happens: two bookings that overlap, made under one hold by two requests that read
      before either wrote. */
  lemma ConcurrentBookingsMayOverlap()
    ensures Reachable(HeldLate())
    ensures Schedule(Start(HeldLate()), [Begin(0, LATE[2]), Begin(1, LATE[2]), Advance(0), Advance(1)]).db
            == HeldLate().(nextId := 3, bookings := map[1 := LATE_ROW, 2 := LATE_ROW])
    ensures !Disjoint(map[1 := LATE_ROW, 2 := LATE_ROW])
  {
    hide Reachable, Read, Schedule;
    HeldLateIsReachable();
    ReadsLateRow();
    FourActions(Start(HeldLate()), Begin(0, LATE[2]), Begin(1, LATE[2]), Advance(0), Advance(1));
    var rows: Bookings := map[1 := LATE_ROW, 2 := LATE_ROW];
    assert !Apart(rows[1], rows[2]);
  }

  // ------------------------------------------------ a cancelled booking returns

  /** Bob's booking, thirteen minutes old and still unpaid. */
  function Aged13(): State { OneRoom(35000.0).(now := 13 * MINUTE, nextId := 2, bookings := map[1 := FIRST_ROW]) }

  const ADA_HOLD: Hold := Hold("ada", 23 * MINUTE, false)
  const ADA_REQUEST: BookingRequest := BookingRequest(None, 1, 1, 2)
  const ADA_ROW: Booking := Booking("ada", 1, 1, 2, Processing, 35000.0, 13 * MINUTE)

  /** Cancelled by the sweep; the room then held and booked by ada for the same night. */
  function Rebooked(): State {
    Aged13().(nextId := 3, bookings := map[1 := FIRST_ROW.(status := Cancelled), 2 := ADA_ROW], holds := map[1 := ADA_HOLD])
  }

  /** And then the desk, which had read the first booking before all that, takes its money. */
  function Revived(): State {
    Rebooked().(bookings := map[1 := FIRST_ROW.(status := Confirmed), 2 := ADA_ROW],
                nights := map[Night(1, 1) := 1], payments := map[1 := CASH])
  }

  lemma Aged13IsReachable()
    ensures Reachable(Aged13())
  {
    hide Reachable;
    FirstTry();
    StepIsReachable(OneRoom(35000.0).(now := 11 * MINUTE, nextId := 2, bookings := map[1 := FIRST_ROW]), Tick(2 * MINUTE));
  }

  lemma SweepFindsAged()
    ensures Read(Aged13(), SweepBookings(GRACE_MINUTES)) == CancelBookings({1}, {})
    ensures Commit(Aged13(), map[], 1, CancelBookings({1}, {}))
            == Next(Aged13().(bookings := map[1 := FIRST_ROW.(status := Cancelled)]), Done(Ok(Swept(1))), map[])
  {
    assert StaleIds(Aged13(), GRACE_MINUTES) == {1};
    assert OwnHolds(Aged13(), {1}) == {};
    var holds := Aged13().holds;
    assert holds - {} == holds;
    assert CancelAll(Aged13().bookings, {1}) == map[1 := FIRST_ROW.(status := Cancelled)];
  }

  lemma AdaBooks()
    ensures var free := Aged13().(bookings := map[1 := FIRST_ROW.(status := Cancelled)]);
            && Read(free, PlaceHold(1, "ada")) == InsertHold(1, ADA_HOLD)
            && Read(free.(holds := map[1 := ADA_HOLD]), Book(ADA, ADA_REQUEST)) == InsertBooking(ADA_ROW)
  {
    var free := Aged13().(bookings := map[1 := FIRST_ROW.(status := Cancelled)]);
    assert NewBooking(free.(holds := map[1 := ADA_HOLD]), "ada", ADA_REQUEST) == ADA_ROW;
  }

  lemma DeskRevives()
    ensures Read(Aged13(), PayOffline(1, "desk", 35000.0, NAIRA)) == ConfirmAtDesk(1, FIRST_ROW, CASH)
    ensures CommitAtDesk(Rebooked(), map[], ConfirmAtDesk(1, FIRST_ROW, CASH))
            == Next(Revived(), Done(Ok(PaidOffline(1))), map[])
  {
    OneNightRow(1, FIRST_ROW);
    hide NightKeys, NightRows;
  }

  const UNTIL_ADA_HOLDS: seq<Action> := [
    Begin(0, PayOffline(1, "desk", 35000.0, NAIRA)), Begin(1, SweepBookings(GRACE_MINUTES)), Advance(1), Begin(2, PlaceHold(1, "ada"))]
  const UNTIL_DESK_PAYS: seq<Action> := [Advance(2), Begin(3, Book(ADA, ADA_REQUEST)), Advance(3), Advance(0)]

  function Midway(): System {
    System(Aged13().(bookings := map[1 := FIRST_ROW.(status := Cancelled)]),
           map[0 := ConfirmAtDesk(1, FIRST_ROW, CASH), 1 := Done(Ok(Swept(1))), 2 := InsertHold(1, ADA_HOLD)], map[])
  }

  lemma UntilAdaHolds()
    ensures Schedule(Start(Aged13()), UNTIL_ADA_HOLDS) == Midway()
  {
    hide Read, Commit, Schedule, Aged13;
    SweepFindsAged();
    AdaBooks();
    DeskRevives();
    FourActions(Start(Aged13()), Begin(0, PayOffline(1, "desk", 35000.0, NAIRA)), Begin(1, SweepBookings(GRACE_MINUTES)),
                Advance(1), Begin(2, PlaceHold(1, "ada")));
  }

  lemma AdaIsServed()
    ensures Perform(Perform(Perform(Midway(), Advance(2)), Begin(3, Book(ADA, ADA_REQUEST))), Advance(3))
            == System(Rebooked(), map[0 := ConfirmAtDesk(1, FIRST_ROW, CASH), 1 := Done(Ok(Swept(1))),
                                      2 := Done(Ok(Held)), 3 := Done(Ok(Booked(2)))], map[])
  {
    hide Read;
    AdaBooks();
    var held := Perform(Midway(), Advance(2));
    assert held.db == Aged13().(bookings := map[1 := FIRST_ROW.(status := Cancelled)], holds := map[1 := ADA_HOLD]);
  }

  lemma UntilDeskPays()
    ensures Schedule(Midway(), UNTIL_DESK_PAYS).db == Revived()
  {
    hide Read, Schedule, Midway, CommitAtDesk, Aged13, Rebooked, Revived;
    AdaIsServed();
    DeskRevives();
    FourActions(Midway(), Advance(2), Begin(3, Book(ADA, ADA_REQUEST)), Advance(3), Advance(0));
  }

  lemma RevivedOverlap()
    ensures !Disjoint(Revived().bookings)
  {
    assert !Apart(Revived().bookings[1], Revived().bookings[2]);
  }

  /** It happens too: the desk revives a booking that has been cancelled, although its night has
      been booked again. One of the two bookings is paid, both want the room. */
  lemma CancelledBookingReturns()
    ensures Reachable(Aged13()) && Schedule(Start(Aged13()), UNTIL_ADA_HOLDS + UNTIL_DESK_PAYS).db == Revived()
    ensures !Disjoint(Revived().bookings)
  {
    hide Reachable, Schedule, Aged13, Revived, Disjoint, Midway;
    Aged13IsReachable();
    UntilAdaHolds();
    UntilDeskPays();
    ScheduleInTwo(Start(Aged13()), UNTIL_ADA_HOLDS, UNTIL_DESK_PAYS);
    RevivedOverlap();
  }
}
