/** What every operation keeps when operations do not overlap in time, and so what holds
    after every run of the serial system. */
module Invariant {
  import opened Model
  import opened Operations

  type Bookings = map<BookingId, Booking>

  predicate BookingOk(b: Booking, rooms: map<RoomId, Room>, now: Instant) {
    && b.room in rooms
    && b.checkIn < b.checkOut
    && b.createdAt <= now
    && Today(b.createdAt) <= b.checkIn
    && !b.status.OnHold?
    && (b.status.CheckedIn? ==> b.checkIn <= Today(now))
    && (b.status.Completed? ==> b.checkOut <= Today(now))
  }

  ghost predicate BookingsOk(bookings: Bookings, rooms: map<RoomId, Room>, nextId: BookingId, now: Instant) {
    forall id <- bookings :: id < nextId && BookingOk(bookings[id], rooms, now)
  }

  /** A hold never outlives its ten minutes. */
  ghost predicate HoldsOk(holds: map<RoomId, Hold>, rooms: map<RoomId, Room>, now: Instant) {
    forall r <- holds :: r in rooms && holds[r].expiresAt <= now + HOLD_TIME
  }

  /** Every room has a positive rate, and a dirty room cannot be sold or entered. */
  ghost predicate RoomsOk(rooms: map<RoomId, Room>, roomTypes: map<string, RoomType>) {
    && (forall r <- rooms :: rooms[r].roomType in roomTypes && (rooms[r].state.Dirty? ==> !rooms[r].isAvailable))
    && (forall t <- roomTypes :: roomTypes[t].baseRate > 0.0)
  }

  /** A payment is the right money; an online one is backed by its own recorded event. */
  predicate PaymentOk(p: Payment, id: BookingId, b: Booking, events: map<EventId, EventRow>) {
    && RightAmount(p.amount, p.currency, b)
    && (p.how.Offline? <==> p.event.None?)
    && (p.event.Some? ==> p.event.value in events && events[p.event.value] == EventRow(SUCCEEDED, Ref(id)))
  }

  /** Status and money agree. */
  ghost predicate PaymentsOk(bookings: Bookings, payments: map<BookingId, Payment>, events: map<EventId, EventRow>) {
    && (forall id <- payments :: id in bookings && PaymentOk(payments[id], id, bookings[id], events))
    && (forall id <- bookings :: Paid(bookings[id].status) <==> id in payments)
  }

  predicate NightOk(n: Night, b: Booking) { Paid(b.status) && n.room == b.room && InStay(b, n.day) }

  ghost predicate Owns(id: BookingId, b: Booking, nights: map<Night, BookingId>) {
    forall d | InStay(b, d) :: Night(b.room, d) in nights && nights[Night(b.room, d)] == id
  }

  /** Status and nights agree: exactly the paid stays own their nights. */
  ghost predicate NightsOk(bookings: Bookings, nights: map<Night, BookingId>) {
    && (forall n <- nights :: nights[n] in bookings && NightOk(n, bookings[nights[n]]))
    && (forall id <- bookings :: Paid(bookings[id].status) ==> Owns(id, bookings[id], nights))
  }

  predicate Apart(a: Booking, b: Booking) {
    a.room != b.room || a.status.Cancelled? || b.status.Cancelled? || !Overlaps(a, b.checkIn, b.checkOut)
  }

  /** Stays that are not cancelled never overlap in the same room, paid or not. */
  ghost predicate Disjoint(bookings: Bookings) {
    forall x, y | x in bookings && y in bookings && x != y :: Apart(bookings[x], bookings[y])
  }

  ghost predicate Inv(s: State) {
    && BookingsOk(s.bookings, s.rooms, s.nextId, s.now)
    && HoldsOk(s.holds, s.rooms, s.now)
    && RoomsOk(s.rooms, s.roomTypes)
    && PaymentsOk(s.bookings, s.payments, s.events)
    && NightsOk(s.bookings, s.nights)
    && Disjoint(s.bookings)
  }

  /** A freshly migrated database: rooms and rates, nothing held or sold. */
  ghost predicate Initial(s: State) {
    && RoomsOk(s.rooms, s.roomTypes)
    && s.bookings == map[] && s.holds == map[] && s.nights == map[] && s.payments == map[] && s.events == map[]
  }

  // ------------------------------------------------------- changes of status

  /** The same stays, some with a new status; cancelled ones stay cancelled. */
  ghost predicate Restated(before: Bookings, after: Bookings) {
    before.Keys == after.Keys &&
    forall id <- before :: SameStay(before[id], after[id]) && (before[id].status.Cancelled? ==> after[id].status.Cancelled?)
  }

  ghost predicate SamePaid(before: Bookings, after: Bookings)
    requires before.Keys == after.Keys
  {
    forall id <- before :: Paid(before[id].status) <==> Paid(after[id].status)
  }

  lemma RestatedStaysDisjoint(before: Bookings, after: Bookings)
    requires Restated(before, after) && Disjoint(before)
    ensures Disjoint(after)
  {
    forall x, y | x in after && y in after && x != y ensures Apart(after[x], after[y]) {
      assert Apart(before[x], before[y]);
    }
  }

  lemma WithStatusIsRestated(s: State, id: BookingId, status: Status)
    requires id in s.bookings && !s.bookings[id].status.Cancelled?
    ensures Restated(s.bookings, WithStatus(s.bookings, id, status))
  {}

  lemma WithStatusKeepsBookings(s: State, id: BookingId, status: Status)
    requires BookingsOk(s.bookings, s.rooms, s.nextId, s.now) && id in s.bookings && !status.OnHold?
    requires status.CheckedIn? ==> s.bookings[id].checkIn <= Today(s.now)
    requires status.Completed? ==> s.bookings[id].checkOut <= Today(s.now)
    ensures BookingsOk(WithStatus(s.bookings, id, status), s.rooms, s.nextId, s.now)
  {}

  /** Payments and nights do not notice a change of status that keeps who has paid. */
  lemma RestatedKeepsSales(s: State, after: Bookings)
    requires Restated(s.bookings, after) && SamePaid(s.bookings, after)
    requires PaymentsOk(s.bookings, s.payments, s.events) && NightsOk(s.bookings, s.nights)
    ensures PaymentsOk(after, s.payments, s.events) && NightsOk(after, s.nights)
  {
    forall id | id in after && Paid(after[id].status) ensures Owns(id, after[id], s.nights) {
      assert Owns(id, s.bookings[id], s.nights);
      forall d | InStay(after[id], d)
        ensures Night(after[id].room, d) in s.nights && s.nights[Night(after[id].room, d)] == id
      {
        assert InStay(s.bookings[id], d);
      }
    }
    forall n | n in s.nights ensures NightOk(n, after[s.nights[n]]) { assert NightOk(n, s.bookings[s.nights[n]]); }
  }

  // ---------------------------------------------------------------- new stays

  /** The nights of a paid stay are seen by the night query. */
  lemma PaidOverlapIsTaken(s: State, id: BookingId, checkIn: Day, checkOut: Day)
    requires NightsOk(s.bookings, s.nights) && id in s.bookings && Paid(s.bookings[id].status)
    requires s.bookings[id].checkIn < s.bookings[id].checkOut && checkIn < checkOut
    requires Overlaps(s.bookings[id], checkIn, checkOut)
    ensures NightsTaken(s, s.bookings[id].room, checkIn, checkOut) != {}
  {
    var b := s.bookings[id];
    OverlapIsSharedNight(b, checkIn, checkOut);
    var d :| InStay(b, d) && checkIn <= d < checkOut;
    assert Owns(id, b, s.nights);
    assert Night(b.room, d).day in NightsTaken(s, b.room, checkIn, checkOut);
  }

  /** A new stay avoids the sold nights, so it does not overlap a completed stay either. */
  lemma NewStayIsApart(s: State, id: BookingId, b: Booking)
    requires BookingsOk(s.bookings, s.rooms, s.nextId, s.now) && NightsOk(s.bookings, s.nights)
    requires id in s.bookings && b.checkIn < b.checkOut
    requires !BlockedByBooking(s, b.room, b.checkIn, b.checkOut)
    requires NightsTaken(s, b.room, b.checkIn, b.checkOut) == {}
    ensures Apart(s.bookings[id], b) && Apart(b, s.bookings[id])
  {
    var other := s.bookings[id];
    assert !Blocks(other, b.room, b.checkIn, b.checkOut);
    assert BookingOk(other, s.rooms, s.now);
    if other.room == b.room && other.status.Completed? && Overlaps(other, b.checkIn, b.checkOut) {
      PaidOverlapIsTaken(s, id, b.checkIn, b.checkOut);
    }
  }

  lemma NewRowKeepsSales(s: State, id: BookingId, b: Booking)
    requires PaymentsOk(s.bookings, s.payments, s.events) && NightsOk(s.bookings, s.nights)
    requires id !in s.bookings && !Paid(b.status)
    ensures PaymentsOk(s.bookings[id := b], s.payments, s.events) && NightsOk(s.bookings[id := b], s.nights)
  {}

  lemma BookedKeeps(s: State, b: Booking)
    requires Inv(s) && BookingOk(b, s.rooms, s.now) && b.status.Processing?
    requires !BlockedByBooking(s, b.room, b.checkIn, b.checkOut)
    requires NightsTaken(s, b.room, b.checkIn, b.checkOut) == {}
    ensures Inv(s.(bookings := s.bookings[s.nextId := b], nextId := s.nextId + 1))
  {
    assert s.nextId !in s.bookings;
    forall id | id in s.bookings ensures Apart(s.bookings[id], b) && Apart(b, s.bookings[id]) { NewStayIsApart(s, id, b); }
    NewRowKeepsSales(s, s.nextId, b);
  }

  lemma CreateBookingKeeps(s: State, client: User, req: BookingRequest)
    requires Inv(s)
    ensures Inv(CreateBooking(s, client, req).state)
  {
    hide HoldsOk, PaymentsOk, NightsOk, Disjoint, BlockedByBooking, NightsTaken, ResolveGuest;
    var r := CreateBooking(s, client, req);
    if r.outcome.Ok? {
      var b := r.state.bookings[s.nextId];
      BookedKeeps(s, b);
      assert r.state == s.(bookings := s.bookings[s.nextId := b], nextId := s.nextId + 1);
    } else if r.outcome == Raised(HoldExpired) {
      ReleaseKeeps(s, {req.room});
    }
  }

  // --------------------------------------------------------------- confirming

  /** A night that belongs to an uncancelled stay can only be owned by that stay. */
  lemma OnlyOwner(s: State, id: BookingId, n: Night)
    requires NightsOk(s.bookings, s.nights) && Disjoint(s.bookings)
    requires id in s.bookings && !s.bookings[id].status.Cancelled? && n in NightKeys(s.bookings[id]) && n in s.nights
    ensures s.nights[n] == id
  {
    NightKeysAre(s.bookings[id], n);
    var owner := s.nights[n];
    assert NightOk(n, s.bookings[owner]);
    assert Overlaps(s.bookings[owner], s.bookings[id].checkIn, s.bookings[id].checkOut);
  }

  /** Confirming a booking never meets a taken night or an earlier payment. */
  lemma NoClash(s: State, id: BookingId)
    requires Inv(s) && id in s.bookings && s.bookings[id].status.Processing?
    ensures id !in s.payments && !NightClash(s.nights, s.bookings[id])
  {
    forall n | n in NightKeys(s.bookings[id]) ensures n !in s.nights {
      if n in s.nights { OnlyOwner(s, id, n); }
    }
  }

  lemma ConfirmKeepsNights(s: State, id: BookingId)
    requires NightsOk(s.bookings, s.nights) && id in s.bookings && s.bookings[id].status.Processing?
    requires !NightClash(s.nights, s.bookings[id])
    ensures NightsOk(WithStatus(s.bookings, id, Confirmed), s.nights + NightRows(id, s.bookings[id]))
  {
    var b := s.bookings[id];
    var bookings, nights := WithStatus(s.bookings, id, Confirmed), s.nights + NightRows(id, b);
    forall n ensures n in NightRows(id, b) <==> n.room == b.room && InStay(b, n.day) { NightKeysAre(b, n); }
    forall n | n in nights ensures nights[n] in bookings && NightOk(n, bookings[nights[n]]) {
      if n in NightRows(id, b) { assert nights[n] == id; } else { assert NightOk(n, s.bookings[s.nights[n]]); }
    }
    forall k | k in bookings && Paid(bookings[k].status) ensures Owns(k, bookings[k], nights) {
      if k == id {
        assert forall d | InStay(bookings[k], d) :: InStay(b, d);
      } else {
        assert Owns(k, s.bookings[k], s.nights);
        forall d | InStay(bookings[k], d)
          ensures Night(bookings[k].room, d) in nights && nights[Night(bookings[k].room, d)] == k
        {
          var n := Night(bookings[k].room, d);
          assert n in s.nights;
          assert n !in NightRows(id, b);
        }
      }
    }
  }

  lemma ConfirmKeepsPayments(s: State, id: BookingId, payment: Payment)
    requires PaymentsOk(s.bookings, s.payments, s.events) && id in s.bookings && s.bookings[id].status.Processing?
    requires PaymentOk(payment, id, s.bookings[id], s.events)
    ensures PaymentsOk(WithStatus(s.bookings, id, Confirmed), s.payments[id := payment], s.events)
  {}

  lemma ConfirmKeeps(s: State, id: BookingId, payment: Payment)
    requires Inv(s) && id in s.bookings && s.bookings[id].status.Processing?
    requires PaymentOk(payment, id, s.bookings[id], s.events)
    ensures Inv(Confirm(s, id, payment))
  {
    NoClash(s, id);
    ConfirmKeepsNights(s, id);
    ConfirmKeepsPayments(s, id, payment);
    WithStatusIsRestated(s, id, Confirmed);
    RestatedStaysDisjoint(s.bookings, WithStatus(s.bookings, id, Confirmed));
    WithStatusKeepsBookings(s, id, Confirmed);
  }

  // --------------------------------------------------------------- cancelling

  lemma CancelKeepsBookings(s: State, ids: set<BookingId>)
    requires BookingsOk(s.bookings, s.rooms, s.nextId, s.now)
    requires forall id <- ids :: id in s.bookings && s.bookings[id].status.Processing?
    ensures BookingsOk(CancelAll(s.bookings, ids), s.rooms, s.nextId, s.now)
    ensures Restated(s.bookings, CancelAll(s.bookings, ids)) && SamePaid(s.bookings, CancelAll(s.bookings, ids))
  {}

  /** Cancelling stays that were never paid. */
  lemma CancelKeeps(s: State, ids: set<BookingId>)
    requires Inv(s)
    requires forall id <- ids :: id in s.bookings && s.bookings[id].status.Processing?
    ensures Inv(s.(bookings := CancelAll(s.bookings, ids)))
  {
    var after := CancelAll(s.bookings, ids);
    CancelKeepsBookings(s, ids);
    RestatedStaysDisjoint(s.bookings, after);
    RestatedKeepsSales(s, after);
  }

  /** Recording an event that is not yet recorded. */
  lemma LogKeeps(s: State, ev: PaymentEvent)
    requires Inv(s) && ev.id !in s.events
    ensures Inv(Logged(s, ev))
  {}

  lemma RecordOfflinePaymentKeeps(s: State, id: BookingId, staff: Email, amount: real, currency: string)
    requires Inv(s)
    ensures Inv(RecordOfflinePayment(s, id, staff, amount, currency).state)
  {
    if RecordOfflinePayment(s, id, staff, amount, currency).outcome.Ok? {
      ConfirmKeeps(s, id, Payment(amount, currency, Offline, None, Some(staff)));
    }
  }

  lemma SettleBookingKeeps(s: State, ev: PaymentEvent, id: BookingId)
    requires Inv(s) && ev.id !in s.events && id in s.bookings && Ref(id) == ev.reference && ev.kind == SUCCEEDED
    ensures Inv(SettleBooking(s, ev, id).state)
  {
    hide HoldsOk, RoomsOk, NightsOk, Disjoint, PaymentClash, NightClash, NightRows;
    var r := SettleBooking(s, ev, id);
    var logged := Logged(s, ev);
    LogKeeps(s, ev);
    if r.outcome == Raised(HoldGone) {
      assert WithStatus(s.bookings, id, Cancelled) == CancelAll(s.bookings, {id});
      CancelKeeps(logged, {id});
    } else if r.outcome == Ok(PaidOnline(id)) {
      ConfirmKeeps(logged, id, OnlinePayment(ev));
      ReleaseKeeps(Confirm(logged, id, OnlinePayment(ev)), {s.bookings[id].room});
    }
  }

  lemma ProcessPaymentEventKeeps(s: State, ev: PaymentEvent)
    requires Inv(s)
    ensures Inv(ProcessPaymentEvent(s, ev).state)
  {
    if ev.id !in s.events {
      LogKeeps(s, ev);
      var found := FindByRef(s.bookings, ev.reference);
      if ev.kind == SUCCEEDED && found.Some? { SettleBookingKeeps(s, ev, found.value); }
    }
  }

  lemma PayBookingKeeps(s: State, id: BookingId, guest: Email, eventId: EventId)
    requires Inv(s)
    ensures Inv(PayBooking(s, id, guest, eventId).state)
  {
    if id in s.bookings {
      ProcessPaymentEventKeeps(s, ProviderEvent(id, s.bookings[id], eventId));
    }
  }

  // ------------------------------------------------------- stays, rooms, clock

  lemma MoreRoomsKeepBookings(s: State, rooms: map<RoomId, Room>, now: Instant)
    requires BookingsOk(s.bookings, s.rooms, s.nextId, s.now) && s.rooms.Keys <= rooms.Keys && s.now <= now
    ensures BookingsOk(s.bookings, rooms, s.nextId, now)
  {}

  /** Changes of rooms, rates, holds and time only. */
  lemma FrameKeeps(s: State, s': State)
    requires Inv(s) && RoomsOk(s'.rooms, s'.roomTypes) && HoldsOk(s'.holds, s'.rooms, s'.now)
    requires s' == s.(rooms := s'.rooms, roomTypes := s'.roomTypes, holds := s'.holds, now := s'.now)
    requires s.rooms.Keys <= s'.rooms.Keys && s.now <= s'.now
    ensures Inv(s')
  {
    MoreRoomsKeepBookings(s, s'.rooms, s'.now);
  }

  /** A paid stay moving on to its next paid status. */
  lemma StayKeeps(s: State, id: BookingId, status: Status, room: Room)
    requires Inv(s) && id in s.bookings && Paid(s.bookings[id].status) && Paid(status)
    requires room.roomType in s.roomTypes && !room.isAvailable
    requires status.CheckedIn? ==> s.bookings[id].checkIn <= Today(s.now)
    requires status.Completed? ==> s.bookings[id].checkOut <= Today(s.now)
    ensures Inv(s.(bookings := WithStatus(s.bookings, id, status), rooms := s.rooms[s.bookings[id].room := room]))
  {
    var moved := s.(bookings := WithStatus(s.bookings, id, status));
    WithStatusIsRestated(s, id, status);
    RestatedStaysDisjoint(s.bookings, moved.bookings);
    RestatedKeepsSales(s, moved.bookings);
    WithStatusKeepsBookings(s, id, status);
    RoomKeeps(moved, s.bookings[id].room, room);
  }

  lemma RoomKeeps(s: State, id: RoomId, room: Room)
    requires Inv(s) && id in s.rooms && room.roomType in s.roomTypes && (room.state.Dirty? ==> !room.isAvailable)
    ensures Inv(s.(rooms := s.rooms[id := room]))
  {
    FrameKeeps(s, s.(rooms := s.rooms[id := room]));
  }

  lemma CheckInGuestKeeps(s: State, id: BookingId)
    requires Inv(s)
    ensures Inv(CheckInGuest(s, id).state)
  {
    if CheckInGuest(s, id).outcome.Ok? {
      StayKeeps(s, id, CheckedIn, s.rooms[s.bookings[id].room].(isAvailable := false));
    }
  }

  lemma CheckOutGuestKeeps(s: State, id: BookingId)
    requires Inv(s)
    ensures Inv(CheckOutGuest(s, id).state)
  {
    if CheckOutGuest(s, id).outcome == Ok(GuestOut) {
      StayKeeps(s, id, Completed, s.rooms[s.bookings[id].room].(isAvailable := false, state := Dirty));
    }
  }

  lemma HoldRoomKeeps(s: State, room: RoomId, guest: Email)
    requires Inv(s)
    ensures Inv(HoldRoom(s, room, guest).state)
  {
    FrameKeeps(s, HoldRoom(s, room, guest).state);
  }

  lemma MarkRoomCleanKeeps(s: State, room: RoomId)
    requires Inv(s)
    ensures Inv(MarkRoomClean(s, room).state)
  {
    if room in s.rooms { RoomKeeps(s, room, s.rooms[room].(isAvailable := true, state := Clean)); }
  }

  lemma UpdateRoomTypeKeeps(s: State, name: string, rate: Option<real>, capacity: Option<int>)
    requires Inv(s)
    ensures Inv(UpdateRoomType(s, name, rate, capacity).state)
  {
    FrameKeeps(s, UpdateRoomType(s, name, rate, capacity).state);
  }

  lemma ReleaseKeeps(s: State, released: set<RoomId>)
    requires Inv(s)
    ensures Inv(s.(holds := s.holds - released))
  {
    FrameKeeps(s, s.(holds := s.holds - released));
  }

  lemma TickKeeps(s: State, elapsed: nat)
    requires Inv(s)
    ensures Inv(s.(now := s.now + elapsed))
  {
    FrameKeeps(s, s.(now := s.now + elapsed));
  }

  lemma CancelStaleProcessingKeeps(s: State, grace: int)
    requires Inv(s)
    ensures Inv(CancelStaleProcessing(s, grace).state)
  {
    var ids := StaleIds(s, grace);
    CancelKeeps(s, ids);
    ReleaseKeeps(s.(bookings := CancelAll(s.bookings, ids)), OwnHolds(s, ids));
  }

  // ------------------------------------------------------------ steps and runs

  /** Every operation, in every state, whatever it answers. */
  lemma ExecKeeps(s: State, step: Step)
    requires Inv(s)
    ensures Inv(Exec(s, step).state)
  {
    hide Inv, HoldRoom, CreateBooking, RecordOfflinePayment, ProcessPaymentEvent, PayBooking, CheckInGuest, CheckOutGuest,
      MarkRoomClean, UpdateRoomType, CancelStaleProcessing;
    match step
    case PlaceHold(room, guest) => HoldRoomKeeps(s, room, guest);
    case Book(client, req) => CreateBookingKeeps(s, client, req);
    case PayOffline(id, staff, amount, currency) => RecordOfflinePaymentKeeps(s, id, staff, amount, currency);
    case Deliver(ev) => ProcessPaymentEventKeeps(s, ev);
    case PayOnline(id, guest, eventId) => PayBookingKeeps(s, id, guest, eventId);
    case Arrive(id) => CheckInGuestKeeps(s, id);
    case Depart(id) => CheckOutGuestKeeps(s, id);
    case CleanRoom(room) => MarkRoomCleanKeeps(s, room);
    case Reprice(name, rate, capacity) => UpdateRoomTypeKeeps(s, name, rate, capacity);
    case SweepHolds => ReleaseKeeps(s, DeadHolds(s));
    case SweepBookings(grace) => CancelStaleProcessingKeeps(s, grace);
    case Tick(elapsed) => TickKeeps(s, elapsed);
  }

  lemma {:induction false} RunKeeps(s: State, steps: seq<Step>)
    requires Inv(s)
    ensures Inv(Run(s, steps))
  {
    hide Inv, Exec;
    if steps != [] {
      RunKeeps(s, steps[..|steps| - 1]);
      ExecKeeps(Run(s, steps[..|steps| - 1]), steps[|steps| - 1]);
    }
  }

  /** Every serially reachable state: whatever was called, in whatever order, at whatever times. */
  ghost predicate Reachable(s: State) {
    exists s0, steps :: Initial(s0) && s == Run(s0, steps)
  }

  lemma InitialIsReachable(s: State)
    requires Initial(s)
    ensures Reachable(s)
  {
    assert Run(s, []) == s;
  }

  lemma StepIsReachable(s: State, step: Step)
    requires Reachable(s)
    ensures Reachable(Exec(s, step).state)
  {
    hide Exec, Initial;
    var s0, steps :| Initial(s0) && s == Run(s0, steps);
    assert (steps + [step])[..|steps|] == steps;
    assert Exec(s, step).state == Run(s0, steps + [step]);
  }

  // The guests of the examples.
  const ADA: User := User("ada", Guest)
  const BOB: User := User("bob", Guest)

  /** The smallest hotel: one clean standard room at midnight of day zero. */
  function OneRoom(rate: real): State {
    State(map[], map["standard" := RoomType(rate, 2)], map[1 := Room("standard", true, Clean)],
          map[], map[], map[], map[], map[], 1, 0)
  }

  /** The invariant of the serial system. */
  lemma ReachableIsConsistent(s: State)
    requires Reachable(s)
    ensures Inv(s)
  {
    var s0, steps :| Initial(s0) && s == Run(s0, steps);
    assert Inv(s0);
    RunKeeps(s0, steps);
  }
}
