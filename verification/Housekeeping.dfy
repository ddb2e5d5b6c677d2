/** Rooms, guests in them, and the housekeeper's button. */
module Housekeeping {
  import opened Model
  import opened Operations
  import opened Invariant
  import opened Lifecycle

  /** A dirty room is never held, booked or entered. */
  lemma DirtyRoomIsClosed(s: State, room: RoomId, guest: Email, client: User, req: BookingRequest, id: BookingId)
    requires Inv(s) && room in s.rooms && s.rooms[room].state.Dirty?
    ensures HoldRoom(s, room, guest) == Reply(s, Raised(RoomUnavailable))
    ensures req.room == room ==> CreateBooking(s, client, req).outcome.Raised? && CreateBooking(s, client, req).state == s
    ensures id in s.bookings && s.bookings[id].room == room ==> CheckInGuest(s, id).outcome.Raised?
  {
    hide BookingsOk, HoldsOk, PaymentsOk, NightsOk, Disjoint, BlockedByBooking, NightsTaken;
  }

  predicate InHouseIn(b: Booking, room: RoomId) { b.status.CheckedIn? && b.room == room }

  predicate Empty(s: State, room: RoomId) { forall id <- s.bookings :: !InHouseIn(s.bookings[id], room) }

  /** Whoever is checked in has a room to himself, and nobody else can enter it. */
  ghost predicate SingleOccupancy(bookings: Bookings, rooms: map<RoomId, Room>) {
    && (forall id <- bookings :: bookings[id].status.CheckedIn? ==>
          bookings[id].room in rooms && !rooms[bookings[id].room].isAvailable)
    && (forall x, y | x in bookings && y in bookings && x != y :: !InHouseIn(bookings[x], bookings[y].room) || !bookings[y].status.CheckedIn?)
  }

  /** Marking a room clean opens it unconditionally. Single occupancy survives that exactly
      when nobody is checked in there. */
  lemma CleaningIsSafeIffEmpty(s: State, room: RoomId)
    requires SingleOccupancy(s.bookings, s.rooms) && room in s.rooms
    ensures var after := MarkRoomClean(s, room).state;
            SingleOccupancy(after.bookings, after.rooms) <==> Empty(s, room)
  {
    var after := MarkRoomClean(s, room).state;
    if id :| id in s.bookings && InHouseIn(s.bookings[id], room) { assert after.rooms[room].isAvailable; }
  }

  /** If it is pressed while a guest is in the room, the next guest can be checked in on top. */
  lemma CleaningTooEarlyDoublesOccupancy(s: State, a: BookingId, b: BookingId)
    requires Inv(s) && a in s.bookings && b in s.bookings && s.bookings[a].room == s.bookings[b].room
    requires s.bookings[a].status.CheckedIn? && s.bookings[b].status.Confirmed? && s.bookings[b].checkIn == Today(s.now)
    ensures var r := CheckInGuest(MarkRoomClean(s, s.bookings[b].room).state, b);
            r.outcome == Ok(GuestIn) && r.state.bookings == WithStatus(s.bookings, b, CheckedIn)
            && !SingleOccupancy(r.state.bookings, r.state.rooms)
  {
    hide HoldsOk, RoomsOk, PaymentsOk, NightsOk, Disjoint;
    assert BookingOk(s.bookings[b], s.rooms, s.now);
    var r := CheckInGuest(MarkRoomClean(s, s.bookings[b].room).state, b);
    assert InHouseIn(r.state.bookings[a], r.state.bookings[b].room);
  }

  /** Two guests are in one room. */
  ghost predicate Shared(bookings: Bookings) {
    exists x, y :: x in bookings && y in bookings && x != y && bookings[x].status.CheckedIn? && InHouseIn(bookings[y], bookings[x].room)
  }

  /** A check-in makes two guests share a room exactly when it is for a confirmed booking that
      arrives today, of a room that is open although somebody is in it. */
  lemma CheckInSharesIff(s: State, id: BookingId)
    requires Inv(s) && !Shared(s.bookings)
    ensures Shared(CheckInGuest(s, id).state.bookings) <==>
            id in s.bookings && s.bookings[id].status.Confirmed? && s.bookings[id].checkIn == Today(s.now)
            && s.rooms[s.bookings[id].room].isAvailable && !Empty(s, s.bookings[id].room)
  {
    hide HoldsOk, RoomsOk, PaymentsOk, NightsOk, Disjoint;
    var after := CheckInGuest(s, id).state.bookings;
    if CheckInGuest(s, id).outcome == Ok(GuestIn) {
      ArrivalShares(s.bookings, id);
    }
  }

  /** The harm done by the button, exactly. While rooms are private no check-in makes guests
      share; after a cleaning report, the check-in of a booking does if and only if the booking
      is confirmed, arrives today, and is for that room with a guest still in it. */
  lemma CleaningLetsGuestsShare(s: State, room: RoomId, id: BookingId)
    requires Inv(s) && SingleOccupancy(s.bookings, s.rooms) && room in s.rooms
    ensures !Shared(CheckInGuest(s, id).state.bookings)
    ensures Shared(CheckInGuest(MarkRoomClean(s, room).state, id).state.bookings) <==>
            id in s.bookings && s.bookings[id].status.Confirmed? && s.bookings[id].checkIn == Today(s.now)
            && s.bookings[id].room == room && !Empty(s, room)
  {
    MarkRoomCleanKeeps(s, room);
    hide Inv, CheckInGuest, Today;
    var after := MarkRoomClean(s, room).state;
    PrivateRoomsAreUnshared(s);
    assert Inv(s) && !Shared(after.bookings);
    CheckInSharesIff(s, id);
    CheckInSharesIff(after, id);
    if id in s.bookings { RoomOfBooking(s, id); }
  }

  lemma PrivateRoomsAreUnshared(s: State)
    requires SingleOccupancy(s.bookings, s.rooms)
    ensures !Shared(s.bookings)
  {}

  lemma RoomOfBooking(s: State, id: BookingId)
    requires Inv(s) && id in s.bookings
    ensures s.bookings[id].room in s.rooms
  {
    assert BookingOk(s.bookings[id], s.rooms, s.now);
  }

  lemma ArrivalShares(bookings: Bookings, id: BookingId)
    requires !Shared(bookings) && id in bookings && bookings[id].status.Confirmed?
    ensures Shared(WithStatus(bookings, id, CheckedIn)) <==> exists x <- bookings :: InHouseIn(bookings[x], bookings[id].room)
  {
    var after := WithStatus(bookings, id, CheckedIn);
    if x :| x in bookings && InHouseIn(bookings[x], bookings[id].room) {
      assert after[id].status.CheckedIn? && InHouseIn(after[x], after[id].room);
    }
    if x, y :| x in after && y in after && x != y && after[x].status.CheckedIn? && InHouseIn(after[y], after[x].room) {
      var other := if x == id then y else x;
      assert InHouseIn(bookings[other], bookings[id].room);
    }
  }

  // ------------------------------------------------ two guests in one room

  /** Two stays, back to back, booked under one hold. */
  const TWO_STAYS: seq<Step> := [
    PlaceHold(1, "ada"), Book(ADA, BookingRequest(None, 1, 0, 1)), Book(ADA, BookingRequest(None, 1, 1, 2))]

  function StayRow(night: Day, status: Status): Booking { Booking("ada", 1, night, night + 1, status, 35000.0, 0) }

  const CASH: Payment := Payment(35000.0, NAIRA, Offline, None, Some("desk"))

  function TwoStays(): State {
    OneRoom(35000.0).(nextId := 3, bookings := map[1 := StayRow(0, Processing), 2 := StayRow(1, Processing)],
                      holds := map[1 := Hold("ada", HOLD_TIME, false)])
  }

  lemma TwoStaysAreReachable()
    ensures Reachable(TwoStays())
  {
    hide Reachable;
    var s0 := OneRoom(35000.0);
    var s1 := s0.(holds := map[1 := Hold("ada", HOLD_TIME, false)]);
    var s2 := s1.(nextId := 2, bookings := map[1 := StayRow(0, Processing)]);
    InitialIsReachable(s0);
    StepIsReachable(s0, TWO_STAYS[0]);
    assert Exec(s0, TWO_STAYS[0]).state == s1;
    StepIsReachable(s1, TWO_STAYS[1]);
    assert NewBooking(s1, "ada", TWO_STAYS[1].req) == StayRow(0, Processing);
    assert Exec(s1, TWO_STAYS[1]).state == s2;
    StepIsReachable(s2, TWO_STAYS[2]);
    assert NewBooking(s2, "ada", TWO_STAYS[2].req) == StayRow(1, Processing);
    assert Exec(s2, TWO_STAYS[2]).state == TwoStays();
  }

  /** The first is paid, then both. */
  function PaidFirst(): State {
    TwoStays().(bookings := map[1 := StayRow(0, Confirmed), 2 := StayRow(1, Processing)],
                nights := map[Night(1, 0) := 1], payments := map[1 := CASH])
  }

  function PaidBoth(first: Status, second: Status): State {
    TwoStays().(bookings := map[1 := StayRow(0, first), 2 := StayRow(1, second)],
                nights := map[Night(1, 0) := 1, Night(1, 1) := 2], payments := map[1 := CASH, 2 := CASH])
  }

  function Closing(s: State): State { s.(rooms := map[1 := Room("standard", false, Clean)]) }

  lemma DeskTakesBoth()
    ensures RecordOfflinePayment(TwoStays(), 1, "desk", 35000.0, NAIRA).state == PaidFirst()
    ensures RecordOfflinePayment(PaidFirst(), 2, "desk", 35000.0, NAIRA).state == PaidBoth(Confirmed, Confirmed)
  {
    hide RecordOfflinePayment;
    DeskTakesFirst();
    DeskTakesSecond();
  }

  lemma DeskTakesFirst()
    ensures RecordOfflinePayment(TwoStays(), 1, "desk", 35000.0, NAIRA).state == PaidFirst()
  {
    OneNightRow(1, StayRow(0, Processing));
    hide NightKeys, NightRows;
    assert NightRows(1, StayRow(0, Processing)) == map[Night(1, 0) := 1];
  }

  lemma DeskTakesSecond()
    ensures RecordOfflinePayment(PaidFirst(), 2, "desk", 35000.0, NAIRA).state == PaidBoth(Confirmed, Confirmed)
  {
    OneNightRow(2, StayRow(1, Processing));
    hide NightKeys, NightRows;
    assert map[Night(1, 0) := 1] + map[Night(1, 1) := 2] == map[Night(1, 0) := 1, Night(1, 1) := 2];
  }

  /** The next morning: the guest of the first stay has not left, the second stay begins. */
  function NextMorning(): State { Closing(PaidBoth(CheckedIn, Confirmed)).(now := DAY) }

  lemma NextMorningIsReachable()
    ensures Reachable(NextMorning())
  {
    hide Reachable, PaidFirst, TwoStays, RecordOfflinePayment;
    TwoStaysAreReachable();
    DeskTakesBoth();
    StepIsReachable(TwoStays(), PayOffline(1, "desk", 35000.0, NAIRA));
    StepIsReachable(PaidFirst(), PayOffline(2, "desk", 35000.0, NAIRA));
    FirstArrives();
    StepIsReachable(PaidBoth(Confirmed, Confirmed), Arrive(1));
    StepIsReachable(Closing(PaidBoth(CheckedIn, Confirmed)), Tick(DAY));
    assert Exec(Closing(PaidBoth(CheckedIn, Confirmed)), Tick(DAY)).state == NextMorning() by { MorningComes(); }
  }

  lemma FirstArrives()
    ensures CheckInGuest(PaidBoth(Confirmed, Confirmed), 1).state == Closing(PaidBoth(CheckedIn, Confirmed))
  {}

  lemma MorningComes()
    ensures Exec(Closing(PaidBoth(CheckedIn, Confirmed)), Tick(DAY)).state == NextMorning()
  {}

  /** A cleaning report that comes too early really puts two guests in one room: from a fresh
      database, and without it the second check-in is refused. */
  lemma TwoGuestsInOneRoom()
    ensures Reachable(NextMorning()) && CheckInGuest(NextMorning(), 2) == Reply(NextMorning(), Raised(AlreadyCheckedIn))
    ensures var after := CheckInGuest(MarkRoomClean(NextMorning(), 1).state, 2).state;
            Reachable(after) && Shared(after.bookings)
            && after.bookings == map[1 := StayRow(0, CheckedIn), 2 := StayRow(1, CheckedIn)]
  {
    hide Reachable;
    NextMorningIsReachable();
    StepIsReachable(NextMorning(), CleanRoom(1));
    StepIsReachable(MarkRoomClean(NextMorning(), 1).state, Arrive(2));
    var after := CheckInGuest(MarkRoomClean(NextMorning(), 1).state, 2).state;
    assert after.bookings == map[1 := StayRow(0, CheckedIn), 2 := StayRow(1, CheckedIn)];
    assert after.bookings[1].status.CheckedIn? && InHouseIn(after.bookings[2], after.bookings[1].room);
  }

  // -------------------------------------------------------------- whole runs

  /** No operation but a check-in brings a guest into a room. */
  ghost predicate AdmitsNobody(before: Bookings, after: Bookings) {
    forall id <- after :: after[id].status.CheckedIn? ==> id in before && before[id] == after[id]
  }

  lemma NobodyYet(bookings: Bookings)
    ensures AdmitsNobody(bookings, bookings)
  {}

  lemma CancellingAdmitsNobody(bookings: Bookings, ids: set<BookingId>)
    ensures AdmitsNobody(bookings, CancelAll(bookings, ids))
  {}

  lemma SettleAdmitsNobody(s: State, ev: PaymentEvent, id: BookingId)
    requires id in s.bookings
    ensures AdmitsNobody(s.bookings, SettleBooking(s, ev, id).state.bookings)
    ensures SettleBooking(s, ev, id).state.rooms == s.rooms
  {
    hide SettleBooking;
    SettleWritesOneStatus(s, ev, id);
  }

  lemma DeliveryAdmitsNobody(s: State, ev: PaymentEvent)
    ensures AdmitsNobody(s.bookings, ProcessPaymentEvent(s, ev).state.bookings)
    ensures ProcessPaymentEvent(s, ev).state.rooms == s.rooms
  {
    hide SettleBooking, Ref, AdmitsNobody;
    NobodyYet(s.bookings);
    var found := FindByRef(s.bookings, ev.reference);
    if ev.id !in s.events && ev.kind == SUCCEEDED && found.Some? { SettleAdmitsNobody(s, ev, found.value); }
  }

  lemma BookingAdmitsNobody(s: State, client: User, req: BookingRequest)
    ensures AdmitsNobody(s.bookings, CreateBooking(s, client, req).state.bookings)
    ensures CreateBooking(s, client, req).state.rooms == s.rooms
  {
    hide BlockedByBooking, NightsTaken, ResolveGuest;
  }

  lemma DeskPaymentAdmitsNobody(s: State, id: BookingId, staff: Email, amount: real, currency: string)
    ensures AdmitsNobody(s.bookings, RecordOfflinePayment(s, id, staff, amount, currency).state.bookings)
    ensures RecordOfflinePayment(s, id, staff, amount, currency).state.rooms == s.rooms
  {
    hide PaymentClash, NightClash, NightRows, RightAmount;
  }

  lemma OthersAdmitNobody(s: State, step: Step)
    requires !step.Arrive? && !step.Depart? && !step.CleanRoom?
    ensures AdmitsNobody(s.bookings, Exec(s, step).state.bookings) && Exec(s, step).state.rooms == s.rooms
  {
    hide CreateBooking, RecordOfflinePayment, ProcessPaymentEvent, CancelAll, StaleIds, OwnHolds, AdmitsNobody;
    NobodyYet(s.bookings);
    match step
    case Book(client, req) => BookingAdmitsNobody(s, client, req);
    case PayOffline(id, staff, amount, currency) => DeskPaymentAdmitsNobody(s, id, staff, amount, currency);
    case Deliver(ev) => DeliveryAdmitsNobody(s, ev);
    case PayOnline(id, _, eventId) => if id in s.bookings { DeliveryAdmitsNobody(s, ProviderEvent(id, s.bookings[id], eventId)); }
    case SweepBookings(grace) => CancellingAdmitsNobody(s.bookings, StaleIds(s, grace));
    case _ =>
  }

  lemma AdmittingNobodyIsSafe(before: Bookings, after: Bookings, rooms: map<RoomId, Room>)
    requires AdmitsNobody(before, after) && SingleOccupancy(before, rooms)
    ensures SingleOccupancy(after, rooms)
  {}

  lemma ArrivalIsSafe(s: State, id: BookingId)
    requires SingleOccupancy(s.bookings, s.rooms)
    ensures SingleOccupancy(CheckInGuest(s, id).state.bookings, CheckInGuest(s, id).state.rooms)
  {}

  lemma DepartureIsSafe(s: State, id: BookingId)
    requires SingleOccupancy(s.bookings, s.rooms)
    ensures SingleOccupancy(CheckOutGuest(s, id).state.bookings, CheckOutGuest(s, id).state.rooms)
  {}

  /** Runs in which only empty rooms are reported clean. */
  ghost predicate Careful(s: State, steps: seq<Step>) {
    steps == [] ||
    var before, step := steps[..|steps| - 1], steps[|steps| - 1];
    Careful(s, before) && (step.CleanRoom? ==> Empty(Run(s, before), step.room))
  }

  /** In every careful run each checked in guest has a room of his own, closed to others. */
  lemma {:induction false} CarefulRunsKeepRoomsPrivate(s: State, steps: seq<Step>)
    requires Initial(s) && Careful(s, steps)
    ensures SingleOccupancy(Run(s, steps).bookings, Run(s, steps).rooms)
  {
    hide CheckInGuest, CheckOutGuest, MarkRoomClean, CreateBooking, RecordOfflinePayment, ProcessPaymentEvent, PayBooking,
      CancelStaleProcessing, HoldRoom, UpdateRoomType;
    if steps != [] {
      CarefulRunsKeepRoomsPrivate(s, steps[..|steps| - 1]);
      var before, step := Run(s, steps[..|steps| - 1]), steps[|steps| - 1];
      CarefulStepIsSafe(before, step);
    }
  }

  lemma CarefulStepIsSafe(s: State, step: Step)
    requires SingleOccupancy(s.bookings, s.rooms) && (step.CleanRoom? ==> Empty(s, step.room))
    ensures SingleOccupancy(Exec(s, step).state.bookings, Exec(s, step).state.rooms)
  {
    hide SingleOccupancy, CheckInGuest, CheckOutGuest, CreateBooking, RecordOfflinePayment, ProcessPaymentEvent,
      PayBooking, CancelStaleProcessing;
    match step
    case Arrive(id) => ArrivalIsSafe(s, id);
    case Depart(id) => DepartureIsSafe(s, id);
    case CleanRoom(room) => if room in s.rooms { CleaningIsSafeIffEmpty(s, room); }
    case _ =>
      OthersAdmitNobody(s, step);
      AdmittingNobodyIsSafe(s.bookings, Exec(s, step).state.bookings, s.rooms);
  }

  // ------------------------------------------------------ after a departure

  predicate Closed(rooms: map<RoomId, Room>, room: RoomId) {
    room in rooms && rooms[room].state.Dirty? && !rooms[room].isAvailable
  }

  lemma OnlyCleaningOpens(s: State, step: Step, room: RoomId)
    requires Closed(s.rooms, room) && step != CleanRoom(room)
    ensures Closed(Exec(s, step).state.rooms, room)
  {
    hide CreateBooking, RecordOfflinePayment, ProcessPaymentEvent, PayBooking, CancelStaleProcessing, HoldRoom, UpdateRoomType,
      AdmitsNobody;
    if !step.Arrive? && !step.Depart? && !step.CleanRoom? { OthersAdmitNobody(s, step); }
  }

  lemma {:induction false} ClosedUntilCleaned(s: State, steps: seq<Step>, room: RoomId)
    requires Closed(s.rooms, room) && CleanRoom(room) !in steps
    ensures Closed(Run(s, steps).rooms, room)
  {
    hide Exec;
    if steps != [] {
      ClosedUntilCleaned(s, steps[..|steps| - 1], room);
      OnlyCleaningOpens(Run(s, steps[..|steps| - 1]), steps[|steps| - 1], room);
    }
  }

  /** A departure leaves the room dirty and unsellable, and whatever happens next, until the
      room is marked clean nobody can hold it and nobody can be checked into it. */
  lemma SoldAgainOnlyAfterCleaning(s: State, id: BookingId, steps: seq<Step>, guest: Email, next: BookingId)
    requires CheckOutGuest(s, id).outcome == Ok(GuestOut)
    ensures id in s.bookings
    ensures var room, later := s.bookings[id].room, Run(CheckOutGuest(s, id).state, steps);
            CleanRoom(room) !in steps ==>
              && Closed(later.rooms, room)
              && HoldRoom(later, room, guest).outcome == Raised(RoomUnavailable)
              && (next in later.bookings && later.bookings[next].room == room ==> CheckInGuest(later, next).outcome.Raised?)
  {
    var room := s.bookings[id].room;
    var left := CheckOutGuest(s, id).state;
    assert Closed(left.rooms, room);
    hide CheckOutGuest, Run, Exec;
    if CleanRoom(room) !in steps { ClosedUntilCleaned(left, steps, room); }
  }
}
