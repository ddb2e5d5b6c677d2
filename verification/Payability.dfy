/** Can a guest who holds and books a room actually pay for it online? */
module Payability {
  import opened Model
  import opened Operations
  import opened Invariant
  import opened Sales
  import opened Search
  import opened Lifecycle

  /** The provider only charges whole naira: the rounded total must be positive and within a
      kobo of the total. */
  predicate Payable(total: real) { RoundHalfEven(total) >= 1 && Close(RoundHalfEven(total) as real, total) }

  lemma WholeTotalsArePayable(n: int)
    requires n >= 1
    ensures Payable(n as real)
  {
    RoundOfWhole(n);
  }

  /** What online payment does to a booking that waits for it, for a fresh event: a payable
      total with the hold in place confirms, without the hold it cancels, and a total that
      cannot be charged changes nothing. */
  lemma OnlinePaymentOutcome(s: State, id: BookingId, guest: Email, eventId: EventId)
    requires Inv(s) && id in s.bookings && s.bookings[id].status.Processing? && s.bookings[id].guest == guest
    requires eventId !in s.events
    ensures var b, r := s.bookings[id], PayBooking(s, id, guest, eventId);
            var ev := ProviderEvent(id, b, eventId);
            r == if !Payable(b.total) then Reply(s, Raised(PaymentNotConfirmed))
                 else if HoldBacks(s, b) then
                   Reply(Confirm(Logged(s, ev), id, OnlinePayment(ev)).(holds := s.holds - {b.room}), Ok(PaymentDone(id)))
                 else Reply(Logged(s, ev).(bookings := WithStatus(s.bookings, id, Cancelled)), Raised(HoldGone))
  {
    hide HoldsOk, RoomsOk, PaymentsOk, NightsOk, Disjoint, ProcessPaymentEvent, PaymentClash, NightClash, NightRows, Ref;
    var ev := ProviderEvent(id, s.bookings[id], eventId);
    ProviderDelivery(s, id, eventId);
    SettleNeverClashes(s, ev, id);
    assert BookingOk(s.bookings[id], s.rooms, s.now);
  }

  /** Hold, book, wait less than ten minutes, pay. */
  function HoldBookAndPay(s: State, room: RoomId, guest: Email, checkIn: Day, checkOut: Day, wait: nat, eventId: EventId): Reply {
    var held := HoldRoom(s, room, guest).state;
    var booked := CreateBooking(held, User(guest, Guest), OwnStay(room, checkIn, checkOut)).state;
    PayBooking(booked.(now := booked.now + wait), s.nextId, guest, eventId)
  }

  function Price(s: State, room: RoomId, checkIn: Day, checkOut: Day): real
    requires room in s.rooms && s.rooms[room].roomType in s.roomTypes
  {
    s.roomTypes[s.rooms[room].roomType].baseRate * (checkOut - checkIn) as real
  }

  /** The state in which the guest of HoldBookAndPay comes to pay. */
  lemma BookedState(s: State, room: RoomId, guest: Email, checkIn: Day, checkOut: Day)
    requires Inv(s) && Bookable(s, room, guest, checkIn, checkOut)
    ensures room in s.rooms && s.rooms[room].roomType in s.roomTypes
    ensures var held := HoldRoom(s, room, guest).state;
            CreateBooking(held, User(guest, Guest), OwnStay(room, checkIn, checkOut)).state
            == held.(nextId := s.nextId + 1, bookings := s.bookings[s.nextId :=
                 Booking(guest, room, checkIn, checkOut, Processing, Price(s, room, checkIn, checkOut), s.now)])
    ensures HoldRoom(s, room, guest).state == s.(holds := s.holds[room := Hold(guest, s.now + HOLD_TIME, false)])
  {
    hide BookingsOk, HoldsOk, PaymentsOk, NightsOk, Disjoint, BlockedByBooking, NightsTaken;
    assert NewBooking(HoldRoom(s, room, guest).state, guest, OwnStay(room, checkIn, checkOut))
        == Booking(guest, room, checkIn, checkOut, Processing, Price(s, room, checkIn, checkOut), s.now);
  }

  /** From any consistent state, a guest who gets the room and pays in time ends with a
      confirmed booking, the payment, every night and no hold left, exactly when the price
      can be charged; otherwise the booking just stays unpaid. */
  lemma HoldBookAndPayWorksIffPayable(
      s: State, room: RoomId, guest: Email, checkIn: Day, checkOut: Day, wait: nat, eventId: EventId)
    requires Inv(s) && Bookable(s, room, guest, checkIn, checkOut) && wait < HOLD_TIME && eventId !in s.events
    ensures room in s.rooms && s.rooms[room].roomType in s.roomTypes
    ensures var r, price := HoldBookAndPay(s, room, guest, checkIn, checkOut, wait, eventId), Price(s, room, checkIn, checkOut);
            if Payable(price) then
              r.outcome == Ok(PaymentDone(s.nextId)) && s.nextId in r.state.bookings
              && r.state.bookings[s.nextId]
                 == Booking(guest, room, checkIn, checkOut, Confirmed, price, s.now)
              && r.state.payments == s.payments[s.nextId :=
                   Payment(RoundHalfEven(price) as real, NAIRA, Online, Some(eventId), None)]
              && r.state.nights == s.nights + NightRows(s.nextId, r.state.bookings[s.nextId])
              && room !in r.state.holds
            else
              r.outcome == Raised(PaymentNotConfirmed) && s.nextId in r.state.bookings
              && r.state.bookings[s.nextId].status.Processing?
              && r.state.payments == s.payments && r.state.nights == s.nights && room in r.state.holds
  {
    hide CreateBooking, HoldRoom, PayBooking, Inv, Price, Payable, NightKeys;
    BookedState(s, room, guest, checkIn, checkOut);
    var held := HoldRoom(s, room, guest).state;
    HoldRoomKeeps(s, room, guest);
    CreateBookingKeeps(held, User(guest, Guest), OwnStay(room, checkIn, checkOut));
    var booked := CreateBooking(held, User(guest, Guest), OwnStay(room, checkIn, checkOut)).state;
    TickKeeps(booked, wait);
    OnlinePaymentOutcome(booked.(now := booked.now + wait), s.nextId, guest, eventId);
    SameStaySameNights(booked.bookings[s.nextId], booked.bookings[s.nextId].(status := Confirmed));
  }

  /** Whole rates can always be paid for. */
  lemma WholeRatesArePayable(s: State, room: RoomId, checkIn: Day, checkOut: Day, rate: int)
    requires Inv(s) && room in s.rooms && s.rooms[room].roomType in s.roomTypes && checkIn < checkOut
    requires s.roomTypes[s.rooms[room].roomType].baseRate == rate as real
    ensures Payable(Price(s, room, checkIn, checkOut))
  {
    var nights := checkOut - checkIn;
    assert s.roomTypes[s.rooms[room].roomType].baseRate > 0.0;
    hide Inv;
    assert Price(s, room, checkIn, checkOut) == rate as real * nights as real;
    assert rate as real * nights as real == (rate * nights) as real;
    assert rate * nights >= 1;
    WholeTotalsArePayable(rate * nights);
  }

  /** Half a naira in the rate is enough to make an odd number of nights unpayable online. */
  lemma FractionalRateIsUnpayable()
    ensures !Payable(35000.5) && Payable(35000.5 * 2.0)
  {
    WholeTotalsArePayable(70001);
  }

  /** In a hotel that asks half a naira, the guest of one night cannot pay online, however
      quick: the hold, the booking and the refusal, from a freshly migrated database. */
  lemma HalfNairaGuestCannotPay(wait: nat)
    requires wait < HOLD_TIME
    ensures Reachable(OneRoom(35000.5)) && Bookable(OneRoom(35000.5), 1, "ada", 0, 1)
    ensures var r := HoldBookAndPay(OneRoom(35000.5), 1, "ada", 0, 1, wait, "evt");
            r.outcome == Raised(PaymentNotConfirmed) && r.state.payments == map[]
  {
    var s := OneRoom(35000.5);
    InitialIsReachable(s);
    BookableWhen(s, 1, "ada", 0, 1);
    assert Price(s, 1, 0, 1) == 35000.5;
    FractionalRateIsUnpayable();
    hide Payable, HoldBookAndPay, Bookable, Price, Reachable;
    HoldBookAndPayWorksIffPayable(s, 1, "ada", 0, 1, wait, "evt");
  }
}
