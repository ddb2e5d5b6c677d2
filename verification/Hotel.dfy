/** The operations as they run: guarded sequences of statements over the tables of one
    database object, each proved to do exactly what Operations.dfy says. */
module Hotel {
  import opened Model
  import opened Operations

  /** One round of the sweep's loop: cancelling one more booking, and its hold. */
  lemma CancelOneMore(s: State, done: set<BookingId>, id: BookingId)
    requires done <= s.bookings.Keys && id in s.bookings && id !in done
    ensures CancelAll(s.bookings, done)[id := s.bookings[id].(status := Cancelled)] == CancelAll(s.bookings, done + {id})
    ensures s.holds - OwnHolds(s, done + {id}) ==
      var b, rest := s.bookings[id], s.holds - OwnHolds(s, done);
      if b.room in rest && rest[b.room].guest == b.guest then rest - {b.room} else rest
  {
    var b := s.bookings[id];
    var own := if b.room in s.holds && s.holds[b.room].guest == b.guest then {b.room} else {};
    assert OwnHolds(s, done + {id}) == OwnHolds(s, done) + own;
  }

  class Database {
    var users: map<Email, Role>
    var roomTypes: map<string, RoomType>
    var rooms: map<RoomId, Room>
    var bookings: map<BookingId, Booking>
    var holds: map<RoomId, Hold>
    var nights: map<Night, BookingId>
    var payments: map<BookingId, Payment>
    var events: map<EventId, EventRow>
    var nextId: BookingId
    var now: Instant

    function View(): State
      reads this
    {
      State(users, roomTypes, rooms, bookings, holds, nights, payments, events, nextId, now)
    }

    /** A freshly migrated database: staff accounts, room types and rooms, nothing sold. */
    constructor (users: map<Email, Role>, roomTypes: map<string, RoomType>, rooms: map<RoomId, Room>, now: Instant)
      ensures View() == State(users, roomTypes, rooms, map[], map[], map[], map[], map[], 1, now)
    {
      this.users, this.roomTypes, this.rooms, this.now := users, roomTypes, rooms, now;
      bookings, holds, nights, payments, events, nextId := map[], map[], map[], map[], map[], 1;
    }

    method HoldRoom(room: RoomId, guest: Email) returns (outcome: Outcome)
      modifies this`holds
      ensures Reply(View(), outcome) == Operations.HoldRoom(old(View()), room, guest)
    {
      if room !in rooms { return Raised(RoomMissing); }
      if !rooms[room].isAvailable { return Raised(RoomUnavailable); }
      if room in holds { return Raised(RoomAlreadyHeld); }
      holds := holds[room := Hold(guest, now + HOLD_TIME, false)];
      return Ok(Held);
    }

    method CreateBooking(client: User, req: BookingRequest) returns (outcome: Outcome)
      modifies this`bookings, this`holds, this`nextId
      ensures Reply(View(), outcome) == Operations.CreateBooking(old(View()), client, req)
    {
      var guest := client.email;
      if !client.role.Guest? {
        if req.guest.None? { return Raised(GuestNotFound); }
        guest := req.guest.value;
        if guest !in users { return Raised(GuestNotFound); }
        if !users[guest].Guest? { return Raised(NotAGuest); }
      }
      if req.checkOut <= req.checkIn || req.checkIn < Today(now) { return Raised(BadDates); }
      if req.room !in rooms { return Raised(RoomMissing); }
      var room := rooms[req.room];
      if !room.isAvailable { return Raised(RoomUnavailable); }
      if req.room !in holds { return Raised(HoldMissing); }
      var hold := holds[req.room];
      if hold.guest != guest { return Raised(HoldMismatch); }
      if hold.consumed || hold.expiresAt <= now {
        holds := holds - {req.room};
        return Raised(HoldExpired);
      }
      if BlockedByBooking(View(), req.room, req.checkIn, req.checkOut) { return Raised(RoomUnavailable); }
      assert View() == old(View());
      var taken := NightsTaken(View(), req.room, req.checkIn, req.checkOut);
      if taken != {} { return Raised(RoomUnavailable); }
      if room.roomType !in roomTypes { return Raised(RateMissing); }
      var nights := req.checkOut - req.checkIn;
      var total := roomTypes[room.roomType].baseRate * nights as real;
      var booking := Booking(guest, req.room, req.checkIn, req.checkOut, Processing, total, now);
      assert booking == NewBooking(View(), guest, req);
      outcome := Ok(Booked(nextId));
      bookings := bookings[nextId := booking];
      nextId := nextId + 1;
    }

    /** Stages one row per night of the stay; the caller's commit inserts them. */
    method AddRoomNights(id: BookingId, b: Booking) returns (staged: map<Night, BookingId>)
      ensures staged == NightRows(id, b)
    {
      staged := map[];
      var night := b.checkIn;
      while night < b.checkOut
        invariant forall n :: n in staged <==> n.room == b.room && b.checkIn <= n.day < night && n.day < b.checkOut
        invariant forall n <- staged :: staged[n] == id
      {
        staged := staged[Night(b.room, night) := id];
        night := night + 1;
      }
      forall n ensures n in staged <==> n in NightKeys(b) { NightKeysAre(b, n); }
    }

    method RecordOfflinePayment(id: BookingId, staff: Email, amount: real, currency: string)
      returns (outcome: Outcome)
      modifies this`bookings, this`nights, this`payments
      ensures Reply(View(), outcome) == Operations.RecordOfflinePayment(old(View()), id, staff, amount, currency)
    {
      if id !in bookings { return Raised(BookingMissing); }
      var b := bookings[id];
      if b.status != Processing { return Raised(NotProcessing); }
      if currency != NAIRA || !Close(amount, b.total) { return Raised(AmountMismatch); }
      if b.room !in rooms { return Raised(RoomUnavailable); }
      var staged := AddRoomNights(id, b);
      var payment := Payment(amount, currency, Offline, None, Some(staff));
      if PaymentClash(payments, id, payment) || exists n <- staged :: n in nights {
        return Raised(KeyClash);
      }
      bookings := bookings[id := b.(status := Confirmed)];
      nights := nights + staged;
      payments := payments[id := payment];
      return Ok(PaidOffline(id));
    }

    /** Inserts the event row; false when another delivery already has. */
    method RecordEvent(ev: PaymentEvent) returns (won: bool)
      modifies this`events
      ensures won == (ev.id !in old(events))
      ensures events == if won then old(events)[ev.id := Row(ev)] else old(events)
    {
      won := ev.id !in events;
      if won { events := events[ev.id := Row(ev)]; }
    }

    method ProcessPaymentEvent(ev: PaymentEvent) returns (outcome: Outcome)
      modifies this`bookings, this`holds, this`nights, this`payments, this`events
      ensures Reply(View(), outcome) == Operations.ProcessPaymentEvent(old(View()), ev)
    {
      hide FindByRef, Ref, PaymentClash;
      if ev.id in events { return Ok(Duplicate); }
      if ev.kind != SUCCEEDED {
        var won := RecordEvent(ev);
        return Ok(if won then Ignored else Duplicate);
      }
      var found := FindByRef(bookings, ev.reference);
      if found.None? {
        var won := RecordEvent(ev);
        return Ok(if won then Orphan else Duplicate);
      }
      var id := found.value;
      var b := bookings[id];
      if b.status != Processing {
        var _ := RecordEvent(ev);
        return Ok(Duplicate);
      }
      if ev.currency != NAIRA || !Close(ev.amount, b.total) { return Raised(AmountMismatch); }
      if b.room !in holds || !Live(holds[b.room], now) || holds[b.room].guest != b.guest {
        bookings := bookings[id := b.(status := Cancelled)];
        var won := RecordEvent(ev);
        return if won then Raised(HoldGone) else Ok(Duplicate);
      }
      if b.room !in rooms { return Raised(AmountMismatch); }
      var staged := AddRoomNights(id, b);
      var payment := OnlinePayment(ev);
      if PaymentClash(payments, id, payment) || exists n <- staged :: n in nights {
        return Raised(KeyClash);
      }
      bookings := bookings[id := b.(status := Confirmed)];
      holds := holds - {b.room};
      nights := nights + staged;
      events := events[ev.id := Row(ev)];
      payments := payments[id := payment];
      return Ok(PaidOnline(id));
    }

    method PayBooking(id: BookingId, guest: Email, eventId: EventId) returns (outcome: Outcome)
      modifies this`bookings, this`holds, this`nights, this`payments, this`events
      ensures Reply(View(), outcome) == Operations.PayBooking(old(View()), id, guest, eventId)
    {
      if id !in bookings { return Raised(BookingMissing); }
      var b := bookings[id];
      if b.guest != guest { return Raised(NotYours); }
      if b.status == Confirmed { return Ok(AlreadyPaid); }
      if b.status != Processing { return Raised(NotProcessing); }
      var ev := ProviderEvent(id, b, eventId);
      if ev.amount > 0.0 {
        var _ := ProcessPaymentEvent(ev);
      }
      if id !in bookings { return Raised(PaymentNotConfirmed); }
      if bookings[id].status == Cancelled { return Raised(HoldGone); }
      if bookings[id].status != Confirmed { return Raised(PaymentNotConfirmed); }
      return Ok(PaymentDone(id));
    }

    method CheckInGuest(id: BookingId) returns (outcome: Outcome)
      modifies this`bookings, this`rooms
      ensures Reply(View(), outcome) == Operations.CheckInGuest(old(View()), id)
    {
      if id !in bookings { return Raised(BookingNotFound); }
      var b := bookings[id];
      if b.status == CheckedIn { return Raised(AlreadyCheckedIn); }
      if b.status != Confirmed { return Raised(BookingNotConfirmed); }
      if b.checkIn != Today(now) { return Raised(CheckInDateMismatch); }
      if b.room !in rooms { return Raised(RoomMissing); }
      if !rooms[b.room].isAvailable { return Raised(AlreadyCheckedIn); }
      bookings := bookings[id := b.(status := CheckedIn)];
      rooms := rooms[b.room := rooms[b.room].(isAvailable := false)];
      return Ok(GuestIn);
    }

    method CheckOutGuest(id: BookingId) returns (outcome: Outcome)
      modifies this`bookings, this`rooms
      ensures Reply(View(), outcome) == Operations.CheckOutGuest(old(View()), id)
    {
      if id !in bookings { return Raised(BookingNotFound); }
      var b := bookings[id];
      if b.status == Completed { return Ok(AlreadyCheckedOut); }
      if b.status != CheckedIn { return Raised(BookingNotCheckedIn); }
      if b.checkOut != Today(now) { return Raised(CheckOutDateMismatch); }
      if b.room !in rooms { return Raised(RoomMissing); }
      rooms := rooms[b.room := rooms[b.room].(isAvailable := false)];
      rooms := rooms[b.room := rooms[b.room].(state := Dirty)];
      bookings := bookings[id := b.(status := Completed)];
      return Ok(GuestOut);
    }

    method MarkRoomClean(room: RoomId) returns (outcome: Outcome)
      modifies this`rooms
      ensures Reply(View(), outcome) == Operations.MarkRoomClean(old(View()), room)
    {
      if room !in rooms { return Raised(RoomNotFound); }
      var alreadyClean := rooms[room].state.Clean?;
      rooms := rooms[room := rooms[room].(state := Clean)];
      rooms := rooms[room := rooms[room].(isAvailable := true)];
      return Ok(if alreadyClean then AlreadyClean else MarkedClean);
    }

    method UpdateRoomType(name: string, rate: Option<real>, capacity: Option<int>) returns (outcome: Outcome)
      modifies this`roomTypes
      ensures Reply(View(), outcome) == Operations.UpdateRoomType(old(View()), name, rate, capacity)
    {
      if rate.None? && capacity.None? { return Raised(BadPatch); }
      if rate.Some? && rate.value <= 0.0 { return Raised(BadPatch); }
      if capacity.Some? && capacity.value <= 0 { return Raised(BadPatch); }
      if name !in roomTypes { return Raised(RoomTypeMissing); }
      var row := roomTypes[name];
      if rate.Some? { row := row.(baseRate := rate.value); }
      if capacity.Some? { row := row.(capacity := capacity.value); }
      roomTypes := roomTypes[name := row];
      return Ok(RateChanged);
    }

    method DeleteExpiredHolds() returns (removed: nat)
      modifies this`holds
      ensures Reply(View(), Ok(Swept(removed))) == Operations.DeleteExpiredHolds(old(View()))
    {
      var stale: set<RoomId> := DeadHolds(View());
      var left: set<RoomId> := stale;
      while left != {}
        invariant left <= stale
        invariant holds == old(holds) - (stale - left)
      {
        var room := Pick(left);
        holds := holds - {room};
        left := left - {room};
      }
      removed := |stale|;
    }

    method CancelStaleProcessing(grace: int) returns (cancelled: nat)
      modifies this`bookings, this`holds
      ensures Reply(View(), Ok(Swept(cancelled))) == Operations.CancelStaleProcessing(old(View()), grace)
    {
      var stale := StaleIds(View(), grace);
      var left: set<RoomId> := stale;
      while left != {}
        invariant left <= stale <= old(bookings).Keys
        invariant bookings == CancelAll(old(bookings), stale - left)
        invariant holds == old(holds) - OwnHolds(old(View()), stale - left)
      {
        var id := Pick(left);
        CancelOneMore(old(View()), stale - left, id);
        var b := bookings[id];
        bookings := bookings[id := b.(status := Cancelled)];
        if b.room in holds && holds[b.room].guest == b.guest {
          holds := holds - {b.room};
        }
        assert stale - (left - {id}) == stale - left + {id};
        left := left - {id};
      }
      cancelled := |stale|;
    }
  }
}
