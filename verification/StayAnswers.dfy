/** What check-in, check-out, housekeeping, repricing and the sweeps answer and write, case by
    case, told in plain rows, days and microseconds. */
module StayAnswers {
  import opened Model
  import opened Operations
  import opened Sweeps

  // ------------------------------------------------------- arriving and leaving

  /** Only a confirmed booking, only on its day of arrival, only into an open room. */
  lemma CheckInAnswers(s: State, id: BookingId)
    ensures id !in s.bookings ==> CheckInGuest(s, id) == Reply(s, Raised(BookingNotFound))
    ensures id in s.bookings ==>
      var b, r := s.bookings[id], CheckInGuest(s, id);
      && (b.status == CheckedIn ==> r == Reply(s, Raised(AlreadyCheckedIn)))
      && (b.status !in {CheckedIn, Confirmed} ==> r == Reply(s, Raised(BookingNotConfirmed)))
      && (b.status == Confirmed && b.checkIn != s.now / 86_400_000_000 ==> r == Reply(s, Raised(CheckInDateMismatch)))
      && (b.status == Confirmed && b.checkIn == s.now / 86_400_000_000 && b.room !in s.rooms ==> r == Reply(s, Raised(RoomMissing)))
      && (b.status == Confirmed && b.checkIn == s.now / 86_400_000_000 && b.room in s.rooms && !s.rooms[b.room].isAvailable ==>
            r == Reply(s, Raised(AlreadyCheckedIn)))
      && (b.status == Confirmed && b.checkIn == s.now / 86_400_000_000 && b.room in s.rooms && s.rooms[b.room].isAvailable ==>
            r == Reply(s.(bookings := s.bookings[id := b.(status := CheckedIn)],
                          rooms := s.rooms[b.room := Room(s.rooms[b.room].roomType, false, s.rooms[b.room].state)]), Ok(GuestIn)))
  {}

  /** Only a guest in house, only on the day of departure; who has left is told so again. */
  lemma CheckOutAnswers(s: State, id: BookingId)
    ensures id !in s.bookings ==> CheckOutGuest(s, id) == Reply(s, Raised(BookingNotFound))
    ensures id in s.bookings ==>
      var b, r := s.bookings[id], CheckOutGuest(s, id);
      && (b.status == Completed ==> r == Reply(s, Ok(AlreadyCheckedOut)))
      && (b.status !in {Completed, CheckedIn} ==> r == Reply(s, Raised(BookingNotCheckedIn)))
      && (b.status == CheckedIn && b.checkOut != s.now / 86_400_000_000 ==> r == Reply(s, Raised(CheckOutDateMismatch)))
      && (b.status == CheckedIn && b.checkOut == s.now / 86_400_000_000 && b.room !in s.rooms ==> r == Reply(s, Raised(RoomMissing)))
      && (b.status == CheckedIn && b.checkOut == s.now / 86_400_000_000 && b.room in s.rooms ==>
            r == Reply(s.(bookings := s.bookings[id := b.(status := Completed)],
                          rooms := s.rooms[b.room := Room(s.rooms[b.room].roomType, false, Dirty)]), Ok(GuestOut)))
  {}

  /** Checking out twice is checking out once. */
  lemma CheckOutAgain(s: State, id: BookingId)
    requires CheckOutGuest(s, id).outcome.Ok?
    ensures var left := CheckOutGuest(s, id).state; CheckOutGuest(left, id) == Reply(left, Ok(AlreadyCheckedOut))
  {}

  /** Cleaning opens the room, and is told apart from cleaning a clean room; doing it twice is
      doing it once. */
  lemma CleanAnswers(s: State, room: RoomId)
    ensures room !in s.rooms ==> MarkRoomClean(s, room) == Reply(s, Raised(RoomNotFound))
    ensures room in s.rooms ==>
      MarkRoomClean(s, room) == Reply(s.(rooms := s.rooms[room := Room(s.rooms[room].roomType, true, Clean)]),
                                      Ok(if s.rooms[room].state == Dirty then MarkedClean else AlreadyClean))
    ensures room in s.rooms ==>
      var once := MarkRoomClean(s, room).state; MarkRoomClean(once, room) == Reply(once, Ok(AlreadyClean))
  {}

  /** Repricing writes the positive values it is given, keeps the others, and touches no booking. */
  lemma RepriceAnswers(s: State, name: string, rate: Option<real>, capacity: Option<int>)
    ensures var r := UpdateRoomType(s, name, rate, capacity);
            var bad := (rate == None && capacity == None) || (rate != None && rate.value <= 0.0) || (capacity != None && capacity.value <= 0);
            && (bad ==> r == Reply(s, Raised(BadPatch)))
            && (!bad && name !in s.roomTypes ==> r == Reply(s, Raised(RoomTypeMissing)))
            && (!bad && name in s.roomTypes ==>
                  && r.outcome == Ok(RateChanged) && r.state == s.(roomTypes := r.state.roomTypes)
                  && r.state.roomTypes.Keys == s.roomTypes.Keys
                  && (forall other <- s.roomTypes | other != name :: r.state.roomTypes[other] == s.roomTypes[other])
                  && (rate != None ==> r.state.roomTypes[name].baseRate == rate.value)
                  && (rate == None ==> r.state.roomTypes[name].baseRate == s.roomTypes[name].baseRate)
                  && (capacity != None ==> r.state.roomTypes[name].capacity == capacity.value)
                  && (capacity == None ==> r.state.roomTypes[name].capacity == s.roomTypes[name].capacity))
  {}

  // ----------------------------------------------------------------- the sweeps

  /** The hold sweep removes what is over or used up, leaves the rest as it is, and counts. */
  lemma HoldSweepAnswers(s: State)
    ensures var r := DeleteExpiredHolds(s);
            && r.state == s.(holds := r.state.holds) && r.state.holds.Keys <= s.holds.Keys
            && (forall room <- s.holds ::
                  if s.holds[room].expiresAt <= s.now || s.holds[room].consumed then room !in r.state.holds
                  else room in r.state.holds && r.state.holds[room] == s.holds[room])
            && r.outcome == Ok(Swept(|s.holds| - |r.state.holds|))
  {
    var r := DeleteExpiredHolds(s);
    assert r.state.holds.Keys == s.holds.Keys - DeadHolds(s);
    assert |s.holds.Keys| == |s.holds| && |r.state.holds.Keys| == |r.state.holds|;
  }

  /** Waiting for money for the grace and ten minutes more, or past the day of arrival. */
  predicate Abandoned(b: Booking, now: Instant, grace: int) {
    b.status == Processing && (now - b.createdAt >= (grace + 10) * 60_000_000 || b.checkIn < now / 86_400_000_000)
  }

  lemma AbandonedIs(b: Booking, now: Instant, grace: int)
    ensures Abandoned(b, now, grace) <==> Stale(b, now, grace)
  {}

  /** The booking sweep cancels the abandoned bookings, drops the holds of their guests on their
      rooms, counts them, and leaves everything else as it is. */
  lemma BookingSweepAnswers(s: State, grace: int)
    ensures var r := CancelStaleProcessing(s, grace);
            && r.state == s.(bookings := r.state.bookings, holds := r.state.holds)
            && r.state.bookings.Keys == s.bookings.Keys && r.state.holds.Keys <= s.holds.Keys
            && (forall id <- s.bookings ::
                  r.state.bookings[id] == if Abandoned(s.bookings[id], s.now, grace) then s.bookings[id].(status := Cancelled)
                                          else s.bookings[id])
            && (forall room <- s.holds ::
                  if exists id <- s.bookings :: Abandoned(s.bookings[id], s.now, grace) && s.bookings[id].room == room
                                                && s.bookings[id].guest == s.holds[room].guest
                  then room !in r.state.holds
                  else room in r.state.holds && r.state.holds[room] == s.holds[room])
            && r.outcome == Ok(Swept(|set id <- s.bookings | Abandoned(s.bookings[id], s.now, grace)|))
  {
    SweepIsExact(s, grace);
    var r := CancelStaleProcessing(s, grace);
    forall id | id in s.bookings ensures Abandoned(s.bookings[id], s.now, grace) <==> Stale(s.bookings[id], s.now, grace) {
      AbandonedIs(s.bookings[id], s.now, grace);
    }
    assert (set id <- s.bookings | Abandoned(s.bookings[id], s.now, grace)) == StaleIds(s, grace);
    hide Abandoned, Stale;
  }

  /** At ten minutes, with the default grace of three, a booking is left alone; at thirteen it
      is not. */
  lemma DefaultGrace(b: Booking, now: Instant)
    requires b.status == Processing && now / 86_400_000_000 <= b.checkIn
    ensures GRACE_MINUTES == 3
    ensures now - b.createdAt == 600_000_000 ==> !Abandoned(b, now, GRACE_MINUTES)
    ensures now - b.createdAt >= 780_000_000 <==> Abandoned(b, now, GRACE_MINUTES)
  {}
}
