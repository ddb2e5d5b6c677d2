/** What the searches promise: they list exactly the rooms that can really be booked. */
module Search {
  import opened Model
  import opened Operations
  import opened Invariant

  // ----------------------------------------------- the two overlap rules agree

  /** The night index is the overlap query over paid stays, told in rows. */
  lemma NightIndexIsPaidOverlap(s: State, room: RoomId, checkIn: Day, checkOut: Day)
    requires Inv(s) && checkIn < checkOut
    ensures NightsTaken(s, room, checkIn, checkOut) != {} <==>
            exists id <- s.bookings :: s.bookings[id].room == room && Paid(s.bookings[id].status)
                                       && Overlaps(s.bookings[id], checkIn, checkOut)
  {
    if d :| d in NightsTaken(s, room, checkIn, checkOut) {
      var n :| n in s.nights && n.room == room && checkIn <= n.day < checkOut;
      var b := s.bookings[s.nights[n]];
      assert NightOk(n, b);
      assert Overlaps(b, checkIn, checkOut);
    }
    if id :| id in s.bookings && s.bookings[id].room == room && Paid(s.bookings[id].status)
             && Overlaps(s.bookings[id], checkIn, checkOut) {
      PaidOverlapIsTaken(s, id, checkIn, checkOut);
    }
  }

  /** For stays that do not begin in the past the second check of create_booking is never
      the one that refuses: completed stays have already left. */
  lemma SecondOverlapCheckIsRedundant(s: State, room: RoomId, checkIn: Day, checkOut: Day)
    requires Inv(s) && Today(s.now) <= checkIn < checkOut
    requires !BlockedByBooking(s, room, checkIn, checkOut)
    ensures NightsTaken(s, room, checkIn, checkOut) == {}
  {
    NightIndexIsPaidOverlap(s, room, checkIn, checkOut);
    forall id | id in s.bookings && s.bookings[id].room == room && Paid(s.bookings[id].status)
      ensures !Overlaps(s.bookings[id], checkIn, checkOut)
    {
      assert BookingOk(s.bookings[id], s.rooms, s.now);
      assert !Blocks(s.bookings[id], room, checkIn, checkOut);
    }
  }

  /** The search and create_booking use different rules for what is in the way; for stays
      that do not begin in the past they mean the same. */
  lemma RulesAgree(s: State, room: RoomId, checkIn: Day, checkOut: Day)
    requires Inv(s) && Today(s.now) <= checkIn < checkOut
    ensures Conflicts(s, room, checkIn, checkOut) <==>
            BlockedByBooking(s, room, checkIn, checkOut) || NightsTaken(s, room, checkIn, checkOut) != {}
  {
    if !BlockedByBooking(s, room, checkIn, checkOut) {
      SecondOverlapCheckIsRedundant(s, room, checkIn, checkOut);
      forall id | id in s.bookings && s.bookings[id].room == room && !s.bookings[id].status.Cancelled?
        ensures !Overlaps(s.bookings[id], checkIn, checkOut)
      {
        assert BookingOk(s.bookings[id], s.rooms, s.now);
        assert !Blocks(s.bookings[id], room, checkIn, checkOut);
      }
    } else {
      var id :| id in s.bookings && Blocks(s.bookings[id], room, checkIn, checkOut);
    }
  }

  // --------------------------------------------------------- search is bookable

  function OwnStay(room: RoomId, checkIn: Day, checkOut: Day): BookingRequest {
    BookingRequest(None, room, checkIn, checkOut)
  }

  /** A guest can place a hold on the room and then book the stay. */
  predicate Bookable(s: State, room: RoomId, guest: Email, checkIn: Day, checkOut: Day) {
    var held := HoldRoom(s, room, guest);
    held.outcome.Ok? && CreateBooking(held.state, User(guest, Guest), OwnStay(room, checkIn, checkOut)).outcome.Ok?
  }

  lemma BookableWhen(s: State, room: RoomId, guest: Email, checkIn: Day, checkOut: Day)
    requires Inv(s) && Today(s.now) <= checkIn < checkOut
    ensures Bookable(s, room, guest, checkIn, checkOut) <==>
            room in s.rooms && s.rooms[room].isAvailable && room !in s.holds && !Conflicts(s, room, checkIn, checkOut)
  {
    var held := HoldRoom(s, room, guest);
    if held.outcome.Ok? {
      RulesAgree(s, room, checkIn, checkOut);
      assert BlockedByBooking(held.state, room, checkIn, checkOut) <==> BlockedByBooking(s, room, checkIn, checkOut);
      assert NightsTaken(held.state, room, checkIn, checkOut) == NightsTaken(s, room, checkIn, checkOut);
    }
  }

  /** The search is exact but for rooms that still carry the row of a dead hold. */
  lemma SearchFindsBookableRooms(s: State, room: RoomId, guest: Email, checkIn: Day, checkOut: Day, roomType: string)
    requires Inv(s) && Today(s.now) <= checkIn < checkOut
    ensures room in s.rooms && s.rooms[room].roomType == roomType && Bookable(s, room, guest, checkIn, checkOut)
            <==> room in SearchAvailableRooms(s, checkIn, checkOut, roomType) && room !in s.holds
  {
    BookableWhen(s, room, guest, checkIn, checkOut);
  }

  /** Right after the hold sweep the search lists precisely what any guest can book. */
  lemma SearchIsExactAfterSweep(s: State, guest: Email, checkIn: Day, checkOut: Day, roomType: string)
    requires Inv(s) && Today(s.now) <= checkIn < checkOut
    ensures var swept := DeleteExpiredHolds(s).state;
            SearchAvailableRooms(swept, checkIn, checkOut, roomType) ==
            set r <- swept.rooms | swept.rooms[r].roomType == roomType && Bookable(swept, r, guest, checkIn, checkOut)
  {
    var swept := DeleteExpiredHolds(s).state;
    ReleaseKeeps(s, DeadHolds(s));
    forall r ensures r in SearchAvailableRooms(swept, checkIn, checkOut, roomType) <==>
                     r in swept.rooms && swept.rooms[r].roomType == roomType && Bookable(swept, r, guest, checkIn, checkOut)
    {
      SearchFindsBookableRooms(swept, r, guest, checkIn, checkOut, roomType);
      assert r in swept.holds ==> ActivelyHeld(swept, r);
    }
  }

  /** One room, held and then left alone for an hour. */
  function AfterDeadHold(): State {
    Exec(Exec(OneRoom(35000.0), PlaceHold(1, "tunde")).state, Tick(60 * MINUTE)).state
  }

  /** Before the sweep the search can promise too much: a hold that has run out hides no
      room from it, yet the row of that hold still refuses the next guest. */
  lemma DeadHoldMisleadsTheSearch()
    ensures Reachable(AfterDeadHold())
    ensures 1 in SearchAvailableRooms(AfterDeadHold(), 1, 2, "standard")
    ensures HoldRoom(AfterDeadHold(), 1, "ngozi").outcome == Raised(RoomAlreadyHeld)
    ensures !Bookable(AfterDeadHold(), 1, "ngozi", 1, 2)
  {
    InitialIsReachable(OneRoom(35000.0));
    StepIsReachable(OneRoom(35000.0), PlaceHold(1, "tunde"));
    StepIsReachable(Exec(OneRoom(35000.0), PlaceHold(1, "tunde")).state, Tick(60 * MINUTE));
  }

  // ------------------------------------------------------- ranges and single days

  lemma ConflictIsOccupiedDay(s: State, room: RoomId, checkIn: Day, checkOut: Day)
    requires Inv(s) && checkIn < checkOut
    ensures Conflicts(s, room, checkIn, checkOut) <==> exists d | checkIn <= d < checkOut :: OccupiedOn(s, room, d)
  {
    if Conflicts(s, room, checkIn, checkOut) {
      var id :| id in s.bookings && s.bookings[id].room == room && !s.bookings[id].status.Cancelled?
                && Overlaps(s.bookings[id], checkIn, checkOut);
      assert BookingOk(s.bookings[id], s.rooms, s.now);
      OverlapIsSharedNight(s.bookings[id], checkIn, checkOut);
      var d :| InStay(s.bookings[id], d) && checkIn <= d < checkOut;
      assert OccupiedOn(s, room, d);
    }
    if d :| checkIn <= d < checkOut && OccupiedOn(s, room, d) {
      var id :| id in s.bookings && s.bookings[id].room == room && !s.bookings[id].status.Cancelled?
                && InStay(s.bookings[id], d);
      assert Overlaps(s.bookings[id], checkIn, checkOut);
    }
  }

  /** Searching a range is searching every one of its days. The empty type is the exception: a
      search by day takes it for any type, the range search for a type like any other. */
  lemma RangeSearchIsIntersectionOfDays(s: State, room: RoomId, checkIn: Day, checkOut: Day, roomType: string)
    requires Inv(s) && checkIn < checkOut
    ensures room in SearchAvailableRooms(s, checkIn, checkOut, roomType) <==>
            (roomType == "" ==> room in s.rooms && s.rooms[room].roomType == "")
            && forall d | checkIn <= d < checkOut :: room in GetAvailableRooms(s, Some(d), Some(roomType))
  {
    ConflictIsOccupiedDay(s, room, checkIn, checkOut);
    forall d | checkIn <= d < checkOut
      ensures room in GetAvailableRooms(s, Some(d), Some(roomType)) <==>
              room in s.rooms && (roomType != "" ==> s.rooms[room].roomType == roomType) && s.rooms[room].isAvailable
              && !ActivelyHeld(s, room) && !OccupiedOn(s, room, d)
    {}
    if forall d | checkIn <= d < checkOut :: room in GetAvailableRooms(s, Some(d), Some(roomType)) {
      assert room in GetAvailableRooms(s, Some(checkIn), Some(roomType));
    }
  }
}
