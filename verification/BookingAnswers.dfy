/** What holding and booking answer, case by case, told in plain rows, dates and microseconds:
    every refusal with its reason, and every success with the row it writes. */
module BookingAnswers {
  import opened Model
  import opened Operations

  /** A hold is refused for a room that is missing, closed or held, by however old a hold;
      otherwise it is placed for ten minutes. */
  lemma HoldAnswers(s: State, room: RoomId, guest: Email)
    ensures var r := HoldRoom(s, room, guest);
            && (room !in s.rooms ==> r == Reply(s, Raised(RoomMissing)))
            && (room in s.rooms && !s.rooms[room].isAvailable ==> r == Reply(s, Raised(RoomUnavailable)))
            && (room in s.rooms && s.rooms[room].isAvailable && room in s.holds ==> r == Reply(s, Raised(RoomAlreadyHeld)))
            && (room in s.rooms && s.rooms[room].isAvailable && room !in s.holds ==>
                  r == Reply(s.(holds := s.holds[room := Hold(guest, s.now + 600_000_000, false)]), Ok(Held)))
  {}

  // ------------------------------------------------------------ who is booked

  /** Guests book for themselves whatever address they send; staff book for a registered guest. */
  predicate BooksFor(s: State, client: User, req: BookingRequest, guest: Email) {
    if client.role == Guest then guest == client.email
    else req.guest == Some(guest) && guest in s.users && s.users[guest] == Guest
  }

  lemma NobodyToBookFor(s: State, client: User, req: BookingRequest)
    requires client.role != Guest
    ensures req.guest == None ==> CreateBooking(s, client, req) == Reply(s, Raised(GuestNotFound))
    ensures req.guest != None && req.guest.value !in s.users ==> CreateBooking(s, client, req) == Reply(s, Raised(GuestNotFound))
    ensures req.guest != None && req.guest.value in s.users && s.users[req.guest.value] != Guest ==>
              CreateBooking(s, client, req) == Reply(s, Raised(NotAGuest))
  {}

  // ---------------------------------------------------------- what is refused

  predicate DatesFine(s: State, req: BookingRequest) {
    req.checkIn < req.checkOut && s.now / 86_400_000_000 <= req.checkIn
  }

  lemma BookingNeedsDates(s: State, client: User, req: BookingRequest, guest: Email)
    requires BooksFor(s, client, req, guest) && !DatesFine(s, req)
    ensures CreateBooking(s, client, req) == Reply(s, Raised(BadDates))
  {}

  lemma BookingNeedsRoom(s: State, client: User, req: BookingRequest, guest: Email)
    requires BooksFor(s, client, req, guest) && DatesFine(s, req)
    ensures req.room !in s.rooms ==> CreateBooking(s, client, req) == Reply(s, Raised(RoomMissing))
    ensures req.room in s.rooms && !s.rooms[req.room].isAvailable ==> CreateBooking(s, client, req) == Reply(s, Raised(RoomUnavailable))
  {}

  predicate RoomOpen(s: State, room: RoomId) { room in s.rooms && s.rooms[room].isAvailable }

  /** No hold, somebody else's hold, and a hold that is over: only the last leaves a trace. */
  lemma BookingNeedsOwnHold(s: State, client: User, req: BookingRequest, guest: Email)
    requires BooksFor(s, client, req, guest) && DatesFine(s, req) && RoomOpen(s, req.room)
    ensures req.room !in s.holds ==> CreateBooking(s, client, req) == Reply(s, Raised(HoldMissing))
    ensures req.room in s.holds && s.holds[req.room].guest != guest ==> CreateBooking(s, client, req) == Reply(s, Raised(HoldMismatch))
    ensures req.room in s.holds && s.holds[req.room].guest == guest
            && (s.holds[req.room].consumed || s.holds[req.room].expiresAt <= s.now) ==>
              CreateBooking(s, client, req) == Reply(s.(holds := s.holds - {req.room}), Raised(HoldExpired))
  {
    hide BlockedByBooking, NightsTaken;
  }

  /** The guest's own hold, not used up and not over. */
  predicate OwnHold(s: State, room: RoomId, guest: Email) {
    room in s.holds && s.holds[room].guest == guest && !s.holds[room].consumed && s.now < s.holds[room].expiresAt
  }

  /** Another guest is expected or in house on one of the nights, or one of them is sold. */
  predicate NightsGone(s: State, req: BookingRequest) {
    || (exists id <- s.bookings ::
          var b := s.bookings[id];
          b.room == req.room && b.status != Cancelled && b.status != Completed && b.checkIn < req.checkOut && req.checkIn < b.checkOut)
    || (exists n <- s.nights :: n.room == req.room && req.checkIn <= n.day && n.day < req.checkOut)
  }

  lemma NightsGoneIs(s: State, req: BookingRequest)
    ensures NightsGone(s, req) <==> BlockedByBooking(s, req.room, req.checkIn, req.checkOut)
                                    || NightsTaken(s, req.room, req.checkIn, req.checkOut) != {}
  {
    if n :| n in s.nights && n.room == req.room && req.checkIn <= n.day && n.day < req.checkOut {
      assert n.day in NightsTaken(s, req.room, req.checkIn, req.checkOut);
    }
    if BlockedByBooking(s, req.room, req.checkIn, req.checkOut) {
      var id :| id in s.bookings && Blocks(s.bookings[id], req.room, req.checkIn, req.checkOut);
    }
    if d :| d in NightsTaken(s, req.room, req.checkIn, req.checkOut) {
      var n :| n in s.nights && n.room == req.room && req.checkIn <= n.day < req.checkOut && n.day == d;
    }
    if id :| id in s.bookings && s.bookings[id].room == req.room && s.bookings[id].status != Cancelled
             && s.bookings[id].status != Completed && s.bookings[id].checkIn < req.checkOut && req.checkIn < s.bookings[id].checkOut {
      assert Blocks(s.bookings[id], req.room, req.checkIn, req.checkOut);
    }
  }

  lemma BookingNeedsFreeNights(s: State, client: User, req: BookingRequest, guest: Email)
    requires BooksFor(s, client, req, guest) && DatesFine(s, req) && RoomOpen(s, req.room) && OwnHold(s, req.room, guest)
    requires NightsGone(s, req)
    ensures CreateBooking(s, client, req) == Reply(s, Raised(RoomUnavailable))
  {
    NightsGoneIs(s, req);
    hide BlockedByBooking, NightsTaken, NightsGone;
  }

  /** Everything in order: one new row, waiting for money, for the rate of that day times the
      nights; the hold stays as it is. */
  lemma BookingIsMade(s: State, client: User, req: BookingRequest, guest: Email)
    requires BooksFor(s, client, req, guest) && DatesFine(s, req) && RoomOpen(s, req.room) && OwnHold(s, req.room, guest)
    requires !NightsGone(s, req)
    ensures s.rooms[req.room].roomType !in s.roomTypes ==> CreateBooking(s, client, req) == Reply(s, Raised(RateMissing))
    ensures s.rooms[req.room].roomType in s.roomTypes ==>
              var price := s.roomTypes[s.rooms[req.room].roomType].baseRate * (req.checkOut - req.checkIn) as real;
              CreateBooking(s, client, req)
              == Reply(s.(bookings := s.bookings[s.nextId := Booking(guest, req.room, req.checkIn, req.checkOut, Processing, price, s.now)],
                          nextId := s.nextId + 1),
                       Ok(Booked(s.nextId)))
  {
    NightsGoneIs(s, req);
    hide BlockedByBooking, NightsTaken, NightsGone;
    if s.rooms[req.room].roomType in s.roomTypes {
      var price := s.roomTypes[s.rooms[req.room].roomType].baseRate * (req.checkOut - req.checkIn) as real;
      assert NewBooking(s, guest, req) == Booking(guest, req.room, req.checkIn, req.checkOut, Processing, price, s.now);
    }
  }

  /** Whoever is booked holds the room: the new row carries the name on the live hold. */
  lemma BookedByTheHolder(s: State, client: User, req: BookingRequest)
    requires CreateBooking(s, client, req).outcome.Ok?
    ensures var after := CreateBooking(s, client, req).state;
            && req.room in s.holds && s.nextId in after.bookings
            && after.bookings[s.nextId].guest == s.holds[req.room].guest
            && BooksFor(s, client, req, after.bookings[s.nextId].guest)
            && OwnHold(s, req.room, after.bookings[s.nextId].guest)
  {
    hide BlockedByBooking, NightsTaken;
  }
}
