/** What each operation answers and what it leaves in the database. Every operation is
    one transaction here; Interleaving.dfy splits them into reads and commits. */
module Operations {
  import opened Model

  /** What an operation returns when it succeeds. */
  datatype Answer =
    | Held | Booked(id: BookingId)
    | PaidOffline(id: BookingId) | PaidOnline(id: BookingId) | Ignored | Orphan | Duplicate
    | PaymentDone(id: BookingId) | AlreadyPaid
    | GuestIn | GuestOut | AlreadyCheckedOut | MarkedClean | AlreadyClean | RateChanged
    | Swept(count: nat) | Ticked

  /** The exceptions it raises. */
  datatype Error =
    | RoomAlreadyHeld | GuestNotFound | NotAGuest | BadDates | RoomMissing | RoomUnavailable
    | HoldMissing | HoldMismatch | HoldExpired | RateMissing
    | BookingMissing | NotProcessing | NotYours | AmountMismatch | HoldGone | KeyClash | PaymentNotConfirmed
    | BookingNotFound | AlreadyCheckedIn | BookingNotConfirmed | BookingNotCheckedIn
    | CheckInDateMismatch | CheckOutDateMismatch | RoomNotFound | BadPatch | RoomTypeMissing

  datatype Outcome = Ok(answer: Answer) | Raised(error: Error)

  datatype Reply = Reply(state: State, outcome: Outcome)

  // ---------------------------------------------------------------- queries

  /** The nights of the room already sold within [checkIn, checkOut). */
  function NightsTaken(s: State, room: RoomId, checkIn: Day, checkOut: Day): set<Day> {
    set n <- s.nights | n.room == room && checkIn <= n.day < checkOut :: n.day
  }

  predicate Blocks(b: Booking, room: RoomId, checkIn: Day, checkOut: Day) {
    b.room == room && !b.status.Cancelled? && !b.status.Completed? && Overlaps(b, checkIn, checkOut)
  }

  /** The overlap query of create_booking: completed stays do not block. */
  predicate BlockedByBooking(s: State, room: RoomId, checkIn: Day, checkOut: Day) {
    exists id <- s.bookings :: Blocks(s.bookings[id], room, checkIn, checkOut)
  }

  /** The overlap query of the search: only cancelled stays do not block. */
  predicate Conflicts(s: State, room: RoomId, checkIn: Day, checkOut: Day) {
    exists id <- s.bookings ::
      s.bookings[id].room == room && !s.bookings[id].status.Cancelled? && Overlaps(s.bookings[id], checkIn, checkOut)
  }

  predicate ActivelyHeld(s: State, room: RoomId) { room in s.holds && Live(s.holds[room], s.now) }

  function SearchAvailableRooms(s: State, checkIn: Day, checkOut: Day, roomType: string): set<RoomId> {
    set r <- s.rooms |
      s.rooms[r].roomType == roomType && s.rooms[r].isAvailable &&
      !Conflicts(s, r, checkIn, checkOut) && !ActivelyHeld(s, r)
  }

  predicate OccupiedOn(s: State, room: RoomId, day: Day) {
    exists id <- s.bookings ::
      s.bookings[id].room == room && !s.bookings[id].status.Cancelled? && InStay(s.bookings[id], day)
  }

  /** An absent day means today; an absent or empty type means every type. */
  function GetAvailableRooms(s: State, day: Option<Day>, roomType: Option<string>): set<RoomId> {
    var on := if day.Some? then day.value else Today(s.now);
    set r <- s.rooms |
      s.rooms[r].isAvailable && !OccupiedOn(s, r, on) && !ActivelyHeld(s, r) &&
      (roomType.Some? && roomType.value != "" ==> s.rooms[r].roomType == roomType.value)
  }

  datatype OccupancyReport = OccupancyReport(total: nat, occupied: nat, available: nat, percentage: real)

  function OccupiedRooms(s: State, day: Day): set<RoomId> {
    set id <- s.bookings | s.bookings[id].status.CheckedIn? && InStay(s.bookings[id], day) :: s.bookings[id].room
  }

  function GetOccupancyReport(s: State, day: Option<Day>): OccupancyReport {
    var on := if day.Some? then day.value else Today(s.now);
    var total, occupied := |s.rooms|, |OccupiedRooms(s, on)|;
    var percentage := if total > 0 then occupied as real / total as real * 100.0 else 0.0;
    OccupancyReport(total, occupied, if total >= occupied then total - occupied else 0,
                    RoundHalfEven(percentage * 100.0) as real / 100.0)
  }

  // ------------------------------------------------------ holds and bookings

  function HoldRoom(s: State, room: RoomId, guest: Email): Reply {
    if room !in s.rooms then Reply(s, Raised(RoomMissing))
    else if !s.rooms[room].isAvailable then Reply(s, Raised(RoomUnavailable))
    else if room in s.holds then Reply(s, Raised(RoomAlreadyHeld))
    else Reply(s.(holds := s.holds[room := Hold(guest, s.now + HOLD_TIME, false)]), Ok(Held))
  }

  datatype BookingRequest = BookingRequest(guest: Option<Email>, room: RoomId, checkIn: Day, checkOut: Day)

  datatype Client = Known(guest: Email) | Refused(why: Error)

  /** Guests book for themselves; staff must name a registered guest. */
  function ResolveGuest(s: State, client: User, req: BookingRequest): Client {
    if client.role.Guest? then Known(client.email)
    else if req.guest.None? || req.guest.value !in s.users then Refused(GuestNotFound)
    else if !s.users[req.guest.value].Guest? then Refused(NotAGuest)
    else Known(req.guest.value)
  }

  function NewBooking(s: State, guest: Email, req: BookingRequest): Booking
    requires req.room in s.rooms && s.rooms[req.room].roomType in s.roomTypes
  {
    var rate := s.roomTypes[s.rooms[req.room].roomType].baseRate;
    Booking(guest, req.room, req.checkIn, req.checkOut, Processing,
            rate * (req.checkOut - req.checkIn) as real, s.now)
  }

  function CreateBooking(s: State, client: User, req: BookingRequest): Reply {
    var resolved := ResolveGuest(s, client, req);
    if resolved.Refused? then Reply(s, Raised(resolved.why))
    else if req.checkOut <= req.checkIn || req.checkIn < Today(s.now) then Reply(s, Raised(BadDates))
    else if req.room !in s.rooms then Reply(s, Raised(RoomMissing))
    else if !s.rooms[req.room].isAvailable then Reply(s, Raised(RoomUnavailable))
    else if req.room !in s.holds then Reply(s, Raised(HoldMissing))
    else if s.holds[req.room].guest != resolved.guest then Reply(s, Raised(HoldMismatch))
    else if !Live(s.holds[req.room], s.now) then Reply(s.(holds := s.holds - {req.room}), Raised(HoldExpired))
    else if BlockedByBooking(s, req.room, req.checkIn, req.checkOut)
         || NightsTaken(s, req.room, req.checkIn, req.checkOut) != {} then Reply(s, Raised(RoomUnavailable))
    else if s.rooms[req.room].roomType !in s.roomTypes then Reply(s, Raised(RateMissing))
    else
      Reply(s.(bookings := s.bookings[s.nextId := NewBooking(s, resolved.guest, req)], nextId := s.nextId + 1),
            Ok(Booked(s.nextId)))
  }

  // ---------------------------------------------------------------- payments

  function WithStatus(bookings: map<BookingId, Booking>, id: BookingId, status: Status): map<BookingId, Booking>
    requires id in bookings
  {
    bookings[id := bookings[id].(status := status)]
  }

  /** The keys that make the confirming commit fail as a whole. */
  predicate PaymentClash(payments: map<BookingId, Payment>, id: BookingId, payment: Payment) {
    id in payments || (payment.event.Some? && exists other <- payments :: payments[other].event == payment.event)
  }

  predicate NightClash(nights: map<Night, BookingId>, b: Booking) { exists n <- NightKeys(b) :: n in nights }

  predicate RightAmount(amount: real, currency: string, b: Booking) {
    currency == NAIRA && Close(amount, b.total)
  }

  /** The rows written by both confirming paths: status, every night, the payment. */
  function Confirm(s: State, id: BookingId, payment: Payment): State
    requires id in s.bookings
  {
    s.(bookings := WithStatus(s.bookings, id, Confirmed),
       nights := s.nights + NightRows(id, s.bookings[id]),
       payments := s.payments[id := payment])
  }

  function RecordOfflinePayment(s: State, id: BookingId, staff: Email, amount: real, currency: string): Reply {
    if id !in s.bookings then Reply(s, Raised(BookingMissing))
    else
      var b := s.bookings[id];
      var payment := Payment(amount, currency, Offline, None, Some(staff));
      if !b.status.Processing? then Reply(s, Raised(NotProcessing))
      else if !RightAmount(amount, currency, b) then Reply(s, Raised(AmountMismatch))
      else if b.room !in s.rooms then Reply(s, Raised(RoomUnavailable))
      else if PaymentClash(s.payments, id, payment) || NightClash(s.nights, b) then Reply(s, Raised(KeyClash))
      else Reply(Confirm(s, id, payment), Ok(PaidOffline(id)))
  }

  predicate HoldBacks(s: State, b: Booking) {
    b.room in s.holds && Live(s.holds[b.room], s.now) && s.holds[b.room].guest == b.guest
  }

  function OnlinePayment(ev: PaymentEvent): Payment {
    Payment(ev.amount, ev.currency, Online, Some(ev.id), None)
  }

  function Logged(s: State, ev: PaymentEvent): State { s.(events := s.events[ev.id := Row(ev)]) }

  /** The part of the webhook that runs under the lock on the booking's row. */
  function SettleBooking(s: State, ev: PaymentEvent, id: BookingId): Reply
    requires id in s.bookings
  {
    var b := s.bookings[id];
    if !b.status.Processing? then Reply(Logged(s, ev), Ok(Duplicate))
    else if !RightAmount(ev.amount, ev.currency, b) then Reply(s, Raised(AmountMismatch))
    else if !HoldBacks(s, b) then Reply(Logged(s, ev).(bookings := WithStatus(s.bookings, id, Cancelled)), Raised(HoldGone))
    else if b.room !in s.rooms then Reply(s, Raised(AmountMismatch))
    else if PaymentClash(s.payments, id, OnlinePayment(ev)) || NightClash(s.nights, b) then Reply(s, Raised(KeyClash))
    else Reply(Confirm(Logged(s, ev), id, OnlinePayment(ev)).(holds := s.holds - {b.room}), Ok(PaidOnline(id)))
  }

  function ProcessPaymentEvent(s: State, ev: PaymentEvent): Reply {
    if ev.id in s.events then Reply(s, Ok(Duplicate))
    else if ev.kind != SUCCEEDED then Reply(Logged(s, ev), Ok(Ignored))
    else
      var found := FindByRef(s.bookings, ev.reference);
      if found.None? then Reply(Logged(s, ev), Ok(Orphan)) else SettleBooking(s, ev, found.value)
  }

  /** The event the payment provider sends for a booking: the total, rounded to whole naira. */
  function ProviderEvent(id: BookingId, b: Booking, eventId: EventId): PaymentEvent {
    PaymentEvent(eventId, SUCCEEDED, Ref(id), RoundHalfEven(b.total) as real, NAIRA)
  }

  /** The provider's delivery is served while the caller waits. An event whose amount is
      not positive is refused before it reaches the database. */
  function PayBooking(s: State, id: BookingId, guest: Email, eventId: EventId): Reply {
    if id !in s.bookings then Reply(s, Raised(BookingMissing))
    else
      var b := s.bookings[id];
      if b.guest != guest then Reply(s, Raised(NotYours))
      else if b.status.Confirmed? then Reply(s, Ok(AlreadyPaid))
      else if !b.status.Processing? then Reply(s, Raised(NotProcessing))
      else
        var ev := ProviderEvent(id, b, eventId);
        var after := if ev.amount > 0.0 then ProcessPaymentEvent(s, ev).state else s;
        if id !in after.bookings then Reply(after, Raised(PaymentNotConfirmed))
        else if after.bookings[id].status.Cancelled? then Reply(after, Raised(HoldGone))
        else if !after.bookings[id].status.Confirmed? then Reply(after, Raised(PaymentNotConfirmed))
        else Reply(after, Ok(PaymentDone(id)))
  }

  // --------------------------------------------------------- stays and rooms

  function CheckInGuest(s: State, id: BookingId): Reply {
    if id !in s.bookings then Reply(s, Raised(BookingNotFound))
    else
      var b := s.bookings[id];
      if b.status.CheckedIn? then Reply(s, Raised(AlreadyCheckedIn))
      else if !b.status.Confirmed? then Reply(s, Raised(BookingNotConfirmed))
      else if b.checkIn != Today(s.now) then Reply(s, Raised(CheckInDateMismatch))
      else if b.room !in s.rooms then Reply(s, Raised(RoomMissing))
      else if !s.rooms[b.room].isAvailable then Reply(s, Raised(AlreadyCheckedIn))
      else
        Reply(s.(bookings := WithStatus(s.bookings, id, CheckedIn),
                 rooms := s.rooms[b.room := s.rooms[b.room].(isAvailable := false)]), Ok(GuestIn))
  }

  function CheckOutGuest(s: State, id: BookingId): Reply {
    if id !in s.bookings then Reply(s, Raised(BookingNotFound))
    else
      var b := s.bookings[id];
      if b.status.Completed? then Reply(s, Ok(AlreadyCheckedOut))
      else if !b.status.CheckedIn? then Reply(s, Raised(BookingNotCheckedIn))
      else if b.checkOut != Today(s.now) then Reply(s, Raised(CheckOutDateMismatch))
      else if b.room !in s.rooms then Reply(s, Raised(RoomMissing))
      else
        Reply(s.(bookings := WithStatus(s.bookings, id, Completed),
                 rooms := s.rooms[b.room := s.rooms[b.room].(isAvailable := false, state := Dirty)]), Ok(GuestOut))
  }

  function MarkRoomClean(s: State, room: RoomId): Reply {
    if room !in s.rooms then Reply(s, Raised(RoomNotFound))
    else
      Reply(s.(rooms := s.rooms[room := s.rooms[room].(isAvailable := true, state := Clean)]),
            Ok(if s.rooms[room].state.Clean? then AlreadyClean else MarkedClean))
  }

  function UpdateRoomType(s: State, name: string, rate: Option<real>, capacity: Option<int>): Reply {
    if (rate.None? && capacity.None?) || (rate.Some? && rate.value <= 0.0) || (capacity.Some? && capacity.value <= 0)
    then Reply(s, Raised(BadPatch))
    else if name !in s.roomTypes then Reply(s, Raised(RoomTypeMissing))
    else
      var row := s.roomTypes[name];
      Reply(s.(roomTypes := s.roomTypes[name := RoomType(
        if rate.Some? then rate.value else row.baseRate,
        if capacity.Some? then capacity.value else row.capacity)]), Ok(RateChanged))
  }

  // -------------------------------------------------------------- background

  function DeadHolds(s: State): set<RoomId> { set r <- s.holds | !Live(s.holds[r], s.now) }

  function DeleteExpiredHolds(s: State): Reply {
    Reply(s.(holds := s.holds - DeadHolds(s)), Ok(Swept(|DeadHolds(s)|)))
  }

  /** Too old: older than the grace period on top of the longest possible hold. */
  predicate Aged(b: Booking, now: Instant, grace: int) { b.createdAt <= now - (grace * MINUTE + HOLD_TIME) }

  predicate Stale(b: Booking, now: Instant, grace: int) {
    b.status.Processing? && (Aged(b, now, grace) || b.checkIn < Today(now))
  }

  function StaleIds(s: State, grace: int): set<BookingId> { set id <- s.bookings | Stale(s.bookings[id], s.now, grace) }

  /** The holds that go with the given bookings: same room, same guest. */
  function OwnHolds(s: State, ids: set<BookingId>): set<RoomId>
    requires ids <= s.bookings.Keys
  {
    set id <- ids | s.bookings[id].room in s.holds && s.holds[s.bookings[id].room].guest == s.bookings[id].guest
      :: s.bookings[id].room
  }

  function CancelAll(bookings: map<BookingId, Booking>, ids: set<BookingId>): map<BookingId, Booking> {
    map id <- bookings :: if id in ids then bookings[id].(status := Cancelled) else bookings[id]
  }

  function CancelStaleProcessing(s: State, grace: int): Reply {
    var ids := StaleIds(s, grace);
    Reply(s.(bookings := CancelAll(s.bookings, ids), holds := s.holds - OwnHolds(s, ids)), Ok(Swept(|ids|)))
  }

  // -------------------------------------------------------------------- runs

  datatype Step =
    | PlaceHold(room: RoomId, guest: Email)
    | Book(client: User, req: BookingRequest)
    | PayOffline(id: BookingId, staff: Email, amount: real, currency: string)
    | Deliver(ev: PaymentEvent)
    | PayOnline(id: BookingId, guest: Email, eventId: EventId)
    | Arrive(id: BookingId)
    | Depart(id: BookingId)
    | CleanRoom(room: RoomId)
    | Reprice(name: string, rate: Option<real>, capacity: Option<int>)
    | SweepHolds
    | SweepBookings(grace: int)
    | Tick(elapsed: nat)

  function Exec(s: State, step: Step): Reply {
    match step
    case PlaceHold(room, guest) => HoldRoom(s, room, guest)
    case Book(client, req) => CreateBooking(s, client, req)
    case PayOffline(id, staff, amount, currency) => RecordOfflinePayment(s, id, staff, amount, currency)
    case Deliver(ev) => ProcessPaymentEvent(s, ev)
    case PayOnline(id, guest, eventId) => PayBooking(s, id, guest, eventId)
    case Arrive(id) => CheckInGuest(s, id)
    case Depart(id) => CheckOutGuest(s, id)
    case CleanRoom(room) => MarkRoomClean(s, room)
    case Reprice(name, rate, capacity) => UpdateRoomType(s, name, rate, capacity)
    case SweepHolds => DeleteExpiredHolds(s)
    case SweepBookings(grace) => CancelStaleProcessing(s, grace)
    case Tick(elapsed) => Reply(s.(now := s.now + elapsed), Ok(Ticked))
  }

  /** The state after any sequence of operations and clock ticks. */
  function Run(s: State, steps: seq<Step>): State {
    if steps == [] then s
    else Exec(Run(s, steps[..|steps| - 1]), steps[|steps| - 1]).state
  }
}
