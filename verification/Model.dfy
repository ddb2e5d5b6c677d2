/** The rows of the booking database, its clock, and the small vocabulary
    (references, stays, rounding) that the operations are written in. */
module Model {

  datatype Option<+T> = None | Some(value: T)

  type Email = string
  type RoomId = int
  type BookingId = nat
  type EventId = string

  /** A calendar date, as a number of days, and a moment in UTC microseconds. */
  type Day = int
  type Instant = int

  const SECOND: int := 1_000_000
  const MINUTE: int := 60 * SECOND
  const DAY: int := 86_400 * SECOND
  /** How long a hold lasts. */
  const HOLD_TIME: int := 10 * MINUTE
  /** Default grace of the stale booking sweep, in minutes. */
  const GRACE_MINUTES: int := 3
  /** Interval at which the stale booking sweep is scheduled. */
  const SWEEP_INTERVAL: int := 300 * SECOND
  const NAIRA: string := "NGN"
  const SUCCEEDED: string := "payment.succeeded"

  datatype Role = Guest | Receptionist | Housekeeper | Manager
  datatype User = User(email: Email, role: Role)

  datatype RoomState = Clean | Dirty
  datatype RoomType = RoomType(baseRate: real, capacity: int)
  datatype Room = Room(roomType: string, isAvailable: bool, state: RoomState)

  datatype Hold = Hold(guest: Email, expiresAt: Instant, consumed: bool)

  datatype Status = OnHold | Processing | Confirmed | CheckedIn | Completed | Cancelled
  datatype Booking = Booking(
    guest: Email, room: RoomId, checkIn: Day, checkOut: Day,
    status: Status, total: real, createdAt: Instant)

  /** The primary key of the room night table. */
  datatype Night = Night(room: RoomId, day: Day)

  datatype Method = Online | Offline
  datatype Payment = Payment(
    amount: real, currency: string, how: Method, event: Option<EventId>, recordedBy: Option<Email>)

  datatype EventRow = EventRow(kind: string, reference: string)
  datatype PaymentEvent = PaymentEvent(
    id: EventId, kind: string, reference: string, amount: real, currency: string)

  /** All tables. Each map key is a key the database enforces: one hold per room, one
      booking per room night, one payment per booking, one row per provider event. */
  datatype State = State(
    users: map<Email, Role>,
    roomTypes: map<string, RoomType>,
    rooms: map<RoomId, Room>,
    bookings: map<BookingId, Booking>,
    holds: map<RoomId, Hold>,
    nights: map<Night, BookingId>,
    payments: map<BookingId, Payment>,
    events: map<EventId, EventRow>,
    nextId: BookingId,
    now: Instant)

  function Today(now: Instant): Day { now / DAY }

  predicate Paid(status: Status) { status.Confirmed? || status.CheckedIn? || status.Completed? }

  predicate Live(h: Hold, now: Instant) { !h.consumed && now < h.expiresAt }

  predicate Close(a: real, b: real) { -0.01 <= a - b <= 0.01 }

  function Row(ev: PaymentEvent): EventRow { EventRow(ev.kind, ev.reference) }

  // ------------------------------------------------------------------ stays

  /** Nights are half open: the day of departure is free again. */
  predicate InStay(b: Booking, d: Day) { b.checkIn <= d < b.checkOut }

  predicate Overlaps(b: Booking, checkIn: Day, checkOut: Day) { b.checkIn < checkOut && checkIn < b.checkOut }

  function Days(b: Booking): set<Day> { set d: Day | b.checkIn <= d < b.checkOut && InStay(b, d) }

  function NightKeys(b: Booking): set<Night> { set d <- Days(b) :: Night(b.room, d) }

  function NightRows(id: BookingId, b: Booking): map<Night, BookingId> { map n <- NightKeys(b) :: id }

  /** The parts of a booking row that no operation may touch. */
  predicate SameStay(a: Booking, b: Booking) { a == b.(status := a.status) }

  /** A night belongs to the stay exactly when it is one of its keys. */
  lemma NightKeysAre(b: Booking, n: Night)
    ensures n in NightKeys(b) <==> n.room == b.room && InStay(b, n.day)
  {
    if n.room == b.room && InStay(b, n.day) {
      assert n.day in Days(b) && n == Night(b.room, n.day);
    }
  }

  lemma SameStaySameNights(a: Booking, b: Booking)
    requires SameStay(a, b)
    ensures NightKeys(a) == NightKeys(b)
  {
    forall n ensures n in NightKeys(a) <==> n in NightKeys(b) {
      NightKeysAre(a, n);
      NightKeysAre(b, n);
    }
  }

  lemma OneNightRow(id: BookingId, b: Booking)
    requires b.checkOut == b.checkIn + 1
    ensures NightKeys(b) == {Night(b.room, b.checkIn)} && NightRows(id, b) == map[Night(b.room, b.checkIn) := id]
  {
    forall n ensures n in NightKeys(b) <==> n == Night(b.room, b.checkIn) { NightKeysAre(b, n); }
  }

  /** Interval overlap, as the SQL tests it, is the existence of a common night. */
  lemma OverlapIsSharedNight(b: Booking, checkIn: Day, checkOut: Day)
    requires b.checkIn < b.checkOut && checkIn < checkOut
    ensures Overlaps(b, checkIn, checkOut) <==> exists d :: InStay(b, d) && checkIn <= d < checkOut
  {
    if Overlaps(b, checkIn, checkOut) {
      var d := if b.checkIn < checkIn then checkIn else b.checkIn;
      assert InStay(b, d) && checkIn <= d < checkOut;
    }
  }

  // ------------------------------------------------------------- references

  function Digits(n: nat): (d: string)
    ensures |d| >= 1 && (n >= 10 ==> |d| >= 2)
  {
    var last := [(('0' as int) + n % 10) as char];
    if n < 10 then last else Digits(n / 10) + last
  }

  /** The generated column 'BOOK-' || booking_id. */
  function Ref(id: BookingId): string { "BOOK-" + Digits(id) }

  lemma {:induction false} DigitsInjective(a: nat, b: nat)
    requires Digits(a) == Digits(b)
    ensures a == b
  {
    var da, db := Digits(a), Digits(b);
    assert da[|da| - 1] == db[|db| - 1];
    assert a % 10 == b % 10;
    if a >= 10 {
      assert Digits(a / 10) == da[..|da| - 1] == db[..|db| - 1] == Digits(b / 10);
      DigitsInjective(a / 10, b / 10);
    }
  }

  /** The reference column is unique: it identifies the booking. */
  lemma RefInjective(a: BookingId, b: BookingId)
    requires Ref(a) == Ref(b)
    ensures a == b
  {
    assert Digits(a) == Ref(a)[5..] == Ref(b)[5..] == Digits(b);
    DigitsInjective(a, b);
  }

  /** The lookup by reference, through its unique index. */
  function FindByRef(bookings: map<BookingId, Booking>, reference: string): (found: Option<BookingId>)
    ensures found.Some? ==> found.value in bookings && Ref(found.value) == reference
    ensures found.None? ==> forall id <- bookings :: Ref(id) != reference
  {
    if exists id <- bookings :: Ref(id) == reference then
      assert forall a, b | a in bookings && b in bookings && Ref(a) == reference && Ref(b) == reference :: a == b by {
        forall a, b | a in bookings && b in bookings && Ref(a) == reference && Ref(b) == reference ensures a == b {
          RefInjective(a, b);
        }
      }
      var id :| id in bookings && Ref(id) == reference;
      Some(id)
    else
      None
  }

  lemma FindsItsBooking(bookings: map<BookingId, Booking>, id: BookingId)
    requires id in bookings
    ensures FindByRef(bookings, Ref(id)) == Some(id)
  {
    var found := FindByRef(bookings, Ref(id));
    if found.Some? { RefInjective(found.value, id); }
  }

  // --------------------------------------------------------------- rounding

  /** Rounding to the nearest whole number, ties to the even neighbour. */
  function RoundHalfEven(x: real): (n: int)
    ensures -0.5 <= n as real - x <= 0.5
    ensures n as real - x == 0.5 || n as real - x == -0.5 ==> n % 2 == 0
  {
    var floor := x.Floor;
    var fraction := x - floor as real;
    if fraction < 0.5 || (fraction == 0.5 && floor % 2 == 0) then floor else floor + 1
  }

  lemma RoundOfWhole(n: int)
    ensures RoundHalfEven(n as real) == n
  {
    assert (n as real).Floor == n;
  }

  // ------------------------------------------------------------------ loops

  /** The next element of a result whose order nothing fixes. */
  method Pick<T(==)>(s: set<T>) returns (x: T)
    requires s != {}
    ensures x in s
  {
    x :| x in s;
  }
}
