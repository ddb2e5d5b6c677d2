/** Money, nights and status in every serially reachable state. */
module Sales {
  import opened Model
  import opened Operations
  import opened Invariant

  lemma SettleNeverClashes(s: State, ev: PaymentEvent, id: BookingId)
    requires Inv(s) && ev.id !in s.events && id in s.bookings
    ensures SettleBooking(s, ev, id).outcome != Raised(KeyClash)
  {
    if s.bookings[id].status.Processing? {
      NoClash(s, id);
      assert forall other <- s.payments :: s.payments[other].event != Some(ev.id);
    }
  }

  lemma OfflineNeverClashes(s: State, id: BookingId, staff: Email, amount: real, currency: string)
    requires Inv(s)
    ensures RecordOfflinePayment(s, id, staff, amount, currency).outcome != Raised(KeyClash)
  {
    if id in s.bookings && s.bookings[id].status.Processing? { NoClash(s, id); }
  }

  /** In serial runs the database keys are never needed: no operation ever meets a clash. */
  lemma NoSerialKeyClash(s: State, step: Step)
    requires Inv(s)
    ensures Exec(s, step).outcome != Raised(KeyClash)
  {
    hide Inv;
    match step
    case PayOffline(id, staff, amount, currency) => OfflineNeverClashes(s, id, staff, amount, currency);
    case Deliver(ev) =>
      var found := FindByRef(s.bookings, ev.reference);
      if ev.id !in s.events && found.Some? { SettleNeverClashes(s, ev, found.value); }
    case _ =>
  }

  /** So the right money for a booking that waits for it is always accepted at the desk. */
  lemma RightMoneyConfirmsOffline(s: State, id: BookingId, staff: Email, amount: real, currency: string)
    requires Inv(s) && id in s.bookings && s.bookings[id].status.Processing?
    requires RightAmount(amount, currency, s.bookings[id])
    ensures RecordOfflinePayment(s, id, staff, amount, currency).outcome == Ok(PaidOffline(id))
  {
    OfflineNeverClashes(s, id, staff, amount, currency);
  }

  /** Online it is accepted exactly when the guest's own live hold is still on the room. */
  lemma RightMoneyConfirmsOnline(s: State, id: BookingId, ev: PaymentEvent)
    requires Inv(s) && id in s.bookings && s.bookings[id].status.Processing?
    requires ev.id !in s.events && ev.kind == SUCCEEDED && ev.reference == Ref(id)
    requires RightAmount(ev.amount, ev.currency, s.bookings[id])
    ensures ProcessPaymentEvent(s, ev).outcome == if HoldBacks(s, s.bookings[id]) then Ok(PaidOnline(id)) else Raised(HoldGone)
  {
    SettleNeverClashes(s, ev, id);
    FindsItsBooking(s.bookings, id);
  }

  function NightsOf(s: State, id: BookingId): set<Night> { set n <- s.nights | s.nights[n] == id }

  /** Status, money and nights agree, booking by booking, and each online payment has an
      event of its own. */
  lemma StatusMoneyAndNightsAgree(s: State, id: BookingId)
    requires Inv(s) && id in s.bookings
    ensures Paid(s.bookings[id].status) <==> id in s.payments
    ensures s.bookings[id].status in {Confirmed, CheckedIn, Completed} <==> id in s.payments
    ensures NightsOf(s, id) == if Paid(s.bookings[id].status) then NightKeys(s.bookings[id]) else {}
    ensures NightKeys(s.bookings[id]) != {}
    ensures id in s.payments ==> RightAmount(s.payments[id].amount, s.payments[id].currency, s.bookings[id])
    ensures id in s.payments ==>
              && s.payments[id].currency == "NGN"
              && s.payments[id].amount - s.bookings[id].total <= 0.01 && s.bookings[id].total - s.payments[id].amount <= 0.01
    ensures id in s.payments && s.payments[id].event.Some? ==>
              s.payments[id].event.value in s.events &&
              forall other <- s.payments | s.payments[other].event == s.payments[id].event :: other == id
  {
    var b := s.bookings[id];
    assert BookingOk(b, s.rooms, s.now);
    NightKeysAre(b, Night(b.room, b.checkIn));
    forall n ensures n in NightsOf(s, id) <==> Paid(b.status) && n in NightKeys(b) {
      NightKeysAre(b, n);
      if n in NightsOf(s, id) { assert NightOk(n, b); }
      if Paid(b.status) && n in NightKeys(b) { assert Owns(id, b, s.nights) && InStay(b, n.day); }
    }
    forall other | other in s.payments && id in s.payments && s.payments[id].event.Some?
                   && s.payments[other].event == s.payments[id].event
      ensures other == id
    {
      assert PaymentOk(s.payments[other], other, s.bookings[other], s.events);
      assert PaymentOk(s.payments[id], id, s.bookings[id], s.events);
      RefInjective(other, id);
    }
  }

  // ------------------------------------------------------------- conservation

  predicate PaidRow(s: State, id: BookingId) { id in s.bookings && Paid(s.bookings[id].status) }

  /** The nights a booking is entitled to: its whole stay once it is paid. */
  function Due(s: State, id: BookingId): int {
    if PaidRow(s, id) then s.bookings[id].checkOut - s.bookings[id].checkIn else 0
  }

  /** The same for all bookings with an id below n. */
  function NightsDue(s: State, n: nat): int {
    if n == 0 then 0 else NightsDue(s, n - 1) + Due(s, n - 1)
  }

  function PaidCount(s: State, n: nat): nat {
    if n == 0 then 0 else PaidCount(s, n - 1) + if PaidRow(s, n - 1) then 1 else 0
  }

  /** What those bookings cost, and what was received for them. */
  function Billed(s: State, n: nat): real {
    if n == 0 then 0.0 else Billed(s, n - 1) + if PaidRow(s, n - 1) then s.bookings[n - 1].total else 0.0
  }

  function Received(s: State, n: nat): real {
    if n == 0 then 0.0 else Received(s, n - 1) + if n - 1 in s.payments then s.payments[n - 1].amount else 0.0
  }

  /** A stay has as many night keys as days between arrival and departure. */
  lemma {:induction false} StayLength(b: Booking)
    requires b.checkIn <= b.checkOut
    ensures |NightKeys(b)| == b.checkOut - b.checkIn
    decreases b.checkOut - b.checkIn
  {
    if b.checkIn < b.checkOut {
      var shorter := b.(checkOut := b.checkOut - 1);
      StayLength(shorter);
      var last := Night(b.room, b.checkOut - 1);
      forall n ensures n in NightKeys(b) <==> n in NightKeys(shorter) + {last} {
        NightKeysAre(b, n);
        NightKeysAre(shorter, n);
      }
      NightKeysAre(shorter, last);
      assert NightKeys(b) == NightKeys(shorter) + {last};
    } else {
      forall n ensures n !in NightKeys(b) { NightKeysAre(b, n); }
      assert NightKeys(b) == {};
    }
  }

  function NightsBelow(s: State, n: nat): set<Night> { set k <- s.nights | s.nights[k] < n }
  function PaymentsBelow(s: State, n: nat): set<BookingId> { set id <- s.payments | id < n }

  lemma NightsOfCount(s: State, id: BookingId)
    requires Inv(s)
    ensures |NightsOf(s, id)| == Due(s, id)
  {
    if id in s.bookings {
      StatusMoneyAndNightsAgree(s, id);
      if PaidRow(s, id) { StayLength(s.bookings[id]); }
    } else {
      assert NightsOf(s, id) == {};
    }
  }

  lemma {:induction false} NightsBelowCount(s: State, n: nat)
    requires Inv(s)
    ensures |NightsBelow(s, n)| == NightsDue(s, n)
  {
    hide Inv, Due;
    if n > 0 {
      NightsBelowCount(s, n - 1);
      NightsOfCount(s, n - 1);
      var earlier, own := NightsBelow(s, n - 1), NightsOf(s, n - 1);
      assert NightsBelow(s, n) == earlier + own && earlier !! own;
      assert |earlier + own| == |earlier| + |own|;
    }
  }

  lemma PaymentFitsBill(s: State, id: BookingId)
    requires PaymentsOk(s.bookings, s.payments, s.events)
    ensures PaidRow(s, id) <==> id in s.payments
    ensures id in s.payments ==> Close(s.payments[id].amount, s.bookings[id].total)
  {
    if id in s.payments { assert PaymentOk(s.payments[id], id, s.bookings[id], s.events); }
  }

  lemma {:induction false} PaymentsBelowCount(s: State, n: nat)
    requires PaymentsOk(s.bookings, s.payments, s.events)
    ensures |PaymentsBelow(s, n)| == PaidCount(s, n)
  {
    hide PaymentsOk, PaidRow;
    if n > 0 {
      PaymentsBelowCount(s, n - 1);
      PaymentFitsBill(s, n - 1);
      OneMorePayment(s.payments, n, PaymentsBelow(s, n - 1), PaymentsBelow(s, n));
    }
  }

  lemma OneMorePayment(payments: map<BookingId, Payment>, n: nat, before: set<BookingId>, after: set<BookingId>)
    requires n > 0 && before == (set id <- payments | id < n - 1) && after == (set id <- payments | id < n)
    ensures |after| == |before| + if n - 1 in payments then 1 else 0
  {
    assert after == if n - 1 in payments then before + {n - 1} else before;
  }

  lemma {:induction false} TillFitsBills(s: State, n: nat)
    requires PaymentsOk(s.bookings, s.payments, s.events)
    ensures -0.01 * PaidCount(s, n) as real <= Received(s, n) - Billed(s, n) <= 0.01 * PaidCount(s, n) as real
  {
    if n > 0 {
      TillFitsBills(s, n - 1);
      PaymentFitsBill(s, n - 1);
    }
  }

  /** Nothing is lost or sold twice: there are exactly as many night rows as nights of paid
      stays, one payment per paid stay, and the till is within a kobo per payment of the bill. */
  lemma Conservation(s: State)
    requires Inv(s)
    ensures |s.nights| == NightsDue(s, s.nextId)
    ensures |s.payments| == PaidCount(s, s.nextId)
    ensures -0.01 * |s.payments| as real <= Received(s, s.nextId) - Billed(s, s.nextId) <= 0.01 * |s.payments| as real
  {
    NightsBelowCount(s, s.nextId);
    PaymentsBelowCount(s, s.nextId);
    TillFitsBills(s, s.nextId);
    assert NightsBelow(s, s.nextId) == s.nights.Keys;
    assert PaymentsBelow(s, s.nextId) == s.payments.Keys;
  }

  // ---------------------------------------------------------------- occupancy

  function InHouse(s: State, day: Day): set<BookingId> {
    set id <- s.bookings | s.bookings[id].status.CheckedIn? && InStay(s.bookings[id], day)
  }

  function InHouseNights(s: State, day: Day): set<Night> {
    set n <- s.nights | n.day == day && s.nights[n] in s.bookings && s.bookings[s.nights[n]].status.CheckedIn?
  }

  /** A one to one image has as many elements. */
  lemma {:induction false} ImageCount<T, U>(xs: set<T>, f: T -> U, image: set<U>)
    requires forall x <- xs :: f(x) in image
    requires forall x, y | x in xs && y in xs && x != y :: f(x) != f(y)
    requires forall u <- image :: exists x <- xs :: f(x) == u
    ensures |image| == |xs|
  {
    if x :| x in xs {
      ImageCount(xs - {x}, f, image - {f(x)});
    } else {
      assert image == {};
    }
  }

  lemma SubsetIsSmaller<T>(small: set<T>, big: set<T>)
    requires small <= big
    ensures |small| <= |big|
  {
    assert big == small + (big - small);
  }

  /** The guests in house on a day are all in different rooms. */
  lemma InHouseRoomsDiffer(s: State, day: Day, x: BookingId, y: BookingId)
    requires Disjoint(s.bookings) && x in InHouse(s, day) && y in InHouse(s, day) && x != y
    ensures s.bookings[x].room != s.bookings[y].room
  {
    assert Apart(s.bookings[x], s.bookings[y]);
  }

  lemma OccupiedRoomsCount(s: State, day: Day)
    requires Disjoint(s.bookings)
    ensures |OccupiedRooms(s, day)| == |InHouse(s, day)|
  {
    var ids := InHouse(s, day);
    var roomOf := (id: BookingId) => if id in s.bookings then s.bookings[id].room else 0;
    forall x, y | x in ids && y in ids && x != y ensures roomOf(x) != roomOf(y) { InHouseRoomsDiffer(s, day, x, y); }
    forall r | r in OccupiedRooms(s, day) ensures exists id <- ids :: roomOf(id) == r {
      var id :| id in s.bookings && s.bookings[id].status.CheckedIn? && InStay(s.bookings[id], day) && s.bookings[id].room == r;
      assert id in ids && roomOf(id) == r;
    }
    ImageCount(ids, roomOf, OccupiedRooms(s, day));
  }

  lemma InHouseNightsCount(s: State, day: Day)
    requires NightsOk(s.bookings, s.nights)
    ensures |InHouseNights(s, day)| == |InHouse(s, day)|
  {
    var nights := InHouseNights(s, day);
    var ownerOf := (n: Night) => if n in s.nights then s.nights[n] else 0;
    forall n | n in nights ensures n == Night(s.bookings[ownerOf(n)].room, day) && ownerOf(n) in InHouse(s, day) {
      assert NightOk(n, s.bookings[s.nights[n]]);
    }
    forall id | id in InHouse(s, day) ensures exists n <- nights :: ownerOf(n) == id {
      assert Owns(id, s.bookings[id], s.nights);
      var n := Night(s.bookings[id].room, day);
      assert n in nights && ownerOf(n) == id;
    }
    ImageCount(nights, ownerOf, InHouse(s, day));
  }

  lemma OccupiedRoomsExist(s: State, day: Day)
    requires BookingsOk(s.bookings, s.rooms, s.nextId, s.now)
    ensures OccupiedRooms(s, day) <= s.rooms.Keys
  {}

  lemma RoomsInHouse(s: State, day: Day)
    requires Inv(s)
    ensures |OccupiedRooms(s, day)| == |InHouse(s, day)| == |InHouseNights(s, day)| <= |s.rooms|
  {
    OccupiedRoomsCount(s, day);
    InHouseNightsCount(s, day);
    OccupiedRoomsExist(s, day);
    hide BookingsOk, HoldsOk, RoomsOk, PaymentsOk, NightsOk, Disjoint;
    SubsetIsSmaller(OccupiedRooms(s, day), s.rooms.Keys);
  }

  /** Counting distinct rooms, guests in house, or their night rows gives the same number. That
      is the number reported as occupied, the other rooms are reported as available, and the
      percentage is the share of occupied rooms to two decimals. The report needs neither of its
      safety nets. */
  lemma OccupancyIsExact(s: State, day: Day)
    requires Inv(s)
    ensures |OccupiedRooms(s, day)| == |InHouse(s, day)| == |InHouseNights(s, day)| <= |s.rooms|
    ensures var report := GetOccupancyReport(s, Some(day));
            && report.total == |s.rooms| && report.occupied == |InHouse(s, day)| && report.available == |s.rooms| - |InHouse(s, day)|
            && report.occupied + report.available == report.total && 0.0 <= report.percentage <= 100.0
            && (report.total > 0 ==>
                  -0.005 <= report.percentage - 100.0 * (|InHouse(s, day)| as real / |s.rooms| as real) <= 0.005)
            && (report.total == 0 ==> report.percentage == 0.0)
  {
    RoomsInHouse(s, day);
    hide Inv, OccupiedRooms, InHouse, InHouseNights;
    if |s.rooms| > 0 {
      PercentageInRange(|OccupiedRooms(s, day)|, |s.rooms|);
      PercentageIsRounded(|OccupiedRooms(s, day)| as real / |s.rooms| as real);
    }
  }

  lemma PercentageIsRounded(share: real)
    ensures -0.005 <= RoundHalfEven(share * 100.0 * 100.0) as real / 100.0 - 100.0 * share <= 0.005
  {}

  /** Without a date the report is about today. */
  lemma OccupancyToday(s: State)
    ensures GetOccupancyReport(s, None) == GetOccupancyReport(s, Some(s.now / 86_400_000_000))
  {}

  lemma ShareInRange(part: real, whole: real)
    requires 0.0 <= part <= whole && 0.0 < whole
    ensures 0.0 <= part / whole <= 1.0
  {
    var share := part / whole;
    assert share * whole == part;
    assert (1.0 - share) * whole == whole - part;
  }

  lemma PercentageInRange(occupied: nat, total: nat)
    requires occupied <= total && total > 0
    ensures 0.0 <= RoundHalfEven(occupied as real / total as real * 100.0 * 100.0) as real / 100.0 <= 100.0
  {
    var share := occupied as real / total as real;
    ShareInRange(occupied as real, total as real);
    var n := RoundHalfEven(share * 100.0 * 100.0);
    assert -1 < n < 10001;
  }
}
