/** What the webhook, the desk and the paying guest are answered, case by case, told in naira,
    microseconds and rows. */
module PaymentAnswers {
  import opened Model
  import opened Operations
  import opened Invariant
  import opened Sales
  import opened Payability
  import Interleaving

  // ------------------------------------------------------------- references

  /** The number a string of digits stands for. */
  function Value(d: string): int {
    if d == "" then 0 else 10 * Value(d[..|d| - 1]) + (d[|d| - 1] as int - '0' as int)
  }

  /** Digits writes a number in decimal, without leading zeros. */
  lemma {:induction false} DigitsAreDecimal(n: nat)
    ensures Value(Digits(n)) == n
    ensures forall c <- Digits(n) :: '0' <= c <= '9'
    ensures n > 0 ==> Digits(n)[0] != '0'
  {
    var d := Digits(n);
    if n >= 10 {
      DigitsAreDecimal(n / 10);
      assert d[..|d| - 1] == Digits(n / 10) && d[0] == Digits(n / 10)[0];
    } else {
      assert d[..0] == "" && Value("") == 0;
      assert d == [(('0' as int) + n) as char];
    }
  }

  /** The delivery speaks of this booking. */
  predicate SpeaksOf(ev: PaymentEvent, id: BookingId) { ev.reference == "BOOK-" + Digits(id) }

  function Recorded(s: State, ev: PaymentEvent): State { s.(events := s.events[ev.id := EventRow(ev.kind, ev.reference)]) }

  // ---------------------------------------------------------- the webhook

  /** Deliveries that are about no booking, or come again. */
  lemma IdleDeliveries(s: State, ev: PaymentEvent)
    ensures ev.id in s.events ==> ProcessPaymentEvent(s, ev) == Reply(s, Ok(Duplicate))
    ensures ev.id !in s.events && ev.kind != "payment.succeeded" ==> ProcessPaymentEvent(s, ev) == Reply(Recorded(s, ev), Ok(Ignored))
    ensures ev.id !in s.events && ev.kind == "payment.succeeded" && (forall id <- s.bookings :: !SpeaksOf(ev, id)) ==>
              ProcessPaymentEvent(s, ev) == Reply(Recorded(s, ev), Ok(Orphan))
  {
    hide SettleBooking;
    var found := FindByRef(s.bookings, ev.reference);
    if found.Some? { assert SpeaksOf(ev, found.value); }
  }

  /** A first delivery of a successful payment for a booking of ours. */
  predicate Arrives(s: State, ev: PaymentEvent, id: BookingId) {
    ev.id !in s.events && ev.kind == "payment.succeeded" && id in s.bookings && SpeaksOf(ev, id)
  }

  lemma ArrivesAtItsBooking(s: State, ev: PaymentEvent, id: BookingId)
    requires Arrives(s, ev, id)
    ensures ProcessPaymentEvent(s, ev) == SettleBooking(s, ev, id)
  {
    hide SettleBooking;
    FindsItsBooking(s.bookings, id);
  }

  lemma SettledBookingsStay(s: State, ev: PaymentEvent, id: BookingId)
    requires Arrives(s, ev, id) && s.bookings[id].status != Processing
    ensures ProcessPaymentEvent(s, ev) == Reply(Recorded(s, ev), Ok(Duplicate))
  {
    ArrivesAtItsBooking(s, ev, id);
    hide ProcessPaymentEvent, Ref;
  }

  /** Any other currency, and any amount more than a kobo off, is refused without a trace. */
  lemma WrongMoneyIsRefused(s: State, ev: PaymentEvent, id: BookingId)
    requires Arrives(s, ev, id) && s.bookings[id].status == Processing
    requires ev.currency != "NGN" || ev.amount - s.bookings[id].total > 0.01 || s.bookings[id].total - ev.amount > 0.01
    ensures ProcessPaymentEvent(s, ev) == Reply(s, Raised(AmountMismatch))
  {
    ArrivesAtItsBooking(s, ev, id);
    hide ProcessPaymentEvent, Ref;
  }

  predicate ExactNaira(amount: real, currency: string, total: real) {
    currency == "NGN" && amount - total <= 0.01 && total - amount <= 0.01
  }

  predicate OwnLiveHold(s: State, b: Booking) {
    b.room in s.holds && !s.holds[b.room].consumed && s.now < s.holds[b.room].expiresAt && s.holds[b.room].guest == b.guest
  }

  lemma MoneyWithoutHoldCancels(s: State, ev: PaymentEvent, id: BookingId)
    requires Arrives(s, ev, id) && s.bookings[id].status == Processing
    requires ExactNaira(ev.amount, ev.currency, s.bookings[id].total) && !OwnLiveHold(s, s.bookings[id])
    ensures ProcessPaymentEvent(s, ev)
            == Reply(Recorded(s, ev).(bookings := s.bookings[id := s.bookings[id].(status := Cancelled)]), Raised(HoldGone))
  {
    ArrivesAtItsBooking(s, ev, id);
    hide ProcessPaymentEvent, Ref;
  }

  /** The night rows after a confirmation: the old ones, and every night of the stay. */
  ghost predicate NightsAdded(before: map<Night, BookingId>, id: BookingId, b: Booking, after: map<Night, BookingId>) {
    forall n ::
      && (n in after <==> n in before || (n.room == b.room && b.checkIn <= n.day && n.day < b.checkOut))
      && (n in after ==> after[n] == if n.room == b.room && b.checkIn <= n.day && n.day < b.checkOut then id else before[n])
  }

  lemma RowsAreNightsAdded(before: map<Night, BookingId>, id: BookingId, b: Booking)
    ensures NightsAdded(before, id, b, before + NightRows(id, b))
  {
    forall n ensures n in NightRows(id, b) <==> n.room == b.room && b.checkIn <= n.day && n.day < b.checkOut {
      NightKeysAre(b, n);
    }
  }

  /** One of the keys that the confirming commit inserts is taken. */
  predicate KeysTaken(s: State, id: BookingId, event: Option<EventId>)
    requires id in s.bookings
  {
    || id in s.payments
    || (event != None && exists other <- s.payments :: s.payments[other].event == event)
    || exists n <- s.nights :: n.room == s.bookings[id].room && s.bookings[id].checkIn <= n.day && n.day < s.bookings[id].checkOut
  }

  lemma KeysTakenIs(s: State, id: BookingId, payment: Payment)
    requires id in s.bookings
    ensures KeysTaken(s, id, payment.event) <==> PaymentClash(s.payments, id, payment) || NightClash(s.nights, s.bookings[id])
  {
    var b := s.bookings[id];
    if n :| n in s.nights && n.room == b.room && b.checkIn <= n.day && n.day < b.checkOut { NightKeysAre(b, n); }
    if n :| n in NightKeys(b) && n in s.nights { NightKeysAre(b, n); }
  }

  /** The right money under the guest's own hold: everything is written, or on a taken key nothing. */
  lemma MoneyUnderHold(s: State, ev: PaymentEvent, id: BookingId)
    requires Arrives(s, ev, id) && s.bookings[id].status == Processing
    requires ExactNaira(ev.amount, ev.currency, s.bookings[id].total) && OwnLiveHold(s, s.bookings[id])
    ensures var b, r := s.bookings[id], ProcessPaymentEvent(s, ev);
            && (b.room !in s.rooms ==> r == Reply(s, Raised(AmountMismatch)))
            && (b.room in s.rooms && KeysTaken(s, id, Some(ev.id)) ==> r == Reply(s, Raised(KeyClash)))
            && (b.room in s.rooms && !KeysTaken(s, id, Some(ev.id)) ==>
                  r.outcome == Ok(PaidOnline(id)) && NightsAdded(s.nights, id, b, r.state.nights)
                  && r.state == Recorded(s, ev).(bookings := s.bookings[id := b.(status := Confirmed)], holds := s.holds - {b.room},
                                                 nights := r.state.nights,
                                                 payments := s.payments[id := Payment(ev.amount, "NGN", Online, Some(ev.id), None)]))
  {
    ArrivesAtItsBooking(s, ev, id);
    KeysTakenIs(s, id, OnlinePayment(ev));
    RowsAreNightsAdded(s.nights, id, s.bookings[id]);
    hide ProcessPaymentEvent, Ref, KeysTaken, PaymentClash, NightClash, NightRows, NightsAdded;
  }

  // --------------------------------------------------------------- the desk

  lemma DeskRefuses(s: State, id: BookingId, staff: Email, amount: real, currency: string)
    ensures var r := RecordOfflinePayment(s, id, staff, amount, currency);
            && (id !in s.bookings ==> r == Reply(s, Raised(BookingMissing)))
            && (id in s.bookings && s.bookings[id].status != Processing ==> r == Reply(s, Raised(NotProcessing)))
            && (id in s.bookings && s.bookings[id].status == Processing
                && (currency != "NGN" || amount - s.bookings[id].total > 0.01 || s.bookings[id].total - amount > 0.01) ==>
                  r == Reply(s, Raised(AmountMismatch)))
  {
    hide PaymentClash, NightClash;
  }

  /** The desk needs no hold and touches none. */
  lemma DeskConfirms(s: State, id: BookingId, staff: Email, amount: real, currency: string)
    requires id in s.bookings && s.bookings[id].status == Processing && ExactNaira(amount, currency, s.bookings[id].total)
    ensures var b, r := s.bookings[id], RecordOfflinePayment(s, id, staff, amount, currency);
            && (b.room !in s.rooms ==> r == Reply(s, Raised(RoomUnavailable)))
            && (b.room in s.rooms && KeysTaken(s, id, None) ==> r == Reply(s, Raised(KeyClash)))
            && (b.room in s.rooms && !KeysTaken(s, id, None) ==>
                  r.outcome == Ok(PaidOffline(id)) && NightsAdded(s.nights, id, b, r.state.nights)
                  && r.state == s.(bookings := s.bookings[id := b.(status := Confirmed)], nights := r.state.nights,
                                   payments := s.payments[id := Payment(amount, "NGN", Offline, None, Some(staff))]))
  {
    KeysTakenIs(s, id, Payment(amount, currency, Offline, None, Some(staff)));
    RowsAreNightsAdded(s.nights, id, s.bookings[id]);
    hide KeysTaken, PaymentClash, NightClash, NightRows, NightsAdded;
  }

  // --------------------------------------------------------- the paying guest

  /** Only the guest of a booking pays for it online, and only while it waits. */
  lemma PayingIsRefused(s: State, id: BookingId, guest: Email, eventId: EventId)
    ensures var r := PayBooking(s, id, guest, eventId);
            && (id !in s.bookings ==> r == Reply(s, Raised(BookingMissing)))
            && (id in s.bookings && s.bookings[id].guest != guest ==> r == Reply(s, Raised(NotYours)))
            && (id in s.bookings && s.bookings[id].guest == guest && s.bookings[id].status == Confirmed ==> r == Reply(s, Ok(AlreadyPaid)))
            && (id in s.bookings && s.bookings[id].guest == guest && s.bookings[id].status !in {Confirmed, Processing} ==>
                  r == Reply(s, Raised(NotProcessing)))
  {
    hide ProcessPaymentEvent;
  }

  /** The same when it is a concurrent request that only reads: it never waits for a provider. */
  lemma PayingIsRefusedAtTheRead(s: State, id: BookingId, guest: Email, eventId: EventId)
    ensures var phase := Interleaving.Read(s, PayOnline(id, guest, eventId));
            && (id !in s.bookings ==> phase == Interleaving.Done(Raised(BookingMissing)))
            && (id in s.bookings && s.bookings[id].guest != guest ==> phase == Interleaving.Done(Raised(NotYours)))
            && (id in s.bookings && s.bookings[id].guest == guest && s.bookings[id].status == Confirmed ==>
                  phase == Interleaving.Done(Ok(AlreadyPaid)))
            && (id in s.bookings && s.bookings[id].guest == guest && s.bookings[id].status !in {Confirmed, Processing} ==>
                  phase == Interleaving.Done(Raised(NotProcessing)))
            && (id in s.bookings && s.bookings[id].guest == guest && s.bookings[id].status == Processing ==>
                  phase == Interleaving.AwaitProvider(id))
  {}

  /** What the provider charges and reports: the nearest whole naira, never less than one. The
      answer follows the booking's status after that. */
  lemma PayingIsOneDelivery(s: State, id: BookingId, eventId: EventId)
    requires id in s.bookings && s.bookings[id].status == Processing
    ensures var b := s.bookings[id];
            var r, charged := PayBooking(s, id, b.guest, eventId), RoundHalfEven(b.total);
            if charged <= 0 then r == Reply(s, Raised(PaymentNotConfirmed))
            else
              var after := ProcessPaymentEvent(s, PaymentEvent(eventId, "payment.succeeded", "BOOK-" + Digits(id), charged as real, "NGN")).state;
              && r.state == after && id in after.bookings
              && r.outcome == if after.bookings[id].status == Confirmed then Ok(PaymentDone(id))
                              else if after.bookings[id].status == Cancelled then Raised(HoldGone)
                              else Raised(PaymentNotConfirmed)
  {
    var ev := ProviderEvent(id, s.bookings[id], eventId);
    if eventId !in s.events { ArrivesAtItsBooking(s, ev, id); }
    hide PaymentClash, NightClash, NightRows, RightAmount, HoldBacks, RoundHalfEven;
  }

  predicate Near(n: int, total: real) { n as real - total <= 0.01 && total - n as real <= 0.01 }

  /** Payable online are the totals within a kobo of some positive whole number of naira. */
  lemma PayableMeansNearlyWhole(total: real)
    ensures Payable(total) <==> exists n :: n >= 1 && Near(n, total)
  {
    if n :| n >= 1 && Near(n, total) { assert RoundHalfEven(total) == n; }
    if Payable(total) { assert Near(RoundHalfEven(total), total); }
  }
}
