/** Conservation of nights and money under concurrency. Status may lie there, so everything is
    counted over the bookings that have a payment. */
module Takings {
  import opened Model
  import opened Operations
  import opened Invariant
  import opened Sales
  import opened Interleaving
  import opened Concurrency

  function Length(b: Booking): nat { if b.checkIn < b.checkOut then b.checkOut - b.checkIn else 0 }

  predicate HasPaid(s: State, id: BookingId) { id in s.payments && id in s.bookings }

  /** The nights of the bookings below n that have a payment, and what these bookings cost. */
  function Covered(s: State, n: nat): nat {
    if n == 0 then 0 else Covered(s, n - 1) + if HasPaid(s, n - 1) then Length(s.bookings[n - 1]) else 0
  }

  function Charged(s: State, n: nat): real {
    if n == 0 then 0.0 else Charged(s, n - 1) + if HasPaid(s, n - 1) then s.bookings[n - 1].total else 0.0
  }

  lemma OwnNights(s: State, id: BookingId)
    requires NightsBacked(s.bookings, s.payments, s.nights) && NightsComplete(s.bookings, s.payments, s.nights)
    ensures |NightsOf(s, id)| == if HasPaid(s, id) then Length(s.bookings[id]) else 0
  {
    if HasPaid(s, id) {
      var b := s.bookings[id];
      forall n ensures n in NightsOf(s, id) <==> n in NightKeys(b) {
        NightKeysAre(b, n);
        if n in NightKeys(b) { assert Owns(id, b, s.nights) && InStay(b, n.day); }
      }
      assert NightsOf(s, id) == NightKeys(b);
      StayLength(if b.checkIn < b.checkOut then b else b.(checkOut := b.checkIn));
      EmptyStay(b);
    } else {
      assert NightsOf(s, id) == {};
    }
  }

  lemma EmptyStay(b: Booking)
    ensures b.checkOut <= b.checkIn ==> NightKeys(b) == {}
  {
    forall n ensures n in NightKeys(b) ==> b.checkIn < b.checkOut { NightKeysAre(b, n); }
  }

  lemma {:induction false} NightsAreCovered(s: State, n: nat)
    requires NightsBacked(s.bookings, s.payments, s.nights) && NightsComplete(s.bookings, s.payments, s.nights)
    ensures |NightsBelow(s, n)| == Covered(s, n)
  {
    hide NightsBacked, NightsComplete, HasPaid;
    if n > 0 {
      NightsAreCovered(s, n - 1);
      OwnNights(s, n - 1);
      var earlier, own := NightsBelow(s, n - 1), NightsOf(s, n - 1);
      assert NightsBelow(s, n) == earlier + own && earlier !! own;
      assert |earlier + own| == |earlier| + |own|;
    }
  }

  lemma PaymentIsClose(s: State, id: BookingId)
    requires PaymentsSafe(s.bookings, s.payments, s.events)
    ensures id in s.payments ==> id in s.bookings && Close(s.payments[id].amount, s.bookings[id].total)
  {
    if id in s.payments { assert PaymentOk(s.payments[id], id, s.bookings[id], s.events); }
  }

  lemma {:induction false} TakingsFitCharges(s: State, n: nat)
    requires PaymentsSafe(s.bookings, s.payments, s.events)
    ensures -0.01 * |PaymentsBelow(s, n)| as real <= Received(s, n) - Charged(s, n) <= 0.01 * |PaymentsBelow(s, n)| as real
  {
    hide PaymentsSafe;
    if n > 0 {
      TakingsFitCharges(s, n - 1);
      PaymentIsClose(s, n - 1);
      OneMorePayment(s.payments, n, PaymentsBelow(s, n - 1), PaymentsBelow(s, n));
    }
  }

  /** In every interleaving: the night rows are as many as the nights of the bookings with a
      payment, and the money received is within a kobo per payment of what they cost. */
  lemma EveryScheduleConserves(db: State, actions: seq<Action>)
    requires DbSafe(db)
    ensures var end := Schedule(Start(db), actions).db;
            && |end.nights| == Covered(end, end.nextId)
            && -0.01 * |end.payments| as real <= Received(end, end.nextId) - Charged(end, end.nextId) <= 0.01 * |end.payments| as real
  {
    EveryScheduleIsSafe(db, actions);
    hide Schedule, PhasesOk, Ledger;
    var end := Schedule(Start(db), actions).db;
    NightsAreCovered(end, end.nextId);
    TakingsFitCharges(end, end.nextId);
    assert NightsBelow(end, end.nextId) == end.nights.Keys;
    assert PaymentsBelow(end, end.nextId) == end.payments.Keys;
  }
}
