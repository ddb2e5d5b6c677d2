/** How a booking may move through its life, what a refusal leaves behind, and why a
    payment event that is delivered again does nothing. */
module Lifecycle {
  import opened Model
  import opened Operations
  import opened Invariant
  import opened Sales

  // ---------------------------------------------------------- status over time

  predicate Move(before: Status, after: Status) {
    || before == after
    || (before.Processing? && (after.Confirmed? || after.Cancelled?))
    || (before.Confirmed? && after.CheckedIn?)
    || (before.CheckedIn? && after.Completed?)
  }

  function Rank(status: Status): nat {
    match status
    case OnHold | Processing => 0
    case Confirmed => 1
    case CheckedIn => 2
    case Completed | Cancelled => 3
  }

  /** What may happen to a booking row in one step, on the given day. */
  predicate Onward(before: Booking, after: Booking, today: Day) {
    && SameStay(before, after)
    && Move(before.status, after.status)
    && (before.status.Confirmed? && after != before ==> before.checkIn == today)
    && (before.status.CheckedIn? && after != before ==> before.checkOut == today)
  }

  ghost predicate Grows<K, V>(before: map<K, V>, after: map<K, V>) {
    forall k <- before :: k in after && after[k] == before[k]
  }

  ghost predicate AllOnward(before: Bookings, after: Bookings, today: Day) {
    forall id <- before :: id in after && Onward(before[id], after[id], today)
  }

  /** A row that was not there before carries the present as its date of creation. */
  ghost predicate FreshRows(before: Bookings, after: Bookings, now: Instant) {
    forall id <- after :: id in before || after[id].createdAt == now
  }

  /** What no operation does: turn back the clock, lose an event, a payment or a sold night,
      lose a booking, edit its stay or its price, or move it backwards. */
  ghost predicate Evolves(s: State, s': State) {
    && s.now <= s'.now
    && Grows(s.events, s'.events)
    && Grows(s.payments, s'.payments)
    && Grows(s.nights, s'.nights)
    && AllOnward(s.bookings, s'.bookings, Today(s.now))
    && FreshRows(s.bookings, s'.bookings, s.now)
  }

  lemma StatusMovesOn(s: State, id: BookingId, status: Status)
    requires id in s.bookings && Onward(s.bookings[id], s.bookings[id].(status := status), Today(s.now))
    ensures AllOnward(s.bookings, WithStatus(s.bookings, id, status), Today(s.now))
    ensures FreshRows(s.bookings, WithStatus(s.bookings, id, status), s.now)
  {}

  lemma StandingStillEvolves(s: State)
    ensures Evolves(s, s)
  {}

  lemma LoggingGrows(s: State, ev: PaymentEvent)
    requires ev.id !in s.events
    ensures Evolves(s, Logged(s, ev))
  {}

  lemma NewRowMovesNone(s: State, b: Booking)
    requires BookingsOk(s.bookings, s.rooms, s.nextId, s.now) && b.createdAt == s.now
    ensures AllOnward(s.bookings, s.bookings[s.nextId := b], Today(s.now))
    ensures FreshRows(s.bookings, s.bookings[s.nextId := b], s.now)
  {
    assert s.nextId !in s.bookings;
  }

  lemma CreateBookingEvolves(s: State, client: User, req: BookingRequest)
    requires BookingsOk(s.bookings, s.rooms, s.nextId, s.now)
    ensures Evolves(s, CreateBooking(s, client, req).state)
  {
    hide BlockedByBooking, NightsTaken, ResolveGuest, Grows, AllOnward, FreshRows, BookingsOk;
    StandingStillEvolves(s);
    var r := CreateBooking(s, client, req);
    if r.outcome.Ok? { NewRowMovesNone(s, r.state.bookings[s.nextId]); }
  }

  lemma ConfirmEvolves(s: State, id: BookingId, payment: Payment)
    requires id in s.bookings && s.bookings[id].status.Processing?
    requires id !in s.payments && !NightClash(s.nights, s.bookings[id])
    ensures Evolves(s, Confirm(s, id, payment))
  {
    StatusMovesOn(s, id, Confirmed);
    assert forall n <- s.nights :: n !in NightKeys(s.bookings[id]);
    hide AllOnward, FreshRows;
  }

  lemma RecordOfflinePaymentEvolves(s: State, id: BookingId, staff: Email, amount: real, currency: string)
    ensures Evolves(s, RecordOfflinePayment(s, id, staff, amount, currency).state)
  {
    if RecordOfflinePayment(s, id, staff, amount, currency).outcome.Ok? {
      ConfirmEvolves(s, id, Payment(amount, currency, Offline, None, Some(staff)));
    }
  }

  lemma ConfirmWritesOneStatus(s: State, id: BookingId, payment: Payment)
    requires id in s.bookings
    ensures Confirm(s, id, payment).rooms == s.rooms && Confirm(s, id, payment).bookings == WithStatus(s.bookings, id, Confirmed)
  {}

  /** Under the lock a delivery writes at most the status of its own booking. */
  lemma SettleWritesOneStatus(s: State, ev: PaymentEvent, id: BookingId)
    requires id in s.bookings
    ensures var r := SettleBooking(s, ev, id);
            && r.state.rooms == s.rooms
            && r.state.bookings == if r.outcome == Ok(PaidOnline(id)) then WithStatus(s.bookings, id, Confirmed)
                                   else if r.outcome == Raised(HoldGone) then WithStatus(s.bookings, id, Cancelled)
                                   else s.bookings
  {
    hide Confirm, HoldBacks, PaymentClash, NightClash, RightAmount, WithStatus, OnlinePayment;
    ConfirmWritesOneStatus(Logged(s, ev), id, OnlinePayment(ev));
  }

  lemma SettleBookingEvolves(s: State, ev: PaymentEvent, id: BookingId)
    requires id in s.bookings && ev.id !in s.events
    ensures Evolves(s, SettleBooking(s, ev, id).state)
  {
    hide NightClash, HoldBacks, RightAmount, NightRows, Grows, AllOnward, FreshRows;
    var r := SettleBooking(s, ev, id);
    StandingStillEvolves(s);
    LoggingGrows(s, ev);
    if r.outcome == Ok(PaidOnline(id)) {
      ConfirmEvolves(Logged(s, ev), id, OnlinePayment(ev));
    } else if r.outcome == Raised(HoldGone) {
      StatusMovesOn(s, id, Cancelled);
    }
  }

  lemma ProcessPaymentEventEvolves(s: State, ev: PaymentEvent)
    ensures Evolves(s, ProcessPaymentEvent(s, ev).state)
  {
    hide SettleBooking, Grows, AllOnward, FreshRows;
    StandingStillEvolves(s);
    if ev.id !in s.events {
      LoggingGrows(s, ev);
      var found := FindByRef(s.bookings, ev.reference);
      if ev.kind == SUCCEEDED && found.Some? { SettleBookingEvolves(s, ev, found.value); }
    }
  }

  lemma PayBookingEvolves(s: State, id: BookingId, guest: Email, eventId: EventId)
    ensures Evolves(s, PayBooking(s, id, guest, eventId).state)
  {
    if id in s.bookings { ProcessPaymentEventEvolves(s, ProviderEvent(id, s.bookings[id], eventId)); }
    hide ProcessPaymentEvent;
  }

  lemma CheckInGuestEvolves(s: State, id: BookingId)
    ensures Evolves(s, CheckInGuest(s, id).state)
  {
    if CheckInGuest(s, id).outcome.Ok? { StatusMovesOn(s, id, CheckedIn); hide AllOnward, FreshRows; }
  }

  lemma CheckOutGuestEvolves(s: State, id: BookingId)
    ensures Evolves(s, CheckOutGuest(s, id).state)
  {
    if CheckOutGuest(s, id).outcome == Ok(GuestOut) { StatusMovesOn(s, id, Completed); hide AllOnward, FreshRows; }
  }

  lemma CancelStaleProcessingEvolves(s: State, grace: int)
    ensures Evolves(s, CancelStaleProcessing(s, grace).state)
  {}

  lemma StepEvolves(s: State, step: Step)
    requires Inv(s)
    ensures Evolves(s, Exec(s, step).state)
  {
    hide HoldsOk, RoomsOk, PaymentsOk, NightsOk, Disjoint, CreateBooking, RecordOfflinePayment, ProcessPaymentEvent,
      PayBooking, CheckInGuest, CheckOutGuest, CancelStaleProcessing, Grows, AllOnward, FreshRows;
    StandingStillEvolves(s);
    match step
    case SweepBookings(grace) => CancelStaleProcessingEvolves(s, grace);
    case Book(client, req) => CreateBookingEvolves(s, client, req);
    case PayOffline(id, staff, amount, currency) => RecordOfflinePaymentEvolves(s, id, staff, amount, currency);
    case Deliver(ev) => ProcessPaymentEventEvolves(s, ev);
    case PayOnline(id, guest, eventId) => PayBookingEvolves(s, id, guest, eventId);
    case Arrive(id) => CheckInGuestEvolves(s, id);
    case Depart(id) => CheckOutGuestEvolves(s, id);
    case _ =>
  }

  /** The same over a whole run, but for the days on which the moves are made. */
  lemma {:induction false} RunEvolves(s: State, steps: seq<Step>)
    requires Inv(s)
    ensures s.now <= Run(s, steps).now
    ensures forall e <- s.events :: e in Run(s, steps).events
    ensures forall id <- s.payments :: id in Run(s, steps).payments && Run(s, steps).payments[id] == s.payments[id]
    ensures forall n <- s.nights :: n in Run(s, steps).nights && Run(s, steps).nights[n] == s.nights[n]
    ensures forall id <- s.bookings :: id in Run(s, steps).bookings && SameStay(s.bookings[id], Run(s, steps).bookings[id])
    ensures forall id <- s.bookings :: s.bookings[id].status.Processing? || !Run(s, steps).bookings[id].status.Processing?
  {
    hide Inv, Exec;
    if steps != [] {
      RunEvolves(s, steps[..|steps| - 1]);
      RunKeeps(s, steps[..|steps| - 1]);
      StepEvolves(Run(s, steps[..|steps| - 1]), steps[|steps| - 1]);
    }
  }

  lemma RunKeepsBooking(s: State, steps: seq<Step>, id: BookingId)
    requires Inv(s) && id in s.bookings
    ensures id in Run(s, steps).bookings && SameStay(s.bookings[id], Run(s, steps).bookings[id])
    ensures s.now <= Run(s, steps).now
  {
    hide Inv, Exec;
    RunEvolves(s, steps);
  }

  predicate ChangedBy(s: State, step: Step, id: BookingId) {
    id in s.bookings && id in Exec(s, step).state.bookings
    && s.bookings[id].status != Exec(s, step).state.bookings[id].status
  }

  function Changes(s: State, steps: seq<Step>, id: BookingId): nat {
    if steps == [] then 0
    else
      var before := steps[..|steps| - 1];
      Changes(s, before, id) + if ChangedBy(Run(s, before), steps[|steps| - 1], id) then 1 else 0
  }

  function RankOf(s: State, id: BookingId): nat { if id in s.bookings then Rank(s.bookings[id].status) else 0 }

  /** In a whole run a booking changes status at most three times. */
  lemma {:induction false} AtMostThreeChanges(s: State, steps: seq<Step>, id: BookingId)
    requires Inv(s)
    ensures RankOf(s, id) + Changes(s, steps, id) <= RankOf(Run(s, steps), id) <= 3
  {
    hide Inv, Exec;
    if steps != [] {
      AtMostThreeChanges(s, steps[..|steps| - 1], id);
      RunKeeps(s, steps[..|steps| - 1]);
      StepEvolves(Run(s, steps[..|steps| - 1]), steps[|steps| - 1]);
    }
  }

  // -------------------------------------------------------------------- holds

  ghost predicate OnlyDropped(before: map<RoomId, Hold>, after: map<RoomId, Hold>) {
    forall r <- after :: r in before && after[r] == before[r]
  }

  /** Holds appear when they are placed and are never edited afterwards, only dropped. */
  ghost predicate HoldsOnlyPlaced(s: State, step: Step, after: map<RoomId, Hold>) {
    || OnlyDropped(s.holds, after)
    || (step.PlaceHold? && step.room !in s.holds && after == s.holds[step.room := Hold(step.guest, s.now + HOLD_TIME, false)])
  }

  lemma DroppingDrops(holds: map<RoomId, Hold>, dropped: set<RoomId>)
    ensures OnlyDropped(holds, holds - dropped) && OnlyDropped(holds, holds)
  {}

  lemma SettleDropsOneHold(s: State, ev: PaymentEvent, id: BookingId)
    requires id in s.bookings
    ensures var r := SettleBooking(s, ev, id);
            r.state.holds == if r.outcome == Ok(PaidOnline(id)) then s.holds - {s.bookings[id].room} else s.holds
  {
    hide PaymentClash, NightClash, RightAmount, NightRows, WithStatus, HoldBacks, OnlinePayment;
  }

  lemma DeliveryOnlyDropsHolds(s: State, ev: PaymentEvent)
    ensures OnlyDropped(s.holds, ProcessPaymentEvent(s, ev).state.holds)
  {
    hide SettleBooking, Ref, FindByRef, OnlyDropped;
    DroppingDrops(s.holds, {});
    var found := FindByRef(s.bookings, ev.reference);
    if ev.id !in s.events && ev.kind == SUCCEEDED && found.Some? {
      SettleDropsOneHold(s, ev, found.value);
      DroppingDrops(s.holds, {s.bookings[found.value].room});
    }
  }

  lemma BookingOnlyDropsHolds(s: State, client: User, req: BookingRequest)
    ensures OnlyDropped(s.holds, CreateBooking(s, client, req).state.holds)
  {
    hide BlockedByBooking, NightsTaken, ResolveGuest, Live, Today, NewBooking, OnlyDropped;
    DroppingDrops(s.holds, {req.room});
  }

  lemma StepOnlyPlacesHolds(s: State, step: Step)
    ensures HoldsOnlyPlaced(s, step, Exec(s, step).state.holds)
  {
    hide OnlyDropped, ProcessPaymentEvent, CreateBooking, PaymentClash, NightClash, RightAmount, NightRows, CancelAll, Stale, OwnHolds;
    DroppingDrops(s.holds, {});
    match step
    case Book(client, req) => BookingOnlyDropsHolds(s, client, req);
    case Deliver(ev) => DeliveryOnlyDropsHolds(s, ev);
    case PayOnline(id, _, eventId) => if id in s.bookings { DeliveryOnlyDropsHolds(s, ProviderEvent(id, s.bookings[id], eventId)); }
    case SweepHolds => DroppingDrops(s.holds, DeadHolds(s));
    case SweepBookings(grace) => DroppingDrops(s.holds, OwnHolds(s, StaleIds(s, grace)));
    case _ =>
  }

  /** No hold is ever marked as consumed: a booking leaves its hold as it was. */
  lemma {:induction false} HoldsAreNeverConsumed(s: State, steps: seq<Step>)
    requires Initial(s)
    ensures forall r <- Run(s, steps).holds :: !Run(s, steps).holds[r].consumed
  {
    hide Exec;
    if steps != [] {
      HoldsAreNeverConsumed(s, steps[..|steps| - 1]);
      StepOnlyPlacesHolds(Run(s, steps[..|steps| - 1]), steps[|steps| - 1]);
    }
  }

  // ------------------------------------------------- guests who miss their day

  /** A guest who did not arrive on the day can never be checked in: the booking stays
      confirmed for ever. */
  lemma {:induction false} MissedArrivalIsFinal(s: State, steps: seq<Step>, id: BookingId)
    requires Inv(s) && id in s.bookings && s.bookings[id].status.Confirmed? && s.bookings[id].checkIn < Today(s.now)
    ensures id in Run(s, steps).bookings && Run(s, steps).bookings[id] == s.bookings[id]
  {
    hide Inv, Exec;
    if steps != [] {
      MissedArrivalIsFinal(s, steps[..|steps| - 1], id);
      RunKeeps(s, steps[..|steps| - 1]);
      RunEvolves(s, steps[..|steps| - 1]);
      StepEvolves(Run(s, steps[..|steps| - 1]), steps[|steps| - 1]);
    }
  }

  /** And a guest who overstayed can never be checked out. */
  lemma {:induction false} MissedDepartureIsFinal(s: State, steps: seq<Step>, id: BookingId)
    requires Inv(s) && id in s.bookings && s.bookings[id].status.CheckedIn? && s.bookings[id].checkOut < Today(s.now)
    ensures id in Run(s, steps).bookings && Run(s, steps).bookings[id] == s.bookings[id]
  {
    hide Inv, Exec;
    if steps != [] {
      MissedDepartureIsFinal(s, steps[..|steps| - 1], id);
      RunKeeps(s, steps[..|steps| - 1]);
      RunEvolves(s, steps[..|steps| - 1]);
      StepEvolves(Run(s, steps[..|steps| - 1]), steps[|steps| - 1]);
    }
  }

  // ----------------------------------------------------------------- refusals

  /** What a failure leaves behind: nothing, except that an expired hold is dropped and a
      booking paid without its hold is cancelled and the event recorded. */
  ghost predicate LeavesNoTrace(s: State, step: Step, r: Reply) {
    && (r.outcome.Raised? && r.outcome.error != HoldExpired && r.outcome.error != HoldGone ==> r.state == s)
    && (r.outcome == Raised(HoldExpired) ==> step.Book? && r.state == s.(holds := s.holds - {step.req.room}))
    && (r.outcome == Raised(HoldGone) ==>
          if step.PayOnline? then
            step.id in s.bookings && LosesHold(s, ProviderEvent(step.id, s.bookings[step.id], step.eventId), step.id, r.state)
          else step.Deliver? && exists id :: LosesHold(s, step.ev, id, r.state))
  }

  /** The booking is cancelled and the event recorded, nothing else. */
  predicate LosesHold(s: State, ev: PaymentEvent, id: BookingId, after: State) {
    && id in s.bookings && s.bookings[id].status.Processing? && ev.reference == Ref(id)
    && after == Logged(s, ev).(bookings := WithStatus(s.bookings, id, Cancelled))
  }

  lemma DeliveryLeavesNoTrace(s: State, ev: PaymentEvent)
    ensures LeavesNoTrace(s, Deliver(ev), ProcessPaymentEvent(s, ev))
  {
    var found, r := FindByRef(s.bookings, ev.reference), ProcessPaymentEvent(s, ev);
    if r.outcome == Raised(HoldGone) { assert LosesHold(s, ev, found.value, r.state); }
    hide HoldBacks, PaymentClash, NightClash, NightRows, RightAmount, Ref, FindByRef;
  }

  /** The provider's delivery goes straight to its booking. */
  lemma ProviderDelivery(s: State, id: BookingId, eventId: EventId)
    requires id in s.bookings
    ensures var ev := ProviderEvent(id, s.bookings[id], eventId);
            ProcessPaymentEvent(s, ev) == if eventId in s.events then Reply(s, Ok(Duplicate)) else SettleBooking(s, ev, id)
  {
    hide SettleBooking, Ref;
    FindsItsBooking(s.bookings, id);
  }

  /** A delivery for a booking that waits confirms it, cancels it, or does nothing. */
  lemma WaitingIsSettled(s: State, ev: PaymentEvent, id: BookingId)
    requires id in s.bookings && s.bookings[id].status.Processing?
    ensures var r := SettleBooking(s, ev, id);
            || (id in r.state.bookings && r.state.bookings[id].status.Confirmed?)
            || r.state == Logged(s, ev).(bookings := WithStatus(s.bookings, id, Cancelled))
            || r.state == s
  {
    hide HoldBacks, PaymentClash, NightClash, RightAmount, NightRows, OnlinePayment;
  }

  lemma PaymentMovesOrNot(s: State, id: BookingId, guest: Email, eventId: EventId)
    ensures var r := PayBooking(s, id, guest, eventId);
            r.outcome == Ok(PaymentDone(id)) || r.outcome == Raised(HoldGone) || r.state == s
    ensures PayBooking(s, id, guest, eventId).outcome == Raised(HoldGone) ==>
              id in s.bookings && s.bookings[id].status.Processing? &&
              var ev := ProviderEvent(id, s.bookings[id], eventId);
              PayBooking(s, id, guest, eventId).state == Logged(s, ev).(bookings := WithStatus(s.bookings, id, Cancelled))
  {
    hide ProcessPaymentEvent, SettleBooking, Ref, RoundHalfEven;
    if id in s.bookings && s.bookings[id].status.Processing? {
      ProviderDelivery(s, id, eventId);
      WaitingIsSettled(s, ProviderEvent(id, s.bookings[id], eventId), id);
    }
  }

  lemma PaymentLeavesNoTrace(s: State, id: BookingId, guest: Email, eventId: EventId)
    ensures LeavesNoTrace(s, PayOnline(id, guest, eventId), PayBooking(s, id, guest, eventId))
  {
    PaymentMovesOrNot(s, id, guest, eventId);
    if id in s.bookings {
      var ev := ProviderEvent(id, s.bookings[id], eventId);
      assert ev.reference == Ref(id);
    }
    PaymentIsNotBooking(s, id, guest, eventId);
    hide PayBooking;
  }

  lemma PaymentIsNotBooking(s: State, id: BookingId, guest: Email, eventId: EventId)
    ensures PayBooking(s, id, guest, eventId).outcome != Raised(HoldExpired)
  {
    hide ProcessPaymentEvent;
  }

  lemma RefusalsLeaveNoTrace(s: State, step: Step)
    ensures LeavesNoTrace(s, step, Exec(s, step))
  {
    hide ProcessPaymentEvent, PayBooking, PaymentClash, NightClash, NightRows, RightAmount, NightsTaken, BlockedByBooking;
    match step
    case Deliver(ev) => DeliveryLeavesNoTrace(s, ev);
    case PayOnline(id, guest, eventId) => PaymentLeavesNoTrace(s, id, guest, eventId);
    case _ =>
  }

  // ------------------------------------------------------------------ replays

  /** The answers to a delivery after which its event is on record: all but the two errors. */
  predicate Recorded(o: Outcome) { o != Raised(AmountMismatch) && o != Raised(KeyClash) }

  /** A delivery that was not recorded changed nothing, and only the amount was wrong. */
  lemma UnrecordedIsMismatch(s: State, ev: PaymentEvent)
    requires Inv(s) && !Recorded(ProcessPaymentEvent(s, ev).outcome)
    ensures ev.id !in s.events && ev.kind == SUCCEEDED && FindByRef(s.bookings, ev.reference).Some?
    ensures var b := s.bookings[FindByRef(s.bookings, ev.reference).value];
            b.status.Processing? && !RightAmount(ev.amount, ev.currency, b)
    ensures ProcessPaymentEvent(s, ev).state == s
  {
    var id := FindByRef(s.bookings, ev.reference).value;
    SettleNeverClashes(s, ev, id);
    assert BookingOk(s.bookings[id], s.rooms, s.now);
    hide HoldsOk, RoomsOk, PaymentsOk, NightsOk, Disjoint;
  }

  lemma SettledIsLogged(s: State, ev: PaymentEvent, id: BookingId)
    requires id in s.bookings && Recorded(SettleBooking(s, ev, id).outcome)
    ensures SettleBooking(s, ev, id).state.events == Logged(s, ev).events
  {
    hide HoldBacks, PaymentClash, NightClash, RightAmount, NightRows;
  }

  lemma RecordedIsLogged(s: State, ev: PaymentEvent)
    requires Recorded(ProcessPaymentEvent(s, ev).outcome)
    ensures ev.id in ProcessPaymentEvent(s, ev).state.events
  {
    hide SettleBooking;
    var found := FindByRef(s.bookings, ev.reference);
    if ev.id !in s.events && ev.kind == SUCCEEDED && found.Some? { SettledIsLogged(s, ev, found.value); }
  }

  /** Delivering an event a second time changes nothing, however late it comes. */
  lemma SecondDeliveryChangesNothing(s: State, ev: PaymentEvent, later: Instant)
    requires Inv(s)
    ensures var once := ProcessPaymentEvent(s, ev).state.(now := later);
            ProcessPaymentEvent(once, ev).state == once
  {
    hide Inv, HoldBacks, PaymentClash, NightClash, RightAmount, NightRows, Ref;
    if Recorded(ProcessPaymentEvent(s, ev).outcome) {
      RecordedIsLogged(s, ev);
      hide SettleBooking;
    } else {
      UnrecordedIsMismatch(s, ev);
    }
  }

  /** So no storm of retries, at any times, does more than the first delivery did. */
  lemma {:induction false} RetriesChangeNothing(s: State, ev: PaymentEvent, steps: seq<Step>)
    requires Inv(s)
    requires forall step <- steps :: step == Deliver(ev) || step.Tick?
    ensures var once := ProcessPaymentEvent(s, ev).state;
            Run(once, steps) == once.(now := Run(once, steps).now)
  {
    hide Inv, ProcessPaymentEvent;
    var once := ProcessPaymentEvent(s, ev).state;
    if steps != [] {
      RetriesChangeNothing(s, ev, steps[..|steps| - 1]);
      var before := Run(once, steps[..|steps| - 1]);
      SecondDeliveryChangesNothing(s, ev, before.now);
      assert before == once.(now := before.now);
      if steps[|steps| - 1] == Deliver(ev) {
        assert Exec(before, Deliver(ev)).state == before;
      } else {
        assert steps[|steps| - 1].Tick?;
      }
    }
  }

  /** Once a delivery has been answered with anything but an error, its event id is spent:
      whatever happens in between, every later delivery under that id is a duplicate. */
  lemma EventIdWorksOnce(s: State, ev: PaymentEvent, steps: seq<Step>, again: PaymentEvent)
    requires Inv(s) && Recorded(ProcessPaymentEvent(s, ev).outcome) && again.id == ev.id
    ensures var later := Run(ProcessPaymentEvent(s, ev).state, steps);
            ProcessPaymentEvent(later, again) == Reply(later, Ok(Duplicate))
  {
    hide Inv;
    ProcessPaymentEventKeeps(s, ev);
    RecordedIsLogged(s, ev);
    hide Exec, SettleBooking;
    RunEvolves(ProcessPaymentEvent(s, ev).state, steps);
  }

  predicate Pays(o: Outcome, id: BookingId) { o == Ok(PaidOffline(id)) || o == Ok(PaidOnline(id)) || o == Ok(PaymentDone(id)) }

  /** In any run a booking is paid at most once, online or offline, by whichever event. */
  lemma BookingIsPaidOnce(s: State, pay: Step, between: seq<Step>, again: Step, id: BookingId)
    requires Inv(s) && Pays(Exec(s, pay).outcome, id)
    ensures !Pays(Exec(Run(Exec(s, pay).state, between), again).outcome, id)
  {
    var paid := Exec(s, pay).state;
    ExecKeeps(s, pay);
    PayingEndsProcessing(s, pay, id);
    hide Inv, Exec;
    RunEvolves(paid, between);
    PayingNeedsProcessing(Run(paid, between), again, id);
  }

  lemma DeliveryEndsProcessing(s: State, ev: PaymentEvent, id: BookingId)
    requires ProcessPaymentEvent(s, ev).outcome == Ok(PaidOnline(id))
    ensures id in ProcessPaymentEvent(s, ev).state.bookings
    ensures ProcessPaymentEvent(s, ev).state.bookings[id].status.Confirmed?
  {
    hide HoldBacks, PaymentClash, NightClash, NightRows, RightAmount, Ref;
  }

  lemma PayingEndsProcessing(s: State, step: Step, id: BookingId)
    requires Pays(Exec(s, step).outcome, id)
    ensures id in Exec(s, step).state.bookings && !Exec(s, step).state.bookings[id].status.Processing?
  {
    if step.Deliver? { DeliveryEndsProcessing(s, step.ev, id); }
    hide ProcessPaymentEvent, PaymentClash, NightClash, NightRows, RightAmount, NightsTaken, BlockedByBooking, ResolveGuest;
  }

  lemma PayingNeedsProcessing(s: State, step: Step, id: BookingId)
    ensures Pays(Exec(s, step).outcome, id) ==> id in s.bookings && s.bookings[id].status.Processing?
  {}

  /** The guest has no hold on the room. */
  predicate NotHeldBy(holds: map<RoomId, Hold>, room: RoomId, guest: Email) { room in holds ==> holds[room].guest != guest }

  lemma {:induction false} NoHoldAppears(s: State, steps: seq<Step>, room: RoomId, guest: Email)
    requires NotHeldBy(s.holds, room, guest) && PlaceHold(room, guest) !in steps
    ensures NotHeldBy(Run(s, steps).holds, room, guest)
  {
    hide Exec;
    if steps != [] {
      NoHoldAppears(s, steps[..|steps| - 1], room, guest);
      StepOnlyPlacesHolds(Run(s, steps[..|steps| - 1]), steps[|steps| - 1]);
    }
  }

  lemma PaidTakesHold(s: State, ev: PaymentEvent, id: BookingId)
    requires ProcessPaymentEvent(s, ev).outcome == Ok(PaidOnline(id))
    ensures id in s.bookings && s.bookings[id].room !in ProcessPaymentEvent(s, ev).state.holds
  {
    hide PaymentClash, NightClash, RightAmount, NightRows, Ref, WithStatus, HoldBacks;
  }

  lemma MoneyWithoutHold(s: State, ev: PaymentEvent, id: BookingId)
    requires id in s.bookings && s.bookings[id].status.Processing? && NotHeldBy(s.holds, s.bookings[id].room, s.bookings[id].guest)
    requires ev.id !in s.events && ev.kind == SUCCEEDED && ev.reference == Ref(id)
    requires RightAmount(ev.amount, ev.currency, s.bookings[id])
    ensures var r := ProcessPaymentEvent(s, ev);
            r.outcome == Raised(HoldGone) && id in r.state.bookings && r.state.bookings[id].status.Cancelled?
  {
    hide RightAmount, Ref, FindByRef;
    FindsItsBooking(s.bookings, id);
  }

  /** One hold pays for one booking. A guest may book several stays under one hold, but once one
      of them is paid online the hold is gone: whatever happens in between, the right money for
      another one that still waits cancels it, unless the guest has placed a new hold. */
  lemma OneHoldPaysOnce(s: State, first: PaymentEvent, a: BookingId, between: seq<Step>, second: PaymentEvent, b: BookingId)
    requires ProcessPaymentEvent(s, first).outcome == Ok(PaidOnline(a))
    requires var later := Run(ProcessPaymentEvent(s, first).state, between);
             && b in later.bookings && later.bookings[b].status.Processing?
             && a in s.bookings && later.bookings[b].room == s.bookings[a].room
             && PlaceHold(later.bookings[b].room, later.bookings[b].guest) !in between
             && second.id !in later.events && second.kind == SUCCEEDED && second.reference == Ref(b)
             && RightAmount(second.amount, second.currency, later.bookings[b])
    ensures var r := ProcessPaymentEvent(Run(ProcessPaymentEvent(s, first).state, between), second);
            r.outcome == Raised(HoldGone) && b in r.state.bookings && r.state.bookings[b].status.Cancelled?
  {
    hide ProcessPaymentEvent, Run, RightAmount, Ref;
    PaidTakesHold(s, first, a);
    var paid := ProcessPaymentEvent(s, first).state;
    var row := Run(paid, between).bookings[b];
    NoHoldAppears(paid, between, row.room, row.guest);
    MoneyWithoutHold(Run(paid, between), second, b);
  }
}
