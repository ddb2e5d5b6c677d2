/** The background sweeps: what they may take away, from whom, and how long an abandoned
    booking can survive them. */
module Sweeps {
  import opened Model
  import opened Operations
  import opened Invariant
  import opened Sales
  import opened Lifecycle

  // ---------------------------------------------------- what one sweep changes

  function Cancellations(s: State, s': State): set<BookingId> {
    set id <- s.bookings | id in s'.bookings && s'.bookings[id] != s.bookings[id]
  }

  /** The sweep cancels the stale bookings and no others, reports how many, and takes with
      them exactly the holds of the same guests on the same rooms, newer holds included. */
  lemma SweepIsExact(s: State, grace: int)
    ensures var r := CancelStaleProcessing(s, grace);
            && r.outcome == Ok(Swept(|Cancellations(s, r.state)|))
            && r.state.bookings.Keys == s.bookings.Keys
            && (forall id <- s.bookings ::
                  r.state.bookings[id] == if Stale(s.bookings[id], s.now, grace) then s.bookings[id].(status := Cancelled)
                                          else s.bookings[id])
            && (forall room <- s.holds ::
                  if exists id <- s.bookings :: Stale(s.bookings[id], s.now, grace) && s.bookings[id].room == room
                                                && s.bookings[id].guest == s.holds[room].guest
                  then room !in r.state.holds
                  else room in r.state.holds && r.state.holds[room] == s.holds[room])
  {
    var r := CancelStaleProcessing(s, grace);
    assert Cancellations(s, r.state) == StaleIds(s, grace);
  }

  // ------------------------------------------------- the sweep and live holds

  /** A booking is safe from the age rule while the hold it was made under could still be
      alive: whatever happens between, the sweep then cancels it only when the day of arrival
      is over. (The hold itself is not safe; see SweepDropsHoldIff.) */
  lemma AgeRuleWaitsForTheBooking(s: State, client: User, req: BookingRequest, id: BookingId, between: seq<Step>, grace: nat)
    requires Inv(s) && CreateBooking(s, client, req).outcome == Ok(Booked(id))
    ensures req.room in s.holds
    ensures var later := Run(CreateBooking(s, client, req).state, between);
            later.now < s.holds[req.room].expiresAt ==>
              id in later.bookings && !Aged(later.bookings[id], later.now, grace)
              && (id in StaleIds(later, grace) <==>
                    later.bookings[id].status.Processing? && later.bookings[id].checkIn < Today(later.now))
  {
    hide CreateBooking, Inv, Exec;
    BookedUnderHold(s, client, req);
    CreateBookingKeeps(s, client, req);
    RunKeepsBooking(CreateBooking(s, client, req).state, between, id);
  }

  /** A booking of the same room and guest as the hold, still waiting for its money, which the
      sweep takes for its age or for its day of arrival. */
  predicate Drags(b: Booking, room: RoomId, hold: Hold, now: Instant, grace: int) {
    b.room == room && b.guest == hold.guest && b.status.Processing? && (Aged(b, now, grace) || b.checkIn < Today(now))
  }

  /** When the sweep undercuts a live hold. As long as the hold under which a booking was made
      is there and alive, the sweep drops it exactly when some waiting booking of the same
      guest and room is aged or past its day of arrival; and if one of these is aged, it is
      another booking, made earlier. */
  lemma SweepDropsHoldIff(s: State, client: User, req: BookingRequest, id: BookingId, between: seq<Step>, grace: nat)
    requires Inv(s) && CreateBooking(s, client, req).outcome == Ok(Booked(id))
    ensures req.room in s.holds
    ensures var room, hold, later := req.room, s.holds[req.room], Run(CreateBooking(s, client, req).state, between);
            room in later.holds && later.holds[room] == hold && later.now < hold.expiresAt ==>
              && (room !in CancelStaleProcessing(later, grace).state.holds <==>
                    exists other <- later.bookings :: Drags(later.bookings[other], room, hold, later.now, grace))
              && (forall other <- later.bookings |
                    Drags(later.bookings[other], room, hold, later.now, grace) && Aged(later.bookings[other], later.now, grace) ::
                    other != id && id in later.bookings && later.bookings[other].createdAt < later.bookings[id].createdAt)
  {
    hide CreateBooking, Inv, Exec, Run, CancelStaleProcessing;
    BookedUnderHold(s, client, req);
    CreateBookingKeeps(s, client, req);
    RunKeepsBooking(CreateBooking(s, client, req).state, between, id);
    var later := Run(CreateBooking(s, client, req).state, between);
    SweptHold(later, req.room, grace);
  }

  lemma SweptHold(s: State, room: RoomId, grace: int)
    ensures room in s.holds ==>
      (room !in CancelStaleProcessing(s, grace).state.holds <==>
         exists other <- s.bookings :: Drags(s.bookings[other], room, s.holds[room], s.now, grace))
  {
    SweepIsExact(s, grace);
    hide CancelStaleProcessing;
    if room in s.holds && exists id <- s.bookings :: Stale(s.bookings[id], s.now, grace) && s.bookings[id].room == room
                                                      && s.bookings[id].guest == s.holds[room].guest {
      var id :| id in s.bookings && Stale(s.bookings[id], s.now, grace) && s.bookings[id].room == room
                && s.bookings[id].guest == s.holds[room].guest;
      assert Drags(s.bookings[id], room, s.holds[room], s.now, grace);
    }
  }

  lemma BookedUnderHold(s: State, client: User, req: BookingRequest)
    requires Inv(s) && CreateBooking(s, client, req).outcome.Ok?
    ensures CreateBooking(s, client, req).outcome == Ok(Booked(s.nextId))
    ensures req.room in s.holds && s.now < s.holds[req.room].expiresAt <= s.now + HOLD_TIME
    ensures s.nextId in CreateBooking(s, client, req).state.bookings
    ensures CreateBooking(s, client, req).state.bookings[s.nextId].createdAt == s.now
  {
    hide BookingsOk, RoomsOk, PaymentsOk, NightsOk, Disjoint, BlockedByBooking, NightsTaken;
  }

  /** A hold and a booking for the same night, made five minutes before midnight. */
  const LATE: seq<Step> := [
    Tick(DAY - 5 * MINUTE), PlaceHold(1, "ada"), Book(ADA, BookingRequest(None, 1, 0, 1)), Tick(6 * MINUTE)]

  const LATE_ROW: Booking := Booking("ada", 1, 0, 1, Processing, 35000.0, DAY - 5 * MINUTE)

  /** The same state, written out. */
  function LateBooking(): State {
    OneRoom(35000.0).(now := DAY + MINUTE, nextId := 2, bookings := map[1 := LATE_ROW],
                      holds := map[1 := Hold("ada", DAY + 5 * MINUTE, false)])
  }

  lemma LateBookingIsReachable()
    ensures Reachable(LateBooking())
  {
    var s0 := OneRoom(35000.0);
    var s1 := Exec(s0, LATE[0]).state;
    var s2 := Exec(s1, LATE[1]).state;
    assert s2 == s0.(now := DAY - 5 * MINUTE, holds := map[1 := Hold("ada", DAY + 5 * MINUTE, false)]);
    assert NewBooking(s2, "ada", LATE[2].req) == LATE_ROW;
    assert Exec(s2, LATE[2]).state == s2.(nextId := 2, bookings := map[1 := LATE_ROW]);
    FourSteps(s0, LATE);
  }

  lemma FourSteps(s0: State, steps: seq<Step>)
    requires Initial(s0) && |steps| == 4
    ensures Reachable(Exec(Exec(Exec(Exec(s0, steps[0]).state, steps[1]).state, steps[2]).state, steps[3]).state)
  {
    hide Exec, Initial, Reachable;
    InitialIsReachable(s0);
    StepIsReachable(s0, steps[0]);
    var s1 := Exec(s0, steps[0]).state;
    StepIsReachable(s1, steps[1]);
    var s2 := Exec(s1, steps[1]).state;
    StepIsReachable(s2, steps[2]);
    StepIsReachable(Exec(s2, steps[2]).state, steps[3]);
  }

  lemma StaleAtMidnight(s: State)
    requires s.bookings == map[1 := LATE_ROW] && s.now == DAY + MINUTE
    ensures StaleIds(s, GRACE_MINUTES) == {1}
  {}

  lemma MidnightSweep(s: State)
    requires s.bookings == map[1 := LATE_ROW] && s.now == DAY + MINUTE
    requires s.holds.Keys == {1} && s.holds[1].guest == "ada"
    ensures CancelStaleProcessing(s, GRACE_MINUTES).state
            == s.(bookings := map[1 := LATE_ROW.(status := Cancelled)], holds := map[])
  {
    StaleAtMidnight(s);
    HoldsAtMidnight(s);
    RowsAfterMidnight(s.holds);
    hide StaleIds, OwnHolds, CancelAll;
  }

  lemma RowsAfterMidnight(holds: map<RoomId, Hold>)
    requires holds.Keys == {1}
    ensures holds - {1} == map[]
    ensures CancelAll(map[1 := LATE_ROW], {1}) == map[1 := LATE_ROW.(status := Cancelled)]
  {
    var cancelled := CancelAll(map[1 := LATE_ROW], {1});
    assert cancelled.Keys == {1} && cancelled[1] == LATE_ROW.(status := Cancelled);
  }

  lemma HoldsAtMidnight(s: State)
    requires s.bookings == map[1 := LATE_ROW] && s.holds.Keys == {1} && s.holds[1].guest == "ada"
    ensures OwnHolds(s, {1}) == {1}
  {}

  /** The other rule does undercut live holds: a booking made for tonight shortly before
      midnight is cancelled, and its hold dropped, as soon as the date has changed. */
  lemma MidnightSweepDropsLiveHold()
    ensures Reachable(LateBooking())
    ensures HoldBacks(LateBooking(), LATE_ROW) && LATE_ROW.status.Processing?
    ensures CancelStaleProcessing(LateBooking(), GRACE_MINUTES).state
            == LateBooking().(bookings := map[1 := LATE_ROW.(status := Cancelled)], holds := map[])
  {
    hide Reachable;
    LateBookingIsReachable();
    MidnightSweep(LateBooking());
  }

  // ----------------------------------------------- an old booking, a new hold

  /** A booking left unpaid, and at eleven minutes a second hold with a second booking. */
  const SECOND_TRY: seq<Step> := [
    PlaceHold(1, "bob"), Book(BOB, BookingRequest(None, 1, 1, 2)), Tick(11 * MINUTE), SweepHolds,
    PlaceHold(1, "bob"), Book(BOB, BookingRequest(None, 1, 5, 6)), Tick(2 * MINUTE)]

  const FIRST_ROW: Booking := Booking("bob", 1, 1, 2, Processing, 35000.0, 0)
  const SECOND_ROW: Booking := Booking("bob", 1, 5, 6, Processing, 35000.0, 11 * MINUTE)

  /** The same state, written out. */
  function SecondTry(): State {
    OneRoom(35000.0).(now := 13 * MINUTE, nextId := 3, bookings := map[1 := FIRST_ROW, 2 := SECOND_ROW],
                      holds := map[1 := Hold("bob", 21 * MINUTE, false)])
  }

  lemma FirstTry()
    ensures Reachable(OneRoom(35000.0).(now := 11 * MINUTE, nextId := 2, bookings := map[1 := FIRST_ROW]))
  {
    var s0 := OneRoom(35000.0);
    var s1 := s0.(holds := map[1 := Hold("bob", 10 * MINUTE, false)]);
    var s2 := s1.(nextId := 2, bookings := map[1 := FIRST_ROW]);
    var s3 := s2.(now := 11 * MINUTE);
    assert Exec(s0, SECOND_TRY[0]).state == s1;
    assert NewBooking(s1, "bob", SECOND_TRY[1].req) == FIRST_ROW;
    assert Exec(s1, SECOND_TRY[1]).state == s2;
    assert DeadHolds(s3) == {1};
    assert Exec(s3, SweepHolds).state == s3.(holds := map[]);
    hide Exec, Reachable, Initial;
    FourSteps(s0, SECOND_TRY[..4]);
  }

  lemma SecondTryIsReachable()
    ensures Reachable(SecondTry())
  {
    hide Reachable;
    FirstTry();
    var s0 := OneRoom(35000.0).(now := 11 * MINUTE, nextId := 2, bookings := map[1 := FIRST_ROW]);
    var s1 := s0.(holds := map[1 := Hold("bob", 21 * MINUTE, false)]);
    var s2 := s1.(nextId := 3, bookings := map[1 := FIRST_ROW, 2 := SECOND_ROW]);
    StepIsReachable(s0, SECOND_TRY[4]);
    assert Exec(s0, SECOND_TRY[4]).state == s1;
    StepIsReachable(s1, SECOND_TRY[5]);
    assert NewBooking(s1, "bob", SECOND_TRY[5].req) == SECOND_ROW;
    assert Exec(s1, SECOND_TRY[5]).state == s2;
    StepIsReachable(s2, SECOND_TRY[6]);
  }

  lemma SweepAtSecondTry()
    ensures CancelStaleProcessing(SecondTry(), GRACE_MINUTES).state
            == SecondTry().(bookings := map[1 := FIRST_ROW.(status := Cancelled), 2 := SECOND_ROW], holds := map[])
  {
    var s := SecondTry();
    assert StaleIds(s, GRACE_MINUTES) == {1};
    assert OwnHolds(s, {1}) == {1};
    assert s.holds - {1} == map[];
    assert CancelAll(s.bookings, {1}) == map[1 := FIRST_ROW.(status := Cancelled), 2 := SECOND_ROW];
  }

  /** So the age rule does undercut live holds: the guest's older booking takes the hold of
      the newer one with it, eight minutes before it runs out. The newer booking is not
      cancelled, but the right money for it is then refused. */
  lemma OldBookingDropsNewHold(ev: PaymentEvent)
    requires ev.kind == SUCCEEDED && ev.reference == Ref(2) && RightAmount(ev.amount, ev.currency, SECOND_ROW)
    ensures Reachable(SecondTry()) && HoldBacks(SecondTry(), SECOND_ROW) && !Stale(SECOND_ROW, SecondTry().now, GRACE_MINUTES)
    ensures ProcessPaymentEvent(SecondTry(), ev).outcome == Ok(PaidOnline(2))
    ensures var swept := CancelStaleProcessing(SecondTry(), GRACE_MINUTES).state;
            2 in swept.bookings && swept.bookings[2] == SECOND_ROW && !HoldBacks(swept, SECOND_ROW)
            && ProcessPaymentEvent(swept, ev).outcome == Raised(HoldGone)
  {
    hide Reachable, Inv, ProcessPaymentEvent, Ref, RightAmount, CancelStaleProcessing;
    SecondTryIsReachable();
    SweepAtSecondTry();
    ReachableIsConsistent(SecondTry());
    var swept := CancelStaleProcessing(SecondTry(), GRACE_MINUTES).state;
    CancelStaleProcessingKeeps(SecondTry(), GRACE_MINUTES);
    RightMoneyConfirmsOnline(SecondTry(), 2, ev);
    RightMoneyConfirmsOnline(swept, 2, ev);
  }

  // ------------------------------------------------------- bounded abandonment

  /** When the stale bookings were last swept, with the default grace; the start counts. */
  function LastSweep(s: State, steps: seq<Step>): Instant {
    if steps == [] then s.now
    else if steps[|steps| - 1] == SweepBookings(GRACE_MINUTES) then Run(s, steps[..|steps| - 1]).now
    else LastSweep(s, steps[..|steps| - 1])
  }

  const PATIENCE: int := GRACE_MINUTES * MINUTE + HOLD_TIME

  ghost predicate Young(s: State, since: Instant) {
    since <= s.now && forall id <- s.bookings :: s.bookings[id].status.Processing? ==> s.bookings[id].createdAt > since - PATIENCE
  }

  lemma SweepLeavesYoung(s: State)
    ensures Young(CancelStaleProcessing(s, GRACE_MINUTES).state, s.now)
  {
    var s' := CancelStaleProcessing(s, GRACE_MINUTES).state;
    forall id | id in s'.bookings && s'.bookings[id].status.Processing? ensures s'.bookings[id].createdAt > s.now - PATIENCE {
      assert id !in StaleIds(s, GRACE_MINUTES);
    }
  }

  lemma StepKeepsYoung(s: State, step: Step, since: Instant)
    requires Inv(s) && Young(s, since)
    ensures Young(Exec(s, step).state, since)
  {
    hide Inv, Exec;
    StepEvolves(s, step);
    var s' := Exec(s, step).state;
    forall id | id in s'.bookings && s'.bookings[id].status.Processing? ensures s'.bookings[id].createdAt > since - PATIENCE {
      if id in s.bookings { assert Onward(s.bookings[id], s'.bookings[id], Today(s.now)); }
    }
  }

  lemma {:induction false} RunKeepsYoung(s: State, steps: seq<Step>)
    requires Initial(s)
    ensures Young(Run(s, steps), LastSweep(s, steps))
  {
    hide Exec, StaleIds, CancelAll;
    if steps != [] {
      var before, step := Run(s, steps[..|steps| - 1]), steps[|steps| - 1];
      RunKeepsYoung(s, steps[..|steps| - 1]);
      RunKeeps(s, steps[..|steps| - 1]);
      if step == SweepBookings(GRACE_MINUTES) {
        SweepLeavesYoung(before);
        SweepStep(before);
      } else {
        StepKeepsYoung(before, step, LastSweep(s, steps[..|steps| - 1]));
      }
    }
  }

  lemma SweepStep(s: State)
    ensures Exec(s, SweepBookings(GRACE_MINUTES)).state == CancelStaleProcessing(s, GRACE_MINUTES).state
  {}

  /** As long as the sweep runs every five minutes, no booking waits for its money longer
      than its hold, its grace and one interval: eighteen minutes in all. */
  lemma AbandonedBookingsDoNotLast(s: State, steps: seq<Step>, id: BookingId)
    requires Initial(s) && id in Run(s, steps).bookings && Run(s, steps).bookings[id].status.Processing?
    requires Run(s, steps).now - LastSweep(s, steps) <= 300_000_000
    ensures Run(s, steps).now - Run(s, steps).bookings[id].createdAt < PATIENCE + SWEEP_INTERVAL == 1_080_000_000
  {
    hide Exec;
    RunKeepsYoung(s, steps);
  }
}
