/** Racing deliveries of one event for a booking whose hold is gone: one of them cancels the
    booking, and it depends on who records the event whether anybody hears of it. */
module LostHold {
  import opened Model
  import opened Operations
  import opened Invariant
  import opened Sweeps
  import opened Interleaving
  import opened Concurrency
  import opened RetryStorm

  /** A single delivery, now, would find the right money but no hold. */
  predicate WouldCancel(db: State, ev: PaymentEvent, id: BookingId) {
    FindByRef(db.bookings, ev.reference) == Some(id) && ProcessPaymentEvent(db, ev).outcome == Raised(HoldGone)
  }

  lemma CancellingOutcome(db: State, ev: PaymentEvent, id: BookingId)
    requires WouldCancel(db, ev, id)
    ensures id in db.bookings && ev.id !in db.events && ev.kind == SUCCEEDED && ev.reference == Ref(id)
    ensures db.bookings[id].status.Processing? && RightAmount(ev.amount, ev.currency, db.bookings[id])
    ensures !HoldBacks(db, db.bookings[id])
  {
    hide PaymentClash, NightClash, RightAmount, HoldBacks, Confirm, Ref;
  }

  // ------------------------------------------------------------ the history

  predicate IsCancelled(db: State, id: BookingId) { id in db.bookings && db.bookings[id].status.Cancelled? }

  /** Whose commit cancelled the booking, if anybody's. */
  function Canceller(db0: State, actions: seq<Action>, id: BookingId): Option<Pid> {
    if actions == [] then None
    else
      var before, last := actions[..|actions| - 1], actions[|actions| - 1];
      var earlier := Canceller(db0, before, id);
      var sys := Schedule(Start(db0), before);
      if earlier.None? && last.Advance? && !IsCancelled(sys.db, id) && IsCancelled(Perform(sys, last).db, id) then Some(last.pid)
      else earlier
  }

  /** Whose commit put the event on record, if anybody's. */
  function Recorder(db0: State, actions: seq<Action>, event: EventId): Option<Pid> {
    if actions == [] then None
    else
      var before, last := actions[..|actions| - 1], actions[|actions| - 1];
      var earlier := Recorder(db0, before, event);
      var sys := Schedule(Start(db0), before);
      if earlier.None? && last.Advance? && event !in sys.db.events && event in Perform(sys, last).db.events then Some(last.pid)
      else earlier
  }

  // --------------------------------------------------------- the deliveries

  /** What a delivery may be doing, given who has cancelled and who has recorded. */
  predicate Stage(phase: Phase, pid: Pid, ev: PaymentEvent, id: BookingId, locks: map<BookingId, Pid>, c: Option<Pid>, r: Option<Pid>) {
    match phase
    case AwaitLock(e) => e == ev && c != Some(pid)
    case LockedCancel(e, i) => c.None? && e == ev && i == id && HasLock(locks, id, pid)
    case RecordEvent(e, outcome) => c == Some(pid) && r != Some(pid) && e == ev && outcome == Raised(HoldGone)
    case LockedRecord(e, i) => c.Some? && c != Some(pid) && e == ev && i == id && HasLock(locks, id, pid)
    case Done(outcome) => r.Some? && outcome == if c == Some(pid) && r == Some(pid) then Raised(HoldGone) else Ok(Duplicate)
    case _ => false
  }

  predicate Held(phase: Phase) { phase.LockedCancel? || phase.LockedRecord? }

  predicate Known(procs: map<Pid, Phase>, ours: set<Pid>, who: Option<Pid>) { who.Some? ==> who.value in ours && who.value in procs }

  predicate Stages(procs: map<Pid, Phase>, ours: set<Pid>, ev: PaymentEvent, id: BookingId, locks: map<BookingId, Pid>,
                   c: Option<Pid>, r: Option<Pid>) {
    && (forall p <- procs | p in ours :: Stage(procs[p], p, ev, id, locks, c, r))
    && Known(procs, ours, c) && Known(procs, ours, r) && (r.Some? ==> c.Some? && procs[r.value].Done?)
    && (id in locks ==> locks[id] in ours && locks[id] in procs && Held(procs[locks[id]]))
  }

  /** The rows: the booking waits or is cancelled, its hold is and stays gone. */
  predicate Rows(row: Booking, ev: PaymentEvent, id: BookingId, db: State, c: Option<Pid>, r: Option<Pid>) {
    && id < db.nextId && id in db.bookings
    && db.bookings[id] == (if c.None? then row else row.(status := Cancelled))
    && (ev.id in db.events <==> r.Some?)
    && !HoldBacks(db, row)
  }

  predicate Gone(row: Booking, ours: set<Pid>, ev: PaymentEvent, id: BookingId, sys: System, c: Option<Pid>, r: Option<Pid>) {
    Rows(row, ev, id, sys.db, c, r) && Stages(sys.procs, ours, ev, id, sys.locks, c, r)
  }

  /** What is fixed about event and booking. */
  predicate Fits(row: Booking, ev: PaymentEvent, id: BookingId) {
    ev.kind == SUCCEEDED && ev.reference == Ref(id) && row.status.Processing? && RightAmount(ev.amount, ev.currency, row)
  }

  // ------------------------------------------------------------- one action

  lemma ArrivalFinds(row: Booking, ev: PaymentEvent, id: BookingId, db: State, c: Option<Pid>, r: Option<Pid>)
    requires Fits(row, ev, id) && Rows(row, ev, id, db, c, r)
    ensures Read(db, Deliver(ev)) == if r.None? then AwaitLock(ev) else Done(Ok(Duplicate))
  {
    hide RightAmount, HoldBacks, Ref;
  }

  lemma ArrivingKeepsStages(procs: map<Pid, Phase>, ours: set<Pid>, ev: PaymentEvent, id: BookingId, locks: map<BookingId, Pid>,
                            c: Option<Pid>, r: Option<Pid>, pid: Pid, phase: Phase)
    requires Stages(procs, ours, ev, id, locks, c, r) && pid !in procs
    requires pid in ours ==> phase == if r.None? then AwaitLock(ev) else Done(Ok(Duplicate))
    ensures Stages(procs[pid := phase], ours, ev, id, locks, c, r)
  {}

  lemma OthersKeepStages(procs: map<Pid, Phase>, ours: set<Pid>, ev: PaymentEvent, id: BookingId, locks: map<BookingId, Pid>,
                         c: Option<Pid>, r: Option<Pid>, pid: Pid, phase: Phase, locks': map<BookingId, Pid>)
    requires Stages(procs, ours, ev, id, locks, c, r) && pid in procs && pid !in ours && SameAt(id, locks, locks')
    ensures Stages(procs[pid := phase], ours, ev, id, locks', c, r)
  {}

  lemma LockingKeepsStages(procs: map<Pid, Phase>, ours: set<Pid>, ev: PaymentEvent, id: BookingId, locks: map<BookingId, Pid>,
                           c: Option<Pid>, r: Option<Pid>, pid: Pid)
    requires Stages(procs, ours, ev, id, locks, c, r) && pid in procs && pid in ours && procs[pid].AwaitLock? && id !in locks
    ensures Stages(procs[pid := if c.None? then LockedCancel(ev, id) else LockedRecord(ev, id)], ours, ev, id, locks[id := pid], c, r)
  {
    assert Stage(procs[pid], pid, ev, id, locks, c, r);
  }

  lemma CancellingKeepsStages(procs: map<Pid, Phase>, ours: set<Pid>, ev: PaymentEvent, id: BookingId, locks: map<BookingId, Pid>,
                              r: Option<Pid>, pid: Pid)
    requires Stages(procs, ours, ev, id, locks, None, r) && pid in procs && pid in ours && procs[pid].LockedCancel?
    ensures r.None? && Stages(procs[pid := RecordEvent(ev, Raised(HoldGone))], ours, ev, id, locks - {id}, Some(pid), None)
  {
    assert Stage(procs[pid], pid, ev, id, locks, None, r);
    var after := procs[pid := RecordEvent(ev, Raised(HoldGone))];
    forall p | p in after && p in ours ensures Stage(after[p], p, ev, id, locks - {id}, Some(pid), None) {
      if p != pid { assert Stage(procs[p], p, ev, id, locks, None, r); }
    }
  }

  lemma RecordingKeepsStages(procs: map<Pid, Phase>, ours: set<Pid>, ev: PaymentEvent, id: BookingId, locks: map<BookingId, Pid>,
                             c: Option<Pid>, r: Option<Pid>, pid: Pid)
    requires Stages(procs, ours, ev, id, locks, c, r) && pid in procs && pid in ours
    requires procs[pid].RecordEvent? || procs[pid].LockedRecord?
    ensures var first := r.None?;
            var outcome := if first && procs[pid].RecordEvent? then Raised(HoldGone) else Ok(Duplicate);
            var locks' := if procs[pid].LockedRecord? then locks - {id} else locks;
            Stages(procs[pid := Done(outcome)], ours, ev, id, locks', c, if first then Some(pid) else r)
  {
    assert Stage(procs[pid], pid, ev, id, locks, c, r);
    var first := r.None?;
    var outcome := if first && procs[pid].RecordEvent? then Raised(HoldGone) else Ok(Duplicate);
    var locks' := if procs[pid].LockedRecord? then locks - {id} else locks;
    var after := procs[pid := Done(outcome)];
    forall p | p in after && p in ours ensures Stage(after[p], p, ev, id, locks', c, if first then Some(pid) else r) {
      if p != pid { assert Stage(procs[p], p, ev, id, locks, c, r); }
    }
  }

  /** The first read under the lock decides: with the hold gone it leads to the cancellation. */
  lemma LockLeads(row: Booking, ev: PaymentEvent, id: BookingId, db: State, locks: map<BookingId, Pid>, c: Option<Pid>, r: Option<Pid>, pid: Pid)
    requires Fits(row, ev, id) && Rows(row, ev, id, db, c, r)
    ensures TakeLock(db, locks, pid, AwaitLock(ev))
            == if id in locks then Next(db, AwaitLock(ev), locks)
               else Next(db, if c.None? then LockedCancel(ev, id) else LockedRecord(ev, id), locks[id := pid])
  {
    hide RightAmount, HoldBacks, Ref, FindByRef;
    FindsItsBooking(db.bookings, id);
  }

  lemma CancelCommits(row: Booking, ev: PaymentEvent, id: BookingId, db: State, locks: map<BookingId, Pid>, r: Option<Pid>, pid: Pid)
    requires Rows(row, ev, id, db, None, r)
    ensures var next := Commit(db, locks, pid, LockedCancel(ev, id));
            && Rows(row, ev, id, next.db, Some(pid), r)
            && next.phase == RecordEvent(ev, Raised(HoldGone)) && next.locks == locks - {id}
  {}

  lemma RecordCommits(row: Booking, ev: PaymentEvent, id: BookingId, db: State, locks: map<BookingId, Pid>,
                      c: Option<Pid>, r: Option<Pid>, pid: Pid)
    requires Rows(row, ev, id, db, c, r)
    ensures var next := Commit(db, locks, pid, RecordEvent(ev, Raised(HoldGone)));
            && Rows(row, ev, id, next.db, c, if r.None? then Some(pid) else r) && next.locks == locks
            && next.phase == Done(if r.None? then Raised(HoldGone) else Ok(Duplicate))
    ensures var next := Commit(db, locks, pid, LockedRecord(ev, id));
            && Rows(row, ev, id, next.db, c, if r.None? then Some(pid) else r) && next.locks == locks - {id}
            && next.phase == Done(Ok(Duplicate))
  {}

  function NextCanceller(sys: System, ours: set<Pid>, pid: Pid, c: Option<Pid>): Option<Pid> {
    if pid in ours && pid in sys.procs && sys.procs[pid].LockedCancel? then Some(pid) else c
  }

  function NextRecorder(sys: System, ours: set<Pid>, pid: Pid, r: Option<Pid>): Option<Pid> {
    if r.None? && pid in ours && pid in sys.procs && (sys.procs[pid].RecordEvent? || sys.procs[pid].LockedRecord?) then Some(pid) else r
  }

  lemma OurAdvance(row: Booking, ours: set<Pid>, ev: PaymentEvent, id: BookingId, sys: System, c: Option<Pid>, r: Option<Pid>, pid: Pid)
    requires Fits(row, ev, id) && Gone(row, ours, ev, id, sys, c, r) && pid in sys.procs && pid in ours
    ensures Gone(row, ours, ev, id, Perform(sys, Advance(pid)), NextCanceller(sys, ours, pid, c), NextRecorder(sys, ours, pid, r))
  {
    hide Commit, Rows, Stages;
    var phase := sys.procs[pid];
    assert Stage(phase, pid, ev, id, sys.locks, c, r) && sys.procs[pid := phase] == sys.procs by { StageOf(sys.procs, ours, ev, id, sys.locks, c, r, pid); }
    if phase.AwaitLock? {
      CommitIsTakeLock(sys.db, sys.locks, pid, phase);
      LockLeads(row, ev, id, sys.db, sys.locks, c, r, pid);
      if id !in sys.locks { LockingKeepsStages(sys.procs, ours, ev, id, sys.locks, c, r, pid); }
    } else if phase.LockedCancel? {
      CancelCommits(row, ev, id, sys.db, sys.locks, r, pid);
      CancellingKeepsStages(sys.procs, ours, ev, id, sys.locks, r, pid);
    } else if phase.Done? {
      DoneStays(sys.db, sys.locks, pid, phase);
    } else {
      RecordCommits(row, ev, id, sys.db, sys.locks, c, r, pid);
      RecordingKeepsStages(sys.procs, ours, ev, id, sys.locks, c, r, pid);
    }
  }

  lemma CommitIsTakeLock(db: State, locks: map<BookingId, Pid>, pid: Pid, phase: Phase)
    requires phase.AwaitLock?
    ensures Commit(db, locks, pid, phase) == TakeLock(db, locks, pid, phase)
  {
    hide TakeLock;
  }

  lemma StageOf(procs: map<Pid, Phase>, ours: set<Pid>, ev: PaymentEvent, id: BookingId, locks: map<BookingId, Pid>,
                c: Option<Pid>, r: Option<Pid>, pid: Pid)
    requires Stages(procs, ours, ev, id, locks, c, r) && pid in procs && pid in ours
    ensures Stage(procs[pid], pid, ev, id, locks, c, r) && procs[pid := procs[pid]] == procs
  {}

  lemma OtherAdvance(row: Booking, ours: set<Pid>, ev: PaymentEvent, id: BookingId, sys: System, c: Option<Pid>, r: Option<Pid>, pid: Pid)
    requires Fits(row, ev, id) && Gone(row, ours, ev, id, sys, c, r)
    requires pid in sys.procs && pid !in ours && Elsewhere(sys.procs[pid], ev, id, row)
    ensures Gone(row, ours, ev, id, Perform(sys, Advance(pid)), c, r)
  {
    hide Commit, Elsewhere, Stages, SamePayments, SameNights;
    var next := Commit(sys.db, sys.locks, pid, sys.procs[pid]);
    OthersPassBy(sys.db, ev, id, row, sys.locks, pid, sys.procs[pid]);
    CommitKeepsTime(sys.db, sys.locks, pid, sys.procs[pid]);
    OthersLeaveTheLock(sys.db, ev, id, row, sys.locks, pid, sys.procs[pid]);
    OthersKeepStages(sys.procs, ours, ev, id, sys.locks, c, r, pid, next.phase, next.locks);
  }

  lemma GoneStep(row: Booking, ours: set<Pid>, ev: PaymentEvent, id: BookingId, sys: System, c: Option<Pid>, r: Option<Pid>, action: Action)
    requires Fits(row, ev, id) && Gone(row, ours, ev, id, sys, c, r) && Aside(sys, action, ours, ev, id, row)
    ensures var pid := if action.Elapse? then 0 else action.pid;
            if action.Advance? then
              Gone(row, ours, ev, id, Perform(sys, action), NextCanceller(sys, ours, pid, c), NextRecorder(sys, ours, pid, r))
            else Gone(row, ours, ev, id, Perform(sys, action), c, r)
  {
    hide Commit, Read, Elsewhere, Stages, RightAmount;
    match action
    case Begin(pid, step) =>
      if pid !in sys.procs {
        if pid in ours { ArrivalFinds(row, ev, id, sys.db, c, r); }
        ArrivingKeepsStages(sys.procs, ours, ev, id, sys.locks, c, r, pid, Read(sys.db, step));
      }
    case Advance(pid) =>
      if pid in sys.procs {
        if pid in ours {
          OurAdvance(row, ours, ev, id, sys, c, r, pid);
        } else {
          OtherAdvance(row, ours, ev, id, sys, c, r, pid);
        }
      }
    case Elapse(_) =>
  }

  // ------------------------------------------------------------- every storm

  lemma GoneFromTheStart(db0: State, ours: set<Pid>, ev: PaymentEvent, id: BookingId)
    requires WouldCancel(db0, ev, id) && id in db0.bookings && id < db0.nextId
    ensures Fits(db0.bookings[id], ev, id) && Gone(db0.bookings[id], ours, ev, id, Start(db0), None, None)
  {
    hide WouldCancel, RightAmount, HoldBacks, Ref;
    CancellingOutcome(db0, ev, id);
  }

  /** The history says who has cancelled and who has recorded. */
  lemma HistoryIsRight(row: Booking, ours: set<Pid>, ev: PaymentEvent, id: BookingId, sys: System, c: Option<Pid>, r: Option<Pid>)
    requires Fits(row, ev, id) && Gone(row, ours, ev, id, sys, c, r)
    ensures (IsCancelled(sys.db, id) <==> c.Some?) && (ev.id in sys.db.events <==> r.Some?)
  {
    hide Stages, HoldBacks, RightAmount, Ref;
  }

  lemma {:induction false} EveryLostStorm(db0: State, actions: seq<Action>, ours: set<Pid>, ev: PaymentEvent, id: BookingId)
    requires WouldCancel(db0, ev, id) && id in db0.bookings && id < db0.nextId && OthersStayAside(db0, actions, ours, ev, id)
    ensures Gone(db0.bookings[id], ours, ev, id, Schedule(Start(db0), actions),
                 Canceller(db0, actions, id), Recorder(db0, actions, ev.id))
  {
    hide WouldCancel, Perform, Gone, Aside, Fits, IsCancelled;
    GoneFromTheStart(db0, ours, ev, id);
    if actions != [] {
      var before, last := actions[..|actions| - 1], actions[|actions| - 1];
      var sys, row := Schedule(Start(db0), before), db0.bookings[id];
      var c, r := Canceller(db0, before, id), Recorder(db0, before, ev.id);
      EveryLostStorm(db0, before, ours, ev, id);
      GoneStep(row, ours, ev, id, sys, c, r, last);
      HistoryIsRight(row, ours, ev, id, sys, c, r);
      if last.Advance? {
        HistoryIsRight(row, ours, ev, id, Perform(sys, last), NextCanceller(sys, ours, last.pid, c), NextRecorder(sys, ours, last.pid, r));
        OnlyNewNames(row, ours, ev, id, sys, c, r, last.pid);
      }
    }
  }

  /** Nobody is replaced as the one who cancelled. */
  lemma OnlyNewNames(row: Booking, ours: set<Pid>, ev: PaymentEvent, id: BookingId, sys: System, c: Option<Pid>, r: Option<Pid>, pid: Pid)
    requires Gone(row, ours, ev, id, sys, c, r)
    ensures c.Some? ==> NextCanceller(sys, ours, pid, c) == c
  {
    hide Rows;
    if pid in ours && pid in sys.procs { StageOf(sys.procs, ours, ev, id, sys.locks, c, r, pid); }
  }

  /** The word that the hold was gone, and with it the log entry that asks for a refund, goes to
      the delivery whose commit cancelled the booking, and only if that delivery is also the
      first to put the event on record. All other finished deliveries are told that they are
      duplicates: if another one records first, nobody is told at all. */
  lemma HoldGoneIsToldIff(db0: State, actions: seq<Action>, ours: set<Pid>, ev: PaymentEvent, id: BookingId)
    requires WouldCancel(db0, ev, id) && id in db0.bookings && id < db0.nextId && OthersStayAside(db0, actions, ours, ev, id)
    ensures var end := Schedule(Start(db0), actions);
            var c, r := Canceller(db0, actions, id), Recorder(db0, actions, ev.id);
            && (forall p <- end.procs | p in ours ::
                  (end.procs[p] == Done(Raised(HoldGone)) <==> c == Some(p) && r == Some(p))
                  && (end.procs[p].Done? ==> end.procs[p] == Done(Raised(HoldGone)) || end.procs[p] == Done(Ok(Duplicate))))
            && (forall who | who in [c, r] && who.Some? :: who.value in ours && who.value in end.procs)
            && id in end.db.bookings && (end.db.bookings[id].status.Cancelled? <==> c.Some?)
            && (ev.id in end.db.events <==> r.Some?)
  {
    hide WouldCancel, Schedule, OthersStayAside, Canceller, Recorder;
    EveryLostStorm(db0, actions, ours, ev, id);
    GoneFromTheStart(db0, ours, ev, id);
    var end := Schedule(Start(db0), actions);
    var c, r := Canceller(db0, actions, id), Recorder(db0, actions, ev.id);
    HistoryIsRight(db0.bookings[id], ours, ev, id, end, c, r);
    hide HoldBacks, RightAmount, Ref;
    forall p | p in end.procs && p in ours
      ensures (end.procs[p] == Done(Raised(HoldGone)) <==> c == Some(p) && r == Some(p))
              && (end.procs[p].Done? ==> end.procs[p] == Done(Raised(HoldGone)) || end.procs[p] == Done(Ok(Duplicate)))
    {
      StageOf(end.procs, ours, ev, id, end.locks, c, r, p);
    }
  }

  // ---------------------------------------------- nobody is told: an example

  /** Bob's booking at eleven minutes, its hold already swept. */
  function Swept11(): State { OneRoom(35000.0).(now := 11 * MINUTE, nextId := 2, bookings := map[1 := FIRST_ROW]) }

  const LATE_MONEY: PaymentEvent := PaymentEvent("evt_1", SUCCEEDED, Ref(1), 35000.0, NAIRA)

  const FIRST_CANCELS: seq<Action> := [Begin(0, Deliver(LATE_MONEY)), Begin(1, Deliver(LATE_MONEY)), Advance(0), Advance(0)]
  const SECOND_RECORDS: seq<Action> := [Advance(1), Advance(1), Advance(0)]

  function Between(): System {
    System(Swept11().(bookings := map[1 := FIRST_ROW.(status := Cancelled)]),
           map[0 := RecordEvent(LATE_MONEY, Raised(HoldGone)), 1 := AwaitLock(LATE_MONEY)], map[])
  }

  lemma FirstCancels()
    ensures Schedule(Start(Swept11()), FIRST_CANCELS) == Between()
  {
    hide Schedule, Ref, FindByRef;
    FindsItsBooking(Swept11().bookings, 1);
    FourActions(Start(Swept11()), FIRST_CANCELS[0], FIRST_CANCELS[1], FIRST_CANCELS[2], FIRST_CANCELS[3]);
    var one: map<BookingId, Pid> := map[1 := 0];
    assert one - {1} == map[];
  }

  lemma SecondRecords()
    ensures var end := Schedule(Between(), SECOND_RECORDS);
            && end.procs == map[0 := Done(Ok(Duplicate)), 1 := Done(Ok(Duplicate))]
            && end.db == Logged(Between().db, LATE_MONEY)
  {
    hide Schedule, Ref, FindByRef;
    FindsItsBooking(Between().db.bookings, 1);
    ThreeActions(Between(), Advance(1), Advance(1), Advance(0));
  }

  /** It happens: two deliveries of the money, the booking cancelled by the first, the event
      recorded by the second, and both answered as duplicates. */
  lemma NobodyIsTold()
    ensures Reachable(Swept11())
    ensures var end := Schedule(Start(Swept11()), FIRST_CANCELS + SECOND_RECORDS);
            && end.procs == map[0 := Done(Ok(Duplicate)), 1 := Done(Ok(Duplicate))]
            && end.db.bookings == map[1 := FIRST_ROW.(status := Cancelled)] && end.db.payments == map[]
            && LATE_MONEY.id in end.db.events
  {
    hide Reachable, Schedule, Ref;
    FirstTry();
    FirstCancels();
    SecondRecords();
    ScheduleInTwo(Start(Swept11()), FIRST_CANCELS, SECOND_RECORDS);
  }
}
