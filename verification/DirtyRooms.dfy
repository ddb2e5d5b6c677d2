/** Dirty rooms under concurrency: which commits can leave a dirty room open, exactly. */
module DirtyRooms {
  import opened Model
  import opened Operations
  import opened Invariant
  import opened Housekeeping
  import opened Interleaving

  /** A dirty room cannot be sold or entered. */
  predicate DirtyIsClosed(rooms: map<RoomId, Room>) {
    forall r <- rooms :: rooms[r].state.Dirty? ==> !rooms[r].isAvailable
  }

  /** What a request writes to a room, in terms of what it has read. */
  predicate Grounded(phase: Phase) {
    match phase
    case WriteRoom(_, seen, written, _) => written == seen.(isAvailable := true, state := Clean)
    case MoveStay(_, status, _, _, seen, written) =>
      || (status == CheckedIn && seen.isAvailable && written == seen.(isAvailable := false))
      || (status == Completed && written == seen.(isAvailable := false, state := Dirty))
    case _ => true
  }

  /** The commits that open a dirty room: a cleaning report that read the room clean and closed,
      for a room that has become dirty since; or a check-out that read the room clean and closed,
      of a room that has been opened since. Neither sends the column that it found right. */
  predicate OpensDirty(sys: System, action: Action) {
    action.Advance? && action.pid in sys.procs &&
    var rooms := sys.db.rooms;
    match sys.procs[action.pid]
    case WriteRoom(room, seen, _, _) =>
      seen.state.Clean? && !seen.isAvailable && room in rooms && rooms[room].state.Dirty?
    case MoveStay(id, status, _, room, seen, _) =>
      status.Completed? && seen.state.Clean? && !seen.isAvailable && room in rooms && rooms[room].isAvailable
      && id !in sys.locks && id in sys.db.bookings
    case _ => false
  }

  lemma OneRoomWritten(rooms: map<RoomId, Room>, room: RoomId, row: Room)
    requires DirtyIsClosed(rooms) && room in rooms
    ensures DirtyIsClosed(rooms[room := row]) <==> (row.state.Dirty? ==> !row.isAvailable)
  {
    assert room in rooms[room := row] && rooms[room := row][room] == row;
  }

  lemma RoomCommit(sys: System, pid: Pid)
    requires pid in sys.procs && (sys.procs[pid].WriteRoom? || sys.procs[pid].MoveStay?) && Grounded(sys.procs[pid])
    requires DirtyIsClosed(sys.db.rooms)
    ensures DirtyIsClosed(Perform(sys, Advance(pid)).db.rooms) <==> !OpensDirty(sys, Advance(pid))
  {
    hide DirtyIsClosed, WithStatus;
    var phase := sys.procs[pid];
    if phase.room in sys.db.rooms {
      OneRoomWritten(sys.db.rooms, phase.room, Merge(sys.db.rooms[phase.room], phase.seenRoom, phase.newRoom));
      RoomIsClosed(sys.db.rooms, phase.room);
    }
  }

  lemma RoomIsClosed(rooms: map<RoomId, Room>, room: RoomId)
    requires DirtyIsClosed(rooms) && room in rooms
    ensures rooms[room].state.Dirty? ==> !rooms[room].isAvailable
  {}

  lemma OthersLeaveRooms(db: State, locks: map<BookingId, Pid>, pid: Pid, phase: Phase)
    requires !phase.WriteRoom? && !phase.MoveStay?
    ensures Commit(db, locks, pid, phase).db.rooms == db.rooms
  {
    hide WithStatus, CancelAll, NightRows, NightClash, PaymentClash, RightAmount, HoldBacks, Ref, FindByRef;
  }

  // ----------------------------------------------------- phases are grounded

  lemma ReadsAreGrounded(db: State, step: Step)
    ensures Grounded(Read(db, step))
  {
    hide CreateBooking, RecordOfflinePayment, WithStatus, DeadHolds, StaleIds, OwnHolds;
  }

  lemma CommitsStayGrounded(db: State, locks: map<BookingId, Pid>, pid: Pid, phase: Phase)
    requires Grounded(phase)
    ensures Grounded(Commit(db, locks, pid, phase).phase)
  {
    hide WithStatus, CancelAll, NightRows, NightClash, PaymentClash, RightAmount, HoldBacks, Ref, FindByRef, Merge;
  }

  ghost predicate AllGrounded(sys: System) { forall p <- sys.procs :: Grounded(sys.procs[p]) }

  lemma {:induction false} EveryScheduleIsGrounded(db: State, actions: seq<Action>)
    ensures AllGrounded(Schedule(Start(db), actions))
  {
    hide Read, Commit, Grounded;
    if actions != [] {
      var sys, last := Schedule(Start(db), actions[..|actions| - 1]), actions[|actions| - 1];
      EveryScheduleIsGrounded(db, actions[..|actions| - 1]);
      if last.Begin? { ReadsAreGrounded(sys.db, last.step); }
      if last.Advance? && last.pid in sys.procs { CommitsStayGrounded(sys.db, sys.locks, last.pid, sys.procs[last.pid]); }
    }
  }

  /** In every interleaving: as long as dirty rooms are closed, the next action keeps them so
      exactly when it is not such a commit. */
  lemma OnlyTheseCommitsOpenDirtyRooms(db: State, actions: seq<Action>, action: Action)
    requires DirtyIsClosed(Schedule(Start(db), actions).db.rooms)
    ensures DirtyIsClosed(Perform(Schedule(Start(db), actions), action).db.rooms)
            <==> !OpensDirty(Schedule(Start(db), actions), action)
  {
    EveryScheduleIsGrounded(db, actions);
    hide Schedule, Commit, Read, Grounded, DirtyIsClosed;
    var sys := Schedule(Start(db), actions);
    if action.Advance? && action.pid in sys.procs {
      var phase := sys.procs[action.pid];
      if phase.WriteRoom? || phase.MoveStay? {
        RoomCommit(sys, action.pid);
      } else {
        OthersLeaveRooms(sys.db, sys.locks, action.pid, phase);
      }
    }
  }

  /** What is read now, with dirty rooms closed, commits harmlessly now: it takes a change of the
      room between read and commit. */
  lemma FreshReadsAreHarmless(sys: System, pid: Pid, step: Step)
    requires DirtyIsClosed(sys.db.rooms) && pid !in sys.procs
    ensures !OpensDirty(Perform(sys, Begin(pid, step)), Advance(pid))
  {
    hide CreateBooking, RecordOfflinePayment, WithStatus, DeadHolds, StaleIds, OwnHolds;
  }

  // ------------------------------------------------- entering a dirty room

  /** The same after either order of the two commits: dirty, and open. */
  function DirtyAndOpen(): State {
    NextMorning().(rooms := map[1 := Room("standard", true, Dirty)],
                   bookings := map[1 := StayRow(0, Completed), 2 := StayRow(1, Confirmed)])
  }

  const SEEN: Room := Room("standard", false, Clean)
  const CLEANING: Phase := WriteRoom(1, SEEN, Room("standard", true, Clean), AlreadyClean)
  const LEAVING: Phase := MoveStay(1, Completed, GuestOut, 1, SEEN, Room("standard", false, Dirty))

  lemma BothRead()
    ensures Read(NextMorning(), CleanRoom(1)) == CLEANING && Read(NextMorning(), Depart(1)) == LEAVING
  {}

  lemma CleaningFirst()
    ensures Perform(Perform(System(NextMorning(), map[0 := CLEANING, 1 := LEAVING], map[]), Advance(0)), Advance(1)).db == DirtyAndOpen()
  {}

  lemma LeavingFirst()
    ensures Perform(Perform(System(NextMorning(), map[0 := CLEANING, 1 := LEAVING], map[]), Advance(1)), Advance(0)).db == DirtyAndOpen()
  {}

  lemma BothBegin()
    ensures Perform(Perform(Start(NextMorning()), Begin(0, CleanRoom(1))), Begin(1, Depart(1)))
            == System(NextMorning(), map[0 := CLEANING, 1 := LEAVING], map[])
  {
    hide Read, NextMorning;
    BothRead();
  }

  lemma NextIsAdmitted()
    ensures !DirtyIsClosed(DirtyAndOpen().rooms) && CheckInGuest(DirtyAndOpen(), 2).outcome == Ok(GuestIn)
  {
    assert 1 in DirtyAndOpen().rooms;
  }

  /** It happens: the guest checks out while the room is reported clean, and the next guest is
      checked into the dirty room. */
  lemma NextGuestEntersDirtyRoom()
    ensures Reachable(NextMorning())
    ensures Schedule(Start(NextMorning()), [Begin(0, CleanRoom(1)), Begin(1, Depart(1)), Advance(0), Advance(1)]).db == DirtyAndOpen()
    ensures Schedule(Start(NextMorning()), [Begin(0, CleanRoom(1)), Begin(1, Depart(1)), Advance(1), Advance(0)]).db == DirtyAndOpen()
    ensures !DirtyIsClosed(DirtyAndOpen().rooms) && CheckInGuest(DirtyAndOpen(), 2).outcome == Ok(GuestIn)
  {
    hide Reachable, Schedule, Perform, NextMorning, DirtyAndOpen, CheckInGuest;
    NextMorningIsReachable();
    BothBegin();
    CleaningFirst();
    LeavingFirst();
    NextIsAdmitted();
    FourActions(Start(NextMorning()), Begin(0, CleanRoom(1)), Begin(1, Depart(1)), Advance(0), Advance(1));
    FourActions(Start(NextMorning()), Begin(0, CleanRoom(1)), Begin(1, Depart(1)), Advance(1), Advance(0));
  }
}
