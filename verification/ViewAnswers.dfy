/** What the read-only endpoints show, row by row, told without the queries themselves. */
module ViewAnswers {
  import opened Model
  import opened Operations
  import opened Cache
  import opened RoomCache

  // --------------------------------------------------------- free rooms

  /** A hold that nobody else can overlook: not used up, not over. */
  predicate HeldNow(s: State, room: RoomId) {
    room in s.holds && !s.holds[room].consumed && s.now < s.holds[room].expiresAt
  }

  /** The search shows a room exactly if it is of the type, open, not held now, and no stay that
      is not cancelled needs it between the dates. */
  lemma SearchShows(s: State, room: RoomId, checkIn: Day, checkOut: Day, roomType: string)
    ensures room in SearchAvailableRooms(s, checkIn, checkOut, roomType) <==>
            && room in s.rooms && s.rooms[room].roomType == roomType && s.rooms[room].isAvailable && !HeldNow(s, room)
            && forall id <- s.bookings ::
                 var b := s.bookings[id]; b.room == room && b.status != Cancelled ==> b.checkOut <= checkIn || checkOut <= b.checkIn
  {
    if id :| id in s.bookings && s.bookings[id].room == room && s.bookings[id].status != Cancelled
             && !(s.bookings[id].checkOut <= checkIn || checkOut <= s.bookings[id].checkIn) {
      assert Conflicts(s, room, checkIn, checkOut);
    }
  }

  /** The day view shows a room exactly if it is open, not held now, nobody's on that day, and of
      the type, if one is asked for. */
  lemma DayShows(s: State, room: RoomId, day: Day, roomType: Option<string>)
    ensures room in GetAvailableRooms(s, Some(day), roomType) <==>
            && room in s.rooms && s.rooms[room].isAvailable && !HeldNow(s, room)
            && (roomType != None && roomType.value != "" ==> s.rooms[room].roomType == roomType.value)
            && forall id <- s.bookings ::
                 var b := s.bookings[id]; b.room == room && b.status != Cancelled ==> day < b.checkIn || b.checkOut <= day
  {
    if id :| id in s.bookings && s.bookings[id].room == room && s.bookings[id].status != Cancelled
             && !(day < s.bookings[id].checkIn || s.bookings[id].checkOut <= day) {
      assert OccupiedOn(s, room, day);
    }
  }

  /** No day means today, no type and the empty type mean every type. */
  lemma DayDefaults(s: State, day: Option<Day>, roomType: Option<string>)
    ensures GetAvailableRooms(s, None, roomType) == GetAvailableRooms(s, Some(s.now / 86_400_000_000), roomType)
    ensures GetAvailableRooms(s, day, None) == GetAvailableRooms(s, day, Some(""))
    ensures forall name | name != "" ::
              GetAvailableRooms(s, day, Some(name)) == set r <- GetAvailableRooms(s, day, None) | s.rooms[r].roomType == name
  {}

  /** The night query: the days of the range on which the room is sold. */
  lemma NightsTakenAre(s: State, room: RoomId, checkIn: Day, checkOut: Day, day: Day)
    ensures day in NightsTaken(s, room, checkIn, checkOut) <==> checkIn <= day && day < checkOut && Night(room, day) in s.nights
  {
    if day in NightsTaken(s, room, checkIn, checkOut) {
      var n :| n in s.nights && n.room == room && checkIn <= n.day < checkOut && n.day == day;
      assert n == Night(room, day);
    }
    if checkIn <= day && day < checkOut && Night(room, day) in s.nights {
      assert Night(room, day).day in NightsTaken(s, room, checkIn, checkOut);
    }
  }

  // ------------------------------------------------------------ the room list

  /** Without a filter every room is listed, as it is; with one, those in that state. */
  lemma ListShows(s: State)
    ensures Produce(s, RoomList(None)) == Listing(s.rooms)
    ensures forall state, r ::
              var rows := GetRooms(s, Some(state));
              (r in rows <==> r in s.rooms && s.rooms[r].state == state) && (r in rows ==> rows[r] == s.rooms[r])
    ensures GetRooms(s, Some(Clean)) + GetRooms(s, Some(Dirty)) == s.rooms
  {
    assert GetRooms(s, None) == s.rooms;
  }

  lemma SearchViewShows(s: State, checkIn: Date, checkOut: Date, roomType: string)
    ensures Produce(s, RoomSearch(checkIn, checkOut, roomType))
            == Found(SearchAvailableRooms(s, DayNumber(checkIn), DayNumber(checkOut), roomType))
  {}

  // ------------------------------------------------------------- the calendar

  function MonthLength(year: int, month: int): int {
    if month in {4, 6, 9, 11} then 30
    else if month != 2 then 31
    else if year % 400 == 0 || (year % 4 == 0 && year % 100 != 0) then 29 else 28
  }

  predicate OnCalendar(d: Date) { d.day <= MonthLength(d.year, d.month) }

  /** The next date on the calendar. */
  function Tomorrow(d: Date): Date
    requires OnCalendar(d) && d != CalendarDate(9999, 12, 31)
  {
    if d.day < MonthLength(d.year, d.month) then CalendarDate(d.year, d.month, d.day + 1)
    else if d.month < 12 then CalendarDate(d.year, d.month + 1, 1)
    else CalendarDate(d.year + 1, 1, 1)
  }

  /** Day numbers count the days of the calendar from 1 January 1970. */
  lemma DaysAreCounted(d: Date)
    requires OnCalendar(d)
    ensures DayNumber(CalendarDate(1970, 1, 1)) == 0
    ensures d != CalendarDate(9999, 12, 31) ==> DayNumber(Tomorrow(d)) == DayNumber(d) + 1
  {
    if d.day == MonthLength(d.year, d.month) && d.month == 12 { YearsAreCounted(d.year); }
  }

  lemma YearsAreCounted(year: int)
    requires 1 <= year
    ensures year / 4 == (year - 1) / 4 + if year % 4 == 0 then 1 else 0
    ensures year / 100 == (year - 1) / 100 + if year % 100 == 0 then 1 else 0
    ensures year / 400 == (year - 1) / 400 + if year % 400 == 0 then 1 else 0
    ensures year % 400 == 0 ==> year % 100 == 0
    ensures year % 100 == 0 ==> year % 4 == 0
  {}

  // ---------------------------------------------------------------- cache keys

  /** The keys, letter by letter. */
  lemma KeysAre(checkIn: Date, checkOut: Date, roomType: string)
    ensures Key(RoomList(None)) == "rooms:list:all"
    ensures Key(RoomList(Some(Clean))) == "rooms:list:clean" && Key(RoomList(Some(Dirty))) == "rooms:list:dirty"
    ensures Key(RoomSearch(checkIn, checkOut, roomType))
            == "rooms:search:" + IsoFormat(checkIn) + ":" + IsoFormat(checkOut) + ":" + roomType
  {
    KeySegments(RoomList(None));
    KeySegments(RoomList(Some(Clean)));
    KeySegments(RoomList(Some(Dirty)));
    KeySegments(RoomSearch(checkIn, checkOut, roomType));
    hide IsoFormat;
    var iso := [IsoFormat(checkIn), IsoFormat(checkOut), roomType];
    assert Join(iso[2..]) == roomType;
    assert Join(iso[1..]) == IsoFormat(checkOut) + ":" + roomType by { assert iso[1..][1..] == iso[2..]; }
    assert Join(iso) == IsoFormat(checkIn) + ":" + (IsoFormat(checkOut) + ":" + roomType);
    var all := ["rooms", "search"] + iso;
    assert all == Segments(RoomSearch(checkIn, checkOut, roomType));
    assert all[1..][1..] == iso && all[1..][0] == "search";
    assert Join(all) == "rooms" + ":" + ("search" + ":" + Join(iso));
  }

  lemma DatesAreWritten()
    ensures IsoFormat(CalendarDate(2026, 9, 25)) == "2026-09-25"
    ensures IsoFormat(CalendarDate(970, 12, 1)) == "0970-12-01"
  {}

  // -------------------------------------------------------------- what is kept

  /** A miss stores what it serves, for as many seconds as told; a hit serves what is stored; a
      broken or missing Redis serves what the database answers and stores nothing. */
  lemma ReadThroughAnswers<P>(store: Store<P>, now: Instant, key: string, ttl: int, produced: P)
    ensures key in store ==> ReadThrough(store, now, Up, key, ttl, produced) == Served(store[key].page, store)
    ensures key in store ==> ReadThrough(store, now, SetFails, key, ttl, produced) == Served(store[key].page, store)
    ensures key !in store ==>
              ReadThrough(store, now, Up, key, ttl, produced) == Served(produced, store[key := Entry(produced, now + ttl * 1_000_000)])
    ensures key !in store ==> ReadThrough(store, now, SetFails, key, ttl, produced) == Served(produced, store)
    ensures ReadThrough(store, now, NotConfigured, key, ttl, produced) == Served(produced, store)
    ensures ReadThrough(store, now, GetFails, key, ttl, produced) == Served(produced, store)
  {}

  /** Lists live for thirty seconds, searches for sixty. */
  lemma TimesToLive(state: Option<RoomState>, checkIn: Date, checkOut: Date, roomType: string)
    ensures Ttl(RoomList(state)) == 30 && Ttl(RoomSearch(checkIn, checkOut, roomType)) == 60
  {}

  /** An entry is served until its time has come, whatever happens to other views and rows, as
      long as nothing is published. */
  lemma EntriesLast(sys: System, view: View, step: Step)
    requires Key(view) in sys.store && !Publishes(Exec(sys.db, step).outcome)
    ensures var after := Handle(sys, Write(step, {}));
            Exec(sys.db, step).state.now < sys.store[Key(view)].expiresAt <==> Key(view) in after.store
    ensures var after := Handle(sys, Write(step, {}));
            Key(view) in after.store ==> Serve(after, view, Up).page == sys.store[Key(view)].page
  {
    hide Exec, Key, Produce;
  }

  /** An invalidation takes the lists that Redis lets it take, and no search. */
  lemma InvalidationTakes(store: Store<Page>, view: View, kept: set<string>)
    ensures Key(view) in Invalidate(store, "rooms:list:", kept) <==> Key(view) in store && (view.RoomSearch? || Key(view) in kept)
    ensures Key(view) in Invalidate(store, "rooms:list:", kept) ==>
              Invalidate(store, "rooms:list:", kept)[Key(view)] == store[Key(view)]
  {
    hide Key;
    PrefixIsTheLists(view);
    assert LIST_PREFIX == "rooms:list:";
  }

  /** The requests whose success is published: payments that confirm, check-ins, check-outs and
      cleanings, repeated ones included. */
  lemma PublishedAnswers(outcome: Outcome)
    ensures Publishes(outcome) <==>
            outcome in {Ok(GuestIn), Ok(GuestOut), Ok(AlreadyCheckedOut), Ok(MarkedClean), Ok(AlreadyClean)}
            || exists id :: outcome == Ok(PaidOffline(id)) || outcome == Ok(PaidOnline(id)) || outcome == Ok(PaymentDone(id))
  {
    if outcome.Ok? && outcome.answer.PaidOffline? { assert outcome == Ok(PaidOffline(outcome.answer.id)); }
    if outcome.Ok? && outcome.answer.PaidOnline? { assert outcome == Ok(PaidOnline(outcome.answer.id)); }
    if outcome.Ok? && outcome.answer.PaymentDone? { assert outcome == Ok(PaymentDone(outcome.answer.id)); }
  }
}
