/** The two cached room views, over runs of the whole system: requests that change rooms are
    followed by an invalidation, reads go through the cache, and Redis may fail at any time. */
module RoomCache {
  import opened Model
  import opened Operations
  import opened Cache

  // ------------------------------------------------------------------- dates

  /** A calendar date as the search endpoint receives it. */
  datatype CalendarDate = CalendarDate(year: int, month: int, day: int)
  type Date = d: CalendarDate | 1 <= d.year <= 9999 && 1 <= d.month <= 12 && 1 <= d.day <= 31
    witness CalendarDate(1970, 1, 1)

  function Digit(n: int): char
    requires 0 <= n < 10
  {
    ('0' as int + n) as char
  }

  function Two(n: int): string
    requires 0 <= n < 100
  {
    [Digit(n / 10), Digit(n % 10)]
  }

  /** YYYY-MM-DD */
  function IsoFormat(d: Date): string { Two(d.year / 100) + Two(d.year % 100) + "-" + Two(d.month) + "-" + Two(d.day) }

  lemma TwoInjective(a: int, b: int)
    requires 0 <= a < 100 && 0 <= b < 100 && Two(a) == Two(b)
    ensures a == b
  {
    assert Two(a)[0] == Two(b)[0] && Two(a)[1] == Two(b)[1];
  }

  lemma IsoFormatInjective(a: Date, b: Date)
    requires IsoFormat(a) == IsoFormat(b)
    ensures a == b
  {
    var s, t := IsoFormat(a), IsoFormat(b);
    assert s[..2] == Two(a.year / 100) && s[2..4] == Two(a.year % 100) && s[5..7] == Two(a.month) && s[8..] == Two(a.day);
    assert t[..2] == Two(b.year / 100) && t[2..4] == Two(b.year % 100) && t[5..7] == Two(b.month) && t[8..] == Two(b.day);
    TwoInjective(a.year / 100, b.year / 100);
    TwoInjective(a.year % 100, b.year % 100);
    TwoInjective(a.month, b.month);
    TwoInjective(a.day, b.day);
  }

  predicate Leap(year: int) { year % 4 == 0 && (year % 100 != 0 || year % 400 == 0) }

  function DaysBefore(month: int, leap: bool): int
    requires 1 <= month <= 12
  {
    var common := [0, 31, 59, 90, 120, 151, 181, 212, 243, 273, 304, 334];
    common[month - 1] + if leap && month > 2 then 1 else 0
  }

  /** Days since 1 January 1970. */
  function DayNumber(d: Date): Day {
    var y := d.year - 1;
    y * 365 + y / 4 - y / 100 + y / 400 + DaysBefore(d.month, Leap(d.year)) + d.day - 719163
  }

  // ------------------------------------------------------------------- views

  /** The two endpoints that read through the cache. */
  datatype View = RoomList(state: Option<RoomState>) | RoomSearch(checkIn: Date, checkOut: Date, roomType: string)

  /** The rows a response is made of: the list is ordered by room id, so the rows determine it. */
  datatype Page = Listing(rows: map<RoomId, Room>) | Found(rooms: set<RoomId>)

  function GetRooms(s: State, state: Option<RoomState>): map<RoomId, Room> {
    map r <- s.rooms | state.None? || s.rooms[r].state == state.value :: s.rooms[r]
  }

  /** What the database answers now. */
  function Produce(s: State, view: View): Page {
    match view
    case RoomList(state) => Listing(GetRooms(s, state))
    case RoomSearch(checkIn, checkOut, roomType) =>
      Found(SearchAvailableRooms(s, DayNumber(checkIn), DayNumber(checkOut), roomType))
  }

  function StateName(state: Option<RoomState>): string {
    match state case None => "all" case Some(Clean) => "clean" case Some(Dirty) => "dirty"
  }

  function Key(view: View): string {
    match view
    case RoomList(state) => MakeKey("rooms", [Some("list"), Some(StateName(state))])
    case RoomSearch(checkIn, checkOut, roomType) =>
      MakeKey("rooms", [Some("search"), Some(IsoFormat(checkIn)), Some(IsoFormat(checkOut)), Some(roomType)])
  }

  /** Seconds an entry may live. */
  function Ttl(view: View): int { if view.RoomList? then 30 else 60 }

  const LIST_PREFIX: string := "rooms:list:"

  function Segments(view: View): seq<string> {
    match view
    case RoomList(state) => ["rooms", "list", StateName(state)]
    case RoomSearch(checkIn, checkOut, roomType) => ["rooms", "search", IsoFormat(checkIn), IsoFormat(checkOut), roomType]
  }

  lemma KeySegments(view: View)
    ensures Key(view) == Join(Segments(view))
  {
    hide Join, IsoFormat;
    var parts := Segments(view)[1..];
    PresentOfSome(parts);
    assert ["rooms"] + parts == Segments(view);
    var options := seq(|parts|, i requires 0 <= i < |parts| => Some(parts[i]));
    match view
    case RoomList(state) => assert options == [Some("list"), Some(StateName(state))];
    case RoomSearch(checkIn, checkOut, roomType) =>
      assert options == [Some("search"), Some(IsoFormat(checkIn)), Some(IsoFormat(checkOut)), Some(roomType)];
  }

  lemma Rest(segments: seq<string>)
    requires |segments| > 1
    ensures Join(segments) == segments[0] + ":" + Join(segments[1..])
  {}

  lemma IsoFormatIsPlain(d: Date)
    ensures Plain(IsoFormat(d))
  {}

  /** No two views share a key, whatever room type is searched for. */
  lemma KeyInjective(a: View, b: View)
    requires Key(a) == Key(b)
    ensures a == b
  {
    hide Join, IsoFormat;
    KeySegments(a);
    KeySegments(b);
    SecondSegment(Segments(a), Segments(b));
    if a.RoomSearch? {
      IsoFormatIsPlain(a.checkIn);
      IsoFormatIsPlain(a.checkOut);
      IsoFormatIsPlain(b.checkIn);
      IsoFormatIsPlain(b.checkOut);
    }
    JoinInjective(Segments(a), Segments(b));
    assert Segments(a)[2] == Segments(b)[2];
    if a.RoomSearch? {
      assert Segments(a)[3] == Segments(b)[3] && Segments(a)[4] == Segments(b)[4];
      IsoFormatInjective(a.checkIn, b.checkIn);
      IsoFormatInjective(a.checkOut, b.checkOut);
    }
  }

  lemma SecondSegment(a: seq<string>, b: seq<string>)
    requires |a| >= 3 && |b| >= 3 && Join(a) == Join(b)
    requires Plain(a[0]) && Plain(b[0]) && Plain(a[1]) && Plain(b[1])
    ensures a[1] == b[1]
  {
    hide Join;
    Rest(a);
    Rest(b);
    PlainHeads(a[0], b[0], Join(a[1..]), Join(b[1..]));
    Rest(a[1..]);
    Rest(b[1..]);
    PlainHeads(a[1], b[1], Join(a[1..][1..]), Join(b[1..][1..]));
  }

  /** The invalidated prefix covers every list key and no search key. */
  lemma PrefixIsTheLists(view: View)
    ensures LIST_PREFIX <= Key(view) <==> view.RoomList?
  {
    KeySegments(view);
    Rest(Segments(view));
    Rest(Segments(view)[1..]);
    assert Key(view)[6] == Segments(view)[1][0];
    assert LIST_PREFIX[6] == 'l';
  }

  // -------------------------------------------------------------------- runs

  datatype System = System(db: State, store: Store<Page>)

  /** A request that may write, with the keys that its invalidation fails to delete; or a
      read through the cache. */
  datatype Request = Write(step: Step, kept: set<string>) | Read(view: View, link: Link)

  /** The routers that publish after success, and with that invalidate the room list. */
  predicate Publishes(outcome: Outcome) {
    outcome.Ok? && match outcome.answer
      case PaidOffline(_) => true
      case PaidOnline(_) => true
      case PaymentDone(_) => true
      case GuestIn => true
      case GuestOut => true
      case AlreadyCheckedOut => true
      case MarkedClean => true
      case AlreadyClean => true
      case _ => false
  }

  function Serve(sys: System, view: View, link: Link): Served<Page> {
    ReadThrough(sys.store, sys.db.now, link, Key(view), Ttl(view), Produce(sys.db, view))
  }

  function Handle(sys: System, request: Request): System {
    match request
    case Write(step, kept) =>
      var r := Exec(sys.db, step);
      var store := Expire(sys.store, r.state.now);
      System(r.state, if Publishes(r.outcome) then Invalidate(store, LIST_PREFIX, kept) else store)
    case Read(view, link) => sys.(store := Serve(sys, view, link).store)
  }

  function HandleAll(sys: System, requests: seq<Request>): System {
    if requests == [] then sys
    else Handle(HandleAll(sys, requests[..|requests| - 1]), requests[|requests| - 1])
  }

  function Cold(db: State): System { System(db, map[]) }

  // -------------------------------------------------------------- coherence

  lemma ConfirmingLeavesRooms(s: State, id: BookingId, payment: Payment)
    requires id in s.bookings
    ensures Confirm(s, id, payment).rooms == s.rooms
  {}

  lemma DeliveriesLeaveRooms(s: State, ev: PaymentEvent)
    ensures ProcessPaymentEvent(s, ev).state.rooms == s.rooms
  {
    hide Confirm, WithStatus, RightAmount, HoldBacks, PaymentClash, NightClash, NightRows, Ref, FindByRef, OnlinePayment;
    var found := FindByRef(s.bookings, ev.reference);
    if found.Some? { ConfirmingLeavesRooms(Logged(s, ev), found.value, OnlinePayment(ev)); }
  }

  lemma PaymentsLeaveRooms(s: State, step: Step)
    requires step.PayOffline? || step.Deliver? || step.PayOnline?
    ensures Exec(s, step).state.rooms == s.rooms
  {
    hide ProcessPaymentEvent, RightAmount, PaymentClash, NightClash, NightRows;
    match step
    case PayOffline(_, _, _, _) =>
    case Deliver(ev) => DeliveriesLeaveRooms(s, ev);
    case PayOnline(id, _, eventId) =>
      if id in s.bookings { DeliveriesLeaveRooms(s, ProviderEvent(id, s.bookings[id], eventId)); }
  }

  lemma OthersLeaveRooms(s: State, step: Step)
    requires !step.Arrive? && !step.Depart? && !step.CleanRoom?
    ensures Exec(s, step).state.rooms == s.rooms
  {
    hide ProcessPaymentEvent, PayBooking, RecordOfflinePayment, BlockedByBooking, NightsTaken, ResolveGuest, NewBooking,
      DeadHolds, StaleIds, OwnHolds, CancelAll;
    if step.PayOffline? || step.Deliver? || step.PayOnline? { PaymentsLeaveRooms(s, step); }
  }

  /** Every operation that changes a room row answers in a way that makes its router publish. */
  lemma RoomWritersPublish(s: State, step: Step)
    ensures Exec(s, step).state.rooms == s.rooms || Publishes(Exec(s, step).outcome)
  {
    hide HoldRoom, CreateBooking, ProcessPaymentEvent, PayBooking, RecordOfflinePayment, UpdateRoomType, DeleteExpiredHolds,
      CancelStaleProcessing;
    if !step.Arrive? && !step.Depart? && !step.CleanRoom? { OthersLeaveRooms(s, step); }
  }

  /** Every list in the store is what the database would answer now. */
  ghost predicate Coherent(sys: System) {
    forall view: View | view.RoomList? && Key(view) in sys.store :: sys.store[Key(view)].page == Produce(sys.db, view)
  }

  lemma WriteKeepsCoherence(sys: System, step: Step)
    requires Coherent(sys)
    ensures Coherent(Handle(sys, Write(step, {})))
  {
    hide Exec, Key, Publishes;
    RoomWritersPublish(sys.db, step);
    var after := Handle(sys, Write(step, {}));
    forall view: View | view.RoomList? && Key(view) in after.store ensures after.store[Key(view)].page == Produce(after.db, view) {
      PrefixIsTheLists(view);
    }
  }

  lemma ReadKeepsCoherence(sys: System, view: View, link: Link)
    requires Coherent(sys)
    ensures Coherent(Handle(sys, Read(view, link)))
  {
    hide Key, Produce;
    forall other: View | Key(other) == Key(view) ensures other == view { KeyInjective(other, view); }
  }

  /** Invalidation never fails half way. (Reads may fail in any way they like.) */
  predicate Invalidated(requests: seq<Request>) { forall r <- requests :: r.Write? ==> r.kept == {} }

  lemma {:induction false} AlwaysCoherent(db: State, requests: seq<Request>)
    requires Invalidated(requests)
    ensures Coherent(HandleAll(Cold(db), requests))
  {
    hide Handle, Coherent;
    if requests == [] {
      ColdIsCoherent(db);
    } else {
      var before, last := requests[..|requests| - 1], requests[|requests| - 1];
      AlwaysCoherent(db, before);
      match last
      case Write(step, kept) => WriteKeepsCoherence(HandleAll(Cold(db), before), step);
      case Read(view, link) => ReadKeepsCoherence(HandleAll(Cold(db), before), view, link);
    }
  }

  lemma ColdIsCoherent(db: State)
    ensures Coherent(Cold(db))
  {}

  /** After any run in which invalidations succeed, the room list served is the list that the
      database holds now, cached or not. */
  lemma RoomListIsNeverStale(db: State, requests: seq<Request>, state: Option<RoomState>, link: Link)
    requires Invalidated(requests)
    ensures var end := HandleAll(Cold(db), requests);
            Serve(end, RoomList(state), link).page == Listing(GetRooms(end.db, state))
  {
    hide HandleAll, Key, GetRooms;
    AlwaysCoherent(db, requests);
    var end := HandleAll(Cold(db), requests);
    assert RoomList(state).RoomList?;
    assert Produce(end.db, RoomList(state)) == Listing(GetRooms(end.db, state));
  }

  // --------------------------------------------------------- bounded staleness

  /** The page was the database's answer after the first k requests, less than its time to
      live ago. */
  predicate RecentAnswer(db: State, requests: seq<Request>, k: nat, view: View, page: Page) {
    && k <= |requests|
    && page == Produce(HandleAll(Cold(db), requests[..k]).db, view)
    && HandleAll(Cold(db), requests).db.now - HandleAll(Cold(db), requests[..k]).db.now < Ttl(view) * SECOND
  }

  /** An entry's page was produced after the first k requests, and it expires in time. */
  predicate Stored(db: State, requests: seq<Request>, k: nat, view: View, entry: Entry<Page>) {
    && k <= |requests|
    && entry.page == Produce(HandleAll(Cold(db), requests[..k]).db, view)
    && entry.expiresAt <= HandleAll(Cold(db), requests[..k]).db.now + Ttl(view) * SECOND
  }

  ghost predicate AllStored(db: State, requests: seq<Request>) {
    var end := HandleAll(Cold(db), requests);
    forall view | Key(view) in end.store ::
      end.db.now < end.store[Key(view)].expiresAt && exists k :: Stored(db, requests, k, view, end.store[Key(view)])
  }

  lemma StoredStays(db: State, before: seq<Request>, last: Request, k: nat, view: View, entry: Entry<Page>)
    requires Stored(db, before, k, view, entry)
    ensures Stored(db, before + [last], k, view, entry)
  {
    assert (before + [last])[..k] == before[..k];
  }

  /** Entries are either left from before, or the answer just produced. */
  lemma EntriesAreKeptOrProduced(sys: System, request: Request, view: View)
    requires Key(view) in Handle(sys, request).store
    ensures var after := Handle(sys, request);
            var entry := after.store[Key(view)];
            if Key(view) in sys.store then entry == sys.store[Key(view)] && (request.Write? ==> after.db.now < entry.expiresAt)
            else request.Read? && request.view == view
                 && entry == Entry(Produce(sys.db, view), sys.db.now + Ttl(view) * SECOND)
    ensures request.Read? ==> Handle(sys, request).db == sys.db
  {
    hide Exec, Publishes, Key, Produce;
    if request.Read? && Key(request.view) == Key(view) { KeyInjective(request.view, view); }
  }

  lemma {:induction false} EverythingIsStored(db: State, requests: seq<Request>)
    ensures AllStored(db, requests)
  {
    hide Handle, Key, Produce;
    if requests != [] {
      var before, last := requests[..|requests| - 1], requests[|requests| - 1];
      var sys, end := HandleAll(Cold(db), before), HandleAll(Cold(db), requests);
      assert requests == before + [last];
      EverythingIsStored(db, before);
      forall view | Key(view) in end.store
        ensures end.db.now < end.store[Key(view)].expiresAt && exists k :: Stored(db, requests, k, view, end.store[Key(view)])
      {
        var entry := end.store[Key(view)];
        EntriesAreKeptOrProduced(sys, last, view);
        if Key(view) in sys.store {
          var k :| Stored(db, before, k, view, entry);
          StoredStays(db, before, last, k, view, entry);
        } else {
          assert requests[..|before|] == before;
          assert Stored(db, requests, |before|, view, entry);
        }
      }
    }
  }

  /** Whatever fails, whenever: a page served for a view, list or search, is what the database
      answered at some moment of the run, less than that view's time to live ago. */
  lemma ServedPagesAreRecent(db: State, requests: seq<Request>, view: View, link: Link)
    ensures exists k :: RecentAnswer(db, requests, k, view, Serve(HandleAll(Cold(db), requests), view, link).page)
  {
    hide Handle, HandleAll, Key, Produce;
    EverythingIsStored(db, requests);
    var end := HandleAll(Cold(db), requests);
    var page := Serve(end, view, link).page;
    if Key(view) in end.store && page == end.store[Key(view)].page {
      var k :| Stored(db, requests, k, view, end.store[Key(view)]);
      assert RecentAnswer(db, requests, k, view, page);
    } else {
      assert requests[..|requests|] == requests;
      assert RecentAnswer(db, requests, |requests|, view, page);
    }
  }

  /** Every check-in changes the full list. */
  lemma CheckInChangesTheList(s: State, id: BookingId)
    requires CheckInGuest(s, id).outcome == Ok(GuestIn)
    ensures Produce(CheckInGuest(s, id).state, RoomList(None)) != Produce(s, RoomList(None))
  {
    var room := s.bookings[id].room;
    var after := CheckInGuest(s, id).state;
    assert room in GetRooms(s, None) && room in GetRooms(after, None);
    assert GetRooms(s, None)[room].isAvailable && !GetRooms(after, None)[room].isAvailable;
  }
}
