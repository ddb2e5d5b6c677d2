/** The cached room list when nothing is atomic: a reader that misses fetches rows first and
    stores them later, a writer commits first and invalidates later, and both may be overtaken. */
module CacheRaces {
  import opened Model
  import opened Operations
  import opened Invariant
  import opened Housekeeping
  import opened Cache
  import opened RoomCache

  type Reader = nat

  /** Rows fetched after a miss and not stored yet. */
  datatype Pending = Pending(view: View, page: Page)

  /** owed counts the commits whose invalidation is still to come. */
  datatype Racing = Racing(db: State, store: Store<Page>, pending: map<Reader, Pending>, owed: nat)

  datatype Move =
    | Update(step: Step)
    | Publish(kept: set<string>)
    | Fetch(reader: Reader, view: View)
    | Fill(reader: Reader, fails: bool)

  function Act(s: Racing, move: Move): Racing {
    match move
    case Update(step) =>
      var r := Exec(s.db, step);
      s.(db := r.state, store := Expire(s.store, r.state.now), owed := s.owed + if Publishes(r.outcome) then 1 else 0)
    case Publish(kept) =>
      if s.owed == 0 then s else s.(store := Invalidate(s.store, LIST_PREFIX, kept), owed := s.owed - 1)
    case Fetch(reader, view) =>
      if reader in s.pending || Key(view) in s.store then s
      else s.(pending := s.pending[reader := Pending(view, Produce(s.db, view))])
    case Fill(reader, fails) =>
      if reader !in s.pending then s
      else
        var Pending(view, page) := s.pending[reader];
        s.(pending := s.pending - {reader},
           store := if fails then s.store else s.store[Key(view) := Entry(page, s.db.now + Ttl(view) * SECOND)])
  }

  function ActAll(s: Racing, moves: seq<Move>): Racing {
    if moves == [] then s else Act(ActAll(s, moves[..|moves| - 1]), moves[|moves| - 1])
  }

  function Fresh(db: State): Racing { Racing(db, map[], map[], 0) }

  // ---------------------------------------------------- the atomic special case

  /** A write followed at once by its invalidation, and a fetch followed at once by its fill, are
      the steps of the atomic runs. */
  lemma AtOnceIsAtomic(s: Racing, step: Step, kept: set<string>, reader: Reader, view: View, fails: bool)
    requires s.owed == 0 && reader !in s.pending
    ensures var written := Act(Act(s, Update(step)), Publish(kept));
            RoomCache.System(written.db, written.store) == Handle(RoomCache.System(s.db, s.store), Write(step, kept)) && written.owed == 0
    ensures var read := Act(Act(s, Fetch(reader, view)), Fill(reader, fails));
            RoomCache.System(read.db, read.store)
            == Handle(RoomCache.System(s.db, s.store), Read(view, if fails then SetFails else Up))
  {
    hide Exec, Key, Publishes, Produce;
  }

  // -------------------------------------------------------------- coherence

  /** Every stored list is what the database holds now. */
  ghost predicate Current(s: Racing) { Coherent(RoomCache.System(s.db, s.store)) }

  /** The same, unless an invalidation that will clear the lists is still to come. */
  ghost predicate InOrder(s: Racing) { s.owed > 0 || Current(s) }

  /** The fill of a list that the database no longer holds. */
  predicate FillsOldList(s: Racing, move: Move) {
    && move.Fill? && !move.fails && move.reader in s.pending
    && s.pending[move.reader].view.RoomList?
    && s.pending[move.reader].page != Produce(s.db, s.pending[move.reader].view)
  }

  /** A fill leaves a coherent store coherent exactly when the list it stores is still what the
      database holds. (Search results are nobody's list.) */
  lemma FillKeepsCurrentIff(s: Racing, reader: Reader, fails: bool)
    requires Current(s)
    ensures Current(Act(s, Fill(reader, fails))) <==> !FillsOldList(s, Fill(reader, fails))
  {
    hide Key, Produce;
    if reader in s.pending {
      var view := s.pending[reader].view;
      forall other: View | Key(other) == Key(view) ensures other == view { KeyInjective(other, view); }
      var after := Act(s, Fill(reader, fails));
      if !fails { assert Key(view) in after.store && after.store[Key(view)].page == s.pending[reader].page; }
    }
  }

  /** Any invalidation repairs whatever was wrong: a wrong list lasts at most until the next
      check-in, check-out, cleaning or payment is published, or until it expires. */
  lemma PublishRepairs(s: Racing)
    requires s.owed > 0
    ensures Current(Act(s, Publish({})))
  {
    hide Key, Produce;
    var after := Act(s, Publish({}));
    forall view: View | view.RoomList? ensures Key(view) !in after.store { PrefixIsTheLists(view); }
  }

  /** An invalidation that fails half way, with no other to come, and leaves a wrong list behind. */
  ghost predicate LeavesOldList(s: Racing, move: Move) {
    && move.Publish? && s.owed == 1
    && exists view: View ::
         view.RoomList? && Key(view) in s.store && Key(view) in move.kept && s.store[Key(view)].page != Produce(s.db, view)
  }

  lemma PublishKeepsOrderIff(s: Racing, kept: set<string>)
    requires InOrder(s)
    ensures InOrder(Act(s, Publish(kept))) <==> !LeavesOldList(s, Publish(kept))
  {
    hide Key, Produce;
    var after := Act(s, Publish(kept));
    if s.owed == 1 {
      forall view: View | view.RoomList?
        ensures Key(view) in after.store <==> Key(view) in s.store && Key(view) in kept
      {
        PrefixIsTheLists(view);
      }
      if view: View :| view.RoomList? && Key(view) in s.store && Key(view) in kept && s.store[Key(view)].page != Produce(s.db, view) {
        assert Key(view) in after.store && after.store[Key(view)].page != Produce(after.db, view);
      }
    }
  }

  /** Neither a read nor a commit can spoil the lists: every room writer publishes afterwards. */
  lemma OthersKeepOrder(s: Racing, move: Move)
    requires InOrder(s) && (move.Update? || move.Fetch?)
    ensures InOrder(Act(s, move))
  {
    hide Exec, Key, Publishes;
    match move
    case Update(step) => RoomWritersPublish(s.db, step);
    case Fetch(_, _) =>
  }

  /** What makes the lists go wrong. */
  ghost predicate Spoils(s: Racing, move: Move) { (FillsOldList(s, move) && s.owed == 0) || LeavesOldList(s, move) }

  /** Exactly: the lists go wrong when, and only when, an old list is stored while no invalidation
      is to come, or the last invalidation to come fails and leaves a wrong list behind. */
  lemma ListsGoWrongIff(s: Racing, move: Move)
    requires InOrder(s)
    ensures InOrder(Act(s, move)) <==> !Spoils(s, move)
  {
    hide Exec, Key, Publishes, Produce, Coherent;
    match move
    case Fill(reader, fails) => if s.owed == 0 { FillKeepsCurrentIff(s, reader, fails); }
    case Publish(kept) => PublishKeepsOrderIff(s, kept);
    case _ => OthersKeepOrder(s, move);
  }

  // ------------------------------------------------------------- every run

  ghost predicate NothingSpoils(db: State, moves: seq<Move>) {
    moves == [] ||
    var before := moves[..|moves| - 1];
    NothingSpoils(db, before) && !Spoils(ActAll(Fresh(db), before), moves[|moves| - 1])
  }

  lemma {:induction false} InOrderUnlessSpoilt(db: State, moves: seq<Move>)
    requires NothingSpoils(db, moves)
    ensures InOrder(ActAll(Fresh(db), moves))
  {
    hide Act, InOrder, Spoils;
    if moves == [] {
      FreshIsInOrder(db);
    } else {
      InOrderUnlessSpoilt(db, moves[..|moves| - 1]);
      ListsGoWrongIff(ActAll(Fresh(db), moves[..|moves| - 1]), moves[|moves| - 1]);
    }
  }

  lemma FreshIsInOrder(db: State)
    ensures InOrder(Fresh(db))
  {}

  /** After any interleaving of reads and writes in which nothing of the kind happens, once every
      invalidation has been tried, the list served is the list that the database holds. */
  lemma ServedListIsCurrent(db: State, moves: seq<Move>, state: Option<RoomState>, link: Link)
    requires NothingSpoils(db, moves) && ActAll(Fresh(db), moves).owed == 0
    ensures var end := ActAll(Fresh(db), moves);
            Serve(RoomCache.System(end.db, end.store), RoomList(state), link).page == Listing(GetRooms(end.db, state))
  {
    hide ActAll, NothingSpoils, Key, GetRooms;
    InOrderUnlessSpoilt(db, moves);
    var end := ActAll(Fresh(db), moves);
    assert RoomList(state).RoomList?;
    assert Produce(end.db, RoomList(state)) == Listing(GetRooms(end.db, state));
  }

  // ------------------------------------------------------ bounded staleness

  /** The rows were fetched after the first k moves. */
  predicate FetchedAt(db: State, moves: seq<Move>, k: nat, view: View, page: Page) {
    k <= |moves| && page == Produce(ActAll(Fresh(db), moves[..k]).db, view)
  }

  /** And stored after the first j, so that they expire in time. */
  predicate StoredAt(db: State, moves: seq<Move>, j: nat, view: View, expiresAt: Instant) {
    j <= |moves| && expiresAt <= ActAll(Fresh(db), moves[..j]).db.now + Ttl(view) * SECOND
  }

  predicate Traced(db: State, moves: seq<Move>, k: nat, j: nat, view: View, entry: Entry<Page>) {
    k <= j && FetchedAt(db, moves, k, view, entry.page) && StoredAt(db, moves, j, view, entry.expiresAt)
  }

  ghost predicate AllTraced(db: State, moves: seq<Move>) {
    var end := ActAll(Fresh(db), moves);
    && (forall r <- end.pending :: exists k :: FetchedAt(db, moves, k, end.pending[r].view, end.pending[r].page))
    && (forall view | Key(view) in end.store ::
          end.db.now < end.store[Key(view)].expiresAt && exists k, j :: Traced(db, moves, k, j, view, end.store[Key(view)]))
  }

  lemma TracesStay(db: State, before: seq<Move>, last: Move, k: nat, j: nat, view: View, page: Page, expiresAt: Instant)
    ensures FetchedAt(db, before, k, view, page) ==> FetchedAt(db, before + [last], k, view, page)
    ensures StoredAt(db, before, j, view, expiresAt) ==> StoredAt(db, before + [last], j, view, expiresAt)
  {
    if k <= |before| { assert (before + [last])[..k] == before[..k]; }
    if j <= |before| { assert (before + [last])[..j] == before[..j]; }
  }

  /** Where fetched rows come from. */
  lemma PendingIsKeptOrFetched(s: Racing, move: Move, r: Reader)
    requires r in Act(s, move).pending
    ensures var p := Act(s, move).pending[r];
            (r in s.pending && p == s.pending[r]) || (p.page == Produce(s.db, p.view) && Act(s, move).db == s.db)
  {
    hide Exec, Key, Publishes, Produce;
  }

  /** Where stored rows come from. */
  lemma EntryIsKeptOrFilled(s: Racing, move: Move, view: View)
    requires Key(view) in Act(s, move).store
    ensures var entry, after := Act(s, move).store[Key(view)], Act(s, move);
            || (Key(view) in s.store && entry == s.store[Key(view)] && (move.Update? ==> after.db.now < entry.expiresAt))
            || (move.Fill? && move.reader in s.pending && s.pending[move.reader].view == view
                && entry == Entry(s.pending[move.reader].page, s.db.now + Ttl(view) * SECOND))
    ensures !move.Update? ==> Act(s, move).db == s.db
  {
    hide Exec, Publishes, Key, Produce;
    if move.Fill? && move.reader in s.pending && Key(s.pending[move.reader].view) == Key(view) {
      KeyInjective(s.pending[move.reader].view, view);
    }
  }

  lemma {:induction false} EverythingIsTraced(db: State, moves: seq<Move>)
    ensures AllTraced(db, moves)
  {
    hide Act, Key, Produce, FetchedAt, StoredAt, Publishes;
    if moves != [] {
      var before, last := moves[..|moves| - 1], moves[|moves| - 1];
      var s, end := ActAll(Fresh(db), before), ActAll(Fresh(db), moves);
      assert moves == before + [last];
      EverythingIsTraced(db, before);
      forall r | r in end.pending ensures exists k :: FetchedAt(db, moves, k, end.pending[r].view, end.pending[r].page) {
        PendingStaysTraced(db, before, last, r);
      }
      forall view | Key(view) in end.store
        ensures end.db.now < end.store[Key(view)].expiresAt && exists k, j :: Traced(db, moves, k, j, view, end.store[Key(view)])
      {
        EntryStaysTraced(db, before, last, view);
      }
    }
  }

  lemma PendingStaysTraced(db: State, before: seq<Move>, last: Move, r: Reader)
    requires AllTraced(db, before) && r in ActAll(Fresh(db), before + [last]).pending
    ensures var p := ActAll(Fresh(db), before + [last]).pending[r];
            exists k :: FetchedAt(db, before + [last], k, p.view, p.page)
  {
    hide Act, ActAll, Key, Produce;
    LastMove(db, before, last);
    var s, p := ActAll(Fresh(db), before), ActAll(Fresh(db), before + [last]).pending[r];
    PendingIsKeptOrFetched(s, last, r);
    if r in s.pending && p == s.pending[r] {
      var k :| FetchedAt(db, before, k, p.view, p.page);
      TracesStay(db, before, last, k, 0, p.view, p.page, 0);
    } else {
      assert (before + [last])[..|before|] == before;
      assert FetchedAt(db, before + [last], |before|, p.view, p.page);
    }
  }

  lemma LastMove(db: State, before: seq<Move>, last: Move)
    ensures ActAll(Fresh(db), before + [last]) == Act(ActAll(Fresh(db), before), last)
  {
    hide Act;
    assert (before + [last])[..|before|] == before;
  }

  lemma EntryStaysTraced(db: State, before: seq<Move>, last: Move, view: View)
    requires AllTraced(db, before)
    ensures var end := ActAll(Fresh(db), before + [last]);
            Key(view) in end.store ==>
              end.db.now < end.store[Key(view)].expiresAt
              && exists k, j :: Traced(db, before + [last], k, j, view, end.store[Key(view)])
  {
    hide Act, ActAll, Key, Produce, Publishes;
    LastMove(db, before, last);
    var s, end := ActAll(Fresh(db), before), ActAll(Fresh(db), before + [last]);
    if Key(view) !in end.store { return; }
    var entry := end.store[Key(view)];
    EntryIsKeptOrFilled(s, last, view);
    if Key(view) in s.store && entry == s.store[Key(view)] && (last.Update? ==> end.db.now < entry.expiresAt) {
      var k, j :| Traced(db, before, k, j, view, entry);
      TracesStay(db, before, last, k, j, view, entry.page, entry.expiresAt);
      assert Traced(db, before + [last], k, j, view, entry);
    } else {
      var k :| FetchedAt(db, before, k, view, entry.page);
      TracesStay(db, before, last, k, |before|, view, entry.page, entry.expiresAt);
      assert before[..|before|] == before;
      assert StoredAt(db, before, |before|, view, entry.expiresAt);
      assert Traced(db, before + [last], k, |before|, view, entry);
    }
  }

  /** Fetched after the first k moves, stored after the first j, less than its time to live ago. */
  predicate StoredRecently(db: State, moves: seq<Move>, k: nat, j: nat, view: View, page: Page) {
    && k <= j <= |moves|
    && page == Produce(ActAll(Fresh(db), moves[..k]).db, view)
    && ActAll(Fresh(db), moves).db.now - ActAll(Fresh(db), moves[..j]).db.now < Ttl(view) * SECOND
  }

  ghost predicate WasStoredRecently(db: State, moves: seq<Move>, view: View, page: Page) {
    exists k: nat, j: nat :: StoredRecently(db, moves, k, j, view, page)
  }

  /** Whatever overtakes what, and whatever fails: a page served, list or search, is what the
      database answered at some moment, and it is either fresh or was stored less than its time
      to live ago. (Between the two moments lies the time a reader takes from fetch to fill.) */
  lemma ServedPagesWereStoredRecently(db: State, moves: seq<Move>, view: View, link: Link)
    ensures var end := ActAll(Fresh(db), moves);
            WasStoredRecently(db, moves, view, Serve(RoomCache.System(end.db, end.store), view, link).page)
  {
    hide ActAll, Key, Produce;
    EverythingIsTraced(db, moves);
    var end := ActAll(Fresh(db), moves);
    var page := Serve(RoomCache.System(end.db, end.store), view, link).page;
    if Key(view) in end.store && page == end.store[Key(view)].page {
      var k, j :| Traced(db, moves, k, j, view, end.store[Key(view)]);
      assert StoredRecently(db, moves, k, j, view, page);
    } else {
      assert moves[..|moves|] == moves;
      assert StoredRecently(db, moves, |moves|, |moves|, view, page);
    }
  }

  // ------------------------------------------------------- a list that is wrong

  const OVERTAKEN: seq<Move> := [Fetch(0, RoomList(None)), Update(Arrive(1)), Publish({}), Fill(0, false)]

  lemma FourMoves(s: Racing, a: Move, b: Move, c: Move, d: Move)
    ensures ActAll(s, [a, b, c, d]) == Act(Act(Act(Act(s, a), b), c), d)
  {
    hide Act;
    assert [a, b, c, d][..3] == [a, b, c] && [a, b, c][..2] == [a, b] && [a, b][..1] == [a] && [a][..0] == [];
    assert ActAll(s, [a]) == Act(s, a);
    assert ActAll(s, [a, b]) == Act(Act(s, a), b);
    assert ActAll(s, [a, b, c]) == Act(Act(Act(s, a), b), c);
  }

  lemma PaidBothIsReachable()
    ensures Reachable(PaidBoth(Confirmed, Confirmed))
  {
    hide Reachable, PaidFirst, TwoStays, PaidBoth, RecordOfflinePayment;
    TwoStaysAreReachable();
    DeskTakesBoth();
    StepIsReachable(TwoStays(), PayOffline(1, "desk", 35000.0, NAIRA));
    StepIsReachable(PaidFirst(), PayOffline(2, "desk", 35000.0, NAIRA));
  }

  /** Any check-in between fetch and fill makes the full list an old one. */
  lemma CheckInOvertakes(s: Racing, reader: Reader, id: BookingId)
    requires reader in s.pending && s.pending[reader] == Pending(RoomList(None), Produce(s.db, RoomList(None)))
    requires CheckInGuest(s.db, id).outcome == Ok(GuestIn)
    ensures FillsOldList(Act(Act(s, Update(Arrive(id))), Publish({})), Fill(reader, false))
  {
    CheckInChangesTheList(s.db, id);
    hide CheckInGuest, Produce, Publishes;
  }

  /** Such a fill happens: a reader that fetched the list before a check-in and stores it after the
      invalidation leaves a list in which the occupied room is still free, and it is served. */
  lemma OvertakenReaderServesOldList()
    ensures Reachable(PaidBoth(Confirmed, Confirmed))
    ensures var end := ActAll(Fresh(PaidBoth(Confirmed, Confirmed)), OVERTAKEN);
            && end.owed == 0 && end.db == Closing(PaidBoth(CheckedIn, Confirmed))
            && Serve(RoomCache.System(end.db, end.store), RoomList(None), Up).page
               == Listing(map[1 := Room("standard", true, Clean)])
            && Listing(GetRooms(end.db, None)) == Listing(map[1 := Room("standard", false, Clean)])
  {
    hide Reachable, ActAll, Key;
    PaidBothIsReachable();
    var s := Fresh(PaidBoth(Confirmed, Confirmed));
    FourMoves(s, OVERTAKEN[0], OVERTAKEN[1], OVERTAKEN[2], OVERTAKEN[3]);
    assert GetRooms(s.db, None) == map[1 := Room("standard", true, Clean)];
    FirstArrives();
    var end := Act(Act(Act(Act(s, OVERTAKEN[0]), OVERTAKEN[1]), OVERTAKEN[2]), OVERTAKEN[3]);
    assert GetRooms(end.db, None) == map[1 := Room("standard", false, Clean)];
  }

  /** And so does an invalidation that fails: the list stored before the check-in is left behind. */
  lemma FailedInvalidationServesOldList()
    ensures Reachable(PaidBoth(Confirmed, Confirmed))
    ensures var end := ActAll(Fresh(PaidBoth(Confirmed, Confirmed)),
                              [Fetch(0, RoomList(None)), Fill(0, false), Update(Arrive(1)), Publish({Key(RoomList(None))})]);
            && end.owed == 0 && end.db == Closing(PaidBoth(CheckedIn, Confirmed))
            && Serve(RoomCache.System(end.db, end.store), RoomList(None), Up).page
               == Listing(map[1 := Room("standard", true, Clean)])
  {
    hide Reachable, ActAll, Key;
    PaidBothIsReachable();
    var s := Fresh(PaidBoth(Confirmed, Confirmed));
    FourMoves(s, Fetch(0, RoomList(None)), Fill(0, false), Update(Arrive(1)), Publish({Key(RoomList(None))}));
    assert GetRooms(s.db, None) == map[1 := Room("standard", true, Clean)];
    FirstArrives();
  }
}
