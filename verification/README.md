# NaijaStay reservations, verified

A Dafny model of the reservation engine of NaijaStay, a hotel booking API: holds, bookings,
room nights, payments, provider events, room flags, the two background sweeps, and the Redis
cache in front of the room list and the room search. `dafny verify dfyconfig.toml` checks it.

## How it is built

- **Rows** (`Model.dfy`). All tables form one `State`. Every map key is a key the database
  enforces: one hold per room, one booking per room night, one payment per booking, one row per
  provider event. Dates are day numbers, moments are UTC microseconds, money is `real`.
- **Operations** (`Operations.dfy`, `Hotel.dfy`). `Hotel.Database` is the imperative form: the
  guarded statements and loops of the services over mutable tables. Each method is proved to
  leave exactly the state, and give exactly the answer, that the function of the same name in
  `Operations` gives for the old state; the properties are proved about those functions.
- **Answers** (`BookingAnswers`, `PaymentAnswers`, `StayAnswers`, `ViewAnswers`): for every
  operation and query, each answer and what it writes, told in plain rows, naira, days and
  microseconds rather than through the vocabulary of the operations. They say in whose name and
  under whose hold a booking is made, which money is accepted, who may pay, when the sweep acts.
- **Serial layer**: operations that do not overlap in time. `Invariant.dfy` has the invariant of
  every run; `Sales`, `Search`, `Lifecycle`, `Sweeps`, `Housekeeping` and `Payability` draw the
  consequences. Theorems that ask for `Inv` hold in every reachable state, by
  `ReachableIsConsistent`.
- **Interleaved layer** (`Interleaving.dfy`): a request reads, keeps local copies, and commits
  later, after any number of other commits. A commit is atomic and fails as a whole on a key
  that is already there; the webhook locks its booking's row from its read to its first commit.
  `Concurrency` and `Takings` prove what survives every schedule, `Races`, `Overlap`,
  `SharedHold` and `DirtyRooms` tie the two layers together and say exactly where they differ,
  `RetryStorm` and `LostHold` follow racing deliveries of one event to their end.
- **Cache** (`Cache.dfy`, `RoomCache.dfy`): keys, read-through, the invalidation loop, and the two
  cached views over whole runs with a Redis that may fail at any call; `CacheRaces.dfy` splits reads
  into fetch and fill, and writes into commit and invalidation.

A commit that meets a taken key answers `KeyClash`. It stands for the `IntegrityError` branches;
the offline path and the webhook's handler report it as "room no longer available", the webhook's
`flush` does not handle it. `PaymentNotConfirmed` is the last refusal of `pay_booking`, which the
code raises as `NotProcessing`.

## What the proofs show about the code

Guarantees that hold as promised: no night is sold twice under any interleaving; each payment
has exactly one winner; storms of retries confirm once; serially no key ever clashes, and money,
nights and status agree.

Places where the code does less than it seems to. A property that fails comes with the exact
condition under which it holds and a reachable example in which it does not:

- Uncancelled bookings of a room never overlap serially (`RunKeeps`). Under concurrency two kinds
  of commit bring an overlap about, and nothing else does (`OnlyTheseCommitsOverlap`): a new
  booking whose nights were taken after it looked (`CollisionHasACause`,
  `ConcurrentBookingsMayOverlap`), and a desk
  payment, check-in or check-out that revives a booking cancelled after it was read, whose nights
  have been booked again (`CancelledBookingReturns`). One of two such bookings may be paid, never
  both (`NoDoubleSale`).
- The booking sweep writes from what it read. It cancels a booking that was paid in the
  meantime, and in every schedule that is the only way money and status can come apart
  (`OnlyTheSweepLosesPayments`, `SweepLosesThePayment`).
- The search lists a room whose hold has run out, while the row of that hold still refuses the
  next guest until it is swept (`SearchFindsBookableRooms`, `DeadHoldMisleadsTheSearch`).
- The age rule of the sweep spares a booking while the hold it was made under can be alive
  (`AgeRuleWaitsForTheBooking`). It does not spare the hold: the sweep drops a live hold exactly
  when a waiting booking of the same guest and room is aged or past its arrival day, an aged one
  being another, older booking (`SweepDropsHoldIff`). The right money for the newer booking is
  then refused (`OldBookingDropsNewHold`); shortly after midnight the booking itself goes too
  (`MidnightSweepDropsLiveHold`). The age is grace plus hold time; tests/README.md mentions the
  grace only.
- The repository's README.md (line 236) says a completed booking consumes its hold. The code never sets
  `consumed` (`HoldsAreNeverConsumed`): several bookings can be made under one hold. Serially it
  pays online for one of them (`OneHoldPaysOnce`). Two concurrent webhooks for two of them are
  both paid exactly when the second has read the hold before the first commits, as long as nobody
  else touches the second booking or puts a new hold on the room
  (`SecondIsPaidIffItHasRead`, `OneHoldPaysTwice`).
- When money comes after the hold has gone, the booking is cancelled and the delivery answers that
  the hold is gone, so that somebody can refund it. Of racing deliveries of one event this answer
  goes to the one that cancelled, if it is also the first to record the event, and to nobody
  otherwise (`HoldGoneIsToldIff`, `NobodyIsTold`).
- Marking a room clean opens it even when a guest is in it. A check-in then puts two guests in the
  room exactly when it is for a confirmed booking of that room arriving today
  (`CleaningIsSafeIffEmpty`, `CleaningLetsGuestsShare`, `TwoGuestsInOneRoom`).
- Check-in and check-out are possible on one day only; serially a missed day is final
  (`MissedArrivalIsFinal`, `MissedDepartureIsFinal`). In a schedule such a booking is changed
  exactly by the commit of a sweep, check-in or check-out that read it earlier
  (`MissedDayChangesIff`, `MissedDayIsReadAsFinal`, `MissedArrivalCancelled`).
- Dirty rooms are closed in every serial run (`DirtyRoomIsClosed`, `SoldAgainOnlyAfterCleaning`).
  Under concurrency exactly two kinds of commit open one: a cleaning report that read the room
  clean and closed, for a room that has become dirty since, and a check-out that read it clean and
  closed, of a room that has been opened since (`OnlyTheseCommitsOpenDirtyRooms`). The next guest
  can then be checked into it (`NextGuestEntersDirtyRoom`).
- Online payment charges the rounded total, so a fractional total is payable online exactly when
  it is within 0.01 of a positive whole number (`HoldBookAndPayWorksIffPayable`,
  `HalfNairaGuestCannotPay`).
- The cached room list goes wrong exactly when a reader stores rows it fetched before they
  changed, after the invalidation, or when an invalidation fails and leaves an old list behind
  (`ListsGoWrongIff`, `OvertakenReaderServesOldList`, `FailedInvalidationServesOldList`). It stays
  wrong at most until the next complete invalidation or until it expires (`PublishRepairs`,
  `ServedPagesWereStoredRecently`). Where read-throughs are not
  overtaken and invalidations succeed, the list is never stale (`RoomListIsNeverStale`).

## Model

| member | source | states |
|---|---|---|
| Model.NightKeysAre | app/domains/payments/service.py:93-100 | the nights of a stay are exactly those of its room from arrival up to, not including, departure |
| Model.OverlapIsSharedNight | app/domains/bookings/service.py:108-115 | for non-empty stays the SQL overlap test is the existence of a common night |
| Model.RefInjective | app/domains/bookings/models.py:63 | the generated reference identifies the booking: two ids never share one |
| Model.FindByRef | app/domains/payments/service.py:179-187 | the lookup by reference returns a booking with that reference, and nothing only if there is none |
| Model.FindsItsBooking | app/domains/payments/service.py:179-181 | looking up a booking's own reference returns that booking |
| Model.RoundHalfEven | app/domains/payments/service.py:70 | the amount sent to the provider is a whole number within one half of the total, the even one of two |
| Hotel.Database.HoldRoom | app/domains/bookings/router.py:71-99 | state and answer of placing a hold: missing, unavailable and already held rooms refuse without a change, otherwise one new hold row |
| Hotel.Database.CreateBooking | app/domains/bookings/service.py:55-153 | state and answer of booking on every branch, the committed removal of an expired hold included |
| Hotel.Database.AddRoomNights | app/domains/payments/service.py:93-100 | the loop stages one row for each night of the stay and no other |
| Hotel.Database.RecordOfflinePayment | app/domains/payments/service.py:103-147 | state and answer of the desk payment: all of status, nights and payment, or none of them on a key clash |
| Hotel.Database.RecordEvent | app/domains/payments/service.py:151-165 | the event row is inserted once; a second delivery loses and changes nothing |
| Hotel.Database.ProcessPaymentEvent | app/domains/payments/service.py:168-241 | state and answer of a delivery on every branch: duplicate, ignored, orphan, mismatch, hold gone, clash, confirmed |
| Hotel.Database.PayBooking | app/domains/payments/service.py:41-84 | state and answer of paying online, the provider's delivery being served in between |
| Hotel.Database.CheckInGuest | app/domains/bookings/service.py:156-199 | state and answer of check-in, refusals in the order of the code |
| Hotel.Database.CheckOutGuest | app/domains/bookings/service.py:201-257 | state and answer of check-out; a completed booking answers again without a change |
| Hotel.Database.MarkRoomClean | app/domains/rooms/service.py:25-47 | state and answer of marking clean, which opens the room whatever its state was |
| Hotel.Database.UpdateRoomType | app/domains/rooms/service.py:179-199 | only the given columns of the rate row change; bookings keep the total they were made with |
| Hotel.Database.DeleteExpiredHolds | app/domains/bookings/sweeps.py:12-27 | the loop removes exactly the expired or consumed holds and returns how many |
| Hotel.Database.CancelStaleProcessing | app/domains/bookings/sweeps.py:30-51 | the loop cancels exactly the stale bookings, drops exactly their guests' holds on their rooms, and returns how many |
| Hotel.CancelOneMore | app/domains/bookings/sweeps.py:43-47 | one round of the loop extends the sweep of a set of bookings by one booking |
| BookingAnswers.HoldAnswers | app/domains/bookings/router.py:76-97 | who is refused a hold and why; otherwise one hold for 600 s, nothing else |
| BookingAnswers.NobodyToBookFor | app/domains/bookings/service.py:64-76 | staff without an address, with an unknown one, or with that of staff are refused without a trace |
| BookingAnswers.BookingNeedsDates | app/domains/bookings/service.py:78-79 | empty, reversed and past stays are refused, and first of all |
| BookingAnswers.BookingNeedsRoom | app/domains/bookings/service.py:81-87 | a missing and a closed room are refused |
| BookingAnswers.BookingNeedsOwnHold | app/domains/bookings/service.py:89-106 | no hold, another guest's hold and an own hold that is over are refused, only the last leaving a trace |
| BookingAnswers.NightsGoneIs | app/domains/bookings/service.py:108-129 | the two overlap queries, row by row: an expected or present guest on one of the nights, or a sold night |
| BookingAnswers.BookingNeedsFreeNights | app/domains/bookings/service.py:108-129 | such nights are refused without a trace |
| BookingAnswers.BookingIsMade | app/domains/bookings/service.py:131-153 | with everything in order exactly one row is added, at the rate of the room's type times the nights |
| BookingAnswers.BookedByTheHolder | app/domains/bookings/service.py:97-102 | every new booking, also one made by staff, is in the name on the live hold of the room |
| PaymentAnswers.DigitsAreDecimal | app/domains/bookings/models.py:63 | references carry the booking's number in decimal, without leading zeros |
| PaymentAnswers.IdleDeliveries | app/domains/payments/service.py:170-186 | repeated, other and orphan events: the answer and whether the event is recorded |
| PaymentAnswers.SettledBookingsStay | app/domains/payments/service.py:188-193 | money for a booking that does not wait is a recorded duplicate and changes nothing else |
| PaymentAnswers.WrongMoneyIsRefused | app/domains/payments/service.py:195-198 | any currency but NGN and any amount more than 0.01 off is refused without a trace |
| PaymentAnswers.MoneyWithoutHoldCancels | app/domains/payments/service.py:200-211 | the right money without the guest's own live hold cancels the booking and records the event |
| PaymentAnswers.MoneyUnderHold | app/domains/payments/service.py:213-241 | the right money under it writes status, event, payment and exactly the nights of the stay and drops the hold, or on a taken key writes nothing |
| PaymentAnswers.DeskRefuses | app/domains/payments/service.py:116-122 | the desk refuses unknown and settled bookings and wrong money without a trace |
| PaymentAnswers.DeskConfirms | app/domains/payments/service.py:124-145 | otherwise it writes status, payment and exactly the nights of the stay, without needing or touching a hold, or on a taken key nothing |
| PaymentAnswers.PayingIsRefused | app/domains/payments/service.py:51-62 | nobody pays online for an unknown, another guest's or a settled booking |
| PaymentAnswers.PayingIsRefusedAtTheRead | app/domains/payments/service.py:51-62 | the same for the concurrent request, which waits for the provider only for its own waiting booking |
| PaymentAnswers.PayingIsOneDelivery | app/domains/payments/service.py:65-84 | paying is one delivery of the rounded total in NGN under the booking's reference, answered by the status it leaves |
| PaymentAnswers.PayableMeansNearlyWhole | app/domains/payments/service.py:70 | payable online are exactly the totals within 0.01 of a positive whole number |
| StayAnswers.CheckInAnswers | app/domains/bookings/service.py:165-199 | check-in case by case: only confirmed, only on the day of arrival, only into an open room, which is then closed |
| StayAnswers.CheckOutAnswers | app/domains/bookings/service.py:215-257 | check-out case by case: only in house, only on the day of departure; the room is left dirty and closed |
| StayAnswers.CheckOutAgain | app/domains/bookings/service.py:220-221 | a second check-out says so and changes nothing |
| StayAnswers.CleanAnswers | app/domains/rooms/service.py:34-47 | cleaning opens the room, tells whether it was dirty, and done again changes nothing |
| StayAnswers.RepriceAnswers | app/domains/rooms/service.py:184-199 | the positive values given are written, the others kept, other types and all bookings untouched |
| StayAnswers.HoldSweepAnswers | app/domains/bookings/sweeps.py:14-27 | the hold sweep removes exactly the holds that are over or consumed and counts them |
| StayAnswers.BookingSweepAnswers | app/domains/bookings/sweeps.py:32-51 | for every grace a waiting booking is cancelled iff it is grace plus ten minutes old or past its arrival day; holds and count accordingly |
| StayAnswers.DefaultGrace | app/domains/bookings/sweeps.py:30-40 | by default a booking is left alone at ten minutes and cancelled from thirteen on |
| ViewAnswers.SearchShows | app/domains/rooms/service.py:55-75 | the search, room by room: type, open, no live hold, and every uncancelled stay is over before or begins after |
| ViewAnswers.DayShows | app/domains/rooms/service.py:113-138 | the same for the view of a day |
| ViewAnswers.DayDefaults | app/domains/rooms/service.py:110-134 | no day means today, no type and the empty type mean all, a type filters |
| ViewAnswers.NightsTakenAre | app/domains/rooms/service.py:149-157 | the night query returns the sold days of the range |
| ViewAnswers.ListShows | app/domains/rooms/service.py:96-101 | the list has every room as it is, or those in the state asked for, and the two states make up the list |
| ViewAnswers.DaysAreCounted | app/domains/rooms/router.py:137-138 | day numbers start with 1 January 1970 and go up by one with each date of the calendar |
| ViewAnswers.KeysAre | app/integrations/cache.py:31-34 | the cache keys of both views, letter by letter |
| ViewAnswers.DatesAreWritten | app/domains/rooms/router.py:160 | dates in keys are written as four, two and two digits |
| ViewAnswers.ReadThroughAnswers | app/integrations/cache.py:50-64 | a miss stores what it serves for its time, a hit serves what is stored, a failing Redis serves the database |
| ViewAnswers.TimesToLive | app/integrations/cache.py:27-28 | lists live 30 s, searches 60 s |
| ViewAnswers.EntriesLast | app/integrations/cache.py:53-58 | an entry is served until exactly its time has come, as long as nothing is published |
| ViewAnswers.InvalidationTakes | app/domains/rooms/streaming.py:62 | an invalidation takes the lists and no search entry |
| ViewAnswers.PublishedAnswers | app/domains/rooms/router.py:207 | which successes are published: confirming payments, check-ins, check-outs and cleanings |
| Invariant.NewStayIsApart | app/domains/bookings/service.py:108-129 | the two overlap checks together keep a new stay apart from every stay that is not cancelled, completed ones included |
| Invariant.CreateBookingKeeps | app/domains/bookings/service.py:55-153 | booking keeps the whole invariant, disjoint stays included, whatever it answers |
| Invariant.NoClash | app/domains/payments/service.py:128-145 | a booking waiting for money has no payment, and none of its nights is sold |
| Invariant.ConfirmKeeps | app/domains/payments/service.py:128-133 | inserting status, all nights and the payment together keeps the invariant |
| Invariant.RecordOfflinePaymentKeeps | app/domains/payments/service.py:103-147 | the desk payment keeps the invariant |
| Invariant.ProcessPaymentEventKeeps | app/domains/payments/service.py:168-241 | every delivery keeps the invariant |
| Invariant.PayBookingKeeps | app/domains/payments/service.py:41-84 | paying online keeps the invariant |
| Invariant.CheckInGuestKeeps | app/domains/bookings/service.py:156-199 | check-in keeps the invariant |
| Invariant.CheckOutGuestKeeps | app/domains/bookings/service.py:201-257 | check-out keeps the invariant, a dirty room being closed |
| Invariant.CancelStaleProcessingKeeps | app/domains/bookings/sweeps.py:30-51 | the booking sweep keeps the invariant |
| Invariant.ExecKeeps | app/domains/bookings/service.py:55-257 | every operation, in every consistent state and with every answer, leaves a consistent state |
| Invariant.RunKeeps | app/domains/bookings/service.py:108-129 | after any run of operations and clock ticks: uncancelled stays of a room are disjoint, and status, money and nights agree |
| Invariant.ReachableIsConsistent | app/domains/payments/service.py:93-145 | every state reachable from a freshly migrated database satisfies the invariant |
| Sales.NoSerialKeyClash | app/domains/payments/service.py:134-145 | serially no operation ever meets a key clash |
| Sales.RightMoneyConfirmsOffline | app/domains/payments/service.py:116-133 | the right money for a booking that waits for it is always accepted at the desk |
| Sales.RightMoneyConfirmsOnline | app/domains/payments/service.py:195-241 | a fresh event with the right money confirms if the guest's live hold is there and otherwise reports it gone; no third answer |
| Sales.StatusMoneyAndNightsAgree | app/domains/payments/service.py:195-241 | confirmed, in house or completed iff there is a payment iff the booking owns exactly the nights of its stay; the payment is in NGN and within 0.01 of the total, and the event of an online payment is recorded and backs no other payment |
| Sales.StayLength | app/domains/payments/service.py:96-100 | a stay has as many night rows as days between arrival and departure |
| Sales.Conservation | app/domains/payments/service.py:93-133 | night rows equal the nights of paid stays, payments equal paid stays, and money received is within 0.01 per payment of what was billed |
| Sales.OccupancyIsExact | app/domains/rooms/service.py:202-237 | distinct rooms, guests in house and their night rows give one number, at most the number of rooms; that number is reported as occupied, the rest as available, and the percentage is its share to two decimals |
| Sales.OccupancyToday | app/domains/rooms/service.py:206-207 | without a date the report is about today |
| Search.NightIndexIsPaidOverlap | app/domains/rooms/service.py:141-157 | the night query is non-empty exactly when a paid stay overlaps |
| Search.SecondOverlapCheckIsRedundant | app/domains/bookings/service.py:108-129 | once the overlap query passes, the night query is empty |
| Search.RulesAgree | app/domains/rooms/service.py:55-59 | the search's rule for conflicts and the two checks of booking mean the same for stays that do not begin in the past |
| Search.BookableWhen | app/domains/bookings/service.py:61-153 | holding and then booking succeeds exactly on an open room without a hold row and without a conflicting stay |
| Search.SearchFindsBookableRooms | app/domains/rooms/service.py:49-75 | a room of the type can be held and booked iff the search lists it and no hold row is left on it |
| Search.SearchIsExactAfterSweep | app/domains/rooms/service.py:49-75 | right after the hold sweep the search is exactly the set of rooms a guest can hold and book |
| Search.DeadHoldMisleadsTheSearch | app/domains/bookings/router.py:84-86 | before the sweep it can list a room that refuses the next guest: a reachable example |
| Search.ConflictIsOccupiedDay | app/domains/rooms/service.py:113-117 | a stay conflicts with a range iff the room is occupied on one of its days |
| Search.RangeSearchIsIntersectionOfDays | app/domains/rooms/service.py:105-138 | the range search is the intersection of the single-day searches of its days, for every type; for the empty type, which a day search takes for any, the room must be of that type |
| Lifecycle.StepEvolves | app/domains/bookings/service.py:156-257 | no operation turns back the clock, loses an event, payment, night or booking, edits a stay or a total, or moves a status other than onward and on its day |
| Lifecycle.RunEvolves | app/domains/bookings/service.py:156-257 | the same over whole runs: events, payments and nights are permanent, stays and totals constant, and nothing returns to PROCESSING |
| Lifecycle.AtMostThreeChanges | app/domains/bookings/models.py:43-49 | in any run a booking changes status at most three times |
| Lifecycle.StepOnlyPlacesHolds | app/domains/bookings/router.py:88-93 | hold rows only appear by placing a hold for ten minutes; every other operation only drops them |
| Lifecycle.HoldsAreNeverConsumed | app/domains/bookings/models.py:41 | no run from a fresh database ever contains a consumed hold |
| Lifecycle.MissedArrivalIsFinal | app/domains/bookings/service.py:174-177 | a confirmed booking whose arrival day has passed never changes again |
| Lifecycle.MissedDepartureIsFinal | app/domains/bookings/service.py:228-233 | a checked in booking whose departure day has passed never changes again |
| Lifecycle.RefusalsLeaveNoTrace | app/domains/payments/service.py:204-211 | a failing operation leaves the state as it was, except that an expired hold is dropped, and that money without its hold cancels the booking and records the very event delivered |
| Lifecycle.UnrecordedIsMismatch | app/domains/payments/service.py:195-198 | the only delivery that is not recorded is one with the wrong money for a booking that waits, and it changes nothing |
| Lifecycle.SecondDeliveryChangesNothing | app/domains/payments/service.py:168-193 | delivering an event a second time, at any later moment, changes nothing, whatever the first delivery led to |
| Lifecycle.RetriesChangeNothing | app/domains/payments/service.py:168-193 | any number of retries at any times does no more than the first delivery |
| Lifecycle.EventIdWorksOnce | app/domains/payments/service.py:170-171 | after a recorded delivery and any run, every delivery under that id is a duplicate without effect |
| Lifecycle.BookingIsPaidOnce | app/domains/payments/models.py:16 | in any run a booking is paid at most once, online or offline, by whichever event |
| Lifecycle.OneHoldPaysOnce | app/domains/payments/service.py:200-219 | after one online payment under a hold and any run without a new hold of the guest on the room, money for another waiting booking of the guest and room cancels that booking |
| Sweeps.SweepIsExact | app/domains/bookings/sweeps.py:30-51 | row by row: stale bookings cancelled, all others untouched; a hold goes iff a stale booking of its guest and room exists; the count is the number of bookings changed |
| Sweeps.AgeRuleWaitsForTheBooking | app/domains/bookings/sweeps.py:33-40 | for any grace and any run since the booking, while the hold it was made under could be live the sweep cancels the booking only for a past arrival day |
| Sweeps.SweepDropsHoldIff | app/domains/bookings/sweeps.py:33-47 | while the hold a booking was made under is there and live, in any run, the sweep drops it iff a waiting booking of its guest and room is aged or past its arrival day; an aged one is another, older booking |
| Sweeps.OldBookingDropsNewHold | app/domains/bookings/sweeps.py:43-47 | a reachable state in which the age of one booking drops the live hold of another, whose right money is then answered with hold gone |
| Sweeps.MidnightSweepDropsLiveHold | app/domains/bookings/sweeps.py:39-47 | the past-arrival rule does cancel a booking with a live hold: a reachable example |
| Sweeps.AbandonedBookingsDoNotLast | app/core/utils.py:24-32 | while the last sweep is at most 300 s ago no booking has been PROCESSING for 18 minutes, in any timed run |
| Housekeeping.DirtyRoomIsClosed | app/domains/bookings/service.py:86-87 | a dirty room cannot be held, booked or entered |
| Housekeeping.CleaningIsSafeIffEmpty | app/domains/rooms/service.py:39-44 | marking a room clean keeps single occupancy exactly when nobody is checked in there |
| Housekeeping.CleaningTooEarlyDoublesOccupancy | app/domains/rooms/service.py:40-41 | otherwise the next arrival is checked in on top of the guest in house |
| Housekeeping.CheckInSharesIff | app/domains/bookings/service.py:186-190 | a check-in makes two guests share a room iff it is for a confirmed booking arriving today of an open room with somebody in it |
| Housekeeping.CleaningLetsGuestsShare | app/domains/rooms/service.py:39-44 | while rooms are private no check-in makes guests share; after a cleaning it does iff it is for a confirmed booking of that room arriving today and a guest is still in it |
| Housekeeping.TwoGuestsInOneRoom | app/domains/rooms/service.py:40-41 | a run from a fresh database that ends with two guests checked into one room; without the cleaning the second is refused |
| Housekeeping.CarefulRunsKeepRoomsPrivate | app/domains/bookings/service.py:186-190 | in runs that only mark empty rooms clean, each guest in house has a closed room to himself |
| Housekeeping.SoldAgainOnlyAfterCleaning | app/domains/bookings/service.py:246-254 | a departure leaves the room dirty and closed, and after any serial run without a cleaning of it nobody can hold it or be checked into it |
| DirtyRooms.OnlyTheseCommitsOpenDirtyRooms | app/domains/rooms/service.py:39-44 | in every schedule an action ends that dirty rooms are closed iff it commits a cleaning, or a check-out, that read the room clean and closed, of a room dirtied, or opened, since |
| DirtyRooms.FreshReadsAreHarmless | app/domains/rooms/service.py:34-44 | a request that reads and commits at once never opens a dirty room |
| DirtyRooms.NextGuestEntersDirtyRoom | app/domains/bookings/service.py:246-254 | a schedule from a reachable state, in either order of the commits, after which the next guest is checked into a dirty room |
| Payability.OnlinePaymentOutcome | app/domains/payments/service.py:65-84 | state and answer of online payment for a waiting booking: confirmed, cancelled for want of its hold, or unchanged because the total cannot be charged |
| Payability.HoldBookAndPayWorksIffPayable | app/domains/payments/service.py:65-84 | from any consistent state, hold, book and pay in time ends confirmed with payment, nights and no hold iff the total is payable, and otherwise leaves the booking waiting under its hold |
| Payability.WholeRatesArePayable | app/domains/bookings/service.py:136 | whole rates always give payable totals |
| Payability.FractionalRateIsUnpayable | app/domains/payments/service.py:70 | a rate with half a naira makes one night unpayable online and two nights payable |
| Payability.HalfNairaGuestCannotPay | app/domains/payments/service.py:65-81 | at such a rate a guest who holds and books one night and pays in time is refused, from a fresh database |
| Concurrency.ConsistentIsSafe | app/domains/payments/service.py:93-145 | every serially reachable database is a safe start for concurrent requests |
| Concurrency.CommitIsGood | app/domains/payments/service.py:128-145 | every commit of every request keeps the database safe, its own phase grounded, and rows locked by others untouched |
| Concurrency.CommitTakesMoneyOnce | app/domains/payments/service.py:130-145 | a commit adds one payment exactly when it answers that it took the money, for a booking that had none |
| Concurrency.PhasesAreStable | app/domains/payments/service.py:179-181 | what a waiting request has read stays true enough for its commit, whatever others commit, and exactly true under the row lock |
| Concurrency.EveryScheduleIsSafe | app/domains/payments/service.py:128-145 | after any interleaving of reads, commits and ticks the database is safe and the ledger of winners is exact |
| Concurrency.NoDoubleSale | app/domains/rooms/models.py:20-21 | in every interleaving two paid bookings of a room never share a night |
| Concurrency.OnePaymentSucceeds | app/domains/payments/models.py:16 | in every interleaving a booking has a payment iff exactly one request was told that it paid |
| Concurrency.LockProtectsThePayment | app/domains/payments/service.py:179-181 | a webhook that holds the lock still finds the booking unpaid and as it read it when it commits |
| Races.AloneIsSerial | app/domains/payments/service.py:151-241 | refinement: a request alone in the interleaved system ends in the state and answer of the serial operation, with no lock left |
| Races.PayingIsWaitingForTheWebhook | app/domains/payments/service.py:65-84 | the paying request, with the provider's delivery served while it waits, ends as the serial operation does |
| Races.OnlyTheSweepLosesPayments | app/domains/bookings/sweeps.py:42-49 | in every schedule, an action breaks the agreement of payment and status iff it is the commit of a booking sweep that read a booking paid since |
| Races.WithoutTheSweepPaidStaysPaid | app/domains/payments/service.py:188-193 | in every schedule without the booking sweep every booking with a payment is confirmed, in house or completed |
| Races.SweepLosesThePayment | app/domains/bookings/sweeps.py:42-49 | a schedule from a reachable state that ends with a payment, sold nights and a cancelled booking |
| Races.MissedDayChangesIff | app/domains/bookings/service.py:174-177 | in every schedule an action changes a booking whose arrival or departure day was missed iff it commits a sweep of it, or a check-in or check-out to another status |
| Races.HoldsAreNeverOverwritten | app/domains/bookings/models.py:27 | in no interleaving is a hold replaced by another one |
| Races.OneHoldWins | app/domains/bookings/router.py:90-96 | of requests that read a free room the one that commits first holds it, and the others are refused without a trace |
| Races.MissedDayIsReadAsFinal | app/domains/bookings/service.py:174-177 | no request that reads such a booking now will change it |
| Races.MissedArrivalCancelled | app/domains/bookings/sweeps.py:42-49 | the booking of that schedule is a missed arrival when the sweep cancels it |
| Overlap.OnlyTheseCommitsOverlap | app/domains/bookings/service.py:108-149 | in every schedule, an action ends the disjointness of uncancelled bookings iff it inserts a booking over an uncancelled stay, or is a desk payment or a move of a guest that revives a cancelled booking while another stay is on its nights |
| Overlap.DisjointUnlessCollision | app/domains/bookings/service.py:108-149 | every schedule without such a commit keeps the bookings of a room disjoint |
| Overlap.ReadRowIsFree | app/domains/bookings/service.py:108-129 | a request that passes both checks has found no uncancelled stay on its nights, completed ones included, in the interleaved layer too |
| Overlap.CollisionHasACause | app/domains/bookings/service.py:108-149 | between the read of a request and an insert that collides lies a commit that took some of its nights, by booking them or by reviving a cancelled booking |
| Overlap.ConcurrentBookingsMayOverlap | app/domains/bookings/service.py:108-149 | the first kind happens: two concurrent bookings under one hold |
| Overlap.CancelledBookingReturns | app/domains/payments/service.py:116-135 | the second kind happens: the desk confirms a booking that the sweep has cancelled and whose night has been booked again |
| SharedHold.SecondIsPaidIffItHasRead | app/domains/payments/service.py:200-219 | in every schedule, when a webhook takes the hold of a room, another one for another booking under that hold ends paid iff it has read the hold before, and else refused with its booking cancelled, whatever follows in which the others leave that booking and the room's hold alone |
| SharedHold.OneHoldPaysTwice | app/domains/payments/service.py:179-219 | a schedule from a reachable state in which one hold pays online for two bookings |
| Takings.EveryScheduleConserves | app/domains/payments/service.py:93-145 | in every schedule the night rows are as many as the nights of bookings with a payment, and the money is within 0.01 per payment of their totals |
| RetryStorm.OthersPassBy | app/domains/payments/service.py:218-230 | a commit elsewhere leaves the booking's row, payment and nights, the hold of its room and the event row as they were |
| RetryStorm.OrdinaryBusinessIsAside | app/domains/payments/service.py:151-241 | what other requests may do during a storm: while the hold lives, sweeps of holds, bookings, cleanings, repricings, and business with other rooms, bookings and references all count as elsewhere |
| RetryStorm.BeforeAndAfterOne | app/domains/payments/service.py:168-241 | the rows before a storm are those of its start, the rows after it those that one serial delivery leaves |
| RetryStorm.DeliveriesConfirmOnce | app/domains/payments/service.py:151-241 | deliveries of one event that would confirm, racing each other and any commits elsewhere, for as long as they like, the hold being live at the first read under the lock: their rows are untouched until one finishes; then one confirmed, every other finished one duplicate, and the rows as one delivery leaves them (serially, Sales.RightMoneyConfirmsOnline says when one would) |
| RetryStorm.FirstReadDecides | app/domains/payments/service.py:200-211 | that condition is exact: the first read under the lock leads to the confirmation iff the hold is live at that moment, and else to the cancellation |
| RetryStorm.DeliveriesAllFinish | app/domains/payments/service.py:179-241 | none is stuck: at any point of such a storm all that have arrived can finish within two commits each, with exactly one winner; the hold must be live then only if nobody has read under the lock yet |
| LostHold.HoldGoneIsToldIff | app/domains/payments/service.py:200-211 | deliveries of one event with the right money but no hold, racing each other and any commits elsewhere: one is told that the hold is gone iff its commit cancelled the booking and its commit recorded the event; every other finished one is told duplicate |
| LostHold.NobodyIsTold | app/domains/payments/service.py:204-211 | a schedule from a reachable state in which the booking is cancelled and both deliveries are told duplicate |
| Cache.JoinInjective | app/integrations/cache.py:31-34 | keys of equally many segments without ':' but in the last determine their segments |
| Cache.GetOrSetJson | app/integrations/cache.py:37-64 | hit, miss, missing client and failing GET or SETEX: the page served and the store left |
| Cache.InvalidatePrefix | app/integrations/cache.py:67-82 | the loop deletes keys of the prefix only, counts exactly the deleted ones, and leaves none of them unless Redis fails |
| RoomCache.IsoFormatInjective | app/domains/rooms/router.py:160 | two dates never have the same ISO form |
| RoomCache.KeyInjective | app/domains/rooms/router.py:80-82 | no two list or search views share a cache key, whatever the room type text is |
| RoomCache.PrefixIsTheLists | app/domains/rooms/streaming.py:62 | the invalidated prefix covers every list key and no search key |
| RoomCache.RoomWritersPublish | app/domains/bookings/router.py:158-202 | every operation that changes a room row answers so that its router publishes and invalidates |
| RoomCache.AlwaysCoherent | app/domains/rooms/streaming.py:48-62 | after any run with working invalidation every stored list is what the database holds now |
| RoomCache.RoomListIsNeverStale | app/domains/rooms/router.py:62-86 | so the room list served, cached or not, equals the current rows |
| RoomCache.ServedPagesAreRecent | app/integrations/cache.py:37-64 | whatever fails, a served page of either view is the database's answer at a moment of the run less than its TTL (30 s, 60 s) ago |
| RoomCache.CheckInChangesTheList | app/domains/bookings/service.py:189-196 | every check-in changes the full list |
| CacheRaces.AtOnceIsAtomic | app/domains/rooms/router.py:80-86 | a write with its invalidation at once, and a fetch with its fill at once, are the steps of the atomic runs |
| CacheRaces.FillKeepsCurrentIff | app/integrations/cache.py:53-61 | a fill leaves a coherent store coherent iff the list it stores is still what the database holds |
| CacheRaces.ListsGoWrongIff | app/integrations/cache.py:53-82 | with commits and invalidations apart and failing too, the lists go wrong iff an old list is stored while no invalidation is to come, or the last one to come fails and leaves an old list |
| CacheRaces.InOrderUnlessSpoilt | app/integrations/cache.py:53-82 | every interleaving without either keeps every stored list current, or an invalidation is to come |
| CacheRaces.ServedListIsCurrent | app/domains/rooms/router.py:62-86 | so with no invalidation to come the list served is the list in the database |
| CacheRaces.PublishRepairs | app/domains/rooms/streaming.py:62 | any complete invalidation leaves no wrong list behind |
| CacheRaces.CheckInOvertakes | app/domains/bookings/router.py:146-158 | any check-in between fetch and fill makes the full list an old one |
| CacheRaces.OvertakenReaderServesOldList | app/integrations/cache.py:53-61 | a run from a reachable state that ends with a stored list in which an occupied room is free, and serves it |
| CacheRaces.FailedInvalidationServesOldList | app/integrations/cache.py:67-82 | so does a run in which the invalidation after the check-in fails |
| CacheRaces.ServedPagesWereStoredRecently | app/integrations/cache.py:37-64 | in every interleaving, whatever fails, a served page was the database's answer at some moment and is fresh or was stored less than its TTL ago |

## Left out

- HMAC verification, JWT, password hashing, role checks and rate limiting: callers are taken to have the role and a valid signature.
- User and staff accounts: registered users are a fixed map; emails are already normalised.
- The subprocess and HTTP round trip of `pay_booking`: the provider's delivery is one call, always served; an unreachable provider is not modelled.
- SSE, pub/sub, response envelopes, schemas, migrations, seed data, Docker.
- The scheduler: sweeps may happen at any time in a run; that one came within the last 300 s is a hypothesis of Sweeps.AbandonedBookingsDoNotLast.
- Floating point: money and percentages are `real`; the tolerance of 0.01 and the rounding are exact.
- Time zones: one UTC clock; the date of a moment is its day number.
- Timestamps `recorded_at`, `processed_at` and `paid_at`, which no operation reads.
- The order of query results; search results are sets, the room list is its rows by id.
- Hotel.Database.PayBooking: does not model the branch for an unreachable provider, in which the delivery may or may not have been served.
- Hotel.Database.UpdateRoomType: does not model a patch that sets a column to null, which the database refuses; an absent and a null column are the same here.
- Cache.InvalidatePrefix: does not model glob characters in the prefix (the one prefix in use has none), duplicate keys reported by SCAN, or keys added during the scan.
- The interleaved layer merges all reads of a request into one, after the lock for the webhook; reads of one request spread over several commits of others are not modelled.
- Row locks other than the webhook's are not held across commits; writers of a row that the webhook has locked wait for it.
- Races.AloneIsSerial: does not cover paying online, which is never alone (see Races.PayingIsWaitingForTheWebhook), nor clock ticks, which are no requests.
- RetryStorm.DeliveriesConfirmOnce: commits of others that write the storm's own rows are excluded; with those, Concurrency.OnePaymentSucceeds bounds the winners. A hold that has run out before the first read is the case of LostHold.HoldGoneIsToldIff.
- The string a caller sees when a commit clashes in the interleaved layer; only that the state is unchanged.
- The failure of the producer inside the read-through.
- RoomCache.RoomListIsNeverStale: a read-through is one step; CacheRaces covers those that are overtaken.
- The GET of a read-through and the query that follows a miss are one step, as are the keys of one invalidation.
- Freshness of search entries beyond their TTL: writers invalidate the list prefix only.
