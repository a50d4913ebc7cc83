# Futsal booking: what the service guarantees

This project models the part of the futsal booking service where money, time and other people's clicks meet, and
proves what it guarantees there.

- **The store** (`Domain`, `Score`, `Transactions`, `Repository`). Bookings, payments and user scores, and every
  transaction that changes them: taking and confirming a hold, cancelling, giving points back, the janitor's sweeps,
  recording and settling an online payment, booking and collecting cash, returning money. `Transactions` says what each
  transaction does as a function of the tables; the methods of `Repository.Tables` do it statement by statement on
  tables they update in place, roll back when they fail, and are proved equal to those functions.
- **The protocol around it** (`Protocol`). A checkout or a gateway callback reads a row, talks to somebody, and writes
  later. Reading, hearing back and writing are separate steps, and every other action of players, venues, gateways,
  the janitor and the clock may come in between. `Invariant` states what ties the tables together, `Preservation` proves
  that every transaction keeps it, and `Guarantees`, `LostMoney`, `Effects`, `Money` and `ScoreRuns` say what follows.
  `Acts` says of every action, column by column and without the transactions' own predicates, when it acts, what it
  writes and what it leaves.
- **Statements that wait** (`ReadCommitted`). At the level the program runs at, a statement tests rows it does not lock
  as they were before it waited. What that does to cancelling, charging, sweeping and signing out everywhere, and exactly when.
- **Holds taken at once** (`Contention`). Transactions that see only committed rows, an advisory lock on one court and
  start instant, row locks, and the exclusion constraint.
- **The two paths that must agree** (`Pricing`, `Grid`, `BookingService`, `Ledger`, `Janitor`). The grid a player is
  shown, the city-wide ledger built from it, the booking made from it, and the sweep that must not change either.
- **Sessions** (`Sessions`, `Client`). The table of refresh tokens, and a browser tab whose calls share one refresh.
- **The login limiter** (`Limiter`, `Bursts`), **slugs** (`Slug`) and **prize splits** (`Prizes`).

Time is an integer number of nanoseconds. An identifier is a natural number the caller supplies, as is everything a
clock, a gateway, the calendar ("one month from now") or a random source decides. A gateway is any answer at all:
verified or not, any amount, any reference, or none.

Where the code and its comments disagree, the model follows the code:

- `internal/postgres/booking.go:145-146` says the exclusion constraint is reached only if the steps before it are wrong.
  Rivals for overlapping hours that start apart hold different advisory locks; both pass the check, and the constraint
  refuses the second (`Contention.ExclusionIsReached`). In one transaction at a time it is indeed unreachable
  (`Preservation.HoldGrantedIff`).
- `internal/service/payment.go:185-193` says a verified payment is written whatever state its booking is in. So it is,
  unless the gateway's reference is already on another payment (`Guarantees.RightAnswerKeptIff`): then the unique index
  aborts the transaction. If that other payment is verified, the transfer is on record once, as it should be. If it is
  not, the transfer is on no verified payment (`Guarantees.TransferOnRecordIff`). It takes no faulty gateway: a Khalti
  callback brings the reference it asks about, so one that names another payment while the transfer is pending leaves
  the reference there (`LostMoney.RightAnswerIsLost`).
- `internal/postgres/booking.go:197-211` refuses to cancel a booking with verified online money, but tests that before
  it waits for the booking. A settlement it waits for confirms the booking and is not seen: the paid booking is
  cancelled, and nothing flags its money (`ReadCommitted.PaidBookingIsCancelledIff`).
- `internal/postgres/booking.go:260-263` says a penalty starts from the score as it stands. It starts from the score as
  read before waiting for the row, so of two at once one can be lost (`ReadCommitted.SecondChargeIsLostIff`).
- `internal/postgres/session.go:59-63` says that presenting a rotated token ends every session of its user. The update
  that would do it is rolled back with the error the same transaction ends in (`Sessions.ReuseBurnsIff`).
- `internal/domain/slot.go:88-108` checks opening hours. It drops seconds, and when a slot ends at midnight it does not
  look at the start (`BookingService.HoursAcceptIff`, `BookingService.EarlyStartSlipsThrough`).
- `internal/domain/booking.go:64-88` has a rule about who may cancel when; the transaction does not ask it. They differ
  exactly on a player's own pending or confirmed booking that has begun and has no online money on it, or has such
  money and has not begun (`Effects.CancelFollowsTheRuleIff`, `Effects.StartedBookingIsCancelled`).

## Model

| member | source | states |
|---|---|---|
| Guarantees.NoDoubleBooking | internal/postgres/migrations/0004_bookings.sql:48-55 | In every state any run reaches, two bookings that are neither cancelled nor a no-show never overlap on a court |
| Preservation.HoldGrantedIff | internal/postgres/booking.go:81-166 | One transaction at a time, a hold is granted exactly when nothing blocks the slot and the row itself is sound; a conflict is always the friendly check's, never the constraint's |
| Preservation.PreCheckSuffices | internal/postgres/booking.go:94-127 | After lapsed holds are released, no blocking booking means no row the exclusion constraint would count |
| Preservation.ReleaseKeepsTaken | internal/postgres/booking.go:94-127 | Releasing lapsed holds changes nobody's view of what is taken, on any court and slot |
| Protocol.RunKeeps | internal/postgres/payment.go:136-248 | Every run keeps the coupled invariant: pending iff a hold is set, nothing verified on a pending booking, open cash and kept online money only on confirmed or completed bookings, one claim per booking, flags explained, scores sound; and every row only evolves as it may |
| Protocol.StepKeeps | internal/service/payment.go:139-198 | Each kind of step keeps that invariant, the copies held by callbacks and checkouts in flight included |
| Protocol.InFlightSurvives | internal/service/payment.go:139-198 | Whatever the store does between a read and its write, the copy a callback holds still names its payment, and a checkout's intent still carries its booking's price |
| Invariant.MovesKeep | internal/postgres/migrations/0004_bookings.sql:23-60 | Any bookings moving on in their lives as the lifecycle allows keep the whole invariant |
| Invariant.PutKeeps | internal/postgres/migrations/0015_payment_refunds.sql:16-30 | Writing a payment row that competes for nothing keeps the invariant and aborts only on a reference or transaction already used |
| Preservation.CreateHoldKeeps | internal/postgres/booking.go:81-166 | Taking a hold keeps the invariant |
| Preservation.CancelKeeps | internal/postgres/booking.go:191-286 | Cancelling keeps the invariant, the score charged included |
| Preservation.RestorePenaltyKeeps | internal/postgres/booking.go:389-431 | Giving points back keeps the invariant |
| Preservation.SettleKeeps | internal/postgres/payment.go:136-205 | Settling keeps the invariant for any copy of the payment a callback may hold |
| Preservation.SettleVerified | internal/postgres/payment.go:136-248 | A right answer is committed whatever became of the booking, exactly unless its reference is on another payment |
| Preservation.BookCashKeeps | internal/postgres/payment.go:293-353 | Booking against cash keeps the invariant |
| Preservation.ApproveDeclineIdle | internal/postgres/payment.go:429-508 | From an empty store on, approving and declining cash never change anything |
| Preservation.MarkCashReceivedKeeps | internal/postgres/payment.go:515-545 | Collecting cash keeps the invariant and is never refused to the venue that owns the payment |
| Preservation.MarkRefundedKeeps | internal/postgres/payment.go:261-286 | Recording a refund keeps the invariant |
| Guarantees.VerifiedIffRecorded | internal/service/payment.go:139-198 | However callbacks, sweeps, cancellations and cash interleave, an online payment ends verified exactly when some committed callback carried a right answer |
| Acts.RightAnswerIsRecorded | internal/service/payment.go:139-198 | At any point of any run a right answer for an eSewa or Khalti payment that is begun or failed is taken up and recorded, unless its reference is on another payment: verified, with reference and evidence, the pending booking confirmed, the money kept unless the booking is cancelled or paid for |
| Acts.OtherCallbacksAreIgnored | internal/service/payment.go:144-163 | A callback for an unknown transaction, another provider, cash or a final payment changes no table |
| Acts.WrongAnswerFails | internal/postgres/payment.go:166-184 | An answer that is not right fails a payment just begun, with its reference and evidence; about one that failed, or for another transaction, it changes nothing |
| Guarantees.OnlineMoneySinceIff | internal/service/payment.go:139-198 | From any sound state on, a booking has verified online money if it had, or exactly when a right answer for a payment on it was committed |
| Guarantees.AnswersComeFromGateways | internal/service/payment.go:168-176 | Every answer a callback commits was given by the gateway at an earlier step |
| Guarantees.StepVerifies | internal/domain/paymentar.go:63-101 | One step verifies a payment exactly when it commits a right answer for it |
| Guarantees.RightAnswerKeptIff | internal/postgres/migrations/0004_bookings.sql:115-117 | In any run a right answer verifies its payment if and only if its reference is not on another payment of the provider, which is what keeps one transfer from paying twice |
| Guarantees.TransferOnRecordIff | internal/postgres/migrations/0004_bookings.sql:87-92 | In any run, committing a right answer leaves its transfer on a verified payment if and only if its reference does not sit on another payment that is not verified |
| LostMoney.RightAnswerIsLost | internal/platform/payment/khalti.go:120-153 | A run from empty tables, all gateway answers true, after which no verified payment carries the reference of a completed transfer: a callback put that reference on another payment while the transfer was pending |
| Guarantees.RowsEvolve | internal/postgres/payment.go:136-205 | Between any two points of a run every row survives, payment status only climbs and a verified row is frozen but for the note of its refund |
| Guarantees.PaidOnlineStays | internal/postgres/booking.go:191-219 | With transactions one after another, a booking with kept online money is confirmed or completed from then on, and its payment row never changes |
| Guarantees.LateMoneyIsSafe | internal/postgres/booking.go:512-539 | Money for a hold that ran out but was not released is committed exactly unless its reference is taken; it confirms the hold, overlaps nothing and leaves every other booking alone |
| Guarantees.RivalThenMoney | internal/postgres/booking.go:94-127 | If a rival took the hour first, the hold is already cancelled and its money is recorded and flagged, with the bookings untouched |
| Guarantees.RivalReleases | internal/postgres/booking.go:94-113 | A granted rival has cancelled the lapsed hold under it in the same transaction |
| Guarantees.MoneyForAGoneBooking | internal/postgres/payment.go:186-248 | Money for a cancelled booking is recorded with its evidence, flagged with the reason, and nothing else changes |
| Guarantees.BookCashTwice | internal/postgres/payment.go:293-353 | Asking to pay cash twice records one debt |
| Guarantees.VerifiedForGood | internal/domain/paymentar.go:63-70 | Once verified, a payment is the same through every later step of a run, but for the note that flagged money was sent back |
| Effects.HoldTouchesOnlyLapsed | internal/postgres/booking.go:94-113 | A granted hold cancels exactly the lapsed holds under its slot; the "unpaid" test never spares one |
| Effects.SweepReleasesTheLapsed | internal/postgres/booking.go:646-705 | The sweep cancels exactly the lapsed holds |
| Effects.SweepFailsTheirPayments | internal/postgres/booking.go:646-705 | The sweep fails exactly the payments begun on them |
| Effects.PassLeavesNothingOver | internal/service/janitor.go:80-95 | After a pass no lapsed hold, no finished game and no open payment on a released hold is left |
| Acts.SweepHoldsActs | internal/postgres/booking.go:646-705 | What the first sweep does to every row of both tables |
| Acts.SweepPlayedActs | internal/postgres/booking.go:556-567 | The second completes exactly the confirmed bookings that have ended |
| Effects.CancelAllowedIff | internal/postgres/booking.go:191-219 | With transactions one after another, at any point of a run a cancellation succeeds exactly for the caller's own pending or confirmed booking unless some committed callback carried a right answer for a payment on it |
| Acts.CancelActs | internal/postgres/booking.go:191-286 | What a cancellation does to every column: refused unless the caller's, pending or confirmed and without verified online money; 20 points exactly for a confirmed booking less than five hours off; its open payments failed; nothing else touched |
| Acts.AllowedToCancel | internal/postgres/booking.go:288-318 | When it is refused and with which error |
| Acts.ChargeBans | internal/postgres/booking.go:264-282 | A charge bans exactly when it leaves 10 or less, for exactly the instants before the month is over |
| Acts.RestoreActs | internal/postgres/booking.go:389-431 | Points come back once, up to 100, at the word of the venue's own owner, for a cancellation that cost points; otherwise nothing changes |
| Effects.CancelFollowsTheRuleIff | internal/domain/booking.go:64-88 | Transaction and domain rule agree on a booking if and only if it is not the caller's to cancel, or it has begun exactly when online money is on it; where it is not, they give the same error |
| Effects.StartedBookingIsCancelled | internal/domain/booking.go:84-86 | An hour into a game the rule refuses and the transaction cancels and charges |
| Effects.CancelledForGood | internal/postgres/booking.go:191-286 | With transactions one after another, a cancelled booking stays so through every later step, at the same instant and price; no cash is due for it again and online money that arrives for it is flagged |
| ReadCommitted.PaidBookingIsCancelledIff | internal/postgres/booking.go:197-219 | At the level the program asks for, a cancellation leaves kept online money on a cancelled booking, and breaks the invariant, if and only if a right answer was committed between its snapshot and its lock for a booking nothing else was kept for; nothing else in between can |
| ReadCommitted.CancelIsSerialIff | internal/postgres/db.go:80-82 | A cancellation does what it would have done alone if and only if no right answer for its booking was committed in between |
| ReadCommitted.PaidBookingIsCancelled | internal/postgres/booking.go:197-219 | A run from empty tables that gets there |
| ReadCommitted.ChargeIsSerialIff | internal/postgres/booking.go:264-282 | A charge that waited for another change of the score is the charge it would have been alone if and only if the row read and the row overwritten leave the same score; the row is sound either way |
| ReadCommitted.SecondChargeIsLostIff | internal/postgres/booking.go:264-282 | Of two late cancellations that read the same score one charge is lost if and only if the score was above 20 |
| ReadCommitted.SecondGiveBackIsLostIff | internal/postgres/booking.go:416-431 | Of two restorations that read the same score one is lost if and only if it was below 80 |
| ReadCommitted.SweepIsSafe | internal/postgres/booking.go:646-668 | The sweep, which also tests payments it does not lock, keeps the invariant whatever was committed in between, and cancels exactly the pending holds that had run out in its snapshot and still have under its lock, all of them unpaid |
| Effects.SecondPaymentIsFlagged | internal/postgres/payment.go:219-229 | A second online payment is recorded whole and flagged as already paid, and nothing else changes |
| Effects.OnlineReplacesCash | internal/postgres/payment.go:234-243 | Paying online for a booking to be paid at the venue keeps the online money and closes exactly the one debt |
| Effects.CashIsCollected | internal/postgres/payment.go:515-545 | Collecting cash verifies an open debt and only that; a closed one stays closed and the booking is never touched |
| Effects.CashIsCollectedOnce | internal/postgres/payment.go:515-545 | Collecting twice is collecting once |
| Acts.CheckoutReadActs | internal/domain/paymentar.go:108-128 | Who may pay, and what: the player's own pending or confirmed booking with a price, at that price |
| Acts.OnlineCheckoutActs | internal/postgres/payment.go:62-83 | An online checkout records its payment unless its identifiers are in use, a conflict, and touches no booking |
| Acts.CashCheckoutActs | internal/postgres/payment.go:293-353 | A cash checkout confirms a hold that still runs and records the debt, grants a confirmed booking whose debt is recorded, and is refused otherwise |
| Acts.CashReceivedActs | internal/postgres/payment.go:515-545 | Cash is collected once, by the venue's owner; others and payments through a gateway are refused |
| Acts.RefundSentActs | internal/postgres/payment.go:261-286 | A return is recorded once, by the venue's owner, for a flagged payment; otherwise nothing changes |
| Acts.ApproveDeclineAnswers | internal/postgres/payment.go:429-508 | Who gets which answer to approving and declining cash |
| Money.MoneyAddsUp | internal/postgres/migrations/0015_payment_refunds.sql:16-30 | In every reachable state the verified money on a booking is its price, if it is paid, plus what is flagged to be returned |
| Money.MoneyIsNeverLost | internal/postgres/payment.go:136-205 | Between any two points of a run the verified money on a booking never shrinks |
| Money.FlagsAreExplained | internal/postgres/payment.go:209-248 | Every flagged payment belongs to a cancelled booking or to one with another payment kept |
| Score.BanIffFloor | internal/postgres/user.go:30-39 | Of a sound row, a read at any instant shows a ban iff it shows a score of at most 10; at the instant a ban ends it shows 50 and no ban |
| ScoreRuns.BanAndScoreAgree | internal/postgres/user.go:30-39 | So in every reachable state, at every instant |
| ScoreRuns.LateCancellationsAfforded | internal/domain/booking.go:214-220 | Over any stretch of a run without a ban, 20 times the late cancellations not given back stays under the score less 10: at most 4, and at most 1 from 50 |
| ScoreRuns.ChargesAreOutstanding | internal/postgres/booking.go:389-431 | Charges less restorations are exactly the penalties outstanding: each is given back at most once |
| ScoreRuns.UserRowStep | internal/postgres/booking.go:264-282 | No step but a charge or a restoration touches a user's score |
| Contention.NoDoubleBookingUnderContention | internal/postgres/booking.go:81-166 | However the statements of any number of attempts interleave, committed bookings never overlap |
| Contention.OverlappingLookersStartApart | internal/postgres/booking.go:85-92 | Two overlapping attempts past the check, whether or not either has inserted, start at different instants |
| Contention.OverlappingRowsStartApart | internal/postgres/booking.go:114-127 | Every committed booking an attempt past the check overlaps, and has not released, starts at another instant; once it has inserted there is none |
| Contention.ExclusionMeansAnotherStart | internal/postgres/booking.go:129-151 | The constraint refuses only for a committed overlapping booking that starts at another instant |
| Contention.ExclusionIsReached | internal/postgres/booking.go:129-151 | Any two overlapping holds that start apart can get there: both pass the check and the constraint refuses the second |
| Janitor.Sweep | internal/service/janitor.go:80-103 | A pass runs its sweeps in turn, each with its own clock reading, and a refused token sweep leaves the tokens as they were |
| Janitor.SweepsAreInvisible | internal/service/janitor.go:80-95 | However many sweeps fall anywhere among the holds asked for, each at its own instant, every hold is answered as without any of them, and so is every court, window and player's history at every later instant |
| Janitor.PassIsInvisible | internal/service/janitor.go:80-95 | In particular a pass, with holds asked for before, between and after its two sweeps |
| Effects.MoneySeesTheSweepIff | internal/postgres/payment.go:209-248 | A right answer tells a swept store from an unswept one, by what is taken afterwards, if and only if a sweep released the hold it is for |
| Janitor.PlayedCounts | internal/postgres/review.go:28-46 | A confirmed or completed game counts for its player from the instant it ends |
| Janitor.NothingElseCounts | internal/postgres/review.go:28-46 | No hold, cancelled booking, game of others, elsewhere or still to come does |
| Janitor.SameAnswers | internal/postgres/availability.go:118-148 | Taken slots and played games read the same from a swept and an unswept store |
| Pricing.PickRule | internal/domain/pricing.go:112-137 | Of the rules for this weekday and hour none has a higher priority than the one picked, at that priority none a shorter span, and at both none a higher price; none is picked only if none applies |
| Pricing.PriceByFields | internal/domain/pricing.go:79-107 | The hourly price, peak flag and rule are those of a best rule, or the base price if and only if no rule applies, and the total is that price for every hour begun |
| Pricing.CoversIsApplies | internal/domain/pricing.go:63-73 | A rule applies on its local weekdays, from its first hour up to its last |
| Pricing.WeekdaysAreRight | internal/domain/pricing.go:63-73 | Weekdays follow one another, from a known Monday |
| Pricing.BeatsIsAStrictWeakOrder | internal/domain/pricing.go:126-137 | The order among rules is a strict weak order, by priority, then shorter span, then price, and tied rules have one price |
| Pricing.PriceIgnoresOrder | internal/domain/pricing.go:87-107 | The price is the same for every permutation of the rules |
| Pricing.PeakIgnoresOrderIff | internal/domain/pricing.go:87-107 | The peak flag is so if and only if all unbeaten rules agree on it |
| Grid.OverlapsAny | internal/domain/availability.go:85-92 | Says whether some taken slot shares an instant with this one |
| Grid.BuildGrid | internal/domain/availability.go:40-82 | One cell for every whole hour of the opening, in order, priced by the rules and booked iff something taken shares an instant with it |
| Grid.GridIsDetermined | internal/domain/availability.go:40-82 | The request and the set of taken slots determine the grid; their order and repetition do not matter |
| Grid.CellsTileTheOpening | internal/domain/availability.go:40-82 | Cells are consecutive hours from opening, none past closing or outside the day's window, with less than an hour left over |
| Grid.WindowHoldsTheDate | internal/domain/availability.go:94-113 | The window is the 24 hours from the local midnight before the date |
| Grid.CellsAreWithinHours | internal/domain/slot.go:93-108 | Every cell passes the opening-hours check of a booking |
| BookingService.Availability | internal/service/booking.go:134-159 | A bookable court's grid is the grid over what the store holds taken that day; anything else is not found |
| BookingService.CellShowsTaken | internal/postgres/availability.go:118-148 | A cell is shown as booked exactly when a booking blocks its slot at that instant |
| BookingService.GridIsHonest | internal/service/booking.go:80-159 | Booking a cell succeeds iff it is not shown as booked and began at most a minute ago, stores the cell's slot at the cell's price, and conflicts if it is shown as booked |
| BookingService.CreateActs | internal/service/booking.go:80-130 | Every request to book is refused for the first condition that fails, in the order they are looked at: slot, past, sign-in, player, ban, court, hours and note, window, taken, identifier, venue; it is granted exactly when none does, and then stores this player, court, slot, note, price and hold, and cancels exactly the holds under the slot that ran out |
| BookingService.CreateIsTheStep | internal/service/booking.go:127-130 | A granted request is the step of the protocol that takes a hold |
| BookingService.HoursAcceptIff | internal/domain/slot.go:93-108 | The check accepts exactly the slots inside the hours and those that slip through dropped seconds or the midnight branch |
| BookingService.EarlyStartSlipsThrough | internal/domain/slot.go:97-107 | A venue open from 22:00 to midnight is booked from 20:00 |
| Ledger.BookedRangesForCourts | internal/postgres/availability.go:161-198 | Groups the batch by court, keeping each court's rows in order and leaving out courts with none |
| Ledger.BatchAgrees | internal/postgres/availability.go:118-198 | What the batch gives a court is what its own query would |
| Ledger.AddRow | internal/service/arena.go:119-147 | Folding one court into the totals keeps them the number of free cells and the lowest price among them |
| Ledger.BuildLedger | internal/service/arena.go:94-150 | Row by row the ledger is each court's own availability; open hours count the free cells and cheapest is their minimum, or nothing |
| Domain.Verify | internal/domain/paymentar.go:63-101 | An answer for another transaction changes nothing and is an internal error; any other puts its reference and evidence on the payment, verified exactly for a right answer and failed otherwise, with a conflict exactly for a wrong amount; a final payment is left alone |
| Repository.LoadedPayment.Verify | internal/domain/paymentar.go:63-101 | Confirms exactly for a right answer to a payment not yet final, and leaves the payment the specification says |
| Repository.Tables.CreateHold | internal/postgres/booking.go:81-166 | Releases, looks and inserts in turn and leaves the tables, and the error, that the transaction specifies; nothing released survives a refusal |
| Repository.Tables.Cancel | internal/postgres/booking.go:191-286 | Cancels the row, fails the open payments and charges the score as specified; reports as late exactly a confirmed booking less than five hours off, with the score and ban the player then has |
| Repository.Tables.RestorePenalty | internal/postgres/booking.go:389-431 | Marks the cancellation restored and raises the score as specified, or changes nothing |
| Repository.Tables.MarkPlayed | internal/postgres/booking.go:556-567 | Completes every finished confirmed booking and counts them |
| Repository.Tables.ReleaseStaleHolds | internal/postgres/booking.go:646-705 | Cancels the stale holds, fails the payments begun on them and counts the holds |
| Repository.Tables.CreatePayment | internal/postgres/payment.go:62-83 | Records the intent, or answers a conflict for an identifier or transaction in use and an internal error otherwise |
| Repository.Tables.ConfirmHold | internal/postgres/booking.go:512-539 | Confirms a pending booking whatever its expiry, accepts a confirmed one, refuses any other |
| Repository.Tables.ApplyToBooking | internal/postgres/payment.go:209-248 | Does to the booking and its cash debt what the specification says and returns its reason for a refund |
| Repository.Tables.Settle | internal/postgres/payment.go:136-205 | Locks, applies and writes in turn and leaves the tables, and the error, that the transaction specifies; the booking is put back if the payment cannot be written |
| Repository.Tables.ConfirmCash | internal/postgres/payment.go:389-421 | Confirms a hold that still runs, accepts a confirmed or completed booking, refuses any other |
| Repository.Tables.BookCash | internal/postgres/payment.go:293-353 | Records one debt and confirms the hold, or changes nothing; once the debt is recorded confirming cannot fail |
| Repository.Tables.ApproveCash | internal/postgres/payment.go:429-448 | Confirms the booking of an owned open cash payment as specified |
| Repository.Tables.DeclineCash | internal/postgres/payment.go:453-508 | Releases the booking and closes the debt of a pending cash booking as specified, or changes nothing |
| Repository.Tables.MarkCashReceived | internal/postgres/payment.go:515-545 | Confirms and verifies as specified, put back in full when either fails |
| Repository.Tables.MarkRefunded | internal/postgres/payment.go:261-286 | Records the return of an owned flagged payment once; a second time is not found |
| Limiter.BucketLimiter.Allow | internal/api/ratelimit.go:106-140 | Whatever was swept, the answer is that of a limiter that never deletes a bucket to the whole trace so far, wait included, and tokens stay between 0 and the burst |
| Bursts.RefusedIff | internal/api/ratelimit.go:106-140 | In any trace a request is refused if and only if, since some earlier request of its client, the client was allowed all of its burst and of what the time earned but less than one request |
| Bursts.RestedClientHasItsBurst | internal/api/ratelimit.go:118-128 | A client never seen, or idle long enough to refill, has its next burst of requests allowed at any instants |
| Limiter.BucketLimiter.Sweep | internal/api/ratelimit.go:144-156 | Only buckets that have refilled are dropped, and no account is affected |
| Limiter.Rate.OrDefault | internal/api/ratelimit.go:41-61 | Each figure with an opinion is kept and any other becomes five attempts, twelve seconds |
| Limiter.WindowBound | internal/api/ratelimit.go:106-140 | In any window of length T anywhere in any trace, one client is allowed at most burst + T / every requests, whatever others do and however often it was refused |
| Limiter.RefusalTellsTheWait | internal/api/ratelimit.go:130-134 | After a refusal and any trace in between, the next request is allowed exactly when the wait told is over, and none before |
| Limiter.WaitIsExact | internal/api/ratelimit.go:127-134 | The same from any account that is short of a token |
| Sessions.RunKeeps | internal/postgres/session.go:43-128 | After any run, with any lifetimes, a token was replaced by at most one other and replaces at most one, of the same user and issued at the instant it was revoked |
| Sessions.RotationHandsOver | internal/postgres/session.go:68-128 | A refresh fails and changes nothing, or exchanges exactly one usable token for one new one of the same user; it succeeds exactly for a usable token and a fresh digest |
| Sessions.RefreshActs | internal/postgres/session.go:68-128 | When a refresh succeeds, and the two rows it then writes |
| Sessions.UnknownRefreshFails | internal/postgres/session.go:83-85 | A token nobody holds refreshes nothing |
| Sessions.LoginActs | internal/postgres/session.go:43-55 | When a sign-in succeeds, and the row it then writes |
| Sessions.ReuseBurnsIff | internal/postgres/session.go:90-98 | Presenting a revoked token ends every session of its user if and only if there was none; the update is rolled back |
| Sessions.ReuseLeavesTheFirst | internal/postgres/session.go:57-67 | Of two holders of one token, the first to refresh keeps the session when the second presents it |
| Sessions.SingleUse | internal/postgres/session.go:57-67 | In no run does presenting one token succeed twice, unless it is issued again |
| Sessions.SessionsComeFromLogins | internal/postgres/session.go:43-128 | A user's open sessions never exceed his successful logins, however often they were refreshed |
| Sessions.SweepAllowedIff | internal/postgres/session.go:150-166 | Whatever tokens were issued to live, the deletion passes the foreign key if and only if no token outlives its successor: none whose successor expired while it is itself still kept |
| Sessions.SweepActs | internal/postgres/session.go:150-166 | A deletion that is not refused keeps exactly the tokens that have not expired and were not revoked longer ago than the retention, as they are |
| Sessions.SweepIsNeverRefused | internal/service/janitor.go:41-44 | So in every run whose tokens live at least as long as revoked ones are kept, or all equally long, it is never refused |
| Sessions.ShorterLifeStopsTheSweep | internal/postgres/migrations/0002_users.sql:57-69 | A lifetime cut from thirty days to one, under the seven days of retention, does get the whole deletion refused |
| Sessions.SessionRepo.StoreRefreshToken | internal/postgres/session.go:43-55 | Inserts or fails whole |
| Sessions.SessionRepo.RotateRefreshToken | internal/postgres/session.go:68-128 | Does what the transaction says; on every error, the one after its revoke-all included, the table is as before |
| Sessions.SessionRepo.RevokeRefreshToken | internal/postgres/session.go:130-139 | At every instant exactly the session of this token is gone from everybody's sessions, its token can refresh nothing any more, and every other row is untouched |
| Sessions.LogoutIsFinal | internal/service/auth.go:163-169 | In no run after a sign-out does its token refresh a session again |
| Sessions.SessionRepo.RevokeAllForUser | internal/postgres/session.go:141-148 | At every instant the user has no session and everybody else has theirs; rows of others and rows already revoked are untouched |
| Sessions.LogoutEverywhereIsFinal | internal/postgres/session.go:141-148 | With calls one after another, after it the user has no session at any instant of any run until he signs in again |
| ReadCommitted.RevokeAllLeaves | internal/postgres/session.go:141-148 | At the level the program asks for, what it leaves open is exactly the user's open tokens issued between its snapshot and its locks |
| ReadCommitted.EverySessionEndsIff | internal/postgres/session.go:141-148 | So it ends every session if and only if none was issued in between |
| ReadCommitted.RefreshOutlivesSigningOut | internal/postgres/session.go:104-123 | Any refresh that commits in between yields a session that outlives it |
| Sessions.SessionRepo.DeleteExpiredTokens | internal/postgres/session.go:150-166 | Keeps exactly those rows and counts the others, or fails and changes nothing |
| Client.OneRefreshAtATime | web/src/lib/api/client.js:184-227 | At every moment of every reliable run at most one refresh is under way, and none presents a token an earlier one rotated |
| Client.CallsGoOutTwiceAtMost | web/src/lib/api/client.js:127-180 | A call is sent at most twice, an upload or an anonymous call once, and none waits for a refresh that is not running |
| Client.LapsedCallRecovers | web/src/lib/api/client.js:157-173 | An authenticated call answered 401 the first time waits for a refresh, and when the cookie can be exchanged goes out again with the new token and cookie in place |
| Client.OtherAnswersEndTheCall | web/src/lib/api/client.js:157-180 | Any other answer ends the call and asks for nothing |
| Client.SigningInAndOut | web/src/lib/session.svelte.js:65-91 | A granted sign-in sets cookie and access token; signing out empties both |
| Client.NeverMistakenForAThief | web/src/lib/api/client.js:30-42 | When the server takes up a refresh, no row shows its token as replaced |
| Client.LostRotationIsReusedIff | web/src/lib/api/client.js:184-227 | Were a rotation's answer lost, the next refresh presents the rotated token exactly if the cookie is still that token |
| Client.LostRotationIsReused | web/src/lib/api/client.js:184-227 | A run from a tab just opened in which that happens |
| Client.RunKeeps | web/src/lib/api/client.js:127-227 | The invariant behind these, over every reliable run with sign-ins, sign-outs and other people's calls in between |
| Client.ApiClient.Shared | web/src/lib/api/client.js:207-227 | Gives the newest refresh, the only one that can be under way; a request goes out exactly if the slot was free, with the cookie of that moment, when all earlier refreshes had settled |
| Client.ApiClient.Received | web/src/lib/api/client.js:127-180 | A call waits exactly for a 401 to the first attempt of an authenticated one, for the refresh in the slot, and otherwise ends with its status; no call is sent again and at most one refresh starts |
| Client.ApiClient.Refreshed | web/src/lib/api/client.js:162-173 | The call goes out once more, its second and last time, or ends with its 401; the number of requests sent rises by exactly that |
| Client.ApiClient.Settled | web/src/lib/api/client.js:207-217 | Afterwards nothing is under way, the slot can be cleared, every call waiting for this refresh can resume, and the access token is the renewed one or none |
| Client.ApiClient.Clear | web/src/lib/api/client.js:218-224 | Clearing the slot strands nobody: every waiting call can resume |
| Slug.Slugify | internal/domain/arena.go:193-211 | The loop over the characters and the passes after it compute the slug the specification names |
| Slug.SlugIsItsWords | internal/domain/arena.go:188-211 | A slug is the name's words, its longest runs of kept letters and digits, joined by single hyphens and cut to length |
| Slug.SlugOfAName | internal/domain/arena.go:188-211 | Of a name of parts with spaces, hyphens and underscores between them: its parts in lower case joined by single hyphens, cut at 80 |
| Slug.CutAt80 | internal/domain/arena.go:207-210 | The cut is at 80 characters, and a hyphen left there goes too |
| Slug.SlugIsEmptyOrValid | internal/domain/arena.go:178-211 | Every slug is empty or valid, after truncation too, and empty exactly when there is no letter or digit to keep |
| Slug.MatchesIffWellFormed | internal/domain/arena.go:181-182 | The pattern describes exactly the strings with no hyphen at an end, none doubled, and nothing but lower-case letters, digits and hyphens |
| Slug.FixedPoints | internal/domain/arena.go:186-211 | The names that are their own slug are exactly the empty one and the valid slugs |
| Slug.SlugifyIsIdempotent | internal/domain/arena.go:193-211 | A slug of a slug is that slug |
| Prizes.ValidatePrizeSplit | internal/domain/tournament.go:110-131 | Accepts exactly one to eight non-negative shares that do not rise and make 100, and otherwise names the first fault |
| Prizes.BetterPlacesWinMore | internal/domain/tournament.go:133-143 | No place wins more than one above it, and none owes |
| Prizes.PrizeIsTheShare | internal/domain/tournament.go:133-143 | A place wins its share rounded down to whole rupees; a place outside the split nothing |
| Prizes.PoolCoversThePrizes | internal/domain/tournament.go:133-143 | However many places are paid the pool covers them, and less than one rupee a place is left over |

## Left out

- Time zones: one fixed offset; daylight saving and the calendar's own irregularities are not modelled. The end of a ban is any instant 28 to 31 days on.
- Clocks: `now()` in SQL and the service's clock are one nondecreasing clock per transaction, except where a step carries the service's own reading as a parameter. Databases keep microseconds; the model keeps nanoseconds.
- The same local day is decided by the day alone, not year and day of year; slots of at most four hours cannot tell the difference.
- Concurrency outside hold-taking: serialisable transactions are ASSUMED, one after another; the program does not ask for them (`internal/postgres/db.go:80-82` takes the default level, read committed). `Guarantees.PaidOnlineStays`, `Effects.CancelAllowedIff`, `Effects.CancelledForGood`, `Sessions.LogoutEverywhereIsFinal`, the accounts of late cancellations in `ScoreRuns`, and over runs with cancellations `Protocol.RunKeeps` and what follows from its invariant, rest on it. `ReadCommitted` says exactly when a cancellation, a charge, a restoration and a sign-out everywhere depart from it, and that the sweep keeps the invariant. The other transactions on bookings and payments lock the rows they test, or test them in a statement that follows the lock.
- Deadlocks and retries; in `ReadCommitted` a statement has all its locks at one instant, and what the transaction does after it happens there too.
- Legacy rows: runs start from empty tables, so a pending booking with an open cash payment, which the current code no longer writes, does not occur.
- Payments: `Refund` on a payment and the status `refunded` are unreachable from the service; `LatestForBooking`, `Status` and the venue's lists only read.
- Gateways: HTTP, signatures, encryption and how a merchant account is chosen; a gateway is an arbitrary answer.
- Bookings: the team on a booking, the text of cancellation reasons and matchmaking posts that a cancellation closes have no bearing on what is proved.
- Repository.LoadedPayment.Verify: the service holds one payment at a time; aliasing between copies is not modelled, each callback has its own.
- Limiter.BucketLimiter.Allow: tokens are reals and waits are exact; the program's floating point rounds, and `now` never runs back.
- Limiter: the response header rounds the wait down to whole seconds, at least one.
- Janitor.Sweep: the sweep of matchmaking calls that ends a pass touches no table modelled here.
- Sessions: each token's digest is a string drawn by the caller; hashing, device details and the deletion of a user with his tokens are not modelled.
- Client.OneRefreshAtATime: one tab, in a browser, with every answer of a rotation arriving; `Client.LostRotationIsReusedIff` says what happens otherwise. Server-side rendering never refreshes.
- Client: digests are never drawn twice; the body of an answer is its status and, for a refresh, the token it carries.
- Slug.Slugify: case folding and white space are parameters, so the Unicode tables are not modelled; strings are sequences of characters, and the length of a slug, being ASCII, is its length in bytes.
- Teams, matches, matchmaking capacity, reviews, photos, highlights, profiles, tournaments beyond their prize split, handlers, mail and media: plumbing, or rules enforced by triggers in the database that no property here needs.
