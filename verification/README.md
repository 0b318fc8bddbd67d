# Verified model of the bike-rental server

This project models the protocols and calculations on which the server's money and clocks
depend, and proves what they keep. `dafny verify dfyconfig.toml` checks the whole project.

## The parts

- **Charging a saved method.** `ChargeProtocol` is a transition system: any number of
  requests and acquirer notifications over one order table, one acquirer and the rides, each
  handler cut at its awaits, so that every interleaving and every handler that dies between two
  awaits is a run. `ChargeServer` is the same code as methods that update the tables in place,
  each proved against the transition system, and a server that runs any schedule of them.
  `ChargeInvariants` proves what needs no assumption about the acquirer, `ChargeTruth` what
  follows when the acquirer tells the truth, `ChargeAnswers` what one handler comes to that nothing
  disturbs and what riders are told, `ChargeRides` which rides an order may touch,
  `ChargeOutcomes` what fails, reopens and ends an order, `ChargeEffects`, `ChargeExtensions` and `ChargeStarts` what one payment can buy,
  `ChargeContinuations`, `ChargeAgain`, `ChargeStartsAgain`, `ChargeTally` and `ChargeReservation`
  what can still become of an order or a request from any reachable state, and `ChargeRuns`
  exhibits the runs in which the code does less than its comments promise.
- **The ride clock.** `RideClock` has the live timers, the settlement and the writes of start,
  pause, resume, extend and end; `RideAccount` proves where the paid window comes from, that no
  dial jumps, and what the final bill is; `RideNotices` is the claim-then-send protocol of the
  two notification sweeps.
- **Streams and caches.** `RideStream` is the snapshot serialiser of the active-ride stream,
  `StreamLimiter` its admission counters, `LockTrack` the incremental lock track with its
  client cache, `TrackDensify` the densification of tracker tracks.
- **The database at rest.** `BootRepair` is the repair every boot runs before it creates the
  unique indexes, `SessionTouch` the batched session renewal, `PaymentTokens` (with `Base64`)
  the sealing of payment tokens and its backfill.
- **The acquirer client and the rest.** `TbankToken` signs and verifies messages, `TbankRefund`
  is the refund retry loop, `RidePayment` classifies statuses, `ParkingCode` finds a free code.

Time is an integer number of milliseconds (seconds in the session table), money an integer
number of kopecks. An SQL statement is one atomic step.

## Where the code does not keep its promise

Each of these is a proved statement about the code as it is.

- An extension bought while the ride is paused adds the pause's pending credit to the paid window
  and leaves the pause open, so that resuming adds it again; *n* such extensions add it *n* + 1
  times (`ExtendingWhilePausedMultipliesGrace`). The law of `shared/pause.ts` and
  `shared/schema.ts` holds of a run exactly when no extension was made with credit pending or
  after the deadline (`PaidWindowLawIff`).
- One captured payment can extend its ride more than once, although the comment of
  `server/payments/tbank-handlers.ts` says that a paid order never gets there: when the
  notification overtakes the reply of the Charge call (`OnePaymentExtendsTwice`), and equally when
  the route extends first and the notification claims the order before the route has marked it
  (`ClaimAfterRouteExtendsTwice`). From any reachable state a payment can extend again exactly
  under the condition of `ExtendsAgainIff`; the extension a handler is about to make is the only
  one there will ever be exactly under those of `RouteExtendsOnceIff` and `NoticeExtendsOnceIff`.
  With exceptions there is no fixed bound: an order buys at most one thing for its request and one
  for each notification that won a claim (`PurchasesBounded`), and that many extensions for every
  number of notifications (`BoundAttained`).
- One captured payment can start two rides, without any exception, although the comments of
  `server/payments/tbank-handlers.ts` and `server/http/payments.ts` say that it cannot: the
  notification looks for the rider's ride after the one the route started has ended
  (`OnePaymentStartsTwice`). `StartsAgainIff` says from which states a payment can still start a
  ride; the bound is the same, and is met by starts alone (`StartBoundAttained`).
- The payment of a ride start can extend the ride it started (`StartOrderExtends`). From any
  reachable state it still can exactly when its order can be claimed or a notification may give
  its claim back, and never while no notification is left by an exception
  (`StartExtendsAgainIff`).
- The key of the server's own overage charge, made of the ride's id, is one that a rider's request
  may carry too. Until it inserts its own order, the overage call can still charge exactly while
  no order holds that key (`ChargesIffKeyIsFree`); so it may never charge (`OverageNeverCharges`).
- The server's own overage charge marks its order failed on any exception, even over an order
  that was captured and recorded as paid (`CapturedOverageFails`). Nothing else ever marks a
  captured order failed (`CapturedFailsIff`).
- A paid order goes back to pending when the catch block of a notification gives its claim back;
  the runs exist (`PaidOrderReopens`), and a paid order loses its status by this and by the
  overage call's failure mark alone (`PaidReopensIff`).
- A process that dies between the claim and the last write leaves the order unfinished for good
  (`DeadClaimWedgesOrder`, `DeadClaimIsReachable`); every other captured order can still be
  settled (`CapturedOrderSettlesIff`).
- The boot repair is not a no-op on every healthy database: a rider's second ride takes slot 2
  and has rank 1 (`SecondStartSwaps`, `SwappedIsNotSettled`, `HealthyDatabaseAborts`). Where the
  slot index exists already, and is checked on each row as it is written, the slot rewrite aborts
  exactly when it writes one of a rider's two rides while the other still holds its slot
  (`SlotRewriteAbortsIff`), and whatever the order of the rows exactly when such a swapped pair
  exists (`SlotRewriteAlwaysAbortsIff`, `HealthyRewriteAbortsIff`).
- A sweep that finds a ride past its deadline can leave the overtime notice unsent when an older
  sweep marks the row in between (`RacingSweepLosesOvertime`); when it is sent is
  `SweepPastDeadlineSendsOvertimeIff`.
- A stream that the server has ended is still written to when a push was running or asked for
  (`EndedStreamStillWrites`, `WritesAfterEndIff`).
- The preview of a ride without `paidUntilAt` differs from its settlement, exactly as
  `PreviewIsSettlementIff` says; resuming such a ride moves its deadline
  (`ResumeMovesNoDialIff`).
- A refund reported as failed may have been carried out (`FailureMayHaveRefunded`): exactly when
  the reply to a call that was carried out is among those lost (`FailureRefundedIff`).
- The check of a notification's token throws, where its comment promises `false`, exactly on a
  token as long as the digest in which some character is not ASCII (`VerificationThrowsIff`).

## Model

| member | source | states |
|---|---|---|
| ChargeInvariants.OneChargePerKey | server/http/payments.ts:661-687 | Over every interleaving of requests, notifications and crashes, at most one Charge is ever sent for a (user, idempotency key), and its PaymentId was on the order first |
| ChargeInvariants.RepliesAgree | server/http/payments.ts:730-766 | All replies that name an order for one key name the same order and the same amount |
| ChargeAnswers.ReplayAnswers | server/http/payments.ts:661-687 | In every run, a request whose key an order holds is answered from that order and nothing else happens: a charge route says paid exactly of a paid order, gives the error exactly of a failed one and says pending of any other; the hosted route repeats the row, and the overage call stops |
| ChargeAnswers.RequestReserves | server/http/payments.ts:724-761 | An undisturbed request with a free key makes one pending order under a fresh id, for what it asks, and goes on to Init |
| ChargeAnswers.RequestCharges | server/http/payments.ts:768-813 | From a successful Init, the PaymentId is on the order and one Charge is out for it |
| ChargeAnswers.DeclinedChargeFails | server/http/payments.ts:827-835 | A declined charge fails the order and is answered with the error |
| ChargeAnswers.ChargeInFlightIsPending | server/http/payments.ts:837-839 | A charge still in flight changes no order and is answered as pending |
| ChargeAnswers.StartBegins | server/payments/tbank-handlers.ts:45-74 | From the look for a ride to the answer, undisturbed: a ride is started on a free bike, put on the order and told to the rider |
| ChargeAnswers.StartRefused | server/payments/tbank-handlers.ts:54-61 | On a taken bike, or where the ride code refuses, the order is paid with an error, no ride is touched and the request is answered with the error |
| ChargeAnswers.StartTakesOwn | server/payments/tbank-handlers.ts:38-44 | Where the rider rides that bike already, that ride is put on the order and none is started |
| ChargeAnswers.ExtensionSettles | server/payments/tbank-handlers.ts:86-125 | A captured extension extends the ride asked for once and is told as paid; where the ride code refuses, the order is paid with an error |
| ChargeAnswers.NoticeExtends | server/payments/tbank-handlers.ts:392-397 | A notification of a captured extension extends the ride on the order, or records the error |
| ChargeAnswers.NoticeFails | server/payments/tbank-handlers.ts:431-436 | A notification of a refused payment fails the order |
| ChargeAnswers.NoticeSettlesOverage | server/payments/tbank-handlers.ts:353-357 | A notification of a captured overage records it as paid and touches no ride |
| ChargeAnswers.HostedReserves | server/http/payments.ts:556-631 | The hosted route registers the payment, inserts its pending order after that with the PaymentId, and answers pending |
| ChargeRides.OverageTouchesNoRide | server/payments/tbank-handlers.ts:344-352 | In every run, no overage order starts or extends a ride |
| ChargeRides.RideIsTheRiders | server/payments/tbank-handlers.ts:38-47 | In every run, the ride on an order is the one its request named or one started on the order's bike for an order of the same rider |
| RidePayment.ClassifiedByWord | server/tbank.ts:704-714 | In any letter case and with any blanks around it: CONFIRMED and COMPLETED succeed, five statuses and any other with Success false are rejections, everything else is in flight |
| ChargeInvariants.NextSafe | server/storage/payment-method.ts:337-394 | Every event keeps the ownership of rows by the requests that inserted them, the unique index, and the record of charges |
| ChargeInvariants.WriteFrame | server/storage/payment-method.ts:495-503 | A write touches one row, never what the order is for, and never takes a PaymentId back |
| ChargeTruth.EffectsArePaidFor | server/payments/tbank-handlers.ts:319-453 | Against a truthful acquirer, each ride started and each extension belongs to a captured payment |
| ChargeTruth.PaidReplyIsCaptured | server/http/payments.ts:817-825 | A reply that says paid names a captured order |
| ChargeOutcomes.FailedOnlyAfterRefusal | server/http/payments.ts:790-839 | Whatever the acquirer says, an order is failed only after one of its own handlers met a rejected Init or a reply or notification classified as failed, or, for the overage charge alone, an exception |
| ChargeTruth.CapturedIsNotFailed | server/http/payments.ts:790-843 | A paid order is captured; a captured order recorded as failed is an overage charge left by an exception, never one of the charge routes |
| ChargeOutcomes.LostCallEndsRequest | server/http/payments.ts:840-843 | When an acquirer call or the write between them throws on a charge route, the request is over in every continuation: its order stays pending until a notification has won a claim, and only notifications of it ever change its status |
| ChargeOutcomes.CapturedFailsIff | server/storage/ride.ts:180-185 | A captured order becomes failed by exactly one kind of step: the failure mark of its own overage call after an exception |
| ChargeOutcomes.PaidReopensIff | server/payments/tbank-handlers.ts:445-452 | A paid order loses that status under exactly two steps: the release of a claim by a notification's catch block, and the failure mark of an overage call left by an exception |
| ChargeEffects.SecondStartOnlyAfterEnd | server/payments/tbank-handlers.ts:38-47 | What the look for the rider's ride on the bike does guarantee, in every run: of two rides started for one order, the first is over once the second has started |
| ChargeStartsAgain.StartsAgainIff | server/payments/tbank-handlers.ts:34-74 | From any reachable state some continuation starts another ride (or the first) for a captured start order exactly when its request has not come to its start, a notification is about to make one, or the order has no ride on it and can be claimed or have its claim given back; with and without exceptions of notifications to come |
| ChargeExtensions.EachHandlerExtendsOnce | server/payments/tbank-handlers.ts:76-125 | Whatever fails half-way, two extensions of one order are by different handlers, each the request that inserted the order or a notification of its capture that won a claim |
| ChargeAgain.ExtendsAgainIff | server/payments/tbank-handlers.ts:76-125 | From any reachable state some continuation extends a captured payment's ride again exactly when its order can be claimed, its request has not extended yet, or a notification stands where it may; with and without exceptions of notifications to come |
| ChargeTally.RouteExtendsOnceIff | server/http/payments.ts:994-1003 | The extension the route is about to make is the only one in every continuation exactly when none was made before, the order cannot be claimed, and no notification of it stands where it may still extend |
| ChargeTally.NoticeExtendsOnceIff | server/payments/tbank-handlers.ts:392-397 | The same for a notification: exactly when none was made before, the request is past its own extension, and no exception is to come |
| ChargeTally.PurchasesBounded | server/payments/tbank-handlers.ts:34-125 | In every run, truthful or not, and whatever fails half-way, starts and extensions of an order of any kind are together at most one for its request and one for each notification that won a claim |
| ChargeStartsAgain.StartExtendsAgainIff | server/payments/tbank-handlers.ts:76-83 | From any reachable state some continuation extends a ride for a captured start order exactly when the order can be claimed or a notification may give its claim back, and none does in which no notification of it is left by an exception |
| ChargeReservation.ChargesIffKeyIsFree | server/storage/ride.ts:106-119 | Before its insert, a request of the three charge routes, the server's own overage call included, can still come to send a Charge of its own exactly when no order holds its key |
| ChargeRuns.OverageNeverCharges | server/storage/ride.ts:115-119 | A reachable state in which an overage call can never charge because a rider's request holds its key |
| ChargeRuns.CanCharge | server/http/payments.ts:768-814 | Each charge route can reach a captured charge whose reply is still under way |
| ChargeRuns.OnePaymentExtendsTwice | server/payments/tbank-handlers.ts:82-85 | A reachable state in which one charge has extended the ride twice |
| ChargeRuns.ClaimAfterRouteExtendsTwice | server/http/payments.ts:994-1003 | The same without any exception when the route extends first and the notification claims the order before the route has marked it |
| ChargeRuns.BoundAttained | server/payments/tbank-handlers.ts:445-452 | For every number of notifications that win a claim and throw after extending, one charge has extended the ride once for each and once more |
| ChargeRuns.StartBoundAttained | server/payments/tbank-handlers.ts:445-452 | For every number of notifications that win a claim and throw after starting, one charge has started a ride for each and once more |
| ChargeRuns.OnePaymentStartsTwice | server/payments/tbank-handlers.ts:28-30 | A reachable state without any exception in which one charge has started two rides |
| ChargeRuns.PaidOrderReopens | server/payments/tbank-handlers.ts:445-452 | A reachable state from which the release of a claim takes a paid start order back to pending |
| ChargeRuns.StartOrderExtends | server/payments/tbank-handlers.ts:392-397 | A reachable state in which the one charge of a ride start has started a ride and extended it |
| ChargeRuns.CapturedOverageFails | server/storage/ride.ts:180-185 | A reachable state in which a captured overage order, already recorded as paid, is marked failed |
| ChargeContinuations.DeadClaimWedgesOrder | server/payments/tbank-handlers.ts:341-342 | If the processes that hold an order being processed die, no later event of the others settles it or brings the rider what was paid for |
| ChargeContinuations.CapturedOrderSettlesIff | server/payments/tbank-handlers.ts:341-342 | Whatever handlers have died, a captured unpaid order can still become paid exactly unless it is being processed and all its live handlers are idle |
| ChargeRuns.DeadClaimIsReachable | server/payments/tbank-handlers.ts:341-342 | That state is reachable with the money captured and nothing done for it |
| ChargeServer.Server.FindOrder | server/storage/payment-method.ts:396-400 | The read by key finds an order exactly when there is one, and it has that key |
| ChargeServer.Server.InsertOrder | server/storage/payment-method.ts:356-393 | The insert makes the request the owner of a pending row, or sends it to read the winner's row |
| ChargeServer.Server.ClaimOrder | server/payments/tbank-handlers.ts:341-385 | The claim passes only on a row neither paid nor being processed, and decides what the notification does |
| ChargeServer.Server.Serve | server/http/payments.ts:661-687 | Under any schedule of requests, notifications, replies, exceptions and dead handlers, the server in place goes through the states of the transition system and sends at most one Charge per key, with the PaymentId on that key's order |
| RideClock.RideRow.Pause | server/storage/ride.ts:972-984 | A pause begins on an active, unpaused ride and changes nothing else |
| RideClock.RideRow.Resume | server/storage/ride.ts:1062-1086 | Resuming books the pause and adds its credit to the paid window |
| RideClock.RideRow.Extend | server/storage/ride.ts:1133-1195 | The new window is the later of now and the settled deadline, plus the block bought |
| RideClock.RideRow.End | server/storage/ride.ts:806-829 | The settlement: overage on the settled deadline, nothing for a test ride, the open pause booked |
| RideClock.RideRow.constructor | server/storage/ride.ts:274-292 | The row of a new ride, with the test override of its window |
| RideAccount.PaidWindowAccount | shared/schema.ts:753-768 | In every run of pauses, resumes and extensions, the deadline is the start, plus the time bought, plus paused time up to the grace, plus credit granted twice, plus overtime forgiven |
| RideAccount.PaidWindowLawIff | shared/pause.ts:3-8 | The promised law without the last two parts holds exactly of the runs whose extensions had no credit pending and were in time |
| RideAccount.SplittingPausesChangesNothing | shared/pause.ts:3-8 | Two such runs that bought and paused equally long have the same deadline, however the pauses were split |
| RideAccount.ExtendingWhilePausedMultipliesGrace | server/storage/ride.ts:1159-1167 | For every n, a run with one pause of ten minutes and n extensions in it has n + 1 times the grace |
| RideAccount.PauseMovesNoDial | shared/pause.ts:10-13 | Beginning a pause changes no timer and no amount at that instant |
| RideAccount.ResumeMovesNoDialIff | shared/pause.ts:10-13 | Settling a pause changes none at that instant for a ride with a deadline of its own; without one it moves the deadline unless the tariff is retired |
| RideAccount.ExtensionMovesDeadlineBy | server/storage/ride.ts:1167-1188 | An extension moves the deadline shown by the block bought, the credit pending and the overtime forgiven |
| RideAccount.ElapsedPlusRemainingIsBought | shared/pause.ts:102-112 | At every instant of every run, riding time shown plus time left is the time bought and given, and overtime is riding time beyond it |
| RideAccount.OverageMatchesTimerIff | shared/pause.ts:87-100 | The amount shown is the minute price of the whole minutes on the overtime timer exactly when there is a paid window or less than a minute on it |
| RideAccount.OverageNeverDecreases | shared/pause.ts:76-85 | Until an extension, overtime and its amount never fall, through any pauses, resumes and waits |
| RideAccount.PausedTimeAddsOnlyPastGrace | shared/pause.ts:3-8 | In a pause, overtime grows by the paused time less the grace it uses; so free time adds nothing |
| RideAccount.PreviewIsSettlementIff | shared/pause.ts:76-85 | The live amount is what ending the ride now would charge, always with a deadline on the row and otherwise exactly under the stated condition |
| RideAccount.FinalBill | server/storage/ride.ts:806-829 | The final cost of any run: tariffs bought, plus the minute price of whole minutes of riding time beyond the time bought and given |
| RideAccount.BlocksAreBilled | server/storage/ride.ts:274-292 | Over any run nothing is ever charged to a test ride; any other ride costs, while it lasts, the price of its tariff and of each extension that went through, and has the time these sold |
| RideAccount.FinalBillInKopecks | server/storage/ride.ts:806-829 | The bill of any ended ride in kopecks and milliseconds, and the instant of its end |
| RideAccount.EndedForGood | server/storage/ride.ts:1066-1067 | Nothing after the end changes the ride |
| RideNotices.NextPauseNotice | shared/pause-expiry.ts:76-110 | The branches pick the stage due and the mask of the specification |
| RideNotices.NextExpiryNotice | shared/ride-expiry.ts:99-133 | The branches pick the stage due and the mask of the specification |
| RideNotices.ExpiryNoticesRise | server/storage/ride.ts:1303-1372 | With any sweeps racing on rows read earlier, each deadline gets its notices in strictly rising stages, each at most once, and none follows about an older deadline |
| RideNotices.PauseNoticesEnd | server/storage/ride.ts:1374-1426 | Over a whole ride: two-minute warnings, at most one per pause, then at most one end of grace, then nothing |
| RideNotices.SweepSendsWhatIsDue | server/storage/ride.ts:1333-1369 | An undisturbed sweep of an active ride, of either kind, leaves every stage that is due sent, or a later one |
| RideNotices.SweepWarnsInTime | shared/ride-expiry.ts:99-133 | An undisturbed sweep leaves a warning out at most ten and at most five minutes before the deadline, unless the whole window is no longer, and the overtime notice at it |
| RideNotices.SweepWarnsOfPauseInTime | shared/pause-expiry.ts:76-110 | An undisturbed sweep leaves a warning out at most two minutes before the free pause time ends, and the notice of its end at it |
| RideNotices.NoNoticeBeforeItsTime | shared/ride-expiry.ts:99-133 | With any sweeps racing, every notice was due by the time alone when its sweep read the row of a ride still on |
| RideNotices.ClaimSendsOnlyCurrent | server/storage/ride.ts:1346-1357 | No claim sends a notice about an ended ride, or about another deadline or pause than the present one |
| RideNotices.SweepPastDeadlineSendsOvertimeIff | server/storage/ride.ts:1330-1357 | After the claim of a sweep that found the ride past its deadline, overtime has been sent for that deadline exactly when it was sent before or the claim's condition on the marks holds |
| RideNotices.RacingSweepLosesOvertime | server/storage/ride.ts:1346-1357 | A run in which such a sweep sends nothing because an older one marked the row |
| RideNotices.FilterMissesNothing | server/storage/ride.ts:1313-1325 | The sweep's filter hides no row with a notice due, even without the grace it adds |
| RideStream.OnePushAtATime | server/http/rides.ts:68-97 | At most one snapshot is in flight, and no more are read than were asked for |
| RideStream.LastStateWins | server/http/rides.ts:68-74 | Whenever the stream is open and idle and its last push succeeded, the last snapshot was read after the last ride event; snapshots never go back in time |
| RideStream.WrittenExactly | server/http/rides.ts:85-87 | A snapshot is written exactly when a query has succeeded on a stream not closed since: the one that the query read; back-pressure ends the response |
| RideStream.InvalidSessionEnds | server/http/rides.ts:84-84 | A push of an invalid session writes nothing and ends the response; one whose check throws writes nothing and leaves it open |
| RideStream.RunCounts | server/http/rides.ts:64-79 | A stream opens with one push and nothing remembered; the triggers counted are the opening, the ride events and the heartbeats |
| RideStream.QuietStreamCatchesUp | server/http/rides.ts:92-95 | A busy open stream is idle and up to date after at most two successful pushes |
| RideStream.NothingWrittenAfterClose | server/http/rides.ts:86-86 | In every continuation after the close nothing is written, no push is started, and at most one more snapshot is read |
| RideStream.WritesAfterEndIff | server/http/rides.ts:84-96 | A response the server ended is written to again, with nothing new asked for, exactly when a push was running |
| RideStream.EndedStreamStillWrites | server/http/rides.ts:87-95 | Such a state is reachable |
| RideStream.Connection.OnAnswered | server/http/rides.ts:85-96 | The code after the query: discard when closed, write, end on back-pressure, and the finally block |
| RideStream.Connection.OnChecked | server/http/rides.ts:84-84 | The code after the session check: an invalid session ends the response, an exception ends only the push |
| RideStream.Connection.OnRideEvent | server/http/rides.ts:76-79 | A ride event starts a push, or is remembered while one runs, and does nothing once closed |
| LockTrack.AppendLockTrack | shared/lock-track.ts:20-36 | The loops over pages and points compute the merge by id, the order by time and the greatest cursor |
| LockTrack.DrainDeliversEachRowOnce | server/storage/lock-track.ts:4-11 | Asking page after page ends, delivers exactly the rows above the cursor once each in id order, in the fewest pages of 500 |
| LockTrack.DrainedIsFullQueryIff | shared/lock-track.ts:18-36 | After draining, the route is the full query ordered by (t, id) exactly when the client held every row up to its cursor and nothing that is not a row |
| LockTrack.ArrivalOrderIsIrrelevant | shared/lock-track.ts:18-31 | The merge depends only on which points arrived and on the greatest cursor: order and replays do not matter |
| LockTrack.AppendedIsDrawn | shared/lock-track.ts:29-35 | The points drawn are the items held, in order of time and then id, and `lastPointAt` is the latest time held |
| LockTrack.EarlyReturnIsMergeIff | shared/lock-track.ts:21-23 | Returning the previous track is what merging would give exactly when that track was in order and derived from its items |
| LockTrack.Poll | client/src/hooks/use-ride-track-poll.tsx:18-32 | One poll against a growing table: the page checks never reject, the client holds exactly the rows up to its cursor, and with no more pages announced its route is the full query |
| LockTrack.SyncedWhileGrowing | server/storage/lock-track.ts:4-11 | Rows that arrive later do not disturb a client in step |
| BootRepair.Database.Repair | server/db/bootstrap.ts:64-113 | The five statements, as loops over rows, compute the specified tables |
| BootRepair.RepairSettles | server/db/bootstrap.ts:64-122 | From any tables: one active ride per bike, at most two per rider with distinct slots equal to their ranks, no slot on an inactive ride, no rented bike without an active ride; rides are only ever cancelled, and only unridden rented bikes freed |
| BootRepair.SurvivesIff | server/db/bootstrap.ts:65-88 | A ride stays active exactly when it was the newest on its bike and its rider has fewer than two newer such rides |
| BootRepair.FirstStatementKeepsLast | server/db/bootstrap.ts:65-71 | The first statement keeps an active ride exactly when every other active ride of its bike started earlier, or at the same instant with a smaller id |
| BootRepair.EveryBikeKeepsOne | server/db/bootstrap.ts:65-71 | Every bike with an active ride keeps exactly one |
| BootRepair.SlotsByRecency | server/db/bootstrap.ts:91-101 | What survives has slot 1 when it is its rider's last ride, and 2 otherwise |
| BootRepair.RepairIsNoOpIff | server/db/bootstrap.ts:60-63 | The repair changes nothing exactly on settled tables |
| BootRepair.RepairIsIdempotent | server/db/bootstrap.ts:60-63 | Repairing twice is repairing once |
| BootRepair.SlotRewriteAbortsIff | server/db/bootstrap.ts:91-101 | On any tables the first two statements leave, with the slot index in place, the slot rewrite aborts in a given row order exactly when it writes one of a rider's two rides while the other still holds its slot |
| BootRepair.FirstStepsRewritable | server/db/bootstrap.ts:65-87 | Those are the tables the first two statements leave |
| BootRepair.SlotRewriteAlwaysAbortsIff | server/db/bootstrap.ts:91-101 | On them every row order aborts exactly when some rider's later ride has slot 2 and the earlier slot 1 |
| BootRepair.HealthyRewriteAbortsIff | server/db/bootstrap.ts:91-101 | On a healthy database every row order aborts or none does, by the same condition |
| BootRepair.SecondStartSwaps | server/storage/ride.ts:382-384 | On a healthy database, a second start by a rider whose one active ride has slot 1 leaves a healthy database with such a pair |
| BootRepair.StartSlotIsLowest | server/storage/ride.ts:382-384 | A start takes the lowest slot that no active ride of the rider has |
| BootRepair.SwappedIsNotSettled | server/db/bootstrap.ts:60-63 | No database with such a pair is settled |
| BootRepair.HealthyDatabaseAborts | server/db/bootstrap.ts:91-101 | There is a healthy database that is not settled and whose slot rewrite aborts in every row order |
| SessionTouch.SessionStore.Touch | server/session-store.ts:33-54 | The conditional UPDATE changes at most its session's expiry, and never creates or removes a session |
| SessionTouch.AskedExpiry | server/session-store.ts:34-41 | A request asks for its cookie's expiry in whole seconds rounded up, without one for the store's lifetime from now; an expiry that is no date is an error |
| SessionTouch.WrittenIff | server/session-store.ts:42-49 | The row is written exactly when the session is alive, more is asked for, and a minute or a quarter of the lifetime is gained |
| SessionTouch.WritesMoveForward | server/session-store.ts:42-49 | For any touches landing in any order, the expiry never moves back and k writes move it by at least k intervals |
| SessionTouch.ExpiredStaysExpired | server/session-store.ts:46-46 | A session expired by the time of every request is never renewed |
| SessionTouch.NoLapseIff | server/session-store.ts:14-21 | Touches at most `gap` seconds apart never let a session lapse exactly when the gap is at most the lifetime less 59 seconds (less its own slack for short lifetimes) |
| TbankToken.ComputeToken | server/tbank.ts:255-266 | The loop computes the digest of the sorted significant values and the password |
| TbankToken.TokenSeesOnlySignificant | server/tbank.ts:243-266 | The token does not depend on field order, nested values, null or undefined fields or an existing Token, even with a field named Password |
| TbankToken.MessageJoinsInKeyOrder | server/tbank.ts:243-251 | The message hashed joins the significant values and the password in the one ascending order of their keys |
| TbankToken.LessIsLexicographic | server/tbank.ts:264-264 | The order of the keys is lexicographic |
| TbankToken.FieldTakesPart | server/tbank.ts:255-272 | A field named Token, nested, null or undefined takes no part; any other does with its text, `true` or `false` for a boolean |
| TbankToken.PrunedHolds | server/tbank.ts:274-279 | What is sent holds exactly the fields that are neither null, undefined nor empty |
| TbankToken.PruneEmpty | server/tbank.ts:280-288 | The loop drops exactly the empty fields |
| TbankToken.SignedPayloadVerifies | server/tbank.ts:361-365 | Every payload this client signs verifies under the same password |
| TbankToken.PayloadHolds | server/tbank.ts:361-365 | Under each name the body holds the parameter given last, the terminal's key where none was given, nothing where it is empty, and under Token the token of the rest |
| TbankToken.VerifyNotificationToken | server/tbank.ts:299-310 | Verification accepts exactly a non-empty token equal to the computed one up to letter case, and throws exactly when the comparison is given buffers of different lengths |
| TbankToken.VerificationThrowsIff | server/tbank.ts:305-309 | With ASCII digests that is exactly a token as long as the digest with a character that is not ASCII |
| TbankToken.LengthsByCodePoint | server/tbank.ts:305-309 | The lengths compared are those of UTF-16 and of UTF-8 |
| TbankRefund.RefundVerificationCharge | server/tbank.ts:868-938 | The loop with its three attempts, against an acquirer updated in place, computes the outcome that the lemmas below are about |
| TbankRefund.RefundIsSafe | server/tbank.ts:852-862 | At most three Cancel calls, money is conserved and returned at most once, and any result but a failure means nothing is outstanding |
| TbankRefund.KnownStatusDecides | server/tbank.ts:872-895 | A status the caller knows is not asked for again; a settled one, known or answered, ends the refund before any call; without a payment id or the rider's contact none is made |
| TbankRefund.AttemptsFailIff | server/tbank.ts:906-938 | The attempts fail exactly when none of the calls is answered conclusively |
| TbankRefund.AttemptsReport | server/tbank.ts:912-925 | A refund is reported exactly when the call that ends the attempts gave the money back itself, and nothing to cancel exactly when it found none outstanding, each with the status of that answer |
| TbankRefund.FailureRefundedIff | server/tbank.ts:906-938 | A refund reported as failed has given outstanding money back exactly when a call was made whose reply alone was lost; otherwise the money is where it was |
| TbankRefund.FailureMayHaveRefunded | server/tbank.ts:929-938 | A failure whose money is back with the rider |
| TrackDensify.InterpolateSparse | shared/rideTrack.ts:58-79 | The nested loops compute the specified track |
| TrackDensify.SamplesSurvive | shared/rideTrack.ts:51-57 | Every sample is in the output, in its place |
| TrackDensify.NewPointsLieOnChords | shared/rideTrack.ts:73-76 | Every other point lies on the chord of two neighbouring samples, where its time puts it |
| TrackDensify.OutputIsWellSpaced | shared/rideTrack.ts:51-57 | Every gap of the output is below two steps or a real one |
| TrackDensify.OrderIsKept | shared/rideTrack.ts:51-57 | A track in order of time stays so |
| TrackDensify.RealGapsSurvive | shared/rideTrack.ts:35-39 | As many real gaps come out as went in |
| TrackDensify.DensifyingIsIdempotent | shared/rideTrack.ts:58-79 | Densifying twice is densifying once, for any step |
| Base64.DecodeUndoesEncode | server/crypto/payment-tokens.ts:78-78 | Decoding undoes encoding for every byte string |
| PaymentTokens.DecryptUndoesEncrypt | server/crypto/payment-tokens.ts:72-98 | Decrypting undoes encrypting for every string and nonce |
| PaymentTokens.ReadingIs | server/crypto/payment-tokens.ts:85-98 | Reading a stored token gives nothing for an absent one, itself for one stored as it is, and for a sealed one what the cipher opens, or an exception |
| PaymentTokens.PaymentMethods.EncryptLegacyPaymentTokens | server/db/bootstrap.ts:221-251 | The loop seals the selected rows, leaves the others and counts them |
| PaymentTokens.EncryptRow | server/db/bootstrap.ts:231-247 | The columns one row's UPDATE writes |
| PaymentTokens.BackfillKeepsTokens | server/db/bootstrap.ts:215-251 | Each row, half-sealed ones included, keeps what its tokens decrypt to, gets the matching lookup hash for each token sealed, and is not selected again |
| PaymentTokens.CountIsOfRows | server/db/bootstrap.ts:215-251 | The count reported is the number of rows with a token still to seal |
| PaymentTokens.BackfillRunsOnce | server/db/bootstrap.ts:218-220 | A second run changes no row |
| StreamLimiter.LimiterState.Handle | server/http/stream-limits.ts:7-20 | A request that opens a stream is admitted exactly when its key is below its limit (12 for an account, 300 for an address) and the total below 1200; what the counters then mean is `CountsAreLiveStreams` |
| StreamLimiter.LimiterState.Release | server/http/stream-limits.ts:21-27 | The first closing event of a stream lowers its key's count, dropping the key at zero, and the total; later ones change nothing |
| StreamLimiter.KeysAgreeIff | server/http/stream-limits.ts:10-10 | Two requests are counted together exactly when they are of one account, or of none and one address |
| StreamLimiter.StreamPathIff | server/http/stream-limits.ts:3-3 | Which paths are streams |
| StreamLimiter.CountsAreLiveStreams | server/http/stream-limits.ts:4-33 | After any requests and repeated closing events, each count is the number of live streams of its key, absent exactly when zero, and no limit is exceeded |
| StreamLimiter.AdmittedIff | server/http/stream-limits.ts:9-16 | At any time a stream request is admitted exactly when fewer than 12 (300) streams of its account (address) and fewer than 1200 in all are live; a rejection changes nothing |
| StreamLimiter.TotalIsSumOfCounts | server/http/stream-limits.ts:5-6 | The total is the sum of the counts |
| StreamLimiter.ReleasedOnce | server/http/stream-limits.ts:21-30 | The counters are lowered exactly once for each stream no longer live |
| ParkingCode.NextParkingCode | shared/schema.ts:627-633 | For any list of ids the search ends after at most one candidate more than there are ids, with the smallest number whose code nobody uses in any letter case |
| ParkingCode.CodeReads | shared/schema.ts:627-633 | A code reads as the city's letter, a dash, and the number with at least two digits |

## Left out

- The charge handlers appear twice: as steps of a transition system on values, because their
  interleaving is the subject, and as methods of `ChargeServer.Server`, one for each stretch of
  code between two awaits.
- The methods of `ChargeServer.Server` for single stretches require the handler to stand where a
  valid state lets it stand; `Resume`, `Handle` and `Serve` require and keep `Valid` alone.
- Orders written by anything but the ride payment code (wallet top-ups, card binding), the
  payments ledger, alerts and pushes, and the cache of SBP banks are not modelled.
- SHA-256, HMAC, AES-GCM and the sealing's UTF-8 are parameters; the laws assumed of them are that
  opening undoes sealing, that an authentication tag has 16 bytes, and that decoding undoes
  encoding of text. Key derivation and its warning are not modelled.
- Strings hold no lone surrogates, which a notification's token could.
- `toUpperCase`, `toLowerCase` and `trim` act on ASCII letters and blanks; keys of signed messages
  are compared by code point, which is the runtime's order outside the surrogate range.
- Base64.Decode: accepts the canonical form only, where the runtime skips characters it does
  not know; a stored value it rejects would fail its authentication tag.
- TrackDensify.InterpolateSparse: coordinates are exact reals and times integers, so that the
  source's rounding of an interpolated time is exact; floating-point error is not modelled.
- LockTrack.Poll: rows become visible in id order and do not change; transport errors and aborted
  polls, after which the client keeps its previous track, are not modelled.
- BootRepair.Database.Repair: the same statement for reservations, the contact indexes and the
  creation of the indexes themselves are left out.
- RideClock.RideRow.Pause: is the write itself; a bike with a smart lock only arms it, and the lock's
  own report performs it later.
- The 32-bit column of `totalPausedMs`, the wallet debit of an extension, geofences and locks at
  start and end of a ride are not modelled.
- RideStream.LastStateWins: a push that fails or finds its session invalid promises nothing until
  the next trigger; heartbeat frames are triggers but not snapshots.
- TbankRefund.RefundIsSafe: the acquirer reports a settled status only when nothing is
  outstanding, and partial refunds do not occur.
- The PARTIAL_REFUNDED status, one of the settled statuses, therefore never meets outstanding money.
- HTTP, timers, SMS, e-mail, OAuth, push delivery, the React client, floating-point geography and
  the choice between tracker and phone track (`chooseTrackSource`, `mergeRideTrack`) are left out.
