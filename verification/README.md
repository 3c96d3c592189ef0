# A verified model of the cleaning-booking platform

The platform offers a booked cleaning to one contractor at a time, charges the customer when a contractor accepts,
and assigns the contractor once the charge has succeeded. This project models the parts of it where state, money
and the clock interact, and proves what those parts promise.

## How it is built

- **Values and steps.** `Domain` and `Worlds` hold the stored rows. `Protocol` describes the transactions as steps from
  a database value to the next, with one clock reading: create, dispatch, accept, decline, the sweep's conditional
  update, reschedule, start a charge, settle it, confirm it. Where the code reads first and writes later, and others that
  take no common lock can commit in between, the two statements are two steps, and the database remembers what has been
  read: the list of open offers of a cancellation, the row a price save compares with, the quote a request has found.
  While a cancellation is between its statements it holds the lock of its booking, and a step that needs the lock does
  nothing until it is free. Other steps issue quotes, let the clock move, and let people and administrators edit accounts
  (deleted ones included) and contractors move; no account, profile or quote is ever removed. A run is any sequence of
  steps. `Frames` says which tables each step may write.
- **Services.** `Databases.Database` holds the tables as fields. `DispatchService`, `OfferService`, `BookingService`,
  `PaymentService`, `Redispatch`, `ExpirySweep`, `Cancellation` and `AccountDeletion` update them statement by statement;
  every method is proved to do exactly what its step, or a named run of steps, does. `Interleaving` lets any transactions
  commit between the statements of a worker.
- **Theorems.** `Safety` has the invariant that every step keeps; `History` what can change between two moments of a run;
  `Cancellation` and `ConcurrentDeletion` what others can do in between; `Provenance` ties every price to the moment of
  the run at which it was made; `Responses`, `PaymentRules` and `Invoices` say what the operations achieve together;
  `Scenarios` and `Races` have small runs that reach the situations spoken of.
- **Kernels.** `Otp`, `AdminLockout`, `Quotes`, `PricingHistory`, `InvoiceNumbers`, `Scheduling`, `TravelPricing` and
  `Abn`.

What the code does not compute itself is a parameter: distances, coordinates, the live catalogue total, whether an SMS
was delivered, whether a password or code matches, who owns a property, what a price save wants to store, which dispatch attempts raise (those without a
reading), and which transactions interleave with a sweep. Contractor profiles
are one-to-one with accounts, so an account number names both. Offer ids come from a counter and are never reused.
Money is in whole cents, travel fees in thousandths of a cent until the single rounding, distances in thousandths of
a kilometre, time in microseconds; all integers are unbounded.

## What the proofs found

- Once the invariant holds, several checks never decide anything: acceptance's checks on the booking's status, on other
  reservations, on the visit time and on one's own booking (`Responses.AcceptExactly`), and rescheduling's check for a
  paid booking (`Safety.ReschedulableIsUnpaid`). The comment on the latter says acceptance sets the dispatch status to
  ASSIGNED; the code does that at confirmation only, and the check is redundant all the same.
- The comment on rescheduling says a contractor who was offered the booking is excluded for good; the code excludes him
  for the current round only, and the model follows the code.
- An account with no reported blocker can still be refused deletion, in exactly five situations, each reached by a run in
  `Scenarios`: an offer that has lapsed but was not swept yet, a refunded payment on a booking still pending, a changed
  role on either side, and a dispatch attempt that raises after a refusal.
- A deleted account is not beyond reach: an administrator can activate it in the user list. It is offered work again
  only after a moment at which it is active and its profile available; a run shows that both edits together do it.
- A cancellation closes the offers it has read as open without asking for their status again, and the sweep takes no
  booking lock. So a closed offer can change after all: one the sweep times out between the two statements ends as
  BOOKING_CANCELLED with the moment of the cancellation, against the comment at apps/bookings/models.py:463. That is the
  only way (`Cancellation.ClosedOfferChangesIff`, `Cancellation.RewrittenIff`), and a run in `Races` takes it.
- Two saves of the price configuration that read the same row store their prices under one version. One version names one
  set of prices if and only if every save writes before another has moved the version, or after one has moved it to the
  very prices it is about to store (`PricingHistory.VersionNamesPricesIff`, `Provenance.PricesAlongTheRun`). After such an
  overlap the ceiling guard can fire for a quote of the current version; a run in `Races` shows it.
- A quote is checked for earlier use when it is looked up, not when it is booked. Two requests that look it up before
  either books both get their booking (a run in `Races`); each quote makes at most one booking if and only if every
  booking finds its quote still unused (`Provenance.OneBookingPerQuoteIff`).
- The comment at apps/payments/services/payments.py:226-228 says the PROCESSING record is committed before the provider
  is called. The decorator on the function (line 215) makes both one transaction, and the model follows the code: the
  first answer is part of the charge step.
- A cancelled booking can come to hold a succeeded payment if and only if it had the record of a failed charge when its
  cancellation began; nobody is ever assigned to it.
- A deletion that others interleave with can leave an open offer to the deleted account: one made after the deletion had
  read its list, while the account was still in dispatch for everybody else, or one the account accepted after the
  blockers had been checked. There is no other way (`ConcurrentDeletion.OpenOffersLeft`).
- The announced next opening is the first open instant exactly when the opening time is a whole minute, because seconds
  are dropped from it.
- The straight-line pre-filter changes the candidate list exactly when the road of an otherwise admissible contractor is
  reported shorter than the straight line and the limit lies between the two; a run shows it.

## Model

| member | source | states |
|---|---|---|
| Safety.NextKeepsInv | apps/bookings/services/dispatch.py:222-366 | every step of the protocol keeps the whole invariant: one engaged offer a booking, no contractor twice in a round, close reasons exactly on closed offers, totals under the ceiling, earnings equal to totals, charges equal to the reserving offer's total, assignments only on confirmed bookings; and the list of every cancellation in progress covers the open offers of its booking, and beyond them only some that have timed out since |
| Safety.RunKeepsInv | apps/bookings/services/offers.py:168-323 | the invariant holds after every run of steps, in any order |
| Safety.AssignKeepsInv | apps/bookings/services/dispatch.py:223-366 | a dispatch attempt keeps the invariant and changes nothing about any other booking |
| Safety.AcceptKeepsInv | apps/bookings/services/offers.py:169-242 | acceptance keeps the invariant: it never makes a second holder |
| Safety.DeclineKeepsInv | apps/bookings/services/offers.py:290-323 | refusal with its cascade keeps the invariant and touches only the offer's booking |
| Safety.ExpireKeepsInv | apps/bookings/tasks.py:52-60 | the conditional update of the sweep keeps the invariant, whatever moment it stamps |
| Safety.CreateKeepsInv | apps/bookings/services/bookings.py:226-359 | creation keeps the invariant for every request |
| Safety.RescheduleKeepsInv | apps/bookings/services/bookings.py:420-499 | rescheduling keeps the invariant, and afterwards nobody counts as having been offered the booking |
| Safety.RescheduleDeletesNothingEngaged | apps/bookings/services/bookings.py:446-473 | the offers that rescheduling deletes are neither answerable nor holding the booking |
| Safety.ReschedulableIsUnpaid | apps/bookings/services/bookings.py:587-629 | a pending booking marked NO_CONTRACTOR has no payment and no assignee, so the last two checks never refuse |
| Safety.CancelKeepsInv | apps/bookings/services/bookings.py:511-584 | a cancellation with nothing in between keeps the invariant and touches only its booking |
| Safety.FinishKeepsInv | apps/bookings/services/bookings.py:550-563 | the closing update of a cancellation keeps the invariant and touches only its booking, whatever has become of the offers on its list |
| Safety.ChargeKeepsInv | apps/payments/services/payments.py:215-264 | opening a charge keeps the invariant: the amount is the reserving offer's frozen total, whatever the provider answers |
| Safety.SettleKeepsInv | apps/payments/services/payments.py:476-656 | retries, their answers, confirmed actions, provider reports, reconciliations and refunds keep the invariant: the amount stays the frozen total |
| Safety.ConfirmKeepsInv | apps/payments/services/payments.py:368-457 | confirmation keeps the invariant: the assignee, price and version are those of the one reserving offer |
| Safety.ReservingIsUnique | apps/payments/services/payments.py:205-212 | a reserved booking has exactly one reserving offer, so taking the first one is well defined |
| Safety.ChosenIsAdmissible | apps/bookings/services/dispatch.py:61-78 | the contractor chosen was not offered the booking in this round, is not its customer, and passes the account checks |
| Safety.TimePasses | apps/bookings/models.py:617-634 | the passage of time alone never breaks the invariant |
| History.ReachedIsSafe | apps/bookings/services/dispatch.py:222-366 | every database reachable from the empty one satisfies the invariant, and its offers go to listed contractors |
| History.OneOfferAtATime | apps/bookings/services/dispatch.py:247-258 | in every reachable state two offers of one booking that are answerable or holding it are the same offer |
| History.RunEvolves | apps/bookings/models.py:463-606 | over any run frozen terms never change, closed offers never reopen and stay as they are unless their booking's cancellation rewrites a timed-out one, confirmed and cancelled bookings never change, quotes stay as issued, and amounts charged and moments of payment stay |
| History.CancellationIsFinal | apps/bookings/services/bookings.py:528-563 | after a cancellation no run changes the booking, adds or changes an offer of it, or leaves one open |
| History.LeavesPendingOnce | apps/bookings/tasks.py:49-67 | an offer leaves PENDING at most once in any run, whoever moves it |
| History.ExpiryTouchesOnlyPending | apps/bookings/tasks.py:52-60 | the conditional update changes at most its own offer, only from PENDING, to EXPIRED as timed out, and doing it twice is doing it once |
| History.NoOfferLost | apps/bookings/services/bookings.py:471-473 | no step except rescheduling that booking deletes an offer |
| History.NewOfferIsNew | apps/bookings/services/dispatch.py:61-78 | every offer created goes to a listed contractor who had none in this round |
| History.MeasureShrinks | apps/bookings/services/dispatch.py:61-78 | the set of contractors not yet offered never grows between reschedules and shrinks with every new offer |
| History.CascadeTerminates | apps/bookings/services/dispatch.py:222-366 | between reschedules a booking is offered at most as often as there are contractors left to ask |
| DispatchService.FindAll | apps/bookings/services/dispatch.py:137-219 | the search loop returns the sorted list of the specification, with the same elements as the unsorted one |
| DispatchService.Propose | apps/bookings/services/dispatch.py:288-366 | the offer written is priced and dated as specified, or the ceiling guard leaves everything as it was |
| DispatchService.Assign | apps/bookings/services/dispatch.py:222-366 | the transaction computes exactly the dispatch step |
| DispatchService.OfferLifetime | apps/bookings/services/dispatch.py:318-323 | a new offer is answerable from the moment it is made until its time is up or the visit begins, whichever is first |
| DispatchService.NearestIsCheapest | apps/bookings/services/dispatch.py:289-305 | no admissible contractor could have been offered the booking at a lower total |
| DispatchService.DecideIsLocal | apps/bookings/services/dispatch.py:241-262 | what an attempt decides depends only on the rows of its own booking, accounts, profiles and prices |
| DispatchService.AttemptDispatches | apps/bookings/services/dispatch.py:223-366 | an attempt leaves its booking exactly as decided: untouched, marked, or with the decided offer and nothing else |
| DispatchService.AttemptsConclude | apps/bookings/services/dispatch.py:241-286 | after any attempt the booking has a live offer, is held, is marked NO_CONTRACTOR, is no longer pending, or met the ceiling |
| Redispatch.RedispatchStranded | apps/bookings/services/dispatch.py:376-410 | with any transactions between its attempts, a pass attempts every booking stranded at its start once and nothing else, and counts the attempts that did not raise |
| Redispatch.QuietPassRescues | apps/bookings/services/dispatch.py:376-410 | undisturbed, a pass leaves every stranded booking that no cancellation holds as one attempt on it makes it, and no other booking changes |
| Redispatch.QuietPassConcludes | apps/bookings/services/dispatch.py:376-410 | each of them then has a live offer, is marked NO_CONTRACTOR, or met the ceiling |
| Candidates.MeasureDistance | apps/bookings/services/dispatch.py:98-134 | a measurement is the route, or the straight line where there is no route and the deployment allows it; there is none exactly when neither holds |
| Candidates.CandidatesAreTheAdmissible | apps/bookings/services/dispatch.py:158-219 | the list holds exactly the admissible contractors of the profile table |
| Candidates.SortSorts | apps/bookings/services/dispatch.py:217-219 | the list is in order of distance and a permutation of what was gathered |
| Candidates.SortIsStable | apps/bookings/services/dispatch.py:217-219 | contractors at the same distance keep the order of the query |
| Candidates.HeadIsNearest | apps/bookings/services/dispatch.py:217-289 | the contractor offered is admissible and nobody admissible is nearer |
| Candidates.DroppedIff | apps/bookings/services/dispatch.py:198-210 | the straight-line test drops somebody the full test keeps exactly when an otherwise admissible contractor's road is within the limit and the straight line beyond it |
| Candidates.PrefilterExact | apps/bookings/services/dispatch.py:198-210 | the pre-filtered list is the plain one if and only if there is no such contractor |
| Scenarios.ShortcutIsDropped | apps/bookings/services/dispatch.py:198-210 | a run reaching a database in which the two lists differ |
| Candidates.PrefilterIsHarmless | apps/bookings/services/dispatch.py:198-210 | if no road is shorter than the straight line the pre-filtered list is the plain one, in the same order |
| OfferService.Accept | apps/bookings/services/offers.py:168-242 | the transaction computes exactly the acceptance step, with its result |
| OfferService.Decline | apps/bookings/services/offers.py:289-323 | the transaction, cascade included, computes exactly the refusal step; a cascade that raises rolls it back |
| Responses.AcceptExactly | apps/bookings/services/offers.py:169-242 | acceptance succeeds if and only if an eligible contractor answers an offer addressed to him that is answerable or already held |
| Responses.DeclineExactly | apps/bookings/services/offers.py:290-323 | refusal succeeds if and only if an eligible contractor answers an answerable offer addressed to him and the dispatch attempt that follows does not raise |
| Responses.DeclinePassesOn | apps/bookings/services/offers.py:302-323 | after a refusal the booking has a live offer to somebody else, is marked NO_CONTRACTOR, or met the ceiling |
| Responses.CancelClosesOffers | apps/bookings/services/bookings.py:537-563 | a cancellation with nothing in between closes exactly the open offers of its booking, with the reason BOOKING_CANCELLED and the moment |
| Cancellation.Cancel | apps/bookings/services/bookings.py:528-563 | with any steps of others between its two statements, a cancellation is exactly its first step, those steps, and its second step; a refused one is its first step only |
| Cancellation.FinishCloses | apps/bookings/services/bookings.py:550-563 | the second statement closes exactly the offers on the list, leaves none of the booking open, and touches no other booking |
| Cancellation.RunWaits | apps/bookings/services/bookings.py:531-556 | until then the lock and the list are kept, the booking does not change, and its offers change only by sweeps that time out lapsed pending ones |
| Cancellation.ClosedOfferChangesIff | apps/bookings/services/bookings.py:551-556 | a step changes a closed offer if and only if it is the second statement of a cancellation that has the offer on its list |
| Cancellation.RewrittenIff | apps/bookings/services/bookings.py:543-556 | from first statement to last a cancellation closes exactly the offers open at its start, and it overwrites a closed one if and only if a sweep closed that one in between, after its time was up |
| Cancellation.NothingLeftToDo | apps/bookings/services/bookings.py:531-536 | whoever waited for the lock changes nothing about a cancelled booking or its offers, and nothing at all unless it settles a charge |
| Races.SweptOfferIsOverwritten | apps/bookings/tasks.py:52-60 | a run in which a cancellation overwrites the reason of an offer a sweep has timed out |
| Responses.RescheduleStartsOver | apps/bookings/services/bookings.py:446-499 | a rescheduled booking has no offers, its next dispatch is not skipped, and its time is open and still to come |
| Responses.CreationKeepsHours | apps/bookings/services/bookings.py:298-302 | the time of a new booking is open, and a planned visit lies ahead, beyond the lead time |
| Responses.CreationStartsSearch | apps/bookings/services/bookings.py:313-330 | a new booking has no offers, its first dispatch is not skipped, and it carries the quote that was looked up, the customer's own for this property, which is now used and sets its ceiling |
| History.OffersGoToDifferentPeople | apps/bookings/models.py:601-605 | no two offers of a booking are addressed to one contractor |
| BookingService.CreateQuote | apps/bookings/services/quotes.py:150-196 | the request is refused for the first check it fails; otherwise the stored quote has the frozen lines, their sum, the announced maximum under the current configuration, and its expiry |
| BookingService.FindQuote | apps/bookings/services/quotes.py:202-228 | the look-up computes exactly its step, every refusal in order |
| BookingService.Create | apps/bookings/services/bookings.py:226-359 | the transaction computes exactly the creation step, every refusal in order, with the quote as it was looked up |
| BookingService.Reschedule | apps/bookings/services/bookings.py:419-508 | the transaction computes exactly the rescheduling step |
| BookingService.BeginCancelling | apps/bookings/services/bookings.py:528-549 | the checks and the list of open offers are exactly the first step of a cancellation |
| BookingService.FinishCancelling | apps/bookings/services/bookings.py:550-563 | the update of the listed offers and of the booking is exactly the second step |
| BookingService.Cancel | apps/bookings/services/bookings.py:511-584 | both with nothing in between are the whole cancellation at once |
| PaymentService.Charge | apps/payments/services/payments.py:215-264 | the transaction, first answer included, computes exactly the charge step |
| PaymentService.Settle | apps/payments/services/payments.py:476-656 | each event moves the record exactly from the statuses and to the status that the code allows |
| PaymentService.Confirm | apps/payments/services/payments.py:368-457 | the transaction computes exactly the confirmation step |
| PaymentRules.CleanIsExact | apps/payments/models.py:160-221 | in a consistent database an amount passes validation if and only if exactly one offer reserves the booking and its total is that amount |
| PaymentRules.ChargePassesClean | apps/payments/services/payments.py:234-254 | the charge opened after an acceptance always passes validation |
| PaymentRules.RetryKeepsAmount | apps/payments/services/payments.py:490-528 | the amount a retry writes is the amount already on the record, and passes validation |
| PaymentRules.ConfirmedMoneyAgrees | apps/payments/services/payments.py:412-440 | on a confirmed booking price, charge, offer total and earnings are one amount under the ceiling, and assignee and version are the offer's |
| PaymentRules.ConfirmIsIdempotent | apps/payments/services/payments.py:379-396 | a repeated provider event changes nothing |
| PaymentRules.AcceptIsIdempotent | apps/bookings/services/offers.py:193-198 | a repeated acceptance succeeds and changes nothing |
| PaymentRules.SecondAcceptanceFails | apps/bookings/services/offers.py:211-215 | after one acceptance no other offer of the booking can be accepted |
| PaymentRules.LateSuccessIsNeverAssigned | apps/payments/services/payments.py:398-407 | a success reported after the cancellation of a failed charge stays on the cancelled booking, and no later run assigns anybody |
| PaymentRules.LateSuccessIff | apps/payments/services/payments.py:626-642 | after a cancellation, whatever came between its statements, some run brings a succeeded payment to the booking if and only if it had the record of a failed charge when the cancellation began |
| Interleaving.UpdateIfPending | apps/bookings/tasks.py:52-64 | the update reports whether this worker closed the offer |
| ExpirySweep.StaleUpdateIsLegal | apps/bookings/tasks.py:45-60 | however stale the list, the update does what the conditional step does at that moment |
| ExpirySweep.StaleUpdateSettles | apps/bookings/tasks.py:49-67 | after its update a listed offer is settled, and if this worker moved it that was its only departure |
| ExpirySweep.ExpirePendingOffers | apps/bookings/tasks.py:29-88 | with any transactions and other sweeps between its statements, a sweep is exactly one conditional update for each offer it read, then one attempt for each booking whose offer it closed itself, then one for each booking stranded by then; it reports the offers it closed, the offers made and the rescues that did not raise |
| ExpirySweep.SweepSettles | apps/bookings/tasks.py:49-67 | every offer the sweep read ends settled, and each one it reports left PENDING exactly once, in this run |
| ExpirySweep.FollowUpConcludes | apps/bookings/tasks.py:69-80 | right after its attempt a booking whose offer the sweep closed is exactly as the attempt decided, and its search is concluded for now; while a cancellation holds the booking the attempt waits |
| ExpirySweep.LaterSweepsSkipTheSettled | apps/bookings/tasks.py:45-47 | no later sweep lists an offer this one listed |
| AccountDeletion.DeletionBlockers | apps/accounts/services/account_deletion.py:66-106 | the report holds exactly the confirmed unfinished bookings, started charges, accepted or unfinished jobs and payouts due |
| AccountDeletion.CancelOwn | apps/accounts/services/account_deletion.py:154-156 | once the locks are free, the first loop gets through if and only if every pending booking may be cancelled, and then exactly those are cancelled as one cancellation would |
| AccountDeletion.DeclineAll | apps/accounts/services/account_deletion.py:158-167 | the second loop gets through if and only if every pending offer may be refused and no attempt raises; then each is passed on, none is open, and no other booking has changed |
| AccountDeletion.DeleteAccount | apps/accounts/services/account_deletion.py:125-196 | once the locks it needs are free, deletion succeeds if and only if Deletable holds at the start; a refusal changes nothing; success cancels the account's own pending bookings, passes on every offer it was asked about, erases its row, withdraws its profile, and changes nothing else |
| AccountDeletion.DeletionCloses | apps/accounts/services/account_deletion.py:150-189 | after a deletion with nothing in between the account is deleted, has no pending booking, no open offer, and is out of dispatch |
| ConcurrentDeletion.OpenOffersLeft | apps/accounts/services/account_deletion.py:149-189 | after a deletion with others in between, and until somebody reinstates the account, an open offer to it was there at the commit, and was either made after the list of pending offers was read, while others still saw the account in dispatch, or accepted by it between the check for blockers and the list |
| ConcurrentDeletion.OwnBookingsLeft | apps/accounts/services/account_deletion.py:154-156 | a booking of the account still pending afterwards was made after the list of pending bookings was read |
| Races.OfferToADeletedAccount | apps/accounts/services/account_deletion.py:158-189 | a run in which a dispatch before the commit leaves an open offer to the deleted account |
| AccountDeletion.PassedOnMeans | apps/accounts/services/account_deletion.py:158-167 | each booking whose offer the deletion refused has a live offer to somebody else, is marked NO_CONTRACTOR, or met the ceiling |
| AccountDeletion.UnreportedObstacles | apps/accounts/services/account_deletion.py:66-167 | without blockers a deletion still fails in exactly five situations |
| Scenarios.LapsedOfferPreventsDeletion | apps/accounts/services/account_deletion.py:158-167 | a run after which a lapsed, unswept offer prevents a deletion without blockers |
| Scenarios.RaisingAttemptPreventsDeletion | apps/bookings/services/offers.py:320-323 | a run after which a raising dispatch attempt prevents a deletion without blockers |
| Scenarios.LostAccessPreventsDeletion | apps/bookings/services/offers.py:72-77 | a run after which lost contractor access prevents a deletion without blockers |
| Scenarios.ChangedRolePreventsDeletion | apps/bookings/services/bookings.py:127-132 | a run after which a changed role of the customer prevents a deletion without blockers |
| Scenarios.RefundPreventsDeletion | apps/accounts/services/account_deletion.py:87-89 | a run after which a refunded payment prevents a deletion without blockers |
| AccountDeletion.OwnOffersSpared | apps/accounts/services/account_deletion.py:154-167 | cancelling one's own bookings leaves every offer addressed to oneself as it was |
| AccountDeletion.OfferedIsReinstated | apps/bookings/services/dispatch.py:160-170 | whoever is offered work at a step is active and available in the database before it |
| AccountDeletion.ClosedNeedsReinstating | apps/accounts/admin.py:358-370 | a run that brings an account a new offer, if it could not be offered work at the start, as a closed one cannot, passes through a moment at which it is active and available again |
| AccountDeletion.ReinstatingIsAnEdit | apps/accounts/admin.py:358-370 | only an edit of accounts or profiles brings such a moment about |
| Scenarios.ReinstatedIsOfferedAgain | apps/accounts/admin.py:358-370 | a run in which a closed account is activated and made available, and offered work |
| Invoices.BuildInvoice | apps/aftercare/services/aftercare.py:344-374 | the lines are the services, then the fee if any, then the rounding if any, and they add up to what was paid |
| Provenance.EveryOfferHasItsMoment | apps/bookings/services/dispatch.py:298-343 | every stored offer of a reachable database was priced at a moment of the run, under the configuration in force then, from the services total its quote froze |
| Provenance.EveryQuoteHasItsMoment | apps/bookings/services/quotes.py:170-186 | every quote on file was issued at a moment of the run, its ceiling the maximum under the configuration in force then |
| Provenance.RunKeepsQuotes | apps/bookings/models.py:668-674 | over any run a booking's quote stays on file unchanged, is the customer's own for that property, and sets the ceiling |
| Provenance.UsedMeanwhileIff | apps/bookings/api/bookings.py:239-270 | a quote found unused is used by the time of the booking if and only if another request booked from it in between |
| Provenance.OneBookingPerQuoteIff | apps/bookings/services/quotes.py:219-221 | along a run each quote makes at most one booking if and only if every booking from a quote finds it still unused |
| Races.TwoBookingsFromOneQuote | apps/bookings/api/bookings.py:239-270 | a run in which two requests book from one quote |
| Provenance.SecondUseFails | apps/bookings/services/quotes.py:219-221 | after a booking from a quote every later look-up of it is refused, in every run |
| Provenance.PricesAlongTheRun | apps/services/models.py:248-274 | along a run from nothing versions never go back and an unchanged version means unchanged prices, from any moment to any later one, if and only if no save is overtaken by one that changes prices |
| Provenance.GuardNeedsNewVersion | apps/bookings/services/dispatch.py:298-316 | in every database reached without an overtaken save the ceiling guard cannot fire for a booking whose quote has the current version |
| Races.GuardFiresUnderItsOwnVersion | apps/services/models.py:261-274 | a run with an overtaken save after which it does |
| Invoices.RoundingLineIsTheResidue | apps/aftercare/services/aftercare.py:353-374 | in every reachable database the Rounding line of a confirmed quoted booking is the residue of the rounding made when its accepted offer was priced, under the configuration in force at that moment |
| Invoices.RoundingLineIsSmall | apps/aftercare/services/aftercare.py:368-374 | if the configuration the accepted offer was priced under rounded to the cent there is no Rounding line, otherwise it is at most half its step and half a cent |
| Invoices.CentRoundingNeedsNoLine | apps/aftercare/services/aftercare.py:368-374 | while prices are rounded to the cent throughout a run, no invoice of a quoted booking has a Rounding line |
| InvoiceNumbers.InvoiceRegister.NextInvoiceNumber | apps/aftercare/services/aftercare.py:304-309 | the number is one past the year's counter, which moves to it |
| InvoiceNumbers.InvoiceRegister.BeginGetOrIssue | apps/aftercare/services/aftercare.py:329-333 | the look-up answers with an existing invoice or that there is none to have, or leaves the call to issue one |
| InvoiceNumbers.InvoiceRegister.EndGetOrIssue | apps/aftercare/services/aftercare.py:335-341 | the call counts and inserts; if another call was faster its counter is rolled back and it answers with that invoice |
| InvoiceNumbers.SeriesIsGapFree | apps/aftercare/services/aftercare.py:321-341 | however the halves of calls interleave, the numbers of each year are exactly 1 to its counter, one booking each, and issued numbers and given answers stay |
| InvoiceNumbers.CallsAgree | apps/aftercare/services/aftercare.py:335-341 | two calls for one booking never answer with different numbers |
| InvoiceNumbers.PrintRoundTrip | apps/aftercare/services/aftercare.py:301-309 | the printed form can be read back, beyond six digits too |
| InvoiceNumbers.PrintedNumbersDiffer | apps/aftercare/models.py:107-118 | two bookings never share a printed number |
| Quotes.AcceptedIffFreezable | apps/bookings/services/bookings.py:169-219 | a selection is accepted exactly when it is not empty and every entry is well formed, known and, unless quoted before, active |
| Quotes.EarliestDecides | apps/bookings/services/quotes.py:98-128 | within a check the first entry to fail decides the error |
| Quotes.FreezeSelections | apps/bookings/services/quotes.py:88-144 | freezing succeeds if and only if the selection is acceptable; the lines are the catalogue's and the total is their sum |
| PricingHistory.PricingTable.BeginSave | apps/services/models.py:259-261 | the first half of a save remembers the row it read, and changes nothing else |
| PricingHistory.PricingTable.EndSave | apps/services/models.py:262-274 | the second half stores the row that the version rule prescribes for the row read, whatever is stored by then |
| PricingHistory.VersionNamesPricesIff | apps/services/models.py:233-274 | over any history of interleaved saves versions never decrease and one version has one set of the five prices if and only if every save writes before another has moved the version, or after one has moved it by one to the same prices |
| PricingHistory.OverlapBreaksVersions | apps/services/models.py:259-274 | two saves that read the same row store any two different sets of prices under one version |
| PricingHistory.PricesDecideTotals | apps/services/models.py:230-239 | configurations that agree on the five fields compute the same totals |
| TravelPricing.RoundingIsMonotone | apps/services/services/travel_pricing.py:96-111 | rounding never reverses an order |
| TravelPricing.FeeGrowsToItsCap | apps/services/services/travel_pricing.py:77-93 | the fee grows with the distance, never exceeds the cap, and, where a price and a cap are set, is nothing exactly inside the included distance |
| TravelPricing.NearerIsCheaper | apps/services/services/travel_pricing.py:114-143 | a nearer contractor is never dearer, rounding included |
| TravelPricing.FinalTotalWithinMaximum | apps/services/services/travel_pricing.py:114-157 | one configuration never charges above the maximum it announces, at any distance |
| TravelPricing.ResidueBound | apps/services/services/travel_pricing.py:114-143 | total, services and fee agree to the cent under cent rounding, and within half a step and half a cent otherwise |
| Otp.OtpService.GenerateAndSend | apps/accounts/services/otp.py:270-326 | the request computes exactly the issuing step; a failed delivery rolls everything back |
| Otp.OtpService.Check | apps/accounts/services/otp.py:329-411 | the check computes exactly the verification step |
| Otp.RunKeepsSound | apps/accounts/services/otp.py:227-267 | over any run: at most the daily limit of codes a phone and purpose in any closed 24 hours, at most the hourly limit an address in any closed hour, codes a cooldown apart, only the newest code open, counters within bounds |
| Otp.GuessesPerWindow | apps/accounts/services/otp.py:227-411 | in any window the guesses compared are at most M for each code sent in it, and M more |
| Otp.GuessesPerDay | apps/accounts/services/otp.py:227-411 | in any closed 24 hours at most (L + 1) * M guesses are compared |
| Otp.ClosedForEver | apps/accounts/services/otp.py:336-337 | a verified, expired or failed code never changes again |
| Otp.AcceptedAtMostOnce | apps/accounts/services/otp.py:336-337 | no code is accepted twice in any run |
| Otp.AcceptedIffNewest | apps/accounts/services/otp.py:356-398 | a guess is accepted if and only if it equals the newest code of its key, still open, unexpired and with attempts left |
| Otp.AcceptedInTime | apps/accounts/services/otp.py:300-308 | an accepted guess comes within the lifetime of its code |
| AdminLockout.AdminAccount.CheckPasswordStep | apps/accounts/services/admin_auth.py:153-195 | the password step computes exactly the lockout step |
| AdminLockout.RunKeepsSound | apps/accounts/services/admin_auth.py:174-179 | the stored counter stays below the limit in every run |
| AdminLockout.WrongGuessesAreBounded | apps/accounts/services/admin_auth.py:160-195 | in any half-open window as long as the lock, without a success or reset in it, at most max_failed wrong passwords are compared |
| Scheduling.AnnouncedExactlyWhenClosed | apps/bookings/services/scheduling.py:128-204 | no next opening is announced exactly when an immediate request is admitted |
| Scheduling.LeastOpeningIsNextStart | apps/bookings/services/scheduling.py:157-165 | while closed, the first later open instant is the next occurrence of the opening time, overnight windows included |
| Scheduling.NextOpenIsLeastIffWholeMinute | apps/bookings/services/scheduling.py:173-204 | the announced instant is the first open one if and only if the opening time is a whole minute |
| Scheduling.AnnouncedIsBookable | apps/bookings/services/scheduling.py:61-113 | the announced instant can be booked ahead if and only if it keeps the minimum lead time |
| Scheduling.WindowClosesIff | apps/services/models.py:241-246 | exactly which windows ever close; with equal times, which validation rejects, none does |
| Abn.ValidateAbnChecksum | apps/contractors/models.py:213-225 | eleven decimal digits fail exactly if their weighted sum is not divisible by 89; eleven digit characters that are not all decimal make the conversion raise; anything else is accepted |
| Abn.OneWrongDigitFails | apps/contractors/models.py:213-225 | changing any one digit of a valid number is caught |
| Abn.SwapFails | apps/contractors/models.py:213-225 | swapping any two different digits of a valid number, at any distance, is caught |

## Left out

- BookingService.Create: what is looked up about the property, the overdue review and the home details is a parameter.
- AccountDeletion.DeleteAccount: one uninterrupted run at one clock reading, after the locks it needs have become free (what others can do in between is in ConcurrentDeletion, on runs rather than on the method); of the erased identity only the status and the active flag are modelled, not properties, tokens, codes and the audit trail.
- AccountDeletion.DeletionBlockers: jobs and payouts are parameters (which bookings are completed, which payouts are due).
- PaymentService.Settle: provider references, failure reasons and partial refunds are not modelled; a reconciliation asks for PROCESSING only, while the code also asks for a recorded unknown outcome, and the confirmation it tries is a step of its own.
- AdminLockout.WrongGuessesAreBounded: serialised calls carry their clocks in order; the code reads the clock before it waits for the row lock, so calls that wait may come out of order.
- Otp.GuessesPerDay: requests are serialised, because issuing takes no lock in the code; review numbers have no daily limit and so no bound; rows removed by an account deletion are not followed.
- Otp.OtpService.GenerateAndSend: the retry-after seconds, phone normalisation, hashing and test-number configuration are abstracted away.
- Scheduling.NextOpenIsLeastIffWholeMinute: each property has one fixed offset from UTC; daylight-saving changes are not modelled.
- Great-circle distances and the directions provider: a straight-line and a route reading for each contractor instead.
- Several clock readings inside one locked transaction: code that reads the clock twice there is modelled as reading it once.
- The dispatch round: no code changes it, so it stays a fixed tag of a booking and its offers.
- Column widths and the other field checks of full_clean: amounts and texts are unbounded.
- The periodic repair: the charges it starts and the payments it confirms on pending bookings are Charge and Confirm steps; the jobs and payouts it creates, and jobs, payouts, reviews and re-cleans as such, follow a confirmation and do not feed back into the protocol.
- Hand edits of bookings, offers, payments and quotes in the admin site: only the service transactions write those tables.
- The retry loop for public references, roles and profile editing, photos, notifications, audit, the admin site and the HTTP layer: plumbing or single checks.
