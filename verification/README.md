# Chirola: voucher emission and fiscal arithmetic, verified

Chirola issues electronic vouchers through ARCA, Argentina's tax authority, and keeps the books that
follow from them. This project models the parts of its backend where a mistake would be a fiscal
mistake, and proves what they promise.

## Emission

Every sale must become one voucher in ARCA's numbering, although calls to ARCA can fail before or
after taking effect. Four services share the work: a per-issuer mutex made of chained promises
(`IssuerLock`), the conversation that obtains a CAE (`CaeRequest`), the queue of requests that got no
answer (`PendingQueue`), and the emission and retry services that tie them to the tables (`Emission`).

`Arca` is what the services face: one append-only numbering per CUIT, sales point and voucher type.
A call may be answered, lost before it took effect, or lost after; other emitters may append at any
moment. Each entry remembers the submission that appended it; ARCA does not report that, and only the
properties mention it.

`Emission` is a step system. A process is one API call or the processing of one due row; its program
counter names the statement it is about to run, and every table operation and every call to ARCA is one
step, so processes interleave at each `await`. Events outside the processes are the clock, other
emitters, arriving requests, the scheduler and the two manual actions on failed rows.
`EmissionInvariant` states one assertion per program point and what the others may do meanwhile;
`EmissionSteps`, `EmissionTalk`, `EmissionSafety` and `EmissionEvents` prove that every step keeps the
invariant and respects the others; `EmissionTheorems`, `EmissionReplies`, `EmissionAccounts`,
`EmissionProvenance` and `EmissionProgress` read the promises off it, over every run. Where a promise is not
kept, they state exactly when it is, and `EmissionLimits` and `EmissionConflicts` build the runs that break it,
with the tools of `EmissionRuns`.

## Money, books and files

Amounts that the code rounds are whole cents (`int`); amounts it has not rounded yet are exact (`real`).
`IvaCalculator` and `IvaOrder` are what ARCA is told, `TaxBreakdown` is what the books report, and
`IvaAgreement` proves that the two orders of rounding agree. `SalesBook` and `IvaPosition` group the same
vouchers in two ways, `SalesBookCsv` prints the book (`SalesBookColumns` says what a reader finds under each header),
`MisComprobantesCsv` reads ARCA's export (`PurchaseCsv` says what it makes of ARCA's notation), and
`PurchaseImport` stores what was read. `FixedWindowLimiter`, `Onboarding`, and `VoucherSchema` with
`CreditNote` and `CreditNoteTotals` are smaller machines. `Money`, `Text`, `Dates`, `VoucherTypes` and `Common` are shared vocabulary.

## What is assumed

- Table operations succeed and obey their unique keys: pending rows by (issuer, idempotency key),
  idempotency records by (issuer, key), vouchers by (issuer, sales point, type, number). A violated key
  is an exception (`Crashed`). New rows are `PENDING` with no retries.
- One process, and a clock that never goes back.
- ARCA authorizes only the next number of a series; a rejection appended nothing; an answered
  consultation reports the entry exactly when it is there, with the total and the document digits sent.
- A payload read back from the queue is the one stored, and its amounts are a fixed function of it.
  Stored decimals lose no digits.
- `findDue` may return any due rows, each once, at most a batch, and all of them when they fit.
- `new Date` of a date text takes months 1 to 12 and days 1 to 31 and carries days past the month's end into
  the next month, as Node does; anything else is no date, and storing it is an exception. (Node also finds a
  date in some texts of the years before 32; here it does not.)
- Arithmetic is exact: `Number.EPSILON` is dropped and halves round up.

## What the code does that its callers may not expect

- A retry that fails again never updates the attempted number, so a row queued without one, or whose
  number a stranger took, is requested anew on each retry: every lost reply can hide one more voucher
  (`EmissionLimits`). With an attempted number nobody else took, at most one exists.
- A sale may be issued with a voucher that is not its own. A retry recognises the voucher at its attempted
  number by total, document type and digits only, so a look-alike completes the row
  (`EmissionConflicts.ARowCompletesWithAStrangersVoucher`). After a "duplicate number" rejection the voucher found
  there is taken over whatever its total and recipient (`EmissionConflicts.AStrangersVoucherIsIssued`); it is
  then always somebody else's, who entered the series after the sale was told the last number, and that is
  the only way (`EmissionProvenance`).
- A retry that recovers a number which the issuer has stored already violates the unique voucher number. The
  exception ends the batch and leaves the row waiting without counting the attempt, so the row may be
  processed for ever; two equal sales are enough (`EmissionConflicts.EqualSalesBlockEachOther`). A number
  that was granted, or found after a "duplicate number" rejection, never causes it.
- Re-arming a failed row whose key meanwhile has a voucher, or a call about to get one, puts two emissions
  under one key: the row's retry is authorized and stored, fails on the key's record, and stays due with the
  same count, so each later batch can add one more voucher (`EmissionConflicts.SecondVouchersPileUp`).
  Without such a re-arming, one voucher per key holds in every run.
- An empty idempotency key still collides in the queue, and then the call ends with the exception of that unique
  key (`EmissionConflicts.AnEmptyKeyCrashesACall`); no other unique key ever stops a call. A failed row
  does not stop a resubmission, but is handed back as "queued" when that one has to be queued too; what the
  resubmission may have been authorized is then in no row (`EmissionConflicts.AnAuthorizationIsForgotten`).
- The service period of a voucher may name days that do not exist; stored as dates they move, and the
  draft of its credit note may be refused (`CreditNote.AnAcceptedVoucherWhoseDraftIsRefused`).
- The draft of a credit note carries no tributes, so the note leaves its voucher's tribute uncancelled in the
  tribute column and in the total (`CreditNoteTotals.ATributeIsNotCancelled`). In a foreign currency a total that
  comes to a half cent of pesos is not cancelled either, for halves go up on both sides of zero
  (`CreditNoteTotals.AHalfCentIsNotCancelled`). Net, exempt, untaxed and IVA columns always cancel.
- The reader of purchases takes any digits for a date, and an import stores its rows one by one: a row whose date
  the calendar does not take, such as "01/13/2026", ends the import with an exception after the rows before it
  were stored, and a day past its month's end is stored as a day of the next month.
- An import checks rows against what was stored before it started, not against each other: it stores an
  invoice twice exactly when two of the rows it stores have one key.
- Quoting protects the columns of the sales book's CSV, not its lines: a line break inside a cell splits the
  row for whoever reads the text line by line, as the importer does.

## Model

| member | source | states |
|---|---|---|
| IssuerLock.EntersExactlyInTurn | services/api/src/vouchers/issuer-lock.service.ts:7-24 | a waiting task may start exactly when every earlier task of its own key has finished; other keys never matter |
| IssuerLock.RunKeepsInv | services/api/src/vouchers/issuer-lock.service.ts:7-24 | order, promise chain and tails map stay consistent in every interleaving of arrivals, entries and completions |
| IssuerLock.MutualExclusionInArrivalOrder | services/api/src/vouchers/issuer-lock.service.ts:7-24 | in every interleaving at most one task of a key runs, and only after all earlier ones of that key are done |
| IssuerLock.ArriveEnqueues | services/api/src/vouchers/issuer-lock.service.ts:8-14 | arriving joins the end of one key's FIFO queue and touches no other key |
| IssuerLock.EnterIsForTheHead | services/api/src/vouchers/issuer-lock.service.ts:15-17 | the awaited promise resolves exactly for the head of the key's queue |
| IssuerLock.LeaveDequeues | services/api/src/vouchers/issuer-lock.service.ts:18-23 | finishing, returned or thrown, removes just the head of one queue |
| IssuerLock.TailsTrackTheQueue | services/api/src/vouchers/issuer-lock.service.ts:20-22 | `tails` holds a key exactly while it has a holder or waiter, and then the last of them |
| IssuerLock.IssuerLockService.ArriveAt | services/api/src/vouchers/issuer-lock.service.ts:8-15 | up to the await: the new ticket is last in its key's queue |
| IssuerLock.IssuerLockService.Start | services/api/src/vouchers/issuer-lock.service.ts:15-17 | the await resumes: the first waiter becomes the holder |
| IssuerLock.IssuerLockService.Release | services/api/src/vouchers/issuer-lock.service.ts:18-23 | the finally block removes the head of the queue and forgets a key nobody waits for |
| Arca.Gateway.Exchange | services/api/src/vouchers/cae-request.service.ts:92-190 | one call to ARCA as its client sees it: others may append before, the reply may be lost after the effect, nothing is ever removed |
| Arca.MatchesWhatItWouldEcho | services/api/src/vouchers/cae-request.service.ts:37-47 | a consulted voucher passes for the sale's own exactly when ARCA may report it of a voucher with the data sent: the same total to the cent, kind of document and digits |
| CaeRequest.RequestIsFaithful | services/api/src/vouchers/cae-request.service.ts:143-159 | a CAE request that is granted, lost or refused appends at most its own entry, at the number reported |
| CaeRequest.CaeRequestService.RecoverAlreadyAuthorized | services/api/src/vouchers/cae-request.service.ts:92-130 | requests nothing; adopts exactly the entry at the attempted number if it matches; never overlooks a matching entry; which of adopting, finding nothing, refusing and failing it ends in is decided by its last reply |
| CaeRequest.CaeRequestService.RequestCae | services/api/src/vouchers/cae-request.service.ts:132-141 | one attempt appends at most one entry of ours, whatever replies are lost and whoever else emits; without a rejection the reported number is that entry's; an obtained number and CAE are ARCA's entry; it asks the calls of the conversation in their order, goes on exactly after the replies that ask for it, and is refused, obtained at the number last requested, or interrupted at it by its last reply alone |
| CaeRequest.CaeRequestService.RequestCaeAttempt | services/api/src/vouchers/cae-request.service.ts:161-190 | the same from the last authorized number on, through the duplicate-number branch: a rejection refuses, a CAE granted or found is obtained, anything else interrupts |
| CaeRequest.CaeRequestService.RecoverDuplicate | services/api/src/vouchers/cae-request.service.ts:173-189 | a duplicate number is adopted if it is there, otherwise the last number is asked again and the next one requested; only a rejection of that request refuses |
| CaeRequest.AFreshNumberIsTried | services/api/src/vouchers/cae-request.service.ts:174-188 | an attempt that hears a last number for the second time had its first request rejected as a duplicate and found nothing there, requests exactly one number more, and if granted has that number and CAE |
| PendingQueue.BumpKeepsSchedule | services/api/src/vouchers/pending-voucher-queue.service.ts:102-116 | a bumped row keeps retries below the maximum and has waited the doubling schedule; exhaustion comes at the maximum, at least base*(2^max-1) after enqueueing |
| PendingQueue.FailKeepsSchedule | services/api/src/vouchers/pending-voucher-queue.service.ts:118-135 | failing a due row leaves it failed after having waited at least once |
| PendingQueue.RearmKeepsSchedule | services/api/src/vouchers/pending-vouchers.service.ts:79-91 | re-arming restarts the count, not the time already waited |
| PendingQueue.PendingVoucherQueue.Enqueue | services/api/src/vouchers/pending-voucher-queue.service.ts:57-81 | stores a fresh row exactly when the key is free, else hands back the row under that key, or fails for an empty key |
| PendingQueue.PendingVoucherQueue.Complete | services/api/src/vouchers/pending-voucher-queue.service.ts:97-100 | removes that row alone |
| PendingQueue.PendingVoucherQueue.Bump | services/api/src/vouchers/pending-voucher-queue.service.ts:102-116 | postpones by doubling delays or fails at the maximum, keeping the schedule |
| PendingQueue.PendingVoucherQueue.Fail | services/api/src/vouchers/pending-voucher-queue.service.ts:118-135 | marks that row failed and counts the attempt |
| PendingQueue.PendingVoucherQueue.RetryFailed | services/api/src/vouchers/pending-vouchers.service.ts:79-91 | re-arms exactly a failed row of the caller's issuer |
| PendingQueue.PendingVoucherQueue.DiscardFailed | services/api/src/vouchers/pending-vouchers.service.ts:93-100 | removes exactly a failed row of the caller's issuer |
| EmissionSteps.ReplayMissesNothing | services/api/src/vouchers/issued-voucher-recorder.service.ts:97-127 | a stored voucher is found through its key once nobody is still writing its record |
| EmissionSteps.KeyIsFree | services/api/src/vouchers/issued-voucher-recorder.service.ts:65-69 | under a key no failed row was re-armed against, the idempotency record's unique key is never violated |
| EmissionSteps.ActWorld | services/api/src/vouchers/issued-voucher-recorder.service.ts:59-157 | every table step of a call or retry keeps every fact about ledger, tables and vouchers |
| EmissionSteps.ActLocal | services/api/src/vouchers/voucher-emission.service.ts:26-74 | every table step leads to a program point whose assertion holds |
| EmissionSteps.ActGuarantee | services/api/src/vouchers/pending-voucher-retry.service.ts:27-68 | a table step touches only its own row, key, issuer and submission |
| EmissionTalk.ConsultMissesNothing | services/api/src/vouchers/cae-request.service.ts:97-119 | a retry goes on to request a CAE only if its own entry is not at the attempted number |
| EmissionTalk.TalkWorld | services/api/src/vouchers/cae-request.service.ts:161-190 | every call to ARCA, answered or lost, keeps every fact about ledger, tables and vouchers |
| EmissionTalk.TalkLocal | services/api/src/vouchers/pending-voucher-retry.service.ts:50-68 | every reply or loss leads to a program point whose assertion holds; which point that is, `EmissionReplies` says |
| EmissionReplies.RepliesDecideTheRow | services/api/src/vouchers/pending-voucher-retry.service.ts:27-68 | over every run, the table step after the last call of a retry: a rejection fails the row with its count raised by one, silence bumps it to wait base*2^count or fails it at the maximum, a CAE leaves it to be completed; without any call the row is failed exactly when its issuer is missing |
| EmissionReplies.SuchAReplyEndsIt | services/api/src/vouchers/voucher-emission.service.ts:57-72 | after silence, or a rejection other than the duplicate number at the first request, nothing more is asked: a call is answered "rejected" or queued with the number in flight, a retry is about to change its row |
| EmissionReplies.QueuedRowWaitsTheBase | services/api/src/vouchers/pending-voucher-queue.service.ts:57-73 | over every run, a newly queued row carries its call's own issuer, key and payload and the number it asked for last, with no retries, to be tried after the base wait |
| EmissionReplies.TheKthWait | services/api/src/vouchers/pending-voucher-queue.service.ts:102-112 | over every run, the k-th bump since queueing or re-arming that leaves the row waiting makes it wait exactly base*2^k, each time twice the time before |
| EmissionReplies.RearmedRowIsDue | services/api/src/vouchers/pending-vouchers.service.ts:79-91 | over every run, a re-armed row was failed, is due at once with its count at zero, and is otherwise unchanged, as is every other row |
| EmissionReplies.AnswersTellTheVoucher | services/api/src/vouchers/issued-voucher-recorder.service.ts:19-32 | over every run, whoever is answered "issued" is told a stored voucher's own type, sales point, net, IVA and total, its key's voucher or without a key its own sale's, and the number and CAE of ARCA's entry |
| EmissionSafety.OneInside | services/api/src/vouchers/voucher-emission.service.ts:36-42 | two processes inside the lock belong to different issuers |
| EmissionSafety.NobodyElseIsKeying | services/api/src/vouchers/voucher-emission.service.ts:36-40 | when a call enters the lock nobody is still writing a record for its issuer, so its second replay is complete |
| EmissionEvents.StepKeepsInv | services/api/src/vouchers/voucher-emission.service.ts:26-74 | every event of any process, the clock, other emitters, the scheduler or a manual action keeps the whole invariant |
| EmissionEvents.RunKeepsInv | services/api/src/vouchers/pending-voucher-retry.service.ts:20-68 | the invariant holds in every state of every run |
| EmissionTheorems.RunGrows | services/api/src/vouchers/issued-voucher-recorder.service.ts:59-95 | no run removes a ledger entry, a voucher or an idempotency record, or changes one |
| EmissionTheorems.LandedRowKeepsItsVoucher | services/api/src/vouchers/pending-voucher-retry.service.ts:27-68 | a row queued with an attempted number that is its own entry never gets another entry, and completes with that number and CAE |
| EmissionTheorems.LandedRowIsNeverRequestedAgain | services/api/src/vouchers/cae-request.service.ts:92-130 | no call of any later retry of such a row is a CAE request |
| EmissionTheorems.TwoEntriesMeanTheNumberWasTaken | services/api/src/vouchers/cae-request.service.ts:161-190 | a row with an attempted number has two entries only if somebody else's voucher has that number |
| EmissionTheorems.AtMostOneEntryWithoutIntruders | services/api/src/vouchers/pending-voucher-retry.service.ts:27-68 | if nobody else entered the numbering from the attempted number on, any retries with any lost replies leave at most one entry |
| EmissionTheorems.QueuedWithItsOnlyEntry | services/api/src/vouchers/voucher-emission.service.ts:58-72 | a request is queued with the number of its only possible entry, and without a number only if it has none |
| EmissionTheorems.CallIsQueuedIffItsKeyIsFree | services/api/src/vouchers/pending-voucher-queue.service.ts:57-81 | a call without an answer leaves a row with its number, and is answered with it, exactly when its key is free; otherwise it is answered with the row that has the key, or under an empty key with an exception, and no row ever and no later voucher speaks for it |
| EmissionProgress.RejectedCallOwnsNothing | services/api/src/vouchers/cae-request.service.ts:143-159 | a call answered "rejected" has no entry at ARCA, then or ever, and leaves no row |
| EmissionProgress.NobodyIsStuck | services/api/src/vouchers/voucher-emission.service.ts:26-74 | in every reachable state, whoever has not ended can take its next step, or awaits the issuer's lock in a line in which somebody not behind it can |
| EmissionTheorems.OneEmissionPerIssuer | services/api/src/vouchers/voucher-emission.service.ts:36-42 | at any time one process at most works under an issuer's lock |
| EmissionTheorems.OneVoucherPerKey | services/api/src/vouchers/issued-voucher-recorder.service.ts:59-69 | at most one voucher per issuer and key, in every interleaving of calls, retries and manual actions, unless a failed row under that key was re-armed while the key had a voucher or a call was obtaining one |
| EmissionTheorems.SameKeySameAnswer | services/api/src/vouchers/issued-voucher-recorder.service.ts:19-32 | two calls under one key that were issued a voucher were issued the same id, number, CAE and amounts, re-arming or not |
| EmissionTheorems.RecordedKeyOnlyReplays | services/api/src/vouchers/voucher-emission.service.ts:31-34 | a call arriving after the key has its record only reads, and is answered with exactly the recorded voucher |
| EmissionTheorems.SuccessIsReplayed | services/api/src/vouchers/issued-voucher-recorder.service.ts:97-127 | after a success, each later call with its key gets the same id, number, CAE and amounts, without a call to ARCA or a table change |
| EmissionTheorems.RecordedIsWhatArcaHolds | services/api/src/vouchers/issued-voucher-recorder.service.ts:129-157 | each stored sales point, type, number and CAE is ARCA's entry at that number, on all four paths |
| EmissionProvenance.StoredVouchersHaveProvenance | services/api/src/vouchers/cae-request.service.ts:92-190 | whose entry a stored voucher is: its own, saying what the sale says; or found at the attempted number with the sale's total and recipient; or found at a refused number and somebody else's |
| EmissionProvenance.OwnExactlyUnlessAdopted | services/api/src/vouchers/cae-request.service.ts:173-189 | a voucher not recovered by a retry is the sale's own authorization exactly when the sale took over no entry at a refused number; a recovered one exactly when the request thought lost had been applied |
| EmissionProvenance.AdoptedNumbersWereTakenMeanwhile | services/api/src/vouchers/cae-request.service.ts:167-181 | an entry taken over at a refused number was entered by somebody else after the sale was told the last number |
| EmissionProvenance.UndisturbedSaleIsItsOwn | services/api/src/vouchers/cae-request.service.ts:161-190 | if nobody else takes the number between its announcement and the request, the stored voucher is the sale's own, total and recipient included |
| EmissionConflicts.AStrangersVoucherIsIssued | services/api/src/vouchers/cae-request.service.ts:173-181 | a run: a call is answered "issued" with a stranger's voucher of another total and recipient, and its own sale is authorized nowhere |
| EmissionConflicts.RecordedKeyGetsASecondVoucher | services/api/src/vouchers/pending-voucher-retry.service.ts:35-47 | from any such state, a due row whose key is recorded can be authorized and stored once more, its retry ending with an exception and the queue unchanged |
| EmissionConflicts.SecondVouchersPileUp | services/api/src/vouchers/pending-voucher-retry.service.ts:20-25 | ... and again on each later retry: k vouchers of one row under one key for every k, the row still waiting with the same count |
| EmissionConflicts.AnyNumberOfVouchersUnderOneKey | services/api/src/vouchers/pending-vouchers.service.ts:79-91 | runs from the empty system that reach k+1 vouchers under one key by resubmitting a failed row's key and re-arming the row |
| EmissionConflicts.RearmedMidCall | services/api/src/vouchers/pending-vouchers.service.ts:79-91 | the same conflict reached by re-arming while nothing is stored under the key but a call is obtaining a voucher |
| EmissionConflicts.TakenNumberNeverCompletes | services/api/src/vouchers/issued-voucher-recorder.service.ts:129-157 | a row that adopts a number the issuer has stored can be processed any number of times, each time with an exception and no change at all |
| EmissionConflicts.EqualSalesBlockEachOther | services/api/src/vouchers/cae-request.service.ts:37-47 | a run without manual actions: of two equal sales the one whose request was lost can never be completed |
| EmissionConflicts.AnAuthorizationIsForgotten | services/api/src/vouchers/pending-voucher-queue.service.ts:137-149 | a run: a resubmission's authorization is in no row and no voucher, and its caller is told another row is queued |
| EmissionConflicts.AnEmptyKeyCrashesACall | services/api/src/vouchers/pending-voucher-queue.service.ts:137-149 | a run: of two calls under the empty key that have to be queued, the second ends with an exception |
| EmissionConflicts.ARowCompletesWithAStrangersVoucher | services/api/src/vouchers/cae-request.service.ts:37-47 | a run: a queued row is completed with a stranger's voucher of equal total and recipient, and its own sale is authorized nowhere |
| EmissionAccounts.RowsMeetTheirFate | services/api/src/vouchers/pending-voucher-queue.service.ts:97-135 | a stored row changes only by its own retry or a manual action on a failed row; a waiting row is never discarded, only a failed one re-armed; completion leaves a voucher with its payload |
| EmissionAccounts.RowsAreConserved | services/api/src/vouchers/pending-voucher-retry.service.ts:35-47 | rows ever enqueued = stored + completed + discarded, disjointly; each completed row has exactly one voucher, carrying its payload, re-arming or not |
| EmissionAccounts.RowsHaveOneVoucher | services/api/src/vouchers/pending-voucher-retry.service.ts:35-47 | any row has at most one voucher, unless a failed row under its key was re-armed while the key had a voucher or a call was obtaining one |
| EmissionAccounts.SecondVoucherMeansKeyTaken | services/api/src/vouchers/issued-voucher-recorder.service.ts:65-69 | a row with two vouchers was never completed, and its key's record names a voucher that is not the row's |
| EmissionAccounts.WaitingRowsAreOnSchedule | services/api/src/vouchers/pending-voucher-queue.service.ts:102-116 | in every state a waiting row has retries left and its next retry is no earlier than the doubling schedule |
| EmissionAccounts.ExhaustionTakesTime | services/api/src/vouchers/pending-voucher-queue.service.ts:57-116 | a row failed by exhaustion was enqueued at least base*(2^max-1) earlier |
| EmissionAccounts.RetriesAreCounted | services/api/src/vouchers/pending-voucher-queue.service.ts:102-108 | while a row waits and is not re-armed its count is the number of bumps, so it is bumped fewer than max times |
| EmissionAccounts.ProcessingsAreCounted | services/api/src/vouchers/pending-voucher-retry.service.ts:27-48 | while a row waits and is not re-armed, its processings that end other than by an exception are exactly its bumps, so fewer than max of them leave it waiting |
| EmissionAccounts.RetryCrashesIff | services/api/src/vouchers/issued-voucher-recorder.service.ts:59-69 | a retry's table step ends with an exception exactly when the issuer has stored a voucher with the number, or the key already has its record |
| EmissionAccounts.OnlyRecoveredNumbersCrash | services/api/src/vouchers/cae-request.service.ts:92-130 | the number is the cause only if a retry recovered it, never if it was granted or found after a duplicate-number rejection |
| EmissionAccounts.CallCrashesIff | services/api/src/vouchers/pending-voucher-queue.service.ts:57-81 | a call ends with an exception exactly when it has to be queued under the empty key while that key is taken |
| EmissionAccounts.OnlyClashingKeysCrash | services/api/src/vouchers/pending-vouchers.service.ts:79-91 | the key is the cause only after a failed row under it was re-armed while it had a voucher or a call was obtaining one |
| EmissionLimits.LostRetryAddsAnEntry | services/api/src/vouchers/pending-voucher-queue.service.ts:102-116 | from any reachable state with the scheduler idle and the issuer's lock free, a due row at the head of any batch for which there is nothing to adopt can gain an entry in a retry that looks merely failed |
| EmissionLimits.LostRetriesPileUp | services/api/src/vouchers/pending-voucher-retry.service.ts:50-68 | k such retries can leave k entries of one row among any others, up to the retry maximum |
| EmissionLimits.WithoutANumberOneSaleBecomesFour | services/api/src/vouchers/voucher-emission.service.ts:64-70 | a concrete run: queued with no attempted number, one sale is authorized four times |
| EmissionLimits.WithTheNumberTakenOneSaleBecomesFour | services/api/src/vouchers/cae-request.service.ts:112-118 | a concrete run: the attempted number taken by a stranger, one sale is authorized four times |
| Money.RoundOfQuotient | services/api/src/arca/wsfe/iva-calculator.ts:7-9 | rounding an exact fraction of cents is integer division |
| IvaCalculator.GrossByRate | services/api/src/arca/wsfe/iva-calculator.ts:45-49 | the map holds each taxed rate once, in order of appearance, with the sum of its items' gross |
| IvaCalculator.SplitTaxedGrossByRate | services/api/src/arca/wsfe/iva-calculator.ts:44-70 | the loop computes each rate's entry and their exact sums, or refuses a rate ARCA has no id for |
| IvaCalculator.SplitsMappedRates | services/api/src/arca/wsfe/iva-calculator.ts:62-65 | the split refuses exactly the items with a taxed rate ARCA has no id for |
| IvaCalculator.EntryIsFaithful | services/api/src/arca/wsfe/iva-calculator.ts:55-58 | base + IVA = rounded gross exactly, IVA >= 0, and IVA is rate times base within (1+rate)/2 cents |
| IvaCalculator.CalculateAmounts | services/api/src/arca/wsfe/iva-calculator.ts:76-112 | for a reporting type exempt and untaxed are the rounded sums of quantity times price over the lines of that treatment, and each rate's net and IVA share out the rounded sum of its taxed lines under ARCA's identifier; otherwise the net is the sum of all lines; tributes line by line; refused exactly for a taxed rate ARCA has no identifier for |
| IvaCalculator.ChangeMovesItsOwn | services/api/src/arca/wsfe/iva-calculator.ts:15-19 | changing a line moves no treatment's or rate's sum but those of the line before and after |
| IvaCalculator.NonReportingTotalIsExact | services/api/src/arca/wsfe/iva-calculator.ts:85-96 | for types that do not report IVA, total = net + tributes exactly |
| IvaCalculator.TotalIsNearTheParts | services/api/src/arca/wsfe/iva-calculator.ts:81-112 | total and parts differ by at most half a cent per non-empty group |
| IvaCalculator.TotalIsWithinFourCents | services/api/src/arca/wsfe/iva-calculator.ts:81-112 | ... and so never by more than four cents |
| IvaCalculator.WholeCentsAddUp | services/api/src/arca/wsfe/iva-calculator.ts:81-112 | when every line is a whole number of cents, total and parts are equal |
| IvaOrder.OrderDoesNotMatter | services/api/src/arca/wsfe/iva-calculator.ts:44-112 | permuting the items changes no amount and lists the same rate entries |
| TaxBreakdown.BreakDownVoucherTaxes | services/api/src/fiscal/voucher-tax-breakdown.ts:51-89 | the loops compute each column's sum, rounded once, and the IVA per rate in order of appearance |
| TaxBreakdown.ColumnsHoldEverything | services/api/src/fiscal/voucher-tax-breakdown.ts:59-78 | before rounding, net, exempt, untaxed and IVA columns together are the voucher's pesos: no line is lost or counted twice |
| TaxBreakdown.BreakdownAddsUp | services/api/src/fiscal/voucher-tax-breakdown.ts:80-88 | the reported columns add up to the pesos within half a cent per column |
| TaxBreakdown.BreakdownTellsItsLines | services/api/src/fiscal/voucher-tax-breakdown.ts:51-88 | an export voucher is all exempt; in any other the exempt and untaxed columns are the lines of that treatment; IVA is listed at exactly the rates above zero of the taxed lines of an A, B or M voucher, and in the rest those lines are the net |
| IvaAgreement.NoTie | services/api/src/arca/wsfe/iva-calculator.ts:56-58 | a parity argument: for the supported rates, base and tax of whole cents are never both halves |
| IvaAgreement.SameIvaPerRate | services/api/src/fiscal/voucher-tax-breakdown.ts:75-82 | for lines of whole cents in pesos the books' IVA per rate equals the IVA per rate sent to ARCA, and both list the same positive rates |
| IvaAgreement.NetsAreClose | services/api/src/fiscal/voucher-tax-breakdown.ts:70-84 | the two nets differ by at most half a cent per positive rate plus half a cent |
| IvaAgreement.SameExemptAndUntaxed | services/api/src/fiscal/voucher-tax-breakdown.ts:59-88 | for whole-cent lines in pesos ARCA is told the exempt and untaxed amounts that the books report |
| SalesBook.EntryRows | services/api/src/fiscal/sales-book.service.ts:70-72 | an entry lists each rate of its voucher once, from the highest, with the amount negated for a credit note |
| SalesBook.EntryListsItsIva | services/api/src/fiscal/sales-book.service.ts:70-72 | at every rate, listed or not, what an entry lists is its voucher's signed IVA at that rate |
| SalesBook.EntryTellsItsVoucher | services/api/src/fiscal/sales-book.service.ts:66-93 | an entry copies its voucher's identity and texts, and holds its net, exempt and untaxed columns and, to the nearest cent of pesos, its tributes and total, each with a credit note's sign |
| SalesBook.EntryIva | services/api/src/fiscal/sales-book.service.ts:66-93 | an entry's IVA total is its voucher's IVA with the credit-note sign, in whatever order rates are listed |
| SalesBook.BookIva | services/api/src/fiscal/sales-book.service.ts:95-112 | the book's IVA total is the sum of its vouchers' signed IVA |
| SalesBook.TotalsAreSums | services/api/src/fiscal/sales-book.service.ts:95-107 | each of the six totals is the sum of that column over the entries, and the count is theirs |
| IvaPosition.ComputeDebit | services/api/src/fiscal/iva-position.service.ts:49-68 | debit per rate is the sum over vouchers of their signed IVA at that rate |
| IvaPosition.DebitIsTheBooks | services/api/src/fiscal/iva-position.service.ts:59-67 | the debit at a rate is the sum of what the sales book's entries list at that rate |
| IvaPosition.ComputeCredit | services/api/src/fiscal/iva-position.service.ts:70-88 | credit per rate is the sum over purchases of their signed IVA at that rate, zero amounts creating no rate |
| IvaPosition.CreditIsOfTheThreeFields | services/api/src/fiscal/iva-position.service.ts:81-86 | the credit at 21, 10.5 and 27 percent is the sum of the purchases' IVA field of that name, credit notes subtracted; there is none at another rate, and the three are the total |
| IvaPosition.GetMonthlyPosition | services/api/src/fiscal/iva-position.service.ts:19-47 | total debit equals the sales book's IVA total to the cent, signs and currency included; every rate with a balance has its row, from the highest |
| MisComprobantesCsv.SplitLine | services/api/src/purchase-invoices/mis-comprobantes-csv.ts:65-88 | the loop splits as the recursive reading of quotes and delimiters does |
| SalesBookCsv.SplitUndoesPrinting | services/api/src/fiscal/sales-book-csv.ts:22-25 | splitting a printed row gives its fields back, trimmed, whatever they contain |
| SalesBookCsv.AmountsReadBack | services/api/src/purchase-invoices/mis-comprobantes-csv.ts:90-102 | reading a printed amount gives it back for every whole number of cents, negatives included |
| SalesBookCsv.EveryLineHasTheHeadersColumns | services/api/src/fiscal/sales-book-csv.ts:31-105 | header, entries and totals all split into as many columns as the header |
| SalesBookCsv.TextHasTheBooksLinesIff | services/api/src/fiscal/sales-book-csv.ts:101-105 | read line by line, the rendered text is the header, the entries and the totals exactly when no cell holds a line break |
| SalesBookColumns.RenderedAmountsReadBack | services/api/src/fiscal/sales-book-csv.ts:31-73 | reading a rendered entry back finds its net under "Neto gravado", its untaxed, exempt, IVA, tributes and total under theirs, to the cent |
| SalesBookColumns.EntryIvaUnderItsRate | services/api/src/fiscal/sales-book-csv.ts:27-29 | under "IVA r%" stands the amount of the entry's row at rate r, or zero |
| SalesBookColumns.TotalsUnderTheirNames | services/api/src/fiscal/sales-book-csv.ts:75-99 | the last line shows each of the book's totals under that total's name |
| SalesBookColumns.RateTotalUnderItsName | services/api/src/fiscal/sales-book-csv.ts:77-79 | ... and under "IVA r%" the sum of what the entries list at rate r |
| SalesBookColumns.EntryTextsUnderTheirNames | services/api/src/fiscal/sales-book-csv.ts:51-63 | date, sales point and number read back under their names, padded to their widths; type, document, name, currency, exchange rate and CAE stand under theirs |
| SalesBookColumns.FileShowsTheBook | services/api/src/fiscal/sales-book-csv.ts:101-105 | a file without line breaks in its cells is the header, each entry on its own line and the totals, with the amounts under their names |
| MisComprobantesCsv.ParseMisComprobantesCsv | services/api/src/purchase-invoices/mis-comprobantes-csv.ts:130-181 | each data line is in exactly one of rows and invalid with its own line number from 2 on, and nothing else is |
| PurchaseCsv.PrintedPurchaseReadsBack | services/api/src/purchase-invoices/mis-comprobantes-csv.ts:153-171 | a line in ARCA's notation, under any arrangement of the headers, is read as exactly its invoice: every field from its own column, every amount to the cent |
| PurchaseCsv.LineIsReadIff | services/api/src/purchase-invoices/mis-comprobantes-csv.ts:157-177 | a line is read exactly when each of its cells is, each field from its own cell, and otherwise for the reason of an unreadable one |
| PurchaseCsv.PrintedFileReadsBack | services/api/src/purchase-invoices/mis-comprobantes-csv.ts:150-180 | of a file of printed purchases the reader gives exactly their rows, in order, numbered from the second line, and none invalid |
| PurchaseCsv.FileHasItsLines | services/api/src/purchase-invoices/mis-comprobantes-csv.ts:131-134 | whichever its line ends, with a byte order mark or without, a file is read as its lines |
| PurchaseCsv.TheSeparatorIsFound | services/api/src/purchase-invoices/mis-comprobantes-csv.ts:59-63 | the one separator a header uses is the one found, the semicolon when it uses none |
| PurchaseCsv.MissingAreThose | services/api/src/purchase-invoices/mis-comprobantes-csv.ts:143-146 | a file is refused for exactly the required columns its header lacks |
| PurchaseCsv.GroupedAmountsReadBack | services/api/src/purchase-invoices/mis-comprobantes-csv.ts:90-102 | an amount with a decimal comma reads the same however points and blanks group its digits |
| PurchaseCsv.PointAmountsReadBack | services/api/src/purchase-invoices/mis-comprobantes-csv.ts:90-102 | one with a decimal point reads the same however commas and blanks do |
| PurchaseCsv.DashedCuitReadsBack | services/api/src/purchase-invoices/mis-comprobantes-csv.ts:122-128 | a CUIT written with dashes is its eleven digits |
| PurchaseCsv.IsoDateReadsBack | services/api/src/purchase-invoices/mis-comprobantes-csv.ts:104-106 | a date written year first is read as it is |
| PurchaseCsv.CellIsUnderItsHeader | services/api/src/purchase-invoices/mis-comprobantes-csv.ts:148-155 | a column's cell is the field under the first header of that name |
| PurchaseImport.ParsedCuitsAreDigits | services/api/src/purchase-invoices/mis-comprobantes-csv.ts:122-128 | every row the parser lets through has a CUIT of digits, as the results about keys need |
| PurchaseImport.AtMostOneRateFits | services/api/src/purchase-invoices/purchase-import.service.ts:87-89 | no row can match two IVA rates |
| PurchaseImport.InferredRateIsTheFit | services/api/src/purchase-invoices/purchase-import.service.ts:81-90 | a positive rate is inferred exactly when it is a supported one and the row's IVA is that rate of its net within half a percentage point |
| PurchaseImport.InferredRateIsZero | services/api/src/purchase-invoices/purchase-import.service.ts:82-85 | rate zero is inferred exactly for a row without net and without IVA |
| PurchaseImport.ImportableIff | services/api/src/purchase-invoices/purchase-import.service.ts:178-211 | a row not stored yet is importable exactly when it has one rate and its amounts, the taxed ones counting only at 21, 10.5 or 27 percent, come to its total within a cent; else it needs review |
| PurchaseImport.SummaryCountsEachKind | services/api/src/purchase-invoices/purchase-import.service.ts:213-226 | the summary counts the rows of each status and the unreadable lines, each under its own name |
| PurchaseImport.KeysAreInjective | services/api/src/purchase-invoices/purchase-import.service.ts:152-159 | two row keys are the same text only for the same four fields |
| PurchaseImport.DuplicateIffStored | services/api/src/purchase-invoices/purchase-import.service.ts:161-194 | a row is a duplicate exactly when the issuer has an invoice with its four identifying fields |
| PurchaseImport.PurchaseImportService.Import | services/api/src/purchase-invoices/purchase-import.service.ts:113-139 | completes exactly when the calendar takes the date of every importable row; creates the importable rows in file order, up to the first whose date it does not take; each invoice created carries a row's identity and the day its date comes to, its net and IVA in the pair named after its inferred rate and zeros in the others, its own exempt and untaxed amounts, and for a total their sum to the cent, within 0.01 of the file's |
| Dates.TakenDates | services/api/src/purchase-invoices/purchase-import.service.ts:131-131 | a real date is stored as that day, a day past its month's end as a day of the next month |
| PurchaseImport.ParsedDatesAreIso | services/api/src/purchase-invoices/mis-comprobantes-csv.ts:104-112 | what is read as a date is four, two and two digits with dashes, real or not |
| PurchaseImport.AThirteenthMonthIsReadButNotStored | services/api/src/purchase-invoices/mis-comprobantes-csv.ts:104-112 | a date with its month second is read, and not one the calendar takes |
| PurchaseImport.AnImportStopsHalfway | services/api/src/purchase-invoices/purchase-import.service.ts:118-136 | of two importable rows the second of which has such a date, the first is stored and no summary is returned |
| PurchaseImport.PurchaseImportService.ImportFile | services/api/src/purchase-invoices/purchase-import.service.ts:113-150 | a file of another kind changes nothing; of an import that completes the summary counts add up to the data lines, and as many invoices are created as are counted importable; one that stops keeps what was stored |
| PurchaseImport.RepeatedImportCreatesNothing | services/api/src/purchase-invoices/purchase-import.service.ts:113-139 | repeating a completed import creates nothing |
| PurchaseImport.ImportStoresNoneTwiceIff | services/api/src/purchase-invoices/purchase-import.service.ts:113-137 | an import, completed or not, leaves no invoice stored twice exactly when no two of the rows it stores have the same key |
| PurchaseImport.TwiceInOneFileIsImportedTwice | services/api/src/purchase-invoices/purchase-import.service.ts:115-137 | an importable row with a date the calendar takes, listed twice in one file, is created twice |
| FixedWindowLimiter.Limiter.Consume | services/api/src/common/fixed-window-limiter.ts:19-31 | decides by the key's open window; an accepted request counts in it or opens one, a rejected one changes nothing and names the shortest wait in whole seconds; no other key's open window is touched |
| FixedWindowLimiter.Limiter.PruneExpiredWhenFull | services/api/src/common/fixed-window-limiter.ts:33-42 | at the limit of tracked keys exactly the expired windows are dropped |
| FixedWindowLimiter.PruningIsInvisible | services/api/src/common/fixed-window-limiter.ts:19-42 | with a non-decreasing clock every request is decided as by a limiter that never prunes |
| FixedWindowLimiter.FewerThanTwoAllowances | services/api/src/common/fixed-window-limiter.ts:19-31 | any interval one window long holds at most 2*max(1, maxRequests)-1 accepted requests of a key |
| FixedWindowLimiter.TheBoundIsMet | services/api/src/common/fixed-window-limiter.ts:19-31 | for every policy with windows of two milliseconds or more, a run reaches that bound |
| Onboarding.Issuer.Track | services/api/src/issuer-arca/issuer-onboarding.service.ts:23-35 | a tracked call moves the status by its ending: a success confirms its kind, code 600 alone becomes a delegation error, any other failure changes nothing |
| Onboarding.Issuer.Confirm | services/api/src/issuer-arca/issuer-onboarding.service.ts:37-51 | a success confirms its kind, never lowering a confirmed issuing |
| Onboarding.Issuer.Diagnose | services/api/src/issuer-arca/issuer-onboarding.service.ts:53-74 | only code 600 changes the status, to pending or to blocked |
| Onboarding.Issuer.MarkCertificateLoaded | services/api/src/certs/certs.service.ts:152-162 | loading a certificate never undoes a confirmed delegation |
| Onboarding.StatusTellsThePast | packages/shared/src/issuer-onboarding.ts:24-32 | over every sequence of events, delegation is confirmed iff some call succeeded, issuing iff an issue has no later rejection, blocked iff a success happened and the latest of success and rejection is the rejection |
| VoucherTypes.LetterEndsTheName | packages/shared/src/voucher-type.ts:122-126 | a type's letter is the known letter its name ends in |
| VoucherTypes.ListsAgreeWithNames | packages/shared/src/voucher-type.ts:28-120 | the lists of credit notes, notes, electronic credit invoices and types that need a CUIT agree with the types' names and letters |
| VoucherTypes.ReportingTypesBearIva | packages/shared/src/voucher-type.ts:134-154 | the types whose IVA ARCA is told are exactly those whose IVA the books break down |
| VoucherTypes.CreditNoteMatchesItsVoucher | packages/shared/src/voucher-type.ts:196-215 | a voucher's credit note has its letter and kind, is a credit note, and has none itself |
| VoucherTypes.CreditNotesExistFor | packages/shared/src/voucher-type.ts:196-215 | every named type has a credit note but the credit notes and the export types |
| VoucherSchema.AcceptedShape | packages/shared/src/index.ts:261-337 | a request is accepted exactly when its fields are well formed and period, due date, transmission type, associated vouchers, CUIT and recipient condition fit its type and concept |
| VoucherSchema.ConditionsByLetter | packages/shared/src/recipient-iva-condition.ts:23-41 | letters A and M take Responsable Inscripto alone of the known conditions, B all the others, the rest all; an unknown one passes; A and M assume Responsable Inscripto, the rest Consumidor Final |
| VoucherSchema.TextOrderIsDateOrder | packages/shared/src/index.ts:292-308 | comparing two dates as text compares year, month and day |
| VoucherSchema.AcceptedAmountsExist | packages/shared/src/index.ts:136-155 | the amounts of an accepted voucher can always be computed |
| VoucherSchema.AcceptedAmountsAreNotNegative | packages/shared/src/index.ts:136-223 | of a well-formed voucher ARCA is told no negative amount, and only taxed lines bear a rate |
| VoucherSchema.DefaultConditionIsAllowed | packages/shared/src/recipient-iva-condition.ts:25-41 | the recipient condition a type assumes is one it allows |
| Dates.RealDatesReadBack | services/api/src/vouchers/issued-voucher-data.ts:20-23 | a real calendar date from the year 1000 on is stored and written back unchanged |
| Dates.ArcaDateParts | services/api/src/arca/arca-date.ts:5-10 | ARCA's form of a date is four digits of its year, two of its month and two of its day |
| Dates.WrittenDatesAreIso | services/api/src/arca/arca-date.ts:19-24 | exactly the dates of four-digit years are written as they are read, and say what was written |
| Dates.LeapYearsAre | services/api/src/vouchers/issued-voucher-data.ts:20-23 | the calendar is the Gregorian one: how many leap years come before any year |
| Dates.YearsHaveTheirDays | services/api/src/vouchers/issued-voucher-data.ts:20-23 | the months of a leap year have 366 days, those of any other 365 |
| Dates.ShortYears | services/api/src/vouchers/issued-voucher-data.ts:20-23 | a year below one hundred is stored as one of the twentieth century |
| CreditNote.DraftIsAcceptedIffThePeriodSurvives | services/api/src/vouchers/credit-note-draft.service.ts:78-122 | the draft for an accepted, authorized voucher is accepted again exactly when its service period, if any, survives storage as dates |
| CreditNote.DraftedIff | services/api/src/vouchers/credit-note-draft.service.ts:78-89 | a voucher gets a draft exactly when its type has a credit note, ARCA authorized it (approved, recovered or observed), its concept is known and its recipient can be told; otherwise the first of these that fails is the reason |
| CreditNote.DraftTellsItsVoucher | services/api/src/vouchers/credit-note-draft.service.ts:97-110 | a draft keeps issuer, sales point, concept, currency, rate, lines and recipient, each part from the voucher, else its client, else its QR code |
| CreditNote.DraftTellsTheDates | services/api/src/vouchers/credit-note-draft.service.ts:91-121 | its one associated voucher is the voucher with its own day in ARCA's form; the period is the voucher's, the payment day today, each exactly where one is needed |
| CreditNote.IssuedVoucherTells | services/api/src/vouchers/issued-voucher-data.ts:25-90 | what is stored of an authorized request is its own fields, ARCA's number and date, the status telling how the number was come by, and each line's price times quantity to the nearest cent |
| CreditNote.RealPeriodsSurvive | packages/shared/src/index.ts:292-308 | periods of real dates from the year 1000 on survive, so ordinary drafts are accepted |
| CreditNote.UnrealDatesDoNotSurvive | services/api/src/vouchers/issued-voucher-data.ts:20-37 | an accepted period from "2026-02-31" to "2026-03-01" is stored backwards |
| CreditNote.AnAcceptedVoucherWhoseDraftIsRefused | services/api/src/vouchers/credit-note-draft.service.ts:78-122 | a whole accepted voucher whose credit-note draft is refused, however it was numbered and dated |
| CreditNote.NotePostsTheNegation | services/api/src/fiscal/sales-book.service.ts:66-93 | the note emitted from the draft posts the exact negation of the original's net, exempt, untaxed and per-rate IVA columns |
| CreditNoteTotals.TributeIsCancelledIff | services/api/src/vouchers/credit-note-draft.service.ts:95-121 | the note cancels the voucher's tribute column exactly when the tributes come to less than half a cent of pesos |
| CreditNoteTotals.TotalIsCancelledIff | services/api/src/fiscal/sales-book.service.ts:66-93 | the note cancels the voucher's total exactly when no half cent of pesos lies between the lines' pesos and those of lines and tributes |
| CreditNoteTotals.InPesosTheTributeStays | services/api/src/arca/wsfe/iva-calculator.ts:81-83 | at exchange rate 1, voucher and note together leave exactly the tribute in both columns |
| CreditNoteTotals.ATributeIsNotCancelled | services/api/src/vouchers/credit-note-draft.service.ts:95-121 | an accepted voucher with a tribute whose accepted note leaves three pesos in the tribute column and in the total |
| CreditNoteTotals.AHalfCentIsNotCancelled | services/api/src/fiscal/sales-book.service.ts:66-68 | an accepted voucher without tributes that posts a cent while its accepted note posts nothing |
| CreditNoteTotals.EntryAddsUp | services/api/src/fiscal/sales-book.service.ts:84-90 | an entry's total is the sum of the columns beside it, but for the pesos its stored lines miss and half a cent per rounded column |
| CreditNoteTotals.AcceptedEntryAddsUp | services/api/src/vouchers/issued-voucher-data.ts:49-58 | for an accepted voucher those missing pesos are at most half a cent of its currency per line and one half more, and none when every line is whole cents |

## Left out

- Emission, recorder, retry service and scheduler as classes: their statements are the steps of one system on values, because they interleave at every `await`. The tables are maps in that state and the scheduler's `running` flag is its `batch`; object identity and update in place are not captured there.
- SOAP and XML, ticket login, signing, QR and PDF rendering, webhooks, push notifications and logging: calls into libraries that cannot be seen. A failed login before any call counts as a lost authentication.
- Expiry dates and observations of a CAE, and clients linked to a voucher: stored, never decided upon.
- Crashes of the process, partial writes and several processes: the lock is in memory and one process is assumed.
- Floating point: amounts are exact, so noise below a cent is not modelled.
- Amount cells in exponent notation or with a 0x, 0o or 0b prefix: JavaScript's number conversion takes them, and here they are unreadable.
- MisComprobantesCsv.ParseMisComprobantesCsv: how header names lose accents and case is a parameter, because it rests on Unicode normalisation.
- SalesBookColumns.EntryTextsUnderTheirNames: how an exchange rate is written is a parameter, because it is the text of a floating-point number.
- SalesBook.EntryIva: the recipient columns are given, because their last source is the decoded QR text.
- Export vouchers, reconciliation, shadow comparison, due dates, parameter and health caches, controllers, access checks, authentication and the mobile app: short or outside this core.
