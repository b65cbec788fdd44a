# Verified model of the USDC deposit service

This project models the behaviour of the deposit service and proves properties of that model in Dafny 4.11.
Go handlers act as steps over shared state: the Redis invoice of each payment reference, the tables `invoice`,
`event_checkouts`, `payment_sessions`, `payment_attempts`, `idempotency_records` and `events`, and a chain that only
grows. `dafny verify dfyconfig.toml` checks everything.

## The payment state machine

`Transactions` holds the payment rules as facts about a transaction, `Verifiers` the loops that decide them, and `WireRules`
says what they mean on the wire: which accounts and bytes, under any key table, make a payment.
`PaymentState` is the shared state with a history; `PaymentHandlers` says what every handler does to it and answers, one
function per handler; `PaymentService.Service` is the service itself, an object whose fields are the tables and whose
methods run the handlers statement by statement, each proved equal to its function. `PaymentInvariants` is the
cross-table invariant and what no step undoes, `PaymentEffects` and `PaymentSteps` prove it step by step, `PaymentRuns`
for every run: any sequence of the thirteen handlers, a sweep's SELECT, single turns of sweeps at any later moment, Redis
expiry and growth of the chain. `PaymentTheorems` draws the safety results, `PaymentOutcomes` says exactly when each
handler pays, opens, cancels or deletes, and what it answers. `PaymentBooks` sums up every step as paying one reference,
failing to, paying directly or paying nothing and draws what follows for whole runs; `PaymentAnswers` shows that a payment is
reported as it was booked, at once and ever after; `PaymentEvents` that only owners change events, that slugs find their
events and for which event and caller a session is created; and `SweepTheorems` treats the recovery sweep.

Assumptions of a run (`PaymentRuns.Allowed`): UUIDs are fresh, a node answers only with transactions of the chain, a SELECT
returns what it should. Handlers are atomic and their writes succeed, except where the schema refuses them. The initial
state may hold events under a unique index of their slugs, unpaid checkouts of an earlier version and invoice rows of issued
references, but no live invoice and no session.

What the model shows the code does not do:

- A checkout may be paid while its session is not. When a step pays a session's reference, the session becomes paid
  exactly when the step was a submission to, or a detection for, that session (`PaidTogetherIff`); a session that the
  legacy handlers left behind is never paid in any continuation (`LeftBehindForever`).
- A second session without an idempotency key fails on the unique index, because an empty key is stored as an empty
  string, and leaves a live invoice of no session (`KeylessCollision`).
- The duplicate-email check trims in Go and not in SQL, so an address stored with a blank can be used again
  (`BlankEvadesGuard`). Where stored emails are strings, an address is refused if and only if one of the stored addresses
  equal to it in Go is guarded, whatever the new one looks like (`DuplicateRefusedIffGuarded`, `SecondIsPaidIffUnguarded`);
  a guarded address, once paid, is used up for every continuation (`GuardedEmailIsUsedUp`).
- Verifying a payment after the event was deleted marks the invoice row paid and then fails, by whichever of the three
  handlers (`DeletedEventLeavesPaidInvoice`). In every reachable state the paid invoice row of an opened reference has no
  checkout if and only if its event is gone (`OrphanInvoiceIff`).
- A sweep pays a row to the merchant it read, which is the event's merchant afterwards exactly when the owner has not changed
  it between the SELECT and the turn (`RecoveredMerchantIff`, `RecoveryAfterEdit`).
- A submission repeated under its key is answered from the record, but one without a signature is refused first
  (`SubmitIsReplayed`).

## The other cores

- `TransferBuilder`: the transfer the checkout page builds, from the printed price on, is accepted by the verifier.
- `Json`, `Markup`, `MirrorRenderer`, `MirrorMeaning`: the renderer of imported descriptions, read back by a tokenizer and
  then, by the meaning of HTML, as the document's own nodes, levels, marks, links and images (`OutputTellsDocument`).
- `CandidateSearch`, `CandidateRules`, `CandidateTheorems`, `ImageTheorems`: the search for the best description and image,
  which fields it tries and what they are worth. The two description fields of events have no bonus (`PreferredIff`). The image search
  trims the image it has, not the one it compares, so a decoded blank at the end of a name can hide a better image. A visiting
  order ends with a best image if and only if it never takes such a name (`ImageSearchIsBestIff`), so all traversals of a
  document do if and only if none takes one (`DocumentIsBestIff`). One document has two traversals with different results
  (`OrderMatters`); another offers such a name and still ends best in every traversal (`HarmlessMask`).
- `AgentKeyCache`: the key cache, used alone and under every interleaving. A revoked key can come back d after its revocation
  if and only if d is less than the time to live (`RevokedKeyReturnsIff`).
- `SettlementLimiter`: the hourly limit and the idempotency of agent settlements. A call refused for want of a signer leaves
  an empty signature on record, and its repeats are answered as settled with it (`FirstCallFixesAnswers`).
- `RequestLimiter`: the fixed-window request limiter, up to a statement on requests alone (`AdmittedIffFewEarlier`).
- `EventSlug`, `SlugWords`: the slug builder; every title becomes its words, joined by dashes (`SlugIsJoinedWords`).

`Text`, `Decimal` and `Collections` hold the string and set facts they share.

## Model

| member | source | states |
|---|---|---|
| Verifiers.VerifyMessage | backend/watcher/watcher.go:168-310 | the referenced verifier accepts exactly by the rule (configured, not failed on chain, no transfer authored by the merchant, a transfer of the exact amount to his token account, a memo containing the reference), gives the first reason that applies otherwise, and reports the authority of the last matching transfer; the signer fallback is never reached |
| Verifiers.VerifyDirectMessage | backend/watcher/watcher.go:357-454 | the same for a direct transfer from a named wallet: every transfer must be authorised by that wallet |
| Verifiers.VerdictIsUnique | backend/watcher/watcher.go:168-310 | the rule leaves one possible answer per transaction |
| Verifiers.DirectVerdictIsUnique | backend/watcher/watcher.go:357-454 | so does the direct rule |
| Verifiers.OrderIsIrrelevant | backend/watcher/watcher.go:227-309 | permuting the instructions changes no acceptance by either verifier |
| Verifiers.DirectIsReferencedBySender | backend/watcher/watcher.go:404-452 | given the memo, the direct verifier accepts S exactly when the referenced one accepts and S authorised every transfer; S is then the reported sender |
| Verifiers.VerdictFor | backend/watcher/watcher.go:168-199 | with the node's answer for a signature, acceptance means the signature is known there and its transaction follows the rule, and a refusal has the reason the rule gives |
| Verifiers.VerifySignature | backend/watcher/watcher.go:168-310 | the whole verification of a signature computes that answer |
| Verifiers.VerifyDirectSignature | backend/watcher/watcher.go:357-454 | likewise for the direct rule |
| Verifiers.DetectSignature | backend/watcher/watcher.go:312-355 | the search of the recent signatures returns the first listed one whose memo contains the reference and that verifies |
| Verifiers.DetectionIsVerified | backend/watcher/watcher.go:312-355 | what it finds is the first listed signature that verifies, with its sender; when it finds nothing there is nothing to find |
| WireRules.TransferIsOnWire | backend/watcher/watcher.go:244-288 | under any key table the verifiers read exactly two kinds of instruction as transfers: a Transfer over source, destination, owner and a TransferChecked over source, mint, destination, owner, each with eight amount bytes after its opcode |
| WireRules.RulesOnWire | backend/watcher/watcher.go:227-309 | for every transaction and int64 amount both rules as facts about accounts and bytes: nothing moves in the merchant's name, something moves the amount, read as unsigned, into his token account, and a memo of either program holds the reference, or instead everything moves in the sender's name |
| WireRules.VerdictOnWire | backend/watcher/watcher.go:168-310 | the whole answer on the wire: the first reason that applies, in the code's order, or else the owner of the last matching transfer |
| WireRules.OneTransferIsAccepted | backend/watcher/watcher.go:227-309 | a transaction with one transfer of either kind among other instructions is accepted exactly for the right account, amount and reference, unless its owner is the merchant; the owner is the reported sender |
| WireRules.OneTransferIsAcceptedDirectly | backend/watcher/watcher.go:404-452 | the direct verifier accepts it exactly for its owner, and says which offence it commits otherwise |
| WireRules.CheckedPaymentIsAccepted | backend/watcher/watcher.go:266-286 | so for a TransferChecked of any source, mint and decimals with a memo before or after it under either memo program |
| PaymentService.Service.FinalizePaid | backend/api/checkout.go:604-669 | the duplicate-email check, then the invoice row, then the checkout row, whose insertion fails on the foreign key when the event is gone |
| PaymentService.Service.LoadIdempotentResponse | backend/api/v1_payment.go:524-538 | a stored reply is found only under a non-blank owner and key |
| PaymentService.Service.SaveIdempotentResponse | backend/api/v1_payment.go:540-555 | the save upserts under the same condition |
| PaymentService.Service.HandleCreateEvent | backend/api/events.go:142-218 | the new state and reply of creating an event; the invariant is kept and nothing undone |
| PaymentService.Service.HandleUpdateEvent | backend/api/events.go:220-284 | updating is refused once the event has a paid deposit; otherwise the owner's event is rewritten; invariant kept |
| PaymentService.Service.HandleDeleteEvent | backend/api/events.go:286-308 | deleting is refused once the event has a paid deposit; otherwise it cascades; invariant kept |
| PaymentService.Service.DeleteCascading | backend/migrations/000014_add_headless_v1_tables.up.sql:3 | one delete removes the event, its slug, checkouts, sessions and attempts |
| PaymentService.Service.HandleCreateInvoice | backend/api/checkout.go:137-234 | the checks in order, then a live invoice that snapshots amount, merchant and event; invariant kept |
| PaymentService.Service.HandleCancelInvoice | backend/api/checkout.go:236-257 | unsigned pending rows and the live invoice go; invariant kept |
| PaymentService.Service.HandleConfirm | backend/api/checkout.go:259-317 | confirming: verify, keep a refusal in the invoice row, or finalize and drop the live invoice; invariant kept |
| PaymentService.Service.HandleRecheck | backend/api/checkout.go:319-390 | rechecking: a paid checkout is reported, otherwise verify and finalize; invariant kept |
| PaymentService.Service.HandleDetect | backend/api/checkout.go:499-561 | detecting: the first listed verified signature is finalized, its sender filling an empty wallet; invariant kept |
| PaymentService.Service.HandleManualVerify | backend/api/checkout.go:392-450 | manual verification: a direct transfer becomes a paid invoice and checkout under a new reference; invariant kept |
| PaymentService.Service.HandleV1Create | backend/api/v1_payment.go:44-183 | creating a session: replay, event lookup, checks, live invoice, then the session row, which the unique index may refuse; invariant kept |
| PaymentService.Service.CheckSession | backend/api/v1_payment.go:97-130 | the refusals of a session in the order the code takes them |
| PaymentService.Service.HandleV1Submit | backend/api/v1_payment.go:246-322 | submitting a signature: verifying, then failed or paid with an attempt, reply saved; invariant kept |
| PaymentService.Service.HandleV1Cancel | backend/api/v1_payment.go:324-361 | cancelling a session that is not paid; invariant kept |
| PaymentService.Service.HandleV1Detect | backend/api/v1_payment.go:433-489 | detecting for a session: verify against its copy, finalize, mark paid; invariant kept |
| PaymentService.Service.MarkCheckoutPaid | backend/watcher/watcher.go:107-120 | status and signature are set, paid_at and wallet only when unset or empty |
| PaymentService.Service.MarkCheckoutFailed | backend/watcher/watcher.go:122-132 | only a row that is not paid becomes failed |
| PaymentService.Service.HandleSweep | backend/watcher/watcher.go:44-105 | an uninterrupted sweep over the rows its SELECT returned; invariant kept |
| PaymentService.Service.ExpireInvoice | backend/api/checkout.go:221-224 | Redis may drop any invoice when its time is over; invariant kept |
| PaymentSteps.EmailsStayApart | backend/api/checkout.go:622-640 | the duplicate check keeps finalized checkouts with guarded emails apart |
| PaymentSteps.FinalizeIsGood | backend/api/checkout.go:604-669 | finalizing a live reference whose payment verified either pays it, after which dropping its invoice restores the invariant, or leaves at most an invoice row |
| PaymentSteps.CascadeSparesPaid | backend/api/events.go:286-296 | a delete that passes the paid-deposit check reaches no paid checkout and no paid session |
| PaymentSteps.CreateCheckoutInvoiceIsGood | backend/api/checkout.go:137-234 | opening a reference keeps the invariant and undoes nothing |
| PaymentSteps.ConfirmIsGood | backend/api/checkout.go:259-317 | so does confirming |
| PaymentSteps.RecheckIsGood | backend/api/checkout.go:319-390 | so does rechecking |
| PaymentSteps.DetectIsGood | backend/api/checkout.go:499-561 | so does detecting |
| PaymentSteps.ManualVerifyIsGood | backend/api/checkout.go:392-450 | so does manual verification |
| PaymentSteps.V1CreateIsGood | backend/api/v1_payment.go:44-183 | so does creating a session, also when its row is refused |
| PaymentSteps.V1SubmitIsGood | backend/api/v1_payment.go:246-322 | so does submitting, however it ends |
| PaymentSteps.V1CancelIsGood | backend/api/v1_payment.go:324-361 | so does cancelling a session |
| PaymentSteps.V1DetectIsGood | backend/api/v1_payment.go:433-489 | so does detecting for a session |
| PaymentSteps.DeleteEventIsGood | backend/api/events.go:286-308 | so does deleting an event with its cascade |
| PaymentSteps.UpdateEventIsGood | backend/api/events.go:220-284 | so does updating an event |
| PaymentSteps.RecoverRowIsGood | backend/watcher/watcher.go:83-105 | so does one turn of a sweep, however long after its SELECT |
| PaymentRuns.StepIsGood | backend/api/v1_payment.go:246-322 | every allowed step of the machine keeps the invariant and undoes nothing |
| PaymentRuns.RunIsGood | backend/watcher/watcher.go:44-105 | and so does every run |
| PaymentTheorems.PaidWasVerified | backend/api/checkout.go:293-306 | in every reachable state each paid checkout holds a signature whose transaction passes the verifier for its amount and the merchant snapshotted with the reference; manual rows pass the direct verifier for their wallet and event, recovered rows the one for a merchant their event had at some moment of the run |
| PaymentTheorems.OpeningTakesSnapshot | backend/api/checkout.go:206-220 | a reference is opened with the amount and merchant its event has at that moment, and no other step opens one |
| PaymentTheorems.SelectingTakesMerchant | backend/watcher/watcher.go:45-57 | a sweep reads a row only as it is at that moment, with the merchant its event then has, and no other step reads one |
| PaymentTheorems.SelectedWasCurrent | backend/watcher/watcher.go:45-77 | so along any run each row that was read was current at some moment of it |
| PaymentTheorems.CopiesAgree | backend/api/v1_payment.go:137-164 | a session's copy and the live invoice agree, so both families of handlers verify the same payment |
| PaymentTheorems.NeverLiveAndPaid | backend/api/checkout.go:276-311 | between steps no reference is both live and in the checkouts |
| PaymentTheorems.PaidIsFinal | backend/api/checkout.go:646-667 | once paid, a checkout's row never changes in any continuation although the upsert would overwrite it, and outside recovery its invoice row stays paid with the same signature |
| PaymentTheorems.AtMostThreeChanges | backend/api/v1_payment.go:285-313 | over every write of every handler a session changes state at most three times |
| PaymentTheorems.StatesOnlyClimb | backend/api/v1_payment.go:347-353 | states only move up awaiting, verifying, failed, then paid or cancelled; paid is absorbing |
| PaymentTheorems.CancelSealsReference | backend/api/v1_payment.go:347-353 | after a cancel, or a stalled submission, the reference's checkout never changes again in any run |
| PaymentTheorems.AttemptLedger | backend/api/v1_payment.go:297-313 | a session is paid exactly when it has exactly one paid attempt, whose signature is the session's and its paid checkout's; at most one failed attempt, and then it is failed, cancelled or paid |
| PaymentTheorems.PaidEventIsLocked | backend/api/events.go:432-442 | once an event has a paid checkout no run edits or deletes it or loses any of its paid checkouts or paid sessions |
| PaymentTheorems.OneCheckoutPerEmail | backend/api/checkout.go:622-640 | in every reachable state two finalized checkouts of one event with the same guarded email are the same |
| PaymentTheorems.GuardedStrings | backend/api/checkout.go:671-693 | a string email is guarded exactly when it has no surrounding blanks, is not empty and does not lower-case to the text of a missing value |
| PaymentTheorems.DuplicateRefusedIffGuarded | backend/api/checkout.go:622-640 | where stored emails are strings, an address is refused if and only if a stored address of the event that Go compares equal is guarded, whatever the new one looks like |
| PaymentTheorems.RecordsAreWrittenOnce | backend/api/v1_payment.go:540-555 | a record once written is the same in every continuation although the save upserts |
| PaymentTheorems.CreateIsReplayed | backend/api/v1_payment.go:63-70 | after a creation under a key, every later one under it gives that reply and changes nothing |
| PaymentTheorems.SubmitIsReplayed | backend/api/v1_payment.go:276-283 | likewise for submitting, for every session of the owner that still exists; only a blank signature is refused first |
| PaymentTheorems.CancelIsReplayed | backend/api/v1_payment.go:339-346 | likewise for cancelling |
| PaymentTheorems.KeylessCollision | backend/migrations/000014_add_headless_v1_tables.up.sql:24 | a creation that passes every check fails exactly when it has no key and the owner already has a session without one, and then leaves a live invoice of no session |
| PaymentOutcomes.ConfirmPaysIff | backend/api/checkout.go:259-317 | confirming pays exactly a live reference whose signature verifies, whose event exists and whose email is free, books what its invoice holds and reports it as paid with that signature, participant and channel; a refused signature and the verifier's reason go into the invoice row, a verified one that cannot be booked leaves that row marked paid exactly when the event is gone, and nothing else changes |
| PaymentOutcomes.RecheckPaysIff | backend/api/checkout.go:319-390 | the same for rechecking, which reports a paid checkout with its signature and otherwise changes nothing |
| PaymentOutcomes.DetectPaysIff | backend/api/checkout.go:499-561 | the same for the first listed signature with its memo that verifies, whose sender stands in for a wallet not given; pending is answered exactly when a live reference has none |
| PaymentOutcomes.SessionIsCreatedIff | backend/api/v1_payment.go:97-172 | a session is created exactly for an admitted payer with a free key; row, live invoice and reply agree, and when only the key is taken the invoice is left behind |
| PaymentOutcomes.SubmitOutcome | backend/api/v1_payment.go:285-318 | a submission the session may take stalls on a dead reference, settles session and reference when the signature pays and reports it, and fails the session otherwise, each with its attempt and the exact invoice row; any other changes nothing |
| PaymentOutcomes.SessionDetectPaysIff | backend/api/v1_payment.go:453-483 | detecting reports a paid session, and otherwise pays session and reference together and reports it, exactly when a listed signature verifies and the reference is payable; one that cannot be booked leaves the session alone and the invoice row as for confirming |
| PaymentOutcomes.DeletionTakesExactly | backend/migrations/000005_event_checkout_platform.up.sql:31 | a delete by the owner takes exactly the event, its slugs, checkouts, sessions and their attempts, none of them paid, and leaves everything else alone |
| PaymentBooks.StepBooks | backend/api/checkout.go:604-669 | any allowed step on a reachable state pays one payable reference, with its session only if the step was that session's, or verifies a payment the database refuses, or adds one manual row, or makes no checkout, session or invoice row paid |
| PaymentBooks.OpenedIsPaidIff | backend/api/checkout.go:137-317 | an invoice opened for an admitted payer and paid as it was opened is booked, confirmed after any run, if and only if the reference is still live, the event still there and the email still free; booked is the amount at the opening |
| PaymentBooks.CancelledStaysDead | backend/api/checkout.go:236-257 | a cancelled reference is never live again in any continuation, and its checkout, if any, stays as it was |
| PaymentBooks.OrphanInvoiceIff | backend/api/checkout.go:646-667 | in every reachable state the paid invoice row of an opened reference has no checkout if and only if its event is gone |
| PaymentBooks.DeletedEventLeavesPaidInvoice | backend/api/checkout.go:646-667 | and such rows arise by confirming, rechecking and detecting alike: the row is marked paid, no checkout inserted, an error answered |
| PaymentBooks.PaidTogetherIff | backend/api/v1_payment.go:297-313 | when a step pays a session's reference, the session becomes paid exactly when the step was a submission to, or a detection for, that session |
| PaymentBooks.LeftBehindForever | backend/api/checkout.go:293-311 | a session whose reference a legacy handler paid is never paid in any continuation |
| PaymentBooks.FinalizedWasFree | backend/api/checkout.go:622-640 | a reference that any step finalizes had a free email just before |
| PaymentBooks.GuardedEmailIsUsedUp | backend/api/checkout.go:622-640 | once a checkout with a guarded email is paid, no continuation finalizes another reference of the event for an address Go compares equal |
| PaymentBooks.SecondIsPaidIffUnguarded | backend/api/checkout.go:259-317 | a live reference is paid by a signature that verifies if and only if no paid checkout of its event has a guarded address equal in Go |
| PaymentBooks.BlankEvadesGuard | backend/api/checkout.go:622-640 | with a stored trailing blank, from a reachable state with a second live reference, the event ends with two paid checkouts for one address |
| PaymentAnswers.PaidIsReported | backend/api/checkout.go:583-602 | in every continuation a recheck, a detection or a session's detection of a paid checkout answers paid, with the signature, participant and channel booked for it, and changes nothing |
| PaymentAnswers.PaymentIsReported | backend/api/checkout.go:293-316 | whatever step pays an opened reference books what its live invoice held, for a signature that pays it on the chain, and whoever asks in any continuation is told so |
| PaymentAnswers.OpeningRefusesIffGuarded | backend/api/checkout.go:671-693 | where stored emails are strings, the opening refuses an address exactly when a guarded one equal in Go has paid |
| PaymentAnswers.OpenedIsPayable | backend/api/v1_payment.go:97-164 | a reference that either opening handler makes live is payable at once |
| PaymentEvents.EventIsCreatedIff | backend/api/events.go:142-218 | an event is created exactly for a valid merchant, a price and a slug no event has, under a new identifier, for that owner and price |
| PaymentEvents.EventIsEditedIff | backend/api/events.go:220-284 | an event is rewritten exactly by its owner, for a valid merchant and price, while nothing in it is paid, and then in its price, merchant, expiry and channels alone |
| PaymentEvents.OnlyOwnersChangeEvents | backend/api/events.go:272-303 | whatever the step, an existing event is only changed by an edit and only removed by a delete of its owner, its owner and slug stay, and slugs stay a unique index |
| PaymentEvents.OwnerAndSlugStay | backend/api/events.go:254-283 | over any run an event that is still there has its owner and slug, one that has gone does not come back, and one that differs was edited by its owner |
| PaymentEvents.SlugFindsItsEvent | backend/api/checkout.go:157-166 | in every reachable state a slug finds exactly the active event that has it |
| PaymentEvents.SessionIsForNamedEvent | backend/api/v1_payment.go:49-96 | a creation is answered from the record of its caller's trimmed email and key, or is for the event it names by identifier or else by slug, or is refused |
| SweepTheorems.TurnIsSafe | backend/watcher/watcher.go:83-105 | with anything interleaved since the SELECT, a turn never demotes a paid row, changes a set paid_at, a non-empty wallet or a signature, and pays only what verifies |
| SweepTheorems.RecoveryIsFinal | backend/watcher/watcher.go:83-132 | a turn pays an unpaid row exactly when its signature verifies, and then for every continuation; it fails one that does not verify exactly when it is over an hour old |
| SweepTheorems.SmallSelectionIsComplete | backend/watcher/watcher.go:45-57 | with at most 200 eligible rows the SELECT returns them all |
| SweepTheorems.SecondSweepChangesNothing | backend/watcher/watcher.go:44-105 | a second sweep at the same time and chain then changes no table |
| SweepTheorems.LoopRewritesEachRow | backend/watcher/watcher.go:60-105 | the loop rewrites each selected checkout once and no other |
| SweepTheorems.SweepOutcome | backend/watcher/watcher.go:44-132 | an uninterrupted sweep changes only pending or failed checkouts with a signature and less than a day old, at most 200; each it pays for its event's merchant, with its sender for a missing wallet, or fails over an hour, unless at least 200 others as new are due |
| SweepTheorems.SweepIsRun | backend/watcher/watcher.go:44-105 | an uninterrupted sweep is one of the runs |
| SweepTheorems.RecoveredForEventMerchant | backend/watcher/watcher.go:71-91 | a row an uninterrupted sweep recovers was paid to the merchant its event has, then and in every continuation |
| SweepTheorems.RecoveredMerchantIff | backend/watcher/watcher.go:71-91 | a turn that pays a row pays the merchant the sweep read; that is the event's merchant in every continuation if and only if it still is at the turn |
| SweepTheorems.RecoveryAfterEdit | backend/watcher/watcher.go:44-105 | a run of SELECT, edit and turn that ends with a row paid to the former merchant |
| TransferBuilder.PrintedPriceReadsBack | backend/api/checkout.go:123 | a whole-dollar price printed with two decimals reads back as itself |
| TransferBuilder.AmountSurvivesIff | frontend/src/lib/solana.ts:78-98 | from the stored amount over division, printing, parsing and multiplication, the amount sent is the amount stored if and only if that is a double |
| TransferBuilder.RealisticAmountSurvives | backend/api/events.go:197 | so every price from 1 to 9,007,199,254 dollars survives |
| TransferBuilder.EightBytesAreRead | backend/watcher/watcher.go:244 | eight little-endian bytes decode to the amount they encode |
| TransferBuilder.BuiltInstructions | frontend/src/lib/solana.ts:78-98 | what the verifier sees of each of the three built instructions, under any table of account keys |
| TransferBuilder.BuiltPaymentIsAccepted | backend/watcher/watcher.go:227-309 | a built payment is accepted exactly for the references inside its memo and the amount it was built for, unless the payer is the merchant; the payer is the reported sender |
| TransferBuilder.OneReferencePerMemo | backend/watcher/watcher.go:233-238 | a memo that is a reference contains no other of that length |
| TransferBuilder.WholeDollarPaymentIsAccepted | frontend/src/lib/solana.ts:63-100 | the whole trip of a whole-dollar payment, accepted for exactly one 36-character reference |
| Markup.EscapeChar | backend/api/import.go:365-372 | an escaped character holds no tag delimiter and no quote |
| Markup.UnescapeUndoesEscape | backend/api/import.go:369 | unescaping undoes escaping |
| Markup.AttributesAreRead | backend/api/import.go:360 | a printed attribute list reads back as it was, whatever its values |
| Markup.EscapedTextReads | backend/api/import.go:365-372 | escaped text reads as exactly its characters, whatever follows it |
| MirrorRenderer.RenderText | backend/api/import.go:365-402 | a text node is its escaped text, wrapped by its marks in order |
| MirrorRenderer.RenderImage | backend/api/import.go:354-364 | an image without a source prints nothing |
| MirrorRenderer.RenderLumaDescriptionMirrorHTML | backend/api/import.go:322-403 | the recursive renderer prints the specified markup for every tree |
| MirrorRenderer.RenderMirrorChildren | backend/api/import.go:405-414 | its loop over children prints them in order |
| MirrorRenderer.MarkedTextPrints | backend/api/import.go:371-400 | every list of marks keeps text and balance |
| MirrorRenderer.MirrorReadsBack | backend/api/import.go:322-414 | for every tree, reading the output gives exactly the document's tags, attribute values and characters; the markup is balanced; stripped of tags it is the tree's text in document order |
| MirrorMeaning.OutputTellsDocument | backend/api/import.go:322-414 | for every tree, the tags of the output by their HTML meaning are the tree's own types, heading levels, marks, links, images and line breaks, with its characters, in order, and nothing else |
| MirrorMeaning.SameOutputSameDocument | backend/api/import.go:322-414 | so the output determines the document, up to nodes that do not show |
| CandidateSearch.ImageCandidateScore | backend/api/import.go:460-512 | the scoring loops compute the score |
| CandidateSearch.Search.ApplyBestDescriptionCandidate | backend/api/import.go:268-278 | a candidate replaces the current description exactly when its score is higher |
| CandidateSearch.Search.ApplyBestDescriptionHTMLCandidate | backend/api/import.go:280-290 | likewise for the rendered description |
| CandidateSearch.Search.ApplyBestImageCandidate | backend/api/import.go:450-458 | likewise for images, against the trimmed current one |
| CandidateSearch.Search.ExtractFromGenericJSON | backend/api/import.go:146-239 | the search applies the candidates of the document in the order of some traversal, map entries in any order |
| CandidateRules.FieldsInOrder | backend/api/import.go:146-215 | of every object exactly these fields are tried, in this order: the mirror in events, seven text fields as the kind of object allows, eight image fields |
| CandidateRules.HostsAreRecognized | backend/api/import.go:556-575 | an object is a host's profile with at least three of ten fields |
| CandidateRules.EventsAreRecognized | backend/api/import.go:577-602 | it is an event by its type or with at least two of thirteen fields |
| CandidateRules.PreferredIff | backend/api/import.go:292-320 | of two texts one is preferred exactly when its bytes, the bonus of its field and its layout add up to more |
| CandidateRules.BytesAreUtf8 | backend/api/import.go:296 | the length of a text is that of its UTF-8 encoding |
| CandidateRules.ImageScoreIs | backend/api/import.go:460-512 | what an image address is worth, word by word |
| CandidateRules.AddressesNormalize | backend/api/import.go:536-554 | a gallery file is asked for in the small square format from the first place its path names the gallery; any other address is only trimmed |
| CandidateTheorems.TraversalMeetsAll | backend/api/import.go:229-237 | every traversal meets exactly the candidates the document offers |
| CandidateTheorems.DescriptionIsOrderIndependent | backend/api/import.go:268-290 | any two visiting orders end with the same score, the maximum over the document, and with the same value when one alone attains it |
| ImageTheorems.TrimmingScoresNoLess | backend/api/import.go:460-512 | trimming a name never lowers its score |
| ImageTheorems.UnmaskedSearchReachesBest | backend/api/import.go:450-458 | without a masking name the search ends with a best image |
| ImageTheorems.ImageSearchIsBestIff | backend/api/import.go:450-458 | a visiting order ends with a best image if and only if it never takes a name that scores less than the best while its trimmed form does not |
| ImageTheorems.NoMaskAfterBest | backend/api/import.go:450-458 | once a name that is or passes for the best has been met, no such name is taken any more |
| ImageTheorems.DocumentIsBestIff | backend/api/import.go:146-239 | every traversal of a document ends with a best image if and only if no traversal takes such a name |
| ImageTheorems.ImageIsOrderIndependent | backend/api/import.go:146-239 | over a document without such a name every traversal ends with a best image, the same one when it is unique |
| ImageTheorems.DecodedBlankStays | backend/api/import.go:536-554 | a percent-encoded blank at the end of a gallery path survives normalization |
| ImageTheorems.OrderMatters | backend/api/import.go:229-237 | one concrete document has two traversals whose images differ in score |
| ImageTheorems.HarmlessMask | backend/api/import.go:146-239 | a document that offers such a name and still ends with the best image in every traversal, its fields having a fixed order |
| AgentKeyCache.AgentKeys.AgentPublicKeysFromDB | backend/middleware/auth.go:224-250 | the loop collects exactly the usable rows |
| AgentKeyCache.AgentKeys.Peek | backend/middleware/auth.go:261-267 | the cached map is used exactly while it is set and not expired |
| AgentKeyCache.AgentKeys.Invalidate | backend/middleware/auth.go:252-257 | invalidation empties the cache |
| AgentKeyCache.AgentKeys.AgentPublicKeys | backend/middleware/auth.go:259-280 | undisturbed, a lookup returns the current effective set whenever the database answers |
| AgentKeyCache.AgentKeys.UpsertAgentKey | backend/api/agent_keys.go:74-118 | after an upsert the key is among the rows' keys and the cache cannot be stale |
| AgentKeyCache.AgentKeys.RevokeAgentKey | backend/api/agent_keys.go:120-151 | after a revocation the key is not, and the cache cannot be stale |
| AgentKeyCache.SectionKeepsOk | backend/middleware/auth.go:252-280 | every atomic section, in any interleaving, keeps the bound on the age of cached and returned keys |
| AgentKeyCache.StalenessIsBounded | backend/middleware/auth.go:252-280 | a lookup that read the clock at t returns what a read answered at some moment after t minus the time to live |
| AgentKeyCache.ReturnedKeysWereEffective | backend/middleware/auth.go:259-280 | with a database that always answers, that is a key set effective after that moment |
| AgentKeyCache.RevokedKeyIsGone | backend/middleware/auth.go:252-280 | whatever is interleaved, a lookup that reads the clock a time to live or more after the revocation does not return the key |
| AgentKeyCache.RevokedKeyReturnsIff | backend/api/agent_keys.go:137-147 | a revoked key can come back d after its revocation if and only if d is less than the time to live |
| SettlementLimiter.Settlement.AgentCheckoutCreate | backend/api/agent_runtime.go:184-284 | the table after a call and its answer |
| SettlementLimiter.EveryHourIsBounded | backend/api/agent_runtime.go:214-237 | every hour, at any time, holds at most a bound of an agent's settled intents, if it did before and no call's policy limit, or ten without a positive one, is above it |
| SettlementLimiter.HourRefusesIff | backend/api/agent_runtime.go:197-237 | a call within the policy is rejected for the hour exactly when the hour before it holds as many settled intents as the policy's limit, or ten without a positive one |
| SettlementLimiter.NewIntentHolds | backend/api/agent_runtime.go:256-283 | a call that is not refused and whose key is new makes exactly one intent, of its own data |
| SettlementLimiter.OneIntentPerKey | backend/api/agent_runtime.go:239-262 | each agent has at most one intent per key, and an intent never changes once made |
| SettlementLimiter.RepeatsAnswerTheRecord | backend/api/agent_runtime.go:239-254 | every later call with a key leaves the table alone and is rejected by policy or answered with the recorded signature |
| SettlementLimiter.FirstCallFixesAnswers | backend/api/agent_runtime.go:214-283 | in any run a call that makes an intent under a key fixes the answer of every later call under it: 403 when policy or hour refuse it, otherwise the first answer, or settled with an empty signature when the first was refused for want of a signer |
| RequestLimiter.KeysAreDistinct | backend/middleware/ratelimit.go:46 | keys of different tags, addresses or buckets differ, even for addresses with colons |
| RequestLimiter.Limiter.RateLimit | backend/middleware/ratelimit.go:41-65 | the counters after a request and its answer |
| RequestLimiter.ServeKeepsLasting | backend/middleware/ratelimit.go:54-56 | a counter never expires inside its own bucket |
| RequestLimiter.BucketAdmitsUpToLimit | backend/middleware/ratelimit.go:23-63 | each bucket lets through exactly the first requests, up to the limit, of each tag and address |
| RequestLimiter.AdmittedIff | backend/middleware/ratelimit.go:58-63 | a request is let through exactly when its bucket has counted fewer than the limit |
| RequestLimiter.AnyMinuteIsBounded | backend/middleware/ratelimit.go:23-63 | any sixty seconds, aligned or not, let through at most twice the limit |
| RequestLimiter.AdmittedIffFewEarlier | backend/middleware/ratelimit.go:27-65 | after any run a counted request is let through exactly when fewer than 30, 12 or 10, as its path says, came before it in its minute from its address to its endpoint |
| RequestLimiter.AnyMinuteLetsThrough | backend/middleware/ratelimit.go:27-63 | and any sixty seconds let through at most twice as many |
| EventSlug.BuildEventSlug | backend/api/events.go:444-472 | the loop computes the slug, which is a slug word |
| EventSlug.SlugIsWord | backend/api/events.go:444-472 | every title gives a word over a-z, 0-9 and dashes, of at most 64 characters, without leading, trailing or doubled dashes |
| EventSlug.FixedIffWord | backend/api/events.go:444-472 | the titles that are their own slug are exactly these words |
| EventSlug.SlugIsIdempotent | backend/api/events.go:444-472 | so slugging twice changes nothing, even after truncation |
| SlugWords.SlugIsJoinedWords | backend/api/events.go:444-472 | every title becomes its words in lower case, an ampersand being the word and, joined by dashes and cut at 64 characters |

## Left out

- HTTP decoding, status text, cookies, webhooks and email: a request is its decoded fields, an answer its code or report.
- Validation of the participant form: an accept-or-reject input of the opening handlers.
- Base58, associated token addresses, Ed25519, HMAC and bcrypt: functions of the environment, with only the fact that base58 text has no blanks.
- Fields no handler above reads back (titles, dates, schemas, invite codes, `error_reason` of attempts): not in the rows.
- The restriction invite codes put on deleting an event, and lookups of slugs that become inactive: events stay active here.
- Account indices out of range: transactions carry only indices their key table has, where the original would panic.
- RPC failover: one request sees one view of the chain, which may lack transactions.
- Races and crashes inside a handler, and failing database reads outside the key cache: handlers are atomic with reliable writes.
- Unicode lower-casing beyond the characters it maps into ASCII, and any difference between Go and SQL lower-casing: one function.
- The page's date, location and organizer search: first match wins there, so it does depend on the map order.
- `parseLumaHTML`, `normalizeImportedDescription` and `url.Parse`: regular expressions and library code, functions of the environment.
- The reader of printed markup resolves the five entities the renderer writes, not every HTML entity.
- Non-ASCII memos: references are ASCII text.
- Clock skew between Go, Redis and the database: one clock per limiter.
- Status, QR and wallet-instruction queries: they read only.
- Other spellings of a session id: ids are compared as strings, while the queries cast to uuid and also find upper-case or braced ones.
- Login, registration, tokens, policies other than the hourly limit, and the pages of the frontend: mostly single statements.
- PaymentTheorems.DuplicateRefusedIffGuarded: stored emails that are neither strings nor missing are excluded, because Go and SQL print such values by rules the model does not fix.
- AgentKeyCache.StalenessIsBounded: the time to live is constant during a run.
