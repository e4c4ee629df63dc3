# Billing service: verification model

The billing service bills customers for subscriptions, collects the money, retries failed payments, refunds,
gives credit, keeps a double-entry ledger, moves customers over from an older system and compares its ledger
with the payment gateway. This project models that behaviour and proves what the service is built to guarantee.

`dafny verify dfyconfig.toml` checks everything, within its default limits.

## How it is organised

**The money state machine.** `BillingState` holds the tables as one value and the row changes; `BillingHandlers`
says what each handler does to them, as one step (`Step`), and what a run is (`Run`): any sequence of handler
calls from empty tables, with any lines from callers, gateway replies, publication failures and redelivered
webhooks. A handler is atomic, as the code holds no lock between reading and committing; a transaction that throws leaves the tables it
found. `BillingChanges` shows that every handler is a short sequence of guarded row changes; `Books`,
`CustomerCredit`, `Payments` and `RefundCap` prove that every guarded change keeps an invariant, and
`BillingRuns` lifts them to runs. `LineItems`, `LineTotals` and `InvoiceTotals` are about line items,
`CreditOnLines` about the credit they show, `DraftTerms` about what drafts under other surcharge terms would have
come to, `DunningChains`, `DunningCascade`, `DunningProgress` and `DunningRecovery` about retries. `Database`, `InvoiceServices` and `PaymentServices` are the
services as classes that update the tables row by row, each method proved to end in the state its step gives, so
what is proved of runs is true of them. `InvoiceRules` and `PaymentRules` say what every step comes to, in all cases
and from the tables and the call alone: which rows, amounts, lines and journal rows, without the step's own functions.

**Time.** `Calendar` is the civil calendar with the overflow rules of `Date.UTC` (section 21.4.1 of ECMA-262);
`BillingDates` holds the month steps, due dates, next billing period and the migration's first cycle;
`Discounts` is about discount windows. `Subscriptions` is the schedule as a state machine (`Act`, `History`):
scheduler turns, advances, pauses, cancels, resumes, subscription events, voids. `SchedulerRuns` and
`PeriodTiling` prove what holds over its histories, `ScheduleRules` says what its actions come to from the profiles,
the rows and the call alone, `SubscriptionServices` is the imperative service with the
scheduler's loop. An invoice appears there with its status and period only; how it gets finalised is the money
machine's business, and the outcome (aborted, or billed and paid or not, published or not) is arbitrary.

**Migration.** `Migration` is the six-step pipeline with its preview and its rollback, `MigrationUndo`,
`MigrationBooks` and `MigrationPreview` the theorems, `MigrationServices` the loops that write and delete rows.
`MigrationRules` and `MigrationOutcome` say when a migration finishes and which rows it and a rollback leave, from the
request and the tables before alone.

**Two algorithms and a small machine.** `Reconciliation`, `BillingHistory`, `PaymentMethods`.

Sums over tables are `Sums.SumBy`, account balances `Ledger.Net`. `Options` is the usual datatype.

Choices that hold throughout:

- The id a handler generates and the row a query returns are parameters. They are constrained by what the query
  filters on; where the source takes the newest or the oldest match, the model takes any match, so the theorems
  hold for every order.
- A charge row is identified by its unique idempotency key. A generated key names invoice and attempt number; a
  one-time charge brings any key its caller likes.
- Amounts are integer cents without a width. Dates are days at midnight UTC.
- Book equations use max(total, 0), so they need no assumption about subtotals: a negative total is finalised
  without a journal row. `PlainTotalsBalance` says when they hold for the plain totals.

## What the proofs turned up

- When the payroll cannot be fetched, the next draft is seeded with the lines of the closed invoice, its credit
  line among them: one note of 100 takes 100 off two invoices (`SeedingGivesCreditAgain`). The journal and the
  balance know of one use, so credit is conserved on them (`CreditIsConserved`); the invoice lines account for it
  exactly when no draft is given lines with credit on them (`LinesConserveExactly`).
- Dunning attempt 1 reuses the key of the first charge: it replays that charge's stored result and never recovers
  an invoice, whatever keys callers bring (`FirstRetryReplays`, `FirstAttemptNeverSucceeds`).
- A one-time charge may bring a key of the generated form; then a later attempt on the invoice named in it
  succeeds without paying (`BorrowedKeyRecovers`). `RecoveredIsPaid` says exactly when that happens.
- The seeding copy drops an employee's bonus and keeps the credit line: an invoice of 300 that credit paid becomes
  a finalized one of -50, and receivables and revenue no longer are the plain totals (`CopyCanBeNegative`).
- When advancing a subscription fails after its invoice is billed, every later scheduler run skips it
  (`UnadvancedIsStuck`, reached in `StuckIsReached`; `TurnMoves` says exactly when a turn gets past the period).
- Resuming a subscription inside a period already billed bills those days again (`ResumeBillsDaysAgain`,
  `FirstPeriodAfterRestart`); with resumes on or after the end of what is billed no day is billed twice
  (`BilledPeriodsDoNotOverlap`).
- The due date of a postpaid customer is clamped twice, first to the month before: charged on the 31st after the
  period of March 2026, a customer is due on the 28th (`PostpaidClampsTwice`). `PostpaidDayIsClamped` says exactly
  when the date is the charge day or the last one of its month.
- `calculateNextBillingPeriod` returns, for postpaid customers, a due date one month before the one
  `calculateInvoiceDueDate` gives for the same period (`NextPeriodDueIsConsistent`).
- A rollback cannot undo a migration that linked a draft to its subscription: the foreign key from invoices to
  subscriptions aborts it (`RollbackUndoesMigration`, `RollbackCanAbort`).
- A dry run can disagree with the real run: it misses a starting balance that does not parse, a payment method
  that is needed and missing, and that an item sent twice is skipped the second time (`PreviewMissesBalances`,
  `PreviewMissesMethods`, `PreviewMissesRepeats`). `PreviewPredictsRun` is the exact condition.
- A balanced reconciliation can hide a payment posted twice for one intent (`BalancedCanHideDuplicates`); what it
  hides is the difference of what each side's map loses (`BalancedHidesLosses`).
- A billing-history page that ends between two items of one timestamp loses the second (`WalkShowsAll`,
  `WalkLosesTie`).
- A credit note may refer to an invoice not billed yet and is then checked against a total that still has its
  draft surcharge: above the subtotal the surcharge decides (`NotesSeeDraftTotals`, `NoteDependsOnFee`).
- Deactivating the mandate of the default method leaves the customer without a default although other methods
  are active (`DeactivationCanLoseDefault`); attaching another card does not repair it (`LostDefaultComesBack`).
- The repository's README names the ledger accounts assets, liabilities, revenue, expenses and equity; the code
  posts to accounts_receivable, cash, revenue, credits and refunds. The model follows the code.

## Model

| member | source | states |
|---|---|---|
| `BillingRuns.LedgerAgreesWithTables` | src/ledger/ledger.service.ts:44-271 | In every state of every run the net debit of each of the five accounts equals a sum over the tables: receivables are finalized totals less credit balances, credits are the credit balances, revenue is minus the billed totals, cash is the paid totals less succeeded refunds, refunds are the succeeded refunds; and the five add up to zero |
| `BillingRuns.CreditIsConserved` | src/credits/credits.service.ts:35-236 | Per customer and in every state of every run, the signed credit notes issued equal the balance left plus the credit the journal says was spent on the customer's invoices |
| `CreditOnLines.LinesConserveExactly` | src/subscriptions/subscriptions.service.ts:674-701 | The credit shown on a customer's invoice lines accounts for the notes in all states of a run if and only if no call gives a draft lines with credit on them: neither a caller's lines nor a copy of an invoice that shows credit |
| `CreditOnLines.ShownCreditIsAccounted` | src/subscriptions/subscriptions.service.ts:674-701 | In every state the notes issued equal the balance plus the credit shown on the lines, less the credit that calls brought onto lines without its being spent |
| `CreditOnLines.SeedingGivesCreditAgain` | src/subscriptions/subscriptions.service.ts:674-701 | A run in which one note of 100 takes 100 off two invoices of 300, the second seeded as a copy of the first |
| `BillingRuns.PaidExactlyOnce` | src/webhooks/webhook-processing.service.ts:227-330 | In every state an invoice has at most one cash posting, of exactly its total; a positive total is paid if and only if that posting exists, and a total of zero or less never has one |
| `BillingRuns.NoSecondSuccess` | src/charges/charges.service.ts:114-208 | No two different charges of one invoice are ever succeeded, at whatever two moments of a run, whether by direct charges, retries, one-time charges or webhooks |
| `BillingRuns.BilledIsFrozen` | src/invoices/invoices.service.ts:572-638 | From the moment an invoice leaves draft its total and lines never change, paid and void are final, and no journal row is lost |
| `BillingRuns.RefundsAreCapped` | src/refunds/refunds.service.ts:79-168 | In every state the succeeded refunds of a charge are at most its amount, and zero unless it was collected; net cash is never negative |
| `BillingRuns.RedeliveryOnlyMarks` | src/webhooks/webhook-processing.service.ts:106-225 | A success event redelivered after a failure between commit and marking posts nothing again: it only gets marked, and a third delivery changes nothing |
| `BillingRuns.RunFollows` | src/ledger/ledger.service.ts:348-408 | Any later state of a run extends any earlier one: the journal grows at its end, notes and refunds are kept, charges keep invoice and amount, invoices only continue |
| `Books.ChangeKeepsBooks` | src/ledger/ledger.service.ts:44-271 | Every guarded row change keeps the five account equations |
| `CustomerCredit.ChangeKeepsCredit` | src/credits/credits.service.ts:174-247 | Every guarded row change, whatever lines it gives a draft, keeps, per customer, notes issued equal to balance plus credit posted as spent |
| `CustomerCredit.StepMovesExcess` | src/subscriptions/subscriptions.service.ts:674-722 | One handler call moves the difference between the credit on a customer's lines and the credit posted as spent by exactly the credit on the lines it gives a draft, less what those lines replace |
| `Payments.ChangePaysOnce` | src/charges/charges.service.ts:172-208 | Every guarded row change keeps one posting per paid invoice and none elsewhere |
| `RefundCap.ChangeKeepsCap` | src/refunds/validate-refund-amount.ts:3-21 | Every guarded row change keeps what was collected for each charge at least what was refunded on it, and cash equal to the sum of what is held |
| `BillingChanges.StepReaches` | src/charges/charges.service.ts:65-414 | Every handler call that gives no draft its lines, with every outcome, is a sequence of row changes each allowed where it is made |
| `BillingChanges.WriteIsAllowed` | src/invoices/invoices.service.ts:966-1055 | A call that creates, seeds or rewrites a draft is one allowed change of that draft, or changes nothing |
| `LineTotals.SettlementForgets` | src/invoices/invoices.service.ts:1377-1475 | Finalising a draft whose total is the sum of its lines gives the same lines, credit and total as finalising it without its surcharge lines |
| `LineTotals.SettlementAddsUp` | src/invoices/invoices.service.ts:1411-1475 | The final total is the sum of the final lines, and is the other lines less the credit, plus the surcharge on just that remainder |
| `LineTotals.FinalisationAborts` | src/credits/credits.service.ts:183-231 | Finalising aborts if and only if the balance is negative, or positive with nothing left to pay |
| `LineTotals.SurchargeRounds` | src/invoices/invoices.service.ts:1477-1502 | A percentage surcharge is within half a cent of the exact one, halves rounded up; a flat one is its dollars; none without a card, without a rule or below half a cent |
| `LineTotals.FinalisationForgetsHistory` | src/invoices/invoices.service.ts:1504-1569 | Whatever recalculations came before, with whatever cards and rules, finalisation gives what it would have given on the untouched draft |
| `DraftTerms.DraftTermsAreForgotten` | src/invoices/invoices.service.ts:1377-1569 | Leave out any recalculations of a run and put any calls that write drafts under other surcharge terms: the run is still possible, and after every step journal, balances, notes, charges, refunds, dunning and every invoice that was ever billed are the same, others differing at most in surcharge lines and total; callers pass the sum of their lines, and a credit note for an invoice never billed is at most its subtotal |
| `DraftTerms.NotesSeeDraftTotals` | src/credits/credits.service.ts:45-60 | A credit note for a draft is issued whatever the surcharge terms of its last recalculation if and only if it is at most the subtotal; above that it is refused without a surcharge and issued with a large enough flat fee |
| `DraftTerms.NoteDependsOnFee` | src/credits/credits.service.ts:45-60 | A run in which a note of 350 is issued for a draft of 300 with a fee of 100; with the draft written under no fee the same calls are possible and the note is refused |
| `InvoiceTotals.PlainTotalsBalance` | src/ledger/ledger.service.ts:44-271 | In every state of every run, whatever callers pass, receivables are the finalized totals less the credit balances, and revenue minus the billed totals, if and only if no finalized total is negative |
| `InvoiceTotals.TotalsAreLineSums` | src/invoices/invoices.service.ts:966-1309 | In runs whose callers pass the sum of their lines as the total, every invoice total in every state is the sum of its lines, whatever the signs |
| `InvoiceTotals.FairRunsHaveNoNegativeTotal` | src/invoices/invoices.service.ts:1411-1475 | With matching totals, and no negative subtotal from callers, subscription amounts or seeded copies, no finalized total is negative |
| `InvoiceTotals.CopyCanBeNegative` | src/subscriptions/subscriptions.service.ts:674-722 | A run with matching totals in which the copy of an invoice paid by credit, without its bonus, is finalized with a negative total and the plain equations fail |
| `DunningChains.DunningIsSafe` | src/dunning/dunning.service.ts:89-427 | In every state the attempts on an invoice are numbered exactly 1..k with k within the limit, at most one is scheduled, a succeeded one is the last, and the chain has escalated exactly once if it ended in failure and otherwise not at all |
| `DunningChains.RetryKeepsOrder` | src/dunning/dunning.service.ts:89-283 | An execution that changes its chain makes the number of executions left strictly smaller, touches no other chain, and does nothing to a closed one |
| `DunningChains.ClosedStaysClosed` | src/dunning/dunning.service.ts:526-564 | No step reopens a closed chain: its attempts and escalations stay as they are |
| `DunningChains.FirstRetryReplays` | src/dunning/dunning.service.ts:548-554 | Executing the first attempt inserts no charge, posts nothing and pays nothing |
| `DunningCascade.CascadeFollowsOrder` | src/dunning/dunning.service.ts:285-374 | With a fixed ordered list of n distinct methods, in every state attempt j is recorded against method j (the only one if n is 1), no chain has more than min(n + 1, limit) attempts for n of at least 2, `limit` for 1 and one for 0, and a chain that has escalated has exactly that many |
| `DunningProgress.FailingChainCloses` | src/dunning/dunning.service.ts:199-283 | While every execution on an invoice fails, in every state of every run its chain has one attempt more than executions and is open, until the execution of that number, which closes it with a single escalation |
| `DunningProgress.FailureFails` | src/dunning/dunning.service.ts:89-283 | An execution fails its attempt when the invoice is owed and no method is left, or the charge is stored or reported as declined, pending or thrown; the chain becomes the failed one |
| `DunningProgress.FailureProgresses` | src/dunning/dunning.service.ts:376-427 | A failed attempt below the closing length records its method and schedules exactly one more; at the closing length it closes the chain with one escalation and adds none |
| `DunningProgress.ExecutionMovesOn` | src/dunning/dunning.service.ts:199-232 | Executing the scheduled attempt leaves its chain as it is if and only if the invoice is owed, a method is selected, and it cannot be charged or the charge throws and its failure event does not get out |
| `DunningRecovery.RecoveredIsPaid` | src/dunning/dunning.service.ts:199-232 | In all states of a run a succeeded attempt on an invoice means that it is paid, if and only if no execution on it finds a success stored under the attempt's key while the invoice is finalized, a method selected and ready |
| `DunningRecovery.FirstAttemptNeverSucceeds` | src/dunning/dunning.service.ts:548-554 | In no state of any run has the first attempt of a chain succeeded, whatever keys one-time charges bring; its key holds a charge of its own invoice |
| `DunningRecovery.OwnKeysRecover` | src/charges/charges.service.ts:416-446 | When one-time charges stay out of the generated keys, a succeeded attempt means a paid invoice in every state, and a charge with a generated key belongs to the invoice in it |
| `DunningRecovery.BorrowedKeyRecovers` | src/charges/charges.service.ts:117-161 | A run in which a one-time charge under the key of an invoice's second attempt makes that attempt succeed while the invoice stays unpaid |
| `InvoiceRules.FinalizedInvoice` | src/invoices/invoices.service.ts:650-745 | Finalising, in all cases: only a draft is; it aborts when the balance is negative, or positive with nothing to pay; otherwise the lines that are no surcharges stay (all lines if the surcharges sum to nothing), a credit line of the smaller of balance and subtotal follows, then the surcharge of the call's own card and rule on what is left; total, status, balance and the two journal rows are those of just these amounts, and nothing else changes |
| `InvoiceRules.CardCustomerPaysSurcharge` | src/invoices/invoices.service.ts:1445-1502 | A draft of 10000 of a customer charged 3 percent on a card is finalized at 10300, with a surcharge line of 300 |
| `InvoiceRules.BilledSubscription` | src/invoices/invoices.service.ts:749-897 | Billing a period without a draft comes to finalising one line of the subscription's amount, in the same terms |
| `InvoiceRules.CreatedDraft` | src/invoices/invoices.service.ts:966-1055 | A new draft has the caller's lines and total, and the surcharge of the call's card and rule on that total, to the nearest cent |
| `InvoiceRules.UpdatedDraft` | src/invoices/invoices.service.ts:1191-1309 | Lines and total are replaced, surcharge included, exactly when the customer has one recurring draft |
| `InvoiceRules.RecalculatedDraft` | src/invoices/invoices.service.ts:1504-1569 | All surcharge lines give way to the surcharge on the worth of the other lines, and the total is both |
| `InvoiceRules.SeededCopy` | src/subscriptions/subscriptions.service.ts:674-722 | A copied draft has the closed invoice's other lines in order, rebuilt ones with their new amounts, and total and surcharge on their worth; nothing is copied from an unknown, non-recurring or unlinked invoice |
| `InvoiceRules.VoidedInvoice` | src/invoices/invoices.service.ts:572-638 | A finalized invoice with a positive total becomes void and one row reverses its receivable; any other call changes nothing |
| `InvoiceRules.VoidedDraft` | src/invoices/invoices.service.ts:547-570 | The draft found, of the customer asked for, becomes void without a journal row |
| `InvoiceRules.IssuedNote` | src/credits/credits.service.ts:35-138 | A note is issued exactly for a known customer and a non-zero amount that does not exceed the named invoice of that customer; note, balance and one journal row move by the amount, in the direction of its sign |
| `PaymentRules.PaymentAttempt` | src/charges/charges.service.ts:65-414 | A payment attempt in all cases: only a finalized invoice with a method and a new key is charged; money taken makes it paid and posts its total, also when the events do not get out; what is reported, and when the first failure starts dunning |
| `PaymentRules.OneTimeCharge` | src/charges/charges.service.ts:416-588 | A new key, a method and a positive amount give an invoice of one line, finalized without credit or surcharge, posted and charged at once; anything else changes nothing |
| `PaymentRules.SelectsNextMethod` | src/dunning/dunning.service.ts:285-374 | The method selected is the only one, or the first of the list without a failed attempt on the chain, or none when all have failed |
| `PaymentRules.ExecutedRetry` | src/dunning/dunning.service.ts:89-427 | Executing an attempt in any state of a run: skipped for a paid or void invoice, failed with an escalation when no method is left, otherwise the payment attempt of its number, whose success ends the chain and whose failure appends the next attempt or escalates at the limit |
| `PaymentRules.SuccessEvent` | src/webhooks/webhook-processing.service.ts:227-330 | An unprocessed success event makes its charge succeeded and its invoice paid and posts exactly the total if and only if the charge is found and not succeeded and its invoice is finalized with a positive total; it is then marked when the events get out, is left unmarked when the ledger refuses the total, and otherwise only gets marked |
| `PaymentRules.PendingDebitIsCollected` | src/webhooks/webhook-processing.service.ts:287-325 | The success event of a pending bank debit of 300 makes charge and invoice succeeded and paid and posts 300 |
| `PaymentRules.FailureEvent` | src/webhooks/webhook-processing.service.ts:381-456 | An unprocessed failure event makes its charge failed, if one is found, changes nothing else, and is marked unless publishing throws |
| `PaymentRules.RefundCall` | src/refunds/refunds.service.ts:79-168 | A succeeded refund of the amount and one row of it out of cash are added if and only if the charge is known, of the owner asked for, succeeded and with an intent, what was given back plus the amount is at most the charge, the key is new, the gateway accepts and the amount is positive; without the last two a failed row is added, and otherwise nothing |
| `PaymentRules.RefundsUseUpCharge` | src/refunds/validate-refund-amount.ts:3-21 | Three refunds of 100 use up a charge of 300, and a fourth is refused |
| `Database.LedgerService.CreateEntry` | src/ledger/ledger.service.ts:348-408 | One row is appended for a positive amount; any other amount is refused and the journal is untouched |
| `InvoiceServices.CreditsService.ApplyCreditsToInvoice` | src/credits/credits.service.ts:168-243 | Line, invoice total, balance and journal move by the same applied amount, the smaller of balance and subtotal; it throws exactly when a non-zero balance gives nothing positive to apply |
| `InvoiceServices.CreditsService.IssueCreditNote` | src/credits/credits.service.ts:35-138 | Ends in the state of the credit-note step: note, balance and journal together, or nothing for an unknown customer, a foreign invoice, too large or zero an amount |
| `InvoiceServices.InvoicesService.StripExistingSurchargeLineItems` | src/invoices/invoices.service.ts:1377-1402 | Returns what the surcharge lines sum to and deletes exactly those lines when that is positive |
| `InvoiceServices.InvoicesService.ApplyCreditsAndSurcharge` | src/invoices/invoices.service.ts:1411-1475 | Leaves lines, balance and journal as the settlement says, or throws exactly when the settlement does not exist |
| `InvoiceServices.InvoicesService.FinalizeDraft` | src/invoices/invoices.service.ts:650-745 | Strip, credit, surcharge, close and receivable happen together or not at all, and end in the state of the finalise step, which `InvoiceRules.FinalizedInvoice` spells out with the surcharge of the call's own card and rule; a finalised invoice is finalized or paid |
| `InvoiceServices.InvoicesService.CreateInvoiceForSubscription` | src/invoices/invoices.service.ts:749-897 | Creating, filling and finalising in one transaction ends in the state of the billing step, or leaves no trace |
| `InvoiceServices.InvoicesService.CreateDraftInvoice` | src/invoices/invoices.service.ts:966-1055 | A draft whose total is the caller's plus the surcharge line it gets |
| `InvoiceServices.InvoicesService.SeedDraftFrom` | src/subscriptions/subscriptions.service.ts:674-722 | The new draft has the closed invoice's lines without surcharges, employee lines rebuilt from their breakdowns, their sum as its total, and the surcharge it gets on that |
| `InvoiceServices.InvoicesService.UpdateOpenInvoiceLineItems` | src/invoices/invoices.service.ts:1191-1309 | Replaces lines and total of the customer's only open recurring draft; with none or several nothing changes |
| `InvoiceServices.InvoicesService.RecalculateSurchargeOnOpenInvoice` | src/invoices/invoices.service.ts:1504-1569 | Drops every surcharge line and adds at most one for the current card and rule; everything else stays |
| `InvoiceServices.InvoicesService.VoidDraftInvoicesForCustomer` | src/invoices/invoices.service.ts:547-570 | Voids one draft of the customer, of any type, and nothing else |
| `InvoiceServices.InvoicesService.VoidInvoice` | src/invoices/invoices.service.ts:572-638 | A finalized invoice with a positive total becomes void and its receivable is reversed; any other is refused unchanged |
| `PaymentServices.ChargesService.ExecutePaymentForInvoice` | src/charges/charges.service.ts:65-414 | Ends in the state and with the report of the payment step for every gateway reply, refused posting and publication failure; a repeated key replays the stored status |
| `PaymentServices.ChargesService.RecordSuccess` | src/charges/charges.service.ts:172-208 | Charge, invoice and cash change together, or nothing does when the ledger refuses the amount |
| `PaymentServices.ChargesService.CreateOneTimeCharge` | src/charges/charges.service.ts:416-588 | Ends in the state of the one-time charge step: an invoice finalised at once and charged under the caller's key, or nothing for a known key, a missing method or a refused amount |
| `PaymentServices.DunningService.ExecuteDunningAttempt` | src/dunning/dunning.service.ts:89-283 | Ends in the state of the retry step for every report of the charge and every choice of method |
| `PaymentServices.DunningService.SelectPaymentMethodForAttempt` | src/dunning/dunning.service.ts:285-374 | The only method, or the first in order that has not failed, or none |
| `PaymentServices.DunningService.ScheduleDunningAttempt` | src/dunning/dunning.service.ts:526-564 | Starts a chain with attempt 1 unless an attempt that was not skipped exists |
| `PaymentServices.WebhookProcessingService.ProcessPaymentEvent` | src/webhooks/webhook-processing.service.ts:78-225 | A processed event changes nothing; a new one ends in the state of its step, which `PaymentRules.SuccessEvent` and `PaymentRules.FailureEvent` spell out, and is marked only when its handler completed |
| `PaymentServices.RefundsService.CreateRefund` | src/refunds/refunds.service.ts:40-288 | Ends in the state of the refund step, which `PaymentRules.RefundCall` spells out; the cap is computed by adding up the succeeded refunds |
| `PaymentServices.RefundsService.SucceededTotal` | src/refunds/refunds.service.ts:79-110 | The loop's sum is the sum of the succeeded refunds of the charge over the whole table |
| `Calendar.CarryCounts` | src/customer-migration/writers/subscription.writer.ts:45-61 | An overflowing year, month and day denote the day number ECMA-262 computes: the first of the month plus the days |
| `Calendar.OrderIsDayNumber` | src/common/utils/billing-date.util.ts:120-140 | Calendar order is the order of time stamps, and equal day numbers are equal dates |
| `BillingDates.AddMonths` | src/common/utils/billing-date.util.ts:58-73 | For any number of months, the same day that many months later, or that month's last day |
| `BillingDates.AddMonthsClamped` | src/payroll/payroll-breakdown.resolver.ts:179-194 | The same clamped month step, computed its own way |
| `BillingDates.CalculateBillingPeriodEnd` | src/subscriptions/subscriptions.service.ts:883-890 | The overflow-then-day-0 step is the clamped month step and is strictly later |
| `BillingDates.MonthStepsAgree` | src/subscriptions/subscriptions.service.ts:883-890 | The month steps of the system give one date for every valid date, later in time by 1 to 31 days |
| `BillingDates.CalculateInvoiceDueDate` | src/common/utils/billing-date.util.ts:75-109 | The branches give the clamped charge day of the start's month (of the month before for charge days 28 to 31), a month later for postpaid customers |
| `BillingDates.NextPaymentIsEarliest` | src/common/utils/billing-date.util.ts:120-150 | The next payment is after today, and no clamped occurrence of the charge day after today is earlier |
| `BillingDates.CalculateNextBillingPeriod` | src/common/utils/billing-date.util.ts:120-185 | The period is one month step long, starts on the cycle day in the month the next payment determines, and is due on that payment, or a month later for postpaid customers |
| `BillingDates.NextPeriodDueIsConsistent` | src/common/utils/billing-date.util.ts:75-185 | The due date returned is that of the returned start if and only if the customer is prepaid; for postpaid ones it is always one month early |
| `BillingDates.DueFallsInCycle` | src/common/utils/billing-date.util.ts:75-109 | For cycle-aligned starts prepaid dues are on or before the start, postpaid ones after it and at the latest at the end |
| `BillingDates.MigratedCycleIsAligned` | src/customer-migration/writers/subscription.writer.ts:45-61 | The migrated cycle is one month step long and starts on the customer's cycle day, next month for prepaid and this month for postpaid customers |
| `BillingDates.MigratedDueAgrees` | src/customer-migration/writers/subscription.writer.ts:94-113 | The migrated due date is the runtime's due date of the migrated cycle exactly when the charge day is at most 27, or this month has it and, for postpaid customers, last month too |
| `Discounts.DiscountWindow` | src/payroll/payroll-breakdown.resolver.ts:155-194 | A limited discount of n months is valid for the n consecutive cycles from the first cycle day on or after its start, and for no other, for every start date and cycle day |
| `Discounts.DiscountCount` | src/payroll/payroll-breakdown.resolver.ts:121-194 | Over any span that holds the window the number of cycles with a valid discount is exactly n |
| `SchedulerRuns.NoDoubleBilling` | src/invoices/invoices.service.ts:115-172 | In every state of every history two finalized or paid invoices of one subscription and period are the same invoice |
| `SchedulerRuns.OnlyDueSubscriptionsAreBilled` | src/subscriptions/subscriptions.repository.ts:46-56 | An invoice of a subscription becomes billed only in a scheduler turn that finds it active and due, and only for its current period; no paused or canceled one is billed |
| `SchedulerRuns.CanceledIsNeverBilled` | src/subscriptions/subscription-state-machine.ts:10-17 | Whatever follows a cancel, the subscription stays canceled and none of its invoices becomes billed |
| `SchedulerRuns.ReplayIsNoOp` | src/subscriptions/subscriptions.service.ts:522-735 | Replaying an advance changes nothing if and only if the invoice starts before the end of the period it advanced past |
| `SchedulerRuns.ReplayAfterBillingIsNoOp` | src/subscriptions/subscriptions.service.ts:560-580 | After a scheduler turn that billed, replaying its advance changes nothing exactly when the first one got past the period or the replay fails as well |
| `PeriodTiling.AdvancesTile` | src/subscriptions/subscriptions.service.ts:737-777 | After n advances the start is n month steps on, on the same day if that is at most 28 and never a later one; it is the end of the period before, and due dates are one calendar month apart |
| `PeriodTiling.MovesTile` | src/subscriptions/subscriptions.service.ts:560-777 | In any history, between restarts, the period is the n-th of the tiling from where it was, n being the number of times it moved, and the month index has grown by n |
| `PeriodTiling.BilledPeriodsDoNotOverlap` | src/invoices/invoices.service.ts:115-172 | No day is billed twice: in any history, with any failures, replays, pauses and resumes, different invoices of a subscription billed since some point have disjoint periods when every restart since then came on or after the end of the periods billed since then |
| `PeriodTiling.FirstPeriodAfterRestart` | src/subscriptions/subscriptions.service.ts:433-441 | The first period billed after a restart overlaps another billed one exactly when that one begins before it ends and ends after the restart; so always when the restart lies inside that one |
| `PeriodTiling.ResumeBillsDaysAgain` | src/subscriptions/subscriptions.service.ts:433-441 | A history in which a resume on the 15th makes the second half of a billed January billed again |
| `PeriodTiling.UnadvancedIsStuck` | src/invoices/invoices.service.ts:259-285 | Once the current period is billed but not advanced past, any number of scheduler runs leave the subscription as it is |
| `PeriodTiling.TurnMoves` | src/invoices/invoices.service.ts:115-337 | A turn moves the subscription on if and only if it does not skip it, bills it and publishes the event, the customer is known and the advance does not fail first; a turn that bills without moving it leaves its current period billed |
| `PeriodTiling.StuckIsReached` | src/invoices/invoices.service.ts:259-285 | A history in which the advance after billing January fails and the run of the next month skips the due subscription |
| `ScheduleRules.DueDateIs` | src/common/utils/billing-date.util.ts:75-109 | The due date of a customer's period lies in the start's month, one earlier for charge days 28 to 31 and one later exactly for postpaid customers, on the charge day or the last day of that month and, for postpaid ones, of the month before it; unknown customers are prepaid with the 15th |
| `ScheduleRules.PostpaidDayIsClamped` | src/common/utils/billing-date.util.ts:58-109 | A postpaid due date is the charge day clamped to its month if and only if the month before has that day |
| `ScheduleRules.PostpaidClampsTwice` | src/common/utils/billing-date.util.ts:102-106 | A period that starts on the 1st of March is due on the 28th for a postpaid customer charged on the 31st |
| `ScheduleRules.AdvancedFor` | src/subscriptions/subscriptions.service.ts:522-777 | Advancing for an invoice, in all cases: the period moves to the month after its end, its next billing is the due date from the profile, and the period gets a draft of that date unless it has one or the seeding throws; an invoice that is not recurring, not linked or of a period already left, or an unknown customer, changes nothing |
| `ScheduleRules.Subscribed` | src/subscriptions/subscriptions.service.ts:119-299 | After a subscription event the paused subscription found, or a new one, is active with the period that starts on its day and the due date of that period, and the period has a draft of that date; another open draft is voided for it |
| `ScheduleRules.StatusChanged` | src/subscriptions/subscriptions.service.ts:402-470 | Every pair of statuses: what each transition does to period, next billing and drafts, and that the transitions there are not change nothing |
| `ScheduleRules.DueWhen` | src/subscriptions/subscriptions.repository.ts:46-56 | A subscription is due if and only if it is active and the day number of its next billing is at most today's |
| `ScheduleRules.SkippedWhen` | src/invoices/invoices.service.ts:123-172 | A turn skips its period if and only if the period has a finalized or paid invoice, or a void one and no recurring draft |
| `ScheduleRules.TurnTaken` | src/invoices/invoices.service.ts:115-337 | A turn that does not skip bills the draft found, or a new invoice with the due date from the profile, and advances for it when the event gets out; when it counts as created |
| `ScheduleRules.PostpaidHistory` | src/subscriptions/subscriptions.service.ts:737-777 | A history of a postpaid customer charged on the 10th: once January's period is billed, the next billing and the draft's due date are the 10th of March |
| `SubscriptionServices.ScheduleTables.GenerateInvoicesForDueSubscriptions` | src/invoices/invoices.service.ts:94-337 | The loop ends in the state of visiting the due subscriptions one after the other; the counters count the turns of each kind and add up to all of them |
| `SubscriptionServices.CreatedMeansBilled` | src/invoices/invoices.service.ts:115-337 | Every subscription counted as created has the period it had before the run billed after it, whatever happened to the others |
| `SubscriptionServices.VisitBills` | src/invoices/invoices.service.ts:123-172 | A turn leaves its period billed if and only if it was billed before, or the turn neither skips nor aborts |
| `SubscriptionServices.ScheduleTables.AdvanceThenSeed` | src/subscriptions/subscriptions.service.ts:522-735 | The early returns, the advance and the seeding end in the state of the advance step, wherever an exception stops them; `ScheduleRules.AdvancedFor` spells it out, with the due date from the profile |
| `SubscriptionServices.ScheduleTables.MoveBillingPeriod` | src/subscriptions/subscriptions.service.ts:737-777 | The period starts where it ended, ends a month step later and is billed next on its due date, for postpaid customers a month after the charge day of prepaid ones (`ScheduleRules.DueDateIs`) |
| `SubscriptionServices.ScheduleTables.ChangeStatus` | src/subscriptions/subscriptions.service.ts:402-470 | Pause and cancel void a draft and clear the billing date, a resume starts a period today, other allowed transitions change the status, and a refused one changes nothing |
| `SubscriptionServices.ScheduleTables.SubscribeCustomer` | src/subscriptions/subscriptions.service.ts:119-299 | Resumes the customer's paused subscription or creates one, billed next on the due date of its period, and leaves the period with a draft of that date unless its own is open (`ScheduleRules.Subscribed`) |
| `SubscriptionServices.ScheduleTables.BillDueSubscription` | src/invoices/invoices.service.ts:115-337 | Looking for billed, voided and draft invoices, billing, publishing and advancing end in the state and with the count of the turn |
| `MigrationUndo.RollbackUndoesMigration` | src/customer-migration/customer-migration-cleanup.service.ts:38-206 | For a new customer, whatever is sent and wherever the migration stops, a rollback straight after restores every table and the net balance of every account, reversing exactly the rows the migration posted; if and only if the run finished and wrote a recurring draft, it aborts and changes nothing |
| `MigrationUndo.RollbackCanAbort` | src/customer-migration/customer-migration-cleanup.service.ts:113-173 | One unpaid payroll of a coming month sent to an empty database: the migration is done, and the rollback straight after aborts and changes nothing |
| `MigrationUndo.SecondRollbackChangesNothing` | src/customer-migration/customer-migration-cleanup.service.ts:41-58 | A second rollback leaves everything as the first left it, from any tables |
| `MigrationUndo.RollbackNets` | src/customer-migration/customer-migration-cleanup.service.ts:61-119 | From any tables, a rollback takes out of every account exactly what the customer's migration rows had put in, and leaves all other customers' rows |
| `MigrationOutcome.RollbackLeaves` | src/customer-migration/customer-migration-cleanup.service.ts:38-206 | A rollback leaves every table with exactly the rows that are not the customer's and appends, in order, the reversal of every row migrated for that customer, and counts those; it aborts exactly when an invoice points at a subscription of the customer, or refund, dunning or flag rows point at what goes |
| `MigrationUndo.StepsGrow` | src/customer-migration/customer-migration.orchestrator.service.ts:150-262 | Any steps of the pipeline leave other customers' rows and the journal so far, and post only rows the rollback will find |
| `MigrationUndo.StepsLink` | src/invoices/invoices.repository.ts:245-266 | After a finished pipeline exactly the customer's recurring drafts point at the new subscription; after one that stopped nothing does |
| `MigrationBooks.MigrationKeepsBooks` | src/customer-migration/writers/payrolls.writer.ts:432-482 | Whatever is sent, also twice, and wherever a migration stops, every account moves by exactly what the invoices and credit balances written call for: owed amounts are receivable, paid ones cash, both revenue, credit against receivables |
| `MigrationBooks.MappedStatusesAgree` | src/customer-migration/writers/charges.writer.ts:26-60 | The two status maps, which `MigrationRules.PayrollStatuses` and `MigrationRules.ChargeStatuses` give entry by entry, call an item paid exactly when its charge succeeded and give no charge to void and draft ones; they agree on every status they share; only an un-paid payroll of a coming month becomes a draft |
| `MigrationRules.PayrollStatuses` | src/customer-migration/writers/payrolls.writer.ts:26-89 | The status map of payrolls, both ways: deleted is void, the failure flag or `failed` is owed with a failed charge, `paid` and `succeeded` are paid with a succeeded one, `pending` and `processing` owed with a pending one, `unpaid` and `un-paid` a draft or owed with none, and nothing else is mapped |
| `MigrationRules.ChargeStatuses` | src/customer-migration/writers/charges.writer.ts:26-60 | The status map of charges, both ways |
| `MigrationOutcome.MigratedPayroll` | src/customer-migration/writers/payrolls.writer.ts:133-483 | After a finished migration every payroll with a known status that was neither migrated nor sent before has an invoice of its status, with its total, lines and adjustment, on the new subscription when it is a draft; a charge of the default method under its key if its status has one; and exactly the journal rows of its status |
| `MigrationOutcome.MigratedCharge` | src/customer-migration/writers/charges.writer.ts:91-394 | The same for charges, with the magnitude of the amount and a line of it when none was sent |
| `MigrationOutcome.NothingElseIsMigrated` | src/customer-migration/customer-migration.orchestrator.service.ts:150-262 | Every other invoice, charge and journal row is what it was, but for the customer's open recurring drafts, put on the new subscription, and the row of the credit |
| `MigrationOutcome.MigratedSettings` | src/customer-migration/writers/payment-settings.writer.ts:50-207 | After a finished migration the customer, the methods with the flag sent last and the gateway are as sent; the credit is in note and balance exactly when the balance is negative and none was migrated before; the surcharge is kept or set; and there is a new subscription exactly when none was active |
| `MigrationOutcome.FinishesWhen` | src/customer-migration/customer-migration.orchestrator.service.ts:49-324 | A migration finishes if and only if the customer is new and can be migrated, and nothing is wrong with balance, surcharge, any payroll, any charge or the subscription, each told from the request and the tables before |
| `MigrationPreview.PreviewPredictsRun` | src/customer-migration/customer-migration.orchestrator.service.ts:49-324 | A dry run reports the outcome of the real run if and only if the customer is already migrated, or its settings cannot be, or they are written and at the first step where either stops both stop for the same reason; where each stops is told from the request and the tables before, in the lists by the first item that stops it |
| `MigrationPreview.PayrollSurprise` | src/customer-migration/writers/payrolls.writer.ts:133-384 | A payroll stops one of run and dry run and not the other exactly when its status and total are fine, it was not migrated before, and either it was sent before and a line does not parse, or it was not, its lines parse, and the method, the starting balance, the key or the database fails |
| `MigrationPreview.ChargeSurprise` | src/customer-migration/writers/charges.writer.ts:91-303 | The same for charges, whose writer asks for the payment method before it looks at the lines |
| `MigrationPreview.WithoutSurprisesPreviewIsRight` | src/customer-migration/customer-migration.orchestrator.service.ts:49-324 | When no item parts the two and the database accepts the single rows, a dry run reports the outcome of the real run |
| `MigrationPreview.PreviewMissesBalances` | src/customer-migration/writers/payrolls.writer.ts:361-384 | A payroll whose starting balance does not parse: the dry run is done, the real run stops at the payrolls with a failed transaction |
| `MigrationPreview.PreviewMissesMethods` | src/customer-migration/writers/payrolls.writer.ts:344-359 | A charged payroll of a customer without a payment method: the dry run is done, the real run stops at the payrolls |
| `MigrationPreview.PreviewMissesRepeats` | src/customer-migration/writers/payrolls.writer.ts:156-175 | A payroll sent twice, the second time with a line that does not parse: the real run is done, the dry run reports a failure |
| `MigrationServices.MigrationTables.WriteAllPayrolls` | src/customer-migration/writers/payrolls.writer.ts:113-514 | The loop ends in the state of the payrolls step: items before the first failure are written or skipped, later ones are not touched, and the counters cover all items exactly when it succeeds; `MigrationOutcome.MigratedPayroll` says which rows each item has in the end |
| `MigrationServices.MigrationTables.WriteAllCharges` | src/customer-migration/writers/charges.writer.ts:71-419 | The same for charges, with the failure order of that writer; `MigrationOutcome.MigratedCharge` says which rows each item has in the end |
| `MigrationServices.MigrationTables.WriteInvoice` | src/customer-migration/writers/payrolls.writer.ts:361-483 | Invoice, charge and journal rows are written together, or none when the starting balance does not parse, the key is taken or the database refuses; nothing is posted for drafts and zero amounts, one row for owed, a pair for paid and void |
| `MigrationServices.MigrationTables.WriteCreditBalance` | src/customer-migration/writers/credit-balance.writer.ts:28-157 | Only a negative balance becomes credit, once per customer, with note, balance and journal row of its magnitude |
| `MigrationServices.MigrationTables.WritePaymentSettings` | src/customer-migration/writers/payment-settings.writer.ts:50-207 | Customer, methods and gateway assignment are written together or not at all |
| `MigrationServices.MigrationTables.WriteSubscriptionRow` | src/customer-migration/writers/subscription.writer.ts:126-374 | The checks in order, with the conflicts of one and of several active subscriptions, then subscription and links in one transaction, end in the state and with the result of the subscription step |
| `MigrationServices.MigrationTables.LinkOpenRecurringDrafts` | src/invoices/invoices.repository.ts:245-266 | Exactly the customer's open recurring drafts without a subscription get it, all other rows stay, and the count is theirs |
| `MigrationServices.MigrationTables.MigrateCustomer` | src/customer-migration/customer-migration.orchestrator.service.ts:49-324 | The loop ends in the state of the pipeline; a stopped run reports the rejection of its last step, a finished one six results without a rejection |
| `MigrationServices.MigrationTables.RollBack` | src/customer-migration/customer-migration-cleanup.service.ts:61-173 | The mirrored rows are appended and counted and the customer's rows deleted, or the whole transaction aborts |
| `Reconciliation.CompareRecords` | src/reconciliation/reconciliation.service.ts:232-321 | The discrepancies are the verdicts on every intent of either side, each taken once; the totals are the sums of all records, and the count is the size of the union of the keys |
| `Reconciliation.Verdict` | src/reconciliation/reconciliation.service.ts:264-296 | An intent has no discrepancy exactly when both sides have it with one amount; otherwise its kind says which side lacks it, it names the charge and the settlement there are, expected and actual are their amounts or zero, and the difference is expected less actual |
| `Reconciliation.AllKeysOnce` | src/reconciliation/reconciliation.service.ts:243-311 | Every intent of either map is looked at exactly once |
| `Reconciliation.BalancedMeansEqual` | src/reconciliation/reconciliation.service.ts:120-131 | A run is balanced if and only if both sides have the same intents with the same amounts |
| `Reconciliation.DifferencesBalance` | src/reconciliation/reconciliation.service.ts:264-296 | The differences reported add up to the sum of the internal map less that of the gateway's |
| `Reconciliation.DifferencesAreTotals` | src/reconciliation/reconciliation.service.ts:298-305 | The differences reported are the difference of the two totals, each less the amounts its map loses to later records of the same key and to missing keys; so they add up to the difference of the totals if and only if both sides lose the same |
| `Reconciliation.UniqueRecordsBalance` | src/reconciliation/reconciliation.service.ts:298-305 | With one payment for each intent, and one settlement for each source and none without, the differences reported add up to the difference of the two totals |
| `Reconciliation.BalancedHidesLosses` | src/reconciliation/reconciliation.service.ts:120-131 | In a balanced run the totals differ by exactly the difference of the two losses |
| `Reconciliation.BalancedCanHideDuplicates` | src/reconciliation/reconciliation.service.ts:243-255 | Two payments of 100 for one intent and one settlement: balanced, with totals of 200 and 100 |
| `BillingHistory.GetBillingHistory` | src/admin/admin.service.ts:446-590 | The page built from four prefixes of `limit + 1` items is the first `limit` items of the whole merged history, with `hasMore` and the cursor exact |
| `BillingHistory.HistoryOrder` | src/admin/admin.service.ts:446-578 | The history is newest first and a permutation of what matches; items of one time come by kind, invoices, payments, credits, refunds, and within a kind as the database returned them |
| `BillingHistory.HistoryHolds` | src/admin/admin.service.ts:446-570 | The history holds exactly the items of the kinds asked for that are older than the cursor |
| `BillingHistory.PageShows` | src/admin/admin.service.ts:579-589 | A page is the first `limit` items, has more exactly when items are left, and then the time of its last item as cursor |
| `BillingHistory.SortIsMerge` | src/admin/admin.service.ts:573-577 | Sorting a newest-first list put in front of others is merging it with them sorted |
| `BillingHistory.WalkShowsAll` | src/admin/admin.service.ts:579-589 | Following the cursors ends, and shows the whole history, every item once and in order, if and only if no page ends between two items of one time |
| `BillingHistory.WalkLosesTie` | src/admin/admin.service.ts:579-589 | An invoice and a payment of one time and pages of one item: the walk shows the invoice and ends without the payment |
| `BillingHistory.WalkVisitsEachOnce` | src/admin/admin.service.ts:446-590 | With distinct times the pages together are a newest-first permutation of all items of all four kinds |
| `PaymentMethods.OneDefault` | src/payment-methods/payment-methods.service.ts:46-229 | In every reachable state a customer has at most one active default method |
| `PaymentMethods.DefaultIsKept` | src/payment-methods/payment-methods.service.ts:127-183 | Without mandate deactivations a customer with an active method has an active default in every reachable state |
| `PaymentMethods.DeactivationCanLoseDefault` | src/webhooks/webhook-processing.service.ts:458-560 | A deactivation leaves active methods without a default if and only if it hits the default bank account of a customer with another active method |
| `PaymentMethods.LostDefaultComesBack` | src/payment-methods/payment-methods.service.ts:380-480 | A lost default is not restored by attaching a card, and is by confirming a setup or by setting a default |
| `PaymentMethods.AttachedMethod` | src/payment-methods/payment-methods.service.ts:46-125 | A method attached is the default exactly when the customer has no active one; a refusal, or a bank account at the card endpoint, attaches nothing |
| `PaymentMethods.ConfirmedMethod` | src/payment-methods/payment-methods.service.ts:380-480 | A method whose setup is confirmed is the default exactly when no active one of the customer is |
| `PaymentMethods.ChosenDefault` | src/payment-methods/payment-methods.service.ts:185-229 | Among the customer's rows, active or not, exactly the chosen one has the flag; other customers' rows stay |
| `PaymentMethods.DetachedMethod` | src/payment-methods/payment-methods.service.ts:127-183 | The method is ended and loses its flag; the flag goes to the oldest other active method exactly when the method had it and there is one, and every other row stays, so detaching a method that is not the default changes that row only |
| `PaymentMethods.EndedMandate` | src/webhooks/webhook-processing.service.ts:458-560 | The end of a mandate ends an active bank account and leaves its flag; a card, an ended or an unknown method stays as it is |
| `PaymentMethods.PaymentMethodsService.DetachMethod` | src/payment-methods/payment-methods.service.ts:127-183 | Detaching the default promotes the oldest other active method before the row is detached; other rows stay |
| `PaymentMethods.PaymentMethodsService.ClearThenSetDefault` | src/payment-methods/payment-methods.service.ts:185-229 | An active method of the customer becomes its only active default; a method of another customer, an inactive one or a refusal of the gateway changes nothing |

## Left out

- I/O: queues, HTTP, gateway SDKs, guards, validation of requests, logging and feature flags. The gateway answers
  succeeded, pending, failed or throws, and a publication succeeds or throws.
- Interleavings inside one handler: the code does not protect them, so each handler is one step.
- Metadata other than the credit adjustment of a migrated payroll, currencies, descriptions and timestamps of rows;
  line items of a migrated invoice are amounts only, and a payroll's employee amount and surcharge that do not parse
  are one reason.
- SQL: each query is its filter. Postgres keeps finer timestamps than the cursor of the billing history; the
  model compares times as the cursor has them.
- The payroll resolver's amounts (`resolve`, `applyDiscountToPlatformFee`, `pickCycleBonus`): floating-point
  dollars and a pick by date, easy once the discount window is settled.
- `calculateFirstBillingPeriodStart`: the first start of a subscription is any day in the model.
- The onboarding loop of the scheduler: it finalises and charges with the steps modelled here.
- Setting a subscription to past_due when dunning escalates: one status write, not counted in the chain.
- Subscription dates sent along with a migration: the model checks that they parse; histories assume a created
  subscription's period is one month step long, which the computed dates satisfy.
- The legacy bulk migration under `src/migration`: it repeats the per-customer writers with easier claims.
- The unit of a migrated surcharge value: nothing is claimed across the migration and the surcharge calculation.
- Storing reconciliation runs, audit trail, reports, configuration, personal data redaction, paging of invoice
  searches: storage or I/O.
