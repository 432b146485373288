# HikRAD: a verified model of the accounting pipeline, the money core, the dump parser and the updater

HikRAD bills internet subscribers from RADIUS accounting. This project models, in Dafny, the parts of its
backend whose promises span several functions, goroutines or transactions, and proves those promises over
every run:

- **The accounting pipeline.** `Pipeline` is a step machine over the Redis stream, its consumer group, the
  spill log on disk, the database and the process memory. Every step is one durable operation or one change
  of memory, so ingest, drainer, consumer, reaper and counter flusher interleave in any way and the process
  may crash between any two operations. `PipelineSafety`, `PipelineOrder`, `PipelineProgress` and
  `PipelineCounters` prove no loss, exactly-once effects, order, termination and the audit equations.
  `Service`, `SpillFile` and `SessionStore` hold the code as methods and tie each to the machine.
  `SpillCodec`, `Base64`, `Decimal` and `LogText` treat the log file character by character, torn lines
  included; `OctetCounters` and `Sessions` the byte arithmetic with its 64-bit wrap-around.
- **The ledger.** `LedgerPaths` lists what each of nine kinds of transaction does, in the code's order;
  `LedgerMachine` interleaves any number of them with row locks and unique-index reservations held to the
  end of the transaction; `LedgerDiscipline`, `LedgerInvariant` and `LedgerSafety` prove what every
  interleaving keeps, `LedgerLocks` when they can deadlock, `LedgerRetry` what failed attempts leave,
  `LedgerEffects` and `Reversals` what jobs and their undoing amount to, and `LedgerBook` holds the code
  statement by statement.
- **Around it.** `Journal` (double entry); `Vouchers`, `VoucherCodes` and `VoucherLedger` (voucher codes beside
  the running ledger); `TicketMachine` (a payment ticket beside the running ledger) with `TicketSafety`, `Tickets`
  and `TicketOutcomes`; `Receivables` and `Documents` (invoices, expenses, receipts, payments); `Statements`
  (balance sheet, profit and loss).
- **Two more cores.** `SqlDump` (the VALUES scanner of the importer), `UpdateRun` and `UpdateServer` (the
  updater's event log and the watchers that tail it).

`dafny verify dfyconfig.toml` checks everything.

## Where the code and its promises part

Each of these is proved, with the exact condition under which the promise holds.

- A torn append to the spill log is not terminated before the next one (spill.go:82-87). The next record is
  answered 204 and cannot be read back unless the fragment is empty or all zeros.
- The consumer forgets entries whose delivery reply was lost (consumer.go:42-106): they are pending in Redis,
  the loop stays on new entries, and they wait for a processing failure or a restart. A read does that exactly
  when it is of new entries and there are some.
- A drain whose truncation cannot be synced (spill.go:142-162) has emptied the log, but the pending count still
  has its records until the next drain, and `invariant_ok` with it.
- A reaper pass decides on silences it has read before (reaper.go:46-97) and its update asks only whether the
  session is still open (reaper.go:125-141). A session heard from in between is closed exactly when it was past the
  limit as read and its last record since is not a Stop; its next record then counts its whole counter again.
- For a NAS without gigawords the interim after a wrap over-counts (record.go:164-178), by less than 2^31.
- A refund gives back the charge but not the commission on it (commission_credit.go:55-83).
- Rejecting a ticket inserts the trial's reversal before it locks the subscriber (tickets.go:380-401), the
  other way round from a refund; the two can deadlock, and no others of the nine ledger transactions can.
- The comment in journal.go:232-234 has a trial post nothing. The code books a trial as a cash sale at the retail
  price (renew.go:176-322), and rejecting its ticket posts nothing against that. The journal is left clean
  exactly when the trial's price and cost are zero.
- A rejection takes a trial day back whether or not the ticket was granted one (tickets.go:391-412). It returns the
  expiry exactly when nothing of it was left, or a trial was granted that counted from the expiry; a resubmission
  after a rejection earns no trial (tickets.go:66-82), so each further one costs a day.
- The key of an approval, `ticket_approve:<id>`, shares its table with the raw `Idempotency-Key` header
  (renew_api.go:51, portal_seam.go:79). After a renewal of another subscriber under that key the approval
  (tickets.go:324-347) replays that answer and approves the ticket, and its own subscriber is neither charged
  nor renewed. An approval charges its subscriber exactly when the key is free or names a row of that subscriber.
- An approval charges first and moves the ticket afterwards (tickets.go:324-347). A rejection keeps a ticket
  uncharged exactly when nothing is charged yet and no approval is under way; and an approval that is lost in
  between leaves the ticket charged and pending.
- Accumulated Depreciation is an asset with a credit balance in the shipped chart, and the balance sheet adds
  its balance to the assets (statements.go:34-39, 148-152): the sheet is off by twice that amount.
- The comment in journal.go:235-239 promises the cost pair only beside a money leg; the code posts it alone
  (journal.go:306-308) exactly when there is a cost, no wallet movement and no payment.

## Hypotheses

- An XADD that returned is durable; acknowledging and deleting an entry is one atomic operation; a database
  commit is atomic; a crash is a crash of the process, not of Redis, the database or the disk.
- A payload decodes, and resolves to its NAS and subscriber, as a fixed function of the payload; the
  checksum is an arbitrary 32-bit function.
- A row lock is granted when nobody else holds it and kept to the end of the transaction; an insert of a
  unique value waits for an uncommitted insert of the same value and fails once it is committed; a statement
  reads what is committed plus the transaction's own writes.
- Amounts are unbounded integers in the billing modules; tax, commission, currency conversion, prices, limits,
  receipt numbers and new expiries come in as arguments of the transaction that uses them.
- Rows written before the book became single-currency are not part of the ledger.

## Model

| member | source | states |
|---|---|---|
| PipelineSafety.ZeroLoss | backend/internal/accounting/ingest.go:54-87 | in every reachable state of every run (crashes, outages and failures in any order) each record answered 204 is in the stream, settled in the spill log, or committed under its dedup key, provided no 204 was given for an append behind a harmful unfinished line |
| PipelineSafety.OnlyExposedCanBeLost | backend/internal/accounting/spill.go:75-96 | with no proviso at all: the only acknowledged records that can be missing are those appended behind a harmful unfinished line |
| PipelineSafety.SpillIsSafeExactly | backend/internal/accounting/spill.go:82-96 | in any reachable state a 204 from the spill log is safe if and only if the unfinished line in front is all zeros or the record is safe elsewhere |
| PipelineSafety.TornWriteLoses | backend/internal/accounting/spill.go:82-87 | a concrete run, for any two payloads, in which a torn write makes an acknowledged record disappear |
| PipelineSafety.ExactlyOnce | backend/internal/accounting/consumer.go:193-239 | in every run the tables are those of the committed operations, no dedup key is applied twice, acct_dedup holds exactly the committed keys, and the durable persisted count is its size |
| PipelineSafety.StepKeeps | backend/internal/accounting/consumer.go:27-106 | every single step of ingest, drainer, consumer, reaper, flusher and restart keeps the pipeline invariant |
| PipelineOrder.FreshReadsFindNothingPending | backend/internal/accounting/consumer.go:42-106 | whenever the loop is about to read new entries nothing delivered is still pending, across all failures and restarts |
| PipelineOrder.CommitsInArrivalOrder | backend/internal/accounting/server.go:102 | the committed records are the first occurrences of the dedup keys among the arrivals that have left the stream, in arrival order (or one more, not yet acknowledged) |
| PipelineOrder.DrainedTablesArePerfect | backend/internal/accounting/consumer.go:167-253 | between reaper passes a drained pipeline holds exactly the tables of one pass over the arrivals that skips repeated keys |
| PipelineProgress.StreamEmpties | backend/internal/accounting/consumer.go:42-106 | once failures and arrivals stop the stream is empty after at most six consumer steps an entry and three |
| PipelineProgress.LostReadStrandsExactly | backend/internal/accounting/consumer.go:108-141 | from any orderly state between batches, losing the reply of a read strands an entry if and only if the loop reads new entries and the stream is not empty |
| PipelineProgress.StrandedForever | backend/internal/accounting/consumer.go:42-106 | an entry delivered in a lost reply stays unprocessed through every run without a processing failure or a restart |
| PipelineProgress.LostReadStrands | backend/internal/accounting/consumer.go:108-141 | a concrete run that strands an entry that way |
| PipelineCounters.StreamConservation | backend/internal/accounting/counters.go:148-159 | in every crash-free run, between messages: enqueued + drained (+ unreported additions) = persisted + deduplicated (+ undecodable) + stream length |
| PipelineCounters.AuditGap | backend/internal/accounting/counters.go:52-68 | in every crash-free run received - deduplicated - in_queue - persisted equals, term by term, what was refused or is in hand less what unfinished or unsynced drains pushed and what storage did unreported |
| PipelineCounters.InvariantOkExactly | backend/internal/accounting/counters.go:171-182 | with sound writes and replies and an idle process, invariant_ok holds if and only if refusals (and undecodable entries) equal the records pushed by drains that stopped part-way plus those the pending count still has although an unsynced truncation took them off the log |
| Service.Process.Ingest | backend/internal/accounting/ingest.go:21-87 | one request is exactly the listed steps; 204 if and only if the stream or the synced spill log took the record |
| Service.Process.ProcessMessage | backend/internal/accounting/consumer.go:167-253 | one message is exactly one step; it is acknowledgeable if and only if it did not fail, and then its record is done |
| Service.Process.HandleMessage | backend/internal/accounting/consumer.go:77-104 | process, then acknowledge a terminal message; a failure empties the batch and returns to the pending list |
| Service.Process.ConsumeOnce | backend/internal/accounting/consumer.go:27-106 | one turn of the loop is one read followed by the batch's messages in order up to the first failure; the mode afterwards |
| Sessions.SessionBytesConserved | backend/internal/accounting/sessions.go:79-125 | over any interleaving of records and reaper passes the bytes emitted for a session are its stored total plus the totals given up at baseline resets |
| Sessions.LifetimeIsUsage | backend/internal/accounting/billingcounters.go:43-58 | a subscriber's lifetime bytes are the sum of every usage point ever written for them |
| Sessions.UsageIsEmitted | backend/internal/accounting/sessions.go:127-183 | the usage points are, in order, the non-zero deltas of the records, input octets as upload and output octets as download |
| Sessions.UpsertStores | backend/internal/accounting/sessions.go:55-183 | what one record leaves in its session row |
| Sessions.RecordReopens | backend/internal/accounting/sessions.go:212-243 | a record on a closed session reopens it unless it is a Stop, and counts the whole counter again |
| SessionStore.Store.UpsertSession | backend/internal/accounting/sessions.go:55-183 | the writers, branch by branch, do what the table function says |
| SessionStore.Store.IncrementBytes | backend/internal/accounting/billingcounters.go:43-58 | the running totals are created on first touch, then added to |
| SessionStore.Store.ReadOpen | backend/internal/accounting/reaper.go:50-76 | exactly the open sessions, each once, with the time it was last heard from |
| SessionStore.Store.UpdateSeen | backend/internal/accounting/reaper.go:78-95 | one update for each session that was read, decided on what was read, whatever has happened to it since |
| SessionStore.Store.ReapOnce | backend/internal/accounting/reaper.go:46-97 | with nothing between its read and its updates a pass ages every open session by its silence and touches nothing else |
| SessionStore.ClosedThoughHeardExactly | backend/internal/accounting/reaper.go:78-141 | a session heard from between the read and its update is closed all the same if and only if it was past the limit as read and its last record since is not a Stop |
| SessionStore.ClosedCountsAgain | backend/internal/accounting/sessions.go:79-125 | the next record of a session closed that way counts the whole counter, so its stored totals are emitted a second time |
| SessionStore.Store.MarkStale | backend/internal/accounting/reaper.go:99-117 | only the stale flag of an open session moves; the rest of its row and every other row stay |
| SessionStore.Store.ReapSession | backend/internal/accounting/reaper.go:125-141 | an open session is stopped at its last interim with its cause and flags set; bytes, identity and every other row stay, and a closed session stays as it is |
| SessionStore.InterimUndoesReaping | backend/internal/accounting/reaper.go:46-97 | an interim after a reaper pass reopens the session and the next pass leaves it alone |
| OctetCounters.GigawordsTelescope | backend/internal/accounting/record.go:152-178 | for a NAS reporting octets mod 2^32 and gigawords, the deltas sum to exactly the traffic carried |
| OctetCounters.LowWordStep | backend/internal/accounting/record.go:164-178 | without gigawords the interim that wraps is counted exactly and the one after it over-counts by the low word it started from |
| OctetCounters.LowWordsAccrue | backend/internal/accounting/record.go:164-178 | without gigawords the deltas sum to the traffic plus the stated excess, exactly |
| OctetCounters.LowWordsNeverUndercount | backend/internal/accounting/record.go:164-178 | never less than the true traffic, and under 2^31 octets too much per wrap |
| OctetCounters.OvercountWitness | backend/internal/accounting/record.go:164-178 | readings for which the over-count happens |
| SpillCodec.LineRoundTrip | backend/internal/accounting/spill.go:173-197 | decoding inverts encoding for every payload and every 32-bit checksum |
| SpillCodec.GluedExactly | backend/internal/accounting/spill.go:180-197 | a line glued behind a fragment reads back as its payload if and only if the fragment is nothing but zeros |
| SpillCodec.AppendExactly | backend/internal/accounting/spill.go:82-96 | an append adds exactly its payload to what can be read back if and only if the unfinished line is all zeros; nothing settled is ever disturbed |
| SpillCodec.TornLogDrains | backend/internal/accounting/spill.go:112-130 | whole lines and one torn piece drain to exactly those payloads in order, then to whatever the piece itself decodes to |
| SpillFile.CountPending | backend/internal/accounting/spill.go:159-171 | the loop over the pieces between line ends counts what the scanner's lines count, carriage returns or not |
| SpillFile.SpillLog.constructor | backend/internal/accounting/spill.go:41-63 | opening sets the pending count to what a full drain would push plus what it would report as corrupt |
| SpillCodec.PendingIsDrained | backend/internal/accounting/spill.go:112-130 | for every text the non-blank lines are exactly the decodable ones and the corrupt ones |
| PipelineCounters.RestartCountsWhatDrains | backend/internal/accounting/spill.go:41-63 | from any state, after a restart the pending count is exactly what a full drain would push plus what it would report as corrupt |
| SpillFile.SpillLog.Append | backend/internal/accounting/spill.go:75-96 | the file and the pending count after a synced, unsynced, torn or failed write |
| SpillFile.SpillLog.Drain | backend/internal/accounting/spill.go:98-150 | pushes the decodable lines in order; it succeeds if and only if every push and the synced truncation do, and only then is the pending count zero; a truncation that cannot be synced empties the file, keeps the count and is an error; otherwise the file is untouched |
| Base64.RoundTrip | backend/internal/accounting/spill.go:175-197 | the base64 text of section 4 of RFC 4648 decodes to the bytes it was made of |
| Decimal.RoundTrip | backend/internal/accounting/spill.go:175-197 | the decimal checksum field parses to the number it was printed from |
| LedgerSafety.CacheEqualsLedger | backend/internal/billing/ledger.go:65-95 | after every event of every interleaving each manager's cached balance is the sum of the manager's committed rows |
| LedgerSafety.Reachable | backend/internal/billing/ledger.go:1-95 | every interleaving of all nine kinds of transaction keeps the ledger invariant |
| LedgerSafety.CommitAppends | backend/internal/billing/ledger.go:49-63 | a commit appends exactly the rows its transaction planned and moves each balance by their sum |
| LedgerSafety.JournalMirrorsLedger | backend/internal/billing/journal.go:248-318 | in every run the wallet account tagged with a manager carries exactly that manager's journaled rows, and the whole journal balances |
| LedgerSafety.WalletEqualsBalance | backend/internal/billing/journal.go:288-300 | where a manager has no voucher-batch or batch-invoice rows the wallet subledger equals the cached balance |
| LedgerSafety.OneReversalOneKey | backend/migrations/0200_ledger.up.sql:33-34 | in every run no row has two reversals and no idempotency key two rows |
| LedgerSafety.SameAnswer | backend/internal/billing/renew.go:403-417 | all successful answers for one key are the same ledger id, receipt and expiry, and name the only row with that key |
| LedgerSafety.DuplicateIsAnswered | backend/internal/billing/renew.go:132-143 | a renewal whose key is taken writes nothing and is answered from the store |
| LedgerRetry.FailureFreesKey | backend/internal/billing/renew.go:124-169 | in every run a keyed renewal that fails or is rolled back leaves the database as it was and the key unclaimed, unheld and unanswered |
| LedgerRetry.RetryCommitsExactly | backend/internal/billing/renew.go:124-169 | after that the same renewal, tried again with nothing beside it, commits its one row for the key if and only if its actor has the funds, and else changes nothing |
| LedgerRetry.RenewRunsExactly | backend/internal/billing/renew.go:176-322 | a renewal that runs alone gets through if and only if its key is free and an enforced charge stays within the credit limit |
| LedgerSafety.ChecksHoldAtCommit | backend/internal/billing/voucher.go:121-129 | a transaction that passed a funds check commits only with the balance within the limit it checked |
| LedgerSafety.EnforcedRenewalsStayWithinLimit | backend/internal/billing/renew.go:265-282 | no enforced renewal commits with its actor below the credit limit, whatever runs beside it |
| LedgerDiscipline.PlanIsDisciplined | backend/internal/billing/renew.go:176-322 | every transaction writes balance-moving rows under the balance lock and recomputes after them, claims unique values under their reservation, and journals what it writes |
| LedgerEffects.RenewEffect | backend/internal/billing/renew.go:256-322 | a renewal costs its actor the wholesale or else the retail price less the commission, and moves no other balance |
| LedgerEffects.RefundEffect | backend/internal/billing/refund.go:188-234 | a refund gives back exactly what the original row took, to the same manager |
| LedgerEffects.RefundKeepsCommission | backend/internal/billing/commission_credit.go:55-83 | renewing and refunding leaves the actor richer by exactly the commission, which no refund takes back |
| LedgerEffects.TopUpUndone | backend/internal/billing/undo.go:176-211 | undoing a top-up takes back exactly what it gave |
| LedgerEffects.VoidRefundsUnused | backend/internal/billing/voucher_api.go:272-291 | generating and voiding a batch together cost the price of the codes that were not unused |
| LedgerEffects.RefundSwapsLines | backend/internal/billing/refund.go:236-242 | a refund posts the original's journal lines with their sides swapped |
| LedgerLocks.DeadlockNeedsRejection | backend/internal/billing/refund.go:159-181 | in every reachable state a circle of waiting transactions contains, by their programs, the rejection of a ticket with some trial row and a refund of that same row; unless two such are open together there is no deadlock |
| LedgerLocks.DeadlockExactly | backend/internal/billing/tickets.go:380-401 | in every reachable state whose open rejections name trials of their own subscribers there is a deadlock if and only if such a refund and such a rejection wait for each other |
| LedgerLocks.ForeignTrialCircle | backend/internal/billing/tickets.go:380-401 | with another subscriber's row as the trial a rejection, a renewal and a refund can wait in a circle of three in which no two wait for each other |
| LedgerLocks.RejectionCanDeadlock | backend/internal/billing/tickets.go:380-401 | for every unreversed trial row, rejecting its ticket and refunding the row can each wait for the other for good |
| LedgerLocks.PlanIsOrdered | backend/internal/billing/renew.go:184-268 | every transaction takes its locks in one order, but for the vouchers of a batch under the batch and the subscriber of a rejection |
| LedgerBook.Book.RenewTx | backend/internal/billing/renew.go:122-169 | the code's renewal, statement by statement, is the planned operations in a row; a duplicate key is answered from the store; a failure changes nothing |
| LedgerBook.Book.RenewInTx | backend/internal/billing/renew.go:176-322 | lock subscriber, lock balance, check funds, insert, recompute, post, commission - in that order |
| LedgerBook.Book.RefundCore | backend/internal/billing/refund.go:112-272 | which error each bad request gets, and that a good one is the planned operations in a row |
| LedgerBook.Book.UndoTopUpCore | backend/internal/billing/undo.go:176-211 | an undo is the planned operations in a row; a second one is refused |
| LedgerBook.Book.TopUp | backend/internal/billing/balance_api.go:94-162 | a top-up is the planned operations in a row |
| LedgerBook.Book.PostCommission | backend/internal/billing/commission_credit.go:55-83 | nothing without a positive base, else its own row, recomputation and journal entry |
| LedgerBook.Book.SumRows | backend/internal/billing/ledger.go:87-95 | the recomputed balance is the sum over committed and own rows |
| LedgerBook.AloneIsInARow | backend/internal/billing/renew.go:122-169 | a transaction that runs alone in the interleaved system does what its operations do in a row |
| Reversals.BalanceIsLiveRows | backend/internal/billing/refund.go:188-234 | in every run each manager's balance is the sum of that manager's unreversed original rows plus that of the rows that were only rejected, and just the former when no rejected row had moved a balance |
| Reversals.JournalIsRows | backend/internal/billing/journal.go:248-318 | in every run each account of the journal carries exactly the lines its rows stand for |
| Reversals.ReversalCancelsExactly | backend/internal/billing/tickets.go:380-401 | in every run a row and its reversal cancel on every journal account, except that a rejection does so if and only if nothing was posted for the row |
| Reversals.TrialPostsNothingExactly | backend/internal/billing/journal.go:232-234 | nothing was posted for a trial if and only if its price and its cost are zero |
| Reversals.ReversalsAreFinal | backend/internal/billing/refund.go:142-147 | no reversal is itself reversed |
| Reversals.RefundRollsBack | backend/internal/billing/refund.go:286-295 | a refund returns the expiry to the later of now and the renewal's base when the duration is unchanged, and is off by the difference when it is not |
| Reversals.RenewalExtends | backend/internal/billing/renew.go:474-480 | a renewal never shortens an account, except counting from now with more days left than it grants |
| Reversals.RejectionReturnsExactly | backend/internal/billing/tickets.go:391-412 | a rejection gives back the expiry from before the submission if and only if nothing of it was left by then, or the ticket was granted a trial that counted from the expiry |
| Reversals.EachRejectionCostsADay | backend/internal/billing/tickets.go:66-82 | over any number of rejected resubmissions a subscriber loses a day for each but a granted first one, down to the time of the last rejection |
| Journal.ValidateBalanced | backend/internal/billing/journal.go:98-116 | accepts if and only if there are two lines or more, each debit XOR credit, with equal sums; nothing balanced is refused |
| Journal.PostedIsBalanced | backend/internal/billing/journal.go:248-318 | whatever the entry, what is posted is balanced line by line and as a whole, or nothing |
| Journal.EntryMovesWallet | backend/internal/billing/journal.go:284-350 | the lines of an entry move the actor's wallet by exactly the entry's amount and no one else's |
| Journal.ReversalSwapsSides | backend/internal/billing/journal.go:320-350 | negating an entry, its cost and its payment posts exactly the original lines with their sides swapped |
| Journal.CostStandsAloneExactly | backend/internal/billing/journal.go:301-318 | the cost pair is posted without a money leg if and only if there is a cost, no wallet movement and no payment |
| Journal.FreePlanPostsCostAlone | backend/internal/billing/journal.go:301-318 | a free plan with a recorded cost posts the cost pair alone |
| Journal.SwapBalances | backend/internal/billing/journal.go:156-205 | reversing a balanced entry gives a balanced entry |
| Vouchers.VouchersConserved | backend/internal/billing/voucher.go:275-318 | under every interleaving of redeem and void, used + unused + void = count, there are as many redemption rows as used vouchers, and the credited total is price times void once the batch is void (nothing without a creator or a positive price) |
| Vouchers.OneRedemption | backend/internal/billing/voucher.go:287-312 | a voucher backs exactly one redemption when it is used and none otherwise, so none is both redeemed and credited |
| Vouchers.CreatorPaysForUsed | backend/internal/billing/voucher_api.go:247-301 | the creator's net is minus price times count before a void and minus price times used after; without a creator or a positive price nothing is credited |
| Vouchers.StaleBatchIsHarmless | backend/internal/billing/voucher.go:275-292 | a redemption that saw the batch before it was voided still cannot use a voided voucher |
| VoucherLedger.OneRowPerVoucher | backend/internal/billing/voucher.go:236-312 | in every run of the whole ledger the voucher_redeem rows and the used vouchers are one to one: no voucher has two such rows, and it has one if and only if it is used |
| VoucherLedger.VoidCreditsTheRest | backend/internal/billing/voucher_api.go:229-301 | in every run a void takes every voucher of its batch that is not used, no other voucher, and writes one row that credits the price of each |
| VoucherLedger.MarksAreFinal | backend/internal/billing/voucher.go:287-312 | in every run no move changes the mark of a used or void voucher |
| VoucherLedger.StepKeeps | backend/internal/billing/voucher.go:236-312 | every move of redemptions, voids and all other ledger transactions keeps the vouchers' invariant |
| VoucherCodes.InsertCodes | backend/internal/billing/voucher.go:175-223 | exactly the wanted number of codes with hashes that differ from each other and from every code ever issued, or nothing |
| VoucherCodes.DrawDistinct | backend/internal/billing/voucher.go:179-191 | the drawn codes have different hashes; fewer than needed only when the draws hold no other hash |
| Tickets.ChargedAtMostOnce | backend/internal/billing/tickets.go:228-235 | in every run of the ledger a ticket has at most one trial row and one approval row, and no row serves two tickets |
| Tickets.ApprovedIsChargedExactly | backend/internal/billing/tickets.go:308-347 | in every run of approvals, rejections, failures and all other ledger transactions, whoever uses the ticket's key: at most one ledger row charges the ticket's subscriber for it, and an approved ticket names the one row with its key and was charged if and only if that row is the subscriber's |
| Tickets.ApprovedIsCharged | backend/internal/billing/tickets.go:308-347 | in every run in which nobody else uses the ticket's key an approved ticket was charged |
| Tickets.ApprovalChargesExactly | backend/internal/billing/tickets.go:324-347 | an approval with nothing beside it always approves, and leaves its own subscriber charged if and only if, before the call, the key is free or already names a row of that subscriber |
| Tickets.ForeignKeyApproves | backend/internal/billing/renew_api.go:42-53 | from any quiet state of a pending ticket, a renewal of another subscriber sent with the ticket's key goes through, and the approval after it approves the ticket without charging anybody |
| TicketOutcomes.RejectedStaysUnchargedExactly | backend/internal/billing/tickets.go:358-427 | a rejection keeps the ticket uncharged in every continuation if and only if at that moment nothing is charged and no approval is under way |
| TicketOutcomes.RejectedYetCharged | backend/internal/billing/tickets.go:326-347 | whenever an approval is under way at the rejection there is a continuation that ends with the ticket rejected and its subscriber charged once |
| TicketOutcomes.ChargedAndPendingExactly | backend/internal/billing/tickets.go:324-347 | a finished run leaves the ticket charged and still pending if and only if some approval was given up after its renewal had been answered and no move decided the ticket |
| TicketOutcomes.DroppedYetCharged | backend/internal/billing/tickets.go:324-336 | there is such a run: the approval is lost between its renewal and the update of the ticket |
| TicketSafety.StepKeeps | backend/internal/billing/tickets.go:308-347 | every move of an approval, a rejection or any other ledger transaction keeps the ticket's invariant |
| Receivables.ControlAccountsReconcile | backend/internal/billing/ar_ap.go:27-142 | in every reachable state the receivable account of each subscriber is total less paid over the non-void invoices, and the payable account the same over non-void expenses |
| Receivables.NeverOverpaid | backend/internal/billing/ar_ap.go:44-84 | no document is settled below zero or beyond its amount, and it is marked paid exactly when it is settled |
| Receivables.DocumentsMoveOn | backend/internal/billing/ar_ap.go:66-142 | in every run in which today's date never goes back each invoice and expense keeps its amount and due date, never has less paid, and its status only moves forward, voiding included |
| Receivables.VoidOnce | backend/internal/billing/invoices.go:110-143 | an invoice can be voided if and only if it is neither void nor paid on, and never twice |
| Receivables.IssueKeeps | backend/internal/billing/invoices.go:47-104 | issuing an invoice keeps the books reconciled in every mode |
| Receivables.RenewalKeeps | backend/internal/billing/invoices.go:155-178 | an auto-paid renewal invoice adds nothing to either side |
| Documents.Office.CreateInvoice | backend/internal/billing/invoices.go:47-104 | the totalling loop and the accrual entry do what the specification does, or fail with its error and change nothing |
| Documents.Office.VoidInvoice | backend/internal/billing/invoices.go:110-143 | the accrual is reversed and the invoice void, or the error and no change |
| Documents.Office.PostReceipt | backend/internal/billing/ar_ap.go:27-85 | cash against receivable, amount paid and status, or the error and no change |
| Documents.Office.CreateExpense | backend/internal/billing/expenses.go:32-64 | the expense and its accrual, or the error and no change |
| Documents.Office.VoidExpense | backend/internal/billing/expenses.go:66-99 | the accrual is reversed and the expense void, or the error and no change |
| Documents.Office.PostPayment | backend/internal/billing/ar_ap.go:89-142 | payable against cash, amount paid and status, or the error and no change |
| Documents.Office.ReverseJournal | backend/internal/billing/journal.go:156-205 | a new entry with every line's sides swapped; refused for an entry without lines |
| Statements.AccountingEquationExactly | backend/internal/billing/statements.go:142-165 | for every chart and every balanced set of lines the balance sheet is off by exactly the skew, so the equation holds if and only if the skew is zero |
| Statements.ConventionalChartsBalance | backend/internal/billing/accounts_api.go:62-67 | with every account on the side of its type and only known revenue and expense codes the equation always holds |
| Statements.ContraAccountCountsTwice | backend/internal/billing/statements.go:34-39 | one balance-sheet account kept on the other side puts the sheet off by twice its balance |
| Statements.SeededChartBalancesExactly | backend/migrations/0616_v4_9_accounts.up.sql:39-61 | with the shipped chart the sheet is off by twice the accumulated depreciation |
| Statements.DepreciationUnbalances | backend/internal/billing/fixed_assets.go:81-84 | one month's depreciation of n, as posted, puts the sheet off by 2n |
| Statements.ComputeBalanceSheet | backend/internal/billing/statements.go:142-165 | the loop sums each type's balances and takes net income from the profit and loss |
| Statements.ComputeProfitAndLoss | backend/internal/billing/statements.go:108-131 | each figure is the total of its account codes, and net income is what is left |
| Statements.TrialBalance | backend/internal/billing/statements.go:45-67 | every account of the chart with its debit and credit totals |
| SqlDump.RoundTrip | backend/internal/importer/sqldump.go:107-218 | rows printed as quoted literals in either style split into one tuple a row and parse back cell by cell, up to normalization, whatever the cells hold |
| SqlDump.SplitsPrinted | backend/internal/importer/sqldump.go:110-148 | a printed list splits into exactly its tuples |
| SqlDump.ParsesPrinted | backend/internal/importer/sqldump.go:155-194 | a printed tuple parses into exactly its normalized cells |
| SqlDump.RecoveredExactly | backend/internal/importer/sqldump.go:212-218 | a cell is recovered unchanged if and only if it has no white space around it and does not spell NULL |
| SqlDump.FailsExactly | backend/internal/importer/sqldump.go:133-147 | splitting fails if and only if the depth at the end is not zero; the error inside the loop is never met |
| SqlDump.SplitValueTuples | backend/internal/importer/sqldump.go:110-148 | the index loop computes the scanner's result |
| SqlDump.ParseSQLTuple | backend/internal/importer/sqldump.go:155-194 | the index loop computes the cell scanner's result |
| UpdateRun.Run.RunUpdate | backend/cmd/hikrad-updaterd/run.go:194-325 | on every path the log, the conflict flag, the final stage and the order of all acts are those of the specification, and no channel is closed twice |
| UpdateRun.ClosedExactlyOnce | backend/cmd/hikrad-updaterd/run.go:195-202 | each channel is closed exactly once: resolved after the conflict is marked and before anything is logged, done after everything is logged |
| UpdateRun.LogShape | backend/cmd/hikrad-updaterd/run.go:266-318 | the log is empty if and only if the run is a lock conflict, ends with its one result, and never announces a stage twice in a row |
| UpdateServer.OneCurrentRun | backend/cmd/hikrad-updaterd/run.go:114-143 | in every interleaving at most one run is in progress, and it is the current one |
| UpdateServer.WatcherGetsWholeLog | backend/cmd/hikrad-updaterd/run.go:71-95 | a watcher that ends without a failed write has received exactly the whole log in order, including events appended just before the close |
| UpdateServer.WatcherHasPrefix | backend/cmd/hikrad-updaterd/run.go:71-95 | at every moment a watcher whose writes succeeded has a first part of the log, without gap or repeat |

## Left out

- Session columns for address, MAC, service and card, lifetime seconds, rates and the live Redis view: no promise of the code spans them.
- The 8 MB line limit of the spill log's scanner and the 1 MiB limit of the updater's: a longer line ends the scan early.
- Base64 or decimal text with inner line breaks or signs, and white space beyond U+00FF in trimmed fields: text is a sequence of code points.
- CRC-32 and SHA-256 themselves: any functions in their place.
- The order between records in the spill log and records in the stream: the code promises none.
- HTTP, JSON, SQL text, permissions, audit rows, notifications, CoA and quota: side effects after the commit.
- Foreign-key locks (FOR KEY SHARE on subscribers and managers) are not part of this model.
- A failed insert aborts a PostgreSQL transaction, so a rejection whose trial was already refunded fails as a whole, although tickets.go:386 ignores that error; the model lets it fail.
- LedgerLocks.DeadlockExactly: for trial rows of the ticket's own subscriber; a trial answered with another subscriber's row (a foreign `ticket_trial:` key) can join longer circles, as ForeignTrialCircle shows; DeadlockNeedsRejection covers those too.
- TicketOutcomes.RejectedStaysUnchargedExactly: for runs in which nobody else sends the ticket's key; what happens when somebody does is in Tickets.
- Several tickets at once in TicketMachine: it follows one ticket, and everything about the others is among the other ledger transactions.
- The ledger rows of a rejection in TicketMachine: they are the RejectTicket transaction of the ledger, and the machine's Reject is only the conditional update of the ticket.
- Locks outside the nine ledger transactions, such as insertCodes waiting for a code hash that another batch has just inserted (voucher.go:193-205).
- What a renewal reads besides prices and locks (archived profiles, missing subscribers): such a renewal is one that aborts.
- Undo of an undo: performUndo has no case for it.
- Dates in statements, cash flow, aging, fixed-asset schedules, cards, approvals and the importer's later stages.
- The INSERT matcher of the dump parser; MySQL's escapes for NUL, backspace and substitute, which the parser reads as letters.
- Random code generation: the draws are an argument, and an attempt whose draws run out counts as a failure.
- state.json, version files, semantic versions and the reconciliation after a daemon restart in the updater.
- Reversals.RejectionReturnsExactly: nothing else moves the subscriber's expiry between a submission and its rejection.
- Vouchers whose generation is under way in VoucherLedger: a batch appears with all its codes at once, as its transaction commits.
- Service.Process.Ingest: a request that goes to the spill log is taken while no drain is in progress, because the log's mutex makes the append wait for the drain; the interleaving of requests with drains is in the step machine.
- LedgerBook.Book.RenewTx: one uninterrupted transaction; interleaving is the business of LedgerMachine, to which AloneIsInARow connects it.
- PipelineCounters.InvariantOkExactly: for runs without torn or unsynced appends and lost replies to stream additions; AuditGap has the exact equation for all crash-free runs.
- Documents.Office: each method runs under its document's row lock and is taken as one step; operations on different documents only append to the journal.
