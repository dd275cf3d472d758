# Financial back office — a verified model

This project models the financial engine of the back-office server in Dafny. It covers
bills to pay (accounts payable) and invoices to collect (accounts receivable), together with
their installment schedules and attachments. It covers settling a bill or invoice, which
writes a cash-flow transaction, adjusts a bank balance and appends an audit entry. It also
covers the daily cash register, the payment-alert generator and the dashboard's aggregates.

The relational store becomes one object, `Store.Db`, with one sequence field per table. Every
service call that writes is a method that modifies only the tables it touches. Every service
call that only reads is a function of the store. Each method states its new state exactly,
in terms of specification functions. Lemmas then prove what those functions mean: partitions,
totals, idempotence, round trips, and how each write moves every aggregate.

Modules, in dependency order:

- `Common`: options, results and errors, money, time, and filtered counts and sums.
- `Ordering`: the sort behind `orderBy`; rows with equal keys keep no promised order.
- `Paging`: `skip`/`take` paging.
- `Store`: the tables.
- `Ledger`: the account rows both ledgers share.
- `AccountsPayable`, `AccountsReceivable`: the two ledger services.
- `Financial`: the combined finance service with settlement and statistics.
- `DailyCash`: the cash register.
- `PaymentAlert`: the alert generator.
- `Dashboard`: the dashboard aggregates.

Conventions of the model:

- Money is an exact `real`.
- An instant is an `int` of milliseconds.
- The clock, the calendar (month arithmetic, start and end of the month, local midnight) and
  the current user are parameters.
- Rows keep their insertion order, and ids are autoincrement row numbers.
- A missing row on `update` is Prisma's record-not-found error (`RecordNotFound`).
- A page or limit below 1 is `InvalidPaging`.

## Model

| member | source | states |
|---|---|---|
| Common.DayKey | apps/backend/src/services/financialDashboard.service.ts:143 | The day key of an instant is the unique `d` with `d*DayMs <= t < (d+1)*DayMs`, i.e. the UTC date `toISOString()` prints. |
| Common.CeilDays | apps/backend/src/services/financial.service.ts:61-62 | `Math.ceil(x / DayMs)`: the least number of whole days covering `x` milliseconds, for negative `x` as well. |
| Common.TruthyId | apps/backend/src/services/financial.service.ts:38-39 | An optional id filter is applied exactly when it is present and non-zero (JavaScript truthiness), and then unchanged. |
| Common.NatToStringRoundTrip | apps/backend/src/services/accountsReceivable.service.ts:69 | Printing a sale id in decimal, as the invoice description `Venda #<id>` does, loses nothing: the digits read back as the same number. |
| Common.IndexOf | apps/backend/src/services/financial.service.ts:124-125 | `findUnique` by id: the result is the first row with that id, and `None` means no row has it. |
| Common.IndexOfRowNumber | apps/backend/src/services/accountsPayable.service.ts:135-144 | With autoincrement ids, looking up id `n` finds exactly row `n-1`, and ids outside `1..|rows|` find nothing. |
| Common.SumWherePermutation | apps/backend/src/services/accountsPayable.service.ts:212-231 | An `aggregate({_sum})` does not depend on the order the rows are stored in. |
| Common.Select | apps/backend/src/services/accountsPayable.service.ts:168-185 | `findMany({where})` keeps exactly the rows satisfying the filter, and as many of them as `count({where})`. |
| Ordering.SortBy | apps/backend/src/services/accountsPayable.service.ts:183 | `orderBy` yields the same multiset of rows, ordered by the key. |
| Ordering.SortByMembers | apps/backend/src/services/accountsPayable.service.ts:183 | Sorting neither adds nor loses a row, so membership is preserved in both directions. |
| Paging.TotalPages | apps/backend/src/services/accountsPayable.service.ts:98 | `Math.ceil(total / limit)`: 0 pages for no rows, otherwise the least `n` with `total <= n*limit`. |
| Paging.Window | apps/backend/src/services/accountsPayable.service.ts:87-88 | `skip (page-1)*limit, take limit`: item `k` of the page is row `(page-1)*limit + k`, and a page is short only at the end. |
| Paging.Paginate | apps/backend/src/services/accountsPayable.service.ts:81-99 | A page is produced exactly when page and limit are at least 1, and then holds that window, the total and the page count. |
| Paging.EveryRowOnItsPage | apps/backend/src/services/accountsPayable.service.ts:81-99 | Paging loses no row: row `j` is item `j % limit` of page `j / limit + 1`, which is within `totalPages`. |
| Paging.WindowOfSorted | apps/backend/src/services/accountsPayable.service.ts:81-99 | A page of an ordered listing is ordered and holds only rows of the listing. |
| Store.Db.constructor | apps/backend/src/services/financial.service.ts:4 | A fresh store has every table empty and satisfies the id invariants. |
| Ledger.Overdue | apps/backend/src/services/accountsPayable.service.ts:168-185 | The overdue list holds exactly the pending rows due before today, in ascending due-date order, each as often as it is stored. |
| Ledger.DueSoon | apps/backend/src/services/accountsPayable.service.ts:188-209 | The due-soon list holds exactly the pending rows due between today and today plus `days` days, in due-date order. |
| Ledger.OverdueDueSoonPartition | apps/backend/src/services/accountsPayable.service.ts:168-209 | No row is both overdue and due soon, a row due today is due soon, and every pending row due before the horizon is in exactly one of the two lists. |
| Ledger.PendingTotal | apps/backend/src/services/accountsPayable.service.ts:212-231 | The pending total is the sum and count of the pending rows due in the optional range, and an empty sum is 0 (`_sum || 0`). |
| Ledger.SumAmountsSelect | apps/backend/src/services/accountsPayable.service.ts:212-231 | Summing the selected rows equals the filtered aggregate over the table, and is 0 when nothing matches. |
| Ledger.SumAmountsPermutation | apps/backend/src/services/accountsPayable.service.ts:212-231 | The sum of amounts is the same for any ordering of the same rows. |
| Ledger.ListTotals | apps/backend/src/services/financialDashboard.service.ts:54-72 | The overdue and due-soon lists sum and count to the filtered aggregates over the table, which the dashboard relies on. |
| Ledger.MarkPaidLeavesPending | apps/backend/src/services/accountsPayable.service.ts:135-144 | Paying a row lowers the pending total by its amount and the count by one exactly when it was pending in range, and removes it from the overdue and due-soon lists. |
| Ledger.MarkPaid | apps/backend/src/services/accountsPayable.service.ts:135-144 | Settling writes status PAID, the date and the method, keeps every other column, and leaves the row outside every pending query. |
| Ledger.AppendPendingTotal | apps/backend/src/services/accountsPayable.service.ts:20-30 | Creating a row raises the pending total and count exactly when the new row is pending and in range. |
| Ledger.StoredInstallments | apps/backend/src/services/accountsPayable.service.ts:24 | `totalInstallments || 1`: a given non-zero count is kept, and a missing or zero count becomes 1. |
| Ledger.BuildInstallments | apps/backend/src/services/accountsPayable.service.ts:33-49 | The installment loop produces exactly the schedule: installment `i` is number `i`, pending, with its share of the amount, due `i-1` months after the first due date. |
| Ledger.ScheduleSumsToAmount | apps/backend/src/services/accountsPayable.service.ts:33-48 | The equal shares of an installment plan add back up to the account's amount. |
| Ledger.EqualSharesSum | apps/backend/src/services/accountsPayable.service.ts:34 | `n` installments of one share sum to `n` times the share. |
| Ledger.ScheduleShape | apps/backend/src/services/accountsPayable.service.ts:33-49 | A plan of `n` has `n` rows numbered 1 to `n` for the parent, all pending, the first due on the account's own due date. |
| Ledger.ListAccounts | apps/backend/src/services/accountsPayable.service.ts:59-100 | A list call returns the window of rows `(page-1)*limit` onward, `limit` long, of the filtered rows sorted by due date (equal due dates in no promised order), with the matching count and `ceil(total/limit)` pages; only page or limit below 1 fails. |
| Ledger.NewRow | apps/backend/src/services/accountsPayable.service.ts:20-30 | A created account is pending with the given amount and due date and `totalInstallments || 1`. |
| AccountsPayable.Create | apps/backend/src/services/accountsPayable.service.ts:7-56 | Creating a bill appends one pending row with the next id and, when split in more than one installment, exactly its installment schedule. |
| AccountsPayable.MarkAsPaid | apps/backend/src/services/accountsPayable.service.ts:135-144 | Paying a bill sets status PAID, the paid date and the method on that row only; an unknown id fails and changes nothing. |
| AccountsPayable.AddAttachment | apps/backend/src/services/accountsPayable.service.ts:147-158 | An attachment URL is appended to that bill's list and nothing else changes; an unknown id throws "Account not found". |
| AccountsPayable.List | apps/backend/src/services/accountsPayable.service.ts:59-100 | The window for `page` and `limit` of the bills matching status, supplier and due range sorted by due date, with total and page count. |
| AccountsPayable.GetOverdue | apps/backend/src/services/accountsPayable.service.ts:168-185 | Exactly the pending bills due before today, by due date. |
| AccountsPayable.GetDueSoon | apps/backend/src/services/accountsPayable.service.ts:188-209 | Exactly the pending bills due from today to `days` days ahead, by due date. |
| AccountsPayable.GetTotalPayable | apps/backend/src/services/accountsPayable.service.ts:212-231 | Sum and count of the pending bills due in the optional range. |
| AccountsReceivable.Create | apps/backend/src/services/accountsReceivable.service.ts:7-57 | Creating an invoice appends one pending row with the next id and its installment schedule when split. |
| AccountsReceivable.SaleAccount | apps/backend/src/services/accountsReceivable.service.ts:60-78 | The invoice for a sale is for the sale's grand total, due now, for the sale's customer, linked to the sale. |
| AccountsReceivable.CreateFromSale | apps/backend/src/services/accountsReceivable.service.ts:60-78 | A known sale yields one new pending invoice for its total; an unknown sale throws "Sale not found" and changes nothing. |
| AccountsReceivable.SaleAccountIsPending | apps/backend/src/services/accountsReceivable.service.ts:60-78 | The invoice from a sale is pending and raises the receivable pending total by the sale total whenever it is in range. |
| AccountsReceivable.MarkAsPaid | apps/backend/src/services/accountsReceivable.service.ts:160-169 | Receiving sets status PAID, the received date and the method on that row only; an unknown id fails and changes nothing. |
| AccountsReceivable.List | apps/backend/src/services/accountsReceivable.service.ts:81-123 | The window for `page` and `limit` of the invoices matching status, customer and due range sorted by due date, with total and page count. |
| AccountsReceivable.GetOverdue | apps/backend/src/services/accountsReceivable.service.ts:179-196 | Exactly the pending invoices due before today, by due date. |
| AccountsReceivable.GetDueSoon | apps/backend/src/services/accountsReceivable.service.ts:199-220 | Exactly the pending invoices due from today to `days` days ahead, by due date. |
| AccountsReceivable.GetTotalReceivable | apps/backend/src/services/accountsReceivable.service.ts:223-242 | Sum and count of the pending invoices due in the optional range. |
| Financial.CeilDaysAtMost | apps/backend/src/services/financial.service.ts:61-69 | Rounded-up days until due are at most `n` exactly when the time until due is at most `n` days. |
| Financial.DaysUntilDue | apps/backend/src/services/financial.service.ts:59-62 | The days until due are the whole days, rounded up, from now to the due instant: `now + (d-1)` days is before it and `now + d` days is at or after it. |
| Financial.PayableStatus | apps/backend/src/services/financial.service.ts:58-72 | A pending bill is OVERDUE iff a full day past due, DUE_TODAY iff due within the last day, DUE_SOON iff due within the next ten days, else PENDING; settled bills keep their status. |
| Financial.ReceivableStatus | apps/backend/src/services/financial.service.ts:205-215 | Same for invoices, except an invoice is never DUE_SOON: a pending invoice due later stays PENDING. |
| Financial.Annotated | apps/backend/src/services/financial.service.ts:34-73 | A listing holds exactly the matching rows, as a multiset, in due-date order (equal due dates in no promised order), each with its days until due and classification. |
| Financial.ListPayables | apps/backend/src/services/financial.service.ts:34-73 | The bill listing with the payable classification; the date filter applies only when both bounds are given. |
| Financial.ListReceivables | apps/backend/src/services/financial.service.ts:181-219 | The invoice listing with the receivable classification. |
| Financial.CreatedRow | apps/backend/src/services/financial.service.ts:79-89 | A created account is pending with the given amount and due date, and zero or missing ids become null. |
| Financial.FileRows | apps/backend/src/services/financial.service.ts:91-106 | One attachment row per uploaded file, in order, with fresh ids, linked to the new account and its uploader. |
| Financial.CreatePayable | apps/backend/src/services/financial.service.ts:75-120 | Creating a bill appends the row, its attachment rows and exactly one CREATE audit entry. |
| Financial.CreateReceivable | apps/backend/src/services/financial.service.ts:221-266 | Creating an invoice appends the row with its sale link, its attachment rows and one CREATE audit entry. |
| Financial.AmountToSettle | apps/backend/src/services/financial.service.ts:128 | `data.amount || bill.amount`: a given non-zero amount is used, otherwise the amount owed. |
| Financial.CheckSettlement | apps/backend/src/services/financial.service.ts:124-126 | Settlement fails with 404 for an unknown id, then 400 when already paid, then record-not-found for a named bank that does not exist; otherwise it names the row and bank. |
| Financial.AdjustBalance | apps/backend/src/services/financial.service.ts:155-162 | Only the chosen bank's balance moves, by exactly the delta. |
| Financial.AdjustBalanceTotal | apps/backend/src/services/financial.service.ts:155-162 | The total over all banks moves by exactly the delta. |
| Financial.PayBill | apps/backend/src/services/financial.service.ts:122-177 | Paying a bill either fails and changes nothing (all-or-nothing transaction), or marks it PAID, records one EXPENSE, debits the chosen bank by the amount paid and logs one UPDATE with old and new rows. |
| Financial.WritePayment | apps/backend/src/services/financial.service.ts:128-173 | Once the checks pass, the bill row becomes PAID in place, one EXPENSE entry with the next id is appended, the named bank is debited and one UPDATE audit entry is logged; nothing else changes. |
| Financial.ReceivePayment | apps/backend/src/services/financial.service.ts:268-323 | Receiving either fails and changes nothing, or marks the invoice PAID, records one INCOME, credits the chosen bank and logs one UPDATE. |
| Financial.WriteReceipt | apps/backend/src/services/financial.service.ts:274-319 | The receiving mirror: the invoice becomes PAID, one INCOME entry is appended, the named bank is credited and one UPDATE is logged. |
| Financial.SettlementTx | apps/backend/src/services/financial.service.ts:140-152 | The cash-flow entry of a settlement points at the settled account, carries its category and the amount settled, names a bank only for a non-zero bank id, and falls in a period exactly when the settlement instant does. |
| Financial.SettleTwiceFails | apps/backend/src/services/financial.service.ts:126 | Settling the same row a second time always fails with "already paid". |
| Financial.IndexOfAfterUpdate | apps/backend/src/services/financial.service.ts:130-137 | Updating a row in place keeps it findable at the same position. |
| Financial.GetFinancialStats | apps/backend/src/services/financial.service.ts:346-401 | The statistics report the pending totals of both ledgers over all dates (`_sum || 0`), the sums of the INCOME and of the EXPENSE entries dated from `start` to `end` inclusive, and the bank balances as stored. The source passes the first day's midnight and the last day's midnight, so the rest of the last day is left out (see Findings). |
| Financial.MonthEndAsWrittenMissesLastDay | apps/backend/src/services/financial.service.ts:348-383 | With the month end as the source computes it, an entry dated on the last day after midnight lies in the calendar month yet adds nothing to the month's sum of its type. |
| Financial.MonthStats | apps/backend/src/services/financial.service.ts:346-401 | With the end at the last millisecond of the month, the month's INCOME and EXPENSE sums are exactly the sums over the entries dated in the calendar month; the other fields are those of the statistics. |
| Financial.PayBillMovesStats | apps/backend/src/services/financial.service.ts:122-177 | Paying a bill lowers the payable pending total by its amount if it was pending, raises the expense sum when the payment instant lies between the period bounds, leaves receivables and income alone, and lowers total bank balance by the amount when a bank is named. |
| Financial.ReceivePaymentMovesStats | apps/backend/src/services/financial.service.ts:268-323 | The mirror image for receiving an invoice. |
| DailyCash.BucketOf | apps/backend/src/services/dailyCash.service.ts:139-173 | Each entry falls in exactly one bucket: an income bucket iff INCOME; cash, card (credit or debit) or PIX iff that method; otherwise "other". |
| DailyCash.BucketTotalsSnoc | apps/backend/src/services/dailyCash.service.ts:139-173 | Adding an entry adds its amount to its own bucket only. |
| DailyCash.BucketTotalsPermutation | apps/backend/src/services/dailyCash.service.ts:139-173 | Bucket totals do not depend on the order entries are read. |
| DailyCash.TotalsAreTypeSums | apps/backend/src/services/dailyCash.service.ts:175-193 | The income buckets together hold all INCOME and the expense buckets all EXPENSE. |
| DailyCash.SumBuckets | apps/backend/src/services/dailyCash.service.ts:139-173 | The accumulation loop computes exactly the bucket totals. |
| DailyCash.OpenedReport | apps/backend/src/services/dailyCash.service.ts:16-24 | A new register is open with zero totals and expected and closing balance equal to the opening balance. |
| DailyCash.Recompute | apps/backend/src/services/dailyCash.service.ts:128-196 | A recomputed report is balanced, its closing and expected balances are opening plus the INCOME entries minus the EXPENSE entries, and only the totals and balances change. |
| DailyCash.RecomputeOrderFree | apps/backend/src/services/dailyCash.service.ts:175-193 | The recomputed report depends on the multiset of linked entries, not on their order. |
| DailyCash.RecomputeIdempotent | apps/backend/src/services/dailyCash.service.ts:128-196 | Recomputing twice is the same as once. |
| DailyCash.Linked | apps/backend/src/services/dailyCash.service.ts:129-132 | The entries of a report are exactly the transactions pointing to it. |
| DailyCash.OpenCash | apps/backend/src/services/dailyCash.service.ts:7-25 | Opening a date that already has a register throws and changes nothing; otherwise one new open report is appended. |
| DailyCash.UpdateCashTotals | apps/backend/src/services/dailyCash.service.ts:128-196 | The report's totals are replaced by the recomputation from its linked entries, keeping every report balanced. |
| DailyCash.FindOrOpen | apps/backend/src/services/dailyCash.service.ts:61-63 | The day's register is found, or opened with balance 0 when missing. |
| DailyCash.RecordedByRecompute | apps/backend/src/services/dailyCash.service.ts:50-86 | Recording = opening the day if needed, appending the entry linked to that register, then recomputing that register. |
| DailyCash.Record | apps/backend/src/services/dailyCash.service.ts:50-125 | Records one entry and recomputes its day's register, keeping every report balanced. |
| DailyCash.RecordIncome | apps/backend/src/services/dailyCash.service.ts:50-86 | Records one INCOME entry (linked to its receivable when given) in the day's register. |
| DailyCash.RecordExpense | apps/backend/src/services/dailyCash.service.ts:89-125 | Records one EXPENSE entry (linked to its payable when given) in the day's register. |
| DailyCash.RecordMovesReport | apps/backend/src/services/dailyCash.service.ts:50-125 | Recording an entry raises the day's income or expense by its amount and moves the closing balance up or down by it. |
| DailyCash.Close | apps/backend/src/services/dailyCash.service.ts:210-222 | Closing sets status CLOSED, the counted balance, who closed it, and difference = counted - expected; totals are untouched. |
| DailyCash.CloseCash | apps/backend/src/services/dailyCash.service.ts:199-223 | Closing a missing register or a closed one throws and changes nothing; otherwise that report alone is closed. |
| DailyCash.CloseThenRecord | apps/backend/src/services/dailyCash.service.ts:175-193 | A later recompute of a closed register keeps it closed and its difference, but overwrites the counted closing balance with the expected one. |
| DailyCash.WorkedExample | apps/backend/src/services/dailyCash.service.ts:128-223 | Cash 100 and PIX 50 in, card 20 out, counted 125: income 150, expense 20, expected 130, difference -5. |
| DailyCash.List | apps/backend/src/services/dailyCash.service.ts:226-266 | The registers matching status and date range, newest first: the page holds exactly `min(limit, total - (page-1)*limit)` of them (none past the end), and it is the window for `page` and `limit` of those registers sorted by date, with total and page count. |
| DailyCash.GetSummary | apps/backend/src/services/dailyCash.service.ts:269-306 | The summary loop sums each field over the registers in the range, counts them, and net flow = income - expense. |
| DailyCash.SummaryBreakdown | apps/backend/src/services/dailyCash.service.ts:269-306 | Over balanced registers, summed income is the cash, card, PIX and "other" buckets together, and likewise expense. |
| PaymentAlert.HorizonAlert | apps/backend/src/services/paymentAlert.service.ts:22-31 | Alerts are raised only 0, 1, 3 or 7 days ahead, as DUE_TODAY/URGENT, DUE_TOMORROW/HIGH, DUE_IN_3_DAYS/MEDIUM and DUE_IN_7_DAYS/LOW; the generator's specification `LedgerScans` takes each horizon's type and priority from it. |
| PaymentAlert.AlertExists | apps/backend/src/services/paymentAlert.service.ts:58-68 | True iff an alert for the same account and type was created on or after the cut-off. |
| PaymentAlert.ScanAppends | apps/backend/src/services/paymentAlert.service.ts:47-83 | A scan keeps every existing alert and appends at most one per account, each new, unread, undismissed, with the next id and the account's due date and amount. |
| PaymentAlert.NewAlert | apps/backend/src/services/paymentAlert.service.ts:70-79 | A created alert is unread, undismissed, copies the due date and amount, and is found by the existence check of any later scan of its account and type with a cut-off up to its stamp. |
| PaymentAlert.ScanCovers | apps/backend/src/services/paymentAlert.service.ts:47-83 | After a scan every selected account has an alert of that type. |
| PaymentAlert.ScanNoop | apps/backend/src/services/paymentAlert.service.ts:58-68 | A scan of accounts already covered adds nothing. |
| PaymentAlert.ScanRepeat | apps/backend/src/services/paymentAlert.service.ts:58-68 | Repeating a scan with the same or an earlier cut-off adds nothing. |
| PaymentAlert.HorizonScanRepeatsLater | apps/backend/src/services/paymentAlert.service.ts:58-68 | The horizon check only looks at alerts created since "now", so a later run of the same scan raises the same alert again. |
| PaymentAlert.ScanOncePerAccount | apps/backend/src/services/paymentAlert.service.ts:47-83 | One scan never raises two alerts for the same account. |
| PaymentAlert.ScanLoop | apps/backend/src/services/paymentAlert.service.ts:58-81 | The `for … of` loop with its find-then-create step leaves exactly the alert table of the scan over the accounts in order. |
| PaymentAlert.ScanRowNumbers | apps/backend/src/services/paymentAlert.service.ts:70-79 | The alerts a scan creates keep the ids equal to the row numbers of the table. |
| PaymentAlert.InsertMissingAlerts | apps/backend/src/services/paymentAlert.service.ts:58-80 | The create-if-missing loop leaves exactly the scan's alert table. |
| PaymentAlert.CreateAlertsForPayables | apps/backend/src/services/paymentAlert.service.ts:47-83 | Scans the pending bills due on the given day. |
| PaymentAlert.CreateOverdueAlerts | apps/backend/src/services/paymentAlert.service.ts:86-123 | Scans the pending bills due before today as OVERDUE/URGENT, one per bill per day. |
| PaymentAlert.CreateAlertsForReceivables | apps/backend/src/services/paymentAlert.service.ts:126-161 | Scans the pending invoices due on the given day. |
| PaymentAlert.CreateOverdueReceivablesAlerts | apps/backend/src/services/paymentAlert.service.ts:164-201 | Scans the pending invoices due before today. |
| PaymentAlert.GenerateAlertsForDueAccounts | apps/backend/src/services/paymentAlert.service.ts:7-44 | The generator runs the four horizons and the overdue scan for bills, then for invoices, in that order. |
| PaymentAlert.LedgerScansCover | apps/backend/src/services/paymentAlert.service.ts:20-41 | After one ledger's five scans every selected account of that ledger is covered. |
| PaymentAlert.GenerateCovers | apps/backend/src/services/paymentAlert.service.ts:7-44 | After a run the old alerts are kept, and every due or overdue account in both ledgers has its alert. |
| PaymentAlert.GenerateRepeat | apps/backend/src/services/paymentAlert.service.ts:7-44 | Running the generator twice at the same instant is the same as once. |
| PaymentAlert.MarkAsRead | apps/backend/src/services/paymentAlert.service.ts:255-263 | Sets read and the read time on that alert only; an unknown id fails and changes nothing. |
| PaymentAlert.Dismiss | apps/backend/src/services/paymentAlert.service.ts:266-273 | Sets dismissed on that alert only; an unknown id fails and changes nothing. |
| PaymentAlert.UnreadCount | apps/backend/src/services/paymentAlert.service.ts:276-283 | The number of alerts neither read nor dismissed. |
| PaymentAlert.FlagsLeaveUnread | apps/backend/src/services/paymentAlert.service.ts:255-283 | Reading or dismissing an alert lowers the unread count by one iff it was unread; both are idempotent and change no other field. |
| PaymentAlert.AlertsByPriority | apps/backend/src/services/paymentAlert.service.ts:286-300 | A priority is a key iff some unread alert has it, mapped to that count. |
| PaymentAlert.PriorityCountsSum | apps/backend/src/services/paymentAlert.service.ts:286-300 | The per-priority counts add up to the unread count. |
| PaymentAlert.List | apps/backend/src/services/paymentAlert.service.ts:204-252 | The page holds exactly `min(limit, total - (page-1)*limit)` stored alerts matching the filters (none past the end), and it is the window for `page` and `limit` of some ordering of all matching alerts, with the matching total and page count. |
| Dashboard.LedgerBlockFigures | apps/backend/src/services/financialDashboard.service.ts:54-72 | A ledger's block reports the pending sum and count in the period and the overdue and due-soon sums and counts. |
| Dashboard.PayableBlock | apps/backend/src/services/financialDashboard.service.ts:24-28 | The payable block equals those figures for the bills. |
| Dashboard.ReceivableBlock | apps/backend/src/services/financialDashboard.service.ts:31-35 | The receivable block equals those figures for the invoices. |
| Dashboard.GetDashboardOverview | apps/backend/src/services/financialDashboard.service.ts:11-103 | The period is a parameter; the source defaults it to the first day's midnight through the last day's midnight of the current month, used inclusively, which leaves out the rest of the last day (see Findings). Projected balance = pending receivables - pending payables; cash flow sums the registers with net flow = income - expense; alerts come from the unread count and the priority map. |
| Dashboard.DaysCoverWindow | apps/backend/src/services/financialDashboard.service.ts:113-135 | The day buckets of the window together hold exactly the rows due in the window. |
| Dashboard.RangeTotalSnoc | apps/backend/src/services/financialDashboard.service.ts:154-167 | Adding the next day adds exactly that day's due amounts. |
| Dashboard.SelectDayTotals | apps/backend/src/services/financialDashboard.service.ts:154-167 | Visiting only the window's rows gives the same per-day sums as filtering the table by day. |
| Dashboard.EmptyDays | apps/backend/src/services/financialDashboard.service.ts:140-151 | One zero bucket per day from today to today plus `days`, keyed by consecutive dates. |
| Dashboard.BookAll | apps/backend/src/services/financialDashboard.service.ts:154-167 | Each bucket receives the amounts of the rows due on its day. |
| Dashboard.RunningBalance | apps/backend/src/services/financialDashboard.service.ts:170-178 | Each day's balance is the running sum of net flows up to and including it. |
| Dashboard.GetProjectedCashFlow | apps/backend/src/services/financialDashboard.service.ts:106-181 | `days+1` buckets; each day's income and expense are the invoices and bills due that day, net = income - expense, and the last balance is the net of everything due in the window. |
| Dashboard.GroupKeys | apps/backend/src/services/financialDashboard.service.ts:186-198 | The group keys are distinct and are exactly the keys occurring among the rows. |
| Dashboard.GroupsFor | apps/backend/src/services/financialDashboard.service.ts:186-213 | `groupBy` gives, per key, the sum and count of that key's rows. |
| Dashboard.GroupedPartition | apps/backend/src/services/financialDashboard.service.ts:186-213 | The group totals and counts add up to the total and count of all grouped rows. |
| Dashboard.LabelFor | apps/backend/src/services/financialDashboard.service.ts:229-244 | A group is labelled with its category when its id is found, otherwise "Sem categoria" with the ledger's type. |
| Dashboard.LinesSums | apps/backend/src/services/financialDashboard.service.ts:184-246 | Labelling keeps each group's total and count. |
| Dashboard.GetCategoryAnalysis | apps/backend/src/services/financialDashboard.service.ts:184-246 | Expense lines sum and count to the bills due in the range and income lines to the invoices due in the range, whatever their status. |
| Dashboard.Take | apps/backend/src/services/financialDashboard.service.ts:275 | `take: limit` keeps the first `limit` groups. |
| Dashboard.TakeLargest | apps/backend/src/services/financialDashboard.service.ts:269-275 | `orderBy _sum desc, take limit` keeps `limit` groups (all of them when there are fewer, none for a limit below 1), in descending total, each at most as often as it occurs among the groups, and no group left out has a larger total than a kept one. |
| Dashboard.DistinctKeysKept | apps/backend/src/services/financialDashboard.service.ts:258-276 | Keeping groups of a `groupBy` result at most as often as they occur keeps every counterparty at most once. |
| Dashboard.TopCounterparties | apps/backend/src/services/financialDashboard.service.ts:258-276 | The top groups are at most `limit`, ordered by descending total, no counterparty twice, each a real counterparty with a positive count and its true sum, and no group left out is larger than one kept. |
| Dashboard.GetTopSuppliers | apps/backend/src/services/financialDashboard.service.ts:249-297 | The top suppliers of the bills due in the range, each once, with its true sum and a positive count. |
| Dashboard.GetTopCustomers | apps/backend/src/services/financialDashboard.service.ts:300-348 | The top customers of the invoices due in the range, each once, with its true sum and a positive count. |

## Left out

- Reading one record by id or by date, generic `update` and `delete` on either ledger, `listTransactions`, and the category and bank-account catalogue calls: plain store access with no logic of their own.
- The text of transaction descriptions (other than the sale invoice's), the attachment metadata, and the contents of audit payloads: the model keeps the rows the audit entry points at, not the serialized JSON.
- The JSON `attachments` column of the ledger services and the upload middleware: an attachment is a URL or a file name.
- Calendar arithmetic is a parameter: month addition, start and end of the month, local midnight and daylight saving. A day is exactly `DayMs`, as the services write `24*60*60*1000`.
- Decimal and floating-point money: amounts are exact reals, so no rounding of installment shares is modelled.
- The concurrency of `Promise.all`, and time passing during one call: each call reads the clock once.
- The store's failure modes other than record-not-found: connection errors, constraint violations, and rollbacks of partial writes outside a transaction.
- Query strings and form fields come already typed; a string id such as "0" or "" is modelled through `TruthyId` only.
- PaymentAlert.List: the page is the window of some ordering of the matching alerts; which ordering (priority descending, then alert date descending) is not stated, because `orderBy priority desc` sorts the enum in the order the database schema declares its values, and that declaration is not part of this model.
- Dashboard.TopCounterparties: a negative `limit` yields no groups, while the store would reject it; the supplier and customer records are not joined, so the result is the ids.
- Dashboard.GetProjectedCashFlow: the rows are visited in store order, not due-date order, which leaves every sum unchanged.
- AccountsPayable.Create: the source's bill input has no sale link, so the model requires none.
- Transaction types other than INCOME and EXPENSE.
- Paging.Paginate: a page or limit below 1 is refused with `InvalidPaging`, which the source does not do. There a `?limit=0` query reaches the service as 0 and yields an empty page with `totalPages` Infinity, or NaN with no rows; a negative limit goes straight to the store's `take`. Those results are not numbers the model can hold.
- Default arguments are not modelled: every call passes `page` (default 1), `limit` (25 for the ledger and cash-register lists, 50 for alerts, 10 for `getTopSuppliers`), `days` (7 for `getDueSoon`, 30 for `getProjectedCashFlow`) and `totalInstallments` of `createFromSale` (1) explicitly.

## Findings

| source | as written | input that shows it | evidently intended | confidence | as-written member | corrected member |
|---|---|---|---|---|---|---|
| apps/backend/src/services/financial.service.ts:349 | The month end is `new Date(y, m + 1, 0)`, midnight at the start of the month's last day, compared with `lte` (the same bounds default the dashboard period at financialDashboard.service.ts:16) | an EXPENSE settled on the month's last day at 10:00 is missing from `expenseMonth` | every entry dated in the calendar month counts, up to the last millisecond of its last day | not executed | Financial.MonthEndAsWrittenMissesLastDay | Financial.MonthStats |
