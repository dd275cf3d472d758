/** The unified financial service: settling a bill or a receivable (status flip, one cash-flow
    transaction, one bank balance adjustment, one audit entry, all or nothing), creating an
    account with its uploaded files and audit entry, the listings that add a virtual status
    computed from the days until the due date, and the headline statistics. */
module Financial {
  import opened Common
  import opened Store
  import opened Ordering
  import opened Ledger

  // ---------------------------------------------------------------------------------------
  // Virtual status of the listings

  /** The status a listing shows: the stored one, or a due-date classification of a PENDING
      account. */
  datatype VirtualStatus = AsStored(status: AccountStatus) | OverdueStatus | DueTodayStatus | DueSoonStatus

  /** A listed account with its virtual status and the whole days until it falls due. */
  datatype Listed = Listed(account: Account, virtualStatus: VirtualStatus, daysUntilDue: int)

  /** `Math.ceil((dueDate - now) / day)`: the whole days it takes to reach the due instant,
      counting a started day as a whole one. */
  function DaysUntilDue(dueDate: Time, now: Time): (d: int)
    ensures now + (d - 1) * DayMs < dueDate <= now + d * DayMs
  {
    CeilDays(dueDate - now)
  }

  /** The payable classification: overdue below zero days, due today at zero, due soon up to
      ten days; the stored status otherwise and for every non-PENDING account. In time: OVERDUE
      once a full day has passed since the due instant, DUE_TODAY within the day before it,
      DUE_SOON for the ten days after now. */
  function PayableStatus(a: Account, now: Time): (s: VirtualStatus)
    ensures a.status != Pending ==> s == AsStored(a.status)
    ensures s == OverdueStatus <==> a.status == Pending && a.dueDate <= now - DayMs
    ensures s == DueTodayStatus <==> a.status == Pending && now - DayMs < a.dueDate <= now
    ensures s == DueSoonStatus <==> a.status == Pending && now < a.dueDate <= now + 10 * DayMs
    ensures s == AsStored(Pending) <==> a.status == Pending && now + 10 * DayMs < a.dueDate
  {
    var d := DaysUntilDue(a.dueDate, now);
    CeilDaysAtMost(a.dueDate - now, -1);
    CeilDaysAtMost(a.dueDate - now, 0);
    CeilDaysAtMost(a.dueDate - now, 10);
    if a.status != Pending then AsStored(a.status)
    else if d < 0 then OverdueStatus
    else if d == 0 then DueTodayStatus
    else if d <= 10 then DueSoonStatus
    else AsStored(a.status)
  }

  /** The receivable classification: the same without the due-soon band, so a PENDING
      receivable due after now keeps its stored status. */
  function ReceivableStatus(a: Account, now: Time): (s: VirtualStatus)
    ensures s != DueSoonStatus
    ensures a.status != Pending ==> s == AsStored(a.status)
    ensures s == OverdueStatus <==> a.status == Pending && a.dueDate <= now - DayMs
    ensures s == DueTodayStatus <==> a.status == Pending && now - DayMs < a.dueDate <= now
    ensures s == AsStored(Pending) <==> a.status == Pending && now < a.dueDate
  {
    var d := DaysUntilDue(a.dueDate, now);
    CeilDaysAtMost(a.dueDate - now, -1);
    CeilDaysAtMost(a.dueDate - now, 0);
    if a.status != Pending then AsStored(a.status)
    else if d < 0 then OverdueStatus
    else if d == 0 then DueTodayStatus
    else AsStored(a.status)
  }

  /** `ceil(x / day) <= n` exactly when `x <= n` days. */
  lemma CeilDaysAtMost(x: int, n: int)
    ensures CeilDays(x) <= n <==> x <= n * DayMs
  {
    var d := CeilDays(x);
    if d <= n {
      MulDayMonotone(d, n);
    } else {
      MulDayMonotone(n, d - 1);
    }
  }

  lemma MulDayMonotone(a: int, b: int)
    requires a <= b
    ensures a * DayMs <= b * DayMs
  {
  }

  /** The where clause of the unified listings: the due-date range applies only when both
      bounds are given. */
  predicate MatchesListing(a: Account, f: ListFilter) {
    && (f.status.None? || a.status == f.status.value)
    && (TruthyId(f.counterpartyId).None? || a.counterpartyId == f.counterpartyId)
    && (f.startDate.Some? && f.endDate.Some? ==> f.startDate.value <= a.dueDate <= f.endDate.value)
  }

  function ListingTest(f: ListFilter): Account -> bool { a => MatchesListing(a, f) }

  /** The accounts of a listing, in its order. */
  function Accounts(r: seq<Listed>): seq<Account> {
    seq(|r|, k requires 0 <= k < |r| => r[k].account)
  }

  /** What a listing returns: the matching rows, each as many times as it occurs among the
      rows, by ascending due date (rows with equal due dates in no promised order), each with
      the classification `classify` gives it and its days until due. */
  ghost predicate IsListing(r: seq<Listed>, rows: seq<Account>, f: ListFilter, now: Time,
                            classify: Account -> VirtualStatus)
  {
    && |r| == CountWhere(rows, ListingTest(f))
    && (forall k :: 0 <= k < |r| ==>
          && r[k].account in rows && MatchesListing(r[k].account, f)
          && r[k].virtualStatus == classify(r[k].account)
          && r[k].daysUntilDue == DaysUntilDue(r[k].account.dueDate, now))
    && (forall a :: a in rows && MatchesListing(a, f) ==> exists k :: 0 <= k < |r| && r[k].account == a)
    && (forall i, j :: 0 <= i < j < |r| ==> r[i].account.dueDate <= r[j].account.dueDate)
    && multiset(Accounts(r)) == multiset(Select(rows, ListingTest(f)))
  }

  function PayableStatusAt(now: Time): Account -> VirtualStatus { a => PayableStatus(a, now) }
  function ReceivableStatusAt(now: Time): Account -> VirtualStatus { a => ReceivableStatus(a, now) }

  /** Each row with its classification and its days until due. */
  function Annotate(ordered: seq<Account>, now: Time, classify: Account -> VirtualStatus): seq<Listed> {
    seq(|ordered|, k requires 0 <= k < |ordered| =>
          Listed(ordered[k], classify(ordered[k]), DaysUntilDue(ordered[k].dueDate, now)))
  }

  /** The matching rows in due-date order, each annotated by `classify`. */
  function Annotated(rows: seq<Account>, f: ListFilter, now: Time, classify: Account -> VirtualStatus): (r: seq<Listed>)
    ensures IsListing(r, rows, f, now, classify)
  {
    AnnotatedIsListing(rows, f, now, classify);
    Annotate(SortBy(Select(rows, ListingTest(f)), DueKey), now, classify)
  }

  lemma AnnotatedIsListing(rows: seq<Account>, f: ListFilter, now: Time, classify: Account -> VirtualStatus)
    ensures IsListing(Annotate(SortBy(Select(rows, ListingTest(f)), DueKey), now, classify), rows, f, now, classify)
  {
    var selected := Select(rows, ListingTest(f));
    var ordered := SortBy(selected, DueKey);
    SortByMembers(selected, DueKey);
    var r := Annotate(ordered, now, classify);
    forall k | 0 <= k < |r|
      ensures r[k].account in rows && MatchesListing(r[k].account, f)
    {
      assert r[k].account == ordered[k] && ordered[k] in selected;
    }
    forall a | a in rows && MatchesListing(a, f) ensures exists k :: 0 <= k < |r| && r[k].account == a {
      assert a in ordered;
      var k :| 0 <= k < |ordered| && ordered[k] == a;
      assert r[k].account == a;
    }
    forall i, j | 0 <= i < j < |r| ensures r[i].account.dueDate <= r[j].account.dueDate {
      assert DueKey(ordered[i]) <= DueKey(ordered[j]);
    }
    assert Accounts(r) == ordered;
  }

  /** `listPayables`. */
  function ListPayables(db: Db, f: ListFilter, now: Time): (r: seq<Listed>)
    reads db
    ensures IsListing(r, db.payables, f, now, PayableStatusAt(now))
  {
    Annotated(db.payables, f, now, PayableStatusAt(now))
  }

  /** `listReceivables`. */
  function ListReceivables(db: Db, f: ListFilter, now: Time): (r: seq<Listed>)
    reads db
    ensures IsListing(r, db.receivables, f, now, ReceivableStatusAt(now))
  {
    Annotated(db.receivables, f, now, ReceivableStatusAt(now))
  }

  // ---------------------------------------------------------------------------------------
  // Creation with uploaded files and an audit entry

  /** The fields the unified create reads from the request body. */
  datatype CreateInput = CreateInput(
    description: string, amount: Money, dueDate: Time,
    counterpartyId: Option<int>, categoryId: Option<int>, saleId: Option<int>, note: Option<string>)

  /** The row the unified create stores: PENDING, falsy ids stored as null, one installment,
      no attachment list. */
  function CreatedRow(id: int, data: CreateInput, withSale: bool): (a: Account)
    ensures a.id == id && a.status == Pending && a.amount == data.amount && a.dueDate == data.dueDate
    ensures a.counterpartyId == TruthyId(data.counterpartyId) && a.categoryId == TruthyId(data.categoryId)
    ensures a.saleId == (if withSale then TruthyId(data.saleId) else None)
  {
    Account(id, data.description, TruthyId(data.counterpartyId), TruthyId(data.categoryId),
            if withSale then TruthyId(data.saleId) else None, data.amount, data.dueDate, Pending,
            None, None, 1, [], data.note)
  }

  /** One attachment row per uploaded file, with consecutive ids after `count` rows. */
  function FileRows(count: nat, files: seq<string>, account: AccountRef, userId: int): (r: seq<Attachment>)
    ensures |r| == |files|
    ensures forall k :: 0 <= k < |r| ==>
              r[k].id == count + k + 1 && r[k].fileName == files[k] && r[k].account == account && r[k].uploadedBy == userId
  {
    seq(|files|, k requires 0 <= k < |files| => Attachment(count + k + 1, files[k], account, userId))
  }

  /** `createPayable`: one PENDING payable, one attachment row per file, one CREATE entry. */
  method CreatePayable(db: Db, data: CreateInput, userId: int, files: seq<string>) returns (payable: Account)
    requires db.Valid()
    modifies db`payables, db`attachmentRows, db`audit
    ensures db.Valid()
    ensures payable == CreatedRow(|old(db.payables)| + 1, data, false)
    ensures db.payables == old(db.payables) + [payable]
    ensures db.attachmentRows == old(db.attachmentRows) + FileRows(|old(db.attachmentRows)|, files, PayableRef(payable.id), userId)
    ensures db.audit == old(db.audit) + [AuditEntry(userId, PayableTable, Create, None, payable)]
  {
    payable := CreatedRow(|db.payables| + 1, data, false);
    db.payables := db.payables + [payable];
    db.attachmentRows := db.attachmentRows + FileRows(|db.attachmentRows|, files, PayableRef(payable.id), userId);
    db.audit := db.audit + [AuditEntry(userId, PayableTable, Create, None, payable)];
  }

  /** `createReceivable`: as `createPayable`, also keeping a truthy sale id. */
  method CreateReceivable(db: Db, data: CreateInput, userId: int, files: seq<string>) returns (receivable: Account)
    requires db.Valid()
    modifies db`receivables, db`attachmentRows, db`audit
    ensures db.Valid()
    ensures receivable == CreatedRow(|old(db.receivables)| + 1, data, true)
    ensures db.receivables == old(db.receivables) + [receivable]
    ensures db.attachmentRows == old(db.attachmentRows) + FileRows(|old(db.attachmentRows)|, files, ReceivableRef(receivable.id), userId)
    ensures db.audit == old(db.audit) + [AuditEntry(userId, ReceivableTable, Create, None, receivable)]
  {
    receivable := CreatedRow(|db.receivables| + 1, data, true);
    db.receivables := db.receivables + [receivable];
    db.attachmentRows := db.attachmentRows + FileRows(|db.attachmentRows|, files, ReceivableRef(receivable.id), userId);
    db.audit := db.audit + [AuditEntry(userId, ReceivableTable, Create, None, receivable)];
  }

  // ---------------------------------------------------------------------------------------
  // Settlement

  /** The body of a pay or receive request. */
  datatype Settlement = Settlement(
    pm: PaymentMethod, bankAccountId: Option<int>, amount: Option<Money>, date: Option<Time>)

  /** `data.amount || Number(account.amount)`: a missing or zero amount settles the full amount. */
  function AmountToSettle(given: Option<Money>, owed: Money): (m: Money)
    ensures given.Some? && given.value != 0.0 ==> m == given.value
    ensures given.None? || given.value == 0.0 ==> m == owed
  {
    if given.Some? && given.value != 0.0 then given.value else owed
  }

  /** `data.paidDate || new Date()`. */
  function SettledDate(given: Option<Time>, now: Time): Time {
    if given.Some? then given.value else now
  }

  /** The rows a settlement touches: the account and, when a bank account is named, the bank. */
  datatype Target = Target(row: nat, bank: Option<nat>)

  /** The checks a settlement makes before writing anything: the account exists (else
      `missing`), is not PAID (else `paid`), and a named bank account exists (else the store
      rejects the balance update and the whole transaction is rolled back). */
  function CheckSettlement(rows: seq<Account>, banks: seq<BankAccount>, id: int, bankAccountId: Option<int>,
                           missing: Error, paid: Error): (r: Result<Target>)
    ensures IndexOf(rows, id, AccountId).None? ==> r == Err(missing)
    ensures IndexOf(rows, id, AccountId).Some? && rows[IndexOf(rows, id, AccountId).value].status == Paid ==> r == Err(paid)
    ensures IndexOf(rows, id, AccountId).Some? && rows[IndexOf(rows, id, AccountId).value].status != Paid
            && TruthyId(bankAccountId).Some? && IndexOf(banks, bankAccountId.value, BankId).None?
            ==> r == Err(RecordNotFound)
    ensures r.Ok? ==> && Some(r.value.row) == IndexOf(rows, id, AccountId)
                      && rows[r.value.row].status != Paid
                      && (TruthyId(bankAccountId).None? ==> r.value.bank.None?)
                      && (TruthyId(bankAccountId).Some? ==> r.value.bank == IndexOf(banks, bankAccountId.value, BankId)
                                                            && r.value.bank.Some?)
  {
    match IndexOf(rows, id, AccountId)
    case None => Err(missing)
    case Some(i) =>
      if rows[i].status == Paid then Err(paid)
      else if TruthyId(bankAccountId).None? then Ok(Target(i, None))
      else match IndexOf(banks, bankAccountId.value, BankId)
        case None => Err(RecordNotFound)
        case Some(j) => Ok(Target(i, Some(j)))
  }

  /** `currentBalance: { increment: delta }` on bank row `j`. */
  function AdjustBalance(banks: seq<BankAccount>, j: nat, delta: Money): (r: seq<BankAccount>)
    requires j < |banks|
    ensures |r| == |banks|
    ensures r[j].currentBalance == banks[j].currentBalance + delta
    ensures forall k :: 0 <= k < |r| ==> r[k].id == banks[k].id && r[k].name == banks[k].name
    ensures forall k :: 0 <= k < |r| && k != j ==> r[k] == banks[k]
  {
    banks[j := banks[j].(currentBalance := banks[j].currentBalance + delta)]
  }

  function TotalBalance(banks: seq<BankAccount>): Money {
    if |banks| == 0 then 0.0 else TotalBalance(banks[..|banks| - 1]) + banks[|banks| - 1].currentBalance
  }

  /** Adjusting one balance moves the sum of all balances by exactly that amount. */
  lemma {:induction false} AdjustBalanceTotal(banks: seq<BankAccount>, j: nat, delta: Money)
    requires j < |banks|
    ensures TotalBalance(AdjustBalance(banks, j, delta)) == TotalBalance(banks) + delta
    decreases |banks|
  {
    var r := AdjustBalance(banks, j, delta);
    var n := |banks| - 1;
    if j == n {
      assert r[..n] == banks[..n];
    } else {
      assert r[..n] == AdjustBalance(banks[..n], j, delta);
      AdjustBalanceTotal(banks[..n], j, delta);
    }
  }

  /** The bank table after adding `delta` to the balance of the named bank, if any. */
  function BanksAfter(banks: seq<BankAccount>, target: Option<nat>, delta: Money): seq<BankAccount> {
    if target.Some? && target.value < |banks| then AdjustBalance(banks, target.value, delta) else banks
  }

  /** The cash-flow transaction a settlement appends. */
  function SettlementTx(id: int, txType: TxType, amount: Money, now: Time, account: Account,
                        ref: AccountRef, data: Settlement, userId: int): (t: Transaction)
    ensures t.account == Some(ref) && t.categoryId == account.categoryId
    ensures t.bankAccountId.Some? <==> data.bankAccountId.Some? && data.bankAccountId.value != 0
    ensures forall start, end :: InPeriod(t, txType, start, end) <==> start <= now <= end
    ensures t.amount == amount
  {
    Transaction(id, txType, amount, now, account.categoryId, TruthyId(data.bankAccountId), data.pm,
                Some(ref), userId, None)
  }

  /** `payBill`: on a failed check the store is unchanged; otherwise the bill becomes PAID,
      one EXPENSE of the settled amount is appended, the named bank balance decreases by it,
      and one UPDATE audit entry records the bill before and after. */
  method PayBill(db: Db, id: int, data: Settlement, userId: int, now: Time) returns (r: Result<Account>)
    requires db.Valid()
    modifies db`payables, db`transactions, db`banks, db`audit
    ensures db.Valid()
    ensures var c := CheckSettlement(old(db.payables), old(db.banks), id, data.bankAccountId,
                                     AppError(404, "Bill not found"), AppError(400, "Bill already paid"));
            && (c.Err? ==> && r == Err(c.error)
                           && db.payables == old(db.payables) && db.transactions == old(db.transactions)
                           && db.banks == old(db.banks) && db.audit == old(db.audit))
            && (c.Ok? ==>
                  var bill := old(db.payables)[c.value.row];
                  var amount := AmountToSettle(data.amount, bill.amount);
                  && r == Ok(MarkPaid(bill, SettledDate(data.date, now), data.pm))
                  && db.payables == old(db.payables)[c.value.row := r.value]
                  && db.transactions == old(db.transactions)
                       + [SettlementTx(|old(db.transactions)| + 1, Expense, amount, now, bill, PayableRef(bill.id), data, userId)]
                  && db.banks == BanksAfter(old(db.banks), c.value.bank, -amount)
                  && db.audit == old(db.audit) + [AuditEntry(userId, PayableTable, Update, Some(bill), r.value)])
  {
    var c := CheckSettlement(db.payables, db.banks, id, data.bankAccountId,
                             AppError(404, "Bill not found"), AppError(400, "Bill already paid"));
    if c.Err? {
      return Err(c.error);
    }
    var updated := WritePayment(db, c.value, data, userId, now);
    r := Ok(updated);
  }

  /** The writes of `payBill` once its checks have passed for row `t.row` and bank `t.bank`. */
  method WritePayment(db: Db, t: Target, data: Settlement, userId: int, now: Time) returns (updated: Account)
    requires db.Valid() && t.row < |db.payables|
    modifies db`payables, db`transactions, db`banks, db`audit
    ensures db.Valid()
    ensures var bill := old(db.payables)[t.row];
            var amount := AmountToSettle(data.amount, bill.amount);
            && updated == MarkPaid(bill, SettledDate(data.date, now), data.pm)
            && db.payables == old(db.payables)[t.row := updated]
            && db.transactions == old(db.transactions)
                 + [SettlementTx(|old(db.transactions)| + 1, Expense, amount, now, bill, PayableRef(bill.id), data, userId)]
            && db.banks == BanksAfter(old(db.banks), t.bank, -amount)
            && db.audit == old(db.audit) + [AuditEntry(userId, PayableTable, Update, Some(bill), updated)]
  {
    var bill := db.payables[t.row];
    var amount := AmountToSettle(data.amount, bill.amount);
    updated := MarkPaid(bill, SettledDate(data.date, now), data.pm);
    db.payables := db.payables[t.row := updated];
    db.transactions := db.transactions
      + [SettlementTx(|db.transactions| + 1, Expense, amount, now, bill, PayableRef(bill.id), data, userId)];
    db.banks := BanksAfter(db.banks, t.bank, -amount);
    db.audit := db.audit + [AuditEntry(userId, PayableTable, Update, Some(bill), updated)];
  }

  /** `receivePayment`: the mirror of `payBill` with an INCOME and a balance increase. */
  method ReceivePayment(db: Db, id: int, data: Settlement, userId: int, now: Time) returns (r: Result<Account>)
    requires db.Valid()
    modifies db`receivables, db`transactions, db`banks, db`audit
    ensures db.Valid()
    ensures var c := CheckSettlement(old(db.receivables), old(db.banks), id, data.bankAccountId,
                                     AppError(404, "Receivable not found"), AppError(400, "Receivable already paid"));
            && (c.Err? ==> && r == Err(c.error)
                           && db.receivables == old(db.receivables) && db.transactions == old(db.transactions)
                           && db.banks == old(db.banks) && db.audit == old(db.audit))
            && (c.Ok? ==>
                  var invoice := old(db.receivables)[c.value.row];
                  var amount := AmountToSettle(data.amount, invoice.amount);
                  && r == Ok(MarkPaid(invoice, SettledDate(data.date, now), data.pm))
                  && db.receivables == old(db.receivables)[c.value.row := r.value]
                  && db.transactions == old(db.transactions)
                       + [SettlementTx(|old(db.transactions)| + 1, Income, amount, now, invoice, ReceivableRef(invoice.id), data, userId)]
                  && db.banks == BanksAfter(old(db.banks), c.value.bank, amount)
                  && db.audit == old(db.audit) + [AuditEntry(userId, ReceivableTable, Update, Some(invoice), r.value)])
  {
    var c := CheckSettlement(db.receivables, db.banks, id, data.bankAccountId,
                             AppError(404, "Receivable not found"), AppError(400, "Receivable already paid"));
    if c.Err? {
      return Err(c.error);
    }
    var updated := WriteReceipt(db, c.value, data, userId, now);
    r := Ok(updated);
  }

  /** The writes of `receivePayment` once its checks have passed for row `t.row` and bank `t.bank`. */
  method WriteReceipt(db: Db, t: Target, data: Settlement, userId: int, now: Time) returns (updated: Account)
    requires db.Valid() && t.row < |db.receivables|
    modifies db`receivables, db`transactions, db`banks, db`audit
    ensures db.Valid()
    ensures var invoice := old(db.receivables)[t.row];
            var amount := AmountToSettle(data.amount, invoice.amount);
            && updated == MarkPaid(invoice, SettledDate(data.date, now), data.pm)
            && db.receivables == old(db.receivables)[t.row := updated]
            && db.transactions == old(db.transactions)
                 + [SettlementTx(|old(db.transactions)| + 1, Income, amount, now, invoice, ReceivableRef(invoice.id), data, userId)]
            && db.banks == BanksAfter(old(db.banks), t.bank, amount)
            && db.audit == old(db.audit) + [AuditEntry(userId, ReceivableTable, Update, Some(invoice), updated)]
  {
    var invoice := db.receivables[t.row];
    var amount := AmountToSettle(data.amount, invoice.amount);
    updated := MarkPaid(invoice, SettledDate(data.date, now), data.pm);
    db.receivables := db.receivables[t.row := updated];
    db.transactions := db.transactions
      + [SettlementTx(|db.transactions| + 1, Income, amount, now, invoice, ReceivableRef(invoice.id), data, userId)];
    db.banks := BanksAfter(db.banks, t.bank, amount);
    db.audit := db.audit + [AuditEntry(userId, ReceivableTable, Update, Some(invoice), updated)];
  }

  /** A settled account cannot be settled again: a second settlement of the same id fails with
      the "already paid" error whatever its arguments. */
  lemma SettleTwiceFails(rows: seq<Account>, banks: seq<BankAccount>, id: int, date: Time, pm: PaymentMethod,
                         bankAccountId: Option<int>, missing: Error, paid: Error)
    requires IndexOf(rows, id, AccountId).Some?
    ensures var i := IndexOf(rows, id, AccountId).value;
            CheckSettlement(rows[i := MarkPaid(rows[i], date, pm)], banks, id, bankAccountId, missing, paid) == Err(paid)
  {
    var i := IndexOf(rows, id, AccountId).value;
    var after := rows[i := MarkPaid(rows[i], date, pm)];
    IndexOfAfterUpdate(rows, i, MarkPaid(rows[i], date, pm), id);
  }

  /** Replacing the first row with a given id by a row with the same id keeps the lookup. */
  lemma {:induction false} IndexOfAfterUpdate(rows: seq<Account>, i: nat, x: Account, id: int)
    requires IndexOf(rows, id, AccountId) == Some(i) && x.id == id
    ensures IndexOf(rows[i := x], id, AccountId) == Some(i)
  {
    if i > 0 {
      assert rows[i := x][1..] == rows[1..][i - 1 := x];
      IndexOfAfterUpdate(rows[1..], i - 1, x, id);
    }
  }

  // ---------------------------------------------------------------------------------------
  // Statistics

  /** `getFinancialStats`: pending totals of both ledgers, this month's income and expense, and
      the bank accounts with their balances. */
  datatype Stats = Stats(payablePending: Money, receivablePending: Money,
                         incomeMonth: Money, expenseMonth: Money, accounts: seq<BankAccount>)

  predicate InPeriod(t: Transaction, txType: TxType, start: Time, end: Time) {
    t.txType == txType && start <= t.date <= end
  }

  function PeriodTest(txType: TxType, start: Time, end: Time): Transaction -> bool {
    t => InPeriod(t, txType, start, end)
  }

  /** The statistics over the tables; `start` and `end` are the instants the month bounds
      evaluate to. */
  function StatsOf(payables: seq<Account>, receivables: seq<Account>, transactions: seq<Transaction>,
                   banks: seq<BankAccount>, start: Time, end: Time): Stats
  {
    Stats(SumWhere(payables, PendingInTest(None, None), Amount),
          SumWhere(receivables, PendingInTest(None, None), Amount),
          SumWhere(transactions, PeriodTest(Income, start, end), TxAmount),
          SumWhere(transactions, PeriodTest(Expense, start, end), TxAmount),
          banks)
  }

  function GetFinancialStats(db: Db, start: Time, end: Time): (s: Stats)
    reads db
    ensures s.payablePending == PendingTotal(db.payables, None, None).total
    ensures s.receivablePending == PendingTotal(db.receivables, None, None).total
    ensures s.incomeMonth == SumWhere(db.transactions, PeriodTest(Income, start, end), TxAmount)
    ensures s.expenseMonth == SumWhere(db.transactions, PeriodTest(Expense, start, end), TxAmount)
    ensures s.accounts == db.banks
  {
    StatsOf(db.payables, db.receivables, db.transactions, db.banks, start, end)
  }

  // ---------------------------------------------------------------------------------------
  // Month bounds

  /** An entry of type `txType` dated in the calendar month that starts at `monthStart` and
      ends where the next month starts. */
  predicate InMonth(t: Transaction, txType: TxType, monthStart: Time, nextMonth: Time) {
    t.txType == txType && monthStart <= t.date < nextMonth
  }

  function InMonthTest(txType: TxType, monthStart: Time, nextMonth: Time): Transaction -> bool {
    t => InMonth(t, txType, monthStart, nextMonth)
  }

  /** The inclusive month end `getFinancialStats` computes, `new Date(y, m + 1, 0)`: midnight at
      the start of the month's last day. */
  function MonthEndAsWritten(nextMonth: Time): Time {
    nextMonth - DayMs
  }

  /** The inclusive month end that keeps the whole last day: its last millisecond. */
  function MonthEnd(nextMonth: Time): Time {
    nextMonth - 1
  }

  /** With the end as written, an entry dated on the month's last day after midnight lies in
      the month but adds nothing to the month's sum of its type. */
  lemma MonthEndAsWrittenMissesLastDay(monthStart: Time, nextMonth: Time, t: Transaction)
    requires monthStart <= nextMonth - DayMs < t.date < nextMonth
    ensures InMonth(t, t.txType, monthStart, nextMonth)
    ensures SumWhere([t], InMonthTest(t.txType, monthStart, nextMonth), TxAmount) == t.amount
    ensures SumWhere([t], PeriodTest(t.txType, monthStart, MonthEndAsWritten(nextMonth)), TxAmount) == 0.0
  {
    assert [t][..0] == [];
  }

  /** The month's statistics with the corrected end: the month sums are exactly the sums over
      the entries dated in the calendar month. */
  function MonthStats(db: Db, monthStart: Time, nextMonth: Time): (s: Stats)
    reads db
    ensures s.payablePending == PendingTotal(db.payables, None, None).total
    ensures s.receivablePending == PendingTotal(db.receivables, None, None).total
    ensures s.incomeMonth == SumWhere(db.transactions, InMonthTest(Income, monthStart, nextMonth), TxAmount)
    ensures s.expenseMonth == SumWhere(db.transactions, InMonthTest(Expense, monthStart, nextMonth), TxAmount)
    ensures s.accounts == db.banks
  {
    SumWhereSameTest(db.transactions, PeriodTest(Income, monthStart, MonthEnd(nextMonth)),
                     InMonthTest(Income, monthStart, nextMonth), TxAmount);
    SumWhereSameTest(db.transactions, PeriodTest(Expense, monthStart, MonthEnd(nextMonth)),
                     InMonthTest(Expense, monthStart, nextMonth), TxAmount);
    GetFinancialStats(db, monthStart, MonthEnd(nextMonth))
  }

  /** What a successful `payBill` does to the statistics: pending payables drop by the bill's
      amount when it was PENDING, this month's expense rises by the settled amount when now is
      in the month, income is unchanged, and the banks' total falls by the settled amount when
      a bank was named. */
  lemma {:induction false} PayBillMovesStats(payables: seq<Account>, receivables: seq<Account>,
                                             transactions: seq<Transaction>, banks: seq<BankAccount>,
                                             i: nat, t: Transaction, bank: Option<nat>,
                                             date: Time, pm: PaymentMethod, start: Time, end: Time)
    requires i < |payables| && t.txType == Expense
    requires bank.Some? ==> bank.value < |banks|
    ensures var before := StatsOf(payables, receivables, transactions, banks, start, end);
            var after := StatsOf(payables[i := MarkPaid(payables[i], date, pm)], receivables,
                                 transactions + [t], BanksAfter(banks, bank, -t.amount), start, end);
            && after.payablePending == before.payablePending - (if payables[i].status == Pending then payables[i].amount else 0.0)
            && after.receivablePending == before.receivablePending
            && after.expenseMonth == before.expenseMonth + (if start <= t.date <= end then t.amount else 0.0)
            && after.incomeMonth == before.incomeMonth
            && TotalBalance(after.accounts) == TotalBalance(banks) - (if bank.Some? then t.amount else 0.0)
  {
    var before := StatsOf(payables, receivables, transactions, banks, start, end);
    var after := StatsOf(payables[i := MarkPaid(payables[i], date, pm)], receivables,
                         transactions + [t], BanksAfter(banks, bank, -t.amount), start, end);
    assert after.payablePending == before.payablePending - (if payables[i].status == Pending then payables[i].amount else 0.0) by {
      SettledLeavesPending(payables, i, date, pm);
    }
    assert after.expenseMonth == before.expenseMonth + (if start <= t.date <= end then t.amount else 0.0)
           && after.incomeMonth == before.incomeMonth by {
      RecordedInPeriod(transactions, t, start, end);
    }
    assert TotalBalance(after.accounts) == TotalBalance(banks) - (if bank.Some? then t.amount else 0.0) by {
      BanksAfterTotal(banks, bank, -t.amount);
    }
  }

  /** What a successful `receivePayment` does to the statistics, mirroring `payBill`. */
  lemma {:induction false} ReceivePaymentMovesStats(payables: seq<Account>, receivables: seq<Account>,
                                                    transactions: seq<Transaction>, banks: seq<BankAccount>,
                                                    i: nat, t: Transaction, bank: Option<nat>,
                                                    date: Time, pm: PaymentMethod, start: Time, end: Time)
    requires i < |receivables| && t.txType == Income
    requires bank.Some? ==> bank.value < |banks|
    ensures var before := StatsOf(payables, receivables, transactions, banks, start, end);
            var after := StatsOf(payables, receivables[i := MarkPaid(receivables[i], date, pm)],
                                 transactions + [t], BanksAfter(banks, bank, t.amount), start, end);
            && after.receivablePending == before.receivablePending - (if receivables[i].status == Pending then receivables[i].amount else 0.0)
            && after.payablePending == before.payablePending
            && after.incomeMonth == before.incomeMonth + (if start <= t.date <= end then t.amount else 0.0)
            && after.expenseMonth == before.expenseMonth
            && TotalBalance(after.accounts) == TotalBalance(banks) + (if bank.Some? then t.amount else 0.0)
  {
    var before := StatsOf(payables, receivables, transactions, banks, start, end);
    var after := StatsOf(payables, receivables[i := MarkPaid(receivables[i], date, pm)],
                         transactions + [t], BanksAfter(banks, bank, t.amount), start, end);
    assert after.receivablePending == before.receivablePending - (if receivables[i].status == Pending then receivables[i].amount else 0.0) by {
      SettledLeavesPending(receivables, i, date, pm);
    }
    assert after.incomeMonth == before.incomeMonth + (if start <= t.date <= end then t.amount else 0.0)
           && after.expenseMonth == before.expenseMonth by {
      RecordedInPeriod(transactions, t, start, end);
    }
    assert TotalBalance(after.accounts) == TotalBalance(banks) + (if bank.Some? then t.amount else 0.0) by {
      BanksAfterTotal(banks, bank, t.amount);
    }
  }

  /** Settling a row takes its amount out of the pending sum when it was pending. */
  lemma SettledLeavesPending(rows: seq<Account>, i: nat, date: Time, pm: PaymentMethod)
    requires i < |rows|
    ensures SumWhere(rows[i := MarkPaid(rows[i], date, pm)], PendingInTest(None, None), Amount)
            == SumWhere(rows, PendingInTest(None, None), Amount) - (if rows[i].status == Pending then rows[i].amount else 0.0)
  {
    SumWhereUpdate(rows, i, MarkPaid(rows[i], date, pm), PendingInTest(None, None), Amount);
  }

  /** A new entry adds its amount to its own type's sum for a period it falls in, and leaves
      the other type's sum alone. */
  lemma RecordedInPeriod(transactions: seq<Transaction>, t: Transaction, start: Time, end: Time)
    requires t.txType == Income || t.txType == Expense
    ensures SumWhere(transactions + [t], PeriodTest(Income, start, end), TxAmount)
            == SumWhere(transactions, PeriodTest(Income, start, end), TxAmount)
               + (if t.txType == Income && start <= t.date <= end then t.amount else 0.0)
    ensures SumWhere(transactions + [t], PeriodTest(Expense, start, end), TxAmount)
            == SumWhere(transactions, PeriodTest(Expense, start, end), TxAmount)
               + (if t.txType == Expense && start <= t.date <= end then t.amount else 0.0)
  {
    SumWhereAppend(transactions, [t], PeriodTest(Expense, start, end), TxAmount);
    SumWhereAppend(transactions, [t], PeriodTest(Income, start, end), TxAmount);
    assert [t][..0] == [];
  }

  /** Moving the chosen bank's balance moves the total by the same delta. */
  lemma BanksAfterTotal(banks: seq<BankAccount>, bank: Option<nat>, delta: Money)
    requires bank.Some? ==> bank.value < |banks|
    ensures TotalBalance(BanksAfter(banks, bank, delta)) == TotalBalance(banks) + (if bank.Some? then delta else 0.0)
  {
    if bank.Some? {
      AdjustBalanceTotal(banks, bank.value, delta);
    }
  }
}
