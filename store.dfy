/** The records of the financial schema and the store that holds them. Every table is a
    sequence of rows; a Prisma `$transaction` block becomes one method that either fails
    before changing anything or performs all of its steps. */
module Store {
  import opened Common

  datatype AccountStatus = Pending | Paid | Cancelled

  /** A payable (money owed to a supplier) or a receivable (money owed by a customer).
      `counterpartyId` is the supplier or the customer, `settledDate` the paid or received
      date; payables never carry a `saleId`. */
  datatype Account = Account(
    id: int,
    description: string,
    counterpartyId: Option<int>,
    categoryId: Option<int>,
    saleId: Option<int>,
    amount: Money,
    dueDate: Time,
    status: AccountStatus,
    settledDate: Option<Time>,
    paymentMethod: Option<PaymentMethod>,
    totalInstallments: int,
    attachments: seq<string>,
    note: Option<string>)

  /** Which account a dependent row (installment, transaction, attachment, alert) belongs to. */
  datatype AccountRef = PayableRef(payableId: int) | ReceivableRef(receivableId: int)

  datatype Installment = Installment(
    parent: AccountRef, number: int, amount: Money, dueDate: Time, status: AccountStatus)

  datatype TxType = Income | Expense

  /** A cash-flow entry; immutable once written. */
  datatype Transaction = Transaction(
    id: int,
    txType: TxType,
    amount: Money,
    date: Time,
    categoryId: Option<int>,
    bankAccountId: Option<int>,
    paymentMethod: PaymentMethod,
    account: Option<AccountRef>,
    userId: int,
    cashReportId: Option<int>)

  datatype BankAccount = BankAccount(id: int, name: string, currentBalance: Money)

  datatype AuditOp = Create | Update
  datatype AuditTable = PayableTable | ReceivableTable

  /** One audit-log row with the account before (for an update) and after the change. */
  datatype AuditEntry = AuditEntry(
    userId: int, table: AuditTable, operation: AuditOp,
    oldValues: Option<Account>, newValues: Account)

  /** An uploaded file recorded against an account (only its stored name is kept). */
  datatype Attachment = Attachment(id: int, fileName: string, account: AccountRef, uploadedBy: int)

  /** The eight per-payment-method buckets of a daily cash report. */
  datatype CashTotals = CashTotals(
    cashIncome: Money, cardIncome: Money, pixIncome: Money, otherIncome: Money,
    cashExpense: Money, cardExpense: Money, pixExpense: Money, otherExpense: Money)

  const NoTotals := CashTotals(0.0, 0.0, 0.0, 0.0, 0.0, 0.0, 0.0, 0.0)

  datatype CashStatus = Open | Closed

  /** The reconciliation record of one calendar date (the date is a unique key). */
  datatype CashReport = CashReport(
    id: int,
    date: Time,
    status: CashStatus,
    openingBalance: Money,
    totals: CashTotals,
    totalIncome: Money,
    totalExpense: Money,
    expectedBalance: Money,
    closingBalance: Money,
    difference: Option<Money>,
    closedBy: Option<string>,
    closedAt: Option<Time>,
    notes: Option<string>)

  datatype AlertType = DueToday | DueTomorrow | DueIn3Days | DueIn7Days | OverdueAlert
  datatype Priority = Low | Medium | High | Urgent

  datatype Alert = Alert(
    id: int,
    account: AccountRef,
    alertDate: Time,
    dueDate: Time,
    amount: Money,
    alertType: AlertType,
    priority: Priority,
    read: bool,
    readAt: Option<Time>,
    dismissed: bool)

  /** The part of a sale the receivable ledger reads. */
  datatype Sale = Sale(id: int, customerId: Option<int>, customerName: string, grandTotal: Money)

  datatype Category = Category(id: int, name: string, categoryType: TxType)

  function AccountId(a: Account): int { a.id }
  function TransactionId(t: Transaction): int { t.id }
  function TxAmount(t: Transaction): Money { t.amount }
  function BankId(b: BankAccount): int { b.id }
  function AttachmentId(a: Attachment): int { a.id }
  function ReportId(r: CashReport): int { r.id }
  function ReportDate(r: CashReport): int { r.date }
  function AlertId(a: Alert): int { a.id }
  function SaleId(s: Sale): int { s.id }

  /** The financial tables of the database. */
  class Db {
    var payables: seq<Account>
    var receivables: seq<Account>
    var installments: seq<Installment>
    var attachmentRows: seq<Attachment>
    var transactions: seq<Transaction>
    var banks: seq<BankAccount>
    var audit: seq<AuditEntry>
    var cashReports: seq<CashReport>
    var alerts: seq<Alert>
    var sales: seq<Sale>
    var categories: seq<Category>

    /** Autoincrement ids on the tables the core appends to; primary keys elsewhere; one
        cash report per date. */
    ghost predicate Valid()
      reads this
    {
      && IdsAreRowNumbers(payables, AccountId)
      && IdsAreRowNumbers(receivables, AccountId)
      && IdsAreRowNumbers(transactions, TransactionId)
      && IdsAreRowNumbers(attachmentRows, AttachmentId)
      && IdsAreRowNumbers(cashReports, ReportId)
      && IdsAreRowNumbers(alerts, AlertId)
      && DistinctIds(cashReports, ReportDate)
      && DistinctIds(banks, BankId)
      && DistinctIds(sales, SaleId)
    }

    constructor ()
      ensures Valid()
      ensures payables == [] && receivables == [] && installments == [] && attachmentRows == []
      ensures transactions == [] && banks == [] && audit == [] && cashReports == []
      ensures alerts == [] && sales == [] && categories == []
    {
      payables, receivables, installments, attachmentRows := [], [], [], [];
      transactions, banks, audit, cashReports := [], [], [], [];
      alerts, sales, categories := [], [], [];
    }
  }

  /** Stores one ledger entry under the next transaction id. */
  method AppendEntry(db: Db, entry: Transaction)
    requires db.Valid() && entry.id == |db.transactions| + 1
    modifies db`transactions
    ensures db.Valid()
    ensures db.transactions == old(db.transactions) + [entry]
  {
    db.transactions := db.transactions + [entry];
  }
}
