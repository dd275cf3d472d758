/** The accounts-receivable service: creation with installment generation, creation from a
    sale sold on credit, settlement, paged listing and the dashboard queries, over
    `Db.receivables`. */
module AccountsReceivable {
  import opened Common
  import opened Store
  import opened Ordering
  import opened Paging
  import opened Ledger

  /** `create`: stores the account and, when more than one installment is asked for, the
      installment rows built by the installment loop; nothing else changes. */
  method Create(db: Db, data: NewAccount, addMonths: (Time, int) -> Time) returns (account: Account)
    requires db.Valid()
    modifies db`receivables, db`installments
    ensures db.Valid()
    ensures account == NewRow(|old(db.receivables)| + 1, data)
    ensures db.receivables == old(db.receivables) + [account]
    ensures db.installments == old(db.installments) + InstallmentsFor(ReceivableRef(account.id), data, addMonths)
  {
    account := NewRow(|db.receivables| + 1, data);
    db.receivables := db.receivables + [account];
    if Splits(data) {
      var rows := BuildInstallments(ReceivableRef(account.id), data.amount, data.dueDate,
                                    data.totalInstallments.value, addMonths);
      db.installments := db.installments + rows;
    }
  }

  /** The receivable `createFromSale` asks for: the sale's grand total owed by the sale's
      customer, due now, split into the given number of installments. */
  function SaleAccount(sale: Sale, totalInstallments: int, now: Time): (data: NewAccount)
    ensures data.amount == sale.grandTotal && data.dueDate == now
    ensures data.counterpartyId == sale.customerId && data.saleId == Some(sale.id)
    ensures data.totalInstallments == Some(totalInstallments)
  {
    NewAccount("Venda #" + IntToString(sale.id) + " - " + sale.customerName,
               sale.customerId, None, Some(sale.id), sale.grandTotal, now, None, None, None,
               Some(totalInstallments))
  }

  /** `createFromSale`: fails with "Sale not found" for an unknown sale; otherwise creates the
      receivable for the sale. */
  method CreateFromSale(db: Db, saleId: int, totalInstallments: int, now: Time,
                        addMonths: (Time, int) -> Time) returns (r: Result<Account>)
    requires db.Valid()
    modifies db`receivables, db`installments
    ensures db.Valid()
    ensures var i := IndexOf(old(db.sales), saleId, SaleId);
            && (i.None? ==> r == Err(Thrown("Sale not found"))
                            && db.receivables == old(db.receivables)
                            && db.installments == old(db.installments))
            && (i.Some? ==>
                  var data := SaleAccount(old(db.sales)[i.value], totalInstallments, now);
                  && r == Ok(NewRow(|old(db.receivables)| + 1, data))
                  && db.receivables == old(db.receivables) + [r.value]
                  && db.installments == old(db.installments)
                                        + InstallmentsFor(ReceivableRef(r.value.id), data, addMonths))
  {
    var i := IndexOf(db.sales, saleId, SaleId);
    if i.None? {
      return Err(Thrown("Sale not found"));
    }
    var account := Create(db, SaleAccount(db.sales[i.value], totalInstallments, now), addMonths);
    r := Ok(account);
  }

  /** A receivable made from a sale is pending, owes the sale's grand total, and counts
      towards every pending total whose range contains `now`. */
  lemma SaleAccountIsPending(rows: seq<Account>, sale: Sale, totalInstallments: int, now: Time,
                             start: Option<Time>, end: Option<Time>)
    ensures var a := NewRow(|rows| + 1, SaleAccount(sale, totalInstallments, now));
            && a.status == Pending && a.amount == sale.grandTotal && a.saleId == Some(sale.id)
            && (InDueRange(a, start, end) ==>
                  PendingTotal(rows + [a], start, end).total == PendingTotal(rows, start, end).total + sale.grandTotal
                  && PendingTotal(rows + [a], start, end).count == PendingTotal(rows, start, end).count + 1)
  {
    var a := NewRow(|rows| + 1, SaleAccount(sale, totalInstallments, now));
    AppendPendingTotal(rows, a, start, end);
  }

  /** `markAsPaid`: sets PAID, the received date and the method whatever the current status;
      updating a missing id fails in the store. */
  method MarkAsPaid(db: Db, id: int, receivedDate: Time, pm: PaymentMethod) returns (r: Result<Account>)
    requires db.Valid()
    modifies db`receivables
    ensures db.Valid()
    ensures var i := IndexOf(old(db.receivables), id, AccountId);
            && (i.None? ==> r == Err(RecordNotFound) && db.receivables == old(db.receivables))
            && (i.Some? ==> r == Ok(MarkPaid(old(db.receivables)[i.value], receivedDate, pm))
                            && db.receivables == old(db.receivables)[i.value := r.value])
  {
    var i := IndexOf(db.receivables, id, AccountId);
    if i.None? {
      return Err(RecordNotFound);
    }
    var updated := MarkPaid(db.receivables[i.value], receivedDate, pm);
    db.receivables := db.receivables[i.value := updated];
    r := Ok(updated);
  }

  /** `list`: one page of the matching receivables by ascending due date. */
  function List(db: Db, f: ListFilter, page: int, limit: int): (r: Result<Paged<Account>>)
    reads db
    ensures IsAccountPage(r, db.receivables, f, page, limit)
  {
    ListAccounts(db.receivables, f, page, limit)
  }

  /** `getOverdue`: pending receivables due before today's midnight, by ascending due date. */
  function GetOverdue(db: Db, today: Time): (r: seq<Account>)
    reads db
    ensures SortedBy(r, DueKey)
    ensures forall a :: a in r <==> a in db.receivables && a.status == Pending && a.dueDate < today
  {
    Overdue(db.receivables, today)
  }

  /** `getDueSoon(days)`: pending receivables due from today's midnight to `days` days later. */
  function GetDueSoon(db: Db, today: Time, days: int): (r: seq<Account>)
    reads db
    ensures SortedBy(r, DueKey)
    ensures forall a :: a in r <==> a in db.receivables && a.status == Pending
                                    && today <= a.dueDate <= today + days * DayMs
  {
    DueSoon(db.receivables, today, days)
  }

  /** `getTotalReceivable`: sum and count of the pending receivables due in the optional range. */
  function GetTotalReceivable(db: Db, start: Option<Time>, end: Option<Time>): (r: PendingTotals)
    reads db
    ensures r.count == |Select(db.receivables, PendingInTest(start, end))|
    ensures r.total == SumAmounts(Select(db.receivables, PendingInTest(start, end)))
  {
    PendingTotal(db.receivables, start, end)
  }
}
