/** The accounts-payable service: creation with installment generation, settlement,
    attachments, paged listing and the dashboard queries, over `Db.payables`. */
module AccountsPayable {
  import opened Common
  import opened Store
  import opened Ordering
  import opened Paging
  import opened Ledger

  /** `create`: stores the account and, when more than one installment is asked for, the
      installment rows built by the installment loop; nothing else changes. */
  method Create(db: Db, data: NewAccount, addMonths: (Time, int) -> Time) returns (account: Account)
    requires db.Valid()
    requires data.saleId.None?
    modifies db`payables, db`installments
    ensures db.Valid()
    ensures account == NewRow(|old(db.payables)| + 1, data)
    ensures db.payables == old(db.payables) + [account]
    ensures db.installments == old(db.installments) + InstallmentsFor(PayableRef(account.id), data, addMonths)
  {
    account := NewRow(|db.payables| + 1, data);
    db.payables := db.payables + [account];
    if Splits(data) {
      var rows := BuildInstallments(PayableRef(account.id), data.amount, data.dueDate,
                                    data.totalInstallments.value, addMonths);
      db.installments := db.installments + rows;
    }
  }

  /** `markAsPaid`: sets PAID, the paid date and the method whatever the current status;
      updating a missing id fails in the store. */
  method MarkAsPaid(db: Db, id: int, paidDate: Time, pm: PaymentMethod) returns (r: Result<Account>)
    requires db.Valid()
    modifies db`payables
    ensures db.Valid()
    ensures var i := IndexOf(old(db.payables), id, AccountId);
            && (i.None? ==> r == Err(RecordNotFound) && db.payables == old(db.payables))
            && (i.Some? ==> r == Ok(MarkPaid(old(db.payables)[i.value], paidDate, pm))
                            && db.payables == old(db.payables)[i.value := r.value])
  {
    var i := IndexOf(db.payables, id, AccountId);
    if i.None? {
      return Err(RecordNotFound);
    }
    var updated := MarkPaid(db.payables[i.value], paidDate, pm);
    db.payables := db.payables[i.value := updated];
    r := Ok(updated);
  }

  /** `addAttachment`: appends the URL to the account's attachment list. */
  method AddAttachment(db: Db, id: int, url: string) returns (r: Result<Account>)
    requires db.Valid()
    modifies db`payables
    ensures db.Valid()
    ensures var i := IndexOf(old(db.payables), id, AccountId);
            && (i.None? ==> r == Err(Thrown("Account not found")) && db.payables == old(db.payables))
            && (i.Some? ==> var before := old(db.payables)[i.value];
                            && r.Ok?
                            && r.value.attachments == before.attachments + [url]
                            && r.value == before.(attachments := r.value.attachments)
                            && db.payables == old(db.payables)[i.value := r.value])
  {
    var i := IndexOf(db.payables, id, AccountId);
    if i.None? {
      return Err(Thrown("Account not found"));
    }
    var account := db.payables[i.value];
    var updated := account.(attachments := account.attachments + [url]);
    db.payables := db.payables[i.value := updated];
    r := Ok(updated);
  }

  /** `list`: one page of the matching payables by ascending due date. */
  function List(db: Db, f: ListFilter, page: int, limit: int): (r: Result<Paged<Account>>)
    reads db
    ensures IsAccountPage(r, db.payables, f, page, limit)
  {
    ListAccounts(db.payables, f, page, limit)
  }

  /** `getOverdue`: pending payables due before today's midnight, by ascending due date. */
  function GetOverdue(db: Db, today: Time): (r: seq<Account>)
    reads db
    ensures SortedBy(r, DueKey)
    ensures forall a :: a in r <==> a in db.payables && a.status == Pending && a.dueDate < today
  {
    Overdue(db.payables, today)
  }

  /** `getDueSoon(days)`: pending payables due from today's midnight to `days` days later. */
  function GetDueSoon(db: Db, today: Time, days: int): (r: seq<Account>)
    reads db
    ensures SortedBy(r, DueKey)
    ensures forall a :: a in r <==> a in db.payables && a.status == Pending
                                    && today <= a.dueDate <= today + days * DayMs
  {
    DueSoon(db.payables, today, days)
  }

  /** `getTotalPayable`: sum and count of the pending payables due in the optional range. */
  function GetTotalPayable(db: Db, start: Option<Time>, end: Option<Time>): (r: PendingTotals)
    reads db
    ensures r.count == |Select(db.payables, PendingInTest(start, end))|
    ensures r.total == SumAmounts(Select(db.payables, PendingInTest(start, end)))
  {
    PendingTotal(db.payables, start, end)
  }
}
