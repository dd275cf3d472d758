/** The queries and row updates that the payable and the receivable services share word for
    word: due-date filters, pending totals, the filtered and paged listing, settlement of a
    row, and the installment schedule. */
module Ledger {
  import opened Common
  import opened Store
  import opened Ordering
  import opened Paging

  function DueKey(a: Account): real { a.dueDate as real }
  function Amount(a: Account): Money { a.amount }

  /** `dueDate: { gte: start, lte: end }` with each bound optional. */
  predicate InDueRange(a: Account, start: Option<Time>, end: Option<Time>) {
    && (start.None? || start.value <= a.dueDate)
    && (end.None? || a.dueDate <= end.value)
  }

  /** `getOverdue`: PENDING and due strictly before today's midnight. */
  predicate IsOverdue(a: Account, today: Time) {
    a.status == Pending && a.dueDate < today
  }

  /** `getDueSoon(days)`: PENDING and due between today's midnight and `days` days later. */
  predicate IsDueSoon(a: Account, today: Time, days: int) {
    a.status == Pending && today <= a.dueDate <= today + days * DayMs
  }

  predicate IsPendingIn(a: Account, start: Option<Time>, end: Option<Time>) {
    a.status == Pending && InDueRange(a, start, end)
  }

  function OverdueTest(today: Time): Account -> bool { a => IsOverdue(a, today) }
  function DueSoonTest(today: Time, days: int): Account -> bool { a => IsDueSoon(a, today, days) }
  function PendingInTest(start: Option<Time>, end: Option<Time>): Account -> bool {
    a => IsPendingIn(a, start, end)
  }

  /** The sum of the amounts of a list of accounts (`reduce((sum, acc) => sum + acc.amount, 0)`). */
  function SumAmounts(s: seq<Account>): Money {
    if |s| == 0 then 0.0 else SumAmounts(s[..|s| - 1]) + s[|s| - 1].amount
  }

  /** Accounts overdue at `today`, ordered by ascending due date. */
  function Overdue(rows: seq<Account>, today: Time): (r: seq<Account>)
    ensures SortedBy(r, DueKey)
    ensures forall a :: a in r <==> a in rows && IsOverdue(a, today)
    ensures multiset(r) == multiset(Select(rows, OverdueTest(today)))
  {
    SortByMembers(Select(rows, OverdueTest(today)), DueKey);
    SortBy(Select(rows, OverdueTest(today)), DueKey)
  }

  /** Accounts due within `days` days of `today`, ordered by ascending due date. */
  function DueSoon(rows: seq<Account>, today: Time, days: int): (r: seq<Account>)
    ensures SortedBy(r, DueKey)
    ensures forall a :: a in r <==> a in rows && IsDueSoon(a, today, days)
    ensures multiset(r) == multiset(Select(rows, DueSoonTest(today, days)))
  {
    SortByMembers(Select(rows, DueSoonTest(today, days)), DueKey);
    SortBy(Select(rows, DueSoonTest(today, days)), DueKey)
  }

  /** No account is both overdue and due soon; an account due exactly at today's midnight is
      due soon, not overdue; and every pending account due no later than the horizon is in
      exactly one of the two lists. */
  lemma OverdueDueSoonPartition(rows: seq<Account>, today: Time, days: int)
    requires days >= 0
    ensures forall a :: !(a in Overdue(rows, today) && a in DueSoon(rows, today, days))
    ensures forall a :: a in rows && a.status == Pending && a.dueDate == today ==>
                          a in DueSoon(rows, today, days) && a !in Overdue(rows, today)
    ensures forall a :: a in rows && a.status == Pending && a.dueDate <= today + days * DayMs ==>
                          (a in Overdue(rows, today) <==> a !in DueSoon(rows, today, days))
  {
  }

  datatype PendingTotals = PendingTotals(total: Money, count: nat)

  /** `getTotalPayable` / `getTotalReceivable`: the summed amount and the number of PENDING
      accounts due in the optional range. */
  function PendingTotal(rows: seq<Account>, start: Option<Time>, end: Option<Time>): (r: PendingTotals)
    ensures r.count == |Select(rows, PendingInTest(start, end))|
    ensures r.total == SumAmounts(Select(rows, PendingInTest(start, end)))
    ensures r.count == 0 ==> r.total == 0.0
  {
    SumAmountsSelect(rows, PendingInTest(start, end));
    PendingTotals(SumWhere(rows, PendingInTest(start, end), Amount),
                  CountWhere(rows, PendingInTest(start, end)))
  }

  /** Summing the selected list is summing the amounts of the matching rows. */
  lemma {:induction false} SumAmountsSelect(rows: seq<Account>, p: Account -> bool)
    ensures SumAmounts(Select(rows, p)) == SumWhere(rows, p, Amount)
    ensures CountWhere(rows, p) == 0 ==> SumWhere(rows, p, Amount) == 0.0
  {
    if |rows| > 0 {
      var init, last := rows[..|rows| - 1], rows[|rows| - 1];
      SumAmountsSelect(init, p);
      var tail := if p(last) then [last] else [];
      SumAmountsAppend(Select(init, p), tail);
      if p(last) {
        assert [last][..0] == [];
      }
    }
  }

  lemma {:induction false} SumAmountsAppend(s: seq<Account>, t: seq<Account>)
    ensures SumAmounts(s + t) == SumAmounts(s) + SumAmounts(t)
  {
    if |t| == 0 {
      assert s + t == s;
    } else {
      assert (s + t)[..|s + t| - 1] == s + t[..|t| - 1];
      SumAmountsAppend(s, t[..|t| - 1]);
    }
  }

  /** The sum of amounts does not depend on the order of the list. */
  /** The plain total is the filtered sum with a filter that keeps everything. */
  lemma {:induction false} SumAmountsIsSumWhere(s: seq<Account>)
    ensures SumAmounts(s) == SumWhere(s, _ => true, Amount)
  {
    if |s| > 0 {
      SumAmountsIsSumWhere(s[..|s| - 1]);
    }
  }

  lemma SumAmountsPermutation(s: seq<Account>, t: seq<Account>)
    requires multiset(s) == multiset(t)
    ensures SumAmounts(s) == SumAmounts(t)
  {
    SumAmountsIsSumWhere(s);
    SumAmountsIsSumWhere(t);
    SumWherePermutation(s, t, _ => true, Amount);
  }

  /** The overview's `reduce` over an overdue or due-soon list is the aggregate over the rows. */
  lemma ListTotals(rows: seq<Account>, today: Time, days: int)
    ensures SumAmounts(Overdue(rows, today)) == SumWhere(rows, OverdueTest(today), Amount)
    ensures |Overdue(rows, today)| == CountWhere(rows, OverdueTest(today))
    ensures SumAmounts(DueSoon(rows, today, days)) == SumWhere(rows, DueSoonTest(today, days), Amount)
    ensures |DueSoon(rows, today, days)| == CountWhere(rows, DueSoonTest(today, days))
  {
    SumAmountsPermutation(Overdue(rows, today), Select(rows, OverdueTest(today)));
    SumAmountsSelect(rows, OverdueTest(today));
    assert |Overdue(rows, today)| == |multiset(Select(rows, OverdueTest(today)))|;
    SumAmountsPermutation(DueSoon(rows, today, days), Select(rows, DueSoonTest(today, days)));
    SumAmountsSelect(rows, DueSoonTest(today, days));
    assert |DueSoon(rows, today, days)| == |multiset(Select(rows, DueSoonTest(today, days)))|;
  }

  /** The fields a settlement writes: status PAID, the paid or received date, the method;
      every other column keeps its value, and the row leaves the pending queries. */
  function MarkPaid(a: Account, date: Time, pm: PaymentMethod): (b: Account)
    ensures b.status == Paid && b.settledDate == Some(date) && b.paymentMethod == Some(pm)
    ensures b.(status := a.status, settledDate := a.settledDate, paymentMethod := a.paymentMethod) == a
    ensures forall start, end :: !IsPendingIn(b, start, end)
  {
    a.(status := Paid, settledDate := Some(date), paymentMethod := Some(pm))
  }

  /** Settling row `i` takes it out of every pending query: the pending total drops by its
      amount and the count by one exactly when it was pending in range, and it is in neither
      the overdue nor the due-soon list afterwards. */
  lemma MarkPaidLeavesPending(rows: seq<Account>, i: nat, date: Time, pm: PaymentMethod,
                              start: Option<Time>, end: Option<Time>, today: Time, days: int)
    requires i < |rows|
    ensures var after := rows[i := MarkPaid(rows[i], date, pm)];
            && PendingTotal(after, start, end).total
               == PendingTotal(rows, start, end).total - (if IsPendingIn(rows[i], start, end) then rows[i].amount else 0.0)
            && PendingTotal(after, start, end).count
               == PendingTotal(rows, start, end).count - (if IsPendingIn(rows[i], start, end) then 1 else 0)
            && MarkPaid(rows[i], date, pm) !in Overdue(after, today)
            && MarkPaid(rows[i], date, pm) !in DueSoon(after, today, days)
  {
    var p := PendingInTest(start, end);
    var x := MarkPaid(rows[i], date, pm);
    SumWhereUpdate(rows, i, x, p, Amount);
    CountWhereUpdate(rows, i, x, p);
    SumAmountsSelect(rows, p);
    SumAmountsSelect(rows[i := x], p);
  }

  /** Storing a new row raises the pending total by its amount and the count by one exactly
      when the row is pending and due in the range. */
  lemma AppendPendingTotal(rows: seq<Account>, a: Account, start: Option<Time>, end: Option<Time>)
    ensures PendingTotal(rows + [a], start, end).total
            == PendingTotal(rows, start, end).total + (if IsPendingIn(a, start, end) then a.amount else 0.0)
    ensures PendingTotal(rows + [a], start, end).count
            == PendingTotal(rows, start, end).count + (if IsPendingIn(a, start, end) then 1 else 0)
  {
    var p := PendingInTest(start, end);
    SumWhereAppend(rows, [a], p, Amount);
    CountWhereAppend(rows, [a], p);
    SumAmountsSelect(rows, p);
    SumAmountsSelect(rows + [a], p);
    assert [a][..0] == [];
  }

  /** `data.totalInstallments || 1`: the count stored on the account. */
  function StoredInstallments(given: Option<int>): (n: int)
    ensures n != 0
    ensures given.Some? && given.value != 0 ==> n == given.value
    ensures given.None? || given.value == 0 ==> n == 1
  {
    if given.Some? && given.value != 0 then given.value else 1
  }

  /** The installment rows for `n` monthly parts: number `k + 1` is due `k` months after the
      parent's due date and carries an equal share. */
  function Schedule(parent: AccountRef, amount: Money, dueDate: Time, n: nat,
                    addMonths: (Time, int) -> Time): (s: seq<Installment>)
    requires n >= 1
  {
    seq(n, k => Installment(parent, k + 1, amount / (n as real), addMonths(dueDate, k), Pending))
  }

  /** The installment loop of `create`: `for (let i = 1; i <= n; i++) installments.push(...)`. */
  method BuildInstallments(parent: AccountRef, amount: Money, dueDate: Time, n: int,
                           addMonths: (Time, int) -> Time) returns (rows: seq<Installment>)
    requires n > 1
    ensures rows == Schedule(parent, amount, dueDate, n, addMonths)
  {
    var share := amount / (n as real);
    rows := [];
    var i := 1;
    while i <= n
      invariant 1 <= i <= n + 1
      invariant |rows| == i - 1
      invariant forall k :: 0 <= k < i - 1 ==>
                  rows[k] == Installment(parent, k + 1, share, addMonths(dueDate, k), Pending)
    {
      rows := rows + [Installment(parent, i, share, addMonths(dueDate, i - 1), Pending)];
      i := i + 1;
    }
  }

  function SumInstallments(s: seq<Installment>): Money {
    if |s| == 0 then 0.0 else SumInstallments(s[..|s| - 1]) + s[|s| - 1].amount
  }

  /** Under exact arithmetic the installments add up to the parent amount. */
  lemma ScheduleSumsToAmount(parent: AccountRef, amount: Money, dueDate: Time, n: nat,
                             addMonths: (Time, int) -> Time)
    requires n >= 1
    ensures SumInstallments(Schedule(parent, amount, dueDate, n, addMonths)) == amount
  {
    var s := Schedule(parent, amount, dueDate, n, addMonths);
    var share := amount / (n as real);
    EqualSharesSum(s, share);
    assert (n as real) * share == amount;
  }

  lemma {:induction false} EqualSharesSum(s: seq<Installment>, share: Money)
    requires forall k :: 0 <= k < |s| ==> s[k].amount == share
    ensures SumInstallments(s) == (|s| as real) * share
  {
    if |s| > 0 {
      EqualSharesSum(s[..|s| - 1], share);
    }
  }

  /** The schedule has one row per part, numbered 1..n in order, all PENDING and linked to the
      parent; the first part falls due on the parent's own due date whenever shifting by zero
      months keeps a date. */
  lemma ScheduleShape(parent: AccountRef, amount: Money, dueDate: Time, n: nat,
                      addMonths: (Time, int) -> Time)
    requires n >= 1
    ensures var s := Schedule(parent, amount, dueDate, n, addMonths);
            && |s| == n
            && (forall k :: 0 <= k < n ==> s[k].number == k + 1 && s[k].parent == parent
                                           && s[k].status == Pending && s[k].dueDate == addMonths(dueDate, k))
            && (addMonths(dueDate, 0) == dueDate ==> s[0].dueDate == dueDate)
  {
  }

  /** The list filter shared by both `list` services: optional status, optional counterparty
      (ignored when 0), optional due-date bounds. */
  datatype ListFilter = ListFilter(
    status: Option<AccountStatus>, counterpartyId: Option<int>,
    startDate: Option<Time>, endDate: Option<Time>)

  predicate MatchesFilter(a: Account, f: ListFilter) {
    && (f.status.None? || a.status == f.status.value)
    && (TruthyId(f.counterpartyId).None? || a.counterpartyId == f.counterpartyId)
    && InDueRange(a, f.startDate, f.endDate)
  }

  function FilterTest(f: ListFilter): Account -> bool { a => MatchesFilter(a, f) }

  /** What a `list` call returns: page `page` of the matching rows in ascending due-date order
      (the rows after skipping `(page - 1) * limit` of them, at most `limit`), the number of
      matching rows, and `ceil(total / limit)` pages. Rows with equal due dates may come in
      any order. */
  ghost predicate IsAccountPage(r: Result<Paged<Account>>, rows: seq<Account>, f: ListFilter,
                                page: int, limit: int)
  {
    && (r.Ok? <==> page >= 1 && limit >= 1)
    && (r.Ok? ==>
          var total := CountWhere(rows, FilterTest(f));
          && r.value.total == total
          && r.value.page == page
          && r.value.totalPages == TotalPages(total, limit)
          && |r.value.items| == (if (page - 1) * limit >= total then 0
                                 else if (page - 1) * limit + limit <= total then limit
                                 else total - (page - 1) * limit)
          && SortedBy(r.value.items, DueKey)
          && (forall a :: a in r.value.items ==> a in rows && MatchesFilter(a, f))
          && exists ordered :: && SortedBy(ordered, DueKey)
                               && multiset(ordered) == multiset(Select(rows, FilterTest(f)))
                               && r.value.items == Window(ordered, page, limit))
  }

  /** The matching rows ordered by ascending due date, then one page of them. */
  function ListAccounts(rows: seq<Account>, f: ListFilter, page: int, limit: int): (r: Result<Paged<Account>>)
    ensures IsAccountPage(r, rows, f, page, limit)
  {
    ListAccountsIsPage(rows, f, page, limit);
    Paginate(SortBy(Select(rows, FilterTest(f)), DueKey), page, limit)
  }

  lemma ListAccountsIsPage(rows: seq<Account>, f: ListFilter, page: int, limit: int)
    ensures IsAccountPage(Paginate(SortBy(Select(rows, FilterTest(f)), DueKey), page, limit), rows, f, page, limit)
  {
    var selected := Select(rows, FilterTest(f));
    var ordered := SortBy(selected, DueKey);
    var r := Paginate(ordered, page, limit);
    if page >= 1 && limit >= 1 {
      var total := CountWhere(rows, FilterTest(f));
      assert |ordered| == total;
      var w := Window(ordered, page, limit);
      assert r.value.items == w && r.value.total == total;
      WindowSize(ordered, page, limit);
      SortByMembers(selected, DueKey);
      WindowOfSorted(ordered, page, limit, DueKey);
      forall a | a in w ensures a in rows && MatchesFilter(a, f) {
        assert a in ordered;
      }
      assert SortedBy(ordered, DueKey) && multiset(ordered) == multiset(selected) && r.value.items == Window(ordered, page, limit);
    }
  }

  /** The input of the ledger services' `create` (document and barcode numbers are not kept). */
  datatype NewAccount = NewAccount(
    description: string,
    counterpartyId: Option<int>,
    categoryId: Option<int>,
    saleId: Option<int>,
    amount: Money,
    dueDate: Time,
    paymentMethod: Option<PaymentMethod>,
    note: Option<string>,
    attachments: Option<seq<string>>,
    totalInstallments: Option<int>)

  /** The row `create` stores: the input as given, PENDING, the attachment list or none, and
      the installment count defaulted to 1. */
  function NewRow(id: int, data: NewAccount): (a: Account)
    ensures a.id == id && a.status == Pending && a.amount == data.amount && a.dueDate == data.dueDate
    ensures a.totalInstallments == StoredInstallments(data.totalInstallments)
  {
    Account(id, data.description, data.counterpartyId, data.categoryId, data.saleId, data.amount,
            data.dueDate, Pending, None, data.paymentMethod, StoredInstallments(data.totalInstallments),
            if data.attachments.Some? then data.attachments.value else [], data.note)
  }

  /** `data.totalInstallments && data.totalInstallments > 1`: when installment rows are made. */
  predicate Splits(data: NewAccount) {
    data.totalInstallments.Some? && data.totalInstallments.value > 1
  }

  /** The installment rows `create` adds for an account stored under `parent`. */
  function InstallmentsFor(parent: AccountRef, data: NewAccount, addMonths: (Time, int) -> Time): seq<Installment> {
    if Splits(data) then Schedule(parent, data.amount, data.dueDate, data.totalInstallments.value, addMonths)
    else []
  }
}
