/** The financial dashboard: the overview that combines the ledgers, the cash summary and the
    alert counts; the projected cash flow by day; the per-category analysis; and the ranking
    of suppliers and customers by amount. */
module Dashboard {
  import opened Common
  import opened Store
  import opened Ordering
  import opened Ledger
  import AccountsPayable
  import AccountsReceivable
  import DailyCash
  import PaymentAlert

  // ---------------------------------------------------------------------------------------
  // Overview

  datatype Aggregate = Aggregate(total: Money, count: nat)

  datatype LedgerOverview = LedgerOverview(total: Money, count: nat, overdue: Aggregate, dueSoon: Aggregate)

  datatype InOut = InOut(income: Money, expense: Money)

  datatype CashFlowView = CashFlowView(totalIncome: Money, totalExpense: Money, netFlow: Money,
                                       cash: InOut, card: InOut, pix: InOut)

  datatype Overview = Overview(
    payable: LedgerOverview,
    receivable: LedgerOverview,
    cashFlow: CashFlowView,
    projectedBalance: Money,
    unreadAlerts: nat,
    alertsByPriority: map<Priority, nat>,
    periodStart: Time,
    periodEnd: Time)

  /** The overview's due-soon horizon, in days. */
  const DueSoonDays: int := 7

  /** What the overview should report for one ledger, stated as aggregates over its rows: the
      pending rows due in the period, the overdue rows and the rows due within a week. */
  function LedgerFigures(rows: seq<Account>, today: Time, start: Time, end: Time): LedgerOverview {
    LedgerOverview(
      SumWhere(rows, PendingInTest(Some(start), Some(end)), Amount),
      CountWhere(rows, PendingInTest(Some(start), Some(end))),
      Aggregate(SumWhere(rows, OverdueTest(today), Amount), CountWhere(rows, OverdueTest(today))),
      Aggregate(SumWhere(rows, DueSoonTest(today, DueSoonDays), Amount), CountWhere(rows, DueSoonTest(today, DueSoonDays))))
  }

  /** One ledger's block of the overview, from its pending total and its two lists. */
  function LedgerBlock(total: PendingTotals, overdue: seq<Account>, dueSoon: seq<Account>): LedgerOverview {
    LedgerOverview(total.total, total.count,
                   Aggregate(SumAmounts(overdue), |overdue|), Aggregate(SumAmounts(dueSoon), |dueSoon|))
  }

  /** The reduce over the sorted lists gives the same figures as the aggregates over the rows. */
  lemma LedgerBlockFigures(rows: seq<Account>, today: Time, start: Time, end: Time)
    ensures LedgerBlock(PendingTotal(rows, Some(start), Some(end)), Overdue(rows, today), DueSoon(rows, today, DueSoonDays))
            == LedgerFigures(rows, today, start, end)
  {
    ListTotals(rows, today, DueSoonDays);
    SumAmountsSelect(rows, PendingInTest(Some(start), Some(end)));
  }

  /** The payables block: `getTotalPayable`, `getOverdue` and `getDueSoon(7)`, reduced. */
  method PayableBlock(db: Db, today: Time, start: Time, end: Time) returns (b: LedgerOverview)
    ensures b == LedgerFigures(db.payables, today, start, end)
  {
    var total := AccountsPayable.GetTotalPayable(db, Some(start), Some(end));
    var overdue := AccountsPayable.GetOverdue(db, today);
    var dueSoon := AccountsPayable.GetDueSoon(db, today, DueSoonDays);
    LedgerBlockFigures(db.payables, today, start, end);
    b := LedgerBlock(total, overdue, dueSoon);
  }

  /** The receivables block: `getTotalReceivable`, `getOverdue` and `getDueSoon(7)`, reduced. */
  method ReceivableBlock(db: Db, today: Time, start: Time, end: Time) returns (b: LedgerOverview)
    ensures b == LedgerFigures(db.receivables, today, start, end)
  {
    var total := AccountsReceivable.GetTotalReceivable(db, Some(start), Some(end));
    var overdue := AccountsReceivable.GetOverdue(db, today);
    var dueSoon := AccountsReceivable.GetDueSoon(db, today, DueSoonDays);
    LedgerBlockFigures(db.receivables, today, start, end);
    b := LedgerBlock(total, overdue, dueSoon);
  }

  /** `getDashboardOverview`: the period defaults to the month's first and last day; the
      projected balance is what is receivable minus what is payable in that period. */
  method GetDashboardOverview(db: Db, startDate: Option<Time>, endDate: Option<Time>,
                              today: Time, startOfMonth: Time, endOfMonth: Time) returns (o: Overview)
    ensures o.periodStart == (if startDate.Some? then startDate.value else startOfMonth)
    ensures o.periodEnd == (if endDate.Some? then endDate.value else endOfMonth)
    ensures o.payable == LedgerFigures(db.payables, today, o.periodStart, o.periodEnd)
    ensures o.receivable == LedgerFigures(db.receivables, today, o.periodStart, o.periodEnd)
    ensures o.projectedBalance
            == SumWhere(db.receivables, PendingInTest(Some(o.periodStart), Some(o.periodEnd)), Amount)
               - SumWhere(db.payables, PendingInTest(Some(o.periodStart), Some(o.periodEnd)), Amount)
    ensures var rs := Select(db.cashReports, DailyCash.InDaysTest(o.periodStart, o.periodEnd));
            var s := DailyCash.Accumulated(rs, |rs|);
            o.cashFlow == CashFlowView(s.totalIncome, s.totalExpense, s.totalIncome - s.totalExpense,
                                       InOut(s.cashIncome, s.cashExpense), InOut(s.cardIncome, s.cardExpense),
                                       InOut(s.pixIncome, s.pixExpense))
    ensures o.unreadAlerts == PaymentAlert.UnreadCount(db.alerts)
    ensures o.alertsByPriority == PaymentAlert.AlertsByPriority(db.alerts)
  {
    var start := if startDate.Some? then startDate.value else startOfMonth;
    var end := if endDate.Some? then endDate.value else endOfMonth;

    var payable := PayableBlock(db, today, start, end);
    var receivable := ReceivableBlock(db, today, start, end);
    var cashFlow := DailyCash.GetSummary(db, start, end);
    var unread := PaymentAlert.UnreadCount(db.alerts);
    var byPriority := PaymentAlert.AlertsByPriority(db.alerts);
    o := Overview(
      payable, receivable,
      CashFlowView(cashFlow.totalIncome, cashFlow.totalExpense, cashFlow.netFlow,
                   InOut(cashFlow.cashIncome, cashFlow.cashExpense), InOut(cashFlow.cardIncome, cashFlow.cardExpense),
                   InOut(cashFlow.pixIncome, cashFlow.pixExpense)),
      receivable.total - payable.total,
      unread, byPriority, start, end);
  }

  // ---------------------------------------------------------------------------------------
  // Projected cash flow

  datatype DayProjection = DayProjection(date: int, income: Money, expense: Money, balance: Money, netFlow: Money)

  function DateOf(d: DayProjection): int { d.date }

  /** Pending, due in the projection window `[today, today + days]`, on the given day. */
  predicate OnDay(a: Account, today: Time, days: int, day: int) {
    IsDueSoon(a, today, days) && DayKey(a.dueDate) == day
  }

  function OnDayTest(today: Time, days: int, day: int): Account -> bool { a => OnDay(a, today, days, day) }

  /** What the projection should book on one day for one ledger. */
  function DayTotal(rows: seq<Account>, today: Time, days: int, day: int): Money {
    SumWhere(rows, OnDayTest(today, days, day), Amount)
  }

  /** The day totals of the first `n` days of the window. */
  function RangeTotal(rows: seq<Account>, today: Time, days: int, n: nat): Money {
    if n == 0 then 0.0 else RangeTotal(rows, today, days, n - 1) + DayTotal(rows, today, days, DayKey(today) + n - 1)
  }

  /** Moving an instant by whole days moves its day by as many days. */
  lemma DayKeyShift(t: Time, d: int)
    ensures DayKey(t + d * DayMs) == DayKey(t) + d
  {
    var a, b := DayKey(t), DayKey(t + d * DayMs);
    assert a * DayMs <= t < (a + 1) * DayMs;
    assert b * DayMs <= t + d * DayMs < (b + 1) * DayMs;
    assert (b - d) * DayMs == b * DayMs - d * DayMs;
    assert (a + 1) * DayMs == a * DayMs + DayMs;
    assert (b - d + 1) * DayMs == (b - d) * DayMs + DayMs;
  }

  lemma DayKeyMonotone(s: Time, t: Time)
    requires s <= t
    ensures DayKey(s) <= DayKey(t)
  {
    var a, b := DayKey(s), DayKey(t);
    assert a * DayMs <= s && t < (b + 1) * DayMs;
    assert (a - b - 1) * DayMs < 0;
  }

  /** A due date in the window falls on one of its `days + 1` days. */
  lemma WindowDay(a: Account, today: Time, days: int)
    requires IsDueSoon(a, today, days)
    ensures 0 <= DayKey(a.dueDate) - DayKey(today) <= days
  {
    DayKeyMonotone(today, a.dueDate);
    DayKeyMonotone(a.dueDate, today + days * DayMs);
    DayKeyShift(today, days);
  }

  /** One more row adds its amount to the day range exactly when it falls on one of its days. */
  lemma {:induction false} RangeTotalSnoc(rows: seq<Account>, x: Account, today: Time, days: int, n: nat)
    ensures RangeTotal(rows + [x], today, days, n)
            == RangeTotal(rows, today, days, n)
               + (if IsDueSoon(x, today, days) && DayKey(today) <= DayKey(x.dueDate) < DayKey(today) + n
                  then x.amount else 0.0)
  {
    if n > 0 {
      RangeTotalSnoc(rows, x, today, days, n - 1);
      assert (rows + [x])[..|rows|] == rows;
    }
  }

  lemma {:induction false} RangeTotalOfNone(rows: seq<Account>, today: Time, days: int, n: nat)
    requires |rows| == 0
    ensures RangeTotal(rows, today, days, n) == 0.0
  {
    if n > 0 {
      RangeTotalOfNone(rows, today, days, n - 1);
    }
  }

  /** The days of the window together book every pending row due in it, once. */
  lemma {:induction false} DaysCoverWindow(rows: seq<Account>, today: Time, days: int)
    requires days >= 0
    ensures RangeTotal(rows, today, days, days + 1) == SumWhere(rows, DueSoonTest(today, days), Amount)
  {
    if |rows| == 0 {
      RangeTotalOfNone(rows, today, days, days + 1);
    } else {
      var init, x := rows[..|rows| - 1], rows[|rows| - 1];
      DaysCoverWindow(init, today, days);
      assert init + [x] == rows;
      RangeTotalSnoc(init, x, today, days, days + 1);
      assert SumWhere(rows, DueSoonTest(today, days), Amount)
             == SumWhere(init, DueSoonTest(today, days), Amount) + (if IsDueSoon(x, today, days) then x.amount else 0.0);
      if IsDueSoon(x, today, days) {
        WindowDay(x, today, days);
      }
    }
  }

  /** Summing over the selected rows is summing over the rows when the test implies the selection. */
  lemma {:induction false} SumWhereSelect(rows: seq<Account>, p: Account -> bool, q: Account -> bool)
    requires forall a :: q(a) ==> p(a)
    ensures SumWhere(Select(rows, p), q, Amount) == SumWhere(rows, q, Amount)
  {
    if |rows| > 0 {
      var init, x := rows[..|rows| - 1], rows[|rows| - 1];
      SumWhereSelect(init, p, q);
      if p(x) {
        SumWhereAppend(Select(init, p), [x], q, Amount);
        assert [x][..0] == [];
      } else {
        assert Select(rows, p) == Select(init, p);
        assert !q(x);
      }
    }
  }

  /** The selected rows book on each day what all the rows book there. */
  lemma SelectDayTotals(rows: seq<Account>, today: Time, days: int)
    ensures forall day :: SumWhere(Select(rows, DueSoonTest(today, days)), OnDayTest(today, days, day), Amount)
                          == DayTotal(rows, today, days, day)
  {
    forall day ensures SumWhere(Select(rows, DueSoonTest(today, days)), OnDayTest(today, days, day), Amount)
                       == DayTotal(rows, today, days, day) {
      SumWhereSelect(rows, DueSoonTest(today, days), OnDayTest(today, days, day));
    }
  }

  /** Consecutive days from `first`, in order (the insertion order of the `projection` keys). */
  predicate Dated(projection: seq<DayProjection>, first: int) {
    forall b :: 0 <= b < |projection| ==> projection[b].date == first + b
  }

  /** Adds one row's amount to the income or the expense of the bucket of its due day, if
      there is one (`if (projection[dateKey]) projection[dateKey].income += amount`). */
  function Book(projection: seq<DayProjection>, a: Account, income: bool): (r: seq<DayProjection>)
    requires exists first :: Dated(projection, first)
    ensures |r| == |projection|
    ensures forall b :: 0 <= b < |r| ==>
              && r[b].date == projection[b].date
              && r[b].balance == projection[b].balance && r[b].netFlow == projection[b].netFlow
              && r[b].income == projection[b].income + (if income && projection[b].date == DayKey(a.dueDate) then a.amount else 0.0)
              && r[b].expense == projection[b].expense + (if !income && projection[b].date == DayKey(a.dueDate) then a.amount else 0.0)
  {
    var first :| Dated(projection, first);
    match IndexOf(projection, DayKey(a.dueDate), DateOf)
    case None => projection
    case Some(k) =>
      if income then projection[k := projection[k].(income := projection[k].income + a.amount)]
      else projection[k := projection[k].(expense := projection[k].expense + a.amount)]
  }

  /** The buckets of `days + 1` consecutive days from today, all zero. */
  method EmptyDays(today: Time, days: int) returns (projection: seq<DayProjection>)
    ensures |projection| == if days >= 0 then days + 1 else 0
    ensures Dated(projection, DayKey(today))
    ensures forall b :: 0 <= b < |projection| ==>
              && projection[b].date == DayKey(today + b * DayMs)
              && projection[b] == DayProjection(projection[b].date, 0.0, 0.0, 0.0, 0.0)
  {
    projection := [];
    var i := 0;
    while i <= days
      invariant 0 <= i <= if days >= 0 then days + 1 else 0
      invariant |projection| == i
      invariant Dated(projection, DayKey(today))
      invariant forall b :: 0 <= b < i ==>
                  && projection[b].date == DayKey(today + b * DayMs)
                  && projection[b] == DayProjection(projection[b].date, 0.0, 0.0, 0.0, 0.0)
    {
      DayKeyShift(today, i);
      projection := projection + [DayProjection(DayKey(today + i * DayMs), 0.0, 0.0, 0.0, 0.0)];
      i := i + 1;
    }
  }

  /** One booking loop: every row of the window added to its day, as income or as expense. */
  method BookAll(projection: seq<DayProjection>, rows: seq<Account>, income: bool, today: Time, days: int)
    returns (r: seq<DayProjection>)
    requires Dated(projection, DayKey(today))
    requires forall a :: a in rows ==> IsDueSoon(a, today, days)
    ensures |r| == |projection| && Dated(r, DayKey(today))
    ensures forall b :: 0 <= b < |r| ==>
              && r[b].date == projection[b].date
              && r[b].balance == projection[b].balance && r[b].netFlow == projection[b].netFlow
              && r[b].income == projection[b].income + (if income then SumWhere(rows, OnDayTest(today, days, r[b].date), Amount) else 0.0)
              && r[b].expense == projection[b].expense + (if income then 0.0 else SumWhere(rows, OnDayTest(today, days, r[b].date), Amount))
  {
    r := projection;
    for j := 0 to |rows|
      invariant |r| == |projection| && Dated(r, DayKey(today))
      invariant forall b :: 0 <= b < |r| ==>
                  && r[b].date == projection[b].date
                  && r[b].balance == projection[b].balance && r[b].netFlow == projection[b].netFlow
                  && r[b].income == projection[b].income + (if income then SumWhere(rows[..j], OnDayTest(today, days, r[b].date), Amount) else 0.0)
                  && r[b].expense == projection[b].expense + (if income then 0.0 else SumWhere(rows[..j], OnDayTest(today, days, r[b].date), Amount))
    {
      var a := rows[j];
      assert rows[..j + 1][..j] == rows[..j];
      assert a in rows;
      r := Book(r, a, income);
    }
    assert rows[..|rows|] == rows;
  }

  /** The running-balance loop: each day's net flow and the balance accumulated so far. */
  method RunningBalance(projection: seq<DayProjection>) returns (r: seq<DayProjection>)
    ensures |r| == |projection|
    ensures forall b :: 0 <= b < |r| ==>
              && r[b] == projection[b].(netFlow := r[b].netFlow, balance := r[b].balance)
              && r[b].netFlow == projection[b].income - projection[b].expense
              && r[b].balance == NetUpTo(projection, b + 1)
  {
    r := projection;
    var cumulativeBalance := 0.0;
    for b := 0 to |projection|
      invariant |r| == |projection|
      invariant forall c :: b <= c < |r| ==> r[c] == projection[c]
      invariant forall c :: 0 <= c < b ==>
                  && r[c] == projection[c].(netFlow := r[c].netFlow, balance := r[c].balance)
                  && r[c].netFlow == projection[c].income - projection[c].expense
                  && r[c].balance == NetUpTo(projection, c + 1)
      invariant cumulativeBalance == NetUpTo(projection, b)
    {
      var dayBalance := r[b].income - r[b].expense;
      cumulativeBalance := cumulativeBalance + dayBalance;
      r := r[b := r[b].(balance := cumulativeBalance, netFlow := dayBalance)];
    }
  }

  /** The net flow of the first `n` buckets. */
  function NetUpTo(projection: seq<DayProjection>, n: nat): Money
    requires n <= |projection|
  {
    if n == 0 then 0.0 else NetUpTo(projection, n - 1) + projection[n - 1].income - projection[n - 1].expense
  }

  /** With each bucket holding its day's totals, the running balance is the range total. */
  lemma {:induction false} NetUpToRange(projection: seq<DayProjection>, db: Db, today: Time, days: int, n: nat)
    requires n <= |projection| && Dated(projection, DayKey(today))
    requires forall b :: 0 <= b < |projection| ==>
               && projection[b].income == DayTotal(db.receivables, today, days, projection[b].date)
               && projection[b].expense == DayTotal(db.payables, today, days, projection[b].date)
    ensures NetUpTo(projection, n) == RangeTotal(db.receivables, today, days, n) - RangeTotal(db.payables, today, days, n)
  {
    if n > 0 {
      NetUpToRange(projection, db, today, days, n - 1);
    }
  }

  /** `getProjectedCashFlow(days)`: one bucket per day from today to `days` days later, the
      pending receivables and payables due in the window booked on their due day, each
      day's net flow, and the running balance. */
  method GetProjectedCashFlow(db: Db, today: Time, days: int) returns (projection: seq<DayProjection>)
    ensures |projection| == if days >= 0 then days + 1 else 0
    ensures forall i :: 0 <= i < |projection| ==>
              && projection[i].date == DayKey(today + i * DayMs)
              && projection[i].income == DayTotal(db.receivables, today, days, projection[i].date)
              && projection[i].expense == DayTotal(db.payables, today, days, projection[i].date)
              && projection[i].netFlow == projection[i].income - projection[i].expense
              && projection[i].balance == RangeTotal(db.receivables, today, days, i + 1)
                                          - RangeTotal(db.payables, today, days, i + 1)
    ensures days >= 0 ==>
              projection[days].balance == SumWhere(db.receivables, DueSoonTest(today, days), Amount)
                                          - SumWhere(db.payables, DueSoonTest(today, days), Amount)
  {
    var empty := EmptyDays(today, days);
    var receivables := Select(db.receivables, DueSoonTest(today, days));
    var payables := Select(db.payables, DueSoonTest(today, days));
    SelectDayTotals(db.receivables, today, days);
    SelectDayTotals(db.payables, today, days);
    var withIncome := BookAll(empty, receivables, true, today, days);
    var booked := BookAll(withIncome, payables, false, today, days);
    NetUpToPrefix(booked, db, today, days);
    projection := RunningBalance(booked);
    if days >= 0 {
      DaysCoverWindow(db.receivables, today, days);
      DaysCoverWindow(db.payables, today, days);
    }
  }

  lemma NetUpToPrefix(booked: seq<DayProjection>, db: Db, today: Time, days: int)
    requires Dated(booked, DayKey(today))
    requires forall b :: 0 <= b < |booked| ==>
               && booked[b].income == DayTotal(db.receivables, today, days, booked[b].date)
               && booked[b].expense == DayTotal(db.payables, today, days, booked[b].date)
    ensures forall n :: 0 <= n <= |booked| ==>
              NetUpTo(booked, n) == RangeTotal(db.receivables, today, days, n) - RangeTotal(db.payables, today, days, n)
  {
    forall n | 0 <= n <= |booked|
      ensures NetUpTo(booked, n) == RangeTotal(db.receivables, today, days, n) - RangeTotal(db.payables, today, days, n)
    {
      NetUpToRange(booked, db, today, days, n);
    }
  }

  // ---------------------------------------------------------------------------------------
  // Grouping

  /** One `groupBy` group: the key, `_sum.amount` and `_count`. */
  datatype Group = Group(key: Option<int>, total: Money, count: nat)

  /** The distinct keys of the rows satisfying `p`, in order of first appearance. */
  function GroupKeys(rows: seq<Account>, key: Account -> Option<int>, p: Account -> bool): (r: seq<Option<int>>)
    ensures forall i, j :: 0 <= i < j < |r| ==> r[i] != r[j]
    ensures forall a :: a in rows && p(a) ==> key(a) in r
    ensures forall k :: k in r ==> exists a :: a in rows && p(a) && key(a) == k
  {
    if |rows| == 0 then []
    else
      var prev := GroupKeys(rows[..|rows| - 1], key, p);
      var last := rows[|rows| - 1];
      assert forall a :: a in rows[..|rows| - 1] ==> a in rows;
      assert forall a :: a in rows ==> a in rows[..|rows| - 1] || a == last;
      if p(last) && key(last) !in prev then prev + [key(last)] else prev
  }

  function GroupTest(key: Account -> Option<int>, p: Account -> bool, k: Option<int>): Account -> bool {
    a => p(a) && key(a) == k
  }

  /** The group of each key. */
  function GroupsFor(rows: seq<Account>, key: Account -> Option<int>, p: Account -> bool, keys: seq<Option<int>>): (r: seq<Group>)
    ensures |r| == |keys|
    ensures forall i :: 0 <= i < |r| ==>
              r[i] == Group(keys[i], SumWhere(rows, GroupTest(key, p, keys[i]), Amount), CountWhere(rows, GroupTest(key, p, keys[i])))
  {
    if |keys| == 0 then []
    else
      var k := keys[|keys| - 1];
      GroupsFor(rows, key, p, keys[..|keys| - 1])
        + [Group(k, SumWhere(rows, GroupTest(key, p, k), Amount), CountWhere(rows, GroupTest(key, p, k)))]
  }

  /** `groupBy({ by, where, _sum: { amount }, _count })`. */
  function Grouped(rows: seq<Account>, key: Account -> Option<int>, p: Account -> bool): seq<Group> {
    GroupsFor(rows, key, p, GroupKeys(rows, key, p))
  }

  function GroupsTotal(gs: seq<Group>): Money {
    if |gs| == 0 then 0.0 else GroupsTotal(gs[..|gs| - 1]) + gs[|gs| - 1].total
  }

  function GroupsCount(gs: seq<Group>): nat {
    if |gs| == 0 then 0 else GroupsCount(gs[..|gs| - 1]) + gs[|gs| - 1].count
  }

  /** The summed totals and counts of the groups of `keys`, by key. */
  function KeysTotal(rows: seq<Account>, key: Account -> Option<int>, p: Account -> bool, keys: seq<Option<int>>): Money {
    if |keys| == 0 then 0.0
    else KeysTotal(rows, key, p, keys[..|keys| - 1]) + SumWhere(rows, GroupTest(key, p, keys[|keys| - 1]), Amount)
  }

  function KeysCount(rows: seq<Account>, key: Account -> Option<int>, p: Account -> bool, keys: seq<Option<int>>): nat {
    if |keys| == 0 then 0
    else KeysCount(rows, key, p, keys[..|keys| - 1]) + CountWhere(rows, GroupTest(key, p, keys[|keys| - 1]))
  }

  lemma {:induction false} GroupsForSums(rows: seq<Account>, key: Account -> Option<int>, p: Account -> bool, keys: seq<Option<int>>)
    ensures GroupsTotal(GroupsFor(rows, key, p, keys)) == KeysTotal(rows, key, p, keys)
    ensures GroupsCount(GroupsFor(rows, key, p, keys)) == KeysCount(rows, key, p, keys)
  {
    if |keys| > 0 {
      GroupsForSums(rows, key, p, keys[..|keys| - 1]);
      assert GroupsFor(rows, key, p, keys)[..|keys| - 1] == GroupsFor(rows, key, p, keys[..|keys| - 1]);
    }
  }

  /** One more row adds its amount and one to the groups exactly when its key is among them. */
  lemma {:induction false} KeysSnoc(rows: seq<Account>, x: Account, key: Account -> Option<int>,
                                    p: Account -> bool, keys: seq<Option<int>>)
    requires forall i, j :: 0 <= i < j < |keys| ==> keys[i] != keys[j]
    ensures KeysTotal(rows + [x], key, p, keys)
            == KeysTotal(rows, key, p, keys) + (if p(x) && key(x) in keys then x.amount else 0.0)
    ensures KeysCount(rows + [x], key, p, keys)
            == KeysCount(rows, key, p, keys) + (if p(x) && key(x) in keys then 1 else 0)
  {
    if |keys| > 0 {
      var init := keys[..|keys| - 1];
      KeysSnoc(rows, x, key, p, init);
      assert (rows + [x])[..|rows|] == rows;
      assert keys[|keys| - 1] !in init;
      assert key(x) in keys <==> key(x) in init || key(x) == keys[|keys| - 1];
    }
  }

  lemma {:induction false} KeysOfNone(rows: seq<Account>, key: Account -> Option<int>, p: Account -> bool, keys: seq<Option<int>>)
    requires |rows| == 0
    ensures KeysTotal(rows, key, p, keys) == 0.0
    ensures KeysCount(rows, key, p, keys) == 0
  {
    if |keys| > 0 {
      KeysOfNone(rows, key, p, keys[..|keys| - 1]);
    }
  }

  /** The groups over distinct keys covering the selected rows split them: their totals and
      counts add up to the sum and the number of the selected rows. */
  lemma {:induction false} KeysPartition(rows: seq<Account>, key: Account -> Option<int>,
                                         p: Account -> bool, keys: seq<Option<int>>)
    requires forall i, j :: 0 <= i < j < |keys| ==> keys[i] != keys[j]
    requires forall a :: a in rows && p(a) ==> key(a) in keys
    ensures KeysTotal(rows, key, p, keys) == SumWhere(rows, p, Amount)
    ensures KeysCount(rows, key, p, keys) == CountWhere(rows, p)
  {
    if |rows| == 0 {
      KeysOfNone(rows, key, p, keys);
    } else {
      var init, x := rows[..|rows| - 1], rows[|rows| - 1];
      assert forall a :: a in init ==> a in rows;
      KeysPartition(init, key, p, keys);
      assert init + [x] == rows;
      KeysSnoc(init, x, key, p, keys);
    }
  }

  /** Every selected row is in exactly one group: the groups add up to the selection. */
  lemma GroupedPartition(rows: seq<Account>, key: Account -> Option<int>, p: Account -> bool)
    ensures GroupsTotal(Grouped(rows, key, p)) == SumWhere(rows, p, Amount)
    ensures GroupsCount(Grouped(rows, key, p)) == CountWhere(rows, p)
  {
    KeysPartition(rows, key, p, GroupKeys(rows, key, p));
    GroupsForSums(rows, key, p, GroupKeys(rows, key, p));
  }

  // ---------------------------------------------------------------------------------------
  // Category analysis

  function CategoryOf(a: Account): Option<int> { a.categoryId }
  function CategoryId(c: Category): int { c.id }

  /** `categoryMap[item.categoryId] || { name: 'Sem categoria', type }`. */
  datatype CategoryLabel = Known(category: Category) | Uncategorized(name: string, categoryType: TxType)

  datatype CategoryLine = CategoryLine(category: CategoryLabel, total: Money, count: nat)

  datatype CategoryAnalysis = CategoryAnalysis(expenses: seq<CategoryLine>, income: seq<CategoryLine>)

  /** The label of a group: its category when the key is a truthy id of a stored category,
      otherwise the placeholder of the ledger's type. */
  function LabelFor(categories: seq<Category>, key: Option<int>, fallback: TxType): (l: CategoryLabel)
    ensures l.Known? ==> l.category in categories && TruthyId(key) == Some(l.category.id)
    ensures l.Uncategorized? <==> TruthyId(key).None? || forall c :: c in categories ==> c.id != TruthyId(key).value
    ensures l.Uncategorized? ==> l == Uncategorized("Sem categoria", fallback)
  {
    var id := TruthyId(key);
    if id.None? then Uncategorized("Sem categoria", fallback)
    else match IndexOf(categories, id.value, CategoryId)
      case None => Uncategorized("Sem categoria", fallback)
      case Some(i) => Known(categories[i])
  }

  function LinesFor(categories: seq<Category>, gs: seq<Group>, fallback: TxType): (r: seq<CategoryLine>)
    ensures |r| == |gs|
    ensures forall i :: 0 <= i < |r| ==> r[i] == CategoryLine(LabelFor(categories, gs[i].key, fallback), gs[i].total, gs[i].count)
  {
    if |gs| == 0 then []
    else
      var g := gs[|gs| - 1];
      LinesFor(categories, gs[..|gs| - 1], fallback) + [CategoryLine(LabelFor(categories, g.key, fallback), g.total, g.count)]
  }

  function LinesTotal(ls: seq<CategoryLine>): Money {
    if |ls| == 0 then 0.0 else LinesTotal(ls[..|ls| - 1]) + ls[|ls| - 1].total
  }

  function LinesCount(ls: seq<CategoryLine>): nat {
    if |ls| == 0 then 0 else LinesCount(ls[..|ls| - 1]) + ls[|ls| - 1].count
  }

  lemma {:induction false} LinesSums(categories: seq<Category>, gs: seq<Group>, fallback: TxType)
    ensures LinesTotal(LinesFor(categories, gs, fallback)) == GroupsTotal(gs)
    ensures LinesCount(LinesFor(categories, gs, fallback)) == GroupsCount(gs)
  {
    if |gs| > 0 {
      LinesSums(categories, gs[..|gs| - 1], fallback);
      assert LinesFor(categories, gs, fallback)[..|gs| - 1] == LinesFor(categories, gs[..|gs| - 1], fallback);
    }
  }

  /** `dueDate: { gte: start, lte: end }`, whatever the status. */
  predicate DueIn(a: Account, start: Time, end: Time) { start <= a.dueDate <= end }
  function DueInTest(start: Time, end: Time): Account -> bool { a => DueIn(a, start, end) }

  /** `getCategoryAnalysis`: the payables and the receivables due in the range grouped by
      category, payable groups labelled EXPENSE and receivable groups INCOME when their
      category is unknown. */
  function GetCategoryAnalysis(db: Db, start: Time, end: Time): (r: CategoryAnalysis)
    reads db
    ensures r.expenses == LinesFor(db.categories, Grouped(db.payables, CategoryOf, DueInTest(start, end)), Expense)
    ensures r.income == LinesFor(db.categories, Grouped(db.receivables, CategoryOf, DueInTest(start, end)), Income)
    ensures LinesTotal(r.expenses) == SumWhere(db.payables, DueInTest(start, end), Amount)
    ensures LinesCount(r.expenses) == CountWhere(db.payables, DueInTest(start, end))
    ensures LinesTotal(r.income) == SumWhere(db.receivables, DueInTest(start, end), Amount)
    ensures LinesCount(r.income) == CountWhere(db.receivables, DueInTest(start, end))
  {
    var payables := Grouped(db.payables, CategoryOf, DueInTest(start, end));
    var receivables := Grouped(db.receivables, CategoryOf, DueInTest(start, end));
    GroupedPartition(db.payables, CategoryOf, DueInTest(start, end));
    GroupedPartition(db.receivables, CategoryOf, DueInTest(start, end));
    LinesSums(db.categories, payables, Expense);
    LinesSums(db.categories, receivables, Income);
    CategoryAnalysis(LinesFor(db.categories, payables, Expense), LinesFor(db.categories, receivables, Income))
  }

  // ---------------------------------------------------------------------------------------
  // Top suppliers and customers

  function PartyOf(a: Account): Option<int> { a.counterpartyId }

  /** The optional due-date bounds and a non-null counterparty. */
  predicate Ranked(a: Account, start: Option<Time>, end: Option<Time>) {
    InDueRange(a, start, end) && a.counterpartyId.Some?
  }

  function RankedTest(start: Option<Time>, end: Option<Time>): Account -> bool { a => Ranked(a, start, end) }

  /** `orderBy: { _sum: { amount: 'desc' } }` as an ascending key. */
  function Descending(g: Group): real { -g.total }

  /** `take: limit`. */
  function Take(s: seq<Group>, limit: int): (r: seq<Group>)
    ensures |r| == if limit <= 0 then 0 else if limit < |s| then limit else |s|
    ensures r == s[..|r|]
  {
    if limit <= 0 then [] else if limit < |s| then s[..limit] else s
  }

  /** `getTopSuppliers` / `getTopCustomers`: the counterparties of the matching rows by summed
      amount, largest first, at most `limit` of them, each group at most once and no
      counterparty twice, none without a counterparty, and no counterparty left out that sums
      more than one listed. */
  function TopCounterparties(rows: seq<Account>, limit: int, start: Option<Time>, end: Option<Time>): (r: seq<Group>)
    ensures var gs := Grouped(rows, PartyOf, RankedTest(start, end));
            && |r| == (if limit <= 0 then 0 else if limit < |gs| then limit else |gs|)
            && (forall i, j :: 0 <= i < j < |r| ==> r[i].total >= r[j].total)
            && multiset(r) <= multiset(gs)
            && (forall i, j :: 0 <= i < j < |r| ==> r[i].key != r[j].key)
            && (forall g :: g in r ==> g in gs && g.key.Some?)
            && (forall g, h :: g in gs && g !in r && h in r ==> h.total >= g.total)
            && (forall g :: g in r ==>
                  g.count > 0 && g.total == SumWhere(rows, GroupTest(PartyOf, RankedTest(start, end), g.key), Amount))
  {
    var gs := Grouped(rows, PartyOf, RankedTest(start, end));
    TakeLargest(gs, limit);
    DistinctKeysKept(Take(SortBy(gs, Descending), limit), gs);
    forall g | g in Take(SortBy(gs, Descending), limit)
      ensures g.key.Some? && g.count > 0
              && g.total == SumWhere(rows, GroupTest(PartyOf, RankedTest(start, end), g.key), Amount)
    {
      RankedGroup(rows, start, end, g);
    }
    Take(SortBy(gs, Descending), limit)
  }

  /** The first `limit` groups in descending order of total are the largest ones. */
  lemma TakeLargest(gs: seq<Group>, limit: int)
    ensures var r := Take(SortBy(gs, Descending), limit);
            && |r| == (if limit <= 0 then 0 else if limit < |gs| then limit else |gs|)
            && (forall i, j :: 0 <= i < j < |r| ==> r[i].total >= r[j].total)
            && multiset(r) <= multiset(gs)
            && (forall g :: g in r ==> g in gs)
            && (forall g, h :: g in gs && g !in r && h in r ==> h.total >= g.total)
  {
    var sorted := SortBy(gs, Descending);
    SortByMembers(gs, Descending);
    assert |sorted| == |multiset(sorted)| == |multiset(gs)| == |gs|;
    TakeSortedPrefix(sorted, limit);
    TakeSubMultiset(sorted, limit);
  }

  /** `take` keeps each group at most as often as it occurs. */
  lemma TakeSubMultiset(s: seq<Group>, limit: int)
    ensures multiset(Take(s, limit)) <= multiset(s)
  {
    var r := Take(s, limit);
    assert s == r + s[|r|..];
  }

  /** Taking groups from a list whose keys are distinct, each at most as often as it occurs
      there, keeps the keys distinct. */
  lemma DistinctKeysKept(r: seq<Group>, gs: seq<Group>)
    requires forall i, j :: 0 <= i < j < |gs| ==> gs[i].key != gs[j].key
    requires multiset(r) <= multiset(gs)
    ensures forall i, j :: 0 <= i < j < |r| ==> r[i].key != r[j].key
  {
    forall i, j | 0 <= i < j < |r| ensures r[i].key != r[j].key {
      assert r[i] in multiset(r) && r[j] in multiset(r);
      SameKeySameGroup(gs, r[i], r[j]);
      TwiceCounted(r, i, j);
      AtMostOnce(gs, r[j]);
    }
  }

  /** In a list of groups with distinct keys a key names at most one group. */
  lemma SameKeySameGroup(gs: seq<Group>, g: Group, h: Group)
    requires forall i, j :: 0 <= i < j < |gs| ==> gs[i].key != gs[j].key
    requires g in gs && h in gs
    ensures g.key == h.key ==> g == h
  {
    var a :| 0 <= a < |gs| && gs[a] == g;
    var b :| 0 <= b < |gs| && gs[b] == h;
  }

  /** A group occurs at most once in a list of groups with distinct keys. */
  lemma {:induction false} AtMostOnce(gs: seq<Group>, g: Group)
    requires forall i, j :: 0 <= i < j < |gs| ==> gs[i].key != gs[j].key
    ensures multiset(gs)[g] <= 1
  {
    if |gs| > 0 {
      var init, last := gs[..|gs| - 1], gs[|gs| - 1];
      AtMostOnce(init, g);
      assert gs == init + [last];
      forall k | 0 <= k < |init| ensures init[k].key != last.key {
        assert init[k] == gs[k];
      }
    }
  }

  /** Two equal entries at different positions count twice. */
  lemma TwiceCounted(s: seq<Group>, i: int, j: int)
    requires 0 <= i < j < |s|
    ensures s[i] == s[j] ==> multiset(s)[s[j]] >= 2
  {
    assert s == s[..j] + [s[j]] + s[j + 1..];
    assert s[i] in s[..j];
  }

  /** A prefix of a list in descending order of total is in that order, and is at least as
      large as every element after it. */
  lemma TakeSortedPrefix(sorted: seq<Group>, limit: int)
    requires SortedBy(sorted, Descending)
    ensures var r := Take(sorted, limit);
            && (forall i, j :: 0 <= i < j < |r| ==> r[i].total >= r[j].total)
            && (forall g :: g in r ==> g in sorted)
            && (forall g, h :: g in sorted && g !in r && h in r ==> h.total >= g.total)
  {
    var r := Take(sorted, limit);
    forall g | g in r ensures g in sorted {
      var i :| 0 <= i < |r| && r[i] == g;
      assert sorted[i] == g;
    }
    forall g, h | g in sorted && g !in r && h in r ensures h.total >= g.total {
      var j :| 0 <= j < |sorted| && sorted[j] == g;
      var i :| 0 <= i < |r| && r[i] == h;
      assert sorted[i] == h;
    }
  }

  /** Every group of the ranked rows names a counterparty, has at least one row, and holds the
      sum of that counterparty's rows. */
  lemma RankedGroup(rows: seq<Account>, start: Option<Time>, end: Option<Time>, g: Group)
    requires g in Grouped(rows, PartyOf, RankedTest(start, end))
    ensures g.key.Some? && g.count > 0
    ensures g.total == SumWhere(rows, GroupTest(PartyOf, RankedTest(start, end), g.key), Amount)
  {
    var keys := GroupKeys(rows, PartyOf, RankedTest(start, end));
    var gs := Grouped(rows, PartyOf, RankedTest(start, end));
    var i :| 0 <= i < |gs| && gs[i] == g;
    assert keys[i] in keys;
    var a :| a in rows && Ranked(a, start, end) && PartyOf(a) == keys[i];
    CountWherePositive(rows, GroupTest(PartyOf, RankedTest(start, end), keys[i]), a);
  }

  lemma CountWherePositive(rows: seq<Account>, p: Account -> bool, a: Account)
    requires a in rows && p(a)
    ensures CountWhere(rows, p) > 0
  {
    assert a in Select(rows, p);
  }

  /** `getTopSuppliers`, over the payables. */
  function GetTopSuppliers(db: Db, limit: int, start: Option<Time>, end: Option<Time>): (r: seq<Group>)
    reads db
    ensures forall g :: g in r ==> g.key.Some? && g.count > 0
    ensures forall g :: g in r ==>
              g.total == SumWhere(db.payables, GroupTest(PartyOf, RankedTest(start, end), g.key), Amount)
    ensures forall i, j :: 0 <= i < j < |r| ==> r[i].key != r[j].key
  {
    TopCounterparties(db.payables, limit, start, end)
  }

  /** `getTopCustomers`, over the receivables. */
  function GetTopCustomers(db: Db, limit: int, start: Option<Time>, end: Option<Time>): (r: seq<Group>)
    reads db
    ensures forall g :: g in r ==> g.key.Some? && g.count > 0
    ensures forall g :: g in r ==>
              g.total == SumWhere(db.receivables, GroupTest(PartyOf, RankedTest(start, end), g.key), Amount)
    ensures forall i, j :: 0 <= i < j < |r| ==> r[i].key != r[j].key
  {
    TopCounterparties(db.receivables, limit, start, end)
  }
}
