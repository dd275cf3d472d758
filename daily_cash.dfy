/** The daily cash register: one report per date, opened with a balance, fed by income and
    expense entries, its eight payment-method buckets recomputed from every linked entry
    after each one, and closed against a counted balance. */
module DailyCash {
  import opened Common
  import opened Store
  import opened Ordering
  import opened Paging

  // ---------------------------------------------------------------------------------------
  // Buckets

  /** The eight accumulators of a report. */
  datatype Bucket = CashIn | CardIn | PixIn | OtherIn | CashOut | CardOut | PixOut | OtherOut

  /** Where an entry is counted: INCOME entries by method into the income buckets (both card
      kinds together, any unlisted method as other); every other entry likewise into the
      expense buckets. */
  function BucketOf(t: Transaction): (b: Bucket)
    ensures t.txType == Income <==> b in {CashIn, CardIn, PixIn, OtherIn}
    ensures t.paymentMethod == Cash <==> b in {CashIn, CashOut}
    ensures t.paymentMethod == CreditCard || t.paymentMethod == DebitCard <==> b in {CardIn, CardOut}
    ensures t.paymentMethod == Pix <==> b in {PixIn, PixOut}
  {
    var incoming := t.txType == Income;
    match t.paymentMethod
    case Cash => if incoming then CashIn else CashOut
    case CreditCard => if incoming then CardIn else CardOut
    case DebitCard => if incoming then CardIn else CardOut
    case Pix => if incoming then PixIn else PixOut
    case OtherMethod(_) => if incoming then OtherIn else OtherOut
  }

  function Field(t: CashTotals, b: Bucket): Money {
    match b
    case CashIn => t.cashIncome
    case CardIn => t.cardIncome
    case PixIn => t.pixIncome
    case OtherIn => t.otherIncome
    case CashOut => t.cashExpense
    case CardOut => t.cardExpense
    case PixOut => t.pixExpense
    case OtherOut => t.otherExpense
  }

  /** `bucket += amount`: only the named bucket changes. */
  function AddTo(t: CashTotals, b: Bucket, amount: Money): CashTotals {
    CashTotals(
      t.cashIncome + (if b == CashIn then amount else 0.0),
      t.cardIncome + (if b == CardIn then amount else 0.0),
      t.pixIncome + (if b == PixIn then amount else 0.0),
      t.otherIncome + (if b == OtherIn then amount else 0.0),
      t.cashExpense + (if b == CashOut then amount else 0.0),
      t.cardExpense + (if b == CardOut then amount else 0.0),
      t.pixExpense + (if b == PixOut then amount else 0.0),
      t.otherExpense + (if b == OtherOut then amount else 0.0))
  }

  predicate InBucket(t: Transaction, b: Bucket) { BucketOf(t) == b }
  function BucketTest(b: Bucket): Transaction -> bool { t => InBucket(t, b) }

  /** The buckets of a list of entries: each holds the summed amounts of the entries
      classified into it. */
  function BucketTotals(s: seq<Transaction>): CashTotals {
    CashTotals(
      SumWhere(s, BucketTest(CashIn), TxAmount), SumWhere(s, BucketTest(CardIn), TxAmount),
      SumWhere(s, BucketTest(PixIn), TxAmount), SumWhere(s, BucketTest(OtherIn), TxAmount),
      SumWhere(s, BucketTest(CashOut), TxAmount), SumWhere(s, BucketTest(CardOut), TxAmount),
      SumWhere(s, BucketTest(PixOut), TxAmount), SumWhere(s, BucketTest(OtherOut), TxAmount))
  }

  /** Counting one more entry adds its amount to its own bucket and to no other. */
  lemma BucketTotalsSnoc(s: seq<Transaction>, x: Transaction)
    ensures BucketTotals(s + [x]) == AddTo(BucketTotals(s), BucketOf(x), x.amount)
  {
    assert (s + [x])[..|s|] == s;
  }

  /** The buckets depend only on which entries are linked, not on their order. */
  lemma BucketTotalsPermutation(s: seq<Transaction>, t: seq<Transaction>)
    requires multiset(s) == multiset(t)
    ensures BucketTotals(s) == BucketTotals(t)
  {
    forall b {
      SumWherePermutation(s, t, BucketTest(b), TxAmount);
    }
  }

  function IncomeTotal(t: CashTotals): Money { t.cashIncome + t.cardIncome + t.pixIncome + t.otherIncome }
  function ExpenseTotal(t: CashTotals): Money { t.cashExpense + t.cardExpense + t.pixExpense + t.otherExpense }

  predicate OfType(t: Transaction, txType: TxType) { t.txType == txType }
  function TypeTest(txType: TxType): Transaction -> bool { t => OfType(t, txType) }

  /** The four income buckets together hold every INCOME entry and the four expense buckets
      every other entry. */
  lemma {:induction false} TotalsAreTypeSums(s: seq<Transaction>)
    ensures IncomeTotal(BucketTotals(s)) == SumWhere(s, TypeTest(Income), TxAmount)
    ensures ExpenseTotal(BucketTotals(s)) == SumWhere(s, TypeTest(Expense), TxAmount)
  {
    if |s| > 0 {
      TotalsAreTypeSums(s[..|s| - 1]);
    }
  }

  /** The loop of `updateCashTotals`: eight accumulators, one `switch` per entry. */
  method SumBuckets(txs: seq<Transaction>) returns (totals: CashTotals)
    ensures totals == BucketTotals(txs)
  {
    var cashIncome, cardIncome, pixIncome, otherIncome := 0.0, 0.0, 0.0, 0.0;
    var cashExpense, cardExpense, pixExpense, otherExpense := 0.0, 0.0, 0.0, 0.0;
    for i := 0 to |txs|
      invariant CashTotals(cashIncome, cardIncome, pixIncome, otherIncome,
                           cashExpense, cardExpense, pixExpense, otherExpense) == BucketTotals(txs[..i])
    {
      var t := txs[i];
      var amount := t.amount;
      assert txs[..i + 1] == txs[..i] + [t];
      BucketTotalsSnoc(txs[..i], t);
      if t.txType == Income {
        match t.paymentMethod
        case Cash => assert BucketOf(t) == CashIn; cashIncome := cashIncome + amount;
        case CreditCard => assert BucketOf(t) == CardIn; cardIncome := cardIncome + amount;
        case DebitCard => assert BucketOf(t) == CardIn; cardIncome := cardIncome + amount;
        case Pix => assert BucketOf(t) == PixIn; pixIncome := pixIncome + amount;
        case OtherMethod(_) => assert BucketOf(t) == OtherIn; otherIncome := otherIncome + amount;
      } else {
        match t.paymentMethod
        case Cash => assert BucketOf(t) == CashOut; cashExpense := cashExpense + amount;
        case CreditCard => assert BucketOf(t) == CardOut; cardExpense := cardExpense + amount;
        case DebitCard => assert BucketOf(t) == CardOut; cardExpense := cardExpense + amount;
        case Pix => assert BucketOf(t) == PixOut; pixExpense := pixExpense + amount;
        case OtherMethod(_) => assert BucketOf(t) == OtherOut; otherExpense := otherExpense + amount;
      }
    }
    assert txs[..|txs|] == txs;
    totals := CashTotals(cashIncome, cardIncome, pixIncome, otherIncome,
                         cashExpense, cardExpense, pixExpense, otherExpense);
  }

  // ---------------------------------------------------------------------------------------
  // Reports

  /** The report `openCash` creates: OPEN, zero buckets, expected and closing balance equal to
      the opening balance. */
  function OpenedReport(id: int, date: Time, openingBalance: Money): (r: CashReport)
    ensures r.status == Open && r.totals == NoTotals
    ensures r.expectedBalance == openingBalance && r.closingBalance == openingBalance
  {
    CashReport(id, date, Open, openingBalance, NoTotals, 0.0, 0.0, openingBalance, openingBalance,
               None, None, None, None)
  }

  /** The report with the given buckets written in, as `updateCashTotals` writes them. */
  function WithTotals(r: CashReport, t: CashTotals): CashReport {
    var closing := r.openingBalance + IncomeTotal(t) - ExpenseTotal(t);
    r.(totals := t, totalIncome := IncomeTotal(t), totalExpense := ExpenseTotal(t),
       closingBalance := closing, expectedBalance := closing)
  }

  /** The report recomputed from the entries linked to it: balanced, its balances are opening
      plus the INCOME entries minus the EXPENSE entries, and nothing but the totals and the
      balances changes. */
  function Recompute(r: CashReport, linked: seq<Transaction>): (s: CashReport)
    ensures Balanced(s)
    ensures s.closingBalance
            == r.openingBalance + SumWhere(linked, TypeTest(Income), TxAmount) - SumWhere(linked, TypeTest(Expense), TxAmount)
    ensures s.expectedBalance == s.closingBalance
    ensures s.(totals := r.totals, totalIncome := r.totalIncome, totalExpense := r.totalExpense,
               closingBalance := r.closingBalance, expectedBalance := r.expectedBalance) == r
  {
    TotalsAreTypeSums(linked);
    WithTotals(r, BucketTotals(linked))
  }

  /** The bookkeeping every report keeps: the totals are the sums of their buckets, the
      expected balance is opening plus income minus expense, and an OPEN report's closing
      balance is the expected one. */
  predicate Balanced(r: CashReport) {
    && r.totalIncome == IncomeTotal(r.totals)
    && r.totalExpense == ExpenseTotal(r.totals)
    && r.expectedBalance == r.openingBalance + r.totalIncome - r.totalExpense
    && (r.status == Open ==> r.closingBalance == r.expectedBalance)
  }

  ghost predicate AllBalanced(reports: seq<CashReport>) {
    forall k :: 0 <= k < |reports| ==> Balanced(reports[k])
  }

  /** A recomputed report depends only on the multiset of linked entries, not on their order. */
  lemma RecomputeOrderFree(r: CashReport, linked: seq<Transaction>, other: seq<Transaction>)
    requires multiset(other) == multiset(linked)
    ensures Recompute(r, other) == Recompute(r, linked)
  {
    BucketTotalsPermutation(other, linked);
  }

  /** Recomputing twice from the same entries changes nothing more. */
  lemma RecomputeIdempotent(r: CashReport, linked: seq<Transaction>)
    ensures Recompute(Recompute(r, linked), linked) == Recompute(r, linked)
  {
    WithTotalsTwice(r, BucketTotals(linked));
  }

  lemma WithTotalsTwice(r: CashReport, t: CashTotals)
    ensures WithTotals(WithTotals(r, t), t) == WithTotals(r, t)
  {
  }

  predicate LinkedTo(t: Transaction, reportId: int) { t.cashReportId == Some(reportId) }
  function LinkedTest(reportId: int): Transaction -> bool { t => LinkedTo(t, reportId) }

  /** The entries of one report (`include: { transactions: true }`). */
  function Linked(txs: seq<Transaction>, reportId: int): (r: seq<Transaction>)
    ensures forall t :: t in r <==> t in txs && t.cashReportId == Some(reportId)
  {
    Select(txs, LinkedTest(reportId))
  }

  /** The report table after `updateCashTotals(reportId)`: unchanged when no report has that
      id, otherwise that report recomputed from its linked entries. */
  function RecomputedIn(reports: seq<CashReport>, reportId: int, txs: seq<Transaction>): seq<CashReport> {
    match IndexOf(reports, reportId, ReportId)
    case None => reports
    case Some(i) => reports[i := Recompute(reports[i], Linked(txs, reportId))]
  }

  /** `openCash`: fails when the date already has a report; otherwise appends an OPEN report. */
  method OpenCash(db: Db, date: Time, openingBalance: Money) returns (r: Result<CashReport>)
    requires db.Valid() && AllBalanced(db.cashReports)
    modifies db`cashReports
    ensures db.Valid() && AllBalanced(db.cashReports)
    ensures IndexOf(old(db.cashReports), date, ReportDate).Some? ==>
              r == Err(Thrown("Cash register already opened for this date")) && db.cashReports == old(db.cashReports)
    ensures IndexOf(old(db.cashReports), date, ReportDate).None? ==>
              r == Ok(OpenedReport(|old(db.cashReports)| + 1, date, openingBalance))
              && db.cashReports == old(db.cashReports) + [r.value]
  {
    if IndexOf(db.cashReports, date, ReportDate).Some? {
      return Err(Thrown("Cash register already opened for this date"));
    }
    var report := OpenedReport(|db.cashReports| + 1, date, openingBalance);
    db.cashReports := db.cashReports + [report];
    r := Ok(report);
  }

  /** `updateCashTotals`: recomputes the report from every linked entry. */
  method UpdateCashTotals(db: Db, reportId: int)
    requires db.Valid() && AllBalanced(db.cashReports)
    modifies db`cashReports
    ensures db.Valid() && AllBalanced(db.cashReports)
    ensures db.cashReports == RecomputedIn(old(db.cashReports), reportId, db.transactions)
  {
    var i := IndexOf(db.cashReports, reportId, ReportId);
    if i.None? {
      return;
    }
    var report := db.cashReports[i.value];
    var totals := SumBuckets(Linked(db.transactions, reportId));
    db.cashReports := db.cashReports[i.value := WithTotals(report, totals)];
    assert db.cashReports[i.value] == Recompute(report, Linked(db.transactions, reportId));
  }

  /** The report table once the date has a report, and that report's position. */
  function WithReportFor(reports: seq<CashReport>, date: Time): seq<CashReport> {
    if IndexOf(reports, date, ReportDate).None? then reports + [OpenedReport(|reports| + 1, date, 0.0)]
    else reports
  }

  function ReportIndex(reports: seq<CashReport>, date: Time): (i: nat)
    ensures i < |WithReportFor(reports, date)|
  {
    match IndexOf(reports, date, ReportDate)
    case None => |reports|
    case Some(i) => i
  }

  /** The entry `recordIncome` or `recordExpense` writes. */
  function CashEntry(id: int, txType: TxType, date: Time, amount: Money, pm: PaymentMethod,
                     account: Option<AccountRef>, userId: int, reportId: int): Transaction
  {
    Transaction(id, txType, amount, date, None, None, pm, account, userId, Some(reportId))
  }

  /** What a recorded entry leaves behind: the date's report (opened with balance 0 when
      missing, whatever its status otherwise), one entry linked to it, and that report
      recomputed from all of its entries; nothing else changes. */
  ghost predicate Recorded(oldReports: seq<CashReport>, oldTxs: seq<Transaction>,
                           reports: seq<CashReport>, txs: seq<Transaction>, entry: Transaction,
                           txType: TxType, date: Time, amount: Money, pm: PaymentMethod,
                           account: Option<AccountRef>, userId: int)
  {
    var withReport := WithReportFor(oldReports, date);
    var j := ReportIndex(oldReports, date);
    && entry == CashEntry(|oldTxs| + 1, txType, date, amount, pm, account, userId, withReport[j].id)
    && txs == oldTxs + [entry]
    && reports == withReport[j := Recompute(withReport[j], Linked(txs, withReport[j].id))]
  }

  /** Recomputing the report an entry was linked to gives the recorded state. */
  lemma RecordedByRecompute(oldReports: seq<CashReport>, oldTxs: seq<Transaction>,
                            reports: seq<CashReport>, txs: seq<Transaction>, entry: Transaction,
                            txType: TxType, date: Time, amount: Money, pm: PaymentMethod,
                            account: Option<AccountRef>, userId: int)
    requires IdsAreRowNumbers(WithReportFor(oldReports, date), ReportId)
    requires entry == CashEntry(|oldTxs| + 1, txType, date, amount, pm, account, userId,
                                WithReportFor(oldReports, date)[ReportIndex(oldReports, date)].id)
    requires txs == oldTxs + [entry]
    requires reports == RecomputedIn(WithReportFor(oldReports, date), entry.cashReportId.value, txs)
    ensures Recorded(oldReports, oldTxs, reports, txs, entry, txType, date, amount, pm, account, userId)
  {
    var withReport := WithReportFor(oldReports, date);
    var j := ReportIndex(oldReports, date);
    IndexOfRowNumber(withReport, j + 1, ReportId);
  }

  /** `findByDate(date) || openCash(date, 0)`: the id of the date's report, opening one with
      balance 0 when there is none. */
  method FindOrOpen(db: Db, date: Time) returns (reportId: int)
    requires db.Valid() && AllBalanced(db.cashReports)
    modifies db`cashReports
    ensures db.Valid() && AllBalanced(db.cashReports)
    ensures db.cashReports == WithReportFor(old(db.cashReports), date)
    ensures reportId == db.cashReports[ReportIndex(old(db.cashReports), date)].id
  {
    var i := IndexOf(db.cashReports, date, ReportDate);
    if i.None? {
      var created := OpenCash(db, date, 0.0);
      reportId := created.value.id;
    } else {
      reportId := db.cashReports[i.value].id;
    }
  }

  /** The shared body of `recordIncome` and `recordExpense`. */
  method Record(db: Db, txType: TxType, date: Time, amount: Money, pm: PaymentMethod,
                account: Option<AccountRef>, userId: int) returns (entry: Transaction)
    requires db.Valid() && AllBalanced(db.cashReports)
    modifies db`cashReports, db`transactions
    ensures db.Valid() && AllBalanced(db.cashReports)
    ensures Recorded(old(db.cashReports), old(db.transactions), db.cashReports, db.transactions, entry,
                     txType, date, amount, pm, account, userId)
  {
    ghost var oldReports, oldTxs := db.cashReports, db.transactions;
    var reportId := FindOrOpen(db, date);
    entry := CashEntry(|db.transactions| + 1, txType, date, amount, pm, account, userId, reportId);
    AppendEntry(db, entry);
    UpdateCashTotals(db, reportId);
    RecordedByRecompute(oldReports, oldTxs, db.cashReports, db.transactions, entry,
                        txType, date, amount, pm, account, userId);
  }

  /** `recordIncome`. */
  method RecordIncome(db: Db, date: Time, amount: Money, pm: PaymentMethod, receivableId: Option<int>,
                      userId: int) returns (entry: Transaction)
    requires db.Valid() && AllBalanced(db.cashReports)
    modifies db`cashReports, db`transactions
    ensures db.Valid() && AllBalanced(db.cashReports)
    ensures Recorded(old(db.cashReports), old(db.transactions), db.cashReports, db.transactions, entry,
                     Income, date, amount, pm,
                     if receivableId.Some? then Some(ReceivableRef(receivableId.value)) else None, userId)
  {
    entry := Record(db, Income, date, amount, pm,
                    if receivableId.Some? then Some(ReceivableRef(receivableId.value)) else None, userId);
  }

  /** `recordExpense`. */
  method RecordExpense(db: Db, date: Time, amount: Money, pm: PaymentMethod, payableId: Option<int>,
                       userId: int) returns (entry: Transaction)
    requires db.Valid() && AllBalanced(db.cashReports)
    modifies db`cashReports, db`transactions
    ensures db.Valid() && AllBalanced(db.cashReports)
    ensures Recorded(old(db.cashReports), old(db.transactions), db.cashReports, db.transactions, entry,
                     Expense, date, amount, pm,
                     if payableId.Some? then Some(PayableRef(payableId.value)) else None, userId)
  {
    entry := Record(db, Expense, date, amount, pm,
                    if payableId.Some? then Some(PayableRef(payableId.value)) else None, userId);
  }

  /** One more linked entry moves the report by exactly its amount: income and the balances up
      for an INCOME entry, expense up and the balances down for any other. */
  lemma {:induction false} RecordMovesReport(r: CashReport, txs: seq<Transaction>, entry: Transaction)
    requires entry.cashReportId == Some(r.id)
    ensures var before := Recompute(r, Linked(txs, r.id));
            var after := Recompute(r, Linked(txs + [entry], r.id));
            && after.totalIncome == before.totalIncome + (if entry.txType == Income then entry.amount else 0.0)
            && after.totalExpense == before.totalExpense + (if entry.txType == Expense then entry.amount else 0.0)
            && after.closingBalance
               == before.closingBalance + (if entry.txType == Income then entry.amount else -entry.amount)
            && after.expectedBalance == after.closingBalance
  {
    var s := Linked(txs, r.id);
    assert Linked(txs + [entry], r.id) == s + [entry] by {
      assert (txs + [entry])[..|txs|] == txs;
    }
    BucketTotalsSnoc(s, entry);
    WithOneMore(r, BucketTotals(s), entry);
  }

  lemma WithOneMore(r: CashReport, t: CashTotals, x: Transaction)
    ensures var before := WithTotals(r, t);
            var after := WithTotals(r, AddTo(t, BucketOf(x), x.amount));
            && after.totalIncome == before.totalIncome + (if x.txType == Income then x.amount else 0.0)
            && after.totalExpense == before.totalExpense + (if x.txType == Expense then x.amount else 0.0)
            && after.closingBalance == before.closingBalance + (if x.txType == Income then x.amount else -x.amount)
            && after.expectedBalance == after.closingBalance
  {
  }

  /** The close of a report with the counted balance. `notes` left out keeps the stored notes. */
  function Close(r: CashReport, closedBy: string, actual: Money, notes: Option<string>, now: Time): (c: CashReport)
    ensures c.status == Closed && c.closingBalance == actual && c.closedBy == Some(closedBy)
    ensures c.difference == Some(actual - r.expectedBalance)
    ensures c.totals == r.totals && c.expectedBalance == r.expectedBalance && c.openingBalance == r.openingBalance
  {
    r.(status := Closed, closedAt := Some(now), closedBy := Some(closedBy), closingBalance := actual,
       difference := Some(actual - r.expectedBalance), notes := if notes.Some? then notes else r.notes)
  }

  /** `closeCash`: fails when the date has no report or it is already CLOSED; otherwise closes
      it, the difference being the counted minus the expected balance. */
  method CloseCash(db: Db, date: Time, closedBy: string, actual: Money, notes: Option<string>, now: Time)
    returns (r: Result<CashReport>)
    requires db.Valid() && AllBalanced(db.cashReports)
    modifies db`cashReports
    ensures db.Valid() && AllBalanced(db.cashReports)
    ensures var i := IndexOf(old(db.cashReports), date, ReportDate);
            && (i.None? ==> r == Err(Thrown("Cash register not found for this date")) && db.cashReports == old(db.cashReports))
            && (i.Some? && old(db.cashReports)[i.value].status == Closed ==>
                  r == Err(Thrown("Cash register already closed")) && db.cashReports == old(db.cashReports))
            && (i.Some? && old(db.cashReports)[i.value].status == Open ==>
                  r == Ok(Close(old(db.cashReports)[i.value], closedBy, actual, notes, now))
                  && db.cashReports == old(db.cashReports)[i.value := r.value])
  {
    var i := IndexOf(db.cashReports, date, ReportDate);
    if i.None? {
      return Err(Thrown("Cash register not found for this date"));
    }
    var report := db.cashReports[i.value];
    if report.status == Closed {
      return Err(Thrown("Cash register already closed"));
    }
    var closed := Close(report, closedBy, actual, notes, now);
    db.cashReports := db.cashReports[i.value := closed];
    r := Ok(closed);
  }

  /** For a balanced report the close difference is the counted balance minus opening plus
      income minus expense; recording into a report after it was closed (nothing forbids it)
      puts the computed balance back in place of the counted one and leaves the recorded
      difference as it was. */
  lemma CloseThenRecord(r: CashReport, closedBy: string, actual: Money, notes: Option<string>, now: Time,
                        linked: seq<Transaction>)
    requires Balanced(r)
    ensures Close(r, closedBy, actual, notes, now).difference
            == Some(actual - (r.openingBalance + IncomeTotal(r.totals) - ExpenseTotal(r.totals)))
    ensures var again := Recompute(Close(r, closedBy, actual, notes, now), linked);
            && again.status == Closed
            && again.closingBalance == again.expectedBalance
            && again.difference == Some(actual - r.expectedBalance)
  {
  }

  /** A day opened with 0 that receives 100 in cash and 50 by PIX and pays 20 by card ends
      expecting 130; counting 125 at the close records a difference of -5. */
  lemma WorkedExample(r: CashReport, cash: Transaction, pix: Transaction, card: Transaction)
    requires r.openingBalance == 0.0
    requires cash.txType == Income && cash.paymentMethod == Cash && cash.amount == 100.0
    requires pix.txType == Income && pix.paymentMethod == Pix && pix.amount == 50.0
    requires card.txType == Expense && card.paymentMethod == CreditCard && card.amount == 20.0
    ensures var day := Recompute(r, [cash, pix, card]);
            && day.totalIncome == 150.0 && day.totalExpense == 20.0
            && day.totals.cashIncome == 100.0 && day.totals.pixIncome == 50.0 && day.totals.cardExpense == 20.0
            && day.expectedBalance == 130.0
            && Close(day, "caixa", 125.0, None, 0).difference == Some(-5.0)
  {
    BucketTotalsSnoc([], cash);
    assert [] + [cash] == [cash];
    BucketTotalsSnoc([cash], pix);
    assert [cash] + [pix] == [cash, pix];
    BucketTotalsSnoc([cash, pix], card);
    assert [cash, pix] + [card] == [cash, pix, card];
    assert BucketTotals([cash, pix, card]) == CashTotals(100.0, 0.0, 50.0, 0.0, 0.0, 20.0, 0.0, 0.0);
  }

  // ---------------------------------------------------------------------------------------
  // Listing and summary

  datatype ReportFilter = ReportFilter(status: Option<CashStatus>, startDate: Option<Time>, endDate: Option<Time>)

  predicate MatchesReport(r: CashReport, f: ReportFilter) {
    && (f.status.None? || r.status == f.status.value)
    && (f.startDate.None? || f.startDate.value <= r.date)
    && (f.endDate.None? || r.date <= f.endDate.value)
  }

  function ReportTest(f: ReportFilter): CashReport -> bool { r => MatchesReport(r, f) }

  /** `orderBy: { date: 'desc' }` as the ascending order of the negated date. */
  function DateDesc(r: CashReport): real { -(r.date as real) }

  /** What `list` returns: page `page` of the matching reports, newest date first (the
      reports after skipping `(page - 1) * limit` of them, at most `limit`), with the total and
      the page count. */
  ghost predicate IsReportPage(r: Result<Paged<CashReport>>, reports: seq<CashReport>, f: ReportFilter,
                               page: int, limit: int)
  {
    && (r.Ok? <==> page >= 1 && limit >= 1)
    && (r.Ok? ==>
          var total := CountWhere(reports, ReportTest(f));
          && r.value.total == total
          && r.value.page == page
          && r.value.totalPages == TotalPages(total, limit)
          && |r.value.items| == (if (page - 1) * limit >= total then 0
                                 else if (page - 1) * limit + limit <= total then limit
                                 else total - (page - 1) * limit)
          && (forall i, j :: 0 <= i < j < |r.value.items| ==> r.value.items[j].date <= r.value.items[i].date)
          && (forall x :: x in r.value.items ==> x in reports && MatchesReport(x, f))
          && exists ordered :: && SortedBy(ordered, DateDesc)
                               && multiset(ordered) == multiset(Select(reports, ReportTest(f)))
                               && r.value.items == Window(ordered, page, limit))
  }

  function List(db: Db, f: ReportFilter, page: int, limit: int): (r: Result<Paged<CashReport>>)
    reads db
    ensures IsReportPage(r, db.cashReports, f, page, limit)
  {
    ListIsPage(db.cashReports, f, page, limit);
    Paginate(SortBy(Select(db.cashReports, ReportTest(f)), DateDesc), page, limit)
  }

  lemma ListIsPage(reports: seq<CashReport>, f: ReportFilter, page: int, limit: int)
    ensures IsReportPage(Paginate(SortBy(Select(reports, ReportTest(f)), DateDesc), page, limit),
                         reports, f, page, limit)
  {
    var selected := Select(reports, ReportTest(f));
    var ordered := SortBy(selected, DateDesc);
    var r := Paginate(ordered, page, limit);
    if page >= 1 && limit >= 1 {
      var total := CountWhere(reports, ReportTest(f));
      assert |ordered| == total;
      var w := Window(ordered, page, limit);
      assert r.value.items == w && r.value.total == total;
      WindowSize(ordered, page, limit);
      SortByMembers(selected, DateDesc);
      WindowOfSorted(ordered, page, limit, DateDesc);
      forall i, j | 0 <= i < j < |w| ensures w[j].date <= w[i].date {
        assert DateDesc(w[i]) <= DateDesc(w[j]);
      }
      forall x | x in w ensures x in reports && MatchesReport(x, f) {
        assert x in ordered;
      }
      assert SortedBy(ordered, DateDesc) && multiset(ordered) == multiset(selected) && r.value.items == w;
    }
  }

  /** The period summary: income and expense totals, the cash, card and PIX buckets (the
      "other" buckets are not broken out), the net flow and the number of reports. */
  datatype Summary = Summary(
    totalIncome: Money, totalExpense: Money,
    cashIncome: Money, cardIncome: Money, pixIncome: Money,
    cashExpense: Money, cardExpense: Money, pixExpense: Money,
    netFlow: Money, daysCount: nat)

  predicate InDays(r: CashReport, start: Time, end: Time) { start <= r.date <= end }
  function InDaysTest(start: Time, end: Time): CashReport -> bool { r => InDays(r, start, end) }

  function SumReports(rs: seq<CashReport>, f: CashReport -> Money): Money {
    if |rs| == 0 then 0.0 else SumReports(rs[..|rs| - 1], f) + f(rs[|rs| - 1])
  }

  function TotalIncomeOf(r: CashReport): Money { r.totalIncome }
  function TotalExpenseOf(r: CashReport): Money { r.totalExpense }
  function BucketOfReport(b: Bucket): CashReport -> Money { (r: CashReport) => Field(r.totals, b) }

  /** The summary object before the net flow is filled in. */
  function Accumulated(rs: seq<CashReport>, daysCount: nat): Summary {
    Summary(SumReports(rs, TotalIncomeOf), SumReports(rs, TotalExpenseOf),
            SumReports(rs, BucketOfReport(CashIn)), SumReports(rs, BucketOfReport(CardIn)),
            SumReports(rs, BucketOfReport(PixIn)), SumReports(rs, BucketOfReport(CashOut)),
            SumReports(rs, BucketOfReport(CardOut)), SumReports(rs, BucketOfReport(PixOut)),
            0.0, daysCount)
  }

  /** `getSummary`: the per-report fields summed over the reports dated in the range. */
  method GetSummary(db: Db, start: Time, end: Time) returns (summary: Summary)
    ensures var rs := Select(db.cashReports, InDaysTest(start, end));
            && summary.daysCount == |rs|
            && summary == Accumulated(rs, |rs|).(netFlow := summary.totalIncome - summary.totalExpense)
  {
    var reports := Select(db.cashReports, InDaysTest(start, end));
    summary := Summary(0.0, 0.0, 0.0, 0.0, 0.0, 0.0, 0.0, 0.0, 0.0, |reports|);
    for i := 0 to |reports|
      invariant summary == Accumulated(reports[..i], |reports|)
    {
      var report := reports[i];
      assert reports[..i + 1][..i] == reports[..i];
      summary := summary.(totalIncome := summary.totalIncome + report.totalIncome,
                          totalExpense := summary.totalExpense + report.totalExpense,
                          cashIncome := summary.cashIncome + report.totals.cashIncome,
                          cardIncome := summary.cardIncome + report.totals.cardIncome,
                          pixIncome := summary.pixIncome + report.totals.pixIncome,
                          cashExpense := summary.cashExpense + report.totals.cashExpense,
                          cardExpense := summary.cardExpense + report.totals.cardExpense,
                          pixExpense := summary.pixExpense + report.totals.pixExpense);
    }
    assert reports[..|reports|] == reports;
    summary := summary.(netFlow := summary.totalIncome - summary.totalExpense);
  }

  /** Over balanced reports the summary's income is its cash, card and PIX parts plus the
      "other" buckets it does not show, and likewise for expense. */
  lemma {:induction false} SummaryBreakdown(rs: seq<CashReport>)
    requires AllBalanced(rs)
    ensures var s := Accumulated(rs, |rs|);
            && s.totalIncome == s.cashIncome + s.cardIncome + s.pixIncome + SumReports(rs, BucketOfReport(OtherIn))
            && s.totalExpense == s.cashExpense + s.cardExpense + s.pixExpense + SumReports(rs, BucketOfReport(OtherOut))
  {
    if |rs| > 0 {
      SummaryBreakdown(rs[..|rs| - 1]);
      assert Balanced(rs[|rs| - 1]);
    }
  }
}
