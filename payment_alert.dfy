/** The payment-alert generator: scans of the pending payables and receivables at the 0, 1,
    3 and 7 day horizons and for overdue accounts, each inserting an alert unless a matching
    one is already on file; the read and dismiss flags; unread counts; the paged list. */
module PaymentAlert {
  import opened Common
  import opened Store
  import opened Paging
  import opened Ledger

  // ---------------------------------------------------------------------------------------
  // Horizons

  /** The alert type and priority of each horizon, in days from today. */
  function HorizonAlert(days: int): (r: Option<(AlertType, Priority)>)
    ensures r.Some? <==> days in {0, 1, 3, 7}
  {
    if days == 0 then Some((DueToday, Urgent))
    else if days == 1 then Some((DueTomorrow, High))
    else if days == 3 then Some((DueIn3Days, Medium))
    else if days == 7 then Some((DueIn7Days, Low))
    else None
  }

  function Rank(p: Priority): int {
    match p
    case Low => 0
    case Medium => 1
    case High => 2
    case Urgent => 3
  }

  /** Each horizon has its own alert type, none of them OVERDUE, and a nearer horizon never
      has a lower priority. */
  lemma HorizonMapping()
    ensures forall d1, d2 :: d1 in {0, 1, 3, 7} && d2 in {0, 1, 3, 7} && d1 != d2 ==>
              HorizonAlert(d1).value.0 != HorizonAlert(d2).value.0
    ensures forall d :: d in {0, 1, 3, 7} ==> HorizonAlert(d).value.0 != OverdueAlert
    ensures forall d1, d2 :: d1 in {0, 1, 3, 7} && d2 in {0, 1, 3, 7} && d1 <= d2 ==>
              Rank(HorizonAlert(d2).value.1) <= Rank(HorizonAlert(d1).value.1)
  {
  }

  // ---------------------------------------------------------------------------------------
  // One scan

  /** The account an alert row points at (`accountsPayableId` or `accountsReceivableId`). */
  function RefOf(payable: bool, id: int): AccountRef {
    if payable then PayableRef(id) else ReceivableRef(id)
  }

  predicate Covers(x: Alert, ref: AccountRef, alertType: AlertType, since: Time) {
    x.account == ref && x.alertType == alertType && x.alertDate >= since
  }

  /** `findFirst` of an alert for the account, of the type, dated at or after `since`. */
  function AlertExists(alerts: seq<Alert>, ref: AccountRef, alertType: AlertType, since: Time): (b: bool)
    ensures b <==> exists k :: 0 <= k < |alerts| && Covers(alerts[k], ref, alertType, since)
  {
    if |alerts| == 0 then false
    else AlertExists(alerts[..|alerts| - 1], ref, alertType, since)
         || Covers(alerts[|alerts| - 1], ref, alertType, since)
  }

  /** The alert a scan inserts: stamped now, copying the account's due date and amount,
      unread and not dismissed. */
  function NewAlert(id: int, ref: AccountRef, a: Account, alertType: AlertType, priority: Priority, now: Time): (x: Alert)
    ensures forall since :: since <= now ==> Covers(x, ref, alertType, since)
    ensures !x.read && x.readAt.None? && !x.dismissed
    ensures x.dueDate == a.dueDate && x.amount == a.amount && x.priority == priority
  {
    Alert(id, ref, now, a.dueDate, a.amount, alertType, priority, false, None, false)
  }

  /** The alert table after a scan visits `accounts` in order; `ScanAppends` states what it
      adds. */
  function Scan(alerts: seq<Alert>, accounts: seq<Account>, payable: bool, alertType: AlertType,
                priority: Priority, since: Time, now: Time): seq<Alert>
  {
    if |accounts| == 0 then alerts
    else Visit(Scan(alerts, accounts[..|accounts| - 1], payable, alertType, priority, since, now),
               accounts[|accounts| - 1], payable, alertType, priority, since, now)
  }

  /** What visiting one account does to the alert table. */
  function Visit(prev: seq<Alert>, a: Account, payable: bool, alertType: AlertType,
                 priority: Priority, since: Time, now: Time): seq<Alert>
  {
    if AlertExists(prev, RefOf(payable, a.id), alertType, since) then prev
    else prev + [NewAlert(|prev| + 1, RefOf(payable, a.id), a, alertType, priority, now)]
  }

  /** Row `x` is an alert a scan appended at position `k` for one of `accounts`: it carries the
      row-number id `k + 1`, the scan's type and priority, the stamp `now`, is unread and not
      dismissed, and copies that account's due date and amount. */
  ghost predicate Stamped(x: Alert, k: int, accounts: seq<Account>, payable: bool, alertType: AlertType,
                          priority: Priority, now: Time)
  {
    && x.id == k + 1 && x.alertType == alertType && x.priority == priority
    && x.alertDate == now && !x.read && x.readAt.None? && !x.dismissed
    && exists a :: a in accounts && x == NewAlert(k + 1, RefOf(payable, a.id), a, alertType, priority, now)
  }

  lemma StampedWider(x: Alert, k: int, init: seq<Account>, accounts: seq<Account>, payable: bool,
                     alertType: AlertType, priority: Priority, now: Time)
    requires Stamped(x, k, init, payable, alertType, priority, now)
    requires forall a :: a in init ==> a in accounts
    ensures Stamped(x, k, accounts, payable, alertType, priority, now)
  {
    var a :| a in init && x == NewAlert(k + 1, RefOf(payable, a.id), a, alertType, priority, now);
    assert a in accounts;
  }

  /** A scan only appends, at most one alert per account, and every alert it appends is
      stamped for one of the scanned accounts. */
  lemma {:induction false} ScanAppends(alerts: seq<Alert>, accounts: seq<Account>, payable: bool,
                                       alertType: AlertType, priority: Priority, since: Time, now: Time)
    ensures var r := Scan(alerts, accounts, payable, alertType, priority, since, now);
            && |alerts| <= |r| <= |alerts| + |accounts|
            && r[..|alerts|] == alerts
            && forall k :: |alerts| <= k < |r| ==> Stamped(r[k], k, accounts, payable, alertType, priority, now)
  {
    if |accounts| > 0 {
      var init := accounts[..|accounts| - 1];
      var last := accounts[|accounts| - 1];
      ScanAppends(alerts, init, payable, alertType, priority, since, now);
      var prev := Scan(alerts, init, payable, alertType, priority, since, now);
      assert Scan(alerts, accounts, payable, alertType, priority, since, now)
             == Visit(prev, last, payable, alertType, priority, since, now);
      assert accounts == init + [last];
      VisitAppends(alerts, prev, init, last, payable, alertType, priority, since, now);
    }
  }

  /** The step of `ScanAppends`: visiting one more account keeps the appended rows stamped. */
  lemma VisitAppends(alerts: seq<Alert>, prev: seq<Alert>, init: seq<Account>, last: Account, payable: bool,
                     alertType: AlertType, priority: Priority, since: Time, now: Time)
    requires |alerts| <= |prev| <= |alerts| + |init| && prev[..|alerts|] == alerts
    requires forall k :: |alerts| <= k < |prev| ==> Stamped(prev[k], k, init, payable, alertType, priority, now)
    ensures var r := Visit(prev, last, payable, alertType, priority, since, now);
            && |alerts| <= |r| <= |alerts| + |init + [last]|
            && r[..|alerts|] == alerts
            && forall k :: |alerts| <= k < |r| ==> Stamped(r[k], k, init + [last], payable, alertType, priority, now)
  {
    var accounts := init + [last];
    var r := Visit(prev, last, payable, alertType, priority, since, now);
    assert forall a :: a in init ==> a in accounts;
    forall k | |alerts| <= k < |prev| ensures Stamped(prev[k], k, accounts, payable, alertType, priority, now) {
      StampedWider(prev[k], k, init, accounts, payable, alertType, priority, now);
    }
    if !AlertExists(prev, RefOf(payable, last.id), alertType, since) {
      var x := NewAlert(|prev| + 1, RefOf(payable, last.id), last, alertType, priority, now);
      assert r == prev + [x];
      assert last in accounts;
      assert Stamped(x, |prev|, accounts, payable, alertType, priority, now);
      forall k | |alerts| <= k < |r| ensures Stamped(r[k], k, accounts, payable, alertType, priority, now) {
        if k < |prev| {
          assert r[k] == prev[k];
        }
      }
      assert r[..|alerts|] == prev[..|alerts|];
    }
  }

  /** An alert on file stays on file as the table grows. */
  lemma AlertExistsPrefix(alerts: seq<Alert>, more: seq<Alert>, ref: AccountRef, alertType: AlertType, since: Time)
    requires AlertExists(alerts, ref, alertType, since)
    ensures AlertExists(alerts + more, ref, alertType, since)
  {
    var k :| 0 <= k < |alerts| && Covers(alerts[k], ref, alertType, since);
    assert (alerts + more)[k] == alerts[k];
  }

  lemma AlertExistsExtends(alerts: seq<Alert>, r: seq<Alert>, ref: AccountRef, alertType: AlertType, since: Time)
    requires |alerts| <= |r| && r[..|alerts|] == alerts
    requires AlertExists(alerts, ref, alertType, since)
    ensures AlertExists(r, ref, alertType, since)
  {
    assert r == alerts + r[|alerts|..];
    AlertExistsPrefix(alerts, r[|alerts|..], ref, alertType, since);
  }

  /** Every account in `accounts` has an alert of the type dated at or after `since`. */
  predicate Covered(alerts: seq<Alert>, accounts: seq<Account>, payable: bool, alertType: AlertType, since: Time) {
    forall a :: a in accounts ==> AlertExists(alerts, RefOf(payable, a.id), alertType, since)
  }

  /** After a scan whose check time is not after `now`, every scanned account has an alert of
      the type dated at or after the check time. */
  lemma {:induction false} ScanCovers(alerts: seq<Alert>, accounts: seq<Account>, payable: bool,
                                      alertType: AlertType, priority: Priority, since: Time, now: Time)
    requires since <= now
    ensures Covered(Scan(alerts, accounts, payable, alertType, priority, since, now), accounts, payable, alertType, since)
  {
    if |accounts| > 0 {
      var init, last := accounts[..|accounts| - 1], accounts[|accounts| - 1];
      ScanCovers(alerts, init, payable, alertType, priority, since, now);
      var prev := Scan(alerts, init, payable, alertType, priority, since, now);
      var r := Scan(alerts, accounts, payable, alertType, priority, since, now);
      assert |prev| <= |r| && r[..|prev|] == prev;
      forall a | a in accounts ensures AlertExists(r, RefOf(payable, a.id), alertType, since) {
        if a in init {
          AlertExistsExtends(prev, r, RefOf(payable, a.id), alertType, since);
        } else {
          assert a == last;
          if !AlertExists(prev, RefOf(payable, a.id), alertType, since) {
            assert Covers(r[|prev|], RefOf(payable, a.id), alertType, since);
          }
        }
      }
    }
  }

  /** A scan over accounts that all have a matching alert already changes nothing. */
  lemma {:induction false} ScanNoop(alerts: seq<Alert>, accounts: seq<Account>, payable: bool,
                                    alertType: AlertType, priority: Priority, since: Time, now: Time)
    requires Covered(alerts, accounts, payable, alertType, since)
    ensures Scan(alerts, accounts, payable, alertType, priority, since, now) == alerts
  {
    if |accounts| > 0 {
      ScanNoop(alerts, accounts[..|accounts| - 1], payable, alertType, priority, since, now);
      assert accounts[|accounts| - 1] in accounts;
    }
  }

  /** An alert dated at or after a check time is dated at or after any earlier one. */
  lemma AlertExistsEarlier(alerts: seq<Alert>, ref: AccountRef, alertType: AlertType, since: Time, earlier: Time)
    requires earlier <= since && AlertExists(alerts, ref, alertType, since)
    ensures AlertExists(alerts, ref, alertType, earlier)
  {
    var k :| 0 <= k < |alerts| && Covers(alerts[k], ref, alertType, since);
    assert Covers(alerts[k], ref, alertType, earlier);
  }

  /** Repeating a scan adds nothing when its check time is no later than the first run's check
      time, which in turn is no later than the first run's clock. The overdue scans (check
      time: today's midnight) therefore add nothing on a second run the same day; the horizon
      scans (check time: the clock) only when the clock has not moved. */
  lemma ScanRepeat(alerts: seq<Alert>, accounts: seq<Account>, payable: bool, alertType: AlertType,
                   priority: Priority, since1: Time, now1: Time, since2: Time, now2: Time)
    requires since2 <= since1 <= now1
    ensures var once := Scan(alerts, accounts, payable, alertType, priority, since1, now1);
            Scan(once, accounts, payable, alertType, priority, since2, now2) == once
  {
    var once := Scan(alerts, accounts, payable, alertType, priority, since1, now1);
    ScanCovers(alerts, accounts, payable, alertType, priority, since1, now1);
    forall a | a in accounts ensures AlertExists(once, RefOf(payable, a.id), alertType, since2) {
      AlertExistsEarlier(once, RefOf(payable, a.id), alertType, since1, since2);
    }
    ScanNoop(once, accounts, payable, alertType, priority, since2, now2);
  }

  /** The horizon check compares stored alert times against a newer clock: an account with no
      alert of the type is alerted again by a second scan at any later instant. */
  lemma HorizonScanRepeatsLater(alerts: seq<Alert>, a: Account, payable: bool, alertType: AlertType,
                                priority: Priority, now1: Time, now2: Time)
    requires now1 < now2
    requires !AlertExists(alerts, RefOf(payable, a.id), alertType, now1)
    ensures var once := Scan(alerts, [a], payable, alertType, priority, now1, now1);
            var twice := Scan(once, [a], payable, alertType, priority, now2, now2);
            |once| == |alerts| + 1 && |twice| == |alerts| + 2
            && twice[|alerts|].account == twice[|alerts| + 1].account == RefOf(payable, a.id)
  {
    var ref := RefOf(payable, a.id);
    ScanOne(alerts, a, payable, alertType, priority, now1, now1);
    var once := alerts + [NewAlert(|alerts| + 1, ref, a, alertType, priority, now1)];
    forall k | 0 <= k < |once| ensures !Covers(once[k], ref, alertType, now2) {
      if k < |alerts| {
        assert !Covers(alerts[k], ref, alertType, now1);
      }
    }
    ScanOne(once, a, payable, alertType, priority, now2, now2);
  }

  /** Scanning a single account without a covering alert appends exactly its alert. */
  lemma ScanOne(alerts: seq<Alert>, a: Account, payable: bool, alertType: AlertType,
                priority: Priority, since: Time, now: Time)
    requires !AlertExists(alerts, RefOf(payable, a.id), alertType, since)
    ensures Scan(alerts, [a], payable, alertType, priority, since, now)
            == alerts + [NewAlert(|alerts| + 1, RefOf(payable, a.id), a, alertType, priority, now)]
  {
    assert [a][..0] == [];
  }

  /** A scan whose check time is not after `now` alerts each account at most once. */
  lemma {:induction false} ScanOncePerAccount(alerts: seq<Alert>, accounts: seq<Account>, payable: bool,
                                              alertType: AlertType, priority: Priority, since: Time, now: Time)
    requires since <= now
    ensures var r := Scan(alerts, accounts, payable, alertType, priority, since, now);
            forall i, j :: |alerts| <= i < j < |r| ==> r[i].account != r[j].account
  {
    if |accounts| > 0 {
      var init := accounts[..|accounts| - 1];
      ScanOncePerAccount(alerts, init, payable, alertType, priority, since, now);
      ScanAppends(alerts, init, payable, alertType, priority, since, now);
      var prev := Scan(alerts, init, payable, alertType, priority, since, now);
      VisitOnce(alerts, prev, init, accounts[|accounts| - 1], payable, alertType, priority, since, now);
    }
  }

  /** The step of `ScanOncePerAccount`: visiting one more account adds no second alert for an
      account already alerted by the scan. */
  lemma VisitOnce(alerts: seq<Alert>, prev: seq<Alert>, init: seq<Account>, last: Account, payable: bool,
                  alertType: AlertType, priority: Priority, since: Time, now: Time)
    requires since <= now && |alerts| <= |prev|
    requires forall k :: |alerts| <= k < |prev| ==> Stamped(prev[k], k, init, payable, alertType, priority, now)
    requires forall i, j :: |alerts| <= i < j < |prev| ==> prev[i].account != prev[j].account
    ensures var r := Visit(prev, last, payable, alertType, priority, since, now);
            forall i, j :: |alerts| <= i < j < |r| ==> r[i].account != r[j].account
  {
    var r := Visit(prev, last, payable, alertType, priority, since, now);
    var ref := RefOf(payable, last.id);
    if !AlertExists(prev, ref, alertType, since) {
      var x := NewAlert(|prev| + 1, ref, last, alertType, priority, now);
      assert r == prev + [x];
      forall i | |alerts| <= i < |prev| ensures prev[i].account != x.account {
        assert !Covers(prev[i], ref, alertType, since);
      }
      forall i, j | |alerts| <= i < j < |r| ensures r[i].account != r[j].account {
        assert r[i] == prev[i];
        if j < |prev| {
          assert r[j] == prev[j];
        }
      }
    }
  }

  lemma ScanStep(alerts: seq<Alert>, accounts: seq<Account>, i: nat, payable: bool, alertType: AlertType,
                 priority: Priority, since: Time, now: Time)
    requires i < |accounts|
    ensures Scan(alerts, accounts[..i + 1], payable, alertType, priority, since, now)
            == Visit(Scan(alerts, accounts[..i], payable, alertType, priority, since, now),
                     accounts[i], payable, alertType, priority, since, now)
  {
    var visited := accounts[..i + 1];
    assert |visited| == i + 1 && visited[..i] == accounts[..i] && visited[i] == accounts[i];
  }

  /** A scan keeps the alert ids the row numbers of the table. */
  lemma ScanRowNumbers(alerts: seq<Alert>, accounts: seq<Account>, payable: bool, alertType: AlertType,
                       priority: Priority, since: Time, now: Time)
    requires IdsAreRowNumbers(alerts, AlertId)
    ensures IdsAreRowNumbers(Scan(alerts, accounts, payable, alertType, priority, since, now), AlertId)
  {
    var r := Scan(alerts, accounts, payable, alertType, priority, since, now);
    ScanAppends(alerts, accounts, payable, alertType, priority, since, now);
    forall k | 0 <= k < |alerts| ensures r[k].id == k + 1 {
      assert r[k] == r[..|alerts|][k];
    }
  }

  /** The scanning loop: `for (const account of accounts) { if (!existing) create }`, each
      create appending to the alerts seen by the next iteration's check. */
  method ScanLoop(start: seq<Alert>, accounts: seq<Account>, payable: bool, alertType: AlertType,
                  priority: Priority, since: Time, now: Time) returns (alerts: seq<Alert>)
    ensures alerts == Scan(start, accounts, payable, alertType, priority, since, now)
  {
    alerts := start;
    for i := 0 to |accounts|
      invariant alerts == Scan(start, accounts[..i], payable, alertType, priority, since, now)
    {
      var account := accounts[i];
      var ref := RefOf(payable, account.id);
      ScanStep(start, accounts, i, payable, alertType, priority, since, now);
      if !AlertExists(alerts, ref, alertType, since) {
        alerts := alerts + [NewAlert(|alerts| + 1, ref, account, alertType, priority, now)];
      }
    }
    assert accounts[..|accounts|] == accounts;
  }

  /** One scan against the store's alert table. */
  method InsertMissingAlerts(db: Db, accounts: seq<Account>, payable: bool, alertType: AlertType,
                             priority: Priority, since: Time, now: Time)
    requires db.Valid()
    modifies db`alerts
    ensures db.Valid()
    ensures db.alerts == Scan(old(db.alerts), accounts, payable, alertType, priority, since, now)
  {
    var alerts := ScanLoop(db.alerts, accounts, payable, alertType, priority, since, now);
    ScanRowNumbers(db.alerts, accounts, payable, alertType, priority, since, now);
    db.alerts := alerts;
  }

  // ---------------------------------------------------------------------------------------
  // The scanners and the generator

  /** Due on the day starting at `day`: `dueDate >= day && dueDate < day + 24h`. */
  predicate DueOn(a: Account, day: Time) {
    a.status == Pending && day <= a.dueDate < day + DayMs
  }

  function DueOnTest(day: Time): Account -> bool { a => DueOn(a, day) }

  /** `createAlertsForPayables(day, type, priority)`: the check time is the clock. */
  method CreateAlertsForPayables(db: Db, day: Time, alertType: AlertType, priority: Priority, now: Time)
    requires db.Valid()
    modifies db`alerts
    ensures db.Valid()
    ensures db.alerts == Scan(old(db.alerts), Select(db.payables, DueOnTest(day)), true, alertType, priority, now, now)
  {
    InsertMissingAlerts(db, Select(db.payables, DueOnTest(day)), true, alertType, priority, now, now);
  }

  /** `createOverdueAlerts`: the check time is today's midnight. */
  method CreateOverdueAlerts(db: Db, today: Time, now: Time)
    requires db.Valid()
    modifies db`alerts
    ensures db.Valid()
    ensures db.alerts == Scan(old(db.alerts), Select(db.payables, OverdueTest(today)), true, OverdueAlert, Urgent, today, now)
  {
    InsertMissingAlerts(db, Select(db.payables, OverdueTest(today)), true, OverdueAlert, Urgent, today, now);
  }

  /** `createAlertsForReceivables(day, type, priority)`. */
  method CreateAlertsForReceivables(db: Db, day: Time, alertType: AlertType, priority: Priority, now: Time)
    requires db.Valid()
    modifies db`alerts
    ensures db.Valid()
    ensures db.alerts == Scan(old(db.alerts), Select(db.receivables, DueOnTest(day)), false, alertType, priority, now, now)
  {
    InsertMissingAlerts(db, Select(db.receivables, DueOnTest(day)), false, alertType, priority, now, now);
  }

  /** `createOverdueReceivablesAlerts`. */
  method CreateOverdueReceivablesAlerts(db: Db, today: Time, now: Time)
    requires db.Valid()
    modifies db`alerts
    ensures db.Valid()
    ensures db.alerts == Scan(old(db.alerts), Select(db.receivables, OverdueTest(today)), false, OverdueAlert, Urgent, today, now)
  {
    InsertMissingAlerts(db, Select(db.receivables, OverdueTest(today)), false, OverdueAlert, Urgent, today, now);
  }

  /** The scan of the accounts of one ledger due `days` ahead, with the type and priority
      the horizon table gives that many days. */
  function HorizonScan(alerts: seq<Alert>, rows: seq<Account>, payable: bool, today: Time, now: Time, days: int): seq<Alert>
    requires days in {0, 1, 3, 7}
  {
    var (alertType, priority) := HorizonAlert(days).value;
    Scan(alerts, Select(rows, DueOnTest(today + days * DayMs)), payable, alertType, priority, now, now)
  }

  /** The horizon scans and the overdue scan of one ledger, in the generator's order. */
  function LedgerScans(alerts: seq<Alert>, rows: seq<Account>, payable: bool, today: Time, now: Time): seq<Alert> {
    var a0 := HorizonScan(alerts, rows, payable, today, now, 0);
    var a1 := HorizonScan(a0, rows, payable, today, now, 1);
    var a3 := HorizonScan(a1, rows, payable, today, now, 3);
    var a7 := HorizonScan(a3, rows, payable, today, now, 7);
    Scan(a7, Select(rows, OverdueTest(today)), payable, OverdueAlert, Urgent, today, now)
  }

  /** The alert table after `generateAlertsForDueAccounts`: payables first, then receivables. */
  function Generated(alerts: seq<Alert>, payables: seq<Account>, receivables: seq<Account>, today: Time, now: Time): seq<Alert> {
    LedgerScans(LedgerScans(alerts, payables, true, today, now), receivables, false, today, now)
  }

  /** `generateAlertsForDueAccounts`: the four horizons and the overdue scan, for payables and
      then for receivables, all at one clock reading `now` whose midnight is `today`. */
  method GenerateAlertsForDueAccounts(db: Db, today: Time, now: Time)
    requires db.Valid()
    modifies db`alerts
    ensures db.Valid()
    ensures db.alerts == Generated(old(db.alerts), db.payables, db.receivables, today, now)
  {
    ghost var a := db.alerts;
    CreateAlertsForPayables(db, today, DueToday, Urgent, now);
    assert db.alerts == HorizonScan(a, db.payables, true, today, now, 0);
    CreateAlertsForPayables(db, today + DayMs, DueTomorrow, High, now);
    assert db.alerts == HorizonScan(HorizonScan(a, db.payables, true, today, now, 0), db.payables, true, today, now, 1);
    CreateAlertsForPayables(db, today + 3 * DayMs, DueIn3Days, Medium, now);
    assert db.alerts == HorizonScan(HorizonScan(HorizonScan(a, db.payables, true, today, now, 0), db.payables, true, today, now, 1), db.payables, true, today, now, 3);
    CreateAlertsForPayables(db, today + 7 * DayMs, DueIn7Days, Low, now);
    CreateOverdueAlerts(db, today, now);
    assert db.alerts == LedgerScans(a, db.payables, true, today, now);
    ghost var b := db.alerts;
    CreateAlertsForReceivables(db, today, DueToday, Urgent, now);
    assert db.alerts == HorizonScan(b, db.receivables, false, today, now, 0);
    CreateAlertsForReceivables(db, today + DayMs, DueTomorrow, High, now);
    assert db.alerts == HorizonScan(HorizonScan(b, db.receivables, false, today, now, 0), db.receivables, false, today, now, 1);
    CreateAlertsForReceivables(db, today + 3 * DayMs, DueIn3Days, Medium, now);
    assert db.alerts == HorizonScan(HorizonScan(HorizonScan(b, db.receivables, false, today, now, 0), db.receivables, false, today, now, 1), db.receivables, false, today, now, 3);
    CreateAlertsForReceivables(db, today + 7 * DayMs, DueIn7Days, Low, now);
    CreateOverdueReceivablesAlerts(db, today, now);
    assert db.alerts == LedgerScans(b, db.receivables, false, today, now);
  }

  predicate Extends(alerts: seq<Alert>, r: seq<Alert>) {
    |alerts| <= |r| && r[..|alerts|] == alerts
  }

  lemma ExtendsTransitive(a: seq<Alert>, b: seq<Alert>, c: seq<Alert>)
    requires Extends(a, b) && Extends(b, c)
    ensures Extends(a, c)
  {
    assert c[..|b|][..|a|] == c[..|a|];
  }

  /** Coverage survives any later growth of the table. */
  lemma CoveredExtends(alerts: seq<Alert>, r: seq<Alert>, accounts: seq<Account>, payable: bool,
                       alertType: AlertType, since: Time)
    requires Extends(alerts, r) && Covered(alerts, accounts, payable, alertType, since)
    ensures Covered(r, accounts, payable, alertType, since)
  {
    forall a | a in accounts ensures AlertExists(r, RefOf(payable, a.id), alertType, since) {
      AlertExistsExtends(alerts, r, RefOf(payable, a.id), alertType, since);
    }
  }

  /** One scan inside a chain of scans: the table it leaves is covered, and so is any table
      later scans grow from it. */
  lemma ScanStage(alerts: seq<Alert>, accounts: seq<Account>, payable: bool, alertType: AlertType,
                  priority: Priority, since: Time, now: Time)
    requires since <= now
    ensures var r := Scan(alerts, accounts, payable, alertType, priority, since, now);
            Extends(alerts, r) && Covered(r, accounts, payable, alertType, since)
  {
    ScanAppends(alerts, accounts, payable, alertType, priority, since, now);
    ScanCovers(alerts, accounts, payable, alertType, priority, since, now);
  }

  /** The five scans of one ledger have all done their work on `r`: every pending account due
      on each horizon day has an alert of that horizon's type stamped at or after the clock,
      and every overdue one an OVERDUE alert stamped today or later. */
  predicate LedgerCovered(r: seq<Alert>, rows: seq<Account>, payable: bool, today: Time, now: Time) {
    && Covered(r, Select(rows, DueOnTest(today)), payable, DueToday, now)
    && Covered(r, Select(rows, DueOnTest(today + DayMs)), payable, DueTomorrow, now)
    && Covered(r, Select(rows, DueOnTest(today + 3 * DayMs)), payable, DueIn3Days, now)
    && Covered(r, Select(rows, DueOnTest(today + 7 * DayMs)), payable, DueIn7Days, now)
    && Covered(r, Select(rows, OverdueTest(today)), payable, OverdueAlert, today)
  }

  lemma LedgerCoveredExtends(alerts: seq<Alert>, r: seq<Alert>, rows: seq<Account>, payable: bool, today: Time, now: Time)
    requires Extends(alerts, r) && LedgerCovered(alerts, rows, payable, today, now)
    ensures LedgerCovered(r, rows, payable, today, now)
  {
    CoveredExtends(alerts, r, Select(rows, DueOnTest(today)), payable, DueToday, now);
    CoveredExtends(alerts, r, Select(rows, DueOnTest(today + DayMs)), payable, DueTomorrow, now);
    CoveredExtends(alerts, r, Select(rows, DueOnTest(today + 3 * DayMs)), payable, DueIn3Days, now);
    CoveredExtends(alerts, r, Select(rows, DueOnTest(today + 7 * DayMs)), payable, DueIn7Days, now);
    CoveredExtends(alerts, r, Select(rows, OverdueTest(today)), payable, OverdueAlert, today);
  }

  /** After one ledger's scans, at a clock reading not before today's midnight, the table
      has only grown and the ledger is covered. */
  lemma LedgerScansCover(alerts: seq<Alert>, rows: seq<Account>, payable: bool, today: Time, now: Time)
    requires today <= now
    ensures var r := LedgerScans(alerts, rows, payable, today, now);
            Extends(alerts, r) && LedgerCovered(r, rows, payable, today, now)
  {
    var s0, s1 := Select(rows, DueOnTest(today)), Select(rows, DueOnTest(today + DayMs));
    var s3, s7 := Select(rows, DueOnTest(today + 3 * DayMs)), Select(rows, DueOnTest(today + 7 * DayMs));
    var so := Select(rows, OverdueTest(today));
    var a0 := Scan(alerts, s0, payable, DueToday, Urgent, now, now);
    var a1 := Scan(a0, s1, payable, DueTomorrow, High, now, now);
    var a3 := Scan(a1, s3, payable, DueIn3Days, Medium, now, now);
    var a7 := Scan(a3, s7, payable, DueIn7Days, Low, now, now);
    var r := Scan(a7, so, payable, OverdueAlert, Urgent, today, now);
    ScanStage(alerts, s0, payable, DueToday, Urgent, now, now);
    ScanStage(a0, s1, payable, DueTomorrow, High, now, now);
    ScanStage(a1, s3, payable, DueIn3Days, Medium, now, now);
    ScanStage(a3, s7, payable, DueIn7Days, Low, now, now);
    ScanStage(a7, so, payable, OverdueAlert, Urgent, today, now);
    ExtendsTransitive(a3, a7, r);
    ExtendsTransitive(a1, a3, r);
    ExtendsTransitive(a0, a1, r);
    ExtendsTransitive(alerts, a0, r);
    CoveredExtends(a0, r, s0, payable, DueToday, now);
    CoveredExtends(a1, r, s1, payable, DueTomorrow, now);
    CoveredExtends(a3, r, s3, payable, DueIn3Days, now);
    CoveredExtends(a7, r, s7, payable, DueIn7Days, now);
  }

  /** Scans over a covered ledger change nothing. */
  lemma LedgerScansNoop(alerts: seq<Alert>, rows: seq<Account>, payable: bool, today: Time, now: Time)
    requires LedgerCovered(alerts, rows, payable, today, now)
    ensures LedgerScans(alerts, rows, payable, today, now) == alerts
  {
    ScanNoop(alerts, Select(rows, DueOnTest(today)), payable, DueToday, Urgent, now, now);
    ScanNoop(alerts, Select(rows, DueOnTest(today + DayMs)), payable, DueTomorrow, High, now, now);
    ScanNoop(alerts, Select(rows, DueOnTest(today + 3 * DayMs)), payable, DueIn3Days, Medium, now, now);
    ScanNoop(alerts, Select(rows, DueOnTest(today + 7 * DayMs)), payable, DueIn7Days, Low, now, now);
    ScanNoop(alerts, Select(rows, OverdueTest(today)), payable, OverdueAlert, Urgent, today, now);
  }

  /** After `generateAlertsForDueAccounts` at a clock reading not before today's midnight,
      the table has only grown and both ledgers are covered. */
  lemma GenerateCovers(alerts: seq<Alert>, payables: seq<Account>, receivables: seq<Account>, today: Time, now: Time)
    requires today <= now
    ensures var r := Generated(alerts, payables, receivables, today, now);
            && Extends(alerts, r)
            && LedgerCovered(r, payables, true, today, now)
            && LedgerCovered(r, receivables, false, today, now)
  {
    var p := LedgerScans(alerts, payables, true, today, now);
    var r := LedgerScans(p, receivables, false, today, now);
    LedgerScansCover(alerts, payables, true, today, now);
    LedgerScansCover(p, receivables, false, today, now);
    LedgerCoveredExtends(p, r, payables, true, today, now);
    ExtendsTransitive(alerts, p, r);
  }

  /** Running the whole generator twice at one clock reading adds nothing the second time. */
  lemma GenerateRepeat(alerts: seq<Alert>, payables: seq<Account>, receivables: seq<Account>, today: Time, now: Time)
    requires today <= now
    ensures var once := Generated(alerts, payables, receivables, today, now);
            Generated(once, payables, receivables, today, now) == once
  {
    var once := Generated(alerts, payables, receivables, today, now);
    GenerateCovers(alerts, payables, receivables, today, now);
    LedgerScansNoop(once, payables, true, today, now);
    LedgerScansNoop(once, receivables, false, today, now);
  }

  // ---------------------------------------------------------------------------------------
  // Flags and counts

  function MarkRead(x: Alert, now: Time): Alert { x.(read := true, readAt := Some(now)) }
  function Dismissed(x: Alert): Alert { x.(dismissed := true) }

  /** `markAsRead`: sets the read flag and time; a missing id fails in the store. */
  method MarkAsRead(db: Db, id: int, now: Time) returns (r: Result<Alert>)
    requires db.Valid()
    modifies db`alerts
    ensures db.Valid()
    ensures var i := IndexOf(old(db.alerts), id, AlertId);
            && (i.None? ==> r == Err(RecordNotFound) && db.alerts == old(db.alerts))
            && (i.Some? ==> r == Ok(MarkRead(old(db.alerts)[i.value], now))
                            && db.alerts == old(db.alerts)[i.value := r.value])
  {
    var i := IndexOf(db.alerts, id, AlertId);
    if i.None? {
      return Err(RecordNotFound);
    }
    var updated := MarkRead(db.alerts[i.value], now);
    db.alerts := db.alerts[i.value := updated];
    r := Ok(updated);
  }

  /** `dismiss`: sets the dismissed flag; a missing id fails in the store. */
  method Dismiss(db: Db, id: int) returns (r: Result<Alert>)
    requires db.Valid()
    modifies db`alerts
    ensures db.Valid()
    ensures var i := IndexOf(old(db.alerts), id, AlertId);
            && (i.None? ==> r == Err(RecordNotFound) && db.alerts == old(db.alerts))
            && (i.Some? ==> r == Ok(Dismissed(old(db.alerts)[i.value]))
                            && db.alerts == old(db.alerts)[i.value := r.value])
  {
    var i := IndexOf(db.alerts, id, AlertId);
    if i.None? {
      return Err(RecordNotFound);
    }
    var updated := Dismissed(db.alerts[i.value]);
    db.alerts := db.alerts[i.value := updated];
    r := Ok(updated);
  }

  predicate Unread(x: Alert) { !x.read && !x.dismissed }
  function UnreadTest(): Alert -> bool { x => Unread(x) }
  predicate UnreadWith(x: Alert, p: Priority) { Unread(x) && x.priority == p }
  function UnreadWithTest(p: Priority): Alert -> bool { x => UnreadWith(x, p) }

  /** `getUnreadCount`: alerts neither read nor dismissed. */
  function UnreadCount(alerts: seq<Alert>): (n: nat)
    ensures n <= |alerts|
    ensures n == |Select(alerts, UnreadTest())|
  {
    CountWhere(alerts, UnreadTest())
  }

  /** Reading or dismissing an alert takes it out of the unread count exactly when it was
      unread; doing it again changes nothing more than the read time; and the rest of the
      alert is untouched. */
  lemma FlagsLeaveUnread(alerts: seq<Alert>, i: nat, now: Time, later: Time)
    requires i < |alerts|
    ensures UnreadCount(alerts[i := MarkRead(alerts[i], now)]) == UnreadCount(alerts) - (if Unread(alerts[i]) then 1 else 0)
    ensures UnreadCount(alerts[i := Dismissed(alerts[i])]) == UnreadCount(alerts) - (if Unread(alerts[i]) then 1 else 0)
    ensures MarkRead(MarkRead(alerts[i], now), later) == MarkRead(alerts[i], later)
    ensures Dismissed(Dismissed(alerts[i])) == Dismissed(alerts[i])
    ensures MarkRead(alerts[i], now).(read := alerts[i].read, readAt := alerts[i].readAt) == alerts[i]
    ensures Dismissed(alerts[i]).(dismissed := alerts[i].dismissed) == alerts[i]
  {
    CountWhereUpdate(alerts, i, MarkRead(alerts[i], now), UnreadTest());
    CountWhereUpdate(alerts, i, Dismissed(alerts[i]), UnreadTest());
  }

  /** `getAlertsByPriority`: the unread alerts counted per priority; a priority without
      unread alerts has no entry. */
  function AlertsByPriority(alerts: seq<Alert>): (m: map<Priority, nat>)
    ensures forall p :: p in m <==> CountWhere(alerts, UnreadWithTest(p)) > 0
    ensures forall p :: p in m ==> m[p] == CountWhere(alerts, UnreadWithTest(p))
  {
    map p: Priority | CountWhere(alerts, UnreadWithTest(p)) > 0
          :: CountWhere(alerts, UnreadWithTest(p))
  }

  function CountOf(m: map<Priority, nat>, p: Priority): nat {
    if p in m then m[p] else 0
  }

  /** The per-priority counts add up to the unread count. */
  lemma PriorityCountsSum(alerts: seq<Alert>)
    ensures var m := AlertsByPriority(alerts);
            CountOf(m, Low) + CountOf(m, Medium) + CountOf(m, High) + CountOf(m, Urgent) == UnreadCount(alerts)
  {
    PriorityCountsSplit(alerts);
  }

  lemma {:induction false} PriorityCountsSplit(alerts: seq<Alert>)
    ensures CountWhere(alerts, UnreadWithTest(Low)) + CountWhere(alerts, UnreadWithTest(Medium))
            + CountWhere(alerts, UnreadWithTest(High)) + CountWhere(alerts, UnreadWithTest(Urgent))
            == CountWhere(alerts, UnreadTest())
  {
    if |alerts| > 0 {
      PriorityCountsSplit(alerts[..|alerts| - 1]);
    }
  }

  /** The list filter: each flag, the priority and the type apply only when given. */
  datatype AlertFilter = AlertFilter(read: Option<bool>, dismissed: Option<bool>,
                                     priority: Option<Priority>, alertType: Option<AlertType>)

  predicate MatchesAlert(x: Alert, f: AlertFilter) {
    && (f.read.None? || x.read == f.read.value)
    && (f.dismissed.None? || x.dismissed == f.dismissed.value)
    && (f.priority.None? || x.priority == f.priority.value)
    && (f.alertType.None? || x.alertType == f.alertType.value)
  }

  function AlertTest(f: AlertFilter): Alert -> bool { x => MatchesAlert(x, f) }

  /** `list`: page `page` of the matching alerts (those after skipping `(page - 1) * limit` of
      them in the listing's order, at most `limit`), with the total and the page count. */
  function List(db: Db, f: AlertFilter, page: int, limit: int): (r: Result<Paged<Alert>>)
    reads db
    ensures r.Ok? <==> page >= 1 && limit >= 1
    ensures r.Ok? ==> && r.value.total == CountWhere(db.alerts, AlertTest(f))
                      && r.value.page == page
                      && r.value.totalPages == TotalPages(r.value.total, limit)
                      && |r.value.items| == (if (page - 1) * limit >= r.value.total then 0
                                             else if (page - 1) * limit + limit <= r.value.total then limit
                                             else r.value.total - (page - 1) * limit)
                      && (forall x :: x in r.value.items ==> x in db.alerts && MatchesAlert(x, f))
                      && exists ordered :: && multiset(ordered) == multiset(Select(db.alerts, AlertTest(f)))
                                           && r.value.items == Window(ordered, page, limit)
  {
    var rows := Select(db.alerts, AlertTest(f));
    if page >= 1 && limit >= 1 then
      assert forall x :: x in Window(rows, page, limit) ==> x in rows;
      WindowSize(rows, page, limit);
      Paginate(rows, page, limit)
    else Paginate(rows, page, limit)
  }
}
