/** Shared vocabulary of the financial engine: optional values, results with the
    service layer's error kinds, money and time, and small sequence utilities
    (lookup by id, filtered counts and sums) used by every ledger. */
module Common {

  datatype Option<+T> = None | Some(value: T)

  /** Money is exact: the store keeps fixed-point decimals, so no float drift is modelled. */
  type Money = real

  /** An instant, in milliseconds since the epoch (what `Date.getTime()` returns). */
  type Time = int

  /** The length of one day in milliseconds, as the services write `24 * 60 * 60 * 1000`. */
  const DayMs: int := 86_400_000

  /** The calendar day an instant falls on (the UTC day of `toISOString().split('T')[0]`). */
  function DayKey(t: Time): (d: int)
    ensures d * DayMs <= t < (d + 1) * DayMs
  {
    t / DayMs
  }

  /** `Math.ceil(x / DayMs)`: the least whole number of days covering `x` milliseconds. */
  function CeilDays(x: int): (d: int)
    ensures (d - 1) * DayMs < x <= d * DayMs
  {
    -((-x) / DayMs)
  }

  /** The `paymentMethod` column. `OtherMethod` stands for any stored value other than
      "CASH", "CREDIT_CARD", "DEBIT_CARD" and "PIX", so its name is never one of those four. */
  datatype PaymentMethod = Cash | CreditCard | DebitCard | Pix | OtherMethod(name: string)

  /** The ways a service call fails: an `AppError` carrying an HTTP status, a plain
      `Error` thrown with a message (answered with status 500), Prisma's "record to
      update not found", and paging arguments the store cannot honour. */
  datatype Error =
    | AppError(status: int, message: string)
    | Thrown(message: string)
    | RecordNotFound
    | InvalidPaging

  datatype Result<+T> = Ok(value: T) | Err(error: Error)

  /** JavaScript truthiness of an optional numeric id: `x ? Number(x) : null`, where 0 is falsy. */
  function TruthyId(x: Option<int>): (r: Option<int>)
    ensures r.Some? <==> x.Some? && x.value != 0
    ensures r.Some? ==> r == x
  {
    if x.Some? && x.value != 0 then x else None
  }

  /** The decimal digits of a natural number, as a template literal prints it. */
  function NatToString(n: nat): (s: string)
    ensures |s| >= 1
    ensures forall k :: 0 <= k < |s| ==> '0' <= s[k] <= '9'
  {
    if n < 10 then ["0123456789"[n]]
    else NatToString(n / 10) + ["0123456789"[n % 10]]
  }

  /** An integer in decimal, with a leading minus sign when negative. */
  function IntToString(i: int): (s: string)
    ensures |s| >= 1
    ensures (s[0] == '-') <==> i < 0
  {
    if i < 0 then "-" + NatToString(-i) else NatToString(i)
  }

  /** The number a string of decimal digits denotes. */
  function DecimalValue(s: string): nat
    requires forall k :: 0 <= k < |s| ==> '0' <= s[k] <= '9'
  {
    if |s| == 0 then 0
    else DecimalValue(s[..|s| - 1]) * 10 + ((s[|s| - 1] as int) - ('0' as int))
  }

  /** Printing a number in decimal loses nothing: its digits denote the number again. */
  lemma {:induction false} NatToStringRoundTrip(n: nat)
    ensures DecimalValue(NatToString(n)) == n
  {
    var s := NatToString(n);
    if n >= 10 {
      NatToStringRoundTrip(n / 10);
      assert s[..|s| - 1] == NatToString(n / 10);
    }
  }

  /** The position of the first row whose key is `id`, as `findUnique({ where: { id } })`. */
  function IndexOf<T>(rows: seq<T>, id: int, key: T -> int): (r: Option<nat>)
    ensures r.Some? ==> r.value < |rows| && key(rows[r.value]) == id
    ensures r.Some? ==> forall k :: 0 <= k < r.value ==> key(rows[k]) != id
    ensures r.None? ==> forall k :: 0 <= k < |rows| ==> key(rows[k]) != id
  {
    if |rows| == 0 then None
    else if key(rows[0]) == id then Some(0)
    else match IndexOf(rows[1..], id, key)
      case None => None
      case Some(k) => Some(k + 1)
  }

  /** Ids handed out by an autoincrement column of a table no row is deleted from. */
  ghost predicate IdsAreRowNumbers<T>(rows: seq<T>, key: T -> int) {
    forall k :: 0 <= k < |rows| ==> key(rows[k]) == k + 1
  }

  /** Ids that are pairwise distinct (a primary key). */
  ghost predicate DistinctIds<T>(rows: seq<T>, key: T -> int) {
    forall i, j :: 0 <= i < j < |rows| ==> key(rows[i]) != key(rows[j])
  }

  /** With row-number ids, a lookup finds exactly the row at `id - 1`. */
  lemma {:induction false} IndexOfRowNumber<T>(rows: seq<T>, id: int, key: T -> int)
    requires IdsAreRowNumbers(rows, key)
    ensures IndexOf(rows, id, key) == if 1 <= id <= |rows| then Some(id - 1) else None
  {
    if 1 <= id <= |rows| {
      assert key(rows[id - 1]) == id;
    }
  }

  /** The number of elements satisfying `p` (a `count({ where })`). */
  function CountWhere<T>(s: seq<T>, p: T -> bool): (n: nat)
    ensures n <= |s|
  {
    if |s| == 0 then 0
    else CountWhere(s[..|s| - 1], p) + (if p(s[|s| - 1]) then 1 else 0)
  }

  /** The sum of `f` over the elements satisfying `p` (an `aggregate({ _sum, where })`;
      `_sum || 0` makes the empty sum 0). */
  function SumWhere<T>(s: seq<T>, p: T -> bool, f: T -> Money): Money
  {
    if |s| == 0 then 0.0
    else SumWhere(s[..|s| - 1], p, f) + (if p(s[|s| - 1]) then f(s[|s| - 1]) else 0.0)
  }

  lemma {:induction false} CountWhereAppend<T>(s: seq<T>, t: seq<T>, p: T -> bool)
    ensures CountWhere(s + t, p) == CountWhere(s, p) + CountWhere(t, p)
  {
    if |t| == 0 {
      assert s + t == s;
    } else {
      assert (s + t)[..|s + t| - 1] == s + t[..|t| - 1];
      CountWhereAppend(s, t[..|t| - 1], p);
    }
  }

  lemma {:induction false} SumWhereAppend<T>(s: seq<T>, t: seq<T>, p: T -> bool, f: T -> Money)
    ensures SumWhere(s + t, p, f) == SumWhere(s, p, f) + SumWhere(t, p, f)
  {
    if |t| == 0 {
      assert s + t == s;
    } else {
      assert (s + t)[..|s + t| - 1] == s + t[..|t| - 1];
      SumWhereAppend(s, t[..|t| - 1], p, f);
    }
  }

  /** Two filters that agree on every element give the same filtered sum. */
  lemma {:induction false} SumWhereSameTest<T>(s: seq<T>, p: T -> bool, q: T -> bool, f: T -> Money)
    requires forall k :: 0 <= k < |s| ==> p(s[k]) == q(s[k])
    ensures SumWhere(s, p, f) == SumWhere(s, q, f)
  {
    if |s| > 0 {
      SumWhereSameTest(s[..|s| - 1], p, q, f);
    }
  }

  /** Replacing one element changes a filtered count only by that element's contribution. */
  lemma CountWhereUpdate<T>(s: seq<T>, i: nat, x: T, p: T -> bool)
    requires i < |s|
    ensures CountWhere(s[i := x], p)
            == CountWhere(s, p) - (if p(s[i]) then 1 else 0) + (if p(x) then 1 else 0)
  {
    assert s == s[..i] + [s[i]] + s[i + 1..];
    assert s[i := x] == s[..i] + [x] + s[i + 1..];
    CountWhereAppend(s[..i] + [s[i]], s[i + 1..], p);
    CountWhereAppend(s[..i], [s[i]], p);
    CountWhereAppend(s[..i] + [x], s[i + 1..], p);
    CountWhereAppend(s[..i], [x], p);
    assert [s[i]][..0] == [] && [x][..0] == [];
  }

  /** Replacing one element changes a filtered sum only by that element's contribution. */
  lemma SumWhereUpdate<T>(s: seq<T>, i: nat, x: T, p: T -> bool, f: T -> Money)
    requires i < |s|
    ensures SumWhere(s[i := x], p, f)
            == SumWhere(s, p, f) - (if p(s[i]) then f(s[i]) else 0.0) + (if p(x) then f(x) else 0.0)
  {
    assert s == s[..i] + [s[i]] + s[i + 1..];
    assert s[i := x] == s[..i] + [x] + s[i + 1..];
    SumWhereAppend(s[..i] + [s[i]], s[i + 1..], p, f);
    SumWhereAppend(s[..i], [s[i]], p, f);
    SumWhereAppend(s[..i] + [x], s[i + 1..], p, f);
    SumWhereAppend(s[..i], [x], p, f);
    assert [s[i]][..0] == [] && [x][..0] == [];
  }

  /** A filtered sum does not depend on the order of the elements. */
  lemma {:induction false} SumWherePermutation<T>(s: seq<T>, t: seq<T>, p: T -> bool, f: T -> Money)
    requires multiset(s) == multiset(t)
    ensures SumWhere(s, p, f) == SumWhere(t, p, f)
    decreases |s|
  {
    if |s| > 0 {
      var x := s[|s| - 1];
      assert x in multiset(t);
      var k :| 0 <= k < |t| && t[k] == x;
      assert t == t[..k] + [x] + t[k + 1..];
      assert s == s[..|s| - 1] + [x];
      var rest := t[..k] + t[k + 1..];
      assert multiset(t) == multiset(t[..k]) + multiset{x} + multiset(t[k + 1..]);
      assert multiset(s) == multiset(s[..|s| - 1]) + multiset{x};
      assert multiset(rest) == multiset(t[..k]) + multiset(t[k + 1..]);
      assert multiset(s[..|s| - 1]) + multiset{x} == multiset(rest) + multiset{x};
      forall y ensures multiset(s[..|s| - 1])[y] == multiset(rest)[y] {
        assert (multiset(s[..|s| - 1]) + multiset{x})[y] == (multiset(rest) + multiset{x})[y];
      }
      assert multiset(s[..|s| - 1]) == multiset(rest);
      SumWherePermutation(s[..|s| - 1], rest, p, f);
      SumWhereAppend(t[..k] + [x], t[k + 1..], p, f);
      SumWhereAppend(t[..k], [x], p, f);
      SumWhereAppend(t[..k], t[k + 1..], p, f);
      assert [x][..0] == [];
    } else {
      assert |t| == 0;
    }
  }

  /** Keeps the elements satisfying `p`, in order (a `findMany({ where })` before sorting). */
  function Select<T(!new)>(s: seq<T>, p: T -> bool): (r: seq<T>)
    ensures |r| == CountWhere(s, p)
    ensures forall x :: x in r <==> x in s && p(x)
  {
    if |s| == 0 then []
    else Select(s[..|s| - 1], p) + (if p(s[|s| - 1]) then [s[|s| - 1]] else [])
  }
}
