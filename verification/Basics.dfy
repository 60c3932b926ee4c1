/** Shared vocabulary: optional values, outcomes and sums over calendar days. */
module Basics {

  datatype Option<+T> = None | Some(value: T)

  datatype Result<+T, +E> = Ok(value: T) | Err(error: E)

  const SECONDS_PER_HOUR := 3600
  const SECONDS_PER_DAY := 86400

  /** The hour an instant falls in; instants are in seconds. */
  function HourOf(ts: int): int {
    ts / SECONDS_PER_HOUR
  }

  /** The UTC day an instant falls in. */
  function DayOf(ts: int): int {
    ts / SECONDS_PER_DAY
  }

  function Abs(x: real): real {
    if x < 0.0 then -x else x
  }

  /** Two to the n. */
  function Doubled(n: nat): (r: nat)
    ensures r >= 1
  {
    if n == 0 then 1 else 2 * Doubled(n - 1)
  }

  /** The weighted-average unit price of a position, nothing when none is held. */
  function UnitCost(quantity: real, costBasis: real): Option<real> {
    if quantity == 0.0 then None else Some(costBasis / quantity)
  }

  /** What a `{day: amount}` mapping holds on one day, nothing when it has no entry. */
  function AmountOn(amounts: map<int, real>, day: int): real {
    if day in amounts then amounts[day] else 0.0
  }

  /** Every amount dated in `[first, last]`, counted day by day. */
  function SumSpan(amounts: map<int, real>, first: int, last: int): real
    decreases last - first + 1
  {
    if last < first then 0.0 else AmountOn(amounts, last) + SumSpan(amounts, first, last - 1)
  }

  /** A span sum splits at any day inside it. */
  lemma {:induction false} SumSpanSplits(amounts: map<int, real>, first: int, mid: int, last: int)
    requires first - 1 <= mid <= last
    ensures SumSpan(amounts, first, last) == SumSpan(amounts, first, mid) + SumSpan(amounts, mid + 1, last)
    decreases last - mid
  {
    if mid < last {
      SumSpanSplits(amounts, first, mid, last - 1);
    }
  }

  /** Taking one dated amount out of a mapping lowers exactly the spans that cover its day. */
  lemma {:induction false} SumSpanWithout(amounts: map<int, real>, day: int, first: int, last: int)
    requires day in amounts
    ensures SumSpan(amounts, first, last)
         == SumSpan(amounts - {day}, first, last) + (if first <= day <= last then amounts[day] else 0.0)
    decreases last - first + 1
  {
    if first <= last {
      SumSpanWithout(amounts, day, first, last - 1);
    }
  }

  lemma {:induction false} SumSpanEmpty(first: int, last: int)
    ensures SumSpan(map[], first, last) == 0.0
    decreases last - first + 1
  {
    if first <= last {
      SumSpanEmpty(first, last - 1);
    }
  }

  lemma DivideThenMultiply(a: real, b: real)
    requires b != 0.0
    ensures (a / b) * b == a
  {
  }

  lemma QuotientAtMost(a: real, b: real, c: real)
    requires c > 0.0 && a <= b * c
    ensures a / c <= b
  {
    DivideThenMultiply(a, c);
    if a / c > b {
      ScaleUp(b, a / c, c);
      assert false;
    }
  }

  lemma ScaleUp(a: real, b: real, c: real)
    requires a < b && c > 0.0
    ensures a * c < b * c
  {
  }

  lemma ProductOfNonNegatives(a: real, b: real)
    requires a >= 0.0 && b >= 0.0
    ensures a * b >= 0.0
    ensures a * b == 0.0 <==> a == 0.0 || b == 0.0
  {
  }

  /** The next key of a mapping being walked: no order is promised. */
  method Pick<K>(keys: set<K>) returns (key: K)
    requires keys != {}
    ensures key in keys
  {
    key :| key in keys;
  }
}
