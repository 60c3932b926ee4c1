/** The annualized money-weighted rate: a bisection on the net present value, whatever that function is. */
module Xirr {
  import opened Basics

  const LOW := -0.9999
  const HIGH := 1000.0
  const TOLERANCE := 0.00000001
  const MAX_TURNS: nat := 200

  predicate Near(npv: real -> real, rate: real) {
    Abs(npv(rate)) < TOLERANCE
  }

  /** Zero or opposite signs at the two ends, and no zero at the low one. */
  predicate Bracketed(npv: real -> real, low: real, high: real) {
    low < high && npv(low) != 0.0 && npv(low) * npv(high) <= 0.0
  }

  /** The rate the bisection answers from a bracket, and the turns it takes. */
  function Bisected(npv: real -> real, low: real, high: real, left: nat): (real, nat)
    decreases left
  {
    var mid := (low + high) / 2.0;
    if left == 0 then (mid, 0)
    else if Near(npv, mid) || high - low < TOLERANCE then (mid, 1)
    else
      var (rate, turns) := if npv(low) * npv(mid) < 0.0 then Bisected(npv, low, mid, left - 1)
                           else Bisected(npv, mid, high, left - 1);
      (rate, turns + 1)
  }

  /** What an answer owes: a value all but zero, or a narrow interval the value changes sign over. */
  ghost predicate Answers(npv: real -> real, rate: real) {
    Near(npv, rate) || exists low, high :: Narrow(npv, low, high) && low < rate < high
  }

  predicate Narrow(npv: real -> real, low: real, high: real) {
    Bracketed(npv, low, high) && high - low < TOLERANCE
  }

  /** One turn keeps a bracket, half as wide. */
  lemma TurnKeepsBracket(npv: real -> real, low: real, high: real)
    requires Bracketed(npv, low, high) && !Near(npv, (low + high) / 2.0)
    ensures var mid := (low + high) / 2.0;
            if npv(low) * npv(mid) < 0.0 then Bracketed(npv, low, mid) else Bracketed(npv, mid, high)
  {
  }

  /** A bracket narrower than `TOLERANCE * 2^n` is answered within `n + 1` turns, properly. */
  lemma {:induction false} BisectionAnswers(npv: real -> real, low: real, high: real, left: nat, n: nat)
    requires Bracketed(npv, low, high) && high - low < TOLERANCE * Doubled(n) as real && n < left
    ensures var r := Bisected(npv, low, high, left);
            r.1 <= n + 1 && low < r.0 < high && Answers(npv, r.0)
    decreases left
  {
    var mid := (low + high) / 2.0;
    if high - low < TOLERANCE {
      assert Narrow(npv, low, high);
    } else if !Near(npv, mid) {
      TurnKeepsBracket(npv, low, high);
      if npv(low) * npv(mid) < 0.0 {
        BisectionAnswers(npv, low, mid, left - 1, n - 1);
      } else {
        BisectionAnswers(npv, mid, high, left - 1, n - 1);
      }
    }
  }

  /** Away from any zero, a bracket at least `TOLERANCE * 2^n` wide takes more than `n + 1` turns. */
  lemma {:induction false} BisectionTakes(npv: real -> real, low: real, high: real, left: nat, n: nat)
    requires high - low >= TOLERANCE * Doubled(n) as real && n + 1 < left && forall x :: !Near(npv, x)
    ensures Bisected(npv, low, high, left).1 >= n + 2
    decreases left
  {
    var mid := (low + high) / 2.0;
    if n > 0 {
      if npv(low) * npv(mid) < 0.0 {
        BisectionTakes(npv, low, mid, left - 1, n - 1);
      } else {
        BisectionTakes(npv, mid, high, left - 1, n - 1);
      }
    } else {
      TakesOne(npv, low, mid, left - 1);
      TakesOne(npv, mid, high, left - 1);
    }
  }

  lemma TakesOne(npv: real -> real, low: real, high: real, left: nat)
    requires left > 0
    ensures Bisected(npv, low, high, left).1 >= 1
  {
  }

  /** One turn of the loop, unfolded. */
  lemma Turn(npv: real -> real, low: real, high: real, left: nat)
    requires left > 0
    ensures var mid, r := (low + high) / 2.0, Bisected(npv, low, high, left);
            if Near(npv, mid) || high - low < TOLERANCE then r == (mid, 1)
            else
              var rest := if npv(low) * npv(mid) < 0.0 then Bisected(npv, low, mid, left - 1)
                          else Bisected(npv, mid, high, left - 1);
              r == (rest.0, rest.1 + 1)
  {
  }

  /** The rate of a value function: the low end when it is a zero, nothing without a bracket, else the bisection's. */
  function Searched(npv: real -> real, cap: nat): Option<real> {
    if npv(LOW) == 0.0 then Some(LOW)
    else if npv(LOW) * npv(HIGH) > 0.0 then None
    else Some(Bisected(npv, LOW, HIGH, cap).0)
  }

  function RateOf(npv: real -> real): Option<real> {
    Searched(npv, MAX_TURNS)
  }

  /** From the full range the loop ends by its 38th turn under any cap that allows it: every rate it gives answers. */
  lemma RateAnswers(npv: real -> real, cap: nat)
    requires cap >= 38
    ensures Searched(npv, cap).None? <==> npv(LOW) * npv(HIGH) > 0.0
    ensures Searched(npv, cap).Some? ==>
              LOW <= Searched(npv, cap).value < HIGH && Answers(npv, Searched(npv, cap).value)
    ensures npv(LOW) != 0.0 && npv(LOW) * npv(HIGH) <= 0.0 ==> Bisected(npv, LOW, HIGH, cap).1 <= 38
  {
    hide Bisected, Doubled;
    if npv(LOW) != 0.0 && npv(LOW) * npv(HIGH) <= 0.0 {
      assert HIGH - LOW < TOLERANCE * Doubled(37) as real by { Doubled37(); }
      BisectionAnswers(npv, LOW, HIGH, cap, 37);
    }
  }

  /** And the 38 turns are taken by any value function that jumps over zero. */
  lemma BoundIsTight(npv: real -> real, cap: nat)
    requires Bracketed(npv, LOW, HIGH) && cap >= 38 && forall x :: !Near(npv, x)
    ensures Bisected(npv, LOW, HIGH, cap).1 == 38
  {
    hide Bisected, Doubled;
    Doubled37();
    BisectionTakes(npv, LOW, HIGH, cap, 36);
    BisectionAnswers(npv, LOW, HIGH, cap, 37);
  }

  lemma Doubled37()
    ensures Doubled(36) == 68719476736 && Doubled(37) == 137438953472
  {
    assert Doubled(10) == 1024;
    assert Doubled(20) == 1048576;
    assert Doubled(30) == 1073741824;
  }

  // ---- The loop ----

  /** The bisection as it is run; `turns` is how many times the loop was entered. */
  method Solve(npv: real -> real) returns (rate: Option<real>, turns: nat)
    ensures rate == RateOf(npv)
    ensures turns <= 38
  {
    hide Bisected;
    RateAnswers(npv, MAX_TURNS);
    rate, turns := None, 0;
    var low, high := LOW, HIGH;
    var fLow, fHigh := npv(low), npv(high);
    if fLow == 0.0 {
      return Some(low), turns;
    }
    if fLow * fHigh > 0.0 {
      return None, turns;
    }
    ghost var whole := Bisected(npv, LOW, HIGH, MAX_TURNS);
    while turns < MAX_TURNS
      invariant turns <= 38
      invariant fLow == npv(low) && fHigh == npv(high) && Bracketed(npv, low, high)
      invariant whole.1 <= 38
      invariant var rest := Bisected(npv, low, high, MAX_TURNS - turns); whole.0 == rest.0 && whole.1 == turns + rest.1
    {
      var mid := (low + high) / 2.0;
      var fMid := npv(mid);
      Turn(npv, low, high, MAX_TURNS - turns);
      turns := turns + 1;
      if Abs(fMid) < TOLERANCE || high - low < TOLERANCE {
        return Some(mid), turns;
      }
      TurnKeepsBracket(npv, low, high);
      if fLow * fMid < 0.0 {
        high, fHigh := mid, fMid;
      } else {
        low, fLow := mid, fMid;
      }
    }
    // Never left by its cap.
    assert false;
  }

  // ---- The value of dated cash flows ----

  datatype Dated = Dated(day: int, amount: real)

  /** The value of the flows at a rate; `discount(rate, days)` is the factor of a flow that many days later. */
  function Value(flows: seq<Dated>, origin: int, discount: (real, int) -> real, rate: real): real {
    if flows == [] then 0.0
    else
      var last := flows[|flows| - 1];
      Value(flows[..|flows| - 1], origin, discount, rate) + last.amount * discount(rate, last.day - origin)
  }

  function FirstDay(flows: seq<Dated>): (d: int)
    requires flows != []
    ensures forall f :: f in flows ==> d <= f.day
    ensures exists f :: f in flows && f.day == d
  {
    var last := flows[|flows| - 1];
    if |flows| == 1 then last.day
    else
      var rest := flows[..|flows| - 1];
      assert forall f :: f in flows ==> f in rest || f == last;
      var d := FirstDay(rest);
      var earlier :| earlier in rest && earlier.day == d;
      assert earlier in flows;
      if last.day < d then last.day else d
  }

  predicate OneDay(flows: seq<Dated>) {
    forall f, g :: f in flows && g in flows ==> f.day == g.day
  }

  function ValueAt(flows: seq<Dated>, origin: int, discount: (real, int) -> real): real -> real {
    rate => Value(flows, origin, discount, rate)
  }

  /** No rate for no flow, nor for flows of one single day. */
  function XirrOf(flows: seq<Dated>, discount: (real, int) -> real): Option<real> {
    if flows == [] || OneDay(flows) then None else RateOf(ValueAt(flows, FirstDay(flows), discount))
  }

  /** The rate of any flows under one discount. */
  function Solver(discount: (real, int) -> real): seq<Dated> -> Option<real> {
    flows => XirrOf(flows, discount)
  }

  method Extremes(flows: seq<Dated>) returns (first: int, last: int)
    requires flows != []
    ensures forall f :: f in flows ==> first <= f.day <= last
    ensures (exists f :: f in flows && f.day == first) && exists f :: f in flows && f.day == last
  {
    first, last := flows[0].day, flows[0].day;
    for i := 1 to |flows|
      invariant forall k :: 0 <= k < i ==> first <= flows[k].day <= last
      invariant exists f :: f in flows && f.day == first
      invariant exists f :: f in flows && f.day == last
    {
      if flows[i].day < first {
        first := flows[i].day;
      }
      if flows[i].day > last {
        last := flows[i].day;
      }
    }
  }

  method InternalRate(flows: seq<Dated>, discount: (real, int) -> real) returns (rate: Option<real>)
    ensures rate == XirrOf(flows, discount)
  {
    hide RateOf, Bisected, Value, FirstDay;
    if flows == [] {
      return None;
    }
    var origin, last := Extremes(flows);
    if last == origin {
      return None;
    }
    assert !OneDay(flows);
    assert origin == FirstDay(flows);
    var turns;
    rate, turns := Solve(ValueAt(flows, origin, discount));
  }
}
