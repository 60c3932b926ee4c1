/** The daily figures of an account, and what continuing its series from the last point gives. */
module PerformanceSeries {
  import opened Basics
  import opened Xirr

  datatype Position = Position(quantity: real, costBasis: real)

  datatype Grant = Grant(day: int, quantity: real, unitPrice: Option<real>)

  /** One account of the timeline: its state on any day, forward-filled, and its external flows in order. */
  datatype Ledger = Ledger(
    cashAt: int -> Option<real>, positionAt: (string, int) -> Option<Position>,
    cash: seq<Dated>, grants: seq<Grant>)

  datatype Prices = Prices(
    symbols: seq<string>, priceAt: (string, int) -> Option<real>,
    carried: set<string>, firstQuoted: map<string, int>)

  datatype DailyPerf = DailyPerf(
    date: int, cashBalance: real, holdings: real, total: real, contributed: real, flow: real, gain: real,
    twr: Option<real>)

  datatype Performance = Performance(
    daily: seq<DailyPerf>, xirr: Option<real>, hasCashLedger: bool, hasExternalFlow: bool)

  // ---- Valuation ----

  function DeclaredValue(g: Grant): real {
    if g.quantity == 0.0 || g.unitPrice.None? || g.unitPrice.value <= 0.0 then 0.0
    else g.quantity * g.unitPrice.value
  }

  /** The market's price; failing that the position's own, unless a quote was ever seen by then. */
  function CarryingPrice(observed: Option<real>, quoted: bool, p: Position): Option<real> {
    if observed.Some? then observed else if quoted then None else UnitCost(p.quantity, p.costBasis)
  }

  function PriceOf(m: Prices, symbol: string, p: Position, day: int): Option<real> {
    var observed := m.priceAt(symbol, day);
    if symbol in m.carried then CarryingPrice(observed, symbol in m.firstQuoted && m.firstQuoted[symbol] <= day, p)
    else observed
  }

  /** What one position adds to the value of a day. */
  function Worth(m: Prices, symbol: string, position: Option<Position>, day: int): real {
    if position.None? || position.value.quantity == 0.0 then 0.0
    else
      var price := PriceOf(m, symbol, position.value, day);
      if price.None? then 0.0 else position.value.quantity * price.value
  }

  function Holdings(l: Ledger, m: Prices, day: int, n: nat): real
    requires n <= |m.symbols|
  {
    if n == 0 then 0.0
    else Holdings(l, m, day, n - 1) + Worth(m, m.symbols[n - 1], l.positionAt(m.symbols[n - 1], day), day)
  }

  predicate Holds(l: Ledger, m: Prices, day: int) {
    exists i :: 0 <= i < |m.symbols| && l.positionAt(m.symbols[i], day).Some?
  }

  method HoldingsValue(l: Ledger, m: Prices, day: int) returns (total: real, hasPosition: bool)
    ensures total == Holdings(l, m, day, |m.symbols|) && hasPosition == Holds(l, m, day)
  {
    total, hasPosition := 0.0, false;
    for i := 0 to |m.symbols|
      invariant total == Holdings(l, m, day, i)
      invariant hasPosition <==> exists k :: 0 <= k < i && l.positionAt(m.symbols[k], day).Some?
    {
      var symbol := m.symbols[i];
      var position := l.positionAt(symbol, day);
      if position.None? {
        continue;
      }
      hasPosition := true;
      if position.value.quantity == 0.0 {
        continue;
      }
      var price := m.priceAt(symbol, day);
      if symbol in m.carried {
        price := CarryingPrice(price, symbol in m.firstQuoted && day >= m.firstQuoted[symbol], position.value);
      }
      if price.Some? {
        total := total + position.value.quantity * price.value;
      }
    }
  }

  // ---- Flows ----

  function GrantFlows(grants: seq<Grant>): (f: seq<Dated>)
    ensures |f| == |grants|
    ensures forall i :: 0 <= i < |grants| ==> f[i] == Dated(grants[i].day, DeclaredValue(grants[i]))
  {
    seq(|grants|, i requires 0 <= i < |grants| => Dated(grants[i].day, DeclaredValue(grants[i])))
  }

  function ExternalFlows(l: Ledger): seq<Dated> {
    l.cash + GrantFlows(l.grants)
  }

  function FlowOn(flows: seq<Dated>, day: int): real {
    if flows == [] then 0.0
    else
      var last := flows[|flows| - 1];
      FlowOn(flows[..|flows| - 1], day) + (if last.day == day then last.amount else 0.0)
  }

  /** Everything that came in on or before a day. */
  function ContributedBy(flows: seq<Dated>, day: int): real {
    if flows == [] then 0.0
    else
      var last := flows[|flows| - 1];
      ContributedBy(flows[..|flows| - 1], day) + (if last.day <= day then last.amount else 0.0)
  }

  lemma {:induction false} NothingBefore(flows: seq<Dated>, day: int)
    requires forall f :: f in flows ==> day < f.day
    ensures ContributedBy(flows, day) == 0.0
  {
    if flows != [] {
      assert flows[|flows| - 1] in flows;
      NothingBefore(flows[..|flows| - 1], day);
    }
  }

  /** With no flow strictly between two days, the later total adds the flow of the later day alone. */
  lemma {:induction false} NextFlowDay(flows: seq<Dated>, before: int, day: int)
    requires before < day && forall f :: f in flows ==> !(before < f.day < day)
    ensures ContributedBy(flows, day) == ContributedBy(flows, before) + FlowOn(flows, day)
  {
    if flows != [] {
      assert flows[|flows| - 1] in flows;
      NextFlowDay(flows[..|flows| - 1], before, day);
    }
  }

  lemma {:induction false} SameSide(flows: seq<Dated>, a: int, b: int)
    requires forall f :: f in flows ==> (f.day <= a <==> f.day <= b)
    ensures ContributedBy(flows, a) == ContributedBy(flows, b)
  {
    if flows != [] {
      assert flows[|flows| - 1] in flows;
      SameSide(flows[..|flows| - 1], a, b);
    }
  }

  /** The flows by date: exactly the dates there are, each with its net flow. */
  predicate ByDate(m: map<int, real>, flows: seq<Dated>) {
    && (forall f :: f in flows ==> f.day in m)
    && forall d :: d in m ==> (exists f :: f in flows && f.day == d) && m[d] == FlowOn(flows, d)
  }

  lemma {:induction false} NoFlowOn(flows: seq<Dated>, day: int)
    requires forall f :: f in flows ==> f.day != day
    ensures FlowOn(flows, day) == 0.0
  {
    if flows != [] {
      assert flows[|flows| - 1] in flows;
      NoFlowOn(flows[..|flows| - 1], day);
    }
  }

  method FlowsByDate(flows: seq<Dated>) returns (m: map<int, real>)
    ensures ByDate(m, flows)
  {
    m := map[];
    for i := 0 to |flows|
      invariant ByDate(m, flows[..i])
    {
      var f := flows[i];
      assert flows[..i + 1][..i] == flows[..i] && flows[..i + 1][i] == f;
      assert forall g :: g in flows[..i + 1] <==> g in flows[..i] || g == f;
      if f.day !in m {
        NoFlowOn(flows[..i], f.day);
      }
      m := m[f.day := AmountOn(m, f.day) + f.amount];
    }
    assert flows[..|flows|] == flows;
  }

  predicate Ascending(s: seq<int>) {
    forall i, j :: 0 <= i < j < |s| ==> s[i] < s[j]
  }

  method Sorted(keys: set<int>) returns (s: seq<int>)
    ensures Ascending(s) && forall d :: d in s <==> d in keys
  {
    s := [];
    var todo := keys;
    while todo != {}
      invariant todo <= keys && Ascending(s)
      invariant forall d :: d in s <==> d in keys - todo
      invariant forall i, b :: 0 <= i < |s| && b in todo ==> s[i] < b
    {
      var least := Least(todo);
      s := s + [least];
      todo := todo - {least};
    }
  }

  method Least(keys: set<int>) returns (least: int)
    requires keys != {}
    ensures least in keys && forall d :: d in keys ==> least <= d
  {
    least := Pick(keys);
    var todo := keys - {least};
    while todo != {}
      invariant todo <= keys && least in keys
      invariant forall d :: d in keys && d !in todo ==> least <= d
    {
      var d := Pick(todo);
      if d < least {
        least := d;
      }
      todo := todo - {d};
    }
  }

  /** The cursor over the flow days: it only moves forward, so it is asked in calendar order. */
  class RunningContribution {
    const flowByDate: map<int, real>
    const days: seq<int>
    var index: nat
    var total: real
    ghost const flows: seq<Dated>
    ghost var asked: Option<int>

    ghost predicate Sits(day: int)
      reads this
    {
      && index <= |days|
      && (index > 0 ==> days[index - 1] <= day)
      && (index < |days| ==> day < days[index])
    }

    /** The total is that of any day the cursor sits on. */
    ghost predicate Tracks()
      reads this
    {
      && ByDate(flowByDate, flows) && Ascending(days) && (forall d :: d in days <==> d in flowByDate)
      && index <= |days|
      && forall d :: Sits(d) ==> total == ContributedBy(flows, d)
    }

    ghost predicate Valid()
      reads this
    {
      Tracks() && if asked.None? then index == 0 else Sits(asked.value)
    }

    constructor (flowByDate: map<int, real>, ghost flows: seq<Dated>)
      requires ByDate(flowByDate, flows)
      ensures Valid() && asked == None && this.flows == flows
    {
      this.flowByDate, this.flows := flowByDate, flows;
      var sorted := Sorted(flowByDate.Keys);
      days, index, total, asked := sorted, 0, 0.0, None;
      new;
      forall d | Sits(d) ensures total == ContributedBy(flows, d) {
        forall f | f in flows ensures d < f.day {
          assert f.day in days;
        }
        NothingBefore(flows, d);
      }
    }

    /** Everything contributed on or before the latest day asked about. */
    method Contributed(day: int) returns (sum: real)
      requires Valid()
      modifies this`index, this`total, this`asked
      ensures Valid()
      ensures asked == Some(if old(asked).Some? && old(asked).value > day then old(asked).value else day)
      ensures sum == ContributedBy(flows, asked.value)
    {
      ghost var latest := if asked.Some? && asked.value > day then asked.value else day;
      while index < |days| && days[index] <= day
        invariant index <= |days|
        invariant forall d :: Sits(d) ==> total == ContributedBy(flows, d)
        invariant old(asked).Some? && old(asked).value > day ==> Sits(old(asked).value)
        invariant index > 0 ==> days[index - 1] <= latest
      {
        Passed(day);
        total := total + flowByDate[days[index]];
        index := index + 1;
      }
      asked := Some(latest);
      sum := total;
    }

    /** Moving the cursor past the next flow day adds its flow to the total, wherever it then sits. */
    lemma Passed(day: int)
      requires Tracks() && index < |days|
      ensures forall d :: days[index] <= d && (index + 1 < |days| ==> d < days[index + 1]) ==>
                total + flowByDate[days[index]] == ContributedBy(flows, d)
    {
      var next := days[index];
      assert Sits(next - 1);
      forall f | f in flows ensures f.day < next ==> f.day <= next - 1 {
      }
      NextFlowDay(flows, next - 1, next);
      forall d | next <= d && (index + 1 < |days| ==> d < days[index + 1])
        ensures total + flowByDate[next] == ContributedBy(flows, d)
      {
        forall f | f in flows ensures f.day <= next <==> f.day <= d {
          assert f.day in days;
        }
        SameSide(flows, next, d);
      }
    }
  }

  // ---- The index ----

  /** Base 100 on the first value, then compounded by `(V - F) / V'`; a day worth nothing leaves it alone. */
  function Chained(twr: Option<real>, previous: Option<real>, v: real, flow: real): Option<real> {
    if twr.None? then (if v != 0.0 then Some(100.0) else None)
    else if previous.Some? && previous.value != 0.0 && v != 0.0
    then Some(Compounded(twr.value, v - flow, previous.value))
    else twr
  }

  function Compounded(index: real, value: real, before: real): real
    requires before != 0.0
  {
    index * value / before
  }

  /** The index of a point after the one before it. */
  function NextTwr(before: Option<DailyPerf>, dp: DailyPerf): Option<real> {
    if before.None? then Chained(None, None, dp.total, dp.flow)
    else Chained(before.value.twr, Some(before.value.total), dp.total, dp.flow)
  }

  function LastOr(daily: seq<DailyPerf>, seed: Option<DailyPerf>): Option<DailyPerf> {
    if daily == [] then seed else Some(daily[|daily| - 1])
  }

  function Filled(daily: seq<DailyPerf>, seed: Option<DailyPerf>): (r: seq<DailyPerf>)
    ensures |r| == |daily|
    ensures forall i :: 0 <= i < |r| ==> r[i].(twr := daily[i].twr) == daily[i]
  {
    if daily == [] then []
    else
      var n := |daily| - 1;
      var before := Filled(daily[..n], seed);
      before + [daily[n].(twr := NextTwr(LastOr(before, seed), daily[n]))]
  }

  /** Filling, one point at a time. */
  lemma FilledStep(daily: seq<DailyPerf>, seed: Option<DailyPerf>)
    ensures daily == [] ==> Filled(daily, seed) == []
    ensures daily != [] ==>
              var n := |daily| - 1;
              var before := Filled(daily[..n], seed);
              Filled(daily, seed) == before + [daily[n].(twr := NextTwr(LastOr(before, seed), daily[n]))]
  {
  }

  /** Filling in two runs, the second from the last point of the first, is filling once. */
  lemma {:induction false} FillingContinues(a: seq<DailyPerf>, b: seq<DailyPerf>, seed: Option<DailyPerf>)
    ensures Filled(a + b, seed) == Filled(a, seed) + Filled(b, LastOr(Filled(a, seed), seed))
  {
    hide NextTwr, Filled;
    if b == [] {
      assert a + b == a;
      FilledStep(b, LastOr(Filled(a, seed), seed));
    } else {
      var n := |b| - 1;
      FillingContinues(a, b[..n], seed);
      assert (a + b)[..|a| + n] == a + b[..n];
      var head, rest := Filled(a, seed), Filled(b[..n], LastOr(Filled(a, seed), seed));
      assert LastOr(head + rest, seed) == LastOr(rest, LastOr(head, seed));
      FilledStep(a + b, seed);
      FilledStep(b, LastOr(head, seed));
    }
  }

  function Ratio(value: real, before: real): real
    requires before != 0.0
  {
    value / before
  }

  /** The index over a stretch that keeps a value each day: the product of its daily growths, flows taken out. */
  function Growth(daily: seq<DailyPerf>): real
    requires forall i :: 0 <= i < |daily| ==> daily[i].total != 0.0
  {
    if |daily| <= 1 then 1.0
    else
      var n := |daily| - 1;
      Growth(daily[..n]) * Ratio(daily[n].total - daily[n].flow, daily[n - 1].total)
  }

  lemma {:induction false} IndexIsGrowth(daily: seq<DailyPerf>)
    requires daily != [] && forall i :: 0 <= i < |daily| ==> daily[i].total != 0.0
    ensures var last := Filled(daily, None)[|daily| - 1].twr;
            last.Some? && last.value == 100.0 * Growth(daily)
  {
    hide Filled, Growth, Chained, Ratio;
    var n := |daily| - 1;
    FilledStep(daily, None);
    GrowthStep(daily);
    if n > 0 {
      IndexIsGrowth(daily[..n]);
      var before := Filled(daily[..n], None);
      assert before[n - 1].(twr := daily[n - 1].twr) == daily[n - 1];
      ChainedOn(before[n - 1].twr.value, Growth(daily[..n]), daily[n - 1].total, daily[n]);
    } else {
      FilledStep(daily[..0], None);
      ChainedFirst(daily[0]);
    }
  }

  lemma ChainedFirst(dp: DailyPerf)
    requires dp.total != 0.0
    ensures Chained(None, None, dp.total, dp.flow) == Some(100.0)
  {
  }

  lemma GrowthStep(daily: seq<DailyPerf>)
    requires daily != [] && forall i :: 0 <= i < |daily| ==> daily[i].total != 0.0
    ensures var n := |daily| - 1;
            Growth(daily)
            == if n == 0 then 1.0 else Growth(daily[..n]) * Ratio(daily[n].total - daily[n].flow, daily[n - 1].total)
  {
    hide Ratio;
  }

  lemma ChainedOn(index: real, growth: real, last: real, dp: DailyPerf)
    requires index == 100.0 * growth && last != 0.0 && dp.total != 0.0
    ensures var r := Chained(Some(index), Some(last), dp.total, dp.flow);
            r.Some? && r.value == 100.0 * (growth * Ratio(dp.total - dp.flow, last))
  {
    hide Compounded, Ratio;
    Compound(index, growth, dp.total - dp.flow, last);
  }

  lemma Compound(index: real, growth: real, value: real, before: real)
    requires index == 100.0 * growth && before != 0.0
    ensures Compounded(index, value, before) == 100.0 * (growth * Ratio(value, before))
  {
    var q := value / before;
    assert q * before == value;
    assert index * value == (100.0 * (growth * q)) * before;
  }

  /** The two values the filling carries are those of the last point before. */
  predicate Stands(last: Option<DailyPerf>, previous: Option<real>, twr: Option<real>) {
    if last.None? then previous.None? && twr.None?
    else previous == Some(last.value.total) && twr == last.value.twr
  }

  lemma NextFrom(last: Option<DailyPerf>, previous: Option<real>, twr: Option<real>, dp: DailyPerf)
    requires Stands(last, previous, twr)
    ensures NextTwr(last, dp) == Chained(twr, previous, dp.total, dp.flow)
  {
  }

  method FillTwr(daily: array<DailyPerf>, seed: Option<DailyPerf>)
    modifies daily
    ensures daily[..] == Filled(old(daily[..]), seed)
  {
    hide Filled, Chained, Compounded, NextTwr;
    ghost var raw := daily[..];
    FilledStep([], seed);
    var previous: Option<real> := if seed.Some? then Some(seed.value.total) else None;
    var twr: Option<real> := if seed.Some? then seed.value.twr else None;
    for i := 0 to daily.Length
      invariant daily[..i] == Filled(raw[..i], seed)
      invariant forall k :: i <= k < daily.Length ==> daily[k] == raw[k]
      invariant Stands(LastOr(daily[..i], seed), previous, twr)
    {
      assert raw[..i + 1][..i] == raw[..i];
      FilledStep(raw[..i + 1], seed);
      ghost var filled := daily[..i];
      var v, flow := daily[i].total, daily[i].flow;
      var next := twr;
      if twr.None? {
        if v != 0.0 {
          next := Some(100.0);
        }
      } else if previous.Some? && previous.value != 0.0 && v != 0.0 {
        next := Some(Compounded(twr.value, v - flow, previous.value));
      }
      ChainedIs(twr, previous, v, flow, next);
      NextFrom(LastOr(filled, seed), previous, twr, raw[i]);
      daily[i] := daily[i].(twr := next);
      assert daily[..i + 1] == filled + [daily[i]];
      twr, previous := next, Some(v);
    }
    assert raw[..daily.Length] == raw && daily[..daily.Length] == daily[..];
  }

  lemma ChainedIs(twr: Option<real>, previous: Option<real>, v: real, flow: real, next: Option<real>)
    requires twr.None? ==> next == if v != 0.0 then Some(100.0) else None
    requires twr.Some? && previous.Some? && previous.value != 0.0 && v != 0.0
             ==> next == Some(Compounded(twr.value, v - flow, previous.value))
    requires twr.Some? && !(previous.Some? && previous.value != 0.0 && v != 0.0) ==> next == twr
    ensures next == Chained(twr, previous, v, flow)
  {
    hide Compounded;
  }

  // ---- One account ----

  predicate Active(l: Ledger, m: Prices, day: int) {
    l.cashAt(day).Some? || Holds(l, m, day)
  }

  /** The figures of one day, read from the ledger and the prices alone. */
  function PointOn(l: Ledger, m: Prices, day: int): DailyPerf {
    var cash := if l.cashAt(day).Some? then l.cashAt(day).value else 0.0;
    var holdings := Holdings(l, m, day, |m.symbols|);
    var contributed := ContributedBy(ExternalFlows(l), day);
    DailyPerf(day, cash, holdings, cash + holdings, contributed, FlowOn(ExternalFlows(l), day),
              cash + holdings - contributed, None)
  }

  /** Every day from the first active one, unless the series already runs. */
  function Points(l: Ledger, m: Prices, start: int, today: int, started: bool): (s: seq<DailyPerf>)
    ensures forall i :: 0 <= i < |s| ==> start <= s[i].date <= today
    decreases today - start + 1
  {
    if today < start then []
    else
      var before := Points(l, m, start, today - 1, started);
      if started || before != [] || Active(l, m, today) then before + [PointOn(l, m, today)] else before
  }

  lemma NoPoints(l: Ledger, m: Prices, start: int, today: int, started: bool)
    requires today < start
    ensures Points(l, m, start, today, started) == []
  {
  }

  lemma PointsStep(l: Ledger, m: Prices, start: int, day: int, started: bool)
    requires start <= day
    ensures var before := Points(l, m, start, day - 1, started);
            Points(l, m, start, day, started) ==
            if started || before != [] || Active(l, m, day) then before + [PointOn(l, m, day)] else before
  {
  }

  lemma {:induction false} PointsContinue(l: Ledger, m: Prices, start: int, mid: int, today: int, started: bool)
    requires start - 1 <= mid <= today
    ensures var head := Points(l, m, start, mid, started);
            Points(l, m, start, today, started) == head + Points(l, m, mid + 1, today, started || head != [])
    decreases today - mid
  {
    if mid < today {
      PointsContinue(l, m, start, mid, today - 1, started);
    }
  }

  /** The investor's side of the flows: contributions paid in, the last value taken out. */
  function InvestorCash(cash: seq<Dated>, today: int): seq<Dated> {
    if cash == [] then []
    else
      var last := cash[|cash| - 1];
      InvestorCash(cash[..|cash| - 1], today) + (if last.day <= today then [Dated(last.day, -last.amount)] else [])
  }

  function InvestorGrants(grants: seq<Dated>, today: int): seq<Dated> {
    if grants == [] then []
    else
      var last := grants[|grants| - 1];
      InvestorGrants(grants[..|grants| - 1], today)
      + (if last.amount != 0.0 && last.day <= today then [Dated(last.day, -last.amount)] else [])
  }

  function InvestorFlows(cash: seq<Dated>, grants: seq<Dated>, terminal: real, today: int): seq<Dated> {
    InvestorCash(cash, today) + InvestorGrants(grants, today) + [Dated(today, terminal)]
  }

  method XirrCashflows(cash: seq<Dated>, grants: seq<Dated>, terminal: real, today: int) returns (flows: seq<Dated>)
    ensures flows == InvestorFlows(cash, grants, terminal, today)
  {
    flows := [];
    for i := 0 to |cash|
      invariant flows == InvestorCash(cash[..i], today)
    {
      assert cash[..i + 1][..i] == cash[..i];
      if cash[i].day <= today {
        flows := flows + [Dated(cash[i].day, -cash[i].amount)];
      }
    }
    assert cash[..|cash|] == cash;
    for i := 0 to |grants|
      invariant flows == InvestorCash(cash, today) + InvestorGrants(grants[..i], today)
    {
      assert grants[..i + 1][..i] == grants[..i];
      if grants[i].amount != 0.0 && grants[i].day <= today {
        flows := flows + [Dated(grants[i].day, -grants[i].amount)];
      }
    }
    assert grants[..|grants|] == grants;
    flows := flows + [Dated(today, terminal)];
  }

  /** The rate `rate` finds over every flow, taken at the last value of a series. */
  function RateAt(daily: seq<DailyPerf>, cash: seq<Dated>, grants: seq<Dated>, today: int,
                  rate: seq<Dated> -> Option<real>): Option<real>
  {
    if daily == [] || (cash == [] && grants == []) then None
    else rate(InvestorFlows(cash, grants, daily[|daily| - 1].total, today))
  }

  function AccountPerf(l: Ledger, m: Prices, start: int, today: int, seed: Option<DailyPerf>,
                       rate: seq<Dated> -> Option<real>): Performance
  {
    var daily := Filled(Points(l, m, start, today, seed.Some?), seed);
    Performance(daily, RateAt(daily, l.cash, GrantFlows(l.grants), today, rate),
                l.cash != [], l.cash != [] || l.grants != [])
  }

  method DailyPoints(l: Ledger, m: Prices, start: int, today: int, running: bool) returns (daily: seq<DailyPerf>)
    ensures daily == Points(l, m, start, today, running)
  {
    hide Points, Holdings, Holds, ContributedBy, FlowOn;
    var flows := l.cash + GrantFlows(l.grants);
    var byDate := FlowsByDate(flows);
    var cursor := new RunningContribution(byDate, flows);
    daily := [];
    var started := running;
    var day := start;
    NoPoints(l, m, start, start - 1, running);
    while day <= today
      invariant start <= day && (start <= today ==> day <= today + 1) && (today < start ==> day == start)
      invariant cursor.Valid() && cursor.flows == flows && fresh(cursor)
      invariant cursor.asked == if day == start then None else Some(day - 1)
      invariant daily == Points(l, m, start, day - 1, running)
      invariant started <==> running || daily != []
      decreases today - day
    {
      PointsStep(l, m, start, day, running);
      var cash := l.cashAt(day);
      var holdings, hasPosition := HoldingsValue(l, m, day);
      var contributed := cursor.Contributed(day);
      if started || cash.Some? || hasPosition {
        started := true;
        var balance := if cash.Some? then cash.value else 0.0;
        var flow := FlowOfDay(byDate, flows, day);
        daily := daily + [DailyPerf(day, balance, holdings, balance + holdings, contributed, flow,
                                    balance + holdings - contributed, None)];
      }
      day := day + 1;
    }
    if today < start {
      NoPoints(l, m, start, today, running);
    }
  }

  method ComputeAccount(l: Ledger, m: Prices, start: int, today: int, seed: Option<DailyPerf>,
                        discount: (real, int) -> real)
    returns (perf: Performance)
    ensures perf == AccountPerf(l, m, start, today, seed, Solver(discount))
  {
    hide XirrOf, Filled, Points;
    var grants := GrantFlows(l.grants);
    var daily := DailyPoints(l, m, start, today, seed.Some?);
    daily := FilledSeries(daily, seed);
    perf := Performance(daily, None, l.cash != [], l.cash != [] || grants != []);
    if daily != [] && perf.hasExternalFlow {
      var flows := XirrCashflows(l.cash, grants, daily[|daily| - 1].total, today);
      var rate := InternalRate(flows, discount);
      perf := perf.(xirr := rate);
    }
  }

  method FlowOfDay(byDate: map<int, real>, ghost flows: seq<Dated>, day: int) returns (flow: real)
    requires ByDate(byDate, flows)
    ensures flow == FlowOn(flows, day)
  {
    flow := AmountOn(byDate, day);
    if day !in byDate {
      NoFlowOn(flows, day);
    }
  }

  method FilledSeries(daily: seq<DailyPerf>, seed: Option<DailyPerf>) returns (filled: seq<DailyPerf>)
    ensures filled == Filled(daily, seed)
  {
    var points := new DailyPerf[|daily|](i requires 0 <= i < |daily| => daily[i]);
    assert points[..] == daily;
    FillTwr(points, seed);
    filled := points[..];
  }

  /** An account's series over `[start, today]` is the one up to any day, then the one from its last point on. */
  lemma AccountContinues(l: Ledger, m: Prices, start: int, mid: int, today: int, seed: Option<DailyPerf>,
                         rate: seq<Dated> -> Option<real>)
    requires start - 1 <= mid < today
    ensures var whole := AccountPerf(l, m, start, today, seed, rate);
            var head := AccountPerf(l, m, start, mid, seed, rate);
            var tail := AccountPerf(l, m, mid + 1, today, LastOr(head.daily, seed), rate);
            whole.daily == head.daily + tail.daily && tail == whole.(daily := tail.daily)
  {
    hide Points, Filled, RateAt;
    var points := Points(l, m, start, mid, seed.Some?);
    PointsContinue(l, m, start, mid, today, seed.Some?);
    FillingContinues(points, Points(l, m, mid + 1, today, seed.Some? || points != []), seed);
    StaysStarted(l, m, mid + 1, today);
    var head := Filled(points, seed);
    var tail := Filled(Points(l, m, mid + 1, today, seed.Some? || points != []), LastOr(head, seed));
    RateOfLast(head, tail, l.cash, GrantFlows(l.grants), today, rate);
  }

  /** The rate reads the last point alone. */
  lemma RateOfLast(head: seq<DailyPerf>, tail: seq<DailyPerf>, cash: seq<Dated>, grants: seq<Dated>, today: int,
                   rate: seq<Dated> -> Option<real>)
    requires tail == [] ==> head == []
    ensures RateAt(head + tail, cash, grants, today, rate) == RateAt(tail, cash, grants, today, rate)
  {
    hide XirrOf;
  }

  /** A series that already runs has a point every day. */
  lemma {:induction false} StaysStarted(l: Ledger, m: Prices, start: int, today: int)
    ensures |Points(l, m, start, today, true)| == if today < start then 0 else today - start + 1
    decreases today - start + 1
  {
    if start <= today {
      StaysStarted(l, m, start, today - 1);
    }
  }
}
