/** What the daily points say, told from the ledger and the prices: of an account, and of the portfolio. */
module PerformanceLaws {
  import opened Basics
  import opened Xirr
  import opened PerformanceSeries
  import opened PortfolioTotal

  // ---- What holdings are worth ----

  /** A held position is worth its quantity at the market's price; never quoted yet and carried, what it cost. */
  lemma WorthTells(m: Prices, symbol: string, p: Position, day: int)
    ensures var worth := Worth(m, symbol, Some(p), day);
            match m.priceAt(symbol, day)
            case Some(price) => worth == p.quantity * price
            case None =>
              if p.quantity != 0.0 && symbol in m.carried && (symbol in m.firstQuoted ==> day < m.firstQuoted[symbol])
              then worth == p.costBasis
              else worth == 0.0
    ensures Worth(m, symbol, None, day) == 0.0
  {
    if p.quantity != 0.0 {
      DivideThenMultiply(p.costBasis, p.quantity);
    }
  }

  /** Holdings add up over the symbols, one of which is worth its position. */
  lemma {:induction false} HoldingsAdd(l: Ledger, m: Prices, day: int, a: seq<string>, b: seq<string>)
    requires m.symbols == a + b
    ensures var first, rest := m.(symbols := a), m.(symbols := b);
            Holdings(l, m, day, |m.symbols|) == Holdings(l, first, day, |a|) + Holdings(l, rest, day, |b|)
    decreases |b|
  {
    hide Holdings;
    var first, rest := m.(symbols := a), m.(symbols := b);
    HoldingsStep(l, rest, day, |b|);
    if b == [] {
      assert a + b == a && first == m;
    } else {
      var n := |b| - 1;
      var shorter := m.(symbols := a + b[..n]);
      HoldingsAdd(l, shorter, day, a, b[..n]);
      assert shorter.(symbols := a) == first && shorter.(symbols := b[..n]) == m.(symbols := b[..n]);
      HoldingsOfPrefix(l, m, shorter, day, |a| + n);
      HoldingsOfPrefix(l, rest, m.(symbols := b[..n]), day, n);
      HoldingsStep(l, m, day, |a| + n + 1);
      assert m.symbols[|a| + n] == b[n];
      WorthSame(m, rest, b[n], l.positionAt(b[n], day), day);
    }
  }

  lemma HoldingsOfOne(l: Ledger, m: Prices, day: int, symbol: string)
    requires m.symbols == [symbol]
    ensures Holdings(l, m, day, 1) == Worth(m, symbol, l.positionAt(symbol, day), day)
  {
    HoldingsStep(l, m, day, 1);
    HoldingsStep(l, m, day, 0);
  }

  lemma HoldingsStep(l: Ledger, m: Prices, day: int, n: nat)
    requires n <= |m.symbols|
    ensures Holdings(l, m, day, n)
         == if n == 0 then 0.0
            else Holdings(l, m, day, n - 1) + Worth(m, m.symbols[n - 1], l.positionAt(m.symbols[n - 1], day), day)
  {
  }

  lemma WorthSame(m: Prices, m': Prices, symbol: string, position: Option<Position>, day: int)
    requires m' == m.(symbols := m'.symbols)
    ensures Worth(m, symbol, position, day) == Worth(m', symbol, position, day)
  {
  }

  lemma {:induction false} HoldingsOfPrefix(l: Ledger, m: Prices, shorter: Prices, day: int, n: nat)
    requires n <= |shorter.symbols| <= |m.symbols| && shorter == m.(symbols := shorter.symbols)
    requires shorter.symbols <= m.symbols
    ensures Holdings(l, m, day, n) == Holdings(l, shorter, day, n)
  {
    hide Holdings, Worth;
    HoldingsStep(l, m, day, n);
    HoldingsStep(l, shorter, day, n);
    if n > 0 {
      HoldingsOfPrefix(l, m, shorter, day, n - 1);
      var s := m.symbols[n - 1];
      WorthSame(m, shorter, s, l.positionAt(s, day), day);
    }
  }

  // ---- What was put in ----

  /** The cash paid in by a day. */
  function PaidBy(cash: seq<Dated>, day: int): real {
    if cash == [] then 0.0
    else
      var last := cash[|cash| - 1];
      PaidBy(cash[..|cash| - 1], day) + (if last.day <= day then last.amount else 0.0)
  }

  /** The grants received by a day, at the price they were declared at when it is one. */
  function GrantedBy(grants: seq<Grant>, day: int): real {
    if grants == [] then 0.0
    else
      var g := grants[|grants| - 1];
      GrantedBy(grants[..|grants| - 1], day)
      + (if g.day <= day && g.unitPrice.Some? && g.unitPrice.value > 0.0 then g.quantity * g.unitPrice.value else 0.0)
  }

  lemma {:induction false} ContributedOfBoth(a: seq<Dated>, b: seq<Dated>, day: int)
    ensures ContributedBy(a + b, day) == ContributedBy(a, day) + ContributedBy(b, day)
  {
    if b == [] {
      assert a + b == a;
    } else {
      var n := |b| - 1;
      ContributedOfBoth(a, b[..n], day);
      assert (a + b)[..|a| + n] == a + b[..n];
    }
  }

  lemma {:induction false} ContributedIsPaid(cash: seq<Dated>, day: int)
    ensures ContributedBy(cash, day) == PaidBy(cash, day)
  {
    if cash != [] {
      ContributedIsPaid(cash[..|cash| - 1], day);
    }
  }

  lemma {:induction false} ContributedIsGranted(grants: seq<Grant>, day: int)
    ensures ContributedBy(GrantFlows(grants), day) == GrantedBy(grants, day)
  {
    if grants != [] {
      var n := |grants| - 1;
      ContributedIsGranted(grants[..n], day);
      assert GrantFlows(grants)[..n] == GrantFlows(grants[..n]);
    }
  }

  // ---- The points of an account ----

  /** A point against the ledger: the money of its day, split into cash and holdings, against all that was put in. */
  predicate PointTells(l: Ledger, m: Prices, p: DailyPerf) {
    && p.cashBalance == (if l.cashAt(p.date).Some? then l.cashAt(p.date).value else 0.0)
    && p.holdings == Holdings(l, m, p.date, |m.symbols|)
    && p.total == p.cashBalance + p.holdings
    && p.contributed == PaidBy(l.cash, p.date) + GrantedBy(l.grants, p.date)
    && p.gain == p.total - p.contributed
  }

  /** From one evening to the next: what is not the day's flow is gain. */
  predicate MovesBy(before: DailyPerf, p: DailyPerf) {
    && p.date == before.date + 1
    && p.contributed == before.contributed + p.flow
    && p.gain - before.gain == p.total - before.total - p.flow
  }

  /**
   * The index from one evening to the next: it starts at 100 with the first value, then
   * grows by what the flow does not explain.
   */
  predicate IndexMoves(before: Option<DailyPerf>, p: DailyPerf) {
    if before.None? || before.value.twr.None? then p.twr == (if p.total != 0.0 then Some(100.0) else None)
    else if before.value.total == 0.0 || p.total == 0.0 then p.twr == before.value.twr
    else p.twr.Some? && p.twr.value * before.value.total == before.value.twr.value * (p.total - p.flow)
  }

  predicate Opens(l: Ledger, m: Prices, day: int) {
    l.cashAt(day).Some? || exists i :: 0 <= i < |m.symbols| && l.positionAt(m.symbols[i], day).Some?
  }

  /** One point a day to the last one asked, from the first day there was anything, or at once when the series runs. */
  ghost predicate EveryDay(l: Ledger, m: Prices, daily: seq<DailyPerf>, start: int, today: int, running: bool) {
    && (forall i :: 0 <= i < |daily| ==> daily[i].date == today - |daily| + 1 + i)
    && |daily| <= (if start <= today then today - start + 1 else 0)
    && (running && start <= today ==> |daily| == today - start + 1)
    && (!running ==> forall day :: start <= day <= today - |daily| ==> !Opens(l, m, day))
    && (!running && daily != [] ==> Opens(l, m, daily[0].date))
  }

  lemma PointOnTells(l: Ledger, m: Prices, day: int)
    ensures PointTells(l, m, PointOn(l, m, day)) && PointOn(l, m, day).date == day
    ensures MovesBy(PointOn(l, m, day - 1), PointOn(l, m, day))
  {
    hide Holdings, ContributedBy, FlowOn, GrantFlows, PaidBy, GrantedBy;
    ContributedOfBoth(l.cash, GrantFlows(l.grants), day);
    ContributedIsPaid(l.cash, day);
    ContributedIsGranted(l.grants, day);
    NextFlowDay(ExternalFlows(l), day - 1, day);
  }

  lemma {:induction false} PointsTell(l: Ledger, m: Prices, start: int, today: int, running: bool)
    ensures var s := Points(l, m, start, today, running);
            && EveryDay(l, m, s, start, today, running)
            && forall i :: 0 <= i < |s| ==> s[i] == PointOn(l, m, s[i].date)
    decreases today - start + 1
  {
    hide PointOn, Holds;
    if start <= today {
      PointsTell(l, m, start, today - 1, running);
      PointOnTells(l, m, today);
      ActiveOpens(l, m, today);
    }
  }

  lemma ActiveOpens(l: Ledger, m: Prices, day: int)
    ensures Active(l, m, day) <==> Opens(l, m, day)
  {
  }

  lemma {:induction false} FilledMoves(daily: seq<DailyPerf>, seed: Option<DailyPerf>, i: nat)
    requires i < |daily|
    ensures var r := Filled(daily, seed);
            IndexMoves(if i > 0 then Some(r[i - 1]) else seed, r[i])
  {
    hide NextTwr, Filled;
    FilledStep(daily, seed);
    var n := |daily| - 1;
    var before := Filled(daily[..n], seed);
    if i < n {
      FilledMoves(daily[..n], seed, i);
      assert Filled(daily, seed)[..n] == before;
    } else {
      NextMoves(LastOr(before, seed), daily[n]);
    }
  }

  lemma NextMoves(before: Option<DailyPerf>, dp: DailyPerf)
    ensures IndexMoves(before, dp.(twr := NextTwr(before, dp)))
  {
    if before.Some? && before.value.twr.Some? && before.value.total != 0.0 && dp.total != 0.0 {
      DivideThenMultiply(before.value.twr.value * (dp.total - dp.flow), before.value.total);
    }
  }

  /** Every point of an account, against its ledger, against the one before, and on the calendar. */
  lemma AccountTells(l: Ledger, m: Prices, start: int, today: int, seed: Option<DailyPerf>,
                     rate: seq<Dated> -> Option<real>, i: nat)
    requires i < |AccountPerf(l, m, start, today, seed, rate).daily|
    ensures var daily := AccountPerf(l, m, start, today, seed, rate).daily;
            && EveryDay(l, m, daily, start, today, seed.Some?)
            && PointTells(l, m, daily[i])
            && (i > 0 ==> MovesBy(daily[i - 1], daily[i]))
            && IndexMoves(if i > 0 then Some(daily[i - 1]) else seed, daily[i])
  {
    hide PointOn, Points, Filled, RateAt, Holdings, PaidBy, GrantedBy, Opens, IndexMoves;
    var points := Points(l, m, start, today, seed.Some?);
    var daily := AccountPerf(l, m, start, today, seed, rate).daily;
    PointsTell(l, m, start, today, seed.Some?);
    FilledMoves(points, seed, i);
    assert daily[i].(twr := points[i].twr) == points[i];
    PointOnTells(l, m, points[i].date);
    if i > 0 {
      assert daily[i - 1].(twr := points[i - 1].twr) == points[i - 1];
    }
  }

  // ---- The rate ----

  /** What the flows up to a day come to at a rate, each discounted from the origin. */
  function Brought(flows: seq<Dated>, today: int, origin: int, discount: (real, int) -> real, rate: real): real {
    if flows == [] then 0.0
    else
      var f := flows[|flows| - 1];
      Brought(flows[..|flows| - 1], today, origin, discount, rate)
      + (if f.day <= today then f.amount * discount(rate, f.day - origin) else 0.0)
  }

  /** The last value against everything brought in, at a rate. */
  function Balance(cash: seq<Dated>, grants: seq<Dated>, terminal: real, today: int, origin: int,
                   discount: (real, int) -> real, rate: real): real
  {
    terminal * discount(rate, today - origin)
    - Brought(cash, today, origin, discount, rate) - Brought(grants, today, origin, discount, rate)
  }

  lemma {:induction false} ValueOfBoth(a: seq<Dated>, b: seq<Dated>, origin: int, discount: (real, int) -> real,
                                       rate: real)
    ensures Value(a + b, origin, discount, rate) == Value(a, origin, discount, rate) + Value(b, origin, discount, rate)
  {
    if b == [] {
      assert a + b == a;
    } else {
      var n := |b| - 1;
      ValueOfBoth(a, b[..n], origin, discount, rate);
      assert (a + b)[..|a| + n] == a + b[..n];
    }
  }

  lemma ValueOfOne(f: Dated, origin: int, discount: (real, int) -> real, rate: real)
    ensures Value([f], origin, discount, rate) == f.amount * discount(rate, f.day - origin)
  {
    assert [f][..0] == [];
  }

  lemma {:induction false} CashBrought(cash: seq<Dated>, today: int, origin: int, discount: (real, int) -> real,
                                       rate: real)
    ensures Value(InvestorCash(cash, today), origin, discount, rate) == -Brought(cash, today, origin, discount, rate)
  {
    hide Value;
    if cash == [] {
      NoValue(origin, discount, rate);
    } else {
      var n := |cash| - 1;
      var f := cash[n];
      CashBrought(cash[..n], today, origin, discount, rate);
      ValueOfBoth(InvestorCash(cash[..n], today), [Dated(f.day, -f.amount)], origin, discount, rate);
      ValueOfOne(Dated(f.day, -f.amount), origin, discount, rate);
      Opposed(f.amount, discount(rate, f.day - origin));
      assert InvestorCash(cash[..n], today) + [] == InvestorCash(cash[..n], today);
    }
  }

  lemma {:induction false} GrantsBrought(grants: seq<Dated>, today: int, origin: int, discount: (real, int) -> real,
                                         rate: real)
    ensures Value(InvestorGrants(grants, today), origin, discount, rate)
            == -Brought(grants, today, origin, discount, rate)
  {
    hide Value;
    if grants == [] {
      NoValue(origin, discount, rate);
    } else {
      var n := |grants| - 1;
      var f := grants[n];
      GrantsBrought(grants[..n], today, origin, discount, rate);
      ValueOfBoth(InvestorGrants(grants[..n], today), [Dated(f.day, -f.amount)], origin, discount, rate);
      ValueOfOne(Dated(f.day, -f.amount), origin, discount, rate);
      Opposed(f.amount, discount(rate, f.day - origin));
      assert InvestorGrants(grants[..n], today) + [] == InvestorGrants(grants[..n], today);
    }
  }

  lemma NoValue(origin: int, discount: (real, int) -> real, rate: real)
    ensures Value([], origin, discount, rate) == 0.0
  {
  }

  lemma Opposed(a: real, b: real)
    ensures (-a) * b == -(a * b)
  {
  }

  /** A value function of the rate that weighs the last value against what was brought in. */
  ghost predicate Weighs(npv: real -> real, cash: seq<Dated>, grants: seq<Dated>, terminal: real, today: int,
                         origin: int, discount: (real, int) -> real)
  {
    forall rate :: npv(rate) == Balance(cash, grants, terminal, today, origin, discount, rate)
  }

  /** A flow that counts in the rate: on or before the day, and not of a worthless grant. */
  predicate Counts(cash: seq<Dated>, grants: seq<Dated>, today: int, f: Dated) {
    f.day <= today && (f in cash || (f in grants && f.amount != 0.0))
  }

  /** The flows are weighed from the first of them, or from the day itself. */
  ghost predicate IsOrigin(cash: seq<Dated>, grants: seq<Dated>, today: int, origin: int) {
    && origin <= today
    && (forall f :: Counts(cash, grants, today, f) ==> origin <= f.day)
    && (origin < today ==> exists f :: Counts(cash, grants, today, f) && f.day == origin)
  }

  lemma {:induction false} CashMember(cash: seq<Dated>, today: int, f: Dated)
    ensures Dated(f.day, -f.amount) in InvestorCash(cash, today) <==> f.day <= today && f in cash
  {
    if cash != [] {
      var n := |cash| - 1;
      CashMember(cash[..n], today, f);
      SeqMember(cash, f);
      SeqMember(InvestorCash(cash, today), Dated(f.day, -f.amount));
    }
  }

  lemma {:induction false} GrantMember(grants: seq<Dated>, today: int, f: Dated)
    ensures Dated(f.day, -f.amount) in InvestorGrants(grants, today)
       <==> f.day <= today && f in grants && f.amount != 0.0
  {
    if grants != [] {
      var n := |grants| - 1;
      GrantMember(grants[..n], today, f);
      SeqMember(grants, f);
      var g := grants[n];
      var one := if g.amount != 0.0 && g.day <= today then [Dated(g.day, -g.amount)] else [];
      assert InvestorGrants(grants, today) == InvestorGrants(grants[..n], today) + one;
      hide InvestorGrants;
    }
  }

  lemma SeqMember(s: seq<Dated>, f: Dated)
    ensures s != [] ==> (f in s <==> f in s[..|s| - 1] || f == s[|s| - 1])
  {
    assert s != [] ==> s == s[..|s| - 1] + [s[|s| - 1]];
  }

  lemma InvestorMember(cash: seq<Dated>, grants: seq<Dated>, terminal: real, today: int, f: Dated)
    ensures Dated(f.day, -f.amount) in InvestorFlows(cash, grants, terminal, today)
       <==> Counts(cash, grants, today, f) || f == Dated(today, -terminal)
  {
    hide InvestorCash, InvestorGrants;
    CashMember(cash, today, f);
    GrantMember(grants, today, f);
  }

  /** Every flow weighed is one that counts, or the last value. */
  lemma InvestorDay(cash: seq<Dated>, grants: seq<Dated>, terminal: real, today: int, g: Dated)
    requires g in InvestorFlows(cash, grants, terminal, today)
    ensures Counts(cash, grants, today, Dated(g.day, -g.amount)) || g.day == today
  {
    hide InvestorFlows, Counts;
    InvestorMember(cash, grants, terminal, today, Dated(g.day, -g.amount));
  }

  lemma FirstDayIsOrigin(cash: seq<Dated>, grants: seq<Dated>, terminal: real, today: int)
    ensures var flows := InvestorFlows(cash, grants, terminal, today);
            && IsOrigin(cash, grants, today, FirstDay(flows))
            && (OneDay(flows) <==> FirstDay(flows) == today)
  {
    var flows := InvestorFlows(cash, grants, terminal, today);
    assert Dated(today, terminal) in flows;
    hide InvestorFlows, FirstDay;
    forall f | Counts(cash, grants, today, f) ensures FirstDay(flows) <= f.day {
      InvestorMember(cash, grants, terminal, today, f);
    }
    forall g | g in flows ensures g.day <= today {
      InvestorDay(cash, grants, terminal, today, g);
    }
    var g :| g in flows && g.day == FirstDay(flows);
    InvestorDay(cash, grants, terminal, today, g);
    if g.day < today {
      assert Counts(cash, grants, today, Dated(g.day, -g.amount));
    }
  }

  /** The flows of a rate, weighed: the value function the bisection is given. */
  lemma FlowsWeigh(cash: seq<Dated>, grants: seq<Dated>, terminal: real, today: int, origin: int,
                   discount: (real, int) -> real)
    ensures Weighs(ValueAt(InvestorFlows(cash, grants, terminal, today), origin, discount), cash, grants, terminal,
                   today, origin, discount)
  {
    var flows := InvestorFlows(cash, grants, terminal, today);
    var npv := ValueAt(flows, origin, discount);
    forall rate ensures npv(rate) == Balance(cash, grants, terminal, today, origin, discount, rate) {
      FlowsBalance(cash, grants, terminal, today, origin, discount, rate);
    }
    hide Value, Balance, InvestorFlows;
  }

  lemma FlowsBalance(cash: seq<Dated>, grants: seq<Dated>, terminal: real, today: int, origin: int,
                     discount: (real, int) -> real, rate: real)
    ensures Value(InvestorFlows(cash, grants, terminal, today), origin, discount, rate)
         == Balance(cash, grants, terminal, today, origin, discount, rate)
  {
    hide Value, Brought;
    var a, b := InvestorCash(cash, today), InvestorGrants(grants, today);
    ValueOfBoth(a + b, [Dated(today, terminal)], origin, discount, rate);
    ValueOfBoth(a, b, origin, discount, rate);
    ValueOfOne(Dated(today, terminal), origin, discount, rate);
    CashBrought(cash, today, origin, discount, rate);
    GrantsBrought(grants, today, origin, discount, rate);
  }

  /**
   * What a rate is: an answer of the balance from its origin; and there is none
   * exactly when no such balance changes sign.
   */
  ghost predicate IsRate(xirr: Option<real>, cash: seq<Dated>, grants: seq<Dated>, terminal: real, today: int,
                         discount: (real, int) -> real)
  {
    exists npv, origin ::
      && IsOrigin(cash, grants, today, origin) && Weighs(npv, cash, grants, terminal, today, origin, discount)
      && (xirr.None? <==> origin == today || npv(LOW) * npv(HIGH) > 0.0)
      && (xirr.Some? ==> LOW <= xirr.value < HIGH && Answers(npv, xirr.value))
  }

  lemma XirrIsRate(cash: seq<Dated>, grants: seq<Dated>, terminal: real, today: int, discount: (real, int) -> real)
    ensures IsRate(Solver(discount)(InvestorFlows(cash, grants, terminal, today)), cash, grants, terminal, today,
                   discount)
  {
    hide InvestorFlows, FirstDay, Searched, Weighs, IsOrigin, Bisected, Answers;
    var flows := InvestorFlows(cash, grants, terminal, today);
    InvestorMember(cash, grants, terminal, today, Dated(today, -terminal));
    FirstDayIsOrigin(cash, grants, terminal, today);
    var origin := FirstDay(flows);
    FlowsWeigh(cash, grants, terminal, today, origin, discount);
    RateAnswers(ValueAt(flows, origin, discount), MAX_TURNS);
  }

  /** The rate of an account: of everything it was ever brought, against what it is worth on its last day. */
  lemma AccountRate(l: Ledger, m: Prices, start: int, today: int, seed: Option<DailyPerf>,
                    discount: (real, int) -> real)
    ensures var perf := AccountPerf(l, m, start, today, seed, Solver(discount));
            && perf.hasCashLedger == (l.cash != []) && perf.hasExternalFlow == (l.cash != [] || l.grants != [])
            && if perf.daily == [] || (l.cash == [] && l.grants == []) then perf.xirr.None?
               else IsRate(perf.xirr, l.cash, GrantFlows(l.grants), perf.daily[|perf.daily| - 1].total, today, discount)
  {
    hide Filled, Points, XirrOf, InvestorFlows, IsRate;
    var perf := AccountPerf(l, m, start, today, seed, Solver(discount));
    if perf.daily != [] {
      XirrIsRate(l.cash, GrantFlows(l.grants), perf.daily[|perf.daily| - 1].total, today, discount);
    }
  }

  // ---- The points of the portfolio ----

  const CASH := (p: DailyPerf) => p.cashBalance
  const HOLDINGS := (p: DailyPerf) => p.holdings
  const TOTAL := (p: DailyPerf) => p.total
  const CONTRIBUTED := (p: DailyPerf) => p.contributed
  const FLOW := (p: DailyPerf) => p.flow
  const GAIN := (p: DailyPerf) => p.gain

  /** A figure summed over the points of a day. */
  function OnDay(points: seq<DailyPerf>, day: int, figure: DailyPerf -> real): real {
    if points == [] then 0.0
    else
      var last := points[|points| - 1];
      OnDay(points[..|points| - 1], day, figure) + (if last.date == day then figure(last) else 0.0)
  }

  /** A figure summed over the accounts. */
  function Added(perfs: seq<Performance>, day: int, figure: DailyPerf -> real): real {
    if perfs == [] then 0.0
    else Added(perfs[..|perfs| - 1], day, figure) + OnDay(perfs[|perfs| - 1].daily, day, figure)
  }

  function Of(sum: Option<DailyPerf>, figure: DailyPerf -> real): real {
    if sum.None? then 0.0 else figure(sum.value)
  }

  ghost predicate Merges(figure: DailyPerf -> real) {
    forall sum, p :: figure(Merged(sum, p)) == Of(sum, figure) + figure(p)
  }

  lemma EveryFigureMerges()
    ensures Merges(CASH) && Merges(HOLDINGS) && Merges(TOTAL) && Merges(CONTRIBUTED) && Merges(FLOW) && Merges(GAIN)
  {
  }

  predicate HasPoint(perfs: seq<Performance>, day: int) {
    exists i :: 0 <= i < |perfs| && SeriesHas(perfs[i].daily, day)
  }

  predicate SeriesHas(points: seq<DailyPerf>, day: int) {
    exists k :: 0 <= k < |points| && points[k].date == day
  }

  lemma {:induction false} SummedAdds(sum: Option<DailyPerf>, points: seq<DailyPerf>, day: int,
                                      figure: DailyPerf -> real)
    requires Merges(figure)
    ensures var s := SummedOn(sum, points, day);
            && Of(s, figure) == Of(sum, figure) + OnDay(points, day, figure)
            && (s.Some? <==> sum.Some? || SeriesHas(points, day))
            && (s.Some? && (sum.Some? ==> sum.value.date == day) ==> s.value.date == day)
  {
    hide Merged;
    if points != [] {
      var n := |points| - 1;
      SummedAdds(sum, points[..n], day, figure);
      assert SeriesHas(points[..n], day) ==> SeriesHas(points, day);
      if points[n].date == day {
        assert SeriesHas(points, day);
        MergedDate(SummedOn(sum, points[..n], day), points[n]);
      } else if SeriesHas(points, day) {
        var k :| 0 <= k < |points| && points[k].date == day;
        assert points[..n][k].date == day;
      }
    }
  }

  lemma MergedDate(sum: Option<DailyPerf>, p: DailyPerf)
    ensures Merged(sum, p).date == p.date && Merged(sum, p).twr == None
  {
  }

  lemma {:induction false} TotalAdds(perfs: seq<Performance>, day: int, figure: DailyPerf -> real)
    requires Merges(figure)
    ensures var s := TotalOn(perfs, day);
            && Of(s, figure) == Added(perfs, day, figure)
            && (s.Some? <==> HasPoint(perfs, day)) && (s.Some? ==> s.value.date == day)
  {
    hide SummedOn, OnDay, Merges, SeriesHas;
    if perfs != [] {
      var n := |perfs| - 1;
      TotalAdds(perfs[..n], day, figure);
      SummedAdds(TotalOn(perfs[..n], day), perfs[n].daily, day, figure);
      assert HasPoint(perfs, day) <==> HasPoint(perfs[..n], day) || SeriesHas(perfs[n].daily, day) by {
        if i :| 0 <= i < n && SeriesHas(perfs[i].daily, day) {
          assert SeriesHas(perfs[..n][i].daily, day);
        }
      }
    }
  }

  /** A point of the portfolio: every figure is the sum of the accounts' on its day. */
  predicate AddsUp(perfs: seq<Performance>, p: DailyPerf) {
    && p.cashBalance == Added(perfs, p.date, CASH) && p.holdings == Added(perfs, p.date, HOLDINGS)
    && p.total == Added(perfs, p.date, TOTAL) && p.contributed == Added(perfs, p.date, CONTRIBUTED)
    && p.flow == Added(perfs, p.date, FLOW) && p.gain == Added(perfs, p.date, GAIN)
  }

  lemma TotalAddsUp(perfs: seq<Performance>, day: int)
    ensures var s := TotalOn(perfs, day);
            && (s.Some? <==> HasPoint(perfs, day)) && (s.Some? ==> s.value.date == day && AddsUp(perfs, s.value))
  {
    hide TotalOn, Added, Merges, HasPoint;
    EveryFigureMerges();
    TotalAdds(perfs, day, CASH);
    TotalAdds(perfs, day, HOLDINGS);
    TotalAdds(perfs, day, TOTAL);
    TotalAdds(perfs, day, CONTRIBUTED);
    TotalAdds(perfs, day, FLOW);
    TotalAdds(perfs, day, GAIN);
  }

  // ---- The portfolio over its accounts ----

  /** One point a day, up to a last one. */
  predicate Runs(daily: seq<DailyPerf>, today: int) {
    forall i :: 0 <= i < |daily| ==> daily[i].date == today - |daily| + 1 + i
  }

  /** A series whose figures hold together, on each day and from each to the next. */
  ghost predicate Coherent(daily: seq<DailyPerf>, today: int) {
    && Runs(daily, today)
    && (forall p :: p in daily ==> p.total == p.cashBalance + p.holdings && p.gain == p.total - p.contributed)
    && forall i :: 0 < i < |daily| ==> MovesBy(daily[i - 1], daily[i])
  }

  /** What an account had been brought before the day its series opens, when that is the day. */
  function JoinedBy(daily: seq<DailyPerf>, day: int): real {
    if daily != [] && daily[0].date == day then daily[0].contributed - daily[0].flow else 0.0
  }

  function Joined(perfs: seq<Performance>, day: int): real {
    if perfs == [] then 0.0
    else Joined(perfs[..|perfs| - 1], day) + JoinedBy(perfs[|perfs| - 1].daily, day)
  }

  lemma {:induction false} OnDayAt(daily: seq<DailyPerf>, today: int, day: int, figure: DailyPerf -> real)
    requires Runs(daily, today)
    ensures OnDay(daily, day, figure)
         == if today - |daily| < day <= today then figure(daily[day - today + |daily| - 1]) else 0.0
  {
    if daily != [] {
      OnDayAt(daily[..|daily| - 1], today - 1, day, figure);
    }
  }

  lemma SeriesCoheres(daily: seq<DailyPerf>, today: int, day: int)
    requires Coherent(daily, today) && day <= today
    ensures OnDay(daily, day, TOTAL) == OnDay(daily, day, CASH) + OnDay(daily, day, HOLDINGS)
    ensures OnDay(daily, day, GAIN) == OnDay(daily, day, TOTAL) - OnDay(daily, day, CONTRIBUTED)
    ensures OnDay(daily, day, CONTRIBUTED)
         == OnDay(daily, day - 1, CONTRIBUTED) + OnDay(daily, day, FLOW) + JoinedBy(daily, day)
  {
    hide OnDay;
    OnDayAt(daily, today, day, TOTAL);
    OnDayAt(daily, today, day, CASH);
    OnDayAt(daily, today, day, HOLDINGS);
    OnDayAt(daily, today, day, GAIN);
    OnDayAt(daily, today, day, CONTRIBUTED);
    OnDayAt(daily, today, day, FLOW);
    OnDayAt(daily, today, day - 1, CONTRIBUTED);
  }

  lemma {:induction false} AccountsCohere(perfs: seq<Performance>, today: int, day: int)
    requires day <= today && forall i :: 0 <= i < |perfs| ==> Coherent(perfs[i].daily, today)
    ensures Added(perfs, day, TOTAL) == Added(perfs, day, CASH) + Added(perfs, day, HOLDINGS)
    ensures Added(perfs, day, GAIN) == Added(perfs, day, TOTAL) - Added(perfs, day, CONTRIBUTED)
    ensures Added(perfs, day, CONTRIBUTED)
         == Added(perfs, day - 1, CONTRIBUTED) + Added(perfs, day, FLOW) + Joined(perfs, day)
  {
    hide Coherent, OnDay, JoinedBy;
    if perfs != [] {
      AccountsCohere(perfs[..|perfs| - 1], today, day);
      SeriesCoheres(perfs[|perfs| - 1].daily, today, day);
    }
  }

  /** A series that runs to the last day has a point from its first one on. */
  lemma PointsStay(perfs: seq<Performance>, today: int, day: int)
    requires day < today && HasPoint(perfs, day) && forall i :: 0 <= i < |perfs| ==> Runs(perfs[i].daily, today)
    ensures HasPoint(perfs, day + 1)
  {
    var i :| 0 <= i < |perfs| && SeriesHas(perfs[i].daily, day);
    var k :| 0 <= k < |perfs[i].daily| && perfs[i].daily[k].date == day;
    assert perfs[i].daily[k + 1].date == day + 1;
    assert SeriesHas(perfs[i].daily, day + 1);
  }

  lemma {:induction false} TotalRuns(perfs: seq<Performance>, start: int, today: int, day: int)
    requires day <= today && forall i :: 0 <= i < |perfs| ==> Runs(perfs[i].daily, today)
    ensures var s := TotalPoints(perfs, start, day);
            && Runs(s, day) && (!HasPoint(perfs, day) ==> s == [])
            && |s| <= (if start <= day then day - start + 1 else 0)
            && (forall i :: 0 <= i < |s| ==> AddsUp(perfs, s[i]))
            && forall d :: start <= d <= day ==> (HasPoint(perfs, d) <==> day - |s| < d)
    decreases day - start + 1
  {
    hide TotalOn, Runs, HasPoint, AddsUp;
    NoneRuns(day);
    if start <= day {
      TotalRuns(perfs, start, today, day - 1);
      TotalAddsUp(perfs, day);
      if HasPoint(perfs, day - 1) {
        PointsStay(perfs, today, day - 1);
      }
      if HasPoint(perfs, day) {
        RunsOn(TotalPoints(perfs, start, day - 1), TotalOn(perfs, day).value, day);
      }
    }
  }

  lemma NoneRuns(today: int)
    ensures Runs([], today)
  {
  }

  lemma RunsOn(s: seq<DailyPerf>, p: DailyPerf, day: int)
    requires Runs(s, day - 1) && p.date == day
    ensures Runs(s + [p], day)
  {
  }

  lemma AccountCoheres(l: Ledger, m: Prices, start: int, today: int, seed: Option<DailyPerf>,
                       rate: seq<Dated> -> Option<real>)
    ensures Coherent(AccountPerf(l, m, start, today, seed, rate).daily, today)
  {
    hide Holdings, PaidBy, GrantedBy, Opens, IndexMoves;
    var daily := AccountPerf(l, m, start, today, seed, rate).daily;
    forall i | 0 <= i < |daily|
      ensures daily[i].date == today - |daily| + 1 + i
      ensures daily[i].total == daily[i].cashBalance + daily[i].holdings
      ensures daily[i].gain == daily[i].total - daily[i].contributed
      ensures i > 0 ==> MovesBy(daily[i - 1], daily[i])
    {
      AccountTells(l, m, start, today, seed, rate, i);
      hide AccountPerf;
    }
    hide AccountPerf;
  }

  /** The money of a day adds up. */
  predicate Balanced(p: DailyPerf) {
    p.total == p.cashBalance + p.holdings && p.gain == p.total - p.contributed
  }

  /**
   * From one evening to the next: what is neither the day's flow nor brought before by an account that joins is gain.
   */
  predicate MovesJoined(before: DailyPerf, p: DailyPerf, joined: real) {
    && p.contributed == before.contributed + p.flow + joined
    && p.gain - before.gain == p.total - before.total - p.flow - joined
  }

  lemma SumsBalance(perfs: seq<Performance>, today: int, before: DailyPerf, p: DailyPerf)
    requires p.date <= today && forall i :: 0 <= i < |perfs| ==> Coherent(perfs[i].daily, today)
    requires AddsUp(perfs, p)
    ensures Balanced(p)
    ensures before.date == p.date - 1 && AddsUp(perfs, before) ==> MovesJoined(before, p, Joined(perfs, p.date))
  {
    hide Coherent, Added, Joined;
    AccountsCohere(perfs, today, p.date);
    AccountsCohere(perfs, today, p.date - 1);
  }

  /**
   * The portfolio's points: one a day to the last, each figure the sum of the accounts', and holding together as theirs
   * do, what an account had been brought before its series opens coming in on the day it does.
   */
  lemma PortfolioTells(ledgers: seq<Ledger>, m: Prices, start: int, today: int, seeds: seq<Option<DailyPerf>>,
                       seed: Option<DailyPerf>, rate: seq<Dated> -> Option<real>, i: nat)
    requires |seeds| == |ledgers| > 0
    requires var perfs := Perfs(ledgers, m, start, today, seeds, rate);
             i < |TotalPerf(ledgers, perfs, start, today, seed, rate).value.daily|
    ensures var perfs := Perfs(ledgers, m, start, today, seeds, rate);
            var daily := TotalPerf(ledgers, perfs, start, today, seed, rate).value.daily;
            && Runs(daily, today) && AddsUp(perfs, daily[i]) && Balanced(daily[i])
            && (forall d :: start <= d <= today ==> (HasPoint(perfs, d) <==> today - |daily| < d))
            && (i > 0 ==> MovesJoined(daily[i - 1], daily[i], Joined(perfs, daily[i].date)))
            && IndexMoves(if i > 0 then Some(daily[i - 1]) else seed, daily[i])
  {
    hide AccountPerf, TotalPoints, Filled, RateAt, Coherent, Runs, HasPoint, IndexMoves, Joined, EveryCashLedger,
         Balanced, MovesJoined, Added;
    var perfs := Perfs(ledgers, m, start, today, seeds, rate);
    forall k | 0 <= k < |perfs| ensures Coherent(perfs[k].daily, today) && Runs(perfs[k].daily, today) {
      AccountCoheres(ledgers[k], m, start, today, seeds[k], rate);
      CoherentRuns(perfs[k].daily, today);
    }
    var points := TotalPoints(perfs, start, today);
    TotalRuns(perfs, start, today, today);
    var daily := Filled(points, seed);
    assert forall k :: 0 <= k < |daily| ==> daily[k].(twr := points[k].twr) == points[k];
    SameDates(points, daily, today);
    FilledMoves(points, seed, i);
    SameSums(perfs, points[i], daily[i]);
    RunsAt(daily, today, i);
    var before := if i > 0 then daily[i - 1] else daily[i];
    if i > 0 {
      SameSums(perfs, points[i - 1], before);
      RunsAt(daily, today, i - 1);
    }
    SumsBalance(perfs, today, before, daily[i]);
    hide AddsUp, Perfs;
  }

  lemma SameSums(perfs: seq<Performance>, p: DailyPerf, q: DailyPerf)
    requires AddsUp(perfs, p) && q.(twr := p.twr) == p
    ensures AddsUp(perfs, q)
  {
    hide Added;
  }

  lemma CoherentRuns(daily: seq<DailyPerf>, today: int)
    requires Coherent(daily, today)
    ensures Runs(daily, today)
  {
  }

  lemma RunsAt(daily: seq<DailyPerf>, today: int, i: nat)
    requires Runs(daily, today) && i < |daily|
    ensures daily[i].date == today - |daily| + 1 + i
  {
  }

  lemma SameDates(points: seq<DailyPerf>, daily: seq<DailyPerf>, today: int)
    requires |points| == |daily| && forall k :: 0 <= k < |daily| ==> daily[k].(twr := points[k].twr) == points[k]
    requires Runs(points, today)
    ensures Runs(daily, today)
  {
  }

  /** The portfolio's rate and flags: of all its accounts' money, and of the accounts that have a series. */
  lemma PortfolioRate(ledgers: seq<Ledger>, perfs: seq<Performance>, start: int, today: int, seed: Option<DailyPerf>,
                      discount: (real, int) -> real)
    requires |ledgers| > 0
    ensures var perf := TotalPerf(ledgers, perfs, start, today, seed, Solver(discount)).value;
            var cash, grants := AllCash(ledgers), AllGrants(ledgers);
            && perf.hasExternalFlow == (cash != [] || grants != [])
            && (perf.hasCashLedger <==>
                  && (exists i :: 0 <= i < |perfs| && perfs[i].daily != [])
                  && !exists i :: 0 <= i < |perfs| && perfs[i].daily != [] && !perfs[i].hasCashLedger)
            && if perf.daily == [] || !perf.hasExternalFlow then perf.xirr.None?
               else IsRate(perf.xirr, cash, grants, perf.daily[|perf.daily| - 1].total, today, discount)
  {
    hide Filled, TotalPoints, XirrOf, InvestorFlows, IsRate;
    var perf := TotalPerf(ledgers, perfs, start, today, seed, Solver(discount)).value;
    if perf.daily != [] {
      XirrIsRate(AllCash(ledgers), AllGrants(ledgers), perf.daily[|perf.daily| - 1].total, today, discount);
    }
  }

  /** The portfolio's flows are those of every account. */
  lemma {:induction false} AllCashCounts(ledgers: seq<Ledger>, f: Dated)
    ensures f in AllCash(ledgers) <==> exists i :: 0 <= i < |ledgers| && f in ledgers[i].cash
  {
    if |ledgers| > 0 {
      var n := |ledgers| - 1;
      AllCashCounts(ledgers[..n], f);
      if i :| 0 <= i < n && f in ledgers[i].cash {
        assert f in ledgers[..n][i].cash;
      }
    }
  }

  lemma {:induction false} AllGrantsCount(ledgers: seq<Ledger>, f: Dated)
    ensures f in AllGrants(ledgers) <==> exists i :: 0 <= i < |ledgers| && f in GrantFlows(ledgers[i].grants)
  {
    hide GrantFlows;
    if |ledgers| > 0 {
      var n := |ledgers| - 1;
      AllGrantsCount(ledgers[..n], f);
      if i :| 0 <= i < n && f in GrantFlows(ledgers[i].grants) {
        assert f in GrantFlows(ledgers[..n][i].grants);
      }
    }
  }
}
