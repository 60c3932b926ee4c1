/** The whole portfolio's daily figures: the accounts added up day by day, and what continuing the total gives. */
module PortfolioTotal {
  import opened Basics
  import opened Xirr
  import opened PerformanceSeries

  function Merged(sum: Option<DailyPerf>, p: DailyPerf): DailyPerf {
    if sum.None? then p.(twr := None)
    else
      var s := sum.value;
      DailyPerf(p.date, s.cashBalance + p.cashBalance, s.holdings + p.holdings, s.total + p.total,
                s.contributed + p.contributed, s.flow + p.flow, s.gain + p.gain, None)
  }

  /** A day's sum, carried over the points of one more series. */
  function SummedOn(sum: Option<DailyPerf>, points: seq<DailyPerf>, day: int): Option<DailyPerf> {
    if points == [] then sum
    else
      var last := points[|points| - 1];
      var before := SummedOn(sum, points[..|points| - 1], day);
      if last.date == day then Some(Merged(before, last)) else before
  }

  /** What the accounts add up to on a day, nothing when none has a point. */
  function TotalOn(perfs: seq<Performance>, day: int): Option<DailyPerf> {
    if perfs == [] then None
    else SummedOn(TotalOn(perfs[..|perfs| - 1], day), perfs[|perfs| - 1].daily, day)
  }

  function TotalPoints(perfs: seq<Performance>, start: int, today: int): seq<DailyPerf>
    decreases today - start + 1
  {
    if today < start then []
    else
      var sum := TotalOn(perfs, today);
      TotalPoints(perfs, start, today - 1) + (if sum.Some? then [sum.value] else [])
  }

  function AllCash(ledgers: seq<Ledger>): seq<Dated> {
    if |ledgers| == 0 then [] else AllCash(ledgers[..|ledgers| - 1]) + ledgers[|ledgers| - 1].cash
  }

  function AllGrants(ledgers: seq<Ledger>): seq<Dated> {
    if |ledgers| == 0 then [] else AllGrants(ledgers[..|ledgers| - 1]) + GrantFlows(ledgers[|ledgers| - 1].grants)
  }

  /** The total has a cash ledger when every account that has a series has one. */
  predicate EveryCashLedger(perfs: seq<Performance>) {
    && (exists i :: 0 <= i < |perfs| && perfs[i].daily != [])
    && forall i :: 0 <= i < |perfs| && perfs[i].daily != [] ==> perfs[i].hasCashLedger
  }

  function TotalPerf(ledgers: seq<Ledger>, perfs: seq<Performance>, start: int, today: int, seed: Option<DailyPerf>,
                     rate: seq<Dated> -> Option<real>): Option<Performance>
  {
    if |ledgers| == 0 then None
    else
      var daily := Filled(TotalPoints(perfs, start, today), seed);
      var cash, grants := AllCash(ledgers), AllGrants(ledgers);
      Some(Performance(daily, RateAt(daily, cash, grants, today, rate),
                       EveryCashLedger(perfs), cash != [] || grants != []))
  }

  // ---- Building the total ----

  ghost predicate Sums(byDate: map<int, DailyPerf>, perfs: seq<Performance>, rest: seq<DailyPerf>, start: int,
                       today: int)
  {
    forall d ::
      if d in byDate then start <= d <= today && SummedOn(TotalOn(perfs, d), rest, d) == Some(byDate[d])
      else start <= d <= today ==> SummedOn(TotalOn(perfs, d), rest, d).None?
  }

  method AddPoint(byDate: map<int, DailyPerf>, p: DailyPerf, start: int, today: int, ghost perfs: seq<Performance>,
                  ghost rest: seq<DailyPerf>)
    returns (added: map<int, DailyPerf>)
    requires Sums(byDate, perfs, rest, start, today)
    ensures Sums(added, perfs, rest + [p], start, today)
  {
    assert (rest + [p])[..|rest|] == rest;
    if p.date < start || p.date > today {
      return byDate;
    }
    added := byDate[p.date := Merged(if p.date in byDate then Some(byDate[p.date]) else None, p)];
  }

  method AggregateByDate(perfs: seq<Performance>, start: int, today: int) returns (byDate: map<int, DailyPerf>)
    ensures Sums(byDate, perfs, [], start, today)
  {
    hide TotalOn;
    byDate := map[];
    NoSum(byDate, start, today);
    for i := 0 to |perfs|
      invariant Sums(byDate, perfs[..i], [], start, today)
    {
      var daily := perfs[i].daily;
      for k := 0 to |daily|
        invariant Sums(byDate, perfs[..i], daily[..k], start, today)
      {
        byDate := AddPoint(byDate, daily[k], start, today, perfs[..i], daily[..k]);
        assert daily[..k] + [daily[k]] == daily[..k + 1];
      }
      assert daily[..|daily|] == daily;
      SeriesAdded(byDate, perfs, i, start, today);
    }
    assert perfs[..|perfs|] == perfs;
  }

  lemma NoSum(byDate: map<int, DailyPerf>, start: int, today: int)
    requires byDate == map[]
    ensures Sums(byDate, [], [], start, today)
  {
  }

  lemma SeriesAdded(byDate: map<int, DailyPerf>, perfs: seq<Performance>, i: nat, start: int, today: int)
    requires i < |perfs| && Sums(byDate, perfs[..i], perfs[i].daily, start, today)
    ensures Sums(byDate, perfs[..i + 1], [], start, today)
  {
    assert perfs[..i + 1][..i] == perfs[..i];
  }

  function Listed(byDate: map<int, DailyPerf>, days: seq<int>): seq<DailyPerf>
    requires forall i :: 0 <= i < |days| ==> days[i] in byDate
  {
    if days == [] then []
    else
      var n := |days| - 1;
      Listed(byDate, days[..n]) + [byDate[days[n]]]
  }

  lemma FirstIsMember(days: seq<int>)
    ensures days != [] ==> days[0] in days
  {
  }

  ghost predicate DaysUpTo(byDate: map<int, DailyPerf>, days: seq<int>, day: int) {
    Ascending(days) && forall d :: d in days <==> d in byDate && d <= day
  }

  lemma {:induction false} ListedIsTotal(byDate: map<int, DailyPerf>, perfs: seq<Performance>, start: int, today: int,
                                         days: seq<int>, day: int)
    requires Sums(byDate, perfs, [], start, today) && DaysUpTo(byDate, days, day) && day <= today
    requires forall i :: 0 <= i < |days| ==> days[i] in byDate
    ensures Listed(byDate, days) == TotalPoints(perfs, start, day)
    decreases day - start + 1
  {
    hide TotalOn, DaysUpTo;
    DaysBefore(byDate, days, day);
    if start <= day {
      assert Sums(byDate, perfs, [], start, today);
      assert SummedOn(TotalOn(perfs, day), [], day) == TotalOn(perfs, day);
      ListedIsTotal(byDate, perfs, start, today, if day in byDate then days[..|days| - 1] else days, day - 1);
    } else {
      NoDays(byDate, days, day, start);
    }
  }

  lemma NoDays(byDate: map<int, DailyPerf>, days: seq<int>, day: int, start: int)
    requires DaysUpTo(byDate, days, day) && day < start && forall d :: d in byDate ==> start <= d
    ensures days == []
  {
    FirstIsMember(days);
  }

  lemma DaysBefore(byDate: map<int, DailyPerf>, days: seq<int>, day: int)
    requires DaysUpTo(byDate, days, day)
    ensures if day in byDate then days != [] && days[|days| - 1] == day && DaysUpTo(byDate, days[..|days| - 1], day - 1)
            else DaysUpTo(byDate, days, day - 1)
  {
    if day in byDate {
      var n := |days| - 1;
      var at :| 0 <= at < |days| && days[at] == day;
      assert days[n] in days && days[n] == day;
      assert days == days[..n] + [day];
    }
  }

  method ListDays(byDate: map<int, DailyPerf>, days: seq<int>) returns (daily: seq<DailyPerf>)
    requires forall i :: 0 <= i < |days| ==> days[i] in byDate
    ensures daily == Listed(byDate, days)
  {
    daily := [];
    for i := 0 to |days|
      invariant daily == Listed(byDate, days[..i])
    {
      assert days[..i + 1][..i] == days[..i];
      daily := daily + [byDate[days[i]]];
    }
    assert days[..|days|] == days;
  }

  method TotalDaily(perfs: seq<Performance>, start: int, today: int) returns (daily: seq<DailyPerf>)
    ensures daily == TotalPoints(perfs, start, today)
  {
    var byDate := AggregateByDate(perfs, start, today);
    var days := Sorted(byDate.Keys);
    assert DaysUpTo(byDate, days, today);
    assert forall i :: 0 <= i < |days| ==> days[i] in days;
    ListedIsTotal(byDate, perfs, start, today, days, today);
    daily := ListDays(byDate, days);
  }

  method AllFlows(ledgers: seq<Ledger>) returns (cash: seq<Dated>, grants: seq<Dated>)
    ensures cash == AllCash(ledgers) && grants == AllGrants(ledgers)
  {
    cash, grants := [], [];
    for i := 0 to |ledgers|
      invariant cash == AllCash(ledgers[..i]) && grants == AllGrants(ledgers[..i])
    {
      assert ledgers[..i + 1][..i] == ledgers[..i];
      cash := cash + ledgers[i].cash;
      grants := grants + GrantFlows(ledgers[i].grants);
    }
    assert ledgers[..|ledgers|] == ledgers;
  }

  method ComputePortfolioTotal(ledgers: seq<Ledger>, perfs: seq<Performance>, start: int, today: int,
                               seed: Option<DailyPerf>, discount: (real, int) -> real)
    returns (perf: Option<Performance>)
    ensures perf == TotalPerf(ledgers, perfs, start, today, seed, Solver(discount))
  {
    hide XirrOf, Filled, TotalPoints;
    if |ledgers| == 0 {
      return None;
    }
    var daily := TotalDaily(perfs, start, today);
    daily := FilledSeries(daily, seed);
    var cash, grants := AllFlows(ledgers);
    var rate: Option<real> := None;
    if daily != [] && (cash != [] || grants != []) {
      var flows := XirrCashflows(cash, grants, daily[|daily| - 1].total, today);
      rate := InternalRate(flows, discount);
    }
    perf := Some(Performance(daily, rate, EveryCashLedger(perfs), cash != [] || grants != []));
  }

  // ---- Continuing the total ----

  lemma {:induction false} SplitSum(sum: Option<DailyPerf>, head: seq<DailyPerf>, tail: seq<DailyPerf>, day: int)
    ensures SummedOn(sum, head + tail, day) == SummedOn(SummedOn(sum, head, day), tail, day)
  {
    if tail == [] {
      assert head + tail == head;
    } else {
      var n := |tail| - 1;
      SplitSum(sum, head, tail[..n], day);
      assert (head + tail)[..|head| + n] == head + tail[..n];
    }
  }

  lemma {:induction false} NothingOn(sum: Option<DailyPerf>, points: seq<DailyPerf>, day: int)
    requires forall i :: 0 <= i < |points| ==> points[i].date != day
    ensures SummedOn(sum, points, day) == sum
  {
    if points != [] {
      NothingOn(sum, points[..|points| - 1], day);
    }
  }

  /** Every series of `whole` is that of `heads` up to `mid`, then that of `tails`. */
  predicate CutAt(whole: seq<Performance>, heads: seq<Performance>, tails: seq<Performance>, mid: int) {
    && |whole| == |heads| == |tails|
    && (forall i :: 0 <= i < |whole| ==> whole[i].daily == heads[i].daily + tails[i].daily)
    && (forall i, k :: 0 <= i < |heads| && 0 <= k < |heads[i].daily| ==> heads[i].daily[k].date <= mid)
    && forall i, k :: 0 <= i < |tails| && 0 <= k < |tails[i].daily| ==> mid < tails[i].daily[k].date
  }

  lemma {:induction false} TotalOfCut(whole: seq<Performance>, heads: seq<Performance>, tails: seq<Performance>,
                                      mid: int, day: int)
    requires CutAt(whole, heads, tails, mid)
    ensures day <= mid ==> TotalOn(whole, day) == TotalOn(heads, day) && TotalOn(tails, day).None?
    ensures mid < day ==> TotalOn(whole, day) == TotalOn(tails, day) && TotalOn(heads, day).None?
  {
    if whole != [] {
      var n := |whole| - 1;
      TotalOfCut(whole[..n], heads[..n], tails[..n], mid, day);
      var sum := TotalOn(whole[..n], day);
      SplitSum(sum, heads[n].daily, tails[n].daily, day);
      if day <= mid {
        NothingOn(SummedOn(sum, heads[n].daily, day), tails[n].daily, day);
        NothingOn(None, tails[n].daily, day);
      } else {
        NothingOn(sum, heads[n].daily, day);
        NothingOn(None, heads[n].daily, day);
      }
    }
  }

  lemma {:induction false} TotalPointsOfCut(whole: seq<Performance>, heads: seq<Performance>, tails: seq<Performance>,
                                            start: int, mid: int, day: int)
    requires CutAt(whole, heads, tails, mid)
    ensures day <= mid ==>
              TotalPoints(whole, start, day) == TotalPoints(heads, start, day) && TotalPoints(tails, start, day) == []
    ensures mid < day ==>
              TotalPoints(whole, start, day) == TotalPoints(heads, start, mid) + TotalPoints(tails, start, day)
    decreases day - start + 1
  {
    hide TotalOn, CutAt;
    if start <= day {
      TotalPointsOfCut(whole, heads, tails, start, mid, day - 1);
      TotalOfCut(whole, heads, tails, mid, day);
    } else if mid < day {
      assert TotalPoints(heads, start, mid) == [];
    }
  }

  /** The total continued from its last point is the total of the whole series, at the same rate. */
  lemma TotalContinues(ledgers: seq<Ledger>, whole: seq<Performance>, heads: seq<Performance>, tails: seq<Performance>,
                       start: int, mid: int, today: int, seed: Option<DailyPerf>, rate: seq<Dated> -> Option<real>)
    requires CutAt(whole, heads, tails, mid) && mid < today && |ledgers| > 0
    ensures var all := TotalPerf(ledgers, whole, start, today, seed, rate).value;
            var head := TotalPerf(ledgers, heads, start, mid, seed, rate).value;
            var tail := TotalPerf(ledgers, tails, start, today, LastOr(head.daily, seed), rate).value;
            && all.daily == head.daily + tail.daily
            && (tail.daily != [] ==> all.xirr == tail.xirr)
            && all.hasExternalFlow == tail.hasExternalFlow
  {
    hide TotalPoints, Filled, RateAt, CutAt;
    TotalPointsOfCut(whole, heads, tails, start, mid, today);
    var points, rest := TotalPoints(heads, start, mid), TotalPoints(tails, start, today);
    FillingContinues(points, rest, seed);
    var head := Filled(points, seed);
    var tail := Filled(rest, LastOr(head, seed));
    if tail != [] {
      RateOfLast(head, tail, AllCash(ledgers), AllGrants(ledgers), today, rate);
    }
  }

  function Perfs(ledgers: seq<Ledger>, m: Prices, start: int, today: int, seeds: seq<Option<DailyPerf>>,
                 rate: seq<Dated> -> Option<real>): (s: seq<Performance>)
    requires |seeds| == |ledgers|
    ensures |s| == |ledgers|
    ensures forall i :: 0 <= i < |s| ==> s[i] == AccountPerf(ledgers[i], m, start, today, seeds[i], rate)
  {
    seq(|ledgers|, i requires 0 <= i < |ledgers| => AccountPerf(ledgers[i], m, start, today, seeds[i], rate))
  }

  function LastPoints(perfs: seq<Performance>, seeds: seq<Option<DailyPerf>>): (s: seq<Option<DailyPerf>>)
    requires |seeds| == |perfs|
    ensures |s| == |perfs|
    ensures forall i :: 0 <= i < |s| ==> s[i] == LastOr(perfs[i].daily, seeds[i])
  {
    seq(|perfs|, i requires 0 <= i < |perfs| => LastOr(perfs[i].daily, seeds[i]))
  }

  /** Continuing every account from its last point cuts the series at `mid`. */
  lemma AccountsCut(ledgers: seq<Ledger>, m: Prices, start: int, mid: int, today: int, seeds: seq<Option<DailyPerf>>,
                    rate: seq<Dated> -> Option<real>)
    requires |seeds| == |ledgers| && start - 1 <= mid < today
    ensures var whole := Perfs(ledgers, m, start, today, seeds, rate);
            var heads := Perfs(ledgers, m, start, mid, seeds, rate);
            var tails := Perfs(ledgers, m, mid + 1, today, LastPoints(heads, seeds), rate);
            CutAt(whole, heads, tails, mid) && EveryCashLedger(whole) == EveryCashLedger(tails)
  {
    hide Points, Filled, RateAt;
    var whole := Perfs(ledgers, m, start, today, seeds, rate);
    var heads := Perfs(ledgers, m, start, mid, seeds, rate);
    var seeds' := LastPoints(heads, seeds);
    var tails := Perfs(ledgers, m, mid + 1, today, seeds', rate);
    forall i | 0 <= i < |ledgers|
      ensures whole[i].daily == heads[i].daily + tails[i].daily && tails[i] == whole[i].(daily := tails[i].daily)
      ensures heads[i].daily != [] ==> tails[i].daily != []
    {
      AccountContinues(ledgers[i], m, start, mid, today, seeds[i], rate);
      if heads[i].daily != [] {
        StaysStarted(ledgers[i], m, mid + 1, today);
      }
    }
  }

  /**
   * Per account and for the total: the series in two runs is the series
   * whole, the contribution, gain, index and rate included.
   */
  lemma PortfolioContinues(ledgers: seq<Ledger>, m: Prices, start: int, mid: int, today: int,
                           seeds: seq<Option<DailyPerf>>, seed: Option<DailyPerf>, rate: seq<Dated> -> Option<real>)
    requires |seeds| == |ledgers| > 0 && start - 1 <= mid < today
    ensures var whole := Perfs(ledgers, m, start, today, seeds, rate);
            var heads := Perfs(ledgers, m, start, mid, seeds, rate);
            var tails := Perfs(ledgers, m, mid + 1, today, LastPoints(heads, seeds), rate);
            var all := TotalPerf(ledgers, whole, start, today, seed, rate).value;
            var head := TotalPerf(ledgers, heads, start, mid, seed, rate).value;
            var tail := TotalPerf(ledgers, tails, start, today, LastOr(head.daily, seed), rate).value;
            && all.daily == head.daily + tail.daily
            && (tail.daily != [] ==> tail == all.(daily := tail.daily))
  {
    hide EveryCashLedger, CutAt;
    AccountsCut(ledgers, m, start, mid, today, seeds, rate);
    var heads := Perfs(ledgers, m, start, mid, seeds, rate);
    TotalContinues(ledgers, Perfs(ledgers, m, start, today, seeds, rate), heads,
                   Perfs(ledgers, m, mid + 1, today, LastPoints(heads, seeds), rate), start, mid, today, seed, rate);
  }
}
