/** Every account's money in one reference: the merged pot, and the rows it adds up. */
module BenchmarkView {
  import opened Basics
  import opened Counterfactual

  /** What one account brings: its seed on its seed day, its flows, and the last day it is measured on. */
  datatype Material = Material(seedDay: int, seed: real, last: int, flows: map<int, real>)

  function OwnReplay(m: Market, a: Material): Replay {
    ReplayOf(a.seedDay, a.last, m, a.flows, a.seed)
  }

  function Earliest(days: seq<int>): (d: int)
    requires days != []
    ensures d in days && forall e :: e in days ==> d <= e
  {
    var n := |days| - 1;
    if n == 0 then days[0]
    else
      assert days == days[..n] + [days[n]];
      var rest := Earliest(days[..n]);
      if days[n] < rest then days[n] else rest
  }

  function Lasts(accounts: seq<Material>): (s: seq<int>)
    ensures |s| == |accounts|
  {
    seq(|accounts|, i requires 0 <= i < |accounts| => accounts[i].last)
  }

  /** The first quoted day of `[day, end]`: when an account's money reaches the pot. */
  function EntryFrom(prices: map<int, real>, day: int, end: int): (e: Option<int>)
    ensures e.Some? ==> day <= e.value <= end && e.value in prices
    decreases end - day + 1
  {
    if day > end then None else if day in prices then Some(day) else EntryFrom(prices, day + 1, end)
  }

  function Entry(m: Market, a: Material, end: int): Option<int> {
    EntryFrom(m.prices, a.seedDay, end)
  }

  /** What an account opens with: its seed, plus whatever flowed before it could be bought in. */
  function Opening(a: Material, entry: int): real {
    a.seed + SumSpan(a.flows, a.seedDay + 1, entry)
  }

  /** What one account puts into the pot on one day. */
  function ShareOn(a: Material, entry: int, day: int): real {
    if day == entry then Opening(a, entry) else if day > entry then AmountOn(a.flows, day) else 0.0
  }

  /** The flows so far with one more account's in. */
  function WithShare(merged: map<int, real>, a: Material, entry: int): map<int, real> {
    map d | d in merged.Keys + {entry} + (set f | f in a.flows && f > entry) ::
      AmountOn(merged, d) + ShareOn(a, entry, d)
  }

  function MergedFlows(m: Market, accounts: seq<Material>, end: int): map<int, real> {
    if accounts == [] then map[]
    else
      var n := |accounts| - 1;
      var before := MergedFlows(m, accounts[..n], end);
      match Entry(m, accounts[n], end)
      case None => before
      case Some(entry) => WithShare(before, accounts[n], entry)
  }

  function Entries(m: Market, accounts: seq<Material>, end: int): (s: seq<int>)
    ensures forall e :: e in s ==> e <= end && e in m.prices
  {
    if accounts == [] then []
    else
      var n := |accounts| - 1;
      match Entry(m, accounts[n], end)
      case None => Entries(m, accounts[..n], end)
      case Some(entry) => Entries(m, accounts[..n], end) + [entry]
  }

  /** The merged replay, or nothing when no account's money could be bought in before the end. */
  function MergedReplay(m: Market, accounts: seq<Material>): Option<Replay> {
    if accounts == [] then None
    else
      var end := Earliest(Lasts(accounts));
      var entries := Entries(m, accounts, end);
      if entries == [] then None
      else
        var first := Earliest(entries);
        var merged := MergedFlows(m, accounts, end);
        var r := ReplayOf(first, end, m, merged - {first}, AmountOn(merged, first));
        if r.firstDay.None? then None else Some(r)
  }

  // ---- The loops ----

  /** The flows dated in `(after, upto]`, in whatever order the mapping yields them. */
  method SumItems(flows: map<int, real>, after: int, upto: int) returns (total: real)
    ensures total == SumSpan(flows, after + 1, upto)
  {
    total := 0.0;
    var todo := flows.Keys;
    ghost var rest := flows;
    while todo != {}
      invariant rest.Keys == todo <= flows.Keys
      invariant forall d :: d in todo ==> rest[d] == flows[d]
      invariant total + SumSpan(rest, after + 1, upto) == SumSpan(flows, after + 1, upto)
    {
      var day := Pick(todo);
      SumSpanWithout(rest, day, after + 1, upto);
      if after < day <= upto {
        total := total + flows[day];
      }
      todo := todo - {day};
      rest := rest - {day};
    }
    assert rest == map[];
    SumSpanEmpty(after + 1, upto);
  }

  /** One account into the pot: its opening on its entry day, and every later flow on its own. */
  method AddAccount(merged: map<int, real>, a: Material, entry: int) returns (flows: map<int, real>)
    ensures flows == WithShare(merged, a, entry)
  {
    var flowed := SumItems(a.flows, a.seedDay, entry);
    flows := merged[entry := AmountOn(merged, entry) + a.seed + flowed];
    var todo := a.flows.Keys;
    while todo != {}
      invariant todo <= a.flows.Keys
      invariant flows.Keys == merged.Keys + {entry} + (set f | f in a.flows.Keys - todo && f > entry)
      invariant forall d :: d in flows ==>
        flows[d] == AmountOn(merged, d)
                    + (if d == entry then Opening(a, entry)
                       else if d in a.flows.Keys - todo && d > entry then a.flows[d] else 0.0)
    {
      var day := Pick(todo);
      if day > entry {
        flows := flows[day := AmountOn(flows, day) + a.flows[day]];
      }
      todo := todo - {day};
    }
  }

  method FindEntry(prices: map<int, real>, seedDay: int, end: int) returns (entry: Option<int>)
    ensures entry == EntryFrom(prices, seedDay, end)
  {
    var day := seedDay;
    while day <= end && day !in prices
      invariant EntryFrom(prices, seedDay, end) == EntryFrom(prices, day, end)
    {
      day := day + 1;
    }
    entry := if day > end then None else Some(day);
  }

  method Merge(m: Market, accounts: seq<Material>) returns (r: Option<Replay>)
    ensures r == MergedReplay(m, accounts)
  {
    if accounts == [] {
      return None;
    }
    var end := Earliest(Lasts(accounts));
    var entries: seq<int>, merged: map<int, real> := [], map[];
    for i := 0 to |accounts|
      invariant entries == Entries(m, accounts[..i], end)
      invariant merged == MergedFlows(m, accounts[..i], end)
    {
      assert accounts[..i + 1][..i] == accounts[..i];
      var entry := FindEntry(m.prices, accounts[i].seedDay, end);
      if entry.Some? {
        entries := entries + [entry.value];
        merged := AddAccount(merged, accounts[i], entry.value);
      }
    }
    assert accounts[..|accounts|] == accounts;
    if entries == [] {
      return None;
    }
    var first := Earliest(entries);
    var replayed := RunReplay(first, end, m, merged - {first}, AmountOn(merged, first));
    r := if replayed.firstDay.None? then None else Some(replayed);
  }

  // ---- The head is the sum of the rows ----

  /** No stop of the account's own replay falls on or before `end`; one that was never quoted has none. */
  predicate RunsPast(m: Market, a: Material, end: int) {
    var own := OwnReplay(m, a);
    if own.firstDay.None? then own.ended.None?
    else
      match own.ended
      case None => true
      case Some(AwaitingRate) => own.lastDay.Some? && own.lastDay.value + 1 > end
      case Some(Exhausted) => own.lastDay.Some? && own.lastDay.value > end
  }

  datatype Figures = Figures(units: real, value: real, contributed: real) {
    function Plus(o: Figures): Figures {
      Figures(units + o.units, value + o.value, contributed + o.contributed)
    }
  }

  const NOTHING := Figures(0.0, 0.0, 0.0)

  function FiguresOf(s: Snapshot): Figures {
    Figures(s.units, s.value, s.contributed)
  }

  /** An account's own replay on one day: nothing before its money was bought in. */
  function RowOn(m: Market, a: Material, end: int, day: int): Figures {
    var own := OwnReplay(m, a);
    match Entry(m, a, end)
    case Some(entry) =>
      if entry <= day < entry + |own.series| then FiguresOf(own.series[day - entry]) else NOTHING
    case None => NOTHING
  }

  function SumOfRows(m: Market, accounts: seq<Material>, end: int, day: int): Figures {
    if accounts == [] then NOTHING
    else
      var n := |accounts| - 1;
      SumOfRows(m, accounts[..n], end, day).Plus(RowOn(m, accounts[n], end, day))
  }

  function OwnCourse(m: Market, a: Material, entry: int): Course {
    CourseOf(m, a.seedDay, entry, a.flows, a.seed)
  }

  /** The day the merge gives an account is the day its own replay was seeded on. */
  lemma {:induction false} EntryIsSeedDay(m: Market, day: int, end: int, last: int)
    requires end <= last && SeedSearch(m, day, last).Quoted?
    ensures EntryFrom(m.prices, day, end)
         == if SeedSearch(m, day, last).day <= end then Some(SeedSearch(m, day, last).day) else None
    decreases end - day + 1
  {
    if day <= end && day !in m.prices {
      EntryIsSeedDay(m, day + 1, end, last);
    }
  }

  /** What is never quoted never enters. */
  lemma {:induction false} NeverEnters(m: Market, day: int, end: int, last: int)
    requires end <= last && SeedSearch(m, day, last).NeverQuoted?
    ensures EntryFrom(m.prices, day, end) == None
    decreases end - day + 1
  {
    if day <= end {
      NeverEnters(m, day + 1, end, last);
    }
  }

  lemma EnteredIsQuoted(m: Market, a: Material, end: int)
    requires end <= a.last && RunsPast(m, a, end) && Entry(m, a, end).Some?
    ensures SeedSearch(m, a.seedDay, a.last).Quoted?
  {
    hide TurnOf;
    if SeedSearch(m, a.seedDay, a.last).NeverQuoted? {
      NeverEnters(m, a.seedDay, end, a.last);
      assert false;
    }
  }

  /** An account that runs past the end stops after it, and its series opens with every day before. */
  lemma OwnCovers(m: Market, a: Material, end: int) returns (stop: int)
    requires end <= a.last && RunsPast(m, a, end) && Entry(m, a, end).Some?
    ensures var entry := Entry(m, a, end).value;
            var c, own := OwnCourse(m, a, entry), OwnReplay(m, a);
            && c.Valid() && c.seeded == entry && entry <= end < stop && c.PotOn(stop - 1).Some?
            && c.Snapshots(stop - 1) <= own.series
  {
    EnteredIsQuoted(m, a, end);
    EntryIsSeedDay(m, a.seedDay, end, a.last);
    var entry := Entry(m, a, end).value;
    var c := OwnCourse(m, a, entry);
    assert OwnReplay(m, a)
        == if c.Valid() then c.Through(a.last) else Replay(Some(entry), Some(entry), Some(Exhausted), []);
    hide EntryFrom, OwnReplay, SeedSearch;
    stop := c.StopDay(entry + 1, a.last);
    StoppingCovers(c, stop, a.last);
    hide Course.Through;
  }

  /** A course that stops on a day ends before it without a rate, or on it exhausted, over every day before. */
  lemma StoppingCovers(c: Course, stop: int, last: int)
    requires c.Valid() && c.seeded <= last && stop == c.StopDay(c.seeded + 1, last)
    ensures var r := c.Through(last);
            && c.seeded < stop <= last + 1 && c.PotOn(stop - 1).Some?
            && r.firstDay == Some(c.seeded) && r.lastDay.Some? && c.Snapshots(stop - 1) <= r.series
            && match r.ended
               case None => r.lastDay.value == last && stop == last + 1
               case Some(AwaitingRate) => r.lastDay.value == stop - 1
               case Some(Exhausted) => r.lastDay.value == stop
  {
    hide TurnOf;
  }

  /** And it has a sound pot on every day from its entry to the end, which is its row. */
  lemma OwnRuns(m: Market, a: Material, end: int, day: int)
    requires PositiveRatios(m) && end <= a.last && RunsPast(m, a, end)
    requires Entry(m, a, end).Some? && Entry(m, a, end).value <= day <= end
    ensures var c := OwnCourse(m, a, Entry(m, a, end).value);
            && c.Valid() && c.PotOn(day).Some? && Sound(c.PotOn(day).value)
            && RowOn(m, a, end, day) == FiguresOf(c.PotOn(day).value.On(day))
  {
    hide TurnOf, Entry, OwnReplay, RunsPast;
    var c := OwnCourse(m, a, Entry(m, a, end).value);
    var stop := OwnCovers(m, a, end);
    PotBefore(c, day, stop - 1);
    PotKeeps(c, day);
    SnapshotAt(c, day, stop - 1);
  }

  /** What an account puts in on one day, nothing if its money never enters. */
  function Share(m: Market, a: Material, end: int, day: int): real {
    match Entry(m, a, end)
    case None => 0.0
    case Some(entry) => ShareOn(a, entry, day)
  }

  lemma MergedAddsShare(m: Market, accounts: seq<Material>, end: int, day: int)
    requires accounts != []
    ensures var n := |accounts| - 1;
            AmountOn(MergedFlows(m, accounts, end), day)
            == AmountOn(MergedFlows(m, accounts[..n], end), day) + Share(m, accounts[n], end, day)
  {
  }

  function PriceAt(m: Market, day: int, before: real): real {
    if day in m.prices then m.prices[day] else before
  }

  /** `after` is `before` carried through a day's split and flow at `price`, and the flow was funded. */
  predicate Carried(before: Figures, after: Figures, ratio: real, flow: real, price: real) {
    && price > 0.0
    && after.units == before.units * ratio + flow / price
    && after.contributed == before.contributed + flow
    && after.value == after.units * price
    && -flow <= before.units * ratio * price
  }

  lemma TradeIsLinear(held: Pot, flow: real)
    requires Sound(held) && Traded(held, flow).Next?
    ensures var p := Traded(held, flow).pot;
            && p.units == held.units + flow / held.price
            && p.contributed == held.contributed + flow
            && -flow <= held.units * held.price
  {
    ProductOfNonNegatives(held.units, held.price);
  }

  /** Every account agrees with `price` at the close of a day it has entered by. */
  predicate PricedAt(m: Market, a: Material, end: int, day: int, price: real) {
    match Entry(m, a, end)
    case None => true
    case Some(entry) =>
      entry <= day ==>
        var c := OwnCourse(m, a, entry);
        c.Valid() && c.PotOn(day).Some? && c.PotOn(day).value.price == price
  }

  lemma TurnIsLinear(m: Market, pot: Pot, day: int, flow: real)
    requires PositiveRatios(m) && Sound(pot) && TurnOf(m, flow, day, pot).Next?
    ensures var p := TurnOf(m, flow, day, pot).pot;
            && p.price == PriceAt(m, day, pot.price)
            && Carried(FiguresOf(pot.On(day - 1)), FiguresOf(p.On(day)), RatioAt(m, day), flow, p.price)
  {
    MarkedIsSound(m, day, pot);
    TradeIsLinear(Marked(m, day, pot), flow);
  }

  lemma NothingCarries(ratio: real, price: real)
    requires price > 0.0
    ensures Carried(NOTHING, NOTHING, ratio, 0.0, price)
  {
  }

  lemma OpeningCarries(opening: real, day: int, ratio: real, price: real)
    requires price > 0.0 && opening > 0.0
    ensures Carried(NOTHING, FiguresOf(Pot(opening / price, opening, opening, price).On(day)), ratio, opening, price)
  {
  }

  lemma RowCarries(m: Market, a: Material, end: int, day: int, before: real)
    requires PositiveRatios(m) && end <= a.last && RunsPast(m, a, end) && day <= end
    requires PricedAt(m, a, end, day - 1, before) && PriceAt(m, day, before) > 0.0
    ensures PricedAt(m, a, end, day, PriceAt(m, day, before))
    ensures Carried(RowOn(m, a, end, day - 1), RowOn(m, a, end, day), RatioAt(m, day), Share(m, a, end, day),
                    PriceAt(m, day, before))
  {
    hide Carried, TurnOf, ReplayOf;
    var price := PriceAt(m, day, before);
    match Entry(m, a, end)
    case None => NothingCarries(RatioAt(m, day), price);
    case Some(entry) =>
      if day < entry {
        NothingCarries(RatioAt(m, day), price);
      } else {
        OwnRuns(m, a, end, day);
        var c := OwnCourse(m, a, entry);
        if day == entry {
          OpeningCarries(c.opening, day, RatioAt(m, day), price);
        } else {
          OwnRuns(m, a, end, day - 1);
          TurnIsLinear(m, c.PotOn(day - 1).value, day, AmountOn(a.flows, day));
        }
      }
  }

  lemma CarriedAdds(b1: Figures, a1: Figures, f1: real, b2: Figures, a2: Figures, f2: real, ratio: real, price: real)
    requires Carried(b1, a1, ratio, f1, price) && Carried(b2, a2, ratio, f2, price)
    ensures Carried(b1.Plus(b2), a1.Plus(a2), ratio, f1 + f2, price)
  {
    assert (f1 + f2) / price == f1 / price + f2 / price;
    assert (b1.units + b2.units) * ratio == b1.units * ratio + b2.units * ratio;
    assert (b1.units * ratio + b2.units * ratio) * price == b1.units * ratio * price + b2.units * ratio * price;
    assert (a1.units + a2.units) * price == a1.units * price + a2.units * price;
  }

  /** Every account of the perimeter runs past the end, and is measured up to it. */
  predicate AllRun(m: Market, accounts: seq<Material>, end: int) {
    forall i :: 0 <= i < |accounts| ==> end <= accounts[i].last && RunsPast(m, accounts[i], end)
  }

  predicate AllPricedAt(m: Market, accounts: seq<Material>, end: int, day: int, price: real) {
    forall i :: 0 <= i < |accounts| ==> PricedAt(m, accounts[i], end, day, price)
  }

  lemma {:induction false} RowsCarry(m: Market, accounts: seq<Material>, end: int, day: int, before: real)
    requires PositiveRatios(m) && AllRun(m, accounts, end) && day <= end
    requires AllPricedAt(m, accounts, end, day - 1, before) && PriceAt(m, day, before) > 0.0
    ensures AllPricedAt(m, accounts, end, day, PriceAt(m, day, before))
    ensures Carried(SumOfRows(m, accounts, end, day - 1), SumOfRows(m, accounts, end, day), RatioAt(m, day),
                    AmountOn(MergedFlows(m, accounts, end), day), PriceAt(m, day, before))
  {
    hide PricedAt, RunsPast, RowOn, MergedFlows;
    if accounts == [] {
      assert MergedFlows(m, accounts, end) == map[] by { NoAccounts(m, end); }
      NothingCarries(RatioAt(m, day), PriceAt(m, day, before));
    } else {
      hide Carried;
      var n := |accounts| - 1;
      RowsCarry(m, accounts[..n], end, day, before);
      RowCarries(m, accounts[n], end, day, before);
      MergedAddsShare(m, accounts, end, day);
      CarriedAdds(SumOfRows(m, accounts[..n], end, day - 1), SumOfRows(m, accounts[..n], end, day),
                  AmountOn(MergedFlows(m, accounts[..n], end), day),
                  RowOn(m, accounts[n], end, day - 1), RowOn(m, accounts[n], end, day), Share(m, accounts[n], end, day),
                  RatioAt(m, day), PriceAt(m, day, before));
      forall i | 0 <= i < |accounts|
        ensures PricedAt(m, accounts[i], end, day, PriceAt(m, day, before))
      {
        if i < n { assert accounts[i] == accounts[..n][i]; }
      }
    }
  }

  lemma NoAccounts(m: Market, end: int)
    ensures MergedFlows(m, [], end) == map[]
  {
  }

  lemma NotYetIn(m: Market, a: Material, end: int, day: int, price: real)
    requires Entry(m, a, end).Some? ==> day < Entry(m, a, end).value
    ensures RowOn(m, a, end, day) == NOTHING && PricedAt(m, a, end, day, price)
  {
  }

  /** Nobody has entered before the first entry. */
  lemma {:induction false} NothingBefore(m: Market, accounts: seq<Material>, end: int, day: int, price: real)
    requires forall e :: e in Entries(m, accounts, end) ==> day < e
    ensures SumOfRows(m, accounts, end, day) == NOTHING
    ensures AllPricedAt(m, accounts, end, day, price)
  {
    hide RowOn, PricedAt, Entry;
    if accounts != [] {
      var n := |accounts| - 1;
      var before := Entries(m, accounts[..n], end);
      assert before <= Entries(m, accounts, end);
      forall e | e in before ensures day < e {
        assert e in Entries(m, accounts, end);
      }
      NothingBefore(m, accounts[..n], end, day, price);
      if Entry(m, accounts[n], end).Some? {
        assert Entry(m, accounts[n], end).value in Entries(m, accounts, end);
      }
      NotYetIn(m, accounts[n], end, day, price);
      forall i | 0 <= i < |accounts| ensures PricedAt(m, accounts[i], end, day, price) {
        if i < n { assert accounts[i] == accounts[..n][i]; }
      }
    }
  }

  lemma {:induction false} EntryOfSomeone(m: Market, accounts: seq<Material>, end: int, entry: int) returns (i: nat)
    requires entry in Entries(m, accounts, end)
    ensures i < |accounts| && Entry(m, accounts[i], end) == Some(entry)
  {
    var n := |accounts| - 1;
    if Entry(m, accounts[n], end) == Some(entry) {
      i := n;
    } else {
      i := EntryOfSomeone(m, accounts[..n], end, entry);
      assert accounts[..n][i] == accounts[i];
    }
  }

  lemma SomeoneIsIn(m: Market, a: Material, end: int, first: int, day: int)
    requires PositiveRatios(m) && end <= a.last && RunsPast(m, a, end) && Entry(m, a, end) == Some(first)
    requires first <= day <= end
    ensures m.prices[first] > 0.0
    ensures first < day ==> !Unpriced(m, day)
  {
    OwnRuns(m, a, end, day);
  }

  lemma FundedTurn(m: Market, pot: Pot, day: int, flow: real, after: Figures)
    requires pot.price > 0.0 && !Unpriced(m, day)
    requires Carried(FiguresOf(pot.On(day - 1)), after, RatioAt(m, day), flow, PriceAt(m, day, pot.price))
    ensures var t := TurnOf(m, flow, day, pot);
            t.Next? && FiguresOf(t.pot.On(day)) == after && t.pot.price == PriceAt(m, day, pot.price)
  {
    hide Traded;
    MarkedAt(m, day, pot);
    FundedTrade(Marked(m, day, pot), flow);
  }

  lemma MarkedAt(m: Market, day: int, pot: Pot)
    ensures Marked(m, day, pot) == pot.(units := pot.units * RatioAt(m, day), price := PriceAt(m, day, pot.price))
  {
  }

  lemma FundedTrade(held: Pot, flow: real)
    requires held.price > 0.0 && -flow <= held.units * held.price
    ensures var t := Traded(held, flow);
            && t.Next? && t.pot.units == held.units + flow / held.price
            && t.pot.contributed == held.contributed + flow && t.pot.price == held.price
  {
    OpposedQuotient(flow, held.price);
  }

  lemma OpposedQuotient(a: real, b: real)
    requires b > 0.0
    ensures (-a) / b == -(a / b)
  {
  }

  /** On the first entry day the rows are the openings of whoever enters then, and somebody does. */
  lemma {:induction false} OpeningsAdd(m: Market, accounts: seq<Material>, end: int, first: int)
    requires PositiveRatios(m) && AllRun(m, accounts, end) && first <= end
    requires forall e :: e in Entries(m, accounts, end) ==> first <= e
    ensures SumOfRows(m, accounts, end, first).contributed >= 0.0
    ensures first in Entries(m, accounts, end) ==> SumOfRows(m, accounts, end, first).contributed > 0.0
  {
    hide RowOn, Entry, RunsPast;
    if accounts != [] {
      var n := |accounts| - 1;
      var before := Entries(m, accounts[..n], end);
      assert before <= Entries(m, accounts, end);
      forall e | e in before ensures first <= e {
        assert e in Entries(m, accounts, end);
      }
      OpeningsAdd(m, accounts[..n], end, first);
      OpeningRow(m, accounts[n], end, first);
      if Entry(m, accounts[n], end).Some? {
        assert Entry(m, accounts[n], end).value in Entries(m, accounts, end);
      }
    }
  }

  lemma OpeningRow(m: Market, a: Material, end: int, first: int)
    requires PositiveRatios(m) && end <= a.last && RunsPast(m, a, end) && first <= end
    ensures Entry(m, a, end) == Some(first) ==> RowOn(m, a, end, first).contributed > 0.0
    ensures (Entry(m, a, end).Some? ==> first < Entry(m, a, end).value) ==> RowOn(m, a, end, first).contributed == 0.0
  {
    if Entry(m, a, end) == Some(first) {
      OwnRuns(m, a, end, first);
    } else if Entry(m, a, end).Some? ==> first < Entry(m, a, end).value {
      NotYetIn(m, a, end, first, 0.0);
    }
  }

  lemma MergedOpens(m: Market, accounts: seq<Material>, end: int, first: int, opening: real)
    requires PositiveRatios(m) && AllRun(m, accounts, end) && first <= end && first in m.prices && m.prices[first] > 0.0
    requires first in Entries(m, accounts, end) && forall e :: e in Entries(m, accounts, end) ==> first <= e
    requires opening == AmountOn(MergedFlows(m, accounts, end), first)
    ensures opening > 0.0
    ensures FiguresOf(Pot(opening / m.prices[first], opening, opening, m.prices[first]).On(first))
         == SumOfRows(m, accounts, end, first)
    ensures AllPricedAt(m, accounts, end, first, m.prices[first])
  {
    hide RowOn, Entry, RunsPast, SumOfRows, AllRun, MergedFlows, AllPricedAt;
    NothingBefore(m, accounts, end, first - 1, 0.0);
    RowsCarry(m, accounts, end, first, 0.0);
    OpeningsAdd(m, accounts, end, first);
  }

  /** The merged pot on one day: the rows added up, at a price every row agrees on. */
  lemma {:induction false} PotIsSumOfRows(m: Market, accounts: seq<Material>, end: int, first: int, c: Course, day: int)
    requires PositiveRatios(m) && AllRun(m, accounts, end) && first <= day <= end
    requires first in Entries(m, accounts, end) && forall e :: e in Entries(m, accounts, end) ==> first <= e
    requires c == Course(m, MergedFlows(m, accounts, end) - {first}, first,
                         AmountOn(MergedFlows(m, accounts, end), first))
    ensures c.Valid() && c.PotOn(day).Some?
    ensures FiguresOf(c.PotOn(day).value.On(day)) == SumOfRows(m, accounts, end, day)
    ensures AllPricedAt(m, accounts, end, day, c.PotOn(day).value.price)
    decreases day - first
  {
    hide Carried, TurnOf, RowOn, AllPricedAt, RunsPast, MergedFlows, Entry;
    var i := EntryOfSomeone(m, accounts, end, first);
    SomeoneIsIn(m, accounts[i], end, first, day);
    if day == first {
      MergedOpens(m, accounts, end, first, c.opening);
    } else {
      PotIsSumOfRows(m, accounts, end, first, c, day - 1);
      var pot := c.PotOn(day - 1).value;
      RowsCarry(m, accounts, end, day, pot.price);
      FundedTurn(m, pot, day, AmountOn(c.flows, day), SumOfRows(m, accounts, end, day));
    }
  }

  lemma EarliestLast(accounts: seq<Material>, i: nat)
    requires i < |accounts|
    ensures Earliest(Lasts(accounts)) <= accounts[i].last
  {
    assert Lasts(accounts)[i] == accounts[i].last && Lasts(accounts)[i] in Lasts(accounts);
  }

  /** The head is the sum of the rows: when no account's own replay stops by the end of the period, the
      one replay of all the money does not stop either, runs from the first entry to the end, and stands on
      every day at the units, the value and the contributions of the accounts that have entered. */
  lemma HeadIsSumOfRows(m: Market, accounts: seq<Material>)
    requires PositiveRatios(m) && accounts != []
    requires forall i :: 0 <= i < |accounts| ==> RunsPast(m, accounts[i], Earliest(Lasts(accounts)))
    requires Entries(m, accounts, Earliest(Lasts(accounts))) != []
    ensures var end := Earliest(Lasts(accounts));
            var first := Earliest(Entries(m, accounts, end));
            var head := MergedReplay(m, accounts);
            && head.Some? && head.value.ended == None
            && head.value.firstDay == Some(first) && head.value.lastDay == Some(end)
            && |head.value.series| == end - first + 1
            && forall k :: 0 <= k < |head.value.series| ==>
                 && head.value.series[k].day == first + k
                 && FiguresOf(head.value.series[k]) == SumOfRows(m, accounts, end, first + k)
  {
    hide SumOfRows, MergedFlows, RunsPast, Course.Through, Course.Valid, PositiveRatios, Entries;
    var end := Earliest(Lasts(accounts));
    forall i | 0 <= i < |accounts| ensures end <= accounts[i].last { EarliestLast(accounts, i); }
    var first := Earliest(Entries(m, accounts, end));
    var merged := MergedFlows(m, accounts, end);
    var c := Course(m, merged - {first}, first, AmountOn(merged, first));
    var i := EntryOfSomeone(m, accounts, end, first);
    EntryIsQuoted(m, accounts[i], end);
    PotRunsThrough(m, accounts, end, first, c);
    ReplayFromQuoted(m, first, end, c);
  }

  lemma EntryIsQuoted(m: Market, a: Material, end: int)
    ensures Entry(m, a, end).Some? ==> Entry(m, a, end).value in m.prices && Entry(m, a, end).value <= end
  {
  }

  /** A replay whose first day is quoted is seeded on it. */
  lemma ReplayFromQuoted(m: Market, first: int, end: int, c: Course)
    requires first in m.prices && first <= end && c.Valid() && c.market == m && c.seeded == first
    ensures ReplayOf(first, end, m, c.flows, c.opening) == c.Through(end)
  {
    hide Course.Through;
    assert SumSpan(c.flows, first + 1, first) == 0.0;
    assert CourseOf(m, first, first, c.flows, c.opening) == c;
  }

  lemma PotRunsThrough(m: Market, accounts: seq<Material>, end: int, first: int, c: Course)
    requires PositiveRatios(m) && AllRun(m, accounts, end) && first <= end
    requires first in Entries(m, accounts, end) && forall e :: e in Entries(m, accounts, end) ==> first <= e
    requires c == Course(m, MergedFlows(m, accounts, end) - {first}, first,
                         AmountOn(MergedFlows(m, accounts, end), first))
    ensures c.Valid()
    ensures var r := c.Through(end);
            && r.ended == None && r.firstDay == Some(first) && r.lastDay == Some(end)
            && |r.series| == end - first + 1
            && forall k :: 0 <= k < |r.series| ==>
                 r.series[k].day == first + k && FiguresOf(r.series[k]) == SumOfRows(m, accounts, end, first + k)
  {
    hide SumOfRows, MergedFlows, TurnOf, RunsPast, AllPricedAt, AllRun, Entries, Sound;
    PotIsSumOfRows(m, accounts, end, first, c, first);
    forall d | first <= d <= end
      ensures c.PotOn(d).Some?
    {
      PotIsSumOfRows(m, accounts, end, first, c, d);
    }
    var covered := c.Snapshots(end);
    forall k | 0 <= k < |covered|
      ensures covered[k].day == first + k && FiguresOf(covered[k]) == SumOfRows(m, accounts, end, first + k)
    {
      PotIsSumOfRows(m, accounts, end, first, c, first + k);
      SnapshotAt(c, first + k, end);
    }
  }
}
