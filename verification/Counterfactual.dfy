/** The counterfactual replay: the ledger's own money followed into one reference fund. */
module Counterfactual {
  import opened Basics

  /** Why a replay stopped before its window's last day. */
  datatype Ending = Exhausted | AwaitingRate

  /** One covered day and the whole state of the replay on it. */
  datatype Snapshot = Snapshot(day: int, units: real, value: real, contributed: real, costBasis: real)

  datatype Replay = Replay(
    firstDay: Option<int>, lastDay: Option<int>, ended: Option<Ending>, series: seq<Snapshot>)

  /** Converted closes by quoted day, split ratios by day, and the days whose close has no rate. */
  datatype Market = Market(prices: map<int, real>, splits: map<int, real>, unconverted: set<int>)

  /** Every stored ratio is positive: the only ones the store accepts. */
  predicate PositiveRatios(m: Market) {
    forall d :: d in m.splits ==> m.splits[d] > 0.0
  }

  /** The fund holding at the close of one day, and the price it stands at. */
  datatype Pot = Pot(units: real, basis: real, contributed: real, price: real) {
    function On(day: int): Snapshot {
      Snapshot(day, units, units * price, contributed, basis)
    }
  }

  /** What one day does: no rate ends the replay before it, an unfundable withdrawal ends it on it. */
  datatype Turn = NoRate | Unfunded(pot: Pot) | Next(pot: Pot)

  /** The holding once the day's split and price are in, before its flow. */
  function Marked(m: Market, day: int, pot: Pot): Pot {
    var units := if day in m.splits && m.splits[day] != 0.0 then pot.units * m.splits[day] else pot.units;
    var price := if day in m.prices then m.prices[day] else pot.price;
    pot.(units := units, price := price)
  }

  /** A day nothing can be replayed on: no rate for its close, or a close that is not a price. */
  predicate Unpriced(m: Market, day: int) {
    (day !in m.prices && day in m.unconverted) || (day in m.prices && m.prices[day] <= 0.0)
  }

  /** The flow of the day, at the day's price. A sale takes its share of the cost with it. */
  function Traded(held: Pot, flow: real): (t: Turn)
    requires held.price > 0.0
    ensures !t.NoRate? && (t.Next? ==> t.pot.price == held.price)
  {
    if flow > 0.0 then
      Next(Pot(held.units + flow / held.price, held.basis + flow, held.contributed + flow, held.price))
    else if flow < 0.0 then
      if -flow > held.units * held.price then Unfunded(held)
      else
        var left := held.units - (-flow) / held.price;
        assert held.units != 0.0;
        Next(Pot(left, held.basis * (left / held.units), held.contributed + flow, held.price))
    else
      Next(held)
  }

  function TurnOf(m: Market, flow: real, day: int, pot: Pot): (t: Turn)
    requires pot.price > 0.0
    ensures t.Next? ==> t.pot.price > 0.0
  {
    if Unpriced(m, day) then NoRate else Traded(Marked(m, day, pot), flow)
  }

  /** One replay past its opening: the market, the flows, and the day the money went in. */
  datatype Course = Course(market: Market, flows: map<int, real>, seeded: int, opening: real) {
    predicate Valid() {
      seeded in market.prices && market.prices[seeded] > 0.0 && opening > 0.0
    }

    function Opened(): (p: Pot)
      requires Valid()
      ensures p.price > 0.0
    {
      Pot(opening / market.prices[seeded], opening, opening, market.prices[seeded])
    }

    /** The holding at the close of `day`, or nothing once the replay has stopped. */
    function PotOn(day: int): (p: Option<Pot>)
      requires Valid() && seeded <= day
      ensures p.Some? ==> p.value.price > 0.0
      decreases day - seeded
    {
      if day == seeded then Some(Opened())
      else match PotOn(day - 1)
        case None => None
        case Some(pot) =>
          match TurnOf(market, AmountOn(flows, day), day, pot)
          case Next(p) => Some(p)
          case _ => None
    }

    /** One snapshot a calendar day, from the seed to `last`. */
    function Snapshots(last: int): (s: seq<Snapshot>)
      requires Valid() && seeded <= last && PotOn(last).Some?
      ensures |s| == last - seeded + 1
      decreases last - seeded
    {
      var today := PotOn(last).value.On(last);
      if last == seeded then [today] else Snapshots(last - 1) + [today]
    }

    /** The first day past the seed the replay does not get through, or the day after `last`. */
    function StopDay(from: int, last: int): (d: int)
      requires Valid() && seeded < from <= last + 1 && PotOn(from - 1).Some?
      ensures from <= d <= last + 1
      ensures PotOn(d - 1).Some?
      ensures d <= last ==> PotOn(d).None?
      decreases last + 1 - from
    {
      if from > last || PotOn(from).None? then from else StopDay(from + 1, last)
    }

    /** The replay that stops on `stop`, read off the day-by-day holding. */
    function Stopping(stop: int, last: int): Replay
      requires Valid() && seeded < stop <= last + 1 && PotOn(stop - 1).Some?
      requires stop <= last ==> PotOn(stop).None?
    {
      var covered := Snapshots(stop - 1);
      if stop > last then Replay(Some(seeded), Some(last), None, covered)
      else match TurnOf(market, AmountOn(flows, stop), stop, PotOn(stop - 1).value)
        case NoRate => Replay(Some(seeded), Some(stop - 1), Some(AwaitingRate), covered)
        case Unfunded(pot) => Replay(Some(seeded), Some(stop), Some(Exhausted), covered + [pot.On(stop)])
        case Next(_) => assert false; Replay(None, None, None, [])
    }

    function Through(last: int): Replay
      requires Valid() && seeded <= last
    {
      Stopping(StopDay(seeded + 1, last), last)
    }
  }

  datatype Search = NeverQuoted | RateMissing | Quoted(day: int)

  /** The first convertibly quoted day of the window. */
  function SeedSearch(m: Market, day: int, last: int): (s: Search)
    ensures s.Quoted? ==> day <= s.day <= last && s.day in m.prices
    decreases last - day + 1
  {
    if day > last then NeverQuoted
    else if day in m.prices then Quoted(day)
    else if day in m.unconverted then RateMissing
    else SeedSearch(m, day + 1, last)
  }

  function CourseOf(m: Market, first: int, seeded: int, flows: map<int, real>, seed: real): Course {
    Course(m, flows, seeded, seed + SumSpan(flows, first + 1, seeded))
  }

  function ReplayOf(first: int, last: int, m: Market, flows: map<int, real>, seed: real): Replay {
    match SeedSearch(m, first, last)
    case RateMissing => Replay(None, None, Some(AwaitingRate), [])
    case NeverQuoted => Replay(None, None, None, [])
    case Quoted(seeded) =>
      var course := CourseOf(m, first, seeded, flows, seed);
      if course.Valid() then course.Through(last)
      else Replay(Some(seeded), Some(seeded), Some(Exhausted), [])
  }

  /** The search for the day the money goes in. */
  method FindSeed(first: int, last: int, m: Market) returns (s: Search)
    ensures s == SeedSearch(m, first, last)
  {
    var day := first;
    while day <= last && day !in m.prices
      invariant first <= day
      invariant SeedSearch(m, first, last) == SeedSearch(m, day, last)
    {
      if day in m.unconverted {
        return RateMissing;
      }
      day := day + 1;
    }
    s := if day > last then NeverQuoted else Quoted(day);
  }

  /** The flows of a span, day by day. */
  method SumFlows(flows: map<int, real>, first: int, last: int) returns (total: real)
    ensures total == SumSpan(flows, first, last)
  {
    total := 0.0;
    var day := first;
    while day <= last
      invariant first <= day && (day <= last + 1 || day == first)
      invariant total == SumSpan(flows, first, day - 1)
    {
      total := total + AmountOn(flows, day);
      day := day + 1;
    }
  }

  /** The flow of one day at its price, on the running figures. */
  method Trade(held: Pot, flow: real) returns (funded: bool, after: Pot)
    requires held.price > 0.0
    ensures Traded(held, flow) == if funded then Next(after) else Unfunded(after)
  {
    var units, basis, contributed := held.units, held.basis, held.contributed;
    if flow > 0.0 {
      units := units + flow / held.price;
      basis := basis + flow;
      contributed := contributed + flow;
    } else if flow < 0.0 {
      if -flow > units * held.price {
        return false, held;
      }
      var before := units;
      units := units - (-flow) / held.price;
      basis := basis * (units / before);
      contributed := contributed + flow;
    }
    return true, Pot(units, basis, contributed, held.price);
  }

  /** One day on the running figures: the split, then the price, then the flow. */
  method TakeTurn(m: Market, flow: real, day: int, pot: Pot) returns (ended: Option<Ending>, after: Pot)
    requires pot.price > 0.0
    ensures TurnOf(m, flow, day, pot)
          == match ended
             case Some(AwaitingRate) => NoRate
             case Some(Exhausted) => Unfunded(after)
             case None => Next(after)
  {
    if day !in m.prices && day in m.unconverted {
      return Some(AwaitingRate), pot;
    }
    var units, price := pot.units, pot.price;
    if day in m.splits && m.splits[day] != 0.0 {
      units := units * m.splits[day];
    }
    if day in m.prices {
      if m.prices[day] <= 0.0 {
        return Some(AwaitingRate), pot;
      }
      price := m.prices[day];
    }
    var funded;
    funded, after := Trade(pot.(units := units, price := price), flow);
    ended := if funded then None else Some(Exhausted);
  }

  /** What was put in is what it is worth that evening. */
  lemma OpeningIsWorthItself(c: Course)
    requires c.Valid()
    ensures c.Snapshots(c.seeded)
         == [Snapshot(c.seeded, c.opening / c.market.prices[c.seeded], c.opening, c.opening, c.opening)]
  {
    var pot := c.Opened();
    DivideThenMultiply(c.opening, pot.price);
    assert pot.units * pot.price == c.opening;
    assert pot.On(c.seeded) == Snapshot(c.seeded, pot.units, c.opening, c.opening, c.opening);
    assert c.PotOn(c.seeded) == Some(pot);
  }

  /** The day loop, from the day after the money went in. */
  method Follow(c: Course, last: int) returns (r: Replay)
    requires c.Valid() && c.seeded <= last
    ensures r == c.Through(last)
  {
    hide TurnOf;
    var pot := c.Opened();
    var ended: Option<Ending> := None;
    var series := [Snapshot(c.seeded, pot.units, c.opening, c.opening, c.opening)];
    OpeningIsWorthItself(c);
    var day := c.seeded + 1;
    while day <= last
      invariant c.seeded < day <= last + 1 && ended == None
      invariant c.PotOn(day - 1) == Some(pot)
      invariant c.StopDay(c.seeded + 1, last) == c.StopDay(day, last)
      invariant series == c.Snapshots(day - 1)
    {
      var after;
      ended, after := TakeTurn(c.market, AmountOn(c.flows, day), day, pot);
      if ended == Some(AwaitingRate) {
        break;
      }
      series := series + [after.On(day)];
      if ended == Some(Exhausted) {
        break;
      }
      pot := after;
      day := day + 1;
    }
    var lastDay := match ended case Some(AwaitingRate) => day - 1 case Some(Exhausted) => day case None => last;
    r := Replay(Some(c.seeded), Some(lastDay), ended, series);
  }

  /** Buy `seed` worth of the reference on the first day it can be bought, then follow the flows. */
  method RunReplay(first: int, last: int, m: Market, flows: map<int, real>, seed: real) returns (r: Replay)
    ensures r == ReplayOf(first, last, m, flows, seed)
  {
    var found := FindSeed(first, last, m);
    match found
    case RateMissing => r := Replay(None, None, Some(AwaitingRate), []);
    case NeverQuoted => r := Replay(None, None, None, []);
    case Quoted(seeded) =>
      var flowed := SumFlows(flows, first + 1, seeded);
      var course := Course(m, flows, seeded, seed + flowed);
      if course.opening <= 0.0 || m.prices[seeded] <= 0.0 {
        return Replay(Some(seeded), Some(seeded), Some(Exhausted), []);
      }
      r := Follow(course, last);
  }

  // ---- What a replay keeps ----

  /** Units and cost are never negative and vanish together. */
  predicate Sound(p: Pot) {
    p.units >= 0.0 && p.basis >= 0.0 && p.price > 0.0 && (p.units == 0.0 <==> p.basis == 0.0)
  }

  lemma MarkedIsSound(m: Market, day: int, pot: Pot)
    requires PositiveRatios(m) && Sound(pot) && !Unpriced(m, day)
    ensures Sound(Marked(m, day, pot))
  {
  }

  lemma TradedIsSound(held: Pot, flow: real)
    requires Sound(held)
    ensures Traded(held, flow).Next? ==> Sound(Traded(held, flow).pot)
  {
    if flow > 0.0 {
      assert flow / held.price > 0.0;
    } else if flow < 0.0 && -flow <= held.units * held.price {
      var sold := (-flow) / held.price;
      QuotientAtMost(-flow, held.units, held.price);
      var share := (held.units - sold) / held.units;
      DivideThenMultiply(held.units - sold, held.units);
      assert share >= 0.0;
    }
  }

  /** A withdrawal takes its share of the cost: the price paid per unit still held does not move,
      and the value drops by exactly the money that left. */
  lemma WithdrawalKeepsUnitCost(held: Pot, flow: real)
    requires Sound(held) && flow < 0.0 && Traded(held, flow).Next?
    ensures var left := Traded(held, flow).pot;
            && left.basis * held.units == held.basis * left.units
            && left.units * left.price == held.units * held.price + flow
  {
    var left := Traded(held, flow).pot;
    DivideThenMultiply(left.units, held.units);
    assert left.basis * held.units == held.basis * ((left.units / held.units) * held.units);
    DivideThenMultiply(-flow, held.price);
  }

  /** Every pot of a course is sound, and holds the opening plus every flow since. */
  lemma {:induction false} PotKeeps(c: Course, day: int)
    requires c.Valid() && PositiveRatios(c.market) && c.seeded <= day && c.PotOn(day).Some?
    ensures Sound(c.PotOn(day).value)
    ensures c.PotOn(day).value.contributed == c.opening + SumSpan(c.flows, c.seeded + 1, day)
    decreases day - c.seeded
  {
    if day == c.seeded {
      assert c.opening / c.market.prices[c.seeded] > 0.0;
    } else {
      PotKeeps(c, day - 1);
      var pot := c.PotOn(day - 1).value;
      MarkedIsSound(c.market, day, pot);
      TradedIsSound(Marked(c.market, day, pot), AmountOn(c.flows, day));
    }
  }

  /** Once stopped, a replay never resumes. */
  lemma {:induction false} PotBefore(c: Course, early: int, late: int)
    requires c.Valid() && c.seeded <= early <= late && c.PotOn(late).Some?
    ensures c.PotOn(early).Some?
    decreases late - early
  {
    if early < late {
      PotBefore(c, early, late - 1);
    }
  }

  lemma {:induction false} SnapshotAt(c: Course, day: int, last: int)
    requires c.Valid() && c.seeded <= day <= last && c.PotOn(last).Some?
    ensures c.PotOn(day).Some?
    ensures c.Snapshots(last)[day - c.seeded] == c.PotOn(day).value.On(day)
    decreases last - day
  {
    if day < last {
      SnapshotAt(c, day, last - 1);
    }
  }

  /** The last day whose flow went through: the day before an exhausting withdrawal. */
  function SettledDay(r: Replay): int
    requires r.lastDay.Some?
  {
    if r.ended == Some(Exhausted) then r.lastDay.value - 1 else r.lastDay.value
  }

  /** What a snapshot says of the money: the flows counted in it are those up to the last settled day. */
  predicate Accounted(snap: Snapshot, c: Course, settled: int) {
    && snap.units >= 0.0 && snap.costBasis >= 0.0
    && (snap.units == 0.0 <==> snap.costBasis == 0.0)
    && (snap.units == 0.0 <==> snap.value == 0.0) && snap.value >= 0.0
    && snap.contributed
       == c.opening + SumSpan(c.flows, c.seeded + 1, if snap.day <= settled then snap.day else settled)
  }

  lemma CoveredAccounts(c: Course, day: int, last: int)
    requires c.Valid() && PositiveRatios(c.market) && c.seeded <= day <= last && c.PotOn(last).Some?
    ensures var snap := c.Snapshots(last)[day - c.seeded];
            snap.day == day && forall settled :: day <= settled ==> Accounted(snap, c, settled)
  {
    SnapshotAt(c, day, last);
    PotKeeps(c, day);
    forall settled | day <= settled ensures Accounted(c.PotOn(day).value.On(day), c, settled) {
    }
  }

  lemma RefusedAccounts(c: Course, stop: int)
    requires c.Valid() && PositiveRatios(c.market) && c.seeded < stop && c.PotOn(stop - 1).Some?
    requires !Unpriced(c.market, stop)
    ensures Accounted(Marked(c.market, stop, c.PotOn(stop - 1).value).On(stop), c, stop - 1)
  {
    var pot := c.PotOn(stop - 1).value;
    PotKeeps(c, stop - 1);
    MarkedIsSound(c.market, stop, pot);
  }

  lemma ThroughKeeps(c: Course, last: int, k: nat)
    requires c.Valid() && PositiveRatios(c.market) && c.seeded <= last && k < |c.Through(last).series|
    ensures var r := c.Through(last);
            && r.firstDay == Some(c.seeded) && r.lastDay.Some?
            && c.seeded <= r.lastDay.value <= last
            && |r.series| == r.lastDay.value - c.seeded + 1
            && (r.ended == None ==> r.lastDay.value == last)
            && r.series[k].day == c.seeded + k
            && Accounted(r.series[k], c, SettledDay(r))
  {
    hide Marked, Accounted;
    var stop := c.StopDay(c.seeded + 1, last);
    if c.seeded + k < stop {
      CoveredAccounts(c, c.seeded + k, stop - 1);
    } else {
      RefusedAccounts(c, stop);
    }
  }

  /** A non-empty series has one snapshot per calendar day from the seed to the last day, in all three
      endings, and every snapshot is sound and accounts for every flow it went through. */
  lemma ReplayKeepsState(first: int, last: int, m: Market, flows: map<int, real>, seed: real, k: nat)
    requires PositiveRatios(m)
    requires k < |ReplayOf(first, last, m, flows, seed).series|
    ensures var r := ReplayOf(first, last, m, flows, seed);
            && r.firstDay.Some? && r.lastDay.Some?
            && first <= r.firstDay.value <= r.lastDay.value <= last
            && |r.series| == r.lastDay.value - r.firstDay.value + 1
            && (r.ended == None ==> r.lastDay.value == last)
            && r.series[k].day == r.firstDay.value + k
            && Accounted(r.series[k], CourseOf(m, first, r.firstDay.value, flows, seed), SettledDay(r))
  {
    ThroughKeeps(CourseOf(m, first, SeedSearch(m, first, last).day, flows, seed), last, k);
  }

  // ---- What a day does, read off the series ----

  /** What a split of the day multiplies the units by. */
  function RatioAt(m: Market, day: int): real {
    if day in m.splits && m.splits[day] != 0.0 then m.splits[day] else 1.0
  }

  /** The last close on or before a day, from the seed day on. */
  function CloseBy(m: Market, seeded: int, day: int): real
    requires seeded in m.prices && seeded <= day
    decreases day - seeded
  {
    if day in m.prices then m.prices[day] else CloseBy(m, seeded, day - 1)
  }

  /** An evening after one whose flow went through: the money moves by the flow, the cost by it or by its share. */
  predicate Settles(before: Snapshot, after: Snapshot, ratio: real, price: real, flow: real) {
    var worth := before.units * ratio * price;
    && price > 0.0 && -flow <= worth
    && after.units == before.units * ratio + flow / price && after.value == worth + flow
    && after.contributed == before.contributed + flow
    && (flow >= 0.0 ==> after.costBasis == before.costBasis + flow)
    && (flow < 0.0 ==> after.costBasis * worth == before.costBasis * (worth + flow))
  }

  /** The evening of a withdrawal past what is held: the split and the price are in, the flow is not. */
  predicate Refuses(before: Snapshot, after: Snapshot, ratio: real, price: real, flow: real) {
    var worth := before.units * ratio * price;
    && -flow > worth
    && after.units == before.units * ratio && after.value == worth
    && after.contributed == before.contributed && after.costBasis == before.costBasis
  }

  lemma {:induction false} PriceIsLastClose(c: Course, day: int)
    requires c.Valid() && c.seeded <= day && c.PotOn(day).Some?
    ensures c.PotOn(day).value.price == CloseBy(c.market, c.seeded, day) > 0.0
    decreases day - c.seeded
  {
    if c.seeded < day {
      PriceIsLastClose(c, day - 1);
    }
  }

  lemma MarkedBy(m: Market, day: int, pot: Pot)
    ensures Marked(m, day, pot)
         == pot.(units := pot.units * RatioAt(m, day), price := if day in m.prices then m.prices[day] else pot.price)
  {
  }

  lemma TradeSettles(day: int, before: Pot, held: Pot, flow: real, ratio: real)
    requires Sound(held) && held == before.(units := before.units * ratio, price := held.price)
    ensures var t := Traded(held, flow);
            && (t.Next? ==> Settles(before.On(day - 1), t.pot.On(day), ratio, held.price, flow))
            && (t.Unfunded? ==> Refuses(before.On(day - 1), t.pot.On(day), ratio, held.price, flow))
  {
    TradedBy(held, flow);
    hide Traded;
  }

  lemma TradedBy(held: Pot, flow: real)
    requires Sound(held)
    ensures var t, worth := Traded(held, flow), held.units * held.price;
            && (t.Unfunded? <==> -flow > worth) && (t.Unfunded? ==> t.pot == held)
            && (t.Next? ==>
                  && t.pot.units == held.units + flow / held.price && t.pot.units * t.pot.price == worth + flow
                  && t.pot.contributed == held.contributed + flow && t.pot.price == held.price
                  && (flow >= 0.0 ==> t.pot.basis == held.basis + flow)
                  && (flow < 0.0 ==> t.pot.basis * worth == held.basis * (worth + flow)))
  {
    DivideThenMultiply(flow, held.price);
    OpposedQuotient(flow, held.price);
    ProductOfNonNegatives(held.units, held.price);
    var t := Traded(held, flow);
    if t.Next? {
      Spread(held.units, flow / held.price, held.price);
      if flow < 0.0 {
        WithdrawalKeepsUnitCost(held, flow);
        Rescaled(t.pot.basis, held.basis, held.units, t.pot.units, held.price);
      }
    }
  }

  lemma Spread(a: real, b: real, c: real)
    ensures (a + b) * c == a * c + b * c
  {
  }

  lemma OpposedQuotient(a: real, b: real)
    requires b > 0.0
    ensures (-a) / b == -(a / b)
  {
  }

  lemma Rescaled(left: real, basis: real, units: real, rest: real, price: real)
    requires left * units == basis * rest
    ensures left * (units * price) == basis * (rest * price)
  {
    assert left * (units * price) == (left * units) * price;
    assert basis * (rest * price) == (basis * rest) * price;
  }

  /** The evening of a covered day, from the evening before it. */
  lemma EveningOf(c: Course, day: int)
    requires c.Valid() && PositiveRatios(c.market) && c.seeded < day && c.PotOn(day - 1).Some?
    requires !Unpriced(c.market, day)
    ensures var before, flow := c.PotOn(day - 1).value.On(day - 1), AmountOn(c.flows, day);
            var ratio, price := RatioAt(c.market, day), CloseBy(c.market, c.seeded, day);
            match TurnOf(c.market, flow, day, c.PotOn(day - 1).value)
            case Next(p) => c.PotOn(day) == Some(p) && Settles(before, p.On(day), ratio, price, flow)
            case Unfunded(p) => Refuses(before, p.On(day), ratio, price, flow)
            case NoRate => false
  {
    var pot := c.PotOn(day - 1).value;
    PotKeeps(c, day - 1);
    PriceIsLastClose(c, day - 1);
    MarkedIsSound(c.market, day, pot);
    MarkedBy(c.market, day, pot);
    hide Traded, Settles, Refuses, Marked;
    TradeSettles(day, pot, Marked(c.market, day, pot), AmountOn(c.flows, day), RatioAt(c.market, day));
  }

  /** What a replay tells of the money, day by day, its opening and its ending included. */
  ghost predicate TellsTheMoney(r: Replay, first: int, last: int, m: Market, flows: map<int, real>, seed: real)
    requires r.series != [] && r.firstDay.Some? && r.lastDay.Some? && r.firstDay.value in m.prices
  {
    var seeded := r.firstDay.value;
    var opening := seed + SumSpan(flows, first + 1, seeded);
    && opening > 0.0 && m.prices[seeded] > 0.0
    && r.series[0] == Snapshot(seeded, opening / m.prices[seeded], opening, opening, opening)
    && (forall day :: first <= day < seeded ==> day !in m.prices && day !in m.unconverted)
    && (forall day :: seeded < day <= r.lastDay.value ==> Tells(r, m, flows, day))
    && (r.ended == Some(AwaitingRate) ==> r.lastDay.value < last && HasNoPrice(m, r.lastDay.value + 1))
    && (r.ended == None ==> r.lastDay.value == last)
  }

  /** No rate for its close, or a close that is not a price. */
  predicate HasNoPrice(m: Market, day: int) {
    if day in m.prices then m.prices[day] <= 0.0 else day in m.unconverted
  }

  predicate Tells(r: Replay, m: Market, flows: map<int, real>, day: int)
    requires r.firstDay.Some? && r.lastDay.Some? && r.firstDay.value in m.prices
  {
    var k := day - r.firstDay.value;
    0 < k < |r.series|
    && r.series[k].day == day && !HasNoPrice(m, day)
    && var ratio, price, flow := RatioAt(m, day), CloseBy(m, r.firstDay.value, day), AmountOn(flows, day);
       if r.ended == Some(Exhausted) && day == r.lastDay.value
       then Refuses(r.series[k - 1], r.series[k], ratio, price, flow)
       else Settles(r.series[k - 1], r.series[k], ratio, price, flow)
  }

  lemma {:induction false} SeedIsFirstQuoted(m: Market, first: int, last: int)
    requires SeedSearch(m, first, last).Quoted?
    ensures forall day :: first <= day < SeedSearch(m, first, last).day ==> day !in m.prices && day !in m.unconverted
    decreases last - first + 1
  {
    if first !in m.prices {
      SeedIsFirstQuoted(m, first + 1, last);
    }
  }

  lemma TurnsArePriced(c: Course, day: int)
    requires c.Valid() && c.seeded < day && c.PotOn(day - 1).Some?
    ensures TurnOf(c.market, AmountOn(c.flows, day), day, c.PotOn(day - 1).value).NoRate? <==> HasNoPrice(c.market, day)
    ensures HasNoPrice(c.market, day) <==> Unpriced(c.market, day)
  {
  }

  /** Where the series comes from: the evenings gone through, then the turn the last withdrawal failed. */
  lemma ThroughAt(c: Course, last: int, day: int)
    requires c.Valid() && c.seeded <= last && c.seeded <= day <= c.Through(last).lastDay.value
    ensures var r, k := c.Through(last), day - c.seeded;
            && r.firstDay == Some(c.seeded) && k < |r.series| && (day > c.seeded ==> c.PotOn(day - 1).Some?)
            && if r.ended == Some(Exhausted) && day == r.lastDay.value then
                 var t := TurnOf(c.market, AmountOn(c.flows, day), day, c.PotOn(day - 1).value);
                 day > c.seeded && t.Unfunded? && r.series[k] == t.pot.On(day)
               else c.PotOn(day).Some? && r.series[k] == c.PotOn(day).value.On(day)
  {
    hide TurnOf;
    var stop := c.StopDay(c.seeded + 1, last);
    if day < stop {
      SnapshotAt(c, day, stop - 1);
      if day > c.seeded {
        PotBefore(c, day - 1, day);
      }
    }
  }

  lemma CoveredTells(c: Course, last: int, day: int)
    requires c.Valid() && PositiveRatios(c.market) && c.seeded <= last
    requires c.seeded < day <= c.Through(last).lastDay.value
    ensures Tells(c.Through(last), c.market, c.flows, day)
  {
    hide Settles, Refuses, TurnOf, HasNoPrice, Unpriced, RatioAt, CloseBy, Course.Through;
    ThroughAt(c, last, day - 1);
    ThroughAt(c, last, day);
    TurnsArePriced(c, day);
    EveningOf(c, day);
  }

  lemma EndsUnpriced(c: Course, last: int)
    requires c.Valid() && c.seeded <= last
    ensures var r := c.Through(last);
            && (r.ended == Some(AwaitingRate) ==> r.lastDay.value < last && HasNoPrice(c.market, r.lastDay.value + 1))
            && (r.ended == None ==> r.lastDay.value == last)
  {
    hide TurnOf, HasNoPrice;
    var stop := c.StopDay(c.seeded + 1, last);
    if stop <= last {
      TurnsArePriced(c, stop);
    }
  }

  /** Every replay that opened, told day by day: its opening, its evenings and its ending. */
  lemma ReplayTells(first: int, last: int, m: Market, flows: map<int, real>, seed: real)
    requires PositiveRatios(m)
    ensures var r := ReplayOf(first, last, m, flows, seed);
            r.series != [] ==>
              && r.firstDay.Some? && r.lastDay.Some? && r.firstDay.value in m.prices
              && TellsTheMoney(r, first, last, m, flows, seed)
  {
    var r := ReplayOf(first, last, m, flows, seed);
    if r.series != [] {
      hide Tells, HasNoPrice, TurnOf;
      var seeded := SeedSearch(m, first, last).day;
      SeedIsFirstQuoted(m, first, last);
      var c := CourseOf(m, first, seeded, flows, seed);
      ReplayKeepsState(first, last, m, flows, seed, 0);
      forall day | seeded < day <= r.lastDay.value ensures Tells(r, m, flows, day) {
        CoveredTells(c, last, day);
      }
      EndsUnpriced(c, last);
      OpensThrough(c, last);
    }
  }

  lemma OpensThrough(c: Course, last: int)
    requires c.Valid() && c.seeded <= last
    ensures var r := c.Through(last);
            && r.firstDay == Some(c.seeded) && r.series != []
            && r.series[0] == Snapshot(c.seeded, c.opening / c.market.prices[c.seeded], c.opening, c.opening, c.opening)
  {
    hide TurnOf;
    SnapshotAt(c, c.seeded, c.StopDay(c.seeded + 1, last) - 1);
    DivideThenMultiply(c.opening, c.market.prices[c.seeded]);
  }

  /** A replay with no series never found a day to open on, or opened on nothing. */
  lemma UnopenedReplay(first: int, last: int, m: Market, flows: map<int, real>, seed: real)
    requires ReplayOf(first, last, m, flows, seed).series == []
    ensures var r := ReplayOf(first, last, m, flows, seed);
            if r.firstDay.None? then
              && r.lastDay.None?
              && (r.ended == Some(AwaitingRate) <==> exists day :: IsUnratedFirst(m, first, last, day))
              && (r.ended == None <==> forall day :: first <= day <= last ==> day !in m.prices && day !in m.unconverted)
            else
              && r.lastDay == r.firstDay && r.ended == Some(Exhausted) && r.firstDay.value in m.prices
              && (m.prices[r.firstDay.value] <= 0.0 || seed + SumSpan(flows, first + 1, r.firstDay.value) <= 0.0)
  {
    var seen := SeedSearch(m, first, last);
    if seen.Quoted? {
      var c := CourseOf(m, first, seen.day, flows, seed);
      if c.Valid() {
        OpensThrough(c, last);
        assert false;
      }
    } else {
      SearchedInVain(m, first, last);
    }
  }

  /** The first day with a close of any kind has one with no rate. */
  predicate IsUnratedFirst(m: Market, first: int, last: int, day: int) {
    && first <= day <= last && day in m.unconverted && day !in m.prices
    && forall d :: first <= d < day ==> d !in m.prices && d !in m.unconverted
  }

  lemma {:induction false} SearchedInVain(m: Market, first: int, last: int)
    requires !SeedSearch(m, first, last).Quoted?
    ensures SeedSearch(m, first, last).RateMissing? ==> exists day :: IsUnratedFirst(m, first, last, day)
    ensures SeedSearch(m, first, last).NeverQuoted? ==>
              forall day :: first <= day <= last ==> day !in m.prices && day !in m.unconverted
    decreases last - first + 1
  {
    if first <= last {
      if first in m.unconverted {
        assert IsUnratedFirst(m, first, last, first);
      } else {
        var next := first + 1;
        SearchedInVain(m, next, last);
        if SeedSearch(m, next, last).RateMissing? {
          var day :| IsUnratedFirst(m, next, last, day);
          assert IsUnratedFirst(m, first, last, day);
        }
      }
    }
  }

  /** Until money is first withdrawn, the cost is what was put in. */
  lemma {:induction false} BasisIsContributed(first: int, last: int, m: Market, flows: map<int, real>, seed: real,
                                              k: nat)
    requires PositiveRatios(m) && k < |ReplayOf(first, last, m, flows, seed).series|
    requires var r := ReplayOf(first, last, m, flows, seed);
             r.firstDay.Some? && forall d :: r.firstDay.value < d <= r.firstDay.value + k ==> AmountOn(flows, d) >= 0.0
    ensures var r := ReplayOf(first, last, m, flows, seed);
            r.series[k].costBasis == r.series[k].contributed
  {
    hide ReplayOf, HasNoPrice, CloseBy, RatioAt;
    ReplayTells(first, last, m, flows, seed);
    var r := ReplayOf(first, last, m, flows, seed);
    if k > 0 {
      BasisIsContributed(first, last, m, flows, seed, k - 1);
      ReplayKeepsState(first, last, m, flows, seed, k);
      assert Tells(r, m, flows, r.firstDay.value + k);
    }
  }
}
