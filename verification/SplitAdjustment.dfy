/** Split-adjusted closes put back in the share of their day, and the replay that meets them. */
module SplitAdjustment {
  import opened Basics
  import opened Counterfactual

  /** One served point: an instant in seconds, and its close when the market gave one. */
  datatype Point = Point(timestamp: int, price: Option<real>) {
    function Day(): int { DayOf(timestamp) }
  }

  /** The factor one day contributes: only a positive ratio is a split. */
  function RatioOn(splits: map<int, real>, day: int): (r: real)
    ensures r > 0.0
  {
    if day in splits && splits[day] > 0.0 then splits[day] else 1.0
  }

  /** The product of every split strictly after `day`, read along the calendar up to `until`. */
  function LaterRatios(splits: map<int, real>, day: int, until: int): (f: real)
    ensures f > 0.0
    decreases until - day
  {
    if day >= until then 1.0
    else
      ProductOfPositives(RatioOn(splits, day + 1), LaterRatios(splits, day + 1, until));
      RatioOn(splits, day + 1) * LaterRatios(splits, day + 1, until)
  }

  lemma ProductOfPositives(a: real, b: real)
    requires a > 0.0 && b > 0.0
    ensures a * b > 0.0
  {
  }

  predicate Covers(splits: map<int, real>, until: int) {
    forall d :: d in splits ==> d <= until
  }

  lemma {:induction false} RatiosWithout(splits: map<int, real>, split: int, day: int, until: int)
    requires split in splits && Covers(splits, until)
    ensures LaterRatios(splits, day, until)
         == (if split > day then RatioOn(splits, split) else 1.0) * LaterRatios(splits - {split}, day, until)
    decreases until - day
  {
    if day < until {
      RatiosWithout(splits, split, day + 1, until);
    }
  }

  lemma {:induction false} NoRatios(day: int, until: int)
    ensures LaterRatios(map[], day, until) == 1.0
    decreases until - day
  {
    if day < until {
      NoRatios(day + 1, until);
    }
  }

  function Scaled(price: real, factor: real): real {
    price * factor
  }

  /** A close in the share of its own day. */
  function InShareOf(price: real, splits: map<int, real>, day: int, until: int): real {
    Scaled(price, LaterRatios(splits, day, until))
  }

  function Printed(point: Point, splits: map<int, real>, until: int): Point {
    match point.price
    case None => point
    case Some(price) => point.(price := Some(InShareOf(price, splits, point.Day(), until)))
  }

  lemma Unscaled(product: real, splits: map<int, real>, day: int, until: int)
    ensures InShareOf(1.0, splits, day, until) == LaterRatios(splits, day, until)
    ensures InShareOf(product, map[], day, until) == product
  {
    NoRatios(day, until);
  }

  lemma TakeRatio(product: real, splits: map<int, real>, split: int, day: int, until: int)
    requires split in splits && Covers(splits, until)
    ensures InShareOf(product, splits, day, until)
         == InShareOf(if splits[split] > 0.0 && split > day then Scaled(product, splits[split]) else product,
                      splits - {split}, day, until)
  {
    RatiosWithout(splits, split, day, until);
    var rest := LaterRatios(splits - {split}, day, until);
    assert product * (splits[split] * rest) == (product * splits[split]) * rest;
  }

  /** The product over the splits in whatever order the mapping yields them. */
  method ProductAfter(splits: map<int, real>, day: int, ghost until: int) returns (product: real)
    requires Covers(splits, until)
    ensures product == LaterRatios(splits, day, until)
  {
    hide LaterRatios, InShareOf, Scaled;
    product := 1.0;
    Unscaled(product, splits, day, until);
    ghost var rest := splits;
    var todo := splits.Keys;
    while todo != {}
      invariant rest.Keys == todo <= splits.Keys && Covers(rest, until)
      invariant forall d :: d in todo ==> rest[d] == splits[d]
      invariant InShareOf(product, rest, day, until) == LaterRatios(splits, day, until)
    {
      var split := Pick(todo);
      TakeRatio(product, rest, split, day, until);
      if splits[split] > 0.0 && split > day {
        product := Scaled(product, splits[split]);
      }
      todo := todo - {split};
      rest := rest - {split};
    }
    assert rest == map[];
    Unscaled(product, splits, day, until);
  }

  /** The closes corrected in place: each one multiplied by every split that came after its day. */
  method AsPrinted(points: array<Point>, splits: map<int, real>, ghost until: int)
    requires Covers(splits, until)
    modifies points
    ensures forall i :: 0 <= i < points.Length ==> points[i] == Printed(old(points[i]), splits, until)
  {
    for i := 0 to points.Length
      invariant forall j :: 0 <= j < i ==> points[j] == Printed(old(points[j]), splits, until)
      invariant forall j :: i <= j < points.Length ==> points[j] == old(points[j])
    {
      match points[i].price
      case None =>
      case Some(price) =>
        var factor := ProductAfter(splits, points[i].Day(), until);
        assert price * factor == InShareOf(price, splits, points[i].Day(), until);
        points[i] := points[i].(price := Some(price * factor));
    }
  }

  /** The close of each day out of a time-ordered series: the day's last priced point. */
  function Closes(points: seq<Point>): map<int, real> {
    if points == [] then map[]
    else
      var last := points[|points| - 1];
      var before := Closes(points[..|points| - 1]);
      if last.price.Some? then before[last.Day() := last.price.value] else before
  }

  /** The daily closes in the share of their day. */
  function PrintedCloses(prices: map<int, real>, splits: map<int, real>, until: int): map<int, real> {
    map d | d in prices :: InShareOf(prices[d], splits, d, until)
  }

  /** Correcting the points and then reading the days is reading the days and then correcting them. */
  lemma {:induction false} ClosesOfPrinted(points: seq<Point>, printed: seq<Point>, splits: map<int, real>, until: int)
    requires |points| == |printed|
    requires forall i :: 0 <= i < |points| ==> printed[i] == Printed(points[i], splits, until)
    ensures Closes(printed) == PrintedCloses(Closes(points), splits, until)
  {
    if points != [] {
      var n := |points| - 1;
      ClosesOfPrinted(points[..n], printed[..n], splits, until);
      assert printed[n] == Printed(points[n], splits, until);
    }
  }

  // ---- The same money in two units of account ----

  /** The market as served, its history all in today's share: no split is left to apply. */
  function Adjusted(m: Market): Market {
    m.(splits := map[])
  }

  /** The market as printed: the same closes in the share of their day, with the splits to meet. */
  function AsTraded(m: Market, until: int): Market {
    m.(prices := PrintedCloses(m.prices, m.splits, until))
  }

  /** The same holding counted in the share of its day (`p`) and in today's (`a`). */
  predicate SameMoney(a: Pot, p: Pot, later: real) {
    p.units * later == a.units && p.price == a.price * later && p.basis == a.basis && p.contributed == a.contributed
  }

  lemma SameValue(a: Pot, p: Pot, later: real)
    requires SameMoney(a, p, later)
    ensures p.units * p.price == a.units * a.price
  {
    assert p.units * (a.price * later) == (p.units * later) * a.price;
  }

  /** How far the printed reading's price has drifted from the share of the day: the ratios met since the last close. */
  function Drift(m: Market, seeded: int, day: int): (g: real)
    requires PositiveRatios(m)
    ensures g > 0.0
    decreases day - seeded
  {
    if day <= seeded || day in m.prices then 1.0
    else
      ProductOfPositives(Drift(m, seeded, day - 1), RatioOn(m.splits, day));
      Drift(m, seeded, day - 1) * RatioOn(m.splits, day)
  }

  /** The same holding, the printed price off the share of the day by a factor. */
  predicate Drifting(a: Pot, p: Pot, later: real, drift: real) {
    SameMoney(a, p.(price := a.price * later), later) && p.price == (a.price * later) * drift
  }

  /**
   * The split of a day moves the units exactly as it moves the factor still to come, and a close brings the price back.
   */
  lemma MarkedDrifting(m: Market, until: int, seeded: int, day: int, a: Pot, p: Pot)
    requires PositiveRatios(m) && seeded < day <= until && !Unpriced(m, day)
    requires Drifting(a, p, LaterRatios(m.splits, day - 1, until), Drift(m, seeded, day - 1))
    ensures Drifting(Marked(Adjusted(m), day, a), Marked(AsTraded(m, until), day, p),
                     LaterRatios(m.splits, day, until), Drift(m, seeded, day))
  {
    hide LaterRatios, Drift, RatioOn;
    LaterStep(m, until, day);
    DriftStep(m, seeded, day);
    var later, ratio := LaterRatios(m.splits, day, until), RatioOn(m.splits, day);
    Reassociate(p.units, ratio, later);
    if day in m.prices {
      PrintedIsPositive(m, until, day);
      assert Marked(AsTraded(m, until), day, p).price == (Marked(Adjusted(m), day, a).price * later) * 1.0;
    } else {
      DriftedPrice(a.price, ratio, later, Drift(m, seeded, day - 1));
    }
    SplitUnits(m, until, day, p);
  }

  lemma LaterStep(m: Market, until: int, day: int)
    requires day <= until
    ensures LaterRatios(m.splits, day - 1, until) == RatioOn(m.splits, day) * LaterRatios(m.splits, day, until)
  {
  }

  lemma DriftStep(m: Market, seeded: int, day: int)
    requires PositiveRatios(m) && seeded < day
    ensures Drift(m, seeded, day) == if day in m.prices then 1.0 else Drift(m, seeded, day - 1) * RatioOn(m.splits, day)
  {
  }

  lemma SplitUnits(m: Market, until: int, day: int, p: Pot)
    requires PositiveRatios(m)
    ensures Marked(AsTraded(m, until), day, p).units == p.units * RatioOn(m.splits, day)
  {
  }

  lemma Reassociate(u: real, ratio: real, later: real)
    ensures u * (ratio * later) == (u * ratio) * later
  {
  }

  lemma DriftedPrice(price: real, ratio: real, later: real, drift: real)
    ensures (price * (ratio * later)) * drift == (price * later) * (drift * ratio)
  {
    assert price * (ratio * later) == (price * later) * ratio;
  }

  lemma BoughtSameMoney(a: Pot, p: Pot, later: real, flow: real)
    requires later > 0.0 && a.price > 0.0 && p.price > 0.0 && SameMoney(a, p, later) && flow > 0.0
    ensures SameMoney(Traded(a, flow).pot, Traded(p, flow).pot, later)
  {
    QuotientRescaled(flow, a.price, later);
    assert (p.units + flow / p.price) * later == p.units * later + (flow / p.price) * later;
  }

  lemma SoldSameMoney(a: Pot, p: Pot, later: real, flow: real)
    requires later > 0.0 && a.price > 0.0 && p.price > 0.0 && SameMoney(a, p, later)
    requires flow < 0.0 && -flow <= a.units * a.price && a.units * a.price == p.units * p.price
    ensures SameMoney(Traded(a, flow).pot, Traded(p, flow).pot, later)
  {
    QuotientRescaled(-flow, a.price, later);
    var leftP, leftA := p.units - (-flow) / p.price, a.units - (-flow) / a.price;
    assert leftP * later == p.units * later - ((-flow) / p.price) * later == leftA;
    assert p.units != 0.0 && a.units != 0.0;
    RatioRescaled(leftP, p.units, later);
    assert leftA / a.units == leftP / p.units;
  }

  lemma TradedSameMoney(a: Pot, p: Pot, later: real, flow: real)
    requires later > 0.0 && a.price > 0.0 && p.price > 0.0 && SameMoney(a, p, later)
    ensures Traded(a, flow).Unfunded? <==> Traded(p, flow).Unfunded?
    ensures SameMoney(Traded(a, flow).pot, Traded(p, flow).pot, later)
  {
    SameValue(a, p, later);
    if flow > 0.0 {
      BoughtSameMoney(a, p, later, flow);
    } else if flow < 0.0 && -flow <= a.units * a.price {
      SoldSameMoney(a, p, later, flow);
    }
  }

  lemma QuotientRescaled(x: real, price: real, later: real)
    requires price > 0.0 && later > 0.0 && price * later > 0.0
    ensures (x / (price * later)) * later == x / price
  {
    var q := x / (price * later);
    DivideThenMultiply(x, price * later);
    assert (q * later) * price == x;
    DivideThenMultiply(x, price);
  }

  lemma RatioRescaled(x: real, y: real, later: real)
    requires y != 0.0 && later > 0.0 && y * later != 0.0
    ensures (x * later) / (y * later) == x / y
  {
    DivideThenMultiply(x, y);
    assert (x / y) * (y * later) == x * later;
  }

  /** A flow met at a drifted price keeps the two the same when nothing is held before it nor after. */
  lemma TradedDrifting(a: Pot, p: Pot, later: real, drift: real, flow: real)
    requires later > 0.0 && drift > 0.0 && a.price > 0.0 && p.price > 0.0 && Drifting(a, p, later, drift)
    requires drift == 1.0 || (a.units == 0.0 && Traded(a, flow).pot.units == 0.0)
    ensures Traded(a, flow).Unfunded? <==> Traded(p, flow).Unfunded?
    ensures Drifting(Traded(a, flow).pot, Traded(p, flow).pot, later, drift)
  {
    if drift == 1.0 {
      assert p.(price := a.price * later) == p;
      TradedSameMoney(a, p, later, flow);
    } else {
      NothingHeld(p.units, later);
      if flow > 0.0 {
        BoughtIsHeld(flow, a.price);
      }
    }
  }

  lemma NothingHeld(units: real, later: real)
    requires units * later == 0.0 && later > 0.0
    ensures units == 0.0
  {
  }

  lemma BoughtIsHeld(flow: real, price: real)
    requires flow > 0.0 && price > 0.0
    ensures flow / price > 0.0
  {
    DivideThenMultiply(flow, price);
  }

  /** A day that cannot tell the readings apart: no drift, or nothing held the evening before it nor when it is over. */
  predicate Harmless(m: Market, c: Course, day: int)
    requires PositiveRatios(m) && c.Valid() && c.seeded < day && c.PotOn(day - 1).Some?
  {
    var t := TurnOf(c.market, AmountOn(c.flows, day), day, c.PotOn(day - 1).value);
    Drift(m, c.seeded, day) == 1.0 || t.NoRate? || (c.PotOn(day - 1).value.units == 0.0 && t.pot.units == 0.0)
  }

  predicate HarmlessUpTo(m: Market, c: Course, last: int)
    requires PositiveRatios(m) && c.Valid()
  {
    forall d :: c.seeded < d <= last && c.PotOn(d - 1).Some? ==> Harmless(m, c, d)
  }

  predicate SameOn(a: Option<Pot>, p: Option<Pot>, later: real, drift: real) {
    (a.None? && p.None?) || (a.Some? && p.Some? && Drifting(a.value, p.value, later, drift))
  }

  function AdjustedCourse(m: Market, flows: map<int, real>, seeded: int, opening: real): Course {
    Course(Adjusted(m), flows, seeded, opening)
  }

  function TradedCourse(m: Market, until: int, flows: map<int, real>, seeded: int, opening: real): Course {
    Course(AsTraded(m, until), flows, seeded, opening)
  }

  lemma PrintedIsPositive(m: Market, until: int, day: int)
    requires day in m.prices
    ensures AsTraded(m, until).prices[day] > 0.0 <==> m.prices[day] > 0.0
    ensures AsTraded(m, until).prices[day] == m.prices[day] * LaterRatios(m.splits, day, until)
  {
    hide LaterRatios;
    var later := LaterRatios(m.splits, day, until);
    if m.prices[day] > 0.0 {
      ProductOfPositives(m.prices[day], later);
    } else {
      ProductOfNonNegatives(-m.prices[day], later);
      assert m.prices[day] * later == -((-m.prices[day]) * later);
    }
  }

  /** One harmless day, in the two readings. */
  lemma TurnSameMoney(m: Market, until: int, seeded: int, day: int, a: Pot, p: Pot, flow: real)
    requires PositiveRatios(m) && seeded < day <= until && a.price > 0.0 && p.price > 0.0
    requires Drifting(a, p, LaterRatios(m.splits, day - 1, until), Drift(m, seeded, day - 1))
    requires var ta := TurnOf(Adjusted(m), flow, day, a);
             Drift(m, seeded, day) == 1.0 || ta.NoRate? || (a.units == 0.0 && ta.pot.units == 0.0)
    ensures var ta, tp := TurnOf(Adjusted(m), flow, day, a), TurnOf(AsTraded(m, until), flow, day, p);
            var later, drift := LaterRatios(m.splits, day, until), Drift(m, seeded, day);
            || (ta.NoRate? && tp.NoRate?)
            || (ta.Unfunded? && tp.Unfunded? && Drifting(ta.pot, tp.pot, later, drift))
            || (ta.Next? && tp.Next? && Drifting(ta.pot, tp.pot, later, drift))
  {
    hide Traded, Marked, LaterRatios, Drift, Drifting;
    SameRate(m, until, day);
    if !Unpriced(m, day) {
      MarkedDrifting(m, until, seeded, day, a, p);
      MarkedPrice(Adjusted(m), day, a);
      MarkedPrice(AsTraded(m, until), day, p);
      TradedDrifting(Marked(Adjusted(m), day, a), Marked(AsTraded(m, until), day, p),
                     LaterRatios(m.splits, day, until), Drift(m, seeded, day), flow);
    }
  }

  lemma SameRate(m: Market, until: int, day: int)
    ensures Unpriced(Adjusted(m), day) <==> Unpriced(m, day)
    ensures Unpriced(AsTraded(m, until), day) <==> Unpriced(m, day)
  {
    if day in m.prices {
      PrintedIsPositive(m, until, day);
    }
  }

  lemma MarkedPrice(m: Market, day: int, pot: Pot)
    requires pot.price > 0.0 && !Unpriced(m, day)
    ensures Marked(m, day, pot).price > 0.0
    ensures m.splits == map[] ==> Marked(m, day, pot).units == pot.units
  {
  }

  lemma {:induction false} PotsSameMoney(m: Market, until: int, flows: map<int, real>, seeded: int, opening: real,
                                         day: int)
    requires PositiveRatios(m) && seeded <= day <= until
    requires AdjustedCourse(m, flows, seeded, opening).Valid() && TradedCourse(m, until, flows, seeded, opening).Valid()
    requires HarmlessUpTo(m, AdjustedCourse(m, flows, seeded, opening), day)
    ensures SameOn(AdjustedCourse(m, flows, seeded, opening).PotOn(day),
                   TradedCourse(m, until, flows, seeded, opening).PotOn(day),
                   LaterRatios(m.splits, day, until), Drift(m, seeded, day))
    decreases day - seeded
  {
    hide SameMoney, Drifting, TurnOf, LaterRatios, Drift;
    if day == seeded {
      SeedsSameMoney(m, until, flows, seeded, opening);
    } else {
      PotsSameMoney(m, until, flows, seeded, opening, day - 1);
      var a := AdjustedCourse(m, flows, seeded, opening).PotOn(day - 1);
      var p := TradedCourse(m, until, flows, seeded, opening).PotOn(day - 1);
      if a.Some? {
        assert Harmless(m, AdjustedCourse(m, flows, seeded, opening), day);
        TurnSameMoney(m, until, seeded, day, a.value, p.value, AmountOn(flows, day));
      }
    }
  }

  lemma SeedsSameMoney(m: Market, until: int, flows: map<int, real>, seeded: int, opening: real)
    requires PositiveRatios(m) && seeded <= until
    requires AdjustedCourse(m, flows, seeded, opening).Valid() && TradedCourse(m, until, flows, seeded, opening).Valid()
    ensures Drifting(AdjustedCourse(m, flows, seeded, opening).Opened(),
                     TradedCourse(m, until, flows, seeded, opening).Opened(),
                     LaterRatios(m.splits, seeded, until), Drift(m, seeded, seeded))
  {
    hide LaterRatios, Drifting, PrintedCloses, InShareOf, Scaled, PositiveRatios, RatioOn;
    PrintedIsPositive(m, until, seeded);
    assert Drift(m, seeded, seeded) == 1.0;
    OpenedDrifting(AdjustedCourse(m, flows, seeded, opening).Opened(),
                   TradedCourse(m, until, flows, seeded, opening).Opened(),
                   opening, m.prices[seeded], AsTraded(m, until).prices[seeded], LaterRatios(m.splits, seeded, until));
  }

  lemma OpenedDrifting(a: Pot, p: Pot, opening: real, price: real, printed: real, later: real)
    requires price > 0.0 && later > 0.0 && printed > 0.0 && printed == price * later
    requires a == Pot(opening / price, opening, opening, price)
             && p == Pot(opening / printed, opening, opening, printed)
    ensures Drifting(a, p, later, 1.0)
  {
    SameUnits(opening, price, printed, later);
  }

  lemma SameUnits(opening: real, price: real, printed: real, later: real)
    requires price > 0.0 && later > 0.0 && printed > 0.0 && printed == price * later
    ensures (opening / printed) * later == opening / price
  {
    QuotientRescaled(opening, price, later);
  }

  /** The one fact a replay publishes of a day, whichever share it counts in. */
  predicate SameFigures(a: Snapshot, p: Snapshot, later: real) {
    && a.day == p.day && a.value == p.value && a.contributed == p.contributed && a.costBasis == p.costBasis
    && p.units * later == a.units
  }

  lemma OnSameFigures(a: Pot, p: Pot, later: real, drift: real, day: int)
    requires later > 0.0 && Drifting(a, p, later, drift) && (drift == 1.0 || a.units == 0.0)
    ensures SameFigures(a.On(day), p.On(day), later)
  {
    if drift == 1.0 {
      SameValue(a, p.(price := a.price * later), later);
    } else {
      NothingHeld(p.units, later);
    }
  }

  /** After a harmless day, what is left is counted alike. */
  lemma HarmlessClose(m: Market, c: Course, day: int)
    requires PositiveRatios(m) && c.Valid() && c.seeded <= day && c.PotOn(day).Some? && HarmlessUpTo(m, c, day)
    ensures Drift(m, c.seeded, day) == 1.0 || c.PotOn(day).value.units == 0.0
  {
    hide TurnOf;
    assert c.seeded < day ==> Harmless(m, c, day);
  }

  lemma SnapshotsSame(m: Market, until: int, flows: map<int, real>, seeded: int, opening: real, day: int, last: int)
    requires PositiveRatios(m) && seeded <= day <= last <= until
    requires AdjustedCourse(m, flows, seeded, opening).Valid() && TradedCourse(m, until, flows, seeded, opening).Valid()
    requires HarmlessUpTo(m, AdjustedCourse(m, flows, seeded, opening), last)
    requires AdjustedCourse(m, flows, seeded, opening).PotOn(last).Some?
    requires TradedCourse(m, until, flows, seeded, opening).PotOn(last).Some?
    ensures SameFigures(AdjustedCourse(m, flows, seeded, opening).Snapshots(last)[day - seeded],
                        TradedCourse(m, until, flows, seeded, opening).Snapshots(last)[day - seeded],
                        LaterRatios(m.splits, day, until))
  {
    hide Harmless, Drifting, LaterRatios, Drift, TurnOf;
    var a, p := AdjustedCourse(m, flows, seeded, opening), TradedCourse(m, until, flows, seeded, opening);
    SnapshotAt(a, day, last);
    SnapshotAt(p, day, last);
    PotsSameMoney(m, until, flows, seeded, opening, day);
    HarmlessClose(m, a, day);
    OnSameFigures(a.PotOn(day).value, p.PotOn(day).value, LaterRatios(m.splits, day, until), Drift(m, seeded, day),
                  day);
  }

  lemma {:induction false} StopSame(m: Market, until: int, flows: map<int, real>, seeded: int, opening: real,
                                    from: int, last: int)
    requires PositiveRatios(m) && seeded < from <= last + 1 && last <= until
    requires AdjustedCourse(m, flows, seeded, opening).Valid() && TradedCourse(m, until, flows, seeded, opening).Valid()
    requires HarmlessUpTo(m, AdjustedCourse(m, flows, seeded, opening), last)
    requires AdjustedCourse(m, flows, seeded, opening).PotOn(from - 1).Some?
    requires TradedCourse(m, until, flows, seeded, opening).PotOn(from - 1).Some?
    ensures AdjustedCourse(m, flows, seeded, opening).StopDay(from, last)
         == TradedCourse(m, until, flows, seeded, opening).StopDay(from, last)
    decreases last + 1 - from
  {
    hide Harmless, Drifting, LaterRatios, Drift, TurnOf;
    if from <= last {
      PotsSameMoney(m, until, flows, seeded, opening, from);
      if AdjustedCourse(m, flows, seeded, opening).PotOn(from).Some? {
        StopSame(m, until, flows, seeded, opening, from + 1, last);
      }
    }
  }

  lemma {:induction false} SearchSame(m: Market, until: int, day: int, last: int)
    ensures SeedSearch(Adjusted(m), day, last) == SeedSearch(AsTraded(m, until), day, last)
    decreases last - day + 1
  {
    if day <= last {
      SearchSame(m, until, day + 1, last);
    }
  }

  lemma StoppingSame(m: Market, until: int, flows: map<int, real>, seeded: int, opening: real, stop: int, last: int)
    requires PositiveRatios(m) && seeded < stop <= last + 1 && last <= until
    requires AdjustedCourse(m, flows, seeded, opening).Valid() && TradedCourse(m, until, flows, seeded, opening).Valid()
    requires HarmlessUpTo(m, AdjustedCourse(m, flows, seeded, opening), last)
    requires AdjustedCourse(m, flows, seeded, opening).PotOn(stop - 1).Some?
    requires TradedCourse(m, until, flows, seeded, opening).PotOn(stop - 1).Some?
    requires stop <= last ==> AdjustedCourse(m, flows, seeded, opening).PotOn(stop).None?
    requires stop <= last ==> TradedCourse(m, until, flows, seeded, opening).PotOn(stop).None?
    ensures SameReplay(AdjustedCourse(m, flows, seeded, opening).Stopping(stop, last),
                       TradedCourse(m, until, flows, seeded, opening).Stopping(stop, last), m, until)
  {
    hide SameFigures, SameMoney, LaterRatios, TurnOf, Harmless, Drift;
    var a, p := AdjustedCourse(m, flows, seeded, opening), TradedCourse(m, until, flows, seeded, opening);
    var covered, covered' := a.Snapshots(stop - 1), p.Snapshots(stop - 1);
    forall k | 0 <= k < stop - seeded
      ensures SameFigures(covered[k], covered'[k], LaterRatios(m.splits, seeded + k, until))
    {
      SnapshotsSame(m, until, flows, seeded, opening, seeded + k, stop - 1);
    }
    if stop <= last {
      LastTurnSame(m, until, flows, seeded, opening, stop);
    }
  }

  lemma LastTurnSame(m: Market, until: int, flows: map<int, real>, seeded: int, opening: real, stop: int)
    requires PositiveRatios(m) && seeded < stop <= until
    requires AdjustedCourse(m, flows, seeded, opening).Valid() && TradedCourse(m, until, flows, seeded, opening).Valid()
    requires HarmlessUpTo(m, AdjustedCourse(m, flows, seeded, opening), stop)
    requires AdjustedCourse(m, flows, seeded, opening).PotOn(stop - 1).Some?
    requires TradedCourse(m, until, flows, seeded, opening).PotOn(stop - 1).Some?
    requires AdjustedCourse(m, flows, seeded, opening).PotOn(stop).None?
    ensures var a, p := AdjustedCourse(m, flows, seeded, opening), TradedCourse(m, until, flows, seeded, opening);
            var t := TurnOf(a.market, AmountOn(flows, stop), stop, a.PotOn(stop - 1).value);
            var t' := TurnOf(p.market, AmountOn(flows, stop), stop, p.PotOn(stop - 1).value);
            (t.NoRate? && t'.NoRate?)
            || (&& t.Unfunded? && t'.Unfunded?
                && SameFigures(t.pot.On(stop), t'.pot.On(stop), LaterRatios(m.splits, stop, until)))
  {
    hide Drifting, LaterRatios, TurnOf, Drift;
    var a, p := AdjustedCourse(m, flows, seeded, opening), TradedCourse(m, until, flows, seeded, opening);
    PotsSameMoney(m, until, flows, seeded, opening, stop - 1);
    var before, before' := a.PotOn(stop - 1).value, p.PotOn(stop - 1).value;
    assert Harmless(m, a, stop);
    TurnSameMoney(m, until, seeded, stop, before, before', AmountOn(flows, stop));
    var t, t' := TurnOf(a.market, AmountOn(flows, stop), stop, before),
                 TurnOf(p.market, AmountOn(flows, stop), stop, before');
    if t.Unfunded? {
      OnSameFigures(t.pot, t'.pot, LaterRatios(m.splits, stop, until), Drift(m, seeded, stop), stop);
    }
  }

  lemma ThroughSame(m: Market, until: int, flows: map<int, real>, seeded: int, opening: real, last: int)
    requires PositiveRatios(m) && seeded <= last <= until
    requires AdjustedCourse(m, flows, seeded, opening).Valid() && TradedCourse(m, until, flows, seeded, opening).Valid()
    requires HarmlessUpTo(m, AdjustedCourse(m, flows, seeded, opening), last)
    ensures SameReplay(AdjustedCourse(m, flows, seeded, opening).Through(last),
                       TradedCourse(m, until, flows, seeded, opening).Through(last), m, until)
  {
    hide SameReplay, LaterRatios, TurnOf, Course.Stopping, HarmlessUpTo;
    StopSame(m, until, flows, seeded, opening, seeded + 1, last);
    StoppingSame(m, until, flows, seeded, opening,
                 AdjustedCourse(m, flows, seeded, opening).StopDay(seeded + 1, last), last);
  }

  /** The two readings of one replay: same period, same ending, and the same figures every day. */
  predicate SameReplay(a: Replay, p: Replay, m: Market, until: int) {
    && a.firstDay == p.firstDay && a.lastDay == p.lastDay && a.ended == p.ended && |a.series| == |p.series|
    && (a.series != [] ==> a.firstDay.Some?)
    && forall k :: 0 <= k < |a.series| ==>
         SameFigures(a.series[k], p.series[k], LaterRatios(m.splits, a.firstDay.value + k, until))
  }

  lemma {:induction false} SearchIgnoresSplits(m: Market, day: int, last: int)
    ensures SeedSearch(Adjusted(m), day, last) == SeedSearch(m, day, last)
    decreases last - day + 1
  {
    if day <= last {
      SearchIgnoresSplits(m, day + 1, last);
    }
  }

  // ---- A day that tells the readings apart ----

  /** What a day's turn leaves standing: the holding it passes on, or the one its withdrawal exhausts. */
  function StandingValue(t: Turn): real
    requires !t.NoRate?
  {
    t.pot.units * t.pot.price
  }

  /** The two readings of a day agree: both go through or neither does, and the evening is worth the same. */
  predicate SameDay(t: Turn, t': Turn) {
    (t.NoRate? && t'.NoRate?) || (t.Next? && t'.Next? && StandingValue(t) == StandingValue(t'))
    || (t.Unfunded? && t'.Unfunded? && StandingValue(t) == StandingValue(t'))
  }

  /** A funded flow moves the value of the holding by itself; an unfunded one leaves it. */
  lemma TradedValue(held: Pot, flow: real)
    requires held.price > 0.0
    ensures !Traded(held, flow).NoRate?
    ensures Traded(held, flow).Unfunded? <==> flow < 0.0 && -flow > held.units * held.price
    ensures StandingValue(Traded(held, flow))
         == held.units * held.price + if Traded(held, flow).Next? then flow else 0.0
  {
    if flow > 0.0 {
      DivideThenMultiply(flow, held.price);
      assert (held.units + flow / held.price) * held.price
          == held.units * held.price + (flow / held.price) * held.price;
    } else if flow < 0.0 && -flow <= held.units * held.price {
      DivideThenMultiply(-flow, held.price);
      assert (held.units - (-flow) / held.price) * held.price
          == held.units * held.price - ((-flow) / held.price) * held.price;
    }
  }

  /** Two turns of one flow over holdings whose worths, before it, are apart by a ratio. */
  predicate PartedBy(t: Turn, t': Turn, flow: real, ratio: real, held: Pot) {
    var worth := held.units * held.price;
    && !t.NoRate? && !t'.NoRate?
    && (t.Unfunded? <==> flow < 0.0 && -flow > worth)
    && (t'.Unfunded? <==> flow < 0.0 && -flow > ratio * worth)
    && (t.Next? && t'.Next? ==> StandingValue(t') - StandingValue(t) == (ratio - 1.0) * worth)
    && (t.Unfunded? && t'.Unfunded? ==> StandingValue(t') == ratio * StandingValue(t))
    && (SameDay(t, t') <==> ratio == 1.0 || held.units == 0.0)
  }

  /** Two worths apart by a ratio, moved by one flow. */
  lemma PartedByWorth(t: Turn, t': Turn, flow: real, ratio: real, held: Pot, worth: real, scaled: real)
    requires !t.NoRate? && !t'.NoRate? && held.price > 0.0
    requires worth == held.units * held.price && scaled == ratio * worth
    requires (t.Unfunded? <==> flow < 0.0 && -flow > worth) && (t'.Unfunded? <==> flow < 0.0 && -flow > scaled)
    requires StandingValue(t) == worth + if t.Next? then flow else 0.0
    requires StandingValue(t') == scaled + if t'.Next? then flow else 0.0
    ensures PartedBy(t, t', flow, ratio, held)
  {
    hide StandingValue;
    RatioApart(ratio, held.units, held.price, worth, scaled);
    assert SameDay(t, t') <==> scaled == worth;
  }

  lemma RatioApart(ratio: real, units: real, price: real, worth: real, scaled: real)
    requires price > 0.0 && worth == units * price && scaled == ratio * worth
    ensures scaled - worth == (ratio - 1.0) * worth
    ensures scaled == worth <==> ratio == 1.0 || units == 0.0
  {
    if units != 0.0 && ratio != 1.0 {
      NonZeroProduct(units, price);
      NonZeroProduct(ratio - 1.0, worth);
    }
  }

  /** Under a drift, the printed reading's holding is worth that many times the other's. */
  lemma DriftedWorth(a: Pot, p: Pot, later: real, drift: real)
    requires Drifting(a, p, later, drift)
    ensures p.units * p.price == drift * (a.units * a.price)
  {
    assert p.units * (a.price * later) == (p.units * later) * a.price;
    assert p.units * ((a.price * later) * drift) == drift * (p.units * (a.price * later));
  }

  /**
   * A day since whose last close splits were met: that close stands in an old share, and the printed reading holds the
   * product of those ratios times the worth of the other before the flow of the day. Whatever that flow, each reading
   * is exhausted by it on its own worth; when neither is, the evenings differ by that product less one times the worth;
   * when both are, by the product. The two agree on the day if and only if the product is one or nothing is held.
   */
  lemma UnquotedSplitIsOff(m: Market, until: int, flows: map<int, real>, seeded: int, opening: real, day: int)
    requires PositiveRatios(m) && seeded < day <= until && !Unpriced(m, day)
    requires AdjustedCourse(m, flows, seeded, opening).Valid() && TradedCourse(m, until, flows, seeded, opening).Valid()
    requires HarmlessUpTo(m, AdjustedCourse(m, flows, seeded, opening), day - 1)
    requires AdjustedCourse(m, flows, seeded, opening).PotOn(day - 1).Some?
    ensures TradedCourse(m, until, flows, seeded, opening).PotOn(day - 1).Some?
    ensures var flow := AmountOn(flows, day);
            var a, p := AdjustedCourse(m, flows, seeded, opening).PotOn(day - 1).value,
                        TradedCourse(m, until, flows, seeded, opening).PotOn(day - 1).value;
            var t, t' := TurnOf(Adjusted(m), flow, day, a), TurnOf(AsTraded(m, until), flow, day, p);
            PartedBy(t, t', flow, Drift(m, seeded, day), Marked(Adjusted(m), day, a))
  {
    hide TurnOf, LaterRatios, Drifting, Harmless, Drift, PartedBy;
    PotsSameMoney(m, until, flows, seeded, opening, day - 1);
    var a, p := AdjustedCourse(m, flows, seeded, opening).PotOn(day - 1).value,
                TradedCourse(m, until, flows, seeded, opening).PotOn(day - 1).value;
    DriftedTurn(m, until, seeded, day, a, p, AmountOn(flows, day));
  }

  lemma DriftedTurn(m: Market, until: int, seeded: int, day: int, a: Pot, p: Pot, flow: real)
    requires PositiveRatios(m) && seeded < day <= until && !Unpriced(m, day) && a.price > 0.0 && p.price > 0.0
    requires Drifting(a, p, LaterRatios(m.splits, day - 1, until), Drift(m, seeded, day - 1))
    ensures PartedBy(TurnOf(Adjusted(m), flow, day, a), TurnOf(AsTraded(m, until), flow, day, p), flow,
                     Drift(m, seeded, day), Marked(Adjusted(m), day, a))
    ensures Drifting(Marked(Adjusted(m), day, a), Marked(AsTraded(m, until), day, p),
                     LaterRatios(m.splits, day, until), Drift(m, seeded, day))
  {
    hide LaterRatios, Traded, Marked, StandingValue, Drifting, Drift, PartedBy;
    var later, drift := LaterRatios(m.splits, day, until), Drift(m, seeded, day);
    var held, held' := Marked(Adjusted(m), day, a), Marked(AsTraded(m, until), day, p);
    SameRate(m, until, day);
    MarkedDrifting(m, until, seeded, day, a, p);
    MarkedPrice(Adjusted(m), day, a);
    MarkedPrice(AsTraded(m, until), day, p);
    DriftedWorth(held, held', later, drift);
    TradedValue(held, flow);
    TradedValue(held', flow);
    PartedByWorth(Traded(held, flow), Traded(held', flow), flow, drift, held, held.units * held.price,
                  held'.units * held'.price);
  }

  lemma NonZeroProduct(a: real, b: real)
    requires a != 0.0 && b != 0.0
    ensures a * b != 0.0
  {
  }

  // ---- Exactly when re-denomination keeps the meaning ----

  lemma StopsAt(c: Course, day: int, last: int)
    requires c.Valid() && c.seeded < day <= last && c.PotOn(day - 1).Some?
    ensures c.PotOn(c.seeded).Some?
    ensures c.PotOn(day).None? ==> c.StopDay(c.seeded + 1, last) == day
    ensures c.PotOn(day).Some? ==> c.StopDay(c.seeded + 1, last) > day
  {
    hide TurnOf;
    var stop := c.StopDay(c.seeded + 1, last);
    if stop < day {
      PotBefore(c, stop, day - 1);
      assert false;
    }
    if c.PotOn(day).None? && stop > day {
      PotBefore(c, day, stop - 1);
      assert false;
    }
  }

  /** A replay that goes through a day shows it, and is not exhausted on it. */
  lemma GoesThrough(c: Course, day: int, last: int)
    requires c.Valid() && c.seeded < day <= last && c.PotOn(day - 1).Some? && c.PotOn(day).Some?
    ensures var r := c.Through(last);
            && |r.series| > day - c.seeded && r.series[day - c.seeded] == c.PotOn(day).value.On(day)
            && !(r.ended == Some(Exhausted) && r.lastDay == Some(day))
  {
    hide TurnOf;
    StopsAt(c, day, last);
    var stop := c.StopDay(c.seeded + 1, last);
    SnapshotAt(c, day, stop - 1);
  }

  /** A replay a withdrawal exhausts shows the day and ends on it. */
  lemma EndsExhausted(c: Course, day: int, last: int)
    requires c.Valid() && c.seeded < day <= last && c.PotOn(day - 1).Some?
    requires TurnOf(c.market, AmountOn(c.flows, day), day, c.PotOn(day - 1).value).Unfunded?
    ensures var r := c.Through(last);
            && r.ended == Some(Exhausted) && r.lastDay == Some(day) && |r.series| == day - c.seeded + 1
            && var turn := TurnOf(c.market, AmountOn(c.flows, day), day, c.PotOn(day - 1).value);
               r.series[day - c.seeded] == turn.pot.On(day)
  {
    hide TurnOf;
    StopsAt(c, day, last);
  }

  /**
   * What a replay shows of a day, by the turn of it: the holding left standing, and whether it ends exhausted there.
   */
  predicate Shows(r: Replay, t: Turn, k: nat, day: int) {
    && !t.NoRate? && k < |r.series| && r.series[k].value == StandingValue(t) && r.series[k].units == t.pot.units
    && (t.Unfunded? <==> r.ended == Some(Exhausted) && r.lastDay == Some(day))
  }

  lemma ShownOn(c: Course, day: int, last: int)
    requires c.Valid() && c.seeded < day <= last && c.PotOn(day - 1).Some?
    requires !TurnOf(c.market, AmountOn(c.flows, day), day, c.PotOn(day - 1).value).NoRate?
    ensures Shows(c.Through(last), TurnOf(c.market, AmountOn(c.flows, day), day, c.PotOn(day - 1).value),
                  day - c.seeded, day)
  {
    hide TurnOf, Course.Through;
    var t := TurnOf(c.market, AmountOn(c.flows, day), day, c.PotOn(day - 1).value);
    if t.Unfunded? {
      EndsExhausted(c, day, last);
    } else {
      GoesThrough(c, day, last);
    }
  }

  lemma DifferentDays(a: Course, p: Course, t: Turn, t': Turn, day: int, last: int, m: Market, until: int)
    requires a.Valid() && p.Valid() && a.seeded == p.seeded < day <= last
    requires Shows(a.Through(last), t, day - a.seeded, day) && Shows(p.Through(last), t', day - a.seeded, day)
    requires a.Through(last).firstDay == Some(a.seeded)
    requires !SameDay(t, t') || t'.pot.units * LaterRatios(m.splits, day, until) != t.pot.units
    ensures !SameReplay(a.Through(last), p.Through(last), m, until)
  {
    hide Course.Through, StandingValue, LaterRatios;
  }

  /** Bought at a drifted price, the units are not the same holding. */
  lemma BoughtAdrift(held: Pot, held': Pot, later: real, drift: real, flow: real)
    requires later > 0.0 && drift > 0.0 && drift != 1.0 && held.price > 0.0 && held'.price > 0.0
    requires Drifting(held, held', later, drift) && held.units == 0.0 && flow > 0.0
    ensures Traded(held', flow).pot.units * later != Traded(held, flow).pot.units
  {
    NothingHeld(held'.units, later);
    var bought, bought' := flow / held.price, flow / held'.price;
    BoughtIsHeld(flow, held.price);
    DivideThenMultiply(flow, held.price);
    DivideThenMultiply(flow, held'.price);
    if bought' * later == bought {
      SameBought(bought, bought', held.price, held'.price, later, drift, flow);
      NonZeroProduct(flow, drift - 1.0);
      assert false;
    }
  }

  lemma SameBought(b: real, b': real, price: real, price': real, later: real, drift: real, flow: real)
    requires b * price == flow && b' * price' == flow && price' == (price * later) * drift && b' * later == b
    ensures flow * (drift - 1.0) == 0.0
  {
    Shuffle(b', price, later, drift);
    assert flow == flow * drift;
  }

  lemma Shuffle(b: real, price: real, later: real, drift: real)
    ensures b * ((price * later) * drift) == ((b * later) * price) * drift
  {
    assert b * (price * later) == (b * later) * price;
    assert b * ((price * later) * drift) == (b * (price * later)) * drift;
  }

  /** A harmful day tells the two replays apart, the days before it being harmless. */
  lemma HarmIsSeen(m: Market, until: int, flows: map<int, real>, seeded: int, opening: real, last: int, day: int)
    requires PositiveRatios(m) && seeded < day <= last <= until
    requires AdjustedCourse(m, flows, seeded, opening).Valid() && TradedCourse(m, until, flows, seeded, opening).Valid()
    requires HarmlessUpTo(m, AdjustedCourse(m, flows, seeded, opening), day - 1)
    requires AdjustedCourse(m, flows, seeded, opening).PotOn(day - 1).Some?
    requires !Harmless(m, AdjustedCourse(m, flows, seeded, opening), day)
    ensures !SameReplay(AdjustedCourse(m, flows, seeded, opening).Through(last),
                        TradedCourse(m, until, flows, seeded, opening).Through(last), m, until)
  {
    hide LaterRatios, Course.Through, HarmlessUpTo, Drift, Drifting, Traded, Marked, PartedBy;
    var a, p := AdjustedCourse(m, flows, seeded, opening), TradedCourse(m, until, flows, seeded, opening);
    SameRate(m, until, day);
    PotsSameMoney(m, until, flows, seeded, opening, day - 1);
    var eve, eve' := a.PotOn(day - 1).value, p.PotOn(day - 1).value;
    var t, t' := TurnOf(a.market, AmountOn(flows, day), day, eve), TurnOf(p.market, AmountOn(flows, day), day, eve');
    HarmOfTurn(m, until, seeded, day, eve, eve', AmountOn(flows, day));
    ShownOn(a, day, last);
    ShownOn(p, day, last);
    OpensOn(a, last);
    DifferentDays(a, p, t, t', day, last, m, until);
  }

  lemma OpensOn(c: Course, last: int)
    requires c.Valid() && c.seeded <= last
    ensures c.Through(last).firstDay == Some(c.seeded)
  {
    hide TurnOf;
  }

  lemma HarmOfTurn(m: Market, until: int, seeded: int, day: int, a: Pot, p: Pot, flow: real)
    requires PositiveRatios(m) && seeded < day <= until && !Unpriced(m, day) && a.price > 0.0 && p.price > 0.0
    requires Drifting(a, p, LaterRatios(m.splits, day - 1, until), Drift(m, seeded, day - 1))
    requires Drift(m, seeded, day) != 1.0
    requires a.units != 0.0 || TurnOf(Adjusted(m), flow, day, a).pot.units != 0.0
    ensures var t, t' := TurnOf(Adjusted(m), flow, day, a), TurnOf(AsTraded(m, until), flow, day, p);
            && !t.NoRate? && !t'.NoRate?
            && (!SameDay(t, t') || t'.pot.units * LaterRatios(m.splits, day, until) != t.pot.units)
  {
    hide LaterRatios, Drift, Drifting, Marked, StandingValue;
    var held, held' := Marked(Adjusted(m), day, a), Marked(AsTraded(m, until), day, p);
    SameRate(m, until, day);
    DriftedTurn(m, until, seeded, day, a, p, flow);
    MarkedPrice(Adjusted(m), day, a);
    MarkedPrice(AsTraded(m, until), day, p);
    if a.units == 0.0 {
      BoughtAdrift(held, held', LaterRatios(m.splits, day, until), Drift(m, seeded, day), flow);
    }
  }

  /** A covered day past the seed that the readings tell apart: a drift, with something held before it or after. */
  predicate Harmed(a: Replay, m: Market, day: int)
    requires PositiveRatios(m)
  {
    && a.firstDay.Some? && a.lastDay.Some? && a.firstDay.value < day <= a.lastDay.value
    && Drift(m, a.firstDay.value, day) != 1.0
    && var k := day - a.firstDay.value;
       k < |a.series| && (a.series[k - 1].units != 0.0 || a.series[k].units != 0.0)
  }

  /** The harmed days of a replay are the harmful days of its course. */
  lemma HarmedIffHarmful(m: Market, flows: map<int, real>, seeded: int, opening: real, last: int, day: int)
    requires PositiveRatios(m) && seeded <= last && AdjustedCourse(m, flows, seeded, opening).Valid()
    ensures var c := AdjustedCourse(m, flows, seeded, opening);
            Harmed(c.Through(last), m, day) <==> seeded < day <= last && c.PotOn(day - 1).Some? && !Harmless(m, c, day)
  {
    hide Drift, Course.Through, Traded, Marked;
    var c := AdjustedCourse(m, flows, seeded, opening);
    var r := c.Through(last);
    OpensOn(c, last);
    if seeded < day <= last && c.PotOn(day - 1).Some? {
      var t := TurnOf(c.market, AmountOn(flows, day), day, c.PotOn(day - 1).value);
      if t.NoRate? {
        StopsShort(c, day, last);
      } else {
        ShownOn(c, day, last);
        CoversDay(c, day, last);
      }
    } else if seeded < day {
      EndsBefore(c, day, last);
    }
  }

  /** The last day of a replay, and the evenings it shows. */
  lemma LastDayOf(c: Course, last: int)
    requires c.Valid() && c.seeded <= last
    ensures var stop, r := c.StopDay(c.seeded + 1, last), c.Through(last);
            && r.lastDay.Some? && c.Snapshots(stop - 1) <= r.series
            && (if stop > last then r.lastDay == Some(last)
                else if TurnOf(c.market, AmountOn(c.flows, stop), stop, c.PotOn(stop - 1).value).NoRate?
                then r.lastDay == Some(stop - 1) && r.series == c.Snapshots(stop - 1)
                else r.lastDay == Some(stop) && |r.series| == stop - c.seeded + 1)
  {
    hide TurnOf;
  }

  /** A replay covers the day of a turn it takes, and shows the evening before. */
  lemma CoversDay(c: Course, day: int, last: int)
    requires c.Valid() && c.seeded < day <= last && c.PotOn(day - 1).Some?
    requires !TurnOf(c.market, AmountOn(c.flows, day), day, c.PotOn(day - 1).value).NoRate?
    ensures var r := c.Through(last);
            && r.lastDay.Some? && day <= r.lastDay.value
            && |r.series| > day - c.seeded && r.series[day - 1 - c.seeded] == c.PotOn(day - 1).value.On(day - 1)
  {
    hide TurnOf, Course.Through, Course.Snapshots, Course.PotOn, Course.StopDay;
    StopsAt(c, day, last);
    LastDayOf(c, last);
    SnapshotAt(c, day - 1, c.StopDay(c.seeded + 1, last) - 1);
  }

  lemma StopsShort(c: Course, day: int, last: int)
    requires c.Valid() && c.seeded < day <= last && c.PotOn(day - 1).Some?
    requires TurnOf(c.market, AmountOn(c.flows, day), day, c.PotOn(day - 1).value).NoRate?
    ensures c.Through(last).lastDay == Some(day - 1)
  {
    hide TurnOf, Course.Through, Course.Valid;
    assert c.PotOn(day).None?;
    StopsAt(c, day, last);
    assert c.StopDay(c.seeded + 1, last) == day;
    hide Course.PotOn, Course.StopDay;
    LastDayOf(c, last);
  }

  lemma EndsBefore(c: Course, day: int, last: int)
    requires c.Valid() && c.seeded <= last && c.seeded < day && (day > last || c.PotOn(day - 1).None?)
    ensures var r := c.Through(last); r.lastDay.Some? && r.lastDay.value < day
  {
    hide TurnOf, Course.Through;
    LastDayOf(c, last);
    var stop := c.StopDay(c.seeded + 1, last);
    if stop >= day && day <= last {
      PotBefore(c, day - 1, stop - 1);
    }
  }

  lemma {:induction false} FirstHarmed(a: Replay, m: Market, day: int) returns (least: int)
    requires PositiveRatios(m) && Harmed(a, m, day)
    ensures Harmed(a, m, least) && forall d :: d < least ==> !Harmed(a, m, d)
    decreases day - a.firstDay.value
  {
    if earlier :| earlier < day && Harmed(a, m, earlier) {
      least := FirstHarmed(a, m, earlier);
    } else {
      least := day;
    }
  }

  /**
   * Re-denomination, exactly: the closes put back in the share of their day, met with the splits, tell the same story
   * as the adjusted closes met with none, unit for unit of today's share, if and only if no covered day finds the
   * splits met since the last close at a product other than one while something is held before it or after.
   */
  lemma RedenominationKeepsMeaningIff(first: int, last: int, m: Market, flows: map<int, real>, seed: real, until: int)
    requires PositiveRatios(m) && last <= until
    ensures var a := ReplayOf(first, last, Adjusted(m), flows, seed);
            var p := ReplayOf(first, last, AsTraded(m, until), flows, seed);
            SameReplay(a, p, m, until) <==> forall d :: !Harmed(a, m, d)
  {
    hide SameReplay, LaterRatios, Course.Through, Harmed;
    var a := ReplayOf(first, last, Adjusted(m), flows, seed);
    SearchSame(m, until, first, last);
    SearchIgnoresSplits(m, first, last);
    match SeedSearch(m, first, last)
    case Quoted(seeded) =>
      PrintedIsPositive(m, until, seeded);
      var opening := seed + SumSpan(flows, first + 1, seeded);
      if AdjustedCourse(m, flows, seeded, opening).Valid() {
        assert a == AdjustedCourse(m, flows, seeded, opening).Through(last);
        CourseKeepsMeaningIff(m, until, flows, seeded, opening, last);
      } else {
        ClosedReplay(a, m, until);
      }
    case _ => ClosedReplay(a, m, until);
  }

  /** A replay that never opened harms nothing. */
  lemma ClosedReplay(a: Replay, m: Market, until: int)
    requires PositiveRatios(m) && a.series == []
    ensures SameReplay(a, a, m, until) && forall d :: !Harmed(a, m, d)
  {
  }

  lemma CourseKeepsMeaningIff(m: Market, until: int, flows: map<int, real>, seeded: int, opening: real, last: int)
    requires PositiveRatios(m) && seeded <= last <= until
    requires AdjustedCourse(m, flows, seeded, opening).Valid() && TradedCourse(m, until, flows, seeded, opening).Valid()
    ensures var a := AdjustedCourse(m, flows, seeded, opening).Through(last);
            SameReplay(a, TradedCourse(m, until, flows, seeded, opening).Through(last), m, until)
            <==> forall d :: !Harmed(a, m, d)
  {
    hide SameReplay, LaterRatios, Course.Through, Harmed, Harmless;
    var c := AdjustedCourse(m, flows, seeded, opening);
    var a := c.Through(last);
    forall d ensures Harmed(a, m, d) <==> seeded < d <= last && c.PotOn(d - 1).Some? && !Harmless(m, c, d) {
      HarmedIffHarmful(m, flows, seeded, opening, last, d);
    }
    if d :| Harmed(a, m, d) {
      var day := FirstHarmed(a, m, d);
      HarmIsSeen(m, until, flows, seeded, opening, last, day);
    } else {
      ThroughSame(m, until, flows, seeded, opening, last);
    }
  }

  /** One close, then a split on a day nobody quotes: the printed reading ends the day at twice the money. */
  lemma UnquotedSplitExample()
    ensures var m := Market(map[0 := 1.0], map[1 := 2.0], {});
            var a, p := ReplayOf(0, 1, Adjusted(m), map[], 1.0), ReplayOf(0, 1, AsTraded(m, 1), map[], 1.0);
            && |a.series| == 2 && a.series[1].value == 1.0
            && |p.series| == 2 && p.series[1].value == 2.0
            && Harmed(a, m, 1) && !SameReplay(a, p, m, 1)
  {
    var m := Market(map[0 := 1.0], map[1 := 2.0], {});
    var c, d := AdjustedCourse(m, map[], 0, 1.0), TradedCourse(m, 1, map[], 0, 1.0);
    PrintedIsPositive(m, 1, 0);
    assert c.PotOn(1) == Some(Pot(1.0, 1.0, 1.0, 1.0));
    assert d.PotOn(0) == Some(Pot(0.5, 1.0, 1.0, 2.0));
    assert d.PotOn(1) == Some(Pot(1.0, 1.0, 1.0, 2.0));
    assert c.Snapshots(1) == [c.Opened().On(0), c.PotOn(1).value.On(1)];
    assert d.Snapshots(1) == [d.Opened().On(0), d.PotOn(1).value.On(1)];
    assert ReplayOf(0, 1, Adjusted(m), map[], 1.0) == c.Through(1);
    assert ReplayOf(0, 1, AsTraded(m, 1), map[], 1.0) == d.Through(1);
    assert Drift(m, 0, 1) == 2.0;
  }

  /** In particular when every split the replay covers past its seed falls on a quoted day, or changes nothing. */
  lemma RedenominationKeepsMeaning(first: int, last: int, m: Market, flows: map<int, real>, seed: real, until: int)
    requires PositiveRatios(m) && last <= until
    requires var a := ReplayOf(first, last, Adjusted(m), flows, seed);
             a.firstDay.Some? && a.lastDay.Some? ==>
               forall d :: d in m.splits && a.firstDay.value < d <= a.lastDay.value ==>
                 d in m.prices || m.splits[d] == 1.0
    ensures SameReplay(ReplayOf(first, last, Adjusted(m), flows, seed),
                       ReplayOf(first, last, AsTraded(m, until), flows, seed), m, until)
  {
    hide SameReplay, Course.Through, ReplayOf;
    var a := ReplayOf(first, last, Adjusted(m), flows, seed);
    forall d ensures !Harmed(a, m, d) {
      if a.firstDay.Some? && a.lastDay.Some? && a.firstDay.value < d <= a.lastDay.value {
        NoDrift(m, a.firstDay.value, d);
      }
    }
    RedenominationKeepsMeaningIff(first, last, m, flows, seed, until);
  }

  lemma {:induction false} NoDrift(m: Market, seeded: int, day: int)
    requires PositiveRatios(m) && forall d :: d in m.splits && seeded < d <= day ==> d in m.prices || m.splits[d] == 1.0
    ensures Drift(m, seeded, day) == 1.0
    decreases day - seeded
  {
    if seeded < day {
      NoDrift(m, seeded, day - 1);
    }
  }

  /** The last priced point of a day, in a series. */
  predicate IsClose(points: seq<Point>, i: int, day: int) {
    && 0 <= i < |points| && points[i].Day() == day && points[i].price.Some?
    && forall j :: i < j < |points| && points[j].Day() == day ==> points[j].price.None?
  }

  /** A day closes on its last priced point, and has no close without one. */
  lemma {:induction false} ClosesTell(points: seq<Point>, day: int)
    ensures day in Closes(points) ==>
              exists i :: IsClose(points, i, day) && points[i].price == Some(Closes(points)[day])
    ensures day !in Closes(points) ==> forall i :: 0 <= i < |points| && points[i].Day() == day ==> points[i].price.None?
  {
    if points != [] {
      var n := |points| - 1;
      ClosesTell(points[..n], day);
      if points[n].price.Some? && points[n].Day() == day {
        assert IsClose(points, n, day);
      } else if i :| IsClose(points[..n], i, day) && points[..n][i].price == Some(Closes(points[..n])[day]) {
        assert forall j :: 0 <= j < n ==> points[j] == points[..n][j];
        assert IsClose(points, i, day);
      } else {
        assert forall j :: 0 <= j < n ==> points[j] == points[..n][j];
      }
    }
  }
}
