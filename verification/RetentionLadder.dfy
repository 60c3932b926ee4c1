/** What ageing the series onto the ladder keeps: the daily read, and one outcome whatever ran before. */
module RetentionLadder {
  import opened Basics
  import opened Retention
  import opened PriceStore

  /** Two points share a place on the ladder: the same hour of the hourly band, or the same day of the daily one. */
  predicate SamePlace(p: Point, q: Point, now: int) {
    && p.symbol == q.symbol && RungAt(now - p.ts) == RungAt(now - q.ts)
    && match RungAt(now - p.ts)
       case Raw => false
       case Hour => HourOf(p.ts) == HourOf(q.ts)
       case Day => DayOf(p.ts) == DayOf(q.ts)
  }

  /** The walls cut the series exactly where a point's age changes rung. */
  lemma BandsAreRungs(p: Point, now: int)
    ensures InHourBand(p, now) <==> RungAt(now - p.ts) == Hour
    ensures InDayBand(p, now) <==> RungAt(now - p.ts) == Day
  {
  }

  /** No better point shares its place. */
  ghost predicate Unrivalled(points: set<Point>, now: int, p: Point) {
    forall q :: q in points && SamePlace(p, q, now) ==> !Better(q, p)
  }

  /** A pass keeps a point exactly when it is unrivalled. */
  lemma KeptIffBest(points: set<Point>, now: int, p: Point)
    ensures p in Collapsed(points, now) <==> p in points && Unrivalled(points, now, p)
  {
    forall q ensures InHourBand(q, now) <==> RungAt(now - q.ts) == Hour
             ensures InDayBand(q, now) <==> RungAt(now - q.ts) == Day {
      BandsAreRungs(q, now);
    }
    forall q | q in points && InDayBand(q, now) ensures q in HourPass(points, now) {
    }
  }

  lemma CollapsedIsSubset(points: set<Point>, now: int)
    ensures Collapsed(points, now) <= points
  {
  }

  /** Ageing twice at one instant is ageing once. */
  lemma CollapseIsIdempotent(points: set<Point>, now: int)
    ensures Collapsed(Collapsed(points, now), now) == Collapsed(points, now)
  {
    var once := Collapsed(points, now);
    CollapsedIsSubset(points, now);
    forall p ensures p in Collapsed(once, now) <==> p in once {
      KeptIffBest(once, now, p);
      KeptIffBest(points, now, p);
    }
  }

  /** Whatever the rung, points that share a place share a UTC day. */
  lemma SamePlaceSameDay(p: Point, q: Point, now: int)
    requires SamePlace(p, q, now)
    ensures DayOf(p.ts) == DayOf(q.ts)
  {
    if RungAt(now - p.ts) == Hour {
      SameHourSameDay(p.ts, q.ts);
    }
  }

  // ---- The daily read ----

  ghost predicate DistinctInstants(points: set<Point>) {
    forall p, q :: p in points && q in points && p.symbol == q.symbol && p.ts == q.ts ==> p == q
  }

  /** The converted points a day's close is read from. */
  function Closable(points: set<Point>, symbol: string, day: int): set<Point> {
    set p | p in points && p.symbol == symbol && DayOf(p.ts) == day && p.converted.Some?
  }

  function ClosableDays(points: set<Point>, symbol: string): set<int> {
    set p | p in points && p.symbol == symbol && p.converted.Some? :: DayOf(p.ts)
  }

  ghost predicate IsLatest(p: Point, points: set<Point>) {
    p in points && forall q :: q in points ==> q.ts <= p.ts
  }

  lemma {:induction false} LatestExists(points: set<Point>) returns (latest: Point)
    requires points != {}
    ensures IsLatest(latest, points)
  {
    var p :| p in points;
    if points == {p} {
      latest := p;
    } else {
      var rest := LatestExists(points - {p});
      latest := if rest.ts >= p.ts then rest else p;
    }
  }

  /** The close of one day: the converted price of its latest converted point. */
  ghost function CloseOn(points: set<Point>, symbol: string, day: int): real
    requires Closable(points, symbol, day) != {}
  {
    assert exists p :: IsLatest(p, Closable(points, symbol, day)) by {
      var p := LatestExists(Closable(points, symbol, day));
    }
    var p :| IsLatest(p, Closable(points, symbol, day));
    p.converted.value
  }

  /** One close per day that has a converted price. */
  ghost function PriceSeries(points: set<Point>, symbol: string): map<int, real> {
    map day | day in ClosableDays(points, symbol) && Closable(points, symbol, day) != {} ::
      CloseOn(points, symbol, day)
  }

  /** The latest converted point of a day outlives any pass: nothing that shares its place is better. */
  lemma LatestSurvives(points: set<Point>, now: int, symbol: string, day: int, p: Point)
    requires DistinctInstants(points) && IsLatest(p, Closable(points, symbol, day))
    ensures p in Collapsed(points, now)
  {
    forall q | q in points && SamePlace(p, q, now) ensures !Better(q, p) {
      SamePlaceSameDay(p, q, now);
      if q.converted.Some? {
        assert q in Closable(points, symbol, day);
      }
    }
    KeptIffBest(points, now, p);
  }

  /** The ladder is lossless for the daily read: at any instant, of any symbol. */
  lemma DailyReadSurvives(points: set<Point>, now: int, symbol: string)
    requires DistinctInstants(points)
    ensures PriceSeries(Collapsed(points, now), symbol) == PriceSeries(points, symbol)
  {
    hide Collapsed, PriceSeries;
    var kept := Collapsed(points, now);
    var l, r := PriceSeries(kept, symbol), PriceSeries(points, symbol);
    forall day ensures day in l <==> day in r
               ensures day in r ==> l[day] == r[day]
    {
      CloseSurvives(points, now, symbol, day);
    }
  }

  lemma ClosableDay(points: set<Point>, symbol: string, day: int)
    ensures day in PriceSeries(points, symbol) <==> Closable(points, symbol, day) != {}
  {
    if Closable(points, symbol, day) != {} {
      var p := LatestExists(Closable(points, symbol, day));
      assert DayOf(p.ts) in ClosableDays(points, symbol);
    }
  }

  lemma CloseSurvives(points: set<Point>, now: int, symbol: string, day: int)
    requires DistinctInstants(points)
    ensures var kept := Collapsed(points, now);
            && (day in PriceSeries(kept, symbol) <==> day in PriceSeries(points, symbol))
            && (day in PriceSeries(points, symbol) ==>
                  PriceSeries(kept, symbol)[day] == PriceSeries(points, symbol)[day])
  {
    var kept := Collapsed(points, now);
    CollapsedIsSubset(points, now);
    ClosableDay(points, symbol, day);
    ClosableDay(kept, symbol, day);
    var before, after := Closable(points, symbol, day), Closable(kept, symbol, day);
    assert after <= before;
    if before != {} {
      var p := LatestExists(before);
      LatestSurvives(points, now, symbol, day, p);
      assert p in after && IsLatest(p, after);
      forall q | IsLatest(q, before) || IsLatest(q, after) ensures q == p {
      }
    }
  }

  // ---- Once a day is behind the daily wall ----

  ghost predicate DistinctRows(points: set<Point>) {
    forall p, q :: p in points && q in points && p.rowid == q.rowid ==> p == q
  }

  function OfDay(points: set<Point>, symbol: string, day: int): set<Point> {
    set p | p in points && p.symbol == symbol && DayOf(p.ts) == day
  }

  ghost predicate IsBest(p: Point, points: set<Point>) {
    p in points && forall q :: q in points && q != p ==> Better(p, q)
  }

  lemma {:induction false} BestExists(points: set<Point>) returns (best: Point)
    requires points != {} && DistinctRows(points)
    ensures IsBest(best, points)
  {
    var p :| p in points;
    if points == {p} {
      best := p;
    } else {
      var rest := BestExists(points - {p});
      best := if Better(rest, p) then rest else p;
      assert p in points && rest in points && p.rowid != rest.rowid;
      assert Better(rest, p) || Better(p, rest);
      forall q | q in points && q != best ensures Better(best, q) {
        assert q == p || q == rest || Better(rest, q);
      }
    }
  }

  /** The series after passes at these instants, in this order. */
  function Aged(points: set<Point>, nows: seq<int>): set<Point> {
    if nows == [] then points
    else Collapsed(Aged(points, nows[..|nows| - 1]), nows[|nows| - 1])
  }

  lemma {:induction false} BestOfDaySurvives(points: set<Point>, nows: seq<int>, symbol: string, day: int, best: Point)
    requires DistinctRows(points) && IsBest(best, OfDay(points, symbol, day))
    ensures Aged(points, nows) <= points && best in Aged(points, nows)
  {
    if nows != [] {
      var before, now := Aged(points, nows[..|nows| - 1]), nows[|nows| - 1];
      BestOfDaySurvives(points, nows[..|nows| - 1], symbol, day, best);
      CollapsedIsSubset(before, now);
      forall q | q in before && SamePlace(best, q, now) ensures !Better(q, best) {
        SamePlaceSameDay(best, q, now);
        assert q in OfDay(points, symbol, day);
      }
      KeptIffBest(before, now, best);
    }
  }

  /** A UTC day wholly behind the daily wall comes down to one point, and whatever passes ran before, at
      whatever instants, it is the same one: the day's best in the series as it was written. */
  lemma OldDayHasOneOutcome(points: set<Point>, nows: seq<int>, now: int, symbol: string, day: int)
    requires DistinctRows(points) && OfDay(points, symbol, day) != {}
    requires (day + 1) * SECONDS_PER_DAY <= DailyWall(now)
    ensures exists best :: IsBest(best, OfDay(points, symbol, day))
                           && OfDay(Collapsed(Aged(points, nows), now), symbol, day) == {best}
  {
    var best := BestExists(OfDay(points, symbol, day));
    BestOfDaySurvives(points, nows, symbol, day, best);
    BestOfDaySurvives(points, nows + [now], symbol, day, best);
    assert (nows + [now])[..|nows|] == nows;
    var before := Aged(points, nows);
    var left := OfDay(Collapsed(before, now), symbol, day);
    CollapsedIsSubset(before, now);
    forall p | p in left ensures p == best {
      KeptIffBest(before, now, p);
      assert p in OfDay(points, symbol, day);
      assert SamePlace(p, best, now) by {
        BandsAreRungs(p, now);
        BandsAreRungs(best, now);
      }
    }
    assert left == {best};
  }
}
