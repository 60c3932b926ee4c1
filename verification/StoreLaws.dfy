/** What each write of the market's tables leaves, told point by point and field by field. */
module StoreLaws {
  import opened Basics
  import opened Retention
  import opened PriceStore
  import opened LatestQuote
  import RetentionLadder

  /** The part of a quote row a write of the series may move, and the part only the backfill's own writes may. */
  predicate SameAnchors(q: Quote, q': Quote) {
    q'.oldestTried == q.oldestTried && q'.newestTried == q.newestTried && q'.backwardFailed == q.backwardFailed
  }

  predicate SameMirror(q: Quote, q': Quote) {
    && q'.lastTs == q.lastTs && q'.lastNative == q.lastNative
    && q'.lastConverted == q.lastConverted && q'.lastRate == q.lastRate
  }

  /** Nothing of another symbol moves: not a point, not a quote. */
  ghost predicate Spares(b: Book, b': Book, symbol: string) {
    && (forall p :: p in b.points && p.symbol != symbol ==> p in b'.points)
    && (forall p :: p in b'.points && p.symbol != symbol ==> p in b.points)
    && forall s :: s != symbol ==> QuoteOf(b'.quotes, s) == QuoteOf(b.quotes, s)
  }

  /** An observation is stored as it was made, under a new row, and nothing stored before it moves. */
  lemma ObservationTells(b: Book, symbol: string, ts: int, native: Option<real>, converted: Option<real>,
                         rate: Option<real>)
    ensures var b' := Quoted(b, symbol, ts, native, converted, rate);
            && Spares(b, b', symbol) && SameAnchors(QuoteOf(b.quotes, symbol), QuoteOf(b'.quotes, symbol))
            && b'.next > b.next
            && (exists p ::
                  && b'.points == b.points + {p} && b.next <= p.rowid < b'.next && p.symbol == symbol && p.ts == ts
                  && p.native == native && p.converted == converted && p.rate == rate)
  {
    var p := Point(b.next, symbol, ts, native, converted, rate);
    assert Quoted(b, symbol, ts, native, converted, rate).points == b.points + {p};
  }

  // ---- A chunk of history ----

  predicate HasPrice(fetched: seq<Fetched>, i: int) {
    0 <= i < |fetched| && fetched[i].price.Some?
  }

  /** A stored point is what one of the fetched rows says. */
  predicate Says(p: Point, symbol: string, row: Fetched) {
    p.symbol == symbol && p.ts == row.ts && p.native == row.price && p.converted == row.converted && p.rate == row.rate
  }

  /** An instant between two fetched rows that carry a price. */
  ghost predicate Spanned(fetched: seq<Fetched>, ts: int) {
    exists i, j :: HasPrice(fetched, i) && HasPrice(fetched, j) && fetched[i].ts <= ts <= fetched[j].ts
  }

  ghost predicate Stored(p: Point, b: Book, b': Book, symbol: string, fetched: seq<Fetched>) {
    b.next <= p.rowid < b'.next && exists i :: HasPrice(fetched, i) && Says(p, symbol, fetched[i])
  }

  lemma {:induction false} PricedAt(fetched: seq<Fetched>, row: Fetched)
    ensures row in Priced(fetched) <==> exists i :: HasPrice(fetched, i) && fetched[i] == row
  {
    if fetched != [] {
      var n := |fetched| - 1;
      PricedAt(fetched[..n], row);
      forall i | HasPrice(fetched[..n], i) ensures HasPrice(fetched, i) && fetched[..n][i] == fetched[i] {
      }
      if i :| HasPrice(fetched, i) && fetched[i] == row {
        assert i < n ==> HasPrice(fetched[..n], i);
      }
      assert HasPrice(fetched, n) <==> fetched[n].price.Some?;
    }
  }

  lemma SpanIs(fetched: seq<Fetched>, ts: int)
    requires Priced(fetched) != []
    ensures Spanned(fetched, ts) <==> OldestIn(Priced(fetched)) <= ts <= NewestIn(Priced(fetched)).ts
  {
    var rows := Priced(fetched);
    forall row ensures row in rows <==> exists i :: HasPrice(fetched, i) && fetched[i] == row {
      PricedAt(fetched, row);
    }
    var k :| 0 <= k < |rows| && rows[k].ts == OldestIn(rows);
    assert rows[k] in rows && NewestIn(rows) in rows;
    var i :| HasPrice(fetched, i) && fetched[i] == rows[k];
    var j :| HasPrice(fetched, j) && fetched[j] == NewestIn(rows);
    if Spanned(fetched, ts) {
      var i', j' :| HasPrice(fetched, i') && HasPrice(fetched, j') && fetched[i'].ts <= ts <= fetched[j'].ts;
      assert fetched[i'] in rows && fetched[j'] in rows;
    }
  }

  /** The rows written are the priced rows fetched, one for one. */
  lemma WrittenTells(b: Book, symbol: string, fetched: seq<Fetched>)
    requires Priced(fetched) != []
    ensures var b', ins := Historied(b, symbol, fetched), Inserted(symbol, Priced(fetched), b.next);
            && (forall p :: p in ins ==> Stored(p, b, b', symbol, fetched))
            && forall i :: HasPrice(fetched, i) ==> exists p :: p in ins && Says(p, symbol, fetched[i])
  {
    var rows := Priced(fetched);
    forall row ensures row in rows <==> exists i :: HasPrice(fetched, i) && fetched[i] == row {
      PricedAt(fetched, row);
    }
    hide Priced, OldestIn, NewestIn, Outside;
    forall p | p in Inserted(symbol, rows, b.next)
      ensures Stored(p, b, Historied(b, symbol, fetched), symbol, fetched)
    {
      var k := WrittenFrom(symbol, rows, b.next, p);
      assert rows[k] in rows;
      var i :| HasPrice(fetched, i) && fetched[i] == rows[k];
      assert Says(p, symbol, fetched[i]);
    }
    forall i | HasPrice(fetched, i)
      ensures exists p :: p in Inserted(symbol, rows, b.next) && Says(p, symbol, fetched[i])
    {
      assert fetched[i] in rows;
      var k :| 0 <= k < |rows| && rows[k] == fetched[i];
      assert PointOf(symbol, rows[k], b.next + k) in Inserted(symbol, rows, b.next);
    }
  }

  lemma NothingPriced(fetched: seq<Fetched>)
    ensures Priced(fetched) == [] <==> forall i :: !HasPrice(fetched, i)
  {
    if Priced(fetched) == [] {
      forall i ensures !HasPrice(fetched, i) {
        if HasPrice(fetched, i) {
          PricedAt(fetched, fetched[i]);
        }
      }
    } else {
      PricedAt(fetched, Priced(fetched)[0]);
    }
  }

  /**
   * A chunk replaces what the symbol had over the span of its priced rows by those rows, each as it was fetched, and
   * touches nothing else; one with no price changes nothing.
   */
  lemma ChunkTells(b: Book, symbol: string, fetched: seq<Fetched>)
    ensures var b' := Historied(b, symbol, fetched);
            && Spares(b, b', symbol) && SameAnchors(QuoteOf(b.quotes, symbol), QuoteOf(b'.quotes, symbol))
            && (forall p :: p in b.points && !(p.symbol == symbol && Spanned(fetched, p.ts)) ==> p in b'.points)
            && (forall p :: p in b'.points ==>
                  || (p in b.points && !(p.symbol == symbol && Spanned(fetched, p.ts)))
                  || Stored(p, b, b', symbol, fetched))
            && forall i :: HasPrice(fetched, i) ==> exists p :: p in b'.points && Says(p, symbol, fetched[i])
  {
    hide Inserted, Stored, Says, OldestIn, NewestIn, Priced, Spanned, HasPrice;
    NothingPriced(fetched);
    var rows := Priced(fetched);
    if rows == [] {
      assert Historied(b, symbol, fetched) == b;
      NoSpan(fetched);
    } else {
      WrittenTells(b, symbol, fetched);
      InsertedOf(symbol, rows, b.next);
      forall ts ensures Spanned(fetched, ts) <==> OldestIn(rows) <= ts <= NewestIn(rows).ts {
        SpanIs(fetched, ts);
      }
    }
  }

  lemma NoSpan(fetched: seq<Fetched>)
    requires forall i :: !HasPrice(fetched, i)
    ensures forall ts :: !Spanned(fetched, ts)
  {
    hide HasPrice;
  }

  lemma InsertedOf(symbol: string, rows: seq<Fetched>, next: nat)
    ensures forall p :: p in Inserted(symbol, rows, next) ==> p.symbol == symbol
  {
  }

  /** No row is newer, and none after it is as new. */
  predicate IsLastNewest(rows: seq<Fetched>, i: int) {
    && 0 <= i < |rows| && (forall j :: 0 <= j < |rows| ==> rows[j].ts <= rows[i].ts)
    && forall j :: i < j < |rows| ==> rows[j].ts < rows[i].ts
  }

  /** The row a chunk offers the mirror: of the newest instant, the last fetched. */
  lemma {:induction false} NewestIsLast(rows: seq<Fetched>) returns (i: int)
    requires rows != []
    ensures IsLastNewest(rows, i) && rows[i] == NewestIn(rows)
  {
    var n := |rows| - 1;
    i := n;
    if n > 0 {
      var before := NewestIsLast(rows[..n]);
      if rows[n].ts < rows[before].ts {
        i := before;
      }
      hide NewestIn;
    }
  }

  // ---- A repair, an anchor, a pass ----

  /** What a repair makes of a point: priced, unconverted and of a known day, it gets its price at the day's factor. */
  predicate Mended(p: Point, p': Point, symbol: string, factors: map<int, real>) {
    var day := DayOf(p.ts);
    if p.symbol == symbol && p.native.Some? && p.converted.None? && day in factors
    then p' == p.(converted := Some(p.native.value * factors[day]), rate := Some(factors[day]))
    else p' == p
  }

  /** Every point is what the repair makes of one, and every one is mended. */
  lemma RepairTells(b: Book, symbol: string, factors: map<int, real>, b': Book)
    requires IsRepair(b, symbol, factors, b')
    ensures forall p' :: p' in b'.points <==> exists p :: p in b.points && Mended(p, p', symbol, factors)
    ensures forall s :: SameAnchors(QuoteOf(b.quotes, s), QuoteOf(b'.quotes, s))
    ensures forall s :: s != symbol ==> QuoteOf(b'.quotes, s) == QuoteOf(b.quotes, s)
    ensures b'.next == b.next
  {
    forall p ensures Mended(p, AfterRepair(p, symbol, factors), symbol, factors)
             ensures forall p' :: Mended(p, p', symbol, factors) ==> p' == AfterRepair(p, symbol, factors)
    {
    }
    if Hits(b.points, symbol, factors) == {} {
      forall p | p in b.points ensures Mended(p, p, symbol, factors) {
        assert p !in Hits(b.points, symbol, factors);
      }
    } else {
      forall p' | p' in b'.points ensures exists p :: p in b.points && Mended(p, p', symbol, factors) {
        var p := Original(b.points, symbol, factors, p');
        assert Mended(p, p', symbol, factors);
      }
      forall p, p' | p in b.points && Mended(p, p', symbol, factors) ensures p' in b'.points {
        var kept := StillThere(b.points, symbol, factors, p);
      }
    }
  }

  /** The anchors only move outwards, each by its own write, and neither moves the mirror nor a point. */
  lemma AnchorsTell(b: Book, symbol: string, day: int, at: int)
    ensures var q := QuoteOf(b.quotes, symbol);
            var back, forth := BackwardTried(b, symbol, day), ForwardTried(b, symbol, day);
            var failed := BackwardFailed(b, symbol, at);
            && Spares(b, back, symbol) && Spares(b, failed, symbol) && Spares(b, forth, symbol)
            && back.points == b.points && failed.points == b.points && forth.points == b.points
            && SameMirror(q, QuoteOf(back.quotes, symbol)) && SameMirror(q, QuoteOf(failed.quotes, symbol))
            && SameMirror(q, QuoteOf(forth.quotes, symbol))
            && (var q' := QuoteOf(back.quotes, symbol);
                && q'.oldestTried.Some? && q'.oldestTried.value <= day
                && (q.oldestTried.Some? ==> q'.oldestTried.value <= q.oldestTried.value)
                && (q'.oldestTried == Some(day) || q'.oldestTried == q.oldestTried)
                && q'.newestTried == q.newestTried && q'.backwardFailed.None?)
            && (var q' := QuoteOf(forth.quotes, symbol);
                && q'.newestTried.Some? && q'.newestTried.value >= day
                && (q.newestTried.Some? ==> q'.newestTried.value >= q.newestTried.value)
                && (q'.newestTried == Some(day) || q'.newestTried == q.newestTried)
                && q'.oldestTried == q.oldestTried && q'.backwardFailed == q.backwardFailed)
            && var q' := QuoteOf(failed.quotes, symbol);
               q'.backwardFailed == Some(at) && q'.oldestTried == q.oldestTried && q'.newestTried == q.newestTried
  {
  }

  /** The same hour, for a point between one and two years old; the same UTC day, for an older one. */
  predicate Together(p: Point, q: Point, now: int) {
    && p.symbol == q.symbol
    && ((&& 365 * 86400 <= now - p.ts <= 730 * 86400 && 365 * 86400 <= now - q.ts <= 730 * 86400
         && p.ts / 3600 == q.ts / 3600)
        || (now - p.ts > 730 * 86400 && now - q.ts > 730 * 86400 && p.ts / 86400 == q.ts / 86400))
  }

  /** A converted point outlives an unconverted one, then a later one an earlier, then the last written. */
  predicate Outlives(q: Point, p: Point) {
    || (q.converted.Some? && p.converted.None?)
    || (&& (q.converted.Some? <==> p.converted.Some?)
        && (q.ts > p.ts || (q.ts == p.ts && q.rowid > p.rowid)))
  }

  /** What a retention pass keeps, in instants and conversions alone. */
  lemma SurvivorTells(points: set<Point>, now: int, p: Point)
    ensures p in Collapsed(points, now)
       <==> p in points && forall q :: q in points && Together(p, q, now) ==> !Outlives(q, p)
  {
    RetentionLadder.KeptIffBest(points, now, p);
    forall q ensures RetentionLadder.SamePlace(p, q, now) <==> Together(p, q, now)
             ensures Better(q, p) <==> Outlives(q, p)
    {
    }
    hide Collapsed, Together, Outlives, RetentionLadder.SamePlace, Better;
  }
}
