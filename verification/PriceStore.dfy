/** The market's two tables: the series of points, and the latest quote of each symbol beside it. */
module PriceStore {
  import opened Basics
  import opened Retention

  /** One stored point. `rowid` is the order of insertion. */
  datatype Point = Point(
    rowid: nat, symbol: string, ts: int, native: Option<real>, converted: Option<real>, rate: Option<real>)

  /** The part of a quote row that mirrors the series, and the two anchors of the backfill. */
  datatype Quote = Quote(
    lastNative: Option<real>, lastConverted: Option<real>, lastRate: Option<real>, lastTs: Option<int>,
    oldestTried: Option<int>, newestTried: Option<int>, backwardFailed: Option<int>)

  const BLANK_QUOTE := Quote(None, None, None, None, None, None, None)

  datatype Book = Book(points: set<Point>, next: nat, quotes: map<string, Quote>)

  const EMPTY_BOOK := Book({}, 0, map[])

  /** One fetched point of history. */
  datatype Fetched = Fetched(ts: int, price: Option<real>, converted: Option<real>, rate: Option<real>)

  function QuoteOf(quotes: map<string, Quote>, symbol: string): Quote {
    if symbol in quotes then quotes[symbol] else BLANK_QUOTE
  }

  /** The maintenance rule of the mirror: a point at or after the last one replaces it. */
  function Advanced(q: Quote, ts: int, native: Option<real>, converted: Option<real>, rate: Option<real>): Quote {
    if q.lastTs.None? || ts >= q.lastTs.value
    then q.(lastNative := native, lastConverted := converted, lastRate := rate, lastTs := Some(ts))
    else q
  }

  function Quoted(b: Book, symbol: string, ts: int, native: Option<real>, converted: Option<real>,
                  rate: Option<real>): Book
  {
    Book(b.points + {Point(b.next, symbol, ts, native, converted, rate)}, b.next + 1,
         b.quotes[symbol := Advanced(QuoteOf(b.quotes, symbol), ts, native, converted, rate)])
  }

  /** The fetched points that carry a price. */
  function Priced(rows: seq<Fetched>): (s: seq<Fetched>)
    ensures forall i :: 0 <= i < |s| ==> s[i].price.Some?
  {
    if rows == [] then []
    else
      var n := |rows| - 1;
      Priced(rows[..n]) + (if rows[n].price.Some? then [rows[n]] else [])
  }

  function OldestIn(rows: seq<Fetched>): (t: int)
    requires rows != []
    ensures forall i :: 0 <= i < |rows| ==> t <= rows[i].ts
    ensures exists i :: 0 <= i < |rows| && rows[i].ts == t
  {
    if |rows| == 1 then rows[0].ts
    else
      var n := |rows| - 1;
      var t := OldestIn(rows[..n]);
      assert exists i :: 0 <= i < n && rows[..n][i].ts == t;
      assert forall i :: 0 <= i < n ==> rows[i] == rows[..n][i];
      if rows[n].ts < t then rows[n].ts else t
  }

  /** The last row of the latest instant. */
  function NewestIn(rows: seq<Fetched>): (r: Fetched)
    requires rows != []
    ensures r in rows
    ensures forall i :: 0 <= i < |rows| ==> rows[i].ts <= r.ts
  {
    if |rows| == 1 then rows[0]
    else
      var n := |rows| - 1;
      var r := NewestIn(rows[..n]);
      assert forall i :: 0 <= i < n ==> rows[i] == rows[..n][i];
      if rows[n].ts >= r.ts then rows[n] else r
  }

  function PointOf(symbol: string, row: Fetched, rowid: nat): Point {
    Point(rowid, symbol, row.ts, row.price, row.converted, row.rate)
  }

  function Inserted(symbol: string, rows: seq<Fetched>, next: nat): set<Point> {
    set i | 0 <= i < |rows| :: PointOf(symbol, rows[i], next + i)
  }

  function Outside(points: set<Point>, symbol: string, oldest: int, newest: int): set<Point> {
    set p | p in points && !(p.symbol == symbol && oldest <= p.ts <= newest)
  }

  /** One chunk of history: the span it covers is deleted, then it is written. */
  function Historied(b: Book, symbol: string, fetched: seq<Fetched>): Book {
    var rows := Priced(fetched);
    if rows == [] then b
    else
      var latest := NewestIn(rows);
      Book(Outside(b.points, symbol, OldestIn(rows), latest.ts) + Inserted(symbol, rows, b.next), b.next + |rows|,
           b.quotes[symbol := Advanced(QuoteOf(b.quotes, symbol), latest.ts, latest.price, latest.converted,
                                       latest.rate)])
  }

  /** The points a repair reaches: priced, unconverted, on a day whose factor is known. */
  predicate Repairable(p: Point, symbol: string, factors: map<int, real>) {
    p.symbol == symbol && p.native.Some? && p.converted.None? && DayOf(p.ts) in factors
  }

  function Hits(points: set<Point>, symbol: string, factors: map<int, real>): set<Point> {
    set p | p in points && Repairable(p, symbol, factors)
  }

  function Converted(p: Point, factors: map<int, real>): Point
    requires p.native.Some? && DayOf(p.ts) in factors
  {
    var factor := factors[DayOf(p.ts)];
    p.(converted := Some(p.native.value * factor), rate := Some(factor))
  }

  function Repaired(points: set<Point>, symbol: string, factors: map<int, real>): set<Point> {
    set p | p in points :: if Repairable(p, symbol, factors) then Converted(p, factors) else p
  }

  /** The newest of some points, the last written among equals. */
  ghost predicate IsNewest(p: Point, points: set<Point>) {
    p in points && forall q :: q in points ==> q.ts < p.ts || (q.ts == p.ts && q.rowid <= p.rowid)
  }

  method NewestOf(points: set<Point>) returns (newest: Point)
    requires points != {}
    ensures IsNewest(newest, points)
  {
    newest := Pick(points);
    var todo := points - {newest};
    while todo != {}
      invariant todo <= points && IsNewest(newest, points - todo)
    {
      var p := Pick(todo);
      if newest.ts < p.ts || (newest.ts == p.ts && newest.rowid < p.rowid) {
        newest := p;
      }
      todo := todo - {p};
    }
    assert points - todo == points;
  }

  /** The converted points a repair may read the mirror's new values from. */
  function ConvertedAt(points: set<Point>, symbol: string, ts: int): set<Point> {
    set p | p in points && p.symbol == symbol && p.ts == ts && p.converted.Some?
  }

  /** The mirror of `b'` was offered the newest repaired point of `b`, as it is now converted. */
  ghost predicate MovedTo(b: Book, symbol: string, factors: map<int, real>, b': Book, hit: Point, latest: Point) {
    && IsNewest(hit, Hits(b.points, symbol, factors)) && IsNewest(latest, ConvertedAt(b'.points, symbol, hit.ts))
    && b'.quotes == if symbol in b.quotes
                    then b.quotes[symbol := Advanced(b.quotes[symbol], hit.ts, latest.native, latest.converted,
                                                     latest.rate)]
                    else b.quotes
  }

  /** `b'` is `b` with its reachable conversions repaired, the mirror following the newest of them. */
  ghost predicate IsRepair(b: Book, symbol: string, factors: map<int, real>, b': Book) {
    if Hits(b.points, symbol, factors) == {} then b' == b
    else
      && b'.points == Repaired(b.points, symbol, factors) && b'.next == b.next
      && exists hit, latest :: MovedTo(b, symbol, factors, b', hit, latest)
  }

  function BackwardTried(b: Book, symbol: string, day: int): Book {
    var q := QuoteOf(b.quotes, symbol);
    var tried := if q.oldestTried.None? || day < q.oldestTried.value then q.(oldestTried := Some(day)) else q;
    b.(quotes := b.quotes[symbol := tried.(backwardFailed := None)])
  }

  /** The last backward request failed: no anchor moves, and the next one that lands takes it back. */
  function BackwardFailed(b: Book, symbol: string, at: int): Book {
    b.(quotes := b.quotes[symbol := QuoteOf(b.quotes, symbol).(backwardFailed := Some(at))])
  }

  function ForwardTried(b: Book, symbol: string, day: int): Book {
    var q := QuoteOf(b.quotes, symbol);
    b.(quotes := b.quotes[symbol := if q.newestTried.None? || day > q.newestTried.value
                                    then q.(newestTried := Some(day)) else q])
  }

  lemma NothingToRepair(b: Book, symbol: string, factors: map<int, real>)
    requires Hits(b.points, symbol, factors) == {}
    ensures IsRepair(b, symbol, factors, b)
  {
  }

  /** The newest repaired point is there to be read back, converted. */
  lemma HitIsConverted(points: set<Point>, symbol: string, factors: map<int, real>, hit: Point)
    requires hit in Hits(points, symbol, factors)
    ensures Converted(hit, factors) in ConvertedAt(Repaired(points, symbol, factors), symbol, hit.ts)
  {
    assert Converted(hit, factors) in Repaired(points, symbol, factors);
  }

  lemma RepairIs(b: Book, symbol: string, factors: map<int, real>, b': Book, hit: Point, latest: Point)
    requires Hits(b.points, symbol, factors) != {}
    requires b'.points == Repaired(b.points, symbol, factors) && b'.next == b.next
    requires IsNewest(hit, Hits(b.points, symbol, factors)) && IsNewest(latest, ConvertedAt(b'.points, symbol, hit.ts))
    requires b'.quotes == if symbol in b.quotes
                          then b.quotes[symbol := Advanced(b.quotes[symbol], hit.ts, latest.native, latest.converted,
                                                           latest.rate)]
                          else b.quotes
    ensures IsRepair(b, symbol, factors, b')
  {
    hide IsNewest, Repaired, ConvertedAt, Advanced, Hits;
    assert MovedTo(b, symbol, factors, b', hit, latest);
  }

  // ---- The retention ladder ----

  /** The survivor order: a converted point first, then the latest, then the last written. */
  predicate Better(a: Point, b: Point) {
    if a.converted.Some? != b.converted.Some? then a.converted.Some?
    else a.ts > b.ts || (a.ts == b.ts && a.rowid > b.rowid)
  }

  predicate InHourBand(p: Point, now: int) {
    DailyWall(now) <= p.ts <= HourlyWall(now)
  }

  predicate InDayBand(p: Point, now: int) {
    p.ts < DailyWall(now)
  }

  /** A better point of the same symbol and hour stands in the hourly band. */
  predicate OutrankedInHour(p: Point, points: set<Point>, now: int) {
    InHourBand(p, now) && exists q ::
      q in points && InHourBand(q, now) && q.symbol == p.symbol && HourOf(q.ts) == HourOf(p.ts) && Better(q, p)
  }

  /** A better point of the same symbol and day stands in the daily band. */
  predicate OutrankedInDay(p: Point, points: set<Point>, now: int) {
    InDayBand(p, now) && exists q ::
      q in points && InDayBand(q, now) && q.symbol == p.symbol && DayOf(q.ts) == DayOf(p.ts) && Better(q, p)
  }

  function HourPass(points: set<Point>, now: int): set<Point> {
    set p | p in points && !OutrankedInHour(p, points, now)
  }

  function DayPass(points: set<Point>, now: int): set<Point> {
    set p | p in points && !OutrankedInDay(p, points, now)
  }

  function Collapsed(points: set<Point>, now: int): set<Point> {
    DayPass(HourPass(points, now), now)
  }

  // ---- The store; every method is one transaction ----

  class Store {
    var points: set<Point>
    var next: nat
    var quotes: map<string, Quote>

    function State(): Book
      reads this
    {
      Book(points, next, quotes)
    }

    constructor ()
      ensures State() == EMPTY_BOOK
    {
      points, next, quotes := {}, 0, map[];
    }

    method EnsureRow(symbol: string)
      modifies this`quotes
      ensures quotes == old(quotes)[symbol := QuoteOf(old(quotes), symbol)]
    {
      if symbol !in quotes {
        quotes := quotes[symbol := BLANK_QUOTE];
      }
    }

    /** The mirror moves only for a symbol that has a row. */
    method AdvanceLatest(symbol: string, ts: int, native: Option<real>, converted: Option<real>, rate: Option<real>)
      modifies this`quotes
      ensures quotes == if symbol in old(quotes)
                        then old(quotes)[symbol := Advanced(old(quotes)[symbol], ts, native, converted, rate)]
                        else old(quotes)
    {
      if symbol in quotes {
        var q := quotes[symbol];
        if q.lastTs.None? || ts >= q.lastTs.value {
          q := q.(lastNative := native, lastConverted := converted, lastRate := rate, lastTs := Some(ts));
        }
        quotes := quotes[symbol := q];
      }
    }

    method RecordQuote(symbol: string, ts: int, native: Option<real>, converted: Option<real>, rate: Option<real>)
      modifies this
      ensures State() == Quoted(old(State()), symbol, ts, native, converted, rate)
    {
      EnsureRow(symbol);
      points := points + {Point(next, symbol, ts, native, converted, rate)};
      next := next + 1;
      AdvanceLatest(symbol, ts, native, converted, rate);
    }

    method RecordHistory(symbol: string, fetched: seq<Fetched>) returns (written: nat)
      modifies this
      ensures State() == Historied(old(State()), symbol, fetched)
      ensures written == |Priced(fetched)|
    {
      hide Inserted, Advanced;
      var rows := KeepPriced(fetched);
      if rows == [] {
        return 0;
      }
      var oldest, latest := OldestIn(rows), NewestIn(rows);
      EnsureRow(symbol);
      points := set p | p in points && !(p.symbol == symbol && oldest <= p.ts <= latest.ts);
      InsertRows(symbol, rows);
      AdvanceLatest(symbol, latest.ts, latest.price, latest.converted, latest.rate);
      written := |rows|;
    }

    method InsertRows(symbol: string, rows: seq<Fetched>)
      modifies this`points, this`next
      ensures points == old(points) + Inserted(symbol, rows, old(next)) && next == old(next) + |rows|
    {
      for i := 0 to |rows|
        invariant next == old(next) + i
        invariant points == old(points) + Inserted(symbol, rows[..i], old(next))
      {
        points := points + {PointOf(symbol, rows[i], next)};
        next := next + 1;
      }
      assert rows[..|rows|] == rows;
    }

    method RepairConversions(symbol: string, factors: map<int, real>) returns (repaired: nat)
      modifies this
      ensures IsRepair(old(State()), symbol, factors, State())
      ensures repaired == |Hits(old(points), symbol, factors)|
    {
      hide IsRepair, MovedTo, Advanced, Converted, Repairable;
      var hits := Hits(points, symbol, factors);
      repaired := |hits|;
      if hits == {} {
        NothingToRepair(State(), symbol, factors);
        return;
      }
      var hit := NewestOf(hits);
      points := Repaired(points, symbol, factors);
      var candidates := ConvertedAt(points, symbol, hit.ts);
      HitIsConverted(old(points), symbol, factors, hit);
      var latest := NewestOf(candidates);
      AdvanceLatest(symbol, hit.ts, latest.native, latest.converted, latest.rate);
      RepairIs(old(State()), symbol, factors, State(), hit, latest);
    }

    method RecordWindowTried(symbol: string, oldest: int)
      modifies this
      ensures State() == BackwardTried(old(State()), symbol, oldest)
    {
      EnsureRow(symbol);
      var q := quotes[symbol];
      if q.oldestTried.None? || oldest < q.oldestTried.value {
        q := q.(oldestTried := Some(oldest));
      }
      quotes := quotes[symbol := q.(backwardFailed := None)];
    }

    method RecordBackwardFailure(symbol: string, at: int)
      modifies this
      ensures State() == BackwardFailed(old(State()), symbol, at)
    {
      EnsureRow(symbol);
      quotes := quotes[symbol := quotes[symbol].(backwardFailed := Some(at))];
    }

    method RecordForwardWindowTried(symbol: string, newest: int)
      modifies this
      ensures State() == ForwardTried(old(State()), symbol, newest)
    {
      EnsureRow(symbol);
      var q := quotes[symbol];
      if q.newestTried.None? || newest > q.newestTried.value {
        quotes := quotes[symbol := q.(newestTried := Some(newest))];
      }
    }

    method CollapseToLadder(now: int) returns (removed: nat)
      modifies this
      ensures State() == old(State()).(points := Collapsed(old(points), now))
      ensures removed == |old(points)| - |points|
    {
      var before := points;
      points := set p | p in points && !OutrankedInHour(p, points, now);
      points := set p | p in points && !OutrankedInDay(p, points, now);
      SubsetIsSmaller(points, before);
      removed := |before| - |points|;
    }
  }

  method KeepPriced(fetched: seq<Fetched>) returns (rows: seq<Fetched>)
    ensures rows == Priced(fetched)
  {
    rows := [];
    for i := 0 to |fetched|
      invariant rows == Priced(fetched[..i])
    {
      assert fetched[..i + 1][..i] == fetched[..i];
      if fetched[i].price.Some? {
        rows := rows + [fetched[i]];
      }
    }
    assert fetched[..|fetched|] == fetched;
  }

  lemma {:induction false} SubsetIsSmaller<T>(a: set<T>, b: set<T>)
    requires a <= b
    ensures |a| <= |b|
  {
    if a != {} {
      var x :| x in a;
      SubsetIsSmaller(a - {x}, b - {x});
    }
  }
}
