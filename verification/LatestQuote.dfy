/** The mirror beside the series: a symbol's last price is always its newest stored point. */
module LatestQuote {
  import opened Basics
  import opened Retention
  import opened PriceStore
  import opened RetentionLadder

  /** The writers of the market's tables, retention apart. */
  datatype Write =
    | Observe(ts: int, native: Option<real>, converted: Option<real>, rate: Option<real>)
    | Fetch(rows: seq<Fetched>)
    | Repair(factors: map<int, real>)
    | TriedBackward(day: int)
    | FailedBackward(at: int)
    | TriedForward(day: int)

  /** No two points of a symbol at one instant: the write brings none, within itself or beside the series. */
  ghost predicate Fresh(b: Book, symbol: string, w: Write) {
    match w
    case Observe(ts, _, _, _) => forall p :: p in b.points && p.symbol == symbol ==> p.ts != ts
    case Fetch(rows) => forall i, j :: 0 <= i < j < |Priced(rows)| ==> Priced(rows)[i].ts != Priced(rows)[j].ts
    case _ => true
  }

  ghost predicate Follows(b: Book, symbol: string, w: Write, b': Book) {
    match w
    case Observe(ts, native, converted, rate) => b' == Quoted(b, symbol, ts, native, converted, rate)
    case Fetch(rows) => b' == Historied(b, symbol, rows)
    case Repair(factors) => IsRepair(b, symbol, factors, b')
    case TriedBackward(day) => b' == BackwardTried(b, symbol, day)
    case FailedBackward(at) => b' == BackwardFailed(b, symbol, at)
    case TriedForward(day) => b' == ForwardTried(b, symbol, day)
  }

  function OfSymbol(points: set<Point>, symbol: string): set<Point> {
    set p | p in points && p.symbol == symbol
  }

  predicate Shows(q: Quote, p: Point) {
    q.lastTs == Some(p.ts) && q.lastNative == p.native && q.lastConverted == p.converted && q.lastRate == p.rate
  }

  ghost predicate MirrorOf(points: set<Point>, q: Quote) {
    && (points == {} ==> q.lastTs.None?)
    && forall p :: IsLatest(p, points) ==> Shows(q, p)
  }

  ghost predicate Mirrored(b: Book) {
    && DistinctInstants(b.points)
    && forall s :: MirrorOf(OfSymbol(b.points, s), QuoteOf(b.quotes, s))
  }

  /** The mirror stands at the newest instant, whatever it is. */
  lemma LastTsIsNewest(points: set<Point>, q: Quote, ts: int)
    requires MirrorOf(points, q)
    ensures q.lastTs.None? <==> points == {}
    ensures q.lastTs.Some? ==> exists p :: IsLatest(p, points) && p.ts == q.lastTs.value
    ensures (q.lastTs.None? || ts >= q.lastTs.value) <==> forall p :: p in points ==> p.ts <= ts
  {
    if points != {} {
      var p := LatestExists(points);
      assert Shows(q, p);
    }
  }

  /** A point later than everything before it becomes the mirror; an earlier one leaves it alone. */
  lemma AddedPointMirrors(before: set<Point>, q: Quote, p: Point)
    requires MirrorOf(before, q) && forall o :: o in before ==> o.ts != p.ts
    ensures MirrorOf(before + {p}, Advanced(q, p.ts, p.native, p.converted, p.rate))
  {
    LastTsIsNewest(before, q, p.ts);
    var q' := Advanced(q, p.ts, p.native, p.converted, p.rate);
    forall l | IsLatest(l, before + {p}) ensures Shows(q', l) {
      if l != p {
        assert IsLatest(l, before);
        assert p in before + {p} && p.ts <= l.ts;
      } else {
        forall o | o in before ensures o.ts <= p.ts { assert o in before + {p}; }
      }
    }
  }

  lemma ObserveMirrors(b: Book, symbol: string, ts: int, native: Option<real>, converted: Option<real>,
                       rate: Option<real>)
    requires Mirrored(b) && Fresh(b, symbol, Observe(ts, native, converted, rate))
    ensures Mirrored(Quoted(b, symbol, ts, native, converted, rate))
  {
    var b' := Quoted(b, symbol, ts, native, converted, rate);
    var p := Point(b.next, symbol, ts, native, converted, rate);
    AddedPointMirrors(OfSymbol(b.points, symbol), QuoteOf(b.quotes, symbol), p);
    assert OfSymbol(b'.points, symbol) == OfSymbol(b.points, symbol) + {p};
    forall s | s != symbol ensures OfSymbol(b'.points, s) == OfSymbol(b.points, s) {
    }
  }

  /** The points a chunk leaves of its symbol. */
  function Chunked(before: set<Point>, symbol: string, rows: seq<Fetched>, next: nat): set<Point>
    requires rows != []
  {
    Outside(before, symbol, OldestIn(rows), NewestIn(rows).ts) + Inserted(symbol, rows, next)
  }

  predicate DistinctRowsTs(rows: seq<Fetched>) {
    forall i, j :: 0 <= i < j < |rows| ==> rows[i].ts != rows[j].ts
  }

  lemma WrittenFrom(symbol: string, rows: seq<Fetched>, next: nat, p: Point) returns (i: nat)
    requires rows != [] && p in Inserted(symbol, rows, next)
    ensures i < |rows| && p == PointOf(symbol, rows[i], next + i)
    ensures p.symbol == symbol && OldestIn(rows) <= p.ts <= NewestIn(rows).ts
  {
    i :| 0 <= i < |rows| && p == PointOf(symbol, rows[i], next + i);
  }

  lemma InsertedOnce(symbol: string, rows: seq<Fetched>, next: nat, p: Point, q: Point)
    requires rows != [] && DistinctRowsTs(rows)
    requires p in Inserted(symbol, rows, next) && q in Inserted(symbol, rows, next) && p.ts == q.ts
    ensures p == q
  {
    var i := WrittenFrom(symbol, rows, next, p);
    var j := WrittenFrom(symbol, rows, next, q);
    assert i == j;
  }

  lemma ChunkKeepsInstants(points: set<Point>, symbol: string, rows: seq<Fetched>, next: nat)
    requires DistinctInstants(points) && rows != [] && DistinctRowsTs(rows)
    ensures DistinctInstants(Chunked(points, symbol, rows, next))
  {
    hide Inserted;
    var ins := Inserted(symbol, rows, next);
    forall p | p in ins ensures OldestIn(rows) <= p.ts <= NewestIn(rows).ts && p.symbol == symbol {
      var i := WrittenFrom(symbol, rows, next, p);
    }
    forall p, q | p in ins && q in ins && p.ts == q.ts ensures p == q {
      InsertedOnce(symbol, rows, next, p, q);
    }
    hide OldestIn, NewestIn;
  }

  /** The chunk's last row of its newest instant, as it was written. */
  lemma NewestWritten(symbol: string, rows: seq<Fetched>, next: nat) returns (p: Point)
    requires rows != []
    ensures p in Inserted(symbol, rows, next) && p.symbol == symbol
    ensures var l := NewestIn(rows);
            p.ts == l.ts && p.native == l.price && p.converted == l.converted && p.rate == l.rate
  {
    var l := NewestIn(rows);
    var n :| 0 <= n < |rows| && rows[n] == l;
    p := PointOf(symbol, l, next + n);
  }

  lemma ChunkMirrors(points: set<Point>, q: Quote, symbol: string, rows: seq<Fetched>, next: nat)
    requires MirrorOf(OfSymbol(points, symbol), q) && rows != [] && DistinctRowsTs(rows)
    ensures var l := NewestIn(rows);
            MirrorOf(OfSymbol(Chunked(points, symbol, rows, next), symbol),
                     Advanced(q, l.ts, l.price, l.converted, l.rate))
  {
    hide Inserted, OldestIn, NewestIn;
    var l := NewestIn(rows);
    var before, after := OfSymbol(points, symbol), OfSymbol(Chunked(points, symbol, rows, next), symbol);
    LastTsIsNewest(before, q, l.ts);
    var written := NewestWritten(symbol, rows, next);
    assert written in after;
    assert forall o :: o in before && o.ts > l.ts ==> o in after;
    forall p | IsLatest(p, after) ensures Shows(Advanced(q, l.ts, l.price, l.converted, l.rate), p) {
      assert p.ts >= l.ts;
      if p in Inserted(symbol, rows, next) {
        var i := WrittenFrom(symbol, rows, next, p);
        InsertedOnce(symbol, rows, next, p, written);
        assert forall o :: o in before ==> o.ts <= l.ts;
      } else {
        assert p in before && p.ts > l.ts;
        assert IsLatest(p, before);
      }
    }
  }

  lemma ChunkSparesOthers(points: set<Point>, symbol: string, rows: seq<Fetched>, next: nat, s: string)
    requires rows != [] && s != symbol
    ensures OfSymbol(Chunked(points, symbol, rows, next), s) == OfSymbol(points, s)
  {
  }

  lemma FetchMirrors(b: Book, symbol: string, fetched: seq<Fetched>)
    requires Mirrored(b) && Fresh(b, symbol, Fetch(fetched))
    ensures Mirrored(Historied(b, symbol, fetched))
  {
    hide MirrorOf, OfSymbol, Inserted, Outside, DistinctInstants, OldestIn, NewestIn, Advanced;
    var rows := Priced(fetched);
    if rows != [] {
      var b' := Historied(b, symbol, fetched);
      assert b'.points == Chunked(b.points, symbol, rows, b.next);
      ChunkKeepsInstants(b.points, symbol, rows, b.next);
      ChunkMirrors(b.points, QuoteOf(b.quotes, symbol), symbol, rows, b.next);
      forall s | s != symbol ensures OfSymbol(b'.points, s) == OfSymbol(b.points, s) {
        ChunkSparesOthers(b.points, symbol, rows, b.next, s);
      }
    }
  }

  function AfterRepair(p: Point, symbol: string, factors: map<int, real>): Point {
    if Repairable(p, symbol, factors) then Converted(p, factors) else p
  }

  lemma RepairKeepsInstants(points: set<Point>, symbol: string, factors: map<int, real>)
    requires DistinctInstants(points)
    ensures DistinctInstants(Repaired(points, symbol, factors))
    ensures forall p :: p in points ==> AfterRepair(p, symbol, factors) in Repaired(points, symbol, factors)
    ensures forall r :: r in Repaired(points, symbol, factors) ==>
              exists p :: p in points && r == AfterRepair(p, symbol, factors)
  {
  }

  lemma RepairMirrors(b: Book, symbol: string, factors: map<int, real>, b': Book)
    requires Mirrored(b) && IsRepair(b, symbol, factors, b')
    ensures Mirrored(b')
  {
    hide MirrorOf, OfSymbol, DistinctInstants, Advanced;
    RepairKeepsInstants(b.points, symbol, factors);
    if Hits(b.points, symbol, factors) != {} {
      forall s | s != symbol ensures OfSymbol(b'.points, s) == OfSymbol(b.points, s) {
        OtherSymbolSame(b.points, symbol, factors, s);
      }
      var hit, latest :| MovedTo(b, symbol, factors, b', hit, latest);
      RepairedSymbolMirrors(b, symbol, factors, b', hit, latest);
    }
  }

  lemma OtherSymbolSame(points: set<Point>, symbol: string, factors: map<int, real>, s: string)
    requires s != symbol
    ensures OfSymbol(Repaired(points, symbol, factors), s) == OfSymbol(points, s)
  {
    forall p | p in OfSymbol(points, s) ensures p in Repaired(points, symbol, factors) {
      assert AfterRepair(p, symbol, factors) == p;
    }
  }

  lemma RepairedSymbolMirrors(b: Book, symbol: string, factors: map<int, real>, b': Book, hit: Point, latest: Point)
    requires Mirrored(b) && b'.points == Repaired(b.points, symbol, factors)
    requires MovedTo(b, symbol, factors, b', hit, latest)
    ensures MirrorOf(OfSymbol(b'.points, symbol), QuoteOf(b'.quotes, symbol))
  {
    var before, after := OfSymbol(b.points, symbol), OfSymbol(b'.points, symbol);
    LastTsIsNewest(before, QuoteOf(b.quotes, symbol), hit.ts);
    var hit' := StillThere(b.points, symbol, factors, hit);
    assert hit' in after;
    forall r | IsLatest(r, after) ensures Shows(QuoteOf(b'.quotes, symbol), r) {
      var p := BeforeRepair(b.points, symbol, factors, r);
      assert Shows(QuoteOf(b.quotes, symbol), p);
      if Repairable(p, symbol, factors) {
        assert p in Hits(b.points, symbol, factors);
        assert hit.ts == p.ts && hit == p;
      } else {
        assert hit.ts < p.ts;
      }
    }
  }

  /** The newest point after a repair was the newest before it. */
  lemma BeforeRepair(points: set<Point>, symbol: string, factors: map<int, real>, r: Point) returns (p: Point)
    requires IsLatest(r, OfSymbol(Repaired(points, symbol, factors), symbol))
    ensures IsLatest(p, OfSymbol(points, symbol)) && r == AfterRepair(p, symbol, factors)
  {
    p := Original(points, symbol, factors, r);
    forall o | o in OfSymbol(points, symbol) ensures o.ts <= p.ts {
      var o' := StillThere(points, symbol, factors, o);
      assert o' in OfSymbol(Repaired(points, symbol, factors), symbol);
    }
  }

  lemma Original(points: set<Point>, symbol: string, factors: map<int, real>, r: Point) returns (p: Point)
    requires r in Repaired(points, symbol, factors)
    ensures p in points && r == AfterRepair(p, symbol, factors)
    ensures p.symbol == r.symbol && p.ts == r.ts
  {
    p :| p in points && r == AfterRepair(p, symbol, factors);
  }

  lemma StillThere(points: set<Point>, symbol: string, factors: map<int, real>, o: Point) returns (o': Point)
    requires o in points
    ensures o' == AfterRepair(o, symbol, factors) && o' in Repaired(points, symbol, factors)
    ensures o'.symbol == o.symbol && o'.ts == o.ts
  {
    o' := AfterRepair(o, symbol, factors);
  }

  /** Every write keeps the mirror on the newest point of every symbol. */
  lemma WriteMirrors(b: Book, symbol: string, w: Write, b': Book)
    requires Mirrored(b) && Fresh(b, symbol, w) && Follows(b, symbol, w, b')
    ensures Mirrored(b')
  {
    match w
    case Observe(ts, native, converted, rate) => ObserveMirrors(b, symbol, ts, native, converted, rate);
    case Fetch(rows) => FetchMirrors(b, symbol, rows);
    case Repair(factors) => RepairMirrors(b, symbol, factors, b');
    case _ =>
  }

  // ---- Ageing, and whole histories ----

  /** The newest point of every symbol is the best of its place on the ladder. */
  ghost predicate SparesNewest(points: set<Point>, now: int) {
    forall s, p :: IsLatest(p, OfSymbol(points, s)) ==> Unrivalled(points, now, p)
  }

  /** A pass keeps the mirror if and only if it drops no symbol's newest point. */
  lemma AgeKeepsMirrorIff(b: Book, now: int)
    requires Mirrored(b)
    ensures Mirrored(b.(points := Collapsed(b.points, now))) <==> SparesNewest(b.points, now)
  {
    hide Collapsed, Unrivalled;
    var kept := Collapsed(b.points, now);
    CollapsedIsSubset(b.points, now);
    forall s ensures MirrorOf(OfSymbol(kept, s), QuoteOf(b.quotes, s))
                <==> forall p :: IsLatest(p, OfSymbol(b.points, s)) ==> Unrivalled(b.points, now, p)
    {
      SymbolMirrorIff(b, now, s);
    }
  }

  lemma SymbolMirrorIff(b: Book, now: int, s: string)
    requires Mirrored(b)
    ensures MirrorOf(OfSymbol(Collapsed(b.points, now), s), QuoteOf(b.quotes, s))
       <==> forall p :: IsLatest(p, OfSymbol(b.points, s)) ==> Unrivalled(b.points, now, p)
  {
    hide Collapsed, Unrivalled;
    var before, after := OfSymbol(b.points, s), OfSymbol(Collapsed(b.points, now), s);
    CollapsedIsSubset(b.points, now);
    assert after <= before;
    if before != {} {
      var newest := LatestExists(before);
      assert forall p :: IsLatest(p, before) ==> p == newest;
      KeptIffBest(b.points, now, newest);
      if newest in after {
        assert forall p :: IsLatest(p, after) ==> p == newest;
      } else if after != {} {
        var p := LatestExists(after);
        assert p.ts != newest.ts;
      }
    }
  }

  /** A converted newest point is never dropped, whatever the instant of the pass. */
  lemma ConvertedNewestIsSpared(points: set<Point>, now: int)
    requires forall s, p :: IsLatest(p, OfSymbol(points, s)) ==> p.converted.Some?
    requires DistinctInstants(points)
    ensures SparesNewest(points, now)
  {
    forall s, p | IsLatest(p, OfSymbol(points, s)) ensures Unrivalled(points, now, p) {
      forall q | q in points && SamePlace(p, q, now) ensures !Better(q, p) {
        assert q in OfSymbol(points, s);
      }
    }
  }

  /**
   * An unconverted newest point goes when a converted one shares its place: the mirror then shows a point of no row.
   */
  lemma AgeingMayBreakTheMirror()
    ensures exists b, now :: Mirrored(b) && !Mirrored(b.(points := Collapsed(b.points, now)))
  {
    var older := Point(0, "A", 0, Some(1.0), Some(2.0), Some(2.0));
    var newest := Point(1, "A", 60, Some(1.0), None, None);
    var shown := BLANK_QUOTE.(lastTs := Some(60), lastNative := Some(1.0));
    var b := Book({older, newest}, 2, map["A" := shown]);
    var now := 731 * SECONDS_PER_DAY;
    forall s ensures MirrorOf(OfSymbol(b.points, s), QuoteOf(b.quotes, s)) {
      if s == "A" {
        assert older in OfSymbol(b.points, s) && newest in OfSymbol(b.points, s);
      } else {
        assert OfSymbol(b.points, s) == {};
      }
    }
    assert Mirrored(b);
    AgeKeepsMirrorIff(b, now);
    assert !SparesNewest(b.points, now) by {
      assert older in b.points && newest in OfSymbol(b.points, "A");
      assert IsLatest(newest, OfSymbol(b.points, "A"));
      assert SamePlace(newest, older, now) && Better(older, newest);
      assert !Unrivalled(b.points, now, newest);
    }
    hide Mirrored, SparesNewest, Collapsed;
    assert Mirrored(b) && !Mirrored(b.(points := Collapsed(b.points, now)));
  }

  /** What moves the tables: a write of one symbol, or a retention pass over all. */
  datatype Turn = Wrote(symbol: string, write: Write) | Collapse(now: int)

  ghost predicate Takes(b: Book, t: Turn, b': Book) {
    match t
    case Wrote(symbol, w) => Fresh(b, symbol, w) && Follows(b, symbol, w, b')
    case Collapse(now) => b' == b.(points := Collapsed(b.points, now))
  }

  /** A history of the store: each book follows the one before it by one write of one symbol, or one pass. */
  ghost predicate History(books: seq<Book>, turns: seq<Turn>) {
    && |books| == |turns| + 1 && books[0] == EMPTY_BOOK
    && forall i :: 0 <= i < |turns| ==> Takes(books[i], turns[i], books[i + 1])
  }

  /** No pass of the first n turns drops a newest point. */
  ghost predicate Spared(books: seq<Book>, turns: seq<Turn>, n: nat)
    requires n <= |turns| < |books|
  {
    forall i :: 0 <= i < n && turns[i].Collapse? ==> SparesNewest(books[i].points, turns[i].now)
  }

  /**
   * Under every sequence of writes and passes, of any symbols in any order: the mirror stands at every moment up to one
   * if and only if no pass until then dropped a newest point.
   */
  lemma {:induction false} MirrorHolds(books: seq<Book>, turns: seq<Turn>, n: nat)
    requires History(books, turns) && n < |books|
    ensures (forall i :: 0 <= i <= n ==> Mirrored(books[i])) <==> Spared(books, turns, n)
  {
    hide Mirrored, SparesNewest, Fresh, Follows;
    if n == 0 {
      NothingIsMirrored();
    } else {
      MirrorHolds(books, turns, n - 1);
      if Mirrored(books[n - 1]) {
        TurnMirrors(books[n - 1], turns[n - 1], books[n]);
      }
    }
  }

  lemma NothingIsMirrored()
    ensures Mirrored(EMPTY_BOOK)
  {
  }

  lemma TurnMirrors(b: Book, t: Turn, b': Book)
    requires Mirrored(b) && Takes(b, t, b')
    ensures Mirrored(b') <==> (t.Collapse? ==> SparesNewest(b.points, t.now))
  {
    hide Mirrored, SparesNewest, Fresh, Follows;
    match t
    case Wrote(symbol, w) => WriteMirrors(b, symbol, w, b');
    case Collapse(now) => AgeKeepsMirrorIff(b, now);
  }
}
