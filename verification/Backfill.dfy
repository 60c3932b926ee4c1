/** The two backfill passes: where they resume, the window they ask for, and why they end. */
module Backfill {
  import opened Basics
  import opened Retention
  import opened PriceStore
  import opened LatestQuote
  import OldestMemo
  import StoreLaws

  // ---- Anchors and windows ----

  function Midnight(day: int): (t: int)
    ensures DayOf(t) == day
    ensures forall ts :: DayOf(ts) <= day - 1 <==> ts < t
  {
    day * SECONDS_PER_DAY
  }

  datatype Holding = Holding(acquired: int, exited: Option<int>)

  /** The instant the backward pass descends from: now, or the end of the last day held. */
  function CeilingOf(h: Holding, now: int): int {
    if h.exited.None? then now else Midnight(h.exited.value + 1)
  }

  function Earlier(a: int, b: Option<int>): int {
    if b.Some? && b.value < a then b.value else a
  }

  function MidnightOf(day: Option<int>): Option<int> {
    if day.None? then None else Some(Midnight(day.value))
  }

  function BackwardAnchor(ceiling: int, oldest: Option<int>, tried: Option<int>): int {
    Earlier(Earlier(ceiling, oldest), MidnightOf(tried))
  }

  function ForwardAnchor(newest: Option<int>, tried: Option<int>): Option<int> {
    if tried.None? then newest
    else if newest.Some? && newest.value > Midnight(tried.value) then newest
    else Some(Midnight(tried.value))
  }

  predicate IsTerminal(anchor: int, target: int) {
    DayOf(anchor) <= DayOf(target)
  }

  const HOURLY_CEILING_DAYS := 729

  datatype Interval = Hourly | Daily

  function HistoryInterval(start: int, now: int): Interval {
    if DayOf(now - start) <= HOURLY_CEILING_DAYS then Hourly else Daily
  }

  function HourlyCeiling(now: int): int {
    now - HOURLY_CEILING_DAYS * SECONDS_PER_DAY
  }

  function ClipToHourlyCeiling(start: int, end: int, now: int): int {
    if HistoryInterval(start, now) == Hourly then start
    else
      var ceiling := HourlyCeiling(now);
      if ceiling < end && end - ceiling >= SECONDS_PER_DAY then ceiling else start
  }

  function ForwardWindow(newest: Option<int>, now: int, chunk: nat): Option<(int, int)> {
    if newest.None? || DayOf(now - newest.value) < 1 then None
    else
      var start := newest.value;
      var reach := start + chunk * SECONDS_PER_DAY;
      var end := if reach < now then reach else now;
      Some((start,
            if HistoryInterval(start, now) == Daily && HourlyCeiling(now) < end then HourlyCeiling(now) else end))
  }

  datatype BackwardTurn = Complete | TooSmall | Ask(start: int, end: int)

  function BackwardWindow(anchor: int, h: Holding, now: int, chunk: nat): BackwardTurn {
    var target := Midnight(h.acquired);
    if IsTerminal(anchor, target) then Complete
    else
      var reach := anchor - chunk * SECONDS_PER_DAY;
      var start := ClipToHourlyCeiling(if reach < target then target else reach, anchor, now);
      if DayOf(anchor - start) < 1 then TooSmall else Ask(start, anchor)
  }

  /**
   * A forward window is at least a day wide, ends by now, never asks days for what is still sold by the hour, and
   * stops short of nothing but the chunk, now and that ceiling.
   */
  lemma ForwardWindowFits(newest: Option<int>, now: int, chunk: nat)
    requires chunk >= 1
    ensures ForwardWindow(newest, now, chunk).None? <==> newest.None? || now - newest.value < SECONDS_PER_DAY
    ensures var w := ForwardWindow(newest, now, chunk);
            w.Some? ==>
              && w.value.0 == newest.value && w.value.0 + SECONDS_PER_DAY <= w.value.1 <= now
              && w.value.1 - w.value.0 <= chunk * SECONDS_PER_DAY
              && (HistoryInterval(w.value.0, now) == Daily ==> w.value.1 <= HourlyCeiling(now))
              && (w.value.1 == w.value.0 + chunk * SECONDS_PER_DAY || w.value.1 == now
                  || w.value.1 == HourlyCeiling(now))
  {
  }

  /**
   * A backward window always exists until the target is reached: at least a day wide, within the chunk and the
   * holding, and past the hourly ceiling by less than a day when it is asked by days.
   */
  lemma BackwardWindowFits(anchor: int, h: Holding, now: int, chunk: nat)
    requires chunk >= 1
    ensures var w := BackwardWindow(anchor, h, now, chunk);
            && !w.TooSmall?
            && (w.Complete? <==> anchor < Midnight(h.acquired + 1))
            && (w.Ask? ==>
                  && w.end == anchor && w.start + SECONDS_PER_DAY <= w.end && w.end - w.start <= chunk * SECONDS_PER_DAY
                  && Midnight(h.acquired) <= w.start
                  && (HistoryInterval(w.start, now) == Daily ==> w.end < HourlyCeiling(now) + SECONDS_PER_DAY)
                  && (|| w.start == Midnight(h.acquired) || w.start == anchor - chunk * SECONDS_PER_DAY
                      || w.start == HourlyCeiling(now)))
  {
    var day := DayOf(anchor);
    assert day > h.acquired ==> anchor >= Midnight(h.acquired) + SECONDS_PER_DAY;
  }

  // ---- What the store has seen ----

  ghost predicate IsOldestOf(oldest: Option<int>, points: set<Point>, symbol: string) {
    if oldest.None? then forall p :: p in points ==> p.symbol != symbol
    else
      && OldestMemo.Attained(symbol, oldest.value, points)
      && forall p :: p in points && p.symbol == symbol ==> oldest.value <= p.ts
  }

  function PricedOf(points: set<Point>, symbol: string): set<Point> {
    set p | p in points && p.symbol == symbol && p.native.Some?
  }

  ghost predicate IsNewestOf(newest: Option<int>, points: set<Point>, symbol: string) {
    if newest.None? then PricedOf(points, symbol) == {}
    else
      && OldestMemo.Attained(symbol, newest.value, PricedOf(points, symbol))
      && forall p :: p in PricedOf(points, symbol) ==> p.ts <= newest.value
  }

  ghost predicate StoredBy(points: set<Point>, symbol: string, day: int) {
    exists p :: p in points && p.symbol == symbol && DayOf(p.ts) <= day
  }

  /** The series or a window tried goes back to that day. */
  ghost predicate Reached(b: Book, symbol: string, day: int) {
    var tried := QuoteOf(b.quotes, symbol).oldestTried;
    (tried.Some? && tried.value <= day) || StoredBy(b.points, symbol, day)
  }

  ghost predicate StoredFrom(points: set<Point>, symbol: string, day: int) {
    exists p :: p in points && p.symbol == symbol && p.native.Some? && day <= DayOf(p.ts)
  }

  /** A stored price or a window tried comes up to that day. */
  ghost predicate Covered(b: Book, symbol: string, day: int) {
    var tried := QuoteOf(b.quotes, symbol).newestTried;
    (tried.Some? && day <= tried.value) || StoredFrom(b.points, symbol, day)
  }

  /** The backward anchor is the earliest of the ceiling, the oldest point and the midnight of the window tried. */
  lemma AnchorIsEarliest(ceiling: int, oldest: Option<int>, tried: Option<int>)
    ensures var a := BackwardAnchor(ceiling, oldest, tried);
            && a <= ceiling && (oldest.Some? ==> a <= oldest.value) && (tried.Some? ==> a <= 86400 * tried.value)
            && (a == ceiling || oldest == Some(a) || (tried.Some? && a == 86400 * tried.value))
    ensures var f := ForwardAnchor(oldest, tried);
            && (f.None? <==> oldest.None? && tried.None?)
            && (oldest.Some? ==> f.value >= oldest.value) && (tried.Some? ==> f.value >= 86400 * tried.value)
            && (f.Some? ==> f == oldest || (tried.Some? && f.value == 86400 * tried.value))
  {
  }

  lemma AnchorDay(b: Book, symbol: string, ceiling: int, oldest: Option<int>, day: int)
    requires IsOldestOf(oldest, b.points, symbol)
    ensures DayOf(BackwardAnchor(ceiling, oldest, QuoteOf(b.quotes, symbol).oldestTried)) <= day
       <==> Reached(b, symbol, day) || DayOf(ceiling) <= day
  {
    var tried := QuoteOf(b.quotes, symbol).oldestTried;
    if oldest.Some? {
      assert StoredBy(b.points, symbol, day) <==> DayOf(oldest.value) <= day;
    }
  }

  /** A symbol is finished exactly when its acquisition was reached, or its holding has no day behind it yet. */
  lemma TerminalIff(b: Book, symbol: string, h: Holding, now: int, oldest: Option<int>)
    requires IsOldestOf(oldest, b.points, symbol)
    ensures IsTerminal(BackwardAnchor(CeilingOf(h, now), oldest, QuoteOf(b.quotes, symbol).oldestTried),
                       Midnight(h.acquired))
       <==> Reached(b, symbol, h.acquired) || DayOf(CeilingOf(h, now)) <= h.acquired
  {
    AnchorDay(b, symbol, CeilingOf(h, now), oldest, h.acquired);
  }

  /** It then stays finished at every later instant if and only if it was reached, or left before it was acquired. */
  lemma StaysTerminalIff(b: Book, symbol: string, h: Holding, now: int, oldest: Option<int>)
    requires IsOldestOf(oldest, b.points, symbol)
    ensures (forall later :: later >= now ==>
               IsTerminal(BackwardAnchor(CeilingOf(h, later), oldest, QuoteOf(b.quotes, symbol).oldestTried),
                          Midnight(h.acquired)))
       <==> Reached(b, symbol, h.acquired) || (h.exited.Some? && h.exited.value < h.acquired)
  {
    forall later ensures
      IsTerminal(BackwardAnchor(CeilingOf(h, later), oldest, QuoteOf(b.quotes, symbol).oldestTried),
                 Midnight(h.acquired))
      <==> Reached(b, symbol, h.acquired) || DayOf(CeilingOf(h, later)) <= h.acquired
    {
      TerminalIff(b, symbol, h, later, oldest);
    }
    var late := if now > Midnight(h.acquired + 1) then now else Midnight(h.acquired + 1);
    assert DayOf(late) > h.acquired;
    assert h.exited.None? ==> CeilingOf(h, late) == late;
    assert h.exited.Some? ==> DayOf(CeilingOf(h, late)) == h.exited.value + 1;
  }

  /** A symbol bought today, of which nothing is stored, is finished for the day and asks again from the next. */
  lemma AcquiredTodayResumes(symbol: string, now: int, later: int)
    requires DayOf(now) < DayOf(later)
    ensures IsOldestOf(None, EMPTY_BOOK.points, symbol)
    ensures var h, tried := Holding(DayOf(now), None), QuoteOf(EMPTY_BOOK.quotes, symbol).oldestTried;
            && IsTerminal(BackwardAnchor(CeilingOf(h, now), None, tried), Midnight(h.acquired))
            && !IsTerminal(BackwardAnchor(CeilingOf(h, later), None, tried), Midnight(h.acquired))
  {
    var h := Holding(DayOf(now), None);
    TerminalIff(EMPTY_BOOK, symbol, h, now, None);
    TerminalIff(EMPTY_BOOK, symbol, h, later, None);
    assert !Reached(EMPTY_BOOK, symbol, h.acquired);
  }

  // ---- Nothing written takes a reached day back ----

  lemma ChunkKeepsReached(points: set<Point>, symbol: string, rows: seq<Fetched>, next: nat, s: string, day: int)
    requires rows != [] && StoredBy(points, s, day)
    ensures StoredBy(Chunked(points, symbol, rows, next), s, day)
  {
    var after := Chunked(points, symbol, rows, next);
    var p :| p in points && p.symbol == s && DayOf(p.ts) <= day;
    if p !in after {
      var i :| 0 <= i < |rows| && rows[i].ts == OldestIn(rows);
      var first := PointOf(symbol, rows[i], next + i);
      assert first in Inserted(symbol, rows, next);
      assert first in after && first.ts <= p.ts;
    }
  }

  lemma ChunkKeepsCovered(points: set<Point>, symbol: string, rows: seq<Fetched>, next: nat, s: string, day: int)
    requires rows != [] && (forall i :: 0 <= i < |rows| ==> rows[i].price.Some?) && StoredFrom(points, s, day)
    ensures StoredFrom(Chunked(points, symbol, rows, next), s, day)
  {
    var after := Chunked(points, symbol, rows, next);
    var p :| p in points && p.symbol == s && p.native.Some? && day <= DayOf(p.ts);
    if p !in after {
      var last := NewestWritten(symbol, rows, next);
      assert last in after && p.ts <= last.ts;
    }
  }

  lemma HistoryKeeps(b: Book, symbol: string, fetched: seq<Fetched>, s: string, day: int)
    ensures Reached(b, s, day) ==> Reached(Historied(b, symbol, fetched), s, day)
    ensures Covered(b, s, day) ==> Covered(Historied(b, symbol, fetched), s, day)
  {
    hide StoredBy, StoredFrom, Inserted, Outside;
    var rows := Priced(fetched);
    if rows != [] {
      assert Historied(b, symbol, fetched).points == Chunked(b.points, symbol, rows, b.next);
      if StoredBy(b.points, s, day) {
        ChunkKeepsReached(b.points, symbol, rows, b.next, s, day);
      }
      if StoredFrom(b.points, s, day) {
        ChunkKeepsCovered(b.points, symbol, rows, b.next, s, day);
      }
    }
  }

  lemma RepairKeeps(b: Book, symbol: string, factors: map<int, real>, b': Book, s: string, day: int)
    requires IsRepair(b, symbol, factors, b')
    ensures Reached(b, s, day) ==> Reached(b', s, day)
    ensures Covered(b, s, day) ==> Covered(b', s, day)
  {
    hide Reached, Covered, StoredBy, StoredFrom, Hits, Repaired, MovedTo;
    RepairedKeeps(b.points, symbol, factors, s, day);
    RepairKeepsTried(b, symbol, factors, b', s);
    assert b'.points == b.points || b'.points == Repaired(b.points, symbol, factors);
    SameTriedKeeps(b, b', s, day);
  }

  lemma RepairKeepsTried(b: Book, symbol: string, factors: map<int, real>, b': Book, s: string)
    requires IsRepair(b, symbol, factors, b')
    ensures QuoteOf(b'.quotes, s).oldestTried == QuoteOf(b.quotes, s).oldestTried
    ensures QuoteOf(b'.quotes, s).newestTried == QuoteOf(b.quotes, s).newestTried
  {
  }

  lemma SameTriedKeeps(b: Book, b': Book, s: string, day: int)
    requires QuoteOf(b'.quotes, s).oldestTried == QuoteOf(b.quotes, s).oldestTried
    requires QuoteOf(b'.quotes, s).newestTried == QuoteOf(b.quotes, s).newestTried
    requires StoredBy(b.points, s, day) ==> StoredBy(b'.points, s, day)
    requires StoredFrom(b.points, s, day) ==> StoredFrom(b'.points, s, day)
    ensures Reached(b, s, day) ==> Reached(b', s, day)
    ensures Covered(b, s, day) ==> Covered(b', s, day)
  {
  }

  lemma RepairedKeeps(points: set<Point>, symbol: string, factors: map<int, real>, s: string, day: int)
    ensures StoredBy(points, s, day) ==> StoredBy(Repaired(points, symbol, factors), s, day)
    ensures StoredFrom(points, s, day) ==> StoredFrom(Repaired(points, symbol, factors), s, day)
  {
    if StoredBy(points, s, day) {
      var p :| p in points && p.symbol == s && DayOf(p.ts) <= day;
      var p' := StillThere(points, symbol, factors, p);
    }
    if StoredFrom(points, s, day) {
      var p :| p in points && p.symbol == s && p.native.Some? && day <= DayOf(p.ts);
      var p' := StillThere(points, symbol, factors, p);
      assert p'.native.Some?;
    }
  }

  lemma ObserveKeeps(b: Book, symbol: string, ts: int, native: Option<real>, converted: Option<real>,
                     rate: Option<real>, s: string, day: int)
    ensures Reached(b, s, day) ==> Reached(Quoted(b, symbol, ts, native, converted, rate), s, day)
    ensures Covered(b, s, day) ==> Covered(Quoted(b, symbol, ts, native, converted, rate), s, day)
  {
    var b' := Quoted(b, symbol, ts, native, converted, rate);
    assert b.points <= b'.points;
    assert StoredBy(b.points, s, day) ==> StoredBy(b'.points, s, day);
    assert StoredFrom(b.points, s, day) ==> StoredFrom(b'.points, s, day);
  }

  lemma WriteKeeps(b: Book, symbol: string, w: Write, b': Book, s: string, day: int)
    requires Follows(b, symbol, w, b')
    ensures Reached(b, s, day) ==> Reached(b', s, day)
    ensures Covered(b, s, day) ==> Covered(b', s, day)
  {
    match w
    case Observe(ts, native, converted, rate) => ObserveKeeps(b, symbol, ts, native, converted, rate, s, day);
    case Fetch(rows) => HistoryKeeps(b, symbol, rows, s, day);
    case Repair(factors) => RepairKeeps(b, symbol, factors, b', s, day);
    case _ =>
  }

  // ---- Ageing ----

  lemma {:induction false} StrongestOf(points: set<Point>) returns (best: Point)
    requires points != {}
    ensures best in points && forall p :: p in points ==> !Better(p, best)
  {
    var p :| p in points;
    if points == {p} {
      best := p;
    } else {
      var rest := StrongestOf(points - {p});
      best := if Better(p, rest) then p else rest;
      assert points == (points - {p}) + {p};
    }
  }

  /** A point that a pass removes leaves one of its own symbol and UTC day behind. */
  lemma AgeLeavesTheDay(points: set<Point>, now: int, p: Point) returns (kept: Point)
    requires p in points
    ensures kept in Collapsed(points, now) && kept.symbol == p.symbol && DayOf(kept.ts) == DayOf(p.ts)
  {
    var place := set q | q in points && RetentionLadder.SamePlace(p, q, now);
    if place == {} {
      kept := p;
      assert forall q :: q in points && RetentionLadder.SamePlace(p, q, now) ==> q in place;
    } else {
      kept := StrongestOf(place);
      RetentionLadder.SamePlaceSameDay(p, kept, now);
      forall q | q in points && RetentionLadder.SamePlace(kept, q, now) ensures !Better(q, kept) {
        assert q in place;
      }
    }
    RetentionLadder.KeptIffBest(points, now, kept);
  }

  /** A priced point on or after the day that nothing better shares a place with. */
  ghost predicate PricedStands(points: set<Point>, now: int, symbol: string, day: int) {
    exists p :: p in points && p.symbol == symbol && p.native.Some? && day <= DayOf(p.ts)
                && RetentionLadder.Unrivalled(points, now, p)
  }

  /**
   * Ageing leaves a price on or after a day if and only if a priced point from that day on is the best of its place.
   */
  lemma AgeKeepsPriceIff(points: set<Point>, now: int, symbol: string, day: int)
    ensures StoredFrom(Collapsed(points, now), symbol, day) <==> PricedStands(points, now, symbol, day)
  {
    hide Collapsed;
    var after := Collapsed(points, now);
    forall p ensures p in after <==> p in points && RetentionLadder.Unrivalled(points, now, p) {
      RetentionLadder.KeptIffBest(points, now, p);
    }
    if StoredFrom(after, symbol, day) {
      var p :| p in after && p.symbol == symbol && p.native.Some? && day <= DayOf(p.ts);
      assert RetentionLadder.Unrivalled(points, now, p);
    }
    if PricedStands(points, now, symbol, day) {
      var p :| p in points && p.symbol == symbol && p.native.Some? && day <= DayOf(p.ts)
               && RetentionLadder.Unrivalled(points, now, p);
      assert p in after;
    }
  }

  /** No unpriced point of the symbol could take the place of a priced one on or after the day. */
  ghost predicate NoBlankFrom(points: set<Point>, symbol: string, day: int) {
    forall p :: p in points && p.symbol == symbol && day <= DayOf(p.ts) ==> p.native.Some?
  }

  /** In particular where the symbol, whatever the others hold, has no unpriced point from that day on. */
  lemma NoBlankKeepsPrice(points: set<Point>, now: int, symbol: string, day: int)
    requires NoBlankFrom(points, symbol, day) && StoredFrom(points, symbol, day)
    ensures PricedStands(points, now, symbol, day)
  {
    hide Collapsed;
    var p :| p in points && p.symbol == symbol && p.native.Some? && day <= DayOf(p.ts);
    var kept := AgeLeavesTheDay(points, now, p);
    RetentionLadder.CollapsedIsSubset(points, now);
    RetentionLadder.KeptIffBest(points, now, kept);
    assert RetentionLadder.Unrivalled(points, now, kept);
  }

  /**
   * Ageing takes back no day reached; and a day covered if and only
   * if its tried window or an unrivalled price covers it.
   */
  lemma AgeKeeps(b: Book, now: int, s: string, day: int)
    ensures var b', tried := b.(points := Collapsed(b.points, now)), QuoteOf(b.quotes, s).newestTried;
            && (Reached(b, s, day) <==> Reached(b', s, day))
            && (Covered(b', s, day) <==> (tried.Some? && day <= tried.value) || PricedStands(b.points, now, s, day))
  {
    hide Collapsed;
    var b' := b.(points := Collapsed(b.points, now));
    AgeKeepsPriceIff(b.points, now, s, day);
    RetentionLadder.CollapsedIsSubset(b.points, now);
    if StoredBy(b.points, s, day) {
      var p :| p in b.points && p.symbol == s && DayOf(p.ts) <= day;
      var kept := AgeLeavesTheDay(b.points, now, p);
      assert StoredBy(b'.points, s, day);
    }
  }

  /** Over a point without a price, ageing may drop the priced one it outlives: the newest price then moves back. */
  lemma AgeingMayUncover()
    ensures exists b, now :: Covered(b, "A", 0) && !Covered(b.(points := Collapsed(b.points, now)), "A", 0)
  {
    var priced := Point(0, "A", 0, Some(1.0), None, None);
    var blank := Point(1, "A", 60, None, None, None);
    var b := Book({priced, blank}, 2, map[]);
    var now := 731 * SECONDS_PER_DAY;
    assert priced in b.points && DayOf(priced.ts) == 0;
    assert RetentionLadder.SamePlace(priced, blank, now) && Better(blank, priced);
    AgeKeeps(b, now, "A", 0);
    assert !RetentionLadder.Unrivalled(b.points, now, priced);
    assert Covered(b, "A", 0) && !Covered(b.(points := Collapsed(b.points, now)), "A", 0);
  }

  // ---- The passes, as the store sees them ----

  /** The backward pass after an answered window: what came is written, then the window's first day is remembered. */
  function BackwardPassed(b: Book, symbol: string, fetched: seq<Fetched>, start: int): Book {
    BackwardTried(Historied(b, symbol, fetched), symbol, DayOf(start))
  }

  function ForwardPassed(b: Book, symbol: string, fetched: seq<Fetched>, end: int): Book {
    ForwardTried(Historied(b, symbol, fetched), symbol, DayOf(end))
  }

  /** An answered pass stores every priced row it was answered, as it was, and loses nothing outside their span. */
  lemma PassStores(b: Book, symbol: string, fetched: seq<Fetched>, start: int, end: int)
    ensures forall b' ::
              b' == BackwardPassed(b, symbol, fetched, start) || b' == ForwardPassed(b, symbol, fetched, end) ==>
                && (forall i :: StoreLaws.HasPrice(fetched, i) ==>
                      exists p :: p in b'.points && StoreLaws.Says(p, symbol, fetched[i]))
                && forall p :: p in b.points && !(p.symbol == symbol && StoreLaws.Spanned(fetched, p.ts)) ==>
                     p in b'.points
  {
    hide Historied, StoreLaws.HasPrice, StoreLaws.Says, StoreLaws.Spanned;
    StoreLaws.ChunkTells(b, symbol, fetched);
  }

  /** One answered backward pass: whatever it stored, it goes back one day further than it was. */
  lemma BackwardAdvances(b: Book, symbol: string, h: Holding, now: int, chunk: nat, fetched: seq<Fetched>,
                         oldest: Option<int>, day: int)
    requires chunk >= 1 && IsOldestOf(oldest, b.points, symbol)
    requires var w := BackwardWindow(BackwardAnchor(CeilingOf(h, now), oldest, QuoteOf(b.quotes, symbol).oldestTried),
                                     h, now, chunk);
             w.Ask?
    requires Reached(b, symbol, day) || DayOf(CeilingOf(h, now)) <= day
    ensures !Reached(b, symbol, h.acquired)
    ensures var w := BackwardWindow(BackwardAnchor(CeilingOf(h, now), oldest, QuoteOf(b.quotes, symbol).oldestTried),
                                    h, now, chunk);
            var b' := BackwardPassed(b, symbol, fetched, w.start);
            Reached(b', symbol, day - 1) && day - 1 >= h.acquired
  {
    var anchor := BackwardAnchor(CeilingOf(h, now), oldest, QuoteOf(b.quotes, symbol).oldestTried);
    AnchorDay(b, symbol, CeilingOf(h, now), oldest, day);
    TerminalIff(b, symbol, h, now, oldest);
    BackwardWindowFits(anchor, h, now, chunk);
    var start := BackwardWindow(anchor, h, now, chunk).start;
    hide BackwardWindow, BackwardAnchor, CeilingOf, IsOldestOf, Reached, HistoryInterval;
    TriedReaches(Historied(b, symbol, fetched), symbol, DayOf(start), day - 1);
  }

  lemma TriedReaches(b: Book, symbol: string, tried: int, day: int)
    requires tried <= day
    ensures Reached(BackwardTried(b, symbol, tried), symbol, day)
  {
  }

  lemma ForwardAnchorDay(b: Book, symbol: string, newest: Option<int>, day: int)
    requires IsNewestOf(newest, b.points, symbol)
    ensures var anchor := ForwardAnchor(newest, QuoteOf(b.quotes, symbol).newestTried);
            Covered(b, symbol, day) <==> anchor.Some? && day <= DayOf(anchor.value)
  {
    if newest.Some? {
      var top :| top in PricedOf(b.points, symbol) && top.symbol == symbol && top.ts == newest.value;
      if StoredFrom(b.points, symbol, day) {
        var p :| p in b.points && p.symbol == symbol && p.native.Some? && day <= DayOf(p.ts);
        assert p in PricedOf(b.points, symbol);
      }
    } else {
      assert forall p :: p in b.points && p.symbol == symbol && p.native.Some? ==> p in PricedOf(b.points, symbol);
    }
  }

  /** One answered forward pass: whatever it stored, its window comes up one day further, and was short of now. */
  lemma ForwardAdvances(b: Book, symbol: string, now: int, chunk: nat, fetched: seq<Fetched>, newest: Option<int>,
                        day: int)
    requires chunk >= 1 && IsNewestOf(newest, b.points, symbol)
    requires ForwardWindow(ForwardAnchor(newest, QuoteOf(b.quotes, symbol).newestTried), now, chunk).Some?
    requires Covered(b, symbol, day)
    ensures var w := ForwardWindow(ForwardAnchor(newest, QuoteOf(b.quotes, symbol).newestTried), now, chunk).value;
            TriedFrom(ForwardPassed(b, symbol, fetched, w.1), symbol, day + 1) && day + 1 <= DayOf(now)
  {
    var anchor := ForwardAnchor(newest, QuoteOf(b.quotes, symbol).newestTried);
    ForwardAnchorDay(b, symbol, newest, day);
    ForwardWindowFits(anchor, now, chunk);
  }

  // ---- Whole runs ----

  datatype Gesture =
    | Written(symbol: string, write: Write)
    | Aged(at: int)
    | Backward(at: int, chunk: nat, fetched: seq<Fetched>, edge: Option<int>)
    | Forward(at: int, chunk: nat, fetched: seq<Fetched>, edge: Option<int>)

  /** One gesture on the store, the passes being those of one symbol. */
  ghost predicate Leads(b: Book, symbol: string, h: Holding, g: Gesture, b': Book) {
    match g
    case Written(s, w) => Follows(b, s, w, b')
    case Aged(at) => b' == b.(points := Collapsed(b.points, at))
    case Backward(at, chunk, fetched, oldest) =>
      && chunk >= 1 && IsOldestOf(oldest, b.points, symbol)
      && var w := BackwardWindow(BackwardAnchor(CeilingOf(h, at), oldest, QuoteOf(b.quotes, symbol).oldestTried),
                                 h, at, chunk);
         w.Ask? && b' == BackwardPassed(b, symbol, fetched, w.start)
    case Forward(at, chunk, fetched, newest) =>
      && chunk >= 1 && IsNewestOf(newest, b.points, symbol)
      && var w := ForwardWindow(ForwardAnchor(newest, QuoteOf(b.quotes, symbol).newestTried), at, chunk);
         w.Some? && b' == ForwardPassed(b, symbol, fetched, w.value.1)
  }

  ghost predicate Life(books: seq<Book>, gestures: seq<Gesture>, symbol: string, h: Holding) {
    && |books| == |gestures| + 1
    && forall i :: 0 <= i < |gestures| ==> Leads(books[i], symbol, h, gestures[i], books[i + 1])
  }

  /** A window tried comes up to that day, whatever the series holds. */
  predicate TriedFrom(b: Book, symbol: string, day: int) {
    var tried := QuoteOf(b.quotes, symbol).newestTried;
    tried.Some? && day <= tried.value
  }

  /** Nothing that happens to the store takes back a day reached or a window tried. */
  lemma LeadsKeeps(b: Book, symbol: string, h: Holding, g: Gesture, b': Book, s: string, day: int)
    requires Leads(b, symbol, h, g, b')
    ensures Reached(b, s, day) ==> Reached(b', s, day)
    ensures TriedFrom(b, s, day) ==> TriedFrom(b', s, day)
    ensures !g.Aged? && Covered(b, s, day) ==> Covered(b', s, day)
  {
    hide Reached, Covered, Historied, BackwardTried, ForwardTried, Collapsed;
    LeadsKeepsTried(b, symbol, h, g, b', s, day);
    match g
    case Written(w, write) => WriteKeeps(b, w, write, b', s, day);
    case Aged(at) => AgeKeeps(b, at, s, day);
    case Backward(_, _, fetched, _) =>
      HistoryKeeps(b, symbol, fetched, s, day);
      TriedKeeps(Historied(b, symbol, fetched), symbol, b', s, day);
    case Forward(_, _, fetched, _) =>
      HistoryKeeps(b, symbol, fetched, s, day);
      TriedKeeps(Historied(b, symbol, fetched), symbol, b', s, day);
  }

  lemma LeadsKeepsTried(b: Book, symbol: string, h: Holding, g: Gesture, b': Book, s: string, day: int)
    requires Leads(b, symbol, h, g, b')
    ensures TriedFrom(b, s, day) ==> TriedFrom(b', s, day)
  {
    hide Collapsed, MovedTo, Chunked, Inserted, Outside, Hits, BackwardWindow, ForwardWindow, IsOldestOf, IsNewestOf;
    if g.Written? && g.write.Repair? {
      RepairKeepsTried(b, g.symbol, g.write.factors, b', s);
    }
  }

  lemma TriedKeeps(b: Book, symbol: string, b': Book, s: string, day: int)
    requires exists d :: b' == BackwardTried(b, symbol, d) || b' == ForwardTried(b, symbol, d)
    ensures Reached(b, s, day) ==> Reached(b', s, day)
    ensures Covered(b, s, day) ==> Covered(b', s, day)
  {
  }

  lemma {:induction false} StaysReached(books: seq<Book>, gestures: seq<Gesture>, symbol: string, h: Holding, m: nat,
                                        n: nat)
    requires Life(books, gestures, symbol, h) && m <= n < |books|
    requires Reached(books[m], symbol, h.acquired)
    ensures Reached(books[n], symbol, h.acquired)
  {
    hide Leads, Reached;
    if m < n {
      StaysReached(books, gestures, symbol, h, m, n - 1);
      LeadsKeeps(books[n - 1], symbol, h, gestures[n - 1], books[n], symbol, h.acquired);
    }
  }

  /** Once the acquisition day is reached, the symbol is finished under every later write, at every instant. */
  lemma ReachedStaysTerminal(books: seq<Book>, gestures: seq<Gesture>, symbol: string, h: Holding,
                             m: nat, n: nat, now: int, oldest: Option<int>)
    requires Life(books, gestures, symbol, h) && m <= n < |books|
    requires Reached(books[m], symbol, h.acquired) && IsOldestOf(oldest, books[n].points, symbol)
    ensures IsTerminal(BackwardAnchor(CeilingOf(h, now), oldest, QuoteOf(books[n].quotes, symbol).oldestTried),
                       Midnight(h.acquired))
  {
    hide Leads, Reached;
    StaysReached(books, gestures, symbol, h, m, n);
    TerminalIff(books[n], symbol, h, now, oldest);
  }

  function BackwardCount(gestures: seq<Gesture>, n: nat): nat
    requires n <= |gestures|
  {
    if n == 0 then 0 else BackwardCount(gestures, n - 1) + (if gestures[n - 1].Backward? then 1 else 0)
  }

  function ForwardCount(gestures: seq<Gesture>, n: nat): nat
    requires n <= |gestures|
  {
    if n == 0 then 0 else ForwardCount(gestures, n - 1) + (if gestures[n - 1].Forward? then 1 else 0)
  }

  lemma BackwardGesture(b: Book, symbol: string, h: Holding, g: Gesture, b': Book, day: int)
    requires g.Backward? && Leads(b, symbol, h, g, b')
    requires Reached(b, symbol, day) || DayOf(CeilingOf(h, g.at)) <= day
    ensures Reached(b', symbol, day - 1) && day - 1 >= h.acquired
  {
    hide Reached, BackwardWindow, BackwardAnchor, IsOldestOf, BackwardPassed;
    BackwardAdvances(b, symbol, h, g.at, g.chunk, g.fetched, g.edge, day);
  }

  lemma ForwardGesture(b: Book, symbol: string, h: Holding, g: Gesture, b': Book, day: int)
    requires g.Forward? && Leads(b, symbol, h, g, b') && Covered(b, symbol, day)
    ensures TriedFrom(b', symbol, day + 1) && day + 1 <= DayOf(g.at)
  {
    hide Covered, ForwardWindow, ForwardAnchor, IsNewestOf, Historied;
    ForwardAdvances(b, symbol, g.at, g.chunk, g.fetched, g.edge, day);
  }

  /** Answered backward passes are no more than the days between the acquisition and the last ceiling. */
  lemma {:induction false} BackwardEnds(books: seq<Book>, gestures: seq<Gesture>, symbol: string, h: Holding, top: int,
                                        n: nat)
    requires Life(books, gestures, symbol, h) && n <= |gestures|
    requires forall i :: 0 <= i < n && gestures[i].Backward? ==> DayOf(CeilingOf(h, gestures[i].at)) <= top
    ensures var count := BackwardCount(gestures, n);
            count > 0 ==> Reached(books[n], symbol, top - count) && count <= top - h.acquired
  {
    hide Reached, Leads;
    if n > 0 {
      BackwardEnds(books, gestures, symbol, h, top, n - 1);
      var before, g := BackwardCount(gestures, n - 1), gestures[n - 1];
      if g.Backward? {
        BackwardGesture(books[n - 1], symbol, h, g, books[n], top - before);
      } else if before > 0 {
        LeadsKeeps(books[n - 1], symbol, h, g, books[n], symbol, top - before);
      }
    }
  }

  /** A pass that asks something asks from a day the symbol is covered to. */
  lemma AskedFromCovered(b: Book, symbol: string, h: Holding, g: Gesture, b': Book)
    requires g.Forward? && Leads(b, symbol, h, g, b')
    ensures var anchor := ForwardAnchor(g.edge, QuoteOf(b.quotes, symbol).newestTried);
            anchor.Some? && Covered(b, symbol, DayOf(anchor.value))
  {
    var anchor := ForwardAnchor(g.edge, QuoteOf(b.quotes, symbol).newestTried);
    ForwardAnchorDay(b, symbol, g.edge, DayOf(anchor.value));
  }

  /**
   * From any answered forward pass on, among any other gestures, ageing included: answered passes are no more than the
   * days between where that one resumed and the last `now`.
   */
  lemma {:induction false} ForwardEnds(books: seq<Book>, gestures: seq<Gesture>, symbol: string, h: Holding,
                                       top: int, m: nat, n: nat)
    requires Life(books, gestures, symbol, h) && m < n <= |gestures| && gestures[m].Forward?
    requires forall i :: m <= i < n && gestures[i].Forward? ==> DayOf(gestures[i].at) <= top
    ensures var anchor := ForwardAnchor(gestures[m].edge, QuoteOf(books[m].quotes, symbol).newestTried);
            var count := ForwardCount(gestures, n) - ForwardCount(gestures, m);
            && anchor.Some? && count <= top - DayOf(anchor.value)
            && TriedFrom(books[n], symbol, DayOf(anchor.value) + count)
  {
    hide Covered, Leads, ForwardAnchor;
    var g := gestures[n - 1];
    AskedFromCovered(books[m], symbol, h, gestures[m], books[m + 1]);
    var day := DayOf(ForwardAnchor(gestures[m].edge, QuoteOf(books[m].quotes, symbol).newestTried).value);
    if n == m + 1 {
      ForwardGesture(books[m], symbol, h, g, books[n], day);
    } else {
      ForwardEnds(books, gestures, symbol, h, top, m, n - 1);
      var before := ForwardCount(gestures, n - 1) - ForwardCount(gestures, m);
      if g.Forward? {
        TriedIsCovered(books[n - 1], symbol, day + before);
        ForwardGesture(books[n - 1], symbol, h, g, books[n], day + before);
      } else {
        LeadsKeeps(books[n - 1], symbol, h, g, books[n], symbol, day + before);
      }
    }
  }

  lemma TriedIsCovered(b: Book, symbol: string, day: int)
    requires TriedFrom(b, symbol, day)
    ensures Covered(b, symbol, day)
  {
  }

  // ---- The passes and the read, on the store ----

  method OldestOf(points: set<Point>, symbol: string) returns (oldest: Option<int>)
    ensures IsOldestOf(oldest, points, symbol)
  {
    oldest := None;
    var todo := points;
    while todo != {}
      invariant todo <= points && IsOldestOf(oldest, points - todo, symbol)
    {
      var p := Pick(todo);
      ghost var seen := points - todo;
      todo := todo - {p};
      assert points - todo == seen + {p};
      if p.symbol == symbol && (oldest.None? || p.ts < oldest.value) {
        oldest := Some(p.ts);
        assert OldestMemo.Attained(symbol, p.ts, points - todo);
      } else if oldest.Some? {
        assert OldestMemo.Attained(symbol, oldest.value, points - todo);
      }
    }
    assert points - todo == points;
  }

  method NewestOf(points: set<Point>, symbol: string) returns (newest: Option<int>)
    ensures IsNewestOf(newest, points, symbol)
  {
    newest := None;
    var priced := PricedOf(points, symbol);
    var todo := priced;
    while todo != {}
      invariant todo <= priced
      invariant newest.None? ==> todo == priced
      invariant newest.Some? ==> OldestMemo.Attained(symbol, newest.value, priced)
      invariant newest.Some? ==> forall p :: p in priced - todo ==> p.ts <= newest.value
    {
      var p := Pick(todo);
      todo := todo - {p};
      if newest.None? || p.ts > newest.value {
        newest := Some(p.ts);
        assert OldestMemo.Attained(symbol, p.ts, priced);
      }
    }
  }

  /** One backward pass: `answer` is what the market returned, absent when the request failed. */
  method BackwardPass(store: Store, symbol: string, h: Holding, now: int, chunk: nat, answer: Option<seq<Fetched>>)
    returns (asked: bool, ghost oldest: Option<int>)
    requires chunk >= 1
    modifies store
    ensures IsOldestOf(oldest, old(store.points), symbol)
    ensures var b := old(store.State());
            var w := BackwardWindow(BackwardAnchor(CeilingOf(h, now), oldest, QuoteOf(b.quotes, symbol).oldestTried),
                                    h, now, chunk);
            && asked == w.Ask?
            && store.State() == if !w.Ask? then b
                                else if answer.None? then BackwardFailed(b, symbol, now)
                                else BackwardPassed(b, symbol, answer.value, w.start)
  {
    var stored := OldestOf(store.points, symbol);
    oldest := stored;
    var tried := if symbol in store.quotes then store.quotes[symbol].oldestTried else None;
    var turn := BackwardWindow(BackwardAnchor(CeilingOf(h, now), stored, tried), h, now, chunk);
    asked := turn.Ask?;
    if turn.Ask? && answer.Some? {
      var written := store.RecordHistory(symbol, answer.value);
      store.RecordWindowTried(symbol, DayOf(turn.start));
    } else if turn.Ask? {
      store.RecordBackwardFailure(symbol, now);
    }
  }

  method ForwardPass(store: Store, symbol: string, now: int, chunk: nat, answer: Option<seq<Fetched>>)
    returns (asked: bool, ghost newest: Option<int>)
    requires chunk >= 1
    modifies store
    ensures IsNewestOf(newest, old(store.points), symbol)
    ensures var b := old(store.State());
            var w := ForwardWindow(ForwardAnchor(newest, QuoteOf(b.quotes, symbol).newestTried), now, chunk);
            && asked == w.Some?
            && store.State() == if w.Some? && answer.Some? then ForwardPassed(b, symbol, answer.value, w.value.1) else b
  {
    var stored := NewestOf(store.points, symbol);
    newest := stored;
    var tried := if symbol in store.quotes then store.quotes[symbol].newestTried else None;
    var window := ForwardWindow(ForwardAnchor(stored, tried), now, chunk);
    asked := window.Some?;
    if window.Some? && answer.Some? {
      var written := store.RecordHistory(symbol, answer.value);
      store.RecordForwardWindowTried(symbol, DayOf(window.value.1));
    }
  }

  /** The finished symbols, read through the memo's answer. */
  method TerminalSymbols(windows: map<string, Holding>, oldest: OldestMemo.Answer, b: Book, now: int)
    returns (finished: set<string>)
    requires OldestMemo.IsOldest(oldest, b.points)
    ensures forall s :: s in finished <==>
              && s in windows
              && (Reached(b, s, windows[s].acquired) || DayOf(CeilingOf(windows[s], now)) <= windows[s].acquired)
  {
    finished := {};
    var todo := windows.Keys;
    while todo != {}
      invariant todo <= windows.Keys
      invariant forall s :: s in finished <==>
                  s in windows.Keys - todo
                  && (Reached(b, s, windows[s].acquired) || DayOf(CeilingOf(windows[s], now)) <= windows[s].acquired)
    {
      var s := Pick(todo);
      todo := todo - {s};
      var h := windows[s];
      var stored := if s in oldest then Some(oldest[s]) else None;
      TerminalIff(b, s, h, now, stored);
      var tried := if s in b.quotes then b.quotes[s].oldestTried else None;
      if IsTerminal(BackwardAnchor(CeilingOf(h, now), stored, tried), Midnight(h.acquired)) {
        finished := finished + {s};
      }
    }
  }

  /** History is sold by the hour for 730 days, and a window is cut a day short of that. */
  lemma IntervalTells(start: int, now: int)
    ensures HistoryInterval(start, now) == Hourly <==> now - start < 730 * 86400
    ensures HourlyCeiling(now) == now - 729 * 86400
    ensures forall h: Holding ::
              CeilingOf(h, now) == if h.exited.None? then now else 86400 * (h.exited.value + 1)
  {
  }
}
