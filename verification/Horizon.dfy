/** The days an account's figures may be written on: everything outside the days one of its holdings has no price. */
module Horizon {
  import opened Basics

  /** When a symbol was held: from its acquisition to the last day it was. */
  datatype Window = Window(acquired: int, lastHeld: int)

  /** What the horizon is computed from; a symbol absent of `oldestPriced` has no price at all. */
  datatype Holdings = Holdings(
    windows: map<string, Window>, oldestPriced: map<string, int>, settled: set<string>, carriedFrom: map<string, int>)

  datatype Span = Span(first: Option<int>, last: Option<int>)

  /** The symbol was held that day, past its first quote, with no price that day or before. */
  predicate Hole(a: Holdings, symbol: string, day: int) {
    && symbol in a.windows && symbol !in a.settled
    && a.windows[symbol].acquired <= day <= a.windows[symbol].lastHeld
    && (symbol in a.carriedFrom ==> a.carriedFrom[symbol] <= day)
    && (symbol in a.oldestPriced ==> day < a.oldestPriced[symbol])
  }

  ghost predicate Blocked(a: Holdings, day: int) {
    exists s :: Hole(a, s, day)
  }

  ghost predicate NothingBlocked(a: Holdings) {
    forall day :: !Blocked(a, day)
  }

  /** The greatest day up to the ceiling outside every hole. */
  ghost predicate GreatestFree(a: Holdings, ceiling: int, last: int) {
    last <= ceiling && !Blocked(a, last) && forall d :: last < d <= ceiling ==> Blocked(a, d)
  }

  ghost predicate FreeUpTo(a: Holdings, last: int) {
    forall d :: d <= last ==> !Blocked(a, d)
  }

  /** `first` is the first day of the free run that ends on `last`. */
  ghost predicate OpensRun(a: Holdings, first: int, last: int) {
    first <= last && Blocked(a, first - 1) && forall d :: first <= d <= last ==> !Blocked(a, d)
  }

  ghost predicate IsHorizon(a: Holdings, start: int, ceiling: int, h: Span) {
    if NothingBlocked(a) then h == Span(None, None)
    else exists last :: GreatestFree(a, ceiling, last) && Bounds(a, start, ceiling, last, h)
  }

  ghost predicate Bounds(a: Holdings, start: int, ceiling: int, last: int, h: Span) {
    if last < start then
      && h.last.None? && h.first.Some? && Blocked(a, h.first.value - 1)
      && forall d :: h.first.value <= d ==> !Blocked(a, d)
    else
      && h.last == (if last == ceiling then None else Some(last))
      && if h.first.None? then FreeUpTo(a, last) else OpensRun(a, h.first.value, last)
  }

  /** The inputs decide the horizon. */
  lemma OneHorizon(a: Holdings, start: int, ceiling: int, h: Span, k: Span)
    requires IsHorizon(a, start, ceiling, h) && IsHorizon(a, start, ceiling, k)
    ensures h == k
  {
    if !NothingBlocked(a) {
      var l :| GreatestFree(a, ceiling, l) && Bounds(a, start, ceiling, l, h);
      var m :| GreatestFree(a, ceiling, m) && Bounds(a, start, ceiling, m, k);
      assert l == m;
      assert h.first.Some? && k.first.Some? ==> Blocked(a, h.first.value - 1) && Blocked(a, k.first.value - 1);
    }
  }

  predicate Writable(h: Span, ceiling: int, day: int) {
    (h.first.Some? ==> h.first.value <= day) && day <= (if h.last.Some? then h.last.value else ceiling)
  }

  /**
   * What a horizon promises: no writable day is a hole, the run cannot be extended on either side, and `first` is
   * past the ceiling exactly when the whole of `[start, ceiling]` is blocked.
   */
  lemma HorizonIsExact(a: Holdings, start: int, ceiling: int, h: Span)
    requires IsHorizon(a, start, ceiling, h) && start <= ceiling
    ensures forall d :: Writable(h, ceiling, d) ==> !Blocked(a, d)
    ensures h.first.Some? ==> Blocked(a, h.first.value - 1)
    ensures h.last.Some? ==>
              start <= h.last.value < ceiling && forall d :: h.last.value < d <= ceiling ==> Blocked(a, d)
    ensures h.first.Some? && h.first.value > ceiling <==> forall d :: start <= d <= ceiling ==> Blocked(a, d)
    ensures h.first == None && h.last == None <==> FreeUpTo(a, ceiling)
  {
    if !NothingBlocked(a) {
      var last :| GreatestFree(a, ceiling, last) && Bounds(a, start, ceiling, last, h);
      assert last < ceiling ==> Blocked(a, last + 1);
      if last < start {
        assert Blocked(a, ceiling) && h.first.value > ceiling;
      } else {
        assert h.first.Some? ==> Blocked(a, h.first.value - 1) && h.first.value <= last;
      }
    } else {
      assert !Blocked(a, start);
    }
  }

  // ---- The computation ----

  /** The hole of one symbol as an interval, absent when it is empty. */
  function HoleOf(a: Holdings, symbol: string): (r: Option<(int, int)>)
    requires symbol in a.windows
    ensures r.Some? ==> r.value.0 <= r.value.1
    ensures forall d :: Hole(a, symbol, d) <==> r.Some? && r.value.0 <= d <= r.value.1
  {
    var w := a.windows[symbol];
    if symbol in a.settled then None
    else
      var quoted := if symbol in a.carriedFrom then a.carriedFrom[symbol] else w.acquired;
      var first := if quoted > w.acquired then quoted else w.acquired;
      var unpriced := if symbol in a.oldestPriced && a.oldestPriced[symbol] - 1 < w.lastHeld
                      then a.oldestPriced[symbol] - 1 else w.lastHeld;
      if unpriced < first then None else Some((first, unpriced))
  }

  predicate Covers(blocked: seq<(int, int)>, day: int) {
    exists i :: 0 <= i < |blocked| && blocked[i].0 <= day <= blocked[i].1
  }

  /** The intervals block the same days as the holdings do. */
  ghost predicate Blocks(blocked: seq<(int, int)>, a: Holdings) {
    && (forall i :: 0 <= i < |blocked| ==> blocked[i].0 <= blocked[i].1)
    && forall d :: Covers(blocked, d) <==> Blocked(a, d)
  }

  ghost predicate HoleAmong(a: Holdings, symbols: set<string>, day: int) {
    exists s :: s in symbols && Hole(a, s, day)
  }

  lemma OneMoreHole(a: Holdings, seen: set<string>, symbol: string, blocked: seq<(int, int)>, hole: Option<(int, int)>)
    requires symbol in a.windows && hole == HoleOf(a, symbol)
    requires forall d :: Covers(blocked, d) <==> HoleAmong(a, seen, d)
    ensures var blocked' := if hole.Some? then blocked + [hole.value] else blocked;
            forall d :: Covers(blocked', d) <==> HoleAmong(a, seen + {symbol}, d)
  {
    var blocked' := if hole.Some? then blocked + [hole.value] else blocked;
    forall d ensures Covers(blocked', d) <==> HoleAmong(a, seen + {symbol}, d) {
      assert HoleAmong(a, seen + {symbol}, d) <==> HoleAmong(a, seen, d) || Hole(a, symbol, d);
      if Covers(blocked, d) {
        var i :| 0 <= i < |blocked| && blocked[i].0 <= d <= blocked[i].1;
        assert blocked'[i] == blocked[i];
      }
      if hole.Some? {
        assert blocked'[|blocked|] == hole.value;
        assert forall i :: 0 <= i < |blocked| ==> blocked'[i] == blocked[i];
      }
    }
  }

  method BlockedOf(a: Holdings) returns (blocked: seq<(int, int)>)
    ensures Blocks(blocked, a)
  {
    blocked := [];
    var todo := a.windows.Keys;
    while todo != {}
      invariant todo <= a.windows.Keys
      invariant forall i :: 0 <= i < |blocked| ==> blocked[i].0 <= blocked[i].1
      invariant forall d :: Covers(blocked, d) <==> HoleAmong(a, a.windows.Keys - todo, d)
    {
      var s := Pick(todo);
      var hole := HoleOf(a, s);
      OneMoreHole(a, a.windows.Keys - todo, s, blocked, hole);
      assert a.windows.Keys - (todo - {s}) == (a.windows.Keys - todo) + {s};
      todo := todo - {s};
      if hole.Some? {
        blocked := blocked + [hole.value];
      }
    }
    forall d ensures HoleAmong(a, a.windows.Keys - todo, d) <==> Blocked(a, d) {
      if Blocked(a, d) {
        var s :| Hole(a, s, d);
        assert s in a.windows.Keys - todo;
      }
    }
  }

  /** The last day of some intervals, past which none blocks. */
  method LastOf(blocked: seq<(int, int)>) returns (last: int)
    requires blocked != []
    ensures exists i :: 0 <= i < |blocked| && blocked[i].1 == last
    ensures forall i :: 0 <= i < |blocked| ==> blocked[i].1 <= last
  {
    last := blocked[0].1;
    for k := 1 to |blocked|
      invariant exists i :: 0 <= i < k && blocked[i].1 == last
      invariant forall i :: 0 <= i < k ==> blocked[i].1 <= last
    {
      if blocked[k].1 > last {
        last := blocked[k].1;
      }
    }
  }

  method FirstOf(blocked: seq<(int, int)>) returns (first: int)
    requires blocked != []
    ensures forall i :: 0 <= i < |blocked| ==> first <= blocked[i].0
  {
    first := blocked[0].0;
    for k := 1 to |blocked|
      invariant forall i :: 0 <= i < k ==> first <= blocked[i].0
    {
      if blocked[k].0 < first {
        first := blocked[k].0;
      }
    }
  }

  /** The fixpoint: step back over every interval that covers the day, until none does. */
  method LastFree(blocked: seq<(int, int)>, ceiling: int) returns (last: int)
    requires blocked != []
    requires forall i :: 0 <= i < |blocked| ==> blocked[i].0 <= blocked[i].1
    ensures last <= ceiling && !Covers(blocked, last)
    ensures forall d :: last < d <= ceiling ==> Covers(blocked, d)
  {
    ghost var low := FirstOf(blocked);
    last := ceiling;
    var moved := true;
    while moved
      invariant last <= ceiling && (last == ceiling || low - 1 <= last)
      invariant forall d :: last < d <= ceiling ==> Covers(blocked, d)
      invariant !moved ==> !Covers(blocked, last)
      decreases if last >= low then last - low + 1 else 0, moved
    {
      moved := false;
      ghost var before := last;
      for i := 0 to |blocked|
        invariant last <= before && (last == ceiling || low - 1 <= last)
        invariant moved <==> last < before
        invariant moved ==> before >= low
        invariant forall d :: last < d <= ceiling ==> Covers(blocked, d)
        invariant !moved ==> forall k :: 0 <= k < i ==> !(blocked[k].0 <= last <= blocked[k].1)
      {
        if blocked[i].0 <= last <= blocked[i].1 {
          assert forall d :: blocked[i].0 <= d <= last ==> Covers(blocked, d);
          last := blocked[i].0 - 1;
          moved := true;
        }
      }
    }
  }

  method AccountHorizon(a: Holdings, start: int, ceiling: int) returns (h: Span)
    ensures IsHorizon(a, start, ceiling, h)
  {
    var blocked := BlockedOf(a);
    if blocked == [] {
      return Span(None, None);
    }
    assert Covers(blocked, blocked[0].0);
    var last := LastFree(blocked, ceiling);
    assert GreatestFree(a, ceiling, last);
    if last < start {
      var end := LastOf(blocked);
      assert Covers(blocked, end);
      h := Span(Some(end + 1), None);
      assert Bounds(a, start, ceiling, last, h);
      return;
    }
    var left := EndedBy(blocked, last);
    var first := None;
    if left != [] {
      var end := LastOf(left);
      assert Covers(blocked, end);
      first := Some(end + 1);
    }
    h := Span(first, if last >= ceiling then None else Some(last));
    assert Bounds(a, start, ceiling, last, h);
  }

  /** The intervals over by that day. */
  method EndedBy(blocked: seq<(int, int)>, last: int) returns (left: seq<(int, int)>)
    ensures forall p :: p in left <==> p in blocked && p.1 <= last
  {
    left := [];
    for i := 0 to |blocked|
      invariant forall p :: p in left <==> p in blocked[..i] && p.1 <= last
    {
      if blocked[i].1 <= last {
        left := left + [blocked[i]];
      }
    }
  }

  /** A blocked day: some symbol held, not settled, past where it is carried from, and with no price up to then. */
  lemma BlockedTells(a: Holdings, day: int)
    ensures Blocked(a, day) <==>
              exists s ::
                && s in a.windows && s !in a.settled && a.windows[s].acquired <= day <= a.windows[s].lastHeld
                && !(s in a.carriedFrom && day < a.carriedFrom[s])
                && !(s in a.oldestPriced && a.oldestPriced[s] <= day)
  {
    if Blocked(a, day) {
      var s :| Hole(a, s, day);
    }
    if s :| && s in a.windows && s !in a.settled && a.windows[s].acquired <= day <= a.windows[s].lastHeld
            && !(s in a.carriedFrom && day < a.carriedFrom[s]) && !(s in a.oldestPriced && a.oldestPriced[s] <= day)
    {
      assert Hole(a, s, day);
    }
  }
}
