/** What a ledger comes to: the shares of every position, replayed in order. */
module Aggregator {
  import opened Basics
  import opened Ledger

  /** The shares held, and all those ever acquired. */
  datatype Position = Position(quantity: real, acquired: real)

  const NOTHING := Position(0.0, 0.0)

  /** Under this share of what was acquired, a position is dust. */
  const DUST_FRACTION := 0.000000001

  function Dust(p: Position): real {
    DUST_FRACTION * p.acquired
  }

  function QuantityOf(e: Event): real {
    if e.quantity.Some? then e.quantity.value else 0.0
  }

  /** One sale: refused past what is held and its dust, and emptying a position it leaves as dust. */
  function Sold(p: Position, quantity: real): Option<Position> {
    if quantity > p.quantity + Dust(p) then None
    else
      var left := p.quantity - (if quantity < p.quantity then quantity else p.quantity);
      Some(p.(quantity := if left <= Dust(p) then 0.0 else left))
  }

  function Applied(p: Position, e: Event): Option<Position> {
    match e.kind
    case Buy => Some(Position(p.quantity + QuantityOf(e), p.acquired + QuantityOf(e)))
    case Grant => Some(Position(p.quantity + QuantityOf(e), p.acquired + QuantityOf(e)))
    case Sell => Sold(p, QuantityOf(e))
    case _ => Some(p)
  }

  predicate Concerns(e: Event, account: string, symbol: Option<string>) {
    NamedAccount(e.account) == account && e.symbol == symbol
  }

  /** A position after some events, nothing once one of them was refused. */
  function PositionOf(events: seq<Event>, account: string, symbol: Option<string>): Option<Position> {
    if events == [] then Some(NOTHING)
    else
      var before, e := PositionOf(events[..|events| - 1], account, symbol), events[|events| - 1];
      if before.None? || !Concerns(e, account, symbol) then before else Applied(before.value, e)
  }

  ghost predicate Replays(events: seq<Event>) {
    forall account, symbol :: PositionOf(events, account, symbol).Some?
  }

  /** Quantities are those of a validated ledger. */
  predicate Countable(events: seq<Event>) {
    forall i :: 0 <= i < |events| ==> QuantityOf(events[i]) >= 0.0
  }

  /** No position is ever short, nor more than was acquired. */
  lemma {:induction false} NeverShort(events: seq<Event>, account: string, symbol: Option<string>)
    requires Countable(events)
    ensures var p := PositionOf(events, account, symbol);
            p.Some? ==> 0.0 <= p.value.quantity <= p.value.acquired
  {
    if events != [] {
      NeverShort(events[..|events| - 1], account, symbol);
    }
  }

  // ---- What the shares of a position come to ----

  predicate Adds(e: Event) {
    e.kind == Buy || e.kind == Grant
  }

  /** Every share bought or granted. */
  function AcquiredIn(events: seq<Event>, account: string, symbol: Option<string>): real {
    if events == [] then 0.0
    else
      var e := events[|events| - 1];
      AcquiredIn(events[..|events| - 1], account, symbol)
      + (if Concerns(e, account, symbol) && Adds(e) && e.quantity.Some? then e.quantity.value else 0.0)
  }

  function SoldIn(events: seq<Event>, account: string, symbol: Option<string>): real {
    if events == [] then 0.0
    else
      var e := events[|events| - 1];
      SoldIn(events[..|events| - 1], account, symbol)
      + (if Concerns(e, account, symbol) && e.kind == Sell && e.quantity.Some? then e.quantity.value else 0.0)
  }

  function SalesIn(events: seq<Event>, account: string, symbol: Option<string>): nat {
    if events == [] then 0
    else
      var e := events[|events| - 1];
      SalesIn(events[..|events| - 1], account, symbol)
      + (if Concerns(e, account, symbol) && e.kind == Sell then 1 else 0)
  }

  /** So many billionths of what was acquired. */
  function DustOf(sales: nat, acquired: real): real {
    sales as real * (0.000000001 * acquired)
  }

  /**
   * The shares held are those acquired less those sold, but for the dust: a billionth of what was acquired for each
   * sale. With no sale they are exactly those acquired.
   */
  lemma {:induction false} SharesAreConserved(events: seq<Event>, account: string, symbol: Option<string>)
    requires Countable(events)
    ensures var p := PositionOf(events, account, symbol);
            var acquired, sales := AcquiredIn(events, account, symbol), SalesIn(events, account, symbol);
            p.Some? ==>
              && p.value.acquired == acquired >= 0.0
              && Abs(p.value.quantity - (acquired - SoldIn(events, account, symbol))) <= DustOf(sales, acquired)
              && (sales == 0 ==> p.value.quantity == acquired)
  {
    hide Sold, DustOf;
    var sales, acquired := SalesIn(events, account, symbol), AcquiredIn(events, account, symbol);
    if events == [] {
      MoreDust(0, 0.0, 0.0);
    } else {
      var n := |events| - 1;
      var e, before := events[n], PositionOf(events[..n], account, symbol);
      SharesAreConserved(events[..n], account, symbol);
      NeverShort(events[..n], account, symbol);
      if before.Some? {
        MoreDust(SalesIn(events[..n], account, symbol), AcquiredIn(events[..n], account, symbol), acquired);
        if Concerns(e, account, symbol) && e.kind == Sell {
          SoldUpToDust(before.value, QuantityOf(e));
        }
      }
    }
  }

  lemma SoldUpToDust(p: Position, quantity: real)
    requires 0.0 <= p.quantity <= p.acquired && quantity >= 0.0
    ensures var left := Sold(p, quantity);
            left.Some? ==>
              && left.value.acquired == p.acquired
              && Abs(left.value.quantity - (p.quantity - quantity)) <= 0.000000001 * p.acquired
  {
  }

  lemma MoreDust(sales: nat, before: real, acquired: real)
    requires 0.0 <= before <= acquired
    ensures 0.0 <= DustOf(sales, before) <= DustOf(sales, acquired)
    ensures DustOf(sales + 1, acquired) == DustOf(sales, acquired) + 0.000000001 * acquired
  {
    ProductOfNonNegatives(sales as real, 0.000000001 * before);
    ProductOfNonNegatives(sales as real, 0.000000001 * (acquired - before));
  }

  /**
   * A sale is refused exactly when it asks for more than is held and a billionth of what was acquired; one that goes
   * through takes what it asks for, or all there is, and what it leaves is none or more than that billionth.
   */
  lemma SaleTells(events: seq<Event>, e: Event, account: string, symbol: Option<string>)
    requires Countable(events + [e]) && e.kind == Sell && Concerns(e, account, symbol)
    requires PositionOf(events, account, symbol).Some?
    ensures var held := PositionOf(events, account, symbol).value.quantity;
            var dust := 0.000000001 * AcquiredIn(events, account, symbol);
            var asked := if e.quantity.Some? then e.quantity.value else 0.0;
            var after := PositionOf(events + [e], account, symbol);
            && (after.None? <==> asked > held + dust)
            && (after.Some? ==>
                  after.value.quantity == if held - asked <= dust then 0.0 else held - asked)
  {
    assert (events + [e])[..|events|] == events;
    assert forall i :: 0 <= i < |events| ==> (events + [e])[i] == events[i];
    assert QuantityOf((events + [e])[|events|]) >= 0.0;
    SharesAreConserved(events, account, symbol);
    NeverShort(events, account, symbol);
    hide Countable;
  }

  /** What comes after a refusal does not undo it, and events replay one run after the other. */
  lemma {:induction false} PositionOfBoth(a: seq<Event>, b: seq<Event>, account: string, symbol: Option<string>)
    requires forall i :: 0 <= i < |b| ==> !Concerns(b[i], account, symbol)
    ensures PositionOf(a + b, account, symbol) == PositionOf(a, account, symbol)
  {
    if b == [] {
      assert a + b == a;
    } else {
      PositionOfBoth(a, b[..|b| - 1], account, symbol);
      assert (a + b)[..|a| + |b| - 1] == a + b[..|b| - 1];
    }
  }

  /** A position is what the map holds, nothing when it is absent. */
  predicate Tracks(m: map<(string, Option<string>), Position>, events: seq<Event>, account: string,
                   symbol: Option<string>)
  {
    PositionOf(events, account, symbol) == Some(if (account, symbol) in m then m[(account, symbol)] else NOTHING)
  }

  /** The replay: every position at once, or nothing when one sale is refused. */
  method Replay(events: seq<Event>) returns (positions: Option<map<(string, Option<string>), Position>>)
    ensures positions.Some? <==> Replays(events)
    ensures positions.Some? ==> forall account, symbol :: Tracks(positions.value, events, account, symbol)
  {
    var m: map<(string, Option<string>), Position> := map[];
    for i := 0 to |events|
      invariant forall account, symbol :: Tracks(m, events[..i], account, symbol)
    {
      var e := events[i];
      var key := (NamedAccount(e.account), e.symbol);
      var before := if key in m then m[key] else NOTHING;
      var after := Applied(before, e);
      assert events[..i + 1][..i] == events[..i] && events[..i + 1][i] == e;
      assert Tracks(m, events[..i], key.0, key.1);
      if after.None? {
        assert PositionOf(events[..i + 1], key.0, key.1).None?;
        RefusalStands(events, i + 1, key.0, key.1);
        return None;
      }
      ghost var m' := m;
      m := m[key := after.value];
      ghost var seen := events[..i + 1];
      forall account, symbol ensures Tracks(m, seen, account, symbol) {
        assert Tracks(m', events[..i], account, symbol);
      }
    }
    assert events[..|events|] == events;
    forall account, symbol ensures PositionOf(events, account, symbol).Some? {
      assert Tracks(m, events, account, symbol);
    }
    positions := Some(m);
  }

  /** A refused sale refuses every ledger it begins. */
  lemma {:induction false} RefusalStands(events: seq<Event>, n: nat, account: string, symbol: Option<string>)
    requires n <= |events| && PositionOf(events[..n], account, symbol).None?
    ensures PositionOf(events, account, symbol).None?
    decreases |events|
  {
    if n == |events| {
      assert events[..n] == events;
    } else {
      var shorter := events[..|events| - 1];
      assert shorter[..n] == events[..n];
      RefusalStands(shorter, n, account, symbol);
    }
  }

  /** Same events but for their keys, same shares. */
  predicate SameBut(a: Event, b: Event) {
    a.(id := None) == b.(id := None)
  }

  lemma {:induction false} KeysDoNotCount(a: seq<Event>, b: seq<Event>, account: string, symbol: Option<string>)
    requires |a| == |b| && forall i :: 0 <= i < |a| ==> SameBut(a[i], b[i])
    ensures PositionOf(a, account, symbol) == PositionOf(b, account, symbol)
  {
    forall i | 0 <= i < |a| ensures SameShares(a[i], b[i]) {
      assert SameBut(a[i], b[i]);
    }
    SharesAlike(a, b, account, symbol);
  }

  /** The same shares of the same position, whatever else the events say. */
  predicate SameShares(a: Event, b: Event) {
    && a.kind == b.kind && a.symbol == b.symbol && a.quantity == b.quantity
    && NamedAccount(a.account) == NamedAccount(b.account)
  }

  lemma {:induction false} SharesAlike(a: seq<Event>, b: seq<Event>, account: string, symbol: Option<string>)
    requires |a| == |b| && forall i :: 0 <= i < |a| ==> SameShares(a[i], b[i])
    ensures PositionOf(a, account, symbol) == PositionOf(b, account, symbol)
  {
    if a != [] {
      var n := |a| - 1;
      SharesAlike(a[..n], b[..n], account, symbol);
      assert SameShares(a[n], b[n]);
    }
  }
}
