/** A broker's statement of positions against the ledger: the gap events that bring the one to the other. */
module Statements {
  import opened Basics
  import opened Ledger
  import opened Aggregator
  import opened Entries

  /** Fewer shares than this is no gap. */
  const DUST := 0.000001

  /** One line of the statement; a line of cash waits for no title. */
  datatype Line = Line(n: nat, symbol: Option<string>, quantity: Option<real>, unitPrice: Option<real>, cash: bool)

  datatype Source = FromStatement | FromOwner | FromClose | Unpriced

  /** One proposed event: a purchase when the gap is above zero, else a sale. */
  datatype Drafted = Drafted(symbol: string, gap: real, price: Option<real>, source: Source)

  datatype Reading = Reading(drafted: seq<Drafted>, unresolved: seq<Line>, pendingHeld: nat, dropped: nat)

  datatype Refusal =
    | NotWaiting(n: nat) | NotATicker(n: nat) | NoDate | BadPrice(symbol: string)
    | NothingToPrice(symbols: set<string>) | BrokenLedger

  // ---- The lines ----

  predicate Unresolved(line: Line) {
    line.symbol.None? && !line.cash
  }

  predicate Usable(line: Line) {
    line.quantity.Some? && line.quantity.value > 0.0
  }

  function Readable(lines: seq<Line>): (r: seq<Line>)
    ensures forall line :: line in r <==> line in lines && Usable(line)
    ensures |r| <= |lines|
  {
    if lines == [] then []
    else
      var n := |lines| - 1;
      assert lines == lines[..n] + [lines[n]];
      Readable(lines[..n]) + (if Usable(lines[n]) then [lines[n]] else [])
  }

  function Waiting(lines: seq<Line>): (r: seq<Line>)
    ensures forall line :: line in r <==> line in lines && Unresolved(line)
  {
    if lines == [] then []
    else
      var n := |lines| - 1;
      assert lines == lines[..n] + [lines[n]];
      Waiting(lines[..n]) + (if Unresolved(lines[n]) then [lines[n]] else [])
  }

  /** The lines with the tickers the owner chose; a choice is absent when its text spells no ticker. */
  function WithChosen(lines: seq<Line>, chosen: map<nat, Option<string>>): (r: seq<Line>)
    requires forall n :: n in chosen ==> chosen[n].Some?
    ensures |r| == |lines|
    ensures forall i :: 0 <= i < |r| ==>
              r[i] == if lines[i].n in chosen then lines[i].(symbol := chosen[lines[i].n]) else lines[i]
  {
    seq(|lines|, i requires 0 <= i < |lines| =>
      if lines[i].n in chosen then lines[i].(symbol := chosen[lines[i].n]) else lines[i])
  }

  // ---- What the statement wants ----

  datatype Slot = Slot(quantity: real, unitPrice: Option<real>)

  function Wanted(lines: seq<Line>): map<string, Slot> {
    if lines == [] then map[]
    else
      var before, line := Wanted(lines[..|lines| - 1]), lines[|lines| - 1];
      if line.symbol.None? then before
      else
        var slot := if line.symbol.value in before then before[line.symbol.value] else Slot(0.0, None);
        before[line.symbol.value := AddLine(slot, line)]
  }

  function AddLine(slot: Slot, line: Line): Slot {
    Slot(slot.quantity + (if line.quantity.Some? then line.quantity.value else 0.0),
         if slot.unitPrice.None? && line.unitPrice.Some? && line.unitPrice.value > 0.0 then line.unitPrice
         else slot.unitPrice)
  }

  /** The shares a statement gives a title, over all its lines. */
  function StatedShares(lines: seq<Line>, symbol: string): real {
    if lines == [] then 0.0
    else
      var line := lines[|lines| - 1];
      StatedShares(lines[..|lines| - 1], symbol)
      + (if line.symbol == Some(symbol) && line.quantity.Some? then line.quantity.value else 0.0)
  }

  /** A title is wanted when a line names it, for the sum of its lines. */
  lemma {:induction false} WantedIsStated(lines: seq<Line>, symbol: string)
    requires forall line :: line in lines ==> Usable(line)
    ensures symbol in Wanted(lines) <==> exists line :: line in lines && line.symbol == Some(symbol)
    ensures symbol in Wanted(lines) ==> Wanted(lines)[symbol].quantity == StatedShares(lines, symbol) > 0.0
    ensures symbol !in Wanted(lines) ==> StatedShares(lines, symbol) == 0.0
  {
    if lines != [] {
      var n := |lines| - 1;
      assert lines == lines[..n] + [lines[n]];
      WantedIsStated(lines[..n], symbol);
      assert lines[n] in lines && Usable(lines[n]);
    }
  }

  // ---- What the ledger holds at the close of the day ----

  predicate Counts(e: Event, account: string, day: int) {
    NamedAccount(e.account) == account && e.date <= day
  }

  function Closing(events: seq<Event>, account: string, day: int): (r: seq<Event>)
    ensures Countable(events) ==> Countable(r)
  {
    if events == [] then []
    else
      var n := |events| - 1;
      assert Countable(events) ==> Countable(events[..n]) && QuantityOf(events[n]) >= 0.0;
      Closing(events[..n], account, day) + (if Counts(events[n], account, day) then [events[n]] else [])
  }

  function Standing(events: seq<Event>, account: string, day: int, symbol: string): Option<Position> {
    PositionOf(Closing(events, account, day), account, Some(symbol))
  }

  /** The shares that count as held, dust apart. */
  function Shares(p: Position): real {
    if p.quantity >= DUST then p.quantity else 0.0
  }

  ghost predicate IsHeld(held: map<string, real>, events: seq<Event>, account: string, day: int) {
    forall s ::
      && Standing(events, account, day, s).Some?
      && Shares(Standing(events, account, day, s).value) == (if s in held then held[s] else 0.0)
      && (s in held ==> held[s] >= DUST)
  }

  method CloseOf(events: seq<Event>, account: string, day: int) returns (closing: seq<Event>)
    ensures closing == Closing(events, account, day)
  {
    closing := [];
    for i := 0 to |events|
      invariant closing == Closing(events[..i], account, day)
    {
      assert events[..i + 1][..i] == events[..i];
      if Counts(events[i], account, day) {
        closing := closing + [events[i]];
      }
    }
    assert events[..|events|] == events;
  }

  method Held(events: seq<Event>, account: string, day: int) returns (held: Option<map<string, real>>)
    requires Countable(events)
    ensures held.Some? <==> Replays(Closing(events, account, day))
    ensures held.Some? ==> IsHeld(held.value, events, account, day)
  {
    var closing := CloseOf(events, account, day);
    var positions := Replay(closing);
    if positions.None? {
      return None;
    }
    var m := positions.value;
    var shares := map k | k in m.Keys && k.0 == account && k.1.Some? && m[k].quantity >= DUST ::
      k.1.value := m[k].quantity;
    forall s ensures Standing(events, account, day, s).Some?
                     && Shares(Standing(events, account, day, s).value) == (if s in shares then shares[s] else 0.0)
                     && (s in shares ==> shares[s] >= DUST)
    {
      assert Tracks(m, closing, account, Some(s));
      assert s in shares <==> (account, Some(s)) in m && m[(account, Some(s))].quantity >= DUST;
    }
    held := Some(shares);
  }

  // ---- The gap ----

  function Gap(wanted: map<string, Slot>, held: map<string, real>, symbol: string): real {
    (if symbol in wanted then wanted[symbol].quantity else 0.0) - (if symbol in held then held[symbol] else 0.0)
  }

  function PriceFor(slot: Option<Slot>, chosen: map<string, real>, close: string -> Option<real>,
                    symbol: string): (Option<real>, Source)
  {
    if symbol in chosen then (Some(chosen[symbol]), FromOwner)
    else if slot.Some? && slot.value.unitPrice.Some? then (slot.value.unitPrice, FromStatement)
    else if close(symbol).Some? && close(symbol).value != 0.0 then (close(symbol), FromClose)
    else (None, Unpriced)
  }

  function SlotOf(wanted: map<string, Slot>, symbol: string): Option<Slot> {
    if symbol in wanted then Some(wanted[symbol]) else None
  }

  function DraftFor(wanted: map<string, Slot>, held: map<string, real>, chosen: map<string, real>,
                    close: string -> Option<real>, symbol: string): Drafted
  {
    var (price, source) := PriceFor(SlotOf(wanted, symbol), chosen, close, symbol);
    Drafted(symbol, Gap(wanted, held, symbol), price, source)
  }

  predicate Drafts(drafted: seq<Drafted>, symbol: string) {
    exists k :: 0 <= k < |drafted| && drafted[k].symbol == symbol
  }

  predicate OneEach(drafted: seq<Drafted>) {
    forall k, l :: 0 <= k < l < |drafted| ==> drafted[k].symbol != drafted[l].symbol
  }

  /** The drafted events over some titles: one for each gap that is not dust, at its price. */
  ghost predicate IsDraft(drafted: seq<Drafted>, wanted: map<string, Slot>, held: map<string, real>,
                          symbols: set<string>, chosen: map<string, real>, close: string -> Option<real>)
  {
    && OneEach(drafted)
    && (forall k :: 0 <= k < |drafted| ==>
          && drafted[k] == DraftFor(wanted, held, chosen, close, drafted[k].symbol)
          && drafted[k].symbol in symbols && Abs(drafted[k].gap) >= DUST)
    && forall s :: s in symbols && Abs(Gap(wanted, held, s)) >= DUST ==> Drafts(drafted, s)
  }

  method DraftGaps(wanted: map<string, Slot>, held: map<string, real>, symbols: set<string>, chosen: map<string, real>,
                   close: string -> Option<real>) returns (drafted: seq<Drafted>)
    ensures IsDraft(drafted, wanted, held, symbols, chosen, close)
  {
    drafted := [];
    var todo := symbols;
    while todo != {}
      invariant todo <= symbols
      invariant IsDraft(drafted, wanted, held, symbols - todo, chosen, close)
    {
      var s := Pick(todo);
      ghost var seen, before := symbols - todo, drafted;
      todo := todo - {s};
      assert symbols - todo == seen + {s};
      if Abs(Gap(wanted, held, s)) >= DUST {
        drafted := drafted + [DraftFor(wanted, held, chosen, close, s)];
      }
      DraftGrows(before, drafted, wanted, held, seen, chosen, close, s);
    }
    assert symbols - todo == symbols;
  }

  lemma DraftGrows(before: seq<Drafted>, after: seq<Drafted>, wanted: map<string, Slot>, held: map<string, real>,
                   seen: set<string>, chosen: map<string, real>, close: string -> Option<real>, symbol: string)
    requires IsDraft(before, wanted, held, seen, chosen, close) && symbol !in seen
    requires after == if Abs(Gap(wanted, held, symbol)) >= DUST
                      then before + [DraftFor(wanted, held, chosen, close, symbol)] else before
    ensures IsDraft(after, wanted, held, seen + {symbol}, chosen, close)
  {
    forall s | s in seen + {symbol} && Abs(Gap(wanted, held, s)) >= DUST ensures Drafts(after, s) {
      if s in seen {
        var k :| 0 <= k < |before| && before[k].symbol == s;
        assert after[k].symbol == s;
      } else {
        assert after[|before|].symbol == s;
      }
    }
  }

  // ---- The reading ----

  /** A title the reading drafts: wanted, or held and absent of a statement whose every line has its title. */
  predicate HasGap(wanted: map<string, Slot>, held: map<string, real>, waiting: bool, symbol: string) {
    && (symbol in wanted || (symbol in held && !waiting))
    && Abs(Gap(wanted, held, symbol)) >= DUST
  }

  /** What a statement's lines come to against the ledger: a reading, or the refusal there is a reason for. */
  ghost predicate Answers(r: Result<Reading, Refusal>, account: string, asOf: Option<int>, readable: seq<Line>,
                          events: seq<Event>, chosen: map<string, real>, close: string -> Option<real>, dropped: nat)
  {
    if asOf.None? then r == Err(NoDate)
    else if !Replays(Closing(events, account, asOf.value)) then r == Err(BrokenLedger)
    else
      match r
      case Ok(reading) =>
        && reading.unresolved == Waiting(readable) && reading.dropped == dropped
        && (forall s :: s in chosen ==> chosen[s] > 0.0)
        && exists held :: IsReading(reading, account, asOf.value, readable, events, chosen, close, held)
      case Err(BadPrice(s)) => s in chosen && chosen[s] <= 0.0
      case Err(NothingToPrice(symbols)) =>
        && symbols != {}
        && exists held :: HaveNoGap(symbols, account, asOf.value, readable, events, chosen, held)
      case Err(_) => false
  }

  method Positions(account: string, asOf: Option<int>, readable: seq<Line>, events: seq<Event>,
                   chosen: map<string, real>, close: string -> Option<real>, dropped: nat)
    returns (r: Result<Reading, Refusal>)
    requires Countable(events)
    requires forall line :: line in readable ==> Usable(line)
    ensures Answers(r, account, asOf, readable, events, chosen, close, dropped)
  {
    hide Answers, IsDraft, IsReading, HaveNoGap, IsHeld, Replays;
    Refused(account, asOf, readable, events, chosen, close, dropped);
    if asOf.None? {
      return Err(NoDate);
    }
    var held := Held(events, account, asOf.value);
    if held.None? {
      return Err(BrokenLedger);
    }
    var wanted := WantedOf(readable);
    var unresolved := Waiting(readable);
    var absent := held.value.Keys - wanted.Keys;
    var pending := if unresolved != [] then |absent| else 0;
    var bad := set s | s in chosen && chosen[s] <= 0.0;
    if bad != {} {
      var s := Pick(bad);
      return Err(BadPrice(s));
    }
    assert forall s :: s in chosen ==> s !in bad;
    var scope := wanted.Keys + (if unresolved != [] then {} else absent);
    var drafted := DraftGaps(wanted, held.value, scope, chosen, close);
    var unknown := chosen.Keys - (set k | 0 <= k < |drafted| :: drafted[k].symbol);
    if unknown != {} {
      NoGapFor(drafted, held.value, scope, account, asOf.value, readable, events, chosen, close, unknown);
      return Err(NothingToPrice(unknown));
    }
    r := Ok(Reading(drafted, unresolved, pending, dropped));
    DraftIsReading(r.value, account, asOf.value, readable, events, chosen, close, held.value);
    Answered(r.value, account, asOf, readable, events, chosen, close, dropped, held.value);
  }

  /** The refusals there is a reason for. */
  lemma Refused(account: string, asOf: Option<int>, readable: seq<Line>, events: seq<Event>, chosen: map<string, real>,
                close: string -> Option<real>, dropped: nat)
    ensures asOf.None? ==> Answers(Err(NoDate), account, asOf, readable, events, chosen, close, dropped)
    ensures asOf.Some? && !Replays(Closing(events, account, asOf.value)) ==>
              Answers(Err(BrokenLedger), account, asOf, readable, events, chosen, close, dropped)
    ensures asOf.Some? && Replays(Closing(events, account, asOf.value)) ==>
              && (forall s :: s in chosen && chosen[s] <= 0.0 ==>
                    Answers(Err(BadPrice(s)), account, asOf, readable, events, chosen, close, dropped))
              && forall symbols, held ::
                   symbols != {} && HaveNoGap(symbols, account, asOf.value, readable, events, chosen, held) ==>
                     Answers(Err(NothingToPrice(symbols)), account, asOf, readable, events, chosen, close, dropped)
    ensures forall r :: Answers(r, account, asOf, readable, events, chosen, close, dropped) ==>
              r.Ok? || !(r.error.NotWaiting? || r.error.NotATicker?)
  {
    hide Replays, HaveNoGap, IsReading;
  }

  lemma Answered(reading: Reading, account: string, asOf: Option<int>, readable: seq<Line>, events: seq<Event>,
                 chosen: map<string, real>, close: string -> Option<real>, dropped: nat, held: map<string, real>)
    requires asOf.Some? && Replays(Closing(events, account, asOf.value))
    requires reading.unresolved == Waiting(readable) && reading.dropped == dropped
    requires forall s :: s in chosen ==> chosen[s] > 0.0
    requires IsReading(reading, account, asOf.value, readable, events, chosen, close, held)
    ensures Answers(Ok(reading), account, asOf, readable, events, chosen, close, dropped)
  {
    hide Replays, IsReading;
  }

  /** The prices an owner gave for titles with no gap to price. */
  ghost predicate HaveNoGap(symbols: set<string>, account: string, day: int, readable: seq<Line>, events: seq<Event>,
                            chosen: map<string, real>, held: map<string, real>)
  {
    && IsHeld(held, events, account, day)
    && forall s :: s in symbols <==> s in chosen && !HasGap(Wanted(readable), held, Waiting(readable) != [], s)
  }

  lemma DraftIsReading(reading: Reading, account: string, day: int, readable: seq<Line>, events: seq<Event>,
                       chosen: map<string, real>, close: string -> Option<real>, held: map<string, real>)
    requires var wanted, waiting := Wanted(readable), Waiting(readable) != [];
             && IsHeld(held, events, account, day)
             && reading.pendingHeld == (if waiting then |held.Keys - wanted.Keys| else 0)
             && IsDraft(reading.drafted, wanted, held, wanted.Keys + (if waiting then {} else held.Keys - wanted.Keys),
                        chosen, close)
    requires chosen.Keys - (set k | 0 <= k < |reading.drafted| :: reading.drafted[k].symbol) == {}
    ensures IsReading(reading, account, day, readable, events, chosen, close, held)
  {
    hide IsDraft, IsHeld;
    var drafted := reading.drafted;
    forall s | s in chosen ensures Drafts(drafted, s) {
      assert s !in chosen.Keys - (set k | 0 <= k < |drafted| :: drafted[k].symbol);
    }
  }

  /** A reading of the statement: every gap over its scope drafted, and every price given for one of them. */
  ghost predicate IsReading(reading: Reading, account: string, day: int, readable: seq<Line>, events: seq<Event>,
                            chosen: map<string, real>, close: string -> Option<real>, held: map<string, real>)
  {
    var wanted, waiting := Wanted(readable), Waiting(readable) != [];
    && IsHeld(held, events, account, day)
    && reading.pendingHeld == (if waiting then |held.Keys - wanted.Keys| else 0)
    && IsDraft(reading.drafted, wanted, held, wanted.Keys + (if waiting then {} else held.Keys - wanted.Keys), chosen,
               close)
    && forall s :: s in chosen ==> Drafts(reading.drafted, s)
  }

  /** The titles an owner's price names and no drafted event is of are those with no gap. */
  lemma NoGapFor(drafted: seq<Drafted>, held: map<string, real>, scope: set<string>, account: string, day: int,
                 readable: seq<Line>, events: seq<Event>, chosen: map<string, real>, close: string -> Option<real>,
                 unknown: set<string>)
    requires IsHeld(held, events, account, day) && IsDraft(drafted, Wanted(readable), held, scope, chosen, close)
    requires var wanted := Wanted(readable);
             scope == wanted.Keys + (if Waiting(readable) != [] then {} else held.Keys - wanted.Keys)
    requires unknown == chosen.Keys - set k | 0 <= k < |drafted| :: drafted[k].symbol
    ensures HaveNoGap(unknown, account, day, readable, events, chosen, held)
  {
    hide Gap, DraftFor, Wanted, IsHeld;
    var wanted, waiting := Wanted(readable), Waiting(readable) != [];
    forall s ensures Drafts(drafted, s) <==> HasGap(wanted, held, waiting, s) {
      if k :| 0 <= k < |drafted| && drafted[k].symbol == s {
        assert drafted[k] == DraftFor(wanted, held, chosen, close, drafted[k].symbol);
        DraftIsFor(wanted, held, chosen, close, s);
      }
    }
  }

  lemma DraftIsFor(wanted: map<string, Slot>, held: map<string, real>, chosen: map<string, real>,
                   close: string -> Option<real>, symbol: string)
    ensures var d := DraftFor(wanted, held, chosen, close, symbol);
            d.symbol == symbol && d.gap == Gap(wanted, held, symbol)
  {
  }

  method WantedOf(lines: seq<Line>) returns (wanted: map<string, Slot>)
    ensures wanted == Wanted(lines)
  {
    wanted := map[];
    for i := 0 to |lines|
      invariant wanted == Wanted(lines[..i])
    {
      assert lines[..i + 1][..i] == lines[..i];
      var line := lines[i];
      if line.symbol.None? {
        continue;
      }
      var slot := if line.symbol.value in wanted then wanted[line.symbol.value] else Slot(0.0, None);
      wanted := wanted[line.symbol.value := AddLine(slot, line)];
    }
    assert lines[..|lines|] == lines;
  }

  /** The line of that number waits for its title. */
  predicate Waits(lines: seq<Line>, n: nat) {
    exists line :: line in Waiting(lines) && line.n == n
  }

  /** The statement, the owner's edits and the ledger. */
  method Reconcile(account: string, asOf: Option<int>, lines: seq<Line>, dropped: nat,
                   symbols: map<nat, Option<string>>, prices: map<string, real>, events: seq<Event>,
                   close: string -> Option<real>)
    returns (r: Result<Reading, Refusal>)
    requires Countable(events)
    ensures match r
            case Err(NotWaiting(n)) => n in symbols && !Waits(lines, n)
            case Err(NotATicker(n)) => n in symbols && Waits(lines, n) && symbols[n].None?
            case _ =>
              && (forall n :: n in symbols ==> Waits(lines, n) && symbols[n].Some?)
              && var readable := Readable(WithChosen(lines, symbols));
                 Answers(r, account, asOf, readable, events, prices, close, dropped + |lines| - |readable|)
  {
    hide Answers;
    var waiting := set line | line in Waiting(lines) :: line.n;
    var todo := symbols.Keys;
    while todo != {}
      invariant todo <= symbols.Keys
      invariant forall n :: n in symbols && n !in todo ==> Waits(lines, n) && symbols[n].Some?
    {
      var n := Pick(todo);
      assert n in waiting <==> Waits(lines, n);
      if n !in waiting {
        return Err(NotWaiting(n));
      }
      if symbols[n].None? {
        return Err(NotATicker(n));
      }
      todo := todo - {n};
    }
    var readable := Readable(WithChosen(lines, symbols));
    Refused(account, asOf, readable, events, prices, close, dropped + |lines| - |readable|);
    r := Positions(account, asOf, readable, events, prices, close, dropped + |lines| - |readable|);
  }

  /** While a line waits for its title, no absent title is sold. */
  lemma NoAbsentSold(reading: Reading, account: string, day: int, readable: seq<Line>, events: seq<Event>,
                     chosen: map<string, real>, close: string -> Option<real>, held: map<string, real>, k: nat)
    requires IsReading(reading, account, day, readable, events, chosen, close, held)
    requires forall line :: line in readable ==> Usable(line)
    requires Waiting(readable) != [] && k < |reading.drafted|
    ensures exists line :: line in readable && line.symbol == Some(reading.drafted[k].symbol)
  {
    WantedIsStated(readable, reading.drafted[k].symbol);
  }

  /** The day closes on the account's events up to it, in the ledger's order. */
  lemma {:induction false} ClosingTells(events: seq<Event>, account: string, day: int, e: Event)
    ensures e in Closing(events, account, day) <==> e in events && NamedAccount(e.account) == account && e.date <= day
    ensures DateOrdered(events) ==> DateOrdered(Closing(events, account, day))
  {
    if events != [] {
      var n := |events| - 1;
      assert events == events[..n] + [events[n]];
      ClosingTells(events[..n], account, day, e);
      if DateOrdered(events) {
        forall x | x in Closing(events[..n], account, day) ensures x.date <= events[n].date {
          ClosingIsWithin(events[..n], account, day);
          var i :| 0 <= i < n && events[i] == x;
        }
      }
    }
  }

  // ---- The price of a drafted event ----

  predicate IsPriced(line: Line, symbol: string) {
    line.symbol == Some(symbol) && line.unitPrice.Some? && line.unitPrice.value > 0.0
  }

  /** The statement's first positive price of a title. */
  predicate IsFirstPriced(lines: seq<Line>, symbol: string, i: int) {
    0 <= i < |lines| && IsPriced(lines[i], symbol) && forall k :: 0 <= k < i ==> !IsPriced(lines[k], symbol)
  }

  /** The price the statement gives a title, as its lines are read. */
  function StatedPrice(lines: seq<Line>, symbol: string): Option<real> {
    var slot := SlotOf(Wanted(lines), symbol);
    if slot.Some? then slot.value.unitPrice else None
  }

  lemma StatedPriceStep(lines: seq<Line>, symbol: string)
    ensures lines == [] ==> StatedPrice(lines, symbol).None?
    ensures lines != [] ==>
              var before, last := StatedPrice(lines[..|lines| - 1], symbol), lines[|lines| - 1];
              StatedPrice(lines, symbol)
              == if before.Some? then before else if IsPriced(last, symbol) then last.unitPrice else None
    ensures forall line: Line :: IsPriced(line, symbol) ==> line.unitPrice.Some?
  {
  }

  lemma {:induction false} StatedPriceIsFirst(lines: seq<Line>, symbol: string)
    ensures var price := StatedPrice(lines, symbol);
            && (price.Some? ==> exists i :: IsFirstPriced(lines, symbol, i) && lines[i].unitPrice == price)
            && (price.None? ==> forall i :: 0 <= i < |lines| ==> !IsPriced(lines[i], symbol))
  {
    hide StatedPrice, IsPriced;
    StatedPriceStep(lines, symbol);
    if lines != [] {
      var n := |lines| - 1;
      StatedPriceIsFirst(lines[..n], symbol);
      assert forall k :: 0 <= k < n ==> lines[..n][k] == lines[k];
      if StatedPrice(lines[..n], symbol).Some? {
        var i :| IsFirstPriced(lines[..n], symbol, i) && lines[..n][i].unitPrice == StatedPrice(lines[..n], symbol);
        assert IsFirstPriced(lines, symbol, i);
      } else if IsPriced(lines[n], symbol) {
        assert IsFirstPriced(lines, symbol, n);
      }
    }
  }

  /** The price of a drafted event: the owner's, else the statement's first positive one, else a close that is one. */
  ghost predicate PriceTells(d: Drafted, lines: seq<Line>, chosen: map<string, real>, close: string -> Option<real>) {
    if d.symbol in chosen then d.source == FromOwner && d.price == Some(chosen[d.symbol])
    else if exists i :: IsFirstPriced(lines, d.symbol, i) then
      d.source == FromStatement && exists i :: IsFirstPriced(lines, d.symbol, i) && d.price == lines[i].unitPrice
    else if close(d.symbol).Some? && close(d.symbol).value != 0.0 then
      d.source == FromClose && d.price == close(d.symbol)
    else d.source == Unpriced && d.price.None?
  }

  lemma DraftsArePriced(reading: Reading, account: string, day: int, readable: seq<Line>, events: seq<Event>,
                        chosen: map<string, real>, close: string -> Option<real>, held: map<string, real>, k: nat)
    requires IsReading(reading, account, day, readable, events, chosen, close, held) && k < |reading.drafted|
    ensures PriceTells(reading.drafted[k], readable, chosen, close)
  {
    hide Wanted, IsPriced, IsHeld;
    var symbol := reading.drafted[k].symbol;
    StatedPriceIsFirst(readable, symbol);
    assert reading.drafted[k] == DraftFor(Wanted(readable), held, chosen, close, symbol);
  }

  // ---- One title, before and after its gap is recorded ----

  /** The event a drafted gap is. */
  function EventFor(d: Drafted, account: string, day: int): Event {
    Event(day, if d.gap > 0.0 then Buy else Sell, Some(account), Some(d.symbol), None, Some(Abs(d.gap)), d.price,
          None, None, None, None)
  }

  /** A position once the gap to `wanted` was recorded, when it is one. */
  function Closed(p: Position, wanted: real): Option<Position> {
    var gap := wanted - Shares(p);
    if Abs(gap) < DUST then Some(p)
    else if gap > 0.0 then Some(Position(p.quantity + gap, p.acquired + gap))
    else Sold(p, -gap)
  }

  /** A partial sale down to what the ledger takes for dust, though the statement does not. */
  predicate LostToDust(p: Position, wanted: real) {
    Shares(p) - wanted >= DUST && DUST <= wanted <= Dust(p)
  }

  /**
   * The gap of a title is never refused, and closes it, and stays closed, unless what was to be left is lost to dust.
   */
  lemma GapCloses(p: Position, wanted: real)
    requires 0.0 <= p.quantity <= p.acquired && wanted >= 0.0
    ensures Closed(p, wanted).Some?
    ensures var after := Closed(p, wanted).value;
            && 0.0 <= after.quantity
            && (Abs(after.quantity - wanted) < DUST <==> !LostToDust(p, wanted))
            && (Abs(wanted - Shares(after)) < DUST <==> !LostToDust(p, wanted))
            && (wanted == 0.0 ==> Shares(after) == 0.0)
  {
  }

  /**
   * A million shares sold down to half a thousandth of one: the ledger empties the position, and the gap comes back.
   */
  lemma LostToDustExample()
    ensures var p := Position(1000000.0, 1000000.0);
            && Closed(p, 0.0005) == Some(Position(0.0, 1000000.0))
            && 0.0005 - Shares(Position(0.0, 1000000.0)) >= DUST
  {
  }

  // ---- The whole statement ----

  function Recorded(drafted: seq<Drafted>, account: string, day: int): (r: seq<Event>)
    ensures |r| == |drafted| && forall k :: 0 <= k < |r| ==> r[k] == EventFor(drafted[k], account, day)
  {
    seq(|drafted|, k requires 0 <= k < |drafted| => EventFor(drafted[k], account, day))
  }

  lemma {:induction false} InsertedCloses(events: seq<Event>, e: Event, account: string, day: int)
    requires DateOrdered(events) && Counts(e, account, day) && e.date == day
    ensures Closing(Inserted(events, e), account, day) == Closing(events, account, day) + [e]
  {
    if events == [] || events[|events| - 1].date <= e.date {
      assert Inserted(events, e)[..|events|] == events;
    } else {
      var n := |events| - 1;
      InsertedCloses(events[..n], e, account, day);
      assert Inserted(events, e)[..n + 1] == Inserted(events[..n], e);
    }
  }

  /** Recorded on the statement's day, the drafted events close the day after everything that was there. */
  lemma {:induction false} RecordedCloses(events: seq<Event>, added: seq<Event>, account: string, day: int)
    requires DateOrdered(events)
    requires forall k :: 0 <= k < |added| ==> Counts(added[k], account, day) && added[k].date == day
    ensures Closing(SortedByDate(events + added), account, day) == Closing(events, account, day) + added
  {
    hide SortedByDate, Inserted, Closing, DateOrdered;
    if added == [] {
      assert events + added == events;
      SortedAlready(events);
    } else {
      var n := |added| - 1;
      RecordedCloses(events, added[..n], account, day);
      assert (events + added)[..|events| + n] == events + added[..n];
      SortedStep(events + added);
      SortIsStable(events + added[..n], 0);
      assert added == added[..n] + [added[n]];
      InsertedCloses(SortedByDate(events + added[..n]), added[n], account, day);
    }
  }

  /** Of drafted events with one for each title, a position sees its own alone. */
  lemma {:induction false} OwnEventAlone(a: seq<Event>, drafted: seq<Drafted>, account: string, day: int,
                                         symbol: string)
    requires OneEach(drafted) && account != []
    ensures var b := Recorded(drafted, account, day);
            var before := PositionOf(a, account, Some(symbol));
            PositionOf(a + b, account, Some(symbol))
            == if before.Some? && Drafts(drafted, symbol)
               then Applied(before.value, EventFor(DraftOf(drafted, symbol), account, day))
               else before
  {
    var b := Recorded(drafted, account, day);
    if drafted == [] {
      assert a + b == a;
    } else {
      var n := |drafted| - 1;
      OwnEventAlone(a, drafted[..n], account, day, symbol);
      assert (a + b)[..|a| + n] == a + Recorded(drafted[..n], account, day);
      assert (a + b)[|a| + n] == EventFor(drafted[n], account, day);
      if drafted[n].symbol == symbol {
        assert !Drafts(drafted[..n], symbol);
        assert DraftOf(drafted, symbol) == drafted[n];
      } else if Drafts(drafted[..n], symbol) {
        assert DraftOf(drafted[..n], symbol) == DraftOf(drafted, symbol);
      }
    }
  }

  /** The drafted event of a title. */
  function DraftOf(drafted: seq<Drafted>, symbol: string): (d: Drafted)
    requires Drafts(drafted, symbol)
    ensures d in drafted && d.symbol == symbol
    ensures OneEach(drafted) ==> forall k :: 0 <= k < |drafted| && drafted[k].symbol == symbol ==> drafted[k] == d
  {
    if drafted[|drafted| - 1].symbol == symbol then drafted[|drafted| - 1]
    else
      assert Drafts(drafted[..|drafted| - 1], symbol);
      DraftOf(drafted[..|drafted| - 1], symbol)
  }

  /** With every line's title known, every position of the day moves to its stated shares, absent titles to none. */
  lemma EveryGapCloses(reading: Reading, account: string, day: int, readable: seq<Line>, events: seq<Event>,
                       chosen: map<string, real>, close: string -> Option<real>, held: map<string, real>,
                       symbol: string)
    requires IsReading(reading, account, day, readable, events, chosen, close, held)
    requires Waiting(readable) == [] && (forall line :: line in readable ==> Usable(line))
    requires account != [] && DateOrdered(events)
    ensures var before := Standing(events, account, day, symbol);
            var after := Standing(SortedByDate(events + Recorded(reading.drafted, account, day)), account, day, symbol);
            before.Some? && after == Closed(before.value, StatedShares(readable, symbol))
  {
    hide Closing, StatedShares, PositionOf, SortedByDate, Applied, Closed, EventFor, IsDraft, IsHeld, Drafts;
    RecordedCount(reading.drafted, account, day);
    RecordedCloses(events, Recorded(reading.drafted, account, day), account, day);
    EachOnce(reading, account, day, readable, events, chosen, close, held);
    OwnEventAlone(Closing(events, account, day), reading.drafted, account, day, symbol);
    DraftedGap(reading, account, day, readable, events, chosen, close, held, symbol);
    var p, stated := Standing(events, account, day, symbol).value, StatedShares(readable, symbol);
    if Drafts(reading.drafted, symbol) {
      AppliedIsClosed(p, DraftOf(reading.drafted, symbol), account, day, stated);
    } else {
      NoGapIsClosed(p, stated);
    }
  }

  lemma RecordedCount(drafted: seq<Drafted>, account: string, day: int)
    requires account != []
    ensures forall k :: 0 <= k < |drafted| ==>
              Counts(Recorded(drafted, account, day)[k], account, day) && Recorded(drafted, account, day)[k].date == day
  {
  }

  lemma EachOnce(reading: Reading, account: string, day: int, readable: seq<Line>, events: seq<Event>,
                 chosen: map<string, real>, close: string -> Option<real>, held: map<string, real>)
    requires IsReading(reading, account, day, readable, events, chosen, close, held)
    ensures OneEach(reading.drafted)
  {
  }

  lemma AppliedIsClosed(p: Position, d: Drafted, account: string, day: int, stated: real)
    requires d.gap == stated - Shares(p) && Abs(d.gap) >= DUST
    ensures Applied(p, EventFor(d, account, day)) == Closed(p, stated)
  {
  }

  lemma NoGapIsClosed(p: Position, stated: real)
    requires Abs(stated - Shares(p)) < DUST
    ensures Closed(p, stated) == Some(p)
  {
  }

  /** A title is drafted exactly when its gap is not dust, and for its gap. */
  lemma DraftedGap(reading: Reading, account: string, day: int, readable: seq<Line>, events: seq<Event>,
                   chosen: map<string, real>, close: string -> Option<real>, held: map<string, real>, symbol: string)
    requires IsReading(reading, account, day, readable, events, chosen, close, held)
    requires Waiting(readable) == [] && forall line :: line in readable ==> Usable(line)
    ensures var before := Standing(events, account, day, symbol);
            && before.Some?
            && var gap := StatedShares(readable, symbol) - Shares(before.value);
               && (Drafts(reading.drafted, symbol) <==> Abs(gap) >= DUST)
               && (Drafts(reading.drafted, symbol) ==> DraftOf(reading.drafted, symbol).gap == gap)
  {
    hide Closing, Wanted, StatedShares, PositionOf, Standing;
    WantedIsStated(readable, symbol);
    assert Standing(events, account, day, symbol).Some?;
    var wanted := Wanted(readable);
    assert Gap(wanted, held, symbol)
           == StatedShares(readable, symbol) - Shares(Standing(events, account, day, symbol).value);
    if Drafts(reading.drafted, symbol) {
      var k :| 0 <= k < |reading.drafted| && reading.drafted[k].symbol == symbol;
      assert reading.drafted[k] == DraftFor(wanted, held, chosen, close, symbol);
      assert DraftOf(reading.drafted, symbol) == reading.drafted[k];
    }
  }

  lemma {:induction false} ClosingIsCountable(events: seq<Event>, account: string, day: int, symbol: string)
    requires Countable(events)
    ensures var p := Standing(events, account, day, symbol);
            p.Some? ==> 0.0 <= p.value.quantity <= p.value.acquired
  {
    NeverShort(Closing(events, account, day), account, Some(symbol));
  }

  lemma {:induction false} StatedIsCountable(lines: seq<Line>, symbol: string)
    requires forall line :: line in lines ==> Usable(line)
    ensures StatedShares(lines, symbol) >= 0.0
  {
    WantedIsStated(lines, symbol);
  }

  ghost predicate NothingLost(readable: seq<Line>, events: seq<Event>, account: string, day: int) {
    forall s ::
      var p := Standing(events, account, day, s);
      p.Some? ==> !LostToDust(p.value, StatedShares(readable, s))
  }

  // ---- Through the write ----

  /** Spellings as they are stored: a trimmed account, and canonical tickers on the lines and in the ledger. */
  predicate Spelled(account: string, lines: seq<Line>, events: seq<Event>) {
    && TrimmedAccount(Some(account)) == Some(account) && account != []
    && (forall line :: line in lines ==> Canonical(line.symbol) == line.symbol)
    && forall e :: e in events ==> Canonical(e.symbol) == e.symbol
  }

  /** The ledger `after` is what is read back once the drafts were recorded over a table that was read as `events`. */
  ghost predicate IsWritten(after: seq<Event>, events: seq<Event>, rows: map<nat, Event>, next: nat, drafts: seq<Event>,
                            names: map<string, string>)
  {
    && IsReadOrder(events, rows) && Keyed(rows) && Above(rows, next)
    && IsReadOrder(after, Appended(rows, SettledAll(drafts, names), next))
  }

  lemma {:induction false} ClosingIsWithin(events: seq<Event>, account: string, day: int)
    ensures forall e :: e in Closing(events, account, day) ==> e in events
  {
    if events != [] {
      var n := |events| - 1;
      assert events == events[..n] + [events[n]];
      ClosingIsWithin(events[..n], account, day);
    }
  }

  /** A title with shares is one an event of the day names. */
  lemma StandingIsNamed(events: seq<Event>, account: string, day: int, symbol: string)
    requires Standing(events, account, day, symbol) != Some(NOTHING)
    ensures exists e :: e in events && e.symbol == Some(symbol)
  {
    var closing := Closing(events, account, day);
    ClosingIsWithin(events, account, day);
    assert [] + closing == closing;
    if forall i :: 0 <= i < |closing| ==> !Concerns(closing[i], account, Some(symbol)) {
      PositionOfBoth([], closing, account, Some(symbol));
    }
  }

  /** A purchase of a gap above zero, else a sale of what is too much, at the price given and nothing beside. */
  predicate IsTradeOf(e: Event, d: Drafted) {
    && e.symbol == Some(d.symbol) && e.unitPrice == d.price && e.fee.None? && e.amount.None?
    && if d.gap > 0.0 then e.kind == Buy && e.quantity == Some(d.gap) else e.kind == Sell && e.quantity == Some(-d.gap)
  }

  lemma DraftedIsSpelled(reading: Reading, account: string, day: int, readable: seq<Line>, events: seq<Event>,
                         chosen: map<string, real>, close: string -> Option<real>, held: map<string, real>)
    requires IsReading(reading, account, day, readable, events, chosen, close, held)
    requires Spelled(account, readable, events)
    requires forall line :: line in readable ==> Usable(line)
    ensures var drafts := Recorded(reading.drafted, account, day);
            forall k :: 0 <= k < |drafts| ==>
              && drafts[k].account == Some(account) && Canonical(drafts[k].symbol) == drafts[k].symbol
              && drafts[k].date == day && IsTradeOf(drafts[k], reading.drafted[k])
  {
    hide Canonical, Wanted, Standing;
    forall k | 0 <= k < |reading.drafted|
      ensures Canonical(Some(reading.drafted[k].symbol)) == Some(reading.drafted[k].symbol)
    {
      var s := reading.drafted[k].symbol;
      WantedIsStated(readable, s);
      if s !in Wanted(readable) {
        assert s in held && Shares(Standing(events, account, day, s).value) == held[s];
        StandingIsNamed(events, account, day, s);
      }
    }
  }

  /** A drafted event, once written, is the same shares on the same day. */
  lemma WrittenIsSame(draft: Event, known: map<string, string>, id: nat, account: string)
    requires draft.account == Some(account) && TrimmedAccount(Some(account)) == Some(account)
    requires Canonical(draft.symbol) == draft.symbol
    ensures var e := Stored(Settled(draft, known), id); SameShares(e, draft) && e.date == draft.date
  {
  }

  /** The day closes on the written events as it does on the drafted ones. */
  lemma WrittenStanding(after: seq<Event>, events: seq<Event>, rows: map<nat, Event>, next: nat, drafts: seq<Event>,
                        names: map<string, string>, account: string, day: int, symbol: string)
    requires IsWritten(after, events, rows, next, drafts, names)
    requires TrimmedAccount(Some(account)) == Some(account) && account != []
    requires forall k :: 0 <= k < |drafts| ==>
               && drafts[k].account == Some(account) && Canonical(drafts[k].symbol) == drafts[k].symbol
               && drafts[k].date == day
    ensures DateOrdered(events)
    ensures Standing(after, account, day, symbol) == Standing(SortedByDate(events + drafts), account, day, symbol)
  {
    hide SettledAll, Appended, Settled, Stored, KnownAfter, Canonical, TrimmedAccount, IsReadOrder, Keyed, Above,
         SortedByDate, Closing, PositionOf, DateOrdered;
    var settled := SettledAll(drafts, names);
    var added := StoredAll(settled, next);
    ReadIsDateOrdered(events, rows);
    WriteIsSorted(events, rows, settled, next);
    AppendedIsKeyed(rows, settled, next);
    OneReadOrder(after, SortedByDate(events + added), Appended(rows, settled, next));
    forall k | 0 <= k < |drafts| ensures SameShares(added[k], drafts[k]) && added[k].date == day {
      SettledAt(drafts, names, k);
      WrittenIsSame(drafts[k], KnownAfter(drafts[..k], names), next + k, account);
    }
    RecordedCloses(events, added, account, day);
    RecordedCloses(events, drafts, account, day);
    SharesAlike(Closing(events, account, day) + added, Closing(events, account, day) + drafts, account, Some(symbol));
  }

  /** Recording the gaps brings every title within dust of its stated shares, exactly those lost to dust excepted. */
  lemma RecordingReachesTheStatement(reading: Reading, account: string, day: int, readable: seq<Line>,
                                     events: seq<Event>, chosen: map<string, real>, close: string -> Option<real>,
                                     held: map<string, real>, rows: map<nat, Event>, next: nat,
                                     names: map<string, string>, after: seq<Event>, symbol: string)
    requires IsReading(reading, account, day, readable, events, chosen, close, held) && Countable(events)
    requires Waiting(readable) == [] && (forall line :: line in readable ==> Usable(line))
    requires Spelled(account, readable, events)
    requires IsWritten(after, events, rows, next, Recorded(reading.drafted, account, day), names)
    ensures var p, p' := Standing(events, account, day, symbol), Standing(after, account, day, symbol);
            var stated := StatedShares(readable, symbol);
            && p.Some? && p'.Some?
            && (Abs(p'.value.quantity - stated) < DUST <==> !LostToDust(p.value, stated))
            && (Abs(stated - Shares(p'.value)) < DUST <==> !LostToDust(p.value, stated))
  {
    hide Standing, StatedShares, SortedByDate, IsReading, Canonical, IsWritten, Recorded, Closed, LostToDust, Waiting;
    DraftedIsSpelled(reading, account, day, readable, events, chosen, close, held);
    WrittenStanding(after, events, rows, next, Recorded(reading.drafted, account, day), names, account, day, symbol);
    EveryGapCloses(reading, account, day, readable, events, chosen, close, held, symbol);
    ClosingIsCountable(events, account, day, symbol);
    StatedIsCountable(readable, symbol);
    GapCloses(Standing(events, account, day, symbol).value, StatedShares(readable, symbol));
  }

  /**
   * Reconciled again over the table its events left, the statement
   * drafts nothing, if and only if nothing was lost to dust.
   */
  lemma ReconcilingAgainDraftsNothing(
    reading: Reading, account: string, day: int, readable: seq<Line>, events: seq<Event>, chosen: map<string, real>,
    close: string -> Option<real>, held: map<string, real>,
    rows: map<nat, Event>, next: nat, names: map<string, string>, after: seq<Event>,
    again: Reading, chosen': map<string, real>, close': string -> Option<real>, held': map<string, real>)
    requires IsReading(reading, account, day, readable, events, chosen, close, held) && Countable(events)
    requires Waiting(readable) == [] && (forall line :: line in readable ==> Usable(line))
    requires Spelled(account, readable, events)
    requires IsWritten(after, events, rows, next, Recorded(reading.drafted, account, day), names)
    requires IsReading(again, account, day, readable, after, chosen', close', held')
    ensures again.drafted == [] <==> NothingLost(readable, events, account, day)
    ensures again.drafted == [] ==> chosen' == map[]
  {
    hide IsReading, IsWritten, Standing, StatedShares, LostToDust, Recorded, Spelled;
    forall s
      ensures Drafts(again.drafted, s) <==>
                var p := Standing(events, account, day, s);
                p.Some? && LostToDust(p.value, StatedShares(readable, s))
    {
      RecordingReachesTheStatement(reading, account, day, readable, events, chosen, close, held, rows, next, names,
                                   after, s);
      DraftedGap(again, account, day, readable, after, chosen', close', held', s);
    }
    if again.drafted == [] {
      assert forall s :: !Drafts(again.drafted, s);
      PricesNeedGaps(again, account, day, readable, after, chosen', close', held');
    } else {
      assert Drafts(again.drafted, again.drafted[0].symbol);
    }
  }

  lemma PricesNeedGaps(reading: Reading, account: string, day: int, readable: seq<Line>, events: seq<Event>,
                       chosen: map<string, real>, close: string -> Option<real>, held: map<string, real>)
    requires IsReading(reading, account, day, readable, events, chosen, close, held) && reading.drafted == []
    ensures chosen == map[]
  {
    assert forall s :: s in chosen ==> Drafts(reading.drafted, s);
  }
}
