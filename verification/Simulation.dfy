/** What a sale would raise: the position it leaves, the gain of the lot, and the tax at once or on the way out. */
module Simulation {
  import opened Basics
  import opened Taxation
  import opened TaxProjection

  /** One line of an account; without a price it is unvalued. */
  datatype Line = Line(symbol: string, quantity: real, costBasis: real, price: Option<real>)

  datatype Account = Account(plan: Option<Plan>, lines: seq<Line>)

  /** The slack a quantity is compared with. */
  const EPSILON := 0.000000001

  datatype Position = Position(quantity: real, costBasis: real, unitCost: Option<real>)

  datatype Reason = NoModel | NoTaxModel | NotProjectable | UnreadableModel

  datatype Sale = Sale(
    quantity: real, proceeds: real, gain: real, taxNow: Option<real>, ifWithdrawn: Option<real>, net: Option<real>,
    after: Position, reason: Option<Reason>, lossOffset: bool, annualAccumulation: bool, earlyClosure: bool)

  datatype Refusal = BadQuantity | NotHeld | NoPrice | TooMuch

  predicate HasPrice(line: Line) {
    line.price.Some? && line.price.value > 0.0
  }

  predicate IsLineOf(line: Line, symbol: string) {
    line.symbol == symbol && line.quantity > 0.0
  }

  /** The first held line of a symbol. */
  function LineOf(lines: seq<Line>, symbol: string): (r: Option<Line>)
    ensures r.Some? ==> r.value in lines && IsLineOf(r.value, symbol)
    ensures r.None? <==> forall line :: line in lines ==> !IsLineOf(line, symbol)
  {
    if lines == [] then None
    else if IsLineOf(lines[0], symbol) then Some(lines[0])
    else
      assert forall line :: line in lines ==> line == lines[0] || line in lines[1..];
      LineOf(lines[1..], symbol)
  }

  // ---- The account's value and its latent gain ----

  function Times(a: real, b: real): real {
    a * b
  }

  function Worth(line: Line): real
    requires line.price.Some?
  {
    Times(line.quantity, line.price.value)
  }

  /** Every line that still holds something is valued. */
  predicate Valued(lines: seq<Line>) {
    forall i :: 0 <= i < |lines| && lines[i].quantity != 0.0 ==> lines[i].price.Some?
  }

  function ValueOf(lines: seq<Line>): real
    requires Valued(lines)
  {
    if lines == [] then 0.0
    else
      var last := lines[|lines| - 1];
      ValueOf(lines[..|lines| - 1]) + (if last.quantity == 0.0 then 0.0 else Worth(last))
  }

  function LatentOf(lines: seq<Line>): real
    requires Valued(lines)
  {
    if lines == [] then 0.0
    else
      var last := lines[|lines| - 1];
      LatentOf(lines[..|lines| - 1]) + (if last.quantity == 0.0 then 0.0 else Worth(last) - last.costBasis)
  }

  function Share(proceeds: real, latent: real, value: real): real
    requires value > 0.0
  {
    proceeds * latent / value
  }

  /** The tax of the plan's prorata for some money taken out. */
  function IfWithdrawn(p: Plan, lines: seq<Line>, proceeds: real, now: Date,
                       parse: string -> Option<real>): Option<real>
  {
    if !Valued(lines) || ValueOf(lines) <= 0.0 then None
    else ProjectedTax(p, Some(Share(proceeds, LatentOf(lines), ValueOf(lines))), now, parse)
  }

  method ProrataTax(p: Plan, lines: seq<Line>, proceeds: real, now: Date, parse: string -> Option<real>)
    returns (tax: Option<real>)
    ensures tax == IfWithdrawn(p, lines, proceeds, now, parse)
  {
    var value, latent := 0.0, 0.0;
    for i := 0 to |lines|
      invariant Valued(lines[..i]) && value == ValueOf(lines[..i]) && latent == LatentOf(lines[..i])
    {
      assert lines[..i + 1][..i] == lines[..i];
      if lines[i].quantity == 0.0 {
        continue;
      }
      if lines[i].price.None? {
        return None;
      }
      var worth := Worth(lines[i]);
      value := value + worth;
      latent := latent + (worth - lines[i].costBasis);
    }
    assert lines[..|lines|] == lines;
    if value <= 0.0 {
      return None;
    }
    tax := Project(p, Some(Share(proceeds, latent, value)), now, parse);
  }

  /** What the held lines are worth, and what they cost. */
  function WorthIn(lines: seq<Line>): real {
    if lines == [] then 0.0
    else
      var last := lines[|lines| - 1];
      WorthIn(lines[..|lines| - 1])
      + (if last.quantity != 0.0 && last.price.Some? then last.quantity * last.price.value else 0.0)
  }

  function CostIn(lines: seq<Line>): real {
    if lines == [] then 0.0
    else
      var last := lines[|lines| - 1];
      CostIn(lines[..|lines| - 1]) + (if last.quantity != 0.0 then last.costBasis else 0.0)
  }

  lemma {:induction false} LatentTells(lines: seq<Line>)
    requires Valued(lines)
    ensures ValueOf(lines) == WorthIn(lines) && LatentOf(lines) == WorthIn(lines) - CostIn(lines)
  {
    if lines != [] {
      LatentTells(lines[..|lines| - 1]);
    }
  }

  /**
   * Money taken out of an aged wrapper is taxed as its part of what the wrapper has gained; nothing is said of one that
   * holds an unpriced line or is worth nothing.
   */
  lemma WithdrawalFigure(p: Plan, lines: seq<Line>, proceeds: real, now: Date, parse: string -> Option<real>)
    ensures var tax := IfWithdrawn(p, lines, proceeds, now, parse);
            var unpriced := exists i :: 0 <= i < |lines| && lines[i].quantity != 0.0 && lines[i].price.None?;
            if unpriced || WorthIn(lines) <= 0.0 then tax.None?
            else exists gain ::
                   && IsPartOf(gain, proceeds, WorthIn(lines) - CostIn(lines), WorthIn(lines))
                   && tax == ProjectedTax(p, Some(gain), now, parse)
  {
    hide ProjectedTax, ValueOf, LatentOf, WorthIn, CostIn, Share, IsPartOf;
    if Valued(lines) {
      LatentTells(lines);
      if ValueOf(lines) > 0.0 {
        ShareIsPart(proceeds, LatentOf(lines), ValueOf(lines));
      }
    }
  }

  /** As much of the gain as was taken of the worth. */
  predicate IsPartOf(part: real, taken: real, gain: real, worth: real) {
    part * worth == taken * gain
  }

  lemma ShareIsPart(taken: real, gain: real, worth: real)
    requires worth > 0.0
    ensures IsPartOf(Share(taken, gain, worth), taken, gain, worth)
  {
    DivideThenMultiply(taken * gain, worth);
  }

  // ---- One sale ----

  /** The quantity sold: the whole line when it is all but that. */
  function SoldOf(line: Line, quantity: real): real {
    if quantity >= line.quantity * (1.0 - EPSILON) then line.quantity else quantity
  }

  /** What one share of a held line cost. */
  function AverageCost(line: Line): real
    requires line.quantity > 0.0
  {
    UnitCost(line.quantity, line.costBasis).value
  }

  function After(line: Line, quantity: real): Position
    requires line.quantity > 0.0
  {
    if quantity >= line.quantity * (1.0 - EPSILON) then Position(0.0, 0.0, None)
    else Position(line.quantity - quantity, line.costBasis - Times(quantity, AverageCost(line)),
                  Some(AverageCost(line)))
  }

  function Refused(lines: seq<Line>, symbol: string, quantity: real): Option<Refusal> {
    if quantity <= 0.0 then Some(BadQuantity)
    else
      var line := LineOf(lines, symbol);
      if line.None? then Some(NotHeld)
      else if !HasPrice(line.value) then Some(NoPrice)
      else if quantity > line.value.quantity * (1.0 + EPSILON) then Some(TooMuch)
      else None
  }

  /** The tax of a lot at once, on the way out, and why there is none to state. */
  function TaxOf(a: Account, gain: real, proceeds: real, now: Date,
                 parse: string -> Option<real>): (Option<real>, Option<real>, Option<Reason>)
  {
    if a.plan.None? then (None, None, Some(NoModel))
    else
      var p := a.plan.value;
      if p.kind == NONE then (Some(0.0), None, Some(NoTaxModel))
      else if p.kind == WITHHOLDING then (None, None, Some(NotProjectable))
      else if p.kind == AGED then (Some(0.0), IfWithdrawn(p, a.lines, proceeds, now, parse), None)
      else
        var tax := ProjectedTax(p, Some(gain), now, parse);
        (tax, None, if tax.Some? then None else Some(UnreadableModel))
  }

  /**
   * The tax of a lot, told by what the model is: nothing stated, nothing owed,
   * owed on the way out, or owed on the gain.
   */
  ghost predicate TaxTells(a: Account, gain: real, taxNow: Option<real>, out: Option<real>, reason: Option<Reason>,
                           parse: string -> Option<real>)
  {
    if a.plan.None? then taxNow.None? && out.None? && reason == Some(NoModel)
    else
      var p := a.plan.value;
      if p.kind == "withholding_income" then taxNow.None? && out.None? && reason == Some(NotProjectable)
      else if p.kind == "none" then taxNow == Some(0.0) && out.None? && reason == Some(NoTaxModel)
      else if p.kind == "aged_flat_realised" then taxNow == Some(0.0) && reason.None?
      else
        && out.None?
        && (if taxNow.None? then reason == Some(UnreadableModel) else reason.None?)
        && (taxNow.Some? ==> 0.0 <= taxNow.value <= if gain > 0.0 then gain else 0.0)
        && (p.kind == "flat_realised" ==> FlatTells(p, gain, taxNow, parse))
  }

  /** A flat model owes its rate and its levy on what was gained, when its record can be read. */
  ghost predicate FlatTells(p: Plan, gain: real, taxNow: Option<real>, parse: string -> Option<real>) {
    match Readable(p, parse)
    case None => taxNow.None?
    case Some(m) =>
      && taxNow.Some?
      && exists rate, levy ::
           IsNumber(m, "rate", rate) && IsLevy(m, levy) && IsTaxed(taxNow.value, gain, rate, levy)
  }

  lemma TaxOfTells(a: Account, gain: real, proceeds: real, now: Date, parse: string -> Option<real>)
    ensures var t := TaxOf(a, gain, proceeds, now, parse);
            TaxTells(a, gain, t.0, t.1, t.2, parse)
  {
    hide Readable, ProjectedTax, IsTaxed, IsLevy, IsNumber;
    if a.plan.Some? {
      var p := a.plan.value;
      TaxIsBounded(p, gain, gain, now, parse);
      FlatReads(p, gain, now, parse);
    }
  }

  lemma FlatReads(p: Plan, gain: real, now: Date, parse: string -> Option<real>)
    ensures p.kind == "flat_realised" ==> FlatTells(p, gain, ProjectedTax(p, Some(gain), now, parse), parse)
  {
    if p.kind == FLAT && Readable(p, parse).Some? {
      FlatFigure(p, Readable(p, parse).value, gain, now, parse);
    }
    hide Readable;
  }

  /** The lot and what is left of its line: all of it, or a part at the line's own unit cost. */
  predicate LotTells(line: Line, asked: real, s: Sale) {
    && line.price.Some? && s.proceeds == s.quantity * line.price.value
    && s.gain == s.proceeds - (line.costBasis - s.after.costBasis)
    && if asked >= line.quantity * (1.0 - 0.000000001)
       then s.quantity == line.quantity && s.after == Position(0.0, 0.0, None)
       else
         && s.quantity == asked && s.after.quantity == line.quantity - asked > 0.0
         && s.after.unitCost.Some? && s.after.unitCost.value * line.quantity == line.costBasis
         && s.after.costBasis == s.after.quantity * s.after.unitCost.value
  }

  lemma LotIsTold(line: Line, asked: real, s: Sale)
    requires line.quantity > 0.0 && line.price.Some? && 0.0 < asked
    requires s.quantity == SoldOf(line, asked) && s.after == After(line, asked)
    requires s.proceeds == Times(s.quantity, line.price.value)
    requires s.proceeds - s.gain == line.costBasis - s.after.costBasis
    ensures LotTells(line, asked, s)
  {
    if asked < line.quantity * (1.0 - EPSILON) {
      UnitCostStays(line, asked);
      DivideThenMultiply(line.costBasis, line.quantity);
    }
  }

  /** What a sale is refused for, and nothing else. */
  ghost predicate RefusalTells(lines: seq<Line>, symbol: string, asked: real, refusal: Option<Refusal>) {
    match refusal
    case Some(BadQuantity) => asked <= 0.0
    case Some(NotHeld) => asked > 0.0 && forall line :: line in lines && line.symbol == symbol ==> line.quantity <= 0.0
    case Some(NoPrice) =>
      asked > 0.0 && exists i :: IsFirstHeld(lines, symbol, i) && (lines[i].price.Some? ==> lines[i].price.value <= 0.0)
    case Some(TooMuch) => asked > 0.0 && exists i :: IsFirstHeld(lines, symbol, i) && Passes(lines[i], asked)
    case None =>
      asked > 0.0 && exists i :: IsFirstHeld(lines, symbol, i) && HasPrice(lines[i]) && !Passes(lines[i], asked)
  }

  predicate Passes(line: Line, asked: real) {
    HasPrice(line) && asked > line.quantity * (1.0 + 0.000000001)
  }

  predicate IsFirstHeld(lines: seq<Line>, symbol: string, i: int) {
    && 0 <= i < |lines| && lines[i].symbol == symbol && lines[i].quantity > 0.0
    && forall k :: 0 <= k < i ==> lines[k].symbol != symbol || lines[k].quantity <= 0.0
  }

  lemma {:induction false} LineIsFirst(lines: seq<Line>, symbol: string) returns (i: int)
    requires LineOf(lines, symbol).Some?
    ensures IsFirstHeld(lines, symbol, i) && lines[i] == LineOf(lines, symbol).value
  {
    if IsLineOf(lines[0], symbol) {
      i := 0;
    } else {
      i := LineIsFirst(lines[1..], symbol);
      i := i + 1;
      forall k | 0 <= k < i ensures lines[k].symbol != symbol || lines[k].quantity <= 0.0 {
        assert k > 0 ==> lines[k] == lines[1..][k - 1];
      }
    }
  }

  lemma RefusalIsTold(lines: seq<Line>, symbol: string, asked: real)
    ensures RefusalTells(lines, symbol, asked, Refused(lines, symbol, asked))
    ensures Refused(lines, symbol, asked).None? ==>
              exists i :: IsFirstHeld(lines, symbol, i) && lines[i] == LineOf(lines, symbol).value
  {
    if LineOf(lines, symbol).Some? {
      var i := LineIsFirst(lines, symbol);
    } else {
      assert forall line :: line in lines && line.symbol == symbol ==> !IsLineOf(line, symbol);
    }
  }

  method TaxLot(a: Account, gain: real, proceeds: real, now: Date, parse: string -> Option<real>)
    returns (tax: Option<real>, out: Option<real>, reason: Option<Reason>)
    ensures (tax, out, reason) == TaxOf(a, gain, proceeds, now, parse)
    ensures TaxTells(a, gain, tax, out, reason, parse)
  {
    TaxOfTells(a, gain, proceeds, now, parse);
    hide TaxTells;
    if a.plan.None? {
      return None, None, Some(NoModel);
    }
    var p := a.plan.value;
    if p.kind == NONE {
      return Some(0.0), None, Some(NoTaxModel);
    }
    if p.kind == WITHHOLDING {
      return None, None, Some(NotProjectable);
    }
    if p.kind == AGED {
      out := ProrataTax(p, a.lines, proceeds, now, parse);
      return Some(0.0), out, None;
    }
    tax := Project(p, Some(gain), now, parse);
    out, reason := None, if tax.Some? then None else Some(UnreadableModel);
  }

  /**
   * A sale at average cost: it takes its share of the basis, keeps
   * the unit cost, and splits the money into basis and gain.
   */
  method SimulateSale(a: Account, symbol: string, quantity: real, now: Date, parse: string -> Option<real>)
    returns (r: Result<Sale, Refusal>)
    ensures r.Err? <==> Refused(a.lines, symbol, quantity).Some?
    ensures r.Err? ==> Some(r.error) == Refused(a.lines, symbol, quantity)
    ensures RefusalTells(a.lines, symbol, quantity, if r.Err? then Some(r.error) else None)
    ensures r.Ok? ==>
              var s := r.value;
              && (exists i :: IsFirstHeld(a.lines, symbol, i) && LotTells(a.lines[i], quantity, s))
              && TaxTells(a, s.gain, s.taxNow, s.ifWithdrawn, s.reason, parse)
    ensures r.Ok? ==>
              var line, s := LineOf(a.lines, symbol).value, r.value;
              && s.quantity == SoldOf(line, quantity)
              && s.proceeds == Times(s.quantity, line.price.value)
              && s.proceeds - s.gain == line.costBasis - s.after.costBasis
              && s.after.quantity == line.quantity - s.quantity && s.after == After(line, quantity)
              && (s.taxNow, s.ifWithdrawn, s.reason) == TaxOf(a, s.gain, s.proceeds, now, parse)
              && s.net == (if s.taxNow.Some? then Some(s.proceeds - s.taxNow.value) else None)
              && (s.earlyClosure <==> a.plan.Some? && RateChangesOn(a.plan.value, now, parse).Some?)
              && (s.lossOffset <==> s.gain < 0.0)
              && (s.annualAccumulation <==> a.plan.Some? && a.plan.value.kind == BRACKETED)
  {
    hide TaxTells, RefusalTells, LotTells, IsFirstHeld;
    RefusalIsTold(a.lines, symbol, quantity);
    if quantity <= 0.0 {
      return Err(BadQuantity);
    }
    var found := LineOf(a.lines, symbol);
    if found.None? {
      return Err(NotHeld);
    }
    var line := found.value;
    if !HasPrice(line) {
      return Err(NoPrice);
    }
    if quantity > line.quantity * (1.0 + EPSILON) {
      return Err(TooMuch);
    }
    var unit := AverageCost(line);
    var sold, after := SoldOf(line, quantity), After(line, quantity);
    var proceeds := Times(sold, line.price.value);
    var gain := Times(sold, line.price.value - unit);
    MoneySplits(line, quantity, gain);
    var tax, out, reason := TaxLot(a, gain, proceeds, now, parse);
    var early := a.plan.Some? && RateChangesOn(a.plan.value, now, parse).Some?;
    r := Ok(Sale(sold, proceeds, gain, tax, out, if tax.Some? then Some(proceeds - tax.value) else None, after, reason,
                 gain < 0.0, a.plan.Some? && a.plan.value.kind == BRACKETED, early));
    LotIsTold(line, quantity, r.value);
  }

  lemma MoneySplits(line: Line, quantity: real, gain: real)
    requires line.quantity > 0.0 && line.price.Some?
    requires gain == Times(SoldOf(line, quantity), line.price.value - AverageCost(line))
    ensures Times(SoldOf(line, quantity), line.price.value) - gain == line.costBasis - After(line, quantity).costBasis
  {
    var sold := SoldOf(line, quantity);
  }

  /** What is left after a partial sale has the unit cost it had. */
  lemma UnitCostStays(line: Line, quantity: real)
    requires line.quantity > 0.0 && 0.0 < quantity < line.quantity * (1.0 - EPSILON)
    ensures var after := After(line, quantity);
            && after.quantity > 0.0 && after.costBasis == Times(after.quantity, AverageCost(line))
            && after.unitCost == Some(AverageCost(line))
  {
    assert line.quantity * (1.0 - EPSILON) < line.quantity;
  }

  // ---- Emptying an aged wrapper, line by line ----

  predicate Sellable(lines: seq<Line>) {
    forall i :: 0 <= i < |lines| ==> lines[i].quantity >= 0.0 && (lines[i].quantity > 0.0 ==> HasPrice(lines[i]))
  }

  predicate OneLineEach(lines: seq<Line>) {
    forall i, j :: 0 <= i < j < |lines| ==> lines[i].symbol != lines[j].symbol
  }

  /** The tax on the way out of full sales of the first lines, each asked for by its symbol and its whole quantity. */
  function SoldOut(a: Account, n: nat, now: Date, parse: string -> Option<real>): real
    requires n <= |a.lines| && a.plan.Some?
  {
    if n == 0 then 0.0
    else
      var line := a.lines[n - 1];
      SoldOut(a, n - 1, now, parse)
      + (if Refused(a.lines, line.symbol, line.quantity).Some? then 0.0 else OutTax(a, line, now, parse))
  }

  /** The tax on the way out that `SimulateSale` states for a line asked for whole. */
  function OutTax(a: Account, line: Line, now: Date, parse: string -> Option<real>): real
    requires a.plan.Some?
  {
    var sold := LineOf(a.lines, line.symbol);
    if sold.None? || sold.value.price.None? then 0.0
    else
      var quantity := SoldOf(sold.value, line.quantity);
      var gain := Times(quantity, sold.value.price.value - AverageCost(sold.value));
      var out := TaxOf(a, gain, Times(quantity, sold.value.price.value), now, parse).1;
      if out.Some? then out.value else 0.0
  }

  lemma {:induction false} ValueIsPositive(lines: seq<Line>)
    requires Sellable(lines)
    ensures Valued(lines) && ValueOf(lines) >= 0.0
    ensures ValueOf(lines) == 0.0 <==> forall i :: 0 <= i < |lines| ==> lines[i].quantity == 0.0
  {
    if lines != [] {
      var n := |lines| - 1;
      ValueIsPositive(lines[..n]);
      if lines[n].quantity > 0.0 {
        ProductOfNonNegatives(lines[n].quantity, lines[n].price.value);
      }
    }
  }

  lemma {:induction false} NoLatent(lines: seq<Line>)
    requires Valued(lines) && forall i :: 0 <= i < |lines| ==> lines[i].quantity == 0.0
    ensures LatentOf(lines) == 0.0
  {
    if lines != [] {
      NoLatent(lines[..|lines| - 1]);
    }
  }

  /** A line sold whole is sold for what it is worth. */
  lemma WholeSale(a: Account, i: nat)
    requires i < |a.lines| && Sellable(a.lines) && OneLineEach(a.lines)
    ensures var line := a.lines[i];
            && (Refused(a.lines, line.symbol, line.quantity).Some? <==> line.quantity == 0.0)
            && (line.quantity > 0.0 ==>
                  LineOf(a.lines, line.symbol) == Some(line) && SoldOf(line, line.quantity) == line.quantity)
  {
    var line := a.lines[i];
    if line.quantity > 0.0 {
      var found := LineOf(a.lines, line.symbol);
      assert IsLineOf(line, line.symbol);
      assert found.Some?;
      var k :| 0 <= k < |a.lines| && a.lines[k] == found.value;
      assert k == i;
    }
  }

  /** The projected tax of a part of the latent gain, worth over value, is that part of the whole tax. */
  lemma PartOfTax(p: Plan, worth: real, latent: real, value: real, now: Date, parse: string -> Option<real>)
    requires worth >= 0.0 && value > 0.0 && p.kind == AGED
    ensures var part := ProjectedTax(p, Some(Share(worth, latent, value)), now, parse);
            var whole := ProjectedTax(p, Some(latent), now, parse);
            && (part.Some? <==> whole.Some?)
            && (part.Some? ==> part.value == Share(worth, whole.value, value))
  {
    hide Readable, RateOn, Owed, LadderOf, Slice, Share;
    PositiveShare(worth, latent, value);
    var m := Readable(p, parse);
    if m.Some? && RateOn(p, m.value, now).Some? {
      SliceOfShare(RateOn(p, m.value, now).value, worth, Positive(latent), value);
    }
  }

  lemma PositiveShare(worth: real, latent: real, value: real)
    requires worth >= 0.0 && value > 0.0
    ensures Positive(Share(worth, latent, value)) == Share(worth, Positive(latent), value)
  {
    var part := Share(worth, latent, value);
    DivideThenMultiply(worth * latent, value);
    assert part * value == worth * latent;
    if latent > 0.0 {
      ProductOfNonNegatives(worth, latent);
    } else {
      ProductOfNonNegatives(worth, -latent);
      assert Share(worth, 0.0, value) == 0.0;
    }
  }

  lemma SliceOfShare(rate: real, worth: real, gain: real, value: real)
    requires value > 0.0
    ensures Slice(rate, Share(worth, gain, value)) == Share(worth, Slice(rate, gain), value)
  {
    var part := Share(worth, gain, value);
    DivideThenMultiply(worth * gain, value);
    DivideThenMultiply(worth * (gain * rate), value);
    assert part * value == worth * gain;
    assert (part * rate) * value == worth * (gain * rate);
  }

  lemma SharesAdd(a: real, b: real, tax: real, value: real)
    requires value > 0.0
    ensures Share(a + b, tax, value) == Share(a, tax, value) + Share(b, tax, value)
    ensures Share(0.0, tax, value) == 0.0
    ensures Share(value, tax, value) == tax
  {
    DivideThenMultiply(a * tax, value);
    DivideThenMultiply(b * tax, value);
    DivideThenMultiply((a + b) * tax, value);
    DivideThenMultiply(value * tax, value);
  }

  lemma {:induction false} SoldOutIsShare(a: Account, n: nat, tax: real, now: Date, parse: string -> Option<real>)
    requires a.plan.Some? && a.plan.value.kind == AGED && n <= |a.lines|
    requires Sellable(a.lines) && OneLineEach(a.lines)
    requires Valued(a.lines) && ValueOf(a.lines) > 0.0
    requires ProjectedTax(a.plan.value, Some(LatentOf(a.lines)), now, parse) == Some(tax)
    ensures Valued(a.lines[..n]) && SoldOut(a, n, now, parse) == Share(ValueOf(a.lines[..n]), tax, ValueOf(a.lines))
  {
    hide ProjectedTax, Share, Refused, Times, LineOf;
    var value := ValueOf(a.lines);
    if n == 0 {
      SharesAdd(0.0, 0.0, tax, value);
    } else {
      SoldOutIsShare(a, n - 1, tax, now, parse);
      var line := a.lines[n - 1];
      assert a.lines[..n][..n - 1] == a.lines[..n - 1];
      WholeSale(a, n - 1);
      if line.quantity > 0.0 {
        WorthIsPositive(line);
        PartOfTax(a.plan.value, Worth(line), LatentOf(a.lines), value, now, parse);
        SharesAdd(ValueOf(a.lines[..n - 1]), Worth(line), tax, value);
      }
    }
  }

  lemma WorthIsPositive(line: Line)
    requires line.quantity >= 0.0 && HasPrice(line)
    ensures Worth(line) >= 0.0
  {
    ProductOfNonNegatives(line.quantity, line.price.value);
  }

  /**
   * On an aged wrapper, the taxes on the way out of selling every
   * line whole add up to the tax of the plan's latent gain.
   */
  lemma SellingOutOwesTheWhole(a: Account, now: Date, parse: string -> Option<real>)
    requires a.plan.Some? && a.plan.value.kind == AGED && Sellable(a.lines) && OneLineEach(a.lines)
    ensures Valued(a.lines)
    ensures var whole := ProjectedTax(a.plan.value, Some(LatentOf(a.lines)), now, parse);
            whole.Some? ==> SoldOut(a, |a.lines|, now, parse) == whole.value
  {
    hide ProjectedTax, SoldOut, Share;
    ValueIsPositive(a.lines);
    var whole := ProjectedTax(a.plan.value, Some(LatentOf(a.lines)), now, parse);
    if whole.Some? {
      if ValueOf(a.lines) > 0.0 {
        SoldOutIsShare(a, |a.lines|, whole.value, now, parse);
        SharesAdd(0.0, 0.0, whole.value, ValueOf(a.lines));
        assert a.lines[..|a.lines|] == a.lines;
      } else {
        NoLatent(a.lines);
        NothingToSell(a, |a.lines|, now, parse);
        TaxIsBounded(a.plan.value, 0.0, 0.0, now, parse);
      }
    }
  }

  lemma {:induction false} NothingToSell(a: Account, n: nat, now: Date, parse: string -> Option<real>)
    requires a.plan.Some? && n <= |a.lines| && forall i :: 0 <= i < |a.lines| ==> a.lines[i].quantity == 0.0
    ensures SoldOut(a, n, now, parse) == 0.0
  {
    if n > 0 {
      NothingToSell(a, n - 1, now, parse);
    }
  }
}
