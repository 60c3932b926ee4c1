/** What an account would owe on its latent gain: flat, aged or by brackets, and when the rate turns. */
module TaxProjection {
  import opened Basics
  import opened Taxation

  // ---- The calendar ----

  datatype Date = Date(year: int, month: int, day: int)

  const MAX_YEAR := 9999

  predicate Leap(year: int) {
    year % 4 == 0 && (year % 100 != 0 || year % 400 == 0)
  }

  function MonthDays(year: int, month: int): int {
    if month == 2 then (if Leap(year) then 29 else 28)
    else if month == 4 || month == 6 || month == 9 || month == 11 then 30
    else 31
  }

  predicate ValidDate(d: Date) {
    1 <= d.year <= MAX_YEAR && 1 <= d.month <= 12 && 1 <= d.day <= MonthDays(d.year, d.month)
  }

  predicate Reached(day: Date, now: Date) {
    day.year < now.year
    || (day.year == now.year && (day.month < now.month || (day.month == now.month && day.day <= now.day)))
  }

  /** The same day of another year, the 28th for the 29 February it lacks; nothing past the calendar. */
  function Anniversary(start: Date, year: int): Option<Date> {
    if ValidDate(start.(year := year)) then Some(start.(year := year))
    else if ValidDate(start.(year := year, day := 28)) then Some(start.(year := year, day := 28))
    else None
  }

  /** An anniversary is a day of the calendar, in the month it started in, moved only off a 29 February. */
  lemma AnniversaryIsADay(start: Date, years: nat)
    requires ValidDate(start)
    ensures var a := Anniversary(start, start.year + years);
            && (a.Some? <==> start.year + years <= MAX_YEAR)
            && (a.Some? ==>
                  && ValidDate(a.value) && a.value.month == start.month && a.value.year == start.year + years
                  && a.value.day == (if start.month == 2 && start.day == 29 && !Leap(start.year + years) then 28
                                     else start.day))
  {
  }

  // ---- The rate of an aged wrapper ----

  function YearsOf(m: map<string, Json>): int {
    RateOr(m, "threshold_years", 0.0).Floor
  }

  function AgeDate(m: map<string, Json>, openedOn: Option<Date>, firstPayment: Option<Date>): Option<Date> {
    if "age_basis" in m && m["age_basis"] == Text(OPENING) then openedOn
    else if openedOn.Some? then openedOn else firstPayment
  }

  function ThresholdDay(m: map<string, Json>, start: Option<Date>): Option<Date> {
    if start.None? then None else Anniversary(start.value, start.value.year + YearsOf(m))
  }

  function WithLevy(rate: real, m: map<string, Json>): real {
    rate + RateOr(m, "social_rate", 0.0)
  }

  function AgedRate(m: map<string, Json>, start: Date, now: Date): Option<real> {
    var day := ThresholdDay(m, Some(start));
    if day.None? then None
    else Some(WithLevy(RateOr(m, if Reached(day.value, now) then "rate_after" else "rate_before", 0.0), m))
  }

  // ---- Brackets ----

  function Positive(gain: real): real {
    if gain > 0.0 then gain else 0.0
  }

  function FloorOf(ladder: seq<Rung>, i: nat): real
    requires i < |ladder|
  {
    if i > 0 && ladder[i - 1].upper.Some? then ladder[i - 1].upper.value else 0.0
  }

  /** How much of a gain falls inside a rung. */
  function Overlap(low: real, high: Option<real>, gain: real): real {
    var top := if high.Some? && high.value < gain then high.value else gain;
    if top > low then top - low else 0.0
  }

  function OverlapAt(ladder: seq<Rung>, i: nat, gain: real): real
    requires i < |ladder|
  {
    Overlap(FloorOf(ladder, i), ladder[i].upper, gain)
  }

  function Slice(rate: real, part: real): real {
    part * rate
  }

  /** Each of the first rungs' rate on what falls inside it. */
  function Owed(ladder: seq<Rung>, n: nat, gain: real): real
    requires n <= |ladder|
  {
    if n == 0 then 0.0 else Owed(ladder, n - 1, gain) + Slice(ladder[n - 1].rate, OverlapAt(ladder, n - 1, gain))
  }

  function CoveredBy(ladder: seq<Rung>, n: nat, gain: real): real
    requires n <= |ladder|
  {
    if n == 0 then 0.0 else CoveredBy(ladder, n - 1, gain) + OverlapAt(ladder, n - 1, gain)
  }

  lemma SliceBounds(rate: real, small: real, large: real)
    requires 0.0 <= rate <= 1.0 && 0.0 <= small <= large
    ensures 0.0 <= Slice(rate, small) <= Slice(rate, large)
    ensures Slice(rate, large) - Slice(rate, small) <= large - small
    ensures Slice(rate, 0.0) == 0.0
  {
    ProductOfNonNegatives(small, rate);
    ProductOfNonNegatives(large - small, rate);
    ProductOfNonNegatives(large - small, 1.0 - rate);
    assert Slice(rate, large) == Slice(rate, small) + (large - small) * rate;
  }

  /** The rungs cover the gain from zero up, without gap or overlap. */
  lemma {:induction false} RungsCover(ladder: seq<Rung>, n: nat, gain: real)
    requires LadderOk(ladder) && n <= |ladder|
    ensures CoveredBy(ladder, n, gain)
         == if n == 0 then 0.0
            else if ladder[n - 1].upper.Some? && ladder[n - 1].upper.value < gain then ladder[n - 1].upper.value
            else Positive(gain)
  {
    if n > 0 {
      RungsCover(ladder, n - 1, gain);
    }
  }

  lemma OverlapGrows(ladder: seq<Rung>, i: nat, small: real, large: real)
    requires i < |ladder| && small <= large
    ensures 0.0 <= OverlapAt(ladder, i, small) <= OverlapAt(ladder, i, large)
  {
  }

  /** Owed on more gain is more, by no more than the gain. */
  lemma {:induction false} OwedGrows(ladder: seq<Rung>, n: nat, small: real, large: real)
    requires LadderOk(ladder) && n <= |ladder| && small <= large
    ensures 0.0 <= Owed(ladder, n, small) <= Owed(ladder, n, large)
    ensures Owed(ladder, n, large) - Owed(ladder, n, small) <= CoveredBy(ladder, n, large) - CoveredBy(ladder, n, small)
  {
    hide Slice, OverlapAt;
    if n > 0 {
      OwedGrows(ladder, n - 1, small, large);
      OverlapGrows(ladder, n - 1, small, large);
      SliceBounds(ladder[n - 1].rate, OverlapAt(ladder, n - 1, small), OverlapAt(ladder, n - 1, large));
    }
  }

  lemma {:induction false} NothingOwed(ladder: seq<Rung>, n: nat, gain: real)
    requires LadderOk(ladder) && n <= |ladder| && gain <= 0.0
    ensures Owed(ladder, n, gain) == 0.0
  {
    if n > 0 {
      NothingOwed(ladder, n - 1, gain);
    }
  }

  /** The tax of a ladder lies between nothing and the gain, and rises with it by at most as much. */
  lemma LadderTax(ladder: seq<Rung>, small: real, large: real)
    requires LadderOk(ladder) && small <= large
    ensures 0.0 <= Owed(ladder, |ladder|, small) <= Positive(small)
    ensures 0.0 <= Owed(ladder, |ladder|, large) - Owed(ladder, |ladder|, small) <= large - small
    ensures Owed(ladder, |ladder|, large) == Owed(ladder, |ladder|, Positive(large))
  {
    hide Owed, CoveredBy;
    var n := |ladder|;
    OwedGrows(ladder, n, small, large);
    RungsCover(ladder, n, small);
    RungsCover(ladder, n, large);
    var least := if small < 0.0 then small else 0.0;
    OwedGrows(ladder, n, least, small);
    NothingOwed(ladder, n, least);
    RungsCover(ladder, n, least);
    if large <= 0.0 {
      NothingOwed(ladder, n, large);
      NothingOwed(ladder, n, Positive(large));
    }
  }

  /** The walk: slice by slice, until nothing of the gain is left. */
  method Bracketed(ladder: seq<Rung>, gain: real) returns (owed: real)
    requires LadderOk(ladder)
    ensures owed == Owed(ladder, |ladder|, gain)
  {
    var remaining, tax, low := Positive(gain), 0.0, 0.0;
    var i := 0;
    while i < |ladder|
      invariant 0 <= i <= |ladder|
      invariant tax == Owed(ladder, i, gain)
      invariant i < |ladder| ==> low == FloorOf(ladder, i) && (remaining == if gain > low then gain - low else 0.0)
    {
      if remaining <= 0.0 {
        break;
      }
      var bound := ladder[i].upper;
      var slice := if bound.None? || remaining < bound.value - low then remaining else bound.value - low;
      assert slice == OverlapAt(ladder, i, gain);
      tax := tax + Slice(ladder[i].rate, slice);
      remaining := remaining - slice;
      low := if bound.Some? then bound.value else low;
      i := i + 1;
    }
    NothingAbove(ladder, i, |ladder|, gain);
    LadderTax(ladder, gain, gain);
    owed := Positive(tax);
  }

  /** Past the rung that holds the whole gain, nothing more is owed. */
  lemma {:induction false} NothingAbove(ladder: seq<Rung>, i: nat, n: nat, gain: real)
    requires LadderOk(ladder) && i <= n <= |ladder|
    requires i < |ladder| ==> gain <= FloorOf(ladder, i)
    ensures Owed(ladder, n, gain) == Owed(ladder, i, gain)
  {
    if i < n {
      NothingAbove(ladder, i, n - 1, gain);
      FloorsClimb(ladder, i, n - 1);
    }
  }

  lemma {:induction false} FloorsClimb(ladder: seq<Rung>, i: nat, j: nat)
    requires LadderOk(ladder) && i <= j < |ladder|
    ensures FloorOf(ladder, i) <= FloorOf(ladder, j)
  {
    if i < j {
      FloorsClimb(ladder, i, j - 1);
    }
  }

  // ---- The projection ----

  /** The ladder of an accepted record. */
  function LadderOf(m: map<string, Json>, parse: string -> Option<real>): seq<Rung> {
    if "brackets" in m && LadderIn(m["brackets"], parse).Some? then LadderIn(m["brackets"], parse).value else []
  }

  /** What an account's projection is asked with; the gain is unknown when one of its lines is. */
  datatype Plan = Plan(kind: string, parameters: Json, openedOn: Option<Date>, firstPayment: Option<Date>)

  predicate Projects(kind: string) {
    kind == FLAT || kind == AGED || kind == BRACKETED
  }

  function Readable(p: Plan, parse: string -> Option<real>): Option<map<string, Json>> {
    Validated(Text(p.kind), p.parameters, parse)
  }

  /** The one rate of a flat or aged record at a day. */
  function RateOn(p: Plan, m: map<string, Json>, now: Date): Option<real> {
    if p.kind == FLAT then Some(WithLevy(RateOr(m, "rate", 0.0), m))
    else
      var start := AgeDate(m, p.openedOn, p.firstPayment);
      if start.None? then None else AgedRate(m, start.value, now)
  }

  function ProjectedTax(p: Plan, gain: Option<real>, now: Date, parse: string -> Option<real>): Option<real> {
    var m := Readable(p, parse);
    if !Projects(p.kind) || m.None? || gain.None? then None
    else if p.kind == BRACKETED then Some(Owed(LadderOf(m.value, parse), |LadderOf(m.value, parse)|, gain.value))
    else
      var rate := RateOn(p, m.value, now);
      if rate.None? then None else Some(Slice(rate.value, Positive(gain.value)))
  }

  method Project(p: Plan, gain: Option<real>, now: Date, parse: string -> Option<real>) returns (tax: Option<real>)
    ensures tax == ProjectedTax(p, gain, now, parse)
  {
    if !Projects(p.kind) {
      return None;
    }
    var m := Validate(Text(p.kind), p.parameters, parse);
    if m.None? || gain.None? {
      return None;
    }
    if p.kind == BRACKETED {
      RecordIsSound(p, m.value, parse);
      var owed := Bracketed(LadderOf(m.value, parse), gain.value);
      return Some(owed);
    }
    var rate := RateOn(p, m.value, now);
    tax := if rate.None? then None else Some(Slice(rate.value, Positive(gain.value)));
  }

  /**
   * What an accepted record holds for its kind: a climbing ladder, or rates that with the levy stay within the gain.
   */
  lemma RecordIsSound(p: Plan, m: map<string, Json>, parse: string -> Option<real>)
    requires Projects(p.kind) && Readable(p, parse) == Some(m)
    ensures p.kind == BRACKETED ==> LadderOk(LadderOf(m, parse))
    ensures p.kind == FLAT ==> 0.0 <= WithLevy(RateOr(m, "rate", 0.0), m) <= 1.0
    ensures p.kind == AGED ==> 0.0 <= WithLevy(RateOr(m, "rate_before", 0.0), m) <= 1.0
    ensures p.kind == AGED ==> 0.0 <= WithLevy(RateOr(m, "rate_after", 0.0), m) <= 1.0
    ensures p.kind == AGED ==> 0 <= YearsOf(m) <= MAX_THRESHOLD_YEARS
  {
    AcceptedIsModel(Text(p.kind), p.parameters, parse, m);
    if p.kind == BRACKETED {
      assert ParameterOk(ParametersOf(p.kind)[0], m);
      var ladder :| LadderOk(ladder) && m["brackets"] == JsonOfLadder(ladder);
      LadderRoundTrip(m["brackets"], ladder, parse);
    } else if p.kind == FLAT {
      assert ParameterOk(ParametersOf(p.kind)[0], m);
    } else {
      assert ParameterOk(ParametersOf(p.kind)[0], m) && ParameterOk(ParametersOf(p.kind)[1], m);
      assert ParameterOk(ParametersOf(p.kind)[2], m);
    }
  }

  lemma RateIsAFraction(p: Plan, m: map<string, Json>, now: Date, parse: string -> Option<real>)
    requires (p.kind == FLAT || p.kind == AGED) && Readable(p, parse) == Some(m)
    ensures var rate := RateOn(p, m, now); rate.Some? ==> 0.0 <= rate.value <= 1.0
  {
    hide Validated, WithLevy;
    RecordIsSound(p, m, parse);
  }

  /**
   * Of any accepted record: the tax lies between nothing and the gain,
   * and a larger gain owes more by at most the difference.
   */
  lemma TaxIsBounded(p: Plan, small: real, large: real, now: Date, parse: string -> Option<real>)
    requires small <= large
    ensures var s, l := ProjectedTax(p, Some(small), now, parse), ProjectedTax(p, Some(large), now, parse);
            && (s.Some? <==> l.Some?)
            && (s.Some? ==> 0.0 <= s.value <= Positive(small) && 0.0 <= l.value - s.value <= large - small)
  {
    hide Readable, Slice, Owed, RateOn, LadderOf;
    var m := Readable(p, parse);
    if Projects(p.kind) && m.Some? {
      RecordIsSound(p, m.value, parse);
      if p.kind == BRACKETED {
        LadderTax(LadderOf(m.value, parse), small, large);
      } else {
        RateIsAFraction(p, m.value, now, parse);
        var rate := RateOn(p, m.value, now);
        if rate.Some? {
          SliceBounds(rate.value, Positive(small), Positive(large));
          SliceBounds(rate.value, 0.0, Positive(small));
        }
      }
    }
  }

  // ---- The rates named beside the figure ----

  function AppliedRates(p: Plan, now: Date, parse: string -> Option<real>): Option<seq<real>> {
    var m := Readable(p, parse);
    if m.None? || !Projects(p.kind) then None
    else if p.kind == BRACKETED then
      var ladder := LadderOf(m.value, parse);
      Some(seq(|ladder|, i requires 0 <= i < |ladder| => ladder[i].rate))
    else
      var rate := RateOn(p, m.value, now);
      if rate.None? then None else Some([rate.value])
  }

  /** The day to come that the rate changes on. */
  function RateChangesOn(p: Plan, now: Date, parse: string -> Option<real>): Option<Date> {
    var m := Readable(p, parse);
    if p.kind != AGED || m.None? then None
    else
      var day := ThresholdDay(m.value, AgeDate(m.value, p.openedOn, p.firstPayment));
      if day.None? || Reached(day.value, now) then None else day
  }

  /** The figure is the named rate on the gain, and there is one exactly when there is the other. */
  lemma FigureIsTheNamedRate(p: Plan, gain: real, now: Date, parse: string -> Option<real>)
    ensures var tax, rates := ProjectedTax(p, Some(gain), now, parse), AppliedRates(p, now, parse);
            && (tax.Some? <==> rates.Some?)
            && (tax.Some? && p.kind != BRACKETED ==>
                  |rates.value| == 1 && tax.value == Slice(rates.value[0], Positive(gain)))
  {
    hide Readable, Slice, Owed, RateOn, LadderOf;
  }

  /** Until the day named, the rate is today's; from that day on, it is the one after the threshold. */
  lemma RateTurnsOnItsDay(p: Plan, now: Date, later: Date, parse: string -> Option<real>)
    requires Reached(now, later)
    ensures var day := RateChangesOn(p, now, parse);
            if day.None? || !Reached(day.value, later) then AppliedRates(p, later, parse) == AppliedRates(p, now, parse)
            else
              var m := Readable(p, parse).value;
              AppliedRates(p, later, parse) == Some([WithLevy(RateOr(m, "rate_after", 0.0), m)])
  {
    hide Readable, LadderOf, ThresholdDay, AgeDate;
    var m := Readable(p, parse);
    if m.Some? && p.kind == AGED {
      NoStart(m.value);
    }
  }

  lemma NoStart(m: map<string, Json>)
    ensures ThresholdDay(m, None).None?
  {
  }

  // ---- The figure, from the record's own numbers ----

  predicate IsNumber(m: map<string, Json>, name: string, number: real) {
    name in m && m[name] == Number(number)
  }

  /** The social levy of a record: what it says, nothing when it says nothing. */
  predicate IsLevy(m: map<string, Json>, levy: real) {
    if "social_rate" in m then m["social_rate"] == Number(levy) else levy == 0.0
  }

  /** A gain is taxed at a rate with its levy; a loss owes nothing. */
  predicate IsTaxed(tax: real, gain: real, rate: real, levy: real) {
    if gain > 0.0 then tax == gain * (rate + levy) else tax == 0.0
  }

  /**
   * The rate of an aged record on a day: the one before its start's anniversary,
   * or the one from it on, the levy with both.
   */
  predicate IsAgedRate(m: map<string, Json>, start: Date, now: Date, rate: real, levy: real) {
    && IsLevy(m, levy)
    && exists years ::
         0 <= years <= 200 && IsNumber(m, "threshold_years", years as real) && IsRateAt(m, start, years, now, rate)
  }

  predicate IsRateAt(m: map<string, Json>, start: Date, years: int, now: Date, rate: real) {
    start.year + years <= 9999 && IsNumber(m, if IsBefore(now, start, years) then "rate_before" else "rate_after", rate)
  }

  /** Before the anniversary, which is the 28th for a 29 February in a year that has none. */
  predicate IsBefore(now: Date, start: Date, years: int) {
    var year := start.year + years;
    var day := if start.month == 2 && start.day == 29 && !Leap(year) then 28 else start.day;
    now.year < year || (now.year == year && (now.month < start.month || (now.month == start.month && now.day < day)))
  }

  /** The day a wrapper's age counts from. */
  function StartOf(p: Plan, m: map<string, Json>): Option<Date> {
    if p.openedOn.Some? then p.openedOn
    else if "age_basis" in m && m["age_basis"] == Text("opening") then None
    else p.firstPayment
  }

  /** A flat record taxes what is gained at its rate and its levy, whatever the day. */
  lemma FlatFigure(p: Plan, m: map<string, Json>, gain: real, now: Date, parse: string -> Option<real>)
    requires p.kind == FLAT && Readable(p, parse) == Some(m)
    ensures exists rate, levy ::
              && IsNumber(m, "rate", rate) && IsLevy(m, levy)
              && ProjectedTax(p, Some(gain), now, parse).Some?
              && IsTaxed(ProjectedTax(p, Some(gain), now, parse).value, gain, rate, levy)
  {
    hide Readable;
    AcceptedNumbers(p, m, parse);
    var rate, levy := m["rate"].number, RateOr(m, "social_rate", 0.0);
    assert IsNumber(m, "rate", rate) && IsLevy(m, levy);
    assert RateOn(p, m, now) == Some(rate + levy);
    SliceIsTaxed(gain, rate, levy);
  }

  lemma SliceIsTaxed(gain: real, rate: real, levy: real)
    ensures IsTaxed(Slice(rate + levy, Positive(gain)), gain, rate, levy)
  {
  }

  lemma AcceptedNumbers(p: Plan, m: map<string, Json>, parse: string -> Option<real>)
    requires Projects(p.kind) && Readable(p, parse) == Some(m)
    ensures "social_rate" in m ==> m["social_rate"].Number?
    ensures p.kind == FLAT ==> "rate" in m && m["rate"].Number?
    ensures p.kind == AGED ==>
              && "rate_before" in m && m["rate_before"].Number? && "rate_after" in m && m["rate_after"].Number?
              && "threshold_years" in m && m["threshold_years"].Number? && IsYears(m["threshold_years"].number)
  {
    AcceptedIsModel(Text(p.kind), p.parameters, parse, m);
    var declared := ParametersOf(p.kind);
    if p.kind == FLAT {
      assert ParameterOk(declared[0], m) && ParameterOk(declared[1], m);
    } else if p.kind == AGED {
      assert ParameterOk(declared[0], m) && ParameterOk(declared[1], m);
      assert ParameterOk(declared[2], m) && ParameterOk(declared[4], m);
    } else {
      assert "social_rate" !in Declared(declared);
    }
  }

  /**
   * An aged record taxes what is gained at the rate of the day, and says nothing without a start or past the calendar.
   */
  lemma AgedFigure(p: Plan, m: map<string, Json>, gain: real, now: Date, parse: string -> Option<real>)
    requires p.kind == AGED && Readable(p, parse) == Some(m)
    requires StartOf(p, m).Some? ==> ValidDate(StartOf(p, m).value)
    ensures var tax, start := ProjectedTax(p, Some(gain), now, parse), StartOf(p, m);
            && (tax.Some? ==>
                  && start.Some?
                  && exists rate, levy ::
                       && IsAgedRate(m, start.value, now, rate, levy)
                       && IsTaxed(tax.value, gain, rate, levy))
            && (tax.None? && start.Some? ==> !exists rate, levy :: IsAgedRate(m, start.value, now, rate, levy))
  {
    hide Readable;
    AcceptedNumbers(p, m, parse);
    var start := StartOf(p, m);
    assert start == AgeDate(m, p.openedOn, p.firstPayment);
    if start.Some? {
      var years := m["threshold_years"].number.Floor;
      assert IsNumber(m, "threshold_years", years as real);
      AnniversaryIsADay(start.value, years);
      var before := IsBefore(now, start.value, years);
      var rate, levy := RateOr(m, if before then "rate_before" else "rate_after", 0.0), RateOr(m, "social_rate", 0.0);
      assert IsLevy(m, levy);
      if start.value.year + years <= 9999 {
        assert IsRateAt(m, start.value, years, now, rate);
        assert IsAgedRate(m, start.value, now, rate, levy);
        SliceIsTaxed(gain, rate, levy);
      }
    }
  }

  /** What more gain inside one rung puts in any rung. */
  lemma OverlapInside(ladder: seq<Rung>, i: nat, k: nat, small: real, large: real)
    requires LadderOk(ladder) && i < |ladder| && k < |ladder| && FloorOf(ladder, i) <= small <= large
    requires ladder[i].upper.Some? ==> large <= ladder[i].upper.value
    ensures k != i ==> OverlapAt(ladder, k, large) == OverlapAt(ladder, k, small)
    ensures k == i ==> OverlapAt(ladder, k, large) == OverlapAt(ladder, k, small) + (large - small)
  {
    if k < i {
      FloorsClimb(ladder, k + 1, i);
    } else if i < k {
      FloorsClimb(ladder, i + 1, k);
    }
  }

  /** Inside a rung, what more gain owes is the rung's rate on it; and nothing is owed on nothing. */
  lemma {:induction false} MarginalRate(ladder: seq<Rung>, i: nat, n: nat, small: real, large: real)
    requires LadderOk(ladder) && i < |ladder| && n <= |ladder| && FloorOf(ladder, i) <= small <= large
    requires ladder[i].upper.Some? ==> large <= ladder[i].upper.value
    ensures Owed(ladder, n, large) - Owed(ladder, n, small) == if i < n then (large - small) * ladder[i].rate else 0.0
    ensures Owed(ladder, n, 0.0) == 0.0
  {
    hide Slice, OverlapAt, LadderOk, FloorOf;
    NothingOwed(ladder, n, 0.0);
    if n > 0 {
      MarginalRate(ladder, i, n - 1, small, large);
      OverlapInside(ladder, i, n - 1, small, large);
      if n - 1 == i {
        SliceOfMore(ladder[i].rate, OverlapAt(ladder, i, small), large - small);
      }
    }
  }

  lemma SliceOfMore(rate: real, part: real, more: real)
    ensures Slice(rate, part + more) == Slice(rate, part) + more * rate
  {
  }

  lemma AcceptedLadder(p: Plan, m: map<string, Json>, parse: string -> Option<real>) returns (ladder: seq<Rung>)
    requires p.kind == BRACKETED && Readable(p, parse) == Some(m)
    ensures LadderOk(ladder) && "brackets" in m && m["brackets"] == JsonOfLadder(ladder)
    ensures LadderOf(m, parse) == ladder
  {
    hide LadderIn, JsonOfLadder;
    AcceptedIsModel(Text(p.kind), p.parameters, parse, m);
    assert ParameterOk(ParametersOf(p.kind)[0], m);
    ladder :| LadderOk(ladder) && m["brackets"] == JsonOfLadder(ladder);
    LadderRoundTrip(m["brackets"], ladder, parse);
  }

  /** A ladder's record taxes by its own ladder, and names its rates. */
  lemma LadderFigure(p: Plan, m: map<string, Json>, gain: real, now: Date, parse: string -> Option<real>)
    requires p.kind == BRACKETED && Readable(p, parse) == Some(m)
    ensures exists ladder: seq<Rung> ::
              && LadderOk(ladder) && "brackets" in m && m["brackets"] == JsonOfLadder(ladder)
              && ProjectedTax(p, Some(gain), now, parse)
                 == Some(Owed(ladder, |ladder|, if gain > 0.0 then gain else 0.0))
              && AppliedRates(p, now, parse).Some? && |AppliedRates(p, now, parse).value| == |ladder|
              && forall i :: 0 <= i < |ladder| ==> AppliedRates(p, now, parse).value[i] == ladder[i].rate
  {
    hide Readable, Owed, LadderOk, LadderIn, JsonOfLadder, RateOn;
    var ladder := AcceptedLadder(p, m, parse);
    LadderTax(ladder, gain, gain);
  }
}
