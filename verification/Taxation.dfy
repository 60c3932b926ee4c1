/** A taxation model: a closed kind, its typed parameters, and what makes a record of one acceptable. */
module Taxation {
  import opened Basics

  /** A value as a request body or a column carries it. */
  datatype Json =
    | Null
    | Bool(flag: bool)
    | Number(number: real)
    | Text(text: string)
    | List(items: seq<Json>)
    | Object(members: map<string, Json>)

  datatype Shape = Rate | Years | AgeBasis | Brackets

  datatype Parameter = Parameter(name: string, shape: Shape, required: bool)

  const NONE := "none"
  const FLAT := "flat_realised"
  const AGED := "aged_flat_realised"
  const BRACKETED := "bracketed_realised"
  const WITHHOLDING := "withholding_income"

  const OPENING := "opening"
  const FIRST_PAYMENT := "first_payment"

  const MAX_THRESHOLD_YEARS := 200

  const RATE := Parameter("rate", Rate, true)
  const SOCIAL_RATE := Parameter("social_rate", Rate, false)

  predicate IsKind(kind: string) {
    kind == NONE || kind == FLAT || kind == AGED || kind == BRACKETED || kind == WITHHOLDING
  }

  function ParametersOf(kind: string): seq<Parameter> {
    if kind == FLAT then [RATE, SOCIAL_RATE]
    else if kind == AGED then
      [Parameter("rate_before", Rate, true), Parameter("rate_after", Rate, true),
       Parameter("threshold_years", Years, true),
       Parameter("age_basis", AgeBasis, true), SOCIAL_RATE]
    else if kind == BRACKETED then [Parameter("brackets", Brackets, true)]
    else if kind == WITHHOLDING then [RATE]
    else []
  }

  // ---- One value ----

  predicate Blank(v: Json) {
    v.Null? || v == Text("")
  }

  /** A number, or a text `parse` reads as one; a flag is not a number. */
  function NumberIn(v: Json, parse: string -> Option<real>): Option<real> {
    match v
    case Number(number) => Some(number)
    case Text(text) => parse(text)
    case _ => None
  }

  function RateIn(v: Json, parse: string -> Option<real>): Option<real> {
    var number := NumberIn(v, parse);
    if number.Some? && 0.0 <= number.value <= 1.0 then number else None
  }

  predicate IsYears(number: real) {
    0.0 <= number <= MAX_THRESHOLD_YEARS as real && number == number.Floor as real
  }

  // ---- A ladder ----

  /** One bracket; the top one has no ceiling. */
  datatype Rung = Rung(upper: Option<real>, rate: real)

  /** The ladders accepted: climbing from zero, every rate a fraction, the top rung and no other open. */
  predicate LadderOk(ladder: seq<Rung>) {
    && ladder != [] && ladder[|ladder| - 1].upper.None?
    && (forall i :: 0 <= i < |ladder| ==> 0.0 <= ladder[i].rate <= 1.0)
    && (forall i :: 0 <= i < |ladder| - 1 ==> ladder[i].upper.Some? && ladder[i].upper.value > 0.0)
    && forall i :: 0 < i < |ladder| - 1 ==> ladder[i - 1].upper.value < ladder[i].upper.value
  }

  function Member(v: Json, name: string): Json {
    if v.Object? && name in v.members then v.members[name] else Null
  }

  /** One rung of a body, after the ceiling below it; nothing when it is refused. */
  function RungIn(v: Json, last: bool, below: Option<real>, parse: string -> Option<real>): Option<Rung> {
    if !v.Object? then None
    else
      var rate, bound := RateIn(Member(v, "rate"), parse), Member(v, "upper_bound");
      if rate.None? then None
      else if last then (if Blank(bound) then Some(Rung(None, rate.value)) else None)
      else if Blank(bound) then None
      else
        var number := NumberIn(bound, parse);
        if number.None? || number.value <= 0.0 || (below.Some? && number.value <= below.value) then None
        else Some(Rung(number, rate.value))
  }

  /** The first rungs of a body, each after the ceiling below it. */
  function RungsIn(items: seq<Json>, n: nat, parse: string -> Option<real>): (r: Option<seq<Rung>>)
    requires n <= |items|
    ensures r.Some? ==> |r.value| == n
  {
    if n == 0 then Some([])
    else
      var before := RungsIn(items, n - 1, parse);
      if before.None? then None
      else
        var rung := RungIn(items[n - 1], n == |items|, if n == 1 then None else before.value[n - 2].upper, parse);
        if rung.None? then None else Some(before.value + [rung.value])
  }

  function LadderIn(v: Json, parse: string -> Option<real>): Option<seq<Rung>> {
    if !v.List? || v.items == [] then None else RungsIn(v.items, |v.items|, parse)
  }

  function JsonOfRung(r: Rung): Json {
    Object(map["upper_bound" := if r.upper.Some? then Number(r.upper.value) else Null, "rate" := Number(r.rate)])
  }

  function JsonOfLadder(ladder: seq<Rung>): (v: Json)
    ensures v.List? && |v.items| == |ladder| && forall i :: 0 <= i < |ladder| ==> v.items[i] == JsonOfRung(ladder[i])
  {
    List(seq(|ladder|, i requires 0 <= i < |ladder| => JsonOfRung(ladder[i])))
  }

  predicate Climbing(rungs: seq<Rung>, total: nat) {
    && |rungs| <= total
    && (forall i :: 0 <= i < |rungs| ==> 0.0 <= rungs[i].rate <= 1.0)
    && (forall i :: 0 <= i < |rungs| ==>
          if i == total - 1 then rungs[i].upper.None? else rungs[i].upper.Some? && rungs[i].upper.value > 0.0)
    && forall i :: 0 < i < |rungs| && i < total - 1 ==> rungs[i - 1].upper.value < rungs[i].upper.value
  }

  lemma {:induction false} RungsClimb(items: seq<Json>, n: nat, parse: string -> Option<real>)
    requires n <= |items|
    ensures RungsIn(items, n, parse).Some? ==> Climbing(RungsIn(items, n, parse).value, |items|)
  {
    if n > 0 {
      RungsClimb(items, n - 1, parse);
    }
  }

  /** What a ladder is read as climbs; and a ladder that climbs is read back as itself. */
  lemma LadderRoundTrip(v: Json, ladder: seq<Rung>, parse: string -> Option<real>)
    ensures LadderIn(v, parse) == Some(ladder) ==> LadderOk(ladder)
    ensures LadderOk(ladder) <==> LadderIn(JsonOfLadder(ladder), parse) == Some(ladder)
  {
    if v.List? {
      RungsClimb(v.items, |v.items|, parse);
    }
    var w := JsonOfLadder(ladder);
    RungsClimb(w.items, |w.items|, parse);
    if LadderOk(ladder) {
      RungsBack(ladder, |ladder|, parse);
      assert ladder[..|ladder|] == ladder;
    }
  }

  lemma {:induction false} RungsBack(ladder: seq<Rung>, n: nat, parse: string -> Option<real>)
    requires LadderOk(ladder) && n <= |ladder|
    ensures RungsIn(JsonOfLadder(ladder).items, n, parse) == Some(ladder[..n])
  {
    if n > 0 {
      RungsBack(ladder, n - 1, parse);
      var r := ladder[n - 1];
      RungBack(r, n == |ladder|, if n == 1 then None else ladder[n - 2].upper, parse);
      assert ladder[..n] == ladder[..n - 1] + [r];
    }
  }

  lemma RungBack(r: Rung, last: bool, below: Option<real>, parse: string -> Option<real>)
    requires 0.0 <= r.rate <= 1.0 && (last <==> r.upper.None?)
    requires r.upper.Some? ==> r.upper.value > 0.0 && (below.Some? ==> below.value < r.upper.value)
    ensures RungIn(JsonOfRung(r), last, below, parse) == Some(r)
  {
    var v := JsonOfRung(r);
    assert Member(v, "rate") == Number(r.rate);
    assert Member(v, "upper_bound") == if r.upper.Some? then Number(r.upper.value) else Null;
  }

  // ---- A record ----

  /** One value, checked and normalised. */
  function Checked(shape: Shape, v: Json, parse: string -> Option<real>): Option<Json> {
    match shape
    case Rate => var rate := RateIn(v, parse); if rate.Some? then Some(Number(rate.value)) else None
    case Years =>
      var number := NumberIn(v, parse);
      if number.Some? && IsYears(number.value) then Some(Number(number.value)) else None
    case AgeBasis => if v == Text(OPENING) || v == Text(FIRST_PAYMENT) then Some(v) else None
    case Brackets => var ladder := LadderIn(v, parse); if ladder.Some? then Some(JsonOfLadder(ladder.value)) else None
  }

  function CheckedAll(given: map<string, Json>, parameters: seq<Parameter>,
                      parse: string -> Option<real>): Option<map<string, Json>>
  {
    if parameters == [] then Some(map[])
    else
      var before, p := CheckedAll(given, parameters[..|parameters| - 1], parse), parameters[|parameters| - 1];
      if before.None? then None
      else if p.name !in given || Blank(given[p.name]) then (if p.required then None else before)
      else
        var value := Checked(p.shape, given[p.name], parse);
        if value.None? then None else Some(before.value[p.name := value.value])
  }

  function Declared(parameters: seq<Parameter>): set<string> {
    set i | 0 <= i < |parameters| :: parameters[i].name
  }

  function RateOr(m: map<string, Json>, name: string, other: real): real {
    if name in m && m[name].Number? then m[name].number else other
  }

  /** No rate, with the levy beside it, takes more than the gain. */
  predicate WithinTheGain(m: map<string, Json>) {
    var levy := RateOr(m, "social_rate", 0.0);
    && RateOr(m, "rate", 0.0) + levy <= 1.0 && RateOr(m, "rate_before", 0.0) + levy <= 1.0
    && RateOr(m, "rate_after", 0.0) + levy <= 1.0
  }

  function Validated(kind: Json, parameters: Json, parse: string -> Option<real>): Option<map<string, Json>> {
    if !kind.Text? || !IsKind(kind.text) then None
    else if !parameters.Null? && !parameters.Object? then None
    else
      var given := if parameters.Object? then parameters.members else map[];
      if !(given.Keys <= Declared(ParametersOf(kind.text))) then None
      else
        var checked := CheckedAll(given, ParametersOf(kind.text), parse);
        if checked.None? || !WithinTheGain(checked.value) then None else checked
  }

  /** A value in its stored form. */
  ghost predicate Normal(shape: Shape, v: Json) {
    match shape
    case Rate => v.Number? && 0.0 <= v.number <= 1.0
    case Years => v.Number? && IsYears(v.number)
    case AgeBasis => v == Text(OPENING) || v == Text(FIRST_PAYMENT)
    case Brackets => exists ladder :: LadderOk(ladder) && v == JsonOfLadder(ladder)
  }

  /**
   * The records a store may hold: the declared parameters, each in its
   * form, none needed missing, and no rate past the gain.
   */
  ghost predicate IsModel(kind: string, m: map<string, Json>) {
    && IsKind(kind) && m.Keys <= Declared(ParametersOf(kind)) && WithinTheGain(m)
    && forall i :: 0 <= i < |ParametersOf(kind)| ==> ParameterOk(ParametersOf(kind)[i], m)
  }

  ghost predicate ParameterOk(p: Parameter, m: map<string, Json>) {
    if p.name in m then Normal(p.shape, m[p.name]) else !p.required
  }

  lemma CheckedIsNormal(shape: Shape, v: Json, parse: string -> Option<real>)
    ensures var c := Checked(shape, v, parse);
            c.Some? ==> Normal(shape, c.value) && !Blank(c.value)
    ensures Normal(shape, v) ==> Checked(shape, v, parse) == Some(v) && !Blank(v)
  {
    if shape.Brackets? {
      var ladder := LadderIn(v, parse);
      if ladder.Some? {
        LadderRoundTrip(v, ladder.value, parse);
      }
      if Normal(shape, v) {
        var l :| LadderOk(l) && v == JsonOfLadder(l);
        LadderRoundTrip(v, l, parse);
      }
    }
  }

  lemma CheckedStep(given: map<string, Json>, parameters: seq<Parameter>, parse: string -> Option<real>)
    ensures parameters == [] ==> CheckedAll(given, parameters, parse) == Some(map[])
    ensures parameters != [] ==>
              var p := parameters[|parameters| - 1];
              var before, after := CheckedAll(given, parameters[..|parameters| - 1], parse),
                                   CheckedAll(given, parameters, parse);
              && (before.None? ==> after.None?)
              && (after.Some? ==>
                    if p.name !in given || Blank(given[p.name]) then !p.required && after == before
                    else
                      var value := Checked(p.shape, given[p.name], parse);
                      value.Some? && after == Some(before.value[p.name := value.value]))
  {
  }

  predicate DistinctNames(parameters: seq<Parameter>) {
    forall i, j :: 0 <= i < j < |parameters| ==> parameters[i].name != parameters[j].name
  }

  lemma {:induction false} CheckedAllIsNormal(given: map<string, Json>, parameters: seq<Parameter>,
                                              parse: string -> Option<real>)
    requires DistinctNames(parameters)
    ensures var c := CheckedAll(given, parameters, parse);
            c.Some? ==>
              && c.value.Keys <= Declared(parameters)
              && forall i :: 0 <= i < |parameters| ==> ParameterOk(parameters[i], c.value)
  {
    hide Checked, Normal, Blank, CheckedAll;
    CheckedStep(given, parameters, parse);
    if parameters != [] {
      var n := |parameters| - 1;
      var p := parameters[n];
      CheckedAllIsNormal(given, parameters[..n], parse);
      var before := CheckedAll(given, parameters[..n], parse);
      if before.Some? {
        assert p.name !in before.value;
        assert forall x :: x in Declared(parameters[..n]) ==> x in Declared(parameters);
        assert p.name in Declared(parameters);
        if p.name in given {
          CheckedIsNormal(p.shape, given[p.name], parse);
        }
      }
    }
  }

  /** The part of a record over some parameters. */
  function Over(m: map<string, Json>, parameters: seq<Parameter>): map<string, Json> {
    map name | name in m && name in Declared(parameters) :: m[name]
  }

  lemma {:induction false} NormalIsKept(m: map<string, Json>, parameters: seq<Parameter>, parse: string -> Option<real>)
    requires DistinctNames(parameters) && forall i :: 0 <= i < |parameters| ==> ParameterOk(parameters[i], m)
    ensures CheckedAll(m, parameters, parse) == Some(Over(m, parameters))
  {
    hide Checked, Normal, Blank;
    if parameters == [] {
      assert Over(m, parameters) == map[];
    } else {
      var n := |parameters| - 1;
      var p := parameters[n];
      NormalIsKept(m, parameters[..n], parse);
      assert ParameterOk(p, m);
      assert Declared(parameters) == Declared(parameters[..n]) + {p.name};
      if p.name in m {
        CheckedIsNormal(p.shape, m[p.name], parse);
        assert Over(m, parameters) == Over(m, parameters[..n])[p.name := m[p.name]];
      } else {
        assert Over(m, parameters) == Over(m, parameters[..n]);
      }
    }
  }

  /** What is accepted is a model, and every model is accepted as itself. */
  lemma AcceptedIsModel(kind: Json, parameters: Json, parse: string -> Option<real>, m: map<string, Json>)
    ensures Validated(kind, parameters, parse) == Some(m) ==> IsModel(kind.text, m)
    ensures kind.Text? ==> (IsModel(kind.text, m) <==> Validated(kind, Object(m), parse) == Some(m))
  {
    hide CheckedAll, ParameterOk, WithinTheGain;
    if kind.Text? && IsKind(kind.text) {
      var declared := ParametersOf(kind.text);
      assert DistinctNames(declared);
      CheckedAllIsNormal(if parameters.Object? then parameters.members else map[], declared, parse);
      CheckedAllIsNormal(m, declared, parse);
      if IsModel(kind.text, m) {
        NormalIsKept(m, declared, parse);
        assert Over(m, declared) == m;
      }
    }
  }

  /** Checking what was checked changes nothing. */
  lemma ValidateIsIdempotent(kind: Json, parameters: Json, parse: string -> Option<real>)
    ensures var once := Validated(kind, parameters, parse);
            once.Some? ==> Validated(kind, Object(once.value), parse) == once
  {
    var once := Validated(kind, parameters, parse);
    if once.Some? {
      AcceptedIsModel(kind, parameters, parse, once.value);
    }
  }

  // ---- The check, as it is run ----

  method CheckLadder(items: seq<Json>, parse: string -> Option<real>) returns (ladder: Option<seq<Rung>>)
    requires items != []
    ensures ladder == RungsIn(items, |items|, parse)
  {
    var rungs: seq<Rung> := [];
    var previous: Option<real> := None;
    for i := 0 to |items|
      invariant RungsIn(items, i, parse) == Some(rungs)
      invariant previous == if i == 0 then None else rungs[i - 1].upper
    {
      var rung := RungIn(items[i], i == |items| - 1, previous, parse);
      if rung.None? {
        RefusedRung(items, i, parse);
        return None;
      }
      rungs := rungs + [rung.value];
      previous := rung.value.upper;
    }
    ladder := Some(rungs);
  }

  lemma {:induction false} RefusedRung(items: seq<Json>, i: nat, parse: string -> Option<real>)
    requires i < |items| && RungsIn(items, i + 1, parse).None?
    ensures RungsIn(items, |items|, parse).None?
  {
    RefusedRungFrom(items, i + 1, |items|, parse);
  }

  lemma {:induction false} RefusedRungFrom(items: seq<Json>, i: nat, n: nat, parse: string -> Option<real>)
    requires i <= n <= |items| && RungsIn(items, i, parse).None?
    ensures RungsIn(items, n, parse).None?
  {
    if i < n {
      RefusedRungFrom(items, i, n - 1, parse);
    }
  }

  method CheckValue(shape: Shape, v: Json, parse: string -> Option<real>) returns (c: Option<Json>)
    ensures c == Checked(shape, v, parse)
  {
    if shape.Brackets? && v.List? && v.items != [] {
      var ladder := CheckLadder(v.items, parse);
      return if ladder.Some? then Some(JsonOfLadder(ladder.value)) else None;
    }
    c := Checked(shape, v, parse);
  }

  method Validate(kind: Json, parameters: Json, parse: string -> Option<real>) returns (m: Option<map<string, Json>>)
    ensures m == Validated(kind, parameters, parse)
  {
    if !kind.Text? || !IsKind(kind.text) || (!parameters.Null? && !parameters.Object?) {
      return None;
    }
    var given := if parameters.Object? then parameters.members else map[];
    var declared := ParametersOf(kind.text);
    if !(given.Keys <= Declared(declared)) {
      return None;
    }
    var checked := CheckEach(given, declared, parse);
    m := if checked.None? || !WithinTheGain(checked.value) then None else checked;
  }

  method CheckEach(given: map<string, Json>, parameters: seq<Parameter>, parse: string -> Option<real>)
    returns (m: Option<map<string, Json>>)
    ensures m == CheckedAll(given, parameters, parse)
  {
    var checked: map<string, Json> := map[];
    for i := 0 to |parameters|
      invariant CheckedAll(given, parameters[..i], parse) == Some(checked)
    {
      assert parameters[..i + 1][..i] == parameters[..i];
      var p := parameters[i];
      if p.name !in given || Blank(given[p.name]) {
        if p.required {
          RefusedParameter(given, parameters, i + 1, |parameters|, parse);
          return None;
        }
        continue;
      }
      var value := CheckValue(p.shape, given[p.name], parse);
      if value.None? {
        RefusedParameter(given, parameters, i + 1, |parameters|, parse);
        return None;
      }
      checked := checked[p.name := value.value];
    }
    assert parameters[..|parameters|] == parameters;
    m := Some(checked);
  }

  lemma {:induction false} RefusedParameter(given: map<string, Json>, parameters: seq<Parameter>, i: nat, n: nat,
                                            parse: string -> Option<real>)
    requires i <= n <= |parameters| && CheckedAll(given, parameters[..i], parse).None?
    ensures CheckedAll(given, parameters[..n], parse).None?
    ensures n == |parameters| ==> CheckedAll(given, parameters, parse).None?
  {
    if i < n {
      RefusedParameter(given, parameters, i, n - 1, parse);
      assert parameters[..n][..n - 1] == parameters[..n - 1];
    }
    assert parameters[..|parameters|] == parameters;
  }

  // ---- What is accepted, told from what was sent ----

  /** A value carries a number: as one, or as a text that reads as one. */
  predicate Carries(v: Json, number: real, parse: string -> Option<real>) {
    (v.Number? && v.number == number) || (v.Text? && parse(v.text) == Some(number))
  }

  /** A rung is what its object carries; its ceiling is missing or blank when it has none. */
  predicate RungReads(v: Json, r: Rung, parse: string -> Option<real>) {
    && v.Object? && "rate" in v.members && Carries(v.members["rate"], r.rate, parse)
    && var bound := if "upper_bound" in v.members then v.members["upper_bound"] else Null;
       var bare := bound == Null || bound == Text("");
       match r.upper
       case None => bare
       case Some(upper) => !bare && Carries(bound, upper, parse)
  }

  ghost predicate LadderReads(v: Json, ladder: seq<Rung>, parse: string -> Option<real>) {
    && v.List? && |v.items| == |ladder| && LadderOk(ladder)
    && forall i :: 0 <= i < |ladder| ==> RungReads(v.items[i], ladder[i], parse)
  }

  /** The stored form of one value. */
  ghost predicate ReadsAs(shape: Shape, v: Json, c: Json, parse: string -> Option<real>) {
    match shape
    case Rate => c.Number? && Carries(v, c.number, parse) && 0.0 <= c.number <= 1.0
    case Years =>
      c.Number? && Carries(v, c.number, parse) && 0.0 <= c.number <= 200.0 && c.number == c.number.Floor as real
    case AgeBasis => c == v && (v == Text("opening") || v == Text("first_payment"))
    case Brackets => exists ladder :: LadderReads(v, ladder, parse) && c == JsonOfLadder(ladder)
  }

  lemma RungReadsBack(v: Json, last: bool, below: Option<real>, r: Rung, parse: string -> Option<real>)
    ensures RungIn(v, last, below, parse) == Some(r) <==>
              && RungReads(v, r, parse) && 0.0 <= r.rate <= 1.0 && (last <==> r.upper.None?)
              && (r.upper.Some? ==> r.upper.value > 0.0 && (below.Some? ==> below.value < r.upper.value))
  {
  }

  lemma ClimbingStep(rungs: seq<Rung>, total: nat)
    requires 0 < |rungs| <= total
    ensures var n := |rungs| - 1;
            var r, below := rungs[n], if n == 0 then None else rungs[n - 1].upper;
            Climbing(rungs, total) <==>
              && Climbing(rungs[..n], total) && 0.0 <= r.rate <= 1.0 && (n + 1 == total <==> r.upper.None?)
              && (r.upper.Some? ==> r.upper.value > 0.0 && (below.Some? ==> below.value < r.upper.value))
  {
    var n := |rungs| - 1;
    assert forall i :: 0 <= i < n ==> rungs[..n][i] == rungs[i];
  }

  lemma {:induction false} RungsReadBack(items: seq<Json>, n: nat, rungs: seq<Rung>, parse: string -> Option<real>)
    requires n <= |items|
    ensures RungsIn(items, n, parse) == Some(rungs) <==>
              |rungs| == n && Climbing(rungs, |items|) && forall i :: 0 <= i < n ==>
                  RungReads(items[i], rungs[i], parse)
  {
    hide RungReads, RungIn, RungsIn, Climbing;
    RungsStep(items, n, rungs, parse);
    if n == 0 {
      NothingClimbs(|items|);
    } else if |rungs| == n {
      var before, below := rungs[..n - 1], if n == 1 then None else rungs[n - 2].upper;
      RungsReadBack(items, n - 1, before, parse);
      RungReadsBack(items[n - 1], n == |items|, below, rungs[n - 1], parse);
      ClimbingStep(rungs, |items|);
      assert forall i :: 0 <= i < n - 1 ==> before[i] == rungs[i];
    }
  }

  lemma RungsStep(items: seq<Json>, n: nat, rungs: seq<Rung>, parse: string -> Option<real>)
    requires n <= |items|
    ensures n == 0 ==> (RungsIn(items, n, parse) == Some(rungs) <==> rungs == [])
    ensures |rungs| != n ==> RungsIn(items, n, parse) != Some(rungs)
    ensures n > 0 && |rungs| == n ==>
              var below := if n == 1 then None else rungs[n - 2].upper;
              RungsIn(items, n, parse) == Some(rungs) <==>
                && RungsIn(items, n - 1, parse) == Some(rungs[..n - 1])
                && RungIn(items[n - 1], n == |items|, below, parse) == Some(rungs[n - 1])
  {
    hide RungIn;
    if n > 0 && |rungs| == n {
      assert rungs == rungs[..n - 1] + [rungs[n - 1]];
    }
  }

  lemma NothingClimbs(total: nat)
    ensures Climbing([], total)
  {
  }

  lemma LadderReadsBack(v: Json, ladder: seq<Rung>, parse: string -> Option<real>)
    ensures LadderIn(v, parse) == Some(ladder) <==> LadderReads(v, ladder, parse)
  {
    hide RungReads;
    if v.List? {
      RungsReadBack(v.items, |v.items|, ladder, parse);
    }
  }

  lemma CheckedReads(shape: Shape, v: Json, c: Json, parse: string -> Option<real>)
    ensures Checked(shape, v, parse) == Some(c) <==> ReadsAs(shape, v, c, parse)
  {
    if shape.Brackets? {
      hide LadderIn, LadderReads;
      forall ladder ensures LadderIn(v, parse) == Some(ladder) <==> LadderReads(v, ladder, parse) {
        LadderReadsBack(v, ladder, parse);
      }
    }
  }

  /** What a parameter of a body becomes in the record. */
  ghost predicate ParameterReads(p: Parameter, given: map<string, Json>, m: map<string, Json>,
                                 parse: string -> Option<real>)
  {
    if p.name in given && given[p.name] != Null && given[p.name] != Text("")
    then p.name in m && ReadsAs(p.shape, given[p.name], m[p.name], parse)
    else !p.required && p.name !in m
  }

  lemma {:induction false} CheckedAllReads(given: map<string, Json>, parameters: seq<Parameter>, m: map<string, Json>,
                                           parse: string -> Option<real>)
    requires DistinctNames(parameters) && m.Keys <= Declared(parameters)
    ensures CheckedAll(given, parameters, parse) == Some(m) <==>
              forall i :: 0 <= i < |parameters| ==> ParameterReads(parameters[i], given, m, parse)
  {
    hide Checked, ReadsAs;
    if parameters == [] {
      assert m == map[];
    } else {
      var n := |parameters| - 1;
      var p := parameters[n];
      var part := m - {p.name};
      assert Declared(parameters) == Declared(parameters[..n]) + {p.name};
      CheckedAllReads(given, parameters[..n], part, parse);
      forall i | 0 <= i < n
        ensures ParameterReads(parameters[i], given, m, parse)
                <==> ParameterReads(parameters[..n][i], given, part, parse)
      {
      }
      if p.name in given && p.name in m {
        CheckedReads(p.shape, given[p.name], m[p.name], parse);
      }
      LastReads(given, parameters, m, parse);
    }
  }

  /** The last parameter, read into what the others made. */
  lemma LastReads(given: map<string, Json>, parameters: seq<Parameter>, m: map<string, Json>,
                  parse: string -> Option<real>)
    requires parameters != [] && DistinctNames(parameters) && m.Keys <= Declared(parameters)
    ensures var p := parameters[|parameters| - 1];
            CheckedAll(given, parameters, parse) == Some(m) <==>
              && CheckedAll(given, parameters[..|parameters| - 1], parse) == Some(m - {p.name})
              && ParameterReads(p, given, m, parse)
  {
    hide Checked, ReadsAs, Normal;
    var n := |parameters| - 1;
    var p := parameters[n];
    CheckedAllIsNormal(given, parameters[..n], parse);
    var before := CheckedAll(given, parameters[..n], parse);
    if before.Some? {
      assert p.name !in before.value;
      if p.name in given && !Blank(given[p.name]) {
        forall c
          ensures Checked(p.shape, given[p.name], parse) == Some(c) <==> ReadsAs(p.shape, given[p.name], c, parse)
        {
          CheckedReads(p.shape, given[p.name], c, parse);
        }
        var value := Checked(p.shape, given[p.name], parse);
        assert value.Some? ==> before.value[p.name := value.value] - {p.name} == before.value;
        assert p.name in m ==> (m - {p.name})[p.name := m[p.name]] == m;
      } else {
        assert before.value - {p.name} == before.value;
        assert p.name !in m ==> m - {p.name} == m;
      }
    }
  }

  /** A rate takes no more than the gain with its levy. */
  predicate TakesNoMore(m: map<string, Json>, name: string) {
    var levy := if "social_rate" in m && m["social_rate"].Number? then m["social_rate"].number else 0.0;
    name in m && m[name].Number? ==> m[name].number + levy <= 1.0
  }

  /**
   * What is accepted, and as what: exactly a body of a known kind that sends none but its parameters, each one needed,
   * each in its form, and no rate that takes more than the gain with its levy; and each value is stored as what it
   * reads as.
   */
  lemma ValidatedTells(kind: Json, parameters: Json, m: map<string, Json>, parse: string -> Option<real>)
    ensures Validated(kind, parameters, parse) == Some(m) <==>
              && kind.Text? && IsKind(kind.text) && (parameters.Null? || parameters.Object?)
              && var given := if parameters.Object? then parameters.members else map[];
                 && given.Keys <= Declared(ParametersOf(kind.text)) && m.Keys <= Declared(ParametersOf(kind.text))
                 && (forall i :: 0 <= i < |ParametersOf(kind.text)| ==>
                       ParameterReads(ParametersOf(kind.text)[i], given, m, parse))
                 && TakesNoMore(m, "rate") && TakesNoMore(m, "rate_before") && TakesNoMore(m, "rate_after")
  {
    if kind.Text? && IsKind(kind.text) && (parameters.Null? || parameters.Object?) {
      var given, declared := if parameters.Object? then parameters.members else map[], ParametersOf(kind.text);
      assert DistinctNames(declared);
      CheckedAllIsNormal(given, declared, parse);
      if m.Keys <= Declared(declared) {
        CheckedAllReads(given, declared, m, parse);
        if CheckedAll(given, declared, parse) == Some(m) {
          LevyIsARate(kind.text, m);
        }
      }
    }
    hide CheckedAll, ParameterReads;
  }

  lemma LevyIsARate(kind: string, m: map<string, Json>)
    requires IsKind(kind) && m.Keys <= Declared(ParametersOf(kind))
    requires forall i :: 0 <= i < |ParametersOf(kind)| ==> ParameterOk(ParametersOf(kind)[i], m)
    ensures WithinTheGain(m)
       <==> TakesNoMore(m, "rate") && TakesNoMore(m, "rate_before") && TakesNoMore(m, "rate_after")
  {
    var declared := ParametersOf(kind);
    forall i | 0 <= i < |declared| && declared[i].shape == Rate
      ensures declared[i].name in m ==> m[declared[i].name].Number? && m[declared[i].name].number <= 1.0
    {
      assert ParameterOk(declared[i], m);
    }
    if "social_rate" in m {
      var k :| 0 <= k < |declared| && declared[k].name == "social_rate";
      assert declared[k] == SOCIAL_RATE;
    }
  }
}
