/**
 * The rule-based soil report: column averages, the pH and organic-matter
 * bands, the five threshold recommendations and the text they make up.
 */
module Report {
  import opened Records
  import opened Seqs

  const OrganicColumn := "Próchnica (%)"
  const EcColumn := "EC"

  // ---------------------------------------------------------------------------
  // The column average: a sum over the rows divided by the row count

  /** One row's addend: the parsed cell, where a missing or empty cell counts as 0. */
  function Term(row: Row, key: string, parse: Parser): Num
  {
    if Truthy(Get(row, key)) then FromParse(parse(Get(row, key).value)) else Finite(0.0)
  }

  /** The sum: a left fold of JavaScript addition starting at 0. */
  function ColumnSum(rows: seq<Row>, key: string, parse: Parser): Num
    decreases |rows|
  {
    if |rows| == 0 then Finite(0.0)
    else Add(ColumnSum(rows[..|rows| - 1], key, parse), Term(rows[|rows| - 1], key, parse))
  }

  /** The sum divided by the row count (0 / 0 is NaN in JavaScript). */
  function Avg(rows: seq<Row>, key: string, parse: Parser): Num
  {
    if |rows| == 0 then NaN
    else
      match ColumnSum(rows, key, parse)
      case NaN => NaN
      case Finite(s) => Finite(s / (|rows| as real))
  }

  lemma {:induction false} ColumnSumNaN(rows: seq<Row>, key: string, parse: Parser)
    ensures ColumnSum(rows, key, parse).NaN? <==>
              exists i :: 0 <= i < |rows| && Term(rows[i], key, parse).NaN?
  {
    if |rows| > 0 {
      var init := rows[..|rows| - 1];
      ColumnSumNaN(init, key, parse);
      assert forall i :: 0 <= i < |init| ==> init[i] == rows[i];
    }
  }

  /** `n` copies of `c` added up, so that the sums below stay linear. */
  function Repeated(n: nat, c: real): real
  {
    if n == 0 then 0.0 else Repeated(n - 1, c) + c
  }

  lemma {:induction false} RepeatedIsProduct(n: nat, c: real)
    ensures Repeated(n, c) == n as real * c
  {
    if n > 0 {
      RepeatedIsProduct(n - 1, c);
      MulStep(n as real, c);
    }
  }

  lemma {:induction false} ColumnSumConstant(rows: seq<Row>, key: string, parse: Parser, c: real)
    requires forall i :: 0 <= i < |rows| ==> Term(rows[i], key, parse) == Finite(c)
    ensures ColumnSum(rows, key, parse) == Finite(Repeated(|rows|, c))
  {
    if |rows| > 0 {
      var init := rows[..|rows| - 1];
      assert forall i :: 0 <= i < |init| ==> init[i] == rows[i];
      ColumnSumConstant(init, key, parse, c);
    }
  }

  lemma {:induction false} ColumnSumBounds(rows: seq<Row>, key: string, parse: Parser, lo: real, hi: real)
    requires forall i :: 0 <= i < |rows| ==>
               Term(rows[i], key, parse).Finite? && lo <= Term(rows[i], key, parse).val <= hi
    ensures ColumnSum(rows, key, parse).Finite?
    ensures Repeated(|rows|, lo) <= ColumnSum(rows, key, parse).val <= Repeated(|rows|, hi)
  {
    if |rows| > 0 {
      var init := rows[..|rows| - 1];
      assert forall i :: 0 <= i < |init| ==> init[i] == rows[i];
      ColumnSumBounds(init, key, parse, lo, hi);
      var last := rows[|rows| - 1];
      var t := Term(last, key, parse);
      assert t.Finite? && lo <= t.val <= hi;
      var prev := ColumnSum(init, key, parse);
      assert ColumnSum(rows, key, parse) == Add(prev, t);
      assert Repeated(|rows|, lo) == Repeated(|init|, lo) + lo;
      assert Repeated(|rows|, hi) == Repeated(|init|, hi) + hi;
    }
  }

  /** The average is NaN exactly when there are no rows or some non-empty cell does not parse. */
  lemma AvgNaNIff(rows: seq<Row>, key: string, parse: Parser)
    ensures Avg(rows, key, parse).NaN? <==>
              |rows| == 0 || exists i :: 0 <= i < |rows| && Term(rows[i], key, parse).NaN?
  {
    ColumnSumNaN(rows, key, parse);
  }

  /** When every row contributes the same value, the average is that value. */
  lemma AvgOfConstantColumn(rows: seq<Row>, key: string, parse: Parser, c: real)
    requires |rows| > 0
    requires forall i :: 0 <= i < |rows| ==> Term(rows[i], key, parse) == Finite(c)
    ensures Avg(rows, key, parse) == Finite(c)
  {
    ColumnSumConstant(rows, key, parse, c);
    RepeatedIsProduct(|rows|, c);
    var n := |rows| as real;
    assert ColumnSum(rows, key, parse) == Finite(n * c);
    assert Avg(rows, key, parse) == Finite((n * c) / n);
    DivOfMul(n, c);
  }

  /** A column that is missing or empty in every row averages to 0. */
  lemma AvgOfAbsentColumn(rows: seq<Row>, key: string, parse: Parser)
    requires |rows| > 0
    requires forall i :: 0 <= i < |rows| ==> !Truthy(Get(rows[i], key))
    ensures Avg(rows, key, parse) == Finite(0.0)
  {
    AvgOfConstantColumn(rows, key, parse, 0.0);
  }

  /** The average lies between the least and the greatest contribution. */
  lemma AvgWithinBounds(rows: seq<Row>, key: string, parse: Parser, lo: real, hi: real)
    requires |rows| > 0
    requires forall i :: 0 <= i < |rows| ==>
               Term(rows[i], key, parse).Finite? && lo <= Term(rows[i], key, parse).val <= hi
    ensures Avg(rows, key, parse).Finite?
    ensures lo <= Avg(rows, key, parse).val <= hi
  {
    ColumnSumBounds(rows, key, parse, lo, hi);
    var sum := ColumnSum(rows, key, parse).val;
    assert Avg(rows, key, parse) == Finite(sum / (|rows| as real));
    MeanBounds(|rows|, sum, lo, hi);
  }

  lemma MulStep(n: real, c: real)
    ensures (n - 1.0) * c + c == n * c
  {
  }

  lemma DivOfMul(n: real, c: real)
    requires n > 0.0
    ensures (n * c) / n == c
  {
  }

  lemma DivBounds(n: real, s: real, lo: real, hi: real)
    requires n > 0.0 && n * lo <= s <= n * hi
    ensures lo <= s / n <= hi
  {
  }

  lemma MeanBounds(n: nat, sum: real, lo: real, hi: real)
    requires n > 0 && Repeated(n, lo) <= sum <= Repeated(n, hi)
    ensures lo <= sum / (n as real) <= hi
  {
    RepeatedIsProduct(n, lo);
    RepeatedIsProduct(n, hi);
    DivBounds(n as real, sum, lo, hi);
  }

  // ---------------------------------------------------------------------------
  // The five averages and their bands

  datatype Averages = Averages(ph: Num, organic: Num, ec: Num, yieldRate: Num, moisture: Num)

  function Summarize(rows: seq<Row>, parse: Parser): Averages
  {
    Averages(Avg(rows, PhColumn, parse), Avg(rows, OrganicColumn, parse), Avg(rows, EcColumn, parse),
             Avg(rows, YieldColumn, parse), Avg(rows, MoistureColumn, parse))
  }

  datatype PhBand = Acidic | Neutral | Alkaline

  /** The pH band: acidic below 5.5, neutral below 7.5, alkaline otherwise (NaN included). */
  function PhBandOf(ph: Num): PhBand
  {
    if Lt(ph, 5.5) then Acidic else if Lt(ph, 7.5) then Neutral else Alkaline
  }

  function PhLabel(b: PhBand): string
  {
    match b
    case Acidic => "kwaśna"
    case Neutral => "obojętna"
    case Alkaline => "zasadowa"
  }

  datatype OrganicBand = Low | Medium | High

  /** The organic-matter band: low below 1.5, medium below 3.5, high otherwise (NaN included). */
  function OrganicBandOf(organic: Num): OrganicBand
  {
    if Lt(organic, 1.5) then Low else if Lt(organic, 3.5) then Medium else High
  }

  function OrganicLabel(b: OrganicBand): string
  {
    match b
    case Low => "niska"
    case Medium => "średnia"
    case High => "wysoka"
  }

  /** The pH bands split the real line at 5.5 and 7.5, the upper bound of each open. */
  lemma PhBandRanges(x: real)
    ensures PhBandOf(Finite(x)) == Acidic <==> x < 5.5
    ensures PhBandOf(Finite(x)) == Neutral <==> 5.5 <= x < 7.5
    ensures PhBandOf(Finite(x)) == Alkaline <==> 7.5 <= x
  {
  }

  /** The organic-matter bands split the real line at 1.5 and 3.5. */
  lemma OrganicBandRanges(x: real)
    ensures OrganicBandOf(Finite(x)) == Low <==> x < 1.5
    ensures OrganicBandOf(Finite(x)) == Medium <==> 1.5 <= x < 3.5
    ensures OrganicBandOf(Finite(x)) == High <==> 3.5 <= x
  {
  }

  // ---------------------------------------------------------------------------
  // The recommendation rules, as an ordered table

  datatype Advice = Liming | AlkalineCaution | OrganicFertilising | SalinityControl | MacronutrientCheck

  /** The rules in the order the report lists them. */
  const Rules: seq<Advice> := [Liming, AlkalineCaution, OrganicFertilising, SalinityControl, MacronutrientCheck]

  /** Each rule is an independent threshold test on one average. */
  predicate Fires(r: Advice, a: Averages)
  {
    match r
    case Liming => Lt(a.ph, 5.5)
    case AlkalineCaution => Gt(a.ph, 7.5)
    case OrganicFertilising => Lt(a.organic, 1.5)
    case SalinityControl => Gt(a.ec, 3.0)
    case MacronutrientCheck => Lt(a.yieldRate, 1000.0)
  }

  /** The test each rule applies to the given averages. */
  function FiresOn(a: Averages): Advice -> bool
  {
    r => Fires(r, a)
  }

  /** Every rule that fires, in table order. */
  function Recommendations(a: Averages): seq<Advice>
  {
    Filter(Rules, FiresOn(a))
  }

  /** A rule is recommended exactly when it fires. */
  lemma RecommendationsExact(a: Averages)
    ensures forall r :: r in Recommendations(a) <==> Fires(r, a)
  {
    EveryRuleListed();
    FilterMembers(Rules, FiresOn(a));
  }

  /** The recommendations follow the table order, each rule at most once. */
  lemma RecommendationsInTableOrder(a: Averages)
    ensures SubsequenceOf(Recommendations(a), Rules)
    ensures NoDuplicates(Recommendations(a))
  {
    FilterIsSubsequence(Rules, FiresOn(a));
    FilterNoDuplicates(Rules, FiresOn(a));
  }

  lemma EveryRuleListed()
    ensures forall r: Advice :: r in Rules
  {
    forall r: Advice ensures r in Rules {
      assert r == Rules[RuleIndex(r)];
    }
  }

  function RuleIndex(r: Advice): nat
  {
    match r
    case Liming => 0
    case AlkalineCaution => 1
    case OrganicFertilising => 2
    case SalinityControl => 3
    case MacronutrientCheck => 4
  }

  /** The acidic and the alkaline recommendations never appear together. */
  lemma LimingExcludesAlkalineCaution(a: Averages)
    ensures !(Liming in Recommendations(a) && AlkalineCaution in Recommendations(a))
  {
    RecommendationsExact(a);
  }

  /**
   * Liming is recommended exactly for the acidic band; the alkaline caution
   * only ever accompanies the alkaline band, and not at its lower edge 7.5.
   */
  lemma PhAdviceAgreesWithBand(a: Averages)
    ensures Liming in Recommendations(a) <==> PhBandOf(a.ph) == Acidic
    ensures AlkalineCaution in Recommendations(a) ==> PhBandOf(a.ph) == Alkaline
    ensures a.ph == Finite(7.5) ==>
              PhBandOf(a.ph) == Alkaline && AlkalineCaution !in Recommendations(a)
  {
    RecommendationsExact(a);
  }

  /** Organic fertilising is recommended exactly for the low organic-matter band. */
  lemma OrganicAdviceAgreesWithBand(a: Averages)
    ensures OrganicFertilising in Recommendations(a) <==> OrganicBandOf(a.organic) == Low
  {
    RecommendationsExact(a);
  }

  /** A NaN average reads as the top band and fires no rule on that average. */
  lemma NaNAverages(a: Averages)
    ensures a.ph.NaN? ==>
              PhBandOf(a.ph) == Alkaline && Liming !in Recommendations(a) && AlkalineCaution !in Recommendations(a)
    ensures a.organic.NaN? ==>
              OrganicBandOf(a.organic) == High && OrganicFertilising !in Recommendations(a)
    ensures a.ec.NaN? ==> SalinityControl !in Recommendations(a)
    ensures a.yieldRate.NaN? ==> MacronutrientCheck !in Recommendations(a)
  {
    RecommendationsExact(a);
    assert a.ph.NaN? ==> !Fires(Liming, a) && !Fires(AlkalineCaution, a);
    assert a.organic.NaN? ==> !Fires(OrganicFertilising, a);
    assert a.ec.NaN? ==> !Fires(SalinityControl, a);
    assert a.yieldRate.NaN? ==> !Fires(MacronutrientCheck, a);
  }

  // ---------------------------------------------------------------------------
  // The report text

  /**
   * The fixed wording of the report: its headings, the line each rule adds
   * and the three closing tips.
   */
  datatype Wording = Wording(heading: string, recommendationsHeading: string,
                             liming: string, alkalineCaution: string, organicFertilising: string,
                             salinityControl: string, macronutrientCheck: string,
                             tipsHeading: string, tip1: string, tip2: string, tip3: string)

  /** The wording the application uses. */
  const SourceWording := Wording(
    "📊 Ekspercki raport AI na podstawie analizy gleby:\n\n",
    "✅ Rekomendacje rolnicze:\n",
    "- Odczyn kwaśny – zaleca się wapnowanie.\n",
    "- Odczyn zasadowy – ostrożnie z nawozami wapniowymi.\n",
    "- Niska próchnica – stosuj nawozy organiczne i międzyplony.\n",
    "- Zasolenie wysokie – ogranicz nawożenie mineralne i zwiększ nawadnianie.\n",
    "- Niska wydajność – sprawdź niedobory makroskładników (P, K, Mg).\n",
    "\n📌 Wskazówki:\n",
    "- Monitoruj zmiany sezonowe gleb (np. wilgotność vs plony).\n",
    "- Ustal płodozmian zgodnie z typem gleby i poziomem próchnicy.\n",
    "- Dostosuj dawki nawozów mikroelementowych do wyników.\n")

  /** The line a rule adds to the report. */
  function AdviceText(w: Wording, r: Advice): string
  {
    match r
    case Liming => w.liming
    case AlkalineCaution => w.alkalineCaution
    case OrganicFertilising => w.organicFertilising
    case SalinityControl => w.salinityControl
    case MacronutrientCheck => w.macronutrientCheck
  }

  /** The inline marker on the salinity line. */
  function SalinityMarker(ec: Num): string
  {
    if Gt(ec, 3.0) then "⚠️ wysoka zasolenie" else ""
  }

  function PhLine(a: Averages, fmt: Formatter): string
  {
    "🔹 Średnie pH: " + fmt(a.ph, 1) + " (" + PhLabel(PhBandOf(a.ph)) + ")\n"
  }

  function OrganicLine(a: Averages, fmt: Formatter): string
  {
    "🔹 Próchnica: " + fmt(a.organic, 1) + "% (" + OrganicLabel(OrganicBandOf(a.organic)) + ")\n"
  }

  function SalinityLine(a: Averages, fmt: Formatter): string
  {
    "🔹 Zasolenie (EC): " + fmt(a.ec, 2) + " dS/m " + SalinityMarker(a.ec) + "\n"
  }

  function MoistureLine(a: Averages, fmt: Formatter): string
  {
    "🔹 Średnia wilgotność gleby: " + fmt(a.moisture, 1) + "%\n"
  }

  function YieldLine(a: Averages, fmt: Formatter): string
  {
    "🔹 Średnia wydajność: " + fmt(a.yieldRate, 1) + " kg/h\n\n"
  }

  /** The lines of the given rules, appended in order. */
  function AdviceBlock(w: Wording, rs: seq<Advice>): string
  {
    if |rs| == 0 then "" else AdviceBlock(w, rs[..|rs| - 1]) + AdviceText(w, rs[|rs| - 1])
  }

  lemma AdviceBlockAppend(w: Wording, rs: seq<Advice>, r: Advice)
    ensures AdviceBlock(w, rs + [r]) == AdviceBlock(w, rs) + AdviceText(w, r)
  {
    assert (rs + [r])[..|rs|] == rs;
  }

  /** The heading, the five average lines and the recommendations heading. */
  function ReportHead(w: Wording, a: Averages, fmt: Formatter): string
  {
    w.heading + PhLine(a, fmt) + OrganicLine(a, fmt) + SalinityLine(a, fmt) + MoistureLine(a, fmt)
    + YieldLine(a, fmt) + w.recommendationsHeading
  }

  /**
   * The whole report for a set of averages: the head, one line per firing
   * rule in table order, and the tips.
   */
  function ReportText(w: Wording, a: Averages, fmt: Formatter): string
  {
    ReportHead(w, a, fmt) + AdviceBlock(w, Recommendations(a)) + w.tipsHeading + w.tip1 + w.tip2 + w.tip3
  }

  /** The salinity marker shows exactly when the salinity recommendation is made. */
  lemma SalinityMarkerAgreesWithAdvice(a: Averages)
    ensures SalinityMarker(a.ec) != "" <==> SalinityControl in Recommendations(a)
  {
    RecommendationsExact(a);
  }

  /** The one-element list of a rule when it fires, otherwise empty. */
  function ShownIf(r: Advice, a: Averages): seq<Advice>
  {
    if Fires(r, a) then [r] else []
  }

  lemma FilterStep(x: Advice, xs: seq<Advice>, p: Advice -> bool)
    ensures Filter([x] + xs, p) == (if p(x) then [x] else []) + Filter(xs, p)
  {
    assert ([x] + xs)[1..] == xs;
  }

  /** The recommendations are the five independent `if`s, in table order. */
  lemma RecommendationsSplit(a: Averages)
    ensures Recommendations(a) ==
              ShownIf(Liming, a) + (ShownIf(AlkalineCaution, a) + (ShownIf(OrganicFertilising, a)
              + (ShownIf(SalinityControl, a) + ShownIf(MacronutrientCheck, a))))
  {
    var p := FiresOn(a);
    var t0, t1, t2, t3, t4 := ShownIf(Liming, a), ShownIf(AlkalineCaution, a),
      ShownIf(OrganicFertilising, a), ShownIf(SalinityControl, a), ShownIf(MacronutrientCheck, a);
    var r4: seq<Advice> := [MacronutrientCheck];
    var r3 := [SalinityControl] + r4;
    var r2 := [OrganicFertilising] + r3;
    var r1 := [AlkalineCaution] + r2;
    assert Rules == [Liming] + r1;
    FilterStep(MacronutrientCheck, [], p);
    assert Filter(r4, p) == t4 by { assert r4 == [MacronutrientCheck] + []; }
    FilterStep(SalinityControl, r4, p);
    FilterStep(OrganicFertilising, r3, p);
    FilterStep(AlkalineCaution, r2, p);
    FilterStep(Liming, r1, p);
  }

  /** The same, associated the way a left-to-right sequence of `if`s appends. */
  lemma RecommendationsByIfs(a: Averages)
    ensures Recommendations(a) ==
              ShownIf(Liming, a) + ShownIf(AlkalineCaution, a) + ShownIf(OrganicFertilising, a)
              + ShownIf(SalinityControl, a) + ShownIf(MacronutrientCheck, a)
  {
    var t0, t1, t2, t3, t4 := ShownIf(Liming, a), ShownIf(AlkalineCaution, a),
      ShownIf(OrganicFertilising, a), ShownIf(SalinityControl, a), ShownIf(MacronutrientCheck, a);
    RecommendationsSplit(a);
    Associative(t0 + t1 + t2, t3, t4);
    Associative(t0 + t1, t2, t3 + t4);
    Associative(t0, t1, t2 + (t3 + t4));
  }


  lemma {:induction false} AdviceBlockConcat(w: Wording, xs: seq<Advice>, ys: seq<Advice>)
    ensures AdviceBlock(w, xs + ys) == AdviceBlock(w, xs) + AdviceBlock(w, ys)
  {
    if |ys| == 0 {
      assert xs + ys == xs;
    } else {
      var init, last := ys[..|ys| - 1], ys[|ys| - 1];
      assert xs + ys == (xs + init) + [last];
      assert ys == init + [last];
      AdviceBlockConcat(w, xs, init);
      AdviceBlockAppend(w, xs + init, last);
      AdviceBlockAppend(w, init, last);
      Associative(AdviceBlock(w, xs), AdviceBlock(w, init), AdviceText(w, last));
    }
  }

  /**
   * Appending the line of each rule that fires, one rule after the other in
   * table order, appends the recommendation block.
   */
  lemma ReportAdviceByIfs(w: Wording, a: Averages, msg: string)
    ensures msg + AdviceBlock(w, Recommendations(a)) ==
              msg + AdviceBlock(w, ShownIf(Liming, a)) + AdviceBlock(w, ShownIf(AlkalineCaution, a))
              + AdviceBlock(w, ShownIf(OrganicFertilising, a)) + AdviceBlock(w, ShownIf(SalinityControl, a))
              + AdviceBlock(w, ShownIf(MacronutrientCheck, a))
  {
    var t0, t1, t2, t3, t4 := ShownIf(Liming, a), ShownIf(AlkalineCaution, a),
      ShownIf(OrganicFertilising, a), ShownIf(SalinityControl, a), ShownIf(MacronutrientCheck, a);
    var b0, b1, b2, b3, b4 := AdviceBlock(w, t0), AdviceBlock(w, t1), AdviceBlock(w, t2),
      AdviceBlock(w, t3), AdviceBlock(w, t4);
    RecommendationsByIfs(a);
    AdviceBlockConcat(w, t0 + t1 + t2 + t3, t4);
    AdviceBlockConcat(w, t0 + t1 + t2, t3);
    AdviceBlockConcat(w, t0 + t1, t2);
    AdviceBlockConcat(w, t0, t1);
    Associative(msg, b0 + b1 + b2 + b3, b4);
    Associative(msg, b0 + b1 + b2, b3);
    Associative(msg, b0 + b1, b2);
    Associative(msg, b0, b1);
  }
}
