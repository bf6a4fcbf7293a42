/** The price model of the estimate function: `calculateEstimate` and
    `estimateTimeline`.

    Prices and multipliers are exact reals. A JavaScript `Record` lookup
    becomes a function on the key, where a missing key is `None`
    (`undefined`). The `x || d` defaulting idiom treats `undefined`, `null`,
    `0` and `""` alike, which `NumOr` and `TextOr` spell out. */
module Pricing {

  import opened Wrappers
  import opened JsMath
  import opened RoofAnalysis

  // ---------------------------------------------------------------------
  // Tables: `table[key]`, with `None` for a key the table does not have

  /** Price per square foot, by material (CAD). */
  function BasePricing(roofType: string): (v: Option<real>)
    ensures v.Some? ==> v.value > 0.0
  {
    match roofType
    case "asphalt" => Some(5.50)
    case "architectural" => Some(7.00)
    case "metal" => Some(12.00)
    case "tpo" => Some(8.00)
    case "epdm" => Some(8.50)
    case "slate" => Some(15.00)
    case "wood" => Some(10.00)
    case "unknown" => Some(6.00)
    case _ => None
  }

  /** Typical roof area, by property type (square feet). */
  function PropertyAreas(propertyType: string): (v: Option<real>)
    ensures v.Some? ==> v.value > 0.0
  {
    match propertyType
    case "bungalow" => Some(1200.0)
    case "2-etages" => Some(1800.0)
    case "duplex" => Some(2200.0)
    case "triplex" => Some(3000.0)
    case "commercial" => Some(5000.0)
    case _ => None
  }

  function PitchMultipliers(pitch: string): (v: Option<real>)
    ensures v.Some? ==> v.value > 0.0
  {
    match pitch
    case "low" => Some(1.0)
    case "medium" => Some(1.15)
    case "steep" => Some(1.35)
    case _ => None
  }

  function AccessMultipliers(access: string): (v: Option<real>)
    ensures v.Some? ==> v.value > 0.0
  {
    match access
    case "easy" => Some(1.0)
    case "moderate" => Some(1.1)
    case "difficult" => Some(1.25)
    case _ => None
  }

  function ConditionMultipliers(condition: string): (v: Option<real>)
    ensures v.Some? ==> v.value > 0.0
  {
    match condition
    case "excellent" => Some(0.85)
    case "good" => Some(1.0)
    case "fair" => Some(1.1)
    case "poor" => Some(1.25)
    case _ => None
  }

  function ComplexityMultipliers(complexity: string): (v: Option<real>)
    ensures v.Some? ==> v.value > 0.0
  {
    match complexity
    case "simple" => Some(0.95)
    case "moderate" => Some(1.0)
    case "complex" => Some(1.2)
    case _ => None
  }

  /** `v || d` for a number that may be `undefined`: zero is falsy too. */
  function NumOr(v: Option<real>, d: real): (r: real)
    ensures v.Some? && v.value != 0.0 ==> r == v.value
    ensures v.None? || v.value == 0.0 ==> r == d
  {
    if v.Some? && v.value != 0.0 then v.value else d
  }

  /** `v || d` for a text that may be `undefined` or `null`: the empty
      text is falsy too. */
  function TextOr(v: Option<string>, d: string): (r: string)
    ensures v.Some? && v.value != "" ==> r == v.value
    ensures v.None? || v.value == "" ==> r == d
  {
    if v.Some? && v.value != "" then v.value else d
  }

  /** Area assumed when neither the photos nor the property type give one. */
  const DefaultArea := 1500.0
  /** Confidence reported when the photos give none. */
  const DefaultConfidence := 50.0
  const EmergencyPremium := 1.3

  // ---------------------------------------------------------------------
  // Factors. No table holds a zero, so each `|| default` fires exactly
  // when the key is missing.

  /** `basePricing[roofType] || basePricing.unknown`. */
  function MaterialRate(roofType: string): (rate: real)
    ensures rate > 0.0
    ensures BasePricing(roofType).None? ==> rate == 6.00
    ensures BasePricing(roofType).Some? ==> rate == BasePricing(roofType).value
  {
    NumOr(BasePricing(roofType), BasePricing("unknown").value)
  }

  /** `propertyAreas[propertyType] || 1500`; `null` is never a key. */
  function FormArea(propertyType: Option<string>): (area: real)
    ensures area > 0.0
    ensures propertyType.None? || PropertyAreas(propertyType.value).None? ==> area == DefaultArea
    ensures propertyType.Some? && PropertyAreas(propertyType.value).Some? ==>
              area == PropertyAreas(propertyType.value).value
  {
    if propertyType.None? then DefaultArea else NumOr(PropertyAreas(propertyType.value), DefaultArea)
  }

  function PitchFactor(pitch: string): (f: real)
    ensures f > 0.0
    ensures PitchMultipliers(pitch).None? ==> f == 1.0
    ensures PitchMultipliers(pitch).Some? ==> f == PitchMultipliers(pitch).value
  {
    NumOr(PitchMultipliers(pitch), 1.0)
  }

  /** `accessMultiplier[accessDifficulty] || 1.0`; `null` is never a key. */
  function AccessFactor(access: Option<string>): (f: real)
    ensures f > 0.0
    ensures access.None? || AccessMultipliers(access.value).None? ==> f == 1.0
    ensures access.Some? && AccessMultipliers(access.value).Some? ==> f == AccessMultipliers(access.value).value
  {
    if access.None? then 1.0 else NumOr(AccessMultipliers(access.value), 1.0)
  }

  function ConditionFactor(condition: string): (f: real)
    ensures f > 0.0
    ensures ConditionMultipliers(condition).None? ==> f == 1.0
    ensures ConditionMultipliers(condition).Some? ==> f == ConditionMultipliers(condition).value
  {
    NumOr(ConditionMultipliers(condition), 1.0)
  }

  function ComplexityFactor(complexity: string): (f: real)
    ensures f > 0.0
    ensures ComplexityMultipliers(complexity).None? ==> f == 1.0
    ensures ComplexityMultipliers(complexity).Some? ==> f == ComplexityMultipliers(complexity).value
  {
    NumOr(ComplexityMultipliers(complexity), 1.0)
  }

  /** Within each table, a harder roof multiplies by more: a steeper pitch,
      a harder access, a worse condition, a more complex shape. */
  lemma HarderRoofsCostMore()
    ensures PitchFactor("low") < PitchFactor("medium") < PitchFactor("steep")
    ensures AccessFactor(Some("easy")) < AccessFactor(Some("moderate")) < AccessFactor(Some("difficult"))
    ensures ConditionFactor("excellent") < ConditionFactor("good") < ConditionFactor("fair") < ConditionFactor("poor")
    ensures ComplexityFactor("simple") < ComplexityFactor("moderate") < ComplexityFactor("complex")
  {
  }

  function EmergencyFactor(projectType: string): (f: real)
    ensures f >= 1.0
    ensures f != 1.0 <==> projectType == "emergency"
  {
    if projectType == "emergency" then EmergencyPremium else 1.0
  }

  // ---------------------------------------------------------------------
  // Inputs and selected features

  /** The lead fields `calculateEstimate` receives. `roofAge` and
      `roofIssues` are passed in but never read. */
  datatype EstimateInput = EstimateInput(
    projectType: string,
    propertyType: Option<string>,
    roofType: Option<string>,
    roofAge: Option<string>,
    accessDifficulty: Option<string>,
    roofIssues: seq<string>,
    aiAnalysis: Option<Analysis>)

  /** The values the price is computed from, after choosing between the
      photo analysis, the form and the defaults. */
  datatype Features = Features(
    roofType: string,
    area: real,
    pitch: string,
    condition: string,
    complexity: string,
    confidence: real)

  /** `ai?.field`: the field of the analysis, or nothing without one. */
  function AiField<T>(ai: Option<Analysis>, field: Analysis -> T): (v: Option<T>)
    ensures ai.None? ==> v.None?
    ensures ai.Some? ==> v == Some(field(ai.value))
  {
    if ai.None? then None else Some(field(ai.value))
  }

  /** Each feature is the analysis value when it is truthy, then the form
      value where the form has one, then the fixed default. */
  function SelectFeatures(input: EstimateInput): (f: Features)
    ensures f.roofType != ""
    ensures f.pitch != "" && f.condition != "" && f.complexity != ""
    ensures f.area != 0.0 && f.confidence != 0.0
  {
    var ai := input.aiAnalysis;
    Features(
      TextOr(AiField(ai, (a: Analysis) => a.roofType), TextOr(input.roofType, "asphalt")),
      NumOr(AiField(ai, (a: Analysis) => a.estimatedArea),
            FormArea(input.propertyType)),
      TextOr(AiField(ai, (a: Analysis) => a.pitch), "medium"),
      TextOr(AiField(ai, (a: Analysis) => a.condition), "fair"),
      TextOr(AiField(ai, (a: Analysis) => a.complexity), "moderate"),
      NumOr(AiField(ai, (a: Analysis) => a.confidenceScore), DefaultConfidence))
  }

  // ---------------------------------------------------------------------
  // Rates and the price

  /** The material rate and the five multipliers of one estimate. */
  datatype Rates = Rates(
    material: real,
    pitch: real,
    access: real,
    condition: real,
    complexity: real,
    emergency: real)

  predicate Positive(r: Rates) {
    r.material > 0.0 && r.pitch > 0.0 && r.access > 0.0
    && r.condition > 0.0 && r.complexity > 0.0 && r.emergency > 0.0
  }

  /** Looks every selected feature up in its table. */
  function SelectRates(f: Features, accessDifficulty: Option<string>, projectType: string): (r: Rates)
    ensures Positive(r)
    ensures r.emergency == (if projectType == "emergency" then EmergencyPremium else 1.0)
  {
    Rates(MaterialRate(f.roofType), PitchFactor(f.pitch), AccessFactor(accessDifficulty),
          ConditionFactor(f.condition), ComplexityFactor(f.complexity), EmergencyFactor(projectType))
  }

  /** `totalMultiplier`. */
  function TotalMultiplier(r: Rates): real {
    r.pitch * r.access * r.condition * r.complexity * r.emergency
  }

  /** `basePrice * totalMultiplier`, before `Math.round`. */
  function UnroundedPrice(area: real, r: Rates): real {
    area * r.material * TotalMultiplier(r)
  }

  /** The price of one square foot: the material rate under every
      multiplier. */
  function SquareFootPrice(r: Rates): (k: real)
    requires Positive(r)
    ensures k > 0.0
  {
    var pa := r.pitch * r.access;
    var pac := pa * r.condition;
    var pacx := pac * r.complexity;
    assert pa > 0.0 && pac > 0.0 && pacx > 0.0 && pacx * r.emergency > 0.0;
    r.material * (pacx * r.emergency)
  }

  /** The unrounded price is the area times the price of a square foot. */
  lemma PriceIsAreaTimesSquareFootPrice(area: real, r: Rates)
    requires Positive(r)
    ensures UnroundedPrice(area, r) == area * SquareFootPrice(r)
  {
    var m := TotalMultiplier(r);
    assert area * r.material * m == area * (r.material * m);
  }

  /** The unrounded price has the sign of the area. */
  lemma PriceSign(area: real, r: Rates)
    requires Positive(r)
    ensures area >= 0.0 ==> UnroundedPrice(area, r) >= 0.0
    ensures area < 0.0 ==> UnroundedPrice(area, r) < 0.0
  {
    PriceIsAreaTimesSquareFootPrice(area, r);
    var k := SquareFootPrice(r);
    if area >= 0.0 {
      assert area * k >= 0.0;
    } else {
      assert area * k < 0.0;
    }
  }

  /** A larger area never lowers the price. */
  lemma PriceMonotoneInArea(a1: real, a2: real, r: Rates)
    requires Positive(r) && a1 <= a2
    ensures UnroundedPrice(a1, r) <= UnroundedPrice(a2, r)
    ensures Round(UnroundedPrice(a1, r)) <= Round(UnroundedPrice(a2, r))
  {
    PriceIsAreaTimesSquareFootPrice(a1, r);
    PriceIsAreaTimesSquareFootPrice(a2, r);
    var k := SquareFootPrice(r);
    assert a2 * k - a1 * k == (a2 - a1) * k;
    assert (a2 - a1) * k >= 0.0;
    RoundMonotone(UnroundedPrice(a1, r), UnroundedPrice(a2, r));
  }

  /** The emergency premium multiplies the whole unrounded price. */
  lemma PremiumScalesPrice(area: real, r: Rates)
    requires r.emergency == 1.0
    ensures UnroundedPrice(area, r.(emergency := EmergencyPremium)) == EmergencyPremium * UnroundedPrice(area, r)
  {
    var q := r.pitch * r.access * r.condition * r.complexity;
    assert TotalMultiplier(r) == q;
    assert TotalMultiplier(r.(emergency := EmergencyPremium)) == q * EmergencyPremium;
  }

  // ---------------------------------------------------------------------
  // Timeline

  const TimelineLabels := ["1-2 jours", "3-4 jours", "5-6 jours", "7-10 jours"]

  /** Working days before scaling: 2, 4, 6 or 8 by area. */
  function BaseDays(area: real): (days: int)
    ensures days in {2, 4, 6, 8}
  {
    if area < 1500.0 then 2 else if area < 2500.0 then 4 else if area < 4000.0 then 6 else 8
  }

  function ComplexityScale(complexity: string): real {
    if complexity == "simple" then 0.8 else if complexity == "complex" then 1.3 else 1.0
  }

  /** `Math.ceil(baseTime * multiplier)`. */
  function TimelineDays(area: real, complexity: string): (days: int)
    ensures 2 <= days <= 11
  {
    Ceil((BaseDays(area) as real) * ComplexityScale(complexity))
  }

  function DaysLabel(days: int): (text: string)
    ensures text in TimelineLabels
  {
    if days <= 2 then TimelineLabels[0]
    else if days <= 4 then TimelineLabels[1]
    else if days <= 6 then TimelineLabels[2]
    else TimelineLabels[3]
  }

  /** `estimateTimeline(area, complexity)`: always one of the four labels. */
  function EstimateTimeline(area: real, complexity: string): (text: string)
    ensures text in TimelineLabels
  {
    DaysLabel(TimelineDays(area, complexity))
  }

  /** Reference reading of the timeline: the area picks one of four
      buckets, and a complex roof moves one bucket up (the last bucket
      absorbs the overflow); simple and moderate roofs stay put. */
  function AreaBucket(area: real): (b: nat)
    ensures b < 4
  {
    if area < 1500.0 then 0 else if area < 2500.0 then 1 else if area < 4000.0 then 2 else 3
  }

  function ExpectedBucket(area: real, complexity: string): (b: nat)
    ensures b < 4
  {
    var b := AreaBucket(area);
    if complexity == "complex" && b < 3 then b + 1 else b
  }

  /** Position of a label in the list, the length of the list otherwise. */
  function LabelRank(text: string): (r: nat)
    ensures r <= |TimelineLabels|
    ensures r < |TimelineLabels| ==> TimelineLabels[r] == text
  {
    if text == TimelineLabels[0] then 0
    else if text == TimelineLabels[1] then 1
    else if text == TimelineLabels[2] then 2
    else if text == TimelineLabels[3] then 3
    else 4
  }

  /** The scaled and ceiled day counts land exactly in the reference
      buckets: 2/4/5/7 days when simple, 2/4/6/8 otherwise, 3/6/8/11 when
      complex. */
  lemma TimelineMatchesBuckets(area: real, complexity: string)
    ensures EstimateTimeline(area, complexity) == TimelineLabels[ExpectedBucket(area, complexity)]
  {
    var base := BaseDays(area);
    var days := TimelineDays(area, complexity);
    if complexity == "simple" {
      assert days == (if base == 2 then 2 else if base == 4 then 4 else if base == 6 then 5 else 7);
    } else if complexity == "complex" {
      assert days == (if base == 2 then 3 else if base == 4 then 6 else if base == 6 then 8 else 11);
    } else {
      assert days == base;
    }
  }

  /** A larger area never gives a shorter timeline. */
  lemma TimelineMonotoneInArea(a1: real, a2: real, complexity: string)
    requires a1 <= a2
    ensures LabelRank(EstimateTimeline(a1, complexity)) <= LabelRank(EstimateTimeline(a2, complexity))
  {
    TimelineMatchesBuckets(a1, complexity);
    TimelineMatchesBuckets(a2, complexity);
  }

  /** The timeline grows with complexity: simple, then moderate (or any
      other value), then complex. Simple roofs in fact never get a shorter
      text than moderate ones: the 0.8 factor is absorbed by the ceiling
      and the text ranges. */
  lemma TimelineMonotoneInComplexity(area: real, other: string)
    requires other != "simple" && other != "complex"
    ensures EstimateTimeline(area, "simple") == EstimateTimeline(area, other)
    ensures LabelRank(EstimateTimeline(area, other)) <= LabelRank(EstimateTimeline(area, "complex"))
  {
    TimelineMatchesBuckets(area, "simple");
    TimelineMatchesBuckets(area, other);
    TimelineMatchesBuckets(area, "complex");
  }

  // ---------------------------------------------------------------------
  // The estimate

  datatype EstimateResult = EstimateResult(low: int, mid: int, high: int, timeline: string, confidence: real)

  /** For a non-negative middle price the band is ordered and
      non-negative. */
  lemma BandOrdered(mid: int)
    ensures mid >= 0 ==> 0 <= Round((mid as real) * 0.85) <= mid <= Round((mid as real) * 1.15)
  {
    if mid >= 0 {
      RoundOfInt(0);
      RoundOfInt(mid);
      RoundMonotone(0.0, (mid as real) * 0.85);
      RoundMonotone((mid as real) * 0.85, mid as real);
      RoundMonotone(mid as real, (mid as real) * 1.15);
    }
  }

  /** The estimate for the selected features and rates: the rounded price
      with a band of 15% on each side, the timeline, the confidence. */
  function EstimateFrom(f: Features, r: Rates): (e: EstimateResult)
    requires Positive(r)
    ensures e.low == Round((e.mid as real) * 0.85) && e.high == Round((e.mid as real) * 1.15)
    ensures UnroundedPrice(f.area, r) - 0.5 < e.mid as real <= UnroundedPrice(f.area, r) + 0.5
    ensures f.area >= 0.0 ==> 0 <= e.low <= e.mid <= e.high
    ensures e.timeline == EstimateTimeline(f.area, f.complexity) && e.confidence == f.confidence
  {
    var mid := Round(UnroundedPrice(f.area, r));
    PriceSign(f.area, r);
    BandOrdered(mid);
    EstimateResult(Round((mid as real) * 0.85), mid, Round((mid as real) * 1.15),
                   EstimateTimeline(f.area, f.complexity), f.confidence)
  }

  /** `calculateEstimate`. */
  function CalculateEstimate(input: EstimateInput): (r: EstimateResult)
    ensures r.low == Round((r.mid as real) * 0.85) && r.high == Round((r.mid as real) * 1.15)
    ensures SelectFeatures(input).area >= 0.0 ==> 0 <= r.low <= r.mid <= r.high
    ensures r.timeline in TimelineLabels
    ensures r.confidence != 0.0
  {
    var f := SelectFeatures(input);
    EstimateFrom(f, SelectRates(f, input.accessDifficulty, input.projectType))
  }

  /** Prices are non-negative whenever the analysis does not report a
      negative area: the property table only holds positive areas. */
  lemma NonNegativeUnlessNegativeAiArea(input: EstimateInput)
    requires input.aiAnalysis.None? || input.aiAnalysis.value.estimatedArea >= 0.0
    ensures 0 <= CalculateEstimate(input).low <= CalculateEstimate(input).mid <= CalculateEstimate(input).high
  {
  }

  /** A negative area from the analysis is used as is, and then the band
      is inverted: `low` lies above `mid`. */
  lemma NegativeAiAreaInvertsBand()
    ensures var input := EstimateInput("residential", None, None, None, None, [],
              Some(Analysis("asphalt", -1000.0, "low", "good", [], 10.0, 80.0, "moderate")));
            var r := CalculateEstimate(input);
            r.mid == -5500 && r.low == -4675 && r.low > r.mid
  {
    var ai := Analysis("asphalt", -1000.0, "low", "good", [], 10.0, 80.0, "moderate");
    var input := EstimateInput("residential", None, None, None, None, [], Some(ai));
    var f := SelectFeatures(input);
    assert f == Features("asphalt", -1000.0, "low", "good", "moderate", 80.0);
    var r := SelectRates(f, None, "residential");
    assert r == Rates(5.50, 1.0, 1.0, 1.0, 1.0, 1.0);
    assert UnroundedPrice(-1000.0, r) == -5500.0;
    RoundOfInt(-5500);
    RoundOfInt(-4675);
    assert (-5500 as real) * 0.85 == -4675.0;
  }

  // ---------------------------------------------------------------------
  // Field selection

  /** A photo analysis whose every field is truthy decides every feature:
      the form's property type and roof type no longer matter. */
  lemma AiTakesPrecedence(input: EstimateInput, propertyType: Option<string>, roofType: Option<string>)
    requires input.aiAnalysis.Some?
    requires var a := input.aiAnalysis.value;
             a.roofType != "" && a.estimatedArea != 0.0 && a.pitch != ""
             && a.condition != "" && a.complexity != "" && a.confidenceScore != 0.0
    ensures var a := input.aiAnalysis.value;
            SelectFeatures(input)
              == Features(a.roofType, a.estimatedArea, a.pitch, a.condition, a.complexity, a.confidenceScore)
    ensures CalculateEstimate(input.(propertyType := propertyType, roofType := roofType))
            == CalculateEstimate(input)
  {
    assert SelectFeatures(input.(propertyType := propertyType, roofType := roofType)) == SelectFeatures(input);
  }

  /** Without an analysis the form decides, then the defaults: roof type
      from the form or asphalt, area from the property type or 1500, and
      medium pitch, fair condition, moderate complexity, confidence 50. */
  lemma FormAndDefaults(input: EstimateInput)
    requires input.aiAnalysis.None?
    ensures SelectFeatures(input)
              == Features(TextOr(input.roofType, "asphalt"), FormArea(input.propertyType),
                          "medium", "fair", "moderate", DefaultConfidence)
  {
  }

  /** An analysis with only falsy fields (`""`, `0`) is the same as no
      analysis at all. */
  lemma FalsyAnalysisIsAbsent(input: EstimateInput, issues: seq<string>, age: real)
    requires input.aiAnalysis == Some(Analysis("", 0.0, "", "", issues, age, 0.0, ""))
    ensures CalculateEstimate(input) == CalculateEstimate(input.(aiAnalysis := None))
  {
    assert SelectFeatures(input) == SelectFeatures(input.(aiAnalysis := None));
  }

  /** Each field falls back on its own: a falsy area in an otherwise
      present analysis gives the form's area and keeps the analysis's roof
      type when that one is truthy. */
  lemma FalsyAreaFallsBack(input: EstimateInput)
    requires input.aiAnalysis.Some? && input.aiAnalysis.value.estimatedArea == 0.0
    ensures SelectFeatures(input).area == FormArea(input.propertyType)
    ensures input.aiAnalysis.value.roofType != "" ==>
              SelectFeatures(input).roofType == input.aiAnalysis.value.roofType
  {
  }

  /** The form's roof age and observed issues never change the estimate. */
  lemma FormAgeAndIssuesIgnored(input: EstimateInput, roofAge: Option<string>, roofIssues: seq<string>)
    ensures CalculateEstimate(input.(roofAge := roofAge, roofIssues := roofIssues)) == CalculateEstimate(input)
  {
    assert SelectFeatures(input.(roofAge := roofAge, roofIssues := roofIssues)) == SelectFeatures(input);
  }

  // ---------------------------------------------------------------------
  // Unknown keys

  /** A roof type missing from the price table, such as the form's
      "autre", is priced at the `unknown` rate; the empty or missing form
      value becomes asphalt before the lookup. */
  lemma UnknownRoofTypeRate(roofType: string)
    requires BasePricing(roofType).None?
    ensures MaterialRate(roofType) == MaterialRate("unknown") == 6.00
    ensures MaterialRate("autre") == 6.00
    ensures TextOr(Some(""), "asphalt") == TextOr(None, "asphalt") == "asphalt"
  {
  }

  /** Any access value that is not a key, `null` included, prices like
      easy access. */
  lemma UnknownAccessIsNeutral(input: EstimateInput)
    requires input.accessDifficulty.None? || AccessMultipliers(input.accessDifficulty.value).None?
    ensures CalculateEstimate(input) == CalculateEstimate(input.(accessDifficulty := Some("easy")))
  {
    var f := SelectFeatures(input);
    assert SelectFeatures(input.(accessDifficulty := Some("easy"))) == f;
    assert SelectRates(f, input.accessDifficulty, input.projectType)
           == SelectRates(f, Some("easy"), input.projectType);
  }

  /** Unknown pitch, condition or complexity values multiply by exactly
      1.0, like low pitch, good condition and moderate complexity, and an
      unknown complexity also keeps the moderate timeline. */
  lemma UnknownCategoriesAreNeutral(f: Features, access: Option<string>, projectType: string)
    requires PitchMultipliers(f.pitch).None?
    requires ConditionMultipliers(f.condition).None?
    requires ComplexityMultipliers(f.complexity).None?
    ensures var g := f.(pitch := "low", condition := "good", complexity := "moderate");
            EstimateFrom(f, SelectRates(f, access, projectType))
              == EstimateFrom(g, SelectRates(g, access, projectType))
  {
    var g := f.(pitch := "low", condition := "good", complexity := "moderate");
    assert SelectRates(f, access, projectType) == SelectRates(g, access, projectType);
    assert ComplexityScale(f.complexity) == ComplexityScale(g.complexity);
    assert EstimateTimeline(f.area, f.complexity) == EstimateTimeline(g.area, g.complexity);
  }

  // ---------------------------------------------------------------------
  // Emergency premium

  /** An emergency multiplies the unrounded price by 1.3 and leaves the
      rest of the estimate alone; it never lowers a non-negative price. */
  lemma EmergencyMultipliesPrice(input: EstimateInput)
    requires input.projectType != "emergency"
    ensures var f := SelectFeatures(input);
            UnroundedPrice(f.area, SelectRates(f, input.accessDifficulty, "emergency"))
              == EmergencyPremium * UnroundedPrice(f.area, SelectRates(f, input.accessDifficulty, input.projectType))
    ensures var urgent := input.(projectType := "emergency");
            CalculateEstimate(urgent).timeline == CalculateEstimate(input).timeline
            && CalculateEstimate(urgent).confidence == CalculateEstimate(input).confidence
    ensures SelectFeatures(input).area >= 0.0 ==>
              CalculateEstimate(input).mid <= CalculateEstimate(input.(projectType := "emergency")).mid
  {
    var urgent := input.(projectType := "emergency");
    var f := SelectFeatures(input);
    assert SelectFeatures(urgent) == f;
    var r := SelectRates(f, input.accessDifficulty, input.projectType);
    assert SelectRates(f, input.accessDifficulty, "emergency") == r.(emergency := EmergencyPremium);
    PremiumScalesPrice(f.area, r);
    var base := UnroundedPrice(f.area, r);
    PriceSign(f.area, r);
    if f.area >= 0.0 {
      RoundMonotone(base, EmergencyPremium * base);
    }
  }

  // ---------------------------------------------------------------------
  // Worked examples

  /** A bungalow with an asphalt roof and easy access, without photos:
      1200 sq ft at 5.50, medium pitch (1.15) and fair condition (1.1). */
  lemma BungalowExample()
    ensures CalculateEstimate(EstimateInput("residential", Some("bungalow"), Some("asphalt"),
              Some("20"), Some("easy"), ["Fuites"], None))
            == EstimateResult(7097, 8349, 9601, "1-2 jours", 50.0)
  {
    var input := EstimateInput("residential", Some("bungalow"), Some("asphalt"), Some("20"), Some("easy"), ["Fuites"], None);
    var f := Features("asphalt", 1200.0, "medium", "fair", "moderate", 50.0);
    assert SelectFeatures(input) == f;
    var r := Rates(5.50, 1.15, 1.0, 1.1, 1.0, 1.0);
    assert SelectRates(f, Some("easy"), "residential") == r;
    assert UnroundedPrice(1200.0, r) == 8349.0;
    RoundOfInt(8349);
    assert Round(8349.0 * 0.85) == 7097;
    assert Round(8349.0 * 1.15) == 9601;
    assert TimelineDays(1200.0, "moderate") == 2;
  }

  /** The same bungalow as an emergency: 8349 × 1.3 = 10853.7. */
  lemma BungalowEmergencyExample()
    ensures CalculateEstimate(EstimateInput("emergency", Some("bungalow"), Some("asphalt"),
              Some("20"), Some("easy"), ["Fuites"], None))
            == EstimateResult(9226, 10854, 12482, "1-2 jours", 50.0)
  {
    var input := EstimateInput("emergency", Some("bungalow"), Some("asphalt"), Some("20"), Some("easy"), ["Fuites"], None);
    var f := Features("asphalt", 1200.0, "medium", "fair", "moderate", 50.0);
    assert SelectFeatures(input) == f;
    var r := Rates(5.50, 1.15, 1.0, 1.1, 1.0, 1.3);
    assert SelectRates(f, Some("easy"), "emergency") == r;
    assert UnroundedPrice(1200.0, r) == 10853.7;
    assert Round(10853.7) == 10854;
    assert Round(10854.0 * 0.85) == 9226;
    assert Round(10854.0 * 1.15) == 12482;
    assert TimelineDays(1200.0, "moderate") == 2;
  }
}
