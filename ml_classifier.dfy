/** analyzePatientML of temp_app/src/lib/ai/riskClassifierML.ts: the feature
    request sent to the prediction service, the mapping of its reply to an
    analysis, and the rule-based fallback. The service call is a function
    from the request to a reply. */
module MLClassifier {
  import opened Options
  import opened Text
  import RuleClassifier

  /** The request's `features` object. */
  datatype Features = Features(
    age: real, heartRate: real, systolic: real, diastolic: real, temperature: real, oxygen: real)

  /** One entry of the reply's `top_features`. */
  datatype TopFeature = TopFeature(name: string, direction: string, impact: real)

  /** What the call yields: `Failed` covers a thrown fetch, a timeout, a
      status that is not ok and a body that is not JSON; a body without
      `risk_level` has `riskLevel == None`. */
  datatype Reply =
    | Failed
    | Body(riskLevel: Option<string>, topFeatures: Option<seq<TopFeature>>, mock: bool)

  const MockTag := "\U{2728} ML Model (Mock Mode)"
  const ModelTag := "\U{1F916} XGBoost ML Model"

  /** `value || fallback` on an optional number. */
  function OrDefault(v: Option<real>, fallback: real): real {
    if RuleClassifier.Truthy(v) then v.value else fallback
  }

  /** The features sent: absent or zero vitals take their defaults and the
      age is always 35. */
  function Request(v: RuleClassifier.Vitals): Features {
    Features(35.0,
      OrDefault(v.heartRate, 75.0),
      OrDefault(v.systolicBp, 120.0),
      OrDefault(v.diastolicBp, 80.0),
      OrDefault(v.temperature, 37.0),
      OrDefault(v.oxygenSaturation, 98.0))
  }

  function Abs(x: real): real {
    if x < 0.0 then -x else x
  }

  /** One reasoning line; `fmt` renders the magnitude (toFixed(2)). */
  function FeatureLine(f: TopFeature, fmt: real -> string): string {
    ReplaceAllChar(f.name, '_', ' ') + ": " + f.direction + " (" + fmt(Abs(f.impact)) + ")"
  }

  /** The lines of the top features, in order. */
  function FeatureLines(fs: seq<TopFeature>, fmt: real -> string): (r: seq<string>)
    ensures |r| == |fs|
    ensures forall i :: 0 <= i < |fs| ==> r[i] == FeatureLine(fs[i], fmt)
  {
    if fs == [] then [] else FeatureLines(fs[..|fs| - 1], fmt) + [FeatureLine(fs[|fs| - 1], fmt)]
  }

  function Tag(mock: bool): string {
    if mock then MockTag else ModelTag
  }

  /** The department chosen from the lower-cased symptoms by the first
      matching keyword group. */
  function Department(lower: string): string {
    if Contains(lower, "chest") || Contains(lower, "heart") then "Cardiology"
    else if Contains(lower, "stroke") || Contains(lower, "headache") then "Neurology"
    else if Contains(lower, "fracture") || Contains(lower, "bone") then "Orthopedics"
    else if Contains(lower, "breath") then "Pulmonology"
    else "General Medicine"
  }

  /** The analysis for a reply: the rule-based one when the call failed or
      the reply lacks a risk level, the mapped reply otherwise. */
  function AnalyzeML(symptoms: string, v: RuleClassifier.Vitals, reply: Reply,
                     fmt: real -> string, fmtImpact: real -> string): RuleClassifier.Analysis
  {
    if reply.Failed? || reply.riskLevel.None? then RuleClassifier.Analyze(symptoms, v, fmt)
    else
      var features := if reply.topFeatures.Some? then reply.topFeatures.value else [];
      RuleClassifier.Analysis(
        Upper(reply.riskLevel.value),
        Department(Lower(symptoms)),
        FeatureLines(features, fmtImpact) + [Tag(reply.mock)])
  }

  /** The forEach that renders the top features. */
  method Reasoning(features: seq<TopFeature>, fmtImpact: real -> string) returns (reasoning: seq<string>)
    ensures reasoning == FeatureLines(features, fmtImpact)
  {
    reasoning := [];
    for i := 0 to |features|
      invariant reasoning == FeatureLines(features[..i], fmtImpact)
    {
      assert features[..i + 1][..i] == features[..i];
      reasoning := reasoning + [FeatureLine(features[i], fmtImpact)];
    }
    assert features[..|features|] == features;
  }

  /** analyzePatientML(symptoms, vitals); `service` stands for the POST to
      /predict and `fmt`, `fmtImpact` for the number renderings. */
  method AnalyzePatientML(symptoms: string, vitals: RuleClassifier.Vitals,
                          service: Features -> Reply,
                          fmt: real -> string, fmtImpact: real -> string)
    returns (r: RuleClassifier.Analysis)
    ensures r == AnalyzeML(symptoms, vitals, service(Request(vitals)), fmt, fmtImpact)
  {
    var data := service(Request(vitals));
    if data.Failed? || data.riskLevel.None? {
      r := RuleClassifier.AnalyzePatient(symptoms, vitals, fmt);
      return;
    }
    var riskLevel := Upper(data.riskLevel.value);
    var reasoning := [];
    if data.topFeatures.Some? && |data.topFeatures.value| > 0 {
      reasoning := Reasoning(data.topFeatures.value, fmtImpact);
    }
    if data.mock {
      reasoning := reasoning + [MockTag];
    } else {
      reasoning := reasoning + [ModelTag];
    }
    var department := "General Medicine";
    var lowerSymptoms := Lower(symptoms);
    if Contains(lowerSymptoms, "chest") || Contains(lowerSymptoms, "heart") {
      department := "Cardiology";
    } else if Contains(lowerSymptoms, "stroke") || Contains(lowerSymptoms, "headache") {
      department := "Neurology";
    } else if Contains(lowerSymptoms, "fracture") || Contains(lowerSymptoms, "bone") {
      department := "Orthopedics";
    } else if Contains(lowerSymptoms, "breath") {
      department := "Pulmonology";
    }
    r := RuleClassifier.Analysis(riskLevel, department, reasoning);
  }

  // ------------------------------------------------------------ properties

  /** A failed call or a reply without a risk level yields exactly the
      rule-based analysis. */
  lemma FallbackIsRuleBased(symptoms: string, v: RuleClassifier.Vitals, reply: Reply,
                            fmt: real -> string, fmtImpact: real -> string)
    requires reply.Failed? || reply.riskLevel.None?
    ensures AnalyzeML(symptoms, v, reply, fmt, fmtImpact) == RuleClassifier.Analyze(symptoms, v, fmt)
  {
  }

  /** A reply's level is reported upper-cased; the reasoning is one line per
      top feature in order, followed by exactly one provenance tag. */
  lemma ReplyMapping(symptoms: string, v: RuleClassifier.Vitals, reply: Reply,
                     fmt: real -> string, fmtImpact: real -> string)
    requires reply.Body? && reply.riskLevel.Some?
    ensures var r := AnalyzeML(symptoms, v, reply, fmt, fmtImpact);
      var fs := if reply.topFeatures.Some? then reply.topFeatures.value else [];
      && r.riskLevel == Upper(reply.riskLevel.value)
      && Lower(r.riskLevel) == Lower(reply.riskLevel.value)
      && |r.reasoning| == |fs| + 1
      && (forall i :: 0 <= i < |fs| ==> r.reasoning[i] == FeatureLine(fs[i], fmtImpact))
      && r.reasoning[|fs|] == (if reply.mock then MockTag else ModelTag)
      && (forall i :: 0 <= i < |fs| ==> r.reasoning[i] != MockTag && r.reasoning[i] != ModelTag)
  {
    var fs := if reply.topFeatures.Some? then reply.topFeatures.value else [];
    UpperLower(reply.riskLevel.value);
    forall i | 0 <= i < |fs|
      ensures FeatureLine(fs[i], fmtImpact) != MockTag && FeatureLine(fs[i], fmtImpact) != ModelTag
    {
      LineNotTag(fs[i], fmtImpact);
    }
  }

  /** A feature line is never a provenance tag: its name part is followed
      by ": ", which neither tag contains where the line has it. */
  lemma LineNotTag(f: TopFeature, fmt: real -> string)
    ensures FeatureLine(f, fmt) != MockTag && FeatureLine(f, fmt) != ModelTag
  {
    var line := FeatureLine(f, fmt);
    var n := |f.name|;
    assert line[n] == ':';
  }

  /** The line shows the feature name with every underscore turned into a
      space, and the magnitude of the impact whatever its sign. */
  lemma FeatureLineSpec(f: TopFeature, fmt: real -> string)
    ensures '_' !in FeatureLine(f, fmt)[..|f.name|]
    ensures FeatureLine(f, fmt) == FeatureLine(f.(impact := -f.impact), fmt)
    ensures Abs(f.impact) >= 0.0
  {
    var name := ReplaceAllChar(f.name, '_', ' ');
    assert FeatureLine(f, fmt)[..|f.name|] == name;
  }

  /** The department chain: each department is chosen exactly when its
      keywords occur and no earlier group's do. */
  lemma DepartmentChain(lower: string)
    ensures Department(lower) == "Cardiology" <==> Contains(lower, "chest") || Contains(lower, "heart")
    ensures Department(lower) == "Neurology" <==>
      !(Contains(lower, "chest") || Contains(lower, "heart"))
      && (Contains(lower, "stroke") || Contains(lower, "headache"))
    ensures Department(lower) == "Orthopedics" <==>
      !(Contains(lower, "chest") || Contains(lower, "heart"))
      && !(Contains(lower, "stroke") || Contains(lower, "headache"))
      && (Contains(lower, "fracture") || Contains(lower, "bone"))
    ensures Department(lower) == "Pulmonology" <==>
      !(Contains(lower, "chest") || Contains(lower, "heart") || Contains(lower, "stroke")
        || Contains(lower, "headache") || Contains(lower, "fracture") || Contains(lower, "bone"))
      && Contains(lower, "breath")
    ensures Department(lower) in {"Cardiology", "Neurology", "Orthopedics", "Pulmonology", "General Medicine"}
  {
  }

  /** The request: age 35, each vital as given when present and non-zero,
      its default (75, 120, 80, 37, 98) otherwise. */
  lemma RequestDefaults(v: RuleClassifier.Vitals)
    ensures Request(v).age == 35.0
    ensures Request(v).heartRate == (if RuleClassifier.Truthy(v.heartRate) then v.heartRate.value else 75.0)
    ensures Request(v).systolic == (if RuleClassifier.Truthy(v.systolicBp) then v.systolicBp.value else 120.0)
    ensures Request(v).diastolic == (if RuleClassifier.Truthy(v.diastolicBp) then v.diastolicBp.value else 80.0)
    ensures Request(v).temperature == (if RuleClassifier.Truthy(v.temperature) then v.temperature.value else 37.0)
    ensures Request(v).oxygen == (if RuleClassifier.Truthy(v.oxygenSaturation) then v.oxygenSaturation.value else 98.0)
    ensures Request(v).heartRate != 0.0 && Request(v).systolic != 0.0 && Request(v).diastolic != 0.0
    ensures Request(v).temperature != 0.0 && Request(v).oxygen != 0.0
  {
  }
}
