/** analyzePatient of temp_app/src/lib/ai/riskClassifier.ts: the rule-based
    classifier (Fahrenheit fever threshold, 10/5 tiers, the cold-symptom
    protocol). Every rule adds points, may push one reason and treats the
    department in one of three ways. */
module RuleClassifier {
  import opened Options
  import opened Text

  /** The optional vital signs, pain level and history summaries. */
  datatype Vitals = Vitals(
    heartRate: Option<real>,
    systolicBp: Option<real>,
    diastolicBp: Option<real>,
    temperature: Option<real>,
    oxygenSaturation: Option<real>,
    painLevel: Option<real>,
    medicalHistory: Option<seq<string>>)

  datatype Analysis = Analysis(riskLevel: string, department: string, reasoning: seq<string>)

  const GeneralMedicine := "General Medicine"
  const NoSigns := "No critical signs or specific high-risk symptoms detected."
  const ColdAlert := "Protocol Alert: Cold symptoms classified as HIGH RISK."

  const HighRiskKeywords: seq<string> :=
    ["chest pain", "severe breathlessness", "unconscious", "stroke", "paralysis", "severe bleeding"]
  const MediumRiskKeywords: seq<string> :=
    ["fever", "dizziness", "vomiting", "fracture", "abdominal pain", "headache"]
  const ColdKeywords: seq<string> :=
    ["cold", "common cold", "runny nose", "sneeze", "sneezing", "cough", "mild fever"]

  /** JavaScript truthiness of an optional number: absent and 0 are false. */
  predicate Truthy(v: Option<real>) {
    v.Some? && v.value != 0.0
  }

  // ------------------------------------------------------------ rule tables

  /** What a firing rule does to the department. */
  datatype DeptUpdate = Keep | Overwrite(dept: string) | FillIfGeneral(dept: string)

  /** A rule: whether it fires, its points, the reasons it pushes (none or
      one) and its department update. */
  datatype Rule = Rule(fired: bool, weight: nat, reasons: seq<string>, update: DeptUpdate)

  /** The running `riskScore`, `reasons` and `department`. */
  datatype State = State(score: nat, reasons: seq<string>, department: string)

  const Start := State(0, [], GeneralMedicine)

  function Update(d: string, u: DeptUpdate): string {
    match u
    case Keep => d
    case Overwrite(x) => x
    case FillIfGeneral(x) => if d == GeneralMedicine then x else d
  }

  function Step(st: State, r: Rule): State {
    if r.fired then State(st.score + r.weight, st.reasons + r.reasons, Update(st.department, r.update))
    else st
  }

  /** The rules applied in order. */
  function Run(rules: seq<Rule>, st: State): State {
    if rules == [] then st else Step(Run(rules[..|rules| - 1], st), rules[|rules| - 1])
  }

  /** 1. Critical vitals: heart rate, systolic pressure, oxygen, fever. */
  function VitalRules(v: Vitals, fmt: real -> string): seq<Rule> {
    [ Rule(Truthy(v.heartRate) && (v.heartRate.value > 120.0 || v.heartRate.value < 40.0), 10,
           if v.heartRate.Some? then ["Critical Heart Rate: " + fmt(v.heartRate.value) + " bpm"] else [],
           Overwrite("Cardiology")),
      Rule(Truthy(v.systolicBp) && (v.systolicBp.value > 180.0 || v.systolicBp.value < 90.0), 10,
           if v.systolicBp.Some? then ["Critical Blood Pressure: " + fmt(v.systolicBp.value) + " mmHg (Systolic)"] else [],
           FillIfGeneral("Cardiology")),
      Rule(Truthy(v.oxygenSaturation) && v.oxygenSaturation.value < 90.0, 10,
           if v.oxygenSaturation.Some? then ["Low Oxygen Saturation: " + fmt(v.oxygenSaturation.value) + "%"] else [],
           Overwrite("Pulmonology")),
      Rule(Truthy(v.temperature) && v.temperature.value > 102.0, 5,
           if v.temperature.Some? then ["High Fever: " + fmt(v.temperature.value) + "\U{00B0}F"] else [],
           FillIfGeneral(GeneralMedicine)) ]
  }

  /** The pain pair: the branches of one if/else. */
  function PainRules(v: Vitals, fmt: real -> string): seq<Rule> {
    var severe := Truthy(v.painLevel) && v.painLevel.value >= 8.0;
    var level := if v.painLevel.Some? then fmt(v.painLevel.value) else "";
    [ Rule(severe, 10, ["Severe Pain (Level " + level + ")"], Keep),
      Rule(!severe && Truthy(v.painLevel) && v.painLevel.value >= 5.0, 5,
           ["Moderate Pain (Level " + level + ")"], Keep) ]
  }

  /** The lower-cased history text, when there is a non-empty history. */
  function HistoryText(v: Vitals): Option<string> {
    if v.medicalHistory.Some? && |v.medicalHistory.value| > 0
    then Some(Lower(Join(v.medicalHistory.value, " ")))
    else None
  }

  predicate Mentions(h: Option<string>, a: string, b: string) {
    h.Some? && (Contains(h.value, a) || Contains(h.value, b))
  }

  /** 2. Medical history. */
  function HistoryRules(v: Vitals): seq<Rule> {
    var h := HistoryText(v);
    [ Rule(Mentions(h, "cardiac", "heart"), 5,
           ["Risk elevated due to history of cardiac issues."], FillIfGeneral("Cardiology")),
      Rule(Mentions(h, "diabetic", "diabetes"), 3,
           ["Risk elevated due to history of diabetes."], Keep),
      Rule(Mentions(h, "asthma", "respiratory"), 3,
           ["Risk elevated due to respiratory history."], FillIfGeneral("Pulmonology")) ]
  }

  predicate CardiologyText(s: string) { Contains(s, "chest") || Contains(s, "heart") }
  predicate NeurologyText(s: string) {
    Contains(s, "stroke") || Contains(s, "paralysis") || Contains(s, "headache")
  }
  predicate OrthopedicsText(s: string) {
    Contains(s, "fracture") || Contains(s, "bone") || Contains(s, "joint")
  }

  /** 3a. Keyword departments: they only fill a general department. */
  function DepartmentRules(lowerSymptoms: string): seq<Rule> {
    [ Rule(CardiologyText(lowerSymptoms), 0, [], FillIfGeneral("Cardiology")),
      Rule(NeurologyText(lowerSymptoms), 0, [], FillIfGeneral("Neurology")),
      Rule(OrthopedicsText(lowerSymptoms), 0, [], FillIfGeneral("Orthopedics")) ]
  }

  /** `keywords.some(kw => text.includes(kw))` */
  predicate AnyKeyword(keywords: seq<string>, text: string) {
    exists i :: 0 <= i < |keywords| && Contains(text, keywords[i])
  }

  /** `keywords.find(kw => text.includes(kw))` */
  function FirstMatch(keywords: seq<string>, text: string): Option<string> {
    if keywords == [] then None
    else if Contains(text, keywords[0]) then Some(keywords[0])
    else FirstMatch(keywords[1..], text)
  }

  /** 3b. The cold protocol, then the high or else the medium keyword group. */
  function ProtocolRules(lowerSymptoms: string): seq<Rule> {
    var high := FirstMatch(HighRiskKeywords, lowerSymptoms);
    var medium := FirstMatch(MediumRiskKeywords, lowerSymptoms);
    [ Rule(AnyKeyword(ColdKeywords, lowerSymptoms), 15, [ColdAlert], Overwrite(GeneralMedicine)),
      Rule(high.Some?, 10,
           if high.Some? then ["High risk symptom detected: \"" + high.value + "\""] else [], Keep),
      Rule(high.None? && medium.Some?, 5,
           if medium.Some? then ["Moderate risk symptom detected: \"" + medium.value + "\""] else [], Keep) ]
  }

  /** 4. The tier: HIGH from 10, MEDIUM from 5. */
  function Tier(score: int): string {
    if score >= 10 then "HIGH" else if score >= 5 then "MEDIUM" else "LOW"
  }

  /** The state after every rule. */
  function Final(symptoms: string, v: Vitals, fmt: real -> string): State {
    var lower := Lower(symptoms);
    Run(ProtocolRules(lower), Run(DepartmentRules(lower), Run(HistoryRules(v),
      Run(PainRules(v, fmt), Run(VitalRules(v, fmt), Start)))))
  }

  /** analyzePatient as its rule tables state it. */
  function Analyze(symptoms: string, v: Vitals, fmt: real -> string): Analysis {
    var st := Final(symptoms, v, fmt);
    Analysis(Tier(st.score), st.department, if st.reasons == [] then [NoSigns] else st.reasons)
  }

  // ------------------------------------------------------------ unfolding

  lemma RunTwo(r: seq<Rule>, st: State)
    requires |r| == 2
    ensures Run(r, st) == Step(Step(st, r[0]), r[1])
  {
    assert r[..1][..0] == [];
    assert Run(r[..1], st) == Step(st, r[0]);
  }

  lemma RunThree(r: seq<Rule>, st: State)
    requires |r| == 3
    ensures Run(r, st) == Step(Step(Step(st, r[0]), r[1]), r[2])
  {
    RunTwo(r[..2], st);
  }

  lemma RunFour(r: seq<Rule>, st: State)
    requires |r| == 4
    ensures Run(r, st) == Step(Step(Step(Step(st, r[0]), r[1]), r[2]), r[3])
  {
    RunThree(r[..3], st);
  }

  // ------------------------------------------------------------ the classifier

  /** `keywords.some(kw => text.includes(kw))` */
  method SomeKeyword(keywords: seq<string>, text: string) returns (found: bool)
    ensures found == AnyKeyword(keywords, text)
  {
    for i := 0 to |keywords|
      invariant forall j :: 0 <= j < i ==> !Contains(text, keywords[j])
    {
      if Contains(text, keywords[i]) {
        return true;
      }
    }
    return false;
  }

  /** `keywords.find(kw => text.includes(kw))` */
  method FindKeyword(keywords: seq<string>, text: string) returns (m: Option<string>)
    ensures m == FirstMatch(keywords, text)
  {
    var i := 0;
    while i < |keywords|
      invariant 0 <= i <= |keywords|
      invariant FirstMatch(keywords[i..], text) == FirstMatch(keywords, text)
    {
      assert keywords[i..][1..] == keywords[i + 1..];
      if Contains(text, keywords[i]) {
        return Some(keywords[i]);
      }
      i := i + 1;
    }
    return None;
  }

  /** Section 1: the critical vital-sign checks. */
  method CriticalVitals(vitals: Vitals, fmt: real -> string, st0: State) returns (st: State)
    ensures st == Run(VitalRules(vitals, fmt), st0)
  {
    var riskScore, reasons, department := st0.score, st0.reasons, st0.department;
    if Truthy(vitals.heartRate) && (vitals.heartRate.value > 120.0 || vitals.heartRate.value < 40.0) {
      riskScore := riskScore + 10;
      reasons := reasons + ["Critical Heart Rate: " + fmt(vitals.heartRate.value) + " bpm"];
      department := "Cardiology";
    }
    if Truthy(vitals.systolicBp) && (vitals.systolicBp.value > 180.0 || vitals.systolicBp.value < 90.0) {
      riskScore := riskScore + 10;
      reasons := reasons + ["Critical Blood Pressure: " + fmt(vitals.systolicBp.value) + " mmHg (Systolic)"];
      if department == GeneralMedicine {
        department := "Cardiology";
      }
    }
    if Truthy(vitals.oxygenSaturation) && vitals.oxygenSaturation.value < 90.0 {
      riskScore := riskScore + 10;
      reasons := reasons + ["Low Oxygen Saturation: " + fmt(vitals.oxygenSaturation.value) + "%"];
      department := "Pulmonology";
    }
    if Truthy(vitals.temperature) && vitals.temperature.value > 102.0 {
      riskScore := riskScore + 5;
      reasons := reasons + ["High Fever: " + fmt(vitals.temperature.value) + "\U{00B0}F"];
      if department == GeneralMedicine {
        department := GeneralMedicine;
      }
    }
    st := State(riskScore, reasons, department);
    RunFour(VitalRules(vitals, fmt), st0);
  }

  /** Section 1, continued: severe, else moderate pain. */
  method PainCheck(vitals: Vitals, fmt: real -> string, st0: State) returns (st: State)
    ensures st == Run(PainRules(vitals, fmt), st0)
  {
    var riskScore, reasons := st0.score, st0.reasons;
    if Truthy(vitals.painLevel) && vitals.painLevel.value >= 8.0 {
      riskScore := riskScore + 10;
      reasons := reasons + ["Severe Pain (Level " + fmt(vitals.painLevel.value) + ")"];
    } else if Truthy(vitals.painLevel) && vitals.painLevel.value >= 5.0 {
      riskScore := riskScore + 5;
      reasons := reasons + ["Moderate Pain (Level " + fmt(vitals.painLevel.value) + ")"];
    }
    st := State(riskScore, reasons, st0.department);
    RunTwo(PainRules(vitals, fmt), st0);
  }

  /** Section 2: the medical-history checks. */
  method MedicalHistory(vitals: Vitals, st0: State) returns (st: State)
    ensures st == Run(HistoryRules(vitals), st0)
  {
    var riskScore, reasons, department := st0.score, st0.reasons, st0.department;
    if vitals.medicalHistory.Some? && |vitals.medicalHistory.value| > 0 {
      var historyText := Lower(Join(vitals.medicalHistory.value, " "));
      if Contains(historyText, "cardiac") || Contains(historyText, "heart") {
        riskScore := riskScore + 5;
        reasons := reasons + ["Risk elevated due to history of cardiac issues."];
        if department == GeneralMedicine {
          department := "Cardiology";
        }
      }
      if Contains(historyText, "diabetic") || Contains(historyText, "diabetes") {
        riskScore := riskScore + 3;
        reasons := reasons + ["Risk elevated due to history of diabetes."];
      }
      if Contains(historyText, "asthma") || Contains(historyText, "respiratory") {
        riskScore := riskScore + 3;
        reasons := reasons + ["Risk elevated due to respiratory history."];
        if department == GeneralMedicine {
          department := "Pulmonology";
        }
      }
    }
    st := State(riskScore, reasons, department);
    RunThree(HistoryRules(vitals), st0);
  }

  /** Section 3a: the department keywords. */
  method KeywordDepartments(lowerSymptoms: string, st0: State) returns (st: State)
    ensures st == Run(DepartmentRules(lowerSymptoms), st0)
  {
    var department := st0.department;
    if Contains(lowerSymptoms, "chest") || Contains(lowerSymptoms, "heart") {
      if department == GeneralMedicine {
        department := "Cardiology";
      }
    }
    if Contains(lowerSymptoms, "stroke") || Contains(lowerSymptoms, "paralysis") || Contains(lowerSymptoms, "headache") {
      if department == GeneralMedicine {
        department := "Neurology";
      }
    }
    if Contains(lowerSymptoms, "fracture") || Contains(lowerSymptoms, "bone") || Contains(lowerSymptoms, "joint") {
      if department == GeneralMedicine {
        department := "Orthopedics";
      }
    }
    st := State(st0.score, st0.reasons, department);
    RunThree(DepartmentRules(lowerSymptoms), st0);
  }

  /** Section 3b: the cold protocol and the keyword groups. */
  method KeywordRisk(lowerSymptoms: string, st0: State) returns (st: State)
    ensures st == Run(ProtocolRules(lowerSymptoms), st0)
  {
    var riskScore, reasons, department := st0.score, st0.reasons, st0.department;
    var cold := SomeKeyword(ColdKeywords, lowerSymptoms);
    if cold {
      riskScore := riskScore + 15;
      reasons := reasons + [ColdAlert];
      department := GeneralMedicine;
    }
    var high := SomeKeyword(HighRiskKeywords, lowerSymptoms);
    var medium := SomeKeyword(MediumRiskKeywords, lowerSymptoms);
    FirstMatchSome(HighRiskKeywords, lowerSymptoms);
    FirstMatchSome(MediumRiskKeywords, lowerSymptoms);
    if high {
      riskScore := riskScore + 10;
      var m := FindKeyword(HighRiskKeywords, lowerSymptoms);
      reasons := reasons + ["High risk symptom detected: \"" + m.value + "\""];
    } else if medium {
      riskScore := riskScore + 5;
      var m := FindKeyword(MediumRiskKeywords, lowerSymptoms);
      reasons := reasons + ["Moderate risk symptom detected: \"" + m.value + "\""];
    }
    st := State(riskScore, reasons, department);
    RunThree(ProtocolRules(lowerSymptoms), st0);
  }

  /** analyzePatient(symptoms, vitals), with the number formatting of the
      reason templates as a parameter. */
  method AnalyzePatient(symptoms: string, vitals: Vitals, fmt: real -> string) returns (r: Analysis)
    ensures r == Analyze(symptoms, vitals, fmt)
  {
    var st := CriticalVitals(vitals, fmt, Start);
    st := PainCheck(vitals, fmt, st);
    st := MedicalHistory(vitals, st);
    var lowerSymptoms := Lower(symptoms);
    st := KeywordDepartments(lowerSymptoms, st);
    st := KeywordRisk(lowerSymptoms, st);

    var finalRisk := "LOW";
    if st.score >= 10 {
      finalRisk := "HIGH";
    } else if st.score >= 5 {
      finalRisk := "MEDIUM";
    }
    var reasons := st.reasons;
    if |reasons| == 0 {
      reasons := reasons + [NoSigns];
    }
    r := Analysis(finalRisk, st.department, reasons);
  }

  // ------------------------------------------------------------ properties

  /** `find` returns the first keyword, in list order, that occurs; it
      returns something exactly when `some` holds. */
  lemma {:induction false} FirstMatchSome(keywords: seq<string>, text: string)
    ensures FirstMatch(keywords, text).Some? <==> AnyKeyword(keywords, text)
    ensures FirstMatch(keywords, text).Some? ==>
      exists i :: 0 <= i < |keywords| && keywords[i] == FirstMatch(keywords, text).value
        && Contains(text, keywords[i]) && forall j :: 0 <= j < i ==> !Contains(text, keywords[j])
    decreases |keywords|
  {
    if keywords != [] && !Contains(text, keywords[0]) {
      FirstMatchSome(keywords[1..], text);
      if AnyKeyword(keywords, text) {
        var i :| 0 <= i < |keywords| && Contains(text, keywords[i]);
        assert keywords[1..][i - 1] == keywords[i];
      }
      if FirstMatch(keywords, text).Some? {
        var i :| 0 <= i < |keywords[1..]| && keywords[1..][i] == FirstMatch(keywords, text).value
          && Contains(text, keywords[1..][i]) && forall j :: 0 <= j < i ==> !Contains(text, keywords[1..][j]);
        assert keywords[i + 1] == keywords[1..][i];
        forall j | 0 <= j < i + 1 ensures !Contains(text, keywords[j]) {
          if j > 0 {
            assert keywords[j] == keywords[1..][j - 1];
          }
        }
      }
    } else if keywords != [] {
      assert AnyKeyword(keywords, text) by {
        assert Contains(text, keywords[0]);
      }
    }
  }

  /** The rules append; running a concatenation runs one part after the other. */
  lemma {:induction false} RunAppend(a: seq<Rule>, b: seq<Rule>, st: State)
    ensures Run(a + b, st) == Run(b, Run(a, st))
    decreases |b|
  {
    if b == [] {
      assert a + b == a;
    } else {
      assert (a + b)[..|a + b| - 1] == a + b[..|b| - 1];
      RunAppend(a, b[..|b| - 1], st);
    }
  }

  /** The score is the starting score plus the points of the fired rules,
      so no rule lowers it. */
  lemma {:induction false} RunScore(rules: seq<Rule>, st: State)
    ensures Run(rules, st).score == st.score + FiredPoints(rules)
    ensures Run(rules, st).score >= st.score
    decreases |rules|
  {
    if rules != [] {
      RunScore(rules[..|rules| - 1], st);
    }
  }

  function FiredPoints(rules: seq<Rule>): nat {
    if rules == [] then 0
    else FiredPoints(rules[..|rules| - 1]) + (if rules[|rules| - 1].fired then rules[|rules| - 1].weight else 0)
  }

  /** Rules that never overwrite leave a specific department alone. */
  lemma {:induction false} FillNeverOverwrites(rules: seq<Rule>, st: State)
    requires st.department != GeneralMedicine
    requires forall i :: 0 <= i < |rules| ==> !rules[i].update.Overwrite?
    ensures Run(rules, st).department == st.department
    decreases |rules|
  {
    if rules != [] {
      FillNeverOverwrites(rules[..|rules| - 1], st);
    }
  }

  /** Absent or zero vitals and pain fire no rule of section 1. */
  lemma AbsentVitalsFireNothing(v: Vitals, fmt: real -> string, st: State)
    requires !Truthy(v.heartRate) && !Truthy(v.systolicBp) && !Truthy(v.oxygenSaturation)
    requires !Truthy(v.temperature) && !Truthy(v.painLevel)
    ensures Run(PainRules(v, fmt), Run(VitalRules(v, fmt), st)) == st
  {
    RunFour(VitalRules(v, fmt), st);
    RunTwo(PainRules(v, fmt), st);
  }

  /** The department after the critical vitals: low oxygen overwrites
      last, an abnormal heart rate overwrites, a critical systolic pressure
      only fills a general department, and fever changes nothing; the score
      is 10 per vital rule plus 5 for fever. */
  lemma VitalsDepartment(v: Vitals, fmt: real -> string)
    ensures var r := VitalRules(v, fmt);
      var st := Run(r, Start);
      && st.department == (if r[2].fired then "Pulmonology"
                          else if r[0].fired || r[1].fired then "Cardiology"
                          else GeneralMedicine)
      && st.score == (if r[0].fired then 10 else 0) + (if r[1].fired then 10 else 0)
                   + (if r[2].fired then 10 else 0) + (if r[3].fired then 5 else 0)
  {
    RunFour(VitalRules(v, fmt), Start);
  }

  /** At most one pain rule fires: severe from 8, moderate from 5 below 8. */
  lemma PainExclusive(v: Vitals, fmt: real -> string)
    ensures !(PainRules(v, fmt)[0].fired && PainRules(v, fmt)[1].fired)
    ensures PainRules(v, fmt)[0].fired <==> Truthy(v.painLevel) && v.painLevel.value >= 8.0
    ensures PainRules(v, fmt)[1].fired <==> Truthy(v.painLevel) && 5.0 <= v.painLevel.value < 8.0
  {
  }

  /** At most one keyword group contributes: the high group (10 points)
      whenever a high keyword occurs, the medium group (5 points) only when
      none does; each group's reason quotes its first matching keyword. */
  lemma KeywordGroupsExclusive(lower: string)
    ensures !(ProtocolRules(lower)[1].fired && ProtocolRules(lower)[2].fired)
    ensures ProtocolRules(lower)[1].fired <==> AnyKeyword(HighRiskKeywords, lower)
    ensures ProtocolRules(lower)[2].fired <==>
      !AnyKeyword(HighRiskKeywords, lower) && AnyKeyword(MediumRiskKeywords, lower)
    ensures ProtocolRules(lower)[1].fired ==>
      ProtocolRules(lower)[1].reasons ==
        ["High risk symptom detected: \"" + FirstMatch(HighRiskKeywords, lower).value + "\""]
    ensures ProtocolRules(lower)[2].fired ==>
      ProtocolRules(lower)[2].reasons ==
        ["Moderate risk symptom detected: \"" + FirstMatch(MediumRiskKeywords, lower).value + "\""]
    ensures ProtocolRules(lower)[1].weight == 10 && ProtocolRules(lower)[2].weight == 5
  {
    FirstMatchSome(HighRiskKeywords, lower);
    FirstMatchSome(MediumRiskKeywords, lower);
  }

  /** The history and keyword checks never change a department that the
      vitals have already made specific. */
  lemma HistoryAndKeywordsOnlyFill(v: Vitals, lower: string, st: State)
    requires st.department != GeneralMedicine
    ensures Run(DepartmentRules(lower), Run(HistoryRules(v), st)).department == st.department
  {
    FillNeverOverwrites(HistoryRules(v), st);
    FillNeverOverwrites(DepartmentRules(lower), Run(HistoryRules(v), st));
  }

  /** Any cold keyword makes the result HIGH and the department general
      medicine. */
  lemma ColdIsHigh(symptoms: string, v: Vitals, fmt: real -> string)
    requires AnyKeyword(ColdKeywords, Lower(symptoms))
    ensures Analyze(symptoms, v, fmt).riskLevel == "HIGH"
    ensures Analyze(symptoms, v, fmt).department == GeneralMedicine
  {
    var lower := Lower(symptoms);
    var before := Run(DepartmentRules(lower), Run(HistoryRules(v),
      Run(PainRules(v, fmt), Run(VitalRules(v, fmt), Start))));
    var rules := ProtocolRules(lower);
    RunThree(rules, before);
    assert Step(before, rules[0]).score >= 15;
  }

  /** The tier thresholds, and a higher score never gives a lower tier. */
  lemma TierSpec(s: int, t: int)
    ensures Tier(s) == "HIGH" <==> s >= 10
    ensures Tier(s) == "MEDIUM" <==> 5 <= s < 10
    ensures Tier(s) == "LOW" <==> s < 5
    ensures s <= t && Tier(s) == "HIGH" ==> Tier(t) == "HIGH"
    ensures s <= t && Tier(t) == "LOW" ==> Tier(s) == "LOW"
  {
  }

  /** The reasoning is never empty; it is the default sentence exactly when
      no rule pushed a reason. */
  lemma ReasoningNonEmpty(symptoms: string, v: Vitals, fmt: real -> string)
    ensures |Analyze(symptoms, v, fmt).reasoning| >= 1
    ensures Final(symptoms, v, fmt).reasons == [] ==> Analyze(symptoms, v, fmt).reasoning == [NoSigns]
    ensures Final(symptoms, v, fmt).reasons != [] ==>
      Analyze(symptoms, v, fmt).reasoning == Final(symptoms, v, fmt).reasons
  {
  }
}
