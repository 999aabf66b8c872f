/** calculateRisk of server/routes.ts: the heuristic scorer of the
    Express triage endpoint (Celsius vitals, 70/30 tiers). */
module VitalsScorer {
  import opened Text

  /** The scored fields of an intake record (gender and conditions are
      not read). */
  datatype Patient = Patient(
    age: int,
    symptoms: seq<string>,
    systolic: int,
    diastolic: int,
    heartRate: int,
    temperature: real)

  datatype Result = Result(
    riskLevel: string,
    confidenceScore: real,
    recommendedDepartment: string,
    explanation: seq<string>)

  const GeneralMedicine := "General Medicine"
  const RoutineCheckup := "Routine Checkup Recommended"

  // The explanation lines, one per rule.
  const CriticalReason := "Critical Hypertension (BP > 160/100)"
  const ElevatedReason := "Elevated Blood Pressure"
  const HeartRateReason := "Abnormal Heart Rate (>120 or <40)"
  const FeverReason := "High Fever (>39.5\U{00C2}\U{00B0}C)"
  const ChestPainReason := "Chest Pain reported"
  const BreathingReason := "Difficulty Breathing"
  const NeuroReason := "Neurological Symptoms"
  const TraumaReason := "Trauma/Bleeding"
  const ElderlyReason := "Age > 65 (Risk Factor)"

  // ------------------------------------------------------------ rule tests

  predicate CriticalBP(p: Patient) { p.systolic > 160 || p.diastolic > 100 }
  predicate ElevatedBP(p: Patient) { p.systolic > 140 || p.diastolic > 90 }
  predicate AbnormalHeartRate(p: Patient) { p.heartRate > 120 || p.heartRate < 40 }
  predicate HighFever(p: Patient) { p.temperature > 39.5 }
  predicate Elderly(p: Patient) { p.age > 65 }

  predicate ChestPainText(s: string) { Contains(s, "chest") && Contains(s, "pain") }
  predicate BreathText(s: string) { Contains(s, "breath") || Contains(s, "shortness") }
  predicate NeuroText(s: string) { Contains(s, "numb") || Contains(s, "speech") || Contains(s, "vision") }
  predicate TraumaText(s: string) { Contains(s, "bleed") || Contains(s, "trauma") }

  /** symptomsLower.some(test) */
  predicate AnySymptom(symptoms: seq<string>, test: string -> bool) {
    exists i :: 0 <= i < |symptoms| && test(Lower(symptoms[i]))
  }

  predicate ChestPain(p: Patient) { AnySymptom(p.symptoms, ChestPainText) }
  predicate Breathing(p: Patient) { AnySymptom(p.symptoms, BreathText) }
  predicate Neurological(p: Patient) { AnySymptom(p.symptoms, NeuroText) }
  predicate Trauma(p: Patient) { AnySymptom(p.symptoms, TraumaText) }

  // --------------------------------------------------- the rule table

  /** One heuristic: whether it fires, its weight and its explanation. */
  datatype Rule = Rule(fired: bool, weight: nat, reason: string)

  /** What the rule tests found about a patient. */
  datatype Findings = Findings(
    criticalBP: bool, elevatedBP: bool, heartRate: bool, fever: bool,
    chestPain: bool, breathing: bool, neurological: bool, trauma: bool, elderly: bool)

  function FindingsOf(p: Patient): Findings {
    Findings(CriticalBP(p), ElevatedBP(p), AbnormalHeartRate(p), HighFever(p),
             ChestPain(p), Breathing(p), Neurological(p), Trauma(p), Elderly(p))
  }

  /** The vital-sign rules in evaluation order; the two blood-pressure
      rules are the branches of one if/else. */
  function VitalRules(f: Findings): seq<Rule> {
    [ Rule(f.criticalBP, 30, CriticalReason),
      Rule(!f.criticalBP && f.elevatedBP, 15, ElevatedReason),
      Rule(f.heartRate, 25, HeartRateReason),
      Rule(f.fever, 20, FeverReason) ]
  }

  /** The symptom rules in evaluation order. */
  function SymptomRules(f: Findings): seq<Rule> {
    [ Rule(f.chestPain, 50, ChestPainReason),
      Rule(f.breathing, 40, BreathingReason),
      Rule(f.neurological, 45, NeuroReason),
      Rule(f.trauma, 40, TraumaReason) ]
  }

  /** The whole table: vital signs, symptoms, then age. */
  function RuleTable(f: Findings): seq<Rule> {
    VitalRules(f) + SymptomRules(f) + [Rule(f.elderly, 10, ElderlyReason)]
  }

  function Rules(p: Patient): seq<Rule> {
    RuleTable(FindingsOf(p))
  }

  /** Sum of the weights of the fired rules. */
  function FiredWeight(rules: seq<Rule>): nat {
    if rules == [] then 0
    else FiredWeight(rules[..|rules| - 1]) + Contribution(rules[|rules| - 1])
  }

  function Contribution(r: Rule): nat {
    if r.fired then r.weight else 0
  }

  /** Reasons of the fired rules, in rule order. */
  function FiredReasons(rules: seq<Rule>): seq<string> {
    if rules == [] then []
    else FiredReasons(rules[..|rules| - 1]) + Reason(rules[|rules| - 1])
  }

  function Reason(r: Rule): seq<string> {
    if r.fired then [r.reason] else []
  }

  /** The score and the reasons of four rules, rule by rule. */
  lemma FourRules(r: seq<Rule>)
    requires |r| == 4
    ensures FiredWeight(r) == Contribution(r[0]) + Contribution(r[1]) + Contribution(r[2]) + Contribution(r[3])
    ensures FiredReasons(r) == [] + Reason(r[0]) + Reason(r[1]) + Reason(r[2]) + Reason(r[3])
  {
    assert r[..1][..0] == [];
    assert FiredWeight(r[..1]) == Contribution(r[0]);
    assert FiredReasons(r[..1]) == [] + Reason(r[0]);
    assert r[..2][..1] == r[..1];
    assert FiredWeight(r[..2]) == FiredWeight(r[..1]) + Contribution(r[1]);
    assert FiredReasons(r[..2]) == FiredReasons(r[..1]) + Reason(r[1]);
    assert r[..3][..2] == r[..2];
    assert FiredWeight(r[..3]) == FiredWeight(r[..2]) + Contribution(r[2]);
    assert FiredReasons(r[..3]) == FiredReasons(r[..2]) + Reason(r[2]);
    assert r[..3] == r[..|r| - 1];
  }

  /** The score and the reasons of a single rule. */
  lemma OneRule(x: Rule)
    ensures FiredWeight([x]) == Contribution(x)
    ensures FiredReasons([x]) == [] + Reason(x)
  {
    assert [x][..0] == [];
  }

  function RiskScore(p: Patient): nat {
    FiredWeight(Rules(p))
  }

  /** "High" from 70, "Medium" from 30, "Low" below. */
  function Tier(score: int): string {
    if score >= 70 then "High" else if score >= 30 then "Medium" else "Low"
  }

  function TierRank(level: string): nat {
    if level == "High" then 2 else if level == "Medium" then 1 else 0
  }

  /** The department from the symptom rules alone: each firing rule
      overwrites the previous one, so the last firing rule in the order
      chest pain, breathing, neurological, trauma decides. */
  function SymptomDepartment(p: Patient): string {
    if Trauma(p) then "Emergency"
    else if Neurological(p) then "Neurology"
    else if Breathing(p) then "Pulmonology"
    else if ChestPain(p) then "Cardiology"
    else GeneralMedicine
  }

  /** A high tier with no specific department goes to the emergency room. */
  function Department(p: Patient): string {
    var d := SymptomDepartment(p);
    if Tier(RiskScore(p)) == "High" && d == GeneralMedicine then "Emergency" else d
  }

  /** min(0.6 + score / 200, 0.99), before the two-decimal rounding. */
  function Confidence(score: int): real {
    var c := 0.6 + (score as real) / 200.0;
    if c <= 0.99 then c else 0.99
  }

  /** calculateRisk as its rule table states it. */
  function Assess(p: Patient): Result {
    var reasons := FiredReasons(Rules(p));
    Result(
      Tier(RiskScore(p)),
      Confidence(RiskScore(p)),
      Department(p),
      if |reasons| > 0 then reasons else [RoutineCheckup])
  }

  // ------------------------------------------------------ the scorer

  /** symptomsLower.some(...) with the test applied to lower-cased entries. */
  method SomeSymptom(symptoms: seq<string>, test: string -> bool) returns (found: bool)
    ensures found == AnySymptom(symptoms, test)
  {
    for i := 0 to |symptoms|
      invariant forall j :: 0 <= j < i ==> !test(Lower(symptoms[j]))
    {
      if test(Lower(symptoms[i])) {
        return true;
      }
    }
    return false;
  }

  /** The vital-sign rules of calculateRisk (the first four of the table). */
  method VitalsLogic(patient: Patient) returns (riskScore: nat, explanations: seq<string>)
    ensures riskScore == FiredWeight(VitalRules(FindingsOf(patient)))
    ensures explanations == FiredReasons(VitalRules(FindingsOf(patient)))
  {
    ghost var rules := VitalRules(FindingsOf(patient));
    riskScore := 0;
    explanations := [];

    if patient.systolic > 160 || patient.diastolic > 100 {
      riskScore := riskScore + 30;
      explanations := explanations + [CriticalReason];
    } else if patient.systolic > 140 || patient.diastolic > 90 {
      riskScore := riskScore + 15;
      explanations := explanations + [ElevatedReason];
    }

    if patient.heartRate > 120 || patient.heartRate < 40 {
      riskScore := riskScore + 25;
      explanations := explanations + [HeartRateReason];
    }

    if patient.temperature > 39.5 {
      riskScore := riskScore + 20;
      explanations := explanations + [FeverReason];
    }
    FourRules(rules);
  }

  /** One symptom rule of calculateRisk: when some lower-cased symptom
      passes `test`, add the weight, push the reason and switch to `dept`. */
  method SymptomRule(symptoms: seq<string>, test: string -> bool, weight: nat, reason: string, dept: string,
                     riskScore0: nat, explanations0: seq<string>, department0: string)
    returns (riskScore: nat, explanations: seq<string>, department: string)
    ensures riskScore == riskScore0 + Contribution(Rule(AnySymptom(symptoms, test), weight, reason))
    ensures explanations == explanations0 + Reason(Rule(AnySymptom(symptoms, test), weight, reason))
    ensures department == if AnySymptom(symptoms, test) then dept else department0
  {
    riskScore, explanations, department := riskScore0, explanations0, department0;
    var hit := SomeSymptom(symptoms, test);
    if hit {
      riskScore := riskScore + weight;
      explanations := explanations + [reason];
      department := dept;
    }
  }

  /** The symptom rules of calculateRisk: the weight and reasons they add,
      and the department, which each firing rule overwrites. */
  method SymptomsLogic(patient: Patient)
    returns (riskScore: nat, explanations: seq<string>, department: string)
    ensures riskScore == FiredWeight(SymptomRules(FindingsOf(patient)))
    ensures explanations == FiredReasons(SymptomRules(FindingsOf(patient)))
    ensures department == SymptomDepartment(patient)
  {
    ghost var rules := SymptomRules(FindingsOf(patient));
    riskScore, explanations, department := SymptomRule(patient.symptoms, ChestPainText, 50, ChestPainReason,
      "Cardiology", 0, [], GeneralMedicine);
    riskScore, explanations, department := SymptomRule(patient.symptoms, BreathText, 40, BreathingReason,
      "Pulmonology", riskScore, explanations, department);
    riskScore, explanations, department := SymptomRule(patient.symptoms, NeuroText, 45, NeuroReason,
      "Neurology", riskScore, explanations, department);
    riskScore, explanations, department := SymptomRule(patient.symptoms, TraumaText, 40, TraumaReason,
      "Emergency", riskScore, explanations, department);
    FourRules(rules);
  }

  /** calculateRisk(patient): the vital-sign rules, the symptom rules, the
      age rule, then the tier, the emergency override and the confidence. */
  method CalculateRisk(patient: Patient) returns (r: Result)
    ensures r == Assess(patient)
  {
    var riskScore, explanations := VitalsLogic(patient);
    var symptomScore, symptomReasons, department := SymptomsLogic(patient);
    riskScore := riskScore + symptomScore;
    explanations := explanations + symptomReasons;

    if patient.age > 65 {
      riskScore := riskScore + 10;
      explanations := explanations + [ElderlyReason];
    }

    ghost var f := FindingsOf(patient);
    FiredWeightAppend(VitalRules(f), SymptomRules(f));
    FiredWeightAppend(VitalRules(f) + SymptomRules(f), [Rule(f.elderly, 10, ElderlyReason)]);
    OneRule(Rule(f.elderly, 10, ElderlyReason));

    var riskLevel := "Low";
    if riskScore >= 70 {
      riskLevel := "High";
    } else if riskScore >= 30 {
      riskLevel := "Medium";
    }

    if riskLevel == "High" && department == GeneralMedicine {
      department := "Emergency";
    }

    var confidenceScore := if 0.6 + (riskScore as real) / 200.0 <= 0.99 then 0.6 + (riskScore as real) / 200.0 else 0.99;

    r := Result(riskLevel, confidenceScore, department,
                if |explanations| > 0 then explanations else [RoutineCheckup]);
  }

  // ------------------------------------------------------------ properties

  /** The two blood-pressure rules never both fire, and the elevated one
      fires only below the critical thresholds. */
  lemma BloodPressureExclusive(p: Patient)
    ensures !(Rules(p)[0].fired && Rules(p)[1].fired)
    ensures Rules(p)[1].fired <==> (p.systolic <= 160 && p.diastolic <= 100 && (p.systolic > 140 || p.diastolic > 90))
  {
  }

  /** Scores add up over a split of the rule list. */
  lemma {:induction false} FiredWeightAppend(a: seq<Rule>, b: seq<Rule>)
    ensures FiredWeight(a + b) == FiredWeight(a) + FiredWeight(b)
    ensures FiredReasons(a + b) == FiredReasons(a) + FiredReasons(b)
    decreases |b|
  {
    if b == [] {
      assert a + b == a;
    } else {
      var init, last := b[..|b| - 1], b[|b| - 1];
      assert (a + b)[..|a + b| - 1] == a + init;
      assert (a + b)[|a + b| - 1] == last;
      FiredWeightAppend(a, init);
      assert FiredWeight(a + b) == FiredWeight(a + init) + Contribution(last);
      assert FiredReasons(a + b) == FiredReasons(a) + FiredReasons(init) + Reason(last);
    }
  }

  /** Every fired rule contributes one reason; the reasons are empty
      exactly when the score is 0. */
  lemma {:induction false} ReasonsMatchWeight(rules: seq<Rule>)
    requires forall i :: 0 <= i < |rules| ==> rules[i].weight > 0
    ensures |FiredReasons(rules)| == 0 <==> FiredWeight(rules) == 0
    ensures |FiredReasons(rules)| <= |rules|
    decreases |rules|
  {
    if rules != [] {
      ReasonsMatchWeight(rules[..|rules| - 1]);
    }
  }

  /** The default explanation appears exactly when no rule fired. */
  lemma ExplanationSpec(p: Patient)
    ensures |Assess(p).explanation| >= 1
    ensures Assess(p).explanation == [RoutineCheckup] <==> RiskScore(p) == 0
  {
    ReasonsMatchWeight(Rules(p));
    if RiskScore(p) > 0 {
      var rs := FiredReasons(Rules(p));
      ReasonsAreRuleReasons(Rules(p), rs[0]);
    }
  }

  /** Every explanation line is the reason of a rule that fired. */
  lemma {:induction false} ReasonsAreRuleReasons(rules: seq<Rule>, x: string)
    requires x in FiredReasons(rules)
    ensures exists i :: 0 <= i < |rules| && rules[i].fired && rules[i].reason == x
    decreases |rules|
  {
    var init := rules[..|rules| - 1];
    var last := rules[|rules| - 1];
    if x in FiredReasons(init) {
      ReasonsAreRuleReasons(init, x);
      var i :| 0 <= i < |init| && init[i].fired && init[i].reason == x;
      assert rules[i] == init[i];
    } else {
      assert last.fired && last.reason == x;
    }
  }

  /** The tier thresholds, and a higher score never gives a lower tier. */
  lemma TierSpec(s: int, t: int)
    ensures Tier(s) == "High" <==> s >= 70
    ensures Tier(s) == "Medium" <==> 30 <= s < 70
    ensures Tier(s) == "Low" <==> s < 30
    ensures s <= t ==> TierRank(Tier(s)) <= TierRank(Tier(t))
  {
  }

  /** The confidence lies in [0.6, 0.99] and never falls as the score rises. */
  lemma ConfidenceSpec(s: nat, t: nat)
    ensures 0.6 <= Confidence(s) <= 0.99
    ensures s <= t ==> Confidence(s) <= Confidence(t)
  {
  }

  /** The department: a high tier left in general medicine goes to the
      emergency department, and
      otherwise the last firing symptom rule decides (or it stays general
      medicine). */
  lemma DepartmentSpec(p: Patient)
    ensures Tier(RiskScore(p)) == "High" ==> Department(p) != GeneralMedicine
    ensures Tier(RiskScore(p)) == "High" && SymptomDepartment(p) == GeneralMedicine ==>
      Department(p) == "Emergency"
    ensures Tier(RiskScore(p)) != "High" ==> Department(p) == SymptomDepartment(p)
    ensures SymptomDepartment(p) != GeneralMedicine ==> Department(p) == SymptomDepartment(p)
    ensures !ChestPain(p) && !Breathing(p) && !Neurological(p) && !Trauma(p) ==>
      SymptomDepartment(p) == GeneralMedicine
  {
  }

  /** The score is the sum of the weights of the rules that fire
      independently of one another (the blood-pressure pair excepted). */
  lemma RiskScoreSum(p: Patient)
    ensures RiskScore(p) ==
      (if CriticalBP(p) then 30 else if ElevatedBP(p) then 15 else 0)
      + (if AbnormalHeartRate(p) then 25 else 0) + (if HighFever(p) then 20 else 0)
      + (if ChestPain(p) then 50 else 0) + (if Breathing(p) then 40 else 0)
      + (if Neurological(p) then 45 else 0) + (if Trauma(p) then 40 else 0)
      + (if Elderly(p) then 10 else 0)
  {
    var f := FindingsOf(p);
    TableWeights(f);
  }

  lemma TableWeights(f: Findings)
    ensures FiredWeight(RuleTable(f)) ==
      (if f.criticalBP then 30 else if f.elevatedBP then 15 else 0)
      + (if f.heartRate then 25 else 0) + (if f.fever then 20 else 0)
      + (if f.chestPain then 50 else 0) + (if f.breathing then 40 else 0)
      + (if f.neurological then 45 else 0) + (if f.trauma then 40 else 0)
      + (if f.elderly then 10 else 0)
  {
    var v := VitalRules(f);
    var y := SymptomRules(f);
    var last := [Rule(f.elderly, 10, ElderlyReason)];
    FiredWeightAppend(v, y);
    FiredWeightAppend(v + y, last);
    FourRules(v);
    FourRules(y);
    OneRule(last[0]);
  }

  /** A symptom test that passes on some entry still passes when more
      entries are appended. */
  lemma AnySymptomExtend(symptoms: seq<string>, extra: seq<string>, test: string -> bool)
    requires AnySymptom(symptoms, test)
    ensures AnySymptom(symptoms + extra, test)
  {
    var i :| 0 <= i < |symptoms| && test(Lower(symptoms[i]));
    assert (symptoms + extra)[i] == symptoms[i];
  }

  /** Reporting more symptoms never lowers the score. */
  lemma MoreSymptomsNeverLower(p: Patient, extra: seq<string>)
    ensures RiskScore(p) <= RiskScore(p.(symptoms := p.symptoms + extra))
  {
    var q := p.(symptoms := p.symptoms + extra);
    if ChestPain(p) { AnySymptomExtend(p.symptoms, extra, ChestPainText); }
    if Breathing(p) { AnySymptomExtend(p.symptoms, extra, BreathText); }
    if Neurological(p) { AnySymptomExtend(p.symptoms, extra, NeuroText); }
    if Trauma(p) { AnySymptomExtend(p.symptoms, extra, TraumaText); }
    FindingsMonotone(FindingsOf(p), FindingsOf(q));
  }

  /** More symptom findings, with the same vital signs and age, never
      score less. */
  lemma FindingsMonotone(f: Findings, g: Findings)
    requires f.criticalBP == g.criticalBP && f.elevatedBP == g.elevatedBP
    requires f.heartRate == g.heartRate && f.fever == g.fever && f.elderly == g.elderly
    requires f.chestPain ==> g.chestPain
    requires f.breathing ==> g.breathing
    requires f.neurological ==> g.neurological
    requires f.trauma ==> g.trauma
    ensures FiredWeight(RuleTable(f)) <= FiredWeight(RuleTable(g))
  {
    TableWeights(f);
    TableWeights(g);
  }

  /** The first seeded patient: 150/95 adds 15, chest pain 50, shortness
      of breath 40; no other rule fires, so 105, High, Pulmonology. */
  lemma SeedChestPainPatient()
    ensures var p := Patient(45, ["Chest pain", "Shortness of breath"], 150, 95, 110, 37.5);
      RiskScore(p) == 105 && Assess(p).riskLevel == "High" && Assess(p).recommendedDepartment == "Pulmonology"
  {
    var p := Patient(45, ["Chest pain", "Shortness of breath"], 150, 95, 110, 37.5);
    SeedSymptomTests(p.symptoms);
    RiskScoreSum(p);
  }

  /** What the four symptom tests find in the seeded complaints. */
  lemma SeedSymptomTests(symptoms: seq<string>)
    requires symptoms == ["Chest pain", "Shortness of breath"]
    ensures AnySymptom(symptoms, ChestPainText) && AnySymptom(symptoms, BreathText)
    ensures !AnySymptom(symptoms, NeuroText) && !AnySymptom(symptoms, TraumaText)
  {
    var s0, s1 := Lower(symptoms[0]), Lower(symptoms[1]);
    SeedLower(symptoms[0], symptoms[1]);
    SeedChestPainText(s0);
    SeedBreathText(s1);
    assert ChestPainText(s0) && BreathText(s1);
    assert forall i :: 0 <= i < |symptoms| ==> !NeuroText(Lower(symptoms[i])) && !TraumaText(Lower(symptoms[i]));
  }

  lemma SeedLower(c0: string, c1: string)
    requires c0 == "Chest pain" && c1 == "Shortness of breath"
    ensures Lower(c0) == "chest pain" && Lower(c1) == "shortness of breath"
  {
  }

  lemma SeedChestPainText(s: string)
    requires s == "chest pain"
    ensures ChestPainText(s) && !NeuroText(s) && !TraumaText(s)
  {
    assert OccursAt(s, "chest", 0);
    ContainsAt(s, "chest");
    assert OccursAt(s, "pain", 6);
    ContainsAt(s, "pain");
    NoNeuroInChestPain(s);
    NoTraumaIn(s);
  }

  lemma NoNeuroInChestPain(s: string)
    requires s == "chest pain"
    ensures !NeuroText(s)
  {
    MissingCharNotContained(s, "numb", 1);
    MissingCharNotContained(s, "vision", 0);
    SpeechNotInChestPain(s);
  }

  /** Neither seeded complaint mentions bleeding or trauma: neither has a 'u'
      and only the second has a 'b', followed by 'r'. */
  lemma NoTraumaIn(s: string)
    requires s == "chest pain" || s == "shortness of breath"
    ensures !TraumaText(s)
  {
    MissingCharNotContained(s, "bleed", 1);
    MissingCharNotContained(s, "trauma", 3);
  }

  lemma SeedBreathText(s: string)
    requires s == "shortness of breath"
    ensures BreathText(s) && !NeuroText(s) && !TraumaText(s)
  {
    assert OccursAt(s, "breath", 13);
    ContainsAt(s, "breath");
    MissingCharNotContained(s, "numb", 1);
    MissingCharNotContained(s, "speech", 1);
    MissingCharNotContained(s, "vision", 0);
    NoTraumaIn(s);
  }

  /** Characters of `t` that `s` lacks rule out an occurrence. */
  lemma MissingCharNotContained(s: string, t: string, k: nat)
    requires k < |t| && t[k] !in s
    ensures !Contains(s, t)
  {
    forall i ensures !OccursAt(s, t, i) {
      if 0 <= i <= |s| - |t| {
        assert s[i + k] in s;
        assert s[i..i + |t|][k] != t[k];
      }
    }
    ContainsAt(s, t);
  }

  /** "speech" does not occur in "chest pain": the only 's' is followed by 't'. */
  lemma SpeechNotInChestPain(s: string)
    requires s == "chest pain"
    ensures !Contains(s, "speech")
  {
    forall i ensures !OccursAt(s, "speech", i) {
      if 0 <= i <= 4 {
        if i == 3 {
          assert s[i..i + 6][1] != "speech"[1];
        } else {
          assert s[i..i + 6][0] != "speech"[0];
        }
      }
    }
    ContainsAt(s, "speech");
  }
}
