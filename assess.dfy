/** localAssess of engine.ts: the offline assessment assembled from the
    extracted symptoms, their tier and the disease matches. */
module LocalAssessment {
  import opened Options
  import opened Lexicon
  import opened SymptomExtraction
  import opened DiseaseMatcher
  import Text

  /** One row of the differential: placeholders carry no score. */
  datatype DiseaseLine = DiseaseLine(name: string, likelihood: string, score: Option<int>)

  datatype Guidance = Guidance(dos: seq<string>, donts: seq<string>, remedies: seq<string>)

  datatype Assessment = Assessment(
    risk: Tier,
    diseases: seq<DiseaseLine>,
    guidance: Guidance,
    confidence: int)

  /** Math.round for the non-negative values it is applied to here. */
  function Round(x: real): int {
    (x + 0.5).Floor
  }

  /** 'High' from 0.7, 'Moderate' from 0.4, 'Low' below. */
  function Likelihood(score: real): string {
    if score >= 0.7 then "High" else if score >= 0.4 then "Moderate" else "Low"
  }

  function Line(m: DiseaseMatch): DiseaseLine {
    DiseaseLine(m.disease.name, Likelihood(m.matchScore), Some(Round(m.matchScore * 100.0)))
  }

  function Lines(ms: seq<DiseaseMatch>): (r: seq<DiseaseLine>)
    ensures |r| == |ms|
    ensures forall i :: 0 <= i < |ms| ==> r[i] == Line(ms[i])
  {
    if ms == [] then [] else [Line(ms[0])] + Lines(ms[1..])
  }

  const Placeholder: DiseaseLine := DiseaseLine("Unclear - no strong local match", "Low", None)

  const GenericGuidance: Guidance := Guidance(
    ["Stay hydrated", "Rest", "Monitor symptoms"],
    ["Avoid self-medication with antibiotics", "Avoid strenuous activity"],
    [])

  function Min(x: int, y: int): int {
    if x <= y then x else y
  }

  /** 50, plus min(30, round(top score * 30)) when something matched,
      minus 10 for a high tier, capped at 99. */
  function Confidence(risk: Tier, matches: seq<DiseaseMatch>): int {
    var matchBoost := if |matches| > 0 then Min(30, Round(matches[0].matchScore * 30.0)) else 0;
    Min(99, 50 + matchBoost + (if risk == High then -10 else 0))
  }

  /** localAssess(symptomText) over the given lexicon and disease table. */
  function LocalAssess(lex: seq<Symptom>, diseases: seq<Disease>, symptomText: string): Assessment {
    var parsed := Extracted(lex, symptomText);
    var riskLevel := DetermineRiskLevel(lex, parsed);
    var matches := Matches(diseases, parsed);
    var lines := Lines(if |matches| <= 5 then matches else matches[..5]);
    var guidance :=
      if |matches| > 0
      then Guidance(matches[0].disease.dos, matches[0].disease.donts, matches[0].disease.remedies)
      else GenericGuidance;
    Assessment(
      riskLevel,
      if |lines| > 0 then lines else [Placeholder],
      guidance,
      Confidence(riskLevel, matches))
  }

  /** A rounded score of a kept match lies between 20 and 100. */
  lemma RoundedScoreRange(x: real)
    requires 0.2 < x <= 1.0
    ensures 20 <= Round(x * 100.0) <= 100
  {
  }

  /** The confidence lies in [40, 80]: 50 without a match, 56..80 with one,
      10 less for a high tier. */
  lemma ConfidenceRange(risk: Tier, matches: seq<DiseaseMatch>)
    requires forall i :: 0 <= i < |matches| ==> 0.2 < matches[i].matchScore <= 1.0
    ensures 40 <= Confidence(risk, matches) <= 80
    ensures |matches| == 0 ==> Confidence(risk, matches) == (if risk == High then 40 else 50)
    ensures |matches| > 0 && risk != High ==> Confidence(risk, matches) >= 56
  {
  }

  /** The assessment's shape: the tier of the extracted symptoms; one to
      five differential rows, the single placeholder exactly when nothing
      matched, otherwise one row per best match up to five; the best
      match's guidance, or the generic one when nothing matched. */
  lemma LocalAssessShape(lex: seq<Symptom>, diseases: seq<Disease>, text: string)
    ensures LocalAssess(lex, diseases, text).risk == DetermineRiskLevel(lex, Extracted(lex, text))
    ensures 1 <= |LocalAssess(lex, diseases, text).diseases| <= 5
    ensures Matches(diseases, Extracted(lex, text)) == [] <==>
      LocalAssess(lex, diseases, text).diseases == [Placeholder]
    ensures |Matches(diseases, Extracted(lex, text))| > 0 ==>
      |LocalAssess(lex, diseases, text).diseases| == Min(5, |Matches(diseases, Extracted(lex, text))|)
    ensures Matches(diseases, Extracted(lex, text)) == [] ==>
      LocalAssess(lex, diseases, text).guidance == GenericGuidance
    ensures Matches(diseases, Extracted(lex, text)) != [] ==>
      var best := Matches(diseases, Extracted(lex, text))[0].disease;
      LocalAssess(lex, diseases, text).guidance == Guidance(best.dos, best.donts, best.remedies)
  {
  }

  /** The confidence lies between 40 and 80. */
  lemma LocalAssessConfidence(lex: seq<Symptom>, diseases: seq<Disease>, text: string)
    ensures 40 <= LocalAssess(lex, diseases, text).confidence <= 80
  {
    var parsed := Extracted(lex, text);
    MatchesSpec(diseases, parsed);
    var matches := Matches(diseases, parsed);
    forall i | 0 <= i < |matches| ensures 0.2 < matches[i].matchScore <= 1.0 {
      assert matches[i] in matches;
    }
    ConfidenceRange(DetermineRiskLevel(lex, parsed), matches);
  }

  /** Each differential row names the i-th best match, labels it by its
      score and carries its score as a percentage in 20..100. */
  lemma LocalAssessRows(lex: seq<Symptom>, diseases: seq<Disease>, text: string, i: nat)
    requires i < |LocalAssess(lex, diseases, text).diseases|
    requires |Matches(diseases, Extracted(lex, text))| > 0
    ensures var m := Matches(diseases, Extracted(lex, text))[i];
      var row := LocalAssess(lex, diseases, text).diseases[i];
      && row.name == m.disease.name
      && row.likelihood == Likelihood(m.matchScore)
      && row.score.Some? && 20 <= row.score.value <= 100
  {
    var matches := Matches(diseases, Extracted(lex, text));
    MatchesSpec(diseases, Extracted(lex, text));
    assert matches[i] in matches;
    RoundedScoreRange(matches[i].matchScore);
  }

  /** Blank text gives a low tier, the placeholder row, generic guidance
      and confidence 50. */
  lemma LocalAssessBlank(lex: seq<Symptom>, diseases: seq<Disease>, text: string)
    requires Text.IsBlank(text)
    ensures LocalAssess(lex, diseases, text) == Assessment(Low, [Placeholder], GenericGuidance, 50)
  {
    ExtractedSpec(lex, text);
    assert KnownTiers(lex, []) == [];
  }
}
