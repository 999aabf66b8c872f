/** generateExplanation of temp_app/src/lib/ai/explainability.ts: the
    plain-text explanation assembled from a risk level, a department and the
    list of reasons. */
module Explainability {
  import opened Text
  import RuleClassifier

  const NoFactors := "Based on the provided information, no immediate high-risk factors were identified. A general check-up is recommended."
  const HighPreamble := "CRITICAL ALERT: Analyzing the patient's vitals and reported symptoms, we have detected immediate risk factors that require urgent attention."
  const MediumPreamble := "CAUTION: The patient exhibits potentially concerning symptoms that warrant medical evaluation."
  const LowPreamble := "MONITOR: While no critical signs are present, the reported symptoms suggest a need for routine consultation."

  /** The `riskPreambles` lookup. A level outside the three keys reads as
      `undefined`, which the template string renders literally. */
  function Preamble(level: string): string {
    if level == "HIGH" then HighPreamble
    else if level == "MEDIUM" then MediumPreamble
    else if level == "LOW" then LowPreamble
    else "undefined"
  }

  /** `reasons.map(r => `- ${r}`)`. */
  function Bullets(reasons: seq<string>): seq<string> {
    seq(|reasons|, i requires 0 <= i < |reasons| => "- " + reasons[i])
  }

  /** The closing sentence. */
  function Closing(department: string): string {
    "Please proceed to the " + department + " department immediately for further assessment."
  }

  /** generateExplanation(riskLevel, department, reasons). */
  function GenerateExplanation(level: string, department: string, reasons: seq<string>): string {
    if reasons == [] then NoFactors
    else
      Preamble(level) + "\n\n" + "Recommended Department: " + department + "\n\n" + "Key Findings:\n"
      + Join(Bullets(reasons), "\n") + "\n\n" + Closing(department)
  }

  // ------------------------------------------------------------ properties

  /** The fixed sentence is produced exactly when there are no reasons,
      whatever the level and department. */
  lemma NoReasonsSentence(level: string, department: string, reasons: seq<string>)
    ensures GenerateExplanation(level, department, reasons) == NoFactors <==> reasons == []
  {
    if reasons != [] {
      var text := GenerateExplanation(level, department, reasons);
      assert text[0] == Preamble(level)[0];
    }
  }

  /** Each joined element occurs in the joined text. */
  lemma {:induction false} JoinHasEach(xs: seq<string>, sep: string, i: int)
    requires 0 <= i < |xs|
    ensures Contains(Join(xs, sep), xs[i])
  {
    if |xs| == 1 {
      ContainsInfix("", xs[0], "");
      assert "" + xs[0] + "" == xs[0];
    } else if i == 0 {
      ContainsInfix("", xs[0], sep + Join(xs[1..], sep));
      assert "" + xs[0] + (sep + Join(xs[1..], sep)) == Join(xs, sep);
    } else {
      JoinHasEach(xs[1..], sep, i - 1);
      ContainsExtend(Join(xs[1..], sep), xs[i], xs[0] + sep);
      assert (xs[0] + sep) + Join(xs[1..], sep) == Join(xs, sep);
    }
  }

  /** Where the pieces of a nine-part concatenation sit in it. */
  lemma Pieces(s1: string, s2: string, s3: string, s4: string, s5: string,
               s6: string, s7: string, s8: string, s9: string)
    ensures var t := s1 + s2 + s3 + s4 + s5 + s6 + s7 + s8 + s9;
      var h := |s1 + s2 + s3 + s4 + s5 + s6|;
      && StartsWith(t, s1)
      && Contains(t, s3 + s4)
      && EndsWith(t, s9)
      && h + |s8 + s9| <= |t|
      && t[h..|t| - |s8 + s9|] == s7
      && (forall x :: Contains(s7, x) ==> Contains(t, x))
  {
    var t := s1 + s2 + s3 + s4 + s5 + s6 + s7 + s8 + s9;
    assert t[..|s1|] == s1;
    ContainsInfix(s1 + s2, s3 + s4, s5 + s6 + s7 + s8 + s9);
    assert s1 + s2 + (s3 + s4) + (s5 + s6 + s7 + s8 + s9) == t;
    assert t[|t| - |s9|..] == s9;
    forall x | Contains(s7, x)
      ensures Contains(t, x)
    {
      ContainsExtend(s7, x, s1 + s2 + s3 + s4 + s5 + s6);
      ContainsExtend(s1 + s2 + s3 + s4 + s5 + s6 + s7, x, s8 + s9);
      assert s1 + s2 + s3 + s4 + s5 + s6 + s7 + (s8 + s9) == t;
    }
  }

  /** With at least one reason: the text begins with the level's preamble,
      names the department after "Recommended Department: ", ends with the
      sentence sending the patient to that department, and shows every
      reason as "- reason". */
  lemma Layout(level: string, department: string, reasons: seq<string>)
    requires reasons != []
    ensures var text := GenerateExplanation(level, department, reasons);
      && StartsWith(text, Preamble(level))
      && Contains(text, "Recommended Department: " + department)
      && EndsWith(text, Closing(department))
      && (forall i :: 0 <= i < |reasons| ==> Contains(text, "- " + reasons[i]))
  {
    var body := Join(Bullets(reasons), "\n");
    Pieces(Preamble(level), "\n\n", "Recommended Department: ", department, "\n\n", "Key Findings:\n",
      body, "\n\n", Closing(department));
    forall i | 0 <= i < |reasons|
      ensures Contains(body, "- " + reasons[i])
    {
      JoinHasEach(Bullets(reasons), "\n", i);
    }
  }

  /** The findings block between the header and the closing lines, split at
      line breaks, is the reasons as bullets in input order (for reasons
      that are single lines). */
  lemma FindingsInOrder(level: string, department: string, reasons: seq<string>)
    requires reasons != []
    requires forall i :: 0 <= i < |reasons| ==> '\n' !in reasons[i]
    ensures var text := GenerateExplanation(level, department, reasons);
      var h := |Preamble(level) + "\n\n" + "Recommended Department: " + department + "\n\n" + "Key Findings:\n"|;
      var c := |"\n\n" + Closing(department)|;
      && h + c <= |text|
      && Split(text[h..|text| - c], '\n') == Bullets(reasons)
      && |Bullets(reasons)| == |reasons|
      && (forall i :: 0 <= i < |reasons| ==> Bullets(reasons)[i] == "- " + reasons[i])
  {
    Pieces(Preamble(level), "\n\n", "Recommended Department: ", department, "\n\n", "Key Findings:\n",
      Join(Bullets(reasons), "\n"), "\n\n", Closing(department));
    forall i | 0 <= i < |reasons|
      ensures '\n' !in Bullets(reasons)[i]
    {
      assert Bullets(reasons)[i] == "- " + reasons[i];
    }
    SplitJoin(Bullets(reasons), '\n');
  }

  /** An analysis from the rule-based classifier always has a reason and a
      known level, so its explanation is never the fixed sentence and never
      shows an undefined preamble. */
  lemma RuleAnalysisExplained(symptoms: string, v: RuleClassifier.Vitals, fmt: real -> string)
    ensures var a := RuleClassifier.Analyze(symptoms, v, fmt);
      && GenerateExplanation(a.riskLevel, a.department, a.reasoning) != NoFactors
      && Preamble(a.riskLevel) in {HighPreamble, MediumPreamble, LowPreamble}
  {
    var a := RuleClassifier.Analyze(symptoms, v, fmt);
    RuleClassifier.ReasoningNonEmpty(symptoms, v, fmt);
    NoReasonsSentence(a.riskLevel, a.department, a.reasoning);
  }
}
