# Nalan triage core in Dafny

This project models the risk-assessment core of the Nalan smart patient
triage system and proves properties of it:

- **The free-text triage engine** (`temp_app/src/lib/triage/engine.ts`). It covers:
  - the Levenshtein distance;
  - symptom extraction against the symptom lexicon;
  - two-pass autocomplete search;
  - the max-tier risk level;
  - fuzzy disease matching, ranked by score;
  - the local assessment assembled from these.

  The lexicon tables (`symptomDictionary` and `lowRiskDiseaseDictionary`) are parameters.
- **The three additive vitals scorers:**
  - `calculateRisk` of the Express server (Celsius, 70/30 tiers);
  - `analyzePatient` of the rule-based classifier (Fahrenheit, 10/5 tiers, the cold protocol);
  - `mock_predict` of the Python ML service (4/2 tiers).
- **The ML path:**
  - the mapping from an ML reply to an analysis, with the rule-based fallback;
  - the feature validator and feature ordering of the XGBoost wrapper;
  - its prediction over an abstract probability row;
  - the request-shape checks of the `/predict` and `/predict_batch` endpoints.
- **The small rules around the engine:**
  - the explanation text;
  - the medical-record upload and its keyword summary;
  - the doctor queue ordering;
  - the role/route guard;
  - `buildUrl`;
  - the triage form's comma-list parsing;
  - the patient-registry search;
  - the symptom picker;
  - the chat triage wizard.

Code that changes state step by step is modelled as methods with loops,
proved against specification functions:
- the dynamic-programming matrix;
- the forEach accumulations;
- the in-place sort of the doctor queue;
- the model wrapper's fields;
- the chat's message list and step.

Expression-style code is modelled as functions with lemmas. Shared string
operations are in `text.dfy`:
- JavaScript's `toLowerCase` on ASCII letters;
- `trim`, `includes`, `split`, `join`;
- first-occurrence `replace`;
- decimal rendering.

Sequence helpers are in `seqs.dfy`.

The network, the databases, the session store and the number formatting
are parameters:
- the ML service reply is a value;
- `getLiveAssessment` and `getAIAssessmentAction` are functions of their arguments;
- the database write is a predicate `stored`;
- `toFixed` and template-string number rendering are functions `real -> string`.

## Model

| member | source | states |
|---|---|---|
| EditDistance.Levenshtein | temp_app/src/lib/triage/engine.ts:30-49 | The matrix loop returns exactly the recursive edit distance `Distance(str1, str2)` |
| EditDistance.CellStep | temp_app/src/lib/triage/engine.ts:37-45 | One matrix cell: the diagonal on equal characters, else 1 + the least of its three neighbours |
| EditDistance.DistanceToSelf | temp_app/src/lib/triage/engine.ts:30-49 | d(s, s) = 0 |
| EditDistance.DistanceToEmpty | temp_app/src/lib/triage/engine.ts:32-33 | d(s, "") = d("", s) = \|s\| |
| EditDistance.DistanceAtMostMaxLen | temp_app/src/lib/triage/engine.ts:30-49 | d(a, b) ≤ max(\|a\|, \|b\|) |
| EditDistance.DistanceAtLeastLenDiff | temp_app/src/lib/triage/engine.ts:30-49 | d(a, b) is at least the difference of the lengths |
| EditDistance.DistanceZeroIffEqual | temp_app/src/lib/triage/engine.ts:30-49 | d(a, b) = 0 exactly when a = b |
| EditDistance.DistanceSymmetric | temp_app/src/lib/triage/engine.ts:30-49 | d(a, b) = d(b, a) |
| SymptomExtraction.ExtractSymptomsFromText | temp_app/src/lib/triage/engine.ts:51-73 | The lexicon walk with its insertion-ordered set returns `Extracted(lex, text)` |
| SymptomExtraction.AnySynonymIn | temp_app/src/lib/triage/engine.ts:63-68 | The synonym scan hits exactly when some lower-cased synonym occurs in the text |
| SymptomExtraction.ExtractedSpec | temp_app/src/lib/triage/engine.ts:51-73 | Blank text gives []. Otherwise the result has no repeats, and a name is in it iff some lexicon entry with that name has its name or a synonym in the text, ignoring case |
| SymptomExtraction.ExtractedInLexiconOrder | temp_app/src/lib/triage/engine.ts:57-72 | The extracted names keep lexicon order: a subsequence of the mentioned entries' names |
| SymptomExtraction.ExtractEmpty | temp_app/src/lib/triage/engine.ts:52 | Empty text extracts nothing |
| SymptomExtraction.SearchSymptoms | temp_app/src/lib/triage/engine.ts:75-98 | The two forEach passes return `Searched(lex, query)` |
| SymptomExtraction.NamePass | temp_app/src/lib/triage/engine.ts:81-87 | The first pass returns the name matches, with the set of names seen |
| SymptomExtraction.SynonymPass | temp_app/src/lib/triage/engine.ts:89-95 | The second pass returns the synonym matches not yet seen, and grows the seen set by their names |
| SymptomExtraction.AnySynonymOverlaps | temp_app/src/lib/triage/engine.ts:91 | `some` is true exactly when a synonym contains the query or is contained in it |
| SymptomExtraction.SearchedSpec | temp_app/src/lib/triage/engine.ts:75-98 | A blank query gives [] and no name repeats. Otherwise the result is:<br>- the name matches (either containment direction), then the synonym-only matches;<br>- each group in lexicon order;<br>- with every matching entry represented by name |
| SymptomExtraction.PassSound | temp_app/src/lib/triage/engine.ts:81-95 | A pass repeats no name and takes only entries that pass its test and were not seen before |
| SymptomExtraction.PassComplete | temp_app/src/lib/triage/engine.ts:81-95 | Every entry that passes a pass's test is represented by name afterwards |
| SymptomExtraction.FindByName | temp_app/src/lib/triage/engine.ts:102 | `find` returns the first lexicon entry whose name equals the input ignoring case: no earlier entry matches. It returns None when no entry matches |
| SymptomExtraction.DetermineRiskLevelIsMax | temp_app/src/lib/triage/engine.ts:100-109 | The level is the highest tier among the known inputs, and low when none is known |
| SymptomExtraction.DetermineRiskLevelUnknownIgnored | temp_app/src/lib/triage/engine.ts:101-104 | Empty input gives low, and an input that names no lexicon entry does not change the level |
| DiseaseMatcher.PairScoreRange | temp_app/src/lib/triage/engine.ts:124-130 | A pair scores 0 or lies in (0.6, 1] |
| DiseaseMatcher.PairScoreOneIffEqual | temp_app/src/lib/triage/engine.ts:124 | A pair scores 1 exactly when the two strings are equal |
| DiseaseMatcher.PairScoreContained | temp_app/src/lib/triage/engine.ts:125 | Containment without equality scores 0.8 |
| DiseaseMatcher.PairScoreSymmetric | temp_app/src/lib/triage/engine.ts:124-130 | The pair score does not depend on the argument order |
| DiseaseMatcher.BestMatch | temp_app/src/lib/triage/engine.ts:121-132 | The `best` loop over the user's symptoms returns `BestScore` |
| DiseaseMatcher.BestScoreSpec | temp_app/src/lib/triage/engine.ts:121-132 | `best` is 0 or in (0.6, 1]. It bounds every pair score and, when positive, is attained by one of them |
| DiseaseMatcher.ScoreSymptoms | temp_app/src/lib/triage/engine.ts:116-137 | The inner forEach returns the total and the matched symptoms of their specification functions |
| DiseaseMatcher.TotalBounds | temp_app/src/lib/triage/engine.ts:133-136 | The total lies in [0, n]. A positive total means some symptom matched |
| DiseaseMatcher.MatchedSymptomsSpec | temp_app/src/lib/triage/engine.ts:119-137 | The matched symptoms are a subsequence of the disease's list: exactly the ones with a positive best score |
| DiseaseMatcher.ScoreBounds | temp_app/src/lib/triage/engine.ts:139 | A disease's score lies in [0, 1], and a positive score means some symptom matched |
| DiseaseMatcher.CandidateSpec | temp_app/src/lib/triage/engine.ts:139-142 | A disease is kept iff its score exceeds 0.2. The entry then carries that score (in (0.2, 1]) and the matched symptoms |
| DiseaseMatcher.CandidatesMembers | temp_app/src/lib/triage/engine.ts:115-143 | An entry is a candidate iff it is the kept entry of some dictionary disease |
| DiseaseMatcher.InsertByScorePerm | temp_app/src/lib/triage/engine.ts:145 | Inserting into the ranking adds exactly that entry |
| DiseaseMatcher.InsertByScoreSorted | temp_app/src/lib/triage/engine.ts:145 | Inserting into a ranking sorted by descending score keeps it sorted |
| DiseaseMatcher.InsertByScoreStable | temp_app/src/lib/triage/engine.ts:145 | Insertion keeps the relative order of entries with equal scores |
| DiseaseMatcher.SortByScoreSpec | temp_app/src/lib/triage/engine.ts:145 | The ranking is sorted by descending score and is a permutation of its input. Entries with equal scores keep their dictionary order |
| DiseaseMatcher.MatchesSpec | temp_app/src/lib/triage/engine.ts:111-146 | No user symptoms give []. The result is sorted, a permutation of the candidates, and holds exactly the kept entries of the dictionary's diseases. Each entry's score is in (0.2, 1] |
| DiseaseMatcher.MatchDiseasesToSymptoms | temp_app/src/lib/triage/engine.ts:111-146 | The loops and the sort return `Matches(diseases, users)` |
| LocalAssessment.Lines | temp_app/src/lib/triage/engine.ts:153-157 | One row per match, in order, each the match's name, likelihood label and rounded score |
| LocalAssessment.RoundedScoreRange | temp_app/src/lib/triage/engine.ts:156 | A match score in (0.2, 1] rounds to a percentage in [20, 100] |
| LocalAssessment.ConfidenceRange | temp_app/src/lib/triage/engine.ts:168-170 | The confidence lies in [40, 80]. It is 50 (40 at high risk) with no match, and at least 56 with a match when the risk is not high |
| LocalAssessment.LocalAssessShape | temp_app/src/lib/triage/engine.ts:148-178 | The assessment:<br>- its risk is the max tier of the extracted symptoms;<br>- it lists 1 to 5 diseases, the placeholder exactly when nothing matched, and otherwise min(5, matches) rows;<br>- its guidance is the top match's, or the generic triple when there is no match |
| LocalAssessment.LocalAssessRows | temp_app/src/lib/triage/engine.ts:153-157 | Row i names the i-th match, labels it by its score, and shows a percentage in [20, 100] |
| LocalAssessment.LocalAssessConfidence | temp_app/src/lib/triage/engine.ts:168-170 | The confidence of every assessment lies in [40, 80] |
| LocalAssessment.LocalAssessBlank | temp_app/src/lib/triage/engine.ts:149-174 | Blank text gives low risk, the placeholder row, the generic guidance and confidence 50 |
| VitalsScorer.CalculateRisk | server/routes.ts:10-86 | The rule-by-rule scorer returns `Assess(patient)` |
| VitalsScorer.VitalsLogic | server/routes.ts:15-32 | The vitals section adds the weights and reasons of its fired rules |
| VitalsScorer.SymptomsLogic | server/routes.ts:34-59 | The symptom section adds the weights and reasons of its fired rules and sets the department of the last one that fired |
| VitalsScorer.SymptomRule | server/routes.ts:37-41 | One `some` rule: when some lower-cased symptom passes the test, it adds the points and the reason and overwrites the department |
| VitalsScorer.SomeSymptom | server/routes.ts:35-37 | `symptomsLower.some(test)` |
| VitalsScorer.BloodPressureExclusive | server/routes.ts:16-22 | At most one blood-pressure rule fires. The elevated rule fires exactly below the critical bounds and above 140/90 |
| VitalsScorer.RiskScoreSum | server/routes.ts:16-65 | The score is the sum of the weights of the fired rules: BP 30 or 15, HR 25, fever 20, chest pain 50, breathing 40, neurological 45, trauma 40, age 10 |
| VitalsScorer.FiredWeightAppend | server/routes.ts:16-65 | Scoring two rule lists one after the other adds their weights and concatenates their reasons |
| VitalsScorer.ReasonsMatchWeight | server/routes.ts:18-64 | Every fired rule pushes one reason, so there are no reasons exactly when the score is 0 |
| VitalsScorer.ReasonsAreRuleReasons | server/routes.ts:18-64 | Every explanation line is the reason of a rule that fired |
| VitalsScorer.ExplanationSpec | server/routes.ts:84 | The explanation is never empty. It is the routine-checkup line exactly when the score is 0 |
| VitalsScorer.DepartmentSpec | server/routes.ts:37-75 | The department:<br>- at high risk a patient left in general medicine goes to "Emergency", so high risk never stays in general medicine;<br>- otherwise the last firing symptom rule decides;<br>- with no symptom rule it stays general medicine |
| VitalsScorer.TierSpec | server/routes.ts:67-70 | High iff score ≥ 70, Medium iff 30 ≤ score < 70, Low otherwise. A higher score never gives a lower tier |
| VitalsScorer.ConfidenceSpec | server/routes.ts:78 | The confidence lies in [0.6, 0.99] and never falls as the score rises |
| VitalsScorer.MoreSymptomsNeverLower | server/routes.ts:37-59 | Reporting more symptoms never lowers the score |
| VitalsScorer.FindingsMonotone | server/routes.ts:16-65 | More symptom findings, with the same vitals and age, never score less |
| VitalsScorer.SeedChestPainPatient | server/routes.ts:173-182 | The first seeded patient scores 105: High, Pulmonology |
| RuleClassifier.AnalyzePatient | temp_app/src/lib/ai/riskClassifier.ts:86-207 | The step-by-step classifier returns `Analyze(symptoms, vitals, fmt)` |
| RuleClassifier.CriticalVitals | temp_app/src/lib/ai/riskClassifier.ts:94-117 | The critical-vitals section applies its four rules in order |
| RuleClassifier.PainCheck | temp_app/src/lib/ai/riskClassifier.ts:119-126 | The pain if/else applies its two rules |
| RuleClassifier.MedicalHistory | temp_app/src/lib/ai/riskClassifier.ts:128-148 | The history section applies its three rules to the joined, lower-cased history |
| RuleClassifier.KeywordDepartments | temp_app/src/lib/ai/riskClassifier.ts:156-169 | The keyword department checks apply in order |
| RuleClassifier.KeywordRisk | temp_app/src/lib/ai/riskClassifier.ts:172-188 | The cold protocol, then the high or medium keyword group |
| RuleClassifier.SomeKeyword | temp_app/src/lib/ai/riskClassifier.ts:174 | `keywords.some(kw => text.includes(kw))` |
| RuleClassifier.FindKeyword | temp_app/src/lib/ai/riskClassifier.ts:182 | `keywords.find(...)` returns the first keyword that occurs |
| RuleClassifier.FirstMatchSome | temp_app/src/lib/ai/riskClassifier.ts:180-187 | A match exists iff some keyword occurs. It is the first occurring keyword in list order |
| RuleClassifier.RunScore | temp_app/src/lib/ai/riskClassifier.ts:94-188 | The score after a run of rules is the start score plus the points of the fired rules, so it never falls |
| RuleClassifier.RunAppend | temp_app/src/lib/ai/riskClassifier.ts:94-188 | Running two rule lists one after the other is running their concatenation |
| RuleClassifier.VitalsDepartment | temp_app/src/lib/ai/riskClassifier.ts:95-117 | After the critical vitals:<br>- low oxygen gives Pulmonology;<br>- else an abnormal heart rate or systolic pressure gives Cardiology;<br>- fever changes no department;<br>- the score is 10 per vital rule plus 5 for fever |
| RuleClassifier.AbsentVitalsFireNothing | temp_app/src/lib/ai/riskClassifier.ts:95-123 | Absent or zero vitals and pain fire no rule |
| RuleClassifier.PainExclusive | temp_app/src/lib/ai/riskClassifier.ts:119-126 | At most one pain rule fires: severe from 8, moderate in [5, 8) |
| RuleClassifier.FillNeverOverwrites | temp_app/src/lib/ai/riskClassifier.ts:135-168 | Rules that only fill leave a specific department alone |
| RuleClassifier.HistoryAndKeywordsOnlyFill | temp_app/src/lib/ai/riskClassifier.ts:129-169 | The history and keyword department checks never change a specific department |
| RuleClassifier.ColdIsHigh | temp_app/src/lib/ai/riskClassifier.ts:173-178 | Any cold keyword makes the result HIGH in general medicine |
| RuleClassifier.KeywordGroupsExclusive | temp_app/src/lib/ai/riskClassifier.ts:180-188 | At most one keyword group contributes: the high group (10 points) whenever a high keyword occurs, the medium group (5 points) only without one. Each group's reason quotes its first matching keyword |
| RuleClassifier.TierSpec | temp_app/src/lib/ai/riskClassifier.ts:191-196 | HIGH iff score ≥ 10, MEDIUM iff 5 ≤ score < 10, LOW otherwise. Monotone in the score |
| RuleClassifier.ReasoningNonEmpty | temp_app/src/lib/ai/riskClassifier.ts:198-200 | The reasoning is never empty. It is the default sentence exactly when no rule pushed a reason |
| MLClassifier.AnalyzePatientML | temp_app/src/lib/ai/riskClassifierML.ts:23-84 | The classifier returns `AnalyzeML` of the service's reply to the request |
| MLClassifier.Reasoning | temp_app/src/lib/ai/riskClassifierML.ts:49-54 | One reasoning line per top feature, in order |
| MLClassifier.FeatureLines | temp_app/src/lib/ai/riskClassifierML.ts:50-54 | One line per feature, each that feature's line |
| MLClassifier.ReplyMapping | temp_app/src/lib/ai/riskClassifierML.ts:45-60 | A reply with a risk level maps to its upper-cased level, then one line per top feature, then exactly one provenance tag, last, which no feature line equals |
| MLClassifier.FeatureLineSpec | temp_app/src/lib/ai/riskClassifierML.ts:52 | The name part has no underscore, and the line shows the absolute impact, so negating the impact changes nothing |
| MLClassifier.LineNotTag | temp_app/src/lib/ai/riskClassifierML.ts:52-59 | A feature line is never a provenance tag |
| MLClassifier.DepartmentChain | temp_app/src/lib/ai/riskClassifierML.ts:62-72 | First match: chest/heart → Cardiology, else stroke/headache → Neurology, else fracture/bone → Orthopedics, else breath → Pulmonology, else General Medicine |
| MLClassifier.FallbackIsRuleBased | temp_app/src/lib/ai/riskClassifierML.ts:41-43 | A failed call or a non-ok status gives exactly the rule-based `analyzePatient` result |
| MLClassifier.RequestDefaults | temp_app/src/lib/ai/riskClassifierML.ts:29-36 | Age is 35. Absent or zero vitals default to 75/120/80/37/98, so no field is sent as 0 |
| FeatureModel.XGBoostModel.constructor | temp_app/ml-service/model.py:44-48 | A fresh wrapper has no model, the expected feature names, and is not loaded |
| FeatureModel.XGBoostModel.LoadModel | temp_app/ml-service/model.py:51-87 | A dictionary artifact sets the model and the feature names (defaulting to the expected ones). A bare model keeps the names. Either way the wrapper is marked loaded. Loading fails, with the re-raised explainer message, exactly when the artifact holds no model |
| FeatureModel.XGBoostModel.ValidateFeatures | temp_app/ml-service/model.py:89-146 | The early-raise validator returns `Validate(features, show)` |
| FeatureModel.XGBoostModel.Predict | temp_app/ml-service/model.py:245-297 | predict returns `PredictWith` of the wrapper's fields |
| FeatureModel.XGBoostModel.PredictBatch | temp_app/ml-service/model.py:299-329 | predict_batch returns `BatchWith` of the wrapper's fields |
| FeatureModel.CheckField | temp_app/ml-service/model.py:110-144 | One field check fails iff the value is not a number or lies outside the inclusive range, with that field's message |
| FeatureModel.ArgMaxIndex | temp_app/ml-service/model.py:270 | The scan returns the first index of the largest probability |
| FeatureModel.ArgMax | temp_app/ml-service/model.py:270 | The index holds the largest value, and every earlier value is strictly smaller |
| FeatureModel.ArgMaxUnique | temp_app/ml-service/model.py:270 | Those two properties determine the index |
| FeatureModel.MissingReportedFirst | temp_app/ml-service/model.py:103-105 | Missing names are reported before any range check: all of them, in the expected order |
| FeatureModel.ValidateOk | temp_app/ml-service/model.py:103-146 | Validation succeeds iff nothing is missing and every inclusive range holds. The result then has exactly the six expected keys, with the input values |
| FeatureModel.ValidateReportsFirstViolation | temp_app/ml-service/model.py:110-144 | Otherwise the error reports the first violated check in field order |
| FeatureModel.ChecksNames | temp_app/ml-service/model.py:26-33 | The checks cover the expected names, in order, without repeats |
| FeatureModel.PrepareOrder | temp_app/ml-service/model.py:159-160 | The prepared row lists the validated values in feature-name order |
| FeatureModel.PredictSpec | temp_app/ml-service/model.py:259-294 | Without a model it raises RuntimeError. On success the level is the argmax class's label and the confidence is its probability |
| FeatureModel.ExpectedNamesPredict | temp_app/ml-service/model.py:263-271 | With the expected names, features that validate always predict |
| FeatureModel.BatchShape | temp_app/ml-service/model.py:315-329 | A completed batch has one entry per record, in order: the prediction or the ValueError text |
| FeatureModel.BatchStops | temp_app/ml-service/model.py:317-327 | An exception other than ValueError ends the whole batch |
| FeatureModel.BatchNeverFatal | temp_app/ml-service/model.py:317-327 | A predictor that raises nothing but ValueError always completes the batch |
| FeatureModel.ExpectedNamesBatch | temp_app/ml-service/model.py:312-329 | With the expected names, a loaded model completes every batch |
| MockService.MockPredict | temp_app/ml-service/app.py:27-92 | mock_predict returns `MockSpec(features, fmt)` (None when a reading is not a number) |
| MockService.ScoreVitals | temp_app/ml-service/app.py:34-63 | The four if/elif pairs add their points and reasons |
| MockService.ApplyPair | temp_app/ml-service/app.py:37-42 | One if/elif pair adds the points and reason of its first true branch |
| MockService.TopFeatures | temp_app/ml-service/app.py:75-82 | The top features are the first ≤ 3 reasons, each named by its title, with impact 0.3 − 0.1·i |
| MockService.ChecksSpec | temp_app/ml-service/app.py:37-63 | Each pair's points by its thresholds. The score is in [0, 9], with at most four reasons |
| MockService.LevelSpec | temp_app/ml-service/app.py:65-73 | High iff score ≥ 4, Medium iff 2 ≤ score < 4, Low otherwise. The confidence is the chosen level's probability (0.6, 0.6, 0.7), and the probabilities sum to 1 |
| MockService.MockShape | temp_app/ml-service/app.py:75-92 | Always mock with empty SHAP values. Top features are the first ≤ 3 reasons, named by the text before '(' and trimmed, direction 'increase', with falling impacts |
| MockService.TopNameIsLabel | temp_app/ml-service/app.py:79 | A reason's top-feature name is its title |
| MockService.DefaultsAndDiastolic | temp_app/ml-service/app.py:29-32 | Missing readings default to a normal patient, scored Low with no reasons. The diastolic reading is never read |
| MockService.Predict | temp_app/ml-service/app.py:128-145 | /predict returns `PredictSpec` of the body, including the 500 replies for an unreadable body and for `features` that is not an object |
| MockService.PredictStatus | temp_app/ml-service/app.py:128-145 | The status is 200, 400 or 500:<br>- 400 iff the parsed body is null or has no `features`;<br>- 500 with the exception's text when get_json raises, when `features` is not an object, or when a vital is not a number;<br>- 200 exactly when the mock prediction exists, and it carries that prediction |
| MockService.CheckBatch | temp_app/ml-service/app.py:165-197 | The batch shape checks return `BatchShapeCheck`, including the 500 replies for an unreadable body and for a record that is not an object |
| MockService.FirstWithoutFeatures | temp_app/ml-service/app.py:192-196 | The loop stops at the first record that is not an object with `features`, or there is none |
| MockService.BatchShapeSpec | temp_app/ml-service/app.py:165-216 | A request is refused exactly when the body cannot be read, or the records are absent, not a list, empty or more than 100, or some record lacks `features`. The reply is 500 for an unreadable body or when the first such record is not an object, and 400 otherwise. An accepted request yields the 1 to 100 feature maps in order |
| MockService.BatchAsWrittenNeverSucceeds | temp_app/ml-service/app.py:199-216 | As written, no batch request ever gets 200. A well-shaped one gets 500 |
| MockService.BatchAsWrittenExample | temp_app/ml-service/app.py:199-216 | A one-record batch passes every shape check and still gets 500 |
| MockService.PredictBatch | temp_app/ml-service/app.py:199-211 | The corrected endpoint returns `BatchResponse` over the wrapper's fields |
| MockService.BatchCorrected | temp_app/ml-service/app.py:199-206 | With a loaded model, every well-shaped batch gets 200 and one prediction per record |
| MockService.BatchWithoutModel | temp_app/ml-service/app.py:208-211 | Without a model, a well-shaped batch gets 503, with the not-loaded message when the wrapper was never loaded |
| Explainability.NoReasonsSentence | temp_app/src/lib/ai/explainability.ts:9-11 | The text is the fixed no-factors sentence exactly when there are no reasons, whatever the level or department |
| Explainability.Layout | temp_app/src/lib/ai/explainability.ts:13-21 | With reasons, the text starts with the level's preamble, contains "Recommended Department: d", ends with the closing line naming d, and contains "- r" for every reason |
| Explainability.FindingsInOrder | temp_app/src/lib/ai/explainability.ts:19-21 | The findings block, split at line breaks, is exactly the reasons as "- r" bullets in input order |
| Explainability.RuleAnalysisExplained | temp_app/src/lib/ai/explainability.ts:9-17 | A rule-based analysis always gets a known preamble and never the no-factors sentence |
| RecordUpload.UploadSpec | temp_app/src/app/actions/upload.ts:10-67 | The upload:<br>- "Unauthorized." iff there is no session user;<br>- a validation error iff the content is missing or shorter than 10;<br>- a saved record carries the user, the content, the file name, "text/plain" and the keyword summary;<br>- a message is returned exactly when nothing was saved |
| RecordUpload.FileNameSpec | temp_app/src/app/actions/upload.ts:25 | A missing or empty file name becomes "Manual Entry", and any other is kept |
| RecordUpload.SummaryChain | temp_app/src/app/actions/upload.ts:40-49 | First match: heart/cardiac, else diabetes/sugar, else asthma/lung, else the default summary |
| RecordUpload.SummaryIgnoresCase | temp_app/src/app/actions/upload.ts:41 | Lower- or upper-casing the content does not change its summary |
| RecordUpload.SummaryFeedsHistory | temp_app/src/app/actions/upload.ts:43-49 | A cardiac, diabetic or respiratory summary, as a patient's history, fires the matching history rule of the rule-based classifier |
| DoctorQueue.CompareSpec | temp_app/src/app/doctor/page.tsx:35-41 | a sorts before b iff its rank is higher, or the ranks are equal and it is newer. Ties are exactly equal rank and time |
| DoctorQueue.CompareConsistent | temp_app/src/app/doctor/page.tsx:35-41 | The comparator is a consistent total preorder, so the sort is well defined |
| DoctorQueue.Sort | temp_app/src/app/doctor/page.tsx:35 | The in-place sort leaves the array sorted by the comparator and a permutation of the original |
| DoctorQueue.InsertLast | temp_app/src/app/doctor/page.tsx:35 | One insertion step moves the element left past the greater ones, keeping the rest in order |
| DoctorQueue.SortQueue | temp_app/src/app/doctor/page.tsx:33-41 | The queue is a permutation of the records, in queue order |
| DoctorQueue.QueueOrder | temp_app/src/app/doctor/page.tsx:33-40 | Ranks never rise along the queue, and within equal rank newer records come first |
| DoctorQueue.UnknownAfterLow | temp_app/src/app/doctor/page.tsx:36-37 | An unknown level ranks 0 and so follows every LOW record. HIGH precedes every other level |
| RouteGuard.MiddlewareSpec | temp_app/src/middleware.ts:11-21 | A redirect to "/" iff the path is in a role area the role does not own, else next() |
| RouteGuard.RawPrefix | temp_app/src/middleware.ts:11-19 | The test is a raw prefix: paths such as "/administrator" or "/doctors" are guarded too |
| RouteGuard.AreaOwner | temp_app/src/middleware.ts:11-21 | An /admin, /doctor or /patient path passes iff the role is ADMIN, DOCTOR or PATIENT respectively |
| RouteGuard.AuthorizedSpec | temp_app/src/middleware.ts:25-33 | "/" and /login and /register prefixes are authorized without a token. Every other path is authorized iff a token is present |
| RouteGuard.GuardedNeedsToken | temp_app/src/middleware.ts:28-43 | Every path the matcher guards needs a token |
| UrlBuilder.BuildUrl | shared/routes.ts:71-81 | The forEach returns `BuiltUrl(path, params)`, where each value is expanded as a `replace` replacement pattern |
| UrlBuilder.NoParams | shared/routes.ts:72-73 | Without parameters, or with an empty record, the path is returned unchanged |
| UrlBuilder.AbsentKey | shared/routes.ts:75 | A key whose placeholder is absent changes nothing |
| UrlBuilder.FirstOnly | shared/routes.ts:76 | Only the first placeholder is replaced, by the rendered value with its `$$`, `$&`, `` $` `` and `$'` pairs expanded (verbatim when it holds no '$'). A later placeholder survives, shifted |
| UrlBuilder.FillAppend | shared/routes.ts:74-78 | Entries apply in sequence, each seeing the earlier substitutions |
| UrlBuilder.SinglePlaceholder | shared/routes.ts:74-78 | A path whose only ':' before the placeholder opens the one key's placeholder gets the expanded value in its place, or the value itself when it holds no '$' |
| UrlBuilder.NumbersVerbatim | shared/routes.ts:76 | A number's rendering holds no '$', so it is never expanded |
| UrlBuilder.AmpersandPlaceholder | shared/routes.ts:76 | A value "a$&b", with no other '$', puts the placeholder itself between a and b |
| UrlBuilder.DollarExample | shared/routes.ts:76 | "/a/:id" with id "x$&y" becomes "/a/x:idy": `$&` puts the placeholder back |
| UrlBuilder.PatientExample | shared/routes.ts:71-81 | "/api/patients/:id" with id 42 becomes "/api/patients/42" |
| TriageForm.ParseListSpec | client/src/pages/Triage.tsx:51-52 | Parsed entries are non-empty, trimmed and comma-free, taken from comma segments, in segment order |
| TriageForm.EmptyText | client/src/pages/Triage.tsx:52 | An empty text parses to [] |
| TriageForm.ParseJoin | client/src/pages/Triage.tsx:51 | Non-empty, trimmed, comma-free entries joined with commas parse back to themselves |
| TriageForm.SubmitSpec | client/src/pages/Triage.tsx:22-53 | The schema rejects exactly an empty symptoms text. Every other field passes into the payload unchanged |
| TriageForm.BlankSymptoms | client/src/pages/Triage.tsx:22-51 | A one-blank symptoms text passes the schema but parses to no symptoms |
| TriageForm.TrimInside | client/src/pages/Triage.tsx:51 | Trimming adds no character |
| PatientRegistry.FilteredSpec | client/src/pages/Patients.tsx:16-19 | The filtered list is a subsequence of the list, holding exactly the patients whose id or some symptom contains the search |
| PatientRegistry.EmptySearch | client/src/pages/Patients.tsx:17 | An empty search keeps every patient, in order |
| PatientRegistry.NoSymptoms | client/src/pages/Patients.tsx:18 | A patient without symptoms is kept only through its id |
| PatientRegistry.SymptomMatchIgnoresCase | client/src/pages/Patients.tsx:18 | The symptom test ignores the case of the search text |
| PatientRegistry.SymptomKeeps | client/src/pages/Patients.tsx:18 | A symptom containing the search text, in any case, keeps its patient |
| SymptomAutocomplete.RefreshSpec | temp_app/src/components/triage/SymptomAutocomplete.tsx:17-25 | A query of ≤ 1 character hides the list. A longer one lists a prefix of at most 5 search results, shown iff the search found something |
| SymptomAutocomplete.SuggestionsFromLexicon | temp_app/src/components/triage/SymptomAutocomplete.tsx:19-20 | Fresh suggestions are lexicon entries with distinct names |
| SymptomAutocomplete.AddSymptomSpec | temp_app/src/components/triage/SymptomAutocomplete.tsx:37-43 | A present symptom leaves the list alone, and a new one is appended, so no duplicate appears. The query is cleared and the list hidden |
| SymptomAutocomplete.RemoveSymptomSpec | temp_app/src/components/triage/SymptomAutocomplete.tsx:45-47 | Every copy of the symptom is dropped, and the others keep their order |
| SymptomAutocomplete.AddThenRemove | temp_app/src/components/triage/SymptomAutocomplete.tsx:37-47 | Removing a just-added symptom restores the list |
| SymptomAutocomplete.RemoveAbsent | temp_app/src/components/triage/SymptomAutocomplete.tsx:46 | Removing an unselected symptom changes nothing |
| TriageChat.Chat.constructor | temp_app/src/app/patient/new-triage/page.tsx:25-36 | The chat opens with the welcome line, no selection, empty input, at the symptoms step |
| TriageChat.Chat.HandleInitialAssessment | temp_app/src/app/patient/new-triage/page.tsx:44-118 | With nothing to assess, nothing changes. Otherwise the input is cleared, the messages grow by the user's text and the replies, and the step follows the reply |
| TriageChat.Chat.HandleAdvancedAssessment | temp_app/src/app/patient/new-triage/page.tsx:120-178 | Blank input changes nothing. Otherwise the AI is asked with the first user text and the details, the input is cleared, the messages grow by the details and the replies, and the step follows the reply |
| TriageChat.SymptomsTextSpec | temp_app/src/app/patient/new-triage/page.tsx:47-49 | "Symptoms: a, b", plus ". Details: input" when the input is not blank. The raw input when nothing is selected |
| TriageChat.SubmittedNotBlank | temp_app/src/app/patient/new-triage/page.tsx:45-49 | Whenever the first assessment goes ahead, the text it sends is not blank |
| TriageChat.InitialOutcome | temp_app/src/app/patient/new-triage/page.tsx:62-117 | The first assessment's outcome:<br>- a throw appends only the error line and keeps the step;<br>- a reply appends its card, an alert iff the risk is "high";<br>- the step becomes details iff the risk is high, else result;<br>- every reply comes from the system |
| TriageChat.AdvancedOutcome | temp_app/src/app/patient/new-triage/page.tsx:136-177 | A throw or a non-empty error appends only the error line and keeps the step. Success appends the card and the closing line and moves to result |
| TriageChat.FirstUserKept | temp_app/src/app/patient/new-triage/page.tsx:137 | Appending messages after the first user message does not change which one it is |
| TriageChat.FirstUserAppended | temp_app/src/app/patient/new-triage/page.tsx:58 | In a chat with only system messages, the first user text is the one just appended |
| TriageChat.FollowUpAsksAboutFirstText | temp_app/src/app/patient/new-triage/page.tsx:137 | After a fresh chat's first assessment, the follow-up asks about that symptoms text |

## Left out

- **The lexicon data file** is not part of this model. The symptom and disease dictionaries are parameters.
- **Number formatting** is a parameter `fmt`/`fmtImpact`, not modelled. This covers:
  - template-string rendering of vitals;
  - `toFixed(2)`;
  - Python's f-string rendering.
- VitalsScorer.ConfidenceSpec: states the confidence before the `toFixed(2)` rounding and `parseFloat`, not the rounded value.
- MLClassifier.FeatureLineSpec: the rendering of `Math.abs(impact).toFixed(2)` is the parameter `fmtImpact` applied to the absolute value.
- **Case and whitespace:**
  - `toLowerCase`/`toUpperCase` are modelled on ASCII letters only; Unicode case mapping is not.
  - `trim` removes space, tab, line feed, carriage return, vertical tab, form feed, no-break space, byte-order mark and the line and paragraph separators; the other Unicode space separators are not modelled.
- **String lengths** count code points, while zod's `.min` counts UTF-16 code units. The two differ only for characters outside the Basic Multilingual Plane.
- **Floating point:** scores, vitals and probabilities are exact reals, with no IEEE rounding. `Math.round` is round-half-up on reals.
- **Parameter order:** `Object.entries` order in `buildUrl` is the order of the given entry list. Numbers are rendered as integers; non-integer `String(value)` is not modelled. Replacement patterns `$n` and `$<name>` stay literal, as they do for a string pattern.
- **Request bodies of the ML service:**
  - a top-level JSON body that is an array, a string or a number is not modelled; only a JSON object, a JSON null and an unreadable body are;
  - in `/predict_batch`, a record that is an array or a string is not modelled, nor is a `features` value that is not an object; the exception texts are parameters.
- **Queue time and sort algorithm:**
  - `createdAt` is an integer time stamp, so invalid dates (NaN) are not modelled.
  - `Array.prototype.sort` is modelled by an insertion sort, which is one valid order for the comparator.
  - `sort` in `matchDiseasesToSymptoms` is modelled as a stable sort, as ECMAScript requires.
- **ML service internals** are abstract:
  - the SHAP explainer, xgboost and `joblib` loading from disk are left out; `LoadModel` takes the loaded artifact as its argument, and a missing file or a `joblib` failure is not modelled;
  - a non-dictionary artifact is assumed to be a model; a pickled `None` is not modelled;
  - `predict_proba` is a function from the feature row to three probabilities;
  - the SHAP top-five list is left out, so `predict` returns no top features;
  - `save_model` and `/health` are left out.
- **Network and async calls:**
  - the ML `fetch` with its timeout is a reply value;
  - `callMLService` is left out;
  - the OpenAI-backed assessment and `getLiveAssessment` are functions of their arguments.
- **Persistence and sessions:**
  - `getServerSession` is an optional user;
  - the database write is a predicate `stored`;
  - `revalidatePath` and the final `redirect` are left out;
  - the session store and the Prisma queries of the doctor page (their `orderBy` and `take: 50`) are left out, so the sort starts from the fetched array.
- **Middleware:** withAuth's redirect to the sign-in page when `authorized` is false is left out; the callback's boolean is modelled.
- **The chat wizard:**
  - the `isLoading` flag, message ids and timestamps, translations (as message keys) and the React content of the cards are left out;
  - the card carries the assessment value.
- **The symptom picker's click-outside handler** only hides the list and is left out.
- **UI rendering**, i18n and the dashboards are left out, and so are the route handlers of the Express server other than `calculateRisk`.
- **Helper methods** restate source blocks so that each fits the verifier, and add no behaviour of their own: `ScoreSymptoms`, `InsertLast`, `ScoreVitals`, `ApplyPair`, and the section methods of `RuleClassifier`.

## Findings

| source | as written | input that shows it | evidently intended | confidence | as-written member | corrected member |
|---|---|---|---|---|---|---|
| temp_app/ml-service/app.py:199-211 | `predict_batch` calls `model.predict_batch`, but `app.py` never defines or imports `model` (imports at lines 8-11), so the NameError is caught by the outer `except` and answered with 500 | `{"records": [{"features": {}}]}`, which passes every shape check | A loaded `XGBoostModel` (temp_app/ml-service/model.py) predicts the batch: 200 with one entry per record, or 503 when no model is loaded | not executed | MockService.BatchAsWrittenNeverSucceeds | MockService.BatchCorrected |

The doctor queue, the rule-based classifier and the explanation text are modelled as written in three other places:
- The doctor queue's rank table has no MODERATE entry, so such a level ranks 0, after LOW (`DoctorQueue.UnknownAfterLow`).
- The fever rule of the rule-based classifier fills "General Medicine" with itself, which changes nothing (`RuleClassifier.VitalsDepartment`).
- The explanation's preamble for a level outside HIGH/MEDIUM/LOW renders as "undefined" (`Explainability.Preamble`).
