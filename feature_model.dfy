/** The XGBoostModel wrapper of temp_app/ml-service/model.py: feature
    validation, feature ordering, and prediction over a classifier whose
    probability vector is an input. */
module FeatureModel {
  import opened Options
  import opened Seqs
  import Text

  /** A JSON feature value: a number (Python int, float or bool) or
      anything else, including a missing key read with `get`. */
  datatype Value = Number(x: real) | NotNumber

  /** Python exceptions the wrapper raises or lets through. */
  datatype ErrorKind = ValueError | RuntimeError | KeyError

  datatype Outcome<T> = Ok(value: T) | Raise(kind: ErrorKind, message: string)

  const ExpectedFeatures: seq<string> := [
    "age", "heart_rate", "blood_pressure_systolic",
    "blood_pressure_diastolic", "temperature", "oxygen_saturation"]

  const RiskLevels: seq<string> := ["Low", "Medium", "High"]

  const NotLoaded := "Model not loaded. Call load_model() first."

  /** The message load_model raises when the artifact holds no model. */
  const LoadFailed := "Failed to load model: Cannot initialize explainer: model not loaded"

  /** One inclusive range check of validate_features and the bounds text of
      its message. */
  datatype RangeCheck = RangeCheck(name: string, lo: real, hi: real, bounds: string)

  const Checks: seq<RangeCheck> := [
    RangeCheck("age", 0.0, 120.0, "Must be between 0 and 120."),
    RangeCheck("heart_rate", 20.0, 250.0, "Must be between 20 and 250."),
    RangeCheck("blood_pressure_systolic", 50.0, 250.0, "Must be between 50 and 250."),
    RangeCheck("blood_pressure_diastolic", 30.0, 150.0, "Must be between 30 and 150."),
    RangeCheck("temperature", 30.0, 45.0, "Must be between 30 and 45 Celsius."),
    RangeCheck("oxygen_saturation", 50.0, 100.0, "Must be between 50 and 100.")]

  /** `features.get(name)` */
  function Get(features: map<string, Value>, name: string): Value {
    if name in features then features[name] else NotNumber
  }

  /** `float(value)` of a value that passed its check. */
  function Num(v: Value): real {
    if v.Number? then v.x else 0.0
  }

  predicate Passes(v: Value, c: RangeCheck) {
    v.Number? && c.lo <= v.x <= c.hi
  }

  /** The ValueError text of a failed check; `show` renders the value. */
  function InvalidMessage(c: RangeCheck, v: Value, show: Value -> string): string {
    "Invalid " + c.name + " value: " + show(v) + ". " + c.bounds
  }

  function Absent(features: map<string, Value>): string -> bool {
    name => name !in features
  }

  /** The missing names, in the expected order. */
  function Missing(features: map<string, Value>): seq<string> {
    Filter(ExpectedFeatures, Absent(features))
  }

  /** The names the checks read, in order. */
  function Names(checks: seq<RangeCheck>): (r: seq<string>)
    ensures |r| == |checks|
    ensures forall j :: 0 <= j < |checks| ==> r[j] == checks[j].name
  {
    seq(|checks|, j requires 0 <= j < |checks| => checks[j].name)
  }

  /** The range checks from the i-th on, filling `validated`. */
  function ValidateFrom(checks: seq<RangeCheck>, features: map<string, Value>, show: Value -> string, i: nat,
                        validated: map<string, real>): Outcome<map<string, real>>
    requires i <= |checks|
    decreases |checks| - i
  {
    if i == |checks| then Ok(validated)
    else
      var c := checks[i];
      if !Passes(Get(features, c.name), c) then Raise(ValueError, InvalidMessage(c, Get(features, c.name), show))
      else ValidateFrom(checks, features, show, i + 1, validated[c.name := Num(Get(features, c.name))])
  }

  /** validate_features: the missing names first, then the checks in order. */
  function Validate(features: map<string, Value>, show: Value -> string): Outcome<map<string, real>> {
    var missing := Missing(features);
    if missing != [] then Raise(ValueError, "Missing required features: " + Text.Join(missing, ", "))
    else ValidateFrom(Checks, features, show, 0, map[])
  }

  /** _prepare_features: the values in the order of `names`; a name the
      validated map lacks raises KeyError. */
  function Prepare(validated: map<string, real>, names: seq<string>): Outcome<seq<real>> {
    if names == [] then Ok([])
    else if names[0] !in validated then Raise(KeyError, "'" + names[0] + "'")
    else match Prepare(validated, names[1..])
      case Ok(rest) => Ok([validated[names[0]]] + rest)
      case Raise(k, m) => Raise(k, m)
  }

  /** predict_proba's row for the Low, Medium and High classes. */
  datatype Probabilities = Probabilities(low: real, medium: real, high: real)

  function AsSeq(p: Probabilities): seq<real> {
    [p.low, p.medium, p.high]
  }

  type Classifier = seq<real> -> Probabilities

  /** np.argmax: the first index of the largest value. */
  function ArgMax(s: seq<real>): (i: nat)
    requires |s| > 0
    ensures i < |s|
    ensures forall j :: 0 <= j < |s| ==> s[j] <= s[i]
    ensures forall j :: 0 <= j < i ==> s[j] < s[i]
  {
    if |s| == 1 then 0
    else
      var k := ArgMax(s[..|s| - 1]);
      if s[|s| - 1] > s[k] then |s| - 1 else k
  }

  datatype Prediction = Prediction(riskLevel: string, probability: Probabilities, confidence: real)

  /** The three listed properties fix the index: it is np.argmax. */
  lemma ArgMaxUnique(s: seq<real>, i: nat)
    requires |s| > 0 && i < |s|
    requires forall j :: 0 <= j < |s| ==> s[j] <= s[i]
    requires forall j :: 0 <= j < i ==> s[j] < s[i]
    ensures i == ArgMax(s)
  {
    var k := ArgMax(s);
  }

  /** predict for a model state. */
  function PredictWith(loaded: bool, model: Option<Classifier>, names: seq<string>,
                       features: map<string, Value>, show: Value -> string): Outcome<Prediction>
  {
    if !loaded || model.None? then Raise(RuntimeError, NotLoaded)
    else match Validate(features, show)
      case Raise(k, m) => Raise(k, m)
      case Ok(validated) =>
        match Prepare(validated, names)
        case Raise(k, m) => Raise(k, m)
        case Ok(row) =>
          var p := model.value(row);
          var i := ArgMax(AsSeq(p));
          Ok(Prediction(RiskLevels[i], p, AsSeq(p)[i]))
  }

  /** One batch entry: a prediction, or the text of its ValueError. */
  datatype BatchEntry = Predicted(prediction: Prediction) | Invalid(error: string)

  /** predict of a loaded model, as a function of the record. */
  function Predictor(model: Classifier, names: seq<string>, show: Value -> string)
    : map<string, Value> -> Outcome<Prediction>
  {
    features => PredictWith(true, Some(model), names, features, show)
  }

  /** The loop of predict_batch: a ValueError becomes an entry, any other
      exception ends the batch. */
  function BatchEntries(predict: map<string, Value> -> Outcome<Prediction>,
                        list: seq<map<string, Value>>): Outcome<seq<BatchEntry>>
  {
    if list == [] then Ok([])
    else match BatchEntries(predict, list[..|list| - 1])
      case Raise(k, m) => Raise(k, m)
      case Ok(entries) =>
        match predict(list[|list| - 1])
        case Ok(p) => Ok(entries + [Predicted(p)])
        case Raise(k, m) => if k == ValueError then Ok(entries + [Invalid(m)]) else Raise(k, m)
  }

  function BatchWith(loaded: bool, model: Option<Classifier>, names: seq<string>,
                     list: seq<map<string, Value>>, show: Value -> string): Outcome<seq<BatchEntry>>
  {
    if !loaded || model.None? then Raise(RuntimeError, NotLoaded)
    else BatchEntries(Predictor(model.value, names, show), list)
  }

  /** What joblib.load returns: a dictionary with optional `model` and
      `feature_names` entries, or the bare model. */
  datatype Artifact = Bundle(model: Option<Classifier>, featureNames: Option<seq<string>>)
                    | BareModel(classifier: Classifier)

  /** One check of validate_features: the error text, if any. */
  method CheckField(features: map<string, Value>, c: RangeCheck, show: Value -> string)
    returns (error: Option<string>)
    ensures error.None? <==> Passes(Get(features, c.name), c)
    ensures error.Some? ==> error.value == InvalidMessage(c, Get(features, c.name), show)
  {
    var v := if c.name in features then features[c.name] else NotNumber;
    if !v.Number? || v.x < c.lo || v.x > c.hi {
      return Some(InvalidMessage(c, v, show));
    }
    return None;
  }

  /** np.argmax over a probability row. */
  method ArgMaxIndex(s: seq<real>) returns (best: nat)
    requires |s| > 0
    ensures best == ArgMax(s)
  {
    best := 0;
    for i := 1 to |s|
      invariant best < i
      invariant forall j :: 0 <= j < i ==> s[j] <= s[best]
      invariant forall j :: 0 <= j < best ==> s[j] < s[best]
    {
      if s[i] > s[best] {
        best := i;
      }
    }
    ArgMaxUnique(s, best);
  }

  class XGBoostModel {
    var model: Option<Classifier>
    var featureNames: seq<string>
    var modelLoaded: bool

    constructor ()
      ensures model == None && featureNames == ExpectedFeatures && !modelLoaded
    {
      model := None;
      featureNames := ExpectedFeatures;
      modelLoaded := false;
    }

    /** load_model after joblib.load returned `artifact`. The wrapper counts
        as loaded even when the artifact holds no model; the explainer set-up
        then raises RuntimeError, which load_model re-raises as an Exception
        whose message is `error`. */
    method LoadModel(artifact: Artifact) returns (error: Option<string>)
      modifies this
      ensures modelLoaded
      ensures artifact.BareModel? ==> model == Some(artifact.classifier) && featureNames == old(featureNames)
      ensures artifact.Bundle? ==> model == artifact.model
      ensures artifact.Bundle? ==>
        featureNames == (if artifact.featureNames.Some? then artifact.featureNames.value else ExpectedFeatures)
      ensures error.None? <==> model.Some?
      ensures error.Some? ==> error.value == LoadFailed
    {
      match artifact {
        case Bundle(m, names) =>
          model := m;
          featureNames := if names.Some? then names.value else ExpectedFeatures;
        case BareModel(m) =>
          model := Some(m);
      }
      modelLoaded := true;
      if model.None? {
        return Some(LoadFailed);
      }
      return None;
    }

    /** validate_features */
    method ValidateFeatures(features: map<string, Value>, show: Value -> string)
      returns (r: Outcome<map<string, real>>)
      ensures r == Validate(features, show)
    {
      var missing := Filter(ExpectedFeatures, Absent(features));
      if |missing| > 0 {
        return Raise(ValueError, "Missing required features: " + Text.Join(missing, ", "));
      }
      var validated: map<string, real> := map[];
      var i := 0;
      while i < |Checks|
        invariant 0 <= i <= |Checks|
        invariant ValidateFrom(Checks, features, show, i, validated) == ValidateFrom(Checks, features, show, 0, map[])
      {
        var error := CheckField(features, Checks[i], show);
        if error.Some? {
          return Raise(ValueError, error.value);
        }
        validated := validated[Checks[i].name := Num(Get(features, Checks[i].name))];
        i := i + 1;
      }
      return Ok(validated);
    }

    /** predict */
    method Predict(features: map<string, Value>, show: Value -> string) returns (r: Outcome<Prediction>)
      ensures r == PredictWith(modelLoaded, model, featureNames, features, show)
    {
      if !modelLoaded || model.None? {
        return Raise(RuntimeError, NotLoaded);
      }
      var validated := ValidateFeatures(features, show);
      if validated.Raise? {
        return Raise(validated.kind, validated.message);
      }
      var row := Prepare(validated.value, featureNames);
      if row.Raise? {
        return Raise(row.kind, row.message);
      }
      var probabilities := model.value(row.value);
      var index := ArgMaxIndex(AsSeq(probabilities));
      return Ok(Prediction(RiskLevels[index], probabilities, AsSeq(probabilities)[index]));
    }

    /** predict_batch */
    method PredictBatch(list: seq<map<string, Value>>, show: Value -> string)
      returns (r: Outcome<seq<BatchEntry>>)
      ensures r == BatchWith(modelLoaded, model, featureNames, list, show)
    {
      if !modelLoaded || model.None? {
        return Raise(RuntimeError, NotLoaded);
      }
      ghost var predict := Predictor(model.value, featureNames, show);
      var predictions: seq<BatchEntry> := [];
      for i := 0 to |list|
        invariant BatchEntries(predict, list[..i]) == Ok(predictions)
      {
        assert list[..i + 1][..i] == list[..i];
        var prediction := Predict(list[i], show);
        if prediction.Ok? {
          predictions := predictions + [Predicted(prediction.value)];
        } else if prediction.kind == ValueError {
          predictions := predictions + [Invalid(prediction.message)];
        } else {
          BatchStops(predict, list, i + 1);
          return Raise(prediction.kind, prediction.message);
        }
      }
      assert list[..|list|] == list;
      return Ok(predictions);
    }
  }

  // ------------------------------------------------------------ properties

  /** Missing names are reported before any range check, all of them and
      in the expected order. */
  lemma MissingReportedFirst(features: map<string, Value>, show: Value -> string)
    ensures IsSubseq(Missing(features), ExpectedFeatures)
    ensures forall k :: k in Missing(features) <==> k in ExpectedFeatures && k !in features
    ensures Missing(features) != [] ==>
      Validate(features, show) == Raise(ValueError, "Missing required features: " + Text.Join(Missing(features), ", "))
  {
    FilterIsSubseq(ExpectedFeatures, Absent(features));
    forall k ensures k in Missing(features) <==> k in ExpectedFeatures && k !in features {
      FilterMembers(ExpectedFeatures, Absent(features), k);
    }
  }

  /** From the i-th check on: success means every remaining check passes
      and the map gains exactly their values. */
  lemma {:induction false} ValidateFromOk(checks: seq<RangeCheck>, features: map<string, Value>,
                                          show: Value -> string, i: nat, acc: map<string, real>)
    requires i <= |checks| && NoDup(Names(checks))
    requires ValidateFrom(checks, features, show, i, acc).Ok?
    ensures forall j :: i <= j < |checks| ==> Passes(Get(features, checks[j].name), checks[j])
    ensures forall k :: k in ValidateFrom(checks, features, show, i, acc).value <==>
      k in acc || k in Names(checks)[i..]
    ensures forall j :: i <= j < |checks| ==>
      ValidateFrom(checks, features, show, i, acc).value[checks[j].name] == Num(Get(features, checks[j].name))
    ensures forall k :: k in acc && k !in Names(checks)[i..] ==>
      ValidateFrom(checks, features, show, i, acc).value[k] == acc[k]
    decreases |checks| - i
  {
    if i < |checks| {
      var c := checks[i];
      ValidateFromOk(checks, features, show, i + 1, acc[c.name := Num(Get(features, c.name))]);
      assert Names(checks)[i..] == [c.name] + Names(checks)[i + 1..];
      forall j | i < j < |checks| ensures checks[j].name != c.name {
        assert Names(checks)[i] != Names(checks)[j];
      }
      assert c.name !in Names(checks)[i + 1..];
    }
  }

  /** From the i-th check on: a failure names the first failing check. */
  lemma {:induction false} ValidateFromFails(checks: seq<RangeCheck>, features: map<string, Value>,
                                             show: Value -> string, i: nat, acc: map<string, real>)
    requires i <= |checks|
    requires ValidateFrom(checks, features, show, i, acc).Raise?
    ensures exists j :: (i <= j < |checks| && !Passes(Get(features, checks[j].name), checks[j])
      && (forall k :: i <= k < j ==> Passes(Get(features, checks[k].name), checks[k]))
      && ValidateFrom(checks, features, show, i, acc) ==
         Raise(ValueError, InvalidMessage(checks[j], Get(features, checks[j].name), show)))
    decreases |checks| - i
  {
    var c := checks[i];
    if Passes(Get(features, c.name), c) {
      ValidateFromFails(checks, features, show, i + 1, acc[c.name := Num(Get(features, c.name))]);
    }
  }

  /** From the i-th check on: when every remaining check passes the result
      is a success. */
  lemma {:induction false} ValidateFromPasses(checks: seq<RangeCheck>, features: map<string, Value>,
                                              show: Value -> string, i: nat, acc: map<string, real>)
    requires i <= |checks|
    requires forall j :: i <= j < |checks| ==> Passes(Get(features, checks[j].name), checks[j])
    ensures ValidateFrom(checks, features, show, i, acc).Ok?
    decreases |checks| - i
  {
    if i < |checks| {
      var c := checks[i];
      ValidateFromPasses(checks, features, show, i + 1, acc[c.name := Num(Get(features, c.name))]);
    }
  }

  /** The checks read exactly the expected names, each once. */
  lemma ChecksNames()
    ensures Names(Checks) == ExpectedFeatures
    ensures NoDup(ExpectedFeatures)
  {
  }

  /** validate_features succeeds exactly when nothing is missing and every
      value is a number inside its inclusive range; the result then has
      exactly the six expected keys with the given values. */
  lemma ValidateOk(features: map<string, Value>, show: Value -> string)
    ensures Validate(features, show).Ok? <==>
      Missing(features) == [] && forall j :: 0 <= j < |Checks| ==> Passes(Get(features, Checks[j].name), Checks[j])
    ensures Validate(features, show).Ok? ==>
      (forall k :: k in Validate(features, show).value <==> k in ExpectedFeatures)
      && (forall k :: k in ExpectedFeatures ==>
            k in features && features[k].Number? && Validate(features, show).value[k] == features[k].x)
  {
    ChecksNames();
    if Missing(features) == [] {
      ValidateAllOk(Checks, features, show);
    }
  }

  /** Checks over distinct names that are all present: success exactly
      when every check passes, with exactly the checked names as keys and
      the given numbers as values. */
  lemma ValidateAllOk(checks: seq<RangeCheck>, features: map<string, Value>, show: Value -> string)
    requires NoDup(Names(checks)) && Filter(Names(checks), Absent(features)) == []
    ensures ValidateFrom(checks, features, show, 0, map[]).Ok? <==>
      forall j :: 0 <= j < |checks| ==> Passes(Get(features, checks[j].name), checks[j])
    ensures ValidateFrom(checks, features, show, 0, map[]).Ok? ==>
      (forall k :: k in ValidateFrom(checks, features, show, 0, map[]).value <==> k in Names(checks))
      && (forall k :: k in Names(checks) ==>
            k in features && features[k].Number? && ValidateFrom(checks, features, show, 0, map[]).value[k] == features[k].x)
  {
    if forall j :: 0 <= j < |checks| ==> Passes(Get(features, checks[j].name), checks[j]) {
      ValidateFromPasses(checks, features, show, 0, map[]);
    }
    if ValidateFrom(checks, features, show, 0, map[]).Ok? {
      ValidateFromOk(checks, features, show, 0, map[]);
      assert Names(checks)[0..] == Names(checks);
      forall k | k in Names(checks)
        ensures k in features && features[k].Number?
        ensures ValidateFrom(checks, features, show, 0, map[]).value[k] == features[k].x
      {
        FilterMembers(Names(checks), Absent(features), k);
        var j :| 0 <= j < |checks| && Names(checks)[j] == k;
        assert checks[j].name == k;
      }
    }
  }

  /** When every name is present the checks run in the fixed order and only
      the first violated range is reported. */
  lemma ValidateReportsFirstViolation(features: map<string, Value>, show: Value -> string)
    requires Missing(features) == []
    requires Validate(features, show).Raise?
    ensures exists j :: (0 <= j < |Checks| && !Passes(Get(features, Checks[j].name), Checks[j])
      && (forall k :: 0 <= k < j ==> Passes(Get(features, Checks[k].name), Checks[k]))
      && Validate(features, show) == Raise(ValueError, InvalidMessage(Checks[j], Get(features, Checks[j].name), show)))
  {
    ValidateFromFails(Checks, features, show, 0, map[]);
  }

  /** _prepare_features lists the values in the order of the names. */
  lemma {:induction false} PrepareOrder(validated: map<string, real>, names: seq<string>)
    requires forall i :: 0 <= i < |names| ==> names[i] in validated
    ensures Prepare(validated, names).Ok?
    ensures |Prepare(validated, names).value| == |names|
    ensures forall i :: 0 <= i < |names| ==> Prepare(validated, names).value[i] == validated[names[i]]
  {
    if names != [] {
      PrepareOrder(validated, names[1..]);
      var rest := Prepare(validated, names[1..]).value;
      forall i | 0 <= i < |names| ensures Prepare(validated, names).value[i] == validated[names[i]] {
        if i > 0 {
          assert names[1..][i - 1] == names[i];
        }
      }
    }
  }

  /** predict: the level is the first most likely class, and the confidence
      is its probability; without a model it raises RuntimeError. */
  lemma PredictSpec(loaded: bool, model: Option<Classifier>, names: seq<string>,
                    features: map<string, Value>, show: Value -> string)
    ensures (!loaded || model.None?) ==> PredictWith(loaded, model, names, features, show) == Raise(RuntimeError, NotLoaded)
    ensures PredictWith(loaded, model, names, features, show).Ok? ==>
      var r := PredictWith(loaded, model, names, features, show).value;
      var p := AsSeq(r.probability);
      exists i :: 0 <= i < 3 && r.riskLevel == RiskLevels[i] && r.confidence == p[i]
        && (forall j :: 0 <= j < 3 ==> p[j] <= p[i])
        && (forall j :: 0 <= j < i ==> p[j] < p[i])
  {
    if loaded && model.Some? && Validate(features, show).Ok? {
      var validated := Validate(features, show).value;
      if Prepare(validated, names).Ok? {
        var p := AsSeq(model.value(Prepare(validated, names).value));
        var i := ArgMax(p);
        assert 0 <= i < 3;
      }
    }
  }

  /** With the expected names, a valid record is always predicted: the
      KeyError path of _prepare_features cannot arise. */
  lemma ExpectedNamesPredict(model: Classifier, features: map<string, Value>, show: Value -> string)
    requires Validate(features, show).Ok?
    ensures PredictWith(true, Some(model), ExpectedFeatures, features, show).Ok?
  {
    ValidateOk(features, show);
    var validated := Validate(features, show).value;
    forall i | 0 <= i < |ExpectedFeatures| ensures ExpectedFeatures[i] in validated {
      assert ExpectedFeatures[i] in ExpectedFeatures;
    }
    PrepareOrder(validated, ExpectedFeatures);
  }

  /** An exception other than ValueError ends the batch: the whole batch
      raises it. */
  lemma {:induction false} BatchStops(predict: map<string, Value> -> Outcome<Prediction>,
                                      list: seq<map<string, Value>>, n: nat)
    requires n <= |list|
    requires BatchEntries(predict, list[..n]).Raise?
    ensures BatchEntries(predict, list) == BatchEntries(predict, list[..n])
    decreases |list| - n
  {
    if n < |list| {
      assert list[..n + 1][..n] == list[..n];
      BatchStops(predict, list, n + 1);
    } else {
      assert list[..n] == list;
    }
  }

  /** predict_batch keeps one entry per record, in order: the prediction,
      or the ValueError text. */
  lemma {:induction false} BatchShape(predict: map<string, Value> -> Outcome<Prediction>,
                                      list: seq<map<string, Value>>)
    requires BatchEntries(predict, list).Ok?
    ensures |BatchEntries(predict, list).value| == |list|
    ensures forall i :: 0 <= i < |list| ==>
      BatchEntries(predict, list).value[i] ==
        (if predict(list[i]).Ok? then Predicted(predict(list[i]).value) else Invalid(predict(list[i]).message))
    ensures forall i :: 0 <= i < |list| ==> predict(list[i]).Ok? || predict(list[i]).kind == ValueError
    decreases |list|
  {
    if list != [] {
      var init := list[..|list| - 1];
      BatchShape(predict, init);
      forall i | 0 <= i < |init| ensures init[i] == list[i] { }
    }
  }

  /** With the expected names no record ends a batch early. */
  lemma ExpectedNamesBatch(model: Classifier, list: seq<map<string, Value>>, show: Value -> string)
    ensures BatchEntries(Predictor(model, ExpectedFeatures, show), list).Ok?
  {
    var predict := Predictor(model, ExpectedFeatures, show);
    forall features
      ensures predict(features).Ok? || predict(features).kind == ValueError
    {
      if Validate(features, show).Ok? {
        ExpectedNamesPredict(model, features, show);
      } else if Missing(features) == [] {
        ValidateFromFails(Checks, features, show, 0, map[]);
      }
    }
    BatchNeverFatal(predict, list);
  }

  /** A predictor that raises nothing but ValueError never ends a batch
      early. */
  lemma {:induction false} BatchNeverFatal(predict: map<string, Value> -> Outcome<Prediction>,
                                           list: seq<map<string, Value>>)
    requires forall features :: predict(features).Ok? || predict(features).kind == ValueError
    ensures BatchEntries(predict, list).Ok?
    decreases |list|
  {
    if list != [] {
      BatchNeverFatal(predict, list[..|list| - 1]);
    }
  }
}
