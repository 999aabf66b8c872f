/** The Flask service of temp_app/ml-service/app.py: the vital-sign mock
    predictor and the request-shape checks of /predict and /predict_batch. */
module MockService {
  import opened Options
  import opened Text
  import FeatureModel

  type Features = map<string, FeatureModel.Value>

  /** One entry of `top_features`. */
  datatype TopFeature = TopFeature(name: string, impact: real, direction: string)

  /** The reply of mock_predict. */
  datatype MockPrediction = MockPrediction(
    riskLevel: string,
    probability: FeatureModel.Probabilities,
    confidence: real,
    shapValues: map<string, real>,
    topFeatures: seq<TopFeature>,
    reasoning: seq<string>,
    mock: bool)

  /** The four vitals mock_predict reads. */
  datatype Readings = Readings(heartRate: real, systolic: real, temperature: real, oxygen: real)

  /** `features.get(key, fallback)`, or None when the value is present but
      not a number (the comparison that follows raises TypeError). */
  function Read(features: Features, key: string, fallback: real): Option<real> {
    if key !in features then Some(fallback)
    else if features[key].Number? then Some(features[key].x)
    else None
  }

  function ReadingsOf(features: Features): Option<Readings> {
    var hr := Read(features, "heart_rate", 75.0);
    var sys := Read(features, "blood_pressure_systolic", 120.0);
    var temp := Read(features, "temperature", 37.0);
    var o2 := Read(features, "oxygen_saturation", 98.0);
    if hr.None? || sys.None? || temp.None? || o2.None? then None
    else Some(Readings(hr.value, sys.value, temp.value, o2.value))
  }

  /** One if/elif pair: its points and its reason, if any. */
  datatype Check = Check(points: nat, reasons: seq<string>)

  /** A reason text: the title, then the value and its unit in parentheses. */
  function Reason(title: string, value: string, unit: string): string {
    title + " (" + value + unit + ")"
  }

  /** An if/elif pair: the first branch, else the second, else nothing. */
  function Pair(first: bool, points1: nat, reason1: string,
                second: bool, points2: nat, reason2: string): Check {
    if first then Check(points1, [reason1])
    else if second then Check(points2, [reason2])
    else Check(0, [])
  }

  function HeartRateCheck(hr: real, fmt: real -> string): Check {
    Pair(hr > 100.0, 2, Reason("Elevated heart rate", fmt(hr), " bpm"),
         hr < 60.0, 1, Reason("Low heart rate", fmt(hr), " bpm"))
  }

  function PressureCheck(sys: real, fmt: real -> string): Check {
    Pair(sys > 140.0, 2, Reason("High blood pressure", fmt(sys), " mmHg"),
         sys < 90.0, 2, Reason("Low blood pressure", fmt(sys), " mmHg"))
  }

  function TemperatureCheck(temp: real, fmt: real -> string): Check {
    Pair(temp > 38.0, 2, Reason("Fever detected", fmt(temp), "\U{00B0}C"),
         temp > 37.5, 1, Reason("Mild fever", fmt(temp), "\U{00B0}C"))
  }

  function OxygenCheck(o2: real, fmt: real -> string): Check {
    Pair(o2 < 90.0, 3, Reason("Critical oxygen saturation", fmt(o2), "%"),
         o2 < 95.0, 2, Reason("Low oxygen saturation", fmt(o2), "%"))
  }

  function Checks(r: Readings, fmt: real -> string): seq<Check> {
    [HeartRateCheck(r.heartRate, fmt), PressureCheck(r.systolic, fmt),
     TemperatureCheck(r.temperature, fmt), OxygenCheck(r.oxygen, fmt)]
  }

  function Score(r: Readings, fmt: real -> string): nat {
    var c := Checks(r, fmt);
    c[0].points + c[1].points + c[2].points + c[3].points
  }

  function Reasons(r: Readings, fmt: real -> string): seq<string> {
    var c := Checks(r, fmt);
    c[0].reasons + c[1].reasons + c[2].reasons + c[3].reasons
  }

  /** "High" from 4 points, "Medium" from 2. */
  function Level(score: int): string {
    if score >= 4 then "High" else if score >= 2 then "Medium" else "Low"
  }

  function ProbabilitiesOf(level: string): FeatureModel.Probabilities {
    if level == "High" then FeatureModel.Probabilities(0.1, 0.3, 0.6)
    else if level == "Medium" then FeatureModel.Probabilities(0.2, 0.6, 0.2)
    else FeatureModel.Probabilities(0.7, 0.2, 0.1)
  }

  /** `probs[risk_level]` */
  function ProbabilityOf(p: FeatureModel.Probabilities, level: string): real {
    if level == "High" then p.high else if level == "Medium" then p.medium else p.low
  }

  /** The name of a top feature: the reason up to its first '(', trimmed. */
  function TopName(reason: string): string {
    Trim(Split(reason, '(')[0])
  }

  /** The names of the top features the reasons give. */
  function TopNames(reasons: seq<string>): (r: seq<string>)
    ensures |r| == |reasons|
  {
    seq(|reasons|, i requires 0 <= i < |reasons| => TopName(reasons[i]))
  }

  /** The i-th top feature: its impact falls by 0.1 from 0.3. */
  function Top(name: string, i: nat): TopFeature {
    TopFeature(name, 0.3 - (i as real) * 0.1, "increase")
  }

  /** The top features of the first n names, one per name in order. */
  function Tops(names: seq<string>, n: nat): (r: seq<TopFeature>)
    requires n <= |names|
    ensures |r| == n
    ensures forall i :: 0 <= i < n ==> r[i] == Top(names[i], i)
  {
    if n == 0 then [] else Tops(names, n - 1) + [Top(names[n - 1], n - 1)]
  }

  function Min(a: int, b: int): int {
    if a <= b then a else b
  }

  /** mock_predict; None stands for the TypeError of a non-numeric vital. */
  function MockSpec(features: Features, fmt: real -> string): Option<MockPrediction> {
    match ReadingsOf(features)
    case None => None
    case Some(r) =>
      var reasons := Reasons(r, fmt);
      var level := Level(Score(r, fmt));
      var probs := ProbabilitiesOf(level);
      Some(MockPrediction(level, probs, ProbabilityOf(probs, level), map[],
                          Tops(TopNames(reasons), Min(3, |reasons|)), reasons, true))
  }

  /** mock_predict(features); `fmt` renders a number as Python's f-string
      does. */
  method MockPredict(features: Features, fmt: real -> string) returns (r: Option<MockPrediction>)
    ensures r == MockSpec(features, fmt)
  {
    var hr := Read(features, "heart_rate", 75.0);
    var bpSys := Read(features, "blood_pressure_systolic", 120.0);
    var temp := Read(features, "temperature", 37.0);
    var o2Sat := Read(features, "oxygen_saturation", 98.0);
    if hr.None? || bpSys.None? || temp.None? || o2Sat.None? {
      return None;
    }
    var riskScore, reasons := ScoreVitals(hr.value, bpSys.value, temp.value, o2Sat.value, fmt);

    var riskLevel, probs;
    if riskScore >= 4 {
      riskLevel := "High";
      probs := FeatureModel.Probabilities(0.1, 0.3, 0.6);
    } else if riskScore >= 2 {
      riskLevel := "Medium";
      probs := FeatureModel.Probabilities(0.2, 0.6, 0.2);
    } else {
      riskLevel := "Low";
      probs := FeatureModel.Probabilities(0.7, 0.2, 0.1);
    }

    var topFeatures := TopFeatures(reasons);
    return Some(MockPrediction(riskLevel, probs, ProbabilityOf(probs, riskLevel), map[],
                               topFeatures, reasons, true));
  }

  /** The four if/elif pairs of mock_predict, in order. */
  method ScoreVitals(hr: real, bpSys: real, temp: real, o2Sat: real, fmt: real -> string)
    returns (riskScore: nat, reasons: seq<string>)
    ensures riskScore == Score(Readings(hr, bpSys, temp, o2Sat), fmt)
    ensures reasons == Reasons(Readings(hr, bpSys, temp, o2Sat), fmt)
  {
    ghost var c := Checks(Readings(hr, bpSys, temp, o2Sat), fmt);
    riskScore, reasons := 0, [];
    riskScore, reasons := ApplyPair(hr > 100.0, 2, Reason("Elevated heart rate", fmt(hr), " bpm"),
                                    hr < 60.0, 1, Reason("Low heart rate", fmt(hr), " bpm"),
                                    riskScore, reasons);
    assert reasons == c[0].reasons;
    riskScore, reasons := ApplyPair(bpSys > 140.0, 2, Reason("High blood pressure", fmt(bpSys), " mmHg"),
                                    bpSys < 90.0, 2, Reason("Low blood pressure", fmt(bpSys), " mmHg"),
                                    riskScore, reasons);
    assert reasons == c[0].reasons + c[1].reasons;
    riskScore, reasons := ApplyPair(temp > 38.0, 2, Reason("Fever detected", fmt(temp), "\U{00B0}C"),
                                    temp > 37.5, 1, Reason("Mild fever", fmt(temp), "\U{00B0}C"),
                                    riskScore, reasons);
    assert reasons == c[0].reasons + c[1].reasons + c[2].reasons;
    riskScore, reasons := ApplyPair(o2Sat < 90.0, 3, Reason("Critical oxygen saturation", fmt(o2Sat), "%"),
                                    o2Sat < 95.0, 2, Reason("Low oxygen saturation", fmt(o2Sat), "%"),
                                    riskScore, reasons);
  }

  /** One if/elif pair of mock_predict applied to the running score and
      reasons. */
  method ApplyPair(first: bool, points1: nat, reason1: string,
                   second: bool, points2: nat, reason2: string,
                   riskScore0: nat, reasons0: seq<string>) returns (riskScore: nat, reasons: seq<string>)
    ensures riskScore == riskScore0 + Pair(first, points1, reason1, second, points2, reason2).points
    ensures reasons == reasons0 + Pair(first, points1, reason1, second, points2, reason2).reasons
  {
    riskScore, reasons := riskScore0, reasons0;
    if first {
      riskScore := riskScore + points1;
      reasons := reasons + [reason1];
    } else if second {
      riskScore := riskScore + points2;
      reasons := reasons + [reason2];
    }
  }

  /** The loop over `enumerate(reasons[:3])`. */
  method TopFeatures(reasons: seq<string>) returns (topFeatures: seq<TopFeature>)
    ensures topFeatures == Tops(TopNames(reasons), Min(3, |reasons|))
  {
    topFeatures := [];
    if |reasons| > 0 {
      var first := if |reasons| <= 3 then reasons else reasons[..3];
      ghost var names := TopNames(reasons);
      for i := 0 to |first|
        invariant |first| == Min(3, |reasons|)
        invariant topFeatures == Tops(names, i)
      {
        assert first[i] == reasons[i] && names[i] == TopName(reasons[i]);
        topFeatures := topFeatures + [TopFeature(TopName(first[i]), 0.3 - (i as real) * 0.1, "increase")];
      }
    }
  }

  // ------------------------------------------------------------ endpoints

  /** What `request.get_json()` gives back: the parsed body (None for a
      JSON null), or the message of the exception it raises for a missing
      body, a body that is not JSON or a content type other than JSON. */
  datatype Body<T> = Parsed(data: Option<T>) | Unreadable(message: string)

  /** The `features` value of /predict: an object, or any other JSON value,
      on which mock_predict's `get` raises AttributeError with `message`. */
  datatype FeatureField = Object(fields: Features) | NotAnObject(message: string)

  /** A JSON object body of /predict: `features` may be absent. */
  datatype PredictRequest = PredictRequest(features: Option<FeatureField>)

  /** One entry of `records`: an object whose `features` may be absent, or
      a value (null, a number, a boolean) on which the `in` test raises
      TypeError with `message`. */
  datatype Record = Record(features: Option<Features>) | NotARecord(message: string)

  /** The record has a `features` entry. */
  predicate HasFeatures(r: Record) {
    r.Record? && r.features.Some?
  }

  /** The `records` field: an array, or some other JSON value. */
  datatype Records = NotAList | Records(items: seq<Record>)

  datatype BatchRequest = BatchRequest(records: Option<Records>)

  datatype ReplyBody =
    | Error(error: string)
    | Single(prediction: MockPrediction)
    | Batch(predictions: seq<FeatureModel.BatchEntry>, count: int)

  datatype Response = Response(status: int, body: ReplyBody)

  const NoFeatures := "Invalid request format. Expected \"features\" field."
  const NoRecords := "Invalid request format. Expected \"records\" field."

  /** The 500 reply of /predict for an exception with the given text. */
  function PredictFailed(message: string): Response {
    Response(500, Error("Prediction failed: " + message))
  }

  /** /predict. A JSON null or an object without `features` (the empty
      object included) is refused with 400; every exception raised on the
      way, by get_json, by `get` on a `features` value that is not an
      object, or the TypeError with text `typeError` that a non-numeric
      vital raises, is answered with 500. */
  function PredictSpec(body: Body<PredictRequest>, fmt: real -> string, typeError: string): Response {
    match body
    case Unreadable(message) => PredictFailed(message)
    case Parsed(data) =>
      if data.None? || data.value.features.None? then Response(400, Error(NoFeatures))
      else match data.value.features.value
        case NotAnObject(message) => PredictFailed(message)
        case Object(features) =>
          match MockSpec(features, fmt)
          case None => PredictFailed(typeError)
          case Some(p) => Response(200, Single(p))
  }

  method Predict(body: Body<PredictRequest>, fmt: real -> string, typeError: string) returns (r: Response)
    ensures r == PredictSpec(body, fmt, typeError)
  {
    if body.Unreadable? {
      return PredictFailed(body.message);
    }
    var data := body.data;
    if data.None? || data.value.features.None? {
      return Response(400, Error(NoFeatures));
    }
    var field := data.value.features.value;
    if field.NotAnObject? {
      return PredictFailed(field.message);
    }
    var prediction := MockPredict(field.fields, fmt);
    if prediction.None? {
      return PredictFailed(typeError);
    }
    return Response(200, Single(prediction.value));
  }

  /** The index of the first record without `features`, where the loop
      over the records stops. */
  function FirstWithoutFeatures(items: seq<Record>): (r: Option<nat>)
    ensures r.Some? ==> (r.value < |items| && !HasFeatures(items[r.value])
      && forall j :: 0 <= j < r.value ==> HasFeatures(items[j]))
    ensures r.None? ==> forall j :: 0 <= j < |items| ==> HasFeatures(items[j])
  {
    if items == [] then None
    else if !HasFeatures(items[0]) then Some(0)
    else match FirstWithoutFeatures(items[1..])
      case None => None
      case Some(k) => Some(k + 1)
  }

  function FeaturesOf(items: seq<Record>): (r: seq<Features>)
    requires forall j :: 0 <= j < |items| ==> HasFeatures(items[j])
    ensures |r| == |items|
    ensures forall j :: 0 <= j < |items| ==> HasFeatures(items[j]) && r[j] == items[j].features.value
  {
    seq(|items|, j requires 0 <= j < |items| => assert HasFeatures(items[j]); items[j].features.value)
  }

  /** The 500 reply of /predict_batch for an exception with the given text. */
  function BatchFailed(message: string): Response {
    Response(500, Error("Batch prediction failed: " + message))
  }

  /** The reply for the first record without `features`: 400 naming its
      index, or 500 when the record is not an object and the test raises. */
  function MissingFeatures(r: Record, i: nat): Response {
    if r.NotARecord? then BatchFailed(r.message)
    else Response(400, Error("Missing \"features\" field in record at index " + IntToString(i)))
  }

  /** The checks of /predict_batch before any prediction, in their order:
      the feature lists on success, the 400 or 500 reply otherwise. */
  function BatchShapeCheck(body: Body<BatchRequest>): Result<seq<Features>, Response> {
    match body
    case Unreadable(message) => Failure(BatchFailed(message))
    case Parsed(data) =>
      if data.None? || data.value.records.None? then Failure(Response(400, Error(NoRecords)))
      else match data.value.records.value
        case NotAList => Failure(Response(400, Error("\"records\" must be an array")))
        case Records(items) =>
          if |items| == 0 then Failure(Response(400, Error("At least one record is required")))
          else if |items| > 100 then Failure(Response(400, Error("Batch size cannot exceed 100 records")))
          else match FirstWithoutFeatures(items)
            case Some(i) => Failure(MissingFeatures(items[i], i))
            case None => Success(FeaturesOf(items))
  }

  /** The records of a body whose `records` field is a list. */
  function ItemsOf(body: Body<BatchRequest>): seq<Record> {
    if body.Parsed? && body.data.Some? && body.data.value.records.Some? && body.data.value.records.value.Records?
    then body.data.value.records.value.items
    else []
  }

  datatype Result<T, E> = Success(value: T) | Failure(error: E)

  /** The shape checks as the endpoint runs them. */
  method CheckBatch(body: Body<BatchRequest>) returns (r: Result<seq<Features>, Response>)
    ensures r == BatchShapeCheck(body)
  {
    if body.Unreadable? {
      return Failure(BatchFailed(body.message));
    }
    var data := body.data;
    if data.None? || data.value.records.None? {
      return Failure(Response(400, Error(NoRecords)));
    }
    var records := data.value.records.value;
    if records.NotAList? {
      return Failure(Response(400, Error("\"records\" must be an array")));
    }
    if |records.items| == 0 {
      return Failure(Response(400, Error("At least one record is required")));
    }
    if |records.items| > 100 {
      return Failure(Response(400, Error("Batch size cannot exceed 100 records")));
    }
    var featuresList: seq<Features> := [];
    for i := 0 to |records.items|
      invariant forall j :: 0 <= j < i ==> HasFeatures(records.items[j])
      invariant featuresList == FeaturesOf(records.items[..i])
    {
      var record := records.items[i];
      if record.NotARecord? {
        FirstWithoutFeaturesAt(records.items, i);
        return Failure(BatchFailed(record.message));
      }
      if record.features.None? {
        FirstWithoutFeaturesAt(records.items, i);
        return Failure(Response(400, Error("Missing \"features\" field in record at index " + IntToString(i))));
      }
      featuresList := featuresList + [record.features.value];
    }
    assert records.items[..|records.items|] == records.items;
    return Success(featuresList);
  }

  /** The NameError text of the unbound `model` global. */
  const UnboundModel := "name 'model' is not defined"

  /** /predict_batch as written: `model` is never bound in the service, so
      every request that passes the shape checks fails with 500. */
  function BatchAsWritten(body: Body<BatchRequest>): Response {
    match BatchShapeCheck(body)
    case Failure(reply) => reply
    case Success(_) => BatchFailed(UnboundModel)
  }

  /** /predict_batch with `model` bound to a wrapper in the given state:
      RuntimeError is 503, any other exception 500. */
  function BatchResponse(body: Body<BatchRequest>, loaded: bool, model: Option<FeatureModel.Classifier>,
                         names: seq<string>, show: FeatureModel.Value -> string): Response
  {
    match BatchShapeCheck(body)
    case Failure(reply) => reply
    case Success(list) =>
      match FeatureModel.BatchWith(loaded, model, names, list, show)
      case Ok(predictions) => Response(200, Batch(predictions, |predictions|))
      case Raise(kind, message) =>
        if kind == FeatureModel.RuntimeError then Response(503, Error("Model not available: " + message))
        else BatchFailed(message)
  }

  method PredictBatch(body: Body<BatchRequest>, model: FeatureModel.XGBoostModel,
                      show: FeatureModel.Value -> string) returns (r: Response)
    ensures r == BatchResponse(body, model.modelLoaded, model.model, model.featureNames, show)
  {
    var checked := CheckBatch(body);
    if checked.Failure? {
      return checked.error;
    }
    var predictions := model.PredictBatch(checked.value, show);
    if predictions.Ok? {
      return Response(200, Batch(predictions.value, |predictions.value|));
    }
    if predictions.kind == FeatureModel.RuntimeError {
      return Response(503, Error("Model not available: " + predictions.message));
    }
    return BatchFailed(predictions.message);
  }

  // ------------------------------------------------------------ properties

  lemma {:induction false} FirstWithoutFeaturesAt(items: seq<Record>, i: nat)
    requires i < |items| && !HasFeatures(items[i])
    requires forall j :: 0 <= j < i ==> HasFeatures(items[j])
    ensures FirstWithoutFeatures(items) == Some(i)
  {
    if i > 0 {
      FirstWithoutFeaturesAt(items[1..], i - 1);
    }
  }

  /** The four checks: each pair's branches, in rule order, give at most
      one reason, and the score lies in 0..9. */
  lemma ChecksSpec(r: Readings, fmt: real -> string)
    ensures HeartRateCheck(r.heartRate, fmt).points == (if r.heartRate > 100.0 then 2 else if r.heartRate < 60.0 then 1 else 0)
    ensures PressureCheck(r.systolic, fmt).points == (if r.systolic > 140.0 || r.systolic < 90.0 then 2 else 0)
    ensures TemperatureCheck(r.temperature, fmt).points ==
      (if r.temperature > 38.0 then 2 else if r.temperature > 37.5 then 1 else 0)
    ensures OxygenCheck(r.oxygen, fmt).points == (if r.oxygen < 90.0 then 3 else if r.oxygen < 95.0 then 2 else 0)
    ensures forall i :: 0 <= i < 4 ==>
      |Checks(r, fmt)[i].reasons| == (if Checks(r, fmt)[i].points > 0 then 1 else 0)
    ensures 0 <= Score(r, fmt) <= 9
    ensures |Reasons(r, fmt)| <= 4
  {
  }

  /** The level's thresholds, and the confidence is the chosen level's
      probability: 0.6, 0.6 or 0.7. */
  lemma LevelSpec(features: Features, fmt: real -> string)
    requires MockSpec(features, fmt).Some?
    ensures var p := MockSpec(features, fmt).value;
      var s := Score(ReadingsOf(features).value, fmt);
      && (p.riskLevel == "High" <==> s >= 4)
      && (p.riskLevel == "Medium" <==> 2 <= s < 4)
      && (p.riskLevel == "Low" <==> s < 2)
      && p.confidence == (if s >= 2 then 0.6 else 0.7)
      && p.confidence == ProbabilityOf(p.probability, p.riskLevel)
      && p.probability.low + p.probability.medium + p.probability.high == 1.0
  {
  }

  /** The reply is always a mock one without SHAP values; the top features
      are the first (at most three) reasons, named by the text before the
      first '(' and with falling impacts. */
  lemma MockShape(features: Features, fmt: real -> string)
    requires MockSpec(features, fmt).Some?
    ensures var p := MockSpec(features, fmt).value;
      && p.mock && p.shapValues == map[]
      && |p.topFeatures| == Min(3, |p.reasoning|)
      && forall i :: 0 <= i < |p.topFeatures| ==>
           p.topFeatures[i].name == TopName(p.reasoning[i])
           && p.topFeatures[i].direction == "increase"
           && p.topFeatures[i].impact == 0.3 - (i as real) * 0.1
  {
  }

  /** The name of a top feature is the reason's title. */
  lemma TopNameIsLabel(title: string, value: string, unit: string)
    requires title != [] && !IsSpace(title[0]) && !IsSpace(title[|title| - 1]) && '(' !in title
    ensures TopName(Reason(title, value, unit)) == title
  {
    assert Reason(title, value, unit) == (title + " ") + ['('] + (value + unit + ")");
    SplitHead(title + " ", '(', value + unit + ")");
    TrimOneSpace(title);
  }

  /** Missing vitals take the defaults 75, 120, 37 and 98, which fire no
      rule; the diastolic pressure is never read. */
  lemma DefaultsAndDiastolic(features: Features, fmt: real -> string, v: FeatureModel.Value)
    ensures MockSpec(map[], fmt).Some?
    ensures MockSpec(map[], fmt).value.riskLevel == "Low" && MockSpec(map[], fmt).value.reasoning == []
    ensures MockSpec(features["blood_pressure_diastolic" := v], fmt) == MockSpec(features, fmt)
  {
    var f := features["blood_pressure_diastolic" := v];
    assert Read(f, "heart_rate", 75.0) == Read(features, "heart_rate", 75.0);
    assert Read(f, "blood_pressure_systolic", 120.0) == Read(features, "blood_pressure_systolic", 120.0);
    assert Read(f, "temperature", 37.0) == Read(features, "temperature", 37.0);
    assert Read(f, "oxygen_saturation", 98.0) == Read(features, "oxygen_saturation", 98.0);
  }

  /** /predict answers 400 exactly when the parsed body has no
      `features`, 500 with the exception's text when reading the body,
      reading `features` or comparing a vital raises, and 200 with the mock
      prediction otherwise. */
  lemma PredictStatus(body: Body<PredictRequest>, fmt: real -> string, typeError: string)
    ensures var r := PredictSpec(body, fmt, typeError);
      && r.status in {200, 400, 500}
      && (r.status == 400 <==> body.Parsed? && (body.data.None? || body.data.value.features.None?))
      && (body.Unreadable? ==> r == PredictFailed(body.message))
      && (body.Parsed? && body.data.Some? && body.data.value.features.Some? ==>
            match body.data.value.features.value
            case NotAnObject(m) => r == PredictFailed(m)
            case Object(f) =>
              && (r.status == 200 <==> MockSpec(f, fmt).Some?)
              && (r.status == 200 ==> r.body == Single(MockSpec(f, fmt).value))
              && (r.status != 200 ==> r == PredictFailed(typeError)))
  {
  }

  /** /predict_batch refuses a request exactly when the body cannot be
      read, the records are absent, not a list, empty or more than 100, or
      some record lacks `features`: 500 for an unreadable body or when the
      first record without `features` is not an object, 400 otherwise,
      naming that record's index. An accepted request yields the 1 to 100
      feature maps in order. */
  lemma BatchShapeSpec(body: Body<BatchRequest>)
    ensures BatchShapeCheck(body).Failure? <==>
      body.Unreadable? || body.data.None? || body.data.value.records.None?
      || body.data.value.records.value.NotAList?
      || |ItemsOf(body)| == 0 || |ItemsOf(body)| > 100
      || exists i :: 0 <= i < |ItemsOf(body)| && !HasFeatures(ItemsOf(body)[i])
    ensures BatchShapeCheck(body).Failure? ==>
      (BatchShapeCheck(body).error.status == 500 <==>
        body.Unreadable? || (1 <= |ItemsOf(body)| <= 100 &&
          exists i :: 0 <= i < |ItemsOf(body)| && ItemsOf(body)[i].NotARecord?
                      && forall j :: 0 <= j < i ==> HasFeatures(ItemsOf(body)[j])))
    ensures BatchShapeCheck(body).Failure? ==> BatchShapeCheck(body).error.status in {400, 500}
    ensures BatchShapeCheck(body).Success? ==>
      1 <= |ItemsOf(body)| <= 100 && BatchShapeCheck(body).value == FeaturesOf(ItemsOf(body))
  {
    if body.Parsed? && body.data.Some? && body.data.value.records.Some? && body.data.value.records.value.Records? {
      var items := ItemsOf(body);
      if exists i :: 0 <= i < |items| && !HasFeatures(items[i]) {
        assert FirstWithoutFeatures(items).Some?;
      }
      if 1 <= |items| <= 100 && exists i :: 0 <= i < |items| && items[i].NotARecord?
                                   && forall j :: 0 <= j < i ==> HasFeatures(items[j]) {
        var i :| 0 <= i < |items| && items[i].NotARecord? && forall j :: 0 <= j < i ==> HasFeatures(items[j]);
        FirstWithoutFeaturesAt(items, i);
      }
    }
  }

  /** As written, no batch ever succeeds: a request that passes every
      shape check still gets 500. */
  lemma BatchAsWrittenNeverSucceeds(body: Body<BatchRequest>)
    ensures BatchAsWritten(body).status != 200
    ensures BatchShapeCheck(body).Success? ==> BatchAsWritten(body) == BatchFailed(UnboundModel)
  {
  }

  /** A one-record batch that the shape checks accept. */
  lemma BatchAsWrittenExample(features: Features)
    ensures var body := Parsed(Some(BatchRequest(Some(Records([Record(Some(features))])))));
      BatchShapeCheck(body) == Success([features])
      && BatchAsWritten(body).status == 500
  {
    var items := [Record(Some(features))];
    assert FirstWithoutFeatures(items[1..]) == None;
    assert FeaturesOf(items) == [features];
  }

  /** With a loaded model over the expected feature names, every batch that
      passes the shape checks gets 200 and one entry per record. */
  lemma BatchCorrected(body: Body<BatchRequest>, model: FeatureModel.Classifier,
                       show: FeatureModel.Value -> string)
    requires BatchShapeCheck(body).Success?
    ensures BatchResponse(body, true, Some(model), FeatureModel.ExpectedFeatures, show).status == 200
    ensures BatchResponse(body, true, Some(model), FeatureModel.ExpectedFeatures, show).body.count
      == |ItemsOf(body)|
  {
    var list := BatchShapeCheck(body).value;
    FeatureModel.ExpectedNamesBatch(model, list, show);
    FeatureModel.BatchShape(FeatureModel.Predictor(model, FeatureModel.ExpectedFeatures, show), list);
  }

  /** Without a loaded model the corrected endpoint answers 503. */
  lemma BatchWithoutModel(body: Body<BatchRequest>, loaded: bool, names: seq<string>,
                          show: FeatureModel.Value -> string)
    requires BatchShapeCheck(body).Success?
    ensures BatchResponse(body, loaded, None, names, show).status == 503
    ensures BatchResponse(body, false, None, names, show) ==
      Response(503, Error("Model not available: " + FeatureModel.NotLoaded))
  {
  }
}
