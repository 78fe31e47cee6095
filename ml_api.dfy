/** The prediction endpoints of the Flask service: which features a
    request lacks, the feature vector handed to the trained model, and the
    label the model's answer maps to. The trained models are foreign and
    enter as function parameters. */
module MlApi {
  import opened TextUtil

  /** A JSON value: the request body or one of its values. */
  datatype Json = JNum(n: real) | JBool(b: bool) | JText(s: string) | JNull
                | JArray(items: seq<Json>) | JObject(fields: map<string, Json>)

  /** A response: a prediction with its label and, for Parkinson's, its
      numeric value, or an HTTP error status with its message. */
  datatype Response = Prediction(prediction: string, predictionValue: Option<int>) | Failure(status: nat, message: string)

  const DiabetesFeatures: seq<string> := [
    "Pregnancies", "Glucose", "BloodPressure", "SkinThickness",
    "Insulin", "BMI", "DiabetesPedigreeFunction", "Age"
  ]

  const HeartFeatures: seq<string> := [
    "age", "sex", "cp", "trestbps", "chol",
    "fbs", "restecg", "thalach", "exang",
    "oldpeak", "slope", "ca", "thal"
  ]

  const ParkinsonsFeatures: seq<string> := ["fo", "fhi", "flo", "jitter_percent", "shimmer", "nhr", "hnr"]

  // ---------------------------------------------------------------------
  // Missing and provided features
  // ---------------------------------------------------------------------

  /** The bodies Python's `in` accepts: objects, lists and strings. On null,
      numbers and booleans `f in data` raises TypeError. */
  predicate Iterable(data: Json) {
    data.JObject? || data.JArray? || data.JText?
  }

  /** Python's `f in data` on an iterable body: a key of an object, an
      element of a list (only a string equal to f), a substring of a
      string. */
  predicate Has(data: Json, f: string) {
    match data
    case JObject(m) => f in m
    case JArray(items) => JText(f) in items
    case JText(t) => Contains(t, f)
    case _ => false
  }

  /** `[f for f in expected if f not in data]`. */
  function Missing(expected: seq<string>, data: Json): seq<string> {
    if expected == [] then []
    else
      var f := expected[|expected| - 1];
      Missing(expected[..|expected| - 1], data) + (if !Has(data, f) then [f] else [])
  }

  /** `[f for f in expected if f in data]`. */
  function Provided(expected: seq<string>, data: Json): seq<string> {
    if expected == [] then []
    else
      var f := expected[|expected| - 1];
      Provided(expected[..|expected| - 1], data) + (if Has(data, f) then [f] else [])
  }

  /** Missing lists exactly the expected features the request lacks. */
  lemma {:induction false} MissingMembers(expected: seq<string>, data: Json)
    ensures forall f :: f in Missing(expected, data) <==> f in expected && !Has(data, f)
  {
    if expected != [] {
      var init := expected[..|expected| - 1];
      MissingMembers(init, data);
      assert expected == init + [expected[|expected| - 1]];
    }
  }

  /** Missing keeps the expected order: it distributes over concatenation. */
  lemma {:induction false} MissingAppend(a: seq<string>, b: seq<string>, data: Json)
    ensures Missing(a + b, data) == Missing(a, data) + Missing(b, data)
    decreases |b|
  {
    if b == [] {
      assert a + b == a;
    } else {
      var init := b[..|b| - 1];
      assert (a + b)[..|a + b| - 1] == a + init;
      MissingAppend(a, init, data);
    }
  }

  /** Provided lists exactly the expected features the request has. */
  lemma {:induction false} ProvidedMembers(expected: seq<string>, data: Json)
    ensures forall f :: f in Provided(expected, data) <==> f in expected && Has(data, f)
  {
    if expected != [] {
      var init := expected[..|expected| - 1];
      ProvidedMembers(init, data);
      assert expected == init + [expected[|expected| - 1]];
    }
  }

  // ---------------------------------------------------------------------
  // Diabetes and heart disease
  // ---------------------------------------------------------------------

  /** Missing lists every expected feature when the body has none of them. */
  lemma {:induction false} MissingAll(expected: seq<string>, data: Json)
    requires forall f :: f in expected ==> !Has(data, f)
    ensures Missing(expected, data) == expected
  {
    if expected != [] {
      MissingAll(expected[..|expected| - 1], data);
      assert expected[..|expected| - 1] + [expected[|expected| - 1]] == expected;
    }
  }

  /** `[data[f] for f in expected]` on an object, defined when nothing is
      missing. */
  function FeatureVector(expected: seq<string>, data: map<string, Json>): (v: seq<Json>)
    requires forall f :: f in expected ==> f in data
  {
    seq(|expected|, i requires 0 <= i < |expected| => data[expected[i]])
  }

  /** Python's `repr` of a list of identifiers. */
  function ListRepr(xs: seq<string>): string {
    "[" + Join(seq(|xs|, i requires 0 <= i < |xs| => "'" + xs[i] + "'"), ", ") + "]"
  }

  function MissingMessage(missing: seq<string>): string {
    "Missing features: " + ListRepr(missing)
  }

  /** `pos if prediction[0] == 1 else neg`. */
  function Label(prediction: int, pos: string, neg: string): string {
    if prediction == 1 then pos else neg
  }

  /** The body shared by the diabetes and heart handlers, whose feature
      lists are never empty. On a body that is not iterable `f not in data`
      raises TypeError, and on a list or a string with nothing missing
      `data[f]` does; the outer handler turns either into a 500, whose
      message is not modelled. Missing features give 400, and otherwise the
      model's answer is labelled. */
  function PredictWith(body: Json, expected: seq<string>,
                       predict: seq<Json> -> int, pos: string, neg: string): Response
    requires expected != []
  {
    if !Iterable(body) then Failure(500, "")
    else
      var missing := Missing(expected, body);
      if missing != [] then Failure(400, MissingMessage(missing))
      else if !body.JObject? then Failure(500, "")
      else
        MissingMembers(expected, body);
        Prediction(Label(predict(FeatureVector(expected, body.fields)), pos, neg), None)
  }

  function PredictDiabetes(body: Json, predict: seq<Json> -> int): Response {
    PredictWith(body, DiabetesFeatures, predict, "Diabetic", "Not Diabetic")
  }

  function PredictHeart(body: Json, predict: seq<Json> -> int): Response {
    PredictWith(body, HeartFeatures, predict, "Heart Disease", "No Heart Disease")
  }

  /** A body `null`, a number or a boolean is a 500. Any other body is
      refused with 400 exactly when a feature is missing from it, and then
      the model plays no part. A list or a string holding every feature is
      a 500. On an object holding every feature the model sees its values
      in the expected order, and the answer 1, and only 1, gets the
      positive label. */
  lemma PredictWithProps(body: Json, expected: seq<string>,
                         predict: seq<Json> -> int, pos: string, neg: string)
    requires expected != [] && pos != neg
    ensures var r := PredictWith(body, expected, predict, pos, neg);
      && (!Iterable(body) ==> r == Failure(500, ""))
      && (Iterable(body) ==> (r.Failure? && r.status == 400 <==> Missing(expected, body) != []))
      && (Iterable(body) && Missing(expected, body) != [] ==> r == Failure(400, MissingMessage(Missing(expected, body))))
      && (Iterable(body) && !body.JObject? && Missing(expected, body) == [] ==> r == Failure(500, ""))
      && (r.Failure? ==> forall q :: PredictWith(body, expected, q, pos, neg) == r)
      && (r.Prediction? <==> body.JObject? && Missing(expected, body) == [])
    ensures body.JObject? && Missing(expected, body) == [] ==>
      (forall f :: f in expected ==> f in body.fields) &&
      var v := FeatureVector(expected, body.fields);
      && |v| == |expected|
      && (forall i :: 0 <= i < |v| ==> v[i] == body.fields[expected[i]])
      && PredictWith(body, expected, predict, pos, neg) == Prediction(Label(predict(v), pos, neg), None)
      && (Label(predict(v), pos, neg) == pos <==> predict(v) == 1)
  {
    MissingMembers(expected, body);
  }

  /** An empty list as the body lacks every feature, so both handlers
      answer 400 listing all of them. */
  lemma EmptyListMissesAll(predict: seq<Json> -> int)
    ensures PredictDiabetes(JArray([]), predict) == Failure(400, MissingMessage(DiabetesFeatures))
    ensures PredictHeart(JArray([]), predict) == Failure(400, MissingMessage(HeartFeatures))
  {
    MissingAll(DiabetesFeatures, JArray([]));
    MissingAll(HeartFeatures, JArray([]));
  }

  /** The diabetes model always sees eight values and the heart model
      thirteen. */
  lemma VectorLengths(data: map<string, Json>)
    ensures Missing(DiabetesFeatures, JObject(data)) == [] ==>
      (MissingMembers(DiabetesFeatures, JObject(data)); |FeatureVector(DiabetesFeatures, data)| == 8)
    ensures Missing(HeartFeatures, JObject(data)) == [] ==>
      (MissingMembers(HeartFeatures, JObject(data)); |FeatureVector(HeartFeatures, data)| == 13)
  {
  }

  // ---------------------------------------------------------------------
  // Parkinson's
  // ---------------------------------------------------------------------

  /** The outcome of Python's `float` on one value. */
  datatype FloatResult = Value(x: real) | ValueError | TypeError

  /** `float(v)`: numbers and booleans convert, text converts when the
      parser given for Python's float syntax accepts it and raises
      ValueError otherwise, and null, lists and objects raise TypeError. */
  function ToFloat(v: Json, parseFloat: string -> Option<real>): FloatResult {
    match v
    case JNum(n) => Value(n)
    case JBool(b) => Value(if b then 1.0 else 0.0)
    case JText(s) => if parseFloat(s).Some? then Value(parseFloat(s).value) else ValueError
    case JNull => TypeError
    case JArray(_) => TypeError
    case JObject(_) => TypeError
  }

  /** The comprehension `[float(v) for v in vs]`: all the values, or the
      first exception raised. */
  function FloatAll(vs: seq<Json>, parseFloat: string -> Option<real>): (r: Result)
    ensures r.Converted? ==> |r.values| == |vs|
  {
    if vs == [] then Converted([])
    else
      match ToFloat(vs[0], parseFloat)
      case Value(x) =>
        (match FloatAll(vs[1..], parseFloat)
         case Converted(xs) => Converted([x] + xs)
         case Raised(e) => Raised(e))
      case e => Raised(e)
  }

  datatype Result = Converted(values: seq<real>) | Raised(error: FloatResult)

  /** FloatAll converts every value in place, or raises the exception of
      the first value that does not convert. */
  lemma {:induction false} FloatAllProps(vs: seq<Json>, parseFloat: string -> Option<real>)
    ensures FloatAll(vs, parseFloat).Converted? <==> forall i :: 0 <= i < |vs| ==> ToFloat(vs[i], parseFloat).Value?
    ensures FloatAll(vs, parseFloat).Converted? ==>
      forall i :: 0 <= i < |vs| ==> FloatAll(vs, parseFloat).values[i] == ToFloat(vs[i], parseFloat).x
    ensures FloatAll(vs, parseFloat).Raised? ==> exists i :: (0 <= i < |vs| &&
      (forall k :: 0 <= k < i ==> ToFloat(vs[k], parseFloat).Value?) &&
      FloatAll(vs, parseFloat).error == ToFloat(vs[i], parseFloat))
  {
    if vs != [] {
      FloatAllProps(vs[1..], parseFloat);
      if ToFloat(vs[0], parseFloat).Value? && FloatAll(vs[1..], parseFloat).Raised? {
        var i :| 0 <= i < |vs[1..]| &&
          (forall k :: 0 <= k < i ==> ToFloat(vs[1..][k], parseFloat).Value?) &&
          FloatAll(vs[1..], parseFloat).error == ToFloat(vs[1..][i], parseFloat);
        assert forall k :: 0 <= k < i + 1 ==> ToFloat(vs[k], parseFloat).Value? by {
          forall k | 0 <= k < i + 1 ensures ToFloat(vs[k], parseFloat).Value? {
            if k > 0 { assert vs[k] == vs[1..][k - 1]; }
          }
        }
        assert vs[i + 1] == vs[1..][i];
      } else if ToFloat(vs[0], parseFloat).Value? {
        forall i | 0 <= i < |vs| ensures ToFloat(vs[i], parseFloat).Value? {
          if i > 0 { assert vs[i] == vs[1..][i - 1]; }
        }
      }
    }
  }

  /** `data.get(f, 0)`. */
  function GetOrZero(data: map<string, Json>, f: string): Json {
    if f in data then data[f] else JNum(0.0)
  }

  /** `[data.get(f, 0) for f in expected]` on an object, before conversion. */
  function RawVector(expected: seq<string>, data: map<string, Json>): (v: seq<Json>)
  {
    seq(|expected|, i requires 0 <= i < |expected| => GetOrZero(data, expected[i]))
  }

  function NoFeaturesMessage(): string {
    "No valid features provided. Expected: " + Join(ParkinsonsFeatures, ", ")
  }

  const ModelErrorPrefix := "Model prediction error: "

  /** predict_parkinsons: a body that is not iterable fails with 500 at the
      membership test; at least one feature must be present; a list or a
      string has no `get`, and that AttributeError is the inner handler's
      500. On an object absent features count as 0, a value that does not
      convert is a 400 (ValueError) or a 500 (any other exception), and a
      prediction carries its label and its integer value. */
  function PredictParkinsons(body: Json, predict: seq<real> -> int,
                             parseFloat: string -> Option<real>): Response
  {
    if !Iterable(body) then Failure(500, "")
    else if Provided(ParkinsonsFeatures, body) == [] then Failure(400, NoFeaturesMessage())
    else if !body.JObject? then Failure(500, ModelErrorPrefix)
    else
      match FloatAll(RawVector(ParkinsonsFeatures, body.fields), parseFloat)
      case Raised(ValueError) => Failure(400, "Invalid feature values: ")
      case Raised(_) => Failure(500, ModelErrorPrefix)
      case Converted(xs) =>
        var p := predict(xs);
        Prediction(Label(p, "Parkinsons", "No Parkinsons"), Some(p))
  }

  /** A body `null`, a number or a boolean is a 500. For any other body the
      400 for no features comes exactly when none of the seven is in it,
      and a list or a string holding one is a 500. On an object the model
      sees a seven-slot vector holding each sent value in its slot and 0
      elsewhere, and the response carries both the label and the number. */
  lemma ParkinsonsProps(body: Json, predict: seq<real> -> int, parseFloat: string -> Option<real>)
    ensures var r := PredictParkinsons(body, predict, parseFloat);
      && (!Iterable(body) ==> r == Failure(500, ""))
      && (Iterable(body) ==>
            (r == Failure(400, NoFeaturesMessage()) <==> forall f :: f in ParkinsonsFeatures ==> !Has(body, f)))
      && (Iterable(body) && !body.JObject? && (exists f :: f in ParkinsonsFeatures && Has(body, f)) ==>
            r == Failure(500, ModelErrorPrefix))
    ensures body.JObject? ==>
      var raw := RawVector(ParkinsonsFeatures, body.fields);
      && |raw| == 7
      && (forall i :: 0 <= i < 7 ==>
            raw[i] == if ParkinsonsFeatures[i] in body.fields then body.fields[ParkinsonsFeatures[i]] else JNum(0.0))
    ensures body.JObject? ==>
      var r := PredictParkinsons(body, predict, parseFloat);
      var conv := FloatAll(RawVector(ParkinsonsFeatures, body.fields), parseFloat);
      (exists f :: f in ParkinsonsFeatures && f in body.fields) && conv.Converted? ==>
        |conv.values| == 7 &&
        r == Prediction(Label(predict(conv.values), "Parkinsons", "No Parkinsons"), Some(predict(conv.values)))
  {
    ProvidedMembers(ParkinsonsFeatures, body);
    if Provided(ParkinsonsFeatures, body) != [] {
      var f := Provided(ParkinsonsFeatures, body)[0];
      assert f in Provided(ParkinsonsFeatures, body);
    }
  }

  /** An empty list as the body holds none of the seven features, so the
      handler answers 400 with the no-features message. */
  lemma EmptyListNoFeatures(predict: seq<real> -> int, parseFloat: string -> Option<real>)
    ensures PredictParkinsons(JArray([]), predict, parseFloat) == Failure(400, NoFeaturesMessage())
  {
    ParkinsonsProps(JArray([]), predict, parseFloat);
  }
}
