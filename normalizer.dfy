/** The response-shape chain of `onSubmit`: which part of a parsed response
    body becomes the prediction. */
module ResponseNormalizer {
  import opened JsonValues

  /** What evaluating the chain does: it produces a JavaScript value (possibly
      `undefined`, when an index runs past the end), or it throws. */
  datatype Extraction = Produced(pred: JsValue) | Threw

  /** `data.predictions` or `data.instances` on a non-null body. Only an
      object can hold either name: arrays, strings, numbers and booleans have
      no such own property and their prototypes define neither name. */
  function Property(data: Json, key: string): (v: JsValue)
    requires !data.JNull?
    requires key == "predictions" || key == "instances"
    ensures v.Defined? <==> data.JObject? && key in data.members
    ensures v.Defined? ==> v.json == data.members[key]
  {
    if data.JObject? && key in data.members then Defined(data.members[key]) else Undefined
  }

  /** `v[0]` on a truthy value: the first element of an array, the first
      character of a string, the member named "0" of an object, and
      `undefined` for a number, a boolean or an index past the end. */
  function IndexZero(v: Json): (r: JsValue)
    requires v != JNull
    ensures v.JArray? ==> (r.Defined? <==> v.elems != []) && (r.Defined? ==> r.json == v.elems[0])
    ensures v.JString? ==> (r.Defined? <==> v.s != []) && (r.Defined? ==> r.json == JString([v.s[0]]))
    ensures v.JObject? ==> (r.Defined? <==> "0" in v.members) && (r.Defined? ==> r.json == v.members["0"])
    ensures v.JNumber? || v.JBool? ==> r == Undefined
  {
    match v
    case JArray(elems) => if elems == [] then Undefined else Defined(elems[0])
    case JString(s) => if s == [] then Undefined else Defined(JString([s[0]]))
    case JObject(members) => if "0" in members then Defined(members["0"]) else Undefined
    case _ => Undefined
  }

  /** The if/else chain: a truthy `predictions` gives its element 0, else a
      truthy `instances` gives its element 0, else a top-level array gives its
      element 0, else the whole body is the prediction. Reading a property of
      a `null` body throws. */
  function Normalize(data: Json): (r: Extraction)
    ensures r.Threw? <==> data == JNull
  {
    if data == JNull then Threw
    else
      var predictions := Property(data, "predictions");
      if Truthy(predictions) then Produced(IndexZero(predictions.json))
      else
        var instances := Property(data, "instances");
        if Truthy(instances) then Produced(IndexZero(instances.json))
        else if data.JArray? then Produced(IndexZero(data))
        else Produced(Defined(data))
  }

  // ----- The same chain as an ordered list of shape matchers -----

  /** The response shapes the chain recognises. */
  datatype Shape = PredictionsList | InstancesList | TopLevelArray | WholeBody

  /** The order in which the shapes are tried. */
  const ShapeOrder: seq<Shape> := [PredictionsList, InstancesList, TopLevelArray, WholeBody]

  /** Whether a shape's test accepts a non-null body. */
  predicate Recognizes(shape: Shape, data: Json)
    requires data != JNull
  {
    match shape
    case PredictionsList => Truthy(Property(data, "predictions"))
    case InstancesList => Truthy(Property(data, "instances"))
    case TopLevelArray => data.JArray?
    case WholeBody => true
  }

  /** What a shape extracts from a body it recognises. */
  function Pick(shape: Shape, data: Json): JsValue
    requires data != JNull && Recognizes(shape, data)
  {
    match shape
    case PredictionsList => IndexZero(Property(data, "predictions").json)
    case InstancesList => IndexZero(Property(data, "instances").json)
    case TopLevelArray => IndexZero(data)
    case WholeBody => Defined(data)
  }

  /** The position of the first shape in `shapes` that recognises `data`. */
  function FirstRecognized(shapes: seq<Shape>, data: Json): (r: Option<nat>)
    requires data != JNull
    ensures r.Some? ==> r.value < |shapes| && Recognizes(shapes[r.value], data)
    ensures r.Some? ==> forall j :: 0 <= j < r.value ==> !Recognizes(shapes[j], data)
    ensures r.None? ==> forall j :: 0 <= j < |shapes| ==> !Recognizes(shapes[j], data)
    ensures WholeBody in shapes ==> r.Some?
  {
    if shapes == [] then None
    else if Recognizes(shapes[0], data) then Some(0)
    else
      var rest := FirstRecognized(shapes[1..], data);
      if rest.Some? then Some(rest.value + 1) else None
  }

  /** The chain agrees with the matcher list: for a non-null body it yields
      exactly what the first recognising shape, in the fixed order, picks. */
  lemma NormalizeIsFirstMatch(data: Json)
    requires data != JNull
    ensures FirstRecognized(ShapeOrder, data).Some?
    ensures var k := FirstRecognized(ShapeOrder, data).value;
            k < |ShapeOrder| && Recognizes(ShapeOrder[k], data) &&
            Normalize(data) == Produced(Pick(ShapeOrder[k], data))
  {
    assert ShapeOrder[3] == WholeBody;
    var k := FirstRecognized(ShapeOrder, data).value;
    assert ShapeOrder[0] == PredictionsList && ShapeOrder[1] == InstancesList && ShapeOrder[2] == TopLevelArray;
    if k == 0 {
    } else if k == 1 {
      assert !Recognizes(ShapeOrder[0], data);
    } else if k == 2 {
      assert !Recognizes(ShapeOrder[0], data) && !Recognizes(ShapeOrder[1], data);
    } else {
      assert !Recognizes(ShapeOrder[0], data) && !Recognizes(ShapeOrder[1], data) && !Recognizes(ShapeOrder[2], data);
    }
  }

  // ----- Round trips: a prediction wrapped in each shape comes back -----

  /** A response body that carries `v` in the given shape. */
  function Wrap(shape: Shape, v: Json): Json {
    match shape
    case PredictionsList => JObject(map["predictions" := JArray([v])])
    case InstancesList => JObject(map["instances" := JArray([v])])
    case TopLevelArray => JArray([v])
    case WholeBody => v
  }

  /** A body that no earlier shape claims, so it is taken whole. */
  predicate PassesThrough(v: Json) {
    v != JNull && !v.JArray? &&
    !Truthy(Property(v, "predictions")) && !Truthy(Property(v, "instances"))
  }

  /** Every shape returns the prediction it carries; the whole-body shape does
      so exactly for the bodies no earlier shape claims. */
  lemma WrapRoundTrip(shape: Shape, v: Json)
    requires shape == WholeBody ==> PassesThrough(v)
    ensures Normalize(Wrap(shape, v)) == Produced(Defined(v))
  {
  }

  /** The body comes back whole exactly when no earlier shape claims it: a
      recognised shape always yields a part of the body, never all of it. */
  lemma WholeBodyExactlyWhenUnclaimed(data: Json)
    requires data != JNull
    ensures Normalize(data) == Produced(Defined(data)) <==> PassesThrough(data)
  {
  }

  /** An empty `predictions` list is truthy, so it wins over a usable
      `instances` list and the prediction is `undefined`. */
  lemma EmptyPredictionsShadowInstances(members: map<string, Json>)
    requires "predictions" in members && members["predictions"] == JArray([])
    ensures Normalize(JObject(members)) == Produced(Undefined)
  {
  }

  /** Once `predictions` is truthy, nothing else in the body matters. */
  lemma PredictionsDecide(members: map<string, Json>, other: map<string, Json>)
    requires "predictions" in members && Truthy(Defined(members["predictions"]))
    requires "predictions" in other && other["predictions"] == members["predictions"]
    ensures Normalize(JObject(members)) == Normalize(JObject(other))
  {
  }
}
