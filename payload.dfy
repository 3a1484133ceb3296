/** The form's trip features and the request body built from them. */
module PayloadAdapter {
  import opened JsonValues

  /** The form's input map: field name to number. `Number(value)` is taken
      as already applied, so every value is a number. */
  type Inputs = map<string, real>

  /** The eight fields, with the values the form starts from and that Reset
      restores. */
  function DefaultInputs(): (inputs: Inputs)
    ensures inputs.Keys == {"num_cars", "load_weight_kg", "route_distance_km", "avg_speed_kmh",
                            "elevation_gain_m", "ambient_temp_c", "rain_mm", "wind_kmh"}
    ensures |inputs.Keys| == 8
  {
    map["num_cars" := 7.0, "load_weight_kg" := 10150.0, "route_distance_km" := 680.0,
        "avg_speed_kmh" := 78.0, "elevation_gain_m" := 550.0, "ambient_temp_c" := 26.0,
        "rain_mm" := 3.0, "wind_kmh" := 12.0]
  }

  /** The input map as a JSON object of numbers. */
  function InputsJson(inputs: Inputs): Json {
    JObject(map k | k in inputs :: JNumber(inputs[k]))
  }

  /** `{ instances: [inputs] }`, the body that is posted. */
  function Payload(inputs: Inputs): (body: Json)
    ensures body.JObject? && body.members.Keys == {"instances"}
    ensures body.members["instances"].JArray? && |body.members["instances"].elems| == 1
  {
    JObject(map["instances" := JArray([InputsJson(inputs)])])
  }

  /** Reads a JSON object whose members are all numbers back as an input map. */
  function DecodeInputs(j: Json): Option<Inputs> {
    if j.JObject? && forall k :: k in j.members ==> j.members[k].JNumber? then
      Some(map k | k in j.members :: j.members[k].n)
    else
      None
  }

  /** Reads the `instances` list of a request body back as input maps; `None`
      when the body does not have that shape. */
  function DecodeInstances(body: Json): Option<seq<Inputs>> {
    if body.JObject? && "instances" in body.members && body.members["instances"].JArray? then
      DecodeAll(body.members["instances"].elems)
    else
      None
  }

  function DecodeAll(js: seq<Json>): (r: Option<seq<Inputs>>)
    ensures r.Some? ==> |r.value| == |js|
  {
    if js == [] then Some([])
    else
      var head, tail := DecodeInputs(js[0]), DecodeAll(js[1..]);
      if head.Some? && tail.Some? then Some([head.value] + tail.value) else None
  }

  /** The object of numbers decodes back to the very map it was built from. */
  lemma InputsRoundTrip(inputs: Inputs)
    ensures DecodeInputs(InputsJson(inputs)) == Some(inputs)
  {
    var j := InputsJson(inputs);
    assert forall k :: k in j.members ==> j.members[k].JNumber?;
    var back := map k | k in j.members :: j.members[k].n;
    assert back.Keys == inputs.Keys;
    assert forall k :: k in back ==> back[k] == inputs[k];
    assert back == inputs;
  }

  /** The request body carries exactly one instance, and that instance is the
      current input map. */
  lemma PayloadRoundTrip(inputs: Inputs)
    ensures DecodeInstances(Payload(inputs)) == Some([inputs])
  {
    InputsRoundTrip(inputs);
    var elems := [InputsJson(inputs)];
    assert elems[0] == InputsJson(inputs) && elems[1..] == [];
    assert DecodeAll(elems[1..]) == Some([]);
    assert DecodeInputs(elems[0]) == Some(inputs);
    assert [inputs] + [] == [inputs];
    assert DecodeAll(elems) == Some([inputs]);
  }
}
