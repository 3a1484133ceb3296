/** One request/response cycle of the form and the state it drives
    (`onSubmit`, `onChange`, the endpoint field and the Reset button). */
module PredictionCycle {
  import opened JsonValues
  import opened EndpointConfig
  import opened PayloadAdapter
  import opened ResponseNormalizer
  import opened StatusMessages
  import opened ResultDisplay

  /** What `res.json()` makes of the reply body. */
  datatype ParsedBody = Parsed(data: Json) | NotJson(message: string)

  /** How the `fetch` of one submission ends: it rejects with a message, or a
      reply arrives with its status line, its body text, and what parsing
      that body as JSON gives. */
  datatype FetchOutcome =
    | NetworkFailure(message: string)
    | Answered(status: nat, statusText: string, text: string, body: ParsedBody)

  /** `res.ok`: a status in the range 200 to 299. */
  predicate IsOk(status: nat)
    ensures IsOk(status) <==> status / 100 == 2
  {
    200 <= status <= 299
  }

  /** The HTTP request a submission sends. */
  datatype Request = Request(url: string, httpMethod: string, contentType: string, body: Json)

  /** The request for the current endpoint field and input map. */
  function RequestFor(endpoint: string, inputs: Inputs): (r: Request)
    ensures r.url == endpoint && r.httpMethod == "POST" && r.contentType == "application/json"
    ensures DecodeInstances(r.body) == Some([inputs])
  {
    PayloadRoundTrip(inputs);
    Request(endpoint, "POST", "application/json", Payload(inputs))
  }

  /** How a cycle ends: a prediction to store, or an error message. */
  datatype CycleEnd = Succeeded(prediction: JsValue) | Failed(message: string)

  /** The TypeError message a JavaScript engine gives for `null.predictions`
      (V8's wording; other engines word it differently). */
  const NullBodyMessage: string := "Cannot read properties of null (reading 'predictions')"

  /** The end of a cycle for a given fetch outcome: everything thrown inside
      the `try` becomes the message of the `catch`. */
  function Conclude(outcome: FetchOutcome): (e: CycleEnd)
    ensures e.Succeeded? <==>
              outcome.Answered? && IsOk(outcome.status) &&
              outcome.body.Parsed? && outcome.body.data != JNull
    ensures outcome.NetworkFailure? ==> e == Failed(outcome.message)
  {
    match outcome
    case NetworkFailure(message) => Failed(message)
    case Answered(status, statusText, text, body) =>
      if !IsOk(status) then Failed(StatusMessage(status, statusText, text))
      else
        match body
        case NotJson(message) => Failed(message)
        case Parsed(data) =>
          match Normalize(data)
          case Threw => Failed(NullBodyMessage)
          case Produced(pred) => Succeeded(pred)
  }

  /** A non-ok reply fails with "<status> <statusText>: <text>", whatever its
      body would parse to: the normaliser is never consulted. The status can
      be read back from the message and the body text ends it. */
  lemma NonOkReplyFails(status: nat, statusText: string, text: string, body: ParsedBody)
    requires !IsOk(status)
    ensures Conclude(Answered(status, statusText, text, body)) ==
            Failed(StatusMessage(status, statusText, text))
    ensures var m := Conclude(Answered(status, statusText, text, body)).message;
            StatusOf(m) == status && m[|m| - |text|..] == text
  {
    StatusMessageRecoverable(status, statusText, text);
  }

  /** An ok reply whose body is not JSON, or is JSON `null`, fails and
      stores no prediction. */
  lemma UnusableBodyFails(status: nat, statusText: string, text: string, body: ParsedBody)
    requires IsOk(status)
    requires body.NotJson? || body == Parsed(JNull)
    ensures Conclude(Answered(status, statusText, text, body)) ==
            Failed(if body.NotJson? then body.message else NullBodyMessage)
  {
  }

  /** An ok reply with a non-null JSON body succeeds with what the first
      recognised response shape picks from it. */
  lemma OkReplyFollowsShapeOrder(status: nat, statusText: string, text: string, data: Json)
    requires IsOk(status) && data != JNull
    ensures var k := FirstRecognized(ShapeOrder, data);
            k.Some? && k.value < |ShapeOrder| && Recognizes(ShapeOrder[k.value], data) &&
            Conclude(Answered(status, statusText, text, Parsed(data))) ==
              Succeeded(Pick(ShapeOrder[k.value], data))
  {
    NormalizeIsFirstMatch(data);
  }

  /** A 200 reply `{"predictions": [6.4]}` stores the prediction 6.4, which
      the page shows with its estimated total. */
  lemma PredictionsReplyScenario(text: string)
    ensures var e := Conclude(Answered(200, "OK", text,
                       Parsed(JObject(map["predictions" := JArray([JNumber(6.4)])]))));
            e == Succeeded(Defined(JNumber(6.4))) &&
            Display(e.prediction, None) == Panels(false, true, true, false, false)
  {
  }

  /** A 500 reply with body text "model unavailable" fails with a message
      that starts with the status and ends with that text, shown in the
      error box. */
  lemma ServerErrorScenario(statusText: string, body: ParsedBody)
    ensures var e := Conclude(Answered(500, statusText, "model unavailable", body));
            e.Failed? && StatusOf(e.message) == 500 &&
            e.message[|e.message| - |"model unavailable"|..] == "model unavailable" &&
            Display(Null, Some(e.message)) == Panels(true, false, false, false, false)
  {
    NonOkReplyFails(500, statusText, "model unavailable", body);
  }

  /** The form's state: the endpoint field, the input map, whether a request
      is in flight, the last prediction and the last error message. */
  class Controller {
    var endpoint: string
    var inputs: Inputs
    var loading: bool
    var result: JsValue
    var error: Option<string>

    /** A prediction and an error message are never stored together. */
    predicate AtMostOneSet()
      reads this
    {
      error.None? || result == Null
    }

    /** What the start of a submission leaves behind. */
    predicate InFlight()
      reads this
    {
      loading && result == Null && error == None
    }

    /** The panels the page shows for the current state. */
    function Shown(): (p: Panels)
      reads this
      requires AtMostOneSet()
      ensures !(p.errorPanel && p.resultPanel)
    {
      PanelsExclusive(result, error);
      Display(result, error)
    }

    /** The first render: the configured endpoint (or the fallback), the
        default inputs, nothing in flight, no result and no error. */
    constructor (configured: Option<string>)
      ensures endpoint == DefaultEndpoint(configured) && inputs == DefaultInputs()
      ensures !loading && result == Null && error == None
      ensures AtMostOneSet()
    {
      endpoint := DefaultEndpoint(configured);
      inputs := DefaultInputs();
      loading := false;
      result := Null;
      error := None;
    }

    /** Typing in the endpoint field replaces the endpoint verbatim. */
    method EditEndpoint(url: string)
      modifies this`endpoint
      ensures endpoint == url
    {
      endpoint := url;
    }

    /** `onChange`: the named field takes the new number; every other field
        keeps its value. */
    method OnChange(name: string, value: real)
      modifies this`inputs
      ensures inputs == old(inputs)[name := value]
      ensures inputs.Keys == old(inputs).Keys + {name}
      ensures forall k :: k in old(inputs) && k != name ==> inputs[k] == old(inputs)[k]
    {
      inputs := inputs[name := value];
    }

    /** The Reset button: default inputs back, result and error cleared; the
        endpoint and the in-flight flag are left alone. */
    method Reset()
      modifies this`inputs, this`result, this`error
      ensures inputs == DefaultInputs() && result == Null && error == None
      ensures AtMostOneSet()
    {
      inputs := DefaultInputs();
      result := Null;
      error := None;
    }

    /** The synchronous start of `onSubmit`: mark the request in flight,
        clear result and error, and build the request from the current
        endpoint and inputs. */
    method BeginSubmit() returns (request: Request)
      modifies this`loading, this`result, this`error
      ensures InFlight() && AtMostOneSet()
      ensures request == RequestFor(endpoint, inputs)
      ensures request.url == endpoint && DecodeInstances(request.body) == Some([inputs])
    {
      loading := true;
      error := None;
      result := Null;
      var payload := Payload(inputs);
      PayloadRoundTrip(inputs);
      request := Request(endpoint, "POST", "application/json", payload);
    }

    /** The rest of `onSubmit`, once the fetch outcome is known: the prediction
        on success, the message on any failure, and `loading` off in all
        cases. */
    method FinishSubmit(outcome: FetchOutcome)
      requires InFlight()
      modifies this`loading, this`result, this`error
      ensures !loading && AtMostOneSet()
      ensures Conclude(outcome).Succeeded? ==> result == Conclude(outcome).prediction && error == None
      ensures Conclude(outcome).Failed? ==> error == Some(Conclude(outcome).message) && result == Null
    {
      match outcome {
        case NetworkFailure(message) =>
          error := Some(message);
        case Answered(status, statusText, text, body) =>
          if !IsOk(status) {
            error := Some(StatusMessage(status, statusText, text));
          } else if body.NotJson? {
            error := Some(body.message);
          } else {
            match Normalize(body.data) {
              case Threw => error := Some(NullBodyMessage);
              case Produced(pred) => result := pred;
            }
          }
      }
      loading := false;
    }

    /** A whole submission: the request sent carries the endpoint and inputs
        as they were, and the cycle ends idle with the outcome's prediction
        or message. */
    method Submit(outcome: FetchOutcome) returns (request: Request)
      modifies this`loading, this`result, this`error
      ensures request == RequestFor(endpoint, inputs)
      ensures !loading && AtMostOneSet()
      ensures Conclude(outcome).Succeeded? ==> result == Conclude(outcome).prediction && error == None
      ensures Conclude(outcome).Failed? ==> error == Some(Conclude(outcome).message) && result == Null
    {
      request := BeginSubmit();
      FinishSubmit(outcome);
    }
  }

  /** A client of the controller: a 200 reply with `{"predictions":[6.4]}`,
      then a 500 reply with body "model unavailable", submitted one after the
      other from the first render. */
  method EndToEndScenario(configured: Option<string>)
  {
    var c := new Controller(configured);
    var ok := Answered(200, "OK", "", Parsed(JObject(map["predictions" := JArray([JNumber(6.4)])])));
    var request := c.Submit(ok);
    assert request.url == DefaultEndpoint(configured);
    PredictionsReplyScenario("");
    assert c.result == Defined(JNumber(6.4)) && c.error == None && !c.loading;
    assert c.Shown() == Panels(false, true, true, false, false);

    var failed := Answered(500, "Internal Server Error", "model unavailable", NotJson("unexpected token"));
    request := c.Submit(failed);
    ServerErrorScenario("Internal Server Error", NotJson("unexpected token"));
    assert c.result == Null && c.error.Some? && StatusOf(c.error.value) == 500 && !c.loading;
    assert c.Shown() == Panels(true, false, false, false, false);
  }
}
