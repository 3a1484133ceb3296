# Fuel-consumption prediction form: request/response adapter

This project models the prediction adapter of the fuel-consumption demo's
single-page form (`frontend/src/App.jsx`). The form holds eight numeric trip
features and posts them to an inference endpoint. It turns the JSON reply
into one prediction or one error message and shows one of three panels.

Modules:

- `JsonValues` (json.dfy): parsed JSON values, the JavaScript `undefined`,
  and JavaScript truthiness.
- `EndpointConfig` (endpoint.dfy): the starting endpoint. It is
  `REACT_APP_INFERENCE_URL` when that is set and non-empty, otherwise
  `/api/predict`.
- `PayloadAdapter` (payload.dfy): the default inputs and the body
  `{ instances: [inputs] }`, with a decoder that reads the body back.
- `ResponseNormalizer` (normalizer.dfy): the ordered response-shape chain.
  It is stated twice: as the source's if/else chain (`Normalize`) and as an
  ordered list of shape matchers (`ShapeOrder`, `FirstRecognized`, `Pick`).
  A lemma proves the two agree.
- `StatusMessages` (status.dfy): the message `"<status> <statusText>: <text>"`
  for a reply whose status is not ok. The status can be read back from it.
- `ResultDisplay` (display.dfy): which of the error box, the prediction box,
  the estimated-total line and the "no result" text the page renders.
- `PredictionCycle` (controller.dfy): the end of one cycle as a function of
  the fetch outcome (`Conclude`). It also holds the `Controller` class, whose
  fields are the component's state: `endpoint`, `inputs`, `loading`,
  `result` and `error`. Its methods are the handlers.

The network is a parameter. A `FetchOutcome` is either a rejected fetch with
its message, or a reply with its status, status text, body text and the
result of parsing that body as JSON. `res.ok` is the status range 200 to 299
of the Fetch standard.

Behaviour of the code worth knowing:

- Any non-null JSON body that matches no shape becomes the prediction as a
  whole. An empty `predictions` list is truthy, so it gives an `undefined`
  prediction and `instances` is never tried.
- A JSON `null` body fails: reading `data.predictions` throws, and the
  cycle ends with an error.
- The endpoint field starts as the configured URL or the fallback. Whatever
  the user types, even an empty string, is posted to as typed.

## Model

| member | source | states |
|---|---|---|
| JsonValues.Truthy | frontend/src/App.jsx:53-54 | a value is truthy exactly when it is not `undefined`, `null`, `false`, `0` or the empty string |
| EndpointConfig.DefaultEndpoint | frontend/src/App.jsx:10 | the configured URL when it is set and non-empty, exactly `/api/predict` when it is unset or empty; the result is never empty |
| EndpointConfig.DefaultEndpointIdempotent | frontend/src/App.jsx:10 | configuring the resolved URL resolves to the same URL |
| PayloadAdapter.DefaultInputs | frontend/src/App.jsx:12-21 | the starting input map has exactly the eight trip fields |
| PayloadAdapter.Payload | frontend/src/App.jsx:38 | the body is an object whose only member is `instances`, a list of exactly one element |
| PayloadAdapter.InputsRoundTrip | frontend/src/App.jsx:38 | the input map serialised as an object of numbers decodes back to the same map |
| PayloadAdapter.PayloadRoundTrip | frontend/src/App.jsx:38 | decoding the body's `instances` gives exactly one instance, equal to the current inputs |
| ResponseNormalizer.Property | frontend/src/App.jsx:53-54 | reading `predictions` or `instances` yields the member's value when the body is an object with that member, and `undefined` otherwise |
| ResponseNormalizer.IndexZero | frontend/src/App.jsx:53-55 | `v[0]` is the first element of an array, the first character of a string, the member `"0"` of an object, and `undefined` for an empty array or string, a missing member, a number or a boolean |
| ResponseNormalizer.Normalize | frontend/src/App.jsx:52-56 | the chain throws exactly when the body is JSON `null` |
| ResponseNormalizer.FirstRecognized | frontend/src/App.jsx:51-56 | finds the first shape in a list that recognises the body, and no earlier shape recognises it; a list containing the whole-body shape always finds one |
| ResponseNormalizer.NormalizeIsFirstMatch | frontend/src/App.jsx:51-56 | for every non-null body, the chain yields what the first recognising shape in the order predictions, instances, top-level array, whole body picks |
| ResponseNormalizer.WrapRoundTrip | frontend/src/App.jsx:51-56 | a prediction wrapped as `{predictions:[v]}`, `{instances:[v]}` or `[v]` comes back as `v`; taken whole, a body comes back whenever no earlier shape claims it |
| ResponseNormalizer.WholeBodyExactlyWhenUnclaimed | frontend/src/App.jsx:56 | a non-null body is returned whole if and only if it is not an array and has neither a truthy `predictions` nor a truthy `instances` |
| ResponseNormalizer.EmptyPredictionsShadowInstances | frontend/src/App.jsx:53-54 | an empty `predictions` list is truthy, so the prediction is `undefined` and `instances` is never tried |
| ResponseNormalizer.PredictionsDecide | frontend/src/App.jsx:53 | once `predictions` is truthy, the rest of the body does not affect the prediction |
| StatusMessages.DecimalString | frontend/src/App.jsx:47 | the status is written as a non-empty numeral of decimal digits without a leading zero |
| StatusMessages.DecimalRoundTrip | frontend/src/App.jsx:47 | the numeral reads back as the status code |
| StatusMessages.StatusMessage | frontend/src/App.jsx:47 | the message is the status numeral, a space, the status text, `": "` and the reply body text, in that order |
| StatusMessages.StatusMessageRecoverable | frontend/src/App.jsx:47 | the status code read from the front of the message is the reply's status, whatever the status text |
| ResultDisplay.Display | frontend/src/App.jsx:105-115 | the error box shows exactly for a non-empty message; the prediction box exactly for a truthy result; the total line exactly inside the box of a numeric prediction; the placeholder exactly when neither box shows; React's stray "0" exactly for a prediction of 0 |
| ResultDisplay.ZeroPredictionShowsPlaceholder | frontend/src/App.jsx:106-115 | a prediction of 0 with no error shows the "no result" text with a stray "0" beside it, and no prediction box |
| ResultDisplay.PanelsExclusive | frontend/src/App.jsx:105-106 | when result and error are not both set, the error box and the prediction box never show together |
| PredictionCycle.IsOk | frontend/src/App.jsx:45 | `res.ok` holds exactly for a status in the 2xx class |
| PredictionCycle.RequestFor | frontend/src/App.jsx:38-43 | the request is a POST of JSON to the endpoint as given, whose body decodes to exactly one instance equal to the inputs |
| PredictionCycle.Conclude | frontend/src/App.jsx:37-60 | a cycle succeeds if and only if the reply is ok and its body parses to non-null JSON; a rejected fetch fails with its own message |
| PredictionCycle.NonOkReplyFails | frontend/src/App.jsx:45-47 | a non-ok reply fails with `"<status> <statusText>: <text>"` whatever its body would parse to, so the normaliser is never consulted; the status reads back from the message |
| PredictionCycle.UnusableBodyFails | frontend/src/App.jsx:50-53 | an ok reply whose body is not JSON, or is `null`, fails with the parse error or the property-read error |
| PredictionCycle.OkReplyFollowsShapeOrder | frontend/src/App.jsx:50-58 | an ok reply with a non-null JSON body succeeds with what the first recognising shape picks |
| PredictionCycle.PredictionsReplyScenario | frontend/src/App.jsx:50-58 | a 200 reply `{"predictions":[6.4]}` stores 6.4 and shows the prediction box with the total line |
| PredictionCycle.ServerErrorScenario | frontend/src/App.jsx:45-47 | a 500 reply with body "model unavailable" fails with a message that reads back 500 and ends with that text, shown in the error box |
| PredictionCycle.Controller.Shown | frontend/src/App.jsx:105-115 | in any state the controller keeps, the error box and the prediction box never show together |
| PredictionCycle.Controller.constructor | frontend/src/App.jsx:10-24 | the form starts at the default endpoint and the default inputs, not loading, with no result and no error |
| PredictionCycle.Controller.EditEndpoint | frontend/src/App.jsx:91 | the typed text becomes the endpoint verbatim; nothing else changes |
| PredictionCycle.Controller.OnChange | frontend/src/App.jsx:26-29 | the named field takes the new value and every other field keeps its value |
| PredictionCycle.Controller.Reset | frontend/src/App.jsx:98 | restores the eight default inputs and clears result and error; the endpoint and `loading` are left alone |
| PredictionCycle.Controller.BeginSubmit | frontend/src/App.jsx:31-43 | sets `loading` and clears result and error; the request goes to the endpoint verbatim and carries exactly one instance equal to the inputs |
| PredictionCycle.Controller.FinishSubmit | frontend/src/App.jsx:44-63 | ends with `loading` off; success writes only the prediction, failure only the message, so they are never both set |
| PredictionCycle.Controller.Submit | frontend/src/App.jsx:31-64 | a whole cycle: the request built from the endpoint and inputs, then the outcome's prediction or message, ending idle |

## Left out

- The `fetch` call and the two awaits are not modelled as I/O. Their outcome is the `FetchOutcome` parameter. A failure of `res.text()` itself is not modelled.
- `JSON.stringify` and `JSON.parse` are not modelled as text. The request body stays a JSON value, and the parse result comes with the reply.
- PredictionCycle.Controller.FinishSubmit: requires the state `BeginSubmit` leaves behind. Overlapping submissions are not modelled: the Predict button is disabled while a request is in flight, and any interleaving is a concurrency question.
- Numbers are reals once parsed. `JSON.parse` turning a huge literal into `Infinity`, or a tiny one into `0` (falsy), is not modelled.
- `Number(value)` in `onChange` is not modelled. Inputs are real numbers, so NaN and the infinities are not covered.
- The estimated total `(result * route_distance_km / 100).toFixed(1)` is floating-point formatting. Only whether its line shows is modelled.
- The text of the prediction box (`JSON.stringify(result)` or `String(result)`) is left out, as are all JSX, CSS and layout.
- JavaScript strings are UTF-16. `IndexZero` on a string takes its first Unicode character, which differs from the first code unit for characters outside the Basic Multilingual Plane.
- `NullBodyMessage` is V8's wording for the TypeError. Other engines word the message differently.
- Object member order is not modelled: objects are maps.
- `frontend/setupProxy.js` (the `/api` prefix rewrite) belongs to the proxy library. `fuel-consumption-api/app/main.py` is a call into a trained model. Neither is part of this model.
