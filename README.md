# SmartAlexaLight: the Alexa smart-home lambda, modelled in Dafny

SmartAlexaLight is an AWS Lambda skill. It answers Alexa Smart Home API
(version 3) directives for one light bulb. Its logic lives in
`AlexaLambda.py`, and this project models the two parts of that file.

**The `AlexaResponse` envelope builder** is modelled as a Dafny class
`AlexaResponseBuilder.AlexaResponse`, in `alexa_response.dfy`.
- It has the same four fields as the Python object: the two ordered lists, the `context` document and the `event` document.
- Each method says how it changes them and states that it leaves the other fields alone.
- The constructor and `Get` are proved against the specification functions `InitialEvent`, `MergedContext`, `MergedEvent` and `Envelope`.
- Lemmas about those functions state what the code promises:
  - the defaults;
  - when the endpoint block is dropped;
  - that the envelope has a `context` exactly when properties were added;
  - that a second `get()` returns the same document.
- The three `create_*` dict builders are static functions of the class. They read no builder state.

**The dispatcher `lambda_handler`** is `SmartHomeHandler.LambdaHandler`, in `lambda_handler.dfy`.
- The request is a datatype with `Option` fields.
- `RouteOf` is the routing table: validation first, then the four handled (namespace, name) pairs.
- The handler builds its answers with real `AlexaResponse` objects, as the code does, or writes the state report out by hand.
- Its contract gives, per route, the members of the answer that the `Is…` predicates name: the header fields, the endpoint block or its absence, the payload, the context's properties and the absence of a context where there is none. Other members the code sets, such as a discovered endpoint's `description`, `displayCategories`, `manufacturerName` and `additionalAttributes`, or the power response's scope, are not pinned there; `CreatePayloadEndpoint` and `InitialEndpoint` state them. Nor do the predicates fix the full key set of a header, event or envelope.
- It also says which routes would publish to the device shadow and which would query the state store.

**Supporting modules:**
- `json.dfy` holds the JSON values that the code builds out of dicts and lists. Member names form a closed enumeration, `JsonValue.Member`, and `JsonValue.MemberName` gives each one's spelling on the wire.
- `digits.dfy` models `"%0.6d"`, which makes the generated endpoint ids.

**The outside world is passed in as parameters.** `SmartHomeHandler.Environment` carries:
- the `uuid4` message id;
- the two `datetime.now` timestamps;
- the number drawn by `random.randint`;
- the result of the IoT publish;
- the luminosity of the latest DynamoDB record.

## Quirks of the code that the model keeps

- `add_context_property` appends two entries on every call: the requested one, then a default `Alexa.EndpointHealth`/`connectivity` entry (`AlexaLambda.py:249-250`). As a result, the power response carries two properties.
- A directive without a `header`, or whose header has no `payloadVersion`, is not answered with `INVALID_DIRECTIVE`: the code raises a `KeyError` at line 59. So does a version-3 header without `name` or `namespace` (lines 68-69), and a missing `endpoint` or `correlationToken` on the power and state-report routes (lines 105, 109, 124, 126). The model states these as the precondition `ReadableRequest`.
- The builder files the correlation token under `correlation_token` (line 239), not `correlationToken`. Only the hand-written state report uses `correlationToken` (line 165).
- Every name in the `Alexa.PowerController` namespace is a power directive: `TurnOff` gives 0, and any other name gives 1.
- The publish ignores the endpoint id.
- An unhandled (namespace, name) pair falls off the end of the function and returns `None`; there is no error answer.

## Model

| member | source | states |
|---|---|---|
| `Digits.ZeroPad` | AlexaLambda.py:289 | for `n` below 10^width, as `"%0.6d"` writes it: exactly `width` characters, all of them decimal digits (above that, only the last `width` digits are kept) |
| `Digits.ZeroPadRoundTrip` | AlexaLambda.py:289 | reading the padded digits back gives the number, for every number below 10^width |
| `Digits.PaddedDecimalValue` | AlexaLambda.py:289 | conversely, every digit string is the padding of the number it spells, so the padding is a bijection |
| `Digits.ZeroPadInjective` | AlexaLambda.py:289 | distinct numbers in range have distinct paddings |
| `AlexaResponseBuilder.DefaultEndpointId` | AlexaLambda.py:289 | the generated id is `endpoint_` followed by six digits spelling the drawn number |
| `AlexaResponseBuilder.DefaultEndpointIdInjective` | AlexaLambda.py:289 | two generated ids are equal exactly when the drawn numbers are |
| `AlexaResponseBuilder.InitialHeader` | AlexaLambda.py:221-239 | the header has namespace `Alexa`, name `Response` and payloadVersion `3` unless given, plus the message id; it has a `correlation_token` exactly when one is given, and never a `correlationToken` |
| `AlexaResponseBuilder.InitialEndpoint` | AlexaLambda.py:228-242 | the endpoint block has a `BearerToken` scope with token `INVALID` and endpointId `INVALID` unless given; it has a cookie exactly when one is given |
| `AlexaResponseBuilder.InitialEvent` | AlexaLambda.py:221-246 | the event has a header and a payload, `{}` unless given; it has the endpoint block exactly when the name is neither `AcceptGrant.Response` nor `Discover.Response` |
| `AlexaResponseBuilder.MergedContext` | AlexaLambda.py:322-323 | the context gains `properties`, holding the whole list, exactly when the list is non-empty; otherwise it is unchanged |
| `AlexaResponseBuilder.MergedEvent` | AlexaLambda.py:325-326 | the event keeps its members; the payload gains `endpoints`, holding the list, only when the list is non-empty |
| `AlexaResponseBuilder.MergeLeavesRestUnchanged` | AlexaLambda.py:322-326 | the merges leave every other member of the context, of the event and of the payload as it was |
| `AlexaResponseBuilder.Envelope` | AlexaLambda.py:317-332 | the result holds the event, and holds the context unless the context is empty and empty members are removed |
| `AlexaResponseBuilder.BuiltEvent` | AlexaLambda.py:315-326 | after construction, appends and `get()`, the event still has the constructor's header and endpoint block; its payload is unchanged when there are no endpoints and holds the endpoints when there are |
| `AlexaResponseBuilder.BuiltEnvelope` | AlexaLambda.py:315-332 | what such a builder's `get()` returns: those event members, and a `context` exactly when properties were added, holding them in order |
| `AlexaResponseBuilder.EnvelopeContextIffProperties` | AlexaLambda.py:322-330 | for any context the builder can hold, with `remove_empty` the result has a `context` if and only if the property list is non-empty, and then it holds that list |
| `AlexaResponseBuilder.MergeIdempotent` | AlexaLambda.py:315-332 | merging twice equals merging once, so a second `get()` returns the same document as the first |
| `AlexaResponseBuilder.AlexaResponse.constructor` | AlexaLambda.py:214-246 | empty lists and context; the event is `InitialEvent` of the arguments |
| `AlexaResponseBuilder.AlexaResponse.AddContextProperty` | AlexaLambda.py:248-250 | the property list grows by exactly two entries, the requested property and then the default connectivity property; nothing else changes |
| `AlexaResponseBuilder.AlexaResponse.AddPayloadEndpoint` | AlexaLambda.py:260-261 | the endpoint list grows by exactly the one created descriptor; nothing else changes |
| `AlexaResponseBuilder.AlexaResponse.CreateContextProperty` | AlexaLambda.py:264-271 | exactly the five property members, each given or defaulted (`Alexa.EndpointHealth`, `connectivity`, `{"value": "OK"}`, uncertainty 0), with the supplied timestamp |
| `AlexaResponseBuilder.AlexaResponse.DefaultAdditionalAttributes` | AlexaLambda.py:276-283 | exactly the six attribute members, each given or defaulted |
| `AlexaResponseBuilder.AlexaResponse.CreatePayloadEndpoint` | AlexaLambda.py:273-298 | exactly the seven descriptor members, plus the cookie when one is given; the endpoint id is the generated one only when none is given |
| `AlexaResponseBuilder.AlexaResponse.CreatePayloadEndpointCapability` | AlexaLambda.py:300-313 | type `AlexaInterface`, interface `Alexa` and version `3` unless given; a `properties` block (supported; proactivelyReported and retrievable, both true unless given) exactly when `supported` is non-empty |
| `AlexaResponseBuilder.AlexaResponse.Get` | AlexaLambda.py:315-332 | the lists are unchanged; context and event are merged; the result is their envelope |
| `AlexaResponseBuilder.AlexaResponse.MergeContextProperties` | AlexaLambda.py:322-323 | the first step of `get()`: only the context changes, to its merge |
| `AlexaResponseBuilder.AlexaResponse.MergePayloadEndpoints` | AlexaLambda.py:325-326 | the second step of `get()`: only the event changes, to its merge |
| `AlexaResponseBuilder.AlexaResponse.SetPayload` | AlexaLambda.py:334-335 | only the event payload is replaced |
| `AlexaResponseBuilder.AlexaResponse.SetPayloadEndpoint` | AlexaLambda.py:337-338 | only the endpoint list is replaced |
| `AlexaResponseBuilder.AlexaResponse.SetPayloadEndpoints` | AlexaLambda.py:340-344 | the payload's `endpoints` becomes the given list, whether it was there or not; nothing else changes |
| `SmartHomeHandler.RouteOf` | AlexaLambda.py:51-123 | the routing table: a missing directive and then a version other than `3` are decided first; every other route has version `3`; a version-3 directive is on the power route exactly when its namespace is `Alexa.PowerController`, whatever its name |
| `SmartHomeHandler.ReadableRequest` | AlexaLambda.py:59-126 | the requests the code reads without a `KeyError`: a header with a version (line 59), a name and namespace when the version is `3` (lines 68-69), and an endpoint and correlation token on the power and state-report routes (lines 105, 109, 124, 126) |
| `SmartHomeHandler.DesiredPower` | AlexaLambda.py:108 | the desired power is 0 if and only if the name is `TurnOff`, and 1 otherwise |
| `SmartHomeHandler.ShadowUpdate` | AlexaLambda.py:190-205 | the published document is `{"state": {"desired": {"power": value}}}`, with exactly those members at each level, always on the same shadow topic with QoS 1 |
| `SmartHomeHandler.ErrorResponse` | AlexaLambda.py:52-56 | an `ErrorResponse` envelope with payload `{type, message}`, the constructor's default endpoint block (a `BearerToken` scope, token and endpointId `INVALID`) and no context |
| `SmartHomeHandler.AcceptGrantResponse` | AlexaLambda.py:72-79 | an `AcceptGrant.Response` of namespace `Alexa.Authorization`, with no endpoint block, an empty payload and no context |
| `SmartHomeHandler.SupportedCapability` | AlexaLambda.py:87-95 | a capability for an interface with one supported property carries that property, proactively reported and retrievable |
| `SmartHomeHandler.DiscoveryCapabilities` | AlexaLambda.py:86-99 | the four capabilities, in the order `Alexa`, `Alexa.EndpointHealth`, `Alexa.PowerController`, `Alexa.BrightnessController`; only the first has no properties block |
| `SmartHomeHandler.DiscoveredBulb` | AlexaLambda.py:96-99 | the descriptor has id `sample-bulb-01`, name `Test Light` and exactly those four capabilities |
| `SmartHomeHandler.AddDiscoveredBulb` | AlexaLambda.py:96-99 | after the call the builder's endpoint list is exactly that one bulb |
| `SmartHomeHandler.DiscoverEnvelope` | AlexaLambda.py:84-100 | the builder's envelope is a `Discover.Response` with no endpoint block, no context and exactly one payload endpoint, the bulb |
| `SmartHomeHandler.DiscoverResponse` | AlexaLambda.py:81-100 | the Discover branch returns that envelope |
| `SmartHomeHandler.PowerProperties` | AlexaLambda.py:119 | the power branch's property is `Alexa.PowerController`/`powerState` with the desired value and uncertainty 0; the default one that follows is `Alexa.EndpointHealth`/`connectivity` with value `{"value": "OK"}` |
| `SmartHomeHandler.PowerEnvelope` | AlexaLambda.py:118-120 | the builder's envelope is a `Response` with the token under `correlation_token`, endpointId `INVALID`, an empty payload, and a context holding exactly those two properties, the power state first |
| `SmartHomeHandler.PowerResponse` | AlexaLambda.py:118-120 | the power branch after a successful publish returns that envelope |
| `SmartHomeHandler.StateReport` | AlexaLambda.py:143-178 | a `StateReport` with one `Alexa.BrightnessController`/`brightness` property carrying the luminosity with uncertainty 500, and with the request's correlation token (under `correlationToken`, with no `correlation_token`) and endpoint id echoed back under a `BearerToken` scope |
| `SmartHomeHandler.LambdaHandler` | AlexaLambda.py:39-180 | validation first (no directive gives `INVALID_DIRECTIVE`; a version other than `3` gives `INTERNAL_ERROR`) and neither reaches a collaborator; only the power route publishes, with the desired power, and a failed publish gives `ENDPOINT_UNREACHABLE`; only the state-report route queries the store; each handled route returns its envelope; exactly the unhandled pairs return nothing |

## Left out

- The DynamoDB query and the IoT-data publish (lines 128-134, 194-201) are network I/O. Their results are inputs: the publish outcome and the luminosity. The handler returns the message it would publish and whether it would query the store.
- An empty query result, which raises `IndexError` at line 135, is not modelled: the luminosity is always supplied. The fixed serial number and table name of the query are not modelled either.
- `uuid.uuid4()`, `datetime.now` and `random.randint` are nondeterministic. Their values are parameters: the message id, the two timestamps and the drawn number.
- The `Decimal` luminosity and its `str()` conversion (line 151) are taken as an already converted, opaque string.
- `print`, `json.dumps` and `send_response` (lines 42-48, 135, 138, 184-187) are logging, and `send_response` is the identity on its argument. They are not modelled, nor is the `context` argument of the handler.
- `add_cookie` (lines 253-258) is not modelled. The test `"cookies" in self` raises `TypeError` on this class, so the method has no defined behaviour.
- The grant code and grantee token read at lines 76-77 are never used. They are not part of the request datatype, so the `KeyError` those reads can raise is not modelled either.
- `LambdaHandler`: a `KeyError` on a missing `header`, `payloadVersion`, `name`, `namespace`, `endpoint` or `correlationToken` is a precondition (`ReadableRequest`), not an answer. A header without `name` or `namespace` but with a version other than `3` is representable and gets `INTERNAL_ERROR`, as in the code.
- `LambdaHandler`: each request field that is present is a string. A non-string `name`, `namespace` or `payloadVersion` in a real request would only fail the comparisons in Python. A non-string `correlationToken` or `endpointId`, however, is never compared: the code copies it into the answer (lines 109, 118, 165, 174), and the model cannot represent that answer.
- `AlexaResponseBuilder.AlexaResponse.Get`: its precondition asks for a dict payload when there are endpoints to write into it. Python would raise `TypeError` on another payload.
- `AlexaResponseBuilder.AlexaResponse.SetPayloadEndpoints`: its precondition asks for a dict payload, for the same reason.
- Aliasing between Python dicts is not modelled. For example, `get()` returns the builder's own `context` and `event`, and `set_payload_endpoint` keeps the caller's list. Values stand in for them, so a later mutation through an alias is not visible in an earlier result.
- Dict insertion order is not modelled, because JSON objects are maps.
- Keyword arguments are narrowed to the types the code passes: strings, JSON values, lists, booleans and integers. An argument that is not supplied is `None`.
- JSON member names are a closed vocabulary. A cookie or payload that contains members outside it is not representable.
- `update_device_state` ignores its `endpoint_id` and `state` arguments and the unused `attribute_key` (line 191). The model passes only the value, and the “device set” flag is the publish outcome, an input, not the constant `True` of line 205.
- `DefaultEndpointId`: `"%0.6d"` is modelled only for the numbers 0..999999 that `random.randint(0, 999999)` can draw.
- `AlexaResponseBuilder.AlexaResponse.Valid`: the builder's invariant does not say that every accumulated property has the shape `create_context_property` gives it. That shape is stated per property in `CreateContextProperty`'s contract instead.
