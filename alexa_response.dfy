/** The `AlexaResponse` envelope builder (AlexaLambda.py:212-344): an
    accumulator for one smart-home response. It keeps the `event` document
    (header, optional endpoint, payload), a `context` document and two ordered
    lists, the context properties and the payload endpoints, that `Get` merges
    into the envelope. */
module AlexaResponseBuilder {
  import opened Wrappers
  import opened JsonValue
  import opened Digits

  /** Keyword arguments of the constructor; `None` means "not supplied". */
  datatype ResponseArgs = ResponseArgs(
    namespace: Option<string>,
    name: Option<string>,
    payloadVersion: Option<string>,
    token: Option<string>,
    endpointId: Option<string>,
    payload: Option<Json>,
    correlationToken: Option<string>,
    cookie: Option<Json>)

  const NoResponseArgs: ResponseArgs := ResponseArgs(None, None, None, None, None, None, None, None)

  /** Keyword arguments of `create_context_property`. */
  datatype PropertyArgs = PropertyArgs(
    namespace: Option<string>,
    name: Option<string>,
    value: Option<Json>,
    uncertaintyInMilliseconds: Option<int>)

  const NoPropertyArgs: PropertyArgs := PropertyArgs(None, None, None, None)

  /** Keyword arguments of `create_payload_endpoint`. */
  datatype EndpointArgs = EndpointArgs(
    manufacturer: Option<string>,
    modelName: Option<string>,
    serialNumber: Option<string>,
    firmwareVersion: Option<string>,
    softwareVersion: Option<string>,
    customIdentifier: Option<string>,
    capabilities: Option<seq<Json>>,
    description: Option<string>,
    displayCategories: Option<seq<Json>>,
    endpointId: Option<string>,
    friendlyName: Option<string>,
    manufacturerName: Option<string>,
    additionalAttributes: Option<Json>,
    cookie: Option<Json>)

  const NoEndpointArgs: EndpointArgs :=
    EndpointArgs(None, None, None, None, None, None, None, None, None, None, None, None, None, None)

  /** Keyword arguments of `create_payload_endpoint_capability`. */
  datatype CapabilityArgs = CapabilityArgs(
    capabilityType: Option<string>,
    interface: Option<string>,
    version: Option<string>,
    supported: Option<seq<Json>>,
    proactivelyReported: Option<bool>,
    retrievable: Option<bool>)

  const NoCapabilityArgs: CapabilityArgs := CapabilityArgs(None, None, None, None, None, None)

  /** The number `random.randint(0, 999999)` draws for a generated endpoint id. */
  type EndpointNumber = n: nat | n <= 999999

  const HeaderKeys: set<Member> := {Namespace, Name, MessageId, PayloadVersion}
  const PropertyKeys: set<Member> := {Namespace, Name, Value, TimeOfSample, UncertaintyInMilliseconds}
  const EndpointKeys: set<Member> :=
    {Capabilities, Description, DisplayCategories, EndpointId, FriendlyName,
     ManufacturerName, AdditionalAttributes}
  const AttributeKeys: set<Member> :=
    {Manufacturer, Model, SerialNumber, FirmwareVersion, SoftwareVersion, CustomIdentifier}

  /** The response names whose envelope carries no `event.endpoint` block. */
  predicate OmitsEndpoint(name: string)
  {
    name == "AcceptGrant.Response" || name == "Discover.Response"
  }

  /** Python's truthiness of the `supported` argument: given and non-empty. */
  predicate Truthy(supported: Option<seq<Json>>)
  {
    supported.Some? && |supported.value| > 0
  }

  /** A context property as `create_context_property` shapes it: exactly the
      five keys, with string namespace, name and timestamp and an integer
      uncertainty. */
  predicate IsContextProperty(p: Json)
  {
    && p.JObject?
    && p.fields.Keys == PropertyKeys
    && p.fields[Namespace].JString?
    && p.fields[Name].JString?
    && p.fields[TimeOfSample].JString?
    && p.fields[UncertaintyInMilliseconds].JInt?
  }

  /** What the builder keeps true of `context`: it only ever receives the key
      `properties`, and only once there is a property to put there. */
  predicate ContextInvariant(context: map<Member, Json>, properties: seq<Json>)
  {
    context.Keys <= {Properties} && (Properties in context ==> |properties| > 0)
  }

  /** The generated endpoint id `'endpoint_' + "%0.6d" % n`. */
  function DefaultEndpointId(n: EndpointNumber): (id: string)
    ensures |id| == 15 && id[..9] == "endpoint_"
    ensures AllDigits(id[9..]) && DecimalValue(id[9..]) == n
  {
    var digits := ZeroPad(n, 6);
    ZeroPadRoundTrip(n, 6);
    assert ("endpoint_" + digits)[9..] == digits;
    "endpoint_" + digits
  }

  /** Distinct drawn numbers give distinct generated endpoint ids. */
  lemma DefaultEndpointIdInjective(n: EndpointNumber, m: EndpointNumber)
    ensures DefaultEndpointId(n) == DefaultEndpointId(m) <==> n == m
  {
    if DefaultEndpointId(n) == DefaultEndpointId(m) {
      assert DefaultEndpointId(n)[9..] == DefaultEndpointId(m)[9..];
    }
  }

  /** The header the constructor writes: defaults for namespace, name and
      version, the message id, and the correlation token only when supplied
      (under the key `correlation_token`). */
  function InitialHeader(args: ResponseArgs, messageId: string): (header: map<Member, Json>)
    ensures header.Keys == HeaderKeys + (if args.correlationToken.Some? then {SnakeCaseCorrelationToken} else {})
    ensures header[Namespace] == JString(args.namespace.GetOr("Alexa"))
    ensures header[Name] == JString(args.name.GetOr("Response"))
    ensures header[MessageId] == JString(messageId)
    ensures header[PayloadVersion] == JString(args.payloadVersion.GetOr("3"))
    ensures args.correlationToken.Some? ==> header[SnakeCaseCorrelationToken] == JString(args.correlationToken.value)
    ensures CorrelationToken !in header
  {
    var header := map[
      Namespace := JString(args.namespace.GetOr("Alexa")),
      Name := JString(args.name.GetOr("Response")),
      MessageId := JString(messageId),
      PayloadVersion := JString(args.payloadVersion.GetOr("3"))];
    match args.correlationToken
    case Some(t) => header[SnakeCaseCorrelationToken := JString(t)]
    case None => header
  }

  /** The endpoint block the constructor writes: a bearer-token scope, the
      endpoint id, and the cookie only when supplied. */
  function InitialEndpoint(args: ResponseArgs): (endpoint: map<Member, Json>)
    ensures endpoint.Keys == {Scope, EndpointId} + (if args.cookie.Some? then {Cookie} else {})
    ensures Sel(Field(JObject(endpoint), Scope), Type) == Some(JString("BearerToken"))
    ensures Sel(Field(JObject(endpoint), Scope), Token) == Some(JString(args.token.GetOr("INVALID")))
    ensures endpoint[EndpointId] == JString(args.endpointId.GetOr("INVALID"))
    ensures args.cookie.Some? ==> endpoint[Cookie] == args.cookie.value
  {
    var endpoint := map[
      Scope := JObject(map[Type := JString("BearerToken"), Token := JString(args.token.GetOr("INVALID"))]),
      EndpointId := JString(args.endpointId.GetOr("INVALID"))];
    match args.cookie
    case Some(c) => endpoint[Cookie := c]
    case None => endpoint
  }

  /** The `event` document the constructor leaves behind: the header, the
      endpoint block unless the response is an AcceptGrant or Discover
      response, and the payload, `{}` unless one is supplied. */
  function InitialEvent(args: ResponseArgs, messageId: string): (event: map<Member, Json>)
    ensures Endpoint in event <==> !OmitsEndpoint(args.name.GetOr("Response"))
    ensures event.Keys - {Endpoint} == {Header, Payload}
    ensures event[Header] == JObject(InitialHeader(args, messageId))
    ensures Endpoint in event ==> event[Endpoint] == JObject(InitialEndpoint(args))
    ensures event[Payload] == args.payload.GetOr(EmptyObject)
  {
    var event := map[
      Header := JObject(InitialHeader(args, messageId)),
      Endpoint := JObject(InitialEndpoint(args)),
      Payload := args.payload.GetOr(EmptyObject)];
    if OmitsEndpoint(args.name.GetOr("Response")) then event - {Endpoint} else event
  }

  /** `self.context` after `get()`: the property list is written under
      `properties` when it is non-empty; nothing else is touched. */
  function MergedContext(context: map<Member, Json>, properties: seq<Json>): (merged: map<Member, Json>)
    ensures merged.Keys == context.Keys + (if |properties| > 0 then {Properties} else {})
    ensures |properties| > 0 ==> merged[Properties] == JArray(properties)
    ensures |properties| == 0 ==> merged == context
  {
    if |properties| > 0 then context[Properties := JArray(properties)] else context
  }

  /** `self.event` after `get()`: the endpoint list is written into the payload
      under `endpoints` when it is non-empty; nothing else is touched. */
  function MergedEvent(event: map<Member, Json>, endpoints: seq<Json>): (merged: map<Member, Json>)
    requires Payload in event
    requires |endpoints| > 0 ==> event[Payload].JObject?
    ensures merged.Keys == event.Keys
    ensures |endpoints| == 0 ==> merged[Payload] == event[Payload]
    ensures |endpoints| > 0 ==>
              && merged[Payload].JObject?
              && merged[Payload].fields.Keys == event[Payload].fields.Keys + {Endpoints}
              && Field(merged[Payload], Endpoints) == Some(JArray(endpoints))
  {
    if |endpoints| > 0 then
      event[Payload := JObject(event[Payload].fields[Endpoints := JArray(endpoints)])]
    else
      event
  }

  /** The merges touch only what they write: every other member of the
      context, of the event and of its payload keeps its value. */
  lemma MergeLeavesRestUnchanged(context: map<Member, Json>, properties: seq<Json>,
                                 event: map<Member, Json>, endpoints: seq<Json>)
    requires Payload in event
    requires |endpoints| > 0 ==> event[Payload].JObject?
    ensures forall k :: k in context && k != Properties ==> MergedContext(context, properties)[k] == context[k]
    ensures forall k :: k in event && k != Payload ==> MergedEvent(event, endpoints)[k] == event[k]
    ensures |endpoints| > 0 ==>
              forall k :: k in event[Payload].fields && k != Endpoints ==>
                MergedEvent(event, endpoints)[Payload].fields[k] == event[Payload].fields[k]
  {
  }

  /** The document `get()` returns: `event`, and `context` unless it is empty
      and `removeEmpty` asks for it to be dropped. */
  function Envelope(context: map<Member, Json>, event: map<Member, Json>, removeEmpty: bool): (r: Json)
    ensures r.JObject? && r.fields.Keys <= {Context, Event}
    ensures Field(r, Event) == Some(JObject(event))
    ensures Context in r.fields <==> !removeEmpty || |context| > 0
    ensures Context in r.fields ==> r.fields[Context] == JObject(context)
  {
    if removeEmpty && |context| < 1 then
      JObject(map[Event := JObject(event)])
    else
      JObject(map[Context := JObject(context), Event := JObject(event)])
  }

  /** `r['event'][key]`. */
  function EventMember(r: Json, key: Member): Option<Json>
  {
    Sel(Field(r, Event), key)
  }

  /** `r['event']['header'][key]`. */
  function HeaderMember(r: Json, key: Member): Option<Json>
  {
    Sel(EventMember(r, Header), key)
  }

  /** `r['event']['endpoint'][key]`. */
  function EndpointMember(r: Json, key: Member): Option<Json>
  {
    Sel(EventMember(r, Endpoint), key)
  }

  /** The event `get()` leaves behind in a builder that went from the
      constructor through appends only: the constructor's header and
      endpoint block, and its payload with the endpoints written in when
      there are any. */
  lemma BuiltEvent(args: ResponseArgs, messageId: string, endpoints: seq<Json>)
    requires |endpoints| > 0 ==> args.payload.GetOr(EmptyObject).JObject?
    ensures var event := MergedEvent(InitialEvent(args, messageId), endpoints);
            && Header in event && event[Header] == JObject(InitialHeader(args, messageId))
            && (Endpoint in event <==> !OmitsEndpoint(args.name.GetOr("Response")))
            && (Endpoint in event ==> event[Endpoint] == JObject(InitialEndpoint(args)))
            && Payload in event
            && (|endpoints| == 0 ==> event[Payload] == args.payload.GetOr(EmptyObject))
            && (|endpoints| > 0 ==> Field(event[Payload], Endpoints) == Some(JArray(endpoints)))
  {
    var initial := InitialEvent(args, messageId);
    MergeLeavesRestUnchanged(map[], [], initial, endpoints);
  }

  /** What `get()` returns from a builder that went from the constructor
      through appends only: the event of `BuiltEvent`, and a `context`
      holding the properties exactly when there are any. */
  lemma BuiltEnvelope(args: ResponseArgs, messageId: string, properties: seq<Json>, endpoints: seq<Json>)
    requires |endpoints| > 0 ==> args.payload.GetOr(EmptyObject).JObject?
    ensures var r := Envelope(MergedContext(map[], properties),
                              MergedEvent(InitialEvent(args, messageId), endpoints), true);
            && EventMember(r, Header) == Some(JObject(InitialHeader(args, messageId)))
            && EventMember(r, Endpoint) ==
                 (if OmitsEndpoint(args.name.GetOr("Response")) then None else Some(JObject(InitialEndpoint(args))))
            && (|endpoints| == 0 ==> EventMember(r, Payload) == Some(args.payload.GetOr(EmptyObject)))
            && (|endpoints| > 0 ==> Sel(EventMember(r, Payload), Endpoints) == Some(JArray(endpoints)))
            && (Field(r, Context).Some? <==> |properties| > 0)
            && (|properties| > 0 ==> Sel(Field(r, Context), Properties) == Some(JArray(properties)))
  {
    var event := MergedEvent(InitialEvent(args, messageId), endpoints);
    BuiltEvent(args, messageId, endpoints);
    EnvelopeContextIffProperties(map[], properties, event);
    assert Field(Envelope(MergedContext(map[], properties), event, true), Event) == Some(JObject(event));
  }

  /** With empty contexts dropped, the envelope has a `context` exactly when
      a property was added, and then it holds the whole list, in order. */
  lemma EnvelopeContextIffProperties(context: map<Member, Json>, properties: seq<Json>,
                                     event: map<Member, Json>)
    requires ContextInvariant(context, properties)
    ensures var r := Envelope(MergedContext(context, properties), event, true);
            && (Context in r.fields <==> |properties| > 0)
            && (|properties| > 0 ==> Sel(Field(r, Context), Properties) == Some(JArray(properties)))
  {
    if |properties| == 0 {
      assert context.Keys == {};
      assert context == map[];
    } else {
      var merged := MergedContext(context, properties);
      assert Properties in merged;
      assert |merged| > 0;
    }
  }

  /** Merging is idempotent: a second `get()` writes back what the first one
      wrote, so both calls return the same document. */
  lemma MergeIdempotent(context: map<Member, Json>, properties: seq<Json>,
                        event: map<Member, Json>, endpoints: seq<Json>, removeEmpty: bool)
    requires Payload in event
    requires |endpoints| > 0 ==> event[Payload].JObject?
    ensures MergedContext(MergedContext(context, properties), properties) == MergedContext(context, properties)
    ensures MergedEvent(MergedEvent(event, endpoints), endpoints) == MergedEvent(event, endpoints)
    ensures Envelope(MergedContext(MergedContext(context, properties), properties),
                     MergedEvent(MergedEvent(event, endpoints), endpoints), removeEmpty)
         == Envelope(MergedContext(context, properties), MergedEvent(event, endpoints), removeEmpty)
  {
    if |endpoints| > 0 {
      var payload := event[Payload].fields;
      assert payload[Endpoints := JArray(endpoints)][Endpoints := JArray(endpoints)]
          == payload[Endpoints := JArray(endpoints)];
    }
  }

  class AlexaResponse {
    var contextProperties: seq<Json>
    var payloadEndpoints: seq<Json>
    var context: map<Member, Json>
    var event: map<Member, Json>

    /** The builder's invariant: the event has a header object and a payload,
        and the context is kept by `ContextInvariant`. */
    ghost predicate Valid()
      reads this
    {
      && Header in event && event[Header].JObject?
      && Payload in event
      && ContextInvariant(context, contextProperties)
    }

    /** `__init__`: empty lists and context, and the event of `InitialEvent`. */
    constructor (args: ResponseArgs, messageId: string)
      ensures Valid()
      ensures contextProperties == [] && payloadEndpoints == [] && context == map[]
      ensures event == InitialEvent(args, messageId)
    {
      contextProperties := [];
      payloadEndpoints := [];
      context := map[];
      var header := map[
        Namespace := JString(args.namespace.GetOr("Alexa")),
        Name := JString(args.name.GetOr("Response")),
        MessageId := JString(messageId),
        PayloadVersion := JString(args.payloadVersion.GetOr("3"))];
      var endpoint := map[
        Scope := JObject(map[
          Type := JString("BearerToken"),
          Token := JString(args.token.GetOr("INVALID"))]),
        EndpointId := JString(args.endpointId.GetOr("INVALID"))];
      if args.correlationToken.Some? {
        header := header[SnakeCaseCorrelationToken := JString(args.correlationToken.value)];
      }
      if args.cookie.Some? {
        endpoint := endpoint[Cookie := args.cookie.value];
      }
      event := map[
        Header := JObject(header),
        Endpoint := JObject(endpoint),
        Payload := args.payload.GetOr(EmptyObject)];
      if header[Name] == JString("AcceptGrant.Response") || header[Name] == JString("Discover.Response") {
        event := event - {Endpoint};
      }
    }

    /** `add_context_property`: appends the requested property and then, as the
        code does on every call, a default `Alexa.EndpointHealth`/`connectivity`
        property. Each has its own timestamp. */
    method AddContextProperty(args: PropertyArgs, requestedSample: string, defaultSample: string)
      requires Valid()
      modifies this`contextProperties
      ensures Valid()
      ensures payloadEndpoints == old(payloadEndpoints) && context == old(context) && event == old(event)
      ensures contextProperties == old(contextProperties)
                + [CreateContextProperty(args, requestedSample), CreateContextProperty(NoPropertyArgs, defaultSample)]
    {
      contextProperties := contextProperties + [CreateContextProperty(args, requestedSample)];
      contextProperties := contextProperties + [CreateContextProperty(NoPropertyArgs, defaultSample)];
    }

    /** `add_payload_endpoint`: appends one endpoint descriptor. */
    method AddPayloadEndpoint(args: EndpointArgs, drawn: EndpointNumber)
      requires Valid()
      modifies this`payloadEndpoints
      ensures Valid()
      ensures contextProperties == old(contextProperties) && context == old(context) && event == old(event)
      ensures payloadEndpoints == old(payloadEndpoints) + [CreatePayloadEndpoint(args, drawn)]
    {
      payloadEndpoints := payloadEndpoints + [CreatePayloadEndpoint(args, drawn)];
    }

    /** `create_context_property`: a property with defaults for what was not
        supplied; reads no builder state. */
    static function CreateContextProperty(args: PropertyArgs, timeOfSample: string): (p: Json)
      ensures IsContextProperty(p)
      ensures Field(p, Namespace) == Some(JString(args.namespace.GetOr("Alexa.EndpointHealth")))
      ensures Field(p, Name) == Some(JString(args.name.GetOr("connectivity")))
      ensures Field(p, Value) == Some(args.value.GetOr(JObject(map[Value := JString("OK")])))
      ensures Field(p, TimeOfSample) == Some(JString(timeOfSample))
      ensures Field(p, UncertaintyInMilliseconds) == Some(JInt(args.uncertaintyInMilliseconds.GetOr(0)))
    {
      JObject(map[
        Namespace := JString(args.namespace.GetOr("Alexa.EndpointHealth")),
        Name := JString(args.name.GetOr("connectivity")),
        Value := args.value.GetOr(JObject(map[Value := JString("OK")])),
        TimeOfSample := JString(timeOfSample),
        UncertaintyInMilliseconds := JInt(args.uncertaintyInMilliseconds.GetOr(0))])
    }

    /** The default `additionalAttributes` block of an endpoint descriptor. */
    static function DefaultAdditionalAttributes(args: EndpointArgs): (a: Json)
      ensures a.JObject? && a.fields.Keys == AttributeKeys
      ensures Field(a, Manufacturer) == Some(JString(args.manufacturer.GetOr("Oliver e Maria")))
      ensures Field(a, Model) == Some(JString(args.modelName.GetOr("Sample Model")))
      ensures Field(a, SerialNumber) == Some(JString(args.serialNumber.GetOr("U11112233456")))
      ensures Field(a, FirmwareVersion) == Some(JString(args.firmwareVersion.GetOr("1.24.2546")))
      ensures Field(a, SoftwareVersion) == Some(JString(args.softwareVersion.GetOr("1.036")))
      ensures Field(a, CustomIdentifier) == Some(JString(args.customIdentifier.GetOr("Sample custom ID")))
    {
      JObject(map[
        Manufacturer := JString(args.manufacturer.GetOr("Oliver e Maria")),
        Model := JString(args.modelName.GetOr("Sample Model")),
        SerialNumber := JString(args.serialNumber.GetOr("U11112233456")),
        FirmwareVersion := JString(args.firmwareVersion.GetOr("1.24.2546")),
        SoftwareVersion := JString(args.softwareVersion.GetOr("1.036")),
        CustomIdentifier := JString(args.customIdentifier.GetOr("Sample custom ID"))])
    }

    /** `create_payload_endpoint`: an endpoint descriptor; without an id it gets
        `endpoint_` and the drawn number in six digits. Reads no builder state. */
    static function CreatePayloadEndpoint(args: EndpointArgs, drawn: EndpointNumber): (e: Json)
      ensures e.JObject?
      ensures e.fields.Keys == EndpointKeys + (if args.cookie.Some? then {Cookie} else {})
      ensures e.fields[EndpointId] == JString(if args.endpointId.Some? then args.endpointId.value else DefaultEndpointId(drawn))
      ensures e.fields[Capabilities] == JArray(args.capabilities.GetOr([]))
      ensures e.fields[Description] == JString(args.description.GetOr("Smart Light for PSI3541"))
      ensures e.fields[DisplayCategories] == JArray(args.displayCategories.GetOr([JString("LIGHT")]))
      ensures e.fields[FriendlyName] == JString(args.friendlyName.GetOr("Smart Light"))
      ensures e.fields[ManufacturerName] == JString(args.manufacturerName.GetOr("Oliver e Maria"))
      ensures e.fields[AdditionalAttributes] == args.additionalAttributes.GetOr(DefaultAdditionalAttributes(args))
      ensures args.cookie.Some? ==> e.fields[Cookie] == args.cookie.value
    {
      var endpoint := map[
        Capabilities := JArray(args.capabilities.GetOr([])),
        Description := JString(args.description.GetOr("Smart Light for PSI3541")),
        DisplayCategories := JArray(args.displayCategories.GetOr([JString("LIGHT")])),
        EndpointId := JString(args.endpointId.GetOr(DefaultEndpointId(drawn))),
        FriendlyName := JString(args.friendlyName.GetOr("Smart Light")),
        ManufacturerName := JString(args.manufacturerName.GetOr("Oliver e Maria")),
        AdditionalAttributes := args.additionalAttributes.GetOr(DefaultAdditionalAttributes(args))];
      match args.cookie
      case Some(c) => JObject(endpoint[Cookie := c])
      case None => JObject(endpoint)
    }

    /** `create_payload_endpoint_capability`: a capability descriptor, with a
        `properties` block exactly when a non-empty `supported` list is given.
        Reads no builder state. */
    static function CreatePayloadEndpointCapability(args: CapabilityArgs): (c: Json)
      ensures c.JObject?
      ensures c.fields.Keys == {Type, Interface, Version} + (if Truthy(args.supported) then {Properties} else {})
      ensures Field(c, Type) == Some(JString(args.capabilityType.GetOr("AlexaInterface")))
      ensures Field(c, Interface) == Some(JString(args.interface.GetOr("Alexa")))
      ensures Field(c, Version) == Some(JString(args.version.GetOr("3")))
      ensures Truthy(args.supported) ==>
                && Sel(Field(c, Properties), Supported) == Some(JArray(args.supported.value))
                && Sel(Field(c, Properties), ProactivelyReported) == Some(JBool(args.proactivelyReported.GetOr(true)))
                && Sel(Field(c, Properties), Retrievable) == Some(JBool(args.retrievable.GetOr(true)))
                && c.fields[Properties].JObject?
                && c.fields[Properties].fields.Keys == {Supported, ProactivelyReported, Retrievable}
    {
      var capability := map[
        Type := JString(args.capabilityType.GetOr("AlexaInterface")),
        Interface := JString(args.interface.GetOr("Alexa")),
        Version := JString(args.version.GetOr("3"))];
      if Truthy(args.supported) then
        JObject(capability[Properties := JObject(map[
          Supported := JArray(args.supported.value),
          ProactivelyReported := JBool(args.proactivelyReported.GetOr(true)),
          Retrievable := JBool(args.retrievable.GetOr(true))])])
      else
        JObject(capability)
    }

    /** `get()`: merges the lists into `context` and the payload, and returns
        the envelope. The lists themselves are left as they are. */
    method Get(removeEmpty: bool) returns (response: Json)
      requires Valid()
      requires |payloadEndpoints| > 0 ==> event[Payload].JObject?
      modifies this`context, this`event
      ensures Valid()
      ensures contextProperties == old(contextProperties) && payloadEndpoints == old(payloadEndpoints)
      ensures context == MergedContext(old(context), contextProperties)
      ensures event == MergedEvent(old(event), payloadEndpoints)
      ensures response == Envelope(context, event, removeEmpty)
    {
      MergeContextProperties();
      MergePayloadEndpoints();
      if removeEmpty && |context| < 1 {
        response := JObject(map[Event := JObject(event)]);
      } else {
        response := JObject(map[Context := JObject(context), Event := JObject(event)]);
      }
    }

    /** The first step of `get()`: the property list goes under `properties`. */
    method MergeContextProperties()
      requires Valid()
      modifies this`context
      ensures Valid()
      ensures contextProperties == old(contextProperties) && payloadEndpoints == old(payloadEndpoints)
      ensures event == old(event)
      ensures context == MergedContext(old(context), contextProperties)
    {
      if |contextProperties| > 0 {
        context := context[Properties := JArray(contextProperties)];
      }
    }

    /** The second step of `get()`: the endpoint list goes into the payload. */
    method MergePayloadEndpoints()
      requires Valid()
      requires |payloadEndpoints| > 0 ==> event[Payload].JObject?
      modifies this`event
      ensures Valid()
      ensures contextProperties == old(contextProperties) && payloadEndpoints == old(payloadEndpoints)
      ensures context == old(context)
      ensures event == MergedEvent(old(event), payloadEndpoints)
    {
      if |payloadEndpoints| > 0 {
        var payload := event[Payload].fields;
        event := event[Payload := JObject(payload[Endpoints := JArray(payloadEndpoints)])];
      }
    }

    /** `set_payload`: replaces the event payload. */
    method SetPayload(payload: Json)
      requires Valid()
      modifies this`event
      ensures Valid()
      ensures contextProperties == old(contextProperties) && payloadEndpoints == old(payloadEndpoints)
      ensures context == old(context)
      ensures event == old(event)[Payload := payload]
    {
      event := event[Payload := payload];
    }

    /** `set_payload_endpoint`: replaces the accumulated endpoint list. */
    method SetPayloadEndpoint(endpoints: seq<Json>)
      requires Valid()
      modifies this`payloadEndpoints
      ensures Valid()
      ensures contextProperties == old(contextProperties) && context == old(context) && event == old(event)
      ensures payloadEndpoints == endpoints
    {
      payloadEndpoints := endpoints;
    }

    /** `set_payload_endpoints`: writes a list straight into the payload under
        `endpoints`, whether or not the key was there. */
    method SetPayloadEndpoints(endpoints: seq<Json>)
      requires Valid()
      requires event[Payload].JObject?
      modifies this`event
      ensures Valid()
      ensures contextProperties == old(contextProperties) && payloadEndpoints == old(payloadEndpoints)
      ensures context == old(context)
      ensures event[Payload].JObject?
      ensures event == old(event)[Payload := JObject(old(event)[Payload].fields[Endpoints := JArray(endpoints)])]
    {
      ghost var original := event[Payload].fields;
      if Endpoints !in event[Payload].fields {
        event := event[Payload := JObject(event[Payload].fields[Endpoints := JArray([])])];
      }
      var payload := event[Payload].fields;
      assert payload[Endpoints := JArray(endpoints)] == original[Endpoints := JArray(endpoints)];
      event := event[Payload := JObject(payload[Endpoints := JArray(endpoints)])];
    }
  }
}
