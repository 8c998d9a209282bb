/** The directive dispatcher `lambda_handler` (AlexaLambda.py:39-180): checks
    that the request is a version-3 directive, then routes on the directive's
    (namespace, name) pair and answers through an `AlexaResponse` builder, or,
    for a state report, with an envelope it writes out by hand.

    The two collaborators, the device-shadow publish and the state-store query,
    are not called: what the publish returns and the luminosity the query finds
    are inputs, and the handler returns the message it would publish and
    whether it would query the store. */
module SmartHomeHandler {
  import opened Wrappers
  import opened JsonValue
  import opened AlexaResponseBuilder

  /** `request['directive']['header']`; any of its members may be missing. */
  datatype RequestHeader = RequestHeader(
    namespace: Option<string>,
    name: Option<string>,
    payloadVersion: Option<string>,
    correlationToken: Option<string>)

  /** `request['directive']['endpoint']`. */
  datatype RequestEndpoint = RequestEndpoint(endpointId: string)

  datatype Directive = Directive(header: Option<RequestHeader>, endpoint: Option<RequestEndpoint>)

  /** The inbound request: `directive` may be missing. */
  datatype Request = Request(directive: Option<Directive>)

  /** Everything the handler takes from outside: the generated message id,
      the two timestamps `create_context_property` or the state report takes,
      the number drawn for a generated endpoint id, the outcome of the publish
      and the luminosity of the latest stored record. */
  datatype Environment = Environment(
    messageId: string,
    firstSample: string,
    secondSample: string,
    drawn: EndpointNumber,
    publishSucceeded: bool,
    luminosity: string)

  /** A message to the device's control channel. */
  datatype Publish = Publish(topic: string, qos: int, document: Json)

  const MissingDirectiveMessage := "Missing key: directive, Is the request a valid Alexa Directive?"
  const UnsupportedVersionMessage := "This skill only supports Smart Home API version 3"
  const UnreachableMessage := "Unable to reach endpoint database."
  const ShadowTopic := "$aws/things/my-esp32/shadow/update"

  /** The routing table: validation first, then the (namespace, name) pairs
      that are handled. Every name in the power-controller namespace is. */
  datatype Route = MissingDirective | UnsupportedVersion | AcceptGrant | Discover | PowerControl | ReportState | NoRoute

  /** The header reads every route makes: the version first, and the name
      and namespace only once the version is `3`. */
  predicate HeaderReadable(h: RequestHeader)
  {
    h.payloadVersion.Some? && (h.payloadVersion.value == "3" ==> h.name.Some? && h.namespace.Some?)
  }

  /** Validation comes first: a missing directive, then a version other than
      `3`, are decided before the (namespace, name) pair is looked at, and
      only a version-3 directive reaches one of the handled routes. */
  function RouteOf(request: Request): (route: Route)
    requires request.directive.Some? ==>
               request.directive.value.header.Some? && HeaderReadable(request.directive.value.header.value)
    ensures route == MissingDirective <==> request.directive.None?
    ensures route == UnsupportedVersion <==>
              request.directive.Some? && request.directive.value.header.value.payloadVersion.value != "3"
    ensures route != MissingDirective && route != UnsupportedVersion ==>
              request.directive.value.header.value.payloadVersion.value == "3"
    ensures route == PowerControl ==> request.directive.value.header.value.namespace == Some("Alexa.PowerController")
    ensures (&& request.directive.Some?
             && request.directive.value.header.value.payloadVersion == Some("3")
             && request.directive.value.header.value.namespace == Some("Alexa.PowerController"))
            ==> route == PowerControl
  {
    match request.directive
    case None => MissingDirective
    case Some(d) =>
      var h := d.header.value;
      if h.payloadVersion.value != "3" then UnsupportedVersion
      else
        var namespace, name := h.namespace.value, h.name.value;
        if namespace == "Alexa.Authorization" && name == "AcceptGrant" then AcceptGrant
        else if namespace == "Alexa.Discovery" && name == "Discover" then Discover
        else if namespace == "Alexa.PowerController" then PowerControl
        else if namespace == "Alexa" && name == "ReportState" then ReportState
        else NoRoute
  }

  /** The requests the code reads without a `KeyError`: a present directive
      has a header with a version, and with a name and namespace when the
      version is `3`; the power and state-report routes find the endpoint
      and the correlation token. */
  predicate ReadableRequest(request: Request)
  {
    request.directive.Some? ==>
      && request.directive.value.header.Some?
      && HeaderReadable(request.directive.value.header.value)
      && (RouteOf(request) == PowerControl || RouteOf(request) == ReportState ==>
            request.directive.value.endpoint.Some? && request.directive.value.header.value.correlationToken.Some?)
  }

  /** The power state a power-controller directive asks for. */
  function DesiredPower(name: string): (power: int)
    ensures power == 0 <==> name == "TurnOff"
    ensures power == 1 <==> name != "TurnOff"
  {
    if name == "TurnOff" then 0 else 1
  }

  /** `update_device_state`: the desired-state document it publishes, always to
      the same shadow topic, whatever the endpoint. */
  function ShadowUpdate(power: int): (p: Publish)
    ensures p.topic == ShadowTopic && p.qos == 1
    ensures p.document.JObject? && p.document.fields.Keys == {State}
    ensures p.document.fields[State].JObject? && p.document.fields[State].fields.Keys == {Desired}
    ensures var desired := p.document.fields[State].fields[Desired];
            desired.JObject? && desired.fields.Keys == {Power}
    ensures Sel(Sel(Field(p.document, State), Desired), Power) == Some(JInt(power))
  {
    Publish(ShadowTopic, 1, JObject(map[State := JObject(map[Desired := JObject(map[Power := JInt(power)])])]))
  }

  predicate HasHeader(r: Json, namespace: string, name: string, messageId: string)
  {
    && HeaderMember(r, Namespace) == Some(JString(namespace))
    && HeaderMember(r, Name) == Some(JString(name))
    && HeaderMember(r, PayloadVersion) == Some(JString("3"))
    && HeaderMember(r, MessageId) == Some(JString(messageId))
  }

  /** An `ErrorResponse` envelope with payload `{type, message}`, the
      constructor's default endpoint block and no context. */
  predicate IsErrorEnvelope(r: Json, kind: string, message: string, messageId: string)
  {
    && HasHeader(r, "Alexa", "ErrorResponse", messageId)
    && Sel(EndpointMember(r, Scope), Type) == Some(JString("BearerToken"))
    && Sel(EndpointMember(r, Scope), Token) == Some(JString("INVALID"))
    && EndpointMember(r, EndpointId) == Some(JString("INVALID"))
    && EventMember(r, Payload) == Some(JObject(map[Type := JString(kind), Message := JString(message)]))
    && Field(r, Context) == None
  }

  predicate IsAcceptGrantResponse(r: Json, messageId: string)
  {
    && HasHeader(r, "Alexa.Authorization", "AcceptGrant.Response", messageId)
    && EventMember(r, Endpoint) == None
    && EventMember(r, Payload) == Some(EmptyObject)
    && Field(r, Context) == None
  }

  /** A discovery capability: an `AlexaInterface` of version 3 for the given
      interface, with a properties block naming `supported` when there is one. */
  predicate IsCapability(c: Json, interface: string, supported: Option<string>)
  {
    && Field(c, Type) == Some(JString("AlexaInterface"))
    && Field(c, Interface) == Some(JString(interface))
    && Field(c, Version) == Some(JString("3"))
    && match supported
       case None => Field(c, Properties) == None
       case Some(property) =>
         && Sel(Field(c, Properties), Supported) == Some(JArray([JObject(map[Name := JString(property)])]))
         && Sel(Field(c, Properties), ProactivelyReported) == Some(JBool(true))
         && Sel(Field(c, Properties), Retrievable) == Some(JBool(true))
  }

  /** The single light bulb, with its four capabilities in order. */
  predicate IsDiscoveredBulb(e: Json)
  {
    && Field(e, EndpointId) == Some(JString("sample-bulb-01"))
    && Field(e, FriendlyName) == Some(JString("Test Light"))
    && match Field(e, Capabilities)
       case Some(JArray(cs)) =>
         && |cs| == 4
         && IsCapability(cs[0], "Alexa", None)
         && IsCapability(cs[1], "Alexa.EndpointHealth", Some("connectivity"))
         && IsCapability(cs[2], "Alexa.PowerController", Some("powerState"))
         && IsCapability(cs[3], "Alexa.BrightnessController", Some("brightness"))
       case _ => false
  }

  predicate IsDiscoverResponse(r: Json, messageId: string)
  {
    && HasHeader(r, "Alexa.Discovery", "Discover.Response", messageId)
    && EventMember(r, Endpoint) == None
    && Field(r, Context) == None
    && match Sel(EventMember(r, Payload), Endpoints)
       case Some(JArray(endpoints)) => |endpoints| == 1 && IsDiscoveredBulb(endpoints[0])
       case _ => false
  }

  /** A context property with the given contents. */
  predicate IsProperty(p: Json, namespace: string, name: string, value: Json, timeOfSample: string, uncertainty: int)
  {
    && IsContextProperty(p)
    && p.fields[Namespace] == JString(namespace)
    && p.fields[Name] == JString(name)
    && p.fields[Value] == value
    && p.fields[TimeOfSample] == JString(timeOfSample)
    && p.fields[UncertaintyInMilliseconds] == JInt(uncertainty)
  }

  /** The answer to a power directive: a plain `Response` whose context holds
      the new power state and then the default connectivity property. The
      builder files the correlation token under `correlation_token`. */
  predicate IsPowerResponse(r: Json, power: int, correlationToken: string, env: Environment)
  {
    && HasHeader(r, "Alexa", "Response", env.messageId)
    && HeaderMember(r, SnakeCaseCorrelationToken) == Some(JString(correlationToken))
    && HeaderMember(r, CorrelationToken) == None
    && EndpointMember(r, EndpointId) == Some(JString("INVALID"))
    && EventMember(r, Payload) == Some(EmptyObject)
    && match Sel(Field(r, Context), Properties)
       case Some(JArray(ps)) =>
         && |ps| == 2
         && IsProperty(ps[0], "Alexa.PowerController", "powerState", JInt(power), env.firstSample, 0)
         && IsProperty(ps[1], "Alexa.EndpointHealth", "connectivity",
                       JObject(map[Value := JString("OK")]), env.secondSample, 0)
       case _ => false
  }

  /** The hand-written state report: one brightness property carrying the
      stored luminosity, and the request's endpoint id and correlation token
      echoed back (the latter under `correlationToken`). */
  predicate IsStateReport(r: Json, correlationToken: string, endpointId: string, env: Environment)
  {
    && HasHeader(r, "Alexa", "StateReport", env.messageId)
    && HeaderMember(r, CorrelationToken) == Some(JString(correlationToken))
    && HeaderMember(r, SnakeCaseCorrelationToken) == None
    && EndpointMember(r, EndpointId) == Some(JString(endpointId))
    && Sel(EndpointMember(r, Scope), Type) == Some(JString("BearerToken"))
    && Sel(EndpointMember(r, Scope), Token) == Some(JString("access-token-from-Amazon"))
    && EventMember(r, Payload) == Some(EmptyObject)
    && match Sel(Field(r, Context), Properties)
       case Some(JArray(ps)) =>
         && |ps| == 1
         && IsProperty(ps[0], "Alexa.BrightnessController", "brightness", JString(env.luminosity), env.firstSample, 500)
       case _ => false
  }

  /** An `ErrorResponse` built the way the handler builds its three errors. */
  method ErrorResponse(kind: string, message: string, messageId: string) returns (response: Json)
    ensures IsErrorEnvelope(response, kind, message, messageId)
  {
    var payload := JObject(map[Type := JString(kind), Message := JString(message)]);
    var args := NoResponseArgs.(name := Some("ErrorResponse"), payload := Some(payload));
    var builder := new AlexaResponse(args, messageId);
    response := builder.Get(true);
    var event := InitialEvent(args, messageId);
    assert builder.event == event && builder.context == map[];
    assert Field(response, Event) == Some(JObject(event));
    assert Field(response, Context) == None;
    assert EventMember(response, Header) == Some(JObject(InitialHeader(args, messageId)));
    assert EventMember(response, Endpoint) == Some(JObject(InitialEndpoint(args)));
  }

  /** The AcceptGrant branch: accepts any grant. */
  method AcceptGrantResponse(messageId: string) returns (response: Json)
    ensures IsAcceptGrantResponse(response, messageId)
  {
    var args := NoResponseArgs.(namespace := Some("Alexa.Authorization"), name := Some("AcceptGrant.Response"));
    var builder := new AlexaResponse(args, messageId);
    response := builder.Get(true);
    var event := InitialEvent(args, messageId);
    assert builder.event == event && builder.context == map[];
    assert Field(response, Event) == Some(JObject(event));
    assert Field(response, Context) == None;
    assert EventMember(response, Header) == Some(JObject(InitialHeader(args, messageId)));
  }

  /** The capability the Discover branch declares for an interface with one
      supported property. */
  lemma SupportedCapability(interface: string, property: string)
    ensures IsCapability(
              AlexaResponse.CreatePayloadEndpointCapability(
                NoCapabilityArgs.(interface := Some(interface),
                                  supported := Some([JObject(map[Name := JString(property)])]))),
              interface, Some(property))
  {
    var args := NoCapabilityArgs.(interface := Some(interface),
                                  supported := Some([JObject(map[Name := JString(property)])]));
    assert Truthy(args.supported);
  }

  /** The endpoint the Discover branch declares, from its four capabilities. */
  lemma DiscoveredBulb(capabilities: seq<Json>, drawn: EndpointNumber)
    requires |capabilities| == 4
    requires IsCapability(capabilities[0], "Alexa", None)
    requires IsCapability(capabilities[1], "Alexa.EndpointHealth", Some("connectivity"))
    requires IsCapability(capabilities[2], "Alexa.PowerController", Some("powerState"))
    requires IsCapability(capabilities[3], "Alexa.BrightnessController", Some("brightness"))
    ensures IsDiscoveredBulb(
              AlexaResponse.CreatePayloadEndpoint(
                NoEndpointArgs.(friendlyName := Some("Test Light"), endpointId := Some("sample-bulb-01"),
                                capabilities := Some(capabilities)),
                drawn))
  {
  }

  /** The envelope the Discover branch's builder produces for its one endpoint. */
  lemma DiscoverEnvelope(args: ResponseArgs, messageId: string, bulb: Json,
                         context: map<Member, Json>, event: map<Member, Json>, response: Json)
    requires args == NoResponseArgs.(namespace := Some("Alexa.Discovery"), name := Some("Discover.Response"))
    requires IsDiscoveredBulb(bulb)
    requires context == MergedContext(map[], [])
    requires event == MergedEvent(InitialEvent(args, messageId), [bulb])
    requires response == Envelope(context, event, true)
    ensures IsDiscoverResponse(response, messageId)
  {
    BuiltEnvelope(args, messageId, [], [bulb]);
  }

  /** The four capabilities the Discover branch declares for the bulb, in the
      order it lists them. */
  method DiscoveryCapabilities() returns (capabilities: seq<Json>)
    ensures |capabilities| == 4
    ensures IsCapability(capabilities[0], "Alexa", None)
    ensures IsCapability(capabilities[1], "Alexa.EndpointHealth", Some("connectivity"))
    ensures IsCapability(capabilities[2], "Alexa.PowerController", Some("powerState"))
    ensures IsCapability(capabilities[3], "Alexa.BrightnessController", Some("brightness"))
  {
    var alexa := AlexaResponse.CreatePayloadEndpointCapability(NoCapabilityArgs);
    var power := AlexaResponse.CreatePayloadEndpointCapability(
      NoCapabilityArgs.(interface := Some("Alexa.PowerController"),
                        supported := Some([JObject(map[Name := JString("powerState")])])));
    var brightness := AlexaResponse.CreatePayloadEndpointCapability(
      NoCapabilityArgs.(interface := Some("Alexa.BrightnessController"),
                        supported := Some([JObject(map[Name := JString("brightness")])])));
    var health := AlexaResponse.CreatePayloadEndpointCapability(
      NoCapabilityArgs.(interface := Some("Alexa.EndpointHealth"),
                        supported := Some([JObject(map[Name := JString("connectivity")])])));
    SupportedCapability("Alexa.PowerController", "powerState");
    SupportedCapability("Alexa.BrightnessController", "brightness");
    SupportedCapability("Alexa.EndpointHealth", "connectivity");
    assert IsCapability(alexa, "Alexa", None);
    capabilities := [alexa, health, power, brightness];
  }

  /** The Discover branch's `add_payload_endpoint` call: the bulb, named
      `Test Light`, with the four capabilities. */
  method AddDiscoveredBulb(builder: AlexaResponse, drawn: EndpointNumber)
    requires builder.Valid() && builder.payloadEndpoints == []
    modifies builder`payloadEndpoints
    ensures builder.Valid()
    ensures |builder.payloadEndpoints| == 1 && IsDiscoveredBulb(builder.payloadEndpoints[0])
  {
    var capabilities := DiscoveryCapabilities();
    var endpointArgs := NoEndpointArgs.(
      friendlyName := Some("Test Light"), endpointId := Some("sample-bulb-01"),
      capabilities := Some(capabilities));
    builder.AddPayloadEndpoint(endpointArgs, drawn);
    DiscoveredBulb(capabilities, drawn);
  }

  /** The Discover branch: one endpoint for the light bulb. */
  method DiscoverResponse(messageId: string, drawn: EndpointNumber) returns (response: Json)
    ensures IsDiscoverResponse(response, messageId)
  {
    var args := NoResponseArgs.(namespace := Some("Alexa.Discovery"), name := Some("Discover.Response"));
    var builder := new AlexaResponse(args, messageId);
    AddDiscoveredBulb(builder, drawn);
    ghost var bulb := builder.payloadEndpoints[0];
    assert builder.payloadEndpoints == [bulb];
    response := builder.Get(true);
    DiscoverEnvelope(args, messageId, bulb, builder.context, builder.event, response);
  }

  /** The two properties the power branch's `add_context_property` call
      leaves in the builder: the requested power state and then the default
      connectivity property. */
  lemma PowerProperties(propertyArgs: PropertyArgs, power: int, env: Environment)
    requires propertyArgs ==
      NoPropertyArgs.(namespace := Some("Alexa.PowerController"), name := Some("powerState"), value := Some(JInt(power)))
    ensures IsProperty(AlexaResponse.CreateContextProperty(propertyArgs, env.firstSample),
                       "Alexa.PowerController", "powerState", JInt(power), env.firstSample, 0)
    ensures IsProperty(AlexaResponse.CreateContextProperty(NoPropertyArgs, env.secondSample),
                       "Alexa.EndpointHealth", "connectivity",
                       JObject(map[Value := JString("OK")]), env.secondSample, 0)
  {
  }

  /** The envelope the power branch's builder produces for its two properties:
      `Get`'s result from the constructor's state after the one
      `add_context_property` call. */
  lemma PowerEnvelope(args: ResponseArgs, propertyArgs: PropertyArgs, power: int, correlationToken: string,
                      env: Environment, context: map<Member, Json>, properties: seq<Json>,
                      event: map<Member, Json>, endpoints: seq<Json>, response: Json)
    requires args == NoResponseArgs.(correlationToken := Some(correlationToken))
    requires propertyArgs ==
      NoPropertyArgs.(namespace := Some("Alexa.PowerController"), name := Some("powerState"), value := Some(JInt(power)))
    requires context == map[] && event == InitialEvent(args, env.messageId) && endpoints == []
    requires properties == [AlexaResponse.CreateContextProperty(propertyArgs, env.firstSample),
                            AlexaResponse.CreateContextProperty(NoPropertyArgs, env.secondSample)]
    requires response == Envelope(MergedContext(context, properties), MergedEvent(event, endpoints), true)
    ensures IsPowerResponse(response, power, correlationToken, env)
  {
    PowerProperties(propertyArgs, power, env);
    BuiltEnvelope(args, env.messageId, properties, []);
  }

  /** The power branch after a successful publish. */
  method PowerResponse(power: int, correlationToken: string, env: Environment) returns (response: Json)
    ensures IsPowerResponse(response, power, correlationToken, env)
  {
    var args := NoResponseArgs.(correlationToken := Some(correlationToken));
    var builder := new AlexaResponse(args, env.messageId);
    var propertyArgs :=
      NoPropertyArgs.(namespace := Some("Alexa.PowerController"), name := Some("powerState"), value := Some(JInt(power)));
    builder.AddContextProperty(propertyArgs, env.firstSample, env.secondSample);
    ghost var context, event := builder.context, builder.event;
    response := builder.Get(true);
    PowerEnvelope(args, propertyArgs, power, correlationToken, env,
                  context, builder.contextProperties, event, builder.payloadEndpoints, response);
  }

  /** The ReportState branch's envelope, written out without the builder. */
  method StateReport(correlationToken: string, endpointId: string, env: Environment) returns (response: Json)
    ensures IsStateReport(response, correlationToken, endpointId, env)
  {
    var brightness := JObject(map[
      Namespace := JString("Alexa.BrightnessController"),
      Name := JString("brightness"),
      Value := JString(env.luminosity),
      TimeOfSample := JString(env.firstSample),
      UncertaintyInMilliseconds := JInt(500)]);
    var header := JObject(map[
      Namespace := JString("Alexa"),
      Name := JString("StateReport"),
      PayloadVersion := JString("3"),
      MessageId := JString(env.messageId),
      CorrelationToken := JString(correlationToken)]);
    var endpoint := JObject(map[
      Scope := JObject(map[Type := JString("BearerToken"), Token := JString("access-token-from-Amazon")]),
      EndpointId := JString(endpointId)]);
    response := JObject(map[
      Context := JObject(map[Properties := JArray([brightness])]),
      Event := JObject(map[Header := header, Endpoint := endpoint, Payload := EmptyObject])]);
  }

  /** `lambda_handler`: validation, then one answer per route; an unhandled
      (namespace, name) pair gets no answer. Only the power route publishes
      and only the state-report route queries the store. */
  method LambdaHandler(request: Request, env: Environment)
    returns (response: Option<Json>, published: Option<Publish>, storeQueried: bool)
    requires ReadableRequest(request)
    ensures published.Some? <==> RouteOf(request) == PowerControl
    ensures storeQueried <==> RouteOf(request) == ReportState
    ensures response.None? <==> RouteOf(request) == NoRoute
    ensures RouteOf(request) == MissingDirective ==>
              IsErrorEnvelope(response.value, "INVALID_DIRECTIVE", MissingDirectiveMessage, env.messageId)
    ensures RouteOf(request) == UnsupportedVersion ==>
              IsErrorEnvelope(response.value, "INTERNAL_ERROR", UnsupportedVersionMessage, env.messageId)
    ensures RouteOf(request) == AcceptGrant ==> IsAcceptGrantResponse(response.value, env.messageId)
    ensures RouteOf(request) == Discover ==> IsDiscoverResponse(response.value, env.messageId)
    ensures RouteOf(request) == PowerControl ==>
              var header := request.directive.value.header.value;
              var power := DesiredPower(header.name.value);
              && published == Some(ShadowUpdate(power))
              && if env.publishSucceeded
                 then IsPowerResponse(response.value, power, header.correlationToken.value, env)
                 else IsErrorEnvelope(response.value, "ENDPOINT_UNREACHABLE", UnreachableMessage, env.messageId)
    ensures RouteOf(request) == ReportState ==>
              IsStateReport(response.value, request.directive.value.header.value.correlationToken.value,
                            request.directive.value.endpoint.value.endpointId, env)
  {
    published, storeQueried := None, false;
    if request.directive.None? {
      var r := ErrorResponse("INVALID_DIRECTIVE", MissingDirectiveMessage, env.messageId);
      return Some(r), published, storeQueried;
    }
    var directive := request.directive.value;
    var header := directive.header.value;
    if header.payloadVersion.value != "3" {
      var r := ErrorResponse("INTERNAL_ERROR", UnsupportedVersionMessage, env.messageId);
      return Some(r), published, storeQueried;
    }
    var name := header.name.value;
    var namespace := header.namespace.value;
    if namespace == "Alexa.Authorization" {
      if name == "AcceptGrant" {
        var r := AcceptGrantResponse(env.messageId);
        return Some(r), published, storeQueried;
      }
    }
    if namespace == "Alexa.Discovery" {
      if name == "Discover" {
        var r := DiscoverResponse(env.messageId, env.drawn);
        return Some(r), published, storeQueried;
      }
    }
    if namespace == "Alexa.PowerController" {
      var endpointId := directive.endpoint.value.endpointId;
      var powerStateValue := if name == "TurnOff" then 0 else 1;
      var correlationToken := header.correlationToken.value;
      published := Some(ShadowUpdate(powerStateValue));
      var deviceSet := env.publishSucceeded;
      if !deviceSet {
        var r := ErrorResponse("ENDPOINT_UNREACHABLE", UnreachableMessage, env.messageId);
        return Some(r), published, storeQueried;
      }
      var r := PowerResponse(powerStateValue, correlationToken, env);
      return Some(r), published, storeQueried;
    }
    if namespace == "Alexa" {
      if name == "ReportState" {
        var endpointId := directive.endpoint.value.endpointId;
        var correlationToken := header.correlationToken.value;
        storeQueried := true;
        var r := StateReport(correlationToken, endpointId, env);
        return Some(r), published, storeQueried;
      }
    }
    response := None;
  }
}
