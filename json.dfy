/** Optional values: `None` stands for a keyword argument that was not supplied. */
module Wrappers {

  datatype Option<+T> = None | Some(value: T) {

    /** The value, or `default` when there is none (Python's `kwargs.get(key, default)`). */
    function GetOr(default: T): T
    {
      match this
      case Some(v) => v
      case None => default
    }
  }
}

/** The JSON documents that the lambda receives and returns, as the Python code
    builds them out of dicts, lists, strings, integers and booleans. */
module JsonValue {
  import opened Wrappers

  /** The member names the lambda reads and writes, one constructor per
      spelling; `MemberName` gives the spelling on the wire. The builder's
      `correlation_token` and the hand-written report's `correlationToken`
      are two different members. */
  datatype Member =
    // envelope and event
    | Context | Event | Header | Endpoint | Payload
    // header
    | Namespace | Name | PayloadVersion | MessageId | SnakeCaseCorrelationToken | CorrelationToken
    // endpoint block
    | Scope | Type | Token | EndpointId | Cookie
    // context properties
    | Properties | Value | TimeOfSample | UncertaintyInMilliseconds
    // discovery payload
    | Endpoints | Capabilities | Description | DisplayCategories | FriendlyName | ManufacturerName
    | AdditionalAttributes | Manufacturer | Model | SerialNumber | FirmwareVersion | SoftwareVersion
    | CustomIdentifier | Interface | Version | Supported | ProactivelyReported | Retrievable
    // error payload and device-shadow document
    | Message | State | Desired | Power

  function MemberName(m: Member): string
  {
    match m
    case Context => "context"
    case Event => "event"
    case Header => "header"
    case Endpoint => "endpoint"
    case Payload => "payload"
    case Namespace => "namespace"
    case Name => "name"
    case PayloadVersion => "payloadVersion"
    case MessageId => "messageId"
    case SnakeCaseCorrelationToken => "correlation_token"
    case CorrelationToken => "correlationToken"
    case Scope => "scope"
    case Type => "type"
    case Token => "token"
    case EndpointId => "endpointId"
    case Cookie => "cookie"
    case Properties => "properties"
    case Value => "value"
    case TimeOfSample => "timeOfSample"
    case UncertaintyInMilliseconds => "uncertaintyInMilliseconds"
    case Endpoints => "endpoints"
    case Capabilities => "capabilities"
    case Description => "description"
    case DisplayCategories => "displayCategories"
    case FriendlyName => "friendlyName"
    case ManufacturerName => "manufacturerName"
    case AdditionalAttributes => "additionalAttributes"
    case Manufacturer => "manufacturer"
    case Model => "model"
    case SerialNumber => "serialNumber"
    case FirmwareVersion => "firmwareVersion"
    case SoftwareVersion => "softwareVersion"
    case CustomIdentifier => "customIdentifier"
    case Interface => "interface"
    case Version => "version"
    case Supported => "supported"
    case ProactivelyReported => "proactivelyReported"
    case Retrievable => "retrievable"
    case Message => "message"
    case State => "state"
    case Desired => "desired"
    case Power => "power"
  }

  datatype Json =
    | JNull
    | JBool(b: bool)
    | JInt(i: int)
    | JString(s: string)
    | JArray(items: seq<Json>)
    | JObject(fields: map<Member, Json>)

  /** `j[key]`: the member under `key` when `j` is an object that has it,
      `None` where Python would raise. */
  function Field(j: Json, key: Member): Option<Json>
  {
    if j.JObject? && key in j.fields then Some(j.fields[key]) else None
  }

  /** `o[key]` on a lookup that may already have failed: chains lookups so
      that a key missing anywhere along the way gives `None`. */
  function Sel(o: Option<Json>, key: Member): Option<Json>
  {
    match o
    case Some(j) => Field(j, key)
    case None => None
  }

  /** The empty dict `{}`. */
  const EmptyObject: Json := JObject(map[])
}
