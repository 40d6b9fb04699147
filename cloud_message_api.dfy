/**
 * The outgoing message API of src/CloudMessageAPI/index.ts: how `createStatus`,
 * `createMessage` and the ten shorthand aliases shape the JSON body and the
 * parameter record they hand to `GraphRequest.create`.
 *
 * The record is returned instead of a request being made. Its "body" property
 * holds the JSON value that the source passes to `JSON.stringify`.
 */
module CloudMessageApi {
  import opened Wrappers
  import opened JsonValue
  import opened JsString

  /** The API object; `createMessage` and friends only read its business id. */
  datatype CloudMessageAPI = CloudMessageAPI(businessID: string)

  /** The message types the shorthand aliases fix, with their wire names. */
  datatype MessageType =
    | Audio | Contacts | Document | Image | Interactive
    | Location | Sticker | Template | Text | Video
  {
    /** The enum's string value, used both as `type` and as the payload's key. */
    function Name(): string {
      match this
      case Audio => "audio"
      case Contacts => "contacts"
      case Document => "document"
      case Image => "image"
      case Interactive => "interactive"
      case Location => "location"
      case Sticker => "sticker"
      case Template => "template"
      case Text => "text"
      case Video => "video"
    }
  }

  /** The options object of `createMessage`; an omitted `requestProps` is `{}`. */
  datatype MessageOptions = MessageOptions(toNumber: string, replyMessageId: Option<string>, requestProps: Props)

  /** What a shorthand alias is: `createMessage` with its type already chosen. */
  type Sender = (Json, MessageOptions) -> Props

  /** The properties of the request record that the API always sets itself. */
  const OverriddenKeys: set<string> := {"endpoint", "method", "body", "headers"}

  /** `getEndpoint()`: the path every message request is posted to. */
  function Endpoint(api: CloudMessageAPI): (endpoint: string)
    ensures |endpoint| == |api.businessID| + 10
    ensures endpoint[..1] == "/" && endpoint[1..|endpoint| - 9] == api.businessID
    ensures endpoint[|endpoint| - 9..] == "/messages"
  {
    "/" + api.businessID + "/messages"
  }

  /** Different businesses post to different endpoints. */
  lemma EndpointDeterminesBusiness(a: CloudMessageAPI, b: CloudMessageAPI)
    ensures Endpoint(a) == Endpoint(b) <==> a == b
  {
    if Endpoint(a) == Endpoint(b) {
      var e := Endpoint(a);
      assert a.businessID == e[1..|e| - 9] == b.businessID;
    }
  }

  /** The entries `...requestProps.headers` spreads: none when there are no headers. */
  function CallerHeaders(requestProps: Props): map<string, Json> {
    if "headers" in requestProps && requestProps["headers"].JObject? then requestProps["headers"].fields else map[]
  }

  /**
   * The record handed to `GraphRequest.create`: the caller's `requestProps`,
   * overridden by the endpoint, the POST method, the body and the headers,
   * which are the caller's headers with `Content-Type` set to JSON.
   */
  function GraphRequestParams(api: CloudMessageAPI, body: Props, requestProps: Props): (params: Props)
    ensures params.Keys == requestProps.Keys + OverriddenKeys
    ensures forall k :: k in requestProps && k !in OverriddenKeys ==> params[k] == requestProps[k]
    ensures params["endpoint"] == JString(Endpoint(api))
    ensures params["method"] == JString("POST")
    ensures params["body"] == JObject(body)
    ensures params["headers"].JObject?
    ensures params["headers"].fields.Keys == CallerHeaders(requestProps).Keys + {"Content-Type"}
    ensures params["headers"].fields["Content-Type"] == JString("application/json")
    ensures forall k :: k in CallerHeaders(requestProps) && k != "Content-Type" ==>
      params["headers"].fields[k] == CallerHeaders(requestProps)[k]
  {
    requestProps + map[
      "endpoint" := JString(Endpoint(api)),
      "method" := JString("POST"),
      "body" := JObject(body),
      "headers" := JObject(CallerHeaders(requestProps)["Content-Type" := JString("application/json")])]
  }

  /**
   * The body of `createStatus`: `messaging_product` first, then the payload
   * spread over it, so a payload key of the same name wins.
   */
  function StatusBody(payload: Props): (body: Props)
    ensures body.Keys == payload.Keys + {"messaging_product"}
    ensures forall k :: k in payload ==> body[k] == payload[k]
    ensures body["messaging_product"] == JString("whatsapp") <==>
      "messaging_product" !in payload || payload["messaging_product"] == JString("whatsapp")
  {
    map["messaging_product" := JString("whatsapp")] + payload
  }

  /** `createStatus(payload, requestProps)`. */
  function CreateStatus(api: CloudMessageAPI, payload: Props, requestProps: Props): (params: Props)
    ensures params.Keys == requestProps.Keys + OverriddenKeys
    ensures params["endpoint"] == JString(Endpoint(api)) && params["method"] == JString("POST")
    ensures params["body"].JObject? && params["body"].fields.Keys == payload.Keys + {"messaging_product"}
    ensures forall k :: k in payload ==> params["body"].fields[k] == payload[k]
    ensures "messaging_product" !in payload ==> params["body"].fields["messaging_product"] == JString("whatsapp")
    ensures forall k :: k in requestProps && k !in OverriddenKeys ==> params[k] == requestProps[k]
    ensures params["headers"].JObject?
    ensures params["headers"].fields.Keys == CallerHeaders(requestProps).Keys + {"Content-Type"}
    ensures params["headers"].fields["Content-Type"] == JString("application/json")
    ensures forall k :: k in CallerHeaders(requestProps) && k != "Content-Type" ==>
      params["headers"].fields[k] == CallerHeaders(requestProps)[k]
  {
    GraphRequestParams(api, StatusBody(payload), requestProps)
  }

  /**
   * The body of `createMessage`: the four fixed fields, the payload under the
   * key named by the type, and `context` only for a non-empty reply id.
   */
  function MessageBody(t: MessageType, payload: Json, toNumber: string, replyMessageId: Option<string>): (body: Props)
    ensures body.Keys == {"messaging_product", "recipient_type", "to", "type", t.Name()}
                         + (if Truthy(replyMessageId) then {"context"} else {})
    ensures body["messaging_product"] == JString("whatsapp")
    ensures body["recipient_type"] == JString("individual")
    ensures body["to"] == JString(toNumber)
    ensures body["type"] == JString(t.Name())
    ensures body[t.Name()] == payload
    ensures "context" in body <==> Truthy(replyMessageId)
    ensures "context" in body ==> body["context"] == JObject(map["message_id" := JString(replyMessageId.value)])
  {
    var body := map[
      "messaging_product" := JString("whatsapp"),
      "recipient_type" := JString("individual"),
      "to" := JString(toNumber),
      "type" := JString(t.Name()),
      t.Name() := payload];
    if Truthy(replyMessageId) then
      body["context" := JObject(map["message_id" := JString(replyMessageId.value)])]
    else body
  }

  /** `createMessage(type, payload, options)`. */
  function CreateMessage(api: CloudMessageAPI, t: MessageType, payload: Json, options: MessageOptions): (params: Props)
    ensures params.Keys == options.requestProps.Keys + OverriddenKeys
    ensures params["endpoint"] == JString(Endpoint(api)) && params["method"] == JString("POST")
    ensures params["body"].JObject?
    ensures params["body"].fields.Keys == {"messaging_product", "recipient_type", "to", "type", t.Name()}
                                          + (if Truthy(options.replyMessageId) then {"context"} else {})
    ensures params["body"].fields["messaging_product"] == JString("whatsapp")
    ensures params["body"].fields["recipient_type"] == JString("individual")
    ensures params["body"].fields["to"] == JString(options.toNumber)
    ensures params["body"].fields["type"] == JString(t.Name()) && params["body"].fields[t.Name()] == payload
    ensures "context" in params["body"].fields <==> Truthy(options.replyMessageId)
    ensures "context" in params["body"].fields ==>
      params["body"].fields["context"] == JObject(map["message_id" := JString(options.replyMessageId.value)])
    ensures forall k :: k in options.requestProps && k !in OverriddenKeys ==> params[k] == options.requestProps[k]
    ensures params["headers"].JObject?
    ensures params["headers"].fields.Keys == CallerHeaders(options.requestProps).Keys + {"Content-Type"}
    ensures params["headers"].fields["Content-Type"] == JString("application/json")
    ensures forall k :: k in CallerHeaders(options.requestProps) && k != "Content-Type" ==>
      params["headers"].fields[k] == CallerHeaders(options.requestProps)[k]
  {
    GraphRequestParams(api, MessageBody(t, payload, options.toNumber, options.replyMessageId), options.requestProps)
  }

  /** `_shorthandAlias(type)`: `createMessage` bound to the API with the type fixed. */
  function ShorthandAlias(api: CloudMessageAPI, t: MessageType): (send: Sender)
    ensures forall payload, options :: send(payload, options) == CreateMessage(api, t, payload, options)
  {
    (payload, options) => CreateMessage(api, t, payload, options)
  }

  /** The ten alias fields of the API object, by property name. */
  function AliasField(api: CloudMessageAPI, name: string): Option<Sender> {
    match name
    case "audio" => Some(ShorthandAlias(api, Audio))
    case "contacts" => Some(ShorthandAlias(api, Contacts))
    case "document" => Some(ShorthandAlias(api, Document))
    case "image" => Some(ShorthandAlias(api, Image))
    case "interactive" => Some(ShorthandAlias(api, Interactive))
    case "location" => Some(ShorthandAlias(api, Location))
    case "sticker" => Some(ShorthandAlias(api, Sticker))
    case "template" => Some(ShorthandAlias(api, Template))
    case "text" => Some(ShorthandAlias(api, Text))
    case "video" => Some(ShorthandAlias(api, Video))
    case _ => None
  }

  /**
   * Each of the ten aliases is `createMessage` with its own type: the alias
   * named "image", say, sends a message whose `type` is "image" and whose
   * payload sits under "image".
   */
  lemma AliasFieldsSendTheirType(api: CloudMessageAPI, t: MessageType, payload: Json, options: MessageOptions)
    ensures AliasField(api, t.Name()).Some?
    ensures AliasField(api, t.Name()).value(payload, options) == CreateMessage(api, t, payload, options)
    ensures AliasField(api, t.Name()).value(payload, options)["body"].fields["type"] == JString(t.Name())
  {
    var send := AliasField(api, t.Name());
    match t
    case Audio => assert send == Some(ShorthandAlias(api, Audio));
    case Contacts => assert send == Some(ShorthandAlias(api, Contacts));
    case Document => assert send == Some(ShorthandAlias(api, Document));
    case Image => assert send == Some(ShorthandAlias(api, Image));
    case Interactive => assert send == Some(ShorthandAlias(api, Interactive));
    case Location => assert send == Some(ShorthandAlias(api, Location));
    case Sticker => assert send == Some(ShorthandAlias(api, Sticker));
    case Template => assert send == Some(ShorthandAlias(api, Template));
    case Text => assert send == Some(ShorthandAlias(api, Text));
    case Video => assert send == Some(ShorthandAlias(api, Video));
  }
}
