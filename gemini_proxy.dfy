/** The Netlify function that proxies the chat UI's requests to the Gemini
    API while keeping the API key on the server.

    One call of `handler` is a chain of guards, each of which may answer the
    request on its own: the HTTP method and body, the configured key, the
    parsed client object and its `apiType`/`model` fields, and the endpoint
    table. Only a request that passes every guard reaches the upstream, and
    the upstream's outcome is then turned into the reply envelope.

    The environment is abstract: the key is a parameter, JSON.parse is the
    function `parse`, and the upstream call (fetch plus reading the reply) is
    the function `fetch`. */
module GeminiProxy {
  import opened JsValues
  import Decimal

  const PostOnlyMessage := "Must be a POST request with a body."
  const MissingKeyMessage := "API Key Not Configured on Server."
  const MissingFieldsMessage := "Missing apiType or model in request body."
  const InvalidApiTypeMessage := "Invalid apiType specified."
  const ExecutionErrorMessage := "Internal Server Error during execution."
  const UpstreamStatusPrefix := "Gemini API returned status "

  /** The TypeError V8 throws when `const { apiType, ... } = clientPayload`
      meets a null client payload. */
  const NullClientMessage := "Cannot destructure property 'apiType' of 'clientPayload' as it is null."

  const ChatEndpointBase := "https://generativelanguage.googleapis.com/v1beta/models/"
  const GenerateContentQuery := ":generateContent?key="

  const SuccessHeaders := [("Content-Type", "application/json"), ("Access-Control-Allow-Origin", "*")]

  /** The incoming request; a body of None is a null or undefined body. */
  datatype Event = Event(httpMethod: string, body: Option<string>)

  /** A reply body: plain text, or JSON.stringify of a value. */
  datatype Body = Text(text: string) | Serialized(value: Json)

  datatype Response = Response(statusCode: int, headers: seq<(string, string)>, body: Body)

  /** A status for which the fetch response's `ok` is false. */
  type ErrorStatus = s: int | !(200 <= s < 300) witness 500

  /** What the upstream call comes to: an ok reply whose body `response.json()`
      decoded, a reply that is not ok with the text `response.text()` read,
      or an exception thrown by fetch or while reading the reply. */
  datatype Upstream =
    | Answered(data: Json)
    | Refused(status: ErrorStatus, errorText: string)
    | Threw(message: string)

  /** `const { apiType, model, ...geminiPayload } = clientPayload`. */
  datatype ClientFields = ClientFields(apiType: Option<Json>, model: Option<Json>, rest: seq<(string, Json)>)

  /** The outcome of the guards: an answer given without any upstream call,
      or the endpoint and payload to forward. */
  datatype Decision = Reject(response: Response) | Forward(url: string, payload: Json)

  /** JavaScript truthiness of a string that may be null or undefined. */
  predicate Present(s: Option<string>) {
    s.Some? && s.value != ""
  }

  function ErrorBody(error: string): Json {
    JObject([("error", JString(error))])
  }

  function ErrorWithDetails(error: string, details: Json): Json {
    JObject([("error", JString(error)), ("details", details)])
  }

  /** The reply of the catch block for an exception with this message. */
  function ExecutionError(message: string): Response {
    Response(500, [], Serialized(ErrorWithDetails(ExecutionErrorMessage, JString(message))))
  }

  /** Object destructuring of the parsed client payload: null throws, an object
      gives its two fields and the rest, and any other value has neither field
      (arrays and strings contribute their indexed elements to the rest). */
  function Destructure(client: Json): (r: Completion<ClientFields>)
    ensures r.Throw? <==> client == JNull
    ensures r.Normal? && client.JObject? ==>
      r.value.apiType == Get(client.members, "apiType") && r.value.model == Get(client.members, "model")
    ensures r.Normal? && !client.JObject? ==> r.value.apiType == None && r.value.model == None
    ensures r.Normal? && client.JObject? ==> r.value.rest == Without(client.members, {"apiType", "model"})
    ensures client.JBool? || client.JNumber? ==> r == Normal(ClientFields(None, None, []))
    ensures r.Normal? ==> Get(r.value.rest, "apiType") == None && Get(r.value.rest, "model") == None
  {
    match client
    case JNull => Throw(NullClientMessage)
    case JObject(members) =>
      Normal(ClientFields(Get(members, "apiType"), Get(members, "model"), Without(members, {"apiType", "model"})))
    case JArray(items) =>
      IndexKeysAreDigits(|items|);
      Normal(ClientFields(None, None, IndexedMembers(items)))
    case JString(s) =>
      IndexKeysAreDigits(|s|);
      Normal(ClientFields(None, None, CharMembers(s)))
    case _ => Normal(ClientFields(None, None, []))
  }

  lemma IndexKeysAreDigits(n: nat)
    ensures forall i :: 0 <= i < n ==> Decimal.NatToDecimal(i) != "apiType" && Decimal.NatToDecimal(i) != "model"
  {
    forall i | 0 <= i < n
      ensures Decimal.NatToDecimal(i) != "apiType" && Decimal.NatToDecimal(i) != "model"
    {
      assert Decimal.IsDigit(Decimal.NatToDecimal(i)[0]);
    }
  }

  /** The generateContent URL for a model name and key, neither of them encoded. */
  function ChatEndpoint(model: string, key: string): string {
    ChatEndpointBase + model + GenerateContentQuery + key
  }

  /** A URL of the chat endpoint's shape for this key. */
  predicate IsChatEndpoint(url: string, key: string) {
    && |url| >= |ChatEndpointBase| + |GenerateContentQuery| + |key|
    && url[..|ChatEndpointBase|] == ChatEndpointBase
    && url[|url| - |GenerateContentQuery| - |key|..] == GenerateContentQuery + key
  }

  /** The model name read back out of a chat endpoint URL. */
  function ModelOfEndpoint(url: string, key: string): string
    requires IsChatEndpoint(url, key)
  {
    url[|ChatEndpointBase|..|url| - |GenerateContentQuery| - |key|]
  }

  lemma ChatEndpointRoundTrip(model: string, key: string)
    ensures IsChatEndpoint(ChatEndpoint(model, key), key)
    ensures ModelOfEndpoint(ChatEndpoint(model, key), key) == model
  {
    var url := ChatEndpoint(model, key);
    assert url == ChatEndpointBase + (model + (GenerateContentQuery + key));
    assert url[|url| - |GenerateContentQuery| - |key|..] == GenerateContentQuery + key;
  }

  lemma ChatEndpointOfModel(url: string, key: string)
    requires IsChatEndpoint(url, key)
    ensures ChatEndpoint(ModelOfEndpoint(url, key), key) == url
  {
    var m := ModelOfEndpoint(url, key);
    var cut := |url| - |GenerateContentQuery| - |key|;
    assert url == url[..|ChatEndpointBase|] + m + url[cut..];
  }

  /** The endpoint table: "chat" is the only apiType with an upstream endpoint,
      the generateContent URL of the model's string form. Only for "chat" is
      the template `${model}` evaluated, and that conversion may throw. */
  function Route(apiType: Json, model: Json, key: string): (r: Completion<Option<string>>)
    ensures apiType != JString("chat") ==> r == Normal(None)
    ensures apiType == JString("chat") ==> (r.Throw? <==> ToStringThrows(model))
    ensures r.Throw? ==> r.message == ToPrimitiveMessage
    ensures apiType == JString("chat") && !ToStringThrows(model) ==>
      r == Normal(Some(ChatEndpoint(ToJsString(model).value, key)))
    ensures r.Normal? && r.value.Some? ==>
      && apiType == JString("chat")
      && IsChatEndpoint(r.value.value, key)
      && ToJsString(model) == Normal(ModelOfEndpoint(r.value.value, key))
  {
    if apiType != JString("chat") then Normal(None)
    else
      match ToJsString(model)
      case Throw(message) => Throw(message)
      case Normal(text) =>
        ChatEndpointRoundTrip(text, key);
        Normal(Some(ChatEndpoint(text, key)))
  }

  /** Holds exactly when a request passes every guard: a POST with a body, a
      configured key, a body that parses to an object whose apiType is "chat"
      and whose model is truthy and converts to a string without throwing. */
  predicate ChatRequest(event: Event, apiKey: Option<string>, parse: string -> Completion<Json>) {
    && event.httpMethod == "POST"
    && Present(event.body)
    && Present(apiKey)
    && parse(event.body.value).Normal?
    && parse(event.body.value).value.JObject?
    && Get(parse(event.body.value).value.members, "apiType") == Some(JString("chat"))
    && Truthy(Get(parse(event.body.value).value.members, "model"))
    && !ToStringThrows(Get(parse(event.body.value).value.members, "model").value)
  }

  /** The guards of the handler, in the order the handler applies them. */
  function Gate(event: Event, apiKey: Option<string>, parse: string -> Completion<Json>): (d: Decision)
    ensures d.Forward? <==> ChatRequest(event, apiKey, parse)
    ensures d.Reject? ==> d.response.statusCode in {400, 500} && d.response.headers == []
    ensures d.Forward? ==> IsChatEndpoint(d.url, apiKey.value) && d.payload.JObject?
  {
    if event.httpMethod != "POST" || !Present(event.body) then
      Reject(Response(400, [], Text(PostOnlyMessage)))
    else if !Present(apiKey) then
      Reject(Response(500, [], Text(MissingKeyMessage)))
    else
      match parse(event.body.value)
      case Throw(message) => Reject(ExecutionError(message))
      case Normal(client) =>
        match Destructure(client)
        case Throw(message) => Reject(ExecutionError(message))
        case Normal(fields) =>
          if !Truthy(fields.apiType) || !Truthy(fields.model) then
            Reject(Response(400, [], Serialized(ErrorBody(MissingFieldsMessage))))
          else
            match Route(fields.apiType.value, fields.model.value, apiKey.value)
            case Throw(message) => Reject(ExecutionError(message))
            case Normal(None) => Reject(Response(400, [], Serialized(ErrorBody(InvalidApiTypeMessage))))
            case Normal(Some(url)) => Forward(url, JObject(fields.rest))
  }

  /** The `details` of an upstream error: the error text parsed as JSON, or
      `{ message: errorText }` when it does not parse. */
  function ErrorDetails(errorText: string, parse: string -> Completion<Json>): (details: Json)
    ensures parse(errorText).Normal? ==> details == parse(errorText).value
    ensures parse(errorText).Throw? ==> details == JObject([("message", JString(errorText))])
  {
    match parse(errorText)
    case Normal(v) => v
    case Throw(_) => JObject([("message", JString(errorText))])
  }

  /** The error message for an upstream status: the fixed prefix, then the
      status in decimal, as `${response.status}` writes it. */
  function UpstreamErrorMessage(status: int): (m: string)
    ensures |m| > |UpstreamStatusPrefix| && m[..|UpstreamStatusPrefix|] == UpstreamStatusPrefix
    ensures var digits := m[|UpstreamStatusPrefix|..];
      && (digits[0] == '-') == (status < 0)
      && (if digits[0] == '-' then Decimal.Canonical(digits[1..]) else Decimal.Canonical(digits))
  {
    var m := UpstreamStatusPrefix + Decimal.IntToDecimal(status);
    assert m[|UpstreamStatusPrefix|..] == Decimal.IntToDecimal(status);
    m
  }

  /** The reply envelope for the upstream's outcome. */
  function Classify(outcome: Upstream, parse: string -> Completion<Json>): (r: Response)
    ensures r.statusCode == 200 <==> outcome.Answered?
    ensures outcome.Answered? ==> r.headers == SuccessHeaders && r.body == Serialized(outcome.data)
    ensures !outcome.Answered? ==> r.headers == []
    ensures outcome.Refused? ==> r.statusCode == outcome.status
    ensures outcome.Refused? ==>
      r.body == Serialized(ErrorWithDetails(UpstreamErrorMessage(outcome.status), ErrorDetails(outcome.errorText, parse)))
    ensures outcome.Threw? ==> r == ExecutionError(outcome.message)
  {
    match outcome
    case Refused(status, errorText) =>
      Response(status, [], Serialized(ErrorWithDetails(UpstreamErrorMessage(status), ErrorDetails(errorText, parse))))
    case Answered(data) =>
      Response(200, SuccessHeaders, Serialized(data))
    case Threw(message) =>
      ExecutionError(message)
  }

  /** The whole handler: the guards, then, only for a forwarded request, one
      upstream call and its classification. */
  function Handler(event: Event, apiKey: Option<string>, parse: string -> Completion<Json>,
                   fetch: (string, Json) -> Upstream): (r: Response)
    ensures event.httpMethod != "POST" || !Present(event.body) ==>
      r == Response(400, [], Text(PostOnlyMessage))
    ensures event.httpMethod == "POST" && Present(event.body) && !Present(apiKey) ==>
      r == Response(500, [], Text(MissingKeyMessage))
    ensures r.statusCode == 200 <==>
      ChatRequest(event, apiKey, parse) && fetch(Gate(event, apiKey, parse).url, Gate(event, apiKey, parse).payload).Answered?
    ensures r.headers != [] <==> r.statusCode == 200
  {
    match Gate(event, apiKey, parse)
    case Reject(response) => response
    case Forward(url, payload) => Classify(fetch(url, payload), parse)
  }
}
