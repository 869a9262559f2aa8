/** Properties of the proxy handler that relate its reply to its inputs
    across several calls or several guards. "No upstream call is made" is
    stated as: the reply is the same whatever the upstream would do. */
module GeminiProxyProperties {
  import opened JsValues
  import opened GeminiProxy
  import Decimal

  /** The method/body guard and the key guard answer before the body is
      parsed, so neither JSON.parse nor the upstream can affect the reply. */
  lemma GuardsPrecedeParsing(event: Event, apiKey: Option<string>,
                             parse1: string -> Completion<Json>, parse2: string -> Completion<Json>,
                             fetch1: (string, Json) -> Upstream, fetch2: (string, Json) -> Upstream)
    requires event.httpMethod != "POST" || !Present(event.body) || !Present(apiKey)
    ensures Handler(event, apiKey, parse1, fetch1) == Handler(event, apiKey, parse2, fetch2)
    ensures Handler(event, apiKey, parse1, fetch1).statusCode == (if event.httpMethod != "POST" || !Present(event.body) then 400 else 500)
  {
  }

  /** Unless every guard passes, the upstream is never consulted. */
  lemma NoUpstreamCallUnlessChat(event: Event, apiKey: Option<string>, parse: string -> Completion<Json>,
                                 fetch1: (string, Json) -> Upstream, fetch2: (string, Json) -> Upstream)
    requires !ChatRequest(event, apiKey, parse)
    ensures Handler(event, apiKey, parse, fetch1) == Handler(event, apiKey, parse, fetch2)
    ensures Handler(event, apiKey, parse, fetch1).statusCode in {400, 500}
  {
    assert Gate(event, apiKey, parse).Reject?;
  }

  /** A body that does not parse is answered by the catch block. */
  lemma UnparsableBodyIsExecutionError(event: Event, apiKey: Option<string>, parse: string -> Completion<Json>,
                                       fetch: (string, Json) -> Upstream)
    requires event.httpMethod == "POST" && Present(event.body) && Present(apiKey)
    requires parse(event.body.value).Throw?
    ensures Handler(event, apiKey, parse, fetch) == ExecutionError(parse(event.body.value).message)
  {
  }

  /** A body that parses to null throws while being destructured. */
  lemma NullBodyIsExecutionError(event: Event, apiKey: Option<string>, parse: string -> Completion<Json>,
                                 fetch: (string, Json) -> Upstream)
    requires event.httpMethod == "POST" && Present(event.body) && Present(apiKey)
    requires parse(event.body.value) == Normal(JNull)
    ensures Handler(event, apiKey, parse, fetch) == ExecutionError(NullClientMessage)
  {
  }

  /** A parsed client value without a truthy apiType and a truthy model (which
      every non-object value lacks) is refused with 400. */
  lemma MissingFieldsRejected(event: Event, apiKey: Option<string>, parse: string -> Completion<Json>,
                              fetch: (string, Json) -> Upstream)
    requires event.httpMethod == "POST" && Present(event.body) && Present(apiKey)
    requires parse(event.body.value).Normal? && parse(event.body.value).value != JNull
    requires var client := parse(event.body.value).value;
      !(client.JObject? && Truthy(Get(client.members, "apiType")) && Truthy(Get(client.members, "model")))
    ensures Handler(event, apiKey, parse, fetch) == Response(400, [], Serialized(ErrorBody(MissingFieldsMessage)))
  {
  }

  /** Any apiType other than the string "chat" is refused with 400. */
  lemma OnlyChatIsRouted(event: Event, apiKey: Option<string>, parse: string -> Completion<Json>,
                         fetch: (string, Json) -> Upstream)
    requires event.httpMethod == "POST" && Present(event.body) && Present(apiKey)
    requires parse(event.body.value).Normal? && parse(event.body.value).value.JObject?
    requires var members := parse(event.body.value).value.members;
      Truthy(Get(members, "apiType")) && Truthy(Get(members, "model"))
      && Get(members, "apiType") != Some(JString("chat"))
    ensures Handler(event, apiKey, parse, fetch) == Response(400, [], Serialized(ErrorBody(InvalidApiTypeMessage)))
  {
  }

  /** A chat request is forwarded once, to the model's generateContent URL
      carrying the key, with the client object minus exactly apiType and
      model; the reply is the classification of that one upstream outcome. */
  lemma ChatIsForwarded(event: Event, apiKey: Option<string>, parse: string -> Completion<Json>,
                        fetch: (string, Json) -> Upstream)
    requires ChatRequest(event, apiKey, parse)
    ensures var members := parse(event.body.value).value.members;
      var url := ChatEndpoint(ToJsString(Get(members, "model").value).value, apiKey.value);
      var payload := JObject(Without(members, {"apiType", "model"}));
      && Gate(event, apiKey, parse) == Forward(url, payload)
      && Handler(event, apiKey, parse, fetch) == Classify(fetch(url, payload), parse)
  {
  }

  /** For a string model the URL is the model name spliced in verbatim. */
  lemma StringModelEndpoint(model: string, key: string)
    ensures Route(JString("chat"), JString(model), key)
      == Normal(Some("https://generativelanguage.googleapis.com/v1beta/models/" + model + ":generateContent?key=" + key))
  {
  }

  /** A chat request whose model cannot be converted to a string (an object
      with an own "toString", or an array holding one) throws while the URL
      is built: the catch block answers 500 and the upstream is not called. */
  lemma UnconvertibleModelIsExecutionError(event: Event, apiKey: Option<string>, parse: string -> Completion<Json>,
                                           fetch: (string, Json) -> Upstream)
    requires event.httpMethod == "POST" && Present(event.body) && Present(apiKey)
    requires parse(event.body.value).Normal? && parse(event.body.value).value.JObject?
    requires var members := parse(event.body.value).value.members;
      Get(members, "apiType") == Some(JString("chat")) && Get(members, "model").Some?
      && ToStringThrows(Get(members, "model").value)
    ensures Handler(event, apiKey, parse, fetch) == ExecutionError(ToPrimitiveMessage)
  {
  }

  /** `{"toString": 1}` as a model, alone or inside an array, makes `${model}` throw. */
  lemma OwnToStringThrows(key: string)
    ensures Route(JString("chat"), JObject([("toString", JNumber(1))]), key) == Throw(ToPrimitiveMessage)
    ensures Route(JString("chat"), JArray([JString("a"), JObject([("toString", JNull)])]), key) == Throw(ToPrimitiveMessage)
    ensures Route(JString("chat"), JArray([JString("gemini"), JNull, JNumber(2)]), key)
      == Normal(Some(ChatEndpoint("gemini,,2", key)))
  {
    var bad := JObject([("toString", JNull)]);
    assert ToStringThrows(JArray([JString("a"), bad])) by {
      assert JArray([JString("a"), bad]).items[1] == bad;
    }
    var items := [JString("gemini"), JNull, JNumber(2)];
    assert !ToStringThrows(JArray(items));
    var texts := ElementTexts(items, JArray(items)).value;
    assert texts == ["gemini", "", "2"];
    assert JoinWithCommas(texts) == "gemini,,2" by {
      assert texts[1..] == ["", "2"] && texts[2..] == ["2"];
    }
    assert ToJsString(JArray(items)) == Normal("gemini,,2");
  }

  /** The forwarded payload reads exactly like the client object except that
      apiType and model are undefined, and keeps keys distinct (WithoutAppend
      gives the order). */
  lemma ForwardedPayloadKeepsOtherFields(members: seq<(string, Json)>, key: string)
    ensures var payload := Without(members, {"apiType", "model"});
      Get(payload, key) == if key == "apiType" || key == "model" then None else Get(members, key)
    ensures DistinctKeys(members) ==> DistinctKeys(Without(members, {"apiType", "model"}))
  {
    GetWithout(members, {"apiType", "model"}, key);
    if DistinctKeys(members) {
      WithoutKeepsDistinct(members, {"apiType", "model"});
    }
  }

  /** The status in an upstream error message can be read back from the
      decimal text after the prefix. */
  lemma UpstreamErrorNamesStatus(status: int)
    ensures Decimal.DecimalToInt(UpstreamErrorMessage(status)[|UpstreamStatusPrefix|..]) == status
  {
    assert UpstreamErrorMessage(status)[|UpstreamStatusPrefix|..] == Decimal.IntToDecimal(status);
    Decimal.IntToDecimalRoundTrip(status);
  }

  /** Two upstream errors give the same error body only for the same status. */
  lemma UpstreamErrorMessagesDiffer(s1: ErrorStatus, s2: ErrorStatus, text: string, parse: string -> Completion<Json>)
    requires s1 != s2
    ensures Classify(Refused(s1, text), parse).body != Classify(Refused(s2, text), parse).body
  {
    if UpstreamErrorMessage(s1) == UpstreamErrorMessage(s2) {
      UpstreamErrorNamesStatus(s1);
      UpstreamErrorNamesStatus(s2);
    }
  }
}
