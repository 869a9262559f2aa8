# Gemini proxy handler, modelled in Dafny

The chat UI does not call the Gemini API directly. It posts every request to
a Netlify function, `handler` in `netlify/functions/gemini-proxy.js`. That
function holds the API key and forwards the request. It is a chain of guards,
and each guard may answer the request on its own:

1. a method other than `POST`, or a missing or empty body, gives 400 with a
   plain-text message;
2. a missing or empty `GEMINI_API_KEY` gives 500 with a plain-text message;
3. the body is parsed and split into `apiType`, `model` and the rest of the
   client object;
4. a falsy `apiType` or `model` gives 400 `{error: "Missing apiType or model in request body."}`;
5. the endpoint table knows only `apiType === 'chat'`, and every other value
   gives 400 `{error: "Invalid apiType specified."}`;
6. for a chat request, the rest of the client object is POSTed to
   `https://generativelanguage.googleapis.com/v1beta/models/${model}:generateContent?key=${API_KEY}`;
7. the upstream outcome becomes the reply:
   - an ok reply gives 200 with JSON and CORS headers and the re-serialised data;
   - a reply that is not ok keeps its status and gives `{error: "Gemini API returned status N", details}`;
   - any exception gives 500 `{error: "Internal Server Error during execution.", details: message}`.

The model is pure, like the handler: datatypes, functions and lemmas.

- `decimal.dfy` (module `Decimal`): the decimal text that a template literal
  writes for an integral number, and the proof that it can be read back.
- `js_values.dfy` (module `JsValues`): the JavaScript values the handler
  works on, with truthiness, property reads, object rest and template-literal
  `ToString`.
- `gemini_proxy.dfy` (module `GeminiProxy`): the guards (`Gate`), the endpoint
  table (`Route`), the classification of the upstream outcome (`Classify`)
  and the whole handler (`Handler`).
- `gemini_proxy_properties.dfy` (module `GeminiProxyProperties`): lemmas that
  relate several calls or several guards.

The environment is passed in as parameters:

- the API key is an `Option<string>`;
- `JSON.parse` is a function `parse: string -> Completion<Json>` that returns
  a value or throws with a message;
- the upstream call (`fetch` plus reading the reply) is a function
  `fetch: (string, Json) -> Upstream`. Its outcome is `Answered(data)`,
  `Refused(status, errorText)` or `Threw(message)`.

"No upstream request is made" is stated as: the reply is the same for every
`fetch`.

The handler does not sanitise the payload, normalise image prompts, stream,
or route any operation kind other than `chat`. Its error messages are the
ones listed above, and an ok reply is parsed and re-serialised rather than
passed through untouched. The model does the same.

Building the URL converts `model` to a string, and that conversion can throw.
An object whose own properties include `toString` has no callable
`toString`, because JSON values are never functions, and its `valueOf`
returns the object itself. The conversion then fails with a TypeError, and
so does an array holding such an object at any depth. The catch block
answers 500, and no upstream request is made.

## Model

| member | source | states |
|---|---|---|
| `Decimal.NatToDecimal` | netlify/functions/gemini-proxy.js:66 | the status text is a non-empty digit string without leading zeros; it starts with '0' exactly for 0 and has one digit exactly below 10 |
| `Decimal.NatToDecimalRoundTrip` | netlify/functions/gemini-proxy.js:66 | reading the decimal text of n back gives n |
| `Decimal.DecimalValueRoundTrip` | netlify/functions/gemini-proxy.js:66 | every canonical digit string is the decimal text of the number it denotes, so the two conversions are inverse |
| `Decimal.NatToDecimalInjective` | netlify/functions/gemini-proxy.js:66 | distinct numbers have distinct decimal texts |
| `Decimal.IntToDecimal` | netlify/functions/gemini-proxy.js:37 | an integer's text starts with '-' exactly when it is negative, followed by canonical digits |
| `Decimal.IntToDecimalRoundTrip` | netlify/functions/gemini-proxy.js:66 | the signed decimal text of an integer reads back to that integer |
| `Decimal.IntToDecimalInjective` | netlify/functions/gemini-proxy.js:66 | distinct statuses give distinct texts |
| `JsValues.Truthy` | netlify/functions/gemini-proxy.js:29 | a property read is truthy exactly when it is defined and is none of null, false, 0 and "" |
| `JsValues.ToJsString` | netlify/functions/gemini-proxy.js:37 | `${v}` throws the V8 "Cannot convert object to primitive value" TypeError exactly for an object with an own "toString" or an array holding one at any depth; otherwise a string is kept verbatim, a number is written as IntToDecimal writes it, null and booleans as their names, any other object as "[object Object]", and an array as the comma-join of its element texts |
| `JsValues.ElementTexts` | netlify/functions/gemini-proxy.js:37 | the texts Array.prototype.join collects: one per element, "" for null and the element's own text otherwise; it throws exactly when some element's conversion throws |
| `JsValues.Get` | netlify/functions/gemini-proxy.js:27 | a property read is undefined exactly when no property has that key, and otherwise returns the value of a property with that key |
| `JsValues.GetFindsMember` | netlify/functions/gemini-proxy.js:27 | in an object with distinct keys, reading a property's key returns that property's value |
| `JsValues.Without` | netlify/functions/gemini-proxy.js:27 | the object rest holds exactly the properties whose keys are not destructured, and is no longer than the object |
| `JsValues.GetWithout` | netlify/functions/gemini-proxy.js:27 | after removal, a destructured key reads undefined and every other key reads as before |
| `JsValues.WithoutAppend` | netlify/functions/gemini-proxy.js:27 | removal distributes over concatenation, so the rest keeps the object's property order |
| `JsValues.WithoutKeepsDistinct` | netlify/functions/gemini-proxy.js:27 | the rest of an object with distinct keys has distinct keys |
| `JsValues.WithoutAbsentKeys` | netlify/functions/gemini-proxy.js:27 | an object with none of the destructured keys is its own rest |
| `GeminiProxy.Destructure` | netlify/functions/gemini-proxy.js:26-27 | destructuring throws exactly for a null client value; an object yields its own apiType and model, and its rest is every other property in the object's order; any other value has neither field, and a boolean or number has an empty rest; the rest never holds apiType or model |
| `GeminiProxy.ChatEndpointRoundTrip` | netlify/functions/gemini-proxy.js:37 | the chat URL has the fixed base, then the model, then `:generateContent?key=` and the key, and the model can be read back from it |
| `GeminiProxy.ChatEndpointOfModel` | netlify/functions/gemini-proxy.js:37 | every URL of that shape is the chat URL of the model read out of it |
| `GeminiProxy.Route` | netlify/functions/gemini-proxy.js:36-42 | any apiType other than the string "chat" has no endpoint; for "chat" building the URL throws exactly when the model's string conversion throws, and otherwise there is an endpoint, the chat URL of the model's string form and the key |
| `GeminiProxy.Gate` | netlify/functions/gemini-proxy.js:15-42 | the request is forwarded exactly when it is a POST with a body, the key is set, and the body parses to an object whose apiType is "chat" and whose model is truthy and converts to a string without throwing; otherwise the reply is 400 or 500 without headers; a forwarded URL has the chat shape for the key and the payload is an object |
| `GeminiProxy.ErrorDetails` | netlify/functions/gemini-proxy.js:55-62 | the details are the parsed error text if it parses, otherwise `{message: errorText}` |
| `GeminiProxy.UpstreamErrorMessage` | netlify/functions/gemini-proxy.js:66 | the upstream error message is "Gemini API returned status " followed by a sign exactly for a negative status and canonical decimal digits |
| `GeminiProxy.Classify` | netlify/functions/gemini-proxy.js:53-89 | status 200 exactly for an ok reply, which carries the JSON and CORS headers and the data; an error reply keeps the upstream status and says "Gemini API returned status N" with the details; an exception gives the 500 envelope with its message |
| `GeminiProxy.Handler` | netlify/functions/gemini-proxy.js:8-90 | a bad method or missing body gives the 400 text reply; otherwise a missing key gives the 500 text reply; the reply is 200 exactly when every guard passes (including a model whose string conversion does not throw) and the upstream answers ok; headers appear exactly on 200 |
| `GeminiProxyProperties.GuardsPrecedeParsing` | netlify/functions/gemini-proxy.js:15-22 | the method/body and key guards decide the reply (400 first, then 500) without the parser or the upstream |
| `GeminiProxyProperties.NoUpstreamCallUnlessChat` | netlify/functions/gemini-proxy.js:29-46 | unless every guard passes, the reply does not depend on the upstream and is 400 or 500 |
| `GeminiProxyProperties.UnparsableBodyIsExecutionError` | netlify/functions/gemini-proxy.js:24-26 | a body that does not parse gives the 500 envelope with the parser's message |
| `GeminiProxyProperties.NullBodyIsExecutionError` | netlify/functions/gemini-proxy.js:27 | a body that parses to null gives the 500 envelope with the destructuring TypeError |
| `GeminiProxyProperties.MissingFieldsRejected` | netlify/functions/gemini-proxy.js:29-31 | a parsed client value without a truthy apiType and a truthy model gives 400 "Missing apiType or model in request body." |
| `GeminiProxyProperties.OnlyChatIsRouted` | netlify/functions/gemini-proxy.js:36-42 | any apiType other than the string "chat" gives 400 "Invalid apiType specified." |
| `GeminiProxyProperties.ChatIsForwarded` | netlify/functions/gemini-proxy.js:27-50 | a chat request goes to the chat URL of its model and the key, with the client object minus apiType and model as payload, and the reply classifies that upstream outcome |
| `GeminiProxyProperties.StringModelEndpoint` | netlify/functions/gemini-proxy.js:37 | a string model is spliced verbatim into the generateContent URL |
| `GeminiProxyProperties.UnconvertibleModelIsExecutionError` | netlify/functions/gemini-proxy.js:37-89 | a chat request whose model's string conversion throws gets the 500 envelope with the TypeError's message, whatever the upstream would do |
| `GeminiProxyProperties.OwnToStringThrows` | netlify/functions/gemini-proxy.js:37 | a model `{"toString": 1}`, or an array holding `{"toString": null}`, makes building the chat URL throw; the array `["gemini", null, 2]` gives the model text "gemini,,2" |
| `GeminiProxyProperties.ForwardedPayloadKeepsOtherFields` | netlify/functions/gemini-proxy.js:27 | in the payload, apiType and model read undefined and every other field reads as in the client object; distinct keys stay distinct |
| `GeminiProxyProperties.UpstreamErrorNamesStatus` | netlify/functions/gemini-proxy.js:66 | the status can be read back from the decimal text after "Gemini API returned status " |
| `GeminiProxyProperties.UpstreamErrorMessagesDiffer` | netlify/functions/gemini-proxy.js:66 | different upstream statuses give different error bodies |

## Left out

- script.js is not part of this model. It holds DOM rendering, `localStorage` persistence and UI events, and the file ends in the middle of `generateImage`. The retry variables it declares are never used, so there is no retry or backoff to model.
- The network I/O of `node-fetch` is an abstract outcome. The outcome comes from the `fetch` parameter and covers `fetch`, `response.text()` and `response.json()`. The model does not record the upstream request's method or its `Content-Type` header, which are always `POST` and `application/json`. Redirects are not modelled.
- An ok reply whose body is not valid JSON makes `response.json()` throw. The model folds this into `Threw`, and the exception's message comes from the outcome, not from node-fetch's own wording.
- `JSON.parse` and `JSON.stringify` are not modelled internally. Parsing is the `parse` parameter. A JSON reply body is kept as the value that gets serialised (`Serialized`).
- Decimal.IntToDecimal: writes every digit of the integer, which is what JavaScript writes only below 2^53 in magnitude. For larger integral doubles JavaScript writes the shortest digits that round-trip, padded with zeros (2^64 gives "18446744073709552000"). From 10^21 on it uses exponent form. Fractional numbers are not modelled, since `Json` numbers are integers. HTTP statuses are far below 2^53, so only a numeric `model` is affected, whose text goes into the URL.
- JsValues.Get: reads the first property with the key, while JSON.parse keeps the last value of a repeated key. The `parse` parameter is not required to return distinct keys. For values with distinct keys, the only kind JSON.parse produces, the two agree (GetFindsMember).
- `NullClientMessage` and `ToPrimitiveMessage` use V8's wording for the TypeErrors of destructuring null and of converting an object to a string. Other engines word these TypeErrors differently.
- A string client value is split into Unicode scalar values, while JavaScript splits it into UTF-16 code units. Such a value never passes the guards, so this never reaches a reply.
- Reading `process.env` is modelled as the `apiKey` parameter. The two `console.error` calls are logging only and are not modelled.
- Payload sanitisation, image-prompt normalisation, streaming-chunk text recovery, retry with backoff, and the apiTypes other than `chat` are not in the handler's code, so they are not modelled.
