# WhatsApp Node.js SDK: webhook validation and message shaping in Dafny

This project models two parts of the WhatsApp Node.js SDK and proves properties about them.

- **Inbound webhook** (`src/Webhook/index.ts`). `register` validates the GET subscription handshake. `eventNotification` validates a POST event delivery and exposes `checkSignature` and `verifySignature`. Both run a fixed chain of guards, and the first guard that fails decides the error class thrown. A thrown error is the `Failure` branch of a `Result`. `JSON.parse` never sees the body until every guard has passed. A parse failure is its own error, `JsonSyntaxError`, which is none of the webhook kinds.
- **Outgoing message API** (`src/CloudMessageAPI/index.ts`). `createStatus`, `createMessage` and the ten shorthand aliases build a JSON body and the parameter record that would be passed to `GraphRequest.create`. The model returns that record and does not send it.

Modules and files:

- `wrappers.dfy` (`Wrappers`): `Option` and `Result`.
- `json.dfy` (`JsonValue`): JSON values and property maps.
- `js_string.dfy` (`JsString`): the JavaScript string operations the validators use: `toLowerCase`, `indexOf`, `replace` with a string pattern, and truthiness.
- `webhook.dfy` (`Webhook`): the request record and the six error kinds. It also holds both validators, with their outcomes and closures, and the lemmas about guard order and signatures.
- `cloud_message_api.dfy` (`CloudMessageApi`): the endpoint, the two bodies, the request record and the aliases.

The two foreign collaborators are function parameters with no properties assumed:

- the HMAC-SHA256 hex digest (`HmacSha256Hex`, the HMAC of RFC 2104 over the SHA-256 of FIPS 180-4);
- `JSON.parse` (`Parser`, returning `None` where the source throws).

Three details of the code the model keeps:

- The `sha256=` marker is removed with `String.prototype.replace`, which takes out its first occurrence anywhere in the header, not only a leading prefix (`SignatureMarkerRemovedAnywhere`). A header without the marker is used as it is (`RemoveFirst`). A header that is empty once the marker is removed, such as `sha256=` alone, is rejected like an absent header.
- Signatures are compared with ordinary, case-sensitive string equality, not in constant time.
- The outcome of `eventNotification` has no `reject`, although a usage comment in the source calls one.

## Model

| member | source | states |
|---|---|---|
| `JsString.ToLowerCase` | src/Webhook/index.ts:89 | lower-casing keeps the length and lower-cases each character in place |
| `JsString.ToLowerCaseMatches` | src/Webhook/index.ts:89 | `method.toLowerCase() === w`, for a lower-case word `w`, holds exactly when `method` spells `w` with each letter in either case |
| `JsString.IndexOf` | src/Webhook/index.ts:181-183 | the index found is an occurrence of the pattern and no earlier index is one; None means the pattern occurs nowhere |
| `JsString.RemoveFirst` | src/Webhook/index.ts:181-183 | a string without the pattern is unchanged; otherwise exactly the first occurrence is cut out and the rest is kept in order |
| `JsString.RemoveFirstOfPrefix` | src/Webhook/index.ts:181-183 | a header that starts with the marker loses exactly that prefix |
| `Webhook.FirstFailingIsFirst` | src/Webhook/index.ts:88-114 | a guard chain reports nothing iff every guard passes, and otherwise reports the error of a failing guard all of whose predecessors pass |
| `Webhook.RegisterRunsChecksInOrder` | src/Webhook/index.ts:88-121 | `register` throws exactly the error of the first failing guard in the order method, `hub.mode`, `hub.challenge`, `hub.verify_token`, and succeeds iff none fails |
| `Webhook.RegisterIncorrectMethodIff` | src/Webhook/index.ts:89-93 | `register` throws IncorrectMethod iff the method is not GET in some letter case, whatever the query, headers and body |
| `Webhook.RegisterOutcome` | src/Webhook/index.ts:116-121 | on success `hub.mode` is `subscribe`, the token and challenge are the query's non-empty values, `accept()` echoes the challenge and `reject()` gives no body |
| `Webhook.RegisterAcceptsAnyToken` | src/Webhook/index.ts:109-121 | the verify token is not compared with any secret: replacing it with any non-empty value still succeeds and changes only `verifyToken` |
| `Webhook.RegisterMissingIsEmpty` | src/Webhook/index.ts:95-114 | for each of the three query parameters, a missing key and an empty value give the same result |
| `Webhook.HubSignature` | src/Webhook/index.ts:181-183 | the signature is defined iff the `x-hub-signature-256` header is present; a header `sha256=<hex>` yields `<hex>` |
| `Webhook.SignatureMarkerRemovedAnywhere` | src/Webhook/index.ts:181-183 | the marker is removed where it first occurs even when it is not a prefix: `ab` + `sha256=` + `cd` yields `abcd` |
| `Webhook.EventNotificationRunsChecksInOrder` | src/Webhook/index.ts:174-194 | when a guard fails, `eventNotification` throws the first failing guard's error in the order method, signature header, body, whatever `JSON.parse` would return |
| `Webhook.EventNotificationParsesLast` | src/Webhook/index.ts:196-221 | with all guards passed, the call succeeds iff the body parses, and a parse failure is the distinct JsonSyntaxError; on success the outcome holds the parsed value, the raw body as received and the stripped header, and `accept()` gives no body |
| `Webhook.EventNotificationIncorrectMethodIff` | src/Webhook/index.ts:175-179 | `eventNotification` throws IncorrectMethod iff the method is not POST in some letter case, whatever the headers and body |
| `Webhook.SignatureCheckedBeforeBody` | src/Webhook/index.ts:181-194 | with a POST method, an absent header or one that is empty after stripping is InvalidHubSignature whatever the body is |
| `Webhook.CheckSignatureOfRequest` | src/Webhook/index.ts:204-212 | `checkSignature(secret)` is true iff the stripped header equals the HMAC-SHA256 hex digest of the raw body keyed by the secret |
| `Webhook.CheckSignatureDependsOnBodyAndHeader` | src/Webhook/index.ts:204-212 | two requests with the same body and signature header get the same verdict, whatever their method spelling, query, other headers or parsed value |
| `Webhook.UpperCaseDigestRejected` | src/Webhook/index.ts:209 | the comparison is case-sensitive: the correct digest sent in upper-case hex is refused when it contains a letter |
| `Webhook.AlteredBodyRejected` | src/Webhook/index.ts:204-211 | a header that matched one body fails for another body whose digest differs |
| `Webhook.VerifySignatureIff` | src/Webhook/index.ts:213-219 | `verifySignature` throws InvalidHubSignature exactly when `checkSignature` is false and otherwise returns |
| `CloudMessageApi.Endpoint` | src/CloudMessageAPI/index.ts:50-52 | the endpoint is `/`, then the business id, then `/messages` |
| `CloudMessageApi.EndpointDeterminesBusiness` | src/CloudMessageAPI/index.ts:50-52 | two API objects share an endpoint iff they have the same business id |
| `CloudMessageApi.GraphRequestParams` | src/CloudMessageAPI/index.ts:102-111 | `endpoint`, `method = POST`, `body` and `headers` override same-named `requestProps` fields, and every other field is kept; the headers are the caller's with `Content-Type: application/json` |
| `CloudMessageApi.StatusBody` | src/CloudMessageAPI/index.ts:64-67 | the status body is the payload plus `messaging_product`; payload keys win, so `messaging_product` is `whatsapp` iff the payload lacks that key or sets it to `whatsapp` |
| `CloudMessageApi.CreateStatus` | src/CloudMessageAPI/index.ts:60-79 | the status request is posted to the endpoint with the caller's headers plus `Content-Type: application/json`. Its body holds every payload entry, with `messaging_product` defaulting to `whatsapp`. The other caller fields are kept |
| `CloudMessageApi.MessageBody` | src/CloudMessageAPI/index.ts:92-100 | the message body has exactly the four fixed fields, the payload under the type's name, and `context = {message_id}` iff a non-empty reply id is given |
| `CloudMessageApi.CreateMessage` | src/CloudMessageAPI/index.ts:87-112 | the message request is posted to the endpoint with the caller's headers plus `Content-Type: application/json`. Its body has the fixed fields, the type, the payload and `context = {message_id}` iff a non-empty reply id is given. The caller's other fields are kept |
| `CloudMessageApi.ShorthandAlias` | src/CloudMessageAPI/index.ts:114-127 | an alias gives the same record as `createMessage` with its fixed type for every payload and options |
| `CloudMessageApi.AliasFieldsSendTheirType` | src/CloudMessageAPI/index.ts:129-138 | each of the ten alias fields is `createMessage` with the type of its own name, so its body's `type` is that name |

## Left out

- HMAC-SHA256 (`createHmac` from `node:crypto`) is the parameter `HmacSha256Hex`, with no property assumed.
- `JSON.parse` is the parameter `Parser`, with no property assumed. JSON syntax is not modelled.
- `JSON.stringify` is left out. The request record's `body` holds the JSON value that would be stringified.
- `Buffer.from(body).toString("utf8")` is taken as the identity on the body. Node would replace unpaired surrogates with U+FFFD.
- `toLowerCase` folds only ASCII letters. No non-ASCII character lowercases to any of `g`, `e`, `t`, `p`, `o`, `s`, so the comparisons with `get` and `post` are unaffected.
- The async/Promise wrapping of `register` and `eventNotification` is left out. A thrown error is a `Failure` value.
- The `errors` field and the marker error classes of `src/Webhook/WebhookError/` are the constructors of `WebhookErrorKind`. Each error also carries its message.
- Header names are looked up exactly as given. Lower-casing them is the caller's HTTP layer's job.
- Query and header values are single strings. Array values that some HTTP frameworks produce are not modelled.
- `GraphRequest.create` and the HTTP transport are left out. The model returns the record passed to `create`.
- The `src/Message/` files are type declarations only, and they have no counterpart here. JSON numbers are kept as integers because no operation looks inside them.
- `MessageTypeEnum` is not part of this model. The ten values the aliases use are modelled with the Cloud API's lower-case type names. Other enum members, if any, are not modelled.
- A `headers` field of `requestProps` that is not an object is treated as absent. Its TypeScript type allows only an object or nothing.
- An omitted `requestProps` is the empty map. This is the source's `= {}` default.
- Outcomes are values, so equal inputs give equal outcomes. No separate lemma states this.
- Webhook.AlteredBodyRejected: assumes that the two bodies' digests differ. Collision resistance of HMAC-SHA256, which would make this follow from the bodies differing, is not modelled.
