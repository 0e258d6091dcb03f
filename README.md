# rePROMPT proxy and client, modelled in Dafny

rePROMPT is a prompt-improvement tool. A browser page sends a prompt, with
optional images and context, to a large-language-model Messages API along
with a system prompt chosen by mode (enhance, rewrite or analyze), then
shows the text that comes back. This project models the parts of the
repository that make decisions:

- `api/_resolve.js`, the endpoint resolver (module `Resolve`). It picks a
  gateway URL, the direct Anthropic endpoint or "unconfigured" from five
  environment variables. It also picks the credential and the
  authentication scheme (x-api-key or bearer).
- `api/_security.js`, the payload validator and `setSecurityHeaders`
  (module `Security`). The verdict is a specification function. The
  source's two nested early-return loops are a method proved equal to it.
  A declarative characterisation of the accepted payloads is proved
  equivalent to both.
- `api/messages.js` (module `Messages`) and `api/health.js` (module `Health`),
  the serverless handlers. Each route is a pure function from the request,
  the environment and the upstream outcome to the reply and the request
  sent upstream. Each handler is a method that writes to a mutable
  `Http.ServerResponse` object and is proved to leave exactly that reply
  in it.
- `server.js`, the older Express server's two API routes (module
  `LegacyServer`).
- `public/app.js` (module `Client`) and the older `app.js` (module
  `LegacyClient`), the browser side. They cover the system prompts, the
  construction of the request body (a loop method proved against a
  specification function), where the request goes and with which headers,
  how the answer becomes text or an error, and the guards of the enhance
  button.

Shared pieces:

- `Json` models parsed JSON values and the JavaScript semantics the code
  relies on: property access, truthiness, `typeof`, `Number.isInteger`.
- `JsString` models `trim`, `toLowerCase` and the decimal rendering of
  integers.
- `Http` models the response object, the outbound request and the
  upstream outcome.

The environment, the stored browser settings and the result of every
`fetch` are parameters. The network is never modelled.

What the serverless code does, and does not do:

- `api/messages.js` has no rate limiter, no outbound timeout and no 504
  path. An upstream answer that is not JSON makes `response.json()`
  throw, and the handler answers 502.
- `res.json(data)` on a 2xx upstream answer keeps the default status 200,
  whatever 2xx status the upstream gave (`Messages.ForwardedOutcome`).
- `api/messages.js` does not call `validateMessagesPayload`. It only
  checks that `model` is truthy and that `messages` is a non-empty
  array. The two checks are related in `Messages.ValidatedBodyHasFields`
  and `Messages.RouteCheckIsWeaker`.
- `api/messages.js` and `api/health.js` do not call
  `setSecurityHeaders`. They set only `nosniff` and `no-referrer`
  themselves, and that is what their models do.

## Model

| member | source | states |
|---|---|---|
| Security.ValidateMessagesPayload | api/_security.js:16-81 | the loop-based validator returns exactly the verdict of the first-failure specification for every body |
| Security.ValidateAcceptsExactlyWellFormed | api/_security.js:16-81 | a body is accepted iff it is an object with a model string matching the pattern (1 to 120 characters of `[A-Za-z0-9._:-]`) and 1 to 24 messages, every one well-formed |
| Security.MessageErrorNoneIff | api/_security.js:31-78 | a message passes iff it is an object with role user or assistant and content that is either a 1..50000-character string or a non-empty array of well-formed blocks |
| Security.BlockErrorNoneIff | api/_security.js:51-77 | a block passes iff it is a text block with 1..50000 characters of text, or an image block whose source is base64 with an allowed media type and non-empty data |
| Security.FirstFailureAt | api/_security.js:31-78 | when element i fails and all before it pass, the reported failure is element i's |
| Security.FirstFailureNone | api/_security.js:31-80 | nothing is reported iff every element passes |
| Security.FirstFailureWitness | api/_security.js:31-78 | a reported failure belongs to some element all of whose predecessors pass |
| Security.BlockErrorMessages | api/_security.js:51-77 | a block is only ever refused with one of the message- or block-level messages |
| Security.MessageErrorMessages | api/_security.js:31-78 | a message is only ever refused with one of the message- or block-level messages, never the body, model or count message |
| Security.BodyMessageIffNotObject | api/_security.js:17-19 | the body message is reported iff the body is missing, null, a non-object or an array |
| Security.FirstBadMessageIsReported | api/_security.js:21-78 | past the body, model and count checks, the verdict is the failure of the first failing message |
| Security.ImageWithoutSourceRejected | api/_security.js:63-72 | an image block with a missing or falsy source is checked as `{}` and refused with the image message |
| Security.AcceptsMinimalPayload | api/_security.js:16-81 | the payload with model `claude-x` and one user message `hi` is accepted |
| Security.RejectsEmptyMessagesAndBadModel | api/_security.js:23-29 | an empty message list gets the count message and the model `bad model!` gets the model message |
| Security.ImageMediaTypeExamples | api/_security.js:63-72 | an image of type `image/bmp` is refused and one of type `image/png` is accepted |
| Security.SetSecurityHeaders | api/_security.js:9-14 | the four security headers are added to the response and its status and body are unchanged |
| Http.ServerResponse.SetHeader | api/messages.js:15-16 | one header is set and nothing else changes |
| Http.ServerResponse.Status | api/messages.js:20 | the status is set and nothing else changes |
| Http.ServerResponse.SendJson | api/messages.js:70 | the body is set and nothing else changes |
| Http.SetHandlerHeaders | api/messages.js:15-16 | `nosniff` and `no-referrer` are added and status and body are unchanged |
| JsString.TrimStart | api/_resolve.js:29 | the leading-whitespace part of `trim`: the result is a suffix of the input, begins with a non-whitespace character or is empty, and everything dropped is whitespace |
| JsString.TrimEnd | api/_resolve.js:29 | the trailing-whitespace part of `trim`: the result is a prefix of the input, ends with a non-whitespace character or is empty, and everything dropped is whitespace |
| JsString.Trim | api/_resolve.js:29-30 | `trim` never lengthens a string, leaves no whitespace at either end, and gives `""` exactly for an all-whitespace string |
| JsString.TrimOfTrimmed | api/_resolve.js:29-30 | a string with no whitespace at either end is its own trim |
| JsString.TrimStartAppend | api/_resolve.js:29 | text appended after a non-whitespace character survives the leading trim unchanged |
| JsString.TrimAppend | api/_resolve.js:29 | appending text that ends in non-whitespace to a string that ends in non-whitespace trims to the trimmed string followed by that text |
| JsString.TrimStartPadded | api/_resolve.js:26 | leading whitespace in front of a non-whitespace start is exactly what the leading trim drops |
| JsString.TrimEndPadded | api/_resolve.js:26 | trailing whitespace after a non-whitespace end is exactly what the trailing trim drops |
| JsString.TrimPadded | api/_resolve.js:26 | `trim` removes whitespace padding and nothing else |
| JsString.ToLower | api/_resolve.js:26 | `toLowerCase` keeps the length and lower-cases each character in place |
| JsString.ToLowerAppend | api/_resolve.js:26 | `toLowerCase` distributes over concatenation |
| JsString.ToLowerWhitespace | api/_resolve.js:26 | `toLowerCase` leaves whitespace unchanged |
| JsString.Decimal | public/app.js:340 | the status in the error text is a non-empty run of decimal digits with no leading zero |
| JsString.DecimalValue | public/app.js:340 | the digits written for the status denote the status |
| Resolve.StripTrailingSlashes | api/_resolve.js:29 | `replace(/\/+$/, '')` returns a prefix of the input that does not end in `/`, and everything it removes is `/` |
| Resolve.StripAppendSlashes | api/_resolve.js:29 | any number of appended slashes is removed again |
| Resolve.TrimStripSlashes | api/_resolve.js:29 | trailing slashes after a non-whitespace end do not change the trimmed, stripped base |
| Resolve.MessagesSuffixFound | api/_resolve.js:34 | a string ending in `/messages` names a messages endpoint |
| Resolve.ResolveEndpoint | api/_resolve.js:21-55 | the URL and the key are null exactly in unconfigured mode, and only gateway mode can use bearer |
| Resolve.ModeSelection | api/_resolve.js:29-54 | gateway mode iff the trimmed, slash-stripped gateway URL is non-empty; direct iff it is empty and the Anthropic key is set; unconfigured otherwise |
| Resolve.GatewayBaseEmptyIff | api/_resolve.js:29-32 | the gateway base is empty iff the trimmed URL consists only of slashes |
| Resolve.MessagesAtOrAfterIff | api/_resolve.js:34 | the scan finds `/messages`, followed by `?` or the end, iff it occurs at or after the starting position |
| Resolve.GatewayUrlShape | api/_resolve.js:32-38 | a messages-like base is used as it is; any other base gets the normalised path appended; the base is always a prefix of the URL |
| Resolve.GatewayPathDefault | api/_resolve.js:23-30 | an unset or blank path means `/messages`, any other path is used trimmed; this equals the source's expression with its untrimmed default |
| Resolve.NormalizePath | api/_resolve.js:33 | the result starts with `/`; a path starting with `/` is kept, any other gets one `/` put in front |
| Resolve.TrailingSlashesIrrelevant | api/_resolve.js:29 | gateway URLs that differ only in trailing slashes resolve to the same endpoint, provided the raw URL does not end in whitespace (`trim` runs before the slashes are stripped) |
| Resolve.ResolveReadsBase | api/_resolve.js:29-43 | the resolver depends on the gateway URL only through its trimmed, slash-stripped form |
| Resolve.ResolveFromMessagesUrl | api/_resolve.js:29-42 | a clean gateway URL that already ends in a messages endpoint is used unchanged |
| Resolve.DefaultPathAppended | api/_resolve.js:30-35 | with the default path, a base that names no messages endpoint becomes base + `/messages` |
| Resolve.AppendedEndpoint | api/_resolve.js:30-42 | the whole endpoint a base resolves to once `/messages` is appended |
| Resolve.AppendedUrlEndpoint | api/_resolve.js:29-42 | the whole endpoint resolved from the appended URL itself |
| Resolve.ResolveAppendedAgain | api/_resolve.js:29-42 | resolving again from the appended URL gives the same endpoint |
| Resolve.DefaultPathIsFixpoint | api/_resolve.js:29-42 | with the default path the URL is base + `/messages`, which names a messages endpoint, so the path is never appended twice |
| Resolve.BearerIff | api/_resolve.js:26-27 | the scheme is bearer iff the setting, lower-cased and trimmed, is `bearer` |
| Resolve.AuthModeAsWritten | api/_resolve.js:26-27 | the scheme equals the source's expression with the `x-api-key` default written out |
| Resolve.BearerSpelled | api/_resolve.js:26-27 | any capitalisation of `bearer`, padded with whitespace, selects bearer |
| Messages.SafeMaxTokens | api/messages.js:39-42 | the result is always in 1..8192; an integer in 1..8192 is kept as it is; anything else becomes 1400 |
| Messages.HandleMessages | api/messages.js:14-76 | the response holds exactly the route's reply, and the request sent upstream is exactly the route's |
| Messages.EarlyExits | api/messages.js:18-37 | non-POST gives 405 with `Allow: POST`, then unconfigured gives 500, then missing fields give 400; a request is forwarded iff it passes all three |
| Messages.EarlyExitsIgnoreBody | api/messages.js:18-29 | the 405 and 500 replies depend on neither the body nor the upstream |
| Messages.EveryReplyHardened | api/messages.js:15-19 | every reply carries `nosniff` and `no-referrer`, and `Allow` is present iff the method is not POST |
| Messages.ForwardedOutcome | api/messages.js:58-75 | the request goes to the resolved URL; a failed call is 502; a 2xx body is sent with status 200; any other status is relayed with its body |
| Messages.CredentialHeaders | api/messages.js:45-56 | the fixed headers are always present; exactly one credential header, only when there is a key: bearer `Authorization` for a gateway in bearer mode, otherwise `x-api-key` |
| Messages.GatewayHeaders | api/_resolve.js:26-41 | a gateway endpoint's outbound headers carry the gateway key, or else the Anthropic key, as bearer `Authorization` iff the configured scheme is bearer and as `x-api-key` otherwise, and no credential when both keys are empty |
| Messages.GatewayCredentialSent | api/messages.js:23-60 | for a gateway, a forwarded request carries the gateway key or else the Anthropic key, as bearer `Authorization` iff the setting selects bearer, otherwise as `x-api-key`, and no credential header when both keys are empty |
| Messages.DirectUsesApiKeyHeader | api/messages.js:50-55 | in direct mode the Anthropic key goes in `x-api-key` and no `Authorization` is sent |
| Messages.OutboundBodyShape | api/messages.js:31-61 | the forwarded body has exactly model, max_tokens, messages and (when given) system, with the client's values and the clamped max_tokens |
| Messages.ForwardedMaxTokensBounded | api/messages.js:39-61 | the forwarded max_tokens is always an integer in 1..8192 |
| Messages.ConfigErrorIff | api/messages.js:25-29 | for a POST with an upstream that does not answer 500 itself, the route answers 500 iff the endpoint is unconfigured, and then with the configuration error |
| Messages.ValidatedBodyHasFields | api/messages.js:31-33 | a body the shared validator accepts also passes the route's field check |
| Messages.RouteCheckIsWeaker | api/messages.js:33 | the route forwards a body with a numeric model that the validator refuses |
| Health.HandleHealth | api/health.js:10-15 | the response holds exactly the health reply |
| Health.HealthBodyShape | api/health.js:14 | the body has exactly `status: "ok"` and a boolean `configured` that is true iff the mode is not unconfigured |
| Health.ConfiguredIff | api/health.js:11-14 | `configured` is true iff the gateway URL is non-empty once trimmed and stripped of trailing slashes, or an Anthropic key is set; it is false otherwise |
| Health.GatewayWithoutKeyIsConfigured | api/health.js:11-14 | a gateway URL with no key of either kind counts as configured |
| Health.HealthAgreesWithMessages | api/health.js:11-14 | for a POST with an upstream that does not answer 500 itself, the probe says configured iff the route does not answer 500, and not configured iff the route gives its configuration error |
| LegacyServer.HandleLegacyHealth | server.js:19-22 | the response holds exactly the legacy health reply |
| LegacyServer.HandleLegacyMessages | server.js:25-64 | the response holds exactly the legacy route's reply, and the request sent is exactly the route's |
| LegacyServer.LegacyEarlyExits | server.js:26-50 | no key gives 500, then a falsy model or messages gives 400; forwarding happens iff both pass, to the public endpoint with the key in `x-api-key` |
| LegacyServer.LegacyForwardedOutcome | server.js:41-63 | once forwarded: a failed call is 502 with the legacy message, a 2xx body is sent with status 200, any other status is relayed with its body, and no header is added |
| LegacyServer.LegacyMaxTokensUnchanged | server.js:33-49 | max_tokens is forwarded exactly when sent, with the client's value, unclamped |
| LegacyServer.LegacyFieldCheckIsWeaker | server.js:35 | whatever the serverless field check passes, the legacy one passes, and an empty messages array passes only the legacy one |
| LegacyServer.GatewayOnlyDeployment | server.js:19-31 | with only a gateway URL, the serverless probe says configured and the route does not answer 500; the legacy probe says not configured and the legacy route answers 500 |
| LegacyServer.LegacyHealthAgreesWithRoute | server.js:19-31 | for an upstream that does not answer 500 itself, the legacy probe says configured iff the legacy route does not answer 500 |
| Client.PromptsShareBase | public/app.js:247-290 | every mode's system prompt starts with the shared base text and is longer than it |
| Client.UnknownModeFallsBack | public/app.js:289 | an unknown mode gets the enhance prompt; the three known prompts are pairwise different |
| Client.ImageBlocks | public/app.js:301-310 | there is one image block per image |
| Client.ImageBlocksAt | public/app.js:301-310 | block i is built from image i |
| Client.BuildContent | public/app.js:298-317 | the loop builds exactly the specified content |
| Client.ContentShape | public/app.js:298-317 | one block per image, in order, then the text block; the text is the prompt alone for a blank context and prompt + label + trimmed context otherwise |
| Client.RequestBodyShape | public/app.js:319-324 | the body has four keys, max_tokens 4096 and exactly one user message holding the content |
| Client.ApiBaseStripsOneSlash | public/app.js:49-51 | exactly one trailing slash is removed from the configured API base |
| Client.RouteShape | public/app.js:326-363 | for any body: the proxy path sends only `Content-Type` to base + `/api/messages`; the direct path throws on a missing key and otherwise sends the key and the browser-access header to the public endpoint; the body goes as it is |
| Client.CallRouting | public/app.js:326-363 | in proxy mode only `Content-Type` is sent, to base + `/api/messages`; in direct mode a missing key throws before any request, and otherwise the key and the browser-access header go to the public endpoint; both modes send the same body |
| Client.TextOfAnswer | public/app.js:343-344 | the answer's text is the first content block's `text` when that is truthy, whatever else the blocks hold, and `""` when it is not, when there is no first block or no content; only a null body throws |
| Client.ErrorOfAnswer | public/app.js:338-368 | a non-ok answer throws its body's truthy `error.message` (as in a relayed upstream error) and otherwise the prefix and the status; an ok answer never throws a message of its own |
| Client.ModeErrorFallback | public/app.js:338-368 | a non-ok answer without a truthy `error.message` throws `Server error <status>` through the proxy and `Anthropic API error <status>` in direct mode |
| Client.StringContentReadsEmpty | public/app.js:344 | an answer whose `content` is a string reads `""`, since its first character has no `text` |
| Client.EnhanceGuards | public/app.js:375-393 | a request is made iff there is a ready backend and images or non-blank text, and then with the trimmed prompt; a blank prompt with no images focuses the input; the settings recheck the backend unless in direct mode |
| Client.ImageBlockWellFormed | public/app.js:302-309 | the block for an accepted image passes the validator's image rule |
| Client.ValidateClientBody | public/app.js:319-324 | for the client's one-message body, the validator's verdict is that of the content blocks, in order |
| Client.ImageOnlyRequestFailsValidator | public/app.js:313-317 | images with an empty prompt and a blank context give an empty text block, which the validator refuses |
| Client.ClientBodyPassesValidator | public/app.js:298-324 | a valid model, accepted images and 1..50000 characters of text give a body the validator accepts |
| LegacyClient.SameRequestAsDirectMode | app.js:223-270 | with no key it throws `API_KEY_MISSING` first; with one, the request equals the current client's direct-mode request |
| LegacyClient.SendNeverMissesKey | app.js:282-293 | a request is made iff there is a key and something to send, so the key check inside `callClaude` never fires from the button |
| LegacyClient.ErrorFallback | app.js:272-275 | a non-ok answer throws its truthy `error.message`, and otherwise `API error` and the status |

## Left out

- Rate limiting, the outbound timeout and the 504 reply are not modelled because the code has none of them.
- The network, `fetch` and `response.json()` are left out. Their outcome is the `Upstream` or `Answer` parameter. A non-JSON upstream body counts as a failed call, because the source's `catch` treats it as one.
- Express and Vercel wiring is left out: routing by path, `express.json`, static files, the SPA fallback and `app.listen` with its console output.
- `sw.js`, `public/sw.js` and `scripts/validate.js` are not part of this model. They hold caching and build checks, not request logic.
- The DOM, `localStorage` and the page state are left out. They become parameters (`Client.Settings`, the prompt text, the image count, `backendReady`). The spinner, output rendering, copy, and image upload and removal are not modelled.
- JavaScript numbers are exact rationals here. Floating-point rounding is not modelled, and neither is the `String` conversion of non-string `Error` messages (`Client.Outcome` keeps the value passed to `new Error`).
- A string's `length` is its number of characters, not UTF-16 code units. `toLowerCase` is modelled for ASCII letters only.
- `Client.SystemPrompt`: inherited `Object.prototype` names (such as `constructor`) used as a mode are not modelled. In the source they would yield a non-string.
- The `Content-Type` header that `res.json` adds and the key order of serialised JSON are not modelled.
- `LegacyServer.LegacyMessagesRoute`: requires the body to be an object or an array, because `express.json()` in strict mode replies to anything else itself.
- `LegacyServer.HandleLegacyHealth`: Express's method routing (only GET reaches it) is not modelled. The serverless `Health.HandleHealth` answers every method alike, as the source does.
- `Health.HealthAgreesWithMessages`: requires the upstream not to answer 500 itself. A relayed upstream 500 would look like the configuration error.
- `LegacyServer.GatewayOnlyDeployment` and `LegacyServer.LegacyHealthAgreesWithRoute`: these carry the same precondition for the same reason.
