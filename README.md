# A Dafny model of the Postmark API client

This project models the core of `mrz1836/postmark`, a Go client for the
Postmark e-mail service's REST API, and proves properties of that model.
The core has five parts:

- **The request dispatcher.** `doRequest` (`postmark.go`) builds the URL
  from the base URL and the path. It marshals the payload, sets the JSON
  headers and exactly one credential header (the account token or the
  server token), and sends the request. A status of 400 or more becomes a
  structured `APIError` when the body decodes as one, and a raw
  "request failed with status N: body" error otherwise. Below 400 the body
  is decoded into the caller's destination, if there is one.
- **Query building.** `buildURL` and `buildURLWithQuery` (`helpers.go`), and
  the `url.Values` encoding they rely on: keys sorted bytewise ascending,
  each key's values in insertion order, percent-escaping, and `&` between
  pairs.
- **The resource operations.** These are in `templates.go`, `servers.go`,
  `bounce.go`, `messages_outbound.go`, `inbound_rules_triggers.go`,
  `domains.go` and `sender_signatures.go`. Most are delegations that fill a
  request record. Some build a listing query. Two kinds of delete fold the
  dispatcher's error and a decoded `APIError` in opposite orders. The
  template senders check aliases for header injection before anything is
  sent. `Server.MarshalJSON` fills in default field values.
- **Caller option maps.** The paged listings that take a caller's option map
  write `count` and `offset` into that map (allocating a fresh map when the
  caller passed nil) before building the URL.
- **The routing test double** (`test_router.go`). It compiles `:name`
  patterns, keeps a route table in registration order, dispatches each
  request to the first route that matches, and binds path parameters.

Go strings are byte sequences (`GoString = seq<byte>`). `url.Values` is a
map from keys to lists of values. The outside world is a parameter
(`Network`): the request constructor's verdict, and the exchange a request
produces. JSON is also a parameter (`Json`): a marshaller, an unmarshaller
into a destination, and an `APIError` recogniser. The unmarshaller may leave
a partially filled value beside its error, as `encoding/json` does on a type
mismatch. Stateful parts are classes:

- `Client` (its fields and an `HttpClient` that logs what it sent);
- the request being built (`Request`, whose headers are added in place);
- the decode destination (`Destination`);
- a caller's option map (`OptionsMap`);
- the `TestRouter`.

Each stateful method is proved against the pure function `Dispatch` (or
`Serve`, etc.), and the properties are proved about those functions.

Where the code and its description differ, the model follows the code:

- **Credential scope.** A token type other than the account token silently
  selects the server token (`postmark.go:105-110`). The model keeps that
  fallback.
- **Call record.** `doRequest` is written with positional arguments
  (`postmark.go:81`), while most callers pass a `parameters{…}` record. Both
  are modelled as the one record `RequestSpec` (method, path, payload,
  token type).
- **Empty query.** `GetServers`, `GetDomains` and `GetSenderSignatures`
  write `?` and the encoded query themselves instead of calling
  `buildURLWithQuery`. Their query is never empty, so no difference arises.
- **Content-Type.** `Content-Type: application/json` is added to every
  request, with or without a payload (`postmark.go:102-103`), not only to
  those carrying one. `Postmark.SentRequestShape` states both JSON headers
  on every request sent.
- **Raw failure text.** A status of 400 or more whose body is not an
  `APIError` reports the whole body in "request failed with status N: body"
  (`postmark.go:128-130`), not a truncated one. The message of
  `StatusFailure` holds the body in full.

## Model

| member | source | states |
|---|---|---|
| GoStrings.DecimalRoundTrip | domains.go:87-88 | a count or offset written with `%d` parses back as exactly that integer, negative ones included |
| GoStrings.ContainsByte | test_router.go:56 | `strings.Contains(pattern, ":")` holds exactly when the byte `:` occurs in the pattern |
| GoStrings.Split | test_router.go:132 | `strings.Split` yields at least one field and no field contains the separator |
| GoStrings.SplitTrailing | test_router.go:132 | a trailing separator adds exactly one empty field at the end and changes no other field |
| GoStrings.SplitBytes | test_router.go:132 | every byte of every field is a byte of the string split |
| GoStrings.RuneLength | test_router.go:151-154 | one well-formed UTF-8 encoding is 1 to 4 bytes, ASCII alone is 1, it starts with ASCII or 0xC2 to 0xF4, and its other bytes are continuation bytes |
| GoStrings.ASCIIValid | test_router.go:151-154 | ASCII text is valid UTF-8 |
| GoStrings.ValidUTF8Bytes | test_router.go:151-154 | valid UTF-8 holds no 0xC0, 0xC1 or byte from 0xF5 up |
| UrlValues.Add | domains.go:87-88 | `Values.Add` appends the value to the key's list, adds the key, and leaves every other key's list unchanged |
| UrlValues.QueryEscapeHasNoSeparators | helpers.go:13 | an escaped key or value never contains `&`, `=` or `;`, so pairs cannot run into each other |
| UrlValues.UnescapeOfEscape | helpers.go:13 | unescaping an escaped string gives back the original bytes, for every string |
| UrlValues.SortedKeys | helpers.go:13 | the encoder's key order is strictly ascending in Go's bytewise string order and lists each key exactly once |
| UrlValues.SortedKeysUnique | helpers.go:13 | any strictly ascending listing of the key set is that order, so the encoding does not depend on map iteration order |
| UrlValues.ParseOfEncode | helpers.go:13 | parsing an encoded set of values (each key with at least one value) gives back exactly those values and no error |
| UrlValues.EncodeInOrder | helpers.go:13 | when the pairs are listed with ascending keys, one value each, the encoding is exactly those pairs joined by `&` |
| Helpers.Format | helpers.go:24 | `%v` leaves a string as it is, renders an integer so it parses back as that integer, and renders a bool as `true`/`false` |
| Helpers.FormatAll | helpers.go:22-25 | the values built from the options have exactly the options' keys, each with one value, the formatted option |
| Helpers.FormatOneMore | helpers.go:23-25 | adding one more option to the values built so far gives the values of the options visited so far plus that one |
| Helpers.BuildURL | helpers.go:17-27 | whatever order the loop visits the options in, the URL is the one `OptionsURL` defines |
| Helpers.OptionsURLParses | helpers.go:17-27 | nil or empty options give the bare path; otherwise the URL is the path, `?` and a query that parses back to the formatted options with no error |
| Helpers.BuildURLWithQueryParses | helpers.go:9-14 | an empty value set gives the path unchanged; otherwise the path, `?` and a query that parses back to exactly the values |
| Helpers.CountBeforeOffset | domains.go:87-88 | `count` sorts before `offset` |
| Helpers.PagingQueryEncodes | domains.go:86-88 | the count-and-offset values encode as `count=C&offset=O` |
| Helpers.EncodeByFirstByte | helpers.go:13 | keys with strictly increasing first bytes, one value each, encode in the order they are listed |
| Helpers.FilteredValues | templates.go:94-99 | optional filter values present when non-empty, plus fixed pairs, are each found under their keys |
| Postmark.IsUnwrapped | templates.go:221 | `errors.Is` against an error that wraps nothing holds exactly when that error is at the bottom of the `email <i>: ` wrapping chain |
| Postmark.APIErrorMessage | postmark.go:150-152 | `APIError.Error` is the server's `Message` verbatim: an API failure reads as its message, and the error code does not show in it |
| Postmark.EarlyFailuresSendNothing | postmark.go:82-100 | a refused request or a payload that does not marshal ends the call with that error, sends nothing and writes nothing; otherwise exactly one request is sent |
| Postmark.SentRequestShape | postmark.go:82-110 | the request sent has the call's method, the URL base + `/` + path, the marshalled payload exactly when there is one, both JSON headers, and exactly one credential header, the account token exactly when the account scope is asked for |
| Postmark.ExchangeFailures | postmark.go:113-123 | a transport failure or an unreadable body ends the call with that error and nothing is written |
| Postmark.ErrorStatusFails | postmark.go:125-132 | a status of 400 or more always fails without writing: with the decoded `APIError` when the body is one, otherwise with "request failed with status N: body" |
| Postmark.SuccessStatusDecodes | postmark.go:134-138 | below 400, a nil destination succeeds without decoding; otherwise the decoded value is written, or the partial value beside the decoding error |
| Postmark.WrittenOnlyOnSuccessStatus | postmark.go:125-138 | the destination is written only when there is one and the server answered with a status under 400 and a readable body |
| Postmark.FoldsFailAlike | templates.go:118-128 | each delete fold fails exactly when the dispatcher failed or the decoded error code is non-zero |
| Postmark.FoldsDifferOnlyOnPartialDecode | servers.go:227-240 | the two folds give different errors exactly when decoding failed after filling in a non-zero error code |
| Postmark.CodeFirstReportsMessage | servers.go:235-237 | with a non-zero decoded code, the code-first fold returns that `APIError`, whose message is the server's |
| Postmark.Request.AddHeader | postmark.go:102-110 | a header is appended to the request's list and its body is left alone |
| Postmark.HttpClient.Do | postmark.go:113 | the request is logged as sent and the answer is the network's answer to exactly that request |
| Postmark.Client.NewClient | postmark.go:35-42 | a new client holds the two tokens, the given HTTP client and the Postmark base URL |
| Postmark.Client.DoRequest | postmark.go:81-139 | the error, the requests logged and the destination's new value are those `Dispatch` gives for the client's settings and the call |
| Postmark.Client.Get | postmark.go:44-46 | a GET with no payload under the server token |
| Postmark.Client.GetWithAccountToken | postmark.go:48-50 | a GET with no payload under the account token |
| Postmark.Client.Post | postmark.go:52-54 | a POST of the payload under the server token |
| Postmark.Client.PostWithAccountToken | postmark.go:56-58 | a POST of the payload under the account token |
| Postmark.Client.Patch | postmark.go:60-62 | a PATCH of the payload under the server token |
| Postmark.Client.Put | postmark.go:64-66 | a PUT of the payload under the server token |
| Postmark.Client.PutWithAccountToken | postmark.go:68-70 | a PUT of the payload under the account token |
| Postmark.Client.Delete | postmark.go:72-74 | a DELETE with no payload under the server token |
| Postmark.Client.DeleteWithAccountToken | postmark.go:76-78 | a DELETE with no payload under the account token |
| Paging.WithPaging | bounce.go:88-89 | the options after the two writes have the caller's keys plus `count` and `offset` |
| Paging.InjectPaging | bounce.go:84-89 | a nil map is replaced by a fresh one; otherwise the caller's own map is written; either way the entries become the old entries with count and offset overwritten |
| Paging.PagedListingQuery | bounce.go:84-91 | the listing path is the path, `?` and a query that parses back, with no error, to count and offset in decimal (overriding the caller's values) and every other option formatted |
| Paging.PagedValues | bounce.go:88-91 | the formatted options have count and offset in decimal and every other caller option as formatted |
| Paging.BuildPagingQuery | messages_outbound.go:185-187 | the two `Add` calls build the count-and-offset values |
| Paging.PagingPath | messages_outbound.go:189 | `buildURLWithQuery` on those values is the path, `?`, `count=C&offset=O` |
| Templates.ValidateTemplateAlias | templates.go:15-20 | an alias is refused, with the header-injection error, exactly when it contains CR or LF |
| Templates.FirstInvalidAlias | templates.go:220-224 | no index exactly when every alias is valid; otherwise the first index whose alias is refused |
| Templates.FirstInvalidAt | templates.go:220-224 | the first refused alias is the one reported |
| Templates.TemplatesQueryKeys | templates.go:88-99 | the filtered listing query has `count` and `offset`, plus `TemplateType` and `LayoutTemplate` exactly when they are non-empty |
| Templates.TemplatesQueryValues | templates.go:88-99 | each key of the filtered listing query holds its single value |
| Templates.TemplatesKeysIncrease | templates.go:88-99 | the query's keys have strictly increasing first bytes (`L`, `T`, `c`, `o`) |
| Templates.TemplatesQueryEncodes | templates.go:88-100 | the query encodes as the layout filter, the type filter, then `count=C&offset=O` |
| Templates.UnfilteredTemplatesPath | templates.go:78-80 | with neither filter the listing path is `templates?count=C&offset=O` |
| Templates.BuildTemplatesQuery | templates.go:88-99 | the successive `Add` calls build the filtered listing query |
| Templates.GetTemplate | templates.go:63-67 | GET `templates/<id>`, answered as the dispatcher answers |
| Templates.GetTemplatesFiltered | templates.go:85-101 | GET the built listing URL; the page and total are what the dispatcher decodes |
| Templates.GetTemplates | templates.go:78-80 | GET `templates?count=C&offset=O` |
| Templates.CreateTemplate | templates.go:104-108 | POST the template to `templates` |
| Templates.EditTemplate | templates.go:111-115 | PUT the template to `templates/<id>` |
| Templates.DeleteTemplate | templates.go:118-128 | DELETE `templates/<id>`; the dispatcher's error first, then a non-zero decoded code |
| Templates.ValidateTemplate | templates.go:163-167 | POST the body to `templates/validate` |
| Templates.SendTemplatedEmail | templates.go:206-215 | a refused alias returns the zero response and the header-injection error and sends nothing; otherwise POST the e-mail to `email/withTemplate` |
| Templates.SendTemplatedEmailBatch | templates.go:218-232 | the first refused alias returns no responses and "email i" wrapping the header-injection error, which `errors.Is` recognises, sending nothing; otherwise POST `{Messages: emails}` to `email/batchWithTemplates` |
| Templates.BatchRefusalIs | templates.go:219-223 | a refused batch's error is recognised as `ErrHeaderInjection` and as no other error that wraps nothing |
| Templates.PushTemplates | templates.go:265-269 | PUT the request to `templates/push` under the account token |
| Servers.WithDefaults | servers.go:142-167 | an empty TrackLinks becomes `None`, an empty DeliveryType becomes `Live`, set values are kept, and no other field changes |
| Servers.DefaultsFilled | servers.go:145-155 | the marshalled form never has an empty TrackLinks or DeliveryType |
| Servers.WithDefaultsIdempotent | servers.go:142-167 | filling defaults twice is filling them once, so marshalling a defaulted server is marshalling the server |
| Servers.DefaultsIndistinguishable | servers.go:145-155 | a server with both fields empty marshals exactly like one holding `None` and `Live` |
| Servers.ServersQueryKeys | servers.go:186-192 | the listing query has `count` and `offset`, plus `name` exactly when the name is non-empty |
| Servers.ServersQueryValues | servers.go:186-192 | each key of the listing query holds its single value |
| Servers.ServersKeysIncrease | servers.go:186-192 | the keys have strictly increasing first bytes (`c`, `n`, `o`) |
| Servers.ServersQueryEncodes | servers.go:186-196 | the query encodes as `count=C&`, then `name=N&` when a name is given, then `offset=O` |
| Servers.ServersPairsText | servers.go:186-196 | those pairs joined give that text |
| Servers.ServersListingPath | servers.go:194-196 | the listing path is `servers?` followed by that text |
| Servers.BuildServersQuery | servers.go:186-192 | the successive `Add` calls build the listing query |
| Servers.GetServer | servers.go:170-178 | GET `servers/<id>` under the account token |
| Servers.GetServers | servers.go:183-200 | GET the listing path under the account token |
| Servers.EditServer | servers.go:203-212 | PUT the request to `servers/<id>` under the account token |
| Servers.CreateServer | servers.go:215-224 | POST the request to `servers` under the account token |
| Servers.DeleteServer | servers.go:227-240 | DELETE `servers/<id>` under the account token; a non-zero decoded code first, then the dispatcher's error |
| Bounces.GetDeliveryStats | bounce.go:29-33 | GET `deliverystats` |
| Bounces.GetBounces | bounce.go:81-93 | the caller's options (if any) get count and offset; GET the `bounces` URL built from the old options with count and offset written in |
| Bounces.GetBounce | bounce.go:96-100 | GET `bounces/<id>` |
| Bounces.GetBounceDump | bounce.go:107-111 | GET `bounces/<id>/dump`, returning the decoded body |
| Bounces.ActivateBounce | bounce.go:121-125 | PUT with no payload to `bounces/<id>/activate`, returning the bounce and the message |
| Bounces.GetBouncedTags | bounce.go:128-132 | GET `bounces/tags` into an empty list |
| OutboundMessages.GetOutboundMessage | messages_outbound.go:66-70 | GET `messages/outbound/<id>/details` |
| OutboundMessages.GetOutboundMessageDump | messages_outbound.go:73-77 | GET `messages/outbound/<id>/dump` |
| OutboundMessages.GetOutboundMessages | messages_outbound.go:88-100 | the options listing of `messages/outbound`, writing count and offset into the caller's map |
| OutboundMessages.GetOutboundMessagesOpens | messages_outbound.go:166-178 | the options listing of `messages/outbound/opens` |
| OutboundMessages.GetOutboundMessageOpens | messages_outbound.go:182-191 | GET `messages/outbound/opens/<id>?count=C&offset=O` |
| OutboundMessages.GetOutboundMessagesClicks | messages_outbound.go:197-209 | the options listing of `messages/outbound/clicks` |
| OutboundMessages.GetOutboundMessageClicks | messages_outbound.go:213-222 | GET `messages/outbound/clicks/<id>?count=C&offset=O` |
| InboundRuleTriggers.GetInboundRuleTriggers | inbound_rules_triggers.go:33-43 | GET `triggers/inboundrules?count=C&offset=O` |
| InboundRuleTriggers.CreateInboundRuleTrigger | inbound_rules_triggers.go:46-56 | POST `{Rule: rule}` to `triggers/inboundrules` |
| InboundRuleTriggers.DeleteInboundRuleTrigger | inbound_rules_triggers.go:59-69 | DELETE `triggers/inboundrules/<id>`; the dispatcher's error first |
| Domains.GetDomains | domains.go:83-96 | GET `domains?count=C&offset=O` under the account token |
| Domains.GetDomain | domains.go:99-107 | GET `domains/<id>` under the account token |
| Domains.EditDomain | domains.go:110-119 | PUT the request to `domains/<id>` under the account token |
| Domains.CreateDomain | domains.go:122-131 | POST the request to `domains` under the account token |
| Domains.DeleteDomain | domains.go:134-147 | DELETE `domains/<id>` under the account token; the decoded code first |
| Domains.VerifyDKIMStatus | domains.go:150-158 | PUT with no payload to `domains/<id>/verifyDkim` under the account token |
| Domains.VerifyReturnPath | domains.go:161-169 | PUT with no payload to `domains/<id>/verifyReturnPath` under the account token |
| Domains.RotateDKIM | domains.go:175-183 | POST with no payload to `domains/<id>/rotatedkim` under the account token |
| SenderSignatures.GetSenderSignatures | sender_signatures.go:127-140 | GET `senders?count=C&offset=O` under the account token |
| SenderSignatures.GetSenderSignature | sender_signatures.go:143-151 | GET `senders/<id>` under the account token |
| SenderSignatures.CreateSenderSignature | sender_signatures.go:154-163 | POST the request to `senders` under the account token |
| SenderSignatures.EditSenderSignature | sender_signatures.go:166-175 | PUT the request to `senders/<id>` under the account token |
| SenderSignatures.DeleteSenderSignature | sender_signatures.go:178-191 | DELETE `senders/<id>` under the account token; the decoded code first |
| SenderSignatures.ResendSenderSignatureConfirmation | sender_signatures.go:194-207 | POST with no payload to `senders/<id>/resend` under the account token; the decoded code first |
| TestRouting.Compiled | test_router.go:132-147 | a compiled pattern has no empty literal and no segment containing `/` |
| TestRouting.CompiledParamNames | test_router.go:138-141 | the parameter names are, in order, exactly the parts that start with `:`, with the `:` removed |
| TestRouting.CompiledTrailingSlash | test_router.go:134-136 | a trailing `/` on a pattern compiles to the same segments |
| TestRouting.CompilePattern | test_router.go:128-157 | the loop's segments are the pattern's compiled segments and its parameters are their names; it panics with "invalid pattern: P" exactly when a literal is not valid UTF-8 |
| TestRouting.CompilePartsASCII | test_router.go:143-146 | parts made of ASCII bytes compile to literals that are valid UTF-8 |
| TestRouting.ASCIIPatternCompiles | test_router.go:151-154 | a pattern made of ASCII bytes always compiles, so registering it never panics |
| TestRouting.InvalidLiteralPanics | test_router.go:151-154 | `/\xff/:id` has a literal that is not valid UTF-8, so registering it panics |
| TestRouting.Match | test_router.go:107 | a match has one capture per parameter |
| TestRouting.MatchBySegments | test_router.go:138-149 | the pattern matches a path exactly when the path splits at `/` into an empty field and then one field per segment, a literal equal to its text and a parameter non-empty; the captures are the parameters' fields |
| TestRouting.BindUnbound | test_router.go:115-119 | a name that is no parameter keeps whatever the context held |
| TestRouting.BindLast | test_router.go:115-119 | a parameter is bound to the submatch of its last position |
| TestRouting.GetPathParam | test_router.go:164-169 | the bound value, or `""` when the name is unbound |
| TestRouting.RouteFor | test_router.go:48-58 | a route is compiled exactly when its pattern contains `:` |
| TestRouting.ExactRoute | test_router.go:97-103 | a route without `:` matches only the path equal to its pattern, and keeps the request's context |
| TestRouting.PatternRoute | test_router.go:56-58 | a route with `:` carries the compiled segments and their names, and matches exactly the aligned paths |
| TestRouting.PatternContext | test_router.go:106-122 | on a match, the handler's context is the request's context with the parameters bound |
| TestRouting.PathParamBound | test_router.go:113-123 | in that context each parameter reads back as its capture |
| TestRouting.PathParamUnbound | test_router.go:113-123 | a name that is no parameter reads back as before the match (`""` when it was unbound) |
| TestRouting.ServeFirst | test_router.go:32-41 | the first route with the request's method that matches is the one that handles it |
| TestRouting.ServeNotFound | test_router.go:32-45 | the answer is 404 exactly when no route has both the method and a matching pattern |
| TestRouting.ServeEarlierWins | test_router.go:60 | registering another route never changes how an already served request is served |
| TestRouting.TestRouter.constructor | test_router.go:25-29 | a new router has no routes |
| TestRouting.TestRouter.HandleFunc | test_router.go:48-61 | a pattern with `:` whose literals are not all valid UTF-8 panics with "invalid pattern: P" and registers nothing; any other pattern appends exactly one route and leaves the earlier routes unchanged |
| TestRouting.TestRouter.Get | test_router.go:64-66 | registers the pattern for GET, with `HandleFunc`'s panic |
| TestRouting.TestRouter.Post | test_router.go:69-71 | registers the pattern for POST, with `HandleFunc`'s panic |
| TestRouting.TestRouter.Put | test_router.go:74-76 | registers the pattern for PUT, with `HandleFunc`'s panic |
| TestRouting.TestRouter.Delete | test_router.go:79-81 | registers the pattern for DELETE, with `HandleFunc`'s panic |
| TestRouting.TestRouter.Patch | test_router.go:84-86 | registers the pattern for PATCH, with `HandleFunc`'s panic |
| TestRouting.TestRouter.ServeHTTP | test_router.go:32-45 | the loop serves the request as `Serve` does: first taker, else 404 |
| TestRouting.TestRouter.MatchRoute | test_router.go:89-94 | exact comparison for an uncompiled route, the matcher otherwise |
| TestRouting.TestRouter.MatchExactRoute | test_router.go:97-103 | a match exactly when the path equals the pattern, with the request's own context |
| TestRouting.TestRouter.MatchPatternRoute | test_router.go:106-124 | the binding loop gives the context `RouteMatch` defines |

## Left out

- HTTP transport, TCP, redirects and the body reader: the network is a parameter that gives a transport error or a status and a body read.
- Context cancellation and deadlines: a cancelled context is one more transport error; the context carries nothing else.
- `encoding/json`: marshalling, decoding into a destination and recognising an `APIError` are parameters; so `Server.MarshalJSON` is modelled by the record it hands to the encoder.
- The record types of the resources (`Template`, `Bounce`, `Domain`, …) are type parameters, each with its Go zero value passed in; the inbound rule trigger, the `Server` record and the small request and response records are modelled field by field, except for the four fields of `TemplatedEmail` named below.
- Templates.TemplatedEmail: the fields `TemplateModel`, `Headers`, `Attachments` and `Metadata` (templates.go:176, 192, 198, 202) are not modelled. No modelled behaviour reads them: the alias guard looks only at `TemplateAlias`, and the whole record goes to the abstract marshaller.
- The regular expression engine: a compiled pattern is its segment list, and `FindStringSubmatch` is the segment matcher `TestRouting.Match`.
- `regexp.QuoteMeta` and `regexp.Compile` are not modelled as text. `QuoteMeta` escapes byte by byte and passes invalid UTF-8 through, so `Compile` refuses the built expression, and `compilePattern` panics with "invalid pattern: P" (test_router.go:151-154), exactly when a literal segment of a pattern containing `:` is not valid UTF-8. The model states that condition directly (`TestRouting.LiteralsValid`, with `GoStrings.ValidUTF8` following Go's decoder) and returns the panic as an outcome of `TestRouting.TestRouter.HandleFunc`. The size limit Go puts on very large expressions is not modelled.
- TestRouting.Match: compares a literal with the path byte by byte. Go's matcher reads each invalid byte of the path as U+FFFD, so in Go a literal spelling U+FFFD (the bytes EF BF BD) also matches a lone invalid byte of the path; the model does not capture that. A parameter (`[^/]+`) matches the same non-empty runs of non-`/` bytes in both.
- The handler call and the response writer: a handler is an opaque id, and serving a request yields the handler and the context it runs with, or 404.
- Floating-point option values and `%v` for types other than strings, integers and booleans.
- `fmt.Sprintf("%d")` is modelled on unbounded integers; the `int64` range itself is not modelled.
- `stats.go`, `events.go`, `server.go`, `data_removals.go`, the examples and the tests are not part of this model.
