# Apify integration: gateway and front end, modelled in Dafny

The system lets a user sign in to the Apify platform with an API key, pick
one of their actors, fill in a form generated from the actor's input schema,
start a run, follow its status, and look at the run's dataset items.

It has two halves:

- **The Express gateway.** It has a bearer-token middleware, a `POST /validate`
  route, and five actor routes. A service layer makes exactly one request to
  the platform's REST API per operation. It hands back the platform's body, or
  throws a `{status, message, details}` error. The routes wrap that result in a
  `{success, data}` or `{success, error: {code, message, details}}` envelope.
- **The React front end.** It has a fetch-based client for the gateway, the
  application shell, the sign-in form, the actor picker, the schema-driven
  form and its fields, the run-status poller, and the results panel.

## How the model is built

- **JavaScript values.** They are the datatype `JsValue.Value`: undefined,
  null, booleans, integers, strings, arrays and objects. An object is an
  ordered list of entries in insertion order. That is JavaScript's key order
  for keys that are not integer-like; JavaScript lists integer-like keys
  first, in ascending order, and the model does not.
  - Truthiness, `||`, property reads and `?.` are functions on that datatype.
  - A property read on `null`/`undefined` is a `Failure` with the TypeError's
    message.
  - Object spread and `{...prev, [k]: v}` are functions too.
- **Strings.** They are `seq<char>`. `trim`, `split`, `join`, `startsWith`,
  the first-occurrence `replace` and `parseInt` are written out in `JsString`.
- **Gateway code.** It is pure and becomes functions. The platform is a
  parameter: a function from the request to how the HTTP client call ends (a
  reply, an HTTP error with status and body, or no response). That makes "one
  upstream request per operation" a statement about which request the answer
  depends on.
- **Front-end components.** Each stateful component is a `class` whose fields
  are its `useState` variables, plus whatever it writes to the outside:
  - session storage;
  - the number of requests issued;
  - the callbacks made to its parent.

  Each handler is a method with `modifies this`. Its `ensures` ties the new
  state to a pure step function of the old state. The lemmas state what the
  source promises about those step functions.
- **Settled requests.** A request that settles is an argument. For a
  front-end API call, that is `Result<Value, string>`: the resolved body, or
  the message of the error it rejects with.

## Where the code departs from its evident intent

The model follows the code in each case below.

- **An actor build whose OpenAPI document has no input schema.** The code's
  `try` throws `{status: 404, …}`, but its own `catch` turns that into a 500
  `FETCH_INPUT_SCHEMA_ERROR`. That is because the thrown literal has no
  upstream `response` (`backend/services/apifyService.js:68-86`). See
  `ApifyService.MissingSchemaIsServerError` and
  `ActorRoutes.MissingSchemaRoute`.
- **The run-status interval is cleared only by the effect's cleanup.** A
  terminal status sets `isPolling` to false, but the interval keeps firing
  and each tick issues another request (`frontend/src/components/RunStatus.jsx:19-42`).
  See `RunStatus.IntervalOutlivesTerminal`.
- **The form's data starts as `{}`.** The fields' defaults are never put into
  it, so a field the user leaves alone is absent from the submitted inputs,
  even when its schema has a default (`frontend/src/components/DynamicForm.jsx:5`).
  See `DynamicForm.DefaultsNotSubmitted`.
- **The gateway as started mounts only the validation router.** The actor
  routes are modelled as their router defines them
  (`backend/server.js:21`).

## Model

| member | source | states |
|---|---|---|
| ApifyService.Classify | backend/services/apifyService.js:109-128 | The shared `catch` rule. An upstream 401 is always "Invalid API key". A 404 is the operation's "not found" error where it checks one. A 400 is "Invalid input parameters" with the platform's body as details where it checks one. Everything else, including an error with no upstream response, is a 500 with the operation's message and the caught message as details. Every thrown status is 400, 401, 404 or 500. |
| ApifyService.ValidateApiKey | backend/services/apifyService.js:3-24 | A falsy key fails 401 "API key is required". A reply gives the account body unchanged. An upstream 401 gives "Invalid API key". Any other upstream status, or no response at all, gives 500 "Failed to validate API key" with the caught message as details. |
| ApifyService.GetActors | backend/services/apifyService.js:26-47 | The same guard and pass-through as validation. Any upstream status but 401, or no response, gives 500 "Failed to fetch actors" with the caught message as details. |
| ApifyService.SchemaOf | backend/services/apifyService.js:66 | Reading `components` fails exactly on a missing body. Otherwise the result is `components.schemas.inputSchema`, or undefined when either optional level is missing. |
| ApifyService.SchemaTry | backend/services/apifyService.js:56-74 | An upstream error is caught as it came. A reply gives `{inputSchema}` exactly when the schema is read and truthy. A falsy schema raises the not-found error and a missing body the TypeError, neither with an upstream response. |
| ApifyService.GetActorInputSchema | backend/services/apifyService.js:49-88 | Guards for the key (401) and the actor id (400). An upstream 401 or 404 is mapped to its own error. Any other upstream status, or no response, gives 500 "Failed to fetch actor input schema" with the caught message as details. A success is exactly `{inputSchema}` holding a truthy schema. |
| ApifyService.ExecuteActor | backend/services/apifyService.js:90-129 | Guards for the key and the actor id. A reply gives the run record. Upstream 401, 404 and 400 become "Invalid API key", "Actor not found" and "Invalid input parameters"; the 400 carries the platform's body as details. Any other upstream status, or no response, gives 500 "Failed to execute actor" with the caught message as details. |
| ApifyService.GetRunStatus | backend/services/apifyService.js:131-161 | Guards for the key and the run id (400 "Run ID is required"). A reply is passed through. A 404 is "Run not found". Any other upstream status but 401, or no response, gives 500 "Failed to fetch run status" with the caught message as details. |
| ApifyService.GetRunResults | backend/services/apifyService.js:163-193 | Guards for the key and the run id. A reply is passed through. A 404 is "Run results not found". Any other upstream status but 401, or no response, gives 500 "Failed to fetch run results" with the caught message as details. |
| ApifyService.MissingSchemaIsServerError | backend/services/apifyService.js:66-86 | A reply without `components.schemas.inputSchema` ends as a 500 whose details are "Input schema not found for this actor", not as a 404. |
| ApifyService.SchemaExtracted | backend/services/apifyService.js:66-74 | A reply that carries a schema yields `{inputSchema}` holding exactly the schema read from the document. |
| ApifyService.NoCallWithoutKey | backend/services/apifyService.js:4-6 | Without a key, each of the six operations gives the same answer whatever the platform would say, so nothing is requested. |
| ApifyService.NoCallWithoutId | backend/services/apifyService.js:53-55 | With a key but a falsy id, the four id-taking operations fail with their 400 and depend on nothing upstream. |
| GatewayEnvelope.ServiceStatusKept | backend/routes/actors.js:20 | `error.status \|\| 500` keeps every status a service operation can throw, so the HTTP status is the service's status. |
| GatewayEnvelope.StatusOr500 | backend/routes/actors.js:20 | `error.status \|\| 500` never answers with status 0 and keeps every non-zero status. |
| AuthMiddleware.ExtractApiKey | backend/middleware/auth.js:1-14 | Rejects with 401 `NO_API_KEY` exactly when the header is missing or lacks the case-sensitive `"Bearer "` prefix. Otherwise the key is the rest of the header, trimmed. |
| AuthMiddleware.BlankBearerAccepted | backend/middleware/auth.js:3-13 | `"Bearer "` followed only by whitespace passes the middleware, with an empty key. |
| AuthMiddleware.TokenRoundTrip | backend/middleware/auth.js:12 | A header built from a token with no surrounding whitespace gives back exactly that token. |
| AuthRoutes.ValidateErrorCode | backend/routes/auth.js:17 | The code is `INVALID_API_KEY` if and only if the status is 401; otherwise it is `VALIDATION_ERROR`. |
| AuthRoutes.ValidateHandler | backend/routes/auth.js:6-23 | A success answers 200 with the account as `data`. A failure answers with the service error's status, message and details under the status-derived code. |
| AuthRoutes.PostValidate | backend/routes/auth.js:6-23 | A request the middleware rejects is answered 401 `NO_API_KEY`. An accepted request is answered by the validation handler with the extracted key. Every answer is 200, 401 or 500, and the body is a success envelope exactly when the status is 200. |
| AuthRoutes.ValidateAnswers | backend/routes/auth.js:6-23 | Every answer of `POST /validate` is one of the following: 200 with data; 401 with `NO_API_KEY` or `INVALID_API_KEY`; or 500 `VALIDATION_ERROR`. |
| AuthRoutes.ValidateRefusedKey | backend/routes/auth.js:13-17 | A key the platform refuses with 401 is answered 401 `INVALID_API_KEY`, "Invalid API key". |
| AuthRoutes.ValidateBlankBearer | backend/routes/auth.js:6-21 | A blank bearer token passes the middleware and is answered 401 `INVALID_API_KEY`, "API key is required". No upstream call is made. |
| ActorRoutes.ErrorCode | backend/routes/actors.js:20-128 | 401 is `INVALID_API_KEY` on every route and nowhere else. The list route gives `FETCH_ACTORS_ERROR` otherwise. The schema route gives `INPUT_SCHEMA_NOT_FOUND` for 404 and `FETCH_INPUT_SCHEMA_ERROR` otherwise. The run route gives `ACTOR_NOT_FOUND` for 404, `INVALID_INPUTS` for 400 and `EXECUTION_ERROR` otherwise. The status and results routes give `RUN_NOT_FOUND` and `RUN_RESULTS_NOT_FOUND` for 404, and `FETCH_RUN_STATUS_ERROR` and `FETCH_RUN_RESULTS_ERROR` otherwise. |
| ActorRoutes.RouteCodes | backend/routes/actors.js:20-128 | Every route can answer `INVALID_API_KEY`; `NO_API_KEY` belongs to the middleware, not to a route. |
| ActorRoutes.ServiceCall | backend/routes/actors.js:12-134 | A service failure has status 400, 401, 404 or 500, and the list route never fails with 400 or 404. |
| ActorRoutes.UpstreamRequestOf | backend/services/apifyService.js:26-193 | Every platform request carries the key as `Bearer <key>` under the platform's base URL. Only the run request is a POST, and only it carries a body: the route's request body, sent as JSON. |
| ActorRoutes.Handler | backend/routes/actors.js:56-84 | A service success is 200 `{success: true, data}`. A service error keeps its status, message and details, with the route's code. |
| ActorRoutes.Handle | backend/routes/actors.js:12-134 | A request the middleware rejects is answered 401 `NO_API_KEY`. Every answer is 200, 400, 401, 404 or 500, and the body is a success envelope exactly when the status is 200. |
| ActorRoutes.HandleAccepted | backend/routes/actors.js:12 | Once the middleware accepts a key, the route's answer is the handler's for that key. |
| ActorRoutes.NoHeaderRejected | backend/middleware/auth.js:3-10 | Without a Bearer header every actor route answers 401 `NO_API_KEY`, whatever the upstream would say. |
| ActorRoutes.OneUpstreamRequest | backend/routes/actors.js:31-38 | A handler's answer depends on the platform only through the one request that route makes. |
| ActorRoutes.RunForwardsBody | backend/routes/actors.js:56-66 | The run route sends the request body, unchanged, as the run input and answers 200 with the platform's run record. |
| ActorRoutes.RunRoutesIgnoreActorId | backend/routes/actors.js:86-89 | The status and results routes answer the same whatever the `:actorId` path parameter is. |
| ActorRoutes.Answers | backend/routes/actors.js:12-29 | Success is always 200. An error carries `NO_API_KEY` or one of the route's own codes. `INVALID_API_KEY` is always a 401. |
| ActorRoutes.UpstreamRefusalOnEveryRoute | backend/routes/actors.js:20-23 | An upstream 401 is answered 401 `INVALID_API_KEY`, "Invalid API key", on every route. |
| ActorRoutes.SchemaNotFound | backend/routes/actors.js:40-48 | An upstream 404 for the schema is answered 404 `INPUT_SCHEMA_NOT_FOUND`. |
| ActorRoutes.MissingSchemaRoute | backend/routes/actors.js:40-48 | A 200 reply without a schema is answered 500 `FETCH_INPUT_SCHEMA_ERROR`, with the "not found" text as details. |
| ActorRoutes.RejectedInputs | backend/routes/actors.js:68-78 | A run the platform rejects with 400 is answered 400 `INVALID_INPUTS`, echoing the platform's error body as details. |
| JsString.TrimFacts | backend/middleware/auth.js:12 | `trim` leaves no whitespace at either end, gives "" for an all-whitespace string, and adds no character. |
| JsString.TrimTrimmed | backend/middleware/auth.js:12 | `trim` changes nothing on a string with no surrounding whitespace. |
| JsString.TrimEmptyIffBlank | frontend/src/components/ApiKeyForm.jsx:12 | `trim` gives "" exactly for a string made of whitespace only. |
| JsString.ReplaceFirst | backend/middleware/auth.js:12 | Replacing a leading pattern drops exactly that prefix. A string without the pattern is unchanged. |
| JsString.IndexOfFrom | backend/middleware/auth.js:12 | The index returned is the first occurrence at or after the start. No index means no occurrence. |
| JsString.JoinSplit | frontend/src/components/FieldBox.jsx:88-89 | Joining the pieces of a split with the separator gives back the original text. |
| JsString.SplitJoin | frontend/src/components/FieldBox.jsx:88-89 | Splitting a join of separator-free pieces gives back exactly those pieces. |
| JsString.SplitAtSeparator | frontend/src/components/FieldBox.jsx:88-89 | Splitting at one occurrence of the separator splits the two sides independently and concatenates the pieces. |
| JsString.Trim | backend/middleware/auth.js:12 | `trim` never makes a string longer. |
| JsString.Split | frontend/src/components/FieldBox.jsx:89 | `split` always gives at least one piece, and no piece contains the separator. |
| JsString.ParseInt | frontend/src/components/FieldBox.jsx:56 | A number is read only from text that contains a decimal digit; a negative number only from text that contains a `-`. |
| JsString.DigitPrefix | frontend/src/components/FieldBox.jsx:56 | The prefix `parseInt` reads is the longest run of digits at the start. |
| JsString.ParseIntString | frontend/src/components/FieldBox.jsx:56 | `parseInt` of an integer's decimal text is that integer. |
| JsString.NonNumericIsZero | frontend/src/components/FieldBox.jsx:56 | Text not starting (after blanks) with a sign or digit parses to NaN, so `\|\| 0` gives 0. |
| JsValue.Put | frontend/src/components/DynamicForm.jsx:15-18 | `{...prev, [k]: v}` maps k to v and keeps every other key's value. It appends k only when k is new. It keeps the keys distinct. |
| JsValue.SpreadLookup | frontend/src/components/DynamicForm.jsx:9-10 | After `{...target, ...source}` a key has the source's value if the source has it, else the target's. |
| JsValue.SpreadKeepsTargetKeys | frontend/src/components/DynamicForm.jsx:9-10 | Spreading keeps the target's keys first and in their insertion order, so `name` stays the first key of a field (integer-like keys are not reordered; see Left out). |
| FieldBox.InitialValue | frontend/src/components/FieldBox.jsx:4 | A field starts with its default when that is truthy, and with "" otherwise. |
| FieldBox.FalsyDefaultStartsEmpty | frontend/src/components/FieldBox.jsx:4 | A default of 0 or false is shown in the hint, but the field starts as "". |
| FieldBox.ShowsDefault | frontend/src/components/FieldBox.jsx:152 | The "Default:" hint is shown only for an object field that has a `default` key. |
| FieldBox.ShowsRange | frontend/src/components/FieldBox.jsx:158 | The "Range:" hint is shown only for an object field that has both `minimum` and `maximum` keys. |
| FieldBox.ZeroRangeShown | frontend/src/components/FieldBox.jsx:158 | The range hint tests presence, not truthiness: a minimum of 0 shows it exactly when a maximum is present. |
| FieldBox.IsUrlObjectArray | frontend/src/components/FieldBox.jsx:12-20 | The URL case needs an array type, an object `items` and an object `properties` holding a `url` key. |
| FieldBox.WidgetOf | frontend/src/components/FieldBox.jsx:22-134 | Each widget is chosen exactly when its type test holds: an enum select for a string with `enum`, a number input, a checkbox, the URL textarea, the comma list, and a text input for every other type. |
| FieldBox.UrlObjectArrayWidget | frontend/src/components/FieldBox.jsx:12-20 | An array of objects with a `url` property gets the URL-per-line textarea. |
| FieldBox.SplitTrimmed | frontend/src/components/FieldBox.jsx:88-91 | Every piece left after split, trim and filter is non-empty, trimmed and free of the separator. |
| FieldBox.NonEmpty | frontend/src/components/FieldBox.jsx:91 | The filter keeps only non-empty strings and never grows the list. |
| FieldBox.NonEmptySingle | frontend/src/components/FieldBox.jsx:91 | One string is kept exactly when it is not empty. |
| FieldBox.NonEmptyConcat | frontend/src/components/FieldBox.jsx:91 | The filter distributes over concatenation, so it decides string by string and keeps the order. |
| FieldBox.TrimEach | frontend/src/components/FieldBox.jsx:90 | Trimming each piece keeps the number of pieces, and the i-th result is the i-th piece trimmed. |
| FieldBox.TrimEachConcat | frontend/src/components/FieldBox.jsx:90 | Trimming each piece distributes over concatenation. |
| FieldBox.SplitTrimmedLine | frontend/src/components/FieldBox.jsx:88-91 | Text without the separator gives its trimmed form, or nothing when that is empty. |
| FieldBox.SplitTrimmedConcat | frontend/src/components/FieldBox.jsx:88-91 | The text on either side of a separator is parsed independently and the results are concatenated. |
| FieldBox.SplitTrimmedStep | frontend/src/components/FieldBox.jsx:88-91 | The first line is dropped when blank and kept trimmed otherwise, followed by the parse of the rest, in order. |
| FieldBox.TrailingSeparatorIgnored | frontend/src/components/FieldBox.jsx:88-92 | A separator typed at the end of the text changes neither the URL list nor the comma list that is sent. |
| FieldBox.TrailingNewlineLost | frontend/src/components/FieldBox.jsx:80-93 | Because the URL textarea shows the parsed list, a newline typed after clean URLs is gone from the text it shows next. |
| FieldBox.UrlObjects | frontend/src/components/FieldBox.jsx:92 | One `{url}` object per URL, in order. |
| FieldBox.UrlBlankLineExample | frontend/src/components/FieldBox.jsx:88-92 | "a", a blank line and "b" give the two URLs "a" and "b". |
| FieldBox.CleanJoinSplits | frontend/src/components/FieldBox.jsx:88-91 | Splitting, trimming and filtering the join of clean pieces gives back exactly those pieces. |
| FieldBox.ParseUrlList | frontend/src/components/FieldBox.jsx:88-92 | The URL textarea yields an array of `{url}` objects, each holding a non-empty, trimmed, single-line URL. Which lines they come from is stated by SplitTrimmedStep and SplitTrimmedConcat. |
| FieldBox.ParseCommaList | frontend/src/components/FieldBox.jsx:111-114 | The comma textarea yields an array of non-empty, trimmed strings without commas. Which pieces they come from is stated by SplitTrimmedStep and SplitTrimmedConcat. |
| FieldBox.CoerceInteger | frontend/src/components/FieldBox.jsx:56 | `parseInt(text) \|\| 0`: the parsed integer, or 0 when the text does not parse. |
| FieldBox.UrlCells | frontend/src/components/FieldBox.jsx:80-81 | The display reads `url` of every item. It fails exactly when some item is null or undefined. |
| FieldBox.UrlDisplay | frontend/src/components/FieldBox.jsx:80-81 | A value that is not an array shows as "". The display fails exactly when some item is null or undefined. |
| FieldBox.ListDisplay | frontend/src/components/FieldBox.jsx:109 | An array is shown as one string; anything else is shown as it is. |
| FieldBox.UrlListRoundTrip | frontend/src/components/FieldBox.jsx:80-92 | A list of clean URLs is shown as its lines joined by newlines, and parsing that text gives back the same list. |
| FieldBox.UrlParseIdempotent | frontend/src/components/FieldBox.jsx:80-92 | Parsing, showing and parsing again changes nothing. |
| FieldBox.CommaListRoundTrip | frontend/src/components/FieldBox.jsx:109-114 | A list of clean strings is shown joined by ", ", and parsing that text gives back the same list. |
| FieldBox.CommaListExample | frontend/src/components/FieldBox.jsx:111-114 | "a, b ,c" parses to ["a", "b", "c"]. |
| FieldBox.CoerceIntegerExamples | frontend/src/components/FieldBox.jsx:56 | "42" gives 42 and "abc" gives 0. |
| FieldBox.CoerceIntegerString | frontend/src/components/FieldBox.jsx:56 | The number input gives back any integer typed as its decimal text. |
| FieldBox.FieldState.constructor | frontend/src/components/FieldBox.jsx:3-4 | A field starts with its initial value and has sent nothing. |
| FieldBox.FieldState.HandleChange | frontend/src/components/FieldBox.jsx:6-9 | The local value becomes the new value, and exactly that value is appended to what was sent to `onChange`. |
| FieldBox.FieldState.ChangeUrlText | frontend/src/components/FieldBox.jsx:87-94 | A URL-textarea edit sets and sends the parsed URL list. |
| FieldBox.FieldState.ChangeListText | frontend/src/components/FieldBox.jsx:110-116 | A comma-textarea edit sets and sends the parsed list. |
| FieldBox.FieldState.ChangeNumberText | frontend/src/components/FieldBox.jsx:56 | A number-input edit sets and sends the coerced integer. |
| FieldBox.FieldState.ChangeChecked | frontend/src/components/FieldBox.jsx:70 | A checkbox edit sets and sends the checked flag. |
| FieldBox.FieldState.ChangeText | frontend/src/components/FieldBox.jsx:45 | A select or text edit sets and sends the text as typed, the empty string included. |
| DynamicForm.EntriesOf | frontend/src/components/DynamicForm.jsx:8 | `Object.entries` throws exactly on null or undefined. On an object it gives that object's own entries in order. |
| DynamicForm.RequiredFlag | frontend/src/components/DynamicForm.jsx:11 | `required?.includes(key)` succeeds exactly on a missing list, an array or a string. It is undefined without a list, membership of the key for an array, and a substring test for a string. |
| DynamicForm.FieldsOf | frontend/src/components/DynamicForm.jsx:8-12 | The field list is built exactly when there are no entries or the `required` value is usable. It then has one field per entry. |
| DynamicForm.Fields | frontend/src/components/DynamicForm.jsx:8-12 | A missing schema throws. An object of properties with a usable `required` gives one field per property. |
| DynamicForm.FieldsAt | frontend/src/components/DynamicForm.jsx:8-12 | The i-th field is built from the i-th schema entry, so fields keep the schema's key order. |
| DynamicForm.FieldProperties | frontend/src/components/DynamicForm.jsx:9-11 | A field's `required` is the computed flag whatever its spec says. Its `name` is the spec's own `name` when it has one, else the key. Every other property comes unchanged from the spec. |
| DynamicForm.RequiredFromSchema | frontend/src/components/DynamicForm.jsx:11 | A field is required exactly when the schema's `required` list names its key. It is undefined when the schema has no list. |
| DynamicForm.UntouchedKept | frontend/src/components/DynamicForm.jsx:14-19 | A name no change touched keeps its value and its presence. |
| DynamicForm.LastChangeWins | frontend/src/components/DynamicForm.jsx:14-19 | After a series of changes, each name holds the value of the last change made to it. |
| DynamicForm.DefaultsNotSubmitted | frontend/src/components/DynamicForm.jsx:5 | A field never changed is absent from the submitted data, whatever its default. |
| DynamicForm.ApplyChanges | frontend/src/components/DynamicForm.jsx:14-19 | A series of changes keeps the names distinct and adds at most one name per change, removing none. |
| DynamicForm.FormState.constructor | frontend/src/components/DynamicForm.jsx:5 | The form data starts empty. |
| DynamicForm.FormState.HandleFieldChange | frontend/src/components/DynamicForm.jsx:14-19 | The changed name takes the new value and every other name keeps its value. |
| DynamicForm.FormState.HandleSubmit | frontend/src/components/DynamicForm.jsx:21-23 | Submit hands on the current form data as it is, with no required-field check. |
| RunStatus.NewStatusOf | frontend/src/components/RunStatus.jsx:14-16 | Reading `response.data.data.status` succeeds exactly when neither `response` nor its `data` levels are missing. The result is that property. A failure is the TypeError. |
| RunStatus.IsTerminal | frontend/src/components/RunStatus.jsx:19-23 | Only string statuses can end polling; READY and RUNNING never do. |
| RunStatus.PollResult | frontend/src/components/RunStatus.jsx:12-14 | A rejected call yields its own message. A response yields `data.data.status` exactly when no level is missing, and the TypeError otherwise. |
| RunStatus.PollStep | frontend/src/components/RunStatus.jsx:11-30 | Each poll issues one request and adds exactly one callback to the parent. Earlier callbacks and the interval are untouched. |
| RunStatus.PollSucceeded | frontend/src/components/RunStatus.jsx:13-18 | A successful poll shows the new status and reports that same value with `onStatusChange`. |
| RunStatus.PollFailed | frontend/src/components/RunStatus.jsx:26-29 | A failed poll keeps the shown status, stops polling and reports the caught message with `onError`. |
| RunStatus.PollingClearedOnlyAtTheEnd | frontend/src/components/RunStatus.jsx:19-29 | After a poll, `isPolling` is on exactly when it was on, the poll succeeded and the status is not SUCCEEDED, FAILED or ABORTED. |
| RunStatus.StartStep | frontend/src/components/RunStatus.jsx:8-38 | Without a truthy run id nothing changes. With one, the interval is installed and exactly one poll is issued and reported. |
| RunStatus.TickStep | frontend/src/components/RunStatus.jsx:37 | A tick never installs or removes the interval. It issues one request while the interval is installed and changes nothing otherwise. |
| RunStatus.CleanupStep | frontend/src/components/RunStatus.jsx:40-42 | Cleanup removes the interval and keeps the status, the polling flag, the request count and the callbacks. |
| RunStatus.NoRunNoPoll | frontend/src/components/RunStatus.jsx:9 | Without a run id the effect does nothing. |
| RunStatus.StartPollsAtOnce | frontend/src/components/RunStatus.jsx:33-37 | With a run id, one poll is issued at once and the interval is installed. Polling stays on exactly when that first status is not terminal. |
| RunStatus.IntervalOutlivesTerminal | frontend/src/components/RunStatus.jsx:37-42 | Once installed, the interval survives every tick and each tick issues a request, terminal status or not. |
| RunStatus.NoPollAfterCleanup | frontend/src/components/RunStatus.jsx:40-42 | After cleanup, ticks change nothing. |
| RunStatus.SucceededRunExample | frontend/src/components/RunStatus.jsx:11-37 | RUNNING then SUCCEEDED ends showing SUCCEEDED with polling off, the interval still installed, and both statuses reported in order. |
| RunStatus.Poller.constructor | frontend/src/components/RunStatus.jsx:5-6 | Starts READY, not polling, with no interval. |
| RunStatus.Poller.PollStatus | frontend/src/components/RunStatus.jsx:11-30 | The panel's new state is one poll step from its old state. |
| RunStatus.Poller.Start | frontend/src/components/RunStatus.jsx:8-38 | The effect body moves the panel by the start step. |
| RunStatus.Poller.Tick | frontend/src/components/RunStatus.jsx:37 | An interval firing moves the panel by one tick step. |
| RunStatus.Poller.Cleanup | frontend/src/components/RunStatus.jsx:40-42 | Cleanup removes the interval and changes nothing else. |
| RunStatus.StatusColor | frontend/src/components/RunStatus.jsx:45-59 | FAILED and ABORTED are red. |
| RunStatus.StatusIcon | frontend/src/components/RunStatus.jsx:61-75 | FAILED and ABORTED show ❌. |
| RunStatus.ColorAndIcon | frontend/src/components/RunStatus.jsx:45-75 | Colour and icon agree: red with ❌ exactly for failure or abort, gray with ❓ exactly for an unlisted status, green exactly with ✅. Terminal statuses are exactly the green and red ones. |
| ResultsDisplay.IsErrorItem | frontend/src/components/ResultsDisplay.jsx:57-60 | An item is an error item exactly when it is an object (not null, not an array) with a truthy `error`, `errorDescription` or `errorMessage`. |
| ResultsDisplay.AnyErrorItem | frontend/src/components/ResultsDisplay.jsx:56-61 | `some` holds exactly when some item is an error item. |
| ResultsDisplay.HasErrors | frontend/src/components/ResultsDisplay.jsx:53-62 | Non-arrays never have errors. An array has them exactly when some item is an error item. |
| ResultsDisplay.ErrorItems | frontend/src/components/ResultsDisplay.jsx:68-74 | The filter keeps only error items and never grows the list. |
| ResultsDisplay.ErrorItemsConcat | frontend/src/components/ResultsDisplay.jsx:68-74 | The filter distributes over concatenation, so the original order is kept. |
| ResultsDisplay.ErrorItemsSingle | frontend/src/components/ResultsDisplay.jsx:69-74 | A single item is kept exactly when it is an error item. |
| ResultsDisplay.ErrorItemKept | frontend/src/components/ResultsDisplay.jsx:69-74 | Every error item of the results survives the filter. |
| ResultsDisplay.SomeIffFiltered | frontend/src/components/ResultsDisplay.jsx:53-74 | `some` holds exactly when the filter leaves something. |
| ResultsDisplay.DetailOf | frontend/src/components/ResultsDisplay.jsx:75-82 | Each summary field is the item's truthy value or its fixed fallback. The description prefers `errorDescription` over `errorMessage`. No field is falsy. |
| ResultsDisplay.ErrorDetails | frontend/src/components/ResultsDisplay.jsx:65-83 | Non-arrays give no summaries. An array gives one summary per error item, in order. |
| ResultsDisplay.HasErrorsIffDetails | frontend/src/components/ResultsDisplay.jsx:53-83 | The warning is shown exactly when there is at least one summary. |
| ResultsDisplay.FetchStep | frontend/src/components/ResultsDisplay.jsx:15-34 | Without a run id nothing changes. Otherwise loading ends. A response sets `results` to `response.data` and keeps the error. A rejection shows its message and keeps the results. A missing response shows the TypeError and keeps the results. |
| ResultsDisplay.FetchSetsOne | frontend/src/components/ResultsDisplay.jsx:16-29 | A fetch ends loading. A non-nullish response sets `results` to `response.data` and keeps the error. Otherwise the results are kept and the error is the rejection message, or the TypeError for a missing response. |
| ResultsDisplay.NoRunKeepsLoading | frontend/src/components/ResultsDisplay.jsx:31-33 | Without a run id nothing is fetched and the spinner stays. |
| ResultsDisplay.ResultsView.constructor | frontend/src/components/ResultsDisplay.jsx:11-13 | Starts with no results, loading, and no error. |
| ResultsDisplay.ResultsView.FetchResults | frontend/src/components/ResultsDisplay.jsx:15-34 | The panel's new state is the fetch step from the old state. |
| ResultsDisplay.DownloadName | frontend/src/components/ResultsDisplay.jsx:47 | Naming the download fails exactly when no actor is selected. A string name gives `name-results.json`. |
| ApiClient.NotOkDefault | frontend/src/services/api.js:17 | Each method's fallback for a refused request is a non-empty message. |
| ApiClient.CatchDefault | frontend/src/services/api.js:22 | The `catch` fallback is non-empty. It equals the refused-request fallback except for validation. |
| ApiClient.OrDefault | frontend/src/services/api.js:22 | `message \|\| fallback` on strings. |
| ApiClient.NotOkMessage | frontend/src/services/api.js:16-18 | A missing body gives the TypeError. A body without a truthy `error.message` gives the fallback. A string message is reported as it is. |
| ApiClient.Call | frontend/src/services/api.js:4-24 | A method resolves exactly when the response is ok and its body parsed, and then to that body. Every rejection carries a non-empty message. |
| ApiClient.EnvelopeMessageReported | frontend/src/services/api.js:16-18 | A refused request whose error envelope has a message rejects with exactly that message. |
| ApiClient.NoMessageGivesDefault | frontend/src/services/api.js:36-38 | A refused request whose body has no `error.message` rejects with the method's default. |
| ApiClient.NetworkErrorMessage | frontend/src/services/api.js:41-43 | A request with no response rejects with its own message, or the fallback when that is empty. |
| ApiClient.PathOf | frontend/src/services/api.js:6-118 | Every path starts with "/". Exactly validation is under "/auth/". The schema and run paths start with the actor id, and the status and results paths with "/actors/runs/" and the run id. |
| ApiClient.RequestOf | frontend/src/services/api.js:69-78 | Every method sends the key as `Bearer <key>` to the base URL plus its path. Exactly validation and run use POST with JSON. Only the run sends a body, and that body is the inputs. |
| ApiClient.RunPaths | frontend/src/services/api.js:92-101 | The status and results URLs name the run id and nothing else. |
| ApiClient.GatewayRecoversKey | frontend/src/services/api.js:9 | The gateway's middleware always accepts the client's header. For a key without surrounding whitespace, it recovers exactly that key. |
| ActorSelector.ActorsOf | frontend/src/components/ActorSelector.jsx:18-24 | A missing response throws. A falsy `success` gives no list. A truthy `success` gives `response.data.data.items \|\| []` exactly when neither `data` level is missing, and throws otherwise. A list that is given is truthy. |
| ActorSelector.FetchStep | frontend/src/components/ActorSelector.jsx:11-30 | Every fetch ends loading and leaves the selection alone. A list read from the envelope is installed with an empty error. A refused envelope keeps the list and shows "Failed to fetch actors". A thrown read or a rejection keeps the list and shows its message, or the fixed one for an empty message. |
| ActorSelector.FetchOutcomes | frontend/src/components/ActorSelector.jsx:18-28 | A fetch either installs a list with no error, or keeps the old list and shows a non-empty error. A success envelope with both `data` levels installs `items \|\| []` with an empty error. A refused envelope shows "Failed to fetch actors". A rejection shows its own message. |
| ActorSelector.MissingItemsGiveEmptyList | frontend/src/components/ActorSelector.jsx:20 | An envelope with no `items` installs an empty list. |
| ActorSelector.FindById | frontend/src/components/ActorSelector.jsx:37 | `find` gives the first actor whose `id` equals the id. It gives none exactly when no actor matches and none is missing. |
| ActorSelector.SelectStep | frontend/src/components/ActorSelector.jsx:35-41 | The id is always recorded. At most one actor is handed on. Nothing else changes. |
| ActorSelector.SelectHandsOnFirstMatch | frontend/src/components/ActorSelector.jsx:35-41 | An actor is handed on exactly when one with that id is found and the found actor is truthy. It is the first such actor, and otherwise nothing is handed on. |
| ActorSelector.FalsyMatchNotHandedOn | frontend/src/components/ActorSelector.jsx:37-38 | In the list `[0]`, an undefined id finds `0`, which is falsy and so is not handed on. |
| ActorSelector.Selector.constructor | frontend/src/components/ActorSelector.jsx:5-8 | Starts with no actors, loading, no error and no selection. |
| ActorSelector.Selector.FetchActors | frontend/src/components/ActorSelector.jsx:11-30 | The picker's new state is the fetch step from the old state. |
| ActorSelector.Selector.HandleActorSelect | frontend/src/components/ActorSelector.jsx:35-41 | The picker's new state is the select step from the old state. |
| ActorSelector.CountNoun | frontend/src/components/ActorSelector.jsx:131 | The noun is "actor" exactly for a count of one. |
| ApiKeyForm.OrDefaultMessage | frontend/src/components/ApiKeyForm.jsx:31 | The shown message is never empty, and is the caught message when that is non-empty. |
| ApiKeyForm.UserNameOf | frontend/src/components/ApiKeyForm.jsx:25 | `response.data.data.username` is read exactly when neither the response nor a `data` level is missing, and the TypeError is raised otherwise. |
| ApiKeyForm.IsBlank | frontend/src/components/ApiKeyForm.jsx:12 | A key is blank exactly when it is made of whitespace only. |
| ApiKeyForm.SubmitEnabled | frontend/src/components/ApiKeyForm.jsx:70 | The button is enabled exactly when nothing is loading and the key has a non-whitespace character. |
| ApiKeyForm.Answered | frontend/src/components/ApiKeyForm.jsx:20-29 | Handling an answer keeps the key, the loading flag and the request count. A refusal stores and reports nothing and shows a truthy error. A sign-in reports the key and `response.data` once, with the key and the username stored. |
| ApiKeyForm.SubmitStep | frontend/src/components/ApiKeyForm.jsx:9-35 | Submitting never changes the typed key. |
| ApiKeyForm.BlankKeyRefused | frontend/src/components/ApiKeyForm.jsx:12-15 | A blank key shows "Please enter your Apify API key". Nothing is requested, stored or reported. |
| ApiKeyForm.KeySentOnce | frontend/src/components/ApiKeyForm.jsx:17-34 | A key that is not blank is sent exactly once, and loading is over whatever the answer. |
| ApiKeyForm.AnsweredKeepsCounts | frontend/src/components/ApiKeyForm.jsx:20-29 | Handling the answer sends no further request and keeps the key. |
| ApiKeyForm.EnabledSubmitSends | frontend/src/components/ApiKeyForm.jsx:70 | An enabled submit button always leads to exactly one request. |
| ApiKeyForm.SignInStoresBoth | frontend/src/components/ApiKeyForm.jsx:23-26 | An accepted key stores the key and the username. `onSuccess` gets the key, `response.data` and the username. No error shows. |
| ApiKeyForm.KeyStoredBeforeUserNameFails | frontend/src/components/ApiKeyForm.jsx:24-25 | An accepted answer without `data.data` leaves the key stored. `onSuccess` is not called and the TypeError shows. |
| ApiKeyForm.RefusalShowsMessage | frontend/src/components/ApiKeyForm.jsx:27-31 | A refusal or a rejection shows a non-empty message, and stores and reports nothing. A rejection shows its own message. A refusal shows the envelope's `error.message` when that is truthy and "Validation failed" otherwise. |
| ApiKeyForm.Form.constructor | frontend/src/components/ApiKeyForm.jsx:5-7 | Starts with an empty key, not loading and no error, over the given session storage. |
| ApiKeyForm.Form.ChangeKey | frontend/src/components/ApiKeyForm.jsx:55 | Typing changes the key and nothing else. |
| ApiKeyForm.Form.HandleSubmit | frontend/src/components/ApiKeyForm.jsx:9-35 | The form's new state is the submit step from the old state. |
| App.StoredOrEmpty | frontend/src/App.jsx:15-17 | A storage read gives the stored value, or "" when there is none. |
| App.Initial | frontend/src/App.jsx:6-17 | The shell starts on the sign-in step, signed out, with no actor, showing the stored user name. |
| App.MountStep | frontend/src/App.jsx:20-27 | The mount keeps the storage, the user name and the selection. The shell is then signed in exactly when it was or a key is stored, and consistency is kept. |
| App.AuthSuccessStep | frontend/src/App.jsx:29-35 | A sign-in leaves the shell consistent, signed in and off the sign-in step, with storage, selection and actors unchanged. |
| App.ActorSelectStep | frontend/src/App.jsx:37-40 | Choosing from a shown selector keeps the shell consistent. The form panel shows exactly when the chosen actor is truthy. The key, the sign-in and the storage are unchanged. |
| App.LogoutStep | frontend/src/App.jsx:42-51 | Logout leaves the shell consistent, signed out and on the sign-in step. The storage loses exactly the stored key. |
| App.ShowsSelector | frontend/src/App.jsx:88 | The selector shows exactly when the sign-in form does not. |
| App.ShowsFormPanel | frontend/src/App.jsx:93 | The form panel shows only with the selector, never with the sign-in form, and only with an actor selected. |
| App.TransitionsKeepConsistency | frontend/src/App.jsx:20-51 | Every handler keeps "signed in exactly when past the sign-in step". |
| App.BadgeOrKeyForm | frontend/src/App.jsx:68-72 | In a consistent shell the user badge shows exactly when the sign-in form does not. |
| App.SignInOpensActors | frontend/src/App.jsx:29-35 | A sign-in shows the actor list and the badge. It hides the sign-in form and the run form, and keeps the new key and name. |
| App.SelectOpensForm | frontend/src/App.jsx:37-40 | Choosing an actor shows its form with the selector still visible. |
| App.LogoutSignsOut | frontend/src/App.jsx:42-51 | Logout shows only the sign-in form. It removes the stored key and no other entry, and a reload stays signed out. |
| App.MountRestores | frontend/src/App.jsx:20-27 | Without a stored key the mount changes nothing. With one, it signs in with that key on the actor list. |
| App.SignInSurvivesReload | frontend/src/components/ApiKeyForm.jsx:23-26 | After a sign-in through the form, a reload restores the key on the actor list and shows the stored user name. |
| App.Shell.constructor | frontend/src/App.jsx:6-17 | The shell starts in its initial state over the given session storage. |
| App.Shell.Mount | frontend/src/App.jsx:20-27 | The shell's new state is the mount step from the old state. |
| App.Shell.HandleAuthSuccess | frontend/src/App.jsx:29-35 | The shell's new state is the sign-in step from the old state. |
| App.Shell.HandleActorSelect | frontend/src/App.jsx:37-40 | The shell's new state is the select step from the old state. |
| App.Shell.HandleLogout | frontend/src/App.jsx:42-51 | The shell's new state is the logout step from the old state. |

## Left out

- The transport. It is left out as follows:
  - axios calls to the platform and `fetch` calls to the gateway are
    arguments: how the call ends, or what the request settled to;
  - headers other than `Authorization` are not modelled;
  - CORS, `express.json` and the `dotenv` port are not modelled.
- Express routing itself. The model has no path matching, `next()` or
  `res.status().json()` plumbing. A route is the middleware's decision
  followed by its handler.
- `backend/server.js`. The health and hello routes and the listening port are
  not modelled.
- Rendering. JSX markup and styling are not modelled. Neither is the
  `dangerouslySetInnerHTML` of a field's description
  (`frontend/src/components/FieldBox.jsx:147`). Only the visibility
  conditions the shell and panels depend on are kept.
- `navigator.clipboard`, `Blob` and object URLs, the download link's click,
  `console.log`, and the `JSON.stringify` text of the download, the run body
  and the "Default:" hint. These are browser or formatting services with no
  logic of their own.
- Timers and concurrency. The 3000 ms interval is a sequence of discrete
  tick events. Overlapping polls, and a request settling after cleanup, are
  not modelled.
- Numbers. They are integers. Floating-point values, `NaN`, an explicit radix
  argument to `parseInt` and `Number.MAX_SAFE_INTEGER` are not modelled;
  without a radix, a `0x` or `0X` prefix is read as hexadecimal.
- `===` on objects and arrays is modelled as structural equality, not
  reference identity.
- The engine-specific texts of TypeErrors are each replaced by one fixed
  message.
- DynamicForm.RequiredFlag: on a value other than a missing list, an array or
  a string, `includes` is not a function; that TypeError is one fixed message.
- JsValue.Put, JsValue.SpreadValue, JsValue.SpreadKeepsTargetKeys and
  DynamicForm.FieldsAt: a new key is appended at the end even when it is
  integer-like ("0", "17"). JavaScript would list such keys first, in ascending
  order, so for those keys the modelled key order is not JavaScript's.
- Strings are sequences of code points, not UTF-16 code units. `"😀".length`
  is 2 in JavaScript and 1 here, so lengths, indices, `trim` and `split`
  positions, and `DynamicForm.EntriesOf` on a string differ for text outside
  the Basic Multilingual Plane.
- ActorSelector.SelectStep and ActorSelector.Selector.HandleActorSelect:
  when `actors` is not an array, or a missing actor comes before a match,
  `actors.find` throws a TypeError that the component does not catch
  (`frontend/src/components/ActorSelector.jsx:37`). The model drops that
  error: the id is recorded and nothing is handed on.
- JsValue.SpreadValue: spreading a non-object field spec, such as a string or
  an array, contributes no properties. JavaScript would spread a string's
  characters and an array's indices.
- The argument order of the status and results calls. `RunStatus.jsx:13` and
  `ResultsDisplay.jsx:22` pass `(apiKey, actorId, runId)` to client methods
  declared with `(apiKey, runId)` (`frontend/src/services/api.js:92`, `:115`).
  The panels' steps take the settled call as an argument, so which id reaches
  the URL is not tied to the panels. Nor is routing: the client's
  `/actors/runs/<runId>/status` and `/results` paths have one segment fewer
  than the gateway's `/:actorId/runs/:runId/status` and `/results` routes.
- The results step of the shell. It is named only in a comment and never
  entered, so the run-status and results panels are modelled on their own.
- The parents' handlers for `onStatusChange`, `onError`, `onRunAgain` and the
  form's submit callback. They are outside the shell's code, so the model
  records the calls made to them and nothing more.
