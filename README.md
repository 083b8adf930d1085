# myweb: the dispatch engine and its helpers, in Dafny

This project models the core of `myweb`, a small Go web framework, and
proves properties of the model. It covers five parts:

- **The root package's router** (`router.go`). A table maps `method_path`
  keys to handlers. `ServeHTTP` looks the key up and calls the handler in
  one of three calling conventions, chosen by its parameter count. The
  result goes back as a JSON envelope.
- **The two request contexts.**
  - The root package's context (`context.go`, `server.go`) writes at once.
  - The `http` package's context (`http/context.go`, `http/server.go`)
    keeps a pending response and caches the request body.
  - Both walk a handler chain with a cursor that only `Next` moves.
  - Both have a recovery middleware. The `http` package also has a
    request-logging middleware.
- **The request log's text rules** (`http/server.go`): the client address,
  the summary of a large response, path plus query, and `-` for empty fields.
- **The database layer's conversions** (`mysql/convert.go`): `ToString`,
  `ToInt`, `ToInt64` and `ToBool`, over a tagged Go `interface{}` value.
  Beneath them sits an exact model of Go's `strconv.ParseInt` and
  `strconv.FormatInt` for base 10.
- **Row binding and scanning** (`mysql/mysql_helper.go`). `bindData` matches
  columns to struct fields and converts each value. `scanQueryOne` and
  `scanQuery` bind one row, or append one struct per row.

Modules, one per file:

| module | file | models |
|---|---|---|
| `Values` | values.dfy | bytes, JSON values, the encoder parameter |
| `Strings` | strings.dfy | `strings.Split(s, sep)[0]`, ASCII `strings.ToLower` |
| `Strconv` | strconv.dfy | Go's base-10 `ParseInt` / `FormatInt` |
| `Convert` | convert.dfy | `mysql/convert.go` |
| `Envelope` | envelope.dfy | `ErrorResponse`, `ReturnError`, the success map |
| `Transport` | transport.dfy | the request, a recording `ResponseWriter`, the log sink |
| `RootContext` | root_context.dfy | `context.go`, `server.go` |
| `Router` | router.dfy | `router.go` |
| `LogFormat` | log_format.dfy | the text rules of `LogHandler` and `str` |
| `HttpContext` | http_context.dfy | `http/context.go`, `http/server.go` |
| `Binding` | binding.dfy | `bindData` |
| `Scan` | scan.dfy | `scanQueryOne`, `scanQuery` |

How the Go behaviour is represented:

- **Handlers in a chain** are scripts: sequences of calls on the context
  (`Next`, `SetMetaData`, `Json`, `DieWithHttpStatus`, `Body`, or a panic),
  plus the recovery and logging middlewares.
- **Specification functions** (`NextSpec`, `LinkSpec`, `StepsSpec`,
  `RecoverySpec`, `LogSpec`) say what running the chain does to the
  context's state. They are mutually recursive.
- **The imperative methods** (`Context.Next`, `ProcessHandler`, `RunScript`,
  `RecoveryHandler`, `LogHandler`) mirror these functions. Each is proved to
  leave exactly the state the matching function gives.
- **A panic** is an outcome value: a flag in the root package, the panic
  value in the `http` package, a `Fault` in `ServeHTTP` and a `Panicked`
  result in the scanners.
- **Reflection's view of a handler** is the `Handler` datatype: its
  parameter count and the kind of each parameter. `reflect.Value.Call`
  checks the arguments it is given (`CallAccepts`) and panics on a mismatch.
  A handler's own panic is an outcome of the handler function.
- **The two packages' chains are proved separately.** `RootContext` and
  `HttpContext` each have their own step type. So the lemmas about running
  a chain appear once in each, under the same names: `NextCalls`,
  `LinkBound`, `StepsBound`, `ChainStopsAt` and `NextTwiceResumes`.
- **`ServeHTTP` runs the code as written**, including the third-parameter
  check that tests the first parameter (see "## Findings"). The corrected
  check is modelled beside it.
- **`json.Marshal`** is an encoder function passed in as a parameter.
- **`json.Unmarshal`** is a decode function. It may report failure, and the
  failure is ignored, as in the code.

## Model

| member | source | states |
|---|---|---|
| Values.FieldOf | router.go:94-97 | a member is found exactly when some member of the object has that name |
| Values.BytesToString | mysql/convert.go:13-14 | Go's `string(b)`: one character per byte, same length, same values |
| Strings.FirstField | mysql/mysql_helper.go:125 | `strings.Split(s, sep)[0]` is a prefix of `s` without `sep`, and is either all of `s` or stops right at the first `sep` |
| Strings.LowerAscii | mysql/mysql_helper.go:129 | lowering keeps the length and maps each character on its own |
| Strings.LowerAsciiSpec | mysql/mysql_helper.go:129 | a lowered name has no upper-case ASCII letter, keeps every other character, and lowering twice is lowering once |
| Strconv.DigitValue | mysql/convert.go:46 | a digit's value is below 10 |
| Strconv.DigitChar | mysql/convert.go:16 | a value below 10 maps to the digit character that reads back as it |
| Strconv.Clamp | mysql/convert.go:74 | a value is clamped into the int64 range, and values already in range are kept |
| Strconv.LeadingDigits | mysql/convert.go:46 | the run of digits a number starts with is a digit-only prefix of it, followed by a non-digit or by nothing |
| Strconv.LeadingDigitsOfAllDigits | mysql/convert.go:46 | text whose leading digit run is all of it is all digits |
| Strconv.Digits | mysql/convert.go:16 | the decimal digits of a natural number are a non-empty run of digits that denotes the number |
| Strconv.ScanUint | mysql/convert.go:46 | the unsigned scan yields a syntax error, a range error at 2^64 - 1, or a value within 2^64 - 1 |
| Strconv.ParseUint | mysql/convert.go:74 | the unsigned value is always within 2^64 - 1 |
| Strconv.ParseInt | mysql/convert.go:46-50 | `strconv.Atoi` / `ParseInt(s, 10, 64)`: the value is always inside the int64 range, and 0 on a syntax error |
| Strconv.ScanAppend | mysql/convert.go:46 | scanning a concatenation is scanning the first part, then going on with the rest unless the first part stopped the scan |
| Strconv.ScanDigits | mysql/convert.go:46 | a run of digits scans to its value, or to a range error once the value passes 2^64 - 1 |
| Strconv.ParseIntDecimal | mysql/convert.go:46-50 | `[+-]?[0-9]+` parses to the number it denotes, clamped to int64, with a range error exactly when clamped |
| Strconv.ParseIntNotDecimal | mysql/convert.go:46-50 | other text parses to 0 with a syntax error, unless its leading digits already overflow 64 bits |
| Strconv.ParseFormatRoundTrip | mysql/convert.go:15-18 | parsing the formatted text of any int64 gives it back with no error |
| Convert.ToInt | mysql/convert.go:37-62 | `ToInt` always yields a 64-bit value |
| Convert.ToInt64 | mysql/convert.go:65-92 | `ToInt64` always yields a 64-bit value |
| Convert.ToStringOfText | mysql/convert.go:11-14 | a string comes back unchanged, and a byte slice as the string of the same bytes |
| Convert.ToStringOfBoolAndDefaults | mysql/convert.go:21-32 | `true` is "1", `false` is "0", and nil or an unsupported type is "" |
| Convert.IntTextRoundTrip | mysql/convert.go:15-18 | `ToInt(ToString(n)) == n` and `ToInt64(ToString(n)) == n` for every int and int64, also through bytes |
| Convert.ToIntOfText | mysql/convert.go:45-50 | decimal text converts to its value, clamped; other text converts to 0 unless its leading digits overflow; a byte slice converts exactly as the string of its bytes, by both `ToInt` and `ToInt64` |
| Convert.TextValue | mysql/convert.go:45-50 | the value `ParseInt` gives for decimal and for non-decimal text, which the text cases keep while dropping the error |
| Convert.ToIntOfBoolAndDefaults | mysql/convert.go:37-60 | an int or int64 converts to itself, `true`/`false` to 1/0, and nil or an unsupported type to 0, for both `ToInt` and `ToInt64` |
| Convert.ToIntIsToInt64 | mysql/convert.go:65-92 | with a 64-bit `int`, `ToInt` and `ToInt64` agree on every value |
| Convert.ToBoolOfText | mysql/convert.go:139-156 | text is true exactly for "1", "true", "y", "on" and "yes", and bytes are read as their text |
| Convert.BoolTextRoundTrip | mysql/convert.go:21-26 | `ToBool(ToString(b)) == b` for every bool |
| Convert.ToBoolOfNumbers | mysql/convert.go:127-132 | an int64 is true exactly when positive; a plain `int`, nil and unsupported types are false |
| Convert.ToBoolDoesNotUndoToInt | mysql/convert.go:159-160 | `ToBool(ToInt(true))` is false, because a plain `int` has no case of its own |
| Envelope.ErrorJsonFields | router.go:13-17 | an encoded `ErrorResponse` has its status, its message only when non-empty, and its data only when non-nil |
| Envelope.ReturnErrorJson | router.go:20-25 | `ReturnError` encodes as its status and its error text, never with data |
| Envelope.SuccessJsonFields | router.go:94-97 | the success map has status 0 and the handler's data, and no message |
| Transport.QueryValue | context.go:33-39 | the first value given for a key, or "" when the key is absent or has no values |
| Transport.Recase | context.go:41-43 | a letter becomes the requested case of the same letter; any other character is kept |
| Transport.CanonicalFrom | context.go:41-43 | canonicalising keeps the length, and each character is recased to upper case exactly when it is first (with `upper`) or follows a '-', else to lower case |
| Transport.CanonicalHeaderKeySpec | context.go:41-43 | a token name keeps its length and its non-letters, and a letter is upper case exactly when first or after a '-'; any other name is left as it is |
| Transport.CanonicalUuid | http/server.go:39 | the lower-case `uuid` the logging middleware asks for is looked up as `Uuid` |
| Transport.HeaderValue | context.go:41-43 | `Header.Get` gives the first value under the canonical key, or "" |
| Transport.ResponseWriter.constructor | router.go:41 | a writer starts with no calls recorded |
| Transport.ResponseWriter.AddHeader | context.go:61 | the call is appended to what was recorded |
| Transport.ResponseWriter.WriteHeader | context.go:66 | the call is appended to what was recorded |
| Transport.ResponseWriter.Write | context.go:62 | the call is appended to what was recorded |
| Transport.Logger.constructor | http/server.go:13 | a logger starts with no lines |
| Transport.Logger.Log | http/server.go:13 | the tagged line is appended to what was logged |
| RootContext.SetMetaSpec | context.go:49-54 | after setting, the map exists, the key reads back the value, every other key reads as before, and the key set grows by the key |
| RootContext.GrowsTrans | context.go:26-31 | two successive stretches of chain progress make one: the cursor never moves back, and handler indices keep increasing |
| RootContext.NextSpec | context.go:26-31 | `Next` moves the cursor forward and only runs handlers past the old cursor, in increasing order, inside the chain |
| RootContext.LinkSpec | context.go:29 | running the handler under the cursor records it first, then only later handlers |
| RootContext.StepsSpec | context.go:26-68 | a handler's calls keep the cursor from moving back and run only handlers past it |
| RootContext.RecoverySpec | server.go:3-10 | the recovery handler only runs handlers past the cursor, in increasing order, through its one `Next` |
| RootContext.Context.constructor | context.go:16-24 | `newContext` starts at cursor 0 with the given chain and an empty, non-nil metadata map |
| RootContext.Context.Next | context.go:26-31 | the new state and panic are exactly those `NextSpec` gives for the old state |
| RootContext.Context.SetMetaData | context.go:49-54 | the map becomes `SetMetaSpec` of the old map; the cursor is untouched |
| RootContext.Context.Json | context.go:56-63 | each call adds a JSON content type and one write of the encoded `{status: 0, data}`, at once |
| RootContext.Context.DieWithHttpStatus | context.go:65-68 | the status line is written, then the text content type is added, in that order |
| RootContext.ProcessHandler | context.go:29 | running the handler under the cursor leaves exactly what `LinkSpec` gives |
| RootContext.RunScript | context.go:26-68 | a handler's calls leave exactly what `StepsSpec` gives |
| RootContext.RecoveryHandler | server.go:3-10 | never panics, and leaves exactly what `RecoverySpec` gives |
| RootContext.NextPastEnd | context.go:26-31 | past the end of the chain, `Next` only moves the cursor by one: nothing runs, nothing is written |
| RootContext.NextRunsFollowing | context.go:26-31 | inside the chain, the first handler `Next` runs is the one right after the cursor |
| RootContext.ChainOrder | context.go:26-31 | from a fresh start, handler indices run in strictly increasing order, each at most once, all inside the chain and never past the cursor |
| RootContext.NoNextNoMove | context.go:26-31 | a handler that never calls `Next` leaves the cursor where it was and runs nothing |
| RootContext.ShortCircuit | context.go:26-31 | running a handler that never calls `Next` leaves the cursor on it and adds only its own index; whether anything runs after it is up to the handlers before it |
| RootContext.NextCalls | context.go:26-31 | a script's count of `Next` calls is zero exactly when it holds none |
| RootContext.LinkBound | context.go:26-31 | with every handler calling `Next` at most once, running from at or before a handler that never calls it leaves the cursor at or before that handler |
| RootContext.StepsBound | context.go:26-31 | the same for one script's calls, which call `Next` at most once |
| RootContext.ChainStopsAt | context.go:26-31 | from a fresh start, with every handler calling `Next` at most once, no handler after one that never calls it runs |
| RootContext.NextTwiceResumes | context.go:26-31 | a handler calling `Next` twice runs the handler after a silent one: `[Next; Next]` followed by two silent handlers runs all three |
| RootContext.RecoveryContains | server.go:3-10 | after a downstream panic exactly `WriteHeader(500)` and the text content type are added, with no log; without a panic nothing of its own happens |
| RootContext.RecoveryOfPanic | server.go:3-10 | a panicking handler behind the recovery handler ends in a 500, with no panic left |
| RootContext.JsonWritesEachCall | context.go:56-63 | two `Json` calls write two headers and two bodies, in call order |
| RootContext.MetaLastWriteWins | context.go:45-54 | the last value set under a key is read back, other keys keep theirs, and an absent key or nil map reads nil |
| Router.Router.New | router.go:31-35 | a new router has an empty route table |
| Router.Router.Handle | router.go:155-158 | the table maps `method_path` to the handler, replacing any earlier one, with every other key unchanged |
| Router.Router.GET | router.go:139-141 | the same as `Handle` with method "GET" |
| Router.Router.POST | router.go:143-145 | the same as `Handle` with method "POST" |
| Router.Router.DELETE | router.go:147-149 | the same as `Handle` with method "DELETE" |
| Router.Router.PUT | router.go:151-153 | the same as `Handle` with method "PUT" |
| Router.Router.ServeHTTP | router.go:41-137 | the calls made on the writer and the panic raised are exactly those `Dispatch` gives, with the third-parameter check as written |
| Router.RunHandler | router.go:66-71 | a handler's calls on its chainless context write what `StepsSpec` gives from a fresh state, after whatever was written before |
| Router.StepsShift | router.go:66-71 | with no chain behind it, a handler writes the same thing whatever was written before |
| Router.KeyInjective | router.go:49 | for methods without '_', two method/path pairs share a key exactly when they are equal |
| Router.SeparatorAt | router.go:49 | if a shorter method gives the same key, the longer method contains '_' |
| Router.HandleReplaces | router.go:155-158 | registering a route twice keeps one key for it, holding the second handler; every other route keeps its handler |
| Router.MissIsNotFound | router.go:49-54 | a request with no route gets a bare 404, and no handler runs |
| Router.BodyReadFirst | router.go:45-48 | a failed body read panics before the route is looked up, and nothing is written |
| Router.TwoParamResponse | router.go:77-100 | a two-pointer handler that panics has nothing written; one that returns writes one JSON body: its error if it returned one, else an object with status 0 and its output |
| Router.TwoParamCall | router.go:77-90 | a two-parameter handler is called exactly when both parameters are pointers; otherwise `Call` panics |
| Router.OneParamResponse | router.go:63-76 | a `*Context` handler writes a body of its own only when it returns an error, and then only that error |
| Router.OneParamWrongType | router.go:63-71 | a one-parameter handler not taking `*Context` never runs: a non-pointer is rejected by the check, any other pointer by `Call` |
| Router.ThreeParamRejects | router.go:102-118 | a three-parameter handler whose first or second parameter is not a pointer is rejected with a panic, and nothing is written |
| Router.OtherArityWritesNothing | router.go:62-136 | a handler with another parameter count is never called, and nothing is written |
| Router.DecodeFailureIgnored | router.go:80-83 | a failed decode of the body changes nothing: the two-parameter handler runs on the value decoded so far |
| Router.DecodeFailureIgnoredWithContext | router.go:104-108 | the same for a three-parameter handler |
| Router.ThirdParamGuardAsWrittenNeverFires | router.go:119-124 | as written, the third-parameter check passes whenever the first parameter is a pointer, so a non-pointer third parameter panics only in `Call` |
| Router.ThirdParamNonPointerReachesCall | router.go:102-125 | a registered handler with pointer first and second parameters and a non-pointer third gets past the check as written and panics in `Call`, with nothing written |
| Router.ThirdParamGuardRejects | router.go:119-124 | with the intended check, a non-pointer third parameter is rejected with the check's own panic, and nothing is written |
| Router.ThreeParamResponse | router.go:102-135 | a valid three-parameter handler writes its own calls, then one JSON body: its error, or status 0 with its output |
| LogFormat.Str | http/server.go:66-71 | `str` gives "-" for "" and keeps every non-empty value, so it never yields "" |
| LogFormat.StrSpec | http/server.go:66-71 | `str` changes exactly the empty string, which becomes "-", and is idempotent |
| LogFormat.ClientIp | http/server.go:24-34 | the first comma-separated entry of X-Forwarded-For if non-empty, else X-Real-Ip if non-empty, else the remote address |
| LogFormat.ClientIpSpec | http/server.go:24-34 | the forwarded address is a comma-free prefix of the header, and the result is empty only when all three sources are |
| LogFormat.LeadingCommaFallsThrough | http/server.go:26-31 | a forwarded header that starts with a comma falls through to X-Real-Ip |
| LogFormat.Summarize | http/server.go:43-46 | a response of up to 500 bytes is kept; a longer one becomes the too-large notice ending in `...)` |
| LogFormat.SummaryOfLargeResponse | http/server.go:44-46 | the notice holds the response's size, which reads back as its length, then its first 100 bytes, and has a fixed length for each size |
| LogFormat.RequestLogFields | http/server.go:52-63 | the REQ line has seven fields without the clock ones, the address first |
| LogFormat.PathWithQuerySpec | http/server.go:48-50 | the path is kept in front, and gains `?` plus the raw query only when that query is non-empty |
| LogFormat.RequestLogFieldsSpec | http/server.go:57-62 | the seven fields are the address as given; method, path, trace id and uuid as given, or "-" when empty; body and response in triple quotes, an empty one as `"""-"""` |
| HttpContext.SetMetaSpec | http/context.go:59-64 | after setting, the map exists, the key reads back the value, and every other key reads as before |
| HttpContext.BodySpec | http/context.go:95-102 | after `Body` the body is cached: the earlier cache if there was one, else everything the transport held |
| HttpContext.GrowsTrans | http/context.go:36-41 | two successive stretches of chain progress make one, and two single reads of the transport make one |
| HttpContext.NextSpec | http/context.go:36-41 | `Next` moves the cursor forward, only runs handlers past the old cursor in increasing order, and reads the transport at most once |
| HttpContext.LinkSpec | http/context.go:39 | running the handler under the cursor records it first, then only later handlers |
| HttpContext.StepsSpec | http/context.go:36-102 | a handler's calls keep the cursor from moving back and read the transport at most once |
| HttpContext.RecoverySpec | http/server.go:10-18 | the recovery handler only runs handlers past the cursor, in increasing order, and reads the transport at most once |
| HttpContext.LogSpec | http/server.go:20-64 | the logging handler keeps the cursor's progress and reads the transport at most once |
| HttpContext.Context.constructor | http/context.go:25-34 | `newContext` starts at cursor 0, status 200, nothing pending, body unread, empty metadata |
| HttpContext.Context.Next | http/context.go:36-41 | the new state and panic are exactly those `NextSpec` gives for the old state |
| HttpContext.Context.ProcessHandler | http/context.go:39 | running the handler under the cursor leaves exactly what `LinkSpec` gives |
| HttpContext.Context.SetMetaData | http/context.go:59-64 | only the map changes, to `SetMetaSpec` of the old map |
| HttpContext.Context.Json | http/context.go:66-75 | the pending response becomes `JsonSpec` of the old state |
| HttpContext.Context.DieWithHttpStatus | http/context.go:77-81 | the pending response becomes `DieSpec` of the old state |
| HttpContext.Context.Response | http/context.go:83-93 | the calls added to the writer are exactly `ResponseOps` of the pending response |
| HttpContext.Context.Body | http/context.go:95-102 | the state becomes `BodySpec` of the old state, and the cached body is returned |
| HttpContext.RunScript | http/context.go:36-102 | a handler's calls leave exactly what `StepsSpec` gives |
| HttpContext.RecoveryHandler | http/server.go:10-18 | never panics, and leaves exactly what `RecoverySpec` gives |
| HttpContext.LogHandler | http/server.go:20-64 | leaves exactly what `LogSpec` gives, computing the address before `Next` and the rest after it |
| HttpContext.NextPastEnd | http/context.go:36-41 | past the end of the chain, `Next` only moves the cursor by one |
| HttpContext.ChainOrder | http/context.go:36-41 | from a fresh context, handler indices run in strictly increasing order, each at most once, inside the chain; the transport is read at most once, and the cached body is all of it |
| HttpContext.NoNextNoMove | http/context.go:36-41 | a handler that never calls `Next` leaves the cursor where it was |
| HttpContext.ShortCircuit | http/context.go:36-41 | running a handler that never calls `Next` leaves the cursor on it and adds only its own index; whether anything runs after it is up to the handlers before it |
| HttpContext.NextCalls | http/context.go:36-41 | a script's count of `Next` calls is zero exactly when it holds none |
| HttpContext.LinkBound | http/context.go:36-41 | with every handler calling `Next` at most once, running from at or before a handler that never calls it leaves the cursor at or before that handler |
| HttpContext.LinkCursor | http/context.go:39 | the handler under the cursor leaves it where its script, or the `Next` of the recovery or logging handler, leaves it |
| HttpContext.StepsBound | http/context.go:36-41 | the same for one script's calls, which call `Next` at most once |
| HttpContext.ChainStopsAt | http/context.go:36-41 | from a fresh context, with every handler calling `Next` at most once, no handler after one that never calls it runs |
| HttpContext.NextTwiceResumes | http/context.go:36-41 | a handler calling `Next` twice runs the handler after a silent one: `[Next; Next]` followed by two silent handlers runs all three |
| HttpContext.BodyOnce | http/context.go:95-102 | `Body` twice is `Body` once, and it reads the transport at most once |
| HttpContext.JsonLastWins | http/context.go:66-75 | `Json` replaces the pending body, marks a response, sets the JSON content type and leaves the status alone; the last call wins |
| HttpContext.DieKeepsBody | http/context.go:77-81 | `DieWithHttpStatus` sets the status and the text content type, and keeps the pending body |
| HttpContext.ResponseSpec | http/context.go:83-93 | the pending body is written exactly when the status is 200, the status line exactly when it is not, and a content type exactly when one is pending |
| HttpContext.DieAfterJsonDropsBody | http/context.go:77-93 | a body set by `Json` is never written once a status other than 200 is set |
| HttpContext.JsonAfterDieStillFails | http/context.go:66-93 | `Json` after a 404 does not bring back status 200, so its body is never written |
| HttpContext.RecoveryContains | http/server.go:10-18 | a downstream panic is logged once as `ERROR` and turns the pending response into a 500, keeping the body; without a panic nothing of its own happens |
| HttpContext.LogHandlerSpec | http/server.go:20-64 | a panic passes through without a log line; otherwise exactly one REQ line is logged after the chain, with the client address first, the response as it then was, and the body, now read |
| HttpContext.PanicUnderRecoveryAndLog | http/server.go:10-64 | behind recovery and logging, a panicking handler gives one `ERROR` line, no REQ line, and a bare 500 response |
| HttpContext.PanicPassesLog | http/server.go:20-36 | behind the logging handler, a panicking handler's panic comes out unlogged, after both ran in order |
| HttpContext.MetaLastWriteWins | http/context.go:55-64 | the last value set under a key is read back, other keys keep theirs, and an absent key reads nil |
| Binding.ZeroValues | mysql/mysql_helper.go:102 | a new struct holds each field's zero value |
| Binding.PanicAt | mysql/mysql_helper.go:119-155 | the first field, in field order, that matches the column and whose `Set` panics, or the field count when none does |
| Binding.BindColumn | mysql/mysql_helper.go:118-155 | applying one column panics exactly when it matches a settable field whose `Set` panics; otherwise each matching settable field takes the column converted by its kind and every other field keeps its value |
| Binding.BindAll | mysql/mysql_helper.go:116-157 | binding a row keeps the number of fields |
| Binding.PanicSticks | mysql/mysql_helper.go:116-157 | once a column's `Set` panics, the later columns change nothing |
| Binding.BindPanics | mysql/mysql_helper.go:116-157 | binding a row panics exactly when some column matches a settable field whose `Set` panics for that column's value |
| Binding.SomeSetPanicsSplit | mysql/mysql_helper.go:117 | a panicking column is one of the earlier columns or the last one |
| Binding.SetPanicsCases | mysql/mysql_helper.go:134-151 | a named-type field of a converted kind panics on every value, a default-case field panics on a NULL column, a struct field never panics |
| Binding.BindData | mysql/mysql_helper.go:116-157 | the array ends up holding `BindAll` of its old values and it panics exactly when `BindAll` does: every column applied to every field in order, up to the first panicking `Set` |
| Binding.ResolveNameSpec | mysql/mysql_helper.go:121-130 | the column tag wins over the json tag, which wins over the lowered Go name; a json name has no comma, and an empty json name is "" |
| Binding.AssignOverwrites | mysql/mysql_helper.go:131-153 | assigning twice leaves what the second assignment gives |
| Binding.LastIndexOf | mysql/mysql_helper.go:117-118 | the last column with the name, or -1 when none has it |
| Binding.BindAllField | mysql/mysql_helper.go:116-157 | when no `Set` panics, each settable field gets the value of the last column matching its name, converted by its kind; a field no column matches, or one that cannot be set, keeps its value |
| Binding.BindsDecimalColumn | mysql/mysql_helper.go:135-142 | a decimal column binds to its number in an int or int64 field, and to its text in a string field, without a panic when the field's type is predeclared |
| Binding.NonTimeStructUnchanged | mysql/mysql_helper.go:145-149 | a struct field whose type is not `Time` is never changed and never panics |
| Scan.ScanOneSpec | mysql/mysql_helper.go:11-53 | scanning one row keeps the number of fields |
| Scan.ScanQueryOne | mysql/mysql_helper.go:11-53 | the result and the struct's new values are exactly those `ScanOneSpec` gives |
| Scan.ScanRows | mysql/mysql_helper.go:96-113 | the loop appends at most one element per row |
| Scan.ScanQuery | mysql/mysql_helper.go:59-114 | the result is what `ScanListSpec` gives, and the slice keeps its elements and gains what `ScanListSpec` gives |
| Scan.BindNew | mysql/mysql_helper.go:102-103 | a fresh struct bound from a row holds `BindAll` of the zero values, and panics exactly when `BindAll` does |
| Scan.AppendRows | mysql/mysql_helper.go:96-113 | the row loop returns what `ScanRows` gives, and the slice gains exactly the elements `ScanRows` gives |
| Scan.ScanRowsAt | mysql/mysql_helper.go:96-109 | a row that scans appends its bound struct and the loop goes on, unless its binding panics, which ends the loop with nothing appended for it |
| Scan.Slice.constructor | mysql/mysql_helper.go:81 | the slice starts with the elements it is given |
| Scan.ScanOneOrder | mysql/mysql_helper.go:13-49 | a nil destination gives nil; with no rows any other destination gets `NO_DATA_TO_BIND` before its shape is checked; otherwise the first row is bound, and a panicking `Set` is a panic |
| Scan.ScanRowsSpec | mysql/mysql_helper.go:96-113 | one element per row, in row order, each the row bound into a zero struct, up to the first row that fails to scan or whose binding panics; that row's error or the panic is returned, else the iteration's error or nil |
| Scan.OnePerRow | mysql/mysql_helper.go:96-109 | when every row scans, exactly one element is appended per row exactly when no row's binding panics |
| Scan.UnsettableListIsError | mysql/mysql_helper.go:61-63 | a nil destination gives nil, and a destination that cannot be set gives an error, not a panic, with nothing appended |

## Left out

- Floating point: `ToFloat`, the float64 cases of the conversions, and the `Float64` case of `bindData`. A float field only records the column value it came from.
- Time: `ToTime`, `ToInt64` and `ToString` of a `time.Time`, and the timestamp and latency fields of the REQ line. These are clock-dependent.
- `token()`, transactions, `queryOne`, `query`, `insert`, `execute` and `mysql/mysql.go`. These are thin wrappers over `database/sql`.
- `http/log.go`: the logging sink is the `Logger` class, an appended list of tagged lines. `http/client.go` is an outbound network client and is not part of this model.
- `encoding/json` bytes: marshalling is an encoder parameter, and decoding is a function that may report failure. The success map is modelled with its keys in the sorted order `encoding/json` writes.
- `reflect`: handlers and destinations are described by datatypes. In `bindData`, `reflect.Value.Set` panics for a field of a named type of a converted kind, and for a NULL column in the default case; both are modelled. A non-NULL column whose dynamic type does not fit a default-case field also makes `Set` panic. That case is not modelled, because a field's exact type is not part of the model; such a field takes the column value. The text of `Set`'s panic is not modelled either.
- BindColumn: does not panic for a non-NULL column whose dynamic type does not fit a default-case field, because the field's exact Go type is not modelled; it assigns the column value there.
- BindAllField: for the same reason, states no panic for that default-case mismatch.
- The `http` package's router and its `processHandler` are not part of this model. Its `processHandler` is modelled as running the handler under the cursor.
- Handler bodies are fixed scripts of calls on the context. They do not branch on what they read.
- The root `processHandler` and `HandlerChain` are not part of this model either. The root router passes a context with an empty chain, because `router.go:66` calls `newContext` with two arguments.
- Concurrency: every request runs alone.
- Scan.ScanQuery: the `*[]*Struct` and `*[]Struct` destinations are one case. The aliasing of element pointers is not modelled.
- Scan.ScanQueryOne: `rows.Err()` after a row was read is taken as nil. `rows.Close()` is not modelled.
- Convert.ToInt: Go's `int` is taken as 64 bits wide.
- Transport.CanonicalHeaderKey: a header name that is not a token is left unchanged. Other `textproto` details are not modelled.
- Strings.LowerAscii: only ASCII letters are lowered. Unicode case mapping is not modelled.

## Findings

| source | as written | input that shows it | evidently intended | confidence | as-written member | corrected member |
|---|---|---|---|---|---|---|
| router.go:119 | the third-parameter check tests `paramType`, the first parameter, again | a handler `func(*In, *Out, int) *ErrorResponse`: the check passes, and `Call` then panics on the `*Context` argument | test `handlerType.In(2)`, so that such a handler hits the "third must be ptr to Context" panic | not executed | Router.ThirdParamGuardAsWrittenNeverFires | Router.ThirdParamGuardRejects |
