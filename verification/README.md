# Telemetry builder, normaliser, obfuscator and transports, in Dafny

This project models the core of the `obviobysage/telemetry` Laravel package
and proves properties of it. An application builds a telemetry event with
the fluent `Telemetry` builder and calls `fire()`. The builder assembles a
payload that holds the environment, the event name and its timestamp, the
host, and optionally the request, response, user, thread id and data
sections. That payload is then normalised (objects turn into arrays and
strings), obfuscated (values under denylisted keys become runs of `*`) and
given an `@metadata` index. `fire()` publishes it through the `Transport`
resolved for the configured connection. The built-in `RedisTransport`
`RPUSH`es the JSON-encoded payload onto a Redis list. Errors go to
`notifyException`, which logs a warning and rethrows only when configured to.

Modules, following the structure of the source:

- `PhpValues`: PHP values (scalars, ordered string-keyed arrays, objects
  described by what `instanceof` answers) and the PHP built-ins the code
  relies on: `empty`, `trim`, `strlen`, `str_repeat`, `implode`, string
  conversion and coercion of `string` parameters, array assignment, `unset`
  and `array_merge`.
- `Settings`: the configuration snapshot and the ambient state (clock, host,
  request, authenticated user, container bindings).
- `Normalizer` (`getTelemetryData`), `Obfuscator` (`getObfuscatedData`) and
  `IndexResolution` (`getIndex`): pure functions with their lemmas.
- `Json`: `json_encode` on normalised values, with the string escaping proved
  reversible.
- `Sections`: the `request` and `user` sections (`getRequestData`, `getUser`)
  as specification functions.
- `Assembly`: `getPayload` as a specification function, and the payload
  shape proved about it.
- `RedisTransports`: `RedisTransport` and a `RedisServer` class holding the
  lists that `RPUSH` appends to.
- `Transports`: the `Transport` class. `resolveTransport` is proved against
  the pure `Resolve`, and `publish` against `Published`.
- `Telemetry`: the `Telemetry` builder as a class whose setters update its
  fields. Its loops (header filter, user attributes) are methods with loop
  invariants, and `getPayload` and `fire` are methods proved against
  `Payload` and `FireSpec`. Besides the builder, it holds a `Logger` class
  standing for the log, and the lemmas about what `fire` can end with.

Calls into the framework become parameters: `config()`, `now()`,
`gethostname()`, `request()`, `Auth::user()`, the container's
`TelemetryIndexResolver` and `TelemetryThreadId` bindings, and the classes
that `new $transport(...)` can instantiate (a registry from class name to
constructor). The Redis server and the log are classes the methods modify.

## Model

| member | source | states |
|---|---|---|
| PhpValues.Put | src/Telemetry.php:353 | `$a[$k] = $v` overwrites an existing key in place and appends a new one at the end; afterwards `$k` holds `$v` and every other key reads as before |
| PhpValues.PutKeepsDistinct | src/Telemetry.php:353 | assignment never makes an array hold a key twice |
| PhpValues.Unset | src/Transports/Transport.php:38-39 | `unset` removes exactly that key; the other pairs stay, in order, with their values |
| PhpValues.Merge | src/Telemetry.php:369-372 | `array_merge` holds the keys of both arrays, and a key only in the first keeps its value |
| PhpValues.MergeKeepsPrefix | src/Telemetry.php:369-372 | `array_merge` keeps the first array's keys first, in their order |
| PhpValues.MergeSecondWins | src/Telemetry.php:369-372 | on every key of the second array, `array_merge` takes the second array's value |
| PhpValues.StringParam | src/Telemetry.php:173 | a `string` return or parameter accepts bools, ints and strings (as their string form); anything else is a TypeError |
| PhpValues.NullableStringParam | src/Telemetry.php:131 | a `?string` parameter: null stays null, scalars become their string form, arrays and objects are a TypeError |
| PhpValues.LooseEqualsText | src/Transports/Transport.php:41-42 | the `switch` comparison: a string matches a case exactly when it equals the case label |
| PhpValues.ByteLength | src/Telemetry.php:473 | `strlen` counts UTF-8 bytes: at least one and at most four per character |
| PhpValues.Trim | src/Telemetry.php:297 | `trim` leaves no blank at either end |
| Normalizer.NormalizeValue | src/Telemetry.php:397-438 | a normalised value holds no object at any depth |
| Normalizer.GetTelemetryData | src/Telemetry.php:388-451 | normalisation keeps the array's keys in their order and leaves no object at any depth |
| Normalizer.NormalizeValueFailure | src/Telemetry.php:443-447 | a value fails to normalise exactly when an object no branch handles is reachable in it; the throwable is an `Exception` naming the class of such an object |
| Normalizer.GetTelemetryDataFailure | src/Telemetry.php:394-448 | an array fails to normalise exactly when one of its values holds an unhandled object; the message names such a class |
| Normalizer.TelemetryDataBeforeArrayable | src/Telemetry.php:412-424 | an object that is TelemetryData is normalised from `telemetryData()`, whatever `toArray()` returns |
| Normalizer.ArrayableUsesToArray | src/Telemetry.php:420-424 | an object that is only Arrayable is normalised from `toArray()` |
| Normalizer.LeafObjects | src/Telemetry.php:427-438 | a Carbon instance becomes its ISO-8601 string; an UploadedFile becomes its client original name |
| Normalizer.NormalizeEntryWise | src/Telemetry.php:394-407 | each pair of the result is the pair at the same position with its value normalised alone; scalars are untouched |
| Normalizer.NormalizePlainIdentity | src/Telemetry.php:397-407 | an array without objects normalises to itself |
| Normalizer.NormalizeIdempotent | src/Telemetry.php:388-451 | normalising twice is normalising once |
| Obfuscator.Mask | src/Telemetry.php:473 | a mask is a string of `*` exactly as long as the value's string form is in bytes |
| Obfuscator.ObfuscateValue | src/Telemetry.php:465-474 | arrays are walked into and never masked; any other value is masked exactly when its key is denylisted, else kept |
| Obfuscator.GetObfuscatedData | src/Telemetry.php:461-478 | obfuscation keeps the keys in order and the array free of objects |
| Obfuscator.ObfuscateEntryWise | src/Telemetry.php:465-475 | each pair of the result is the input pair with its value obfuscated under its own key |
| Obfuscator.EmptyDenylistIsIdentity | src/Telemetry.php:463-475 | with an empty denylist the payload comes back unchanged |
| Obfuscator.UnlistedKeysUntouched | src/Telemetry.php:472-474 | a payload none of whose keys, at any depth, is denylisted comes back unchanged |
| Obfuscator.ObfuscationMasks | src/Telemetry.php:465-475 | at every depth, a non-array value under a denylisted key becomes `*`s of its byte length; every other non-array value is kept |
| Obfuscator.StarsByteLength | src/Telemetry.php:473 | a mask is ASCII, so its byte length is its length |
| Obfuscator.ObfuscateIdempotent | src/Telemetry.php:461-478 | obfuscating twice is obfuscating once |
| IndexResolution.GetIndex | src/Telemetry.php:173-197 | a bound resolver's answer, its index or its exception, is the result; otherwise only the configured fallback can fail, with a TypeError from the `string` return type |
| IndexResolution.ResolverWins | src/Telemetry.php:189-195 | a bound resolver alone decides the index or the exception; the configured index plays no part |
| IndexResolution.FallbackToConfig | src/Telemetry.php:194-196 | without a valid resolver, the index is the configured one for every event and payload; it succeeds exactly when that is a bool, an int or a string |
| IndexResolution.JoiningResolverExample | tests/Support/IndexResolver.php:9-12 | the test resolver joins the event name, `::` and the payload values |
| Json.Hex4RoundTrip | src/Transports/RedisTransport.php:42 | the four hex digits of a `\u` escape read back as the code unit written |
| Json.EscapeChar | src/Transports/RedisTransport.php:42 | a character is written as itself exactly when it may stand in a JSON string; otherwise it is an escape starting with a backslash |
| Json.UnescapeEscapeChar | src/Transports/RedisTransport.php:42 | every escape written for a character decodes to that character and consumes exactly the escape |
| Json.EscapeRoundTrip | src/Transports/RedisTransport.php:42 | decoding an escaped string gives it back, so the encoding loses nothing |
| Json.EscapeInjective | src/Transports/RedisTransport.php:42 | two different strings are never encoded alike |
| Json.ObjectShape | src/Transports/RedisTransport.php:42 | an array whose first key is not `0` is written as a JSON object of its members |
| RedisTransports.RedisServer.RPush | src/Transports/RedisTransport.php:39-43 | `RPUSH` appends to that one list, changes no other list and answers the new length |
| RedisTransports.RedisTransport.ValidateConnection | src/Transports/RedisTransport.php:19-32 | validation passes exactly when connection and queue are both non-empty; an empty connection is reported before the queue |
| RedisTransports.RedisTransport.Publish | src/Transports/RedisTransport.php:37-44 | publishing pushes `json_encode($payload)` once onto the queue of that connection and returns the list's new length |
| RedisTransports.ConnectionCheckedFirst | src/Transports/RedisTransport.php:21-31 | with an empty connection, the queue does not change what validation throws |
| RedisTransports.ValidationExamples | tests/Transports/RedisTransportTest.php:15-30 | the two cases of the package's tests (no arguments, a connection only) throw a `RedisConnectionException` with the tested messages; so does a `"0"` connection, and a valid pair passes |
| Transports.Stripped | src/Transports/Transport.php:38-39 | `driver` and `transport` are removed; every other detail is passed on unchanged |
| Transports.MakeRedis | src/Transports/Transport.php:43-46 | the Redis transport gets `connection` and `queue` by name, null when absent, coerced to strings; otherwise a TypeError |
| Transports.ResolveFrom | src/Transports/Transport.php:30-70 | a resolution that throws nothing leaves a `TelemetryTransport` whose validation passed |
| Transports.Transport.New | src/Transports/Transport.php:18-21 | the constructor resolves exactly once; without an exception the object holds the resolved transport; validation ran exactly when resolution reached it |
| Transports.Transport.ResolveTransport | src/Transports/Transport.php:30-70 | reads the details, runs the driver switch, the capability check and validation; the field ends as `Assigned` says, the error is `ResolveFrom`'s, and the validation count grows exactly when validation is reached |
| Transports.Transport.SwitchDriver | src/Transports/Transport.php:41-59 | the driver switch assigns the field as `Construct` says and reports what the construction threw |
| Transports.Transport.Publish | src/Transports/Transport.php:79-86 | `publish` answers and changes the Redis lists as `Published` says |
| Transports.PublishedEffect | src/Transports/Transport.php:79-86 | an empty payload returns null and touches no list; a custom transport's answer is passed through; Redis grows only its target list, by the encoded payload |
| Transports.RedisDriverIgnoresTransportEntry | src/Transports/Transport.php:41-48 | the `redis` driver builds the Redis transport from the details alone; a `transport` entry plays no part |
| Transports.MakeRedisByLookup | src/Transports/Transport.php:43-46 | the Redis transport depends only on the `connection` and `queue` entries |
| Transports.RedisFieldsPassedThrough | src/Transports/Transport.php:41-69 | configured string fields reach the Redis transport unchanged; valid ones resolve, an empty connection is refused |
| Transports.NothingResolved | src/Transports/Transport.php:50-67 | an unknown driver without a transport class fails the capability check with a `TransportException`, and validation never runs |
| Transports.MissingConnection | src/Transports/Transport.php:32-67 | an unconfigured connection fails with the message naming an empty driver |
| Transports.CapabilityCheckedBeforeValidation | src/Transports/Transport.php:63-69 | an instantiated class that is not a `TelemetryTransport` is refused before validation |
| Transports.UnknownDriverExample | tests/Transports/TransportTest.php:82-97 | the package's own test: an `unknown` driver whose class is not a transport gives that test's message |
| Sections.Trimmed | src/Telemetry.php:297 | each configured name is trimmed, position by position |
| Sections.FilteredHeadersContents | src/Telemetry.php:296-305 | the filtered headers hold exactly the trimmed wanted names the request has non-empty values for, once each, each joined with commas |
| Sections.RequestArray | src/Telemetry.php:307-314 | the request array has the keys `uri`, `method`, `agent`, `ip`, `data`, `headers`, in that order |
| Sections.RequestSectionCases | src/Telemetry.php:268-316 | no section exactly when the config flag and the builder's request data are both empty; a non-empty array is used verbatim; otherwise the request array is built |
| Sections.ExplicitFalseStillIncluded | src/Telemetry.php:268-272 | `withRequestData(false)` does not leave the request out while the configuration includes it |
| Sections.UserAttributesContents | src/Telemetry.php:350-354 | every trimmed configured attribute is present once, with the user's value or null |
| Sections.AsWrittenAgreesElsewhere | src/Telemetry.php:325-378 | the code as written and the corrected section differ only when no attributes are configured and the callback returns data, where the code throws the undefined-`$data` error |
| Sections.MergeIntoUndefinedData | src/Telemetry.php:350-372 | a concrete user for which the code as written throws (an `ErrorException`, which is an `Exception`, under Laravel's warning handler; a `TypeError` without it) and the corrected section holds the callback data |
| Sections.ExplicitFalseNoUser | src/Telemetry.php:329-346 | `withUserData(false)` never yields a user section |
| Sections.UserIncludedFlagIrrelevant | src/Telemetry.php:329-346 | the configured `included` flag never changes the user section |
| Sections.UserSectionContents | src/Telemetry.php:350-377 | an added section holds every trimmed attribute (the callback value if it overrides it, else the user's value or null) and the callback's value for each of its keys |
| Assembly.Seed | src/Telemetry.php:208-216 | every payload starts with `env`, `event`, `event_ts` and `host` |
| Assembly.Finish | src/Telemetry.php:246-261 | the finished payload holds no object |
| Assembly.AssembledStepwise | src/Telemetry.php:208-244 | the five conditional assignments made one after the other give the assembled payload |
| Assembly.AssembledKeys | src/Telemetry.php:208-244 | the assembled keys are the seed keys, then each present section's key, in source order, all distinct and never `@metadata` |
| Assembly.FinishShape | src/Telemetry.php:246-261 | apart from `@metadata`, the result is the assembled array normalised, then masked; `@metadata` comes last, holding the index, exactly when the index is non-empty |
| Assembly.PayloadShape | src/Telemetry.php:204-262 | `getPayload()` in full: the result is built from the assembled array as `FinishShape` says |
| Assembly.FinishMasked | src/Telemetry.php:248-251 | every value under a denylisted key, at any depth, is published as `*`s of its byte length |
| Assembly.UnhandledObjectFails | src/Telemetry.php:248 | an unhandled object anywhere in the payload makes `getPayload()` throw an `Exception` naming such a class |
| Assembly.ResolverExceptionPropagates | src/Telemetry.php:255 | an exception the bound resolver throws for the normalised, masked array is what `getPayload()` throws |
| Assembly.NoEventNoIndex | src/Telemetry.php:255 | without an event name, `getIndex` rejects the null argument with a TypeError |
| Telemetry.Logger.Warning | src/Telemetry.php:539-540 | a warning appends one line on the given channel and changes nothing else in the log |
| Telemetry.Caught | src/Telemetry.php:508-513 | only an `Exception` is logged; it escapes only when rethrowing is configured; any other throwable escapes unlogged |
| Telemetry.FireDisabled | src/Telemetry.php:489-491 | unless `enabled` is `true`, `fire` returns false, logs nothing and touches no list |
| Telemetry.FireWithoutEvent | src/Telemetry.php:493-497 | enabled but without an event name, `fire` logs the missing name once and returns null, or rethrows it when configured to; no list is touched |
| Telemetry.DefaultConnectionUsed | src/Telemetry.php:503-504 | with no connection given, `fire` behaves as if the configured default were given |
| Telemetry.TransportBeforePayload | src/Telemetry.php:506-507 | when the transport cannot be resolved, that failure is what `fire` reports, whatever the payload |
| Telemetry.FireTouchesOnlyTarget | src/Telemetry.php:499-507 | `fire` changes the lists only by one push of the encoded payload onto the resolved Redis target, and then returns the new length and logs nothing |
| Telemetry.FireOutcomes | src/Telemetry.php:485-514 | at most one exception is logged and it is an `Exception`; without rethrowing, a logged run returns null; with it, the logged exception escapes; only a non-`Exception` escapes unlogged |
| Telemetry.ResponseArray | src/Telemetry.php:95-99 | the response is kept as `status`, `headers`, `content` |
| Telemetry.FilterHeaders | src/Telemetry.php:296-305 | the header loop computes the filtered headers (`FilteredHeaders`) |
| Telemetry.ReadAttributes | src/Telemetry.php:350-354 | the attribute loop computes the attribute array (`UserAttributes`) |
| Telemetry.CollectUserData | src/Telemetry.php:350-373 | the attribute loop, then the callback array merged over it |
| Telemetry.BuildUserSection | src/Telemetry.php:329-377 | the body of `getUser` computes the corrected user section |
| Telemetry.FinishPayload | src/Telemetry.php:246-261 | normalisation, obfuscation and the index, computed as `Finish` says |
| Telemetry.Telemetry.constructor | src/Telemetry.php:40-68 | a new builder has every field at its declared default |
| Telemetry.Telemetry.WithRequestData | src/Telemetry.php:78-83 | stores its argument as the request data and changes no other field |
| Telemetry.Telemetry.WithResponseData | src/Telemetry.php:93-102 | keeps status, headers and content of the response; a missing response is an `Error` and changes nothing |
| Telemetry.Telemetry.WithUserData | src/Telemetry.php:111-122 | stores its argument (false included) as the user choice and changes no other field |
| Telemetry.Telemetry.Event | src/Telemetry.php:131-136 | stores the event name coerced to `?string`; an array or object is a TypeError and changes nothing |
| Telemetry.Telemetry.Data | src/Telemetry.php:147-163 | accepts exactly arrays and Arrayable objects (storing `toArray()`); null is the package's `Exception`, any other type a TypeError, and a failure changes nothing |
| Telemetry.Telemetry.GetRequestData | src/Telemetry.php:264-317 | adds the `request` section as `RequestSection` says |
| Telemetry.Telemetry.GetUser | src/Telemetry.php:325-378 | adds the `user` section as `UserSection` says, when there is one |
| Telemetry.Telemetry.Assemble | src/Telemetry.php:208-244 | the seed and the section assignments give the assembled payload |
| Telemetry.Telemetry.GetPayload | src/Telemetry.php:204-262 | returns or throws what `Payload` says, and what it returns holds no object |
| Telemetry.Telemetry.NotifyException | src/Telemetry.php:535-546 | logs `Telemetry Error: ` and the message on the configured channel, then rethrows exactly when `throw_transport_exceptions` is `true` |
| Telemetry.Telemetry.Handle | src/Telemetry.php:508-513 | the `catch (Exception $e)` block ends and logs as `Caught` says |
| Telemetry.Telemetry.TryPublish | src/Telemetry.php:499-507 | the `try` block returns, throws and changes the lists as `Attempt` says |
| Telemetry.Telemetry.Fire | src/Telemetry.php:485-514 | `fire` ends, changes the lists and writes the log as `FireSpec` says |

## Left out

- The container, facades and helpers (`config`, `app`, `now`, `gethostname`, `gethostbyname`, `request`, `Auth::user`, `Redis::connection`, `Log::channel`) are parameters or the two classes `RedisServer` and `Logger`; a failing `gethostname` is not modelled.
- `getTransportByConnection` is `Transport.New`; the service provider and the facade are not part of this model.
- The contracts `TelemetryTransport`, `TelemetryData`, `Arrayable` and `TelemetryIndexResolver` are data: a custom transport is a record with its `validateConnection` result and its `publish` function, and an object is described by what `instanceof` answers and what its methods return.
- `new $transport(...$connectionDetails)` is a lookup of the class name in a registry of constructors; instantiating a class that does not exist is an `Error` in the model, with an approximate message.
- Dotted connection names are not resolved through nested configuration arrays: `config('telemetry.connections.' . $name)` reads the connection under that exact name.
- A connection configured as something other than an array is not modelled; connections are arrays of pairs.
- Array keys are strings; PHP's integer keys and their renumbering in `array_merge` are not modelled, and `in_array`'s loose comparison is taken as string equality on keys.
- `json_encode` failures (invalid UTF-8, depth, floats) cannot occur: strings are sequences of Unicode scalar values and there are no floats; pretty-printing and other flags are not modelled.
- `Stringable` objects and `__toString` are not modelled; an object's string form is its class name.
- TypeError and Error messages follow PHP 8's wording approximately; only their class is relied on.
- Obfuscator.GetObfuscatedData requires a payload without objects, which `getPayload` guarantees because it normalises first; the source's behaviour on objects is not modelled.
- Telemetry.Telemetry.Fire: PHP's `string $connection = null` is implicitly nullable, so the parameter is `Option<string>`.
- Telemetry.FireSpec: the payload is a parameter standing for what `getPayload()` returns or throws; the `try` block's match in `Attempt` fixes when it counts, after the transport is resolved, and `Fire` passes `Payload` of its own state.
- Assembly.Assembled is written as appends; `Assembly.AssembledStepwise` proves it equal to the five assignments.
- `fire` catches only `Exception`: a `TypeError` or `Error` (a non-string connection name or index, an array as Redis connection) escapes unlogged. `Telemetry.FireOutcomes` states this.
- Sections.UserSectionAsWritten: which throwable the undefined `$data` raises depends on the error handler installed; the model takes it as a parameter (`ErrorException` under Laravel's handler, `TypeError` in bare PHP 8) and does not model other handlers.
- Assembly.Assembled: the user section is the corrected `Sections.UserSection` of the finding below, so with no configured attributes and a callback that returns data the model adds the callback array where src/Telemetry.php:370 throws.
- Assembly.PayloadShape: states `getPayload()` over the corrected user section (see `Assembly.Assembled`), not the throw of src/Telemetry.php:370.
- Telemetry.CollectUserData: starts `$data` as an empty array, the corrected reading; the throw of src/Telemetry.php:370 is modelled only by `Sections.UserSectionAsWritten`.
- Telemetry.BuildUserSection: computes the corrected user section, so it does not throw where src/Telemetry.php:370 does.
- Telemetry.Telemetry.GetUser: adds the corrected user section, so it does not throw where src/Telemetry.php:370 does.
- Telemetry.Telemetry.Assemble: its user step is the corrected section, so it returns a payload where the source throws from `getUser`.
- Telemetry.Telemetry.GetPayload: returns a payload with the callback's user section on the input where the source's `getUser` throws.
- Telemetry.Telemetry.TryPublish: publishes the corrected payload where the source's `try` block throws from `getUser`; it also never sees a Redis failure (see `RedisTransports.RedisTransport.Publish`).
- Telemetry.Telemetry.Fire: follows the corrected user section, so it publishes where the source's `getUser` throws (and then logs under Laravel's handler); and a Redis push never fails in the model.
- RedisTransports.RedisTransport.Publish: `Redis::connection` with a connection name that is not configured, and `rpush` on a failed connection, throw in the source; the model's push always succeeds, so `fire` never reaches its `catch` through a Redis failure.
- RedisTransports.RedisServer.RPush: the server is always reachable; connection errors are not modelled.

## Findings

| source | as written | input that shows it | evidently intended | confidence | as-written member | corrected member |
|---|---|---|---|---|---|---|
| src/Telemetry.php:350-372 | `$data` is first assigned inside the attribute loop, then passed to `array_merge`, which throws when it was never assigned (an `ErrorException` under Laravel's warning handler, a `TypeError` in bare PHP 8) | no configured user attributes, and a user whose callback method returns `['plan' => 'pro']` | the callback's array becomes the user section | not executed | Sections.UserSectionAsWritten (shown by Sections.MergeIntoUndefinedData) | Sections.UserSection |
