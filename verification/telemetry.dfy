/** `Telemetry`: the fluent builder an application fills in and fires, the
    payload it assembles, and how `fire` publishes it and reports what goes
    wrong. */
module Telemetry {
  import opened Wrappers
  import opened PhpValues
  import opened Settings
  import opened Sections
  import opened Normalizer
  import opened Obfuscator
  import opened IndexResolution
  import opened Assembly
  import opened RedisTransports
  import opened Transports
  import Json

  // ---------------------------------------------------------------- logging

  /** One line written to the log: the channel it went to and its text. */
  datatype LogLine = LogLine(channel: Value, message: string)

  /** The application's log, as the warnings written to it. */
  class Logger {
    var lines: seq<LogLine>

    constructor ()
      ensures lines == []
    {
      lines := [];
    }

    /** `Log::channel($channel)->warning($message)`. */
    method Warning(channel: Value, message: string)
      modifies this
      ensures lines == old(lines) + [LogLine(channel, message)]
    {
      lines := lines + [LogLine(channel, message)];
    }
  }

  /** The text `notifyException` logs for an exception. */
  function Notice(e: Throwable): string {
    "Telemetry Error: " + e.message
  }

  /** The log lines a run adds: one for the exception it notified, if any. */
  function Notices(config: Config, notified: Option<Throwable>): seq<LogLine> {
    match notified
    case Some(e) => [LogLine(config.loggingChannel, Notice(e))]
    case None => []
  }

  // ---------------------------------------------------------------- fire

  /** How a call ends: with a return value or with a throwable escaping. */
  datatype Outcome = Returned(value: Value) | Raised(thrown: Throwable)

  /** What `fire` does: how it ends, the exception it logged (at most one),
      and the Redis lists afterwards. */
  datatype FireTrace = FireTrace(outcome: Outcome, notified: Option<Throwable>, lists: map<ListKey, seq<string>>)

  const MissingEventMessage: string := "Telemetry requires an event name to index"

  const ConnectionParameter: string := "Telemetry::getTransportByConnection(): Argument #1 ($transportConnection)"

  /** `catch (Exception $e)` around `notifyException($e)`: an `Exception`
      is logged and then rethrown when the configuration says so, else
      `fire` returns null; any other throwable passes through unlogged. */
  function Caught(config: Config, e: Throwable, lists: map<ListKey, seq<string>>): (t: FireTrace)
    ensures t.lists == lists
    ensures t.notified.Some? <==> e.IsException()
    ensures t.outcome.Raised? <==> !e.IsException() || config.throwTransportExceptions == Bool(true)
    ensures t.outcome.Raised? ==> t.outcome.thrown == e
  {
    if e.IsException() then
      FireTrace(if config.throwTransportExceptions == Bool(true) then Raised(e) else Returned(Null), Some(e), lists)
    else FireTrace(Raised(e), None, lists)
  }

  /** `$connection ?? config('telemetry.default_transport')`. */
  function ConnectionValue(connection: Option<string>, config: Config): Value {
    match connection
    case Some(c) => Str(c)
    case None => config.defaultTransport
  }

  /** The `try` block of `fire`: the connection name (`$connection`, else
      the configured default, which must be a string or null), the transport
      resolved for it, then the payload, then what publishing returns; the
      first throwable ends it. Also the Redis lists afterwards. `payload` is
      what `getPayload()` returns or throws; PHP evaluates the target of
      `->publish(...)` before its argument, so it counts only once the
      transport is resolved. */
  function Attempt(config: Config, connection: Option<string>, registry: Registry,
                   payload: Result<seq<Entry>, Throwable>, lists: map<ListKey, seq<string>>)
    : (Result<Value, Throwable>, map<ListKey, seq<string>>)
    requires payload.Ok? ==> PlainEntries(payload.value)
  {
    match NullableStringParam(ConnectionValue(connection, config), ConnectionParameter)
    case Err(e) => (Err(e), lists)
    case Ok(name) =>
      match Resolve(Details(config.connections, name), registry)
      case Err(e) => (Err(e), lists)
      case Ok(d) =>
        match payload
        case Err(e) => (Err(e), lists)
        case Ok(p) => Published(d, p, lists)
  }

  /** `fire($connection)` for a builder whose event name is `event` and
      whose `getPayload()` gives `payload`: returns false when telemetry is
      not enabled (`!== true`); notifies a missing event name; otherwise
      returns what the `try` block returns, and hands what it throws to the
      `catch (Exception $e)` block. */
  function FireSpec(config: Config, event: Option<string>, connection: Option<string>, registry: Registry,
                    payload: Result<seq<Entry>, Throwable>, lists: map<ListKey, seq<string>>): FireTrace
    requires payload.Ok? ==> PlainEntries(payload.value)
  {
    if config.enabled != Bool(true) then FireTrace(Returned(Bool(false)), None, lists)
    else if EmptyOptString(event) then Caught(config, Throwable(Exception, MissingEventMessage), lists)
    else
      var (r, lists') := Attempt(config, connection, registry, payload, lists);
      match r
      case Err(e) => Caught(config, e, lists')
      case Ok(v) => FireTrace(Returned(v), None, lists')
  }

  /** Past the two early returns, `fire` ends as its `try` block does. */
  lemma FireAfterTry(config: Config, event: Option<string>, connection: Option<string>, registry: Registry,
                     payload: Result<seq<Entry>, Throwable>, lists: map<ListKey, seq<string>>,
                     r: Result<Value, Throwable>, after: map<ListKey, seq<string>>)
    requires payload.Ok? ==> PlainEntries(payload.value)
    requires config.enabled == Bool(true) && !EmptyOptString(event)
    requires (r, after) == Attempt(config, connection, registry, payload, lists)
    ensures FireSpec(config, event, connection, registry, payload, lists) ==
      if r.Err? then Caught(config, r.error, after) else FireTrace(Returned(r.value), None, after)
  {
  }

  /** The lists do not change what the `catch` block does. */
  lemma CaughtAnyLists(config: Config, e: Throwable, lists: map<ListKey, seq<string>>)
    ensures Caught(config, e, lists) == Caught(config, e, map[]).(lists := lists)
  {
  }

  /** Disabled telemetry returns false before doing anything: no log line,
      no list touched, whatever the event, the connection, the registry and
      the payload. */
  lemma FireDisabled(config: Config, event: Option<string>, connection: Option<string>, registry: Registry,
                     payload: Result<seq<Entry>, Throwable>, lists: map<ListKey, seq<string>>)
    requires payload.Ok? ==> PlainEntries(payload.value)
    requires config.enabled != Bool(true)
    ensures FireSpec(config, event, connection, registry, payload, lists) == FireTrace(Returned(Bool(false)), None, lists)
  {
  }

  /** Enabled, but without an event name: the missing name is notified and
      nothing is published, whatever the connection and the payload. */
  lemma FireWithoutEvent(config: Config, event: Option<string>, connection: Option<string>, registry: Registry,
                         payload: Result<seq<Entry>, Throwable>, lists: map<ListKey, seq<string>>)
    requires payload.Ok? ==> PlainEntries(payload.value)
    requires config.enabled == Bool(true) && EmptyOptString(event)
    ensures var t := FireSpec(config, event, connection, registry, payload, lists);
      t.notified == Some(Throwable(Exception, MissingEventMessage)) && t.lists == lists &&
      t.outcome == if config.throwTransportExceptions == Bool(true) then Raised(t.notified.value) else Returned(Null)
  {
  }

  /** With no override, the connection is the configured default: firing
      without one is firing with the default's name. */
  lemma DefaultConnectionUsed(config: Config, event: Option<string>, registry: Registry,
                              payload: Result<seq<Entry>, Throwable>, lists: map<ListKey, seq<string>>, c: string)
    requires payload.Ok? ==> PlainEntries(payload.value)
    requires config.defaultTransport == Str(c)
    ensures FireSpec(config, event, None, registry, payload, lists) == FireSpec(config, event, Some(c), registry, payload, lists)
  {
    assert ConnectionValue(None, config) == ConnectionValue(Some(c), config);
  }

  /** The connection name `fire` resolves. */
  function ConnectionName(connection: Option<string>, config: Config): Result<Option<string>, Throwable> {
    NullableStringParam(ConnectionValue(connection, config), ConnectionParameter)
  }

  /** The transport is resolved before the payload counts: when resolution
      throws, that is what `fire` reports, whatever `getPayload()` gives. */
  lemma TransportBeforePayload(config: Config, event: Option<string>, connection: Option<string>, registry: Registry,
                               payload: Result<seq<Entry>, Throwable>, lists: map<ListKey, seq<string>>)
    requires payload.Ok? ==> PlainEntries(payload.value)
    requires config.enabled == Bool(true) && !EmptyOptString(event)
    requires ConnectionName(connection, config).Ok?
    requires Resolve(Details(config.connections, ConnectionName(connection, config).value), registry).Err?
    ensures FireSpec(config, event, connection, registry, payload, lists)
      == Caught(config, Resolve(Details(config.connections, ConnectionName(connection, config).value), registry).error, lists)
  {
  }

  /** `fire` changes the Redis lists only by a successful push onto the
      resolved Redis transport's target list, of the JSON of the payload,
      and then returns the push's answer; everything else leaves them
      alone. */
  lemma {:induction false} FireTouchesOnlyTarget(config: Config, event: Option<string>, connection: Option<string>,
                                                 registry: Registry, payload: Result<seq<Entry>, Throwable>,
                                                 lists: map<ListKey, seq<string>>)
    requires payload.Ok? ==> PlainEntries(payload.value)
    ensures var t := FireSpec(config, event, connection, registry, payload, lists);
      var name := ConnectionName(connection, config);
      t.lists != lists ==>
        name.Ok? && payload.Ok? && payload.value != [] &&
        var d := Resolve(Details(config.connections, name.value), registry);
        d.Ok? && d.value.Redis? &&
        var target := d.value.redis.Target();
        t.outcome == Returned(Int(|ListOf(lists, target)| + 1)) && t.notified.None? &&
        t.lists == lists[target := ListOf(lists, target) + [Json.Serialize(Arr(payload.value))]]
  {
    var t := FireSpec(config, event, connection, registry, payload, lists);
    var (r, after) := Attempt(config, connection, registry, payload, lists);
    var name := ConnectionName(connection, config);
    if config.enabled == Bool(true) && !EmptyOptString(event) && name.Ok? {
      var d := Resolve(Details(config.connections, name.value), registry);
      if d.Ok? && payload.Ok? {
        assert (r, after) == Published(d.value, payload.value, lists);
        PublishedEffect(d.value, payload.value, lists);
      } else {
        assert after == lists;
      }
    }
  }

  /** What `fire` reports: at most one exception is logged, and only an
      `Exception`; when `throw_transport_exceptions` is not `true`, a
      notified exception makes `fire` return null and nothing of class
      `Exception` escapes; when it is `true`, the notified exception is
      the one thrown; what escapes unlogged is not an `Exception`. */
  lemma {:induction false} FireOutcomes(config: Config, event: Option<string>, connection: Option<string>,
                                        registry: Registry, payload: Result<seq<Entry>, Throwable>,
                                        lists: map<ListKey, seq<string>>)
    requires payload.Ok? ==> PlainEntries(payload.value)
    ensures var t := FireSpec(config, event, connection, registry, payload, lists);
      (t.notified.Some? ==> t.notified.value.IsException()) &&
      (t.notified.Some? && config.throwTransportExceptions != Bool(true) ==> t.outcome == Returned(Null)) &&
      (t.notified.Some? && config.throwTransportExceptions == Bool(true) ==> t.outcome == Raised(t.notified.value)) &&
      (t.outcome.Raised? && t.notified.None? ==> !t.outcome.thrown.IsException()) &&
      (config.throwTransportExceptions != Bool(true) && t.outcome.Raised? ==> !t.outcome.thrown.IsException())
  {
    var t := FireSpec(config, event, connection, registry, payload, lists);
    if config.enabled == Bool(true) {
      if EmptyOptString(event) {
        assert t == Caught(config, Throwable(Exception, MissingEventMessage), lists);
      } else {
        var (r, after) := Attempt(config, connection, registry, payload, lists);
        if r.Err? {
          assert t == Caught(config, r.error, after);
        } else {
          assert t == FireTrace(Returned(r.value), None, after);
        }
      }
    }
  }

  // ---------------------------------------------------------------- the builder

  /** The message of the exception `data()` throws for null. */
  const EventParameter: string := "Telemetry::event(): Argument #1 ($eventName)"

  /** The TypeError `data()` raises for a value of another type. */
  function DataTypeMessage(typeName: string): string {
    "Telemetry::data(): Argument #1 ($data) must be of type Illuminate\\Contracts\\Support\\Arrayable|array|null, "
    + typeName + " given"
  }

  const DataMessage: string := "Telemetry data must be an array or implement Arrayable"

  /** The error PHP raises when `withResponseData()` is called without a
      response. */
  const NullResponseMessage: string := "Call to a member function getStatusCode() on null"

  /** `$this->responseData` as `withResponseData` sets it. */
  function ResponseArray(r: Response): (es: seq<Entry>)
    ensures Keys(es) == ["status", "headers", "content"]
  {
    [Entry("status", Int(r.status)), Entry("headers", Arr(r.headers)), Entry("content", r.content)]
  }

  /** One more wanted header name extends the filtered headers by the
      header, when the request has it. */
  lemma HeaderStep(loggingHeaders: seq<string>, requestHeaders: map<string, seq<string>>, i: int)
    requires 0 <= i < |loggingHeaders|
    ensures var name := Trim(loggingHeaders[i]);
      var acc := FilteredHeaders(loggingHeaders[..i], requestHeaders);
      FilteredHeaders(loggingHeaders[..i + 1], requestHeaders) ==
        match HeaderValue(requestHeaders, name)
        case Some(v) => Put(acc, name, Str(v))
        case None => acc
  {
    ghost var prefix := loggingHeaders[..i + 1];
    assert prefix[..|prefix| - 1] == loggingHeaders[..i] && prefix[|prefix| - 1] == loggingHeaders[i];
  }

  lemma HeadersDone(loggingHeaders: seq<string>, requestHeaders: map<string, seq<string>>, filtered: seq<Entry>)
    requires filtered == FilteredHeaders(loggingHeaders[..|loggingHeaders|], requestHeaders)
    ensures filtered == FilteredHeaders(loggingHeaders, requestHeaders)
  {
    assert loggingHeaders[..|loggingHeaders|] == loggingHeaders;
  }

  /** The header loop of `getRequestData`: each wanted name, trimmed, that
      the request has with at least one value is kept with its values
      joined by commas. */
  method FilterHeaders(loggingHeaders: seq<string>, requestHeaders: map<string, seq<string>>) returns (filtered: seq<Entry>)
    ensures filtered == FilteredHeaders(loggingHeaders, requestHeaders)
  {
    filtered := [];
    var i := 0;
    while i < |loggingHeaders|
      invariant 0 <= i <= |loggingHeaders|
      invariant filtered == FilteredHeaders(loggingHeaders[..i], requestHeaders)
    {
      var header := Trim(loggingHeaders[i]);
      HeaderStep(loggingHeaders, requestHeaders, i);
      if header in requestHeaders && requestHeaders[header] != [] {
        filtered := Put(filtered, header, Str(Implode(",", requestHeaders[header])));
      }
      i := i + 1;
    }
    HeadersDone(loggingHeaders, requestHeaders, filtered);
  }

  /** One more configured attribute extends the attribute array by one `Put`. */
  lemma AttributeStep(attributes: seq<string>, user: Value, i: int)
    requires 0 <= i < |attributes|
    ensures UserAttributes(attributes[..i + 1], user) ==
      Put(UserAttributes(attributes[..i], user), Trim(attributes[i]), Prop(user, Trim(attributes[i])))
  {
    ghost var prefix := attributes[..i + 1];
    assert prefix[..|prefix| - 1] == attributes[..i] && prefix[|prefix| - 1] == attributes[i];
  }

  lemma AttributesDone(attributes: seq<string>, userData: seq<Entry>, user: Value)
    requires userData == UserAttributes(attributes[..|attributes|], user)
    ensures userData == UserAttributes(attributes, user)
  {
    assert attributes[..|attributes|] == attributes;
  }

  /** The attribute loop of `getUser`: each configured name, trimmed, is
      set to the user's property of that name, or null. */
  method ReadAttributes(attributes: seq<string>, user: Value) returns (userData: seq<Entry>)
    ensures userData == UserAttributes(attributes, user)
  {
    userData := [];
    var i := 0;
    while i < |attributes|
      invariant 0 <= i <= |attributes|
      invariant userData == UserAttributes(attributes[..i], user)
    {
      var attribute := Trim(attributes[i]);
      AttributeStep(attributes, user, i);
      userData := Put(userData, attribute, Prop(user, attribute));
      i := i + 1;
    }
    AttributesDone(attributes, userData, user);
  }

  /** The second half of `getPayload()`: normalisation, obfuscation, the
      index, and the `@metadata` entry when the index is not empty. */
  method FinishPayload(config: Config, event: Option<string>, ambient: Ambient, assembled: seq<Entry>)
    returns (r: Result<seq<Entry>, Throwable>)
    ensures r == Finish(config, event, ambient, assembled)
  {
    var normalised := GetTelemetryData(assembled);
    if normalised.Err? {
      return Err(normalised.error);
    }
    var payload := GetObfuscatedData(normalised.value, config.obfuscatedDataKeys);
    if event.None? {
      return Err(NullEventError);
    }
    var index := GetIndex(ambient.indexBinding, config.index, event.value, payload);
    if index.Err? {
      return Err(index.error);
    }
    if !EmptyString(index.value) {
      payload := Put(payload, MetadataKey, Metadata(index.value));
    }
    r := Ok(payload);
  }

  /** The attribute loop of `getUser`, then the callback's array merged
      over what it read. */
  method CollectUserData(config: Config, user: Value) returns (userData: seq<Entry>)
    ensures userData == UserData(config, user)
  {
    userData := ReadAttributes(config.userAttributes, user);
    var callbackData := CallbackData(config.userCallback, user);
    if callbackData != [] {
      userData := Merge(userData, callbackData);
    }
  }

  /** The body of `getUser`, with `$data` starting out as an empty array;
      `None` when nothing is to be added. */
  method BuildUserSection(config: Config, given: Value, authUser: Value) returns (section: Option<seq<Entry>>)
    ensures section == UserSection(config, given, authUser)
  {
    if Empty(config.userIncluded) && given == Bool(false) {
      return None;
    }
    var user := ResolvedUser(given, authUser);
    if Empty(user) {
      return None;
    }
    var userData := CollectUserData(config, user);
    section := if userData != [] then Some(userData) else None;
  }

  class Telemetry {
    var event: Option<string>
    var data: seq<Entry>
    var requestData: Option<RequestArg>
    var responseData: seq<Entry>
    var withUser: Value

    /** The builder's fields as a value. */
    function State(): Builder
      reads this
    {
      Builder(event, data, requestData, responseData, withUser)
    }

    /** A new builder: every field at its declared default. */
    constructor ()
      ensures State() == NewBuilder
    {
      event := None;
      data := [];
      requestData := None;
      responseData := [];
      withUser := Null;
    }

    /** `withRequestData($arg)` (the argument defaults to `true`). */
    method WithRequestData(arg: RequestArg)
      modifies this
      ensures State() == old(State()).(requestData := Some(arg))
    {
      requestData := Some(arg);
    }

    /** `withResponseData($response)`: keeps the status, the headers and
        the content; without a response, the first method call on null is
        an `Error` and nothing changes. */
    method WithResponseData(response: Option<Response>) returns (err: Option<Throwable>)
      modifies this
      ensures response.None? ==> err == Some(Throwable(Error, NullResponseMessage)) && State() == old(State())
      ensures response.Some? ==> err.None? && State() == old(State()).(responseData := ResponseArray(response.value))
    {
      if response.None? {
        return Some(Throwable(Error, NullResponseMessage));
      }
      responseData := ResponseArray(response.value);
      err := None;
    }

    /** `withUserData($user)`: both branches store the argument, `false`
        included. */
    method WithUserData(user: Value)
      modifies this
      ensures State() == old(State()).(withUser := user)
    {
      if user == Bool(false) {
        withUser := Bool(false);
        return;
      }
      withUser := user;
    }

    /** `event($eventName)`: a `?string` parameter, so scalars are
        converted and arrays or objects are a `TypeError`. */
    method Event(name: Value) returns (err: Option<Throwable>)
      modifies this
      ensures var p := NullableStringParam(name, EventParameter);
        (p.Ok? ==> err.None? && State() == old(State()).(event := p.value)) &&
        (p.Err? ==> err == Some(p.error) && State() == old(State()))
    {
      var p := NullableStringParam(name, EventParameter);
      if p.Err? {
        return Some(p.error);
      }
      event := p.value;
      err := None;
    }

    /** `data($data)`: an Arrayable object is replaced by its `toArray()`;
        an array is kept; null is refused with an `Exception`; anything
        else does not satisfy the parameter type. */
    method Data(v: Value) returns (err: Option<Throwable>)
      modifies this
      ensures err.None? <==> v.Arr? || (v.Obj? && v.caps.isArrayable)
      ensures v.Arr? ==> State() == old(State()).(data := v.entries)
      ensures v.Obj? && v.caps.isArrayable ==> State() == old(State()).(data := v.toArray)
      ensures err.Some? ==> State() == old(State())
      ensures v.Null? ==> err == Some(Throwable(Exception, DataMessage))
      ensures err.Some? && !v.Null? ==> err.value.cls == TypeError
    {
      if !v.Null? && !v.Arr? && !(v.Obj? && v.caps.isArrayable) {
        return Some(Throwable(TypeError, DataTypeMessage(TypeName(v))));
      }
      var d := v;
      if d.Obj? {
        d := Arr(d.toArray);
      }
      if !d.Arr? {
        return Some(Throwable(Exception, DataMessage));
      }
      data := d.entries;
      err := None;
    }

    // ------------------------------------------------------------ sections

    /** `getRequestData($payload)`: adds the `request` section. */
    method GetRequestData(config: Config, current: Request, payload: seq<Entry>) returns (p: seq<Entry>)
      ensures p == PutSection(payload, "request", RequestSection(config, requestData, current))
    {
      var rd := requestData;
      if Empty(config.requestIncluded) && RequestDataEmpty(rd) {
        return payload;
      }
      if rd.Some? && rd.value.Given? && rd.value.entries != [] {
        return Put(payload, "request", Arr(rd.value.entries));
      }
      var request := if rd.Some? && rd.value.GivenRequest? then rd.value.request else current;
      var filtered := FilterHeaders(config.requestHeaders, request.headers);
      p := Put(payload, "request", Arr(RequestArray(request, filtered)));
    }

    /** `getUser($payload)`: adds the `user` section unless it is empty. */
    method GetUser(config: Config, authUser: Value, payload: seq<Entry>) returns (p: seq<Entry>)
      ensures p == PutSection(payload, "user", UserValue(UserSection(config, withUser, authUser)))
    {
      var userData := BuildUserSection(config, withUser, authUser);
      p := if userData.Some? then Put(payload, "user", Arr(userData.value)) else payload;
    }

    /** The first half of `getPayload()`: the seed, then the sections in
        order, each added only when present. */
    method Assemble(config: Config, ambient: Ambient) returns (payload: seq<Entry>)
      ensures payload == Assembled(config, State(), ambient)
    {
      payload := Seed(config, event, ambient);
      payload := GetRequestData(config, ambient.request, payload);
      ghost var p1 := payload;
      if responseData != [] {
        payload := Put(payload, "response", Arr(responseData));
      }
      ghost var p2 := payload;
      payload := GetUser(config, ambient.authUser, payload);
      ghost var p3 := payload;
      if ambient.threadId.Some? {
        payload := Put(payload, "thread_id", ambient.threadId.value);
      }
      ghost var p4 := payload;
      if data != [] {
        payload := Put(payload, "data", Arr(data));
      }
      AssembledStepwise(config, State(), ambient, p1, p2, p3, p4, payload);
    }

    /** `getPayload()`: the assembled array, then normalisation, obfuscation
        and the index. */
    method GetPayload(config: Config, ambient: Ambient) returns (r: Result<seq<Entry>, Throwable>)
      ensures r == Payload(config, State(), ambient)
      ensures r.Ok? ==> PlainEntries(r.value)
    {
      var payload := Assemble(config, ambient);
      r := FinishPayload(config, event, ambient, payload);
    }

    // ------------------------------------------------------------ fire

    /** `notifyException($e)`: logs the message on the configured channel,
        then rethrows when `throw_transport_exceptions` is `true`. */
    static method NotifyException(e: Throwable, config: Config, logger: Logger) returns (rethrown: Option<Throwable>)
      requires e.IsException()
      modifies logger
      ensures logger.lines == old(logger.lines) + [LogLine(config.loggingChannel, Notice(e))]
      ensures rethrown.Some? <==> config.throwTransportExceptions == Bool(true)
      ensures rethrown.Some? ==> rethrown.value == e
    {
      logger.Warning(config.loggingChannel, "Telemetry Error: " + e.message);
      if config.throwTransportExceptions == Bool(true) {
        return Some(e);
      }
      rethrown := None;
    }

    /** The `catch (Exception $e)` block of `fire`, and what escapes it. */
    static method Handle(e: Throwable, config: Config, logger: Logger) returns (outcome: Outcome)
      modifies logger
      ensures var t := Caught(config, e, map[]);
        outcome == t.outcome && logger.lines == old(logger.lines) + Notices(config, t.notified)
    {
      if !e.IsException() {
        return Raised(e);
      }
      var rethrown := NotifyException(e, config, logger);
      outcome := if rethrown.Some? then Raised(rethrown.value) else Returned(Null);
    }

    /** The `try` block of `fire`, proved against `Attempt`. */
    method TryPublish(connection: Option<string>, config: Config, ambient: Ambient, registry: Registry,
                      server: RedisServer) returns (r: Result<Value, Throwable>)
      modifies server
      ensures (r, server.lists) == Attempt(config, connection, registry, Payload(config, State(), ambient), old(server.lists))
    {
      var name := NullableStringParam(ConnectionValue(connection, config), ConnectionParameter);
      if name.Err? {
        return Err(name.error);
      }
      var transport, err := Transport.New(name.value, config.connections, registry);
      if err.Some? {
        return Err(err.value);
      }
      var payload := GetPayload(config, ambient);
      if payload.Err? {
        return Err(payload.error);
      }
      r := transport.Publish(server, payload.value);
    }

    /** `fire($connection)`, proved against `FireSpec`. */
    method Fire(connection: Option<string>, config: Config, ambient: Ambient, registry: Registry,
                logger: Logger, server: RedisServer) returns (outcome: Outcome)
      modifies logger, server
      ensures var t := FireSpec(config, event, connection, registry, Payload(config, State(), ambient), old(server.lists));
        outcome == t.outcome && server.lists == t.lists &&
        logger.lines == old(logger.lines) + Notices(config, t.notified)
    {
      ghost var payload := Payload(config, State(), ambient);
      ghost var lists := server.lists;
      if config.enabled != Bool(true) {
        FireDisabled(config, event, connection, registry, payload, lists);
        return Returned(Bool(false));
      }
      if EmptyOptString(event) {
        outcome := Handle(Throwable(Exception, MissingEventMessage), config, logger);
        CaughtAnyLists(config, Throwable(Exception, MissingEventMessage), lists);
        return;
      }
      var r := TryPublish(connection, config, ambient, registry, server);
      FireAfterTry(config, event, connection, registry, payload, lists, r, server.lists);
      if r.Err? {
        outcome := Handle(r.error, config, logger);
        CaughtAnyLists(config, r.error, server.lists);
        return;
      }
      outcome := Returned(r.value);
    }
  }
}
