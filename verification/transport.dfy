/** `Transport`: picks the transport a connection is configured with, checks
    that it is a `TelemetryTransport`, validates it, and publishes through
    it. */
module Transports {
  import opened Wrappers
  import opened PhpValues
  import opened Settings
  import opened RedisTransports

  /** The driver name of the built-in transport. */
  const DriverRedis: string := "redis"

  /** An object built from a configured `transport` class name: its class,
      whether it implements `TelemetryTransport`, what its
      `validateConnection()` throws (if anything) and what its `publish`
      returns or throws. */
  datatype CustomTransport = CustomTransport(
    className: string,
    implementsTransport: bool,
    validation: Option<Throwable>,
    publish: seq<Entry> -> Result<Value, Throwable>)

  /** The classes the application defines, each as what `new $class(...$args)`
      yields (or throws) for the named arguments `args`. */
  type Registry = map<string, seq<Entry> -> Result<CustomTransport, Throwable>>

  /** What `$this->transport` can hold once resolution has assigned it. */
  datatype Driver = Redis(redis: RedisTransport) | Custom(custom: CustomTransport)

  /** `$transport instanceof TelemetryTransport`. */
  predicate IsTransport(d: Driver) {
    d.Redis? || d.custom.implementsTransport
  }

  /** What `validateConnection()` throws, if anything. */
  function Validation(d: Driver): Option<Throwable> {
    match d
    case Redis(t) => t.ValidateConnection()
    case Custom(c) => c.validation
  }

  /** `config('telemetry.connections.' . $name)`: a null name reads the key
      "", and a missing connection reads as null, which behaves here as
      the empty array. */
  function Details(connections: map<string, seq<Entry>>, name: Option<string>): seq<Entry> {
    var key := name.GetOr("");
    if key in connections then connections[key] else []
  }

  /** The details with `driver` and `transport` unset, so that only the
      transport's own arguments are spread into its constructor. */
  function Stripped(details: seq<Entry>): (r: seq<Entry>)
    ensures Lookup(r, "driver") == None && Lookup(r, "transport") == None
    ensures forall k :: k != "driver" && k != "transport" ==> Lookup(r, k) == Lookup(details, k)
  {
    Unset(Unset(details, "driver"), "transport")
  }

  const ConnectionArgument: string := "RedisTransport::__construct(): Argument #1 ($connection)"
  const QueueArgument: string := "RedisTransport::__construct(): Argument #2 ($queue)"

  /** `app()->makeWith(RedisTransport::class, [...$args])`: the named
      arguments `connection` and `queue`, each `null|string`. */
  function MakeRedis(args: seq<Entry>): (r: Result<RedisTransport, Throwable>)
    ensures r.Ok? ==> !Get(args, "connection").Null? ==> r.value.connection == Some(Text(Get(args, "connection")))
    ensures r.Ok? ==> !Get(args, "queue").Null? ==> r.value.queue == Some(Text(Get(args, "queue")))
    ensures r.Ok? ==> (Get(args, "connection").Null? <==> r.value.connection.None?)
    ensures r.Ok? ==> (Get(args, "queue").Null? <==> r.value.queue.None?)
    ensures r.Err? ==> r.error.cls == TypeError
  {
    var c := NullableStringParam(Get(args, "connection"), ConnectionArgument);
    var q := NullableStringParam(Get(args, "queue"), QueueArgument);
    if c.Err? then Err(c.error)
    else if q.Err? then Err(q.error)
    else Ok(RedisTransport(c.value, q.value))
  }

  /** `new $transport(...$args)`. */
  function Instantiate(transport: Value, args: seq<Entry>, registry: Registry): Result<CustomTransport, Throwable> {
    match transport
    case Str(className) =>
      if className in registry then registry[className](args)
      else Err(Throwable(Error, "Class \"" + className + "\" not found"))
    case _ => Err(Throwable(Error, "Class name must be a valid object or a string"))
  }

  /** The driver switch: what `$this->transport` is assigned, if anything.
      A driver equal to "redis" builds the Redis transport and ignores any
      `transport` entry; otherwise a non-empty `transport` is instantiated;
      otherwise nothing is. */
  function Construct(details: seq<Entry>, registry: Registry): Result<Option<Driver>, Throwable> {
    var driver := Get(details, "driver");
    var transport := Get(details, "transport");
    var args := Stripped(details);
    if LooseEqualsText(driver, DriverRedis) then
      match MakeRedis(args)
      case Ok(t) => Ok(Some(Redis(t)))
      case Err(e) => Err(e)
    else if !Empty(transport) then
      match Instantiate(transport, args, registry)
      case Ok(c) => Ok(Some(Custom(c)))
      case Err(e) => Err(e)
    else Ok(None)
  }

  /** The exception for a driver that resolved to no transport. The
      misspelt "Telemtry" is the message's own. */
  function CapabilityError(driver: Value): Throwable {
    Throwable(TransportException, CapabilityMessage(Text(driver)))
  }

  /** The message naming the driver. */
  function CapabilityMessage(driverName: string): string {
    "Telemtry driver \"" + driverName + "\" is not a valid TelemetryTransport"
  }

  /** What `$this->transport` holds after the driver switch, when it held
      `current` before. */
  function Assigned(current: Option<Driver>, details: seq<Entry>, registry: Registry): Option<Driver> {
    var c := Construct(details, registry);
    if c.Ok? && c.value.Some? then c.value else current
  }

  /** The whole of `resolveTransport` on an object whose field holds
      `current`: the transport, or what it throws. */
  function ResolveFrom(current: Option<Driver>, details: seq<Entry>, registry: Registry): (r: Result<Driver, Throwable>)
    ensures r.Ok? ==> IsTransport(r.value) && Validation(r.value).None?
  {
    match Construct(details, registry)
    case Err(e) => Err(e)
    case Ok(_) =>
      var t := Assigned(current, details, registry);
      if t.None? || !IsTransport(t.value) then Err(CapabilityError(Get(details, "driver")))
      else if Validation(t.value).Some? then Err(Validation(t.value).value)
      else Ok(t.value)
  }

  /** Resolution on a new object, whose field starts out null. */
  function Resolve(details: seq<Entry>, registry: Registry): Result<Driver, Throwable> {
    ResolveFrom(None, details, registry)
  }

  /** Whether resolution gets as far as calling `validateConnection()`. */
  predicate Validates(current: Option<Driver>, details: seq<Entry>, registry: Registry) {
    var t := Assigned(current, details, registry);
    Construct(details, registry).Ok? && t.Some? && IsTransport(t.value)
  }

  // ---------------------------------------------------------------- the object

  class Transport {
    /** `$this->transport`, null until resolution assigns it. */
    var transport: Option<Driver>
    /** How many times `resolveTransport` and `validateConnection` ran. */
    ghost var resolutions: nat
    ghost var validations: nat

    /** The object before its constructor body runs. */
    constructor Blank()
      ensures transport.None? && resolutions == 0 && validations == 0
    {
      transport := None;
      resolutions := 0;
      validations := 0;
    }

    /** `new Transport($name)`: resolves the connection exactly once. When
        no exception escapes, the object holds a validated transport. */
    static method New(name: Option<string>, connections: map<string, seq<Entry>>, registry: Registry)
      returns (t: Transport, err: Option<Throwable>)
      ensures fresh(t) && t.resolutions == 1
      ensures var r := Resolve(Details(connections, name), registry);
        (err.None? <==> r.Ok?) && (err.Some? ==> err.value == r.error) &&
        (err.None? ==> t.transport == Some(r.value))
      ensures t.validations == if Validates(None, Details(connections, name), registry) then 1 else 0
    {
      t := new Transport.Blank();
      err := t.ResolveTransport(name, connections, registry);
    }

    /** `resolveTransport($name)`, step by step: read the details, take out
        `driver` and `transport`, build, check the capability, validate. */
    method ResolveTransport(name: Option<string>, connections: map<string, seq<Entry>>, registry: Registry)
      returns (err: Option<Throwable>)
      modifies this
      ensures var details := Details(connections, name);
        transport == Assigned(old(transport), details, registry) &&
        resolutions == old(resolutions) + 1 &&
        validations == old(validations) + (if Validates(old(transport), details, registry) then 1 else 0)
      ensures var r := ResolveFrom(old(transport), Details(connections, name), registry);
        (err.None? <==> r.Ok?) && (err.Some? ==> err.value == r.error)
    {
      resolutions := resolutions + 1;
      var details := Details(connections, name);
      var driver := Get(details, "driver");
      err := SwitchDriver(details, registry);
      if err.Some? {
        return;
      }
      if transport.None? || !IsTransport(transport.value) {
        return Some(CapabilityError(driver));
      }
      validations := validations + 1;
      err := Validation(transport.value);
    }

    /** The driver switch of `resolveTransport`: assigns `$this->transport`
        or throws while building it. */
    method SwitchDriver(original: seq<Entry>, registry: Registry) returns (err: Option<Throwable>)
      modifies this`transport
      ensures var c := Construct(original, registry);
        (err.None? <==> c.Ok?) && (err.Some? ==> err.value == c.error)
      ensures transport == Assigned(old(transport), original, registry)
    {
      var details := original;
      var driver := Get(details, "driver");
      var transportClass := Get(details, "transport");
      details := Unset(details, "driver");
      details := Unset(details, "transport");
      assert details == Stripped(original);
      if LooseEqualsText(driver, DriverRedis) {
        var made := MakeRedis(details);
        if made.Err? {
          return Some(made.error);
        }
        transport := Some(Redis(made.value));
      } else if !Empty(transportClass) {
        var made := Instantiate(transportClass, details, registry);
        if made.Err? {
          return Some(made.error);
        }
        transport := Some(Custom(made.value));
      }
      err := None;
    }

    /** `publish($payload)`: an empty payload returns null and reaches no
        transport; any other is handed to the transport, whose answer is
        returned as it is. */
    method Publish(server: RedisServer, payload: seq<Entry>) returns (r: Result<Value, Throwable>)
      requires transport.Some? && PlainEntries(payload)
      modifies server
      ensures (r, server.lists) == Published(transport.value, payload, old(server.lists))
    {
      if payload == [] {
        return Ok(Null);
      }
      match transport.value
      case Redis(t) =>
        var pushed := t.Publish(server, payload);
        r := Ok(pushed);
      case Custom(c) =>
        r := c.publish(payload);
    }
  }

  /** `publish($payload)` through driver `d` on lists `lists`: what it
      returns or throws, and the lists afterwards. */
  function Published(d: Driver, payload: seq<Entry>, lists: map<ListKey, seq<string>>)
    : (Result<Value, Throwable>, map<ListKey, seq<string>>)
    requires PlainEntries(payload)
  {
    if payload == [] then (Ok(Null), lists)
    else
      match d
      case Redis(t) => var (v, lists') := t.Pushed(payload, lists); (Ok(v), lists')
      case Custom(c) => (c.publish(payload), lists)
  }

  /** Publishing an empty payload reaches no transport; a custom transport
      leaves the Redis lists alone; the Redis transport appends the JSON of
      the payload to its target list only, and answers that list's new
      length. */
  lemma PublishedEffect(d: Driver, payload: seq<Entry>, lists: map<ListKey, seq<string>>)
    requires PlainEntries(payload)
    ensures var (r, after) := Published(d, payload, lists);
      (payload == [] ==> r == Ok(Null) && after == lists) &&
      (d.Custom? ==> after == lists && (payload != [] ==> r == d.custom.publish(payload))) &&
      (d.Redis? && payload != [] ==>
        var t := d.redis.Target();
        r == Ok(Int(|ListOf(lists, t)| + 1)) &&
        ListOf(after, t) == ListOf(lists, t) + [Json.Serialize(Arr(payload))] &&
        after.Keys == lists.Keys + {t} &&
        forall k :: k != t ==> ListOf(after, k) == ListOf(lists, k))
  {
  }

  // ---------------------------------------------------------------- properties

  /** Driver "redis" builds the Redis transport from the details without
      `driver` and `transport`; a `transport` entry plays no part. */
  lemma RedisDriverIgnoresTransportEntry(details: seq<Entry>, registry: Registry, other: Value)
    requires LooseEqualsText(Get(details, "driver"), DriverRedis)
    ensures Construct(details, registry) == Construct(Put(details, "transport", other), registry)
    ensures Construct(details, registry).Ok? <==> MakeRedis(Stripped(details)).Ok?
    ensures Construct(details, registry).Ok? ==>
      Construct(details, registry).value == Some(Redis(MakeRedis(Stripped(details)).value))
  {
    var d' := Put(details, "transport", other);
    assert Get(d', "driver") == Get(details, "driver");
    forall k ensures Lookup(Stripped(d'), k) == Lookup(Stripped(details), k) { }
    MakeRedisByLookup(Stripped(d'), Stripped(details));
  }

  /** `MakeRedis` reads its arguments by name only. */
  lemma MakeRedisByLookup(a: seq<Entry>, b: seq<Entry>)
    requires Lookup(a, "connection") == Lookup(b, "connection") && Lookup(a, "queue") == Lookup(b, "queue")
    ensures MakeRedis(a) == MakeRedis(b)
  {
    assert Get(a, "connection") == Get(b, "connection");
    assert Get(a, "queue") == Get(b, "queue");
  }

  /** A Redis connection configured with string `connection` and `queue`
      gets a transport holding exactly those strings, and resolves when
      both are non-empty. */
  lemma RedisFieldsPassedThrough(details: seq<Entry>, registry: Registry, c: string, q: string)
    requires Get(details, "driver") == Str(DriverRedis)
    requires Get(details, "connection") == Str(c) && Get(details, "queue") == Str(q)
    ensures Construct(details, registry) == Ok(Some(Redis(RedisTransport(Some(c), Some(q)))))
    ensures !EmptyString(c) && !EmptyString(q) ==> Resolve(details, registry) == Ok(Redis(RedisTransport(Some(c), Some(q))))
    ensures EmptyString(c) ==> Resolve(details, registry) == Err(Throwable(RedisConnectionException, InvalidConnection))
  {
    var args := Stripped(details);
    assert Get(args, "connection") == Str(c) && Get(args, "queue") == Str(q);
    var t := RedisTransport(Some(c), Some(q));
    assert MakeRedis(args) == Ok(t);
    assert Construct(details, registry) == Ok(Some(Redis(t)));
    assert Assigned(None, details, registry) == Some(Redis(t));
  }

  /** An unknown driver without a `transport` class resolves to nothing,
      and that is reported as a `TransportException` naming the driver. */
  lemma NothingResolved(details: seq<Entry>, registry: Registry)
    requires !LooseEqualsText(Get(details, "driver"), DriverRedis) && Empty(Get(details, "transport"))
    ensures Resolve(details, registry) == Err(CapabilityError(Get(details, "driver")))
    ensures Resolve(details, registry).error.cls == TransportException
    ensures !Validates(None, details, registry)
  {
  }

  /** A connection that is not configured at all gives the message with an
      empty driver name. */
  lemma MissingConnection(connections: map<string, seq<Entry>>, name: Option<string>, registry: Registry)
    requires name.GetOr("") !in connections
    ensures Resolve(Details(connections, name), registry) == Err(Throwable(TransportException, CapabilityMessage("")))
  {
    assert Details(connections, name) == [];
    assert Get([], "driver") == Null && Get([], "transport") == Null;
    assert !LooseEqualsText(Null, DriverRedis);
    assert Construct([], registry) == Ok(None);
  }

  /** An instantiated class that is not a `TelemetryTransport` is refused
      before its `validateConnection` could run: what that would throw
      makes no difference. */
  lemma CapabilityCheckedBeforeValidation(details: seq<Entry>, registry: Registry)
    requires !LooseEqualsText(Get(details, "driver"), DriverRedis)
    requires Get(details, "transport").Str? && Get(details, "transport").s in registry
    requires var made := registry[Get(details, "transport").s](Stripped(details));
      made.Ok? && !made.value.implementsTransport
    ensures Resolve(details, registry) == Err(CapabilityError(Get(details, "driver")))
    ensures !Validates(None, details, registry)
  {
  }

  /** The package's own test: an `unknown` driver whose class is the test
      user model. */
  lemma UnknownDriverExample(user: CustomTransport)
    requires !user.implementsTransport
    ensures var details := [Entry("driver", Str("unknown")), Entry("transport", Str("AuthUser"))];
      var registry: Registry := map["AuthUser" := (args: seq<Entry>) => Ok(user)];
      Resolve(details, registry) == Err(CapabilityError(Str("unknown")))
  {
    var details := [Entry("driver", Str("unknown")), Entry("transport", Str("AuthUser"))];
    assert Get(details, "driver") == Str("unknown");
    assert Get(details, "transport") == Str("AuthUser");
    assert !LooseEqualsText(Str("unknown"), DriverRedis);
    var registry: Registry := map["AuthUser" := (args: seq<Entry>) => Ok(user)];
    assert Instantiate(Str("AuthUser"), Stripped(details), registry) == Ok(user);
    assert Construct(details, registry) == Ok(Some(Custom(user)));
    assert Resolve(details, registry) == Err(CapabilityError(Str("unknown")));
  }
}
