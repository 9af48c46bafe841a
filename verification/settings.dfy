/** The configuration snapshot (`config('telemetry.*')` and `app.env`) and the
    ambient state the builder reads: the clock, the host, the current
    request, the authenticated user and the service container's bindings. */
module Settings {
  import opened Wrappers
  import opened PhpValues

  /** What `$request` answers: `fullUrl()`, `method()` (here `httpMethod`), `userAgent()`,
      `ip()`, `all()` and `headers->all()` (lower-cased name to values). */
  datatype Request = Request(
    fullUrl: string,
    httpMethod: string,
    userAgent: Option<string>,
    ip: Option<string>,
    all: seq<Entry>,
    headers: map<string, seq<string>>)

  /** A response as `withResponseData` reads it: status code, header bag
      and content (a string, or false when there is none). */
  datatype Response = Response(status: int, headers: seq<Entry>, content: Value)

  /** The `telemetry` configuration. Flags keep the raw configured value,
      because the code tests them with `empty()` or `=== true`; each
      connection is the array configured under its name. */
  datatype Config = Config(
    appEnv: Value,
    enabled: Value,
    index: Value,
    defaultTransport: Value,
    connections: map<string, seq<Entry>>,
    requestIncluded: Value,
    requestHeaders: seq<string>,
    userIncluded: Value,
    userAttributes: seq<string>,
    userCallback: Value,
    obfuscatedDataKeys: seq<string>,
    loggingChannel: Value,
    throwTransportExceptions: Value)

  /** What the application's container has bound as the index resolver:
      nothing (resolution fails), something that is not a
      `TelemetryIndexResolver`, or a resolver, given by what its
      `getIndex` returns or throws. */
  datatype IndexBinding =
    | NoBinding
    | NotAResolver
    | Resolver(getIndex: (string, seq<Entry>) -> Result<string, Throwable>)

  /** Ambient state: `now()->timestamp`, `gethostname()` and
      `gethostbyname()` of it, `request()`, `Auth::user()` (null when
      logged out), the `TelemetryThreadId` binding if bound, and the index
      resolver binding. */
  datatype Ambient = Ambient(
    now: int,
    hostName: string,
    hostIp: string,
    request: Request,
    authUser: Value,
    threadId: Option<Value>,
    indexBinding: IndexBinding)

  /** The header allow-list shipped in the package's configuration. */
  const DefaultRequestHeaders: seq<string> :=
    ["accept", "authorization", "content-length", "content-type", "origin"]

  /** The user attributes shipped in the package's configuration. */
  const DefaultUserAttributes: seq<string> := ["email", "id", "name"]

  /** The denylist shipped in the package's configuration. */
  const DefaultObfuscatedKeys: seq<string> := ["password", "password_confirmation"]

  /** The package's configuration with no environment overrides, for an
      application environment, logging channel and Redis connection and
      queue names (the environment supplies the last two). */
  function DefaultConfig(appEnv: Value, channel: Value, redisConnection: Value, redisQueue: Value): Config
  {
    Config(
      appEnv := appEnv,
      enabled := Bool(false),
      index := Str("telemetry"),
      defaultTransport := Str("redis"),
      connections := map["redis" := [
        Entry("driver", Str("redis")),
        Entry("connection", redisConnection),
        Entry("queue", redisQueue)]],
      requestIncluded := Bool(true),
      requestHeaders := DefaultRequestHeaders,
      userIncluded := Bool(true),
      userAttributes := DefaultUserAttributes,
      userCallback := Null,
      obfuscatedDataKeys := DefaultObfuscatedKeys,
      loggingChannel := channel,
      throwTransportExceptions := Bool(false))
  }
}
