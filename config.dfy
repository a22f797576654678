/** The connector's settings: field defaults, bounds, which fields are optional,
    and the order in which settings sources are consulted.

    A "raw" record holds what the sources supplied for each field (`None` when
    the field was not given); validation either builds the typed record,
    filling in defaults, or returns the list of field errors in declaration
    order, as pydantic reports them. */
module Config {
  import opened Wrappers

  datatype LogLevel = Critical | Error | Warning | Info | Debug {
    /** The level's string value, the form given in settings and to `logger.setLevel`. */
    function Value(): string {
      match this
      case Critical => "CRITICAL"
      case Error => "ERROR"
      case Warning => "WARNING"
      case Info => "INFO"
      case Debug => "DEBUG"
    }
  }

  /** Enum validation: a string is accepted exactly when it is some level's value. */
  function ParseLogLevel(s: string): (r: Option<LogLevel>)
    ensures r.Some? ==> r.value.Value() == s
    ensures r.None? ==> forall l: LogLevel :: l.Value() != s
  {
    if s == "CRITICAL" then Some(Critical)
    else if s == "ERROR" then Some(Error)
    else if s == "WARNING" then Some(Warning)
    else if s == "INFO" then Some(Info)
    else if s == "DEBUG" then Some(Debug)
    else None
  }

  datatype MinioConfig = MinioConfig(endpoint: string, user: string, password: string, bucketName: string, secure: bool)

  datatype RedisInputConfig = RedisInputConfig(host: string, port: int, streamIds: seq<string>, streamPrefix: string)

  datatype AuthConfig = AuthConfig(tokenEndpointUrl: string, clientId: string, username: string, password: string)

  datatype HttpOutputConfig = HttpOutputConfig(
    targetEndpoint: string,
    timeout: int,
    moduleName: string,
    auth: Option<AuthConfig>,
    minio: MinioConfig)

  datatype LocalOutputConfig = LocalOutputConfig(path: string)

  datatype AicConnectorConfig = AicConnectorConfig(
    logLevel: LogLevel,
    redisInput: RedisInputConfig,
    httpOutput: Option<HttpOutputConfig>,
    prometheusPort: int,
    localOutput: Option<LocalOutputConfig>)

  // What the settings sources supplied, field by field.

  datatype RawMinio = RawMinio(
    endpoint: Option<string>, user: Option<string>, password: Option<string>,
    bucketName: Option<string>, secure: Option<bool>)

  datatype RawRedisInput = RawRedisInput(
    host: Option<string>, port: Option<int>, streamIds: Option<seq<string>>, streamPrefix: Option<string>)

  datatype RawAuth = RawAuth(
    tokenEndpointUrl: Option<string>, clientId: Option<string>, username: Option<string>, password: Option<string>)

  datatype RawHttpOutput = RawHttpOutput(
    targetEndpoint: Option<string>, timeout: Option<int>, moduleName: Option<string>,
    auth: Option<RawAuth>, minio: Option<RawMinio>)

  datatype RawLocalOutput = RawLocalOutput(path: Option<string>)

  datatype RawConnector = RawConnector(
    logLevel: Option<string>, redisInput: Option<RawRedisInput>, httpOutput: Option<RawHttpOutput>,
    prometheusPort: Option<int>, localOutput: Option<RawLocalOutput>)

  /** pydantic's error types for the constraints used here. */
  datatype ErrorKind = Missing | GreaterThanEqual(ge: int) | LessThanEqual(le: int) | InvalidEnum

  /** An error with its location: the path of field names from the top record. */
  datatype FieldError = FieldError(loc: seq<string>, kind: ErrorKind)

  function Required<T>(name: string, v: Option<T>): (r: seq<FieldError>)
    ensures Located(r)
  {
    if v.None? then [FieldError([name], Missing)] else []
  }

  /** `Field(ge=lo)` or `Field(ge=lo, le=hi)` on a field with a default: an unset field is fine. */
  function Bounds(name: string, v: Option<int>, lo: int, hi: Option<int>): (r: seq<FieldError>)
    ensures Located(r)
  {
    if v.None? then []
    else if v.value < lo then [FieldError([name], GreaterThanEqual(lo))]
    else if hi.Some? && v.value > hi.value then [FieldError([name], LessThanEqual(hi.value))]
    else []
  }

  /** The errors of a nested record, located under the field that holds it. */
  function Nested(name: string, errs: seq<FieldError>): (r: seq<FieldError>)
    ensures |r| == |errs|
    ensures forall i :: 0 <= i < |r| ==> r[i] == FieldError([name] + errs[i].loc, errs[i].kind)
    ensures forall e :: e in r ==> |e.loc| >= 1 && e.loc[0] == name
    ensures Located(errs) ==> forall e :: e in r ==> |e.loc| >= 2
  {
    seq(|errs|, i requires 0 <= i < |errs| => FieldError([name] + errs[i].loc, errs[i].kind))
  }

  /** Every error names at least one field. */
  predicate Located(errs: seq<FieldError>) {
    forall e :: e in errs ==> e.loc != []
  }

  lemma LocatedAppend(a: seq<FieldError>, b: seq<FieldError>)
    requires Located(a) && Located(b)
    ensures Located(a + b)
  {
  }

  function MinioErrors(raw: RawMinio): (r: seq<FieldError>)
    ensures Located(r)
  {
    var a := Required("endpoint", raw.endpoint) + Required("user", raw.user);
    var b := a + Required("password", raw.password);
    var c := b + Required("bucket_name", raw.bucketName);
    LocatedAppend(a, Required("password", raw.password));
    LocatedAppend(b, Required("bucket_name", raw.bucketName));
    LocatedAppend(c, Required("secure", raw.secure));
    c + Required("secure", raw.secure)
  }

  /** `MinioConfig`: every field is required. */
  function ValidateMinio(raw: RawMinio): (r: Result<MinioConfig, seq<FieldError>>)
    ensures r.Ok? <==> raw.endpoint.Some? && raw.user.Some? && raw.password.Some? && raw.bucketName.Some? && raw.secure.Some?
    ensures r.Ok? ==> r.value == MinioConfig(raw.endpoint.value, raw.user.value, raw.password.value, raw.bucketName.value, raw.secure.value)
    ensures r.Err? ==> r.error != [] && forall e :: e in r.error ==> e.kind == Missing
  {
    var errs := MinioErrors(raw);
    if errs == [] then
      Ok(MinioConfig(raw.endpoint.value, raw.user.value, raw.password.value, raw.bucketName.value, raw.secure.value))
    else Err(errs)
  }

  function RedisInputErrors(raw: RawRedisInput): seq<FieldError> {
    Bounds("port", raw.port, 1, Some(65536)) + Required("stream_ids", raw.streamIds) + Required("stream_prefix", raw.streamPrefix)
  }

  /** `RedisInputConfig`: host defaults to "localhost", port to 6379 and must lie in
      1..65536 (both ends included, as written); `stream_ids` and `stream_prefix` are required. */
  function ValidateRedisInput(raw: RawRedisInput): (r: Result<RedisInputConfig, seq<FieldError>>)
    ensures r.Ok? <==> raw.streamIds.Some? && raw.streamPrefix.Some? && (raw.port.None? || 1 <= raw.port.value <= 65536)
    ensures r.Ok? ==> r.value == RedisInputConfig(raw.host.GetOr("localhost"), raw.port.GetOr(6379), raw.streamIds.value, raw.streamPrefix.value)
    ensures r.Err? ==>
      && (FieldError(["port"], GreaterThanEqual(1)) in r.error <==> raw.port.Some? && raw.port.value < 1)
      && (FieldError(["port"], LessThanEqual(65536)) in r.error <==> raw.port.Some? && raw.port.value > 65536)
      && (FieldError(["stream_ids"], Missing) in r.error <==> raw.streamIds.None?)
      && (FieldError(["stream_prefix"], Missing) in r.error <==> raw.streamPrefix.None?)
  {
    var errs := RedisInputErrors(raw);
    if errs == [] then
      Ok(RedisInputConfig(raw.host.GetOr("localhost"), raw.port.GetOr(6379), raw.streamIds.value, raw.streamPrefix.value))
    else Err(errs)
  }

  function AuthErrors(raw: RawAuth): seq<FieldError> {
    Required("token_endpoint_url", raw.tokenEndpointUrl) + Required("client_id", raw.clientId)
    + Required("username", raw.username) + Required("password", raw.password)
  }

  /** `AuthConfig`: every field is required. */
  function ValidateAuth(raw: RawAuth): (r: Result<AuthConfig, seq<FieldError>>)
    ensures r.Ok? <==> raw.tokenEndpointUrl.Some? && raw.clientId.Some? && raw.username.Some? && raw.password.Some?
    ensures r.Ok? ==> r.value == AuthConfig(raw.tokenEndpointUrl.value, raw.clientId.value, raw.username.value, raw.password.value)
  {
    var errs := AuthErrors(raw);
    if errs == [] then
      Ok(AuthConfig(raw.tokenEndpointUrl.value, raw.clientId.value, raw.username.value, raw.password.value))
    else Err(errs)
  }

  function HttpOutputErrors(raw: RawHttpOutput): seq<FieldError> {
    Required("target_endpoint", raw.targetEndpoint)
    + Bounds("timeout", raw.timeout, 0, None)
    + Required("module_name", raw.moduleName)
    + (if raw.auth.Some? then Nested("auth", AuthErrors(raw.auth.value)) else [])
    + (if raw.minio.Some? then Nested("minio", MinioErrors(raw.minio.value)) else [FieldError(["minio"], Missing)])
  }

  /** `HttpOutputConfig`: timeout defaults to 5 and must be at least 0; `auth` is
      optional and defaults to `None`; `target_endpoint`, `module_name` and `minio`
      are required. */
  function ValidateHttpOutput(raw: RawHttpOutput): (r: Result<HttpOutputConfig, seq<FieldError>>)
    ensures r.Ok? <==>
      && raw.targetEndpoint.Some? && raw.moduleName.Some?
      && (raw.timeout.None? || raw.timeout.value >= 0)
      && (raw.auth.None? || ValidateAuth(raw.auth.value).Ok?)
      && raw.minio.Some? && ValidateMinio(raw.minio.value).Ok?
    ensures r.Ok? ==>
      && r.value.targetEndpoint == raw.targetEndpoint.value
      && r.value.moduleName == raw.moduleName.value
      && r.value.timeout == raw.timeout.GetOr(5)
      && (r.value.auth.None? <==> raw.auth.None?)
      && (r.value.auth.Some? ==> Ok(r.value.auth.value) == ValidateAuth(raw.auth.value))
      && Ok(r.value.minio) == ValidateMinio(raw.minio.value)
  {
    var errs := HttpOutputErrors(raw);
    if errs == [] then
      var auth := if raw.auth.Some? then Some(ValidateAuth(raw.auth.value).value) else None;
      Ok(HttpOutputConfig(raw.targetEndpoint.value, raw.timeout.GetOr(5), raw.moduleName.value, auth,
                          ValidateMinio(raw.minio.value).value))
    else Err(errs)
  }

  function LocalOutputErrors(raw: RawLocalOutput): seq<FieldError> {
    Required("path", raw.path)
  }

  function LogLevelErrors(s: Option<string>): seq<FieldError> {
    if s.Some? && ParseLogLevel(s.value).None? then [FieldError(["log_level"], InvalidEnum)] else []
  }

  function ConnectorErrors(raw: RawConnector): seq<FieldError> {
    LogLevelErrors(raw.logLevel)
    + (if raw.redisInput.Some? then Nested("redis_input", RedisInputErrors(raw.redisInput.value)) else [FieldError(["redis_input"], Missing)])
    + (if raw.httpOutput.Some? then Nested("http_output", HttpOutputErrors(raw.httpOutput.value)) else [])
    + Bounds("prometheus_port", raw.prometheusPort, 1024, Some(65536))
    + (if raw.localOutput.Some? then Nested("local_output", LocalOutputErrors(raw.localOutput.value)) else [])
  }

  /** `AicConnectorConfig`: log level defaults to WARNING; `redis_input` is required;
      `http_output` and `local_output` are optional and default to `None`; the
      Prometheus port defaults to 8000 and must lie in 1024..65536. */
  function ValidateConnector(raw: RawConnector): (r: Result<AicConnectorConfig, seq<FieldError>>)
    ensures r.Ok? <==>
      && (raw.logLevel.None? || ParseLogLevel(raw.logLevel.value).Some?)
      && raw.redisInput.Some? && ValidateRedisInput(raw.redisInput.value).Ok?
      && (raw.httpOutput.None? || ValidateHttpOutput(raw.httpOutput.value).Ok?)
      && (raw.prometheusPort.None? || 1024 <= raw.prometheusPort.value <= 65536)
      && (raw.localOutput.None? || raw.localOutput.value.path.Some?)
    ensures r.Ok? ==>
      && r.value.logLevel == (if raw.logLevel.None? then Warning else ParseLogLevel(raw.logLevel.value).value)
      && Ok(r.value.redisInput) == ValidateRedisInput(raw.redisInput.value)
      && (r.value.httpOutput.None? <==> raw.httpOutput.None?)
      && (r.value.httpOutput.Some? ==> Ok(r.value.httpOutput.value) == ValidateHttpOutput(raw.httpOutput.value))
      && r.value.prometheusPort == raw.prometheusPort.GetOr(8000)
      && (r.value.localOutput.None? <==> raw.localOutput.None?)
      && (r.value.localOutput.Some? ==> r.value.localOutput.value.path == raw.localOutput.value.path.value)
  {
    var errs := ConnectorErrors(raw);
    if errs == [] then
      var level := if raw.logLevel.None? then Warning else ParseLogLevel(raw.logLevel.value).value;
      var http := if raw.httpOutput.Some? then Some(ValidateHttpOutput(raw.httpOutput.value).value) else None;
      var local := if raw.localOutput.Some? then Some(LocalOutputConfig(raw.localOutput.value.path.value)) else None;
      Ok(AicConnectorConfig(level, ValidateRedisInput(raw.redisInput.value).value, http,
                            raw.prometheusPort.GetOr(8000), local))
    else Err(errs)
  }

  /** Where a bad timeout and a missing MinIO block are reported in `HttpOutputConfig`. */
  lemma HttpOutputErrorLocations(raw: RawHttpOutput)
    ensures FieldError(["timeout"], GreaterThanEqual(0)) in HttpOutputErrors(raw) <==> raw.timeout.Some? && raw.timeout.value < 0
    ensures FieldError(["minio"], Missing) in HttpOutputErrors(raw) <==> raw.minio.None?
    ensures FieldError(["module_name"], Missing) in HttpOutputErrors(raw) <==> raw.moduleName.None?
  {
    var target := Required("target_endpoint", raw.targetEndpoint);
    var timeout := Bounds("timeout", raw.timeout, 0, None);
    var moduleName := Required("module_name", raw.moduleName);
    var auth := if raw.auth.Some? then Nested("auth", AuthErrors(raw.auth.value)) else [];
    var minio := if raw.minio.Some? then Nested("minio", MinioErrors(raw.minio.value)) else [FieldError(["minio"], Missing)];
    assert HttpOutputErrors(raw) == target + timeout + moduleName + auth + minio;
    if raw.minio.Some? {
      assert Located(MinioErrors(raw.minio.value));
      assert forall e :: e in minio ==> |e.loc| >= 2;
    }
    var badTimeout := FieldError(["timeout"], GreaterThanEqual(0));
    assert badTimeout !in target && badTimeout !in moduleName && badTimeout !in auth && badTimeout !in minio;
    var noMinio := FieldError(["minio"], Missing);
    assert noMinio !in target && noMinio !in timeout && noMinio !in moduleName && noMinio !in auth;
    var noModule := FieldError(["module_name"], Missing);
    assert noModule !in target && noModule !in timeout && noModule !in auth && noModule !in minio;
  }

  /** A valid configuration that has an HTTP output always carries the MinIO
      settings and the module name the output needs. */
  lemma HttpOutputCarriesMinio(raw: RawConnector)
    requires ValidateConnector(raw).Ok? && raw.httpOutput.Some?
    ensures ValidateConnector(raw).value.httpOutput.Some?
    ensures raw.httpOutput.value.minio.Some? && raw.httpOutput.value.moduleName.Some?
    ensures ValidateConnector(raw).value.httpOutput.value.minio.bucketName == raw.httpOutput.value.minio.value.bucketName.value
  {
  }

  // Settings sources.

  /** The sources `settings_customise_sources` hands back, highest priority
      first: init arguments, environment, YAML file, secret files. The dotenv
      source it is given is dropped. */
  function SettingsCustomiseSources<S>(init: S, env: S, dotenv: S, fileSecret: S, yaml: S): seq<S> {
    [init, env, yaml, fileSecret]
  }

  /** Combining sources: a key takes its value from the first source that has it.
      A key is a full field path such as `http_output.timeout`, as the
      environment spells it with the `__` delimiter: nested blocks are merged
      field by field, so sources are maps from leaf paths to values. */
  function MergeSources<K(==), V>(sources: seq<map<K, V>>): map<K, V> {
    if sources == [] then map[] else MergeSources(sources[1..]) + sources[0]
  }

  lemma {:induction false} MergeFirstWins<K, V>(sources: seq<map<K, V>>, k: K, i: nat)
    requires i < |sources| && k in sources[i]
    requires forall j :: 0 <= j < i ==> k !in sources[j]
    ensures k in MergeSources(sources) && MergeSources(sources)[k] == sources[i][k]
  {
    if i > 0 {
      MergeFirstWins(sources[1..], k, i - 1);
    }
  }

  lemma {:induction false} MergeAbsent<K, V>(sources: seq<map<K, V>>, k: K)
    requires forall j :: 0 <= j < |sources| ==> k !in sources[j]
    ensures k !in MergeSources(sources)
  {
    if sources != [] {
      MergeAbsent(sources[1..], k);
    }
  }

  /** The settings the connector loads: for each field path, init arguments
      win over the environment, which wins over the YAML file, which wins over
      secret files; a path none of them has is unset; the dotenv source never
      matters. */
  lemma SettingsPrecedence<K, V>(init: map<K, V>, env: map<K, V>, dotenv: map<K, V>, otherDotenv: map<K, V>,
                                      fileSecret: map<K, V>, yaml: map<K, V>, k: K)
    ensures var m := MergeSources(SettingsCustomiseSources(init, env, dotenv, fileSecret, yaml));
      && m == MergeSources(SettingsCustomiseSources(init, env, otherDotenv, fileSecret, yaml))
      && (k in m <==> k in init || k in env || k in yaml || k in fileSecret)
      && (k in init ==> m[k] == init[k])
      && (k !in init && k in env ==> m[k] == env[k])
      && (k !in init && k !in env && k in yaml ==> m[k] == yaml[k])
      && (k !in init && k !in env && k !in yaml && k in fileSecret ==> m[k] == fileSecret[k])
  {
    var sources := SettingsCustomiseSources(init, env, dotenv, fileSecret, yaml);
    if k in init {
      MergeFirstWins(sources, k, 0);
    } else if k in env {
      MergeFirstWins(sources, k, 1);
    } else if k in yaml {
      MergeFirstWins(sources, k, 2);
    } else if k in fileSecret {
      MergeFirstWins(sources, k, 3);
    } else {
      MergeAbsent(sources, k);
    }
  }
}
