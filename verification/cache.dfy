/**
 * The Django cache backend `RedisClusterCache` of dedis_cluster: a facade that
 * lazily builds one cluster client, forwards every cache operation to it, and
 * wraps each forwarded call in the `omit_exception` failure-absorption policy.
 *
 * Python's "return a value / raise an exception" is the datatype `Outcome`;
 * what a call does, including the lines it writes to the error log, is an
 * `Effect`. The cluster client is a black box: what it answers to a call is
 * given by a `Responder`.
 */
module Cache {
  import opened Wrappers

  // ---------------------------------------------------------------------------
  // Values, errors, outcomes
  // ---------------------------------------------------------------------------

  /** The Python values that cross the facade: arguments, results and fallbacks. */
  datatype Value =
    | NoneValue
    | Bool(b: bool)
    | Int(i: int)
    | Str(s: string)
    | Dict(entries: map<string, Value>)
    | Object(id: nat)  // any other object: a lock handle, a key iterator, ...

  const EmptyDict: Value := Dict(map[])

  /** The exceptions the model distinguishes. */
  datatype Error =
    | ConnectionInterrupted(message: string)  // the one kind the facade may absorb
    | NameError(name: string)                 // a module-level name that was never bound
    | OtherError(kind: string, message: string)

  predicate IsInterrupted(e: Error) {
    e.ConnectionInterrupted?
  }

  /** A call either returns a value or raises an exception. */
  datatype Outcome = Returned(value: Value) | Raised(error: Error)

  predicate RaisesInterrupted(o: Outcome) {
    o.Raised? && IsInterrupted(o.error)
  }

  /** One `logger.error(...)` line: the logger's name and the message. */
  datatype LogEntry = ErrorLogged(logger: string, message: string)

  /** What a call did: its outcome and the log lines it wrote, in order. */
  datatype Effect = Effect(outcome: Outcome, log: seq<LogEntry>)

  // ---------------------------------------------------------------------------
  // Configuration
  // ---------------------------------------------------------------------------

  /**
   * The process-wide settings the module reads at import time:
   * DEDIS_CLUSTER_IGNORE_EXCEPTIONS, DEDIS_CLUSTER_LOG_IGNORED_EXCEPTIONS and
   * DEDIS_CLUSTER_LOGGER (None stands for its default, False).
   */
  datatype Settings = Settings(ignoreExceptions: bool, logIgnoredExceptions: bool, logger: Option<string>)

  const ModuleName: string := "dedis_cluster.cache"
  const DefaultClientClass: string := "dedis_cluster.client.DefaultClient"

  /**
   * The backend's OPTIONS: the two entries the facade itself reads, and every
   * other entry, which only the client class reads.
   */
  datatype Options = Options(clientClass: Option<string>, ignoreExceptions: Option<bool>, others: map<string, Value>)

  /** The backend's parameters: its OPTIONS (absent or present) and every other entry. */
  datatype Params = Params(options: Option<Options>, others: map<string, Value>)

  /** The connection descriptor (LOCATION); the facade never looks inside it. */
  type Server = string

  /** A client implementation, as `load_class` resolves it from its dotted path. */
  datatype ClientClass = ClientClass(path: string)

  /**
   * The module-level `logger`: bound only when the global ignore flag is set,
   * and named after DEDIS_CLUSTER_LOGGER when that is a non-empty name.
   */
  function Logger(settings: Settings): (r: Option<string>)
    ensures r.Some? <==> settings.ignoreExceptions
    ensures r.Some? ==> r.value != ""
    ensures r.Some? && settings.logger.Some? && settings.logger.value != "" ==> r.value == settings.logger.value
    ensures r.Some? && (settings.logger.None? || settings.logger.value == "") ==> r.value == ModuleName
  {
    if !settings.ignoreExceptions then None
    else if settings.logger.Some? && settings.logger.value != "" then Some(settings.logger.value)
    else Some(ModuleName)
  }

  /** The parameters' OPTIONS entry; an absent entry reads as empty options. */
  function OptionsOf(params: Params): (r: Options)
    ensures params.options.Some? ==> r == params.options.value
    ensures params.options.None? ==> r.clientClass.None? && r.ignoreExceptions.None? && r.others == map[]
  {
    params.options.GetOr(Options(None, None, map[]))
  }

  /** The dotted path of the client class: CLIENT_CLASS, or the default client when it is absent. */
  function ClientClassPath(params: Params): (r: string)
    ensures params.options.Some? && params.options.value.clientClass.Some? ==> r == params.options.value.clientClass.value
    ensures !(params.options.Some? && params.options.value.clientClass.Some?) ==> r == DefaultClientClass
  {
    OptionsOf(params).clientClass.GetOr(DefaultClientClass)
  }

  /** The instance's ignore flag: IGNORE_EXCEPTIONS, or the process-wide default when it is absent. */
  function IgnoreExceptions(params: Params, settings: Settings): (r: bool)
    ensures params.options.Some? && params.options.value.ignoreExceptions.Some? ==>
      r == params.options.value.ignoreExceptions.value
    ensures !(params.options.Some? && params.options.value.ignoreExceptions.Some?) ==> r == settings.ignoreExceptions
  {
    OptionsOf(params).ignoreExceptions.GetOr(settings.ignoreExceptions)
  }

  // ---------------------------------------------------------------------------
  // The failure-absorption policy
  // ---------------------------------------------------------------------------

  /** Whether absorbing a failure writes a log line: logging is on and a logger is bound. */
  predicate LogsAbsorbed(settings: Settings) {
    settings.logIgnoredExceptions && settings.ignoreExceptions
  }

  /** Whether absorbing a failure fails itself: logging is on but no logger is bound. */
  predicate LoggerMissing(settings: Settings) {
    settings.logIgnoredExceptions && !settings.ignoreExceptions
  }

  /** The log lines an absorbed failure with `message` writes. */
  function AbsorbedLog(settings: Settings, message: string): seq<LogEntry> {
    if LogsAbsorbed(settings) then [ErrorLogged(Logger(settings).value, message)] else []
  }

  /**
   * The absorbing branch shared by `omit_exception` and `get`: when logging of
   * ignored exceptions is on, write the exception's message to the error log,
   * then return `value`.
   * With logging on and no logger bound, the lookup of `logger` itself fails.
   */
  function Absorb(settings: Settings, message: string, value: Value): (r: Effect)
    ensures r.outcome.Returned? ==> r.outcome.value == value
    ensures r.outcome.Raised? <==> LoggerMissing(settings)
    ensures r.outcome.Raised? ==> r.outcome == Raised(NameError("logger"))
    ensures |r.log| == (if LogsAbsorbed(settings) then 1 else 0)
    ensures forall entry :: entry in r.log ==> entry.message == message && Logger(settings) == Some(entry.logger)
  {
    if !settings.logIgnoredExceptions then Effect(Returned(value), [])
    else match Logger(settings)
      case None => Effect(Raised(NameError("logger")), [])
      case Some(name) => Effect(Returned(value), [ErrorLogged(name, message)])
  }

  /**
   * The wrapper `omit_exception(method, return_value)` puts around a method,
   * applied to what the method's body did (`body`) on an instance whose
   * `_ignore_exceptions` is `ignoreExceptions`.
   */
  function OmitException(settings: Settings, ignoreExceptions: bool, returnValue: Value, body: Effect): (r: Effect)
    // nothing the body logged is lost, and an absorbed failure adds its own line when logging is on
    ensures body.log <= r.log
    ensures RaisesInterrupted(body.outcome) && ignoreExceptions ==>
      r.log == body.log + AbsorbedLog(settings, body.outcome.error.message)
    ensures !(RaisesInterrupted(body.outcome) && ignoreExceptions) ==> r.log == body.log
    // a successful call passes its result through unchanged
    ensures body.outcome.Returned? ==> r == body
    // every exception other than ConnectionInterrupted propagates untouched
    ensures body.outcome.Raised? && !IsInterrupted(body.outcome.error) ==> r == body
    // ConnectionInterrupted is re-raised, the same exception, exactly when the instance does not ignore it
    ensures RaisesInterrupted(body.outcome) ==> (r.outcome == body.outcome <==> !ignoreExceptions)
    // when it is ignored, the call returns `returnValue`, unless logging is on without a logger
    ensures RaisesInterrupted(body.outcome) && ignoreExceptions ==>
      r.outcome == (if LoggerMissing(settings) then Raised(NameError("logger")) else Returned(returnValue))
    // a ConnectionInterrupted leaves the wrapper only if the body raised it and it is not ignored
    ensures RaisesInterrupted(r.outcome) ==> r.outcome == body.outcome && !ignoreExceptions
  {
    match body.outcome
    case Raised(ConnectionInterrupted(message)) =>
      if ignoreExceptions then
        var absorbed := Absorb(settings, message, returnValue);
        Effect(absorbed.outcome, body.log + absorbed.log)
      else
        body
    case _ => body
  }

  // ---------------------------------------------------------------------------
  // The operations
  // ---------------------------------------------------------------------------

  /** The operations forwarded to the client's method of the same name, arguments unchanged. */
  datatype Op =
    | Add | Set | SetMany | GetMany | Delete | DeletePattern | DeleteMany
    | Keys | HasKey | Lock | IncrVersion | Incr | Decr | IterKeys | Ttl | Persist | Expire

  /**
   * A call on the facade; the facade hands the very same call to the client.
   * `clear` takes no arguments; `get` has its own signature.
   */
  datatype Call =
    | OpCall(op: Op, args: seq<Value>, kwargs: map<string, Value>)
    | ClearCall
    | GetCall(key: Value, default: Value, version: Value)

  /**
   * What the cluster client answers: a function of which client it is and of
   * every call that client has received so far, the current one last. The
   * client's own state is not modelled beyond that history.
   */
  type Responder = (ClusterClient, seq<Call>) -> Outcome

  /** The `return_value` each method's decorator was configured with. */
  function ReturnValue(call: Call): (r: Value)
    ensures r == EmptyDict <==> call.OpCall? && call.op == GetMany
    ensures r != EmptyDict ==> r == NoneValue
  {
    if call.OpCall? && call.op == GetMany then EmptyDict else NoneValue
  }

  /**
   * The body of `get`: the client's `get` with the same key, default and
   * version, under its own handler, which turns ConnectionInterrupted into `default`
   * whatever the instance's ignore flag says.
   */
  function GetBody(settings: Settings, default: Value, client: Outcome): (r: Effect)
    ensures client.Returned? ==> r == Effect(client, [])
    ensures client.Raised? && !IsInterrupted(client.error) ==> r == Effect(client, [])
    ensures RaisesInterrupted(client) ==>
      r.outcome == (if LoggerMissing(settings) then Raised(NameError("logger")) else Returned(default))
    ensures RaisesInterrupted(client) ==> r.log == AbsorbedLog(settings, client.error.message)
    ensures !RaisesInterrupted(r.outcome)
  {
    match client
    case Raised(ConnectionInterrupted(message)) => Absorb(settings, message, default)
    case _ => Effect(client, [])
  }

  /**
   * What a facade call does, given the instance's ignore flag and the client's
   * answer to the forwarded call.
   */
  function Dispatch(settings: Settings, ignoreExceptions: bool, call: Call, client: Outcome): (r: Effect)
    // for every operation, success passes through and other exceptions propagate, whatever the flag
    ensures client.Returned? ==> r == Effect(client, [])
    ensures client.Raised? && !IsInterrupted(client.error) ==> r == Effect(client, [])
    // the decorated operations other than get: re-raise, or return the configured fallback
    ensures !call.GetCall? && RaisesInterrupted(client) && !ignoreExceptions ==> r == Effect(client, [])
    ensures !call.GetCall? && RaisesInterrupted(client) && ignoreExceptions ==>
      r.outcome == (if LoggerMissing(settings) then Raised(NameError("logger")) else Returned(ReturnValue(call))) &&
      r.log == AbsorbedLog(settings, client.error.message)
    ensures (call.OpCall? && call.op == GetMany && RaisesInterrupted(client) && ignoreExceptions &&
             !LoggerMissing(settings)) ==> r.outcome == Returned(EmptyDict)
    // with the flag set, no operation lets ConnectionInterrupted reach the caller; get never does
    ensures RaisesInterrupted(r.outcome) ==> !ignoreExceptions && !call.GetCall?
    // get: the outer decorator never sees ConnectionInterrupted, so get's own handler decides
    ensures call.GetCall? ==> r == GetBody(settings, call.default, client)
    ensures call.GetCall? && RaisesInterrupted(client) ==>
      r.outcome == (if LoggerMissing(settings) then Raised(NameError("logger")) else Returned(call.default)) &&
      r.log == AbsorbedLog(settings, client.error.message)
  {
    match call
    case GetCall(_, default, _) => OmitException(settings, ignoreExceptions, NoneValue, GetBody(settings, default, client))
    case _ => OmitException(settings, ignoreExceptions, ReturnValue(call), Effect(client, []))
  }

  /** `get` does the same whatever the instance's `_ignore_exceptions` is. */
  lemma GetIgnoresInstanceFlag(settings: Settings, key: Value, default: Value, version: Value, client: Outcome)
    ensures Dispatch(settings, true, GetCall(key, default, version), client)
         == Dispatch(settings, false, GetCall(key, default, version), client)
  {
    // follows from GetBody never letting ConnectionInterrupted escape
  }

  // ---------------------------------------------------------------------------
  // The client and the facade
  // ---------------------------------------------------------------------------

  /** An instance of the configured client class, built from the server, the parameters and the owning facade. */
  class ClusterClient {
    const cls: ClientClass
    const server: Server
    const params: Params
    const owner: RedisClusterCache
    var received: seq<Call>  // every call forwarded to this client, in order

    constructor (cls: ClientClass, server: Server, params: Params, owner: RedisClusterCache)
      ensures this.cls == cls && this.server == server && this.params == params && this.owner == owner
      ensures received == []
    {
      this.cls := cls;
      this.server := server;
      this.params := params;
      this.owner := owner;
      received := [];
    }

    /** The client's method for `call`: it receives the call and answers it. */
    method Receive(call: Call, respond: Responder) returns (answer: Outcome)
      modifies this
      ensures received == old(received) + [call]
      ensures answer == respond(this, received)
    {
      received := received + [call];
      answer := respond(this, received);
    }
  }

  /** The cache backend. Everything but the lazily built client is fixed at construction. */
  class RedisClusterCache {
    const server: Server
    const params: Params
    const settings: Settings
    const clientCls: ClientClass
    const ignoreExceptions: bool
    var lazyClient: ClusterClient?
    ghost var constructions: nat  // how many clients this facade has built

    /** The client is absent or built once, from this facade's own configuration. */
    ghost predicate Valid()
      reads this
    {
      constructions <= 1 &&
      (lazyClient == null <==> constructions == 0) &&
      (lazyClient != null ==>
        lazyClient.owner == this && lazyClient.cls == clientCls &&
        lazyClient.server == server && lazyClient.params == params)
    }

    /** `__init__`; `load` stands for `load_class`. */
    constructor (server: Server, params: Params, settings: Settings, load: string -> ClientClass)
      ensures Valid() && lazyClient == null
      ensures this.server == server && this.params == params && this.settings == settings
      ensures clientCls == load(ClientClassPath(params))
      ensures ignoreExceptions == IgnoreExceptions(params, settings)
    {
      this.server := server;
      this.params := params;
      this.settings := settings;
      clientCls := load(ClientClassPath(params));
      lazyClient := null;
      ignoreExceptions := IgnoreExceptions(params, settings);
      constructions := 0;
    }

    /** The `client` property: build the client on first access, then always return it. */
    method Client() returns (c: ClusterClient)
      requires Valid()
      modifies this
      ensures Valid() && lazyClient == c
      ensures old(lazyClient) != null ==> c == old(lazyClient) && constructions == old(constructions)
      ensures old(lazyClient) == null ==> fresh(c) && constructions == 1 && c.received == []
    {
      if lazyClient == null {
        lazyClient := new ClusterClient(clientCls, server, params, this);
        constructions := constructions + 1;
      }
      c := lazyClient;
    }

    /**
     * Any facade operation: access the client, forward the call to it, and
     * apply that operation's failure-absorption policy to its answer.
     */
    method Perform(call: Call, respond: Responder) returns (r: Effect)
      requires Valid()
      modifies this, lazyClient
      ensures Valid() && lazyClient != null
      ensures old(lazyClient) != null ==>
        lazyClient == old(lazyClient) && constructions == old(constructions) &&
        lazyClient.received == old(lazyClient.received) + [call]
      ensures old(lazyClient) == null ==> fresh(lazyClient) && lazyClient.received == [call]
      ensures r == Dispatch(settings, ignoreExceptions, call, respond(lazyClient, lazyClient.received))
    {
      var c := Client();
      var answer := c.Receive(call, respond);
      r := Dispatch(settings, ignoreExceptions, call, answer);
    }
  }

  /**
   * A facade as the cache registry builds it, then used by one caller for
   * `calls` in order: one client is built, on the first call; that same
   * client receives every call, in order, and answers each one knowing every
   * call before it.
   */
  method ServeSequentially(server: Server, params: Params, settings: Settings, load: string -> ClientClass,
                           calls: seq<Call>, respond: Responder)
    returns (effects: seq<Effect>, client: ClusterClient?, ghost constructions: nat)
    ensures client == null <==> calls == []
    ensures constructions == (if calls == [] then 0 else 1)
    ensures client != null ==>
      client.cls == load(ClientClassPath(params)) && client.server == server && client.params == params
    ensures client != null ==> client.received == calls
    ensures |effects| == |calls|
    ensures forall i :: 0 <= i < |calls| ==>
      client != null &&
      effects[i] == Dispatch(settings, IgnoreExceptions(params, settings), calls[i], respond(client, calls[..i + 1]))
  {
    var cache := new RedisClusterCache(server, params, settings, load);
    effects, client := [], null;
    for n := 0 to |calls|
      invariant cache.Valid()
      invariant cache.lazyClient == client
      invariant client == null <==> n == 0
      invariant client != null ==> client.received == calls[..n]
      invariant |effects| == n
      invariant forall i :: 0 <= i < n ==>
        client != null && effects[i] == Dispatch(settings, cache.ignoreExceptions, calls[i], respond(client, calls[..i + 1]))
    {
      var r := cache.Perform(calls[n], respond);
      effects := effects + [r];
      client := cache.lazyClient;
    }
    constructions := cache.constructions;
  }
}
