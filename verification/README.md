# dedis_cluster cache facade, modelled in Dafny

`RedisClusterCache` is the Django cache backend of dedis_cluster. It is a facade
in front of a cluster cache client. On first use it builds one client from
the server descriptor, the backend parameters and a back-reference to itself,
and then reuses that client. It forwards every cache operation to that client.
Each forwarded call is wrapped in the `omit_exception` policy:

- a result passes through unchanged;
- any exception other than `ConnectionInterrupted` propagates;
- `ConnectionInterrupted` is re-raised, or, when the instance's
  `_ignore_exceptions` flag is set, replaced by the method's configured
  `return_value`.

The configured `return_value` is `None`, and `{}` for `get_many`. `get` has its
own handler, which returns the caller's `default` on `ConnectionInterrupted`
whatever the flag says.

The model (`cache.dfy`, module `Cache`; `wrappers.dfy` holds `Option`):

- `Outcome` (`Returned` / `Raised`) stands for "returns a value or raises an
  exception", both for the client's answer and for the facade's.
  `Effect` adds the error-log lines the call wrote.
- `Settings` holds the three process-wide settings the module reads at import.
  `Params` holds the backend parameters: its `OPTIONS` (an `Options` value
  with `CLIENT_CLASS`, `IGNORE_EXCEPTIONS` and every other option entry) and
  every other parameter. The client receives all of them unchanged.
- `Absorb`, `OmitException`, `GetBody`, `ReturnValue` and `Dispatch` are the
  pure policy: the decorator, `get`'s handler, and their composition for
  each operation.
- `ClusterClient` stands for the client. It records every call it receives.
  Its answer to a call is given by a `Responder`, which sees the client and
  that whole history of calls, so a later answer can depend on earlier calls.
- `RedisClusterCache` is a class. Its configuration is held in `const` fields, so
  no method can change it. The lazily built client lives in a nullable field,
  next to a ghost construction counter. `Client` is the `client` property.
  `Perform` is any facade operation.
- `ServeSequentially` builds a facade as the registry does and serves a
  sequence of calls with it, one after another. It proves that exactly one
  client is built, on the first call, and that this one client answers every
  call, with the calls before it in its history.

The module-level `logger` exists only when `DEDIS_CLUSTER_IGNORE_EXCEPTIONS` is
set (cache.py:14-15). The model follows the code here. Suppose an instance ignores
failures only through its own `IGNORE_EXCEPTIONS` option, and
`DEDIS_CLUSTER_LOG_IGNORED_EXCEPTIONS` is on. Then absorbing a failure looks up
the unbound `logger` and raises `NameError` instead of returning the fallback.
`get` is affected more widely. Its own handler logs whenever logging is on,
without reading the instance's flag. So with logging on and the global flag
off, every `ConnectionInterrupted` in `get` turns into `NameError`, whatever
the instance's `_ignore_exceptions` is. That `NameError` is not a
`ConnectionInterrupted`, so it passes through the outer decorator.

## Model

| member | source | states |
|---|---|---|
| `Cache.Logger` | dedis_cluster/cache.py:10-15 | the module's logger is bound exactly when the global ignore flag is set; it takes DEDIS_CLUSTER_LOGGER's name when that is a non-empty name and the module's name `dedis_cluster.cache` otherwise |
| `Cache.OptionsOf` | dedis_cluster/cache.py:43 | the backend's OPTIONS, with all its entries, when present; no options at all when absent |
| `Cache.ClientClassPath` | dedis_cluster/cache.py:44 | the client class path is OPTIONS' CLIENT_CLASS when given, and `dedis_cluster.client.DefaultClient` otherwise |
| `Cache.IgnoreExceptions` | dedis_cluster/cache.py:47 | the instance's ignore flag is OPTIONS' IGNORE_EXCEPTIONS when given, and the process-wide DEDIS_CLUSTER_IGNORE_EXCEPTIONS otherwise |
| `Cache.Absorb` | dedis_cluster/cache.py:29-33 | an absorbed failure returns the given value and logs its message once, under the bound logger's name, when logging is on and a logger is bound; with logging on and no logger it raises `NameError` and logs nothing |
| `Cache.OmitException` | dedis_cluster/cache.py:18-35 | success passes through unchanged; non-`ConnectionInterrupted` exceptions propagate untouched; `ConnectionInterrupted` is re-raised (the same exception) exactly when the instance does not ignore failures; otherwise the configured return value is returned, unless logging is on and no logger is bound (`NameError`); an absorbed failure appends exactly its one log line when logging is on and a logger is bound, and nothing otherwise; no earlier log line is lost |
| `Cache.ReturnValue` | dedis_cluster/cache.py:77-79 | the fallback is the empty mapping exactly for `get_many` and `None` for every other operation |
| `Cache.GetBody` | dedis_cluster/cache.py:68-75 | `get` returns the client's answer on success and propagates other exceptions; on `ConnectionInterrupted` it returns the caller's `default`, unless logging is on and no logger is bound (`NameError`), and writes the failure's one log line exactly when logging is on and a logger is bound; `ConnectionInterrupted` never escapes |
| `Cache.Dispatch` | dedis_cluster/cache.py:56-135 | for every operation: pass-through, propagation of other errors, re-raise when not ignoring; when ignoring, the configured fallback (`{}` for `get_many`) unless logging is on and no logger is bound (`NameError`), with the one log line exactly when logging is on and a logger is bound; with the flag set nothing raises `ConnectionInterrupted`; `get` is decided by its own handler alone: its `default`, and its log line, whatever the flag |
| `Cache.GetIgnoresInstanceFlag` | dedis_cluster/cache.py:68-75 | `get` behaves identically whether the instance's `_ignore_exceptions` is set or not |
| `Cache.RedisClusterCache.constructor` | dedis_cluster/cache.py:39-47 | server, parameters and settings are kept; the client class is loaded from `CLIENT_CLASS` or the default path; the ignore flag comes from `IGNORE_EXCEPTIONS` or the process default; no client exists yet |
| `Cache.RedisClusterCache.Client` | dedis_cluster/cache.py:49-54 | the first access builds a fresh client from the facade's class, server, parameters and itself and counts one construction; later accesses return that same instance and build nothing |
| `Cache.RedisClusterCache.Perform` | dedis_cluster/cache.py:56-135 | every operation forwards the caller's call unchanged to the facade's one client, which adds it to its history; the result is `Dispatch` of that client's answer; an existing client is kept |
| `Cache.ClusterClient.constructor` | dedis_cluster/cache.py:53 | a client records the class, server, parameters and owning facade it was built from, and has received no call yet |
| `Cache.ClusterClient.Receive` | dedis_cluster/cache.py:58 | a client appends the forwarded call to its history and answers from the whole history |
| `Cache.ServeSequentially` | dedis_cluster/cache.py:46-54 | on a freshly built facade used sequentially, a client exists after the first call and not before; the construction counter ends at 0 or 1; that one client receives exactly the calls, in order, and each call's effect is `Dispatch` of the client's answer given the calls up to and including it |

## Left out

- Django plumbing: `settings` lookups, `BaseCache.__init__` and the `caches` registry. The three module-level settings are a `Settings` value passed to the constructor.
- `load_class` is an injected function from dotted path to class. If it fails to import, `__init__` raises, and the model does not cover that.
- Construction of the client always succeeds in the model. An exception raised by the client class's constructor is not modelled.
- The cluster client's semantics (hashing, TTL, versions, patterns, locks, the lazy key iterator) are not modelled. The client's answer is an opaque `Outcome` given by a `Responder` from the client and the calls it has received. A client whose answers also depend on something else (time, other processes writing to the cluster) is covered only as far as a fixed `Responder` can describe it.
- Cache.ReturnValue: the `{}` given to `get_many`'s decorator is one dict object, created once when the class is defined and returned by every absorbed `get_many` of every instance. A caller that changes that returned dict changes what later absorbed calls return. The model's fallback is an immutable empty mapping, so this sharing is not captured.
- Exceptions raised later, while iterating the result of `iter_keys` or using the handle from `lock`, are outside the decorator and outside the model.
- Calling `clear` with arguments makes Python raise `TypeError` when binding the call. The model's `clear` call takes no arguments.
- Python truthiness: the settings and `IGNORE_EXCEPTIONS` are modelled as booleans. A non-boolean `IGNORE_EXCEPTIONS` value is not modelled.
- `omit_exception` can be called without a method, giving back a partially applied decorator. The model takes this as the `return_value` parameter, not as a separate step.
- Logging is modelled as the list of lines written (logger name and message), not as I/O. The message is the exception's `str`. The exceptions module is not part of this model, so that string is taken as the `ConnectionInterrupted` message.
- Thread safety of lazy construction: the source takes no lock, so two threads may each build a client. Construct-once is proved only for sequential use.
- `get_cache` and `get_redis_connection` (dedis_cluster/__init__.py:5-19) are registry lookups and a capability probe, not part of the facade.
