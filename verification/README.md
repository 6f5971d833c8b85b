# Master/replica connection manager — Dafny model

This project models the `Database` class of `original_database.py`, an async
PostgreSQL connection manager with one writable master engine and an optional
read replica engine. The model is a functional state machine:

- `Database.State` holds the instance fields (`master_config`, `replica_config`,
  `master_engine`, `replica_engine`, `write_session_factory`,
  `read_session_factory`, `_connected`), plus two records of the engines' own
  lifecycle: an allocation counter (`created`) standing for Python object identity,
  and the set of engine ids whose pool was disposed.
- Every external call is an `Outcome` (`Succeeds` / `Fails`) passed in as a parameter:
  `create_async_engine` and the `SELECT 1` probe for each engine (`ConnectEnv`), and
  `dispose` for each engine (`DisconnectEnv`).
- A call that raises returns `Step(state, Some(error))`. Python assigns fields
  before it raises, so whatever was assigned stays assigned.
- Configuration dicts are `map<string, Value>`. `PyValues` gives Python's
  truthiness (for `all(config.values())`) and `str()` (for the URL f-string).
- `ConnectionString.Build` is `_build_connection_string`. Its partner is
  `ConnectionString.Parse`, a reference reader that splits a URL back into
  its five fields.
- `DatabaseProperties` states what the manager guarantees over any sequence of
  `connect`/`disconnect` calls, and where it does not.

Where the code and its comments disagree, the model follows the code:

- The read factory is bound before the probes run (lines 93-99, then 104).
  A failing replica probe clears `replica_engine` (line 137) but leaves the read factory bound to the
  replica engine. So after `connect`, `health_check()` can report no replica while reads
  still go to that engine, despite the comment at line 93 and the log message at line 136
  (`ReplicaProbeFailureKeepsReadsOnReplica`).
- `all({}.values())` is true, so an empty replica config tries to build a URL, fails
  with `KeyError('username')`, and ends with no replica (`EmptyReplicaConfigUsesMaster`).
- A failed `connect` does not roll back. The new master engine stays assigned and
  undisposed, and `_connected` keeps its previous value, so a failed reconnect leaves a
  connected manager connected (`MasterProbeFailureKeepsEngine`).
- `disconnect` stops at the first `dispose` that raises. It does not go on to the
  replica, and it leaves `_connected` unchanged (`MasterDisposeFailureSkipsReplica`).
- `disconnect` never clears the engine fields (`DisconnectKeepsEngineFields`).
- A second `connect` overwrites the fields, leaving the earlier engines undisposed
  (`ReconnectOrphansMaster`).

## Model

| member | source | states |
|---|---|---|
| PyValues.Truthy | original_database.py:67 | `bool(v)` of a config value: false exactly for "", 0, False and None |
| PyValues.Format | original_database.py:47-48 | `str(v)` as the f-string applies it: a string unchanged, an int through IntToString, a bool as "True"/"False", None as "None" |
| PyValues.IntToString | original_database.py:47-48 | an int placeholder renders as an optional leading '-' followed only by digits (at least one after a '-'), the '-' present exactly for negative values, in canonical form: no leading zero and never "-0" |
| PyValues.ParseIntToString | original_database.py:47-48 | a rendered int reads back as the same int, so distinct ports render differently |
| PyValues.IntToStringInjective | original_database.py:48 | two ints that render the same are equal |
| ConnectionString.Build | original_database.py:44-49 | the URL is produced exactly when all five keys are present; otherwise the error names the first missing key in the order the template reads them (username, password, host, port, database); on success it is the scheme followed by user:password@host:port/database |
| ConnectionString.Parse | original_database.py:46-48 | any URL the reference reader accepts renders back to exactly that URL |
| ConnectionString.ParseRender | original_database.py:46-48 | reading a rendered URL recovers every field when no field holds a later delimiter |
| ConnectionString.BuildRoundTrip | original_database.py:44-49 | the URL built from a complete config reads back as the config's formatted fields |
| ConnectionString.IntPortHasNoSlash | original_database.py:48 | an int port never contains '/', so it cannot swallow the database name |
| ConnectionString.BuildRoundTripIntPort | original_database.py:44-49 | with an int port, the URL of a complete config reads back as its formatted fields whenever username and host hold no ':' and password holds no '@' |
| ConnectionString.BuildDistinguishesIntPorts | original_database.py:48 | under the same condition, two configs that differ only in their int port give different URLs |
| ConnectionString.RenderNotInjective | original_database.py:46-48 | fields are inserted unescaped, so two different configs can give the same URL |
| ConnectionString.EmptyConfigMissesUsername | original_database.py:47 | an empty config fails with KeyError on 'username' |
| Database.Init | original_database.py:19-41 | the constructor stores both configs, holds no engine or factory, is not connected, and satisfies the state invariant |
| Database.ReplicaEligible | original_database.py:67 | `all(replica_config.values())`: false exactly when some value is falsy, so true for an empty config |
| Database.CreateReplica | original_database.py:66-83 | a replica engine is created only when every replica value is truthy, the URL builds and creation succeeds; a URL or creation failure leaves no replica; an eligible config whose URL builds and whose creation succeeds always gets a fresh replica engine; an ineligible config leaves the state untouched |
| Database.BindFactories | original_database.py:85-99 | the write factory is bound to the master; the read factory to the replica if present at that moment, otherwise to the same engine as the write factory |
| Database.TestConnections | original_database.py:125-137 | it raises exactly when the master probe fails, and then changes nothing; a replica probe failure only clears the replica field |
| Database.Connect | original_database.py:51-111 | connect raises exactly when the master URL, the master engine creation or the master probe fails; on success the manager is connected; on failure the flag is unchanged; a URL or creation failure changes nothing; once the master engine is created it stays assigned, with the write factory bound to it; connect disposes nothing |
| Database.Disconnect | original_database.py:113-123 | disconnect raises exactly when a present engine's dispose fails; on success the flag is cleared and every present engine disposed; engine and factory fields never change; a master dispose failure changes nothing; a master dispose that succeeded stays done even if the replica dispose then raises, and the replica whose dispose raised stays undisposed |
| Database.HealthCheck | original_database.py:139-144 | status is "healthy" exactly when connected, else "unhealthy"; master and replica report whether each engine field is set |
| Database.GetSession | original_database.py:146-163 | not connected gives NotConnected; when connected, "read" uses the read factory and every other operation type uses the write factory; in a valid connected state it always returns a session |
| DatabaseProperties.RunKeepsValid | original_database.py:51-123 | any sequence of connect/disconnect calls, with any outcomes, preserves the state invariant and the configs |
| DatabaseProperties.ConnectKeepsValid | original_database.py:51-111 | connect preserves the state invariant |
| DatabaseProperties.DisconnectKeepsValid | original_database.py:113-123 | disconnect preserves the state invariant |
| DatabaseProperties.ReachableStatesAreValid | original_database.py:19-123 | every state reachable from the constructor satisfies the invariant |
| DatabaseProperties.WritesGoToMaster | original_database.py:87-91 | in every reachable connected state, any operation type other than "read" gets a session on the current master engine |
| DatabaseProperties.ReadsGoToReplicaOrMaster | original_database.py:93-99 | in every reachable connected state, reads get a session; it is on the replica when one is present, otherwise on the master or on the replica engine created by the same connect as the current master (a replica later discarded by its probe) |
| DatabaseProperties.SessionsNeedConnection | original_database.py:157-158 | get_session fails with NotConnected on a fresh manager and after a disconnect that raised nothing |
| DatabaseProperties.HealthyReplicaServesReads | original_database.py:94-99 | when the report shows a replica, reads go to that replica and differ from writes |
| DatabaseProperties.ReplicaProbeFailureKeepsReadsOnReplica | original_database.py:94-137 | after a replica probe failure, connect succeeds and the report shows no replica, yet reads still go to the discarded replica engine, not the master |
| DatabaseProperties.ConnectReadRouting | original_database.py:66-99 | after a connect that raised nothing, reads go to the replica engine it created exactly when the replica config is truthy, its URL builds and its creation succeeded; otherwise (falsy value, missing key, failed creation) reads share the write engine |
| DatabaseProperties.HealthyReplicaConnect | original_database.py:66-106 | with a reachable replica, reads go to the new replica engine, writes to the new master engine, and both are reported |
| DatabaseProperties.ReplicaFailuresNeverEscape | original_database.py:67-83 | whether connect raises does not depend on the replica creation or probe outcomes |
| DatabaseProperties.EmptyReplicaConfigUsesMaster | original_database.py:67-81 | an empty replica config counts as complete, fails on 'username', creates no replica engine, and reads share the write engine |
| DatabaseProperties.FalsyReplicaConfigNeverUsed | original_database.py:67-83 | with a falsy replica value, no reachable state has a replica, and reads share the write engine |
| DatabaseProperties.MasterProbeFailureKeepsEngine | original_database.py:104-111 | a failing master probe raises ProbeError, keeps the flag as it was, and leaves the new master engine assigned and undisposed |
| DatabaseProperties.MasterProbeFailureKeepsReplica | original_database.py:67-104 | a failing master probe also leaves the replica side as assigned: a replica engine created by that call stays in the replica field, undisposed and bound to the read factory; without one, reads share the write engine |
| DatabaseProperties.FreshConnectFailure | original_database.py:56-111 | after a first connect whose master probe fails, the report is unhealthy but still shows a master engine |
| DatabaseProperties.DisconnectKeepsEngineFields | original_database.py:113-123 | after a clean disconnect the report is unhealthy and still shows every engine that was there |
| DatabaseProperties.DisconnectTwice | original_database.py:113-123 | two clean disconnects both succeed and leave the manager unconnected in the same state |
| DatabaseProperties.MasterDisposeFailureSkipsReplica | original_database.py:116-120 | a raising master dispose stops disconnect before the replica is disposed and before the flag is cleared |
| DatabaseProperties.DiscardedReplicaIsNeverDisposed | original_database.py:119-137 | the replica engine created by the connect and dropped by its failed probe is exactly the engine the read factory is still bound to, and a clean disconnect does not dispose it while it disposes the master |
| DatabaseProperties.ReconnectOrphansMaster | original_database.py:56-64 | a second successful connect replaces the master engine; the first master is not referenced by the engine fields or by either factory, and is not disposed |
| DatabaseProperties.ExampleMasterUrl | original_database.py:44-49 | the config {host db1, port 5432, user a, password b, database app} gives postgresql+asyncpg://a:b@db1:5432/app |
| DatabaseProperties.ExampleEmptyReplica | original_database.py:51-111 | with that master config and an empty replica config, connect reports healthy, master present, no replica, and reads share the write engine |
| DatabaseProperties.ExampleUnreachableReplica | original_database.py:94-137 | with an unreachable replica, connect reports healthy with no replica, yet the read session is on the replica engine |

## Left out

- Pool tuning (`pool_size`, `max_overflow`, `pool_timeout`, `pool_recycle`, `echo`): passed unchanged to the engine and carry no logic.
- SQLAlchemy internals: `create_async_engine`, the `SELECT 1` execution and `dispose` are opaque success/failure outcomes. `async_sessionmaker` (lines 87 and 95) and calling a factory for an `AsyncSession` (lines 161 and 163) are taken to always succeed. A session is modelled only by the engine its factory is bound to.
- Logging through structlog: it has no effect on state.
- Async scheduling and concurrent callers: the model is sequential.
- A `dispose` that raises is modelled as leaving that engine undisposed. Partial disposal inside the library is not modelled.
- Engine truthiness: `if self.replica_engine` and `bool(engine)` are taken as "the field is not None", since an engine object defines no falsiness.
- Config values: only str, int, bool and None are modelled. Other types (floats, nested objects) would format through their own `str()`.
- Mutating the config dicts after construction is not modelled: the configs are fixed in the state.
- Exceptions that are not `Exception` subclasses (`KeyboardInterrupt`, `asyncio.CancelledError`) pass the `except Exception` at line 79. They are not modelled.
- ConnectionString.Build: `Format` always renders an int, but CPython 3.11 and later raise `ValueError` when converting an int of more than 4300 digits to text. For the master config `connect` would re-raise that (lines 109-111), and for the replica line 79 would swallow it. The model has no such failure.
- Database.TestConnections: requires a master engine, which its one call site always has. The `AttributeError` that a call with no master engine would raise is not modelled.
