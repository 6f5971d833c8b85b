/**
 * Properties of the `Database` connection manager: the invariant every
 * reachable state keeps, routing of sessions, the effect of replica and
 * master failures, and what `disconnect` does and does not release.
 */
module DatabaseProperties {
  import opened Wrappers
  import opened PyValues
  import ConnectionString
  import opened Database

  /** A lifecycle call a caller makes; an exception it raises is caught and ignored. */
  datatype Call = ConnectCall(connectEnv: ConnectEnv) | DisconnectCall(disconnectEnv: DisconnectEnv)

  /** The state after making `calls` in order, starting from `s`. */
  function Run(s: State, calls: seq<Call>): State
    decreases |calls|
  {
    if |calls| == 0 then s
    else
      var next := match calls[0]
        case ConnectCall(e) => Connect(s, e).state
        case DisconnectCall(e) => Disconnect(s, e).state;
      Run(next, calls[1..])
  }

  lemma ConnectKeepsValid(s: State, env: ConnectEnv)
    requires Valid(s)
    ensures Valid(Connect(s, env).state)
  {
  }

  lemma DisconnectKeepsValid(s: State, env: DisconnectEnv)
    requires Valid(s)
    ensures Valid(Disconnect(s, env).state)
  {
  }

  lemma {:induction false} RunKeepsValid(s: State, calls: seq<Call>)
    requires Valid(s)
    ensures Valid(Run(s, calls))
    ensures Run(s, calls).masterConfig == s.masterConfig
    ensures Run(s, calls).replicaConfig == s.replicaConfig
    decreases |calls|
  {
    if |calls| > 0 {
      var next := match calls[0]
        case ConnectCall(e) => Connect(s, e).state
        case DisconnectCall(e) => Disconnect(s, e).state;
      assert Run(s, calls) == Run(next, calls[1..]);
      match calls[0] {
        case ConnectCall(e) => ConnectKeepsValid(s, e);
        case DisconnectCall(e) => DisconnectKeepsValid(s, e);
      }
      RunKeepsValid(next, calls[1..]);
    }
  }

  /** Every state reachable from the constructor keeps the invariant. */
  lemma ReachableStatesAreValid(masterConfig: Config, replicaConfig: Config, calls: seq<Call>)
    ensures Valid(Run(Init(masterConfig, replicaConfig), calls))
    ensures Run(Init(masterConfig, replicaConfig), calls).masterConfig == masterConfig
    ensures Run(Init(masterConfig, replicaConfig), calls).replicaConfig == replicaConfig
  {
    RunKeepsValid(Init(masterConfig, replicaConfig), calls);
  }

  /**
   * Writes never reach a replica: once connected, every operation type other
   * than "read" yields a session on the current master engine.
   */
  lemma WritesGoToMaster(masterConfig: Config, replicaConfig: Config, calls: seq<Call>, operationType: string)
    requires operationType != "read"
    ensures var s := Run(Init(masterConfig, replicaConfig), calls);
      s.connected ==>
        && s.master.Some?
        && GetSession(s, operationType) == Success(Session(s.master.value))
        && s.master.value.role == Master
  {
    ReachableStatesAreValid(masterConfig, replicaConfig, calls);
  }

  /**
   * Reads, once connected, go to the replica whenever one is present, and
   * otherwise to the master or to a replica engine that was discarded.
   */
  lemma ReadsGoToReplicaOrMaster(masterConfig: Config, replicaConfig: Config, calls: seq<Call>)
    ensures var s := Run(Init(masterConfig, replicaConfig), calls);
      s.connected ==>
        && s.master.Some?
        && GetSession(s, "read").Success?
        && (s.replica.Some? ==> GetSession(s, "read").value.bind == s.replica.value)
        && (|| GetSession(s, "read").value.bind == s.master.value
            || (&& GetSession(s, "read").value.bind.role == Replica
                && GetSession(s, "read").value.bind.id == s.master.value.id + 1))
  {
    ReachableStatesAreValid(masterConfig, replicaConfig, calls);
  }

  /** Before any connect and after a disconnect that raised nothing, sessions are refused. */
  lemma SessionsNeedConnection(s: State, env: DisconnectEnv, operationType: string)
    ensures GetSession(Init(s.masterConfig, s.replicaConfig), operationType) == Failure(NotConnected)
    ensures Disconnect(s, env).raised.None? ==>
              GetSession(Disconnect(s, env).state, operationType) == Failure(NotConnected)
  {
  }

  /** A replica reported healthy is the engine reads go to. */
  lemma HealthyReplicaServesReads(s: State)
    requires Valid(s)
    requires s.connected
    requires HealthCheck(s).replica
    ensures GetSession(s, "read") == Success(Session(s.replica.value))
    ensures GetSession(s, "read") != GetSession(s, "write")
  {
  }

  /**
   * A replica probe failure is absorbed: `connect` succeeds and the report
   * says there is no replica, yet the read factory keeps the binding chosen
   * before the probe, so reads still go to the discarded replica engine and
   * not to the master.
   */
  lemma ReplicaProbeFailureKeepsReadsOnReplica(s: State, env: ConnectEnv)
    requires Valid(s)
    requires ConnectionString.Build(s.masterConfig).Success?
    requires ReplicaEligible(s.replicaConfig) && ConnectionString.Build(s.replicaConfig).Success?
    requires env == ConnectEnv(Succeeds, Succeeds, Succeeds, Fails)
    ensures var r := Connect(s, env);
      && r.raised.None?
      && HealthCheck(r.state) == HealthReport("healthy", true, false)
      && GetSession(r.state, "read").Success?
      && GetSession(r.state, "read").value.bind.role == Replica
      && GetSession(r.state, "read").value.bind.id == s.created + 1
      && GetSession(r.state, "read") != GetSession(r.state, "write")
  {
  }

  /** With a reachable replica both engines are used and both are reported. */
  lemma HealthyReplicaConnect(s: State)
    requires Valid(s)
    requires ConnectionString.Build(s.masterConfig).Success?
    requires ReplicaEligible(s.replicaConfig) && ConnectionString.Build(s.replicaConfig).Success?
    ensures var r := Connect(s, ConnectEnv(Succeeds, Succeeds, Succeeds, Succeeds));
      && r.raised.None?
      && HealthCheck(r.state) == HealthReport("healthy", true, true)
      && GetSession(r.state, "read") == Success(Session(Engine(s.created + 1, Replica, ConnectionString.Build(s.replicaConfig).value)))
      && GetSession(r.state, "write") == Success(Session(Engine(s.created, Master, ConnectionString.Build(s.masterConfig).value)))
  {
  }

  /**
   * Any failure on the replica side, including a replica configuration with a
   * falsy value, never escapes `connect`: only the master's URL, creation and
   * probe decide whether it raises.
   */
  lemma ReplicaFailuresNeverEscape(s: State, env: ConnectEnv, other: Outcome, otherProbe: Outcome)
    ensures Connect(s, env).raised == Connect(s, env.(replicaCreate := other, replicaProbe := otherProbe)).raised
  {
  }

  /**
   * After a `connect` that raised nothing, reads go to a replica engine
   * created by that call exactly when the replica configuration is complete
   * and truthy and its creation succeeded; in every other case (a falsy
   * value, a missing key, a failed creation) reads share the write engine.
   * The replica probe is not consulted: the read factory was bound before it.
   */
  lemma ConnectReadRouting(s: State, env: ConnectEnv)
    requires Valid(s)
    requires Connect(s, env).raised.None?
    ensures var r := Connect(s, env);
      var replicaBuilt := ReplicaEligible(s.replicaConfig) &&
        ConnectionString.Build(s.replicaConfig).Success? && env.replicaCreate.Succeeds?;
      && (replicaBuilt ==>
            GetSession(r.state, "read") ==
              Success(Session(Engine(s.created + 1, Replica, ConnectionString.Build(s.replicaConfig).value))))
      && (!replicaBuilt ==> GetSession(r.state, "read") == GetSession(r.state, "write"))
  {
  }

  /**
   * An empty replica configuration counts as complete, fails on the missing
   * "username" key, and leaves the manager on the master alone: no replica
   * engine is created and reads share the write engine.
   */
  lemma EmptyReplicaConfigUsesMaster(s: State, env: ConnectEnv)
    requires Valid(s)
    requires s.replicaConfig == map[]
    ensures ReplicaEligible(s.replicaConfig)
    ensures ConnectionString.Build(s.replicaConfig) == Failure("username")
    ensures var r := Connect(s, env);
      && r.state.replica.None?
      && r.state.created <= s.created + 1
      && !HealthCheck(r.state).replica
      && (r.raised.None? ==> GetSession(r.state, "read") == GetSession(r.state, "write"))
  {
    ConnectionString.EmptyConfigMissesUsername();
  }

  /**
   * A replica configuration with a falsy value is never used: no reachable
   * state holds a replica engine, and reads share the write engine.
   */
  lemma FalsyReplicaConfigNeverUsed(masterConfig: Config, replicaConfig: Config, calls: seq<Call>, key: string)
    requires key in replicaConfig && !Truthy(replicaConfig[key])
    ensures var s := Run(Init(masterConfig, replicaConfig), calls);
      && s.replica.None?
      && (s.connected ==> GetSession(s, "read") == GetSession(s, "write"))
  {
    assert !ReplicaEligible(replicaConfig) by {
      assert !Truthy(replicaConfig[key]);
    }
    ReachableStatesAreValid(masterConfig, replicaConfig, calls);
  }

  /**
   * A failing master probe raises, leaves the connected flag as it was, and
   * keeps the new master engine assigned without disposing it.
   */
  lemma MasterProbeFailureKeepsEngine(s: State, env: ConnectEnv)
    requires Valid(s)
    requires ConnectionString.Build(s.masterConfig).Success?
    requires env.masterCreate.Succeeds? && env.masterProbe.Fails?
    ensures var r := Connect(s, env);
      && r.raised == Some(ProbeError)
      && r.state.connected == s.connected
      && r.state.master.Some?
      && r.state.master.value.id == s.created
      && r.state.master.value.id !in r.state.disposed
  {
  }

  /**
   * A failing master probe rolls nothing back on the replica side either:
   * the replica engine created by the same call stays assigned, undisposed
   * and bound to the read factory; without one, reads share the write engine.
   */
  lemma MasterProbeFailureKeepsReplica(s: State, env: ConnectEnv)
    requires Valid(s)
    requires ConnectionString.Build(s.masterConfig).Success?
    requires env.masterCreate.Succeeds? && env.masterProbe.Fails?
    ensures var r := Connect(s, env);
      var replicaBuilt := ReplicaEligible(s.replicaConfig) &&
        ConnectionString.Build(s.replicaConfig).Success? && env.replicaCreate.Succeeds?;
      && (replicaBuilt ==>
            && r.state.replica == Some(Engine(s.created + 1, Replica, ConnectionString.Build(s.replicaConfig).value))
            && r.state.readFactory == Some(SessionFactory(r.state.replica.value))
            && s.created + 1 !in r.state.disposed)
      && (!replicaBuilt ==> r.state.readFactory == r.state.writeFactory)
  {
  }

  /** From a fresh manager, a failed connect leaves it unconnected, possibly holding an engine. */
  lemma FreshConnectFailure(masterConfig: Config, replicaConfig: Config, env: ConnectEnv)
    requires ConnectionString.Build(masterConfig).Success?
    requires env.masterCreate.Succeeds? && env.masterProbe.Fails?
    ensures var r := Connect(Init(masterConfig, replicaConfig), env);
      && r.raised.Some?
      && HealthCheck(r.state).status == "unhealthy"
      && HealthCheck(r.state).master
  {
  }

  /**
   * `disconnect` leaves the engine fields in place: after a clean disconnect
   * the report is unhealthy but still names every engine that was there.
   */
  lemma DisconnectKeepsEngineFields(s: State, env: DisconnectEnv)
    requires Disconnect(s, env).raised.None?
    ensures HealthCheck(Disconnect(s, env).state) == HealthReport("unhealthy", s.master.Some?, s.replica.Some?)
  {
  }

  /** Two clean disconnects in a row both raise nothing and leave the manager unconnected. */
  lemma DisconnectTwice(s: State)
    ensures var ok := DisconnectEnv(Succeeds, Succeeds);
      var first := Disconnect(s, ok);
      var second := Disconnect(first.state, ok);
      && first.raised.None? && second.raised.None?
      && !first.state.connected && !second.state.connected
      && second.state == first.state
  {
  }

  /**
   * A master dispose that raises stops `disconnect` before the replica is
   * disposed and before the flag is cleared.
   */
  lemma MasterDisposeFailureSkipsReplica(s: State, env: DisconnectEnv)
    requires s.master.Some? && s.replica.Some? && s.replica.value.id !in s.disposed
    requires env.masterDispose.Fails?
    ensures Disconnect(s, env).raised == Some(DisposeError)
    ensures s.replica.value.id !in Disconnect(s, env).state.disposed
    ensures Disconnect(s, env).state.connected == s.connected
  {
  }

  /**
   * The replica engine discarded by a failed probe is no longer reachable
   * from the replica field, so a clean `disconnect` does not dispose it,
   * although the read factory is still bound to it.
   */
  lemma DiscardedReplicaIsNeverDisposed(s: State)
    requires Valid(s)
    requires ConnectionString.Build(s.masterConfig).Success?
    requires ReplicaEligible(s.replicaConfig) && ConnectionString.Build(s.replicaConfig).Success?
    ensures var connected := Connect(s, ConnectEnv(Succeeds, Succeeds, Succeeds, Fails)).state;
      var closed := Disconnect(connected, DisconnectEnv(Succeeds, Succeeds)).state;
      && closed.readFactory.Some?
      && closed.readFactory.value.bind == Engine(s.created + 1, Replica, ConnectionString.Build(s.replicaConfig).value)
      && closed.readFactory.value.bind.id !in closed.disposed
      && closed.master.value.id in closed.disposed
  {
  }

  /**
   * A second `connect` while connected overwrites the engine fields: the
   * first master engine is neither referenced nor disposed afterwards.
   */
  lemma ReconnectOrphansMaster(s: State, env: ConnectEnv)
    requires Valid(s)
    requires ConnectionString.Build(s.masterConfig).Success?
    requires env.masterCreate.Succeeds? && env.masterProbe.Succeeds?
    ensures var first := Connect(s, env).state;
      var second := Connect(first, env).state;
      && first.connected && second.connected
      && second.master.value.id != first.master.value.id
      && first.master.value.id !in second.disposed
      && (second.replica.None? || second.replica.value.id != first.master.value.id)
      && second.writeFactory.value.bind.id != first.master.value.id
      && second.readFactory.value.bind.id != first.master.value.id
  {
    ConnectKeepsValid(s, env);
    ConnectKeepsValid(Connect(s, env).state, env);
  }

  /** A complete master configuration with an int port. */
  const ExampleMaster: Config := map[
    "host" := Str("db1"), "port" := Int(5432), "username" := Str("a"),
    "password" := Str("b"), "database" := Str("app")]

  /** A replica configuration pointing at a host that does not answer. */
  const ExampleReplica: Config := map[
    "host" := Str("db2"), "port" := Int(5432), "username" := Str("a"),
    "password" := Str("b"), "database" := Str("app")]

  /** The example port prints as its four digits. */
  lemma ExamplePortText()
    ensures Format(Int(5432)) == "5432"
  {
    assert NatToString(5) == "5";
    assert NatToString(54) == "54";
    assert NatToString(543) == "543";
    assert NatToString(5432) == "5432";
  }

  lemma ExampleMasterUrl()
    ensures ConnectionString.Build(ExampleMaster) == Success("postgresql+asyncpg://a:b@db1:5432/app")
  {
    ExamplePortText();
    assert ConnectionString.HasAllKeys(ExampleMaster);
    var parts := ConnectionString.UrlParts("a", "b", "db1", "5432", "app");
    assert ConnectionString.FormattedParts(ExampleMaster) == parts;
    assert ConnectionString.Render(parts) == "postgresql+asyncpg://a:b@db1:5432/app";
  }

  /** Master only, empty replica configuration: healthy, master present, no replica. */
  lemma ExampleEmptyReplica()
    ensures var r := Connect(Init(ExampleMaster, map[]), ConnectEnv(Succeeds, Succeeds, Succeeds, Succeeds));
      && r.raised.None?
      && HealthCheck(r.state) == HealthReport("healthy", true, false)
      && r.state.master == Some(Engine(0, Master, "postgresql+asyncpg://a:b@db1:5432/app"))
      && GetSession(r.state, "read") == GetSession(r.state, "write")
  {
    ExampleMasterUrl();
    ConnectionString.EmptyConfigMissesUsername();
  }

  /**
   * Unreachable replica: connect succeeds and the report shows no replica,
   * while the read session is bound to the replica engine, not the master.
   */
  lemma ExampleUnreachableReplica()
    ensures var r := Connect(Init(ExampleMaster, ExampleReplica), ConnectEnv(Succeeds, Succeeds, Succeeds, Fails));
      && r.raised.None?
      && HealthCheck(r.state) == HealthReport("healthy", true, false)
      && GetSession(r.state, "write") == Success(Session(r.state.master.value))
      && GetSession(r.state, "read").Success?
      && GetSession(r.state, "read").value.bind.id == 1
      && GetSession(r.state, "read").value.bind.role == Replica
  {
    ExampleMasterUrl();
    assert ReplicaEligible(ExampleReplica);
    assert ConnectionString.HasAllKeys(ExampleReplica);
  }
}
