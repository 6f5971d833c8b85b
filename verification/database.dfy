/**
 * The `Database` connection manager: a writable master engine, an optional
 * read replica engine, a write and a read session factory, and a connected
 * flag. Each transition is a pure function of the state and of the outcomes
 * of the external calls it makes (engine creation, the `SELECT 1` liveness
 * probe, pool disposal), which are passed in as parameters.
 */
module Database {
  import opened Wrappers
  import opened PyValues
  import ConnectionString

  type Config = ConnectionString.Config

  /** Which configuration an engine was created from. */
  datatype Role = Master | Replica

  /**
   * An engine object. `id` stands for Python object identity: every call to
   * `create_async_engine` yields a fresh engine, numbered in creation order.
   */
  datatype Engine = Engine(id: nat, role: Role, url: string)

  /** A session factory bound to one engine. */
  datatype SessionFactory = SessionFactory(bind: Engine)

  /** A session handle; it talks to the engine its factory was bound to. */
  datatype Session = Session(bind: Engine)

  /** Whether an external call returns normally or raises. */
  datatype Outcome = Succeeds | Fails

  /** The outcomes of the external calls one `connect` may make. */
  datatype ConnectEnv = ConnectEnv(
    masterCreate: Outcome,
    replicaCreate: Outcome,
    masterProbe: Outcome,
    replicaProbe: Outcome)

  /** The outcomes of the two `dispose` calls one `disconnect` may make. */
  datatype DisconnectEnv = DisconnectEnv(masterDispose: Outcome, replicaDispose: Outcome)

  /** The exceptions that can escape the manager. */
  datatype Error =
    | KeyError(key: string)      // a key the URL template reads is missing
    | EngineCreationError        // create_async_engine raised for the master
    | ProbeError                 // the master `SELECT 1` probe raised
    | DisposeError               // an engine's dispose() raised
    | NotConnected               // RuntimeError("Database not connected")
    | FactoryNotCallable         // calling a factory field that is still None

  /**
   * The instance fields. `created` counts the engines created so far and
   * `disposed` holds the ids of engines whose pool was disposed; neither is
   * a field of the class, they record the engines' own lifecycle.
   */
  datatype State = State(
    masterConfig: Config,
    replicaConfig: Config,
    master: Option<Engine>,
    replica: Option<Engine>,
    writeFactory: Option<SessionFactory>,
    readFactory: Option<SessionFactory>,
    connected: bool,
    created: nat,
    disposed: set<nat>)

  /** The state after a call, and the exception it raised, if any. */
  datatype Step = Step(state: State, raised: Option<Error>)

  /** The report `health_check` returns. */
  datatype HealthReport = HealthReport(status: string, master: bool, replica: bool)

  /** `all(replica_config.values())`: every value truthy, vacuously so for an empty dict. */
  predicate ReplicaEligible(cfg: Config)
    ensures !ReplicaEligible(cfg) <==> exists k :: k in cfg && !Truthy(cfg[k])
    ensures cfg == map[] ==> ReplicaEligible(cfg)
  {
    forall k :: k in cfg ==> Truthy(cfg[k])
  }

  /**
   * The relations between the fields that every reachable state keeps:
   * factories exist exactly when a master engine does, the write factory is
   * bound to the master, a present replica is what the read factory is bound
   * to, and the read factory is otherwise bound to the master or to a
   * replica engine created earlier.
   */
  ghost predicate Valid(s: State) {
    && (s.writeFactory.Some? <==> s.master.Some?)
    && (s.readFactory.Some? <==> s.master.Some?)
    && (s.master.Some? ==>
          && s.master.value.role == Master
          && s.master.value.id < s.created
          && s.writeFactory == Some(SessionFactory(s.master.value)))
    && (s.replica.Some? ==>
          && s.master.Some?
          && s.replica.value.role == Replica
          && ConnectionString.Build(s.replicaConfig).Success?
          && s.replica.value.id < s.created
          && s.readFactory == Some(SessionFactory(s.replica.value)))
    && (s.readFactory.Some? ==>
          || s.readFactory.value.bind == s.master.value
          || (&& s.readFactory.value.bind.role == Replica
              && s.readFactory.value.bind.id < s.created
              && s.readFactory.value.bind.id == s.master.value.id + 1
              && ReplicaEligible(s.replicaConfig)))
    && (s.connected ==> s.master.Some?)
    && (!ReplicaEligible(s.replicaConfig) ==> s.replica.None?)
    && (forall i :: i in s.disposed ==> i < s.created)
  }

  /** `Database.__init__`: both configurations stored, nothing created, not connected. */
  function Init(masterConfig: Config, replicaConfig: Config): (s: State)
    ensures Valid(s)
    ensures !s.connected && s.master.None? && s.replica.None?
    ensures s.masterConfig == masterConfig && s.replicaConfig == replicaConfig
  {
    State(masterConfig, replicaConfig, None, None, None, None, false, 0, {})
  }

  /**
   * The replica block of `connect`: when every replica value is truthy, build
   * the URL and create the engine; a missing key or a creation failure is
   * swallowed and leaves no replica. Otherwise the field is left as it was.
   */
  function CreateReplica(s: State, create: Outcome): (r: State)
    ensures r.replica.Some? && r.replica != s.replica ==>
      && ReplicaEligible(s.replicaConfig)
      && create.Succeeds?
      && ConnectionString.Build(s.replicaConfig).Success?
      && r.replica.value == Engine(s.created, Replica, ConnectionString.Build(s.replicaConfig).value)
      && r.created == s.created + 1
    ensures ReplicaEligible(s.replicaConfig) && ConnectionString.Build(s.replicaConfig).Success? &&
            create.Succeeds? ==>
              && r.replica == Some(Engine(s.created, Replica, ConnectionString.Build(s.replicaConfig).value))
              && r.created == s.created + 1
    ensures (ReplicaEligible(s.replicaConfig) &&
             (ConnectionString.Build(s.replicaConfig).Failure? || create.Fails?)) ==> r.replica.None?
    ensures !ReplicaEligible(s.replicaConfig) ==> r == s
    ensures r == s.(replica := r.replica, created := r.created)
    ensures r.created == s.created || r.created == s.created + 1
  {
    if !ReplicaEligible(s.replicaConfig) then s
    else
      match ConnectionString.Build(s.replicaConfig)
      case Failure(_) => s.(replica := None)
      case Success(url) =>
        if create.Fails? then s.(replica := None)
        else s.(replica := Some(Engine(s.created, Replica, url)), created := s.created + 1)
  }

  /**
   * Binds the write factory to the master engine and the read factory to the
   * replica engine when one is present at this moment, else to the master.
   */
  function BindFactories(s: State): (r: State)
    requires s.master.Some?
    ensures r.writeFactory == Some(SessionFactory(s.master.value))
    ensures s.replica.Some? ==> r.readFactory == Some(SessionFactory(s.replica.value))
    ensures s.replica.None? ==> r.readFactory == r.writeFactory
    ensures r == s.(writeFactory := r.writeFactory, readFactory := r.readFactory)
  {
    var readEngine := if s.replica.Some? then s.replica.value else s.master.value;
    s.(writeFactory := Some(SessionFactory(s.master.value)),
       readFactory := Some(SessionFactory(readEngine)))
  }

  /**
   * `_test_connections`: a failing master probe raises; a failing replica
   * probe only clears the replica field. The factories are not touched.
   */
  function TestConnections(s: State, masterProbe: Outcome, replicaProbe: Outcome): (r: Step)
    requires s.master.Some?
    ensures r.raised.Some? <==> masterProbe.Fails?
    ensures r.raised.Some? ==> r.raised.value == ProbeError && r.state == s
    ensures r.state == s.(replica := r.state.replica)
    ensures r.state.replica.None? <==>
              s.replica.None? || (masterProbe.Succeeds? && replicaProbe.Fails?)
    ensures r.state.replica.Some? ==> r.state.replica == s.replica
  {
    if masterProbe.Fails? then Step(s, Some(ProbeError))
    else if s.replica.Some? && replicaProbe.Fails? then Step(s.(replica := None), None)
    else Step(s, None)
  }

  /**
   * `connect`: create the master engine, maybe a replica engine, bind both
   * factories, probe, and mark the manager connected. Only master failures
   * escape; whatever was assigned before the failure stays assigned.
   */
  function Connect(s: State, env: ConnectEnv): (r: Step)
    ensures r.state.masterConfig == s.masterConfig && r.state.replicaConfig == s.replicaConfig
    ensures r.raised.None? <==>
              && ConnectionString.Build(s.masterConfig).Success?
              && env.masterCreate.Succeeds?
              && env.masterProbe.Succeeds?
    ensures r.raised.None? ==> r.state.connected
    ensures r.raised.Some? ==> r.state.connected == s.connected
    ensures ConnectionString.Build(s.masterConfig).Failure? ==>
              r == Step(s, Some(KeyError(ConnectionString.Build(s.masterConfig).error)))
    ensures ConnectionString.Build(s.masterConfig).Success? && env.masterCreate.Fails? ==>
              r == Step(s, Some(EngineCreationError))
    ensures ConnectionString.Build(s.masterConfig).Success? && env.masterCreate.Succeeds? ==>
              && r.state.master == Some(Engine(s.created, Master, ConnectionString.Build(s.masterConfig).value))
              && r.state.writeFactory == Some(SessionFactory(r.state.master.value))
    ensures r.state.disposed == s.disposed
  {
    match ConnectionString.Build(s.masterConfig)
    case Failure(key) => Step(s, Some(KeyError(key)))
    case Success(masterUrl) =>
      if env.masterCreate.Fails? then Step(s, Some(EngineCreationError))
      else
        var withMaster := s.(master := Some(Engine(s.created, Master, masterUrl)), created := s.created + 1);
        var bound := BindFactories(CreateReplica(withMaster, env.replicaCreate));
        var probed := TestConnections(bound, env.masterProbe, env.replicaProbe);
        if probed.raised.Some? then probed
        else Step(probed.state.(connected := true), None)
  }

  /**
   * `disconnect`: dispose the master engine, then the replica engine, each
   * only if present; a raising dispose stops there. On success the flag is
   * cleared but the engine and factory fields are left as they were.
   */
  function Disconnect(s: State, env: DisconnectEnv): (r: Step)
    ensures r.raised.None? <==>
              (s.master.None? || env.masterDispose.Succeeds?) &&
              (s.replica.None? || env.replicaDispose.Succeeds?)
    ensures r.raised.Some? ==> r.raised.value == DisposeError && r.state.connected == s.connected
    ensures r.raised.None? ==> !r.state.connected
    ensures r.state == s.(connected := r.state.connected, disposed := r.state.disposed)
    ensures s.disposed <= r.state.disposed
    ensures r.raised.None? && s.master.Some? ==> s.master.value.id in r.state.disposed
    ensures r.raised.None? && s.replica.Some? ==> s.replica.value.id in r.state.disposed
    ensures s.master.Some? && env.masterDispose.Fails? ==> r.state == s
    ensures s.master.Some? && env.masterDispose.Succeeds? ==> s.master.value.id in r.state.disposed
    ensures r.raised.Some? ==>
              r.state.disposed <= s.disposed + (if s.master.Some? then {s.master.value.id} else {})
    ensures forall i :: i in r.state.disposed - s.disposed ==>
              (s.master.Some? && i == s.master.value.id) || (s.replica.Some? && i == s.replica.value.id)
  {
    if s.master.Some? && env.masterDispose.Fails? then Step(s, Some(DisposeError))
    else
      var afterMaster := if s.master.Some? then s.(disposed := s.disposed + {s.master.value.id}) else s;
      if s.replica.Some? && env.replicaDispose.Fails? then Step(afterMaster, Some(DisposeError))
      else
        var afterReplica :=
          if s.replica.Some? then afterMaster.(disposed := afterMaster.disposed + {s.replica.value.id})
          else afterMaster;
        Step(afterReplica.(connected := false), None)
  }

  /** `health_check`: a report read off the fields. */
  function HealthCheck(s: State): (r: HealthReport)
    ensures r.status == "healthy" <==> s.connected
    ensures r.status == "healthy" || r.status == "unhealthy"
    ensures r.master <==> s.master.Some?
    ensures r.replica <==> s.replica.Some?
  {
    HealthReport(if s.connected then "healthy" else "unhealthy", s.master.Some?, s.replica.Some?)
  }

  /**
   * `get_session`: refuse when not connected; `"read"` draws from the read
   * factory, every other operation type from the write factory.
   */
  function GetSession(s: State, operationType: string): (r: Result<Session, Error>)
    ensures r == Failure(NotConnected) <==> !s.connected
    ensures s.connected && operationType == "read" && s.readFactory.Some? ==>
              r == Success(Session(s.readFactory.value.bind))
    ensures s.connected && operationType != "read" && s.writeFactory.Some? ==>
              r == Success(Session(s.writeFactory.value.bind))
    ensures Valid(s) && s.connected ==> r.Success?
  {
    if !s.connected then Failure(NotConnected)
    else
      var factory := if operationType == "read" then s.readFactory else s.writeFactory;
      match factory
      case None => Failure(FactoryNotCallable)
      case Some(f) => Success(Session(f.bind))
  }
}
