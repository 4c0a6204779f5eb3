/**
 What each call on SAM does to its state, as functions. SAM holds one lock per call, so a call is
 one atomic step; `sent` is the message it broadcasts to every client it has afterwards.
 */
module ServiceSteps {
  import opened Protocol
  import opened Modes
  import opened Registry
  import opened Health

  datatype SystemState = SystemState(mode: SystemMode, health: HealthState)

  datatype ModeFailure = FromManager(error: ModeError) | FromRegistry(cause: RegistryError)

  datatype ServiceError =
    | StateUnavailable
    | StaleConnection(application: ApplicationId)
    | ApplicationMismatch(expected: ApplicationId, actual: ApplicationId)
    | DuplicateRegistration
    | Mode(failure: ModeFailure)

  /** The state behind SAM's lock; `clients` holds the connection each connected application speaks through. */
  datatype Service = Service(
    system: SystemState,
    applications: Statuses,
    health: HealthManager,
    modes: Manager,
    clients: map<ApplicationId, ConnectionId>,
    nextConnectionId: U64)

  datatype Answer = Done | NewConnection(connection: ConnectionId) | NewTransition(transition: TransitionId)

  datatype Outcome = Outcome(service: Service, result: Result<Answer, ServiceError>, sent: Option<SamToApplication>)

  function NewService(heartbeatTimeout: nat): Service {
    Service(SystemState(Startup, Healthy), map[], HealthManager(heartbeatTimeout),
            Manager(Stable(Startup), 1), map[], 1)
  }

  function Recalculate(s: Service, now: nat): Service {
    s.(system := s.system.(health := Recalculated(s.applications, s.system.mode, s.health.heartbeatTimeout, now)))
  }

  function StateMessage(s: Service): SamToApplication {
    StateBroadcast(s.system.mode, s.system.health)
  }

  function Fails(s: Service, error: ServiceError): Outcome {
    Outcome(s, Err(error), None)
  }

  function Quietly(s: Service): Outcome {
    Outcome(s, Ok(Done), None)
  }

  /** Broadcasts the system state exactly when its health differs from `before`. */
  function AnnounceChange(s: Service, before: HealthState): Outcome {
    Outcome(s, Ok(Done), if s.system.health != before then Some(StateMessage(s)) else None)
  }

  /** The reply queued for a new connection, given the state after its registration was recorded. */
  function Welcome(s: Service): SamToApplication {
    RegisterAccepted(PROTOCOL_VERSION, s.system.mode, s.system.health)
  }

  /** `fits` tells whether the reply could be queued; when it could not, the connection is not installed. */
  function OnRegister(s: Service, application: ApplicationId, fits: bool, now: nat): Outcome {
    var id := s.nextConnectionId;
    var known := s.(nextConnectionId := WrappingSucc(id),
                    applications := s.applications[application := NewStatus(now)]);
    var entered := Recalculate(known, now);
    if !fits then Fails(entered, StateUnavailable)
    else Outcome(entered.(clients := entered.clients[application := id]), Ok(NewConnection(id)), None)
  }

  predicate Speaks(s: Service, application: ApplicationId, connection: ConnectionId) {
    application in s.clients && s.clients[application] == connection
  }

  function OnDisconnect(s: Service, application: ApplicationId, connection: ConnectionId, now: nat): Outcome {
    if !Speaks(s, application, connection) then Quietly(s)
    else
      var gone := Recalculate(s.(clients := s.clients - {application},
                                 applications := Disconnected(s.applications, application)), now);
      Outcome(gone, Ok(Done), Some(StateMessage(gone)))
  }

  predicate IsLateResponse(error: ModeError) {
    error.InvalidPhase? || error.StaleTransition? || error.UnknownParticipant?
  }

  /** A refused mode response: late ones are dropped silently, anything else fails the call. */
  function Refused(s: Service, error: ModeError): Outcome {
    if IsLateResponse(error) then Quietly(s) else Fails(s, Mode(FromManager(error)))
  }

  function OnHeartbeat(s: Service, application: ApplicationId, health: HealthState, mode: SystemMode, now: nat): Outcome {
    if application !in s.applications then Fails(s, Mode(FromRegistry(NotRegistered(application))))
    else
      var updated := s.(applications := HeartbeatRecorded(s.applications, application, health, mode, now));
      AnnounceChange(Recalculate(updated, now), s.system.health)
  }

  function OnModeReady(s: Service, application: ApplicationId, id: TransitionId): Outcome {
    var reply := OnReady(s.modes, application, id);
    match reply.result
    case Err(error) => Refused(s, error)
    case Ok(event) =>
      Outcome(s.(modes := reply.manager), Ok(Done),
              match event
              case Some(PreparationComplete(transition, target)) => Some(CommitMode(transition, target))
              case _ => None)
  }

  function OnModeRejected(s: Service, application: ApplicationId, id: TransitionId, reason: string): Outcome {
    var reply := OnRejected(s.modes, application, id, reason);
    match reply.result
    case Err(error) => Refused(s, error)
    case Ok(_) => Outcome(s.(modes := reply.manager), Ok(Done), Some(AbortMode(id)))
  }

  function OnModeCommitted(s: Service, application: ApplicationId, id: TransitionId, mode: SystemMode, now: nat): Outcome {
    var reply := OnCommitted(s.modes, application, id, mode);
    match reply.result
    case Err(error) => Refused(s, error)
    case Ok(event) =>
      var moved := s.(modes := reply.manager);
      if application !in s.applications then Fails(moved, Mode(FromRegistry(NotRegistered(application))))
      else
        var recorded := moved.(applications := ModeRecorded(s.applications, application, mode));
        match event
        case Some(TransitionComplete(_, decided)) =>
          var settled := Recalculate(recorded.(system := recorded.system.(mode := decided)), now);
          Outcome(settled, Ok(Done), Some(StateMessage(settled)))
        case _ => Quietly(recorded)
  }

  function OnMessage(s: Service, registered: ApplicationId, connection: ConnectionId, message: ApplicationToSam,
                     now: nat): Outcome
  {
    if !Speaks(s, registered, connection) then Fails(s, StaleConnection(registered))
    else if message.Register? then Fails(s, DuplicateRegistration)
    else if message.application != registered then Fails(s, ApplicationMismatch(registered, message.application))
    else
      match message
      case Heartbeat(application, health, mode) => OnHeartbeat(s, application, health, mode, now)
      case ModeReady(application, id) => OnModeReady(s, application, id)
      case ModeRejected(application, id, reason) => OnModeRejected(s, application, id, reason)
      case ModeCommitted(application, id, mode) => OnModeCommitted(s, application, id, mode, now)
  }

  function OnRequestMode(s: Service, target: SystemMode): Outcome {
    var reply := OnRequest(s.modes, target, s.clients.Keys);
    match reply.result
    case Err(error) => Fails(s, Mode(FromManager(error)))
    case Ok(id) => Outcome(s.(modes := reply.manager), Ok(NewTransition(id)), Some(PrepareMode(id, target)))
  }

  function OnRefresh(s: Service, now: nat): Outcome {
    AnnounceChange(Recalculate(s, now), s.system.health)
  }

  /** The queue contents after offering `message` to a bounded queue. */
  function Offered(queue: seq<SamToApplication>, capacity: nat, open: bool, message: SamToApplication)
    : seq<SamToApplication>
  {
    if open && |queue| < capacity then queue + [message] else queue
  }

  // ---------------------------------------------------------------- reporting

  /** What SAM reports about one application at an instant. */
  datatype ApplicationSnapshot = ApplicationSnapshot(
    health: HealthState,
    effectiveHealth: HealthState,
    currentMode: SystemMode,
    connected: bool,
    synchronized: bool,
    heartbeatAge: nat)

  function SnapshotOf(s: Service, a: ApplicationId, now: nat): ApplicationSnapshot
    requires a in s.applications
  {
    var status := s.applications[a];
    ApplicationSnapshot(status.health,
                        EffectiveOf(s.applications, s.system.mode, s.health.heartbeatTimeout, now, a),
                        status.currentMode, status.connected, Synchronized(status, s.system.mode),
                        Age(now, status.lastHeartbeat))
  }

  function Snapshots(s: Service, now: nat): map<ApplicationId, ApplicationSnapshot> {
    map a | a in s.applications :: SnapshotOf(s, a, now)
  }

  /** Right after a recalculation the published health is the worst effective health in the report of that instant. */
  lemma RecalculationMatchesReport(s: Service, now: nat)
    ensures
      var t := Recalculate(s, now);
      IsWorst(t.system.health, set a | a in Snapshots(t, now) :: Snapshots(t, now)[a].effectiveHealth)
  {
    var t := Recalculate(s, now);
    PublishedHealthIsWorstReport(s.applications, s.system.mode, s.health.heartbeatTimeout, now);
    var effective := EffectiveReports(s.applications, s.system.mode, s.health.heartbeatTimeout, now);
    var reported := set a | a in Snapshots(t, now) :: Snapshots(t, now)[a].effectiveHealth;
    forall h
      ensures h in effective <==> h in reported
    {
      if h in effective {
        var a :| a in s.applications
                 && EffectiveOf(s.applications, s.system.mode, s.health.heartbeatTimeout, now, a) == h;
        assert Snapshots(t, now)[a].effectiveHealth == h;
      }
    }
    assert effective == reported;
  }

  // ---------------------------------------------------------------- calls and runs

  /** One call on SAM, with the instant at which it takes the lock. */
  datatype Call =
    | DoRegister(application: ApplicationId, fits: bool, now: nat)
    | DoDisconnect(application: ApplicationId, connection: ConnectionId, now: nat)
    | DoMessage(registered: ApplicationId, connection: ConnectionId, message: ApplicationToSam, now: nat)
    | DoRequestMode(target: SystemMode, now: nat)
    | DoRefresh(now: nat)

  function Perform(s: Service, call: Call): Outcome {
    match call
    case DoRegister(application, fits, now) => OnRegister(s, application, fits, now)
    case DoDisconnect(application, connection, now) => OnDisconnect(s, application, connection, now)
    case DoMessage(registered, connection, message, now) => OnMessage(s, registered, connection, message, now)
    case DoRequestMode(target, _) => OnRequestMode(s, target)
    case DoRefresh(now) => OnRefresh(s, now)
  }

  /** There is a state before the first call and one after each. */
  ghost predicate Matched(states: seq<Service>, calls: seq<Call>) {
    |states| == |calls| + 1
  }

  /** Call `i` takes SAM from state `i` to the next. */
  ghost predicate RunStep(states: seq<Service>, calls: seq<Call>, i: int)
    requires 0 <= i < |calls| && Matched(states, calls)
  {
    states[i + 1] == Perform(states[i], calls[i]).service
  }

  /** `states` are the states SAM goes through while performing `calls` from a fresh start. */
  ghost predicate IsRun(states: seq<Service>, calls: seq<Call>) {
    && Matched(states, calls)
    && states[0] == NewService(states[0].health.heartbeatTimeout)
    && forall i :: 0 <= i < |calls| ==> RunStep(states, calls, i)
  }

  /** Everything broadcast while performing `calls` from `s`, in order. */
  function Broadcasts(s: Service, calls: seq<Call>): seq<SamToApplication>
    decreases |calls|
  {
    if calls == [] then []
    else
      var outcome := Perform(s, calls[0]);
      (if outcome.sent.Some? then [outcome.sent.value] else []) + Broadcasts(outcome.service, calls[1..])
  }

  /** The state reached by performing `calls` from `s`. */
  function After(s: Service, calls: seq<Call>): Service
    decreases |calls|
  {
    if calls == [] then s else After(Perform(s, calls[0]).service, calls[1..])
  }

  lemma {:induction false} CallsCompose(s: Service, calls: seq<Call>, more: seq<Call>)
    ensures After(s, calls + more) == After(After(s, calls), more)
    ensures Broadcasts(s, calls + more) == Broadcasts(s, calls) + Broadcasts(After(s, calls), more)
    decreases |calls|
  {
    if calls == [] {
      assert calls + more == more;
    } else {
      var next := Perform(s, calls[0]).service;
      assert (calls + more)[0] == calls[0] && (calls + more)[1..] == calls[1..] + more;
      CallsCompose(next, calls[1..], more);
      assert After(s, calls + more) == After(next, calls[1..] + more);
    }
  }
}
