/**
 `SamService`: the state of `ServiceSteps.Service` spread over the objects SAM keeps it in. Every
 method is one locked call; each is proved to perform exactly the step of the same name and to
 deliver its broadcast to every client's bounded queue.
 */
module SamServices {
  import opened Protocol
  import opened Modes
  import opened Registry
  import opened Health
  import opened ServiceSteps

  /** A bounded queue shared by its sender inside SAM and its receiver in the session task. */
  class Channel {
    const capacity: nat
    var queue: seq<SamToApplication>
    var open: bool

    constructor (capacity: nat)
      ensures this.capacity == capacity && queue == [] && open
    {
      this.capacity := capacity;
      queue := [];
      open := true;
    }

    method TrySend(message: SamToApplication) returns (sent: bool)
      modifies this`queue
      ensures sent <==> open && |old(queue)| < capacity
      ensures queue == Offered(old(queue), capacity, open, message)
    {
      sent := open && |queue| < capacity;
      if sent {
        queue := queue + [message];
      }
    }
  }

  datatype ClientConnection = ClientConnection(id: ConnectionId, outbound: Channel)

  /** The connection each client speaks through. */
  function Ids(clients: map<ApplicationId, ClientConnection>): (ids: map<ApplicationId, ConnectionId>)
    ensures ids.Keys == clients.Keys
  {
    map a | a in clients :: clients[a].id
  }

  lemma IdsAfterInsertion(clients: map<ApplicationId, ClientConnection>, a: ApplicationId, c: ClientConnection)
    ensures Ids(clients[a := c]) == Ids(clients)[a := c.id]
  {
  }

  class SamService {
    var system: SystemState
    const applications: ApplicationRegistry
    const health: HealthManager
    const modes: ModeManager
    var clients: map<ApplicationId, ClientConnection>
    var nextConnectionId: U64

    function View(): Service
      reads this, applications, modes
    {
      Service(system, applications.applications, health, modes.View(),
              Ids(clients), nextConnectionId)
    }

    ghost function Channels(): set<Channel>
      reads this
    {
      set a | a in clients :: clients[a].outbound
    }

    /** No two clients share a queue, and the mode manager is in a well-formed phase. */
    ghost predicate Valid()
      reads this, applications, modes
    {
      && modes.Valid()
      && forall a, b :: a in clients && b in clients && a != b ==> clients[a].outbound != clients[b].outbound
    }

    constructor (heartbeatTimeout: nat)
      ensures Valid() && View() == NewService(heartbeatTimeout)
      ensures fresh(applications) && fresh(modes) && clients == map[]
    {
      system := SystemState(Startup, Healthy);
      applications := new ApplicationRegistry();
      health := HealthManager(heartbeatTimeout);
      modes := new ModeManager(Startup);
      clients := map[];
      nextConnectionId := 1;
    }

    /** Recomputes the published health from every known application. */
    method RecalculateHealth(now: nat)
      modifies this`system
      ensures View() == Recalculate(old(View()), now)
      ensures IsSystemHealth(system.health, applications.applications, system.mode, health.heartbeatTimeout, now)
    {
      PublishedHealthExactly(applications.applications, system.mode, health.heartbeatTimeout, now);
      var reported := health.Calculate(applications, now);
      WorstIsUnique(reported, Reports(applications.applications, health.heartbeatTimeout, now));
      var mismatch := false;
      var unseen := applications.applications.Keys;
      while unseen != {} && !mismatch
        invariant unseen <= applications.applications.Keys
        invariant mismatch ==> ModeMismatch(applications.applications, system.mode)
        invariant !mismatch ==> forall a :: a in applications.applications && a !in unseen ==>
            !(applications.applications[a].connected && applications.applications[a].currentMode != system.mode)
        decreases |unseen|
      {
        var a :| a in unseen;
        unseen := unseen - {a};
        mismatch := applications.applications[a].connected && applications.applications[a].currentMode != system.mode;
      }
      var overall := if reported == HealthState.Failed then HealthState.Failed
                     else if reported == Degraded || mismatch then Degraded
                     else Healthy;
      system := system.(health := overall);
    }

    /** What the clients' queues hold once `sent` has been offered to each of them. */
    twostate predicate Delivered(sent: Option<SamToApplication>)
      reads this, Channels()
    {
      forall a :: a in clients ==>
        && a in old(clients) && clients[a] == old(clients[a])
        && var c := clients[a].outbound;
           c.queue == if sent.Some? then Offered(old(c.queue), c.capacity, c.open, sent.value) else old(c.queue)
    }

    /** Offers `message` to every client's queue, in whatever order the clients are visited. */
    method Broadcast(message: SamToApplication)
      requires Valid()
      modifies Channels()`queue
      ensures Delivered(Some(message))
    {
      var unserved := clients.Keys;
      while unserved != {}
        invariant unserved <= clients.Keys
        invariant forall a :: a in clients ==>
            var c := clients[a].outbound;
            c.queue == if a in unserved then old(c.queue) else Offered(old(c.queue), c.capacity, c.open, message)
        decreases |unserved|
      {
        var a :| a in unserved;
        unserved := unserved - {a};
        var sent := clients[a].outbound.TrySend(message);
      }
    }

    method BroadcastState()
      requires Valid()
      modifies Channels()`queue
      ensures Delivered(Some(StateMessage(View())))
    {
      Broadcast(StateBroadcast(system.mode, system.health));
    }

    /** Publishes a mode that has been decided: the new state is announced to everyone. */
    method Settle(decided: SystemMode, now: nat)
      requires Valid()
      modifies this`system, Channels()`queue
      ensures Valid() && View() == Recalculate(old(View().(system := system.(mode := decided))), now)
      ensures Delivered(Some(StateMessage(View())))
    {
      system := system.(mode := decided);
      RecalculateHealth(now);
      BroadcastState();
    }

    /**
     Installs a new connection for `application`, displacing any earlier one, and queues the reply on
     its channel. A reply that does not fit leaves the registry entry behind but not the connection.
     */
    method Register(application: ApplicationId, outbound: Channel, now: nat)
      returns (r: Result<ConnectionId, ServiceError>)
      requires Valid() && outbound !in Channels()
      modifies this`system, this`clients, this`nextConnectionId, applications, outbound`queue
      ensures Valid()
      ensures
        var fits := outbound.open && |old(outbound.queue)| < outbound.capacity;
        var step := OnRegister(old(View()), application, fits, now);
        && View() == step.service
        && r == (if step.result.Ok? then Ok(step.result.value.connection) else Err(step.result.error))
        && outbound.queue == old(outbound.queue) + (if fits then [Welcome(step.service)] else [])
        && clients == if fits then old(clients)[application := ClientConnection(r.value, outbound)] else old(clients)
    {
      var id := nextConnectionId;
      nextConnectionId := WrappingSucc(nextConnectionId);
      applications.Register(application, now);
      RecalculateHealth(now);
      var sent := outbound.TrySend(RegisterAccepted(PROTOCOL_VERSION, system.mode, system.health));
      if !sent {
        return Err(StateUnavailable);
      }
      IdsAfterInsertion(clients, application, ClientConnection(id, outbound));
      clients := clients[application := ClientConnection(id, outbound)];
      return Ok(id);
    }

    /** Ends `connection`; ignored unless it is still the one `application` speaks through. */
    method Disconnect(application: ApplicationId, connection: ConnectionId, now: nat)
      requires Valid()
      modifies this`system, this`clients, applications, Channels()`queue
      ensures Valid()
      ensures View() == OnDisconnect(old(View()), application, connection, now).service
      ensures Delivered(OnDisconnect(old(View()), application, connection, now).sent)
      ensures forall c :: c in old(Channels()) && c !in Channels() ==> c.queue == old(c.queue)
    {
      var active := application in clients && clients[application].id == connection;
      if !active {
        return;
      }
      clients := clients - {application};
      assert View().clients == old(View()).clients - {application};
      var ignored := applications.MarkDisconnected(application);
      RecalculateHealth(now);
      ghost var gone := View();
      assert gone == OnDisconnect(old(View()), application, connection, now).service;
      BroadcastState();
      assert View() == gone;
    }

    /** Applies one message arriving on `connection`, registered as `registered`. */
    method HandleMessage(registered: ApplicationId, connection: ConnectionId, message: ApplicationToSam, now: nat)
      returns (r: Result<Answer, ServiceError>)
      requires Valid()
      modifies this`system, applications, modes, Channels()`queue
      ensures Valid() && clients == old(clients)
      ensures
        var step := OnMessage(old(View()), registered, connection, message, now);
        View() == step.service && r == step.result && Delivered(step.sent)
    {
      if !(registered in clients && clients[registered].id == connection) {
        return Err(StaleConnection(registered));
      }
      if message.Register? {
        return Err(DuplicateRegistration);
      }
      if message.application != registered {
        return Err(ApplicationMismatch(registered, message.application));
      }
      match message {
        case Heartbeat(application, reported, mode) =>
          r := HandleHeartbeat(application, reported, mode, now);
        case ModeReady(application, id) =>
          r := HandleReady(application, id);
        case ModeRejected(application, id, reason) =>
          var event := modes.ApplicationRejected(application, id, reason);
          if event.Err? {
            return if IsLateResponse(event.error) then Ok(Done) else Err(Mode(FromManager(event.error)));
          }
          Broadcast(AbortMode(id));
          return Ok(Done);
        case ModeCommitted(application, id, mode) =>
          r := HandleCommitted(application, id, mode, now);
      }
    }

    method HandleHeartbeat(application: ApplicationId, reported: HealthState, mode: SystemMode, now: nat)
      returns (r: Result<Answer, ServiceError>)
      requires Valid()
      modifies this`system, applications, Channels()`queue
      ensures Valid() && clients == old(clients)
      ensures
        var step := OnHeartbeat(old(View()), application, reported, mode, now);
        View() == step.service && r == step.result && Delivered(step.sent)
    {
      var updated := applications.UpdateHeartbeat(application, reported, mode, now);
      if updated.Err? {
        return Err(Mode(FromRegistry(updated.error)));
      }
      var previous := system.health;
      RecalculateHealth(now);
      if previous != system.health {
        BroadcastState();
      }
      return Ok(Done);
    }

    method HandleReady(application: ApplicationId, id: TransitionId) returns (r: Result<Answer, ServiceError>)
      requires Valid()
      modifies modes, Channels()`queue
      ensures Valid() && clients == old(clients)
      ensures
        var step := OnModeReady(old(View()), application, id);
        View() == step.service && r == step.result && Delivered(step.sent)
    {
      var event := modes.ApplicationReady(application, id);
      match event {
        case Err(error) =>
          return if IsLateResponse(error) then Ok(Done) else Err(Mode(FromManager(error)));
        case Ok(Some(PreparationComplete(transition, target))) =>
          Broadcast(CommitMode(transition, target));
        case Ok(_) =>
      }
      return Ok(Done);
    }

    method HandleCommitted(application: ApplicationId, id: TransitionId, mode: SystemMode, now: nat)
      returns (r: Result<Answer, ServiceError>)
      requires Valid()
      modifies this`system, applications, modes, Channels()`queue
      ensures Valid() && clients == old(clients)
      ensures
        var step := OnModeCommitted(old(View()), application, id, mode, now);
        View() == step.service && r == step.result && Delivered(step.sent)
    {
      var event := modes.ApplicationCommitted(application, id, mode);
      if event.Err? {
        return if IsLateResponse(event.error) then Ok(Done) else Err(Mode(FromManager(event.error)));
      }
      var recorded := applications.SetMode(application, mode);
      if recorded.Err? {
        return Err(Mode(FromRegistry(recorded.error)));
      }
      match event.value {
        case Some(TransitionComplete(_, decided)) =>
          Settle(decided, now);
        case _ =>
      }
      return Ok(Done);
    }

    /** Opens a transition to `target` across every connected application. */
    method RequestMode(target: SystemMode) returns (r: Result<TransitionId, ServiceError>)
      requires Valid()
      modifies modes, Channels()`queue
      ensures Valid() && clients == old(clients)
      ensures
        var step := OnRequestMode(old(View()), target);
        && View() == step.service && Delivered(step.sent)
        && r == if step.result.Ok? then Ok(step.result.value.transition) else Err(step.result.error)
    {
      var id := modes.RequestTransition(target, clients.Keys);
      if id.Err? {
        return Err(Mode(FromManager(id.error)));
      }
      Broadcast(PrepareMode(id.value, target));
      return Ok(id.value);
    }

    /** The periodic health evaluation. */
    method RefreshHealth(now: nat)
      requires Valid()
      modifies this`system, Channels()`queue
      ensures Valid() && clients == old(clients)
      ensures View() == OnRefresh(old(View()), now).service
      ensures Delivered(OnRefresh(old(View()), now).sent)
    {
      var previous := system.health;
      RecalculateHealth(now);
      if previous != system.health {
        BroadcastState();
      }
    }

    /** The report on every known application; the order it is displayed in is not modelled. */
    method Applications(now: nat) returns (report: map<ApplicationId, ApplicationSnapshot>)
      ensures report == Snapshots(View(), now)
    {
      report := map[];
      var unseen := applications.applications.Keys;
      while unseen != {}
        invariant unseen <= applications.applications.Keys
        invariant report.Keys == applications.applications.Keys - unseen
        invariant forall a :: a in report ==> report[a] == SnapshotOf(View(), a, now)
      {
        var a :| a in unseen;
        unseen := unseen - {a};
        var status := applications.applications[a];
        var synchronized := status.connected && status.currentMode == system.mode;
        var base := ApplicationHealth(status, health.heartbeatTimeout, now);
        report := report[a := ApplicationSnapshot(status.health, EffectiveHealth(base, synchronized),
                                                  status.currentMode, status.connected, synchronized,
                                                  Age(now, status.lastHeartbeat))];
      }
    }
  }
}
