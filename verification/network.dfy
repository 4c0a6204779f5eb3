/**
 SAM, its session tasks, and any number of applications that follow `ApplicationRuntime`, joined by
 one FIFO queue in each direction per connection. A step is one locked call on SAM, one turn of a
 session task, or one turn of a client; ends of connections may fail at any step.
 */
module Network {
  import opened Protocol
  import opened ServiceSteps
  import opened Client

  const OUTBOUND_QUEUE_DEPTH: nat := 32

  /** Where SAM's task for a connection stands: awaiting `Register`, serving, about to disconnect, gone. */
  datatype Task = Accepting | Pumping | Closing | Gone

  /** One connection, with the process at its far end. The last five fields are history: nothing in the system reads them. */
  datatype Link = Link(
    application: ApplicationId,
    task: Task,
    connection: Option<ConnectionId>,
    outbound: seq<SamToApplication>,
    wire: seq<SamToApplication>,
    uplink: seq<ApplicationToSam>,
    client: Status,
    /** The mode of the application's handler, as this session has it or left it. */
    mode: SystemMode,
    /** Everything the client has taken off the wire. */
    received: seq<SamToApplication>,
    /** How much SAM had broadcast when the connection was registered. */
    joined: nat,
    /** The transition being committed when the connection was registered, zero if none was. */
    late: nat,
    /** The last transition whose `CommitMode` found the outbound queue full, zero if none did. */
    dropped: nat,
    /** Whether any broadcast found the outbound queue full. */
    overflowed: bool)

  /** The whole system. The last four fields are history. */
  datatype World = World(
    sam: Service,
    links: seq<Link>,
    /** The target of every transition opened so far; transition k is the k-th, counting from one. */
    targets: seq<SystemMode>,
    /** The last transition to have been ordered to commit, zero if none was. */
    lastCommit: nat,
    /** Everything SAM has broadcast. */
    log: seq<SamToApplication>,
    /** How many connections have been registered. */
    registrations: nat)

  datatype Event =
    | Connect(application: ApplicationId, mode: SystemMode)
    | Accept(link: nat, now: nat)
    | Forward(link: nat)
    | ToSam(link: nat, now: nat)
    | TaskGivesUp(link: nat)
    | TaskCloses(link: nat, now: nat)
    | ToClient(link: nat, decision: Decision)
    | Beat(link: nat, health: HealthState)
    | ClientEnds(link: nat, reason: EndReason)
    | RequestChange(target: SystemMode)
    | RefreshTick(now: nat)

  function InitialWorld(timeout: nat): World {
    World(NewService(timeout), [], [], 0, [], 0)
  }

  /** What is still on its way to the client. */
  function Queue(l: Link): seq<SamToApplication> {
    l.wire + l.outbound
  }

  /** Everything ever queued for the client. */
  function Story(l: Link): seq<SamToApplication> {
    l.received + Queue(l)
  }

  /** SAM broadcasts to this link. */
  predicate Routed(clients: map<ApplicationId, ConnectionId>, l: Link) {
    l.connection.Some? && l.application in clients && clients[l.application] == l.connection.value
  }

  predicate HasRoom(l: Link) {
    |l.outbound| < OUTBOUND_QUEUE_DEPTH
  }

  /** `try_send` on the bounded outbound queue, and what its failure leaves in the history. */
  function Push(l: Link, m: SamToApplication): Link {
    l.(outbound := Offered(l.outbound, OUTBOUND_QUEUE_DEPTH, true, m),
       overflowed := l.overflowed || !HasRoom(l),
       dropped := if m.CommitMode? && !HasRoom(l) then m.transitionId else l.dropped)
  }

  function Reach(l: Link, clients: map<ApplicationId, ConnectionId>, sent: Option<SamToApplication>): Link {
    if sent.Some? && Routed(clients, l) then Push(l, sent.value) else l
  }

  function Spread(links: seq<Link>, clients: map<ApplicationId, ConnectionId>, sent: Option<SamToApplication>)
    : (spread: seq<Link>)
    ensures |spread| == |links|
    ensures forall i :: 0 <= i < |links| ==> spread[i] == Reach(links[i], clients, sent)
  {
    seq(|links|, i requires 0 <= i < |links| => Reach(links[i], clients, sent))
  }

  /** The first message of a connection: it must be `Register` in SAM's own protocol version. */
  function Gate(first: ApplicationToSam): Result<ApplicationId, string> {
    if !first.Register? then Err("first message must be Register")
    else if first.protocolVersion != PROTOCOL_VERSION then Err("unsupported protocol version")
    else Ok(first.application)
  }

  predicate Enabled(w: World, e: Event) {
    match e
    case Connect(_, _) => true
    case RequestChange(_) => true
    case RefreshTick(_) => true
    case _ =>
      e.link < |w.links| &&
      var l := w.links[e.link];
      match e
      case Accept(_, _) => l.task == Accepting && l.uplink != []
      case Forward(_) => l.task == Pumping && l.outbound != []
      case ToSam(_, _) => l.task == Pumping && l.uplink != [] && l.connection.Some?
      case TaskGivesUp(_) => l.task == Accepting || l.task == Pumping
      case TaskCloses(_, _) => l.task == Closing && l.connection.Some?
      case ToClient(_, _) => !l.client.Ended? && l.wire != []
      case Beat(_, _) => l.client.Running?
      case ClientEnds(_, reason) => !l.client.Ended? && (reason.ConnectionLost? || reason.RegistrationTimeout?)
  }

  /** The call on SAM that an event amounts to, if any. */
  function CallOf(w: World, e: Event): Option<Call>
    requires Enabled(w, e)
  {
    match e
    case Accept(i, now) =>
      var first := Gate(w.links[i].uplink[0]);
      if first.Ok? then Some(DoRegister(first.value, true, now)) else None
    case ToSam(i, now) =>
      var l := w.links[i];
      Some(DoMessage(l.application, l.connection.value, l.uplink[0], now))
    case TaskCloses(i, now) => Some(DoDisconnect(w.links[i].application, w.links[i].connection.value, now))
    case RequestChange(target) => Some(DoRequestMode(target, 0))
    case RefreshTick(now) => Some(DoRefresh(now))
    case _ => None
  }

  function Registered(w: World, l: Link, out: Outcome): Link
    requires l.uplink != []
  {
    l.(task := Pumping, uplink := l.uplink[1..],
       connection := Some(w.sam.nextConnectionId),
       outbound := [Welcome(out.service)],
       joined := |w.log|,
       late := if w.sam.modes.state.Committing? then |w.targets| else 0)
  }

  function RefusedLink(l: Link, reason: string): Link
    requires l.uplink != []
  {
    l.(task := Gone, uplink := l.uplink[1..], wire := l.wire + [RegisterRejected(PROTOCOL_VERSION, reason)])
  }

  function HeadTaken(l: Link, d: Decision): Link
    requires l.wire != []
  {
    var r := React(l.application, l.client, l.mode, l.wire[0], d);
    l.(wire := l.wire[1..], received := l.received + [l.wire[0]], client := r.status, mode := r.mode,
       uplink := if r.reply.Some? then l.uplink + [r.reply.value] else l.uplink)
  }

  /** An event's own effect on the link it concerns. */
  function Touched(w: World, e: Event): Link
    requires Enabled(w, e) && !e.Connect? && !e.RequestChange? && !e.RefreshTick?
  {
    var l := w.links[e.link];
    match e
    case Accept(_, now) =>
      var first := Gate(l.uplink[0]);
      (match first
       case Ok(a) => Registered(w, l, OnRegister(w.sam, a, true, now))
       case Err(reason) => RefusedLink(l, reason))
    case Forward(_) => l.(wire := l.wire + [l.outbound[0]], outbound := l.outbound[1..])
    case ToSam(_, now) =>
      l.(uplink := l.uplink[1..],
         task := if OnMessage(w.sam, l.application, l.connection.value, l.uplink[0], now).result.Err? then Closing
                 else Pumping)
    case TaskGivesUp(_) => l.(task := if l.task == Accepting then Gone else Closing)
    case TaskCloses(_, _) => l.(task := Gone)
    case ToClient(_, d) => HeadTaken(l, d)
    case Beat(_, health) =>
      l.(uplink := l.uplink + [Heartbeat(l.application, health, l.mode)])
    case ClientEnds(_, reason) => l.(client := Ended(reason))
  }

  /** A session begins in whatever mode its handler is in: an earlier session's, or a restarted process's own. */
  function NewLink(a: ApplicationId, mode: SystemMode): Link {
    Link(a, Accepting, None, [], [], [Register(a, PROTOCOL_VERSION)], Registering, mode, [], 0, 0, 0, false)
  }

  /** The links after an event's own effect, before anything SAM broadcasts because of it. */
  function TouchedLinks(w: World, e: Event): seq<Link>
    requires Enabled(w, e)
  {
    match e
    case Connect(a, mode) => w.links + [NewLink(a, mode)]
    case RequestChange(_) => w.links
    case RefreshTick(_) => w.links
    case _ => w.links[e.link := Touched(w, e)]
  }

  function TargetsAfter(targets: seq<SystemMode>, sent: Option<SamToApplication>): seq<SystemMode> {
    if sent.Some? && sent.value.PrepareMode? then targets + [sent.value.requestedMode] else targets
  }

  function LastCommitAfter(last: nat, sent: Option<SamToApplication>): nat {
    if sent.Some? && sent.value.CommitMode? then sent.value.transitionId else last
  }

  function LogAfter(log: seq<SamToApplication>, sent: Option<SamToApplication>): seq<SamToApplication> {
    if sent.Some? then log + [sent.value] else log
  }

  function Next(w: World, e: Event): World
    requires Enabled(w, e)
  {
    var links := TouchedLinks(w, e);
    match CallOf(w, e)
    case None => w.(links := links)
    case Some(call) =>
      var out := Perform(w.sam, call);
      World(out.service, Spread(links, out.service.clients, out.sent),
            TargetsAfter(w.targets, out.sent), LastCommitAfter(w.lastCommit, out.sent), LogAfter(w.log, out.sent),
            w.registrations + (if call.DoRegister? then 1 else 0))
  }

  /** `worlds` is a run of the system performing `events`. */
  ghost predicate IsWorldRun(worlds: seq<World>, events: seq<Event>) {
    && |worlds| == |events| + 1
    && worlds[0] == InitialWorld(worlds[0].sam.health.heartbeatTimeout)
    && forall i {:trigger events[i]} :: 0 <= i < |events| ==>
         Enabled(worlds[i], events[i]) && worlds[i + 1] == Next(worlds[i], events[i])
  }

  /** Fewer than 2^64 transitions and fewer than 2^64 registrations so far: no id has been reused. */
  ghost predicate Bounded(w: World) {
    |w.targets| < WORD && w.registrations < WORD
  }
}
