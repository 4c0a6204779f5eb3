/** SAM's task for one connection: the registration gate, the session loop, and the disconnect that always follows. */
module Server {
  import opened Protocol
  import opened ServiceSteps
  import opened SamServices
  import opened Network

  /**
   What the session loop wakes up for: a queued message to write, a message received, the peer gone,
   the stream broken, or nothing of its own, while another task performs `call` on SAM.
   */
  datatype Wake =
    | Outgoing
    | Incoming(message: ApplicationToSam, now: nat)
    | PeerGone
    | Broken
    | Elsewhere(call: Call)

  /** A session under way: SAM, what is queued and what is written, and whether SAM still holds the queue's sender. */
  datatype Pump = Pump(sam: Service, queue: seq<SamToApplication>, written: seq<SamToApplication>, attached: bool)

  /** `call` leaves the connection that `a` speaks through in place. */
  predicate Keeps(s: Service, call: Call, a: ApplicationId) {
    && !(call.DoRegister? && call.fits && call.application == a)
    && !(call.DoDisconnect? && call.application == a && Speaks(s, a, call.connection))
  }

  /** The session after a call on SAM, its own or another's. */
  function AfterCall(p: Pump, a: ApplicationId, call: Call): Pump {
    var out, attached := Perform(p.sam, call), p.attached && Keeps(p.sam, call, a);
    Pump(out.service,
         if attached && out.sent.Some? then Offered(p.queue, OUTBOUND_QUEUE_DEPTH, true, out.sent.value) else p.queue,
         p.written, attached)
  }

  function Woken(p: Pump, a: ApplicationId, connection: ConnectionId, wake: Wake): Pump {
    match wake
    case Outgoing => if p.queue == [] then p else p.(queue := p.queue[1..], written := p.written + [p.queue[0]])
    case Incoming(message, now) => AfterCall(p, a, DoMessage(a, connection, message, now))
    case Elsewhere(call) => AfterCall(p, a, call)
    case _ => p
  }

  /** The loop ends with `wake`: nothing queued and nobody left to queue more, the call refused, or the stream gone. */
  predicate EndsSession(p: Pump, a: ApplicationId, connection: ConnectionId, wake: Wake) {
    match wake
    case Outgoing => p.queue == [] && !p.attached
    case Incoming(message, now) => OnMessage(p.sam, a, connection, message, now).result.Err?
    case Elsewhere(_) => false
    case _ => true
  }

  function WokenBy(p: Pump, a: ApplicationId, connection: ConnectionId, wakes: seq<Wake>): Pump
    decreases |wakes|
  {
    if wakes == [] then p
    else Woken(WokenBy(p, a, connection, wakes[..|wakes| - 1]), a, connection, wakes[|wakes| - 1])
  }

  /** None of the first `n` wakes ends the session. */
  predicate GoesOn(p: Pump, a: ApplicationId, connection: ConnectionId, wakes: seq<Wake>, n: nat)
    requires n <= |wakes|
  {
    forall k :: 0 <= k < n ==> !EndsSession(WokenBy(p, a, connection, wakes[..k]), a, connection, wakes[k])
  }

  /** Wake `k` ends the session. */
  predicate EndsAt(p: Pump, a: ApplicationId, connection: ConnectionId, wakes: seq<Wake>, k: nat)
    requires k < |wakes|
  {
    EndsSession(WokenBy(p, a, connection, wakes[..k]), a, connection, wakes[k])
  }

  /** The loop takes the first `taken` wakes: up to and including the first that ends it, or all if none does. */
  predicate Takes(p: Pump, a: ApplicationId, connection: ConnectionId, wakes: seq<Wake>, taken: nat) {
    && taken <= |wakes|
    && if taken > 0 && EndsAt(p, a, connection, wakes, taken - 1) then GoesOn(p, a, connection, wakes, taken - 1)
       else taken == |wakes| && GoesOn(p, a, connection, wakes, taken)
  }

  /** The loop has taken `k` wakes, come to `q`, and is over or not. */
  predicate LoopAt(p: Pump, a: ApplicationId, connection: ConnectionId, wakes: seq<Wake>, k: nat, over: bool, q: Pump) {
    && k <= |wakes| && q == WokenBy(p, a, connection, wakes[..k])
    && if over then k > 0 && EndsAt(p, a, connection, wakes, k - 1) && GoesOn(p, a, connection, wakes, k - 1)
       else GoesOn(p, a, connection, wakes, k)
  }

  lemma LoopTurns(p: Pump, a: ApplicationId, connection: ConnectionId, wakes: seq<Wake>, k: nat, q: Pump)
    requires LoopAt(p, a, connection, wakes, k, false, q) && k < |wakes|
    ensures LoopAt(p, a, connection, wakes, k + 1, EndsSession(q, a, connection, wakes[k]),
                   Woken(q, a, connection, wakes[k]))
  {
    assert wakes[..k + 1][..k] == wakes[..k];
  }

  lemma LoopStops(p: Pump, a: ApplicationId, connection: ConnectionId, wakes: seq<Wake>, k: nat, over: bool, q: Pump)
    requires LoopAt(p, a, connection, wakes, k, over, q) && (over || k == |wakes|)
    ensures Takes(p, a, connection, wakes, k) && q == WokenBy(p, a, connection, wakes[..k])
  {
  }

  /** The call on SAM that a wake stands for, if any. */
  function CallsOn(a: ApplicationId, connection: ConnectionId, wake: Wake): seq<Call> {
    match wake
    case Incoming(message, now) => [DoMessage(a, connection, message, now)]
    case Elsewhere(call) => [call]
    case _ => []
  }

  function CallsDuring(a: ApplicationId, connection: ConnectionId, wakes: seq<Wake>): seq<Call>
    decreases |wakes|
  {
    if wakes == [] then []
    else CallsDuring(a, connection, wakes[..|wakes| - 1]) + CallsOn(a, connection, wakes[|wakes| - 1])
  }

  lemma OneWake(p: Pump, a: ApplicationId, connection: ConnectionId, wake: Wake)
    ensures
      var q := Woken(p, a, connection, wake);
      q.sam == After(p.sam, CallsOn(a, connection, wake)) && p.written + p.queue <= q.written + q.queue
  {
    if wake.Incoming? || wake.Elsewhere? {
      var call := CallsOn(a, connection, wake)[0];
      assert [call][1..] == [];
      QueueOnlyGrows(p, a, call);
    } else if wake.Outgoing? && p.queue != [] {
      assert p.queue == [p.queue[0]] + p.queue[1..];
      assert (p.written + [p.queue[0]]) + p.queue[1..] == p.written + p.queue;
    }
  }

  /**
   To SAM a session is the calls made during it; to its client it is a queue: what was written and is
   still queued only grows at its end.
   */
  lemma {:induction false} SessionIsCallsAndAQueue(p: Pump, a: ApplicationId, connection: ConnectionId, wakes: seq<Wake>)
    ensures
      var q := WokenBy(p, a, connection, wakes);
      q.sam == After(p.sam, CallsDuring(a, connection, wakes)) && p.written + p.queue <= q.written + q.queue
    decreases |wakes|
  {
    if wakes != [] {
      var front, last := wakes[..|wakes| - 1], wakes[|wakes| - 1];
      SessionIsCallsAndAQueue(p, a, connection, front);
      OneWake(WokenBy(p, a, connection, front), a, connection, last);
      CallsCompose(p.sam, CallsDuring(a, connection, front), CallsOn(a, connection, last));
    }
  }

  /** Whatever a session writes starts with what was queued first. */
  lemma FirstQueuedFirstWritten(p: Pump, a: ApplicationId, connection: ConnectionId, wakes: seq<Wake>)
    requires p.written == [] && p.queue != []
    ensures
      var q := WokenBy(p, a, connection, wakes);
      q.written != [] ==> q.written[0] == p.queue[0]
  {
    SessionIsCallsAndAQueue(p, a, connection, wakes);
    var q := WokenBy(p, a, connection, wakes);
    assert p.written + p.queue == p.queue;
    assert q.written != [] ==> q.written[0] == (q.written + q.queue)[0];
  }

  lemma ClosingSilences(s: Service, a: ApplicationId, connection: ConnectionId, now: nat)
    ensures !Speaks(OnDisconnect(s, a, connection, now).service, a, connection)
  {
  }

  lemma QueueOnlyGrows(p: Pump, a: ApplicationId, call: Call)
    ensures AfterCall(p, a, call).written == p.written
    ensures p.written + p.queue <= p.written + AfterCall(p, a, call).queue
  {
  }

  // ---------------------------------------------------------------- sessions write what is queued

  /** How many turns to write find something queued. */
  function Writes(p: Pump, a: ApplicationId, connection: ConnectionId, wakes: seq<Wake>): nat
    decreases |wakes|
  {
    if wakes == [] then 0
    else
      var front, last := wakes[..|wakes| - 1], wakes[|wakes| - 1];
      Writes(p, a, connection, front) +
      (if last.Outgoing? && WokenBy(p, a, connection, front).queue != [] then 1 else 0)
  }

  /** Each turn to write that finds something queued writes one message, and no other turn writes any. */
  lemma {:induction false} WritesAreCounted(p: Pump, a: ApplicationId, connection: ConnectionId, wakes: seq<Wake>)
    ensures
      var q := WokenBy(p, a, connection, wakes);
      p.written <= q.written && |q.written| == |p.written| + Writes(p, a, connection, wakes)
    decreases |wakes|
  {
    if wakes != [] {
      WritesAreCounted(p, a, connection, wakes[..|wakes| - 1]);
    }
  }

  function Outgoings(n: nat): seq<Wake> {
    seq(n, _ => Outgoing)
  }

  /** With no call in between, n turns to write write exactly the first n messages queued. */
  lemma {:induction false} QueuesAreDrained(p: Pump, a: ApplicationId, connection: ConnectionId, n: nat)
    requires n <= |p.queue|
    ensures WokenBy(p, a, connection, Outgoings(n)) == p.(queue := p.queue[n..], written := p.written + p.queue[..n])
  {
    if n == 0 {
      assert p.written + [] == p.written;
    } else {
      assert Outgoings(n)[..n - 1] == Outgoings(n - 1);
      QueuesAreDrained(p, a, connection, n - 1);
      assert p.queue[..n] == p.queue[..n - 1] + [p.queue[n - 1]];
      assert p.queue[n - 1..][1..] == p.queue[n..] && p.queue[n - 1..][0] == p.queue[n - 1];
    }
  }

  lemma {:induction false} WokenByComposes(p: Pump, a: ApplicationId, connection: ConnectionId, front: seq<Wake>,
                                           back: seq<Wake>)
    ensures WokenBy(p, a, connection, front + back) == WokenBy(WokenBy(p, a, connection, front), a, connection, back)
    decreases |back|
  {
    if back == [] {
      assert front + back == front;
    } else {
      var shorter := back[..|back| - 1];
      assert (front + back)[..|front + back| - 1] == front + shorter;
      WokenByComposes(p, a, connection, front, shorter);
    }
  }

  /** A session whose first turn is to write writes what was queued first. */
  lemma FirstTurnWrites(p: Pump, a: ApplicationId, connection: ConnectionId, wakes: seq<Wake>, taken: nat)
    requires p.queue != [] && p.written == [] && wakes != [] && wakes[0].Outgoing?
    requires Takes(p, a, connection, wakes, taken)
    ensures
      var q := WokenBy(p, a, connection, wakes[..taken]);
      q.written != [] && q.written[0] == p.queue[0]
  {
    var first := wakes[..1];
    assert first[..0] == [];
    assert taken > 0;
    assert wakes[..taken] == first + wakes[1..taken];
    WokenByComposes(p, a, connection, first, wakes[1..taken]);
    WritesAreCounted(WokenBy(p, a, connection, first), a, connection, wakes[1..taken]);
    FirstQueuedFirstWritten(p, a, connection, wakes[..taken]);
  }

  /** A session whose sender is gone writes all that is queued, and ends at its first turn to find nothing. */
  lemma OrphanedSessionsDrainAndEnd(p: Pump, a: ApplicationId, connection: ConnectionId, n: nat)
    requires !p.attached && n > |p.queue|
    ensures Takes(p, a, connection, Outgoings(n), |p.queue| + 1)
    ensures
      var q := WokenBy(p, a, connection, Outgoings(n)[..|p.queue| + 1]);
      q.queue == [] && q.written == p.written + p.queue
  {
    var wakes, m := Outgoings(n), |p.queue|;
    forall k | 0 <= k <= m
      ensures WokenBy(p, a, connection, wakes[..k]) ==
              p.(queue := p.queue[k..], written := p.written + p.queue[..k])
    {
      assert wakes[..k] == Outgoings(k);
      QueuesAreDrained(p, a, connection, k);
    }
    assert wakes[..m + 1][..m] == wakes[..m] && p.queue[..m] == p.queue;
  }

  lemma {:induction false} WritingKeepsSender(p: Pump, a: ApplicationId, connection: ConnectionId, n: nat)
    ensures WokenBy(p, a, connection, Outgoings(n)).attached == p.attached
  {
    if n > 0 {
      assert Outgoings(n)[..n - 1] == Outgoings(n - 1);
      WritingKeepsSender(p, a, connection, n - 1);
    }
  }

  /** A session SAM still broadcasts to waits for more, however often it finds nothing queued. */
  lemma AttachedSessionsWait(p: Pump, a: ApplicationId, connection: ConnectionId, n: nat)
    requires p.attached
    ensures GoesOn(p, a, connection, Outgoings(n), n)
  {
    forall k | 0 <= k < n
      ensures !EndsSession(WokenBy(p, a, connection, Outgoings(n)[..k]), a, connection, Outgoings(n)[k])
    {
      assert Outgoings(n)[..k] == Outgoings(k);
      WritingKeepsSender(p, a, connection, k);
    }
  }

  /** Another registration of the application, or the end of its connection, orphans the session. */
  lemma DisplacementOrphans(p: Pump, a: ApplicationId, connection: ConnectionId, call: Call)
    requires
      || (call.DoRegister? && call.fits && call.application == a)
      || (call.DoDisconnect? && call.application == a && a in p.sam.clients && p.sam.clients[a] == call.connection)
    ensures
      var q := Woken(p, a, connection, Elsewhere(call));
      !q.attached && q.queue == p.queue && q.written == p.written
  {
  }

  /** A session takes nothing after the peer is gone, the stream broken, or one of its messages refused. */
  lemma EndingTurnsAreLast(p: Pump, a: ApplicationId, connection: ConnectionId, wakes: seq<Wake>, taken: nat, k: nat)
    requires Takes(p, a, connection, wakes, taken) && k < |wakes|
    requires
      || wakes[k].PeerGone? || wakes[k].Broken?
      || (wakes[k].Incoming? &&
          Perform(WokenBy(p, a, connection, wakes[..k]).sam,
                  DoMessage(a, connection, wakes[k].message, wakes[k].now)).result.Err?)
    ensures taken <= k + 1
  {
    assert EndsSession(WokenBy(p, a, connection, wakes[..k]), a, connection, wakes[k]);
  }

  // ---------------------------------------------------------------- the task itself

  /** SAM would broadcast to `outbound`, and does so as the queue of `a`. */
  ghost predicate Attached(service: SamService, outbound: Channel, a: ApplicationId)
    reads service
  {
    a in service.clients && service.clients[a].outbound == outbound
  }

  /** The objects of a session are in the state `p` describes. */
  ghost predicate Shows(service: SamService, outbound: Channel, a: ApplicationId, p: Pump)
    reads service, service.applications, service.modes, outbound
  {
    && service.Valid() && service.View() == p.sam
    && outbound.queue == p.queue && outbound.capacity == OUTBOUND_QUEUE_DEPTH && outbound.open
    && (p.attached <==> Attached(service, outbound, a))
    && (outbound in service.Channels() ==> p.attached)
  }

  /** Some other connection registers. */
  method RegisterElsewhere(service: SamService, outbound: Channel, a: ApplicationId, application: ApplicationId,
                           fits: bool, now: nat, ghost p: Pump)
    requires Shows(service, outbound, a, p)
    modifies service, service.applications, service.modes
    ensures Shows(service, outbound, a, AfterCall(p, a, DoRegister(application, fits, now)))
    ensures forall c :: c in service.Channels() ==> c in old(service.Channels()) || fresh(c)
  {
    var channel := new Channel(if fits then OUTBOUND_QUEUE_DEPTH else 0);
    var r := service.Register(application, channel, now);
  }

  /** Performs a call made by some other task. */
  method PerformElsewhere(service: SamService, outbound: Channel, a: ApplicationId, call: Call, ghost p: Pump)
    requires Shows(service, outbound, a, p)
    modifies service, service.applications, service.modes, service.Channels()`queue
    ensures Shows(service, outbound, a, AfterCall(p, a, call))
    ensures forall c :: c in service.Channels() ==> c in old(service.Channels()) || fresh(c)
  {
    match call {
      case DoRegister(application, fits, now) =>
        RegisterElsewhere(service, outbound, a, application, fits, now, p);
      case DoDisconnect(application, connection, now) => service.Disconnect(application, connection, now);
      case DoMessage(registered, connection, message, now) =>
        var r := service.HandleMessage(registered, connection, message, now);
      case DoRequestMode(target, _) =>
        var r := service.RequestMode(target);
      case DoRefresh(now) => service.RefreshHealth(now);
    }
  }

  /** One turn of the loop; `over` when it is the last. */
  method TakeTurn(service: SamService, outbound: Channel, a: ApplicationId, connection: ConnectionId, wake: Wake,
                  written: seq<SamToApplication>, ghost p: Pump)
    returns (over: bool, now: seq<SamToApplication>)
    requires Shows(service, outbound, a, p) && written == p.written
    modifies service, service.applications, service.modes, service.Channels()`queue, outbound`queue
    ensures Shows(service, outbound, a, Woken(p, a, connection, wake)) && now == Woken(p, a, connection, wake).written
    ensures forall c :: c in service.Channels() ==> c in old(service.Channels()) || fresh(c)
    ensures over <==> EndsSession(p, a, connection, wake)
  {
    over, now := false, written;
    match wake {
      case Outgoing =>
        if outbound.queue != [] {
          now := written + [outbound.queue[0]];
          outbound.queue := outbound.queue[1..];
        } else {
          over := !(a in service.clients && service.clients[a].outbound == outbound);
        }
      case Incoming(message, at) =>
        var handled := service.HandleMessage(a, connection, message, at);
        over := handled.Err?;
      case PeerGone => over := true;
      case Broken => over := true;
      case Elsewhere(call) => PerformElsewhere(service, outbound, a, call, p);
    }
  }

  /** The session loop: turns are taken until one ends the session. */
  method RunRegisteredSession(service: SamService, outbound: Channel, a: ApplicationId, connection: ConnectionId,
                              wakes: seq<Wake>, ghost p: Pump)
    returns (written: seq<SamToApplication>, ghost taken: nat)
    requires Shows(service, outbound, a, p) && p.written == []
    modifies service, service.applications, service.modes, service.Channels()`queue, outbound`queue
    ensures Takes(p, a, connection, wakes, taken)
    ensures
      var q := WokenBy(p, a, connection, wakes[..taken]);
      Shows(service, outbound, a, q) && written == q.written
    ensures forall c :: c in service.Channels() ==> c in old(service.Channels()) || fresh(c)
  {
    written := [];
    var k, over := 0, false;
    ghost var q := p;
    while k < |wakes| && !over
      invariant LoopAt(p, a, connection, wakes, k, over, q)
      invariant Shows(service, outbound, a, q) && written == q.written
      invariant forall c :: c in service.Channels() ==> c in old(service.Channels()) || fresh(c)
    {
      LoopTurns(p, a, connection, wakes, k, q);
      over, written := TakeTurn(service, outbound, a, connection, wakes[k], written, q);
      q := Woken(q, a, connection, wakes[k]);
      k := k + 1;
    }
    taken := k;
    LoopStops(p, a, connection, wakes, k, over, q);
  }

  /** What a session of `a` starts from: just registered, its welcome queued, nothing written. */
  function Opening(s: Service, a: ApplicationId, now: nat): Pump {
    var entered := OnRegister(s, a, true, now).service;
    Pump(entered, [Welcome(entered)], [], true)
  }

  method OpenSession(service: SamService, a: ApplicationId, now: nat) returns (outbound: Channel, id: ConnectionId)
    requires service.Valid()
    modifies service, service.applications, service.modes
    ensures fresh(outbound) && id == old(service.View()).nextConnectionId
    ensures Shows(service, outbound, a, Opening(old(service.View()), a, now))
    ensures forall c :: c in service.Channels() ==> c in old(service.Channels()) || fresh(c)
  {
    outbound := new Channel(OUTBOUND_QUEUE_DEPTH);
    var registered := service.Register(a, outbound, now);
    id := registered.value;
  }

  /**
   Serves one connection from its first message on. A first message that is not a registration in
   SAM's protocol version is refused without touching SAM. Otherwise the session is pumped from its
   welcome up to the turn that ends it and, however it ended, the connection is closed, after which it
   no longer speaks for the application.
   */
  method ServeConnection(service: SamService, first: ApplicationToSam, wakes: seq<Wake>, openedAt: nat, closedAt: nat)
    returns (written: seq<SamToApplication>, ghost taken: nat)
    requires service.Valid()
    modifies service, service.applications, service.modes, service.Channels()`queue
    ensures service.Valid()
    ensures
      if !(first.Register? && first.protocolVersion == PROTOCOL_VERSION) then
        && service.View() == old(service.View()) && taken == 0
        && written == [RegisterRejected(PROTOCOL_VERSION, if first.Register? then "unsupported protocol version"
                                                          else "first message must be Register")]
      else
        var a := first.application;
        var id := old(service.View()).nextConnectionId;
        var start := Opening(old(service.View()), a, openedAt);
        var left := WokenBy(start, a, id, wakes[..if taken <= |wakes| then taken else 0]);
        && Takes(start, a, id, wakes, taken)
        && service.View() == OnDisconnect(left.sam, a, id, closedAt).service
        && !Speaks(service.View(), a, id)
        && written == left.written && (written != [] ==> written[0] == start.queue[0])
        && (wakes != [] && wakes[0].Outgoing? ==> written != [])
  {
    taken, written := 0, [];
    var gate := Gate(first);
    if gate.Err? {
      written := [RegisterRejected(PROTOCOL_VERSION, gate.error)];
      return;
    }
    var a := gate.value;
    ghost var start := Opening(service.View(), a, openedAt);
    var outbound, id := OpenSession(service, a, openedAt);
    written, taken := RunRegisteredSession(service, outbound, a, id, wakes, start);
    FirstQueuedFirstWritten(start, a, id, wakes[..taken]);
    if wakes != [] && wakes[0].Outgoing? {
      FirstTurnWrites(start, a, id, wakes, taken);
    }
    ClosingSilences(service.View(), a, id, closedAt);
    service.Disconnect(a, id, closedAt);
  }
}
