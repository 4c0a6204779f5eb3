/**
 The invariant tying together the four pieces of SAM's state, which calls it survives, and what it
 buys: no call on it is ever half applied, and refused or late messages leave no trace.
 */
module Coherence {
  import opened Protocol
  import opened Modes
  import opened ServiceSteps

  /** Unconditional part: the published mode is the manager's, and every client is registered. */
  ghost predicate Sound(s: Service) {
    && WellFormed(s.modes.state)
    && s.system.mode == CurrentMode(s.modes.state)
    && s.clients.Keys <= s.applications.Keys
  }

  /** An application is marked connected exactly when it has an active connection. */
  ghost predicate PresenceExact(s: Service) {
    forall a :: a in s.applications ==> (s.applications[a].connected <==> a in s.clients)
  }

  ghost predicate Coherent(s: Service) {
    Sound(s) && PresenceExact(s)
  }

  /** A registration that is recorded although its reply, and hence its connection, is lost. */
  predicate LosesReply(s: Service, call: Call) {
    call.DoRegister? && !call.fits && call.application !in s.clients
  }

  lemma SoundnessIsKept(s: Service, call: Call)
    requires Sound(s)
    ensures Sound(Perform(s, call).service)
  {
    match call
    case DoMessage(_, _, message, now) =>
      match message {
        case ModeReady(a, id) => ReadyKeepsPhase(s.modes, a, id);
        case ModeCommitted(a, id, mode) => CommitKeepsPhase(s.modes, a, id, mode);
        case _ =>
      }
    case _ =>
  }

  lemma ReadyKeepsPhase(m: Manager, a: ApplicationId, id: TransitionId)
    requires WellFormed(m.state)
    ensures WellFormed(OnReady(m, a, id).manager.state)
    ensures CurrentMode(OnReady(m, a, id).manager.state) == CurrentMode(m.state)
  {
    if m.state.Preparing? {
      assert m.state.waitingFor - {a} == {} ==> m.state.waitingFor <= {a};
    }
  }

  lemma CommitKeepsPhase(m: Manager, a: ApplicationId, id: TransitionId, mode: SystemMode)
    requires WellFormed(m.state)
    ensures WellFormed(OnCommitted(m, a, id, mode).manager.state)
    ensures
      var reply := OnCommitted(m, a, id, mode);
      if reply.result.Ok? && reply.result.value.Some?
      then reply.manager.state == Stable(mode) && reply.result.value.value == TransitionComplete(id, mode)
      else CurrentMode(reply.manager.state) == CurrentMode(m.state)
  {
    if m.state.Committing? {
      assert m.state.waitingFor - {a} == {} ==> m.state.waitingFor <= {a};
    }
  }

  /** Coherence survives a call exactly unless the call is a first registration whose reply cannot be queued. */
  lemma CoherenceIsKeptExactly(s: Service, call: Call)
    requires Coherent(s)
    ensures Coherent(Perform(s, call).service) <==> !LosesReply(s, call)
  {
    SoundnessIsKept(s, call);
    var t := Perform(s, call).service;
    if LosesReply(s, call) {
      assert t.applications[call.application].connected && call.application !in t.clients;
    }
  }

  lemma {:induction false} RunsAreSound(states: seq<Service>, calls: seq<Call>, i: nat)
    requires IsRun(states, calls) && i <= |calls|
    ensures Sound(states[i])
  {
    if i > 0 {
      RunsAreSound(states, calls, i - 1);
      assert RunStep(states, calls, i - 1);
      SoundnessIsKept(states[i - 1], calls[i - 1]);
    }
  }

  /** Every run in which no first registration loses its reply is coherent throughout. */
  lemma {:induction false} RunsAreCoherent(states: seq<Service>, calls: seq<Call>, i: nat)
    requires IsRun(states, calls) && i <= |calls|
    requires forall k :: 0 <= k < i ==> !LosesReply(states[k], calls[k])
    ensures Coherent(states[i])
  {
    if i > 0 {
      RunsAreCoherent(states, calls, i - 1);
      assert RunStep(states, calls, i - 1);
      CoherenceIsKeptExactly(states[i - 1], calls[i - 1]);
    }
  }

  /** Every failing call but a registration leaves SAM untouched and sends nothing. */
  lemma FailedCallsLeaveNoTrace(s: Service, call: Call)
    requires Sound(s) && Perform(s, call).result.Err? && !call.DoRegister?
    ensures Perform(s, call).service == s && Perform(s, call).sent == None
  {
  }

  /** Once a connection is verified, the registry never refuses the update that follows. */
  lemma RegistryNeverRefuses(s: Service, call: Call)
    requires Sound(s)
    ensures
      var r := Perform(s, call).result;
      !(r.Err? && r.error.Mode? && r.error.failure.FromRegistry?)
  {
  }

  /** The commit point is whole: manager, published mode and the last registry entry move together. */
  lemma CommitPointIsWhole(s: Service, a: ApplicationId, connection: ConnectionId, id: TransitionId, mode: SystemMode,
                           now: nat)
    requires Sound(s)
    requires Speaks(s, a, connection)
    requires OnCommitted(s.modes, a, id, mode).result == Ok(Some(TransitionComplete(id, mode)))
    ensures
      var out := OnMessage(s, a, connection, ModeCommitted(a, id, mode), now);
      && out.result == Ok(Done)
      && out.service.modes.state == Stable(mode) && out.service.system.mode == mode
      && out.service.applications == s.applications[a := s.applications[a].(currentMode := mode)]
      && out.sent == Some(StateBroadcast(mode, out.service.system.health))
  {
  }

  // ---------------------------------------------------------------- ineffective messages

  /**
   A message SAM has no use for: from a displaced connection, a second registration, under another
   application's name, or a mode response that is in the wrong phase, for another transition, from
   a non-participant, a repetition, or names the wrong mode.
   */
  predicate Useless(s: Service, call: Call) {
    call.DoMessage? &&
    (|| !Speaks(s, call.registered, call.connection)
     || call.message.Register?
     || call.message.application != call.registered
     || match call.message
        case ModeReady(a, id) =>
          !(s.modes.state.Preparing? && s.modes.state.transitionId == id && a in s.modes.state.waitingFor)
        case ModeRejected(a, id, _) =>
          !(s.modes.state.Preparing? && s.modes.state.transitionId == id && a in Participants(s.modes.state))
        case ModeCommitted(a, id, mode) =>
          !(s.modes.state.Committing? && s.modes.state.transitionId == id && a in s.modes.state.waitingFor
            && mode == s.modes.state.targetMode)
        case _ => false)
  }

  /** The useless messages are the failing ones and the mode responses that do not move the manager. */
  lemma UselessExactly(s: Service, call: Call)
    requires Sound(s) && call.DoMessage?
    ensures Useless(s, call) <==>
            Perform(s, call).result.Err? || (!call.message.Heartbeat? && Perform(s, call).service.modes == s.modes)
    ensures Useless(s, call) ==> Perform(s, call).service == s && Perform(s, call).sent == None
  {
    if call.message.ModeReady? && s.modes.state.Preparing? {
      var a, waiting := call.message.application, s.modes.state.waitingFor;
      assert a in waiting ==> a !in waiting - {a};
    }
    if call.message.ModeCommitted? && s.modes.state.Committing? {
      var a, waiting := call.message.application, s.modes.state.waitingFor;
      assert a in waiting ==> a !in waiting - {a};
    }
  }

  /** `calls` without the messages that are useless when they arrive. */
  function Useful(s: Service, calls: seq<Call>): seq<Call>
    decreases |calls|
  {
    if calls == [] then []
    else if Useless(s, calls[0]) then Useful(s, calls[1..])
    else [calls[0]] + Useful(Perform(s, calls[0]).service, calls[1..])
  }

  /** One message and the connections whose queues it is offered to. */
  datatype Mailing = Mailing(recipients: map<ApplicationId, ConnectionId>, message: SamToApplication)

  /** What a call puts on queues: the welcome of a new connection, or a broadcast to every client. */
  function MailingsOf(s: Service, call: Call): seq<Mailing> {
    var out := Perform(s, call);
    if call.DoRegister? && call.fits then
      [Mailing(map[call.application := s.nextConnectionId], Welcome(out.service))]
    else if out.sent.Some? then [Mailing(out.service.clients, out.sent.value)]
    else []
  }

  /** Everything put on queues while performing `calls` from `s`, in order; it determines every queue's contents. */
  function Mailings(s: Service, calls: seq<Call>): seq<Mailing>
    decreases |calls|
  {
    if calls == [] then [] else MailingsOf(s, calls[0]) + Mailings(Perform(s, calls[0]).service, calls[1..])
  }

  /**
   Useless messages are invisible: without them the state reached is the same, and so is everything
   broadcast and everything any connection's queue is offered.
   */
  lemma {:induction false} UselessMessagesAreInvisible(s: Service, calls: seq<Call>)
    requires Sound(s)
    ensures After(s, Useful(s, calls)) == After(s, calls)
    ensures Broadcasts(s, Useful(s, calls)) == Broadcasts(s, calls)
    ensures Mailings(s, Useful(s, calls)) == Mailings(s, calls)
    decreases |calls|
  {
    if calls != [] {
      var call, rest := calls[0], calls[1..];
      var next := Perform(s, call).service;
      SoundnessIsKept(s, call);
      UselessMessagesAreInvisible(next, rest);
      if Useless(s, call) {
        UselessExactly(s, call);
      } else {
        assert Useful(s, calls)[1..] == Useful(next, rest);
      }
    }
  }
}
