/** What SAM answers to each call, in terms of what a caller could have observed before making it. */
module Answers {
  import opened Protocol
  import opened Modes
  import opened ServiceSteps
  import opened Coherence

  /**
   A request is granted exactly when SAM is at rest in another mode with anyone connected, whatever the
   health of the system; otherwise the first of the three obstacles is named.
   */
  lemma RequestsAreGrantedExactly(s: Service, target: SystemMode, now: nat)
    ensures
      var r := Perform(s, DoRequestMode(target, now)).result;
      && (r.Ok? <==> s.modes.state.Stable? && s.modes.state.mode != target && s.clients != map[])
      && (r.Ok? ==> r.value == NewTransition(s.modes.nextTransitionId))
      && (r.Err? ==>
            r.error == Mode(FromManager(
                              if !s.modes.state.Stable? then TransitionInProgress
                              else if s.modes.state.mode == target then AlreadyInMode
                              else NoParticipants)))
  {
    assert s.clients == map[] <==> s.clients.Keys == {};
  }

  /** A confirmation of the active transition that names another mode than its target. */
  predicate MisstatesTarget(s: Service, message: ApplicationToSam) {
    && message.ModeCommitted? && s.modes.state.Committing?
    && message.transitionId == s.modes.state.transitionId && message.mode != s.modes.state.targetMode
  }

  /**
   A message is refused exactly when its connection is not the application's current one, it registers
   again, it speaks for someone else, or it misstates the mode of the active commit, checked in this
   order. Nothing else that an application says, however late, costs it its session.
   */
  lemma MessagesAreRefusedExactly(s: Service, registered: ApplicationId, connection: ConnectionId,
                                  message: ApplicationToSam, now: nat)
    requires Sound(s)
    ensures
      Perform(s, DoMessage(registered, connection, message, now)).result ==
      if !(registered in s.clients && s.clients[registered] == connection) then Err(StaleConnection(registered))
      else if message.Register? then Err(DuplicateRegistration)
      else if message.application != registered then Err(ApplicationMismatch(registered, message.application))
      else if MisstatesTarget(s, message) then Err(Mode(FromManager(WrongCommittedMode)))
      else Ok(Done)
  {
  }

  /** A registration is granted exactly when its reply can be queued; disconnects and refreshes always succeed. */
  lemma OtherCallsSucceed(s: Service, call: Call)
    requires !call.DoMessage? && !call.DoRequestMode?
    ensures
      Perform(s, call).result ==
      if call.DoRegister? then (if call.fits then Ok(NewConnection(s.nextConnectionId)) else Err(StateUnavailable))
      else Ok(Done)
  {
  }
}
