/** Every call on SAM moves the mode manager in one of seven ways, each with its own broadcast. */
module ManagerMoves {
  import opened Protocol
  import opened Modes
  import opened Registry
  import opened ServiceSteps
  import opened Coherence

  datatype Move =
    | Still
    | Opened
    | Readied(who: ApplicationId)
    | AllReady(who: ApplicationId)
    | Aborted(who: ApplicationId)
    | Confirmed(who: ApplicationId)
    | Completed(who: ApplicationId)

  ghost predicate SpeaksFor(s: Service, call: Call, a: ApplicationId) {
    call.DoMessage? && call.registered == a && Speaks(s, a, call.connection)
  }

  /** The effect of `call` on the manager, the client map and the broadcast is the one named by `mv`. */
  ghost predicate Moves(s: Service, call: Call, mv: Move) {
    var out := Perform(s, call);
    var t := out.service;
    match mv
    case Still =>
      t.modes == s.modes && (out.sent.None? || out.sent.value.StateBroadcast?)
    case Opened =>
      && call.DoRequestMode? && s.modes.state.Stable? && s.modes.state.mode != call.target && s.clients.Keys != {}
      && t.modes == Manager(Preparing(s.modes.nextTransitionId, s.modes.state.mode, call.target, s.clients.Keys, {}),
                            WrappingSucc(s.modes.nextTransitionId))
      && out.sent == Some(PrepareMode(s.modes.nextTransitionId, call.target)) && t.clients == s.clients
    case Readied(a) =>
      && SpeaksFor(s, call, a) && s.modes.state.Preparing? && a in s.modes.state.waitingFor
      && s.modes.state.waitingFor != {a}
      && call.message == ModeReady(a, s.modes.state.transitionId)
      && t.modes == s.modes.(state := s.modes.state.(waitingFor := s.modes.state.waitingFor - {a},
                                                     ready := s.modes.state.ready + {a}))
      && out.sent.None? && t.clients == s.clients && t.applications == s.applications
    case AllReady(a) =>
      && SpeaksFor(s, call, a) && s.modes.state.Preparing? && s.modes.state.waitingFor == {a}
      && call.message == ModeReady(a, s.modes.state.transitionId)
      && var Preparing(id, mode, target, _, ready) := s.modes.state;
         && t.modes == s.modes.(state := Committing(id, mode, target, ready + {a}, {}))
         && out.sent == Some(CommitMode(id, target)) && t.clients == s.clients && t.applications == s.applications
    case Aborted(a) =>
      && SpeaksFor(s, call, a) && s.modes.state.Preparing? && a in Participants(s.modes.state)
      && call.message.ModeRejected? && call.message.application == a
      && call.message.transitionId == s.modes.state.transitionId
      && t.modes == s.modes.(state := Stable(s.modes.state.currentMode))
      && out.sent == Some(AbortMode(s.modes.state.transitionId)) && t.clients == s.clients
      && t.applications == s.applications
    case Confirmed(a) =>
      && SpeaksFor(s, call, a) && s.modes.state.Committing? && a in s.modes.state.waitingFor
      && s.modes.state.waitingFor != {a}
      && call.message == ModeCommitted(a, s.modes.state.transitionId, s.modes.state.targetMode)
      && t.modes == s.modes.(state := s.modes.state.(waitingFor := s.modes.state.waitingFor - {a},
                                                     committed := s.modes.state.committed + {a}))
      && out.sent.None? && t.clients == s.clients
      && t.applications == ModeRecorded(s.applications, a, s.modes.state.targetMode)
    case Completed(a) =>
      && SpeaksFor(s, call, a) && s.modes.state.Committing? && s.modes.state.waitingFor == {a}
      && call.message == ModeCommitted(a, s.modes.state.transitionId, s.modes.state.targetMode)
      && t.modes == s.modes.(state := Stable(s.modes.state.targetMode))
      && out.sent == Some(StateMessage(t)) && t.clients == s.clients
      && t.applications == ModeRecorded(s.applications, a, s.modes.state.targetMode)
      && t.system.mode == s.modes.state.targetMode
  }

  function MoveOf(s: Service, call: Call): Move {
    var st, t := s.modes.state, Perform(s, call).service.modes.state;
    if t == st then Still
    else if st.Stable? then Opened
    else if st.Preparing? then
      if t.Preparing? then Readied(call.registered)
      else if t.Committing? then AllReady(call.registered)
      else Aborted(call.registered)
    else if t.Committing? then Confirmed(call.registered)
    else Completed(call.registered)
  }

  lemma EveryCallMoves(s: Service, call: Call)
    requires Sound(s)
    ensures Moves(s, call, MoveOf(s, call))
  {
    if call.DoMessage? && call.message.ModeReady? && s.modes.state.Preparing? {
      assert call.registered in s.modes.state.waitingFor ==>
          call.registered !in s.modes.state.waitingFor - {call.registered};
    }
    if call.DoMessage? && call.message.ModeCommitted? && s.modes.state.Committing? {
      assert call.registered in s.modes.state.waitingFor ==>
          call.registered !in s.modes.state.waitingFor - {call.registered};
    }
  }
}
