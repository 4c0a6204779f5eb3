/**
 News of the system state: when health is recomputed, what it then is, when it is announced, and that
 everyone who listens knows the state SAM publishes.
 */
module News {
  import opened Protocol
  import opened Health
  import opened ServiceSteps
  import opened Coherence

  /** The message is from the current connection of the application it speaks for. */
  predicate IsGenuine(s: Service, call: Call) {
    && call.DoMessage? && call.registered in s.clients && s.clients[call.registered] == call.connection
    && !call.message.Register? && call.message.application == call.registered
  }

  predicate IsHeartbeat(s: Service, call: Call) {
    IsGenuine(s, call) && call.message.Heartbeat?
  }

  /** The last confirmation SAM waits for. */
  predicate Completes(s: Service, call: Call) {
    && IsGenuine(s, call) && s.modes.state.Committing?
    && call.message == ModeCommitted(call.registered, s.modes.state.transitionId, s.modes.state.targetMode)
    && s.modes.state.waitingFor == {call.registered}
  }

  /** The end of the current connection of its application. */
  predicate IsDeparture(s: Service, call: Call) {
    call.DoDisconnect? && call.application in s.clients && s.clients[call.application] == call.connection
  }

  /** The calls after which SAM publishes a health computed at that instant. */
  predicate Recomputes(s: Service, call: Call) {
    call.DoRegister? || call.DoRefresh? || IsDeparture(s, call) || IsHeartbeat(s, call) || Completes(s, call)
  }

  /**
   The published mode is replaced by the last confirmation alone. The published health is, after every
   call that recomputes it, what the statuses recorded by that call and the mode then published ask for;
   every other call leaves it.
   */
  lemma StateIsComputedExactly(s: Service, call: Call)
    requires Sound(s)
    ensures
      var t := Perform(s, call).service;
      && t.health == s.health
      && t.system.mode == (if Completes(s, call) then s.modes.state.targetMode else s.system.mode)
      && if Recomputes(s, call)
         then IsSystemHealth(t.system.health, t.applications, t.system.mode, s.health.heartbeatTimeout, call.now)
         else t.system.health == s.system.health
  {
    var t := Perform(s, call).service;
    PublishedHealthExactly(t.applications, t.system.mode, s.health.heartbeatTimeout, call.now);
  }

  /**
   SAM announces its state exactly when an application departs, when a transition completes, and when a
   refresh or a heartbeat changes the published health; the announcement is of the state then published.
   */
  lemma StateIsAnnouncedExactly(s: Service, call: Call)
    requires Sound(s)
    ensures
      var sent, t := Perform(s, call).sent, Perform(s, call).service;
      && (sent.Some? && sent.value.StateBroadcast? <==>
            || IsDeparture(s, call)
            || Completes(s, call)
            || ((call.DoRefresh? || IsHeartbeat(s, call)) && t.system.health != s.system.health))
      && (sent.Some? && sent.value.StateBroadcast? ==>
            sent.value == StateBroadcast(t.system.mode, t.system.health))
  {
  }

  // ---------------------------------------------------------------- listeners

  /** What a listener takes the state to be after one more message. */
  function Told(known: SystemState, m: SamToApplication): SystemState {
    if m.StateBroadcast? then SystemState(m.mode, m.health) else known
  }

  function ToldAll(known: SystemState, log: seq<SamToApplication>): SystemState
    decreases |log|
  {
    if log == [] then known else ToldAll(Told(known, log[0]), log[1..])
  }

  lemma OneCallIsTold(s: Service, call: Call)
    requires Sound(s) && !call.DoRegister?
    ensures
      var out := Perform(s, call);
      out.service.system == if out.sent.Some? then Told(s.system, out.sent.value) else s.system
  {
    StateIsComputedExactly(s, call);
    StateIsAnnouncedExactly(s, call);
  }

  /** A listener who knew the state knows it after any calls but registrations. */
  lemma {:induction false} ListenersAreUpToDate(s: Service, calls: seq<Call>)
    requires Sound(s) && forall c :: c in calls ==> !c.DoRegister?
    ensures ToldAll(s.system, Broadcasts(s, calls)) == After(s, calls).system
    decreases |calls|
  {
    if calls != [] {
      var out := Perform(s, calls[0]);
      SoundnessIsKept(s, calls[0]);
      OneCallIsTold(s, calls[0]);
      ListenersAreUpToDate(out.service, calls[1..]);
      var rest := Broadcasts(out.service, calls[1..]);
      if out.sent.Some? {
        assert Broadcasts(s, calls)[0] == out.sent.value && Broadcasts(s, calls)[1..] == rest;
      } else {
        assert Broadcasts(s, calls) == rest;
      }
    }
  }

  /** A registration tells nobody else: it leaves the listeners behind exactly when it changes the published health. */
  lemma RegistrationsAreSilent(s: Service, call: Call)
    requires call.DoRegister?
    ensures Perform(s, call).sent == None
    ensures Perform(s, call).service.system == s.system <==>
            Perform(s, call).service.system.health == s.system.health
  {
  }

  /** Whoever registers is told the state, and is kept up to date through all calls but further registrations. */
  lemma NewcomersAreUpToDate(s: Service, a: ApplicationId, now: nat, calls: seq<Call>)
    requires Sound(s) && forall c :: c in calls ==> !c.DoRegister?
    ensures
      var entered := OnRegister(s, a, true, now).service;
      var welcome := Welcome(entered);
      && welcome.RegisterAccepted? && welcome.protocolVersion == PROTOCOL_VERSION
      && IsSystemHealth(welcome.systemHealth, entered.applications, welcome.currentMode, s.health.heartbeatTimeout, now)
      && ToldAll(SystemState(welcome.currentMode, welcome.systemHealth), Broadcasts(entered, calls)) ==
         After(entered, calls).system
  {
    var call := DoRegister(a, true, now);
    StateIsComputedExactly(s, call);
    SoundnessIsKept(s, call);
    ListenersAreUpToDate(Perform(s, call).service, calls);
  }

  /** In every run, a call other than a registration that changes the published state announces the new one. */
  lemma ChangesAreAnnounced(states: seq<Service>, calls: seq<Call>, i: nat)
    requires IsRun(states, calls) && i < |calls| && !calls[i].DoRegister? && states[i + 1].system != states[i].system
    ensures Perform(states[i], calls[i]).sent ==
            Some(StateBroadcast(states[i + 1].system.mode, states[i + 1].system.health))
  {
    RunsAreSound(states, calls, i);
    assert RunStep(states, calls, i);
    OneCallIsTold(states[i], calls[i]);
    StateIsAnnouncedExactly(states[i], calls[i]);
  }
}
