/**
 Committed means applied: when a transition completes, every participant reached through a
 connection older than the commit order runs in the new mode, and the registry says so. This rests
 on heartbeats and confirmations sharing one FIFO uplink, and holds whatever was lost on the way down.
 */
module Applied {
  import opened Protocol
  import opened Modes
  import opened Registry
  import opened ServiceSteps
  import opened Coherence
  import opened ManagerMoves
  import opened Network
  import opened NetworkInvariant
  import Agreement

  predicate HeartbeatsSay(uplink: seq<ApplicationToSam>, mode: SystemMode) {
    forall m :: m in uplink && m.Heartbeat? ==> m.currentMode == mode
  }

  /** Every heartbeat behind `confirmation` in the uplink reports `mode`. */
  predicate SettledAfter(uplink: seq<ApplicationToSam>, confirmation: ApplicationToSam, mode: SystemMode) {
    forall p, q :: 0 <= p < q < |uplink| && uplink[p] == confirmation && uplink[q].Heartbeat? ==>
      uplink[q].currentMode == mode
  }

  /** The application's confirmation of the active commit has been sent on this link, or already counted. */
  predicate HasConfirmed(st: ModeManagerState, l: Link)
    requires st.Committing?
  {
    || ModeCommitted(l.application, st.transitionId, st.targetMode) in l.uplink
    || HasCounted(st, l)
  }

  predicate HasCounted(st: ModeManagerState, l: Link)
    requires st.Committing?
  {
    l.application in st.committed && l.late != st.transitionId
  }

  /** What a confirmation guarantees about the handler's mode, the messages behind it, and the registry. */
  ghost predicate AppliedLink(st: ModeManagerState, statuses: Statuses, l: Link) {
    st.Committing? ==>
      && (HasConfirmed(st, l) ==>
            CommitMode(st.transitionId, st.targetMode) in l.received && l.mode == st.targetMode)
      && (HasCounted(st, l) ==>
            && HeartbeatsSay(l.uplink, st.targetMode)
            && l.application in statuses && statuses[l.application].currentMode == st.targetMode)
      && SettledAfter(l.uplink, ModeCommitted(l.application, st.transitionId, st.targetMode), st.targetMode)
  }

  ghost predicate AppliedAt(w: World, i: nat)
    requires i < |w.links|
  {
    Routed(w.sam.clients, w.links[i]) ==> AppliedLink(w.sam.modes.state, w.sam.applications, w.links[i])
  }

  ghost predicate AllApplied(w: World) {
    forall i :: 0 <= i < |w.links| ==> AppliedAt(w, i)
  }

  lemma ReachKeepsApplied(st: ModeManagerState, statuses: Statuses, l: Link,
                          clients: map<ApplicationId, ConnectionId>, sent: Option<SamToApplication>)
    requires AppliedLink(st, statuses, l)
    ensures AppliedLink(st, statuses, Reach(l, clients, sent))
  {
  }

  /** Before a commit is ordered nobody can have confirmed it. */
  lemma NobodyConfirmedYet(l: Link, targets: seq<SystemMode>, registrations: nat, id: TransitionId, target: SystemMode)
    requires LinkOk(l, targets, true, registrations) && id == |targets| && l.connection.Some?
    ensures ModeCommitted(l.application, id, target) !in l.uplink
  {
    if ModeCommitted(l.application, id, target) in l.uplink {
      assert SaidOk(l, ModeCommitted(l.application, id, target));
      OrderInStory(l, CommitMode(id, target), targets, true, registrations);
    }
  }

  /** Once the active commit has been received, no further commit is on its way. */
  lemma NoLaterCommit(l: Link, targets: seq<SystemMode>, registrations: nat, target: SystemMode)
    requires LinkOk(l, targets, false, registrations) && l.wire != []
    requires |targets| < WORD && CommitMode(|targets|, target) in l.received
    ensures !l.wire[0].CommitMode? && !l.wire[0].RegisterAccepted?
  {
    HeadOfStory(l, targets, false, registrations);
    var p :| 0 <= p < |l.received| && l.received[p] == CommitMode(|targets|, target);
    assert Story(l)[p] == CommitMode(|targets|, target) && Story(l)[|l.received|] == l.wire[0];
    assert InOrder(Story(l)[p], Story(l)[|l.received|]);
  }

  // ---------------------------------------------------------------- events of the link itself

  lemma AcceptApplies(w: World, e: Event, i: nat)
    requires Structure(w) && AllApplied(w) && Enabled(w, e) && e.Accept? && Bounded(Next(w, e)) && i < |w.links|
    ensures AppliedAt(Next(w, e), i)
  {
    AcceptShape(w, e);
    RoutingAfterAccept(w, e, i);
    assert AppliedAt(w, i) && LinkOk(w.links[i], w.targets, w.sam.modes.state.Preparing?, w.registrations);
    assert w.links[e.link].uplink == [Register(w.links[e.link].application, PROTOCOL_VERSION)] by {
      assert LinkOk(w.links[e.link], w.targets, w.sam.modes.state.Preparing?, w.registrations);
    }
  }

  lemma DeliveryApplies(w: World, e: Event, i: nat)
    requires Structure(w) && Bounded(w) && AllApplied(w) && Enabled(w, e) && e.ToClient? && i < |w.links|
    ensures AppliedAt(Next(w, e), i)
  {
    var l, st := w.links[i], w.sam.modes.state;
    assert AppliedAt(w, i) && LinkOk(l, w.targets, st.Preparing?, w.registrations);
    if i == e.link && Routed(w.sam.clients, l) && st.Committing? {
      HeadOfStory(l, w.targets, false, w.registrations);
      if HasConfirmed(st, l) {
        NoLaterCommit(l, w.targets, w.registrations, st.targetMode);
      }
    }
  }

  lemma BeatApplies(w: World, e: Event, i: nat)
    requires Structure(w) && AllApplied(w) && Enabled(w, e) && e.Beat? && i < |w.links|
    ensures AppliedAt(Next(w, e), i)
  {
    assert AppliedAt(w, i);
    var st := w.sam.modes.state;
    if i == e.link && st.Committing? {
      var l, l' := w.links[i], Next(w, e).links[i];
      assert l'.uplink[..|l.uplink|] == l.uplink;
    }
  }

  // ---------------------------------------------------------------- calls on SAM

  /** A routed link that did not speak keeps its guarantees across another's message. */
  lemma BystanderApplies(s: Service, call: Call, l: Link, targets: seq<SystemMode>, registrations: nat)
    requires Sound(s) && !call.DoRegister?
    requires l.connection.Some? && LinkOk(l, targets, s.modes.state.Preparing?, registrations)
    requires s.modes.state.Preparing? ==> s.modes.state.transitionId == |targets|
    requires AppliedLink(s.modes.state, s.applications, l)
    requires call.DoMessage? ==> call.registered != l.application || !Speaks(s, call.registered, call.connection)
    ensures AppliedLink(Perform(s, call).service.modes.state, Perform(s, call).service.applications, l)
  {
    var t := Perform(s, call).service;
    EveryCallMoves(s, call);
    if MoveOf(s, call).AllReady? {
      NobodyConfirmedYet(l, targets, registrations, s.modes.state.transitionId, s.modes.state.targetMode);
    }
  }

  /** The uplink without its first message. */
  lemma TailKeepsGuarantees(uplink: seq<ApplicationToSam>, confirmation: ApplicationToSam, mode: SystemMode)
    requires uplink != [] && SettledAfter(uplink, confirmation, mode)
    ensures SettledAfter(uplink[1..], confirmation, mode)
    ensures uplink[0] == confirmation ==> HeartbeatsSay(uplink[1..], mode)
    ensures HeartbeatsSay(uplink, mode) ==> HeartbeatsSay(uplink[1..], mode)
    ensures confirmation in uplink[1..] ==> confirmation in uplink
  {
    var tail := uplink[1..];
    forall p, q | 0 <= p < q < |tail| && tail[p] == confirmation && tail[q].Heartbeat?
      ensures tail[q].currentMode == mode
    {
      assert uplink[p + 1] == confirmation && uplink[q + 1] == tail[q];
    }
    forall m | m in tail && m.Heartbeat?
      ensures m in uplink
      ensures uplink[0] == confirmation ==> m.currentMode == mode
    {
      var q :| 0 <= q < |tail| && tail[q] == m;
      assert uplink[q + 1] == m;
    }
  }

  /** The speaking link itself: its message leaves the uplink and takes effect. */
  lemma SpeakerApplies(s: Service, call: Call, l: Link, l': Link, targets: seq<SystemMode>,
                       registrations: nat)
    requires Sound(s) && l.uplink != [] && l.connection.Some? && Routed(s.clients, l)
    requires call.DoMessage? && call.registered == l.application && call.connection == l.connection.value
    requires call.message == l.uplink[0]
    requires LinkOk(l, targets, s.modes.state.Preparing?, registrations)
    requires s.modes.state.Preparing? ==> s.modes.state.transitionId == |targets|
    requires AppliedLink(s.modes.state, s.applications, l)
    requires l' == l.(uplink := l.uplink[1..], task := l'.task)
    ensures AppliedLink(Perform(s, call).service.modes.state, Perform(s, call).service.applications, l')
  {
    var st, t := s.modes.state, Perform(s, call).service;
    var mv := MoveOf(s, call);
    EveryCallMoves(s, call);
    if st.Committing? {
      TailKeepsGuarantees(l.uplink, ModeCommitted(l.application, st.transitionId, st.targetMode), st.targetMode);
      if mv.Still? && call.message.Heartbeat? {
        assert l.uplink[0] in l.uplink;
      }
    } else if mv.AllReady? {
      NobodyConfirmedYet(l, targets, registrations, st.transitionId, st.targetMode);
    }
  }

  lemma CallApplies(w: World, e: Event, i: nat)
    requires Structure(w) && AllApplied(w) && Enabled(w, e) && Bounded(Next(w, e))
    requires CallOf(w, e).Some? && !e.Accept? && i < |w.links|
    ensures AppliedAt(Next(w, e), i)
  {
    var l, t, call := w.links[i], TouchedLinks(w, e)[i], CallOf(w, e).value;
    assert AppliedAt(w, i) && LinkOk(l, w.targets, w.sam.modes.state.Preparing?, w.registrations);
    RoutingMoves(w, e, i);
    if Routed(Next(w, e).sam.clients, Next(w, e).links[i]) {
      if e.ToSam? && e.link == i {
        SpeakerApplies(w.sam, call, l, t, w.targets, w.registrations);
      } else {
        if e.ToSam? {
          DistinctConnections(w, i, e.link);
        }
        BystanderApplies(w.sam, call, l, w.targets, w.registrations);
      }
      var out := Perform(w.sam, call);
      ReachKeepsApplied(out.service.modes.state, out.service.applications, t, out.service.clients, out.sent);
    }
  }

  lemma OwnStepApplies(w: World, e: Event, i: nat)
    requires Structure(w) && Bounded(w) && AllApplied(w) && Enabled(w, e) && CallOf(w, e).None? && !e.Accept?
    requires i < |Next(w, e).links|
    ensures AppliedAt(Next(w, e), i)
  {
    if i < |w.links| {
      assert AppliedAt(w, i);
    }
    if e.ToClient? {
      DeliveryApplies(w, e, i);
    } else if e.Beat? {
      BeatApplies(w, e, i);
    }
  }

  lemma AppliedIsKept(w: World, e: Event)
    requires Structure(w) && AllApplied(w) && Enabled(w, e) && Bounded(w) && Bounded(Next(w, e))
    ensures AllApplied(Next(w, e))
  {
    if e.Accept? {
      AcceptShape(w, e);
    }
    forall i | 0 <= i < |Next(w, e).links|
      ensures AppliedAt(Next(w, e), i)
    {
      if e.Accept? {
        AcceptApplies(w, e, i);
      } else if CallOf(w, e).Some? {
        CallApplies(w, e, i);
      } else {
        OwnStepApplies(w, e, i);
      }
    }
  }

  lemma {:induction false} RunsApply(worlds: seq<World>, events: seq<Event>, n: nat)
    requires IsWorldRun(worlds, events) && n <= |events| && Bounded(worlds[n])
    ensures AllApplied(worlds[n])
  {
    if n > 0 {
      EarlierIsBounded(worlds, events, n - 1, n);
      RunsAreStructured(worlds, events, n - 1);
      RunsApply(worlds, events, n - 1);
      assert worlds[n] == Next(worlds[n - 1], events[n - 1]);
      AppliedIsKept(worlds[n - 1], events[n - 1]);
    }
  }

  /**
   At the step that completes a transition, every participant whose current connection is older than
   the commit order has both its handler and its registry entry in the new mode.
   */
  lemma CommittedMeansApplied(worlds: seq<World>, events: seq<Event>, n: nat, i: nat)
    requires IsWorldRun(worlds, events) && n < |events| && Bounded(worlds[n + 1])
    requires worlds[n].sam.modes.state.Committing? && worlds[n + 1].sam.modes.state.Stable?
    requires i < |worlds[n + 1].links|
    ensures
      var w, w' := worlds[n], worlds[n + 1];
      var l := w'.links[i];
      && Routed(w'.sam.clients, l)
      && l.application in Participants(w.sam.modes.state) && l.late != w.sam.modes.state.transitionId
      ==>
      && w'.sam.system.mode == w.sam.modes.state.targetMode
      && l.mode == w'.sam.system.mode
      && l.application in w'.sam.applications
      && w'.sam.applications[l.application].currentMode == w'.sam.system.mode
  {
    EarlierIsBounded(worlds, events, n, n + 1);
    RunsAreStructured(worlds, events, n);
    RunsApply(worlds, events, n);
    assert worlds[n + 1] == Next(worlds[n], events[n]);
    OnlyCallsComplete(worlds[n], events[n]);
    if IsLoyal(worlds[n], worlds[n + 1], i) {
      CompletionApplies(worlds[n], events[n], i);
    }
  }

  /** Link `i` serves a participant through a connection older than the active commit order. */
  ghost predicate IsLoyal(w: World, w': World, i: nat)
    requires !w.sam.modes.state.Stable? && i < |w'.links|
  {
    var l := w'.links[i];
    && Routed(w'.sam.clients, l)
    && l.application in Participants(w.sam.modes.state) && l.late != w.sam.modes.state.transitionId
  }

  lemma OnlyCallsComplete(w: World, e: Event)
    requires Structure(w) && Enabled(w, e) && w.sam.modes.state.Committing? && Next(w, e).sam.modes.state.Stable?
    ensures e.ToSam? && CallOf(w, e).Some?
    ensures |Next(w, e).links| == |w.links|
  {
    EveryCallMoves(w.sam, CallOf(w, e).value);
  }

  lemma CompletionApplies(w: World, e: Event, i: nat)
    requires Structure(w) && AllApplied(w) && Enabled(w, e) && Bounded(Next(w, e)) && e.ToSam?
    requires w.sam.modes.state.Committing? && Next(w, e).sam.modes.state.Stable? && i < |w.links|
    requires IsLoyal(w, Next(w, e), i)
    ensures Next(w, e).sam.system.mode == w.sam.modes.state.targetMode
    ensures
      var a, w' := Next(w, e).links[i].application, Next(w, e);
      && w'.links[i].mode == w'.sam.system.mode
      && a in w'.sam.applications && w'.sam.applications[a].currentMode == w'.sam.system.mode
  {
    var call := CallOf(w, e).value;
    EveryCallMoves(w.sam, call);
    RoutingMoves(w, e, i);
    IdentityMoves(w, e, i);
    assert AppliedAt(w, i);
    if w.links[i].application == call.registered {
      DistinctConnectionsOf(w, i, e.link);
      assert w.links[i].uplink[0] in w.links[i].uplink;
    }
  }

  lemma DistinctConnectionsOf(w: World, i: nat, j: nat)
    requires Structure(w) && i < |w.links| && j < |w.links|
    requires w.links[i].connection.Some? && w.links[i].connection == w.links[j].connection
    ensures i == j
  {
    if i != j {
      DistinctConnections(w, i, j);
    }
  }

  /** `l'` is still the registration that `l` was. */
  predicate SameRegistration(l: Link, l': Link) {
    l.connection.Some? && l'.late == l.late && l'.connection == l.connection && l'.application == l.application
  }

  lemma RegistrationStays(w: World, e: Event, i: nat, l: Link)
    requires Structure(w) && Enabled(w, e) && i < |w.links| && SameRegistration(l, w.links[i])
    ensures i < |Next(w, e).links| && SameRegistration(l, Next(w, e).links[i])
  {
    assert LinkOk(w.links[i], w.targets, w.sam.modes.state.Preparing?, w.registrations);
    assert w.links[i].task != Accepting;
    IdentityMoves(w, e, i);
  }

  lemma {:induction false} RegisteredOnce(worlds: seq<World>, events: seq<Event>, r: nat, n: nat, i: nat, l: Link)
    requires IsWorldRun(worlds, events) && r <= n <= |events| && Bounded(worlds[n])
    requires i < |worlds[r].links| && SameRegistration(l, worlds[r].links[i])
    ensures i < |worlds[n].links| && SameRegistration(l, worlds[n].links[i])
  {
    if r < n {
      EarlierIsBounded(worlds, events, n - 1, n);
      RegisteredOnce(worlds, events, r, n - 1, i, l);
      RunsAreStructured(worlds, events, n - 1);
      RegistrationStays(worlds[n - 1], events[n - 1], i, l);
    }
  }

  /**
   In particular, a participant that completes a transition on the very connection it had when the
   transition was requested runs in the new mode, whatever heartbeats and losses came in between.
   */
  lemma LoyalParticipantsApply(worlds: seq<World>, events: seq<Event>, r: nat, n: nat, i: nat)
    requires IsWorldRun(worlds, events) && r < n < |events| && Bounded(worlds[n + 1])
    requires worlds[r].sam.modes.state.Stable? && i < |worlds[r].links| && worlds[r].links[i].connection.Some?
    requires worlds[n].sam.modes.state.Committing? && worlds[n + 1].sam.modes.state.Stable?
    requires worlds[n].sam.modes.state.transitionId > |worlds[r].targets|
    ensures
      var w, w' := worlds[n], worlds[n + 1];
      i < |w'.links| &&
      var l := w'.links[i];
      Routed(w'.sam.clients, l) && l.application in Participants(w.sam.modes.state) ==>
        && l.mode == w'.sam.system.mode == w.sam.modes.state.targetMode
        && l.application in w'.sam.applications
        && w'.sam.applications[l.application].currentMode == w'.sam.system.mode
  {
    EarlierIsBounded(worlds, events, r, n + 1);
    Agreement.RunsAgree(worlds, events, r);
    RunsAreStructured(worlds, events, r);
    RegisteredOnce(worlds, events, r, n + 1, i, worlds[r].links[i]);
    CommittedMeansApplied(worlds, events, n, i);
  }
}
