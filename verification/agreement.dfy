/**
 Replay agreement: whatever is still queued for an informed live client leads its handler to the
 decided mode, so that once its queue is drained it runs in the mode SAM publishes.
 */
module Agreement {
  import opened Protocol
  import opened Modes
  import opened ServiceSteps
  import opened Coherence
  import opened ManagerMoves
  import opened Client
  import opened Network
  import opened NetworkInvariant

  /** The handler's mode after a message it handles successfully. */
  function Told(mode: SystemMode, m: SamToApplication): SystemMode {
    match m
    case RegisterAccepted(_, authoritative, _) => authoritative
    case CommitMode(_, target) => target
    case _ => mode
  }

  /** The handler's mode after everything in `queue` has been handled successfully. */
  function Replay(mode: SystemMode, queue: seq<SamToApplication>): SystemMode
    decreases |queue|
  {
    if queue == [] then mode else Replay(Told(mode, queue[0]), queue[1..])
  }

  /** The mode that is already settled on, announced or not. */
  function Decided(state: ModeManagerState): SystemMode {
    if state.Committing? then state.targetMode else CurrentMode(state)
  }

  /**
   The link has been told of the last commit: it was neither registered while that transition was
   being committed nor refused its `CommitMode` by a full queue.
   */
  predicate Informed(l: Link, lastCommit: nat) {
    (l.late == 0 || l.late != lastCommit) && (l.dropped == 0 || l.dropped != lastCommit)
  }

  predicate Live(w: World, l: Link) {
    Routed(w.sam.clients, l) && !l.client.Ended?
  }

  /** The link was registered while the last transition to be ordered was being committed. */
  predicate CameLate(l: Link, lastCommit: nat) {
    l.late != 0 && l.late == lastCommit
  }

  /** An informed live client is on its way to the decided mode; one that came too late is not. */
  ghost predicate Agrees(w: World, l: Link) {
    Live(w, l) ==>
      var reached, decided := Replay(l.mode, Queue(l)), Decided(w.sam.modes.state);
      && (Informed(l, w.lastCommit) ==> reached == decided)
      && (CameLate(l, w.lastCommit) ==> reached != decided)
  }

  ghost predicate Agreement(w: World) {
    forall i :: 0 <= i < |w.links| ==> Agrees(w, w.links[i])
  }

  /** History marks never run ahead of the commits. */
  ghost predicate MarksOk(w: World) {
    forall i :: 0 <= i < |w.links| ==> w.links[i].late <= w.lastCommit && w.links[i].dropped <= w.lastCommit
  }

  lemma {:induction false} ReplayAppends(mode: SystemMode, queue: seq<SamToApplication>, m: SamToApplication)
    ensures Replay(mode, queue + [m]) == Told(Replay(mode, queue), m)
    decreases |queue|
  {
    if queue == [] {
      assert (queue + [m])[1..] == [];
    } else {
      assert (queue + [m])[1..] == queue[1..] + [m];
      ReplayAppends(Told(mode, queue[0]), queue[1..], m);
    }
  }

  /** A call settles nothing new except by ordering a commit, whose mode it then carries. */
  lemma DecisionMoves(s: Service, call: Call)
    requires Sound(s)
    ensures
      var out := Perform(s, call);
      Decided(out.service.modes.state) ==
      if out.sent.Some? && out.sent.value.CommitMode? then out.sent.value.mode else Decided(s.modes.state)
    ensures
      var sent := Perform(s, call).sent;
      sent.Some? ==> !sent.value.RegisterAccepted?
  {
    EveryCallMoves(s, call);
  }

  /** A link that is itself untouched, its handler included, across a call on SAM. */
  lemma ReachAgrees(w: World, w': World, l: Link, call: Call)
    requires Sound(w.sam) && Agrees(w, l)
    requires l.late <= w.lastCommit && l.dropped <= w.lastCommit && Numbered(w.sam.modes, w.targets, w.lastCommit)
    requires w'.sam == Perform(w.sam, call).service
    requires w'.lastCommit == LastCommitAfter(w.lastCommit, Perform(w.sam, call).sent)
    requires Routed(w'.sam.clients, l) ==> Routed(w.sam.clients, l)
    ensures Agrees(w', Reach(l, w'.sam.clients, Perform(w.sam, call).sent))
    ensures
      var l' := Reach(l, w'.sam.clients, Perform(w.sam, call).sent);
      l'.late <= w'.lastCommit && l'.dropped <= w'.lastCommit
  {
    var sent := Perform(w.sam, call).sent;
    DecisionMoves(w.sam, call);
    EveryCallMoves(w.sam, call);
    if sent.Some? {
      PushTellsStory(l, sent.value);
      ReplayAppends(l.mode, Queue(l), sent.value);
    }
  }

  lemma AcceptAgrees(w: World, e: Event, i: nat)
    requires Structure(w) && Agreement(w) && MarksOk(w)
    requires Enabled(w, e) && e.Accept? && Bounded(Next(w, e)) && i < |w.links|
    ensures Agrees(Next(w, e), Next(w, e).links[i])
    ensures Next(w, e).links[i].late <= Next(w, e).lastCommit && Next(w, e).links[i].dropped <= Next(w, e).lastCommit
  {
    AcceptShape(w, e);
    RoutingAfterAccept(w, e, i);
    assert Agrees(w, w.links[i]);
    if i == e.link {
      var l' := Next(w, e).links[i];
      assert LinkOk(w.links[i], w.targets, w.sam.modes.state.Preparing?, w.registrations);
      assert Queue(l') == [l'.outbound[0]];
      ReplayAppends(l'.mode, [], l'.outbound[0]);
      assert [] + [l'.outbound[0]] == Queue(l');
    }
  }

  /** A session that registers while a transition is being committed is welcomed into the mode that is on its way out. */
  lemma LateSessionsAreToldThePreviousMode(w: World, e: Event)
    requires Structure(w) && Enabled(w, e) && e.Accept? && Bounded(Next(w, e)) && w.sam.modes.state.Committing?
    ensures
      var l := Next(w, e).links[e.link];
      && CameLate(l, Next(w, e).lastCommit)
      && Queue(l) == [Welcome(Next(w, e).sam)]
      && Queue(l)[0].currentMode == w.sam.system.mode == w.sam.modes.state.previousMode
      && Queue(l)[0].currentMode != Decided(Next(w, e).sam.modes.state)
  {
    AcceptShape(w, e);
  }

  /** A message that leaves the session alive leaves the handler in the mode it tells. */
  lemma HandledMeansTold(application: ApplicationId, status: Status, mode: SystemMode, m: SamToApplication, d: Decision)
    ensures
      var r := React(application, status, mode, m, d);
      r.status.Ended? || r.mode == Told(mode, m)
  {
  }

  lemma DeliveryAgrees(w: World, e: Event, i: nat)
    requires Structure(w) && Agreement(w) && MarksOk(w)
    requires Enabled(w, e) && e.ToClient? && i < |w.links|
    ensures Agrees(Next(w, e), Next(w, e).links[i])
  {
    var l := w.links[i];
    assert Agrees(w, l);
    if i == e.link {
      HandledMeansTold(l.application, l.client, l.mode, l.wire[0], e.decision);
      DeliveryTellsStory(l);
      assert Queue(l)[1..] == Queue(Next(w, e).links[i]);
    }
  }

  /** An event's own effect on a link, deliveries and registrations aside. */
  lemma TouchAgrees(w: World, e: Event, i: nat)
    requires Structure(w) && Agreement(w) && MarksOk(w)
    requires Enabled(w, e) && !e.Accept? && !e.ToClient? && i < |TouchedLinks(w, e)|
    ensures
      var t := TouchedLinks(w, e)[i];
      && Agrees(w, t) && t.late <= w.lastCommit && t.dropped <= w.lastCommit
      && (t.connection.Some? ==> i < |w.links| && t.application == w.links[i].application
                                 && t.connection == w.links[i].connection)
  {
    if i < |w.links| {
      assert Agrees(w, w.links[i]);
      OwnEffectKeepsStory(w, e, i);
    }
  }

  lemma OtherwiseAgrees(w: World, e: Event, i: nat)
    requires Structure(w) && Agreement(w) && MarksOk(w)
    requires Enabled(w, e) && Bounded(Next(w, e)) && !e.Accept? && !e.ToClient? && i < |Next(w, e).links|
    ensures Agrees(Next(w, e), Next(w, e).links[i])
    ensures Next(w, e).links[i].late <= Next(w, e).lastCommit && Next(w, e).links[i].dropped <= Next(w, e).lastCommit
  {
    var w', t := Next(w, e), TouchedLinks(w, e)[i];
    TouchAgrees(w, e, i);
    RoutingMoves(w, e, i);
    if CallOf(w, e).Some? {
      var call := CallOf(w, e).value;
      ClientsMove(w.sam, call);
      ReachAgrees(w, w', t, call);
    }
  }

  lemma AgreementIsKept(w: World, e: Event)
    requires Structure(w) && Agreement(w) && MarksOk(w) && Enabled(w, e) && Bounded(Next(w, e))
    ensures Agreement(Next(w, e)) && MarksOk(Next(w, e))
  {
    var w' := Next(w, e);
    forall i | 0 <= i < |w'.links|
      ensures Agrees(w', w'.links[i])
      ensures w'.links[i].late <= w'.lastCommit && w'.links[i].dropped <= w'.lastCommit
    {
      if e.Accept? {
        AcceptShape(w, e);
        AcceptAgrees(w, e, i);
      } else if e.ToClient? {
        DeliveryAgrees(w, e, i);
      } else {
        OtherwiseAgrees(w, e, i);
      }
    }
  }

  lemma {:induction false} RunsAgree(worlds: seq<World>, events: seq<Event>, n: nat)
    requires IsWorldRun(worlds, events) && n <= |events| && Bounded(worlds[n])
    ensures Agreement(worlds[n]) && MarksOk(worlds[n])
  {
    if n > 0 {
      EarlierIsBounded(worlds, events, n - 1, n);
      RunsAreStructured(worlds, events, n - 1);
      RunsAgree(worlds, events, n - 1);
      assert worlds[n] == Next(worlds[n - 1], events[n - 1]);
      AgreementIsKept(worlds[n - 1], events[n - 1]);
    }
  }

  /**
   In every reachable world, a live client that lost no `CommitMode` to a full queue is on its way to
   the decided mode exactly unless it registered while the last ordered transition was committing:
   such a session is told the previous mode and stays there until the next commit.
   */
  lemma LosslessClientsAgreeExactly(worlds: seq<World>, events: seq<Event>, n: nat, i: nat)
    requires IsWorldRun(worlds, events) && n <= |events| && Bounded(worlds[n]) && i < |worlds[n].links|
    requires Live(worlds[n], worlds[n].links[i]) && worlds[n].links[i].dropped == 0
    ensures
      var w, l := worlds[n], worlds[n].links[i];
      Replay(l.mode, Queue(l)) == Decided(w.sam.modes.state) <==> !CameLate(l, w.lastCommit)
  {
    RunsAgree(worlds, events, n);
    assert Agrees(worlds[n], worlds[n].links[i]);
  }

  /**
   In every reachable world, a live informed client with nothing left to receive runs in the decided
   mode; when no transition is open, that is the mode SAM publishes.
   */
  lemma DrainedClientsAgree(worlds: seq<World>, events: seq<Event>, n: nat, i: nat)
    requires IsWorldRun(worlds, events) && n <= |events| && Bounded(worlds[n]) && i < |worlds[n].links|
    ensures
      var w := worlds[n];
      var l := w.links[i];
      Live(w, l) && Informed(l, w.lastCommit) && Queue(l) == [] ==>
        && l.mode == Decided(w.sam.modes.state)
        && (w.sam.modes.state.Stable? ==> l.mode == w.sam.system.mode)
  {
    RunsAgree(worlds, events, n);
    RunsAreStructured(worlds, events, n);
    assert Agrees(worlds[n], worlds[n].links[i]);
  }
}
