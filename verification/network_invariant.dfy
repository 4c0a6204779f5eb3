/**
 The structural invariant of the whole system, kept by every step: ids number transitions and
 connections without reuse, every queue carries a well-formed story, responses refer to orders
 received, and SAM broadcasts only to sessions it serves.
 */
module NetworkInvariant {
  import opened Protocol
  import opened Modes
  import opened ServiceSteps
  import opened Coherence
  import opened ManagerMoves
  import opened Client
  import opened Network

  // ---------------------------------------------------------------- stories and uplinks

  /** A queued message other than the first: its numbers refer to transitions that exist. */
  predicate ItemOk(m: SamToApplication, targets: seq<SystemMode>, preparing: bool) {
    match m
    case PrepareMode(id, target) => 1 <= id <= |targets| && target == targets[id - 1]
    case CommitMode(id, target) => 1 <= id <= |targets| && target == targets[id - 1] && (preparing ==> id < |targets|)
    case RegisterAccepted(_, _, _) => false
    case RegisterRejected(_, _) => false
    case _ => true
  }

  /** Orders of one kind come with increasing ids. */
  predicate InOrder(m: SamToApplication, n: SamToApplication) {
    && (m.PrepareMode? && n.PrepareMode? ==> m.transitionId < n.transitionId)
    && (m.CommitMode? && n.CommitMode? ==> m.transitionId < n.transitionId)
  }

  /** All that was ever queued on a registered connection: the welcome, once, and then well-numbered orders. */
  ghost predicate StoryOk(story: seq<SamToApplication>, targets: seq<SystemMode>, preparing: bool) {
    && story != [] && story[0].RegisterAccepted? && story[0].protocolVersion == PROTOCOL_VERSION
    && (forall p :: 1 <= p < |story| ==> ItemOk(story[p], targets, preparing))
    && (forall p, q :: 0 <= p < q < |story| ==> InOrder(story[p], story[q]))
  }

  predicate WasAsked(received: seq<SamToApplication>, id: TransitionId) {
    exists m :: m in received && m.PrepareMode? && m.transitionId == id
  }

  /** A message on its way to SAM speaks for its own application, and answers an order that was received. */
  predicate SaidOk(l: Link, m: ApplicationToSam) {
    && m.application == l.application
    && match m
       case Register(_, _) => false
       case Heartbeat(_, _, _) => true
       case ModeReady(_, id) => WasAsked(l.received, id)
       case ModeRejected(_, id, _) => WasAsked(l.received, id)
       case ModeCommitted(_, id, mode) => CommitMode(id, mode) in l.received
  }

  ghost predicate LinkOk(l: Link, targets: seq<SystemMode>, preparing: bool, registrations: nat) {
    && (l.connection.None? ==>
          && Story(l) == [] && l.uplink == [Register(l.application, PROTOCOL_VERSION)]
          && (l.task == Accepting || l.task == Gone))
    && (l.connection.Some? ==>
          && l.task != Accepting && 1 <= l.connection.value <= registrations
          && StoryOk(Story(l), targets, preparing)
          && forall m :: m in l.uplink ==> SaidOk(l, m))
    && (l.client.Registering? ==> l.received == [])
    && (l.client.Running? ==> l.received != [])
  }

  /** The manager's ids agree with the history of targets. */
  ghost predicate Numbered(m: Manager, targets: seq<SystemMode>, lastCommit: nat) {
    && m.nextTransitionId == IdOf(|targets|)
    && (!m.state.Stable? ==>
          |targets| > 0 && m.state.transitionId == |targets| && m.state.targetMode == targets[|targets| - 1])
    && lastCommit <= |targets|
    && (m.state.Preparing? ==> lastCommit < |targets|)
    && (m.state.Committing? ==> lastCommit == |targets|)
  }

  ghost predicate Numbers(w: World) {
    Numbered(w.sam.modes, w.targets, w.lastCommit) && w.sam.nextConnectionId == IdOf(w.registrations)
  }

  ghost predicate PairOk(w: World, i: nat, j: nat)
    requires i < j < |w.links|
  {
    var l, k := w.links[i], w.links[j];
    l.connection.Some? && k.connection.Some? ==> l.connection != k.connection
  }

  ghost predicate LinksOk(w: World) {
    forall i :: 0 <= i < |w.links| ==>
      LinkOk(w.links[i], w.targets, w.sam.modes.state.Preparing?, w.registrations)
  }

  ghost predicate PairsOk(w: World) {
    && (forall i, j :: 0 <= i < j < |w.links| ==> PairOk(w, i, j))
    && (forall i :: 0 <= i < |w.links| && Routed(w.sam.clients, w.links[i]) ==>
          w.links[i].task == Pumping || w.links[i].task == Closing)
  }

  ghost predicate Structure(w: World) {
    Coherent(w.sam) && Numbers(w) && LinksOk(w) && PairsOk(w)
  }

  /** A broadcast `m` and the phase it leads to are consistent with the numbering. */
  ghost predicate Follows(targets: seq<SystemMode>, preparing: bool, sent: Option<SamToApplication>,
                          targets': seq<SystemMode>, preparing': bool)
  {
    match sent
    case None => targets' == targets && (preparing' ==> preparing)
    case Some(PrepareMode(id, target)) =>
      targets' == targets + [target] && id == |targets'| && preparing' && !preparing
    case Some(CommitMode(id, target)) =>
      |targets| > 0 && targets' == targets && id == |targets| && target == targets[id - 1] && preparing && !preparing'
    case Some(AbortMode(_)) => targets' == targets && !preparing'
    case Some(StateBroadcast(_, _)) => targets' == targets && (preparing' ==> preparing)
    case _ => false
  }

  lemma StoryStays(story: seq<SamToApplication>, targets: seq<SystemMode>, preparing: bool,
                   sent: Option<SamToApplication>, targets': seq<SystemMode>, preparing': bool)
    requires StoryOk(story, targets, preparing) && Follows(targets, preparing, sent, targets', preparing')
    ensures StoryOk(story, targets', preparing')
  {
    forall p | 1 <= p < |story|
      ensures ItemOk(story[p], targets', preparing')
    {
      assert ItemOk(story[p], targets, preparing);
    }
  }

  lemma StoryGrows(story: seq<SamToApplication>, targets: seq<SystemMode>, preparing: bool,
                   m: SamToApplication, targets': seq<SystemMode>, preparing': bool)
    requires StoryOk(story, targets, preparing) && Follows(targets, preparing, Some(m), targets', preparing')
    ensures StoryOk(story + [m], targets', preparing')
  {
    StoryStays(story, targets, preparing, Some(m), targets', preparing');
    var longer := story + [m];
    forall p | 1 <= p < |longer|
      ensures ItemOk(longer[p], targets', preparing')
    {
      if p < |story| {
        assert longer[p] == story[p];
      }
    }
    forall p, q | 0 <= p < q < |longer|
      ensures InOrder(longer[p], longer[q])
    {
      if q < |story| {
        assert InOrder(story[p], story[q]);
      } else if p > 0 {
        assert ItemOk(story[p], targets, preparing);
      }
    }
  }

  /** What `Push` does to the story. */
  lemma PushTellsStory(l: Link, m: SamToApplication)
    ensures Push(l, m).received == l.received && Push(l, m).uplink == l.uplink
    ensures Queue(Push(l, m)) == Queue(l) + [m] || (Queue(Push(l, m)) == Queue(l) && Push(l, m).overflowed)
    ensures Story(Push(l, m)) == Story(l) + [m] || (Story(Push(l, m)) == Story(l) && Push(l, m).overflowed)
  {
    assert l.wire + (l.outbound + [m]) == Queue(l) + [m];
    assert l.received + (Queue(l) + [m]) == Story(l) + [m];
  }

  lemma ReachKeepsLink(l: Link, clients: map<ApplicationId, ConnectionId>, sent: Option<SamToApplication>,
                       targets: seq<SystemMode>, preparing: bool, registrations: nat,
                       targets': seq<SystemMode>, preparing': bool)
    requires LinkOk(l, targets, preparing, registrations)
    requires Follows(targets, preparing, sent, targets', preparing')
    ensures LinkOk(Reach(l, clients, sent), targets', preparing', registrations)
  {
    var r := Reach(l, clients, sent);
    if l.connection.Some? {
      StoryStays(Story(l), targets, preparing, sent, targets', preparing');
      if sent.Some? {
        PushTellsStory(l, sent.value);
        StoryGrows(Story(l), targets, preparing, sent.value, targets', preparing');
      }
      forall m | m in r.uplink
        ensures SaidOk(r, m)
      {
        assert SaidOk(l, m);
      }
    }
  }

  /** Taking the first message off the wire does not change the story. */
  lemma DeliveryTellsStory(l: Link)
    requires l.wire != []
    ensures l.received + [l.wire[0]] + (l.wire[1..] + l.outbound) == Story(l)
    ensures Queue(l) == [l.wire[0]] + (l.wire[1..] + l.outbound)
  {
    assert l.wire == [l.wire[0]] + l.wire[1..];
  }

  lemma ForwardTellsStory(l: Link)
    requires l.outbound != []
    ensures (l.wire + [l.outbound[0]]) + l.outbound[1..] == Queue(l)
  {
    assert l.outbound == [l.outbound[0]] + l.outbound[1..];
  }

  /** Where the first message of the queue sits in the story tells whether it is the welcome. */
  lemma HeadOfStory(l: Link, targets: seq<SystemMode>, preparing: bool, registrations: nat)
    requires LinkOk(l, targets, preparing, registrations) && l.wire != []
    ensures l.connection.Some?
    ensures l.received == [] ==> l.wire[0].RegisterAccepted? && l.wire[0].protocolVersion == PROTOCOL_VERSION
    ensures l.received != [] ==> ItemOk(l.wire[0], targets, preparing)
  {
    assert Story(l)[|l.received|] == l.wire[0];
  }

  /** An order the client has received, or has yet to receive, is a well-numbered one. */
  lemma OrderInStory(l: Link, m: SamToApplication, targets: seq<SystemMode>, preparing: bool, registrations: nat)
    requires LinkOk(l, targets, preparing, registrations) && l.connection.Some?
    requires m in Story(l) && (m.PrepareMode? || m.CommitMode?)
    ensures ItemOk(m, targets, preparing)
  {
  }

  lemma HeadTakenKeepsLink(l: Link, d: Decision, targets: seq<SystemMode>, preparing: bool, registrations: nat)
    requires l.wire != [] && !l.client.Ended? && LinkOk(l, targets, preparing, registrations)
    ensures LinkOk(HeadTaken(l, d), targets, preparing, registrations)
  {
    var t := HeadTaken(l, d);
    HeadOfStory(l, targets, preparing, registrations);
    DeliveryTellsStory(l);
    assert Story(t) == Story(l);
    forall m | m in t.uplink
      ensures SaidOk(t, m)
    {
      assert l.wire[0] in t.received;
      if m in l.uplink {
        assert SaidOk(l, m);
        SaidStays(l, t, m);
      }
    }
  }

  lemma SaidStays(l: Link, t: Link, m: ApplicationToSam)
    requires SaidOk(l, m) && t.application == l.application
    requires forall r :: r in l.received ==> r in t.received
    ensures SaidOk(t, m)
  {
  }

  lemma RegisteredKeepsLink(w: World, l: Link, out: Outcome)
    requires LinkOk(l, w.targets, w.sam.modes.state.Preparing?, w.registrations)
    requires l.connection.None? && l.uplink != []
    requires w.sam.nextConnectionId == w.registrations + 1
    ensures LinkOk(Registered(w, l, out), w.targets, w.sam.modes.state.Preparing?, w.registrations + 1)
  {
    var t := Registered(w, l, out);
    assert Story(t) == [Welcome(out.service)];
  }

  /** A link whose uplink only lost messages or gained a heartbeat, and whose queue is the same. */
  lemma QuietTouchKeepsLink(l: Link, t: Link, targets: seq<SystemMode>, preparing: bool, registrations: nat)
    requires LinkOk(l, targets, preparing, registrations)
    requires t.application == l.application && t.connection == l.connection && t.received == l.received
    requires Queue(t) == Queue(l)
    requires t.client == l.client || t.client.Ended?
    requires if l.connection.None? then t.uplink == l.uplink && (t.task == l.task || t.task == Gone)
             else t.task != Accepting && forall m :: m in t.uplink ==>
                 m in l.uplink || (m.Heartbeat? && m.application == l.application)
    ensures LinkOk(t, targets, preparing, registrations)
  {
    if l.connection.Some? {
      forall m | m in t.uplink
        ensures SaidOk(t, m)
      {
        if m in l.uplink {
          assert SaidOk(l, m);
        }
      }
    }
  }

  lemma TouchedKeepsLink(w: World, e: Event)
    requires Enabled(w, e) && Numbers(w) && Bounded(Next(w, e))
    requires !e.Connect? && !e.RequestChange? && !e.RefreshTick?
    requires LinkOk(w.links[e.link], w.targets, w.sam.modes.state.Preparing?, w.registrations)
    ensures LinkOk(Touched(w, e), w.targets, w.sam.modes.state.Preparing?, Next(w, e).registrations)
  {
    var l, t, preparing := w.links[e.link], Touched(w, e), w.sam.modes.state.Preparing?;
    match e
    case Accept(i, now) =>
      IdBeforeWrap(w.registrations);
      RegisteredKeepsLink(w, l, OnRegister(w.sam, l.application, true, now));
    case Forward(_) =>
      ForwardTellsStory(l);
      QuietTouchKeepsLink(l, t, w.targets, preparing, w.registrations);
    case ToClient(_, d) => HeadTakenKeepsLink(l, d, w.targets, preparing, w.registrations);
    case _ => QuietTouchKeepsLink(l, t, w.targets, preparing, w.registrations);
  }

  lemma CallKeepsNumbers(s: Service, call: Call, targets: seq<SystemMode>, lastCommit: nat)
    requires Sound(s) && Numbered(s.modes, targets, lastCommit)
    requires |TargetsAfter(targets, Perform(s, call).sent)| < WORD
    ensures
      var out := Perform(s, call);
      && Numbered(out.service.modes, TargetsAfter(targets, out.sent), LastCommitAfter(lastCommit, out.sent))
      && Follows(targets, s.modes.state.Preparing?, out.sent, TargetsAfter(targets, out.sent),
                 out.service.modes.state.Preparing?)
  {
    var mv := MoveOf(s, call);
    EveryCallMoves(s, call);
    if mv.Opened? {
      IdBeforeWrap(|targets|);
    }
  }

  lemma ConnectionIdsMove(s: Service, call: Call)
    ensures Perform(s, call).service.nextConnectionId ==
            if call.DoRegister? then WrappingSucc(s.nextConnectionId) else s.nextConnectionId
  {
  }

  lemma NumbersAreKept(w: World, e: Event)
    requires Structure(w) && Enabled(w, e) && Bounded(Next(w, e))
    ensures Numbers(Next(w, e))
    ensures CallOf(w, e).Some? ==>
              Follows(w.targets, w.sam.modes.state.Preparing?, Perform(w.sam, CallOf(w, e).value).sent,
                      Next(w, e).targets, Next(w, e).sam.modes.state.Preparing?)
  {
    if CallOf(w, e).Some? {
      CallKeepsNumbers(w.sam, CallOf(w, e).value, w.targets, w.lastCommit);
      ConnectionIdsMove(w.sam, CallOf(w, e).value);
    }
  }

  lemma LinksAreKept(w: World, e: Event)
    requires Structure(w) && Enabled(w, e) && Bounded(Next(w, e))
    ensures LinksOk(Next(w, e))
  {
    var w' := Next(w, e);
    NumbersAreKept(w, e);
    var touched := TouchedLinks(w, e);
    forall i | 0 <= i < |w'.links|
      ensures LinkOk(w'.links[i], w'.targets, w'.sam.modes.state.Preparing?, w'.registrations)
    {
      assert LinkOk(touched[i], w.targets, w.sam.modes.state.Preparing?, w'.registrations) by {
        if !e.Connect? && !e.RequestChange? && !e.RefreshTick? && e.link == i {
          TouchedKeepsLink(w, e);
        } else if i < |w.links| {
          assert LinkOk(w.links[i], w.targets, w.sam.modes.state.Preparing?, w.registrations);
        }
      }
      if CallOf(w, e).Some? {
        var out := Perform(w.sam, CallOf(w, e).value);
        ReachKeepsLink(touched[i], out.service.clients, out.sent, w.targets, w.sam.modes.state.Preparing?,
                       w'.registrations, w'.targets, w'.sam.modes.state.Preparing?);
      }
    }
  }

  // ---------------------------------------------------------------- pairs of links

  /** A call leaves the client map alone, installs a fresh connection, or removes the one it names. */
  lemma ClientsMove(s: Service, call: Call)
    ensures
      var t := Perform(s, call).service;
      if call.DoRegister? && call.fits then t.clients == s.clients[call.application := s.nextConnectionId]
      else if call.DoDisconnect? && Speaks(s, call.application, call.connection)
      then t.clients == s.clients - {call.application}
      else t.clients == s.clients
  {
  }

  /** After an event's own effect on a link, a step only adds to its outbound queue. */
  lemma ReachOnlyQueues(w: World, e: Event, i: nat)
    requires Enabled(w, e) && i < |TouchedLinks(w, e)|
    ensures |Next(w, e).links| == |TouchedLinks(w, e)|
    ensures
      var t, r := TouchedLinks(w, e)[i], Next(w, e).links[i];
      r == t.(outbound := r.outbound, overflowed := r.overflowed, dropped := r.dropped)
  {
    var links := TouchedLinks(w, e);
    if CallOf(w, e).Some? {
      var out := Perform(w.sam, CallOf(w, e).value);
      assert Next(w, e).links[i] == Reach(links[i], out.service.clients, out.sent);
    }
  }

  /** What an event may change about a link's identity and its client's standing. */
  ghost predicate SameIdentity(w: World, e: Event, i: nat, l: Link, l': Link)
    requires Enabled(w, e)
  {
    && l'.application == l.application
    && ((l'.connection == l.connection && l'.late == l.late) || (e.Accept? && e.link == i))
    && (l.client.Ended? ==> l'.client.Ended?)
    && ((l'.received == l.received && l'.mode == l.mode) || (e.ToClient? && e.link == i && !l.client.Ended?))
  }

  lemma IdentityMoves(w: World, e: Event, i: nat)
    requires Enabled(w, e) && i < |w.links|
    ensures i < |Next(w, e).links| && SameIdentity(w, e, i, w.links[i], Next(w, e).links[i])
  {
    ReachOnlyQueues(w, e, i);
    assert SameIdentity(w, e, i, w.links[i], TouchedLinks(w, e)[i]);
  }

  /** Only a registration or a delivery changes what a link has received or has still to receive. */
  lemma OwnEffectKeepsStory(w: World, e: Event, i: nat)
    requires Enabled(w, e) && !e.Accept? && !(e.ToClient? && e.link == i) && i < |w.links|
    ensures
      var l, t := w.links[i], TouchedLinks(w, e)[i];
      && Queue(t) == Queue(l) && t.received == l.received && |t.outbound| <= |l.outbound|
      && t.joined == l.joined && t.late == l.late && t.dropped == l.dropped && t.overflowed == l.overflowed
      && t.application == l.application && t.connection == l.connection && (l.client.Ended? ==> t.client.Ended?)
  {
    if e.Forward? && e.link == i {
      ForwardTellsStory(w.links[i]);
    }
  }

  /** What accepting a connection comes to: a fresh id, installed for the link's application, and no broadcast. */
  lemma AcceptShape(w: World, e: Event)
    requires Structure(w) && Enabled(w, e) && e.Accept? && Bounded(Next(w, e))
    ensures
      var l, w' := w.links[e.link], Next(w, e);
      var out := OnRegister(w.sam, l.application, true, e.now);
      && l.connection.None? && Story(l) == []
      && CallOf(w, e) == Some(DoRegister(l.application, true, e.now))
      && w.sam.nextConnectionId == w.registrations + 1 == w'.registrations
      && w'.sam == out.service && out.sent.None?
      && w'.sam.clients == w.sam.clients[l.application := w.sam.nextConnectionId]
      && w'.links == w.links[e.link := Registered(w, l, out)]
      && Story(w'.links[e.link]) == Queue(w'.links[e.link]) == [Welcome(out.service)]
      && w'.targets == w.targets && w'.lastCommit == w.lastCommit && w'.log == w.log
      && w'.sam.modes == w.sam.modes
  {
    var l, w' := w.links[e.link], Next(w, e);
    assert LinkOk(l, w.targets, w.sam.modes.state.Preparing?, w.registrations);
    IdBeforeWrap(w.registrations);
    assert w'.links == w.links[e.link := Registered(w, l, OnRegister(w.sam, l.application, true, e.now))];
  }

  /** No two links share a connection. */
  lemma DistinctConnections(w: World, i: nat, j: nat)
    requires Structure(w) && i < |w.links| && j < |w.links| && i != j
    ensures w.links[i].connection.Some? && w.links[j].connection.Some? ==>
              w.links[i].connection != w.links[j].connection
  {
    if i < j {
      assert PairOk(w, i, j);
    } else {
      assert PairOk(w, j, i);
    }
  }

  lemma RoutingAfterAccept(w: World, e: Event, i: nat)
    requires Structure(w) && Enabled(w, e) && e.Accept? && Bounded(Next(w, e)) && i < |w.links|
    ensures Routed(Next(w, e).sam.clients, Next(w, e).links[i]) <==>
            i == e.link || (Routed(w.sam.clients, w.links[i])
                            && w.links[i].application != w.links[e.link].application)
  {
    AcceptShape(w, e);
    assert LinkOk(w.links[i], w.targets, w.sam.modes.state.Preparing?, w.registrations);
  }

  lemma RoutingAfterClose(w: World, e: Event, i: nat)
    requires Structure(w) && Enabled(w, e) && e.TaskCloses? && i < |w.links|
    ensures Routed(Next(w, e).sam.clients, Next(w, e).links[i]) <==>
            i != e.link && Routed(w.sam.clients, w.links[i])
  {
    ClientsMove(w.sam, CallOf(w, e).value);
    IdentityMoves(w, e, i);
    if i != e.link {
      DistinctConnections(w, i, e.link);
    }
  }

  lemma ClientsOtherwise(w: World, e: Event)
    requires Enabled(w, e) && !e.Accept? && !e.TaskCloses?
    ensures Next(w, e).sam.clients == w.sam.clients
  {
    if CallOf(w, e).Some? {
      ClientsMove(w.sam, CallOf(w, e).value);
    }
  }

  lemma RoutingOtherwise(w: World, e: Event, i: nat)
    requires Enabled(w, e) && !e.Accept? && !e.TaskCloses? && i < |Next(w, e).links|
    ensures Routed(Next(w, e).sam.clients, Next(w, e).links[i]) <==>
            i < |w.links| && Routed(w.sam.clients, w.links[i])
    ensures Next(w, e).sam.clients == w.sam.clients
  {
    ClientsOtherwise(w, e);
    if i < |w.links| {
      IdentityMoves(w, e, i);
    } else {
      assert e.Connect?;
    }
  }

  /** Who is routed to after an event: those routed to before whom it did not displace, and a link just accepted. */
  lemma RoutingMoves(w: World, e: Event, i: nat)
    requires Structure(w) && Enabled(w, e) && Bounded(Next(w, e)) && i < |Next(w, e).links|
    ensures Routed(Next(w, e).sam.clients, Next(w, e).links[i]) <==>
            if e.Accept? && e.link == i then true
            else
              && i < |w.links| && Routed(w.sam.clients, w.links[i])
              && !(e.Accept? && w.links[e.link].application == w.links[i].application)
              && !(e.TaskCloses? && e.link == i)
  {
    if e.Accept? {
      RoutingAfterAccept(w, e, i);
    } else if e.TaskCloses? {
      RoutingAfterClose(w, e, i);
    } else {
      RoutingOtherwise(w, e, i);
    }
  }

  lemma TaskOfRouted(w: World, e: Event, i: nat)
    requires Structure(w) && Enabled(w, e) && Bounded(Next(w, e)) && i < |Next(w, e).links|
    requires Routed(Next(w, e).sam.clients, Next(w, e).links[i])
    ensures Next(w, e).links[i].task == Pumping || Next(w, e).links[i].task == Closing
  {
    RoutingMoves(w, e, i);
    if e.Accept? {
      AcceptShape(w, e);
    } else {
      ReachOnlyQueues(w, e, i);
      assert w.links[i].task == Pumping || w.links[i].task == Closing;
    }
  }

  lemma PairIsKept(w: World, e: Event, i: nat, j: nat)
    requires Structure(w) && Enabled(w, e) && Bounded(Next(w, e)) && i < j < |Next(w, e).links|
    ensures PairOk(Next(w, e), i, j)
  {
    RoutingMoves(w, e, i);
    if j < |w.links| {
      assert PairOk(w, i, j);
      IdentityMoves(w, e, i);
      IdentityMoves(w, e, j);
      assert LinkOk(w.links[i], w.targets, w.sam.modes.state.Preparing?, w.registrations);
      assert LinkOk(w.links[j], w.targets, w.sam.modes.state.Preparing?, w.registrations);
      if e.Accept? {
        AcceptShape(w, e);
      }
    } else {
      assert e.Connect?;
    }
  }

  /** Every step keeps the structural invariant. */
  lemma StructureIsKept(w: World, e: Event)
    requires Structure(w) && Enabled(w, e) && Bounded(Next(w, e))
    ensures Structure(Next(w, e))
  {
    var w' := Next(w, e);
    if CallOf(w, e).Some? {
      CoherenceIsKeptExactly(w.sam, CallOf(w, e).value);
    }
    NumbersAreKept(w, e);
    LinksAreKept(w, e);
    forall i, j | 0 <= i < j < |w'.links|
      ensures PairOk(w', i, j)
    {
      PairIsKept(w, e, i, j);
    }
    forall i | 0 <= i < |w'.links| && Routed(w'.sam.clients, w'.links[i])
      ensures w'.links[i].task == Pumping || w'.links[i].task == Closing
    {
      TaskOfRouted(w, e, i);
    }
  }

  /** Ids only run out later: an earlier world of a bounded run is bounded. */
  lemma {:induction false} EarlierIsBounded(worlds: seq<World>, events: seq<Event>, i: nat, n: nat)
    requires IsWorldRun(worlds, events) && i <= n <= |events| && Bounded(worlds[n])
    ensures Bounded(worlds[i])
    decreases n - i
  {
    if i < n {
      EarlierIsBounded(worlds, events, i + 1, n);
      assert worlds[i + 1] == Next(worlds[i], events[i]);
    }
  }

  /** Every world of a bounded run satisfies the structural invariant. */
  lemma {:induction false} RunsAreStructured(worlds: seq<World>, events: seq<Event>, n: nat)
    requires IsWorldRun(worlds, events) && n <= |events| && Bounded(worlds[n])
    ensures Structure(worlds[n])
  {
    if n > 0 {
      EarlierIsBounded(worlds, events, n - 1, n);
      RunsAreStructured(worlds, events, n - 1);
      StructureIsKept(worlds[n - 1], events[n - 1]);
    }
  }
}
