/**
 Tokens: a live session that was sent the active order has exactly one token outstanding while SAM
 waits for its application, the order on its way down or the answer on its way up, and none otherwise.
 */
module Tokens {
  import opened Protocol
  import opened Modes
  import opened ServiceSteps
  import opened Coherence
  import opened ManagerMoves
  import opened Client
  import opened Network
  import opened NetworkInvariant

  /** The order of the active round. */
  function Token(st: ModeManagerState): SamToApplication
    requires !st.Stable?
  {
    if st.Preparing? then PrepareMode(st.transitionId, st.targetMode) else CommitMode(st.transitionId, st.targetMode)
  }

  /** A response the active round is waiting for, whatever it says. */
  predicate IsAnswer(st: ModeManagerState, m: ApplicationToSam) {
    match st
    case Stable(_) => false
    case Preparing(id, _, _, _, _) => (m.ModeReady? || m.ModeRejected?) && m.transitionId == id
    case Committing(id, _, _, _, _) => m.ModeCommitted? && m.transitionId == id
  }

  function AnswersIn(uplink: seq<ApplicationToSam>, st: ModeManagerState): nat
    decreases |uplink|
  {
    if uplink == [] then 0 else (if IsAnswer(st, uplink[0]) then 1 else 0) + AnswersIn(uplink[1..], st)
  }

  function Outstanding(st: ModeManagerState, l: Link): nat
    requires !st.Stable?
  {
    multiset(Queue(l))[Token(st)] + AnswersIn(l.uplink, st)
  }

  /** A live client that was sent the active order owes an answer exactly while SAM waits for it. */
  ghost predicate TokenOk(st: ModeManagerState, l: Link) {
    !st.Stable? && !l.client.Ended? && Token(st) in Story(l) && l.application in Participants(st) ==>
      Outstanding(st, l) == if l.application in st.waitingFor then 1 else 0
  }

  ghost predicate TokenAt(w: World, i: nat)
    requires i < |w.links|
  {
    Routed(w.sam.clients, w.links[i]) ==> TokenOk(w.sam.modes.state, w.links[i])
  }

  ghost predicate AllTokens(w: World) {
    forall i :: 0 <= i < |w.links| ==> TokenAt(w, i)
  }

  lemma {:induction false} AnswersAppend(uplink: seq<ApplicationToSam>, st: ModeManagerState, m: ApplicationToSam)
    ensures AnswersIn(uplink + [m], st) == AnswersIn(uplink, st) + (if IsAnswer(st, m) then 1 else 0)
    decreases |uplink|
  {
    if uplink == [] {
      assert (uplink + [m])[1..] == [];
    } else {
      assert (uplink + [m])[1..] == uplink[1..] + [m];
      AnswersAppend(uplink[1..], st, m);
    }
  }

  lemma {:induction false} AnswerIsFound(uplink: seq<ApplicationToSam>, st: ModeManagerState) returns (m: ApplicationToSam)
    requires AnswersIn(uplink, st) > 0
    ensures m in uplink && IsAnswer(st, m)
    decreases |uplink|
  {
    if IsAnswer(st, uplink[0]) {
      m := uplink[0];
    } else {
      m := AnswerIsFound(uplink[1..], st);
    }
  }

  /** Rounds of the same kind and number take the same answers. */
  lemma {:induction false} SameRoundSameAnswers(uplink: seq<ApplicationToSam>, st: ModeManagerState, t: ModeManagerState)
    requires (st.Preparing? && t.Preparing?) || (st.Committing? && t.Committing?)
    requires st.transitionId == t.transitionId
    ensures AnswersIn(uplink, st) == AnswersIn(uplink, t)
    decreases |uplink|
  {
    if uplink != [] {
      SameRoundSameAnswers(uplink[1..], st, t);
    }
  }

  // ---------------------------------------------------------------- client steps

  /** A client that takes its next message owes an answer for it exactly if it was the active order. */
  lemma TakenKeepsToken(st: ModeManagerState, l: Link, d: Decision, targets: seq<SystemMode>, registrations: nat)
    requires LinkOk(l, targets, st.Preparing?, registrations) && l.wire != [] && !l.client.Ended?
    requires !st.Stable? && |targets| > 0 && st.transitionId == |targets| && st.targetMode == targets[|targets| - 1]
    requires TokenOk(st, l)
    ensures TokenOk(st, HeadTaken(l, d))
  {
    var l', r := HeadTaken(l, d), React(l.application, l.client, l.mode, l.wire[0], d);
    HeadOfStory(l, targets, st.Preparing?, registrations);
    DeliveryTellsStory(l);
    assert Story(l') == Story(l);
    assert multiset(Queue(l)) == multiset{l.wire[0]} + multiset(Queue(l')) by {
      assert Queue(l) == [l.wire[0]] + Queue(l');
    }
    if r.reply.Some? {
      AnswersAppend(l.uplink, st, r.reply.value);
      assert IsAnswer(st, r.reply.value) <==> l.wire[0] == Token(st);
    }
  }

  lemma DeliveryKeepsToken(w: World, e: Event)
    requires Structure(w) && Enabled(w, e) && e.ToClient? && TokenOk(w.sam.modes.state, w.links[e.link])
    ensures TokenOk(w.sam.modes.state, Next(w, e).links[e.link])
  {
    var l, st := w.links[e.link], w.sam.modes.state;
    assert LinkOk(l, w.targets, st.Preparing?, w.registrations);
    if !st.Stable? {
      TakenKeepsToken(st, l, e.decision, w.targets, w.registrations);
    }
  }

  /** Nothing said or heard, or a heartbeat only: the token stays where it was. */
  lemma QuietKeepsToken(st: ModeManagerState, l: Link, l': Link)
    requires TokenOk(st, l) && l'.application == l.application && Queue(l') == Queue(l) && Story(l') == Story(l)
    requires l'.client.Ended? || !l.client.Ended?
    requires l'.uplink == l.uplink
             || exists m :: l'.uplink == l.uplink + [m] && m.Heartbeat?
    ensures TokenOk(st, l')
  {
    if l'.uplink != l.uplink {
      var m :| l'.uplink == l.uplink + [m] && m.Heartbeat?;
      AnswersAppend(l.uplink, st, m);
    }
  }

  lemma OwnStepIsQuiet(w: World, e: Event, i: nat)
    requires Enabled(w, e) && CallOf(w, e).None? && !e.Accept? && i < |w.links| && !(e.ToClient? && e.link == i)
    requires TokenOk(w.sam.modes.state, w.links[i])
    ensures TokenOk(w.sam.modes.state, TouchedLinks(w, e)[i])
  {
    var l, l' := w.links[i], TouchedLinks(w, e)[i];
    OwnEffectKeepsStory(w, e, i);
    if e.Beat? && e.link == i {
      assert l'.uplink == l.uplink + [Heartbeat(l.application, e.health, l.mode)];
    }
    QuietKeepsToken(w.sam.modes.state, l, l');
  }

  lemma OwnStepKeepsToken(w: World, e: Event, i: nat)
    requires Structure(w) && AllTokens(w) && Enabled(w, e) && CallOf(w, e).None? && !e.Accept?
    requires i < |Next(w, e).links|
    ensures TokenAt(Next(w, e), i)
  {
    RoutingOtherwise(w, e, i);
    if i < |w.links| {
      assert TokenAt(w, i);
      if Routed(w.sam.clients, w.links[i]) {
        if e.ToClient? && e.link == i {
          DeliveryKeepsToken(w, e);
        } else {
          OwnStepIsQuiet(w, e, i);
        }
      }
    }
  }

  // ---------------------------------------------------------------- calls on SAM

  /** The order that opens a round is new to every link, and nobody has answered it yet. */
  lemma FreshToken(l: Link, targets: seq<SystemMode>, preparing: bool, registrations: nat, t: ModeManagerState)
    requires LinkOk(l, targets, preparing, registrations) && l.connection.Some? && !t.Stable?
    requires if t.Preparing? then t.transitionId == |targets| + 1 else preparing && t.transitionId == |targets|
    ensures Token(t) !in Story(l) && AnswersIn(l.uplink, t) == 0
  {
    if Token(t) in Story(l) {
      OrderInStory(l, Token(t), targets, preparing, registrations);
    }
    if AnswersIn(l.uplink, t) > 0 {
      var m := AnswerIsFound(l.uplink, t);
      assert SaidOk(l, m);
      if m.ModeCommitted? {
        OrderInStory(l, CommitMode(m.transitionId, m.mode), targets, preparing, registrations);
      } else {
        var order :| order in l.received && order.PrepareMode? && order.transitionId == m.transitionId;
        OrderInStory(l, order, targets, preparing, registrations);
      }
    }
  }

  /** The order that opens round `t` reaches a link that has not seen it. */
  lemma FreshRoundToken(t: ModeManagerState, l: Link, clients: map<ApplicationId, ConnectionId>)
    requires !t.Stable? && Token(t) !in Story(l) && AnswersIn(l.uplink, t) == 0
    requires l.application in Participants(t) ==> l.application in t.waitingFor
    ensures TokenOk(t, Reach(l, clients, Some(Token(t))))
  {
    PushTellsStory(l, Token(t));
    assert Token(t) !in Queue(l) by {
      assert forall m :: m in Queue(l) ==> m in Story(l);
    }
  }

  /** `t` is the round `st`, with the same standing for `a`. */
  ghost predicate SameRound(st: ModeManagerState, t: ModeManagerState, a: ApplicationId) {
    && ((st.Preparing? && t.Preparing?) || (st.Committing? && t.Committing?))
    && st.transitionId == t.transitionId && st.targetMode == t.targetMode
    && (a in Participants(st) <==> a in Participants(t))
    && (a in st.waitingFor <==> a in t.waitingFor)
  }

  /** Queueing anything but the active order leaves the token where it was. */
  lemma PushKeepsToken(t: ModeManagerState, l: Link, m: SamToApplication)
    requires TokenOk(t, l) && (t.Stable? || m != Token(t))
    ensures TokenOk(t, Push(l, m))
  {
    PushTellsStory(l, m);
    assert multiset(Queue(l) + [m]) == multiset(Queue(l)) + multiset{m};
    if !t.Stable? {
      assert Token(t) in Story(l) + [m] <==> Token(t) in Story(l);
    }
  }

  lemma SameRoundToken(st: ModeManagerState, t: ModeManagerState, l: Link, clients: map<ApplicationId, ConnectionId>,
                       sent: Option<SamToApplication>)
    requires SameRound(st, t, l.application) && TokenOk(st, l)
    requires sent.None? || sent.value.StateBroadcast?
    ensures TokenOk(t, Reach(l, clients, sent))
  {
    SameRoundSameAnswers(l.uplink, st, t);
    assert TokenOk(t, l);
    if sent.Some? {
      PushKeepsToken(t, l, sent.value);
    }
  }

  /** A link that did not itself speak, across a call on SAM and the broadcast that may follow. */
  lemma BystanderKeepsToken(s: Service, call: Call, l: Link, targets: seq<SystemMode>, lastCommit: nat,
                            registrations: nat)
    requires Sound(s) && l.connection.Some? && Routed(s.clients, l)
    requires LinkOk(l, targets, s.modes.state.Preparing?, registrations)
    requires Numbered(s.modes, targets, lastCommit) && |TargetsAfter(targets, Perform(s, call).sent)| < WORD
    requires TokenOk(s.modes.state, l)
    requires call.DoMessage? ==> call.registered != l.application || !Speaks(s, call.registered, call.connection)
    ensures TokenOk(Perform(s, call).service.modes.state,
                    Reach(l, Perform(s, call).service.clients, Perform(s, call).sent))
  {
    var out, st := Perform(s, call), s.modes.state;
    var t := out.service.modes.state;
    var mv := MoveOf(s, call);
    EveryCallMoves(s, call);
    if mv.Opened? || mv.AllReady? {
      if mv.Opened? {
        IdBeforeWrap(|targets|);
      }
      FreshToken(l, targets, st.Preparing?, registrations, t);
      FreshRoundToken(t, l, out.service.clients);
    } else if !t.Stable? {
      SameRoundToken(st, t, l, out.service.clients, out.sent);
    }
  }

  /** The speaking link: its message has left the uplink, taken effect, and been broadcast about. */
  lemma SpeakerKeepsToken(s: Service, call: Call, l: Link, l': Link, targets: seq<SystemMode>, lastCommit: nat,
                          registrations: nat)
    requires Sound(s) && l.uplink != [] && l.connection.Some? && Routed(s.clients, l)
    requires call.DoMessage? && call.registered == l.application && call.connection == l.connection.value
    requires call.message == l.uplink[0]
    requires LinkOk(l, targets, s.modes.state.Preparing?, registrations)
    requires Numbered(s.modes, targets, lastCommit) && |targets| < WORD
    requires TokenOk(s.modes.state, l)
    requires l' == l.(uplink := l.uplink[1..], task := l'.task)
    ensures TokenOk(Perform(s, call).service.modes.state,
                    Reach(l', Perform(s, call).service.clients, Perform(s, call).sent))
  {
    var out, st := Perform(s, call), s.modes.state;
    var t := out.service.modes.state;
    var mv := MoveOf(s, call);
    EveryCallMoves(s, call);
    assert SaidOk(l, call.message);
    if mv.AllReady? {
      FreshToken(l, targets, true, registrations, t);
      FreshRoundToken(t, l', out.service.clients);
    } else if mv.Still? && !st.Stable? {
      UnmovedTokenOk(s, call, l, l', targets, registrations);
      SameRoundToken(st, t, l', out.service.clients, out.sent);
    } else if mv.Readied? || mv.Confirmed? {
      SameRoundSameAnswers(l'.uplink, st, t);
    }
  }

  /** A message from a link that owes an answer, if it is one, always moves the manager. */
  lemma UnmovedTokenOk(s: Service, call: Call, l: Link, l': Link, targets: seq<SystemMode>, registrations: nat)
    requires Sound(s) && l.uplink != [] && l.connection.Some? && Routed(s.clients, l)
    requires call.DoMessage? && call.registered == l.application && call.connection == l.connection.value
    requires call.message == l.uplink[0] && SaidOk(l, call.message)
    requires LinkOk(l, targets, s.modes.state.Preparing?, registrations)
    requires !s.modes.state.Stable? && |targets| > 0 && s.modes.state.targetMode == targets[|targets| - 1]
    requires s.modes.state.transitionId == |targets|
    requires TokenOk(s.modes.state, l) && Perform(s, call).service.modes == s.modes
    requires l' == l.(uplink := l.uplink[1..], task := l'.task)
    ensures TokenOk(s.modes.state, l')
  {
    var st, m := s.modes.state, call.message;
    if IsAnswer(st, m) && m.ModeCommitted? {
      OrderInStory(l, CommitMode(m.transitionId, m.mode), targets, false, registrations);
    }
    UselessExactly(s, call);
  }

  lemma CallKeepsToken(w: World, e: Event, i: nat)
    requires Structure(w) && AllTokens(w) && Enabled(w, e) && Bounded(Next(w, e))
    requires CallOf(w, e).Some? && i < |Next(w, e).links|
    ensures TokenAt(Next(w, e), i)
  {
    var l, call := w.links[i], CallOf(w, e).value;
    assert TokenAt(w, i) && LinkOk(l, w.targets, w.sam.modes.state.Preparing?, w.registrations);
    if e.Accept? {
      AcceptShape(w, e);
      RoutingAfterAccept(w, e, i);
    } else {
      RoutingMoves(w, e, i);
      if Routed(Next(w, e).sam.clients, Next(w, e).links[i]) {
        if e.ToSam? && e.link == i {
          SpeakerKeepsToken(w.sam, call, l, Touched(w, e), w.targets, w.lastCommit, w.registrations);
        } else {
          if e.ToSam? {
            DistinctConnections(w, i, e.link);
          }
          BystanderKeepsToken(w.sam, call, l, w.targets, w.lastCommit, w.registrations);
        }
      }
    }
  }

  lemma TokensAreKept(w: World, e: Event)
    requires Structure(w) && AllTokens(w) && Enabled(w, e) && Bounded(Next(w, e))
    ensures AllTokens(Next(w, e))
  {
    if e.Accept? {
      AcceptShape(w, e);
    }
    forall i | 0 <= i < |Next(w, e).links|
      ensures TokenAt(Next(w, e), i)
    {
      if CallOf(w, e).Some? {
        CallKeepsToken(w, e, i);
      } else {
        OwnStepKeepsToken(w, e, i);
      }
    }
  }

  lemma {:induction false} RunsKeepTokens(worlds: seq<World>, events: seq<Event>, n: nat)
    requires IsWorldRun(worlds, events) && n <= |events| && Bounded(worlds[n])
    ensures AllTokens(worlds[n])
  {
    if n > 0 {
      EarlierIsBounded(worlds, events, n - 1, n);
      RunsAreStructured(worlds, events, n - 1);
      RunsKeepTokens(worlds, events, n - 1);
      assert worlds[n] == Next(worlds[n - 1], events[n - 1]);
      TokensAreKept(worlds[n - 1], events[n - 1]);
    }
  }
}
