/**
 Termination. Handling tokens drives a measure that starts at four per participant down to the end
 of the transition: two for each of its two rounds, taking the order and having the answer heard.
 */
module Termination {
  import opened Protocol
  import opened Modes
  import opened Coherence
  import opened ManagerMoves
  import opened Client
  import opened Network
  import opened NetworkInvariant
  import opened Tokens
  import opened Sessions

  /** An answer of `a` to the active order is on its way. */
  ghost predicate Answered(w: World, a: ApplicationId) {
    exists i :: 0 <= i < |w.links| && AnswerOn(w, i, a)
  }

  ghost predicate AnswerOn(w: World, i: nat, a: ApplicationId)
    requires i < |w.links|
  {
    && w.links[i].application == a && Routed(w.sam.clients, w.links[i])
    && AnswersIn(w.links[i].uplink, w.sam.modes.state) > 0
  }

  ghost function Unanswered(w: World): set<ApplicationId> {
    set a | a in Waiting(w.sam.modes.state) && !Answered(w, a)
  }

  /** Four units of work per participant: take the order, hear the answer, in each of two rounds. */
  ghost function Measure(w: World): nat {
    match w.sam.modes.state
    case Stable(_) => 0
    case Preparing(_, _, _, waiting, ready) => 3 * |waiting| + |Unanswered(w)| + 2 * |ready|
    case Committing(_, _, _, waiting, _) => |waiting| + |Unanswered(w)|
  }

  /** A participant takes the active order, or SAM hears a participant's answer to it. */
  ghost predicate IsTokenStep(w: World, e: Event)
    requires Enabled(w, e)
  {
    var st := w.sam.modes.state;
    !st.Stable? &&
    match e
    case ToClient(i, _) =>
      var l := w.links[i];
      Routed(w.sam.clients, l) && l.application in Participants(st) && l.wire[0] == Token(st)
    case ToSam(i, _) =>
      var l := w.links[i];
      Routed(w.sam.clients, l) && l.application in Participants(st) && IsAnswer(st, l.uplink[0])
    case _ => false
  }

  /** A link just accepted has been sent nothing but its welcome. */
  lemma NewcomerServesNobody(w: World, e: Event, a: ApplicationId)
    requires Structure(w) && Enabled(w, e) && e.Accept? && Bounded(Next(w, e))
    ensures !Serves(Next(w, e), e.link, a)
  {
    AcceptShape(w, e);
  }

  /** A link that serves its application after a step was already the one routed to before it. */
  lemma ServedBySameLink(w: World, e: Event, a: ApplicationId, i: nat, k: nat)
    requires Structure(w) && Enabled(w, e) && Bounded(Next(w, e))
    requires i < |w.links| && w.links[i].application == a && Routed(w.sam.clients, w.links[i])
    requires Serves(Next(w, e), k, a)
    ensures k == i
  {
    if e.Accept? {
      NewcomerServesNobody(w, e, a);
    }
    RoutingMoves(w, e, k);
    IdentityMoves(w, e, k);
    if k != i {
      DistinctConnections(w, i, k);
    }
  }

  /** Whoever has answered stays answered while its session lasts and SAM has not heard it. */
  lemma AnswerStays(w: World, e: Event, a: ApplicationId, k: nat)
    requires Structure(w) && Enabled(w, e) && Bounded(Next(w, e)) && Answered(w, a)
    requires Next(w, e).sam.modes.state == w.sam.modes.state && !w.sam.modes.state.Stable?
    requires Serves(Next(w, e), k, a)
    requires !(e.ToSam? && IsTokenStep(w, e)) && a in Participants(w.sam.modes.state)
    ensures Answered(Next(w, e), a)
  {
    var i: nat :| i < |w.links| && AnswerOn(w, i, a);
    ServedBySameLink(w, e, a, i, k);
    UplinkKeepsAnswers(w, e, i);
    assert AnswerOn(Next(w, e), i, a);
  }

  lemma UplinkKeepsAnswers(w: World, e: Event, i: nat)
    requires Structure(w) && Enabled(w, e) && Bounded(Next(w, e)) && i < |w.links|
    requires AnswersIn(w.links[i].uplink, w.sam.modes.state) > 0
    requires Routed(w.sam.clients, w.links[i]) && !(e.ToSam? && IsTokenStep(w, e))
    requires w.links[i].application in Participants(w.sam.modes.state)
    ensures AnswersIn(Next(w, e).links[i].uplink, w.sam.modes.state) > 0
  {
    var l, st := w.links[i], w.sam.modes.state;
    assert LinkOk(l, w.targets, st.Preparing?, w.registrations);
    assert l.task != Accepting;
    ReachOnlyQueues(w, e, i);
    if e.ToClient? && e.link == i {
      var r := React(l.application, l.client, l.mode, l.wire[0], e.decision);
      if r.reply.Some? {
        AnswersAppend(l.uplink, st, r.reply.value);
      }
    } else if e.Beat? && e.link == i {
      AnswersAppend(l.uplink, st, Heartbeat(l.application, e.health, l.mode));
    }
  }

  lemma ShrunkBy(small: set<ApplicationId>, big: set<ApplicationId>, a: ApplicationId)
    requires small <= big && a in big && a !in small
    ensures |small| < |big|
  {
    assert small <= big - {a};
    SubsetIsSmaller(small, big - {a});
  }

  lemma {:induction false} SubsetIsSmaller(small: set<ApplicationId>, big: set<ApplicationId>)
    requires small <= big
    ensures |small| <= |big|
  {
    if small != {} {
      var x :| x in small;
      SubsetIsSmaller(small - {x}, big - {x});
    }
  }

  /** While SAM hears nothing new, nobody becomes unanswered. */
  lemma UnansweredShrinks(w: World, e: Event)
    requires Structure(w) && Enabled(w, e) && Bounded(Next(w, e))
    requires Next(w, e).sam.modes.state == w.sam.modes.state && !w.sam.modes.state.Stable?
    requires Intact(Next(w, e)) && !(e.ToSam? && IsTokenStep(w, e))
    ensures Unanswered(Next(w, e)) <= Unanswered(w)
  {
    forall a | a in Unanswered(Next(w, e))
      ensures a in Unanswered(w)
    {
      if Answered(w, a) {
        assert a in Participants(Next(w, e).sam.modes.state);
        var k: nat :| Serves(Next(w, e), k, a);
        AnswerStays(w, e, a, k);
      }
    }
  }

  /** A participant's client takes the active order. */
  lemma TakingFalls(w: World, e: Event)
    requires Structure(w) && AllTokens(w) && Enabled(w, e) && Bounded(Next(w, e))
    requires e.ToClient? && IsTokenStep(w, e) && Intact(Next(w, e))
    ensures Measure(Next(w, e)) < Measure(w)
  {
    var w', st, l := Next(w, e), w.sam.modes.state, w.links[e.link];
    var a := l.application;
    assert TokenAt(w, e.link) && LinkOk(l, w.targets, st.Preparing?, w.registrations);
    HeadOfStory(l, w.targets, st.Preparing?, w.registrations);
    assert Queue(l)[0] == Token(st) && Token(st) in Story(l);
    assert multiset(Queue(l))[Token(st)] >= 1;
    UnansweredShrinks(w, e);
    assert a !in Unanswered(w') by {
      TakenIsAnswered(w, e);
    }
    assert a in Unanswered(w) by {
      if Answered(w, a) {
        var i :| 0 <= i < |w.links| && AnswerOn(w, i, a);
        if i != e.link {
          DistinctConnections(w, i, e.link);
        }
      }
    }
    ShrunkBy(Unanswered(w'), Unanswered(w), a);
  }

  lemma TakenIsAnswered(w: World, e: Event)
    requires Structure(w) && Enabled(w, e) && Bounded(Next(w, e))
    requires e.ToClient? && IsTokenStep(w, e) && Intact(Next(w, e))
    ensures Answered(Next(w, e), w.links[e.link].application)
  {
    var w', st, l := Next(w, e), w.sam.modes.state, w.links[e.link];
    var a := l.application;
    HeadOfStory(l, w.targets, st.Preparing?, w.registrations);
    var k: nat :| Serves(w', k, a);
    ServedBySameLink(w, e, a, e.link, k);
    var r := React(a, l.client, l.mode, l.wire[0], e.decision);
    assert LinkOk(l, w.targets, st.Preparing?, w.registrations);
    assert r.reply.Some? && IsAnswer(st, r.reply.value);
    AnswersAppend(l.uplink, st, r.reply.value);
    assert AnswerOn(w', e.link, a);
  }

  /** SAM hears a participant's answer. */
  lemma HearingFalls(w: World, e: Event)
    requires Structure(w) && AllTokens(w) && Enabled(w, e) && Bounded(Next(w, e))
    requires e.ToSam? && IsTokenStep(w, e) && (Intact(Next(w, e)) || Next(w, e).sam.modes.state.Stable?)
    requires TokenDue(w, e.link)
    ensures Measure(Next(w, e)) < Measure(w)
  {
    var w', st, l, call := Next(w, e), w.sam.modes.state, w.links[e.link], CallOf(w, e).value;
    var a, t := l.application, w'.sam.modes.state;
    var mv := MoveOf(w.sam, call);
    EveryCallMoves(w.sam, call);
    HeardMoves(w, e);
    assert AnswerOn(w, e.link, a);
    if mv.Readied? || mv.Confirmed? {
      assert |st.waitingFor - {a}| == |st.waitingFor| - 1;
      if mv.Readied? {
        assert a !in st.ready;
        assert |st.ready + {a}| == |st.ready| + 1;
      }
      HearingKeepsOthers(w, e, a);
      SubsetIsSmaller(Unanswered(w'), Unanswered(w));
    } else if mv.AllReady? {
      assert a !in st.ready;
      assert |st.ready + {a}| == |st.ready| + 1;
      SubsetIsSmaller(Unanswered(w'), t.waitingFor);
    } else {
      assert |st.waitingFor| > 0;
    }
  }

  /** The serving link's own token is accounted for. */
  ghost predicate TokenDue(w: World, i: nat)
    requires i < |w.links|
  {
    !w.sam.modes.state.Stable? && !w.links[i].client.Ended? && Token(w.sam.modes.state) in Story(w.links[i])
  }

  /** An answer due is never ignored: hearing it moves the manager. */
  lemma HeardMoves(w: World, e: Event)
    requires Structure(w) && AllTokens(w) && Enabled(w, e) && Bounded(Next(w, e))
    requires e.ToSam? && IsTokenStep(w, e) && TokenDue(w, e.link)
    ensures !MoveOf(w.sam, CallOf(w, e).value).Still?
  {
    var st, l, call := w.sam.modes.state, w.links[e.link], CallOf(w, e).value;
    assert TokenAt(w, e.link) && LinkOk(l, w.targets, st.Preparing?, w.registrations);
    assert SaidOk(l, l.uplink[0]);
    if l.uplink[0].ModeCommitted? {
      OrderInStory(l, CommitMode(l.uplink[0].transitionId, l.uplink[0].mode), w.targets, st.Preparing?,
                   w.registrations);
    }
    UselessExactly(w.sam, call);
  }

  /** Hearing one answer leaves everybody else's standing. */
  lemma HearingKeepsOthers(w: World, e: Event, a: ApplicationId)
    requires Structure(w) && Enabled(w, e) && Bounded(Next(w, e)) && e.ToSam?
    requires a == w.links[e.link].application && Answered(w, a) && Intact(Next(w, e))
    requires
      var st, t := w.sam.modes.state, Next(w, e).sam.modes.state;
      && ((st.Preparing? && t.Preparing?) || (st.Committing? && t.Committing?))
      && st.transitionId == t.transitionId && t.waitingFor == st.waitingFor - {a}
    ensures Unanswered(Next(w, e)) <= Unanswered(w)
  {
    var w' := Next(w, e);
    forall b | b in Unanswered(w')
      ensures b in Unanswered(w)
    {
      if b != a && Answered(w, b) {
        var i: nat :| i < |w.links| && AnswerOn(w, i, b);
        RoutingMoves(w, e, i);
        SameRoundSameAnswers(w.links[i].uplink, w.sam.modes.state, w'.sam.modes.state);
        assert AnswerOn(w', i, b);
      }
    }
  }

  /**
   An event that spares the participants' sessions never raises the measure, and every token step
   lowers it, the one that ends the transition included.
   */
  lemma MeasureFalls(w: World, e: Event)
    requires Structure(w) && AllTokens(w) && Enabled(w, e) && Bounded(Next(w, e))
    requires !w.sam.modes.state.Stable? && Intact(w) && Undisturbing(w, e)
    ensures Measure(Next(w, e)) + (if IsTokenStep(w, e) then 1 else 0) <= Measure(w)
  {
    IntactIsKept(w, e);
    if IsTokenStep(w, e) {
      if e.ToClient? {
        TakingFalls(w, e);
      } else {
        var a := w.links[e.link].application;
        var i: nat :| Serves(w, i, a);
        if i != e.link {
          DistinctConnections(w, i, e.link);
        }
        HearingFalls(w, e);
      }
    } else {
      OnlyTokensMoveManager(w, e);
      UnansweredShrinks(w, e);
      SubsetIsSmaller(Unanswered(Next(w, e)), Unanswered(w));
    }
  }

  lemma OnlyTokensMoveManager(w: World, e: Event)
    requires Structure(w) && Enabled(w, e) && Bounded(Next(w, e))
    requires !w.sam.modes.state.Stable? && !IsTokenStep(w, e)
    ensures Next(w, e).sam.modes.state == w.sam.modes.state
  {
    if CallOf(w, e).Some? {
      EveryCallMoves(w.sam, CallOf(w, e).value);
      if e.ToSam? {
        UselessExactly(w.sam, CallOf(w, e).value);
      }
    }
  }

  /** How many of the events from `p` up to `q` are token steps. */
  ghost function TokenSteps(worlds: seq<World>, events: seq<Event>, p: nat, q: nat): nat
    requires IsWorldRun(worlds, events) && p <= q <= |events|
    decreases q
  {
    if p == q then 0
    else TokenSteps(worlds, events, p, q - 1) + (if IsTokenStep(worlds[q - 1], events[q - 1]) then 1 else 0)
  }

  /** A transition starts with four units of work per participant. */
  lemma OpeningMeasure(w: World, e: Event)
    requires Structure(w) && Enabled(w, e) && w.sam.modes.state.Stable? && !Next(w, e).sam.modes.state.Stable?
    ensures Measure(Next(w, e)) <= 4 * |w.sam.clients.Keys|
  {
    EveryCallMoves(w.sam, CallOf(w, e).value);
    var t := Next(w, e).sam.modes.state;
    assert t.waitingFor == w.sam.clients.Keys && t.ready == {};
    SubsetIsSmaller(Unanswered(Next(w, e)), t.waitingFor);
  }

  lemma OpenMeansWork(w: World)
    requires Structure(w) && !w.sam.modes.state.Stable?
    ensures Measure(w) > 0
  {
    assert |w.sam.modes.state.waitingFor| > 0;
  }

  lemma StepFalls(worlds: seq<World>, events: seq<Event>, r: nat, q: nat)
    requires Uninterrupted(worlds, events, r, q) && r + 1 < q
    ensures
      Measure(worlds[q]) + (if IsTokenStep(worlds[q - 1], events[q - 1]) then 1 else 0) <= Measure(worlds[q - 1])
  {
    EarlierIsBounded(worlds, events, q - 1, q);
    RunsAreStructured(worlds, events, q - 1);
    RunsKeepTokens(worlds, events, q - 1);
    UninterruptedBefore(worlds, events, r, q);
    TransitionsStayIntact(worlds, events, r, q - 1);
    assert worlds[q] == Next(worlds[q - 1], events[q - 1]);
    MeasureFalls(worlds[q - 1], events[q - 1]);
  }

  lemma BudgetStarts(worlds: seq<World>, events: seq<Event>, r: nat)
    requires IsWorldRun(worlds, events) && r < |events| && Bounded(worlds[r]) && worlds[r].sam.modes.state.Stable?
    ensures Measure(worlds[r + 1]) <= 4 * |worlds[r].sam.clients.Keys|
  {
    RunsAreStructured(worlds, events, r);
    if !worlds[r + 1].sam.modes.state.Stable? {
      OpeningMeasure(worlds[r], events[r]);
    }
  }

  lemma {:induction false} TransitionBudget(worlds: seq<World>, events: seq<Event>, r: nat, q: nat)
    requires Uninterrupted(worlds, events, r, q)
    ensures TokenSteps(worlds, events, r + 1, q) + Measure(worlds[q]) <= 4 * |worlds[r].sam.clients.Keys|
    decreases q
  {
    if q == r + 1 {
      EarlierIsBounded(worlds, events, r, q);
      BudgetStarts(worlds, events, r);
    } else {
      UninterruptedBefore(worlds, events, r, q);
      TransitionBudget(worlds, events, r, q - 1);
      StepFalls(worlds, events, r, q);
      assert TokenSteps(worlds, events, r + 1, q) == TokenSteps(worlds, events, r + 1, q - 1)
        + (if IsTokenStep(worlds[q - 1], events[q - 1]) then 1 else 0);
    }
  }

  /**
   A transition opened across n attending clients takes at most 4n token steps as long as events spare
   its participants' sessions, and fewer while it is still open: 4n of them bring the manager back to
   `Stable`.
   */
  lemma TransitionsTerminate(worlds: seq<World>, events: seq<Event>, r: nat, q: nat)
    requires Uninterrupted(worlds, events, r, q)
    ensures
      var steps, n := TokenSteps(worlds, events, r + 1, q), |worlds[r].sam.clients.Keys|;
      steps <= 4 * n && (steps == 4 * n ==> worlds[q].sam.modes.state.Stable?)
  {
    TransitionBudget(worlds, events, r, q);
    RunsAreStructured(worlds, events, q);
    if !worlds[q].sam.modes.state.Stable? {
      OpenMeansWork(worlds[q]);
    }
  }
}
