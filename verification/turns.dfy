/**
 How a token gets through its queues. Each stage of its way is a FIFO of which the enabled step moves
 the head, not necessarily the token: the step brings the token nearer, and no other step takes it
 further away.
 */
module Turns {
  import opened Protocol
  import opened Modes
  import opened ServiceSteps
  import opened ManagerMoves
  import opened Client
  import opened Network
  import opened NetworkInvariant
  import opened Tokens
  import opened Sessions
  import opened Termination

  /** Where a token is: the queue, counted from the end of its way, and how many messages are ahead of it there. */
  datatype Place = Place(stage: nat, ahead: nat)

  predicate Nearer(p: Place, q: Place) {
    p.stage < q.stage || (p.stage == q.stage && p.ahead < q.ahead)
  }

  /** How many members of `queue` come before the first `m`. */
  function AheadOf(queue: seq<SamToApplication>, m: SamToApplication): nat
    decreases |queue|
  {
    if queue == [] || queue[0] == m then 0 else 1 + AheadOf(queue[1..], m)
  }

  /** How many messages come before the first answer. */
  function AheadOfAnswer(uplink: seq<ApplicationToSam>, st: ModeManagerState): nat
    decreases |uplink|
  {
    if uplink == [] || IsAnswer(st, uplink[0]) then 0 else 1 + AheadOfAnswer(uplink[1..], st)
  }

  /** The place of the token on a link that has exactly one. */
  function PlaceOf(st: ModeManagerState, l: Link): Place
    requires !st.Stable?
  {
    if Token(st) in l.outbound then Place(2, AheadOf(l.outbound, Token(st)))
    else if Token(st) in l.wire then Place(1, AheadOf(l.wire, Token(st)))
    else Place(0, AheadOfAnswer(l.uplink, st))
  }

  /** The step that moves the head of the queue the token is in. */
  function Mover(st: ModeManagerState, l: Link, i: nat, d: Decision, now: nat): Event
    requires !st.Stable?
  {
    if Token(st) in l.outbound then Forward(i)
    else if Token(st) in l.wire then ToClient(i, d)
    else ToSam(i, now)
  }

  lemma {:induction false} AppendingKeepsAhead(queue: seq<SamToApplication>, m: SamToApplication, more: SamToApplication)
    requires m in queue
    ensures AheadOf(queue + [more], m) == AheadOf(queue, m)
    decreases |queue|
  {
    if queue[0] != m {
      assert (queue + [more])[1..] == queue[1..] + [more];
      AppendingKeepsAhead(queue[1..], m, more);
    }
  }

  lemma {:induction false} AppendingKeepsAheadOfAnswer(uplink: seq<ApplicationToSam>, st: ModeManagerState,
                                                       more: ApplicationToSam)
    requires AnswersIn(uplink, st) > 0
    ensures AheadOfAnswer(uplink + [more], st) == AheadOfAnswer(uplink, st)
    decreases |uplink|
  {
    if !IsAnswer(st, uplink[0]) {
      assert (uplink + [more])[1..] == uplink[1..] + [more];
      AppendingKeepsAheadOfAnswer(uplink[1..], st, more);
    }
  }

  lemma {:induction false} SameRoundSameAhead(uplink: seq<ApplicationToSam>, st: ModeManagerState, t: ModeManagerState)
    requires !st.Stable? && !t.Stable? && Token(st) == Token(t)
    ensures AheadOfAnswer(uplink, st) == AheadOfAnswer(uplink, t)
    decreases |uplink|
  {
    if uplink != [] {
      SameRoundSameAhead(uplink[1..], st, t);
    }
  }

  /** A link's token, when there is exactly one, is in one of its three queues and nowhere else. */
  lemma OnePlace(st: ModeManagerState, l: Link)
    requires !st.Stable? && Outstanding(st, l) == 1
    ensures Token(st) in l.outbound ==> Token(st) !in l.wire && AnswersIn(l.uplink, st) == 0
    ensures Token(st) in l.wire ==> AnswersIn(l.uplink, st) == 0
    ensures Token(st) !in l.outbound && Token(st) !in l.wire ==> AnswersIn(l.uplink, st) == 1
    ensures multiset(l.outbound)[Token(st)] <= 1 && multiset(l.wire)[Token(st)] <= 1
  {
    var token := Token(st);
    assert multiset(Queue(l)) == multiset(l.wire) + multiset(l.outbound);
    assert token in l.wire <==> multiset(l.wire)[token] > 0;
    assert token in l.outbound <==> multiset(l.outbound)[token] > 0;
  }

  // ---------------------------------------------------------------- a link's own queues

  lemma ForwardingBringsNearer(st: ModeManagerState, l: Link)
    requires !st.Stable? && Outstanding(st, l) == 1 && l.outbound != []
    ensures
      var l' := l.(wire := l.wire + [l.outbound[0]], outbound := l.outbound[1..]);
      if Token(st) in l.outbound then Nearer(PlaceOf(st, l'), PlaceOf(st, l)) else PlaceOf(st, l') == PlaceOf(st, l)
  {
    OnePlace(st, l);
    var token, head, rest := Token(st), l.outbound[0], l.outbound[1..];
    assert l.outbound == [head] + rest;
    assert multiset(l.outbound) == multiset{head} + multiset(rest);
    assert token in rest <==> multiset(rest)[token] > 0;
    if token !in l.outbound && token in l.wire {
      AppendingKeepsAhead(l.wire, token, head);
    }
  }

  /** Taking the head of the wire: the token itself, or a message ahead of it, or one that leaves it where it was. */
  lemma TakingBringsNearer(st: ModeManagerState, l: Link, d: Decision)
    requires !st.Stable? && Outstanding(st, l) == 1 && l.wire != [] && l.wire[0] != Token(st)
    ensures
      var l' := HeadTaken(l, d);
      if Token(st) in l.wire then Nearer(PlaceOf(st, l'), PlaceOf(st, l)) else PlaceOf(st, l') == PlaceOf(st, l)
  {
    OnePlace(st, l);
    var r := React(l.application, l.client, l.mode, l.wire[0], d);
    assert l.wire == [l.wire[0]] + l.wire[1..];
    if Token(st) !in l.outbound && Token(st) !in l.wire && r.reply.Some? {
      AppendingKeepsAheadOfAnswer(l.uplink, st, r.reply.value);
    }
  }

  /** Hearing the head of the uplink when it is not the answer. */
  lemma HearingBringsNearer(st: ModeManagerState, l: Link, l': Link)
    requires !st.Stable? && Outstanding(st, l) == 1 && l.uplink != [] && !IsAnswer(st, l.uplink[0])
    requires l' == l.(uplink := l.uplink[1..], task := l'.task)
    ensures
      if Token(st) in l.outbound || Token(st) in l.wire then PlaceOf(st, l') == PlaceOf(st, l)
      else Nearer(PlaceOf(st, l'), PlaceOf(st, l))
  {
    OnePlace(st, l);
  }

  /** A further message in the outbound queue is behind the token. */
  lemma PushKeepsPlace(st: ModeManagerState, l: Link, m: SamToApplication)
    requires !st.Stable? && m != Token(st)
    ensures PlaceOf(st, Push(l, m)) == PlaceOf(st, l)
  {
    if HasRoom(l) && Token(st) in l.outbound {
      AppendingKeepsAhead(l.outbound, Token(st), m);
    }
  }

  // ---------------------------------------------------------------- the whole system

  /** While the active order is the same, a step only adds state announcements behind what an event did to the link. */
  lemma PlaceAfterReach(w: World, e: Event, i: nat)
    requires Structure(w) && Enabled(w, e) && i < |TouchedLinks(w, e)|
    requires !w.sam.modes.state.Stable? && !Next(w, e).sam.modes.state.Stable?
    requires Token(Next(w, e).sam.modes.state) == Token(w.sam.modes.state)
    ensures i < |Next(w, e).links|
    ensures PlaceOf(Next(w, e).sam.modes.state, Next(w, e).links[i]) ==
            PlaceOf(w.sam.modes.state, TouchedLinks(w, e)[i])
  {
    var st, t, l := w.sam.modes.state, Next(w, e).sam.modes.state, TouchedLinks(w, e)[i];
    ReachOnlyQueues(w, e, i);
    SameRoundSameAhead(l.uplink, st, t);
    if CallOf(w, e).Some? {
      var out := Perform(w.sam, CallOf(w, e).value);
      EveryCallMoves(w.sam, CallOf(w, e).value);
      if out.sent.Some? {
        PushKeepsPlace(t, l, out.sent.value);
      }
    }
  }

  /** The step that moves the queue a token is in is enabled, and moves the token itself or brings it nearer. */
  lemma MoverBringsNearer(w: World, i: nat, a: ApplicationId, d: Decision, now: nat)
    requires Structure(w) && AllTokens(w) && Serves(w, i, a) && a in Waiting(w.sam.modes.state)
    ensures
      var e := Mover(w.sam.modes.state, w.links[i], i, d, now);
      && Enabled(w, e)
      && (Bounded(Next(w, e)) && !IsTokenStep(w, e) ==>
            && Next(w, e).sam.modes.state == w.sam.modes.state
            && Nearer(PlaceOf(w.sam.modes.state, Next(w, e).links[i]), PlaceOf(w.sam.modes.state, w.links[i])))
  {
    var st, l := w.sam.modes.state, w.links[i];
    var e := Mover(st, l, i, d, now);
    OneTokenMoves(w, i, a, d, now);
    OnePlace(st, l);
    if Bounded(Next(w, e)) && !IsTokenStep(w, e) {
      OnlyTokensMoveManager(w, e);
      PlaceAfterReach(w, e, i);
      if e.Forward? {
        ForwardingBringsNearer(st, l);
      } else if e.ToClient? {
        TakingBringsNearer(st, l, d);
      } else {
        HearingBringsNearer(st, l, Touched(w, e));
      }
    }
  }

  /** An event's own effect on a link whose token it does not move. */
  lemma TouchNeverPushesBack(w: World, e: Event, i: nat, a: ApplicationId)
    requires Structure(w) && AllTokens(w) && Enabled(w, e) && !e.Accept?
    requires Serves(w, i, a) && a in Waiting(w.sam.modes.state)
    requires e.ToSam? && e.link == i ==> !IsAnswer(w.sam.modes.state, w.links[i].uplink[0])
    requires e.ToClient? && e.link == i ==> w.links[i].wire[0] != Token(w.sam.modes.state)
    ensures !Nearer(PlaceOf(w.sam.modes.state, w.links[i]), PlaceOf(w.sam.modes.state, TouchedLinks(w, e)[i]))
  {
    var st, l, t := w.sam.modes.state, w.links[i], TouchedLinks(w, e)[i];
    assert TokenAt(w, i);
    OnePlace(st, l);
    match e
    case Forward(k) => if k == i { ForwardingBringsNearer(st, l); }
    case ToClient(k, d) => if k == i { TakingBringsNearer(st, l, d); }
    case ToSam(k, _) => if k == i { HearingBringsNearer(st, l, t); }
    case Beat(k, health) =>
      if k == i && AnswersIn(l.uplink, st) > 0 {
        AppendingKeepsAheadOfAnswer(l.uplink, st, Heartbeat(l.application, health, l.mode));
      }
    case _ =>
  }

  /** Taking the token off the wire turns it into an answer on its way up. */
  lemma TakingTheTokenTurnsIt(st: ModeManagerState, l: Link, d: Decision)
    requires !st.Stable? && Outstanding(st, l) == 1 && l.wire != [] && l.wire[0] == Token(st)
    ensures Nearer(PlaceOf(st, HeadTaken(l, d)), PlaceOf(st, l))
  {
    OnePlace(st, l);
    var rest := l.wire[1..];
    assert l.wire == [l.wire[0]] + rest;
    assert multiset(l.wire) == multiset{l.wire[0]} + multiset(rest);
    assert Token(st) in rest <==> multiset(rest)[Token(st)] > 0;
  }

  /** An application whose answer is heard is no longer waited for in the same round. */
  lemma HeardIsNotAwaited(w: World, e: Event, a: ApplicationId)
    requires Structure(w) && AllTokens(w) && Enabled(w, e) && Bounded(Next(w, e)) && e.ToSam?
    requires Serves(w, e.link, a) && a in Waiting(w.sam.modes.state)
    requires IsAnswer(w.sam.modes.state, w.links[e.link].uplink[0])
    ensures
      var st, t := w.sam.modes.state, Next(w, e).sam.modes.state;
      t.Stable? || Token(t) != Token(st) || a !in t.waitingFor
  {
    HeardMoves(w, e);
    EveryCallMoves(w.sam, CallOf(w, e).value);
  }

  /** No event that spares an awaited application's session takes its token further from the end of its way. */
  lemma NothingPushesBack(w: World, e: Event, i: nat, a: ApplicationId)
    requires Structure(w) && AllTokens(w) && Enabled(w, e) && Bounded(Next(w, e))
    requires Serves(w, i, a) && a in Waiting(w.sam.modes.state) && Spares(w, e, i)
    requires
      var st, t := w.sam.modes.state, Next(w, e).sam.modes.state;
      !t.Stable? && Token(t) == Token(st) && a in t.waitingFor
    ensures Serves(Next(w, e), i, a)
    ensures !Nearer(PlaceOf(w.sam.modes.state, w.links[i]), PlaceOf(Next(w, e).sam.modes.state, Next(w, e).links[i]))
  {
    SparedStaysServed(w, e, i, a);
    if e.Accept? {
      AcceptShape(w, e);
    } else {
      PlaceAfterReach(w, e, i);
      if e.ToSam? && e.link == i && IsAnswer(w.sam.modes.state, w.links[i].uplink[0]) {
        HeardIsNotAwaited(w, e, a);
      } else if e.ToClient? && e.link == i && w.links[i].wire[0] == Token(w.sam.modes.state) {
        assert TokenAt(w, i);
        TakingTheTokenTurnsIt(w.sam.modes.state, w.links[i], e.decision);
      } else {
        TouchNeverPushesBack(w, e, i, a);
      }
    }
  }
}
