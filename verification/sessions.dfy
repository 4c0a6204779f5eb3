/**
 Deadlock freedom. A transition opened across sessions that are all served, alive and have room
 reaches every participant, and as long as no participant's session is cut, closed, displaced or
 fails, and has room for the commit order, everyone SAM waits for has exactly one token on its way.
 */
module Sessions {
  import opened Protocol
  import opened Modes
  import opened ServiceSteps
  import opened ManagerMoves
  import opened Client
  import opened Network
  import opened NetworkInvariant
  import opened Conformance
  import opened Tokens

  /** Link `i` serves `a`: routed, pumped, alive, and sent the active order. */
  ghost predicate Serves(w: World, i: nat, a: ApplicationId) {
    && i < |w.links| && w.links[i].application == a
    && Routed(w.sam.clients, w.links[i]) && w.links[i].task == Pumping && !w.links[i].client.Ended?
    && !w.sam.modes.state.Stable? && Token(w.sam.modes.state) in Story(w.links[i])
  }

  /** Every participant is served by a link that was sent the active order. */
  ghost predicate Intact(w: World) {
    forall a :: a in Participants(w.sam.modes.state) ==> exists i :: Serves(w, i, a)
  }

  // ---------------------------------------------------------------- every client has its link

  ghost predicate Carries(w: World, i: nat, a: ApplicationId) {
    i < |w.links| && w.links[i].application == a && Routed(w.sam.clients, w.links[i])
  }

  /** Every connection in SAM's map is that of some link. */
  ghost predicate Linked(w: World) {
    forall a :: a in w.sam.clients ==> exists i :: Carries(w, i, a)
  }

  lemma ClientStaysLinked(w: World, e: Event, a: ApplicationId) returns (i: nat)
    requires Structure(w) && Linked(w) && Enabled(w, e) && Bounded(Next(w, e)) && a in Next(w, e).sam.clients
    ensures Carries(Next(w, e), i, a)
  {
    if e.Accept? && w.links[e.link].application == a {
      i := e.link;
    } else {
      if e.Accept? {
        AcceptShape(w, e);
      } else if CallOf(w, e).Some? {
        ClientsMove(w.sam, CallOf(w, e).value);
      }
      i :| Carries(w, i, a);
    }
    RoutingMoves(w, e, i);
    IdentityMoves(w, e, i);
  }

  lemma LinkedIsKept(w: World, e: Event)
    requires Structure(w) && Linked(w) && Enabled(w, e) && Bounded(Next(w, e))
    ensures Linked(Next(w, e))
  {
    forall a | a in Next(w, e).sam.clients
      ensures exists i :: Carries(Next(w, e), i, a)
    {
      var i := ClientStaysLinked(w, e, a);
    }
  }

  lemma {:induction false} RunsAreLinked(worlds: seq<World>, events: seq<Event>, n: nat)
    requires IsWorldRun(worlds, events) && n <= |events| && Bounded(worlds[n])
    ensures Linked(worlds[n])
  {
    if n > 0 {
      EarlierIsBounded(worlds, events, n - 1, n);
      RunsAreStructured(worlds, events, n - 1);
      RunsAreLinked(worlds, events, n - 1);
      assert worlds[n] == Next(worlds[n - 1], events[n - 1]);
      LinkedIsKept(worlds[n - 1], events[n - 1]);
    }
  }

  // ---------------------------------------------------------------- what a transition asks of its sessions

  /** Every session SAM broadcasts to is being served, has a live client, and has room for one more message. */
  ghost predicate AllAttend(w: World) {
    forall i :: 0 <= i < |w.links| && Routed(w.sam.clients, w.links[i]) ==>
      w.links[i].task == Pumping && !w.links[i].client.Ended? && HasRoom(w.links[i])
  }

  /** The event makes SAM order the commit. */
  predicate OrdersCommit(w: World, e: Event)
    requires Enabled(w, e)
  {
    CallOf(w, e).Some? &&
    var sent := Perform(w.sam, CallOf(w, e).value).sent;
    sent.Some? && sent.value.CommitMode?
  }

  /**
   The event neither cuts nor closes the session on link `i`, does not displace it, is not a callback
   its handler fails, and does not find its queue full when the commit is ordered.
   */
  predicate Spares(w: World, e: Event, i: nat)
    requires Enabled(w, e) && i < |w.links|
  {
    && (OrdersCommit(w, e) ==> HasRoom(w.links[i]))
    && match e
       case Accept(k, _) => w.links[k].application != w.links[i].application
       case TaskGivesUp(k) => k != i
       case TaskCloses(k, _) => k != i
       case ClientEnds(k, _) => k != i
       case ToClient(k, d) => k == i ==> !HeadTaken(w.links[i], d).client.Ended?
       case _ => true
  }

  /** The event spares the session of every participant. */
  ghost predicate Undisturbing(w: World, e: Event)
    requires Enabled(w, e)
  {
    forall i :: 0 <= i < |w.links| && Routed(w.sam.clients, w.links[i]) ==>
      w.links[i].application in Participants(w.sam.modes.state) ==> Spares(w, e, i)
  }

  // ---------------------------------------------------------------- the orders get through

  /** A transition opened while everyone attends reaches every participant. */
  lemma OpeningIsIntact(w: World, e: Event)
    requires Structure(w) && Linked(w) && Enabled(w, e) && AllAttend(w)
    requires w.sam.modes.state.Stable? && !Next(w, e).sam.modes.state.Stable?
    ensures Intact(Next(w, e))
  {
    EveryCallMoves(w.sam, CallOf(w, e).value);
    var w' := Next(w, e);
    forall a | a in Participants(w'.sam.modes.state)
      ensures exists i :: Serves(w', i, a)
    {
      var i: nat :| Carries(w, i, a);
      PushTellsStory(w.links[i], Token(w'.sam.modes.state));
      assert Serves(w', i, a);
    }
  }

  /** What a link was ever sent is never forgotten. */
  lemma StoryOnlyGrows(w: World, e: Event, i: nat, m: SamToApplication)
    requires Enabled(w, e) && i < |w.links| && m in Story(w.links[i]) && !e.Accept?
    ensures m in Story(Next(w, e).links[i])
  {
    var l, t := w.links[i], TouchedLinks(w, e)[i];
    if e.ToClient? && e.link == i {
      DeliveryTellsStory(l);
      assert Story(t) == Story(l);
    } else {
      OwnEffectKeepsStory(w, e, i);
      assert Story(t) == Story(l);
    }
    if CallOf(w, e).Some? && Perform(w.sam, CallOf(w, e).value).sent.Some? {
      PushTellsStory(t, Perform(w.sam, CallOf(w, e).value).sent.value);
    }
  }

  /** A commit order reaches every link with room. */
  lemma OrderIsQueued(w: World, e: Event, i: nat)
    requires Enabled(w, e) && i < |w.links| && e.ToSam? && OrdersCommit(w, e)
    requires HasRoom(w.links[i]) && Routed(Next(w, e).sam.clients, Next(w, e).links[i])
    ensures Perform(w.sam, CallOf(w, e).value).sent.value in Story(Next(w, e).links[i])
  {
    ReachOnlyQueues(w, e, i);
    PushTellsStory(TouchedLinks(w, e)[i], Perform(w.sam, CallOf(w, e).value).sent.value);
  }

  /** The active order after an event is the one before it, or the commit just ordered. */
  lemma TokenMoves(w: World, e: Event)
    requires Structure(w) && Enabled(w, e) && !w.sam.modes.state.Stable? && !Next(w, e).sam.modes.state.Stable?
    ensures Participants(Next(w, e).sam.modes.state) == Participants(w.sam.modes.state)
    ensures
      var token := Token(Next(w, e).sam.modes.state);
      if OrdersCommit(w, e) then e.ToSam? && Perform(w.sam, CallOf(w, e).value).sent == Some(token)
      else token == Token(w.sam.modes.state)
  {
    if CallOf(w, e).Some? {
      EveryCallMoves(w.sam, CallOf(w, e).value);
    }
  }

  /** A session that is spared goes on being served. */
  lemma SparedIsPumped(w: World, e: Event, i: nat)
    requires Structure(w) && Enabled(w, e) && Bounded(Next(w, e)) && i < |w.links| && Spares(w, e, i)
    requires Routed(w.sam.clients, w.links[i]) && w.links[i].task == Pumping && !w.links[i].client.Ended?
    ensures
      var l' := Next(w, e).links[i];
      Routed(Next(w, e).sam.clients, l') && l'.task == Pumping && !l'.client.Ended?
  {
    RoutingMoves(w, e, i);
    ReachOnlyQueues(w, e, i);
    if e.ToSam? {
      MessageIsServed(w, e);
    }
  }

  lemma SparedStaysServed(w: World, e: Event, i: nat, a: ApplicationId)
    requires Structure(w) && Enabled(w, e) && Bounded(Next(w, e))
    requires Serves(w, i, a) && Spares(w, e, i) && !Next(w, e).sam.modes.state.Stable?
    ensures Serves(Next(w, e), i, a)
  {
    SparedIsPumped(w, e, i);
    IdentityMoves(w, e, i);
    TokenMoves(w, e);
    if e.Accept? {
      AcceptShape(w, e);
    } else if OrdersCommit(w, e) {
      OrderIsQueued(w, e, i);
    } else {
      StoryOnlyGrows(w, e, i, Token(w.sam.modes.state));
    }
  }

  /** An event that spares the participants' sessions leaves all of them served, across the move to the commit round too. */
  lemma IntactIsKept(w: World, e: Event)
    requires Structure(w) && Enabled(w, e) && Bounded(Next(w, e))
    requires !w.sam.modes.state.Stable? && Intact(w) && Undisturbing(w, e)
    ensures Intact(Next(w, e))
  {
    if !Next(w, e).sam.modes.state.Stable? {
      TokenMoves(w, e);
      forall a | a in Participants(Next(w, e).sam.modes.state)
        ensures exists i :: Serves(Next(w, e), i, a)
      {
        var i: nat :| Serves(w, i, a);
        SparedStaysServed(w, e, i, a);
      }
    }
  }

  /**
   Call `r` finds SAM at rest and everyone attending; from then until world `q`, which may be at rest
   again, a transition is open and every event spares its participants' sessions.
   */
  ghost predicate Uninterrupted(worlds: seq<World>, events: seq<Event>, r: nat, q: nat) {
    && IsWorldRun(worlds, events) && r < q <= |events| && Bounded(worlds[q])
    && worlds[r].sam.modes.state.Stable? && AllAttend(worlds[r])
    && forall k :: r < k < q ==> !worlds[k].sam.modes.state.Stable? && Undisturbing(worlds[k], events[k])
  }

  lemma UninterruptedBefore(worlds: seq<World>, events: seq<Event>, r: nat, q: nat)
    requires Uninterrupted(worlds, events, r, q) && r + 1 < q
    ensures Uninterrupted(worlds, events, r, q - 1)
  {
    EarlierIsBounded(worlds, events, q - 1, q);
  }

  /** All the while, every participant is served by a link that was sent the active order. */
  lemma {:induction false} TransitionsStayIntact(worlds: seq<World>, events: seq<Event>, r: nat, q: nat)
    requires Uninterrupted(worlds, events, r, q)
    ensures Intact(worlds[q])
    decreases q
  {
    EarlierIsBounded(worlds, events, q - 1, q);
    RunsAreStructured(worlds, events, q - 1);
    assert worlds[q] == Next(worlds[q - 1], events[q - 1]);
    if q > r + 1 {
      UninterruptedBefore(worlds, events, r, q);
      TransitionsStayIntact(worlds, events, r, q - 1);
      IntactIsKept(worlds[q - 1], events[q - 1]);
    } else if !worlds[q].sam.modes.state.Stable? {
      RunsAreLinked(worlds, events, r);
      OpeningIsIntact(worlds[r], events[r]);
    }
  }

  /**
   While its participants' sessions are spared, nothing in a transition can block: everyone SAM waits
   for has exactly one token outstanding on the link that serves it, and the step that moves the head
   of the queue holding the token is enabled.
   */
  lemma WaitingMeansOneToken(worlds: seq<World>, events: seq<Event>, r: nat, q: nat, a: ApplicationId, d: Decision,
                             now: nat)
    returns (i: nat)
    requires Uninterrupted(worlds, events, r, q) && a in Waiting(worlds[q].sam.modes.state)
    ensures Serves(worlds[q], i, a)
    ensures
      var w := worlds[q];
      var l, st := w.links[i], w.sam.modes.state;
      && Outstanding(st, l) == 1
      && (Token(st) in l.wire || Token(st) in l.outbound || AnswersIn(l.uplink, st) == 1)
      && (Token(st) in l.wire ==> Enabled(w, ToClient(i, d)))
      && (Token(st) in l.outbound ==> Enabled(w, Forward(i)))
      && (AnswersIn(l.uplink, st) == 1 ==> Enabled(w, ToSam(i, now)))
  {
    TransitionsStayIntact(worlds, events, r, q);
    RunsKeepTokens(worlds, events, q);
    assert a in Participants(worlds[q].sam.modes.state);
    i :| Serves(worlds[q], i, a);
    OneTokenMoves(worlds[q], i, a, d, now);
  }

  lemma OneTokenMoves(w: World, i: nat, a: ApplicationId, d: Decision, now: nat)
    requires AllTokens(w) && Serves(w, i, a) && a in Waiting(w.sam.modes.state)
    ensures
      var l, st := w.links[i], w.sam.modes.state;
      && Outstanding(st, l) == 1
      && (Token(st) in l.wire || Token(st) in l.outbound || AnswersIn(l.uplink, st) == 1)
      && (Token(st) in l.wire ==> Enabled(w, ToClient(i, d)))
      && (Token(st) in l.outbound ==> Enabled(w, Forward(i)))
      && (AnswersIn(l.uplink, st) == 1 ==> Enabled(w, ToSam(i, now)))
  {
    assert TokenAt(w, i);
    var q := Queue(w.links[i]);
    assert Token(w.sam.modes.state) in q <==> multiset(q)[Token(w.sam.modes.state)] > 0;
  }
}
