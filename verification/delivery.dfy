/**
 What each session is told refines what SAM broadcasts: its own welcome first, and then, in order,
 broadcasts made since it was registered; all of them if its bounded queue never overflowed.
 */
module Delivery {
  import opened Protocol
  import opened ServiceSteps
  import opened Network
  import opened NetworkInvariant
  import Announcements

  /** `a` can be obtained from `b` by leaving out some of its members. */
  predicate Subsequence(a: seq<SamToApplication>, b: seq<SamToApplication>)
    decreases |b|
  {
    if a == [] then true
    else if b == [] then false
    else
      || (a[|a| - 1] == b[|b| - 1] && Subsequence(a[..|a| - 1], b[..|b| - 1]))
      || Subsequence(a, b[..|b| - 1])
  }

  lemma SubsequenceGrows(a: seq<SamToApplication>, b: seq<SamToApplication>, m: SamToApplication)
    requires Subsequence(a, b)
    ensures Subsequence(a, b + [m]) && Subsequence(a + [m], b + [m])
  {
    assert (b + [m])[..|b|] == b && (a + [m])[..|a|] == a;
  }

  /**
   What a link was told beyond its welcome, against the broadcasts since it joined: an unbroken initial
   stretch of them if nothing overflowed, and all of them while SAM still broadcasts to it.
   */
  ghost predicate Refines(l: Link, log: seq<SamToApplication>, routed: bool) {
    && |l.outbound| <= OUTBOUND_QUEUE_DEPTH
    && (l.connection.Some? ==>
          && Story(l) != [] && Story(l)[0].RegisterAccepted? && l.joined <= |log|
          && Subsequence(Story(l)[1..], log[l.joined..])
          && (!l.overflowed ==> Story(l)[1..] <= log[l.joined..])
          && (routed && !l.overflowed ==> Story(l)[1..] == log[l.joined..]))
  }

  ghost predicate DeliveredAt(w: World, i: nat)
    requires i < |w.links|
  {
    Refines(w.links[i], w.log, Routed(w.sam.clients, w.links[i]))
  }

  ghost predicate AllDelivered(w: World) {
    forall i :: 0 <= i < |w.links| ==> DeliveredAt(w, i)
  }

  lemma PushRefines(l: Link, log: seq<SamToApplication>, m: SamToApplication)
    requires Refines(l, log, true) && l.connection.Some?
    ensures Refines(Push(l, m), log + [m], true)
  {
    assert (log + [m])[l.joined..] == log[l.joined..] + [m];
    SubsequenceGrows(Story(l)[1..], log[l.joined..], m);
    PushTellsStory(l, m);
    assert (Story(l) + [m])[1..] == Story(l)[1..] + [m];
  }

  /** A link SAM no longer broadcasts to just falls behind. */
  lemma LogGrowsAlone(l: Link, log: seq<SamToApplication>, was: bool, m: SamToApplication)
    requires Refines(l, log, was)
    ensures Refines(l, log + [m], false)
  {
    if l.connection.Some? {
      assert (log + [m])[l.joined..] == log[l.joined..] + [m];
      SubsequenceGrows(Story(l)[1..], log[l.joined..], m);
    }
  }

  lemma ReachRefines(l: Link, log: seq<SamToApplication>, was: bool, clients: map<ApplicationId, ConnectionId>,
                     sent: Option<SamToApplication>)
    requires Refines(l, log, was) && (Routed(clients, l) ==> was)
    ensures Refines(Reach(l, clients, sent), LogAfter(log, sent), Routed(clients, l))
  {
    if sent.Some? {
      if Routed(clients, l) {
        PushRefines(l, log, sent.value);
      } else {
        LogGrowsAlone(l, log, was, sent.value);
      }
    }
  }

  lemma TouchedRefines(w: World, e: Event, i: nat)
    requires Structure(w) && AllDelivered(w) && Enabled(w, e) && !e.Accept? && i < |TouchedLinks(w, e)|
    ensures
      var t := TouchedLinks(w, e)[i];
      && Refines(t, w.log, Routed(w.sam.clients, t))
      && (i < |w.links| ==> t.application == w.links[i].application && t.connection == w.links[i].connection)
  {
    if i < |w.links| {
      assert DeliveredAt(w, i);
      assert LinkOk(w.links[i], w.targets, w.sam.modes.state.Preparing?, w.registrations);
      if e.ToClient? && e.link == i {
        DeliveryTellsStory(w.links[i]);
        assert Story(TouchedLinks(w, e)[i]) == Story(w.links[i]);
      } else {
        OwnEffectKeepsStory(w, e, i);
      }
    }
  }

  lemma AcceptRefines(w: World, e: Event, i: nat)
    requires Structure(w) && AllDelivered(w) && Enabled(w, e) && e.Accept? && Bounded(Next(w, e)) && i < |w.links|
    ensures DeliveredAt(Next(w, e), i)
  {
    AcceptShape(w, e);
    RoutingMoves(w, e, i);
    assert DeliveredAt(w, i);
  }

  lemma OtherwiseRefines(w: World, e: Event, i: nat)
    requires Structure(w) && AllDelivered(w) && Enabled(w, e) && !e.Accept? && Bounded(Next(w, e))
    requires i < |Next(w, e).links|
    ensures DeliveredAt(Next(w, e), i)
  {
    RoutingMoves(w, e, i);
    TouchedRefines(w, e, i);
    if CallOf(w, e).Some? {
      var t, out := TouchedLinks(w, e)[i], Perform(w.sam, CallOf(w, e).value);
      ReachRefines(t, w.log, Routed(w.sam.clients, t), out.service.clients, out.sent);
    }
  }

  lemma DeliveryIsKept(w: World, e: Event)
    requires Structure(w) && AllDelivered(w) && Enabled(w, e) && Bounded(Next(w, e))
    ensures AllDelivered(Next(w, e))
  {
    if e.Accept? {
      AcceptShape(w, e);
    }
    forall i | 0 <= i < |Next(w, e).links|
      ensures DeliveredAt(Next(w, e), i)
    {
      if e.Accept? {
        AcceptRefines(w, e, i);
      } else {
        OtherwiseRefines(w, e, i);
      }
    }
  }

  /** In every reachable world each queue is bounded and each session's story refines SAM's log. */
  lemma {:induction false} StoriesRefineLog(worlds: seq<World>, events: seq<Event>, n: nat)
    requires IsWorldRun(worlds, events) && n <= |events| && Bounded(worlds[n])
    ensures AllDelivered(worlds[n])
  {
    if n > 0 {
      EarlierIsBounded(worlds, events, n - 1, n);
      RunsAreStructured(worlds, events, n - 1);
      StoriesRefineLog(worlds, events, n - 1);
      assert worlds[n] == Next(worlds[n - 1], events[n - 1]);
      DeliveryIsKept(worlds[n - 1], events[n - 1]);
    }
  }

  // ---------------------------------------------------------------- the log itself

  /** From `start`, `calls` lead SAM to where it is in `w`, broadcasting exactly the log of `w`. */
  ghost predicate LeadsTo(start: Service, calls: seq<Call>, w: World) {
    After(start, calls) == w.sam && Broadcasts(start, calls) == w.log
  }

  function CallsOf(w: World, e: Event): seq<Call>
    requires Enabled(w, e)
  {
    if CallOf(w, e).Some? then [CallOf(w, e).value] else []
  }

  /** The calls on SAM that the first `n` events amount to. */
  ghost function CallsMade(worlds: seq<World>, events: seq<Event>, n: nat): seq<Call>
    requires IsWorldRun(worlds, events) && n <= |events|
  {
    if n == 0 then [] else CallsMade(worlds, events, n - 1) + CallsOf(worlds[n - 1], events[n - 1])
  }

  lemma EventIsACall(w: World, e: Event, start: Service, before: seq<Call>)
    requires Enabled(w, e) && LeadsTo(start, before, w)
    ensures LeadsTo(start, before + CallsOf(w, e), Next(w, e))
  {
    if CallOf(w, e).Some? {
      var call := CallOf(w, e).value;
      CallsCompose(start, before, [call]);
      OneCall(w.sam, call);
    } else {
      assert before + [] == before;
    }
  }

  /** Seen from SAM, a run of the system is a run of calls, and the log is everything it broadcast. */
  lemma {:induction false} SystemRunsSam(worlds: seq<World>, events: seq<Event>, n: nat)
    requires IsWorldRun(worlds, events) && n <= |events|
    ensures LeadsTo(NewService(worlds[0].sam.health.heartbeatTimeout), CallsMade(worlds, events, n), worlds[n])
  {
    var start := NewService(worlds[0].sam.health.heartbeatTimeout);
    if n > 0 {
      var before, w, e := CallsMade(worlds, events, n - 1), worlds[n - 1], events[n - 1];
      SystemRunsSam(worlds, events, n - 1);
      assert Enabled(w, e) && worlds[n] == Next(w, e);
      EventIsACall(w, e, start, before);
      assert CallsMade(worlds, events, n) == before + CallsOf(w, e);
    }
  }

  lemma OneCall(s: Service, call: Call)
    ensures After(s, [call]) == Perform(s, call).service
    ensures Broadcasts(s, [call]) == if Perform(s, call).sent.Some? then [Perform(s, call).sent.value] else []
  {
    assert After(Perform(s, call).service, [call][1..]) == Perform(s, call).service;
    assert Broadcasts(Perform(s, call).service, [call][1..]) == [];
  }

  /** The log that every session's story refines follows the grammar of announcements. */
  lemma LogFollowsGrammar(worlds: seq<World>, events: seq<Event>, n: nat)
    requires IsWorldRun(worlds, events) && n <= |events|
    ensures Announcements.Read(Announcements.Quiet(0, Startup), worlds[n].log).Some?
    ensures Announcements.Tells(Announcements.Read(Announcements.Quiet(0, Startup), worlds[n].log).value, worlds[n].sam)
  {
    SystemRunsSam(worlds, events, n);
    Announcements.FreshServiceIsQuiet(worlds[0].sam.health.heartbeatTimeout, CallsMade(worlds, events, n));
  }
}
