/**
 Consent: behind every response on its way to SAM stands a decision of the handler that took the order,
 so no commit is ordered over a handler that refused, and no mode becomes the system's over a handler
 that failed to apply it.
 */
module Consent {
  import opened Protocol
  import opened Modes
  import opened ManagerMoves
  import opened Client
  import opened Network
  import opened NetworkInvariant
  import opened Sessions

  /** Taking the head of its wire with decision `d`, the session on `l` has reason to say `m`. */
  predicate HasReason(l: Link, d: Decision, m: ApplicationToSam) {
    && l.client.Running? && l.wire != [] && m.application == l.application
    && match m
       case ModeReady(_, id) => l.wire[0].PrepareMode? && l.wire[0].transitionId == id && d.prepares
       case ModeRejected(_, id, reason) =>
         l.wire[0].PrepareMode? && l.wire[0].transitionId == id && !d.prepares && d.reason == reason
       case ModeCommitted(_, id, mode) => l.wire[0] == CommitMode(id, mode) && d.commits
       case _ => false
  }

  predicate IsResponse(m: ApplicationToSam) {
    m.ModeReady? || m.ModeRejected? || m.ModeCommitted?
  }

  /** At event `k` the session on link `i` had reason to say `m`. */
  ghost predicate Decided(worlds: seq<World>, events: seq<Event>, k: nat, i: nat, m: ApplicationToSam)
    requires |worlds| == |events| + 1 && k < |events|
  {
    && events[k].ToClient? && events[k].link == i && i < |worlds[k].links|
    && HasReason(worlds[k].links[i], events[k].decision, m)
  }

  lemma NewResponsesAreDecided(w: World, e: Event, i: nat, m: ApplicationToSam)
    requires Enabled(w, e) && i < |Next(w, e).links| && IsResponse(m) && m in Next(w, e).links[i].uplink
    ensures
      || (i < |w.links| && m in w.links[i].uplink)
      || (e.ToClient? && e.link == i && i < |w.links| && HasReason(w.links[i], e.decision, m))
  {
    ReachOnlyQueues(w, e, i);
  }

  /** Every response on an uplink was decided by the handler of that session, as it says. */
  lemma {:induction false} ResponsesAreDecided(worlds: seq<World>, events: seq<Event>, n: nat, i: nat,
                                               m: ApplicationToSam)
    returns (k: nat)
    requires IsWorldRun(worlds, events) && n <= |events| && i < |worlds[n].links|
    requires IsResponse(m) && m in worlds[n].links[i].uplink
    ensures k < n && Decided(worlds, events, k, i, m)
  {
    k := 0;
    if n > 0 {
      var w, e := worlds[n - 1], events[n - 1];
      assert worlds[n] == Next(w, e);
      NewResponsesAreDecided(w, e, i, m);
      if i < |w.links| && m in w.links[i].uplink {
        k := ResponsesAreDecided(worlds, events, n - 1, i, m);
      } else {
        k := n - 1;
      }
    }
  }

  /** Before event `n` a handler of `a` decided to say `m`. */
  ghost predicate StandsBehind(worlds: seq<World>, events: seq<Event>, n: nat, a: ApplicationId, m: ApplicationToSam)
    requires |worlds| == |events| + 1 && n <= |events|
  {
    exists k, i: nat :: 0 <= k < n && Decided(worlds, events, k, i, m) && m.application == a
  }

  /** A handler of every member of `crowd` decided to approve transition `id`. */
  ghost predicate AllApprove(worlds: seq<World>, events: seq<Event>, n: nat, crowd: set<ApplicationId>, id: TransitionId)
    requires |worlds| == |events| + 1 && n <= |events|
  {
    forall a :: a in crowd ==> StandsBehind(worlds, events, n, a, ModeReady(a, id))
  }

  /** A handler of every member of `crowd` applied the mode of transition `id`. */
  ghost predicate AllApply(worlds: seq<World>, events: seq<Event>, n: nat, crowd: set<ApplicationId>, id: TransitionId,
                           mode: SystemMode)
    requires |worlds| == |events| + 1 && n <= |events|
  {
    forall a :: a in crowd ==> StandsBehind(worlds, events, n, a, ModeCommitted(a, id, mode))
  }

  /** Every approval and confirmation SAM has counted for the active transition is a handler's decision. */
  ghost predicate Backed(worlds: seq<World>, events: seq<Event>, n: nat)
    requires |worlds| == |events| + 1 && n <= |events|
  {
    match worlds[n].sam.modes.state
    case Stable(_) => true
    case Preparing(id, _, _, _, ready) => AllApprove(worlds, events, n, ready, id)
    case Committing(id, _, target, waiting, committed) =>
      AllApprove(worlds, events, n, waiting + committed, id) && AllApply(worlds, events, n, committed, id, target)
  }

  lemma StillBehind(worlds: seq<World>, events: seq<Event>, n: nat, a: ApplicationId, m: ApplicationToSam)
    requires |worlds| == |events| + 1 && n < |events| && StandsBehind(worlds, events, n, a, m)
    ensures StandsBehind(worlds, events, n + 1, a, m)
  {
    var k, i: nat :| 0 <= k < n && Decided(worlds, events, k, i, m) && m.application == a;
    assert 0 <= k < n + 1;
  }

  lemma StillApprove(worlds: seq<World>, events: seq<Event>, n: nat, crowd: set<ApplicationId>, id: TransitionId)
    requires |worlds| == |events| + 1 && n < |events| && AllApprove(worlds, events, n, crowd, id)
    ensures AllApprove(worlds, events, n + 1, crowd, id)
  {
    forall a | a in crowd
      ensures StandsBehind(worlds, events, n + 1, a, ModeReady(a, id))
    {
      StillBehind(worlds, events, n, a, ModeReady(a, id));
    }
  }

  lemma StillApply(worlds: seq<World>, events: seq<Event>, n: nat, crowd: set<ApplicationId>, id: TransitionId,
                   mode: SystemMode)
    requires |worlds| == |events| + 1 && n < |events| && AllApply(worlds, events, n, crowd, id, mode)
    ensures AllApply(worlds, events, n + 1, crowd, id, mode)
  {
    forall a | a in crowd
      ensures StandsBehind(worlds, events, n + 1, a, ModeCommitted(a, id, mode))
    {
      StillBehind(worlds, events, n, a, ModeCommitted(a, id, mode));
    }
  }

  /** What SAM hears over a link was decided behind it. */
  lemma HeardIsBacked(worlds: seq<World>, events: seq<Event>, n: nat)
    requires IsWorldRun(worlds, events) && n < |events| && events[n].ToSam?
    requires IsResponse(worlds[n].links[events[n].link].uplink[0])
    ensures
      var m := worlds[n].links[events[n].link].uplink[0];
      StandsBehind(worlds, events, n, m.application, m)
  {
    var m := worlds[n].links[events[n].link].uplink[0];
    var k := ResponsesAreDecided(worlds, events, n, events[n].link, m);
  }

  lemma PreparingStaysBacked(worlds: seq<World>, events: seq<Event>, n: nat)
    requires IsWorldRun(worlds, events) && n < |events| && Structure(worlds[n]) && Backed(worlds, events, n)
    requires worlds[n].sam.modes.state.Preparing? && CallOf(worlds[n], events[n]).Some?
    ensures Backed(worlds, events, n + 1)
  {
    var w, e, st := worlds[n], events[n], worlds[n].sam.modes.state;
    var mv := MoveOf(w.sam, CallOf(w, e).value);
    EveryCallMoves(w.sam, CallOf(w, e).value);
    StillApprove(worlds, events, n, st.ready, st.transitionId);
    if mv.Readied? || mv.AllReady? {
      HeardIsBacked(worlds, events, n);
      StillBehind(worlds, events, n, mv.who, ModeReady(mv.who, st.transitionId));
    }
  }

  /** How the commit round moves: not at all, to its end, or by one confirmation heard. */
  lemma ConfirmationMoves(w: World, e: Event)
    requires Structure(w) && Enabled(w, e) && w.sam.modes.state.Committing? && CallOf(w, e).Some?
    ensures
      var st, t := w.sam.modes.state, Next(w, e).sam.modes.state;
      || t == st
      || t.Stable?
      || (&& t.Committing? && e.ToSam? && t.transitionId == st.transitionId && t.targetMode == st.targetMode
          && var a := w.links[e.link].application;
             && w.links[e.link].uplink[0] == ModeCommitted(a, st.transitionId, st.targetMode)
             && t.committed == st.committed + {a} && t.waitingFor + t.committed == st.waitingFor + st.committed)
  {
    EveryCallMoves(w.sam, CallOf(w, e).value);
  }

  /** One more application confirms, over the link that `events[n]` hears. */
  lemma OneMoreApplies(worlds: seq<World>, events: seq<Event>, n: nat, crowd: set<ApplicationId>, a: ApplicationId,
                       id: TransitionId, mode: SystemMode)
    requires IsWorldRun(worlds, events) && n < |events| && events[n].ToSam?
    requires worlds[n].links[events[n].link].uplink[0] == ModeCommitted(a, id, mode)
    requires AllApply(worlds, events, n, crowd, id, mode)
    ensures AllApply(worlds, events, n + 1, crowd + {a}, id, mode)
  {
    StillApply(worlds, events, n, crowd, id, mode);
    HeardIsBacked(worlds, events, n);
    StillBehind(worlds, events, n, a, ModeCommitted(a, id, mode));
  }

  lemma CommittingStaysBacked(worlds: seq<World>, events: seq<Event>, n: nat)
    requires IsWorldRun(worlds, events) && n < |events| && Structure(worlds[n]) && Backed(worlds, events, n)
    requires worlds[n].sam.modes.state.Committing? && CallOf(worlds[n], events[n]).Some?
    ensures Backed(worlds, events, n + 1)
  {
    var w, e, st := worlds[n], events[n], worlds[n].sam.modes.state;
    assert worlds[n + 1] == Next(w, e);
    ConfirmationMoves(w, e);
    StillApprove(worlds, events, n, st.waitingFor + st.committed, st.transitionId);
    if worlds[n + 1].sam.modes.state == st {
      StillApply(worlds, events, n, st.committed, st.transitionId, st.targetMode);
    } else if worlds[n + 1].sam.modes.state.Committing? {
      OneMoreApplies(worlds, events, n, st.committed, w.links[e.link].application, st.transitionId, st.targetMode);
    }
  }

  lemma BackingMoves(worlds: seq<World>, events: seq<Event>, n: nat)
    requires IsWorldRun(worlds, events) && n < |events| && Structure(worlds[n]) && Backed(worlds, events, n)
    ensures Backed(worlds, events, n + 1)
  {
    var w, e, st := worlds[n], events[n], worlds[n].sam.modes.state;
    assert worlds[n + 1] == Next(w, e);
    if CallOf(w, e).None? {
      if st.Preparing? {
        StillApprove(worlds, events, n, st.ready, st.transitionId);
      } else if st.Committing? {
        StillApprove(worlds, events, n, st.waitingFor + st.committed, st.transitionId);
        StillApply(worlds, events, n, st.committed, st.transitionId, st.targetMode);
      }
    } else if st.Preparing? {
      PreparingStaysBacked(worlds, events, n);
    } else if st.Committing? {
      CommittingStaysBacked(worlds, events, n);
    } else {
      EveryCallMoves(w.sam, CallOf(w, e).value);
    }
  }

  lemma {:induction false} RunsAreBacked(worlds: seq<World>, events: seq<Event>, n: nat)
    requires IsWorldRun(worlds, events) && n <= |events| && Bounded(worlds[n])
    ensures Backed(worlds, events, n)
  {
    if n > 0 {
      EarlierIsBounded(worlds, events, n - 1, n);
      RunsAreStructured(worlds, events, n - 1);
      RunsAreBacked(worlds, events, n - 1);
      BackingMoves(worlds, events, n - 1);
    }
  }

  /** When a commit is ordered, a handler of every participant has taken the order to prepare and prepared. */
  lemma NoCommitOverARefusal(worlds: seq<World>, events: seq<Event>, n: nat, a: ApplicationId)
    requires IsWorldRun(worlds, events) && n < |events| && Bounded(worlds[n + 1])
    requires OrdersCommit(worlds[n], events[n]) && a in Participants(worlds[n].sam.modes.state)
    ensures worlds[n].sam.modes.state.Preparing?
    ensures StandsBehind(worlds, events, n + 1, a, ModeReady(a, worlds[n].sam.modes.state.transitionId))
  {
    EarlierIsBounded(worlds, events, n, n + 1);
    RunsAreStructured(worlds, events, n);
    RunsAreBacked(worlds, events, n + 1);
    assert worlds[n + 1] == Next(worlds[n], events[n]);
    EveryCallMoves(worlds[n].sam, CallOf(worlds[n], events[n]).value);
  }

  /** When a transition completes, a handler of every participant has prepared and has applied the new mode. */
  lemma NoCompletionOverAFailure(worlds: seq<World>, events: seq<Event>, n: nat, a: ApplicationId)
    requires IsWorldRun(worlds, events) && n < |events| && Bounded(worlds[n + 1])
    requires worlds[n].sam.modes.state.Committing? && worlds[n + 1].sam.modes.state.Stable?
    requires a in Participants(worlds[n].sam.modes.state)
    ensures
      var st := worlds[n].sam.modes.state;
      && worlds[n + 1].sam.system.mode == st.targetMode
      && StandsBehind(worlds, events, n, a, ModeReady(a, st.transitionId))
      && StandsBehind(worlds, events, n, a, ModeCommitted(a, st.transitionId, st.targetMode))
  {
    EarlierIsBounded(worlds, events, n, n + 1);
    RunsAreStructured(worlds, events, n);
    RunsAreBacked(worlds, events, n);
    var w, e := worlds[n], events[n];
    assert worlds[n + 1] == Next(w, e);
    EveryCallMoves(w.sam, CallOf(w, e).value);
    HeardIsBacked(worlds, events, n);
  }
}
