/** Applications that follow `ApplicationRuntime` are never thrown out for what they say, nor confused by SAM. */
module Conformance {
  import opened Protocol
  import opened ServiceSteps
  import opened Client
  import opened Network
  import opened NetworkInvariant

  /** An ending that would mean SAM broke the registration protocol. */
  predicate IsProtocolBreach(status: Status) {
    && status.Ended?
    && (status.reason.UnexpectedRegistrationResponse? || status.reason.ProtocolVersionMismatch?
        || status.reason.RegistrationRefused?)
  }

  /** In a structured world SAM serves every message of a current connection; others are only ever stale. */
  lemma MessageIsServed(w: World, e: Event)
    requires Structure(w) && Enabled(w, e) && e.ToSam?
    ensures
      var l := w.links[e.link];
      var r := Perform(w.sam, CallOf(w, e).value).result;
      if Routed(w.sam.clients, l) then r == Ok(Done) else r == Err(StaleConnection(l.application))
  {
    var l := w.links[e.link];
    assert LinkOk(l, w.targets, w.sam.modes.state.Preparing?, w.registrations);
    var m := l.uplink[0];
    assert SaidOk(l, m);
    if m.ModeCommitted? && w.sam.modes.state.Committing? && m.transitionId == w.sam.modes.state.transitionId {
      OrderInStory(l, CommitMode(m.transitionId, m.mode), w.targets, w.sam.modes.state.Preparing?, w.registrations);
      assert m.mode == w.sam.modes.state.targetMode;
    }
  }

  lemma ReplyIsUnderstood(w: World, e: Event)
    requires Structure(w) && Enabled(w, e) && e.ToClient?
    ensures !IsProtocolBreach(Next(w, e).links[e.link].client)
  {
    var l := w.links[e.link];
    assert LinkOk(l, w.targets, w.sam.modes.state.Preparing?, w.registrations);
    HeadOfStory(l, w.targets, w.sam.modes.state.Preparing?, w.registrations);
  }

  /**
   Over every run with fewer than 2^64 transitions and registrations: the registration gate admits
   every connection, SAM never answers a message with a duplicate registration, an identity mismatch
   or a mode failure, a current connection's messages always succeed, and no client ends its session
   over an unexpected reply.
   */
  lemma ConformingClientsAreNeverThrownOut(worlds: seq<World>, events: seq<Event>, i: nat)
    requires IsWorldRun(worlds, events) && i < |events| && Bounded(worlds[i])
    ensures
      var w, e := worlds[i], events[i];
      && (e.Accept? ==> Gate(w.links[e.link].uplink[0]) == Ok(w.links[e.link].application))
      && (e.ToSam? ==>
            var r := Perform(w.sam, CallOf(w, e).value).result;
            if Routed(w.sam.clients, w.links[e.link]) then r == Ok(Done)
            else r == Err(StaleConnection(w.links[e.link].application)))
      && (e.ToClient? ==> !IsProtocolBreach(worlds[i + 1].links[e.link].client))
  {
    RunsAreStructured(worlds, events, i);
    var w, e := worlds[i], events[i];
    if e.ToSam? {
      MessageIsServed(w, e);
    } else if e.ToClient? {
      ReplyIsUnderstood(w, e);
    } else if e.Accept? {
      assert LinkOk(w.links[e.link], w.targets, w.sam.modes.state.Preparing?, w.registrations);
    }
  }
}
