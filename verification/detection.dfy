/** How quickly a silent application turns the published health to `Failed`, over whole timed runs. */
module Detection {
  import opened Protocol
  import opened Registry
  import opened Health
  import opened ServiceSteps
  import opened Coherence

  /** Times do not decrease from one call to the next. */
  ghost predicate Ordered(calls: seq<Call>) {
    forall i, j :: 0 <= i <= j < |calls| ==> calls[i].now <= calls[j].now
  }

  /** A call through which SAM hears from `a`: a registration or an accepted heartbeat. */
  predicate HearsFrom(s: Service, call: Call, a: ApplicationId) {
    || (call.DoRegister? && call.application == a)
    || (call.DoMessage? && call.registered == a && call.message.Heartbeat? && Perform(s, call).result.Ok?)
  }

  /** From call `p` up to call `q`, SAM never hears from `a`, whose last heartbeat was at `last`. */
  ghost predicate SilentSince(states: seq<Service>, calls: seq<Call>, p: nat, q: nat, a: ApplicationId, last: nat)
    requires IsRun(states, calls) && p <= q <= |calls|
  {
    && a in states[p].applications && states[p].applications[a].lastHeartbeat == last
    && forall i :: p <= i < q ==> !HearsFrom(states[i], calls[i], a)
  }

  /** Consecutive refreshes are at most `d` apart: after each, another comes before more than `d` has passed. */
  ghost predicate RefreshedEvery(calls: seq<Call>, p: nat, q: nat, d: nat)
    requires p <= q <= |calls|
  {
    forall i, k :: p <= i < k < q && calls[i].DoRefresh? && calls[k].now > calls[i].now + d ==>
      exists j :: i < j < k && calls[j].DoRefresh? && calls[i].now < calls[j].now <= calls[i].now + d
  }

  lemma UnheardKeepsHeartbeat(s: Service, call: Call, a: ApplicationId)
    requires Sound(s) && a in s.applications && !HearsFrom(s, call, a)
    ensures a in Perform(s, call).service.applications
    ensures Perform(s, call).service.applications[a].lastHeartbeat == s.applications[a].lastHeartbeat
  {
  }

  lemma {:induction false} SilenceKeepsHeartbeat(states: seq<Service>, calls: seq<Call>, p: nat, q: nat, a: ApplicationId,
                                                 last: nat, i: nat)
    requires IsRun(states, calls) && p <= i <= q <= |calls| && SilentSince(states, calls, p, q, a, last)
    ensures a in states[i].applications && states[i].applications[a].lastHeartbeat == last
  {
    if i > p {
      SilenceKeepsHeartbeat(states, calls, p, q, a, last, i - 1);
      RunsAreSound(states, calls, i - 1);
      assert RunStep(states, calls, i - 1);
      UnheardKeepsHeartbeat(states[i - 1], calls[i - 1], a);
    }
  }

  lemma ExpiredFails(statuses: Statuses, mode: SystemMode, timeout: nat, now: nat, a: ApplicationId)
    requires a in statuses && now > statuses[a].lastHeartbeat + timeout
    ensures Recalculated(statuses, mode, timeout, now) == HealthState.Failed
  {
    assert ApplicationHealth(statuses[a], timeout, now) in Reports(statuses, timeout, now);
  }

  lemma {:induction false} TimeoutNeverChanges(states: seq<Service>, calls: seq<Call>, i: nat)
    requires IsRun(states, calls) && i <= |calls|
    ensures states[i].health == states[0].health
  {
    if i > 0 {
      TimeoutNeverChanges(states, calls, i - 1);
      assert RunStep(states, calls, i - 1);
    }
  }

  /** A step past the deadline either publishes `Failed` or leaves the published health as it was. */
  lemma PastDeadlineStep(s: Service, call: Call, a: ApplicationId)
    requires Sound(s) && a in s.applications && !HearsFrom(s, call, a)
    requires call.now > s.applications[a].lastHeartbeat + s.health.heartbeatTimeout
    ensures Perform(s, call).service.system.health in {HealthState.Failed, s.system.health}
    ensures call.DoRefresh? ==> Perform(s, call).service.system.health.Failed?
  {
    var t := Perform(s, call).service;
    UnheardKeepsHeartbeat(s, call, a);
    ExpiredFails(t.applications, t.system.mode, t.health.heartbeatTimeout, call.now, a);
  }

  /** A refresh past the deadline publishes `Failed`, and it stays published while the silence lasts. */
  lemma {:induction false} FailureSticks(states: seq<Service>, calls: seq<Call>, p: nat, q: nat, a: ApplicationId,
                                         last: nat, r: nat, i: nat)
    requires IsRun(states, calls) && Ordered(calls)
    requires p <= r < i <= q <= |calls| && SilentSince(states, calls, p, q, a, last)
    requires calls[r].DoRefresh? && calls[r].now > last + states[0].health.heartbeatTimeout
    ensures states[i].system.health.Failed?
  {
    if i > r + 1 {
      FailureSticks(states, calls, p, q, a, last, r, i - 1);
    }
    SilenceKeepsHeartbeat(states, calls, p, q, a, last, i - 1);
    RunsAreSound(states, calls, i - 1);
    TimeoutNeverChanges(states, calls, i - 1);
    assert RunStep(states, calls, i - 1);
    PastDeadlineStep(states[i - 1], calls[i - 1], a);
  }

  /** With refreshes at most `d` apart, one lands in the window of length `d` that follows the deadline. */
  lemma {:induction false} RefreshLandsAfter(calls: seq<Call>, p: nat, q: nat, d: nat, deadline: nat, r: nat, k: nat)
    returns (hit: nat)
    requires p <= r < k < q <= |calls| && Ordered(calls) && RefreshedEvery(calls, p, q, d)
    requires calls[r].DoRefresh? && calls[r].now <= deadline && calls[k].now > deadline + d
    ensures r < hit < k && calls[hit].DoRefresh? && deadline < calls[hit].now <= deadline + d
    decreases k - r
  {
    var j :| r < j < k && calls[j].DoRefresh? && calls[r].now < calls[j].now <= calls[r].now + d;
    if calls[j].now > deadline {
      hit := j;
    } else {
      hit := RefreshLandsAfter(calls, p, q, d, deadline, j, k);
    }
  }

  /**
   The detection bound: if `a` falls silent with its last heartbeat at `last` and a refresh no later
   than `last + timeout`, then by the time the clock passes `last + timeout + d` the system is
   published as `Failed`, and it remains so through every later call of the silence.
   */
  lemma SilenceIsDetected(states: seq<Service>, calls: seq<Call>, p: nat, q: nat, a: ApplicationId, last: nat, d: nat,
                          r: nat, k: nat, i: nat)
    requires IsRun(states, calls) && Ordered(calls) && p <= q <= |calls|
    requires SilentSince(states, calls, p, q, a, last) && RefreshedEvery(calls, p, q, d)
    requires p <= r < k <= i <= q && k < q
    requires calls[r].DoRefresh? && calls[r].now <= last + states[0].health.heartbeatTimeout
    requires calls[k].now > last + states[0].health.heartbeatTimeout + d
    ensures states[i].system.health.Failed?
  {
    var hit := RefreshLandsAfter(calls, p, q, d, last + states[0].health.heartbeatTimeout, r, k);
    FailureSticks(states, calls, p, q, a, last, hit, i);
  }
}
