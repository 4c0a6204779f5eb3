/**
 The registry, explained by the log of calls alone: what SAM has recorded of an application is what
 its latest contact said, changed by nothing but its departure and its confirmed commits. Hence the
 exact condition, over whole runs, under which a refresh finds the system failed.
 */
module Records {
  import opened Protocol
  import opened Health
  import opened ServiceSteps
  import opened Coherence
  import opened News

  /** A registration of `a` or a heartbeat over its current connection. */
  predicate Contacts(s: Service, call: Call, a: ApplicationId) {
    || (call.DoRegister? && call.application == a)
    || (IsHeartbeat(s, call) && call.registered == a)
  }

  /** The health a contact reports; a new registration counts as healthy. */
  function ReportedHealth(call: Call): HealthState
    requires call.DoRegister? || (call.DoMessage? && call.message.Heartbeat?)
  {
    if call.DoRegister? then Healthy else call.message.health
  }

  /** Call `j` is the last among the first `n` through which SAM hears from `a`. */
  ghost predicate LatestContact(states: seq<Service>, calls: seq<Call>, n: nat, a: ApplicationId, j: nat)
    requires Matched(states, calls) && n <= |calls|
  {
    && j < n && Contacts(states[j], calls[j], a)
    && forall k :: j < k < n ==> !Contacts(states[k], calls[k], a)
  }

  /** `a` has departed between calls `j` and `n`. */
  ghost predicate DepartedSince(states: seq<Service>, calls: seq<Call>, n: nat, a: ApplicationId, j: nat)
    requires Matched(states, calls) && n <= |calls|
  {
    exists k :: j < k < n && IsDeparture(states[k], calls[k]) && calls[k].application == a
  }

  /** An accepted confirmation of the active commit by `a`. */
  predicate ConfirmsCommit(s: Service, call: Call, a: ApplicationId) {
    && IsGenuine(s, call) && call.registered == a && s.modes.state.Committing? && a in s.modes.state.waitingFor
    && call.message == ModeCommitted(a, s.modes.state.transitionId, s.modes.state.targetMode)
  }

  /** A call from which SAM learns the mode of `a`. */
  predicate TellsMode(s: Service, call: Call, a: ApplicationId) {
    Contacts(s, call, a) || ConfirmsCommit(s, call, a)
  }

  function ToldMode(call: Call): SystemMode
    requires call.DoRegister? || (call.DoMessage? && (call.message.Heartbeat? || call.message.ModeCommitted?))
  {
    if call.DoRegister? then Startup
    else if call.message.Heartbeat? then call.message.currentMode
    else call.message.mode
  }

  ghost predicate LatestMode(states: seq<Service>, calls: seq<Call>, n: nat, a: ApplicationId, j: nat)
    requires Matched(states, calls) && n <= |calls|
  {
    && j < n && TellsMode(states[j], calls[j], a)
    && forall k :: j < k < n ==> !TellsMode(states[k], calls[k], a)
  }

  // ---------------------------------------------------------------- one call

  /** What one call does to the record of `a`. */
  lemma RecordMoves(s: Service, call: Call, a: ApplicationId)
    requires Sound(s)
    ensures
      var t := Perform(s, call).service;
      && (a in t.applications <==> a in s.applications || Contacts(s, call, a))
      && (Contacts(s, call, a) ==>
            && t.applications[a].lastHeartbeat == call.now && t.applications[a].connected
            && t.applications[a].health == ReportedHealth(call))
      && (a in s.applications && !Contacts(s, call, a) ==>
            && t.applications[a].lastHeartbeat == s.applications[a].lastHeartbeat
            && t.applications[a].health == s.applications[a].health
            && (t.applications[a].connected <==>
                  s.applications[a].connected && !(IsDeparture(s, call) && call.application == a)))
      && (TellsMode(s, call, a) ==> a in t.applications && t.applications[a].currentMode == ToldMode(call))
      && (a in s.applications && !TellsMode(s, call, a) ==>
            t.applications[a].currentMode == s.applications[a].currentMode)
  {
  }

  // ---------------------------------------------------------------- whole runs

  /** SAM knows exactly the applications it has heard from, and has heard from each a last time. */
  lemma {:induction false} KnownMeansContacted(states: seq<Service>, calls: seq<Call>, n: nat, a: ApplicationId)
    requires IsRun(states, calls) && n <= |calls|
    ensures a in states[n].applications <==> exists j: nat :: LatestContact(states, calls, n, a, j)
  {
    if n > 0 {
      var before := n - 1;
      KnownMeansContacted(states, calls, before, a);
      RunsAreSound(states, calls, n - 1);
      assert RunStep(states, calls, n - 1);
      RecordMoves(states[n - 1], calls[n - 1], a);
      if Contacts(states[n - 1], calls[n - 1], a) {
        assert LatestContact(states, calls, n, a, n - 1);
      } else {
        if j: nat :| LatestContact(states, calls, before, a, j) {
          assert LatestContact(states, calls, n, a, j);
        }
        if j: nat :| LatestContact(states, calls, n, a, j) {
          assert LatestContact(states, calls, before, a, j);
        }
      }
    }
  }

  /**
   What is recorded of an application is what its latest contact said and when, and it is recorded as
   connected exactly unless it has departed since.
   */
  lemma {:induction false} RecordsFollowTheLog(states: seq<Service>, calls: seq<Call>, n: nat, a: ApplicationId, j: nat)
    requires IsRun(states, calls) && n <= |calls| && LatestContact(states, calls, n, a, j)
    ensures a in states[n].applications
    ensures
      var status := states[n].applications[a];
      && status.lastHeartbeat == calls[j].now && status.health == ReportedHealth(calls[j])
      && (status.connected <==> !DepartedSince(states, calls, n, a, j))
  {
    RunsAreSound(states, calls, n - 1);
    assert RunStep(states, calls, n - 1);
    RecordMoves(states[n - 1], calls[n - 1], a);
    if j < n - 1 {
      assert LatestContact(states, calls, n - 1, a, j);
      RecordsFollowTheLog(states, calls, n - 1, a, j);
      DepartureExtends(states, calls, n, a, j);
    }
  }

  lemma DepartureExtends(states: seq<Service>, calls: seq<Call>, n: nat, a: ApplicationId, j: nat)
    requires Matched(states, calls) && j + 1 < n <= |calls|
    ensures DepartedSince(states, calls, n, a, j) <==>
            DepartedSince(states, calls, n - 1, a, j)
            || (IsDeparture(states[n - 1], calls[n - 1]) && calls[n - 1].application == a)
  {
    if DepartedSince(states, calls, n - 1, a, j) {
      var k :| j < k < n - 1 && IsDeparture(states[k], calls[k]) && calls[k].application == a;
      assert j < k < n;
    }
    if IsDeparture(states[n - 1], calls[n - 1]) && calls[n - 1].application == a {
      assert j < n - 1 < n;
    }
  }

  /** The mode recorded is the one last told, by a registration, a heartbeat, or a confirmed commit. */
  lemma {:induction false} ModesFollowTheLog(states: seq<Service>, calls: seq<Call>, n: nat, a: ApplicationId, j: nat)
    requires IsRun(states, calls) && n <= |calls| && LatestMode(states, calls, n, a, j)
    ensures a in states[n].applications && states[n].applications[a].currentMode == ToldMode(calls[j])
  {
    RunsAreSound(states, calls, n - 1);
    assert RunStep(states, calls, n - 1);
    RecordMoves(states[n - 1], calls[n - 1], a);
    if j < n - 1 {
      assert LatestMode(states, calls, n - 1, a, j);
      ModesFollowTheLog(states, calls, n - 1, a, j);
    }
  }

  /** The report on an application, in terms of the log: its age runs from the latest contact. */
  lemma ReportsFollowTheLog(states: seq<Service>, calls: seq<Call>, n: nat, a: ApplicationId, j: nat, m: nat, now: nat)
    requires IsRun(states, calls) && n <= |calls|
    requires LatestContact(states, calls, n, a, j) && LatestMode(states, calls, n, a, m)
    ensures a in Snapshots(states[n], now)
    ensures
      var report := Snapshots(states[n], now)[a];
      && report.health == ReportedHealth(calls[j]) && report.currentMode == ToldMode(calls[m])
      && (report.connected <==> !DepartedSince(states, calls, n, a, j))
      && (report.synchronized <==> report.connected && report.currentMode == states[n].system.mode)
      && report.heartbeatAge == (if now >= calls[j].now then now - calls[j].now else 0)
      && (report.effectiveHealth.Failed? <==>
            !report.connected || report.health.Failed? || report.heartbeatAge > states[n].health.heartbeatTimeout)
      && (report.effectiveHealth.Healthy? <==>
            && report.synchronized && report.health.Healthy?
            && report.heartbeatAge <= states[n].health.heartbeatTimeout)
  {
    RecordsFollowTheLog(states, calls, n, a, j);
    ModesFollowTheLog(states, calls, n, a, m);
  }

  // ---------------------------------------------------------------- detection, both ways

  /** At instant `now` the log calls for alarm about `a`, last heard from through call `j`. */
  ghost predicate Alarming(states: seq<Service>, calls: seq<Call>, n: nat, a: ApplicationId, j: nat, timeout: nat, now: nat)
    requires Matched(states, calls) && n <= |calls| && LatestContact(states, calls, n, a, j)
  {
    now > calls[j].now + timeout || ReportedHealth(calls[j]).Failed? || DepartedSince(states, calls, n, a, j)
  }

  ghost predicate SomeoneAlarms(states: seq<Service>, calls: seq<Call>, n: nat, timeout: nat, now: nat)
    requires Matched(states, calls) && n <= |calls|
  {
    exists a, j: nat :: LatestContact(states, calls, n, a, j) && Alarming(states, calls, n, a, j, timeout, now)
  }

  lemma DownMeansAlarming(states: seq<Service>, calls: seq<Call>, n: nat, a: ApplicationId, j: nat, timeout: nat,
                          now: nat)
    requires IsRun(states, calls) && n <= |calls| && LatestContact(states, calls, n, a, j)
    ensures a in states[n].applications
    ensures IsDown(states[n].applications[a], timeout, now) <==> Alarming(states, calls, n, a, j, timeout, now)
  {
    RecordsFollowTheLog(states, calls, n, a, j);
  }

  /** Somebody is down by what is recorded exactly if the log calls for alarm about somebody. */
  lemma SomeoneDownExactly(states: seq<Service>, calls: seq<Call>, n: nat, timeout: nat, now: nat)
    requires IsRun(states, calls) && n <= |calls|
    ensures SomeoneDown(states[n].applications, timeout, now) <==> SomeoneAlarms(states, calls, n, timeout, now)
  {
    if a :| a in states[n].applications && IsDown(states[n].applications[a], timeout, now) {
      KnownMeansContacted(states, calls, n, a);
      var j: nat :| LatestContact(states, calls, n, a, j);
      DownMeansAlarming(states, calls, n, a, j, timeout, now);
    }
    if a, j: nat :| LatestContact(states, calls, n, a, j) && Alarming(states, calls, n, a, j, timeout, now) {
      DownMeansAlarming(states, calls, n, a, j, timeout, now);
    }
  }

  /**
   A refresh publishes `Failed` exactly when some application SAM ever heard from has been silent for
   longer than the timeout, last reported itself failed, or has departed since. In particular, while
   everyone stays, heartbeats in time, and reports no failure, no refresh raises a false alarm.
   */
  lemma AlarmsAreExact(states: seq<Service>, calls: seq<Call>, n: nat)
    requires IsRun(states, calls) && n < |calls| && calls[n].DoRefresh?
    ensures states[n + 1].system.health.Failed? <==>
            SomeoneAlarms(states, calls, n, states[n].health.heartbeatTimeout, calls[n].now)
  {
    RunsAreSound(states, calls, n);
    assert RunStep(states, calls, n);
    StateIsComputedExactly(states[n], calls[n]);
    assert states[n + 1].applications == states[n].applications;
    SomeoneDownExactly(states, calls, n, states[n].health.heartbeatTimeout, calls[n].now);
  }
}
