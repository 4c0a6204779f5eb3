/** The active-connection map, explained by the log of registrations and disconnects alone. */
module Connections {
  import opened Protocol
  import opened Registry
  import opened Health
  import opened ServiceSteps
  import opened Coherence

  /** Call `r` installs a connection for `a`. */
  predicate Installs(call: Call, a: ApplicationId) {
    call.DoRegister? && call.application == a && call.fits
  }

  /** Among the first `n` calls `r` is the last to install a connection for `a`. */
  ghost predicate LatestInstall(calls: seq<Call>, n: nat, a: ApplicationId, r: int) {
    && 0 <= r < n <= |calls| && Installs(calls[r], a)
    && forall k :: r < k < n ==> !Installs(calls[k], a)
  }

  /** A disconnect of exactly `connection` comes after call `r`. */
  ghost predicate EndedSince(calls: seq<Call>, n: nat, a: ApplicationId, connection: ConnectionId, r: int) {
    exists k :: 0 <= r < k < n <= |calls| && calls[k].DoDisconnect? && calls[k].application == a
                && calls[k].connection == connection
  }

  function Attempts(calls: seq<Call>): nat
    decreases |calls|
  {
    if calls == [] then 0
    else Attempts(calls[..|calls| - 1]) + (if calls[|calls| - 1].DoRegister? then 1 else 0)
  }

  /**
   For every interleaving, late disconnects of displaced sessions included: an application is a
   client exactly while its latest installed connection has not been disconnected, and the map
   then holds that connection's id.
   */
  lemma {:induction false} ClientsFollowTheLog(states: seq<Service>, calls: seq<Call>, n: nat, a: ApplicationId)
    requires IsRun(states, calls) && n <= |calls|
    ensures a in states[n].clients <==>
            exists r :: LatestInstall(calls, n, a, r) && !EndedSince(calls, n, a, states[r].nextConnectionId, r)
    ensures forall r :: LatestInstall(calls, n, a, r) && a in states[n].clients ==>
              states[n].clients[a] == states[r].nextConnectionId
  {
    if n > 0 {
      ClientsFollowTheLog(states, calls, n - 1, a);
      assert RunStep(states, calls, n - 1);
      if Installs(calls[n - 1], a) {
        assert LatestInstall(calls, n, a, n - 1);
      } else {
        LogExtends(states, calls, n, a);
      }
    }
  }

  /** One more call that installs nothing for `a`. */
  lemma LogExtends(states: seq<Service>, calls: seq<Call>, n: nat, a: ApplicationId)
    requires IsRun(states, calls) && 0 < n <= |calls| && !Installs(calls[n - 1], a)
    requires a in states[n - 1].clients <==>
             exists r :: LatestInstall(calls, n - 1, a, r) && !EndedSince(calls, n - 1, a, states[r].nextConnectionId, r)
    requires forall r :: LatestInstall(calls, n - 1, a, r) && a in states[n - 1].clients ==>
               states[n - 1].clients[a] == states[r].nextConnectionId
    ensures a in states[n].clients <==>
            exists r :: LatestInstall(calls, n, a, r) && !EndedSince(calls, n, a, states[r].nextConnectionId, r)
    ensures forall r :: LatestInstall(calls, n, a, r) && a in states[n].clients ==>
              states[n].clients[a] == states[r].nextConnectionId
  {
    var call := calls[n - 1];
    assert RunStep(states, calls, n - 1);
    assert a in states[n].clients <==>
           a in states[n - 1].clients && !(call.DoDisconnect? && call.application == a
                                           && states[n - 1].clients[a] == call.connection);
    assert a in states[n].clients ==> states[n].clients[a] == states[n - 1].clients[a];
    forall r
      ensures LatestInstall(calls, n, a, r) <==> LatestInstall(calls, n - 1, a, r)
    {
    }
    forall r | LatestInstall(calls, n, a, r)
      ensures
        var id := states[r].nextConnectionId;
        EndedSince(calls, n, a, id, r) <==>
          EndedSince(calls, n - 1, a, id, r)
          || (call.DoDisconnect? && call.application == a && call.connection == id)
    {
      var id := states[r].nextConnectionId;
      if call.DoDisconnect? && call.application == a && call.connection == id {
        assert r < n - 1 < n;
      }
      if EndedSince(calls, n - 1, a, id, r) {
        var k :| r < k < n - 1 && calls[k].DoDisconnect? && calls[k].application == a && calls[k].connection == id;
        assert r < k < n;
      }
    }
  }

  /** Connection ids count registration attempts, failed ones included. */
  lemma {:induction false} ConnectionIdsCountAttempts(states: seq<Service>, calls: seq<Call>, n: nat)
    requires IsRun(states, calls) && n <= |calls|
    ensures states[n].nextConnectionId == IdOf(Attempts(calls[..n]))
  {
    if n > 0 {
      ConnectionIdsCountAttempts(states, calls, n - 1);
      assert RunStep(states, calls, n - 1);
      assert calls[..n][..n - 1] == calls[..n - 1];
    }
  }

  lemma {:induction false} AttemptsGrow(calls: seq<Call>, i: nat, j: nat)
    requires i <= j <= |calls|
    ensures Attempts(calls[..i]) <= Attempts(calls[..j])
    ensures i < j && calls[i].DoRegister? ==> Attempts(calls[..i]) < Attempts(calls[..j])
  {
    if i < j {
      AttemptsGrow(calls, i, j - 1);
      assert calls[..j][..j - 1] == calls[..j - 1];
    }
  }

  lemma {:induction false} LatestInstallExists(calls: seq<Call>, n: nat, a: ApplicationId, r: nat) returns (latest: nat)
    requires r < n <= |calls| && Installs(calls[r], a)
    ensures r <= latest && LatestInstall(calls, n, a, latest)
    decreases n
  {
    if Installs(calls[n - 1], a) {
      latest := n - 1;
    } else {
      latest := LatestInstallExists(calls, n - 1, a, r);
    }
  }

  /** Within 2^64 registration attempts a displaced connection never again speaks for its application. */
  lemma DisplacedConnectionsStaySilent(states: seq<Service>, calls: seq<Call>, first: nat, second: nat, n: nat,
                                       a: ApplicationId)
    requires IsRun(states, calls) && first < second < n <= |calls|
    requires Installs(calls[first], a) && Installs(calls[second], a)
    requires Attempts(calls[..n]) <= WORD
    ensures !Speaks(states[n], a, states[first].nextConnectionId)
  {
    if a in states[n].clients {
      var latest := LatestInstallExists(calls, n, a, second);
      ClientsFollowTheLog(states, calls, n, a);
      ConnectionIdsCountAttempts(states, calls, first);
      ConnectionIdsCountAttempts(states, calls, latest);
      AttemptsGrow(calls, first, latest);
      AttemptsGrow(calls, latest, n);
      IdsDistinct(Attempts(calls[..first]), Attempts(calls[..latest]));
    }
  }

  /** With nobody connected and anybody ever seen, the system is failed. */
  ghost predicate DesertedIsFailed(s: Service) {
    s.clients == map[] && s.applications != map[] ==> s.system.health.Failed?
  }

  lemma NobodyConnectedFails(statuses: Statuses, mode: SystemMode, timeout: nat, now: nat)
    requires statuses != map[] && forall a :: a in statuses ==> !statuses[a].connected
    ensures Recalculated(statuses, mode, timeout, now) == HealthState.Failed
  {
    var a :| a in statuses;
    assert ApplicationHealth(statuses[a], timeout, now) in Reports(statuses, timeout, now);
  }

  lemma DesertionStep(s: Service, call: Call)
    requires Coherent(s) && DesertedIsFailed(s) && !LosesReply(s, call)
    ensures DesertedIsFailed(Perform(s, call).service)
  {
    var t := Perform(s, call).service;
    CoherenceIsKeptExactly(s, call);
    if t.clients == map[] && t.applications != map[] && t != s {
      NobodyConnectedFails(t.applications, t.system.mode, t.health.heartbeatTimeout, call.now);
    }
  }

  lemma {:induction false} DesertionRun(states: seq<Service>, calls: seq<Call>, n: nat)
    requires IsRun(states, calls) && n <= |calls|
    requires forall k :: 0 <= k < n ==> !LosesReply(states[k], calls[k])
    ensures DesertedIsFailed(states[n])
  {
    if n > 0 {
      DesertionRun(states, calls, n - 1);
      RunsAreCoherent(states, calls, n - 1);
      assert RunStep(states, calls, n - 1);
      DesertionStep(states[n - 1], calls[n - 1]);
    }
  }

  /** Every connection installed among the first `n` calls has had its closing disconnect. */
  ghost predicate AllClosed(states: seq<Service>, calls: seq<Call>, n: nat)
    requires IsRun(states, calls) && n <= |calls|
  {
    forall r :: 0 <= r < n && calls[r].DoRegister? && calls[r].fits ==>
      EndedSince(calls, n, calls[r].application, states[r].nextConnectionId, r)
  }

  /** Once every session has closed, no client is left; if anyone ever registered, the system is failed. */
  lemma ClosedSessionsLeaveNothing(states: seq<Service>, calls: seq<Call>, n: nat)
    requires IsRun(states, calls) && n <= |calls| && AllClosed(states, calls, n)
    ensures states[n].clients == map[]
    ensures
      && (forall k :: 0 <= k < n ==> !LosesReply(states[k], calls[k]))
      && states[n].applications != map[]
      ==> states[n].system.health.Failed?
  {
    forall a
      ensures a !in states[n].clients
    {
      ClientsFollowTheLog(states, calls, n, a);
    }
    if forall k :: 0 <= k < n ==> !LosesReply(states[k], calls[k]) {
      DesertionRun(states, calls, n);
    }
  }
}
