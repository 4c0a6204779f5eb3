/**
 Health aggregation: what one application contributes, the early-exit loop over the registry, the
 system-wide value SAM publishes, and the per-application value SAM reports.
 */
module Health {
  import opened Protocol
  import opened Registry

  /** `now.saturating_duration_since(earlier)`. */
  function Age(now: nat, earlier: nat): nat {
    if now >= earlier then now - earlier else 0
  }

  function ApplicationHealth(status: ApplicationStatus, timeout: nat, now: nat): HealthState {
    if !status.connected || Age(now, status.lastHeartbeat) > timeout || status.health.Failed?
    then Failed else status.health
  }

  function Severity(h: HealthState): nat {
    match h
    case Healthy => 0
    case Degraded => 1
    case Failed => 2
  }

  /** `h` is the most severe member of `reports`, or `Healthy` when nothing is worse than that. */
  ghost predicate IsWorst(h: HealthState, reports: set<HealthState>) {
    && (h in reports || h == Healthy)
    && forall r :: r in reports ==> Severity(r) <= Severity(h)
  }

  function Reports(statuses: Statuses, timeout: nat, now: nat): set<HealthState> {
    set a | a in statuses :: ApplicationHealth(statuses[a], timeout, now)
  }

  /** The most severe of the applications' own healths. */
  function Worst(reports: set<HealthState>): (h: HealthState)
    ensures IsWorst(h, reports)
  {
    if Failed in reports then Failed else if Degraded in reports then Degraded else Healthy
  }

  lemma WorstIsUnique(h: HealthState, reports: set<HealthState>)
    requires IsWorst(h, reports)
    ensures h == Worst(reports)
  {
  }

  /** Whether some connected application reports a mode other than the system's. */
  predicate ModeMismatch(statuses: Statuses, mode: SystemMode) {
    exists a :: a in statuses && statuses[a].connected && statuses[a].currentMode != mode
  }

  /** The health SAM publishes: the worst report, raised to `Degraded` by a mode mismatch. */
  function Recalculated(statuses: Statuses, mode: SystemMode, timeout: nat, now: nat): HealthState {
    var reported := Worst(Reports(statuses, timeout, now));
    if reported.Failed? then Failed
    else if reported.Degraded? || ModeMismatch(statuses, mode) then Degraded
    else Healthy
  }

  function Synchronized(status: ApplicationStatus, mode: SystemMode): bool {
    status.connected && status.currentMode == mode
  }

  function EffectiveHealth(base: HealthState, synchronized: bool): HealthState {
    if base.Failed? then Failed
    else if !synchronized || base.Degraded? then Degraded
    else Healthy
  }

  // ---------------------------------------------------------------- health in terms of what was recorded

  /** An application is down: disconnected, silent for longer than the timeout, or failed by its own account. */
  predicate IsDown(status: ApplicationStatus, timeout: nat, now: nat) {
    !status.connected || now > status.lastHeartbeat + timeout || status.health.Failed?
  }

  /** An application is impaired: degraded by its own account, or connected in a mode other than the system's. */
  predicate IsImpaired(status: ApplicationStatus, mode: SystemMode) {
    status.health.Degraded? || (status.connected && status.currentMode != mode)
  }

  ghost predicate SomeoneDown(statuses: Statuses, timeout: nat, now: nat) {
    exists a :: a in statuses && IsDown(statuses[a], timeout, now)
  }

  ghost predicate SomeoneImpaired(statuses: Statuses, mode: SystemMode) {
    exists a :: a in statuses && IsImpaired(statuses[a], mode)
  }

  /** `h` is what SAM should publish: failed if anyone is down, else degraded if anyone is impaired, else healthy. */
  ghost predicate IsSystemHealth(h: HealthState, statuses: Statuses, mode: SystemMode, timeout: nat, now: nat) {
    && (h.Failed? <==> SomeoneDown(statuses, timeout, now))
    && (h.Degraded? <==> !SomeoneDown(statuses, timeout, now) && SomeoneImpaired(statuses, mode))
  }

  lemma OwnHealthExactly(status: ApplicationStatus, timeout: nat, now: nat)
    ensures ApplicationHealth(status, timeout, now).Failed? <==> IsDown(status, timeout, now)
    ensures ApplicationHealth(status, timeout, now).Degraded? <==>
            !IsDown(status, timeout, now) && status.health.Degraded?
  {
  }

  /** The worst of the applications' own healths, in terms of what was recorded of them. */
  lemma WorstExactly(statuses: Statuses, timeout: nat, now: nat)
    ensures Worst(Reports(statuses, timeout, now)).Failed? <==> SomeoneDown(statuses, timeout, now)
    ensures Worst(Reports(statuses, timeout, now)).Degraded? <==>
            !SomeoneDown(statuses, timeout, now) && exists a :: a in statuses && statuses[a].health.Degraded?
  {
    forall a | a in statuses
      ensures ApplicationHealth(statuses[a], timeout, now) in Reports(statuses, timeout, now)
      ensures ApplicationHealth(statuses[a], timeout, now).Failed? <==> IsDown(statuses[a], timeout, now)
    {
    }
    if !SomeoneDown(statuses, timeout, now) {
      if a :| a in statuses && statuses[a].health.Degraded? {
        assert !IsDown(statuses[a], timeout, now);
        assert ApplicationHealth(statuses[a], timeout, now) == Degraded;
      }
    }
  }

  /** The published health is exactly what the recorded statuses call for: no failure is missed, and none is invented. */
  lemma PublishedHealthExactly(statuses: Statuses, mode: SystemMode, timeout: nat, now: nat)
    ensures IsSystemHealth(Recalculated(statuses, mode, timeout, now), statuses, mode, timeout, now)
  {
    WorstExactly(statuses, timeout, now);
    if !SomeoneDown(statuses, timeout, now) {
      if a :| a in statuses && statuses[a].health.Degraded? {
        assert IsImpaired(statuses[a], mode);
      }
      if a :| a in statuses && statuses[a].connected && statuses[a].currentMode != mode {
        assert IsImpaired(statuses[a], mode);
      }
    }
  }

  /** What is reported of one application follows the same rule, for that application alone. */
  lemma EffectiveHealthExactly(statuses: Statuses, mode: SystemMode, timeout: nat, now: nat, a: ApplicationId)
    requires a in statuses
    ensures
      var h := EffectiveOf(statuses, mode, timeout, now, a);
      && (h.Failed? <==> IsDown(statuses[a], timeout, now))
      && (h.Degraded? <==> !IsDown(statuses[a], timeout, now) && IsImpaired(statuses[a], mode))
  {
  }

  datatype HealthManager = HealthManager(heartbeatTimeout: nat) {

    /** Visits the registry in an arbitrary order and stops at the first failed application. */
    method Calculate(registry: ApplicationRegistry, now: nat) returns (overall: HealthState)
      ensures IsWorst(overall, Reports(registry.applications, heartbeatTimeout, now))
      ensures overall.Failed? <==> SomeoneDown(registry.applications, heartbeatTimeout, now)
      ensures overall.Degraded? <==>
              !SomeoneDown(registry.applications, heartbeatTimeout, now)
              && exists a :: a in registry.applications && registry.applications[a].health.Degraded?
    {
      WorstExactly(registry.applications, heartbeatTimeout, now);
      overall := Healthy;
      var unseen := registry.applications.Keys;
      while unseen != {}
        invariant unseen <= registry.applications.Keys
        invariant overall != Failed
        invariant overall == Degraded ==> Degraded in Reports(registry.applications, heartbeatTimeout, now)
        invariant forall a :: a in registry.applications && a !in unseen ==>
            Severity(ApplicationHealth(registry.applications[a], heartbeatTimeout, now)) <= Severity(overall)
      {
        var application :| application in unseen;
        unseen := unseen - {application};
        match ApplicationHealth(registry.applications[application], heartbeatTimeout, now) {
          case Failed => return Failed;
          case Degraded => overall := Degraded;
          case Healthy =>
        }
      }
    }
  }

  /** The effective health SAM reports for one known application. */
  function EffectiveOf(statuses: Statuses, mode: SystemMode, timeout: nat, now: nat, a: ApplicationId): HealthState
    requires a in statuses
  {
    EffectiveHealth(ApplicationHealth(statuses[a], timeout, now), Synchronized(statuses[a], mode))
  }

  /** The effective healths SAM would report for every application. */
  function EffectiveReports(statuses: Statuses, mode: SystemMode, timeout: nat, now: nat): set<HealthState> {
    set a | a in statuses :: EffectiveOf(statuses, mode, timeout, now, a)
  }

  lemma ReportBoundsEffective(statuses: Statuses, mode: SystemMode, timeout: nat, now: nat, a: ApplicationId)
    requires a in statuses
    ensures Severity(EffectiveOf(statuses, mode, timeout, now, a))
            <= Severity(Recalculated(statuses, mode, timeout, now))
  {
    assert ApplicationHealth(statuses[a], timeout, now) in Reports(statuses, timeout, now);
    if ApplicationHealth(statuses[a], timeout, now) != Failed {
      assert statuses[a].connected;
    }
  }

  lemma PublishedHealthIsReported(statuses: Statuses, mode: SystemMode, timeout: nat, now: nat)
    returns (a: ApplicationId)
    requires Recalculated(statuses, mode, timeout, now) != Healthy
    ensures a in statuses
    ensures Severity(EffectiveOf(statuses, mode, timeout, now, a))
            >= Severity(Recalculated(statuses, mode, timeout, now))
  {
    var reported := Worst(Reports(statuses, timeout, now));
    if reported != Healthy {
      a :| a in statuses && ApplicationHealth(statuses[a], timeout, now) == reported;
    } else {
      a :| a in statuses && statuses[a].connected && statuses[a].currentMode != mode;
    }
  }

  /** The published health and the per-application reports never disagree: it is the worst of them. */
  lemma PublishedHealthIsWorstReport(statuses: Statuses, mode: SystemMode, timeout: nat, now: nat)
    ensures IsWorst(Recalculated(statuses, mode, timeout, now), EffectiveReports(statuses, mode, timeout, now))
  {
    var h := Recalculated(statuses, mode, timeout, now);
    forall a | a in statuses
      ensures Severity(EffectiveOf(statuses, mode, timeout, now, a)) <= Severity(h)
    {
      ReportBoundsEffective(statuses, mode, timeout, now, a);
    }
    if h != Healthy {
      var a := PublishedHealthIsReported(statuses, mode, timeout, now);
      ReportBoundsEffective(statuses, mode, timeout, now, a);
      assert EffectiveOf(statuses, mode, timeout, now, a) == h;
    }
  }
}
