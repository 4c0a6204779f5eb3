/** The last-known status of every application SAM has ever seen. Entries are replaced, never removed. */
module Registry {
  import opened Protocol

  datatype ApplicationStatus = ApplicationStatus(
    currentMode: SystemMode,
    health: HealthState,
    lastHeartbeat: nat,
    connected: bool)

  datatype RegistryError = NotRegistered(application: ApplicationId)

  type Statuses = map<ApplicationId, ApplicationStatus>

  function NewStatus(now: nat): ApplicationStatus {
    ApplicationStatus(Startup, Healthy, now, true)
  }

  function Disconnected(statuses: Statuses, application: ApplicationId): Statuses {
    if application in statuses then statuses[application := statuses[application].(connected := false)] else statuses
  }

  function HeartbeatRecorded(statuses: Statuses, application: ApplicationId, health: HealthState, mode: SystemMode,
                             now: nat): Statuses
  {
    if application in statuses then statuses[application := ApplicationStatus(mode, health, now, true)] else statuses
  }

  function ModeRecorded(statuses: Statuses, application: ApplicationId, mode: SystemMode): Statuses {
    if application in statuses then statuses[application := statuses[application].(currentMode := mode)] else statuses
  }

  /** The error of an update that names an application never registered. */
  function Known(statuses: Statuses, application: ApplicationId): Result<(), RegistryError> {
    if application in statuses then Ok(()) else Err(NotRegistered(application))
  }

  class ApplicationRegistry {
    var applications: Statuses

    constructor ()
      ensures applications == map[]
    {
      applications := map[];
    }

    method Register(application: ApplicationId, now: nat)
      modifies this
      ensures applications == old(applications)[application := NewStatus(now)]
    {
      applications := applications[application := NewStatus(now)];
    }

    method MarkDisconnected(application: ApplicationId) returns (r: Result<(), RegistryError>)
      modifies this
      ensures applications == Disconnected(old(applications), application)
      ensures r == Known(old(applications), application)
    {
      if application !in applications {
        return Err(NotRegistered(application));
      }
      var status := applications[application];
      applications := applications[application := status.(connected := false)];
      return Ok(());
    }

    method UpdateHeartbeat(application: ApplicationId, health: HealthState, mode: SystemMode, now: nat)
      returns (r: Result<(), RegistryError>)
      modifies this
      ensures applications == HeartbeatRecorded(old(applications), application, health, mode, now)
      ensures r == Known(old(applications), application)
    {
      if application !in applications {
        return Err(NotRegistered(application));
      }
      var status := applications[application];
      status := status.(health := health);
      status := status.(currentMode := mode);
      status := status.(lastHeartbeat := now);
      status := status.(connected := true);
      applications := applications[application := status];
      return Ok(());
    }

    method SetMode(application: ApplicationId, mode: SystemMode) returns (r: Result<(), RegistryError>)
      modifies this
      ensures applications == ModeRecorded(old(applications), application, mode)
      ensures r == Known(old(applications), application)
    {
      if application !in applications {
        return Err(NotRegistered(application));
      }
      applications := applications[application := applications[application].(currentMode := mode)];
      return Ok(());
    }
  }
}
