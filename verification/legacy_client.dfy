/** `OmniiGrpcClient` of the legacy generation as an object whose methods
    update its fields, and the data directory it saves to, step by step;
    each method is proved to follow the specification functions of
    `LegacySession`. */
module LegacyClient {
  import opened Py
  import opened Wire
  import SupervisorApi
  import EnrollmentStore
  import Transport
  import L = LegacySession

  class GrpcClient {
    const settings: L.Settings
    /** The data directory the enrollment store reads and writes. */
    const disk: EnrollmentStore.Disk
    var enrollmentData: Option<Dict>
    var channel: Option<string>
    var stub: bool
    var sessionId: Option<string>
    var running: bool
    var lastFullInfoTime: int
    var heartbeatTimer: Option<int>
    var updateReportTimer: Option<int>

    function State(): L.Session
      reads this, disk
    {
      L.Session(enrollmentData, channel, stub, sessionId, running, lastFullInfoTime,
                heartbeatTimer, updateReportTimer, disk.files)
    }

    constructor (serverUrl: string, enrollmentCode: string, supervisorToken: string,
                 heartbeatInterval: int, updateInterval: int, disk: EnrollmentStore.Disk)
      ensures settings == L.Settings(RStrip(serverUrl, '/'), enrollmentCode, supervisorToken, heartbeatInterval, updateInterval)
      ensures this.disk == disk
      ensures State() == L.Session(None, None, false, None, false, 0, None, None, disk.files)
    {
      settings := L.Settings(RStrip(serverUrl, '/'), enrollmentCode, supervisorToken, heartbeatInterval, updateInterval);
      this.disk := disk;
      enrollmentData := None;
      channel := None;
      stub := false;
      sessionId := None;
      running := false;
      lastFullInfoTime := 0;
      heartbeatTimer := None;
      updateReportTimer := None;
    }

    method LoadExistingEnrollment() returns (ok: bool)
      modifies this
      ensures L.Step(ok, State()) == L.LoadExisting(old(State()))
    {
      enrollmentData := EnrollmentStore.Load(disk.files);
      ok := enrollmentData.Some?;
    }

    method Enroll(reply: Rpc<L.EnrollResponse>) returns (ok: bool)
      modifies this, disk
      ensures L.Step(ok, State()) == L.Enroll(old(State()), settings, reply)
    {
      match reply
      case Failed(_) =>
        return false;
      case Reply(resp) =>
        if !resp.success {
          return false;
        }
        enrollmentData := Some(L.EnrollmentRecord(resp, settings.serverUrl));
        var raised := disk.SaveEnrollmentData(enrollmentData.value);
        return !raised;
    }

    method ConnectAndHandshake(reply: Rpc<L.HandshakeResponse>) returns (r: Result<bool>, request: Option<L.HandshakeRequest>)
      modifies this
      ensures L.Handshake(r, State(), request) == L.Connect(old(State()), settings, reply)
    {
      if enrollmentData.None? || enrollmentData.value == map[] {
        return Ok(false), None;
      }
      var d := enrollmentData.value;
      var target := Transport.ChannelTarget(Get(d, "grpcServerUrl", Str(settings.serverUrl)));
      if target.Raised? {
        return Raised(target.exc), None;
      }
      channel := Some(target.value);
      stub := true;
      var instanceId := ProtoString(Get(d, "instanceId", Str("unknown")));
      var token := ProtoString(Get(d, "token", Str("")));
      if instanceId.Raised? || token.Raised? {
        return Raised(TypeError), None;
      }
      request := Some(L.HandshakeRequest(instanceId.value, token.value));
      match reply
      case Failed(_) =>
        return Ok(false), request;
      case Reply(resp) =>
        if resp.status == "ok" {
          sessionId := Some(resp.sessionId);
          running := true;
          return Ok(true), request;
        }
        return Ok(false), request;
    }

    method SendHeartbeat(now: int, full: bool, info: SupervisorApi.Http, reply: Rpc<HeartbeatResponse>)
      returns (request: Option<HeartbeatRequest>, raised: bool)
      modifies this
      ensures L.Sent(State(), request, raised) == L.SendHeartbeat(old(State()), settings, now, full, info, reply)
    {
      if !running || !Present(sessionId) || !stub {
        return None, false;
      }
      var systemInfo: Option<SystemInfo> := None;
      if full {
        var data := SupervisorApi.GetData(settings.supervisorToken, info);
        if data.Raised? {
          return None, true;
        }
        var attached := AttachedSystemInfo(data.value);
        if attached.Raised? {
          return None, true;
        }
        systemInfo := attached.value;
        lastFullInfoTime := now;
      }
      request := Some(HeartbeatRequest(sessionId, now * 1000, systemInfo));
      raised := false;
      match reply
      case Failed(_) =>
      case Reply(resp) =>
        if !resp.alive {
          running := false;
        }
    }

    method ScheduleHeartbeat(now: int)
      modifies this
      ensures State() == L.ScheduleHeartbeat(old(State()), settings, now)
    {
      if running {
        heartbeatTimer := Some(now + settings.heartbeatInterval);
      }
    }

    method HeartbeatLoop(now: int, input: L.HeartbeatInput) returns (request: Option<HeartbeatRequest>, raised: bool)
      modifies this
      ensures L.Sent(State(), request, raised) == L.HeartbeatLoop(old(State()), settings, now, input)
    {
      if !running {
        return None, false;
      }
      var full := now - lastFullInfoTime >= L.FullInfoPeriod;
      request, raised := SendHeartbeat(now, full, input.info, input.reply);
      if raised {
        return;
      }
      if running {
        ScheduleHeartbeat(now);
      }
    }

    /** `send_update_report`; the conversion loop is `BuildComponentUpdates`. */
    method SendUpdateReport(now: int, input: L.UpdateInput) returns (request: Option<UpdateReportRequest>, raised: bool)
      ensures L.Sent(State(), request, raised) == L.SendUpdateReport(State(), settings, now, input)
    {
      if !running || !Present(sessionId) || !stub {
        return None, false;
      }
      var components := SupervisorApi.GetUpdateComponents(settings.supervisorToken, input.supervisor, input.core, input.os, input.addons);
      if components.Raised? {
        return None, true;
      }
      var updates := BuildComponentUpdates(L.ComponentRecords(components.value));
      if updates.Raised? {
        return None, true;
      }
      return Some(UpdateReportRequest(sessionId, UpdateReport(now, updates.value))), false;
    }

    method ScheduleUpdateReport(now: int)
      modifies this
      ensures State() == L.ScheduleUpdateReport(old(State()), settings, now)
    {
      if running {
        updateReportTimer := Some(now + settings.updateInterval);
      }
    }

    method UpdateReportLoop(now: int, input: L.UpdateInput) returns (request: Option<UpdateReportRequest>, raised: bool)
      modifies this
      ensures L.Sent(State(), request, raised) == L.UpdateReportLoop(old(State()), settings, now, input)
    {
      if !running {
        return None, false;
      }
      request, raised := SendUpdateReport(now, input);
      if raised {
        return;
      }
      if running {
        ScheduleUpdateReport(now);
      }
    }

    method StartUpdateReporting(now: int, input: L.UpdateInput) returns (request: Option<UpdateReportRequest>, raised: bool)
      modifies this
      ensures L.Sent(State(), request, raised) == L.UpdateReportLoop(old(State()), settings, now, input)
    {
      if !running {
        return None, false;
      }
      request, raised := SendUpdateReport(now, input);
      if raised {
        return;
      }
      ScheduleUpdateReport(now);
    }

    method StartHeartbeat(now: int, hb: L.HeartbeatInput, upd: L.UpdateInput)
      returns (heartbeat: Option<HeartbeatRequest>, update: Option<UpdateReportRequest>, raised: bool)
      modifies this
      ensures L.Started(State(), heartbeat, update, raised) == L.StartHeartbeat(old(State()), settings, now, hb, upd)
    {
      if !running {
        return None, None, false;
      }
      heartbeat, raised := SendHeartbeat(now, true, hb.info, hb.reply);
      if raised {
        return None, None, true;
      }
      ScheduleHeartbeat(now);
      update, raised := StartUpdateReporting(now, upd);
    }

    method Stop()
      modifies this
      ensures State() == L.Stop(old(State()))
    {
      running := false;
      if heartbeatTimer.Some? {
        heartbeatTimer := None;
      }
      if updateReportTimer.Some? {
        updateReportTimer := None;
      }
      if channel.Some? {
        channel := None;
      }
    }
  }
}
