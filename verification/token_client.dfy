/** `OmniiGrpcClient` of the refresh-token generation as an object whose
    methods update its fields step by step; each method is proved to leave
    the state and return the values that the specification functions of
    `TokenSession` prescribe. */
module TokenClient {
  import opened Py
  import opened Wire
  import Transport
  import S = TokenSession

  class GrpcClient {
    const settings: S.Settings
    var enrollmentData: Option<Dict>
    var channel: Option<Transport.Channel>
    var stub: bool
    var accessToken: Option<string>
    var refreshToken: Option<string>
    var accessTokenExpiresAt: Option<int>
    var running: bool
    var lastFullInfoTime: int
    var heartbeatTimer: Option<int>
    var updateReportTimer: Option<int>
    var statsReportTimer: Option<int>
    /** The last record handed to the enrollment store. */
    var saved: Option<Dict>

    /** The fields as a `TokenSession.Session` value. */
    function State(): S.Session
      reads this
    {
      S.Session(enrollmentData, channel, stub, accessToken, refreshToken, accessTokenExpiresAt, running,
                lastFullInfoTime, heartbeatTimer, updateReportTimer, statsReportTimer, saved)
    }

    /** The server URL loses its trailing slashes; nothing is connected yet. */
    constructor (serverUrl: string, enrollmentCode: string, tlsSkipVerify: bool, tlsCaCert: string,
                 heartbeatInterval: int, updateInterval: int, statsInterval: int)
      ensures settings == S.Settings(RStrip(serverUrl, '/'), enrollmentCode, tlsSkipVerify, tlsCaCert,
                                     heartbeatInterval, updateInterval, statsInterval)
      ensures State() == S.Initial
    {
      settings := S.Settings(RStrip(serverUrl, '/'), enrollmentCode, tlsSkipVerify, tlsCaCert,
                             heartbeatInterval, updateInterval, statsInterval);
      enrollmentData := None;
      channel := None;
      stub := false;
      accessToken := None;
      refreshToken := None;
      accessTokenExpiresAt := None;
      running := false;
      lastFullInfoTime := 0;
      heartbeatTimer := None;
      updateReportTimer := None;
      statsReportTimer := None;
      saved := None;
    }

    /** `load_existing_enrollment`, given what the enrollment store loaded. */
    method LoadExistingEnrollment(loaded: Option<Dict>) returns (ok: bool)
      modifies this
      ensures ok == loaded.Some?
      ensures State() == old(State()).(enrollment := loaded)
    {
      enrollmentData := loaded;
      ok := enrollmentData.Some?;
    }

    method Enroll(env: Transport.TransportEnv, reply: Rpc<S.EnrollResponse>) returns (ok: bool)
      modifies this
      ensures S.Step(ok, State()) == S.Enroll(old(State()), settings, env, reply)
    {
      var created := Transport.CreateChannel(settings.serverUrl, settings.tlsSkipVerify, settings.tlsCaCert, env);
      if created.Raised? {
        return false;
      }
      match reply
      case Failed(_) =>
        return false;
      case Reply(resp) =>
        if !resp.success {
          return false;
        }
        enrollmentData := Some(S.EnrollmentRecord(resp, settings.serverUrl));
        saved := enrollmentData;
        return true;
    }

    method RefreshAccessToken(reply: Rpc<S.RefreshResponse>) returns (ok: bool)
      modifies this
      ensures S.Step(ok, State()) == S.Refresh(old(State()), reply)
    {
      if !stub || !Present(refreshToken) {
        return false;
      }
      match reply
      case Failed(_) =>
        return false;
      case Reply(resp) =>
        if !resp.success {
          return false;
        }
        accessToken := Some(resp.accessToken);
        if resp.refreshToken != "" {
          refreshToken := Some(resp.refreshToken);
        }
        accessTokenExpiresAt := Some(resp.expiresAt);
        if enrollmentData.Some? {
          enrollmentData := Some(S.Mirrored(enrollmentData.value, resp.accessToken, refreshToken.value, resp.expiresAt));
          saved := enrollmentData;
        }
        return true;
    }

    method EnsureAccessToken(now: int, reply: Rpc<S.RefreshResponse>) returns (ok: bool)
      modifies this
      ensures S.Step(ok, State()) == S.Ensure(old(State()), now, reply)
    {
      if !Present(accessToken) || S.TokenExpired(accessTokenExpiresAt, now) {
        ok := RefreshAccessToken(reply);
      } else {
        ok := true;
      }
    }

    /** Opens the stub on a created channel and loads the record's tokens. */
    method AttachRecord(d: Dict, created: Transport.Channel)
      modifies this
      ensures State() == S.WithRecordTokens(old(State()), d, created)
    {
      channel := Some(created);
      stub := true;
      accessToken := S.StrField(Get(d, "accessToken", Null));
      refreshToken := S.StrField(Get(d, "refreshToken", Null));
      accessTokenExpiresAt := S.IntField(Get(d, "accessTokenExpiresAt", Null));
    }

    /** `connect_and_handshake`; an exception from creating the channel is returned as `Raised`. */
    method ConnectAndHandshake(env: Transport.TransportEnv, now: int, reply: Rpc<S.RefreshResponse>) returns (r: Result<bool>)
      modifies this
      ensures var spec := S.Connect(old(State()), settings, env, now, reply);
              match spec
              case Ok(step) => r == Ok(step.out) && State() == step.after
              case Raised(e) => r == Raised(e) && State() == old(State())
    {
      if enrollmentData.None? || enrollmentData.value == map[] {
        return Ok(false);
      }
      var d := enrollmentData.value;
      var target :- Transport.ChannelTarget(Get(d, "grpcServerUrl", Str(settings.serverUrl)));
      var created :- Transport.CreateChannel(target, settings.tlsSkipVerify, settings.tlsCaCert, env);
      AttachRecord(d, created);
      if !Present(refreshToken) {
        return Ok(false);
      }
      var ok := EnsureAccessToken(now, reply);
      if !ok {
        return Ok(false);
      }
      running := true;
      return Ok(true);
    }

    method CallWithAuth<T>(now: int, script: S.AuthScript<T>) returns (result: S.Call<T>, headers: seq<string>)
      modifies this
      ensures S.AuthOutcome(result, State(), headers) == S.AuthCall(old(State()), now, script)
    {
      var ok := EnsureAccessToken(now, script.ensureRefresh);
      if !ok {
        return S.CallFailed(S.TokenUnavailable), [];
      }
      var metadata := S.AuthHeader(accessToken);
      headers := [metadata];
      match script.first
      case Reply(resp) =>
        return S.Done(resp), headers;
      case Failed(code) =>
        if code == Unauthenticated {
          var refreshed := RefreshAccessToken(script.retryRefresh);
          if refreshed {
            metadata := S.AuthHeader(accessToken);
            headers := headers + [metadata];
            match script.second
            case Reply(resp2) =>
              return S.Done(resp2), headers;
            case Failed(code2) =>
              return S.CallFailed(S.RpcError(code2)), headers;
          }
        }
        return S.CallFailed(S.RpcError(code)), headers;
    }

    method SendHeartbeat(now: int, full: bool, input: S.HeartbeatInput)
      returns (request: Option<HeartbeatRequest>, headers: seq<string>)
      modifies this
      ensures S.Sent(State(), request, headers) == S.SendHeartbeat(old(State()), now, full, input)
    {
      if !running || !stub {
        return None, [];
      }
      var systemInfo: Option<SystemInfo> := None;
      if full {
        if input.info.Raised? {
          return None, [];
        }
        var attached := AttachedSystemInfo(input.info.value);
        if attached.Raised? {
          return None, [];
        }
        systemInfo := attached.value;
        lastFullInfoTime := now;
      }
      var built := HeartbeatRequest(None, now * 1000, systemInfo);
      var result;
      result, headers := CallWithAuth(now, input.script);
      if result.Done? && !result.value.alive {
        running := false;
      }
      request := if headers != [] then Some(built) else None;
    }

    method ScheduleHeartbeat(now: int)
      modifies this
      ensures State() == S.ScheduleHeartbeat(old(State()), settings, now)
    {
      if running {
        heartbeatTimer := Some(now + settings.heartbeatInterval);
      }
    }

    method HeartbeatLoop(now: int, input: S.HeartbeatInput) returns (request: Option<HeartbeatRequest>, headers: seq<string>)
      modifies this
      ensures S.Sent(State(), request, headers) == S.HeartbeatLoop(old(State()), settings, now, input)
    {
      if !running {
        return None, [];
      }
      var full := now - lastFullInfoTime >= S.FullInfoPeriod;
      request, headers := SendHeartbeat(now, full, input);
      if running {
        ScheduleHeartbeat(now);
      }
    }

    method SendUpdateReport(now: int, input: S.UpdateInput) returns (request: Option<UpdateReportRequest>, headers: seq<string>)
      modifies this
      ensures S.Sent(State(), request, headers) == S.SendUpdateReport(old(State()), now, input)
    {
      if !running || !stub || input.components.Raised? {
        return None, [];
      }
      var updates := BuildComponentUpdates(input.components.value);
      if updates.Raised? {
        return None, [];
      }
      var built := UpdateReportRequest(None, UpdateReport(now, updates.value));
      var result;
      result, headers := CallWithAuth(now, input.script);
      request := if headers != [] then Some(built) else None;
    }

    method ScheduleUpdateReport(now: int)
      modifies this
      ensures State() == S.ScheduleUpdateReport(old(State()), settings, now)
    {
      if running {
        updateReportTimer := Some(now + settings.updateInterval);
      }
    }

    method UpdateReportLoop(now: int, input: S.UpdateInput) returns (request: Option<UpdateReportRequest>, headers: seq<string>)
      modifies this
      ensures S.Sent(State(), request, headers) == S.UpdateReportLoop(old(State()), settings, now, input)
    {
      if !running {
        return None, [];
      }
      request, headers := SendUpdateReport(now, input);
      if running {
        ScheduleUpdateReport(now);
      }
    }

    method StartUpdateReporting(now: int, input: S.UpdateInput) returns (request: Option<UpdateReportRequest>, headers: seq<string>)
      modifies this
      ensures S.Sent(State(), request, headers) == S.StartUpdateReporting(old(State()), settings, now, input)
    {
      if !running {
        return None, [];
      }
      request, headers := SendUpdateReport(now, input);
      ScheduleUpdateReport(now);
    }

    method SendStatsReport(now: int, input: S.StatsInput) returns (request: Option<StatsReportRequest>, headers: seq<string>)
      modifies this
      ensures S.Sent(State(), request, headers) == S.SendStatsReport(old(State()), now, input)
    {
      if !running || !stub || input.stats.Raised? {
        return None, [];
      }
      var stats := input.stats.value;
      if stats.None? || !Truthy(stats.value) {
        return None, [];
      }
      if !stats.value.Obj? {
        return None, [];
      }
      var built := StatsReportRequest(now, stats.value.fields);
      var result;
      result, headers := CallWithAuth(now, input.script);
      request := if headers != [] then Some(built) else None;
    }

    method ScheduleStatsReport(now: int)
      modifies this
      ensures State() == S.ScheduleStatsReport(old(State()), settings, now)
    {
      if running {
        statsReportTimer := Some(now + settings.statsInterval);
      }
    }

    method StatsReportLoop(now: int, input: S.StatsInput) returns (request: Option<StatsReportRequest>, headers: seq<string>)
      modifies this
      ensures S.Sent(State(), request, headers) == S.StatsReportLoop(old(State()), settings, now, input)
    {
      if !running {
        return None, [];
      }
      request, headers := SendStatsReport(now, input);
      if running {
        ScheduleStatsReport(now);
      }
    }

    method StartStatsReporting(now: int, input: S.StatsInput) returns (request: Option<StatsReportRequest>, headers: seq<string>)
      modifies this
      ensures S.Sent(State(), request, headers) == S.StartStatsReporting(old(State()), settings, now, input)
    {
      if !running {
        return None, [];
      }
      request, headers := SendStatsReport(now, input);
      ScheduleStatsReport(now);
    }

    method StartHeartbeat(now: int, hb: S.HeartbeatInput, upd: S.UpdateInput, stats: S.StatsInput)
      returns (heartbeat: Option<HeartbeatRequest>, update: Option<UpdateReportRequest>, statsSent: Option<StatsReportRequest>)
      modifies this
      ensures S.Started(State(), heartbeat, update, statsSent) == S.StartHeartbeat(old(State()), settings, now, hb, upd, stats)
    {
      if !running {
        return None, None, None;
      }
      var headers;
      heartbeat, headers := SendHeartbeat(now, true, hb);
      ScheduleHeartbeat(now);
      update, headers := StartUpdateReporting(now, upd);
      statsSent, headers := StartStatsReporting(now, stats);
    }

    method Stop()
      modifies this
      ensures State() == S.Stop(old(State()))
    {
      running := false;
      if heartbeatTimer.Some? {
        heartbeatTimer := None;
      }
      if updateReportTimer.Some? {
        updateReportTimer := None;
      }
      if statsReportTimer.Some? {
        statsReportTimer := None;
      }
      if channel.Some? {
        channel := None;
      }
    }
  }
}
