/** The session state machine of the refresh-token connector generation:
    enrollment, connecting, the access token kept fresh by a refresh token,
    authenticated calls retried once after UNAUTHENTICATED, and the
    heartbeat, update-report and stats-report timers. The functions here are
    the specification; the class `GrpcClient` below updates fields step by
    step and is proved to follow them. Time is the integer `now` (seconds),
    each timer is the due time it was started for, and every RPC outcome is
    an input. */
module TokenSession {
  import opened Py
  import opened Wire
  import Transport

  /** Seconds before the recorded expiry at which the access token counts as expired. */
  const ExpirySkew := 30
  /** Seconds between two heartbeats that carry full system info. */
  const FullInfoPeriod := 300

  /** What the client is constructed with; the intervals are the three timer periods. */
  datatype Settings = Settings(
    serverUrl: string,
    enrollmentCode: string,
    tlsSkipVerify: bool,
    tlsCaCert: string,
    heartbeatInterval: int,
    updateInterval: int,
    statsInterval: int)

  /** The client's mutable fields. `stub` says whether a service stub exists;
      `saved` is the last record handed to the enrollment store. */
  datatype Session = Session(
    enrollment: Option<Dict>,
    channel: Option<Transport.Channel>,
    stub: bool,
    access: Option<string>,
    refresh: Option<string>,
    expiresAt: Option<int>,
    running: bool,
    lastFullInfo: int,
    heartbeatDue: Option<int>,
    updateDue: Option<int>,
    statsDue: Option<int>,
    saved: Option<Dict>)

  const Initial := Session(None, None, false, None, None, None, false, 0, None, None, None, None)

  /** The session invariant: a running client has a channel, a stub and a
      refresh token. */
  predicate Inv(s: Session) {
    s.running ==> s.stub && s.channel.Some? && Present(s.refresh)
  }

  /** `after` differs from `before` at most in the tokens, the expiry, the
      enrollment record and the saved record. */
  predicate AuthStateOnly(before: Session, after: Session) {
    after.(access := before.access, refresh := before.refresh, expiresAt := before.expiresAt,
           enrollment := before.enrollment, saved := before.saved) == before
  }

  /** `_token_expired`: a missing or zero expiry counts as expired; otherwise
      the token is expired from 30 seconds before the recorded expiry on. */
  predicate TokenExpired(expiresAt: Option<int>, now: int) {
    expiresAt.None? || expiresAt.value == 0 || now >= expiresAt.value - ExpirySkew
  }

  /** Once expired, a token stays expired. */
  lemma TokenExpiredMonotone(expiresAt: Option<int>, t: int, later: int)
    requires t <= later && TokenExpired(expiresAt, t)
    ensures TokenExpired(expiresAt, later)
  {
  }

  /** A token recorded to expire at 3600 is still fresh at 3569 and expired from 3570 on. */
  lemma TokenExpirySkewExample()
    ensures !TokenExpired(Some(3600), 3569)
    ensures TokenExpired(Some(3600), 3570)
    ensures TokenExpired(Some(0), 0) && TokenExpired(None, 0)
  {
  }

  /** `_auth_metadata`: the value of the `authorization` header, a bearer
      token as section 2.1 of RFC 6750 writes it; a missing token is
      formatted as the text "None". */
  function AuthHeader(access: Option<string>): (r: string)
    ensures |r| >= 7 && r[..7] == "Bearer "
    ensures access.Some? ==> r[7..] == access.value
    ensures access.None? ==> r[7..] == "None"
  {
    "Bearer " + (if access.Some? then access.value else "None")
  }

  /** Different tokens give different headers. */
  lemma AuthHeaderInjective(a: string, b: string)
    requires AuthHeader(Some(a)) == AuthHeader(Some(b))
    ensures a == b
  {
    assert a == AuthHeader(Some(a))[7..];
  }

  datatype RefreshResponse = RefreshResponse(success: bool, accessToken: string, refreshToken: string, expiresAt: int, error: string)

  datatype EnrollResponse = EnrollResponse(
    success: bool,
    instanceId: string,
    accessToken: string,
    refreshToken: string,
    expiresAt: int,
    error: string)

  /** An operation's return value and the session after it. */
  datatype Step<T> = Step(out: T, after: Session)

  /** Whether `refresh_access_token` succeeds: it needs a stub and a refresh
      token, and the RPC must answer with success. */
  predicate RefreshSucceeds(s: Session, reply: Rpc<RefreshResponse>) {
    s.stub && Present(s.refresh) && reply.Reply? && reply.resp.success
  }

  /** The enrollment record after `enrollment_data.update(...)` mirrors the new tokens. */
  function Mirrored(d: Dict, access: string, refresh: string, expiresAt: int): Dict {
    d["accessToken" := Str(access)]["refreshToken" := Str(refresh)]["accessTokenExpiresAt" := Int(expiresAt)]
  }

  /** `refresh_access_token`. A refresh that does not succeed changes nothing.
      A successful one replaces the access token and the expiry, replaces the
      refresh token only by a non-empty one, and, when there is an
      enrollment record, mirrors the three into it and saves it. */
  function Refresh(st: Session, reply: Rpc<RefreshResponse>): (r: Step<bool>)
    ensures r.out <==> RefreshSucceeds(st, reply)
    ensures !r.out ==> r.after == st
    ensures AuthStateOnly(st, r.after)
    ensures r.out ==>
              var resp := reply.resp;
              && r.after.access == Some(resp.accessToken)
              && r.after.expiresAt == Some(resp.expiresAt)
              && r.after.refresh == (if resp.refreshToken != "" then Some(resp.refreshToken) else st.refresh)
              && Present(r.after.refresh)
              && (st.enrollment.None? ==> r.after.enrollment.None? && r.after.saved == st.saved)
              && (st.enrollment.Some? ==>
                    && r.after.enrollment == Some(Mirrored(st.enrollment.value, resp.accessToken, r.after.refresh.value, resp.expiresAt))
                    && r.after.saved == r.after.enrollment)
  {
    if !st.stub || !Present(st.refresh) then Step(false, st)
    else match reply
      case Failed(_) => Step(false, st)
      case Reply(resp) =>
        if !resp.success then Step(false, st)
        else
          var refresh := if resp.refreshToken != "" then resp.refreshToken else st.refresh.value;
          var s1 := st.(access := Some(resp.accessToken), refresh := Some(refresh), expiresAt := Some(resp.expiresAt));
          if st.enrollment.None? then Step(true, s1)
          else
            var d := Mirrored(st.enrollment.value, resp.accessToken, refresh, resp.expiresAt);
            Step(true, s1.(enrollment := Some(d), saved := Some(d)))
  }

  /** Whether the current access token can be used as it is. */
  predicate Fresh(s: Session, now: int) {
    Present(s.access) && !TokenExpired(s.expiresAt, now)
  }

  /** `_ensure_access_token`: refreshes iff the access token is empty or
      expired; a fresh token is kept and nothing changes. */
  function Ensure(st: Session, now: int, reply: Rpc<RefreshResponse>): (r: Step<bool>)
    ensures Fresh(st, now) ==> r == Step(true, st)
    ensures r.out <==> Fresh(st, now) || RefreshSucceeds(st, reply)
    ensures !r.out ==> r.after == st
    ensures r.after != st ==> !Fresh(st, now) && RefreshSucceeds(st, reply) && r.after == Refresh(st, reply).after
    ensures AuthStateOnly(st, r.after)
  {
    if !Present(st.access) || TokenExpired(st.expiresAt, now) then Refresh(st, reply) else Step(true, st)
  }

  /** Why an authenticated call did not return a response. */
  datatype CallError = TokenUnavailable | RpcError(code: StatusCode)
  datatype Call<T> = Done(value: T) | CallFailed(error: CallError)

  /** The outcomes an authenticated call may consume, each used only if it
      is reached: the refresh made by the token check, the first RPC, the
      refresh after UNAUTHENTICATED, and the retried RPC. */
  datatype AuthScript<T> = AuthScript(
    ensureRefresh: Rpc<RefreshResponse>,
    first: Rpc<T>,
    retryRefresh: Rpc<RefreshResponse>,
    second: Rpc<T>)

  /** The call's result, the session after it, and the authorization header
      of each RPC invocation in order. */
  datatype AuthOutcome<T> = AuthOutcome(result: Call<T>, after: Session, headers: seq<string>)

  /** `_call_with_auth`: no RPC without a usable token; an UNAUTHENTICATED
      error triggers one refresh and, if it succeeds, one retry with the new
      token; any other error, or a failed refresh, re-raises the error. */
  function AuthCall<T>(st: Session, now: int, script: AuthScript<T>): (r: AuthOutcome<T>)
    ensures |r.headers| <= 2
    ensures r.headers == [] <==> r.result == CallFailed(TokenUnavailable)
    ensures r.headers == [] <==> !Ensure(st, now, script.ensureRefresh).out
    ensures r.headers != [] ==> r.headers[0] == AuthHeader(Ensure(st, now, script.ensureRefresh).after.access)
    ensures |r.headers| == 2 <==>
              r.headers != [] && script.first == Failed(Unauthenticated) &&
              RefreshSucceeds(Ensure(st, now, script.ensureRefresh).after, script.retryRefresh)
    ensures |r.headers| == 2 ==> r.headers[1] == AuthHeader(Some(script.retryRefresh.resp.accessToken))
    ensures |r.headers| == 1 ==> r.result == (if script.first.Reply? then Done(script.first.resp) else CallFailed(RpcError(script.first.code)))
    ensures |r.headers| == 2 ==> r.result == (if script.second.Reply? then Done(script.second.resp) else CallFailed(RpcError(script.second.code)))
    ensures r.after == (if |r.headers| == 2 then Refresh(Ensure(st, now, script.ensureRefresh).after, script.retryRefresh).after
                        else Ensure(st, now, script.ensureRefresh).after)
    ensures AuthStateOnly(st, r.after)
    ensures Present(st.refresh) ==> Present(r.after.refresh)
  {
    var ensured := Ensure(st, now, script.ensureRefresh);
    if !ensured.out then AuthOutcome(CallFailed(TokenUnavailable), ensured.after, [])
    else
      var s1 := ensured.after;
      var first := AuthHeader(s1.access);
      match script.first
      case Reply(resp) => AuthOutcome(Done(resp), s1, [first])
      case Failed(code) =>
        if code != Unauthenticated then AuthOutcome(CallFailed(RpcError(code)), s1, [first])
        else
          var refreshed := Refresh(s1, script.retryRefresh);
          if !refreshed.out then AuthOutcome(CallFailed(RpcError(code)), s1, [first])
          else
            var second := AuthHeader(refreshed.after.access);
            match script.second
            case Reply(resp2) => AuthOutcome(Done(resp2), refreshed.after, [first, second])
            case Failed(code2) => AuthOutcome(CallFailed(RpcError(code2)), refreshed.after, [first, second])
  }

  /** A request, if the RPC was invoked with it, the authorization headers
      of the invocations, and the session after the send. */
  datatype Sent<Req> = Sent(after: Session, request: Option<Req>, headers: seq<string>)

  /** The heartbeat-related inputs of one tick: what `get_info` gave (or
      raised) and the RPC outcomes. */
  datatype HeartbeatInput = HeartbeatInput(info: Result<Option<Value>>, script: AuthScript<HeartbeatResponse>)

  /** Whether a full-info heartbeat gets past building its system info. */
  predicate InfoStageSucceeds(info: Result<Option<Value>>) {
    info.Ok? && AttachedSystemInfo(info.value).Ok?
  }

  /** `send_heartbeat`. Nothing happens unless running with a stub. A full
      heartbeat asks for the system info and records `now` as the last full
      time before the RPC, whatever the RPC does; an exception while
      building the request ends the send with nothing changed. A response
      with `alive` false stops the session. Every exception is caught. */
  function SendHeartbeat(st: Session, now: int, full: bool, input: HeartbeatInput): (r: Sent<HeartbeatRequest>)
    ensures !st.running || !st.stub ==> r == Sent(st, None, [])
    ensures r.request.Some? <==> r.headers != []
    ensures r.request.Some? ==>
              r.request.value.sessionId.None? && r.request.value.clientTimestamp == now * 1000 &&
              (r.request.value.systemInfo.Some? ==> full && input.info.Ok? && input.info.value.Some? && Truthy(input.info.value.value))
    ensures r.after.lastFullInfo == (if st.running && st.stub && full && InfoStageSucceeds(input.info) then now else st.lastFullInfo)
    ensures r.after.running <==>
              st.running && !(r.headers != [] && AuthCall(st.(lastFullInfo := r.after.lastFullInfo), now, input.script).result.Done? &&
                              !AuthCall(st.(lastFullInfo := r.after.lastFullInfo), now, input.script).result.value.alive)
    ensures AuthStateOnly(st, r.after.(lastFullInfo := st.lastFullInfo, running := st.running))
    ensures Present(st.refresh) ==> Present(r.after.refresh)
    ensures st.running && st.stub && full && !InfoStageSucceeds(input.info) ==> r == Sent(st, None, [])
    ensures st.running && st.stub && (!full || InfoStageSucceeds(input.info)) ==>
              var s1 := if full then st.(lastFullInfo := now) else st;
              var call := AuthCall(s1, now, input.script);
              var systemInfo := if full then AttachedSystemInfo(input.info.value).value else None;
              && r.headers == call.headers
              && r.request == (if call.headers != [] then Some(HeartbeatRequest(None, now * 1000, systemInfo)) else None)
              && r.after == (if call.result.Done? && !call.result.value.alive then call.after.(running := false) else call.after)
  {
    if !st.running || !st.stub then Sent(st, None, [])
    else if full && !InfoStageSucceeds(input.info) then Sent(st, None, [])
    else
      var systemInfo := if full then AttachedSystemInfo(input.info.value).value else None;
      var s1 := if full then st.(lastFullInfo := now) else st;
      var request := HeartbeatRequest(None, now * 1000, systemInfo);
      var call := AuthCall(s1, now, input.script);
      var s2 := if call.result.Done? && !call.result.value.alive then call.after.(running := false) else call.after;
      Sent(s2, if call.headers != [] then Some(request) else None, call.headers)
  }

  /** `_schedule_heartbeat`: starts the timer only while running. */
  function ScheduleHeartbeat(s: Session, settings: Settings, now: int): Session
  {
    if s.running then s.(heartbeatDue := Some(now + settings.heartbeatInterval)) else s
  }

  /** Whether a heartbeat tick at `now` is a full-info one. */
  predicate FullInfoDue(s: Session, now: int) {
    now - s.lastFullInfo >= FullInfoPeriod
  }

  /** `_heartbeat_loop`: one timer tick. Full info is sent iff 300 seconds
      have passed since the last full heartbeat; the next tick is scheduled
      only if the session is still running. */
  function HeartbeatLoop(st: Session, settings: Settings, now: int, input: HeartbeatInput): (r: Sent<HeartbeatRequest>)
    ensures !st.running ==> r == Sent(st, None, [])
    ensures st.running ==>
              var sent := SendHeartbeat(st, now, FullInfoDue(st, now), input);
              r.request == sent.request && r.headers == sent.headers &&
              r.after == ScheduleHeartbeat(sent.after, settings, now)
    ensures r.after.heartbeatDue == (if r.after.running then Some(now + settings.heartbeatInterval) else st.heartbeatDue)
    ensures r.after.lastFullInfo != st.lastFullInfo ==> r.after.lastFullInfo == now && FullInfoDue(st, now)
    ensures r.request.Some? && r.request.value.systemInfo.Some? ==> FullInfoDue(st, now)
  {
    if !st.running then Sent(st, None, [])
    else
      var sent := SendHeartbeat(st, now, FullInfoDue(st, now), input);
      sent.(after := ScheduleHeartbeat(sent.after, settings, now))
  }

  /** The inputs of one update report: what `get_update_components` gave
      (or raised) and the RPC outcomes. */
  datatype UpdateInput = UpdateInput(components: Result<seq<Value>>, script: AuthScript<ReportAck>)

  /** `send_update_report`: nothing unless running with a stub; the report
      lists one `ComponentUpdate` per component, in order, stamped `now`; an
      exception while collecting or converting ends the send with nothing
      changed, and every exception is caught. */
  function SendUpdateReport(st: Session, now: int, input: UpdateInput): (r: Sent<UpdateReportRequest>)
    ensures !st.running || !st.stub ==> r == Sent(st, None, [])
    ensures r.request.Some? <==> r.headers != []
    ensures r.request.Some? ==>
              input.components.Ok? &&
              r.request.value == UpdateReportRequest(None, UpdateReport(now, r.request.value.report.components)) &&
              ComponentUpdates(input.components.value) == Ok(r.request.value.report.components)
    ensures AuthStateOnly(st, r.after)
    ensures Present(st.refresh) ==> Present(r.after.refresh)
    ensures input.components.Raised? || ComponentUpdates(input.components.value).Raised? ==> r == Sent(st, None, [])
    ensures st.running && st.stub && input.components.Ok? && ComponentUpdates(input.components.value).Ok? ==>
              var call := AuthCall(st, now, input.script);
              var request := UpdateReportRequest(None, UpdateReport(now, ComponentUpdates(input.components.value).value));
              && r.headers == call.headers
              && r.request == (if call.headers != [] then Some(request) else None)
              && r.after == call.after
  {
    if !st.running || !st.stub || input.components.Raised? then Sent(st, None, [])
    else match ComponentUpdates(input.components.value)
      case Raised(_) => Sent(st, None, [])
      case Ok(updates) =>
        var request := UpdateReportRequest(None, UpdateReport(now, updates));
        var call := AuthCall(st, now, input.script);
        Sent(call.after, if call.headers != [] then Some(request) else None, call.headers)
  }

  function ScheduleUpdateReport(s: Session, settings: Settings, now: int): Session
  {
    if s.running then s.(updateDue := Some(now + settings.updateInterval)) else s
  }

  /** `_update_report_loop`: one tick; reschedules only while running. */
  function UpdateReportLoop(st: Session, settings: Settings, now: int, input: UpdateInput): (r: Sent<UpdateReportRequest>)
    ensures !st.running ==> r == Sent(st, None, [])
    ensures st.running ==> r.after == ScheduleUpdateReport(SendUpdateReport(st, now, input).after, settings, now)
    ensures st.running ==> r.request == SendUpdateReport(st, now, input).request &&
                           r.headers == SendUpdateReport(st, now, input).headers
    ensures r.after.updateDue == (if r.after.running then Some(now + settings.updateInterval) else st.updateDue)
  {
    if !st.running then Sent(st, None, [])
    else
      var sent := SendUpdateReport(st, now, input);
      sent.(after := ScheduleUpdateReport(sent.after, settings, now))
  }

  /** `start_update_reporting`: a report now, then the timer; nothing unless running. */
  function StartUpdateReporting(st: Session, settings: Settings, now: int, input: UpdateInput): (r: Sent<UpdateReportRequest>)
    ensures !st.running ==> r == Sent(st, None, [])
    ensures r == UpdateReportLoop(st, settings, now, input)
  {
    if !st.running then Sent(st, None, [])
    else
      var sent := SendUpdateReport(st, now, input);
      sent.(after := ScheduleUpdateReport(sent.after, settings, now))
  }

  /** The inputs of one stats report: what `get_core_stats` gave (or
      raised) and the RPC outcomes. */
  datatype StatsInput = StatsInput(stats: Result<Option<Value>>, script: AuthScript<ReportAck>)

  /** `send_stats_report`: nothing unless running with a stub; missing or
      empty stats skip the report; stats that are not an object raise on
      `.get`, which is caught. */
  function SendStatsReport(st: Session, now: int, input: StatsInput): (r: Sent<StatsReportRequest>)
    ensures !st.running || !st.stub ==> r == Sent(st, None, [])
    ensures input.stats.Ok? && (input.stats.value.None? || !Truthy(input.stats.value.value)) ==> r == Sent(st, None, [])
    ensures r.request.Some? <==> r.headers != []
    ensures r.request.Some? ==>
              input.stats.Ok? && input.stats.value.Some? && input.stats.value.value.Obj? &&
              r.request.value == StatsReportRequest(now, input.stats.value.value.fields)
    ensures AuthStateOnly(st, r.after)
    ensures Present(st.refresh) ==> Present(r.after.refresh)
    ensures input.stats.Raised? || (input.stats.value.Some? && !input.stats.value.value.Obj?) ==> r == Sent(st, None, [])
    ensures st.running && st.stub && input.stats.Ok? && input.stats.value.Some? &&
            input.stats.value.value.Obj? && Truthy(input.stats.value.value) ==>
              var call := AuthCall(st, now, input.script);
              && r.headers == call.headers
              && r.request == (if call.headers != [] then Some(StatsReportRequest(now, input.stats.value.value.fields)) else None)
              && r.after == call.after
  {
    if !st.running || !st.stub || input.stats.Raised? then Sent(st, None, [])
    else if input.stats.value.None? || !Truthy(input.stats.value.value) then Sent(st, None, [])
    else if !input.stats.value.value.Obj? then Sent(st, None, [])
    else
      var request := StatsReportRequest(now, input.stats.value.value.fields);
      var call := AuthCall(st, now, input.script);
      Sent(call.after, if call.headers != [] then Some(request) else None, call.headers)
  }

  function ScheduleStatsReport(s: Session, settings: Settings, now: int): Session
  {
    if s.running then s.(statsDue := Some(now + settings.statsInterval)) else s
  }

  /** `_stats_report_loop`: one tick; reschedules only while running. */
  function StatsReportLoop(st: Session, settings: Settings, now: int, input: StatsInput): (r: Sent<StatsReportRequest>)
    ensures !st.running ==> r == Sent(st, None, [])
    ensures st.running ==> r.after == ScheduleStatsReport(SendStatsReport(st, now, input).after, settings, now)
    ensures st.running ==> r.request == SendStatsReport(st, now, input).request &&
                           r.headers == SendStatsReport(st, now, input).headers
    ensures r.after.statsDue == (if r.after.running then Some(now + settings.statsInterval) else st.statsDue)
  {
    if !st.running then Sent(st, None, [])
    else
      var sent := SendStatsReport(st, now, input);
      sent.(after := ScheduleStatsReport(sent.after, settings, now))
  }

  /** `start_stats_reporting`: a report now, then the timer; nothing unless running. */
  function StartStatsReporting(st: Session, settings: Settings, now: int, input: StatsInput): (r: Sent<StatsReportRequest>)
    ensures r == StatsReportLoop(st, settings, now, input)
  {
    if !st.running then Sent(st, None, [])
    else
      var sent := SendStatsReport(st, now, input);
      sent.(after := ScheduleStatsReport(sent.after, settings, now))
  }

  /** What `start_heartbeat` sent, and the session after it. */
  datatype Started = Started(
    after: Session,
    heartbeat: Option<HeartbeatRequest>,
    update: Option<UpdateReportRequest>,
    stats: Option<StatsReportRequest>)

  /** `start_heartbeat`: nothing unless running; otherwise a full-info
      heartbeat, its timer, then update reporting and stats reporting, each
      of which does nothing if the heartbeat stopped the session. */
  function StartHeartbeat(st: Session, settings: Settings, now: int, hb: HeartbeatInput, upd: UpdateInput, stats: StatsInput): (r: Started)
    ensures !st.running ==> r == Started(st, None, None, None)
    ensures st.running ==>
              var beat := SendHeartbeat(st, now, true, hb);
              var update := StartUpdateReporting(ScheduleHeartbeat(beat.after, settings, now), settings, now, upd);
              var statsSent := StartStatsReporting(update.after, settings, now, stats);
              && r.heartbeat == beat.request
              && r.update == update.request
              && r.stats == statsSent.request
              && r.after == statsSent.after
    ensures st.running && SendHeartbeat(st, now, true, hb).after.running ==>
              && r.after.running
              && r.after.heartbeatDue == Some(now + settings.heartbeatInterval)
              && r.after.updateDue == Some(now + settings.updateInterval)
              && r.after.statsDue == Some(now + settings.statsInterval)
    ensures st.running && !SendHeartbeat(st, now, true, hb).after.running ==>
              r.update.None? && r.stats.None? && r.after == SendHeartbeat(st, now, true, hb).after
  {
    if !st.running then Started(st, None, None, None)
    else
      var beat := SendHeartbeat(st, now, true, hb);
      var s1 := ScheduleHeartbeat(beat.after, settings, now);
      var update := StartUpdateReporting(s1, settings, now, upd);
      var statsSent := StartStatsReporting(update.after, settings, now, stats);
      Started(statsSent.after, beat.request, update.request, statsSent.request)
  }

  /** `stop`: not running, no timers, no channel; the rest is kept. */
  function Stop(st: Session): (r: Session)
    ensures !r.running && r.heartbeatDue.None? && r.updateDue.None? && r.statsDue.None? && r.channel.None?
    ensures r.(running := st.running, heartbeatDue := st.heartbeatDue, updateDue := st.updateDue,
               statsDue := st.statsDue, channel := st.channel) == st
  {
    st.(running := false, heartbeatDue := None, updateDue := None, statsDue := None, channel := None)
  }

  /** A second `stop` changes nothing. */
  lemma StopIdempotent(st: Session)
    ensures Stop(Stop(st)) == Stop(st)
  {
  }

  /** A string field of the enrollment record as the client holds it. */
  function StrField(v: Value): Option<string> {
    if v.Str? then Some(v.s) else None
  }

  /** An integer field of the enrollment record as the client holds it. */
  function IntField(v: Value): Option<int> {
    if v.Int? then Some(v.i) else None
  }

  /** The session once `connect_and_handshake` has opened the channel and
      the stub and read the access token, the refresh token and the expiry
      from the enrollment record. */
  function WithRecordTokens(st: Session, d: Dict, channel: Transport.Channel): (r: Session)
    ensures r.channel == Some(channel) && r.stub
    ensures r.access == StrField(Get(d, "accessToken", Null)) && r.refresh == StrField(Get(d, "refreshToken", Null))
    ensures r.expiresAt == IntField(Get(d, "accessTokenExpiresAt", Null))
    ensures r.(channel := st.channel, stub := st.stub, access := st.access, refresh := st.refresh, expiresAt := st.expiresAt) == st
  {
    st.(channel := Some(channel), stub := true,
        access := StrField(Get(d, "accessToken", Null)),
        refresh := StrField(Get(d, "refreshToken", Null)),
        expiresAt := IntField(Get(d, "accessTokenExpiresAt", Null)))
  }

  /** `connect_and_handshake`. Not enrolled (no record, or an empty one):
      false, nothing changed. Otherwise the channel and stub are created
      (creating the channel may raise, and that is not caught) and the
      tokens and expiry are read from the record; without a refresh token,
      or when the token check fails, the result is false; only then does the
      session start running. */
  function Connect(st: Session, settings: Settings, env: Transport.TransportEnv, now: int, reply: Rpc<RefreshResponse>)
    : (r: Result<Step<bool>>)
    ensures st.enrollment.None? || st.enrollment.value == map[] ==> r == Ok(Step(false, st))
    ensures r.Ok? ==> r.value.after.running == (r.value.out || st.running)
    ensures r.Ok? && r.value.out ==>
              r.value.after.stub && r.value.after.channel.Some? && Present(r.value.after.refresh)
    ensures r.Ok? && r.value.out ==>
              var d := st.enrollment.value;
              var target := Transport.ChannelTarget(Get(d, "grpcServerUrl", Str(settings.serverUrl)));
              && Present(StrField(Get(d, "refreshToken", Null)))
              && target.Ok?
              && Transport.CreateChannel(target.value, settings.tlsSkipVerify, settings.tlsCaCert, env) == Ok(r.value.after.channel.value)
    ensures r.Ok? ==>
              && r.value.after.lastFullInfo == st.lastFullInfo
              && r.value.after.heartbeatDue == st.heartbeatDue
              && r.value.after.updateDue == st.updateDue
              && r.value.after.statsDue == st.statsDue
    ensures st.enrollment.Some? && st.enrollment.value != map[] ==>
              var d := st.enrollment.value;
              var target := Transport.ChannelTarget(Get(d, "grpcServerUrl", Str(settings.serverUrl)));
              && (target.Raised? ==> r == Raised(TypeError))
              && (target.Ok? && Transport.CreateChannel(target.value, settings.tlsSkipVerify, settings.tlsCaCert, env).Raised? ==>
                    r == Raised(Transport.CreateChannel(target.value, settings.tlsSkipVerify, settings.tlsCaCert, env).exc))
    ensures st.enrollment.Some? && st.enrollment.value != map[] && r.Ok? ==>
              var d := st.enrollment.value;
              var target := Transport.ChannelTarget(Get(d, "grpcServerUrl", Str(settings.serverUrl))).value;
              var s1 := WithRecordTokens(st, d, Transport.CreateChannel(target, settings.tlsSkipVerify, settings.tlsCaCert, env).value);
              && (r.value.out <==> Present(s1.refresh) && Ensure(s1, now, reply).out)
              && (!Present(s1.refresh) ==> r.value.after == s1)
              && (Present(s1.refresh) && !r.value.out ==> r.value.after == Ensure(s1, now, reply).after)
              && (r.value.out ==> r.value.after == Ensure(s1, now, reply).after.(running := true))
  {
    if st.enrollment.None? || st.enrollment.value == map[] then Ok(Step(false, st))
    else
      var d := st.enrollment.value;
      var target :- Transport.ChannelTarget(Get(d, "grpcServerUrl", Str(settings.serverUrl)));
      var channel :- Transport.CreateChannel(target, settings.tlsSkipVerify, settings.tlsCaCert, env);
      var s1 := WithRecordTokens(st, d, channel);
      if !Present(s1.refresh) then Ok(Step(false, s1))
      else
        var ensured := Ensure(s1, now, reply);
        if !ensured.out then Ok(Step(false, ensured.after))
        else Ok(Step(true, ensured.after.(running := true)))
  }

  /** The record `enroll` stores after a successful enrollment. */
  function EnrollmentRecord(resp: EnrollResponse, serverUrl: string): (r: Dict)
    ensures r.Keys == {"instanceId", "accessToken", "refreshToken", "accessTokenExpiresAt", "grpcServerUrl"}
    ensures r["instanceId"] == Str(resp.instanceId) && r["grpcServerUrl"] == Str(serverUrl)
    ensures r["accessToken"] == Str(resp.accessToken) && r["refreshToken"] == Str(resp.refreshToken)
    ensures r["accessTokenExpiresAt"] == Int(resp.expiresAt)
  {
    map["instanceId" := Str(resp.instanceId), "accessToken" := Str(resp.accessToken),
        "refreshToken" := Str(resp.refreshToken), "accessTokenExpiresAt" := Int(resp.expiresAt),
        "grpcServerUrl" := Str(serverUrl)]
  }

  /** `enroll`: a channel to the configured server, the Enroll RPC, and on
      success the new record, which is also saved. A channel that cannot be
      created, an RPC error or an unsuccessful response give false with
      nothing changed. */
  function Enroll(st: Session, settings: Settings, env: Transport.TransportEnv, reply: Rpc<EnrollResponse>): (r: Step<bool>)
    ensures r.out <==> Transport.CreateChannel(settings.serverUrl, settings.tlsSkipVerify, settings.tlsCaCert, env).Ok? &&
                       reply.Reply? && reply.resp.success
    ensures !r.out ==> r.after == st
    ensures r.out ==> r.after == st.(enrollment := Some(EnrollmentRecord(reply.resp, settings.serverUrl)),
                                     saved := Some(EnrollmentRecord(reply.resp, settings.serverUrl)))
  {
    if Transport.CreateChannel(settings.serverUrl, settings.tlsSkipVerify, settings.tlsCaCert, env).Raised? then Step(false, st)
    else match reply
      case Failed(_) => Step(false, st)
      case Reply(resp) =>
        if !resp.success then Step(false, st)
        else
          var d := EnrollmentRecord(resp, settings.serverUrl);
          Step(true, st.(enrollment := Some(d), saved := Some(d)))
  }

  /** The invariant survives the token operations. */
  lemma InvAuth<T>(st: Session, now: int, reply: Rpc<RefreshResponse>, script: AuthScript<T>)
    requires Inv(st)
    ensures Inv(Refresh(st, reply).after)
    ensures Inv(Ensure(st, now, reply).after)
    ensures Inv(AuthCall(st, now, script).after)
  {
  }

  /** The invariant survives every send, tick and start. */
  lemma InvReporting(st: Session, settings: Settings, now: int, full: bool, hb: HeartbeatInput, upd: UpdateInput, stats: StatsInput)
    requires Inv(st)
    ensures Inv(SendHeartbeat(st, now, full, hb).after)
    ensures Inv(HeartbeatLoop(st, settings, now, hb).after)
    ensures Inv(UpdateReportLoop(st, settings, now, upd).after)
    ensures Inv(StatsReportLoop(st, settings, now, stats).after)
    ensures Inv(StartHeartbeat(st, settings, now, hb, upd, stats).after)
  {
    var beat := SendHeartbeat(st, now, true, hb);
    var s1 := ScheduleHeartbeat(beat.after, settings, now);
    assert Inv(s1);
    assert Inv(StartUpdateReporting(s1, settings, now, upd).after);
  }

  /** The invariant survives enrolling and stopping, and connecting a client
      that is not running yet. (Connecting again while running re-reads the
      tokens from the record, which may hold no refresh token.) */
  lemma InvLifecycle(st: Session, settings: Settings, env: Transport.TransportEnv, now: int,
                     reply: Rpc<RefreshResponse>, enrollReply: Rpc<EnrollResponse>)
    requires Inv(st)
    ensures !st.running && Connect(st, settings, env, now, reply).Ok? ==> Inv(Connect(st, settings, env, now, reply).value.after)
    ensures Inv(Enroll(st, settings, env, enrollReply).after)
    ensures Inv(Stop(st))
  {
  }

  /** While the session is not running, every timer tick, schedule and
      start does nothing at all. */
  lemma StoppedIsInert(st: Session, settings: Settings, now: int, hb: HeartbeatInput, upd: UpdateInput, stats: StatsInput)
    requires !st.running
    ensures HeartbeatLoop(st, settings, now, hb) == Sent(st, None, [])
    ensures UpdateReportLoop(st, settings, now, upd) == Sent(st, None, [])
    ensures StatsReportLoop(st, settings, now, stats) == Sent(st, None, [])
    ensures StartHeartbeat(st, settings, now, hb, upd, stats) == Started(st, None, None, None)
    ensures StartUpdateReporting(st, settings, now, upd) == Sent(st, None, [])
    ensures StartStatsReporting(st, settings, now, stats) == Sent(st, None, [])
    ensures ScheduleHeartbeat(st, settings, now) == st
    ensures ScheduleUpdateReport(st, settings, now) == st
    ensures ScheduleStatsReport(st, settings, now) == st
  {
  }

  /** A heartbeat tick whose response says `alive` is false stops the
      session and does not schedule another heartbeat; from then on every
      tick is inert. */
  lemma {:induction false} NotAliveStopsRescheduling(st: Session, settings: Settings, now: int, input: HeartbeatInput, latency: int)
    requires st.running && st.stub && Fresh(st, now)
    requires !FullInfoDue(st, now) || InfoStageSucceeds(input.info)
    requires input.script.first == Reply(HeartbeatResponse(false, latency))
    ensures var r := HeartbeatLoop(st, settings, now, input);
            && !r.after.running
            && r.after.heartbeatDue == st.heartbeatDue
            && |r.headers| == 1 && r.headers[0] == AuthHeader(st.access)
            && forall later: int, next: HeartbeatInput :: HeartbeatLoop(r.after, settings, later, next) == Sent(r.after, None, [])
  {
    var full := FullInfoDue(st, now);
    var s1 := if full then st.(lastFullInfo := now) else st;
    assert Fresh(s1, now);
    var call := AuthCall(s1, now, input.script);
    assert call.result == Done(HeartbeatResponse(false, latency));
  }

  /** Within 300 seconds of the last full heartbeat a tick is minimal and
      keeps the last full time; once 300 seconds have passed, a tick that
      gets past building the system info records `now`. */
  lemma HeartbeatCadence(st: Session, settings: Settings, now: int, input: HeartbeatInput)
    requires st.running
    ensures now - st.lastFullInfo < FullInfoPeriod ==>
              var r := HeartbeatLoop(st, settings, now, input);
              r.after.lastFullInfo == st.lastFullInfo && (r.request.Some? ==> r.request.value.systemInfo.None?)
    ensures FullInfoDue(st, now) && st.stub && InfoStageSucceeds(input.info) ==>
              HeartbeatLoop(st, settings, now, input).after.lastFullInfo == now
  {
  }

  /** `start_heartbeat` on a running session with a stub sends the full
      info: unless building it raised, the last full time becomes `now`. */
  lemma StartSendsFullInfo(st: Session, settings: Settings, now: int, hb: HeartbeatInput, upd: UpdateInput, stats: StatsInput)
    requires st.running && st.stub && InfoStageSucceeds(hb.info)
    ensures StartHeartbeat(st, settings, now, hb, upd, stats).after.lastFullInfo == now
  {
    var beat := SendHeartbeat(st, now, true, hb);
    var s1 := ScheduleHeartbeat(beat.after, settings, now);
    var update := StartUpdateReporting(s1, settings, now, upd);
    assert update.after.lastFullInfo == now;
  }

  /** Connecting right after a successful enrollment reaches the channel
      enrollment already opened and uses the tokens it was issued: it fails
      without a refresh token, and otherwise succeeds iff the issued access
      token is usable or a refresh succeeds. */
  lemma EnrollThenConnect(st: Session, settings: Settings, env: Transport.TransportEnv, now: int,
                          enrollReply: Rpc<EnrollResponse>, reply: Rpc<RefreshResponse>)
    requires Enroll(st, settings, env, enrollReply).out
    ensures var enrolled := Enroll(st, settings, env, enrollReply).after;
            var resp := enrollReply.resp;
            var c := Connect(enrolled, settings, env, now, reply);
            && c.Ok?
            && (resp.refreshToken == "" ==> !c.value.out)
            && (resp.refreshToken != "" ==>
                  (c.value.out <==> (resp.accessToken != "" && !TokenExpired(Some(resp.expiresAt), now)) ||
                                    (reply.Reply? && reply.resp.success)))
  {
    var d := EnrollmentRecord(enrollReply.resp, settings.serverUrl);
    assert Get(d, "grpcServerUrl", Str(settings.serverUrl)) == Str(settings.serverUrl);
    assert d != map[] by { assert "instanceId" in d; }
  }
}
