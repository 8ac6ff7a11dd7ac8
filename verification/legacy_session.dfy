/** The session state machine of the legacy connector generation: a
    plain-text channel, a handshake that yields a session id, and heartbeat
    and update-report timers. Unlike the refresh-token generation, the
    sends catch only RPC errors: any other exception leaves the send, and
    the timer callback that made it does not schedule again. The enrollment
    record is persisted in the file system of `EnrollmentStore`, which is
    part of the state here. */
module LegacySession {
  import opened Py
  import opened Wire
  import SupervisorApi
  import EnrollmentStore
  import Transport

  const FullInfoPeriod := 300

  /** What the client is constructed with; `supervisorToken` is the
      Supervisor API token from the environment. */
  datatype Settings = Settings(
    serverUrl: string,
    enrollmentCode: string,
    supervisorToken: string,
    heartbeatInterval: int,
    updateInterval: int)

  /** The client's mutable fields and the files of the data directory.
      `channel` is the target of the plain-text channel. */
  datatype Session = Session(
    enrollment: Option<Dict>,
    channel: Option<string>,
    stub: bool,
    sessionId: Option<string>,
    running: bool,
    lastFullInfo: int,
    heartbeatDue: Option<int>,
    updateDue: Option<int>,
    files: EnrollmentStore.FileSystem)

  /** A running client has a channel, a stub and a session id. */
  predicate Inv(s: Session) {
    s.running ==> s.stub && s.channel.Some? && s.sessionId.Some?
  }

  datatype EnrollResponse = EnrollResponse(success: bool, instanceId: string, token: string, error: string)
  datatype HandshakeRequest = HandshakeRequest(addonId: string, token: string)
  datatype HandshakeResponse = HandshakeResponse(status: string, sessionId: string)

  datatype Step<T> = Step(out: T, after: Session)

  /** The record `enroll` stores after a successful enrollment. */
  function EnrollmentRecord(resp: EnrollResponse, serverUrl: string): (r: Dict)
    ensures r.Keys == {"instanceId", "token", "grpcServerUrl"}
    ensures r["instanceId"] == Str(resp.instanceId) && r["token"] == Str(resp.token) && r["grpcServerUrl"] == Str(serverUrl)
  {
    map["instanceId" := Str(resp.instanceId), "token" := Str(resp.token), "grpcServerUrl" := Str(serverUrl)]
  }

  /** `enroll`: the Enroll RPC over a plain-text channel; on success the
      record is kept and saved. A save that raises is caught: the result is
      false, but the record is kept and the files hold what was written. */
  function Enroll(st: Session, settings: Settings, reply: Rpc<EnrollResponse>): (r: Step<bool>)
    ensures !(reply.Reply? && reply.resp.success) ==> r == Step(false, st)
    ensures reply.Reply? && reply.resp.success ==>
              var d := EnrollmentRecord(reply.resp, settings.serverUrl);
              var saved := EnrollmentStore.Save(st.files, d);
              && r.out == !saved.raised
              && r.after == st.(enrollment := Some(d), files := saved.files)
  {
    match reply
    case Failed(_) => Step(false, st)
    case Reply(resp) =>
      if !resp.success then Step(false, st)
      else
        var d := EnrollmentRecord(resp, settings.serverUrl);
        var saved := EnrollmentStore.Save(st.files, d);
        Step(!saved.raised, st.(enrollment := Some(d), files := saved.files))
  }

  /** `load_existing_enrollment`: the record is what the store loads. */
  function LoadExisting(st: Session): (r: Step<bool>)
    ensures r.out <==> EnrollmentStore.Load(st.files).Some?
    ensures r.after == st.(enrollment := EnrollmentStore.Load(st.files))
  {
    var loaded := EnrollmentStore.Load(st.files);
    Step(loaded.Some?, st.(enrollment := loaded))
  }

  /** The handshake's return value, the session after it, and the request
      it sent, if the RPC was invoked. */
  datatype Handshake = Handshake(out: Result<bool>, after: Session, request: Option<HandshakeRequest>)

  /** `connect_and_handshake`. Not enrolled: false. Otherwise a channel to
      the recorded server URL and a stub are created, and the handshake
      sends the recorded `instanceId` (default "unknown") and `token`
      (default ""). Only the status "ok" stores the session id and starts
      the session; an RPC error gives false; a field that is not a string
      raises TypeError, which is not caught. */
  function Connect(st: Session, settings: Settings, reply: Rpc<HandshakeResponse>): (r: Handshake)
    ensures st.enrollment.None? || st.enrollment.value == map[] ==> r == Handshake(Ok(false), st, None)
    ensures r.after.running <==> st.running || r.out == Ok(true)
    ensures r.out == Ok(true) <==> r.request.Some? && reply.Reply? && reply.resp.status == "ok"
    ensures r.out == Ok(true) ==> r.after.sessionId == Some(reply.resp.sessionId)
    ensures r.out != Ok(true) ==> r.after.sessionId == st.sessionId
    ensures r.request.Some? ==>
              var d := st.enrollment.value;
              && ProtoString(Get(d, "instanceId", Str("unknown"))) == Ok(r.request.value.addonId)
              && ProtoString(Get(d, "token", Str(""))) == Ok(r.request.value.token)
              && r.after.stub && r.after.channel.Some?
    ensures st.enrollment.Some? && st.enrollment.value != map[] ==>
              var d := st.enrollment.value;
              var target := Transport.ChannelTarget(Get(d, "grpcServerUrl", Str(settings.serverUrl)));
              var id := ProtoString(Get(d, "instanceId", Str("unknown")));
              var token := ProtoString(Get(d, "token", Str("")));
              && (r.request.Some? <==> target.Ok? && id.Ok? && token.Ok?)
              && (r.out.Raised? <==> target.Raised? || id.Raised? || token.Raised?)
              && (target.Raised? ==> r == Handshake(Raised(target.exc), st, None))
    ensures r.request.Some? && reply.Failed? ==> r.out == Ok(false)
    ensures r.after.(channel := st.channel, stub := st.stub, sessionId := st.sessionId, running := st.running) == st
  {
    if st.enrollment.None? || st.enrollment.value == map[] then Handshake(Ok(false), st, None)
    else
      var d := st.enrollment.value;
      match Transport.ChannelTarget(Get(d, "grpcServerUrl", Str(settings.serverUrl)))
      case Raised(e) => Handshake(Raised(e), st, None)
      case Ok(target) =>
        var s1 := st.(channel := Some(target), stub := true);
        match (ProtoString(Get(d, "instanceId", Str("unknown"))), ProtoString(Get(d, "token", Str(""))))
        case (Ok(instanceId), Ok(token)) =>
          var request := HandshakeRequest(instanceId, token);
          (match reply
           case Failed(_) => Handshake(Ok(false), s1, Some(request))
           case Reply(resp) =>
             if resp.status == "ok" then Handshake(Ok(true), s1.(sessionId := Some(resp.sessionId), running := true), Some(request))
             else Handshake(Ok(false), s1, Some(request)))
        case _ => Handshake(Raised(TypeError), s1, None)
  }

  /** A send's request, if the RPC was invoked with it, whether an
      exception escaped, and the session after it. */
  datatype Sent<Req> = Sent(after: Session, request: Option<Req>, raised: bool)

  /** The guard shared by both sends. */
  predicate CanSend(s: Session) {
    s.running && Present(s.sessionId) && s.stub
  }

  /** `send_heartbeat`. Nothing happens unless running with a session id and
      a stub. A full heartbeat fetches the Supervisor info, attaches it when
      non-empty, and records `now` as the last full time; an exception while
      doing so escapes with nothing changed. An RPC error is caught; a
      response with `alive` false stops the session. */
  function SendHeartbeat(st: Session, settings: Settings, now: int, full: bool, info: SupervisorApi.Http, reply: Rpc<HeartbeatResponse>)
    : (r: Sent<HeartbeatRequest>)
    ensures !CanSend(st) ==> r == Sent(st, None, false)
    ensures r.raised ==> r.after == st && r.request.None? && full
    ensures r.request.Some? <==> CanSend(st) && !r.raised
    ensures r.request.Some? ==>
              r.request.value.sessionId == st.sessionId && r.request.value.clientTimestamp == now * 1000 &&
              (r.request.value.systemInfo.Some? <==>
                 full && SupervisorApi.GetData(settings.supervisorToken, info).Ok? &&
                 SupervisorApi.GetData(settings.supervisorToken, info).value.Some? &&
                 Truthy(SupervisorApi.GetData(settings.supervisorToken, info).value.value))
    ensures r.after.lastFullInfo == (if r.request.Some? && full then now else st.lastFullInfo)
    ensures r.after.running <==> st.running && !(r.request.Some? && reply.Reply? && !reply.resp.alive)
    ensures var data := SupervisorApi.GetData(settings.supervisorToken, info);
            r.raised <==> CanSend(st) && full && (data.Raised? || AttachedSystemInfo(data.value).Raised?)
    ensures r.request.Some? ==>
              r.request.value.systemInfo ==
                (if full then AttachedSystemInfo(SupervisorApi.GetData(settings.supervisorToken, info).value).value else None)
    ensures r.after.(running := st.running, lastFullInfo := st.lastFullInfo) == st
  {
    if !CanSend(st) then Sent(st, None, false)
    else
      var attached :=
        if !full then Ok(None)
        else match SupervisorApi.GetData(settings.supervisorToken, info)
          case Raised(e) => Raised(e)
          case Ok(data) => AttachedSystemInfo(data);
      if attached.Raised? then Sent(st, None, true)
      else
        var s1 := if full then st.(lastFullInfo := now) else st;
        var request := HeartbeatRequest(st.sessionId, now * 1000, attached.value);
        match reply
        case Failed(_) => Sent(s1, Some(request), false)
        case Reply(resp) => Sent(if resp.alive then s1 else s1.(running := false), Some(request), false)
  }

  /** `_schedule_heartbeat`: the timer is started only while running. */
  function ScheduleHeartbeat(s: Session, settings: Settings, now: int): Session
  {
    if s.running then s.(heartbeatDue := Some(now + settings.heartbeatInterval)) else s
  }

  predicate FullInfoDue(s: Session, now: int) {
    now - s.lastFullInfo >= FullInfoPeriod
  }

  /** The heartbeat-related inputs of one tick: the Supervisor `/info` exchange and the RPC outcome. */
  datatype HeartbeatInput = HeartbeatInput(info: SupervisorApi.Http, reply: Rpc<HeartbeatResponse>)

  /** `_heartbeat_loop`: full info iff 300 seconds have passed since the
      last full heartbeat; the next tick is scheduled only if the send did
      not raise and the session is still running. */
  function HeartbeatLoop(st: Session, settings: Settings, now: int, input: HeartbeatInput): (r: Sent<HeartbeatRequest>)
    ensures !st.running ==> r == Sent(st, None, false)
    ensures st.running ==>
              var sent := SendHeartbeat(st, settings, now, FullInfoDue(st, now), input.info, input.reply);
              r.request == sent.request && r.raised == sent.raised &&
              r.after == (if sent.raised then sent.after else ScheduleHeartbeat(sent.after, settings, now))
    ensures r.after.heartbeatDue == (if r.after.running && !r.raised then Some(now + settings.heartbeatInterval) else st.heartbeatDue)
    ensures r.request.Some? && r.request.value.systemInfo.Some? ==> FullInfoDue(st, now)
  {
    if !st.running then Sent(st, None, false)
    else
      var sent := SendHeartbeat(st, settings, now, FullInfoDue(st, now), input.info, input.reply);
      if sent.raised then sent else sent.(after := ScheduleHeartbeat(sent.after, settings, now))
  }

  /** The Supervisor exchanges an update report is built from, and the RPC outcome. */
  datatype UpdateInput = UpdateInput(
    supervisor: SupervisorApi.Http,
    core: SupervisorApi.Http,
    os: SupervisorApi.Http,
    addons: SupervisorApi.Http,
    reply: Rpc<ReportAck>)

  /** The component dictionaries `get_update_components` returns. */
  function ComponentRecords(cs: seq<SupervisorApi.Component>): (r: seq<Value>)
    ensures |r| == |cs| && forall i | 0 <= i < |cs| :: r[i] == ComponentRecord(cs[i])
  {
    seq(|cs|, i requires 0 <= i < |cs| => ComponentRecord(cs[i]))
  }

  /** The components of the report, or the exception that escapes while collecting or converting them. */
  function ReportComponents(settings: Settings, input: UpdateInput): Result<seq<ComponentUpdate>> {
    var components :- SupervisorApi.UpdateComponents(settings.supervisorToken, input.supervisor, input.core, input.os, input.addons);
    ComponentUpdates(ComponentRecords(components))
  }

  /** `send_update_report`: nothing unless running with a session id and a
      stub; the report lists one `ComponentUpdate` per Supervisor component,
      in order, and carries the session id; an exception while collecting or
      converting escapes; an RPC error is caught. The session never changes. */
  function SendUpdateReport(st: Session, settings: Settings, now: int, input: UpdateInput): (r: Sent<UpdateReportRequest>)
    ensures r.after == st
    ensures !CanSend(st) ==> r == Sent(st, None, false)
    ensures r.request.Some? <==> CanSend(st) && !r.raised
    ensures r.raised <==> CanSend(st) && ReportComponents(settings, input).Raised?
    ensures r.request.Some? ==>
              r.request.value == UpdateReportRequest(st.sessionId, UpdateReport(now, ReportComponents(settings, input).value))
  {
    if !CanSend(st) then Sent(st, None, false)
    else match ReportComponents(settings, input)
      case Raised(_) => Sent(st, None, true)
      case Ok(updates) => Sent(st, Some(UpdateReportRequest(st.sessionId, UpdateReport(now, updates))), false)
  }

  function ScheduleUpdateReport(s: Session, settings: Settings, now: int): Session
  {
    if s.running then s.(updateDue := Some(now + settings.updateInterval)) else s
  }

  /** `_update_report_loop` and `start_update_reporting`, which do the same:
      a report now, then the timer unless the report raised; nothing unless
      running. */
  function UpdateReportLoop(st: Session, settings: Settings, now: int, input: UpdateInput): (r: Sent<UpdateReportRequest>)
    ensures !st.running ==> r == Sent(st, None, false)
    ensures r.after == (if st.running && !r.raised then ScheduleUpdateReport(st, settings, now) else st)
    ensures r.raised == (st.running && SendUpdateReport(st, settings, now, input).raised)
    ensures r.request == (if st.running then SendUpdateReport(st, settings, now, input).request else None)
  {
    if !st.running then Sent(st, None, false)
    else
      var sent := SendUpdateReport(st, settings, now, input);
      if sent.raised then sent else sent.(after := ScheduleUpdateReport(sent.after, settings, now))
  }

  datatype Started = Started(after: Session, heartbeat: Option<HeartbeatRequest>, update: Option<UpdateReportRequest>, raised: bool)

  /** `start_heartbeat`: nothing unless running; otherwise a full-info
      heartbeat, its timer and update reporting. An exception from the
      heartbeat skips the rest. */
  function StartHeartbeat(st: Session, settings: Settings, now: int, hb: HeartbeatInput, upd: UpdateInput): (r: Started)
    ensures !st.running ==> r == Started(st, None, None, false)
    ensures st.running ==> r.heartbeat == SendHeartbeat(st, settings, now, true, hb.info, hb.reply).request
    ensures st.running && SendHeartbeat(st, settings, now, true, hb.info, hb.reply).raised ==>
              r == Started(st, None, None, true)
    ensures var beat := SendHeartbeat(st, settings, now, true, hb.info, hb.reply);
            st.running && !beat.raised ==>
              var update := UpdateReportLoop(ScheduleHeartbeat(beat.after, settings, now), settings, now, upd);
              r == Started(update.after, beat.request, update.request, update.raised)
    ensures var beat := SendHeartbeat(st, settings, now, true, hb.info, hb.reply);
            st.running && !beat.raised && !beat.after.running ==>
              r == Started(beat.after, beat.request, None, false)
    ensures var beat := SendHeartbeat(st, settings, now, true, hb.info, hb.reply);
            st.running && !beat.raised && beat.after.running ==>
              && r.after.heartbeatDue == Some(now + settings.heartbeatInterval)
              && (r.raised <==> SendUpdateReport(ScheduleHeartbeat(beat.after, settings, now), settings, now, upd).raised)
              && (!r.raised ==> r.after.updateDue == Some(now + settings.updateInterval))
  {
    if !st.running then Started(st, None, None, false)
    else
      var beat := SendHeartbeat(st, settings, now, true, hb.info, hb.reply);
      if beat.raised then Started(beat.after, None, None, true)
      else
        var s1 := ScheduleHeartbeat(beat.after, settings, now);
        var update := UpdateReportLoop(s1, settings, now, upd);
        Started(update.after, beat.request, update.request, update.raised)
  }

  /** `stop`: not running, no timers, no channel; the rest is kept. */
  function Stop(st: Session): (r: Session)
    ensures !r.running && r.heartbeatDue.None? && r.updateDue.None? && r.channel.None?
    ensures r.(running := st.running, heartbeatDue := st.heartbeatDue, updateDue := st.updateDue, channel := st.channel) == st
  {
    st.(running := false, heartbeatDue := None, updateDue := None, channel := None)
  }

  lemma StopIdempotent(st: Session)
    ensures Stop(Stop(st)) == Stop(st)
  {
  }

  /** Enrolling and then loading the store gives back the record enrollment
      kept, and the handshake then sends the issued instance id and token. */
  lemma EnrollThenLoad(st: Session, settings: Settings, reply: Rpc<EnrollResponse>, handshake: Rpc<HandshakeResponse>)
    requires Enroll(st, settings, reply).out
    ensures var enrolled := Enroll(st, settings, reply).after;
            var loaded := LoadExisting(enrolled);
            && loaded.out
            && loaded.after.enrollment == enrolled.enrollment
            && Connect(loaded.after, settings, handshake).request ==
                 Some(HandshakeRequest(reply.resp.instanceId, reply.resp.token))
  {
    var d := EnrollmentRecord(reply.resp, settings.serverUrl);
    EnrollmentStore.RoundTrip(st.files, d);
    assert "instanceId" in d;
  }

  /** With a record that lacks them, the handshake sends "unknown" as the
      add-on id and "" as the token. */
  lemma HandshakeDefaults(st: Session, settings: Settings, reply: Rpc<HandshakeResponse>)
    requires st.enrollment.Some? && st.enrollment.value != map[]
    requires "instanceId" !in st.enrollment.value && "token" !in st.enrollment.value
    requires Get(st.enrollment.value, "grpcServerUrl", Str(settings.serverUrl)).Str?
    ensures Connect(st, settings, reply).request == Some(HandshakeRequest("unknown", ""))
  {
  }

  /** Enrolling, loading, connecting and stopping keep the invariant. */
  lemma InvLifecycle(st: Session, settings: Settings, enrollReply: Rpc<EnrollResponse>, handshake: Rpc<HandshakeResponse>)
    requires Inv(st)
    ensures Inv(Enroll(st, settings, enrollReply).after)
    ensures Inv(LoadExisting(st).after)
    ensures Inv(Connect(st, settings, handshake).after)
    ensures Inv(Stop(st))
  {
  }

  /** Every tick and start keeps the invariant. */
  lemma InvReporting(st: Session, settings: Settings, now: int, hb: HeartbeatInput, upd: UpdateInput)
    requires Inv(st)
    ensures Inv(HeartbeatLoop(st, settings, now, hb).after)
    ensures Inv(UpdateReportLoop(st, settings, now, upd).after)
    ensures Inv(StartHeartbeat(st, settings, now, hb, upd).after)
  {
  }

  /** While not running, ticks, schedules and starts do nothing. */
  lemma StoppedIsInert(st: Session, settings: Settings, now: int, hb: HeartbeatInput, upd: UpdateInput)
    requires !st.running
    ensures HeartbeatLoop(st, settings, now, hb) == Sent(st, None, false)
    ensures UpdateReportLoop(st, settings, now, upd) == Sent(st, None, false)
    ensures StartHeartbeat(st, settings, now, hb, upd) == Started(st, None, None, false)
    ensures ScheduleHeartbeat(st, settings, now) == st && ScheduleUpdateReport(st, settings, now) == st
  {
  }

  /** A heartbeat response with `alive` false stops the session and the
      heartbeat is not rescheduled; every later tick is inert. */
  lemma NotAliveStopsRescheduling(st: Session, settings: Settings, now: int, input: HeartbeatInput, latency: int)
    requires CanSend(st)
    requires input.reply == Reply(HeartbeatResponse(false, latency))
    requires !SendHeartbeat(st, settings, now, FullInfoDue(st, now), input.info, input.reply).raised
    ensures var r := HeartbeatLoop(st, settings, now, input);
            && !r.after.running && r.request.Some? && !r.raised
            && r.after.heartbeatDue == st.heartbeatDue
            && forall later: int, next: HeartbeatInput :: HeartbeatLoop(r.after, settings, later, next) == Sent(r.after, None, false)
  {
  }

  /** Within 300 seconds of the last full heartbeat a tick is minimal and
      keeps the last full time; afterwards a tick that sends records `now`. */
  lemma HeartbeatCadence(st: Session, settings: Settings, now: int, input: HeartbeatInput)
    requires st.running
    ensures now - st.lastFullInfo < FullInfoPeriod ==>
              var r := HeartbeatLoop(st, settings, now, input);
              r.after.lastFullInfo == st.lastFullInfo && !r.raised && (r.request.Some? ==> r.request.value.systemInfo.None?)
    ensures FullInfoDue(st, now) && HeartbeatLoop(st, settings, now, input).request.Some? ==>
              HeartbeatLoop(st, settings, now, input).after.lastFullInfo == now
  {
  }
}
