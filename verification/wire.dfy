/** The gRPC side shared by both connector generations: status codes, RPC
    outcomes, and the request messages built from Supervisor data. */
module Wire {
  import opened Py
  import SupervisorApi

  /** The non-OK gRPC status codes an RPC can fail with. */
  datatype StatusCode =
    | Cancelled | Unknown | InvalidArgument | DeadlineExceeded | NotFound | AlreadyExists
    | PermissionDenied | ResourceExhausted | FailedPrecondition | Aborted | OutOfRange
    | Unimplemented | Internal | Unavailable | DataLoss | Unauthenticated

  /** How one RPC ends: the server's response, or a `grpc.RpcError`. */
  datatype Rpc<T> = Reply(resp: T) | Failed(code: StatusCode)

  datatype HeartbeatResponse = HeartbeatResponse(alive: bool, latencyMs: int)

  /** The reply to an update or stats report. */
  datatype ReportAck = ReportAck(accepted: bool, message: string)

  /** The string fields of the `SystemInfo` message. */
  const SystemInfoKeys: seq<string> :=
    ["supervisor", "homeassistant", "hassos", "docker", "hostname",
     "operating_system", "machine", "arch", "channel", "state"]

  datatype SystemInfo = SystemInfo(fields: map<string, string>)

  /** The value handed to one `SystemInfo` field: `info.get(key, "")`, and
      for `hassos` additionally `or ""`. */
  function InfoField(info: Dict, key: string): Value {
    var v := Get(info, key, Str(""));
    if key == "hassos" && !Truthy(v) then Str("") else v
  }

  /** The `SystemInfo` message built from the Supervisor `/info` data: every
      field is copied when it is a string, missing or null ones are "", a
      falsy `hassos` is "", and any other value raises TypeError; data that
      is not an object raises on `.get`. */
  function SystemInfoOf(info: Value): (r: Result<SystemInfo>)
    ensures !info.Obj? ==> r == Raised(AttributeError)
    ensures info.Obj? ==> (r.Ok? <==> forall k | k in SystemInfoKeys :: ProtoString(InfoField(info.fields, k)).Ok?)
    ensures r.Ok? ==> r.value.fields.Keys == set k | k in SystemInfoKeys
    ensures r.Ok? ==> forall k | k in SystemInfoKeys && k in info.fields && info.fields[k].Str? && (k != "hassos" || info.fields[k].s != "") ::
                        r.value.fields[k] == info.fields[k].s
    ensures r.Ok? ==> forall k | k in SystemInfoKeys && (k !in info.fields || info.fields[k].Null?) :: r.value.fields[k] == ""
    ensures r.Ok? && info.Obj? && !Truthy(Get(info.fields, "hassos", Str(""))) ==> r.value.fields["hassos"] == ""
  {
    if !info.Obj? then Raised(AttributeError)
    else if forall k | k in SystemInfoKeys :: ProtoString(InfoField(info.fields, k)).Ok? then
      Ok(SystemInfo(map k | k in SystemInfoKeys :: ProtoString(InfoField(info.fields, k)).value))
    else Raised(TypeError)
  }

  /** What a full-info heartbeat attaches, given what `get_info` returned:
      nothing when it is None or empty, else the built `SystemInfo`. */
  function AttachedSystemInfo(info: Option<Value>): (r: Result<Option<SystemInfo>>)
    ensures info.None? || !Truthy(info.value) ==> r == Ok(None)
    ensures info.Some? && Truthy(info.value) ==> (r.Ok? <==> SystemInfoOf(info.value).Ok?)
    ensures r.Ok? && r.value.Some? ==> info.Some? && Truthy(info.value) && r.value == Some(SystemInfoOf(info.value).value)
  {
    if info.None? || !Truthy(info.value) then Ok(None)
    else
      var built :- SystemInfoOf(info.value);
      Ok(Some(built))
  }

  /** A heartbeat: the session id (legacy generation only), the client
      timestamp in milliseconds, and the system info of a full heartbeat. */
  datatype HeartbeatRequest = HeartbeatRequest(sessionId: Option<string>, clientTimestamp: int, systemInfo: Option<SystemInfo>)

  datatype ComponentUpdate = ComponentUpdate(
    componentType: string,
    slug: string,
    name: string,
    version: string,
    versionLatest: string,
    updateAvailable: bool)

  /** The `ComponentUpdate` message for one component record: string fields
      default to "" and must be strings (or null), `update_available` is
      coerced with `bool`; a record that is not an object raises on `.get`. */
  function ComponentUpdateOf(component: Value): (r: Result<ComponentUpdate>)
    ensures !component.Obj? ==> r == Raised(AttributeError)
    ensures r.Ok? ==> component.Obj? &&
                      var f := component.fields;
                      && ProtoString(Get(f, "component_type", Str(""))) == Ok(r.value.componentType)
                      && ProtoString(Get(f, "slug", Str(""))) == Ok(r.value.slug)
                      && ProtoString(Get(f, "name", Str(""))) == Ok(r.value.name)
                      && ProtoString(Get(f, "version", Str(""))) == Ok(r.value.version)
                      && ProtoString(Get(f, "version_latest", Str(""))) == Ok(r.value.versionLatest)
                      && r.value.updateAvailable == Truthy(Get(f, "update_available", Null))
    ensures component.Obj? && r.Raised? ==> r.exc == TypeError
  {
    if !component.Obj? then Raised(AttributeError)
    else
      var f := component.fields;
      var componentType :- ProtoString(Get(f, "component_type", Str("")));
      var slug :- ProtoString(Get(f, "slug", Str("")));
      var name :- ProtoString(Get(f, "name", Str("")));
      var version :- ProtoString(Get(f, "version", Str("")));
      var versionLatest :- ProtoString(Get(f, "version_latest", Str("")));
      Ok(ComponentUpdate(componentType, slug, name, version, versionLatest, Truthy(Get(f, "update_available", Null))))
  }

  /** The report's component list in input order; the first record that
      cannot be converted raises. */
  function ComponentUpdates(components: seq<Value>): Result<seq<ComponentUpdate>> {
    if components == [] then Ok([])
    else
      var init :- ComponentUpdates(components[..|components| - 1]);
      var last :- ComponentUpdateOf(components[|components| - 1]);
      Ok(init + [last])
  }

  /** The list converts iff every record does, and then the j-th message is
      the one built from the j-th record. */
  lemma {:induction false} ComponentUpdatesAt(components: seq<Value>)
    ensures ComponentUpdates(components).Ok? <==> forall j | 0 <= j < |components| :: ComponentUpdateOf(components[j]).Ok?
    ensures ComponentUpdates(components).Ok? ==>
              |ComponentUpdates(components).value| == |components| &&
              forall j | 0 <= j < |components| :: ComponentUpdateOf(components[j]) == Ok(ComponentUpdates(components).value[j])
  {
    if components != [] {
      var init := components[..|components| - 1];
      ComponentUpdatesAt(init);
      assert forall j | 0 <= j < |init| :: init[j] == components[j];
    }
  }

  /** The exception is the one of the first record that cannot be converted. */
  lemma {:induction false} ComponentUpdatesFirstFailure(components: seq<Value>, i: nat)
    requires i < |components|
    requires ComponentUpdates(components[..i]).Ok? && ComponentUpdateOf(components[i]).Raised?
    ensures ComponentUpdates(components) == Raised(ComponentUpdateOf(components[i]).exc)
  {
    if i + 1 == |components| {
      assert components[..|components| - 1] == components[..i];
    } else {
      var init := components[..|components| - 1];
      assert init[..i] == components[..i] && init[i] == components[i];
      ComponentUpdatesFirstFailure(init, i);
    }
  }

  /** The loop of `send_update_report` that appends one `ComponentUpdate`
      per component. */
  method BuildComponentUpdates(components: seq<Value>) returns (r: Result<seq<ComponentUpdate>>)
    ensures r == ComponentUpdates(components)
  {
    var built: seq<ComponentUpdate> := [];
    var i := 0;
    while i < |components|
      invariant 0 <= i <= |components|
      invariant ComponentUpdates(components[..i]) == Ok(built)
    {
      assert components[..i + 1][..i] == components[..i];
      var update := ComponentUpdateOf(components[i]);
      if update.Raised? {
        ComponentUpdatesFirstFailure(components, i);
        return Raised(update.exc);
      }
      built := built + [update.value];
      i := i + 1;
    }
    assert components[..i] == components;
    return Ok(built);
  }

  datatype UpdateReport = UpdateReport(generatedAt: int, components: seq<ComponentUpdate>)
  datatype UpdateReportRequest = UpdateReportRequest(sessionId: Option<string>, report: UpdateReport)

  /** A stats report: its timestamp and the Supervisor stats record it was built from. */
  datatype StatsReportRequest = StatsReportRequest(generatedAt: int, stats: Dict)

  /** The dictionary the legacy `get_update_components` builds for one component. */
  function ComponentRecord(c: SupervisorApi.Component): (r: Value)
    ensures r.Obj? && r.fields.Keys == {"component_type", "slug", "name", "version", "version_latest", "update_available"}
    ensures r.fields["component_type"] == Str(c.componentType) && r.fields["slug"] == c.slug &&
            r.fields["name"] == c.name && r.fields["version"] == c.version &&
            r.fields["version_latest"] == c.versionLatest && r.fields["update_available"] == Bool(c.updateAvailable)
  {
    Obj(map["component_type" := Str(c.componentType), "slug" := c.slug, "name" := c.name,
            "version" := c.version, "version_latest" := c.versionLatest,
            "update_available" := Bool(c.updateAvailable)])
  }

  /** A component record of the legacy Supervisor client converts into a
      `ComponentUpdate` with the same type, flag and strings, unless one of
      its copied fields holds a JSON value that is not a string or null. */
  lemma ComponentRecordConverts(c: SupervisorApi.Component)
    ensures ComponentUpdateOf(ComponentRecord(c)).Ok? <==>
              ProtoString(c.slug).Ok? && ProtoString(c.name).Ok? && ProtoString(c.version).Ok? && ProtoString(c.versionLatest).Ok?
    ensures ComponentUpdateOf(ComponentRecord(c)).Ok? ==>
              var u := ComponentUpdateOf(ComponentRecord(c)).value;
              u.componentType == c.componentType && u.updateAvailable == c.updateAvailable &&
              ProtoString(c.slug) == Ok(u.slug) && ProtoString(c.name) == Ok(u.name) &&
              ProtoString(c.version) == Ok(u.version) && ProtoString(c.versionLatest) == Ok(u.versionLatest)
  {
  }
}
