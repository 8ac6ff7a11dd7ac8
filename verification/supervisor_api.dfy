/** The Supervisor REST client of the legacy connector: the result-envelope
    check shared by every GET, the add-on list, the ordered component list
    reported to the server, and the dispatch of an update request. Each HTTP
    exchange is a parameter holding what `requests` made of it. */
module SupervisorApi {
  import opened Py

  const SupervisorUrl := "http://supervisor"

  /** How one HTTP request to the Supervisor ended: `requests` raised (no
      connection, timeout, an error status from `raise_for_status`, a body
      that is not JSON), or the decoded JSON body. */
  datatype Http = RequestFailed(reason: string) | Responded(body: Value)

  /** `_get_data`: with no token nothing is requested and the answer is None;
      otherwise the `data` member (default `{}`) of an envelope whose
      `result` is "ok", and None for a failed request or another result.
      A body that is not a JSON object raises on `data.get`. */
  function GetData(token: string, resp: Http): (r: Result<Option<Value>>)
    ensures token == "" ==> r == Ok(None)
    ensures r.Raised? <==> token != "" && resp.Responded? && !resp.body.Obj?
    ensures r.Ok? && r.value.Some? <==>
              token != "" && resp.Responded? && resp.body.Obj? &&
              Get(resp.body.fields, "result", Null) == Str("ok")
    ensures r.Ok? && r.value.Some? ==>
              resp.Responded? && resp.body.Obj? &&
              r.value.value == Get(resp.body.fields, "data", Obj(map[]))
  {
    if token == "" then Ok(None)
    else match resp
      case RequestFailed(_) => Ok(None)
      case Responded(body) =>
        if !body.Obj? then Raised(AttributeError)
        else if Get(body.fields, "result", Null) == Str("ok") then Ok(Some(Get(body.fields, "data", Obj(map[]))))
        else Ok(None)
  }

  /** `get_addons`: `[]` when `/addons` gave no data or empty data, else the
      `addons` member of that data, default `[]`. */
  function GetAddons(token: string, resp: Http): (r: Result<Value>)
    ensures GetData(token, resp).Raised? ==> r.Raised?
    ensures GetData(token, resp) == Ok(None) ==> r == Ok(Arr([]))
    ensures GetData(token, resp).Ok? && GetData(token, resp).value.Some? ==>
              var data := GetData(token, resp).value.value;
              (!Truthy(data) ==> r == Ok(Arr([]))) &&
              (Truthy(data) && data.Obj? ==> r == Ok(Get(data.fields, "addons", Arr([])))) &&
              (Truthy(data) && !data.Obj? ==> r.Raised?)
  {
    var data :- GetData(token, resp);
    if data.None? || !Truthy(data.value) then Ok(Arr([]))
    else if data.value.Obj? then Ok(Get(data.value.fields, "addons", Arr([])))
    else Raised(AttributeError)
  }

  /** One entry of the update inventory. The fields copied from a Supervisor
      record keep whatever JSON value they held; `update_available` is
      coerced with `bool`. */
  datatype Component = Component(
    componentType: string,
    slug: Value,
    name: Value,
    version: Value,
    versionLatest: Value,
    updateAvailable: bool)

  /** The entry for supervisor, core or os: none when the fetched info is
      None or empty; `slug` is "" and `name` fixed; missing versions default
      to "". Info that is not an object raises on `.get`. */
  function SystemComponent(componentType: string, name: string, info: Option<Value>): (r: Result<Option<Component>>)
    ensures r == Ok(None) <==> info.None? || !Truthy(info.value)
    ensures r.Raised? <==> info.Some? && Truthy(info.value) && !info.value.Obj?
    ensures r.Ok? && r.value.Some? ==>
              info.Some? && info.value.Obj? &&
              var f := info.value.fields;
              r.value.value == Component(componentType, Str(""), Str(name),
                                         Get(f, "version", Str("")), Get(f, "version_latest", Str("")),
                                         Truthy(Get(f, "update_available", Null)))
  {
    if info.None? || !Truthy(info.value) then Ok(None)
    else if !info.value.Obj? then Raised(AttributeError)
    else
      var f := info.value.fields;
      Ok(Some(Component(componentType, Str(""), Str(name),
                        Get(f, "version", Str("")), Get(f, "version_latest", Str("")),
                        Truthy(Get(f, "update_available", Null)))))
  }

  /** The entry for one add-on record; a record that is not an object raises on `.get`. */
  function AddonComponent(addon: Value): (r: Result<Component>)
    ensures r.Ok? <==> addon.Obj?
    ensures r.Ok? ==> r.value.componentType == "addon" &&
                      r.value.slug == Get(addon.fields, "slug", Str("")) &&
                      r.value.name == Get(addon.fields, "name", Str("")) &&
                      r.value.version == Get(addon.fields, "version", Str("")) &&
                      r.value.versionLatest == Get(addon.fields, "version_latest", Str("")) &&
                      r.value.updateAvailable == Truthy(Get(addon.fields, "update_available", Null))
  {
    if !addon.Obj? then Raised(AttributeError)
    else
      var f := addon.fields;
      Ok(Component("addon", Get(f, "slug", Str("")), Get(f, "name", Str("")),
                   Get(f, "version", Str("")), Get(f, "version_latest", Str("")),
                   Truthy(Get(f, "update_available", Null))))
  }

  /** What `for addon in addons: addon.get(...)` visits: the elements of a
      list; nothing for an empty dict or string; a non-empty dict or string
      yields str elements, whose `.get` raises; None, a bool or a number is
      not iterable. */
  function AddonEntries(addons: Value): (r: Result<seq<Value>>)
    ensures addons.Arr? ==> r == Ok(addons.items)
    ensures r.Ok? ==> addons.Arr? || !Truthy(addons)
    ensures r.Ok? && !addons.Arr? ==> r.value == []
  {
    match addons
    case Arr(items) => Ok(items)
    case Obj(fields) => if fields == map[] then Ok([]) else Raised(AttributeError)
    case Str(s) => if s == "" then Ok([]) else Raised(AttributeError)
    case _ => Raised(TypeError)
  }

  /** The add-on entries in list order; the first record that is not an object raises. */
  function AddonComponents(addons: seq<Value>): Result<seq<Component>> {
    if addons == [] then Ok([])
    else
      var init :- AddonComponents(addons[..|addons| - 1]);
      var last :- AddonComponent(addons[|addons| - 1]);
      Ok(init + [last])
  }

  /** The add-on entries succeed iff every record is an object, and then the
      j-th entry is the one built from the j-th record. */
  lemma {:induction false} AddonComponentsAt(addons: seq<Value>)
    ensures AddonComponents(addons).Ok? <==> forall j | 0 <= j < |addons| :: addons[j].Obj?
    ensures AddonComponents(addons).Raised? ==> AddonComponents(addons).exc == AttributeError
    ensures AddonComponents(addons).Ok? ==>
              |AddonComponents(addons).value| == |addons| &&
              forall j | 0 <= j < |addons| :: AddonComponent(addons[j]) == Ok(AddonComponents(addons).value[j])
  {
    if addons != [] {
      var init := addons[..|addons| - 1];
      AddonComponentsAt(init);
      assert forall j | 0 <= j < |init| :: init[j] == addons[j];
    }
  }

  function Entries(c: Option<Component>): seq<Component> {
    if c.Some? then [c.value] else []
  }

  /** The supervisor, core and os entries, in that order, each present iff
      its fetched info is non-empty. */
  function SystemComponents(token: string, supervisor: Http, core: Http, os: Http): (r: Result<seq<Component>>)
    ensures r.Ok? ==> |r.value| <= 3
    ensures r.Ok? ==> GetData(token, supervisor).Ok? &&
                      (r.value != [] && r.value[0].componentType == "supervisor" <==>
                         GetData(token, supervisor).value.Some? && Truthy(GetData(token, supervisor).value.value))
  {
    var supervisorInfo :- GetData(token, supervisor);
    var supervisorEntry :- SystemComponent("supervisor", "Supervisor", supervisorInfo);
    var coreInfo :- GetData(token, core);
    var coreEntry :- SystemComponent("core", "Home Assistant Core", coreInfo);
    var osInfo :- GetData(token, os);
    var osEntry :- SystemComponent("os", "Home Assistant OS", osInfo);
    Ok(Entries(supervisorEntry) + Entries(coreEntry) + Entries(osEntry))
  }

  /** The system entries are in strictly increasing rank (supervisor, core,
      os, each at most once) and all have slug "". */
  lemma SystemComponentsOrdered(token: string, supervisor: Http, core: Http, os: Http)
    requires SystemComponents(token, supervisor, core, os).Ok?
    ensures var system := SystemComponents(token, supervisor, core, os).value;
            && (forall i | 0 <= i < |system| :: KindRank(system[i].componentType) < 3 && system[i].slug == Str(""))
            && (forall i, j | 0 <= i < j < |system| :: KindRank(system[i].componentType) < KindRank(system[j].componentType))
  {
    var supervisorInfo := GetData(token, supervisor).value;
    var supervisorEntry := SystemComponent("supervisor", "Supervisor", supervisorInfo).value;
    var coreInfo := GetData(token, core).value;
    var coreEntry := SystemComponent("core", "Home Assistant Core", coreInfo).value;
    var osInfo := GetData(token, os).value;
    var osEntry := SystemComponent("os", "Home Assistant OS", osInfo).value;
    assert SystemComponents(token, supervisor, core, os).value ==
           Entries(supervisorEntry) + Entries(coreEntry) + Entries(osEntry);
    EntriesRanked(supervisorEntry, coreEntry, osEntry);
  }

  /** Whether the list holds an entry of this component type. */
  predicate Lists(system: seq<Component>, kind: string) {
    exists i | 0 <= i < |system| :: system[i].componentType == kind
  }

  /** Whether `_get_data` gave info that is non-empty. */
  predicate Fetched(token: string, resp: Http) {
    GetData(token, resp).Ok? && GetData(token, resp).value.Some? && Truthy(GetData(token, resp).value.value)
  }

  /** Each of supervisor, core and os is listed iff its fetched info is
      non-empty, and a listed entry is the one built from that info. */
  lemma SystemComponentsPresence(token: string, supervisor: Http, core: Http, os: Http)
    requires SystemComponents(token, supervisor, core, os).Ok?
    ensures GetData(token, supervisor).Ok? && GetData(token, core).Ok? && GetData(token, os).Ok?
    ensures var system := SystemComponents(token, supervisor, core, os).value;
            && (Lists(system, "supervisor") <==> Fetched(token, supervisor))
            && (Lists(system, "core") <==> Fetched(token, core))
            && (Lists(system, "os") <==> Fetched(token, os))
    ensures var system := SystemComponents(token, supervisor, core, os).value;
            forall i | 0 <= i < |system| ::
              && (system[i].componentType == "supervisor" ==>
                    SystemComponent("supervisor", "Supervisor", GetData(token, supervisor).value) == Ok(Some(system[i])))
              && (system[i].componentType == "core" ==>
                    SystemComponent("core", "Home Assistant Core", GetData(token, core).value) == Ok(Some(system[i])))
              && (system[i].componentType == "os" ==>
                    SystemComponent("os", "Home Assistant OS", GetData(token, os).value) == Ok(Some(system[i])))
  {
    var supervisorInfo := GetData(token, supervisor).value;
    var supervisorEntry := SystemComponent("supervisor", "Supervisor", supervisorInfo).value;
    var coreInfo := GetData(token, core).value;
    var coreEntry := SystemComponent("core", "Home Assistant Core", coreInfo).value;
    var osInfo := GetData(token, os).value;
    var osEntry := SystemComponent("os", "Home Assistant OS", osInfo).value;
    assert SystemComponents(token, supervisor, core, os).value ==
           Entries(supervisorEntry) + Entries(coreEntry) + Entries(osEntry);
    EntriesKinds(supervisorEntry, coreEntry, osEntry);
  }

  /** In the concatenation of one optional entry per system kind, a kind is
      listed iff its entry is present, and the listed entry is that one. */
  lemma EntriesKinds(supervisorEntry: Option<Component>, coreEntry: Option<Component>, osEntry: Option<Component>)
    requires supervisorEntry.Some? ==> supervisorEntry.value.componentType == "supervisor"
    requires coreEntry.Some? ==> coreEntry.value.componentType == "core"
    requires osEntry.Some? ==> osEntry.value.componentType == "os"
    ensures var system := Entries(supervisorEntry) + Entries(coreEntry) + Entries(osEntry);
            && (Lists(system, "supervisor") <==> supervisorEntry.Some?)
            && (Lists(system, "core") <==> coreEntry.Some?)
            && (Lists(system, "os") <==> osEntry.Some?)
            && (forall i | 0 <= i < |system| ::
                  Some(system[i]) == (if system[i].componentType == "supervisor" then supervisorEntry
                                      else if system[i].componentType == "core" then coreEntry
                                      else osEntry))
  {
    var system := Entries(supervisorEntry) + Entries(coreEntry) + Entries(osEntry);
    if supervisorEntry.Some? {
      assert system[0] == supervisorEntry.value;
    }
    if coreEntry.Some? {
      assert system[|Entries(supervisorEntry)|] == coreEntry.value;
    }
    if osEntry.Some? {
      assert system[|system| - 1] == osEntry.value;
    }
  }

  /** One optional entry of each system kind, concatenated in the order
      supervisor, core, os, is strictly increasing in rank. */
  lemma EntriesRanked(supervisorEntry: Option<Component>, coreEntry: Option<Component>, osEntry: Option<Component>)
    requires supervisorEntry.Some? ==> supervisorEntry.value.componentType == "supervisor" && supervisorEntry.value.slug == Str("")
    requires coreEntry.Some? ==> coreEntry.value.componentType == "core" && coreEntry.value.slug == Str("")
    requires osEntry.Some? ==> osEntry.value.componentType == "os" && osEntry.value.slug == Str("")
    ensures var system := Entries(supervisorEntry) + Entries(coreEntry) + Entries(osEntry);
            && (forall i | 0 <= i < |system| :: KindRank(system[i].componentType) < 3 && system[i].slug == Str(""))
            && (forall i, j | 0 <= i < j < |system| :: KindRank(system[i].componentType) < KindRank(system[j].componentType))
  {
  }

  /** The add-on records `get_update_components` iterates over. */
  function AddonRecords(token: string, addons: Http): Result<seq<Value>> {
    var addonList :- GetAddons(token, addons);
    AddonEntries(addonList)
  }

  /** Reference definition of `get_update_components`: the system entries,
      then one entry per add-on record. */
  function UpdateComponents(token: string, supervisor: Http, core: Http, os: Http, addons: Http): Result<seq<Component>> {
    var system :- SystemComponents(token, supervisor, core, os);
    var records :- AddonRecords(token, addons);
    var addonEntries :- AddonComponents(records);
    Ok(system + addonEntries)
  }

  /** The first half of `get_update_components`: appends the supervisor,
      core and os entries whose info is non-empty. */
  method AppendSystemComponents(token: string, supervisor: Http, core: Http, os: Http)
    returns (r: Result<seq<Component>>)
    ensures r == SystemComponents(token, supervisor, core, os)
  {
    var components: seq<Component> := [];
    var supervisorInfo :- GetData(token, supervisor);
    var supervisorEntry :- SystemComponent("supervisor", "Supervisor", supervisorInfo);
    if supervisorEntry.Some? {
      components := components + [supervisorEntry.value];
    }
    var coreInfo :- GetData(token, core);
    var coreEntry :- SystemComponent("core", "Home Assistant Core", coreInfo);
    if coreEntry.Some? {
      components := components + [coreEntry.value];
    }
    var osInfo :- GetData(token, os);
    var osEntry :- SystemComponent("os", "Home Assistant OS", osInfo);
    if osEntry.Some? {
      components := components + [osEntry.value];
    }
    assert components == Entries(supervisorEntry) + Entries(coreEntry) + Entries(osEntry);
    return Ok(components);
  }

  /** `get_update_components`: the system entries, then the add-ons appended
      in a loop, one per record. */
  method GetUpdateComponents(token: string, supervisor: Http, core: Http, os: Http, addons: Http)
    returns (r: Result<seq<Component>>)
    ensures r == UpdateComponents(token, supervisor, core, os, addons)
  {
    var components :- AppendSystemComponents(token, supervisor, core, os);
    var entries :- AddonRecords(token, addons);
    ghost var system := components;
    var i := 0;
    while i < |entries|
      invariant 0 <= i <= |entries|
      invariant AddonComponents(entries[..i]).Ok?
      invariant components == system + AddonComponents(entries[..i]).value
    {
      assert entries[..i + 1][..i] == entries[..i];
      var entry := AddonComponent(entries[i]);
      if entry.Raised? {
        AddonComponentsAt(entries);
        return Raised(AttributeError);
      }
      ghost var done := AddonComponents(entries[..i]).value;
      assert AddonComponents(entries[..i + 1]) == Ok(done + [entry.value]);
      components := components + [entry.value];
      i := i + 1;
    }
    assert entries[..i] == entries;
    return Ok(components);
  }

  /** Position of a component type in the reported order. */
  function KindRank(componentType: string): nat {
    if componentType == "supervisor" then 0
    else if componentType == "core" then 1
    else if componentType == "os" then 2
    else 3
  }

  /** A successful inventory is the system entries followed by the add-on entries. */
  lemma UpdateComponentsSplit(token: string, supervisor: Http, core: Http, os: Http, addons: Http)
    requires UpdateComponents(token, supervisor, core, os, addons).Ok?
    ensures SystemComponents(token, supervisor, core, os).Ok?
    ensures AddonRecords(token, addons).Ok? && AddonComponents(AddonRecords(token, addons).value).Ok?
    ensures UpdateComponents(token, supervisor, core, os, addons).value ==
            SystemComponents(token, supervisor, core, os).value + AddonComponents(AddonRecords(token, addons).value).value
  {
  }

  /** The order `get_update_components` promises: every entry before a
      non-add-on entry has a strictly smaller rank, so supervisor, core and
      os, each at most once, precede all add-ons. */
  lemma UpdateComponentsOrder(token: string, supervisor: Http, core: Http, os: Http, addons: Http)
    requires UpdateComponents(token, supervisor, core, os, addons).Ok?
    ensures var cs := UpdateComponents(token, supervisor, core, os, addons).value;
            forall i, j | 0 <= i < j < |cs| ::
              KindRank(cs[i].componentType) < KindRank(cs[j].componentType) || cs[j].componentType == "addon"
  {
    UpdateComponentsSplit(token, supervisor, core, os, addons);
    SystemComponentsOrdered(token, supervisor, core, os);
    var system := SystemComponents(token, supervisor, core, os).value;
    var records := AddonRecords(token, addons).value;
    var addonEntries := AddonComponents(records).value;
    AddonComponentsAt(records);
    forall j | 0 <= j < |addonEntries| ensures addonEntries[j].componentType == "addon" {
      assert AddonComponent(records[j]) == Ok(addonEntries[j]);
    }
    RankedThenAddons(system, addonEntries);
  }

  /** Entries in strictly increasing rank followed by add-on entries only. */
  lemma RankedThenAddons(system: seq<Component>, addonEntries: seq<Component>)
    requires forall i, j | 0 <= i < j < |system| :: KindRank(system[i].componentType) < KindRank(system[j].componentType)
    requires forall j | 0 <= j < |addonEntries| :: addonEntries[j].componentType == "addon"
    ensures var cs := system + addonEntries;
            forall i, j | 0 <= i < j < |cs| ::
              KindRank(cs[i].componentType) < KindRank(cs[j].componentType) || cs[j].componentType == "addon"
  {
    var cs := system + addonEntries;
    forall i, j | 0 <= i < j < |cs|
      ensures KindRank(cs[i].componentType) < KindRank(cs[j].componentType) || cs[j].componentType == "addon"
    {
      if j < |system| {
        assert cs[i] == system[i] && cs[j] == system[j];
      } else {
        assert cs[j] == addonEntries[j - |system|];
      }
    }
  }

  /** The list is at most three system entries, each with slug "" and not
      an add-on, followed by one entry per add-on record. */
  lemma UpdateComponentsLayout(token: string, supervisor: Http, core: Http, os: Http, addons: Http)
    requires UpdateComponents(token, supervisor, core, os, addons).Ok?
    ensures AddonRecords(token, addons).Ok?
    ensures var cs := UpdateComponents(token, supervisor, core, os, addons).value;
            var records := AddonRecords(token, addons).value;
            && |records| <= |cs| <= |records| + 3
            && (forall i | 0 <= i < |cs| - |records| :: cs[i].slug == Str("") && cs[i].componentType != "addon")
  {
    UpdateComponentsSplit(token, supervisor, core, os, addons);
    SystemComponentsOrdered(token, supervisor, core, os);
    var system := SystemComponents(token, supervisor, core, os).value;
    var records := AddonRecords(token, addons).value;
    AddonComponentsAt(records);
  }

  /** After the system entries comes exactly one entry per add-on record,
      built from that record, in the order the supervisor listed them. */
  lemma UpdateComponentsAddons(token: string, supervisor: Http, core: Http, os: Http, addons: Http)
    requires UpdateComponents(token, supervisor, core, os, addons).Ok?
    ensures AddonRecords(token, addons).Ok?
    ensures var cs := UpdateComponents(token, supervisor, core, os, addons).value;
            var records := AddonRecords(token, addons).value;
            && |records| <= |cs|
            && (forall j | 0 <= j < |records| :: AddonComponent(records[j]) == Ok(cs[|cs| - |records| + j]))
  {
    UpdateComponentsSplit(token, supervisor, core, os, addons);
    var records := AddonRecords(token, addons).value;
    AddonComponentsAt(records);
  }

  /** The supervisor entry leads the list iff the supervisor's info is non-empty. */
  lemma SupervisorFirstIffInfo(token: string, supervisor: Http, core: Http, os: Http, addons: Http)
    requires UpdateComponents(token, supervisor, core, os, addons).Ok?
    ensures GetData(token, supervisor).Ok?
    ensures var cs := UpdateComponents(token, supervisor, core, os, addons).value;
            var info := GetData(token, supervisor).value;
            cs != [] && cs[0].componentType == "supervisor" <==> info.Some? && Truthy(info.value)
  {
    UpdateComponentsSplit(token, supervisor, core, os, addons);
    var system := SystemComponents(token, supervisor, core, os).value;
    var records := AddonRecords(token, addons).value;
    var addonEntries := AddonComponents(records).value;
    AddonComponentsAt(records);
    if system == [] && addonEntries != [] {
      assert AddonComponent(records[0]) == Ok(addonEntries[0]);
    }
  }

  /** Result of `trigger_update`, its `success`, `error` and `message` keys. */
  datatype UpdateResult = UpdateResult(success: bool, error: Value, message: string)

  /** Where `trigger_update` sends its POST, or the error record it returns instead. */
  datatype Target = Url(url: string) | Rejected(error: string)

  /** The dispatch on update type: core, os and supervisor go to
      `/<type>/update`, an add-on with a slug to `/addons/<slug>/update`. */
  function UpdateTarget(updateType: string, addonSlug: string): (r: Target)
    ensures r.Url? <==> updateType in {"core", "os", "supervisor"} || (updateType == "addon" && addonSlug != "")
    ensures updateType in {"core", "os", "supervisor"} ==> r == Url(SupervisorUrl + "/" + updateType + "/update")
    ensures updateType == "addon" && addonSlug != "" ==> r == Url(SupervisorUrl + "/addons/" + addonSlug + "/update")
    ensures updateType == "addon" && addonSlug == "" ==> r == Rejected("addon_slug required for addon updates")
    ensures updateType !in {"core", "os", "supervisor", "addon"} ==> r == Rejected("Unknown update type: " + updateType)
  {
    if updateType == "core" then Url(SupervisorUrl + "/core/update")
    else if updateType == "os" then Url(SupervisorUrl + "/os/update")
    else if updateType == "supervisor" then Url(SupervisorUrl + "/supervisor/update")
    else if updateType == "addon" then
      if addonSlug == "" then Rejected("addon_slug required for addon updates")
      else Url(SupervisorUrl + "/addons/" + addonSlug + "/update")
    else Rejected("Unknown update type: " + updateType)
  }

  /** What `trigger_update` did: the URL it POSTed to, if any, and the record it returned. */
  datatype Triggered = Triggered(posted: Option<string>, result: UpdateResult)

  /** `trigger_update`. `resp` is how the POST would end; it is consulted only
      when a request is made. A body that is not a JSON object raises on
      `data.get`, which the method does not catch. */
  function TriggerUpdate(token: string, updateType: string, addonSlug: string, resp: Http): (r: Result<Triggered>)
    ensures token == "" ==> r == Ok(Triggered(None, UpdateResult(false, Str("SUPERVISOR_TOKEN not set"), "")))
    ensures token != "" && UpdateTarget(updateType, addonSlug).Rejected? ==>
              r == Ok(Triggered(None, UpdateResult(false, Str(UpdateTarget(updateType, addonSlug).error), "")))
    ensures r.Ok? && r.value.posted.Some? <==> token != "" && UpdateTarget(updateType, addonSlug).Url? && (resp.Responded? ==> resp.body.Obj?)
    ensures r.Ok? && r.value.posted.Some? ==> r.value.posted.value == UpdateTarget(updateType, addonSlug).url
    ensures r.Ok? && r.value.result.success <==>
              r.Ok? && r.value.posted.Some? && resp.Responded? && Get(resp.body.fields, "result", Null) == Str("ok")
    ensures r.Ok? && r.value.result.success ==> r.value.result == UpdateResult(true, Str(""), "Update triggered for " + updateType)
    ensures r.Ok? && r.value.posted.Some? && !r.value.result.success ==>
              r.value.result.message == "" &&
              r.value.result.error == (if resp.RequestFailed? then Str(resp.reason) else Get(resp.body.fields, "message", Str("Unknown error")))
  {
    if token == "" then Ok(Triggered(None, UpdateResult(false, Str("SUPERVISOR_TOKEN not set"), "")))
    else match UpdateTarget(updateType, addonSlug)
      case Rejected(error) => Ok(Triggered(None, UpdateResult(false, Str(error), "")))
      case Url(url) =>
        match resp
        case RequestFailed(reason) => Ok(Triggered(Some(url), UpdateResult(false, Str(reason), "")))
        case Responded(body) =>
          if !body.Obj? then Raised(AttributeError)
          else if Get(body.fields, "result", Null) == Str("ok") then
            Ok(Triggered(Some(url), UpdateResult(true, Str(""), "Update triggered for " + updateType)))
          else
            Ok(Triggered(Some(url), UpdateResult(false, Get(body.fields, "message", Str("Unknown error")), "")))
  }
}
