# omnii connector — a Dafny model of the connector core

The omnii connector is a Home Assistant add-on. It enrolls the home
installation with the omnii server using a one-time enrollment code. It then
keeps a gRPC session open and reports on timers:

- a **heartbeat**, carrying the Supervisor's system info every 300 seconds;
- an **update report**, listing the Supervisor, Home Assistant Core, the OS
  and every installed add-on, each with its installed and latest version;
- in the newer generation, a **stats report**.

It also triggers updates through the Supervisor REST API.

The repository holds two generations of the client:

- **The legacy generation** (`omnii_connector/`) uses a plain-text channel.
  A handshake returns a session id. The enrollment record (`instanceId`,
  `token`, `grpcServerUrl`) is persisted in two JSON files under `/data`.
- **The refresh-token generation** (`omnii/omnii_connector/`) uses TLS. It can
  pin the server's certificate on first use. Every RPC carries a bearer access
  token, which is kept fresh with a refresh token and retried once after
  `UNAUTHENTICATED`. It adds a stats timer and reads its options from
  `options.json`.

The model is organised like the program:

| module | models |
|---|---|
| `Py` | the Python behaviour the code relies on: exceptions that propagate (`Result`), decoded JSON values, truth values, `dict.get`, `str.rstrip`, protobuf string fields |
| `SupervisorApi` | `_get_data`, `get_addons`, `get_update_components`, `trigger_update`; every HTTP exchange is an input |
| `EnrollmentStore` | `save_enrollment_data` / `load_enrollment_data` over a file system value, and a `Disk` class that changes the files step by step |
| `Config` | `load_config` of the refresh-token generation |
| `Transport` | `_create_channel`: TLS with system roots, a CA file, or a pinned certificate, and the plain-text fallback |
| `Wire` | the protobuf messages, and how system info and component updates are built from Supervisor data |
| `TokenSession` / `TokenClient` | the refresh-token client: pure functions that specify each operation, and the class `GrpcClient` whose methods update its fields and are proved to follow them |
| `LegacySession` / `LegacyClient` | the same for the legacy client; its state includes the enrollment files |

Each operation is specified in the same way. The function takes the session
state before the call, the current time `now` in seconds, and the outcome of
every RPC and HTTP exchange the call may reach. It returns the result, the
session state after the call, and the requests that were sent. Each timer is
recorded as the time it is due. Exceptions that the source does not catch are
modelled as `Raised`.

## Model

| member | source | states |
|---|---|---|
| `Py.ProtoString` | omnii/omnii_connector/grpc_client.py:267-278 | A protobuf string field accepts None (stored as "") and any str (stored as is). Every other value raises TypeError. |
| `Py.RStrip` | omnii/omnii_connector/grpc_client.py:30 | `rstrip("/")` returns a prefix of the input that does not end in the character, and everything cut off is that character. |
| `SupervisorApi.GetData` | omnii_connector/supervisor_api.py:15-39 | Without a token the result is None and nothing is requested. A failed request gives None. A body that is not an object raises. The result is the `data` member exactly when `result` is "ok", and otherwise None. |
| `SupervisorApi.GetAddons` | omnii_connector/supervisor_api.py:72-77 | No data gives `[]`. With data, the result is its `addons` member, or `[]` when that member is missing. |
| `SupervisorApi.SystemComponent` | omnii_connector/supervisor_api.py:83-120 | A missing or falsy info record gives no entry, and a truthy record that is not an object raises. Otherwise the entry takes the fixed type and name, slug "", `version`, `version_latest` and `update_available` from the record. |
| `SupervisorApi.AddonComponent` | omnii_connector/supervisor_api.py:122-132 | An add-on entry converts exactly when it is an object, and otherwise raises AttributeError. It becomes type "addon". The slug, name, `version` and `version_latest` are each the entry's value, or "" when it is missing. The update flag is the truth value of `update_available`. |
| `SupervisorApi.AddonEntries` | omnii_connector/supervisor_api.py:122 | Iterating a list yields its items in order. Any other value iterates without raising only when it is falsy, and then yields nothing. |
| `SupervisorApi.AddonComponentsAt` | omnii_connector/supervisor_api.py:122-132 | The add-on loop succeeds iff every entry is an object. Entry j of the result then converts add-on j. |
| `SupervisorApi.SystemComponents` | omnii_connector/supervisor_api.py:81-120 | At most three system entries are produced, and every fetch they need succeeds. The first entry is the Supervisor exactly when its fetched info is truthy. |
| `SupervisorApi.SystemComponentsPresence` | omnii_connector/supervisor_api.py:81-120 | Each of the Supervisor, Core and the OS is listed iff its fetched info is truthy. A listed entry is exactly the one built from that info. |
| `SupervisorApi.SystemComponentsOrdered` | omnii_connector/supervisor_api.py:81-120 | The system entries come in the order Supervisor, Core, OS, and each has slug "". |
| `SupervisorApi.AppendSystemComponents` | omnii_connector/supervisor_api.py:81-120 | The step-by-step appends give exactly `SystemComponents`, including the exception that stops them. |
| `SupervisorApi.GetUpdateComponents` | omnii_connector/supervisor_api.py:79-134 | The appending loop gives exactly the system entries followed by one entry per add-on, or the first exception raised. |
| `SupervisorApi.UpdateComponentsOrder` | omnii_connector/supervisor_api.py:79-134 | In the result, the system entries keep their rank order, and every entry after them is an add-on. |
| `SupervisorApi.UpdateComponentsLayout` | omnii_connector/supervisor_api.py:83-132 | The list holds between \|add-ons\| and \|add-ons\|+3 entries. Its system prefix has slug "" and no add-on type. |
| `SupervisorApi.UpdateComponentsAddons` | omnii_connector/supervisor_api.py:122-132 | The last \|add-ons\| entries are the add-on entries, in list order. |
| `SupervisorApi.SupervisorFirstIffInfo` | omnii_connector/supervisor_api.py:83-94 | The update list starts with the Supervisor entry iff the Supervisor info is truthy. |
| `SupervisorApi.UpdateTarget` | omnii_connector/supervisor_api.py:172-192 | core, os and supervisor post to `/<type>/update`. An add-on posts to `/addons/<slug>/update` and needs a slug. Any other type is rejected, with the exact message for each case. |
| `SupervisorApi.TriggerUpdate` | omnii_connector/supervisor_api.py:155-215 | Without a token the call fails with the fixed message. A rejected type posts nothing. A post happens iff the token and target are valid. Success requires `result` "ok", and the message then names the type. A failed post reports the error. |
| `Config.MissingFields` | omnii/omnii_connector/config.py:17-18 | A field is reported missing iff it is required and its value is absent or falsy. The list is no longer than the required list. |
| `Config.MissingRequiredFields` | omnii/omnii_connector/config.py:16-21 | Applies the missing-field rule to the two required fields (the four combinations). |
| `Config.SetDefault` | omnii/omnii_connector/config.py:22-23 | `setdefault` adds the key only when it is absent and keeps every other entry. |
| `Config.LoadConfig` | omnii/omnii_connector/config.py:9-27 | No options file gives exit 1. An unreadable file gives exit 1. The load exits iff a required field is missing. Otherwise the options are kept and the two defaults are added. |
| `EnrollmentStore.CredentialsRecord` | omnii_connector/enrollment_store.py:17-25 | The credentials file holds exactly `instanceId` and `token`. |
| `EnrollmentStore.MetadataRecord` | omnii_connector/enrollment_store.py:28-37 | The metadata file holds exactly `instanceId` and `grpcServerUrl`. |
| `EnrollmentStore.WithDataDir` | omnii_connector/enrollment_store.py:8-10 | The data directory is created with mode 0755 only when it is absent. |
| `EnrollmentStore.WriteJson` | omnii_connector/enrollment_store.py:17-24 | Writing fails iff the path is a directory or `/data` is a file. Otherwise only that path changes and it holds the record. |
| `EnrollmentStore.SaveWrites` | omnii_connector/enrollment_store.py:13-38 | The save raises iff the data directory or a target path is blocked. A successful save writes both records and sets modes 0600 and 0644. Every other path is left unchanged. |
| `EnrollmentStore.Load` | omnii_connector/enrollment_store.py:41-60 | Loading needs both files. The result merges the credentials record with the metadata record. |
| `EnrollmentStore.SaveThenLoad` | omnii_connector/enrollment_store.py:13-60 | After a save that does not raise, the load returns `instanceId`, `token` and `grpcServerUrl` from the saved record. |
| `EnrollmentStore.RoundTrip` | omnii_connector/enrollment_store.py:13-60 | A record with exactly the three enrollment keys is loaded back unchanged. |
| `EnrollmentStore.LoadNeedsBothFiles` | omnii_connector/enrollment_store.py:44-45 | Removing either file after a save makes the load return None. |
| `EnrollmentStore.Disk.EnsureDataDir` | omnii_connector/enrollment_store.py:8-10 | The files become `WithDataDir` of the old files. |
| `EnrollmentStore.Disk.DumpJson` | omnii_connector/enrollment_store.py:17-24 | The files follow `WriteJson`. A failure raises OSError and leaves the files unchanged. |
| `EnrollmentStore.Disk.SetMode` | omnii_connector/enrollment_store.py:25 | Only the mode of that file changes. |
| `EnrollmentStore.Disk.SaveEnrollmentData` | omnii_connector/enrollment_store.py:13-38 | The steps in place give exactly the files and the exception of `Save`. |
| `Transport.SplitPort` | omnii/omnii_connector/grpc_client.py:71 | `rsplit(":", 1)` splits at the last colon: host + ":" + port is the target and the port has no colon. It fails iff there is no colon. |
| `Transport.ChannelTarget` | omnii_connector/grpc_client.py:78-81 | The server URL recorded at enrollment is used iff it is a string, and it is used unchanged. Any other value raises TypeError, in both client generations. |
| `Transport.CreateChannel` | omnii/omnii_connector/grpc_client.py:55-103 | A missing CA file raises. With verification on, the channel is TLS without an authority override. The plain-text fallback happens iff verification is skipped, there is no CA file, the port is numeric and the server is unreachable. A pinned certificate is exactly the one the server presented. A skipped verification overrides the authority to "omnii-grpc". |
| `Transport.ProbeOnlyWhenPinning` | omnii/omnii_connector/grpc_client.py:59-100 | With verification on, or with a CA file, the channel does not depend on what the server presents. |
| `Wire.SystemInfoOf` | omnii/omnii_connector/grpc_client.py:267-278 | Info that is not an object raises AttributeError. The message has the ten fields, each the string value or "" when it is absent or None. A falsy `hassos` becomes "". |
| `Wire.AttachedSystemInfo` | omnii/omnii_connector/grpc_client.py:265-279 | Falsy info attaches nothing. Truthy info attaches exactly `SystemInfoOf`, or raises what it raises. |
| `Wire.ComponentUpdateOf` | omnii/omnii_connector/grpc_client.py:334-342 | A component that is not an object raises AttributeError, and a field of the wrong type raises TypeError. Otherwise each field is copied with default "", and `update_available` is its truth value. |
| `Wire.ComponentUpdatesAt` | omnii/omnii_connector/grpc_client.py:333-343 | The conversion succeeds iff every component converts. Entry j then converts component j. |
| `Wire.ComponentUpdatesFirstFailure` | omnii/omnii_connector/grpc_client.py:333-343 | The exception that escapes is the one from the first component that fails. |
| `Wire.BuildComponentUpdates` | omnii/omnii_connector/grpc_client.py:333-343 | The appending loop gives exactly `ComponentUpdates`. |
| `Wire.ComponentRecord` | omnii_connector/supervisor_api.py:85-132 | A component dictionary has exactly the six keys. Each key holds the component's own value, and `update_available` is a boolean. |
| `Wire.ComponentRecordConverts` | omnii_connector/grpc_client.py:211-221 | A Supervisor component converts iff its slug, name and both versions are strings or None. The converted update then has the same type and flag, and each string field is the protobuf value of the component's field. |
| `TokenSession.TokenExpiredMonotone` | omnii/omnii_connector/grpc_client.py:168-171 | Once the access token counts as expired, it stays expired at every later time. |
| `TokenSession.TokenExpirySkewExample` | omnii/omnii_connector/grpc_client.py:168-171 | A token that expires at 3600 is fresh at 3569 and expired at 3570. An expiry that is missing or 0 counts as expired. |
| `TokenSession.AuthHeader` | omnii/omnii_connector/grpc_client.py:173-174 | The header is "Bearer " followed by the token, and "None" when there is no token. |
| `TokenSession.AuthHeaderInjective` | omnii/omnii_connector/grpc_client.py:173-174 | Different tokens give different headers. |
| `TokenSession.Refresh` | omnii/omnii_connector/grpc_client.py:181-210 | The refresh succeeds iff there is a stub and a refresh token and the reply is successful. A failed refresh changes nothing. On success the access token and expiry are replaced. The refresh token is replaced only by a non-empty one. The record, when there is one, mirrors the three values and is saved. Only the token state changes. |
| `TokenSession.Ensure` | omnii/omnii_connector/grpc_client.py:176-179 | A fresh token is kept with nothing changed. Otherwise the result is a refresh, which must succeed. |
| `TokenSession.AuthCall` | omnii/omnii_connector/grpc_client.py:212-224 | There is no RPC without a usable token, and at most two invocations. A second one happens iff the first failed with UNAUTHENTICATED and a refresh succeeded, and it carries the new token. The result is the reply or the error of the last invocation. The session after the call is the one after the token check, or after the retry's refresh when there was a retry. Only the token state changes. |
| `TokenSession.SendHeartbeat` | omnii/omnii_connector/grpc_client.py:256-297 | Nothing happens unless the client is running with a stub, and a full heartbeat whose info fails to build sends nothing. Otherwise the send is an authenticated call. The request is sent iff the call invokes the RPC. It has no session id, a millisecond timestamp, and for full info exactly the attached system info. The last full-info time is `now` iff the full info was built. The client stops iff a response says `alive` is false. |
| `TokenSession.HeartbeatLoop` | omnii/omnii_connector/grpc_client.py:246-254 | A tick sends full info iff 300 seconds have passed since the last full info. It reschedules iff the client is still running, and does nothing if the client is not running. |
| `TokenSession.SendUpdateReport` | omnii/omnii_connector/grpc_client.py:326-357 | Nothing happens unless the client is running with a stub, and a failed collection or conversion sends nothing. Otherwise the send is an authenticated call. The report is sent iff the call invokes the RPC, is stamped `now` and holds exactly `ComponentUpdates` of the components. The session is the one after the call. |
| `TokenSession.UpdateReportLoop` | omnii/omnii_connector/grpc_client.py:317-324 | A tick makes the same send, with the same request and headers, and reschedules iff the client is still running. It does nothing if the client is not running. |
| `TokenSession.StartUpdateReporting` | omnii/omnii_connector/grpc_client.py:299-306 | Starting update reporting behaves exactly like one loop tick. |
| `TokenSession.SendStatsReport` | omnii/omnii_connector/grpc_client.py:386-420 | Nothing happens unless the client is running with a stub. Stats that are missing, empty, raised or not an object send nothing. Otherwise the send is an authenticated call. The report is sent iff the call invokes the RPC, and it holds the stats object stamped `now`. The session is the one after the call. |
| `TokenSession.StatsReportLoop` | omnii/omnii_connector/grpc_client.py:377-384 | A tick makes the same send, with the same request and headers, and reschedules iff the client is still running. |
| `TokenSession.StartStatsReporting` | omnii/omnii_connector/grpc_client.py:359-366 | Starting stats reporting behaves exactly like one loop tick. |
| `TokenSession.StartHeartbeat` | omnii/omnii_connector/grpc_client.py:226-235 | Nothing happens unless the client is running. Otherwise it sends a full-info heartbeat, schedules it, starts update reporting and then stats reporting. If the client is still running after the heartbeat, all three timers are due one interval from now. If the heartbeat stopped the client, no report is sent. |
| `TokenSession.Stop` | omnii/omnii_connector/grpc_client.py:422-436 | After stopping, the client is not running and has no timers and no channel. Everything else is kept. |
| `TokenSession.StopIdempotent` | omnii/omnii_connector/grpc_client.py:422-436 | A second stop changes nothing. |
| `TokenSession.Connect` | omnii/omnii_connector/grpc_client.py:139-166 | A client that is not enrolled gets false with nothing changed. For an enrolled client, a recorded URL that is not a string raises TypeError, and a channel that cannot be created raises its exception. Otherwise the tokens are read from the record into a session with the new channel and a stub. Connecting succeeds iff there is a refresh token and the token check on those tokens succeeds. Only success starts the client. On failure the session is the one after reading the record, or after the token check. The timers and the last full-info time are untouched. |
| `TokenSession.EnrollmentRecord` | omnii/omnii_connector/grpc_client.py:119-125 | The enrollment record holds exactly the five keys, with the issued id and tokens, the expiry and the server URL. |
| `TokenSession.Enroll` | omnii/omnii_connector/grpc_client.py:105-137 | Enrollment succeeds iff the channel can be created and the reply is successful. On success the record is kept and saved, and nothing else changes. |
| `TokenSession.InvAuth` | omnii/omnii_connector/grpc_client.py:176-224 | Refresh, the token check and authenticated calls keep the invariant: a running client has a stub, a channel and a refresh token. |
| `TokenSession.InvReporting` | omnii/omnii_connector/grpc_client.py:226-420 | Every send, tick and start keeps the invariant. |
| `TokenSession.InvLifecycle` | omnii/omnii_connector/grpc_client.py:105-166 | Enroll, stop, and connecting a client that is not running keep the invariant. |
| `TokenSession.StoppedIsInert` | omnii/omnii_connector/grpc_client.py:226-384 | A client that is not running does nothing on any tick, schedule or start. |
| `TokenSession.NotAliveStopsRescheduling` | omnii/omnii_connector/grpc_client.py:246-297 | A response with `alive` false stops the client. The heartbeat is not rescheduled, the one request carried the current token, and every later tick does nothing. |
| `TokenSession.HeartbeatCadence` | omnii/omnii_connector/grpc_client.py:246-281 | Within 300 seconds a tick is minimal and keeps the last full-info time. After 300 seconds a tick that builds the info records `now`. |
| `TokenSession.StartSendsFullInfo` | omnii/omnii_connector/grpc_client.py:226-235 | Starting the heartbeat sends full info and records `now`. |
| `TokenSession.EnrollThenConnect` | omnii/omnii_connector/grpc_client.py:105-166 | Connecting right after enrolling succeeds iff a refresh token was issued and the issued access token is fresh or a refresh succeeds. |
| `TokenClient.GrpcClient.constructor` | omnii/omnii_connector/grpc_client.py:22-49 | A new client has no enrollment, channel, tokens or timers and is not running. The server URL has trailing slashes removed. |
| `TokenClient.GrpcClient.LoadExistingEnrollment` | omnii/omnii_connector/grpc_client.py:51-53 | The loaded record replaces the enrollment, and the result says whether one was found. |
| `TokenClient.GrpcClient.Enroll` | omnii/omnii_connector/grpc_client.py:105-137 | The fields change exactly as `TokenSession.Enroll` says. |
| `TokenClient.GrpcClient.RefreshAccessToken` | omnii/omnii_connector/grpc_client.py:181-210 | The fields change exactly as `TokenSession.Refresh` says. |
| `TokenClient.GrpcClient.EnsureAccessToken` | omnii/omnii_connector/grpc_client.py:176-179 | The fields change exactly as `TokenSession.Ensure` says. |
| `TokenClient.GrpcClient.AttachRecord` | omnii/omnii_connector/grpc_client.py:148-155 | The channel and stub are set and the three token fields are read from the record, exactly as `TokenSession.WithRecordTokens` says; nothing else changes. |
| `TokenClient.GrpcClient.ConnectAndHandshake` | omnii/omnii_connector/grpc_client.py:139-166 | The fields change exactly as `TokenSession.Connect` says, including the exception that escapes. |
| `TokenClient.GrpcClient.CallWithAuth` | omnii/omnii_connector/grpc_client.py:212-224 | The result, the headers and the fields are exactly those of `TokenSession.AuthCall`. |
| `TokenClient.GrpcClient.SendHeartbeat` | omnii/omnii_connector/grpc_client.py:256-297 | The request and the fields match `TokenSession.SendHeartbeat`. |
| `TokenClient.GrpcClient.ScheduleHeartbeat` | omnii/omnii_connector/grpc_client.py:237-244 | The heartbeat timer is due one interval from now iff the client is running. |
| `TokenClient.GrpcClient.HeartbeatLoop` | omnii/omnii_connector/grpc_client.py:246-254 | The tick matches `TokenSession.HeartbeatLoop`. |
| `TokenClient.GrpcClient.SendUpdateReport` | omnii/omnii_connector/grpc_client.py:326-357 | The components are converted by a loop, and the outcome matches `TokenSession.SendUpdateReport`. |
| `TokenClient.GrpcClient.ScheduleUpdateReport` | omnii/omnii_connector/grpc_client.py:308-315 | The update timer is due one interval from now iff the client is running. |
| `TokenClient.GrpcClient.UpdateReportLoop` | omnii/omnii_connector/grpc_client.py:317-324 | The tick matches `TokenSession.UpdateReportLoop`. |
| `TokenClient.GrpcClient.StartUpdateReporting` | omnii/omnii_connector/grpc_client.py:299-306 | The start matches `TokenSession.StartUpdateReporting`. |
| `TokenClient.GrpcClient.SendStatsReport` | omnii/omnii_connector/grpc_client.py:386-420 | The report matches `TokenSession.SendStatsReport`. |
| `TokenClient.GrpcClient.ScheduleStatsReport` | omnii/omnii_connector/grpc_client.py:368-375 | The stats timer is due one interval from now iff the client is running. |
| `TokenClient.GrpcClient.StatsReportLoop` | omnii/omnii_connector/grpc_client.py:377-384 | The tick matches `TokenSession.StatsReportLoop`. |
| `TokenClient.GrpcClient.StartStatsReporting` | omnii/omnii_connector/grpc_client.py:359-366 | The start matches `TokenSession.StartStatsReporting`. |
| `TokenClient.GrpcClient.StartHeartbeat` | omnii/omnii_connector/grpc_client.py:226-235 | The start matches `TokenSession.StartHeartbeat`. |
| `TokenClient.GrpcClient.Stop` | omnii/omnii_connector/grpc_client.py:422-436 | The fields become `TokenSession.Stop` of the old state. |
| `LegacySession.EnrollmentRecord` | omnii_connector/grpc_client.py:54-58 | The enrollment record holds exactly `instanceId`, `token` and `grpcServerUrl`, with the issued id, the issued token and the server URL. |
| `LegacySession.Enroll` | omnii_connector/grpc_client.py:40-70 | An unsuccessful or failed reply gives false with nothing changed. On success the record is kept and saved. The result is false iff the save raised, and the files hold what was written. |
| `LegacySession.LoadExisting` | omnii_connector/grpc_client.py:33-35 | The enrollment becomes what the store loads, and the result says whether a record was found. |
| `LegacySession.Connect` | omnii_connector/grpc_client.py:72-103 | A client that is not enrolled gets false. When the recorded URL is not a string, the exception escapes with nothing changed. The handshake is sent iff the URL and both fields are usable, and it carries the recorded id and token, with defaults "unknown" and "". An exception escapes iff the URL or a field is not a string. An RPC error gives false. Success iff the status is "ok", and then the session id is stored and the client runs. |
| `LegacySession.SendHeartbeat` | omnii_connector/grpc_client.py:134-175 | Nothing happens unless the client is running with a session id and a stub. An exception escapes iff full info is asked for and fetching or building it raises, and then nothing changes. The request carries the session id, a millisecond timestamp, and for full info exactly the attached system info. `alive` false stops the client. |
| `LegacySession.HeartbeatLoop` | omnii_connector/grpc_client.py:124-132 | A tick sends full info iff 300 seconds have passed. It reschedules iff the send did not raise and the client is still running. |
| `LegacySession.ComponentRecords` | omnii_connector/supervisor_api.py:79-134 | Each component becomes its dictionary, in order. |
| `LegacySession.SendUpdateReport` | omnii_connector/grpc_client.py:204-235 | Nothing happens unless the client is running with a session id and a stub. The report carries the session id and one update per Supervisor component, in order. It raises iff collecting or converting raises. The session never changes. |
| `LegacySession.UpdateReportLoop` | omnii_connector/grpc_client.py:177-202 | A tick and a start make the same send, with the same request, then schedule iff the client is running and the report did not raise. |
| `LegacySession.StartHeartbeat` | omnii_connector/grpc_client.py:105-113 | Nothing happens unless the client is running. The first heartbeat is the full-info one. If it raises, nothing else happens. Otherwise it schedules the heartbeat and runs one update-report tick. If the client is still running, the heartbeat is due one interval from now, and so is the update report unless it raised. If the heartbeat stopped the client, no report is sent. |
| `LegacySession.Stop` | omnii_connector/grpc_client.py:237-248 | After stopping, the client is not running and has no timers and no channel. Everything else is kept. |
| `LegacySession.StopIdempotent` | omnii_connector/grpc_client.py:237-248 | A second stop changes nothing. |
| `LegacySession.EnrollThenLoad` | omnii_connector/grpc_client.py:40-103 | After an enrollment that saved, loading returns the same record. The handshake then sends the issued instance id and token. |
| `LegacySession.HandshakeDefaults` | omnii_connector/grpc_client.py:84-89 | A record without an id and token sends "unknown" and "". |
| `LegacySession.InvLifecycle` | omnii_connector/grpc_client.py:33-248 | Enroll, load, connect and stop keep the invariant: a running client has a stub, a channel and a session id. |
| `LegacySession.InvReporting` | omnii_connector/grpc_client.py:105-235 | Every tick and start keeps the invariant. |
| `LegacySession.StoppedIsInert` | omnii_connector/grpc_client.py:105-202 | A client that is not running does nothing on any tick, schedule or start. |
| `LegacySession.NotAliveStopsRescheduling` | omnii_connector/grpc_client.py:124-175 | A response with `alive` false stops the client, the heartbeat is not rescheduled, and every later tick does nothing. |
| `LegacySession.HeartbeatCadence` | omnii_connector/grpc_client.py:124-161 | Within 300 seconds a tick is minimal and cannot raise. After 300 seconds a tick that sends records `now`. |
| `LegacyClient.GrpcClient.constructor` | omnii_connector/grpc_client.py:15-31 | A new client has no enrollment, channel, session or timers and is not running. The server URL has trailing slashes removed. The client works on the given disk. |
| `LegacyClient.GrpcClient.LoadExistingEnrollment` | omnii_connector/grpc_client.py:33-35 | The fields change exactly as `LegacySession.LoadExisting` says. |
| `LegacyClient.GrpcClient.Enroll` | omnii_connector/grpc_client.py:40-70 | The fields and the files change exactly as `LegacySession.Enroll` says. |
| `LegacyClient.GrpcClient.ConnectAndHandshake` | omnii_connector/grpc_client.py:72-103 | The result, the request and the fields match `LegacySession.Connect`. |
| `LegacyClient.GrpcClient.SendHeartbeat` | omnii_connector/grpc_client.py:134-175 | The request, the exception and the fields match `LegacySession.SendHeartbeat`. |
| `LegacyClient.GrpcClient.ScheduleHeartbeat` | omnii_connector/grpc_client.py:115-122 | The heartbeat timer is due one interval from now iff the client is running. |
| `LegacyClient.GrpcClient.HeartbeatLoop` | omnii_connector/grpc_client.py:124-132 | The tick matches `LegacySession.HeartbeatLoop`. |
| `LegacyClient.GrpcClient.SendUpdateReport` | omnii_connector/grpc_client.py:204-235 | Both loops, collecting and converting, together give exactly `LegacySession.SendUpdateReport`, and the state is left unchanged. |
| `LegacyClient.GrpcClient.ScheduleUpdateReport` | omnii_connector/grpc_client.py:186-193 | The update timer is due one interval from now iff the client is running. |
| `LegacyClient.GrpcClient.UpdateReportLoop` | omnii_connector/grpc_client.py:195-202 | The tick matches `LegacySession.UpdateReportLoop`. |
| `LegacyClient.GrpcClient.StartUpdateReporting` | omnii_connector/grpc_client.py:177-184 | The start matches the same loop tick. |
| `LegacyClient.GrpcClient.StartHeartbeat` | omnii_connector/grpc_client.py:105-113 | The start matches `LegacySession.StartHeartbeat`. |
| `LegacyClient.GrpcClient.Stop` | omnii_connector/grpc_client.py:237-248 | The fields become `LegacySession.Stop` of the old state. |

## Notes on the code's behaviour

- `_call_with_auth` (omnii/omnii_connector/grpc_client.py:212-224) retries only after `UNAUTHENTICATED`. Every other status code, and a failed refresh, re-raises the error at once.
- Neither client guards its fields with a lock. A timer callback can run at the same time as `stop` or another callback. The model treats every operation as one atomic step.
- `connect_and_handshake` (omnii/omnii_connector/grpc_client.py:139-166) does not check `running`. Connecting again while running re-reads the tokens from the record. If the record holds no refresh token, the client returns false but stays running without one. For that reason `TokenSession.InvLifecycle` covers connecting only from a stopped client.

## Left out

- Threads, locks and `threading.Timer` objects are out of scope. A timer is its due time. A timer that is replaced is not cancelled, and callbacks do not run concurrently.
- Wall-clock time and floating point are out of scope. `now` is whole seconds, and the client timestamp is `now * 1000`.
- Logging and `print` output are not modelled, because they change no state.
- JSON encoding and decoding are not modelled. Documents are `Value`s, and every number is taken to be an integer.
- `get_core_stats` and the conversion of the stats document to the protobuf message are not part of this model. The stats report carries the stats object as it is.
- The enrollment store and Supervisor client of the refresh-token generation are not part of this model. Saving there is recorded in `saved` and taken not to raise. The Supervisor results arrive as inputs to each send.
- TokenSession.Connect: token fields of the record that are not strings (or not integers, for the expiry) are read as absent. The source would keep the raw value.
- Transport.CreateChannel: a server URL that is not a string is taken to raise TypeError. `PortParses` approximates `int()`, which also accepts signs and surrounding whitespace.
- `reload_updates`, `get_available_updates`, and the entry points `main.py` and `omnii_addon.py` are not modelled, because they are outside the connector core.
- The legacy constants module is not part of this model. The Supervisor URL, the data paths and the intervals are the values of `omnii/omnii_connector/constants.py`.
- The file modes assume a process umask of 022 for the directory and the new files.
- The refresh-token client's optional CA certificate path is a string, and "" stands for None. Both are falsy where the code tests it.
