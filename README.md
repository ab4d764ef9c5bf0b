# raspager-proxy in Dafny

This project models the sequential logic of the DAPNET/RasPager proxy. The proxy relays
line-based traffic between a pager transmitter (the backend) and a DAPNET core server
(the frontend). Six pieces are modelled, and their properties are proved:

- **Backend keep-alive state machine** (`keep_alive.dfy`, module `KeepAlive`). After the
  handshake line `2:…`, the backend handler answers each reader-idle timeout with a
  `2:PING`. It suppresses the two reply lines `2:PING…` and `+`, and closes the backend
  when a ping is still unanswered at the next timeout. The pure step functions `OnRead`,
  `OnReadTimeout` and `OnUserEvent` are folded by `Run` over an event history. The class
  `BackendHandler` keeps a `state` field whose `Valid()` ties it to `Run` of everything
  the handler has seen. The trace lemmas prove the following:
  - no ping is sent before the handshake;
  - a line is suppressed only while a ping is pending;
  - suppressed lines plus the replies still awaited are exactly two per ping;
  - the forwarded output is the input lines without the suppressed ones, in order;
  - the write-completion listener (`ForwardCompleted`) requests at most one backend read
    per forwarded line, so a suppressed reply requests none.
- **Welcome-banner rewriter** (`welcome.dfy`, module `Welcome`). A hand-written
  recognizer implements the welcome pattern in Java's ASCII mode, and is proved sound
  and complete against a declarative description of the banner. The encoder class
  rewrites the first banner to `[name vversion authName authKey]` and then disarms
  itself. The lemmas show that at most one line of a stream is rewritten, and exactly
  which one.
- **Line terminator encoder** (`line_codec.dfy`, module `LineCodec`). It appends CR LF
  to each line. Its partner is a model of the line-based frame decoder, and the round
  trip gives every message back. `encoder_pipeline.dfy` (module `EncoderPipeline`)
  composes the encoder, the terminator and the decoder, as the encoder's unit test does.
- **Configuration validators** (`dapnet_settings.dfy` and `raspager_settings.dfy`,
  built on `props.dfy` and `decimal.dfy`). These are total functions from a property
  map to a settings record or to the exception the constructor throws. `Decimal`
  implements `Long.parseLong` and `Integer.parseInt` by hand. `Props` holds the shared
  lookups, including the port range check of `InetSocketAddress`. For the DAPNET
  settings, a proof shows that the sequential checks agree with a key-by-key reference
  in declaration order.
- **Status registry** (`connection_status.dfy`, `status_registry.dfy`,
  `connection_status_manager.dfy` and `proxy_status_manager.dfy`). `ConnectionStatus` is
  a class with setters. Both managers hold a map from profile name to status object,
  and `Valid()` ties the stored values to `Replay` of the listener callbacks. `Replay`
  is proved to keep the following:
  - the key set is exactly the registered names;
  - every entry is filed under its own name;
  - an entry has a start time exactly while it is online;
  - callbacks for other names leave an entry unchanged.
- **Proxy manager** (`proxy_manager.dfy`, module `Proxy`). The class `ProxyManager`
  holds the set of live `ConnectionState` objects. It also keeps three logs: the
  listener callbacks, the connect jobs handed to the worker event loop, and the closed
  channels. `Valid()` ties these to `Run` of the calls made so far. The lemmas prove:
  - the reconnect rule;
  - that nothing is rescheduled after `shutdown`;
  - that reconnect delays are positive;
  - that each entry point fires exactly its own listener callback, or none when there
    is no listener.

Clocks (`Instant.now()`) are parameters (`now`). Netty channels are opaque numbers. The
event loop and the listener are logs. Everything runs sequentially.

Notes on the source:
- The files come from different revisions. `ProxyManager` and `SettingsTest` use a
  `ConnectionSettings` class that is not among them. The modelled methods of
  `ProxyManager` read only `getProfileName` and `getReconnectSleepTime` from it.
  `doConnect`, which is left out, also reads `getFrontendAddress` and hands the settings
  to the `FrontendInitializer`. The settings test builds `ConnectionSettings` from the
  same keys as `Settings`. So both are modelled with the DAPNET `Settings` record.
- The welcome pattern uses `[\p{Graph}]*`, which also matches `]`. So `[a v1.0]]`
  matches, with version `1.0]` (`Welcome.TrailingBracketInVersion`). The recognizer
  follows the pattern as written.

## Model

| member | source | states |
|---|---|---|
| `KeepAlive.OnRead` | src/main/java/de/rwth_aachen/afu/dapnet/proxy/BackendHandler.java:63-97 | A backend line is forwarded unchanged or suppressed. It is suppressed exactly when it is the reply the pending state waits for: a `2:PING` prefix in PENDING_KEEP_ALIVE_1, or exactly `+` in PENDING_KEEP_ALIVE_2. Suppression moves to PENDING_KEEP_ALIVE_2 or to SEND_KEEP_ALIVE respectively. In HANDSHAKE a `2:` prefix moves to SEND_KEEP_ALIVE. Every other pair keeps the state. |
| `KeepAlive.OnReadTimeout` | src/main/java/de/rwth_aachen/afu/dapnet/proxy/BackendHandler.java:127-142 | A timeout does nothing in HANDSHAKE. It sends a ping exactly in SEND_KEEP_ALIVE, moving to PENDING_KEEP_ALIVE_1. It closes exactly in a pending state, leaving the state as it is. |
| `KeepAlive.OnUserEvent` | src/main/java/de/rwth_aachen/afu/dapnet/proxy/BackendHandler.java:106-113 | Only a reader-idle event runs the timeout handling. Every other user event leaves state and channels alone. |
| `KeepAlive.Run` | src/main/java/de/rwth_aachen/afu/dapnet/proxy/BackendHandler.java:42-142 | A fresh handler, starting in HANDSHAKE, takes exactly one action per event. |
| `KeepAlive.RunAt` | src/main/java/de/rwth_aachen/afu/dapnet/proxy/BackendHandler.java:63-142 | The k-th action, and the state after it, are one step from the state reached after the first k events. |
| `KeepAlive.HandshakeGatesPings` | src/main/java/de/rwth_aachen/afu/dapnet/proxy/BackendHandler.java:128-135 | The handler is in HANDSHAKE exactly until a `2:` line arrives. Every ping comes after such a line. |
| `KeepAlive.PingAccounting` | src/main/java/de/rwth_aachen/afu/dapnet/proxy/BackendHandler.java:76-135 | Suppressed lines plus the replies still awaited equal twice the pings sent. So at most two lines are suppressed per ping. |
| `KeepAlive.SuppressOnlyWhilePending` | src/main/java/de/rwth_aachen/afu/dapnet/proxy/BackendHandler.java:76-89 | A suppressed line arrived in a pending state, was the reply that state waits for, and came after some ping. |
| `KeepAlive.ForwardedIsInputMinusSuppressed` | src/main/java/de/rwth_aachen/afu/dapnet/proxy/BackendHandler.java:94-96 | The lines written to the frontend are the backend lines minus the suppressed ones, in order. The input count is the forwarded count plus the suppressed count. |
| `KeepAlive.Step` | src/main/java/de/rwth_aachen/afu/dapnet/proxy/BackendHandler.java:63-113 | One event of either kind: a backend line goes to `OnRead`, a user event to `OnUserEvent`. Its properties over whole histories are the trace lemmas below. |
| `KeepAlive.ReadsFollowForwards` | src/main/java/de/rwth_aachen/afu/dapnet/proxy/BackendHandler.java:94-124 | Reads are only requested by completed forwarded writes. So the successful completions plus the suppressed lines never exceed the backend lines, and once a line has been suppressed fewer reads than lines have been requested. |
| `KeepAlive.AfterForwardWrite` | src/main/java/de/rwth_aachen/afu/dapnet/proxy/BackendHandler.java:118-124 | After a forwarded write, the next backend read is requested exactly when the write succeeded. Otherwise the frontend channel is closed. |
| `KeepAlive.BackendHandler.constructor` | src/main/java/de/rwth_aachen/afu/dapnet/proxy/BackendHandler.java:42-46 | A new handler is in HANDSHAKE with an empty history. |
| `KeepAlive.BackendHandler.ChannelRead` | src/main/java/de/rwth_aachen/afu/dapnet/proxy/BackendHandler.java:63-97 | The in-place switch over `state` makes the same state change and decision as `OnRead`, and it keeps `Valid()`. |
| `KeepAlive.BackendHandler.UserEventTriggered` | src/main/java/de/rwth_aachen/afu/dapnet/proxy/BackendHandler.java:106-113 | Same as `OnUserEvent`. Idle events are only accepted when the reader-idle timeout is positive, because only then does the pipeline have an idle handler. |
| `KeepAlive.BackendHandler.ForwardCompleted` | src/main/java/de/rwth_aachen/afu/dapnet/proxy/BackendHandler.java:118-124 | Fires only while a forwarded write is outstanding (`Valid` keeps completions at most the forwarded lines). It records the outcome and returns `AfterForwardWrite` of it: a backend read on success, a frontend close otherwise. State and history stay as they are. |
| `KeepAlive.BackendHandler.HandleReadTimeout` | src/main/java/de/rwth_aachen/afu/dapnet/proxy/BackendHandler.java:127-142 | Updates `state` in place as `OnReadTimeout` does. |
| `Welcome.NameSpan` | src/main/java/de/rwth_aachen/afu/dapnet/proxy/WelcomeMessageEncoder.java:35 | The greedy run of `[/\p{Alnum}]` characters at the start of a string. |
| `Welcome.MatchWelcome` | src/main/java/de/rwth_aachen/afu/dapnet/proxy/WelcomeMessageEncoder.java:34-35 | The full-line match of the welcome pattern: the outer brackets, then `MatchBody` on what they enclose. `MatchSound` and `MatchComplete` state what it accepts. |
| `Welcome.MatchBody` | src/main/java/de/rwth_aachen/afu/dapnet/proxy/WelcomeMessageEncoder.java:35 | The name group is the greedy `[/\p{Alnum}]+` run, which must be non-empty and followed by one space; the rest goes to `MatchVersion`. |
| `Welcome.MatchVersion` | src/main/java/de/rwth_aachen/afu/dapnet/proxy/WelcomeMessageEncoder.java:35 | Skips an optional `v`, then takes the rest as the version group if it is a valid `\d[\d\.]+[\p{Graph}]*`. |
| `Welcome.MatchSound` | src/main/java/de/rwth_aachen/afu/dapnet/proxy/WelcomeMessageEncoder.java:34-35 | Soundness of the recognizer. A match returns a valid name and version, and the line is `[name version]` or `[name vversion]`. |
| `Welcome.MatchComplete` | src/main/java/de/rwth_aachen/afu/dapnet/proxy/WelcomeMessageEncoder.java:57-58 | Completeness. Every line of that shape matches, with exactly that name and version as its groups. |
| `Welcome.Format` | src/main/java/de/rwth_aachen/afu/dapnet/proxy/WelcomeMessageEncoder.java:59 | The reply `[%s v%s %s %s]` filled with the two groups and the two credentials. |
| `Welcome.Rewrite` | src/main/java/de/rwth_aachen/afu/dapnet/proxy/WelcomeMessageEncoder.java:57-66 | A matching line becomes `[name vversion authName authKey]`. Any other line passes unchanged. |
| `Welcome.VersionPrefixOptional` | src/main/java/de/rwth_aachen/afu/dapnet/proxy/WelcomeMessageEncoder.java:34-59 | The `v` is optional in the banner and always present in the reply. Both forms give the same reply. |
| `Welcome.BannerExamples` | src/test/java/de/rwth_aachen/afu/dapnet/proxy/WelcomeMessageEncoderTest.java:50-51 | `[Test v1.0]` and `[Test v1.0.0-SCP-#123456]` are rewritten with `name key`. |
| `Welcome.PassThroughExamples` | src/test/java/de/rwth_aachen/afu/dapnet/proxy/WelcomeMessageEncoderTest.java:49-52 | `forward` and `Test/RPC v1.0` pass unchanged. |
| `Welcome.SingleDigitVersionRejected` | src/main/java/de/rwth_aachen/afu/dapnet/proxy/WelcomeMessageEncoder.java:35 | `[Test v1]` does not match, because a version needs a second digit or dot. |
| `Welcome.TrailingBracketInVersion` | src/main/java/de/rwth_aachen/afu/dapnet/proxy/WelcomeMessageEncoder.java:35 | Because `\p{Graph}` includes `]`, `[a v1.0]]` matches with version `1.0]`. |
| `Welcome.EncodeStream` | src/main/java/de/rwth_aachen/afu/dapnet/proxy/WelcomeMessageEncoder.java:56-67 | A fresh encoder emits exactly one line per input line. |
| `Welcome.EncodeStreamAt` | src/main/java/de/rwth_aachen/afu/dapnet/proxy/WelcomeMessageEncoder.java:58-65 | Every emitted line is its input, except the first banner of the stream, which is rewritten. |
| `Welcome.AtMostOneRewrite` | src/main/java/de/rwth_aachen/afu/dapnet/proxy/WelcomeMessageEncoder.java:62 | After the first banner, no later line is rewritten, even if it matches. |
| `Welcome.CredentialError` | src/main/java/de/rwth_aachen/afu/dapnet/proxy/WelcomeMessageEncoder.java:44-49 | A null or empty name is reported as `name`, and this check comes first. Otherwise a null or empty key is reported as `authKey`. There is no error exactly when both are non-empty. |
| `Welcome.WelcomeMessageEncoder.constructor` | src/main/java/de/rwth_aachen/afu/dapnet/proxy/WelcomeMessageEncoder.java:51-52 | Stores non-empty credentials. The new encoder is armed and has seen nothing. |
| `Welcome.WelcomeMessageEncoder.Create` | src/main/java/de/rwth_aachen/afu/dapnet/proxy/WelcomeMessageEncoder.java:44-53 | Fails exactly when `CredentialError` reports an argument, and with that argument's name. Otherwise it returns a fresh, armed encoder. |
| `Welcome.WelcomeMessageEncoder.Encode` | src/main/java/de/rwth_aachen/afu/dapnet/proxy/WelcomeMessageEncoder.java:56-67 | While armed, a line is rewritten as `Rewrite` does, and a match disarms the encoder. Once disarmed, lines pass unchanged. The output history stays `EncodeStream` of the input history. |
| `LineCodec.AddLineBreak` | src/main/java/de/rwth_aachen/afu/raspager/proxy/LineBreakAdder.java:11-13 | The output is the input, unchanged, followed by CR LF. Its length is the input's length plus two. |
| `LineCodec.SplitEncodedLine` | src/main/java/de/rwth_aachen/afu/raspager/proxy/LineBreakAdder.java:12 | In an encoded line, the first LF sits just after the CR. The frame before it is the message, and decoding resumes right after the terminator. |
| `LineCodec.RoundTrip` | src/test/java/de/rwth_aachen/afu/dapnet/proxy/WelcomeMessageEncoderTest.java:65-71 | Splitting the encoding of lines without CR or LF, each within the frame limit, gives the same lines back with nothing pending. |
| `LineCodec.OneMessageOneFrame` | src/main/java/de/rwth_aachen/afu/raspager/proxy/LineBreakAdder.java:12 | One message decodes to exactly one frame, which is the message. |
| `LineCodec.OverlongLineRejected` | src/test/java/de/rwth_aachen/afu/dapnet/proxy/WelcomeMessageEncoderTest.java:79 | A line one character over the decoder's limit is refused. |
| `EncoderPipeline.ReadBack` | src/test/java/de/rwth_aachen/afu/dapnet/proxy/WelcomeMessageEncoderTest.java:62-72 | A line written through the encoder, the terminator and the decoder is read back as the rewritten line. |
| `EncoderPipeline.ForwardCase` | src/test/java/de/rwth_aachen/afu/dapnet/proxy/WelcomeMessageEncoderTest.java:49 | `forward` reads back as `forward`. |
| `EncoderPipeline.BannerCase` | src/test/java/de/rwth_aachen/afu/dapnet/proxy/WelcomeMessageEncoderTest.java:50 | `[Test v1.0]` reads back as `[Test v1.0 name key]`. |
| `EncoderPipeline.TaggedBannerCase` | src/test/java/de/rwth_aachen/afu/dapnet/proxy/WelcomeMessageEncoderTest.java:51 | `[Test v1.0.0-SCP-#123456]` reads back with `name key` appended inside the brackets. |
| `EncoderPipeline.PathCase` | src/test/java/de/rwth_aachen/afu/dapnet/proxy/WelcomeMessageEncoderTest.java:52 | `Test/RPC v1.0` reads back unchanged. |
| `Decimal.ParseInteger` | src/main/java/de/rwth_aachen/afu/dapnet/proxy/Settings.java:160-166 | Parsing succeeds exactly for an optional sign followed by one or more digits whose value lies in the type's range, and it returns that value. |
| `Decimal.ParseLong` | src/main/java/de/rwth_aachen/afu/dapnet/proxy/Settings.java:164-166 | `Long.parseLong`: succeeds exactly for a well-formed decimal whose value lies in the 64-bit range, and returns that value. |
| `Decimal.ParseInt` | src/main/java/de/rwth_aachen/afu/dapnet/proxy/Settings.java:160-162 | `Integer.parseInt`: succeeds exactly for a well-formed decimal whose value lies in the 32-bit range, and returns that value. |
| `Decimal.ParseShow` | src/main/java/de/rwth_aachen/afu/dapnet/proxy/Settings.java:164-166 | Every number in range parses back from its decimal text. |
| `Decimal.RejectsEmptyDigits` | src/main/java/de/rwth_aachen/afu/dapnet/proxy/Settings.java:160-162 | A sign with no digits, or an empty string, is a number format error. |
| `Props.Message` | src/main/java/de/rwth_aachen/afu/dapnet/proxy/Settings.java:54 | The two exception messages the settings code writes: `Key not found: ` followed by the key (line 152), and the negative sleep-time message (line 54). `FirstMissingKeyReported` and `NegativeSleepTimeFirst` state which one a failed load carries. |
| `Props.GetString` | src/main/java/de/rwth_aachen/afu/dapnet/proxy/Settings.java:147-154 | Returns the value exactly when the key is present, including an empty value. Otherwise it fails with `KeyNotFound` for that key. |
| `Props.GetStringOr` | src/main/java/de/rwth_aachen/afu/raspager/proxy/Settings.java:103-106 | Returns the value if present, else the default, and never fails. |
| `Props.GetInt` | src/main/java/de/rwth_aachen/afu/dapnet/proxy/Settings.java:160-162 | A missing key is `KeyNotFound`. A present key succeeds exactly when its value parses as an int, and otherwise fails with a number format error on that value. |
| `Props.GetLong` | src/main/java/de/rwth_aachen/afu/dapnet/proxy/Settings.java:164-166 | As `GetInt`, for longs. |
| `Props.GetAddress` | src/main/java/de/rwth_aachen/afu/dapnet/proxy/Settings.java:156-158 | The host is looked up first, then the port. A port outside 0..65535 is rejected. On success the address holds the host value and the parsed port. |
| `DapnetSettings.FromProperties` | src/main/java/de/rwth_aachen/afu/dapnet/proxy/Settings.java:48-65 | On success the profile name is its key's value. The sleep time is the parsed `reconnectSleepTime` and is not negative. The remaining fields come from `Endpoints`. |
| `DapnetSettings.Endpoints` | src/main/java/de/rwth_aachen/afu/dapnet/proxy/Settings.java:57-64 | On success all endpoint keys are present. Name, key and hosts are their values. The ports and the backend timeout are their parsed values. |
| `DapnetSettings.EndpointsInDeclarationOrder` | src/main/java/de/rwth_aachen/afu/dapnet/proxy/Settings.java:58-64 | The endpoint keys are read in declaration order. The outcome is the error of the first missing or refused key, or success. |
| `DapnetSettings.ChecksInDeclarationOrder` | src/main/java/de/rwth_aachen/afu/dapnet/proxy/Settings.java:49-64 | The constructor fails exactly when some required key is missing or refused, and with the error of the first one in declaration order. |
| `DapnetSettings.AcceptsExactly` | src/main/java/de/rwth_aachen/afu/dapnet/proxy/Settings.java:48-65 | Loading succeeds exactly when all nine keys are present and each value is accepted. The sleep time must be a non-negative long, the ports ints in 0..65535, the timeout any long, and strings only need to be present. |
| `DapnetSettings.FirstMissingKeyReported` | src/main/java/de/rwth_aachen/afu/dapnet/proxy/Settings.java:147-154 | When every earlier key passes, the first missing key is the one reported as not found, with the message `Key not found: ` followed by that key. |
| `DapnetSettings.NegativeSleepTimeFirst` | src/main/java/de/rwth_aachen/afu/dapnet/proxy/Settings.java:52-55 | A negative sleep time is rejected, with the source's message, before any frontend or backend key is looked at. |
| `DapnetSettings.TestProperties` | src/test/java/de/rwth_aachen/afu/dapnet/proxy/SettingsTest.java:33-71 | The unit test's properties load into the expected record: sleep time 0, ports 43434 and 43435, timeout 30000. |
| `RaspagerSettings.ConfigFile` | src/main/java/de/rwth_aachen/afu/raspager/proxy/Settings.java:48-50 | A null file name becomes `RaspagerProxy.properties`. |
| `RaspagerSettings.FromProperties` | src/main/java/de/rwth_aachen/afu/raspager/proxy/Settings.java:57-64 | Succeeds exactly when both addresses are present and valid. A frontend error is reported before any backend error. The key is the value of `frontend.key`, or null when it is absent. |
| `RaspagerSettings.FrontendKeyOptional` | src/main/java/de/rwth_aachen/afu/raspager/proxy/Settings.java:60 | Adding or removing `frontend.key` never changes whether loading succeeds. |
| `Status.ConnectionStatus.constructor` | src/main/java/de/rwth_aachen/afu/dapnet/proxy/ConnectionStatus.java:36-45 | A new status has the given name, state CONNECTING, and null timestamps. |
| `Status.ConnectionStatus.SetLastUpdate` | src/main/java/de/rwth_aachen/afu/dapnet/proxy/ConnectionStatus.java:70-72 | Changes only the update time. The name is a constant. |
| `Status.ConnectionStatus.SetConnectedSince` | src/main/java/de/rwth_aachen/afu/dapnet/proxy/ConnectionStatus.java:88-90 | Changes only the start time. |
| `Status.ConnectionStatus.SetState` | src/main/java/de/rwth_aachen/afu/dapnet/proxy/ConnectionStatus.java:96-98 | Changes only the state. |
| `StatusRegistry.Registered` | src/main/java/de/rwth_aachen/afu/dapnet/proxy/ConnectionStatusManager.java:46-51 | The value `onRegister` stores: a fresh CONNECTING status for the name, with its update time set to now. |
| `StatusRegistry.Connected` | src/main/java/de/rwth_aachen/afu/dapnet/proxy/ConnectionStatusManager.java:56-63 | What `onConnect` does to a known status: update and start time now, state ONLINE, name kept. |
| `StatusRegistry.Disconnected` | src/main/java/de/rwth_aachen/afu/dapnet/proxy/ConnectionStatusManager.java:70-78 | What `onDisconnect` does to a known status: update time now, no start time, CONNECTING or OFFLINE by the flag. |
| `StatusRegistry.Apply` | src/main/java/de/rwth_aachen/afu/dapnet/proxy/ConnectionStatusManager.java:46-80 | One callback on the whole map: register replaces the entry, connect and disconnect change a known entry and ignore an unknown name. `ApplyEffect` states what it changes and keeps. |
| `StatusRegistry.ApplyEffect` | src/main/java/de/rwth_aachen/afu/dapnet/proxy/ConnectionStatusManager.java:46-80 | Register adds or replaces the entry with a fresh CONNECTING status updated now. Connect on a known name sets ONLINE, with the update and start times both now. Disconnect on a known name clears the start time and sets CONNECTING or OFFLINE by the flag. Unknown names are ignored, and other entries stay the same. |
| `StatusRegistry.ReplayKeys` | src/main/java/de/rwth_aachen/afu/dapnet/proxy/ConnectionStatusManager.java:50-70 | The map's keys are exactly the names ever registered. |
| `StatusRegistry.ReplayEntries` | src/main/java/de/rwth_aachen/afu/dapnet/proxy/ConnectionStatusManager.java:46-78 | Every entry is filed under its own profile name. It always has an update time. It has a start time exactly while ONLINE, and that start time is its update time. |
| `StatusRegistry.ReplayMonotone` | src/main/java/de/rwth_aachen/afu/dapnet/proxy/ProxyStatusManager.java:53-68 | No callback removes an entry. |
| `StatusRegistry.OthersUntouched` | src/main/java/de/rwth_aachen/afu/dapnet/proxy/ConnectionStatusManager.java:55-78 | Callbacks for other names leave an entry exactly as it was. |
| `ConnectionStatusManager.ConnectionStatusManager.constructor` | src/main/java/de/rwth_aachen/afu/dapnet/proxy/ConnectionStatusManager.java:42 | Starts with an empty map. |
| `ConnectionStatusManager.ConnectionStatusManager.OnRegister` | src/main/java/de/rwth_aachen/afu/dapnet/proxy/ConnectionStatusManager.java:46-51 | Puts a fresh status object under the name and keeps every other object. It keeps `Valid`: every stored object holds the replayed value of the callbacks so far, this one included. |
| `ConnectionStatusManager.ConnectionStatusManager.OnConnect` | src/main/java/de/rwth_aachen/afu/dapnet/proxy/ConnectionStatusManager.java:53-65 | Updates the stored object in place and keeps `Valid`, so the stored values become those of `Apply` on the old map. The key set stays the same. |
| `ConnectionStatusManager.ConnectionStatusManager.OnDisconnect` | src/main/java/de/rwth_aachen/afu/dapnet/proxy/ConnectionStatusManager.java:67-80 | Updates the stored object in place and keeps `Valid`, so the stored values become those of `Apply` on the old map. The key set stays the same. |
| `ConnectionStatusManager.ConnectionStatusManager.GetConnections` | src/main/java/de/rwth_aachen/afu/dapnet/proxy/ConnectionStatusManager.java:92-94 | Returns exactly the stored objects, each holding its replayed value. |
| `ConnectionStatusManager.ConnectionStatusManager.Get` | src/main/java/de/rwth_aachen/afu/dapnet/proxy/ConnectionStatusManager.java:103-105 | Returns null exactly for a name never registered. Otherwise it returns the object with exactly that name, holding its replayed value. |
| `ProxyStatusManager.ProxyStatusManager.constructor` | src/main/java/de/rwth_aachen/afu/dapnet/proxy/ProxyStatusManager.java:40 | Starts with an empty map. |
| `ProxyStatusManager.ProxyStatusManager.OnRegister` | src/main/java/de/rwth_aachen/afu/dapnet/proxy/ProxyStatusManager.java:43-49 | Same as for the connection status manager. |
| `ProxyStatusManager.ProxyStatusManager.OnConnect` | src/main/java/de/rwth_aachen/afu/dapnet/proxy/ProxyStatusManager.java:51-63 | Same as for the connection status manager. |
| `ProxyStatusManager.ProxyStatusManager.OnDisconnect` | src/main/java/de/rwth_aachen/afu/dapnet/proxy/ProxyStatusManager.java:65-78 | Same as for the connection status manager. |
| `ProxyStatusManager.ProxyStatusManager.GetConnections` | src/main/java/de/rwth_aachen/afu/dapnet/proxy/ProxyStatusManager.java:85-87 | Exactly the stored objects. |
| `Proxy.Retries` | src/main/java/de/rwth_aachen/afu/dapnet/proxy/ProxyManager.java:158-160 | The retry rule: no shutdown requested and a positive sleep time. |
| `Proxy.Reconnect` | src/main/java/de/rwth_aachen/afu/dapnet/proxy/ProxyManager.java:158-169 | The task `scheduleReconnect` submits: one connect delayed by the sleep time when the rule allows, none otherwise. |
| `Proxy.Notify` | src/main/java/de/rwth_aachen/afu/dapnet/proxy/ProxyManager.java:64-66 | A listener callback is delivered only when a listener is present. |
| `Proxy.Step` | src/main/java/de/rwth_aachen/afu/dapnet/proxy/ProxyManager.java:61-169 | What each entry point adds to the observable trace: queued tasks, listener callbacks, closed channels, and the shutdown and worker-group flags. |
| `Proxy.Run` | src/main/java/de/rwth_aachen/afu/dapnet/proxy/ProxyManager.java:42-169 | The trace of a new manager after a sequence of calls; `Valid()` of the class ties its fields to it, and the lemmas below state its properties. |
| `Proxy.ShutdownRecorded` | src/main/java/de/rwth_aachen/afu/dapnet/proxy/ProxyManager.java:72-88 | Shutdown is requested, and the worker group stopped, exactly when `shutdown` has been called. |
| `Proxy.NoReconnectAfterShutdown` | src/main/java/de/rwth_aachen/afu/dapnet/proxy/ProxyManager.java:158-169 | After `shutdown`, neither a close nor a failed connect schedules anything more. The only new tasks are the immediate connects of later `openConnection` calls, which the model accepts (see "Left out" for a terminated worker group). |
| `Proxy.ReconnectDelays` | src/main/java/de/rwth_aachen/afu/dapnet/proxy/ProxyManager.java:159-163 | Every delayed connect waits its profile's reconnect sleep time, which is positive. |
| `Proxy.ListenerCallbacks` | src/main/java/de/rwth_aachen/afu/dapnet/proxy/ProxyManager.java:61-156 | With a null listener, no callback fires. With one, the counts match: registration callbacks equal `openConnection` calls, connect callbacks equal successful connects, disconnect callbacks equal closes, and shutdown callbacks equal `shutdown` calls. A failed connect fires nothing. |
| `Proxy.ConnectionState.constructor` | src/main/java/de/rwth_aachen/afu/dapnet/proxy/ProxyManager.java:176-179 | Holds the settings and the channel. |
| `Proxy.ProxyManager.constructor` | src/main/java/de/rwth_aachen/afu/dapnet/proxy/ProxyManager.java:42-54 | No live connections, shutdown not requested, all logs empty. |
| `Proxy.ProxyManager.OpenConnection` | src/main/java/de/rwth_aachen/afu/dapnet/proxy/ProxyManager.java:61-67 | Submits one immediate connect, then fires `onRegister` for the profile if there is a listener. Nothing else changes. |
| `Proxy.ProxyManager.Shutdown` | src/main/java/de/rwth_aachen/afu/dapnet/proxy/ProxyManager.java:72-88 | Sets the shutdown flag, fires `onShutdown` if there is a listener, and stops the worker group. A throwing listener changes none of this. |
| `Proxy.ProxyManager.OnConnectSucceeded` | src/main/java/de/rwth_aachen/afu/dapnet/proxy/ProxyManager.java:117-130 | Adds a fresh connection state for this channel to the live set, and fires `onConnect` if there is a listener. No task is scheduled. |
| `Proxy.ProxyManager.ConnectFailed` | src/main/java/de/rwth_aachen/afu/dapnet/proxy/ProxyManager.java:107-114 | Closes the channel and schedules what `scheduleReconnect` decides. It fires no callback and leaves the live set alone. |
| `Proxy.ProxyManager.OnConnectFailed` | src/main/java/de/rwth_aachen/afu/dapnet/proxy/ProxyManager.java:132-142 | Only schedules the reconnect the retry rule allows. |
| `Proxy.ProxyManager.OnClose` | src/main/java/de/rwth_aachen/afu/dapnet/proxy/ProxyManager.java:144-156 | Removes the state from the live set and schedules what the retry rule allows. It then reports `onDisconnect` with exactly that decision. |
| `Proxy.ProxyManager.ScheduleReconnect` | src/main/java/de/rwth_aachen/afu/dapnet/proxy/ProxyManager.java:158-169 | Returns true exactly when shutdown has not been requested and the sleep time is positive. In that case it schedules one connect after the sleep time; otherwise it schedules nothing. |

## Left out

- Netty itself is not modelled: pipelines, bootstraps, channel futures, byte encoding (`StringEncoder`/`StringDecoder` and charsets) and the frame decoders' internals. The line splitter models the line-delimited frame decoder; all four pipelines use it with a limit of 1024, and the encoder test uses a limit of 64.
- `channelActive`, `channelInactive` and `exceptionCaught` of the backend handler are one-line I/O (a log line, a read request, a close), so they are not modelled.
- Read requests other than the one the write-completion listener makes (`BackendHandler.ForwardCompleted`) are not modelled; channels are not auto-read. `ReadsFollowForwards` shows that a suppressed keep-alive reply requests no further read. So if the two reply lines arrive in separate reads, the second may only come once something else reads; this depends on Netty's buffering and is not analysed here. The pairing of each completion with its write is by count only: the model does not say which forwarded line a completion belongs to.
- Concurrency: `ConcurrentHashMap`, `synchronized`, `volatile` and the ordering of event-loop callbacks. All calls are sequential.
- Time: `Instant.now()` is the `now` parameter. Logging is dropped.
- Host names are never resolved: an address is an unresolved host/port pair.
- `Settings.fromFile` and the raspager `Settings` file read (`FileInputStream`, `Properties.load`), with their I/O exceptions: the model starts from the loaded property map.
- The REST servers are not modelled: `start` and `shutdown` of both status managers, `onShutdown` of `ConnectionStatusManager` (which only stops its server), and `ConnectionStatusResource`.
- `ProxyManager.run` and the connect attempt in `doConnect` are left out. The outcome of a connect is the choice of calling `OnConnectSucceeded` or `ConnectFailed`.
- `ProxyService`, `Program`, `FrontendHandler`, the raspager `BackendHandler` and the initializers are bootstrap and I/O.
- `Proxy.ProxyManager.OpenConnection`: always queues the connect and fires `onRegister`. In the source, `workerGroup.submit` is accepted while the group shuts down gracefully, but once `shutdownGracefully` has terminated the group it throws `RejectedExecutionException`: then no connect is queued and `onRegister` does not fire. Termination happens after Netty's quiet period, which is timing the model does not have.
- `Proxy.ProxyManager.Shutdown`: an exception from `onShutdown` is not modelled separately, because it is caught and only logged; the call goes on exactly as after a normal return.
- `Decimal.ParseInteger`: accepts ASCII digits only; Java's parsers also accept other Unicode decimal digits.
- The three-valued connection state needs no proof; the datatype has exactly those three values.
