# Detox core, modelled in Dafny

This project models the core of Detox, a gray-box end-to-end testing framework for mobile apps, and proves properties of the model. The core covered is:

- the test-side session client, with its barriers, in-flight requests, slow-invocation probe and crash handling;
- configuration composition;
- the Genymotion-cloud driver, including its global teardown;
- the export wrapper around the `Detox` instance;
- the device-driver registry;
- the console-to-logger bridge;
- the artifact timestamp;
- the user launch-argument map.

Four more components are modelled from their test files, because their implementations are not part of this model: the `Detox` orchestrator, the device lease registry, the base artifact plugin, and the naming of Genymotion-cloud instances.

One module per source file, all verified together:

| file | module | models |
|---|---|---|
| `common.dfy` | `Common` | `Option`/`Result`, JavaScript truthiness of optional strings, canonical decimal strings |
| `client.dfy` | `SessionClient` | class `Client` (`detox/src/client/Client.js`) |
| `configuration.dfy` | `Configuration` | `detox/src/configuration.js`; class `DeviceConfig` is rewritten in place |
| `genycloud.dfy` | `GenyCloud` | class `Driver` and the global cleanup (`GenyCloudDriver.js`) |
| `export_wrapper.dfy` | `ExportWrapper` | class `Wrapper` with its one slot (`DetoxExportWrapper.js`) |
| `driver_registry.dfy` | `DriverRegistry` | `DriverRegistry.resolve` and the default table |
| `console_logger.dfy` | `ConsoleLogger` | class `Console` and the proxies (`customConsoleLogger.js`) |
| `timestamp.dfy` | `TimeStamp` | `getTimeStampString` |
| `launch_args.dfy` | `LaunchArgs` | class `AppLaunchArgs` (`detox/index.d.ts`) |
| `orchestrator.dfy` | `Orchestrator` | class `Detox` as `Detox.test.js` stages it |
| `device_registry.dfy` | `DeviceRegistry` | classes `Ledger` and `Registry` as `DeviceRegistry.test.js` describes them |
| `artifact_plugin.dfy` | `ArtifactPlugin` | class `Plugin` as `ArtifactPlugin.test.js` describes it |
| `instance_naming.dfy` | `InstanceNaming` | `generateName`/`isFamilial` as `GenyInstanceNaming.test.js` describes them |

Some things are inputs to the model rather than part of it:

- Every asynchronous reply is a parameter: an `Answer` for a request that settles, or `NoReply` for one that stays in flight. `NoReply` is available to every request, including Login, Ready, Cleanup and ReloadReactNative.
- Timers are handles that an explicit event fires.
- Clocks, environment variables, the free port, generated ids and command-line values are parameters.
- Collaborators the core calls without seeing inside (devices, the artifacts manager, the cloud CLI) are an ordered log of calls.

## Model

| member | source | states |
|---|---|---|
| `Common.NatToString` | detox/src/configuration.js:63 | the decimal form of a port is a non-empty string of digits |
| `Common.NatToStringInjective` | detox/src/configuration.js:63 | different numbers have different decimal forms |
| `Common.IntToString` | detox/src/devices/drivers/android/genycloud/services/GenyInstanceNaming.test.js:30-33 | a negative number's form starts with `-`; a non-negative one's does not |
| `Common.IntToStringInjective` | detox/src/devices/drivers/android/genycloud/services/GenyInstanceNaming.test.js:35-43 | different integers have different decimal forms |
| `SessionClient.PendingListingContents` | detox/src/client/Client.js:93-106 | a request is listed by `dumpPendingRequests` exactly when it is in flight and is not a CurrentStatus query |
| `SessionClient.PendingListingOrdered` | detox/src/client/Client.js:98-106 | the listing is in strictly ascending message-id order, so no request is listed twice |
| `SessionClient.PendingListingEmpty` | detox/src/client/Client.js:106-108 | the listing is empty exactly when every in-flight request is a status query |
| `SessionClient.Client.constructor` | detox/src/client/Client.js:19-47 | a new client is closed, with both barriers unresolved, nothing in flight, no timers, no crash, and a successful run so far |
| `SessionClient.Client.ScheduleSlowInvocationQuery` | detox/src/client/Client.js:252-272 | the probe is armed iff the debug timeout is positive and the client is not cleaning up; otherwise the handle is cleared |
| `SessionClient.Client.UnscheduleSlowInvocationQuery` | detox/src/client/Client.js:274-279 | the probe handle is cleared |
| `SessionClient.Client.UnscheduleAppTermination` | detox/src/client/Client.js:291-296 | the termination handle is cleared |
| `SessionClient.Client.ResetBarriers` | detox/src/client/Client.js:326-327 | both barriers are replaced by new, unresolved ones, and suspended waiters stay consistent |
| `SessionClient.Client.SendAction` | detox/src/client/Client.js:135-177 | the message gets the next id. A monitored action arms the probe and clears it once settled; Login and CurrentStatus never touch it. A server-error reply or a failed handler throws. A request without a reply stays in flight |
| `SessionClient.Client.AfterStatusQuery` | detox/src/client/Client.js:255-267 | a status reply is logged and re-arms the probe; a failed query clears the handle and stops polling |
| `SessionClient.Client.FireSlowInvocationQuery` | detox/src/client/Client.js:254-268 | a firing probe sends an unmonitored CurrentStatus and then polls again or stops, according to the reply |
| `SessionClient.Client.Respond` | detox/src/client/Client.js:122-162 | a late reply settles its request and removes it from the table. A failed Invoke marks the run unsuccessful; a monitored action clears the probe |
| `SessionClient.Client.Connect` | detox/src/client/Client.js:63-69 | the connected barrier is resolved only when the socket opens and the Login reply says the app is connected. Without a reply the Login stays in flight and `connect` stays pending; a refused Login is thrown |
| `SessionClient.Client.Cleanup` | detox/src/client/Client.js:71-87 | it marks cleaning-up and clears the probe. Cleanup, carrying the success flag, is sent only when connected, and both barriers are reset only when it succeeds. The socket is closed once the exchange has settled either way; while the Cleanup is unanswered it stays in flight and the socket stays open |
| `SessionClient.Client.CleanupExchange` | detox/src/client/Client.js:76-81 | the Cleanup request carries the run's success flag and stays in flight until answered; its success replaces both barriers and its failure is thrown |
| `SessionClient.Client.Execute` | detox/src/client/Client.js:122-133 | an Invoke is sent; a thrown result marks the run unsuccessful and is returned as thrown |
| `SessionClient.Client.ReadyStep` | detox/src/client/Client.js:194-201 | Ready is sent only when the ready barrier is unresolved. It stays in flight until answered, keeping the probe armed; its success resolves the barrier |
| `SessionClient.Client.WaitUntilReady` | detox/src/client/Client.js:185-202 | with the app not connected, the call suspends with the waiting flag set; otherwise the flag ends cleared and the Ready step runs, which may itself stay pending |
| `SessionClient.Client.ResumeWaitUntilReady` | detox/src/client/Client.js:187-201 | a suspended call resumes only on a resolved barrier of its own generation. Its `finally` clears the waiting flag, then the Ready step runs |
| `SessionClient.Client.ReloadReactNative` | detox/src/client/Client.js:179-183 | the ready barrier is replaced, and it is resolved exactly when the reload succeeds; an unanswered reload stays in flight and leaves the barrier unresolved |
| `SessionClient.Client.DumpPendingRequests` | detox/src/client/Client.js:93-120 | it returns the ordered listing and reports an unreachable app while waiting for a connection. It warns only when the listing is non-empty, and then empties the in-flight table |
| `SessionClient.Client.OnAppConnected` | detox/src/client/Client.js:298-300 | the connected barrier is resolved |
| `SessionClient.Client.OnAppReady` | detox/src/client/Client.js:302-304 | the ready barrier is resolved |
| `SessionClient.Client.OnAppUnresponsive` | detox/src/client/Client.js:306-316 | exactly one warning, carrying the thread dump, is logged |
| `SessionClient.Client.OnUnhandledServerError` | detox/src/client/Client.js:344-352 | exactly one error is logged, whether or not the message carries an error |
| `SessionClient.Client.OnBeforeAppCrash` | detox/src/client/Client.js:318-328 | the crash is stored with the app's error details; the probe is cleared, both barriers are replaced and termination is armed |
| `SessionClient.Client.OnAppDisconnected` | detox/src/client/Client.js:330-342 | both timers are cleared and both barriers reset. Every in-flight request is rejected, with the stored crash or else a disconnect error, and the crash slot is emptied |
| `SessionClient.Client.ClearTimersAndBarriers` | detox/src/client/Client.js:331-334 | no timer is left and both barriers are new and unresolved |
| `SessionClient.Client.RejectInFlight` | detox/src/client/Client.js:336-341 | each in-flight request is rejected with the crash if there is one, else with the disconnect error, and the table and crash slot end empty |
| `SessionClient.Client.FireAppTermination` | detox/src/client/Client.js:281-289 | the delayed termination asks the app to terminate once; a failure is only logged |
| `SessionClient.CrashThenDisconnect` | detox/src/client/Client.js:318-342 | a crash followed by a disconnect rejects every request in flight with that crash's details and leaves the client disconnected |
| `SessionClient.SlowActionIsPolled` | detox/src/client/Client.js:155-162 | while a monitored action is awaited the probe polls and logs the status, and the action settling clears the probe |
| `SessionClient.UnansweredLogin` | detox/src/client/Client.js:63-120 | with no Login acknowledgment, `connect` stays pending, the connected barrier stays unresolved and `waitUntilReady` suspends. A dump of pending requests reports the app as unreachable and lists the Login |
| `Configuration.ResolveDevice` | detox/src/configuration.js:137-140 | the device is the first truthy of the override, the device and the name; it is empty only when all three are |
| `Configuration.DeviceConfig.constructor` | detox/src/configuration.js:114-115 | a configuration holds the fields it is given |
| `Configuration.SelectSingle` | detox/src/configuration.js:124-125 | with no name and exactly one configuration, that one is chosen |
| `Configuration.SelectByName` | detox/src/configuration.js:121-126 | a given name chooses the configuration stored under it |
| `Configuration.SelectMissing` | detox/src/configuration.js:126-131 | a name absent from the configurations chooses nothing, however many there are |
| `Configuration.FindKey` | detox/src/configuration.js:84-86 | the key found is that of the first entry holding the object, and it exists iff some entry holds it |
| `Configuration.FindKeyOfSelected` | detox/src/configuration.js:83-86 | the key found for the chosen configuration is the name that chose it |
| `Configuration.ComposeDeviceConfig` | detox/src/configuration.js:114-145 | it throws for no configurations, no choice, or a missing `type`, leaving every configuration unchanged. Otherwise the chosen configuration gets its resolved device and loses its `name`, even when the device then turns out empty and throws |
| `Configuration.FirstDefined` | detox/src/configuration.js:29 | the reference reading of `defaultsDeep` on one flag is defined iff some layer defines it, and then it is the earliest such value |
| `Configuration.FirstDefinedOfFive` | detox/src/configuration.js:29-57 | over five layers, the first defined value is the chain of fills |
| `Configuration.DefaultsDeepIsFirstDefined` | detox/src/configuration.js:29-57 | `defaultsDeep`, applied left to right, gives every flag its first defined value across the layers |
| `Configuration.DefaultsDeepOfFive` | detox/src/configuration.js:29-57 | `defaultsDeep` of five layers, unrolled flag by flag |
| `Configuration.ComposeBehavior` | detox/src/configuration.js:28-58 | the composed flags are all defined |
| `Configuration.BehaviorPrecedence` | detox/src/configuration.js:28-58 | precedence is the command line, then user params, device, detox config and defaults. `--reuse` forces reinstall off and `--cleanup` forces shutdown on |
| `Configuration.UserReuseWins` | detox/src/configuration.js:32-44 | with user params, reinstall is `!reuse` whatever the files say; only the `--reuse` flag beats it |
| `Configuration.BehaviorDefaults` | detox/src/configuration.js:47-56 | with nothing set, reinstall, launch and expose are on and shutdown is off |
| `Configuration.ComposeSession` | detox/src/configuration.js:60-76 | the session is the device's, else detox's, else the default. It fails on a missing server before checking the session id, and returns the chosen session otherwise |
| `Configuration.DefaultSessionServer` | detox/src/configuration.js:61-65 | the default session always has a server, so only an empty generated id can fail it |
| `Configuration.ExtendArtifactsConfig` | detox/src/configuration.js:200-221 | the input is returned as is without plugins. Otherwise the five known plugins are always written, a string value parsed and anything else kept; other plugin keys and the remaining settings are kept |
| `Configuration.ExtendIdempotent` | detox/src/configuration.js:200-221 | extending twice is extending once |
| `Configuration.ExtendKeepsSettings` | detox/src/configuration.js:212-221 | a settings object is not passed to the parser |
| `Configuration.ComposeDetoxConfig` | detox/src/configuration.js:78-112 | a missing config throws first. The device-configuration errors come back exactly as `composeDeviceConfig` raises them, and a session error as `composeSessionConfig` raises it. Otherwise the result holds the chosen device configuration, its key, the composed behaviour and the session. Only the chosen configuration is rewritten |
| `GenyCloud.VersionLtStrictTotal` | detox/src/devices/drivers/android/genycloud/GenyCloudDriver.js:97-105 | the version order is a strict total order |
| `GenyCloud.VersionGate` | detox/src/devices/drivers/android/genycloud/GenyCloudDriver.js:97-105 | a version passes iff it is at least 1.6.0, whatever the patch |
| `GenyCloud.VersionGateExamples` | detox/src/devices/drivers/android/genycloud/GenyCloudDriver.js:97-105 | 1.5.9 and 0.6.0 are refused; 1.6.0 and 1.7.2 pass |
| `GenyCloud.Driver.constructor` | detox/src/devices/drivers/android/genycloud/GenyCloudDriver.js:24-44 | until a device is acquired the driver's name is the unspecified-emulator name |
| `GenyCloud.Driver.Prepare` | detox/src/devices/drivers/android/genycloud/GenyCloudDriver.js:46-49 | it succeeds iff the version is recent enough and the login email is truthy. The version is checked first, and the login is not queried when the version fails |
| `GenyCloud.Driver.AcquireFreeDevice` | detox/src/devices/drivers/android/genycloud/GenyCloudDriver.js:51-64 | without a recipe it fails before any allocation. Otherwise it allocates, emits `bootDevice` (cold iff the instance is new), disables animations and takes the instance's name |
| `GenyCloud.Driver.Shutdown` | detox/src/devices/drivers/android/genycloud/GenyCloudDriver.js:79-86 | it emits `beforeShutdownDevice` and deletes the instance. Only a successful deletion disposes it and emits `shutdownDevice`; a failure is returned |
| `GenyCloud.Driver.Cleanup` | detox/src/devices/drivers/android/genycloud/GenyCloudDriver.js:74-77 | the instance is disposed from the runtime registry before the Android cleanup |
| `GenyCloud.AssertRecipe` | detox/src/devices/drivers/android/genycloud/GenyCloudDriver.js:88-95 | it fails iff no recipe was found, naming the device query |
| `GenyCloud.FailuresSnoc` | detox/src/devices/drivers/android/genycloud/GenyCloudDriver.js:142-145 | one more deletion adds a leak exactly when it was rejected |
| `GenyCloud.FailuresExact` | detox/src/devices/drivers/android/genycloud/GenyCloudDriver.js:142-145 | a leak is reported iff its handle's deletion was rejected, with that reason; there are never more leaks than handles |
| `GenyCloud.NoFailures` | detox/src/devices/drivers/android/genycloud/GenyCloudDriver.js:142-145 | when every deletion succeeds there are no leaks |
| `GenyCloud.CountWarningsAppend` | detox/src/devices/drivers/android/genycloud/GenyCloudDriver.js:151-167 | warnings count additively over concatenated logs |
| `GenyCloud.ReportGlobalCleanupSummary` | detox/src/devices/drivers/android/genycloud/GenyCloudDriver.js:151-167 | no leaks gives one success line. Otherwise there is a header warning, one warning per leak in order, and a completed-with-warnings line, so there are leaks + 1 warnings |
| `GenyCloud.DoSafeCleanup` | detox/src/devices/drivers/android/genycloud/GenyCloudDriver.js:139-149 | every handle is deleted and the leaks are exactly the rejected deletions. The log is the teardown line followed by the summary: one success line, or a header, one warning per leak in order, and a completed-with-warnings line |
| `GenyCloud.GlobalCleanup` | detox/src/devices/drivers/android/genycloud/GenyCloudDriver.js:128-136 | the cloud service is built and the teardown runs iff there are registered handles |
| `GenyCloud.AsLeaks` | detox/src/devices/drivers/android/genycloud/GenyCloudDriver.js:121-123 | on a signal, every registered handle is reported as a leak without an error |
| `GenyCloud.OnSignalExit` | detox/src/devices/drivers/android/genycloud/GenyCloudDriver.js:116-126 | a summary is written only on a signal with registered handles. It is the header, then one leak warning per registered handle in registry order, with no error, then the completed-with-warnings line |
| `ExportWrapper.Placeholder.constructor` | detox/src/DetoxExportWrapper.js:12 | the placeholder starts with no context and no recorded error |
| `ExportWrapper.InstallsGlobalsCases` | detox/src/DetoxExportWrapper.js:33 | globals are installed unless `initGlobals` is exactly `false` |
| `ExportWrapper.Wrapper.constructor` | detox/src/DetoxExportWrapper.js:11-30 | the slot starts as the placeholder |
| `ExportWrapper.Wrapper.Init` | detox/src/DetoxExportWrapper.js:32-51 | the placeholder's context is installed first. A failed composition records the error on the placeholder and leaves the slot as it was. Otherwise a new instance fills the slot before its `init` runs, and a failed `init` is rethrown |
| `ExportWrapper.Wrapper.Cleanup` | detox/src/DetoxExportWrapper.js:53-60 | the context is always uninstalled. A live instance is cleaned up and the slot reset, but only when its cleanup does not throw |
| `ExportWrapper.Wrapper.Forward` | detox/src/DetoxExportWrapper.js:62-70 | a passthrough member is forwarded, by its own name, to whatever the slot holds at call time |
| `ExportWrapper.InitForwardCleanup` | detox/src/DetoxExportWrapper.js:32-66 | init, a forwarded call and cleanup clean exactly the instance init made and leave the placeholder in the slot |
| `ExportWrapper.FailedInitIsCleaned` | detox/src/DetoxExportWrapper.js:40-60 | an instance whose `init` failed stays in the slot until `cleanup` cleans it; the error is not recorded as a composition error |
| `DriverRegistry.Resolve` | detox/src/devices/DriverRegistry.js:6-21 | the table wins; otherwise a loadable module of that name is used. A type in neither is refused with a message naming it, and the options are passed along |
| `DriverRegistry.ResolveKeepsOpts` | detox/src/devices/DriverRegistry.js:20 | the driver is built with the caller's options |
| `DriverRegistry.UnsupportedMessageNamesType` | detox/src/devices/DriverRegistry.js:16-18 | different types give different refusal messages |
| `DriverRegistry.DefaultRegistryTypes` | detox/src/devices/DriverRegistry.js:24-29 | the default table holds exactly the four built-in device types |
| `DriverRegistry.DefaultTableWins` | detox/src/devices/DriverRegistry.js:7-29 | `ios.simulator` resolves to the simulator driver whatever modules are loadable |
| `DriverRegistry.DefaultRegistryRefuses` | detox/src/devices/DriverRegistry.js:9-29 | `android.genycloud` is not built in, and with nothing loadable it is refused |
| `ConsoleLogger.ProxyFor` | detox/src/utils/customConsoleLogger.js:20-28 | `trace` gets the tracing proxy, `assert` the assert proxy and every other method the plain one, each bound to the given logger level |
| `ConsoleLogger.InstalledMapping` | detox/src/utils/customConsoleLogger.js:52-57 | log and trace map to info, warn to warn, error and assert to error, and debug to debug |
| `ConsoleLogger.Console.constructor` | detox/src/utils/customConsoleLogger.js:48-49 | a console starts with its native methods and no marker |
| `ConsoleLogger.Console.Override` | detox/src/utils/customConsoleLogger.js:20-28 | only the named slot changes |
| `ConsoleLogger.Console.OverrideConsoleMethods` | detox/src/utils/customConsoleLogger.js:48-63 | an unmarked console gets the six proxies and the marker; a marked one is left alone; the console is returned either way |
| `ConsoleLogger.InstallTwice` | detox/src/utils/customConsoleLogger.js:48-63 | a second install, even for another logger, keeps the first |
| `ConsoleLogger.Forward` | detox/src/utils/customConsoleLogger.js:30-46 | a proxy logs nothing iff it is the assert proxy with a truthy condition. Every record goes to the bound logger and level, is tagged as a user log, and starts with the origin and the formatted text |
| `ConsoleLogger.InstalledForwarding` | detox/src/utils/customConsoleLogger.js:30-57 | through the installed mapping, only a passing `assert` stays silent |
| `ConsoleLogger.PositionText` | detox/src/utils/customConsoleLogger.js:17 | a missing or zero line or column prints as `?` |
| `ConsoleLogger.GetOrigin` | detox/src/utils/customConsoleLogger.js:11-18 | the origin is `at <file>:<line>:<column>`. The file is the path relative to the working directory, or `<unknown>` without a file name. A missing or zero position prints as `?`, and without a callsite the origin is `at <unknown>:?:?` |
| `ConsoleLogger.OriginFields` | detox/src/utils/customConsoleLogger.js:16-17 | when the file part has no colon, the origin holds exactly two colons, and the file, line and column text can be read back between them |
| `ConsoleLogger.OriginEndsWithColumn` | detox/src/utils/customConsoleLogger.js:17 | the origin ends with the column text after its last colon |
| `TimeStamp.IndexOf` | detox/src/artifacts/utils/getTimeStampString.js:3 | the index found is the first occurrence of the character |
| `TimeStamp.FirstMillis` | detox/src/artifacts/utils/getTimeStampString.js:4 | the position found is the first where a dot and three digits match |
| `TimeStamp.ReplaceFirstT` | detox/src/artifacts/utils/getTimeStampString.js:3 | only the first `T` becomes a space; a string without `T` is unchanged |
| `TimeStamp.RemoveFirstMillis` | detox/src/artifacts/utils/getTimeStampString.js:4 | only the first match is cut out, the rest keeping its order; without a match the string is unchanged |
| `TimeStamp.IsoTimeStamp` | detox/src/artifacts/utils/getTimeStampString.js:1-5 | any `toISOString` result becomes `YYYY-MM-DD HH:mm:ssZ`, everything else in place |
| `TimeStamp.TimeStampExample` | detox/src/artifacts/utils/getTimeStampString.js:1-5 | `2020-04-27T11:25:43.123Z` becomes `2020-04-27 11:25:43Z` |
| `LaunchArgs.ApplyModifier` | detox/index.d.ts:286-289 | a concrete modifier value sets its key, a null or undefined one removes it, and keys the modifier does not name are untouched |
| `LaunchArgs.ModifyIdempotent` | detox/index.d.ts:286-311 | applying the same modifier twice is applying it once |
| `LaunchArgs.EmptyModifierKeeps` | detox/index.d.ts:286-311 | an empty modifier changes nothing |
| `LaunchArgs.ModifyAfterReset` | detox/index.d.ts:286-316 | after a reset, a modifier leaves exactly its concrete keys |
| `LaunchArgs.LaunchArguments` | detox/index.d.ts:361-381 | a launch passes every stored key, with the launch's own values overriding key by key |
| `LaunchArgs.AppLaunchArgs.constructor` | detox/index.d.ts:283-285 | the stored arguments are the ones given |
| `LaunchArgs.AppLaunchArgs.Modify` | detox/index.d.ts:286-311 | applying the modifier one key at a time, in any order, yields `ApplyModifier` of the old arguments |
| `LaunchArgs.AppLaunchArgs.Reset` | detox/index.d.ts:313-316 | the arguments become empty |
| `LaunchArgs.AppLaunchArgs.Get` | detox/index.d.ts:318-323 | the copy equals the current arguments |
| `LaunchArgs.ModifyExample` | detox/index.d.ts:293-309 | `{1234, credentials}` modified by `{4321, null, 'abcdef'}` gives `{mockServerPort: 4321, mockServerToken: 'abcdef'}` |
| `LaunchArgs.LaunchExample` | detox/index.d.ts:366-381 | the launch's token `uvwxyz` beats the stored `abcdef` for that launch, and the stored arguments keep `abcdef` |
| `LaunchArgs.GetIsSnapshot` | detox/index.d.ts:318-323 | a copy taken by `get` is unaffected by a later reset and modify |
| `Orchestrator.InitPlanSteps` | detox/src/Detox.test.js:79-159 | a step is in the init plan iff the behaviour asks for it. The server starts only on auto-start and globals are exposed only when asked. Uninstall and install happen iff reinstall is set, and launch, as a new instance, iff launch is set |
| `Orchestrator.InitOrder` | detox/src/Detox.test.js:98-155 | the client connects before the device is prepared, which precedes uninstalling, then installing; launching is last |
| `Orchestrator.ValidateSummary` | detox/src/Detox.test.js:302-320 | a summary passes iff it is an object with a valid status; a non-object and an invalid status get their own errors |
| `Orchestrator.CrashRecovery` | detox/src/Detox.test.js:334-358 | a pending crash is logged and the app relaunched as a new instance; without one nothing happens |
| `Orchestrator.AfterEachCalls` | detox/src/Detox.test.js:396-437 | `afterEach` traces and reports the test done, and dumps pending requests iff the test timed out |
| `Orchestrator.BeforeEachCalls` | detox/src/Detox.test.js:322-358 | `beforeEach` traces first and reports the test start last, and never dumps pending requests |
| `Orchestrator.CleanupCalls` | detox/src/Detox.test.js:503-530 | cleanup notifies the artifacts manager and dumps pending requests, and shuts the device down iff `shutdownDevice` is set |
| `Orchestrator.Detox.constructor` | detox/src/Detox.test.js:60-64 | a new orchestrator is idle, with no init promise |
| `Orchestrator.Detox.Init` | detox/src/Detox.test.js:161-168 | the first call starts init and every later call returns the same promise |
| `Orchestrator.Detox.Step` | detox/src/Detox.test.js:79-159 | each step performs the next planned step; the last one makes the orchestrator ready and resolves init |
| `Orchestrator.Detox.AbortPendingInit` | detox/src/Detox.test.js:284-294 | a pending init is rejected as aborted |
| `Orchestrator.Detox.BeforeEach` | detox/src/Detox.test.js:274-358 | during init it aborts init and fails the same way. Before init it fails as not initialised, after validating the summary. When ready it validates the summary, then recovers a crash |
| `Orchestrator.Detox.AfterEach` | detox/src/Detox.test.js:362-437 | the same phases as `BeforeEach`; when ready it reports the test done, recovers a crash and dumps pending requests on a timeout |
| `Orchestrator.Detox.SuiteStart` | detox/src/Detox.test.js:533-543 | when ready, the suite is passed to the artifacts manager |
| `Orchestrator.Detox.SuiteEnd` | detox/src/Detox.test.js:545-555 | when ready, the suite end is passed to the artifacts manager |
| `Orchestrator.Detox.Cleanup` | detox/src/Detox.test.js:440-530 | before init it does nothing. During init it aborts init at whatever step it is. After init it runs the cleanup calls |
| `Orchestrator.RunInit` | detox/src/Detox.test.js:79-159 | init run to completion performs every planned step in order and resolves |
| `Orchestrator.InitTwice` | detox/src/Detox.test.js:161-168 | two init calls return the identical promise |
| `Orchestrator.HookDuringInit` | detox/src/Detox.test.js:284-294 | a hook during a pending init rejects both the hook and init as aborted |
| `DeviceRegistry.Ledger.constructor` | detox/src/devices/DeviceRegistry.test.js:8-12 | a new ledger holds no lease |
| `DeviceRegistry.Ledger.Clear` | detox/src/devices/DeviceRegistry.test.js:8-12 | `clear` empties the ledger |
| `DeviceRegistry.FirstFree` | detox/src/devices/DeviceRegistry.test.js:62-77 | the id handed out is the first candidate nobody holds; there is none iff every candidate is held |
| `DeviceRegistry.Registry.constructor` | detox/src/devices/DeviceRegistry.test.js:8-12 | a registry shares the ledger it is given and has created nothing |
| `DeviceRegistry.Registry.CreateMissing` | detox/src/devices/DeviceRegistry.test.js:16-40 | one device of the type is created per runner the candidates cannot cover |
| `DeviceRegistry.Registry.GetDevice` | detox/src/devices/DeviceRegistry.test.js:14-100 | it creates what is missing and leases the first free candidate. When every candidate is held it fails and the ledger is unchanged |
| `DeviceRegistry.Registry.FreeDevice` | detox/src/devices/DeviceRegistry.test.js:45-58 | the freed id leaves the ledger |
| `DeviceRegistry.LeasedNeverFirstFree` | detox/src/devices/DeviceRegistry.test.js:79-85 | a leased id is never handed out |
| `DeviceRegistry.FreedFirstIsNext` | detox/src/devices/DeviceRegistry.test.js:45-58 | freeing the first candidate makes it the one handed out next |
| `DeviceRegistry.FirstCandidateIsReturned` | detox/src/devices/DeviceRegistry.test.js:62-77 | with a fresh ledger, `id-0-of-type-iPhoneX` is returned however many candidates there are |
| `DeviceRegistry.CreateDeviceCount` | detox/src/devices/DeviceRegistry.test.js:16-40 | four runners and one candidate create three devices; one runner and one candidate create none |
| `DeviceRegistry.LeasesAreShared` | detox/src/devices/DeviceRegistry.test.js:79-100 | an id taken through one registry is refused through another over the same ledger until it is freed |
| `ArtifactPlugin.ContextAfter` | detox/src/artifacts/templates/plugin/ArtifactPlugin.test.js:74-231 | onBefore* hooks change nothing. `onLaunchApp` sets bundle, args and pid but not the device, and `onBootDevice` sets the device and nothing else. `onTerminateApp` clears the app fields and `onShutdownDevice` also the device. Test and suite hooks set or clear their field, and other keys survive |
| `ArtifactPlugin.LaunchThenTerminate` | detox/src/artifacts/templates/plugin/ArtifactPlugin.test.js:97-155 | after a launch and a termination only the device stays known |
| `ArtifactPlugin.BootThenLaunchExample` | detox/src/artifacts/templates/plugin/ArtifactPlugin.test.js:97-116 | the tests' boot and launch leave the expected context, extra key included |
| `ArtifactPlugin.ShouldKeep` | detox/src/artifacts/templates/plugin/ArtifactPlugin.test.js:270-319 | nothing is kept when disabled; otherwise every status is kept, or only `failed` when keep-only-failed is set |
| `ArtifactPlugin.KeepOnlyFailedKeepsLess` | detox/src/artifacts/templates/plugin/ArtifactPlugin.test.js:275-319 | keeping only failed tests keeps a subset of what keeping all keeps |
| `ArtifactPlugin.Plugin.constructor` | detox/src/artifacts/templates/plugin/ArtifactPlugin.test.js:25-29 | a new plugin is named after its class, disabled, and keeps every test's artifacts |
| `ArtifactPlugin.Plugin.Disable` | detox/src/artifacts/templates/plugin/ArtifactPlugin.test.js:31-72 | the plugin ends disabled, and it warns once iff it was enabled and a reason is given |
| `ArtifactPlugin.Plugin.Run` | detox/src/artifacts/templates/plugin/ArtifactPlugin.test.js:74-231 | a hook updates the context as `ContextAfter` says, unless `onTerminate` has silenced it |
| `ArtifactPlugin.Plugin.OnTerminate` | detox/src/artifacts/templates/plugin/ArtifactPlugin.test.js:233-266 | the first call disables with the termination reason and silences the hooks; later calls change nothing |
| `ArtifactPlugin.TerminateTwice` | detox/src/artifacts/templates/plugin/ArtifactPlugin.test.js:233-266 | terminating twice disables once, and a silenced hook afterwards leaves the context as it was |
| `InstanceNaming.GenerateName` | detox/src/devices/drivers/android/genycloud/services/GenyInstanceNaming.test.js:21-43 | a name is `Detox-<start>.` followed by the worker id when it is non-empty, else by `now - start` |
| `InstanceNaming.GeneratedIsFamilial` | detox/src/devices/drivers/android/genycloud/services/GenyInstanceNaming.test.js:21-46 | every generated name belongs to its session's family |
| `InstanceNaming.TimeSuffixDistinguishes` | detox/src/devices/drivers/android/genycloud/services/GenyInstanceNaming.test.js:35-43 | without a worker id, different clock readings give different names |
| `InstanceNaming.FamiliesAreDisjoint` | detox/src/devices/drivers/android/genycloud/services/GenyInstanceNaming.test.js:45-50 | no name belongs to the families of two different session starts |
| `InstanceNaming.NamingExamples` | detox/src/devices/drivers/android/genycloud/services/GenyInstanceNaming.test.js:25-33 | worker id `777` gives `Detox-123456.777`; an empty or missing one at 78 ms gives `Detox-123456.78` |
| `InstanceNaming.FamilyExamples` | detox/src/devices/drivers/android/genycloud/services/GenyInstanceNaming.test.js:45-61 | the tests' accepted name is familial; the wrong timestamp, prefixes, order and missing dot are not |

## Left out

- Networking, timers and promises are left out. The WebSocket, `setTimeout` delays and promise chaining become explicit reply parameters, timer handles and fire events. Real interleaving of asynchronous calls is not modelled.
- A late reply to a Login, Ready, Cleanup or ReloadReactNative settles its request through `SessionClient.Client.Respond`. It does not resume the rest of the suspended operation, such as resolving the barrier or closing the socket.
- `SessionClient.Client.OnBeforeAppCrash` keeps one termination handle. If a second crash comes before the disconnect, the handle is overwritten. In the source both `setTimeout` callbacks stay live, so the app can be asked to terminate twice.
- `SessionClient.Client.DumpPendingRequests` lists requests in ascending id order, which is the order JavaScript gives integer keys. The socket's own table is not part of this model.
- `Client.setEventCallback` and the one-line action wrappers (`waitForBackground` to `terminateApp`) only forward to `sendAction`. They are covered by `SendAction`.
- Error deserialisation, stack rewriting, `util.format`, `util.inspect` and exact log texts are not modelled, apart from the strings the tests name.
- Configuration: `composeArtifactsConfig`, `getArtifactsCliConfig` and `resolveArtifactsPathBuilder` are left out. They resolve file paths and load modules. The parsers of the five plugin presets are opaque: a parsed preset is kept as its name.
- Configuration: `throwOnEmptyBinaryPath` has no caller in the modelled code. Only its error value is kept.
- `Configuration.ComposeSession` does not model `getPort()` or `uuid.UUID()`. The port and the session id are inputs.
- GenyCloud: `GenyCloud.DoSafeCleanup` reports leaks in handle order. The source pushes them in completion order, which depends on the timing of the deletions.
- GenyCloud: `installApp` is left out. It only forwards to the Android app installer.
- GenyCloud: semantic-version prerelease tags are left out. Versions are (major, minor, patch).
- `DriverRegistry.Resolve` does not model keys inherited through the prototype chain of the class table.
- ConsoleLogger: the stack dump and the relativisation of file paths are parameters.
- `InstanceNaming.GenerateName`: the session start is a natural number written in canonical decimal.
- The implementation of `Detox` is not part of this model. `Orchestrator` follows what `Detox.test.js` checks.
  - After an aborted init, hooks fail as they do before init.
  - A suite hook outside the ready phase fails as not initialised.
  - Partial teardown of what an aborted init had set up is not modelled.
- The implementation of `DeviceRegistry` is not part of this model, and neither are the file lock behind the shared ledger or the process exclusion.
  - The ids a type offers are a fixed function, so created devices do not show up among them.
  - The tests' `tryGetDevice` helper never returns the id it obtains. `DeviceRegistry.LeasesAreShared` states the lease behaviour those tests are after.
- The implementation of `ArtifactPlugin` is not part of this model.
  - A context field that may be `NaN` or `null` is an option.
  - `onCreateExternalArtifact` and `onUserAction` only record nothing.
- `LaunchArgs.Value` holds strings and integers; other JSON values are left out.
- `LaunchArgs.AppLaunchArgs.Get` returns a value, so no aliasing can occur. The copy-on-read the interface promises holds by construction.
