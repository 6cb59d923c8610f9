/**
 * The base artifact plugin, as its tests describe it
 * (detox/src/artifacts/templates/plugin/ArtifactPlugin.test.js): an
 * `enabled` switch that `disable` turns off (warning when a reason is
 * given), a context record the lifecycle hooks keep up to date, a one-shot
 * `onTerminate` that silences every hook, and the rule deciding whether a
 * test's artifacts are kept.
 */
module ArtifactPlugin {
  import opened Common

  /** A context key: absent from the object, or present with a value. */
  datatype Field<T> = Absent | Present(value: T)

  datatype TestStatus = Running | Passed | Failed

  datatype TestSummary = TestSummary(title: string, status: TestStatus)

  datatype Suite = Suite(name: string)

  /**
   * `plugin.context`. `launchArgs`, `testSummary` and `suite` may be
   * `null` (None); `pid` may be `NaN` (None); keys the hooks never touch
   * are kept in `extras`.
   */
  datatype Context = Context(
    deviceId: Field<string>,
    bundleId: Field<string>,
    launchArgs: Field<Option<map<string, string>>>,
    pid: Field<Option<nat>>,
    testSummary: Field<Option<TestSummary>>,
    suite: Field<Option<Suite>>,
    extras: map<string, string>)

  const EmptyContext := Context(Absent, Absent, Absent, Absent, Absent, Absent, map[])

  /** The lifecycle hooks and their event arguments. */
  datatype Hook =
    | OnBootDevice(deviceId: string, coldBoot: bool)
    | OnBeforeShutdownDevice(deviceId: string)
    | OnShutdownDevice(deviceId: string)
    | OnBeforeUninstallApp(deviceId: string, bundleId: string)
    | OnBeforeLaunchApp(deviceId: string, bundleId: string, launchArgs: map<string, string>)
    | OnLaunchApp(deviceId: string, bundleId: string, launchArgs: map<string, string>, pid: nat)
    | OnBeforeTerminateApp(deviceId: string, bundleId: string)
    | OnTerminateApp(deviceId: string, bundleId: string)
    | OnTestStart(summary: TestSummary)
    | OnTestDone(summary: TestSummary)
    | OnSuiteStart(suite: Suite)
    | OnSuiteEnd
    | OnBeforeCleanup
    | OnUserAction(action: string)
    | OnCreateExternalArtifact(name: string)

  /** The thirteen hooks `onTerminate` replaces by its no-op. */
  predicate SilencedByTerminate(h: Hook) {
    !h.OnBeforeUninstallApp? && !h.OnCreateExternalArtifact?
  }

  /** The hooks announcing something that is about to happen; they record nothing. */
  predicate IsBeforeHook(h: Hook) {
    h.OnBeforeShutdownDevice? || h.OnBeforeUninstallApp? || h.OnBeforeLaunchApp? || h.OnBeforeTerminateApp?
  }

  /** The context after a hook runs. */
  function ContextAfter(c: Context, h: Hook): (r: Context)
    ensures r.extras == c.extras
    ensures IsBeforeHook(h) || h.OnUserAction? || h.OnCreateExternalArtifact? ==> r == c
    ensures r.deviceId != c.deviceId ==> h.OnBootDevice? || h.OnShutdownDevice?
    ensures h.OnBootDevice? ==> r == c.(deviceId := Present(h.deviceId))
    ensures h.OnLaunchApp? ==>
      r == c.(bundleId := Present(h.bundleId), launchArgs := Present(Some(h.launchArgs)), pid := Present(Some(h.pid)))
    ensures h.OnTerminateApp? || h.OnShutdownDevice? ==>
      r.bundleId == Present("") && r.launchArgs == Present(None) && r.pid == Present(None)
      && r.testSummary == c.testSummary && r.suite == c.suite
    ensures h.OnTerminateApp? ==> r.deviceId == c.deviceId
    ensures h.OnShutdownDevice? ==> r.deviceId == Present("")
    ensures h.OnTestStart? || h.OnTestDone? ==> r == c.(testSummary := Present(Some(h.summary)))
    ensures h.OnBeforeCleanup? ==> r == c.(testSummary := Present(None))
    ensures h.OnSuiteStart? ==> r == c.(suite := Present(Some(h.suite)))
    ensures h.OnSuiteEnd? ==> r == c.(suite := Present(None))
  {
    match h
    case OnBootDevice(deviceId, _) => c.(deviceId := Present(deviceId))
    case OnShutdownDevice(_) =>
      c.(deviceId := Present(""), bundleId := Present(""), launchArgs := Present(None), pid := Present(None))
    case OnLaunchApp(_, bundleId, launchArgs, pid) =>
      c.(bundleId := Present(bundleId), launchArgs := Present(Some(launchArgs)), pid := Present(Some(pid)))
    case OnTerminateApp(_, _) => c.(bundleId := Present(""), launchArgs := Present(None), pid := Present(None))
    case OnTestStart(summary) => c.(testSummary := Present(Some(summary)))
    case OnTestDone(summary) => c.(testSummary := Present(Some(summary)))
    case OnBeforeCleanup => c.(testSummary := Present(None))
    case OnSuiteStart(suite) => c.(suite := Present(Some(suite)))
    case OnSuiteEnd => c.(suite := Present(None))
    case _ => c
  }

  /** After a launch and the app's termination, only the device stays known. */
  lemma {:induction false} LaunchThenTerminate(c: Context, deviceId: string, bundleId: string,
                                               launchArgs: map<string, string>, pid: nat)
    ensures ContextAfter(ContextAfter(c, OnLaunchApp(deviceId, bundleId, launchArgs, pid)), OnTerminateApp(deviceId, bundleId))
      == c.(bundleId := Present(""), launchArgs := Present(None), pid := Present(None))
  {
    var launched := ContextAfter(c, OnLaunchApp(deviceId, bundleId, launchArgs, pid));
    assert launched.deviceId == c.deviceId && launched.testSummary == c.testSummary && launched.suite == c.suite;
  }

  /** The worked example: boot sets the device, launch adds the app, and the extra key survives both. */
  lemma BootThenLaunchExample()
    ensures var c := Context(Present("someOriginalDeviceId"), Absent, Absent, Absent, Absent, Absent,
                             map["shouldNotBeDeletedFromContext" := "extraProperty"]);
            ContextAfter(ContextAfter(c, OnBootDevice("testDeviceId", true)),
                         OnLaunchApp("otherDeviceId", "testBundleId", map["detoxSessionId" := "test"], 2018))
            == Context(Present("testDeviceId"), Present("testBundleId"), Present(Some(map["detoxSessionId" := "test"])),
                       Present(Some(2018)), Absent, Absent, map["shouldNotBeDeletedFromContext" := "extraProperty"])
  {
  }

  /** `shouldKeepArtifactOfTest`. */
  function ShouldKeep(enabled: bool, keepOnlyFailed: bool, status: TestStatus): (keep: bool)
    ensures !enabled ==> !keep
    ensures enabled && !keepOnlyFailed ==> keep
    ensures enabled && keepOnlyFailed ==> (keep <==> status == Failed)
  {
    enabled && (!keepOnlyFailed || status == Failed)
  }

  /** Keeping only failed tests keeps a subset of what keeping all would. */
  lemma KeepOnlyFailedKeepsLess(enabled: bool, status: TestStatus)
    ensures ShouldKeep(enabled, true, status) ==> ShouldKeep(enabled, false, status)
  {
  }

  const TerminationReason := "it was terminated by SIGINT or SIGTERM"

  /** A `logger.warn` call made by `disable`, naming the plugin and the reason. */
  datatype Warning = DisabledWarning(plugin: string, reason: string)

  class Plugin {
    const name: string
    var enabled: bool
    var keepOnlyFailedTestsArtifacts: bool
    var context: Context
    /** Whether `onTerminate` has replaced the hooks with its no-op. */
    var terminated: bool
    /** The arguments `disable` was called with, in order. */
    var disableCalls: seq<Option<string>>
    var warnings: seq<Warning>

    /** `new SomePlugin({ api })`: named after its class, disabled, keeping every test's artifacts. */
    constructor (className: string)
      ensures name == className && !enabled && !keepOnlyFailedTestsArtifacts
      ensures context == EmptyContext && !terminated && disableCalls == [] && warnings == []
    {
      name := className;
      enabled := false;
      keepOnlyFailedTestsArtifacts := false;
      context := EmptyContext;
      terminated := false;
      disableCalls := [];
      warnings := [];
    }

    /** `disable(reason)`: only an enabled plugin changes, and it warns only when the reason is truthy. */
    method Disable(reason: Option<string>)
      modifies this`enabled, this`disableCalls, this`warnings
      ensures !enabled
      ensures disableCalls == old(disableCalls) + [reason]
      ensures old(enabled) && Truthy(reason) ==> warnings == old(warnings) + [DisabledWarning(name, reason.value)]
      ensures !(old(enabled) && Truthy(reason)) ==> warnings == old(warnings)
    {
      disableCalls := disableCalls + [reason];
      if !enabled {
        return;
      }
      enabled := false;
      if Truthy(reason) {
        warnings := warnings + [DisabledWarning(name, reason.value)];
      }
    }

    /** Runs a lifecycle hook; after `onTerminate` the silenced hooks do nothing. */
    method Run(h: Hook)
      modifies this`context
      ensures terminated && SilencedByTerminate(h) ==> context == old(context)
      ensures !(terminated && SilencedByTerminate(h)) ==> context == ContextAfter(old(context), h)
    {
      if terminated && SilencedByTerminate(h) {
        return;
      }
      context := ContextAfter(context, h);
    }

    /** `onTerminate`: the first call disables with the termination reason and silences the hooks; later calls do nothing. */
    method OnTerminate()
      modifies this`enabled, this`disableCalls, this`warnings, this`terminated
      ensures terminated
      ensures old(terminated) ==>
        enabled == old(enabled) && disableCalls == old(disableCalls) && warnings == old(warnings)
      ensures !old(terminated) ==>
        !enabled && disableCalls == old(disableCalls) + [Some(TerminationReason)]
        && warnings == old(warnings) + (if old(enabled) then [DisabledWarning(name, TerminationReason)] else [])
    {
      if terminated {
        return;
      }
      Disable(Some(TerminationReason));
      terminated := true;
    }

    function ShouldKeepArtifactOfTest(summary: TestSummary): (keep: bool)
      reads this`enabled, this`keepOnlyFailedTestsArtifacts
      ensures keep == ShouldKeep(enabled, keepOnlyFailedTestsArtifacts, summary.status)
    {
      ShouldKeep(enabled, keepOnlyFailedTestsArtifacts, summary.status)
    }
  }

  /** Terminating twice disables once, and leaves the context as it was whatever hook runs afterwards. */
  method TerminateTwice(p: Plugin, h: Hook)
    requires !p.terminated && SilencedByTerminate(h)
    modifies p
    ensures p.disableCalls == old(p.disableCalls) + [Some(TerminationReason)]
    ensures p.context == old(p.context) && !p.enabled
  {
    p.OnTerminate();
    p.OnTerminate();
    p.Run(h);
  }
}
