/**
 * The Genymotion-cloud device driver's policy
 * (detox/src/devices/drivers/android/genycloud/GenyCloudDriver.js): the
 * gmsaas version and login gates, the recipe check, the order of the side
 * effects of allocation, shutdown and cleanup, and the best-effort global
 * teardown with its summary.
 *
 * The gmsaas executable, the recipe and allocation services, adb and the
 * event emitter are oracles: what they answer is a parameter, and what they
 * are asked is recorded in order in the driver's call log.
 */
module GenyCloud {
  import opened Common

  // ---------------------------------------------------------------------
  // Versions

  /** A release version; pre-release tags and build metadata are not modelled. */
  datatype Version = Version(major: nat, minor: nat, patch: nat)

  /** Precedence of releases (section 11 of Semantic Versioning 2.0.0): numeric, field by field. */
  predicate VersionLt(a: Version, b: Version) {
    a.major < b.major
    || (a.major == b.major && a.minor < b.minor)
    || (a.major == b.major && a.minor == b.minor && a.patch < b.patch)
  }

  /** `MIN_GMSAAS_VERSION`. */
  const MinGmsaasVersion := Version(1, 6, 0)

  /** Precedence is a strict total order on releases. */
  lemma VersionLtStrictTotal(a: Version, b: Version, c: Version)
    ensures !VersionLt(a, a)
    ensures VersionLt(a, b) && VersionLt(b, c) ==> VersionLt(a, c)
    ensures a == b || VersionLt(a, b) || VersionLt(b, a)
    ensures !(VersionLt(a, b) && VersionLt(b, a))
  {
  }

  /** A version passes the gate exactly when it is 1.6 or later, whatever its patch number. */
  lemma VersionGate(v: Version)
    ensures !VersionLt(v, MinGmsaasVersion) <==> v.major > 1 || (v.major == 1 && v.minor >= 6)
  {
  }

  lemma VersionGateExamples()
    ensures VersionLt(Version(1, 5, 9), MinGmsaasVersion)
    ensures VersionLt(Version(0, 6, 0), MinGmsaasVersion)
    ensures !VersionLt(Version(1, 6, 0), MinGmsaasVersion)
    ensures !VersionLt(Version(1, 7, 2), MinGmsaasVersion)
  {
  }

  // ---------------------------------------------------------------------
  // The driver

  datatype Recipe = Recipe(name: string)

  datatype Instance = Instance(uuid: string, name: string, adbName: string)

  datatype DriverError =
    | GmsaasTooOld(version: Version)  // 'Your Genymotion-Cloud executable ... is too old!'
    | NotLoggedIn                      // 'Cannot run tests using 'android.genycloud' type devices ...'
    | NoRecipe(deviceQuery: string)    // 'No Genycloud devices found for recipe!'
    | DeleteFailed(reason: string)

  /** What the driver asks of its collaborators, in order. */
  datatype DriverCall =
    | GetVersion
    | GetLoginEmail
    | GetRecipe(deviceQuery: string)
    | AllocateDevice(recipe: Recipe)
    | EmitBootDevice(coldBoot: bool, deviceId: string, deviceType: string)
    | AdbApiLevel(adbName: string)
    | AdbDisableAnimations(adbName: string)
    | EmitBeforeShutdownDevice(deviceId: string)
    | DeleteInstance(uuid: string)
    | DisposeFromCleanupRegistry(uuid: string)
    | EmitShutdownDevice(deviceId: string)
    | DisposeFromRuntimeRegistry(uuid: string)
    | AndroidCleanup(uuid: string, bundleId: string)

  /** `GenyCloud:<name> (<uuid> <adbName>)`. */
  function InstanceDisplayName(instance: Instance): string {
    "GenyCloud:" + instance.name + " (" + instance.uuid + " " + instance.adbName + ")"
  }

  const UnspecifiedName := "Unspecified Genymotion Cloud Emulator"

  class Driver {
    var name: string
    var calls: seq<DriverCall>

    constructor ()
      ensures name == UnspecifiedName && calls == []
    {
      name := UnspecifiedName;
      calls := [];
    }

    /**
     * `prepare`: the version is checked first and an old gmsaas stops
     * everything, before the login email is even asked for; a falsy email
     * is rejected.
     */
    method Prepare(version: Version, loginEmail: Option<string>) returns (r: Result<(), DriverError>)
      modifies this`calls
      ensures r.Ok? <==> !VersionLt(version, MinGmsaasVersion) && Truthy(loginEmail)
      ensures VersionLt(version, MinGmsaasVersion) ==>
        r == Err(GmsaasTooOld(version)) && calls == old(calls) + [GetVersion]
      ensures !VersionLt(version, MinGmsaasVersion) ==>
        calls == old(calls) + [GetVersion, GetLoginEmail]
        && (!Truthy(loginEmail) ==> r == Err(NotLoggedIn))
    {
      calls := calls + [GetVersion];
      if VersionLt(version, MinGmsaasVersion) {
        return Err(GmsaasTooOld(version));
      }
      calls := calls + [GetLoginEmail];
      if !Truthy(loginEmail) {
        return Err(NotLoggedIn);
      }
      return Ok(());
    }

    /**
     * `acquireFreeDevice`: without a recipe it throws before allocating;
     * otherwise it allocates, announces the boot (cold for a new instance),
     * prepares adb, and only then takes the instance's display name.
     */
    method AcquireFreeDevice(deviceQuery: string, recipe: Option<Recipe>, instance: Instance, isNew: bool)
      returns (r: Result<Instance, DriverError>)
      modifies this`calls, this`name
      ensures recipe.None? ==>
        r == Err(NoRecipe(deviceQuery)) && calls == old(calls) + [GetRecipe(deviceQuery)] && name == old(name)
      ensures recipe.Some? ==>
        && r == Ok(instance)
        && calls == old(calls) + [GetRecipe(deviceQuery), AllocateDevice(recipe.value),
             EmitBootDevice(isNew, instance.adbName, recipe.value.name),
             AdbApiLevel(instance.adbName), AdbDisableAnimations(instance.adbName)]
        && name == InstanceDisplayName(instance)
    {
      calls := calls + [GetRecipe(deviceQuery)];
      var assertion := AssertRecipe(deviceQuery, recipe);
      if assertion.Err? {
        return Err(assertion.error);
      }
      calls := calls + [AllocateDevice(recipe.value)];
      calls := calls + [EmitBootDevice(isNew, instance.adbName, recipe.value.name)];
      calls := calls + [AdbApiLevel(instance.adbName), AdbDisableAnimations(instance.adbName)];
      name := InstanceDisplayName(instance);
      return Ok(instance);
    }

    /**
     * `shutdown`: announce, delete, dispose from the cleanup registry,
     * announce; a failed deletion stops the sequence there.
     */
    method Shutdown(instance: Instance, deletion: Deletion) returns (r: Result<(), DriverError>)
      modifies this`calls
      ensures deletion.Deleted? ==> r.Ok? && calls == old(calls) + [
        EmitBeforeShutdownDevice(instance.adbName), DeleteInstance(instance.uuid),
        DisposeFromCleanupRegistry(instance.uuid), EmitShutdownDevice(instance.adbName)]
      ensures deletion.Rejected? ==> r == Err(DeleteFailed(deletion.reason)) && calls == old(calls) + [
        EmitBeforeShutdownDevice(instance.adbName), DeleteInstance(instance.uuid)]
    {
      calls := calls + [EmitBeforeShutdownDevice(instance.adbName)];
      calls := calls + [DeleteInstance(instance.uuid)];
      if deletion.Rejected? {
        return Err(DeleteFailed(deletion.reason));
      }
      calls := calls + [DisposeFromCleanupRegistry(instance.uuid)];
      calls := calls + [EmitShutdownDevice(instance.adbName)];
      return Ok(());
    }

    /** `cleanup`: the instance leaves the runtime registry before the Android driver's own cleanup. */
    method Cleanup(instance: Instance, bundleId: string)
      modifies this`calls
      ensures calls == old(calls) + [DisposeFromRuntimeRegistry(instance.uuid), AndroidCleanup(instance.uuid, bundleId)]
    {
      calls := calls + [DisposeFromRuntimeRegistry(instance.uuid)];
      calls := calls + [AndroidCleanup(instance.uuid, bundleId)];
    }
  }

  /** `_assertRecipe`. */
  function AssertRecipe(deviceQuery: string, recipe: Option<Recipe>): (r: Result<(), DriverError>)
    ensures r.Ok? <==> recipe.Some?
    ensures r.Err? ==> r.error == NoRecipe(deviceQuery)
  {
    if recipe.None? then Err(NoRecipe(deviceQuery)) else Ok(())
  }

  // ---------------------------------------------------------------------
  // Global teardown

  /** An entry of the global cleanup registry. */
  datatype InstanceHandle = InstanceHandle(uuid: string, name: string)

  /** How one deletion settles; a rejection's reason may be empty (falsy). */
  datatype Deletion = Deleted | Rejected(reason: string)

  /** A handle whose deletion failed, with the error (empty when there was none). */
  datatype Leak = Leak(uuid: string, name: string, error: string)

  datatype LogLine = Info(message: string) | Warn(message: string)

  const TeardownStarted := "Initiating Genymotion cloud instances teardown..."
  const LeakageHeader := "WARNING! Detected a Genymotion cloud instance leakage, for the following instances:"
  const CompletedWithWarnings := "Instances teardown completed with warnings"
  const CompletedSuccessfully := "Instances teardown completed successfully"

  /** The three-line warning about one leaked instance. */
  function LeakMessage(leak: Leak): string {
    "Instance " + leak.name + " (" + leak.uuid + ")" + (if leak.error != "" then ": " + leak.error else "")
    + "\n    Kill it by visiting https://cloud.geny.io/app/instance/" + leak.uuid + ", or by running:"
    + "\n    gmsaas instances stop " + leak.uuid
  }

  /** The reference definition of the leak list: the failed handles, in handle order. */
  function Failures(handles: seq<InstanceHandle>, deletions: seq<Deletion>): seq<Leak>
    requires |deletions| == |handles|
  {
    if handles == [] then []
    else
      (if deletions[0].Rejected? then [Leak(handles[0].uuid, handles[0].name, deletions[0].reason)] else [])
      + Failures(handles[1..], deletions[1..])
  }

  lemma {:induction false} FailuresSnoc(handles: seq<InstanceHandle>, deletions: seq<Deletion>,
                                        h: InstanceHandle, d: Deletion)
    requires |deletions| == |handles|
    ensures Failures(handles + [h], deletions + [d]) ==
      Failures(handles, deletions) + (if d.Rejected? then [Leak(h.uuid, h.name, d.reason)] else [])
    decreases |handles|
  {
    if handles != [] {
      assert (handles + [h])[1..] == handles[1..] + [h];
      assert (deletions + [d])[1..] == deletions[1..] + [d];
      FailuresSnoc(handles[1..], deletions[1..], h, d);
    }
  }

  /** A handle leaks exactly when its deletion was rejected; no leak is invented. */
  lemma {:induction false} FailuresExact(handles: seq<InstanceHandle>, deletions: seq<Deletion>, leak: Leak)
    requires |deletions| == |handles|
    ensures leak in Failures(handles, deletions) <==>
      exists i :: 0 <= i < |handles| && deletions[i] == Rejected(leak.error)
        && handles[i] == InstanceHandle(leak.uuid, leak.name)
    ensures |Failures(handles, deletions)| <= |handles|
    decreases |handles|
  {
    if handles != [] {
      FailuresExact(handles[1..], deletions[1..], leak);
      if leak in Failures(handles[1..], deletions[1..]) {
        var i :| 0 <= i < |handles[1..]| && deletions[1..][i] == Rejected(leak.error)
          && handles[1..][i] == InstanceHandle(leak.uuid, leak.name);
        assert deletions[i + 1] == Rejected(leak.error) && handles[i + 1] == InstanceHandle(leak.uuid, leak.name);
      }
      if exists i :: 0 <= i < |handles| && deletions[i] == Rejected(leak.error)
          && handles[i] == InstanceHandle(leak.uuid, leak.name) {
        var i :| 0 <= i < |handles| && deletions[i] == Rejected(leak.error)
          && handles[i] == InstanceHandle(leak.uuid, leak.name);
        if i > 0 {
          assert deletions[1..][i - 1] == Rejected(leak.error) && handles[1..][i - 1] == handles[i];
        }
      }
    }
  }

  /** With every deletion succeeding nothing leaks. */
  lemma {:induction false} NoFailures(handles: seq<InstanceHandle>, deletions: seq<Deletion>)
    requires |deletions| == |handles|
    requires forall i :: 0 <= i < |deletions| ==> deletions[i].Deleted?
    ensures Failures(handles, deletions) == []
    decreases |handles|
  {
    if handles != [] {
      NoFailures(handles[1..], deletions[1..]);
    }
  }

  function CountWarnings(lines: seq<LogLine>): nat {
    if lines == [] then 0 else (if lines[0].Warn? then 1 else 0) + CountWarnings(lines[1..])
  }

  lemma {:induction false} CountWarningsAppend(a: seq<LogLine>, b: seq<LogLine>)
    ensures CountWarnings(a + b) == CountWarnings(a) + CountWarnings(b)
    decreases |a|
  {
    if a == [] {
      assert a + b == b;
    } else {
      assert (a + b)[0] == a[0] && (a + b)[1..] == a[1..] + b;
      CountWarningsAppend(a[1..], b);
    }
  }

  /**
   * `reportGlobalCleanupSummary`: with leaks, a header warning, one warning
   * per leak in order and a closing note; without, a single success note.
   */
  method ReportGlobalCleanupSummary(leaks: seq<Leak>) returns (lines: seq<LogLine>)
    ensures |leaks| == 0 ==> lines == [Info(CompletedSuccessfully)]
    ensures |leaks| > 0 ==>
      && |lines| == |leaks| + 2
      && lines[0] == Warn(LeakageHeader)
      && (forall i :: 0 <= i < |leaks| ==> lines[i + 1] == Warn(LeakMessage(leaks[i])))
      && lines[|lines| - 1] == Info(CompletedWithWarnings)
    ensures CountWarnings(lines) == if |leaks| > 0 then |leaks| + 1 else 0
  {
    if |leaks| == 0 {
      lines := [Info(CompletedSuccessfully)];
      return;
    }
    lines := [Warn(LeakageHeader)];
    for i := 0 to |leaks|
      invariant |lines| == i + 1 && lines[0] == Warn(LeakageHeader)
      invariant forall j :: 0 <= j < i ==> lines[j + 1] == Warn(LeakMessage(leaks[j]))
      invariant CountWarnings(lines) == i + 1
    {
      CountWarningsAppend(lines, [Warn(LeakMessage(leaks[i]))]);
      lines := lines + [Warn(LeakMessage(leaks[i]))];
    }
    CountWarningsAppend(lines, [Info(CompletedWithWarnings)]);
    lines := lines + [Info(CompletedWithWarnings)];
  }

  /**
   * `doSafeCleanup`: a start note, a deletion attempt for every handle
   * whatever the others did, and the summary of exactly the failed ones;
   * it never throws.
   */
  method DoSafeCleanup(handles: seq<InstanceHandle>, deletions: seq<Deletion>)
    returns (attempted: seq<string>, leaks: seq<Leak>, lines: seq<LogLine>)
    requires |deletions| == |handles|
    ensures |attempted| == |handles| && forall i :: 0 <= i < |handles| ==> attempted[i] == handles[i].uuid
    ensures leaks == Failures(handles, deletions)
    ensures |lines| > 0 && lines[0] == Info(TeardownStarted)
    ensures |leaks| == 0 ==> lines == [Info(TeardownStarted), Info(CompletedSuccessfully)]
    ensures |leaks| > 0 ==>
      && |lines| == |leaks| + 3
      && lines[1] == Warn(LeakageHeader)
      && (forall i :: 0 <= i < |leaks| ==> lines[i + 2] == Warn(LeakMessage(leaks[i])))
      && lines[|lines| - 1] == Info(CompletedWithWarnings)
    ensures CountWarnings(lines) == if |leaks| > 0 then |leaks| + 1 else 0
  {
    attempted, leaks := [], [];
    for i := 0 to |handles|
      invariant |attempted| == i && forall j :: 0 <= j < i ==> attempted[j] == handles[j].uuid
      invariant leaks == Failures(handles[..i], deletions[..i])
    {
      attempted := attempted + [handles[i].uuid];
      FailuresSnoc(handles[..i], deletions[..i], handles[i], deletions[i]);
      assert handles[..i + 1] == handles[..i] + [handles[i]];
      assert deletions[..i + 1] == deletions[..i] + [deletions[i]];
      if deletions[i].Rejected? {
        leaks := leaks + [Leak(handles[i].uuid, handles[i].name, deletions[i].reason)];
      }
    }
    assert handles[..|handles|] == handles && deletions[..|deletions|] == deletions;
    var summary := ReportGlobalCleanupSummary(leaks);
    lines := [Info(TeardownStarted)] + summary;
    CountWarningsAppend([Info(TeardownStarted)], summary);
  }

  /**
   * `globalCleanup`: the gmsaas executable and lifecycle service are built,
   * and the safe cleanup run, only when the cleanup registry holds handles.
   */
  method GlobalCleanup(handles: seq<InstanceHandle>, deletions: seq<Deletion>)
    returns (serviceBuilt: bool, leaks: seq<Leak>, lines: seq<LogLine>)
    requires |deletions| == |handles|
    ensures serviceBuilt <==> |handles| > 0
    ensures !serviceBuilt ==> leaks == [] && lines == []
    ensures serviceBuilt ==> leaks == Failures(handles, deletions) && |lines| > 0 && lines[0] == Info(TeardownStarted)
  {
    serviceBuilt, leaks, lines := false, [], [];
    if |handles| > 0 {
      serviceBuilt := true;
      var attempted;
      attempted, leaks, lines := DoSafeCleanup(handles, deletions);
    }
  }

  /** Registry handles reported as leaks, without an error. */
  function AsLeaks(handles: seq<InstanceHandle>): (leaks: seq<Leak>)
    ensures |leaks| == |handles|
    ensures forall i :: 0 <= i < |handles| ==> leaks[i] == Leak(handles[i].uuid, handles[i].name, "")
  {
    if handles == [] then [] else [Leak(handles[0].uuid, handles[0].name, "")] + AsLeaks(handles[1..])
  }

  /**
   * The exit callback `globalInit` installs: on a signal exit with handles
   * still registered, every one of them is reported as leaked; otherwise
   * nothing is written.
   */
  method OnSignalExit(signal: Option<string>, handles: seq<InstanceHandle>) returns (lines: seq<LogLine>)
    ensures !(Truthy(signal) && |handles| > 0) ==> lines == []
    ensures Truthy(signal) && |handles| > 0 ==>
      && |lines| == |handles| + 2
      && lines[0] == Warn(LeakageHeader)
      && (forall i :: 0 <= i < |handles| ==>
            lines[i + 1] == Warn(LeakMessage(Leak(handles[i].uuid, handles[i].name, ""))))
      && lines[|lines| - 1] == Info(CompletedWithWarnings)
      && CountWarnings(lines) == |handles| + 1
  {
    lines := [];
    if Truthy(signal) && |handles| > 0 {
      lines := ReportGlobalCleanupSummary(AsLeaks(handles));
    }
  }
}
