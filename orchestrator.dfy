/**
 * The `Detox` orchestrator, as its tests describe it (detox/src/Detox.test.js):
 * `init` runs a fixed plan of steps once and hands every caller the same
 * promise; `beforeEach`/`afterEach` validate the test summary, recover from
 * an app crash by relaunching, and dump pending requests after a timeout;
 * a hook or `cleanup` arriving while `init` is still pending aborts it; and
 * `cleanup` tears down what `init` set up.
 *
 * The init steps run one by one through `Step`, so that an abort can fall
 * between any two of them; real interleaving of promises is not modelled.
 * What the collaborators are asked is recorded, in order, in `calls`.
 */
module Orchestrator {
  import opened Common

  /** The composed behaviour flags and whether the session starts its own server. */
  datatype Behavior = Behavior(exposeGlobals: bool, reinstallApp: bool, launchApp: bool,
                               shutdownDevice: bool, autoStart: bool)

  datatype InitStep =
    | StartServer
    | ConnectClient
    | CreateDevice
    | ExposeGlobals
    | PrepareDevice
    | UninstallApp
    | InstallApp
    | LaunchApp(newInstance: bool)

  /** The steps of `init`, in the order the tests stage them. */
  function InitPlan(b: Behavior): (plan: seq<InitStep>)
    ensures |plan| >= 3
  {
    (if b.autoStart then [StartServer] else [])
    + [ConnectClient, CreateDevice]
    + (if b.exposeGlobals then [ExposeGlobals] else [])
    + [PrepareDevice]
    + (if b.reinstallApp then [UninstallApp, InstallApp] else [])
    + (if b.launchApp then [LaunchApp(true)] else [])
  }

  /** Whether the behaviour asks for a step: the server only when auto-started, reinstalling as a pair, launching as a new instance. */
  predicate Planned(b: Behavior, step: InitStep) {
    match step
    case StartServer => b.autoStart
    case ConnectClient => true
    case CreateDevice => true
    case ExposeGlobals => b.exposeGlobals
    case PrepareDevice => true
    case UninstallApp => b.reinstallApp
    case InstallApp => b.reinstallApp
    case LaunchApp(newInstance) => b.launchApp && newInstance
  }

  /** A step is in the plan exactly when the behaviour asks for it. */
  lemma InitPlanSteps(b: Behavior, step: InitStep)
    ensures step in InitPlan(b) <==> Planned(b, step)
  {
    var head := (if b.autoStart then [StartServer] else []) + [ConnectClient, CreateDevice];
    var middle := (if b.exposeGlobals then [ExposeGlobals] else []) + [PrepareDevice];
    var tail := (if b.reinstallApp then [UninstallApp, InstallApp] else []) + (if b.launchApp then [LaunchApp(true)] else []);
    assert InitPlan(b) == head + middle + tail;
  }

  /** Step `a` comes before step `b` in the plan. */
  predicate Before(plan: seq<InitStep>, a: InitStep, b: InitStep) {
    exists i, j :: 0 <= i < j < |plan| && plan[i] == a && plan[j] == b
  }

  /** The client connects before the device is prepared, which precedes reinstalling; launching comes last. */
  lemma InitOrder(b: Behavior)
    ensures Before(InitPlan(b), ConnectClient, PrepareDevice)
    ensures b.reinstallApp ==>
      Before(InitPlan(b), PrepareDevice, UninstallApp) && Before(InitPlan(b), UninstallApp, InstallApp)
    ensures b.launchApp ==> InitPlan(b)[|InitPlan(b)| - 1] == LaunchApp(true)
  {
    var plan := InitPlan(b);
    var k := if b.autoStart then 1 else 0;
    var g := if b.exposeGlobals then 1 else 0;
    assert plan[k] == ConnectClient && plan[k + 2 + g] == PrepareDevice;
    if b.reinstallApp {
      assert plan[k + 3 + g] == UninstallApp && plan[k + 4 + g] == InstallApp;
    }
  }

  // ---------------------------------------------------------------------
  // Test summaries

  /** The argument of `beforeEach`/`afterEach`: not an object, or an object with a status (perhaps missing). */
  datatype SummaryArg = NotAnObject | SummaryObject(fullName: string, status: Option<string>, timedOut: bool)

  datatype DetoxError =
    | NotInitialized        // a collaborator is still `null`: "Cannot read property ... of null"
    | AbortedInit           // "Aborted detox.init() execution"
    | InvalidSummary        // "Invalid test summary was passed"
    | InvalidSummaryStatus  // "Invalid test summary status"

  predicate ValidStatus(status: Option<string>) {
    status == Some("running") || status == Some("passed") || status == Some("failed")
  }

  function ValidateSummary(s: SummaryArg): (r: Option<DetoxError>)
    ensures r.None? <==> s.SummaryObject? && ValidStatus(s.status)
    ensures s.NotAnObject? ==> r == Some(InvalidSummary)
    ensures s.SummaryObject? && !ValidStatus(s.status) ==> r == Some(InvalidSummaryStatus)
  {
    if s.NotAnObject? then Some(InvalidSummary)
    else if !ValidStatus(s.status) then Some(InvalidSummaryStatus)
    else None
  }

  /** What the collaborators are asked, in order. */
  datatype Call =
    | Perform(step: InitStep)
    | TraceBeforeEach(testName: string)
    | TraceAfterEach(testName: string)
    | ArtifactsTestStart(testName: string)
    | ArtifactsTestDone(testName: string)
    | ArtifactsSuiteStart(suite: string)
    | ArtifactsSuiteEnd(suite: string)
    | ArtifactsBeforeCleanup
    | DumpPendingRequests(testName: string)
    | LogAppCrash(testName: string, crash: string)
    | Relaunch(newInstance: bool)
    | ShutdownDevice

  /** The calls of the first `n` steps of a plan. */
  function Performed(plan: seq<InitStep>, n: nat): (calls: seq<Call>)
    requires n <= |plan|
    ensures |calls| == n && forall i :: 0 <= i < n ==> calls[i] == Perform(plan[i])
  {
    if n == 0 then [] else Performed(plan, n - 1) + [Perform(plan[n - 1])]
  }

  /** After a test hook: a pending crash is logged and the app relaunched as a new instance. */
  function CrashRecovery(testName: string, pendingCrash: Option<string>): (calls: seq<Call>)
    ensures Truthy(pendingCrash) <==> Relaunch(true) in calls
    ensures Truthy(pendingCrash) ==> calls == [LogAppCrash(testName, pendingCrash.value), Relaunch(true)]
    ensures !Truthy(pendingCrash) ==> calls == []
  {
    if Truthy(pendingCrash) then [LogAppCrash(testName, pendingCrash.value), Relaunch(true)] else []
  }

  /** `afterEach` on a valid summary: trace, report, dump pending requests only after a timeout, then crash recovery. */
  function AfterEachCalls(name: string, timedOut: bool, pendingCrash: Option<string>): (calls: seq<Call>)
    ensures DumpPendingRequests(name) in calls <==> timedOut
    ensures Relaunch(true) in calls <==> Truthy(pendingCrash)
    ensures |calls| >= 2 && calls[..2] == [TraceAfterEach(name), ArtifactsTestDone(name)]
  {
    [TraceAfterEach(name), ArtifactsTestDone(name)]
    + (if timedOut then [DumpPendingRequests(name)] else [])
    + CrashRecovery(name, pendingCrash)
  }

  /** `beforeEach` on a valid summary: trace, crash recovery (never a dump), then report the test start. */
  function BeforeEachCalls(name: string, pendingCrash: Option<string>): (calls: seq<Call>)
    ensures forall t :: DumpPendingRequests(t) !in calls
    ensures Relaunch(true) in calls <==> Truthy(pendingCrash)
    ensures |calls| >= 2 && calls[0] == TraceBeforeEach(name) && calls[|calls| - 1] == ArtifactsTestStart(name)
  {
    [TraceBeforeEach(name)] + CrashRecovery(name, pendingCrash) + [ArtifactsTestStart(name)]
  }

  /** `cleanup` after a finished init: the artifacts first, then the pending requests, and the device only if asked. */
  function CleanupCalls(b: Behavior): (calls: seq<Call>)
    ensures ShutdownDevice in calls <==> b.shutdownDevice
    ensures |calls| >= 2 && calls[..2] == [ArtifactsBeforeCleanup, DumpPendingRequests("")]
  {
    [ArtifactsBeforeCleanup, DumpPendingRequests("")] + (if b.shutdownDevice then [ShutdownDevice] else [])
  }

  // ---------------------------------------------------------------------
  // The phase machine

  datatype Phase = Idle | Initializing(next: nat) | Ready | Aborted | CleanedUp

  /** How the init promise settles. */
  datatype Settlement = Unsettled | Resolved | Rejected(error: DetoxError)

  class Detox {
    const behavior: Behavior
    var phase: Phase
    /** The promise `init` returned, once it was called. */
    var initPromise: Option<nat>
    var initSettlement: Settlement
    var calls: seq<Call>

    ghost predicate Valid()
      reads this
    {
      && (phase.Initializing? ==> phase.next < |InitPlan(behavior)| && initPromise.Some? && initSettlement == Unsettled)
      && (phase.Idle? <==> initPromise.None?)
      && (initPromise.None? ==> initSettlement == Unsettled)
      && (phase.Aborted? ==> initSettlement == Rejected(AbortedInit))
    }

    constructor (behavior: Behavior)
      ensures this.behavior == behavior && phase == Idle && initPromise == None
      ensures initSettlement == Unsettled && calls == []
      ensures Valid()
    {
      this.behavior := behavior;
      phase := Idle;
      initPromise := None;
      initSettlement := Unsettled;
      calls := [];
    }

    /** `init()`: the first call starts the plan under a new promise; every later call returns that same promise. */
    method Init(newPromise: nat) returns (promise: nat)
      requires Valid()
      modifies this`phase, this`initPromise
      ensures Valid()
      ensures old(initPromise).Some? ==> promise == old(initPromise).value && phase == old(phase)
      ensures old(initPromise).None? ==> promise == newPromise && phase == Initializing(0)
      ensures initPromise == Some(promise)
    {
      if initPromise.Some? {
        return initPromise.value;
      }
      initPromise := Some(newPromise);
      phase := Initializing(0);
      return newPromise;
    }

    /** Runs the next init step; after the last one the promise resolves. */
    method Step()
      requires Valid() && phase.Initializing?
      modifies this`phase, this`calls, this`initSettlement
      ensures Valid()
      ensures calls == old(calls) + [Perform(InitPlan(behavior)[old(phase).next])]
      ensures old(phase).next + 1 < |InitPlan(behavior)| ==> phase == Initializing(old(phase).next + 1)
      ensures old(phase).next + 1 == |InitPlan(behavior)| ==> phase == Ready && initSettlement == Resolved
    {
      var plan := InitPlan(behavior);
      calls := calls + [Perform(plan[phase.next])];
      if phase.next + 1 < |plan| {
        phase := Initializing(phase.next + 1);
      } else {
        phase := Ready;
        initSettlement := Resolved;
      }
    }

    /** A test hook or cleanup arriving while init is pending rejects init as aborted. */
    method AbortPendingInit()
      requires Valid() && phase.Initializing?
      modifies this`phase, this`initSettlement
      ensures Valid()
      ensures phase == Aborted && initSettlement == Rejected(AbortedInit)
    {
      phase := Aborted;
      initSettlement := Rejected(AbortedInit);
    }

    /**
     * `beforeEach(summary)`: aborts a pending init, validates the summary,
     * fails while nothing is initialised, and otherwise recovers from a
     * pending crash and reports the test start.
     */
    method BeforeEach(summary: SummaryArg, pendingCrash: Option<string>) returns (r: Option<DetoxError>)
      requires Valid()
      modifies this`phase, this`initSettlement, this`calls
      ensures Valid()
      ensures old(phase).Initializing? ==>
        r == Some(AbortedInit) && phase == Aborted && initSettlement == Rejected(AbortedInit) && calls == old(calls)
      ensures !old(phase).Initializing? ==> phase == old(phase) && initSettlement == old(initSettlement)
      ensures !old(phase).Initializing? && ValidateSummary(summary).Some? ==>
        r == ValidateSummary(summary) && calls == old(calls)
      ensures !old(phase).Initializing? && !old(phase).Ready? && ValidateSummary(summary).None? ==>
        r == Some(NotInitialized) && calls == old(calls)
      ensures old(phase).Ready? && ValidateSummary(summary).None? ==>
        r.None? && calls == old(calls) + BeforeEachCalls(summary.fullName, pendingCrash)
    {
      if phase.Initializing? {
        AbortPendingInit();
        return Some(AbortedInit);
      }
      r := ValidateSummary(summary);
      if r.Some? {
        return;
      }
      if !phase.Ready? {
        return Some(NotInitialized);
      }
      calls := calls + BeforeEachCalls(summary.fullName, pendingCrash);
    }

    /** `afterEach(summary)`: as `beforeEach`, reporting the test's end and dumping requests after a timeout. */
    method AfterEach(summary: SummaryArg, pendingCrash: Option<string>) returns (r: Option<DetoxError>)
      requires Valid()
      modifies this`phase, this`initSettlement, this`calls
      ensures Valid()
      ensures old(phase).Initializing? ==>
        r == Some(AbortedInit) && phase == Aborted && initSettlement == Rejected(AbortedInit) && calls == old(calls)
      ensures !old(phase).Initializing? ==> phase == old(phase) && initSettlement == old(initSettlement)
      ensures !old(phase).Initializing? && ValidateSummary(summary).Some? ==>
        r == ValidateSummary(summary) && calls == old(calls)
      ensures !old(phase).Initializing? && !old(phase).Ready? && ValidateSummary(summary).None? ==>
        r == Some(NotInitialized) && calls == old(calls)
      ensures old(phase).Ready? && ValidateSummary(summary).None? ==>
        r.None? && calls == old(calls) + AfterEachCalls(summary.fullName, summary.timedOut, pendingCrash)
    {
      if phase.Initializing? {
        AbortPendingInit();
        return Some(AbortedInit);
      }
      r := ValidateSummary(summary);
      if r.Some? {
        return;
      }
      if !phase.Ready? {
        return Some(NotInitialized);
      }
      calls := calls + AfterEachCalls(summary.fullName, summary.timedOut, pendingCrash);
    }

    /** `suiteStart(suite)`: forwarded to the artifacts manager, which exists only once init finished. */
    method SuiteStart(suite: string) returns (r: Option<DetoxError>)
      modifies this`calls
      ensures phase.Ready? ==> r.None? && calls == old(calls) + [ArtifactsSuiteStart(suite)]
      ensures !phase.Ready? ==> r == Some(NotInitialized) && calls == old(calls)
    {
      if !phase.Ready? {
        return Some(NotInitialized);
      }
      calls := calls + [ArtifactsSuiteStart(suite)];
      return None;
    }

    /** `suiteEnd(suite)`. */
    method SuiteEnd(suite: string) returns (r: Option<DetoxError>)
      modifies this`calls
      ensures phase.Ready? ==> r.None? && calls == old(calls) + [ArtifactsSuiteEnd(suite)]
      ensures !phase.Ready? ==> r == Some(NotInitialized) && calls == old(calls)
    {
      if !phase.Ready? {
        return Some(NotInitialized);
      }
      calls := calls + [ArtifactsSuiteEnd(suite)];
      return None;
    }

    /**
     * `cleanup()`: never fails. A pending init is aborted; after a finished
     * init the artifacts, the pending requests and (if asked) the device are
     * taken down; before init nothing happens.
     */
    method Cleanup()
      requires Valid()
      modifies this`phase, this`initSettlement, this`calls
      ensures Valid()
      ensures old(phase).Initializing? ==>
        phase == Aborted && initSettlement == Rejected(AbortedInit) && calls == old(calls)
      ensures old(phase).Ready? ==>
        phase == CleanedUp && calls == old(calls) + CleanupCalls(behavior) && initSettlement == old(initSettlement)
      ensures !old(phase).Initializing? && !old(phase).Ready? ==>
        phase == old(phase) && calls == old(calls) && initSettlement == old(initSettlement)
    {
      if phase.Initializing? {
        AbortPendingInit();
      } else if phase.Ready? {
        calls := calls + CleanupCalls(behavior);
        phase := CleanedUp;
      }
    }
  }

  /** Runs init to completion: every step of the plan, in order, and the promise resolves. */
  method RunInit(d: Detox, newPromise: nat) returns (promise: nat)
    requires d.Valid() && d.phase == Idle
    modifies d`phase, d`initPromise, d`calls, d`initSettlement
    ensures d.Valid() && d.phase == Ready && d.initSettlement == Resolved && promise == newPromise
    ensures var plan := InitPlan(d.behavior);
            d.calls == old(d.calls) + Performed(plan, |plan|)
  {
    promise := d.Init(newPromise);
    var plan := InitPlan(d.behavior);
    var done := 0;
    while d.phase.Initializing?
      invariant d.Valid() && d.initPromise == Some(newPromise)
      invariant d.phase.Initializing? || (d.phase == Ready && d.initSettlement == Resolved)
      invariant d.phase.Initializing? ==> d.phase.next == done
      invariant d.phase == Ready ==> done == |plan|
      invariant done <= |plan|
      invariant d.calls == old(d.calls) + Performed(plan, done)
      decreases |plan| - done
    {
      d.Step();
      done := done + 1;
    }
  }

  /** Two calls of init before it settles hand out the same promise. */
  method InitTwice(d: Detox, first: nat, second: nat) returns (p1: nat, p2: nat)
    requires d.Valid() && d.phase == Idle
    modifies d`phase, d`initPromise
    ensures p1 == p2 == first
  {
    p1 := d.Init(first);
    p2 := d.Init(second);
  }

  /** A hook during a pending init rejects both the hook and the init as aborted, whatever the summary. */
  method HookDuringInit(d: Detox, newPromise: nat, summary: SummaryArg) returns (hook: Option<DetoxError>, init: Settlement)
    requires d.Valid() && d.phase == Idle
    modifies d`phase, d`initPromise, d`initSettlement, d`calls
    ensures hook == Some(AbortedInit) && init == Rejected(AbortedInit)
  {
    var p := d.Init(newPromise);
    hook := d.BeforeEach(summary, None);
    init := d.initSettlement;
  }
}
