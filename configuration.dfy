/**
 * Composition of the runner's configuration (detox/src/configuration.js):
 * choosing the device configuration (which is mutated in place), the
 * precedence of behaviour flags, the session, and string plugin presets.
 *
 * Command-line values, the free port and the generated session id are
 * inputs. A JavaScript object with string keys is an ordered sequence of
 * entries with distinct keys, so that "the first key" means what it means
 * in the source.
 */
module Configuration {
  import opened Common

  /** The errors composition throws; the first three are `DetoxConfigError`s. */
  datatype ConfigError =
    | MissingType            // `throwOnEmptyType`
    | EmptyDevice            // `throwOnEmptyDevice`
    | MissingBinaryPath      // `throwOnEmptyBinaryPath`
    | NoConfigurations       // 'There are no device configurations in the detox config'
    | CannotDetermineConfiguration(keys: seq<string>)
    | MissingServer          // 'session.server property is missing ...'
    | MissingSessionId       // 'session.sessionId property is missing ...'
    | NoDetoxConfig          // 'No configuration was passed to detox ...'

  predicate IsDetoxConfigError(e: ConfigError) {
    e.MissingType? || e.EmptyDevice? || e.MissingBinaryPath?
  }

  /** The command-line values composition reads. */
  datatype CliArgs = CliArgs(
    configuration: Option<string>,  // --configuration
    deviceName: Option<string>,     // --device-name
    reuse: bool,                    // --reuse, as JavaScript tests it
    cleanup: bool)                  // --cleanup

  // ---------------------------------------------------------------------
  // Device configuration selection

  /** A device query: absent, a string, or an object of properties. */
  datatype DeviceQuery = NoQuery | QueryString(s: string) | QueryObject(properties: map<string, string>)

  /** JavaScript truthiness: every object is truthy, the empty string is not. */
  predicate QueryTruthy(q: DeviceQuery) {
    q.QueryObject? || (q.QueryString? && q.s != "")
  }

  /** `_.isEmpty`: absent, the empty string, or an object without keys. */
  predicate QueryIsEmpty(q: DeviceQuery) {
    match q
    case NoQuery => true
    case QueryString(s) => s == ""
    case QueryObject(p) => |p| == 0
  }

  function StringQuery(s: Option<string>): DeviceQuery {
    if s.Some? then QueryString(s.value) else NoQuery
  }

  /**
   * `deviceOverride || deviceConfig.device || deviceConfig.name`: the
   * first truthy of the three, else the name as it is.
   */
  function ResolveDevice(deviceOverride: Option<string>, device: DeviceQuery, name: Option<string>): (q: DeviceQuery)
    ensures Truthy(deviceOverride) ==> q == QueryString(deviceOverride.value)
    ensures !Truthy(deviceOverride) && QueryTruthy(device) ==> q == device
    ensures !Truthy(deviceOverride) && !QueryTruthy(device) ==> q == StringQuery(name)
    ensures QueryIsEmpty(q) <==>
      !Truthy(deviceOverride) && ((!QueryTruthy(device) && !Truthy(name)) || device == QueryObject(map[]))
  {
    if Truthy(deviceOverride) then QueryString(deviceOverride.value)
    else if QueryTruthy(device) then device
    else StringQuery(name)
  }

  /** Flags of the `init` and `cleanup` sections of a behaviour object; `None` is undefined. */
  datatype BehaviorLayer = BehaviorLayer(
    exposeGlobals: Option<bool>,
    reinstallApp: Option<bool>,
    launchApp: Option<bool>,
    shutdownDevice: Option<bool>)

  const NoBehavior := BehaviorLayer(None, None, None, None)

  datatype Session = Session(autoStart: Option<bool>, server: Option<string>, sessionId: Option<string>)

  /** One device configuration; `device` and `name` are rewritten by composition. */
  class DeviceConfig {
    const deviceType: Option<string>  // the `type` property
    var device: DeviceQuery
    var name: Option<string>
    const behavior: BehaviorLayer
    const session: Option<Session>

    constructor (deviceType: Option<string>, device: DeviceQuery, name: Option<string>,
                 behavior: BehaviorLayer, session: Option<Session>)
      ensures this.deviceType == deviceType && this.device == device && this.name == name
      ensures this.behavior == behavior && this.session == session
    {
      this.deviceType := deviceType;
      this.device := device;
      this.name := name;
      this.behavior := behavior;
      this.session := session;
    }
  }

  datatype NamedConfig = NamedConfig(key: string, config: DeviceConfig)

  /** The `configurations` object: keys are distinct. */
  predicate DistinctKeys(configs: seq<NamedConfig>) {
    forall i, j :: 0 <= i < j < |configs| ==> configs[i].key != configs[j].key
  }

  /** `Object.keys(configurations)`. */
  function Keys(configs: seq<NamedConfig>): (keys: seq<string>)
    ensures |keys| == |configs|
    ensures forall i :: 0 <= i < |configs| ==> keys[i] == configs[i].key
  {
    if configs == [] then [] else [configs[0].key] + Keys(configs[1..])
  }

  /** `configurations[key]`. */
  function Lookup(configs: seq<NamedConfig>, key: string): (r: Option<DeviceConfig>)
    ensures r.Some? <==> exists i :: 0 <= i < |configs| && configs[i].key == key
    ensures r.Some? ==> exists i :: 0 <= i < |configs| && configs[i] == NamedConfig(key, r.value)
  {
    if configs == [] then None
    else if configs[0].key == key then Some(configs[0].config)
    else
      var r := Lookup(configs[1..], key);
      assert forall i :: 1 <= i < |configs| ==> configs[i] == configs[1..][i - 1];
      r
  }

  /** A property access with an undefined name reads the key "undefined". */
  function PropertyKey(name: Option<string>): string {
    if name.Some? then name.value else "undefined"
  }

  /**
   * The configuration `composeDeviceConfig` picks: the only one when no
   * name is given and there is exactly one, else the entry under the name.
   */
  function Select(configs: seq<NamedConfig>, configurationName: Option<string>): Option<DeviceConfig> {
    if !Truthy(configurationName) && |configs| == 1 then Some(configs[0].config)
    else Lookup(configs, PropertyKey(configurationName))
  }

  /** With no name and a single configuration, that configuration is chosen. */
  lemma SelectSingle(configs: seq<NamedConfig>, configurationName: Option<string>)
    requires |configs| == 1 && !Truthy(configurationName)
    ensures Select(configs, configurationName) == Some(configs[0].config)
  {
  }

  /** A given name chooses exactly the configuration stored under it. */
  lemma SelectByName(configs: seq<NamedConfig>, configurationName: Option<string>, i: nat)
    requires DistinctKeys(configs) && Truthy(configurationName)
    requires i < |configs| && configs[i].key == configurationName.value
    ensures Select(configs, configurationName) == Some(configs[i].config)
  {
    var r := Select(configs, configurationName);
    var j :| 0 <= j < |configs| && configs[j] == NamedConfig(configurationName.value, r.value);
    assert i == j;
  }

  /** A name absent from the object chooses nothing, whatever the number of entries. */
  lemma SelectMissing(configs: seq<NamedConfig>, configurationName: Option<string>)
    requires Truthy(configurationName)
    requires forall i :: 0 <= i < |configs| ==> configs[i].key != configurationName.value
    ensures Select(configs, configurationName) == None
  {
  }

  /** `_.findKey(configurations, config => config === deviceConfig)`: the first key holding that object. */
  function FindKey(configs: seq<NamedConfig>, target: DeviceConfig): (r: Option<string>)
    ensures r.Some? <==> exists i :: 0 <= i < |configs| && configs[i].config == target
    ensures r.Some? ==> exists i :: (0 <= i < |configs| && configs[i] == NamedConfig(r.value, target)
      && forall j :: 0 <= j < i ==> configs[j].config != target)
  {
    if configs == [] then None
    else if configs[0].config == target then Some(configs[0].key)
    else
      var r := FindKey(configs[1..], target);
      assert forall i :: 1 <= i < |configs| ==> configs[i] == configs[1..][i - 1];
      if r.Some? then
        var k :| 0 <= k < |configs[1..]| && configs[1..][k] == NamedConfig(r.value, target)
          && forall j :: 0 <= j < k ==> configs[1..][j].config != target;
        assert configs[k + 1] == NamedConfig(r.value, target);
        r
      else r
  }

  /**
   * Without aliasing (no configuration object stored under two keys), the
   * key found for the configuration chosen by name is that name.
   */
  lemma FindKeyOfSelected(configs: seq<NamedConfig>, configurationName: Option<string>)
    requires DistinctKeys(configs) && Truthy(configurationName)
    requires forall i, j :: 0 <= i < j < |configs| ==> configs[i].config != configs[j].config
    requires Select(configs, configurationName).Some?
    ensures FindKey(configs, Select(configs, configurationName).value) == configurationName
  {
    var c := Select(configs, configurationName).value;
    var i :| 0 <= i < |configs| && configs[i] == NamedConfig(configurationName.value, c);
    var r := FindKey(configs, c);
    var k :| 0 <= k < |configs| && configs[k] == NamedConfig(r.value, c);
    assert k == i;
  }

  /** The chosen configuration, if any, whose fields composition rewrites. */
  function Touched(configs: seq<NamedConfig>, configurationName: Option<string>): set<DeviceConfig>
    reads set i | 0 <= i < |configs| :: configs[i].config
  {
    var chosen := Select(configs, configurationName);
    if |configs| > 0 && chosen.Some? && Truthy(chosen.value.deviceType) then {chosen.value} else {}
  }

  /**
   * `composeDeviceConfig`: no configurations, no choice and a missing
   * `type` throw before anything changes; otherwise the chosen
   * configuration's `device` is resolved and its `name` deleted, and only
   * then is an empty device rejected, so the rewrite survives the throw.
   */
  method ComposeDeviceConfig(configs: seq<NamedConfig>, selectedConfiguration: Option<string>, cli: CliArgs)
    returns (r: Result<DeviceConfig, ConfigError>)
    modifies set i | 0 <= i < |configs| :: configs[i].config
    ensures var name := OrElse(selectedConfiguration, cli.configuration);
      var chosen := Select(configs, name);
      && (|configs| == 0 ==> r == Err(NoConfigurations))
      && (|configs| > 0 && chosen.None? ==> r == Err(CannotDetermineConfiguration(Keys(configs))))
      && (|configs| > 0 && chosen.Some? && !Truthy(chosen.value.deviceType) ==> r == Err(MissingType))
      && (|configs| > 0 && chosen.Some? && Truthy(chosen.value.deviceType) ==>
            && chosen.value.device == ResolveDevice(cli.deviceName, old(chosen.value.device), old(chosen.value.name))
            && chosen.value.name == None
            && r == (if QueryIsEmpty(chosen.value.device) then Err(EmptyDevice) else Ok(chosen.value)))
    ensures forall i :: 0 <= i < |configs| && configs[i].config !in Touched(configs, OrElse(selectedConfiguration, cli.configuration)) ==>
      unchanged(configs[i].config)
  {
    if |configs| == 0 {
      return Err(NoConfigurations);
    }
    var configurationName := OrElse(selectedConfiguration, cli.configuration);
    var chosen := Select(configs, configurationName);
    if chosen.None? {
      return Err(CannotDetermineConfiguration(Keys(configs)));
    }
    var deviceConfig := chosen.value;
    if !Truthy(deviceConfig.deviceType) {
      return Err(MissingType);
    }
    deviceConfig.device := ResolveDevice(cli.deviceName, deviceConfig.device, deviceConfig.name);
    deviceConfig.name := None;
    if QueryIsEmpty(deviceConfig.device) {
      return Err(EmptyDevice);
    }
    return Ok(deviceConfig);
  }

  // ---------------------------------------------------------------------
  // Behaviour flags

  /** `_.defaults` on one flag: an undefined value is filled from the source. */
  function Fill(dst: Option<bool>, src: Option<bool>): Option<bool> {
    if dst.Some? then dst else src
  }

  function MergeDefaults(dst: BehaviorLayer, src: BehaviorLayer): BehaviorLayer {
    BehaviorLayer(
      Fill(dst.exposeGlobals, src.exposeGlobals),
      Fill(dst.reinstallApp, src.reinstallApp),
      Fill(dst.launchApp, src.launchApp),
      Fill(dst.shutdownDevice, src.shutdownDevice))
  }

  /** `_.defaultsDeep(first, ...rest)`: the sources are applied left to right. */
  function DefaultsDeep(layers: seq<BehaviorLayer>): BehaviorLayer
    decreases |layers|
  {
    if |layers| == 0 then NoBehavior
    else MergeDefaults(DefaultsDeep(layers[..|layers| - 1]), layers[|layers| - 1])
  }

  /** The reference reading: the first defined value, in argument order. */
  function FirstDefined(values: seq<Option<bool>>): (r: Option<bool>)
    ensures r.Some? <==> exists i :: 0 <= i < |values| && values[i].Some?
    ensures r.Some? ==> exists i :: (0 <= i < |values| && values[i] == r
      && forall j :: 0 <= j < i ==> values[j].None?)
  {
    if values == [] then None
    else if values[0].Some? then values[0]
    else
      var r := FirstDefined(values[1..]);
      assert forall i :: 1 <= i < |values| ==> values[i] == values[1..][i - 1];
      if r.Some? then
        var k :| 0 <= k < |values[1..]| && values[1..][k] == r && forall j :: 0 <= j < k ==> values[1..][j].None?;
        assert values[k + 1] == r;
        r
      else r
  }

  lemma {:induction false} FirstDefinedSnoc(values: seq<Option<bool>>, last: Option<bool>)
    ensures FirstDefined(values + [last]) == Fill(FirstDefined(values), last)
    decreases |values|
  {
    if values == [] {
    } else {
      assert (values + [last])[1..] == values[1..] + [last];
      FirstDefinedSnoc(values[1..], last);
    }
  }

  lemma FirstDefinedCons(values: seq<Option<bool>>)
    requires |values| > 0
    ensures FirstDefined(values) == Fill(values[0], FirstDefined(values[1..]))
  {
  }

  /** Over the five layers of composition, the first defined value is a chain of fills. */
  lemma FirstDefinedOfFive(a: Option<bool>, b: Option<bool>, c: Option<bool>, d: Option<bool>, e: Option<bool>)
    ensures FirstDefined([a, b, c, d, e]) == Fill(a, Fill(b, Fill(c, Fill(d, e))))
  {
    FirstDefinedCons([a, b, c, d, e]);
    assert [a, b, c, d, e][1..] == [b, c, d, e];
    FirstDefinedCons([b, c, d, e]);
    assert [b, c, d, e][1..] == [c, d, e];
    FirstDefinedCons([c, d, e]);
    assert [c, d, e][1..] == [d, e];
    FirstDefinedCons([d, e]);
    assert [d, e][1..] == [e];
    FirstDefinedCons([e]);
    assert [e][1..] == [];
  }

  function ExposeGlobalsOf(layers: seq<BehaviorLayer>): (r: seq<Option<bool>>)
    ensures |r| == |layers| && forall i :: 0 <= i < |layers| ==> r[i] == layers[i].exposeGlobals
  {
    seq(|layers|, i requires 0 <= i < |layers| => layers[i].exposeGlobals)
  }

  function ReinstallAppOf(layers: seq<BehaviorLayer>): (r: seq<Option<bool>>)
    ensures |r| == |layers| && forall i :: 0 <= i < |layers| ==> r[i] == layers[i].reinstallApp
  {
    seq(|layers|, i requires 0 <= i < |layers| => layers[i].reinstallApp)
  }

  function LaunchAppOf(layers: seq<BehaviorLayer>): (r: seq<Option<bool>>)
    ensures |r| == |layers| && forall i :: 0 <= i < |layers| ==> r[i] == layers[i].launchApp
  {
    seq(|layers|, i requires 0 <= i < |layers| => layers[i].launchApp)
  }

  function ShutdownDeviceOf(layers: seq<BehaviorLayer>): (r: seq<Option<bool>>)
    ensures |r| == |layers| && forall i :: 0 <= i < |layers| ==> r[i] == layers[i].shutdownDevice
  {
    seq(|layers|, i requires 0 <= i < |layers| => layers[i].shutdownDevice)
  }

  /** `defaultsDeep` gives every flag the first value defined for it across the layers. */
  lemma {:induction false} DefaultsDeepIsFirstDefined(layers: seq<BehaviorLayer>)
    ensures DefaultsDeep(layers).exposeGlobals == FirstDefined(ExposeGlobalsOf(layers))
    ensures DefaultsDeep(layers).reinstallApp == FirstDefined(ReinstallAppOf(layers))
    ensures DefaultsDeep(layers).launchApp == FirstDefined(LaunchAppOf(layers))
    ensures DefaultsDeep(layers).shutdownDevice == FirstDefined(ShutdownDeviceOf(layers))
    decreases |layers|
  {
    if |layers| > 0 {
      var init, last := layers[..|layers| - 1], layers[|layers| - 1];
      DefaultsDeepIsFirstDefined(init);
      assert ExposeGlobalsOf(layers) == ExposeGlobalsOf(init) + [last.exposeGlobals];
      assert ReinstallAppOf(layers) == ReinstallAppOf(init) + [last.reinstallApp];
      assert LaunchAppOf(layers) == LaunchAppOf(init) + [last.launchApp];
      assert ShutdownDeviceOf(layers) == ShutdownDeviceOf(init) + [last.shutdownDevice];
      FirstDefinedSnoc(ExposeGlobalsOf(init), last.exposeGlobals);
      FirstDefinedSnoc(ReinstallAppOf(init), last.reinstallApp);
      FirstDefinedSnoc(LaunchAppOf(init), last.launchApp);
      FirstDefinedSnoc(ShutdownDeviceOf(init), last.shutdownDevice);
    }
  }

  /** `defaultsDeep` of five objects, unrolled. */
  lemma DefaultsDeepOfFive(l0: BehaviorLayer, l1: BehaviorLayer, l2: BehaviorLayer, l3: BehaviorLayer, l4: BehaviorLayer)
    ensures DefaultsDeep([l0, l1, l2, l3, l4]) ==
      MergeDefaults(MergeDefaults(MergeDefaults(MergeDefaults(MergeDefaults(NoBehavior, l0), l1), l2), l3), l4)
  {
    DefaultsDeepLast([l0, l1, l2, l3, l4]);
    assert [l0, l1, l2, l3, l4][..4] == [l0, l1, l2, l3];
    DefaultsDeepLast([l0, l1, l2, l3]);
    assert [l0, l1, l2, l3][..3] == [l0, l1, l2];
    DefaultsDeepLast([l0, l1, l2]);
    assert [l0, l1, l2][..2] == [l0, l1];
    DefaultsDeepLast([l0, l1]);
    assert [l0, l1][..1] == [l0];
    DefaultsDeepLast([l0]);
    assert [l0][..0] == [];
  }

  lemma DefaultsDeepLast(layers: seq<BehaviorLayer>)
    requires |layers| > 0
    ensures DefaultsDeep(layers) == MergeDefaults(DefaultsDeep(layers[..|layers| - 1]), layers[|layers| - 1])
  {
  }

  /** What the runner's caller passes to `init`. */
  datatype UserParams = UserParams(initGlobals: Option<bool>, launchApp: Option<bool>, reuse: bool)

  /** The layer built from `--reuse` and `--cleanup`. */
  function CliLayer(cli: CliArgs): BehaviorLayer {
    BehaviorLayer(None, if cli.reuse then Some(false) else None, None, if cli.cleanup then Some(true) else None)
  }

  /** The layer built from user params: `reinstallApp` is always defined, as `!reuse`. */
  function UserLayer(userParams: Option<UserParams>): BehaviorLayer {
    match userParams
    case None => NoBehavior
    case Some(p) => BehaviorLayer(p.initGlobals, Some(!p.reuse), p.launchApp, None)
  }

  const DefaultBehavior := BehaviorLayer(Some(true), Some(true), Some(true), Some(false))

  /** The five layers of `composeBehaviorConfig`, highest precedence first. */
  function BehaviorLayers(cli: CliArgs, userParams: Option<UserParams>,
                          deviceBehavior: BehaviorLayer, detoxBehavior: BehaviorLayer): seq<BehaviorLayer> {
    [CliLayer(cli), UserLayer(userParams), deviceBehavior, detoxBehavior, DefaultBehavior]
  }

  /** `composeBehaviorConfig`; the defaults layer leaves no flag undefined. */
  function ComposeBehavior(cli: CliArgs, userParams: Option<UserParams>,
                           deviceBehavior: BehaviorLayer, detoxBehavior: BehaviorLayer): (r: BehaviorLayer)
    ensures r.exposeGlobals.Some? && r.reinstallApp.Some? && r.launchApp.Some? && r.shutdownDevice.Some?
  {
    var layers := BehaviorLayers(cli, userParams, deviceBehavior, detoxBehavior);
    DefaultsDeepIsFirstDefined(layers);
    assert ExposeGlobalsOf(layers)[4].Some? && ReinstallAppOf(layers)[4].Some?;
    assert LaunchAppOf(layers)[4].Some? && ShutdownDeviceOf(layers)[4].Some?;
    DefaultsDeep(layers)
  }

  /**
   * Precedence: command line, then user params, then the device
   * configuration, then the detox configuration, then the defaults.
   */
  lemma BehaviorPrecedence(cli: CliArgs, userParams: Option<UserParams>,
                           deviceBehavior: BehaviorLayer, detoxBehavior: BehaviorLayer)
    ensures var r := ComposeBehavior(cli, userParams, deviceBehavior, detoxBehavior);
      var u := UserLayer(userParams);
      && r.exposeGlobals == Fill(u.exposeGlobals, Fill(deviceBehavior.exposeGlobals, Fill(detoxBehavior.exposeGlobals, Some(true))))
      && r.reinstallApp == (if cli.reuse then Some(false)
           else Fill(u.reinstallApp, Fill(deviceBehavior.reinstallApp, Fill(detoxBehavior.reinstallApp, Some(true)))))
      && r.launchApp == Fill(u.launchApp, Fill(deviceBehavior.launchApp, Fill(detoxBehavior.launchApp, Some(true))))
      && r.shutdownDevice == (if cli.cleanup then Some(true)
           else Fill(deviceBehavior.shutdownDevice, Fill(detoxBehavior.shutdownDevice, Some(false))))
  {
    var layers := BehaviorLayers(cli, userParams, deviceBehavior, detoxBehavior);
    DefaultsDeepOfFive(layers[0], layers[1], layers[2], layers[3], layers[4]);
  }

  /**
   * With user params, `reinstallApp` is `!reuse` whatever the two
   * configuration files say; only `--reuse` on the command line beats it.
   */
  lemma UserReuseWins(cli: CliArgs, p: UserParams, deviceBehavior: BehaviorLayer, detoxBehavior: BehaviorLayer)
    ensures ComposeBehavior(cli, Some(p), deviceBehavior, detoxBehavior).reinstallApp ==
      Some(if cli.reuse then false else !p.reuse)
  {
    BehaviorPrecedence(cli, Some(p), deviceBehavior, detoxBehavior);
  }

  /** With nothing defined anywhere the defaults apply. */
  lemma BehaviorDefaults()
    ensures ComposeBehavior(CliArgs(None, None, false, false), None, NoBehavior, NoBehavior)
      == BehaviorLayer(Some(true), Some(true), Some(true), Some(false))
  {
    BehaviorPrecedence(CliArgs(None, None, false, false), None, NoBehavior, NoBehavior);
  }

  // ---------------------------------------------------------------------
  // Session

  /** The session used when neither configuration has one. */
  function DefaultSession(port: nat, sessionId: string): Session {
    Session(Some(true), Some("ws://localhost:" + NatToString(port)), Some(sessionId))
  }

  /**
   * `composeSessionConfig`: the device session, else the detox session,
   * else the default; the server is checked before the session id.
   */
  function ComposeSession(deviceSession: Option<Session>, detoxSession: Option<Session>,
                          port: nat, sessionId: string): (r: Result<Session, ConfigError>)
    ensures var chosen := if deviceSession.Some? then deviceSession.value
                          else if detoxSession.Some? then detoxSession.value
                          else DefaultSession(port, sessionId);
      && (r.Ok? <==> Truthy(chosen.server) && Truthy(chosen.sessionId))
      && (r.Ok? ==> r.value == chosen)
      && (!Truthy(chosen.server) ==> r == Err(MissingServer))
      && (Truthy(chosen.server) && !Truthy(chosen.sessionId) ==> r == Err(MissingSessionId))
  {
    var session := if deviceSession.Some? then deviceSession.value
                   else if detoxSession.Some? then detoxSession.value
                   else DefaultSession(port, sessionId);
    if !Truthy(session.server) then Err(MissingServer)
    else if !Truthy(session.sessionId) then Err(MissingSessionId)
    else Ok(session)
  }

  /** The default session always names a server, so only an empty session id can fail it. */
  lemma DefaultSessionServer(port: nat, sessionId: string)
    ensures ComposeSession(None, None, port, sessionId) ==
      if sessionId == "" then Err(MissingSessionId) else Ok(DefaultSession(port, sessionId))
  {
  }

  // ---------------------------------------------------------------------
  // Artifact plugin presets

  /** A plugin entry: undefined, a preset name, settings, or what a plugin's `parseConfig` made of a preset. */
  datatype PluginValue =
    | Undefined
    | Preset(name: string)
    | Settings(settings: map<string, string>)
    | Parsed(plugin: string, preset: string)

  datatype ArtifactsConfig = ArtifactsConfig(
    rootDir: Option<string>,
    pathBuilder: Option<string>,
    plugins: Option<map<string, PluginValue>>)

  /** The plugins whose string presets are parsed. */
  const KnownPlugins: set<string> := {"log", "screenshot", "video", "instruments", "timeline"}

  /** `ifString(value, Plugin.parseConfig)`. */
  function IfString(plugin: string, value: PluginValue): PluginValue {
    if value.Preset? then Parsed(plugin, value.name) else value
  }

  function PluginEntry(plugins: map<string, PluginValue>, key: string): PluginValue {
    if key in plugins then plugins[key] else Undefined
  }

  /**
   * `extendArtifactsConfig`: the input itself when it has no plugins;
   * otherwise the same config whose five known plugins are each parsed when
   * given as a string, and written (possibly as undefined) even when absent.
   */
  function ExtendArtifactsConfig(config: Option<ArtifactsConfig>): (r: Option<ArtifactsConfig>)
    ensures config.None? || config.value.plugins.None? ==> r == config
    ensures config.Some? && config.value.plugins.Some? ==>
      var p := config.value.plugins.value;
      && r.Some? && r.value.rootDir == config.value.rootDir && r.value.pathBuilder == config.value.pathBuilder
      && r.value.plugins.Some?
      && r.value.plugins.value.Keys == p.Keys + KnownPlugins
      && (forall k :: k in KnownPlugins ==> r.value.plugins.value[k] == IfString(k, PluginEntry(p, k)))
      && (forall k :: k in p && k !in KnownPlugins ==> r.value.plugins.value[k] == p[k])
  {
    if config.None? || config.value.plugins.None? then config
    else
      var p := config.value.plugins.value;
      var parsed := map k | k in KnownPlugins :: IfString(k, PluginEntry(p, k));
      Some(config.value.(plugins := Some(p + parsed)))
  }

  /** Extending twice is extending once: parsed presets are not strings. */
  lemma ExtendIdempotent(config: Option<ArtifactsConfig>)
    ensures ExtendArtifactsConfig(ExtendArtifactsConfig(config)) == ExtendArtifactsConfig(config)
  {
    var once := ExtendArtifactsConfig(config);
    if once.Some? && once.value.plugins.Some? {
      var twice := ExtendArtifactsConfig(once);
      assert twice.value.plugins.value == once.value.plugins.value;
    }
  }

  /** A settings object is kept as it is; only a string is handed to the parser. */
  lemma ExtendKeepsSettings(rootDir: Option<string>, settings: map<string, string>)
    ensures var r := ExtendArtifactsConfig(Some(ArtifactsConfig(rootDir, None, Some(map["video" := Settings(settings)]))));
      r.Some? && r.value.plugins.Some? && r.value.plugins.value["video"] == Settings(settings)
      && r.value.plugins.value["log"] == Undefined
  {
  }

  // ---------------------------------------------------------------------
  // The whole composition

  datatype DetoxConfig = DetoxConfig(
    configurations: seq<NamedConfig>,
    selectedConfiguration: Option<string>,
    behavior: BehaviorLayer,
    session: Option<Session>)

  datatype Composed = Composed(
    configurationName: Option<string>,
    behaviorConfig: BehaviorLayer,
    deviceConfig: DeviceConfig,
    sessionConfig: Session)

  /**
   * `composeDetoxConfig`: no config is an error; then the device
   * configuration, the key it is stored under, the behaviour flags and
   * the session, in that order, the first error ending composition.
   */
  method ComposeDetoxConfig(detoxConfig: Option<DetoxConfig>, userParams: Option<UserParams>,
                            cli: CliArgs, port: nat, sessionId: string)
    returns (r: Result<Composed, ConfigError>)
    modifies if detoxConfig.Some? then set i | 0 <= i < |detoxConfig.value.configurations| :: detoxConfig.value.configurations[i].config
             else {}
    ensures detoxConfig.None? ==> r == Err(NoDetoxConfig)
    ensures detoxConfig.Some? ==>
      var configs := detoxConfig.value.configurations;
      var chosen := Select(configs, OrElse(detoxConfig.value.selectedConfiguration, cli.configuration));
      && (|configs| == 0 ==> r == Err(NoConfigurations))
      && (|configs| > 0 && chosen.None? ==> r == Err(CannotDetermineConfiguration(Keys(configs))))
      && (|configs| > 0 && chosen.Some? && !Truthy(chosen.value.deviceType) ==> r == Err(MissingType))
      && (|configs| > 0 && chosen.Some? && Truthy(chosen.value.deviceType) ==>
            && chosen.value.device == ResolveDevice(cli.deviceName, old(chosen.value.device), old(chosen.value.name))
            && chosen.value.name == None
            && (QueryIsEmpty(chosen.value.device) ==> r == Err(EmptyDevice))
            && (!QueryIsEmpty(chosen.value.device) ==>
                  var session := ComposeSession(chosen.value.session, detoxConfig.value.session, port, sessionId);
                  r == if session.Err? then Err(session.error)
                       else Ok(Composed(FindKey(configs, chosen.value),
                                        ComposeBehavior(cli, userParams, chosen.value.behavior, detoxConfig.value.behavior),
                                        chosen.value, session.value))))
    ensures detoxConfig.Some? ==>
      var configs := detoxConfig.value.configurations;
      forall i :: 0 <= i < |configs| && configs[i].config !in
                    Touched(configs, OrElse(detoxConfig.value.selectedConfiguration, cli.configuration)) ==>
        unchanged(configs[i].config)
  {
    if detoxConfig.None? {
      return Err(NoDetoxConfig);
    }
    var cfg := detoxConfig.value;
    var device := ComposeDeviceConfig(cfg.configurations, cfg.selectedConfiguration, cli);
    if device.Err? {
      return Err(device.error);
    }
    var deviceConfig := device.value;
    var configurationName := FindKey(cfg.configurations, deviceConfig);
    var behaviorConfig := ComposeBehavior(cli, userParams, deviceConfig.behavior, cfg.behavior);
    var session := ComposeSession(deviceConfig.session, cfg.session, port, sessionId);
    if session.Err? {
      return Err(session.error);
    }
    return Ok(Composed(configurationName, behaviorConfig, deviceConfig, session.value));
  }
}
