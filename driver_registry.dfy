/**
 * Resolution of a device type to a driver (detox/src/devices/DriverRegistry.js):
 * the registry's own table first, then a module named after the type, else
 * an "is not supported" error. The table is fixed at construction, so the
 * registry is a value. The modules that `require` could load are an input.
 */
module DriverRegistry {
  import opened Common

  /** A driver class, identified by the module it comes from. */
  datatype DriverClass = DriverClass(module_: string)

  /** `new DeviceDriverClass(opts)`. */
  datatype Driver<O> = Driver(cls: DriverClass, opts: O)

  datatype Registry = Registry(deviceClasses: map<string, DriverClass>)

  function UnsupportedMessage(deviceType: string): string {
    "'" + deviceType + "' is not supported"
  }

  /** The class `resolve` would construct, if any: the table's entry, else the loadable module's. */
  function ClassFor(registry: Registry, loadable: map<string, DriverClass>, deviceType: string): Option<DriverClass> {
    if deviceType in registry.deviceClasses then Some(registry.deviceClasses[deviceType])
    else if deviceType in loadable then Some(loadable[deviceType])
    else None
  }

  /** `resolve(deviceType, opts)`. */
  function Resolve<O>(registry: Registry, loadable: map<string, DriverClass>, deviceType: string, opts: O)
    : (r: Result<Driver<O>, string>)
    ensures deviceType in registry.deviceClasses ==> r == Ok(Driver(registry.deviceClasses[deviceType], opts))
    ensures deviceType !in registry.deviceClasses && deviceType in loadable ==>
      r == Ok(Driver(loadable[deviceType], opts))
    ensures r.Err? <==> deviceType !in registry.deviceClasses && deviceType !in loadable
    ensures r.Err? ==> r.error == UnsupportedMessage(deviceType)
  {
    match ClassFor(registry, loadable, deviceType)
    case Some(cls) => Ok(Driver(cls, opts))
    case None => Err(UnsupportedMessage(deviceType))
  }

  /** A driver, once resolved, always carries the options it was asked for. */
  lemma ResolveKeepsOpts<O>(registry: Registry, loadable: map<string, DriverClass>, deviceType: string, opts: O)
    ensures Resolve(registry, loadable, deviceType, opts).Ok? ==> Resolve(registry, loadable, deviceType, opts).value.opts == opts
  {
  }

  /** Distinct unsupported types give distinct messages, so the message names the type. */
  lemma UnsupportedMessageNamesType(a: string, b: string)
    requires UnsupportedMessage(a) == UnsupportedMessage(b)
    ensures a == b
  {
    assert a == UnsupportedMessage(a)[1..|UnsupportedMessage(a)| - 18];
    assert b == UnsupportedMessage(b)[1..|UnsupportedMessage(b)| - 18];
  }

  /** `DriverRegistry.default`. */
  const DefaultRegistry := Registry(map[
    "ios.none" := DriverClass("./drivers/ios/IosDriver"),
    "ios.simulator" := DriverClass("./drivers/ios/SimulatorDriver"),
    "android.emulator" := DriverClass("./drivers/android/EmulatorDriver"),
    "android.attached" := DriverClass("./drivers/android/AttachedAndroidDriver")])

  lemma DefaultRegistryTypes()
    ensures DefaultRegistry.deviceClasses.Keys == {"ios.none", "ios.simulator", "android.emulator", "android.attached"}
    ensures |DefaultRegistry.deviceClasses.Keys| == 4
  {
  }

  /** A built-in type is never shadowed by a module of the same name. */
  lemma DefaultTableWins<O>(loadable: map<string, DriverClass>, opts: O)
    ensures Resolve(DefaultRegistry, loadable, "ios.simulator", opts) == Ok(Driver(DriverClass("./drivers/ios/SimulatorDriver"), opts))
  {
  }

  /** The Genymotion-cloud type is not in the default table. */
  lemma GenycloudNotBuiltIn()
    ensures "android.genycloud" !in DefaultRegistry.deviceClasses
  {
    assert forall k :: k in DefaultRegistry.deviceClasses ==> |k| != |"android.genycloud"|;
  }

  /** Any other type with no loadable module is refused, the Genymotion-cloud type included. */
  lemma DefaultRegistryRefuses<O>(opts: O)
    ensures Resolve(DefaultRegistry, map[], "android.genycloud", opts) == Err("'android.genycloud' is not supported")
  {
    GenycloudNotBuiltIn();
    assert UnsupportedMessage("android.genycloud") == "'android.genycloud' is not supported";
  }
}
