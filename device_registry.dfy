/**
 * The device lease registry, as its tests describe it
 * (detox/src/devices/DeviceRegistry.test.js): every registry leases device
 * ids out of one shared ledger, hands out the first candidate id of a type
 * that nobody holds, creates missing devices up to the number of parallel
 * test runners, and gives ids back on `freeDevice`; `clear` wipes the ledger.
 *
 * The lease ledger is a single object shared by all registries; the file
 * lock and the process-level exclusion behind it are not modelled.
 */
module DeviceRegistry {
  import opened Common

  /** The lease ledger every registry of the process reads and writes. */
  class Ledger {
    var leased: set<string>

    constructor ()
      ensures leased == {}
    {
      leased := {};
    }

    /** `DeviceRegistry.clear`. */
    method Clear()
      modifies this`leased
      ensures leased == {}
    {
      leased := {};
    }
  }

  datatype RegistryError = NoFreeDevice(deviceType: string)

  /** The first candidate nobody holds, if any. */
  function FirstFree(ids: seq<string>, leased: set<string>): (r: Option<string>)
    ensures r.Some? ==> r.value in ids && r.value !in leased
    ensures r.None? <==> forall i :: 0 <= i < |ids| ==> ids[i] in leased
    ensures r.Some? ==> exists k :: 0 <= k < |ids| && ids[k] == r.value && forall j :: 0 <= j < k ==> ids[j] in leased
  {
    if ids == [] then None
    else if ids[0] !in leased then Some(ids[0])
    else
      var rest := FirstFree(ids[1..], leased);
      if rest.Some? then
        assert exists k :: 0 <= k < |ids| && ids[k] == rest.value && forall j :: 0 <= j < k ==> ids[j] in leased by {
          var k :| 0 <= k < |ids[1..]| && ids[1..][k] == rest.value && forall j :: 0 <= j < k ==> ids[1..][j] in leased;
          assert ids[k + 1] == rest.value && forall j :: 0 <= j < k + 1 ==> ids[j] in leased;
        }
        rest
      else rest
  }

  /** How many devices `getDevice` asks to create: the runners the candidates cannot cover. */
  function MissingDevices(candidates: nat, maxTestRunners: nat): nat {
    if candidates < maxTestRunners then maxTestRunners - candidates else 0
  }

  class Registry {
    const ledger: Ledger
    const maxTestRunners: nat
    /** `getDeviceIdsByType`. */
    const deviceIdsByType: string -> seq<string>
    /** The device types `createDevice` was called with, in order. */
    var created: seq<string>

    constructor (ledger: Ledger, maxTestRunners: nat, deviceIdsByType: string -> seq<string>)
      ensures this.ledger == ledger && this.maxTestRunners == maxTestRunners
      ensures this.deviceIdsByType == deviceIdsByType && created == []
    {
      this.ledger := ledger;
      this.maxTestRunners := maxTestRunners;
      this.deviceIdsByType := deviceIdsByType;
      created := [];
    }

    /** Asks for one new device of the type per runner that has no candidate. */
    method CreateMissing(deviceType: string)
      modifies this`created
      ensures created == old(created) + seq(MissingDevices(|deviceIdsByType(deviceType)|, maxTestRunners), _ => deviceType)
    {
      var missing := MissingDevices(|deviceIdsByType(deviceType)|, maxTestRunners);
      var k := 0;
      while k < missing
        invariant 0 <= k <= missing
        invariant created == old(created) + seq(k, _ => deviceType)
      {
        created := created + [deviceType];
        k := k + 1;
        assert seq(k, _ => deviceType) == seq(k - 1, _ => deviceType) + [deviceType];
      }
    }

    /**
     * `getDevice(type)`: creates what is missing, then leases the first
     * free candidate in order; when every candidate is held it fails and
     * the ledger is unchanged.
     */
    method GetDevice(deviceType: string) returns (r: Result<string, RegistryError>)
      modifies ledger`leased, this`created
      ensures created == old(created) + seq(MissingDevices(|deviceIdsByType(deviceType)|, maxTestRunners), _ => deviceType)
      ensures r.Ok? <==> FirstFree(deviceIdsByType(deviceType), old(ledger.leased)).Some?
      ensures r.Ok? ==>
        r.value == FirstFree(deviceIdsByType(deviceType), old(ledger.leased)).value
        && ledger.leased == old(ledger.leased) + {r.value}
      ensures r.Err? ==> r.error == NoFreeDevice(deviceType) && ledger.leased == old(ledger.leased)
    {
      CreateMissing(deviceType);
      var ids := deviceIdsByType(deviceType);
      var i := 0;
      while i < |ids| && ids[i] in ledger.leased
        invariant 0 <= i <= |ids|
        invariant forall j :: 0 <= j < i ==> ids[j] in ledger.leased
        invariant FirstFree(ids[i..], ledger.leased) == FirstFree(ids, ledger.leased)
      {
        assert ids[i..][1..] == ids[i + 1..];
        i := i + 1;
      }
      if i == |ids| {
        return Err(NoFreeDevice(deviceType));
      }
      assert FirstFree(ids[i..], ledger.leased) == Some(ids[i]);
      ledger.leased := ledger.leased + {ids[i]};
      return Ok(ids[i]);
    }

    /** `freeDevice(id)`: the id can be leased again, by any registry. */
    method FreeDevice(id: string)
      modifies ledger`leased
      ensures ledger.leased == old(ledger.leased) - {id}
    {
      ledger.leased := ledger.leased - {id};
    }
  }

  /** A leased id is never handed out again until freed: it is not free by definition. */
  lemma {:induction false} LeasedNeverFirstFree(ids: seq<string>, leased: set<string>, id: string)
    requires id in leased
    ensures FirstFree(ids, leased) != Some(id)
  {
  }

  /** Freeing an id that comes first among the candidates makes it the one handed out next. */
  lemma {:induction false} FreedFirstIsNext(ids: seq<string>, leased: set<string>)
    requires |ids| > 0
    ensures FirstFree(ids, leased - {ids[0]}) == Some(ids[0])
  {
  }

  /** `id-<n>-of-type-<type>` for the n-th of `count` candidates, as the tests build them. */
  function TestIds(count: nat, deviceType: string): (ids: seq<string>)
    ensures |ids| == count
  {
    seq(count, n requires 0 <= n => "id-" + NatToString(n) + "-of-type-" + deviceType)
  }

  /** With a fresh ledger the first candidate is returned, however many there are. */
  method FirstCandidateIsReturned(count: nat) returns (r: Result<string, RegistryError>)
    requires count >= 1
    ensures r == Ok("id-0-of-type-iPhoneX")
  {
    var ledger := new Ledger();
    var registry := new Registry(ledger, 1, t => TestIds(count, t));
    r := registry.GetDevice("iPhoneX");
    var ids := TestIds(count, "iPhoneX");
    assert registry.deviceIdsByType("iPhoneX") == ids;
    assert FirstFree(ids, {}) == Some(ids[0]);
    assert NatToString(0) == "0";
    assert ids[0] == "id-" + NatToString(0) + "-of-type-iPhoneX";
    assert ids[0] == "id-0-of-type-iPhoneX";
    assert r == Ok(ids[0]);
  }

  /**
   * Four runners and one candidate ask for three new devices of the type;
   * one runner and one candidate ask for none.
   */
  method CreateDeviceCount() returns (created4: seq<string>, created1: seq<string>)
    ensures created4 == ["iPhoneX", "iPhoneX", "iPhoneX"]
    ensures created1 == []
  {
    var ledger := new Ledger();
    var registry := new Registry(ledger, 4, t => TestIds(1, t));
    var r := registry.GetDevice("iPhoneX");
    created4 := registry.created;
    ledger.Clear();
    var single := new Registry(ledger, 1, t => TestIds(1, t));
    r := single.GetDevice("iPhoneX");
    created1 := single.created;
  }

  /**
   * Leases are shared: once an id is taken through one registry, another
   * registry over the same ledger cannot get it, until it is freed.
   */
  method LeasesAreShared() returns (taken: Result<string, RegistryError>, refused: Result<string, RegistryError>,
                                    again: Result<string, RegistryError>)
    ensures taken.Ok? && refused == Err(NoFreeDevice("iPhoneX")) && again == taken
  {
    var ledger := new Ledger();
    var first := new Registry(ledger, 1, t => TestIds(1, t));
    var second := new Registry(ledger, 1, t => TestIds(1, t));
    taken := second.GetDevice("iPhoneX");
    refused := first.GetDevice("iPhoneX");
    first.FreeDevice(taken.value);
    again := first.GetDevice("iPhoneX");
  }
}
