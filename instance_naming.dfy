/**
 * Names of Genymotion-cloud instances, as the tests of `GenyInstanceNaming`
 * describe them
 * (detox/src/devices/drivers/android/genycloud/services/GenyInstanceNaming.test.js):
 * `Detox-<session start>.<suffix>`, the suffix being the Jest worker id or,
 * failing that, the milliseconds since the session started; a name belongs
 * to this session's family when it starts with `Detox-<session start>.`.
 *
 * The session start (`DETOX_START_TIMESTAMP`), the worker id and the clock
 * are parameters. The session start is a number written in canonical decimal.
 */
module InstanceNaming {
  import opened Common

  /** `Detox-<start>.`: what every name of the session starts with. */
  function FamilyPrefix(start: nat): string {
    "Detox-" + NatToString(start) + "."
  }

  /** `generateName()`: the worker id when it is non-empty, otherwise `now - start`. */
  function GenerateName(start: nat, workerId: Option<string>, now: int): (name: string)
    ensures StartsWith(name, FamilyPrefix(start))
    ensures Truthy(workerId) ==> name[|FamilyPrefix(start)|..] == workerId.value
    ensures !Truthy(workerId) ==> name[|FamilyPrefix(start)|..] == IntToString(now - start)
  {
    var suffix := if Truthy(workerId) then workerId.value else IntToString(now - start);
    var name := FamilyPrefix(start) + suffix;
    assert name[..|FamilyPrefix(start)|] == FamilyPrefix(start);
    name
  }

  /** `isFamilial(name)`. */
  predicate IsFamilial(start: nat, name: string) {
    StartsWith(name, FamilyPrefix(start))
  }

  /** Every generated name belongs to its own session's family. */
  lemma GeneratedIsFamilial(start: nat, workerId: Option<string>, now: int)
    ensures IsFamilial(start, GenerateName(start, workerId, now))
  {
  }

  /** Without a worker id, two different clock readings give two different names. */
  lemma {:induction false} TimeSuffixDistinguishes(start: nat, workerId: Option<string>, now1: int, now2: int)
    requires !Truthy(workerId) && now1 != now2
    ensures GenerateName(start, workerId, now1) != GenerateName(start, workerId, now2)
  {
    var p := |FamilyPrefix(start)|;
    var n1, n2 := GenerateName(start, workerId, now1), GenerateName(start, workerId, now2);
    if n1 == n2 {
      assert IntToString(now1 - start) == n1[p..] == n2[p..] == IntToString(now2 - start);
      IntToStringInjective(now1 - start, now2 - start);
    }
  }

  /** In a name of the family, the session start's digits are followed by the first dot after `Detox-`. */
  lemma FamilyDot(start: nat, name: string)
    requires IsFamilial(start, name)
    ensures var d := NatToString(start);
            6 + |d| < |name| && name[6 + |d|] == '.' && name[6..6 + |d|] == d
            && forall i :: 6 <= i < 6 + |d| ==> name[i] != '.'
  {
    var d, p := NatToString(start), FamilyPrefix(start);
    assert |p| == 7 + |d| && p == name[..|p|];
    assert p[6..6 + |d|] == d && p[6 + |d|] == '.';
    assert name[6..6 + |d|] == p[6..6 + |d|];
    forall i | 6 <= i < 6 + |d|
      ensures name[i] != '.'
    {
      assert name[i] == p[i] == d[i - 6];
    }
  }

  /** No name belongs to two sessions: the family prefixes of different starts are never both prefixes of one name. */
  lemma {:induction false} FamiliesAreDisjoint(a: nat, b: nat, name: string)
    requires IsFamilial(a, name) && IsFamilial(b, name)
    ensures a == b
  {
    FamilyDot(a, name);
    FamilyDot(b, name);
    var da, db := NatToString(a), NatToString(b);
    assert |da| == |db|;
    assert da == name[6..6 + |da|] == db;
    NatToStringInjective(a, b);
  }

  /** The decimal form of the tests' session start. */
  lemma SessionStartDigits()
    ensures FamilyPrefix(123456) == "Detox-123456."
  {
    assert NatToString(1) == "1";
    assert NatToString(12) == "12";
    assert NatToString(123) == "123";
    assert NatToString(1234) == "1234";
    assert NatToString(12345) == "12345";
    assert NatToString(123456) == "123456";
  }

  lemma NamingExamples()
    ensures GenerateName(123456, Some("777"), 123534) == "Detox-123456.777"
    ensures GenerateName(123456, Some(""), 123534) == "Detox-123456.78"
    ensures GenerateName(123456, None, 123534) == "Detox-123456.78"
  {
    SessionStartDigits();
    assert IntToString(78) == "78" by {
      assert NatToString(7) == "7";
    }
  }

  /** The accepted and refused names of the tests, for the session started at 123456. */
  lemma FamilyExamples()
    ensures IsFamilial(123456, "Detox-123456.10")
    ensures !IsFamilial(123456, "Detox-123457.10")
    ensures !IsFamilial(123456, "Dtx-123456.10")
    ensures !IsFamilial(123456, "123456-Detox-.10")
    ensures !IsFamilial(123456, "_Detox-123456.10")
    ensures !IsFamilial(123456, "Detox-123456-10")
  {
    SessionStartDigits();
    var p := FamilyPrefix(123456);
    assert "Detox-123456.10"[..13] == p;
    assert "Detox-123457.10"[11] != p[11];
    assert "Dtx-123456.10"[1] != p[1];
    assert "123456-Detox-.10"[0] != p[0];
    assert "_Detox-123456.10"[0] != p[0];
    assert "Detox-123456-10"[12] != p[12];
  }
}
