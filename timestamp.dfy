/**
 * The timestamp used in artifact names
 * (detox/src/artifacts/utils/getTimeStampString.js): an ISO-8601 string
 * from `Date.prototype.toISOString` with its first `T` turned into a space
 * and its first `.ddd` (a dot and three digits) removed. The clock read is
 * left to the caller: the ISO string is the input.
 */
module TimeStamp {
  import opened Common

  predicate IsDigit(c: char) {
    '0' <= c <= '9'
  }

  /** Index of the first occurrence of `c` at or after `from`, if any. */
  function IndexOf(s: string, c: char, from: nat): (r: Option<nat>)
    requires from <= |s|
    ensures r.Some? ==> from <= r.value < |s| && s[r.value] == c
    ensures r.Some? ==> forall j :: from <= j < r.value ==> s[j] != c
    ensures r.None? ==> forall j :: from <= j < |s| ==> s[j] != c
    decreases |s| - from
  {
    if from == |s| then None else if s[from] == c then Some(from) else IndexOf(s, c, from + 1)
  }

  /** Whether `/\.\d{3}/` matches at position `i`. */
  predicate MillisAt(s: string, i: nat) {
    i + 4 <= |s| && s[i] == '.' && IsDigit(s[i + 1]) && IsDigit(s[i + 2]) && IsDigit(s[i + 3])
  }

  /** The first position at or after `from` where `/\.\d{3}/` matches, if any. */
  function FirstMillis(s: string, from: nat): (r: Option<nat>)
    requires from <= |s|
    ensures r.Some? ==> from <= r.value && MillisAt(s, r.value)
    ensures r.Some? ==> forall j :: from <= j < r.value ==> !MillisAt(s, j)
    ensures r.None? ==> forall j :: from <= j ==> !MillisAt(s, j)
    decreases |s| - from
  {
    if from + 4 > |s| then None
    else if MillisAt(s, from) then Some(from)
    else FirstMillis(s, from + 1)
  }

  /** `.replace(/T/, ' ')`: only the first `T` changes; a string without one is returned as is. */
  function ReplaceFirstT(s: string): (r: string)
    ensures |r| == |s|
    ensures IndexOf(s, 'T', 0).None? ==> r == s
    ensures IndexOf(s, 'T', 0).Some? ==>
      var i := IndexOf(s, 'T', 0).value;
      r[i] == ' ' && (forall j :: 0 <= j < |s| && j != i ==> r[j] == s[j])
  {
    match IndexOf(s, 'T', 0)
    case None => s
    case Some(i) => s[..i] + " " + s[i + 1..]
  }

  /** `.replace(/\.\d{3}/, '')`: only the first match is cut out; the rest keeps its order. */
  function RemoveFirstMillis(s: string): (r: string)
    ensures FirstMillis(s, 0).None? ==> r == s
    ensures FirstMillis(s, 0).Some? ==>
      var i := FirstMillis(s, 0).value;
      |r| == |s| - 4 && r[..i] == s[..i] && r[i..] == s[i + 4..]
  {
    match FirstMillis(s, 0)
    case None => s
    case Some(i) => s[..i] + s[i + 4..]
  }

  /** `getTimeStampString(date)`, given `date.toISOString()`. */
  function TimeStampString(iso: string): string {
    RemoveFirstMillis(ReplaceFirstT(iso))
  }

  /** The shape `toISOString` produces for years 0 to 9999: `YYYY-MM-DDTHH:mm:ss.sssZ`. */
  predicate IsIsoString(s: string) {
    && |s| == 24
    && s[4] == '-' && s[7] == '-' && s[10] == 'T' && s[13] == ':' && s[16] == ':' && s[19] == '.' && s[23] == 'Z'
    && (forall j :: 0 <= j < 24 && j !in {4, 7, 10, 13, 16, 19, 23} ==> IsDigit(s[j]))
  }

  /** An ISO string becomes `YYYY-MM-DD HH:mm:ssZ`: four characters shorter, everything else in place. */
  lemma {:induction false} IsoTimeStamp(iso: string)
    requires IsIsoString(iso)
    ensures TimeStampString(iso) == iso[..10] + " " + iso[11..19] + "Z"
    ensures |TimeStampString(iso)| == 20
  {
    assert IndexOf(iso, 'T', 0) == Some(10) by {
      assert forall j :: 0 <= j < 10 ==> iso[j] != 'T' by {
        assert forall j :: 0 <= j < 10 && j != 4 && j != 7 ==> IsDigit(iso[j]);
      }
    }
    var t := ReplaceFirstT(iso);
    assert t[19] == '.' && t[10] == ' ';
    assert FirstMillis(t, 0) == Some(19) by {
      assert MillisAt(t, 19);
      // No dot occurs before position 19.
      assert forall j :: 0 <= j < 19 ==> t[j] != '.' by {
        assert forall j :: 0 <= j < 19 && j !in {4, 7, 10, 13, 16} ==> IsDigit(iso[j]);
      }
    }
    var r := RemoveFirstMillis(t);
    assert r == t[..19] + t[23..];
    assert t[..10] == iso[..10] && t[11..19] == iso[11..19] && t[23..] == "Z";
    assert t[..19] == iso[..10] + " " + iso[11..19];
  }

  /** The worked example. */
  lemma TimeStampExample()
    ensures TimeStampString("2020-04-27T11:25:43.123Z") == "2020-04-27 11:25:43Z"
  {
    var iso := "2020-04-27T11:25:43.123Z";
    ExampleIsIso();
    IsoTimeStamp(iso);
    ExampleSlices();
  }

  /** The example string has the shape `toISOString` produces. */
  lemma ExampleIsIso()
    ensures IsIsoString("2020-04-27T11:25:43.123Z")
  {
  }

  /** The pieces of the example string the timestamp keeps. */
  lemma ExampleSlices()
    ensures var iso := "2020-04-27T11:25:43.123Z";
            iso[..10] + " " + iso[11..19] + "Z" == "2020-04-27 11:25:43Z"
  {
  }
}
