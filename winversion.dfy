/**
 * Windows version detection of the coding overlay: `get_windows_version` parses the dotted
 * release string that `platform.win32_ver()` reports, and `is_win10_2004_or_higher` gates the
 * frameless window style on the result. The platform name and the release string are inputs.
 */
module WinVersion {
  import opened Wrappers
  import opened Text

  datatype Version = Version(major: int, minor: int, build: int)

  // ---------------------------------------------------------------- Python's int()

  predicate IsDigit(c: char) {
    '0' <= c <= '9'
  }

  predicate IsDigits(s: string) {
    |s| > 0 && forall i :: 0 <= i < |s| ==> IsDigit(s[i])
  }

  /** The value of a string of decimal digits, most significant first. */
  function DigitsValue(s: string): nat
    requires forall i :: 0 <= i < |s| ==> IsDigit(s[i])
    decreases |s|
  {
    if |s| == 0 then 0
    else
      assert IsDigit(s[|s| - 1]);
      DigitsValue(s[..|s| - 1]) * 10 + (s[|s| - 1] as int - '0' as int)
  }

  /**
   * `int(s)` on a string: surrounding whitespace is ignored, then an optional sign and one or
   * more decimal digits; anything else raises `ValueError`, modelled as `None`.
   */
  function ParseInt(s: string): (r: Option<int>)
    ensures r.Some? ==> |Strip(s)| > 0
  {
    var t := Strip(s);
    if |t| > 0 && (t[0] == '+' || t[0] == '-') then
      if IsDigits(t[1..]) then
        var magnitude: int := DigitsValue(t[1..]);
        Some(if t[0] == '-' then -magnitude else magnitude)
      else None
    else if IsDigits(t) then Some(DigitsValue(t))
    else None
  }

  /** The decimal digits of a natural number, without leading zeros. */
  function FormatNat(n: nat): (s: string)
    ensures IsDigits(s)
    decreases n
  {
    if n < 10 then [('0' as int + n) as char]
    else FormatNat(n / 10) + [('0' as int + n % 10) as char]
  }

  lemma {:induction false} FormatNatValue(n: nat)
    ensures DigitsValue(FormatNat(n)) == n
    decreases n
  {
    if n >= 10 {
      FormatNatValue(n / 10);
      var s := FormatNat(n);
      assert s[..|s| - 1] == FormatNat(n / 10);
    }
  }

  lemma DigitsUnstripped(s: string)
    requires IsDigits(s)
    ensures Strip(s) == s
  {
    assert !IsSpace(s[0]);
    assert StripLeft(s) == s;
    assert !IsSpace(s[|s| - 1]);
  }

  /** `int(str(n))` gives `n` back. */
  lemma ParseFormatted(n: nat)
    ensures ParseInt(FormatNat(n)) == Some(n)
  {
    DigitsUnstripped(FormatNat(n));
    FormatNatValue(n);
  }

  // ---------------------------------------------------------------- the version and the gate

  /**
   * `get_windows_version`: `None` off Windows; otherwise the first three dot-separated segments
   * as integers, with minor and build 0 when absent, and `None` when a present one of them is
   * not an integer. Segments after the third are not looked at.
   */
  function GetWindowsVersion(system: string, release: string): (r: Option<Version>)
    ensures system != "Windows" ==> r.None?
    ensures r.Some? && |Split(release, '.')| == 1 ==> r.value.minor == 0 && r.value.build == 0
    ensures r.Some? && |Split(release, '.')| == 2 ==> r.value.build == 0
  {
    if system != "Windows" then None
    else
      var segments := Split(release, '.');
      var major := ParseInt(segments[0]);
      var minor := if |segments| > 1 then ParseInt(segments[1]) else Some(0);
      var build := if |segments| > 2 then ParseInt(segments[2]) else Some(0);
      if major.None? || minor.None? || build.None? then None
      else Some(Version(major.value, minor.value, build.value))
  }

  /**
   * `is_win10_2004_or_higher`: major version 11 or more, or major 10 with build 22631 or more.
   * The threshold is the code's 22631, not the 19041 that its description gives.
   */
  predicate IsWin10_2004OrHigher(ver: Option<Version>)
    ensures IsWin10_2004OrHigher(ver) ==> ver.Some? && ver.value.major >= 10
  {
    ver.Some? && (ver.value.major >= 11 || (ver.value.major == 10 && ver.value.build >= 22631))
  }

  /** The dotted form of a version, as Windows reports it. */
  function VersionString(v: Version): string
    requires v.major >= 0 && v.minor >= 0 && v.build >= 0
  {
    FormatNat(v.major) + "." + FormatNat(v.minor) + "." + FormatNat(v.build)
  }

  lemma DigitsDotFree(s: string)
    requires IsDigits(s)
    ensures FreeOf(s, '.')
  {
    forall i | 0 <= i < |s| ensures s[i] != '.' {
      assert IsDigit(s[i]);
    }
  }

  /** On Windows, a reported "major.minor.build" parses back to exactly that version. */
  lemma VersionRoundTrip(v: Version)
    requires v.major >= 0 && v.minor >= 0 && v.build >= 0
    ensures GetWindowsVersion("Windows", VersionString(v)) == Some(v)
  {
    var parts := [FormatNat(v.major), FormatNat(v.minor), FormatNat(v.build)];
    DigitsDotFree(parts[0]);
    DigitsDotFree(parts[1]);
    DigitsDotFree(parts[2]);
    SplitJoin(parts, '.');
    assert parts[1..][1..] == [parts[2]];
    assert Join(parts[1..], ".") == parts[1] + "." + parts[2];
    assert Join(parts, ".") == VersionString(v);
    ParseFormatted(v.major);
    ParseFormatted(v.minor);
    ParseFormatted(v.build);
  }

  /** A release string with only a major number gets minor and build 0. */
  lemma MissingSegmentsDefault(major: nat)
    ensures GetWindowsVersion("Windows", FormatNat(major)) == Some(Version(major, 0, 0))
  {
    DigitsDotFree(FormatNat(major));
    SplitFree(FormatNat(major), '.');
    ParseFormatted(major);
  }

  /** On Windows each present field among the first three is the integer its segment parses to. */
  lemma SegmentsParsed(release: string)
    ensures var r := GetWindowsVersion("Windows", release);
      r.Some? ==> ParseInt(Split(release, '.')[0]) == Some(r.value.major)
    ensures var r := GetWindowsVersion("Windows", release);
      r.Some? && |Split(release, '.')| > 1 ==> ParseInt(Split(release, '.')[1]) == Some(r.value.minor)
    ensures var r := GetWindowsVersion("Windows", release);
      r.Some? && |Split(release, '.')| > 2 ==> ParseInt(Split(release, '.')[2]) == Some(r.value.build)
  {
  }

  /** A release whose major, minor or build segment is present but not an integer is no version. */
  lemma NonIntegerSegmentIsNone(release: string, k: nat)
    requires k < 3 && k < |Split(release, '.')| && ParseInt(Split(release, '.')[k]).None?
    ensures GetWindowsVersion("Windows", release) == None
  {
  }

  /** An empty release string is no version: `int("")` fails. */
  lemma EmptyReleaseIsNone()
    ensures GetWindowsVersion("Windows", "") == None
  {
    assert Strip("") == "";
  }

  /** Off Windows there is never a version, so the gate is closed whatever the release says. */
  lemma NonWindowsIsClosed(system: string, release: string)
    requires system != "Windows"
    ensures GetWindowsVersion(system, release) == None
    ensures !IsWin10_2004OrHigher(GetWindowsVersion(system, release))
  {
  }

  /** Build 19041 of Windows 10 (version 2004) does not open the gate; build 22631 does. */
  lemma GateThreshold()
    ensures !IsWin10_2004OrHigher(GetWindowsVersion("Windows", "10.0.19041"))
    ensures IsWin10_2004OrHigher(GetWindowsVersion("Windows", "10.0.22631"))
  {
    ThresholdReleases();
    VersionRoundTrip(Version(10, 0, 19041));
    VersionRoundTrip(Version(10, 0, 22631));
  }

  /** The dotted forms of the two builds on either side of the threshold. */
  lemma ThresholdReleases()
    ensures VersionString(Version(10, 0, 19041)) == "10.0.19041"
    ensures VersionString(Version(10, 0, 22631)) == "10.0.22631"
  {
  }

  /** The gate is monotone: a later build of the same major release, or any newer major, passes too. */
  lemma GateMonotone(v: Version, w: Version)
    requires IsWin10_2004OrHigher(Some(v))
    requires w.major > v.major || (w.major == v.major && w.build >= v.build)
    ensures IsWin10_2004OrHigher(Some(w))
  {
  }
}
