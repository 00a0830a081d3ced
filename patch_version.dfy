/**
 * `getPatchVersion` (utils/patch-version.ts): a commit count read as a
 * `major.minor.patch` version, one hundred commits per major version.
 */
module PatchVersion {
  import opened Wrappers

  /** The count used when `git rev-list --count HEAD` cannot be run. */
  const FallbackCommitCount: nat := 64

  datatype Version = Version(major: nat, minor: nat, patch: nat)

  predicate WellFormed(v: Version) {
    v.major >= 1 && v.minor < 10 && v.patch < 10
  }

  /** `floor(n / 100) + 1`, `floor((n % 100) / 10)`, `n % 10`. */
  function VersionOf(commitCount: nat): (v: Version)
    ensures WellFormed(v)
    ensures commitCount == (v.major - 1) * 100 + v.minor * 10 + v.patch
  {
    Version(commitCount / 100 + 1, (commitCount % 100) / 10, commitCount % 10)
  }

  /** The commit count a well-formed version stands for. */
  function CommitCountOf(v: Version): nat
    requires WellFormed(v)
  {
    (v.major - 1) * 100 + v.minor * 10 + v.patch
  }

  /** Every well-formed version is the version of exactly one commit count. */
  lemma VersionRoundTrip(v: Version)
    requires WellFormed(v)
    ensures VersionOf(CommitCountOf(v)) == v
  {
    var n := CommitCountOf(v);
    var w := VersionOf(n);
    DigitsUnique(v.major - 1, v.minor, v.patch, w.major - 1, w.minor, w.patch);
  }

  lemma DigitsUnique(a: nat, b: nat, c: nat, a': nat, b': nat, c': nat)
    requires b < 10 && c < 10 && b' < 10 && c' < 10
    requires a * 100 + b * 10 + c == a' * 100 + b' * 10 + c'
    ensures a == a' && b == b' && c == c'
  {
  }

  /** Different commit counts give different versions. */
  lemma VersionOfInjective(n: nat, m: nat)
    requires VersionOf(n) == VersionOf(m)
    ensures n == m
  {
  }

  function DigitChar(d: nat): (c: char)
    requires d < 10
    ensures '0' <= c <= '9'
    ensures c as int - '0' as int == d
  {
    "0123456789"[d]
  }

  /** The number a string of decimal digits denotes, most significant digit first. */
  function DigitsValue(s: string): int
    decreases |s|
  {
    if s == [] then 0 else DigitsValue(s[..|s| - 1]) * 10 + (s[|s| - 1] as int - '0' as int)
  }

  /** The decimal numeral of `n`, as a template literal prints it. */
  function NatToString(n: nat): (s: string)
    ensures |s| >= 1
    ensures forall i :: 0 <= i < |s| ==> '0' <= s[i] <= '9'
    ensures DigitsValue(s) == n
    ensures n > 0 || |s| > 1 ==> s[0] != '0'
    decreases n
  {
    if n < 10 then [DigitChar(n)]
    else
      var s := NatToString(n / 10) + [DigitChar(n % 10)];
      assert s[..|s| - 1] == NatToString(n / 10);
      s
  }

  /** `${majorVersion}.${minorVersion}.${patchVersion}` */
  function FormatVersion(v: Version): string {
    NatToString(v.major) + "." + NatToString(v.minor) + "." + NatToString(v.patch)
  }

  /**
   * `gitCount` is what the git call produced, or `None` when it threw, in
   * which case the hard-coded count is used.
   */
  function GetPatchVersion(gitCount: Option<nat>): (s: string)
    ensures var n := if gitCount.Some? then gitCount.value else FallbackCommitCount;
            s == NatToString(n / 100 + 1) + "." + [DigitChar((n % 100) / 10)] + "." + [DigitChar(n % 10)]
  {
    FormatVersion(VersionOf(if gitCount.Some? then gitCount.value else FallbackCommitCount))
  }

  /** 123 commits are version 2.2.3. */
  lemma HundredTwentyThree()
    ensures GetPatchVersion(Some(123)) == "2.2.3"
  {
    assert VersionOf(123) == Version(2, 2, 3);
  }

  /** Without git the version is 1.6.4, from the hard-coded 64, and not 1.6.5. */
  lemma FallbackVersion()
    ensures GetPatchVersion(None) == "1.6.4"
    ensures GetPatchVersion(None) != "1.6.5"
  {
    assert VersionOf(64) == Version(1, 6, 4);
  }
}
