/** The two string tests that `KotlinBukkit.onEnable` makes on version
    strings: whether the running build is a snapshot, and whether the tag of
    the latest published release calls for an update notice. */
module Versions {

  /** The suffix that marks a development build. */
  const SnapshotSuffix: string := "-SNAPSHOT"

  /** Kotlin's `String.startsWith(Char)`: false on the empty string. */
  predicate StartsWith(s: string, c: char) {
    |s| > 0 && s[0] == c
  }

  /** Kotlin's `String.endsWith(String)`. */
  predicate EndsWith(s: string, suffix: string) {
    |suffix| <= |s| && s[|s| - |suffix|..] == suffix
  }

  /** `KotlinBukkit.isSnapshot`, applied to the plugin's declared version. */
  predicate IsSnapshot(version: string) {
    EndsWith(version, SnapshotSuffix)
  }

  /** A version is a snapshot exactly when it is some base string followed by
      the snapshot suffix. */
  lemma SnapshotIffSuffixed(version: string)
    ensures IsSnapshot(version) <==> exists base: string :: version == base + SnapshotSuffix
  {
    if IsSnapshot(version) {
      var base := version[..|version| - |SnapshotSuffix|];
      assert version == base + SnapshotSuffix;
    }
    if exists base: string :: version == base + SnapshotSuffix {
      var base: string :| version == base + SnapshotSuffix;
      assert version[|version| - |SnapshotSuffix|..] == SnapshotSuffix;
    }
  }

  /** The condition under which `onEnable` announces the release tagged `tag`
      while the running build declares `current`. The tag may carry one
      leading 'v' that the current version lacks; nothing is stripped from
      the current version, and no ordering of versions is involved. */
  predicate IsNewRelease(current: string, tag: string) {
    current != tag
    && (StartsWith(current, 'v') || !StartsWith(tag, 'v') || current != tag[1..])
  }

  /** No notice is due exactly when the tag is the current version, or is the
      current version with a 'v' put in front of it while the current version
      itself does not begin with 'v'. */
  lemma NoNoticeIff(current: string, tag: string)
    ensures !IsNewRelease(current, tag)
            <==> current == tag || (tag == ['v'] + current && !StartsWith(current, 'v'))
  {
  }

  /** A running version that begins with 'v' is announced against every tag
      that differs from it, even the same release without the 'v'. */
  lemma VersionWithPrefixAlwaysNotified(current: string, tag: string)
    requires StartsWith(current, 'v')
    requires current != tag
    ensures IsNewRelease(current, tag)
  {
  }

  /** The rule is not symmetric in its two arguments. */
  lemma NoticeRuleExamples()
    ensures !IsNewRelease("1.2.0", "v1.2.0")
    ensures !IsNewRelease("1.2.0", "1.2.0")
    ensures IsNewRelease("v1.2.0", "1.2.0")
    ensures IsNewRelease("1.2.0", "1.3.0")
    ensures !IsSnapshot("1.2.0") && IsSnapshot("1.3.0-SNAPSHOT")
  {
  }
}
