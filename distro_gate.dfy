/** The operating-system gate of the prereq state: it runs only on Ubuntu 20.04. */
module DistroGate {

  const SupportedFamily: string := "ubuntu"
  const SupportedVersions: seq<string> := ["20.04"]
  const UnsupportedPrefix: string := "Ubuntu2004EncryptionStateMachine called for distro "

  /** Lower-casing of one character (ASCII letters only). */
  function LowerChar(c: char): char
  {
    if 'A' <= c <= 'Z' then (c as int + 32) as char else c
  }

  /** Lower-casing of a string, character by character. */
  function Lower(s: string): (r: string)
    ensures |r| == |s|
    ensures forall i :: 0 <= i < |s| ==> r[i] == LowerChar(s[i])
  {
    if |s| == 0 then [] else [LowerChar(s[0])] + Lower(s[1..])
  }

  /** The gate: the lower-cased family is `ubuntu` and the version is one of the supported ones. */
  predicate IsSupported(family: string, version: string)
  {
    Lower(family) == SupportedFamily && version in SupportedVersions
  }

  /** The text of the exception raised for any other distro; it names the family and the version. */
  function UnsupportedMessage(family: string, version: string): (m: string)
    ensures |m| == |UnsupportedPrefix| + |family| + 1 + |version|
    ensures m[..|UnsupportedPrefix|] == UnsupportedPrefix
    ensures m[|UnsupportedPrefix|..|UnsupportedPrefix| + |family|] == family
    ensures m[|m| - |version|..] == version
  {
    UnsupportedPrefix + family + " " + version
  }

  /** A character lower-cases to the lower-case letter `lo` exactly when it is `lo` or its
      upper-case form. */
  lemma LowerCharIs(c: char, lo: char)
    requires 'a' <= lo <= 'z'
    ensures LowerChar(c) == lo <==> c == lo || c as int == lo as int - 32
  {
  }

  /** The gate, stated without lower-casing: the family spells `ubuntu` in any mix of cases and
      the version is exactly `20.04`. */
  lemma IsSupportedIff(family: string, version: string)
    ensures IsSupported(family, version) <==>
      |family| == 6 &&
      (forall i :: 0 <= i < 6 ==> family[i] == "ubuntu"[i] || family[i] == "UBUNTU"[i]) &&
      version == "20.04"
  {
    var l := Lower(family);
    if |family| == 6 {
      forall i | 0 <= i < 6
        ensures l[i] == "ubuntu"[i] <==> family[i] == "ubuntu"[i] || family[i] == "UBUNTU"[i]
      {
        LowerCharIs(family[i], "ubuntu"[i]);
      }
      if forall i :: 0 <= i < 6 ==> l[i] == "ubuntu"[i] {
        assert l == "ubuntu";
      }
    }
  }
}
