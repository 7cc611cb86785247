/** The text rewrite applied to the walinuxagent systemd unit: every `[Service]` section header
    line gets a `KillMode=process` line right after it.  The rewrite is a plain substitution with
    no check for a directive that is already there. */
module UnitPatch {

  /** The matched text: the section header together with its line break. */
  const Header: string := "[Service]\n"

  /** The line inserted after every header. */
  const KillModeLine: string := "KillMode=process\n"

  /** `s` holds a header starting at position `i`. */
  predicate HeaderAt(s: string, i: nat)
  {
    i + |Header| <= |s| && s[i..i + |Header|] == Header
  }

  /** Left-to-right, non-overlapping replacement of every header by the header followed by `ins`;
      the scan continues after the replaced header in the ORIGINAL text, never in `ins`. */
  function InsertAfterHeaders(s: string, ins: string): string
    decreases |s|
  {
    if |s| == 0 then []
    else if HeaderAt(s, 0) then Header + ins + InsertAfterHeaders(s[|Header|..], ins)
    else [s[0]] + InsertAfterHeaders(s[1..], ins)
  }

  /** The substitution the prereq state applies to the unit file text. */
  function Patch(s: string): string
  {
    InsertAfterHeaders(s, KillModeLine)
  }

  /** How many headers the left-to-right scan replaces. */
  function HeaderCount(s: string): nat
    decreases |s|
  {
    if |s| == 0 then 0
    else if HeaderAt(s, 0) then 1 + HeaderCount(s[|Header|..])
    else HeaderCount(s[1..])
  }

  /** The inverse scan: drop `ins` wherever it immediately follows a header. */
  function RemoveAfterHeaders(t: string, ins: string): string
    decreases |t|
  {
    if |t| == 0 then []
    else if |Header + ins| <= |t| && t[..|Header + ins|] == Header + ins
    then Header + RemoveAfterHeaders(t[|Header + ins|..], ins)
    else [t[0]] + RemoveAfterHeaders(t[1..], ins)
  }

  lemma HeaderAtShift(s: string, i: nat)
    requires |s| > 0
    ensures HeaderAt(s, i + 1) <==> HeaderAt(s[1..], i)
  {
    if i + 1 + |Header| <= |s| {
      assert s[1..][i..i + |Header|] == s[i + 1..i + 1 + |Header|];
    }
  }

  /** A header cannot start with a character other than `[`. */
  lemma NoHeaderWithoutBracket(s: string)
    requires |s| > 0 && s[0] != '['
    ensures !HeaderAt(s, 0)
  {
  }

  /** Each replaced header grows the text by exactly `|ins|` characters. */
  lemma {:induction false} InsertLength(s: string, ins: string)
    ensures |InsertAfterHeaders(s, ins)| == |s| + |ins| * HeaderCount(s)
    decreases |s|
  {
    if |s| == 0 {
    } else if HeaderAt(s, 0) {
      InsertLength(s[|Header|..], ins);
      assert |ins| * HeaderCount(s) == |ins| + |ins| * HeaderCount(s[|Header|..]);
    } else {
      InsertLength(s[1..], ins);
    }
  }

  /** The patched unit text is 17 characters longer per `[Service]` header. */
  lemma PatchLength(s: string)
    ensures |Patch(s)| == |s| + 17 * HeaderCount(s)
  {
    InsertLength(s, KillModeLine);
  }

  /** Text without a header is left exactly as it is. */
  lemma {:induction false} NoHeaderUnchanged(s: string, ins: string)
    requires HeaderCount(s) == 0
    ensures InsertAfterHeaders(s, ins) == s
    decreases |s|
  {
    if |s| > 0 {
      NoHeaderUnchanged(s[1..], ins);
      assert s == [s[0]] + s[1..];
    }
  }

  /** The patch changes the text exactly when the text holds a `[Service]` header. */
  lemma PatchUnchangedIff(s: string)
    ensures Patch(s) == s <==> HeaderCount(s) == 0
  {
    PatchLength(s);
    if HeaderCount(s) == 0 {
      NoHeaderUnchanged(s, KillModeLine);
    }
  }

  /** The scan's count is zero exactly when no position of the text holds a header. */
  lemma {:induction false} HeaderCountZeroIff(s: string)
    ensures HeaderCount(s) == 0 <==> forall i: nat :: !HeaderAt(s, i)
    decreases |s|
  {
    if |s| == 0 {
    } else if HeaderAt(s, 0) {
    } else {
      HeaderCountZeroIff(s[1..]);
      forall i: nat ensures HeaderAt(s, i + 1) <==> HeaderAt(s[1..], i) {
        HeaderAtShift(s, i);
      }
      if HeaderCount(s) == 0 {
        forall i: nat ensures !HeaderAt(s, i) {
          if i > 0 {
            HeaderAtShift(s, i - 1);
          }
        }
      }
    }
  }

  /** Up to `n` characters are copied unchanged as long as no header ends before position `n`. */
  lemma {:induction false} PrefixKept(s: string, ins: string, n: nat)
    requires n <= |s|
    requires forall i: nat :: i + |Header| < n ==> !HeaderAt(s, i)
    ensures n <= |InsertAfterHeaders(s, ins)| && InsertAfterHeaders(s, ins)[..n] == s[..n]
    decreases |s|
  {
    var r := InsertAfterHeaders(s, ins);
    if n == 0 {
    } else if HeaderAt(s, 0) {
      assert n <= |Header|;
      assert r[..n] == Header[..n] == s[..|Header|][..n] == s[..n];
    } else {
      forall i: nat | i + |Header| < n - 1 ensures !HeaderAt(s[1..], i) {
        HeaderAtShift(s, i);
      }
      PrefixKept(s[1..], ins, n - 1);
      assert r == [s[0]] + InsertAfterHeaders(s[1..], ins);
      assert r[..n] == [s[0]] + InsertAfterHeaders(s[1..], ins)[..n - 1];
      assert s[..n] == [s[0]] + s[1..][..n - 1];
    }
  }

  lemma {:induction false} ShortUnchanged(s: string, ins: string)
    requires |s| < |Header|
    ensures InsertAfterHeaders(s, ins) == s
    decreases |s|
  {
    if |s| > 0 {
      ShortUnchanged(s[1..], ins);
      assert s == [s[0]] + s[1..];
    }
  }

  /** The rewritten text starts with a header exactly when the original one does: the rewrite
      never creates a header at the front. */
  lemma StartsWithHeaderIff(s: string, ins: string)
    ensures HeaderAt(InsertAfterHeaders(s, ins), 0) <==> HeaderAt(s, 0)
  {
    if !HeaderAt(s, 0) {
      if |s| < |Header| {
        ShortUnchanged(s, ins);
      } else {
        PrefixKept(s, ins, |Header|);
      }
    }
  }

  /** Text free of `[` passes through the scan untouched. */
  lemma {:induction false} InsertSkip(u: string, t: string, ins: string)
    requires '[' !in u
    ensures InsertAfterHeaders(u + t, ins) == u + InsertAfterHeaders(t, ins)
    ensures HeaderCount(u + t) == HeaderCount(t)
    decreases |u|
  {
    if |u| == 0 {
      assert u + t == t;
    } else {
      var w := u + t;
      NoHeaderWithoutBracket(w);
      assert w[1..] == u[1..] + t;
      InsertSkip(u[1..], t, ins);
      assert u == [u[0]] + u[1..];
    }
  }

  /** The inserted text contains no header and creates none: the count is preserved. */
  lemma {:induction false} HeaderCountPreserved(s: string, ins: string)
    requires '[' !in ins
    ensures HeaderCount(InsertAfterHeaders(s, ins)) == HeaderCount(s)
    decreases |s|
  {
    var r := InsertAfterHeaders(s, ins);
    if |s| == 0 {
    } else if HeaderAt(s, 0) {
      var rest := InsertAfterHeaders(s[|Header|..], ins);
      assert r == Header + (ins + rest);
      assert r[|Header|..] == ins + rest;
      assert r[..|Header|] == Header;
      InsertSkip(ins, rest, ins);
      HeaderCountPreserved(s[|Header|..], ins);
    } else {
      StartsWithHeaderIff(s, ins);
      assert r[1..] == InsertAfterHeaders(s[1..], ins);
      HeaderCountPreserved(s[1..], ins);
    }
  }

  /** Text that starts with a header followed by `ins` starts with a header. */
  lemma HeaderThenInsStartsWithHeader(t: string, ins: string)
    ensures |Header + ins| <= |t| && t[..|Header + ins|] == Header + ins ==> HeaderAt(t, 0)
  {
    if |Header + ins| <= |t| && t[..|Header + ins|] == Header + ins {
      assert t[..|Header|] == (Header + ins)[..|Header|];
    }
  }

  /** Nothing outside the inserted lines changes: removing `ins` after every header of the
      rewritten text gives back the original text. */
  lemma {:induction false} RemoveInsertRoundTrip(s: string, ins: string)
    ensures RemoveAfterHeaders(InsertAfterHeaders(s, ins), ins) == s
    decreases |s|
  {
    var r := InsertAfterHeaders(s, ins);
    if |s| == 0 {
    } else if HeaderAt(s, 0) {
      var rest := InsertAfterHeaders(s[|Header|..], ins);
      assert r == (Header + ins) + rest;
      assert r[..|Header + ins|] == Header + ins;
      assert r[|Header + ins|..] == rest;
      RemoveInsertRoundTrip(s[|Header|..], ins);
      assert s == s[..|Header|] + s[|Header|..];
    } else {
      StartsWithHeaderIff(s, ins);
      HeaderThenInsStartsWithHeader(r, ins);
      assert r[1..] == InsertAfterHeaders(s[1..], ins);
      RemoveInsertRoundTrip(s[1..], ins);
      assert s == [s[0]] + s[1..];
    }
  }

  /** The unit patch loses nothing of the original unit text. */
  lemma PatchRoundTrip(s: string)
    ensures RemoveAfterHeaders(Patch(s), KillModeLine) == s
  {
    RemoveInsertRoundTrip(s, KillModeLine);
  }

  /** Rewriting twice is one rewrite with the second insertion placed first. */
  lemma {:induction false} InsertTwice(s: string, a: string, b: string)
    requires '[' !in a
    ensures InsertAfterHeaders(InsertAfterHeaders(s, a), b) == InsertAfterHeaders(s, b + a)
    decreases |s|
  {
    var r := InsertAfterHeaders(s, a);
    if |s| == 0 {
    } else if HeaderAt(s, 0) {
      var rest := InsertAfterHeaders(s[|Header|..], a);
      assert r == Header + (a + rest);
      assert r[..|Header|] == Header;
      assert r[|Header|..] == a + rest;
      InsertSkip(a, rest, b);
      InsertTwice(s[|Header|..], a, b);
      assert Header + b + (a + InsertAfterHeaders(rest, b))
          == Header + (b + a) + InsertAfterHeaders(s[|Header|..], b + a);
    } else {
      StartsWithHeaderIff(s, a);
      assert r[1..] == InsertAfterHeaders(s[1..], a);
      InsertTwice(s[1..], a, b);
    }
  }

  /** Patching already patched text adds a second `KillMode=process` line after every header. */
  lemma PatchTwice(s: string)
    ensures Patch(Patch(s)) == InsertAfterHeaders(s, KillModeLine + KillModeLine)
  {
    InsertTwice(s, KillModeLine, KillModeLine);
  }

  /** The patch is not idempotent: on any text with a header, a second patch changes it again. */
  lemma PatchNotIdempotent(s: string)
    requires HeaderCount(s) > 0
    ensures Patch(Patch(s)) != Patch(s)
  {
    PatchTwice(s);
    InsertLength(s, KillModeLine + KillModeLine);
    PatchLength(s);
  }

  /** A patched text keeps exactly its headers (the inserted line holds none). */
  lemma PatchKeepsHeaderCount(s: string)
    ensures HeaderCount(Patch(s)) == HeaderCount(s)
  {
    HeaderCountPreserved(s, KillModeLine);
  }
}
