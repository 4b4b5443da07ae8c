/** Python's `str.strip()` without arguments, which the server applies to the
    handshake answer and to every received line before comparing it. */
module Text {

  /** The characters Python 3 treats as whitespace (`str.isspace`). */
  predicate IsSpace(c: char) {
    ('\t' <= c <= '\r') || ('\U{1c}' <= c <= '\U{1f}') || c == ' '
    || c == '\U{85}' || c == '\U{a0}' || c == '\U{1680}'
    || ('\U{2000}' <= c <= '\U{200a}') || c == '\U{2028}' || c == '\U{2029}'
    || c == '\U{202f}' || c == '\U{205f}' || c == '\U{3000}'
  }

  predicate AllSpace(s: string) {
    forall i :: 0 <= i < |s| ==> IsSpace(s[i])
  }

  /** Neither the first nor the last character of `s` is whitespace. */
  predicate Trimmed(s: string) {
    s == [] || (!IsSpace(s[0]) && !IsSpace(s[|s| - 1]))
  }

  /** Length of the longest whitespace prefix of `s`. */
  function LeadingSpaces(s: string): (k: nat)
    ensures k <= |s|
    ensures forall i :: 0 <= i < k ==> IsSpace(s[i])
    ensures k < |s| ==> !IsSpace(s[k])
  {
    if s == [] || !IsSpace(s[0]) then 0
    else 1 + LeadingSpaces(s[1..])
  }

  /** Length of the longest whitespace suffix of `s`. */
  function TrailingSpaces(s: string): (k: nat)
    ensures k <= |s|
    ensures forall i :: |s| - k <= i < |s| ==> IsSpace(s[i])
    ensures k < |s| ==> !IsSpace(s[|s| - k - 1])
  {
    if s == [] || !IsSpace(s[|s| - 1]) then 0
    else 1 + TrailingSpaces(s[..|s| - 1])
  }

  /** Every character of `s` outside the index range [a, b) is whitespace. */
  predicate SpaceOutside(s: string, a: nat, b: nat) {
    forall i :: 0 <= i < |s| && !(a <= i < b) ==> IsSpace(s[i])
  }

  /** Where the stripped text starts and ends inside `s`: everything outside is
      whitespace and, unless nothing is left, both ends are not. */
  function StripBounds(s: string): (p: (nat, nat))
    ensures p.0 <= p.1 <= |s| && SpaceOutside(s, p.0, p.1)
    ensures p.0 < p.1 ==> !IsSpace(s[p.0]) && !IsSpace(s[p.1 - 1])
  {
    var a := LeadingSpaces(s);
    var t := s[a..];
    var k := TrailingSpaces(t);
    assert forall i :: a + |t| - k <= i < |s| ==> s[i] == t[i - a];
    (a, a + |t| - k)
  }

  /** `s` without its leading and trailing whitespace. */
  function Strip(s: string): (r: string)
    ensures Trimmed(r) && |r| <= |s|
  {
    var p := StripBounds(s);
    s[p.0..p.1]
  }

  /** Whitespace around a trimmed word is exactly what Strip removes. */
  lemma StripPadded(pre: string, w: string, post: string)
    requires AllSpace(pre) && AllSpace(post) && Trimmed(w)
    ensures Strip(pre + w + post) == w
  {
    var s := pre + w + post;
    var (a, b) := StripBounds(s);
    assert forall i :: 0 <= i < |pre| ==> IsSpace(s[i]) by {
      forall i | 0 <= i < |pre| ensures IsSpace(s[i]) { assert s[i] == pre[i]; }
    }
    assert forall i :: |pre| + |w| <= i < |s| ==> IsSpace(s[i]) by {
      forall i | |pre| + |w| <= i < |s| ensures IsSpace(s[i]) { assert s[i] == post[i - |pre| - |w|]; }
    }
    if w == [] {
      assert a == b;
    } else {
      assert s[|pre|] == w[0] && s[|pre| + |w| - 1] == w[|w| - 1];
      assert a == |pre| && b == |pre| + |w|;
      assert s[a..b] == w;
    }
  }

  /** The end-of-turn sentinel as players normally send it. */
  lemma StripEndLine()
    ensures Strip("end\n") == "end" && Strip("end") == "end"
  {
    StripPadded("", "end", "\n");
    assert "" + "end" + "\n" == "end\n";
    StripPadded("", "end", "");
    assert "" + "end" + "" == "end";
  }
}
