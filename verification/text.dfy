/** Python's `str.strip()` with no argument: removes leading and trailing whitespace. */
module Text {

  /** The characters for which Python's `str.isspace()` holds. */
  predicate IsSpace(c: char)
  {
    c == ' ' || ('\t' <= c <= '\r') || ('\U{1C}' <= c <= '\U{1F}') || c == '\U{85}' || c == '\U{A0}'
    || c == '\U{1680}' || ('\U{2000}' <= c <= '\U{200A}') || c == '\U{2028}' || c == '\U{2029}'
    || c == '\U{202F}' || c == '\U{205F}' || c == '\U{3000}'
  }

  /** `s.lstrip()`: the longest suffix of `s` that does not start with whitespace. */
  function StripLeft(s: string): (r: string)
    ensures |r| <= |s| && r == s[|s| - |r|..]
    ensures forall i :: 0 <= i < |s| - |r| ==> IsSpace(s[i])
    ensures |r| > 0 ==> !IsSpace(r[0])
  {
    if |s| > 0 && IsSpace(s[0]) then StripLeft(s[1..]) else s
  }

  /** `s.rstrip()`: the longest prefix of `s` that does not end with whitespace. */
  function StripRight(s: string): (r: string)
    ensures |r| <= |s| && r == s[..|r|]
    ensures forall i :: |r| <= i < |s| ==> IsSpace(s[i])
    ensures |r| > 0 ==> !IsSpace(r[|r| - 1])
  {
    if |s| > 0 && IsSpace(s[|s| - 1]) then StripRight(s[..|s| - 1]) else s
  }

  /** `s.strip()`. */
  function Strip(s: string): (r: string)
  {
    StripRight(StripLeft(s))
  }

  /** `len(s.strip()) > 0` holds exactly when `s` has a character that is not whitespace. */
  lemma StripNonEmptyIff(s: string)
    ensures |Strip(s)| > 0 <==> exists i :: 0 <= i < |s| && !IsSpace(s[i])
  {
  }

  /** What `strip` leaves is a slice of the input with whitespace only around it. */
  lemma StripIsSlice(s: string)
    ensures exists i, j ::
              && 0 <= i <= j <= |s| && Strip(s) == s[i..j]
              && (forall k :: 0 <= k < i ==> IsSpace(s[k]))
              && (forall k :: j <= k < |s| ==> IsSpace(s[k]))
  {
    var l := StripLeft(s);
    var r := StripRight(l);
    var i := |s| - |l|;
    var j := i + |r|;
    assert r == s[i..j];
    forall k | j <= k < |s| ensures IsSpace(s[k]) {
      assert l[k - i] == s[k];
    }
  }
}
