/**
  The string clean-up that the data-entry form applies to each field:
  Python's `str.strip()` and the upper-casing of a state code.
 */
module Text {

  /** The characters for which Python's `str.isspace()` holds. */
  predicate IsSpace(c: char) {
    var u := c as int;
    || 0x09 <= u <= 0x0D
    || 0x1C <= u <= 0x20
    || u == 0x85 || u == 0xA0 || u == 0x1680
    || 0x2000 <= u <= 0x200A
    || u == 0x2028 || u == 0x2029 || u == 0x202F || u == 0x205F || u == 0x3000
  }

  /** The index of the first character at or after i that is not white space, |s| if none. */
  function SkipSpace(s: string, i: nat): (j: nat)
    requires i <= |s|
    ensures i <= j <= |s|
    ensures forall k :: i <= k < j ==> IsSpace(s[k])
    ensures j < |s| ==> !IsSpace(s[j])
    decreases |s| - i
  {
    if i < |s| && IsSpace(s[i]) then SkipSpace(s, i + 1) else i
  }

  /** The index just past the last character of s[lo..j] that is not white space, lo if none. */
  function TrimSpace(s: string, lo: nat, j: nat): (e: nat)
    requires lo <= j <= |s|
    ensures lo <= e <= j
    ensures forall k :: e <= k < j ==> IsSpace(s[k])
    ensures e > lo ==> !IsSpace(s[e - 1])
  {
    if j > lo && IsSpace(s[j - 1]) then TrimSpace(s, lo, j - 1) else j
  }

  /** `s.strip()`: s without its leading and trailing white space. */
  function Strip(s: string): string {
    var a := SkipSpace(s, 0);
    s[a..TrimSpace(s, a, |s|)]
  }

  /**
    Strip keeps one contiguous piece of s that neither starts nor ends with
    white space, and everything it drops is white space.
   */
  lemma StripTrims(s: string)
    ensures
      var a := SkipSpace(s, 0);
      var e := TrimSpace(s, a, |s|);
      && Strip(s) == s[a..e]
      && (forall k :: 0 <= k < |s| && !(a <= k < e) ==> IsSpace(s[k]))
      && (Strip(s) != [] ==> !IsSpace(Strip(s)[0]) && !IsSpace(Strip(s)[|Strip(s)| - 1]))
  {
  }

  /** A field strips to the empty string exactly when it is all white space. */
  lemma StripEmpty(s: string)
    ensures Strip(s) == "" <==> forall k :: 0 <= k < |s| ==> IsSpace(s[k])
  {
    var a := SkipSpace(s, 0);
    var e := TrimSpace(s, a, |s|);
    if a < |s| {
      assert !IsSpace(s[a]);
      assert e > a;
    }
  }

  /**
    Upper case of one character, for the characters whose upper case is a
    Latin capital letter: a-z, and the long s (U+017F), which Python upper-cases to S.
   */
  function UpperChar(c: char): char {
    if 'a' <= c <= 'z' then (c as int - 32) as char
    else if c as int == 0x017F then 'S'
    else c
  }

  /** `s.upper()` on the characters UpperChar covers. */
  function Upper(s: string): (r: string)
    ensures |r| == |s|
    ensures forall k :: 0 <= k < |s| ==> r[k] == UpperChar(s[k])
  {
    if s == [] then [] else [UpperChar(s[0])] + Upper(s[1..])
  }
}
