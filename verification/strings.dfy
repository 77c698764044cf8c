/** Python's `str.strip()` with no argument, as applied to the road numbers. */
module Strings {

  /** The characters Python's `str.isspace` accepts, by code point: the
      ASCII separators and control whitespace (9-13, 28-32), NEL, no-break
      space, and the Unicode space, line and paragraph separators. */
  predicate IsSpace(c: char) {
    var n := c as int;
    || 9 <= n <= 13
    || 28 <= n <= 32
    || n == 0x85 || n == 0xA0 || n == 0x1680
    || 0x2000 <= n <= 0x200A
    || n == 0x2028 || n == 0x2029 || n == 0x202F || n == 0x205F || n == 0x3000
  }

  /** Neither end of `s` is whitespace. */
  predicate IsStripped(s: string) {
    |s| == 0 || (!IsSpace(s[0]) && !IsSpace(s[|s| - 1]))
  }

  /** `r` is `s[i..i + |r|]` and every character of `s` outside that slice
      is whitespace. */
  predicate SpaceBorderedSlice(s: string, r: string, i: int) {
    && 0 <= i <= |s| - |r|
    && r == s[i..i + |r|]
    && (forall k :: 0 <= k < i ==> IsSpace(s[k]))
    && (forall k :: i + |r| <= k < |s| ==> IsSpace(s[k]))
  }

  /** `s` with whitespace removed from both ends. */
  function Strip(s: string): (r: string)
    ensures IsStripped(r)
    ensures |r| <= |s|
  {
    if |s| > 0 && IsSpace(s[0]) then Strip(s[1..])
    else if |s| > 0 && IsSpace(s[|s| - 1]) then Strip(s[..|s| - 1])
    else s
  }

  /** What `Strip` keeps is one contiguous slice of `s` with only whitespace
      outside it. */
  lemma {:induction false} StripKeepsBorderedSlice(s: string) returns (i: int)
    ensures SpaceBorderedSlice(s, Strip(s), i)
  {
    if |s| > 0 && IsSpace(s[0]) {
      var j := StripKeepsBorderedSlice(s[1..]);
      i := j + 1;
    } else if |s| > 0 && IsSpace(s[|s| - 1]) {
      i := StripKeepsBorderedSlice(s[..|s| - 1]);
    } else {
      i := 0;
    }
  }

  /** A string with no whitespace at either end is unchanged. */
  lemma StripStrippedIsIdentity(s: string)
    requires IsStripped(s)
    ensures Strip(s) == s
  {
  }

  /** A string made only of whitespace strips to the empty string. */
  lemma {:induction false} AllSpaceStripsToEmpty(s: string)
    requires forall k :: 0 <= k < |s| ==> IsSpace(s[k])
    ensures Strip(s) == ""
  {
    if |s| > 0 {
      AllSpaceStripsToEmpty(s[1..]);
    }
  }

  /** `Strip` is the only slice of `s` without whitespace at its ends that
      leaves only whitespace outside it: whatever `r` meets that description
      is `Strip(s)`. */
  lemma {:induction false} StripUnique(s: string, r: string, i: int)
    requires IsStripped(r) && SpaceBorderedSlice(s, r, i)
    ensures r == Strip(s)
    decreases |s|
  {
    if |r| == 0 {
      assert forall k :: 0 <= k < |s| ==> IsSpace(s[k]);
      AllSpaceStripsToEmpty(s);
    } else if IsSpace(s[0]) {
      assert i > 0 by {
        assert s[i] == r[0];
      }
      assert SpaceBorderedSlice(s[1..], r, i - 1);
      StripUnique(s[1..], r, i - 1);
    } else if IsSpace(s[|s| - 1]) {
      assert i + |r| < |s| by {
        assert s[i + |r| - 1] == r[|r| - 1];
      }
      assert SpaceBorderedSlice(s[..|s| - 1], r, i);
      StripUnique(s[..|s| - 1], r, i);
    } else {
      assert s[i] == r[0];
      assert s[i + |r| - 1] == r[|r| - 1];
    }
  }

  /** Stripping twice is stripping once. */
  lemma StripIdempotent(s: string)
    ensures Strip(Strip(s)) == Strip(s)
  {
    StripStrippedIsIdentity(Strip(s));
  }
}
