/** String tests shared by the template editor and the optimizer (Python's `in` and `startswith`). */
module Text {

  /** `s.startswith(prefix)`. */
  predicate StartsWith(s: string, prefix: string)
  {
    |prefix| <= |s| && s[..|prefix|] == prefix
  }

  /** `s.endswith(suffix)`. */
  predicate EndsWith(s: string, suffix: string)
  {
    |suffix| <= |s| && s[|s| - |suffix|..] == suffix
  }

  /** Python's substring test `needle in s`: the empty string occurs in every string. */
  predicate Contains(s: string, needle: string)
    decreases |s|
  {
    StartsWith(s, needle) || (|s| > 0 && Contains(s[1..], needle))
  }

  /** A string that contains `needle` still contains it with anything appended. */
  lemma {:induction false} ContainsExtended(a: string, b: string, needle: string)
    requires Contains(a, needle)
    ensures Contains(a + b, needle)
    decreases |a|
  {
    if StartsWith(a, needle) {
      assert (a + b)[..|needle|] == a[..|needle|];
    } else {
      assert (a + b)[1..] == a[1..] + b;
      ContainsExtended(a[1..], b, needle);
    }
  }

  /** A string that contains `needle` still contains it with anything put in front. */
  lemma {:induction false} ContainsPrefixed(a: string, b: string, needle: string)
    requires Contains(b, needle)
    ensures Contains(a + b, needle)
    decreases |a|
  {
    if a == [] {
      assert a + b == b;
    } else {
      assert (a + b)[1..] == a[1..] + b;
      ContainsPrefixed(a[1..], b, needle);
    }
  }

  /** A string contains a non-empty `needle` only if it contains the needle's first character. */
  lemma {:induction false} ContainsFirstChar(s: string, needle: string)
    requires |needle| > 0 && Contains(s, needle)
    ensures needle[0] in s
    decreases |s|
  {
    if StartsWith(s, needle) {
      assert s[..|needle|][0] == s[0];
    } else {
      ContainsFirstChar(s[1..], needle);
    }
  }
}
