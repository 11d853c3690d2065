/** The JavaScript string and typed-array operations the core relies on. */
module JsString {

  /** `s.startsWith(prefix)`. */
  predicate StartsWith(s: string, prefix: string) {
    prefix <= s
  }

  /** `s.endsWith(suffix)`: suffix is a prefix of the equally long tail of s. */
  predicate EndsWith(s: string, suffix: string) {
    |suffix| <= |s| && suffix <= s[|s| - |suffix|..]
  }

  /** `s.includes(sub)`: sub occurs at the front of s or somewhere further on. */
  predicate Includes(s: string, sub: string)
    decreases |s|
  {
    sub <= s || (|s| > 0 && Includes(s[1..], sub))
  }

  /** Includes holds exactly when sub is a prefix of some suffix of s. */
  lemma {:induction false} IncludesIff(s: string, sub: string)
    ensures Includes(s, sub) <==> exists i :: 0 <= i <= |s| && sub <= s[i..]
  {
    if sub <= s {
      assert s[0..] == s;
    } else if |s| > 0 {
      IncludesIff(s[1..], sub);
      if Includes(s[1..], sub) {
        var i :| 0 <= i <= |s[1..]| && sub <= s[1..][i..];
        assert s[1..][i..] == s[i + 1..];
      }
      if exists i :: 0 <= i <= |s| && sub <= s[i..] {
        var i :| 0 <= i <= |s| && sub <= s[i..];
        assert i != 0;
        assert s[1..][i - 1..] == s[i..];
      }
    }
  }

  /** A witness position proves an occurrence. */
  lemma IncludesAt(s: string, sub: string, i: nat)
    requires i <= |s| && sub <= s[i..]
    ensures Includes(s, sub)
  {
    IncludesIff(s, sub);
  }

  /** A character of sub that s lacks rules out every occurrence. */
  lemma MissingCharExcludes(s: string, sub: string, c: char)
    requires c in sub && c !in s
    ensures !Includes(s, sub)
  {
    IncludesIff(s, sub);
  }

  /** A mismatch at position k rules out a prefix. */
  lemma MismatchExcludesPrefix(s: string, prefix: string, k: nat)
    requires k < |prefix| && (k >= |s| || s[k] != prefix[k])
    ensures !StartsWith(s, prefix)
  {
  }

  /** A mismatch in the last character rules out a suffix. */
  lemma LastCharExcludesSuffix(s: string, suffix: string)
    requires |suffix| > 0 && (|s| == 0 || s[|s| - 1] != suffix[|suffix| - 1])
    ensures !EndsWith(s, suffix)
  {
  }

  /** Every tail of a suffix occurs. */
  lemma SuffixTailIncluded(s: string, suffix: string, k: nat)
    requires EndsWith(s, suffix) && k <= |suffix|
    ensures Includes(s, suffix[k..])
  {
    var at := |s| - |suffix| + k;
    assert suffix[k..] <= s[at..] by {
      assert forall j :: 0 <= j < |suffix| - k ==> suffix[k..][j] == s[|s| - |suffix|..][k + j];
    }
    IncludesAt(s, suffix[k..], at);
  }

  /** The index a relative argument of `slice` denotes: negative counts from the end, both ends clamp. */
  function RelativeIndex(i: int, len: nat): (r: nat)
    ensures r <= len
    ensures 0 <= i <= len ==> r == i
    ensures i < 0 <= i + len ==> r == i + len
    ensures i + len < 0 ==> r == 0
    ensures len < i ==> r == len
  {
    if i < 0 then (if len + i < 0 then 0 else len + i)
    else if i > len then len
    else i
  }

  /** `s.slice(begin, end)` for strings and typed arrays. */
  function Slice<T>(s: seq<T>, begin: int, end: int): (r: seq<T>)
    ensures |r| <= |s|
    ensures var b, e := RelativeIndex(begin, |s|), RelativeIndex(end, |s|);
      r == if b < e then s[b..e] else []
  {
    var b, e := RelativeIndex(begin, |s|), RelativeIndex(end, |s|);
    if b < e then s[b..e] else []
  }

  /** `s.slice(begin)`. */
  function SliceFrom<T>(s: seq<T>, begin: int): (r: seq<T>)
    ensures r == s[RelativeIndex(begin, |s|)..]
  {
    Slice(s, begin, |s|)
  }

  /** Slicing at two cut points and joining the pieces gives back the whole. */
  lemma SlicesCover<T>(s: seq<T>, a: nat, b: nat)
    requires a <= b
    ensures Slice(s, 0, a) + Slice(s, a, b) + SliceFrom(s, b) == s
  {
    if b <= |s| {
      assert s[..a] + s[a..b] + s[b..] == s;
    } else if a <= |s| {
      assert s[..a] + s[a..] == s;
    }
  }
}
