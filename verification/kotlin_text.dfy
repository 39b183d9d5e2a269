/**
  Kotlin's `String` as the screens use it: a sequence of UTF-16 code units, compared with `==`
  (`equals(other, ignoreCase = false)`), measured with `length`, and cut down with `trim()`.
 */
module KotlinText {

  /** One UTF-16 code unit, which is what a Kotlin `Char` is. */
  type CodeUnit = x: int | 0 <= x < 0x1_0000

  type Text = seq<CodeUnit>

  /**
    Kotlin's `Char.isWhitespace()` on the JVM: Java's `Character.isWhitespace` or
    `Character.isSpaceChar`, i.e. the control characters TAB..CR and FS..US, and every
    space, line and paragraph separator of Unicode (no-break spaces included).
   */
  predicate IsWhitespace(c: CodeUnit) {
    || 0x09 <= c <= 0x0D
    || 0x1C <= c <= 0x20
    || c == 0xA0
    || c == 0x1680
    || 0x2000 <= c <= 0x200A
    || c == 0x2028
    || c == 0x2029
    || c == 0x202F
    || c == 0x205F
    || c == 0x3000
  }

  predicate AllWhitespace(s: Text) {
    forall k | 0 <= k < |s| :: IsWhitespace(s[k])
  }

  /**
    `[lo, hi)` is what `trim()` keeps of `s`: only whitespace lies outside it, and a
    non-empty range neither starts nor ends on whitespace.
   */
  predicate TrimBounds(s: Text, lo: int, hi: int) {
    && 0 <= lo <= hi <= |s|
    && (forall k | 0 <= k < lo :: IsWhitespace(s[k]))
    && (forall k | hi <= k < |s| :: IsWhitespace(s[k]))
    && (lo < hi ==> !IsWhitespace(s[lo]) && !IsWhitespace(s[hi - 1]))
  }

  /** The reference definition of trimming: `t` is `s` with whitespace cut off both ends. */
  ghost predicate IsTrimOf(s: Text, t: Text) {
    exists lo, hi :: TrimBounds(s, lo, hi) && t == s[lo..hi]
  }

  /** The first position at or after `k` that does not hold whitespace (or `|s|`). */
  function SkipLeading(s: Text, k: nat): (lo: nat)
    requires k <= |s|
    ensures k <= lo <= |s|
    ensures forall m | k <= m < lo :: IsWhitespace(s[m])
    ensures lo < |s| ==> !IsWhitespace(s[lo])
    decreases |s| - k
  {
    if k < |s| && IsWhitespace(s[k]) then SkipLeading(s, k + 1) else k
  }

  /** The end of `s[lo..hi]` once the whitespace before `hi` is dropped (but not below `lo`). */
  function SkipTrailing(s: Text, lo: nat, hi: nat): (end: nat)
    requires lo <= hi <= |s|
    ensures lo <= end <= hi
    ensures forall m | end <= m < hi :: IsWhitespace(s[m])
    ensures lo < end ==> !IsWhitespace(s[end - 1])
    decreases hi
  {
    if lo < hi && IsWhitespace(s[hi - 1]) then SkipTrailing(s, lo, hi - 1) else hi
  }

  /** Kotlin's `String.trim()`. */
  function Trim(s: Text): (t: Text)
    ensures IsTrimOf(s, t)
    ensures |t| <= |s|
    ensures t == [] <==> AllWhitespace(s)
  {
    var lo := SkipLeading(s, 0);
    var hi := SkipTrailing(s, lo, |s|);
    assert TrimBounds(s, lo, hi);
    s[lo..hi]
  }

  /** Any two trims of a text keep the same range of it, or both keep nothing. */
  lemma TrimBoundsUnique(s: Text, lo1: int, hi1: int, lo2: int, hi2: int)
    requires TrimBounds(s, lo1, hi1) && TrimBounds(s, lo2, hi2)
    ensures s[lo1..hi1] == s[lo2..hi2]
  {
    if lo1 < hi1 && lo2 < hi2 {
      assert lo1 == lo2 && hi1 == hi2;
    }
  }

  /** Whitespace cut off both ends is determined by the text: at most one `t` is a trim of `s`. */
  lemma TrimOfUnique(s: Text, t1: Text, t2: Text)
    requires IsTrimOf(s, t1) && IsTrimOf(s, t2)
    ensures t1 == t2
  {
    var lo1, hi1 :| TrimBounds(s, lo1, hi1) && t1 == s[lo1..hi1];
    var lo2, hi2 :| TrimBounds(s, lo2, hi2) && t2 == s[lo2..hi2];
    TrimBoundsUnique(s, lo1, hi1, lo2, hi2);
  }

  /** Trimming twice is trimming once. */
  lemma TrimIdempotent(s: Text)
    ensures Trim(Trim(s)) == Trim(s)
  {
    var t := Trim(s);
    var lo, hi :| TrimBounds(s, lo, hi) && t == s[lo..hi];
    assert TrimBounds(t, 0, |t|) && t == t[0..|t|];
    TrimOfUnique(t, Trim(t), t);
  }

  /** A text that neither starts nor ends with whitespace is left as it is. */
  lemma TrimKeepsUnpadded(s: Text)
    requires |s| > 0 ==> !IsWhitespace(s[0]) && !IsWhitespace(s[|s| - 1])
    ensures Trim(s) == s
  {
    assert TrimBounds(s, 0, |s|) && s == s[0..|s|];
    TrimOfUnique(s, Trim(s), s);
  }

  /** Padding a text with whitespace shifts its trim range by the padding in front. */
  lemma TrimBoundsPadded(pre: Text, s: Text, post: Text, lo: int, hi: int)
    requires TrimBounds(s, lo, hi)
    requires AllWhitespace(pre) && AllWhitespace(post)
    ensures TrimBounds(pre + s + post, |pre| + lo, |pre| + hi)
    ensures (pre + s + post)[|pre| + lo..|pre| + hi] == s[lo..hi]
  {
    var p := pre + s + post;
    var n := |pre|;
    assert forall k | 0 <= k < n :: p[k] == pre[k];
    assert forall k | 0 <= k < |s| :: p[n + k] == s[k];
    assert forall k | n + |s| <= k < |p| :: p[k] == post[k - n - |s|];
    forall k | 0 <= k < n + lo
      ensures IsWhitespace(p[k])
    {
      if k >= n {
        assert p[k] == s[k - n];
      }
    }
    forall k | n + hi <= k < |p|
      ensures IsWhitespace(p[k])
    {
      if k < n + |s| {
        assert p[k] == s[k - n];
      }
    }
  }

  /** Whitespace padding on either side of a text does not change what `trim()` leaves. */
  lemma TrimIgnoresPadding(pre: Text, s: Text, post: Text)
    requires AllWhitespace(pre) && AllWhitespace(post)
    ensures Trim(pre + s + post) == Trim(s)
  {
    var t := Trim(s);
    var lo, hi :| TrimBounds(s, lo, hi) && t == s[lo..hi];
    var p := pre + s + post;
    TrimBoundsPadded(pre, s, post, lo, hi);
    TrimOfUnique(p, Trim(p), t);
  }
}
