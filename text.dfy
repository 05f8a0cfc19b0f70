/**
 * The string primitives the cache and the Hangul helpers rely on: whitespace
 * stripping, lower-casing, prefix and substring tests.
 *
 * Whitespace is the fixed set of code points for which Python's `str.isspace()`
 * holds; lower-casing is the ASCII case map applied one character at a time.
 */
module Text {

  /** The characters `str.strip()` removes when called without arguments. */
  predicate IsSpace(c: char)
  {
    || '\t' <= c <= '\r'                      // U+0009 .. U+000D
    || '\U{1C}' <= c <= '\U{20}'              // file/group/record/unit separators, space
    || c == '\U{85}' || c == '\U{A0}' || c == '\U{1680}'
    || '\U{2000}' <= c <= '\U{200A}'
    || c == '\U{2028}' || c == '\U{2029}' || c == '\U{202F}' || c == '\U{205F}'
    || c == '\U{3000}'
  }

  /** Every character of `s` is whitespace (this includes the empty string). */
  predicate IsBlank(s: string)
  {
    forall k :: 0 <= k < |s| ==> IsSpace(s[k])
  }

  /** The first index at or after `i` that does not hold whitespace, or `|s|`. */
  function SkipLeading(s: string, i: nat): (j: nat)
    requires i <= |s|
    ensures i <= j <= |s|
    ensures forall k :: i <= k < j ==> IsSpace(s[k])
    ensures j < |s| ==> !IsSpace(s[j])
    decreases |s| - i
  {
    if i < |s| && IsSpace(s[i]) then SkipLeading(s, i + 1) else i
  }

  /** The end of `s[lo..hi]` once trailing whitespace is dropped. */
  function SkipTrailing(s: string, lo: nat, hi: nat): (j: nat)
    requires lo <= hi <= |s|
    ensures lo <= j <= hi
    ensures forall k :: j <= k < hi ==> IsSpace(s[k])
    ensures lo < j ==> !IsSpace(s[j - 1])
    decreases hi - lo
  {
    if lo < hi && IsSpace(s[hi - 1]) then SkipTrailing(s, lo, hi - 1) else hi
  }

  /**
   * `s.strip()`: what is left of `s` once leading and trailing whitespace is
   * removed. It is empty exactly when `s` is blank, and otherwise starts and
   * ends with a non-whitespace character.
   */
  function Strip(s: string): (r: string)
    ensures |r| <= |s|
    ensures r == [] <==> IsBlank(s)
    ensures r != [] ==> !IsSpace(r[0]) && !IsSpace(r[|r| - 1])
  {
    var i := SkipLeading(s, 0);
    var j := SkipTrailing(s, i, |s|);
    assert IsBlank(s) ==> i == |s|;
    assert i == j ==> IsBlank(s) by {
      if i == j {
        assert i == |s|;
        assert s[..i] == s;
      }
    }
    s[i..j]
  }

  /** The stripped text is a slice of `s` with only whitespace before and after it. */
  lemma StripSlice(s: string)
    ensures var i, r := SkipLeading(s, 0), Strip(s);
            && i + |r| <= |s| && r == s[i..i + |r|]
            && IsBlank(s[..i]) && IsBlank(s[i + |r|..])
  {
  }

  /** A string that neither starts nor ends with whitespace is its own strip. */
  lemma StripTrimmed(s: string)
    requires s != [] && !IsSpace(s[0]) && !IsSpace(s[|s| - 1])
    ensures Strip(s) == s
  {
  }

  predicate IsUpper(c: char)
  {
    'A' <= c <= 'Z'
  }

  /** `c.lower()` for ASCII: upper-case letters move to lower case, all else is kept. */
  function LowerChar(c: char): (d: char)
    ensures !IsUpper(d)
    ensures IsUpper(c) ==> d as int == c as int + 32
    ensures !IsUpper(c) ==> d == c
  {
    if IsUpper(c) then (c as int + 32) as char else c
  }

  /** `s.lower()`: one lowered character per input character. */
  function Lower(s: string): (r: string)
    ensures |r| == |s|
    ensures forall k :: 0 <= k < |s| ==> r[k] == LowerChar(s[k])
  {
    seq(|s|, k requires 0 <= k < |s| => LowerChar(s[k]))
  }

  lemma {:induction false} LowerIdempotent(s: string)
    ensures Lower(Lower(s)) == Lower(s)
  {
    forall k | 0 <= k < |s|
      ensures Lower(Lower(s))[k] == Lower(s)[k]
    {
      var c := Lower(s)[k];
      assert !IsUpper(c);
    }
  }

  /** `q in s` for strings: `q` occurs somewhere in `s`. */
  predicate IsSubstring(q: string, s: string)
  {
    exists i :: 0 <= i <= |s| && q <= s[i..]
  }

  /** A prefix is in particular a substring (take the occurrence at 0). */
  lemma PrefixIsSubstring(q: string, s: string)
    requires q <= s
    ensures IsSubstring(q, s)
  {
    assert s[0..] == s;
  }
}
