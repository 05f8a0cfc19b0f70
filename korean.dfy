/**
 * Hangul initial-consonant (chosung) helpers.
 *
 * A precomposed Hangul syllable U+AC00 .. U+D7A3 is laid out as
 * `base + (initial * 21 + medial) * 28 + final` (the Unicode Standard,
 * section 3.12, Conjoining Jamo Behavior), so its initial consonant is the
 * syllable's offset from the base divided by 21 * 28.
 */
module Korean {
  import opened Text

  /** The 19 initial consonants, in Unicode order (compatibility jamo U+3131 .. U+314E). */
  const Chosung: seq<char> := [
    'ㄱ', 'ㄲ', 'ㄴ', 'ㄷ', 'ㄸ', 'ㄹ', 'ㅁ', 'ㅂ', 'ㅃ', 'ㅅ',
    'ㅆ', 'ㅇ', 'ㅈ', 'ㅉ', 'ㅊ', 'ㅋ', 'ㅌ', 'ㅍ', 'ㅎ'
  ]

  const HangulBase: int := 0xAC00
  const HangulEnd: int := 0xD7A3
  const JungsungCount: int := 21
  const JongsungCount: int := 28

  /** Membership in the chosung set. */
  predicate IsChosung(c: char)
  {
    c in Chosung
  }

  predicate IsSyllable(c: char)
  {
    HangulBase <= c as int <= HangulEnd
  }

  /**
   * The position in `Chosung` of a syllable's initial consonant. It is always a
   * valid index, and the syllable lies in the block of 21 * 28 syllables that
   * share that initial.
   */
  function InitialIndex(c: char): (i: nat)
    requires IsSyllable(c)
    ensures i < |Chosung|
    ensures HangulBase + i * (JungsungCount * JongsungCount) <= c as int
            < HangulBase + (i + 1) * (JungsungCount * JongsungCount)
  {
    (c as int - HangulBase) / (JungsungCount * JongsungCount)
  }

  /** The character `extract_chosung` emits for `c`. */
  function InitialOf(c: char): (d: char)
    ensures IsSyllable(c) ==> IsChosung(d)
    ensures !IsSyllable(c) ==> d == LowerChar(c)
  {
    if IsSyllable(c) then Chosung[InitialIndex(c)] else LowerChar(c)
  }

  /** Reference definition of `extract_chosung`: `InitialOf` applied to every character. */
  function ChosungOf(text: string): (r: string)
    ensures |r| == |text|
    ensures forall k :: 0 <= k < |text| ==> r[k] == InitialOf(text[k])
  {
    seq(|text|, k requires 0 <= k < |text| => InitialOf(text[k]))
  }

  /** `extract_chosung`: builds the result one character at a time. */
  method ExtractChosung(text: string) returns (r: string)
    ensures r == ChosungOf(text)
  {
    r := [];
    for k := 0 to |text|
      invariant |r| == k
      invariant forall j :: 0 <= j < k ==> r[j] == InitialOf(text[j])
    {
      var c := text[k];
      if HangulBase <= c as int <= HangulEnd {
        var index := (c as int - HangulBase) / (JungsungCount * JongsungCount);
        r := r + [Chosung[index]];
      } else {
        r := r + [LowerChar(c)];
      }
    }
  }

  /** `has_chosung`: some character of `q` is in the chosung set. */
  function HasChosung(q: string): (b: bool)
    ensures b <==> exists k :: 0 <= k < |q| && IsChosung(q[k])
  {
    if q == [] then false
    else IsChosung(q[0]) || (assert forall k :: 0 <= k < |q| - 1 ==> q[1..][k] == q[k + 1];
                             HasChosung(q[1..]))
  }

  /** `is_pure_chosung`: `q` is non-empty and every character is in the chosung set. */
  function IsPureChosung(q: string): (b: bool)
    ensures b <==> q != [] && forall k :: 0 <= k < |q| ==> IsChosung(q[k])
    ensures b ==> HasChosung(q)
  {
    q != [] && forall c | c in q :: IsChosung(c)
  }

  /** `normalize_mixed_query`: chosung characters are kept, everything else is lowered. */
  function NormalizeMixedQuery(q: string): (r: string)
    ensures |r| == |q|
    ensures forall k :: 0 <= k < |q| && IsChosung(q[k]) ==> r[k] == q[k]
    ensures forall k :: 0 <= k < |q| && !IsChosung(q[k]) ==> r[k] == LowerChar(q[k])
  {
    seq(|q|, k requires 0 <= k < |q| => if IsChosung(q[k]) then q[k] else LowerChar(q[k]))
  }

  // ---------------------------------------------------------------------------
  // Properties

  /** The chosung jamo lie outside the syllable block and have no case. */
  lemma ChosungIsNotSyllable(c: char)
    requires IsChosung(c)
    ensures !IsSyllable(c) && !IsUpper(c)
  {
  }

  /** A lowered non-chosung character is still not a chosung. */
  lemma LowerKeepsNonChosung(c: char)
    requires !IsChosung(c)
    ensures !IsChosung(LowerChar(c))
  {
  }

  /** A name made only of syllables becomes a non-empty string of chosung symbols. */
  lemma {:induction false} AllSyllablesGivePureChosung(text: string)
    requires text != [] && forall k :: 0 <= k < |text| ==> IsSyllable(text[k])
    ensures IsPureChosung(ChosungOf(text))
  {
    var r := ChosungOf(text);
    forall k | 0 <= k < |r| ensures IsChosung(r[k]) {
      assert r[k] == InitialOf(text[k]);
    }
  }

  /** Characters outside the syllable block come out lowered, one for one. */
  lemma {:induction false} NoSyllablesGiveLower(text: string)
    requires forall k :: 0 <= k < |text| ==> !IsSyllable(text[k])
    ensures ChosungOf(text) == Lower(text)
  {
    forall k | 0 <= k < |text| ensures ChosungOf(text)[k] == Lower(text)[k] {
      assert ChosungOf(text)[k] == InitialOf(text[k]);
    }
  }

  /** Extraction is idempotent: its output has no syllables and no upper case left. */
  lemma {:induction false} ChosungOfIdempotent(text: string)
    ensures ChosungOf(ChosungOf(text)) == ChosungOf(text)
  {
    var r := ChosungOf(text);
    forall k | 0 <= k < |r| ensures InitialOf(r[k]) == r[k] {
      var c := text[k];
      if IsSyllable(c) {
        ChosungIsNotSyllable(r[k]);
      } else {
        assert r[k] == LowerChar(c);
        assert !IsSyllable(r[k]) by {
          if IsUpper(c) { assert r[k] as int < HangulBase; }
        }
      }
    }
  }

  /**
   * The output of extraction holds a chosung exactly where the input held a
   * syllable or a chosung.
   */
  lemma {:induction false} ChosungOfMarksInitials(text: string, k: nat)
    requires k < |text|
    ensures IsChosung(ChosungOf(text)[k]) <==> IsSyllable(text[k]) || IsChosung(text[k])
  {
    var c := text[k];
    if IsChosung(c) {
      ChosungIsNotSyllable(c);
    } else if !IsSyllable(c) {
      LowerKeepsNonChosung(c);
    }
  }

  /** Normalising a pure-chosung query returns it unchanged. */
  lemma {:induction false} NormalizePureChosungIdentity(q: string)
    requires IsPureChosung(q)
    ensures NormalizeMixedQuery(q) == q
  {
    var r := NormalizeMixedQuery(q);
    forall k | 0 <= k < |q| ensures r[k] == q[k] {
      assert IsChosung(q[k]);
    }
  }

  /** Since chosung have no case, normalising is the same as lowering. */
  lemma {:induction false} NormalizeIsLower(q: string)
    ensures NormalizeMixedQuery(q) == Lower(q)
  {
    forall k | 0 <= k < |q| ensures NormalizeMixedQuery(q)[k] == Lower(q)[k] {
      if IsChosung(q[k]) { ChosungIsNotSyllable(q[k]); }
    }
  }

  /** Normalising leaves an extracted chosung string as it is. */
  lemma {:induction false} NormalizeFixesChosungOf(text: string)
    ensures NormalizeMixedQuery(ChosungOf(text)) == ChosungOf(text)
  {
    var r := ChosungOf(text);
    NormalizeIsLower(r);
    forall k | 0 <= k < |r| ensures LowerChar(r[k]) == r[k] {
      if IsSyllable(text[k]) { ChosungIsNotSyllable(r[k]); }
    }
  }

  /** The examples of the docstring and the tests. */
  lemma ChosungExamples()
    ensures ChosungOf("") == ""
    ensures ChosungOf("삼성전자") == "ㅅㅅㅈㅈ"
    ensures ChosungOf("삼성SDI") == "ㅅㅅsdi"
    ensures ChosungOf("LG") == "lg"
    ensures ChosungOf("LG전자") == "lgㅈㅈ"
  {
    assert ChosungOf("삼성전자") == "ㅅㅅㅈㅈ";
  }

  lemma HasChosungExamples()
    ensures HasChosung("ㅅㅅㅈㅈ") && HasChosung("ㅅㅅSDI")
    ensures !HasChosung("삼성전자") && !HasChosung("")
  {
    assert IsChosung("ㅅㅅㅈㅈ"[0]) && IsChosung("ㅅㅅSDI"[0]);
    var s := "삼성전자";
    forall k | 0 <= k < |s| ensures !IsChosung(s[k]) {
      assert IsSyllable(s[k]);
      if IsChosung(s[k]) { ChosungIsNotSyllable(s[k]); }
    }
  }

  lemma PureChosungExamples()
    ensures IsPureChosung("ㅅㅅㅈㅈ") && !IsPureChosung("ㅅㅅSDI") && !IsPureChosung("")
  {
    assert "ㅅㅅSDI"[2] == 'S' && !IsChosung('S');
  }

  lemma NormalizeExamples()
    ensures NormalizeMixedQuery("ㅅㅅSDI") == "ㅅㅅsdi"
    ensures NormalizeMixedQuery("ㅅㅅㅈㅈ") == "ㅅㅅㅈㅈ"
    ensures NormalizeMixedQuery("Samsung") == "samsung"
  {
  }
}
