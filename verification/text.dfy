/**
 * The character classes and the reference definition of the text normaliser that the serving
 * code and the dataset-cleaning script both implement: delete newlines and apostrophes, delete
 * punctuation, lower-case.
 */
module Text {
  import Seqs

  /** Python's `string.punctuation`: the 32 printable ASCII characters that are neither letters, digits nor space. */
  const Punctuation: string := "!\"#$%&'()*+,-./:;<=>?@[\\]^_`{|}~"

  /** `string.punctuation` is exactly the ASCII code points 33-47, 58-64, 91-96 and 123-126. */
  lemma PunctuationRanges(c: char)
    ensures c in Punctuation <==>
      || 33 <= c as int <= 47 || 58 <= c as int <= 64 || 91 <= c as int <= 96 || 123 <= c as int <= 126
  {
    assert |Punctuation| == 32;
  }

  /** The tags deleted by `remove_tags`, in the order they are removed: newline, then apostrophe. */
  const Tags: string := ['\n', '\'']

  /** The character test `c not in drop`, as a value that a filter can take. */
  function NotIn(drop: string): char -> bool
  {
    c => c !in drop
  }

  /** `s` with every character of `drop` deleted and every other kept in order. */
  function StripAll(s: string, drop: string): (r: string)
    ensures |r| <= |s|
    ensures forall i :: 0 <= i < |r| ==> r[i] !in drop
  {
    Seqs.Filter(s, NotIn(drop))
  }

  /** Python's `s.replace(c, '')` for a one-character `c`. */
  function Replace(s: string, c: char): string
  {
    StripAll(s, [c])
  }

  /** The text left by `remove_tags`: `s` without newlines and apostrophes. */
  function WithoutTags(s: string): string
  {
    StripAll(s, Tags)
  }

  predicate IsAsciiUpper(c: char)
  {
    'A' <= c <= 'Z'
  }

  /** A character that the normaliser deletes: a tag or a punctuation character. */
  predicate IsNoise(c: char)
  {
    c in Tags || c in Punctuation
  }

  /** `str.lower()` on one character, restricted to ASCII. */
  function LowerChar(c: char): (d: char)
    ensures !IsAsciiUpper(d)
    ensures IsAsciiUpper(c) ==> d as int == c as int + 32
    ensures !IsAsciiUpper(c) ==> d == c
    ensures IsNoise(d) == IsNoise(c)
  {
    var d := if IsAsciiUpper(c) then (c as int + 32) as char else c;
    PunctuationRanges(c);
    PunctuationRanges(d);
    d
  }

  /** `str.lower()` on a string, restricted to ASCII. */
  function LowerAscii(s: string): string
  {
    Seqs.Map(s, LowerChar)
  }

  /**
   * The normaliser stated in one pass over the text: each noise character is deleted and each
   * other character is lower-cased, in order.
   */
  function Normalize(s: string): (r: string)
    ensures |r| <= |s|
    ensures forall i :: 0 <= i < |r| ==> !IsNoise(r[i]) && !IsAsciiUpper(r[i])
  {
    if s == [] then []
    else if IsNoise(s[0]) then Normalize(s[1..])
    else [LowerChar(s[0])] + Normalize(s[1..])
  }

  /** Deleting the characters of `drop` and then `c` is deleting those of `drop + [c]`. */
  lemma StripAllSnoc(s: string, drop: string, c: char)
    ensures StripAll(s, drop + [c]) == Replace(StripAll(s, drop), c)
  {
    Seqs.FilterFilter(s, NotIn(drop), NotIn([c]), NotIn(drop + [c]));
  }

  /** Deleting no characters changes nothing. */
  lemma StripNothing(s: string)
    ensures StripAll(s, []) == s
  {
    Seqs.FilterKeepsAll(s, NotIn([]));
  }

  /** `StripAll` keeps the other characters in order and every occurrence of them. */
  lemma StripAllSpec(s: string, drop: string)
    ensures Seqs.IsSubsequence(StripAll(s, drop), s)
    ensures forall c :: multiset(StripAll(s, drop))[c] == if c in drop then 0 else multiset(s)[c]
  {
    Seqs.FilterSpec(s, NotIn(drop));
  }

  /** The three stages of `clean_text`, run one after the other, compute the one-pass normaliser. */
  lemma {:induction false} NormalizeInStages(s: string)
    ensures Normalize(s) == LowerAscii(StripAll(WithoutTags(s), Punctuation))
  {
    if s != [] {
      NormalizeInStages(s[1..]);
      var tagless := WithoutTags(s);
      if s[0] in Tags {
        assert tagless == WithoutTags(s[1..]);
      } else {
        assert tagless == [s[0]] + WithoutTags(s[1..]);
        assert tagless[1..] == WithoutTags(s[1..]);
        var bare := StripAll(tagless, Punctuation);
        if s[0] !in Punctuation {
          assert bare == [s[0]] + StripAll(WithoutTags(s[1..]), Punctuation);
          assert LowerAscii(bare)[1..] == LowerAscii(bare[1..]);
        }
      }
    }
  }

  /** Text without noise and without upper case is left as it is. */
  lemma {:induction false} NormalizeFixes(t: string)
    requires forall i :: 0 <= i < |t| ==> !IsNoise(t[i]) && !IsAsciiUpper(t[i])
    ensures Normalize(t) == t
  {
    if t != [] {
      NormalizeFixes(t[1..]);
      assert t == [t[0]] + t[1..];
    }
  }

  /** Normalising twice is normalising once. */
  lemma NormalizeIdempotent(s: string)
    ensures Normalize(Normalize(s)) == Normalize(s)
  {
    NormalizeFixes(Normalize(s));
  }

  /** Text made only of newlines, apostrophes and punctuation (the empty text included) normalises to "". */
  lemma {:induction false} NormalizeOnlyNoise(s: string)
    requires forall i :: 0 <= i < |s| ==> IsNoise(s[i])
    ensures Normalize(s) == ""
  {
    if s != [] {
      NormalizeOnlyNoise(s[1..]);
    }
  }

  /**
   * The normaliser keeps the characters that are not noise in their original order, each one
   * lower-cased, and every occurrence of each.
   */
  lemma NormalizeKeepsOrder(s: string)
    ensures var kept := StripAll(WithoutTags(s), Punctuation);
      && Seqs.IsSubsequence(kept, s)
      && (forall c :: multiset(kept)[c] == if IsNoise(c) then 0 else multiset(s)[c])
      && Normalize(s) == LowerAscii(kept)
  {
    NormalizeInStages(s);
    Seqs.FilterFilter(s, NotIn(Tags), NotIn(Punctuation), NotIn(Tags + Punctuation));
    StripAllSpec(s, Tags + Punctuation);
  }
}
