/**
 * The serving side: the text normaliser applied to an incoming request and the threshold that
 * turns a confidence score into one of three labels.
 */
module Api {
  import Seqs
  import Text

  const LikelyAi: string := "Likely AI"
  const LikelyHuman: string := "Likely Human"
  const SomeAssistance: string := "Some AI assistance used"

  /** `get_label`: strictly above 75 is AI, strictly below 30 is human, anything in between is assisted. */
  function GetLabel(score: real): (verdict: string)
    ensures verdict == LikelyAi <==> score > 75.0
    ensures verdict == LikelyHuman <==> score < 30.0
    ensures verdict == SomeAssistance <==> 30.0 <= score <= 75.0
  {
    if score > 75.0 then LikelyAi
    else if score < 30.0 then LikelyHuman
    else SomeAssistance
  }

  /** How far a label leans towards "AI": human 0, assisted 1, AI 2. */
  function Leaning(verdict: string): int
  {
    if verdict == LikelyAi then 2 else if verdict == LikelyHuman then 0 else 1
  }

  /** A higher score never yields a label leaning less towards AI. */
  lemma GetLabelMonotone(lo: real, hi: real)
    requires lo <= hi
    ensures Leaning(GetLabel(lo)) <= Leaning(GetLabel(hi))
  {
  }

  /** The boundary scores: 75 and 30 both fall into the middle band. */
  lemma GetLabelBoundaries()
    ensures GetLabel(75.0) == SomeAssistance && GetLabel(75.01) == LikelyAi
    ensures GetLabel(30.0) == SomeAssistance && GetLabel(29.99) == LikelyHuman
    ensures GetLabel(50.0) == SomeAssistance
  {
  }

  /** `remove_tags`: one `str.replace(tag, '')` per tag, newline first and apostrophe second. */
  method RemoveTags(text: string) returns (r: string)
    ensures r == Text.WithoutTags(text)
    ensures forall i :: 0 <= i < |r| ==> r[i] != '\n' && r[i] != '\''
    ensures Seqs.IsSubsequence(r, text)
    ensures forall c :: c != '\n' && c != '\'' ==> multiset(r)[c] == multiset(text)[c]
  {
    var tags := Text.Tags;
    r := text;
    Text.StripNothing(text);
    for k := 0 to |tags|
      invariant r == Text.StripAll(text, tags[..k])
    {
      assert tags[..k + 1] == tags[..k] + [tags[k]];
      Text.StripAllSnoc(text, tags[..k], tags[k]);
      r := Text.Replace(r, tags[k]);
    }
    assert tags[..|tags|] == tags;
    Text.StripAllSpec(text, tags);
  }

  /** `remove_punc`: the characters of `text` that are not in `string.punctuation`, in order. */
  function RemovePunc(text: string): (r: string)
    ensures forall i :: 0 <= i < |r| ==> r[i] !in Text.Punctuation
    ensures Seqs.IsSubsequence(r, text)
    ensures forall c :: c !in Text.Punctuation ==> multiset(r)[c] == multiset(text)[c]
  {
    Text.StripAllSpec(text, Text.Punctuation);
    Text.StripAll(text, Text.Punctuation)
  }

  /** `lowercase`: ASCII capitals become small letters, every other character stays. */
  function Lowercase(text: string): (r: string)
    ensures |r| == |text|
    ensures forall i :: 0 <= i < |r| ==> !Text.IsAsciiUpper(r[i])
    ensures forall i :: 0 <= i < |r| && !Text.IsAsciiUpper(text[i]) ==> r[i] == text[i]
    ensures forall i :: 0 <= i < |r| && Text.IsAsciiUpper(text[i]) ==> r[i] as int == text[i] as int + 32
  {
    Text.LowerAscii(text)
  }

  /** `clean_text`: tags, then punctuation, then case; the result is the normalised text. */
  method CleanText(text: string) returns (r: string)
    ensures r == Text.Normalize(text)
    ensures |r| <= |text|
    ensures forall i :: 0 <= i < |r| ==> !Text.IsNoise(r[i]) && !Text.IsAsciiUpper(r[i])
  {
    var cleanInput := RemoveTags(text);
    cleanInput := RemovePunc(cleanInput);
    cleanInput := Lowercase(cleanInput);
    Text.NormalizeInStages(text);
    r := cleanInput;
  }

  /**
   * The `/predict` route: normalise the request text, score it, label the score. The score is
   * whatever `confidenceOf` (the loaded model's probability, in percent) gives for the cleaned text.
   */
  method Predict(text: string, confidenceOf: string -> real) returns (confidence: real, verdict: string)
    ensures confidence == confidenceOf(Text.Normalize(text))
    ensures verdict == GetLabel(confidence)
    ensures verdict == LikelyAi || verdict == LikelyHuman || verdict == SomeAssistance
  {
    var cleanInput := CleanText(text);
    confidence := confidenceOf(cleanInput);
    verdict := GetLabel(confidence);
  }
}
