/**
 * The dataset-cleaning script: drop rows whose text is missing or blank, normalise the text
 * column with the same three stages as the serving side, and drop rows with a missing label.
 */
module DataCleaning {
  import opened Wrappers
  import Seqs
  import Text

  /** One row of the dataset: the `text` and `generated` columns, either of which may be NaN. */
  datatype Row = Row(text: Option<string>, generated: Option<int>)

  /** Python's `str.isspace()` restricted to ASCII: tab, newline, vertical tab, form feed, carriage return, 0x1C-0x1F and space. */
  predicate IsWhitespace(c: char)
  {
    9 <= c as int <= 13 || 28 <= c as int <= 32
  }

  /** `s.strip() == ''`: the text is empty or all whitespace. */
  predicate IsBlank(s: string)
  {
    forall i :: 0 <= i < |s| ==> IsWhitespace(s[i])
  }

  /** The row survives `dropna(subset=['text'])`. */
  predicate TextPresent(row: Row)
  {
    row.text.Some?
  }

  /** The row survives `df['text'].str.strip() != ''`; a NaN cell compares unequal to '' and is kept. */
  predicate TextNotBlank(row: Row)
  {
    row.text.None? || !IsBlank(row.text.value)
  }

  /** The row has text that is not blank. */
  predicate HasText(row: Row)
  {
    row.text.Some? && !IsBlank(row.text.value)
  }

  /** The row survives `dropna(subset=['text', 'generated'])`. */
  predicate Labelled(row: Row)
  {
    row.text.Some? && row.generated.Some?
  }

  /** The row survives the whole cleaning: it has non-blank text and a label. */
  predicate Survives(row: Row)
  {
    HasText(row) && row.generated.Some?
  }

  /** `remove_missing`: keeps exactly the rows with non-blank text, all of their copies, in order. */
  function RemoveMissing(df: seq<Row>): (r: seq<Row>)
    ensures r == Seqs.Filter(df, HasText)
    ensures forall i :: 0 <= i < |r| ==> HasText(r[i])
    ensures Seqs.IsSubsequence(r, df)
    ensures forall row :: multiset(r)[row] == if HasText(row) then multiset(df)[row] else 0
  {
    Seqs.FilterFilter(df, TextPresent, TextNotBlank, HasText);
    Seqs.FilterSpec(df, HasText);
    Seqs.Filter(Seqs.Filter(df, TextPresent), TextNotBlank)
  }

  /** Cleaning an already cleaned frame removes nothing more. */
  lemma RemoveMissingIdempotent(df: seq<Row>)
    ensures RemoveMissing(RemoveMissing(df)) == RemoveMissing(df)
  {
    Seqs.FilterKeepsAll(RemoveMissing(df), HasText);
  }

  /** `remove_tags`: one `str.replace(tag, '')` per tag, newline first and apostrophe second. */
  method RemoveTags(text: string) returns (r: string)
    ensures r == Text.WithoutTags(text)
    ensures forall i :: 0 <= i < |r| ==> r[i] != '\n' && r[i] != '\''
    ensures Seqs.IsSubsequence(r, text)
    ensures forall c :: c != '\n' && c != '\'' ==> multiset(r)[c] == multiset(text)[c]
  {
    var tags := Text.Tags;
    r := text;
    Text.StripNothing(text);
    for k := 0 to |tags|
      invariant r == Text.StripAll(text, tags[..k])
    {
      assert tags[..k + 1] == tags[..k] + [tags[k]];
      Text.StripAllSnoc(text, tags[..k], tags[k]);
      r := Text.Replace(r, tags[k]);
    }
    assert tags[..|tags|] == tags;
    Text.StripAllSpec(text, tags);
  }

  /** `remove_punc`: the characters of `text` that are not in `string.punctuation`, in order. */
  function RemovePunc(text: string): (r: string)
    ensures forall i :: 0 <= i < |r| ==> r[i] !in Text.Punctuation
    ensures Seqs.IsSubsequence(r, text)
    ensures forall c :: c !in Text.Punctuation ==> multiset(r)[c] == multiset(text)[c]
  {
    Text.StripAllSpec(text, Text.Punctuation);
    Text.StripAll(text, Text.Punctuation)
  }

  /** `lowercase`: ASCII capitals become small letters, every other character stays. */
  function Lowercase(text: string): (r: string)
    ensures |r| == |text|
    ensures forall i :: 0 <= i < |r| ==> !Text.IsAsciiUpper(r[i])
    ensures forall i :: 0 <= i < |r| && !Text.IsAsciiUpper(text[i]) ==> r[i] == text[i]
    ensures forall i :: 0 <= i < |r| && Text.IsAsciiUpper(text[i]) ==> r[i] as int == text[i] as int + 32
  {
    Text.LowerAscii(text)
  }

  /**
   * The row with `f` applied to its text cell (`Series.apply` on one cell). The `None` branch is
   * never reached by `clean_text`: `remove_missing` has dropped every row with a NaN text first.
   */
  function WithText(row: Row, f: string -> string): Row
  {
    match row.text
    case None => row
    case Some(t) => row.(text := Some(f(t)))
  }

  /** The row with its text normalised. */
  function NormalizeRow(row: Row): Row
  {
    WithText(row, Text.Normalize)
  }

  /** The cleaned frame stated directly: the surviving rows, in order, with normalised text. */
  function Cleaned(df: seq<Row>): (r: seq<Row>)
    ensures |r| <= |df|
    ensures forall i :: 0 <= i < |r| ==>
      r[i].text.Some? && r[i].generated.Some? && r[i].text.value == Text.Normalize(r[i].text.value)
  {
    var out := Seqs.Map(Seqs.Filter(df, Survives), NormalizeRow);
    forall i | 0 <= i < |out|
      ensures out[i].text.value == Text.Normalize(out[i].text.value)
    {
      Text.NormalizeIdempotent(Seqs.Filter(df, Survives)[i].text.value);
    }
    out
  }

  /** The first `i` rows of `after` are those of `before` with `f` applied to their text; the rest are untouched. */
  ghost predicate ColumnApplied(before: seq<Row>, after: seq<Row>, i: int, f: string -> string)
  {
    && |after| == |before|
    && 0 <= i <= |before|
    && (forall j :: 0 <= j < i ==> after[j] == WithText(before[j], f))
    && (forall j :: i <= j < |before| ==> after[j] == before[j])
  }

  /** `df['text'] = df['text'].apply(remove_tags)`: every text cell loses its newlines and apostrophes. */
  method RemoveTagsColumn(rows: seq<Row>) returns (out: seq<Row>)
    requires forall j :: 0 <= j < |rows| ==> rows[j].text.Some?
    ensures ColumnApplied(rows, out, |rows|, Text.WithoutTags)
    ensures forall j :: 0 <= j < |out| ==> out[j].text.Some?
  {
    out := rows;
    for i := 0 to |rows|
      invariant ColumnApplied(rows, out, i, Text.WithoutTags)
    {
      var t := RemoveTags(out[i].text.value);
      out := out[i := out[i].(text := Some(t))];
    }
  }

  /** `df['text'] = df['text'].apply(remove_punc)`: every text cell loses its punctuation. */
  method RemovePuncColumn(rows: seq<Row>) returns (out: seq<Row>)
    requires forall j :: 0 <= j < |rows| ==> rows[j].text.Some?
    ensures ColumnApplied(rows, out, |rows|, RemovePunc)
    ensures forall j :: 0 <= j < |out| ==> out[j].text.Some?
  {
    out := rows;
    for i := 0 to |rows|
      invariant ColumnApplied(rows, out, i, RemovePunc)
    {
      out := out[i := out[i].(text := Some(RemovePunc(out[i].text.value)))];
    }
  }

  /** `df['text'] = df['text'].apply(lowercase)`: every text cell is lower-cased. */
  method LowercaseColumn(rows: seq<Row>) returns (out: seq<Row>)
    requires forall j :: 0 <= j < |rows| ==> rows[j].text.Some?
    ensures ColumnApplied(rows, out, |rows|, Lowercase)
    ensures forall j :: 0 <= j < |out| ==> out[j].text.Some?
  {
    out := rows;
    for i := 0 to |rows|
      invariant ColumnApplied(rows, out, i, Lowercase)
    {
      out := out[i := out[i].(text := Some(Lowercase(out[i].text.value)))];
    }
  }

  /**
   * `clean_text(df)`: `remove_missing`, then the text column overwritten by `remove_tags`, by
   * `remove_punc` and by `lowercase` in three passes, then rows with a NaN text or label dropped.
   */
  method CleanText(df: seq<Row>) returns (out: seq<Row>)
    ensures out == Cleaned(df)
  {
    var kept := RemoveMissing(df);
    var tagless := RemoveTagsColumn(kept);
    var bare := RemovePuncColumn(tagless);
    var rows := LowercaseColumn(bare);
    out := Seqs.Filter(rows, Labelled);
    StagesGiveCleaned(df, kept, tagless, bare, rows);
  }

  /** The three column passes over the rows left by `remove_missing`, then the label filter, give `Cleaned`. */
  lemma StagesGiveCleaned(df: seq<Row>, kept: seq<Row>, tagless: seq<Row>, bare: seq<Row>, rows: seq<Row>)
    requires kept == RemoveMissing(df)
    requires ColumnApplied(kept, tagless, |kept|, Text.WithoutTags)
    requires ColumnApplied(tagless, bare, |tagless|, RemovePunc)
    requires ColumnApplied(bare, rows, |bare|, Lowercase)
    ensures Seqs.Filter(rows, Labelled) == Cleaned(df)
  {
    forall j | 0 <= j < |rows|
      ensures rows[j] == NormalizeRow(kept[j])
    {
      assert HasText(kept[j]);
      Text.NormalizeInStages(kept[j].text.value);
    }
    assert rows == Seqs.Map(kept, NormalizeRow);
    Seqs.FilterMap(kept, NormalizeRow, Labelled, Labelled);
    Seqs.FilterFilter(df, HasText, Labelled, Survives);
  }

  /**
   * The rows of the cleaned frame are the surviving input rows, in their order and with every
   * copy: each keeps its label unchanged and gets its text normalised.
   */
  lemma CleanedRows(df: seq<Row>)
    ensures var kept := Seqs.Filter(df, Survives);
      && Seqs.IsSubsequence(kept, df)
      && (forall row :: multiset(kept)[row] == if Survives(row) then multiset(df)[row] else 0)
      && |Cleaned(df)| == |kept|
      && forall i :: 0 <= i < |kept| ==>
           kept[i].text.Some? && kept[i].generated.Some?
           && Cleaned(df)[i] == Row(Some(Text.Normalize(kept[i].text.value)), kept[i].generated)
  {
    Seqs.FilterSpec(df, Survives);
  }

  /**
   * A row whose text is not blank but made only of newlines, apostrophes and punctuation is kept,
   * with empty text: cleaning does not drop rows that become empty.
   */
  lemma NoiseOnlyRowBecomesEmpty(t: string, g: int)
    requires !IsBlank(t)
    requires forall i :: 0 <= i < |t| ==> Text.IsNoise(t[i])
    ensures Cleaned([Row(Some(t), Some(g))]) == [Row(Some(""), Some(g))]
  {
    Text.NormalizeOnlyNoise(t);
  }
}
