/**
 * The notes preview of a session card (SessionCard.jsx): the text content of
 * the stored notes HTML, trimmed and cut to 150 characters with an ellipsis.
 * Extracting the text from the HTML is the browser's work and is taken as an
 * input.
 */
module NotesPreview {
  import opened Text
  import opened Js

  const Limit: nat := 150
  const Ellipsis: string := "..."

  /** The shape of a preview: the trimmed text itself, or its first 150 characters and the ellipsis. */
  predicate IsPreviewOf(r: string, t: string) {
    || (|t| <= Limit && r == t)
    || (|t| > Limit && |r| == Limit + |Ellipsis| && r[..Limit] == t[..Limit] && r[Limit..] == Ellipsis)
  }

  /** The trim and truncate step of `getPlainTextPreview`. */
  function TrimTruncate(plain: string): (r: string)
    ensures IsPreviewOf(r, Trim(plain))
    ensures |r| <= Limit + |Ellipsis|
    ensures AllSpace(plain) ==> r == []
  {
    TrimEmptyIff(plain);
    var t := Trim(plain);
    if |t| > Limit then
      var r := t[..Limit] + Ellipsis;
      assert r[..Limit] == t[..Limit] && r[Limit..] == Ellipsis;
      r
    else t
  }

  /** Only one text is a preview of a given trimmed text. */
  lemma PreviewUnique(r1: string, r2: string, t: string)
    requires IsPreviewOf(r1, t) && IsPreviewOf(r2, t)
    ensures r1 == r2
  {
    if |t| > Limit {
      assert r1 == r1[..Limit] + r1[Limit..];
      assert r2 == r2[..Limit] + r2[Limit..];
    }
  }

  /** Applying the step to its own output changes nothing. */
  lemma {:induction false} TrimTruncateIdempotent(plain: string)
    ensures TrimTruncate(TrimTruncate(plain)) == TrimTruncate(plain)
  {
    var t := Trim(plain);
    var r := TrimTruncate(plain);
    if |t| > Limit {
      assert r[0] == t[0] && r[|r| - 1] == '.';
      TrimOfTrimmed(r);
      var r2 := TrimTruncate(r);
      assert IsPreviewOf(r2, r);
      assert r2[..Limit] == r[..Limit];
      assert r2 == r2[..Limit] + r2[Limit..];
      assert r == r[..Limit] + r[Limit..];
    } else {
      TrimOfTrimmed(t);
    }
  }

  /**
   * `getPlainTextPreview(htmlContent)`: empty for falsy content; otherwise
   * the trim-and-truncate of `plain`, the element's text content.
   */
  function Preview(htmlContent: Value, plain: string): (r: string)
    ensures !Truthy(htmlContent) ==> r == []
    ensures Truthy(htmlContent) ==> IsPreviewOf(r, Trim(plain))
  {
    if !Truthy(htmlContent) then [] else TrimTruncate(plain)
  }
}
