/** The history record and the preview truncation of its card (src/components/HistoryItem.tsx). */
module HistoryItem {
  import opened Modes

  /** `ContentHistory`: one saved optimization. The source types `type` as a string; it only ever
      holds the name of the mode that was current when the entry was saved. */
  datatype ContentHistory = ContentHistory(
    id: string,
    original: string,
    optimized: string,
    timestamp: int,
    mode: OptimizationType)

  const DefaultMaxLength: nat := 120
  const Ellipsis := "..."

  /** `truncateText(text, maxLength = 120)` */
  function TruncateText(text: string, maxLength: nat := DefaultMaxLength): (r: string)
    ensures |text| <= maxLength ==> r == text
    ensures |text| > maxLength ==> r == text[..maxLength] + Ellipsis && |r| == maxLength + |Ellipsis|
  {
    if |text| <= maxLength then text else text[..maxLength] + Ellipsis
  }

  /** The card shows the original text cut to the default length. */
  function Preview(item: ContentHistory): (r: string)
    ensures |r| <= DefaultMaxLength + |Ellipsis|
    ensures item.original[..if |item.original| <= DefaultMaxLength then |item.original| else DefaultMaxLength] <= r
  {
    TruncateText(item.original)
  }

  /** Truncating a truncated text changes nothing more. */
  lemma TruncateIdempotent(text: string, maxLength: nat)
    ensures TruncateText(TruncateText(text, maxLength), maxLength) == TruncateText(text, maxLength)
  {
    var r := TruncateText(text, maxLength);
    if |text| > maxLength {
      assert r[..maxLength] == text[..maxLength];
    }
  }
}
