/** internal/ui/utils.go: cutting a line to a width with an ellipsis.
    Lengths count bytes in Go; here each character stands for one byte. */
module Utils {

  /** truncate: "..." for a width of at most 3; otherwise a line longer
      than the width is cut to width-3 characters and "..." appended, and
      a line that fits is returned as it is. */
  function Truncate(s: string, length: int): (r: string)
    ensures length <= 3 ==> r == "..."
    ensures length > 3 && |s| > length ==> |r| == length && r == s[..length - 3] + "..."
    ensures length > 3 && |s| <= length ==> r == s
    ensures |r| <= if length > 3 then length else 3
  {
    if length <= 3 then "..."
    else if |s| > length then s[..length - 3] + "..."
    else s
  }

  /** Truncating twice to the same width changes nothing more. */
  lemma TruncateIdempotent(s: string, length: int)
    ensures Truncate(Truncate(s, length), length) == Truncate(s, length)
  {
    var r := Truncate(s, length);
    assert length > 3 ==> |r| <= length;
  }
}
