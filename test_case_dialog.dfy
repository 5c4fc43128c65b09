/** The dialog that shows one test case: its width follows the longer of the two texts, and
    long texts are shortened in the preview. */
module TestCaseDialog {

  datatype Width = MaxW2xl | MaxW4xl | MaxW5xl | MaxW7xl

  function Rank(w: Width): nat {
    match w
    case MaxW2xl => 0
    case MaxW4xl => 1
    case MaxW5xl => 2
    case MaxW7xl => 3
  }

  function Max(a: nat, b: nat): nat {
    if a >= b then a else b
  }

  /** The class chosen for the longest text length m. */
  function WidthFor(m: nat): (w: Width)
    ensures w == MaxW7xl <==> m > 500
    ensures w == MaxW5xl <==> 300 < m <= 500
    ensures w == MaxW4xl <==> 100 < m <= 300
    ensures w == MaxW2xl <==> m <= 100
  {
    if m > 500 then MaxW7xl
    else if m > 300 then MaxW5xl
    else if m > 100 then MaxW4xl
    else MaxW2xl
  }

  /** `getContentWidth`: the dialog is as wide as the wider of the widths that each text
      would need on its own. */
  function ContentWidth(input: string, expectedOutput: string): (w: Width)
    ensures Rank(w) == Max(Rank(WidthFor(|input|)), Rank(WidthFor(|expectedOutput|)))
  {
    WidthFor(Max(|input|, |expectedOutput|))
  }

  /** Which text is the input and which the expected output does not matter. */
  lemma ContentWidthSymmetric(a: string, b: string)
    ensures ContentWidth(a, b) == ContentWidth(b, a)
  {
  }

  /** A longer text never makes the dialog narrower. */
  lemma WidthMonotone(m1: nat, m2: nat)
    requires m1 <= m2
    ensures Rank(WidthFor(m1)) <= Rank(WidthFor(m2))
  {
  }

  /** `truncateText(text, maxLength)`; the caller's default for maxLength is 100. */
  function Truncate(text: string, maxLength: nat): (r: string)
    ensures |text| <= maxLength ==> r == text
    ensures |text| > maxLength ==>
      |r| == maxLength + 3 && r[..maxLength] == text[..maxLength] && r[maxLength..] == "..."
  {
    if |text| > maxLength then text[..maxLength] + "..." else text
  }

  /** Shortening a shortened text changes nothing: its first maxLength characters are the
      original's, and the dots it gets are the dots it had. */
  lemma TruncateIdempotent(text: string, maxLength: nat)
    ensures Truncate(Truncate(text, maxLength), maxLength) == Truncate(text, maxLength)
  {
    if |text| > maxLength {
      var t := Truncate(text, maxLength);
      assert t[..maxLength] + "..." == t;
    }
  }
}
