/** The "Overview" text of a success notification (app.js:121-127): the last
    fifteen new names, one per line, and a line counting the rest when there
    are more. */
module Overview {
  import opened Text

  /** `newImagesStringLimit` (app.js:121). */
  const PreviewLimit: nat := 15

  /** `xs.slice(-k)` for k > 0: the last k elements, or all of them when there
      are fewer. */
  function LastN(xs: seq<string>, k: nat): (r: seq<string>)
    ensures |r| == if |xs| <= k then |xs| else k
    ensures forall i :: 0 <= i < |r| ==> r[i] == xs[|xs| - |r| + i]
  {
    if |xs| <= k then xs else xs[|xs| - k..]
  }

  /** The line that counts the names left out of the preview. */
  function MoreLine(hidden: nat): string
  {
    "+" + NatToString(hidden) + " more..."
  }

  /** `newImagesString` once app.js:122-127 have run. */
  function Preview(files: seq<string>): string
  {
    var shown := JoinLines(LastN(files, PreviewLimit));
    if |files| > PreviewLimit then shown + "\n" + MoreLine(|files| - PreviewLimit)
    else shown
  }

  lemma MoreLineIsOneLine(hidden: nat)
    ensures '\n' !in MoreLine(hidden)
  {
    var digits := NatToString(hidden);
    forall i | 0 <= i < |digits| ensures digits[i] != '\n' {
      assert IsDigit(digits[i]);
    }
    assert MoreLine(hidden) == "+" + digits + " more...";
  }

  /** Read line by line, the preview of a non-empty list of newline-free names
      is every name when there are at most fifteen, and otherwise the last
      fifteen followed by one line counting the others. */
  lemma PreviewLines(files: seq<string>)
    requires |files| >= 1 && NoNewlines(files)
    ensures |files| <= PreviewLimit ==> SplitLines(Preview(files)) == files
    ensures |files| > PreviewLimit ==>
      SplitLines(Preview(files)) == files[|files| - PreviewLimit..] + [MoreLine(|files| - PreviewLimit)]
  {
    var shown := LastN(files, PreviewLimit);
    assert NoNewlines(shown) by {
      forall i | 0 <= i < |shown| ensures '\n' !in shown[i] {
        assert shown[i] == files[|files| - |shown| + i];
      }
    }
    if |files| > PreviewLimit {
      SplitJoinAppend(shown, MoreLine(|files| - PreviewLimit));
      MoreLineIsOneLine(|files| - PreviewLimit);
      SplitSingleLine(MoreLine(|files| - PreviewLimit));
    } else {
      SplitJoin(files);
    }
  }

  /** The count in the last line reads back as the number of names left out. */
  lemma PreviewHiddenCount(files: seq<string>)
    requires |files| > PreviewLimit
    ensures exists digits ::
              (AllDigits(digits) && digits != [] && digits[0] != '0'
               && Preview(files) == JoinLines(files[|files| - PreviewLimit..]) + "\n+" + digits + " more..."
               && DecimalValue(digits) + PreviewLimit == |files|)
  {
    var digits := NatToString(|files| - PreviewLimit);
    DecimalRoundTrip(|files| - PreviewLimit);
    assert Preview(files) == JoinLines(files[|files| - PreviewLimit..]) + "\n+" + digits + " more...";
  }

  /** Twenty names: the last fifteen and "+5 more...". */
  lemma PreviewOfTwenty(files: seq<string>)
    requires |files| == 20
    ensures Preview(files) == JoinLines(files[5..]) + "\n+5 more..."
  {
    assert NatToString(5) == "5";
  }

  /** Ten names: all of them and no count line. */
  lemma PreviewOfTen(files: seq<string>)
    requires |files| == 10
    ensures Preview(files) == JoinLines(files)
  {
  }
}
