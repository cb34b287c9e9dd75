/**
 * The consensus summary card: the text its copy button puts on the
 * clipboard, and the `copied` flag that follows a successful write.
 */
module AgentSummaryCard {
  import opened Common

  const TradeOffsHeading := "\n\nKey Trade-offs:\n"
  const Bullet := "• "

  /** `tradeOffs.map(t => `• ${t}`)`. */
  function Bullets(tradeOffs: seq<string>): (r: seq<string>)
    ensures |r| == |tradeOffs|
    ensures forall i :: 0 <= i < |tradeOffs| ==> r[i] == Bullet + tradeOffs[i]
    decreases |tradeOffs|
  {
    if tradeOffs == [] then [] else [Bullet + tradeOffs[0]] + Bullets(tradeOffs[1..])
  }

  /** The text `handleCopySummary` writes: the summary alone without trade-offs,
      otherwise the summary, the heading and one bullet line per trade-off. */
  function CopyText(summary: string, tradeOffs: seq<string>): (s: string)
  {
    if |tradeOffs| > 0 then summary + TradeOffsHeading + Join(Bullets(tradeOffs), "\n") else summary
  }

  /** The copy text always begins with the summary, and equals it exactly
      when there are no trade-offs. */
  lemma CopyTextStartsWithSummary(summary: string, tradeOffs: seq<string>)
    ensures |CopyText(summary, tradeOffs)| >= |summary|
    ensures CopyText(summary, tradeOffs)[..|summary|] == summary
    ensures CopyText(summary, tradeOffs) == summary <==> tradeOffs == []
  {
    if tradeOffs != [] {
      var s := CopyText(summary, tradeOffs);
      assert s == summary + (TradeOffsHeading + Join(Bullets(tradeOffs), "\n"));
      assert |s| > |summary|;
    }
  }

  /** The bullet lines can be read back: what follows the heading starts with
      the first trade-off's line, and one more trade-off adds exactly one more line. */
  lemma CopyTextLines(summary: string, tradeOffs: seq<string>, t: string)
    requires tradeOffs != []
    ensures CopyText(summary, tradeOffs + [t]) == CopyText(summary, tradeOffs) + "\n" + Bullet + t
    ensures var s := CopyText(summary, tradeOffs);
      var k := |summary| + |TradeOffsHeading|;
      |s| >= k + |Bullet + tradeOffs[0]| && s[k..k + |Bullet + tradeOffs[0]|] == Bullet + tradeOffs[0]
  {
    assert Bullets(tradeOffs + [t]) == Bullets(tradeOffs) + [Bullet + t];
    JoinSnoc(Bullets(tradeOffs), Bullet + t, "\n");
    var j := Join(Bullets(tradeOffs), "\n");
    var s := CopyText(summary, tradeOffs);
    assert s == (summary + TradeOffsHeading) + j;
    assert j[..|Bullet + tradeOffs[0]|] == Bullet + tradeOffs[0];
  }

  class SummaryCard {
    var copied: bool

    constructor ()
      ensures !copied
    {
      copied := false;
    }

    /** `handleCopySummary`, with the clipboard's verdict as a parameter: it
        returns the text handed to the clipboard, and `copied` becomes true
        only after a successful write (the two-second reset timer is not modelled). */
    method HandleCopySummary(summary: string, tradeOffs: seq<string>, clipboardAccepts: bool) returns (written: string)
      modifies this`copied
      ensures written == CopyText(summary, tradeOffs)
      ensures copied == (clipboardAccepts || old(copied))
    {
      written := CopyText(summary, tradeOffs);
      if clipboardAccepts {
        copied := true;
      }
    }
  }
}
