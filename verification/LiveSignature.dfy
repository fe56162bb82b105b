/** The signature of the headline fields (apps/web/src/App.tsx), and when it tells forms apart. */
module LiveSignature {
  import opened Text
  import opened AsyncActions

  function LeverTexts(levers: Levers): (texts: seq<string>)
    ensures |texts| == 6
  {
    [levers.vcpu, levers.storageSizeGb, levers.monthlyEgressGb, levers.aiTrainingGpuHours, levers.regionPreference,
     levers.commitmentPreferencePercent]
  }

  function HeadlineSignature(levers: Levers): string {
    Join(LeverTexts(levers), "|")
  }

  predicate HasNoBar(levers: Levers) {
    forall i :: 0 <= i < |LeverTexts(levers)| ==> '|' !in LeverTexts(levers)[i]
  }

  /** No form has the empty signature, so '' never equals one. */
  lemma SignatureIsNotEmpty(levers: Levers)
    ensures HeadlineSignature(levers) != ""
  {
    hide LeverTexts;
    JoinedPieces(LeverTexts(levers), '|');
  }

  lemma TextsTellApart(a: Levers, b: Levers)
    ensures LeverTexts(a) == LeverTexts(b) <==> a == b
  {
    var s, t := LeverTexts(a), LeverTexts(b);
    if s == t {
      assert s[0] == t[0] && s[1] == t[1] && s[2] == t[2] && s[3] == t[3] && s[4] == t[4] && s[5] == t[5];
    }
  }

  /** Fields without a bar share their signature with no others. */
  lemma NoBarTellsApart(a: Levers, b: Levers)
    requires HasNoBar(a) && HeadlineSignature(a) == HeadlineSignature(b)
    ensures a == b
  {
    hide LeverTexts;
    JoinedPieces(LeverTexts(a), '|');
    JoinedPieces(LeverTexts(b), '|');
    SplitOfJoined(LeverTexts(a), '|');
    SplitOfJoined(LeverTexts(b), '|');
    TextsTellApart(a, b);
  }

  function LeversOf(texts: seq<string>): (levers: Levers)
    requires |texts| == 6
    ensures LeverTexts(levers) == texts
  {
    Levers(texts[0], texts[1], texts[2], texts[3], texts[4], texts[5])
  }

  lemma {:induction false} FirstBar(s: string) returns (x: string, y: string)
    requires '|' in s
    ensures s == x + "|" + y
  {
    if s[0] == '|' {
      x, y := "", s[1..];
    } else {
      x, y := FirstBar(s[1..]);
      x := [s[0]] + x;
      assert s == [s[0]] + s[1..];
    }
  }

  /** Fields with a bar share it with others: the text beside the bar can belong to the neighbouring field. */
  lemma BarCollides(a: Levers) returns (b: Levers)
    requires !HasNoBar(a)
    ensures b != a && HeadlineSignature(b) == HeadlineSignature(a)
  {
    hide LeverTexts;
    var texts := LeverTexts(a);
    var k :| 0 <= k < 6 && '|' in texts[k];
    var x, y := FirstBar(texts[k]);
    var others: seq<string>;
    if k < 5 {
      others := texts[..k] + [x, y + "|" + texts[k + 1]] + texts[k + 2..];
      JoinMovesSeparator(texts[..k], x, y, texts[k + 1], texts[k + 2..], "|");
      assert texts == texts[..k] + [x + "|" + y, texts[k + 1]] + texts[k + 2..];
      assert others[k] == x;
    } else {
      others := texts[..4] + [texts[4] + "|" + x, y] + [];
      JoinMovesSeparator(texts[..4], texts[4], x, y, [], "|");
      assert texts == texts[..4] + [texts[4], x + "|" + y] + [];
      assert others[5] == y;
    }
    b := LeversOf(others);
    TextsTellApart(a, b);
  }

  /** The signature tells the headline fields of a form from all others exactly when none of them contains a bar. */
  lemma SignatureTellsApart(a: Levers)
    ensures (forall b: Levers :: HeadlineSignature(b) == HeadlineSignature(a) ==> b == a) <==> HasNoBar(a)
  {
    hide HeadlineSignature, HasNoBar;
    if HasNoBar(a) {
      forall b: Levers | HeadlineSignature(b) == HeadlineSignature(a) ensures b == a {
        NoBarTellsApart(a, b);
      }
    } else {
      var b := BarCollides(a);
    }
  }
}
