/**
 * The scam detector page: a submission guard, the loading/result/error flags around the
 * external analysis call, the stored count of successful analyses, and the badge chosen for
 * a count.
 */
module Detector {
  import opened Wrappers

  // ---------------------------------------------------------------------------
  // analysis results

  datatype RiskLevel = Low | Medium | High | Unknown

  datatype AnalysisPoint = AnalysisPoint(tactic: string, explanation: string, quote: string)

  datatype AnalysisResult = AnalysisResult(
    riskScore: int, riskLevel: RiskLevel, summary: string, analysisPoints: seq<AnalysisPoint>)

  /** An uploaded screenshot; its bytes are read by the analysis call and are left out. */
  datatype ImageFile = ImageFile(name: string, mimeType: string)

  const DefaultError: string := "An unexpected error occurred."

  /** `e.message || 'An unexpected error occurred.'`: a missing or empty message is replaced. */
  function ErrorText(message: Option<string>): (text: string)
    ensures text != ""
    ensures message.Some? && message.value != "" ==> text == message.value
    ensures !(message.Some? && message.value != "") ==> text == DefaultError
  {
    if message.Some? && message.value != "" then message.value else DefaultError
  }

  // ---------------------------------------------------------------------------
  // badges

  datatype Badge = Badge(count: int, title: string, description: string)

  const Badges: seq<Badge> := [
    Badge(1, "Rookie Detective",
      "You've completed your first scam analysis! Welcome to the fight against fraud."),
    Badge(5, "Scam Spotter", "You've analyzed 5 potential scams. Your skills are growing!"),
    Badge(10, "Cyber Guardian",
      "10 detections! You're becoming a key protector of the digital world.")
  ]

  /** `badges.find(b => b.count === count)`: the first badge whose threshold equals the count. */
  function FindBadge(badges: seq<Badge>, count: int): (found: Option<Badge>)
    ensures found.Some? ==> found.value in badges && found.value.count == count
    ensures found.Some? ==> exists i :: 0 <= i < |badges| && badges[i] == found.value
                                        && forall j :: 0 <= j < i ==> badges[j].count != count
    ensures found.None? <==> forall i :: 0 <= i < |badges| ==> badges[i].count != count
  {
    if badges == [] then None
    else if badges[0].count == count then Some(badges[0])
    else FindBadge(badges[1..], count)
  }

  /** The badge earned when the count of analyses reaches `count`, if any. */
  function BadgeFor(count: int): Option<Badge>
  {
    FindBadge(Badges, count)
  }

  /**
   * A badge is selected exactly when the count equals one of the thresholds 1, 5 and 10, and
   * the badge selected for a count is the one badge with that threshold.
   */
  lemma BadgeSelection(count: int)
    ensures BadgeFor(count).Some? <==> count == 1 || count == 5 || count == 10
    ensures forall b :: b in Badges ==> (BadgeFor(count) == Some(b) <==> b.count == count)
  {
    forall b | b in Badges
      ensures BadgeFor(count) == Some(b) <==> b.count == count
    {
      if b.count == count {
        assert BadgeFor(count).Some?;
      }
    }
    if count == 1 || count == 5 || count == 10 {
      var i := if count == 1 then 0 else if count == 5 then 1 else 2;
      assert Badges[i].count == count;
    }
  }

  /**
   * Counting up from 0 one analysis at a time, each badge is selected at exactly one count
   * reached along the way, its threshold, once the count has got that far.
   */
  lemma EachBadgeOnce(b: Badge, reached: nat)
    requires b in Badges
    ensures (set k | 0 <= k <= reached && BadgeFor(k) == Some(b)) == if b.count <= reached then {b.count} else {}
  {
    forall k | 0 <= k <= reached
      ensures BadgeFor(k) == Some(b) <==> k == b.count
    {
      BadgeSelection(k);
    }
    assert b.count >= 1;
  }

  // ---------------------------------------------------------------------------
  // the page

  class DetectorPage {
    var isLoading: bool
    var result: Option<AnalysisResult>
    var error: Option<string>
    var detectionCount: int
    /** Analysis calls started and not yet answered (the page itself does not track them). */
    ghost var pending: nat

    /** The page as it opens, with the count kept from earlier visits. */
    constructor (storedCount: int)
      ensures !isLoading && result == None && error == None
      ensures detectionCount == storedCount && pending == 0
    {
      isLoading, result, error := false, None, None;
      detectionCount := storedCount;
      pending := 0;
    }

    /**
     * "Analyze": refused only when there is neither text nor an image. The text is not
     * trimmed, so whitespace alone is analysed. Otherwise loading starts and the previous
     * result and error are cleared; the count is not touched until the answer arrives.
     */
    method HandleSubmit(text: string, image: Option<ImageFile>) returns (started: bool)
      modifies this
      ensures started <==> text != "" || image.Some?
      ensures started ==> isLoading && result == None && error == None && pending == old(pending) + 1
      ensures !started ==> isLoading == old(isLoading) && result == old(result)
                           && error == old(error) && pending == old(pending)
      ensures detectionCount == old(detectionCount)
    {
      if text == "" && image.None? {
        return false;
      }
      isLoading := true;
      result := None;
      error := None;
      pending := pending + 1;
      started := true;
    }

    /** An analysis call answered: show the result, count one more detection, stop loading. */
    method AnalysisSucceeded(analysis: AnalysisResult)
      requires pending > 0
      modifies this
      ensures result == Some(analysis) && detectionCount == old(detectionCount) + 1
      ensures error == old(error) && !isLoading && pending == old(pending) - 1
    {
      result := Some(analysis);
      detectionCount := detectionCount + 1;
      isLoading := false;
      pending := pending - 1;
    }

    /** An analysis call failed: show the error, leave the count, stop loading. */
    method AnalysisFailed(message: Option<string>)
      requires pending > 0
      modifies this
      ensures error == Some(ErrorText(message)) && detectionCount == old(detectionCount)
      ensures result == old(result) && !isLoading && pending == old(pending) - 1
    {
      error := Some(ErrorText(message));
      isLoading := false;
      pending := pending - 1;
    }
  }
}
