/** Turning a total score into a star rating, a compliance level and the
    verdict word of the completion message. */
module Classification {

  /** Star rating by inclusive thresholds 90/80/70/60, tested highest first. */
  function StarRating(score: int): (stars: int)
    ensures 1 <= stars <= 5
  {
    if score >= 90 then 5
    else if score >= 80 then 4
    else if score >= 70 then 3
    else if score >= 60 then 2
    else 1
  }

  /** The compliance levels of the results badge. */
  datatype Level = Excellent | Good | Satisfactory | NeedsImprovement | Poor
  {
    /** The badge text. */
    function Label(): string {
      match this
      case Excellent => "Excellent"
      case Good => "Good"
      case Satisfactory => "Satisfactory"
      case NeedsImprovement => "Needs Improvement"
      case Poor => "Poor"
    }

    /** The badge colour class. */
    function Color(): string {
      match this
      case Excellent => "bg-green-500"
      case Good => "bg-blue-500"
      case Satisfactory => "bg-yellow-500"
      case NeedsImprovement => "bg-orange-500"
      case Poor => "bg-red-500"
    }

    /** The star count that goes with a level. */
    function Stars(): int {
      match this
      case Excellent => 5
      case Good => 4
      case Satisfactory => 3
      case NeedsImprovement => 2
      case Poor => 1
    }
  }

  /** The compliance level of a score (the page's getComplianceLevel). The
      badge agrees with the stars: its level is the one whose star count is
      the score's star rating. */
  function ComplianceLevel(score: int): (level: Level)
    ensures level.Stars() == StarRating(score)
  {
    if score >= 90 then Excellent
    else if score >= 80 then Good
    else if score >= 70 then Satisfactory
    else if score >= 60 then NeedsImprovement
    else Poor
  }

  /** The verdict word in the completion message. A message says
      "Compliant" exactly for three stars or more. */
  function NotificationVerdict(score: int): (verdict: string)
    ensures verdict == "Compliant" <==> StarRating(score) >= 3
  {
    if score >= 70 then "Compliant" else "Requires Improvement"
  }

  /** A higher score never earns fewer stars. */
  lemma StarRatingMonotone(lo: int, hi: int)
    requires lo <= hi
    ensures StarRating(lo) <= StarRating(hi)
  {
  }

  /** The five star values partition the scores at 60, 70, 80 and 90. */
  lemma StarRatingPartition(score: int)
    ensures StarRating(score) == 5 <==> 90 <= score
    ensures StarRating(score) == 4 <==> 80 <= score < 90
    ensures StarRating(score) == 3 <==> 70 <= score < 80
    ensures StarRating(score) == 2 <==> 60 <= score < 70
    ensures StarRating(score) == 1 <==> score < 60
  {
  }

  /** The thresholds are exact. */
  lemma StarRatingBoundaries()
    ensures StarRating(100) == 5 && StarRating(90) == 5 && StarRating(89) == 4
    ensures StarRating(80) == 4 && StarRating(79) == 3 && StarRating(70) == 3
    ensures StarRating(69) == 2 && StarRating(60) == 2 && StarRating(59) == 1 && StarRating(0) == 1
  {
  }

  /** Star counts and levels correspond one to one, and the labels tell the
      levels apart. */
  lemma LevelsOneToOne(l: Level, m: Level)
    ensures l.Stars() == m.Stars() <==> l == m
    ensures l.Label() == m.Label() <==> l == m
    ensures 1 <= l.Stars() <= 5
  {
  }

  /** A message says "Compliant" exactly when the badge shows Excellent, Good
      or Satisfactory. */
  lemma CompliantIffTopLevels(score: int)
    ensures NotificationVerdict(score) == "Compliant" <==> ComplianceLevel(score) in {Excellent, Good, Satisfactory}
  {
  }
}
