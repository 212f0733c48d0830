/** Worked assessments: complete answer records and the score, stars, badge
    and verdict they lead to. */
module Scenarios {
  import opened Scoring
  import C = Classification

  /** Answer records with every documentation box set to `checked` and every
      rated item set to `value`. */
  function Filled(checked: bool, value: Rating): (a: Answers)
    ensures a.WellFormed()
    ensures forall s :: s != Documentation ==> forall i :: 0 <= i < |a.Ratings(s)| ==> a.Ratings(s)[i] == value
    ensures forall i :: 0 <= i < |a.documentation| ==> a.documentation[i] == checked
  {
    Answers([checked, checked, checked, checked], [value, value, value, value, value],
            [value, value, value, value], [value, value], [value, value, value, value], [value, value])
  }

  /** Every box checked and every item "excellent": 100 marks, five stars,
      the Excellent badge and a "Compliant" message. */
  lemma EverythingExcellent()
    ensures TotalScore(Filled(true, Excellent)) == 100
    ensures C.StarRating(100) == 5 && C.ComplianceLevel(100) == C.Excellent
    ensures C.NotificationVerdict(100) == "Compliant"
  {
    var a := Filled(true, Excellent);
    CheckedCountExtremes(a.documentation);
    ExcellentCountExtremes(a.personalHygiene);
    ExcellentCountExtremes(a.materialSourcing);
    ExcellentCountExtremes(a.waterSources);
    ExcellentCountExtremes(a.wasteDisposal);
    ExcellentCountExtremes(a.cleaning);
    TotalScoreByFormula(a);
  }

  /** All personal-hygiene items "good" and everything else at its best: the
      hygiene section earns nothing, so the total is 80 and the rating four
      stars with the Good badge. */
  lemma HygieneAllGood()
    ensures var a := Filled(true, Excellent).(personalHygiene := Filled(true, Good).personalHygiene);
            && a.WellFormed()
            && TotalScore(a) == 80
    ensures C.StarRating(80) == 4 && C.ComplianceLevel(80) == C.Good
  {
    var full := Filled(true, Excellent);
    var a := full.(personalHygiene := Filled(true, Good).personalHygiene);
    EverythingExcellent();
    TotalScoreByFormula(full);
    ExcellentCountExtremes(a.personalHygiene);
    TotalScoreByFormula(a);
  }

  /** No box checked and no item "excellent", whatever the other ratings:
      0 marks, one star, the Poor badge and "Requires Improvement". */
  lemma NothingQualifies(value: Rating)
    requires value != Excellent
    ensures TotalScore(Filled(false, value)) == 0
    ensures C.StarRating(0) == 1 && C.ComplianceLevel(0) == C.Poor
    ensures C.NotificationVerdict(0) == "Requires Improvement"
  {
    var a := Filled(false, value);
    CheckedCountExtremes(a.documentation);
    ExcellentCountExtremes(a.personalHygiene);
    ExcellentCountExtremes(a.materialSourcing);
    ExcellentCountExtremes(a.waterSources);
    ExcellentCountExtremes(a.wasteDisposal);
    ExcellentCountExtremes(a.cleaning);
    TotalScoreByFormula(a);
  }

  /** A new page with only the first documentation box checked scores 5 marks
      and one star. */
  lemma OneCheckedBox()
    ensures InitialAnswers.WithBox(0, true).WellFormed()
    ensures TotalScore(InitialAnswers.WithBox(0, true)) == 5
    ensures C.StarRating(5) == 1
  {
    InitialAnswersScoreZero();
    SetBoxEffect(InitialAnswers, 0, true);
  }
}
