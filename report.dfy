/** The results view of a completed assessment: a read-only projection of the
    page state. Its score breakdown is recomputed from the answer records with
    the same per-section formulas as the scoring step. */
module Report {
  import opened Records
  import opened Scoring
  import C = Classification

  /** One line of the breakdown: section label, marks earned, marks shown as the maximum. */
  datatype Row = Row(title: string, earned: nat, outOf: nat)

  /** The breakdown lines, each computed by the formula the results view
      uses. Line `i` shows what the scoring step gives section `i` and that
      section's maximum. */
  function Breakdown(a: Answers): (rows: seq<Row>)
    ensures |rows| == |ScoredSections|
    ensures forall i :: 0 <= i < |rows| ==>
              rows[i].earned == SectionScore(a, ScoredSections[i]) && rows[i].outOf == SectionMax(ScoredSections[i])
  {
    TotalScoreByFormula(a);
    [ Row("Documentation", CheckedCount(a.documentation) * 5, 20),
      Row("Personal Hygiene", ExcellentCount(a.personalHygiene) * 4, 20),
      Row("Material Sourcing", ExcellentCount(a.materialSourcing) * 5, 20),
      Row("Water Sources", ExcellentCount(a.waterSources) * 5, 10),
      Row("Waste Disposal", ExcellentCount(a.wasteDisposal) * 5, 20),
      Row("Cleaning", ExcellentCount(a.cleaning) * 5, 10) ]
  }

  function SumEarned(rows: seq<Row>): nat {
    if rows == [] then 0 else rows[0].earned + SumEarned(rows[1..])
  }

  function SumOutOf(rows: seq<Row>): nat {
    if rows == [] then 0 else rows[0].outOf + SumOutOf(rows[1..])
  }

  /** What the results view shows. The location block appears only when a
      location was chosen. */
  datatype ResultsView = ResultsView(
    info: BackgroundInfo,
    locationShown: bool,
    score: int,
    stars: int,
    level: C.Level,
    breakdown: seq<Row>,
    inspectorImage: string,
    ownerImage: string)

  /** The results view of a state. Its badge agrees with the stored score's
      star rating, the location shows only when one was chosen, and each
      signature image is the signature itself once both parties have signed. */
  function ResultsOf(info: BackgroundInfo, a: Answers, signatures: Signatures, finalScore: int, starRating: int): (view: ResultsView)
    ensures view.score == finalScore && view.stars == starRating
    ensures view.level.Stars() == C.StarRating(finalScore)
    ensures view.locationShown <==> info.coordinates.lat != 0.0
    ensures view.inspectorImage != "" && view.ownerImage != ""
    ensures BothSigned(signatures) ==> view.inspectorImage == signatures.inspector && view.ownerImage == signatures.facilityOwner
  {
    ResultsView(info, HasCoordinates(info), finalScore, starRating, C.ComplianceLevel(finalScore), Breakdown(a),
                SignatureImage(signatures.inspector), SignatureImage(signatures.facilityOwner))
  }

  /** Sums over six lines, written out. */
  lemma SumsOfSixRows(rows: seq<Row>)
    requires |rows| == 6
    ensures SumEarned(rows) == rows[0].earned + rows[1].earned + rows[2].earned + rows[3].earned + rows[4].earned + rows[5].earned
    ensures SumOutOf(rows) == rows[0].outOf + rows[1].outOf + rows[2].outOf + rows[3].outOf + rows[4].outOf + rows[5].outOf
  {
    var r1, r2, r3, r4, r5 := rows[1..], rows[2..], rows[3..], rows[4..], rows[5..];
    assert r1[1..] == r2 && r2[1..] == r3 && r3[1..] == r4 && r4[1..] == r5 && r5[1..] == [];
    assert SumEarned(r5) == rows[5].earned && SumOutOf(r5) == rows[5].outOf;
    assert SumEarned(r4) == rows[4].earned + SumEarned(r5) && SumOutOf(r4) == rows[4].outOf + SumOutOf(r5);
    assert SumEarned(r3) == rows[3].earned + SumEarned(r4) && SumOutOf(r3) == rows[3].outOf + SumOutOf(r4);
    assert SumEarned(r2) == rows[2].earned + SumEarned(r3) && SumOutOf(r2) == rows[2].outOf + SumOutOf(r3);
    assert SumEarned(r1) == rows[1].earned + SumEarned(r2) && SumOutOf(r1) == rows[1].outOf + SumOutOf(r2);
  }

  /** The breakdown lines add up to the total and to 100. */
  lemma BreakdownMatchesScoring(a: Answers)
    ensures SumEarned(Breakdown(a)) == TotalScore(a)
    ensures SumOutOf(Breakdown(a)) == 100
  {
    var rows := Breakdown(a);
    SectionMaximaSumTo100();
    SumsOfSixRows(rows);
    assert rows[0].earned == SectionScore(a, ScoredSections[0]) && rows[1].earned == SectionScore(a, ScoredSections[1]);
    assert rows[2].earned == SectionScore(a, ScoredSections[2]) && rows[3].earned == SectionScore(a, ScoredSections[3]);
    assert rows[4].earned == SectionScore(a, ScoredSections[4]) && rows[5].earned == SectionScore(a, ScoredSections[5]);
  }

  /** On well-formed answers no line shows more than its maximum. */
  lemma BreakdownWithinMaxima(a: Answers)
    requires a.WellFormed()
    ensures forall r :: r in Breakdown(a) ==> r.earned <= r.outOf
  {
    BreakdownMatchesScoring(a);
    forall r | r in Breakdown(a)
      ensures r.earned <= r.outOf
    {
      var i :| 0 <= i < |Breakdown(a)| && Breakdown(a)[i] == r;
      assert SectionScore(a, ScoredSections[i]) <= SectionMax(ScoredSections[i]);
    }
  }
}
