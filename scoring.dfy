/** Section scoring: how the six checklist sections turn into marks out of 100.
    Each section's record is kept as the sequence of its values in key order,
    which is what the page's `Object.values(...)` yields. */
module Scoring {

  /** The value of a rated item. The page stores it as a string: the radio
      groups set "excellent", "good", "fair" or "poor", and an item nobody
      answered holds "". Only `Excellent` earns marks. */
  datatype Rating = Unanswered | Excellent | Good | Fair | Poor
  {
    /** The string the page stores. */
    function Value(): string {
      match this
      case Unanswered => ""
      case Excellent => "excellent"
      case Good => "good"
      case Fair => "fair"
      case Poor => "poor"
    }
  }

  /** Distinct ratings are stored as distinct strings, so comparing the stored
      string with "excellent" is the same as comparing the rating with `Excellent`. */
  lemma RatingValuesDistinct(r: Rating, q: Rating)
    ensures r.Value() == q.Value() <==> r == q
    ensures r.Value() == "excellent" <==> r == Excellent
  {
  }

  datatype Section =
    | Documentation
    | PersonalHygiene
    | MaterialSourcing
    | WaterSources
    | WasteDisposal
    | Cleaning

  /** The scored sections, in the order the total adds them and the results list them. */
  const ScoredSections: seq<Section> :=
    [Documentation, PersonalHygiene, MaterialSourcing, WaterSources, WasteDisposal, Cleaning]

  /** The item keys of each section's record, in declaration order. */
  function Keys(s: Section): seq<string> {
    match s
    case Documentation => ["hygieneCertificate", "businessPermit", "suitabilityPermit", "hygienePermit"]
    case PersonalHygiene => ["handWashing", "protectiveClothing", "hairCovering", "jewelryRemoval", "healthStatus"]
    case MaterialSourcing => ["supplierApproval", "ingredientQuality", "storageConditions", "expiryDateCheck"]
    case WaterSources => ["waterQuality", "storageConditions"]
    case WasteDisposal => ["wasteSegregation", "disposalMethod", "pestControl", "drainageMaintenance"]
    case Cleaning => ["cleaningSchedule", "sanitizationProcedures"]
  }

  /** Number of items of each section: the length of its key list. */
  function ItemCount(s: Section): nat {
    match s
    case Documentation => 4
    case PersonalHygiene => 5
    case MaterialSourcing => 4
    case WaterSources => 2
    case WasteDisposal => 4
    case Cleaning => 2
  }

  /** Marks for one qualifying item: 4 in Personal Hygiene, 5 everywhere else. */
  function Mark(s: Section): nat {
    if s == PersonalHygiene then 4 else 5
  }

  /** The most a section can earn, as the form's section badges state it. */
  function SectionMax(s: Section): nat {
    match s
    case Documentation => 20
    case PersonalHygiene => 20
    case MaterialSourcing => 20
    case WaterSources => 10
    case WasteDisposal => 20
    case Cleaning => 10
  }

  /** Number of checked boxes (`filter(Boolean).length`). */
  function CheckedCount(boxes: seq<bool>): (n: nat)
    ensures n <= |boxes|
  {
    if boxes == [] then 0
    else (if boxes[0] then 1 else 0) + CheckedCount(boxes[1..])
  }

  /** Number of ratings equal to "excellent" (`filter(val => val === "excellent").length`). */
  function ExcellentCount(ratings: seq<Rating>): (n: nat)
    ensures n <= |ratings|
  {
    if ratings == [] then 0
    else (if ratings[0] == Excellent then 1 else 0) + ExcellentCount(ratings[1..])
  }

  /** The six answer records of an assessment. */
  datatype Answers = Answers(
    documentation: seq<bool>,
    personalHygiene: seq<Rating>,
    materialSourcing: seq<Rating>,
    waterSources: seq<Rating>,
    wasteDisposal: seq<Rating>,
    cleaning: seq<Rating>)
  {
    /** Every record holds exactly one value per item key. */
    predicate WellFormed() {
      && |documentation| == ItemCount(Documentation)
      && |personalHygiene| == ItemCount(PersonalHygiene)
      && |materialSourcing| == ItemCount(MaterialSourcing)
      && |waterSources| == ItemCount(WaterSources)
      && |wasteDisposal| == ItemCount(WasteDisposal)
      && |cleaning| == ItemCount(Cleaning)
    }

    /** The rating values of a rated (non-documentation) section. */
    function Ratings(s: Section): seq<Rating>
      requires s != Documentation
    {
      match s
      case PersonalHygiene => personalHygiene
      case MaterialSourcing => materialSourcing
      case WaterSources => waterSources
      case WasteDisposal => wasteDisposal
      case Cleaning => cleaning
    }

    /** The records after one documentation box is set (`{...documentation, [key]: checked}`). */
    function WithBox(i: nat, checked: bool): (r: Answers)
      requires i < |documentation|
      ensures |r.documentation| == |documentation| && r.documentation[i] == checked
      ensures forall j :: 0 <= j < |documentation| && j != i ==> r.documentation[j] == documentation[j]
      ensures forall s :: s != Documentation ==> r.Ratings(s) == Ratings(s)
      ensures WellFormed() ==> r.WellFormed()
    {
      this.(documentation := documentation[i := checked])
    }

    /** The records after one rating is set (`{...section, [key]: value}`). */
    function WithRating(s: Section, i: nat, value: Rating): (r: Answers)
      requires s != Documentation && i < |Ratings(s)|
      ensures |r.Ratings(s)| == |Ratings(s)| && r.Ratings(s)[i] == value
      ensures forall j :: 0 <= j < |Ratings(s)| && j != i ==> r.Ratings(s)[j] == Ratings(s)[j]
      ensures forall t :: t != Documentation && t != s ==> r.Ratings(t) == Ratings(t)
      ensures r.documentation == documentation
      ensures WellFormed() ==> r.WellFormed()
    {
      match s
      case PersonalHygiene => this.(personalHygiene := personalHygiene[i := value])
      case MaterialSourcing => this.(materialSourcing := materialSourcing[i := value])
      case WaterSources => this.(waterSources := waterSources[i := value])
      case WasteDisposal => this.(wasteDisposal := wasteDisposal[i := value])
      case Cleaning => this.(cleaning := cleaning[i := value])
    }
  }

  /** The records a new page starts with: no box checked, no item rated. */
  const InitialAnswers: Answers :=
    Answers([false, false, false, false], [Unanswered, Unanswered, Unanswered, Unanswered, Unanswered],
            [Unanswered, Unanswered, Unanswered, Unanswered], [Unanswered, Unanswered],
            [Unanswered, Unanswered, Unanswered, Unanswered], [Unanswered, Unanswered])

  /** Number of items of a section that earn marks. */
  function QualifyingCount(a: Answers, s: Section): nat {
    if s == Documentation then CheckedCount(a.documentation) else ExcellentCount(a.Ratings(s))
  }

  /** A section's marks: qualifying items times the per-item mark. */
  function SectionScore(a: Answers, s: Section): (r: nat)
    ensures a.WellFormed() ==> r <= SectionMax(s)
  {
    QualifyingCount(a, s) * Mark(s)
  }

  /** The assessment total, added up in the page's order. */
  function TotalScore(a: Answers): (total: nat)
    ensures a.WellFormed() ==> total <= 100
  {
    SectionScore(a, Documentation) + SectionScore(a, PersonalHygiene) + SectionScore(a, MaterialSourcing)
    + SectionScore(a, WaterSources) + SectionScore(a, WasteDisposal) + SectionScore(a, Cleaning)
  }

  /** Marks one answer value is worth in a section. */
  function BoxPoints(checked: bool): nat {
    if checked then Mark(Documentation) else 0
  }

  function RatingPoints(s: Section, value: Rating): nat {
    if value == Excellent then Mark(s) else 0
  }

  /** Every item qualifies: all boxes checked, every rating "excellent". */
  ghost predicate AllQualify(a: Answers) {
    forall s :: s in ScoredSections ==> QualifyingCount(a, s) == ItemCount(s)
  }

  // ---------------------------------------------------------------------------
  // Counting lemmas

  /** The checked-box count is the number of `true` occurrences. */
  lemma {:induction false} CheckedCountIsMultiplicity(boxes: seq<bool>)
    ensures CheckedCount(boxes) == multiset(boxes)[true]
  {
    if boxes != [] {
      assert boxes == [boxes[0]] + boxes[1..];
      assert multiset(boxes) == multiset{boxes[0]} + multiset(boxes[1..]);
      CheckedCountIsMultiplicity(boxes[1..]);
    }
  }

  /** The excellent count is the number of "excellent" occurrences. */
  lemma {:induction false} ExcellentCountIsMultiplicity(ratings: seq<Rating>)
    ensures ExcellentCount(ratings) == multiset(ratings)[Excellent]
  {
    if ratings != [] {
      assert ratings == [ratings[0]] + ratings[1..];
      assert multiset(ratings) == multiset{ratings[0]} + multiset(ratings[1..]);
      ExcellentCountIsMultiplicity(ratings[1..]);
    }
  }

  /** No box counts exactly when none is checked; all count exactly when all are. */
  lemma {:induction false} CheckedCountExtremes(boxes: seq<bool>)
    ensures CheckedCount(boxes) == 0 <==> forall i :: 0 <= i < |boxes| ==> !boxes[i]
    ensures CheckedCount(boxes) == |boxes| <==> forall i :: 0 <= i < |boxes| ==> boxes[i]
  {
    if boxes != [] {
      CheckedCountExtremes(boxes[1..]);
      assert forall i :: 1 <= i < |boxes| ==> boxes[i] == boxes[1..][i - 1];
    }
  }

  /** The count is 0 exactly when no rating is "excellent", and the number of
      items exactly when every rating is. */
  lemma {:induction false} ExcellentCountExtremes(ratings: seq<Rating>)
    ensures ExcellentCount(ratings) == 0 <==> forall i :: 0 <= i < |ratings| ==> ratings[i] != Excellent
    ensures ExcellentCount(ratings) == |ratings| <==> forall i :: 0 <= i < |ratings| ==> ratings[i] == Excellent
  {
    if ratings != [] {
      ExcellentCountExtremes(ratings[1..]);
      assert forall i :: 1 <= i < |ratings| ==> ratings[i] == ratings[1..][i - 1];
    }
  }

  /** Setting one box changes the count by that box alone. */
  lemma {:induction false} CheckedCountUpdate(boxes: seq<bool>, i: nat, checked: bool)
    requires i < |boxes|
    ensures CheckedCount(boxes[i := checked]) + (if boxes[i] then 1 else 0)
         == CheckedCount(boxes) + (if checked then 1 else 0)
  {
    if i == 0 {
      assert boxes[i := checked][1..] == boxes[1..];
    } else {
      assert boxes[i := checked][1..] == boxes[1..][i - 1 := checked];
      CheckedCountUpdate(boxes[1..], i - 1, checked);
    }
  }

  /** Setting one rating changes the count by that rating alone. */
  lemma {:induction false} ExcellentCountUpdate(ratings: seq<Rating>, i: nat, value: Rating)
    requires i < |ratings|
    ensures ExcellentCount(ratings[i := value]) + (if ratings[i] == Excellent then 1 else 0)
         == ExcellentCount(ratings) + (if value == Excellent then 1 else 0)
  {
    if i == 0 {
      assert ratings[i := value][1..] == ratings[1..];
    } else {
      assert ratings[i := value][1..] == ratings[1..][i - 1 := value];
      ExcellentCountUpdate(ratings[1..], i - 1, value);
    }
  }

  /** Where every "excellent" of one record is also "excellent" in another of
      the same length, the second counts at least as many. */
  lemma {:induction false} ExcellentCountMonotone(before: seq<Rating>, after: seq<Rating>)
    requires |before| == |after|
    requires forall i :: 0 <= i < |before| && before[i] == Excellent ==> after[i] == Excellent
    ensures ExcellentCount(before) <= ExcellentCount(after)
  {
    if before != [] {
      ExcellentCountMonotone(before[1..], after[1..]);
    }
  }

  lemma {:induction false} CheckedCountMonotone(before: seq<bool>, after: seq<bool>)
    requires |before| == |after|
    requires forall i :: 0 <= i < |before| && before[i] ==> after[i]
    ensures CheckedCount(before) <= CheckedCount(after)
  {
    if before != [] {
      CheckedCountMonotone(before[1..], after[1..]);
    }
  }

  // ---------------------------------------------------------------------------
  // Section and total lemmas

  /** Each section's item count is the length of its key list. */
  lemma ItemCountsMatchKeys(s: Section)
    ensures ItemCount(s) == |Keys(s)|
  {
  }

  /** Each section's maximum is its item count times its per-item mark, and
      the maxima add up to 100. */
  lemma SectionMaximaSumTo100()
    ensures forall s :: SectionMax(s) == ItemCount(s) * Mark(s)
    ensures SectionMax(Documentation) + SectionMax(PersonalHygiene) + SectionMax(MaterialSourcing)
          + SectionMax(WaterSources) + SectionMax(WasteDisposal) + SectionMax(Cleaning) == 100
  {
  }

  /** The six section scores written out with the page's own per-section
      formulas: checked boxes times 5, "excellent" hygiene ratings times 4,
      and "excellent" ratings times 5 in the other four sections. */
  lemma TotalScoreByFormula(a: Answers)
    ensures SectionScore(a, Documentation) == CheckedCount(a.documentation) * 5
    ensures SectionScore(a, PersonalHygiene) == ExcellentCount(a.personalHygiene) * 4
    ensures SectionScore(a, MaterialSourcing) == ExcellentCount(a.materialSourcing) * 5
    ensures SectionScore(a, WaterSources) == ExcellentCount(a.waterSources) * 5
    ensures SectionScore(a, WasteDisposal) == ExcellentCount(a.wasteDisposal) * 5
    ensures SectionScore(a, Cleaning) == ExcellentCount(a.cleaning) * 5
    ensures TotalScore(a) == CheckedCount(a.documentation) * 5 + ExcellentCount(a.personalHygiene) * 4
                           + ExcellentCount(a.materialSourcing) * 5 + ExcellentCount(a.waterSources) * 5
                           + ExcellentCount(a.wasteDisposal) * 5 + ExcellentCount(a.cleaning) * 5
  {
  }

  /** Checking a box adds 5 marks and unchecking one removes 5; nothing else moves. */
  lemma SetBoxEffect(a: Answers, i: nat, checked: bool)
    requires i < |a.documentation|
    ensures TotalScore(a.WithBox(i, checked)) + BoxPoints(a.documentation[i])
         == TotalScore(a) + BoxPoints(checked)
  {
    CheckedCountUpdate(a.documentation, i, checked);
    var b := a.WithBox(i, checked);
    assert SectionScore(b, Documentation) + BoxPoints(a.documentation[i])
        == SectionScore(a, Documentation) + BoxPoints(checked);
  }

  /** Changing one rating moves the total by the difference of the two values'
      points, and only "excellent" has points: a rating counts its per-item
      mark when it is "excellent" and nothing otherwise. */
  lemma SetRatingEffect(a: Answers, s: Section, i: nat, value: Rating)
    requires s != Documentation && i < |a.Ratings(s)|
    ensures TotalScore(a.WithRating(s, i, value)) + RatingPoints(s, a.Ratings(s)[i])
         == TotalScore(a) + RatingPoints(s, value)
  {
    var b := a.WithRating(s, i, value);
    ExcellentCountUpdate(a.Ratings(s), i, value);
    assert b.Ratings(s) == a.Ratings(s)[i := value];
    assert SectionScore(b, s) + RatingPoints(s, a.Ratings(s)[i]) == SectionScore(a, s) + RatingPoints(s, value);
    forall t | t != s
      ensures SectionScore(b, t) == SectionScore(a, t)
    {
    }
  }

  /** "good", "fair", "poor" and an unanswered item all score nothing: any of
      them may replace another without changing the total, although the form
      labels "good" with 3 marks and "fair" with 2. */
  lemma GoodAndFairEarnNothing(a: Answers, s: Section, i: nat, value: Rating)
    requires s != Documentation && i < |a.Ratings(s)|
    requires a.Ratings(s)[i] != Excellent && value != Excellent
    ensures TotalScore(a.WithRating(s, i, value)) == TotalScore(a)
  {
    SetRatingEffect(a, s, i, value);
  }

  /** Whatever an item holds now, choosing "good" for it gives the same total
      as choosing "poor", and "fair" the same as leaving it unanswered. */
  lemma GoodScoresLikePoor(a: Answers, s: Section, i: nat)
    requires s != Documentation && i < |a.Ratings(s)|
    ensures TotalScore(a.WithRating(s, i, Good)) == TotalScore(a.WithRating(s, i, Poor))
    ensures TotalScore(a.WithRating(s, i, Fair)) == TotalScore(a.WithRating(s, i, Unanswered))
  {
    SetRatingEffect(a, s, i, Good);
    SetRatingEffect(a, s, i, Poor);
    SetRatingEffect(a, s, i, Fair);
    SetRatingEffect(a, s, i, Unanswered);
  }

  /** Every item that earns marks in `before` also earns them in `after`. */
  ghost predicate Improves(before: Answers, after: Answers) {
    && before.WellFormed() && after.WellFormed()
    && (forall i :: 0 <= i < |before.documentation| && before.documentation[i] ==> after.documentation[i])
    && (forall s, i :: s != Documentation && 0 <= i < |before.Ratings(s)| && before.Ratings(s)[i] == Excellent
          ==> after.Ratings(s)[i] == Excellent)
  }

  /** Item-wise improvement never lowers the total. */
  lemma TotalMonotone(before: Answers, after: Answers)
    requires Improves(before, after)
    ensures TotalScore(before) <= TotalScore(after)
  {
    CheckedCountMonotone(before.documentation, after.documentation);
    assert SectionScore(before, Documentation) <= SectionScore(after, Documentation);
    RatingsMonotone(before, after, PersonalHygiene);
    RatingsMonotone(before, after, MaterialSourcing);
    RatingsMonotone(before, after, WaterSources);
    RatingsMonotone(before, after, WasteDisposal);
    RatingsMonotone(before, after, Cleaning);
  }

  lemma RatingsMonotone(before: Answers, after: Answers, s: Section)
    requires s != Documentation && |before.Ratings(s)| == |after.Ratings(s)|
    requires forall i :: 0 <= i < |before.Ratings(s)| && before.Ratings(s)[i] == Excellent
               ==> after.Ratings(s)[i] == Excellent
    ensures SectionScore(before, s) <= SectionScore(after, s)
  {
    ExcellentCountMonotone(before.Ratings(s), after.Ratings(s));
  }

  /** The total is 100 exactly when every box is checked and every rating is "excellent". */
  lemma PerfectScoreIffAllQualify(a: Answers)
    requires a.WellFormed()
    ensures TotalScore(a) == 100 <==> AllQualify(a)
  {
    SectionMaximaSumTo100();
    if TotalScore(a) == 100 {
      forall s | s in ScoredSections
        ensures QualifyingCount(a, s) == ItemCount(s)
      {
        assert SectionScore(a, s) == SectionMax(s);
      }
    }
  }

  /** The total is 0 exactly when no box is checked and no rating is "excellent". */
  lemma ZeroScoreIffNothingQualifies(a: Answers)
    ensures TotalScore(a) == 0 <==> forall s :: s in ScoredSections ==> QualifyingCount(a, s) == 0
  {
  }

  /** A new page scores 0. */
  lemma InitialAnswersScoreZero()
    ensures InitialAnswers.WellFormed() && TotalScore(InitialAnswers) == 0
  {
  }
}
