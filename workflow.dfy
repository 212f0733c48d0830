/** The assessment page as a state holder: its fields are the page's state
    variables and its methods are the event handlers that update them.

    Which handlers a user can reach depends on what the page renders: the form
    (tabs, Previous/Next, the field editors) only while the assessment is not
    complete, each field editor only while its own tab is showing, the
    signature dialog only while it is open, and the "New Assessment" button
    only on the results view. Each handler's `requires` states that
    condition. */
module Workflow {
  import opened Records
  import opened Scoring
  import C = Classification
  import opened Navigation
  import opened Report

  /** The tab whose content holds the editors of section `s`. */
  function SectionTab(s: Section): (t: Tab)
    ensures t != BackgroundTab
    ensures (t == DocumentationTab) <==> (s == Documentation)
  {
    match s
    case Documentation => DocumentationTab
    case PersonalHygiene => HygieneTab
    case MaterialSourcing => SourcingTab
    case WaterSources => WaterTab
    case WasteDisposal => WasteTab
    case Cleaning => CleaningTab
  }

  /** No two sections share a tab. */
  lemma SectionTabsDistinct(s: Section, u: Section)
    ensures SectionTab(s) == SectionTab(u) <==> s == u
  {
  }

  /** A simulated completion text message. */
  datatype TextMessage = TextMessage(to: string, facilityName: string, score: int, stars: int, verdict: string)

  /** The message sent on completion: to the facility's phone number, with the
      facility name, the score, the stars and the verdict word. */
  function CompletionMessage(info: BackgroundInfo, score: int, stars: int): (m: TextMessage)
    ensures m.verdict == "Compliant" <==> score >= 70
  {
    TextMessage(info.phoneNumber, info.facilityName, score, stars, C.NotificationVerdict(score))
  }

  /** The arithmetic of the "Complete Assessment" step: the six section
      scores by the page's formulas, their sum, and the stars by the 90/80/70/60
      thresholds tested highest first. */
  method ScoreAnswers(a: Answers) returns (totalScore: nat, stars: int)
    ensures totalScore == TotalScore(a) && stars == C.StarRating(totalScore)
    ensures a.WellFormed() ==> totalScore <= 100
  {
    TotalScoreByFormula(a);
    var docScore := CheckedCount(a.documentation) * 5;
    var hygieneScore := ExcellentCount(a.personalHygiene) * 4;
    var sourcingScore := ExcellentCount(a.materialSourcing) * 5;
    var waterScore := ExcellentCount(a.waterSources) * 5;
    var wasteScore := ExcellentCount(a.wasteDisposal) * 5;
    var cleaningScore := ExcellentCount(a.cleaning) * 5;
    totalScore := docScore + hygieneScore + sourcingScore + waterScore + wasteScore + cleaningScore;

    stars := 1;
    if totalScore >= 90 {
      stars := 5;
    } else if totalScore >= 80 {
      stars := 4;
    } else if totalScore >= 70 {
      stars := 3;
    } else if totalScore >= 60 {
      stars := 2;
    }
  }

  class ComplianceSystem {
    var backgroundInfo: BackgroundInfo
    var documentation: seq<bool>
    var personalHygiene: seq<Rating>
    var materialSourcing: seq<Rating>
    var waterSources: seq<Rating>
    var wasteDisposal: seq<Rating>
    var cleaning: seq<Rating>
    var signatures: Signatures
    var showSignatures: bool
    var currentTab: Tab
    var assessmentComplete: bool
    var finalScore: int
    var starRating: int
    /** Messages handed to the simulated text-message sender, oldest first. */
    var sentMessages: seq<TextMessage>

    /** The six answer records as one value. */
    function CurrentAnswers(): Answers
      reads this`documentation, this`personalHygiene, this`materialSourcing,
            this`waterSources, this`wasteDisposal, this`cleaning
    {
      Answers(documentation, personalHygiene, materialSourcing, waterSources, wasteDisposal, cleaning)
    }

    /** The stored score is in range; score and stars are 0 until the first
        completion and consistent with each other after it. */
    ghost predicate ScoreInRange()
      reads this`finalScore, this`starRating
    {
      && 0 <= finalScore <= 100
      && ((finalScore == 0 && starRating == 0) || starRating == C.StarRating(finalScore))
    }

    /** What a completed assessment shows agrees with the current state: the
        stored score is the total of the answers, the stars are its rating,
        both parties have signed and the signature dialog is closed. */
    ghost predicate ResultsCurrent()
      reads this`documentation, this`personalHygiene, this`materialSourcing,
            this`waterSources, this`wasteDisposal, this`cleaning,
            this`finalScore, this`starRating, this`signatures, this`showSignatures
    {
      && finalScore == TotalScore(CurrentAnswers())
      && starRating == C.StarRating(finalScore)
      && BothSigned(signatures)
      && !showSignatures
    }

    ghost predicate Valid()
      reads this`documentation, this`personalHygiene, this`materialSourcing,
            this`waterSources, this`wasteDisposal, this`cleaning,
            this`finalScore, this`starRating, this`signatures, this`showSignatures, this`assessmentComplete
    {
      && CurrentAnswers().WellFormed()
      && ScoreInRange()
      && (assessmentComplete ==> ResultsCurrent())
    }

    /** The page as it first renders. */
    constructor ()
      ensures Valid()
      ensures backgroundInfo == InitialBackground && CurrentAnswers() == InitialAnswers
      ensures signatures == NoSignatures && !showSignatures && currentTab == FirstTab
      ensures !assessmentComplete && finalScore == 0 && starRating == 0 && sentMessages == []
    {
      backgroundInfo := InitialBackground;
      documentation := [false, false, false, false];
      personalHygiene := InitialAnswers.personalHygiene;
      materialSourcing := InitialAnswers.materialSourcing;
      waterSources := InitialAnswers.waterSources;
      wasteDisposal := InitialAnswers.wasteDisposal;
      cleaning := InitialAnswers.cleaning;
      signatures := NoSignatures;
      showSignatures := false;
      currentTab := FirstTab;
      assessmentComplete := false;
      finalScore := 0;
      starRating := 0;
      sentMessages := [];
    }

    // -------------------------------------------------------------------------
    // Editing the form

    /** A background field editor reports new text for its field. */
    method EditBackground(f: Field, value: string)
      requires Valid() && !assessmentComplete && currentTab == BackgroundTab
      modifies this`backgroundInfo
      ensures Valid() && backgroundInfo == WithField(old(backgroundInfo), f, value)
    {
      backgroundInfo := WithField(backgroundInfo, f, value);
    }

    /** A location picked on the map sets the coordinates and the address. */
    method SelectLocation(coordinates: Coordinates, address: string)
      requires Valid() && !assessmentComplete
      modifies this`backgroundInfo
      ensures Valid() && backgroundInfo == WithLocation(old(backgroundInfo), coordinates, address)
    {
      backgroundInfo := backgroundInfo.(coordinates := coordinates, address := address);
    }

    /** Checking or unchecking the documentation box with key index `i`. */
    method SetDocumentationBox(i: nat, checked: bool)
      requires Valid() && !assessmentComplete && currentTab == SectionTab(Documentation)
      requires i < ItemCount(Documentation)
      modifies this`documentation
      ensures Valid() && CurrentAnswers() == old(CurrentAnswers()).WithBox(i, checked)
    {
      documentation := documentation[i := checked];
    }

    /** Choosing a radio value for the item with key index `i` of section `s`. */
    method SetRating(s: Section, i: nat, value: Rating)
      requires Valid() && !assessmentComplete && currentTab == SectionTab(s)
      requires s != Documentation && i < ItemCount(s) && value != Unanswered
      modifies this`personalHygiene, this`materialSourcing, this`waterSources, this`wasteDisposal, this`cleaning
      ensures Valid() && CurrentAnswers() == old(CurrentAnswers()).WithRating(s, i, value)
    {
      match s
      case PersonalHygiene => personalHygiene := personalHygiene[i := value];
      case MaterialSourcing => materialSourcing := materialSourcing[i := value];
      case WaterSources => waterSources := waterSources[i := value];
      case WasteDisposal => wasteDisposal := wasteDisposal[i := value];
      case Cleaning => cleaning := cleaning[i := value];
    }

    // -------------------------------------------------------------------------
    // Moving between tabs

    /** Clicking a tab header. */
    method SelectTab(t: Tab)
      requires Valid() && !assessmentComplete
      modifies this`currentTab
      ensures Valid() && currentTab == t
    {
      currentTab := t;
    }

    /** The Previous button: one tab back, nothing at the first tab. */
    method Previous()
      requires Valid() && !assessmentComplete
      modifies this`currentTab
      ensures Valid() && currentTab == PreviousTab(old(currentTab))
    {
      IndexOfIsPosition(currentTab);
      var currentIndex := IndexOf(Tabs, currentTab);
      if currentIndex > 0 {
        currentTab := Tabs[currentIndex - 1];
      }
    }

    /** The Next button, shown on every tab but the last: one tab on. */
    method Next()
      requires Valid() && !assessmentComplete && currentTab != LastTab
      modifies this`currentTab
      ensures Valid() && currentTab == NextTab(old(currentTab))
    {
      IndexOfIsPosition(currentTab);
      var currentIndex := IndexOf(Tabs, currentTab);
      if currentIndex < |Tabs| - 1 {
        currentTab := Tabs[currentIndex + 1];
      }
    }

    /** The "Proceed to Signatures" button, shown on the last tab, opens the
        signature dialog. */
    method ProceedToSignatures()
      requires Valid() && !assessmentComplete && currentTab == LastTab
      modifies this`showSignatures
      ensures Valid() && showSignatures
    {
      showSignatures := true;
    }

    /** The forward button: "Proceed to Signatures" on the last tab, "Next" on any other. */
    method Forward()
      requires Valid() && !assessmentComplete
      modifies this`currentTab, this`showSignatures
      ensures Valid()
      ensures old(currentTab) == LastTab ==> showSignatures && currentTab == old(currentTab)
      ensures old(currentTab) != LastTab ==> currentTab == NextTab(old(currentTab)) && showSignatures == old(showSignatures)
    {
      if currentTab == LastTab {
        ProceedToSignatures();
      } else {
        Next();
      }
    }

    // -------------------------------------------------------------------------
    // The signature dialog

    /** The inspector's pad reports a new handle ("" after Clear). */
    method SignAsInspector(signature: string)
      requires Valid() && !assessmentComplete && showSignatures
      modifies this`signatures
      ensures Valid() && signatures == old(signatures).(inspector := signature)
    {
      signatures := signatures.(inspector := signature);
    }

    /** The facility owner's pad reports a new handle ("" after Clear). */
    method SignAsFacilityOwner(signature: string)
      requires Valid() && !assessmentComplete && showSignatures
      modifies this`signatures
      ensures Valid() && signatures == old(signatures).(facilityOwner := signature)
    {
      signatures := signatures.(facilityOwner := signature);
    }

    /** Cancel closes the dialog and keeps everything entered, signatures included. */
    method CancelSignatures()
      requires Valid() && !assessmentComplete && showSignatures
      modifies this`showSignatures
      ensures Valid() && !showSignatures
    {
      showSignatures := false;
    }

    /** Hands the completion message to the simulated sender. */
    method SendSmsNotification(score: int, stars: int)
      modifies this`sentMessages
      ensures sentMessages == old(sentMessages) + [CompletionMessage(backgroundInfo, score, stars)]
    {
      var verdict := if score >= 70 then "Compliant" else "Requires Improvement";
      sentMessages := sentMessages + [TextMessage(backgroundInfo.phoneNumber, backgroundInfo.facilityName, score, stars, verdict)];
    }

    /** Scores the assessment. Without both signatures it only reports that
        they are required (`completed` is false) and changes nothing; otherwise
        it stores the total and its star rating, marks the assessment complete
        and sends the completion message. */
    method CalculateScore() returns (completed: bool)
      requires Valid() && !assessmentComplete && !showSignatures
      modifies this`finalScore, this`starRating, this`assessmentComplete, this`sentMessages
      ensures Valid()
      ensures completed <==> BothSigned(signatures)
      ensures assessmentComplete == completed
      ensures completed ==> finalScore == TotalScore(CurrentAnswers()) && starRating == C.StarRating(finalScore)
      ensures completed ==> sentMessages == old(sentMessages) + [CompletionMessage(backgroundInfo, finalScore, starRating)]
      ensures !completed ==> finalScore == old(finalScore) && starRating == old(starRating) && sentMessages == old(sentMessages)
    {
      if signatures.inspector == "" || signatures.facilityOwner == "" {
        return false;
      }

      var totalScore, stars := ScoreAnswers(CurrentAnswers());
      finalScore := totalScore;
      starRating := stars;
      assessmentComplete := true;
      SendSmsNotification(totalScore, stars);
      completed := true;
    }

    /** The "Complete Assessment" button: closes the dialog, then scores. */
    method CompleteAssessment() returns (completed: bool)
      requires Valid() && !assessmentComplete && showSignatures
      modifies this`showSignatures, this`finalScore, this`starRating, this`assessmentComplete, this`sentMessages
      ensures Valid() && !showSignatures
      ensures completed <==> BothSigned(signatures)
      ensures assessmentComplete == completed
      ensures completed ==> finalScore == TotalScore(CurrentAnswers()) && starRating == C.StarRating(finalScore)
      ensures completed ==> sentMessages == old(sentMessages) + [CompletionMessage(backgroundInfo, finalScore, starRating)]
      ensures !completed ==> finalScore == old(finalScore) && starRating == old(starRating) && sentMessages == old(sentMessages)
    {
      showSignatures := false;
      completed := CalculateScore();
    }

    // -------------------------------------------------------------------------
    // The results view

    /** What the results view shows: its breakdown adds up to the stored score,
        and its stars and badge level both follow from that score. */
    function Results(): (view: ResultsView)
      reads this
      requires Valid() && assessmentComplete
      ensures view.score == TotalScore(CurrentAnswers())
      ensures SumEarned(view.breakdown) == view.score && SumOutOf(view.breakdown) == 100
      ensures view.stars == C.StarRating(view.score) && view.level.Stars() == view.stars
      ensures view.locationShown <==> HasCoordinates(backgroundInfo)
    {
      BreakdownMatchesScoring(CurrentAnswers());
      ResultsOf(backgroundInfo, CurrentAnswers(), signatures, finalScore, starRating)
    }

    /** "New Assessment" reopens the form on the first tab with no signatures.
        It keeps the background information and all six answer records, and
        the stored score and stars stay until the next completion. */
    method NewAssessment()
      requires Valid() && assessmentComplete
      modifies this`assessmentComplete, this`currentTab, this`signatures, this`showSignatures
      ensures Valid()
      ensures !assessmentComplete && currentTab == FirstTab && signatures == NoSignatures && !showSignatures
      ensures backgroundInfo == old(backgroundInfo) && CurrentAnswers() == old(CurrentAnswers())
      ensures finalScore == old(finalScore) && starRating == old(starRating) && sentMessages == old(sentMessages)
    {
      assessmentComplete := false;
      currentTab := FirstTab;
      signatures := NoSignatures;
      showSignatures := false;
    }
  }

  /** From a new page, pressing the forward button on every tab walks to the
      last tab and then opens the signature dialog. */
  method TabWalkthrough()
  {
    var page := new ComplianceSystem();
    var k := 0;
    while k < 6
      invariant 0 <= k <= 6 && page.Valid() && !page.assessmentComplete
      invariant Position(page.currentTab) == k && !page.showSignatures
    {
      NextStepsForward(page.currentTab);
      IndexOfIsPosition(page.currentTab);
      IndexOfIsPosition(NextTab(page.currentTab));
      page.Forward();
      k := k + 1;
    }
    page.Forward();
    assert page.showSignatures && page.currentTab == LastTab;
  }

  /** A completion with the facility owner's signature missing is refused
      and sends nothing. */
  method RefusedCompletionWalkthrough()
  {
    var page := new ComplianceSystem();
    page.SelectTab(LastTab);
    page.ProceedToSignatures();
    page.SignAsInspector("data:image/png;base64,inspector");
    var done := page.CompleteAssessment();
    assert !done && !page.assessmentComplete && page.sentMessages == [];
  }
}
