/** The form's tab order and the Previous/Next steps between tabs. A step
    looks the current tab up with `indexOf` in the fixed tab list and moves to
    the neighbouring entry, as the page does. */
module Navigation {

  /** The form's tabs. The page stores the current tab as its string value. */
  datatype Tab = BackgroundTab | DocumentationTab | HygieneTab | SourcingTab | WaterTab | WasteTab | CleaningTab
  {
    /** The string the page stores. */
    function Value(): string {
      match this
      case BackgroundTab => "background"
      case DocumentationTab => "documentation"
      case HygieneTab => "hygiene"
      case SourcingTab => "sourcing"
      case WaterTab => "water"
      case WasteTab => "waste"
      case CleaningTab => "cleaning"
    }
  }

  /** The tabs in the order the Previous and Next buttons walk them. */
  const Tabs: seq<Tab> := [BackgroundTab, DocumentationTab, HygieneTab, SourcingTab, WaterTab, WasteTab, CleaningTab]

  const FirstTab: Tab := BackgroundTab
  const LastTab: Tab := CleaningTab

  /** Position of the first occurrence of `t`, or -1 when it does not occur. */
  function IndexOf(tabs: seq<Tab>, t: Tab): (i: int)
    ensures -1 <= i < |tabs|
    ensures i == -1 <==> t !in tabs
    ensures 0 <= i ==> tabs[i] == t && t !in tabs[..i]
  {
    if tabs == [] then -1
    else if tabs[0] == t then 0
    else
      var j := IndexOf(tabs[1..], t);
      assert tabs == [tabs[0]] + tabs[1..];
      assert 0 <= j ==> tabs[..j + 1] == [tabs[0]] + tabs[1..][..j];
      if j == -1 then -1 else j + 1
  }

  /** The tab the Previous button leads to: one back in form order, except
      at the first tab. */
  function PreviousTab(t: Tab): (p: Tab)
    ensures Position(p) == if Position(t) > 0 then Position(t) - 1 else 0
  {
    IndexOfIsPosition(t);
    var i := IndexOf(Tabs, t);
    if i > 0 then Tabs[i - 1] else t
  }

  /** The tab the Next button leads to: one on in form order, except at the
      last tab. */
  function NextTab(t: Tab): (n: Tab)
    ensures Position(n) == if Position(t) < 6 then Position(t) + 1 else 6
  {
    IndexOfIsPosition(t);
    var i := IndexOf(Tabs, t);
    if i < |Tabs| - 1 then Tabs[i + 1] else t
  }

  /** The tab reached after pressing Next `k` times. */
  function NextSteps(t: Tab, k: nat): Tab
    decreases k
  {
    if k == 0 then t else NextSteps(NextTab(t), k - 1)
  }

  /** Where a tab sits in the form, counted from 0. */
  function Position(t: Tab): nat {
    match t
    case BackgroundTab => 0
    case DocumentationTab => 1
    case HygieneTab => 2
    case SourcingTab => 3
    case WaterTab => 4
    case WasteTab => 5
    case CleaningTab => 6
  }

  /** The lookup returns the first place the tab occurs. */
  lemma IndexOfFirstOccurrence(tabs: seq<Tab>, t: Tab, k: int)
    requires 0 <= k < |tabs| && tabs[k] == t && t !in tabs[..k]
    ensures IndexOf(tabs, t) == k
  {
  }

  /** The list lookup finds every tab, at its position; since positions are
      distinct, each tab occurs once and the lookup is one-to-one. */
  lemma IndexOfIsPosition(t: Tab)
    ensures t in Tabs && IndexOf(Tabs, t) == Position(t)
  {
    match t
    case BackgroundTab =>
      IndexOfFirstOccurrence(Tabs, t, 0);
    case DocumentationTab =>
      assert Tabs[..1] == [BackgroundTab];
      IndexOfFirstOccurrence(Tabs, t, 1);
    case HygieneTab =>
      assert Tabs[..2] == [BackgroundTab, DocumentationTab];
      IndexOfFirstOccurrence(Tabs, t, 2);
    case SourcingTab =>
      assert Tabs[..3] == [BackgroundTab, DocumentationTab, HygieneTab];
      IndexOfFirstOccurrence(Tabs, t, 3);
    case WaterTab =>
      assert Tabs[..4] == [BackgroundTab, DocumentationTab, HygieneTab, SourcingTab];
      IndexOfFirstOccurrence(Tabs, t, 4);
    case WasteTab =>
      assert Tabs[..5] == [BackgroundTab, DocumentationTab, HygieneTab, SourcingTab, WaterTab];
      IndexOfFirstOccurrence(Tabs, t, 5);
    case CleaningTab =>
      assert Tabs[..6] == [BackgroundTab, DocumentationTab, HygieneTab, SourcingTab, WaterTab, WasteTab];
      IndexOfFirstOccurrence(Tabs, t, 6);
  }

  /** Distinct tabs store distinct strings. */
  lemma TabValuesDistinct(t: Tab, u: Tab)
    ensures t.Value() == u.Value() <==> t == u
  {
  }

  /** Previous steps one tab back and stays put only on the first tab. */
  lemma PreviousStepsBack(t: Tab)
    ensures IndexOf(Tabs, PreviousTab(t)) == if IndexOf(Tabs, t) > 0 then IndexOf(Tabs, t) - 1 else 0
    ensures t == FirstTab <==> PreviousTab(t) == t
  {
    IndexOfIsPosition(t);
    IndexOfIsPosition(PreviousTab(t));
  }

  /** Next steps one tab forward and stays put only on the last tab. */
  lemma NextStepsForward(t: Tab)
    ensures IndexOf(Tabs, NextTab(t)) == if IndexOf(Tabs, t) < |Tabs| - 1 then IndexOf(Tabs, t) + 1 else |Tabs| - 1
    ensures t == LastTab <==> NextTab(t) == t
  {
    IndexOfIsPosition(t);
    IndexOfIsPosition(NextTab(t));
  }

  /** Previous undoes Next everywhere but on the last tab. */
  lemma NextThenPrevious(t: Tab)
    requires t != LastTab
    ensures PreviousTab(NextTab(t)) == t
  {
    NextStepsForward(t);
    PreviousStepsBack(NextTab(t));
    IndexOfIsPosition(PreviousTab(NextTab(t)));
    IndexOfIsPosition(t);
  }

  /** Next undoes Previous everywhere but on the first tab. */
  lemma PreviousThenNext(t: Tab)
    requires t != FirstTab
    ensures NextTab(PreviousTab(t)) == t
  {
    PreviousStepsBack(t);
    NextStepsForward(PreviousTab(t));
    IndexOfIsPosition(NextTab(PreviousTab(t)));
    IndexOfIsPosition(t);
  }

  /** From any tab, pressing Next as often as there are tabs after it reaches
      the last tab, where the forward button turns into "Proceed to Signatures". */
  lemma {:induction false} NextWalkReachesLastTab(t: Tab)
    ensures NextSteps(t, 6 - Position(t)) == LastTab
    decreases 6 - Position(t)
  {
    if Position(t) < 6 {
      NextStepsForward(t);
      IndexOfIsPosition(t);
      IndexOfIsPosition(NextTab(t));
      NextWalkReachesLastTab(NextTab(t));
    }
  }
}
