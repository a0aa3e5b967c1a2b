/**
 * The navigation sidebar: six items, each requesting its own view. The two
 * analysis items stay disabled until enough reports exist, and a disabled
 * item neither reacts to clicks nor shows as active.
 */
module Sidebar {
  import opened Wrappers
  import opened Types

  datatype NavItem = NewReportItem | TimelineItem | PatternsItem | InsightsItem | DocumentsItem | AssistantItem

  /** The view an item stands for. */
  function ViewOf(item: NavItem): (v: View)
    ensures v != Dashboard && v != Profile && v != Calendar
  {
    match item
    case NewReportItem => NewReport
    case TimelineItem => Timeline
    case PatternsItem => Patterns
    case InsightsItem => Insights
    case DocumentsItem => Documents
    case AssistantItem => Assistant
  }

  /** Different items stand for different views. */
  lemma ViewOfInjective(a: NavItem, b: NavItem)
    ensures ViewOf(a) == ViewOf(b) ==> a == b
  {
  }

  /** Pattern analysis needs two reports and behavioural insights one; the other items are always enabled. */
  function Disabled(item: NavItem, reportCount: int): (d: bool)
    ensures item == PatternsItem ==> (d <==> reportCount < 2)
    ensures item == InsightsItem ==> (d <==> reportCount < 1)
    ensures item != PatternsItem && item != InsightsItem ==> !d
  {
    match item
    case PatternsItem => reportCount < 2
    case InsightsItem => reportCount < 1
    case _ => false
  }

  /** More reports never disable an item, and from two reports on every item is enabled. */
  lemma EnablingIsMonotone(item: NavItem, fewer: int, more: int)
    requires fewer <= more
    ensures Disabled(item, more) ==> Disabled(item, fewer)
    ensures more >= 2 ==> !Disabled(item, more)
  {
  }

  datatype Style = DisabledStyle | ActiveStyle | InactiveStyle

  /** An item's look: the disabled style wins over the active one. */
  function StyleOf(item: NavItem, activeView: View, reportCount: int): (s: Style)
    ensures s == DisabledStyle <==> Disabled(item, reportCount)
    ensures s == ActiveStyle <==> !Disabled(item, reportCount) && activeView == ViewOf(item)
  {
    if Disabled(item, reportCount) then DisabledStyle
    else if activeView == ViewOf(item) then ActiveStyle
    else InactiveStyle
  }

  /** At most one item looks active, the one for the active view. */
  lemma OneActiveItem(a: NavItem, b: NavItem, activeView: View, reportCount: int)
    requires StyleOf(a, activeView, reportCount) == ActiveStyle
    requires StyleOf(b, activeView, reportCount) == ActiveStyle
    ensures a == b
  {
    ViewOfInjective(a, b);
  }

  /** A click requests the item's own view; a disabled button ignores it. */
  function Click(item: NavItem, reportCount: int): (request: Option<View>)
    ensures request.Some? <==> !Disabled(item, reportCount)
    ensures request.Some? ==> request.value == ViewOf(item)
  {
    if Disabled(item, reportCount) then None else Some(ViewOf(item))
  }
}
