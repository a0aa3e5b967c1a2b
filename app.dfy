/**
 * The application controller: the session state held by the top-level
 * component and the handlers that move it from one state to the next.
 *
 * Each handler is specified by a transition function on `SessionState`, a
 * value holding every state field; the `Session` class keeps the fields and
 * its methods update them in place, ending in the state the transition
 * function names.
 */
module App {
  import opened Wrappers
  import opened Types
  import opened Seqs
  import opened Strings
  import Sorting

  /** Every state field of the controller. */
  datatype SessionState = SessionState(
    view: View,
    reports: seq<Report>,
    documents: seq<StoredDocument>,
    isSidebarOpen: bool,
    userProfile: Option<UserProfile>,
    activeReportContext: Option<Report>,
    activeInsightContext: Option<Report>,
    initialLegalQuery: Option<string>,
    activeAnalysisContext: Option<string>,
    selectedReportIds: set<string>,
    isEvidenceBuilderOpen: bool,
    newReportDate: Option<Instant>)

  /** The state on mount, before anything is loaded from storage. */
  const Initial := SessionState(Dashboard, [], [], false, None, None, None, None, None, {}, false, None)

  /** The first report with the given id (`reports.find(r => r.id === id)`). */
  function FindReport(reports: seq<Report>, id: string): (r: Option<Report>)
    ensures r.None? <==> forall i :: 0 <= i < |reports| ==> reports[i].id != id
    ensures r.Some? ==> exists k :: 0 <= k < |reports| && reports[k] == r.value && r.value.id == id &&
                                    forall i :: 0 <= i < k ==> reports[i].id != id
  {
    Find(reports, (x: Report) => x.id == id)
  }

  // ---------------------------------------------------------------------
  // Transitions
  // ---------------------------------------------------------------------

  /** Saving the profile: applied only when the storage write succeeds. */
  function ProfileSaved(s: SessionState, profile: UserProfile, stored: bool): (t: SessionState)
    ensures stored ==> t.userProfile == Some(profile) && t.view == Dashboard
    ensures stored ==> t == s.(userProfile := t.userProfile, view := t.view)
    ensures !stored ==> t == s
  {
    if stored then s.(userProfile := Some(profile), view := Dashboard) else s
  }

  /** A generated report is appended; the pending date is cleared and the timeline shown. */
  function ReportGenerated(s: SessionState, report: Report): (t: SessionState)
    ensures t.reports == s.reports + [report]
    ensures t.newReportDate.None? && t.view == Timeline
    ensures t == s.(reports := t.reports, newReportDate := t.newReportDate, view := t.view)
  {
    s.(reports := s.reports + [report], newReportDate := None, view := Timeline)
  }

  /** A document is appended whether or not persisting the list succeeds. */
  function DocumentAdded(s: SessionState, document: StoredDocument): (t: SessionState)
    ensures t.documents == s.documents + [document]
    ensures t == s.(documents := t.documents)
  {
    s.(documents := s.documents + [document])
  }

  /** The documents whose id differs from `id`, in their original order. */
  function WithoutDocument(documents: seq<StoredDocument>, id: string): (r: seq<StoredDocument>)
    ensures forall d :: d in r <==> d in documents && d.id != id
    ensures IsSubsequence(r, documents)
    ensures forall d: StoredDocument :: d.id != id ==> multiset(r)[d] == multiset(documents)[d]
  {
    Filter(documents, (d: StoredDocument) => d.id != id)
  }

  /** Deleting a document removes exactly the documents with that id, whatever persisting does. */
  function DocumentDeleted(s: SessionState, id: string): (t: SessionState)
    ensures forall d :: d in t.documents <==> d in s.documents && d.id != id
    ensures IsSubsequence(t.documents, s.documents)
    ensures t == s.(documents := t.documents)
  {
    s.(documents := WithoutDocument(s.documents, id))
  }

  /** Navigation: shows `v`, closes the sidebar and drops the pending date unless `v` is the new-report view. */
  function ViewChanged(s: SessionState, v: View): (t: SessionState)
    ensures t.view == v && !t.isSidebarOpen
    ensures t.newReportDate == if v == NewReport then s.newReportDate else None
    ensures t == s.(view := t.view, isSidebarOpen := t.isSidebarOpen, newReportDate := t.newReportDate)
  {
    s.(newReportDate := if v != NewReport then None else s.newReportDate, view := v, isSidebarOpen := false)
  }

  /** Discussing an incident opens the assistant on that report, with no analysis context. */
  function IncidentDiscussed(s: SessionState, id: string): (t: SessionState)
    ensures FindReport(s.reports, id).None? ==> t == s
    ensures FindReport(s.reports, id).Some? ==>
      && t.activeReportContext == FindReport(s.reports, id)
      && t.activeAnalysisContext.None?
      && t.view == Assistant
      && t == s.(activeReportContext := t.activeReportContext, activeAnalysisContext := None, view := Assistant)
  {
    match FindReport(s.reports, id)
    case None => s
    case Some(r) => s.(activeReportContext := Some(r), activeAnalysisContext := None, view := Assistant)
  }

  /** Analysing an incident opens the insights view on that report; the analysis context is kept. */
  function IncidentAnalyzed(s: SessionState, id: string): (t: SessionState)
    ensures FindReport(s.reports, id).None? ==> t == s
    ensures FindReport(s.reports, id).Some? ==>
      && t.activeInsightContext == FindReport(s.reports, id)
      && t.view == Insights
      && t == s.(activeInsightContext := t.activeInsightContext, view := Insights)
  {
    match FindReport(s.reports, id)
    case None => s
    case Some(r) => s.(activeInsightContext := Some(r), view := Insights)
  }

  const DraftQueryPrefix := "Based on the provided behavioral analysis, please draft a \""
  const DraftQuerySuffix := "\"."

  /** The query handed to the legal assistant when a motion is drafted from an analysis. */
  function DraftQuery(motionType: string): (q: string)
    ensures StartsWith(q, DraftQueryPrefix) && EndsWith(q, DraftQuerySuffix)
    ensures |q| == |DraftQueryPrefix| + |motionType| + |DraftQuerySuffix|
  {
    DraftQueryPrefix + motionType + DraftQuerySuffix
  }

  /** The motion type a draft query asks for, if `q` has the shape of one. */
  function MotionOfQuery(q: string): (m: Option<string>)
    ensures m.Some? ==> DraftQuery(m.value) == q
  {
    if |q| >= |DraftQueryPrefix| + |DraftQuerySuffix| && StartsWith(q, DraftQueryPrefix) && EndsWith(q, DraftQuerySuffix)
    then
      var m := q[|DraftQueryPrefix|..|q| - |DraftQuerySuffix|];
      assert q == q[..|DraftQueryPrefix|] + m + q[|q| - |DraftQuerySuffix|..];
      Some(m)
    else None
  }

  /** The motion type is recovered from its draft query. */
  lemma MotionOfDraftQuery(motionType: string)
    ensures MotionOfQuery(DraftQuery(motionType)) == Some(motionType)
  {
    var q := DraftQuery(motionType);
    assert q[|DraftQueryPrefix|..|q| - |DraftQuerySuffix|] == motionType;
  }

  /** Drafting from an insight opens the assistant with the analysis and the query, and drops both report contexts. */
  function DraftRequested(s: SessionState, analysisText: string, motionType: string): (t: SessionState)
    ensures t.activeAnalysisContext == Some(analysisText)
    ensures t.initialLegalQuery == Some(DraftQuery(motionType))
    ensures t.activeReportContext.None? && t.activeInsightContext.None? && t.view == Assistant
    ensures t == s.(activeAnalysisContext := t.activeAnalysisContext, activeReportContext := None,
                    initialLegalQuery := t.initialLegalQuery, view := Assistant, activeInsightContext := None)
  {
    s.(activeAnalysisContext := Some(analysisText), activeReportContext := None,
       initialLegalQuery := Some(DraftQuery(motionType)), view := Assistant, activeInsightContext := None)
  }

  /** Leaving the insights view: back to the timeline, insight context dropped. */
  function BackedToTimeline(s: SessionState): (t: SessionState)
    ensures t.view == Timeline && t.activeInsightContext.None?
    ensures t == s.(view := Timeline, activeInsightContext := None)
  {
    s.(view := Timeline, activeInsightContext := None)
  }

  /** Flipping the selection of one report. */
  function SelectionToggled(s: SessionState, id: string): (t: SessionState)
    ensures id in t.selectedReportIds <==> id !in s.selectedReportIds
    ensures forall x :: x != id ==> (x in t.selectedReportIds <==> x in s.selectedReportIds)
    ensures t == s.(selectedReportIds := t.selectedReportIds)
  {
    s.(selectedReportIds := Toggled(s.selectedReportIds, id))
  }

  /** Toggling the same report twice leaves the state as it was. */
  lemma {:induction false} SelectionToggledTwice(s: SessionState, id: string)
    ensures SelectionToggled(SelectionToggled(s, id), id) == s
  {
    ToggledTwice(s.selectedReportIds, id);
  }

  /** Clicking a calendar day starts a new report for that date. */
  function DayClicked(s: SessionState, date: Instant): (t: SessionState)
    ensures t.newReportDate == Some(date) && t.view == NewReport
    ensures t == s.(newReportDate := t.newReportDate, view := NewReport)
  {
    s.(newReportDate := Some(date), view := NewReport)
  }

  function SelectionCleared(s: SessionState): (t: SessionState)
    ensures t.selectedReportIds == {}
    ensures t == s.(selectedReportIds := {})
  {
    s.(selectedReportIds := {})
  }

  /** Finishing an evidence package closes the builder and empties the selection. */
  function PackageCreated(s: SessionState): (t: SessionState)
    ensures !t.isEvidenceBuilderOpen && t.selectedReportIds == {}
    ensures t == s.(isEvidenceBuilderOpen := false, selectedReportIds := {})
  {
    s.(isEvidenceBuilderOpen := false, selectedReportIds := {})
  }

  // ---------------------------------------------------------------------
  // Derived values
  // ---------------------------------------------------------------------

  /** The floating "Build Evidence Package" buttons are shown. */
  predicate EvidenceAffordanceShown(s: SessionState) {
    |s.selectedReportIds| > 0 && (s.view == Timeline || s.view == Calendar)
  }

  lemma EvidenceAffordanceAfterClear(s: SessionState)
    ensures !EvidenceAffordanceShown(SelectionCleared(s)) && !EvidenceAffordanceShown(PackageCreated(s))
  {
  }

  /** The reports handed to the evidence builder: the selected ones, in collection order. */
  function SelectedReports(s: SessionState): (r: seq<Report>)
    ensures forall x :: x in r <==> x in s.reports && x.id in s.selectedReportIds
    ensures IsSubsequence(r, s.reports)
    ensures forall x: Report :: x.id in s.selectedReportIds ==> multiset(r)[x] == multiset(s.reports)[x]
  {
    Filter(s.reports, (x: Report) => x.id in s.selectedReportIds)
  }

  // ---------------------------------------------------------------------
  // The controller
  // ---------------------------------------------------------------------

  class Session {
    var view: View
    var reports: seq<Report>
    var documents: seq<StoredDocument>
    var isSidebarOpen: bool
    var userProfile: Option<UserProfile>
    var activeReportContext: Option<Report>
    var activeInsightContext: Option<Report>
    var initialLegalQuery: Option<string>
    var activeAnalysisContext: Option<string>
    var selectedReportIds: set<string>
    var isEvidenceBuilderOpen: bool
    var newReportDate: Option<Instant>

    function Snapshot(): SessionState
      reads this
    {
      SessionState(view, reports, documents, isSidebarOpen, userProfile, activeReportContext,
                   activeInsightContext, initialLegalQuery, activeAnalysisContext, selectedReportIds,
                   isEvidenceBuilderOpen, newReportDate)
    }

    constructor ()
      ensures Snapshot() == Initial
    {
      view := Dashboard;
      reports := [];
      documents := [];
      isSidebarOpen := false;
      userProfile := None;
      activeReportContext := None;
      activeInsightContext := None;
      initialLegalQuery := None;
      activeAnalysisContext := None;
      selectedReportIds := {};
      isEvidenceBuilderOpen := false;
      newReportDate := None;
    }

    /** `stored` is whether writing the profile to storage succeeded. */
    method HandleProfileSave(profile: UserProfile, stored: bool)
      modifies this
      ensures Snapshot() == ProfileSaved(old(Snapshot()), profile, stored)
    {
      if stored {
        userProfile := Some(profile);
        view := Dashboard;
      }
    }

    method HandleReportGenerated(report: Report)
      modifies this
      ensures Snapshot() == ReportGenerated(old(Snapshot()), report)
    {
      reports := reports + [report];
      newReportDate := None;
      view := Timeline;
    }

    method HandleAddDocument(document: StoredDocument)
      modifies this
      ensures Snapshot() == DocumentAdded(old(Snapshot()), document)
    {
      documents := documents + [document];
    }

    method HandleDeleteDocument(id: string)
      modifies this
      ensures Snapshot() == DocumentDeleted(old(Snapshot()), id)
    {
      documents := WithoutDocument(documents, id);
    }

    method HandleViewChange(v: View)
      modifies this
      ensures Snapshot() == ViewChanged(old(Snapshot()), v)
    {
      if v != NewReport {
        newReportDate := None;
      }
      view := v;
      isSidebarOpen := false;
    }

    method HandleDiscussIncident(id: string)
      modifies this
      ensures Snapshot() == IncidentDiscussed(old(Snapshot()), id)
    {
      var found := FindReport(reports, id);
      if found.Some? {
        activeReportContext := found;
        activeAnalysisContext := None;
        view := Assistant;
      }
    }

    method HandleAnalyzeIncident(id: string)
      modifies this
      ensures Snapshot() == IncidentAnalyzed(old(Snapshot()), id)
    {
      var found := FindReport(reports, id);
      if found.Some? {
        activeInsightContext := found;
        view := Insights;
      }
    }

    method HandleGenerateDraftFromInsight(analysisText: string, motionType: string)
      modifies this
      ensures Snapshot() == DraftRequested(old(Snapshot()), analysisText, motionType)
    {
      var query := DraftQuery(motionType);
      activeAnalysisContext := Some(analysisText);
      activeReportContext := None;
      initialLegalQuery := Some(query);
      view := Assistant;
      activeInsightContext := None;
    }

    method HandleBackToTimeline()
      modifies this
      ensures Snapshot() == BackedToTimeline(old(Snapshot()))
    {
      view := Timeline;
      activeInsightContext := None;
    }

    method HandleToggleReportSelection(id: string)
      modifies this
      ensures Snapshot() == SelectionToggled(old(Snapshot()), id)
    {
      var next := selectedReportIds;
      if id in next {
        next := next - {id};
      } else {
        next := next + {id};
      }
      selectedReportIds := next;
    }

    method HandleCalendarDayClick(date: Instant)
      modifies this
      ensures Snapshot() == DayClicked(old(Snapshot()), date)
    {
      newReportDate := Some(date);
      view := NewReport;
    }

    method HandleClearSelection()
      modifies this
      ensures Snapshot() == SelectionCleared(old(Snapshot()))
    {
      selectedReportIds := {};
    }

    /** The header's menu button. */
    method ToggleSidebar()
      modifies this
      ensures Snapshot() == old(Snapshot()).(isSidebarOpen := !old(isSidebarOpen))
    {
      isSidebarOpen := !isSidebarOpen;
    }

    /** A click on the overlay behind the open sidebar. */
    method CloseSidebar()
      modifies this
      ensures Snapshot() == old(Snapshot()).(isSidebarOpen := false)
    {
      isSidebarOpen := false;
    }

    method OpenEvidenceBuilder()
      modifies this
      ensures Snapshot() == old(Snapshot()).(isEvidenceBuilderOpen := true)
    {
      isEvidenceBuilderOpen := true;
    }

    method CloseEvidenceBuilder()
      modifies this
      ensures Snapshot() == old(Snapshot()).(isEvidenceBuilderOpen := false)
    {
      isEvidenceBuilderOpen := false;
    }

    method HandlePackageCreated()
      modifies this
      ensures Snapshot() == PackageCreated(old(Snapshot()))
    {
      isEvidenceBuilderOpen := false;
      selectedReportIds := {};
    }

    /** The legal assistant's three "clear" callbacks. */
    method ClearActiveReportContext()
      modifies this
      ensures Snapshot() == old(Snapshot()).(activeReportContext := None)
    {
      activeReportContext := None;
    }

    method ClearInitialQuery()
      modifies this
      ensures Snapshot() == old(Snapshot()).(initialLegalQuery := None)
    {
      initialLegalQuery := None;
    }

    method ClearActiveAnalysisContext()
      modifies this
      ensures Snapshot() == old(Snapshot()).(activeAnalysisContext := None)
    {
      activeAnalysisContext := None;
    }

    /**
     * Rendering the timeline sorts the array it is given in place, and that
     * array is this controller's `reports`: afterwards the collection holds
     * the same reports, newest first, equal-time reports in their old order.
     */
    method RenderTimeline()
      modifies this
      ensures reports == Sorting.InsertionSorted(old(reports), true)
      ensures Sorting.Chronological(reports, true)
      ensures multiset(reports) == multiset(old(reports))
      ensures forall key :: Sorting.Tied(reports, key, true) == Sorting.Tied(old(reports), key, true)
      ensures Snapshot() == old(Snapshot()).(reports := reports)
    {
      var a := new Report[|reports|](i requires 0 <= i < |reports| reads this => reports[i]);
      assert a[..] == reports;
      Sorting.SortByCreatedAt(a, true);
      reports := a[..];
    }
  }
}
