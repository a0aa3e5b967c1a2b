/**
 * The dashboard: a welcome line, shortcuts to the other views, and the three
 * most recent incidents with a one-line summary each.
 */
module Dashboard {
  import opened Wrappers
  import opened Types
  import opened Strings
  import Sorting

  const AnonymousWelcome := "Welcome to CustodyX.AI."
  const NoSummary := "No summary available."

  /** The first `k` reports of a newest-first list are at least as recent as every report left out. */
  lemma {:induction false} PrefixIsNewest(s: seq<Report>, k: int)
    requires Sorting.Chronological(s, true) && 0 <= k <= |s|
    ensures forall i, x :: 0 <= i < k && x in multiset(s) - multiset(s[..k]) ==>
              x.createdAt.millis <= s[i].createdAt.millis
  {
    assert s == s[..k] + s[k..];
    assert multiset(s) == multiset(s[..k]) + multiset(s[k..]);
    forall i, x | 0 <= i < k && x in multiset(s) - multiset(s[..k])
      ensures x.createdAt.millis <= s[i].createdAt.millis
    {
      assert x in multiset(s[k..]);
      var j :| 0 <= j < |s[k..]| && s[k..][j] == x;
      assert s[k + j] == x;
      assert Sorting.Rank(s[i], true) <= Sorting.Rank(s[k + j], true);
    }
  }

  /** The first `k` of the sorted reports are in order, drawn from the reports, the newest, and the first of their ties. */
  lemma {:induction false} TopOfSorted(reports: seq<Report>, k: int)
    requires 0 <= k <= |reports|
    ensures var top := Sorting.InsertionSorted(reports, true)[..k];
      && Sorting.Chronological(top, true)
      && multiset(top) <= multiset(reports)
      && (forall i, x :: 0 <= i < k && x in multiset(reports) - multiset(top) ==>
            x.createdAt.millis <= top[i].createdAt.millis)
      && (forall key :: Sorting.Tied(top, key, true) <= Sorting.Tied(reports, key, true))
  {
    var sorted := Sorting.InsertionSorted(reports, true);
    var top := sorted[..k];
    Sorting.InsertionSortedOrdered(reports, true);
    Sorting.InsertionSortedPermutes(reports, true);
    PrefixIsNewest(sorted, k);
    assert sorted == top + sorted[k..];
    assert multiset(sorted) == multiset(top) + multiset(sorted[k..]);
    forall key
      ensures Sorting.Tied(top, key, true) <= Sorting.Tied(reports, key, true)
    {
      Sorting.PrefixKeepsTies(sorted, k, key, true);
      Sorting.InsertionSortedStable(reports, key, true);
    }
  }

  /**
   * The recent incidents: a copy of the reports sorted newest first, cut to
   * three. The reports passed in are left as they are. The sort is stable,
   * so among reports created at the same time those listed first in the
   * input are the ones shown.
   */
  method RecentReports(reports: seq<Report>) returns (recent: seq<Report>)
    ensures |recent| == if |reports| < 3 then |reports| else 3
    ensures recent == Sorting.InsertionSorted(reports, true)[..|recent|]
    ensures Sorting.Chronological(recent, true)
    ensures multiset(recent) <= multiset(reports)
    ensures forall i, x :: 0 <= i < |recent| && x in multiset(reports) - multiset(recent) ==>
              x.createdAt.millis <= recent[i].createdAt.millis
    ensures forall key :: Sorting.Tied(recent, key, true) <= Sorting.Tied(reports, key, true)
  {
    var copy := new Report[|reports|](i requires 0 <= i < |reports| => reports[i]);
    assert copy[..] == reports;
    Sorting.SortByCreatedAt(copy, true);
    var k := if copy.Length < 3 then copy.Length else 3;
    recent := copy[..k];
    TopOfSorted(reports, k);
  }

  /** The list of recent incidents, with its "View All Incidents" button, is shown exactly when some report exists; otherwise the empty state. */
  predicate ShowsRecentList(recent: seq<Report>) {
    |recent| > 0
  }

  /** The dashboard shows its list exactly when there are reports at all. */
  lemma RecentListShownIffReports(reports: seq<Report>, recent: seq<Report>)
    requires |recent| == if |reports| < 3 then |reports| else 3
    ensures ShowsRecentList(recent) <==> |reports| > 0
  {
  }

  /** The welcome line: by name when the profile has a non-empty name. */
  function WelcomeMessage(profile: Option<UserProfile>): (m: string)
    ensures profile.Some? && profile.value.name != [] ==> m == "Welcome back, " + profile.value.name + "."
    ensures !(profile.Some? && profile.value.name != []) ==> m == AnonymousWelcome
  {
    if profile.Some? && profile.value.name != [] then "Welcome back, " + profile.value.name + "."
    else AnonymousWelcome
  }

  /** The summary under a recent incident: the content's second line, unless it is missing or empty. */
  function SummaryLine(content: string): (line: string)
    ensures line != []
    ensures line == NoSummary || '\n' !in line
  {
    var lines := Split(content, '\n');
    if |lines| > 1 && lines[1] != [] then lines[1] else NoSummary
  }

  /**
   * Content whose second line is non-empty is summarised by that line,
   * whether the content ends there or goes on after another line break.
   */
  lemma {:induction false} SummaryIsSecondLine(first: string, second: string, tail: string)
    requires '\n' !in first && '\n' !in second && second != []
    requires tail == [] || tail[0] == '\n'
    ensures SummaryLine(first + "\n" + second + tail) == second
  {
    assert first + "\n" + second + tail == first + ['\n'] + (second + tail);
    SplitAfter(first, '\n', second + tail);
    SplitFirstPiece(second, '\n', tail);
  }

  /** Content whose second line is empty, or that ends with its first line break, has no summary. */
  lemma {:induction false} EmptySecondLineHasNoSummary(first: string, tail: string)
    requires '\n' !in first
    requires tail == [] || tail[0] == '\n'
    ensures SummaryLine(first + "\n" + tail) == NoSummary
  {
    assert first + "\n" + tail == first + ['\n'] + ([] + tail);
    SplitAfter(first, '\n', [] + tail);
    SplitFirstPiece([], '\n', tail);
  }

  /** Content on a single line has no summary. */
  lemma {:induction false} SingleLineHasNoSummary(content: string)
    requires '\n' !in content
    ensures SummaryLine(content) == NoSummary
  {
    SplitNone(content, '\n');
  }

  /** The dashboard's buttons. */
  datatype Shortcut = LogIncident | ViewCalendar | ViewAllIncidents

  /** The view each button requests. */
  function Target(b: Shortcut): (v: View)
    ensures v == NewReport <==> b == LogIncident
    ensures v == Calendar <==> b == ViewCalendar
    ensures v == Timeline <==> b == ViewAllIncidents
  {
    match b
    case LogIncident => NewReport
    case ViewCalendar => Calendar
    case ViewAllIncidents => Timeline
  }
}
