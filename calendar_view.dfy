/**
 * The calendar view: the entries listed for one day (the day's reports, then
 * the day's calendar events), the viewed month and its grid, the per-cell
 * summary, and the day dialog with its event form.
 *
 * `CalendarEvent` and `EventType` are declared by a later version of the
 * types file than the one this view ships with; they carry here the fields
 * the view reads. Dates are compared by the local calendar day they fall on.
 */
module DayEntries {
  import opened Wrappers
  import opened Types
  import opened Seqs
  import opened Strings
  import opened CalendarDates

  /** The four event types the form offers. */
  datatype EventType = Custom | Appointment | Deadline | OtherEvent

  datatype CalendarEvent = CalendarEvent(
    id: string,
    title: string,
    description: string,
    eventDate: Instant,
    eventType: EventType,
    color: string)

  /**
   * An event as the view hands it to its creator: without `id` and
   * `createdAt`. Its date is the `YYYY-MM-DD` text of
   * `toISOString().split('T')[0]`, written here as the day it names: the
   * UTC day of the selected instant, not its local day.
   */
  datatype NewEvent = NewEvent(title: string, description: string, eventDate: Day, eventType: EventType, color: string)

  /** `'report' | 'event'`. */
  datatype EntryKind = ReportKind | EventKind

  /** One entry of a day's list. */
  datatype DayEvent = DayEvent(
    id: string,
    title: string,
    description: string,
    kind: EntryKind,
    color: string,
    reportId: Option<string>,
    eventData: Option<CalendarEvent>)

  /** `isSameDay`: the same year, month and day of the month. */
  predicate IsSameDay(d1: Day, d2: Day) {
    d1.year == d2.year && d1.month == d2.month && d1.day == d2.day
  }

  /** Two days are the same day exactly when they are equal. */
  lemma SameDayIsEquality(d1: Day, d2: Day)
    ensures IsSameDay(d1, d2) <==> d1 == d2
  {
  }

  /** `s.substring(0, n)` for `n >= 0`. */
  function Prefix(s: string, n: nat): (r: string)
    ensures |r| == if |s| < n then |s| else n
    ensures r <= s
  {
    if |s| < n then s else s[..n]
  }

  /** How a report appears in a day's list: its category as title, the start of its content, in teal, linked to it. */
  function ReportEntry(r: Report): (e: DayEvent)
    ensures e.id == r.id && e.title == r.category
    ensures e.description == Prefix(r.content, 100) + "..." && |e.description| <= 103
    ensures e.kind == ReportKind && e.color == "teal"
    ensures e.reportId == Some(r.id) && e.eventData.None?
  {
    DayEvent(r.id, r.category, Prefix(r.content, 100) + "...", ReportKind, "teal", Some(r.id), None)
  }

  /** How a calendar event appears in a day's list: its own fields and colour, carrying the event. */
  function EventEntry(ev: CalendarEvent): (e: DayEvent)
    ensures e.id == ev.id && e.title == ev.title && e.description == ev.description
    ensures e.kind == EventKind && e.color == ev.color
    ensures e.reportId.None? && e.eventData == Some(ev)
  {
    DayEvent(ev.id, ev.title, ev.description, EventKind, ev.color, None, Some(ev))
  }

  function ReportOnDay(date: Day): Report -> bool {
    (r: Report) => IsSameDay(date, r.createdAt.local)
  }

  function EventOnDay(date: Day): CalendarEvent -> bool {
    (ev: CalendarEvent) => IsSameDay(date, ev.eventDate.local)
  }

  /** A day's list: the day's reports in input order, then the day's events in input order. */
  function EntriesForDate(reports: seq<Report>, events: seq<CalendarEvent>, date: Day): seq<DayEvent> {
    Map(ReportEntry, Filter(reports, ReportOnDay(date))) + Map(EventEntry, Filter(events, EventOnDay(date)))
  }

  /** `getEventsForDate`: the matching reports' entries, then the matching events' entries. */
  method GetEventsForDate(reports: seq<Report>, events: seq<CalendarEvent>, date: Day) returns (dayEvents: seq<DayEvent>)
    ensures dayEvents == EntriesForDate(reports, events, date)
  {
    var fromReports := ReportEntriesOn(reports, date);
    var fromEvents := EventEntriesOn(events, date);
    dayEvents := fromReports + fromEvents;
  }

  /** The first `forEach` of `getEventsForDate`: an entry for each report of the day. */
  method ReportEntriesOn(reports: seq<Report>, date: Day) returns (dayEvents: seq<DayEvent>)
    ensures dayEvents == Map(ReportEntry, Filter(reports, ReportOnDay(date)))
  {
    dayEvents := [];
    var i := 0;
    while i < |reports|
      invariant 0 <= i <= |reports|
      invariant dayEvents == Map(ReportEntry, Filter(reports[..i], ReportOnDay(date)))
    {
      FilterMapStep(reports, i, ReportOnDay(date), ReportEntry);
      if IsSameDay(date, reports[i].createdAt.local) {
        dayEvents := dayEvents + [ReportEntry(reports[i])];
      }
      i := i + 1;
    }
    assert reports[..i] == reports;
  }

  /** The second `forEach` of `getEventsForDate`: an entry for each event of the day. */
  method EventEntriesOn(events: seq<CalendarEvent>, date: Day) returns (dayEvents: seq<DayEvent>)
    ensures dayEvents == Map(EventEntry, Filter(events, EventOnDay(date)))
  {
    dayEvents := [];
    var j := 0;
    while j < |events|
      invariant 0 <= j <= |events|
      invariant dayEvents == Map(EventEntry, Filter(events[..j], EventOnDay(date)))
    {
      FilterMapStep(events, j, EventOnDay(date), EventEntry);
      if IsSameDay(date, events[j].eventDate.local) {
        dayEvents := dayEvents + [EventEntry(events[j])];
      }
      j := j + 1;
    }
    assert events[..j] == events;
  }
}

/** What a day's list holds: where each entry sits and which entries it has. */
module DayListing {
  import opened Types
  import opened Seqs
  import opened DayEntries

  /** The reports' entries come first, in the order of the day's reports. */
  lemma ReportEntryAt(reports: seq<Report>, events: seq<CalendarEvent>, date: Day, i: int)
    requires 0 <= i < |Filter(reports, ReportOnDay(date))|
    ensures EntriesForDate(reports, events, date)[i] == ReportEntry(Filter(reports, ReportOnDay(date))[i])
  {
    MapConcatAt(ReportEntry, Filter(reports, ReportOnDay(date)), EventEntry, Filter(events, EventOnDay(date)), i);
  }

  /** Nothing but the day's reports and events is listed. */
  lemma EntriesLength(reports: seq<Report>, events: seq<CalendarEvent>, date: Day)
    ensures |EntriesForDate(reports, events, date)| ==
            |Filter(reports, ReportOnDay(date))| + |Filter(events, EventOnDay(date))|
  {
  }

  /** The events' entries follow, in the order of the day's events. */
  lemma EventEntryAt(reports: seq<Report>, events: seq<CalendarEvent>, date: Day, i: int)
    requires 0 <= i < |Filter(events, EventOnDay(date))|
    ensures EntriesForDate(reports, events, date)[|Filter(reports, ReportOnDay(date))| + i] ==
            EventEntry(Filter(events, EventOnDay(date))[i])
  {
    var dayReports := Filter(reports, ReportOnDay(date));
    MapConcatAt(ReportEntry, dayReports, EventEntry, Filter(events, EventOnDay(date)), |dayReports| + i);
  }

  /**
   * A day's list holds exactly the entries of the reports and of the events
   * that fall on that day.
   */
  lemma EntriesOfDay(reports: seq<Report>, events: seq<CalendarEvent>, date: Day, e: DayEvent)
    ensures e in EntriesForDate(reports, events, date) <==>
            (exists r :: r in reports && r.createdAt.local == date && e == ReportEntry(r)) ||
            (exists ev :: ev in events && ev.eventDate.local == date && e == EventEntry(ev))
  {
    if e in EntriesForDate(reports, events, date) {
      EntryFromDay(reports, events, date, e);
    }
    if exists r :: r in reports && r.createdAt.local == date && e == ReportEntry(r) {
      var r :| r in reports && r.createdAt.local == date && e == ReportEntry(r);
      ReportListed(reports, events, date, r);
    }
    if exists ev :: ev in events && ev.eventDate.local == date && e == EventEntry(ev) {
      var ev :| ev in events && ev.eventDate.local == date && e == EventEntry(ev);
      EventListed(reports, events, date, ev);
    }
  }

  lemma {:induction false} EntryFromDay(reports: seq<Report>, events: seq<CalendarEvent>, date: Day, e: DayEvent)
    requires e in EntriesForDate(reports, events, date)
    ensures (exists r :: r in reports && r.createdAt.local == date && e == ReportEntry(r)) ||
            (exists ev :: ev in events && ev.eventDate.local == date && e == EventEntry(ev))
  {
    var dayReports := Filter(reports, ReportOnDay(date));
    var dayEvents := Filter(events, EventOnDay(date));
    var list := EntriesForDate(reports, events, date);
    var i :| 0 <= i < |list| && list[i] == e;
    EntriesLength(reports, events, date);
    if i < |dayReports| {
      ReportEntryAt(reports, events, date, i);
      assert dayReports[i] in dayReports;
    } else {
      var k := i - |dayReports|;
      EventEntryAt(reports, events, date, k);
      assert dayEvents[k] in dayEvents;
    }
  }

  lemma {:induction false} ReportListed(reports: seq<Report>, events: seq<CalendarEvent>, date: Day, r: Report)
    requires r in reports && r.createdAt.local == date
    ensures ReportEntry(r) in EntriesForDate(reports, events, date)
  {
    var dayReports := Filter(reports, ReportOnDay(date));
    assert ReportOnDay(date)(r);
    var k :| 0 <= k < |dayReports| && dayReports[k] == r;
    ReportEntryAt(reports, events, date, k);
    assert EntriesForDate(reports, events, date)[k] == ReportEntry(r);
  }

  lemma {:induction false} EventListed(reports: seq<Report>, events: seq<CalendarEvent>, date: Day, ev: CalendarEvent)
    requires ev in events && ev.eventDate.local == date
    ensures EventEntry(ev) in EntriesForDate(reports, events, date)
  {
    var dayReports := Filter(reports, ReportOnDay(date));
    var dayEvents := Filter(events, EventOnDay(date));
    assert EventOnDay(date)(ev);
    var k :| 0 <= k < |dayEvents| && dayEvents[k] == ev;
    EntriesLength(reports, events, date);
    EventEntryAt(reports, events, date, k);
    assert EntriesForDate(reports, events, date)[|dayReports| + k] == EventEntry(ev);
  }
}

/**
 * The month grid, the per-cell summary, and the state of the view with its day dialog and event form.
 */
module CalendarView {
  import opened Wrappers
  import opened Types
  import opened Seqs
  import opened Strings
  import opened CalendarDates
  import opened DayEntries

  // ---------------------------------------------------------------------
  // The month grid
  // ---------------------------------------------------------------------

  datatype Cell = Placeholder | DateCell(day: int)

  /** The cells of the viewed month: one placeholder per weekday before the first, then the days in order. */
  function MonthGrid(view: Day): (cells: seq<Cell>)
    requires Normal(view)
    ensures var start := Weekday(view.(day := 1));
            && |cells| == start + DaysInMonth(view.year, view.month)
            && (forall i :: 0 <= i < start ==> cells[i] == Placeholder)
            && (forall i :: start <= i < |cells| ==> cells[i] == DateCell(i - start + 1))
  {
    var start := Weekday(view.(day := 1));
    seq(start, _ => Placeholder) + seq(DaysInMonth(view.year, view.month), i => DateCell(i + 1))
  }

  /** In a seven-column grid each date sits in the column of its weekday. */
  lemma {:induction false} GridColumnIsWeekday(view: Day, i: int)
    requires Normal(view) && 0 <= i < |MonthGrid(view)| && MonthGrid(view)[i].DateCell?
    ensures i % 7 == Weekday(view.(day := MonthGrid(view)[i].day))
  {
    var start := Weekday(view.(day := 1));
    var d := MonthGrid(view)[i].day;
    assert d == i - start + 1;
    DayOfMonthWeekday(view.year, view.month, d);
  }

  /** What a cell shows: at most two titles, and how many entries are left over. */
  datatype CellSummary = CellSummary(titles: seq<string>, more: Option<nat>)

  /** A cell lists the first two titles and "+n more" for the rest. */
  function SummarizeCell(dayEvents: seq<DayEvent>): (s: CellSummary)
    ensures |s.titles| == if |dayEvents| < 2 then |dayEvents| else 2
    ensures forall i :: 0 <= i < |s.titles| ==> s.titles[i] == dayEvents[i].title
    ensures s.more.Some? <==> |dayEvents| > 2
    ensures |s.titles| + s.more.GetOr(0) == |dayEvents|
  {
    var shown := if |dayEvents| < 2 then dayEvents else dayEvents[..2];
    CellSummary(Map((e: DayEvent) => e.title, shown), if |dayEvents| > 2 then Some(|dayEvents| - 2) else None)
  }

  /** The overflow line of a cell. */
  function MoreLabel(n: nat): string {
    "+" + NatToString(n) + " more"
  }

  // ---------------------------------------------------------------------
  // The view's state
  // ---------------------------------------------------------------------

  /** The fields of the new-event form. */
  datatype EventForm = EventForm(title: string, description: string, eventType: EventType, color: string)

  /** The form as it opens and as it is reset after a submission. */
  const EmptyForm := EventForm("", "", Custom, "blue")

  /**
   * The entry shown for a just-submitted event until the list is next
   * recomputed: the form's title, description and colour under the id "temp".
   */
  function TemporaryEntry(form: EventForm): (e: DayEvent)
    ensures e.id == "temp" && e.kind == EventKind && e.reportId.None? && e.eventData.None?
    ensures e.title == form.title && e.description == form.description && e.color == form.color
  {
    DayEvent("temp", form.title, form.description, EventKind, form.color, None, None)
  }

  class Calendar {
    var viewDate: Day
    var selectedDate: Option<Instant>
    var showEventModal: bool
    var selectedDayEvents: seq<DayEvent>
    var newEventTitle: string
    var newEventDescription: string
    var newEventType: EventType
    var newEventColor: string

    function Form(): EventForm
      reads this
    {
      EventForm(newEventTitle, newEventDescription, newEventType, newEventColor)
    }

    /** The view opens on the current date with an empty form and the dialog closed. */
    constructor (today: Day)
      ensures viewDate == today && selectedDate.None? && !showEventModal && selectedDayEvents == []
      ensures Form() == EmptyForm
    {
      viewDate := today;
      selectedDate := None;
      showEventModal := false;
      selectedDayEvents := [];
      newEventTitle := "";
      newEventDescription := "";
      newEventType := Custom;
      newEventColor := "blue";
    }

    /** The month arrows: the first of the month `offset` months away; nothing else changes. */
    method ChangeMonth(offset: int)
      modifies this
      ensures viewDate == CalendarDates.ChangeMonth(old(viewDate), offset)
      ensures selectedDate == old(selectedDate) && showEventModal == old(showEventModal)
      ensures selectedDayEvents == old(selectedDayEvents) && Form() == old(Form())
    {
      viewDate := CalendarDates.ChangeMonth(viewDate, offset);
    }

    /** Opening a day: the dialog shows that day's list. */
    method HandleDateClick(date: Instant, reports: seq<Report>, events: seq<CalendarEvent>)
      modifies this
      ensures selectedDate == Some(date) && showEventModal
      ensures selectedDayEvents == EntriesForDate(reports, events, date.local)
      ensures viewDate == old(viewDate) && Form() == old(Form())
    {
      selectedDate := Some(date);
      var dayEvents := GetEventsForDate(reports, events, date.local);
      selectedDayEvents := dayEvents;
      showEventModal := true;
    }

    /**
     * Submitting the form: nothing happens without a selected date or with a
     * blank title. Otherwise one event is handed over, dated by the UTC day
     * of the selected date (the clicked day only where that is also the
     * local day), the form is reset, and the day list is recomputed from the
     * current events (which do not yet hold the new one) with a temporary
     * entry for it appended.
     */
    method HandleCreateEvent(reports: seq<Report>, events: seq<CalendarEvent>) returns (created: Option<NewEvent>)
      modifies this
      ensures old(selectedDate.None? || TrimsToEmpty(newEventTitle)) ==>
        created.None? && selectedDayEvents == old(selectedDayEvents) && Form() == old(Form())
      ensures old(selectedDate.Some? && !TrimsToEmpty(newEventTitle)) ==>
        && created == Some(old(NewEvent(newEventTitle, newEventDescription, selectedDate.value.utc, newEventType, newEventColor)))
        && Form() == EmptyForm
        && selectedDayEvents ==
           EntriesForDate(reports, events, old(selectedDate.value.local)) +
           [TemporaryEntry(old(Form()))]
      ensures viewDate == old(viewDate) && selectedDate == old(selectedDate) && showEventModal == old(showEventModal)
    {
      if selectedDate.None? || TrimsToEmpty(newEventTitle) {
        created := None;
      } else {
        created := Submit(selectedDate.value, reports, events);
      }
    }

    /** The submission proper, once the guard has passed. */
    method Submit(date: Instant, reports: seq<Report>, events: seq<CalendarEvent>) returns (created: Option<NewEvent>)
      modifies this
      ensures created == Some(old(NewEvent(newEventTitle, newEventDescription, date.utc, newEventType, newEventColor)))
      ensures created.value.eventDate == date.local <==> date.utc == date.local
      ensures Form() == EmptyForm
      ensures selectedDayEvents ==
              EntriesForDate(reports, events, date.local) +
              [TemporaryEntry(old(Form()))]
      ensures viewDate == old(viewDate) && selectedDate == old(selectedDate) && showEventModal == old(showEventModal)
    {
      var form := Form();
      created := Some(NewEvent(form.title, form.description, date.utc, form.eventType, form.color));
      ResetForm();
      var updated := GetEventsForDate(reports, events, date.local);
      selectedDayEvents := updated + [TemporaryEntry(form)];
    }

    /** The four setters that clear the form after a submission. */
    method ResetForm()
      modifies this
      ensures Form() == EmptyForm
      ensures viewDate == old(viewDate) && selectedDate == old(selectedDate) && showEventModal == old(showEventModal)
      ensures selectedDayEvents == old(selectedDayEvents)
    {
      newEventTitle, newEventDescription := EmptyForm.title, EmptyForm.description;
      newEventType, newEventColor := EmptyForm.eventType, EmptyForm.color;
    }

    /**
     * Deleting an entry hands its id to the parent and drops every entry with
     * that id from the day list, keeping the rest in order and multiplicity.
     */
    method HandleDeleteEvent(id: string) returns (deleted: string)
      modifies this
      ensures deleted == id
      ensures forall e :: e in selectedDayEvents <==> e in old(selectedDayEvents) && e.id != id
      ensures forall e: DayEvent :: e.id != id ==> multiset(selectedDayEvents)[e] == multiset(old(selectedDayEvents))[e]
      ensures IsSubsequence(selectedDayEvents, old(selectedDayEvents))
      ensures viewDate == old(viewDate) && selectedDate == old(selectedDate) && showEventModal == old(showEventModal)
      ensures Form() == old(Form())
    {
      deleted := id;
      selectedDayEvents := Filter(selectedDayEvents, (e: DayEvent) => e.id != id);
    }

    /**
     * The Analyze and Discuss buttons of a report entry with a (truthy, so
     * non-empty) report id: each hands that id over and closes the dialog.
     * Other entries have no buttons.
     */
    method FollowReportEntry(e: DayEvent) returns (requested: Option<string>)
      modifies this
      ensures e.kind == ReportKind && e.reportId.Some? && e.reportId.value != [] ==> requested == e.reportId && !showEventModal
      ensures !(e.kind == ReportKind && e.reportId.Some? && e.reportId.value != []) ==> requested.None? && showEventModal == old(showEventModal)
      ensures viewDate == old(viewDate) && selectedDate == old(selectedDate) && selectedDayEvents == old(selectedDayEvents)
      ensures Form() == old(Form())
    {
      requested := None;
      if e.kind == ReportKind && e.reportId.Some? && e.reportId.value != [] {
        requested := e.reportId;
        showEventModal := false;
      }
    }

    method CloseModal()
      modifies this
      ensures !showEventModal
      ensures viewDate == old(viewDate) && selectedDate == old(selectedDate) && selectedDayEvents == old(selectedDayEvents)
      ensures Form() == old(Form())
    {
      showEventModal := false;
    }
  }
}
