# CustodyX.AI — a Dafny model of the application core

CustodyX.AI (the DivorceAI repository) is a React application for parents who
are separating. It helps them document co-parenting incidents. The user
describes an incident in a chat with an AI assistant, and the assistant turns
the conversation into a structured incident report. Reports can then be read on
a timeline and a calendar, analysed for behavioural patterns, discussed with a
legal assistant, and compiled with library documents into an evidence package.

This project models the deterministic logic underneath that interface:

- the session controller of the top-level component (`App`): its view, its
  report and document collections, the contexts it hands from one view to the
  next, the report selection and the evidence-builder flag, and every handler
  that moves it from one state to the next;
- the code around the AI gateway (`GeminiService`):
  - the user-context block in system prompts;
  - turning chat messages into request contents;
  - first-occurrence placeholder substitution;
  - code-fence stripping and field validation of the report generator's reply;
  - first-`{`-to-last-`}` extraction of the legal assistant's JSON and its
    fallbacks;
  - the supporting-report filter;
- the bookkeeping of the views:
  - `CalendarView`, `DayEntries`, `DayListing` and `CalendarDates`: the
    calendar's day lists, month stepping, month grid and event form;
  - `ChatInterface`: the incident chat;
  - `EvidencePackageBuilder`: the evidence package dialog;
  - `Dashboard`, `IncidentTimeline`, `Sidebar` and `Messaging`;
- the Stripe catalogue and its lookups (`StripeConfig`) and the subscription
  hook (`UseSubscription`);
- the record types (`Types`) and the prompt constants (`Constants`,
  `PromptText`).

The modules follow the source's form:

- **Components and the controller that update state in place** are classes
  with `modifies` clauses:
  - `App.Session`, `ChatInterface.ChatSession`, `CalendarView.Calendar`,
    `EvidencePackageBuilder.Builder`, `Messaging.MessageComposer` and
    `UseSubscription.SubscriptionHook`.
  - Where a handler touches many fields, its method is specified by a pure
    transition function on a state value (`App.SessionState`,
    `ChatInterface.ChatState`). The properties are proved about that function.
- **The in-place `Array.prototype.sort` calls** are an insertion sort on an
  `array` (`Sorting`). It is proved equal to a stable sort function, which
  is proved sorted, a permutation, and stable: reports created at the same
  time keep their input order, as `Array.prototype.sort` requires.
- **Loops in the source** become methods with loop invariants:
  - the `forEach` loops of `getEventsForDate`;
  - the `map`/`push` of `formatMessagesToContent`;
  - the incremental building of the profile context.
- **Pure helpers** are functions with lemmas.

The model has no I/O of its own:

- The AI model, `JSON.parse`, the clock, `localStorage`, the file reader and
  the browser locale are all parameters.
- A call to the model is given by its outcome: reply text or a thrown message.
- Parsing is a function that returns `None` where `JSON.parse` throws.
- A storage write is given as a flag saying whether it succeeded.
- The current time is a number.
- A date as the locale prints it is a string.

Three facts about the code that the model keeps as written:

- The draft query reads `Based on the provided behavioral analysis, please
  draft a "<motion>".`
- No subscription tier gates any view in the controller.
- Discussing an incident clears the analysis context, but analysing one
  keeps it.
- The controller renders `CalendarView` (App.tsx:198-204) without the
  `events`, `onCreateEvent` and `onDeleteEvent` props the view declares. As
  wired, `events.forEach` in `getEventsForDate` (CalendarView.tsx:79, run
  for every cell at :191) throws on the first render, and creating or
  deleting an event would call an undefined callback. The model describes
  the view as it declares itself: `events` is a parameter, and the created
  event and the deleted id are results handed to the caller.
- `EvidencePackageBuilder.tsx:3` imports `generateEvidencePackage`, which
  `services/geminiService.ts` does not export; the call at :50 therefore
  has no implementation in the repository. The model takes the call's
  outcome as a parameter, so a throwing call, which as wired is the only
  outcome, gives the fixed error text.
- A created event is dated by `toISOString().split('T')[0]`
  (CalendarView.tsx:105), the UTC day of the selected local midnight, while
  `isSameDay` compares local fields. Outside UTC the event is therefore
  dated by a day other than the one clicked (the day before, east of UTC).

## Model

| member | source | states |
|---|---|---|
| Types.IncidentCategory.Name | types.ts:1-10 | every category stands for a non-empty string value |
| Types.IncidentCategory.Ordinal | types.ts:1-10 | categories are numbered 0..7 in declaration order |
| Types.CategoryNamed | types.ts:1-10 | a category found for a string has exactly that string as its value |
| Types.CategoryNameRoundTrip | types.ts:1-10 | every category is found again from its own string, so the eight values are distinct |
| Types.CategoryNamesPlain | types.ts:1-10 | no category's string value holds a `$` |
| Types.RoleName | types.ts:36-40 | the role's string is empty exactly for the unset role |
| Types.OtherParent | components/Messaging.tsx:16 | the other parent is never unset, and is `Father` exactly when the user is the mother |
| Types.OtherParentInvolution | services/geminiService.ts:15 | for a set role, the other parent has the opposite role, and applying it twice gives the role back |
| Constants.ReportGenerationPrompt | constants.ts:31 | the report prompt starts with the base prompt and ends with the legal-context heading and text, with nothing in between |
| Constants.IncidentCategoriesComplete | constants.ts:37-46 | the category list has eight entries, each category exactly once, in declaration order |
| Constants.PlaceholdersWellFormed | constants.ts:5 | both placeholders open with their only `{` |
| Constants.PlaceholderOccursOnce | constants.ts:4-12 | a placeholder framed by text without `{` occurs exactly once, right after the head |
| Constants.TemplatesHoldPlaceholderOnce | constants.ts:4-34 | each of the three shipped templates holds its placeholder exactly once, at the end of its head text |
| Constants.FillTemplate | services/geminiService.ts:45 | a first-occurrence `replace` on a template puts the value, its `$` patterns expanded, exactly where the placeholder was; a value without `$` goes in unchanged |
| Strings.TrimStart | components/Messaging.tsx:23 | trimming the start drops an all-blank prefix and leaves a suffix of the input that starts with a visible character |
| Strings.TrimEnd | components/Messaging.tsx:23 | trimming the end drops an all-blank suffix and leaves a prefix of the input that ends with a visible character |
| Strings.Trim | components/Messaging.tsx:28 | `trim()` gives a string no longer than its input that neither starts nor ends with white space |
| Strings.TrimUnframed | services/geminiService.ts:78 | text that neither starts nor ends with white space is left as it is by `trim()` |
| Strings.TrimEmptyIffBlank | components/Messaging.tsx:23 | `trim()` leaves nothing exactly when every character is white space |
| Strings.TrimsToEmpty | components/ChatInterface.tsx:46 | the guard `!s.trim()` holds exactly for all-blank input |
| Strings.IndexOf | services/geminiService.ts:203 | `indexOf(c)` is -1 exactly when `c` is absent, and otherwise the position of the first `c` |
| Strings.LastIndexOf | services/geminiService.ts:204 | `lastIndexOf(c)` is -1 exactly when `c` is absent, and otherwise the position of the last `c` |
| Strings.IndexOfPattern | services/geminiService.ts:158 | `indexOf(pattern)` is the first position where the pattern occurs, or -1 when it occurs nowhere |
| Strings.OccursBetween | services/geminiService.ts:152-158 | a text built around a pattern includes that pattern |
| Strings.Substitution | services/geminiService.ts:45 | a replacement without `$` stands for itself |
| Strings.SubstitutionPatterns | services/geminiService.ts:45 | `$$`, `$&`, `` $` `` and `$'` stand for a dollar sign, the match, the text before and the text after; `$1` stays literal for a string pattern |
| Strings.ReplaceFirstAt | services/geminiService.ts:45 | `replace` with a string pattern replaces only the first occurrence, by the expanded replacement, and keeps everything after it |
| Strings.ReplaceFirstAbsent | services/geminiService.ts:100 | a string without the pattern is left unchanged by `replace` |
| Strings.Join | services/geminiService.ts:18 | joining nothing gives the empty string, and joining one piece gives that piece |
| Strings.Split | components/Dashboard.tsx:68 | `split(c)` gives at least one piece, and no piece contains `c` |
| Strings.JoinSplit | components/IncidentTimeline.tsx:21 | joining the pieces of `split(c)` with `c` gives back the original string |
| Strings.SplitAfter | components/Dashboard.tsx:68 | splitting at a separator after separator-free text yields that text as the first piece |
| Strings.SplitNone | components/Dashboard.tsx:68 | separator-free text splits into itself alone |
| Strings.NatToString | components/ChatInterface.tsx:107 | `String(n)` is a non-empty string of decimal digits |
| Strings.NatToStringValue | components/ChatInterface.tsx:107 | the digits of `String(n)` spell `n` |
| Strings.NatToStringInjective | components/Messaging.tsx:26 | different clock values give different digit strings, so the ids built from them differ |
| Seqs.Filter | App.tsx:76 | `filter` keeps exactly the elements that pass the test, with their multiplicities and in their original order |
| Seqs.FilterAppend | components/CalendarView.tsx:66-77 | filtering distributes over concatenation |
| Seqs.Map | services/geminiService.ts:24 | `map` keeps the length and applies the function at every position |
| Seqs.Find | App.tsx:94 | `find` gives nothing exactly when no element passes, and otherwise the first element that passes |
| Seqs.Toggled | App.tsx:124-134 | toggling flips the membership of one element and of no other |
| Seqs.ToggledTwice | App.tsx:124-134 | toggling the same element twice restores the set |
| Sorting.NewestFirstMeaning | components/IncidentTimeline.tsx:90 | a newest-first list never has an entry created after an earlier entry |
| Sorting.TiedAppend | components/IncidentTimeline.tsx:90 | the equal-rank reports of a concatenation are those of its parts, in order |
| Sorting.PrefixKeepsTies | components/Dashboard.tsx:17 | the equal-rank reports of a prefix are a prefix of those of the whole |
| Sorting.Insert | components/IncidentTimeline.tsx:90 | inserting one report lengthens the list by one |
| Sorting.InsertionSorted | components/IncidentTimeline.tsx:90 | the sort keeps the length |
| Sorting.InsertPermutes | components/IncidentTimeline.tsx:90 | inserting adds exactly the one report |
| Sorting.InsertOrdered | components/IncidentTimeline.tsx:90 | inserting into an ordered list keeps it ordered |
| Sorting.InsertStable | components/IncidentTimeline.tsx:90 | inserting passes no report of equal rank, so each rank's reports keep their order |
| Sorting.InsertionSortedOrdered | components/IncidentTimeline.tsx:90 | the sorted reports are ordered by `createdAt` |
| Sorting.InsertionSortedPermutes | components/IncidentTimeline.tsx:90 | the sorted reports are the input's, each as often |
| Sorting.InsertionSortedStable | components/IncidentTimeline.tsx:90 | the sort is stable: reports created at the same time keep their input order |
| Sorting.SwapKeepsInsert | components/IncidentTimeline.tsx:90 | one swap of the insertion loop keeps the prefix on its way to the inserted list |
| Sorting.StopKeepsInsert | components/IncidentTimeline.tsx:90 | where the insertion loop stops, the prefix is the inserted list |
| Sorting.InsertLeft | components/IncidentTimeline.tsx:90 | one insertion step turns the prefix into the old prefix with the next report inserted, and leaves the rest of the array alone |
| Sorting.SortByCreatedAt | components/EvidencePackageBuilder.tsx:107 | the in-place sort leaves the array as the stable sort of its old contents: ordered, holding the same reports, equal-time reports in their old order |
| App.FindReport | App.tsx:94 | `reports.find` gives nothing exactly when no report has the id, and otherwise the first report with it |
| App.ProfileSaved | App.tsx:49-57 | the profile is set and the dashboard shown only when the storage write succeeds; otherwise nothing changes |
| App.ReportGenerated | App.tsx:59-63 | the report is appended at the end, the pending date cleared and the timeline shown; nothing else changes |
| App.DocumentAdded | App.tsx:65-73 | the document is appended whether or not persisting succeeds; nothing else changes |
| App.WithoutDocument | App.tsx:76 | the documents kept are exactly those with another id, in their original order and multiplicity |
| App.DocumentDeleted | App.tsx:75-83 | deleting removes exactly the documents with that id and keeps the rest in order; nothing else changes |
| App.ViewChanged | App.tsx:85-91 | navigation shows the view and closes the sidebar, clears the pending date unless the view is `new_report`, and changes nothing else |
| App.IncidentDiscussed | App.tsx:93-100 | an unknown id changes nothing; otherwise the report becomes the context, the analysis context is cleared and the assistant is shown, and nothing else changes |
| App.IncidentAnalyzed | App.tsx:102-108 | an unknown id changes nothing; otherwise only the insight context and the view (`insights`) change |
| App.DraftQuery | App.tsx:111 | the draft query is the fixed opening, the motion type, then the closing quote and full stop |
| App.MotionOfQuery | App.tsx:111 | a motion type read back from a query rebuilds exactly that query |
| App.MotionOfDraftQuery | App.tsx:111 | the motion type is recovered from its own draft query |
| App.DraftRequested | App.tsx:110-117 | drafting sets the analysis context and the query, clears both report contexts, shows the assistant, and changes nothing else |
| App.BackedToTimeline | App.tsx:119-122 | going back shows the timeline and clears only the insight context |
| App.SelectionToggled | App.tsx:124-134 | the toggle flips the membership of that id only |
| App.SelectionToggledTwice | App.tsx:124-134 | toggling the same id twice restores the whole state |
| App.DayClicked | App.tsx:136-139 | clicking a calendar day sets the pending date and opens the new-report view |
| App.SelectionCleared | App.tsx:141-143 | clearing empties the selection and changes nothing else |
| App.PackageCreated | App.tsx:267-270 | finishing a package closes the builder and empties the selection |
| App.EvidenceAffordanceAfterClear | App.tsx:244 | after clearing the selection or finishing a package, the evidence-package buttons are not shown |
| App.SelectedReports | App.tsx:264 | the builder receives exactly the selected reports, in collection order |
| App.Session.constructor | App.tsx:20-31 | the session starts on the dashboard with everything empty or closed |
| App.Session.HandleProfileSave | App.tsx:49-57 | the new state is `ProfileSaved` of the old one |
| App.Session.HandleReportGenerated | App.tsx:59-63 | the new state is `ReportGenerated` of the old one |
| App.Session.HandleAddDocument | App.tsx:65-73 | the new state is `DocumentAdded` of the old one |
| App.Session.HandleDeleteDocument | App.tsx:75-83 | the new state is `DocumentDeleted` of the old one |
| App.Session.HandleViewChange | App.tsx:85-91 | the new state is `ViewChanged` of the old one |
| App.Session.HandleDiscussIncident | App.tsx:93-100 | the new state is `IncidentDiscussed` of the old one |
| App.Session.HandleAnalyzeIncident | App.tsx:102-108 | the new state is `IncidentAnalyzed` of the old one |
| App.Session.HandleGenerateDraftFromInsight | App.tsx:110-117 | the new state is `DraftRequested` of the old one |
| App.Session.HandleBackToTimeline | App.tsx:119-122 | the new state is `BackedToTimeline` of the old one |
| App.Session.HandleToggleReportSelection | App.tsx:124-134 | the new state is `SelectionToggled` of the old one |
| App.Session.HandleCalendarDayClick | App.tsx:136-139 | the new state is `DayClicked` of the old one |
| App.Session.HandleClearSelection | App.tsx:141-143 | the new state is `SelectionCleared` of the old one |
| App.Session.ToggleSidebar | App.tsx:221 | the menu button flips the sidebar flag and nothing else |
| App.Session.CloseSidebar | App.tsx:228 | a click on the overlay closes the sidebar and changes nothing else |
| App.Session.OpenEvidenceBuilder | App.tsx:253 | the Build Evidence Package button opens the builder and changes nothing else |
| App.Session.CloseEvidenceBuilder | App.tsx:263 | closing the builder changes nothing else |
| App.Session.HandlePackageCreated | App.tsx:267-270 | the new state is `PackageCreated` of the old one |
| App.Session.ClearActiveReportContext | App.tsx:185 | the assistant's callback clears only the report context |
| App.Session.ClearInitialQuery | App.tsx:187 | the assistant's callback clears only the initial query |
| App.Session.ClearActiveAnalysisContext | App.tsx:189 | the assistant's callback clears only the analysis context |
| App.Session.RenderTimeline | App.tsx:207-212 | rendering the timeline leaves the controller's own reports as their stable sort newest first: ordered, the same reports, equal-time reports in their old order; nothing else changes |
| GeminiService.RoleClause | services/geminiService.ts:14-16 | the role sentence is present exactly for a set role; it names that role and then the opposite role for the other parent |
| GeminiService.ChildrenClause | services/geminiService.ts:17-19 | the children sentence is present exactly for a non-empty list, and lists the names joined by ", " |
| GeminiService.ProfileSentence | services/geminiService.ts:13-19 | the user sentence starts with the name sentence, followed by the role clause and then the children clause |
| GeminiService.ProfileContext | services/geminiService.ts:10-21 | the context block is empty exactly without a profile or a name; otherwise it is the header and name, then the clauses, then a line break |
| GeminiService.ProfileContextRole | services/geminiService.ts:14-15 | the role clause appears exactly for a set role; a mother's names the other parent `Father`, and a father's names the other parent `Mother` |
| GeminiService.FormatUserProfileContext | services/geminiService.ts:10-21 | building the block step by step gives `ProfileContext` |
| GeminiService.FormatMessagesToContent | services/geminiService.ts:23-41 | one content entry per message, in order: same role, the text part first, then one inline part per image, in order |
| GeminiService.CarriesDetermines | services/geminiService.ts:23-41 | a content entry determines the role, text and images of the message it carries |
| GeminiService.ChatSystemInstruction | services/geminiService.ts:45 | the chat instruction is the template with the user context, its `$` patterns expanded, exactly where the placeholder was; a context without `$` goes in unchanged |
| GeminiService.ReportSystemInstruction | services/geminiService.ts:65 | the report instruction is the template with the expanded user context in place of the placeholder; the legal-context text is kept unchanged |
| GeminiService.ThemePrompt | services/geminiService.ts:100 | the theme prompt is the template with the expanded category where the placeholder was; a declared category name goes in unchanged |
| GeminiService.StripOpeningFence | services/geminiService.ts:79 | a leading "```json", with an optional line break, is removed and nothing else; text without it is unchanged |
| GeminiService.StripClosingFence | services/geminiService.ts:79 | a trailing "```", with an optional line break before it, is removed and nothing else; text without it is unchanged |
| GeminiService.OpeningFenceStripped | services/geminiService.ts:79 | an opening fence with its line break is removed and the rest kept exactly |
| GeminiService.ClosingFenceStripped | services/geminiService.ts:79 | a closing fence with the line break before it is removed and the rest kept exactly |
| GeminiService.FencedReply | services/geminiService.ts:78-79 | a body wrapped in a ```json fence comes back exactly |
| GeminiService.UnfencedReply | services/geminiService.ts:78-79 | a reply without fences is only trimmed |
| GeminiService.ReportFromReply | services/geminiService.ts:78-95 | a report is returned exactly when the call succeeded, the cleaned text is non-empty, it parses, and `content`, `category` and `tags` are all truthy; the report carries the parsed fields |
| GeminiService.ExtractJsonObject | services/geminiService.ts:203-210 | extraction fails exactly when there is no `{`, no `}`, or the last `}` comes before the first `{`; otherwise the span runs from the first `{` to the last `}` inclusive |
| GeminiService.ExtractFramedObject | services/geminiService.ts:251-258 | an object framed by text with no `{` before it and no `}` after it is extracted exactly |
| GeminiService.Apology | services/geminiService.ts:223-226 | the fallback is a `chat` response holding the given message, with no document title or text |
| GeminiService.LegalAssistantReply | services/geminiService.ts:202-227 | a parsed object with truthy `type` and `content` is returned as it is, and anything else becomes the fixed apology; there is never an exception |
| GeminiService.InitialLegalAnalysisReply | services/geminiService.ts:250-274 | only a `chat` object with truthy `content` is accepted, and anything else becomes the fixed apology; the result is always a chat message |
| GeminiService.FramedReplyAccepted | services/geminiService.ts:202-215 | a reply whose object is framed by brace-free prose and parses with truthy type and content reaches the user as that object |
| GeminiService.InitialAnalysisAcceptsLess | services/geminiService.ts:262 | every reply the initial analysis accepts, the general assistant accepts unchanged |
| GeminiService.SingleIncidentAnalysis | services/geminiService.ts:147-162 | the analysis fails exactly when the call throws or the text is empty; a success is the non-empty reply text; every error message is non-empty and is either the empty-response error or prefixed "Failed to generate behavioral insights: " |
| GeminiService.EmptyResponseErrorKept | services/geminiService.ts:150-158 | the empty-response error reaches the caller unchanged, whether the reply was empty or the call threw it |
| GeminiService.SupportingReports | services/geminiService.ts:127-128 | the supporting reports are exactly the reports with another id than the main one, in their original order and multiplicity |
| DayEntries.SameDayIsEquality | components/CalendarView.tsx:56-61 | `isSameDay` holds exactly when year, month and day of the month are all equal |
| DayEntries.Prefix | components/CalendarView.tsx:71 | `substring(0, n)` is the first `n` characters, or the whole string when it is shorter |
| DayEntries.ReportEntry | components/CalendarView.tsx:68-75 | a report's entry has the report's id, its category as title, the first 100 characters plus "..." as description, kind report, colour teal, and a link to the report |
| DayEntries.EventEntry | components/CalendarView.tsx:81-88 | an event's entry carries the event's own id, title, description and colour, with kind event and the event itself |
| DayEntries.GetEventsForDate | components/CalendarView.tsx:63-93 | the two loops produce the day's report entries and then the day's event entries |
| DayEntries.ReportEntriesOn | components/CalendarView.tsx:66-77 | the first loop yields one entry per report of that day, in input order |
| DayEntries.EventEntriesOn | components/CalendarView.tsx:79-90 | the second loop yields one entry per event of that day, in input order |
| DayListing.ReportEntryAt | components/CalendarView.tsx:66-77 | the list starts with the entries of the day's reports, in their order |
| DayListing.EntriesLength | components/CalendarView.tsx:63-93 | the list has one entry per report of the day plus one per event of the day |
| DayListing.EventEntryAt | components/CalendarView.tsx:79-90 | the entries of the day's events follow, in their order |
| DayListing.EntriesOfDay | components/CalendarView.tsx:63-93 | an entry is listed exactly when it is the entry of a report or of an event that falls on that day |
| DayListing.EntryFromDay | components/CalendarView.tsx:63-93 | every listed entry comes from a report or an event of that day |
| DayListing.ReportListed | components/CalendarView.tsx:66-77 | every report of the day is listed |
| DayListing.EventListed | components/CalendarView.tsx:79-90 | every event of the day is listed |
| CalendarDates.MonthIndexDetermines | components/CalendarView.tsx:53 | two normalised days with the same month count and day are the same day |
| CalendarDates.ChangeMonth | components/CalendarView.tsx:52-54 | month stepping gives the first of a normalised month exactly `offset` months away, carrying into the year |
| CalendarDates.ChangeMonthBack | components/CalendarView.tsx:52-54 | stepping back by the same offset returns to the first of the original month |
| CalendarDates.ChangeMonthTwice | components/CalendarView.tsx:52-54 | two steps equal one step by their sum |
| CalendarDates.DaysInMonth | components/CalendarView.tsx:45-46 | a month has 28 to 31 days, and February has 29 exactly in leap years |
| CalendarDates.MonthsAccumulate | components/CalendarView.tsx:45-46 | each month starts where the previous one ends, and the twelve months fill the year |
| CalendarDates.FloorStep | components/CalendarView.tsx:47 | the count of multiples of 4, 100 or 400 up to a year rises by one exactly at a multiple |
| CalendarDates.Multiples | components/CalendarView.tsx:47 | multiples of 400 are multiples of 100, which are multiples of 4 |
| CalendarDates.NextYear | components/CalendarView.tsx:47 | consecutive new years are one year length apart |
| CalendarDates.Weekday | components/CalendarView.tsx:47 | `getDay()` is between 0 and 6 |
| CalendarDates.EpochWeekday | components/CalendarView.tsx:47 | 1 January 1970 is a Thursday (4), as `getDay()` reports it |
| CalendarDates.ModSeven | components/CalendarView.tsx:47 | adding whole weeks does not change the weekday |
| CalendarDates.NextMonthStart | components/CalendarView.tsx:44-47 | the next month starts as many days later as this month has |
| CalendarDates.NextMonthWeekday | components/CalendarView.tsx:44-47 | the next month starts as many weekdays later as this month has days |
| CalendarDates.DayOfMonthWeekday | components/CalendarView.tsx:189 | later days of a month fall on the weekdays that follow the first's |
| CalendarView.MonthGrid | components/CalendarView.tsx:44-50 | the grid is `startDayOfWeek` placeholders followed by the days 1 to the month's length, in order |
| CalendarView.GridColumnIsWeekday | components/CalendarView.tsx:184-189 | in the seven-column grid every date sits in the column of its weekday |
| CalendarView.SummarizeCell | components/CalendarView.tsx:217-233 | a cell shows the first two titles at most, and a "+n more" count exactly when there are more than two, accounting for every entry |
| CalendarView.TemporaryEntry | components/CalendarView.tsx:120-126 | the stand-in for a new event has id "temp", kind event, and the form's title, description and colour |
| CalendarView.Calendar.constructor | components/CalendarView.tsx:32-39 | the view opens on today with the dialog closed, nothing selected and an empty form |
| CalendarView.Calendar.ChangeMonth | components/CalendarView.tsx:52-54 | the arrows move the viewed date by `ChangeMonth` and change nothing else |
| CalendarView.Calendar.HandleDateClick | components/CalendarView.tsx:95-100 | opening a day selects it, opens the dialog and lists that day's entries |
| CalendarView.Calendar.HandleCreateEvent | components/CalendarView.tsx:102-127 | with no selected date or a blank title nothing happens; otherwise one event is handed over with the form's fields, dated by the UTC day of the selected instant, the form is reset, and the day list is recomputed with the temporary entry appended |
| CalendarView.Calendar.Submit | components/CalendarView.tsx:105-126 | once the guard has passed, the form's event is handed over dated by the UTC day of the selected instant, which is the clicked local day exactly when the two days agree; the form is reset and the day list recomputed with the temporary entry |
| CalendarView.Calendar.ResetForm | components/CalendarView.tsx:114-117 | the form returns to an empty title and description, type custom and colour blue |
| CalendarView.Calendar.HandleDeleteEvent | components/CalendarView.tsx:129-132 | the id is handed to the parent, and exactly the entries with that id are removed from the day list; the rest keep their order and multiplicity |
| CalendarView.Calendar.FollowReportEntry | components/CalendarView.tsx:303-318 | a report entry with a non-empty report id hands it over and closes the dialog; other entries offer nothing |
| CalendarView.Calendar.CloseModal | components/CalendarView.tsx:245 | closing the dialog changes nothing else |
| ChatInterface.DataUrl | components/ChatInterface.tsx:103 | an image's URL starts with "data:" and ends with its data |
| ChatInterface.Base64Payload | components/ChatInterface.tsx:16 | the payload read from a data URL contains no comma |
| ChatInterface.PayloadOfDataUrl | components/ChatInterface.tsx:16 | reading the payload back from an image's data URL gives the image data |
| ChatInterface.ChatImageUrls | components/ChatInterface.tsx:101-103 | an empty conversation has no images |
| ChatInterface.ChatImageUrlsAppend | components/ChatInterface.tsx:101-103 | the images of a conversation are those of its first part followed by those of the rest, in order |
| ChatInterface.ChatImageUrlsOfOne | components/ChatInterface.tsx:101-103 | one message contributes exactly its own images, as data URLs, in order |
| ChatInterface.IsFirstUserMessage | components/ChatInterface.tsx:48 | the next message is the first of the user's exactly when no message so far is the user's |
| ChatInterface.DatePrefix | components/ChatInterface.tsx:51 | the date line opens with "(Incident Date: " and ends with ")" and a blank line |
| ChatInterface.Outgoing | components/ChatInterface.tsx:48-52 | only the first user message, and only with a date selected, is prefixed with the date; otherwise the input is sent as typed |
| ChatInterface.LaterMessagesUnprefixed | components/ChatInterface.tsx:48-52 | once the user has spoken, later messages are never prefixed |
| ChatInterface.ReplyMessage | components/ChatInterface.tsx:66-71 | the answer is a model message holding the reply, or the fixed apology when the call throws |
| ChatInterface.ReportOfferedAfterFirstExchange | components/ChatInterface.tsx:157 | the greeting alone does not offer a report, and the first exchange does |
| ChatInterface.AssembleReport | components/ChatInterface.tsx:101-111 | the report has an id prefixed `rep_`, the generator's content, category and tags, a legal context defaulting to "", and every chat image in order |
| ChatInterface.AssembledReportKeepsData | components/ChatInterface.tsx:101-111 | reading the generator's data back from the report gives that data, with a missing legal context as "" |
| ChatInterface.InitialChat | components/ChatInterface.tsx:22-30 | a new chat holds exactly the greeting, dated today, and offers no report |
| ChatInterface.UserMessage | components/ChatInterface.tsx:55-59 | the user's message carries the outgoing text and one image per uploaded file, in order |
| ChatInterface.FirstSendDated | components/ChatInterface.tsx:44-75 | after the first send of a dated chat there are three messages, the report is offered, and the user's message carries the date |
| ChatInterface.SecondSendUndated | components/ChatInterface.tsx:48-52 | a second send of the same chat goes out as typed |
| ChatInterface.ReportRequested | components/ChatInterface.tsx:96-122 | with data, the assembled report is handed over and the conversation is unchanged; without, nothing is handed over and the apology is appended; the generating flag ends false |
| ChatInterface.ChatSession.constructor | components/ChatInterface.tsx:22-30 | the chat starts in `InitialChat` |
| ChatInterface.ChatSession.SelectDate | components/ChatInterface.tsx:77-80 | picking a date selects it and closes the calendar, and changes nothing else |
| ChatInterface.ChatSession.AddFiles | components/ChatInterface.tsx:82-94 | newly read files are appended to the pending uploads, and nothing else changes |
| ChatInterface.ChatSession.SendMessage | components/ChatInterface.tsx:44-75 | a blank send without uploads changes nothing and calls nothing; otherwise the call receives the conversation plus the user's message, and the final state is the user's message and the answer appended, input and uploads cleared, loading over |
| ChatInterface.ChatSession.GenerateReport | components/ChatInterface.tsx:96-122 | the new state and the handed-over report are `ReportRequested` of the old state |
| EvidencePackageBuilder.SelectedDocuments | components/EvidencePackageBuilder.tsx:48 | the generator receives exactly the library documents whose ids are selected, in library order |
| EvidencePackageBuilder.Builder.constructor | components/EvidencePackageBuilder.tsx:17-20 | the builder starts with no selection, no package, not loading, not copied |
| EvidencePackageBuilder.Builder.Open | components/EvidencePackageBuilder.tsx:22-30 | opening resets the selection, the package and both flags |
| EvidencePackageBuilder.Builder.ToggleDocumentSelection | components/EvidencePackageBuilder.tsx:34-44 | a checkbox flips its own document's membership and no other |
| EvidencePackageBuilder.Builder.GeneratePackage | components/EvidencePackageBuilder.tsx:46-58 | the selected documents are sent; the package becomes the reply, or the fixed error text on failure; loading ends false |
| EvidencePackageBuilder.Builder.CopyToClipboard | components/EvidencePackageBuilder.tsx:60-66 | copying marks the package copied exactly when there is a package |
| EvidencePackageBuilder.Builder.BodyShown | components/EvidencePackageBuilder.tsx:84-101 | nothing is shown when closed; otherwise the loading notice while loading, then the package, then the selection lists |
| EvidencePackageBuilder.Builder.FooterShown | components/EvidencePackageBuilder.tsx:145-164 | with a package the footer offers its actions; otherwise Generate is disabled exactly while loading or with no selected report |
| EvidencePackageBuilder.GenerateOfferedAfterOpen | components/EvidencePackageBuilder.tsx:164 | a freshly opened builder shows the selection, and Generate is enabled exactly when a report is selected |
| EvidencePackageBuilder.ListSelectedIncidents | components/EvidencePackageBuilder.tsx:107 | the selected incidents become their stable sort oldest first, in place in the parent's array: ordered, the same reports, equal-time reports in their old order |
| Dashboard.PrefixIsNewest | components/Dashboard.tsx:16-17 | the first k reports of a newest-first list are at least as recent as every report left out |
| Dashboard.TopOfSorted | components/Dashboard.tsx:16-17 | the first reports of the stable newest-first sort are ordered, drawn from the input, no older than any left out, and the first of their ties in input order |
| Dashboard.RecentReports | components/Dashboard.tsx:16-17 | the first three (or fewer) of the stable newest-first sort: ordered, from the input, none left out newer than one shown, and among equal-time reports the earliest listed in the input; the input is not reordered |
| Dashboard.RecentListShownIffReports | components/Dashboard.tsx:60 | the list with its "View All Incidents" button shows exactly when there is a report; otherwise the empty state |
| Dashboard.WelcomeMessage | components/Dashboard.tsx:19 | the welcome is by name for a non-empty name, and the generic welcome otherwise |
| Dashboard.SummaryLine | components/Dashboard.tsx:68 | the summary is a line-break-free string or the fixed "No summary available."; SummaryIsSecondLine, EmptySecondLineHasNoSummary and SingleLineHasNoSummary fix which for every shape of content |
| Dashboard.SummaryIsSecondLine | components/Dashboard.tsx:68 | content whose second line is non-empty, followed by a line break or the end, is summarised by exactly that line |
| Dashboard.EmptySecondLineHasNoSummary | components/Dashboard.tsx:68 | content whose second line is empty gets the fixed "No summary available." |
| Strings.SplitFirstPiece | components/Dashboard.tsx:68 | the first piece of `split` is the text before the first separator, or all of it when there is none |
| Dashboard.SingleLineHasNoSummary | components/Dashboard.tsx:68 | content on a single line has no summary |
| Dashboard.Target | components/Dashboard.tsx:30-77 | the three buttons request `new_report`, `calendar` and `timeline`, one each |
| IncidentTimeline.RenderLine | components/IncidentTimeline.tsx:21-26 | a line becomes a heading exactly when it starts with "### ", and then loses those four characters; any other line is a paragraph |
| IncidentTimeline.RenderContent | components/IncidentTimeline.tsx:21 | the content is shown as one block per line |
| IncidentTimeline.RenderContentLossless | components/IncidentTimeline.tsx:21-26 | the blocks' lines, joined with line breaks, give the content back |
| IncidentTimeline.CardOf | components/IncidentTimeline.tsx:11-62 | the legal note is shown exactly for a non-empty legal context; tags exactly when there are some, each prefixed `#`; both buttons hand over the report's id |
| IncidentTimeline.RenderTimeline | components/IncidentTimeline.tsx:70-93 | no reports show only the empty state; otherwise the array becomes its stable sort newest first in place (equal-time reports in their old order) and one card per report is shown, in that order |
| Sidebar.ViewOf | components/Sidebar.tsx:45-78 | each item stands for a view other than the dashboard, profile and calendar |
| Sidebar.ViewOfInjective | components/Sidebar.tsx:45-78 | different items stand for different views |
| Sidebar.Disabled | components/Sidebar.tsx:59-66 | pattern analysis is disabled exactly below two reports, insights exactly below one, and no other item ever |
| Sidebar.EnablingIsMonotone | components/Sidebar.tsx:59-66 | more reports never disable an item, and from two reports on every item is enabled |
| Sidebar.StyleOf | components/Sidebar.tsx:29 | the disabled style wins, then the active style exactly for the active view |
| Sidebar.OneActiveItem | components/Sidebar.tsx:29-78 | at most one item looks active |
| Sidebar.Click | components/Sidebar.tsx:28-78 | a click requests exactly the item's own view, and a disabled item requests nothing |
| Messaging.OtherParentRole | components/Messaging.tsx:16 | the other parent is `Father` exactly when the profile says the user is the mother, and `Mother` otherwise, including without a profile |
| Messaging.SenderLabel | components/Messaging.tsx:67 | the user's messages are captioned with the profile name or "Me", and the other parent's with the other parent's role |
| Messaging.MessageComposer.constructor | components/Messaging.tsx:12-13 | the composer starts with empty input and the user as sender |
| Messaging.MessageComposer.SetSender | components/Messaging.tsx:81-88 | the toggle sets the sender and keeps the input |
| Messaging.MessageComposer.Add | components/Messaging.tsx:22-33 | blank input adds nothing; otherwise the message has the trimmed input, the current sender and an id prefixed `msg_`, and the input is cleared |
| Messaging.AddedTextIsTrimmed | components/Messaging.tsx:28 | a logged text is non-empty and starts and ends with a visible character |
| StripeConfig.CatalogueShape | src/stripe-config.ts:11-21 | the catalogue holds one product, a subscription priced 29.99 in `usd` |
| StripeConfig.GetProductByPriceId | src/stripe-config.ts:23-25 | the lookup finds nothing exactly when no product has the price id, and otherwise a catalogue product with that price id |
| StripeConfig.GetProductById | src/stripe-config.ts:27-29 | the lookup finds nothing exactly when no product has the id, and otherwise a catalogue product with that id |
| StripeConfig.LookupsFindEachProduct | src/stripe-config.ts:11-29 | ids and price ids are unique, and every product is found again by its own id and by its own price id |
| UseSubscription.SubscriptionAfter | src/hooks/useSubscription.ts:24-48 | a subscription is held only for a signed-in user whose query returned it; a returned row is always held |
| UseSubscription.IsActive | src/hooks/useSubscription.ts:61-63 | active exactly when a subscription exists and its status is "active" |
| UseSubscription.GetSubscriptionPlan | src/hooks/useSubscription.ts:54-59 | a plan exists only for a non-empty price id that names a catalogue product, and it is that product's name |
| UseSubscription.ProPriceIsProPlan | src/hooks/useSubscription.ts:54-59 | the Pro price is reported as the "CustodyX.AI Pro" plan |
| UseSubscription.UnknownPriceHasNoPlan | src/hooks/useSubscription.ts:54-59 | a price outside the catalogue names no plan |
| UseSubscription.NothingWithoutRow | src/hooks/useSubscription.ts:24-48 | without a user, or after a failed query, there is no active subscription and no plan |
| UseSubscription.SubscriptionHook.constructor | src/hooks/useSubscription.ts:20-21 | on mount nothing is held and the hook is loading |
| UseSubscription.SubscriptionHook.Refresh | src/hooks/useSubscription.ts:23-50 | the effect ends with `SubscriptionAfter` held and loading false, in every outcome |
| UseSubscription.SubscriptionHook.Plan | src/hooks/useSubscription.ts:54-59 | a plan is reported only while a subscription is held |
| UseSubscription.SubscriptionHook.Active | src/hooks/useSubscription.ts:61-63 | the hook is active only while a subscription is held |

## Left out

- The AI model, `JSON.parse`, Supabase, Firebase, Stripe checkout and `localStorage` are not modelled. Each call's outcome, each parse result and each storage write's success is a parameter.
- The mount effect that loads the profile and the documents from storage (App.tsx:34-47) is left out, because it reads browser storage.
- Dates are abstract: an instant is its epoch milliseconds plus the local and the UTC day it falls on. Time-zone arithmetic, `toLocaleDateString`, the text of `toISOString()` and parsing of ISO strings are not modelled. The label the locale prints is a parameter.
- `response.text` being `undefined` is not modelled: a reply is always a string.
- `replace` is modelled only for the string patterns the source uses, with the `$` patterns of the replacement expanded. Regular-expression patterns are modelled only as the fence stripping they perform.
- Strings are sequences of characters, not UTF-16 code units, so `substring(0, 100)` counts characters.
- The prompt assembly that only concatenates text for the model is not modelled: the transcript in `generateJsonReport`, the report listings and full prompts of the analysis and legal-assistant calls, and `analyzeDocument`/`redraftDocument`. The prompts' shared pieces are modelled: the user context, placeholder filling and the supporting-report filter.
- `getThemeAnalysis`'s call and its `Array.isArray` check are not modelled; only its prompt (`GeminiService.ThemePrompt`) is.
- Grounding sources (`groundingChunks`) attached to replies are not modelled.
- The legal-context text appended to the report prompt comes from another file, which is not part of this model. It enters as a parameter.
- Only the placeholder-bearing prompt constants are modelled. The prompts in `constants/behavioralPrompts.ts` and `constants/legalPrompts.ts` are not part of this model.
- The `renderView` switch, the components it renders without core logic (pattern analysis, behavioural insights, legal assistant, document library, user profile, pricing, header, landing pages), and form setters that only copy input into state are not modelled.
- Interleavings of asynchronous handlers are not modelled: each handler runs to completion in one step.
- ChatInterface.ChatSession.SendMessage: the loading flag is true while the call is pending. The method's final state is what the user sees once it returns.
- ChatInterface.ChatSession.GenerateReport takes what `generateJsonReport` resolved to rather than the call outcome. `GeminiService.ReportFromReply` states how that value is obtained from the outcome.
- The `catch` branch of `handleGenerateReport` (ChatInterface.tsx:116-118) is left out. `generateJsonReport` catches every error itself, so the branch cannot run.
- The clipboard write, `window.print` and the two-second reset of `isCopied` are not modelled. Only the copied flag is.
- The sidebar's slide-in styling for `isOpen` is not modelled.
- `App.tsx` passes props that the shipped `CalendarView` and `ChatInterface` do not declare (`onDayClick`, the selection props, `initialDate`), and does not pass `CalendarView` the `events`, `onCreateEvent` and `onDeleteEvent` it declares. Each file is modelled as written, each component against its own declared props; the failures this wiring causes at run time are not modelled.
- CalendarView.Calendar.HandleCreateEvent and CalendarView.Calendar.Submit hand over the UTC day that the `YYYY-MM-DD` string names, not the string itself. Formatting that string, and reading it back as UTC midnight when the new event returns through the props, are not modelled; the instant's UTC day is part of the instant, given rather than computed.
- `CalendarEvent`, `EventType` and `AppMessage` are declared in the model with the fields the views read, because the shipped `types.ts` predates them.
- The controller does not keep the selected report ids within the existing report ids. The model does not state that invariant either.
- StripeConfig.Pro: the price is the exact decimal 29.99 (`real`), not a binary floating-point number.
- UseSubscription.SubscriptionHook.Refresh models the effect once it has finished. `loading` is not set back to true when the user changes, and the signed-in user is a flag.
- Messaging.MessageComposer.Add and ChatInterface.AssembleReport: the `Date.now()` values in ids are parameters. Distinct values give distinct ids (`Strings.NatToStringInjective`), but the model does not promise that two calls see distinct values.
- Strings.Trim states its framing through `TrimStart` and `TrimEnd`: it removes an all-blank prefix and an all-blank suffix.
