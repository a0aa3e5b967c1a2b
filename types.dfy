/**
 * The records the application passes between its views, the controller and
 * the AI gateway. Timestamps are abstract: an `Instant` carries its epoch
 * time (what `getTime()` compares) and the local calendar day it falls on
 * (what `getFullYear`/`getMonth`/`getDate` read).
 */
module Types {
  import opened Wrappers

  /** A calendar day; `month` is zero-based as in JavaScript's `Date`. */
  datatype Day = Day(year: int, month: int, day: int)

  /**
   * A point in time: milliseconds since the epoch, the local calendar day it
   * falls on, and the UTC calendar day it falls on. The two days differ when
   * the time zone's offset carries the instant across midnight.
   */
  datatype Instant = Instant(millis: int, local: Day, utc: Day)

  /** The eight incident categories, in declaration order. */
  datatype IncidentCategory =
    | CommunicationIssue
    | SchedulingConflict
    | FinancialDispute
    | MissedVisitation
    | ParentalAlienationConcern
    | ChildWellbeing
    | LegalDocumentation
    | Other
  {
    /** The string value the enum member stands for. */
    function Name(): (s: string)
      ensures s != []
    {
      match this
      case CommunicationIssue => "Communication Issue"
      case SchedulingConflict => "Scheduling Conflict"
      case FinancialDispute => "Financial Dispute"
      case MissedVisitation => "Missed Visitation"
      case ParentalAlienationConcern => "Parental Alienation Concern"
      case ChildWellbeing => "Child Wellbeing"
      case LegalDocumentation => "Legal Documentation"
      case Other => "Other"
    }

    /** Position in the enum declaration. */
    function Ordinal(): (n: nat)
      ensures n < 8
    {
      match this
      case CommunicationIssue => 0
      case SchedulingConflict => 1
      case FinancialDispute => 2
      case MissedVisitation => 3
      case ParentalAlienationConcern => 4
      case ChildWellbeing => 5
      case LegalDocumentation => 6
      case Other => 7
    }
  }

  /** The category whose string value is `name`, if any (the inverse of `Name`). */
  function CategoryNamed(name: string): (r: Option<IncidentCategory>)
    ensures r.Some? ==> r.value.Name() == name
  {
    if name == "Communication Issue" then Some(CommunicationIssue)
    else if name == "Scheduling Conflict" then Some(SchedulingConflict)
    else if name == "Financial Dispute" then Some(FinancialDispute)
    else if name == "Missed Visitation" then Some(MissedVisitation)
    else if name == "Parental Alienation Concern" then Some(ParentalAlienationConcern)
    else if name == "Child Wellbeing" then Some(ChildWellbeing)
    else if name == "Legal Documentation" then Some(LegalDocumentation)
    else if name == "Other" then Some(Other)
    else None
  }

  lemma NamePlain(c: IncidentCategory)
    ensures '$' !in c.Name()
  {
    match c
    case CommunicationIssue =>
    case SchedulingConflict =>
    case FinancialDispute =>
    case MissedVisitation =>
    case ParentalAlienationConcern =>
    case ChildWellbeing =>
    case LegalDocumentation =>
    case Other =>
  }

  /** No category's string value holds a `$`, so none is altered by `replace`'s patterns. */
  lemma CategoryNamesPlain(name: string)
    ensures CategoryNamed(name).Some? ==> '$' !in name
  {
    var c := CategoryNamed(name);
    if c.Some? {
      NamePlain(c.value);
    }
  }

  /** Every category is found again from its string value, so the eight values are distinct. */
  lemma CategoryNameRoundTrip(c: IncidentCategory)
    ensures CategoryNamed(c.Name()) == Some(c)
  {
    match c
    case CommunicationIssue =>
    case SchedulingConflict =>
    case FinancialDispute =>
    case MissedVisitation =>
    case ParentalAlienationConcern =>
    case ChildWellbeing =>
    case LegalDocumentation =>
    case Other =>
  }

  datatype ChatRole = User | Model

  /** An image attached to a chat message: its MIME type and base64 payload. */
  datatype ChatImage = ChatImage(mimeType: string, data: string)

  /** `images` is optional in the source (`images?`). */
  datatype ChatMessage = ChatMessage(role: ChatRole, content: string, images: Option<seq<ChatImage>>)

  /**
   * What the report generator returns; `legalContext` is optional. The
   * category is declared an `IncidentCategory`, but the generator casts
   * parsed JSON to this type unchecked, so it is kept as its string value
   * (see `KnownCategory`).
   */
  datatype GeneratedReportData = GeneratedReportData(
    content: string,
    category: string,
    tags: seq<string>,
    legalContext: Option<string>)

  /** `GeneratedReportData` plus `id`, `createdAt` and the image data URLs. */
  datatype Report = Report(
    id: string,
    createdAt: Instant,
    content: string,
    category: string,
    tags: seq<string>,
    legalContext: Option<string>,
    images: seq<string>)

  /** The part of a report that the generator produced. */
  function ReportData(r: Report): (d: GeneratedReportData)
    ensures d.content == r.content && d.category == r.category && d.tags == r.tags && d.legalContext == r.legalContext
  {
    GeneratedReportData(r.content, r.category, r.tags, r.legalContext)
  }

  /** The category string names one of the eight declared values. */
  predicate KnownCategory(d: GeneratedReportData) {
    CategoryNamed(d.category).Some?
  }

  /** `'Mother' | 'Father' | ''`. */
  datatype ParentRole = Mother | Father | Unset

  /** The string the role stands for. */
  function RoleName(role: ParentRole): (s: string)
    ensures s == [] <==> role == Unset
  {
    match role
    case Mother => "Mother"
    case Father => "Father"
    case Unset => ""
  }

  /** The role of the other parent: `Father` for a mother, `Mother` otherwise (an unset role included). */
  function OtherParent(role: ParentRole): (r: ParentRole)
    ensures r != Unset
    ensures r == Father <==> role == Mother
  {
    if role == Mother then Father else Mother
  }

  /** For a set role, the other parent has the opposite role, and naming it twice gives back the role. */
  lemma OtherParentInvolution(role: ParentRole)
    requires role != Unset
    ensures OtherParent(role) != role && OtherParent(OtherParent(role)) == role
  {
  }

  datatype UserProfile = UserProfile(name: string, role: ParentRole, children: seq<string>)

  /** The `type` field is declared `'chat' | 'document'`; the gateway casts parsed JSON to it unchecked, so it is kept as text. */
  datatype LegalAssistantResponse = LegalAssistantResponse(
    kind: string,
    content: string,
    title: Option<string>,
    documentText: Option<string>)

  /** The declared shape of the `type` field. */
  predicate WellTyped(r: LegalAssistantResponse) {
    r.kind == "chat" || r.kind == "document"
  }

  datatype StoredDocument = StoredDocument(id: string, name: string, mimeType: string, data: string, createdAt: Instant)

  /** The views of the application controller. */
  datatype View = Dashboard | Timeline | NewReport | Patterns | Insights | Assistant | Profile | Documents | Calendar
}
