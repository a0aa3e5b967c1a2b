/**
 * The deterministic logic around the AI gateway: the user-context block put
 * into system prompts, the conversion of chat messages into request
 * contents, placeholder substitution, cleaning of the report generator's
 * reply and validation of its fields, extraction of the JSON object from the
 * legal assistant's reply and its fallbacks, and the supporting-report
 * filter.
 *
 * The model itself and `JSON.parse` are outside the model: a call's outcome
 * is a `CallOutcome` value and parsing is a function parameter that returns
 * `None` where `JSON.parse` throws.
 */
module GeminiService {
  import opened Wrappers
  import opened Types
  import opened Seqs
  import opened Strings
  import opened PromptText
  import opened Constants

  /** What a call to the model produced: its reply text, or an exception with its message. */
  datatype CallOutcome = Replied(text: string) | Threw(message: string)

  // ---------------------------------------------------------------------
  // User context
  // ---------------------------------------------------------------------

  const UserContextHeader := "\n### User Context\n"
  const NameSentence := "The user's name is "
  const RoleSentence := ", and they identify as the "
  const OtherParentSentence := ". The other parent should be referred to as the "
  const ChildrenSentence := " The child/children involved are: "

  /** The sentence about the user's role: present only for a set role, naming the opposite role for the other parent. */
  function RoleClause(role: ParentRole): (c: string)
    ensures c == [] <==> role == Unset
    ensures role != Unset ==> StartsWith(c, RoleSentence + RoleName(role))
    ensures role != Unset ==> EndsWith(c, OtherParentSentence + RoleName(OtherParent(role)) + ".")
  {
    if role == Unset then []
    else RoleSentence + RoleName(role) + OtherParentSentence + RoleName(OtherParent(role)) + "."
  }

  /** The sentence listing the children: present only for a non-empty list, names joined by ", ". */
  function ChildrenClause(children: seq<string>): (c: string)
    ensures c == [] <==> children == []
    ensures children != [] ==>
      |c| > |ChildrenSentence| && StartsWith(c, ChildrenSentence) && EndsWith(c, ".") &&
      c[|ChildrenSentence|..|c| - 1] == Join(children, ", ")
  {
    if children == [] then []
    else
      var c := ChildrenSentence + Join(children, ", ") + ".";
      assert c[|ChildrenSentence|..|c| - 1] == Join(children, ", ");
      c
  }

  /** The sentence about the user: name, then the role and children clauses. */
  function ProfileSentence(p: UserProfile): (c: string)
    ensures StartsWith(c, NameSentence + p.name)
    ensures c[|NameSentence + p.name|..] == RoleClause(p.role) + ChildrenClause(p.children)
  {
    var head := NameSentence + p.name;
    var rest := RoleClause(p.role) + ChildrenClause(p.children);
    AppendParts(head, rest);
    head + rest
  }

  /**
   * The user-context block: empty without a profile or a name; otherwise the
   * header and the sentence about the user, then a line break.
   */
  function ProfileContext(profile: Option<UserProfile>): (r: string)
    ensures r == [] <==> profile.None? || profile.value.name == []
    ensures r != [] ==>
      var p := profile.value;
      var head := UserContextHeader + NameSentence + p.name;
      && |r| > |head|
      && StartsWith(r, head)
      && EndsWith(r, "\n")
      && r[|head|..|r| - 1] == RoleClause(p.role) + ChildrenClause(p.children)
  {
    if profile.None? || profile.value.name == [] then []
    else
      var p := profile.value;
      var sentence := ProfileSentence(p);
      var r := UserContextHeader + sentence + "\n";
      assert r[|UserContextHeader|..|r| - 1] == sentence;
      assert r[..|UserContextHeader| + |NameSentence + p.name|] == UserContextHeader + NameSentence + p.name;
      r
  }

  /** The role clause is present exactly when the role is set, and it names the other parent `Father` exactly for a mother. */
  lemma {:induction false} ProfileContextRole(p: UserProfile)
    requires p.name != []
    ensures var r := ProfileContext(Some(p));
            var head := UserContextHeader + NameSentence + p.name;
            && (p.role == Unset ==> r[|head|..|r| - 1] == ChildrenClause(p.children))
            && (p.role != Unset ==> StartsWith(r[|head|..|r| - 1], RoleSentence + RoleName(p.role)))
            && (p.role == Mother ==> EndsWith(RoleClause(p.role), "Father."))
            && (p.role == Father ==> EndsWith(RoleClause(p.role), "Mother."))
  {
    var r := ProfileContext(Some(p));
    var head := UserContextHeader + NameSentence + p.name;
    if p.role != Unset {
      var c := RoleClause(p.role);
      assert c <= c + ChildrenClause(p.children);
    }
  }

  /** `formatUserProfileContext`, building the sentence step by step. */
  method FormatUserProfileContext(profile: Option<UserProfile>) returns (r: string)
    ensures r == ProfileContext(profile)
  {
    if profile.None? || profile.value.name == [] {
      return [];
    }
    var p := profile.value;
    var context := NameSentence + p.name;
    ghost var head := context;
    if p.role != Unset {
      context := context + RoleClause(p.role);
    }
    assert context == head + RoleClause(p.role);
    if |p.children| > 0 {
      context := context + ChildrenClause(p.children);
    }
    assert context == head + RoleClause(p.role) + ChildrenClause(p.children);
    AppendAssoc(head, RoleClause(p.role), ChildrenClause(p.children));
    r := UserContextHeader + context + "\n";
  }

  // ---------------------------------------------------------------------
  // Request contents
  // ---------------------------------------------------------------------

  datatype Part = TextPart(text: string) | InlineData(mimeType: string, data: string)

  datatype Content = Content(role: ChatRole, parts: seq<Part>)

  /** `c` carries `m`: same role, the text part first, then one inline part per attached image, in order. */
  predicate Carries(c: Content, m: ChatMessage) {
    var images := m.images.GetOr([]);
    && c.role == m.role
    && |c.parts| == 1 + |images|
    && c.parts[0] == TextPart(m.content)
    && forall j :: 0 <= j < |images| ==> c.parts[j + 1] == InlineData(images[j].mimeType, images[j].data)
  }

  /** `formatMessagesToContent`: one entry per message, in order. */
  method FormatMessagesToContent(messages: seq<ChatMessage>) returns (contents: seq<Content>)
    ensures |contents| == |messages|
    ensures forall i :: 0 <= i < |messages| ==> Carries(contents[i], messages[i])
  {
    contents := [];
    var i := 0;
    while i < |messages|
      invariant 0 <= i <= |messages|
      invariant |contents| == i
      invariant forall k :: 0 <= k < i ==> Carries(contents[k], messages[k])
    {
      var msg := messages[i];
      var parts := [TextPart(msg.content)];
      if msg.images.Some? {
        var images := msg.images.value;
        var j := 0;
        while j < |images|
          invariant 0 <= j <= |images|
          invariant |parts| == 1 + j && parts[0] == TextPart(msg.content)
          invariant forall k :: 0 <= k < j ==> parts[k + 1] == InlineData(images[k].mimeType, images[k].data)
        {
          parts := parts + [InlineData(images[j].mimeType, images[j].data)];
          j := j + 1;
        }
      }
      contents := contents + [Content(msg.role, parts)];
      i := i + 1;
    }
  }

  /** The message a content entry carries is determined by it, up to an absent versus an empty image list. */
  lemma {:induction false} CarriesDetermines(c: Content, m1: ChatMessage, m2: ChatMessage)
    requires Carries(c, m1) && Carries(c, m2)
    ensures m1.role == m2.role && m1.content == m2.content && m1.images.GetOr([]) == m2.images.GetOr([])
  {
    var a := m1.images.GetOr([]);
    var b := m2.images.GetOr([]);
    assert |a| == |b|;
    forall j | 0 <= j < |a|
      ensures a[j] == b[j]
    {
      assert c.parts[j + 1] == InlineData(a[j].mimeType, a[j].data);
    }
  }

  // ---------------------------------------------------------------------
  // System prompts
  // ---------------------------------------------------------------------

  /**
   * The chat's system instruction: the user context in place of the
   * placeholder. `replace` expands `$` patterns in the context, which holds
   * the user's and the children's names as typed; a context without `$`
   * goes in as it is.
   */
  function ChatSystemInstruction(profile: Option<UserProfile>): (r: string)
    ensures r == ChatPromptHead
                 + Substitution(ProfileContext(profile), ProfilePlaceholder, ChatPromptHead, ChatPromptTail)
                 + ChatPromptTail
    ensures '$' !in ProfileContext(profile) ==> r == ChatPromptHead + ProfileContext(profile) + ChatPromptTail
  {
    PlaceholdersWellFormed();
    ChatPromptHeadBraceFree();
    FillTemplate(ChatPromptHead, ProfilePlaceholder, ChatPromptTail, ProfileContext(profile));
    ReplaceFirst(SystemPromptChat, ProfilePlaceholder, ProfileContext(profile))
  }

  /**
   * The report generator's system instruction: the user context in place of
   * the placeholder (its `$` patterns expanded, as in the chat's), the rest of
   * the prompt, the legal-context heading and text kept as they are.
   */
  function ReportSystemInstruction(profile: Option<UserProfile>, legalContext: string): (r: string)
    ensures var tail := ReportPromptTail + LegalContextHeading + legalContext;
      r == ReportPromptHead + Substitution(ProfileContext(profile), ProfilePlaceholder, ReportPromptHead, tail) + tail
    ensures '$' !in ProfileContext(profile) ==>
      r == ReportPromptHead + ProfileContext(profile) + (ReportPromptTail + LegalContextHeading + legalContext)
  {
    var tail := ReportPromptTail + LegalContextHeading + legalContext;
    Regroup(ReportPromptHead, ProfilePlaceholder, ReportPromptTail, LegalContextHeading, legalContext);
    PlaceholdersWellFormed();
    ReportPromptHeadBraceFree();
    FillTemplate(ReportPromptHead, ProfilePlaceholder, tail, ProfileContext(profile));
    ReplaceFirst(ReportGenerationPrompt(legalContext), ProfilePlaceholder, ProfileContext(profile))
  }

  /** The theme-analysis prompt for one category: a category name, having no `$`, goes in as it is. */
  function ThemePrompt(category: string): (r: string)
    ensures r == ThemePromptHead + Substitution(category, CategoryPlaceholder, ThemePromptHead, ThemePromptTail) + ThemePromptTail
    ensures CategoryNamed(category).Some? ==> r == ThemePromptHead + category + ThemePromptTail
  {
    CategoryNamesPlain(category);
    PlaceholdersWellFormed();
    ThemePromptHeadBraceFree();
    FillTemplate(ThemePromptHead, CategoryPlaceholder, ThemePromptTail, category);
    ReplaceFirst(SystemPromptThemeAnalysis, CategoryPlaceholder, category)
  }

  // ---------------------------------------------------------------------
  // The report generator's reply
  // ---------------------------------------------------------------------

  const FenceOpen := "```json"
  const Fence := "```"

  /** `replace(/^```json\n?/, '')`. */
  function StripOpeningFence(s: string): (r: string)
    ensures EndsWith(s, r)
    ensures r == s <==> !StartsWith(s, FenceOpen)
    ensures StartsWith(s, FenceOpen + "\n") ==> r == s[|FenceOpen| + 1..]
    ensures StartsWith(s, FenceOpen) && !StartsWith(s, FenceOpen + "\n") ==> r == s[|FenceOpen|..]
  {
    if StartsWith(s, FenceOpen + "\n") then s[|FenceOpen| + 1..]
    else if StartsWith(s, FenceOpen) then s[|FenceOpen|..]
    else s
  }

  /** `replace(/\n?```$/, '')`. */
  function StripClosingFence(s: string): (r: string)
    ensures StartsWith(s, r)
    ensures r == s <==> !EndsWith(s, Fence)
    ensures EndsWith(s, "\n" + Fence) ==> r == s[..|s| - |Fence| - 1]
    ensures EndsWith(s, Fence) && !EndsWith(s, "\n" + Fence) ==> r == s[..|s| - |Fence|]
  {
    if EndsWith(s, "\n" + Fence) then s[..|s| - |Fence| - 1]
    else if EndsWith(s, Fence) then s[..|s| - |Fence|]
    else s
  }

  /** The reply text with white space trimmed and a surrounding code fence removed. */
  function CleanReply(text: string): (r: string)
  {
    StripClosingFence(StripOpeningFence(Trim(text)))
  }

  /** The opening fence with its line break is removed and nothing else. */
  lemma OpeningFenceStripped(inner: string)
    ensures StripOpeningFence(FenceOpen + "\n" + inner) == inner
  {
    assert StartsWith(FenceOpen + "\n" + inner, FenceOpen + "\n");
  }

  /** The closing fence with the line break before it is removed and nothing else. */
  lemma ClosingFenceStripped(body: string)
    ensures StripClosingFence(body + ("\n" + Fence)) == body
  {
    var s := body + ("\n" + Fence);
    assert EndsWith(s, "\n" + Fence);
    assert s[..|s| - |Fence| - 1] == body;
  }

  /** A body wrapped in a ```json fence comes back unchanged. */
  lemma {:induction false} FencedReply(body: string)
    ensures CleanReply(FenceOpen + "\n" + body + "\n" + Fence) == body
  {
    var inner := body + ("\n" + Fence);
    var s := FenceOpen + "\n" + inner;
    assert FenceOpen + "\n" + body + "\n" + Fence == s;
    assert s[0] == '`' && s[|s| - 1] == '`';
    TrimUnframed(s);
    OpeningFenceStripped(inner);
    ClosingFenceStripped(body);
  }

  /** A reply without fences is only trimmed. */
  lemma UnfencedReply(text: string)
    requires !StartsWith(Trim(text), FenceOpen) && !EndsWith(Trim(text), Fence)
    ensures CleanReply(text) == Trim(text)
  {
  }

  /** The fields of the parsed report object; a field is `None` when absent. */
  datatype ParsedReport = ParsedReport(
    content: Option<string>,
    category: Option<string>,
    tags: Option<seq<string>>,
    legalContext: Option<string>)

  /** A string field is truthy when present and non-empty. */
  predicate Truthy(field: Option<string>) {
    field.Some? && field.value != []
  }

  /** The condition `content && category && tags`: an empty tag list is an array, and arrays are truthy. */
  predicate HasReportFields(p: ParsedReport) {
    Truthy(p.content) && Truthy(p.category) && p.tags.Some?
  }

  /** `generateJsonReport` after the model call: `None` stands for `null`. */
  function ReportFromReply(outcome: CallOutcome, parse: string -> Option<ParsedReport>): (r: Option<GeneratedReportData>)
    ensures r.Some? <==>
      && outcome.Replied?
      && CleanReply(outcome.text) != []
      && parse(CleanReply(outcome.text)).Some?
      && HasReportFields(parse(CleanReply(outcome.text)).value)
    ensures r.Some? ==>
      var p := parse(CleanReply(outcome.text)).value;
      r.value == GeneratedReportData(p.content.value, p.category.value, p.tags.value, p.legalContext)
    ensures r.Some? ==> r.value.content != [] && r.value.category != []
  {
    match outcome
    case Threw(_) => None
    case Replied(text) =>
      var cleaned := CleanReply(text);
      if cleaned == [] then None
      else
        match parse(cleaned)
        case None => None
        case Some(p) =>
          if HasReportFields(p) then Some(GeneratedReportData(p.content.value, p.category.value, p.tags.value, p.legalContext))
          else None
  }

  // ---------------------------------------------------------------------
  // The legal assistant's reply
  // ---------------------------------------------------------------------

  /** The text from the first `{` to the last `}` inclusive, or `None` when there is no such span. */
  function ExtractJsonObject(text: string): (r: Option<string>)
    ensures r.None? <==> '{' !in text || '}' !in text || LastIndexOf(text, '}') < IndexOf(text, '{')
    ensures r.Some? ==>
      && |r.value| >= 2 && r.value[0] == '{' && r.value[|r.value| - 1] == '}'
      && exists i :: 0 <= i && i + |r.value| <= |text| && text[i..i + |r.value|] == r.value &&
                     '{' !in text[..i] && '}' !in text[i + |r.value|..]
  {
    var first := IndexOf(text, '{');
    var last := LastIndexOf(text, '}');
    if first == -1 || last == -1 || last < first then None
    else
      var r := text[first..last + 1];
      assert text[first..first + |r|] == r;
      Some(r)
  }

  /** A brace-delimited object framed by text with no `{` before it and no `}` after it is extracted exactly. */
  lemma {:induction false} ExtractFramedObject(before: string, obj: string, after: string)
    requires |obj| >= 2 && obj[0] == '{' && obj[|obj| - 1] == '}'
    requires '{' !in before && '}' !in after
    ensures ExtractJsonObject(before + obj + after) == Some(obj)
  {
    var text := before + obj + after;
    var first := IndexOf(text, '{');
    var last := LastIndexOf(text, '}');
    assert text[|before|] == '{';
    assert text[..|before|] == before;
    assert first == |before|;
    var end := |before| + |obj| - 1;
    assert text[end] == '}';
    assert text[end + 1..] == after;
    assert last == end;
    assert text[first..last + 1] == obj;
  }

  /** The fields of the parsed legal-assistant object; a field is `None` when absent. */
  datatype ParsedLegalReply = ParsedLegalReply(
    kind: Option<string>,
    content: Option<string>,
    title: Option<string>,
    documentText: Option<string>)

  const AssistantApology := "I'm sorry, an unexpected error occurred while processing your request. Please try again."
  const AnalysisApology := "I'm sorry, an unexpected error occurred while analyzing the incident. Please try asking your question directly."

  /** The apology returned in place of a reply that cannot be used. */
  function Apology(text: string): (r: LegalAssistantResponse)
    ensures r.kind == "chat" && r.content == text && r.title.None? && r.documentText.None?
  {
    LegalAssistantResponse("chat", text, None, None)
  }

  /** The parsed object the reply text yields, if brace extraction and parsing both succeed. */
  function ParsedObject(outcome: CallOutcome, parse: string -> Option<ParsedLegalReply>): (r: Option<ParsedLegalReply>)
    ensures r.Some? <==> outcome.Replied? && ExtractJsonObject(outcome.text).Some? &&
                         parse(ExtractJsonObject(outcome.text).value).Some?
    ensures r.Some? ==> r == parse(ExtractJsonObject(outcome.text).value)
  {
    match outcome
    case Threw(_) => None
    case Replied(text) =>
      match ExtractJsonObject(text)
      case None => None
      case Some(json) => parse(json)
  }

  function ResponseOf(p: ParsedLegalReply): LegalAssistantResponse
    requires p.kind.Some? && p.content.Some?
  {
    LegalAssistantResponse(p.kind.value, p.content.value, p.title, p.documentText)
  }

  /**
   * `getLegalAssistantResponse` after the model call: a parsed object with a
   * truthy `type` and `content` is returned as it is; anything else becomes
   * the apology. The result always has a non-empty type and message.
   */
  function LegalAssistantReply(outcome: CallOutcome, parse: string -> Option<ParsedLegalReply>): (r: LegalAssistantResponse)
    ensures var p := ParsedObject(outcome, parse);
            if p.Some? && Truthy(p.value.kind) && Truthy(p.value.content) then r == ResponseOf(p.value)
            else r == Apology(AssistantApology)
    ensures r.kind != [] && r.content != []
  {
    var p := ParsedObject(outcome, parse);
    if p.Some? && Truthy(p.value.kind) && Truthy(p.value.content) then ResponseOf(p.value)
    else Apology(AssistantApology)
  }

  /**
   * `getInitialLegalAnalysis` after the model call: only a `chat` object with
   * truthy `content` is accepted, so the result is always a chat message.
   */
  function InitialLegalAnalysisReply(outcome: CallOutcome, parse: string -> Option<ParsedLegalReply>): (r: LegalAssistantResponse)
    ensures var p := ParsedObject(outcome, parse);
            if p.Some? && p.value.kind == Some("chat") && Truthy(p.value.content) then r == ResponseOf(p.value)
            else r == Apology(AnalysisApology)
    ensures r.kind == "chat" && r.content != []
  {
    var p := ParsedObject(outcome, parse);
    if p.Some? && p.value.kind == Some("chat") && Truthy(p.value.content) then ResponseOf(p.value)
    else Apology(AnalysisApology)
  }

  /**
   * A reply whose object sits between text with no `{` before it and no `}`
   * after it, and parses with a truthy type and content, reaches the user as
   * that object, whatever the surrounding prose says.
   */
  lemma {:induction false} FramedReplyAccepted(before: string, obj: string, after: string,
                                               parse: string -> Option<ParsedLegalReply>)
    requires |obj| >= 2 && obj[0] == '{' && obj[|obj| - 1] == '}'
    requires '{' !in before && '}' !in after
    requires parse(obj).Some? && Truthy(parse(obj).value.kind) && Truthy(parse(obj).value.content)
    ensures LegalAssistantReply(Replied(before + obj + after), parse) == ResponseOf(parse(obj).value)
  {
    ExtractFramedObject(before, obj, after);
  }

  /** Every reply the initial analysis accepts, the general assistant accepts too, unchanged. */
  lemma InitialAnalysisAcceptsLess(outcome: CallOutcome, parse: string -> Option<ParsedLegalReply>)
    requires InitialLegalAnalysisReply(outcome, parse) != Apology(AnalysisApology)
    ensures LegalAssistantReply(outcome, parse) == InitialLegalAnalysisReply(outcome, parse)
  {
  }

  // ---------------------------------------------------------------------
  // Behavioural analysis of one incident
  // ---------------------------------------------------------------------

  const EmptyResponse := "empty response"
  const EmptyResponseError := "Received " + EmptyResponse + " from AI. Please try again."
  const InsightsErrorPrefix := "Failed to generate behavioral insights: "

  /**
   * `getSingleIncidentAnalysis` after the model call: the analysis text, or
   * the message of the error it throws. An empty reply throws the
   * empty-response error, which is rethrown as it is; any other error is
   * wrapped, with "Unknown error" for an empty message.
   */
  function SingleIncidentAnalysis(outcome: CallOutcome): (r: Result<string, string>)
    ensures outcome.Replied? && outcome.text != [] ==> r == Success(outcome.text)
    ensures outcome.Replied? && outcome.text == [] ==> r == Failure(EmptyResponseError)
    ensures outcome.Threw? && Includes(outcome.message, EmptyResponse) ==> r == Failure(outcome.message)
    ensures outcome.Threw? && !Includes(outcome.message, EmptyResponse) ==>
      r == Failure(InsightsErrorPrefix + (if outcome.message == [] then "Unknown error" else outcome.message))
    ensures r.Failure? <==> outcome.Threw? || outcome.text == []
    ensures r.Success? ==> r.value != [] && r.value == outcome.text
    ensures r.Failure? ==> r.error != [] && (Includes(r.error, EmptyResponse) || StartsWith(r.error, InsightsErrorPrefix))
  {
    match outcome
    case Replied(text) =>
      if text != [] then Success(text)
      else
        OccursBetween("Received ", EmptyResponse, " from AI. Please try again.");
        Failure(EmptyResponseError)
    case Threw(message) =>
      if Includes(message, EmptyResponse) then Failure(message)
      else Failure(InsightsErrorPrefix + (if message == [] then "Unknown error" else message))
  }

  /**
   * The empty-response error reaches the caller with the same message
   * whether the model's reply was empty or the call itself threw it: the
   * catch passes it on unwrapped.
   */
  lemma EmptyResponseErrorKept()
    ensures SingleIncidentAnalysis(Replied([])) == SingleIncidentAnalysis(Threw(EmptyResponseError))
    ensures SingleIncidentAnalysis(Threw(EmptyResponseError)) == Failure(EmptyResponseError)
  {
    OccursBetween("Received ", EmptyResponse, " from AI. Please try again.");
  }

  // ---------------------------------------------------------------------
  // Supporting reports
  // ---------------------------------------------------------------------

  /** The reports other than the main one (by id), in their original order. */
  function SupportingReports(main: Report, all: seq<Report>): (r: seq<Report>)
    ensures forall x :: x in r <==> x in all && x.id != main.id
    ensures IsSubsequence(r, all)
    ensures forall x: Report :: x.id != main.id ==> multiset(r)[x] == multiset(all)[x]
  {
    Filter(all, (x: Report) => x.id != main.id)
  }
}
