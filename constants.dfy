/**
 * The prompt templates and the category list. Each template is written as
 * the text before its placeholder, the placeholder, and the text after it,
 * concatenated exactly as the template literal reads. The legal-context text
 * appended to the report prompt lives in another file and enters here as a
 * parameter.
 */
module Constants {
  import opened Types
  import opened Strings
  import opened PromptText
  import Seqs

  const ProfilePlaceholder := "{USER_PROFILE_CONTEXT}"
  const CategoryPlaceholder := "{CATEGORY_NAME}"


  /** The system prompt of the intake chat. */
  const SystemPromptChat := ChatPromptHead + ProfilePlaceholder + ChatPromptTail


  /** The report-generation prompt before the legal context is appended. */
  const BaseReportPrompt := ReportPromptHead + ProfilePlaceholder + ReportPromptTail

  const LegalContextHeading := "\n\n### Legal Context\n"

  /** The report-generation prompt: the base prompt, a heading, then the legal-context text. */
  function ReportGenerationPrompt(legalContext: string): (p: string)
    ensures StartsWith(p, BaseReportPrompt)
    ensures EndsWith(p, LegalContextHeading + legalContext)
    ensures |p| == |BaseReportPrompt| + |LegalContextHeading| + |legalContext|
  {
    var appended := LegalContextHeading + legalContext;
    Seqs.AppendParts(BaseReportPrompt, appended);
    BaseReportPrompt + appended
  }


  /** The theme-analysis prompt. */
  const SystemPromptThemeAnalysis := ThemePromptHead + CategoryPlaceholder + ThemePromptTail

  /** The category list offered to the user. */
  const IncidentCategories: seq<IncidentCategory> := [
    CommunicationIssue,
    SchedulingConflict,
    FinancialDispute,
    MissedVisitation,
    ParentalAlienationConcern,
    ChildWellbeing,
    LegalDocumentation,
    Other
  ]

  /** The list holds every category exactly once, in declaration order. */
  lemma IncidentCategoriesComplete()
    ensures |IncidentCategories| == 8
    ensures forall i :: 0 <= i < |IncidentCategories| ==> IncidentCategories[i].Ordinal() == i
    ensures forall c: IncidentCategory :: c in IncidentCategories
  {
    forall c: IncidentCategory
      ensures c in IncidentCategories
    {
      assert IncidentCategories[c.Ordinal()] == c;
    }
  }

  /** A placeholder is text that opens with the only `{` it contains. */
  predicate IsPlaceholder(p: string) {
    |p| > 0 && p[0] == '{' && '{' !in p[1..]
  }

  lemma PlaceholdersWellFormed()
    ensures IsPlaceholder(ProfilePlaceholder) && IsPlaceholder(CategoryPlaceholder)
  {
  }

  /**
   * A placeholder framed by text without `{` occurs exactly once, right after
   * the head, so one first-occurrence `replace` fills the template completely.
   */
  lemma {:induction false} PlaceholderOccursOnce(head: string, placeholder: string, tail: string)
    requires IsPlaceholder(placeholder)
    requires '{' !in head && '{' !in tail
    ensures forall i :: OccursAt(head + placeholder + tail, placeholder, i) <==> i == |head|
  {
    var s := head + placeholder + tail;
    assert s[|head|..|head| + |placeholder|] == placeholder;
    forall i | OccursAt(s, placeholder, i)
      ensures i == |head|
    {
      assert s[i] == placeholder[0];
    }
  }

  /** Each shipped template holds its placeholder exactly once, right after its head. */
  lemma TemplatesHoldPlaceholderOnce()
    ensures forall i :: OccursAt(SystemPromptChat, ProfilePlaceholder, i) <==> i == |ChatPromptHead|
    ensures forall i :: OccursAt(BaseReportPrompt, ProfilePlaceholder, i) <==> i == |ReportPromptHead|
    ensures forall i :: OccursAt(SystemPromptThemeAnalysis, CategoryPlaceholder, i) <==> i == |ThemePromptHead|
  {
    ChatPromptHeadBraceFree();
    ChatPromptTailBraceFree();
    ReportPromptHeadBraceFree();
    ReportPromptTailBraceFree();
    ThemePromptHeadBraceFree();
    ThemePromptTailBraceFree();
    PlaceholdersWellFormed();
    PlaceholderOccursOnce(ChatPromptHead, ProfilePlaceholder, ChatPromptTail);
    PlaceholderOccursOnce(ReportPromptHead, ProfilePlaceholder, ReportPromptTail);
    PlaceholderOccursOnce(ThemePromptHead, CategoryPlaceholder, ThemePromptTail);
  }

  /**
   * Filling a template whose head has no `{` substitutes the value, its `$`
   * patterns expanded, for the placeholder after the head; a value without
   * `$` goes in as it is.
   */
  lemma FillTemplate(head: string, placeholder: string, tail: string, value: string)
    requires IsPlaceholder(placeholder) && '{' !in head
    ensures ReplaceFirst(head + placeholder + tail, placeholder, value)
         == head + Substitution(value, placeholder, head, tail) + tail
    ensures '$' !in value ==> ReplaceFirst(head + placeholder + tail, placeholder, value) == head + value + tail
  {
    var s := head + placeholder + tail;
    forall i | 0 <= i < |head|
      ensures !OccursAt(s, placeholder, i)
    {
      assert s[i] == head[i];
    }
    ReplaceFirstAt(head, placeholder, tail, value);
  }
}
