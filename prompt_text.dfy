/**
 * The prose of the three prompt templates, as the text before and after each
 * placeholder. Long texts are written as consecutive named pieces so that
 * each piece can be shown separately to contain no `{`.
 */
module PromptText {
  const ChatPromptHead0 :=
    "You are an AI " +
    "documentation assistant "

  lemma ChatPromptHead0BraceFree()
    ensures '{' !in ChatPromptHead0
  {
  }

  const ChatPromptHead1 :=
    "for co-parenting " +
    "incidents. Your goal is "

  lemma ChatPromptHead1BraceFree()
    ensures '{' !in ChatPromptHead1
  {
  }

  const ChatPromptHead2 :=
    "to help the user document " +
    "what happened in a "

  lemma ChatPromptHead2BraceFree()
    ensures '{' !in ChatPromptHead2
  {
  }

  const ChatPromptHead3 :=
    "neutral, factual, and " +
    "emotionally detached "

  lemma ChatPromptHead3BraceFree()
    ensures '{' !in ChatPromptHead3
  {
  }

  const ChatPromptHead4 :=
    "manner.\n"

  lemma ChatPromptHead4BraceFree()
    ensures '{' !in ChatPromptHead4
  {
  }

  const ChatPromptHead := ChatPromptHead0 + ChatPromptHead1 + ChatPromptHead2 + ChatPromptHead3 + ChatPromptHead4

  lemma ChatPromptHeadBraceFree()
    ensures '{' !in ChatPromptHead
  {
    ChatPromptHead0BraceFree();
    ChatPromptHead1BraceFree();
    ChatPromptHead2BraceFree();
    ChatPromptHead3BraceFree();
    ChatPromptHead4BraceFree();
  }

  const ChatPromptTail0 :=
    "\n" +
    "- Start by asking the "

  lemma ChatPromptTail0BraceFree()
    ensures '{' !in ChatPromptTail0
  {
  }

  const ChatPromptTail1 :=
    "user to describe what " +
    "happened.\n"

  lemma ChatPromptTail1BraceFree()
    ensures '{' !in ChatPromptTail1
  {
  }

  const ChatPromptTail2 :=
    "- Ask clarifying " +
    "questions to ensure "

  lemma ChatPromptTail2BraceFree()
    ensures '{' !in ChatPromptTail2
  {
  }

  const ChatPromptTail3 :=
    "accuracy and gather all " +
    "necessary details like "

  lemma ChatPromptTail3BraceFree()
    ensures '{' !in ChatPromptTail3
  {
  }

  const ChatPromptTail4 :=
    "date, time, location, " +
    "people involved, and a "

  lemma ChatPromptTail4BraceFree()
    ensures '{' !in ChatPromptTail4
  {
  }

  const ChatPromptTail5 :=
    "clear sequence of events.\n" +
    "- Maintain a calm, "

  lemma ChatPromptTail5BraceFree()
    ensures '{' !in ChatPromptTail5
  {
  }

  const ChatPromptTail6 :=
    "professional, and " +
    "supportive tone.\n"

  lemma ChatPromptTail6BraceFree()
    ensures '{' !in ChatPromptTail6
  {
  }

  const ChatPromptTail7 :=
    "- Do NOT use emotionally " +
    "charged language, "

  lemma ChatPromptTail7BraceFree()
    ensures '{' !in ChatPromptTail7
  {
  }

  const ChatPromptTail8 :=
    "speculate, or assign " +
    "blame.\n"

  lemma ChatPromptTail8BraceFree()
    ensures '{' !in ChatPromptTail8
  {
  }

  const ChatPromptTail9 :=
    "- When you have a good " +
    "understanding of the "

  lemma ChatPromptTail9BraceFree()
    ensures '{' !in ChatPromptTail9
  {
  }

  const ChatPromptTail10 :=
    "events, let the user know " +
    "they can now click "

  lemma ChatPromptTail10BraceFree()
    ensures '{' !in ChatPromptTail10
  {
  }

  const ChatPromptTail11 :=
    "\"Generate Report\" to " +
    "create a formal summary.\n"

  lemma ChatPromptTail11BraceFree()
    ensures '{' !in ChatPromptTail11
  {
  }

  const ChatPromptTail12 :=
    "- Focus on observable " +
    "actions and direct quotes "

  lemma ChatPromptTail12BraceFree()
    ensures '{' !in ChatPromptTail12
  {
  }

  const ChatPromptTail13 :=
    "where possible.\n" +
    "- Do not provide legal "

  lemma ChatPromptTail13BraceFree()
    ensures '{' !in ChatPromptTail13
  {
  }

  const ChatPromptTail14 :=
    "advice."

  lemma ChatPromptTail14BraceFree()
    ensures '{' !in ChatPromptTail14
  {
  }

  const ChatPromptTailSection0 := ChatPromptTail0 + ChatPromptTail1 + ChatPromptTail2 + ChatPromptTail3 + ChatPromptTail4

  lemma ChatPromptTailSection0BraceFree()
    ensures '{' !in ChatPromptTailSection0
  {
    ChatPromptTail0BraceFree();
    ChatPromptTail1BraceFree();
    ChatPromptTail2BraceFree();
    ChatPromptTail3BraceFree();
    ChatPromptTail4BraceFree();
  }

  const ChatPromptTailSection1 := ChatPromptTail5 + ChatPromptTail6 + ChatPromptTail7 + ChatPromptTail8 + ChatPromptTail9

  lemma ChatPromptTailSection1BraceFree()
    ensures '{' !in ChatPromptTailSection1
  {
    ChatPromptTail5BraceFree();
    ChatPromptTail6BraceFree();
    ChatPromptTail7BraceFree();
    ChatPromptTail8BraceFree();
    ChatPromptTail9BraceFree();
  }

  const ChatPromptTailSection2 := ChatPromptTail10 + ChatPromptTail11 + ChatPromptTail12 + ChatPromptTail13 + ChatPromptTail14

  lemma ChatPromptTailSection2BraceFree()
    ensures '{' !in ChatPromptTailSection2
  {
    ChatPromptTail10BraceFree();
    ChatPromptTail11BraceFree();
    ChatPromptTail12BraceFree();
    ChatPromptTail13BraceFree();
    ChatPromptTail14BraceFree();
  }

  const ChatPromptTail := ChatPromptTailSection0 + ChatPromptTailSection1 + ChatPromptTailSection2

  lemma ChatPromptTailBraceFree()
    ensures '{' !in ChatPromptTail
  {
    ChatPromptTailSection0BraceFree();
    ChatPromptTailSection1BraceFree();
    ChatPromptTailSection2BraceFree();
  }

  const ReportPromptHead0 :=
    "Based on the following " +
    "conversation, generate a "

  lemma ReportPromptHead0BraceFree()
    ensures '{' !in ReportPromptHead0
  {
  }

  const ReportPromptHead1 :=
    "professional, court-ready " +
    "incident summary.\n"

  lemma ReportPromptHead1BraceFree()
    ensures '{' !in ReportPromptHead1
  {
  }

  const ReportPromptHead := ReportPromptHead0 + ReportPromptHead1

  lemma ReportPromptHeadBraceFree()
    ensures '{' !in ReportPromptHead
  {
    ReportPromptHead0BraceFree();
    ReportPromptHead1BraceFree();
  }

  const ReportPromptTail0 :=
    "\n" +
    "- The output MUST be a "

  lemma ReportPromptTail0BraceFree()
    ensures '{' !in ReportPromptTail0
  {
  }

  const ReportPromptTail1 :=
    "valid JSON object.\n" +
    "- The report must be "

  lemma ReportPromptTail1BraceFree()
    ensures '{' !in ReportPromptTail1
  {
  }

  const ReportPromptTail2 :=
    "neutral, factual, and " +
    "concise, avoiding any "

  lemma ReportPromptTail2BraceFree()
    ensures '{' !in ReportPromptTail2
  {
  }

  const ReportPromptTail3 :=
    "emotional language or " +
    "accusations.\n"

  lemma ReportPromptTail3BraceFree()
    ensures '{' !in ReportPromptTail3
  {
  }

  const ReportPromptTail4 :=
    "- Structure the 'content' " +
    "field using Markdown with "

  lemma ReportPromptTail4BraceFree()
    ensures '{' !in ReportPromptTail4
  {
  }

  const ReportPromptTail5 :=
    "the following headings:\n" +
    "### Summary of Events\n"

  lemma ReportPromptTail5BraceFree()
    ensures '{' !in ReportPromptTail5
  {
  }

  const ReportPromptTail6 :=
    "### Behavior of Parent 1 " +
    "(User)\n"

  lemma ReportPromptTail6BraceFree()
    ensures '{' !in ReportPromptTail6
  {
  }

  const ReportPromptTail7 :=
    "### Behavior of Parent 2 " +
    "(Other Party)\n"

  lemma ReportPromptTail7BraceFree()
    ensures '{' !in ReportPromptTail7
  {
  }

  const ReportPromptTail8 :=
    "### Impact or Outcome\n" +
    "### Notes or Context\n"

  lemma ReportPromptTail8BraceFree()
    ensures '{' !in ReportPromptTail8
  {
  }

  const ReportPromptTail9 :=
    "- Classify the incident " +
    "into one of the provided "

  lemma ReportPromptTail9BraceFree()
    ensures '{' !in ReportPromptTail9
  {
  }

  const ReportPromptTail10 :=
    "categories.\n" +
    "- Extract relevant "

  lemma ReportPromptTail10BraceFree()
    ensures '{' !in ReportPromptTail10
  {
  }

  const ReportPromptTail11 :=
    "keywords as tags.\n" +
    "- Analyze the incident "

  lemma ReportPromptTail11BraceFree()
    ensures '{' !in ReportPromptTail11
  {
  }

  const ReportPromptTail12 :=
    "against the provided " +
    "'Legal Context'. If the "

  lemma ReportPromptTail12BraceFree()
    ensures '{' !in ReportPromptTail12
  {
  }

  const ReportPromptTail13 :=
    "events seem relevant to a " +
    "legal principle, add a "

  lemma ReportPromptTail13BraceFree()
    ensures '{' !in ReportPromptTail13
  {
  }

  const ReportPromptTail14 :=
    "'legalContext' field to " +
    "the JSON. This field "

  lemma ReportPromptTail14BraceFree()
    ensures '{' !in ReportPromptTail14
  {
  }

  const ReportPromptTail15 :=
    "should contain a single, " +
    "neutral sentence stating "

  lemma ReportPromptTail15BraceFree()
    ensures '{' !in ReportPromptTail15
  {
  }

  const ReportPromptTail16 :=
    "the potential connection " +
    "(e.g., 'This incident may "

  lemma ReportPromptTail16BraceFree()
    ensures '{' !in ReportPromptTail16
  {
  }

  const ReportPromptTail17 :=
    "touch upon principles " +
    "outlined in the Indiana "

  lemma ReportPromptTail17BraceFree()
    ensures '{' !in ReportPromptTail17
  {
  }

  const ReportPromptTail18 :=
    "Parenting Time Guidelines " +
    "regarding parental "

  lemma ReportPromptTail18BraceFree()
    ensures '{' !in ReportPromptTail18
  {
  }

  const ReportPromptTail19 :=
    "communication.').\n" +
    "- Do not provide legal "

  lemma ReportPromptTail19BraceFree()
    ensures '{' !in ReportPromptTail19
  {
  }

  const ReportPromptTail20 :=
    "advice, predictions, or " +
    "interpretations. If no "

  lemma ReportPromptTail20BraceFree()
    ensures '{' !in ReportPromptTail20
  {
  }

  const ReportPromptTail21 :=
    "clear connection exists, " +
    "omit the 'legalContext' "

  lemma ReportPromptTail21BraceFree()
    ensures '{' !in ReportPromptTail21
  {
  }

  const ReportPromptTail22 :=
    "field.\n" +
    "- Do not add any text or "

  lemma ReportPromptTail22BraceFree()
    ensures '{' !in ReportPromptTail22
  {
  }

  const ReportPromptTail23 :=
    "explanations outside of " +
    "the JSON object.\n"

  lemma ReportPromptTail23BraceFree()
    ensures '{' !in ReportPromptTail23
  {
  }

  const ReportPromptTailSection0 := ReportPromptTail0 + ReportPromptTail1 + ReportPromptTail2 + ReportPromptTail3 + ReportPromptTail4

  lemma ReportPromptTailSection0BraceFree()
    ensures '{' !in ReportPromptTailSection0
  {
    ReportPromptTail0BraceFree();
    ReportPromptTail1BraceFree();
    ReportPromptTail2BraceFree();
    ReportPromptTail3BraceFree();
    ReportPromptTail4BraceFree();
  }

  const ReportPromptTailSection1 := ReportPromptTail5 + ReportPromptTail6 + ReportPromptTail7 + ReportPromptTail8 + ReportPromptTail9

  lemma ReportPromptTailSection1BraceFree()
    ensures '{' !in ReportPromptTailSection1
  {
    ReportPromptTail5BraceFree();
    ReportPromptTail6BraceFree();
    ReportPromptTail7BraceFree();
    ReportPromptTail8BraceFree();
    ReportPromptTail9BraceFree();
  }

  const ReportPromptTailSection2 := ReportPromptTail10 + ReportPromptTail11 + ReportPromptTail12 + ReportPromptTail13 + ReportPromptTail14

  lemma ReportPromptTailSection2BraceFree()
    ensures '{' !in ReportPromptTailSection2
  {
    ReportPromptTail10BraceFree();
    ReportPromptTail11BraceFree();
    ReportPromptTail12BraceFree();
    ReportPromptTail13BraceFree();
    ReportPromptTail14BraceFree();
  }

  const ReportPromptTailSection3 := ReportPromptTail15 + ReportPromptTail16 + ReportPromptTail17 + ReportPromptTail18 + ReportPromptTail19

  lemma ReportPromptTailSection3BraceFree()
    ensures '{' !in ReportPromptTailSection3
  {
    ReportPromptTail15BraceFree();
    ReportPromptTail16BraceFree();
    ReportPromptTail17BraceFree();
    ReportPromptTail18BraceFree();
    ReportPromptTail19BraceFree();
  }

  const ReportPromptTailSection4 := ReportPromptTail20 + ReportPromptTail21 + ReportPromptTail22 + ReportPromptTail23

  lemma ReportPromptTailSection4BraceFree()
    ensures '{' !in ReportPromptTailSection4
  {
    ReportPromptTail20BraceFree();
    ReportPromptTail21BraceFree();
    ReportPromptTail22BraceFree();
    ReportPromptTail23BraceFree();
  }

  const ReportPromptTail := ReportPromptTailSection0 + ReportPromptTailSection1 + ReportPromptTailSection2 + ReportPromptTailSection3 + ReportPromptTailSection4

  lemma ReportPromptTailBraceFree()
    ensures '{' !in ReportPromptTail
  {
    ReportPromptTailSection0BraceFree();
    ReportPromptTailSection1BraceFree();
    ReportPromptTailSection2BraceFree();
    ReportPromptTailSection3BraceFree();
    ReportPromptTailSection4BraceFree();
  }

  const ThemePromptHead0 :=
    "Based on the content of " +
    "the following incident "

  lemma ThemePromptHead0BraceFree()
    ensures '{' !in ThemePromptHead0
  {
  }

  const ThemePromptHead1 :=
    "reports, identify 3 to 5 " +
    "specific, recurring "

  lemma ThemePromptHead1BraceFree()
    ensures '{' !in ThemePromptHead1
  {
  }

  const ThemePromptHead2 :=
    "sub-themes. For each " +
    "theme, count how many "

  lemma ThemePromptHead2BraceFree()
    ensures '{' !in ThemePromptHead2
  {
  }

  const ThemePromptHead3 :=
    "reports mention it. " +
    "Provide a brief, "

  lemma ThemePromptHead3BraceFree()
    ensures '{' !in ThemePromptHead3
  {
  }

  const ThemePromptHead4 :=
    "descriptive name for each " +
    "theme. The reports are "

  lemma ThemePromptHead4BraceFree()
    ensures '{' !in ThemePromptHead4
  {
  }

  const ThemePromptHead5 :=
    "all within the category: '"

  lemma ThemePromptHead5BraceFree()
    ensures '{' !in ThemePromptHead5
  {
  }

  const ThemePromptHeadSection0 := ThemePromptHead0 + ThemePromptHead1 + ThemePromptHead2 + ThemePromptHead3 + ThemePromptHead4

  lemma ThemePromptHeadSection0BraceFree()
    ensures '{' !in ThemePromptHeadSection0
  {
    ThemePromptHead0BraceFree();
    ThemePromptHead1BraceFree();
    ThemePromptHead2BraceFree();
    ThemePromptHead3BraceFree();
    ThemePromptHead4BraceFree();
  }

  const ThemePromptHeadSection1 := ThemePromptHead5

  lemma ThemePromptHeadSection1BraceFree()
    ensures '{' !in ThemePromptHeadSection1
  {
    ThemePromptHead5BraceFree();
  }

  const ThemePromptHead := ThemePromptHeadSection0 + ThemePromptHeadSection1

  lemma ThemePromptHeadBraceFree()
    ensures '{' !in ThemePromptHead
  {
    ThemePromptHeadSection0BraceFree();
    ThemePromptHeadSection1BraceFree();
  }

  const ThemePromptTail0 :=
    "'. Focus on concrete " +
    "actions or topics. For "

  lemma ThemePromptTail0BraceFree()
    ensures '{' !in ThemePromptTail0
  {
  }

  const ThemePromptTail1 :=
    "example, for " +
    "'Communication Issue', "

  lemma ThemePromptTail1BraceFree()
    ensures '{' !in ThemePromptTail1
  {
  }

  const ThemePromptTail2 :=
    "good themes would be " +
    "'Disagreements via text', "

  lemma ThemePromptTail2BraceFree()
    ensures '{' !in ThemePromptTail2
  {
  }

  const ThemePromptTail3 :=
    "'Unanswered calls', or " +
    "'Last-minute changes'. "

  lemma ThemePromptTail3BraceFree()
    ensures '{' !in ThemePromptTail3
  {
  }

  const ThemePromptTail4 :=
    "Avoid vague themes. The " +
    "output MUST be a valid "

  lemma ThemePromptTail4BraceFree()
    ensures '{' !in ThemePromptTail4
  {
  }

  const ThemePromptTail5 :=
    "JSON array of objects, " +
    "each with 'name' (the "

  lemma ThemePromptTail5BraceFree()
    ensures '{' !in ThemePromptTail5
  {
  }

  const ThemePromptTail6 :=
    "theme) and 'value' (the " +
    "count). Do not add any "

  lemma ThemePromptTail6BraceFree()
    ensures '{' !in ThemePromptTail6
  {
  }

  const ThemePromptTail7 :=
    "other text."

  lemma ThemePromptTail7BraceFree()
    ensures '{' !in ThemePromptTail7
  {
  }

  const ThemePromptTailSection0 := ThemePromptTail0 + ThemePromptTail1 + ThemePromptTail2 + ThemePromptTail3 + ThemePromptTail4

  lemma ThemePromptTailSection0BraceFree()
    ensures '{' !in ThemePromptTailSection0
  {
    ThemePromptTail0BraceFree();
    ThemePromptTail1BraceFree();
    ThemePromptTail2BraceFree();
    ThemePromptTail3BraceFree();
    ThemePromptTail4BraceFree();
  }

  const ThemePromptTailSection1 := ThemePromptTail5 + ThemePromptTail6 + ThemePromptTail7

  lemma ThemePromptTailSection1BraceFree()
    ensures '{' !in ThemePromptTailSection1
  {
    ThemePromptTail5BraceFree();
    ThemePromptTail6BraceFree();
    ThemePromptTail7BraceFree();
  }

  const ThemePromptTail := ThemePromptTailSection0 + ThemePromptTailSection1

  lemma ThemePromptTailBraceFree()
    ensures '{' !in ThemePromptTail
  {
    ThemePromptTailSection0BraceFree();
    ThemePromptTailSection1BraceFree();
  }
}
