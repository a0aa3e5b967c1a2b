/**
 * The incident timeline: every report as a card, newest first, with its
 * content laid out line by line, its legal note and its tags, and buttons
 * that hand the report's id to the analysis and discussion views.
 */
module IncidentTimeline {
  import opened Wrappers
  import opened Types
  import opened Seqs
  import opened Strings
  import Sorting

  const HeadingMarker := "### "

  /** One line of a report's content as shown: a heading or a paragraph. */
  datatype Block = Heading(text: string) | Paragraph(text: string)

  /** A line that starts with the heading marker becomes a heading without the marker; any other line a paragraph. */
  function RenderLine(line: string): (b: Block)
    ensures b.Heading? <==> StartsWith(line, HeadingMarker)
    ensures b.Heading? ==> line == HeadingMarker + b.text
    ensures b.Paragraph? ==> b.text == line
  {
    if StartsWith(line, HeadingMarker) then Heading(line[|HeadingMarker|..]) else Paragraph(line)
  }

  /** The line a block was rendered from. */
  function SourceLine(b: Block): string {
    match b
    case Heading(t) => HeadingMarker + t
    case Paragraph(t) => t
  }

  /** The content split on line breaks, one block per line. */
  function RenderContent(content: string): (blocks: seq<Block>)
    ensures |blocks| == |Split(content, '\n')|
  {
    Map(RenderLine, Split(content, '\n'))
  }

  /** Nothing of the content is lost: the blocks' lines, joined with line breaks, give the content back. */
  lemma {:induction false} RenderContentLossless(content: string)
    ensures Join(Map(SourceLine, RenderContent(content)), "\n") == content
  {
    var lines := Split(content, '\n');
    var back := Map(SourceLine, RenderContent(content));
    assert |back| == |lines|;
    forall i | 0 <= i < |lines|
      ensures back[i] == lines[i]
    {
      assert back[i] == SourceLine(RenderLine(lines[i]));
    }
    assert back == lines;
    JoinSplit(content, '\n');
  }

  /** What one report's card shows and what its buttons hand over. */
  datatype Card = Card(
    category: string,
    blocks: seq<Block>,
    legalNote: Option<string>,
    tags: Option<seq<string>>,
    analyzeRequest: string,
    discussRequest: string)

  /** A report's card: the legal note only for a non-empty legal context, the tags (each marked with `#`) only when there are some. */
  function CardOf(r: Report): (c: Card)
    ensures c.category == r.category && c.blocks == RenderContent(r.content)
    ensures c.legalNote.Some? <==> r.legalContext.Some? && r.legalContext.value != []
    ensures c.legalNote.Some? ==> c.legalNote == r.legalContext
    ensures c.tags.Some? <==> |r.tags| > 0
    ensures c.tags.Some? ==> |c.tags.value| == |r.tags|
    ensures c.tags.Some? ==> forall i :: 0 <= i < |r.tags| ==> c.tags.value[i] == "#" + r.tags[i]
    ensures c.analyzeRequest == r.id && c.discussRequest == r.id
  {
    Card(r.category,
         RenderContent(r.content),
         if r.legalContext.Some? && r.legalContext.value != [] then r.legalContext else None,
         if |r.tags| > 0 then Some(Map((t: string) => "#" + t, r.tags)) else None,
         r.id, r.id)
  }

  /** The timeline shows the empty state, or the cards. */
  datatype Screen = EmptyState | Cards(cards: seq<Card>)

  /**
   * Rendering the timeline: with no reports only the empty state; otherwise
   * the reports array is sorted newest first in place, equal-time reports
   * keeping their order, and one card is shown per report in that order.
   */
  method RenderTimeline(reports: array<Report>) returns (screen: Screen)
    modifies reports
    ensures screen == EmptyState <==> reports.Length == 0
    ensures screen.Cards? ==>
      && reports[..] == Sorting.InsertionSorted(old(reports[..]), true)
      && Sorting.Chronological(reports[..], true)
      && multiset(reports[..]) == multiset(old(reports[..]))
      && (forall key :: Sorting.Tied(reports[..], key, true) == Sorting.Tied(old(reports[..]), key, true))
      && screen.cards == Map(CardOf, reports[..])
  {
    if reports.Length == 0 {
      return EmptyState;
    }
    Sorting.SortByCreatedAt(reports, true);
    screen := Cards(Map(CardOf, reports[..]));
  }
}
