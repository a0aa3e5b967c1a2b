/**
 * The evidence package builder: a dialog in which the user picks library
 * documents to add to the selected incidents and has the assistant compile
 * them into one package. The generator itself is outside the model; each
 * call is given by its outcome.
 */
module EvidencePackageBuilder {
  import opened Wrappers
  import opened Types
  import opened Seqs
  import Sorting
  import GeminiService

  /** What the package shows after a failed generation. */
  const PackageError := "An error occurred while generating the package. Please try again."

  /** A generated package counts as present when it is a non-empty string. */
  predicate HasPackage(p: Option<string>) {
    p.Some? && p.value != []
  }

  /** The documents handed to the generator: the library documents whose ids are selected, in library order. */
  function SelectedDocuments(allDocuments: seq<StoredDocument>, ids: set<string>): (r: seq<StoredDocument>)
    ensures forall d :: d in r <==> d in allDocuments && d.id in ids
    ensures IsSubsequence(r, allDocuments)
    ensures forall d: StoredDocument :: d.id in ids ==> multiset(r)[d] == multiset(allDocuments)[d]
  {
    Filter(allDocuments, (d: StoredDocument) => d.id in ids)
  }

  /** Which part of the dialog's body is shown. */
  datatype Body = Hidden | Generating | Preview(text: string) | Selection

  /** Which buttons the footer holds. */
  datatype Footer = PackageActions | SelectionActions(generateDisabled: bool)

  class Builder {
    var selectedDocumentIds: set<string>
    var isLoading: bool
    var generatedPackage: Option<string>
    var isCopied: bool

    /** The initial state, which is also the state every opening resets to. */
    predicate Fresh()
      reads this
    {
      selectedDocumentIds == {} && !isLoading && generatedPackage.None? && !isCopied
    }

    constructor ()
      ensures Fresh()
    {
      selectedDocumentIds := {};
      isLoading := false;
      generatedPackage := None;
      isCopied := false;
    }

    /** The effect that runs when the dialog opens: every piece of state is reset. */
    method Open()
      modifies this
      ensures Fresh()
    {
      selectedDocumentIds := {};
      generatedPackage := None;
      isLoading := false;
      isCopied := false;
    }

    /** A checkbox flips the membership of its document, and of no other. */
    method ToggleDocumentSelection(docId: string)
      modifies this
      ensures docId in selectedDocumentIds <==> docId !in old(selectedDocumentIds)
      ensures forall id :: id != docId ==> (id in selectedDocumentIds <==> id in old(selectedDocumentIds))
      ensures isLoading == old(isLoading) && generatedPackage == old(generatedPackage) && isCopied == old(isCopied)
    {
      selectedDocumentIds := Toggled(selectedDocumentIds, docId);
    }

    /**
     * Generation: the selected documents are sent with the selected reports;
     * the package becomes the reply, or the fixed error text when the call
     * throws, and loading is over either way.
     */
    method GeneratePackage(allDocuments: seq<StoredDocument>, outcome: GeminiService.CallOutcome)
      returns (sent: seq<StoredDocument>)
      modifies this
      ensures sent == SelectedDocuments(allDocuments, selectedDocumentIds)
      ensures outcome.Replied? ==> generatedPackage == Some(outcome.text)
      ensures outcome.Threw? ==> generatedPackage == Some(PackageError)
      ensures !isLoading
      ensures selectedDocumentIds == old(selectedDocumentIds) && isCopied == old(isCopied)
    {
      isLoading := true;
      sent := SelectedDocuments(allDocuments, selectedDocumentIds);
      match outcome {
        case Replied(text) => generatedPackage := Some(text);
        case Threw(_) => generatedPackage := Some(PackageError);
      }
      isLoading := false;
    }

    /** Copying marks the package copied when there is one; the clipboard itself is outside the model. */
    method CopyToClipboard()
      modifies this
      ensures isCopied <==> old(isCopied) || HasPackage(generatedPackage)
      ensures selectedDocumentIds == old(selectedDocumentIds) && isLoading == old(isLoading)
      ensures generatedPackage == old(generatedPackage)
    {
      if HasPackage(generatedPackage) {
        isCopied := true;
      }
    }

    /** The body: nothing when closed, then the loading notice, the preview, or the selection lists. */
    function BodyShown(isOpen: bool): (b: Body)
      reads this
      ensures b == Hidden <==> !isOpen
      ensures b == Generating <==> isOpen && isLoading
      ensures b.Preview? <==> isOpen && !isLoading && HasPackage(generatedPackage)
      ensures b.Preview? ==> Some(b.text) == generatedPackage
    {
      if !isOpen then Hidden
      else if isLoading then Generating
      else if HasPackage(generatedPackage) then Preview(generatedPackage.value)
      else Selection
    }

    /** The footer: the package actions once there is a package, otherwise Cancel and a Generate button that needs reports and an idle builder. */
    function FooterShown(selectedReports: seq<Report>): (f: Footer)
      reads this
      ensures f == PackageActions <==> HasPackage(generatedPackage)
      ensures f.SelectionActions? ==> (f.generateDisabled <==> isLoading || |selectedReports| == 0)
    {
      if HasPackage(generatedPackage) then PackageActions
      else SelectionActions(isLoading || |selectedReports| == 0)
    }
  }

  /** A freshly opened builder offers Generate exactly when some report is selected. */
  lemma GenerateOfferedAfterOpen(b: Builder, selectedReports: seq<Report>)
    requires b.Fresh()
    ensures b.FooterShown(selectedReports) == SelectionActions(|selectedReports| == 0)
    ensures b.BodyShown(true) == Selection
  {
  }

  /**
   * The selected incidents as listed: sorted oldest first, in place, in the
   * array the parent passed in; equal-time reports keep their order.
   */
  method ListSelectedIncidents(selectedReports: array<Report>)
    modifies selectedReports
    ensures selectedReports[..] == Sorting.InsertionSorted(old(selectedReports[..]), false)
    ensures Sorting.Chronological(selectedReports[..], false)
    ensures multiset(selectedReports[..]) == multiset(old(selectedReports[..]))
    ensures forall key :: Sorting.Tied(selectedReports[..], key, false) == Sorting.Tied(old(selectedReports[..]), key, false)
  {
    Sorting.SortByCreatedAt(selectedReports, false);
  }
}
