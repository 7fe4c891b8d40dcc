/** The company documents card (components/CompanyDocumentsCard.tsx): four
    documents whose status moves to Uploading when a file is chosen and to
    Uploaded when the simulated upload finishes. */
module Documents {
  import opened Wrappers
  import opened Domain

  /** The card's starting list: only the GST certificate is on file. (Long
      texts are written as concatenations of short literals, which the
      verifier handles far more cheaply than one long literal.) */
  function InitialDocuments(): seq<CompanyDocument> {
    [
      CompanyDocument("doc-pan", "Company PAN Card",
        "Permanent Account Number "
        + "card of the business "
        + "entity.",
        NotUploaded),
      CompanyDocument("doc-gst", "GST Certificate",
        "Goods and Services Tax "
        + "registration certificate.",
        Uploaded),
      CompanyDocument("doc-incorp", "Certificate of Incorporation",
        "Official document of "
        + "company formation from "
        + "the ROC.",
        NotUploaded),
      CompanyDocument("doc-moa", "Memorandum of Association",
        "Governs the relationship "
        + "between the company and "
        + "the outside.",
        NotUploaded)
    ]
  }

  function Ids(docs: seq<CompanyDocument>): seq<string> {
    seq(|docs|, i requires 0 <= i < |docs| => docs[i].id)
  }

  predicate DistinctIds(docs: seq<CompanyDocument>) {
    forall i, j :: 0 <= i < j < |docs| ==> docs[i].id != docs[j].id
  }

  /** `docs.map(d => d.id === docId ? { ...d, status } : d)`. */
  function WithStatus(docs: seq<CompanyDocument>, docId: string, status: DocumentStatus): (r: seq<CompanyDocument>)
    ensures |r| == |docs|
    ensures forall i :: 0 <= i < |r| ==>
      r[i] == if docs[i].id == docId then docs[i].(status := status) else docs[i]
  {
    seq(|docs|, i requires 0 <= i < |docs| =>
      if docs[i].id == docId then docs[i].(status := status) else docs[i])
  }

  /** The two captions of a document's button. */
  datatype Label = UploadLabel | ViewReplaceLabel

  function LabelText(l: Label): string {
    match l
    case UploadLabel => "Upload"
    case ViewReplaceLabel => "View / Replace"
  }

  /** The button of a document, or None while it is hidden. */
  function ButtonLabel(s: DocumentStatus): (r: Option<Label>)
    ensures r.None? <==> s == Uploading
    ensures r == Some(ViewReplaceLabel) <==> s == Uploaded || s == Verified
    ensures r == Some(UploadLabel) <==> s == NotUploaded
  {
    if s.Uploading? then None
    else if s.Uploaded? || s.Verified? then Some(ViewReplaceLabel)
    else Some(UploadLabel)
  }

  /** The starting list has four documents with distinct ids, and the GST
      certificate is the only one uploaded. */
  lemma InitialState()
    ensures var docs := InitialDocuments();
      |docs| == 4 && docs[1].id == "doc-gst" && docs[1].status.Uploaded?
      && docs[0].status.NotUploaded? && docs[2].status.NotUploaded? && docs[3].status.NotUploaded?
  {
  }

  lemma InitialIdsDistinct()
    ensures DistinctIds(InitialDocuments())
  {
    var docs := InitialDocuments();
    assert docs[0].id[4] == 'p' && docs[1].id[4] == 'g' && docs[2].id[4] == 'i' && docs[3].id[4] == 'm';
  }

  /** A status update never changes the list's length, order or ids. */
  lemma WithStatusKeepsIds(docs: seq<CompanyDocument>, docId: string, status: DocumentStatus)
    ensures Ids(WithStatus(docs, docId, status)) == Ids(docs)
    ensures DistinctIds(docs) ==> DistinctIds(WithStatus(docs, docId, status))
  {
  }

  /** The later of two updates of the same document is the one that counts. */
  lemma WithStatusTwice(docs: seq<CompanyDocument>, docId: string, a: DocumentStatus, b: DocumentStatus)
    ensures WithStatus(WithStatus(docs, docId, a), docId, b) == WithStatus(docs, docId, b)
  {
  }

  /** Neither transition of the card produces 'Verified': a list with no
      verified document keeps none. */
  lemma NeverVerified(docs: seq<CompanyDocument>, docId: string, status: DocumentStatus)
    requires status == Uploading || status == Uploaded
    requires forall i :: 0 <= i < |docs| ==> docs[i].status != Verified
    ensures var r := WithStatus(docs, docId, status);
      forall i :: 0 <= i < |r| ==> r[i].status != Verified
  {
  }

  /** During an upload the chosen document's button is hidden; after it, the
      button offers "View / Replace". Other documents keep their buttons. */
  lemma UploadButtons(docs: seq<CompanyDocument>, docId: string, i: nat)
    requires i < |docs|
    ensures var mid := WithStatus(docs, docId, Uploading);
      var done := WithStatus(mid, docId, Uploaded);
      if docs[i].id == docId then
        ButtonLabel(mid[i].status) == None && ButtonLabel(done[i].status) == Some(ViewReplaceLabel)
      else
        ButtonLabel(mid[i].status) == ButtonLabel(docs[i].status)
        && ButtonLabel(done[i].status) == ButtonLabel(docs[i].status)
  {
  }

  class DocumentsCard {
    var documents: seq<CompanyDocument>

    /** The ids stay distinct: every update keeps the starting ids. */
    predicate Valid()
      reads this
    {
      DistinctIds(documents)
    }

    constructor ()
      ensures documents == InitialDocuments() && Valid()
    {
      documents := InitialDocuments();
      InitialIdsDistinct();
    }

    /** `handleFileSelect`: with no file nothing happens; otherwise the chosen
        document shows Uploading. */
    method HandleFileSelect(docId: string, fileChosen: bool)
      requires Valid()
      modifies this
      ensures Valid()
      ensures !fileChosen ==> documents == old(documents)
      ensures fileChosen ==> documents == WithStatus(old(documents), docId, Uploading)
      ensures Ids(documents) == Ids(old(documents))
    {
      if !fileChosen {
        return;
      }
      WithStatusKeepsIds(documents, docId, Uploading);
      documents := WithStatus(documents, docId, Uploading);
    }

    /** The timer callback two seconds later: the same document shows
        Uploaded. */
    method UploadFinished(docId: string)
      requires Valid()
      modifies this
      ensures Valid()
      ensures documents == WithStatus(old(documents), docId, Uploaded)
      ensures Ids(documents) == Ids(old(documents))
    {
      WithStatusKeepsIds(documents, docId, Uploaded);
      documents := WithStatus(documents, docId, Uploaded);
    }
  }
}
