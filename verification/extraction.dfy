/**
 The `analyze_pdf` activity: download the input blob, have the layout
 analysis service read it, and concatenate the content of every recognised
 line, page by page and line by line, with nothing in between.
 */
module Extraction {
  import opened Outcomes

  type Bytes = seq<bv8>

  /** What the layout service reports: the pages in document order, each as
      the contents of its lines in reading order. */
  type Pages = seq<seq<string>>

  const InputContainer := "input"
  const LayoutModel := "prebuilt-layout"
  const Locale := "en-US"

  /** One `begin_analyze_document` call. */
  datatype AnalyzeRequest = AnalyzeRequest(modelId: string, document: Bytes, locale: string)

  /** The strings one after another, with no separator. */
  function Concat(parts: seq<string>): string {
    if |parts| == 0 then "" else parts[0] + Concat(parts[1..])
  }

  /** Every line of every page, pages in order and lines in order within a page. */
  function AllLines(pages: Pages): seq<string> {
    if |pages| == 0 then [] else pages[0] + AllLines(pages[1..])
  }

  /** The extracted document text. */
  function DocumentText(pages: Pages): string {
    Concat(AllLines(pages))
  }

  function TotalLength(parts: seq<string>): nat {
    if |parts| == 0 then 0 else |parts[0]| + TotalLength(parts[1..])
  }

  lemma {:induction false} ConcatAppend(a: seq<string>, b: seq<string>)
    ensures Concat(a + b) == Concat(a) + Concat(b)
    decreases |a|
  {
    if |a| == 0 {
      assert a + b == b;
    } else {
      assert (a + b)[1..] == a[1..] + b;
      ConcatAppend(a[1..], b);
    }
  }

  lemma {:induction false} AllLinesAppend(p: Pages, q: Pages)
    ensures AllLines(p + q) == AllLines(p) + AllLines(q)
    decreases |p|
  {
    if |p| == 0 {
      assert p + q == q;
    } else {
      assert (p + q)[1..] == p[1..] + q;
      AllLinesAppend(p[1..], q);
    }
  }

  /** Text extraction distributes over splitting the document: the pages of
      the first part come before the pages of the second, with no separator. */
  lemma DocumentTextAppend(p: Pages, q: Pages)
    ensures DocumentText(p + q) == DocumentText(p) + DocumentText(q)
  {
    AllLinesAppend(p, q);
    ConcatAppend(AllLines(p), AllLines(q));
  }

  /** The text is exactly as long as all line contents together: no
      separator is inserted and nothing is dropped. */
  lemma {:induction false} DocumentTextLength(pages: Pages)
    ensures |DocumentText(pages)| == TotalLength(AllLines(pages))
  {
    ConcatLength(AllLines(pages));
  }

  lemma {:induction false} ConcatLength(parts: seq<string>)
    ensures |Concat(parts)| == TotalLength(parts)
    decreases |parts|
  {
    if |parts| > 0 {
      ConcatLength(parts[1..]);
    }
  }

  lemma {:induction false} AllLinesMembers(pages: Pages)
    ensures forall p, l :: 0 <= p < |pages| && 0 <= l < |pages[p]| ==> pages[p][l] in AllLines(pages)
    ensures forall x :: x in AllLines(pages) ==> exists p :: 0 <= p < |pages| && x in pages[p]
    decreases |pages|
  {
    if |pages| > 0 {
      AllLinesMembers(pages[1..]);
      assert forall p :: 1 <= p < |pages| ==> pages[p] == pages[1..][p - 1];
    }
  }

  lemma {:induction false} ConcatEmptyIff(parts: seq<string>)
    ensures Concat(parts) == "" <==> forall x :: x in parts ==> x == ""
    decreases |parts|
  {
    if |parts| > 0 {
      ConcatEmptyIff(parts[1..]);
      assert Concat(parts) == "" <==> parts[0] == "" && Concat(parts[1..]) == "";
      if forall x :: x in parts ==> x == "" {
        assert parts[0] in parts;
        assert forall x :: x in parts[1..] ==> x in parts;
      }
      if Concat(parts) == "" {
        assert forall x :: x in parts ==> x == parts[0] || x in parts[1..];
      }
    }
  }

  /** The text is empty exactly when every line of every page is empty; in
      particular a document with no pages, or only pages without lines,
      yields the empty string. */
  lemma DocumentTextEmptyIff(pages: Pages)
    ensures DocumentText(pages) == "" <==>
            forall p, l :: 0 <= p < |pages| && 0 <= l < |pages[p]| ==> pages[p][l] == ""
  {
    ConcatEmptyIff(AllLines(pages));
    AllLinesMembers(pages);
  }

  /** The nested `for page in result: for line in page.lines: doc +=
      line.content` loop of `analyze_pdf`. */
  method ConcatenateLines(pages: Pages) returns (doc: string)
    ensures doc == DocumentText(pages)
  {
    doc := "";
    var i := 0;
    while i < |pages|
      invariant 0 <= i <= |pages|
      invariant doc == DocumentText(pages[..i])
    {
      var page := pages[i];
      var j := 0;
      while j < |page|
        invariant 0 <= j <= |page|
        invariant doc == DocumentText(pages[..i]) + Concat(page[..j])
      {
        ConcatAppend(page[..j], [page[j]]);
        assert page[..j + 1] == page[..j] + [page[j]];
        doc := doc + page[j];
        j := j + 1;
      }
      assert page[..j] == page;
      assert pages[..i + 1] == pages[..i] + [page];
      DocumentTextAppend(pages[..i], [page]);
      assert AllLines([page]) == page by {
        assert [page][1..] == [];
      }
      i := i + 1;
    }
    assert pages[..i] == pages;
  }

  /** The activity: `download` stands for blob storage and `analyze` for the
      layout service; each yields its value or the message of the exception
      it raised. A failed download fails the activity without consulting the
      layout service. */
  function AnalyzePdf(
    blobName: string,
    download: (string, string) -> Result<Bytes>,
    analyze: AnalyzeRequest -> Result<Pages>): (r: Result<string>)
    ensures download(InputContainer, blobName).Fail? ==> r == Fail(download(InputContainer, blobName).error)
    ensures download(InputContainer, blobName).Ok? ==>
              var reply := analyze(AnalyzeRequest(LayoutModel, download(InputContainer, blobName).value, Locale));
              && (reply.Fail? ==> r == Fail(reply.error))
              && (reply.Ok? ==> r == Ok(DocumentText(reply.value)))
    ensures r.Ok? ==>
              var pages := analyze(AnalyzeRequest(LayoutModel, download(InputContainer, blobName).value, Locale)).value;
              |r.value| == TotalLength(AllLines(pages))
  {
    match download(InputContainer, blobName)
    case Fail(message) => Fail(message)
    case Ok(blob) =>
      match analyze(AnalyzeRequest(LayoutModel, blob, Locale))
      case Fail(message) => Fail(message)
      case Ok(pages) =>
        DocumentTextLength(pages);
        Ok(DocumentText(pages))
  }
}
