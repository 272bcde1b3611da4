/**
 * The document side of the PDF suite in components/ToolRenderer.tsx
 * (PDFToolbox): documents as page sequences, what each `pdf-*` tool makes of
 * the uploaded files, the file-list removal, and the download link offered
 * for a result.
 */
module PdfDocuments {
  import opened Optional
  import opened JsStrings
  import opened ObjectUrls

  /** A page and its dimensions in PDF points. */
  datatype Page = Page(width: real, height: real)

  type Document = seq<Page>

  /** What PDFDocument.load makes of a file: its pages, or the error it throws. */
  datatype Content = Parsed(doc: Document) | Unreadable(reason: string)

  /** An uploaded file: name and byte size as the browser reports them, and its content. */
  datatype PdfFile = PdfFile(name: string, size: nat, content: Content)

  /** The two placeholder results of tools without a real implementation. */
  datatype Sentinel = SimulatedExcel | SimulatedGeneric

  /** The result handle: a created object URL, or a sentinel string. */
  datatype Artifact = BlobUrl(url: ObjectUrl) | Mock(sentinel: Sentinel)

  /**
   * The string the result handle is held as. The result panel tells a real
   * download from a placeholder by the `blob:` scheme alone.
   */
  function Href(a: Artifact): (r: string)
    ensures StartsWith(r, "blob:") <==> a.BlobUrl?
  {
    match a
    case BlobUrl(u) => Text(u)
    case Mock(SimulatedExcel) =>
      assert "SIMULATED_EXCEL"[..5][0] != "blob:"[0];
      "SIMULATED_EXCEL"
    case Mock(SimulatedGeneric) =>
      assert "SIMULATED_GENERIC"[..5][0] != "blob:"[0];
      "SIMULATED_GENERIC"
  }

  const SelectOneMessage := "Please select at least one PDF file."
  const MergeNeedsTwoMessage := "Please select at least 2 PDF files to merge."
  const MockDownloadMessage := "Success! Your Excel file has been generated (Mock Demo)."

  // ---------------------------------------------------------------------
  // Merge

  /**
   * The merge loop: each file is loaded in upload order and its pages are
   * appended to the merged document; the first file that fails to load
   * ends the merge with that file's error.
   */
  function MergeAll(files: seq<PdfFile>): (r: Content)
    ensures r.Unreadable? <==> !AllParsed(files)
  {
    if files == [] then Parsed([])
    else
      var init := files[..|files| - 1];
      assert AllParsed(files) <==> AllParsed(init) && files[|files| - 1].content.Parsed? by {
        assert forall k | 0 <= k < |init| :: init[k] == files[k];
      }
      match MergeAll(init)
      case Unreadable(r) => Unreadable(r)
      case Parsed(acc) =>
        match files[|files| - 1].content
        case Unreadable(r) => Unreadable(r)
        case Parsed(d) => Parsed(acc + d)
  }

  predicate AllParsed(files: seq<PdfFile>) {
    forall k | 0 <= k < |files| :: files[k].content.Parsed?
  }

  /** All pages of all files, first file first. */
  function Concat(files: seq<PdfFile>): Document
    requires AllParsed(files)
  {
    if files == [] then [] else files[0].content.doc + Concat(files[1..])
  }

  /** The sum of the files' page counts. */
  function TotalPages(files: seq<PdfFile>): nat
    requires AllParsed(files)
  {
    if files == [] then 0 else |files[0].content.doc| + TotalPages(files[1..])
  }

  lemma {:induction false} ConcatLength(files: seq<PdfFile>)
    requires AllParsed(files)
    ensures |Concat(files)| == TotalPages(files)
  {
    if files != [] {
      ConcatLength(files[1..]);
    }
  }

  lemma {:induction false} ConcatSnoc(files: seq<PdfFile>, f: PdfFile)
    requires AllParsed(files) && f.content.Parsed?
    ensures AllParsed(files + [f])
    ensures Concat(files + [f]) == Concat(files) + f.content.doc
  {
    var all := files + [f];
    assert forall k | 0 <= k < |all| :: all[k] == if k < |files| then files[k] else f;
    if files != [] {
      assert all[1..] == files[1..] + [f];
      ConcatSnoc(files[1..], f);
    }
  }

  /** When every file loads, the merged document is the concatenation of all their pages. */
  lemma {:induction false} MergeAllConcatenates(files: seq<PdfFile>)
    requires AllParsed(files)
    ensures MergeAll(files) == Parsed(Concat(files))
  {
    if files != [] {
      var init := files[..|files| - 1];
      var last := files[|files| - 1];
      assert AllParsed(init);
      MergeAllConcatenates(init);
      ConcatSnoc(init, last);
      assert init + [last] == files;
    }
  }

  /** The first file that fails to load decides the merge's error. */
  lemma {:induction false} MergeAllFailsAtFirstUnreadable(files: seq<PdfFile>, k: int)
    requires 0 <= k < |files| && files[k].content.Unreadable?
    requires AllParsed(files[..k])
    ensures MergeAll(files) == Unreadable(files[k].content.reason)
  {
    var init := files[..|files| - 1];
    if k == |files| - 1 {
      assert init == files[..k];
      MergeAllConcatenates(init);
    } else {
      assert init[..k] == files[..k];
      MergeAllFailsAtFirstUnreadable(init, k);
    }
  }

  /** Once a prefix of the files fails to merge, the whole merge fails with the same error. */
  lemma {:induction false} MergeFailurePersists(files: seq<PdfFile>, n: nat, r: string)
    requires n <= |files| && MergeAll(files[..n]) == Unreadable(r)
    ensures MergeAll(files) == Unreadable(r)
    decreases |files| - n
  {
    if n < |files| {
      var init := files[..|files| - 1];
      assert init[..n] == files[..n];
      MergeFailurePersists(init, n, r);
    } else {
      assert files[..n] == files;
    }
  }

  /** The index of the first file that fails to load, if any. */
  function FirstUnreadable(files: seq<PdfFile>): (r: Option<nat>)
    ensures r.None? <==> AllParsed(files)
    ensures r.Some? ==> r.value < |files| && files[r.value].content.Unreadable? && AllParsed(files[..r.value])
  {
    if files == [] then None
    else if files[0].content.Unreadable? then
      assert AllParsed(files[..0]);
      Some(0)
    else
      var r := FirstUnreadable(files[1..]);
      assert forall k | 1 <= k < |files| :: files[k] == files[1..][k - 1];
      if r.None? then None
      else
        assert files[..r.value + 1] == [files[0]] + files[1..][..r.value];
        Some(r.value + 1)
  }

  // ---------------------------------------------------------------------
  // Resize

  /** The per-page callback of the resizer. */
  function ResizePage(p: Page, option: string): Page {
    if option == "A4" then Page(595.0, 842.0)
    else if option == "Letter" then Page(612.0, 792.0)
    else if option == "Scale" then Page(p.width * 0.5, p.height * 0.5)
    else p
  }

  function Resized(doc: Document, option: string): (r: Document)
    ensures |r| == |doc|
  {
    seq(|doc|, k requires 0 <= k < |doc| => ResizePage(doc[k], option))
  }

  // ---------------------------------------------------------------------
  // processPDF

  /** What one run of processPDF produces. */
  datatype RunOutcome =
    | EmptyInput                    // no files: the alert, and nothing else happens
    | Produced(doc: Document)       // a new PDF blob with these pages
    | Simulated(sentinel: Sentinel) // a placeholder result
    | Failed(message: string)       // the error alerted; no result

  /** processPDF for the tool `toolId`, the uploaded files and the selected resize option. */
  function Run(toolId: string, files: seq<PdfFile>, option: string): (r: RunOutcome)
    ensures r.EmptyInput? <==> files == []
    ensures r.Produced? ==> toolId in {"pdf-merge", "pdf-resizer", "pdf-reduce", "pdf-compress"}
    ensures r.Simulated? <==> files != [] && toolId !in {"pdf-merge", "pdf-resizer", "pdf-reduce", "pdf-compress"}
  {
    if files == [] then EmptyInput
    else if toolId == "pdf-merge" then
      if |files| < 2 then Failed(MergeNeedsTwoMessage)
      else
        match MergeAll(files)
        case Parsed(d) => Produced(d)
        case Unreadable(r) => Failed(r)
    else if toolId == "pdf-resizer" then
      match files[0].content
      case Parsed(d) => Produced(Resized(d, option))
      case Unreadable(r) => Failed(r)
    else if toolId == "pdf-reduce" || toolId == "pdf-compress" then
      match files[0].content
      case Parsed(d) => Produced(d)
      case Unreadable(r) => Failed(r)
    else if toolId == "pdf-to-excel" then Simulated(SimulatedExcel)
    else Simulated(SimulatedGeneric)
  }

  /** With no file selected every tool only alerts. */
  lemma {:induction false} RunNeedsAFile(toolId: string, option: string)
    ensures Run(toolId, [], option) == EmptyInput
  {
  }

  /** Merging a single file is refused with the "at least 2" message and produces nothing. */
  lemma {:induction false} MergeNeedsTwoFiles(f: PdfFile, option: string)
    ensures Run("pdf-merge", [f], option) == Failed(MergeNeedsTwoMessage)
  {
  }

  /**
   * Merging two or more readable files yields all their pages in upload
   * order, so the page count is the sum of the files' page counts.
   */
  lemma MergeResult(files: seq<PdfFile>, option: string)
    requires |files| >= 2 && AllParsed(files)
    ensures Run("pdf-merge", files, option) == Produced(Concat(files))
    ensures |Concat(files)| == TotalPages(files)
  {
    MergeAllConcatenates(files);
    ConcatLength(files);
  }

  /** A merge with an unreadable file fails with the error of the first such file. */
  lemma MergeFailure(files: seq<PdfFile>, option: string)
    requires |files| >= 2 && !AllParsed(files)
    ensures FirstUnreadable(files).Some?
    ensures Run("pdf-merge", files, option) == Failed(files[FirstUnreadable(files).value].content.reason)
  {
    MergeAllFailsAtFirstUnreadable(files, FirstUnreadable(files).value);
  }

  /**
   * The resizer reads the first file only and applies the selected option
   * to every page: A4 is 595 x 842, Letter is 612 x 792, Scale halves both
   * dimensions, and any other option leaves the pages as they are.
   */
  lemma ResizeResult(files: seq<PdfFile>, option: string)
    requires files != [] && files[0].content.Parsed?
    ensures Run("pdf-resizer", files, option) == Run("pdf-resizer", files[..1], option)
    ensures Run("pdf-resizer", files, option).Produced?
    ensures var d, r := files[0].content.doc, Run("pdf-resizer", files, option).doc;
      |r| == |d| &&
      forall k | 0 <= k < |d| ::
        (option == "A4" ==> r[k] == Page(595.0, 842.0)) &&
        (option == "Letter" ==> r[k] == Page(612.0, 792.0)) &&
        (option == "Scale" ==> r[k] == Page(d[k].width / 2.0, d[k].height / 2.0)) &&
        (option !in {"A4", "Letter", "Scale"} ==> r[k] == d[k])
  {
  }

  /** Switching between A4 and Letter changes the output of a non-empty document. */
  lemma ResizeOptionsDiffer(files: seq<PdfFile>)
    requires files != [] && files[0].content.Parsed? && files[0].content.doc != []
    ensures Run("pdf-resizer", files, "A4") != Run("pdf-resizer", files, "Letter")
  {
    var d := files[0].content.doc;
    assert Resized(d, "A4")[0] != Resized(d, "Letter")[0];
  }

  /** Reduce and compress re-save the first file: same pages, nothing else read. */
  lemma CompressKeepsPages(toolId: string, files: seq<PdfFile>, option: string)
    requires toolId == "pdf-reduce" || toolId == "pdf-compress"
    requires files != [] && files[0].content.Parsed?
    ensures Run(toolId, files, option) == Produced(files[0].content.doc)
  {
  }

  /** The resizer, reduce and compress fail with the first file's error when that file does not load. */
  lemma FirstFileUnreadable(toolId: string, files: seq<PdfFile>, option: string)
    requires toolId in {"pdf-resizer", "pdf-reduce", "pdf-compress"}
    requires files != [] && files[0].content.Unreadable?
    ensures Run(toolId, files, option) == Failed(files[0].content.reason)
  {
  }

  /** Excel conversion and every unrecognised `pdf-*` tool give a sentinel, whatever the files hold. */
  lemma SimulatedTools(toolId: string, files: seq<PdfFile>, option: string)
    requires files != []
    requires toolId !in {"pdf-merge", "pdf-resizer", "pdf-reduce", "pdf-compress"}
    ensures Run(toolId, files, option) ==
      Simulated(if toolId == "pdf-to-excel" then SimulatedExcel else SimulatedGeneric)
  {
  }

  // ---------------------------------------------------------------------
  // The file list

  /** `s.filter((_, idx) => idx !== i)` */
  function Filtered<T>(s: seq<T>, i: int): (r: seq<T>)
    ensures |r| == if 0 <= i < |s| then |s| - 1 else |s|
  {
    if s == [] then [] else (if i == 0 then [] else [s[0]]) + Filtered(s[1..], i - 1)
  }

  /**
   * Removing position `i` deletes exactly that element and keeps the others
   * in their order; a position outside the list removes nothing.
   */
  lemma {:induction false} FilteredRemovesOne<T>(s: seq<T>, i: int)
    ensures 0 <= i < |s| ==> Filtered(s, i) == s[..i] + s[i + 1..]
    ensures !(0 <= i < |s|) ==> Filtered(s, i) == s
  {
    if s != [] {
      FilteredRemovesOne(s[1..], i - 1);
      if 0 < i < |s| {
        assert s[..i] == [s[0]] + s[1..][..i - 1];
        assert s[i + 1..] == s[1..][i..];
      } else if i != 0 {
        assert s == [s[0]] + s[1..];
      }
    }
  }

  // ---------------------------------------------------------------------
  // The download link of the result panel

  /** The result anchor: its href, its download file name, and the alert a click shows instead of a download. */
  datatype DownloadLink = DownloadLink(href: string, filename: string, clickAlert: Option<string>)

  function Download(toolId: string, result: Artifact): (link: DownloadLink)
    ensures link.clickAlert.None? <==> result.BlobUrl?
    ensures result.BlobUrl? ==> link.href == Text(result.url)
    ensures result.Mock? ==> link.href == "#" && link.clickAlert == Some(MockDownloadMessage)
  {
    var href := Href(result);
    var name := toolId + "-result." + (if toolId == "pdf-to-excel" then "xlsx" else "pdf");
    if StartsWith(href, "blob:") then DownloadLink(href, name, None)
    else DownloadLink("#", name, Some(MockDownloadMessage))
  }
}
