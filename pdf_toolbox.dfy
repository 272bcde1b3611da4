/**
 * The PDFToolbox panel of components/ToolRenderer.tsx: its uploaded file
 * list, the processing flag, the result handle and the reader's preview,
 * and the handlers that update them.
 */
module PdfToolbox {
  import opened Optional
  import opened Types
  import opened ObjectUrls
  import opened PdfDocuments

  /** What an object URL of this panel was created for. */
  datatype PdfBlob = FileBlob(file: PdfFile) | DocBlob(doc: Document)

  class PDFToolbox {
    const tool: Tool
    const urls: Registry<PdfBlob>
    var files: seq<PdfFile>
    var processing: bool
    var resultUrl: Option<Artifact>
    var pdfPreview: Option<ObjectUrl>
    var resizeOption: string
    /** Serials of every preview URL this panel has created. */
    ghost var previews: set<nat>

    /** The handles this panel holds point at what they were created for. */
    ghost predicate Valid()
      reads this, urls
    {
      (pdfPreview.Some? ==> pdfPreview.value.serial in previews) &&
      (forall n | n in previews :: n < |urls.targets| && urls.targets[n].FileBlob?) &&
      (resultUrl.Some? && resultUrl.value.BlobUrl? ==>
        var n := resultUrl.value.url.serial;
        n < |urls.targets| && urls.targets[n].DocBlob?)
    }

    /** Every preview created, except the one shown, has been revoked. */
    ghost predicate NoLeakedPreview()
      reads this, urls
    {
      forall n | n in previews && n !in urls.revoked :: pdfPreview == Some(ObjectUrl(n))
    }

    constructor(tool: Tool)
      ensures this.tool == tool && fresh(urls) && urls.targets == [] && urls.revoked == {}
      ensures files == [] && !processing && resultUrl == None && pdfPreview == None
      ensures resizeOption == "A4" && previews == {}
      ensures Valid() && NoLeakedPreview()
    {
      this.tool := tool;
      urls := new Registry();
      files := [];
      processing := false;
      resultUrl := None;
      pdfPreview := None;
      resizeOption := "A4";
      previews := {};
    }

    /** With the invariant kept, at most one preview URL is live at any time. */
    lemma AtMostOneLivePreview()
      requires NoLeakedPreview()
      ensures |previews - urls.revoked| <= 1
    {
      var live := previews - urls.revoked;
      if live != {} {
        var x :| x in live;
        assert live == {x};
      }
    }

    /**
     * handleFileChange: the chosen files are appended after the current list;
     * for the reader, the previous preview is revoked and a preview of the
     * first new file is created.
     */
    method HandleFileChange(batch: seq<PdfFile>)
      requires Valid()
      modifies this`files, this`pdfPreview, this`previews, urls
      ensures Valid()
      ensures files == old(files) + batch
      ensures processing == old(processing) && resultUrl == old(resultUrl)
      ensures resizeOption == old(resizeOption)
      ensures if tool.id == "pdf-reader" && batch != [] then
          pdfPreview == Some(ObjectUrl(|old(urls.targets)|)) &&
          urls.targets == old(urls.targets) + [FileBlob(batch[0])] &&
          urls.revoked == old(urls.revoked) +
            (if old(pdfPreview).Some? then {old(pdfPreview).value.serial} else {}) &&
          previews == old(previews) + {|old(urls.targets)|}
        else
          pdfPreview == old(pdfPreview) && previews == old(previews) &&
          urls.targets == old(urls.targets) && urls.revoked == old(urls.revoked)
      ensures old(NoLeakedPreview()) ==> NoLeakedPreview()
    {
      if |batch| > 0 {
        files := files + batch;
        var firstFile := batch[0];
        if tool.id == "pdf-reader" {
          if pdfPreview.Some? {
            urls.Revoke(pdfPreview.value);
          }
          var u := urls.Create(FileBlob(firstFile));
          pdfPreview := Some(u);
          previews := previews + {u.serial};
        }
      }
    }

    /** The remove button of file `i`. */
    method RemoveFile(i: int)
      requires Valid()
      modifies this`files
      ensures Valid()
      ensures old(NoLeakedPreview()) ==> NoLeakedPreview()
      ensures 0 <= i < |old(files)| ==> files == old(files)[..i] + old(files)[i + 1..]
      ensures !(0 <= i < |old(files)|) ==> files == old(files)
      ensures processing == old(processing) && resultUrl == old(resultUrl)
      ensures pdfPreview == old(pdfPreview) && resizeOption == old(resizeOption)
      ensures previews == old(previews)
    {
      FilteredRemovesOne(files, i);
      files := Filtered(files, i);
    }

    /** The page-dimensions select of the resizer. */
    method SetResizeOption(option: string)
      requires Valid()
      modifies this`resizeOption
      ensures Valid()
      ensures old(NoLeakedPreview()) ==> NoLeakedPreview()
      ensures resizeOption == option
      ensures files == old(files) && processing == old(processing) && resultUrl == old(resultUrl)
      ensures pdfPreview == old(pdfPreview) && previews == old(previews)
    {
      resizeOption := option;
    }

    /**
     * processPDF. Returns the alert it shows. The new state is what Run says
     * of the tool, the files and the option: no files changes nothing; any
     * other run clears the result, then sets it to the produced blob, the
     * sentinel, or nothing on an error, and ends with `processing` false.
     */
    method ProcessPDF() returns (alert: Option<string>)
      requires Valid()
      modifies this`processing, this`resultUrl, urls
      ensures Valid()
      ensures files == old(files) && pdfPreview == old(pdfPreview) && previews == old(previews)
      ensures resizeOption == old(resizeOption) && urls.revoked == old(urls.revoked)
      ensures old(NoLeakedPreview()) ==> NoLeakedPreview()
      ensures match Run(tool.id, old(files), old(resizeOption))
        case EmptyInput =>
          alert == Some(SelectOneMessage) && processing == old(processing) &&
          resultUrl == old(resultUrl) && urls.targets == old(urls.targets)
        case Produced(doc) =>
          alert == None && !processing &&
          resultUrl == Some(BlobUrl(ObjectUrl(|old(urls.targets)|))) &&
          urls.targets == old(urls.targets) + [DocBlob(doc)]
        case Simulated(s) =>
          alert == None && !processing && resultUrl == Some(Mock(s)) &&
          urls.targets == old(urls.targets)
        case Failed(message) =>
          alert == Some(message) && !processing && resultUrl == None &&
          urls.targets == old(urls.targets)
    {
      if |files| == 0 {
        alert := Some(SelectOneMessage);
        return;
      }
      processing := true;
      resultUrl := None;
      alert := None;

      var outcome := RunTool(tool.id, files, resizeOption);

      match outcome {
        case Produced(doc) => Publish(doc);
        case Simulated(s) => resultUrl := Some(Mock(s));
        case Failed(message) => alert := Some(message);
        case EmptyInput =>
      }
      processing := false;
    }

    /** `setResultUrl(URL.createObjectURL(blob))` for a produced document. */
    method Publish(doc: Document)
      requires Valid()
      modifies this`resultUrl, urls
      ensures Valid()
      ensures resultUrl == Some(BlobUrl(ObjectUrl(|old(urls.targets)|)))
      ensures urls.targets == old(urls.targets) + [DocBlob(doc)] && urls.revoked == old(urls.revoked)
      ensures old(NoLeakedPreview()) ==> NoLeakedPreview()
    {
      var u := urls.Create(DocBlob(doc));
      resultUrl := Some(BlobUrl(u));
    }

    /**
     * "Start New Task": clears the file list, the result and the preview.
     * The preview URL is dropped without being revoked, so it stays live.
     */
    method Reset()
      requires Valid()
      modifies this`files, this`resultUrl, this`pdfPreview
      ensures Valid()
      ensures files == [] && resultUrl == None && pdfPreview == None
      ensures processing == old(processing) && resizeOption == old(resizeOption)
      ensures previews == old(previews)
      ensures old(pdfPreview).Some? && urls.Live(old(pdfPreview).value) ==> !NoLeakedPreview()
    {
      files := [];
      resultUrl := None;
      pdfPreview := None;
    }

    /** The link the result panel offers for the current result. */
    function ResultLink(): (link: Option<DownloadLink>)
      reads this
      ensures link.Some? <==> resultUrl.Some?
      ensures link.Some? ==> (link.value.clickAlert.None? <==> resultUrl.value.BlobUrl?)
      ensures link.Some? && resultUrl.value.BlobUrl? ==> link.value.href == ObjectUrls.Text(resultUrl.value.url)
      ensures link.Some? && resultUrl.value.Mock? ==>
        link.value.href == "#" && link.value.clickAlert == Some(MockDownloadMessage)
    {
      if resultUrl.Some? then Some(Download(tool.id, resultUrl.value)) else None
    }
  }

  /**
   * The try block of processPDF for a non-empty file list: the tool's branch,
   * ending in the document it produced, the error it threw, or the sentinel
   * it simulated.
   */
  method RunTool(toolId: string, files: seq<PdfFile>, option: string) returns (outcome: RunOutcome)
    requires files != []
    ensures outcome == Run(toolId, files, option)
  {
    if toolId == "pdf-merge" {
      if |files| < 2 {
        outcome := Failed(MergeNeedsTwoMessage);
      } else {
        var merged := MergeFiles(files);
        match merged {
          case Unreadable(r) => outcome := Failed(r);
          case Parsed(doc) => outcome := Produced(doc);
        }
      }
    } else if toolId == "pdf-resizer" {
      match files[0].content {
        case Unreadable(r) =>
          outcome := Failed(r);
        case Parsed(doc) =>
          var pages := ResizePages(doc, option);
          outcome := Produced(pages);
      }
    } else if toolId == "pdf-reduce" || toolId == "pdf-compress" {
      match files[0].content {
        case Unreadable(r) => outcome := Failed(r);
        case Parsed(doc) => outcome := Produced(doc);
      }
    } else if toolId == "pdf-to-excel" {
      outcome := Simulated(SimulatedExcel);
    } else {
      outcome := Simulated(SimulatedGeneric);
    }
  }

  /**
   * The merge loop of processPDF: each file is loaded in upload order and
   * its pages are copied onto the end of the merged document; the first
   * file that fails to load ends the merge with its error.
   */
  method MergeFiles(files: seq<PdfFile>) returns (merged: Content)
    ensures merged == MergeAll(files)
  {
    var pages: Document := [];
    var i := 0;
    while i < |files|
      invariant 0 <= i <= |files|
      invariant MergeAll(files[..i]) == Parsed(pages)
    {
      assert files[..i + 1][..i] == files[..i];
      match files[i].content {
        case Unreadable(r) =>
          MergeFailurePersists(files, i + 1, r);
          return Unreadable(r);
        case Parsed(donor) =>
          ghost var before := pages;
          for j := 0 to |donor|
            invariant pages == before + donor[..j]
          {
            pages := pages + [donor[j]];
          }
          assert donor[..|donor|] == donor;
      }
      i := i + 1;
    }
    assert files[..|files|] == files;
    merged := Parsed(pages);
  }

  /** The resize loop of processPDF: every page gets the size the option names. */
  method ResizePages(doc: Document, option: string) returns (pages: Document)
    ensures pages == Resized(doc, option)
  {
    pages := doc;
    var k := 0;
    while k < |pages|
      invariant 0 <= k <= |pages| == |doc|
      invariant forall j | 0 <= j < k :: pages[j] == ResizePage(doc[j], option)
      invariant forall j | k <= j < |doc| :: pages[j] == doc[j]
    {
      if option == "A4" {
        pages := pages[k := Page(595.0, 842.0)];
      } else if option == "Letter" {
        pages := pages[k := Page(612.0, 792.0)];
      } else if option == "Scale" {
        pages := pages[k := Page(pages[k].width * 0.5, pages[k].height * 0.5)];
      }
      k := k + 1;
    }
  }

  /**
   * In the reader, adding two batches in a row leaves only the second
   * preview live: the first was revoked when it was superseded.
   */
  method ReaderSupersedesPreview(tool: Tool, a: PdfFile, b: PdfFile)
    returns (first: ObjectUrl, second: ObjectUrl, firstLive: bool, secondLive: bool)
    requires tool.id == "pdf-reader"
    ensures first != second && !firstLive && secondLive
  {
    var box := new PDFToolbox(tool);
    box.HandleFileChange([a]);
    first := box.pdfPreview.value;
    box.HandleFileChange([b]);
    second := box.pdfPreview.value;
    firstLive := box.urls.Live(first);
    secondLive := box.urls.Live(second);
  }

  /**
   * In the reader, "Start New Task" between two uploads leaves both
   * previews live: the reset drops the first without revoking it.
   */
  method ReaderResetLeaksPreview(tool: Tool, a: PdfFile, b: PdfFile)
    returns (first: ObjectUrl, second: ObjectUrl, firstLive: bool, secondLive: bool)
    requires tool.id == "pdf-reader"
    ensures first != second && firstLive && secondLive
  {
    var box := new PDFToolbox(tool);
    box.HandleFileChange([a]);
    first := box.pdfPreview.value;
    box.Reset();
    box.HandleFileChange([b]);
    second := box.pdfPreview.value;
    firstLive := box.urls.Live(first);
    secondLive := box.urls.Live(second);
  }

  /** Merging two one-page documents yields a two-page result blob. */
  method MergeTwoOnePageFiles(tool: Tool, a: PdfFile, b: PdfFile) returns (result: Option<Artifact>, pages: nat)
    requires tool.id == "pdf-merge"
    requires a.content.Parsed? && |a.content.doc| == 1
    requires b.content.Parsed? && |b.content.doc| == 1
    ensures result.Some? && result.value.BlobUrl? && pages == 2
  {
    var box := new PDFToolbox(tool);
    box.HandleFileChange([a]);
    box.HandleFileChange([b]);
    assert box.files == [a, b];
    assert MergeAll([a, b][..1]) == Parsed(a.content.doc);
    var _ := box.ProcessPDF();
    result := box.resultUrl;
    var blob := box.urls.targets[result.value.url.serial];
    pages := |blob.doc|;
  }
}
