/** The PDF generation job: it reads an object's IIIF manifest, exits early
    when a PDF is already rendered or there are no images, otherwise fetches
    each large JPEG into one page of a new PDF and files that PDF under a new
    document list below the object. Network, store and file system are
    oracles; what the job asks of them lands in an effect trace. */
module GeneratePdf {
  import opened Wrappers
  import opened Strings

  // ---- The manifest ----

  /** The parts of a IIIF manifest the job looks at; absent keys are `None`. */
  datatype Rendering = Rendering(format: Option<string>)
  /** A canvas's images, each with the `@id` of its resource. */
  datatype Canvas = Canvas(images: seq<string>)
  datatype Sequence = Sequence(rendering: Option<seq<Rendering>>, canvases: Option<seq<Canvas>>)
  datatype Manifest = Manifest(sequences: Option<seq<Sequence>>)

  const PdfFormat := "application/pdf"

  /** `((manifest ?? {}).sequences ?? [])[0]`. */
  function FirstSequence(manifest: Option<Manifest>): Option<Sequence>
  {
    match manifest
    case None => None
    case Some(m) =>
      match m.sequences
      case None => None
      case Some(ss) => if |ss| == 0 then None else Some(ss[0])
  }

  /** The first sequence's rendering list, empty when any step is missing. */
  function Renderings(manifest: Option<Manifest>): seq<Rendering>
  {
    match FirstSequence(manifest)
    case None => []
    case Some(s) => s.rendering.GetOr([])
  }

  function FormatOf(r: Rendering): string
  {
    r.format.GetOr("")
  }

  /** Whether the manifest already lists a PDF rendering. */
  function HasPdfAlready(manifest: Option<Manifest>): bool
  {
    var rendering := Renderings(manifest);
    if |rendering| == 0 then false
    else PdfFormat in seq(|rendering|, i requires 0 <= i < |rendering| => FormatOf(rendering[i]))
  }

  /** A PDF is already there exactly when a rendering of the first sequence
      has the PDF format; a missing manifest, sequence or rendering list has none. */
  lemma HasPdfAlreadyIff(manifest: Option<Manifest>)
    ensures HasPdfAlready(manifest) <==>
      exists r :: r in Renderings(manifest) && r.format == Some(PdfFormat)
    ensures FirstSequence(manifest).None? ==> !HasPdfAlready(manifest)
  {
    var rendering := Renderings(manifest);
    var formats := seq(|rendering|, i requires 0 <= i < |rendering| => FormatOf(rendering[i]));
    if HasPdfAlready(manifest) {
      var i :| 0 <= i < |formats| && formats[i] == PdfFormat;
      assert rendering[i] in rendering && rendering[i].format == Some(PdfFormat);
    }
    if r :| r in rendering && r.format == Some(PdfFormat) {
      var i :| 0 <= i < |rendering| && rendering[i] == r;
      assert formats[i] == PdfFormat;
    }
  }

  /** The first sequence's canvases, empty when any step is missing. */
  function Canvases(manifest: Option<Manifest>): seq<Canvas>
  {
    match FirstSequence(manifest)
    case None => []
    case Some(s) => s.canvases.GetOr([])
  }

  /** The first image of every canvas, in canvas order; `None` when some
      canvas has no image (reading `images[0].resource` then throws). */
  function LargeJpegs(manifest: Option<Manifest>): Option<seq<string>>
  {
    var canvases := Canvases(manifest);
    if exists i :: 0 <= i < |canvases| && |canvases[i].images| == 0 then None
    else Some(seq(|canvases|, i requires 0 <= i < |canvases| && |canvases[i].images| > 0 => canvases[i].images[0]))
  }

  /** One JPEG per canvas, the `i`-th being canvas `i`'s first image; none
      without sequences. */
  lemma LargeJpegsInCanvasOrder(manifest: Option<Manifest>)
    ensures var canvases := Canvases(manifest);
      && (LargeJpegs(manifest).Some? <==> forall i :: 0 <= i < |canvases| ==> |canvases[i].images| > 0)
      && (LargeJpegs(manifest).Some? ==>
            && |LargeJpegs(manifest).value| == |canvases|
            && forall i :: 0 <= i < |canvases| ==> LargeJpegs(manifest).value[i] == canvases[i].images[0])
    ensures FirstSequence(manifest).None? ==> LargeJpegs(manifest) == Some([])
  {
  }

  // ---- Effects ----

  /** An object the factory is asked to build: model, title, state, parent. */
  datatype BuildRequest = BuildRequest(model: string, title: string, state: string, parent: string)

  datatype Effect =
    | Fetched(url: string)
    | Logged(message: string)
    | Ran(command: string)
    | LookedUp(pid: string)
    | Built(request: BuildRequest)
    | Sequenced(pid: string, parent: string, position: int)
    | AttachedFile(pid: string, file: string, stream: string, mimeType: string)
    | Removed(file: string)

  /** One page of the PDF: the JPEG it came from and its bytes. */
  datatype Page = Page(source: string, image: string)

  /** An HTTP answer: status code and body. */
  datatype Reply<T> = Reply(statusCode: int, body: T)

  /** What the job relies on outside itself. */
  datatype Services = Services(
    manifests: string -> Reply<Option<Manifest>>,
    images: string -> Reply<string>,
    /** The current state of an object in the store. */
    objectState: string -> string,
    /** The PID the factory gives a new object. */
    created: BuildRequest -> string,
    /** The name of the temporary file the PDF is written to. */
    pdfFile: string,
    /** The error a call after the pages throws, if it does: the OCR command,
        the object lookup, a build, the sequencing, the attachment of the file
        or its removal. */
    fault: Effect -> Option<string>)

  datatype Config = Config(vufindUrl: string, ocrmypdfPath: string)

  /** The trace, pages and failure of part of the job. */
  datatype Progress = Progress(effects: seq<Effect>, pages: seq<Page>, failure: Option<string>)

  function ImageFailure(statusCode: int, jpeg: string): string
  {
    "Unexpected status code (" + IntToString(statusCode) + ") for " + jpeg
  }

  /** The page loop over `jpegs`: each is fetched and becomes the next page,
      until the first answer other than 200 aborts the PDF. */
  function RenderPages(images: string -> Reply<string>, jpegs: seq<string>): Progress
    decreases |jpegs|
  {
    if |jpegs| == 0 then Progress([], [], None)
    else RenderStep(images, RenderPages(images, jpegs[..|jpegs| - 1]), jpegs[|jpegs| - 1])
  }

  /** One more page after `before`, unless `before` already failed. */
  function RenderStep(images: string -> Reply<string>, before: Progress, jpeg: string): Progress
  {
    if before.failure.Some? then before
    else
      var reply := images(jpeg);
      if reply.statusCode != 200 then
        var message := ImageFailure(reply.statusCode, jpeg);
        Progress(before.effects + [Fetched(jpeg), Logged(message)], before.pages, Some(message))
      else Progress(before.effects + [Fetched(jpeg)], before.pages + [Page(jpeg, reply.body)], None)
  }

  lemma RenderNext(images: string -> Reply<string>, jpegs: seq<string>, i: nat)
    requires i < |jpegs|
    ensures RenderPages(images, jpegs[..i + 1]) == RenderStep(images, RenderPages(images, jpegs[..i]), jpegs[i])
  {
    assert jpegs[..i + 1][..i] == jpegs[..i];
  }

  lemma {:induction false} RenderStopsAtFailure(images: string -> Reply<string>, jpegs: seq<string>, n: nat)
    requires n <= |jpegs|
    requires RenderPages(images, jpegs[..n]).failure.Some?
    ensures RenderPages(images, jpegs) == RenderPages(images, jpegs[..n])
    decreases |jpegs| - n
  {
    if n < |jpegs| {
      assert jpegs[..n + 1][..n] == jpegs[..n];
      RenderStopsAtFailure(images, jpegs, n + 1);
    } else {
      assert jpegs[..n] == jpegs;
    }
  }

  /** When every image answers 200 the PDF has one page per JPEG, in order. */
  lemma {:induction false} RenderOnePagePerJpeg(images: string -> Reply<string>, jpegs: seq<string>)
    requires forall i :: 0 <= i < |jpegs| ==> images(jpegs[i]).statusCode == 200
    ensures RenderPages(images, jpegs).failure.None?
    ensures |RenderPages(images, jpegs).pages| == |jpegs|
    ensures forall i :: 0 <= i < |jpegs| ==> RenderPages(images, jpegs).pages[i] == Page(jpegs[i], images(jpegs[i]).body)
    decreases |jpegs|
  {
    if |jpegs| > 0 {
      var init := jpegs[..|jpegs| - 1];
      assert forall i :: 0 <= i < |init| ==> init[i] == jpegs[i];
      RenderOnePagePerJpeg(images, init);
    }
  }

  /** The first JPEG answering other than 200 aborts the PDF with its code and URL,
      after every JPEG before it was fetched. */
  lemma {:induction false} RenderFailsAtFirstBadImage(images: string -> Reply<string>, jpegs: seq<string>, k: nat)
    requires k < |jpegs| && images(jpegs[k]).statusCode != 200
    requires forall i :: 0 <= i < k ==> images(jpegs[i]).statusCode == 200
    ensures RenderPages(images, jpegs).failure == Some(ImageFailure(images(jpegs[k]).statusCode, jpegs[k]))
    ensures |RenderPages(images, jpegs).pages| == k
  {
    var init := jpegs[..k];
    assert forall i :: 0 <= i < |init| ==> init[i] == jpegs[i];
    RenderOnePagePerJpeg(images, init);
    assert jpegs[..k + 1][..k] == init;
    RenderStopsAtFailure(images, jpegs, k + 1);
  }

  function ManifestUrl(config: Config, pid: string): string
  {
    config.vufindUrl + "/Item/" + pid + "/Manifest"
  }

  function ManifestFailure(statusCode: int, url: string): string
  {
    "Unexpected " + IntToString(statusCode) + " status for " + url
  }

  /** The OCR command run over the PDF in place, when a path is configured. */
  function OcrEffects(config: Config, pdf: string): seq<Effect>
  {
    if config.ocrmypdfPath != "" then [Ran(config.ocrmypdfPath + " " + pdf + " " + pdf)] else []
  }

  /** A PDF document at position `number` in `documentList`: it is built,
      then sequenced. */
  function DocumentEffects(services: Services, documentList: string, number: int, state: string): seq<Effect>
  {
    var request := BuildRequest("PDFData", "PDF", state, documentList);
    [Built(request), Sequenced(services.created(request), documentList, number)]
  }

  /** A document list under `pid`, the PDF document in it at position 1, and
      the file attached to that document as its master datastream. */
  function AddPdfEffects(services: Services, pid: string, pdf: string, state: string): seq<Effect>
  {
    var listPid := services.created(BuildRequest("ListCollection", "Document List", state, pid));
    var documentPid := services.created(BuildRequest("PDFData", "PDF", state, listPid));
    [Built(BuildRequest("ListCollection", "Document List", state, pid))]
      + DocumentEffects(services, listPid, 1, state)
      + [AttachedFile(documentPid, pdf, "MASTER", PdfFormat)]
  }

  /** The calls that file the PDF: the lookup of `pid`'s current state, the
      new objects in that state, and the removal of the temporary file. */
  function FilingEffects(services: Services, pid: string, pdf: string): seq<Effect>
  {
    [LookedUp(pid)] + AddPdfEffects(services, pid, pdf, services.objectState(pid)) + [Removed(pdf)]
  }

  /** The calls that follow a complete PDF: OCR, then filing. */
  function FinishEffects(config: Config, services: Services, pid: string, pdf: string): seq<Effect>
  {
    OcrEffects(config, pdf) + FilingEffects(services, pid, pdf)
  }

  /** The calls of `planned`, made in order: the first that throws ends the
      job with its error, and no later call is made. */
  function Attempt(fault: Effect -> Option<string>, planned: seq<Effect>): (r: Progress)
    ensures r.pages == []
    ensures |r.effects| <= |planned|
    decreases |planned|
  {
    if |planned| == 0 then Progress([], [], None)
    else
      match fault(planned[0])
      case Some(message) => Progress([planned[0]], [], Some(message))
      case None =>
        var rest := Attempt(fault, planned[1..]);
        Progress([planned[0]] + rest.effects, [], rest.failure)
  }

  /** The calls succeed iff none throws, and then all are made; otherwise
      they are made up to and including the first that throws, whose error
      is the failure. */
  lemma {:induction false} AttemptStopsAtFault(fault: Effect -> Option<string>, planned: seq<Effect>)
    ensures var r := Attempt(fault, planned);
      && (r.failure.None? <==> forall i :: 0 <= i < |planned| ==> fault(planned[i]).None?)
      && (r.failure.None? ==> r.effects == planned)
      && (r.failure.Some? ==>
            && 0 < |r.effects| <= |planned| && r.effects == planned[..|r.effects|]
            && fault(planned[|r.effects| - 1]) == r.failure
            && forall i :: 0 <= i < |r.effects| - 1 ==> fault(planned[i]).None?)
    decreases |planned|
  {
    if |planned| > 0 && fault(planned[0]).None? {
      var tail := planned[1..];
      AttemptStopsAtFault(fault, tail);
      assert forall i :: 0 < i < |planned| ==> planned[i] == tail[i - 1];
      var rest := Attempt(fault, tail);
      if rest.failure.Some? {
        assert planned[..|rest.effects| + 1] == [planned[0]] + tail[..|rest.effects|];
      }
    }
  }

  /** `first`, then `next` unless `first` has failed. */
  function AndThen(first: Progress, next: Progress): Progress
  {
    if first.failure.Some? then first
    else Progress(first.effects + next.effects, first.pages + next.pages, next.failure)
  }

  /** Making the calls of `a + b` is making those of `a` and, unless one of
      them throws, then those of `b`. */
  lemma {:induction false} AttemptAppend(fault: Effect -> Option<string>, a: seq<Effect>, b: seq<Effect>)
    ensures Attempt(fault, a + b) == AndThen(Attempt(fault, a), Attempt(fault, b))
    decreases |a|
  {
    if |a| == 0 {
      assert a + b == b;
    } else {
      var tail := a[1..];
      assert a == [a[0]] + tail;
      assert a + b == [a[0]] + (tail + b);
      AttemptCons(fault, a[0], tail);
      AttemptCons(fault, a[0], tail + b);
      if fault(a[0]).None? {
        AttemptAppend(fault, tail, b);
      }
    }
  }

  /** The first call either throws or is followed by the others. */
  lemma AttemptCons(fault: Effect -> Option<string>, e: Effect, rest: seq<Effect>)
    ensures Attempt(fault, [e] + rest) == match fault(e)
      case Some(message) => Progress([e], [], Some(message))
      case None => Progress([e] + Attempt(fault, rest).effects, [], Attempt(fault, rest).failure)
  {
    assert ([e] + rest)[0] == e && ([e] + rest)[1..] == rest;
  }

  /** When the calls of `head` all succeed and `e` throws, the calls stop
      right after `e`, with its error. */
  lemma AttemptFaultAfter(fault: Effect -> Option<string>, head: seq<Effect>, e: Effect, rest: seq<Effect>)
    requires forall i :: 0 <= i < |head| ==> fault(head[i]).None?
    requires fault(e).Some?
    ensures Attempt(fault, head + [e] + rest) == Progress(head + [e], [], fault(e))
  {
    AttemptStopsAtFault(fault, head);
    AttemptAppend(fault, head + [e], rest);
    AttemptAppend(fault, head, [e]);
    assert [e][1..] == [];
  }

  /** The job once the images are known: exit without images, otherwise
      the pages, then (if they all came) OCR and filing. */
  function ImagesJob(config: Config, services: Services, pid: string, jpegs: seq<string>): Progress
  {
    if |jpegs| == 0 then Progress([Logged(pid + " contains no images; exiting early.")], [], None)
    else
      var pages := RenderPages(services.images, jpegs);
      if pages.failure.Some? then pages
      else
        var finish := Attempt(services.fault, FinishEffects(config, services, pid, services.pdfFile));
        Progress(pages.effects + finish.effects, pages.pages, finish.failure)
  }

  /** The job once the manifest has been answered. */
  function ManifestJob(config: Config, services: Services, pid: string, url: string, reply: Reply<Option<Manifest>>): Progress
  {
    if reply.statusCode != 200 then
      var message := ManifestFailure(reply.statusCode, url);
      Progress([Logged(message)], [], Some(message))
    else if HasPdfAlready(reply.body) then
      Progress([Logged(pid + " already has a PDF; exiting early.")], [], None)
    else
      match LargeJpegs(reply.body)
      case None => Progress([], [], Some("TypeError"))
      case Some(jpegs) => ImagesJob(config, services, pid, jpegs)
  }

  /** The whole job for `pid`: fetch the manifest, then act on it. */
  function RunJob(config: Config, services: Services, pid: string): Progress
  {
    var url := ManifestUrl(config, pid);
    var rest := ManifestJob(config, services, pid, url, services.manifests(url));
    Progress([Fetched(url)] + rest.effects, rest.pages, rest.failure)
  }

  predicate Creates(effects: seq<Effect>)
  {
    exists i :: 0 <= i < |effects| && effects[i].Built?
  }

  predicate FetchesImage(effects: seq<Effect>, url: string)
  {
    exists i :: 0 <= i < |effects| && effects[i].Fetched? && effects[i].url != url
  }

  /** A manifest answer other than 200 fails the job with its code and URL,
      and nothing else is fetched or created. */
  lemma RunRejectsBadManifest(config: Config, services: Services, pid: string)
    requires services.manifests(ManifestUrl(config, pid)).statusCode != 200
    ensures var r := RunJob(config, services, pid);
      && r.failure == Some(ManifestFailure(services.manifests(ManifestUrl(config, pid)).statusCode, ManifestUrl(config, pid)))
      && !Creates(r.effects) && !FetchesImage(r.effects, ManifestUrl(config, pid))
  {
  }

  /** An existing PDF is checked first: the job then fetches no image and
      creates nothing, whatever the canvases hold. */
  lemma RunSkipsExistingPdf(config: Config, services: Services, pid: string)
    requires services.manifests(ManifestUrl(config, pid)).statusCode == 200
    requires HasPdfAlready(services.manifests(ManifestUrl(config, pid)).body)
    ensures var r := RunJob(config, services, pid);
      && r.failure.None? && r.pages == [] && !Creates(r.effects) && !FetchesImage(r.effects, ManifestUrl(config, pid))
  {
  }

  /** A manifest without images makes the job exit without creating anything. */
  lemma RunSkipsImagelessManifest(config: Config, services: Services, pid: string)
    requires services.manifests(ManifestUrl(config, pid)).statusCode == 200
    requires !HasPdfAlready(services.manifests(ManifestUrl(config, pid)).body)
    requires Canvases(services.manifests(ManifestUrl(config, pid)).body) == []
    ensures var r := RunJob(config, services, pid);
      && r.failure.None? && !Creates(r.effects)
      && r.effects == [Fetched(ManifestUrl(config, pid)), Logged(pid + " contains no images; exiting early.")]
  {
  }

  /** A bad image aborts the job before any object is created. */
  lemma RunCreatesNothingOnBadImage(config: Config, services: Services, pid: string)
    requires services.manifests(ManifestUrl(config, pid)).statusCode == 200
    requires !HasPdfAlready(services.manifests(ManifestUrl(config, pid)).body)
    requires LargeJpegs(services.manifests(ManifestUrl(config, pid)).body).Some?
    requires RenderPages(services.images, LargeJpegs(services.manifests(ManifestUrl(config, pid)).body).value).failure.Some?
    ensures RunJob(config, services, pid).failure.Some? && !Creates(RunJob(config, services, pid).effects)
  {
    var jpegs := LargeJpegs(services.manifests(ManifestUrl(config, pid)).body).value;
    RenderBuildsNothing(services.images, jpegs);
    var r := RunJob(config, services, pid);
    assert r.effects == [Fetched(ManifestUrl(config, pid))] + RenderPages(services.images, jpegs).effects;
  }

  lemma {:induction false} RenderBuildsNothing(images: string -> Reply<string>, jpegs: seq<string>)
    ensures forall i :: 0 <= i < |RenderPages(images, jpegs).effects| ==> RenderPages(images, jpegs).effects[i].Fetched? || RenderPages(images, jpegs).effects[i].Logged?
    decreases |jpegs|
  {
    if |jpegs| > 0 {
      RenderBuildsNothing(images, jpegs[..|jpegs| - 1]);
    }
  }

  /** Once every page has come, the job makes the calls of `FinishEffects`,
      stopping at the first that throws. */
  lemma RunFinishesByAttempt(config: Config, services: Services, pid: string)
    requires services.manifests(ManifestUrl(config, pid)).statusCode == 200
    requires !HasPdfAlready(services.manifests(ManifestUrl(config, pid)).body)
    requires LargeJpegs(services.manifests(ManifestUrl(config, pid)).body).Some?
    requires |LargeJpegs(services.manifests(ManifestUrl(config, pid)).body).value| > 0
    requires RenderPages(services.images, LargeJpegs(services.manifests(ManifestUrl(config, pid)).body).value).failure.None?
    ensures var pages := RenderPages(services.images, LargeJpegs(services.manifests(ManifestUrl(config, pid)).body).value);
      var finish := Attempt(services.fault, FinishEffects(config, services, pid, services.pdfFile));
      RunJob(config, services, pid) == Progress([Fetched(ManifestUrl(config, pid))] + pages.effects + finish.effects, pages.pages, finish.failure)
  {
    var url := ManifestUrl(config, pid);
    var jpegs := LargeJpegs(services.manifests(url).body).value;
    assert ManifestJob(config, services, pid, url, services.manifests(url)) == ImagesJob(config, services, pid, jpegs);
  }

  /** When none of the calls after the pages throws, the job runs OCR (when a
      command is configured), builds a "Document List" collection under
      `pid` and a "PDF" document in it at position 1, both in `pid`'s current
      state, attaches the PDF file as the document's master and removes the
      temporary file. */
  lemma RunFilesPdf(config: Config, services: Services, pid: string)
    requires services.manifests(ManifestUrl(config, pid)).statusCode == 200
    requires !HasPdfAlready(services.manifests(ManifestUrl(config, pid)).body)
    requires LargeJpegs(services.manifests(ManifestUrl(config, pid)).body).Some?
    requires |LargeJpegs(services.manifests(ManifestUrl(config, pid)).body).value| > 0
    requires RenderPages(services.images, LargeJpegs(services.manifests(ManifestUrl(config, pid)).body).value).failure.None?
    requires var planned := FinishEffects(config, services, pid, services.pdfFile);
      forall i :: 0 <= i < |planned| ==> services.fault(planned[i]).None?
    ensures var r := RunJob(config, services, pid);
      var pages := RenderPages(services.images, LargeJpegs(services.manifests(ManifestUrl(config, pid)).body).value);
      var state := services.objectState(pid);
      var listRequest := BuildRequest("ListCollection", "Document List", state, pid);
      var documentRequest := BuildRequest("PDFData", "PDF", state, services.created(listRequest));
      && r.failure.None?
      && r.pages == pages.pages
      && r.effects == [Fetched(ManifestUrl(config, pid))] + pages.effects + OcrEffects(config, services.pdfFile)
           + [LookedUp(pid), Built(listRequest), Built(documentRequest),
              Sequenced(services.created(documentRequest), services.created(listRequest), 1),
              AttachedFile(services.created(documentRequest), services.pdfFile, "MASTER", PdfFormat), Removed(services.pdfFile)]
  {
    RunFinishesByAttempt(config, services, pid);
    AttemptStopsAtFault(services.fault, FinishEffects(config, services, pid, services.pdfFile));
    FinishEffectsInFull(config, services, pid, services.pdfFile);
  }

  /** The calls after the pages, one by one. */
  lemma FinishEffectsInFull(config: Config, services: Services, pid: string, pdf: string)
    ensures var state := services.objectState(pid);
      var listRequest := BuildRequest("ListCollection", "Document List", state, pid);
      var documentRequest := BuildRequest("PDFData", "PDF", state, services.created(listRequest));
      FinishEffects(config, services, pid, pdf) == OcrEffects(config, pdf)
        + [LookedUp(pid), Built(listRequest), Built(documentRequest),
           Sequenced(services.created(documentRequest), services.created(listRequest), 1),
           AttachedFile(services.created(documentRequest), pdf, "MASTER", PdfFormat), Removed(pdf)]
  {
  }

  /** A build of the PDF document that throws leaves the document list in
      place: the job fails with that error, and nothing is sequenced,
      attached or removed. */
  lemma RunStopsAtDocumentFault(config: Config, services: Services, pid: string)
    requires services.manifests(ManifestUrl(config, pid)).statusCode == 200
    requires !HasPdfAlready(services.manifests(ManifestUrl(config, pid)).body)
    requires LargeJpegs(services.manifests(ManifestUrl(config, pid)).body).Some?
    requires |LargeJpegs(services.manifests(ManifestUrl(config, pid)).body).value| > 0
    requires RenderPages(services.images, LargeJpegs(services.manifests(ManifestUrl(config, pid)).body).value).failure.None?
    requires forall e :: e in OcrEffects(config, services.pdfFile) ==> services.fault(e).None?
    requires services.fault(LookedUp(pid)).None?
    requires var listRequest := BuildRequest("ListCollection", "Document List", services.objectState(pid), pid);
      && services.fault(Built(listRequest)).None?
      && services.fault(Built(BuildRequest("PDFData", "PDF", services.objectState(pid), services.created(listRequest)))).Some?
    ensures var r := RunJob(config, services, pid);
      var listRequest := BuildRequest("ListCollection", "Document List", services.objectState(pid), pid);
      var documentRequest := BuildRequest("PDFData", "PDF", services.objectState(pid), services.created(listRequest));
      && r.failure == services.fault(Built(documentRequest))
      && Built(listRequest) in r.effects
      && forall e :: e in r.effects ==> !e.Sequenced? && !e.AttachedFile? && !e.Removed?
  {
    var jpegs := LargeJpegs(services.manifests(ManifestUrl(config, pid)).body).value;
    var pages := RenderPages(services.images, jpegs);
    RenderBuildsNothing(services.images, jpegs);
    FinishStopsAtDocumentFault(config, services, pid, services.pdfFile);
    RunFinishesByAttempt(config, services, pid);
    var head := OcrEffects(config, services.pdfFile) + [LookedUp(pid)];
    var listRequest := BuildRequest("ListCollection", "Document List", services.objectState(pid), pid);
    var documentRequest := BuildRequest("PDFData", "PDF", services.objectState(pid), services.created(listRequest));
    var r := RunJob(config, services, pid);
    assert r.effects == [Fetched(ManifestUrl(config, pid))] + pages.effects + (head + [Built(listRequest), Built(documentRequest)]);
    forall e | e in r.effects ensures !e.Sequenced? && !e.AttachedFile? && !e.Removed? {
      if e !in [Fetched(ManifestUrl(config, pid))] + pages.effects && e !in head {
        assert e == Built(listRequest) || e == Built(documentRequest);
      }
    }
  }

  /** The calls after the pages stop at a throwing build of the PDF document,
      right after the document list was built. */
  lemma FinishStopsAtDocumentFault(config: Config, services: Services, pid: string, pdf: string)
    requires forall e :: e in OcrEffects(config, pdf) ==> services.fault(e).None?
    requires services.fault(LookedUp(pid)).None?
    requires var listRequest := BuildRequest("ListCollection", "Document List", services.objectState(pid), pid);
      && services.fault(Built(listRequest)).None?
      && services.fault(Built(BuildRequest("PDFData", "PDF", services.objectState(pid), services.created(listRequest)))).Some?
    ensures var listRequest := BuildRequest("ListCollection", "Document List", services.objectState(pid), pid);
      var documentRequest := BuildRequest("PDFData", "PDF", services.objectState(pid), services.created(listRequest));
      Attempt(services.fault, FinishEffects(config, services, pid, pdf))
        == Progress(OcrEffects(config, pdf) + [LookedUp(pid)] + [Built(listRequest), Built(documentRequest)], [],
                    services.fault(Built(documentRequest)))
  {
    var ocr := OcrEffects(config, pdf);
    var state := services.objectState(pid);
    var listRequest := BuildRequest("ListCollection", "Document List", state, pid);
    var documentRequest := BuildRequest("PDFData", "PDF", state, services.created(listRequest));
    var head := ocr + [LookedUp(pid), Built(listRequest)];
    var rest := [Sequenced(services.created(documentRequest), services.created(listRequest), 1),
                 AttachedFile(services.created(documentRequest), pdf, "MASTER", PdfFormat), Removed(pdf)];
    FinishEffectsInFull(config, services, pid, pdf);
    assert FinishEffects(config, services, pid, pdf) == head + [Built(documentRequest)] + rest;
    forall i | 0 <= i < |head| ensures services.fault(head[i]).None? {
      if i < |ocr| {
        assert head[i] == ocr[i];
      }
    }
    AttemptFaultAfter(services.fault, head, Built(documentRequest), rest);
    assert head + [Built(documentRequest)] == ocr + [LookedUp(pid)] + [Built(listRequest), Built(documentRequest)];
  }

  /** The job runner for one PID. Each method returns the effects it has,
      in order, with the pages it rendered and the failure it threw. */
  class PdfGenerator {
    const pid: string
    const config: Config
    const services: Services

    constructor (p: string, c: Config, s: Services)
      ensures pid == p && config == c && services == s
    {
      pid, config, services := p, c, s;
    }

    /** Fetches each JPEG in turn and appends it as a page, stopping at the
        first answer other than 200. */
    method GeneratePages(jpegs: seq<string>) returns (r: Progress)
      ensures r == RenderPages(services.images, jpegs)
    {
      var fetched: seq<Effect> := [];
      var added: seq<Page> := [];
      var i := 0;
      while i < |jpegs|
        invariant 0 <= i <= |jpegs|
        invariant RenderPages(services.images, jpegs[..i]) == Progress(fetched, added, None)
      {
        RenderNext(services.images, jpegs, i);
        var jpeg := jpegs[i];
        var reply := services.images(jpeg);
        fetched := fetched + [Fetched(jpeg)];
        if reply.statusCode != 200 {
          var message := ImageFailure(reply.statusCode, jpeg);
          RenderStopsAtFailure(services.images, jpegs, i + 1);
          return Progress(fetched + [Logged(message)], added, Some(message));
        }
        added := added + [Page(jpeg, reply.body)];
        i := i + 1;
      }
      assert jpegs[..i] == jpegs;
      return Progress(fetched, added, None);
    }

    /** Makes one call after the pages; it either succeeds or throws. */
    method Call(e: Effect) returns (r: Progress)
      ensures r == Attempt(services.fault, [e])
    {
      assert [e][1..] == [];
      r := Progress([e], [], services.fault(e));
    }

    /** Builds the document list, then the PDF document in it, then attaches
        the file, stopping at the first call that throws. */
    method AddPdfToPid(pdf: string, state: string) returns (r: Progress)
      ensures r == Attempt(services.fault, AddPdfEffects(services, pid, pdf, state))
    {
      var listRequest := BuildRequest("ListCollection", "Document List", state, pid);
      var documentList := services.created(listRequest);
      var documentEffects := DocumentEffects(services, documentList, 1, state);
      var documentPid := services.created(BuildRequest("PDFData", "PDF", state, documentList));
      var attach := AttachedFile(documentPid, pdf, "MASTER", PdfFormat);
      AttemptAppend(services.fault, [Built(listRequest)] + documentEffects, [attach]);
      AttemptAppend(services.fault, [Built(listRequest)], documentEffects);
      r := Call(Built(listRequest));
      if r.failure.Some? {
        return;
      }
      var built;
      documentPid, built := BuildDocument(documentList, 1, state);
      r := AndThen(r, built);
      if r.failure.Some? {
        return;
      }
      var attached := Call(attach);
      r := AndThen(r, attached);
    }

    /** Builds a PDF document in `documentList` and sequences it at
        `number`, stopping if the build throws. */
    method BuildDocument(documentList: string, number: int, state: string) returns (documentPid: string, r: Progress)
      ensures documentPid == services.created(BuildRequest("PDFData", "PDF", state, documentList))
      ensures r == Attempt(services.fault, DocumentEffects(services, documentList, number, state))
    {
      var request := BuildRequest("PDFData", "PDF", state, documentList);
      documentPid := services.created(request);
      var sequence := Sequenced(documentPid, documentList, number);
      AttemptAppend(services.fault, [Built(request)], [sequence]);
      r := Call(Built(request));
      if r.failure.Some? {
        return;
      }
      var sequenced := Call(sequence);
      r := AndThen(r, sequenced);
    }

    /** After the pages: OCR, then the lookup of the object's state, the
        filing of the PDF under new objects in that state, and the removal of
        the temporary file, stopping at the first call that throws. */
    method FinishPdf(pdf: string) returns (r: Progress)
      ensures r == Attempt(services.fault, FinishEffects(config, services, pid, pdf))
    {
      var ocr := OcrEffects(config, pdf);
      var filing := AddPdfEffects(services, pid, pdf, services.objectState(pid));
      AttemptAppend(services.fault, ocr + [LookedUp(pid)] + filing, [Removed(pdf)]);
      AttemptAppend(services.fault, ocr + [LookedUp(pid)], filing);
      AttemptAppend(services.fault, ocr, [LookedUp(pid)]);
      assert FinishEffects(config, services, pid, pdf) == ocr + [LookedUp(pid)] + filing + [Removed(pdf)];
      r := Progress([], [], None);
      if config.ocrmypdfPath != "" {
        r := Call(Ran(config.ocrmypdfPath + " " + pdf + " " + pdf));
        if r.failure.Some? {
          return;
        }
      }
      var lookup := Call(LookedUp(pid));
      r := AndThen(r, lookup);
      if r.failure.Some? {
        return;
      }
      var filed := AddPdfToPid(pdf, services.objectState(pid));
      r := AndThen(r, filed);
      if r.failure.Some? {
        return;
      }
      var removed := Call(Removed(pdf));
      r := AndThen(r, removed);
    }

    method FollowImages(jpegs: seq<string>) returns (r: Progress)
      ensures r == ImagesJob(config, services, pid, jpegs)
    {
      if |jpegs| == 0 {
        return Progress([Logged(pid + " contains no images; exiting early.")], [], None);
      }
      r := GeneratePages(jpegs);
      if r.failure.Some? {
        return;
      }
      var finish := FinishPdf(services.pdfFile);
      r := Progress(r.effects + finish.effects, r.pages, finish.failure);
    }

    method FollowManifest(url: string, reply: Reply<Option<Manifest>>) returns (r: Progress)
      ensures r == ManifestJob(config, services, pid, url, reply)
    {
      if reply.statusCode != 200 {
        var message := ManifestFailure(reply.statusCode, url);
        return Progress([Logged(message)], [], Some(message));
      }
      if HasPdfAlready(reply.body) {
        return Progress([Logged(pid + " already has a PDF; exiting early.")], [], None);
      }
      var jpegs := LargeJpegs(reply.body);
      if jpegs.None? {
        return Progress([], [], Some("TypeError"));
      }
      r := FollowImages(jpegs.value);
    }

    /** The job: fetch the manifest, then act on it. */
    method Run() returns (r: Progress)
      ensures r == RunJob(config, services, pid)
    {
      var url := ManifestUrl(config, pid);
      var reply := services.manifests(url);
      var rest := FollowManifest(url, reply);
      r := Progress([Fetched(url)] + rest.effects, rest.pages, rest.failure);
    }
  }
}
