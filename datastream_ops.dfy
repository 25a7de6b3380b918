/** The datastream operations of the editor: the MIME-type allowance for
    uploads, the parsing of download and view headers, and the guarded fetches
    of licence, process metadata and agents. */
module DatastreamOps {
  import opened Wrappers
  import opened Strings
  import opened EditorCache

  // ---- MIME types ----

  /** The allowance a datastream's catalog entry gives; both parts are plain
      strings searched with `includes`. */
  datatype MimeRule = MimeRule(allowedType: string, allowedSubtypes: string)

  /** A catalog entry; the rule is optional. */
  datatype CatalogEntry = CatalogEntry(mimetype: Option<MimeRule>)

  /** `mimeType.split("/")` destructured into its first two pieces; a missing
      subtype is `undefined`, which `includes` reads as the word "undefined". */
  function MimeParts(mimeType: string): (string, string)
  {
    var pieces := SplitOn(mimeType, "/");
    (pieces[0], if |pieces| > 1 then pieces[1] else "undefined")
  }

  /** Whether an upload of `mimeType` is allowed for datastream `active`:
      `Some(false)` without a catalog entry, `None` when the entry has no rule
      (destructuring it throws). */
  function MimeCheck(catalog: map<string, CatalogEntry>, active: string, mimeType: string): Option<bool>
  {
    if active !in catalog then Some(false)
    else match catalog[active].mimetype
      case None => None
      case Some(rule) =>
        var (kind, subtype) := MimeParts(mimeType);
        Some((Contains(rule.allowedType, kind) || Contains(rule.allowedType, "*"))
          && (Contains(rule.allowedSubtypes, subtype) || Contains(rule.allowedSubtypes, "*")))
  }

  /** A type and subtype without slashes split apart again. */
  lemma MimePartsOf(kind: string, subtype: string)
    requires '/' !in kind && '/' !in subtype
    ensures MimeParts(kind + "/" + subtype) == (kind, subtype)
  {
    SplitOnAfter(kind, "/", subtype);
    SplitOnNone(subtype, "/");
  }

  /** A string without the separator's only character splits into itself alone. */
  lemma SplitOnNone(s: string, sep: string)
    requires |sep| == 1 && sep[0] !in s
    ensures SplitOn(s, sep) == [s]
  {
    forall j: nat ensures !OccursAt(s, sep, j) {
      if j + 1 <= |s| {
        assert s[j..j + 1][0] == s[j];
      }
    }
  }

  lemma ContainsSelf(s: string)
    ensures Contains(s, s)
  {
    ContainsIff(s, s);
    assert OccursAt(s, s, 0);
  }

  /** Every datastream without a catalog entry refuses every upload. */
  lemma UncataloguedRefuses(catalog: map<string, CatalogEntry>, active: string, mimeType: string)
    requires active !in catalog
    ensures MimeCheck(catalog, active, mimeType) == Some(false)
  {
  }

  /** A rule naming the type and subtype exactly allows that MIME type. */
  lemma ExactRuleAllows(catalog: map<string, CatalogEntry>, active: string, kind: string, subtype: string)
    requires '/' !in kind && '/' !in subtype
    requires active in catalog && catalog[active].mimetype == Some(MimeRule(kind, subtype))
    ensures MimeCheck(catalog, active, kind + "/" + subtype) == Some(true)
  {
    MimePartsOf(kind, subtype);
    ContainsSelf(kind);
    ContainsSelf(subtype);
  }

  /** Wildcards in both parts allow every MIME type. */
  lemma WildcardAllowsAll(catalog: map<string, CatalogEntry>, active: string, mimeType: string)
    requires active in catalog && catalog[active].mimetype.Some?
    requires Contains(catalog[active].mimetype.value.allowedType, "*")
    requires Contains(catalog[active].mimetype.value.allowedSubtypes, "*")
    ensures MimeCheck(catalog, active, mimeType) == Some(true)
  {
  }

  /** A type the rule's type string does not contain is refused, absent a wildcard. */
  lemma ForeignTypeRefused(catalog: map<string, CatalogEntry>, active: string, mimeType: string)
    requires active in catalog && catalog[active].mimetype.Some?
    requires !Contains(catalog[active].mimetype.value.allowedType, "*")
    requires !Contains(catalog[active].mimetype.value.allowedType, MimeParts(mimeType).0)
    ensures MimeCheck(catalog, active, mimeType) == Some(false)
  {
  }

  // ---- Header parsing ----

  /** The name a download is saved under: the text after the first
      `filename=` of `Content-Disposition`, up to the next `filename=` or `;`;
      `None` when there is none (the "Incorrect file format" case). */
  function DownloadFileName(headers: map<string, string>): Option<string>
  {
    if "Content-Disposition" !in headers then None else DispositionName(headers["Content-Disposition"])
  }

  /** The file name a `Content-Disposition` value carries. */
  function DispositionName(value: string): Option<string>
  {
    var pieces := SplitOn(value, "filename=");
    if |pieces| < 2 then None
    else
      var name := BeforeFirst(pieces[1], ";");
      if name == "" then None else Some(name)
  }

  /** A disposition `attachment; filename=<name>;<rest>` yields `name`. */
  lemma DownloadFileNameOf(name: string, rest: string)
    requires name != "" && ';' !in name && !Contains(name, "filename=")
    ensures DownloadFileName(map["Content-Disposition" := "attachment; filename=" + name + ";" + rest]) == Some(name)
  {
    assert "attachment; " + "filename=" == "attachment; filename=";
    DispositionNameOf("attachment; ", name, rest);
  }

  /** The general form: any lead without an `f` before `filename=`. */
  lemma DispositionNameOf(lead: string, name: string, rest: string)
    requires 'f' !in lead
    requires name != "" && ';' !in name && !Contains(name, "filename=")
    ensures DownloadFileName(map["Content-Disposition" := lead + "filename=" + name + ";" + rest]) == Some(name)
  {
    var value := lead + "filename=" + name + ";" + rest;
    DispositionValueName(lead, name, rest);
    assert map["Content-Disposition" := value]["Content-Disposition"] == value;
  }

  lemma DispositionValueName(lead: string, name: string, rest: string)
    requires 'f' !in lead
    requires name != "" && ';' !in name && !Contains(name, "filename=")
    ensures DispositionName(lead + "filename=" + name + ";" + rest) == Some(name)
  {
    var tail := name + ";" + rest;
    assert lead + "filename=" + name + ";" + rest == lead + "filename=" + tail;
    DispositionPieces(lead, tail);
    BeforeFirstKeepsName(name, rest, "filename=");
  }

  /** After a lead without an `f`, the name is read from what follows `filename=`. */
  lemma DispositionPieces(lead: string, tail: string)
    requires 'f' !in lead
    ensures DispositionName(lead + "filename=" + tail) ==
      var name := BeforeFirst(BeforeFirst(tail, "filename="), ";");
      if name == "" then None else Some(name)
  {
    SplitOnAfter(lead, "filename=", tail);
  }

  lemma NoDispositionNoName(headers: map<string, string>)
    requires "Content-Disposition" !in headers
    ensures DownloadFileName(headers).None?
  {
  }

  /** A disposition without `filename=` yields no name. */
  lemma NoFilenameNoName(headers: map<string, string>)
    requires "Content-Disposition" in headers && !Contains(headers["Content-Disposition"], "filename=")
    ensures DownloadFileName(headers).None?
  {
    var h := headers["Content-Disposition"];
    assert IndexOf(h, "filename=").None?;
    assert SplitOn(h, "filename=") == [h];
    assert DownloadFileName(headers) == DispositionName(h);
  }

  /** A header value up to its first `;`. */
  function MediaType(value: string): string
  {
    BeforeFirst(value, ";")
  }

  /** `text/xml; charset=utf-8` is read as `text/xml`. */
  lemma MediaTypeDropsParameters(kind: string, parameters: string)
    requires ';' !in kind
    ensures MediaType(kind + ";" + parameters) == kind
  {
    SplitOnAfter(kind, ";", parameters);
  }

  predicate IsTokenChar(c: char)
  {
    c == '-' || c == '+' || c == '.' || c == '_' || 'a' <= c <= 'z' || 'A' <= c <= 'Z' || '0' <= c <= '9'
  }

  /** `/text\/[-+.\w]+/` matches somewhere in `m`. */
  predicate IsTextMedia(m: string)
  {
    exists i: nat :: i + 5 < |m| && OccursAt(m, "text/", i) && IsTokenChar(m[i + 5])
  }

  /** FLAC audio is reported under its registered name. */
  function NormalizeMedia(m: string): (r: string)
    ensures Contains(m, "audio/x-flac") ==> r == "audio/flac"
    ensures !Contains(m, "audio/x-flac") ==> r == m
  {
    if Contains(m, "audio/x-flac") then "audio/flac" else m
  }

  // ---- The operations ----

  datatype UploadedFile = UploadedFile(name: string, mimeType: string)

  /** The requests the operations send, by purpose (the URL helpers are not modelled). */
  datatype Request =
    | PostFile(pid: string, datastream: string, file: UploadedFile)
    | PostAgents(pid: string, datastream: string, agents: Json)
    | PostDublinCore(pid: string, datastream: string, metadata: Json)
    | PostLicense(pid: string, datastream: string, licenseKey: string)
    | PostProcessMetadata(pid: string, datastream: string, processMetadata: Json)
    | DeleteStream(pid: string, datastream: string)
    | Download(pid: string, datastream: string)
    | View(pid: string, datastream: string)
    | ViewMetadata(pid: string, datastream: string)
    | GetMimetype(pid: string, datastream: string)
    | GetLicense(pid: string, datastream: string)
    | GetProcessMetadata(pid: string, datastream: string)
    | GetAgents(pid: string, datastream: string)

  datatype BlobResponse = BlobResponse(headers: map<string, string>, blob: Option<string>)

  /** A snackbar notice. */
  datatype Notice = Notice(message: string, severity: string)

  /** What the operations do that the user or the server can see. */
  datatype Effect = Fetched(request: Request) | Reloaded | Notified(notice: Notice) | ClosedModal(name: string) | Saved(fileName: string)

  /** What viewing yields: text inline, or a blob to be shown through an object URL. */
  datatype ViewData = Inline(text: string) | BlobUrl(blob: string)

  datatype Viewed = Viewed(data: ViewData, mimeType: string, error: Option<string>)

  /** A text POST followed by a reload of the object's details, reported in one notice. */
  function SubmitEffects(request: Request, reply: Result<string, string>, reloadError: Option<string>, close: bool): seq<Effect>
  {
    [Fetched(request)]
      + (match reply
         case Err(m) => [Notified(Notice(m, "error"))]
         case Ok(text) =>
           [Reloaded] + match reloadError
             case Some(m) => [Notified(Notice(m, "error"))]
             case None => [Notified(Notice(text, "success"))])
      + (if close then [ClosedModal("datastream")] else [])
  }

  function CountNotices(effects: seq<Effect>): nat
  {
    if |effects| == 0 then 0
    else (if effects[0].Notified? then 1 else 0) + CountNotices(effects[1..])
  }

  lemma {:induction false} CountNoticesAppend(a: seq<Effect>, b: seq<Effect>)
    ensures CountNotices(a + b) == CountNotices(a) + CountNotices(b)
    decreases |a|
  {
    if |a| > 0 {
      assert (a + b)[1..] == a[1..] + b;
      CountNoticesAppend(a[1..], b);
    } else {
      assert a + b == b;
    }
  }

  /** A submission sends once, reloads exactly when the server accepted it,
      shows exactly one notice, which is a success exactly when both steps
      succeeded, and closes the modal exactly when asked to. */
  lemma SubmitReportsOnce(request: Request, reply: Result<string, string>, reloadError: Option<string>, close: bool)
    ensures var e := SubmitEffects(request, reply, reloadError, close);
      && e[0] == Fetched(request)
      && CountNotices(e) == 1
      && (Reloaded in e <==> reply.Ok?)
      && (Notified(Notice(if reply.Ok? then reply.value else "", "success")) in e <==> reply.Ok? && reloadError.None?)
      && (ClosedModal("datastream") in e <==> close)
  {
    var middle := match reply
      case Err(m) => [Notified(Notice(m, "error"))]
      case Ok(text) =>
        [Reloaded] + match reloadError
          case Some(m) => [Notified(Notice(m, "error"))]
          case None => [Notified(Notice(text, "success"))];
    var closing: seq<Effect> := if close then [ClosedModal("datastream")] else [];
    CountNoticesAppend([Fetched(request)], middle);
    CountNoticesAppend([Fetched(request)] + middle, closing);
    if reply.Ok? {
      CountNoticesAppend([Reloaded], middle[1..]);
      assert middle == [Reloaded] + middle[1..];
    }
    assert CountNotices(closing) == 0;
  }

  /** The effects of an upload: refused before sending when the type is not allowed. */
  function UploadEffects(check: Option<bool>, file: UploadedFile, request: Request, reply: Result<string, string>,
                         reloadError: Option<string>, typeError: string): seq<Effect>
  {
    match check
    case Some(true) => SubmitEffects(request, reply, reloadError, true)
    case Some(false) => [Notified(Notice("Illegal mime type: " + file.mimeType, "error")), ClosedModal("datastream")]
    case None => [Notified(Notice(typeError, "error")), ClosedModal("datastream")]
  }

  /** A file whose type is not allowed is never sent. */
  lemma UploadGuarded(check: Option<bool>, file: UploadedFile, request: Request, reply: Result<string, string>,
                      reloadError: Option<string>, typeError: string)
    ensures (Fetched(request) in UploadEffects(check, file, request, reply, reloadError, typeError)) <==> check == Some(true)
    ensures check == Some(false) ==>
      UploadEffects(check, file, request, reply, reloadError, typeError)[0] == Notified(Notice("Illegal mime type: " + file.mimeType, "error"))
    ensures ClosedModal("datastream") in UploadEffects(check, file, request, reply, reloadError, typeError)
  {
  }

  /** The effects of a download: the file is saved only with a name and a blob. */
  function DownloadEffects(request: Request, reply: Result<BlobResponse, string>): seq<Effect>
  {
    [Fetched(request)]
      + match reply
        case Err(m) => [Notified(Notice(m, "error"))]
        case Ok(response) =>
          match DownloadFileName(response.headers)
          case Some(name) =>
            if response.blob.Some? then [Saved(name)] else [Notified(Notice("Incorrect file format", "error"))]
          case None => [Notified(Notice("Incorrect file format", "error"))]
  }

  /** A file is saved, under its name, exactly when the reply carries both a
      name and a blob; a missing name or blob reports "Incorrect file format"
      and a failed fetch reports its own message, each as the one step after
      the fetch. */
  lemma DownloadSavesOnlyNamedBlobs(request: Request, reply: Result<BlobResponse, string>, name: string)
    ensures Saved(name) in DownloadEffects(request, reply) <==>
      reply.Ok? && DownloadFileName(reply.value.headers) == Some(name) && reply.value.blob.Some?
    ensures reply.Ok? && (DownloadFileName(reply.value.headers).None? || reply.value.blob.None?) ==>
      DownloadEffects(request, reply) == [Fetched(request), Notified(Notice("Incorrect file format", "error"))]
    ensures reply.Err? ==> DownloadEffects(request, reply) == [Fetched(request), Notified(Notice(reply.error, "error"))]
    ensures reply.Ok? && DownloadFileName(reply.value.headers).Some? && reply.value.blob.Some? ==>
      DownloadEffects(request, reply) == [Fetched(request), Saved(DownloadFileName(reply.value.headers).value)]
  {
  }

  /** What viewing returns: text inline for text media, a blob otherwise;
      empty results when the response lacks a content type or a blob. */
  function ViewOf(reply: Result<BlobResponse, string>, typeError: string): (r: Viewed)
    ensures r.error.Some? ==> r.data == Inline("") && r.mimeType == ""
  {
    match reply
    case Err(m) => Viewed(Inline(""), "", Some(m))
    case Ok(response) =>
      if "Content-Type" !in response.headers || response.blob.None? then Viewed(Inline(""), "", Some(typeError))
      else
        var m := MediaType(response.headers["Content-Type"]);
        var data := if IsTextMedia(m) then Inline(response.blob.value) else BlobUrl(response.blob.value);
        Viewed(data, NormalizeMedia(m), None)
  }

  /** A successful view of FLAC audio is labelled audio/flac; text media are inlined. */
  lemma ViewLabels(reply: Result<BlobResponse, string>, typeError: string)
    requires reply.Ok? && "Content-Type" in reply.value.headers && reply.value.blob.Some?
    ensures var m := MediaType(reply.value.headers["Content-Type"]);
      && ViewOf(reply, typeError).error.None?
      && (Contains(m, "audio/x-flac") ==> ViewOf(reply, typeError).mimeType == "audio/flac")
      && (ViewOf(reply, typeError).data.Inline? <==> IsTextMedia(m))
  {
  }

  /** A `text/<subtype>` content type with parameters is text media when the
      subtype starts with a token character. */
  lemma TextMediaWithParameters(subtype: string, parameters: string)
    requires |subtype| > 0 && IsTokenChar(subtype[0]) && ';' !in subtype
    ensures IsTextMedia(MediaType("text/" + subtype + ";" + parameters))
  {
    var m := "text/" + subtype;
    assert ';' !in m by {
      assert forall i :: 0 <= i < |m| ==> m[i] == (if i < 5 then "text/"[i] else subtype[i - 5]);
    }
    MediaTypeDropsParameters(m, parameters);
    assert m[0..5] == "text/";
    assert OccursAt(m, "text/", 0) && m[5] == subtype[0];
  }

  /** Whether a guarded fetch runs: forced, or the datastream is present. */
  predicate MayFetch(force: bool, datastreams: seq<string>, active: string)
  {
    force || active in datastreams
  }

  /** The datastream panel of one open object: a snapshot of the editor's
      state, the server's replies, and the effects so far. */
  class DatastreamPanel {
    const currentPid: string
    const activeDatastream: string
    const catalog: map<string, CatalogEntry>
    const currentDatastreams: seq<string>
    const processMetadataDefaults: Json
    const texts: Request -> Result<string, string>
    const jsons: Request -> Result<Json, string>
    const blobs: Request -> Result<BlobResponse, string>
    /** The error reloading the object's details throws, if any. */
    const reloadError: Option<string>
    /** The message of a type error the runtime raises. */
    const typeError: string
    var effects: seq<Effect>

    constructor (pid: string, active: string, c: map<string, CatalogEntry>, present: seq<string>, defaults: Json,
                 t: Request -> Result<string, string>, j: Request -> Result<Json, string>, b: Request -> Result<BlobResponse, string>,
                 reload: Option<string>, te: string)
      ensures currentPid == pid && activeDatastream == active && catalog == c && currentDatastreams == present
      ensures processMetadataDefaults == defaults && texts == t && jsons == j && blobs == b
      ensures reloadError == reload && typeError == te && effects == []
    {
      currentPid := pid;
      activeDatastream := active;
      catalog := c;
      currentDatastreams := present;
      processMetadataDefaults := defaults;
      texts := t;
      jsons := j;
      blobs := b;
      reloadError := reload;
      typeError := te;
      effects := [];
    }

    /** Sends `request`, reloads the details, reports, and closes the modal if `close`. */
    method Submit(request: Request, close: bool)
      modifies this
      ensures effects == old(effects) + SubmitEffects(request, texts(request), reloadError, close)
    {
      effects := effects + [Fetched(request)];
      match texts(request) {
        case Err(m) =>
          effects := effects + [Notified(Notice(m, "error"))];
        case Ok(text) =>
          effects := effects + [Reloaded];
          match reloadError {
            case Some(m) => effects := effects + [Notified(Notice(m, "error"))];
            case None => effects := effects + [Notified(Notice(text, "success"))];
          }
      }
      if close {
        effects := effects + [ClosedModal("datastream")];
      }
    }

    method UploadFile(file: UploadedFile)
      modifies this
      ensures var request := PostFile(currentPid, activeDatastream, file);
        effects == old(effects) + UploadEffects(MimeCheck(catalog, activeDatastream, file.mimeType), file, request,
                                                texts(request), reloadError, typeError)
    {
      var request := PostFile(currentPid, activeDatastream, file);
      match MimeCheck(catalog, activeDatastream, file.mimeType) {
        case Some(true) =>
          Submit(request, true);
        case Some(false) =>
          effects := effects + [Notified(Notice("Illegal mime type: " + file.mimeType, "error")), ClosedModal("datastream")];
        case None =>
          effects := effects + [Notified(Notice(typeError, "error")), ClosedModal("datastream")];
      }
    }

    /** Unlike the other uploads, posting agents leaves the modal open. */
    method UploadAgents(agents: Json)
      modifies this
      ensures var request := PostAgents(currentPid, activeDatastream, agents);
        effects == old(effects) + SubmitEffects(request, texts(request), reloadError, false)
    {
      Submit(PostAgents(currentPid, activeDatastream, agents), false);
    }

    method UploadDublinCore(metadata: Json)
      modifies this
      ensures var request := PostDublinCore(currentPid, activeDatastream, metadata);
        effects == old(effects) + SubmitEffects(request, texts(request), reloadError, true)
    {
      Submit(PostDublinCore(currentPid, activeDatastream, metadata), true);
    }

    method UploadLicense(licenseKey: string)
      modifies this
      ensures var request := PostLicense(currentPid, activeDatastream, licenseKey);
        effects == old(effects) + SubmitEffects(request, texts(request), reloadError, true)
    {
      Submit(PostLicense(currentPid, activeDatastream, licenseKey), true);
    }

    method UploadProcessMetadata(processMetadata: Json)
      modifies this
      ensures var request := PostProcessMetadata(currentPid, activeDatastream, processMetadata);
        effects == old(effects) + SubmitEffects(request, texts(request), reloadError, true)
    {
      Submit(PostProcessMetadata(currentPid, activeDatastream, processMetadata), true);
    }

    method DeleteDatastream()
      modifies this
      ensures var request := DeleteStream(currentPid, activeDatastream);
        effects == old(effects) + SubmitEffects(request, texts(request), reloadError, true)
    {
      Submit(DeleteStream(currentPid, activeDatastream), true);
    }

    method DownloadDatastream(datastream: string)
      modifies this
      ensures var request := Download(currentPid, datastream);
        effects == old(effects) + DownloadEffects(request, blobs(request))
    {
      var request := Download(currentPid, datastream);
      effects := effects + [Fetched(request)];
      match blobs(request) {
        case Err(m) =>
          effects := effects + [Notified(Notice(m, "error"))];
        case Ok(response) =>
          var name := DownloadFileName(response.headers);
          if name.None? || response.blob.None? {
            effects := effects + [Notified(Notice("Incorrect file format", "error"))];
          } else {
            effects := effects + [Saved(name.value)];
          }
      }
    }

    method ViewDatastream() returns (data: ViewData, mimeType: string)
      modifies this
      ensures var request := View(currentPid, activeDatastream);
        var v := ViewOf(blobs(request), typeError);
        && data == v.data && mimeType == v.mimeType
        && effects == old(effects) + [Fetched(request)] + (if v.error.Some? then [Notified(Notice(v.error.value, "error"))] else [])
    {
      var request := View(currentPid, activeDatastream);
      effects := effects + [Fetched(request)];
      var v := ViewOf(blobs(request), typeError);
      if v.error.Some? {
        effects := effects + [Notified(Notice(v.error.value, "error"))];
      }
      data, mimeType := v.data, v.mimeType;
    }

    method ViewMetadataText() returns (data: ViewData, mimeType: string)
      modifies this
      ensures var request := ViewMetadata(currentPid, activeDatastream);
        && effects == old(effects) + [Fetched(request)] + (if texts(request).Err? then [Notified(Notice(texts(request).error, "error"))] else [])
        && (texts(request).Ok? ==> data == Inline(texts(request).value) && mimeType == "text/xml")
        && (texts(request).Err? ==> data == Inline("") && mimeType == "")
    {
      var request := ViewMetadata(currentPid, activeDatastream);
      effects := effects + [Fetched(request)];
      match texts(request) {
        case Ok(text) =>
          data, mimeType := Inline(text), "text/xml";
        case Err(m) =>
          effects := effects + [Notified(Notice(m, "error"))];
          data, mimeType := Inline(""), "";
      }
    }

    method GetDatastreamMimetype(datastream: string) returns (mimeType: string)
      modifies this
      ensures var request := GetMimetype(currentPid, datastream);
        && effects == old(effects) + [Fetched(request)] + (if texts(request).Err? then [Notified(Notice(texts(request).error, "error"))] else [])
        && mimeType == (if texts(request).Ok? then MediaType(texts(request).value) else "")
    {
      var request := GetMimetype(currentPid, datastream);
      effects := effects + [Fetched(request)];
      match texts(request) {
        case Ok(text) =>
          mimeType := MediaType(text);
        case Err(m) =>
          effects := effects + [Notified(Notice(m, "error"))];
          mimeType := "";
      }
    }

    /** Fetches the licence only for a datastream the object has. */
    method GetLicenseKey() returns (key: string)
      modifies this
      ensures var request := GetLicense(currentPid, activeDatastream);
        && (activeDatastream !in currentDatastreams ==> key == "" && effects == old(effects))
        && (activeDatastream in currentDatastreams ==>
              && effects == old(effects) + [Fetched(request)] + (if texts(request).Err? then [Notified(Notice(texts(request).error, "error"))] else [])
              && key == (if texts(request).Ok? then texts(request).value else ""))
    {
      key := "";
      if activeDatastream in currentDatastreams {
        var request := GetLicense(currentPid, activeDatastream);
        effects := effects + [Fetched(request)];
        match texts(request) {
          case Ok(text) => key := text;
          case Err(m) => effects := effects + [Notified(Notice(m, "error"))];
        }
      }
    }

    /** Fetches process metadata (for `overridePid` when given) only when
        forced or the datastream is present; otherwise the defaults. */
    method GetProcessMetadataOf(overridePid: Option<string>, force: bool) returns (metadata: Json)
      modifies this
      ensures var request := GetProcessMetadata(overridePid.GetOr(currentPid), activeDatastream);
        && (!MayFetch(force, currentDatastreams, activeDatastream) ==> metadata == processMetadataDefaults && effects == old(effects))
        && (MayFetch(force, currentDatastreams, activeDatastream) ==>
              && effects == old(effects) + [Fetched(request)] + (if jsons(request).Err? then [Notified(Notice(jsons(request).error, "error"))] else [])
              && metadata == (if jsons(request).Ok? then jsons(request).value else processMetadataDefaults))
    {
      metadata := processMetadataDefaults;
      if force || activeDatastream in currentDatastreams {
        var request := GetProcessMetadata(overridePid.GetOr(currentPid), activeDatastream);
        effects := effects + [Fetched(request)];
        match jsons(request) {
          case Ok(value) => metadata := value;
          case Err(m) => effects := effects + [Notified(Notice(m, "error"))];
        }
      }
    }

    /** Fetches the agents under the same guard; otherwise an empty list. */
    method GetAgentsOf(overridePid: Option<string>, force: bool) returns (agents: Json)
      modifies this
      ensures var request := GetAgents(overridePid.GetOr(currentPid), activeDatastream);
        && (!MayFetch(force, currentDatastreams, activeDatastream) ==> agents == JArray([]) && effects == old(effects))
        && (MayFetch(force, currentDatastreams, activeDatastream) ==>
              && effects == old(effects) + [Fetched(request)] + (if jsons(request).Err? then [Notified(Notice(jsons(request).error, "error"))] else [])
              && agents == (if jsons(request).Ok? then jsons(request).value else JArray([])))
    {
      agents := JArray([]);
      if force || activeDatastream in currentDatastreams {
        var request := GetAgents(overridePid.GetOr(currentPid), activeDatastream);
        effects := effects + [Fetched(request)];
        match jsons(request) {
          case Ok(value) => agents := value;
          case Err(m) => effects := effects + [Notified(Notice(m, "error"))];
        }
      }
    }
  }
}
