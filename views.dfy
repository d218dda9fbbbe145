/**
 * `process_document_file`, the orchestrator that turns an uploaded
 * document into page rows, and the file-type inference of the create and
 * update views.
 *
 * `Process` is the specification: what the call leaves in the document
 * (file type, engine, page store) and the exception it raises, if any.
 * `ProcessDocumentFile` is the imperative procedure, proved to agree with it.
 */
module Views {
  import opened Wrappers
  import opened Text
  import opened Json
  import opened Engines
  import opened Models
  import OcrUtils

  // ------------------------------------------------------------- engine names and file types

  /** The engine names the orchestrator accepts. */
  const ValidEngines: seq<string> :=
    ["mineru", "pymupdf", "pdfplumber", "tesseract", "deepseek", "paddleocr", "trocr", "donut", "olmocr"]

  /**
   * The stored engine after validation: an empty name, or one whose lower
   * case is not a valid engine, becomes `'mineru'`; any other name is kept
   * as written (its case included).
   */
  function NormalizedEngineField(engine: string): (r: string)
    ensures Lower(r) in ValidEngines
    ensures r == engine <==> engine != "" && Lower(engine) in ValidEngines
    ensures r != engine ==> r == "mineru"
  {
    LowerOfLowercase("mineru");
    if engine == "" then "mineru"
    else if Lower(engine) !in ValidEngines then "mineru"
    else engine
  }

  /** The nine engines, as dispatched on once the name is validated. */
  datatype Engine = Mineru | Pymupdf | Pdfplumber | Tesseract | Deepseek | Paddleocr | Trocr | Donut | Olmocr

  /** The lower-case name of an engine, as stored in `json_data['ocr_engine']`. */
  function Name(e: Engine): (r: string)
    ensures r in ValidEngines
  {
    match e
    case Mineru => "mineru"
    case Pymupdf => "pymupdf"
    case Pdfplumber => "pdfplumber"
    case Tesseract => "tesseract"
    case Deepseek => "deepseek"
    case Paddleocr => "paddleocr"
    case Trocr => "trocr"
    case Donut => "donut"
    case Olmocr => "olmocr"
  }

  /** The engine a lower-case name selects, if it is one of the nine. */
  function EngineOf(name: string): (r: Option<Engine>)
    ensures r.Some? <==> name in ValidEngines
    ensures r.Some? ==> Name(r.value) == name
  {
    if name == "mineru" then Some(Mineru)
    else if name == "pymupdf" then Some(Pymupdf)
    else if name == "pdfplumber" then Some(Pdfplumber)
    else if name == "tesseract" then Some(Tesseract)
    else if name == "deepseek" then Some(Deepseek)
    else if name == "paddleocr" then Some(Paddleocr)
    else if name == "trocr" then Some(Trocr)
    else if name == "donut" then Some(Donut)
    else if name == "olmocr" then Some(Olmocr)
    else None
  }

  /** The engine name offered by the upload form but missing from the accepted list. */
  lemma LightonocrIsRewritten()
    ensures NormalizedEngineField("lightonocr") == "mineru"
  {
    LowerOfLowercase("lightonocr");
  }

  /** The image extensions the upload and update views recognise. */
  const UploadImageExts: seq<string> := [".png", ".jpg", ".jpeg"]

  /** The image extensions the orchestrator, the signals and the admin recognise. */
  const SaveImageExts: seq<string> := [".png", ".jpg", ".jpeg", ".gif", ".bmp"]

  /** The file type of a (lower-cased) file name: `pdf`, `image` or `unknown`. */
  function InferFileType(name: string, imageExts: seq<string>): (r: string)
    ensures r in {"pdf", "image", "unknown"}
    ensures r == "pdf" <==> EndsWith(name, ".pdf")
    ensures r == "image" <==> !EndsWith(name, ".pdf") && exists k :: 0 <= k < |imageExts| && EndsWith(name, imageExts[k])
  {
    if EndsWith(name, ".pdf") then "pdf"
    else if exists k :: 0 <= k < |imageExts| && EndsWith(name, imageExts[k]) then "image"
    else "unknown"
  }

  /** A `.gif` is an image to the orchestrator but not to the upload views. */
  lemma GifDependsOnTheView()
    ensures InferFileType("scan.gif", SaveImageExts) == "image"
    ensures InferFileType("scan.gif", UploadImageExts) == "unknown"
  {
    assert EndsWith("scan.gif", SaveImageExts[3]);
    assert !EndsWith("scan.gif", ".pdf");
    assert !EndsWith("scan.gif", ".png") && !EndsWith("scan.gif", ".jpg") && !EndsWith("scan.gif", ".jpeg");
  }

  // ------------------------------------------------------------- the engines

  /** The OCR utilities whose import fails: the names are absent from `core.ocr_utils`. */
  datatype OlmocrAdapters = OlmocrAdapters(
    available: bool,                                  // olmocr_available
    pagesJson: string -> Outcome<seq<PageInfo>>,      // extract_pages_with_olmocr_json(path)
    text: (string, string) -> Outcome<string>,        // extract_text_with_olmocr(path, file_type)
    fromImage: Raster -> Outcome<string>)             // extract_text_with_olmocr_from_image(img)

  /**
   * Everything outside the orchestrator that it consults. `utilsImported`
   * says whether the grouped import of the OCR utilities succeeded; when
   * it fails the stubs returning `""` or `[]` take their place.
   * `olmocr` is `None` when the OLMOCR names cannot be imported.
   */
  datatype Env = Env(
    fileExists: string -> bool,                          // os.path.exists
    utilsImported: bool,
    pytesseract: bool,                                // import pytesseract succeeded
    plumberAvailable: bool,                           // pdfplumber_available
    plumberPages: string -> Outcome<seq<Option<string>>>, // extract_text() of each pdfplumber page
    openPdf: string -> Outcome<seq<PdfPage>>,         // fitz.open and its pages
    mineruPages: string -> seq<PageInfo>,             // extract_pages_with_mineru_json
    mineruText: (string, string) -> string,           // extract_text_with_mineru(path, file_type)
    paddleLayout: string -> seq<PageInfo>,            // extract_pages_with_paddleocr_layout
    olmocr: Option<OlmocrAdapters>,
    tesseract: Raster -> Outcome<string>,             // pytesseract.image_to_string
    deepseekImage: Raster -> string,                  // extract_text_with_deepseek_from_image
    paddle: Option<Raster -> Outcome<string>>,        // the PaddleOCR reader, when available
    trocr: Option<Raster -> Outcome<string>>,         // TrOCR generate and decode, when available
    donut: Option<Raster -> Outcome<Json>>,           // Donut generate and token2json, when available
    tesseractFile: string -> string,                  // extract_text_with_tesseract(path)
    deepseekFile: string -> string,                   // extract_text_with_deepseek(path)
    paddleFile: string -> string,                     // extract_text_with_paddleocr(path, 'image')
    trocrFile: string -> string,                      // extract_text_with_trocr(path, 'image')
    donutFile: string -> string)                      // extract_text_with_donut(path, 'image')
  {
    /** A name from the grouped import: the real function, or the stub's `""`. */
    function Utility(loaded: string): string { if utilsImported then loaded else "" }

    function MineruPagesOf(path: string): seq<PageInfo> { if utilsImported then mineruPages(path) else [] }

    function PaddleLayoutOf(path: string): seq<PageInfo> { if utilsImported then paddleLayout(path) else [] }

    /** `extract_text_with_pdfplumber(path, file_type='pdf')`, imported on its own. */
    function PlumberText(path: string): string
    {
      if !plumberAvailable then OcrUtils.PdfplumberMissing
      else
        match plumberPages(path)
        case Raised(e) => "Error with pdfplumber: " + e
        case Ok(ps) => Join(OcrUtils.NonEmptyTexts(ps), "\n\n")
    }
  }

  // ------------------------------------------------------------- error messages

  function NoFileMessage(pk: nat): string
  {
    "Document " + (if pk == 0 then "None" else NatToString(pk)) + " has no file attached"
  }

  function FileNotFoundMessage(path: string): string
  {
    "File not found at path: " + path
  }

  const NoPagesMessage := "PDF file has no pages"
  const PdfplumberNoPagesMessage := "Failed to extract any pages with pdfplumber"
  const OlmocrPagesImportError := "cannot import name 'extract_pages_with_olmocr_json' from 'core.ocr_utils'"
  const OlmocrTextImportError := "cannot import name 'extract_text_with_olmocr' from 'core.ocr_utils'"
  const DuplicatePageMessage := "UNIQUE constraint failed: core_page.document_id, core_page.page_number"

  function UnknownEngineText(engine: string): string
  {
    "Error: Unknown OCR engine '" + engine + "'. Please select a valid OCR engine."
  }

  // ------------------------------------------------------------- page stores written by the paths

  /** The page store a path leaves behind, and the exception it raises, if any. */
  datatype Written = Written(pages: PageStore, raised: Option<string>)

  /** The page numbers `1..n`. */
  function PageNumbers(n: nat): (r: set<int>)
    ensures forall k :: k in r <==> 1 <= k <= n
  {
    if n == 0 then {} else PageNumbers(n - 1) + {n}
  }

  /** A row with only its text written: an existing row keeps its json, a new one has none. */
  function TextRow(pages: PageStore, n: int, text: string): PageRow
  {
    if n in pages then pages[n].(text := text) else PageRow(text, JNull)
  }

  /** The pdfplumber and PyMuPDF paths: page `k` (from 1) gets the text `texts[k-1]`, its json kept. */
  function TextOnlyStore(pages: PageStore, texts: seq<string>): (r: PageStore)
    ensures r.Keys == pages.Keys + PageNumbers(|texts|)
    ensures forall k :: 1 <= k <= |texts| ==>
      r[k] == PageRow(texts[k - 1], if k in pages then pages[k].json else JNull)
    ensures forall k :: k in pages && !(1 <= k <= |texts|) ==> r[k] == pages[k]
    decreases |texts|
  {
    if texts == [] then pages
    else
      var init := texts[..|texts| - 1];
      var prev := TextOnlyStore(pages, init);
      assert forall k :: 0 <= k < |init| ==> init[k] == texts[k];
      prev[|texts| := TextRow(prev, |texts|, texts[|texts| - 1])]
  }

  /** The stripped page texts the text-only paths write. */
  function StrippedTexts(texts: seq<Option<string>>): (r: seq<string>)
    ensures |r| == |texts|
    ensures forall k :: 0 <= k < |texts| ==> r[k] == Strip(texts[k].GetOr(""))
  {
    seq(|texts|, k requires 0 <= k < |texts| => Strip(texts[k].GetOr("")))
  }

  /** The text layers of a PDF's pages, as `Some` values. */
  function TextLayers(pdf: seq<PdfPage>): (r: seq<Option<string>>)
    ensures |r| == |pdf|
    ensures forall k :: 0 <= k < |pdf| ==> r[k] == Some(pdf[k].text)
  {
    seq(|pdf|, k requires 0 <= k < |pdf| => Some(pdf[k].text))
  }

  /** The row a whole-document engine's page dict is written as. */
  function InfoRow(info: PageInfo): PageRow
  {
    PageRow(info.Text(), info.JsonData())
  }

  /** The MinerU, OLMOCR and PaddleOCR paths: every page dict is written, created or updated, in order. */
  function UpsertInfos(pages: PageStore, infos: seq<PageInfo>): (r: PageStore)
    ensures r.Keys == pages.Keys + set k | 0 <= k < |infos| :: infos[k].pageNumber
    ensures forall k :: k in pages && (forall m :: 0 <= m < |infos| ==> infos[m].pageNumber != k) ==> r[k] == pages[k]
    decreases |infos|
  {
    if infos == [] then pages
    else
      var prev := UpsertInfos(pages, infos[..|infos| - 1]);
      var last := infos[|infos| - 1];
      assert forall k :: 0 <= k < |infos| - 1 ==> infos[..|infos| - 1][k] == infos[k];
      prev[last.pageNumber := InfoRow(last)]
  }

  /** The last page dict with a given number decides that page's row. */
  lemma {:induction false} UpsertLastWins(pages: PageStore, infos: seq<PageInfo>, k: nat)
    requires k < |infos|
    requires forall m :: k < m < |infos| ==> infos[m].pageNumber != infos[k].pageNumber
    ensures UpsertInfos(pages, infos)[infos[k].pageNumber] == InfoRow(infos[k])
    decreases |infos|
  {
    if k < |infos| - 1 {
      UpsertLastWins(pages, infos[..|infos| - 1], k);
    }
  }

  /** Rewriting pages that all exist updates them in place: no row is added. */
  lemma UpsertExistingAddsNoRow(pages: PageStore, infos: seq<PageInfo>)
    requires forall k :: 0 <= k < |infos| ==> infos[k].pageNumber in pages
    ensures UpsertInfos(pages, infos).Keys == pages.Keys
    ensures |UpsertInfos(pages, infos)| == |pages|
  {
  }

  // ------------------------------------------------------------- the traditional per-page loop

  /** The members both page records start with: engine, number, text, and how the text was obtained. */
  function RecordHead(engine: string, n: nat, text: string, usedOcr: bool): seq<Member>
  {
    [Member("ocr_engine", JStr(engine)),
     Member("page_number", JInt(n)),
     Member("text", JStr(text)),
     Member("has_ocr", JBool(usedOcr)),
     Member("extraction_method", JStr(if usedOcr then "ocr" else "direct"))]
  }

  /** The `json_data` record of a page written by the per-page loop. */
  function PageJson(engine: string, n: nat, text: string, usedOcr: bool, width: Json, height: Json): Json
  {
    JObject(RecordHead(engine, n, text, usedOcr) + [Member("page_width", width), Member("page_height", height)])
  }

  /** The facts a page record states about itself: its number, its text, and how that text was obtained. */
  predicate ConsistentPageJson(row: PageRow, n: nat)
  {
    && Get(row.json, "page_number") == Some(JInt(n))
    && Get(row.json, "text") == Some(JStr(row.text))
    && Get(row.json, "has_ocr").Some? && Get(row.json, "has_ocr").value.JBool?
    && Get(row.json, "extraction_method") ==
         Some(JStr(if Get(row.json, "has_ocr").value.b then "ocr" else "direct"))
  }

  lemma HeadNumber(engine: string, n: nat, text: string, usedOcr: bool, tail: seq<Member>)
    ensures Lookup(RecordHead(engine, n, text, usedOcr) + tail, "page_number") == Some(JInt(n))
  {
    LookupAt(RecordHead(engine, n, text, usedOcr) + tail, 1, "page_number");
  }

  lemma HeadText(engine: string, n: nat, text: string, usedOcr: bool, tail: seq<Member>)
    ensures Lookup(RecordHead(engine, n, text, usedOcr) + tail, "text") == Some(JStr(text))
  {
    LookupAt(RecordHead(engine, n, text, usedOcr) + tail, 2, "text");
  }

  lemma HeadHasOcr(engine: string, n: nat, text: string, usedOcr: bool, tail: seq<Member>)
    ensures Lookup(RecordHead(engine, n, text, usedOcr) + tail, "has_ocr") == Some(JBool(usedOcr))
  {
    LookupAt(RecordHead(engine, n, text, usedOcr) + tail, 3, "has_ocr");
  }

  lemma HeadMethod(engine: string, n: nat, text: string, usedOcr: bool, tail: seq<Member>)
    ensures Lookup(RecordHead(engine, n, text, usedOcr) + tail, "extraction_method") ==
      Some(JStr(if usedOcr then "ocr" else "direct"))
  {
    LookupAt(RecordHead(engine, n, text, usedOcr) + tail, 4, "extraction_method");
  }

  /** A record starting with `RecordHead` reads back the number, text and OCR flag it was written with. */
  lemma HeadIsConsistent(engine: string, n: nat, text: string, usedOcr: bool, tail: seq<Member>)
    ensures ConsistentPageJson(PageRow(text, JObject(RecordHead(engine, n, text, usedOcr) + tail)), n)
    ensures Get(JObject(RecordHead(engine, n, text, usedOcr) + tail), "has_ocr") == Some(JBool(usedOcr))
  {
    HeadNumber(engine, n, text, usedOcr, tail);
    HeadText(engine, n, text, usedOcr, tail);
    HeadHasOcr(engine, n, text, usedOcr, tail);
    HeadMethod(engine, n, text, usedOcr, tail);
  }

  /** The text an OCR attempt produced, and whether it counts as OCR. */
  datatype Attempt = Attempt(text: string, usedOcr: bool)

  /** An engine call that may raise: a raise gives empty text and no OCR. */
  function Guarded(r: Outcome<string>): (a: Attempt)
    ensures a.usedOcr <==> r.Ok?
    ensures r.Ok? ==> a.text == r.value
    ensures r.Raised? ==> a.text == ""
  {
    match r
    case Ok(t) => Attempt(t, true)
    case Raised(_) => Attempt("", false)
  }

  /** OCR of a page without a text layer. */
  function OcrAttempt(env: Env, e: Engine, path: string, img: Raster): (a: Attempt)
    ensures e == Pymupdf ==> a == Attempt("", false)
    ensures e == Tesseract && !env.pytesseract ==> a == Attempt("", false)
    ensures ((e == Paddleocr && env.paddle.None?) || (e == Trocr && env.trocr.None?)
      || (e == Donut && env.donut.None?) || (e == Olmocr && env.olmocr.None?)) ==> a == Attempt("", false)
    ensures e in {Deepseek, Pdfplumber, Mineru} ==> a.usedOcr
    ensures !a.usedOcr ==> a.text == ""
  {
    match e
    case Pymupdf => Attempt("", false)
    case Tesseract => if env.pytesseract then Guarded(env.tesseract(img)) else Attempt("", false)
    case Deepseek => Attempt(env.Utility(env.deepseekImage(img)), true)
    case Pdfplumber => Attempt(env.PlumberText(path), true)
    case Mineru => Attempt(env.Utility(env.mineruText(path, "pdf")), true)
    case Paddleocr => if env.paddle.Some? then Guarded(env.paddle.value(img)) else Attempt("", false)
    case Trocr => if env.trocr.Some? then Guarded(env.trocr.value(img)) else Attempt("", false)
    case Donut =>
      if env.donut.None? then Attempt("", false)
      else
        (match env.donut.value(img)
         case Ok(sequence) => Attempt(OcrUtils.DonutImageText(sequence), true)
         case Raised(_) => Attempt("", false))
    case Olmocr =>
      if env.olmocr.None? then Attempt("", false)
      else
        (match env.olmocr.value.fromImage(img)
         case Raised(_) => Attempt("", false)
         case Ok(t) => if t != "" && StartsWith(t, "Error") then Attempt("", false) else Attempt(t, true))
  }

  /** An OLMOCR answer starting with "Error" is discarded. */
  lemma OlmocrErrorGivesEmptyText(env: Env, path: string, img: Raster)
    requires env.olmocr.Some? && env.olmocr.value.fromImage(img).Ok?
    requires var t := env.olmocr.value.fromImage(img).value; t != "" && StartsWith(t, "Error")
    ensures OcrAttempt(env, Olmocr, path, img) == Attempt("", false)
  {
  }

  /** The size fields of a page record: the rendering's when OCR ran, else the page rectangle's, if readable. */
  function Width(page: PdfPage): Json
  {
    if IsBlank(page.text) then JInt(page.pixmap.width)
    else if page.rect.Some? then JInt(page.rect.value.width) else JNull
  }

  function Height(page: PdfPage): Json
  {
    if IsBlank(page.text) then JInt(page.pixmap.height)
    else if page.rect.Some? then JInt(page.rect.value.height) else JNull
  }

  /** The text and OCR flag of a page: its text layer unless that is blank. */
  function PageAttempt(env: Env, e: Engine, path: string, page: PdfPage): (a: Attempt)
    ensures !IsBlank(page.text) ==> a == Attempt(page.text, false)
  {
    if IsBlank(page.text) then OcrAttempt(env, e, path, page.pixmap) else Attempt(page.text, false)
  }

  /** The row the per-page loop writes for page `n` of the PDF. */
  function TraditionalRow(env: Env, e: Engine, path: string, n: nat, page: PdfPage): PageRow
  {
    var a := PageAttempt(env, e, path, page);
    PageRow(Strip(a.text), PageJson(Name(e), n, Strip(a.text), a.usedOcr, Width(page), Height(page)))
  }

  /** Rows written at positions `1..|rows|`, in order, every other row kept. */
  function PositionalStore(pages: PageStore, rows: seq<PageRow>): (r: PageStore)
    ensures r.Keys == pages.Keys + PageNumbers(|rows|)
    ensures forall k :: 0 <= k < |rows| ==> r[k + 1] == rows[k]
    ensures forall k :: k in pages && !(1 <= k <= |rows|) ==> r[k] == pages[k]
    decreases |rows|
  {
    if rows == [] then pages
    else
      var init := rows[..|rows| - 1];
      assert forall k :: 0 <= k < |init| ==> init[k] == rows[k];
      PositionalStore(pages, init)[|rows| := rows[|rows| - 1]]
  }

  /** Writing one more row extends the positional store by that row under the next page number. */
  lemma PositionalStoreStep(pages: PageStore, rows: seq<PageRow>, i: nat)
    requires i < |rows|
    ensures PositionalStore(pages, rows[..i + 1]) == PositionalStore(pages, rows[..i])[i + 1 := rows[i]]
  {
    assert rows[..i + 1][..i] == rows[..i];
  }

  /** The rows of the per-page loop, one per page of the PDF. */
  function TraditionalRows(env: Env, e: Engine, path: string, pdf: seq<PdfPage>): (rows: seq<PageRow>)
    ensures |rows| == |pdf|
    ensures forall k :: 0 <= k < |pdf| ==> rows[k] == TraditionalRow(env, e, path, k + 1, pdf[k])
  {
    seq(|pdf|, k requires 0 <= k < |pdf| => RowAt(env, e, path, pdf, k))
  }

  /** The row for the page at index `k`, which is page number `k + 1`. */
  function RowAt(env: Env, e: Engine, path: string, pdf: seq<PdfPage>, k: nat): PageRow
    requires k < |pdf|
  {
    TraditionalRow(env, e, path, k + 1, pdf[k])
  }

  /**
   * Every row of the per-page loop is consistent, and it is marked as OCR
   * only when the page had no text layer.
   */
  lemma TraditionalRowIsConsistent(env: Env, e: Engine, path: string, n: nat, page: PdfPage)
    ensures ConsistentPageJson(TraditionalRow(env, e, path, n, page), n)
    ensures Get(TraditionalRow(env, e, path, n, page).json, "has_ocr") == Some(JBool(true)) ==> IsBlank(page.text)
  {
    var a := PageAttempt(env, e, path, page);
    HeadIsConsistent(Name(e), n, Strip(a.text), a.usedOcr, [Member("page_width", Width(page)), Member("page_height", Height(page))]);
  }

  /** A page with a text layer is stored from that layer, whatever the engines would have produced. */
  lemma TextLayerIgnoresEngines(env: Env, other: Env, e: Engine, path: string, n: nat, page: PdfPage)
    requires !IsBlank(page.text)
    ensures TraditionalRow(env, e, path, n, page) == TraditionalRow(other, e, path, n, page)
    ensures TraditionalRow(env, e, path, n, page).text == Strip(page.text)
    ensures Get(TraditionalRow(env, e, path, n, page).json, "has_ocr") == Some(JBool(false))
  {
    HeadIsConsistent(Name(e), n, Strip(page.text), false, [Member("page_width", Width(page)), Member("page_height", Height(page))]);
  }

  // ------------------------------------------------------------- OLMOCR

  /** The `text` both OLMOCR paths require of some page before accepting the result. */
  predicate HasContent(infos: seq<PageInfo>)
  {
    exists k :: 0 <= k < |infos| && !IsBlank(infos[k].Text())
  }

  /** The fallback text is used only when it is non-empty, not an error, and not blank. */
  predicate UsableFallback(t: string)
  {
    t != "" && !StartsWith(t, "Error") && !IsBlank(t)
  }

  /** `page_info['json_data']['text'] = chunk` when the page's json is truthy; a non-dict raises. */
  function PatchedJson(info: PageInfo, chunk: string): Outcome<Json>
  {
    var j := info.json.GetOr(JNull);
    if !Truthy(j) then Ok(info.JsonData())
    else if j.JObject? then Ok(JObject(PutMember(j.members, "text", JStr(chunk))))
    else Raised("'" + TypeName(j) + "' object does not support item assignment")
  }

  /**
   * The fallback loop over the page dicts: each page is get-or-created
   * with empty text and its json as returned, then an existing row's json
   * is replaced by the patched one. A raise stops the loop, keeping what
   * was written.
   */
  function FallbackStore(pages: PageStore, infos: seq<PageInfo>, chunk: string): (r: Written)
    ensures r.raised.None? <==> forall k :: 0 <= k < |infos| ==> PatchedJson(infos[k], chunk).Ok?
    decreases |infos|
  {
    if infos == [] then Written(pages, None)
    else
      var init := infos[..|infos| - 1];
      var prev := FallbackStore(pages, init, chunk);
      assert forall k :: 0 <= k < |init| ==> init[k] == infos[k];
      if prev.raised.Some? then prev
      else
        var info := infos[|infos| - 1];
        var n := info.pageNumber;
        var created := n !in prev.pages;
        var store := if created then prev.pages[n := PageRow("", info.JsonData())] else prev.pages;
        match PatchedJson(info, chunk)
        case Raised(e) => Written(store, Some(e))
        case Ok(j) => Written(if created then store else store[n := store[n].(json := j)], None)
  }

  /** The leading share of the fallback text given to each of `parts` pages. */
  function Chunk(full: string, parts: nat): (r: string)
    requires parts > 0
    ensures |r| == |full| / parts
  {
    DivAtMost(|full|, parts);
    full[..|full| / parts]
  }

  lemma DivAtMost(a: nat, b: nat)
    requires b > 0
    ensures a / b <= a
  {
    var q := a / b;
    assert q * b + a % b == a;
    MulAtLeast(q, b);
  }

  lemma {:induction false} MulAtLeast(q: nat, b: nat)
    requires b >= 1
    ensures q * b >= q
  {
    if b > 1 {
      MulAtLeast(q, b - 1);
      assert q * b == q * (b - 1) + q;
    }
  }

  /** What the OLMOCR path leaves: whether it finished the document, and the store. */
  datatype OlmocrResult = OlmocrResult(done: bool, pages: PageStore)

  /** The OLMOCR path, once its names were imported. */
  function OlmocrRun(o: OlmocrAdapters, path: string, pages: PageStore): (r: OlmocrResult)
    ensures !o.available ==> r == OlmocrResult(false, pages)
  {
    if !o.available then OlmocrResult(false, pages)
    else
      match o.pagesJson(path)
      case Raised(_) => OlmocrResult(false, pages)
      case Ok(infos) =>
        if infos == [] then OlmocrResult(false, pages)
        else if HasContent(infos) then OlmocrResult(true, UpsertInfos(pages, infos))
        else
          match o.text(path, "pdf")
          case Raised(_) => OlmocrResult(false, pages)
          case Ok(full) =>
            if !UsableFallback(full) then OlmocrResult(false, pages)
            else
              var w := FallbackStore(pages, infos, Chunk(full, |infos|));
              OlmocrResult(w.raised.None?, w.pages)
  }

  /**
   * OLMOCR's page list is taken as it is when it is non-empty and some page
   * has text. Otherwise no page text comes from it: the fallback creates
   * rows with empty text and leaves existing rows' text alone.
   */
  lemma OlmocrResultByContent(o: OlmocrAdapters, path: string, pages: PageStore)
    requires o.available && o.pagesJson(path).Ok?
    ensures var infos := o.pagesJson(path).value; var r := OlmocrRun(o, path, pages);
      (infos == [] ==> r == OlmocrResult(false, pages))
      && (infos != [] && HasContent(infos) ==> r == OlmocrResult(true, UpsertInfos(pages, infos)))
      && (!HasContent(infos) ==>
            r.pages.Keys >= pages.Keys
            && (forall n :: n in pages ==> r.pages[n].text == pages[n].text)
            && (forall n :: n in r.pages && n !in pages ==> r.pages[n].text == ""))
  {
    var infos := o.pagesJson(path).value;
    if infos != [] && !HasContent(infos) && o.text(path, "pdf").Ok? && UsableFallback(o.text(path, "pdf").value) {
      var full := o.text(path, "pdf").value;
      FallbackKeepsTextBlank(pages, infos, Chunk(full, |infos|));
    }
  }

  /**
   * The fallback never gives a page new text: rows it creates have empty
   * text, and rows it updates keep theirs.
   */
  lemma {:induction false} FallbackKeepsTextBlank(pages: PageStore, infos: seq<PageInfo>, chunk: string)
    ensures var r := FallbackStore(pages, infos, chunk).pages;
      r.Keys >= pages.Keys &&
      (forall n :: n in pages ==> r[n].text == pages[n].text) &&
      (forall n :: n in r && n !in pages ==> r[n].text == "")
    decreases |infos|
  {
    if infos != [] {
      FallbackKeepsTextBlank(pages, infos[..|infos| - 1], chunk);
    }
  }

  // ------------------------------------------------------------- the PDF paths

  /** The pdfplumber path, once pdfplumber is available. */
  function PlumberRun(env: Env, path: string, pages: PageStore): (r: Written)
    ensures r.raised.Some? ==> r.pages == pages
  {
    match env.plumberPages(path)
    case Raised(e) => Written(pages, Some(e))
    case Ok(ps) =>
      if ps == [] then Written(pages, Some(PdfplumberNoPagesMessage))
      else Written(TextOnlyStore(pages, StrippedTexts(ps)), None)
  }

  /** The PyMuPDF path: the text layer of every page, without OCR. */
  function PyMuPdfRun(env: Env, path: string, pages: PageStore): (r: Written)
    ensures r.raised.Some? ==> r.pages == pages
  {
    match env.openPdf(path)
    case Raised(e) => Written(pages, Some(e))
    case Ok(pdf) =>
      if pdf == [] then Written(pages, Some(NoPagesMessage))
      else Written(TextOnlyStore(pages, StrippedTexts(TextLayers(pdf))), None)
  }

  /** The traditional path: every page of the PDF through the per-page loop. */
  function TraditionalRun(env: Env, e: Engine, path: string, pages: PageStore): (r: Written)
    ensures r.raised.None? <==> env.openPdf(path).Ok? && env.openPdf(path).value != []
    ensures r.raised.Some? ==> r.pages == pages
  {
    match env.openPdf(path)
    case Raised(err) => Written(pages, Some(err))
    case Ok(pdf) =>
      if pdf == [] then Written(pages, Some(NoPagesMessage))
      else Written(PositionalStore(pages, TraditionalRows(env, e, path, pdf)), None)
  }

  /** The pages left once the OLMOCR path has had its turn (only the OLMOCR engine takes one). */
  function AfterOlmocr(env: Env, e: Engine, path: string, pages: PageStore): OlmocrResult
    requires e == Olmocr ==> env.olmocr.Some?
  {
    if e == Olmocr then OlmocrRun(env.olmocr.value, path, pages) else OlmocrResult(false, pages)
  }

  /**
   * A PDF document: pdfplumber and PyMuPDF finish or raise; MinerU,
   * OLMOCR and PaddleOCR finish when their result is accepted and
   * otherwise fall through to the traditional path.
   */
  function PdfRun(env: Env, e: Engine, path: string, pages: PageStore): Written
  {
    if e == Pdfplumber && env.plumberAvailable then PlumberRun(env, path, pages)
    else if e == Pymupdf then PyMuPdfRun(env, path, pages)
    else if e == Mineru && env.MineruPagesOf(path) != [] then Written(UpsertInfos(pages, env.MineruPagesOf(path)), None)
    else if e == Olmocr && env.olmocr.None? then Written(pages, Some(OlmocrPagesImportError))
    else
      var o := AfterOlmocr(env, e, path, pages);
      if o.done then Written(o.pages, None)
      else if e == Paddleocr && env.PaddleLayoutOf(path) != [] then Written(UpsertInfos(o.pages, env.PaddleLayoutOf(path)), None)
      else TraditionalRun(env, e, path, o.pages)
  }

  // ------------------------------------------------------------- the image path

  /** The text of an image document, or the exception raised on the way. */
  function ImageText(env: Env, field: string, e: Engine, path: string): (r: Outcome<string>)
    ensures e == Pdfplumber ==> r == Ok(UnknownEngineText(field))
    ensures r.Raised? ==> e == Olmocr
  {
    match e
    case Pymupdf => Ok(if env.pytesseract then env.Utility(env.tesseractFile(path)) else "")
    case Mineru => Ok(env.mineruText(path, "image"))
    case Tesseract => Ok(env.Utility(env.tesseractFile(path)))
    case Deepseek => Ok(env.Utility(env.deepseekFile(path)))
    case Paddleocr => Ok(env.Utility(env.paddleFile(path)))
    case Trocr => Ok(env.Utility(env.trocrFile(path)))
    case Donut => Ok(env.Utility(env.donutFile(path)))
    case Olmocr =>
      if env.olmocr.None? then Raised(OlmocrTextImportError)
      else
        (match env.olmocr.value.text(path, "image")
         case Raised(err) => Raised(err)
         case Ok(t) => Ok(if t != "" && StartsWith(t, "Error") then "" else t))
    case Pdfplumber => Ok(UnknownEngineText(field))
  }

  /** The `json_data` record of an image's single page. */
  function ImageJson(engine: string, text: string): Json
  {
    JObject(RecordHead(engine, 1, text, true) + [Member("file_type", JStr("image"))])
  }

  /** An image document: page 1 is created from the OCR text; an existing page 1 makes the create fail. */
  function ImageRun(env: Env, field: string, e: Engine, path: string, pages: PageStore): (r: Written)
    ensures r.raised.None? ==> 1 !in pages && 1 in r.pages && r.pages == pages[1 := r.pages[1]]
    ensures r.raised.Some? ==> r.pages == pages
  {
    match ImageText(env, field, e, path)
    case Raised(err) => Written(pages, Some(err))
    case Ok(t) =>
      if 1 in pages then Written(pages, Some(DuplicatePageMessage))
      else Written(pages[1 := PageRow(Strip(t), ImageJson(Name(e), Strip(t)))], None)
  }

  /** An image yields one page numbered 1, marked as OCR, whose json text is the stored text. */
  lemma ImagePageIsOcr(env: Env, field: string, e: Engine, path: string, pages: PageStore)
    requires ImageRun(env, field, e, path, pages).raised.None?
    ensures var r := ImageRun(env, field, e, path, pages).pages[1];
      ConsistentPageJson(r, 1) && Get(r.json, "has_ocr") == Some(JBool(true))
  {
    var t := ImageText(env, field, e, path).value;
    HeadIsConsistent(Name(e), 1, Strip(t), true, [Member("file_type", JStr("image"))]);
  }

  /** `pdfplumber` is a valid engine but the image path has no case for it: the page stores an error text. */
  lemma PdfplumberImageStoresError(env: Env, field: string, path: string)
    ensures ImageRun(env, field, Pdfplumber, path, map[]).pages[1].text == Strip(UnknownEngineText(field))
  {
  }

  // ------------------------------------------------------------- the whole call

  /** What `process_document_file` leaves in the document, and what it raises. */
  datatype Processed = Processed(fileType: string, ocrEngine: string, pages: PageStore, raised: Option<string>)

  /** The file type after the orchestrator's inference: a blank type is inferred from the file's name. */
  function FileTypeOf(fileType: string, file: FileRef): string
  {
    if fileType == "" then InferFileType(Lower(file.name), SaveImageExts) else fileType
  }

  /** The pages a present, existing file leads to. */
  function Dispatch(env: Env, ft: string, field: string, path: string, pages: PageStore): Written
    requires Lower(field) in ValidEngines
  {
    var e := EngineOf(Lower(field)).value;
    if ft == "pdf" then PdfRun(env, e, path, pages)
    else if ft == "image" then ImageRun(env, field, e, path, pages)
    else Written(pages, None)
  }

  /** The specification of `process_document_file(document)`. */
  function Process(pk: nat, file: Option<FileRef>, fileType: string, ocrEngine: string, pages: PageStore, env: Env): (r: Processed)
    ensures file.None? ==> r == Processed(fileType, ocrEngine, pages, Some(NoFileMessage(pk)))
    ensures file.Some? && !env.fileExists(file.value.path) ==>
      r == Processed(fileType, ocrEngine, pages, Some(FileNotFoundMessage(file.value.path)))
    ensures file.Some? && env.fileExists(file.value.path) ==>
      r.ocrEngine == NormalizedEngineField(ocrEngine) && r.fileType == FileTypeOf(fileType, file.value)
    ensures r.fileType !in {"pdf", "image"} ==> r.pages == pages
    ensures file.Some? && env.fileExists(file.value.path) && r.fileType !in {"pdf", "image"} ==> r.raised.None?
  {
    if file.None? then Processed(fileType, ocrEngine, pages, Some(NoFileMessage(pk)))
    else if !env.fileExists(file.value.path) then Processed(fileType, ocrEngine, pages, Some(FileNotFoundMessage(file.value.path)))
    else
      var ft := FileTypeOf(fileType, file.value);
      var field := NormalizedEngineField(ocrEngine);
      var w := Dispatch(env, ft, field, file.value.path, pages);
      Processed(ft, field, w.pages, w.raised)
  }

  /** Processing a document whose pages were deleted first. */
  function Reprocess(s: DocState, env: Env): Processed
  {
    Process(s.pk, s.file, s.fileType, s.ocrEngine, map[], env)
  }

  /**
   * The traditional path: a PDF without pages raises and writes nothing;
   * otherwise pages 1..N are written from the N source pages, in order,
   * each with a consistent record, every other row kept.
   */
  lemma TraditionalWritesEveryPage(env: Env, e: Engine, path: string, pages: PageStore)
    requires env.openPdf(path).Ok?
    ensures var pdf := env.openPdf(path).value; var r := TraditionalRun(env, e, path, pages);
      (pdf == [] ==> r == Written(pages, Some(NoPagesMessage)))
      && (pdf != [] ==>
            (r.raised.None? && r.pages.Keys == pages.Keys + PageNumbers(|pdf|)
             && forall j :: 0 <= j < |pdf| ==>
                  (r.pages[j + 1] == TraditionalRow(env, e, path, j + 1, pdf[j]) && ConsistentPageJson(r.pages[j + 1], j + 1))))
  {
    var pdf := env.openPdf(path).value;
    forall j | 0 <= j < |pdf|
      ensures ConsistentPageJson(TraditionalRow(env, e, path, j + 1, pdf[j]), j + 1)
    {
      TraditionalRowIsConsistent(env, e, path, j + 1, pdf[j]);
    }
  }

  /** MinerU's page list is taken whenever it is non-empty; an empty one falls through to the per-page loop. */
  lemma MineruAcceptedIffNonEmpty(env: Env, path: string, pages: PageStore)
    ensures env.MineruPagesOf(path) != [] ==> PdfRun(env, Mineru, path, pages) == Written(UpsertInfos(pages, env.MineruPagesOf(path)), None)
    ensures env.MineruPagesOf(path) == [] ==> PdfRun(env, Mineru, path, pages) == TraditionalRun(env, Mineru, path, pages)
  {
  }

  /** Without the OLMOCR names the OLMOCR path raises before writing. */
  lemma OlmocrImportFailureRaises(env: Env, path: string, pages: PageStore)
    requires env.olmocr.None?
    ensures PdfRun(env, Olmocr, path, pages) == Written(pages, Some(OlmocrPagesImportError))
  {
  }

  // ------------------------------------------------------------- the procedure

  /** The text-only loop of the pdfplumber and PyMuPDF paths: get-or-create, then save the text. */
  method WriteTexts(doc: Document, texts: seq<string>)
    modifies doc
    ensures doc.pages == TextOnlyStore(old(doc.pages), texts)
    ensures unchanged(doc`pk) && unchanged(doc`title) && unchanged(doc`file) && unchanged(doc`fileType) && unchanged(doc`ocrEngine)
  {
    ghost var start := doc.pages;
    for i := 0 to |texts|
      invariant doc.pages == TextOnlyStore(start, texts[..i])
      invariant unchanged(doc`pk) && unchanged(doc`title) && unchanged(doc`file) && unchanged(doc`fileType) && unchanged(doc`ocrEngine)
    {
      assert texts[..i + 1][..i] == texts[..i];
      var text := texts[i];
      var created := doc.GetOrCreatePage(i + 1, PageRow(text, JNull));
      if !created {
        doc.SavePage(i + 1, doc.pages[i + 1].(text := text));
      }
    }
    assert texts[..|texts|] == texts;
  }

  /** The loop of the MinerU, OLMOCR and PaddleOCR paths. */
  method WriteInfos(doc: Document, infos: seq<PageInfo>)
    modifies doc
    ensures doc.pages == UpsertInfos(old(doc.pages), infos)
    ensures unchanged(doc`pk) && unchanged(doc`title) && unchanged(doc`file) && unchanged(doc`fileType) && unchanged(doc`ocrEngine)
  {
    ghost var start := doc.pages;
    for i := 0 to |infos|
      invariant doc.pages == UpsertInfos(start, infos[..i])
      invariant unchanged(doc`pk) && unchanged(doc`title) && unchanged(doc`file) && unchanged(doc`fileType) && unchanged(doc`ocrEngine)
    {
      assert infos[..i + 1][..i] == infos[..i];
      var row := InfoRow(infos[i]);
      var created := doc.GetOrCreatePage(infos[i].pageNumber, row);
      if !created {
        doc.SavePage(infos[i].pageNumber, row);
      }
    }
    assert infos[..|infos|] == infos;
  }

  /** Once the fallback loop has raised on a prefix, the whole loop raised with the same store. */
  lemma {:induction false} FallbackStaysRaised(pages: PageStore, infos: seq<PageInfo>, chunk: string, i: nat)
    requires i <= |infos| && FallbackStore(pages, infos[..i], chunk).raised.Some?
    ensures FallbackStore(pages, infos, chunk) == FallbackStore(pages, infos[..i], chunk)
    decreases |infos| - i
  {
    if i < |infos| {
      assert infos[..i + 1][..i] == infos[..i];
      FallbackStaysRaised(pages, infos, chunk, i + 1);
    } else {
      assert infos[..i] == infos;
    }
  }

  /** The OLMOCR fallback loop; `ok` is false when patching a page's json raised. */
  method WriteFallback(doc: Document, infos: seq<PageInfo>, chunk: string) returns (ok: bool)
    modifies doc
    ensures doc.pages == FallbackStore(old(doc.pages), infos, chunk).pages
    ensures ok <==> FallbackStore(old(doc.pages), infos, chunk).raised.None?
    ensures unchanged(doc`pk) && unchanged(doc`title) && unchanged(doc`file) && unchanged(doc`fileType) && unchanged(doc`ocrEngine)
  {
    ghost var start := doc.pages;
    for i := 0 to |infos|
      invariant FallbackStore(start, infos[..i], chunk) == Written(doc.pages, None)
      invariant unchanged(doc`pk) && unchanged(doc`title) && unchanged(doc`file) && unchanged(doc`fileType) && unchanged(doc`ocrEngine)
    {
      assert infos[..i + 1][..i] == infos[..i];
      var info := infos[i];
      var created := doc.GetOrCreatePage(info.pageNumber, PageRow("", info.JsonData()));
      var patched := PatchedJson(info, chunk);
      if patched.Raised? {
        FallbackStaysRaised(start, infos, chunk, i + 1);
        return false;
      }
      if !created {
        doc.SavePage(info.pageNumber, doc.pages[info.pageNumber].(json := patched.value));
      }
    }
    assert infos[..|infos|] == infos;
    ok := true;
  }

  /** The OLMOCR path once imported; `done` when it finished the document. */
  method RunOlmocr(doc: Document, o: OlmocrAdapters, path: string) returns (done: bool)
    modifies doc
    ensures OlmocrResult(done, doc.pages) == OlmocrRun(o, path, old(doc.pages))
    ensures unchanged(doc`pk) && unchanged(doc`title) && unchanged(doc`file) && unchanged(doc`fileType) && unchanged(doc`ocrEngine)
  {
    if !o.available {
      return false;
    }
    match o.pagesJson(path) {
      case Raised(_) => return false;
      case Ok(infos) =>
        if infos == [] {
          return false;
        }
        if HasContent(infos) {
          WriteInfos(doc, infos);
          return true;
        }
        match o.text(path, "pdf") {
          case Raised(_) => return false;
          case Ok(full) =>
            if !UsableFallback(full) {
              return false;
            }
            done := WriteFallback(doc, infos, Chunk(full, |infos|));
        }
    }
  }

  /** The per-page loop over the opened PDF. */
  method WriteTraditional(doc: Document, env: Env, e: Engine, path: string, pdf: seq<PdfPage>)
    modifies doc
    ensures doc.pages == PositionalStore(old(doc.pages), TraditionalRows(env, e, path, pdf))
    ensures unchanged(doc`pk) && unchanged(doc`title) && unchanged(doc`file) && unchanged(doc`fileType) && unchanged(doc`ocrEngine)
  {
    ghost var start := doc.pages;
    ghost var rows := TraditionalRows(env, e, path, pdf);
    var pagesCreated := 0;
    for i := 0 to |pdf|
      invariant doc.pages == PositionalStore(start, rows[..i])
      invariant pagesCreated == i
      invariant unchanged(doc`pk) && unchanged(doc`title) && unchanged(doc`file) && unchanged(doc`fileType) && unchanged(doc`ocrEngine)
    {
      var row := TraditionalRow(env, e, path, i + 1, pdf[i]);
      assert row == rows[i];
      PositionalStoreStep(start, rows, i);
      var created := doc.GetOrCreatePage(i + 1, row);
      if !created {
        doc.SavePage(i + 1, row);
      }
      pagesCreated := pagesCreated + 1;
    }
    assert rows[..|pdf|] == rows;
  }

  /** The traditional path: open the PDF, refuse one without pages, run the per-page loop. */
  method RunTraditional(doc: Document, env: Env, e: Engine, path: string) returns (raised: Option<string>)
    modifies doc
    ensures Written(doc.pages, raised) == TraditionalRun(env, e, path, old(doc.pages))
    ensures unchanged(doc`pk) && unchanged(doc`title) && unchanged(doc`file) && unchanged(doc`fileType) && unchanged(doc`ocrEngine)
  {
    match env.openPdf(path) {
      case Raised(err) => return Some(err);
      case Ok(pdf) =>
        if pdf == [] {
          return Some(NoPagesMessage);
        }
        WriteTraditional(doc, env, e, path, pdf);
        return None;
    }
  }

  /** The text-only paths: pdfplumber (once available) and PyMuPDF. */
  method RunTextOnly(doc: Document, env: Env, e: Engine, path: string) returns (raised: Option<string>)
    requires e == Pymupdf || (e == Pdfplumber && env.plumberAvailable)
    modifies doc
    ensures Written(doc.pages, raised) == PdfRun(env, e, path, old(doc.pages))
    ensures unchanged(doc`pk) && unchanged(doc`title) && unchanged(doc`file) && unchanged(doc`fileType) && unchanged(doc`ocrEngine)
  {
    if e == Pdfplumber {
      match env.plumberPages(path) {
        case Raised(err) => return Some(err);
        case Ok(ps) =>
          if ps == [] {
            return Some(PdfplumberNoPagesMessage);
          }
          WriteTexts(doc, StrippedTexts(ps));
          return None;
      }
    }
    match env.openPdf(path) {
      case Raised(err) => return Some(err);
      case Ok(pdf) =>
        if pdf == [] {
          return Some(NoPagesMessage);
        }
        WriteTexts(doc, StrippedTexts(TextLayers(pdf)));
        return None;
    }
  }

  /** The PDF paths in the orchestrator's order. */
  method RunPdf(doc: Document, env: Env, e: Engine, path: string) returns (raised: Option<string>)
    modifies doc
    ensures Written(doc.pages, raised) == PdfRun(env, e, path, old(doc.pages))
    ensures unchanged(doc`pk) && unchanged(doc`title) && unchanged(doc`file) && unchanged(doc`fileType) && unchanged(doc`ocrEngine)
  {
    if e == Pymupdf || (e == Pdfplumber && env.plumberAvailable) {
      raised := RunTextOnly(doc, env, e, path);
      return;
    }
    if e == Mineru {
      var pagesData := env.MineruPagesOf(path);
      if pagesData != [] {
        WriteInfos(doc, pagesData);
        return None;
      }
    }
    ghost var start := doc.pages;
    if e == Olmocr {
      if env.olmocr.None? {
        return Some(OlmocrPagesImportError);
      }
      var done := RunOlmocr(doc, env.olmocr.value, path);
      if done {
        return None;
      }
    }
    assert AfterOlmocr(env, e, path, start) == OlmocrResult(false, doc.pages);
    if e == Paddleocr {
      var pagesData := env.PaddleLayoutOf(path);
      if pagesData != [] {
        WriteInfos(doc, pagesData);
        return None;
      }
    }
    raised := RunTraditional(doc, env, e, path);
  }

  /** The image path: OCR the file and create page 1. */
  method RunImage(doc: Document, env: Env, e: Engine, path: string) returns (raised: Option<string>)
    modifies doc
    ensures Written(doc.pages, raised) == ImageRun(env, doc.ocrEngine, e, path, old(doc.pages))
    ensures unchanged(doc`pk) && unchanged(doc`title) && unchanged(doc`file) && unchanged(doc`fileType) && unchanged(doc`ocrEngine)
  {
    var text := ImageText(env, doc.ocrEngine, e, path);
    match text {
      case Raised(err) => return Some(err);
      case Ok(t) =>
        var stored := Strip(t);
        var ok := doc.CreatePage(1, PageRow(stored, ImageJson(Name(e), stored)));
        if !ok {
          return Some(DuplicatePageMessage);
        }
        return None;
    }
  }

  /**
   * `process_document_file(document)`: it checks the file, fills in the
   * file type and a valid engine, and writes the pages by the path the
   * engine and file type select.
   */
  method ProcessDocumentFile(doc: Document, env: Env) returns (raised: Option<string>)
    modifies doc
    ensures Processed(doc.fileType, doc.ocrEngine, doc.pages, raised) ==
      Process(old(doc.pk), old(doc.file), old(doc.fileType), old(doc.ocrEngine), old(doc.pages), env)
    ensures unchanged(doc`pk) && unchanged(doc`title) && unchanged(doc`file)
  {
    if doc.file.None? {
      return Some(NoFileMessage(doc.pk));
    }
    var path := doc.file.value.path;
    if !env.fileExists(path) {
      return Some(FileNotFoundMessage(path));
    }
    SettleFields(doc);
    raised := RunDispatch(doc, env, path);
  }

  /** The orchestrator's first changes: a blank file type is inferred from the name, an unknown or blank engine becomes MinerU. */
  method SettleFields(doc: Document)
    requires doc.file.Some?
    modifies doc
    ensures unchanged(doc`pk) && unchanged(doc`title) && unchanged(doc`file) && unchanged(doc`pages)
    ensures doc.fileType == FileTypeOf(old(doc.fileType), doc.file.value)
    ensures doc.ocrEngine == NormalizedEngineField(old(doc.ocrEngine))
  {
    if doc.fileType == "" {
      doc.fileType := InferFileType(Lower(doc.file.value.name), SaveImageExts);
    }
    if doc.ocrEngine == "" {
      doc.ocrEngine := "mineru";
    }
    if Lower(doc.ocrEngine) !in ValidEngines {
      doc.ocrEngine := "mineru";
    }
  }

  /** The engine dispatch of `process_document_file`, once the type and engine fields are settled. */
  method RunDispatch(doc: Document, env: Env, path: string) returns (raised: Option<string>)
    requires Lower(doc.ocrEngine) in ValidEngines
    modifies doc
    ensures unchanged(doc`pk) && unchanged(doc`title) && unchanged(doc`file)
    ensures unchanged(doc`fileType) && unchanged(doc`ocrEngine)
    ensures Written(doc.pages, raised) == Dispatch(env, doc.fileType, doc.ocrEngine, path, old(doc.pages))
  {
    var e := EngineOf(Lower(doc.ocrEngine)).value;
    if doc.fileType == "pdf" {
      raised := RunPdf(doc, env, e, path);
    } else if doc.fileType == "image" {
      raised := RunImage(doc, env, e, path);
    } else {
      raised := None;
    }
  }
}
