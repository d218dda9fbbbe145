/**
 * The deterministic parts of the OCR adapters: normalising MinerU's
 * middle JSON into a page list, joining pdfplumber's page texts, Donut's
 * text-key selection, DeepSeek's mode dispatch with its lazily created
 * recogniser, and the text-only PDF extraction.
 */
module OcrUtils {
  import opened Wrappers
  import opened Text
  import opened Json
  import opened Engines

  // ------------------------------------------------------------- MinerU

  /**
   * The values of the blocks' `text` fields, for the blocks that have
   * one, in block order (`[block['text'] for block in blocks if 'text' in block]`).
   */
  function BlockParts(blocks: seq<Json>): (r: Outcome<seq<Json>>)
    ensures r.Ok? ==> |r.value| <= |blocks|
    decreases |blocks|
  {
    if blocks == [] then Ok([])
    else
      match BlockParts(blocks[..|blocks| - 1])
      case Raised(e) => Raised(e)
      case Ok(parts) =>
        var b := blocks[|blocks| - 1];
        match In("text", b)
        case Raised(e) => Raised(e)
        case Ok(has) =>
          if !has then Ok(parts)
          else
            match Index(b, "text")
            case Raised(e) => Raised(e)
            case Ok(v) => Ok(parts + [v])
  }

  /** `sep.join(parts)`, which raises unless every part is a string. */
  function JoinStrings(parts: seq<Json>, sep: string): (r: Outcome<string>)
    ensures r.Ok? <==> forall k :: 0 <= k < |parts| ==> parts[k].JStr?
  {
    if forall k :: 0 <= k < |parts| ==> parts[k].JStr? then
      Ok(Join(seq(|parts|, k requires 0 <= k < |parts| => parts[k].s), sep))
    else Raised("sequence item: expected str instance")
  }

  /** The text MinerU gives a page: the `"\n\n"` join of its blocks' texts, `""` without blocks. */
  function BlockText(page: Json): Outcome<string>
  {
    match In("blocks", page)
    case Raised(e) => Raised(e)
    case Ok(has) =>
      if !has then Ok("")
      else
        match Index(page, "blocks")
        case Raised(e) => Raised(e)
        case Ok(blocks) =>
          match Iterate(blocks)
          case Raised(e) => Raised(e)
          case Ok(items) =>
            match BlockParts(items)
            case Raised(e) => Raised(e)
            case Ok(parts) => JoinStrings(parts, "\n\n")
  }

  /** One page record per entry of `middle_json['pages']`, numbered from 1. */
  function PagesFrom(pages: seq<Json>): (r: Outcome<seq<PageInfo>>)
    ensures r.Ok? ==> |r.value| == |pages|
    ensures r.Ok? ==> forall k :: 0 <= k < |pages| ==>
      r.value[k].pageNumber == k + 1 && r.value[k].json == Some(pages[k])
      && r.value[k].text.Some? && BlockText(pages[k]) == Ok(r.value[k].text.value)
    ensures r.Raised? <==> exists k :: 0 <= k < |pages| && BlockText(pages[k]).Raised?
    decreases |pages|
  {
    if pages == [] then Ok([])
    else
      var init := pages[..|pages| - 1];
      var page := pages[|pages| - 1];
      match PagesFrom(init)
      case Raised(e) =>
        assert exists k :: 0 <= k < |init| && BlockText(init[k]).Raised?;
        Raised(e)
      case Ok(infos) =>
        match BlockText(page)
        case Raised(e) => Raised(e)
        case Ok(text) => Ok(infos + [PageInfo(|pages|, Some(text), Some(page))])
  }

  /**
   * The pages read from MinerU's middle JSON: one per entry of `pages`
   * when that key is present, otherwise a single page 1 built from the
   * top-level blocks.
   */
  function MiddlePages(middle: Json): (r: Outcome<seq<PageInfo>>)
  {
    match In("pages", middle)
    case Raised(e) => Raised(e)
    case Ok(has) =>
      if has then
        match Index(middle, "pages")
        case Raised(e) => Raised(e)
        case Ok(pages) =>
          match Iterate(pages)
          case Raised(e) => Raised(e)
          case Ok(items) => PagesFrom(items)
      else
        match BlockText(middle)
        case Raised(e) => Raised(e)
        case Ok(text) => Ok([PageInfo(1, Some(text), Some(middle))])
  }

  /** The direct-text fallback: one record per PDF page, with json `{'text': ..., 'extracted_directly': True}`. */
  function DirectPages(texts: seq<string>): (r: seq<PageInfo>)
    ensures |r| == |texts|
    ensures forall k :: 0 <= k < |texts| ==> r[k] == PageInfo(k + 1, Some(texts[k]),
      Some(JObject([Member("text", JStr(texts[k])), Member("extracted_directly", JBool(true))])))
  {
    seq(|texts|, k requires 0 <= k < |texts| => PageInfo(k + 1, Some(texts[k]),
      Some(JObject([Member("text", JStr(texts[k])), Member("extracted_directly", JBool(true))]))))
  }

  /** The page list `extract_pages_with_mineru_json` returns, as a function of what its calls produce. */
  function MineruPages(available: bool, parsed: Outcome<Option<Json>>, pdfTexts: Outcome<seq<string>>): seq<PageInfo>
  {
    if !available then []
    else
      match parsed
      case Raised(_) => []
      case Ok(middle) =>
        var collected := if middle.None? then Ok([]) else MiddlePages(middle.value);
        match collected
        case Raised(_) => []
        case Ok(pages) =>
          if pages != [] then pages
          else
            match pdfTexts
            case Raised(_) => []
            case Ok(texts) => DirectPages(texts)
  }

  /**
   * `[block['text'] for block in blocks if 'text' in block]`, by appending
   * in a loop.
   */
  method CollectBlockParts(blocks: seq<Json>) returns (r: Outcome<seq<Json>>)
    ensures r == BlockParts(blocks)
  {
    var parts: seq<Json> := [];
    for i := 0 to |blocks|
      invariant BlockParts(blocks[..i]) == Ok(parts)
    {
      assert blocks[..i + 1][..i] == blocks[..i];
      var b := blocks[i];
      match In("text", b) {
        case Raised(e) =>
          r := Raised(e);
          PartsStayRaised(blocks, i + 1);
          return;
        case Ok(has) =>
          if has {
            match Index(b, "text") {
              case Raised(e) =>
                r := Raised(e);
                PartsStayRaised(blocks, i + 1);
                return;
              case Ok(v) => parts := parts + [v];
            }
          }
      }
    }
    assert blocks[..|blocks|] == blocks;
    r := Ok(parts);
  }

  /** Once a prefix of the blocks makes `BlockParts` raise, so do all the blocks. */
  lemma {:induction false} PartsStayRaised(blocks: seq<Json>, i: nat)
    requires i <= |blocks| && BlockParts(blocks[..i]).Raised?
    ensures BlockParts(blocks) == BlockParts(blocks[..i])
    decreases |blocks| - i
  {
    if i < |blocks| {
      assert blocks[..i + 1][..i] == blocks[..i];
      PartsStayRaised(blocks, i + 1);
    } else {
      assert blocks[..i] == blocks;
    }
  }

  /** Once a prefix of the pages makes `PagesFrom` raise, so do all the pages. */
  lemma {:induction false} PagesStayRaised(pages: seq<Json>, i: nat)
    requires i <= |pages| && PagesFrom(pages[..i]).Raised?
    ensures PagesFrom(pages).Raised?
    decreases |pages| - i
  {
    if i < |pages| {
      assert pages[..i + 1][..i] == pages[..i];
      PagesStayRaised(pages, i + 1);
    } else {
      assert pages[..i] == pages;
    }
  }

  /** The text of one page's blocks. */
  method PageBlockText(page: Json) returns (r: Outcome<string>)
    ensures r == BlockText(page)
  {
    match In("blocks", page) {
      case Raised(e) => return Raised(e);
      case Ok(has) =>
        if !has {
          return Ok("");
        }
    }
    match Index(page, "blocks") {
      case Raised(e) => return Raised(e);
      case Ok(blocks) =>
        match Iterate(blocks) {
          case Raised(e) => return Raised(e);
          case Ok(items) =>
            var parts := CollectBlockParts(items);
            match parts {
              case Raised(e) => return Raised(e);
              case Ok(ps) => return JoinStrings(ps, "\n\n");
            }
        }
    }
  }

  /** The page records of every entry of `middle_json['pages']`. */
  method CollectPages(items: seq<Json>) returns (r: Outcome<seq<PageInfo>>)
    ensures r == PagesFrom(items) || (r.Raised? && PagesFrom(items).Raised?)
  {
    var pagesData: seq<PageInfo> := [];
    for i := 0 to |items|
      invariant PagesFrom(items[..i]) == Ok(pagesData)
    {
      assert items[..i + 1][..i] == items[..i];
      var text := PageBlockText(items[i]);
      if text.Raised? {
        PagesStayRaised(items, i + 1);
        return Raised(text.error);
      }
      pagesData := pagesData + [PageInfo(i + 1, Some(text.value), Some(items[i]))];
    }
    assert items[..|items|] == items;
    r := Ok(pagesData);
  }

  /** The pages of MinerU's middle JSON. */
  method ReadMiddlePages(middle: Json) returns (r: Outcome<seq<PageInfo>>)
    ensures r.Ok? <==> MiddlePages(middle).Ok?
    ensures r.Ok? ==> r == MiddlePages(middle)
  {
    match In("pages", middle) {
      case Raised(e) => return Raised(e);
      case Ok(has) =>
        if has {
          match Index(middle, "pages") {
            case Raised(e) => return Raised(e);
            case Ok(pages) =>
              match Iterate(pages) {
                case Raised(e) => return Raised(e);
                case Ok(items) => r := CollectPages(items);
              }
          }
        } else {
          var text := PageBlockText(middle);
          if text.Raised? {
            return Raised(text.error);
          }
          r := Ok([PageInfo(1, Some(text.value), Some(middle))]);
        }
    }
  }

  /** The direct-text fallback, page by page. */
  method CollectDirectPages(texts: seq<string>) returns (pagesData: seq<PageInfo>)
    ensures pagesData == DirectPages(texts)
  {
    pagesData := [];
    for i := 0 to |texts|
      invariant pagesData == DirectPages(texts[..i])
    {
      pagesData := pagesData + [PageInfo(i + 1, Some(texts[i]),
        Some(JObject([Member("text", JStr(texts[i])), Member("extracted_directly", JBool(true))])))];
    }
    assert texts[..|texts|] == texts;
  }

  /**
   * `extract_pages_with_mineru_json`: MinerU unavailable, or any exception,
   * gives `[]`; otherwise the pages of the middle JSON, or the direct-text
   * fallback when none were collected.
   */
  method ExtractPagesWithMineruJson(available: bool, parsed: Outcome<Option<Json>>, pdfTexts: Outcome<seq<string>>)
    returns (pagesData: seq<PageInfo>)
    ensures pagesData == MineruPages(available, parsed, pdfTexts)
  {
    if !available || parsed.Raised? {
      return [];
    }
    pagesData := [];
    if parsed.value.Some? {
      var collected := ReadMiddlePages(parsed.value.value);
      if collected.Raised? {
        return [];
      }
      pagesData := collected.value;
    }
    if pagesData == [] {
      match pdfTexts {
        case Raised(_) => return [];
        case Ok(texts) => pagesData := CollectDirectPages(texts);
      }
    }
  }

  /** MinerU's pages are numbered 1, 2, ... in order, and nothing comes back when MinerU is unavailable or fails. */
  lemma MineruPagesAreNumbered(available: bool, parsed: Outcome<Option<Json>>, pdfTexts: Outcome<seq<string>>)
    ensures !available || parsed.Raised? ==> MineruPages(available, parsed, pdfTexts) == []
    ensures forall k :: 0 <= k < |MineruPages(available, parsed, pdfTexts)| ==>
      MineruPages(available, parsed, pdfTexts)[k].pageNumber == k + 1
  {
    if available && parsed.Ok? && parsed.value.Some? {
      var middle := parsed.value.value;
      if MiddlePages(middle).Ok? && In("pages", middle) == Ok(false) {
        assert |MiddlePages(middle).value| == 1;
      }
    }
  }

  /** Without a `pages` key, MinerU's output is a single page numbered 1 holding the whole middle JSON. */
  lemma MiddleWithoutPagesIsOnePage(middle: Json)
    requires middle.JObject? && "pages" !in Keys(middle.members)
    requires BlockText(middle).Ok?
    ensures MiddlePages(middle) == Ok([PageInfo(1, Some(BlockText(middle).value), Some(middle))])
  {
  }

  // ------------------------------------------------------------- pdfplumber

  const PdfplumberMissing := "Error: pdfplumber is not installed. Install it with: pip install pdfplumber"
  const PdfplumberPdfOnly := "Error: pdfplumber only works with PDF files"

  /** The page texts that are neither `None` nor empty, in page order. */
  function NonEmptyTexts(pages: seq<Option<string>>): (r: seq<string>)
    ensures forall k :: 0 <= k < |r| ==> r[k] != ""
    ensures forall t :: t in r <==> t != "" && Some(t) in pages
    decreases |pages|
  {
    if pages == [] then []
    else
      var init := NonEmptyTexts(pages[..|pages| - 1]);
      assert pages == pages[..|pages| - 1] + [pages[|pages| - 1]];
      var last := pages[|pages| - 1];
      if last.Some? && last.value != "" then init + [last.value] else init
  }

  /**
   * `extract_text_with_pdfplumber(file_path, file_type)`. `pages` is what
   * opening the file and extracting each page's text produced (`None` for
   * a page without text), or the exception raised on the way.
   */
  method ExtractTextWithPdfplumber(available: bool, fileType: string, pages: Outcome<seq<Option<string>>>)
    returns (text: string)
    ensures !available ==> text == PdfplumberMissing
    ensures available && fileType != "pdf" ==> text == PdfplumberPdfOnly
    ensures available && fileType == "pdf" && pages.Raised? ==> text == "Error with pdfplumber: " + pages.error
    ensures available && fileType == "pdf" && pages.Ok? ==> text == Join(NonEmptyTexts(pages.value), "\n\n")
  {
    if !available {
      return PdfplumberMissing;
    }
    if fileType != "pdf" {
      return PdfplumberPdfOnly;
    }
    match pages {
      case Raised(e) => return "Error with pdfplumber: " + e;
      case Ok(ps) =>
        var textParts: seq<string> := [];
        for i := 0 to |ps|
          invariant textParts == NonEmptyTexts(ps[..i])
        {
          assert ps[..i + 1][..i] == ps[..i];
          if ps[i].Some? && ps[i].value != "" {
            textParts := textParts + [ps[i].value];
          }
        }
        assert ps[..|ps|] == ps;
        text := if textParts != [] then Join(textParts, "\n\n") else "";
    }
  }

  /** Joining non-empty parts gives `""` exactly when there are no parts. */
  lemma {:induction false} JoinOfNonEmptyParts(parts: seq<string>, sep: string)
    requires forall k :: 0 <= k < |parts| ==> parts[k] != ""
    ensures Join(parts, sep) == "" <==> parts == []
  {
    if |parts| >= 2 {
      assert |Join(parts, sep)| >= |parts[0]|;
    }
  }

  /** pdfplumber's text is empty exactly when no page yielded text. */
  lemma PdfplumberEmptyIffNoPageText(pages: seq<Option<string>>)
    ensures Join(NonEmptyTexts(pages), "\n\n") == "" <==>
      forall k :: 0 <= k < |pages| ==> pages[k].None? || pages[k].value == ""
  {
    var parts := NonEmptyTexts(pages);
    JoinOfNonEmptyParts(parts, "\n\n");
    if parts != [] {
      assert parts[0] in parts;
    }
    if exists k :: 0 <= k < |pages| && pages[k].Some? && pages[k].value != "" {
      var k :| 0 <= k < |pages| && pages[k].Some? && pages[k].value != "";
      assert pages[k] in pages;
      assert pages[k].value in parts;
    }
  }

  // ------------------------------------------------------------- Donut

  /** The keys of Donut's JSON tried for text, in order. */
  const DonutKeys: seq<string> := ["text", "text_sequence", "texts", "content"]

  /** `str(value)`, where a list becomes the `"\n"` join of `str` of its items. */
  function DonutValueText(v: Json): string
  {
    if v.JList? then Join(seq(|v.items|, k requires 0 <= k < |v.items| => PyStr(v.items[k])), "\n")
    else PyStr(v)
  }

  /** The text under the first of `keys` that the Donut dict has. */
  function FirstKeyText(sequence: Json, keys: seq<string>): (r: Option<string>)
    requires sequence.JObject?
    ensures r.None? <==> forall k :: 0 <= k < |keys| ==> Get(sequence, keys[k]).None?
  {
    if keys == [] then None
    else
      match Get(sequence, keys[0])
      case Some(v) => Some(DonutValueText(v))
      case None =>
        var r := FirstKeyText(sequence, keys[1..]);
        assert forall k :: 1 <= k < |keys| ==> keys[k] == keys[1..][k - 1];
        r
  }

  /** The text found is the one under the first key present, every earlier key being absent. */
  lemma {:induction false} FirstKeyTextIsFirst(sequence: Json, keys: seq<string>)
    requires sequence.JObject?
    ensures FirstKeyText(sequence, keys).Some? ==>
      exists k :: (0 <= k < |keys| && Get(sequence, keys[k]).Some?
        && FirstKeyText(sequence, keys).value == DonutValueText(Get(sequence, keys[k]).value)
        && forall m :: 0 <= m < k ==> Get(sequence, keys[m]).None?)
  {
    if keys != [] && Get(sequence, keys[0]).None? {
      var r := FirstKeyText(sequence, keys[1..]);
      FirstKeyTextIsFirst(sequence, keys[1..]);
      if r.Some? {
        var k :| 0 <= k < |keys[1..]| && Get(sequence, keys[1..][k]).Some?
          && r.value == DonutValueText(Get(sequence, keys[1..][k]).value)
          && forall m :: 0 <= m < k ==> Get(sequence, keys[1..][m]).None?;
        assert forall m :: 0 <= m < k + 1 ==> Get(sequence, keys[m]).None? by {
          forall m | 0 <= m < k + 1 ensures Get(sequence, keys[m]).None? {
            if m > 0 { assert keys[m] == keys[1..][m - 1]; }
          }
        }
        assert Get(sequence, keys[k + 1]).Some?;
      }
    } else if keys != [] {
      assert Get(sequence, keys[0]).Some?;
    }
  }

  /**
   * The text `extract_text_with_donut` keeps for one PDF page: the first
   * present key's text, or `str(sequence)` when there is none, when it is
   * empty, or when the output is not a dict.
   */
  function DonutPageText(sequence: Json): (r: string)
    ensures r != "" || PyStr(sequence) == ""
    ensures !sequence.JObject? ==> r == PyStr(sequence)
    ensures sequence.JObject? && Get(sequence, "text").Some? && DonutValueText(Get(sequence, "text").value) != "" ==>
      r == DonutValueText(Get(sequence, "text").value)
  {
    if sequence.JObject? then
      var t := FirstKeyText(sequence, DonutKeys);
      if t.Some? && t.value != "" then t.value else PyStr(sequence)
    else PyStr(sequence)
  }

  /**
   * The image branch of `extract_text_with_donut` (and the per-page Donut
   * call of the orchestrator): the first present key's text even when
   * empty, else `str(sequence)`.
   */
  function DonutImageText(sequence: Json): (r: string)
    ensures !sequence.JObject? ==> r == PyStr(sequence)
    ensures sequence.JObject? && Get(sequence, "text").Some? ==> r == DonutValueText(Get(sequence, "text").value)
  {
    if sequence.JObject? then
      match FirstKeyText(sequence, DonutKeys)
      case Some(t) => t
      case None => PyStr(sequence)
    else PyStr(sequence)
  }

  /** The two Donut variants differ only on an empty text under a present key. */
  lemma DonutVariantsAgreeOnNonEmptyText(sequence: Json)
    ensures DonutImageText(sequence) != "" ==> DonutPageText(sequence) == DonutImageText(sequence)
  {
  }

  // ------------------------------------------------------------- DeepSeek

  /** `DEEPSEEK_OCR_USE_OLLAMA`, `DEEPSEEK_OCR_USE_API` and `DEEPSEEK_OCR_API_URL` (defaults True, True, localhost:8001). */
  datatype DeepSeekSettings = DeepSeekSettings(useOllama: bool, useApi: bool, apiUrl: string)

  const DefaultDeepSeekSettings := DeepSeekSettings(true, true, "http://localhost:8001")

  datatype DeepSeekMode = OllamaMode | ApiMode | DirectMode

  /** Ollama has priority over the API server, which has priority over the local package. */
  function ModeOf(s: DeepSeekSettings): (m: DeepSeekMode)
    ensures m == OllamaMode <==> s.useOllama
    ensures m == ApiMode <==> !s.useOllama && s.useApi
    ensures m == DirectMode <==> !s.useOllama && !s.useApi
  {
    if s.useOllama then OllamaMode else if s.useApi then ApiMode else DirectMode
  }

  /** A constructed `DeepSeekOCR` instance. */
  datatype Recognizer = Recognizer(id: nat)

  /** What `DeepSeekOCR()` does when the initialiser tries it. */
  datatype Construction = Constructed(r: Recognizer) | ImportFailed | ConstructionFailed(error: string)

  /** The module globals `deepseek_ocr` and `deepseek_ocr_initialized`. */
  class DeepSeekState {
    var instance: Option<Recognizer>
    var initialized: bool

    predicate Valid()
      reads this
    {
      !initialized ==> instance.None?
    }

    constructor ()
      ensures Valid() && !initialized && instance.None?
    {
      instance := None;
      initialized := false;
    }

    /**
     * `_init_deepseek_ocr()`: the first call marks the state initialised and,
     * in direct mode only, tries to construct the recogniser; every later
     * call returns what the first left, `None` included, without retrying.
     */
    method Init(s: DeepSeekSettings, construct: Construction) returns (r: Option<Recognizer>)
      requires Valid()
      modifies this
      ensures Valid() && initialized && r == instance
      ensures old(initialized) ==> instance == old(instance)
      ensures !old(initialized) ==>
        instance == (if ModeOf(s) == DirectMode && construct.Constructed? then Some(construct.r) else None)
    {
      if initialized {
        return instance;
      }
      initialized := true;
      if !s.useApi && !s.useOllama {
        match construct {
          case Constructed(rec) => instance := Some(rec);
          case ImportFailed =>
          case ConstructionFailed(_) => instance := None;
        }
      }
      r := instance;
    }
  }

  const DeepSeekMissing := "Error: DeepSeek OCR package not available. Install it with: pip install deepseek-ocr or use Ollama/API mode."
  const OpenCvMissing := "Error: OpenCV (cv2) is not installed. Install it with: pip install opencv-python-headless"
  const ImageUnreadable := "Error: Could not read the image"
  const OpenCvOrNumpyMissing := "Error: OpenCV or NumPy not installed"
  const ApiUnreachable := "Error: Could not connect to DeepSeek OCR API"

  /** The text of a recognition attempt, or its error string. */
  function Recognized(result: Outcome<string>): string
  {
    match result
    case Ok(t) => t
    case Raised(e) => "Error with DeepSeek OCR recognition: " + e
  }

  /** The direct-mode answer for an image file, given the recogniser the initialiser left. */
  function DirectFileText(instance: Option<Recognizer>, cv2: bool, image: Option<Raster>,
                          recognize: (Recognizer, Raster) -> Outcome<string>): string
  {
    if instance.None? then DeepSeekMissing
    else if !cv2 then OpenCvMissing
    else if image.None? then ImageUnreadable
    else Recognized(recognize(instance.value, image.value))
  }

  /** The adapters `extract_text_with_deepseek` reaches. */
  datatype DeepSeekFileAdapters = DeepSeekFileAdapters(
    ollama: string -> string,               // extract_text_with_deepseek_ollama(path)
    api: (string, string) -> string,        // extract_text_with_deepseek_api(path, api_url)
    cv2: bool,                              // OpenCV importable
    imread: string -> Option<Raster>,       // cv2.imread, None when unreadable
    recognize: (Recognizer, Raster) -> Outcome<string>,
    construct: Construction)

  /**
   * `extract_text_with_deepseek(image_path)`: Ollama exclusively when
   * enabled (its error is returned as is), else the API server, else the
   * local package, which is initialised at most once.
   */
  method ExtractTextWithDeepseek(state: DeepSeekState, s: DeepSeekSettings, a: DeepSeekFileAdapters, path: string)
    returns (text: string)
    requires state.Valid()
    modifies state
    ensures state.Valid()
    ensures ModeOf(s) == OllamaMode ==> text == a.ollama(path) && unchanged(state)
    ensures ModeOf(s) == ApiMode ==> text == a.api(path, s.apiUrl) && unchanged(state)
    ensures ModeOf(s) == DirectMode ==>
      (state.initialized
      && (old(state.initialized) ==> state.instance == old(state.instance))
      && (!old(state.initialized) ==> state.instance == (if a.construct.Constructed? then Some(a.construct.r) else None))
      && text == DirectFileText(state.instance, a.cv2, a.imread(path), a.recognize))
  {
    if s.useOllama {
      var result := a.ollama(path);
      if result != "" && StartsWith(result, "Error") {
        return result;
      }
      return result;
    } else if s.useApi {
      return a.api(path, s.apiUrl);
    } else {
      var instance := state.Init(s, a.construct);
      if instance.None? {
        return DeepSeekMissing;
      }
      if !a.cv2 {
        return OpenCvMissing;
      }
      var image := a.imread(path);
      if image.None? {
        return ImageUnreadable;
      }
      var result := a.recognize(instance.value, image.value);
      match result {
        case Ok(t) => return t;
        case Raised(e) => return "Error with DeepSeek OCR recognition: " + e;
      }
    }
  }

  /** A response of the DeepSeek API server. */
  datatype ApiResponse = ApiResponse(status: int, body: Json)

  /** The endpoints tried in turn under the API server's address. */
  function Endpoints(apiUrl: string): seq<string>
  {
    [apiUrl + "/api/ocr", apiUrl + "/ocr", apiUrl + "/api/v1/ocr"]
  }

  /** The text a successful response carries: `text`, else `result`, else the whole body. */
  function AnswerText(body: Json): string
  {
    if body.JObject? then
      match Get(body, "text")
      case Some(t) => PyStr(t)
      case None =>
        match Get(body, "result")
        case Some(t) => PyStr(t)
        case None => PyStr(body)
    else PyStr(body)
  }

  /**
   * The answer of the first endpoint that responds with status 200; a
   * request error or another status moves on to the next endpoint.
   */
  function FirstAnswer(endpoints: seq<string>, post: string -> Outcome<ApiResponse>): (r: Option<string>)
    ensures r.None? <==> forall k :: 0 <= k < |endpoints| ==>
      post(endpoints[k]).Raised? || post(endpoints[k]).value.status != 200
  {
    if endpoints == [] then None
    else
      var response := post(endpoints[0]);
      if response.Ok? && response.value.status == 200 then Some(AnswerText(response.value.body))
      else
        var r := FirstAnswer(endpoints[1..], post);
        assert forall k :: 1 <= k < |endpoints| ==> endpoints[k] == endpoints[1..][k - 1];
        r
  }

  /** The endpoint loop of API mode. */
  method QueryEndpoints(endpoints: seq<string>, post: string -> Outcome<ApiResponse>) returns (text: string)
    ensures text == FirstAnswer(endpoints, post).GetOr(ApiUnreachable)
  {
    var i := 0;
    while i < |endpoints|
      invariant 0 <= i <= |endpoints|
      invariant FirstAnswer(endpoints, post) == FirstAnswer(endpoints[i..], post)
    {
      var response := post(endpoints[i]);
      if response.Ok? && response.value.status == 200 {
        return AnswerText(response.value.body);
      }
      assert endpoints[i..][1..] == endpoints[i + 1..];
      i := i + 1;
    }
    return ApiUnreachable;
  }

  /** The direct-mode answer for an in-memory image. */
  function DirectImageText(instance: Option<Recognizer>, cv2AndNumpy: bool, image: Raster,
                           recognize: (Recognizer, Raster) -> Outcome<string>): string
  {
    if instance.None? then DeepSeekMissing
    else if !cv2AndNumpy then OpenCvOrNumpyMissing
    else Recognized(recognize(instance.value, image))
  }

  /** The adapters `extract_text_with_deepseek_from_image` reaches. */
  datatype DeepSeekImageAdapters = DeepSeekImageAdapters(
    ollama: Raster -> string,               // Ollama on the image saved to a temporary file
    post: string -> Outcome<ApiResponse>,   // requests.post(endpoint, image), Raised on RequestException
    cv2AndNumpy: bool,
    recognize: (Recognizer, Raster) -> Outcome<string>,
    construct: Construction)

  /**
   * `extract_text_with_deepseek_from_image(img, api_url)`: the same
   * priority; API mode tries the three endpoints in order.
   */
  method ExtractTextWithDeepseekFromImage(state: DeepSeekState, s: DeepSeekSettings, a: DeepSeekImageAdapters,
                                          image: Raster, apiUrl: Option<string>)
    returns (text: string)
    requires state.Valid()
    modifies state
    ensures state.Valid()
    ensures ModeOf(s) == OllamaMode ==> text == a.ollama(image) && unchanged(state)
    ensures ModeOf(s) == ApiMode ==>
      text == FirstAnswer(Endpoints(apiUrl.GetOr(s.apiUrl)), a.post).GetOr(ApiUnreachable) && unchanged(state)
    ensures ModeOf(s) == DirectMode ==>
      (state.initialized
      && (old(state.initialized) ==> state.instance == old(state.instance))
      && (!old(state.initialized) ==> state.instance == (if a.construct.Constructed? then Some(a.construct.r) else None))
      && text == DirectImageText(state.instance, a.cv2AndNumpy, image, a.recognize))
  {
    var url := if apiUrl.None? then s.apiUrl else apiUrl.value;
    if s.useOllama {
      var result := a.ollama(image);
      if result != "" && StartsWith(result, "Error") {
        return result;
      }
      return result;
    } else if s.useApi {
      text := QueryEndpoints(Endpoints(url), a.post);
    } else {
      var instance := state.Init(s, a.construct);
      if instance.None? {
        return DeepSeekMissing;
      }
      if !a.cv2AndNumpy {
        return OpenCvOrNumpyMissing;
      }
      var result := a.recognize(instance.value, image);
      match result {
        case Ok(t) => return t;
        case Raised(e) => return "Error with DeepSeek OCR recognition: " + e;
      }
    }
  }

  // ------------------------------------------------------------- text of a whole PDF

  /** The section `extract_text_from_pdf` appends for page `n`. */
  function PageSection(n: nat, text: string): string
  {
    "\n--- Page " + NatToString(n) + " ---\n" + text + "\n"
  }

  /** The AttributeError of calling `image_to_string` on the module global left `None` by a failed import. */
  const TesseractMissing := "'NoneType' object has no attribute 'image_to_string'"

  /** The engines `extract_text_from_pdf` reaches for pages without a text layer. */
  datatype PdfTextAdapters = PdfTextAdapters(
    pytesseract: bool,                      // pytesseract importable
    tesseract: Raster -> Outcome<string>,   // pytesseract.image_to_string
    deepseekImage: Raster -> string)        // extract_text_with_deepseek_from_image

  /** A page's text: its text layer, or OCR of its rendering when that layer is blank. */
  function PdfPageText(engine: string, page: PdfPage, a: PdfTextAdapters): (r: Outcome<string>)
    ensures !IsBlank(page.text) ==> r == Ok(page.text)
  {
    if !IsBlank(page.text) then Ok(page.text)
    else if Lower(engine) == "deepseek" then Ok(a.deepseekImage(page.pixmap))
    else if !a.pytesseract then Raised(TesseractMissing)
    else a.tesseract(page.pixmap)
  }

  /** The sections of the first pages, or the first failure among them. */
  function PdfSections(engine: string, pages: seq<PdfPage>, a: PdfTextAdapters): (r: Outcome<seq<string>>)
    ensures r.Ok? ==> |r.value| == |pages|
    ensures r.Ok? ==> forall k :: 0 <= k < |pages| ==>
      PdfPageText(engine, pages[k], a).Ok? && r.value[k] == PageSection(k + 1, PdfPageText(engine, pages[k], a).value)
    decreases |pages|
  {
    if pages == [] then Ok([])
    else
      match PdfSections(engine, pages[..|pages| - 1], a)
      case Raised(e) => Raised(e)
      case Ok(sections) =>
        match PdfPageText(engine, pages[|pages| - 1], a)
        case Raised(e) => Raised(e)
        case Ok(t) => Ok(sections + [PageSection(|pages|, t)])
  }

  /** What `extract_text_from_pdf` returns on the page-by-page path. */
  function PdfText(engine: string, pdf: Outcome<seq<PdfPage>>, a: PdfTextAdapters): string
  {
    match pdf
    case Raised(e) => "Error processing PDF: " + e
    case Ok(pages) =>
      match PdfSections(engine, pages, a)
      case Raised(e) => "Error processing PDF: " + e
      case Ok(sections) => Strip(Concat(sections))
  }

  lemma {:induction false} SectionsStayRaised(engine: string, pages: seq<PdfPage>, a: PdfTextAdapters, i: nat)
    requires i <= |pages| && PdfSections(engine, pages[..i], a).Raised?
    ensures PdfSections(engine, pages, a) == PdfSections(engine, pages[..i], a)
    decreases |pages| - i
  {
    if i < |pages| {
      assert pages[..i + 1][..i] == pages[..i];
      SectionsStayRaised(engine, pages, a, i + 1);
    } else {
      assert pages[..i] == pages;
    }
  }

  /**
   * `extract_text_from_pdf(pdf_path, ocr_engine)`: pdfplumber when that
   * engine is selected, MinerU when selected and available, otherwise the
   * text of every page under a `--- Page n ---` header, OCR-ing only the
   * pages whose text layer is blank.
   */
  method ExtractTextFromPdf(engine: string, plumberAvailable: bool, plumberPages: Outcome<seq<Option<string>>>,
                            mineruAvailable: bool, mineruText: string,
                            pdf: Outcome<seq<PdfPage>>, a: PdfTextAdapters)
    returns (text: string)
    ensures Lower(engine) == "pdfplumber" ==>
      (plumberAvailable && plumberPages.Ok? ==> text == Join(NonEmptyTexts(plumberPages.value), "\n\n"))
      && (plumberAvailable && plumberPages.Raised? ==> text == "Error with pdfplumber: " + plumberPages.error)
      && (!plumberAvailable ==> text == PdfplumberMissing)
    ensures Lower(engine) == "mineru" && mineruAvailable ==> text == mineruText
    ensures Lower(engine) != "pdfplumber" && !(Lower(engine) == "mineru" && mineruAvailable) ==>
      text == PdfText(engine, pdf, a)
  {
    if Lower(engine) == "pdfplumber" {
      text := ExtractTextWithPdfplumber(plumberAvailable, "pdf", plumberPages);
      return;
    }
    if Lower(engine) == "mineru" && mineruAvailable {
      return mineruText;
    }
    match pdf {
      case Raised(e) => return "Error processing PDF: " + e;
      case Ok(pages) =>
        var r := CollectSections(engine, pages, a);
        match r {
          case Raised(e) => text := "Error processing PDF: " + e;
          case Ok(sectionsText) => text := Strip(sectionsText);
        }
    }
  }

  /** One more page extends the sections by that page's, or raises with it. */
  lemma SectionsStep(engine: string, pages: seq<PdfPage>, a: PdfTextAdapters, i: nat)
    requires i < |pages| && PdfSections(engine, pages[..i], a).Ok?
    ensures PdfSections(engine, pages[..i + 1], a) ==
      match PdfPageText(engine, pages[i], a)
      case Raised(e) => Raised(e)
      case Ok(t) => Ok(PdfSections(engine, pages[..i], a).value + [PageSection(i + 1, t)])
  {
    assert pages[..i + 1][..i] == pages[..i];
    assert pages[..i + 1][i] == pages[i];
  }

  /** The page loop of `extract_text_from_pdf`: the concatenated sections, or the first page failure. */
  method CollectSections(engine: string, pages: seq<PdfPage>, a: PdfTextAdapters) returns (r: Outcome<string>)
    ensures PdfSections(engine, pages, a).Raised? ==> r == Raised(PdfSections(engine, pages, a).error)
    ensures PdfSections(engine, pages, a).Ok? ==> r == Ok(Concat(PdfSections(engine, pages, a).value))
  {
    ghost var sections: seq<string> := [];
    var acc := "";
    for i := 0 to |pages|
      invariant PdfSections(engine, pages[..i], a) == Ok(sections)
      invariant acc == Concat(sections)
    {
      SectionsStep(engine, pages, a, i);
      var pageText := pages[i].text;
      if IsBlank(pageText) {
        var img := pages[i].pixmap;
        if Lower(engine) == "deepseek" {
          pageText := a.deepseekImage(img);
        } else if !a.pytesseract {
          SectionsStayRaised(engine, pages, a, i + 1);
          return Raised(TesseractMissing);
        } else {
          match a.tesseract(img) {
            case Raised(e) =>
              SectionsStayRaised(engine, pages, a, i + 1);
              return Raised(e);
            case Ok(t) => pageText := t;
          }
        }
      }
      var section := PageSection(i + 1, pageText);
      sections := sections + [section];
      acc := acc + section;
    }
    assert pages[..|pages|] == pages;
    r := Ok(acc);
  }

  /** A PDF whose pages all carry text needs no OCR engine at all. */
  lemma {:induction false} TextLayerNeedsNoOcr(engine: string, pages: seq<PdfPage>, a: PdfTextAdapters, b: PdfTextAdapters)
    requires forall k :: 0 <= k < |pages| ==> !IsBlank(pages[k].text)
    ensures PdfSections(engine, pages, a) == PdfSections(engine, pages, b)
    ensures PdfSections(engine, pages, a).Ok?
    decreases |pages|
  {
    if pages != [] {
      TextLayerNeedsNoOcr(engine, pages[..|pages| - 1], a, b);
    }
  }
}
