/**
 * What the OCR engines consume and produce, as the orchestrator sees it.
 * The engines themselves (PyMuPDF, pdfplumber, Tesseract, MinerU, ...)
 * are not modelled: they appear as functions over these values.
 */
module Engines {
  import opened Wrappers
  import opened Json

  /** A rendered page image (`page.get_pixmap()` turned into a PIL image). */
  datatype Raster = Raster(width: int, height: int, samples: seq<int>)

  /** The size of a page's rectangle (`page.rect`). */
  datatype Dims = Dims(width: int, height: int)

  /**
   * One page of a PDF opened with PyMuPDF: its text layer
   * (`page.get_text()`), its rendering, and its rectangle (`None` when
   * reading it raised).
   */
  datatype PdfPage = PdfPage(text: string, pixmap: Raster, rect: Option<Dims>)

  /**
   * A page dict as the whole-document engines return it: `page_number`,
   * and `text` and `json_data` when present.
   */
  datatype PageInfo = PageInfo(pageNumber: int, text: Option<string>, json: Option<Json>)
  {
    /** `page_info.get('text', '')`. */
    function Text(): string { text.GetOr("") }

    /** `page_info.get('json_data', {})`. */
    function JsonData(): Json { json.GetOr(EmptyObject) }
  }
}
