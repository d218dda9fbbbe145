# xtractme document processing, modelled in Dafny

xtractme is a Django application. It takes an uploaded PDF or image
(a *document*) and turns it into one *page* record per page. Each record
holds the page's plain text and a `json_data` record that describes how
the text was obtained. One of nine OCR engines does the extraction.

This project models the deterministic core around those engines:

- **The orchestrator** `process_document_file`:
  - it checks that a file is attached and exists;
  - it infers the file type and normalises the engine name;
  - it dispatches to a whole-document engine path (pdfplumber, PyMuPDF,
    MinerU, OLMOCR, PaddleOCR layout) or to the "traditional" per-page
    loop, which tries the PDF's text layer and runs OCR only on blank pages;
  - it upserts the page rows, keyed by the page number
    (module `Views`, file `views.dfy`).
- **The engine-output normalisers** (module `OcrUtils`):
  - MinerU's middle JSON becomes a page list;
  - pdfplumber texts are joined;
  - Donut's text key is selected;
  - the DeepSeek mode is chosen by priority;
  - the DeepSeek recogniser is initialised once;
  - pages are merged into one text with `--- Page n ---` headers.
- **The save signals** (module `Signals`): `pre_save` records the stored
  engine in a module-level dictionary; `post_save` consumes it and decides
  whether to reprocess. `Signals.Save` is `document.save()` with both.
- **The create and update views** (module `DocumentViews`). They save the
  document, so the signals run before the view's own call to the
  orchestrator.
- **The prompt manager** (module `Prompts`):
  - built-in prompts are merged with database prompts;
  - display names are formatted;
  - variables are bound;
  - the text of a multi-page document and its per-page JSON are assembled.
- **The models, forms and admin actions**:
  - modules `Models`, `Forms` and `Admin`;
  - they cover one default prompt or schema per category, schema property
    extraction, the singleton settings row, file requirements, variable
    extraction, text previews and page filtering before an LLM call.
- **The two management commands** `reprocess_documents` and `sync_prompts`
  (modules `ReprocessCommand` and `SyncPromptsCommand`).

Supporting modules:

- `Wrappers`: `Option`, `Result` and `Outcome`. An `Outcome` is a value or
  the text of a raised exception.
- `Text`: Python's `strip`, `lower` and `title`.
- `Json`: JSON values, with Python's `in`, indexing and `str()`.
- `Lists`: de-duplication and ordering.
- `Templates`: `str.format` on `{name}` fields (an all-digit field is a
  positional index), and the `\{(\w+)\}`
  variable extraction.

Engines, the file system and the database queries are parameters. The
record `Views.Env` gathers every engine as a total function returning a
text, a page list or a raised error, plus the availability flags. An
operation on a page store or a table that the source writes in place is a
method on a class:

- `Models.Document` holds its pages as a map from page number to row.
- `Models.PromptTable`, `Models.SchemaTable` and `Models.SettingsTable` are
  the database tables.
- `Signals.Tracker` is the module-level dictionary.
- `OcrUtils.DeepSeekState` holds the lazily initialised globals.

Each such method is proved equal to a specification function. The
properties are lemmas about those functions.

### Where the code and its description differ

The model follows the code.

- **Extraction methods.** The code only ever writes `extraction_method`
  `'ocr'` or `'direct'`; there is no `'vlm'`.
- **Exceptions.** Several paths raise out of `process_document_file`:
  - pdfplumber and PyMuPDF failures (core/views.py:344-346, 386-388);
  - a zero-page PDF (core/views.py:357-359, 533-534);
  - the OLMOCR import (core/views.py:425, 727);
  - the image path's `Page.objects.create` on an existing page 1
    (core/views.py:747-752).
- **An unreachable raise.** The "Failed to create any page objects" raise
  (core/views.py:701-702) cannot happen. `pages_created` grows once per
  page (core/views.py:695), and a PDF without pages has already raised
  (core/views.py:533-534). The model has no such path.
- **Creating an image document.** The create view saves the document
  before processing it (core/views.py:133-137). `post_save` on that save
  already processes it, so the view's own call finds page 1 taken when
  it creates the image's page, and the view deletes the new document
  (`DocumentViews.ImageCreateIsDeleted`).
- **OLMOCR fallback.** This fallback is not the uniform "fall back to the
  text layer". When no OLMOCR page has text:
  - it writes the first `len(text) // len(pages)` characters into each
    page's `json_data['text']`;
  - it leaves the page text empty and finishes (core/views.py:456-483).
- **The reprocessing trigger.** `post_save` does not compare with "the
  engine of the last processing". It compares with the stored row's engine
  read in `pre_save`, it requires that engine to be non-empty, and it also
  reprocesses whenever the document has no pages (core/signals.py:31-43).
- **File types.** A file that is neither PDF nor image gets file type
  `'unknown'`. It is not refused, and it gets no pages.
- **Engine names.** The list of valid engines has nine names
  (core/views.py:295). `'lightonocr'`, offered by the form, is rewritten to
  `'mineru'`. The image path has no case for `'pdfplumber'` and stores an
  "Unknown OCR engine" text as the page (`Views.PdfplumberImageStoresError`).

## Model

| member | source | states |
|---|---|---|
| `Views.NormalizedEngineField` | core/views.py:288-300 | the saved engine's lowercase form is one of the nine valid names; the field is kept exactly when it is non-empty and its lowercase form is valid, otherwise it becomes `mineru` |
| `Views.Name` | core/views.py:295 | every modelled engine's name is in the list of valid engines |
| `Views.EngineOf` | core/views.py:294-296 | a name denotes an engine exactly when it is valid, and name and engine are inverse to each other |
| `Views.LightonocrIsRewritten` | core/forms.py:39 | the engine `lightonocr` that the form offers is saved as `mineru` |
| `Views.InferFileType` | core/views.py:275-286 | the type is `pdf` exactly for a `.pdf` name and `image` exactly for a non-PDF name with one of the image extensions, else `unknown` |
| `Views.GifDependsOnTheView` | core/views.py:124-131 | a `.gif` upload is an image for the orchestrator and the signals, but `unknown` for the create and update views |
| `Views.PageNumbers` | core/views.py:537 | the page numbers of an N-page run are exactly 1..N |
| `Views.TextOnlyStore` | core/views.py:324-340 | the text-only paths write page k+1 with the k-th text: an existing row keeps its json, a new row has none, other rows are untouched, and the keys grow by exactly 1..N |
| `Views.StrippedTexts` | core/views.py:323-335 | each stored text is the page's extracted text, stripped, with a missing text stored as empty |
| `Views.TextLayers` | core/views.py:361-366 | PyMuPDF's path takes each page's own text layer, in page order |
| `Views.UpsertInfos` | core/views.py:401-413 | the page-list paths add exactly the listed page numbers and leave every unlisted row alone |
| `Views.UpsertLastWins` | core/views.py:401-413 | when a page number is listed twice, the last entry decides that row |
| `Views.UpsertExistingAddsNoRow` | core/views.py:401-413 | rewriting pages that already exist updates them in place and adds no row |
| `Views.HeadIsConsistent` | core/views.py:669-677 | the per-page json records the engine, the page number and the stored text, and `has_ocr` and `extraction_method` agree with whether OCR was used |
| `Views.Guarded` | core/views.py:655-658 | an OCR call that raises leaves the page with empty text and marked as not OCR |
| `Views.OcrAttempt` | core/views.py:559-654 | PyMuPDF, an unavailable engine, OLMOCR errors and unknown engines give empty text without OCR; deepseek, pdfplumber and MinerU always count as OCR; an attempt without OCR never has text |
| `Views.OlmocrErrorGivesEmptyText` | core/views.py:643-649 | an OLMOCR result starting with `Error` is stored as empty text, not as OCR |
| `Views.PageAttempt` | core/views.py:541-558 | a page whose text layer is not blank keeps that text and is not OCR, whatever the engine |
| `Views.PositionalStore` | core/views.py:680-693 | the traditional loop's upsert: row k+1 gets the k-th record, every other row is kept |
| `Views.PositionalStoreStep` | core/views.py:680-693 | writing one more page extends the previous store by exactly that row |
| `Views.TraditionalRows` | core/views.py:537-693 | the loop builds exactly one row per source page, the k-th being the record built for page k+1 |
| `Views.TraditionalRowIsConsistent` | core/views.py:669-693 | each traditional row's json agrees with its stored text and number, and a row marked as OCR had a blank text layer |
| `Views.TextLayerIgnoresEngines` | core/views.py:541-550 | when every page has a text layer, the rows do not depend on the OCR engines at all |
| `Views.FallbackStore` | core/views.py:460-479 | the OLMOCR fallback completes exactly when every page's json can take the text chunk |
| `Views.Chunk` | core/views.py:473 | each page's share of the fallback text is its first `len(text) // len(pages)` characters |
| `Views.OlmocrRun` | core/views.py:423-492 | when OLMOCR is unavailable its path does nothing and the document goes on to the next path |
| `Views.OlmocrResultByContent` | core/views.py:433-483 | an empty OLMOCR list is refused; a list with some non-blank text is upserted as it is; otherwise no page gets new text: existing rows keep theirs and new rows are empty |
| `Views.FallbackKeepsTextBlank` | core/views.py:460-479 | the fallback only creates rows with empty text and never changes an existing row's text |
| `Views.PlumberRun` | core/views.py:307-346 | a pdfplumber failure or zero pages raises, with the pages left as they were |
| `Views.PyMuPdfRun` | core/views.py:349-388 | a PDF that does not open or has no pages raises, with the pages left as they were |
| `Views.TraditionalRun` | core/views.py:527-702 | the loop finishes exactly when the PDF opens and has pages; a failure changes nothing |
| `Views.ImageText` | core/views.py:704-734 | only the OLMOCR path can raise for an image, and `pdfplumber` yields the unknown-engine text |
| `Views.ImageRun` | core/views.py:737-752 | an image adds exactly one new row, page 1, to an empty page 1; an existing page 1 or a raise leaves the store as it was |
| `Views.ImagePageIsOcr` | core/views.py:737-744 | the image's page is number 1, marked as OCR, with json consistent with its stored text |
| `Views.PdfplumberImageStoresError` | core/views.py:732-734 | an image with engine `pdfplumber` stores the unknown-engine message as its text |
| `Views.Process` | core/views.py:212-752 | no file raises "has no file attached" and a missing path raises "File not found", both without changing anything; otherwise the engine is normalised and the type inferred; a type other than pdf and image writes no page and raises nothing |
| `Views.TraditionalWritesEveryPage` | core/views.py:527-702 | a zero-page PDF raises and writes nothing; otherwise pages 1..N are all written, each with its traditional record, and nothing else is added |
| `Views.MineruAcceptedIffNonEmpty` | core/views.py:391-420 | MinerU's page list is taken exactly when it is non-empty, otherwise the traditional loop runs |
| `Views.OlmocrImportFailureRaises` | core/views.py:423-425 | when the OLMOCR names cannot be imported, a PDF with engine `olmocr` raises |
| `Views.WriteTexts` | core/views.py:324-340 | the text-only write loop leaves exactly the store its specification describes |
| `Views.WriteInfos` | core/views.py:401-413 | the page-list write loop leaves exactly the upserted store |
| `Views.FallbackStaysRaised` | core/views.py:460-481 | once a fallback step raises, the loop's outcome is that raise |
| `Views.WriteFallback` | core/views.py:460-481 | the fallback loop completes exactly when no page's json update raises, and leaves the specified store |
| `Views.RunOlmocr` | core/views.py:423-492 | the OLMOCR path's decision and store are those of its specification |
| `Views.WriteTraditional` | core/views.py:537-693 | the per-page loop writes exactly the traditional rows |
| `Views.RunTraditional` | core/views.py:527-702 | the traditional path's store and raise are those of its specification |
| `Views.RunTextOnly` | core/views.py:307-388 | the pdfplumber and PyMuPDF paths leave the specified store and raise |
| `Views.RunPdf` | core/views.py:302-702 | the PDF dispatch leaves the specified store and raise |
| `Views.RunImage` | core/views.py:704-752 | the image path leaves the specified store and raise |
| `Views.RunDispatch` | core/views.py:302-752 | dispatching on the file type leaves the specified store and raise |
| `Views.SettleFields` | core/views.py:275-300 | the saved file type and engine are those the orchestrator infers and normalises |
| `Views.ProcessDocumentFile` | core/views.py:212-752 | the document's type, engine and pages afterwards, and what is raised, are exactly those of `Process` |
| `OcrUtils.JoinStrings` | core/ocr_utils.py:333-338 | joining block texts succeeds exactly when every part is a string |
| `OcrUtils.BlockParts` | core/ocr_utils.py:333-338 | only the blocks that have a `text` field contribute a part |
| `OcrUtils.PagesFrom` | core/ocr_utils.py:324-340 | the k-th page becomes page k+1, with its json and the `\n\n` join of its block texts; the list fails exactly when some page's blocks fail |
| `OcrUtils.DirectPages` | core/ocr_utils.py:355-366 | the direct fallback gives page k+1 the k-th text and the json `{'text', 'extracted_directly': True}` |
| `OcrUtils.CollectBlockParts` | core/ocr_utils.py:333-338 | the block loop collects exactly the specified parts |
| `OcrUtils.PartsStayRaised` | core/ocr_utils.py:333-338 | once a block fails, the whole block list fails with that error |
| `OcrUtils.PagesStayRaised` | core/ocr_utils.py:324-340 | once a page fails, the whole page list fails |
| `OcrUtils.PageBlockText` | core/ocr_utils.py:333-338 | a page's text is the specified join of its block texts |
| `OcrUtils.CollectPages` | core/ocr_utils.py:324-340 | the page loop returns the specified pages, or raises when the specification raises |
| `OcrUtils.ReadMiddlePages` | core/ocr_utils.py:324-352 | reading the middle JSON succeeds exactly when its specification does, with the pages it specifies |
| `OcrUtils.CollectDirectPages` | core/ocr_utils.py:355-366 | the direct loop builds exactly the direct pages |
| `OcrUtils.ExtractPagesWithMineruJson` | core/ocr_utils.py:270-371 | the method returns exactly the pages its specification gives |
| `OcrUtils.MineruPagesAreNumbered` | core/ocr_utils.py:270-371 | MinerU unavailable, or any exception, gives `[]`; otherwise the pages are numbered 1..k in order |
| `OcrUtils.MiddleWithoutPagesIsOnePage` | core/ocr_utils.py:341-352 | middle JSON without a `pages` key gives a single page numbered 1 |
| `OcrUtils.NonEmptyTexts` | core/ocr_utils.py:736-741 | the kept page texts are exactly the non-empty ones present |
| `OcrUtils.ExtractTextWithPdfplumber` | core/ocr_utils.py:727-746 | pdfplumber missing and non-PDF input give their error texts; a failure gives "Error with pdfplumber: …"; otherwise the `\n\n` join of the non-empty page texts |
| `OcrUtils.JoinOfNonEmptyParts` | core/ocr_utils.py:743 | joining non-empty parts is empty exactly when there are no parts |
| `OcrUtils.PdfplumberEmptyIffNoPageText` | core/ocr_utils.py:736-743 | the pdfplumber text is empty exactly when no page has text |
| `OcrUtils.FirstKeyText` | core/ocr_utils.py:795-808 | Donut has no keyed text exactly when none of the keys is present |
| `OcrUtils.FirstKeyTextIsFirst` | core/ocr_utils.py:795-808 | the keyed text comes from the first key present, in the order `text`, `text_sequence`, `texts`, `content` |
| `OcrUtils.DonutPageText` | core/ocr_utils.py:795-808 | the Donut page text is never empty unless `str(sequence)` is; a non-dict gives `str(sequence)`; a non-empty `text` field wins |
| `OcrUtils.DonutImageText` | core/ocr_utils.py:842-849 | for an image, a `text` key gives its text and a non-dict gives `str(sequence)` |
| `OcrUtils.DonutVariantsAgreeOnNonEmptyText` | core/ocr_utils.py:795-849 | when the image variant finds text, the PDF-page variant finds the same text |
| `OcrUtils.ModeOf` | core/ocr_utils.py:384-418 | Ollama is used exactly when it is enabled, the API exactly when Ollama is not and the API is, direct mode otherwise |
| `OcrUtils.DeepSeekState.constructor` | core/ocr_utils.py:86-89 | the recogniser starts uninitialised and absent |
| `OcrUtils.DeepSeekState.Init` | core/ocr_utils.py:91-117 | initialisation happens once: a later call returns the cached instance, possibly none, without retrying; only direct mode constructs one |
| `OcrUtils.ExtractTextWithDeepseek` | core/ocr_utils.py:374-420 | Ollama's answer is returned as it is, even an error; API mode returns the server's answer; neither touches the local recogniser; direct mode initialises it at most once (the first call keeps the recogniser it constructed, or none when construction failed) and reports a missing recogniser, OpenCV or image |
| `OcrUtils.FirstAnswer` | core/ocr_utils.py:590-611 | there is no answer exactly when every endpoint raises or answers with a status other than 200 |
| `OcrUtils.QueryEndpoints` | core/ocr_utils.py:590-611 | the endpoint loop returns the first status-200 answer, or the "could not reach" text |
| `OcrUtils.ExtractTextWithDeepseekFromImage` | core/ocr_utils.py:553-628 | image recognition follows the same mode priority, and its direct mode initialises the recogniser the same way; API mode tries the three endpoints in order and returns the first status-200 answer, or the "could not reach" text |
| `OcrUtils.PdfPageText` | core/ocr_utils.py:873-890 | a page with a non-blank text layer is taken as it is, without OCR |
| `OcrUtils.PdfSections` | core/ocr_utils.py:869-895 | one `--- Page n ---` section per page, numbered 1..N in order |
| `OcrUtils.SectionsStayRaised` | core/ocr_utils.py:869-895 | once a page fails, the whole text fails with it |
| `OcrUtils.SectionsStep` | core/ocr_utils.py:869-895 | one more page adds exactly its section |
| `OcrUtils.CollectSections` | core/ocr_utils.py:869-895 | the page loop returns the concatenated sections, or the first page's error |
| `OcrUtils.ExtractTextFromPdf` | core/ocr_utils.py:855-897 | engine pdfplumber delegates to pdfplumber; MinerU is used only when it is both selected and available; otherwise the page sections |
| `OcrUtils.TextLayerNeedsNoOcr` | core/ocr_utils.py:879-890 | when every page has a text layer, OCR is never consulted and the text cannot fail |
| `Signals.PreSaveFileType` | core/signals.py:81-88 | the file type is set only for a file with a blank type, and then it is `pdf` exactly for a `.pdf` name |
| `Signals.PreSaveEngine` | core/signals.py:91-92 | a saved engine is never empty, and a non-empty one is kept |
| `Signals.PreSaveSettlesFileType` | core/signals.py:81-88 | the orchestrator infers the same file type that `pre_save` set, so it changes nothing |
| `Signals.PreSaveKeepsNormalizedEngine` | core/signals.py:91-92 | defaulting the engine in `pre_save` does not change which engine the orchestrator runs |
| `Signals.Tracked` | core/signals.py:73-78 | an existing document's stored engine is recorded under its key, a new one records nothing, and other entries are kept |
| `Signals.ReprocessIffEngineChanged` | core/signals.py:31-43 | a saved document with pages is reprocessed exactly when its stored engine was non-empty and differs from the current one |
| `Signals.NewOrEmptyIsProcessed` | core/signals.py:43 | a new document, or one without pages, is always processed |
| `Signals.Untracked` | core/signals.py:33-37 | after the check, the entry is gone and the other entries are untouched |
| `Signals.ChangeIsSeenOnce` | core/signals.py:31-37 | once consumed, an engine change cannot trigger reprocessing a second time |
| `Signals.Tracker.constructor` | core/signals.py:14 | the tracking dictionary starts empty |
| `Signals.PreSave` | core/signals.py:67-92 | the dictionary records the stored engine and the file type and engine are settled, and nothing else of the document changes |
| `Signals.PostSave` | core/signals.py:17-63 | no file means nothing happens; otherwise processing runs exactly when the trigger holds, deleting the pages first, and the entry is consumed; errors are swallowed |
| `Signals.Save` | core/signals.py:16-92 | a save runs `pre_save` and then `post_save`: an insert gets the new key and counts as created, and the document is left with the settled type and engine and processed exactly when the trigger holds |
| `DocumentViews.UploadFileType` | core/views.py:124-131 | an upload is `pdf` exactly for a `.pdf` name, otherwise `image` or `unknown` |
| `DocumentViews.CreateDocument` | core/views.py:117-150 | the save processes the upload once with the engine defaulted by `pre_save`, the view processes it again on the pages that left; the document is kept with that second run's pages exactly when it raised nothing, and otherwise is deleted with no pages |
| `DocumentViews.ImageCreateIsDeleted` | core/views.py:133-144 | an image whose first processing succeeded always fails the view's second run, on page 1, and so is deleted |
| `DocumentViews.UpdateDocument` | core/views.py:153-196 | with an upload the pages are deleted and the file processed with the upload's type, and a raise ends the view unsaved; every other case saves, and the save's `post_save` may process the document again |
| `Admin.SaveModel` | core/admin.py:171-188 | the admin fills in the file type and the engine, then saves; the document ends exactly as a plain `save()` with its signals leaves it, with the key the insert gives a new row |
| `Admin.AdminDefaults` | core/admin.py:174-185 | the file type and engine the admin fills in are exactly those `pre_save` would set |
| `Admin.SaveModelSettlesSignal` | core/admin.py:174-185 | after the admin has set them, `pre_save` leaves the file type and the engine as they are; a document with a file always leaves with a type |
| `Admin.OutcomeOf` | core/admin.py:217-228 | a document counts in neither counter exactly when it has no file |
| `Admin.CountersPartition` | core/admin.py:217-228 | the processed and failed counters add up to the number of documents with a file |
| `Admin.ReprocessDocuments` | core/admin.py:210-233 | the counters are those of the specification; documents without a file are untouched, the others end as processing their emptied store leaves them |
| `Admin.ReprocessOne` | core/admin.py:217-228 | one document's outcome and state after the delete and reprocess |
| `Admin.Queried` | core/admin.py:341-346 | the queried pages are the selected ones, or all when none are selected, in ascending page order |
| `Admin.NonBlankEntriesSpec` | core/admin.py:348-355 | the entries are the non-blank queried pages with their text, in page order, and every such page has one |
| `Admin.NoEntriesIffAllBlank` | core/admin.py:348-361 | there are no entries exactly when every queried page is blank |
| `Admin.CollectPagesData` | core/admin.py:338-361 | the request is refused with "No text content" exactly when every queried page is blank; otherwise the entries are the non-blank pages in order |
| `Admin.GatherEntries` | core/admin.py:348-355 | the filtering loop collects exactly the specified entries |
| `Admin.ChosenPromptType` | core/admin.py:369-393 | a listed prompt type is kept, any other becomes `document_summary` |
| `Admin.ChosenPromptIsFound` | core/admin.py:388-402 | the chosen prompt type always resolves to a prompt |
| `Admin.TextPreview` | core/admin.py:515-519 | empty text gives `No text`; text over 100 characters gives its first 100 and `...`; other text is shown whole |
| `Admin.SavePromptModel` | core/admin.py:629-641 | a saved prompt's variables are the distinct template fields in first-seen order, and the default rule holds |
| `Prompts.FormatTemplate` | core/prompts.py:19-24 | formatting succeeds exactly when every field is a bound name; a missing name raises a "Missing required variable" error naming it, and an all-digit field raises Python's positional-index error, which the `KeyError` handler does not catch |
| `Prompts.FormatPromptName` | core/prompts.py:422-425 | underscores become spaces and each word is title-cased, character for character |
| `Prompts.FormatPromptNameWords` | core/prompts.py:422-425 | a letter opening the name or following an underscore is upper-cased (`document_summary` is `Document Summary`), no underscore is left, and formatting a display name again changes nothing |
| `Prompts.FirstActive` | core/prompts.py:363-371 | the first active row of that name, and none exactly when there is none |
| `Prompts.GetPrompt` | core/prompts.py:352-384 | an active database prompt wins; otherwise the built-in, or none exactly when neither exists |
| `Prompts.DatabaseFailureFallsBack` | core/prompts.py:377-384 | a failing database query gives the same result as not using the database |
| `Prompts.Names` | core/prompts.py:397 | the listing's names, in insertion order |
| `Prompts.DisplayOf` | core/prompts.py:397 | a name has a display text exactly when it is listed |
| `Prompts.DisplayOfAppend` | core/prompts.py:403-417 | adding a name later does not change an earlier name's display |
| `Prompts.Put` | core/prompts.py:403-410 | assigning into the listing sets one name's display, adds the name only when new, and leaves the others alone |
| `Prompts.DisplayName` | core/prompts.py:403-408 | the display text is the title, else the description, else the formatted name |
| `Prompts.DbListingSpec` | core/prompts.py:400-410 | the database listing has no duplicates, holds exactly the active names, and shows each with the display text of one of its rows |
| `Prompts.WithBuiltinsStep` | core/prompts.py:413-417 | a built-in name is added only when it is not listed yet |
| `Prompts.WithBuiltinsKeeps` | core/prompts.py:413-417 | adding the built-ins keeps the database entries, in place and with their display texts |
| `Prompts.WithBuiltinsNames` | core/prompts.py:413-417 | after the built-ins are added, the names are the union of both lists, still without duplicates |
| `Prompts.WithBuiltinsDisplay` | core/prompts.py:413-417 | a built-in missing from the database is shown with its formatted name |
| `Prompts.WithBuiltinsSpec` | core/prompts.py:413-417 | merging the built-ins keeps the database entries and adds each missing built-in with its formatted name |
| `Prompts.ListedPromptsSpec` | core/prompts.py:387-419 | every built-in is listed, no name twice, and on a name collision the database display text is kept |
| `Prompts.ListedIffFound` | core/prompts.py:352-419 | a name is listed exactly when `get_prompt` finds a prompt for it |
| `Prompts.CollectDatabasePrompts` | core/prompts.py:400-410 | the database loop builds exactly the database listing |
| `Prompts.AddBuiltinPrompts` | core/prompts.py:413-417 | the built-in loop builds exactly the merged listing |
| `Prompts.ListPrompts` | core/prompts.py:387-419 | `list_prompts` returns exactly the specified listing |
| `Prompts.PromptVariables` | core/prompts.py:465-482 | the title and the content are always bound |
| `Prompts.PromptVariablesOptional` | core/prompts.py:472-477 | page number, total pages and question are bound exactly when given |
| `Prompts.PromptVariablesData` | core/prompts.py:478-482 | the JSON data, as text, and the custom prompt are bound exactly when given |
| `Prompts.PromptVariablesKeys` | core/prompts.py:465-482 | every extra argument is bound to its value, and nothing else beyond the reserved names is bound |
| `Prompts.Bind` | core/prompts.py:472-482 | an optional value is bound only when present, and other bindings are kept |
| `Prompts.FormatPrompt` | core/prompts.py:428-484 | an unknown prompt raises a message listing the available names; otherwise formatting succeeds exactly when every field is a name, not an all-digit index, and is bound |
| `Prompts.FormatPagePrompt` | core/prompts.py:556-585 | the page prompt is `format_prompt` with the page's text as the document content and its number bound as `page_number` |
| `Prompts.PagePromptMissesPageContent` | core/prompts.py:159-196 | a prompt with the shipped page templates' fields (`page_number`, `document_title`, `page_content`) always raises the missing-variable error for `page_content` through `format_page_prompt` |
| `Prompts.PageSummaryPromptRaises` | core/prompts.py:617-623 | `get_page_summary_prompt` on the shipped registry, without a database copy of the prompt, always raises that error |
| `Prompts.PageVariablesBound` | core/prompts.py:580-585 | the page prompt binds the page number and the title, and `page_content` only when the caller's extra variables do |
| `Prompts.PageFieldsFormat` | core/prompts.py:19-24 | a template with the page fields, given the number and the title, formats exactly when `page_content` is bound, and otherwise raises for it |
| `Prompts.FormatPagePromptBindingPage` | core/prompts.py:580-585 | the intended page prompt also binds the page's text under `page_content` |
| `Prompts.PagePromptBindingPageFormats` | core/prompts.py:159-196 | with the page bound under its own name, a page template always formats |
| `Prompts.BuiltinOnlyMissesVariables` | core/prompts.py:459-484 | a built-in prompt is always found, so when its fields are all names it can fail only for a missing variable |
| `Prompts.PagePromptVariables` | core/prompts.py:556-585 | a page prompt binds the page text and page number and nothing of the document |
| `Prompts.PageBlock` | core/prompts.py:518 | each page section starts with its `--- Page n ---` header |
| `Prompts.DocumentContentAppend` | core/prompts.py:513-531 | one more page appends exactly its section to the document content |
| `Prompts.DocumentContentStarts` | core/prompts.py:510-518 | the content starts with the title line and then the first page's section |
| `Prompts.JsonEntries` | core/prompts.py:521-528 | a page contributes json exactly when its json is truthy |
| `Prompts.CombinedJson` | core/prompts.py:534-544 | no entries give no json, one gives that page's json, several give `pages` and `total_pages_with_json` |
| `Prompts.OneJsonPage` | core/prompts.py:534-541 | when one page has json, the document json is that page's json |
| `Prompts.DocumentOptions` | core/prompts.py:546-553 | total pages is the number of pages, the json is the combined json when there is any, and the other options pass through |
| `Prompts.JsonEntriesAppend` | core/prompts.py:521-528 | one more page appends its json entry only when its json is truthy |
| `Prompts.AssembleStep` | core/prompts.py:513-531 | one loop step extends both the content and the json entries by that page |
| `Prompts.AddPage` | core/prompts.py:513-531 | one iteration appends the page's section and, when it has json, its entry |
| `Prompts.AssembleDocument` | core/prompts.py:510-531 | the loop builds exactly the specified content and json entries |
| `Prompts.FormatDocumentPrompt` | core/prompts.py:487-553 | the document prompt is `format_prompt` on the assembled content and combined options; a caller's own `total_pages` raises the duplicate-keyword `TypeError` |
| `Models.SumTextLengthsRemove` | core/models.py:34-36 | the total text length is one page's length plus that of the others |
| `Models.TextLengthAfterWrite` | core/models.py:34-36 | writing a row changes the total by the new text's length less the old one's |
| `Models.TwoPageTotals` | core/tests.py:31-44 | a document holding any two pages has `total_pages` 2 and `total_text_length` the characters of both texts ("Hello" and "World" make 10) |
| `Models.Document.TotalPages` | core/models.py:29-31 | the page count is zero exactly when the document has no pages, and at least one when it has one |
| `Models.Document.TotalTextLength` | core/models.py:34-36 | the summed text length is zero without pages and at least the length of every page's text |
| `Models.Document.constructor` | core/models.py:9-15 | a document starts without pages, type or key, with the default engine |
| `Models.Document.CreatePage` | core/models.py:55 | creating a page fails exactly when that number exists, so a document never has two rows for one page |
| `Models.Document.GetOrCreatePage` | core/views.py:682-689 | get-or-create adds the defaults only under a new number |
| `Models.Document.SavePage` | core/views.py:690-693 | saving replaces that row only |
| `Models.Document.DeletePages` | core/signals.py:49-51 | deleting the pages leaves none |
| `Models.States` | core/admin.py:217 | the snapshot of each document, in order |
| `Models.CountWithFile` | core/admin.py:218-219 | the documents with a file are at most all of them |
| `Models.SavedPrompts` | core/models.py:160-168 | saving a default prompt clears the default flag of every other prompt in its category and changes nothing else |
| `Models.SavePromptKeepsOneDefault` | core/models.py:160-168 | saving keeps at most one default prompt per category |
| `Models.PromptTable.constructor` | core/models.py:160-168 | the prompt table starts empty |
| `Models.PromptTable.FindByName` | core/management/commands/sync_prompts.py:58 | the lookup finds a row of that name, or there is none |
| `Models.PromptTable.Save` | core/models.py:160-168 | saving an existing prompt writes it under its key and clears the other defaults of its category, keeping the next key |
| `Models.PromptTable.Insert` | core/models.py:160-168 | a new prompt gets the next key, which no row had, and saving it clears the other defaults of its category |
| `Models.ClearSchemaDefaults` | core/models.py:278-283 | every other schema of the category loses its default flag and nothing else changes |
| `Models.SaveSchemaKeepsOneDefault` | core/models.py:276-289 | saving keeps at most one default schema per category |
| `Models.ExtractedProperties` | core/models.py:261-274 | a schema that is not an object has no properties, and a malformed `properties` fails |
| `Models.ExtractProperties` | core/models.py:261-274 | the extraction loop computes exactly the specified properties |
| `Models.ExtractedPropertiesSpec` | core/models.py:266-273 | the property keys come first in order, then the missing required names, without duplicates |
| `Models.SchemaTable.constructor` | core/models.py:276-289 | the schema table starts empty |
| `Models.SchemaTable.Save` | core/models.py:276-289 | the properties are filled only when the schema is truthy and the properties are empty, and the default rule holds |
| `Models.SettingsTable.constructor` | core/models.py:305-376 | the settings table starts empty |
| `Models.SettingsTable.Save` | core/models.py:363-366 | a saved row always has `singleton_id` 1 and is written under the key it was given, if any; a second row is refused without changing the table |
| `Models.SettingsTable.GetSettings` | core/models.py:369-372 | the settings row is fetched, or created with the defaults when the table is empty |
| `Models.SettingsTable.Delete` | core/models.py:374-376 | deleting the settings changes nothing |
| `Forms.DocumentForm.constructor` | core/forms.py:43-49 | the file is required exactly when the instance has no key |
| `Forms.DocumentForm.CleanFile` | core/forms.py:43-49 | a missing file is refused exactly when it is required |
| `Forms.WithExtractedVariables` | core/forms.py:104-116 | a non-empty template sets the variables to its distinct fields, and nothing else changes |
| `Forms.SavedVariablesSuffice` | core/forms.py:104-116 | the stored variables are exactly what formatting the template needs: it succeeds exactly when each of them is a name, not an all-digit index, and is bound |
| `Forms.PromptForm.constructor` | core/forms.py:52-57 | no variables are extracted before a template is cleaned |
| `Forms.PromptForm.CleanTemplate` | core/forms.py:89-102 | cleaning returns the template and records its variables when it is non-empty |
| `Forms.SavePromptForm` | core/forms.py:104-116 | the saved instance has the extracted variables, and a commit stores it under its key or a fresh one |
| `Forms.CleanSchema` | core/forms.py:156-177 | on the value the JSON field decoded: a falsy one passes through; a JSON string is parsed once more, with invalid JSON refused; what is then not an object is refused |
| `Forms.CleanSchemaIdempotent` | core/forms.py:156-177 | a cleaned schema is returned unchanged by a second cleaning |
| `Forms.CleanSchemaErrors` | core/forms.py:161-169 | the "must be a JSON object" error arises exactly when the value was not a string or the string parsed |
| `Forms.WithExtractedProperties` | core/forms.py:179-190 | a truthy schema always gets its extracted properties |
| `Forms.SaveSchemaForm` | core/forms.py:179-190 | the saved schema has its properties, and a commit stores it under the default rule |
| `ReprocessCommand.SucceededIffPagesWritten` | core/management/commands/reprocess_documents.py:91-108 | a document that passes the checks counts as processed exactly when extraction raised nothing and wrote some page |
| `ReprocessCommand.MissingFileFails` | core/management/commands/reprocess_documents.py:57-61 | a missing file counts as failed |
| `ReprocessCommand.TalliesPartition` | core/management/commands/reprocess_documents.py:40-116 | every document lands in exactly one outcome, and only those without a file are skipped |
| `ReprocessCommand.Selection` | core/management/commands/reprocess_documents.py:27-32 | `--all` selects every document, otherwise exactly those whose key is listed |
| `ReprocessCommand.Handle` | core/management/commands/reprocess_documents.py:26-124 | with neither `--all` nor ids the command writes its usage error, returns normally and changes nothing; otherwise the counters are the specified counts and each selected document is settled |
| `ReprocessCommand.ProcessSelection` | core/management/commands/reprocess_documents.py:40-116 | the loop's counters and document states are those of the specification |
| `ReprocessCommand.ProcessOne` | core/management/commands/reprocess_documents.py:40-116 | a document failing the checks keeps its pages; the others are emptied and reprocessed |
| `SyncPromptsCommand.CategoryOf` | core/management/commands/sync_prompts.py:30-55 | every built-in prompt has one of the four categories, and an unmapped name is `custom` |
| `SyncPromptsCommand.BuiltinCategories` | core/management/commands/sync_prompts.py:30-45 | every built-in name is in the category map |
| `SyncPromptsCommand.WithTemplate` | core/management/commands/sync_prompts.py:75-85 | an overwrite replaces title, description, template, category and variables and keeps the name and flags |
| `SyncPromptsCommand.NewRow` | core/management/commands/sync_prompts.py:58-73 | a created prompt is active, not default, and copies the built-in |
| `SyncPromptsCommand.KeyOf` | core/management/commands/sync_prompts.py:58 | the key of the row with that name |
| `SyncPromptsCommand.CreatedKeeps` | core/management/commands/sync_prompts.py:58-73 | creating a prompt adds its name and keeps names unique |
| `SyncPromptsCommand.UpdatedKeeps` | core/management/commands/sync_prompts.py:75-85 | overwriting keeps the set of names and their uniqueness |
| `SyncPromptsCommand.StepKeeps` | core/management/commands/sync_prompts.py:51-95 | each step keeps names unique, other names unchanged, and the synced name present |
| `SyncPromptsCommand.StepWrites` | core/management/commands/sync_prompts.py:51-95 | ignored, skipped and failed prompts change nothing; a created one is stored under a fresh key; an overwritten one under its key |
| `SyncPromptsCommand.SyncAll` | core/management/commands/sync_prompts.py:51-95 | the loop keeps names unique |
| `SyncPromptsCommand.Actions` | core/management/commands/sync_prompts.py:51-95 | one classification per built-in prompt |
| `SyncPromptsCommand.SyncAllKeepsOtherNames` | core/management/commands/sync_prompts.py:51-95 | names outside the built-ins are neither added nor removed |
| `SyncPromptsCommand.ActionsAgainstOriginal` | core/management/commands/sync_prompts.py:51-95 | each prompt is classified as it would be against the table before the run |
| `SyncPromptsCommand.Counted` | core/management/commands/sync_prompts.py:51-95 | each considered prompt adds exactly one to one counter, and an ignored one to none |
| `SyncPromptsCommand.TallyPartition` | core/management/commands/sync_prompts.py:51-95 | synced, skipped, errors and ignored add up to the number of prompts |
| `SyncPromptsCommand.OverwriteSkipsNothing` | core/management/commands/sync_prompts.py:75-90 | with `--overwrite` nothing is skipped |
| `SyncPromptsCommand.SyncedPresent` | core/management/commands/sync_prompts.py:58-85 | every considered prompt that did not fail is in the table afterwards |
| `SyncPromptsCommand.NoopFrom` | core/management/commands/sync_prompts.py:86-90 | when every considered prompt exists, a run without `--overwrite` changes nothing and syncs nothing |
| `SyncPromptsCommand.SecondSyncIsNoop` | core/management/commands/sync_prompts.py:25-100 | running the command again without `--overwrite` changes nothing and syncs nothing |
| `SyncPromptsCommand.Handle` | core/management/commands/sync_prompts.py:25-100 | the table and counters afterwards are those of the specification |
| `SyncPromptsCommand.SyncOne` | core/management/commands/sync_prompts.py:51-95 | one prompt's classification and table update |
| `Templates.Format` | core/prompts.py:22 | formatting succeeds exactly when every field is a bound name; a failure names a field, which is either an unbound name or an all-digit positional index |
| `Templates.FormatWithoutFields` | core/prompts.py:22 | a template without fields formats to itself |
| `Templates.FormatField` | core/prompts.py:22 | a leading `{name}` field is replaced by its value before the rest of the text, an unbound one fails with its name, and an all-digit one fails as a positional index |
| `Templates.FormatLiteral` | core/prompts.py:22 | a leading character that does not open a field is copied through |
| `Templates.ExtractVariables` | core/management/commands/sync_prompts.py:102-108 | the distinct fields of the template, each once, in first-occurrence order |
| `Templates.FormatSucceedsWithDeclaredVariables` | core/forms.py:94-95 | formatting succeeds exactly when every extracted variable is a name, not an all-digit index, and is bound |
| `Lists.AppendMissingSpec` | core/models.py:269-273 | appending the missing names keeps the start, adds each missing name once and nothing else |
| `Lists.DedupOrder` | core/admin.py:638 | `dict.fromkeys` keeps the first occurrence of each element, in order |
| `Text.Strip` | core/views.py:550 | stripping gives empty text exactly for blank text |
| `Text.StripSpec` | core/views.py:672 | the stripped text is the slice between the leading and trailing whitespace |
| `Text.Lower` | core/views.py:294 | lowering maps each character |
| `Text.LowerOfLowercase` | core/views.py:294 | lowering text without capitals leaves it unchanged |
| `Text.Title` | core/prompts.py:425 | title-casing maps each character by its position in a word |
| `Text.ReplaceChar` | core/prompts.py:425 | replacing one character changes only its occurrences |
| `Json.PyStr` | core/ocr_utils.py:808 | `str()` of a JSON value |

## Left out

- Engine internals are foreign calls and are parameters. This covers PyMuPDF
  rendering, pdfplumber, pytesseract, PaddleOCR, TrOCR, Donut, MinerU's
  parser, OLMOCR, Ollama and the DeepSeek HTTP endpoints. Availability is a
  boolean.
- Import-time probing and model loading (core/ocr_utils.py:12-176) are
  process and file-system probing. Only the resulting flags are kept.
- Temporary files, base64 encoding and locating MinerU's output files are
  I/O.
- Rendering, redirects, messages, JSON responses, logging and command
  output are I/O. The admin's and the commands' messages are not modelled.
- The `send_to_llm` view's schema lookup, LLM call and response are left
  out. They are a network call. Only its page filter and prompt choice are
  modelled.
- The `document_list` and `page_preview` views are HTML plumbing.
- `Schema.validate_data` calls `jsonschema`, a foreign library.
- Page dimensions are floats in the source; they are integers here.
- `Lower` and `Title` treat only ASCII letters as cased.
- `str.format` is modelled on `{name}` fields. An all-digit field such as
  `{0}` is a positional index. With keyword arguments only, it always
  raises. The message is Python 3.8's `IndexError` text, or its
  `ValueError` text past `sys.maxsize`. Empty `{}` fields, attribute and
  item access, format specs, conversions and doubled braces are not
  handled.
- Prompts.BuiltinOnlyMissesVariables: the missing-variable conclusion is
  stated only for templates whose fields are all names. A database copy of
  a built-in prompt may hold `{0}`, and that raises the index error.
- `json.dumps` is a simplified serialiser, without indentation or escaping.
  `Json.PyStr` does not reproduce Python's quoting of `repr`.
- The ImportError text for the OLMOCR names is one fixed message.
- `process_document_file` saves the document with `update_fields`, which
  fires the save signals again. That re-entrancy is not modelled:
  `Views.ProcessDocumentFile` runs no signals. The views' and the document
  admin's own saves do run them (`Signals.Save`).
- Concurrency, SQLite locking and the unguarded race on the tracking
  dictionary are left out. The model is single-threaded.
- The wording of the built-in prompt templates is not reproduced. The
  registry is a parameter; the names and the category map are constants.
- A database failure in `list_prompts` is modelled as a failure of the
  whole query. A failure after some rows were read is not distinguished.
- Prompts.FormatDocumentPrompt and Prompts.FormatPagePrompt: a
  `document_content` among the caller's keyword arguments makes the source
  raise `TypeError`, as a `total_pages` does for the document prompt. The
  model's extra variables exclude the reserved names, so that call cannot
  be stated.
- `created_by` in `PromptAdmin.save_model` is not modelled. It is a
  reference to the requesting user.
- Admin.CollectPagesData: selected pages are identified by page number, not
  by the page row's id.
- A queryset is a sequence of distinct document objects.
- Python slicing counts code points; `seq<char>` indexing counts Dafny
  characters.
- Templates.ExtractVariables, Templates.Format and
  Forms.SavedVariablesSuffice: a field name is made of ASCII letters,
  digits and `_`. Python's `\w` on a `str` pattern also matches non-ASCII
  letters and digits, so `{título}` is a field in the source and literal
  text in the model.
- OcrUtils.ExtractTextWithDeepseekFromImage: a status-200 reply is taken
  to carry a parsed JSON body. A `text` or `result` member that is not a
  string is returned as that object by the source (core/ocr_utils.py:
  602-603); the model returns its `str()` via `Json.PyStr`. A body that is
  not JSON is not modelled: depending on the `requests` version its decode
  error goes to the outer handler, which returns "Error with DeepSeek OCR:
  …" (core/ocr_utils.py:627-628), or is a `RequestException` and moves on
  to the next endpoint.
- OcrUtils.ExtractTextWithDeepseek: the Ollama and API helpers are
  parameters that return text. An exception escaping them into the outer
  handler (core/ocr_utils.py:419-420) is not modelled.
- `Signals.Save`: the database row's engine and the key of a new row are
  parameters. Django's check that an update found its row is modelled by
  the row's engine being `None`.
- SyncPromptsCommand.Handle: a failing save is a predicate on the prompt's
  name that changes nothing. The exception text is not modelled.
- Views.PlumberRun: a page whose text extraction fails midway is taken to
  fail before any row is written. Rows written earlier in the same loop are
  not kept.
- Views.PyMuPdfRun: as for PlumberRun, a failure midway is taken to happen
  before any row is written.
- OcrUtils.CollectPages: when a page fails, the method's error text is not
  tied to the specification's. Both raise, and the caller turns any raise
  into `[]`.
- `Document.total_pages` counts the page map's entries. The source counts
  the page rows in the database; the map stands for them.

## Findings

| source | as written | input that shows it | evidently intended | confidence | as-written member | corrected member |
|---|---|---|---|---|---|---|
| core/prompts.py:159-196 | the `page_summary` and `page_extraction` templates use `{page_content}`, but `format_page_prompt` (core/prompts.py:580-586) binds the page as `document_content`, and `page_content` is one of its own parameters, so it never reaches the template | `get_page_summary_prompt("T", 1, "text")` raises "Missing required variable in prompt template: 'page_content'" | the page's text fills `{page_content}`, so a page template always formats (`Prompts.PagePromptBindingPageFormats`) | not executed | `Prompts.PagePromptMissesPageContent` | `Prompts.FormatPagePromptBindingPage` |
