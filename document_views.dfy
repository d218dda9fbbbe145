/**
 * The create and update views of `core/views.py`. Both save the document,
 * and a save runs the signals, which may process the document before the
 * view calls the orchestrator itself; so these views sit above `Signals`.
 */
module DocumentViews {
  import opened Wrappers
  import opened Text
  import opened Models
  import opened Views
  import opened Signals

  /** The file type the create and update views give an upload: `.gif` is not among their image extensions. */
  function UploadFileType(file: FileRef): (r: string)
    ensures r in {"pdf", "image", "unknown"}
    ensures r == "pdf" <==> EndsWith(Lower(file.name), ".pdf")
  {
    InferFileType(Lower(file.name), UploadImageExts)
  }

  /** The pages, type and engine `post_save` leaves in a new upload: it always processes one. */
  function FirstRun(pk: nat, file: FileRef, engine: string, env: Env): Processed
  {
    Process(pk, Some(file), UploadFileType(file), PreSaveEngine(engine), map[], env)
  }

  /** The view's own call to the orchestrator, on what `post_save` left. */
  function SecondRun(pk: nat, file: FileRef, engine: string, env: Env): Processed
  {
    var first := FirstRun(pk, file, engine, env);
    Process(pk, Some(file), first.fileType, first.ocrEngine, first.pages, env)
  }

  /**
   * `document_create` after a valid form: the type is inferred from the
   * upload's name and the document saved, which processes it once through
   * `post_save`; the view then processes it again and deletes the document
   * (its pages with it, its key cleared) when that second run raises.
   * `newKey` is the key the insert gives the new row; `kept` is false when
   * the document was deleted.
   */
  method CreateDocument(t: Tracker, doc: Document, newKey: nat, env: Env) returns (kept: bool)
    requires doc.file.Some? && doc.pk == 0 && newKey != 0
    modifies t, doc
    ensures unchanged(doc`file) && t.originalEngine == old(t.originalEngine)
    ensures var second := SecondRun(newKey, doc.file.value, old(doc.ocrEngine), env);
      (kept <==> second.raised.None?)
      && (kept ==> doc.pk == newKey && doc.pages == second.pages
                   && doc.fileType == second.fileType && doc.ocrEngine == second.ocrEngine)
      && (!kept ==> doc.pk == 0 && doc.pages == map[])
  {
    ghost var engine0 := doc.ocrEngine;
    doc.fileType := UploadFileType(doc.file.value);
    Save(t, doc, None, newKey, env);
    assert doc.ocrEngine == FirstRun(newKey, doc.file.value, engine0, env).ocrEngine;
    var raised := ProcessDocumentFile(doc, env);
    kept := raised.None?;
    if !kept {
      doc.DeletePages();
      doc.pk := 0;
    }
  }

  /**
   * An image upload that `post_save` processed without error always ends
   * deleted: the view's second run finds page 1 taken.
   */
  lemma ImageCreateIsDeleted(pk: nat, file: FileRef, engine: string, env: Env)
    ensures UploadFileType(file) == "image" && FirstRun(pk, file, engine, env).raised.None? ==>
      SecondRun(pk, file, engine, env).raised == Some(DuplicatePageMessage)
  {
    var first := FirstRun(pk, file, engine, env);
    if UploadFileType(file) == "image" && first.raised.None? {
      var field := NormalizedEngineField(PreSaveEngine(engine));
      assert first.fileType == "image" && first.ocrEngine == field;
      assert NormalizedEngineField(field) == field;
      var e := EngineOf(Lower(field)).value;
      assert first.pages == ImageRun(env, field, e, file.path, map[]).pages;
      assert 1 in first.pages;
    }
  }

  /**
   * `document_update` after a valid form. With a new upload the type is
   * inferred, the old pages deleted and the file processed; a raise ends the
   * view without saving. Otherwise, and always without an upload, the
   * document is saved, and `post_save` may process it (again). `stored` is
   * the engine the row holds when the view saves.
   */
  method UpdateDocument(t: Tracker, doc: Document, stored: Option<string>, newUpload: bool, env: Env)
    returns (raised: Option<string>)
    requires doc.pk != 0
    requires newUpload ==> doc.file.Some?
    modifies t, doc
    ensures doc.pk == old(doc.pk) && unchanged(doc`title) && unchanged(doc`file)
    ensures !newUpload ==> raised.None?
    ensures !newUpload ==>
      SaveLeaves(t, doc, doc.pk, old(t.originalEngine), old(doc.fileType), old(doc.ocrEngine), old(doc.pages), stored, env)
    ensures newUpload ==>
      var first := Process(doc.pk, doc.file, UploadFileType(doc.file.value), old(doc.ocrEngine), map[], env);
      raised == first.raised
      && (first.raised.Some? ==>
            doc.pages == first.pages && doc.fileType == first.fileType && doc.ocrEngine == first.ocrEngine
            && t.originalEngine == old(t.originalEngine))
      && (first.raised.None? ==>
            SaveLeaves(t, doc, doc.pk, old(t.originalEngine), first.fileType, first.ocrEngine, first.pages, stored, env))
  {
    if newUpload {
      doc.fileType := UploadFileType(doc.file.value);
      doc.DeletePages();
      raised := ProcessDocumentFile(doc, env);
      if raised.Some? {
        return;
      }
    }
    Save(t, doc, stored, doc.pk, env);
    raised := None;
  }
}
