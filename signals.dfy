/**
 * The save signals of `Document`: `pre_save` fills in the file type and the
 * engine and remembers the engine the stored row had; `post_save` decides
 * from that record whether to (re)process the document.
 */
module Signals {
  import opened Wrappers
  import opened Text
  import opened Models
  import opened Views

  /** The file type `pre_save` leaves: inferred from the name only when a file is present and the type is blank. */
  function PreSaveFileType(file: Option<FileRef>, fileType: string): (r: string)
    ensures file.None? || fileType != "" ==> r == fileType
    ensures file.Some? && fileType == "" ==>
      r in {"pdf", "image", "unknown"}
      && (r == "pdf" <==> EndsWith(Lower(file.value.name), ".pdf"))
  {
    if file.Some? && fileType == "" then InferFileType(Lower(file.value.name), SaveImageExts) else fileType
  }

  /** The engine `pre_save` leaves: a blank one becomes `'mineru'`. */
  function PreSaveEngine(engine: string): (r: string)
    ensures r != ""
    ensures engine != "" ==> r == engine
  {
    if engine == "" then "mineru" else engine
  }

  /** The orchestrator's own inference finds nothing left to do after `pre_save`. */
  lemma PreSaveSettlesFileType(file: FileRef, fileType: string)
    ensures FileTypeOf(PreSaveFileType(Some(file), fileType), file) == PreSaveFileType(Some(file), fileType)
    ensures PreSaveFileType(Some(file), fileType) == FileTypeOf(fileType, file)
  {
  }

  /** Defaulting the engine in `pre_save` does not change which engine the orchestrator runs. */
  lemma PreSaveKeepsNormalizedEngine(engine: string)
    ensures NormalizedEngineField(PreSaveEngine(engine)) == NormalizedEngineField(engine)
  {
    LowerOfLowercase("mineru");
  }

  /** The tracking dict after `pre_save`: an existing key records the stored row's engine (`None` when the row is gone). */
  function Tracked(tracked: map<nat, Option<string>>, pk: nat, stored: Option<string>): (r: map<nat, Option<string>>)
    ensures pk != 0 ==> pk in r && r[pk] == stored && r.Keys == tracked.Keys + {pk}
    ensures pk == 0 ==> r == tracked
    ensures forall k :: k in tracked && k != pk ==> k in r && r[k] == tracked[k]
  {
    if pk != 0 then tracked[pk := stored] else tracked
  }

  /** `ocr_engine_changed` of `post_save`. */
  predicate EngineChanged(created: bool, hasPages: bool, tracked: map<nat, Option<string>>, pk: nat, engine: string)
  {
    !created && hasPages && pk in tracked
    && tracked[pk].Some? && tracked[pk].value != "" && tracked[pk].value != engine
  }

  /** Whether `post_save` processes a document that has a file. */
  predicate ShouldProcess(created: bool, hasPages: bool, tracked: map<nat, Option<string>>, pk: nat, engine: string)
  {
    created || !hasPages || EngineChanged(created, hasPages, tracked, pk, engine)
  }

  /**
   * An existing document with pages is reprocessed exactly when the row
   * `pre_save` read had a non-blank engine other than the one being saved.
   */
  lemma ReprocessIffEngineChanged(tracked: map<nat, Option<string>>, pk: nat, stored: Option<string>, engine: string)
    requires pk != 0
    ensures ShouldProcess(false, true, Tracked(tracked, pk, stored), pk, engine) <==>
      stored.Some? && stored.value != "" && stored.value != engine
  {
  }

  /** A new document, or one without pages, is always processed. */
  lemma NewOrEmptyIsProcessed(created: bool, hasPages: bool, tracked: map<nat, Option<string>>, pk: nat, engine: string)
    requires created || !hasPages
    ensures ShouldProcess(created, hasPages, tracked, pk, engine)
  {
  }

  /** The tracking dict after `post_save` looked at it: the entry is dropped once the change check ran. */
  function Untracked(tracked: map<nat, Option<string>>, created: bool, hasPages: bool, pk: nat): (r: map<nat, Option<string>>)
    ensures !created && hasPages ==> pk !in r
    ensures r.Keys <= tracked.Keys
    ensures forall k :: k in tracked && k != pk ==> k in r && r[k] == tracked[k]
    ensures (created || !hasPages) ==> r == tracked
  {
    if !created && hasPages && pk in tracked then tracked - {pk} else tracked
  }

  /** A second `post_save` without a `pre_save` in between sees no engine change. */
  lemma ChangeIsSeenOnce(tracked: map<nat, Option<string>>, pk: nat, engine: string)
    ensures !EngineChanged(false, true, Untracked(tracked, false, true, pk), pk, engine)
  {
  }

  /** The module-level `_original_ocr_engine` dict. */
  class Tracker {
    var originalEngine: map<nat, Option<string>>

    constructor ()
      ensures originalEngine == map[]
    {
      originalEngine := map[];
    }
  }

  /**
   * `set_file_type_and_track_ocr_engine` (pre_save). `stored` is the engine
   * of the row with the document's key as the database holds it, `None`
   * when there is no such row.
   */
  method PreSave(t: Tracker, doc: Document, stored: Option<string>)
    modifies t, doc
    ensures t.originalEngine == Tracked(old(t.originalEngine), doc.pk, stored)
    ensures doc.fileType == PreSaveFileType(doc.file, old(doc.fileType))
    ensures doc.ocrEngine == PreSaveEngine(old(doc.ocrEngine))
    ensures unchanged(doc`pk) && unchanged(doc`title) && unchanged(doc`file) && unchanged(doc`pages)
  {
    if doc.pk != 0 {
      t.originalEngine := t.originalEngine[doc.pk := stored];
    }
    var fileType, engine := doc.fileType, doc.ocrEngine;
    if doc.file.Some? && fileType == "" {
      var filename := Lower(doc.file.value.name);
      if EndsWith(filename, ".pdf") {
        fileType := "pdf";
      } else if exists k :: 0 <= k < |SaveImageExts| && EndsWith(filename, SaveImageExts[k]) {
        fileType := "image";
      } else {
        fileType := "unknown";
      }
    }
    if engine == "" {
      engine := "mineru";
    }
    doc.fileType, doc.ocrEngine := fileType, engine;
  }

  /**
   * `auto_process_document` (post_save). Without a file nothing happens.
   * Otherwise the tracking entry is consumed, and when the document is to be
   * processed its pages are deleted first and the orchestrator runs on the
   * empty store; what it raises is logged, never passed on.
   */
  method PostSave(t: Tracker, doc: Document, created: bool, env: Env) returns (processed: bool)
    modifies t, doc
    ensures unchanged(doc`pk) && unchanged(doc`title) && unchanged(doc`file)
    ensures doc.file.None? ==> !processed && t.originalEngine == old(t.originalEngine) && doc.pages == old(doc.pages)
    ensures doc.file.Some? ==>
      processed == ShouldProcess(created, old(doc.pages) != map[], old(t.originalEngine), doc.pk, old(doc.ocrEngine))
      && t.originalEngine == Untracked(old(t.originalEngine), created, old(doc.pages) != map[], doc.pk)
    ensures processed ==>
      var p := Process(doc.pk, doc.file, old(doc.fileType), old(doc.ocrEngine), map[], env);
      doc.pages == p.pages && doc.fileType == p.fileType && doc.ocrEngine == p.ocrEngine
    ensures !processed ==> doc.pages == old(doc.pages) && unchanged(doc`fileType) && unchanged(doc`ocrEngine)
  {
    if doc.file.None? {
      return false;
    }
    var hasPages := doc.pages != map[];
    var changed := false;
    if !created && hasPages && doc.pk in t.originalEngine {
      var oldEngine := t.originalEngine[doc.pk];
      if oldEngine.Some? && oldEngine.value != "" && oldEngine.value != doc.ocrEngine {
        changed := true;
      }
      t.originalEngine := t.originalEngine - {doc.pk};
    }
    processed := created || !hasPages || changed;
    if processed {
      if hasPages {
        doc.DeletePages();
      }
      var raised := ProcessDocumentFile(doc, env);
    }
  }

  /**
   * What `document.save()` leaves, given what the tracking dict and the
   * document held before it. `oldPk` is the key before the save (0 for an
   * unsaved document) and `doc.pk` the key after it; the save inserts, and
   * `post_save` sees `created`, exactly when there was no row to update.
   */
  ghost predicate SaveLeaves(t: Tracker, doc: Document, oldPk: nat, tracked0: map<nat, Option<string>>,
                             fileType0: string, engine0: string, pages0: PageStore, stored: Option<string>, env: Env)
    reads t, doc
  {
    var created := oldPk == 0 || stored.None?;
    var tracked := Tracked(tracked0, oldPk, stored);
    var ft := PreSaveFileType(doc.file, fileType0);
    var e := PreSaveEngine(engine0);
    var hasPages := pages0 != map[];
    if doc.file.None? then
      doc.pages == pages0 && doc.fileType == ft && doc.ocrEngine == e && t.originalEngine == tracked
    else if ShouldProcess(created, hasPages, tracked, doc.pk, e) then
      var p := Process(doc.pk, doc.file, ft, e, map[], env);
      doc.pages == p.pages && doc.fileType == p.fileType && doc.ocrEngine == p.ocrEngine
      && t.originalEngine == Untracked(tracked, created, hasPages, doc.pk)
    else
      doc.pages == pages0 && doc.fileType == ft && doc.ocrEngine == e
      && t.originalEngine == Untracked(tracked, created, hasPages, doc.pk)
  }

  /**
   * `document.save()`: `pre_save`, the row's insert or update, then
   * `post_save`. `stored` is the engine of the row with the document's key,
   * `None` when there is no such row; an insert of an unsaved document gives
   * it the key `newKey`.
   */
  method Save(t: Tracker, doc: Document, stored: Option<string>, newKey: nat, env: Env)
    requires newKey != 0
    modifies t, doc
    ensures doc.pk == (if old(doc.pk) == 0 then newKey else old(doc.pk))
    ensures unchanged(doc`title) && unchanged(doc`file)
    ensures SaveLeaves(t, doc, old(doc.pk), old(t.originalEngine), old(doc.fileType), old(doc.ocrEngine), old(doc.pages), stored, env)
  {
    var created := doc.pk == 0 || stored.None?;
    PreSave(t, doc, stored);
    if doc.pk == 0 {
      doc.pk := newKey;
    }
    var processed := PostSave(t, doc, created, env);
  }
}
