/**
 * The admin site: the document admin's save hook and reprocess action, the
 * page selection and prompt fallback of "send to LLM", the page text
 * preview, and the prompt admin's save hook.
 */
module Admin {
  import opened Wrappers
  import opened Text
  import opened Json
  import opened Lists
  import opened Templates
  import opened Models
  import opened Views
  import opened Signals
  import opened Prompts
  import opened Forms

  // ------------------------------------------------------------ save_model

  /**
   * `DocumentAdmin.save_model`: the file type and the engine are filled in
   * as `pre_save` would, then the document is saved, which fires the
   * signals. `stored` and `newKey` are as for `Signals.Save`.
   */
  method SaveModel(t: Tracker, doc: Document, stored: Option<string>, newKey: nat, env: Env)
    requires newKey != 0
    modifies t, doc
    ensures doc.pk == (if old(doc.pk) == 0 then newKey else old(doc.pk))
    ensures unchanged(doc`title) && unchanged(doc`file)
    // the admin's own defaults change nothing: the save leaves what a plain `save()` leaves
    ensures SaveLeaves(t, doc, old(doc.pk), old(t.originalEngine), old(doc.fileType), old(doc.ocrEngine), old(doc.pages), stored, env)
  {
    var fileType, engine := AdminDefaults(doc.file, doc.fileType, doc.ocrEngine);
    SaveModelSettlesSignal(doc.file, doc.fileType, doc.ocrEngine);
    ghost var fileType0, engine0 := doc.fileType, doc.ocrEngine;
    doc.fileType, doc.ocrEngine := fileType, engine;
    ghost var pk0, tracked0, pages0 := doc.pk, t.originalEngine, doc.pages;
    Save(t, doc, stored, newKey, env);
    SettledSaveLeaves(t, doc, pk0, tracked0, fileType, fileType0, engine, engine0, pages0, stored, env);
  }

  /** The file type and engine `save_model` sets before saving: those `pre_save` would set. */
  method AdminDefaults(file: Option<FileRef>, fileType0: string, engine0: string) returns (fileType: string, engine: string)
    ensures fileType == PreSaveFileType(file, fileType0)
    ensures engine == PreSaveEngine(engine0)
  {
    fileType, engine := fileType0, engine0;
    if file.Some? && fileType == "" {
      var filename := Lower(file.value.name);
      if EndsWith(filename, ".pdf") {
        fileType := "pdf";
      } else if exists k :: 0 <= k < |SaveImageExts| && EndsWith(filename, SaveImageExts[k]) {
        fileType := "image";
      } else {
        fileType := "unknown";
      }
    }
    if engine == "" {
      engine := "mineru";
    }
  }

  /** `SaveLeaves` sees the type and engine it starts from only through what `pre_save` makes of them. */
  lemma SettledSaveLeaves(t: Tracker, doc: Document, oldPk: nat, tracked0: map<nat, Option<string>>,
                          ft1: string, ft0: string, e1: string, e0: string, pages0: PageStore, stored: Option<string>, env: Env)
    requires PreSaveFileType(doc.file, ft1) == PreSaveFileType(doc.file, ft0)
    requires PreSaveEngine(e1) == PreSaveEngine(e0)
    requires SaveLeaves(t, doc, oldPk, tracked0, ft1, e1, pages0, stored, env)
    ensures SaveLeaves(t, doc, oldPk, tracked0, ft0, e0, pages0, stored, env)
  {
  }

  /** The `pre_save` signal the save then fires finds both fields already settled. */
  lemma SaveModelSettlesSignal(file: Option<FileRef>, fileType: string, engine: string)
    ensures PreSaveFileType(file, PreSaveFileType(file, fileType)) == PreSaveFileType(file, fileType)
    ensures PreSaveEngine(PreSaveEngine(engine)) == PreSaveEngine(engine)
    ensures file.Some? ==> PreSaveFileType(file, fileType) != ""
  {
  }

  // ---------------------------------------------------- reprocess_documents

  /** What the action makes of one document: `None` without a file, else whether processing raised nothing. */
  function OutcomeOf(s: DocState, env: Env): (r: Option<bool>)
    ensures r.None? <==> s.file.None?
  {
    if s.file.None? then None else Some(Reprocess(s, env).raised.None?)
  }

  /** Documents with a file whose reprocessing raised nothing. */
  function CountProcessed(states: seq<DocState>, env: Env): nat
  {
    if states == [] then 0
    else CountProcessed(states[..|states| - 1], env) + (if OutcomeOf(states[|states| - 1], env) == Some(true) then 1 else 0)
  }

  /** Documents with a file whose reprocessing raised. */
  function CountFailed(states: seq<DocState>, env: Env): nat
  {
    if states == [] then 0
    else CountFailed(states[..|states| - 1], env) + (if OutcomeOf(states[|states| - 1], env) == Some(false) then 1 else 0)
  }

  lemma CountStep(states: seq<DocState>, i: nat, env: Env)
    requires i < |states|
    ensures CountProcessed(states[..i + 1], env) ==
      CountProcessed(states[..i], env) + (if OutcomeOf(states[i], env) == Some(true) then 1 else 0)
    ensures CountFailed(states[..i + 1], env) ==
      CountFailed(states[..i], env) + (if OutcomeOf(states[i], env) == Some(false) then 1 else 0)
  {
    assert states[..i + 1][..i] == states[..i];
  }

  /** Documents without a file are in neither counter; every other one is in exactly one. */
  lemma {:induction false} CountersPartition(states: seq<DocState>, env: Env)
    ensures CountProcessed(states, env) + CountFailed(states, env) == CountWithFile(states)
  {
    if states != [] {
      CountersPartition(states[..|states| - 1], env);
    }
  }

  /**
   * The `reprocess_documents` action over the selected documents (distinct
   * objects, as a queryset yields them). A document without a file is
   * skipped; any other has its pages deleted and is processed, counting as
   * processed when nothing is raised and as failed otherwise.
   */
  method ReprocessDocuments(documents: seq<Document>, env: Env) returns (processed: nat, failed: nat)
    requires forall i, j :: 0 <= i < j < |documents| ==> documents[i] != documents[j]
    modifies set d | d in documents
    ensures processed == CountProcessed(old(States(documents)), env)
    ensures failed == CountFailed(old(States(documents)), env)
    ensures forall i :: 0 <= i < |documents| ==> documents[i].file == old(documents[i].file)
    ensures forall i :: 0 <= i < |documents| && old(documents[i].file).None? ==>
      documents[i].pages == old(documents[i].pages) && StateOf(documents[i]) == old(StateOf(documents[i]))
    ensures forall i :: 0 <= i < |documents| && old(documents[i].file).Some? ==>
      var p := Reprocess(old(StateOf(documents[i])), env);
      documents[i].pages == p.pages && documents[i].fileType == p.fileType && documents[i].ocrEngine == p.ocrEngine
  {
    ghost var before := States(documents);
    processed, failed := 0, 0;
    for i := 0 to |documents|
      invariant processed == CountProcessed(before[..i], env)
      invariant failed == CountFailed(before[..i], env)
      invariant forall j :: i <= j < |documents| ==> unchanged(documents[j])
      invariant forall j :: 0 <= j < i ==> Handled(documents[j], old(StateOf(documents[j])), old(documents[j].pages), env)
    {
      CountStep(before, i, env);
      var outcome := ReprocessOne(documents[i], env);
      if outcome == Some(true) {
        processed := processed + 1;
      } else if outcome == Some(false) {
        failed := failed + 1;
      }
    }
    assert before[..|documents|] == before;
  }

  /** What the action leaves in one document, given its state and pages before. */
  ghost predicate Handled(d: Document, s0: DocState, pages0: PageStore, env: Env)
    reads d
  {
    d.file == s0.file
    && if s0.file.None? then d.pages == pages0 && StateOf(d) == s0
       else
         var p := Reprocess(s0, env);
         d.pages == p.pages && d.fileType == p.fileType && d.ocrEngine == p.ocrEngine
  }

  /**
   * One pass of the action's loop: `None` for a document without a file,
   * otherwise whether processing its emptied page store raised nothing.
   */
  method ReprocessOne(document: Document, env: Env) returns (outcome: Option<bool>)
    modifies document
    ensures document.file == old(document.file)
    ensures outcome == OutcomeOf(old(StateOf(document)), env)
    ensures outcome.None? ==> document.pages == old(document.pages) && StateOf(document) == old(StateOf(document))
    ensures outcome.Some? ==>
      var p := Reprocess(old(StateOf(document)), env);
      document.pages == p.pages && document.fileType == p.fileType && document.ocrEngine == p.ocrEngine
    ensures Handled(document, old(StateOf(document)), old(document.pages), env)
  {
    if document.file.None? {
      return None;
    }
    document.DeletePages();
    var raised := ProcessDocumentFile(document, env);
    outcome := Some(raised.None?);
  }

  // ------------------------------------------------------------ pages_data

  const NoTextMessage := "No text content found in selected pages."

  /** The page numbers the query returns, in `page_number` order: the selected ones, or all when none is selected. */
  function Queried(pages: PageStore, selected: set<int>): (r: seq<int>)
    ensures forall n :: n in r <==> n in pages && (selected == {} || n in selected)
    ensures forall i, j :: 0 <= i < j < |r| ==> r[i] < r[j]
  {
    Ascending(if selected == {} then pages.Keys else pages.Keys * selected)
  }

  /** The entry one page contributes; it carries no `json_data`. */
  function Entry(n: int, text: string): PageData
  {
    PageData(Some(n), text, JNull)
  }

  /** The entries of the pages numbered `numbers` whose text is not blank, in that order. */
  function NonBlankEntries(pages: PageStore, numbers: seq<int>): (r: seq<PageData>)
    requires forall k :: 0 <= k < |numbers| ==> numbers[k] in pages
  {
    if numbers == [] then []
    else
      var n := numbers[|numbers| - 1];
      NonBlankEntries(pages, numbers[..|numbers| - 1])
        + (if IsBlank(pages[n].text) then [] else [Entry(n, pages[n].text)])
  }

  /** What the entries are: exactly the non-blank pages of `numbers`, keeping their order. */
  lemma NonBlankEntriesSpec(pages: PageStore, numbers: seq<int>)
    requires forall k :: 0 <= k < |numbers| ==> numbers[k] in pages
    requires forall i, j :: 0 <= i < j < |numbers| ==> numbers[i] < numbers[j]
    ensures var r := NonBlankEntries(pages, numbers);
      (forall k :: 0 <= k < |r| ==>
        r[k].number.Some? && r[k].number.value in numbers
        && r[k].text == pages[r[k].number.value].text && !IsBlank(r[k].text) && r[k].json == JNull)
      && (forall i, j :: 0 <= i < j < |r| ==> r[i].number.value < r[j].number.value)
      && (forall n :: n in numbers && !IsBlank(pages[n].text) ==> Entry(n, pages[n].text) in r)
  {
    NonBlankEntriesFrom(pages, numbers);
    NonBlankEntriesOrdered(pages, numbers);
    NonBlankEntriesComplete(pages, numbers);
  }

  /** Each entry is a non-blank queried page, with its text and no JSON. */
  lemma {:induction false} NonBlankEntriesFrom(pages: PageStore, numbers: seq<int>)
    requires forall k :: 0 <= k < |numbers| ==> numbers[k] in pages
    ensures forall k :: 0 <= k < |NonBlankEntries(pages, numbers)| ==>
      var e := NonBlankEntries(pages, numbers)[k];
      e.number.Some? && e.number.value in numbers && e.text == pages[e.number.value].text && !IsBlank(e.text) && e.json == JNull
  {
    if numbers != [] {
      var init := numbers[..|numbers| - 1];
      NonBlankEntriesFrom(pages, init);
      assert forall m :: m in init ==> m in numbers;
    }
  }

  /** Entries keep the increasing order of the page numbers. */
  lemma {:induction false} NonBlankEntriesOrdered(pages: PageStore, numbers: seq<int>)
    requires forall k :: 0 <= k < |numbers| ==> numbers[k] in pages
    requires forall i, j :: 0 <= i < j < |numbers| ==> numbers[i] < numbers[j]
    ensures forall i, j :: 0 <= i < j < |NonBlankEntries(pages, numbers)| ==>
      NonBlankEntries(pages, numbers)[i].number.Some? && NonBlankEntries(pages, numbers)[j].number.Some?
      && NonBlankEntries(pages, numbers)[i].number.value < NonBlankEntries(pages, numbers)[j].number.value
  {
    if numbers != [] {
      var init := numbers[..|numbers| - 1];
      var n := numbers[|numbers| - 1];
      NonBlankEntriesOrdered(pages, init);
      NonBlankEntriesFrom(pages, init);
      var r0 := NonBlankEntries(pages, init);
      var r := NonBlankEntries(pages, numbers);
      assert r == r0 + (if IsBlank(pages[n].text) then [] else [Entry(n, pages[n].text)]);
      forall i, j | 0 <= i < j < |r|
        ensures r[i].number.Some? && r[j].number.Some? && r[i].number.value < r[j].number.value
      {
        assert r[i] == r0[i];
        if j == |r0| {
          assert r0[i].number.value in init;
        } else {
          assert r[j] == r0[j];
        }
      }
    } else {
      assert NonBlankEntries(pages, numbers) == [];
    }
  }

  /** Every non-blank queried page has its entry. */
  lemma {:induction false} NonBlankEntriesComplete(pages: PageStore, numbers: seq<int>)
    requires forall k :: 0 <= k < |numbers| ==> numbers[k] in pages
    ensures forall n :: n in numbers && !IsBlank(pages[n].text) ==> Entry(n, pages[n].text) in NonBlankEntries(pages, numbers)
  {
    if numbers != [] {
      var init := numbers[..|numbers| - 1];
      NonBlankEntriesComplete(pages, init);
      assert forall m :: m in numbers ==> m in init || m == numbers[|numbers| - 1];
    }
  }

  /** No entries at all exactly when every queried page is blank. */
  lemma {:induction false} NoEntriesIffAllBlank(pages: PageStore, numbers: seq<int>)
    requires forall k :: 0 <= k < |numbers| ==> numbers[k] in pages
    ensures NonBlankEntries(pages, numbers) == [] <==> forall k :: 0 <= k < |numbers| ==> IsBlank(pages[numbers[k]].text)
  {
    if numbers != [] {
      NoEntriesIffAllBlank(pages, numbers[..|numbers| - 1]);
    }
  }

  /**
   * The page collection of `send_to_llm_view`: the entries of the queried
   * pages with non-blank text, or the 400 error when there are none.
   */
  method CollectPagesData(pages: PageStore, selected: set<int>) returns (r: Outcome<seq<PageData>>)
    ensures r.Raised? <==> forall n :: n in pages && (selected == {} || n in selected) ==> IsBlank(pages[n].text)
    ensures r.Raised? ==> r.error == NoTextMessage
    ensures r.Ok? ==> r.value == NonBlankEntries(pages, Queried(pages, selected))
  {
    var numbers := Queried(pages, selected);
    var data := GatherEntries(pages, numbers);
    NoEntriesIffAllBlank(pages, numbers);
    if data == [] {
      assert forall n :: n in pages && (selected == {} || n in selected) ==> n in numbers;
      return Raised(NoTextMessage);
    }
    return Ok(data);
  }

  /** The loop of `send_to_llm_view` that appends an entry for each page with non-blank text. */
  method GatherEntries(pages: PageStore, numbers: seq<int>) returns (data: seq<PageData>)
    requires forall k :: 0 <= k < |numbers| ==> numbers[k] in pages
    ensures data == NonBlankEntries(pages, numbers)
  {
    data := [];
    for i := 0 to |numbers|
      invariant data == NonBlankEntries(pages, numbers[..i])
    {
      assert numbers[..i + 1][..i] == numbers[..i];
      var n := numbers[i];
      var text := pages[n].text;
      if !IsBlank(text) {
        data := data + [Entry(n, text)];
      }
    }
    assert numbers[..|numbers|] == numbers;
  }

  // ------------------------------------------------------ prompt fallback

  /** The prompt type used: the requested one (`'document_summary'` by default) when listed, else `'document_summary'`. */
  function ChosenPromptType(requested: Option<string>, db: Outcome<seq<PromptRow>>): (r: string)
    ensures r == "document_summary" || r in Names(ListedPrompts(true, db))
    ensures requested.Some? && requested.value in Names(ListedPrompts(true, db)) ==> r == requested.value
    ensures requested.Some? && requested.value !in Names(ListedPrompts(true, db)) ==> r == "document_summary"
  {
    var promptType := requested.GetOr("document_summary");
    if promptType in Names(ListedPrompts(true, db)) then promptType else "document_summary"
  }

  /** With the built-in registry in place, the chosen prompt is always found. */
  lemma ChosenPromptIsFound(requested: Option<string>, db: Outcome<seq<PromptRow>>, builtins: map<string, PromptTemplate>)
    requires IsBuiltinRegistry(builtins)
    ensures GetPrompt(ChosenPromptType(requested, db), true, db, builtins).Some?
  {
    var r := ChosenPromptType(requested, db);
    ListedIffFound(true, db, builtins, r);
    if r == "document_summary" {
      assert BuiltinNames[0] == "document_summary";
    }
  }

  // ---------------------------------------------------------- text_preview

  /** `PageAdmin.text_preview`. */
  function TextPreview(text: string): (r: string)
    ensures text == "" ==> r == "No text"
    ensures |text| > 100 ==> |r| == 103 && text[..100] == r[..100] && r[100..] == "..."
    ensures 0 < |text| <= 100 ==> r == text
  {
    if text != "" then (if |text| > 100 then text[..100] + "..." else text) else "No text"
  }

  // --------------------------------------------------- PromptAdmin.save_model

  /**
   * `PromptAdmin.save_model`: the variables are extracted from a non-empty
   * template, then the prompt is saved, as a new row when `pk` is `None`.
   */
  method SavePromptModel(table: PromptTable, pk: Option<nat>, p: PromptRow) returns (key: nat)
    requires table.Valid() && (pk.Some? ==> pk.value in table.rows)
    modifies table
    ensures table.Valid()
    ensures table.rows == SavedPrompts(old(table.rows), key, WithExtractedVariables(p))
    ensures pk.Some? ==> key == pk.value
    ensures pk.None? ==> key !in old(table.rows)
  {
    var obj := p;
    if obj.template != "" {
      obj := obj.(variables := ExtractVariables(obj.template));
    }
    if pk.Some? {
      key := pk.value;
      table.Save(key, obj);
    } else {
      key := table.Insert(obj);
    }
  }
}
