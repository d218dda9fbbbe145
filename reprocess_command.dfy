/**
 * The `reprocess_documents` management command: it checks each selected
 * document before touching it, reprocesses the ones that pass, and counts
 * a document as processed only when extraction left pages behind.
 */
module ReprocessCommand {
  import opened Wrappers
  import opened Models
  import opened Views

  const UsageError := "Please specify --all or provide document IDs"

  /** Where one document ends up. */
  datatype Tally = Skipped | Succeeded | Failed

  /** The checks made before the pages are deleted: the file exists and, for a PDF, opens with at least one page. */
  predicate PassesChecks(s: DocState, env: Env)
    requires s.file.Some?
  {
    env.fileExists(s.file.value.path)
    && (s.fileType == "pdf" ==> env.openPdf(s.file.value.path).Ok? && |env.openPdf(s.file.value.path).value| > 0)
  }

  /** The command's verdict on one document. */
  function TallyOf(s: DocState, env: Env): Tally
  {
    if s.file.None? then Skipped
    else if !PassesChecks(s, env) then Failed
    else
      var p := Reprocess(s, env);
      if p.raised.None? && |p.pages| > 0 then Succeeded else Failed
  }

  /** A document that passes the checks is processed exactly when processing raises nothing and writes some page. */
  lemma SucceededIffPagesWritten(s: DocState, env: Env)
    requires s.file.Some? && PassesChecks(s, env)
    ensures TallyOf(s, env) == Succeeded <==> Reprocess(s, env).raised.None? && Reprocess(s, env).pages != map[]
  {
    var p := Reprocess(s, env);
    assert |p.pages| > 0 <==> p.pages != map[];
  }

  /** A document whose file check fails counts as failed without being processed. */
  lemma MissingFileFails(s: DocState, env: Env)
    requires s.file.Some? && !env.fileExists(s.file.value.path)
    ensures TallyOf(s, env) == Failed
  {
  }

  function Count(states: seq<DocState>, env: Env, t: Tally): nat
  {
    if states == [] then 0
    else Count(states[..|states| - 1], env, t) + (if TallyOf(states[|states| - 1], env) == t then 1 else 0)
  }

  /** How often `t` occurs in the recorded tallies. */
  function CountIn(ts: seq<Tally>, t: Tally): nat
  {
    if ts == [] then 0 else CountIn(ts[..|ts| - 1], t) + (if ts[|ts| - 1] == t then 1 else 0)
  }

  lemma {:induction false} CountMatches(states: seq<DocState>, ts: seq<Tally>, env: Env, t: Tally)
    requires |ts| == |states|
    requires forall j :: 0 <= j < |ts| ==> ts[j] == TallyOf(states[j], env)
    ensures Count(states, env, t) == CountIn(ts, t)
  {
    if states != [] {
      CountMatches(states[..|states| - 1], ts[..|ts| - 1], env, t);
    }
  }

  /** Every document lands in exactly one of the three outcomes, and only those without a file are skipped. */
  lemma {:induction false} TalliesPartition(states: seq<DocState>, env: Env)
    ensures Count(states, env, Succeeded) + Count(states, env, Failed) + Count(states, env, Skipped) == |states|
    ensures Count(states, env, Succeeded) + Count(states, env, Failed) == CountWithFile(states)
  {
    if states != [] {
      TalliesPartition(states[..|states| - 1], env);
    }
  }

  /** The documents the options select, in query order: all of them, or those whose key is listed. */
  function Selection(documents: seq<Document>, all: bool, ids: seq<nat>): (r: seq<Document>)
    reads set d | d in documents
    ensures forall d :: d in r ==> d in documents
    ensures all ==> r == documents
    ensures !all ==> forall d :: d in documents ==> (d in r <==> d.pk in ids)
  {
    if all || documents == [] then (if all then documents else [])
    else
      var last := documents[|documents| - 1];
      Selection(documents[..|documents| - 1], all, ids) + (if last.pk in ids then [last] else [])
  }

  /** The counters the command prints. */
  datatype Summary = Summary(processed: nat, failed: nat)

  /**
   * What `handle` ends with: the error it writes when nothing was selected
   * (it then returns normally, raising nothing), or the counters it writes
   * after the loop.
   */
  datatype Report = ErrorWritten(message: string) | Finished(summary: Summary)

  /**
   * `Command.handle`. Without `--all` and without ids it writes an error
   * and returns before touching anything. Otherwise each selected document (the
   * table's rows are distinct objects) is checked, reprocessed, and tallied.
   */
  method Handle(documents: seq<Document>, all: bool, ids: seq<nat>, env: Env) returns (r: Report)
    requires Distinct(documents)
    modifies set d | d in documents
    ensures !all && ids == [] ==> r == ErrorWritten(UsageError)
    ensures !all && ids == [] ==> forall d :: d in documents ==> d.pages == old(d.pages) && StateOf(d) == old(StateOf(d))
    ensures all || ids != [] ==>
      var states := old(States(Selection(documents, all, ids)));
      r == Finished(Summary(Count(states, env, Succeeded), Count(states, env, Failed)))
    ensures all || ids != [] ==>
      var selection := old(Selection(documents, all, ids));
      (forall i :: 0 <= i < |selection| ==>
        Settled(selection[i], old(StateOf(selection[i])), old(selection[i].pages), env))
      && forall d :: d in documents && d !in selection ==> d.pages == old(d.pages) && StateOf(d) == old(StateOf(d))
  {
    if !all && ids == [] {
      return ErrorWritten(UsageError);
    }
    var selection := Selection(documents, all, ids);
    SelectionIsDistinct(documents, all, ids);
    var processed, failed := ProcessSelection(selection, env);
    r := Finished(Summary(processed, failed));
  }

  /** No object appears twice: the rows of a query are distinct objects. */
  predicate Distinct(docs: seq<Document>)
  {
    forall i, j :: 0 <= i < j < |docs| ==> docs[i] != docs[j]
  }

  lemma {:induction false} SelectionIsDistinct(documents: seq<Document>, all: bool, ids: seq<nat>)
    requires Distinct(documents)
    ensures Distinct(Selection(documents, all, ids))
  {
    if !all && documents != [] {
      var init := documents[..|documents| - 1];
      var last := documents[|documents| - 1];
      assert Distinct(init);
      SelectionIsDistinct(init, all, ids);
      var r0 := Selection(init, all, ids);
      assert last !in init;
      assert last !in r0;
      var r := Selection(documents, all, ids);
      assert r == r0 + (if last.pk in ids then [last] else []);
      forall i, j | 0 <= i < j < |r|
        ensures r[i] != r[j]
      {
        if j == |r0| {
          assert r[i] == r0[i] && r0[i] in r0 && r[j] == last;
        } else {
          assert r[i] == r0[i] && r[j] == r0[j];
        }
      }
    }
  }

  /** The loop over the selected documents, with its two counters. */
  method ProcessSelection(selection: seq<Document>, env: Env) returns (processed: nat, failed: nat)
    requires Distinct(selection)
    modifies set d | d in selection
    ensures processed == Count(old(States(selection)), env, Succeeded)
    ensures failed == Count(old(States(selection)), env, Failed)
    ensures forall i :: 0 <= i < |selection| ==> Settled(selection[i], old(StateOf(selection[i])), old(selection[i].pages), env)
  {
    ghost var before := States(selection);
    ghost var stores := seq(|selection|, j requires 0 <= j < |selection| reads selection => selection[j].pages);
    ghost var tallies: seq<Tally> := [];
    processed, failed := 0, 0;
    for i := 0 to |selection|
      invariant |tallies| == i
      invariant processed == CountIn(tallies, Succeeded) && failed == CountIn(tallies, Failed)
      invariant forall j :: 0 <= j < i ==> tallies[j] == TallyOf(before[j], env) && Settled(selection[j], before[j], stores[j], env)
      invariant forall j :: i <= j < |selection| ==> unchanged(selection[j])
    {
      assert forall j :: 0 <= j < |selection| && j != i ==> selection[j] != selection[i];
      var t := ProcessOne(selection[i], env, before[i], stores[i]);
      assert (tallies + [t])[..i] == tallies;
      tallies := tallies + [t];
      if t == Succeeded {
        processed := processed + 1;
      } else if t == Failed {
        failed := failed + 1;
      }
    }
    CountMatches(before, tallies, env, Succeeded);
    CountMatches(before, tallies, env, Failed);
  }

  /**
   * The state a document is left in: untouched when it was skipped or
   * failed the checks, otherwise what processing an emptied store gives.
   */
  predicate Settled(d: Document, s: DocState, pages: PageStore, env: Env)
    reads d
  {
    d.file == s.file
    && if s.file.None? || !PassesChecks(s, env) then d.pages == pages && StateOf(d) == s
    else
      var p := Reprocess(s, env);
      d.pages == p.pages && d.fileType == p.fileType && d.ocrEngine == p.ocrEngine
  }

  /** One pass of the loop. */
  method ProcessOne(document: Document, env: Env, ghost s: DocState, ghost pages: PageStore) returns (t: Tally)
    requires StateOf(document) == s && document.pages == pages
    modifies document
    ensures t == TallyOf(s, env)
    ensures Settled(document, s, pages, env)
  {
    if document.file.None? {
      return Skipped;
    }
    var path := document.file.value.path;
    if !env.fileExists(path) {
      return Failed;
    }
    if document.fileType == "pdf" {
      match env.openPdf(path) {
        case Raised(_) => return Failed;
        case Ok(pdf) =>
          if |pdf| == 0 {
            return Failed;
          }
      }
    }
    document.DeletePages();
    var raised := ProcessDocumentFile(document, env);
    if raised.Some? {
      return Failed;
    }
    t := if |document.pages| > 0 then Succeeded else Failed;
  }
}
