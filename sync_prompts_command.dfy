/**
 * The `sync_prompts` management command: it copies the built-in prompt
 * registry into the prompt table, creating missing prompts, overwriting
 * existing ones on request, and counting what happened to each.
 */
module SyncPromptsCommand {
  import opened Wrappers
  import opened Text
  import opened Lists
  import opened Templates
  import opened Models
  import opened Prompts

  /** The category each built-in prompt is filed under. */
  const CategoryMap: map<string, string> := map[
    "document_summary" := "document",
    "document_analysis" := "document",
    "document_extraction" := "document",
    "document_qa" := "document",
    "document_comparison" := "document",
    "document_simplification" := "document",
    "page_summary" := "page",
    "page_extraction" := "page",
    "json_analysis" := "structured",
    "table_extraction" := "structured",
    "custom" := "custom",
    "research" := "custom",
    "legal_analysis" := "custom",
    "technical_analysis" := "custom"]

  /** The category of a registry name; a name the map does not know is `'custom'`. */
  function CategoryOf(name: string): (r: string)
    ensures r in {"document", "page", "structured", "custom"}
    ensures name !in CategoryMap ==> r == "custom"
  {
    if name in CategoryMap then CategoryMap[name] else "custom"
  }

  /** Every built-in name has an entry of its own, so the `'custom'` fallback is never taken for them. */
  lemma BuiltinCategories()
    ensures forall i :: 0 <= i < |BuiltinNames| ==> BuiltinNames[i] in CategoryMap
  {
  }

  /** A prompt is considered unless a non-empty `--category` names another category. */
  predicate Considered(name: string, filter: Option<string>)
  {
    !(filter.Some? && filter.value != "" && CategoryOf(name) != filter.value)
  }

  /** A row with the registry entry's title, description, template, category and variables copied in. */
  function WithTemplate(row: PromptRow, t: PromptTemplate, category: string): (r: PromptRow)
    ensures r.name == row.name && r.isActive == row.isActive && r.isDefault == row.isDefault
    ensures Copied(r, t, category)
  {
    row.(title := FormatPromptName(t.name), description := t.description, template := t.template,
      category := category, variables := ExtractVariables(t.template))
  }

  /** The row holds what the command copies from the registry entry. */
  predicate Copied(row: PromptRow, t: PromptTemplate, category: string)
  {
    row.title == FormatPromptName(t.name) && row.description == t.description
    && row.template == t.template && row.category == category
    && row.variables == ExtractVariables(t.template)
  }

  /** The row `get_or_create` inserts: active, not a default. */
  function NewRow(name: string, t: PromptTemplate, category: string): (r: PromptRow)
    ensures r.name == name && r.isActive && !r.isDefault && Copied(r, t, category)
  {
    WithTemplate(PromptRow(name, "", "", "", "", true, false, []), t, category)
  }

  /** What happened to one registry entry. */
  datatype Action = Ignored | Created | Updated | Kept | Errored

  predicate HasName(rows: map<nat, PromptRow>, name: string)
  {
    exists k :: k in rows && rows[k].name == name
  }

  /** `name` is unique in the prompt table. */
  predicate UniqueNames(rows: map<nat, PromptRow>)
  {
    forall j, k :: j in rows && k in rows && rows[j].name == rows[k].name ==> j == k
  }

  /**
   * The fate of one entry against the table it meets. `fails` says which
   * names make the database raise; such a call changes nothing.
   */
  function ActionOf(rows: map<nat, PromptRow>, name: string, filter: Option<string>, overwrite: bool, fails: string -> bool): Action
  {
    if !Considered(name, filter) then Ignored
    else if fails(name) then Errored
    else if !HasName(rows, name) then Created
    else if overwrite then Updated
    else Kept
  }

  /** The table's rows together with the next key the database hands out. */
  datatype Db = Db(rows: map<nat, PromptRow>, nextPk: nat)

  predicate KeysBelow(db: Db)
  {
    forall k :: k in db.rows ==> k < db.nextPk
  }

  /** The key of the row named `name`. */
  function KeyOf(rows: map<nat, PromptRow>, name: string): (k: nat)
    requires HasName(rows, name) && UniqueNames(rows)
    ensures k in rows && rows[k].name == name
  {
    var k :| k in rows && rows[k].name == name; k
  }

  /** The table after one entry. */
  function Step(db: Db, name: string, t: PromptTemplate, filter: Option<string>, overwrite: bool, fails: string -> bool): Db
    requires UniqueNames(db.rows)
  {
    match ActionOf(db.rows, name, filter, overwrite, fails)
    case Created => Db(SavedPrompts(db.rows, db.nextPk, NewRow(name, t, CategoryOf(name))), db.nextPk + 1)
    case Updated =>
      var k := KeyOf(db.rows, name);
      Db(SavedPrompts(db.rows, k, WithTemplate(db.rows[k], t, CategoryOf(name))), db.nextPk)
    case _ => db
  }

  /** Saving a row under `pk` renames no other row. */
  lemma SavedKeepsNames(rows: map<nat, PromptRow>, pk: nat, p: PromptRow)
    ensures forall k :: k in rows && k != pk ==> SavedPrompts(rows, pk, p)[k].name == rows[k].name
  {
  }

  /** Inserting a row whose name is new keeps names unique, and only that name's presence changes. */
  lemma CreatedKeeps(db: Db, name: string, p: PromptRow)
    requires KeysBelow(db) && UniqueNames(db.rows) && !HasName(db.rows, name) && p.name == name
    ensures var db' := Db(SavedPrompts(db.rows, db.nextPk, p), db.nextPk + 1);
      KeysBelow(db') && UniqueNames(db'.rows) && HasName(db'.rows, name)
      && (forall m :: m != name ==> (HasName(db'.rows, m) <==> HasName(db.rows, m)))
  {
    var rows' := SavedPrompts(db.rows, db.nextPk, p);
    SavedKeepsNames(db.rows, db.nextPk, p);
    assert db.nextPk !in db.rows;
    assert rows'[db.nextPk].name == name;
    forall m | m != name && HasName(rows', m)
      ensures HasName(db.rows, m)
    {
      var k :| k in rows' && rows'[k].name == m;
      assert k in db.rows && db.rows[k].name == m;
    }
  }

  /** Rewriting the row of `name` under the same name keeps names unique and every name's presence. */
  lemma UpdatedKeeps(db: Db, k: nat, p: PromptRow)
    requires KeysBelow(db) && UniqueNames(db.rows) && k in db.rows && p.name == db.rows[k].name
    ensures var rows' := SavedPrompts(db.rows, k, p);
      KeysBelow(Db(rows', db.nextPk)) && UniqueNames(rows')
      && forall m :: HasName(rows', m) <==> HasName(db.rows, m)
  {
    var rows' := SavedPrompts(db.rows, k, p);
    SavedKeepsNames(db.rows, k, p);
    assert rows'.Keys == db.rows.Keys;
    assert forall j :: j in rows' ==> rows'[j].name == db.rows[j].name;
  }

  /** One step keeps the keys below `nextPk`, keeps names unique, and touches no other name's presence. */
  lemma StepKeeps(db: Db, name: string, t: PromptTemplate, filter: Option<string>, overwrite: bool, fails: string -> bool)
    requires KeysBelow(db) && UniqueNames(db.rows)
    ensures var db' := Step(db, name, t, filter, overwrite, fails);
      KeysBelow(db') && UniqueNames(db'.rows)
      && (forall m :: m != name ==> (HasName(db'.rows, m) <==> HasName(db.rows, m)))
      && (ActionOf(db.rows, name, filter, overwrite, fails) in {Created, Updated} ==> HasName(db'.rows, name))
  {
    match ActionOf(db.rows, name, filter, overwrite, fails)
    case Created =>
      CreatedKeeps(db, name, NewRow(name, t, CategoryOf(name)));
    case Updated =>
      var k := KeyOf(db.rows, name);
      UpdatedKeeps(db, k, WithTemplate(db.rows[k], t, CategoryOf(name)));
    case _ =>
  }

  /**
   * What one step writes: nothing unless the item is created or updated;
   * then the row of its name holds the registry's content, is a new active
   * non-default row when created, and keeps its key and flags when updated.
   */
  lemma StepWrites(db: Db, name: string, t: PromptTemplate, filter: Option<string>, overwrite: bool, fails: string -> bool)
    requires KeysBelow(db) && UniqueNames(db.rows)
    ensures var a := ActionOf(db.rows, name, filter, overwrite, fails);
      var db' := Step(db, name, t, filter, overwrite, fails);
      (a in {Ignored, Kept, Errored} ==> db' == db)
      && (a == Created ==>
            db.nextPk !in db.rows && db.nextPk in db'.rows && db'.rows[db.nextPk].name == name
            && db'.rows[db.nextPk].isActive && !db'.rows[db.nextPk].isDefault)
      && (a == Updated ==>
            forall k :: k in db.rows && db.rows[k].name == name ==>
              db'.rows[k].isActive == db.rows[k].isActive && db'.rows[k].isDefault == db.rows[k].isDefault)
      && (a in {Created, Updated} ==> forall k :: k in db'.rows && db'.rows[k].name == name ==> Copied(db'.rows[k], t, CategoryOf(name)))
  {
    var a := ActionOf(db.rows, name, filter, overwrite, fails);
    var db' := Step(db, name, t, filter, overwrite, fails);
    StepKeeps(db, name, t, filter, overwrite, fails);
    if a == Created {
      assert db.nextPk !in db.rows;
      assert db'.rows[db.nextPk].name == name;
    } else if a == Updated {
      var k := KeyOf(db.rows, name);
      SavedKeepsNames(db.rows, k, WithTemplate(db.rows[k], t, CategoryOf(name)));
      assert db'.rows[k].name == name;
    }
  }

  /** One item of the registry: its key and its template. */
  datatype Entry = Entry(name: string, template: PromptTemplate)

  /** The registry's keys are distinct. */
  predicate DistinctNames(items: seq<Entry>)
  {
    forall i, j :: 0 <= i < j < |items| ==> items[i].name != items[j].name
  }

  /** The table after the items, in registry order. */
  function SyncAll(db: Db, items: seq<Entry>, filter: Option<string>, overwrite: bool, fails: string -> bool): (r: Db)
    requires KeysBelow(db) && UniqueNames(db.rows)
    ensures KeysBelow(r) && UniqueNames(r.rows)
  {
    if items == [] then db
    else
      var prev := SyncAll(db, items[..|items| - 1], filter, overwrite, fails);
      var last := items[|items| - 1];
      StepKeeps(prev, last.name, last.template, filter, overwrite, fails);
      Step(prev, last.name, last.template, filter, overwrite, fails)
  }

  /** The action of each item against the table the loop had reached when it came to it. */
  function Actions(db: Db, items: seq<Entry>, filter: Option<string>, overwrite: bool, fails: string -> bool): (r: seq<Action>)
    requires KeysBelow(db) && UniqueNames(db.rows)
    ensures |r| == |items|
  {
    if items == [] then []
    else
      var init := items[..|items| - 1];
      Actions(db, init, filter, overwrite, fails)
        + [ActionOf(SyncAll(db, init, filter, overwrite, fails).rows, items[|items| - 1].name, filter, overwrite, fails)]
  }

  /** Items with other names leave the presence of a name as it was. */
  lemma {:induction false} SyncAllKeepsOtherNames(db: Db, items: seq<Entry>, filter: Option<string>, overwrite: bool, fails: string -> bool, m: string)
    requires KeysBelow(db) && UniqueNames(db.rows)
    requires forall i :: 0 <= i < |items| ==> items[i].name != m
    ensures HasName(SyncAll(db, items, filter, overwrite, fails).rows, m) <==> HasName(db.rows, m)
  {
    if items != [] {
      var init := items[..|items| - 1];
      var last := items[|items| - 1];
      SyncAllKeepsOtherNames(db, init, filter, overwrite, fails, m);
      StepKeeps(SyncAll(db, init, filter, overwrite, fails), last.name, last.template, filter, overwrite, fails);
    }
  }

  /** Items with distinct names do not see each other: each meets the table as the command found it. */
  lemma {:induction false} ActionsAgainstOriginal(db: Db, items: seq<Entry>, filter: Option<string>, overwrite: bool, fails: string -> bool)
    requires KeysBelow(db) && UniqueNames(db.rows)
    requires DistinctNames(items)
    ensures forall i :: 0 <= i < |items| ==>
      Actions(db, items, filter, overwrite, fails)[i] == ActionOf(db.rows, items[i].name, filter, overwrite, fails)
  {
    if items != [] {
      var init := items[..|items| - 1];
      var last := items[|items| - 1];
      assert DistinctNames(init);
      ActionsAgainstOriginal(db, init, filter, overwrite, fails);
      SyncAllKeepsOtherNames(db, init, filter, overwrite, fails, last.name);
    }
  }

  /** The three counters the command prints. */
  datatype SyncSummary = SyncSummary(synced: nat, skipped: nat, errors: nat)

  /** The counters after one more action: created and updated count as synced, kept as skipped. */
  function Counted(s: SyncSummary, a: Action): (r: SyncSummary)
    ensures r.synced + r.skipped + r.errors == s.synced + s.skipped + s.errors + (if a == Ignored then 0 else 1)
  {
    match a
    case Created => s.(synced := s.synced + 1)
    case Updated => s.(synced := s.synced + 1)
    case Kept => s.(skipped := s.skipped + 1)
    case Errored => s.(errors := s.errors + 1)
    case Ignored => s
  }

  function Tally(acts: seq<Action>): (s: SyncSummary)
  {
    if acts == [] then SyncSummary(0, 0, 0) else Counted(Tally(acts[..|acts| - 1]), acts[|acts| - 1])
  }

  function IgnoredCount(acts: seq<Action>): (n: nat)
    ensures n <= |acts|
  {
    if acts == [] then 0 else IgnoredCount(acts[..|acts| - 1]) + (if acts[|acts| - 1] == Ignored then 1 else 0)
  }

  /** Every item the filter lets through lands in exactly one counter. */
  lemma {:induction false} TallyPartition(acts: seq<Action>)
    ensures var s := Tally(acts); s.synced + s.skipped + s.errors + IgnoredCount(acts) == |acts|
  {
    if acts != [] {
      TallyPartition(acts[..|acts| - 1]);
    }
  }

  /** With `--overwrite` nothing is skipped. */
  lemma {:induction false} OverwriteSkipsNothing(db: Db, items: seq<Entry>, filter: Option<string>, fails: string -> bool)
    requires KeysBelow(db) && UniqueNames(db.rows)
    ensures Tally(Actions(db, items, filter, true, fails)).skipped == 0
  {
    if items != [] {
      var init := items[..|items| - 1];
      OverwriteSkipsNothing(db, init, filter, fails);
      assert Actions(db, items, filter, true, fails)[..|init|] == Actions(db, init, filter, true, fails);
    }
  }

  /** After a sync, every considered item whose database calls succeed has a row of its name. */
  lemma {:induction false} SyncedPresent(db: Db, items: seq<Entry>, filter: Option<string>, overwrite: bool, fails: string -> bool)
    requires KeysBelow(db) && UniqueNames(db.rows)
    ensures forall i :: 0 <= i < |items| && Considered(items[i].name, filter) && !fails(items[i].name) ==>
      HasName(SyncAll(db, items, filter, overwrite, fails).rows, items[i].name)
  {
    if items != [] {
      var init := items[..|items| - 1];
      var last := items[|items| - 1];
      SyncedPresent(db, init, filter, overwrite, fails);
      var prev := SyncAll(db, init, filter, overwrite, fails);
      StepKeeps(prev, last.name, last.template, filter, overwrite, fails);
      forall i | 0 <= i < |items| && Considered(items[i].name, filter) && !fails(items[i].name)
        ensures HasName(SyncAll(db, items, filter, overwrite, fails).rows, items[i].name)
      {
        if items[i].name != last.name {
          assert i < |init| && init[i] == items[i];
        }
      }
    }
  }

  /** Without `--overwrite`, items that are all present or failing leave the table alone. */
  lemma {:induction false} NoopFrom(db: Db, items: seq<Entry>, filter: Option<string>, fails: string -> bool)
    requires KeysBelow(db) && UniqueNames(db.rows)
    requires forall i :: 0 <= i < |items| && Considered(items[i].name, filter) && !fails(items[i].name) ==> HasName(db.rows, items[i].name)
    ensures SyncAll(db, items, filter, false, fails) == db
    ensures Tally(Actions(db, items, filter, false, fails)).synced == 0
  {
    if items != [] {
      var init := items[..|items| - 1];
      NoopFrom(db, init, filter, fails);
    }
  }

  /** Running the command a second time without `--overwrite` changes nothing and creates nothing. */
  lemma SecondSyncIsNoop(db: Db, items: seq<Entry>, filter: Option<string>, overwrite: bool, fails: string -> bool)
    requires KeysBelow(db) && UniqueNames(db.rows)
    ensures var once := SyncAll(db, items, filter, overwrite, fails);
      SyncAll(once, items, filter, false, fails) == once
      && Tally(Actions(once, items, filter, false, fails)).synced == 0
  {
    var once := SyncAll(db, items, filter, overwrite, fails);
    SyncedPresent(db, items, filter, overwrite, fails);
    NoopFrom(once, items, filter, fails);
  }

  /** The fold over one more item. */
  lemma SyncAllStep(db: Db, items: seq<Entry>, i: nat, filter: Option<string>, overwrite: bool, fails: string -> bool)
    requires KeysBelow(db) && UniqueNames(db.rows)
    requires i < |items|
    ensures var prev := SyncAll(db, items[..i], filter, overwrite, fails);
      SyncAll(db, items[..i + 1], filter, overwrite, fails) == Step(prev, items[i].name, items[i].template, filter, overwrite, fails)
      && Actions(db, items[..i + 1], filter, overwrite, fails)
        == Actions(db, items[..i], filter, overwrite, fails) + [ActionOf(prev.rows, items[i].name, filter, overwrite, fails)]
  {
    assert items[..i + 1][..i] == items[..i];
  }

  /** Adding one more action to the tally. */
  lemma TallyAppend(acts: seq<Action>, a: Action)
    ensures Tally(acts + [a]) == Counted(Tally(acts), a)
  {
    assert (acts + [a])[..|acts|] == acts;
  }

  /**
   * `Command.handle`. `items` are the registry's items in its order; each
   * considered item is created when its name is new, overwritten with
   * `--overwrite`, and otherwise skipped.
   */
  method Handle(table: PromptTable, items: seq<Entry>, filter: Option<string>, overwrite: bool, fails: string -> bool) returns (s: SyncSummary)
    requires table.Valid() && UniqueNames(table.rows)
    modifies table
    ensures table.Valid() && UniqueNames(table.rows)
    ensures Db(table.rows, table.nextPk) == SyncAll(old(Db(table.rows, table.nextPk)), items, filter, overwrite, fails)
    ensures s == Tally(Actions(old(Db(table.rows, table.nextPk)), items, filter, overwrite, fails))
  {
    ghost var db0 := Db(table.rows, table.nextPk);
    s := SyncSummary(0, 0, 0);
    for i := 0 to |items|
      invariant table.Valid() && UniqueNames(table.rows)
      invariant Db(table.rows, table.nextPk) == SyncAll(db0, items[..i], filter, overwrite, fails)
      invariant s == Tally(Actions(db0, items[..i], filter, overwrite, fails))
    {
      SyncAllStep(db0, items, i, filter, overwrite, fails);
      var a := SyncOne(table, items[i].name, items[i].template, filter, overwrite, fails);
      TallyAppend(Actions(db0, items[..i], filter, overwrite, fails), a);
      s := Counted(s, a);
    }
    assert items[..|items|] == items;
  }

  /** One item of the loop: the filter, then `get_or_create`, then the overwrite. */
  method SyncOne(table: PromptTable, name: string, t: PromptTemplate, filter: Option<string>, overwrite: bool, fails: string -> bool) returns (a: Action)
    requires table.Valid() && UniqueNames(table.rows)
    modifies table
    ensures a == ActionOf(old(table.rows), name, filter, overwrite, fails)
    ensures Db(table.rows, table.nextPk) == Step(old(Db(table.rows, table.nextPk)), name, t, filter, overwrite, fails)
    ensures table.Valid() && UniqueNames(table.rows)
  {
    ghost var db := Db(table.rows, table.nextPk);
    StepKeeps(db, name, t, filter, overwrite, fails);
    var category := CategoryOf(name);
    if filter.Some? && filter.value != "" && category != filter.value {
      return Ignored;
    }
    if fails(name) {
      return Errored;
    }
    var pk := table.FindByName(name);
    match pk {
      case None =>
        assert !HasName(db.rows, name);
        var k := table.Insert(NewRow(name, t, category));
        a := Created;
      case Some(k) =>
        assert k in db.rows && db.rows[k].name == name;
        assert HasName(db.rows, name);
        assert k == KeyOf(db.rows, name);
        if overwrite {
          table.Save(k, WithTemplate(table.rows[k], t, category));
          a := Updated;
        } else {
          a := Kept;
        }
    }
  }
}
