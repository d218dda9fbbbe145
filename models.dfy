/**
 * The stored entities: documents with their pages, prompts, schemas and
 * the singleton settings row.
 */
module Models {
  import opened Wrappers
  import opened Text
  import opened Json
  import opened Lists

  /** An uploaded file: its stored name and its path on disk. */
  datatype FileRef = FileRef(name: string, path: string)

  /** One `Page` row: its text and its `json_data` (`JNull` when unset). */
  datatype PageRow = PageRow(text: string, json: Json)

  /** The pages of one document, keyed by page number: `(document, page_number)` is unique. */
  type PageStore = map<int, PageRow>

  /** Sum of the text lengths of the pages (`page.text` is never null: the column is not nullable). */
  ghost function SumTextLengths(pages: PageStore): nat
    decreases |pages|
  {
    if |pages| == 0 then 0
    else
      StoreHasPage(pages);
      var k :| k in pages;
      |pages[k].text| + SumTextLengths(pages - {k})
  }

  lemma StoreHasPage(pages: PageStore)
    requires |pages| > 0
    ensures exists k :: k in pages
  {
    var numbers := pages.Keys;
    if forall k :: k !in numbers {
      assert false;
    }
  }

  /** The sum does not depend on which page is taken first. */
  lemma {:induction false} SumTextLengthsRemove(pages: PageStore, k: int)
    requires k in pages
    ensures SumTextLengths(pages) == |pages[k].text| + SumTextLengths(pages - {k})
    decreases |pages|
  {
    var j :| j in pages && SumTextLengths(pages) == |pages[j].text| + SumTextLengths(pages - {j});
    if j != k {
      var withoutJ, withoutK := pages - {j}, pages - {k};
      SumTextLengthsRemove(withoutJ, k);
      SumTextLengthsRemove(withoutK, j);
      assert withoutJ[k] == pages[k] && withoutK[j] == pages[j];
      assert withoutJ - {k} == withoutK - {j};
    }
  }

  /**
   * A document. `pk` is 0 until the row is first saved; `pages` is the
   * `document.pages` relation.
   */
  class Document {
    var pk: nat
    var title: string
    var file: Option<FileRef>
    var fileType: string
    var ocrEngine: string
    var pages: PageStore

    /** A new, unsaved document: blank file type, engine `'mineru'`, no pages. */
    constructor (title: string, file: Option<FileRef>)
      ensures this.title == title && this.file == file
      ensures pk == 0 && fileType == "" && ocrEngine == "mineru" && pages == map[]
    {
      this.pk := 0;
      this.title := title;
      this.file := file;
      this.fileType := "";
      this.ocrEngine := "mineru";
      this.pages := map[];
    }

    /** `total_pages`: the number of page rows of this document; none exactly when it has no pages. */
    function TotalPages(): (n: nat)
      reads this
      ensures n == 0 <==> pages == map[]
      ensures forall k :: k in pages ==> n >= 1
    {
      |pages|
    }

    /** `total_text_length`: the summed length of all page texts, so at least the length of each one. */
    ghost function TotalTextLength(): (t: nat)
      reads this
      ensures pages == map[] ==> t == 0
      ensures forall k :: k in pages ==> |pages[k].text| <= t
    {
      PageTextsWithinSum(pages);
      SumTextLengths(pages)
    }

    /**
     * `Page.objects.create(document=self, page_number=n, ...)`: a second row
     * with the same number violates the uniqueness rule and is refused.
     */
    method CreatePage(n: int, row: PageRow) returns (ok: bool)
      modifies this
      ensures ok <==> n !in old(pages)
      ensures pages == if ok then old(pages)[n := row] else old(pages)
      ensures unchanged(this`pk) && unchanged(this`title) && unchanged(this`file) && unchanged(this`fileType) && unchanged(this`ocrEngine)
    {
      ok := n !in pages;
      if ok {
        pages := pages[n := row];
      }
    }

    /** `Page.objects.get_or_create(document=self, page_number=n, defaults=...)`. */
    method GetOrCreatePage(n: int, defaults: PageRow) returns (created: bool)
      modifies this
      ensures created <==> n !in old(pages)
      ensures pages == if created then old(pages)[n := defaults] else old(pages)
      ensures unchanged(this`pk) && unchanged(this`title) && unchanged(this`file) && unchanged(this`fileType) && unchanged(this`ocrEngine)
    {
      created := n !in pages;
      if created {
        pages := pages[n := defaults];
      }
    }

    /** `page.save()` on the existing row numbered `n`. */
    method SavePage(n: int, row: PageRow)
      requires n in pages
      modifies this
      ensures pages == old(pages)[n := row]
      ensures unchanged(this`pk) && unchanged(this`title) && unchanged(this`file) && unchanged(this`fileType) && unchanged(this`ocrEngine)
    {
      pages := pages[n := row];
    }

    /** `document.pages.all().delete()`. */
    method DeletePages()
      modifies this
      ensures pages == map[]
      ensures unchanged(this`pk) && unchanged(this`title) && unchanged(this`file) && unchanged(this`fileType) && unchanged(this`ocrEngine)
    {
      pages := map[];
    }
  }

  /** The fields of a document that processing reads. */
  datatype DocState = DocState(pk: nat, file: Option<FileRef>, fileType: string, ocrEngine: string)

  function StateOf(d: Document): DocState
    reads d
  {
    DocState(d.pk, d.file, d.fileType, d.ocrEngine)
  }

  function States(docs: seq<Document>): (r: seq<DocState>)
    reads set d | d in docs
    ensures |r| == |docs|
    ensures forall i :: 0 <= i < |docs| ==> r[i] == StateOf(docs[i])
  {
    seq(|docs|, i reads set d | d in docs requires 0 <= i < |docs| => StateOf(docs[i]))
  }

  /** How many of the documents have a file. */
  function CountWithFile(states: seq<DocState>): (n: nat)
    ensures n <= |states|
  {
    if states == [] then 0
    else CountWithFile(states[..|states| - 1]) + (if states[|states| - 1].file.Some? then 1 else 0)
  }

  /** A document with two pages has two pages and the characters of both (the test's "Hello" and "World" make 10). */
  lemma TwoPageTotals(doc: Document, first: string, second: string, data1: Json, data2: Json)
    requires doc.pages == map[1 := PageRow(first, data1), 2 := PageRow(second, data2)]
    ensures doc.TotalPages() == 2
    ensures doc.TotalTextLength() == |first| + |second|
  {
    var pages := doc.pages;
    SumTextLengthsRemove(pages, 1);
    var rest := pages - {1};
    assert rest == map[2 := PageRow(second, data2)];
    SumTextLengthsRemove(rest, 2);
    assert rest - {2} == map[];
  }

  /** Every page's text is counted in the sum. */
  lemma PageTextsWithinSum(pages: PageStore)
    ensures forall k :: k in pages ==> |pages[k].text| <= SumTextLengths(pages)
  {
    forall k | k in pages
      ensures |pages[k].text| <= SumTextLengths(pages)
    {
      SumTextLengthsRemove(pages, k);
    }
  }

  /** Writing a page row adds its length and removes the length of the row it replaces. */
  lemma TextLengthAfterWrite(pages: PageStore, n: int, row: PageRow)
    ensures SumTextLengths(pages[n := row]) + (if n in pages then |pages[n].text| else 0)
         == SumTextLengths(pages) + |row.text|
  {
    var after := pages[n := row];
    SumTextLengthsRemove(after, n);
    assert after - {n} == pages - {n};
    if n in pages {
      SumTextLengthsRemove(pages, n);
    } else {
      assert pages - {n} == pages;
    }
  }

  // ---------------------------------------------------------------- prompts

  /** One `Prompt` row. */
  datatype PromptRow = PromptRow(
    name: string,
    title: string,
    description: string,
    category: string,
    template: string,
    isActive: bool,
    isDefault: bool,
    variables: seq<string>)

  /** No category has two default rows. */
  predicate PromptsOneDefault(rows: map<nat, PromptRow>)
  {
    forall j, k :: (j in rows && k in rows && rows[j].isDefault && rows[k].isDefault
      && rows[j].category == rows[k].category) ==> j == k
  }

  /**
   * The table after `Prompt.save()` of `p` under primary key `pk`: when `p`
   * is a default, every other default of its category is cleared first.
   */
  function SavedPrompts(rows: map<nat, PromptRow>, pk: nat, p: PromptRow): (r: map<nat, PromptRow>)
    ensures r.Keys == rows.Keys + {pk} && r[pk] == p
    ensures p.isDefault ==> forall k :: k in r && k != pk && r[k].category == p.category ==> !r[k].isDefault
    ensures forall k :: k in rows && k != pk ==>
      r[k] == if p.isDefault && rows[k].category == p.category then rows[k].(isDefault := false) else rows[k]
  {
    var cleared := map k | k in rows.Keys :: if p.isDefault && rows[k].category == p.category && k != pk
      then rows[k].(isDefault := false) else rows[k];
    cleared[pk := p]
  }

  /** Saving keeps "at most one default per category". */
  lemma SavePromptKeepsOneDefault(rows: map<nat, PromptRow>, pk: nat, p: PromptRow)
    requires PromptsOneDefault(rows)
    ensures PromptsOneDefault(SavedPrompts(rows, pk, p))
  {
  }

  /** The prompt table, keyed by primary key; `nextPk` is the next key the database hands out. */
  class PromptTable {
    var rows: map<nat, PromptRow>
    var nextPk: nat

    predicate Valid()
      reads this
    {
      forall k :: k in rows ==> k < nextPk
    }

    constructor ()
      ensures Valid() && rows == map[]
    {
      rows := map[];
      nextPk := 1;
    }

    /** The primary key of the row with that name, if any (`name` is unique). */
    method FindByName(name: string) returns (pk: Option<nat>)
      ensures pk.Some? ==> pk.value in rows && rows[pk.value].name == name
      ensures pk.None? ==> forall k :: k in rows ==> rows[k].name != name
    {
      if exists k :: k in rows && rows[k].name == name {
        var k :| k in rows && rows[k].name == name;
        pk := Some(k);
      } else {
        pk := None;
      }
    }

    /** `Prompt.save()` on the existing row `pk`. */
    method Save(pk: nat, p: PromptRow)
      requires Valid() && pk in rows
      modifies this
      ensures Valid() && nextPk == old(nextPk)
      ensures rows == SavedPrompts(old(rows), pk, p)
    {
      rows := SavedPrompts(rows, pk, p);
    }

    /** `Prompt.save()` of a new row, which receives the next primary key. */
    method Insert(p: PromptRow) returns (pk: nat)
      requires Valid()
      modifies this
      ensures Valid() && pk == old(nextPk) && pk !in old(rows) && nextPk == old(nextPk) + 1
      ensures rows == SavedPrompts(old(rows), pk, p)
    {
      pk := nextPk;
      rows := SavedPrompts(rows, pk, p);
      nextPk := nextPk + 1;
    }
  }

  // ---------------------------------------------------------------- schemas

  /** One `Schema` row; `properties` is the JSON list of property names. */
  datatype SchemaRow = SchemaRow(
    name: string,
    title: string,
    category: string,
    schema: Json,
    isActive: bool,
    isDefault: bool,
    properties: Json)

  predicate SchemasOneDefault(rows: map<nat, SchemaRow>)
  {
    forall j, k :: (j in rows && k in rows && rows[j].isDefault && rows[k].isDefault
      && rows[j].category == rows[k].category) ==> j == k
  }

  /** The schema table with every other default of `category` cleared (the first step of `Schema.save`). */
  function ClearSchemaDefaults(rows: map<nat, SchemaRow>, category: string, keep: nat): (r: map<nat, SchemaRow>)
    ensures r.Keys == rows.Keys
    ensures forall k :: k in r && k != keep && r[k].category == category ==> !r[k].isDefault
    ensures forall k :: k in r ==> r[k] == rows[k] || (k != keep && r[k] == rows[k].(isDefault := false))
  {
    map k | k in rows.Keys :: if rows[k].category == category && k != keep
      then rows[k].(isDefault := false) else rows[k]
  }

  /** Both halves of `Schema.save` keep "at most one default per category": the clearing, and the write after it. */
  lemma SaveSchemaKeepsOneDefault(rows: map<nat, SchemaRow>, pk: nat, s: SchemaRow, row: SchemaRow)
    requires SchemasOneDefault(rows)
    requires row.isDefault == s.isDefault && row.category == s.category
    ensures var cleared := if s.isDefault then ClearSchemaDefaults(rows, s.category, pk) else rows;
      SchemasOneDefault(cleared) && SchemasOneDefault(cleared[pk := row])
  {
  }

  /** The base list of `extract_properties`: the keys of `schema['properties']`, if present. */
  function PropertyKeys(schema: Json): Outcome<seq<Json>>
    requires schema.JObject?
  {
    match Get(schema, "properties")
    case None => Ok([])
    case Some(JObject(members)) => Ok(KeyValues(Keys(members)))
    case Some(other) => Raised("'" + TypeName(other) + "' object has no attribute 'keys'")
  }

  /**
   * What `Schema.extract_properties()` returns: the property names in
   * order, then each `required` entry that is not already listed; `[]` for
   * a schema that is not an object. A `properties` value without keys, or a
   * `required` value that cannot be iterated, raises.
   */
  function ExtractedProperties(schema: Json): (r: Outcome<seq<Json>>)
    ensures !schema.JObject? ==> r == Ok([])
    ensures schema.JObject? && PropertyKeys(schema).Raised? ==> r.Raised?
  {
    if !schema.JObject? then Ok([])
    else match PropertyKeys(schema)
      case Raised(e) => Raised(e)
      case Ok(keys) =>
        match Get(schema, "required")
        case None => Ok(keys)
        case Some(req) =>
          match Iterate(req)
          case Raised(e) => Raised(e)
          case Ok(items) => Ok(AppendMissing(keys, items))
  }

  /** `Schema.extract_properties()`, appending in a loop. */
  method ExtractProperties(schema: Json) returns (r: Outcome<seq<Json>>)
    ensures r == ExtractedProperties(schema)
  {
    if !schema.JObject? {
      return Ok([]);
    }
    var names: seq<Json>;
    match PropertyKeys(schema) {
      case Raised(e) => return Raised(e);
      case Ok(keys) => names := keys;
    }
    var required := Get(schema, "required");
    if required.None? {
      return Ok(names);
    }
    match Iterate(required.value) {
      case Raised(e) => return Raised(e);
      case Ok(items) =>
        var i := 0;
        while i < |items|
          invariant 0 <= i <= |items|
          invariant names == AppendMissing(PropertyKeys(schema).value, items[..i])
        {
          assert items[..i + 1][..i] == items[..i];
          if items[i] !in names {
            names := names + [items[i]];
          }
          i := i + 1;
        }
        assert items[..|items|] == items;
        return Ok(names);
    }
  }

  /** What the extracted list holds: the property names first, then only `required` entries, each once. */
  lemma ExtractedPropertiesSpec(keys: seq<Json>, required: seq<Json>)
    requires NoDuplicates(keys)
    ensures |keys| <= |AppendMissing(keys, required)|
    ensures AppendMissing(keys, required)[..|keys|] == keys
    ensures forall x :: x in AppendMissing(keys, required) <==> x in keys || x in required
    ensures NoDuplicates(AppendMissing(keys, required))
  {
    AppendMissingSpec(keys, required);
  }

  /** The schema table, keyed by primary key. */
  class SchemaTable {
    var rows: map<nat, SchemaRow>
    var nextPk: nat

    predicate Valid()
      reads this
    {
      forall k :: k in rows ==> k < nextPk
    }

    constructor ()
      ensures Valid() && rows == map[]
    {
      rows := map[];
      nextPk := 1;
    }

    /**
     * `Schema.save()` of `s` under key `pk` (an existing key, or `nextPk` for
     * a new row). A default first clears the other defaults of its category;
     * a truthy schema with empty `properties` gets them extracted, and an
     * exception there stops the save after the clearing.
     */
    method Save(pk: nat, s: SchemaRow) returns (saved: Outcome<SchemaRow>)
      requires Valid() && (pk in rows || pk == nextPk)
      modifies this
      ensures Valid()
      ensures saved.Ok? ==> saved.value == s.(properties := saved.value.properties)
      ensures !(Truthy(s.schema) && !Truthy(s.properties)) ==> saved == Ok(s)
      ensures Truthy(s.schema) && !Truthy(s.properties) ==>
        (saved.Ok? <==> ExtractedProperties(s.schema).Ok?)
        && (saved.Ok? ==> saved.value.properties == JList(ExtractedProperties(s.schema).value))
      ensures var cleared := if s.isDefault then ClearSchemaDefaults(old(rows), s.category, pk) else old(rows);
        rows == if saved.Ok? then cleared[pk := saved.value] else cleared
      ensures saved.Ok? && s.isDefault ==> forall k :: k in rows && k != pk && rows[k].category == s.category ==> !rows[k].isDefault
      ensures old(SchemasOneDefault(rows)) ==> SchemasOneDefault(rows)
    {
      ghost var before := rows;
      if s.isDefault {
        rows := ClearSchemaDefaults(rows, s.category, pk);
      }
      var row := s;
      if Truthy(s.schema) && !Truthy(s.properties) {
        var extracted := ExtractProperties(s.schema);
        if extracted.Raised? {
          if SchemasOneDefault(before) {
            SaveSchemaKeepsOneDefault(before, pk, s, s);
          }
          return Raised(extracted.error);
        }
        row := s.(properties := JList(extracted.value));
      }
      if SchemasOneDefault(before) {
        SaveSchemaKeepsOneDefault(before, pk, s, row);
      }
      rows := rows[pk := row];
      if pk == nextPk {
        nextPk := nextPk + 1;
      }
      saved := Ok(row);
    }
  }

  // ---------------------------------------------------------------- settings

  /** The `Settings` row. */
  datatype SettingsRow = SettingsRow(
    singletonId: int,
    ollamaModel: string,
    ollamaHost: string,
    defaultOcrEngine: string,
    deepseekOcrEnabled: bool,
    deepseekOcrApiUrl: string,
    deepseekOcrUseApi: bool,
    siteTitle: string,
    siteHeader: string)

  /** The field defaults of a fresh settings row. */
  const DefaultSettings := SettingsRow(1, "qwen3:4b", "http://localhost:11434", "mineru",
    true, "http://localhost:8001", true, "XtractMe", "XtractMe")

  /**
   * The settings table. `singleton_id` is unique and every save forces it
   * to 1, so the table holds at most one row.
   */
  class SettingsTable {
    var rows: map<nat, SettingsRow>
    var nextPk: nat

    predicate Valid()
      reads this
    {
      (forall k :: k in rows ==> k < nextPk && rows[k].singletonId == 1)
      && (forall j, k :: j in rows && k in rows ==> j == k)
    }

    constructor ()
      ensures Valid() && rows == map[]
    {
      rows := map[];
      nextPk := 1;
    }

    /**
     * `Settings.save()`: `singleton_id` becomes 1 and the row is written
     * under `pk`, or under the next key when `pk` is `None`. A key that
     * has no row is inserted under that key, as Django does when its
     * update finds nothing. A second row holding singleton id 1 would
     * violate uniqueness, so that write fails.
     */
    method Save(pk: Option<nat>, s: SettingsRow) returns (saved: Outcome<nat>)
      requires Valid()
      modifies this
      ensures Valid()
      ensures saved.Ok? ==> saved.value in rows && rows[saved.value] == s.(singletonId := 1)
      ensures saved.Ok? <==> (pk.Some? && pk.value in old(rows)) || old(rows) == map[]
      ensures saved.Ok? && pk.Some? ==> saved.value == pk.value
      ensures saved.Raised? ==> rows == old(rows)
      ensures saved.Ok? ==> rows.Keys == old(rows).Keys + {saved.value}
    {
      var row := s.(singletonId := 1);
      if pk.Some? && pk.value in rows {
        rows := rows[pk.value := row];
        return Ok(pk.value);
      }
      if rows != map[] {
        return Raised("UNIQUE constraint failed: core_settings.singleton_id");
      }
      var key := if pk.Some? then pk.value else nextPk;
      rows := map[key := row];
      nextPk := if key + 1 > nextPk then key + 1 else nextPk;
      saved := Ok(key);
    }

    /** `Settings.get_settings()`: the row with singleton id 1, created with the defaults if missing. */
    method GetSettings() returns (pk: nat, s: SettingsRow)
      requires Valid()
      modifies this
      ensures Valid()
      ensures pk in rows && rows[pk] == s && s.singletonId == 1
      ensures old(rows) != map[] ==> rows == old(rows)
      ensures old(rows) == map[] ==> rows == map[pk := DefaultSettings]
    {
      if rows != map[] {
        var k :| k in rows;
        return k, rows[k];
      }
      pk := nextPk;
      s := DefaultSettings;
      rows := map[pk := s];
      nextPk := nextPk + 1;
    }

    /** `Settings.delete()` does nothing. */
    method Delete(pk: nat)
      ensures rows == old(rows)
    {
    }
  }
}
