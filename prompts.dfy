/**
 * The prompt registry: built-in templates merged with the active prompts
 * of the database (the database wins), and the assembly of a document's
 * pages into the variables a template is formatted with.
 */
module Prompts {
  import opened Wrappers
  import opened Text
  import opened Json
  import opened Templates
  import opened Models
  import opened Lists

  /** A `PromptTemplate`: a name, a description and the template text. */
  datatype PromptTemplate = PromptTemplate(name: string, description: string, template: string)

  const MissingVariablePrefix := "Missing required variable in prompt template: "

  function MissingVariableMessage(name: string): (r: string)
    ensures StartsWith(r, MissingVariablePrefix)
  {
    var r := MissingVariablePrefix + "'" + name + "'";
    assert r[..|MissingVariablePrefix|] == MissingVariablePrefix;
    r
  }

  /** The value of a string of decimal digits. */
  function DecimalValue(digits: string): nat
    requires IsIndex(digits)
  {
    if digits == [] then 0
    else DecimalValue(digits[..|digits| - 1]) * 10 + (digits[|digits| - 1] as int - '0' as int)
  }

  /** The largest index `str.format` can parse: `PY_SSIZE_T_MAX` on a 64-bit build. */
  const MaxIndex: nat := 0x7fff_ffff_ffff_ffff

  /**
   * The error `str.format` raises for the index field `{digits}` when it is
   * given keywords only: `IndexError` for an index it can parse, and
   * `ValueError` for one with more digits than it can hold.
   */
  function IndexErrorMessage(digits: string): string
    requires IsIndex(digits)
  {
    if DecimalValue(digits) > MaxIndex then "Too many decimal digits in format string"
    else "Replacement index " + NatToString(DecimalValue(digits)) + " out of range for positional args tuple"
  }

  /**
   * `PromptTemplate.format(**vars)` (and `Prompt.format`, which has the same
   * body): `str.format`, with its `KeyError` turned into a `ValueError`
   * naming the missing variable. An index field raises an error that is not
   * a `KeyError`, and that error escapes as it is.
   */
  function FormatTemplate(template: string, vars: map<string, string>): (r: Outcome<string>)
    ensures r.Ok? <==> forall n :: n in Placeholders(template) ==> !IsIndex(n) && n in vars
    ensures r.Raised? ==>
      exists n :: n in Placeholders(template)
                  && ((!IsIndex(n) && n !in vars && r.error == MissingVariableMessage(n))
                      || (IsIndex(n) && r.error == IndexErrorMessage(n)))
  {
    match Format(template, vars)
    case Success(s) => Ok(s)
    case Failure(MissingVariable(n)) => Raised(MissingVariableMessage(n))
    case Failure(PositionalIndex(n)) => Raised(IndexErrorMessage(n))
  }

  /** The names of the built-in registry `PromptManager.PROMPTS`, in its order. */
  const BuiltinNames: seq<string> := [
    "document_summary", "document_analysis", "document_extraction", "document_qa",
    "document_comparison", "document_simplification", "page_summary", "page_extraction",
    "json_analysis", "table_extraction", "custom", "research", "legal_analysis",
    "technical_analysis"]

  /** A registry with exactly the built-in names, each template carrying its own key as name. */
  ghost predicate IsBuiltinRegistry(builtins: map<string, PromptTemplate>)
  {
    (forall n :: n in builtins <==> n in BuiltinNames)
    && forall n :: n in builtins ==> builtins[n].name == n
  }

  /** `_format_prompt_name`: underscores become spaces, then title case. */
  function FormatPromptName(name: string): (r: string)
    ensures |r| == |name|
    ensures forall k :: 0 <= k < |name| ==> r[k] == if name[k] == '_' then ' ' else TitleChar(name, k)
  {
    var spaced := ReplaceChar(name, '_', ' ');
    assert forall k :: 0 <= k < |name| ==> (IsLetter(spaced[k]) <==> IsLetter(name[k]));
    Title(spaced)
  }

  /** Position `k` holds a letter that opens the name or follows an underscore. */
  predicate OpensWord(name: string, k: int)
  {
    0 <= k < |name| && IsLetter(name[k]) && (k == 0 || name[k - 1] == '_')
  }

  /**
   * Each letter that opens a word of the name is upper case in the display
   * name (`document_summary` is `Document Summary`), no underscore is left,
   * and displaying a display name again changes nothing.
   */
  lemma FormatPromptNameWords(name: string)
    ensures forall k :: OpensWord(name, k) ==> FormatPromptName(name)[k] == UpperChar(name[k])
    ensures forall k :: 0 <= k < |name| ==> FormatPromptName(name)[k] != '_'
    ensures FormatPromptName(FormatPromptName(name)) == FormatPromptName(name)
  {
    var r := FormatPromptName(name);
    forall k | OpensWord(name, k)
      ensures r[k] == UpperChar(name[k])
    {
      assert StartsWord(name, k);
    }
    forall k | 0 <= k < |name|
      ensures r[k] != '_'
      ensures FormatPromptName(r)[k] == r[k]
    {
      DisplayedCharKeepsKind(name, k);
      if k > 0 {
        DisplayedCharKeepsKind(name, k - 1);
      }
      assert StartsWord(r, k) <==> StartsWord(name, k);
    }
    assert FormatPromptName(r) == r;
  }

  /** The display name has a letter exactly where the name has one, and no underscore. */
  lemma DisplayedCharKeepsKind(name: string, k: nat)
    requires k < |name|
    ensures IsLetter(FormatPromptName(name)[k]) <==> IsLetter(name[k])
    ensures FormatPromptName(name)[k] != '_'
  {
  }

  // ------------------------------------------------------------- get_prompt

  /** `Prompt.objects.filter(name=name, is_active=True).first()` over the rows in table order. */
  function FirstActive(rows: seq<PromptRow>, name: string): (r: Option<PromptRow>)
    ensures r.None? <==> forall i :: 0 <= i < |rows| ==> !(rows[i].isActive && rows[i].name == name)
    ensures r.Some? ==>
      exists i :: 0 <= i < |rows| && rows[i] == r.value && r.value.isActive && r.value.name == name
                  && forall j :: 0 <= j < i ==> !(rows[j].isActive && rows[j].name == name)
  {
    if rows == [] then None
    else if rows[0].isActive && rows[0].name == name then Some(rows[0])
    else
      var r := FirstActive(rows[1..], name);
      if r.Some? then
        var i :| 0 <= i < |rows[1..]| && rows[1..][i] == r.value
          && r.value.isActive && r.value.name == name
          && forall j :: 0 <= j < i ==> !(rows[1..][j].isActive && rows[1..][j].name == name);
        assert rows[i + 1] == r.value;
        r
      else r
  }

  /** A database row as a template; `description or ''` keeps a string as it is. */
  function AsTemplate(row: PromptRow): PromptTemplate
  {
    PromptTemplate(row.name, row.description, row.template)
  }

  /** Whether the database has an active prompt of that name (`db` is `Raised` when the database fails). */
  predicate InDatabase(useDatabase: bool, db: Outcome<seq<PromptRow>>, name: string)
  {
    useDatabase && db.Ok? && FirstActive(db.value, name).Some?
  }

  /** `get_prompt(name, use_database)`: an active database prompt first, the built-in otherwise. */
  function GetPrompt(name: string, useDatabase: bool, db: Outcome<seq<PromptRow>>,
                     builtins: map<string, PromptTemplate>): (r: Option<PromptTemplate>)
    ensures InDatabase(useDatabase, db, name) ==> r == Some(AsTemplate(FirstActive(db.value, name).value))
    ensures !InDatabase(useDatabase, db, name) ==> r == (if name in builtins then Some(builtins[name]) else None)
    ensures r.None? <==> !InDatabase(useDatabase, db, name) && name !in builtins
  {
    if InDatabase(useDatabase, db, name) then Some(AsTemplate(FirstActive(db.value, name).value))
    else if name in builtins then Some(builtins[name])
    else None
  }

  /** A failing database is as if it had not been asked. */
  lemma DatabaseFailureFallsBack(name: string, e: string, db: Outcome<seq<PromptRow>>, builtins: map<string, PromptTemplate>)
    ensures GetPrompt(name, true, Raised(e), builtins) == GetPrompt(name, false, db, builtins)
  {
  }

  // ------------------------------------------------------------- list_prompts

  /** One entry of the dict `list_prompts` returns: a prompt name and its display name. */
  datatype Listing = Listing(name: string, display: string)

  /** The keys of the dict, in insertion order. */
  function Names(d: seq<Listing>): (r: seq<string>)
    ensures |r| == |d|
    ensures forall k :: 0 <= k < |d| ==> r[k] == d[k].name
  {
    if d == [] then [] else [d[0].name] + Names(d[1..])
  }

  lemma NamesAppend(d: seq<Listing>, x: Listing)
    ensures Names(d + [x]) == Names(d) + [x.name]
  {
  }

  /** `d.get(name)`. */
  function DisplayOf(d: seq<Listing>, name: string): (r: Option<string>)
    ensures r.Some? <==> name in Names(d)
  {
    if d == [] then None
    else if d[0].name == name then Some(d[0].display)
    else DisplayOf(d[1..], name)
  }

  /** A later entry does not change what an earlier key maps to. */
  lemma {:induction false} DisplayOfAppend(d: seq<Listing>, x: Listing, name: string)
    ensures DisplayOf(d + [x], name) == if name in Names(d) then DisplayOf(d, name)
      else if name == x.name then Some(x.display) else None
  {
    if d != [] {
      assert (d + [x])[1..] == d[1..] + [x];
      DisplayOfAppend(d[1..], x, name);
    }
  }

  /** `d[name] = display`: an existing key keeps its place, a new one goes last. */
  function Put(d: seq<Listing>, name: string, display: string): (r: seq<Listing>)
    ensures Names(r) == if name in Names(d) then Names(d) else Names(d) + [name]
    ensures DisplayOf(r, name) == Some(display)
    ensures forall n :: n != name ==> DisplayOf(r, n) == DisplayOf(d, n)
  {
    if d == [] then [Listing(name, display)]
    else if d[0].name == name then [Listing(name, display)] + d[1..]
    else [d[0]] + Put(d[1..], name, display)
  }

  /** The display name of a database prompt: its title, else its description, else its formatted name. */
  function DisplayName(row: PromptRow): (r: string)
    ensures row.title != "" ==> r == row.title
    ensures row.title == "" && row.description != "" ==> r == row.description
    ensures row.title == "" && row.description == "" ==> r == FormatPromptName(row.name)
  {
    if row.title != "" then row.title
    else if row.description != "" then row.description
    else FormatPromptName(row.name)
  }

  /** The dict after the database loop over `rows` (only the active ones are queried). */
  function DbListing(rows: seq<PromptRow>): seq<Listing>
    decreases |rows|
  {
    if rows == [] then []
    else
      var last := rows[|rows| - 1];
      var prev := DbListing(rows[..|rows| - 1]);
      if last.isActive then Put(prev, last.name, DisplayName(last)) else prev
  }

  lemma NoDuplicatesAppend(s: seq<string>, x: string)
    requires NoDuplicates(s) && x !in s
    ensures NoDuplicates(s + [x])
  {
  }

  /**
   * The database loop lists each active name once, and what a name shows
   * is the display name of an active row with that name.
   */
  lemma {:induction false} DbListingSpec(rows: seq<PromptRow>)
    ensures NoDuplicates(Names(DbListing(rows)))
    ensures forall n :: n in Names(DbListing(rows)) <==>
      exists i :: 0 <= i < |rows| && rows[i].isActive && rows[i].name == n
    ensures forall n :: n in Names(DbListing(rows)) ==>
      exists i :: 0 <= i < |rows| && rows[i].isActive && rows[i].name == n
                  && DisplayOf(DbListing(rows), n) == Some(DisplayName(rows[i]))
    decreases |rows|
  {
    if rows != [] {
      var init := rows[..|rows| - 1];
      var last := rows[|rows| - 1];
      DbListingSpec(init);
      var prev := DbListing(init);
      assert forall i :: 0 <= i < |init| ==> init[i] == rows[i];
      if last.isActive {
        var r := Put(prev, last.name, DisplayName(last));
        assert r == DbListing(rows);
        if last.name !in Names(prev) {
          NoDuplicatesAppend(Names(prev), last.name);
        }
        forall n | n in Names(r)
          ensures exists i :: 0 <= i < |rows| && rows[i].isActive && rows[i].name == n
                              && DisplayOf(r, n) == Some(DisplayName(rows[i]))
        {
          if n == last.name {
            assert rows[|rows| - 1] == last;
          } else {
            var i :| 0 <= i < |init| && init[i].isActive && init[i].name == n
                     && DisplayOf(prev, n) == Some(DisplayName(init[i]));
            assert rows[i] == init[i];
          }
        }
      }
    }
  }

  /** The dict after the built-in loop over `names`: each name not yet present is added with its formatted name. */
  function WithBuiltins(d: seq<Listing>, names: seq<string>): seq<Listing>
    decreases |names|
  {
    if names == [] then d
    else
      var last := names[|names| - 1];
      var prev := WithBuiltins(d, names[..|names| - 1]);
      if last in Names(prev) then prev else prev + [Listing(last, FormatPromptName(last))]
  }

  /** One step of the built-in loop: a missing name is appended with its formatted name, a present one changes nothing. */
  lemma WithBuiltinsStep(d: seq<Listing>, names: seq<string>)
    requires names != []
    ensures var prev := WithBuiltins(d, names[..|names| - 1]); var last := names[|names| - 1];
      WithBuiltins(d, names) == if last in Names(prev) then prev else prev + [Listing(last, FormatPromptName(last))]
  {
  }

  /** The built-in loop keeps the entries it starts from, in front and with their display names. */
  lemma {:induction false} WithBuiltinsKeeps(d: seq<Listing>, names: seq<string>)
    ensures |WithBuiltins(d, names)| >= |d| && WithBuiltins(d, names)[..|d|] == d
    ensures forall n :: n in Names(d) ==> DisplayOf(WithBuiltins(d, names), n) == DisplayOf(d, n)
    decreases |names|
  {
    if names != [] {
      var init := names[..|names| - 1];
      var last := names[|names| - 1];
      WithBuiltinsKeeps(d, init);
      var prev := WithBuiltins(d, init);
      WithBuiltinsStep(d, names);
      if last !in Names(prev) {
        var x := Listing(last, FormatPromptName(last));
        assert (prev + [x])[..|d|] == prev[..|d|];
        forall n | n in Names(d)
          ensures DisplayOf(prev + [x], n) == DisplayOf(d, n)
        {
          assert d == prev[..|d|];
          assert n in Names(prev);
          DisplayOfAppend(prev, x, n);
        }
      }
    }
  }

  /** The built-in loop adds exactly the missing names, and no duplicates. */
  lemma WithBuiltinsNames(d: seq<Listing>, names: seq<string>)
    ensures forall n :: n in Names(WithBuiltins(d, names)) <==> n in Names(d) || n in names
    ensures NoDuplicates(Names(d)) ==> NoDuplicates(Names(WithBuiltins(d, names)))
  {
    forall n
      ensures n in Names(WithBuiltins(d, names)) <==> n in Names(d) || n in names
    {
      WithBuiltinsMember(d, names, n);
    }
    if NoDuplicates(Names(d)) {
      WithBuiltinsNoDuplicates(d, names);
    }
  }

  /** The names the built-in loop leaves: a name is there exactly when it was already or is a built-in. */
  lemma {:induction false} WithBuiltinsMember(d: seq<Listing>, names: seq<string>, n: string)
    ensures n in Names(WithBuiltins(d, names)) <==> n in Names(d) || n in names
    decreases |names|
  {
    if names != [] {
      var init := names[..|names| - 1];
      var last := names[|names| - 1];
      var prev := WithBuiltins(d, init);
      WithBuiltinsMember(d, init, n);
      WithBuiltinsStep(d, names);
      MemberInitLast(names, n);
      if last !in Names(prev) {
        NamesAppend(prev, Listing(last, FormatPromptName(last)));
      }
    }
  }

  lemma {:induction false} WithBuiltinsNoDuplicates(d: seq<Listing>, names: seq<string>)
    requires NoDuplicates(Names(d))
    ensures NoDuplicates(Names(WithBuiltins(d, names)))
    decreases |names|
  {
    if names != [] {
      var init := names[..|names| - 1];
      var last := names[|names| - 1];
      var prev := WithBuiltins(d, init);
      WithBuiltinsNoDuplicates(d, init);
      WithBuiltinsStep(d, names);
      if last !in Names(prev) {
        NamesAppend(prev, Listing(last, FormatPromptName(last)));
        NoDuplicatesAppend(Names(prev), last);
      }
    }
  }

  /** Each name the loop adds shows its formatted name. */
  lemma WithBuiltinsDisplay(d: seq<Listing>, names: seq<string>)
    ensures forall n :: n in names && n !in Names(d) ==> DisplayOf(WithBuiltins(d, names), n) == Some(FormatPromptName(n))
  {
    forall n | n in names && n !in Names(d)
      ensures DisplayOf(WithBuiltins(d, names), n) == Some(FormatPromptName(n))
    {
      WithBuiltinsDisplayOne(d, names, n);
    }
  }

  lemma {:induction false} WithBuiltinsDisplayOne(d: seq<Listing>, names: seq<string>, n: string)
    requires n in names && n !in Names(d)
    ensures DisplayOf(WithBuiltins(d, names), n) == Some(FormatPromptName(n))
    decreases |names|
  {
    var init := names[..|names| - 1];
    var last := names[|names| - 1];
    var prev := WithBuiltins(d, init);
    WithBuiltinsStep(d, names);
    var x := Listing(last, FormatPromptName(last));
    if n == last {
      if last in Names(prev) {
        WithBuiltinsMember(d, init, n);
        WithBuiltinsDisplayOne(d, init, n);
      } else {
        DisplayOfAppend(prev, x, n);
      }
    } else {
      assert names == init + [last];
      assert n in init;
      WithBuiltinsDisplayOne(d, init, n);
      if last !in Names(prev) {
        DisplayOfAppend(prev, x, n);
      }
    }
  }

  /**
   * The built-in loop keeps the entries it starts from, adds exactly the
   * missing names, each with its formatted name, and adds no duplicates.
   */
  lemma WithBuiltinsSpec(d: seq<Listing>, names: seq<string>)
    ensures |WithBuiltins(d, names)| >= |d| && WithBuiltins(d, names)[..|d|] == d
    ensures forall n :: n in Names(WithBuiltins(d, names)) <==> n in Names(d) || n in names
    ensures forall n :: n in Names(d) ==> DisplayOf(WithBuiltins(d, names), n) == DisplayOf(d, n)
    ensures forall n :: n in names && n !in Names(d) ==> DisplayOf(WithBuiltins(d, names), n) == Some(FormatPromptName(n))
    ensures NoDuplicates(Names(d)) ==> NoDuplicates(Names(WithBuiltins(d, names)))
  {
    WithBuiltinsKeeps(d, names);
    WithBuiltinsNames(d, names);
    WithBuiltinsDisplay(d, names);
  }

  /** `list_prompts(include_database)`: the database prompts in table order, then the remaining built-ins. */
  function ListedPrompts(includeDatabase: bool, db: Outcome<seq<PromptRow>>): seq<Listing>
  {
    WithBuiltins(if includeDatabase && db.Ok? then DbListing(db.value) else [], BuiltinNames)
  }

  /**
   * Every built-in name is listed, each name once; a name the database
   * has keeps the database's display name, and a built-in it lacks shows
   * its formatted name.
   */
  lemma ListedPromptsSpec(includeDatabase: bool, db: Outcome<seq<PromptRow>>, name: string)
    ensures NoDuplicates(Names(ListedPrompts(includeDatabase, db)))
    ensures name in BuiltinNames ==> name in Names(ListedPrompts(includeDatabase, db))
    ensures includeDatabase && db.Ok? && name in Names(DbListing(db.value)) ==>
      DisplayOf(ListedPrompts(includeDatabase, db), name) == DisplayOf(DbListing(db.value), name)
    ensures name in BuiltinNames && !(includeDatabase && db.Ok? && name in Names(DbListing(db.value))) ==>
      DisplayOf(ListedPrompts(includeDatabase, db), name) == Some(FormatPromptName(name))
  {
    var start := if includeDatabase && db.Ok? then DbListing(db.value) else [];
    if includeDatabase && db.Ok? {
      DbListingSpec(db.value);
    }
    WithBuiltinsSpec(start, BuiltinNames);
  }

  /** A prompt is listed exactly when `get_prompt` finds it. */
  lemma {:induction false} ListedIffFound(useDatabase: bool, db: Outcome<seq<PromptRow>>,
                                          builtins: map<string, PromptTemplate>, name: string)
    requires IsBuiltinRegistry(builtins)
    ensures name in Names(ListedPrompts(useDatabase, db)) <==> GetPrompt(name, useDatabase, db, builtins).Some?
  {
    var start := if useDatabase && db.Ok? then DbListing(db.value) else [];
    WithBuiltinsSpec(start, BuiltinNames);
    if useDatabase && db.Ok? {
      DbListingSpec(db.value);
      var rows := db.value;
      if name in Names(DbListing(rows)) {
        var i :| 0 <= i < |rows| && rows[i].isActive && rows[i].name == name;
        assert !(FirstActive(rows, name).None?);
      }
    }
  }

  /** The database loop of `list_prompts`. */
  method CollectDatabasePrompts(rows: seq<PromptRow>) returns (prompts: seq<Listing>)
    ensures prompts == DbListing(rows)
  {
    prompts := [];
    for i := 0 to |rows|
      invariant prompts == DbListing(rows[..i])
    {
      assert rows[..i + 1][..i] == rows[..i];
      if rows[i].isActive {
        prompts := Put(prompts, rows[i].name, DisplayName(rows[i]));
      }
    }
    assert rows[..|rows|] == rows;
  }

  /** The built-in loop of `list_prompts`. */
  method AddBuiltinPrompts(start: seq<Listing>, names: seq<string>) returns (prompts: seq<Listing>)
    ensures prompts == WithBuiltins(start, names)
  {
    prompts := start;
    for i := 0 to |names|
      invariant prompts == WithBuiltins(start, names[..i])
    {
      assert names[..i + 1][..i] == names[..i];
      var name := names[i];
      if name !in Names(prompts) {
        prompts := prompts + [Listing(name, FormatPromptName(name))];
      }
    }
    assert names[..|names|] == names;
  }

  /** `list_prompts` as it fills its dict. */
  method ListPrompts(includeDatabase: bool, db: Outcome<seq<PromptRow>>) returns (prompts: seq<Listing>)
    ensures prompts == ListedPrompts(includeDatabase, db)
  {
    prompts := [];
    if includeDatabase && db.Ok? {
      prompts := CollectDatabasePrompts(db.value);
    }
    prompts := AddBuiltinPrompts(prompts, BuiltinNames);
  }

  // ------------------------------------------------------------- format_prompt

  /** The optional keyword arguments of `format_prompt`; `None` is an argument not passed or passed as `None`. */
  datatype PromptOptions = PromptOptions(
    pageNumber: Option<int>,
    totalPages: Option<int>,
    question: Option<string>,
    jsonData: Option<Json>,
    customPrompt: Option<string>)

  const NoOptions := PromptOptions(None, None, None, None, None)

  /** The parameter names of `format_prompt`; a `**kwargs` key can never be one of these. */
  const Reserved: set<string> := {"prompt_name", "document_title", "document_content", "page_number",
    "total_pages", "question", "json_data", "custom_prompt", "use_database"}

  /** The map the template is formatted with: the two fixed variables, the extra ones, then each optional one given. */
  function PromptVariables(title: string, content: string, opts: PromptOptions, extra: map<string, string>): (r: map<string, string>)
    requires forall k :: k in extra ==> k !in Reserved
    ensures "document_title" in r && r["document_title"] == title
    ensures "document_content" in r && r["document_content"] == content
  {
    var base := map["document_title" := title, "document_content" := content] + extra;
    var v1 := Bind(base, "page_number", if opts.pageNumber.Some? then Some(IntToString(opts.pageNumber.value)) else None);
    var v2 := Bind(v1, "total_pages", if opts.totalPages.Some? then Some(IntToString(opts.totalPages.value)) else None);
    var v3 := Bind(v2, "question", opts.question);
    var v4 := Bind(v3, "json_data", if opts.jsonData.Some? then Some(Dump(opts.jsonData.value)) else None);
    Bind(v4, "custom_prompt", opts.customPrompt)
  }

  /** Each optional variable is bound exactly when its option is given, to the option's text. */
  lemma PromptVariablesOptional(title: string, content: string, opts: PromptOptions, extra: map<string, string>)
    requires forall k :: k in extra ==> k !in Reserved
    ensures var r := PromptVariables(title, content, opts, extra);
      ("page_number" in r <==> opts.pageNumber.Some?) && (opts.pageNumber.Some? ==> r["page_number"] == IntToString(opts.pageNumber.value))
      && ("total_pages" in r <==> opts.totalPages.Some?) && (opts.totalPages.Some? ==> r["total_pages"] == IntToString(opts.totalPages.value))
      && ("question" in r <==> opts.question.Some?) && (opts.question.Some? ==> r["question"] == opts.question.value)
  {
  }

  lemma PromptVariablesData(title: string, content: string, opts: PromptOptions, extra: map<string, string>)
    requires forall k :: k in extra ==> k !in Reserved
    ensures var r := PromptVariables(title, content, opts, extra);
      ("json_data" in r <==> opts.jsonData.Some?) && (opts.jsonData.Some? ==> r["json_data"] == Dump(opts.jsonData.value))
      && ("custom_prompt" in r <==> opts.customPrompt.Some?) && (opts.customPrompt.Some? ==> r["custom_prompt"] == opts.customPrompt.value)
  {
  }

  /** No variable is bound beyond the extra ones and the reserved names. */
  lemma PromptVariablesKeys(title: string, content: string, opts: PromptOptions, extra: map<string, string>)
    requires forall k :: k in extra ==> k !in Reserved
    ensures forall k :: k in extra ==> k in PromptVariables(title, content, opts, extra) && PromptVariables(title, content, opts, extra)[k] == extra[k]
    ensures forall k :: k in PromptVariables(title, content, opts, extra) ==> k in extra || k in Reserved
  {
  }

  /** Adds `key` when a value is given; every other key keeps its binding. */
  function Bind(m: map<string, string>, key: string, v: Option<string>): (r: map<string, string>)
    ensures key in r <==> key in m || v.Some?
    ensures v.Some? ==> r[key] == v.value
    ensures forall k :: k != key ==> (k in r <==> k in m)
    ensures forall k :: k in m && k != key ==> r[k] == m[k]
  {
    if v.Some? then m[key := v.value] else m
  }

  /** Python's `repr` of a list of names. */
  function NameList(names: seq<string>): string
  {
    "[" + Join(seq(|names|, k requires 0 <= k < |names| => "'" + names[k] + "'"), ", ") + "]"
  }

  function UnknownPromptMessage(name: string, available: seq<string>): string
  {
    "Unknown prompt: " + name + ". Available: " + NameList(available)
  }

  /**
   * `format_prompt(...)`: an unknown prompt raises a `ValueError` listing
   * the available names; otherwise the template is formatted with the
   * variables, and a field without a value raises.
   */
  function FormatPrompt(name: string, title: string, content: string, opts: PromptOptions, extra: map<string, string>,
                        useDatabase: bool, db: Outcome<seq<PromptRow>>, builtins: map<string, PromptTemplate>): (r: Outcome<string>)
    requires forall k :: k in extra ==> k !in Reserved
    ensures GetPrompt(name, useDatabase, db, builtins).None? ==>
      r == Raised(UnknownPromptMessage(name, Names(ListedPrompts(useDatabase, db))))
    ensures GetPrompt(name, useDatabase, db, builtins).Some? ==>
      (r.Ok? <==> forall n :: n in Placeholders(GetPrompt(name, useDatabase, db, builtins).value.template) ==>
                               !IsIndex(n) && n in PromptVariables(title, content, opts, extra))
  {
    match GetPrompt(name, useDatabase, db, builtins)
    case None => Raised(UnknownPromptMessage(name, Names(ListedPrompts(useDatabase, db))))
    case Some(t) => FormatTemplate(t.template, PromptVariables(title, content, opts, extra))
  }

  /**
   * A built-in name is never unknown. When the prompt found has keyword
   * fields only, as every built-in template has, the only way it can fail
   * is a variable without a value.
   */
  lemma BuiltinOnlyMissesVariables(name: string, title: string, content: string, opts: PromptOptions, extra: map<string, string>,
                                   useDatabase: bool, db: Outcome<seq<PromptRow>>, builtins: map<string, PromptTemplate>)
    requires forall k :: k in extra ==> k !in Reserved
    requires IsBuiltinRegistry(builtins) && name in BuiltinNames
    ensures GetPrompt(name, useDatabase, db, builtins).Some?
    ensures FormatPrompt(name, title, content, opts, extra, useDatabase, db, builtins).Raised?
            && (forall n :: n in Placeholders(GetPrompt(name, useDatabase, db, builtins).value.template) ==> !IsIndex(n)) ==>
      StartsWith(FormatPrompt(name, title, content, opts, extra, useDatabase, db, builtins).error, MissingVariablePrefix)
  {
    var t := GetPrompt(name, useDatabase, db, builtins).value;
    var r := FormatTemplate(t.template, PromptVariables(title, content, opts, extra));
    assert FormatPrompt(name, title, content, opts, extra, useDatabase, db, builtins) == r;
  }

  /**
   * `format_page_prompt`: the page's text is the content and its number is
   * bound. `page_number` and `page_content` are parameters of their own, so
   * the keyword arguments passed on never carry either.
   */
  function FormatPagePrompt(name: string, title: string, pageNumber: int, pageContent: string, opts: PromptOptions,
                            extra: map<string, string>, useDatabase: bool, db: Outcome<seq<PromptRow>>,
                            builtins: map<string, PromptTemplate>): (r: Outcome<string>)
    requires forall k :: k in extra ==> k !in Reserved
    requires opts.pageNumber.None? && "page_content" !in extra
    ensures r == FormatPrompt(name, title, pageContent, opts.(pageNumber := Some(pageNumber)), extra, useDatabase, db, builtins)
  {
    FormatPrompt(name, title, pageContent, opts.(pageNumber := Some(pageNumber)), extra, useDatabase, db, builtins)
  }

  /** The fields of the built-in `page_summary` and `page_extraction` templates, in order. */
  const PageTemplateFields: seq<string> := ["page_number", "document_title", "page_content"]

  /** The built-in page templates, as shipped, have exactly those fields. */
  ghost predicate ShippedPageTemplates(builtins: map<string, PromptTemplate>)
  {
    "page_summary" in builtins && Placeholders(builtins["page_summary"].template) == PageTemplateFields
    && "page_extraction" in builtins && Placeholders(builtins["page_extraction"].template) == PageTemplateFields
  }

  /**
   * A page template with those fields never formats through
   * `format_page_prompt`: the page is bound as `document_content`, and
   * nothing can bind `page_content`.
   */
  lemma PagePromptMissesPageContent(name: string, title: string, pageNumber: int, pageContent: string, opts: PromptOptions,
                                    extra: map<string, string>, useDatabase: bool, db: Outcome<seq<PromptRow>>,
                                    builtins: map<string, PromptTemplate>)
    requires forall k :: k in extra ==> k !in Reserved
    requires opts.pageNumber.None? && "page_content" !in extra
    requires GetPrompt(name, useDatabase, db, builtins).Some?
    requires Placeholders(GetPrompt(name, useDatabase, db, builtins).value.template) == PageTemplateFields
    ensures FormatPagePrompt(name, title, pageNumber, pageContent, opts, extra, useDatabase, db, builtins)
            == Raised(MissingVariableMessage("page_content"))
  {
    var t := GetPrompt(name, useDatabase, db, builtins).value.template;
    var o := opts.(pageNumber := Some(pageNumber));
    var vars := PromptVariables(title, pageContent, o, extra);
    PageVariablesBound(title, pageContent, o, extra);
    PageFieldsFormat(t, vars);
    assert FormatPrompt(name, title, pageContent, o, extra, useDatabase, db, builtins) == FormatTemplate(t, vars);
  }

  /** The page prompt's variables bind the page number and the title, and `page_content` only through `extra`. */
  lemma PageVariablesBound(title: string, content: string, opts: PromptOptions, extra: map<string, string>)
    requires forall k :: k in extra ==> k !in Reserved
    requires opts.pageNumber.Some?
    ensures "page_number" in PromptVariables(title, content, opts, extra)
    ensures "document_title" in PromptVariables(title, content, opts, extra)
    ensures "page_content" in PromptVariables(title, content, opts, extra) <==> "page_content" in extra
  {
    PromptVariablesOptional(title, content, opts, extra);
    PromptVariablesKeys(title, content, opts, extra);
  }

  /** A template with the page fields formats exactly when `page_content` is bound besides the other two. */
  lemma PageFieldsFormat(t: string, vars: map<string, string>)
    requires Placeholders(t) == PageTemplateFields
    requires "page_number" in vars && "document_title" in vars
    ensures "page_content" in vars ==> FormatTemplate(t, vars).Ok?
    ensures "page_content" !in vars ==> FormatTemplate(t, vars) == Raised(MissingVariableMessage("page_content"))
  {
    assert !IsIndex(PageTemplateFields[0]) && !IsIndex(PageTemplateFields[1]) && !IsIndex(PageTemplateFields[2]) by {
      assert !('0' <= PageTemplateFields[0][0] <= '9') && !('0' <= PageTemplateFields[1][0] <= '9') && !('0' <= PageTemplateFields[2][0] <= '9');
    }
    var r := FormatTemplate(t, vars);
    if r.Raised? {
      var n :| n in Placeholders(t)
               && ((!IsIndex(n) && n !in vars && r.error == MissingVariableMessage(n))
                   || (IsIndex(n) && r.error == IndexErrorMessage(n)));
      assert n == PageTemplateFields[0] || n == PageTemplateFields[1] || n == PageTemplateFields[2];
    }
  }

  /** `get_page_summary_prompt` on the shipped registry, without a database copy of the prompt, always raises. */
  lemma PageSummaryPromptRaises(title: string, pageNumber: int, pageContent: string, db: Outcome<seq<PromptRow>>,
                                builtins: map<string, PromptTemplate>)
    requires ShippedPageTemplates(builtins) && !InDatabase(true, db, "page_summary")
    ensures FormatPagePrompt("page_summary", title, pageNumber, pageContent, NoOptions, map[], true, db, builtins)
            == Raised(MissingVariableMessage("page_content"))
  {
    PagePromptMissesPageContent("page_summary", title, pageNumber, pageContent, NoOptions, map[], true, db, builtins);
  }

  /**
   * `format_page_prompt` as evidently intended: the page is bound under
   * `page_content` as well, the name the page templates use.
   */
  function FormatPagePromptBindingPage(name: string, title: string, pageNumber: int, pageContent: string, opts: PromptOptions,
                                       extra: map<string, string>, useDatabase: bool, db: Outcome<seq<PromptRow>>,
                                       builtins: map<string, PromptTemplate>): (r: Outcome<string>)
    requires forall k :: k in extra ==> k !in Reserved
    requires opts.pageNumber.None? && "page_content" !in extra
    ensures r == FormatPrompt(name, title, pageContent, opts.(pageNumber := Some(pageNumber)), extra["page_content" := pageContent],
                              useDatabase, db, builtins)
  {
    FormatPrompt(name, title, pageContent, opts.(pageNumber := Some(pageNumber)), extra["page_content" := pageContent],
                 useDatabase, db, builtins)
  }

  /** With the page bound under its own name, a page template always formats. */
  lemma PagePromptBindingPageFormats(name: string, title: string, pageNumber: int, pageContent: string, opts: PromptOptions,
                                     extra: map<string, string>, useDatabase: bool, db: Outcome<seq<PromptRow>>,
                                     builtins: map<string, PromptTemplate>)
    requires forall k :: k in extra ==> k !in Reserved
    requires opts.pageNumber.None? && "page_content" !in extra
    requires GetPrompt(name, useDatabase, db, builtins).Some?
    requires Placeholders(GetPrompt(name, useDatabase, db, builtins).value.template) == PageTemplateFields
    ensures FormatPagePromptBindingPage(name, title, pageNumber, pageContent, opts, extra, useDatabase, db, builtins).Ok?
  {
    var t := GetPrompt(name, useDatabase, db, builtins).value.template;
    var o := opts.(pageNumber := Some(pageNumber));
    var e := extra["page_content" := pageContent];
    var vars := PromptVariables(title, pageContent, o, e);
    PageVariablesBound(title, pageContent, o, e);
    PageFieldsFormat(t, vars);
    assert FormatPrompt(name, title, pageContent, o, e, useDatabase, db, builtins) == FormatTemplate(t, vars);
  }


  /** The page prompt binds the page as the content and its number, and no page count. */
  lemma PagePromptVariables(title: string, pageNumber: int, pageContent: string, extra: map<string, string>)
    requires forall k :: k in extra ==> k !in Reserved
    ensures var vars := PromptVariables(title, pageContent, NoOptions.(pageNumber := Some(pageNumber)), extra);
      vars["document_content"] == pageContent && vars["page_number"] == IntToString(pageNumber)
      && "total_pages" !in vars && "json_data" !in vars
  {
  }

  // ------------------------------------------------------------- format_document_prompt

  /** One dict of `pages_data`: a missing page number reads as `'?'`, a missing text as `''`, a missing json as `JNull`. */
  datatype PageData = PageData(number: Option<int>, text: string, json: Json)

  function PageLabel(p: PageData): string
  {
    match p.number
    case Some(n) => IntToString(n)
    case None => "?"
  }

  function PageLabelJson(p: PageData): Json
  {
    match p.number
    case Some(n) => JInt(n)
    case None => JStr("?")
  }

  /** The text section of one page. */
  function PageHead(p: PageData): string
  {
    "--- Page " + PageLabel(p) + " ---\n" + p.text + "\n\n"
  }

  /** The structured-data section of one page. */
  function PageTail(p: PageData): string
  {
    "--- Page " + PageLabel(p) + " Structured Data (JSON) ---\n" + Dump(p.json) + "\n\n"
  }

  /** What one page adds to the content: its text, then its structured data when the json is truthy. */
  function PageBlock(p: PageData): (r: string)
    ensures StartsWith(r, PageHead(p))
  {
    assert (PageHead(p) + PageTail(p))[..|PageHead(p)|] == PageHead(p);
    if Truthy(p.json) then PageHead(p) + PageTail(p) else PageHead(p)
  }

  function PageBlocks(pages: seq<PageData>): (r: seq<string>)
    ensures |r| == |pages|
    ensures forall k :: 0 <= k < |pages| ==> r[k] == PageBlock(pages[k])
  {
    seq(|pages|, k requires 0 <= k < |pages| => PageBlock(pages[k]))
  }

  function TitleLine(title: string): string
  {
    "Document: " + title + "\n\n"
  }

  /** The assembled `document_content`: a title line, then one block per page in order. */
  function DocumentContent(title: string, pages: seq<PageData>): string
  {
    TitleLine(title) + Concat(PageBlocks(pages))
  }

  lemma BlocksAppend(pages: seq<PageData>, p: PageData)
    ensures Concat(PageBlocks(pages + [p])) == Concat(PageBlocks(pages)) + PageBlock(p)
  {
    var blocks := PageBlocks(pages + [p]);
    assert blocks[..|blocks| - 1] == PageBlocks(pages);
  }

  /** Each page appends its block to what the earlier pages assembled. */
  lemma DocumentContentAppend(title: string, pages: seq<PageData>, p: PageData)
    ensures DocumentContent(title, pages + [p]) == DocumentContent(title, pages) + PageBlock(p)
  {
    BlocksAppend(pages, p);
  }

  /** The content starts with the title line and the first page's block follows it. */
  lemma DocumentContentStarts(title: string, pages: seq<PageData>)
    requires pages != []
    ensures StartsWith(DocumentContent(title, pages), TitleLine(title) + PageBlock(pages[0]))
  {
    ConcatStartsWithFirst(PageBlocks(pages));
    var head := TitleLine(title);
    var c := Concat(PageBlocks(pages));
    assert (head + c)[..|head| + |PageBlock(pages[0])|] == head + c[..|PageBlock(pages[0])|];
  }

  lemma {:induction false} ConcatStartsWithFirst(parts: seq<string>)
    requires parts != []
    ensures StartsWith(Concat(parts), parts[0])
  {
    if |parts| > 1 {
      var init := parts[..|parts| - 1];
      ConcatStartsWithFirst(init);
      var c := Concat(init);
      assert (c + parts[|parts| - 1])[..|parts[0]|] == c[..|parts[0]|];
    }
  }

  /** One entry of `json_data_all`. */
  datatype JsonEntry = JsonEntry(pageNumber: Json, data: Json)

  function EntryJson(e: JsonEntry): Json
  {
    JObject([Member("page_number", e.pageNumber), Member("json_data", e.data)])
  }

  /** The entries collected for the pages whose json is truthy, in page order. */
  function JsonEntries(pages: seq<PageData>): (r: seq<JsonEntry>)
    ensures |r| <= |pages|
    ensures r == [] <==> forall k :: 0 <= k < |pages| ==> !Truthy(pages[k].json)
    ensures forall e :: e in r ==> Truthy(e.data)
    decreases |pages|
  {
    if pages == [] then []
    else
      var init := pages[..|pages| - 1];
      var last := pages[|pages| - 1];
      assert forall k :: 0 <= k < |init| ==> init[k] == pages[k];
      JsonEntries(init) + (if Truthy(last.json) then [JsonEntry(PageLabelJson(last), last.json)] else [])
  }

  function EntriesJson(entries: seq<JsonEntry>): (r: seq<Json>)
    ensures |r| == |entries|
    ensures forall k :: 0 <= k < |entries| ==> r[k] == EntryJson(entries[k])
  {
    seq(|entries|, k requires 0 <= k < |entries| => EntryJson(entries[k]))
  }

  /**
   * The `json_data` passed on: nothing without entries, the single page's
   * json with one, and a `pages` list with its count with several.
   */
  function CombinedJson(entries: seq<JsonEntry>): (r: Option<Json>)
    ensures r.None? <==> entries == []
    ensures |entries| == 1 ==> r == Some(entries[0].data)
    ensures |entries| > 1 ==>
      (r.Some? && Get(r.value, "total_pages_with_json") == Some(JInt(|entries|))
        && Get(r.value, "pages") == Some(JList(EntriesJson(entries))))
  {
    if entries == [] then None
    else if |entries| == 1 then Some(entries[0].data)
    else
      var members := [Member("pages", JList(EntriesJson(entries))), Member("total_pages_with_json", JInt(|entries|))];
      LookupAt(members, 0, "pages");
      assert members[0].key != "total_pages_with_json";
      LookupAt(members, 1, "total_pages_with_json");
      Some(JObject(members))
  }

  /** With exactly one page carrying json, that json is what the template receives. */
  lemma {:induction false} OneJsonPage(pages: seq<PageData>, i: nat)
    requires i < |pages| && Truthy(pages[i].json)
    requires forall k :: 0 <= k < |pages| && k != i ==> !Truthy(pages[k].json)
    ensures JsonEntries(pages) == [JsonEntry(PageLabelJson(pages[i]), pages[i].json)]
    ensures CombinedJson(JsonEntries(pages)) == Some(pages[i].json)
    decreases |pages|
  {
    var init := pages[..|pages| - 1];
    if i < |pages| - 1 {
      OneJsonPage(init, i);
    } else {
      assert JsonEntries(init) == [];
    }
  }

  /** The options `format_document_prompt` passes on: the page count, and the collected json over an argument one. */
  function DocumentOptions(pages: seq<PageData>, opts: PromptOptions): (r: PromptOptions)
    ensures r.totalPages == Some(|pages|)
    ensures r.jsonData == if JsonEntries(pages) == [] then opts.jsonData else CombinedJson(JsonEntries(pages))
    ensures r.question == opts.question && r.customPrompt == opts.customPrompt && r.pageNumber == opts.pageNumber
  {
    var combined := CombinedJson(JsonEntries(pages));
    opts.(totalPages := Some(|pages|), jsonData := if combined.Some? then combined else opts.jsonData)
  }

  /** Each page adds its entry when its json is truthy. */
  lemma JsonEntriesAppend(pages: seq<PageData>, p: PageData)
    ensures JsonEntries(pages + [p]) == JsonEntries(pages) + (if Truthy(p.json) then [JsonEntry(PageLabelJson(p), p.json)] else [])
  {
    assert (pages + [p])[..|pages|] == pages;
  }

  /** The content and the entries of one more page. */
  lemma AssembleStep(title: string, pages: seq<PageData>, i: nat)
    requires i < |pages|
    ensures DocumentContent(title, pages[..i + 1]) == DocumentContent(title, pages[..i]) + PageBlock(pages[i])
    ensures JsonEntries(pages[..i + 1]) == JsonEntries(pages[..i])
      + (if Truthy(pages[i].json) then [JsonEntry(PageLabelJson(pages[i]), pages[i].json)] else [])
  {
    assert pages[..i + 1] == pages[..i] + [pages[i]];
    DocumentContentAppend(title, pages[..i], pages[i]);
    JsonEntriesAppend(pages[..i], pages[i]);
  }

  /** One pass of the page loop: the page's block goes onto the content, its json (when truthy) onto the entries. */
  method AddPage(content: string, entries: seq<JsonEntry>, page: PageData) returns (content': string, entries': seq<JsonEntry>)
    ensures content' == content + PageBlock(page)
    ensures entries' == entries + (if Truthy(page.json) then [JsonEntry(PageLabelJson(page), page.json)] else [])
  {
    var block := PageHead(page);
    entries' := entries;
    if Truthy(page.json) {
      block := block + PageTail(page);
      entries' := entries' + [JsonEntry(PageLabelJson(page), page.json)];
    }
    content' := content + block;
  }

  /** The loop of `format_document_prompt`: the content, and the json entries, page by page. */
  method AssembleDocument(title: string, pages: seq<PageData>) returns (content: string, entries: seq<JsonEntry>)
    ensures content == DocumentContent(title, pages)
    ensures entries == JsonEntries(pages)
  {
    content := TitleLine(title);
    entries := [];
    for i := 0 to |pages|
      invariant content == DocumentContent(title, pages[..i])
      invariant entries == JsonEntries(pages[..i])
    {
      AssembleStep(title, pages, i);
      content, entries := AddPage(content, entries, pages[i]);
    }
    assert pages[..|pages|] == pages;
  }

  /** The `TypeError` of a `total_pages` keyword argument, which `format_document_prompt` passes itself as well. */
  const TotalPagesTwiceMessage := "PromptManager.format_prompt() got multiple values for keyword argument 'total_pages'"

  /**
   * `format_document_prompt`: the assembled content, the page count and the
   * collected json are passed to `format_prompt`; a `total_pages` among the
   * caller's keyword arguments is passed twice and raises.
   */
  method FormatDocumentPrompt(name: string, title: string, pages: seq<PageData>, opts: PromptOptions,
                              extra: map<string, string>, useDatabase: bool, db: Outcome<seq<PromptRow>>,
                              builtins: map<string, PromptTemplate>) returns (r: Outcome<string>)
    requires forall k :: k in extra ==> k !in Reserved
    ensures opts.totalPages.Some? ==> r == Raised(TotalPagesTwiceMessage)
    ensures opts.totalPages.None? ==>
      r == FormatPrompt(name, title, DocumentContent(title, pages), DocumentOptions(pages, opts), extra,
                        useDatabase, db, builtins)
  {
    var content, entries := AssembleDocument(title, pages);
    if opts.totalPages.Some? {
      return Raised(TotalPagesTwiceMessage);
    }
    var passed := opts.(totalPages := Some(|pages|));
    if entries != [] {
      passed := passed.(jsonData := CombinedJson(entries));
    }
    r := FormatPrompt(name, title, content, passed, extra, useDatabase, db, builtins);
  }
}
