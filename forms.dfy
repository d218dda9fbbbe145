/**
 * The model forms: the document form's file requirement, the prompt form's
 * variable extraction, and the schema form's JSON validation and property
 * extraction.
 */
module Forms {
  import opened Wrappers
  import opened Json
  import opened Lists
  import opened Templates
  import opened Models

  /** Django's message for a required field left empty. */
  const RequiredMessage := "This field is required."

  /** `DocumentForm`; of its fields only the `required` flag of `file` is modelled. */
  class DocumentForm {
    var fileRequired: bool

    /** `__init__`: the file is required exactly when the bound instance has no primary key. */
    constructor (instancePk: nat)
      ensures fileRequired <==> instancePk == 0
    {
      if instancePk == 0 {
        fileRequired := true;
      } else {
        fileRequired := false;
      }
    }

    /** Cleaning the file field: a missing file is an error only when the field is required. */
    function CleanFile(file: Option<FileRef>): (r: Outcome<Option<FileRef>>)
      reads this
      ensures r.Raised? <==> fileRequired && file.None?
      ensures r.Raised? ==> r.error == RequiredMessage
      ensures r.Ok? ==> r.value == file
    {
      if fileRequired && file.None? then Raised(RequiredMessage) else Ok(file)
    }
  }

  // ---------------------------------------------------------------- prompts

  /** The instance `PromptForm.save` writes: a non-empty template sets `variables` to its declared variables. */
  function WithExtractedVariables(p: PromptRow): (r: PromptRow)
    ensures r.(variables := p.variables) == p
    ensures p.template == "" ==> r == p
    ensures p.template != "" ==>
      NoDuplicates(r.variables) && forall x :: x in r.variables <==> x in Placeholders(p.template)
  {
    if p.template != "" then p.(variables := ExtractVariables(p.template)) else p
  }

  /**
   * The stored `variables` list is exactly what formatting the stored
   * template needs, provided none of them is all digits: such a variable
   * is stored, but no binding satisfies it.
   */
  lemma SavedVariablesSuffice(p: PromptRow, vars: map<string, string>)
    requires p.template != ""
    ensures var r := WithExtractedVariables(p);
      Format(r.template, vars).Success? <==> forall n :: n in r.variables ==> !IsIndex(n) && n in vars
  {
    FormatSucceedsWithDeclaredVariables(p.template, vars);
  }

  /** `PromptForm`; `extractedVariables` is the `_extracted_variables` attribute, absent until a template is cleaned. */
  class PromptForm {
    var extractedVariables: Option<seq<string>>

    constructor ()
      ensures extractedVariables.None?
    {
      extractedVariables := None;
    }

    /** `clean_template`: the template is returned as given; a non-empty one has its variables recorded. */
    method CleanTemplate(template: string) returns (r: string)
      modifies this
      ensures r == template
      ensures template != "" ==> extractedVariables == Some(ExtractVariables(template))
      ensures template == "" ==> extractedVariables == old(extractedVariables)
    {
      if template != "" {
        extractedVariables := Some(ExtractVariables(template));
      }
      r := template;
    }
  }

  /**
   * `PromptForm.save`: the instance gets its variables, and with `commit`
   * it is saved, as a new row when `pk` is `None`.
   */
  method SavePromptForm(table: PromptTable, pk: Option<nat>, p: PromptRow, commit: bool) returns (instance: PromptRow, key: Option<nat>)
    requires table.Valid() && (pk.Some? ==> pk.value in table.rows)
    modifies table
    ensures instance == WithExtractedVariables(p)
    ensures table.Valid()
    ensures !commit ==> key == pk && table.rows == old(table.rows)
    ensures commit ==> key.Some? && table.rows == SavedPrompts(old(table.rows), key.value, instance)
    ensures commit && pk.Some? ==> key == pk
    ensures commit && pk.None? ==> key.value !in old(table.rows)
  {
    instance := WithExtractedVariables(p);
    key := pk;
    if commit {
      if pk.Some? {
        table.Save(pk.value, instance);
      } else {
        var k := table.Insert(instance);
        key := Some(k);
      }
    }
  }

  // ---------------------------------------------------------------- schemas

  const InvalidJsonPrefix := "Invalid JSON format: "
  const NotAnObjectMessage := "Schema must be a JSON object"

  /**
   * `clean_schema`. The schema field is a JSON field, so `value` is what it
   * decoded from the form; `loads` is `json.loads`, failing with the
   * decoder's message. A falsy value is passed through; a JSON string is
   * decoded once more; what is not a JSON object is refused.
   */
  function CleanSchema(value: Json, loads: string -> Result<Json, string>): (r: Outcome<Json>)
    ensures !Truthy(value) ==> r == Ok(value)
    ensures Truthy(value) && r.Ok? ==> r.value.JObject?
    ensures value.JStr? && Truthy(value) ==>
      match loads(value.s)
      case Failure(e) => r == Raised(InvalidJsonPrefix + e)
      case Success(j) => if j.JObject? then r == Ok(j) else r == Raised(NotAnObjectMessage)
    ensures !value.JStr? && Truthy(value) ==>
      if value.JObject? then r == Ok(value) else r == Raised(NotAnObjectMessage)
  {
    if !Truthy(value) then Ok(value)
    else
      var parsed := if value.JStr? then
          (match loads(value.s)
           case Failure(e) => Raised(InvalidJsonPrefix + e)
           case Success(j) => Ok(j))
        else Ok(value);
      match parsed
      case Raised(e) => Raised(e)
      case Ok(j) => if j.JObject? then Ok(j) else Raised(NotAnObjectMessage)
  }

  /** A cleaned value is clean: cleaning it again returns it unchanged. */
  lemma CleanSchemaIdempotent(value: Json, loads: string -> Result<Json, string>)
    requires CleanSchema(value, loads).Ok?
    ensures CleanSchema(CleanSchema(value, loads).value, loads) == CleanSchema(value, loads)
  {
  }

  /**
   * The two error messages are told apart by their first characters: the
   * "must be a JSON object" error arises exactly when there was nothing left
   * to decode or the decoding succeeded.
   */
  lemma CleanSchemaErrors(value: Json, loads: string -> Result<Json, string>)
    requires CleanSchema(value, loads).Raised?
    ensures CleanSchema(value, loads).error == NotAnObjectMessage <==>
      !value.JStr? || loads(value.s).Success?
  {
    var r := CleanSchema(value, loads);
    if value.JStr? && loads(value.s).Failure? {
      assert r.error[..|InvalidJsonPrefix|] == InvalidJsonPrefix;
      assert r.error[0] == 'I' != NotAnObjectMessage[0];
    }
  }

  /** The instance `SchemaForm.save` writes: a truthy schema gets its extracted properties. */
  function WithExtractedProperties(s: SchemaRow): (r: Outcome<SchemaRow>)
    ensures !Truthy(s.schema) ==> r == Ok(s)
    ensures Truthy(s.schema) ==> (r.Ok? <==> ExtractedProperties(s.schema).Ok?)
    ensures r.Ok? && Truthy(s.schema) ==> r.value == s.(properties := JList(ExtractedProperties(s.schema).value))
  {
    if !Truthy(s.schema) then Ok(s)
    else match ExtractedProperties(s.schema)
      case Raised(e) => Raised(e)
      case Ok(props) => Ok(s.(properties := JList(props)))
  }

  /**
   * `SchemaForm.save`: the instance gets its properties, and with `commit`
   * it is saved under `pk` (an existing key, or the next one for a new row).
   */
  method SaveSchemaForm(table: SchemaTable, pk: nat, s: SchemaRow, commit: bool) returns (r: Outcome<SchemaRow>)
    requires table.Valid() && (pk in table.rows || pk == table.nextPk)
    modifies table
    ensures table.Valid()
    ensures WithExtractedProperties(s).Raised? ==> r.Raised? && table.rows == old(table.rows)
    ensures WithExtractedProperties(s).Ok? && !commit ==> r == WithExtractedProperties(s) && table.rows == old(table.rows)
    ensures WithExtractedProperties(s).Ok? && commit ==>
      var row := WithExtractedProperties(s).value;
      r == Ok(row)
      && table.rows == (if s.isDefault then ClearSchemaDefaults(old(table.rows), s.category, pk) else old(table.rows))[pk := row]
  {
    var instance := s;
    if Truthy(s.schema) {
      var extracted := ExtractProperties(s.schema);
      match extracted {
        case Raised(e) => return Raised(e);
        case Ok(ps) => instance := s.(properties := JList(ps));
      }
    }
    if !commit {
      return Ok(instance);
    }
    r := table.Save(pk, instance);
  }
}
