/**
 * Prompt templates: text with `{name}` fields. Python's `str.format`
 * substitutes the fields; the regular expression `\{(\w+)\}` finds them.
 */
module Templates {
  import opened Wrappers
  import opened Lists

  /** A character matched by `\w` (ASCII letters, digits and `_`). */
  predicate IsWordChar(c: char)
  {
    'a' <= c <= 'z' || 'A' <= c <= 'Z' || '0' <= c <= '9' || c == '_'
  }

  /** Length of the run of word characters at the start of `s`. */
  function WordRun(s: string): (n: nat)
    ensures n <= |s|
    ensures forall k :: 0 <= k < n ==> IsWordChar(s[k])
    ensures n < |s| ==> !IsWordChar(s[n])
  {
    if s != [] && IsWordChar(s[0]) then 1 + WordRun(s[1..]) else 0
  }

  /** Length of the `{name}` field that starts `s`, or 0 when `s` does not start with one. */
  function FieldLength(s: string): (n: nat)
    ensures n == 0 || (3 <= n <= |s| && s[0] == '{' && s[n - 1] == '}')
  {
    if s != [] && s[0] == '{' then
      var w := WordRun(s[1..]);
      if w > 0 && 1 + w < |s| && s[1 + w] == '}' then w + 2 else 0
    else 0
  }

  /** The name inside the field that starts `s`. */
  function FieldName(s: string): (name: string)
    requires FieldLength(s) > 0
    ensures |name| > 0 && forall k :: 0 <= k < |name| ==> IsWordChar(name[k])
  {
    s[1..FieldLength(s) - 1]
  }

  /** `re.findall(r'\{(\w+)\}', s)`: the field names, left to right, non-overlapping. */
  function Placeholders(s: string): (names: seq<string>)
    decreases |s|
  {
    if s == [] then []
    else if FieldLength(s) > 0 then [FieldName(s)] + Placeholders(s[FieldLength(s)..])
    else Placeholders(s[1..])
  }

  /** A field name made only of digits: `str.format` reads it as a positional index, not a keyword. */
  predicate IsIndex(name: string)
  {
    forall k :: 0 <= k < |name| ==> '0' <= name[k] <= '9'
  }

  /**
   * Why `str.format` failed on this field: `KeyError` for a keyword that
   * has no value, or an index into the positional arguments, of which a
   * call with keywords only has none.
   */
  datatype FormatError = MissingVariable(name: string) | PositionalIndex(name: string)

  /**
   * `template.format(**vars)`: every field replaced by its value; the first
   * field, left to right, that is an index or has no value makes it fail.
   */
  function Format(template: string, vars: map<string, string>): (r: Result<string, FormatError>)
    ensures r.Success? <==> forall n :: n in Placeholders(template) ==> !IsIndex(n) && n in vars
    ensures r.Failure? ==> r.error.name in Placeholders(template)
    ensures r.Failure? && r.error.MissingVariable? ==> !IsIndex(r.error.name) && r.error.name !in vars
    ensures r.Failure? && r.error.PositionalIndex? ==> IsIndex(r.error.name)
    decreases |template|
  {
    if template == [] then Success("")
    else if FieldLength(template) > 0 then
      var name := FieldName(template);
      if IsIndex(name) then Failure(PositionalIndex(name))
      else if name !in vars then Failure(MissingVariable(name))
      else
        match Format(template[FieldLength(template)..], vars)
        case Success(rest) => Success(vars[name] + rest)
        case Failure(e) => Failure(e)
    else
      match Format(template[1..], vars)
      case Success(rest) => Success([template[0]] + rest)
      case Failure(e) => Failure(e)
  }

  /** A template without fields formats to itself, whatever the variables. */
  lemma {:induction false} FormatWithoutFields(template: string, vars: map<string, string>)
    requires Placeholders(template) == []
    ensures Format(template, vars) == Success(template)
    decreases |template|
  {
    if template != [] {
      assert FieldLength(template) == 0;
      assert Placeholders(template[1..]) == [];
      FormatWithoutFields(template[1..], vars);
      assert template == [template[0]] + template[1..];
    }
  }

  /** A run of word characters ends where the first other character stands. */
  lemma {:induction false} WordRunOfName(name: string, tail: string)
    requires forall k :: 0 <= k < |name| ==> IsWordChar(name[k])
    requires tail != [] && !IsWordChar(tail[0])
    ensures WordRun(name + tail) == |name|
    decreases |name|
  {
    if name != [] {
      assert (name + tail)[1..] == name[1..] + tail;
      WordRunOfName(name[1..], tail);
    }
  }

  /**
   * A keyword field at the start of a template is replaced by its value,
   * and the rest of the template formats on its own; an index, or a
   * keyword without a value, fails before the rest is looked at.
   */
  lemma FormatField(name: string, rest: string, vars: map<string, string>)
    requires |name| > 0 && forall k :: 0 <= k < |name| ==> IsWordChar(name[k])
    ensures IsIndex(name) ==> Format("{" + name + "}" + rest, vars) == Failure(PositionalIndex(name))
    ensures !IsIndex(name) && name !in vars ==> Format("{" + name + "}" + rest, vars) == Failure(MissingVariable(name))
    ensures !IsIndex(name) && name in vars ==>
      Format("{" + name + "}" + rest, vars) ==
      if Format(rest, vars).Success? then Success(vars[name] + Format(rest, vars).value) else Format(rest, vars)
  {
    var t := "{" + name + "}" + rest;
    assert t[1..] == name + ("}" + rest);
    WordRunOfName(name, "}" + rest);
    assert FieldLength(t) == |name| + 2;
    assert FieldName(t) == name;
    assert t[FieldLength(t)..] == rest;
  }

  /** A character that does not open a field is copied through. */
  lemma FormatLiteral(c: char, rest: string, vars: map<string, string>)
    requires c != '{'
    ensures Format([c] + rest, vars) ==
      if Format(rest, vars).Success? then Success([c] + Format(rest, vars).value) else Format(rest, vars)
  {
    assert ([c] + rest)[1..] == rest;
  }

  /**
   * The variables a template declares: its field names without
   * duplicates, in first-occurrence order (`list(dict.fromkeys(...))`).
   */
  function ExtractVariables(template: string): (vs: seq<string>)
    ensures NoDuplicates(vs)
    ensures forall x :: x in vs <==> x in Placeholders(template)
    ensures forall i, j :: 0 <= i < j < |vs| ==>
      IndexOf(Placeholders(template), vs[i]) < IndexOf(Placeholders(template), vs[j])
  {
    var names := Placeholders(template);
    AppendMissingSpec([], names);
    DedupOrder(names);
    Dedup(names)
  }

  /** Formatting succeeds exactly when every declared variable is a keyword and has a value. */
  lemma FormatSucceedsWithDeclaredVariables(template: string, vars: map<string, string>)
    ensures Format(template, vars).Success? <==> forall n :: n in ExtractVariables(template) ==> !IsIndex(n) && n in vars
  {
  }
}
