/**
 * JSON values as the core stores them in `JSONField`s and exchanges them
 * with the OCR adapters, together with the few Python operations the core
 * applies to them: truthiness, `key in value`, `value[key]`, iteration,
 * `str(value)` and `json.dumps(value)`.
 */
module Json {
  import opened Wrappers
  import opened Text

  /** A JSON object keeps its members in insertion order, like a Python dict. */
  datatype Json =
    | JNull
    | JBool(b: bool)
    | JInt(i: int)
    | JStr(s: string)
    | JList(items: seq<Json>)
    | JObject(members: seq<Member>)

  datatype Member = Member(key: string, value: Json)

  const EmptyObject: Json := JObject([])

  /** Python truthiness: `None`, `False`, `0`, `""`, `[]` and `{}` are false. */
  predicate Truthy(j: Json)
  {
    match j
    case JNull => false
    case JBool(b) => b
    case JInt(i) => i != 0
    case JStr(s) => s != ""
    case JList(items) => items != []
    case JObject(members) => members != []
  }

  function Keys(members: seq<Member>): (ks: seq<string>)
    ensures |ks| == |members|
    ensures forall k :: 0 <= k < |members| ==> ks[k] == members[k].key
  {
    if members == [] then [] else [members[0].key] + Keys(members[1..])
  }

  /** The value stored under `key` in a list of members. */
  function Lookup(members: seq<Member>, key: string): (r: Option<Json>)
    ensures r.Some? <==> key in Keys(members)
  {
    if members == [] then None
    else if members[0].key == key then Some(members[0].value)
    else Lookup(members[1..], key)
  }

  /** The value under `key` is that of its first member with that key. */
  lemma {:induction false} LookupAt(members: seq<Member>, i: nat, key: string)
    requires i < |members| && members[i].key == key
    requires forall j :: 0 <= j < i ==> members[j].key != key
    ensures Lookup(members, key) == Some(members[i].value)
  {
    if i > 0 {
      LookupAt(members[1..], i - 1, key);
    }
  }

  /** `d.get(key)` on an object; `None` for any other value. */
  function Get(j: Json, key: string): Option<Json>
  {
    if j.JObject? then Lookup(j.members, key) else None
  }

  /**
   * `d[key] = v` on the members of a dict: the first member with that key
   * gets the new value, or a new member is appended.
   */
  function PutMember(members: seq<Member>, key: string, v: Json): (r: seq<Member>)
    ensures Lookup(r, key) == Some(v)
    ensures forall other :: other != key ==> Lookup(r, other) == Lookup(members, other)
  {
    if members == [] then [Member(key, v)]
    else if members[0].key == key then [Member(key, v)] + members[1..]
    else [members[0]] + PutMember(members[1..], key, v)
  }

  predicate IsSubstring(part: string, whole: string)
  {
    StartsWith(whole, part) || (whole != [] && IsSubstring(part, whole[1..]))
  }

  function TypeName(j: Json): string
  {
    match j
    case JNull => "NoneType"
    case JBool(_) => "bool"
    case JInt(_) => "int"
    case JStr(_) => "str"
    case JList(_) => "list"
    case JObject(_) => "dict"
  }

  /** Python's `key in j` for a string `key`. */
  function In(key: string, j: Json): (r: Outcome<bool>)
    ensures j.JObject? ==> r == Ok(key in Keys(j.members))
    ensures j.JList? ==> r == Ok(JStr(key) in j.items)
    ensures r.Raised? <==> !(j.JObject? || j.JList? || j.JStr?)
  {
    match j
    case JObject(members) => Ok(key in Keys(members))
    case JList(items) => Ok(JStr(key) in items)
    case JStr(s) => Ok(IsSubstring(key, s))
    case _ => Raised("argument of type '" + TypeName(j) + "' is not iterable")
  }

  /** Python's `j[key]` for a string `key`. */
  function Index(j: Json, key: string): (r: Outcome<Json>)
    ensures r.Ok? <==> j.JObject? && key in Keys(j.members)
    ensures r.Ok? ==> Get(j, key) == Some(r.value)
  {
    match j
    case JObject(members) =>
      (match Lookup(members, key)
       case Some(v) => Ok(v)
       case None => Raised("KeyError: '" + key + "'"))
    case _ => Raised("'" + TypeName(j) + "' object is not subscriptable")
  }

  function Chars(s: string): (r: seq<Json>)
    ensures |r| == |s|
    ensures forall k :: 0 <= k < |s| ==> r[k] == JStr([s[k]])
  {
    if s == [] then [] else [JStr([s[0]])] + Chars(s[1..])
  }

  function KeyValues(ks: seq<string>): (r: seq<Json>)
    ensures |r| == |ks|
    ensures forall k :: 0 <= k < |ks| ==> r[k] == JStr(ks[k])
  {
    if ks == [] then [] else [JStr(ks[0])] + KeyValues(ks[1..])
  }

  /**
   * The items a Python `for x in j` visits: list items, dict keys, or the
   * characters of a string; other values are not iterable.
   */
  function Iterate(j: Json): (r: Outcome<seq<Json>>)
    ensures j.JList? ==> r == Ok(j.items)
    ensures j.JObject? ==> r == Ok(KeyValues(Keys(j.members)))
    ensures r.Raised? <==> !(j.JObject? || j.JList? || j.JStr?)
  {
    match j
    case JList(items) => Ok(items)
    case JObject(members) => Ok(KeyValues(Keys(members)))
    case JStr(s) => Ok(Chars(s))
    case _ => Raised("'" + TypeName(j) + "' object is not iterable")
  }

  /** Python's `repr` of a JSON-shaped value (string escaping is not modelled). */
  function Repr(j: Json): string
  {
    match j
    case JNull => "None"
    case JBool(b) => if b then "True" else "False"
    case JInt(i) => IntToString(i)
    case JStr(s) => "'" + s + "'"
    case JList(items) => "[" + ReprItems(items) + "]"
    case JObject(members) => "{" + ReprMembers(members) + "}"
  }

  function ReprItems(items: seq<Json>): string
    decreases items
  {
    if items == [] then ""
    else if |items| == 1 then Repr(items[0])
    else Repr(items[0]) + ", " + ReprItems(items[1..])
  }

  function ReprMembers(members: seq<Member>): string
    decreases members
  {
    if members == [] then ""
    else
      var m := members[0];
      var head := "'" + m.key + "': " + Repr(m.value);
      if |members| == 1 then head else head + ", " + ReprMembers(members[1..])
  }

  /** Python's `str(j)`: a string is itself, anything else its repr. */
  function PyStr(j: Json): (r: string)
    ensures j.JStr? ==> r == j.s
  {
    if j.JStr? then j.s else Repr(j)
  }

  /**
   * `json.dumps(j)`: the structure and scalars in JSON notation; the
   * indentation and string escaping Python applies are not modelled.
   */
  function Dump(j: Json): string
  {
    match j
    case JNull => "null"
    case JBool(b) => if b then "true" else "false"
    case JInt(i) => IntToString(i)
    case JStr(s) => "\"" + s + "\""
    case JList(items) => "[" + DumpItems(items) + "]"
    case JObject(members) => "{" + DumpMembers(members) + "}"
  }

  function DumpItems(items: seq<Json>): string
    decreases items
  {
    if items == [] then ""
    else if |items| == 1 then Dump(items[0])
    else Dump(items[0]) + ", " + DumpItems(items[1..])
  }

  function DumpMembers(members: seq<Member>): string
    decreases members
  {
    if members == [] then ""
    else
      var m := members[0];
      var head := "\"" + m.key + "\": " + Dump(m.value);
      if |members| == 1 then head else head + ", " + DumpMembers(members[1..])
  }
}
