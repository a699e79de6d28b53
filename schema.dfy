/** The Zod rules the controllers' schemas are built from. A schema becomes the
    concatenation of its keys' issues in declaration order: the body is accepted
    exactly when that list is empty, and a rejection carries the whole list. */
module Schema {
  import opened Common

  /** The result of `schema.parse(body)`: the issues when the body is refused,
      otherwise the typed value the handler goes on with. */
  datatype Parse<T> = Invalid(issues: seq<Issue>) | Parsed(value: T)

  /** Zod's name for the type of a value it did not expect. */
  function TypeName(j: Json): string {
    match j
    case JNull => "null"
    case JBool(_) => "boolean"
    case JNumber(_) => "number"
    case JString(_) => "string"
    case JArray(_) => "array"
    case JObject(_) => "object"
  }

  /** The options of an enum as Zod lists them: quoted, separated by ` | `. */
  function Join(options: seq<string>): string {
    JoinFrom(options, 0)
  }

  /** The listing of `options[i..]`. */
  function JoinFrom(options: seq<string>, i: nat): string
    requires i <= |options|
    decreases |options| - i
  {
    if i == |options| then ""
    else if i == |options| - 1 then "'" + options[i] + "'"
    else "'" + options[i] + "' | " + JoinFrom(options, i + 1)
  }

  /** Zod's `z.date()` on a JSON body: a JSON value is never a `Date`, so the key
      always gets an issue. */
  function DateRule(body: Body, key: string): (issues: seq<Issue>)
    ensures |issues| == 1
  {
    if key !in body then [Issue(key, "Required")]
    else [Issue(key, "Expected date, received " + TypeName(body[key]))]
  }

  /** A string key: `z.string()` followed by a refinement `ok` that reports `message`. */
  function StringRule(body: Body, key: string, optional: bool, ok: string -> bool, message: string): (issues: seq<Issue>)
    ensures issues == [] <==> if key in body then body[key].JString? && ok(body[key].s) else optional
    ensures |issues| <= 1
  {
    if key !in body then (if optional then [] else [Issue(key, "Required")])
    else if !body[key].JString? then [Issue(key, "Expected string, received " + TypeName(body[key]))]
    else if !ok(body[key].s) then [Issue(key, message)]
    else []
  }

  /** `z.string()` with no refinement. */
  function PlainString(body: Body, key: string, optional: bool): (issues: seq<Issue>)
    ensures issues == [] <==> if key in body then body[key].JString? else optional
  {
    StringRule(body, key, optional, _ => true, "")
  }

  /** `z.enum(options)`. */
  function EnumRule(body: Body, key: string, optional: bool, options: seq<string>): (issues: seq<Issue>)
    ensures issues == [] <==> if key in body then body[key].JString? && body[key].s in options else optional
  {
    if key in body && body[key].JString? then
      StringRule(body, key, optional, s => s in options,
                 "Invalid enum value. Expected " + Join(options) + ", received '" + body[key].s + "'")
    else StringRule(body, key, optional, s => s in options, "")
  }

  /** `z.string().length(n)`: exactly `n` characters as JavaScript counts them
      (UTF-16 code units). */
  function LengthRule(body: Body, key: string, n: nat): (issues: seq<Issue>)
    ensures issues == [] <==> key in body && body[key].JString? && Utf16Length(body[key].s) == n
  {
    StringRule(body, key, false, s => Utf16Length(s) == n, "String must contain exactly " + NatToString(n) + " character(s)")
  }

  /** A number key: `z.number()` followed by a refinement `ok` that reports `message`. */
  function NumberRule(body: Body, key: string, optional: bool, ok: real -> bool, message: string): (issues: seq<Issue>)
    ensures issues == [] <==> if key in body then body[key].JNumber? && ok(body[key].n) else optional
  {
    if key !in body then (if optional then [] else [Issue(key, "Required")])
    else if !body[key].JNumber? then [Issue(key, "Expected number, received " + TypeName(body[key]))]
    else if !ok(body[key].n) then [Issue(key, message)]
    else []
  }

  /** `z.number()` with no refinement. */
  function PlainNumber(body: Body, key: string): (issues: seq<Issue>)
    ensures issues == [] <==> key in body && body[key].JNumber?
  {
    NumberRule(body, key, false, _ => true, "")
  }

  /** `z.array(z.unknown())`. */
  function ArrayRule(body: Body, key: string, optional: bool): (issues: seq<Issue>)
    ensures issues == [] <==> if key in body then body[key].JArray? else optional
  {
    if key !in body then (if optional then [] else [Issue(key, "Required")])
    else if !body[key].JArray? then [Issue(key, "Expected array, received " + TypeName(body[key]))]
    else []
  }

  /** `z.object(...)` at a key, whose own keys are checked by `inner`. */
  function ObjectRule(body: Body, key: string, optional: bool, inner: Body -> seq<Issue>): (issues: seq<Issue>)
    ensures issues == [] <==> if key in body then body[key].JObject? && inner(body[key].fields) == [] else optional
  {
    if key !in body then (if optional then [] else [Issue(key, "Required")])
    else if !body[key].JObject? then [Issue(key, "Expected object, received " + TypeName(body[key]))]
    else Nest(key, inner(body[key].fields))
  }

  /** `z.array(z.object(...))` at a key: the element issues, in element order. */
  function ObjectArrayRule(body: Body, key: string, optional: bool, inner: Body -> seq<Issue>): (issues: seq<Issue>)
    ensures issues == [] <==> if key in body then body[key].JArray? && AllObjects(body[key].items, inner) else optional
  {
    if key !in body then (if optional then [] else [Issue(key, "Required")])
    else if !body[key].JArray? then [Issue(key, "Expected array, received " + TypeName(body[key]))]
    else Nest(key, ElementIssues(body[key].items, inner, 0))
  }

  /** Every element is an object that `inner` accepts. */
  predicate AllObjects(items: seq<Json>, inner: Body -> seq<Issue>) {
    forall i :: 0 <= i < |items| ==> items[i].JObject? && inner(items[i].fields) == []
  }

  function ElementIssues(items: seq<Json>, inner: Body -> seq<Issue>, from: nat): (issues: seq<Issue>)
    ensures issues == [] <==> AllObjects(items, inner)
    decreases |items|
  {
    if items == [] then []
    else
      var here :=
        if items[0].JObject? then Nest(NatToString(from), inner(items[0].fields))
        else [Issue(NatToString(from), "Expected object, received " + TypeName(items[0]))];
      var rest := ElementIssues(items[1..], inner, from + 1);
      assert AllObjects(items, inner) <==> (items[0].JObject? && inner(items[0].fields) == []) && AllObjects(items[1..], inner) by {
        if AllObjects(items[1..], inner) && items[0].JObject? && inner(items[0].fields) == [] {
          forall i | 0 <= i < |items| ensures items[i].JObject? && inner(items[i].fields) == [] {
            if i > 0 { assert items[i] == items[1..][i - 1]; }
          }
        }
      }
      here + rest
  }

  /** Issues of a nested schema, with their paths put under `key`. */
  function Nest(key: string, issues: seq<Issue>): (r: seq<Issue>)
    ensures |r| == |issues|
  {
    if issues == [] then [] else [Issue(key + "." + issues[0].path, issues[0].message)] + Nest(key, issues[1..])
  }

  /** Zod strips the keys a schema does not declare. */
  function Strip(body: Body, keys: set<string>): (r: Body)
    ensures r.Keys == body.Keys * keys
    ensures forall k :: k in r ==> r[k] == body[k]
  {
    map k | k in body && k in keys :: body[k]
  }
}
