/** How the tools' Python code reads a decoded value: `v.get(k, d)` and
    `for x in v`, including the exceptions Python raises when `v` has the wrong
    type. */
module PyValue {
  import opened Results
  import opened Assoc
  import opened Json
  import opened Errors

  /** `type(v).__name__` of the Python value a JSON value decodes to. */
  function TypeName(j: Json): string
  {
    match j
    case JNull => "NoneType"
    case JBool(_) => "bool"
    case JNum(_) => "int"
    case JStr(_) => "str"
    case JArr(_) => "list"
    case JObj(_) => "dict"
  }

  /** The `AttributeError` Python raises for `v.get(...)` when `v` is not a dict. */
  function NoGet(j: Json): Error
  {
    TypeMismatch("'" + TypeName(j) + "' object has no attribute 'get'")
  }

  /** `v.get(k, d)`. Only a dict has `get`; on anything else Python raises
      `AttributeError`. */
  function Get(j: Json, k: string, d: Json): (r: Result<Json, Error>)
    ensures r.Ok? <==> j.JObj?
    ensures j.JObj? && k !in Keys(j.members) ==> r == Ok(d)
    ensures j.JObj? && k in Keys(j.members) ==> r.Ok? && (k, r.value) in j.members
    ensures r.Err? ==> Message(r.error) == "'" + TypeName(j) + "' object has no attribute 'get'"
  {
    match j
    case JObj(ms) => Ok(GetOr(ms, k, d))
    case _ => Err(NoGet(j))
  }

  /** The elements `for x in v` visits: a list's items, a dict's keys, a string's
      characters. Anything else raises `TypeError`. */
  function Iterate(j: Json): (r: Result<seq<Json>, Error>)
    ensures r.Ok? <==> (j.JArr? || j.JObj? || j.JStr?)
    ensures j.JArr? ==> r == Ok(j.items)
    ensures j.JObj? ==> r.Ok? && |r.value| == |j.members|
                        && forall i :: 0 <= i < |j.members| ==> r.value[i] == JStr(Keys(j.members)[i])
    ensures j.JStr? ==> r.Ok? && |r.value| == |j.s|
                        && forall i :: 0 <= i < |j.s| ==> r.value[i] == JStr([j.s[i]])
    ensures r.Ok? ==> forall x :: x in r.value && !j.JArr? ==> x.JStr?
    ensures r.Err? ==> Message(r.error) == "'" + TypeName(j) + "' object is not iterable"
  {
    match j
    case JArr(items) => Ok(items)
    case JObj(ms) => Ok(seq(|ms|, i requires 0 <= i < |ms| => JStr(ms[i].0)))
    case JStr(s) => Ok(seq(|s|, i requires 0 <= i < |s| => JStr([s[i]])))
    case _ => Err(TypeMismatch("'" + TypeName(j) + "' object is not iterable"))
  }
}
