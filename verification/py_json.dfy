/** Decoded JSON values and the Python truthiness the pipeline's decisions rest on. */
module PyJson {
  import opened Wrappers

  /** A decoded JSON value as Python sees it (`null` is `None`). Numbers are
      integers: the fields the pipeline inspects are strings, lists, objects
      and integer ids. */
  datatype Json =
    | Null
    | Bool(b: bool)
    | Num(n: int)
    | Str(s: string)
    | Arr(items: seq<Json>)
    | Obj(fields: map<string, Json>)

  /** A decoded JSON object, the body of every reply of the legal-data API. */
  type Object = map<string, Json>

  /** Python truthiness: `None`, `False`, `0`, `""`, `[]` and `{}` are false. */
  predicate Truthy(j: Json)
  {
    match j
    case Null => false
    case Bool(b) => b
    case Num(n) => n != 0
    case Str(s) => |s| != 0
    case Arr(items) => |items| != 0
    case Obj(fields) => |fields| != 0
  }

  /** Truthiness of a decoded body that may be `None`. */
  predicate TruthyBody(data: Option<Object>)
  {
    data.Some? && |data.value| != 0
  }

  /** `o.get(key)`: the value under `key`, or `None` when the key is absent. */
  function Get(o: Object, key: string): Json
  {
    if key in o then o[key] else Null
  }

  /** `o.get(key, default)`: the default applies only to an absent key. */
  function GetOr(o: Object, key: string, default: Json): Json
  {
    if key in o then o[key] else default
  }

  /** Python's `a or b`. */
  function Or(a: Json, b: Json): Json
  {
    if Truthy(a) then a else b
  }

  /** `vs[0] or vs[1] or ... or vs[n-1]`: the first truthy operand, or the
      last operand when none is truthy. */
  function FirstTruthy(vs: seq<Json>): (r: Json)
    requires |vs| != 0
    ensures Truthy(r) <==> exists i :: 0 <= i < |vs| && Truthy(vs[i])
    ensures forall i :: 0 <= i < |vs| && Truthy(vs[i]) && (forall j :: 0 <= j < i ==> !Truthy(vs[j])) ==> r == vs[i]
    ensures !Truthy(r) ==> r == vs[|vs| - 1]
  {
    if |vs| == 1 then vs[0]
    else
      var rest := FirstTruthy(vs[1..]);
      assert forall i :: 1 <= i < |vs| ==> vs[1..][i - 1] == vs[i];
      Or(vs[0], rest)
  }
}
