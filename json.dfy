/** JSON values as the dashboard generator sees them after `json.loads`, and the
    handful of Python operations the normalizers apply to them. */
module JsonData {

  datatype Option<+T> = None | Some(value: T)

  /** A parsed JSON value. Python's `int` and `float` are both `JNum`; `None` is `JNull`. */
  datatype Json =
    | JNull
    | JBool(b: bool)
    | JNum(n: real)
    | JStr(s: string)
    | JArr(items: seq<Json>)
    | JObj(fields: map<string, Json>)

  /** Python truthiness (`if data:`): null, false, 0, "", [] and {} are falsy. */
  predicate Truthy(j: Json) {
    match j
    case JNull => false
    case JBool(b) => b
    case JNum(n) => n != 0.0
    case JStr(s) => s != []
    case JArr(items) => items != []
    case JObj(fields) => fields != map[]
  }

  /** `key in d` for a dict `d`. */
  predicate HasKey(j: Json, key: string) {
    j.JObj? && key in j.fields
  }

  /** `d.get(key, default)` for a dict `d`; on anything else Python would raise,
      and the model yields the default. */
  function Get(j: Json, key: string, default: Json): Json
  {
    if HasKey(j, key) then j.fields[key] else default
  }

  /** `d.get(key, 'N/A')` where the result is only displayed: `None` stands for "N/A". */
  function GetShown(j: Json, key: string): Option<Json>
  {
    if HasKey(j, key) then Some(j.fields[key]) else None
  }

  /** Python's `len(x)` for a list, dict or string; other values make Python raise,
      and the model counts them as 0. */
  function Len(j: Json): nat
  {
    match j
    case JArr(items) => |items|
    case JObj(fields) => |fields|
    case JStr(s) => |s|
    case _ => 0
  }

  /** The elements a `for x in value` loop visits and then calls `.get` on. Only a
      list yields dicts; iterating any other value and calling `.get` raises in
      Python, so the model visits nothing. */
  function Items(j: Json): (r: seq<Json>)
    ensures |r| <= Len(j)
  {
    if j.JArr? then j.items else []
  }

  /** The falsy values are exactly null, false, zero, the empty string, the empty
      list and the empty dict. */
  lemma FalsyValues(j: Json)
    ensures !Truthy(j) <==> j == JNull || j == JBool(false) || j == JNum(0.0)
                             || j == JStr([]) || j == EmptyList || j == EmptyDict
  {
  }

  /** `d.get(key, default)` is the stored value when `d` is a dict holding `key`, and
      the default otherwise. */
  lemma GetOrDefault(j: Json, key: string, default: Json)
    ensures j.JObj? && key in j.fields ==> Get(j, key, default) == j.fields[key]
    ensures !j.JObj? || key !in j.fields ==> Get(j, key, default) == default
  {
  }

  /** A displayed `.get` shows a value exactly when the dict holds the key, and then
      shows what `.get` returns with any default. */
  lemma GetShownAgrees(j: Json, key: string, default: Json)
    ensures GetShown(j, key).Some? <==> j.JObj? && key in j.fields
    ensures GetShown(j, key).Some? ==> GetShown(j, key).value == Get(j, key, default)
  {
  }

  /** `len` of a list counts its elements, and a list, dict or string has length
      zero exactly when it is falsy. */
  lemma LenIsSize(j: Json)
    ensures j.JArr? ==> Len(j) == |j.items|
    ensures j.JArr? || j.JObj? || j.JStr? ==> (Len(j) == 0 <==> !Truthy(j))
    ensures !(j.JArr? || j.JObj? || j.JStr?) ==> Len(j) == 0
  {
  }

  /** A loop over a list visits all its elements in order; over anything else it
      visits nothing; it visits something only in a truthy value. */
  lemma ItemsOfList(j: Json)
    ensures j.JArr? ==> Items(j) == j.items && |Items(j)| == Len(j)
    ensures !j.JArr? ==> Items(j) == []
    ensures Items(j) != [] ==> Truthy(j)
  {
  }

  /** The empty list and dict used as `.get` defaults. */
  const EmptyList: Json := JArr([])
  const EmptyDict: Json := JObj(map[])
}
